// What a token stands for, and for how long.

module SessionMeaning {
  import opened Prelude
  import opened OpaqueToken
  import opened Sessions
  import opened SessionStore
  import opened SessionProtocol
  import opened SessionInvariants
  import opened SessionSteps
  import opened SessionTheorems
  import opened SessionSafety
  import D = Dgraph

  // --- Principals ----------------------------------------------------------------------

  /** Rotation keeps the whole principal: any two stored sessions of one family
      speak for the same identity with the same permissions. */
  lemma RotationKeepsPrincipal(r: Trace, u: D.Uid, v: D.Uid)
    ensures var w := At(r).w;
      (Visible(w, u) && Visible(w, v)
       && u in w.hist.births && v in w.hist.births && w.hist.births[u].root == w.hist.births[v].root) ==>
        && CoreOf(Node(w, u)).who == CoreOf(Node(w, v)).who
        && CoreOf(Node(w, u)).permVersion == CoreOf(Node(w, v)).permVersion
        && CoreOf(Node(w, u)).refreshExpiresAt == CoreOf(Node(w, v)).refreshExpiresAt
  {
    hide Run, ProcOk, CoreOf, MintsOk, PastOk, D.WellFormed, OriginOk, TailOk, NodesOk;
    Reached(r);
    var w := At(r).w;
    if Visible(w, u) && Visible(w, v) {
      StoredCore(w, u);
      StoredCore(w, v);
      assert RootOk(w.hist.births, u) && RootOk(w.hist.births, v);
    }
  }

  /** The login a session descends from, through rotations and activations. */
  function LoginOf(births: Births, u: D.Uid): D.Uid
    requires u in births
    decreases u
  {
    match births[u].origin
    case Login => u
    case Rotated(p) => if p in births && p < u then LoginOf(births, p) else u
    case Activated(p) => if p in births && p < u then LoginOf(births, p) else u
  }

  /** Any mix of rotations and context activations keeps kind, user and client
      of the login it all started from. */
  lemma LoginKept(r: Trace, u: D.Uid)
    requires u in At(r).w.hist.births
    ensures var births := At(r).w.hist.births;
      var l := LoginOf(births, u);
      l in births && births[l].origin.Login? && SameLogin(births[u].core.who, births[l].core.who)
  {
    hide Run, WorldOk, ProcOk;
    Reached(r);
    Descent(At(r).w, u);
  }

  lemma {:induction false} Descent(w: World, u: D.Uid)
    requires WorldOk(w) && u in w.hist.births
    ensures var l := LoginOf(w.hist.births, u);
      && l in w.hist.births && w.hist.births[l].origin.Login?
      && SameLogin(w.hist.births[u].core.who, w.hist.births[l].core.who)
    decreases u
  {
    hide NodesOk, FamiliesOk, MintsOk, PastOk, D.WellFormed;
    match w.hist.births[u].origin
    case Login =>
    case Rotated(p) =>
      ParentLogin(w, u);
      Descent(w, p);
    case Activated(p) =>
      ParentLogin(w, u);
      Descent(w, p);
  }

  lemma ParentLogin(w: World, u: D.Uid)
    requires WorldOk(w) && u in w.hist.births && !w.hist.births[u].origin.Login?
    ensures var p := w.hist.births[u].origin.parent;
      p in w.hist.births && p < u && SameLogin(w.hist.births[u].core.who, w.hist.births[p].core.who)
  {
    hide NodesOk, PastOk, D.WellFormed, TailOk, MakerOk;
    assert RootOk(w.hist.births, u) && OriginOk(w.cfg, w.hist.births, w.hist.succ, u) && ActivationOk(w.hist.births, u);
    if w.hist.births[u].origin.Rotated? {
      assert RootOk(w.hist.births, w.hist.births[u].origin.parent);
    }
  }

  // --- When an access token verifies ---------------------------------------------------

  /** Session `u` answers to `raw` and is good at this moment. */
  ghost predicate Good(w: World, raw: string, u: D.Uid) {
    && u in w.hist.births && w.hist.births[u].core.accessHash == Hash(raw)
    && Visible(w, u) && LiveAt(w, u) && w.clock <= w.hist.births[u].core.expiresAt
  }

  lemma AcceptsGood(w: World, raw: string) returns (u: D.Uid)
    requires WorldOk(w) && Accepts(w, raw)
    ensures Good(w, raw, u)
  {
    hide Select, WorldOk, PrincipalOf, StatusOf, CoreOf;
    var f := ByAccessHash(Hash(raw));
    u := Query(w.db, f)[0];
    assert u in Query(w.db, f);
    Matched(w, f, u);
    StoredCore(w, u);
    ReadNode(w, u);
  }

  lemma GoodAccepts(w: World, raw: string, u: D.Uid)
    requires WorldOk(w) && Good(w, raw, u)
    ensures Accepts(w, raw)
  {
    hide Select, WorldOk, PrincipalOf, LiveAt;
    var f := ByAccessHash(Hash(raw));
    StoredCore(w, u);
    VisibleBelow(w, u);
    assert u in Query(w.db, f);
    SingleMatch(w, f);
    assert Query(w.db, f) == [u];
    LiveNotRevoked(w, u);
  }

  lemma VisibleBelow(w: World, u: D.Uid)
    requires WorldOk(w) && Visible(w, u)
    ensures u < w.db.nextUid && u in w.db.nodes
  {
    hide NodesOk, FamiliesOk, MintsOk, PastOk;
  }

  lemma LiveNotRevoked(w: World, u: D.Uid)
    requires LiveAt(w, u)
    ensures !View(u, Node(w, u)).status.revoked
  {
    hide CoreOf;
  }

  /** Goodness is lost for ever, and only gained at birth. */
  lemma GoodBetween(w1: World, w2: World, w3: World, raw: string, u: D.Uid)
    requires WorldOk(w2) && Later(w1, w2) && Later(w2, w3)
    requires u in w1.hist.births && Good(w3, raw, u)
    ensures Good(w2, raw, u)
  {
    hide WorldOk, D.Extends, LiveAt, Visible;
  }

  /** The moments at which a raw access token verifies form one interval. */
  lemma AcceptedInterval(r: Trace, a: seq<Event>, b: seq<Event>, raw: string)
    requires Accepts(At(r).w, raw) && Accepts(At(Then(Then(r, a), b)).w, raw)
    ensures Accepts(At(Then(r, a)).w, raw)
  {
    hide Run, WorldOk, ProcOk, Later, Accepts;
    Continues(r, a);
    Continues(Then(r, a), b);
    var w1, w2, w3 := At(r).w, At(Then(r, a)).w, At(Then(Then(r, a), b)).w;
    var u := AcceptsGood(w1, raw);
    var v := AcceptsGood(w3, raw);
    LaterTrans(w1, w2, w3);
    SameSession(w1, w3, raw, u, v);
    GoodBetween(w1, w2, w3, raw, u);
    GoodAccepts(w2, raw, u);
  }

  lemma SameSession(w1: World, w3: World, raw: string, u: D.Uid, v: D.Uid)
    requires WorldOk(w3) && Later(w1, w3) && Good(w1, raw, u) && Good(w3, raw, v)
    ensures u == v
  {
    hide WorldOk, D.Extends, LiveAt, Visible;
    if u != v {
      DistinctTokens(w3, u, v);
    }
  }

  /** A token that belongs to a session and is rejected, as expired, revoked or
      purged, is rejected in every later state of every run. */
  lemma RejectedForGood(r: Trace, more: seq<Event>, raw: string, u: D.Uid)
    requires u in At(r).w.hist.births && At(r).w.hist.births[u].core.accessHash == Hash(raw)
    requires !Accepts(At(r).w, raw)
    ensures !Accepts(At(Then(r, more)).w, raw)
  {
    hide Run, WorldOk, ProcOk, Later, Accepts;
    Continues(r, more);
    var w, w2 := At(r).w, At(Then(r, more)).w;
    if Accepts(w2, raw) {
      var v := AcceptsGood(w2, raw);
      WasGood(w, w2, raw, u, v);
      GoodAccepts(w, raw, u);
    }
  }

  lemma WasGood(w: World, w2: World, raw: string, u: D.Uid, v: D.Uid)
    requires WorldOk(w2) && Later(w, w2) && Good(w2, raw, v)
    requires u in w.hist.births && w.hist.births[u].core.accessHash == Hash(raw)
    ensures Good(w, raw, u)
  {
    hide WorldOk, D.Extends, LiveAt, Visible;
    if u != v {
      DistinctTokens(w2, u, v);
    }
  }

  /** Verification reads the store and the clock at different moments, yet an
      accepted token was acceptable at the moment of its lookup, whatever others
      did in between. */
  lemma VerifyLinearizes(r: Trace, pid: Pid, raw: string, d: Draws, more: seq<Event>)
    requires pid in At(r).procs && At(r).procs[pid] == Proc(VerifyOp(raw), Start)
    requires forall e :: e in more ==> !(e.Act? && e.pid == pid)
    ensures var s := Run(Step(At(r), Act(pid, NoFault, d)), more);
      var t := Step(s, Act(pid, NoFault, d));
      pid in t.procs && (t.procs[pid].pc.TouchReady? ==> Accepts(At(r).w, raw))
  {
    hide WorldOk, ProcOk, Lookup, Later;
    Reached(r);
    var s1 := At(r);
    var s2 := Step(s1, Act(pid, NoFault, d));
    hide Run;
    StepKeeps(s1, Act(pid, NoFault, d));
    RunKeeps(s2, more);
    Undisturbed(s2, more, pid);
    var s3 := Run(s2, more);
    ClockForward(s2.w, s3.w);
    hide Inv, After;
  }

  lemma ClockForward(a: World, b: World)
    requires Later(a, b)
    ensures a.clock <= b.clock
  {
  }

  lemma {:induction false} Undisturbed(s: State, es: seq<Event>, pid: Pid)
    requires pid in s.procs && forall e :: e in es ==> !(e.Act? && e.pid == pid)
    ensures pid in Run(s, es).procs && Run(s, es).procs[pid] == s.procs[pid]
    decreases |es|
  {
    hide Next;
    if es != [] {
      assert es[0] in es;
      Undisturbed(Step(s, es[0]), es[1..], pid);
    }
  }
}
