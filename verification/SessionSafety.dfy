// Revocation, expiry and racing clients, over every interleaving.

module SessionSafety {
  import opened Prelude
  import opened Times
  import opened Sessions
  import opened SessionStore
  import opened SessionProtocol
  import opened SessionInvariants
  import opened SessionPreservation
  import opened SessionSteps
  import opened SessionTheorems
  import D = Dgraph

  // --- Revocation against rotation ---------------------------------------------------

  /** Once a session is revoked, or purged, it never gains a replacement: a
      rotation that read it before cannot commit, and none that reads it later succeeds. */
  lemma RevokedNeverReplaced(r: Trace, more: seq<Event>, u: D.Uid, v: D.Uid)
    ensures var w, w2 := At(r).w, At(Then(r, more)).w;
      (u in w.hist.births && !LiveAt(w, u) && v in w2.hist.births && w2.hist.births[v].origin == Rotated(u)) ==>
        v in w.hist.births
  {
    hide Run, WorldOk, ProcOk;
    Continues(r, more);
    var w, w2 := At(r).w, At(Then(r, more)).w;
    if u in w.hist.births && !LiveAt(w, u) && v in w2.hist.births && w2.hist.births[v].origin == Rotated(u)
       && v !in w.hist.births {
      Unreplaced(At(r), more, u, v);
    }
  }

  /** Walk the continuation: the step that created `v` would have found `u` live. */
  lemma {:induction false} Unreplaced(s: State, es: seq<Event>, u: D.Uid, v: D.Uid)
    requires Inv(s) && u in s.w.hist.births && !LiveAt(s.w, u) && v !in s.w.hist.births
    ensures v in Run(s, es).w.hist.births ==> Run(s, es).w.hist.births[v].origin != Rotated(u)
    decreases |es|
  {
    hide Inv, Step, LiveAt;
    if es != [] {
      var t := Step(s, es[0]);
      StepKeeps(s, es[0]);
      OneStepUnreplaced(s, es[0], u, v);
      if v in t.w.hist.births {
        RunKeeps(t, es[1..]);
        hide D.Extends;
      } else {
        hide D.Extends;
        Unreplaced(t, es[1..], u, v);
      }
    }
  }

  lemma OneStepUnreplaced(s: State, e: Event, u: D.Uid, v: D.Uid)
    requires Inv(s) && u in s.w.hist.births && !LiveAt(s.w, u) && v !in s.w.hist.births
    ensures v in Step(s, e).w.hist.births ==> Step(s, e).w.hist.births[v].origin != Rotated(u)
  {
    hide WorldOk, LiveAt, ProcOk, RotationAborts, Started, Judged, FreshDraws, OpenCore, RotationCore;
    hide Query, GetByID, Apply;
    if e.Act? && e.pid in s.procs {
      var Proc(op, pc) := s.procs[e.pid];
      assert ProcOk(s.w, e.pid, op, pc);
      if op.RefreshOp? && pc.RotateOpen? && !RotationAborts(s.w, op, pc) {
        CommitFindsLive(s.w, e.pid, op, pc);
      }
      if pc.CreateReady? {
        OpensFamily(s.w, e.pid, op, pc);
      }
    }
  }

  lemma OpensFamily(w: World, pid: Pid, op: Op, pc: Pc)
    requires ProcOk(w, pid, op, pc) && pc.CreateReady?
    ensures !pc.origin.Rotated?
  {
  }

  /** The commit check of a rotation passes only if the session is still live. */
  lemma CommitFindsLive(w: World, pid: Pid, op: Op, pc: Pc)
    requires WorldOk(w) && ProcOk(w, pid, op, pc) && op.RefreshOp? && pc.RotateOpen? && !RotationAborts(w, op, pc)
    ensures LiveAt(w, pc.x.id)
  {
    hide WorldOk, MintOf, LiveAt, Apply;
    UnchangedSince(w, op, pc);
    hide RotationAborts;
  }

  /** No resurrection: a purged session never shows up again in any query, in
      spite of late `Touch` and `Revoke` writes to its uid. */
  lemma NoResurrection(r: Trace, more: seq<Event>, u: D.Uid, f: Filter)
    ensures var w, w2 := At(r).w, At(Then(r, more)).w;
      (u in w.hist.births && !Visible(w, u)) ==>
        !Visible(w2, u) && GetByID(w2.db, u) == None && u !in Query(w2.db, f) && !LiveAt(w2, u)
  {
    hide Run, WorldOk, ProcOk, D.Extends, LiveAt;
    Continues(r, more);
    var w2 := At(Then(r, more)).w;
    if !Visible(w2, u) {
      RemnantHidden(w2, u, f);
    }
  }

  lemma RemnantHidden(w: World, u: D.Uid, f: Filter)
    requires WorldOk(w) && !Visible(w, u)
    ensures u !in Query(w.db, f) && !LiveAt(w, u)
  {
    hide FamiliesOk, MintsOk, PastOk, D.WellFormed, Select, CoreOf, StatusOf;
    assert NodeOk(Node(w, u), w.hist.births, w.hist.succ, u);
  }

  // --- Bulk revocation -------------------------------------------------------------------

  ghost predicate Pending(s: State, pid: Pid) {
    pid in s.procs && s.procs[pid].pc.Sweeping?
  }

  /** When the write of a bulk revocation commits, exactly the user's sessions
      committed up to its list snapshot are dead; every other node is untouched. */
  lemma SweepExact(r: Trace, pid: Pid, f: Fault, d: Draws)
    requires Pending(At(r), pid) && f != Refused
    ensures var s := At(r);
      var pc, t := s.procs[pid].pc, Step(s, Act(pid, f, d));
      && (forall u :: u in s.w.hist.births && s.w.hist.births[u].core.who.userId == pc.userId ==>
            (LiveAt(t.w, u) <==> LiveAt(s.w, u) && s.w.hist.births[u].bornTs > pc.listTs))
      && (forall u :: u in s.w.hist.births && s.w.hist.births[u].core.who.userId != pc.userId ==>
            Node(t.w, u) == Node(s.w, u))
  {
    hide Run, WorldOk, ProcOk, Next, Apply;
    Reached(r);
    var s := At(r);
    var pc := s.procs[pid].pc;
    SweepStep(s.w, pid, s.procs[pid].op, pc, f, d);
    ListedExact(s.w, pid, s.procs[pid].op, pc);
    SweepEffect(s.w, pid, pc.uids);
    hide LiveAt, Node;
  }

  lemma SweepStep(w: World, pid: Pid, op: Op, pc: Pc, f: Fault, d: Draws)
    requires pc.Sweeping? && f != Refused
    ensures Next(w, pid, op, pc, f, d).0 == Store(w, Revoke(pc.uids, w.clock))
  {
    hide Store;
  }

  lemma ListedExact(w: World, pid: Pid, op: Op, pc: Pc)
    requires ProcOk(w, pid, op, pc) && pc.Sweeping?
    ensures forall u :: u in pc.uids ==> BornOf(w, pc.userId, pc.listTs, u)
    ensures forall u :: BornOf(w, pc.userId, pc.listTs, u) && LiveAt(w, u) ==> u in pc.uids
  {
    hide LiveAt;
  }

  lemma SweepEffect(w: World, pid: Pid, uids: seq<D.Uid>)
    requires WorldOk(w) && forall u :: u in uids ==> u in w.hist.births
    ensures var t := Store(w, Revoke(uids, w.clock));
      && (forall u :: LiveAt(t, u) <==> LiveAt(w, u) && u !in uids)
      && (forall u :: u !in uids ==> Node(t, u) == Node(w, u))
  {
    hide WorldOk, Apply, LiveAt;
    RevokeMoves(w, uids, pid);
    hide Moves;
    SweepGrounded(w, uids);
    forall u | u !in uids ensures Node(Store(w, Revoke(uids, w.clock)), u) == Node(w, u) {
      SweepOther(w, Revoke(uids, w.clock), u);
    }
  }

  lemma SweepGrounded(w: World, uids: seq<D.Uid>)
    requires WorldOk(w) && forall u :: u in uids ==> u in w.hist.births
    ensures Grounded(w.db, Revoke(uids, w.clock))
  {
    hide NodesOk, FamiliesOk, MintsOk, D.WellFormed;
  }

  lemma SweepOther(w: World, m: Mutation, u: D.Uid)
    requires WorldOk(w) && m.Revoke? && Grounded(w.db, m) && u !in m.uids
    ensures D.NodeAt(Apply(w.db, m), u) == Node(w, u)
  {
    hide NodesOk, FamiliesOk, MintsOk, PastOk, Apply, Grounded;
    ApplyEffect(w.db, m, u);
  }

  /** What a finished bulk revocation promises for good: any session of that
      user live at any later time was committed after its list snapshot. */
  lemma SweptForGood(r: Trace, more: seq<Event>, pid: Pid, u: D.Uid)
    requires pid in At(r).procs
    ensures var o, w2 := At(r).procs[pid].pc, At(Then(r, more)).w;
      (o.Done? && o.outcome.SweptAll? && u in w2.hist.births && LiveAt(w2, u)
       && w2.hist.births[u].core.who.userId == o.outcome.userId) ==> w2.hist.births[u].bornTs > o.outcome.listTs
    ensures var o, w2 := At(r).procs[pid].pc, At(Then(r, more)).w;
      (o.Done? && o.outcome.Replayed? && o.outcome.swept.Some? && u in w2.hist.births && LiveAt(w2, u)
       && w2.hist.births[u].core.who.userId == o.outcome.userId) ==> w2.hist.births[u].bornTs > o.outcome.swept.value
  {
    hide Run, WorldOk, D.Extends, LiveAt, Next;
    Continues(r, more);
    var t := At(Then(r, more));
    assert t.procs[pid].op == At(r).procs[pid].op;
    if At(r).procs[pid].pc.Done? {
      assert ProcOk(t.w, pid, t.procs[pid].op, t.procs[pid].pc);
      hide MadeBy, HasMint, Unborn;
    }
  }

  // --- Deadlines and purging ---------------------------------------------------------------

  /** However often a session was rotated, its stored refresh deadline is the
      one its family got at login, to the second; and no access token outlives it
      by more than its own lifetime plus the pause between expiry check and minting. */
  lemma DeadlineConserved(r: Trace, u: D.Uid)
    requires u in At(r).w.hist.births
    ensures var w := At(r).w;
      var b := w.hist.births[u];
      && b.root in w.hist.births
      && b.core.refreshExpiresAt == Trunc(w.hist.births[b.root].mintedAt + r.cfg.RefreshTTL())
      && (Visible(w, u) ==> CoreOf(Node(w, u)).refreshExpiresAt == b.core.refreshExpiresAt
                            && CoreOf(Node(w, u)).expiresAt == b.core.expiresAt)
      && (r.cfg.RefreshTTL() >= SECOND ==> b.core.expiresAt <= b.core.refreshExpiresAt + r.cfg.AccessTTL() + b.lag)
  {
    hide Run, WorldOk, ProcOk, D.Extends, CoreOf;
    Reached(r);
    RunKeeps(Init(r.cfg, r.start), r.events) by { InitOk(r.cfg, r.start); }
    BirthDeadline(At(r).w, u);
    if Visible(At(r).w, u) {
      StoredCore(At(r).w, u);
    }
  }

  lemma BirthDeadline(w: World, u: D.Uid)
    requires WorldOk(w) && u in w.hist.births
    ensures var b := w.hist.births[u];
      && b.root in w.hist.births
      && b.core.refreshExpiresAt == Trunc(w.hist.births[b.root].mintedAt + w.cfg.RefreshTTL())
      && (w.cfg.RefreshTTL() >= SECOND ==> b.core.expiresAt <= b.core.refreshExpiresAt + w.cfg.AccessTTL() + b.lag)
  {
    hide WorldOk, RootOk, OriginOk, Trunc;
    FamilyFacts(w, u);
    RootFacts(w.cfg, w.hist.births, w.hist.succ, u);
    if w.cfg.RefreshTTL() >= SECOND {
      AccessBound(w.cfg, w.hist.births, w.hist.succ, u);
    }
  }

  lemma FamilyFacts(w: World, u: D.Uid)
    requires WorldOk(w) && u in w.hist.births
    ensures RootOk(w.hist.births, u) && OriginOk(w.cfg, w.hist.births, w.hist.succ, u)
    ensures w.hist.births[u].root in w.hist.births && OriginOk(w.cfg, w.hist.births, w.hist.succ, w.hist.births[u].root)
  {
    hide NodesOk, MintsOk, PastOk, D.WellFormed, TailOk, OriginOk;
    assert RootOk(w.hist.births, u);
  }

  lemma RootFacts(cfg: Config, births: Births, succ: Succ, u: D.Uid)
    requires u in births && RootOk(births, u) && OriginOk(cfg, births, succ, births[u].root)
    ensures births[u].core.refreshExpiresAt == Trunc(births[births[u].root].mintedAt + cfg.RefreshTTL())
  {
    hide Trunc;
  }

  lemma AccessBound(cfg: Config, births: Births, succ: Succ, u: D.Uid)
    requires u in births && OriginOk(cfg, births, succ, u) && cfg.RefreshTTL() >= SECOND
    ensures births[u].core.expiresAt <= births[u].core.refreshExpiresAt + cfg.AccessTTL() + births[u].lag
  {
  }

  lemma StoredCore(w: World, u: D.Uid)
    requires WorldOk(w) && Visible(w, u)
    ensures u in w.hist.births && CoreOf(Node(w, u)) == w.hist.births[u].core
  {
    hide FamiliesOk, MintsOk, PastOk, D.WellFormed, CoreOf, StatusOf;
    assert NodeOk(Node(w, u), w.hist.births, w.hist.succ, u);
  }

  /** A purge, although it deletes in a second transaction, removes only sessions
      whose deadline passed before its list, and leaves every other node alone. */
  lemma PurgeSafe(r: Trace, pid: Pid, f: Fault, d: Draws, u: D.Uid)
    requires pid in At(r).procs && At(r).procs[pid].pc.Purging?
    ensures var s := At(r);
      var t := Step(s, Act(pid, f, d));
      Node(t.w, u) != Node(s.w, u) ==>
        u in s.w.hist.births && s.w.hist.births[u].core.refreshExpiresAt <= s.procs[pid].pc.threshold <= s.w.clock
  {
    hide Run, WorldOk, Apply;
    Reached(r);
    var s := At(r);
    var pc := s.procs[pid].pc;
    assert ProcOk(s.w, pid, s.procs[pid].op, pc);
    PurgeOther(s.w, pc.uids, u);
  }

  lemma PurgeOther(w: World, uids: seq<D.Uid>, u: D.Uid)
    requires WorldOk(w)
    ensures u !in uids ==> D.NodeAt(Apply(w.db, Purge(uids)), u) == Node(w, u)
  {
    hide NodesOk, FamiliesOk, MintsOk, PastOk, Apply;
    ApplyEffect(w.db, Purge(uids), u);
  }

  /** Once the delete of a purge commits, every session on its list is gone. */
  lemma PurgeClears(r: Trace, pid: Pid, f: Fault, d: Draws, u: D.Uid)
    requires pid in At(r).procs && At(r).procs[pid].pc.Purging? && f != Refused
    requires u in At(r).procs[pid].pc.uids
    ensures !Visible(Step(At(r), Act(pid, f, d)).w, u)
  {
    hide Run, WorldOk, Apply;
    Reached(r);
    PurgedGone(At(r).w, At(r).procs[pid].pc.uids, u);
  }

  lemma PurgedGone(w: World, uids: seq<D.Uid>, u: D.Uid)
    requires WorldOk(w) && u in uids
    ensures !Typed(D.NodeAt(Apply(w.db, Purge(uids)), u))
  {
    hide NodesOk, FamiliesOk, MintsOk, PastOk, Apply;
    ApplyEffect(w.db, Purge(uids), u);
  }

  /** A committed rotation passed its expiry check no later than the deadline its
      whole family shares: a refresh that reads a later clock fails for every member. */
  lemma NoRefreshPastDeadline(r: Trace, u: D.Uid, v: D.Uid)
    ensures var w := At(r).w;
      (u in w.hist.births && v in w.hist.births && w.hist.births[u].origin.Rotated?
       && w.hist.births[u].root == w.hist.births[v].root) ==>
        w.hist.births[u].mintedAt - w.hist.births[u].lag <= w.hist.births[v].core.refreshExpiresAt
  {
    hide Run, ProcOk, MintsOk, PastOk, D.WellFormed, TailOk, NodesOk;
    Reached(r);
    var w := At(r).w;
    assert u in w.hist.births ==> RootOk(w.hist.births, u) && OriginOk(w.cfg, w.hist.births, w.hist.succ, u);
    assert v in w.hist.births ==> RootOk(w.hist.births, v);
  }

  /** The purge uses `<=` on a truncated clock, the expiry check a strict `>`: a
      session the purge lists could still be refreshed exactly when the clock
      stands on its deadline. */
  lemma PurgeBoundary(r: Trace, u: D.Uid)
    requires u in Query(At(r).w.db, ExpiredBy(Trunc(At(r).w.clock)))
    ensures var w := At(r).w;
      !View(u, Node(w, u)).IsRefreshExpired(w.clock) <==> w.clock == View(u, Node(w, u)).core.refreshExpiresAt
  {
    hide Run, WorldOk, ProcOk, Select, PrincipalOf, StatusOf;
    Reached(r);
  }

  // --- Racing clients ----------------------------------------------------------------------

  /** The session a process has committed, if any. */
  function Committed(pc: Pc): Option<D.Uid> {
    match pc
    case Created(_, u) => Some(u)
    case Done(Tokens(_, u, _)) => Some(u)
    case Done(Failed(c)) => c
    case _ => None
  }

  /** Among any number of refreshes with one raw token, at most one rotates, so
      at most one obtains tokens. */
  lemma OneWinner(r: Trace, p: Pid, q: Pid)
    ensures var procs := At(r).procs;
      (p in procs && q in procs && procs[p].op.RefreshOp? && procs[q].op.RefreshOp?
       && procs[p].op.raw == procs[q].op.raw
       && Committed(procs[p].pc).Some? && Committed(procs[q].pc).Some?) ==> p == q
  {
    hide Run, WorldOk;
    Reached(r);
    var s := At(r);
    if p in s.procs && q in s.procs && s.procs[p].op.RefreshOp? && s.procs[q].op.RefreshOp?
       && s.procs[p].op.raw == s.procs[q].op.raw
       && Committed(s.procs[p].pc).Some? && Committed(s.procs[q].pc).Some? {
      CommittedMade(s.w, p, s.procs[p].op, s.procs[p].pc);
      CommittedMade(s.w, q, s.procs[q].op, s.procs[q].pc);
      hide ProcOk, Committed;
      SameParent(s.w, p, q, s.procs[p].op, s.procs[q].op,
                 Committed(s.procs[p].pc).value, Committed(s.procs[q].pc).value);
    }
  }

  lemma CommittedMade(w: World, p: Pid, op: Op, pc: Pc)
    requires ProcOk(w, p, op, pc) && Committed(pc).Some?
    ensures MadeBy(w, p, op, Committed(pc).value)
  {
    hide MadeBy, HasMint;
  }

  lemma SameParent(w: World, p: Pid, q: Pid, op1: Op, op2: Op, u: D.Uid, v: D.Uid)
    requires WorldOk(w) && op1.RefreshOp? && op2.RefreshOp? && op1.raw == op2.raw
    requires MadeBy(w, p, op1, u) && MadeBy(w, q, op2, v)
    ensures p == q
  {
    var a, b := w.hist.births[u].origin.parent, w.hist.births[v].origin.parent;
    if a != b {
      DistinctTokens(w, a, b);
    }
    hide NodesOk, MintsOk, PastOk, D.WellFormed, RootOk, TailOk;
    assert OriginOk(w.cfg, w.hist.births, w.hist.succ, u) && OriginOk(w.cfg, w.hist.births, w.hist.succ, v);
  }

  /** A refresh that has not committed ends not found, expired, in a store error,
      or as a replay; it has created no session, and a completed replay has
      revoked whatever its snapshot showed of the user. */
  lemma LosersCreateNothing(r: Trace, p: Pid)
    ensures var s := At(r);
      (p in s.procs && s.procs[p].op.RefreshOp? && Committed(s.procs[p].pc).None?) ==>
        && (forall u :: u in s.w.hist.births ==> s.w.hist.births[u].maker != p)
        && (s.procs[p].pc.Done? ==>
              var o := s.procs[p].pc.outcome;
              || o.NotFound? || o.RefreshExpired? || o.Failed?
              || (o.Replayed? && (o.swept.Some? ==> SweptUpTo(s.w, o.userId, o.swept.value))))
  {
    hide Run, WorldOk, MadeBy, HasMint, SweptUpTo;
    Reached(r);
    RefreshOutcomes(r.cfg, r.start, r.events, p);
  }

  ghost predicate RefreshShape(p: Proc) {
    && (p.pc.Checked? || p.pc.RotateReady? || p.pc.RotateOpen? ==> p.op.RefreshOp?)
    && (p.pc.Sweeping? || p.pc.SweepReady? ==> p.op.RefreshOp? || p.op.LogoutAllOp?)
    && (p.op.RefreshOp? ==>
          && !p.pc.RevokeReady? && !p.pc.Renew? && !p.pc.TouchReady? && !p.pc.Purging? && !p.pc.CreateReady?
          && (p.pc.Done? ==>
                var o := p.pc.outcome;
                o.NotFound? || o.RefreshExpired? || o.Failed? || o.Replayed? || o.Tokens?))
  }

  lemma {:induction false} ShapeKept(s: State, es: seq<Event>, p: Pid)
    requires p in s.procs ==> RefreshShape(s.procs[p])
    ensures p in Run(s, es).procs ==> RefreshShape(Run(s, es).procs[p])
    decreases |es|
  {
    if es != [] {
      ShapeStep(s, es[0], p);
      hide Step, RefreshShape;
      ShapeKept(Step(s, es[0]), es[1..], p);
    }
  }

  lemma ShapeStep(s: State, e: Event, p: Pid)
    requires p in s.procs ==> RefreshShape(s.procs[p])
    ensures p in Step(s, e).procs ==> RefreshShape(Step(s, e).procs[p])
  {
    hide Lookup, LookupRefresh, Query, GetByID, RotationAborts, FreshDraws, CommitRotate, CommitCreate, Store, MintOf;
  }

  lemma RefreshOutcomes(cfg: Config, start: int, es: seq<Event>, p: Pid)
    ensures var s := Run(Init(cfg, start), es); p in s.procs ==> RefreshShape(s.procs[p])
  {
    hide Run, RefreshShape;
    ShapeKept(Init(cfg, start), es, p);
  }
}
