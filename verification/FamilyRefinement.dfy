// The session store refines the family machine of Families.dfy.

module FamilyRefinement {
  import opened Prelude
  import opened Times
  import opened Sessions
  import opened SessionStore
  import opened SessionProtocol
  import opened SessionInvariants
  import opened SessionPreservation
  import opened SessionTheorems
  import opened SessionSafety
  import F = Families
  import D = Dgraph

  function PairOf(c: Core): F.Pair { F.Pair(c.accessHash, c.refreshHash, c.refreshJti) }

  /** The family whose newest session was born as `b`. */
  function FamilyOf(b: Birth, live: bool): F.Family {
    F.Family(PairOf(b.core), live, b.core.who, b.core.refreshExpiresAt)
  }

  function Abs(w: World): F.Registry {
    map r | r in w.hist.tails && w.hist.tails[r] in w.hist.births ::
      FamilyOf(w.hist.births[w.hist.tails[r]], LiveAt(w, w.hist.tails[r]))
  }

  /** The families whose newest session is among `uids`. */
  function Roots(w: World, uids: seq<D.Uid>): set<D.Uid> {
    set r | r in w.hist.tails && w.hist.tails[r] in w.hist.births && w.hist.tails[r] in uids
  }

  function MoveOf(w: World, pid: Pid, op: Op, pc: Pc, f: Fault): F.Move {
    match pc
    case CreateReady(_, _, _, _, _, at, origin) =>
      if f == Refused then F.Stutter
      else
        var c := OpenCore(w, pc);
        F.Open(w.db.nextUid, F.Family(PairOf(c), true, c.who, Stored(c).refreshExpiresAt))
    case RotateOpen(x, _, _, _, _, _) =>
      if !op.RefreshOp? || f == Refused || RotationAborts(w, op, pc) || x.id !in w.hist.births then F.Stutter
      else F.Renew(w.hist.births[x.id].root, PairOf(RotationCore(w, op, pc)))
    case Sweeping(_, uids, _) => if f == Refused then F.Stutter else F.Close(Roots(w, uids))
    case RevokeReady(x) => if f == Refused then F.Stutter else F.Close(Roots(w, [x.id]))
    case Purging(uids, _) => if f == Refused then F.Stutter else F.Close(Roots(w, uids))
    case _ => F.Stutter
  }

  /** A live session is the current member of an open family, and holds its pair. */
  lemma LiveIsCurrent(r: Trace, u: D.Uid)
    ensures var w := At(r).w;
      LiveAt(w, u) ==>
        && u in w.hist.births && w.hist.births[u].root in Abs(w)
        && Abs(w)[w.hist.births[u].root].open
        && Abs(w)[w.hist.births[u].root].pair == PairOf(w.hist.births[u].core)
        && Abs(w)[w.hist.births[u].root].who == CoreOf(Node(w, u)).who
  {
    hide Run, WorldOk, ProcOk, LiveAt, CoreOf;
    Reached(r);
    var w := At(r).w;
    if LiveAt(w, u) {
      LiveIsTail(w, u);
      StoredCore(w, u);
    }
  }

  // --- Simulation, effect by effect -----------------------------------------------

  lemma CloseSimulates(w: World, t: World, uids: seq<D.Uid>)
    requires t.hist == w.hist
    requires forall u :: LiveAt(t, u) <==> LiveAt(w, u) && u !in uids
    ensures F.Does(F.Close(Roots(w, uids)), Abs(w), Abs(t))
  {
    hide LiveAt;
    var g := map r | r in Abs(w) :: if r in Roots(w, uids) then Abs(w)[r].(open := false) else Abs(w)[r];
    assert Abs(t).Keys == g.Keys;
    assert Abs(t) == g;
  }

  lemma SameSimulates(w: World, t: World)
    requires t.hist.births == w.hist.births && t.hist.tails == w.hist.tails
    requires forall u :: LiveAt(t, u) == LiveAt(w, u)
    ensures Abs(t) == Abs(w)
  {
    hide LiveAt;
  }

  /** A newborn that becomes the newest session of family `key` is all that changes. */
  lemma NewestSimulates(w: World, t: World, key: D.Uid, v: D.Uid, b: Birth)
    requires v !in w.hist.births
    requires t.hist.births == w.hist.births[v := b] && t.hist.tails == w.hist.tails[key := v]
    requires forall r :: r in w.hist.tails ==> w.hist.tails[r] in w.hist.births
    requires forall r :: r in w.hist.tails && r != key ==> LiveAt(t, w.hist.tails[r]) == LiveAt(w, w.hist.tails[r])
    requires LiveAt(t, v)
    ensures Abs(t) == Abs(w)[key := FamilyOf(b, true)]
  {
    hide LiveAt, FamilyOf;
    assert Abs(t).Keys == Abs(w).Keys + {key};
  }

  lemma OpenSimulates(w: World, pid: Pid, core: Core, origin: Origin, at: int)
    requires WorldOk(w)
    ensures var fam := F.Family(PairOf(core), true, core.who, Stored(core).refreshExpiresAt);
      F.Does(F.Open(w.db.nextUid, fam), Abs(w), Abs(CommitCreate(w, pid, core, origin, at)))
  {
    OpenAbs(w, pid, core, origin, at);
    TailsBelow(w);
    NewBelow(w);
    AbsKeys(w);
    hide WorldOk, Abs, PairOf, CommitCreate;
  }

  lemma OpenAbs(w: World, pid: Pid, core: Core, origin: Origin, at: int)
    requires WorldOk(w)
    ensures Abs(CommitCreate(w, pid, core, origin, at))
         == Abs(w)[w.db.nextUid := F.Family(PairOf(core), true, core.who, Stored(core).refreshExpiresAt)]
  {
    var v := w.db.nextUid;
    var t := CommitCreate(w, pid, core, origin, at);
    NewLive(w, core, v);
    CreateKeepsLive(w, core);
    TailsBelow(w);
    NewBelow(w);
    hide WorldOk, Apply, Live, NewFields, Abs;
    NewestSimulates(w, t, v, v, t.hist.births[v]);
  }

  lemma NewBelow(w: World)
    requires WorldOk(w)
    ensures w.db.nextUid !in w.hist.births
  {
    hide NodesOk, FamiliesOk, MintsOk, D.WellFormed;
  }

  lemma AbsKeys(w: World)
    ensures forall r :: r in Abs(w) <==> r in w.hist.tails && w.hist.tails[r] in w.hist.births
  {
    hide LiveAt, FamilyOf;
  }

  lemma NewLive(w: World, core: Core, v: D.Uid)
    requires WorldOk(w) && v == w.db.nextUid
    ensures Live(D.NodeAt(Apply(w.db, Create(core)), v))
  {
    hide NodesOk, FamiliesOk, MintsOk, PastOk, Apply;
    ApplyEffect(w.db, Create(core), v);
    ReadBack(v, core);
    hide NewFields;
  }

  lemma CreateKeepsLive(w: World, core: Core)
    requires WorldOk(w)
    ensures forall u :: u in w.hist.births ==> D.NodeAt(Apply(w.db, Create(core)), u) == Node(w, u)
  {
    hide NodesOk, FamiliesOk, MintsOk, Apply;
    forall u | u in w.hist.births ensures D.NodeAt(Apply(w.db, Create(core)), u) == Node(w, u) {
      ApplyEffect(w.db, Create(core), u);
    }
  }

  lemma TailsBelow(w: World)
    requires WorldOk(w)
    ensures forall r :: r in w.hist.tails ==> w.hist.tails[r] in w.hist.births && r < w.db.nextUid
    ensures forall r :: r in w.hist.tails ==> w.hist.tails[r] < w.db.nextUid
    ensures forall r :: r in w.hist.tails ==> w.hist.births[w.hist.tails[r]].root == r
  {
    hide NodesOk, MintsOk, D.WellFormed, OriginOk, TailOk;
    forall r | r in w.hist.tails ensures r < w.db.nextUid {
      assert RootOk(w.hist.births, w.hist.tails[r]);
    }
  }

  lemma RenewSimulates(w: World, pid: Pid, p: D.Uid, core: Core, at: int, lag: int)
    requires WorldOk(w) && RotationReady(w, pid, p, core, at, lag)
    ensures F.Does(F.Renew(w.hist.births[p].root, PairOf(core)), Abs(w), Abs(CommitRotate(w, pid, p, core, at, lag)))
  {
    RenewAbs(w, pid, p, core, at, lag);
    RenewFresh(w, pid, p, core, at, lag);
    RenewedFamily(w, pid, p, core, at, lag);
    hide WorldOk, Abs, RotationReady, FamilyOf, PairOf, CommitRotate, RotationBirth, F.Does;
    BornParent(w, pid, p, core, at, lag);
    F.Renewed(Abs(w), w.hist.births[p].root, FamilyOf(RotationBirth(w, pid, p, core, at, lag), true), PairOf(core));
  }

  lemma RenewAbs(w: World, pid: Pid, p: D.Uid, core: Core, at: int, lag: int)
    requires WorldOk(w) && RotationReady(w, pid, p, core, at, lag)
    ensures Abs(CommitRotate(w, pid, p, core, at, lag))
         == Abs(w)[w.hist.births[p].root := FamilyOf(RotationBirth(w, pid, p, core, at, lag), true)]
  {
    hide WorldOk, Apply, Live, Abs, RotationReady, FamilyOf;
    RenewRoot(w, pid, p, core, at, lag);
    var root := w.hist.births[p].root;
    var t, b := CommitRotate(w, pid, p, core, at, lag), RotationBirth(w, pid, p, core, at, lag);
    RenewNodes(w, pid, p, core, at, lag);
    TailsBelow(w);
    NewBelow(w);
    NewestSimulates(w, t, root, w.db.nextUid, b);
  }

  lemma RenewRoot(w: World, pid: Pid, p: D.Uid, core: Core, at: int, lag: int)
    requires WorldOk(w) && RotationReady(w, pid, p, core, at, lag)
    ensures p in w.hist.births && var root := w.hist.births[p].root; root in w.hist.tails && w.hist.tails[root] == p
  {
    BornParent(w, pid, p, core, at, lag);
    LiveIsTail(w, p);
  }

  lemma RenewedFamily(w: World, pid: Pid, p: D.Uid, core: Core, at: int, lag: int)
    requires WorldOk(w) && RotationReady(w, pid, p, core, at, lag)
    ensures var root := w.hist.births[p].root;
      && root in Abs(w) && Abs(w)[root].open
      && FamilyOf(RotationBirth(w, pid, p, core, at, lag), true) == Abs(w)[root].(pair := PairOf(core))
  {
    LiveIsTail(w, p);
    DeadlineWhole(w, p);
    hide WorldOk, LiveAt, CoreReady, Unborn, Trunc;
  }

  lemma DeadlineWhole(w: World, p: D.Uid)
    requires WorldOk(w) && p in w.hist.births
    ensures Trunc(w.hist.births[p].core.refreshExpiresAt) == w.hist.births[p].core.refreshExpiresAt
  {
    hide FamiliesOk, NodesOk, MintsOk, PastOk, D.WellFormed;
    StoredDeadline(w.cfg, w.hist, p);
  }

  lemma RenewNodes(w: World, pid: Pid, p: D.Uid, core: Core, at: int, lag: int)
    requires WorldOk(w) && RotationReady(w, pid, p, core, at, lag)
    ensures var t := CommitRotate(w, pid, p, core, at, lag);
      LiveAt(t, w.db.nextUid) && (forall u :: u in w.hist.births && u != p ==> Node(t, u) == Node(w, u))
  {
    LiveIsTail(w, p);
    RotateNodes(w, p, core, RotationBirth(w, pid, p, core, at, lag));
    RotateNewborn(w, p, core);
    hide WorldOk, Apply, NodesOk, RotationReady, Live;
  }

  lemma RotateNewborn(w: World, p: D.Uid, core: Core)
    requires WorldOk(w) && p in w.hist.births
    ensures Live(D.NodeAt(Apply(w.db, Rotate(p, w.clock, core)), w.db.nextUid))
  {
    hide NodesOk, FamiliesOk, MintsOk, Apply;
    ApplyEffect(w.db, Rotate(p, w.clock, core), w.db.nextUid);
    ReadBack(w.db.nextUid, core);
    hide NewFields;
  }

  /** The new pair is new to every family. */
  lemma RenewFresh(w: World, pid: Pid, p: D.Uid, core: Core, at: int, lag: int)
    requires WorldOk(w) && RotationReady(w, pid, p, core, at, lag)
    ensures forall x :: x in Abs(w) ==> Abs(w)[x].pair != PairOf(core)
  {
    hide WorldOk, RotationReady, Moves, Apply, LiveAt, MintOf;
    RotateMoves(w, pid, p, core, at, lag);
    TailsBelow(w);
    NewBelow(w);
    BornParent(w, pid, p, core, at, lag);
    var t, v := CommitRotate(w, pid, p, core, at, lag), w.db.nextUid;
    forall x | x in Abs(w) ensures Abs(w)[x].pair != PairOf(core) {
      DistinctTokens(t, w.hist.tails[x], v);
    }
  }

  lemma BornParent(w: World, pid: Pid, p: D.Uid, core: Core, at: int, lag: int)
    requires RotationReady(w, pid, p, core, at, lag)
    ensures p in w.hist.births
  {
  }

  // --- The simulation -------------------------------------------------------------------

  /** Every step of every process is one move of the family machine, and the
      move is the one its kind and its place in the program tell. */
  lemma Refines(r: Trace, e: Event)
    ensures var s := At(r);
      var t := Step(s, e);
      if e.Act? && e.pid in s.procs
      then F.Does(MoveOf(s.w, e.pid, s.procs[e.pid].op, s.procs[e.pid].pc, e.fault), Abs(s.w), Abs(t.w))
      else Abs(t.w) == Abs(s.w)
  {
    hide Run, WorldOk, ProcOk, MoveOf, Next, Abs, F.Does, LiveAt;
    Reached(r);
    var s := At(r);
    if e.Act? && e.pid in s.procs {
      NextSimulates(s.w, e.pid, s.procs[e.pid].op, s.procs[e.pid].pc, e.fault, e.draws);
    } else {
      QuietStep(s, e);
      SameSimulates(s.w, Step(s, e).w);
    }
  }

  lemma StepForGood(r: Trace, e: Event, root: D.Uid)
    requires root in Abs(At(r).w)
    ensures var f, g := Abs(At(r).w), Abs(Step(At(r), e).w);
      && root in g && g[root].who == f[root].who && g[root].deadline == f[root].deadline
      && (!f[root].open ==> g[root] == f[root])
  {
    Refines(r, e);
    hide Run, WorldOk, ProcOk, MoveOf, Next, Abs, F.Does, LiveAt, Step;
    var s := At(r);
    if e.Act? && e.pid in s.procs {
      var m := MoveOf(s.w, e.pid, s.procs[e.pid].op, s.procs[e.pid].pc, e.fault);
      F.ClosedIsFinal(m, Abs(s.w), Abs(Step(s, e).w), root);
    }
  }

  /** Over every continuation of every run a login keeps its identity and its
      deadline, and once its family is closed its last token pair never changes again. */
  lemma {:induction false} ClosedForGood(r: Trace, more: seq<Event>, root: D.Uid)
    requires root in Abs(At(r).w)
    ensures var f, g := Abs(At(r).w), Abs(At(Then(r, more)).w);
      && root in g && g[root].who == f[root].who && g[root].deadline == f[root].deadline
      && (!f[root].open ==> g[root] == f[root])
    decreases |more|
  {
    hide Run, Step, Abs;
    if more == [] {
      assert Then(r, more) == r;
    } else {
      Extend(r, more[0]);
      StepForGood(r, more[0], root);
      ClosedForGood(Then(r, [more[0]]), more[1..], root);
      assert Then(r, more) == Then(Then(r, [more[0]]), more[1..]);
    }
  }

  lemma QuietStep(s: State, e: Event)
    requires !(e.Act? && e.pid in s.procs)
    ensures Step(s, e).w.db == s.w.db && Step(s, e).w.hist == s.w.hist
    ensures forall u :: LiveAt(Step(s, e).w, u) == LiveAt(s.w, u)
  {
  }

  lemma NextSimulates(w: World, pid: Pid, op: Op, pc: Pc, f: Fault, d: Draws)
    requires WorldOk(w) && ProcOk(w, pid, op, pc)
    ensures F.Does(MoveOf(w, pid, op, pc, f), Abs(w), Abs(Next(w, pid, op, pc, f, d).0))
  {
    if pc.CreateReady? {
      hide WorldOk, ProcOk, CommitCreate, OpenCore, Abs, F.Does;
      OpenSimulates(w, pid, OpenCore(w, pc), pc.origin, pc.at);
      StutterOk(Abs(w));
    } else if pc.RotateOpen? {
      RotationSimulates(w, pid, op, pc, f, d);
    } else if (pc.Sweeping? || pc.RevokeReady? || pc.Purging?) && f != Refused {
      CloseNext(w, pid, op, pc, f, d);
    } else {
      StutterNext(w, pid, op, pc, f, d);
    }
  }

  lemma StutterOk(g: F.Registry)
    ensures F.Does(F.Stutter, g, g)
  {
  }

  lemma RotationSimulates(w: World, pid: Pid, op: Op, pc: Pc, f: Fault, d: Draws)
    requires WorldOk(w) && ProcOk(w, pid, op, pc) && pc.RotateOpen?
    ensures F.Does(MoveOf(w, pid, op, pc, f), Abs(w), Abs(Next(w, pid, op, pc, f, d).0))
  {
    hide WorldOk, Abs, F.Does, LiveAt, Started, Judged, FreshDraws, CommitCreate, Apply, HasMint, Unborn;
    StutterOk(Abs(w));
    if op.RefreshOp? && f != Refused && !RotationAborts(w, op, pc) {
      CommitReady(w, pid, op, pc);
      hide RotationAborts, ProcOk, CommitRotate, RotationCore;
      RenewSimulates(w, pid, pc.x.id, RotationCore(w, op, pc), pc.at, pc.at - pc.checkedAt);
    } else {
      hide RotationAborts, ProcOk, CommitRotate, RotationCore;
    }
  }

  lemma CommitReady(w: World, pid: Pid, op: Op, pc: Pc)
    requires WorldOk(w) && ProcOk(w, pid, op, pc) && op.RefreshOp? && pc.RotateOpen? && !RotationAborts(w, op, pc)
    ensures RotationReady(w, pid, pc.x.id, RotationCore(w, op, pc), pc.at, pc.at - pc.checkedAt)
  {
    hide WorldOk, MintOf, LiveAt, Apply;
    CommitFindsLive(w, pid, op, pc);
    hide RotationAborts;
  }

  lemma CloseNext(w: World, pid: Pid, op: Op, pc: Pc, f: Fault, d: Draws)
    requires WorldOk(w) && ProcOk(w, pid, op, pc)
    requires (pc.Sweeping? || pc.RevokeReady? || pc.Purging?) && f != Refused
    ensures F.Does(MoveOf(w, pid, op, pc, f), Abs(w), Abs(Next(w, pid, op, pc, f, d).0))
  {
    hide WorldOk, Apply, LiveAt, F.Does, Abs, Moves;
    if pc.Purging? {
      PurgeLive(w, pc.uids);
      CloseSimulates(w, Store(w, Purge(pc.uids)), pc.uids);
    } else {
      var uids := if pc.Sweeping? then pc.uids else [pc.x.id];
      RevokedBorn(w, pid, op, pc, uids);
      RevokeMoves(w, uids, pid);
      CloseSimulates(w, Store(w, Revoke(uids, w.clock)), uids);
    }
    hide ProcOk;
  }

  lemma RevokedBorn(w: World, pid: Pid, op: Op, pc: Pc, uids: seq<D.Uid>)
    requires ProcOk(w, pid, op, pc)
    requires (pc.Sweeping? && uids == pc.uids) || (pc.RevokeReady? && uids == [pc.x.id])
    ensures forall u :: u in uids ==> u in w.hist.births
  {
    hide LiveAt;
  }

  lemma PurgeLive(w: World, uids: seq<D.Uid>)
    requires WorldOk(w)
    ensures forall u :: LiveAt(Store(w, Purge(uids)), u) <==> LiveAt(w, u) && u !in uids
  {
    hide FamiliesOk, MintsOk, PastOk, Apply;
    forall u ensures LiveAt(Store(w, Purge(uids)), u) <==> LiveAt(w, u) && u !in uids {
      ApplyEffect(w.db, Purge(uids), u);
      assert NodeOk(Node(w, u), w.hist.births, w.hist.succ, u);
    }
  }

  lemma StutterNext(w: World, pid: Pid, op: Op, pc: Pc, f: Fault, d: Draws)
    requires WorldOk(w) && ProcOk(w, pid, op, pc)
    requires !pc.CreateReady? && !pc.RotateOpen?
    requires (pc.Sweeping? || pc.RevokeReady? || pc.Purging?) ==> f == Refused
    ensures F.Does(MoveOf(w, pid, op, pc, f), Abs(w), Abs(Next(w, pid, op, pc, f, d).0))
  {
    hide WorldOk, ProcOk, Apply, LiveAt, Abs, Started, Judged, FreshDraws, GetByID, Query, MintOf;
    if pc.TouchReady? {
      TouchLive(w, pid, op, pc);
      SameSimulates(w, Store(w, Touch(pc.x.id, w.clock)));
    } else {
      UnchangedRegistry(w, Next(w, pid, op, pc, f, d).0);
    }
  }

  lemma UnchangedRegistry(w: World, t: World)
    requires t.db == w.db && t.hist.births == w.hist.births && t.hist.tails == w.hist.tails
    ensures Abs(t) == Abs(w)
  {
    hide Live, FamilyOf;
  }

  lemma TouchLive(w: World, pid: Pid, op: Op, pc: Pc)
    requires WorldOk(w) && ProcOk(w, pid, op, pc) && pc.TouchReady?
    ensures forall u :: LiveAt(Store(w, Touch(pc.x.id, w.clock)), u) == LiveAt(w, u)
  {
    hide NodesOk, FamiliesOk, MintsOk, Apply;
    forall u ensures LiveAt(Store(w, Touch(pc.x.id, w.clock)), u) == LiveAt(w, u) {
      ApplyEffect(w.db, Touch(pc.x.id, w.clock), u);
      if u == pc.x.id {
        StatusTouched(Node(w, u), w.clock);
      }
    }
  }
}
