// What a service call comes to, told from its schedule: the steps of others it
// met and the fate of its own round trips.

module SessionSchedules {
  import opened Prelude
  import opened OpaqueToken
  import opened Sessions
  import opened SessionStore
  import opened SessionProtocol
  import opened SessionInvariants
  import opened SessionSteps
  import opened SessionTheorems
  import opened SessionMeaning
  import opened SessionOutcomes
  import opened SessionServices
  import opened SessionRuns
  import D = Dgraph

  /** What the call finds when it takes its turn, and what it leaves. */
  function Met(s: State, turn: Turn): State { Run(s, turn.between) }

  function Taken(s: State, pid: Pid, turn: Turn): State { Step(Met(s, turn), Act(pid, turn.fault, turn.draws)) }

  lemma OneTurn(s: State, pid: Pid, t: seq<Turn>)
    requires |t| > 0 && pid in s.procs && Foreign(t, pid)
    ensures var m, turn := Met(s, t[0]), t[0];
      var Proc(op, pc) := s.procs[pid];
      && pid in m.procs && m.procs[pid] == s.procs[pid]
      && Taken(s, pid, turn) == State(Next(m.w, pid, op, pc, turn.fault, turn.draws).0,
                                      m.procs[pid := Proc(op, Next(m.w, pid, op, pc, turn.fault, turn.draws).1)])
    ensures Foreign(t[1..], pid)
    ensures !s.procs[pid].pc.Done? ==> Play(s, pid, t) == Play(Taken(s, pid, t[0]), pid, t[1..])
    ensures !s.procs[pid].pc.Done? && AlwaysFresh(s, pid, t) ==>
      FreshDraws(Met(s, t[0]).w.hist.mints, t[0].draws) && AlwaysFresh(Taken(s, pid, t[0]), pid, t[1..])
  {
    hide Run, Next, FreshDraws;
    assert forall e :: e in t[0].between ==> !Concerns(e, pid);
    Undisturbed(s, t[0].between, pid);
  }

  lemma {:induction false} PlaySplits(s: State, pid: Pid, t: seq<Turn>, k: nat)
    requires k <= |t|
    ensures Play(s, pid, t) == Play(Play(s, pid, t[..k]), pid, t[k..])
    ensures AlwaysFresh(s, pid, t) ==> AlwaysFresh(Play(s, pid, t[..k]), pid, t[k..])
    decreases k
  {
    hide Run, Step, FreshDraws;
    if k == 0 || pid !in s.procs || s.procs[pid].pc.Done? {
      assert t[0..] == t;
    } else {
      assert t[..k][0] == t[0] && t[..k][1..] == t[1..][..k - 1] && t[1..][k - 1..] == t[k..];
      PlaySplits(Step(Run(s, t[0].between), Act(pid, t[0].fault, t[0].draws)), pid, t[1..], k - 1);
    }
  }

  /** None of the call's own steps changes the database. */
  ghost predicate LeavesStore(s: State, pid: Pid, t: seq<Turn>)
    decreases |t|
  {
    t == [] || pid !in s.procs || s.procs[pid].pc.Done? ||
    (Taken(s, pid, t[0]).w.db == Met(s, t[0]).w.db && LeavesStore(Taken(s, pid, t[0]), pid, t[1..]))
  }

  lemma {:induction false} LeavesSplits(s: State, pid: Pid, t: seq<Turn>, k: nat)
    requires k <= |t|
    ensures LeavesStore(s, pid, t) <==> LeavesStore(s, pid, t[..k]) && LeavesStore(Play(s, pid, t[..k]), pid, t[k..])
    decreases k
  {
    hide Run, Step;
    if k == 0 || pid !in s.procs || s.procs[pid].pc.Done? {
      assert t[0..] == t;
    } else {
      assert t[..k][0] == t[0] && t[..k][1..] == t[1..][..k - 1] && t[1..][k - 1..] == t[k..];
      LeavesSplits(Taken(s, pid, t[0]), pid, t[1..], k - 1);
    }
  }

  // --- Refreshing ------------------------------------------------------------------------------

  predicate OnReplay(pc: Pc) {
    pc.SweepReady? || pc.Sweeping? || (pc.Done? && pc.outcome.Replayed?)
  }

  /** How far a refresh has come. */
  function Stage(pc: Pc): int {
    match pc
    case Start => 0
    case Looked(_) => 1
    case Checked(_, _) => 2
    case RotateReady(_, _, _, _) => 3
    case RotateOpen(_, _, _, _, _, _) => 4
    case _ => -1
  }

  lemma RefreshTurn(w: World, pid: Pid, op: Op, pc: Pc, f: Fault, d: Draws)
    requires op.RefreshOp? && 0 <= Stage(pc) < 4 && FreshDraws(w.hist.mints, d)
    ensures var t := Next(w, pid, op, pc, f, d);
      t.0.db == w.db && (Stage(t.1) == Stage(pc) + 1 || t.1.Done? || t.1.SweepReady?)
  {
    hide Lookup, LookupRefresh, Query, GetByID, FreshDraws, MintOf;
  }

  lemma ReplayTurn(w: World, pid: Pid, op: Op, pc: Pc, f: Fault, d: Draws)
    requires op.RefreshOp? && OnReplay(pc)
    ensures OnReplay(Next(w, pid, op, pc, f, d).1)
  {
    hide Query, Store;
  }

  lemma {:induction false} ReplayPlay(s: State, pid: Pid, t: seq<Turn>)
    requires pid in s.procs && Foreign(t, pid) && s.procs[pid].op.RefreshOp? && OnReplay(s.procs[pid].pc)
    ensures pid in Play(s, pid, t).procs && OnReplay(Play(s, pid, t).procs[pid].pc)
    decreases |t|
  {
    hide Run, Next, FreshDraws, AlwaysFresh;
    if t != [] && !s.procs[pid].pc.Done? {
      OneTurn(s, pid, t);
      ReplayTurn(Met(s, t[0]).w, pid, s.procs[pid].op, s.procs[pid].pc, t[0].fault, t[0].draws);
      hide OnReplay;
      ReplayPlay(Taken(s, pid, t[0]), pid, t[1..]);
    }
  }

  /** Up to the read of its rotation a refresh writes nothing, unless it goes after a replay. */
  lemma {:induction false} UpToOpen(s: State, pid: Pid, t: seq<Turn>)
    requires pid in s.procs && Foreign(t, pid) && AlwaysFresh(s, pid, t) && s.procs[pid].op.RefreshOp?
    requires Stage(s.procs[pid].pc) >= 0 && |t| == 4 - Stage(s.procs[pid].pc)
    ensures pid in Play(s, pid, t).procs && Play(s, pid, t).procs[pid].op == s.procs[pid].op
    ensures var pc := Play(s, pid, t).procs[pid].pc;
      OnReplay(pc) || (LeavesStore(s, pid, t) && (pc.Done? || pc.RotateOpen?))
    decreases |t|
  {
    hide Run, Next, FreshDraws;
    if t != [] {
      OneTurn(s, pid, t);
      var m, next := Met(s, t[0]), Taken(s, pid, t[0]);
      RefreshTurn(m.w, pid, s.procs[pid].op, s.procs[pid].pc, t[0].fault, t[0].draws);
      if next.procs[pid].pc.SweepReady? {
        ReplayPlay(next, pid, t[1..]);
        SameOp(next, pid, t[1..]);
      } else if !next.procs[pid].pc.Done? {
        UpToOpen(next, pid, t[1..]);
      }
    }
  }

  lemma {:induction false} SameOp(s: State, pid: Pid, t: seq<Turn>)
    requires pid in s.procs && Foreign(t, pid)
    ensures pid in Play(s, pid, t).procs && Play(s, pid, t).procs[pid].op == s.procs[pid].op
    decreases |t|
  {
    hide Run, Next, FreshDraws, AlwaysFresh;
    if t != [] && !s.procs[pid].pc.Done? {
      OneTurn(s, pid, t);
      SameOp(Taken(s, pid, t[0]), pid, t[1..]);
    }
  }

  /** The commit of the rotation goes through, and then its reply or the read-back fails. */
  ghost predicate CommitsUnheard(s: State, pid: Pid, t: seq<Turn>)
    requires |t| >= 2
  {
    pid in s.procs && s.procs[pid].op.RefreshOp? && s.procs[pid].pc.RotateOpen?
    && t[0].fault != Refused && !RotationAborts(Met(s, t[0]).w, s.procs[pid].op, s.procs[pid].pc)
    && (t[0].fault == ReplyLost || t[1].fault != NoFault)
  }

  lemma FromOpen(s: State, pid: Pid, t: seq<Turn>)
    requires |t| >= 2 && pid in s.procs && Foreign(t, pid)
    requires s.procs[pid].op.RefreshOp? && s.procs[pid].pc.RotateOpen?
    ensures var o := Play(s, pid, t).procs;
      && pid in o && o[pid].pc.Done?
      && (o[pid].pc.outcome.Failed? ==> (LeavesStore(s, pid, t) <==> !CommitsUnheard(s, pid, t)))
  {
    hide Run, FreshDraws, AlwaysFresh, RotationAborts, Next;
    OneTurn(s, pid, t);
    var m, s1 := Met(s, t[0]), Taken(s, pid, t[0]);
    var Proc(op, pc) := s.procs[pid];
    OpenTurn(m.w, pid, op, pc, t[0].fault, t[0].draws);
    if s1.procs[pid].pc.Created? {
      OneTurn(s1, pid, t[1..]);
      BackTurn(Met(s1, t[1]).w, pid, op, s1.procs[pid].pc, t[1].fault, t[1].draws);
    }
  }

  lemma OpenTurn(w: World, pid: Pid, op: Op, pc: Pc, f: Fault, d: Draws)
    requires op.RefreshOp? && pc.RotateOpen?
    ensures var t := Next(w, pid, op, pc, f, d);
      if f == Refused || RotationAborts(w, op, pc) then t == (w, Done(Failed(None)))
      else t.0.db.ts == w.db.ts + 1 && (if f == NoFault then t.1.Created? else t.1.Done? && t.1.outcome.Failed?)
  {
    hide RotationAborts, RotationCore, D.ApplyQuads, D.Touched, QuadsOf;
  }

  lemma BackTurn(w: World, pid: Pid, op: Op, pc: Pc, f: Fault, d: Draws)
    requires pc.Created?
    ensures var t := Next(w, pid, op, pc, f, d);
      t.0 == w && t.1.Done? && (t.1.outcome.Failed? <==> f != NoFault) && (t.1.outcome.Tokens? <==> f == NoFault)
  {
    hide GetByID;
  }

  /** A refresh that ends in a store error has left the store alone if and only if
      it is not the case that its commit was sent, not in conflict, and its reply
      or the read-back was lost. */
  lemma RefreshErrorIff(s: State, pid: Pid, t: seq<Turn>)
    requires pid in s.procs && s.procs[pid].op.RefreshOp? && s.procs[pid].pc == Start
    requires |t| >= 6 && Foreign(t, pid) && AlwaysFresh(s, pid, t)
    ensures var o := Play(s, pid, t).procs;
      && pid in o
      && (o[pid].pc.Done? && o[pid].pc.outcome.Failed? ==>
            (LeavesStore(s, pid, t) <==> !CommitsUnheard(Play(s, pid, t[..4]), pid, t[4..])))
  {
    hide Run, FreshDraws, RotationAborts, AlwaysFresh, Play, LeavesStore, CommitsUnheard;
    PlaySplits(s, pid, t, 4);
    LeavesSplits(s, pid, t, 4);
    FreshPrefix(s, pid, t, 4);
    assert Foreign(t[..4], pid) && Foreign(t[4..], pid);
    UpToOpen(s, pid, t[..4]);
    var s4 := Play(s, pid, t[..4]);
    if OnReplay(s4.procs[pid].pc) {
      ReplayPlay(s4, pid, t[4..]);
    } else if s4.procs[pid].pc.Done? {
      Finished(s4, pid, t[4..]);
    } else {
      FromOpen(s4, pid, t[4..]);
    }
  }

  lemma Finished(s: State, pid: Pid, t: seq<Turn>)
    requires |t| >= 2 && pid in s.procs && s.procs[pid].pc.Done?
    ensures Play(s, pid, t) == s && LeavesStore(s, pid, t) && !CommitsUnheard(s, pid, t)
  {
  }

  lemma {:induction false} FreshPrefix(s: State, pid: Pid, t: seq<Turn>, k: nat)
    requires k <= |t| && AlwaysFresh(s, pid, t)
    ensures AlwaysFresh(s, pid, t[..k])
    decreases k
  {
    hide Run, Step, FreshDraws;
    if k > 0 && pid in s.procs && !s.procs[pid].pc.Done? {
      assert t[..k][0] == t[0] && t[..k][1..] == t[1..][..k - 1];
      FreshPrefix(Step(Run(s, t[0].between), Act(pid, t[0].fault, t[0].draws)), pid, t[1..], k - 1);
    }
  }

  /** Every round trip is answered. */
  predicate Faultless(t: seq<Turn>) { forall i :: 0 <= i < |t| ==> t[i].fault == NoFault }

  /** A refresh whose token belongs to a revoked session when it is looked up ends,
      if its round trips are answered, as a replay; and every session its owner had
      at the list is dead from then on. */
  lemma ReplayCompletes(s: State, pid: Pid, t: seq<Turn>)
    requires Inv(s) && pid in s.procs && s.procs[pid].op.RefreshOp? && s.procs[pid].pc == Start
    requires |t| >= 3 && Foreign(t, pid) && AlwaysFresh(s, pid, t) && Faultless(t)
    ensures var found, f := LookupRefresh(Met(s, t[0]).w, s.procs[pid].op.raw), Play(s, pid, t);
      found.Some? && found.value.status.revoked ==>
        && pid in f.procs && f.procs[pid].pc.Done? && f.procs[pid].pc.outcome.Replayed?
        && f.procs[pid].pc.outcome.userId == found.value.core.who.userId && f.procs[pid].pc.outcome.swept.Some?
        && SweptUpTo(f.w, f.procs[pid].pc.outcome.userId, f.procs[pid].pc.outcome.swept.value)
  {
    hide Run, FreshDraws, AlwaysFresh, Next, SweptUpTo, WorldOk, ProcOk, LookupRefresh, Query, Later;
    var op := s.procs[pid].op;
    OneTurn(s, pid, t);
    var found := LookupRefresh(Met(s, t[0]).w, op.raw);
    if found.Some? && found.value.status.revoked {
      var s1 := Taken(s, pid, t[0]);
      var user := found.value.core.who.userId;
      SpentTurn(Met(s, t[0]).w, pid, op, t[0].draws);
      OneTurn(s1, pid, t[1..]);
      var s2, m1 := Taken(s1, pid, t[1]), Met(s1, t[1]);
      ListTurn(m1.w, pid, op, user, t[1].draws);
      if s2.procs[pid].pc.Sweeping? {
        OneTurn(s2, pid, t[2..]);
        WriteTurn(Met(s2, t[2]).w, pid, op, s2.procs[pid].pc, t[2].draws);
      }
      PlayInv(s, pid, t);
      SweptDone(Play(s, pid, t), pid);
    }
  }

  /** Only a failed round trip keeps a reported replay from revoking. */
  lemma {:induction false} FaultlessReplay(s: State, pid: Pid, t: seq<Turn>)
    requires pid in s.procs && s.procs[pid].op.RefreshOp? && !s.procs[pid].pc.Done?
    requires Foreign(t, pid) && Faultless(t)
    ensures var f := Play(s, pid, t);
      && pid in f.procs
      && (f.procs[pid].pc.Done? && f.procs[pid].pc.outcome.Replayed? ==> f.procs[pid].pc.outcome.swept.Some?)
    decreases |t|
  {
    hide Run, Next, FreshDraws, AlwaysFresh;
    if t != [] {
      OneTurn(s, pid, t);
      AnsweredTurn(Met(s, t[0]).w, pid, s.procs[pid].op, s.procs[pid].pc, t[0].draws);
      if !Taken(s, pid, t[0]).procs[pid].pc.Done? {
        FaultlessReplay(Taken(s, pid, t[0]), pid, t[1..]);
      }
    }
  }

  lemma AnsweredTurn(w: World, pid: Pid, op: Op, pc: Pc, d: Draws)
    requires op.RefreshOp? && !pc.Done?
    ensures var next := Next(w, pid, op, pc, NoFault, d).1;
      next.Done? && next.outcome.Replayed? ==> next.outcome.swept.Some?
  {
    hide Lookup, LookupRefresh, Query, GetByID, RotationAborts, FreshDraws, CommitRotate, CommitCreate, Apply, MintOf;
  }

  lemma SweptDone(s: State, pid: Pid)
    requires Inv(s) && pid in s.procs && s.procs[pid].pc.Done?
    requires s.procs[pid].pc.outcome.Replayed? && s.procs[pid].pc.outcome.swept.Some?
    ensures SweptUpTo(s.w, s.procs[pid].pc.outcome.userId, s.procs[pid].pc.outcome.swept.value)
  {
    hide WorldOk, SweptUpTo;
    assert ProcOk(s.w, pid, s.procs[pid].op, s.procs[pid].pc);
  }

  lemma PlayInv(s: State, pid: Pid, t: seq<Turn>)
    requires Inv(s)
    ensures Inv(Play(s, pid, t))
  {
    hide Inv, Run, Play, Events, After;
    PlayIsRun(s, pid, t);
    RunKeeps(s, Events(s, pid, t));
  }

  lemma SpentTurn(w: World, pid: Pid, op: Op, d: Draws)
    requires op.RefreshOp? && LookupRefresh(w, op.raw).Some? && LookupRefresh(w, op.raw).value.status.revoked
    ensures Next(w, pid, op, Start, NoFault, d) == (w, SweepReady(LookupRefresh(w, op.raw).value.core.who.userId))
  {
    hide LookupRefresh;
  }

  lemma ListTurn(w: World, pid: Pid, op: Op, user: string, d: Draws)
    requires op.RefreshOp?
    ensures var t := Next(w, pid, op, SweepReady(user), NoFault, d);
      t.1 == Done(Replayed(user, Some(w.db.ts))) || (t.1.Sweeping? && t.1.userId == user && t.1.listTs == w.db.ts)
  {
    hide Query;
  }

  lemma WriteTurn(w: World, pid: Pid, op: Op, pc: Pc, d: Draws)
    requires op.RefreshOp? && pc.Sweeping?
    ensures Next(w, pid, op, pc, NoFault, d).1 == Done(Replayed(pc.userId, Some(pc.listTs)))
  {
    hide Store;
  }

  // --- Activating a context ----------------------------------------------------------------------

  /** The lookup of an activation finds the session it was given, not revoked. */
  ghost predicate FindsGood(w: World, raw: string) {
    Lookup(w, raw).Some? && !Lookup(w, raw).value.status.revoked
  }

  /** An activation whose round trips are answered opens a session if and only if
      its lookup finds the presented one not revoked and its check finds it not
      expired. Whatever others do after the lookup, a revocation or a rotation of
      that very session included, makes no difference. */
  lemma ActivationIff(s: State, pid: Pid, t: seq<Turn>)
    requires pid in s.procs && s.procs[pid].op.ActivateOp? && s.procs[pid].pc == Start
    requires |t| >= 6 && Foreign(t, pid) && AlwaysFresh(s, pid, t) && Faultless(t)
    ensures var o, raw := Play(s, pid, t).procs, s.procs[pid].op.raw;
      && pid in o && o[pid].pc.Done?
      && (o[pid].pc.outcome.Tokens? <==>
            FindsGood(Met(s, t[0]).w, raw)
            && Met(Taken(s, pid, t[0]), t[1]).w.clock <= Lookup(Met(s, t[0]).w, raw).value.core.expiresAt)
  {
    hide Run, FreshDraws, AlwaysFresh, Next, Lookup, Play, Foreign, Step;
    var op := s.procs[pid].op;
    FirstTurns(s, pid, t);
    var s1 := Taken(s, pid, t[0]);
    var m1 := Met(s1, t[1]);
    var found := Lookup(Met(s, t[0]).w, op.raw);
    if found.Some? {
      var s2 := Taken(s1, pid, t[1]);
      if found.value.IsValid(m1.w.clock) {
        assert t[1..][1..] == t[2..];
        RestOfActivation(s2, pid, t[2..]);
      }
    }
  }

  lemma FirstTurns(s: State, pid: Pid, t: seq<Turn>)
    requires pid in s.procs && s.procs[pid].op.ActivateOp? && s.procs[pid].pc == Start
    requires |t| >= 2 && Foreign(t, pid) && AlwaysFresh(s, pid, t) && Faultless(t)
    ensures var found, s1, o := Lookup(Met(s, t[0]).w, s.procs[pid].op.raw), Taken(s, pid, t[0]), Play(s, pid, t).procs;
      && (found.None? ==> pid in o && o[pid].pc == Done(NotFound))
      && (found.Some? && !found.value.IsValid(Met(s1, t[1]).w.clock) ==> pid in o && o[pid].pc == Done(NotFound))
      && (found.Some? && found.value.IsValid(Met(s1, t[1]).w.clock) ==>
            var s2 := Taken(s1, pid, t[1]);
            && pid in s2.procs && s2.procs[pid].op == s.procs[pid].op && s2.procs[pid].pc == RevokeReady(found.value)
            && Play(s, pid, t) == Play(s2, pid, t[1..][1..]) && AlwaysFresh(s2, pid, t[1..][1..])
            && Foreign(t[1..][1..], pid))
  {
    hide Run, FreshDraws, AlwaysFresh, Next, Lookup;
    var op := s.procs[pid].op;
    OneTurn(s, pid, t);
    ActivateStart(Met(s, t[0]).w, pid, op, t[0].draws);
    var found := Lookup(Met(s, t[0]).w, op.raw);
    if found.Some? {
      var s1 := Taken(s, pid, t[0]);
      OneTurn(s1, pid, t[1..]);
      ActivateCheck(Met(s1, t[1]).w, pid, op, found.value, t[1].draws);
    }
  }

  lemma ActivateStart(w: World, pid: Pid, op: Op, d: Draws)
    requires op.ActivateOp?
    ensures Next(w, pid, op, Start, NoFault, d) == (w, Resolved(Lookup(w, op.raw)))
  {
    hide Lookup;
  }

  lemma ActivateCheck(w: World, pid: Pid, op: Op, x: Session, d: Draws)
    requires op.ActivateOp?
    ensures Next(w, pid, op, Looked(x), NoFault, d)
         == (w, if x.IsValid(w.clock) then RevokeReady(x) else Done(NotFound))
  {
  }

  /** From the revocation on nothing can stop it. */
  lemma RestOfActivation(s: State, pid: Pid, t: seq<Turn>)
    requires pid in s.procs && s.procs[pid].op.ActivateOp? && s.procs[pid].pc.RevokeReady?
    requires |t| >= 4 && Foreign(t, pid) && AlwaysFresh(s, pid, t) && Faultless(t)
    ensures var o := Play(s, pid, t).procs; pid in o && o[pid].pc.Done? && o[pid].pc.outcome.Tokens?
  {
    hide Run, FreshDraws, AlwaysFresh, Next;
    var op := s.procs[pid].op;
    OneTurn(s, pid, t);
    var s1 := Taken(s, pid, t[0]);
    OpeningTurn(Met(s, t[0]).w, pid, op, s.procs[pid].pc, t[0].draws);
    OneTurn(s1, pid, t[1..]);
    var s2 := Taken(s1, pid, t[1]);
    OpeningTurn(Met(s1, t[1]).w, pid, op, s1.procs[pid].pc, t[1].draws);
    assert t[1..][1..] == t[2..];
    OneTurn(s2, pid, t[2..]);
    var s3 := Taken(s2, pid, t[2]);
    OpeningTurn(Met(s2, t[2]).w, pid, op, s2.procs[pid].pc, t[2].draws);
    assert t[2..][1..] == t[3..];
    OneTurn(s3, pid, t[3..]);
    BackTurn(Met(s3, t[3]).w, pid, op, s3.procs[pid].pc, t[3].fault, t[3].draws);
  }

  lemma OpeningTurn(w: World, pid: Pid, op: Op, pc: Pc, d: Draws)
    requires op.ActivateOp? && FreshDraws(w.hist.mints, d)
    ensures var next := Next(w, pid, op, pc, NoFault, d).1;
      (pc.RevokeReady? ==> next.Renew?) && (pc.Renew? ==> next.CreateReady?) && (pc.CreateReady? ==> next.Created?)
  {
    hide FreshDraws, Store, CommitCreate, MintOf, Lookup, LookupRefresh, Query, GetByID;
  }

  lemma GoodIsLive(w: World, raw: string, u: D.Uid)
    requires WorldOk(w) && u in w.hist.births && w.hist.births[u].core.accessHash == Hash(raw)
    ensures FindsGood(w, raw) <==> LiveAt(w, u)
    ensures FindsGood(w, raw) ==> Lookup(w, raw).value.core == w.hist.births[u].core
  {
    hide WorldOk, Lookup, LiveAt, View, Visible, CoreOf, StatusOf, QueryOne;
    FoundIsTarget(w, raw, u);
    if LiveAt(w, u) {
      LiveVisible(w, u);
      FindsVisible(w, ByAccessHash(Hash(raw)), u);
      NamedLookup(w, raw);
      ViewParts(w, u);
    } else if Lookup(w, raw).Some? {
      LookupVisible(w, raw);
      DeadRevoked(w, u);
    }
  }

  lemma LookupVisible(w: World, raw: string)
    requires Lookup(w, raw).Some?
    ensures var u := Lookup(w, raw).value.id; Visible(w, u) && Lookup(w, raw).value == View(u, Node(w, u))
  {
    hide CoreOf, StatusOf, Select;
    var found := Query(w.db, ByAccessHash(Hash(raw)));
    assert found[0] in found;
  }

  lemma SameBirth(s: State, es: seq<Event>, u: D.Uid)
    requires Inv(s) && u in s.w.hist.births
    ensures u in Run(s, es).w.hist.births && Run(s, es).w.hist.births[u] == s.w.hist.births[u]
  {
    hide Run, Inv, LiveAt, Visible, D.Extends;
    RunKeeps(s, es);
  }

  // --- Several calls in one run -----------------------------------------------------------------

  /** Where process `pid` first moves. */
  function FirstMove(es: seq<Event>, pid: Pid): (k: nat)
    ensures k <= |es| && (k < |es| ==> es[k].Act? && es[k].pid == pid)
    ensures forall j :: 0 <= j < k ==> !(es[j].Act? && es[j].pid == pid)
  {
    if es == [] || (es[0].Act? && es[0].pid == pid) then 0 else 1 + FirstMove(es[1..], pid)
  }

  /** A run as one of its processes meets it: its own steps, each after those of others. */
  function TurnsOf(es: seq<Event>, pid: Pid): seq<Turn>
    decreases |es|
  {
    var k := FirstMove(es, pid);
    if k == |es| then [] else [Turn(es[..k], es[k].fault, es[k].draws)] + TurnsOf(es[k + 1..], pid)
  }

  /** The run up to the n-th step of a process. */
  function Before(es: seq<Event>, pid: Pid, n: nat): seq<Event>
    decreases n
  {
    var k := FirstMove(es, pid);
    if k == |es| then es else if n == 0 then es[..k] else es[..k + 1] + Before(es[k + 1..], pid, n - 1)
  }

  predicate NeverBegins(es: seq<Event>, pid: Pid) { forall e :: e in es && e.Begin? ==> e.pid != pid }

  lemma {:induction false} TurnsForeign(es: seq<Event>, pid: Pid)
    requires NeverBegins(es, pid)
    ensures Foreign(TurnsOf(es, pid), pid)
    decreases |es|
  {
    var k := FirstMove(es, pid);
    if k < |es| {
      TurnsForeign(es[k + 1..], pid);
      assert forall e :: e in es[..k] ==> !Concerns(e, pid);
    }
  }

  lemma {:induction false} DoneForGood(s: State, es: seq<Event>, pid: Pid)
    requires pid in s.procs && s.procs[pid].pc.Done?
    ensures pid in Run(s, es).procs && Run(s, es).procs[pid] == s.procs[pid]
    decreases |es|
  {
    hide Next;
    if es != [] {
      if es[0].Act? && es[0].pid == pid {
        DoneStays(s.w, pid, s.procs[pid].op, s.procs[pid].pc, es[0].fault, es[0].draws);
      }
      DoneForGood(Step(s, es[0]), es[1..], pid);
    }
  }

  /** In a run a process gets as far as its own turns take it. */
  lemma {:induction false} TurnsRun(s: State, es: seq<Event>, pid: Pid)
    requires pid in s.procs && NeverBegins(es, pid)
    ensures pid in Run(s, es).procs && pid in Play(s, pid, TurnsOf(es, pid)).procs
    ensures Run(s, es).procs[pid] == Play(s, pid, TurnsOf(es, pid)).procs[pid]
    decreases |es|
  {
    var k := FirstMove(es, pid);
    if s.procs[pid].pc.Done? {
      DoneForGood(s, es, pid);
    } else {
      assert forall e :: e in es[..k] ==> !Concerns(e, pid);
      Undisturbed(s, es[..k], pid);
      if k == |es| {
        assert es[..k] == es;
      } else {
        MoveRun(s, es, k);
        var next := Step(Run(s, es[..k]), es[k]);
        assert es[k] == Act(pid, es[k].fault, es[k].draws);
        assert NeverBegins(es[k + 1..], pid);
        hide Run, Step;
        TurnsRun(next, es[k + 1..], pid) by { Mover(Run(s, es[..k]), es[k], pid); }
      }
    }
  }

  lemma Mover(s: State, e: Event, pid: Pid)
    requires pid in s.procs
    ensures pid in Step(s, e).procs
  {
    hide Next;
  }

  lemma MoveRun(s: State, es: seq<Event>, k: nat)
    requires k < |es|
    ensures Run(s, es) == Run(Step(Run(s, es[..k]), es[k]), es[k + 1..])
    ensures Run(s, es[..k + 1]) == Step(Run(s, es[..k]), es[k])
  {
    hide Step;
    assert es == es[..k] + es[k..] && es[k..][1..] == es[k + 1..] && es[..k + 1] == es[..k] + [es[k]];
    RunSplits(s, es[..k], es[k..]);
    RunSplits(s, es[..k], [es[k]]);
    assert [es[k]][1..] == [];
  }

  /** What the first two turns meet is what the run has come to by then. */
  lemma MetInRun(s: State, es: seq<Event>, pid: Pid)
    requires pid in s.procs && |TurnsOf(es, pid)| >= 2
    ensures var t := TurnsOf(es, pid);
      Met(s, t[0]) == Run(s, Before(es, pid, 0)) && Met(Taken(s, pid, t[0]), t[1]) == Run(s, Before(es, pid, 1))
  {
    var k := FirstMove(es, pid);
    var rest := es[k + 1..];
    var j := FirstMove(rest, pid);
    MoveRun(s, es, k);
    assert es[k] == Act(pid, es[k].fault, es[k].draws);
    hide Step;
    RunSplits(s, es[..k + 1], rest[..j]);
    assert Before(rest, pid, 0) == rest[..j];
  }

  /** In one run two activations of one session both open a session if and only if
      both looked it up while it was live, that is before either revocation, or
      anything else that kills it, committed, and both found it unexpired. */
  lemma TwoActivationsIff(s: State, es: seq<Event>, p: Pid, q: Pid, u: D.Uid)
    requires Inv(s) && u in s.w.hist.births && p in s.procs && q in s.procs && p != q
    requires s.procs[p].op.ActivateOp? && s.procs[p].pc == Start && s.procs[q].op.ActivateOp? && s.procs[q].pc == Start
    requires s.w.hist.births[u].core.accessHash == Hash(s.procs[p].op.raw) == Hash(s.procs[q].op.raw)
    requires NeverBegins(es, p) && |TurnsOf(es, p)| >= 6
    requires AlwaysFresh(s, p, TurnsOf(es, p)) && Faultless(TurnsOf(es, p))
    requires NeverBegins(es, q) && |TurnsOf(es, q)| >= 6
    requires AlwaysFresh(s, q, TurnsOf(es, q)) && Faultless(TurnsOf(es, q))
    ensures var f, expiry := Run(s, es).procs, s.w.hist.births[u].core.expiresAt;
      && p in f && q in f && f[p].pc.Done? && f[q].pc.Done?
      && (f[p].pc.outcome.Tokens? && f[q].pc.outcome.Tokens? <==>
            && LiveAt(Run(s, Before(es, p, 0)).w, u) && Run(s, Before(es, p, 1)).w.clock <= expiry
            && LiveAt(Run(s, Before(es, q, 0)).w, u) && Run(s, Before(es, q, 1)).w.clock <= expiry)
  {
    hide Run, Play, AlwaysFresh, Foreign, Faultless, FindsGood, LiveAt, WorldOk, ProcOk, Next, Later, TurnsOf, Before;
    ActivatesInRun(s, es, p, u);
    ActivatesInRun(s, es, q, u);
  }

  lemma ActivatesInRun(s: State, es: seq<Event>, p: Pid, u: D.Uid)
    requires Inv(s) && u in s.w.hist.births && p in s.procs
    requires s.procs[p].op.ActivateOp? && s.procs[p].pc == Start
    requires s.w.hist.births[u].core.accessHash == Hash(s.procs[p].op.raw)
    requires NeverBegins(es, p) && |TurnsOf(es, p)| >= 6
    requires AlwaysFresh(s, p, TurnsOf(es, p)) && Faultless(TurnsOf(es, p))
    ensures var f := Run(s, es).procs;
      && p in f && f[p].pc.Done?
      && (f[p].pc.outcome.Tokens? <==>
            && LiveAt(Run(s, Before(es, p, 0)).w, u)
            && Run(s, Before(es, p, 1)).w.clock <= s.w.hist.births[u].core.expiresAt)
  {
    hide Run, Play, AlwaysFresh, Foreign, Faultless, FindsGood, LiveAt, WorldOk, ProcOk, Next, Later, TurnsOf, Before;
    var t := TurnsOf(es, p);
    TurnsForeign(es, p);
    TurnsRun(s, es, p);
    MetInRun(s, es, p);
    ActivationIff(s, p, t);
    RunKeeps(s, t[0].between);
    SameBirth(s, t[0].between, u);
    GoodIsLive(Met(s, t[0]).w, s.procs[p].op.raw, u);
  }
}
