// What a refresh comes to (internal/service/session.go): exactly when it gets
// tokens, and exactly one of those that race each other.

module SessionRefreshes {
  import opened Prelude
  import opened OpaqueToken
  import opened Sessions
  import opened SessionStore
  import opened SessionProtocol
  import opened SessionInvariants
  import opened SessionSteps
  import opened SessionTheorems
  import opened SessionServices
  import opened SessionRuns
  import opened SessionWrites
  import opened SessionSchedules
  import D = Dgraph

  /** What the k-th round trip of a call meets. */
  ghost function Sees(s: State, pid: Pid, t: seq<Turn>, k: nat): World
    requires k < |t|
  {
    Met(Play(s, pid, t[..k]), t[k]).w
  }

  lemma SeesNow(s: State, pid: Pid, t: seq<Turn>)
    requires |t| > 0
    ensures Sees(s, pid, t, 0) == Met(s, t[0]).w
  {
    assert t[..0] == [];
  }

  lemma SeesNext(s: State, pid: Pid, t: seq<Turn>, k: nat)
    requires 0 < k < |t| && pid in s.procs && !s.procs[pid].pc.Done?
    ensures Sees(s, pid, t, k) == Sees(Taken(s, pid, t[0]), pid, t[1..], k - 1)
  {
    hide Run, Step;
    assert t[..k][0] == t[0] && t[..k][1..] == t[1..][..k - 1];
  }

  /** The invariants of every reachable state. */
  ghost predicate Sound(s: State) { Inv(s) && WritesInv(s) }

  /** One turn of a sound state: the step taken, and soundness after it. */
  lemma AnyTurn(s: State, pid: Pid, t: seq<Turn>)
    requires Sound(s) && |t| > 0 && pid in s.procs && !s.procs[pid].pc.Done?
    requires Foreign(t, pid) && AlwaysFresh(s, pid, t)
    ensures var m, s1 := Met(s, t[0]), Taken(s, pid, t[0]);
      var Proc(op, pc) := s.procs[pid];
      var next := Next(m.w, pid, op, pc, t[0].fault, t[0].draws);
      && Sound(m) && Sound(s1) && m.w == Sees(s, pid, t, 0)
      && pid in m.procs && m.procs[pid] == s.procs[pid] && FreshDraws(m.w.hist.mints, t[0].draws)
      && s1.w == next.0 && pid in s1.procs && s1.procs[pid] == Proc(op, next.1)
      && Foreign(t[1..], pid) && AlwaysFresh(s1, pid, t[1..])
      && Play(s, pid, t) == Play(s1, pid, t[1..])
  {
    hide Run, Next, FreshDraws, AlwaysFresh, Inv, WritesInv, After;
    OneTurn(s, pid, t);
    SeesNow(s, pid, t);
    RunKeeps(s, t[0].between);
    RunWrites(s, t[0].between);
    StepKeeps(Met(s, t[0]), Act(pid, t[0].fault, t[0].draws));
    StepWrites(Met(s, t[0]), Act(pid, t[0].fault, t[0].draws));
  }

  /** One answered turn. */
  lemma SoundTurn(s: State, pid: Pid, t: seq<Turn>)
    requires Sound(s) && |t| > 0 && pid in s.procs && !s.procs[pid].pc.Done?
    requires Foreign(t, pid) && AlwaysFresh(s, pid, t) && Faultless(t)
    ensures var m, s1 := Met(s, t[0]), Taken(s, pid, t[0]);
      var Proc(op, pc) := s.procs[pid];
      var next := Next(m.w, pid, op, pc, NoFault, t[0].draws);
      && Sound(m) && Sound(s1) && m.w == Sees(s, pid, t, 0)
      && pid in m.procs && m.procs[pid] == s.procs[pid] && FreshDraws(m.w.hist.mints, t[0].draws)
      && s1.w == next.0 && pid in s1.procs && s1.procs[pid] == Proc(op, next.1)
      && Foreign(t[1..], pid) && AlwaysFresh(s1, pid, t[1..]) && Faultless(t[1..])
      && Play(s, pid, t) == Play(s1, pid, t[1..])
  {
    hide Run, Next, FreshDraws, AlwaysFresh, Sound, Foreign, Sees, Play;
    AnyTurn(s, pid, t);
  }

  // --- One round trip ------------------------------------------------------------------------

  /** A session is visible and live, visible and dead, or gone. */
  lemma LiveIsVisible(w: World, u: D.Uid)
    requires WorldOk(w)
    ensures LiveAt(w, u) ==> Visible(w, u)
  {
    hide WorldOk, LiveAt, Visible, GetByID, View;
    if LiveAt(w, u) {
      LiveVisible(w, u);
    }
  }

  lemma MatchVisible(w: World, f: Filter, u: D.Uid)
    requires (f.ByAccessHash? || f.ByRefreshHash?) && u in Query(w.db, f)
    ensures Visible(w, u)
  {
  }

  /** The lookup finds the session the token names, unless it is gone. */
  lemma RefreshFinds(w: World, raw: string, u: D.Uid)
    requires WorldOk(w) && u in w.hist.births && w.hist.births[u].core.refreshHash == Hash(raw)
    ensures LookupRefresh(w, raw) == if Visible(w, u) then Some(View(u, Node(w, u))) else None
  {
    hide WorldOk, Select, LiveAt, CoreOf, StatusOf, Visible;
    NamedLookup(w, raw);
    var f := ByRefreshHash(Hash(raw));
    if Visible(w, u) {
      FindsVisible(w, f, u);
    } else {
      var found := Query(w.db, f);
      if found != [] {
        assert found[0] in found;
        MatchVisible(w, f, found[0]);
        Matched(w, f, found[0]);
        if found[0] != u {
          DistinctTokens(w, found[0], u);
        }
      }
    }
  }

  lemma AccessFinds(w: World, raw: string, u: D.Uid)
    requires WorldOk(w) && u in w.hist.births && w.hist.births[u].core.accessHash == Hash(raw)
    ensures Lookup(w, raw) == if Visible(w, u) then Some(View(u, Node(w, u))) else None
  {
    hide WorldOk, Select, LiveAt, CoreOf, StatusOf, Visible;
    NamedLookup(w, raw);
    var f := ByAccessHash(Hash(raw));
    if Visible(w, u) {
      FindsVisible(w, f, u);
    } else {
      var found := Query(w.db, f);
      if found != [] {
        assert found[0] in found;
        MatchVisible(w, f, found[0]);
        Matched(w, f, found[0]);
        if found[0] != u {
          DistinctTokens(w, found[0], u);
        }
      }
    }
  }

  lemma ViewLive(w: World, u: D.Uid)
    requires WorldOk(w) && Visible(w, u)
    ensures u in w.hist.births && View(u, Node(w, u)).id == u && View(u, Node(w, u)).core == w.hist.births[u].core
    ensures View(u, Node(w, u)).status.revoked <==> !LiveAt(w, u)
    ensures GetByID(w.db, u) == Some(View(u, Node(w, u)))
  {
    hide FamiliesOk, MintsOk, PastOk, D.WellFormed, CoreOf;
    assert NodeOk(Node(w, u), w.hist.births, w.hist.succ, u);
  }

  lemma LookupTurn(w: World, pid: Pid, op: Op, d: Draws, u: D.Uid)
    requires WorldOk(w) && op.RefreshOp? && u in w.hist.births && w.hist.births[u].core.refreshHash == Hash(op.raw)
    ensures var (t, next) := Next(w, pid, op, Start, NoFault, d);
      t == w && if !Visible(w, u) then next == Done(NotFound)
                else if !LiveAt(w, u) then next.SweepReady?
                else next.Looked? && next.x.id == u && next.x.core == w.hist.births[u].core
  {
    hide WorldOk, LookupRefresh, Visible, LiveAt, View, GetByID;
    RefreshFinds(w, op.raw, u);
    if Visible(w, u) {
      ViewLive(w, u);
    }
  }

  lemma CheckTurn(w: World, pid: Pid, op: Op, x: Session, d: Draws)
    requires op.RefreshOp?
    ensures Next(w, pid, op, Looked(x), NoFault, d)
         == (w, if w.clock <= x.core.refreshExpiresAt then Checked(x, w.clock) else Done(RefreshExpired))
  {
  }

  lemma MintTurn(w: World, pid: Pid, op: Op, x: Session, checkedAt: int, d: Draws)
    requires FreshDraws(w.hist.mints, d)
    ensures Next(w, pid, op, Checked(x, checkedAt), NoFault, d)
         == (Draw(w, pid, d), RotateReady(x, MintOf(d), w.clock, checkedAt))
  {
    hide FreshDraws, MintOf;
  }

  lemma ReadTurn(w: World, pid: Pid, op: Op, pc: Pc, d: Draws)
    requires WorldOk(w) && pc.RotateReady?
    ensures var (t, next) := Next(w, pid, op, pc, NoFault, d);
      t == w && if !Visible(w, pc.x.id) then next == Done(Failed(None))
                else if !LiveAt(w, pc.x.id) then next.SweepReady?
                else next.RotateOpen? && next.x == pc.x
  {
    hide WorldOk, LiveAt, View;
    if Visible(w, pc.x.id) {
      ViewLive(w, pc.x.id);
    }
  }

  // --- From each point on -----------------------------------------------------------------------

  lemma FromSweep(s: State, pid: Pid, t: seq<Turn>)
    requires Sound(s) && |t| >= 2 && pid in s.procs && s.procs[pid].op.RefreshOp? && s.procs[pid].pc.SweepReady?
    requires Foreign(t, pid) && AlwaysFresh(s, pid, t) && Faultless(t)
    ensures var o := Play(s, pid, t).procs; pid in o && o[pid].pc.Done? && o[pid].pc.outcome.Replayed?
  {
    hide Run, Next, FreshDraws, AlwaysFresh, Sound, Foreign, Faultless, Sees;
    var op, user := s.procs[pid].op, s.procs[pid].pc.userId;
    SoundTurn(s, pid, t);
    ListTurn(Met(s, t[0]).w, pid, op, user, t[0].draws);
    var s1 := Taken(s, pid, t[0]);
    if s1.procs[pid].pc.Sweeping? {
      SoundTurn(s1, pid, t[1..]);
      WriteTurn(Met(s1, t[1]).w, pid, op, s1.procs[pid].pc, t[1].draws);
    }
  }

  lemma CommitTurn(s: State, pid: Pid, t: seq<Turn>)
    requires Sound(s) && |t| >= 1 && pid in s.procs && s.procs[pid].op.RefreshOp? && s.procs[pid].pc.RotateOpen?
    requires Foreign(t, pid) && AlwaysFresh(s, pid, t) && Faultless(t)
    ensures pid in Taken(s, pid, t[0]).procs
    ensures var w, next := Sees(s, pid, t, 0), Taken(s, pid, t[0]).procs[pid].pc;
      if LiveAt(w, s.procs[pid].pc.x.id) then next.Created? else next == Done(Failed(None))
  {
    hide Run, Next, FreshDraws, AlwaysFresh, Foreign, Faultless, Sees, LiveAt, RotationAborts, WorldOk, ProcOk;
    hide WritesOk, PcWrites;
    SoundTurn(s, pid, t);
    var m, op, pc := Met(s, t[0]), s.procs[pid].op, s.procs[pid].pc;
    AbortsIffDead(m.w, pid, op, pc);
    OpenTurn(m.w, pid, op, pc, NoFault, t[0].draws);
  }

  lemma OpenIff(s: State, pid: Pid, t: seq<Turn>)
    requires Sound(s) && |t| >= 2 && pid in s.procs && s.procs[pid].op.RefreshOp? && s.procs[pid].pc.RotateOpen?
    requires Foreign(t, pid) && AlwaysFresh(s, pid, t) && Faultless(t)
    ensures var o, w := Play(s, pid, t).procs, Sees(s, pid, t, 0);
      && pid in o && o[pid].pc.Done?
      && if LiveAt(w, s.procs[pid].pc.x.id) then o[pid].pc.outcome.Tokens? else o[pid].pc.outcome.Failed?
  {
    hide Run, Next, FreshDraws, AlwaysFresh, Sound, Foreign, Faultless, Sees, LiveAt;
    SoundTurn(s, pid, t);
    CommitTurn(s, pid, t);
    var s1 := Taken(s, pid, t[0]);
    if s1.procs[pid].pc.Created? {
      SoundTurn(s1, pid, t[1..]);
      BackTurn(Met(s1, t[1]).w, pid, s1.procs[pid].op, s1.procs[pid].pc, NoFault, t[1].draws);
    }
  }

  lemma ReadyIff(s: State, pid: Pid, t: seq<Turn>, u: D.Uid)
    requires Sound(s) && |t| >= 3 && pid in s.procs && s.procs[pid].op.RefreshOp?
    requires s.procs[pid].pc.RotateReady? && s.procs[pid].pc.x.id == u
    requires Foreign(t, pid) && AlwaysFresh(s, pid, t) && Faultless(t)
    ensures var o, w3, w4 := Play(s, pid, t).procs, Sees(s, pid, t, 0), Sees(s, pid, t, 1);
      && pid in o && o[pid].pc.Done?
      && if !Visible(w3, u) then o[pid].pc.outcome.Failed?
         else if !LiveAt(w3, u) then o[pid].pc.outcome.Replayed?
         else if !LiveAt(w4, u) then o[pid].pc.outcome.Failed?
         else o[pid].pc.outcome.Tokens?
  {
    hide Run, Next, FreshDraws, AlwaysFresh, WorldOk, ProcOk, WritesInv, Foreign, Faultless, Sees, LiveAt, Visible;
    SoundTurn(s, pid, t);
    var s1 := Taken(s, pid, t[0]);
    ReadTurn(Met(s, t[0]).w, pid, s.procs[pid].op, s.procs[pid].pc, t[0].draws);
    SeesNext(s, pid, t, 1);
    if s1.procs[pid].pc.SweepReady? {
      FromSweep(s1, pid, t[1..]);
    } else if s1.procs[pid].pc.RotateOpen? {
      OpenIff(s1, pid, t[1..]);
    }
  }

  lemma LookedIff(s: State, pid: Pid, t: seq<Turn>, u: D.Uid, deadline: int)
    requires Sound(s) && |t| >= 5 && pid in s.procs && s.procs[pid].op.RefreshOp?
    requires s.procs[pid].pc.Looked? && s.procs[pid].pc.x.id == u && s.procs[pid].pc.x.core.refreshExpiresAt == deadline
    requires Foreign(t, pid) && AlwaysFresh(s, pid, t) && Faultless(t)
    ensures var o, w1, w3, w4 := Play(s, pid, t).procs, Sees(s, pid, t, 0), Sees(s, pid, t, 2), Sees(s, pid, t, 3);
      && pid in o && o[pid].pc.Done?
      && if w1.clock > deadline then o[pid].pc.outcome.RefreshExpired?
         else if !Visible(w3, u) then o[pid].pc.outcome.Failed?
         else if !LiveAt(w3, u) then o[pid].pc.outcome.Replayed?
         else if !LiveAt(w4, u) then o[pid].pc.outcome.Failed?
         else o[pid].pc.outcome.Tokens?
  {
    hide Run, Next, FreshDraws, AlwaysFresh, Sound, Foreign, Faultless, Sees, LiveAt, Visible, MintOf, Draw;
    var op, x := s.procs[pid].op, s.procs[pid].pc.x;
    SoundTurn(s, pid, t);
    CheckTurn(Met(s, t[0]).w, pid, op, x, t[0].draws);
    var s1 := Taken(s, pid, t[0]);
    SeesNext(s, pid, t, 2);
    SeesNext(s, pid, t, 3);
    if s1.procs[pid].pc.Checked? {
      SoundTurn(s1, pid, t[1..]);
      MintTurn(Met(s1, t[1]).w, pid, op, x, s1.procs[pid].pc.checkedAt, t[1].draws);
      SeesNext(s1, pid, t[1..], 1);
      SeesNext(s1, pid, t[1..], 2);
      ReadyIff(Taken(s1, pid, t[1]), pid, t[1..][1..], u);
    }
  }

  lemma StartIff(s: State, pid: Pid, t: seq<Turn>, u: D.Uid)
    requires Sound(s) && |t| >= 6 && pid in s.procs && s.procs[pid].op.RefreshOp? && s.procs[pid].pc == Start
    requires Foreign(t, pid) && AlwaysFresh(s, pid, t) && Faultless(t)
    requires u in Sees(s, pid, t, 0).hist.births
    requires Sees(s, pid, t, 0).hist.births[u].core.refreshHash == Hash(s.procs[pid].op.raw)
    ensures var w0, w1, w3, w4 := Sees(s, pid, t, 0), Sees(s, pid, t, 1), Sees(s, pid, t, 3), Sees(s, pid, t, 4);
      var o := Play(s, pid, t).procs;
      && pid in o && o[pid].pc.Done?
      && if !Visible(w0, u) then o[pid].pc.outcome.NotFound?
         else if !LiveAt(w0, u) then o[pid].pc.outcome.Replayed?
         else if w1.clock > w0.hist.births[u].core.refreshExpiresAt then o[pid].pc.outcome.RefreshExpired?
         else if !Visible(w3, u) then o[pid].pc.outcome.Failed?
         else if !LiveAt(w3, u) then o[pid].pc.outcome.Replayed?
         else if !LiveAt(w4, u) then o[pid].pc.outcome.Failed?
         else o[pid].pc.outcome.Tokens?
  {
    hide Run, Next, FreshDraws, AlwaysFresh, WorldOk, ProcOk, WritesInv, Foreign, Faultless, Sees, LiveAt, Visible;
    SoundTurn(s, pid, t);
    LookupTurn(Met(s, t[0]).w, pid, s.procs[pid].op, t[0].draws, u);
    var s1 := Taken(s, pid, t[0]);
    SeesNext(s, pid, t, 1);
    SeesNext(s, pid, t, 3);
    SeesNext(s, pid, t, 4);
    if s1.procs[pid].pc.SweepReady? {
      FromSweep(s1, pid, t[1..]);
    } else if s1.procs[pid].pc.Looked? {
      LookedIff(s1, pid, t[1..], u, Sees(s, pid, t, 0).hist.births[u].core.refreshExpiresAt);
    }
  }

  /** Over every schedule whose round trips are answered, what a refresh comes to is
      told by the fate of the session its token names at five moments: the lookup,
      the expiry check, the read and the commit of the rotation. It gets tokens if
      and only if the session is live at all of them and was not expired at the check;
      it is a replay if and only if lookup or read find it dead; and a plain error if
      and only if it was purged before the read, or died between read and commit. */
  lemma RefreshIff(r: Trace, pid: Pid, t: seq<Turn>, u: D.Uid)
    requires pid in At(r).procs && At(r).procs[pid].op.RefreshOp? && At(r).procs[pid].pc == Start
    requires |t| >= 6 && Foreign(t, pid) && AlwaysFresh(At(r), pid, t) && Faultless(t)
    requires u in Sees(At(r), pid, t, 0).hist.births
    requires Sees(At(r), pid, t, 0).hist.births[u].core.refreshHash == Hash(At(r).procs[pid].op.raw)
    ensures pid in Play(At(r), pid, t).procs && Play(At(r), pid, t).procs[pid].pc.Done?
    ensures var lookup, check := Sees(At(r), pid, t, 0), Sees(At(r), pid, t, 1);
      var read, commit := Sees(At(r), pid, t, 3), Sees(At(r), pid, t, 4);
      var out := Play(At(r), pid, t).procs[pid].pc.outcome;
      var inTime := LiveAt(lookup, u) && check.clock <= lookup.hist.births[u].core.refreshExpiresAt;
      && (out.Tokens? <==> inTime && LiveAt(read, u) && LiveAt(commit, u))
      && (out.Replayed? <==> (Visible(lookup, u) && !LiveAt(lookup, u))
                             || (inTime && Visible(read, u) && !LiveAt(read, u)))
      && (out.Failed? <==> inTime && (!Visible(read, u) || (LiveAt(read, u) && !LiveAt(commit, u))))
      && (out.RefreshExpired? <==> LiveAt(lookup, u) && !inTime)
      && (out.NotFound? <==> !Visible(lookup, u))
  {
    hide Run, Play, AlwaysFresh, Inv, WritesInv, Foreign, Faultless, LiveAt, Visible, Sees;
    Reached(r);
    EverWritten(r);
    StartIff(At(r), pid, t, u);
    VisibleWhenLive(At(r), pid, t, u, 0);
    VisibleWhenLive(At(r), pid, t, u, 3);
  }

  lemma VisibleWhenLive(s: State, pid: Pid, t: seq<Turn>, u: D.Uid, k: nat)
    requires Inv(s) && k < |t|
    ensures LiveAt(Sees(s, pid, t, k), u) ==> Visible(Sees(s, pid, t, k), u)
  {
    hide Run, Play, WorldOk, ProcOk, LiveAt, Visible;
    PlayInv(s, pid, t[..k]);
    RunKeeps(Play(s, pid, t[..k]), t[k].between);
    LiveIsVisible(Sees(s, pid, t, k), u);
  }

  /** A token that names no session at the lookup is not found. */
  lemma UnknownToken(r: Trace, pid: Pid, t: seq<Turn>)
    requires pid in At(r).procs && At(r).procs[pid].op.RefreshOp? && At(r).procs[pid].pc == Start
    requires |t| >= 1 && Foreign(t, pid) && AlwaysFresh(At(r), pid, t) && Faultless(t)
    requires var w := Sees(At(r), pid, t, 0);
      forall u :: u in w.hist.births ==> w.hist.births[u].core.refreshHash != Hash(At(r).procs[pid].op.raw)
    ensures pid in Play(At(r), pid, t).procs && Play(At(r), pid, t).procs[pid].pc == Done(NotFound)
  {
    hide Run, AlwaysFresh, WorldOk, ProcOk, WritesInv, Foreign, Faultless, Sees, Next, FreshDraws;
    hide Lookup, LookupRefresh;
    Reached(r);
    EverWritten(r);
    var s, op := At(r), At(r).procs[pid].op;
    SoundTurn(s, pid, t);
    LookupOk(Met(s, t[0]).w, op.raw);
    NoneTurn(Met(s, t[0]).w, pid, op, t[0].draws);
  }

  lemma NoneTurn(w: World, pid: Pid, op: Op, d: Draws)
    requires op.RefreshOp? && LookupRefresh(w, op.raw).None?
    ensures Next(w, pid, op, Start, NoFault, d) == (w, Done(NotFound))
  {
    hide LookupRefresh;
  }

  // --- Exactly one winner -------------------------------------------------------------------------

  /** Process `q` has read session `u` and is about to commit its rotation. */
  ghost predicate Racing(s: State, q: Pid, u: D.Uid) {
    q in s.procs && s.procs[q].op.RefreshOp? && s.procs[q].pc.RotateOpen? && s.procs[q].pc.x.id == u
  }

  predicate By(e: Event, racers: set<Pid>) { e.Act? && e.pid in racers }

  /** Nobody but the racers revokes, rotates or purges `u`. */
  ghost predicate Spared(s: State, es: seq<Event>, racers: set<Pid>, u: D.Uid)
    decreases |es|
  {
    es == [] ||
    (&& (!By(es[0], racers) && LiveAt(s.w, u) ==> LiveAt(Step(s, es[0]).w, u))
     && Spared(Step(s, es[0]), es[1..], racers, u))
  }

  /** The steps a process takes. */
  function Acts(es: seq<Event>, q: Pid): nat {
    if es == [] then 0 else (if es[0].Act? && es[0].pid == q then 1 else 0) + Acts(es[1..], q)
  }

  predicate Answers(es: seq<Event>, racers: set<Pid>) { forall e :: e in es && By(e, racers) ==> e.fault == NoFault }

  lemma SoundStep(s: State, e: Event)
    requires Sound(s)
    ensures Sound(Step(s, e)) && After(s, Step(s, e))
  {
    hide Inv, WritesInv, Step, After;
    StepKeeps(s, e);
    StepWrites(s, e);
  }

  lemma OthersStep(s: State, e: Event, q: Pid)
    requires q in s.procs && !(e.Act? && e.pid == q)
    ensures q in Step(s, e).procs && Step(s, e).procs[q] == s.procs[q]
  {
    hide Next;
  }

  lemma StaysDead(s: State, e: Event, q: Pid, u: D.Uid)
    requires Sound(s) && Racing(s, q, u) && !LiveAt(s.w, u)
    ensures !LiveAt(Step(s, e).w, u)
  {
    hide WorldOk, WritesInv, Step, LiveAt, Visible, D.Extends;
    SoundStep(s, e);
    assert ProcOk(s.w, q, s.procs[q].op, s.procs[q].pc);
  }

  lemma CommitStep(s: State, q: Pid, u: D.Uid, d: Draws)
    requires Sound(s) && Racing(s, q, u)
    ensures var t := Step(s, Act(q, NoFault, d));
      && q in t.procs && t.procs[q].op == s.procs[q].op
      && (if LiveAt(s.w, u) then t.procs[q].pc.Created? else t.procs[q].pc == Done(Failed(None)))
      && !LiveAt(t.w, u)
  {
    hide WorldOk, ProcOk, WritesOk, PcWrites, Next, RotationAborts, CommitRotate, RotationCore, LiveAt, Visible, Node;
    var op, pc := s.procs[q].op, s.procs[q].pc;
    AbortsIffDead(s.w, q, op, pc);
    OpenTurn(s.w, q, op, pc, NoFault, d);
    if LiveAt(s.w, u) {
      RotatedNow(s.w, q, op, pc);
      CommitsAs(s.w, q, op, pc, d);
    }
  }

  lemma CommitsAs(w: World, q: Pid, op: Op, pc: Pc, d: Draws)
    requires op.RefreshOp? && pc.RotateOpen? && !RotationAborts(w, op, pc)
    ensures Next(w, q, op, pc, NoFault, d).0
         == CommitRotate(w, q, pc.x.id, RotationCore(w, op, pc), pc.at, pc.at - pc.checkedAt)
  {
    hide RotationAborts, CommitRotate, RotationCore;
  }

  /** Who commits after the session is dead fails, whatever else happens. */
  lemma {:induction false} LostRace(s: State, es: seq<Event>, q: Pid, u: D.Uid)
    requires Sound(s) && Racing(s, q, u) && !LiveAt(s.w, u) && Answers(es, {q}) && Acts(es, q) >= 1
    ensures q in Run(s, es).procs && Run(s, es).procs[q].pc == Done(Failed(None))
    decreases |es|
  {
    hide Sound, Step, LiveAt;
    var e, t := es[0], Step(s, es[0]);
    assert e in es && forall x :: x in es[1..] ==> x in es;
    SoundStep(s, e);
    if e.Act? && e.pid == q {
      CommitStep(s, q, u, e.draws);
      DoneForGood(t, es[1..], q);
    } else {
      OthersStep(s, e, q);
      StaysDead(s, e, q, u);
      LostRace(t, es[1..], q, u);
    }
  }

  /** Who has committed gets the tokens with its next step. */
  lemma {:induction false} WonRace(s: State, es: seq<Event>, p: Pid)
    requires p in s.procs && s.procs[p].pc.Created? && Answers(es, {p}) && Acts(es, p) >= 1
    ensures p in Run(s, es).procs && Run(s, es).procs[p].pc.Done? && Run(s, es).procs[p].pc.outcome.Tokens?
    decreases |es|
  {
    hide Step, Next;
    var e, t := es[0], Step(s, es[0]);
    assert e in es && forall x :: x in es[1..] ==> x in es;
    if e.Act? && e.pid == p {
      BackStep(s, e, p);
      DoneForGood(t, es[1..], p);
    } else {
      OthersStep(s, e, p);
      WonRace(t, es[1..], p);
    }
  }

  lemma BackStep(s: State, e: Event, p: Pid)
    requires p in s.procs && s.procs[p].pc.Created? && e.Act? && e.pid == p && e.fault == NoFault
    ensures var t := Step(s, e); p in t.procs && t.procs[p].pc.Done? && t.procs[p].pc.outcome.Tokens?
  {
    hide Next;
    BackTurn(s.w, p, s.procs[p].op, s.procs[p].pc, e.fault, e.draws);
  }

  /** The index of the first step of a racer. */
  function First(es: seq<Event>, racers: set<Pid>): (k: nat)
    ensures k <= |es| && (k < |es| ==> By(es[k], racers)) && forall j :: 0 <= j < k ==> !By(es[j], racers)
  {
    if es == [] || By(es[0], racers) then 0 else 1 + First(es[1..], racers)
  }

  lemma {:induction false} FirstActs(es: seq<Event>, racers: set<Pid>, q: Pid)
    requires q in racers && Acts(es, q) >= 1
    ensures First(es, racers) < |es|
  {
    if !By(es[0], racers) {
      FirstActs(es[1..], racers, q);
    }
  }

  ghost predicate AllRace(s: State, racers: set<Pid>, u: D.Uid) { forall q :: q in racers ==> Racing(s, q, u) }

  predicate AllAct(es: seq<Event>, racers: set<Pid>, n: nat) { forall q :: q in racers ==> Acts(es, q) >= n }

  lemma {:induction false} RaceRun(s: State, es: seq<Event>, racers: set<Pid>, u: D.Uid)
    requires Sound(s) && racers != {} && AllRace(s, racers, u) && LiveAt(s.w, u)
    requires Answers(es, racers) && Spared(s, es, racers, u) && AllAct(es, racers, 2)
    ensures First(es, racers) < |es|
    ensures var p, f := es[First(es, racers)].pid, Run(s, es).procs;
      && p in racers && p in f && f[p].pc.Done? && f[p].pc.outcome.Tokens?
      && forall q :: q in racers && q != p ==> q in f && f[q].pc == Done(Failed(None))
    decreases |es|
  {
    hide Sound, Step, LiveAt;
    var any :| any in racers;
    FirstActs(es, racers, any);
    var e, t := es[0], Step(s, es[0]);
    assert e in es && forall x :: x in es[1..] ==> x in es;
    SoundStep(s, e);
    forall q | q in racers && !(e.Act? && e.pid == q) ensures Racing(t, q, u) { OthersStep(s, e, q); }
    if By(e, racers) {
      var p := e.pid;
      CommitStep(s, p, u, e.draws);
      assert Acts(es[1..], p) >= 1;
      assert Answers(es[1..], {p});
      WonRace(t, es[1..], p);
      forall q | q in racers && q != p ensures q in Run(s, es).procs && Run(s, es).procs[q].pc == Done(Failed(None)) {
        LostRace(t, es[1..], q, u);
      }
    } else {
      RaceRun(t, es[1..], racers, u);
    }
  }

  lemma SameTarget(w: World, q: Pid, op: Op, pc: Pc, u: D.Uid)
    requires WorldOk(w) && ProcOk(w, q, op, pc) && op.RefreshOp? && pc.RotateOpen?
    requires u in w.hist.births && w.hist.births[u].core.refreshHash == Hash(op.raw)
    ensures pc.x.id == u
  {
    hide WorldOk, LiveAt, D.LastWrite;
    if pc.x.id != u {
      DistinctTokens(w, pc.x.id, u);
    }
  }

  /** Exactly one winner: of any number of refreshes with one raw token that have all
      read its session, live and in time, the first to commit gets tokens and every
      other fails, in every run in which their round trips are answered and nobody
      else revokes or purges the session before. */
  lemma ExactlyOne(r: Trace, es: seq<Event>, racers: set<Pid>, raw: string, u: D.Uid)
    requires racers != {} && forall q :: q in racers ==>
      q in At(r).procs && At(r).procs[q].op.RefreshOp? && At(r).procs[q].op.raw == raw && At(r).procs[q].pc.RotateOpen?
    requires u in At(r).w.hist.births && At(r).w.hist.births[u].core.refreshHash == Hash(raw) && LiveAt(At(r).w, u)
    requires Answers(es, racers) && Spared(At(r), es, racers, u) && AllAct(es, racers, 2)
    ensures First(es, racers) < |es|
    ensures var p, f := es[First(es, racers)].pid, At(Then(r, es)).procs;
      && p in racers && p in f && f[p].pc.Done? && f[p].pc.outcome.Tokens?
      && forall q :: q in racers && q != p ==> q in f && f[q].pc == Done(Failed(None))
  {
    hide Run, WorldOk, ProcOk, WritesInv, LiveAt, Spared, Answers, AllAct, After;
    Reached(r);
    EverWritten(r);
    Continues(r, es);
    var s := At(r);
    forall q | q in racers ensures Racing(s, q, u) {
      SameTarget(s.w, q, s.procs[q].op, s.procs[q].pc, u);
    }
    RaceRun(s, es, racers, u);
  }
}
