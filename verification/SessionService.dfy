// internal/service/session.go, method by method. A method runs on its caller's
// goroutine: its place and what it has in hand are its own, and before each of
// its round trips others may do anything. Every method is shown to be a run of
// the machine in SessionProtocol, so what holds of all runs holds of it.

module SessionServices {
  import opened Prelude
  import opened Times
  import opened OpaqueToken
  import opened Sessions
  import opened SessionStore
  import opened SessionProtocol
  import opened SessionTheorems
  import D = Dgraph

  /** What precedes one round trip and how it goes: steps of others, the fate of
      the request, and what the entropy source would deliver. */
  datatype Turn = Turn(between: seq<Event>, fault: Fault, draws: Draws)

  predicate Concerns(e: Event, pid: Pid) { !e.Tick? && e.pid == pid }

  ghost predicate Foreign(t: seq<Turn>, pid: Pid) {
    forall i, e :: 0 <= i < |t| && e in t[i].between ==> !Concerns(e, pid)
  }

  /** The machine under a schedule that ends with process `pid`. */
  function Play(s: State, pid: Pid, t: seq<Turn>): State
    decreases |t|
  {
    if t == [] || pid !in s.procs || s.procs[pid].pc.Done? then s
    else Play(Step(Run(s, t[0].between), Act(pid, t[0].fault, t[0].draws)), pid, t[1..])
  }

  /** Whenever the entropy source is read it delivers something new. */
  ghost predicate AlwaysFresh(s: State, pid: Pid, t: seq<Turn>)
    decreases |t|
  {
    t == [] || pid !in s.procs || s.procs[pid].pc.Done? ||
    (FreshDraws(Run(s, t[0].between).w.hist.mints, t[0].draws)
     && AlwaysFresh(Step(Run(s, t[0].between), Act(pid, t[0].fault, t[0].draws)), pid, t[1..]))
  }

  /** The events of a schedule. */
  function Events(s: State, pid: Pid, t: seq<Turn>): seq<Event>
    decreases |t|
  {
    if t == [] || pid !in s.procs || s.procs[pid].pc.Done? then []
    else
      var act := Act(pid, t[0].fault, t[0].draws);
      t[0].between + [act] + Events(Step(Run(s, t[0].between), act), pid, t[1..])
  }

  /** A schedule is a run. */
  lemma {:induction false} PlayIsRun(s: State, pid: Pid, t: seq<Turn>)
    ensures Play(s, pid, t) == Run(s, Events(s, pid, t))
    decreases |t|
  {
    hide Step;
    if t == [] || pid !in s.procs || s.procs[pid].pc.Done? {
    } else {
      var act := Act(pid, t[0].fault, t[0].draws);
      var s1 := Run(s, t[0].between);
      var rest := Events(Step(s1, act), pid, t[1..]);
      PlayIsRun(Step(s1, act), pid, t[1..]);
      assert t[0].between + [act] + rest == t[0].between + ([act] + rest);
      RunSplits(s, t[0].between, [act] + rest);
      assert ([act] + rest)[1..] == rest;
    }
  }

  /** A call made in a reachable state leads to a reachable state. */
  lemma CallIsRun(r: Trace, pid: Pid, op: Op, t: seq<Turn>)
    requires pid !in At(r).procs
    ensures var s := At(r);
      var called := State(s.w, s.procs[pid := Proc(op, Start)]);
      Play(called, pid, t) == At(Then(r, [Begin(pid, op)] + Events(called, pid, t)))
  {
    hide Run;
    var s := At(r);
    var called := State(s.w, s.procs[pid := Proc(op, Start)]);
    var es := Events(called, pid, t);
    PlayIsRun(called, pid, t);
    Continues(r, [Begin(pid, op)] + es);
    RunSplits(s, [Begin(pid, op)], es);
    OneEvent(s, Begin(pid, op));
    hide Events, Play;
  }

  lemma OneEvent(s: State, e: Event)
    ensures Run(s, [e]) == Step(s, e)
  {
    hide Step;
    assert [e][1..] == [];
  }

  /** A process that is not scheduled stays where it is and changes nothing. */
  lemma {:induction false} Bystander(w: World, others: map<Pid, Proc>, pid: Pid, p: Proc, es: seq<Event>)
    requires pid !in others && forall e :: e in es ==> !Concerns(e, pid)
    ensures var a, b := Run(State(w, others), es), Run(State(w, others[pid := p]), es);
      pid !in a.procs && b == State(a.w, a.procs[pid := p])
    decreases |es|
  {
    if es == [] {
    } else {
      assert es[0] in es;
      BystanderStep(w, others, pid, p, es[0]);
      hide Step;
      var a := Step(State(w, others), es[0]);
      Bystander(a.w, a.procs, pid, p, es[1..]);
    }
  }

  lemma BystanderStep(w: World, others: map<Pid, Proc>, pid: Pid, p: Proc, e: Event)
    requires pid !in others && !Concerns(e, pid)
    ensures var a, b := Step(State(w, others), e), Step(State(w, others[pid := p]), e);
      pid !in a.procs && b == State(a.w, a.procs[pid := p])
  {
    hide Next;
    match e
    case Begin(q, op) =>
      assert others[pid := p][q := Proc(op, Start)] == others[q := Proc(op, Start)][pid := p];
    case Tick(_) =>
    case Act(q, f, d) =>
      if q in others {
        var Proc(op, pc) := others[q];
        var next := Proc(op, Next(w, q, op, pc, f, d).1);
        assert others[pid := p][q := next] == others[q := next][pid := p];
      }
  }

  /** One turn: others move, then the process takes the step `Next` says. */
  lemma Unfold(w0: World, others0: map<Pid, Proc>, w1: World, others1: map<Pid, Proc>,
               pid: Pid, op: Op, pc: Pc, t: seq<Turn>)
    requires |t| > 0 && !pc.Done?
    requires Run(State(w0, others0[pid := Proc(op, pc)]), t[0].between) == State(w1, others1[pid := Proc(op, pc)])
    ensures var (w2, next) := Next(w1, pid, op, pc, t[0].fault, t[0].draws);
      var s0, s2 := State(w0, others0[pid := Proc(op, pc)]), State(w2, others1[pid := Proc(op, next)]);
      && Play(s0, pid, t) == Play(s2, pid, t[1..])
      && (AlwaysFresh(s0, pid, t) ==> FreshDraws(w1.hist.mints, t[0].draws) && AlwaysFresh(s2, pid, t[1..]))
  {
    hide Next, Run, FreshDraws;
    var next := Proc(op, Next(w1, pid, op, pc, t[0].fault, t[0].draws).1);
    assert others1[pid := Proc(op, pc)][pid := next] == others1[pid := next];
  }

  lemma SameRotation(w: World, op: Op, pc: Pc, core: Core)
    requires op.RefreshOp? && pc.RotateOpen?
    requires core == Successor(
      pc.prev.core,
      SessionRefreshInput(
        pc.x.id, Hash(pc.mint.access), Hash(pc.mint.refresh), pc.mint.jti, [], [], [], 0,
        pc.at + w.cfg.AccessTTL(), pc.x.core.refreshExpiresAt, op.userAgent, op.ipAddress),
      w.clock)
    ensures core == RotationCore(w, op, pc)
    ensures RotationAborts(w, op, pc) == D.Conflicts(w.db, pc.startTs, QuadsOf(Mutation.Rotate(pc.x.id, w.clock, core)))
  {
    hide Successor, D.Conflicts, QuadsOf;
  }

  class SessionService {
    var w: World
    var others: map<Pid, Proc>   // everybody else's goroutines

    constructor (cfg: Config, clock: int)
      ensures w == Init(cfg, clock).w && others == map[]
    {
      w := Init(cfg, clock).w;
      others := map[];
    }

    ghost function Seen(pid: Pid, op: Op, pc: Pc): State
      reads this
    {
      State(w, others[pid := Proc(op, pc)])
    }

    ghost predicate Ready(pid: Pid, op: Op, pc: Pc, t: seq<Turn>, n: nat)
      reads this
    {
      pid !in others && |t| >= n && Foreign(t, pid) && AlwaysFresh(Seen(pid, op, pc), pid, t)
    }

    /** Others take their steps. */
    method Wait(pid: Pid, ghost op: Op, ghost pc: Pc, t: seq<Turn>)
      requires Ready(pid, op, pc, t, 1) && !pc.Done?
      modifies this
      ensures pid !in others && Foreign(t[1..], pid)
      ensures var (w2, next) := Next(w, pid, op, pc, t[0].fault, t[0].draws);
        var s2 := State(w2, others[pid := Proc(op, next)]);
        && Play(old(Seen(pid, op, pc)), pid, t) == Play(s2, pid, t[1..])
        && FreshDraws(w.hist.mints, t[0].draws) && AlwaysFresh(s2, pid, t[1..])
    {
      hide Play, AlwaysFresh, Run, Next, FreshDraws;
      var s := Run(State(w, others), t[0].between);
      Bystander(w, others, pid, Proc(op, pc), t[0].between);
      w, others := s.w, s.procs;
      Unfold(old(w), old(others), w, others, pid, op, pc, t);
    }

    /** The end of Create: one commit and the read-back of the new session. */
    method Persist(pid: Pid, op: Op, who: Principal, permVersion: int, userAgent: string, ipAddress: string,
                   m: Mint, at: int, origin: Origin, t: seq<Turn>) returns (o: Outcome)
      requires Ready(pid, op, CreateReady(who, permVersion, userAgent, ipAddress, m, at, origin), t, 2)
      modifies this
      ensures pid !in others
      ensures Seen(pid, op, Done(o))
           == Play(old(Seen(pid, op, CreateReady(who, permVersion, userAgent, ipAddress, m, at, origin))), pid, t)
    {
      hide Run, FreshDraws, Apply, CommitCreate, CommitRotate, RotationAborts, Started, Judged, AlwaysFresh;
      ghost var pc := CreateReady(who, permVersion, userAgent, ipAddress, m, at, origin);
      Wait(pid, op, pc, t);
      if t[0].fault == Refused {
        return Failed(None);
      }
      var core := Core(who, permVersion, Hash(m.access), Hash(m.refresh), m.jti,
                       w.clock, at + w.cfg.AccessTTL(), at + w.cfg.RefreshTTL(), userAgent, ipAddress);
      var u := w.db.nextUid;
      w := CommitCreate(w, pid, core, origin, at);
      if t[0].fault != NoFault {
        return Failed(Some(u));
      }
      Wait(pid, op, Created(m, u), t[1..]);
      if t[1].fault != NoFault {
        return Failed(Some(u));
      }
      return Tokens(m, u, GetByID(w.db, u));
    }

    method Create(pid: Pid, who: Principal, permVersion: int, userAgent: string, ipAddress: string, t: seq<Turn>)
      returns (o: Outcome)
      requires Ready(pid, OpenOp(who, permVersion, userAgent, ipAddress), Start, t, 3)
      modifies this
      ensures pid !in others
      ensures Seen(pid, OpenOp(who, permVersion, userAgent, ipAddress), Done(o))
           == Play(old(Seen(pid, OpenOp(who, permVersion, userAgent, ipAddress), Start)), pid, t)
    {
      hide Run, FreshDraws, Apply, CommitCreate, CommitRotate, RotationAborts, Started, Judged, AlwaysFresh, MintOf;
      ghost var op := OpenOp(who, permVersion, userAgent, ipAddress);
      Wait(pid, op, Start, t);
      if t[0].fault != NoFault {
        return Failed(None);
      }
      var m, now := MintOf(t[0].draws), w.clock;
      w := Draw(w, pid, t[0].draws);
      o := Persist(pid, OpenOp(who, permVersion, userAgent, ipAddress), who, permVersion, userAgent, ipAddress,
                   m, now, Login, t[1..]);
    }

    /** lookupAndCheck: on success the answer is given at once, and the touch is
        left to a goroutine of its own. */
    method VerifyToken(pid: Pid, raw: string, t: seq<Turn>) returns (o: Outcome)
      requires Ready(pid, VerifyOp(raw), Start, t, 2) && |t| == 2
      modifies this
      ensures o.Verified? ==> pid in others && others[pid].pc.TouchReady? && o.principal == others[pid].pc.x.core.who
      ensures !o.Verified? ==> pid in others && others[pid].pc == Done(o)
      ensures State(w, others) == Play(old(Seen(pid, VerifyOp(raw), Start)), pid, t)
    {
      hide Run, FreshDraws, Apply, Lookup, CommitCreate, CommitRotate, RotationAborts, AlwaysFresh;
      ghost var op := VerifyOp(raw);
      Wait(pid, op, Start, t);
      var found := Lookup(w, raw);
      if t[0].fault != NoFault {
        o := Failed(None);
        others := others[pid := Proc(VerifyOp(raw), Done(o))];
        return;
      }
      if found.None? {
        o := NotFound;
        others := others[pid := Proc(VerifyOp(raw), Done(o))];
        return;
      }
      var sess := found.value;
      Wait(pid, op, Looked(sess), t[1..]);
      if !sess.IsValid(w.clock) {
        o := if sess.status.revoked then SessionRevoked else AccessExpired;
        others := others[pid := Proc(VerifyOp(raw), Done(o))];
        return;
      }
      others := others[pid := Proc(VerifyOp(raw), TouchReady(sess))];
      return Verified(sess.core.who);
    }

    /** RevokeAllForUser: list in one transaction, write in another. */
    method RevokeAll(pid: Pid, op: Op, userId: string, t: seq<Turn>) returns (o: Outcome)
      requires Ready(pid, op, SweepReady(userId), t, 2)
      modifies this
      ensures pid !in others
      ensures Seen(pid, op, Done(o)) == Play(old(Seen(pid, op, SweepReady(userId))), pid, t)
    {
      hide Run, FreshDraws, Apply, Query, CommitCreate, CommitRotate, RotationAborts, Started, Judged, AlwaysFresh;
      Wait(pid, op, SweepReady(userId), t);
      var sessions := Query(w.db, LiveOf(userId));
      if t[0].fault != NoFault {
        return SweepFailed(op, userId, None);
      }
      var listTs := w.db.ts;
      if sessions == [] {
        return SweptOutcome(op, userId, listTs);
      }
      Wait(pid, op, Sweeping(userId, sessions, listTs), t[1..]);
      if t[1].fault == Refused {
        return SweepFailed(op, userId, None);
      }
      w := Store(w, Mutation.Revoke(sessions, w.clock));
      return if t[1].fault == NoFault then SweptOutcome(op, userId, listTs) else SweepFailed(op, userId, Some(listTs));
    }

    method LogoutAll(pid: Pid, userId: string, t: seq<Turn>) returns (o: Outcome)
      requires Ready(pid, LogoutAllOp(userId), Start, t, 3)
      modifies this
      ensures pid !in others
      ensures Seen(pid, LogoutAllOp(userId), Done(o)) == Play(old(Seen(pid, LogoutAllOp(userId), Start)), pid, t)
    {
      hide Run, FreshDraws, Apply, Query, CommitCreate, CommitRotate, RotationAborts, Judged, AlwaysFresh;
      Wait(pid, LogoutAllOp(userId), Start, t);
      o := RevokeAll(pid, LogoutAllOp(userId), userId, t[1..]);
    }

    /** Rotate, or on a replay revoke whatever the user has. */
    method Refresh(pid: Pid, raw: string, userAgent: string, ipAddress: string, t: seq<Turn>) returns (o: Outcome)
      requires Ready(pid, RefreshOp(raw, userAgent, ipAddress), Start, t, 7)
      modifies this
      ensures pid !in others
      ensures Seen(pid, RefreshOp(raw, userAgent, ipAddress), Done(o))
           == Play(old(Seen(pid, RefreshOp(raw, userAgent, ipAddress), Start)), pid, t)
    {
      hide Run, FreshDraws, Apply, LookupRefresh, CommitCreate, CommitRotate, RotationAborts, AlwaysFresh, MintOf;
      hide GetByID;
      var op := RefreshOp(raw, userAgent, ipAddress);
      Wait(pid, op, Start, t);
      var found := LookupRefresh(w, raw);
      if t[0].fault != NoFault {
        return Failed(None);
      }
      if found.None? {
        return NotFound;
      }
      var sess := found.value;
      if sess.status.revoked {
        o := RevokeAll(pid, op, sess.core.who.userId, t[1..]);
        return;
      }
      Wait(pid, op, Looked(sess), t[1..]);
      if sess.IsRefreshExpired(w.clock) {
        return RefreshExpired;
      }
      var checkedAt := w.clock;
      Wait(pid, op, Checked(sess, checkedAt), t[2..]);
      if t[2].fault != NoFault {
        return Failed(None);
      }
      var m, now := MintOf(t[2].draws), w.clock;
      w := Draw(w, pid, t[2].draws);
      o := Rotate(pid, op, sess, m, now, checkedAt, t[3..]);
    }

    /** RotateTokens: read and commit in one transaction, then read back. */
    method Rotate(pid: Pid, op: Op, sess: Session, m: Mint, now: int, checkedAt: int, t: seq<Turn>) returns (o: Outcome)
      requires op.RefreshOp? && Ready(pid, op, RotateReady(sess, m, now, checkedAt), t, 4)
      modifies this
      ensures pid !in others
      ensures Seen(pid, op, Done(o)) == Play(old(Seen(pid, op, RotateReady(sess, m, now, checkedAt))), pid, t)
    {
      hide Run, FreshDraws, Apply, CommitCreate, CommitRotate, RotationAborts, Started, Judged, AlwaysFresh, GetByID;
      Wait(pid, op, RotateReady(sess, m, now, checkedAt), t);
      var prev := GetByID(w.db, sess.id);
      if t[0].fault != NoFault || prev.None? {
        return Failed(None);
      }
      if prev.value.status.revoked {
        o := RevokeAll(pid, op, sess.core.who.userId, t[1..]);
        return;
      }
      o := CommitRotation(pid, op, sess, m, now, checkedAt, w.db.ts, prev.value, t[1..]);
    }

    /** The writes of RotateTokens, and its commit. */
    method CommitRotation(pid: Pid, op: Op, sess: Session, m: Mint, now: int, checkedAt: int, startTs: nat,
                          prev: Session, t: seq<Turn>) returns (o: Outcome)
      requires op.RefreshOp? && Ready(pid, op, RotateOpen(sess, m, now, checkedAt, startTs, prev), t, 2)
      modifies this
      ensures pid !in others
      ensures Seen(pid, op, Done(o))
           == Play(old(Seen(pid, op, RotateOpen(sess, m, now, checkedAt, startTs, prev))), pid, t)
    {
      hide Run, FreshDraws, Apply, CommitCreate, CommitRotate, RotationAborts, Started, Judged, AlwaysFresh, GetByID;
      Wait(pid, op, RotateOpen(sess, m, now, checkedAt, startTs, prev), t);
      var core := Successor(
        prev.core,
        SessionRefreshInput(
          sess.id, Hash(m.access), Hash(m.refresh), m.jti, [], [], [], 0,
          now + w.cfg.AccessTTL(), sess.core.refreshExpiresAt, op.userAgent, op.ipAddress),
        w.clock);
      SameRotation(w, op, RotateOpen(sess, m, now, checkedAt, startTs, prev), core);
      hide RotationCore, Successor, D.Conflicts, QuadsOf;
      if t[0].fault == Refused || D.Conflicts(w.db, startTs, QuadsOf(Mutation.Rotate(sess.id, w.clock, core))) {
        return Failed(None);
      }
      var u := w.db.nextUid;
      w := CommitRotate(w, pid, sess.id, core, now, now - checkedAt);
      if t[0].fault != NoFault {
        return Failed(Some(u));
      }
      Wait(pid, op, Created(m, u), t[1..]);
      return if t[1].fault == NoFault then Tokens(m, u, GetByID(w.db, u)) else Failed(Some(u));
    }

    method Logout(pid: Pid, raw: string, t: seq<Turn>) returns (o: Outcome)
      requires Ready(pid, LogoutOp(raw), Start, t, 2)
      modifies this
      ensures pid !in others
      ensures Seen(pid, LogoutOp(raw), Done(o)) == Play(old(Seen(pid, LogoutOp(raw), Start)), pid, t)
    {
      hide Run, FreshDraws, Apply, Lookup, CommitCreate, CommitRotate, RotationAborts, Judged, AlwaysFresh;
      Wait(pid, LogoutOp(raw), Start, t);
      var found := Lookup(w, raw);
      if t[0].fault != NoFault {
        return Failed(None);
      }
      if found.None? {
        return LoggedOut;
      }
      Wait(pid, LogoutOp(raw), RevokeReady(found.value), t[1..]);
      if t[1].fault == Refused {
        return Failed(None);
      }
      w := Store(w, Mutation.Revoke([found.value.id], w.clock));
      return if t[1].fault == NoFault then LoggedOut else Failed(None);
    }

    method RevokeSession(pid: Pid, id: D.Uid, requester: string, t: seq<Turn>) returns (o: Outcome)
      requires Ready(pid, RevokeOp(id, requester), Start, t, 2)
      modifies this
      ensures pid !in others
      ensures Seen(pid, RevokeOp(id, requester), Done(o))
           == Play(old(Seen(pid, RevokeOp(id, requester), Start)), pid, t)
    {
      hide Run, FreshDraws, Apply, GetByID, CommitCreate, CommitRotate, RotationAborts, Judged, AlwaysFresh;
      Wait(pid, RevokeOp(id, requester), Start, t);
      var found := GetByID(w.db, id);
      if t[0].fault != NoFault {
        return Failed(None);
      }
      if found.None? {
        return NotFound;
      }
      if found.value.core.who.userId != requester {
        return NotOwned;
      }
      Wait(pid, RevokeOp(id, requester), RevokeReady(found.value), t[1..]);
      if t[1].fault == Refused {
        return Failed(None);
      }
      w := Store(w, Mutation.Revoke([found.value.id], w.clock));
      return if t[1].fault == NoFault then LoggedOut else Failed(None);
    }

    /** Read, revoke, create: three transactions. */
    method ActivateContext(pid: Pid, raw: string, actorId: string, actorType: string, permissions: set<string>,
                           delegated: set<string>, policyGroups: set<string>, permVersion: int, t: seq<Turn>)
      returns (o: Outcome)
      requires Ready(pid, ActivateOp(raw, actorId, actorType, permissions, delegated, policyGroups, permVersion),
                     Start, t, 6)
      modifies this
      ensures pid !in others
      ensures var op := ActivateOp(raw, actorId, actorType, permissions, delegated, policyGroups, permVersion);
        Seen(pid, op, Done(o)) == Play(old(Seen(pid, op, Start)), pid, t)
    {
      hide Run, FreshDraws, Apply, Lookup, CommitCreate, CommitRotate, RotationAborts, AlwaysFresh, MintOf;
      var op := ActivateOp(raw, actorId, actorType, permissions, delegated, policyGroups, permVersion);
      Wait(pid, op, Start, t);
      var found := Lookup(w, raw);
      if t[0].fault != NoFault {
        return Failed(None);
      }
      if found.None? {
        return NotFound;
      }
      var sess := found.value;
      Wait(pid, op, Looked(sess), t[1..]);
      if !sess.IsValid(w.clock) {
        return NotFound;
      }
      Wait(pid, op, RevokeReady(sess), t[2..]);
      if t[2].fault == Refused {
        return Failed(None);
      }
      w := Store(w, Mutation.Revoke([sess.id], w.clock));
      if t[2].fault != NoFault {
        return Failed(None);
      }
      o := Reopen(pid, op, sess, t[3..]);
    }

    /** Create under the same login and the activated actor. */
    method Reopen(pid: Pid, op: Op, sess: Session, t: seq<Turn>) returns (o: Outcome)
      requires op.ActivateOp? && Ready(pid, op, Renew(sess), t, 3)
      modifies this
      ensures pid !in others
      ensures Seen(pid, op, Done(o)) == Play(old(Seen(pid, op, Renew(sess))), pid, t)
    {
      hide Run, FreshDraws, Apply, CommitCreate, CommitRotate, RotationAborts, Started, Judged, AlwaysFresh, MintOf;
      Wait(pid, op, Renew(sess), t);
      if t[0].fault != NoFault {
        return Failed(None);
      }
      var m, now := MintOf(t[0].draws), w.clock;
      w := Draw(w, pid, t[0].draws);
      var who := Principal(sess.core.who.kind, sess.core.who.userId, op.actorId, op.actorType, sess.core.who.clientId,
                           op.permissions, op.delegated, op.policyGroups);
      o := Persist(pid, op, who, op.permVersion, "", "", m, now, Activated(sess.id), t[1..]);
    }

    /** The purge loop's DeleteExpired. */
    method Purge(pid: Pid, t: seq<Turn>) returns (o: Outcome)
      requires Ready(pid, PurgeOp, Start, t, 2)
      modifies this
      ensures pid !in others
      ensures Seen(pid, PurgeOp, Done(o)) == Play(old(Seen(pid, PurgeOp, Start)), pid, t)
    {
      hide Run, FreshDraws, Apply, Query, CommitCreate, CommitRotate, RotationAborts, Judged, AlwaysFresh, Trunc;
      Wait(pid, PurgeOp, Start, t);
      var threshold := Trunc(w.clock);
      var expired := Query(w.db, ExpiredBy(threshold));
      if t[0].fault != NoFault {
        return Failed(None);
      }
      if expired == [] {
        return Purged(0);
      }
      Wait(pid, PurgeOp, Purging(expired, threshold), t[1..]);
      if t[1].fault == Refused {
        return Failed(None);
      }
      w := Store(w, Mutation.Purge(expired));
      return if t[1].fault == NoFault then Purged(|expired|) else Failed(None);
    }
  }
}
