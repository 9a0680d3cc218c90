// internal/service/session.go over internal/repository/dgraph/session.go, as
// processes that interleave at every database round trip.

module SessionProtocol {
  import opened Prelude
  import opened Times
  import opened OpaqueToken
  import opened Sessions
  import opened SessionStore
  import D = Dgraph

  type Pid = nat

  datatype Config = Config(accessTtl: int, refreshTtl: int) {
    function AccessTTL(): int { if accessTtl == 0 then DEFAULT_ACCESS_TTL else accessTtl }

    function RefreshTTL(): int { if refreshTtl == 0 then DEFAULT_REFRESH_TTL else refreshTtl }
  }

  /** One process' share of the entropy source. */
  datatype Draws = Draws(access: seq<Byte>, refresh: seq<Byte>, jti: seq<Byte>)

  /** The raw values minted from it. */
  datatype Mint = Mint(access: string, refresh: string, jti: string)

  function MintOf(d: Draws): Mint {
    Mint(RawToken(PREFIX_ACCESS, d.access), RawToken(PREFIX_REFRESH, d.refresh), RawToken(PREFIX_JTI, d.jti))
  }

  /** What a client, or the purge loop, asks for. */
  datatype Op =
    | OpenOp(who: Principal, permVersion: int, userAgent: string, ipAddress: string)
    | VerifyOp(raw: string)
    | RefreshOp(raw: string, userAgent: string, ipAddress: string)
    | LogoutOp(raw: string)
    | LogoutAllOp(userId: string)
    | RevokeOp(id: D.Uid, requester: string)
    | ActivateOp(raw: string, actorId: string, actorType: string,
                 permissions: set<string>, delegated: set<string>, policyGroups: set<string>, permVersion: int)
    | PurgeOp

  /** How a session came to be. */
  datatype Origin = Login | Rotated(parent: D.Uid) | Activated(parent: D.Uid)

  datatype Outcome =
    | NotFound | SessionRevoked | AccessExpired | RefreshExpired | NotOwned | LoggedOut
    | Verified(principal: Principal)
    | Replayed(userId: string, swept: Option<nat>)   // snapshot the bulk revocation acted on
    | SweptAll(userId: string, listTs: nat)
    | Tokens(mint: Mint, uid: D.Uid, shown: Option<Session>)
    | Purged(count: nat)
    | Failed(committed: Option<D.Uid>)               // store error; a session created all the same?

  /** Where a process stands between two round trips, and what it has in hand. */
  datatype Pc =
    | Start
    | Looked(x: Session)
    | Checked(x: Session, checkedAt: int)
    | RotateReady(x: Session, mint: Mint, at: int, checkedAt: int)
    | RotateOpen(x: Session, mint: Mint, at: int, checkedAt: int, startTs: nat, prev: Session)
    | CreateReady(who: Principal, permVersion: int, userAgent: string, ipAddress: string,
                  mint: Mint, at: int, origin: Origin)
    | Created(mint: Mint, uid: D.Uid)
    | SweepReady(userId: string)
    | Sweeping(userId: string, uids: seq<D.Uid>, listTs: nat)
    | RevokeReady(x: Session)
    | Renew(x: Session)
    | TouchReady(x: Session)
    | Purging(uids: seq<D.Uid>, threshold: int)
    | Done(outcome: Outcome)

  datatype Proc = Proc(op: Op, pc: Pc)

  /** What is remembered about a session after its node is gone. */
  datatype Birth = Birth(core: Core, origin: Origin, root: D.Uid, bornTs: nat, maker: Pid, mintedAt: int, lag: int)

  /** Records for stating properties; the program keeps none of them. `succ` is
      the rotation successor, `tails` the newest session of each family. */
  datatype History = History(
    births: map<D.Uid, Birth>, succ: map<D.Uid, D.Uid>, tails: map<D.Uid, D.Uid>, mints: map<Pid, Draws>)

  datatype World = World(cfg: Config, clock: int, db: D.Db, hist: History)

  datatype State = State(w: World, procs: map<Pid, Proc>)

  datatype Event =
    | Begin(pid: Pid, op: Op)
    | Tick(elapsed: nat)
    | Act(pid: Pid, fault: Fault, draws: Draws)

  function Init(cfg: Config, clock: int): State {
    State(World(cfg, clock, D.EMPTY, History(map[], map[], map[], map[])), map[])
  }

  /** The entropy source fills each buffer to its length and never repeats itself. */
  predicate FreshDraws(mints: map<Pid, Draws>, d: Draws) {
    && |d.access| == TOKEN_BYTES && |d.refresh| == TOKEN_BYTES && |d.jti| == JTI_BYTES
    && forall p :: p in mints ==>
         mints[p].access != d.access && mints[p].refresh != d.refresh && mints[p].jti != d.jti
  }

  function Store(w: World, m: Mutation): World { w.(db := Apply(w.db, m)) }

  function Draw(w: World, pid: Pid, d: Draws): World { w.(hist := w.hist.(mints := w.hist.mints[pid := d])) }

  // --- Lookups and checks --------------------------------------------------------

  function Lookup(w: World, raw: string): Option<Session> { QueryOne(w.db, ByAccessHash(Hash(raw))) }

  function LookupRefresh(w: World, raw: string): Option<Session> { QueryOne(w.db, ByRefreshHash(Hash(raw))) }

  function Answered(f: Fault, pc: Pc): Pc {
    if f == NoFault then pc else Done(Failed(None))
  }

  function Resolved(found: Option<Session>): Pc {
    if found.None? then Done(NotFound) else Looked(found.value)
  }

  /** The first round trip of each operation; opening a session has none. */
  function Started(w: World, op: Op, f: Fault): Pc {
    match op
    case OpenOp(_, _, _, _) => Start
    case VerifyOp(raw) => Answered(f, Resolved(Lookup(w, raw)))
    case ActivateOp(raw, _, _, _, _, _, _) => Answered(f, Resolved(Lookup(w, raw)))
    case RefreshOp(raw, _, _) =>
      var found := LookupRefresh(w, raw);
      Answered(f, if found.Some? && found.value.status.revoked then SweepReady(found.value.core.who.userId)
                  else Resolved(found))
    case LogoutOp(raw) =>
      var found := Lookup(w, raw);
      Answered(f, if found.None? then Done(LoggedOut) else RevokeReady(found.value))
    case LogoutAllOp(user) => SweepReady(user)
    case RevokeOp(id, requester) =>
      var found := GetByID(w.db, id);
      Answered(f, if found.None? then Done(NotFound)
                  else if found.value.core.who.userId != requester then Done(NotOwned)
                  else RevokeReady(found.value))
    case PurgeOp =>
      var found := Query(w.db, ExpiredBy(Trunc(w.clock)));
      Answered(f, if found == [] then Done(Purged(0)) else Purging(found, Trunc(w.clock)))
  }

  /** The checks on a session that was looked up; each reads the clock. */
  function Judged(w: World, op: Op, x: Session): Pc {
    match op
    case VerifyOp(_) =>
      if x.IsValid(w.clock) then TouchReady(x)
      else if x.status.revoked then Done(SessionRevoked)
      else Done(AccessExpired)
    case ActivateOp(_, _, _, _, _, _, _) =>
      if x.IsValid(w.clock) then RevokeReady(x) else Done(NotFound)
    case RefreshOp(_, _, _) =>
      if x.IsRefreshExpired(w.clock) then Done(RefreshExpired) else Checked(x, w.clock)
    case _ => Looked(x)
  }

  // --- Opening a session -----------------------------------------------------------

  function OpenCore(w: World, pc: Pc): Core
    requires pc.CreateReady?
  {
    Core(pc.who, pc.permVersion, Hash(pc.mint.access), Hash(pc.mint.refresh), pc.mint.jti,
         w.clock, pc.at + w.cfg.AccessTTL(), pc.at + w.cfg.RefreshTTL(), pc.userAgent, pc.ipAddress)
  }

  /** A new family of one. */
  function CommitCreate(w: World, pid: Pid, core: Core, origin: Origin, at: int): World {
    var u := w.db.nextUid;
    Store(w, Create(core)).(hist := w.hist.(
      births := w.hist.births[u := Birth(Stored(core), origin, u, w.db.ts + 1, pid, at, 0)],
      tails := w.hist.tails[u := u]))
  }

  /** A context activation keeps who is logged in and replaces the actor. */
  function Reactor(x: Session, op: Op): Principal
    requires op.ActivateOp?
  {
    Principal(x.core.who.kind, x.core.who.userId, op.actorId, op.actorType, x.core.who.clientId,
              op.permissions, op.delegated, op.policyGroups)
  }

  // --- Rotation --------------------------------------------------------------------

  function RotationCore(w: World, op: Op, pc: Pc): Core
    requires op.RefreshOp? && pc.RotateOpen?
  {
    Successor(
      pc.prev.core,
      SessionRefreshInput(
        pc.x.id, Hash(pc.mint.access), Hash(pc.mint.refresh), pc.mint.jti, [], [], [], 0,
        pc.at + w.cfg.AccessTTL(), pc.x.core.refreshExpiresAt, op.userAgent, op.ipAddress),
      w.clock)
  }

  /** The next member of the family of `prev`. */
  function CommitRotate(w: World, pid: Pid, prev: D.Uid, core: Core, at: int, lag: int): World {
    var u := w.db.nextUid;
    var root := if prev in w.hist.births then w.hist.births[prev].root else prev;
    Store(w, Rotate(prev, w.clock, core)).(hist := w.hist.(
      births := w.hist.births[u := Birth(Stored(core), Rotated(prev), root, w.db.ts + 1, pid, at, lag)],
      succ := w.hist.succ[prev := u],
      tails := w.hist.tails[root := u]))
  }

  predicate RotationAborts(w: World, op: Op, pc: Pc)
    requires op.RefreshOp? && pc.RotateOpen?
  {
    D.Conflicts(w.db, pc.startTs, QuadsOf(Rotate(pc.x.id, w.clock, RotationCore(w, op, pc))))
  }

  // --- The steps of one process ------------------------------------------------------

  function SweptOutcome(op: Op, user: string, listTs: nat): Outcome {
    if op.LogoutAllOp? then SweptAll(user, listTs) else Replayed(user, Some(listTs))
  }

  /** After a replay the result of the bulk revocation is ignored. */
  function SweepFailed(op: Op, user: string, swept: Option<nat>): Outcome {
    if op.LogoutAllOp? then Failed(None) else Replayed(user, swept)
  }

  /** One step: the world and the place it leaves the process at. A step that
      is not enabled changes neither. */
  function Next(w: World, pid: Pid, op: Op, pc: Pc, f: Fault, d: Draws): (World, Pc) {
    match pc
    case Start =>
      if op.OpenOp? then
        if f != NoFault then (w, Done(Failed(None)))
        else if !FreshDraws(w.hist.mints, d) then (w, pc)
        else
          (Draw(w, pid, d),
           CreateReady(op.who, op.permVersion, op.userAgent, op.ipAddress, MintOf(d), w.clock, Login))
      else (w, Started(w, op, f))
    case Looked(x) => (w, Judged(w, op, x))
    case Checked(x, checkedAt) =>
      if f != NoFault then (w, Done(Failed(None)))
      else if !FreshDraws(w.hist.mints, d) then (w, pc)
      else (Draw(w, pid, d), RotateReady(x, MintOf(d), w.clock, checkedAt))
    case RotateReady(x, m, at, checkedAt) =>
      var prev := GetByID(w.db, x.id);
      if f != NoFault || prev.None? then (w, Done(Failed(None)))
      else if prev.value.status.revoked then (w, SweepReady(x.core.who.userId))
      else (w, RotateOpen(x, m, at, checkedAt, w.db.ts, prev.value))
    case RotateOpen(x, m, at, checkedAt, _, _) =>
      if !op.RefreshOp? then (w, pc)
      else if f == Refused || RotationAborts(w, op, pc) then (w, Done(Failed(None)))
      else
        (CommitRotate(w, pid, x.id, RotationCore(w, op, pc), at, at - checkedAt),
         if f == NoFault then Created(m, w.db.nextUid) else Done(Failed(Some(w.db.nextUid))))
    case CreateReady(_, _, _, _, m, at, origin) =>
      if f == Refused then (w, Done(Failed(None)))
      else
        (CommitCreate(w, pid, OpenCore(w, pc), origin, at),
         if f == NoFault then Created(m, w.db.nextUid) else Done(Failed(Some(w.db.nextUid))))
    case Created(m, u) =>
      (w, if f == NoFault then Done(Tokens(m, u, GetByID(w.db, u))) else Done(Failed(Some(u))))
    case SweepReady(user) =>
      var found := Query(w.db, LiveOf(user));
      if f != NoFault then (w, Done(SweepFailed(op, user, None)))
      else if found == [] then (w, Done(SweptOutcome(op, user, w.db.ts)))
      else (w, Sweeping(user, found, w.db.ts))
    case Sweeping(user, uids, listTs) =>
      if f == Refused then (w, Done(SweepFailed(op, user, None)))
      else
        (Store(w, Revoke(uids, w.clock)),
         Done(if f == NoFault then SweptOutcome(op, user, listTs) else SweepFailed(op, user, Some(listTs))))
    case RevokeReady(x) =>
      if f == Refused then (w, Done(Failed(None)))
      else
        (Store(w, Revoke([x.id], w.clock)),
         if f == ReplyLost then Done(Failed(None)) else if op.ActivateOp? then Renew(x) else Done(LoggedOut))
    case Renew(x) =>
      if !op.ActivateOp? then (w, pc)
      else if f != NoFault then (w, Done(Failed(None)))
      else if !FreshDraws(w.hist.mints, d) then (w, pc)
      else (Draw(w, pid, d), CreateReady(Reactor(x, op), op.permVersion, "", "", MintOf(d), w.clock, Activated(x.id)))
    case TouchReady(x) =>
      (if f == Refused then w else Store(w, Touch(x.id, w.clock)), Done(Verified(x.core.who)))
    case Purging(uids, _) =>
      if f == Refused then (w, Done(Failed(None)))
      else (Store(w, Purge(uids)), Done(if f == NoFault then Purged(|uids|) else Failed(None)))
    case Done(_) => (w, pc)
  }

  // --- The machine -------------------------------------------------------------------

  function Step(s: State, e: Event): State {
    match e
    case Begin(pid, op) => if pid in s.procs then s else s.(procs := s.procs[pid := Proc(op, Start)])
    case Tick(d) => s.(w := s.w.(clock := s.w.clock + d))
    case Act(pid, f, d) =>
      if pid !in s.procs then s
      else
        var Proc(op, pc) := s.procs[pid];
        var (w, next) := Next(s.w, pid, op, pc, f, d);
        State(w, s.procs[pid := Proc(op, next)])
  }

  function Run(s: State, es: seq<Event>): State
    decreases |es|
  {
    if es == [] then s else Run(Step(s, es[0]), es[1..])
  }

  // --- What can be asked of a world ----------------------------------------------------

  function Node(w: World, u: D.Uid): D.Fields { D.NodeAt(w.db, u) }

  predicate LiveAt(w: World, u: D.Uid) { Live(Node(w, u)) }

  predicate Visible(w: World, u: D.Uid) { Typed(Node(w, u)) }

  /** Verifying `raw` now, in one step, would succeed. */
  predicate Accepts(w: World, raw: string) {
    var found := Lookup(w, raw);
    found.Some? && found.value.IsValid(w.clock)
  }
}
