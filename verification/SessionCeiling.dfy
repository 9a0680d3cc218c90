// MaxSessionLifetime (internal/token/opaque.go), a ceiling no code consults:
// when the lifetime settings keep sessions under it all the same.

module SessionCeiling {
  import opened Prelude
  import opened Times
  import opened OpaqueToken
  import opened Sessions
  import opened SessionStore
  import opened SessionProtocol
  import opened SessionInvariants
  import opened SessionSteps
  import opened SessionTheorems
  import opened SessionSafety
  import opened SessionMeaning
  import opened SessionOutcomes
  import opened SessionRuns
  import opened SessionGaps
  import D = Dgraph

  // --- Minting never runs ahead of the clock -------------------------------------------

  /** A rotation passed its check no earlier than its family was opened. */
  ghost predicate BirthTimes(births: Births, clock: int) {
    forall u :: u in births ==>
      && births[u].mintedAt <= clock
      && (births[u].root in births ==> births[births[u].root].mintedAt <= births[u].mintedAt - births[u].lag)
  }

  /** `t` is not before the family of `x` was opened. */
  ghost predicate AfterRoot(births: Births, x: Session, t: int) {
    x.id in births && births[x.id].root in births ==> births[births[x.id].root].mintedAt <= t
  }

  ghost predicate PcTimes(w: World, pc: Pc) {
    match pc
    case Checked(x, c) => AfterRoot(w.hist.births, x, c)
    case RotateReady(x, _, at, c) => at <= w.clock && AfterRoot(w.hist.births, x, c)
    case RotateOpen(x, _, at, c, _, _) => at <= w.clock && AfterRoot(w.hist.births, x, c)
    case CreateReady(_, _, _, _, _, at, _) => at <= w.clock
    case _ => true
  }

  ghost predicate TimesOk(s: State) {
    BirthTimes(s.w.hist.births, s.w.clock) && forall p :: p in s.procs ==> PcTimes(s.w, s.procs[p].pc)
  }

  lemma TimesLater(w: World, t: World, op: Op, pid: Pid, pc: Pc)
    requires WorldOk(w) && ProcOk(w, pid, op, pc) && Later(w, t) && PcTimes(w, pc)
    ensures PcTimes(t, pc)
  {
    hide NodesOk, MintsOk, PastOk, D.WellFormed, D.Extends, LiveAt, Visible, OriginOk, TailOk, HasMint, Unborn;
    if pc.Checked? || pc.RotateReady? || pc.RotateOpen? {
      assert RootOk(w.hist.births, pc.x.id);
    }
  }

  lemma GrowTimes(births: Births, clock: int, v: D.Uid, b: Birth)
    requires BirthTimes(births, clock) && v !in births && b.mintedAt <= clock
    requires forall u :: u in births ==> births[u].root in births
    requires if b.root == v then b.lag == 0 else b.root in births && births[b.root].mintedAt <= b.mintedAt - b.lag
    ensures BirthTimes(births[v := b], clock)
  {
  }

  lemma RootsIn(w: World)
    requires WorldOk(w)
    ensures w.db.nextUid !in w.hist.births
    ensures forall v :: v in w.hist.births ==> w.hist.births[v].root in w.hist.births
  {
    hide NodesOk, MintsOk, D.WellFormed, OriginOk, TailOk;
    forall v | v in w.hist.births ensures w.hist.births[v].root in w.hist.births {
      assert RootOk(w.hist.births, v);
    }
  }

  lemma RotateTimes(w: World, pid: Pid, op: Op, pc: Pc)
    requires WorldOk(w) && BirthTimes(w.hist.births, w.clock) && PcTimes(w, pc)
    requires ProcOk(w, pid, op, pc) && op.RefreshOp? && pc.RotateOpen?
    ensures var t := CommitRotate(w, pid, pc.x.id, RotationCore(w, op, pc), pc.at, pc.at - pc.checkedAt);
      BirthTimes(t.hist.births, t.clock)
  {
    hide WorldOk, Apply, RotationCore, BirthTimes, HasMint, Unborn, LiveAt;
    RootsIn(w);
    var b := Birth(Stored(RotationCore(w, op, pc)), Rotated(pc.x.id), w.hist.births[pc.x.id].root, w.db.ts + 1, pid,
                   pc.at, pc.at - pc.checkedAt);
    hide Stored;
    GrowTimes(w.hist.births, w.clock, w.db.nextUid, b);
  }

  lemma CreateTimes(w: World, pid: Pid, pc: Pc)
    requires WorldOk(w) && BirthTimes(w.hist.births, w.clock) && PcTimes(w, pc) && pc.CreateReady?
    ensures var t := CommitCreate(w, pid, OpenCore(w, pc), pc.origin, pc.at);
      BirthTimes(t.hist.births, t.clock)
  {
    hide WorldOk, Apply, OpenCore, BirthTimes;
    RootsIn(w);
    var b := Birth(Stored(OpenCore(w, pc)), pc.origin, w.db.nextUid, w.db.ts + 1, pid, pc.at, 0);
    hide Stored;
    GrowTimes(w.hist.births, w.clock, w.db.nextUid, b);
  }

  lemma CheckTimes(w: World, x: Session)
    requires WorldOk(w) && BirthTimes(w.hist.births, w.clock) && Observed(w, x)
    ensures AfterRoot(w.hist.births, x, w.clock)
  {
    hide NodesOk, MintsOk, PastOk, D.WellFormed, TailOk, RootOk;
    assert OriginOk(w.cfg, w.hist.births, w.hist.succ, x.id);
  }

  lemma NextTimes(w: World, pid: Pid, op: Op, pc: Pc, f: Fault, d: Draws)
    requires WorldOk(w) && ProcOk(w, pid, op, pc) && BirthTimes(w.hist.births, w.clock) && PcTimes(w, pc)
    ensures var t := Next(w, pid, op, pc, f, d); BirthTimes(t.0.hist.births, t.0.clock) && PcTimes(t.0, t.1)
  {
    hide WorldOk, BirthTimes, Apply, Started, CommitCreate, CommitRotate, RotationAborts, FreshDraws, MintOf, Query,
         GetByID, LiveAt, HasMint, Unborn, OpenCore, RotationCore;
    match pc
    case Start => StartTimes(w, op, f);
    case Looked(x) => CheckTimes(w, x);
    case RotateOpen(_, _, _, _, _, _) =>
      if op.RefreshOp? {
        RotateTimes(w, pid, op, pc);
        RotateFrame(w, pid, pc.x.id, RotationCore(w, op, pc), pc.at, pc.at - pc.checkedAt);
      }
    case CreateReady(_, _, _, _, _, _, _) => CreateTimes(w, pid, pc);
    case _ =>
  }

  lemma RotateFrame(w: World, pid: Pid, p: D.Uid, core: Core, at: int, lag: int)
    ensures CommitRotate(w, pid, p, core, at, lag).clock == w.clock
  {
    hide Apply;
  }

  lemma StartTimes(w: World, op: Op, f: Fault)
    ensures PcTimes(w, Started(w, op, f))
  {
    hide Lookup, LookupRefresh, GetByID, Query, AfterRoot;
  }

  lemma StepTimes(s: State, e: Event)
    requires Inv(s) && TimesOk(s)
    ensures TimesOk(Step(s, e))
  {
    hide WorldOk, ProcOk, PcTimes, Next, Later, BirthTimes;
    StepKeeps(s, e);
    match e
    case Begin(_, _) => StartPc(s.w);
    case Tick(d) =>
      TickTimes(s.w.hist.births, s.w.clock, d);
      forall p | p in s.procs ensures PcTimes(Step(s, e).w, s.procs[p].pc) {
        TimesLater(s.w, Step(s, e).w, s.procs[p].op, p, s.procs[p].pc);
      }
    case Act(q, f, d) =>
      if q in s.procs {
        NextTimes(s.w, q, s.procs[q].op, s.procs[q].pc, f, d);
        forall p | p in s.procs && p != q ensures PcTimes(Step(s, e).w, s.procs[p].pc) {
          TimesLater(s.w, Step(s, e).w, s.procs[p].op, p, s.procs[p].pc);
        }
      }
  }

  lemma StartPc(w: World)
    ensures PcTimes(w, Start)
  {
  }

  lemma TickTimes(births: Births, clock: int, d: nat)
    requires BirthTimes(births, clock)
    ensures BirthTimes(births, clock + d)
  {
  }

  lemma {:induction false} RunTimes(s: State, es: seq<Event>)
    requires Inv(s) && TimesOk(s)
    ensures TimesOk(Run(s, es))
    decreases |es|
  {
    hide Inv, Step, TimesOk, After;
    if es != [] {
      StepKeeps(s, es[0]);
      StepTimes(s, es[0]);
      RunTimes(Step(s, es[0]), es[1..]);
    }
  }

  /** Every session was minted in the past, and every rotation checked after its family was opened. */
  lemma Timely(r: Trace)
    ensures BirthTimes(At(r).w.hist.births, At(r).w.clock)
  {
    hide Run, WorldOk, ProcOk, BirthTimes;
    InitOk(r.cfg, r.start);
    NoBirths();
    RunTimes(Init(r.cfg, r.start), r.events);
  }

  lemma NoBirths()
    ensures forall clock :: BirthTimes(map[], clock)
  {
  }

  // --- Arithmetic of whole seconds ---------------------------------------------------------

  lemma TruncWhole(t: int)
    ensures Trunc(t) % SECOND == 0 && Trunc(t) == t / SECOND * SECOND
  {
    TruncIdempotent(t);
  }

  lemma WholeSeconds(a: int, x: int)
    requires a % SECOND == 0
    ensures Trunc(a + x) == a + Trunc(x)
  {
    assert a == a / SECOND * SECOND;
    assert (a + x) % SECOND == x % SECOND;
  }

  lemma TruncMonotone(x: int, y: int)
    requires x <= y
    ensures Trunc(x) <= Trunc(y)
  {
  }

  /** A start within the first second after which `k` later is on the second. */
  function Aligned(k: int): (s: nat)
    ensures s < SECOND && (s + k) % SECOND == 0
  {
    var s := (SECOND - k % SECOND) % SECOND;
    assert (s + k) % SECOND == 0 by {
      assert k == k / SECOND * SECOND + k % SECOND;
    }
    s
  }

  /** The pause, at most `pause`, that lets a token minted on the second live longest. */
  function BestPause(pause: nat, ttl: int): (lag: nat)
    requires ttl > 0
    ensures lag <= pause && lag <= Trunc(lag + ttl) == Trunc(pause + ttl)
  {
    if Trunc(pause + ttl) >= pause then pause
    else
      TruncWhole(pause);
      WholeSeconds(Trunc(pause), ttl);
      Trunc(pause)
  }

  // --- Families ----------------------------------------------------------------------------

  /** If a token of session `u` is accepted, its family was opened at most `MaxSessionLifetime` ago. */
  ghost predicate UnderCeiling(r: Trace, u: D.Uid, raw: string) {
    var w := At(r).w;
    (u in w.hist.births && w.hist.births[u].core.accessHash == Hash(raw) && w.hist.births[u].root in w.hist.births
     && Accepts(w, raw)) ==>
      w.clock <= w.hist.births[w.hist.births[u].root].mintedAt + MAX_SESSION_LIFETIME
  }

  /** No refresh paused longer than this between its expiry check and its minting. */
  ghost predicate PausesUpTo(r: Trace, pause: nat) {
    forall u :: u in At(r).w.hist.births ==> At(r).w.hist.births[u].lag <= pause
  }

  predicate KeepsCeiling(cfg: Config, pause: nat) {
    || cfg.AccessTTL() < 0
    || (&& cfg.AccessTTL() <= MAX_SESSION_LIFETIME
        && (cfg.RefreshTTL() < 0 || cfg.RefreshTTL() + Trunc(pause + cfg.AccessTTL()) <= MAX_SESSION_LIFETIME))
  }

  /** No token of any family is accepted past `MaxSessionLifetime`, in any run whose
      refreshes pause at most `pause`, if and only if no access token outlives its
      minting or the two lifetimes, and the pause, add up to no more than that. */
  lemma CeilingIff(cfg: Config, pause: nat)
    ensures (forall r: Trace, u, raw ::
               r.cfg == cfg && r.start >= 0 && PausesUpTo(r, pause) ==> UnderCeiling(r, u, raw))
       <==> KeepsCeiling(cfg, pause)
  {
    hide Run, PausesUpTo, UnderCeiling, KeepsCeiling;
    if KeepsCeiling(cfg, pause) {
      forall r: Trace, u, raw | r.cfg == cfg && PausesUpTo(r, pause) ensures UnderCeiling(r, u, raw) {
        CeilingHolds(r, u, raw, pause);
      }
    } else {
      var r, u, raw := CeilingBreaks(cfg, pause);
      assert !UnderCeiling(r, u, raw);
    }
  }

  lemma FamilyTimes(r: Trace, u: D.Uid)
    requires u in At(r).w.hist.births
    ensures var births := At(r).w.hist.births;
      var b := births[u];
      && b.root in births && b.lag >= 0 && b.mintedAt <= At(r).w.clock
      && births[b.root].mintedAt <= b.mintedAt - b.lag
      && b.core.expiresAt == Trunc(b.mintedAt + r.cfg.AccessTTL())
      && (b.root != u ==> b.mintedAt - b.lag <= Trunc(births[b.root].mintedAt + r.cfg.RefreshTTL()))
  {
    hide Run, ProcOk, D.WellFormed, Trunc, NodesOk, MintsOk, PastOk, TailOk, RootOk;
    Reached(r);
    Timely(r);
    AtBirth(r, u);
    DeadlineConserved(r, u);
    assert OriginOk(At(r).w.cfg, At(r).w.hist.births, At(r).w.hist.succ, u);
    hide FamiliesOk;
  }

  lemma CeilingHolds(r: Trace, u: D.Uid, raw: string, pause: nat)
    requires KeepsCeiling(r.cfg, pause) && PausesUpTo(r, pause)
    ensures UnderCeiling(r, u, raw)
  {
    hide Run, WorldOk, ProcOk, Accepts, LiveAt, Trunc;
    var w := At(r).w;
    if u in w.hist.births && w.hist.births[u].core.accessHash == Hash(raw) && Accepts(w, raw) {
      Reached(r);
      AcceptedIff(w, raw, u);
      FamilyTimes(r, u);
      var b := w.hist.births[u];
      Bound(r.cfg, pause, w.hist.births[b.root].mintedAt, b.mintedAt, b.lag, b.root != u, w.clock);
    }
  }

  lemma Bound(cfg: Config, pause: nat, founded: int, minted: int, lag: int, rotated: bool, clock: int)
    requires KeepsCeiling(cfg, pause) && 0 <= lag <= pause && founded <= minted - lag && minted <= clock
    requires clock <= Trunc(minted + cfg.AccessTTL()) && (!rotated ==> minted == founded)
    requires rotated ==> minted - lag <= Trunc(founded + cfg.RefreshTTL())
    ensures clock <= founded + MAX_SESSION_LIFETIME
  {
    if rotated {
      var deadline := Trunc(founded + cfg.RefreshTTL());
      TruncWhole(founded + cfg.RefreshTTL());
      WholeSeconds(deadline, pause + cfg.AccessTTL());
      TruncMonotone(minted + cfg.AccessTTL(), deadline + (pause + cfg.AccessTTL()));
    }
  }

  /** A token accepted too late: of a login that lives too long, or of a refresh on the last moment. */
  lemma CeilingBreaks(cfg: Config, pause: nat) returns (r: Trace, u: D.Uid, raw: string)
    requires !KeepsCeiling(cfg, pause)
    ensures r.cfg == cfg && r.start >= 0 && PausesUpTo(r, pause) && !UnderCeiling(r, u, raw)
  {
    if cfg.AccessTTL() > MAX_SESSION_LIFETIME {
      r, raw := LongLogin(cfg);
      u := 1;
    } else {
      r, raw := LastRefresh(cfg, pause);
      u := 2;
    }
  }

  lemma LongLogin(cfg: Config) returns (r: Trace, raw: string)
    requires cfg.AccessTTL() > MAX_SESSION_LIFETIME
    ensures r.cfg == cfg && r.start >= 0 && PausesUpTo(r, 0) && !UnderCeiling(r, 1, raw)
  {
    hide Run, WorldOk, ProcOk, LiveAt, MintOf, Accepts, Trunc;
    var start := Aligned(cfg.AccessTTL());
    var r0 := Trace(cfg, start, []);
    assert At(r0) == Init(cfg, start) by { StartsEmpty(cfg, start); }
    var r1 := LogIn(r0, 0, ALICE, DrawsOf(1));
    AtBirth(r1, 1);
    r := Pause(r1, cfg.AccessTTL());
    raw := MintOf(DrawsOf(1)).access;
    OnTheSecond(start + cfg.AccessTTL());
    SameLive(At(r1).w, At(r).w);
    Reached(r);
    AcceptedIff(At(r).w, raw, 1);
  }

  lemma OnTheSecond(t: int)
    requires t % SECOND == 0
    ensures Trunc(t) == t
  {
  }

  /** A login, and a refresh whose check falls on the deadline, both on the second. */
  lemma RefreshAtDeadline(cfg: Config, start: nat, lag: nat) returns (r: Trace)
    requires cfg.RefreshTTL() >= 0 && (start + cfg.RefreshTTL()) % SECOND == 0
    ensures r.cfg == cfg && r.start == start
    ensures var w := At(r).w;
      && w.hist.births.Keys == {1, 2} && LiveAt(w, 2) && w.clock == start + cfg.RefreshTTL() + lag
      && w.hist.births[1].mintedAt == start && w.hist.births[1].lag == 0
      && w.hist.births[2].root == 1 && w.hist.births[2].lag == lag
      && w.hist.births[2].core.accessHash == Hash(MintOf(DrawsOf(2)).access)
      && w.hist.births[2].core.expiresAt == Trunc(start + cfg.RefreshTTL() + lag + cfg.AccessTTL())
  {
    hide Run, WorldOk, ProcOk, LiveAt, MintOf, Trunc, Visible, Node;
    var r0 := Trace(cfg, start, []);
    assert At(r0) == Init(cfg, start) by { StartsEmpty(cfg, start); }
    var r1 := LogIn(r0, 0, ALICE, DrawsOf(1));
    DeadlineConserved(r1, 1);
    OnTheSecond(start + cfg.RefreshTTL());
    var r2 := Pause(r1, cfg.RefreshTTL());
    SameLive(At(r1).w, At(r2).w);
    DrawsApart(1, 2);
    r := Refresh(r2, 1, MintOf(DrawsOf(1)).refresh, 1, DrawsOf(2), lag);
    AtBirth(r, 2);
  }

  lemma LastRefresh(cfg: Config, pause: nat) returns (r: Trace, raw: string)
    requires !KeepsCeiling(cfg, pause) && cfg.AccessTTL() <= MAX_SESSION_LIFETIME
    ensures r.cfg == cfg && r.start >= 0 && PausesUpTo(r, pause) && !UnderCeiling(r, 2, raw)
  {
    hide Run, WorldOk, ProcOk, LiveAt, MintOf, Accepts, Trunc, Visible, Node;
    var ttl, life := cfg.AccessTTL(), cfg.RefreshTTL();
    var start, lag := Aligned(life), BestPause(pause, ttl);
    var r3 := RefreshAtDeadline(cfg, start, lag);
    WholeSeconds(start + life, lag + ttl);
    r := Pause(r3, Trunc(lag + ttl) - lag);
    raw := MintOf(DrawsOf(2)).access;
    SameLive(At(r3).w, At(r).w);
    Reached(r);
    AcceptedIff(At(r).w, raw, 2);
  }

  // --- Descent through activations -----------------------------------------------------------

  /** The default lifetimes, fifteen minutes and thirty days, keep the ceiling as
      long as no refresh pauses for sixty days, less those fifteen minutes. */
  lemma DefaultsKeepCeilingIff(pause: nat)
    ensures (forall r: Trace, u, raw ::
               r.cfg == Config(0, 0) && r.start >= 0 && PausesUpTo(r, pause) ==> UnderCeiling(r, u, raw))
       <==> pause < 60 * DAY - 15 * MINUTE + SECOND
  {
    CeilingIff(Config(0, 0), pause);
    hide PausesUpTo, UnderCeiling;
  }

  /** The same for the login a session descends from. */
  ghost predicate LoginUnderCeiling(r: Trace, u: D.Uid, raw: string) {
    var w := At(r).w;
    (u in w.hist.births && w.hist.births[u].core.accessHash == Hash(raw) && LoginOf(w.hist.births, u) in w.hist.births
     && Accepts(w, raw)) ==>
      w.clock <= w.hist.births[LoginOf(w.hist.births, u)].mintedAt + MAX_SESSION_LIFETIME
  }

  /** Context activations defeat the ceiling under every configuration that lets
      any access token be accepted at all. */
  lemma LoginCeilingIff(cfg: Config)
    ensures (forall r: Trace, u, raw :: r.cfg == cfg && r.start >= 0 ==> LoginUnderCeiling(r, u, raw))
       <==> cfg.AccessTTL() < 0
  {
    hide Run, LoginUnderCeiling;
    if cfg.AccessTTL() < 0 {
      forall r: Trace, u, raw | r.cfg == cfg ensures LoginUnderCeiling(r, u, raw) {
        NeverAccepted(r, u, raw);
      }
    } else {
      var r, raw := LateActivation(cfg);
      assert !LoginUnderCeiling(r, 2, raw);
    }
  }

  lemma NeverAccepted(r: Trace, u: D.Uid, raw: string)
    requires r.cfg.AccessTTL() < 0
    ensures LoginUnderCeiling(r, u, raw)
  {
    hide Run, WorldOk, ProcOk, Accepts, LiveAt;
    var w := At(r).w;
    if u in w.hist.births && w.hist.births[u].core.accessHash == Hash(raw) {
      Reached(r);
      AcceptedIff(w, raw, u);
      FamilyTimes(r, u);
    }
  }

  /** One activation whose new tokens are minted past the ceiling. */
  lemma LateActivation(cfg: Config) returns (r: Trace, raw: string)
    requires cfg.AccessTTL() > 0
    ensures r.cfg == cfg && r.start >= 0 && !LoginUnderCeiling(r, 2, raw)
  {
    hide Run, WorldOk, ProcOk, LiveAt, MintOf, Accepts, Trunc, Visible, Node;
    var r1 := FirstLogin(cfg);
    DrawsApart(1, 2);
    var late := MAX_SESSION_LIFETIME + SECOND;
    r := Activate(r1, 1, Asked(MintOf(DrawsOf(1)).access, "a"), 1, DrawsOf(2), late);
    raw := MintOf(DrawsOf(2)).access;
    AtBirth(r, 2);
    OnTheSecond(late);
    TruncMonotone(late, late + cfg.AccessTTL());
    Reached(r);
    AcceptedIff(At(r).w, raw, 2);
    FromLogin(At(r).w.hist.births);
  }

  lemma FromLogin(births: Births)
    requires 1 in births && 2 in births && births[2].origin == Activated(1) && births[1].origin == Login
    ensures LoginOf(births, 2) == 1
  {
  }

  // --- Without any pause -----------------------------------------------------------------------

  /** No activation dawdled: it minted while the token it presented was unexpired. */
  ghost predicate Prompt(births: Births) {
    forall v :: v in births && births[v].origin.Activated? && births[v].origin.parent in births ==>
      births[v].mintedAt <= births[births[v].origin.parent].core.expiresAt
  }

  const MANY := 0x1000000

  /** The n-th draw of a source that counts. */
  function Counted(n: nat): Draws
    requires n < MANY
  {
    var digits: seq<Byte> := [n % 256, n / 256 % 256, n / 65536];
    var token := digits + seq(TOKEN_BYTES - 3, i => 0);
    Draws(token, token, digits + seq(JTI_BYTES - 3, i => 0))
  }

  lemma CountedApart(m: nat, n: nat)
    requires m < MANY && n < MANY && m != n
    ensures Counted(m).access != Counted(n).access && Counted(m).refresh != Counted(n).refresh
    ensures Counted(m).jti != Counted(n).jti
  {
    Digits(m, n);
    var k := if m % 256 != n % 256 then 0 else if m / 256 % 256 != n / 256 % 256 then 1 else 2;
    assert Counted(m).access[k] != Counted(n).access[k];
    assert Counted(m).refresh[k] != Counted(n).refresh[k];
    assert Counted(m).jti[k] != Counted(n).jti[k];
  }

  lemma Digits(m: nat, n: nat)
    requires m != n
    ensures m % 256 != n % 256 || m / 256 % 256 != n / 256 % 256 || m / 65536 != n / 65536
  {
    assert m / 65536 == m / 256 / 256 && n / 65536 == n / 256 / 256;
  }

  ghost predicate Follows(births: Births, i: D.Uid, step: int)
    requires i in births && 1 <= i < MANY
  {
    && births[i].origin == (if i == 1 then Login else Activated(i - 1))
    && births[i].mintedAt == (i - 1) * step
    && births[i].core.accessHash == Hash(MintOf(Counted(i - 1)).access)
  }

  /** After a login and `n` activations, each on the last moment of the token before. */
  ghost predicate Chained(r: Trace, n: nat) { ChainedAt(At(r), Trunc(r.cfg.AccessTTL()), n) }

  ghost predicate ChainedAt(s: State, step: int, n: nat) {
    && n + 1 < MANY && s.w.db.nextUid == n + 2 && s.w.clock == n * step && LiveAt(s.w, n + 1)
    && Between(s.w.hist.births.Keys, 1, n + 1) && Between(s.procs.Keys, 0, n) && Between(s.w.hist.mints.Keys, 0, n)
    && AllCounted(s.w.hist.mints) && AllFollow(s.w.hist.births, step)
  }

  ghost predicate Between(keys: set<nat>, lo: nat, hi: nat) { forall i: nat :: i in keys <==> lo <= i <= hi }

  ghost predicate AllCounted(mints: map<Pid, Draws>) {
    forall i :: i in mints ==> 0 <= i < MANY && mints[i] == Counted(i)
  }

  ghost predicate AllFollow(births: Births, step: int) {
    forall i :: i in births ==> 1 <= i < MANY && Follows(births, i, step)
  }

  lemma FirstLink(cfg: Config) returns (r: Trace)
    ensures r.cfg == cfg && r.start == 0 && Chained(r, 0)
  {
    hide Run, WorldOk, ProcOk, LiveAt, MintOf, Trunc, Counted;
    var r0 := Trace(cfg, 0, []);
    assert At(r0) == Init(cfg, 0) by { StartsEmpty(cfg, 0); }
    CountedFresh(map[], 0);
    r := LogIn(r0, 0, ALICE, Counted(0));
    var s, step := At(r), Trunc(cfg.AccessTTL());
    assert 0 * step == 0;
    assert s.w.db.nextUid == 2 && s.w.clock == 0 && LiveAt(s.w, 1);
    assert forall i :: i in s.w.hist.births <==> i == 1;
    assert forall i :: i in s.procs <==> i == 0;
    assert Follows(s.w.hist.births, 1, step);
  }

  lemma CountedFresh(mints: map<Pid, Draws>, n: nat)
    requires n < MANY && forall i :: i in mints ==> 0 <= i < MANY && i != n && mints[i] == Counted(i)
    ensures FreshDraws(mints, Counted(n))
  {
    assert |Counted(n).access| == TOKEN_BYTES && |Counted(n).refresh| == TOKEN_BYTES && |Counted(n).jti| == JTI_BYTES;
    hide Counted;
    forall i | i in mints
      ensures mints[i].access != Counted(n).access && mints[i].refresh != Counted(n).refresh
      ensures mints[i].jti != Counted(n).jti
    {
      CountedApart(i, n);
    }
  }

  lemma NextLink(r: Trace, n: nat) returns (r2: Trace)
    requires Chained(r, n) && n + 2 < MANY && r.cfg.AccessTTL() >= SECOND && r.start == 0
    ensures r2.cfg == r.cfg && r2.start == 0 && Chained(r2, n + 1)
  {
    hide Run, WorldOk, ProcOk, LiveAt, MintOf, Trunc, Counted;
    var step, u := Trunc(r.cfg.AccessTTL()), n + 1;
    TruncMonotone(SECOND, r.cfg.AccessTTL());
    OnTheSecond(SECOND);
    var r1 := Pause(r, step);
    SameLive(At(r).w, At(r1).w);
    AtBirth(r1, u);
    Multiple(n, r.cfg.AccessTTL());
    CountedFresh(At(r1).w.hist.mints, n + 1);
    assert Follows(At(r).w.hist.births, u, step);
    hide Follows;
    r2 := Activate(r1, n + 1, Asked(MintOf(Counted(n)).access, "a"), u, Counted(n + 1), 0);
    Longer(At(r), At(r1), At(r2), step, n);
  }

  lemma Longer(s: State, s1: State, t: State, step: int, n: nat)
    requires ChainedAt(s, step, n) && n + 2 < MANY
    requires s1 == s.(w := s.w.(clock := s.w.clock + step))
    requires Added(s1, t, n + 1, Counted(n + 1), n + 2) && t.w.clock == s1.w.clock
    requires t.w.hist.births[n + 2].origin == Activated(n + 1)
    requires t.w.hist.births[n + 2].mintedAt == s1.w.clock
    ensures ChainedAt(t, step, n + 1)
  {
    hide LiveAt, MintOf, Counted;
    OneMore(n, step);
    NextFollows(t.w.hist.births, n + 2, step);
    OneKeyMore(s.w.hist.births.Keys, 1, n + 1);
    OneKeyMore(s.procs.Keys, 0, n);
    OneKeyMore(s.w.hist.mints.Keys, 0, n);
    MoreCounted(s.w.hist.mints, n);
    hide Follows, Between, AllCounted;
    AddedKeys(s1, t, n + 1, Counted(n + 1), n + 2);
    hide Added;
    MoreFollow(s.w.hist.births, t.w.hist.births, n, step);
    hide AllFollow;
  }

  lemma AddedKeys(s: State, t: State, q: Pid, d: Draws, v: D.Uid)
    requires Added(s, t, q, d, v)
    ensures t.w.hist.births.Keys == s.w.hist.births.Keys + {v} && t.procs.Keys == s.procs.Keys + {q}
    ensures t.w.hist.mints == s.w.hist.mints[q := d] && t.w.hist.mints.Keys == s.w.hist.mints.Keys + {q}
    ensures forall u :: u in s.w.hist.births ==> t.w.hist.births[u] == s.w.hist.births[u]
    ensures v == s.w.db.nextUid && t.w.db.nextUid == v + 1 && LiveAt(t.w, v)
    ensures t.w.hist.births[v].core.accessHash == Hash(MintOf(d).access)
  {
    hide LiveAt, MintOf;
  }

  lemma NextFollows(births: Births, i: D.Uid, step: int)
    requires i in births && 2 <= i < MANY && births[i].origin == Activated(i - 1)
    requires births[i].mintedAt == (i - 1) * step
    requires births[i].core.accessHash == Hash(MintOf(Counted(i - 1)).access)
    ensures Follows(births, i, step)
  {
  }

  lemma OneKeyMore(keys: set<nat>, lo: nat, hi: nat)
    requires lo <= hi + 1 && Between(keys, lo, hi)
    ensures Between(keys + {hi + 1}, lo, hi + 1)
  {
  }

  lemma MoreCounted(mints: map<Pid, Draws>, n: nat)
    requires n + 1 < MANY && AllCounted(mints)
    ensures AllCounted(mints[n + 1 := Counted(n + 1)])
  {
    hide Counted;
  }

  lemma MoreFollow(a: Births, b: Births, n: nat, step: int)
    requires n + 2 < MANY && Between(a.Keys, 1, n + 1) && b.Keys == a.Keys + {n + 2} && AllFollow(a, step)
    requires (forall i :: i in a ==> b[i] == a[i]) && Follows(b, n + 2, step)
    ensures AllFollow(b, step)
  {
    hide Follows;
    forall i | i in a ensures Follows(b, i, step) {
      SameFollows(a, b, i, step);
    }
  }

  lemma SameFollows(a: Births, b: Births, i: D.Uid, step: int)
    requires i in a && i in b && a[i] == b[i] && 1 <= i < MANY && Follows(a, i, step)
    ensures Follows(b, i, step)
  {
  }

  /** `n` whole numbers of seconds are a whole number of seconds. */
  lemma Multiple(n: nat, ttl: int)
    ensures Trunc(n * Trunc(ttl) + ttl) == n * Trunc(ttl) + Trunc(ttl)
  {
    TruncWhole(ttl);
    assert n * Trunc(ttl) == n * (ttl / SECOND) * SECOND;
    assert (n * (ttl / SECOND) * SECOND) % SECOND == 0;
    hide Trunc;
    WholeSeconds(n * Trunc(ttl), ttl);
  }

  /** As many activations as it takes. */
  lemma Chain(cfg: Config, n: nat) returns (r: Trace)
    requires n + 1 < MANY && cfg.AccessTTL() >= SECOND
    ensures r.cfg == cfg && r.start == 0 && Chained(r, n)
  {
    hide Chained, Run;
    if n == 0 {
      r := FirstLink(cfg);
    } else {
      var before := Chain(cfg, n - 1);
      r := NextLink(before, n - 1);
    }
  }

  lemma {:induction false} ChainLogin(births: Births, step: int, n: nat)
    requires forall i :: i in births <==> 1 <= i <= n + 1
    requires n + 1 < MANY && forall i :: i in births ==> Follows(births, i, step)
    ensures forall i :: i in births ==> LoginOf(births, i) == 1
  {
    forall i | i in births ensures LoginOf(births, i) == 1 {
      DownTo(births, step, n, i);
    }
  }

  lemma {:induction false} DownTo(births: Births, step: int, n: nat, i: D.Uid)
    requires forall k :: k in births <==> 1 <= k <= n + 1
    requires n + 1 < MANY && (forall k :: k in births ==> Follows(births, k, step)) && i in births
    ensures LoginOf(births, i) == 1
  {
    hide MintOf, Counted;
    assert Follows(births, i, step);
    if i > 1 {
      DownTo(births, step, n, i - 1);
    }
  }

  /** Nor does it take a pause: activations that each present an unexpired token
      keep a login alive past the ceiling under every access lifetime of a second or more. */
  lemma ActivationChain(cfg: Config) returns (r: Trace, u: D.Uid, raw: string)
    requires cfg.AccessTTL() >= SECOND
    ensures r.cfg == cfg && r.start >= 0 && Prompt(At(r).w.hist.births) && !LoginUnderCeiling(r, u, raw)
  {
    hide Run, WorldOk, ProcOk, LiveAt, MintOf, Trunc, Counted, Accepts;
    var step := Trunc(cfg.AccessTTL());
    TruncMonotone(SECOND, cfg.AccessTTL());
    OnTheSecond(SECOND);
    var n := MAX_SESSION_LIFETIME / SECOND + 1;
    r := Chain(cfg, n);
    u, raw := n + 1, MintOf(Counted(n)).access;
    hide Chained, LoginUnderCeiling, Prompt;
    ChainPrompt(r, n);
    Long(n, step);
    ChainEnd(r, n);
  }

  lemma ChainEnd(r: Trace, n: nat)
    requires Chained(r, n) && n * Trunc(r.cfg.AccessTTL()) > MAX_SESSION_LIFETIME && r.cfg.AccessTTL() >= SECOND
    ensures !LoginUnderCeiling(r, n + 1, MintOf(Counted(n)).access)
  {
    hide Run, WorldOk, ProcOk, LiveAt, MintOf, Trunc, Counted, Accepts;
    var u, raw, step := n + 1, MintOf(Counted(n)).access, Trunc(r.cfg.AccessTTL());
    var w := At(r).w;
    ChainLogin(w.hist.births, step, n);
    assert Follows(w.hist.births, u, step) && Follows(w.hist.births, 1, step);
    assert 0 * step == 0;
    hide Follows;
    Reached(r);
    AtBirth(r, u);
    TruncMonotone(SECOND, r.cfg.AccessTTL());
    OnTheSecond(SECOND);
    Multiple(n, r.cfg.AccessTTL());
    AcceptedIff(w, raw, u);
  }

  lemma Long(n: nat, step: int)
    requires step >= SECOND && n == MAX_SESSION_LIFETIME / SECOND + 1
    ensures n * step > MAX_SESSION_LIFETIME
  {
    assert n * step >= n * SECOND;
  }

  lemma ChainPrompt(r: Trace, n: nat)
    requires Chained(r, n) && r.cfg.AccessTTL() >= SECOND
    ensures Prompt(At(r).w.hist.births)
  {
    hide Run, LiveAt, MintOf, Trunc, Counted;
    var births := At(r).w.hist.births;
    forall v | v in births && births[v].origin.Activated? && births[v].origin.parent in births
      ensures births[v].mintedAt <= births[births[v].origin.parent].core.expiresAt
    {
      assert Follows(births, v, Trunc(r.cfg.AccessTTL()));
      hide Follows, Chained;
      PromptLink(r, n, v);
    }
  }

  lemma PromptLink(r: Trace, n: nat, v: D.Uid)
    requires Chained(r, n) && r.cfg.AccessTTL() >= SECOND && v in At(r).w.hist.births && v > 1
    ensures v - 1 in At(r).w.hist.births
    ensures At(r).w.hist.births[v].mintedAt <= At(r).w.hist.births[v - 1].core.expiresAt
  {
    hide Run, LiveAt, MintOf, Trunc, Counted;
    var step := Trunc(r.cfg.AccessTTL());
    assert Follows(At(r).w.hist.births, v, step) && Follows(At(r).w.hist.births, v - 1, step);
    hide Follows, Chained;
    AtBirth(r, v - 1);
    Multiple(v - 2, r.cfg.AccessTTL());
    OneMore(v - 2, step);
  }

  lemma OneMore(k: nat, step: int)
    ensures (k + 1) * step == k * step + step
  {
  }
}
