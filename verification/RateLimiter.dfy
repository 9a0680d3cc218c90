// RateLimiter in internal/middleware/middleware.go: one token bucket per client
// address, forgotten after five idle minutes. A request looks its bucket up under
// the lock and asks it later, outside the lock, so it may ask a bucket that the
// table has forgotten since.

module RateLimits {
  import opened Times

  const NANOSECOND := 1
  const IDLE := 5 * MINUTE

  datatype Config = Config(rps: real, burst: int) {
    /** Tokens gained in `d` nanoseconds; a rate that is not positive never refills. */
    function Refill(d: int): real {
      if rps <= 0.0 || d <= 0 then 0.0 else rps * (d as real / SECOND as real)
    }
  }

  // --- The bucket ------------------------------------------------------------------

  datatype Bucket = Bucket(tokens: real, last: int) {
    function Level(c: Config, now: int): real {
      var t := tokens + c.Refill(now - last);
      if t > c.burst as real then c.burst as real else t
    }
  }

  function NewBucket(c: Config, now: int): Bucket { Bucket(c.burst as real, now) }

  /** One token, if there is one; a denied request leaves the bucket as it is. */
  function Take(c: Config, b: Bucket, now: int): (Bucket, bool) {
    var t := b.Level(c, now);
    if c.burst >= 1 && t >= 1.0 then (Bucket(t - 1.0, now), true) else (b, false)
  }

  // --- The table of clients ------------------------------------------------------------

  type Ref = nat

  datatype Slot = Slot(limiter: Ref, lastSeen: int)

  /** The table, and every limiter ever made: one that leaves the table lives on
      with the requests that hold it. */
  datatype Table = Table(clients: map<string, Slot>, limiters: seq<Bucket>) {
    ghost predicate Valid() { forall ip :: ip in clients ==> clients[ip].limiter < |limiters| }
  }

  function Lookup(c: Config, t: Table, ip: string, now: int): (Table, Ref) {
    if ip in t.clients then (t.(clients := t.clients[ip := t.clients[ip].(lastSeen := now)]), t.clients[ip].limiter)
    else (Table(t.clients[ip := Slot(|t.limiters|, now)], t.limiters + [NewBucket(c, now)]), |t.limiters|)
  }

  function Answer(c: Config, t: Table, l: Ref, now: int): (Table, bool)
    requires l < |t.limiters|
  {
    var (b, ok) := Take(c, t.limiters[l], now);
    (t.(limiters := t.limiters[l := b]), ok)
  }

  predicate Idle(e: Slot, now: int) { now - e.lastSeen > IDLE }

  function Evict(t: Table, now: int): Table {
    t.(clients := map ip | ip in t.clients && !Idle(t.clients[ip], now) :: t.clients[ip])
  }

  class RateLimiter {
    const cfg: Config
    var clients: map<string, Slot>
    var limiters: seq<Bucket>

    ghost function Contents(): Table
      reads this
    {
      Table(clients, limiters)
    }

    constructor (c: Config)
      ensures cfg == c && Contents() == Table(map[], [])
    {
      cfg := c;
      clients, limiters := map[], [];
    }

    /** Under the lock of the client's shard. */
    method GetLimiter(ip: string, now: int) returns (l: Ref)
      requires Contents().Valid()
      modifies this
      ensures Contents().Valid() && (Contents(), l) == Lookup(cfg, old(Contents()), ip, now)
    {
      if ip !in clients {
        clients := clients[ip := Slot(|limiters|, now)];
        limiters := limiters + [NewBucket(cfg, now)];
      }
      clients := clients[ip := clients[ip].(lastSeen := now)];
      l := clients[ip].limiter;
      assert ip !in old(clients) ==> clients == old(clients)[ip := Slot(|old(limiters)|, now)];
    }

    /** Outside it. */
    method Allow(l: Ref, now: int) returns (ok: bool)
      requires Contents().Valid() && l < |limiters|
      modifies this
      ensures Contents().Valid() && (Contents(), ok) == Answer(cfg, old(Contents()), l, now)
    {
      var (b, allowed) := Take(cfg, limiters[l], now);
      limiters := limiters[l := b];
      ok := allowed;
    }

    /** One pass of the background loop, under all locks. */
    method Cleanup(now: int)
      modifies this
      ensures Contents() == Evict(old(Contents()), now)
    {
      var rest := clients.Keys;
      while rest != {}
        invariant limiters == old(limiters) && rest <= old(clients).Keys
        invariant clients == map ip | ip in old(clients) && (ip in rest || !Idle(old(clients)[ip], now))
                               :: old(clients)[ip]
        decreases rest
      {
        var ip :| ip in rest;
        if Idle(clients[ip], now) {
          clients := clients - {ip};
        }
        rest := rest - {ip};
      }
    }
  }

  // --- Runs ------------------------------------------------------------------------------

  type Pid = nat

  /** What a request carries from its lookup to its question. */
  datatype Held = Held(limiter: Ref, ip: string, since: int)

  datatype State = State(table: Table, held: map<Pid, Held>) {
    ghost predicate Valid() { table.Valid() && forall q :: q in held ==> held[q].limiter < |table.limiters| }
  }

  const EMPTY := State(Table(map[], []), map[])

  datatype Event = Look(pid: Pid, ip: string, at: int) | Ask(pid: Pid, at: int) | Sweep(at: int)

  datatype Reply = Reply(ip: string, ok: bool)

  /** One step of a table that evicts, or of one that never forgets. */
  function Step(c: Config, s: State, e: Event, evicting: bool): (r: (State, seq<Reply>))
    requires s.Valid()
    ensures r.0.Valid()
  {
    match e
    case Look(q, ip, at) =>
      if q in s.held then (s, [])
      else
        var (t, l) := Lookup(c, s.table, ip, at);
        (State(t, s.held[q := Held(l, ip, at)]), [])
    case Ask(q, at) =>
      if q !in s.held then (s, [])
      else
        var (t, ok) := Answer(c, s.table, s.held[q].limiter, at);
        (State(t, s.held - {q}), [Reply(s.held[q].ip, ok)])
    case Sweep(at) => (if evicting then s.(table := Evict(s.table, at)) else s, [])
  }

  function Run(c: Config, s: State, es: seq<Event>, evicting: bool): (r: (State, seq<Reply>))
    requires s.Valid()
    ensures r.0.Valid()
    decreases |es|
  {
    if es == [] then (s, [])
    else
      var (s1, first) := Step(c, s, es[0], evicting);
      var (s2, rest) := Run(c, s1, es[1..], evicting);
      (s2, first + rest)
  }

  /** The clock never goes back, and no request waits longer than `delay` between
      lookup and question. */
  ghost predicate Timely(c: Config, s: State, es: seq<Event>, now: int, delay: nat)
    requires s.Valid()
    decreases |es|
  {
    es == [] ||
    (&& now <= es[0].at
     && (es[0].Ask? && es[0].pid in s.held ==> es[0].at - s.held[es[0].pid].since <= delay)
     && Timely(c, Step(c, s, es[0], true).0, es[1..], es[0].at, delay))
  }

  /** The last moment of a run of events. */
  function End(es: seq<Event>, now: int): int
    decreases |es|
  {
    if es == [] then now else End(es[1..], es[0].at)
  }

  /** No client can tell whether the table evicts. */
  ghost predicate EvictionUnobservable(c: Config, delay: nat) {
    forall es, now :: Timely(c, EMPTY, es, now, delay) ==> Run(c, EMPTY, es, true).1 == Run(c, EMPTY, es, false).1
  }

  function Granted(ip: string, replies: seq<Reply>): nat {
    if replies == [] then 0 else (if replies[0] == Reply(ip, true) then 1 else 0) + Granted(ip, replies[1..])
  }

  /** The window begins with its first event. */
  function WindowStart(before: seq<Event>, window: seq<Event>, now: int): int {
    if window == [] then End(before, now) else window[0].at
  }

  /** What a client may expect of a window of `length` nanoseconds: its burst, and the rate. */
  function Allowance(c: Config, length: int): real {
    (if c.burst < 0 then 0.0 else c.burst as real) + c.Refill(length)
  }

  /** In any window of any run a client is granted at most its burst plus the
      rate times the length of the window, sweeps or not. */
  ghost predicate RateBounded(c: Config, delay: nat) {
    forall before, window, ip, now :: Timely(c, EMPTY, before + window, now, delay) ==>
      var start := WindowStart(before, window, now);
      Granted(ip, Run(c, Run(c, EMPTY, before, true).0, window, true).1) as real
        <= Allowance(c, End(window, start) - start)
  }

  /** Idle as long as a sweep demands, less the longest wait, a bucket is full again. */
  predicate Enough(c: Config, delay: nat) { c.burst as real <= c.Refill(IDLE + NANOSECOND - delay) }

  lemma RunFirst(c: Config, s: State, e: Event, rest: seq<Event>, evicting: bool)
    requires s.Valid()
    ensures var (s1, a) := Step(c, s, e, evicting);
      Run(c, s, [e] + rest, evicting) == (Run(c, s1, rest, evicting).0, a + Run(c, s1, rest, evicting).1)
  {
    assert ([e] + rest)[1..] == rest;
  }

  lemma RunNone(c: Config, s: State, evicting: bool)
    requires s.Valid()
    ensures Run(c, s, [], evicting) == (s, [])
  {
  }

  lemma {:induction false} RunSplits(c: Config, s: State, a: seq<Event>, b: seq<Event>, evicting: bool)
    requires s.Valid()
    ensures var (s1, x) := Run(c, s, a, evicting);
      Run(c, s, a + b, evicting) == (Run(c, s1, b, evicting).0, x + Run(c, s1, b, evicting).1)
    decreases |a|
  {
    hide Step;
    if a == [] {
      assert a + b == b && [] + Run(c, s, b, evicting).1 == Run(c, s, b, evicting).1;
    } else {
      assert (a + b)[1..] == a[1..] + b;
      var (s1, first) := Step(c, s, a[0], evicting);
      RunSplits(c, s1, a[1..], b, evicting);
      var (s2, x) := Run(c, s1, a[1..], evicting);
      assert first + (x + Run(c, s2, b, evicting).1) == first + x + Run(c, s2, b, evicting).1;
    }
  }

  lemma {:induction false} TimelySplits(c: Config, s: State, a: seq<Event>, b: seq<Event>, now: int, delay: nat)
    requires s.Valid()
    ensures Timely(c, s, a + b, now, delay)
       <==> Timely(c, s, a, now, delay) && Timely(c, Run(c, s, a, true).0, b, End(a, now), delay)
    decreases |a|
  {
    hide Step;
    if a == [] {
      assert a + b == b;
    } else {
      assert (a + b)[1..] == a[1..] + b;
      TimelySplits(c, Step(c, s, a[0], true).0, a[1..], b, a[0].at, delay);
    }
  }

  lemma {:induction false} GrantedSplits(ip: string, a: seq<Reply>, b: seq<Reply>)
    ensures Granted(ip, a + b) == Granted(ip, a) + Granted(ip, b)
  {
    if a == [] {
      assert a + b == b;
    } else {
      assert (a + b)[1..] == a[1..] + b;
      GrantedSplits(ip, a[1..], b);
    }
  }

  // --- Arithmetic ----------------------------------------------------------------------

  lemma ScaleMonotone(r: real, x: real, y: real)
    requires r > 0.0 && x <= y
    ensures r * x <= r * y
  {
  }

  lemma RefillMonotone(c: Config, d: int, e: int)
    requires d <= e
    ensures 0.0 <= c.Refill(d) <= c.Refill(e)
  {
    if c.rps > 0.0 && e > 0 {
      ScaleMonotone(c.rps, 0.0, e as real / SECOND as real);
      if d > 0 {
        ScaleMonotone(c.rps, 0.0, d as real / SECOND as real);
        ScaleMonotone(c.rps, d as real / SECOND as real, e as real / SECOND as real);
      }
    }
  }

  lemma RefillAdds(c: Config, d: nat, e: nat)
    ensures c.Refill(d) + c.Refill(e) == c.Refill(d + e)
  {
  }

  lemma RefillSplits(c: Config, now: int, at: int, end: int)
    requires now <= at <= end
    ensures c.Refill(at - now) + c.Refill(end - at) == c.Refill(end - now)
  {
    RefillAdds(c, at - now, end - at);
    assert at - now + (end - at) == end - now;
  }

  // --- Full buckets ----------------------------------------------------------------------

  predicate Full(c: Config, b: Bucket, now: int) { b.Level(c, now) == c.burst as real }

  lemma StaysFull(c: Config, b: Bucket, now: int, later: int)
    requires Full(c, b, now) && now <= later
    ensures Full(c, b, later)
  {
    RefillMonotone(c, now - b.last, later - b.last);
  }

  /** Two buckets nobody can tell apart from now on. */
  predicate Alike(c: Config, a: Bucket, b: Bucket, now: int) {
    a == b || (Full(c, a, now) && Full(c, b, now))
  }

  lemma AlikeTake(c: Config, a: Bucket, b: Bucket, now: int)
    requires Alike(c, a, b, now)
    ensures Take(c, a, now).1 == Take(c, b, now).1
    ensures Alike(c, Take(c, a, now).0, Take(c, b, now).0, now)
  {
  }

  // --- The table that forgets against the one that does not ------------------------------------

  function BucketOf(t: Table, ip: string): Bucket
    requires ip in t.clients && t.clients[ip].limiter < |t.limiters|
  {
    t.limiters[t.clients[ip].limiter]
  }

  /** No two clients share a limiter. */
  ghost predicate Apart(t: Table) {
    && t.Valid()
    && forall a, b :: a in t.clients && b in t.clients && t.clients[a].limiter == t.clients[b].limiter ==> a == b
  }

  lemma LookupView(c: Config, t: Table, ip: string, now: int)
    requires Apart(t)
    ensures var (t2, l) := Lookup(c, t, ip, now);
      && Apart(t2) && t2.clients.Keys == t.clients.Keys + {ip}
      && t2.clients[ip] == Slot(l, now) && |t.limiters| <= |t2.limiters|
      && BucketOf(t2, ip) == (if ip in t.clients then BucketOf(t, ip) else NewBucket(c, now))
      && (forall a :: a in t.clients ==> t2.clients[a].limiter == t.clients[a].limiter)
      && (forall a :: a in t.clients && a != ip ==> t2.clients[a] == t.clients[a] && BucketOf(t2, a) == BucketOf(t, a))
  {
  }

  lemma AnswerView(c: Config, t: Table, ip: string, now: int)
    requires Apart(t) && ip in t.clients
    ensures var (t2, ok) := Answer(c, t, t.clients[ip].limiter, now);
      && Apart(t2) && t2.clients == t.clients && (BucketOf(t2, ip), ok) == Take(c, BucketOf(t, ip), now)
      && (forall a :: a in t.clients && a != ip ==> BucketOf(t2, a) == BucketOf(t, a))
  {
    hide Take;
  }

  /** A bucket is never above the burst nor in debt, and was last asked at most
      `delay` after its client was last seen. */
  predicate Sound(c: Config, b: Bucket, seen: int, now: int, delay: nat) {
    b.last <= now && seen <= now && b.last <= seen + delay && 0.0 <= b.tokens <= c.burst as real
  }

  /** What the evicting table `t` knows of a client of `p`: the same, or nothing, if
      the bucket it has forgotten is full. */
  ghost predicate Client(c: Config, t: Table, p: Table, a: string, now: int, delay: nat)
    requires t.Valid() && p.Valid() && a in p.clients
  {
    && Sound(c, BucketOf(p, a), p.clients[a].lastSeen, now, delay)
    && (if a in t.clients
        then t.clients[a].lastSeen == p.clients[a].lastSeen && Alike(c, BucketOf(t, a), BucketOf(p, a), now)
        else Full(c, BucketOf(p, a), now))
  }

  ghost predicate Forgot(c: Config, t: Table, p: Table, now: int, delay: nat) {
    && Apart(t) && Apart(p) && t.clients.Keys <= p.clients.Keys
    && forall a :: a in p.clients ==> Client(c, t, p, a, now, delay)
  }

  /** A request holds the limiter of its client; in the evicting table only as
      long as it is not late. */
  ghost predicate Holds(t: Table, p: Table, h: Held, g: Held, now: int, delay: nat) {
    && h.ip == g.ip && h.since == g.since && g.ip in p.clients
    && g.limiter == p.clients[g.ip].limiter && g.since <= p.clients[g.ip].lastSeen
    && (now - h.since <= delay ==> h.ip in t.clients && h.limiter == t.clients[h.ip].limiter)
  }

  ghost predicate Related(c: Config, t: State, p: State, now: int, delay: nat) {
    && t.Valid() && p.Valid() && Forgot(c, t.table, p.table, now, delay)
    && t.held.Keys == p.held.Keys
    && forall q :: q in t.held ==> Holds(t.table, p.table, t.held[q], p.held[q], now, delay)
  }

  lemma IdleFull(c: Config, b: Bucket, e: Slot, now: int, delay: nat)
    requires Enough(c, delay) && Sound(c, b, e.lastSeen, now, delay) && Idle(e, now)
    ensures Full(c, b, now)
  {
    RefillMonotone(c, IDLE + NANOSECOND - delay, now - b.last);
  }

  lemma ClientLater(c: Config, t: Table, p: Table, a: string, now: int, later: int, delay: nat)
    requires t.Valid() && p.Valid() && a in p.clients && Client(c, t, p, a, now, delay) && now <= later
    ensures Client(c, t, p, a, later, delay)
  {
    hide Full, BucketOf;
    if Full(c, BucketOf(p, a), now) {
      StaysFull(c, BucketOf(p, a), now, later);
    }
    if a in t.clients && Full(c, BucketOf(t, a), now) {
      StaysFull(c, BucketOf(t, a), now, later);
    }
  }

  lemma ForgotEvict(c: Config, t: Table, p: Table, now: int, delay: nat)
    requires Enough(c, delay) && Forgot(c, t, p, now, delay)
    ensures Forgot(c, Evict(t, now), p, now, delay)
  {
    hide Full, Sound, Enough, Alike;
    forall a | a in p.clients ensures Client(c, Evict(t, now), p, a, now, delay) {
      assert Client(c, t, p, a, now, delay);
      if a in t.clients && Idle(t.clients[a], now) {
        IdleFull(c, BucketOf(p, a), p.clients[a], now, delay);
      }
    }
  }

  lemma ClientLookup(c: Config, t: Table, p: Table, ip: string, a: string, now: int, delay: nat)
    requires c.burst >= 1 && Apart(t) && Apart(p) && t.clients.Keys <= p.clients.Keys
    requires a in p.clients || a == ip
    requires a in p.clients ==> Client(c, t, p, a, now, delay)
    ensures Client(c, Lookup(c, t, ip, now).0, Lookup(c, p, ip, now).0, a, now, delay)
  {
    LookupView(c, t, ip, now);
    LookupView(c, p, ip, now);
    NewIsFull(c, now);
    hide Lookup, Full, BucketOf, Apart;
  }

  lemma ForgotLookup(c: Config, t: Table, p: Table, ip: string, now: int, delay: nat)
    requires c.burst >= 1 && Forgot(c, t, p, now, delay)
    ensures Forgot(c, Lookup(c, t, ip, now).0, Lookup(c, p, ip, now).0, now, delay)
  {
    LookupView(c, t, ip, now);
    LookupView(c, p, ip, now);
    hide Lookup, Apart, Client, BucketOf;
    var t2, p2 := Lookup(c, t, ip, now).0, Lookup(c, p, ip, now).0;
    forall a | a in p2.clients ensures Client(c, t2, p2, a, now, delay) {
      ClientLookup(c, t, p, ip, a, now, delay);
    }
  }

  lemma NewIsFull(c: Config, now: int)
    ensures Full(c, NewBucket(c, now), now)
  {
  }

  lemma TakeSound(c: Config, b: Bucket, seen: int, now: int, delay: nat)
    requires Sound(c, b, seen, now, delay) && now <= seen + delay
    ensures Sound(c, Take(c, b, now).0, seen, now, delay)
  {
    RefillMonotone(c, 0, now - b.last);
  }

  lemma ForgotAnswer(c: Config, t: Table, p: Table, ip: string, now: int, delay: nat)
    requires Forgot(c, t, p, now, delay) && ip in t.clients && now <= p.clients[ip].lastSeen + delay
    ensures var (t2, a) := Answer(c, t, t.clients[ip].limiter, now);
      var (p2, b) := Answer(c, p, p.clients[ip].limiter, now);
      a == b && Forgot(c, t2, p2, now, delay)
  {
    assert Client(c, t, p, ip, now, delay);
    AnswerView(c, t, ip, now);
    AnswerView(c, p, ip, now);
    AlikeTake(c, BucketOf(t, ip), BucketOf(p, ip), now);
    TakeSound(c, BucketOf(p, ip), p.clients[ip].lastSeen, now, delay);
    hide Answer, BucketOf, Apart, Full, Take, Sound, Alike;
    var t2, p2 := Answer(c, t, t.clients[ip].limiter, now).0, Answer(c, p, p.clients[ip].limiter, now).0;
    forall a | a in p2.clients ensures Client(c, t2, p2, a, now, delay) {
      assert Client(c, t, p, a, now, delay);
    }
  }

  // --- Enough: nobody can tell -------------------------------------------------------------

  lemma RelatedLater(c: Config, t: State, p: State, now: int, later: int, delay: nat)
    requires Related(c, t, p, now, delay) && now <= later
    ensures Related(c, t, p, later, delay)
  {
    forall a | a in p.table.clients ensures Client(c, t.table, p.table, a, later, delay) {
      ClientLater(c, t.table, p.table, a, now, later, delay);
    }
    hide Client;
  }

  lemma HoldsLook(c: Config, t: Table, p: Table, h: Held, g: Held, ip: string, at: int, delay: nat)
    requires Apart(t) && Apart(p) && Holds(t, p, h, g, at, delay)
    requires h.ip in p.clients ==> p.clients[h.ip].lastSeen <= at
    ensures Holds(Lookup(c, t, ip, at).0, Lookup(c, p, ip, at).0, h, g, at, delay)
  {
    LookupView(c, t, ip, at);
    LookupView(c, p, ip, at);
    hide Lookup, BucketOf, Apart;
  }

  lemma HoldsNew(c: Config, t: Table, p: Table, ip: string, at: int, delay: nat)
    requires Apart(t) && Apart(p)
    ensures var (t2, l) := Lookup(c, t, ip, at);
      var (p2, m) := Lookup(c, p, ip, at);
      && Holds(t2, p2, Held(l, ip, at), Held(m, ip, at), at, delay)
      && Apart(t2) && Apart(p2) && l < |t2.limiters| && m < |p2.limiters|
      && |t.limiters| <= |t2.limiters| && |p.limiters| <= |p2.limiters|
  {
    LookupView(c, t, ip, at);
    LookupView(c, p, ip, at);
  }

  lemma LookKeeps(c: Config, t: State, p: State, q: Pid, ip: string, at: int, delay: nat)
    requires c.burst >= 1 && Related(c, t, p, at, delay) && q !in t.held
    ensures Related(c, Step(c, t, Look(q, ip, at), true).0, Step(c, p, Look(q, ip, at), false).0, at, delay)
  {
    ForgotLookup(c, t.table, p.table, ip, at, delay);
    HoldsNew(c, t.table, p.table, ip, at, delay);
    var t2, p2 := Step(c, t, Look(q, ip, at), true).0, Step(c, p, Look(q, ip, at), false).0;
    forall r | r in t.held
      ensures Holds(t2.table, p2.table, t.held[r], p.held[r], at, delay)
    {
      assert Client(c, t.table, p.table, p.held[r].ip, at, delay);
      HoldsLook(c, t.table, p.table, t.held[r], p.held[r], ip, at, delay);
    }
    hide Lookup, Forgot, Holds, Apart;
  }

  lemma AskKeeps(c: Config, t: State, p: State, q: Pid, at: int, delay: nat)
    requires Related(c, t, p, at, delay) && q in t.held && at - t.held[q].since <= delay
    ensures var (t2, a) := Step(c, t, Ask(q, at), true);
      var (p2, b) := Step(c, p, Ask(q, at), false);
      a == b && Related(c, t2, p2, at, delay)
  {
    assert Holds(t.table, p.table, t.held[q], p.held[q], at, delay);
    ForgotAnswer(c, t.table, p.table, t.held[q].ip, at, delay);
    AnswerView(c, t.table, t.held[q].ip, at);
    AnswerView(c, p.table, t.held[q].ip, at);
    hide Answer, Forgot, BucketOf, Apart;
    var t2, p2 := Step(c, t, Ask(q, at), true).0, Step(c, p, Ask(q, at), false).0;
    forall r | r in t2.held ensures Holds(t2.table, p2.table, t2.held[r], p2.held[r], at, delay) {
      assert Holds(t.table, p.table, t.held[r], p.held[r], at, delay);
    }
  }

  lemma SweepKeeps(c: Config, t: State, p: State, at: int, delay: nat)
    requires Enough(c, delay) && delay <= IDLE && Related(c, t, p, at, delay)
    ensures Related(c, Step(c, t, Sweep(at), true).0, p, at, delay)
  {
    ForgotEvict(c, t.table, p.table, at, delay);
    var t2 := Step(c, t, Sweep(at), true).0;
    forall r | r in t2.held ensures Holds(t2.table, p.table, t2.held[r], p.held[r], at, delay) {
      assert Holds(t.table, p.table, t.held[r], p.held[r], at, delay);
      assert Client(c, t.table, p.table, p.held[r].ip, at, delay);
    }
    hide Forgot, Enough;
  }

  lemma StepKeeps(c: Config, t: State, p: State, e: Event, delay: nat)
    requires c.burst >= 1 && Enough(c, delay) && delay <= IDLE && Related(c, t, p, e.at, delay)
    requires e.Ask? && e.pid in t.held ==> e.at - t.held[e.pid].since <= delay
    ensures var (t2, a) := Step(c, t, e, true);
      var (p2, b) := Step(c, p, e, false);
      a == b && Related(c, t2, p2, e.at, delay)
  {
    assert t.held.Keys == p.held.Keys;
    match e
    case Look(q, ip, at) =>
      if q in t.held.Keys {
      } else {
        LookKeeps(c, t, p, q, ip, at, delay);
      }
    case Ask(q, at) =>
      if q in t.held.Keys {
        AskKeeps(c, t, p, q, at, delay);
      }
    case Sweep(at) =>
      SweepKeeps(c, t, p, at, delay);
    hide Related, Lookup, Answer, Evict, Enough;
  }

  lemma {:induction false} SameReplies(c: Config, t: State, p: State, es: seq<Event>, now: int, delay: nat)
    requires c.burst >= 1 && Enough(c, delay) && delay <= IDLE
    requires Related(c, t, p, now, delay) && Timely(c, t, es, now, delay)
    ensures Run(c, t, es, true).1 == Run(c, p, es, false).1
    decreases |es|
  {
    if es != [] {
      RelatedLater(c, t, p, now, es[0].at, delay);
      StepKeeps(c, t, p, es[0], delay);
      hide Step, Related, Enough;
      SameReplies(c, Step(c, t, es[0], true).0, Step(c, p, es[0], false).0, es[1..], es[0].at, delay);
    }
  }

  ghost predicate SameHolders(t: State, p: State) {
    && t.Valid() && p.Valid() && t.held.Keys == p.held.Keys
    && forall q :: q in t.held ==> t.held[q].ip == p.held[q].ip
  }

  lemma StepGrantsNothing(c: Config, t: State, p: State, e: Event)
    requires c.burst < 1 && SameHolders(t, p)
    ensures var (t2, a) := Step(c, t, e, true);
      var (p2, b) := Step(c, p, e, false);
      a == b && (a == [] || (|a| == 1 && !a[0].ok)) && SameHolders(t2, p2)
  {
    hide Lookup, Evict;
    match e
    case Look(q, ip, at) =>
      LookupLimiters(c, t.table, ip, at);
      LookupLimiters(c, p.table, ip, at);
    case Ask(q, at) =>
    case Sweep(at) =>
      EvictValid(t.table, at);
  }

  lemma EvictValid(t: Table, now: int)
    requires t.Valid()
    ensures Evict(t, now).limiters == t.limiters && Evict(t, now).Valid()
  {
  }

  lemma LookupLimiters(c: Config, t: Table, ip: string, now: int)
    requires t.Valid()
    ensures var (t2, l) := Lookup(c, t, ip, now); t2.Valid() && l < |t2.limiters| && |t.limiters| <= |t2.limiters|
  {
  }

  /** With no burst there is nothing to grant. */
  lemma {:induction false} NothingGranted(c: Config, t: State, p: State, es: seq<Event>)
    requires c.burst < 1 && SameHolders(t, p)
    ensures Run(c, t, es, true).1 == Run(c, p, es, false).1
    ensures forall ip :: Granted(ip, Run(c, t, es, true).1) == 0
    decreases |es|
  {
    if es != [] {
      StepGrantsNothing(c, t, p, es[0]);
      hide Step, SameHolders;
      var (t2, a) := Step(c, t, es[0], true);
      NothingGranted(c, t2, Step(c, p, es[0], false).0, es[1..]);
      var rest := Run(c, t2, es[1..], true).1;
      forall ip ensures Granted(ip, a + rest) == 0 {
        GrantedSplits(ip, a, rest);
      }
    }
  }

  lemma EnoughHides(c: Config, delay: nat)
    requires Enough(c, delay)
    ensures EvictionUnobservable(c, delay)
  {
    forall es, now | Timely(c, EMPTY, es, now, delay)
      ensures Run(c, EMPTY, es, true).1 == Run(c, EMPTY, es, false).1
    {
      if c.burst < 1 {
        NothingGranted(c, EMPTY, EMPTY, es);
      } else {
        SameReplies(c, EMPTY, EMPTY, es, now, delay);
      }
    }
  }

  // --- How much a client gets ----------------------------------------------------------------

  predicate Ordered(es: seq<Event>, now: int)
    decreases |es|
  {
    es == [] || (now <= es[0].at && Ordered(es[1..], es[0].at))
  }

  lemma {:induction false} TimelyOrdered(c: Config, s: State, es: seq<Event>, now: int, delay: nat)
    requires s.Valid() && Timely(c, s, es, now, delay)
    ensures Ordered(es, now) && now <= End(es, now)
    decreases |es|
  {
    hide Step;
    if es != [] {
      TimelyOrdered(c, Step(c, s, es[0], true).0, es[1..], es[0].at, delay);
    }
  }

  /** In the table that never forgets, every request holds its client's one limiter. */
  ghost predicate Own(c: Config, p: State, now: int) {
    && p.Valid() && Apart(p.table)
    && (forall q :: q in p.held ==>
          p.held[q].ip in p.table.clients && p.held[q].limiter == p.table.clients[p.held[q].ip].limiter)
    && (forall a :: a in p.table.clients ==>
          BucketOf(p.table, a).last <= now && 0.0 <= BucketOf(p.table, a).tokens <= c.burst as real)
  }

  function Level(c: Config, p: State, ip: string, now: int): real
    requires p.Valid()
  {
    if ip in p.table.clients then BucketOf(p.table, ip).Level(c, now) else c.burst as real
  }

  lemma TakeLevel(c: Config, b: Bucket, now: int)
    requires b.last <= now && 0.0 <= b.tokens <= c.burst as real
    ensures var (b2, ok) := Take(c, b, now);
      && b2.last <= now && 0.0 <= b2.tokens <= c.burst as real
      && b2.Level(c, now) == b.Level(c, now) - (if ok then 1.0 else 0.0)
  {
    RefillMonotone(c, 0, now - b.last);
  }

  lemma OwnLook(c: Config, p: State, q: Pid, who: string, at: int)
    requires c.burst >= 1 && Own(c, p, at)
    ensures Own(c, Step(c, p, Look(q, who, at), false).0, at)
  {
    LookupView(c, p.table, who, at);
    hide Lookup, BucketOf, Apart;
  }

  lemma LookLevel(c: Config, p: State, q: Pid, who: string, at: int, ip: string)
    requires p.Valid() && Apart(p.table)
    ensures Level(c, Step(c, p, Look(q, who, at), false).0, ip, at) == Level(c, p, ip, at)
  {
    LookupView(c, p.table, who, at);
    assert NewBucket(c, at).Level(c, at) == c.burst as real;
    hide Lookup, BucketOf, Apart;
  }

  lemma OwnStep(c: Config, p: State, e: Event, ip: string)
    requires c.burst >= 1 && Own(c, p, e.at)
    ensures var (p2, a) := Step(c, p, e, false);
      && Own(c, p2, e.at) && |a| <= 1
      && Level(c, p2, ip, e.at) == Level(c, p, ip, e.at) - Granted(ip, a) as real
  {
    assert Apart(p.table);
    hide Own, Level, Lookup, Answer, Evict, Apart;
    match e
    case Look(q, who, at) =>
      OwnLook(c, p, q, who, at);
      LookLevel(c, p, q, who, at, ip);
    case Ask(q, at) =>
      if q in p.held {
        AskLevel(c, p, q, ip, at);
      }
    case Sweep(_) =>
  }

  lemma AskLevel(c: Config, p: State, q: Pid, ip: string, at: int)
    requires c.burst >= 1 && Own(c, p, at) && q in p.held
    ensures var (p2, a) := Step(c, p, Ask(q, at), false);
      && Own(c, p2, at) && |a| == 1
      && Level(c, p2, ip, at) == Level(c, p, ip, at) - Granted(ip, a) as real
  {
    var who := p.held[q].ip;
    AnswerView(c, p.table, who, at);
    TakeLevel(c, BucketOf(p.table, who), at);
    var a := Step(c, p, Ask(q, at), false).1;
    assert a[1..] == [];
    assert Granted(ip, a) == if a[0] == Reply(ip, true) then 1 else 0;
    hide Answer, BucketOf, Apart, Take;
  }

  lemma LevelRises(c: Config, p: State, ip: string, now: int, later: int)
    requires c.burst >= 0 && Own(c, p, now) && now <= later
    ensures Own(c, p, later) && 0.0 <= Level(c, p, ip, now) <= c.burst as real
    ensures Level(c, p, ip, later) <= Level(c, p, ip, now) + c.Refill(later - now)
  {
    RefillMonotone(c, 0, later - now);
    if ip in p.table.clients {
      RefillMonotone(c, 0, now - BucketOf(p.table, ip).last);
      RefillAdds(c, now - BucketOf(p.table, ip).last, later - now);
    }
  }

  /** Between two moments a client's bucket gains the rate times the time between
      them, and stops at the burst. */
  lemma LevelIs(c: Config, p: State, ip: string, now: int, later: int)
    requires c.burst >= 0 && c.rps > 0.0 && Own(c, p, now) && now <= later
    ensures var t := Level(c, p, ip, now) + c.rps * ((later - now) as real / 1_000_000_000.0);
      Level(c, p, ip, later) == if t > c.burst as real then c.burst as real else t
  {
    RefillMonotone(c, 0, later - now);
    if ip in p.table.clients {
      RefillMonotone(c, 0, now - BucketOf(p.table, ip).last);
      RefillAdds(c, now - BucketOf(p.table, ip).last, later - now);
    }
    assert c.Refill(later - now) == c.rps * ((later - now) as real / 1_000_000_000.0);
  }

  /** A request is granted if and only if its client has a whole token; it takes that
      token if granted, nothing if not, and nothing from anybody else. */
  lemma GrantedIff(c: Config, p: State, q: Pid, at: int, ip: string)
    requires c.burst >= 1 && Own(c, p, at) && q in p.held
    ensures var (p2, a) := Step(c, p, Ask(q, at), false);
      var who := p.held[q].ip;
      var ok := Level(c, p, who, at) >= 1.0;
      && a == [Reply(who, ok)] && Own(c, p2, at)
      && Level(c, p2, ip, at) == Level(c, p, ip, at) - (if ip == who && ok then 1.0 else 0.0)
  {
    AskLevel(c, p, q, ip, at);
    AnswerView(c, p.table, p.held[q].ip, at);
    var a := Step(c, p, Ask(q, at), false).1;
    assert a[1..] == [];
    assert Granted(ip, a) == if a[0] == Reply(ip, true) then 1 else 0;
  }

  /** What is granted and what is left come out of what was there and what was gained. */
  predicate Fits(granted: nat, left: real, had: real, gained: real) { granted as real + left <= had + gained }

  lemma Chained(a: nat, b: nat, had: real, mid: real, left: real, r1: real, r2: real, r: real)
    requires Fits(a, mid, had, r1) && Fits(b, left, mid, r2) && r1 + r2 == r
    ensures Fits(a + b, left, had, r)
  {
  }

  /** From `p` to `p2` a client was granted `k`: that and what is left, its bucket had or gained. */
  ghost predicate Gained(ip: string, c: Config, p: State, now: int, p2: State, end: int, k: nat)
    requires p.Valid()
  {
    && Own(c, p2, end) && now <= end
    && Fits(k, Level(c, p2, ip, end), Level(c, p, ip, now), c.Refill(end - now))
  }

  lemma GainedNone(ip: string, c: Config, p: State, now: int)
    requires Own(c, p, now)
    ensures Gained(ip, c, p, now, p, now, 0)
  {
    hide Own, Level;
  }

  lemma GainedOn(ip: string, c: Config, p: State, now: int, p1: State, at: int, j: nat, p2: State, end: int, k: nat)
    requires p.Valid() && p1.Valid() && Gained(ip, c, p, now, p1, at, j) && Gained(ip, c, p1, at, p2, end, k)
    ensures Gained(ip, c, p, now, p2, end, j + k)
  {
    assert p2.Valid();
    hide Own, Level, Config.Refill, Fits;
    RefillSplits(c, now, at, end);
    Chained(j, k, Level(c, p, ip, now), Level(c, p1, ip, at), Level(c, p2, ip, end),
            c.Refill(at - now), c.Refill(end - at), c.Refill(end - now));
  }

  /** Up to its first event a client's bucket gains no more than the rate, and the event takes what it grants. */
  lemma FirstBound(ip: string, c: Config, p: State, e: Event, now: int)
    requires c.burst >= 1 && Own(c, p, now) && now <= e.at
    ensures var (p1, a) := Step(c, p, e, false);
      Gained(ip, c, p, now, p1, e.at, Granted(ip, a))
  {
    hide Step, Own, Level, Config.Refill, Granted;
    LevelRises(c, p, ip, now, e.at);
    OwnStep(c, p, e, ip);
  }

  lemma GrantedFirst(ip: string, c: Config, p: State, es: seq<Event>)
    requires p.Valid() && es != []
    ensures var (p1, a) := Step(c, p, es[0], false);
      var (p2, b) := Run(c, p1, es[1..], false);
      Run(c, p, es, false).0 == p2 && Granted(ip, Run(c, p, es, false).1) == Granted(ip, a) + Granted(ip, b)
  {
    hide Step;
    var (p1, a) := Step(c, p, es[0], false);
    GrantedSplits(ip, a, Run(c, p1, es[1..], false).1);
  }

  ghost predicate Bounded(ip: string, c: Config, p: State, es: seq<Event>, now: int)
    requires p.Valid()
  {
    var (p2, a) := Run(c, p, es, false);
    Gained(ip, c, p, now, p2, End(es, now), Granted(ip, a))
  }

  lemma BoundedNone(ip: string, c: Config, p: State, now: int)
    requires Own(c, p, now)
    ensures Bounded(ip, c, p, [], now)
  {
    GainedNone(ip, c, p, now);
    hide Own, Gained;
  }

  lemma BoundedFirst(ip: string, c: Config, p: State, es: seq<Event>, now: int)
    requires p.Valid() && es != []
    requires var (p1, a) := Step(c, p, es[0], false);
      Gained(ip, c, p, now, p1, es[0].at, Granted(ip, a)) && Bounded(ip, c, p1, es[1..], es[0].at)
    ensures Bounded(ip, c, p, es, now)
  {
    hide Gained, Run, Step, Granted;
    var at := es[0].at;
    var (p1, a) := Step(c, p, es[0], false);
    var (p2, b) := Run(c, p1, es[1..], false);
    GrantedFirst(ip, c, p, es);
    GainedOn(ip, c, p, now, p1, at, Granted(ip, a), p2, End(es[1..], at), Granted(ip, b));
  }

  lemma {:induction false} GrantedBound(ip: string, c: Config, p: State, es: seq<Event>, now: int)
    requires c.burst >= 1 && Own(c, p, now) && Ordered(es, now)
    ensures Bounded(ip, c, p, es, now)
    decreases |es|
  {
    assert p.Valid();
    if es == [] {
      BoundedNone(ip, c, p, now);
    } else {
      hide Run, Step, Own, Level, Config.Refill, Granted, Fits, Bounded;
      FirstBound(ip, c, p, es[0], now);
      GrantedBound(ip, c, Step(c, p, es[0], false).0, es[1..], es[0].at);
      hide Gained;
      BoundedFirst(ip, c, p, es, now);
    }
  }

  /** Where nobody can tell, every window keeps to its allowance. */
  lemma HiddenBounds(c: Config, delay: nat)
    requires EvictionUnobservable(c, delay)
    ensures RateBounded(c, delay)
  {
    forall before, window, ip, now | Timely(c, EMPTY, before + window, now, delay)
      ensures var start := WindowStart(before, window, now);
        Granted(ip, Run(c, Run(c, EMPTY, before, true).0, window, true).1) as real
          <= Allowance(c, End(window, start) - start)
    {
      WindowBound(c, before, window, ip, now, delay);
    }
  }

  lemma WindowBound(c: Config, before: seq<Event>, window: seq<Event>, ip: string, now: int, delay: nat)
    requires EvictionUnobservable(c, delay) && Timely(c, EMPTY, before + window, now, delay)
    ensures var start := WindowStart(before, window, now);
      Granted(ip, Run(c, Run(c, EMPTY, before, true).0, window, true).1) as real
        <= Allowance(c, End(window, start) - start)
  {
    var t, p := Run(c, EMPTY, before, true), Run(c, EMPTY, before, false);
    TimelySplits(c, EMPTY, before, window, now, delay);
    TimelyOrdered(c, EMPTY, before, now, delay);
    TimelyOrdered(c, t.0, window, End(before, now), delay);
    RunSplits(c, EMPTY, before, window, true);
    RunSplits(c, EMPTY, before, window, false);
    SameTail(t.1, Run(c, t.0, window, true).1, Run(c, p.0, window, false).1);
    hide Run, Timely, Ordered, Granted, Allowance, End;
    OwnWindow(c, before, window, ip, now);
  }

  /** The bound in the table that never forgets, where nothing can go wrong. */
  lemma OwnWindow(c: Config, before: seq<Event>, window: seq<Event>, ip: string, now: int)
    requires Ordered(before, now) && Ordered(window, End(before, now))
    ensures var start := WindowStart(before, window, now);
      Granted(ip, Run(c, Run(c, EMPTY, before, false).0, window, false).1) as real
        <= Allowance(c, End(window, start) - start)
  {
    hide Run, Granted, Config.Refill, Own, Level, Ordered, End;
    var p := Run(c, EMPTY, before, false).0;
    var start := WindowStart(before, window, now);
    FromStart(window, End(before, now));
    RefillMonotone(c, 0, End(window, start) - start);
    if c.burst < 1 {
      OnlyKept(c, p, window, ip);
    } else {
      StartsOwn(c, now);
      GrantedBound(ip, c, EMPTY, before, now);
      LevelRises(c, p, ip, End(before, now), start);
      LevelRises(c, p, ip, start, start);
      GrantedBound(ip, c, p, window, start);
      var last := Run(c, p, window, false).0;
      LevelRises(c, last, ip, End(window, start), End(window, start));
    }
  }

  /** Where nobody can tell, the table answers every request as the one that never
      forgets: it grants exactly if that client's bucket, full at the start and
      refilled ever since, has a whole token left. */
  lemma AnswersIff(c: Config, es: seq<Event>, q: Pid, at: int, now: int, delay: nat)
    requires EvictionUnobservable(c, delay) && c.burst >= 1 && Timely(c, EMPTY, es + [Ask(q, at)], now, delay)
    requires q in Run(c, EMPTY, es, true).0.held
    ensures var t, p := Run(c, EMPTY, es, true).0, Run(c, EMPTY, es, false).0;
      var who := t.held[q].ip;
      && Own(c, p, at)
      && Step(c, t, Ask(q, at), true).1 == [Reply(who, Level(c, p, who, at) >= 1.0)]
  {
    var t, p := Run(c, EMPTY, es, true), Run(c, EMPTY, es, false);
    TimelySplits(c, EMPTY, es, [Ask(q, at)], now, delay);
    TimelyOrdered(c, EMPTY, es, now, delay);
    assert now <= End(es, now) <= at;
    RunSplits(c, EMPTY, es, [Ask(q, at)], true);
    RunSplits(c, EMPTY, es, [Ask(q, at)], false);
    SameTail(t.1, Run(c, t.0, [Ask(q, at)], true).1, Run(c, p.0, [Ask(q, at)], false).1);
    OneAsk(c, t.0, q, at, true);
    OneAsk(c, p.0, q, at, false);
    hide Run, Timely, Ordered, End, Config.Refill, EvictionUnobservable;
    StartsOwn(c, now);
    GrantedBound("", c, EMPTY, es, now);
    LevelRises(c, p.0, "", End(es, now), at);
    hide Own, Level, Answer;
    if q in p.0.held {
      GrantedIff(c, p.0, q, at, t.0.held[q].ip);
    }
  }

  lemma OneAsk(c: Config, s: State, q: Pid, at: int, evicting: bool)
    requires s.Valid()
    ensures Run(c, s, [Ask(q, at)], evicting).1 == Step(c, s, Ask(q, at), evicting).1
    ensures |Step(c, s, Ask(q, at), evicting).1| == (if q in s.held then 1 else 0)
    ensures q in s.held ==> Step(c, s, Ask(q, at), evicting).1[0].ip == s.held[q].ip
  {
    assert [Ask(q, at)][1..] == [];
    hide Answer;
  }

  lemma OnlyKept(c: Config, p: State, es: seq<Event>, ip: string)
    requires c.burst < 1 && p.Valid()
    ensures Granted(ip, Run(c, p, es, false).1) == 0
  {
    NothingGranted(c, p, p, es);
  }

  lemma SameTail(p: seq<Reply>, x: seq<Reply>, y: seq<Reply>)
    ensures p + x == p + y ==> x == y
  {
    assert (p + x)[|p|..] == x && (p + y)[|p|..] == y;
  }

  /** A window may as well be counted from its first event. */
  lemma FromStart(window: seq<Event>, now: int)
    requires Ordered(window, now)
    ensures var start := if window == [] then now else window[0].at;
      now <= start && Ordered(window, start) && End(window, start) == End(window, now) && start <= End(window, start)
  {
    LaterEnd(window, now);
    if window != [] {
      LaterEnd(window, window[0].at);
    }
  }

  lemma {:induction false} LaterEnd(es: seq<Event>, now: int)
    requires Ordered(es, now)
    ensures now <= End(es, now)
    decreases |es|
  {
    if es != [] {
      LaterEnd(es[1..], es[0].at);
    }
  }

  lemma StartsOwn(c: Config, now: int)
    ensures Own(c, EMPTY, now)
  {
  }

  // --- Not enough: two bursts in one window ----------------------------------------------------

  /** `n` requests of one client look its limiter up. */
  function Looks(ip: string, at: int, first: Pid, n: nat): seq<Event>
    decreases n
  {
    if n == 0 then [] else [Look(first, ip, at)] + Looks(ip, at, first + 1, n - 1)
  }

  function Asks(at: int, first: Pid, n: nat): seq<Event>
    decreases n
  {
    if n == 0 then [] else [Ask(first, at)] + Asks(at, first + 1, n - 1)
  }

  function Pids(first: Pid, n: nat): (qs: set<Pid>)
    ensures forall q: Pid :: q in qs <==> first <= q < first + n
    decreases n
  {
    if n == 0 then {} else {first} + Pids(first + 1, n - 1)
  }

  function Holding(h: Held, first: Pid, n: nat): map<Pid, Held> { map q | q in Pids(first, n) :: h }

  predicate Free(s: State, first: Pid, n: nat) { forall q :: q in Pids(first, n) ==> q !in s.held }

  predicate Hold(s: State, h: Held, first: Pid, n: nat) {
    forall q :: q in Pids(first, n) ==> q in s.held && s.held[q] == h
  }

  lemma LookupAgain(c: Config, t: Table, ip: string, at: int)
    ensures Lookup(c, Lookup(c, t, ip, at).0, ip, at) == Lookup(c, t, ip, at)
  {
    var (t2, l) := Lookup(c, t, ip, at);
    assert t2.clients[ip := Slot(l, at)] == t2.clients;
  }

  lemma HoldingMore(held: map<Pid, Held>, h: Held, first: Pid, n: nat)
    requires n >= 1
    ensures held[first := h] + Holding(h, first + 1, n - 1) == held + Holding(h, first, n)
  {
  }

  /** One lookup. */
  lemma LookOne(c: Config, s: State, ip: string, at: int, first: Pid)
    requires s.Valid() && first !in s.held
    ensures var (t, l) := Lookup(c, s.table, ip, at);
      var s1 := State(t, s.held[first := Held(l, ip, at)]);
      Step(c, s, Look(first, ip, at), true) == (s1, []) && s1.Valid()
  {
  }

  ghost predicate LooksTo(c: Config, s: State, ip: string, at: int, first: Pid, n: nat, t: State)
    requires s.Valid()
  {
    Run(c, s, Looks(ip, at, first, n), true) == (t, [])
  }

  lemma LooksFirst(c: Config, s: State, ip: string, at: int, first: Pid, n: nat, s1: State, t: State)
    requires n >= 1 && s.Valid() && s1.Valid() && Step(c, s, Look(first, ip, at), true) == (s1, [])
    requires LooksTo(c, s1, ip, at, first + 1, n - 1, t)
    ensures LooksTo(c, s, ip, at, first, n, t)
  {
    var e, rest := Look(first, ip, at), Looks(ip, at, first + 1, n - 1);
    assert Looks(ip, at, first, n) == [e] + rest;
    RunFirst(c, s, e, rest, true);
    hide Step, Run, Looks;
    assert [] + Run(c, s1, rest, true).1 == [];
  }

  lemma {:induction false} LooksRun(c: Config, s: State, ip: string, at: int, first: Pid, n: nat)
    requires s.Valid() && n >= 1 && Free(s, first, n)
    ensures var (t, l) := Lookup(c, s.table, ip, at);
      LooksTo(c, s, ip, at, first, n, State(t, s.held + Holding(Held(l, ip, at), first, n)))
    decreases n
  {
    var (t, l) := Lookup(c, s.table, ip, at);
    var h := Held(l, ip, at);
    var s1 := State(t, s.held[first := h]);
    assert first in Pids(first, n);
    LookOne(c, s, ip, at, first);
    HoldingMore(s.held, h, first, n);
    LookupAgain(c, s.table, ip, at);
    if n == 1 {
      NothingHeld(s1.held, h, first + 1);
      assert Looks(ip, at, first + 1, 0) == [];
    }
    hide Lookup, Step, Holding, Run, Looks;
    if n == 1 {
      RunNone(c, s1, true);
    } else {
      LooksRun(c, s1, ip, at, first + 1, n - 1);
    }
    hide LooksTo;
    LooksFirst(c, s, ip, at, first, n, s1, State(t, s.held + Holding(h, first, n)));
  }

  lemma NothingHeld(held: map<Pid, Held>, h: Held, first: Pid)
    ensures held + Holding(h, first, 0) == held
  {
  }

  lemma {:induction false} LooksTimely(c: Config, s: State, ip: string, at: int, first: Pid, n: nat, now: int,
      delay: nat)
    requires s.Valid() && n >= 1 && now <= at
    ensures Timely(c, s, Looks(ip, at, first, n), now, delay) && End(Looks(ip, at, first, n), now) == at
    decreases n
  {
    var es := Looks(ip, at, first, n);
    assert es[1..] == Looks(ip, at, first + 1, n - 1);
    hide Step;
    if n > 1 {
      LooksTimely(c, Step(c, s, es[0], true).0, ip, at, first + 1, n - 1, at, delay);
    } else {
      assert es[1..] == [];
    }
  }

  /** One question that is granted. */
  lemma AskOne(c: Config, s: State, h: Held, at: int, q: Pid)
    requires s.Valid() && c.burst >= 1 && h.limiter < |s.table.limiters| && q in s.held && s.held[q] == h
    requires s.table.limiters[h.limiter].Level(c, at) >= 1.0
    ensures var (s1, a) := Step(c, s, Ask(q, at), true);
      var b := Bucket(s.table.limiters[h.limiter].Level(c, at) - 1.0, at);
      && s1.held == s.held - {q} && s1.table.clients == s.table.clients
      && s1.table.limiters == s.table.limiters[h.limiter := b] && Granted(h.ip, a) == 1
      && b.Level(c, at) == b.tokens
  {
    var a := Step(c, s, Ask(q, at), true).1;
    assert a == [Reply(h.ip, true)] && a[1..] == [];
  }

  /** Asked at one moment, `n` requests use up `n` tokens. */
  lemma {:induction false} AsksRun(c: Config, s: State, h: Held, at: int, first: Pid, n: nat)
    requires s.Valid() && c.burst >= 1 && h.limiter < |s.table.limiters| && Hold(s, h, first, n)
    requires s.table.limiters[h.limiter].Level(c, at) >= n as real
    ensures var (s2, a) := Run(c, s, Asks(at, first, n), true);
      && Granted(h.ip, a) == n
      && s2.held == s.held - Pids(first, n)
      && s2.table.clients == s.table.clients
      && s2.table.limiters == (if n == 0 then s.table.limiters
                               else var v := s.table.limiters[h.limiter].Level(c, at) - n as real;
                                    s.table.limiters[h.limiter := Bucket(v, at)])
    decreases n
  {
    hide Run, Step, Bucket.Level;
    if n > 0 {
      var rest := Asks(at, first + 1, n - 1);
      RunFirst(c, s, Ask(first, at), rest, true);
      assert first in Pids(first, n);
      AskOne(c, s, h, at, first);
      var (s1, a) := Step(c, s, Ask(first, at), true);
      assert s1.held - Pids(first + 1, n - 1) == s.held - Pids(first, n);
      hide Granted;
      AsksRun(c, s1, h, at, first + 1, n - 1);
      GrantedSplits(h.ip, a, Run(c, s1, rest, true).1);
    } else {
      RunNone(c, s, true);
      assert s.held - Pids(first, n) == s.held;
    }
  }

  lemma {:induction false} AsksTimely(c: Config, s: State, h: Held, at: int, first: Pid, n: nat, now: int, delay: nat)
    requires s.Valid() && n >= 1 && Hold(s, h, first, n) && now <= at <= h.since + delay
    ensures Timely(c, s, Asks(at, first, n), now, delay) && End(Asks(at, first, n), now) == at
    decreases n
  {
    var es := Asks(at, first, n);
    assert es[1..] == Asks(at, first + 1, n - 1);
    var s1 := Step(c, s, es[0], true).0;
    assert first in Pids(first, n) && s1.held == s.held - {first};
    hide Step;
    if n > 1 {
      AsksTimely(c, s1, h, at, first + 1, n - 1, at, delay);
    } else {
      assert es[1..] == [];
    }
  }

  /** From `s` at `now`, `es` leads to `t` at `end` and grants `k` requests of client "a". */
  ghost predicate Leads(c: Config, s: State, es: seq<Event>, t: State, k: nat, now: int, end: int, delay: nat)
    requires s.Valid()
  {
    && Run(c, s, es, true).0 == t && Granted("a", Run(c, s, es, true).1) == k
    && Timely(c, s, es, now, delay) && End(es, now) == end
  }

  lemma {:induction false} EndSplits(a: seq<Event>, b: seq<Event>, now: int)
    ensures End(a + b, now) == End(b, End(a, now))
    decreases |a|
  {
    if a == [] {
      assert a + b == b;
    } else {
      assert (a + b)[1..] == a[1..] + b;
      EndSplits(a[1..], b, a[0].at);
    }
  }

  lemma LeadsOn(c: Config, s: State, a: seq<Event>, t: State, b: seq<Event>, u: State, j: nat, k: nat,
                now: int, mid: int, end: int, delay: nat)
    requires s.Valid() && t.Valid() && Leads(c, s, a, t, j, now, mid, delay) && Leads(c, t, b, u, k, mid, end, delay)
    ensures Leads(c, s, a + b, u, j + k, now, end, delay)
  {
    RunSplits(c, s, a, b, true);
    TimelySplits(c, s, a, b, now, delay);
    EndSplits(a, b, now);
    GrantedSplits("a", Run(c, s, a, true).1, Run(c, t, b, true).1);
  }

  lemma SweepLeads(c: Config, s: State, now: int, at: int, delay: nat)
    requires s.Valid() && now <= at
    ensures Leads(c, s, [Sweep(at)], s.(table := Evict(s.table, at)), 0, now, at, delay)
  {
    RunFirst(c, s, Sweep(at), [], true);
    assert [Sweep(at)] + [] == [Sweep(at)] && [Sweep(at)][1..] == [];
  }

  lemma LooksLead(c: Config, s: State, at: int, first: Pid, n: nat, now: int, delay: nat)
    requires s.Valid() && n >= 1 && Free(s, first, n) && now <= at
    ensures var (t, l) := Lookup(c, s.table, "a", at);
      Leads(c, s, Looks("a", at, first, n), State(t, s.held + Holding(Held(l, "a", at), first, n)), 0, now, at, delay)
  {
    LooksRun(c, s, "a", at, first, n);
    LooksTimely(c, s, "a", at, first, n, now, delay);
  }

  lemma AsksLead(c: Config, s: State, h: Held, at: int, first: Pid, n: nat, now: int, delay: nat)
    requires s.Valid() && c.burst >= n >= 1 && h.ip == "a" && h.limiter < |s.table.limiters| && Hold(s, h, first, n)
    requires s.table.limiters[h.limiter] == NewBucket(c, h.since) && h.since <= at && now <= at <= h.since + delay
    ensures var b := Bucket(c.burst as real - n as real, at);
      Leads(c, s, Asks(at, first, n),
            State(s.table.(limiters := s.table.limiters[h.limiter := b]), s.held - Pids(first, n)), n, now, at, delay)
  {
    RefillMonotone(c, 0, at - h.since);
    AsksRun(c, s, h, at, first, n);
    AsksTimely(c, s, h, at, first, n, now, delay);
  }

  const LATER := IDLE + NANOSECOND

  function Fresh(c: Config, n: nat): State {
    State(Table(map["a" := Slot(0, 0)], [NewBucket(c, 0)]), Holding(Held(0, "a", 0), 0, n))
  }

  lemma FirstLooks(c: Config, n: nat, delay: nat)
    requires n >= 1
    ensures Leads(c, EMPTY, Looks("a", 0, 0, n), Fresh(c, n), 0, 0, 0, delay)
  {
    LooksLead(c, EMPTY, 0, 0, n, 0, delay);
    assert EMPTY.held + Holding(Held(0, "a", 0), 0, n) == Holding(Held(0, "a", 0), 0, n);
  }

  /** Five idle minutes after its last lookup the client starts anew. */
  function Again(c: Config, left: Bucket, held: map<Pid, Held>, first: Pid, n: nat): State {
    State(Table(map["a" := Slot(1, LATER)], [left, NewBucket(c, LATER)]), held + Holding(Held(1, "a", LATER), first, n))
  }

  lemma SecondLooks(c: Config, left: Bucket, held: map<Pid, Held>, first: Pid, n: nat, now: int, delay: nat)
    requires n >= 1 && now <= LATER
    requires var s := State(Table(map["a" := Slot(0, 0)], [left]), held); s.Valid() && Free(s, first, n)
    ensures Leads(c, State(Table(map["a" := Slot(0, 0)], [left]), held), [Sweep(LATER)] + Looks("a", LATER, first, n),
                  Again(c, left, held, first, n), 0, now, LATER, delay)
  {
    var s := State(Table(map["a" := Slot(0, 0)], [left]), held);
    var t := State(Table(map[], [left]), held);
    assert Evict(s.table, LATER).clients == map[];
    SweepLeads(c, s, now, LATER, delay);
    LooksLead(c, t, LATER, first, n, LATER, delay);
    LeadsOn(c, s, [Sweep(LATER)], t, Looks("a", LATER, first, n), Again(c, left, held, first, n), 0, 0,
            now, LATER, LATER, delay);
  }

  /** A burst looked up at once and asked `delay` later; then, when its client has
      just been idle long enough to be forgotten, a second burst. */
  lemma EarlyBurst(c: Config, delay: nat) returns (t: State)
    requires c.burst >= 1 && delay <= IDLE
    ensures var n := c.burst;
      Leads(c, Fresh(c, n), Asks(delay, 0, n) + ([Sweep(LATER)] + Looks("a", LATER, n, n)) + Asks(LATER, n, n),
            t, 2 * n, 0, LATER, delay)
  {
    var n := c.burst;
    var drained := Bucket(0.0, delay);
    var s1, s2 := Fresh(c, n), State(Table(map["a" := Slot(0, 0)], [drained]), map[]);
    var s3 := Again(c, drained, map[], n, n);
    AsksLead(c, s1, Held(0, "a", 0), delay, 0, n, 0, delay);
    assert s1.held - Pids(0, n) == map[];
    SecondLooks(c, drained, map[], n, n, delay, delay);
    LeadsOn(c, s1, Asks(delay, 0, n), s2, [Sweep(LATER)] + Looks("a", LATER, n, n), s3, n, 0, 0, delay, LATER, delay);
    AsksLead(c, s3, Held(1, "a", LATER), LATER, n, n, LATER, delay);
    hide Leads, Looks, Asks, Again, Fresh;
    t := State(s3.table.(limiters := s3.table.limiters[1 := Bucket(0.0, LATER)]), s3.held - Pids(n, n));
    LeadsOn(c, s1, Asks(delay, 0, n) + ([Sweep(LATER)] + Looks("a", LATER, n, n)), s3, Asks(LATER, n, n), t, n, n,
            0, LATER, LATER, delay);
  }

  /** When a request may wait longer than a client is remembered: one looks up
      early, its client is forgotten, a burst spends the new bucket, and the early
      request still asks the first. */
  lemma LateQuestion(c: Config, delay: nat) returns (t: State)
    requires c.burst >= 1 && delay > IDLE
    ensures var n, early := c.burst, Looks("a", 0, 0, 1);
      var before := early + ([Sweep(LATER)] + Looks("a", LATER, 1, n));
      && Timely(c, EMPTY, before, 0, delay) && End(before, 0) == LATER
      && Leads(c, Run(c, EMPTY, before, true).0, Asks(LATER, 1, n) + Asks(LATER, 0, 1), t, n + 1, LATER, LATER, delay)
  {
    var n, early := c.burst, Looks("a", 0, 0, 1);
    var s1 := Fresh(c, 1);
    var s2 := Again(c, s1.table.limiters[0], s1.held, 1, n);
    FirstLooks(c, 1, delay);
    SecondLooks(c, s1.table.limiters[0], s1.held, 1, n, 0, delay);
    hide Looks, Asks;
    LeadsOn(c, EMPTY, early, s1, [Sweep(LATER)] + Looks("a", LATER, 1, n), s2, 0, 0, 0, 0, LATER, delay);
    t := LateAnswers(c, delay);
  }

  lemma LateAnswers(c: Config, delay: nat) returns (t: State)
    requires c.burst >= 1 && delay > IDLE
    ensures var s1 := Fresh(c, 1);
      Leads(c, Again(c, s1.table.limiters[0], s1.held, 1, c.burst), Asks(LATER, 1, c.burst) + Asks(LATER, 0, 1),
            t, c.burst + 1, LATER, LATER, delay)
  {
    var n, s1 := c.burst, Fresh(c, 1);
    var s2 := Again(c, s1.table.limiters[0], s1.held, 1, n);
    AsksLead(c, s2, Held(1, "a", LATER), LATER, 1, n, LATER, delay);
    var s3 := State(s2.table.(limiters := s2.table.limiters[1 := Bucket(c.burst as real - n as real, LATER)]),
                    s2.held - Pids(1, n));
    assert 0 in Pids(0, 1) && s3.held[0] == Held(0, "a", 0);
    AsksLead(c, s3, Held(0, "a", 0), LATER, 0, 1, LATER, delay);
    hide Leads, Looks, Asks, Again, Fresh;
    t := State(s3.table.(limiters := s3.table.limiters[0 := Bucket(c.burst as real - 1.0, LATER)]),
               s3.held - Pids(0, 1));
    LeadsOn(c, s2, Asks(LATER, 1, n), s3, Asks(LATER, 0, 1), t, n, 1, LATER, LATER, LATER, delay);
  }

  // --- Exactly when ------------------------------------------------------------------------------

  /** A window that grants more than its allowance. */
  lemma Exceeds(c: Config, before: seq<Event>, window: seq<Event>, delay: nat)
    requires Timely(c, EMPTY, before + window, 0, delay)
    requires var start := WindowStart(before, window, 0);
      Granted("a", Run(c, Run(c, EMPTY, before, true).0, window, true).1) as real
        > Allowance(c, End(window, start) - start)
    ensures !RateBounded(c, delay)
  {
    hide Run, Timely, Granted, Allowance, End;
  }

  lemma NotEnoughShows(c: Config, delay: nat)
    requires !Enough(c, delay)
    ensures !RateBounded(c, delay)
  {
    RefillMonotone(c, IDLE + NANOSECOND - delay, IDLE + NANOSECOND - delay);
    if delay <= IDLE {
      EarlyExceeds(c, delay);
    } else {
      LateExceeds(c, delay);
    }
  }

  lemma EarlyExceeds(c: Config, delay: nat)
    requires !Enough(c, delay) && c.burst >= 1 && delay <= IDLE
    ensures !RateBounded(c, delay)
  {
    var n := c.burst;
    var before := Looks("a", 0, 0, n);
    var window := Asks(delay, 0, n) + ([Sweep(LATER)] + Looks("a", LATER, n, n)) + Asks(LATER, n, n);
    FirstLooks(c, n, delay);
    var t := EarlyBurst(c, delay);
    TimelySplits(c, EMPTY, before, window, 0, delay);
    assert window[0] == Ask(0, delay);
    FromStart(window, 0) by { TimelyOrdered(c, Fresh(c, n), window, 0, delay); }
    Exceeds(c, before, window, delay);
  }

  lemma LateExceeds(c: Config, delay: nat)
    requires c.burst >= 1 && delay > IDLE
    ensures !RateBounded(c, delay)
  {
    var n := c.burst;
    var before := Looks("a", 0, 0, 1) + ([Sweep(LATER)] + Looks("a", LATER, 1, n));
    var window := Asks(LATER, 1, n) + Asks(LATER, 0, 1);
    var t := LateQuestion(c, delay);
    TimelySplits(c, EMPTY, before, window, 0, delay);
    assert window[0] == Ask(1, LATER);
    Exceeds(c, before, window, delay);
  }

  /** Forgetting idle clients is invisible exactly when five idle minutes (plus the
      nanosecond that makes them strictly more), less the longest time a request
      takes from lookup to question, refill a whole burst. */
  lemma EvictionUnobservableIff(c: Config, delay: nat)
    ensures EvictionUnobservable(c, delay) <==> c.burst as real <= c.Refill(IDLE + NANOSECOND - delay)
  {
    hide EvictionUnobservable, RateBounded;
    if Enough(c, delay) {
      EnoughHides(c, delay);
    } else {
      NotEnoughShows(c, delay);
      if EvictionUnobservable(c, delay) {
        HiddenBounds(c, delay);
      }
    }
  }

  /** Every window keeps to its allowance exactly when evictions do not show. */
  lemma RateBoundIff(c: Config, delay: nat)
    ensures RateBounded(c, delay) <==> EvictionUnobservable(c, delay)
  {
    hide EvictionUnobservable, RateBounded;
    EvictionUnobservableIff(c, delay);
    if Enough(c, delay) {
      HiddenBounds(c, delay);
    } else {
      NotEnoughShows(c, delay);
    }
  }

  /** A burst of at most 300 times the rate is enough when questions follow at once. */
  lemma RuleOfThumb(c: Config)
    requires c.burst as real <= 300.0 * c.rps
    ensures EvictionUnobservable(c, 0) && RateBounded(c, 0)
  {
    hide EvictionUnobservable, RateBounded;
    if c.rps > 0.0 {
      RefillMonotone(c, IDLE, IDLE + NANOSECOND);
      assert c.Refill(IDLE) == c.rps * 300.0;
    }
    EvictionUnobservableIff(c, 0);
    RateBoundIff(c, 0);
  }

  /** With the defaults, ten requests a second and a burst of thirty, a request has
      297 seconds. */
  lemma DefaultsIff(delay: nat)
    ensures EvictionUnobservable(Config(10.0, 30), delay) <==> delay <= 297 * SECOND + NANOSECOND
  {
    hide EvictionUnobservable;
    var c := Config(10.0, 30);
    EvictionUnobservableIff(c, delay);
    var d := IDLE + NANOSECOND - delay;
    assert d > 0 ==> c.Refill(d) == 10.0 * (d as real / SECOND as real);
  }
}
