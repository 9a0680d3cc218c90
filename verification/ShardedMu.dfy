// shardedMu in internal/middleware/middleware.go: a mutex per shard, made of
// channels that hold one token, and a way to take all of them.

module ShardLocks {
  import opened ShardHash

  // --- Channels that hold one token ------------------------------------------------------

  /** A receive blocks on an empty channel, a send on a full one. */
  function Receive(tokens: seq<bool>, i: nat): (seq<bool>, bool)
    requires i < |tokens|
  {
    if tokens[i] then (tokens[i := false], true) else (tokens, false)
  }

  function Send(tokens: seq<bool>, i: nat): (seq<bool>, bool)
    requires i < |tokens|
  {
    if tokens[i] then (tokens, false) else (tokens[i := true], true)
  }

  /** Shards `lo` to `hi` all set to `b`. */
  function Fill(tokens: seq<bool>, lo: nat, hi: nat, b: bool): seq<bool>
    requires lo <= hi <= |tokens|
  {
    tokens[..lo] + seq(hi - lo, i => b) + tokens[hi..]
  }

  // --- The protocol ------------------------------------------------------------------------

  /** Where a goroutine stands: a request locks one shard, a sweep all of them in order. */
  datatype Pc =
    | Away
    | Waiting(key: seq<Rune>)
    | Inside(key: seq<Rune>)
    | Locking(next: nat)      // has the shards before `next`
    | Sweeping
    | Unlocking(next: nat)    // still has the shards from `next` on

  datatype State = State(tokens: seq<bool>, procs: seq<Pc>)

  datatype Event = Begin(pid: nat, key: seq<Rune>) | BeginAll(pid: nat) | Act(pid: nat)

  function Init(n: nat, procs: nat): State {
    State(seq(n, i => true), seq(procs, i => Away))
  }

  /** One step of a goroutine that is on its way; a blocked one stays where it is. */
  function Next(tokens: seq<bool>, pc: Pc): (seq<bool>, Pc)
    requires |tokens| > 0
  {
    match pc
    case Away => (tokens, pc)
    case Waiting(key) =>
      var (t, ok) := Receive(tokens, ShardOf(key, |tokens|));
      (t, if ok then Inside(key) else pc)
    case Inside(key) =>
      var (t, ok) := Send(tokens, ShardOf(key, |tokens|));
      (t, if ok then Away else pc)
    case Locking(i) =>
      if i >= |tokens| then (tokens, Sweeping)
      else
        var (t, ok) := Receive(tokens, i);
        (t, if ok then Locking(i + 1) else pc)
    case Sweeping => (tokens, Unlocking(0))
    case Unlocking(i) =>
      if i >= |tokens| then (tokens, Away)
      else
        var (t, ok) := Send(tokens, i);
        (t, if ok then Unlocking(i + 1) else pc)
  }

  /** `k` steps of one goroutine while no other moves. */
  function Times(tokens: seq<bool>, pc: Pc, k: nat): (r: (seq<bool>, Pc))
    requires |tokens| > 0
    ensures |r.0| == |tokens|
  {
    if k == 0 then (tokens, pc) else var (t, pc2) := Times(tokens, pc, k - 1); Next(t, pc2)
  }

  /** Taking the tokens one by one from `lo` while they are there. */
  lemma {:induction false} LockingSteps(tokens: seq<bool>, lo: nat, hi: nat)
    requires lo <= hi <= |tokens| && |tokens| > 0 && forall i :: lo <= i < hi ==> tokens[i]
    ensures Times(tokens, Locking(lo), hi - lo) == (Fill(tokens, lo, hi, false), Locking(hi))
  {
    if lo < hi {
      LockingSteps(tokens, lo, hi - 1);
      assert Fill(tokens, lo, hi - 1, false)[hi - 1 := false] == Fill(tokens, lo, hi, false);
    } else {
      assert Fill(tokens, lo, hi, false) == tokens;
    }
  }

  lemma {:induction false} UnlockingSteps(tokens: seq<bool>, lo: nat, hi: nat)
    requires lo <= hi <= |tokens| && |tokens| > 0 && forall i :: lo <= i < hi ==> !tokens[i]
    ensures Times(tokens, Unlocking(lo), hi - lo) == (Fill(tokens, lo, hi, true), Unlocking(hi))
  {
    if lo < hi {
      UnlockingSteps(tokens, lo, hi - 1);
      assert Fill(tokens, lo, hi - 1, true)[hi - 1 := true] == Fill(tokens, lo, hi, true);
    } else {
      assert Fill(tokens, lo, hi, true) == tokens;
    }
  }

  // --- The mutex ---------------------------------------------------------------------------

  class ShardedMu {
    const shards: array<bool>
    const n: nat

    ghost predicate Valid() { n > 0 && shards.Length == n }

    constructor (count: nat)
      requires count > 0
      ensures Valid() && n == count && fresh(shards)
      ensures shards[..] == seq(count, i => true)
    {
      shards := new bool[count](i => true);
      n := count;
    }

    method Shard(key: seq<Rune>) returns (idx: nat)
      requires Valid()
      ensures idx == ShardOf(key, n)
    {
      var h := 0;
      for i := 0 to |key|
        invariant h == Hash(key[..i])
      {
        assert key[..i + 1][..i] == key[..i];
        h := Wrap(h * 31 + key[i]);
      }
      assert key[..|key|] == key;
      HashWraps(key);
      var r := Rem(h, n);
      idx := if r < 0 then -r else r;
    }

    /** False while the caller has to wait. */
    method Lock(key: seq<Rune>) returns (entered: bool)
      requires Valid()
      modifies shards
      ensures (shards[..], entered) == Receive(old(shards[..]), ShardOf(key, n))
    {
      var i := Shard(key);
      entered := shards[i];
      if entered {
        shards[i] := false;
        assert shards[..] == old(shards[..])[i := false];
      }
    }

    method Unlock(key: seq<Rune>) returns (sent: bool)
      requires Valid()
      modifies shards
      ensures (shards[..], sent) == Send(old(shards[..]), ShardOf(key, n))
    {
      var i := Shard(key);
      sent := !shards[i];
      if sent {
        shards[i] := true;
        assert shards[..] == old(shards[..])[i := true];
      }
    }

    /** Takes the tokens in order, from where it last had to wait: the steps of a
        sweep on its way in, up to the first that blocks. */
    method LockAll(first: nat) returns (next: nat)
      requires Valid() && first <= n
      modifies shards
      ensures first <= next <= n
      ensures forall i :: first <= i < next ==> old(shards[i])
      ensures shards[..] == Fill(old(shards[..]), first, next, false)
      ensures next < n ==> !shards[next]
      ensures (shards[..], Locking(next)) == Times(old(shards[..]), Locking(first), next - first)
    {
      next := first;
      while next < n && shards[next]
        invariant first <= next <= n
        invariant forall i :: first <= i < next ==> old(shards[i]) && !shards[i]
        invariant forall i :: 0 <= i < n && !(first <= i < next) ==> shards[i] == old(shards[i])
      {
        shards[next] := false;
        next := next + 1;
      }
      assert shards[..] == Fill(old(shards[..]), first, next, false);
      LockingSteps(old(shards[..]), first, next);
    }

    /** Returns the tokens in order: the steps of a sweep on its way out. */
    method UnlockAll(first: nat) returns (next: nat)
      requires Valid() && first <= n
      modifies shards
      ensures first <= next <= n
      ensures forall i :: first <= i < next ==> !old(shards[i])
      ensures shards[..] == Fill(old(shards[..]), first, next, true)
      ensures next < n ==> shards[next]
      ensures (shards[..], Unlocking(next)) == Times(old(shards[..]), Unlocking(first), next - first)
    {
      next := first;
      while next < n && !shards[next]
        invariant first <= next <= n
        invariant forall i :: first <= i < next ==> !old(shards[i]) && shards[i]
        invariant forall i :: 0 <= i < n && !(first <= i < next) ==> shards[i] == old(shards[i])
      {
        shards[next] := true;
        next := next + 1;
      }
      assert shards[..] == Fill(old(shards[..]), first, next, true);
      UnlockingSteps(old(shards[..]), first, next);
    }
  }

  // --- Runs -----------------------------------------------------------------------------------

  function Step(s: State, e: Event): State
    requires |s.tokens| > 0
  {
    if e.pid >= |s.procs| then s
    else match e
      case Begin(p, key) => if s.procs[p].Away? then s.(procs := s.procs[p := Waiting(key)]) else s
      case BeginAll(p) => if s.procs[p].Away? then s.(procs := s.procs[p := Locking(0)]) else s
      case Act(p) =>
        var (t, pc) := Next(s.tokens, s.procs[p]);
        State(t, s.procs[p := pc])
  }

  function Run(s: State, es: seq<Event>): (t: State)
    requires |s.tokens| > 0
    ensures |t.tokens| == |s.tokens| && |t.procs| == |s.procs|
  {
    if es == [] then s else Step(Run(s, es[..|es| - 1]), es[|es| - 1])
  }

  /** `k` steps of goroutine `p` in a row. */
  function Alone(p: nat, k: nat): seq<Event> { seq(k, i => Act(p)) }

  lemma {:induction false} RunAlone(s: State, p: nat, k: nat)
    requires |s.tokens| > 0 && p < |s.procs|
    ensures var (t, pc) := Times(s.tokens, s.procs[p], k);
      Run(s, Alone(p, k)) == State(t, s.procs[p := pc])
  {
    if k == 0 {
      assert s.procs[p := s.procs[p]] == s.procs;
    } else {
      RunAlone(s, p, k - 1);
      assert Alone(p, k)[..k - 1] == Alone(p, k - 1);
    }
  }

  // --- Who holds what ------------------------------------------------------------------------

  predicate Holds(pc: Pc, i: nat, n: nat)
    requires n > 0
  {
    match pc
    case Inside(key) => i == ShardOf(key, n)
    case Locking(next) => i < next
    case Sweeping => true
    case Unlocking(next) => i >= next
    case _ => false
  }

  /** Each shard has its token or exactly one holder. */
  ghost predicate Inv(s: State) {
    && |s.tokens| > 0
    && (forall p, i :: 0 <= p < |s.procs| && 0 <= i < |s.tokens| && Holds(s.procs[p], i, |s.tokens|) ==> !s.tokens[i])
    && (forall i :: 0 <= i < |s.tokens| && !s.tokens[i] ==>
          exists p :: 0 <= p < |s.procs| && Holds(s.procs[p], i, |s.tokens|))
    && (forall p, q, i ::
          (0 <= p < |s.procs| && 0 <= q < |s.procs| && 0 <= i < |s.tokens|
           && Holds(s.procs[p], i, |s.tokens|) && Holds(s.procs[q], i, |s.tokens|)) ==> p == q)
  }

  /** What one step of a goroutine does to a shard's token follows what it does to its holding. */
  lemma NextBalances(tokens: seq<bool>, pc: Pc, i: nat)
    requires i < |tokens|
    requires forall j :: 0 <= j < |tokens| && Holds(pc, j, |tokens|) ==> !tokens[j]
    ensures var (t, pc2) := Next(tokens, pc);
      && |t| == |tokens|
      && (Holds(pc2, i, |t|) && !Holds(pc, i, |t|) ==> tokens[i] && !t[i])
      && (!Holds(pc2, i, |t|) && Holds(pc, i, |t|) ==> !tokens[i] && t[i])
      && ((Holds(pc2, i, |t|) <==> Holds(pc, i, |t|)) ==> t[i] == tokens[i])
  {
  }

  lemma StepKeeps(s: State, e: Event)
    requires Inv(s)
    ensures Inv(Step(s, e))
  {
    if e.pid < |s.procs| {
      var p, n := e.pid, |s.tokens|;
      var s2 := Step(s, e);
      if e.Act? {
        forall i | 0 <= i < n
          ensures Holds(s2.procs[p], i, n) && !Holds(s.procs[p], i, n) ==> s.tokens[i] && !s2.tokens[i]
          ensures !Holds(s2.procs[p], i, n) && Holds(s.procs[p], i, n) ==> !s.tokens[i] && s2.tokens[i]
          ensures (Holds(s2.procs[p], i, n) <==> Holds(s.procs[p], i, n)) ==> s2.tokens[i] == s.tokens[i]
        {
          NextBalances(s.tokens, s.procs[p], i);
        }
      }
      hide Next, Holds;
      HoldersFollow(s, s2, p);
    }
  }

  lemma HoldersFollow(s: State, s2: State, p: nat)
    requires Inv(s) && p < |s.procs| && |s2.tokens| == |s.tokens| && |s2.procs| == |s.procs|
    requires forall q :: 0 <= q < |s.procs| && q != p ==> s2.procs[q] == s.procs[q]
    requires forall i :: 0 <= i < |s.tokens| ==>
      var n := |s.tokens|;
      && (Holds(s2.procs[p], i, n) && !Holds(s.procs[p], i, n) ==> s.tokens[i] && !s2.tokens[i])
      && (!Holds(s2.procs[p], i, n) && Holds(s.procs[p], i, n) ==> !s.tokens[i] && s2.tokens[i])
      && ((Holds(s2.procs[p], i, n) <==> Holds(s.procs[p], i, n)) ==> s2.tokens[i] == s.tokens[i])
    ensures Inv(s2)
  {
    hide Holds;
  }

  lemma {:induction false} Reachable(n: nat, procs: nat, es: seq<Event>)
    requires n > 0
    ensures Inv(Run(Init(n, procs), es))
  {
    hide Step;
    if es == [] {
    } else {
      Reachable(n, procs, es[..|es| - 1]);
      StepKeeps(Run(Init(n, procs), es[..|es| - 1]), es[|es| - 1]);
    }
  }

  // --- Safety --------------------------------------------------------------------------------

  /** Two goroutines are inside at once only with keys of different shards. */
  lemma SameShardExcludes(n: nat, procs: nat, es: seq<Event>, p: nat, q: nat)
    requires n > 0 && p < procs && q < procs && p != q
    ensures var s := Run(Init(n, procs), es);
      s.procs[p].Inside? && s.procs[q].Inside? ==> ShardOf(s.procs[p].key, n) != ShardOf(s.procs[q].key, n)
  {
    hide Run;
    Reachable(n, procs, es);
    var s := Run(Init(n, procs), es);
    if s.procs[p].Inside? && s.procs[q].Inside? {
      assert Holds(s.procs[p], ShardOf(s.procs[p].key, n), n);
      assert Holds(s.procs[q], ShardOf(s.procs[q].key, n), n) ==>
        ShardOf(s.procs[p].key, n) != ShardOf(s.procs[q].key, n);
    }
  }

  /** A sweep has the table to itself: no request is inside and no other sweep runs. */
  lemma SweepExcludes(n: nat, procs: nat, es: seq<Event>, p: nat, q: nat)
    requires n > 0 && p < procs && q < procs && p != q
    ensures var s := Run(Init(n, procs), es);
      s.procs[p].Sweeping? ==> !s.procs[q].Inside? && !s.procs[q].Sweeping?
  {
    hide Run;
    Reachable(n, procs, es);
    var s := Run(Init(n, procs), es);
    if s.procs[p].Sweeping? {
      var i := if s.procs[q].Inside? then ShardOf(s.procs[q].key, n) else 0;
      assert Holds(s.procs[p], i, n);
      assert Holds(s.procs[q], i, n) ==> p == q;
    }
  }

  lemma Extend(n: nat, procs: nat, es: seq<Event>, e: Event)
    requires n > 0
    ensures Run(Init(n, procs), es + [e]) == Step(Run(Init(n, procs), es), e)
  {
    assert (es + [e])[..|es|] == es;
  }

  /** With keys of different shards, two requests do get inside together. */
  lemma Together(n: nat, a: seq<Rune>, b: seq<Rune>) returns (es: seq<Event>)
    requires n > 0 && ShardOf(a, n) != ShardOf(b, n)
    ensures Run(Init(n, 2), es).procs == [Inside(a), Inside(b)]
  {
    var s0 := Init(n, 2);
    assert Run(s0, []) == s0;
    hide Run, ShardOf;
    Extend(n, 2, [], Begin(0, a));
    assert Run(s0, [] + [Begin(0, a)]).procs == [Waiting(a), Away];
    es := [] + [Begin(0, a)];
    Extend(n, 2, es, Act(0));
    assert Run(s0, es + [Act(0)]) == State(s0.tokens[ShardOf(a, n) := false], [Inside(a), Away]);
    es := es + [Act(0)];
    Extend(n, 2, es, Begin(1, b));
    assert Run(s0, es + [Begin(1, b)]) == State(s0.tokens[ShardOf(a, n) := false], [Inside(a), Waiting(b)]);
    es := es + [Begin(1, b)];
    Extend(n, 2, es, Act(1));
    es := es + [Act(1)];
    hide Init;
  }

  /** The locks do not make the table as a whole exclusive: two requests can be
      inside together exactly when their keys fall in different shards. */
  lemma TogetherIff(n: nat, a: seq<Rune>, b: seq<Rune>)
    requires n > 0
    ensures (exists es :: Run(Init(n, 2), es).procs == [Inside(a), Inside(b)]) <==> ShardOf(a, n) != ShardOf(b, n)
  {
    hide Run, ShardOf;
    if ShardOf(a, n) != ShardOf(b, n) {
      var es := Together(n, a, b);
    } else {
      forall es ensures Run(Init(n, 2), es).procs != [Inside(a), Inside(b)] {
        SameShardExcludes(n, 2, es, 0, 1);
      }
    }
  }

  // --- Liveness ------------------------------------------------------------------------------

  predicate CanMove(s: State, p: nat)
    requires |s.tokens| > 0 && p < |s.procs|
  {
    Next(s.tokens, s.procs[p]).1 != s.procs[p]
  }

  /** Returning a token never blocks. */
  lemma LeavingMoves(s: State, p: nat)
    requires Inv(s) && p < |s.procs|
    requires s.procs[p].Inside? || s.procs[p].Sweeping? || s.procs[p].Unlocking?
    ensures CanMove(s, p)
  {
    var n := |s.tokens|;
    match s.procs[p]
    case Inside(key) => assert Holds(s.procs[p], ShardOf(key, n), n);
    case Unlocking(i) => assert i < n ==> Holds(s.procs[p], i, n);
    case Sweeping =>
  }

  /** In no run does a goroutine that leaves have to wait: a request finds its
      channel empty, and a sweep finds all that it still holds empty. */
  lemma ReturnsNeverBlock(n: nat, procs: nat, es: seq<Event>, p: nat)
    requires n > 0 && p < procs
    ensures var s := Run(Init(n, procs), es);
      && (s.procs[p].Inside? ==> Send(s.tokens, ShardOf(s.procs[p].key, n)).1)
      && (s.procs[p].Unlocking? ==> forall i :: s.procs[p].next <= i < n ==> Send(s.tokens, i).1)
  {
    hide Run, ShardOf;
    Reachable(n, procs, es);
    var s := Run(Init(n, procs), es);
    if s.procs[p].Inside? {
      assert Holds(s.procs[p], ShardOf(s.procs[p].key, n), n);
    } else if s.procs[p].Unlocking? {
      assert forall i :: s.procs[p].next <= i < n ==> Holds(s.procs[p], i, n);
    }
  }

  /** A sweep that is inside leaves without waiting once: from every reachable
      state its next `n + 2` steps return every token and take it away, whatever
      the others hold. */
  lemma SweepLeaves(n: nat, procs: nat, es: seq<Event>, p: nat)
    requires n > 0 && p < procs && Run(Init(n, procs), es).procs[p].Sweeping?
    ensures var s := Run(Init(n, procs), es);
      Run(s, Alone(p, n + 2)) == State(seq(n, i => true), s.procs[p := Away])
  {
    hide Run;
    Reachable(n, procs, es);
    var s := Run(Init(n, procs), es);
    assert forall i :: 0 <= i < n ==> Holds(s.procs[p], i, n);
    SweepTimes(s.tokens);
    RunAlone(s, p, n + 2);
  }

  lemma SweepTimes(tokens: seq<bool>)
    requires |tokens| > 0 && forall i :: 0 <= i < |tokens| ==> !tokens[i]
    ensures Times(tokens, Sweeping, |tokens| + 2) == (seq(|tokens|, i => true), Away)
  {
    var n := |tokens|;
    UnlockingSteps(tokens, 0, n);
    StartFirst(tokens, Sweeping, n);
    assert Fill(tokens, 0, n, true) == seq(n, i => true);
  }

  /** The first step may be taken apart. */
  lemma {:induction false} StartFirst(tokens: seq<bool>, pc: Pc, k: nat)
    requires |tokens| > 0
    ensures Times(tokens, pc, k + 1) == Times(Next(tokens, pc).0, Next(tokens, pc).1, k)
  {
    hide Next;
    if k > 0 {
      StartFirst(tokens, pc, k - 1);
    } else {
      assert Times(tokens, pc, 0) == (tokens, pc);
    }
  }

  predicate Leaving(pc: Pc) { pc.Inside? || pc.Sweeping? || pc.Unlocking? }

  /** The sweep that has come furthest, if there is one. */
  lemma {:induction false} Furthest(procs: seq<Pc>, k: nat) returns (p: nat)
    requires k <= |procs| && exists q :: 0 <= q < k && procs[q].Locking?
    ensures p < k && procs[p].Locking?
    ensures forall q :: 0 <= q < k && procs[q].Locking? ==> procs[q].next <= procs[p].next
  {
    if exists q :: 0 <= q < k - 1 && procs[q].Locking? {
      p := Furthest(procs, k - 1);
      if procs[k - 1].Locking? && procs[k - 1].next > procs[p].next {
        p := k - 1;
      }
    } else {
      p := k - 1;
    }
  }

  /** No deadlock: as long as some goroutine is on its way, some goroutine can move. */
  lemma NoDeadlock(n: nat, procs: nat, es: seq<Event>)
    requires n > 0
    ensures var s := Run(Init(n, procs), es);
      (exists p :: 0 <= p < procs && !s.procs[p].Away?) ==> exists p :: 0 <= p < procs && CanMove(s, p)
  {
    hide Run;
    Reachable(n, procs, es);
    var s := Run(Init(n, procs), es);
    if p :| 0 <= p < procs && !s.procs[p].Away? {
      if l :| 0 <= l < procs && Leaving(s.procs[l]) {
        LeavingMoves(s, l);
      } else if exists q :: 0 <= q < procs && s.procs[q].Locking? {
        var f := Furthest(s.procs, procs);
        FurthestMoves(s, f);
      } else {
        WaitingMoves(s, p);
      }
    }
  }

  lemma FurthestMoves(s: State, f: nat)
    requires Inv(s) && f < |s.procs| && s.procs[f].Locking?
    requires forall q :: 0 <= q < |s.procs| ==> !Leaving(s.procs[q])
    requires forall q :: 0 <= q < |s.procs| && s.procs[q].Locking? ==> s.procs[q].next <= s.procs[f].next
    ensures CanMove(s, f)
  {
    var i, n := s.procs[f].next, |s.tokens|;
    assert i < n ==> forall h :: 0 <= h < |s.procs| ==> !Holds(s.procs[h], i, n);
  }

  lemma WaitingMoves(s: State, p: nat)
    requires Inv(s) && p < |s.procs| && s.procs[p].Waiting?
    requires forall q :: 0 <= q < |s.procs| ==> !Leaving(s.procs[q]) && !s.procs[q].Locking?
    ensures CanMove(s, p)
  {
    var i, n := ShardOf(s.procs[p].key, |s.tokens|), |s.tokens|;
    assert forall h :: 0 <= h < |s.procs| ==> !Holds(s.procs[h], i, n);
  }

  /** Steps a goroutine still has to take. */
  function Left(pc: Pc, n: nat): nat {
    match pc
    case Away => 0
    case Waiting(_) => 2
    case Inside(_) => 1
    case Locking(i) => (if i < n then n - i else 0) + n + 3
    case Sweeping => n + 2
    case Unlocking(i) => (if i < n then n - i else 0) + 1
  }

  function AllLeft(procs: seq<Pc>, n: nat): nat {
    if procs == [] then 0 else AllLeft(procs[..|procs| - 1], n) + Left(procs[|procs| - 1], n)
  }

  lemma {:induction false} LeftUpdate(procs: seq<Pc>, n: nat, p: nat, pc: Pc)
    requires p < |procs|
    ensures AllLeft(procs[p := pc], n) == AllLeft(procs, n) - Left(procs[p], n) + Left(pc, n)
  {
    var k := |procs| - 1;
    if p < k {
      assert procs[p := pc][..k] == procs[..k][p := pc];
      LeftUpdate(procs[..k], n, p, pc);
    } else {
      assert procs[p := pc][..k] == procs[..k];
    }
  }

  /** Every step that moves brings the end nearer: without new requests all
      goroutines are away after at most `AllLeft` steps. */
  lemma MovesEnd(s: State, p: nat)
    requires |s.tokens| > 0 && p < |s.procs| && CanMove(s, p)
    ensures AllLeft(Step(s, Act(p)).procs, |s.tokens|) < AllLeft(s.procs, |s.tokens|)
  {
    LeftUpdate(s.procs, |s.tokens|, p, Next(s.tokens, s.procs[p]).1);
  }

  predicate Quiet(s: State) { forall p :: 0 <= p < |s.procs| ==> s.procs[p].Away? }

  lemma Mover(n: nat, procs: nat, es: seq<Event>) returns (p: nat)
    requires n > 0 && !Quiet(Run(Init(n, procs), es))
    ensures p < procs && CanMove(Run(Init(n, procs), es), p)
  {
    hide Run, CanMove;
    NoDeadlock(n, procs, es);
    p :| p < procs && CanMove(Run(Init(n, procs), es), p);
  }

  /** From every reachable state there is a way to let everybody finish, and
      then every shard has its token back. */
  lemma {:induction false} Drains(n: nat, procs: nat, es: seq<Event>) returns (more: seq<Event>)
    requires n > 0
    ensures forall e :: e in more ==> e.Act?
    ensures |more| <= AllLeft(Run(Init(n, procs), es).procs, n)
    ensures var s := Run(Init(n, procs), es + more); Quiet(s) && s.tokens == Init(n, procs).tokens
    decreases AllLeft(Run(Init(n, procs), es).procs, n)
  {
    hide Run, Step, Holds, Next, CanMove, Quiet, AllLeft;
    var s := Run(Init(n, procs), es);
    if Quiet(s) {
      more := [];
      assert es + more == es;
      Reachable(n, procs, es);
      QuietTokens(s);
    } else {
      var p := Mover(n, procs, es);
      MovesEnd(s, p);
      Extend(n, procs, es, Act(p));
      var rest := Drains(n, procs, es + [Act(p)]);
      more := [Act(p)] + rest;
      assert es + more == es + [Act(p)] + rest;
    }
  }

  lemma QuietTokens(s: State)
    requires Inv(s) && Quiet(s)
    ensures s.tokens == seq(|s.tokens|, i => true)
  {
    forall i | 0 <= i < |s.tokens| ensures s.tokens[i] {
      assert forall h :: 0 <= h < |s.procs| ==> !Holds(s.procs[h], i, |s.tokens|);
    }
  }
}
