// The hash that assigns a key its shard (internal/middleware/middleware.go).

module ShardHash {
  type Rune = r: int | 0 <= r <= 0x10FFFF

  const TWO63 := 0x8000_0000_0000_0000
  const TWO64 := 0x1_0000_0000_0000_0000

  /** Signed 64-bit wrap-around. */
  function Wrap(x: int): (r: int)
    ensures -TWO63 <= r < TWO63
  {
    (x + TWO63) % TWO64 - TWO63
  }

  /** The remainder of Go: it takes the sign of the dividend. */
  function Rem(a: int, n: int): int
    requires n > 0
  {
    if a >= 0 then a % n else -((-a) % n)
  }

  /** The hash as the loop computes it, wrapping at every step. */
  function Hash(key: seq<Rune>): int {
    if key == [] then 0 else Wrap(Hash(key[..|key| - 1]) * 31 + key[|key| - 1])
  }

  /** The same polynomial over unbounded integers. */
  function Polynomial(key: seq<Rune>): int {
    if key == [] then 0 else Polynomial(key[..|key| - 1]) * 31 + key[|key| - 1]
  }

  function ShardOf(key: seq<Rune>, n: nat): (idx: nat)
    requires n > 0
    ensures idx < n
  {
    var h := Wrap(Polynomial(key));
    (if h < 0 then -h else h) % n
  }

  lemma WrapShift(a: int, b: int)
    requires (a - b) % TWO64 == 0
    ensures Wrap(a) == Wrap(b)
  {
  }

  lemma WrapCongruent(x: int)
    ensures (Wrap(x) - x) % TWO64 == 0
  {
    assert x + TWO63 == TWO64 * ((x + TWO63) / TWO64) + (x + TWO63) % TWO64;
    assert Wrap(x) - x == TWO64 * -((x + TWO63) / TWO64);
  }

  lemma MultipleScales(d: int)
    requires d % TWO64 == 0
    ensures (d * 31) % TWO64 == 0
  {
    assert d == TWO64 * (d / TWO64);
    assert d * 31 == TWO64 * (d / TWO64 * 31);
  }

  /** Wrapping at every step or once at the end gives the same hash. */
  lemma {:induction false} HashWraps(key: seq<Rune>)
    ensures Hash(key) == Wrap(Polynomial(key))
  {
    if key != [] {
      var init, c := key[..|key| - 1], key[|key| - 1];
      HashWraps(init);
      WrapCongruent(Polynomial(init));
      MultipleScales(Wrap(Polynomial(init)) - Polynomial(init));
      WrapShift(Wrap(Polynomial(init)) * 31 + c, Polynomial(init) * 31 + c);
    }
  }

  function Power31(k: nat): nat { if k == 0 then 1 else 31 * Power31(k - 1) }

  /** The hash is positional: what stands before a suffix counts 31 to the length of it. */
  lemma {:induction false} PolynomialAppends(a: seq<Rune>, b: seq<Rune>)
    ensures Polynomial(a + b) == Polynomial(a) * Power31(|b|) + Polynomial(b)
    ensures |b| == 1 ==> Polynomial(b) == b[0]
  {
    if b == [] {
      assert a + b == a;
    } else {
      var init, c := b[..|b| - 1], b[|b| - 1];
      assert (a + b)[..|a + b| - 1] == a + init;
      PolynomialAppends(a, init);
      assert |b| == 1 ==> Polynomial(b[..0]) == 0;
      assert (Polynomial(a) * Power31(|init|)) * 31 == Polynomial(a) * Power31(|b|) by {
        assert Power31(|b|) == 31 * Power31(|init|);
      }
    }
  }

  /** The shard is the remainder of the size of `w`, the one signed 64-bit number congruent to the hash. */
  lemma ShardIs(key: seq<Rune>, n: nat) returns (w: int, k: int)
    requires n > 0
    ensures -TWO63 <= w < TWO63 && Polynomial(key) == w + k * 0x1_0000_0000_0000_0000
    ensures ShardOf(key, n) == (if w < 0 then -w else w) % n
  {
    var x := Polynomial(key);
    w, k := Wrap(x), (x + TWO63) / TWO64;
    assert x + TWO63 == TWO64 * ((x + TWO63) / TWO64) + (x + TWO63) % TWO64;
  }
}
