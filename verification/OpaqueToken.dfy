// internal/token/opaque.go: minting and hashing of opaque tokens.

module OpaqueToken {
  import opened Prelude
  import opened Times

  type Byte = b: int | 0 <= b < 256

  /** SHA-256 is taken to be collision free: a digest is the text it was
      computed from, which nobody but the constructor can produce. */
  datatype Digest = NoDigest | Sha256(raw: string)

  function Hash(raw: string): Digest { Sha256(raw) }

  const DEFAULT_ACCESS_TTL := 15 * MINUTE
  const DEFAULT_REFRESH_TTL := 30 * DAY
  const MAX_SESSION_LIFETIME := 90 * DAY

  const PREFIX_ACCESS := "atk_"
  const PREFIX_REFRESH := "rtk_"
  const PREFIX_JTI := "jti_"

  const TOKEN_BYTES := 32
  const JTI_BYTES := 16

  const HEX_DIGITS := "0123456789abcdef"

  function Hex(bytes: seq<Byte>): (text: string)
    ensures |text| == 2 * |bytes|
  {
    if bytes == [] then []
    else [HEX_DIGITS[bytes[0] / 16], HEX_DIGITS[bytes[0] % 16]] + Hex(bytes[1..])
  }

  lemma HexDigitsDistinct(i: nat, j: nat)
    requires i < 16 && j < 16 && HEX_DIGITS[i] == HEX_DIGITS[j]
    ensures i == j
  {
  }

  lemma {:induction false} HexInjective(a: seq<Byte>, b: seq<Byte>)
    requires Hex(a) == Hex(b)
    ensures a == b
  {
    if a == [] || b == [] {
    } else {
      var ha, hb := Hex(a), Hex(b);
      assert ha[0] == hb[0] && ha[1] == hb[1];
      HexDigitsDistinct(a[0] / 16, b[0] / 16);
      HexDigitsDistinct(a[0] % 16, b[0] % 16);
      assert ha[2..] == Hex(a[1..]) && hb[2..] == Hex(b[1..]);
      HexInjective(a[1..], b[1..]);
      assert a == [a[0]] + a[1..] && b == [b[0]] + b[1..];
    }
  }

  /** Two digits a byte, the higher one first. */
  lemma {:induction false} HexReads(bytes: seq<Byte>, i: nat)
    requires i < |bytes|
    ensures Hex(bytes)[2 * i] == "0123456789abcdef"[bytes[i] / 16]
    ensures Hex(bytes)[2 * i + 1] == "0123456789abcdef"[bytes[i] % 16]
  {
    if i > 0 {
      HexReads(bytes[1..], i - 1);
    }
  }

  function RawToken(prefix: string, entropy: seq<Byte>): string {
    prefix + Hex(entropy)
  }

  /** Tokens of one kind differ when their entropy does, and tokens of two
      kinds always differ, whatever the entropy. */
  lemma TokensDisjoint(p: string, a: seq<Byte>, q: string, b: seq<Byte>)
    requires p in {PREFIX_ACCESS, PREFIX_REFRESH, PREFIX_JTI}
    requires q in {PREFIX_ACCESS, PREFIX_REFRESH, PREFIX_JTI}
    ensures RawToken(p, a) == RawToken(q, b) <==> p == q && a == b
  {
    var x, y := RawToken(p, a), RawToken(q, b);
    if x == y {
      assert x[0] == p[0] && y[0] == q[0];
      assert x[4..] == Hex(a) && y[4..] == Hex(b);
      HexInjective(a, b);
    }
  }

  datatype Token = Token(raw: string, hash: Digest)

  /** rand.Read fills the buffer from a source that may run dry; `source` is
      what it would deliver. */
  method Generate(prefix: string, source: seq<Byte>) returns (r: Option<Token>)
    ensures r.None? <==> |source| < 32
    ensures r.Some? ==> r.value.raw == prefix + Hex(source[..32]) && r.value.hash == Sha256(r.value.raw)
    ensures r.Some? ==> |r.value.raw| == |prefix| + 64
  {
    var b := new Byte[TOKEN_BYTES];
    var i := 0;
    while i < b.Length
      invariant 0 <= i <= b.Length && i <= |source|
      invariant b[..i] == source[..i]
    {
      if i == |source| {
        return None;
      }
      b[i] := source[i];
      i := i + 1;
    }
    assert b[..] == b[..i];
    var raw := RawToken(prefix, b[..]);
    return Some(Token(raw, Hash(raw)));
  }

  method GenerateJTI(source: seq<Byte>) returns (r: Option<string>)
    ensures r.None? <==> |source| < 16
    ensures r.Some? ==> r.value == "jti_" + Hex(source[..16])
  {
    var b := new Byte[JTI_BYTES];
    var i := 0;
    while i < b.Length
      invariant 0 <= i <= b.Length && i <= |source|
      invariant b[..i] == source[..i]
    {
      if i == |source| {
        return None;
      }
      b[i] := source[i];
      i := i + 1;
    }
    assert b[..] == b[..i];
    return Some(RawToken(PREFIX_JTI, b[..]));
  }
}
