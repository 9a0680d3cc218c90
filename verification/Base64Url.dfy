// base64.RawURLEncoding (section 5 of RFC 4648, without padding), as
// internal/vault/transit.go uses it.

module Base64Url {
  import opened Prelude
  import opened OpaqueToken

  type Sextet = n: int | 0 <= n < 64

  function Symbol(n: Sextet): Byte {
    if n < 26 then 65 + n
    else if n < 52 then 97 + (n - 26)
    else if n < 62 then 48 + (n - 52)
    else if n == 62 then 45
    else 95
  }

  function Value(c: Byte): Option<Sextet> {
    if 65 <= c <= 90 then Some(c - 65)
    else if 97 <= c <= 122 then Some(c - 97 + 26)
    else if 48 <= c <= 57 then Some(c - 48 + 52)
    else if c == 45 then Some(62)
    else if c == 95 then Some(63)
    else None
  }

  lemma ValueOfSymbol(n: Sextet)
    ensures Value(Symbol(n)) == Some(n)
  {
  }

  function Encode(b: seq<Byte>): seq<Byte> {
    if |b| == 0 then []
    else if |b| == 1 then [Symbol(b[0] / 4), Symbol(b[0] % 4 * 16)]
    else if |b| == 2 then [Symbol(b[0] / 4), Symbol(b[0] % 4 * 16 + b[1] / 16), Symbol(b[1] % 16 * 4)]
    else [Symbol(b[0] / 4), Symbol(b[0] % 4 * 16 + b[1] / 16), Symbol(b[1] % 16 * 4 + b[2] / 64), Symbol(b[2] % 64)]
         + Encode(b[3..])
  }

  /** Line breaks are skipped wherever they stand. */
  function Stripped(s: seq<Byte>): seq<Byte> {
    if s == [] then []
    else (if s[0] == 10 || s[0] == 13 then [] else [s[0]]) + Stripped(s[1..])
  }

  function Values(s: seq<Byte>): Option<seq<Sextet>> {
    if s == [] then Some([])
    else
      var v := Value(s[0]);
      var rest := Values(s[1..]);
      if v.None? || rest.None? then None else Some([v.value] + rest.value)
  }

  function Byte0(x: int, y: int): int { x * 4 + y / 16 }

  function Byte1(y: int, z: int): int { y % 16 * 16 + z / 4 }

  function Byte2(z: int, w: int): int { z % 4 * 64 + w }

  /** The bits of a last, incomplete group that do not make a byte are ignored. */
  function Bytes(v: seq<Sextet>): Option<seq<Byte>> {
    if |v| == 0 then Some([])
    else if |v| == 1 then None
    else if |v| == 2 then Some([Byte0(v[0], v[1])])
    else if |v| == 3 then Some([Byte0(v[0], v[1]), Byte1(v[1], v[2])])
    else
      var rest := Bytes(v[4..]);
      if rest.None? then None
      else Some([Byte0(v[0], v[1]), Byte1(v[1], v[2]), Byte2(v[2], v[3])] + rest.value)
  }

  function Decode(s: seq<Byte>): Option<seq<Byte>> {
    var v := Values(Stripped(s));
    if v.None? then None else Bytes(v.value)
  }

  function Sextets(b: seq<Byte>): seq<Sextet> {
    if |b| == 0 then []
    else if |b| == 1 then [b[0] / 4, b[0] % 4 * 16]
    else if |b| == 2 then [b[0] / 4, b[0] % 4 * 16 + b[1] / 16, b[1] % 16 * 4]
    else [b[0] / 4, b[0] % 4 * 16 + b[1] / 16, b[1] % 16 * 4 + b[2] / 64, b[2] % 64] + Sextets(b[3..])
  }

  lemma Regroup(a: seq<Sextet>, b: seq<Sextet>, c: seq<Sextet>)
    ensures a + (b + c) == a + b + c
  {
  }

  lemma {:induction false} ValuesAppend(a: seq<Byte>, b: seq<Byte>)
    requires Values(a).Some? && Values(b).Some?
    ensures Values(a + b) == Some(Values(a).value + Values(b).value)
  {
    if a == [] {
      assert a + b == b;
      assert [] + Values(b).value == Values(b).value;
    } else {
      assert (a + b)[1..] == a[1..] + b;
      ValuesAppend(a[1..], b);
      Regroup([Value(a[0]).value], Values(a[1..]).value, Values(b).value);
    }
  }

  lemma Values1(x: Sextet)
    ensures Values([Symbol(x)]) == Some([x])
  {
    ValueOfSymbol(x);
    hide Value, Symbol;
    assert [Symbol(x)][1..] == [];
    assert [x] + [] == [x];
  }

  lemma Values2(x: Sextet, y: Sextet)
    ensures Values([Symbol(x), Symbol(y)]) == Some([x, y])
  {
    Values1(y);
    ValueOfSymbol(x);
    hide Value, Symbol;
    assert [Symbol(x), Symbol(y)][1..] == [Symbol(y)];
    assert [x] + [y] == [x, y];
  }

  lemma Values3(x: Sextet, y: Sextet, z: Sextet)
    ensures Values([Symbol(x), Symbol(y), Symbol(z)]) == Some([x, y, z])
  {
    Values2(y, z);
    ValueOfSymbol(x);
    hide Value, Symbol;
    assert [Symbol(x), Symbol(y), Symbol(z)][1..] == [Symbol(y), Symbol(z)];
    assert [x] + [y, z] == [x, y, z];
  }

  lemma Values4(x: Sextet, y: Sextet, z: Sextet, w: Sextet)
    ensures Values([Symbol(x), Symbol(y), Symbol(z), Symbol(w)]) == Some([x, y, z, w])
  {
    Values3(y, z, w);
    ValueOfSymbol(x);
    hide Value, Symbol;
    assert [Symbol(x), Symbol(y), Symbol(z), Symbol(w)][1..] == [Symbol(y), Symbol(z), Symbol(w)];
    assert [x] + [y, z, w] == [x, y, z, w];
  }

  lemma {:induction false} EncodeValues(b: seq<Byte>)
    ensures Values(Encode(b)) == Some(Sextets(b))
  {
    hide Symbol, Value;
    if |b| == 0 {
    } else if |b| == 1 {
      Values2(b[0] / 4, b[0] % 4 * 16);
    } else if |b| == 2 {
      Values3(b[0] / 4, b[0] % 4 * 16 + b[1] / 16, b[1] % 16 * 4);
    } else {
      Values4(b[0] / 4, b[0] % 4 * 16 + b[1] / 16, b[1] % 16 * 4 + b[2] / 64, b[2] % 64);
      EncodeValues(b[3..]);
      hide Values;
      ValuesAppend([Symbol(b[0] / 4), Symbol(b[0] % 4 * 16 + b[1] / 16), Symbol(b[1] % 16 * 4 + b[2] / 64),
                    Symbol(b[2] % 64)],
                   Encode(b[3..]));
    }
  }

  lemma GroupBytes(b0: Byte, b1: Byte, b2: Byte)
    ensures Byte0(b0 / 4, b0 % 4 * 16 + b1 / 16) == b0
    ensures Byte1(b0 % 4 * 16 + b1 / 16, b1 % 16 * 4 + b2 / 64) == b1
    ensures Byte2(b1 % 16 * 4 + b2 / 64, b2 % 64) == b2
  {
  }

  lemma ShortGroups(b0: Byte, b1: Byte)
    ensures Byte0(b0 / 4, b0 % 4 * 16) == b0
    ensures Byte1(b0 % 4 * 16 + b1 / 16, b1 % 16 * 4) == b1
  {
  }

  lemma FullGroup(v: seq<Sextet>, b0: Byte, b1: Byte, b2: Byte, more: seq<Byte>)
    requires |v| >= 4 && Byte0(v[0], v[1]) == b0 && Byte1(v[1], v[2]) == b1 && Byte2(v[2], v[3]) == b2
    requires Bytes(v[4..]) == Some(more)
    ensures Bytes(v) == Some([b0, b1, b2] + more)
  {
    hide Byte0, Byte1, Byte2;
  }

  lemma {:induction false} BytesOfSextets(b: seq<Byte>)
    ensures Bytes(Sextets(b)) == Some(b)
  {
    hide Byte0, Byte1, Byte2;
    if |b| == 0 {
    } else if |b| == 1 {
      ShortGroups(b[0], 0);
      assert b == [b[0]];
    } else if |b| == 2 {
      GroupBytes(b[0], b[1], 0);
      ShortGroups(b[0], b[1]);
      assert b == [b[0], b[1]];
    } else {
      BytesOfSextets(b[3..]);
      var v := Sextets(b);
      assert v[4..] == Sextets(b[3..]);
      hide Bytes;
      GroupBytes(b[0], b[1], b[2]);
      FullGroup(v, b[0], b[1], b[2], b[3..]);
      assert b == [b[0], b[1], b[2]] + b[3..];
    }
  }

  lemma {:induction false} NothingToStrip(s: seq<Byte>)
    requires forall c :: c in s ==> c != 10 && c != 13
    ensures Stripped(s) == s
  {
    if s != [] {
      assert forall c :: c in s[1..] ==> c in s;
      NothingToStrip(s[1..]);
      assert s[0] in s;
      assert s == [s[0]] + s[1..];
    }
  }

  lemma {:induction false} EncodedSymbols(b: seq<Byte>, c: Byte)
    requires c in Encode(b)
    ensures Value(c).Some?
  {
    hide Value, Symbol;
    if |b| == 0 {
    } else if |b| == 1 {
      ValueOfSymbol(b[0] / 4);
      ValueOfSymbol(b[0] % 4 * 16);
    } else if |b| == 2 {
      ValueOfSymbol(b[0] / 4);
      ValueOfSymbol(b[0] % 4 * 16 + b[1] / 16);
      ValueOfSymbol(b[1] % 16 * 4);
    } else {
      ValueOfSymbol(b[0] / 4);
      ValueOfSymbol(b[0] % 4 * 16 + b[1] / 16);
      ValueOfSymbol(b[1] % 16 * 4 + b[2] / 64);
      ValueOfSymbol(b[2] % 64);
      if c in Encode(b[3..]) {
        EncodedSymbols(b[3..], c);
      }
    }
  }

  /** What is encoded, of any length, decodes to itself; and it holds neither a
      dot nor a line break, so it can be framed. */
  lemma RoundTrip(b: seq<Byte>)
    ensures Decode(Encode(b)) == Some(b)
    ensures forall c :: c in Encode(b) ==> Value(c).Some? && c != 46 && c != 10 && c != 13
  {
    hide Encode, Sextets, Values, Bytes;
    forall c | c in Encode(b) ensures Value(c).Some? && c != 46 && c != 10 && c != 13 {
      EncodedSymbols(b, c);
    }
    NothingToStrip(Encode(b));
    EncodeValues(b);
    BytesOfSextets(b);
  }

  lemma {:induction false} StrippedAppend(a: seq<Byte>, b: seq<Byte>)
    ensures Stripped(a + b) == Stripped(a) + Stripped(b)
  {
    if a == [] {
      assert a + b == b;
    } else {
      assert (a + b)[1..] == a[1..] + b;
      StrippedAppend(a[1..], b);
    }
  }

  /** Line breaks make no difference, wherever they stand. */
  lemma DecodeIgnoresBreaks(a: seq<Byte>, b: seq<Byte>, c: Byte)
    requires c == 10 || c == 13
    ensures Decode(a + [c] + b) == Decode(a + b)
  {
    StrippedAppend(a + [c], b);
    StrippedAppend(a, [c]);
    StrippedAppend(a, b);
    assert [c][1..] == [] && Stripped([c]) == [];
    assert Stripped(a + [c]) == Stripped(a);
    hide Values, Bytes, Stripped;
  }

  lemma {:induction false} ValuesSome(s: seq<Byte>)
    ensures Values(s).Some? <==> forall c :: c in s ==> Value(c).Some?
    ensures Values(s).Some? ==> |Values(s).value| == |s|
  {
    hide Value;
    if s != [] {
      ValuesSome(s[1..]);
      assert s == [s[0]] + s[1..];
    }
  }

  lemma {:induction false} BytesSome(v: seq<Sextet>)
    ensures Bytes(v).Some? <==> |v| % 4 != 1
    decreases |v|
  {
    hide Byte0, Byte1, Byte2;
    if |v| >= 4 {
      BytesSome(v[4..]);
    }
  }

  /** A text decodes if and only if, line breaks aside, it holds nothing but symbols of
      the alphabet and not one more than a multiple of four. */
  lemma DecodesIff(s: seq<Byte>)
    ensures Decode(s).Some? <==>
      |Stripped(s)| % 4 != 1 && forall c :: c in Stripped(s) ==> Value(c).Some?
  {
    hide Values, Bytes, Stripped, Value;
    ValuesSome(Stripped(s));
    if Values(Stripped(s)).Some? {
      BytesSome(Values(Stripped(s)).value);
    }
  }
}
