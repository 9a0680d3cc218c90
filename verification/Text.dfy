// strings.TrimSpace, strings.ToLower and len, as internal/domain/user.go uses them.

module Text {
  /** unicode.ToLower where it yields ASCII: the capital letters, the dotted capital I
      and the Kelvin sign. What it makes of other letters is never ASCII. */
  function LowerChar(c: char): char {
    if 'A' <= c <= 'Z' then (c as int + 32) as char
    else if c == '\U{0130}' then 'i'
    else if c == '\U{212A}' then 'k'
    else c
  }

  function Lower(s: string): (r: string)
    ensures |r| == |s|
    ensures forall i :: 0 <= i < |s| ==> r[i] == LowerChar(s[i])
  {
    seq(|s|, i requires 0 <= i < |s| => LowerChar(s[i]))
  }

  /** unicode.IsSpace. */
  predicate Space(c: char) {
    || '\U{0009}' <= c <= '\U{000D}' || c in " \U{0085}\U{00A0}\U{1680}"
    || '\U{2000}' <= c <= '\U{200A}' || c in "\U{2028}\U{2029}\U{202F}\U{205F}\U{3000}"
  }

  function TrimLeft(s: string): string {
    if s != [] && Space(s[0]) then TrimLeft(s[1..]) else s
  }

  function TrimRight(s: string): string {
    if s != [] && Space(s[|s| - 1]) then TrimRight(s[..|s| - 1]) else s
  }

  function Trim(s: string): string { TrimRight(TrimLeft(s)) }

  /** len: a string is measured in bytes of UTF-8. */
  function Bytes(s: string): (n: nat)
    ensures |s| <= n <= 4 * |s|
  {
    if s == "" then 0 else Bytes(s[..|s| - 1]) + Width(s[|s| - 1])
  }

  function Width(c: char): (n: nat)
    ensures 1 <= n <= 4
  {
    if c < '\U{0080}' then 1 else if c < '\U{0800}' then 2 else if c < '\U{10000}' then 3 else 4
  }

  predicate Letter(c: char) { 'a' <= c <= 'z' || 'A' <= c <= 'Z' }

  predicate Digit(c: char) { '0' <= c <= '9' }

  /** A letter, a digit or one of `more`. */
  predicate OneOf(c: char, more: string) { Letter(c) || Digit(c) || c in more }

  /** ^[a-zA-Z0-9_\-]{3,32}$ */
  predicate NicknameMatches(s: string) {
    3 <= |s| <= 32 && forall i :: 0 <= i < |s| ==> OneOf(s[i], "_-")
  }

  /** ^[a-zA-Z0-9._%+\-]+@[a-zA-Z0-9.\-]+\.[a-zA-Z]{2,}$, split at its sign and its last dot. */
  predicate EmailSplits(s: string, at: nat, dot: nat) {
    && 0 < at && at + 1 < dot && dot + 2 < |s| && s[at] == '@' && s[dot] == '.'
    && (forall i :: 0 <= i < at ==> OneOf(s[i], "._%+-"))
    && (forall i :: at < i < dot ==> OneOf(s[i], ".-"))
    && (forall i :: dot < i < |s| ==> Letter(s[i]))
  }

  predicate EmailMatches(s: string) {
    exists at, dot :: 0 <= at < |s| && 0 <= dot < |s| && EmailSplits(s, at, dot)
  }

  /** Lower-casing twice is lower-casing once. */
  lemma LowerIdempotent(s: string)
    ensures Lower(Lower(s)) == Lower(s)
  {
  }

  /** The capitals become the small letters; but for two signs, nothing else changes. */
  lemma LowerLetters(c: char)
    ensures forall i :: 0 <= i < 26 ==>
      LowerChar("ABCDEFGHIJKLMNOPQRSTUVWXYZ"[i]) == "abcdefghijklmnopqrstuvwxyz"[i]
    ensures c !in "ABCDEFGHIJKLMNOPQRSTUVWXYZ" && c != '\U{0130}' && c != '\U{212A}' ==> LowerChar(c) == c
  {
    var capitals := "ABCDEFGHIJKLMNOPQRSTUVWXYZ";
    if 'A' <= c <= 'Z' {
      assert capitals[c as int - 65] == c;
    }
  }

  predicate Blank(s: string) { forall i :: 0 <= i < |s| ==> Space(s[i]) }

  lemma {:induction false} TrimsLeft(s: string) returns (k: nat)
    ensures k <= |s| && TrimLeft(s) == s[k..] && Blank(s[..k]) && (k < |s| ==> !Space(s[k]))
  {
    hide Space;
    k := 0;
    if s != [] && Space(s[0]) {
      k := TrimsLeft(s[1..]);
      assert s[..k + 1] == [s[0]] + s[1..][..k];
      k := k + 1;
    }
  }

  lemma {:induction false} TrimsRight(s: string) returns (k: nat)
    ensures k <= |s| && TrimRight(s) == s[..k] && Blank(s[k..]) && (k > 0 ==> !Space(s[k - 1]))
  {
    hide Space;
    k := |s|;
    if s != [] && Space(s[|s| - 1]) {
      var init := s[..|s| - 1];
      k := TrimsRight(init);
      assert s[k..] == init[k..] + [s[|s| - 1]] && init[..k] == s[..k];
    }
  }

  /** Trimming takes the spaces at both ends and nothing else. */
  lemma Trims(s: string) returns (before: string, after: string)
    ensures s == before + Trim(s) + after && Blank(before) && Blank(after)
    ensures Trim(s) == "" || (!Space(Trim(s)[0]) && !Space(Trim(s)[|Trim(s)| - 1]))
  {
    hide Space, TrimLeft, TrimRight;
    var i := TrimsLeft(s);
    var k := TrimsRight(s[i..]);
    before, after := s[..i], s[i..][k..];
  }

  predicate AllOf(s: string, more: string) { forall i :: 0 <= i < |s| ==> OneOf(s[i], more) }

  predicate Letters(s: string) { forall i :: 0 <= i < |s| ==> Letter(s[i]) }

  /** The four pieces of an address, as the expression names them. */
  ghost predicate EmailParts(s: string, user: string, host: string, top: string) {
    && s == user + "@" + host + "." + top
    && |user| >= 1 && AllOf(user, "._%+-") && |host| >= 1 && AllOf(host, ".-") && |top| >= 2 && Letters(top)
  }

  /** An email matches if and only if it can be put together from a user, a host and a top domain. */
  lemma EmailIff(s: string)
    ensures EmailMatches(s) <==> exists user, host, top :: EmailParts(s, user, host, top)
  {
    hide OneOf, Letter;
    if EmailMatches(s) {
      var at, dot :| 0 <= at < |s| && 0 <= dot < |s| && EmailSplits(s, at, dot);
      assert s == s[..at] + "@" + s[at + 1..dot] + "." + s[dot + 1..];
      assert EmailParts(s, s[..at], s[at + 1..dot], s[dot + 1..]);
    }
    if user, host, top :| EmailParts(s, user, host, top) {
      var at, dot := |user|, |user| + 1 + |host|;
      assert s[..at] == user && s[at + 1..dot] == host && s[dot + 1..] == top;
      assert forall i :: 0 <= i < at ==> s[i] == user[i];
      assert forall i :: at < i < dot ==> s[i] == host[i - at - 1];
      assert forall i :: dot < i < |s| ==> s[i] == top[i - dot - 1];
      assert EmailSplits(s, at, dot);
    }
  }

  lemma SmallLetter(c: char)
    ensures 'a' <= c <= 'z' <==> c in "abcdefghijklmnopqrstuvwxyz"
  {
    var small := "abcdefghijklmnopqrstuvwxyz";
    if 'a' <= c <= 'z' {
      assert small[c as int - 97] == c;
    }
  }

  lemma Capital(c: char)
    ensures 'A' <= c <= 'Z' <==> c in "ABCDEFGHIJKLMNOPQRSTUVWXYZ"
  {
    var capitals := "ABCDEFGHIJKLMNOPQRSTUVWXYZ";
    if 'A' <= c <= 'Z' {
      assert capitals[c as int - 65] == c;
    }
  }

  /** The letters and the digits, one by one. */
  lemma LetterIff(c: char)
    ensures Letter(c) <==> c in "abcdefghijklmnopqrstuvwxyz" || c in "ABCDEFGHIJKLMNOPQRSTUVWXYZ"
  {
    SmallLetter(c);
    Capital(c);
  }

  lemma DigitIff(c: char)
    ensures Digit(c) <==> c in "0123456789"
  {
    var digits := "0123456789";
    if '0' <= c <= '9' {
      assert digits[c as int - 48] == c;
    }
  }
}
