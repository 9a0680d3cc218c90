// internal/token/jwt.go over internal/vault/transit.go: claims of three kinds
// of token, their compact form (section 7.1 of RFC 7515) and back.

module Jwt {
  import opened Prelude
  import opened Times
  import opened OpaqueToken
  import Base64Url
  import Sessions

  // --- Claims ------------------------------------------------------------------------------

  datatype Json = Str(text: string) | Num(number: int) | Arr(items: seq<Json>) | OtherJson

  /** The claim names the package knows, and any other. */
  datatype Claim =
    | Iss | Sub | Exp | Nbf | Iat
    | Kind | ActorType | UserId | ActorId | Nickname | Email
    | Perms | DPerms | PGroups
    | ClientId | SvcName
    | Custom(name: string)

  type Claims = map<Claim, Json>

  datatype Principal = Principal(
    kind: string, actorType: string,
    userId: string, actorId: string, nickname: string, email: string,
    permissions: seq<string>, delegated: seq<string>, policyGroups: seq<string>,
    clientId: string, name: string)

  datatype ContextInput = ContextInput(
    userId: string, nickname: string, email: string, actorId: string, actorType: string,
    permissions: seq<string>, delegated: seq<string>, policyGroups: seq<string>)

  /** Seconds since the epoch. */
  datatype Registered = Registered(issuer: string, subject: string, issuedAt: int, expiresAt: int)

  /** `omitempty`: empty text and empty lists leave no claim. */
  function PutText(m: Claims, key: Claim, s: string): Claims {
    if s == "" then m else m[key := Str(s)]
  }

  function PutTexts(m: Claims, key: Claim, items: seq<string>): Claims {
    if items == [] then m else m[key := Arr(Strs(items))]
  }

  function Strs(items: seq<string>): seq<Json> {
    seq(|items|, i requires 0 <= i < |items| => Str(items[i]))
  }

  function Base(r: Registered, kind: string): Claims {
    PutText(PutText(map[Iat := Num(r.issuedAt), Exp := Num(r.expiresAt), Kind := Str(kind)],
                    Iss, r.issuer), Sub, r.subject)
  }

  function PutLists(m: Claims, p: Principal): Claims {
    PutTexts(PutTexts(PutTexts(m, Perms, p.permissions), DPerms, p.delegated), PGroups, p.policyGroups)
  }

  function TextClaims(p: Principal, r: Registered): Claims {
    PutText(PutText(PutText(PutText(PutText(PutText(PutText(Base(r, p.kind),
      ActorType, p.actorType), UserId, p.userId), ActorId, p.actorId),
      Nickname, p.nickname), Email, p.email), ClientId, p.clientId), SvcName, p.name)
  }

  function ClaimsOf(p: Principal, r: Registered): Claims { PutLists(TextClaims(p, r), p) }

  function StrClaim(m: Claims, key: Claim): string {
    if key in m && m[key].Str? then m[key].text else ""
  }

  function Texts(items: seq<Json>): seq<string> {
    if items == [] then []
    else Texts(items[..|items| - 1]) + (if items[|items| - 1].Str? then [items[|items| - 1].text] else [])
  }

  function SliceClaim(m: Claims, key: Claim): seq<string> {
    if key in m && m[key].Arr? then Texts(m[key].items) else []
  }

  method StringSliceClaim(m: Claims, key: Claim) returns (out: seq<string>)
    ensures out == SliceClaim(m, key)
  {
    out := [];
    if key !in m || !m[key].Arr? {
      return;
    }
    var v := m[key].items;
    for i := 0 to |v|
      invariant out == Texts(v[..i])
    {
      assert v[..i + 1][..i] == v[..i];
      if v[i].Str? {
        out := out + [v[i].text];
      }
    }
    assert v[..|v|] == v;
  }

  // --- Compact form ------------------------------------------------------------------------

  const DOT: Byte := 46

  function Split(s: seq<Byte>): (parts: seq<seq<Byte>>)
    ensures |parts| >= 1
  {
    if s == [] then [[]]
    else
      var rest := Split(s[1..]);
      if s[0] == DOT then [[]] + rest else [[s[0]] + rest[0]] + rest[1..]
  }

  predicate NoDot(s: seq<Byte>) { DOT !in s }

  lemma {:induction false} SplitOne(s: seq<Byte>)
    requires NoDot(s)
    ensures Split(s) == [s]
  {
    if s != [] {
      assert s == [s[0]] + s[1..];
      assert s[0] != DOT;
      SplitOne(s[1..]);
    }
  }

  lemma {:induction false} SplitJoin(a: seq<Byte>, rest: seq<Byte>)
    requires NoDot(a)
    ensures Split(a + [DOT] + rest) == [a] + Split(rest)
  {
    var s := a + [DOT] + rest;
    if a == [] {
      assert s[1..] == rest;
    } else {
      assert s[1..] == a[1..] + [DOT] + rest;
      assert a[0] in a;
      SplitJoin(a[1..], rest);
      assert a == [a[0]] + a[1..];
      assert ([a[1..]] + Split(rest))[1..] == Split(rest);
    }
  }

  /** Vault's HMAC and verify endpoints, and the JSON codec. */
  datatype Signer = Signer(
    issuer: string,
    header: seq<Byte>,
    mac: seq<Byte> -> seq<Byte>,
    check: (seq<Byte>, seq<Byte>) -> bool,
    marshal: Claims -> seq<Byte>,
    unmarshal: seq<Byte> -> Option<Claims>)

  datatype VerifyError =
    | Malformed | BadEncoding | BadSignature | BadJson
    | BadClaims(expired: bool)

  function Sign(s: Signer, c: Claims): seq<Byte> {
    var input := Base64Url.Encode(s.header) + [DOT] + Base64Url.Encode(s.marshal(c));
    input + [DOT] + Base64Url.Encode(s.mac(input))
  }

  // --- Validation of registered claims (section 4.1 of RFC 7519) ----------------------------

  datatype Date = Absent | At(seconds: int) | Broken

  /** A date of zero counts as absent. */
  function DateClaim(m: Claims, key: Claim): Date {
    if key !in m then Absent
    else if !m[key].Num? then Broken
    else if m[key].number == 0 then Absent
    else At(m[key].number)
  }

  predicate Expired(m: Claims, now: int) {
    var exp := DateClaim(m, Exp);
    exp.At? && now >= exp.seconds * SECOND
  }

  predicate TooEarly(m: Claims, key: Claim, now: int) {
    var d := DateClaim(m, key);
    d.At? && now < d.seconds * SECOND
  }

  predicate Acceptable(m: Claims, issuer: string, now: int) {
    && !DateClaim(m, Exp).Broken? && !Expired(m, now)
    && !DateClaim(m, Nbf).Broken? && !TooEarly(m, Nbf, now)
    && !DateClaim(m, Iat).Broken? && !TooEarly(m, Iat, now)
    && (issuer != "" ==> Iss in m && m[Iss] == Str(issuer))
  }

  function Check(s: Signer, token: seq<Byte>, now: int): Result<Claims, VerifyError> {
    var parts := Split(token);
    if |parts| != 3 then Err(Malformed)
    else
      var sig := Base64Url.Decode(parts[2]);
      if sig.None? then Err(BadEncoding)
      else if !s.check(parts[0] + [DOT] + parts[1], sig.value) then Err(BadSignature)
      else
        var payload := Base64Url.Decode(parts[1]);
        if payload.None? then Err(BadEncoding)
        else
          var claims := s.unmarshal(payload.value);
          if claims.None? then Err(BadJson)
          else if !Acceptable(claims.value, s.issuer, now) then Err(BadClaims(Expired(claims.value, now)))
          else Ok(claims.value)
  }

  // --- The manager -----------------------------------------------------------------------------

  datatype TokenError = TokenExpired | TokenInvalid | InvalidInput

  datatype Manager = Manager(signer: Signer, issuer: string, accessDuration: int, actorTypes: set<string>) {
    function RegisteredFor(subject: string, now: int): Registered {
      Registered(issuer, subject, now / SECOND, (now + accessDuration) / SECOND)
    }

    function Issue(userId: string, nickname: string, email: string, now: int): seq<Byte> {
      Sign(signer, ClaimsOf(UserPrincipal(userId, nickname, email), RegisteredFor(userId, now)))
    }

    function IssueContextToken(i: ContextInput, now: int): Result<seq<Byte>, TokenError> {
      if i.actorType !in actorTypes || i.actorId == "" then Err(InvalidInput)
      else Ok(Sign(signer, ClaimsOf(ContextPrincipal(i), RegisteredFor(i.userId, now))))
    }

    function IssueServiceToken(clientId: string, name: string, actorType: string, now: int): seq<Byte> {
      Sign(signer, ClaimsOf(ServicePrincipal(clientId, name, actorType), RegisteredFor(clientId, now)))
    }

    function Verify(token: seq<Byte>, now: int): Result<Principal, TokenError> {
      match Check(signer, token, now)
      case Err(BadClaims(true)) => Err(TokenExpired)
      case Err(_) => Err(TokenInvalid)
      case Ok(m) => PrincipalOf(m)
    }
  }

  function UserPrincipal(userId: string, nickname: string, email: string): Principal {
    Principal(Sessions.KIND_USER, "", userId, "", nickname, email, [], [], [], "", "")
  }

  function ContextPrincipal(i: ContextInput): Principal {
    Principal(Sessions.KIND_USER, i.actorType, i.userId, i.actorId, i.nickname, i.email,
              i.permissions, i.delegated, i.policyGroups, "", "")
  }

  function ServicePrincipal(clientId: string, name: string, actorType: string): Principal {
    Principal(Sessions.KIND_SERVICE, actorType, "", "", "", "", [], [], [], clientId, name)
  }

  /** The last part of Verify: what a validated payload stands for. */
  function PrincipalOf(m: Claims): Result<Principal, TokenError> {
    var kind := StrClaim(m, Kind);
    if kind == Sessions.KIND_USER then
      if StrClaim(m, UserId) == "" then Err(TokenInvalid)
      else Ok(Principal(Sessions.KIND_USER, StrClaim(m, ActorType), StrClaim(m, UserId), StrClaim(m, ActorId),
                          StrClaim(m, Nickname), StrClaim(m, Email),
                          SliceClaim(m, Perms), SliceClaim(m, DPerms), SliceClaim(m, PGroups), "", ""))
    else if kind == Sessions.KIND_SERVICE then
      if StrClaim(m, ClientId) == "" then Err(TokenInvalid)
      else Ok(Principal(Sessions.KIND_SERVICE, StrClaim(m, ActorType), "", "", "", "", [], [], [],
                          StrClaim(m, ClientId), StrClaim(m, SvcName)))
    else Err(TokenInvalid)
  }

  // --- Claims and back ---------------------------------------------------------------------------

  function Get(m: Claims, key: Claim): Option<Json> { if key in m then Some(m[key]) else None }

  lemma PutTextReads(m: Claims, key: Claim, s: string, k: Claim)
    ensures Get(PutText(m, key, s), k) == if k == key && s != "" then Some(Str(s)) else Get(m, k)
  {
  }

  lemma PutTextsReads(m: Claims, key: Claim, items: seq<string>)
    ensures forall k :: Get(PutTexts(m, key, items), k)
                     == if k == key && items != [] then Some(Arr(Strs(items))) else Get(m, k)
  {
  }

  /** The text claims a token of `p` carries. */
  function TextAt(p: Principal, r: Registered, k: Claim): string {
    match k
    case Iss => r.issuer
    case Sub => r.subject
    case ActorType => p.actorType
    case UserId => p.userId
    case ActorId => p.actorId
    case Nickname => p.nickname
    case Email => p.email
    case ClientId => p.clientId
    case SvcName => p.name
    case _ => ""
  }

  function ListAt(p: Principal, k: Claim): seq<string> {
    match k
    case Perms => p.permissions
    case DPerms => p.delegated
    case PGroups => p.policyGroups
    case _ => []
  }

  function Expected(p: Principal, r: Registered, k: Claim): Option<Json> {
    if k.Iat? then Some(Num(r.issuedAt))
    else if k.Exp? then Some(Num(r.expiresAt))
    else if k.Kind? then Some(Str(p.kind))
    else if TextAt(p, r, k) != "" then Some(Str(TextAt(p, r, k)))
    else if ListAt(p, k) != [] then Some(Arr(Strs(ListAt(p, k))))
    else None
  }

  lemma BaseReads(r: Registered, kind: string, k: Claim)
    ensures Get(Base(r, kind), k) ==
      if k.Iat? then Some(Num(r.issuedAt)) else if k.Exp? then Some(Num(r.expiresAt))
      else if k.Kind? then Some(Str(kind))
      else if k.Iss? && r.issuer != "" then Some(Str(r.issuer))
      else if k.Sub? && r.subject != "" then Some(Str(r.subject))
      else None
  {
    var b: Claims := map[Iat := Num(r.issuedAt), Exp := Num(r.expiresAt), Kind := Str(kind)];
    PutTextReads(b, Iss, r.issuer, k);
    PutTextReads(PutText(b, Iss, r.issuer), Sub, r.subject, k);
    hide PutText;
  }

  lemma TextsRead(p: Principal, r: Registered, k: Claim)
    ensures Get(TextClaims(p, r), k) == if ListAt(p, k) == [] then Expected(p, r, k) else None
  {
    hide Get, PutText, Base;
    var b := Base(r, p.kind);
    var m1 := PutText(b, ActorType, p.actorType);
    var m2 := PutText(m1, UserId, p.userId);
    var m3 := PutText(m2, ActorId, p.actorId);
    var m4 := PutText(m3, Nickname, p.nickname);
    var m5 := PutText(m4, Email, p.email);
    var m6 := PutText(m5, ClientId, p.clientId);
    BaseReads(r, p.kind, k);
    PutTextReads(b, ActorType, p.actorType, k);
    PutTextReads(m1, UserId, p.userId, k);
    PutTextReads(m2, ActorId, p.actorId, k);
    PutTextReads(m3, Nickname, p.nickname, k);
    PutTextReads(m4, Email, p.email, k);
    PutTextReads(m5, ClientId, p.clientId, k);
    PutTextReads(m6, SvcName, p.name, k);
  }

  lemma ListsRead(m: Claims, p: Principal)
    ensures forall k :: Get(PutLists(m, p), k)
                     == if ListAt(p, k) != [] then Some(Arr(Strs(ListAt(p, k)))) else Get(m, k)
  {
    hide Get, PutTexts, Strs;
    var a := PutTexts(m, Perms, p.permissions);
    var b := PutTexts(a, DPerms, p.delegated);
    PutTextsReads(m, Perms, p.permissions);
    PutTextsReads(a, DPerms, p.delegated);
    PutTextsReads(b, PGroups, p.policyGroups);
  }

  lemma ListExpected(p: Principal, r: Registered, k: Claim)
    requires ListAt(p, k) != []
    ensures Expected(p, r, k) == Some(Arr(Strs(ListAt(p, k))))
  {
  }

  lemma ClaimsRead(p: Principal, r: Registered)
    ensures forall k :: Get(ClaimsOf(p, r), k) == Expected(p, r, k)
  {
    hide Get, TextClaims, PutLists, Strs, Expected;
    ListsRead(TextClaims(p, r), p);
    forall k ensures Get(ClaimsOf(p, r), k) == Expected(p, r, k) {
      TextsRead(p, r, k);
      if ListAt(p, k) != [] {
        ListExpected(p, r, k);
      }
    }
  }

  lemma {:induction false} TextsOfStrs(items: seq<string>)
    ensures Texts(Strs(items)) == items
  {
    if items != [] {
      var init := items[..|items| - 1];
      assert Strs(items)[..|items| - 1] == Strs(init);
      TextsOfStrs(init);
      assert items == init + [items[|items| - 1]];
    }
  }

  /** What the three issuers put into a token. */
  predicate Proper(p: Principal) {
    if p.kind == Sessions.KIND_USER then p.clientId == "" && p.name == ""
    else
      && p.kind == Sessions.KIND_SERVICE && p.userId == "" && p.actorId == "" && p.nickname == "" && p.email == ""
      && p.permissions == [] && p.delegated == [] && p.policyGroups == []
  }

  /** The identifier a token must carry. */
  function Identifier(p: Principal): string { if p.kind == Sessions.KIND_USER then p.userId else p.clientId }

  lemma SliceReads(p: Principal, r: Registered, k: Claim)
    requires k.Perms? || k.DPerms? || k.PGroups?
    ensures SliceClaim(ClaimsOf(p, r), k) == ListAt(p, k)
  {
    ClaimsRead(p, r);
    TextsOfStrs(ListAt(p, k));
    hide ClaimsOf, Strs, Texts;
    assert Get(ClaimsOf(p, r), k) == Expected(p, r, k);
  }

  lemma TextReads(p: Principal, r: Registered, k: Claim)
    requires !k.Iat? && !k.Exp? && !k.Kind? && !k.Perms? && !k.DPerms? && !k.PGroups?
    ensures StrClaim(ClaimsOf(p, r), k) == TextAt(p, r, k)
  {
    ClaimsRead(p, r);
    hide ClaimsOf, Strs;
    assert Get(ClaimsOf(p, r), k) == Expected(p, r, k);
  }

  lemma KindReads(p: Principal, r: Registered)
    ensures StrClaim(ClaimsOf(p, r), Kind) == p.kind
  {
    ClaimsRead(p, r);
    hide ClaimsOf, Strs;
    assert Get(ClaimsOf(p, r), Kind) == Expected(p, r, Kind);
  }

  /** From principal to claims and back, nothing is lost or invented. */
  lemma ClaimsRoundTrip(p: Principal, r: Registered)
    requires Proper(p)
    ensures PrincipalOf(ClaimsOf(p, r)) == if Identifier(p) == "" then Err(TokenInvalid) else Ok(p)
  {
    hide ClaimsOf, StrClaim, SliceClaim;
    KindReads(p, r);
    TextReads(p, r, ActorType);
    TextReads(p, r, UserId);
    TextReads(p, r, ActorId);
    TextReads(p, r, Nickname);
    TextReads(p, r, Email);
    TextReads(p, r, ClientId);
    TextReads(p, r, SvcName);
    SliceReads(p, r, Perms);
    SliceReads(p, r, DPerms);
    SliceReads(p, r, PGroups);
  }

  // --- Signing and checking --------------------------------------------------------------------

  /** A check of what was just signed succeeds, and the codec gives claims back. */
  predicate FaithfulOn(s: Signer, c: Claims) {
    var input := Base64Url.Encode(s.header) + [DOT] + Base64Url.Encode(s.marshal(c));
    s.check(input, s.mac(input)) && s.unmarshal(s.marshal(c)) == Some(c)
  }

  /** The compact form falls apart into exactly the three parts it was made of. */
  lemma Framing(a: seq<Byte>, b: seq<Byte>, c: seq<Byte>)
    ensures var x, y, z := Base64Url.Encode(a), Base64Url.Encode(b), Base64Url.Encode(c);
      Split(x + [DOT] + y + [DOT] + z) == [x, y, z]
  {
    hide Split;
    var x, y, z := Base64Url.Encode(a), Base64Url.Encode(b), Base64Url.Encode(c);
    Base64Url.RoundTrip(a);
    Base64Url.RoundTrip(b);
    Base64Url.RoundTrip(c);
    assert x + [DOT] + y + [DOT] + z == x + [DOT] + (y + [DOT] + z);
    SplitJoin(x, y + [DOT] + z);
    SplitJoin(y, z);
    SplitOne(z);
  }

  lemma SignedChecks(s: Signer, c: Claims, now: int)
    requires FaithfulOn(s, c)
    ensures Check(s, Sign(s, c), now) ==
      if Acceptable(c, s.issuer, now) then Ok(c) else Err(BadClaims(Expired(c, now)))
  {
    hide Split, Base64Url.Encode, Base64Url.Decode, Acceptable, Expired;
    var h, payload := s.header, s.marshal(c);
    var input := Base64Url.Encode(h) + [DOT] + Base64Url.Encode(payload);
    Framing(h, payload, s.mac(input));
    Base64Url.RoundTrip(payload);
    Base64Url.RoundTrip(s.mac(input));
  }

  /** When the dates of a token issued at `t0` admit it: from the second it was
      issued in to, exclusively, the second it expires in. */
  predicate Admits(t0: int, duration: int, now: int) {
    && (t0 / SECOND == 0 || Trunc(t0) <= now)
    && ((t0 + duration) / SECOND == 0 || now < Trunc(t0 + duration))
  }

  lemma TruncSeconds(t: int)
    ensures t / SECOND * SECOND == Trunc(t)
  {
  }

  lemma DatesRead(p: Principal, r: Registered)
    ensures DateClaim(ClaimsOf(p, r), Exp) == if r.expiresAt == 0 then Absent else At(r.expiresAt)
    ensures DateClaim(ClaimsOf(p, r), Iat) == if r.issuedAt == 0 then Absent else At(r.issuedAt)
    ensures DateClaim(ClaimsOf(p, r), Nbf) == Absent
    ensures r.issuer != "" ==> Iss in ClaimsOf(p, r) && ClaimsOf(p, r)[Iss] == Str(r.issuer)
  {
    ClaimsRead(p, r);
    hide ClaimsOf, Strs;
    assert Get(ClaimsOf(p, r), Exp) == Expected(p, r, Exp);
    assert Get(ClaimsOf(p, r), Iat) == Expected(p, r, Iat);
    assert Get(ClaimsOf(p, r), Nbf) == Expected(p, r, Nbf);
    assert Get(ClaimsOf(p, r), Iss) == Expected(p, r, Iss);
  }

  lemma AdmittedWhen(m: Manager, p: Principal, subject: string, t0: int, now: int)
    requires m.issuer == m.signer.issuer && m.issuer != ""
    ensures var c := ClaimsOf(p, m.RegisteredFor(subject, t0));
      && (Acceptable(c, m.signer.issuer, now) <==> Admits(t0, m.accessDuration, now))
      && (Expired(c, now) <==> (t0 + m.accessDuration) / SECOND != 0 && now >= Trunc(t0 + m.accessDuration))
  {
    DatesRead(p, m.RegisteredFor(subject, t0));
    TruncSeconds(t0);
    TruncSeconds(t0 + m.accessDuration);
    hide ClaimsOf, DateClaim, Trunc;
  }

  /** Every token any issuer makes of a principal verifies to exactly that
      principal while its dates admit it, and to the right error otherwise. */
  lemma TokenRoundTrip(m: Manager, p: Principal, subject: string, t0: int, now: int)
    requires m.issuer == m.signer.issuer && m.issuer != "" && Proper(p)
    requires FaithfulOn(m.signer, ClaimsOf(p, m.RegisteredFor(subject, t0)))
    ensures var late := (t0 + m.accessDuration) / SECOND != 0 && now >= Trunc(t0 + m.accessDuration);
      m.Verify(Sign(m.signer, ClaimsOf(p, m.RegisteredFor(subject, t0))), now)
      == if late then Err(TokenExpired)
         else if !Admits(t0, m.accessDuration, now) || Identifier(p) == "" then Err(TokenInvalid)
         else Ok(p)
  {
    var r := m.RegisteredFor(subject, t0);
    var c := ClaimsOf(p, r);
    hide ClaimsOf, Sign, Check, Acceptable, Expired, FaithfulOn, PrincipalOf, Proper;
    SignedChecks(m.signer, c, now);
    AdmittedWhen(m, p, subject, t0, now);
    ClaimsRoundTrip(p, r);
    hide Trunc;
  }

  /** The answer to a token of `p` issued at `t0`. */
  function Verdict(p: Principal, identifier: string, t0: int, duration: int, now: int): Result<Principal, TokenError> {
    if (t0 + duration) / SECOND != 0 && now >= Trunc(t0 + duration) then Err(TokenExpired)
    else if !Admits(t0, duration, now) || identifier == "" then Err(TokenInvalid)
    else Ok(p)
  }

  /** The registered claims of a token issued at `t0`, and their names. */
  ghost predicate Registers(c: Claims, issuer: string, subject: string, t0: int, duration: int) {
    && Get(c, Iss) == Some(Str(issuer)) && StrClaim(c, Sub) == subject && Get(c, Nbf) == None
    && Get(c, Iat) == Some(Num(t0 / SECOND)) && Get(c, Exp) == Some(Num((t0 + duration) / SECOND))
  }

  /** Whoever checks the token finds these registered claims, before and apart from
      what Verify makes of the others. */
  lemma RegisteredClaims(m: Manager, p: Principal, subject: string, t0: int, now: int)
    requires m.issuer == m.signer.issuer && m.issuer != ""
    requires FaithfulOn(m.signer, ClaimsOf(
      p, Registered(m.issuer, subject, t0 / SECOND, (t0 + m.accessDuration) / SECOND)))
    ensures var c := Check(m.signer, Sign(m.signer, ClaimsOf(p, m.RegisteredFor(subject, t0))), now);
      c.Ok? ==> Registers(c.value, m.issuer, subject, t0, m.accessDuration)
  {
    hide ClaimsOf, Sign, Check, Acceptable, Expired, FaithfulOn, Strs;
    var r := m.RegisteredFor(subject, t0);
    SignedChecks(m.signer, ClaimsOf(p, r), now);
    ClaimsRead(p, r);
    assert Get(ClaimsOf(p, r), Iss) == Expected(p, r, Iss) && Get(ClaimsOf(p, r), Sub) == Expected(p, r, Sub);
    assert Get(ClaimsOf(p, r), Iat) == Expected(p, r, Iat) && Get(ClaimsOf(p, r), Exp) == Expected(p, r, Exp);
    assert Get(ClaimsOf(p, r), Nbf) == Expected(p, r, Nbf);
  }

  /** A basic token verifies to the user it was issued for, with no actor and no permissions. */
  lemma IssueRoundTrip(m: Manager, userId: string, nickname: string, email: string, t0: int, now: int)
    requires m.issuer == m.signer.issuer && m.issuer != ""
    requires FaithfulOn(m.signer, ClaimsOf(
      Principal("user", "", userId, "", nickname, email, [], [], [], "", ""),
      Registered(m.issuer, userId, t0 / SECOND, (t0 + m.accessDuration) / SECOND)))
    ensures var token, p := m.Issue(userId, nickname, email, t0), Principal(
        kind := "user", actorType := "", userId := userId, actorId := "", nickname := nickname, email := email,
        permissions := [], delegated := [], policyGroups := [], clientId := "", name := "");
      && m.Verify(token, now) == Verdict(p, userId, t0, m.accessDuration, now)
      && (Check(m.signer, token, now).Ok? ==>
            Registers(Check(m.signer, token, now).value, m.issuer, userId, t0, m.accessDuration))
  {
    var p := Principal("user", "", userId, "", nickname, email, [], [], [], "", "");
    TokenRoundTrip(m, p, userId, t0, now);
    RegisteredClaims(m, p, userId, t0, now);
    hide FaithfulOn, Sign, ClaimsOf, Check, Registers, Admits;
  }

  /** A context token is issued for a known actor type and an actor only, and verifies to
      the user, the actor, and each of the three lists it was issued with. */
  lemma ContextRoundTrip(m: Manager, i: ContextInput, t0: int, now: int)
    requires m.issuer == m.signer.issuer && m.issuer != ""
    requires FaithfulOn(m.signer, ClaimsOf(
      Principal("user", i.actorType, i.userId, i.actorId, i.nickname, i.email,
                i.permissions, i.delegated, i.policyGroups, "", ""),
      Registered(m.issuer, i.userId, t0 / SECOND, (t0 + m.accessDuration) / SECOND)))
    ensures m.IssueContextToken(i, t0).Err? <==> i.actorType !in m.actorTypes || i.actorId == ""
    ensures m.IssueContextToken(i, t0).Err? ==> m.IssueContextToken(i, t0).error == InvalidInput
    ensures m.IssueContextToken(i, t0).Ok? ==>
      var token, p := m.IssueContextToken(i, t0).value, Principal(
        kind := "user", actorType := i.actorType, userId := i.userId, actorId := i.actorId,
        nickname := i.nickname, email := i.email,
        permissions := i.permissions, delegated := i.delegated, policyGroups := i.policyGroups,
        clientId := "", name := "");
      && m.Verify(token, now) == Verdict(p, i.userId, t0, m.accessDuration, now)
      && (Check(m.signer, token, now).Ok? ==>
            Registers(Check(m.signer, token, now).value, m.issuer, i.userId, t0, m.accessDuration))
  {
    var p := Principal("user", i.actorType, i.userId, i.actorId, i.nickname, i.email,
                       i.permissions, i.delegated, i.policyGroups, "", "");
    TokenRoundTrip(m, p, i.userId, t0, now);
    RegisteredClaims(m, p, i.userId, t0, now);
    hide FaithfulOn, Sign, ClaimsOf, Check, Registers, Admits;
  }

  /** A service token verifies to the client, its name and its actor type, and to no user. */
  lemma ServiceRoundTrip(m: Manager, clientId: string, name: string, actorType: string, t0: int, now: int)
    requires m.issuer == m.signer.issuer && m.issuer != ""
    requires FaithfulOn(m.signer, ClaimsOf(
      Principal("service", actorType, "", "", "", "", [], [], [], clientId, name),
      Registered(m.issuer, clientId, t0 / SECOND, (t0 + m.accessDuration) / SECOND)))
    ensures var token, p := m.IssueServiceToken(clientId, name, actorType, t0), Principal(
        kind := "service", actorType := actorType, userId := "", actorId := "", nickname := "", email := "",
        permissions := [], delegated := [], policyGroups := [], clientId := clientId, name := name);
      && m.Verify(token, now) == Verdict(p, clientId, t0, m.accessDuration, now)
      && (Check(m.signer, token, now).Ok? ==>
            Registers(Check(m.signer, token, now).value, m.issuer, clientId, t0, m.accessDuration))
  {
    var p := Principal("service", actorType, "", "", "", "", [], [], [], clientId, name);
    TokenRoundTrip(m, p, clientId, t0, now);
    RegisteredClaims(m, p, clientId, t0, now);
    hide FaithfulOn, Sign, ClaimsOf, Check, Registers, Admits;
  }

  // --- Tokens made by others ---------------------------------------------------------------------

  /** A list claim reads as its strings, whatever stands between them. */
  lemma {:induction false} TextsAppend(a: seq<Json>, b: seq<Json>, j: Json)
    ensures Texts(a + b) == Texts(a) + Texts(b)
    ensures Texts([j]) == if j.Str? then [j.text] else []
  {
    assert [j][..0] == [];
    if b == [] {
      assert a + b == a;
    } else {
      var init, last := b[..|b| - 1], b[|b| - 1];
      assert (a + b)[..|a + b| - 1] == a + init;
      TextsAppend(a, init, j);
    }
  }

  /** The dates of a payload admit the moment: each of the three is missing, zero, or
      a number on the right side of it. */
  ghost predicate Dated(c: Claims, now: int) {
    forall k :: k in c && (k.Exp? || k.Nbf? || k.Iat?) ==>
      && c[k].Num?
      && (c[k].number != 0 ==> if k.Exp? then now < c[k].number * 1_000_000_000
                               else c[k].number * 1_000_000_000 <= now)
  }

  /** Whoever made it, a token checks if and only if it has three parts, the oracle
      vouches for the first two, both others decode, and its payload admits the
      moment and names this issuer. */
  lemma CheckIff(s: Signer, token: seq<Byte>, now: int, c: Claims)
    ensures Check(s, token, now) == Ok(c) <==>
      && |Split(token)| == 3
      && var sig, payload := Base64Url.Decode(Split(token)[2]), Base64Url.Decode(Split(token)[1]);
         && sig.Some? && s.check(Split(token)[0] + [DOT] + Split(token)[1], sig.value)
         && payload.Some? && s.unmarshal(payload.value) == Some(c)
         && Dated(c, now) && (s.issuer != "" ==> Get(c, Iss) == Some(Str(s.issuer)))
  {
    hide Split, Base64Url.Decode;
    AcceptableIff(c, s.issuer, now);
    hide Acceptable, Expired, Dated;
  }

  lemma AcceptableIff(c: Claims, issuer: string, now: int)
    ensures Acceptable(c, issuer, now) <==> Dated(c, now) && (issuer != "" ==> Get(c, Iss) == Some(Str(issuer)))
  {
    if Dated(c, now) {
      assert Exp in c ==> c[Exp].Num?;
      assert Nbf in c ==> c[Nbf].Num?;
      assert Iat in c ==> c[Iat].Num?;
    }
  }

  /** What a payload stands for: a user or a service, told by its kind, with a non-empty
      identifier; each field of the principal is the claim of its name. */
  lemma PrincipalIff(m: Claims, p: Principal)
    ensures var user, client := StrClaim(m, UserId), StrClaim(m, ClientId);
      PrincipalOf(m) == Ok(p) <==>
        && Get(m, Kind) == Some(Str(p.kind)) && p.actorType == StrClaim(m, ActorType)
        && if p.kind == "user" then
             && p.userId == user != "" && p.actorId == StrClaim(m, ActorId)
             && p.nickname == StrClaim(m, Nickname) && p.email == StrClaim(m, Email)
             && p.permissions == SliceClaim(m, Perms) && p.delegated == SliceClaim(m, DPerms)
             && p.policyGroups == SliceClaim(m, PGroups) && p.clientId == "" && p.name == ""
           else
             && p.kind == "service" && p.clientId == client != "" && p.name == StrClaim(m, SvcName)
             && p.userId == "" && p.actorId == "" && p.nickname == "" && p.email == ""
             && p.permissions == [] && p.delegated == [] && p.policyGroups == []
  {
  }

  /** An accepted token was signed: it has three parts, the oracle vouches for the
      first two, and its claims name this issuer and admit this moment. */
  lemma AcceptedWasSigned(m: Manager, token: seq<Byte>, now: int)
    requires m.signer.issuer != "" && m.Verify(token, now).Ok?
    ensures exists header, payload, sig, claims ::
      && Split(token) == [header, payload, sig] && Base64Url.Decode(sig).Some? && Base64Url.Decode(payload).Some?
      && m.signer.check(header + [DOT] + payload, Base64Url.Decode(sig).value)
      && m.signer.unmarshal(Base64Url.Decode(payload).value) == Some(claims)
      && StrClaim(claims, Iss) == m.signer.issuer && !Expired(claims, now)
      && PrincipalOf(claims) == m.Verify(token, now)
  {
    hide Split, Base64Url.Decode, PrincipalOf, Expired;
    var parts := Split(token);
    assert parts == [parts[0], parts[1], parts[2]];
    var claims := m.signer.unmarshal(Base64Url.Decode(parts[1]).value).value;
    assert PrincipalOf(claims) == m.Verify(token, now);
  }
}
