// internal/domain/session.go, and the conversion from stored predicates
// (nodeToSession in internal/repository/dgraph/session.go).

module Sessions {
  import opened Prelude
  import opened Times
  import opened OpaqueToken
  import opened StoredValues
  import D = Dgraph

  const KIND_USER := "user"
  const KIND_SERVICE := "service"

  /** Who a session speaks for and what it may do. */
  datatype Principal = Principal(
    kind: string, userId: string, actorId: string, actorType: string, clientId: string,
    permissions: set<string>, delegated: set<string>, policyGroups: set<string>)

  /** The part of a session that is written once, when it is created. */
  datatype Core = Core(
    who: Principal, permVersion: int,
    accessHash: Digest, refreshHash: Digest, refreshJti: string,
    createdAt: int, expiresAt: int, refreshExpiresAt: int,
    userAgent: string, ipAddress: string)

  /** The part that later mutations rewrite. */
  datatype Status = Status(revoked: bool, revokedAt: Option<int>, replacedBy: string, updatedAt: int, lastSeenAt: int)

  datatype Session = Session(id: D.Uid, core: Core, status: Status) {
    predicate IsExpired(now: int) { now > core.expiresAt }

    predicate IsRefreshExpired(now: int) { now > core.refreshExpiresAt }

    predicate IsValid(now: int) { !status.revoked && !IsExpired(now) }
  }

  datatype SessionCreateInput = SessionCreateInput(
    kind: string, userId: string, clientId: string, actorId: string, actorType: string,
    accessHash: Digest, refreshHash: Digest, refreshJti: string,
    permissions: seq<string>, delegated: seq<string>, policyGroups: seq<string>, permVersion: int,
    expiresAt: int, refreshExpiresAt: int,
    userAgent: string, ipAddress: string)

  datatype SessionRefreshInput = SessionRefreshInput(
    oldSessionId: D.Uid,
    accessHash: Digest, refreshHash: Digest, refreshJti: string,
    permissions: seq<string>, delegated: seq<string>, policyGroups: seq<string>, permVersion: int,
    expiresAt: int, refreshExpiresAt: int,
    userAgent: string, ipAddress: string)

  // --- Reading a node --------------------------------------------------------

  function PrincipalOf(n: D.Fields): Principal {
    Principal(
      TextOf(D.Get(n, D.Kind)), TextOf(D.Get(n, D.UserId)), TextOf(D.Get(n, D.ActorId)),
      TextOf(D.Get(n, D.ActorType)), TextOf(D.Get(n, D.ClientId)),
      TextsOf(D.Get(n, D.Permissions)), TextsOf(D.Get(n, D.Delegated)), TextsOf(D.Get(n, D.PolicyGroups)))
  }

  function CoreOf(n: D.Fields): Core {
    Core(
      PrincipalOf(n), NumberOf(D.Get(n, D.PermVersion)),
      DigestOf(D.Get(n, D.AccessHash)), DigestOf(D.Get(n, D.RefreshHash)), TextOf(D.Get(n, D.RefreshJti)),
      InstantOf(D.Get(n, D.CreatedAt)), InstantOf(D.Get(n, D.ExpiresAt)), InstantOf(D.Get(n, D.RefreshExpiresAt)),
      TextOf(D.Get(n, D.UserAgent)), TextOf(D.Get(n, D.IpAddress)))
  }

  function StatusOf(n: D.Fields): Status {
    Status(
      D.Get(n, D.Revoked) == Some(D.Flag(true)), MaybeInstant(D.Get(n, D.RevokedAt)), TextOf(D.Get(n, D.ReplacedBy)),
      InstantOf(D.Get(n, D.UpdatedAt)), InstantOf(D.Get(n, D.LastSeenAt)))
  }

  function View(u: D.Uid, n: D.Fields): Session {
    Session(u, CoreOf(n), StatusOf(n))
  }

  predicate Typed(n: D.Fields) { D.Get(n, D.DType) == Some(D.Type(D.SessionType)) }

  /** The node carries `revoked = false`; only sessions that were neither revoked nor purged do. */
  predicate Live(n: D.Fields) { D.Get(n, D.Revoked) == Some(D.Flag(false)) }

  // --- Writing a node --------------------------------------------------------

  function Elements(s: seq<string>): set<string> { set x | x in s }

  function CoreOfInput(i: SessionCreateInput, now: int): Core {
    Core(Principal(i.kind, i.userId, i.actorId, i.actorType, i.clientId,
                   Elements(i.permissions), Elements(i.delegated), Elements(i.policyGroups)),
         i.permVersion, i.accessHash, i.refreshHash, i.refreshJti,
         now, i.expiresAt, i.refreshExpiresAt, i.userAgent, i.ipAddress)
  }

  /** A rotation keeps the identity of the session it replaces; its permissions
      too, unless the caller passes a non-empty permission list. */
  function Successor(prev: Core, i: SessionRefreshInput, now: int): Core {
    var carry := |i.permissions| == 0;
    Core(prev.who.(permissions := if carry then prev.who.permissions else Elements(i.permissions),
                   delegated := if carry then prev.who.delegated else Elements(i.delegated),
                   policyGroups := if carry then prev.who.policyGroups else Elements(i.policyGroups)),
         if carry then prev.permVersion else i.permVersion,
         i.accessHash, i.refreshHash, i.refreshJti,
         now, i.expiresAt, i.refreshExpiresAt, i.userAgent, i.ipAddress)
  }

  function ScalarFields(c: Core): D.Fields {
    map[D.DType := D.Type(D.SessionType),
        D.Kind := D.Text(c.who.kind), D.UserId := D.Text(c.who.userId), D.ClientId := D.Text(c.who.clientId),
        D.ActorId := D.Text(c.who.actorId), D.ActorType := D.Text(c.who.actorType),
        D.AccessHash := D.Hashed(c.accessHash), D.RefreshHash := D.Hashed(c.refreshHash),
        D.RefreshJti := D.Text(c.refreshJti), D.PermVersion := D.Number(c.permVersion),
        D.ExpiresAt := D.Instant(Trunc(c.expiresAt)), D.RefreshExpiresAt := D.Instant(Trunc(c.refreshExpiresAt)),
        D.Revoked := D.Flag(false),
        D.CreatedAt := D.Instant(Trunc(c.createdAt)), D.UpdatedAt := D.Instant(Trunc(c.createdAt)),
        D.LastSeenAt := D.Instant(Trunc(c.createdAt)),
        D.UserAgent := D.Text(c.userAgent), D.IpAddress := D.Text(c.ipAddress)]
  }

  function WithList(n: D.Fields, p: D.Pred, items: set<string>): D.Fields {
    if items == {} then n else n[p := D.Texts(items)]
  }

  function NewFields(c: Core): D.Fields {
    WithList(WithList(WithList(ScalarFields(c),
      D.Permissions, c.who.permissions), D.Delegated, c.who.delegated), D.PolicyGroups, c.who.policyGroups)
  }

  /** What the database keeps of a core. */
  function Stored(c: Core): Core {
    c.(createdAt := Trunc(c.createdAt), expiresAt := Trunc(c.expiresAt), refreshExpiresAt := Trunc(c.refreshExpiresAt))
  }

  function FreshStatus(now: int): Status { Status(false, None, "", Trunc(now), Trunc(now)) }

  lemma ScalarPrincipal(c: Core)
    ensures PrincipalOf(ScalarFields(c)) == c.who.(permissions := {}, delegated := {}, policyGroups := {})
    ensures Typed(ScalarFields(c)) && Live(ScalarFields(c))
  {
  }

  lemma ScalarCore(c: Core)
    ensures CoreOf(ScalarFields(c)) == Stored(c).(who := PrincipalOf(ScalarFields(c)))
  {
  }

  lemma ScalarStatus(c: Core)
    ensures StatusOf(ScalarFields(c)) == FreshStatus(c.createdAt)
  {
  }

  lemma ScalarLists(c: Core)
    ensures var n := ScalarFields(c);
      D.Get(n, D.Permissions) == None && D.Get(n, D.Delegated) == None && D.Get(n, D.PolicyGroups) == None
  {
  }

  lemma ListGets(n: D.Fields, p: D.Pred, items: set<string>)
    requires D.Get(n, p) == None
    ensures TextsOf(D.Get(WithList(n, p, items), p)) == items
    ensures forall q :: q != p ==> D.Get(WithList(n, p, items), q) == D.Get(n, q)
  {
  }

  predicate ListPred(p: D.Pred) { p.Permissions? || p.Delegated? || p.PolicyGroups? }

  lemma PrincipalElsewhere(n: D.Fields, m: D.Fields)
    requires forall p :: !ListPred(p) ==> D.Get(m, p) == D.Get(n, p)
    ensures PrincipalOf(m) == PrincipalOf(n).(permissions := TextsOf(D.Get(m, D.Permissions)),
                                              delegated := TextsOf(D.Get(m, D.Delegated)),
                                              policyGroups := TextsOf(D.Get(m, D.PolicyGroups)))
  {
  }

  lemma CoreElsewhere(n: D.Fields, m: D.Fields)
    requires forall p :: !ListPred(p) ==> D.Get(m, p) == D.Get(n, p)
    ensures CoreOf(m) == CoreOf(n).(who := PrincipalOf(m))
    ensures StatusOf(m) == StatusOf(n) && Typed(m) == Typed(n) && Live(m) == Live(n)
  {
  }

  lemma NewFieldsGets(c: Core)
    ensures var n, m := ScalarFields(c), NewFields(c);
      && (forall p :: !ListPred(p) ==> D.Get(m, p) == D.Get(n, p))
      && TextsOf(D.Get(m, D.Permissions)) == c.who.permissions
      && TextsOf(D.Get(m, D.Delegated)) == c.who.delegated
      && TextsOf(D.Get(m, D.PolicyGroups)) == c.who.policyGroups
  {
    var n := ScalarFields(c);
    ScalarLists(c);
    ListGets(n, D.Permissions, c.who.permissions);
    var m := WithList(n, D.Permissions, c.who.permissions);
    ListGets(m, D.Delegated, c.who.delegated);
    ListGets(WithList(m, D.Delegated, c.who.delegated), D.PolicyGroups, c.who.policyGroups);
  }

  /** Writing a session and reading it back gives the same session, cut to whole seconds. */
  lemma ReadBack(u: D.Uid, c: Core)
    ensures View(u, NewFields(c)) == Session(u, Stored(c), FreshStatus(c.createdAt))
    ensures Typed(NewFields(c)) && Live(NewFields(c))
  {
    var n, m := ScalarFields(c), NewFields(c);
    NewFieldsGets(c);
    PrincipalElsewhere(n, m);
    CoreElsewhere(n, m);
    ScalarPrincipal(c);
    ScalarCore(c);
    ScalarStatus(c);
  }

  lemma NewKeyed(c: Core)
    ensures D.Get(NewFields(c), D.UserId) == Some(D.Text(c.who.userId))
    ensures D.Get(NewFields(c), D.RefreshExpiresAt) == Some(D.Instant(Trunc(c.refreshExpiresAt)))
  {
    NewFieldsGets(c);
  }

  function RevokeFields(now: int): D.Fields {
    map[D.Revoked := D.Flag(true), D.RevokedAt := D.Instant(Trunc(now)), D.UpdatedAt := D.Instant(Trunc(now))]
  }

  function ReplaceFields(now: int, jti: string): D.Fields {
    map[D.Revoked := D.Flag(true), D.RevokedAt := D.Instant(Trunc(now)),
        D.ReplacedBy := D.Text(jti), D.UpdatedAt := D.Instant(Trunc(now))]
  }

  function TouchFields(now: int): D.Fields {
    map[D.LastSeenAt := D.Instant(Trunc(now))]
  }

  predicate Mutable(p: D.Pred) {
    p.Revoked? || p.RevokedAt? || p.ReplacedBy? || p.UpdatedAt? || p.LastSeenAt?
  }

  lemma PrincipalKept(n: D.Fields, f: D.Fields)
    requires forall p :: p in f ==> Mutable(p)
    ensures PrincipalOf(n + f) == PrincipalOf(n)
  {
  }

  /** Write-once: a block of mutable predicates leaves type and core as they were. */
  lemma CoreKept(n: D.Fields, f: D.Fields)
    requires forall p :: p in f ==> Mutable(p)
    ensures CoreOf(n + f) == CoreOf(n) && Typed(n + f) == Typed(n)
    ensures D.Get(n + f, D.UserId) == D.Get(n, D.UserId)
    ensures D.Get(n + f, D.RefreshExpiresAt) == D.Get(n, D.RefreshExpiresAt)
  {
    PrincipalKept(n, f);
  }

  lemma StatusRevoked(n: D.Fields, now: int)
    ensures StatusOf(n + RevokeFields(now))
         == StatusOf(n).(revoked := true, revokedAt := Some(Trunc(now)), updatedAt := Trunc(now))
    ensures !Live(n + RevokeFields(now))
  {
  }

  lemma StatusReplaced(n: D.Fields, now: int, jti: string)
    ensures StatusOf(n + ReplaceFields(now, jti))
         == StatusOf(n).(revoked := true, revokedAt := Some(Trunc(now)), updatedAt := Trunc(now), replacedBy := jti)
    ensures !Live(n + ReplaceFields(now, jti))
  {
  }

  lemma StatusTouched(n: D.Fields, now: int)
    ensures StatusOf(n + TouchFields(now)) == StatusOf(n).(lastSeenAt := Trunc(now))
    ensures Live(n + TouchFields(now)) == Live(n)
  {
  }
}
