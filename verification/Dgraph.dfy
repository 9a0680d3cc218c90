// The database as the repositories see it: nodes are sets of predicates,
// reads see one snapshot, and a transaction commits only if no key it writes
// was committed since it started (first committer wins).

module Dgraph {
  import opened Prelude
  import opened OpaqueToken

  type Uid = nat

  datatype TypeName = SessionType | UserType

  datatype Pred =
    | DType
      // session.*
    | Kind | UserId | ClientId | ActorId | ActorType
    | AccessHash | RefreshHash | RefreshJti | ReplacedBy
    | Permissions | Delegated | PolicyGroups | PermVersion
    | CreatedAt | UpdatedAt | LastSeenAt | ExpiresAt | RefreshExpiresAt
    | Revoked | RevokedAt | UserAgent | IpAddress
      // user.*
    | UserUuid | Email | Nickname | FirstName | LastName | Country | PasswordHash | Active
    | UserCreatedAt | UserUpdatedAt

  datatype Value =
    | Type(name: TypeName)
    | Text(text: string)
    | Texts(items: set<string>)
    | Hashed(digest: Digest)
    | Number(number: int)
    | Flag(flag: bool)
    | Instant(at: int)

  type Fields = map<Pred, Value>

  /** Predicates declared `@upsert`: their index entries take part in conflict detection. */
  predicate Upsert(p: Pred) {
    p.AccessHash? || p.RefreshHash? || p.UserUuid? || p.Email? || p.Nickname?
  }

  datatype Key = Data(uid: Uid, pred: Pred) | Index(ipred: Pred, value: Value)

  datatype Subject = Blank | Iri(uid: Uid)

  /** One formatted block of N-Quads: scalar predicates of one subject, or one
      element of a `[string]` predicate. */
  datatype Quads =
    | Block(subject: Subject, fields: Fields)
    | Item(subject: Subject, pred: Pred, item: string)

  /** `ts` is the last commit timestamp; `lastWrite` the commit that last wrote each key. */
  datatype Db = Db(nodes: map<Uid, Fields>, nextUid: Uid, ts: nat, lastWrite: map<Key, nat>)

  const EMPTY := Db(map[], 1, 0, map[])

  function Read(nodes: map<Uid, Fields>, u: Uid): Fields {
    if u in nodes then nodes[u] else map[]
  }

  function NodeAt(db: Db, u: Uid): Fields { Read(db.nodes, u) }

  function Get(n: Fields, p: Pred): Option<Value> {
    if p in n then Some(n[p]) else None
  }

  function Val(db: Db, u: Uid, p: Pred): Option<Value> { Get(NodeAt(db, u), p) }

  function LastWrite(db: Db, k: Key): nat {
    if k in db.lastWrite then db.lastWrite[k] else 0
  }

  /** Nodes that pass the test, in uid order. */
  function Scan(nodes: map<Uid, Fields>, test: Fields -> bool, bound: Uid): (found: seq<Uid>)
    ensures forall u :: u in found <==> u < bound && u in nodes && test(nodes[u])
    ensures forall i, j :: 0 <= i < j < |found| ==> found[i] < found[j]
  {
    if bound == 0 then []
    else
      var rest := Scan(nodes, test, bound - 1);
      assert forall i :: 0 <= i < |rest| ==> rest[i] in rest;
      if bound - 1 in nodes && test(nodes[bound - 1]) then rest + [bound - 1] else rest
  }

  // --- Mutations -------------------------------------------------------------

  function Resolve(s: Subject, blank: Uid): Uid {
    match s case Blank => blank case Iri(u) => u
  }

  function AddItem(n: Fields, p: Pred, item: string): Fields {
    n[p := Texts((if p in n && n[p].Texts? then n[p].items else {}) + {item})]
  }

  function PutQuads(n: Fields, q: Quads): Fields {
    match q
    case Block(_, f) => n + f
    case Item(_, p, x) => AddItem(n, p, x)
  }

  /** The keys one block writes on a node that now holds `n`. */
  function KeysOf(u: Uid, n: Fields, q: Quads): set<Key> {
    match q
    case Block(_, f) =>
      (set p | p in f :: Data(u, p))
      + (set p | p in f && Upsert(p) :: Index(p, f[p]))
      + (set p | p in f && Upsert(p) && p in n :: Index(p, n[p]))
    case Item(_, p, _) =>
      {Data(u, p)} + (if Upsert(p) then {Index(p, AddItem(n, p, q.item)[p])} else {})
      + (if Upsert(p) && p in n then {Index(p, n[p])} else {})
  }

  function ApplyQuads(nodes: map<Uid, Fields>, quads: seq<Quads>, blank: Uid): map<Uid, Fields> {
    if quads == [] then nodes
    else
      var before := ApplyQuads(nodes, quads[..|quads| - 1], blank);
      var q := quads[|quads| - 1];
      var u := Resolve(q.subject, blank);
      before[u := PutQuads(Read(before, u), q)]
  }

  function Touched(nodes: map<Uid, Fields>, quads: seq<Quads>, blank: Uid): set<Key> {
    if quads == [] then {}
    else
      var init := quads[..|quads| - 1];
      var q := quads[|quads| - 1];
      var u := Resolve(q.subject, blank);
      Touched(nodes, init, blank) + KeysOf(u, Read(ApplyQuads(nodes, init, blank), u), q)
  }

  predicate UsesBlank(quads: seq<Quads>) {
    exists i :: 0 <= i < |quads| && quads[i].subject.Blank?
  }

  function Stamp(db: Db, keys: set<Key>): map<Key, nat> {
    db.lastWrite + (map k | k in keys :: db.ts + 1)
  }

  function Commit(db: Db, quads: seq<Quads>): Db {
    Db(ApplyQuads(db.nodes, quads, db.nextUid),
       if UsesBlank(quads) then db.nextUid + 1 else db.nextUid,
       db.ts + 1,
       Stamp(db, Touched(db.nodes, quads, db.nextUid)))
  }

  /** A transaction that began at `startTs` may not commit these quads. */
  predicate Conflicts(db: Db, startTs: nat, quads: seq<Quads>) {
    exists k :: k in Touched(db.nodes, quads, db.nextUid) && LastWrite(db, k) > startTs
  }

  /** Deleting a node removes the predicates its type lists, so a node that
      has lost its type keeps whatever was written to it since. */
  function DeletedKeys(nodes: map<Uid, Fields>, uids: set<Uid>): set<Key> {
    (set u, p | u in uids && u in nodes && DType in nodes[u] && p in nodes[u] :: Data(u, p))
    + (set u, p | u in uids && u in nodes && DType in nodes[u] && p in nodes[u] && Upsert(p) :: Index(p, nodes[u][p]))
  }

  function Delete(db: Db, uids: set<Uid>): Db {
    Db(map u | u in db.nodes :: if u in uids && DType in db.nodes[u] then map[] else db.nodes[u],
       db.nextUid,
       db.ts + 1,
       Stamp(db, DeletedKeys(db.nodes, uids)))
  }

  lemma OneBlock(nodes: map<Uid, Fields>, b: Quads, blank: Uid)
    ensures ApplyQuads(nodes, [b], blank)
         == nodes[Resolve(b.subject, blank) := PutQuads(Read(nodes, Resolve(b.subject, blank)), b)]
  {
    assert [b][..0] == [];
  }

  lemma TwoBlocks(nodes: map<Uid, Fields>, a: Quads, b: Quads, blank: Uid)
    ensures ApplyQuads(nodes, [a, b], blank) == ApplyQuads(ApplyQuads(nodes, [a], blank), [b], blank)
  {
    assert [a, b][..1] == [a];
    assert [b][..0] == [];
  }

  lemma TouchedOne(nodes: map<Uid, Fields>, q: Quads, blank: Uid)
    ensures Touched(nodes, [q], blank)
         == KeysOf(Resolve(q.subject, blank), Read(nodes, Resolve(q.subject, blank)), q)
  {
    assert [q][..0] == [];
  }

  lemma TouchedTwo(nodes: map<Uid, Fields>, a: Quads, b: Quads, blank: Uid)
    ensures Touched(nodes, [a, b], blank)
         == Touched(nodes, [a], blank) + Touched(ApplyQuads(nodes, [a], blank), [b], blank)
  {
    assert [a, b][..1] == [a];
    assert [b][..0] == [];
  }

  // --- Snapshot isolation ------------------------------------------------------

  ghost predicate WellFormed(db: Db) {
    && (forall k :: LastWrite(db, k) <= db.ts)
    && (forall u :: u in db.nodes ==> u < db.nextUid)
  }

  /** `b` is `a` after some commits: whatever key was not written since is as it was. */
  ghost predicate Extends(a: Db, b: Db) {
    && a.ts <= b.ts
    && a.nextUid <= b.nextUid
    && (forall k :: LastWrite(b, k) == LastWrite(a, k) || LastWrite(b, k) > a.ts)
    && (forall u, p :: LastWrite(b, Data(u, p)) <= a.ts ==> Val(b, u, p) == Val(a, u, p))
    && (forall u, p, v :: Upsert(p) && LastWrite(b, Index(p, v)) <= a.ts ==>
          (Val(b, u, p) == Some(v) <==> Val(a, u, p) == Some(v)))
  }

  lemma ExtendsRefl(a: Db)
    ensures Extends(a, a)
  {
  }

  lemma ExtendsTrans(a: Db, b: Db, c: Db)
    requires Extends(a, b) && Extends(b, c)
    ensures Extends(a, c)
  {
    forall u, p | LastWrite(c, Data(u, p)) <= a.ts
      ensures Val(c, u, p) == Val(a, u, p)
    {
      assert LastWrite(b, Data(u, p)) == LastWrite(c, Data(u, p));
      assert Val(c, u, p) == Val(b, u, p);
    }
    forall u, p, v | Upsert(p) && LastWrite(c, Index(p, v)) <= a.ts
      ensures Val(c, u, p) == Some(v) <==> Val(a, u, p) == Some(v)
    {
      assert LastWrite(b, Index(p, v)) == LastWrite(c, Index(p, v));
      assert Val(c, u, p) == Some(v) <==> Val(b, u, p) == Some(v);
    }
  }

  lemma {:induction false} UntouchedData(nodes: map<Uid, Fields>, quads: seq<Quads>, blank: Uid, u: Uid, p: Pred)
    requires Data(u, p) !in Touched(nodes, quads, blank)
    ensures Get(Read(ApplyQuads(nodes, quads, blank), u), p) == Get(Read(nodes, u), p)
  {
    if quads != [] {
      UntouchedData(nodes, quads[..|quads| - 1], blank, u, p);
    }
  }

  lemma {:induction false} UntouchedIndex(nodes: map<Uid, Fields>, quads: seq<Quads>, blank: Uid, u: Uid, p: Pred,
      v: Value)
    requires Upsert(p) && Index(p, v) !in Touched(nodes, quads, blank)
    ensures Get(Read(ApplyQuads(nodes, quads, blank), u), p) == Some(v) <==> Get(Read(nodes, u), p) == Some(v)
  {
    if quads != [] {
      UntouchedIndex(nodes, quads[..|quads| - 1], blank, u, p, v);
    }
  }

  lemma {:induction false} ApplyKeys(nodes: map<Uid, Fields>, quads: seq<Quads>, blank: Uid, bound: Uid)
    requires forall u :: u in nodes ==> u < bound
    requires forall i :: 0 <= i < |quads| ==> Resolve(quads[i].subject, blank) < bound
    ensures forall u :: u in ApplyQuads(nodes, quads, blank) ==> u < bound
  {
    if quads != [] {
      ApplyKeys(nodes, quads[..|quads| - 1], blank, bound);
    }
  }

  /** Every named subject already exists. */
  predicate Grounded(db: Db, quads: seq<Quads>) {
    forall i :: 0 <= i < |quads| && quads[i].subject.Iri? ==> quads[i].subject.uid < db.nextUid
  }

  lemma CommitExtends(db: Db, quads: seq<Quads>)
    requires WellFormed(db) && Grounded(db, quads)
    ensures WellFormed(Commit(db, quads)) && Extends(db, Commit(db, quads))
  {
    var b := Commit(db, quads);
    var keys := Touched(db.nodes, quads, db.nextUid);
    forall k ensures LastWrite(b, k) == if k in keys then db.ts + 1 else LastWrite(db, k) {}
    ApplyKeys(db.nodes, quads, db.nextUid, b.nextUid);
    forall u, p | LastWrite(b, Data(u, p)) <= db.ts
      ensures Val(b, u, p) == Val(db, u, p)
    {
      UntouchedData(db.nodes, quads, db.nextUid, u, p);
    }
    forall u, p, v | Upsert(p) && LastWrite(b, Index(p, v)) <= db.ts
      ensures Val(b, u, p) == Some(v) <==> Val(db, u, p) == Some(v)
    {
      UntouchedIndex(db.nodes, quads, db.nextUid, u, p, v);
    }
  }

  lemma DeleteExtends(db: Db, uids: set<Uid>)
    requires WellFormed(db)
    ensures WellFormed(Delete(db, uids)) && Extends(db, Delete(db, uids))
  {
    var b := Delete(db, uids);
    var keys := DeletedKeys(db.nodes, uids);
    forall k ensures LastWrite(b, k) == if k in keys then db.ts + 1 else LastWrite(db, k) {}
    forall u, p | LastWrite(b, Data(u, p)) <= db.ts
      ensures Val(b, u, p) == Val(db, u, p)
    {
      assert Data(u, p) !in keys;
    }
    forall u, p, v | Upsert(p) && LastWrite(b, Index(p, v)) <= db.ts
      ensures Val(b, u, p) == Some(v) <==> Val(db, u, p) == Some(v)
    {
      assert Index(p, v) !in keys;
    }
  }
}
