// internal/repository/dgraph/session.go, method by method. Where a method uses
// two transactions, `between` is what other clients commit in the meantime.

module SessionRepository {
  import opened Prelude
  import opened Times
  import opened Sessions
  import opened SessionStore
  import opened SessionListing
  import D = Dgraph

  datatype RepoError = StoreError | SessionNotFound | RefreshTokenReplayed

  type Reply<+T> = Result<T, RepoError>

  // --- Commits of others -----------------------------------------------------------

  function ApplyAll(db: D.Db, ms: seq<Mutation>): D.Db {
    if ms == [] then db else Apply(ApplyAll(db, ms[..|ms| - 1]), ms[|ms| - 1])
  }

  /** Every mutation names only nodes that exist when it commits. */
  ghost predicate GroundedAll(db: D.Db, ms: seq<Mutation>) {
    ms == [] || (GroundedAll(db, ms[..|ms| - 1]) && Grounded(ApplyAll(db, ms[..|ms| - 1]), ms[|ms| - 1]))
  }

  lemma {:induction false} ApplyAllExtends(db: D.Db, ms: seq<Mutation>)
    requires D.WellFormed(db) && GroundedAll(db, ms)
    ensures D.WellFormed(ApplyAll(db, ms)) && D.Extends(db, ApplyAll(db, ms))
  {
    hide D.WellFormed, D.Extends, Apply, Grounded;
    D.ExtendsRefl(db);
    if ms != [] {
      var init := ms[..|ms| - 1];
      ApplyAllExtends(db, init);
      ApplyExtends(ApplyAll(db, init), ms[|ms| - 1]);
      D.ExtendsTrans(db, ApplyAll(db, init), ApplyAll(db, ms));
    }
  }

  // --- One triple per list element ---------------------------------------------------

  /** The quads a loop over a list accumulates for a new node. */
  function ItemQuads(p: D.Pred, items: seq<string>): seq<D.Quads> {
    if items == [] then [] else ItemQuads(p, items[..|items| - 1]) + [D.Item(D.Blank, p, items[|items| - 1])]
  }

  function CreateQuads(c: Core, a: seq<string>, b: seq<string>, g: seq<string>): seq<D.Quads> {
    [D.Block(D.Blank, ScalarFields(c))]
    + ItemQuads(D.Permissions, a) + ItemQuads(D.Delegated, b) + ItemQuads(D.PolicyGroups, g)
  }

  lemma AppendItem(nodes: map<D.Uid, D.Fields>, quads: seq<D.Quads>, p: D.Pred, x: string, blank: D.Uid)
    requires ListPred(p)
    ensures var more, before := quads + [D.Item(D.Blank, p, x)], D.ApplyQuads(nodes, quads, blank);
      && D.ApplyQuads(nodes, more, blank) == before[blank := D.AddItem(D.Read(before, blank), p, x)]
      && D.Touched(nodes, more, blank) == D.Touched(nodes, quads, blank) + {D.Data(blank, p)}
  {
    var more := quads + [D.Item(D.Blank, p, x)];
    assert more[..|more| - 1] == quads;
  }

  lemma OneMore(n: D.Fields, p: D.Pred, items: set<string>, x: string)
    requires p !in n
    ensures D.AddItem(WithList(n, p, items), p, x) == WithList(n, p, items + {x})
  {
  }

  lemma LastElement(items: seq<string>)
    requires items != []
    ensures Elements(items) == Elements(items[..|items| - 1]) + {items[|items| - 1]}
  {
    assert items == items[..|items| - 1] + [items[|items| - 1]];
  }

  lemma NoItems(nodes: map<D.Uid, D.Fields>, base: seq<D.Quads>, p: D.Pred, blank: D.Uid)
    requires blank in D.ApplyQuads(nodes, base, blank)
    ensures var before := D.ApplyQuads(nodes, base, blank);
      D.ApplyQuads(nodes, base + ItemQuads(p, []), blank) == before[blank := WithList(before[blank], p, Elements([]))]
    ensures D.Touched(nodes, base + ItemQuads(p, []), blank) == D.Touched(nodes, base, blank)
  {
    assert base + ItemQuads(p, []) == base;
    hide D.ApplyQuads, D.Touched;
  }

  lemma {:induction false} ItemsEffect(nodes: map<D.Uid, D.Fields>, base: seq<D.Quads>, p: D.Pred, items: seq<string>,
      blank: D.Uid)
    requires ListPred(p)
    requires blank in D.ApplyQuads(nodes, base, blank)
    requires p !in D.ApplyQuads(nodes, base, blank)[blank]
    ensures var before := D.ApplyQuads(nodes, base, blank);
      D.ApplyQuads(nodes, base + ItemQuads(p, items), blank)
      == before[blank := WithList(before[blank], p, Elements(items))]
    ensures D.Touched(nodes, base + ItemQuads(p, items), blank)
         == D.Touched(nodes, base, blank) + (if items == [] then {} else {D.Data(blank, p)})
  {
    hide D.ApplyQuads, D.Touched, D.AddItem, WithList, Elements;
    var quads, before := base + ItemQuads(p, items), D.ApplyQuads(nodes, base, blank);
    if items == [] {
      NoItems(nodes, base, p, blank);
    } else {
      var init, last := items[..|items| - 1], items[|items| - 1];
      assert quads == base + ItemQuads(p, init) + [D.Item(D.Blank, p, last)];
      ItemsEffect(nodes, base, p, init, blank);
      AppendItem(nodes, base + ItemQuads(p, init), p, last, blank);
      OneMore(before[blank], p, Elements(init), last);
      LastElement(items);
    }
  }

  lemma ScalarNoLists(c: Core)
    ensures forall p :: p in ScalarFields(c) ==> !ListPred(p)
  {
  }

  lemma OtherList(n: D.Fields, p: D.Pred, q: D.Pred, items: set<string>)
    requires p !in n && p != q
    ensures p !in WithList(n, q, items)
  {
  }

  lemma ThreeLists(nodes: map<D.Uid, D.Fields>, base: seq<D.Quads>, n: D.Fields,
                   a: seq<string>, b: seq<string>, g: seq<string>, blank: D.Uid)
    requires blank in D.ApplyQuads(nodes, base, blank) && D.ApplyQuads(nodes, base, blank)[blank] == n
    requires D.Permissions !in n && D.Delegated !in n && D.PolicyGroups !in n
    ensures var quads := base + ItemQuads(D.Permissions, a) + ItemQuads(D.Delegated, b) + ItemQuads(D.PolicyGroups, g);
      && D.ApplyQuads(nodes, quads, blank) == D.ApplyQuads(nodes, base, blank)[blank :=
           WithList(WithList(WithList(n, D.Permissions, Elements(a)), D.Delegated, Elements(b)),
                    D.PolicyGroups, Elements(g))]
      && D.Touched(nodes, quads, blank) == D.Touched(nodes, base, blank)
           + (if a == [] then {} else {D.Data(blank, D.Permissions)})
           + (if b == [] then {} else {D.Data(blank, D.Delegated)})
           + (if g == [] then {} else {D.Data(blank, D.PolicyGroups)})
  {
    hide D.ApplyQuads, D.Touched, WithList, ItemQuads, Elements;
    var n1 := WithList(n, D.Permissions, Elements(a));
    OtherList(n, D.Delegated, D.Permissions, Elements(a));
    OtherList(n, D.PolicyGroups, D.Permissions, Elements(a));
    OtherList(n1, D.PolicyGroups, D.Delegated, Elements(b));
    ItemsEffect(nodes, base, D.Permissions, a, blank);
    ItemsEffect(nodes, base + ItemQuads(D.Permissions, a), D.Delegated, b, blank);
    ItemsEffect(nodes, base + ItemQuads(D.Permissions, a) + ItemQuads(D.Delegated, b), D.PolicyGroups, g, blank);
  }

  /** Block and loops together commit exactly the node `NewFields` describes. */
  lemma CreateQuadsEffect(nodes: map<D.Uid, D.Fields>, base: seq<D.Quads>, c: Core,
                          a: seq<string>, b: seq<string>, g: seq<string>, blank: D.Uid)
    requires blank !in D.ApplyQuads(nodes, base, blank)
    requires Elements(a) == c.who.permissions && Elements(b) == c.who.delegated && Elements(g) == c.who.policyGroups
    ensures D.ApplyQuads(nodes, base + CreateQuads(c, a, b, g), blank)
         == D.ApplyQuads(nodes, base + [D.Block(D.Blank, NewFields(c))], blank)
    ensures D.Touched(nodes, base + CreateQuads(c, a, b, g), blank)
         == D.Touched(nodes, base + [D.Block(D.Blank, NewFields(c))], blank)
  {
    hide ScalarFields;
    var n := ScalarFields(c);
    var q0 := base + [D.Block(D.Blank, n)];
    ScalarNoLists(c);
    AppendBlock(nodes, base, n, blank);
    AppendBlock(nodes, base, NewFields(c), blank);
    NewFieldsKeys(c, blank, a, b, g);
    hide D.ApplyQuads, D.Touched, D.KeysOf, ItemQuads, WithList, Elements;
    ThreeLists(nodes, q0, n, a, b, g, blank);
    var lists := q0 + ItemQuads(D.Permissions, a) + ItemQuads(D.Delegated, b) + ItemQuads(D.PolicyGroups, g);
    assert D.ApplyQuads(nodes, q0, blank)[blank := NewFields(c)] == D.ApplyQuads(nodes, lists, blank);
    Overwrite(D.ApplyQuads(nodes, base, blank), blank, n, NewFields(c));
    hide NewFields;
    Union(D.Touched(nodes, base, blank), D.KeysOf(blank, map[], D.Block(D.Blank, n)),
          if a == [] then {} else {D.Data(blank, D.Permissions)},
          if b == [] then {} else {D.Data(blank, D.Delegated)},
          if g == [] then {} else {D.Data(blank, D.PolicyGroups)});
    Regroup(base, [D.Block(D.Blank, n)], ItemQuads(D.Permissions, a), ItemQuads(D.Delegated, b),
            ItemQuads(D.PolicyGroups, g));
  }

  lemma Overwrite(m: map<D.Uid, D.Fields>, u: D.Uid, n: D.Fields, n2: D.Fields)
    ensures m[u := n][u := n2] == m[u := n2]
  {
  }

  lemma Union(t: set<D.Key>, k: set<D.Key>, a: set<D.Key>, b: set<D.Key>, g: set<D.Key>)
    ensures t + k + a + b + g == t + (k + a + b + g)
  {
  }

  lemma Regroup<T>(base: seq<T>, x: seq<T>, a: seq<T>, b: seq<T>, g: seq<T>)
    ensures base + (x + a + b + g) == base + x + a + b + g
  {
  }

  lemma AppendBlock(nodes: map<D.Uid, D.Fields>, quads: seq<D.Quads>, f: D.Fields, blank: D.Uid)
    requires blank !in D.ApplyQuads(nodes, quads, blank)
    ensures var more, before := quads + [D.Block(D.Blank, f)], D.ApplyQuads(nodes, quads, blank);
      && D.ApplyQuads(nodes, more, blank) == before[blank := f]
      && D.Touched(nodes, more, blank) == D.Touched(nodes, quads, blank) + D.KeysOf(blank, map[], D.Block(D.Blank, f))
  {
    var more := quads + [D.Block(D.Blank, f)];
    assert more[..|more| - 1] == quads;
    assert map[] + f == f;
  }

  lemma NewFieldsKeys(c: Core, u: D.Uid, a: seq<string>, b: seq<string>, g: seq<string>)
    requires Elements(a) == c.who.permissions && Elements(b) == c.who.delegated && Elements(g) == c.who.policyGroups
    ensures D.KeysOf(u, map[], D.Block(D.Blank, NewFields(c)))
         == D.KeysOf(u, map[], D.Block(D.Blank, ScalarFields(c)))
            + (if a == [] then {} else {D.Data(u, D.Permissions)})
            + (if b == [] then {} else {D.Data(u, D.Delegated)})
            + (if g == [] then {} else {D.Data(u, D.PolicyGroups)})
  {
    var n := ScalarFields(c);
    var n1 := WithList(n, D.Permissions, c.who.permissions);
    var n2 := WithList(n1, D.Delegated, c.who.delegated);
    ScalarNoLists(c);
    hide ScalarFields;
    ListKeys(u, n, D.Permissions, a);
    ListKeys(u, n1, D.Delegated, b);
    ListKeys(u, n2, D.PolicyGroups, g);
    hide D.KeysOf, Elements;
  }

  lemma ListKeys(u: D.Uid, n: D.Fields, p: D.Pred, items: seq<string>)
    requires ListPred(p)
    ensures D.KeysOf(u, map[], D.Block(D.Blank, WithList(n, p, Elements(items))))
         == D.KeysOf(u, map[], D.Block(D.Blank, n)) + (if items == [] then {} else {D.Data(u, p)})
  {
    hide D.KeysOf;
    assert items != [] ==> items[0] in Elements(items);
    if items != [] {
      MoreKeys(u, n, p, D.Texts(Elements(items)));
    }
    hide Elements;
  }

  lemma MoreKeys(u: D.Uid, n: D.Fields, p: D.Pred, v: D.Value)
    requires !D.Upsert(p)
    ensures D.KeysOf(u, map[], D.Block(D.Blank, n[p := v])) == D.KeysOf(u, map[], D.Block(D.Blank, n)) + {D.Data(u, p)}
  {
  }

  /** Two mutations with the same effect and the same written keys commit alike. */
  lemma SameCommit(db: D.Db, x: seq<D.Quads>, y: seq<D.Quads>)
    requires D.ApplyQuads(db.nodes, x, db.nextUid) == D.ApplyQuads(db.nodes, y, db.nextUid)
    requires D.Touched(db.nodes, x, db.nextUid) == D.Touched(db.nodes, y, db.nextUid)
    requires D.UsesBlank(x) == D.UsesBlank(y)
    ensures D.Commit(db, x) == D.Commit(db, y)
    ensures forall ts :: D.Conflicts(db, ts, x) == D.Conflicts(db, ts, y)
  {
    hide D.ApplyQuads, D.Touched, D.Stamp, D.UsesBlank;
  }

  lemma HasBlank(quads: seq<D.Quads>, i: nat)
    requires i < |quads| && quads[i].subject.Blank?
    ensures D.UsesBlank(quads)
  {
  }

  lemma CreateCommits(db: D.Db, c: Core, a: seq<string>, b: seq<string>, g: seq<string>)
    requires D.WellFormed(db)
    requires Elements(a) == c.who.permissions && Elements(b) == c.who.delegated && Elements(g) == c.who.policyGroups
    ensures D.Commit(db, CreateQuads(c, a, b, g)) == Apply(db, Create(c))
  {
    hide D.Commit, D.Conflicts, D.UsesBlank, D.Touched, NewFields, ItemQuads, ScalarFields, Elements;
    var x, y := CreateQuads(c, a, b, g), [D.Block(D.Blank, NewFields(c))];
    HasBlank(x, 0);
    HasBlank(y, 0);
    assert D.ApplyQuads(db.nodes, [], db.nextUid) == db.nodes;
    hide D.ApplyQuads, CreateQuads;
    CreateQuadsEffect(db.nodes, [], c, a, b, g, db.nextUid);
    assert [] + x == x && [] + y == y;
    SameCommit(db, x, y);
  }

  lemma RotateCommits(db: D.Db, p: D.Uid, now: int, c: Core, a: seq<string>, b: seq<string>, g: seq<string>)
    requires D.WellFormed(db) && p < db.nextUid
    requires Elements(a) == c.who.permissions && Elements(b) == c.who.delegated && Elements(g) == c.who.policyGroups
    ensures var quads := [D.Block(D.Iri(p), ReplaceFields(now, c.refreshJti))] + CreateQuads(c, a, b, g);
      && D.Commit(db, quads) == Apply(db, Rotate(p, now, c))
      && (forall ts :: D.Conflicts(db, ts, quads) == D.Conflicts(db, ts, QuadsOf(Rotate(p, now, c))))
  {
    hide D.Commit, D.Conflicts, D.UsesBlank, D.Touched, NewFields, ItemQuads, ScalarFields, Elements, ReplaceFields;
    var base := [D.Block(D.Iri(p), ReplaceFields(now, c.refreshJti))];
    var x, y := base + CreateQuads(c, a, b, g), base + [D.Block(D.Blank, NewFields(c))];
    HasBlank(x, 1);
    HasBlank(y, 1);
    D.OneBlock(db.nodes, base[0], db.nextUid);
    assert db.nextUid !in D.ApplyQuads(db.nodes, base, db.nextUid);
    hide D.ApplyQuads, CreateQuads;
    CreateQuadsEffect(db.nodes, base, c, a, b, g, db.nextUid);
    assert y == QuadsOf(Rotate(p, now, c));
    SameCommit(db, x, y);
  }

  lemma PurgeGrounded(db: D.Db, uids: seq<D.Uid>)
    ensures Grounded(db, Mutation.Purge(uids))
  {
  }

  lemma PurgeDeletes(db: D.Db, uids: seq<D.Uid>, refs: set<D.Uid>)
    requires refs == Members(uids)
    ensures D.Delete(db, refs) == Apply(db, Mutation.Purge(uids))
  {
    hide D.Delete;
  }

  // --- Uids the database has handed out -----------------------------------------------

  /** The database refuses a mutation that names a uid it never handed out. */
  predicate Leased(quads: seq<D.Quads>, limit: D.Uid) {
    forall q :: q in quads && q.subject.Iri? ==> q.subject.uid < limit
  }

  lemma {:induction false} ItemsLeased(p: D.Pred, items: seq<string>, limit: D.Uid)
    ensures Leased(ItemQuads(p, items), limit)
  {
    if items != [] {
      ItemsLeased(p, items[..|items| - 1], limit);
    }
  }

  lemma CreateLeased(c: Core, a: seq<string>, b: seq<string>, g: seq<string>, limit: D.Uid)
    ensures Leased(CreateQuads(c, a, b, g), limit)
  {
    hide ItemQuads, ScalarFields;
    ItemsLeased(D.Permissions, a, limit);
    ItemsLeased(D.Delegated, b, limit);
    ItemsLeased(D.PolicyGroups, g, limit);
  }

  lemma MoreLeased(quads: seq<D.Quads>, q: D.Quads, limit: D.Uid)
    ensures Leased(quads + [q], limit) <==> Leased(quads, limit) && (q.subject.Iri? ==> q.subject.uid < limit)
  {
    assert q in quads + [q] && forall x :: x in quads ==> x in quads + [q];
  }

  lemma {:induction false} RevokesLeased(uids: seq<D.Uid>, now: int, limit: D.Uid)
    ensures Leased(RevokeQuads(uids, now), limit) <==> forall u :: u in uids ==> u < limit
  {
    if uids != [] {
      var init, last := uids[..|uids| - 1], uids[|uids| - 1];
      RevokesLeased(init, now, limit);
      var q := D.Block(D.Iri(last), RevokeFields(now));
      hide RevokeFields;
      assert RevokeQuads(uids, now) == RevokeQuads(init, now) + [q];
      MoreLeased(RevokeQuads(init, now), q, limit);
      assert forall u :: u in uids <==> u in init || u == last;
      assert last in uids;
    }
  }

  /** What a created session reads back as: each field of the input under its own name,
      the times cut to whole seconds, the lists as sets. */
  lemma CreatedSession(db: D.Db, i: SessionCreateInput, now: int)
    requires D.WellFormed(db)
    ensures var t := Apply(db, Mutation.Create(CoreOfInput(i, now)));
      View(db.nextUid, D.NodeAt(t, db.nextUid)) == Session(
        db.nextUid,
        Core(Principal(i.kind, i.userId, i.actorId, i.actorType, i.clientId, set x | x in i.permissions,
                       set x | x in i.delegated, set x | x in i.policyGroups),
             i.permVersion, i.accessHash, i.refreshHash, i.refreshJti,
             Trunc(now), Trunc(i.expiresAt), Trunc(i.refreshExpiresAt), i.userAgent, i.ipAddress),
        Status(false, None, "", Trunc(now), Trunc(now)))
  {
    hide Apply, NewFields, CoreOf, StatusOf, D.WellFormed, Trunc;
    var core := CoreOfInput(i, now);
    ApplyEffect(db, Mutation.Create(core), db.nextUid);
    ReadBack(db.nextUid, core);
  }

  /** What a rotation puts in place of `u`: the new hashes, times, user agent and address
      of the input; identity and deadline as they were, permissions too unless the
      input carries a list of them. */
  lemma RotatedSession(db: D.Db, u: D.Uid, prev: Core, i: SessionRefreshInput, now: int)
    requires D.WellFormed(db) && u < db.nextUid
    ensures var t, v := Apply(db, Mutation.Rotate(u, now, Successor(prev, i, now))), db.nextUid;
      var who, carry := prev.who, i.permissions == [];
      View(v, D.NodeAt(t, v)) == Session(
        v,
        Core(Principal(who.kind, who.userId, who.actorId, who.actorType, who.clientId,
                       if carry then who.permissions else set x | x in i.permissions,
                       if carry then who.delegated else set x | x in i.delegated,
                       if carry then who.policyGroups else set x | x in i.policyGroups),
             if carry then prev.permVersion else i.permVersion, i.accessHash, i.refreshHash, i.refreshJti,
             Trunc(now), Trunc(i.expiresAt), Trunc(i.refreshExpiresAt), i.userAgent, i.ipAddress),
        Status(false, None, "", Trunc(now), Trunc(now)))
  {
    hide Apply, NewFields, CoreOf, StatusOf, D.WellFormed, Trunc;
    var core := Successor(prev, i, now);
    ApplyEffect(db, Mutation.Rotate(u, now, core), db.nextUid);
    ReadBack(db.nextUid, core);
  }

  /** A stored session whose refresh deadline has come by the second of `now`. */
  predicate Overdue(n: D.Fields, now: int) {
    && D.Get(n, D.DType) == Some(D.Type(D.SessionType))
    && var at := D.Get(n, D.RefreshExpiresAt); at.Some? && at.value.Instant? && at.value.at <= now - now % SECOND
  }

  /** A node of the user that is not revoked. */
  predicate OpenFor(n: D.Fields, userId: string) {
    D.Get(n, D.UserId) == Some(D.Text(userId)) && D.Get(n, D.Revoked) != Some(D.Flag(true))
  }

  // --- The repository -----------------------------------------------------------------

  class SessionRepo {
    var db: D.Db

    ghost predicate Valid()
      reads this
    {
      D.WellFormed(db)
    }

    constructor ()
      ensures Valid() && db == D.EMPTY
    {
      db := D.EMPTY;
    }

    /** What other clients commit while this one is between two transactions. */
    method Others(ms: seq<Mutation>)
      requires Valid() && GroundedAll(db, ms)
      modifies this
      ensures Valid() && db == ApplyAll(old(db), ms)
    {
      ghost var start := db;
      for i := 0 to |ms|
        invariant db == ApplyAll(start, ms[..i])
      {
        assert ms[..i + 1][..i] == ms[..i];
        db := Apply(db, ms[i]);
      }
      assert ms[..|ms|] == ms;
      ApplyAllExtends(start, ms);
    }

    /** A mutation with CommitNow: one transaction of its own. */
    method Mutate(quads: seq<D.Quads>, f: Fault) returns (ok: bool)
      modifies this
      ensures ok <==> f == NoFault && Leased(quads, old(db).nextUid)
      ensures db == if f == Refused || !Leased(quads, old(db).nextUid) then old(db) else D.Commit(old(db), quads)
    {
      if f == Refused || !Leased(quads, db.nextUid) {
        return false;
      }
      db := D.Commit(db, quads);
      ok := f == NoFault;
    }

    /** Commit of a transaction that began at `startTs`. */
    method CommitTxn(startTs: nat, quads: seq<D.Quads>, f: Fault) returns (ok: bool)
      requires Leased(quads, db.nextUid)
      modifies this
      ensures ok <==> f == NoFault && !D.Conflicts(old(db), startTs, quads)
      ensures db == if f == Refused || D.Conflicts(old(db), startTs, quads) then old(db) else D.Commit(old(db), quads)
    {
      if D.Conflicts(db, startTs, quads) {
        return false;
      }
      ok := Mutate(quads, f);
    }

    method GetByID(u: D.Uid, f: Fault) returns (r: Reply<Option<Session>>)
      ensures r == if f != NoFault then Err(StoreError) else Ok(SessionStore.GetByID(db, u))
    {
      if f != NoFault {
        return Err(StoreError);
      }
      return Ok(SessionStore.GetByID(db, u));
    }

    /** The read-back of a new session is a transaction of its own: it may fail
        after the commit, and others may have revoked or purged the session. */
    method Create(i: SessionCreateInput, now: int, f: Fault, between: seq<Mutation>, readBack: Fault)
      returns (r: Reply<Option<Session>>)
      requires Valid()
      requires GroundedAll(Apply(db, Mutation.Create(CoreOfInput(i, now))), between)
      modifies this
      ensures Valid()
      ensures f == Refused ==> db == old(db) && r == Err(StoreError)
      ensures f != Refused ==> db == (if f == NoFault
                                      then ApplyAll(Apply(old(db), Mutation.Create(CoreOfInput(i, now))), between)
                                      else Apply(old(db), Mutation.Create(CoreOfInput(i, now))))
      ensures r.Ok? <==> f == NoFault && readBack == NoFault
      ensures r.Ok? ==> r.value == SessionStore.GetByID(db, old(db).nextUid)
    {
      var core := CoreOfInput(i, now);
      var nquads := [D.Block(D.Blank, ScalarFields(core))];
      nquads := AppendItems(nquads, D.Permissions, i.permissions);
      nquads := AppendItems(nquads, D.Delegated, i.delegated);
      nquads := AppendItems(nquads, D.PolicyGroups, i.policyGroups);
      assert nquads == CreateQuads(core, i.permissions, i.delegated, i.policyGroups);
      CreateCommits(db, core, i.permissions, i.delegated, i.policyGroups);
      CreateLeased(core, i.permissions, i.delegated, i.policyGroups, db.nextUid);
      ApplyExtends(db, Mutation.Create(core));
      var uid := db.nextUid;
      var ok := Mutate(nquads, f);
      if !ok {
        return Err(StoreError);
      }
      Others(between);
      r := GetByID(uid, readBack);
    }

    /** The loops over permissions, delegated permissions and policy groups. */
    method AppendItems(quads: seq<D.Quads>, p: D.Pred, items: seq<string>) returns (more: seq<D.Quads>)
      ensures more == quads + ItemQuads(p, items)
    {
      more := quads;
      for i := 0 to |items|
        invariant more == quads + ItemQuads(p, items[..i])
      {
        assert items[..i + 1][..i] == items[..i];
        more := more + [D.Item(D.Blank, p, items[i])];
      }
      assert items[..|items|] == items;
    }

    /** A `[string]` predicate read back: each element once, in no particular order. */
    method Listed(s: set<string>) returns (items: seq<string>)
      ensures Elements(items) == s
    {
      items := [];
      var rest := s;
      while rest != {}
        invariant rest <= s && Elements(items) == s - rest
        decreases rest
      {
        var x :| x in rest;
        rest := rest - {x};
        assert Elements(items + [x]) == Elements(items) + {x};
        items := items + [x];
      }
    }

    /** Read, then replace, in one transaction: it aborts if any key it writes
        was committed by others since the read. */
    method RotateTokens(i: SessionRefreshInput, now: int, read: Fault, between: seq<Mutation>, f: Fault,
        readBack: Fault)
      returns (r: Reply<Option<Session>>)
      requires Valid() && GroundedAll(db, between)
      modifies this
      ensures Valid()
      ensures read != NoFault ==> r == Err(StoreError) && db == old(db)
      ensures var prev := SessionStore.GetByID(old(db), i.oldSessionId);
        read == NoFault ==>
          if prev.None? then r == Err(SessionNotFound) && db == old(db)
          else if prev.value.status.revoked then r == Err(RefreshTokenReplayed) && db == old(db)
          else
            var db1 := ApplyAll(old(db), between);
            var m := Rotate(i.oldSessionId, now, Successor(prev.value.core, i, now));
            if f == Refused || D.Conflicts(db1, old(db).ts, QuadsOf(m)) then r == Err(StoreError) && db == db1
            else db == Apply(db1, m)
                 && (if f == NoFault && readBack == NoFault then r == Ok(SessionStore.GetByID(db, db1.nextUid))
                     else r == Err(StoreError))
    {
      var startTs := db.ts;
      var reply := GetByID(i.oldSessionId, read);
      if reply.Err? {
        return Err(StoreError);
      }
      if reply.value.None? {
        return Err(SessionNotFound);
      }
      var prev := reply.value.value;
      if prev.status.revoked {
        return Err(RefreshTokenReplayed);
      }
      ApplyAllExtends(db, between);
      Others(between);
      var perms, delegated, groups := i.permissions, i.delegated, i.policyGroups;
      if |perms| == 0 {
        perms := Listed(prev.core.who.permissions);
        delegated := Listed(prev.core.who.delegated);
        groups := Listed(prev.core.who.policyGroups);
      }
      var core := Successor(prev.core, i, now);
      var revokeNquads := [D.Block(D.Iri(i.oldSessionId), ReplaceFields(now, i.refreshJti))];
      var createNquads := [D.Block(D.Blank, ScalarFields(core))];
      createNquads := AppendItems(createNquads, D.Permissions, perms);
      createNquads := AppendItems(createNquads, D.Delegated, delegated);
      createNquads := AppendItems(createNquads, D.PolicyGroups, groups);
      assert createNquads == CreateQuads(core, perms, delegated, groups);
      RotateCommits(db, i.oldSessionId, now, core, perms, delegated, groups);
      CreateLeased(core, perms, delegated, groups, db.nextUid);
      ApplyExtends(db, Rotate(i.oldSessionId, now, core));
      var uid := db.nextUid;
      var ok := CommitTxn(startTs, revokeNquads + createNquads, f);
      if !ok {
        return Err(StoreError);
      }
      r := GetByID(uid, readBack);
    }

    /** Idempotent on `revoked`; the time of revocation is rewritten each time. */
    method Revoke(u: D.Uid, now: int, f: Fault) returns (ok: bool)
      requires Valid()
      modifies this
      ensures Valid() && (ok <==> f == NoFault && u < old(db).nextUid)
      ensures db == if f == Refused || u >= old(db).nextUid then old(db)
                    else Apply(old(db), Mutation.Revoke([u], now))
    {
      assert [u][..0] == [];
      var nquads := [D.Block(D.Iri(u), RevokeFields(now))];
      assert nquads == RevokeQuads([u], now);
      RevokesLeased([u], now, db.nextUid);
      if u < db.nextUid {
        ApplyExtends(db, Mutation.Revoke([u], now));
      }
      ok := Mutate(nquads, f);
    }

    /** List in one transaction, revoke in another. */
    method RevokeAllForUser(userId: string, now: int, list: Fault, between: seq<Mutation>, f: Fault) returns (ok: bool)
      requires Valid() && GroundedAll(db, between)
      modifies this
      ensures Valid()
      ensures var found := Query(old(db), LiveOf(userId));
        if list != NoFault then !ok && db == old(db)
        else if found == [] then ok && db == old(db)
        else
          var db1 := ApplyAll(old(db), between);
          (ok <==> f == NoFault) && db == (if f == Refused then db1 else Apply(db1, Mutation.Revoke(found, now)))
      ensures forall u :: u in Query(old(db), LiveOf(userId)) <==> OpenFor(D.NodeAt(old(db), u), userId)
    {
      forall u ensures u in Query(db, LiveOf(userId)) <==> OpenFor(D.NodeAt(db, u), userId) {
        ListFinds(db, u, userId, now);
      }
      if list != NoFault {
        return false;
      }
      var sessions := Query(db, LiveOf(userId));
      if sessions == [] {
        return true;
      }
      ApplyAllExtends(db, between);
      Others(between);
      var nquads := [];
      for i := 0 to |sessions|
        invariant nquads == RevokeQuads(sessions[..i], now)
      {
        assert sessions[..i + 1][..i] == sessions[..i];
        nquads := nquads + [D.Block(D.Iri(sessions[i]), RevokeFields(now))];
      }
      assert sessions[..|sessions|] == sessions;
      RevokesLeased(sessions, now, db.nextUid);
      ApplyExtends(db, Mutation.Revoke(sessions, now));
      ok := Mutate(nquads, f);
    }

    method Touch(u: D.Uid, now: int, f: Fault) returns (ok: bool)
      requires Valid()
      modifies this
      ensures Valid() && (ok <==> f == NoFault && u < old(db).nextUid)
      ensures db == if f == Refused || u >= old(db).nextUid then old(db) else Apply(old(db), Mutation.Touch(u, now))
    {
      var nquads := [D.Block(D.Iri(u), TouchFields(now))];
      if u < db.nextUid {
        ApplyExtends(db, Mutation.Touch(u, now));
      }
      ok := Mutate(nquads, f);
    }

    /** A delete with CommitNow. */
    method Remove(refs: set<D.Uid>, f: Fault) returns (ok: bool)
      modifies this
      ensures ok <==> f == NoFault
      ensures db == if f == Refused then old(db) else D.Delete(old(db), refs)
    {
      if f != Refused {
        db := D.Delete(db, refs);
      }
      ok := f == NoFault;
    }

    /** The set of uids a delete names. */
    method Refs(uids: seq<D.Uid>) returns (refs: set<D.Uid>)
      ensures refs == Members(uids)
    {
      refs := {};
      for i := 0 to |uids|
        invariant refs == Members(uids[..i])
      {
        assert uids[..i + 1] == uids[..i] + [uids[i]];
        refs := refs + {uids[i]};
      }
      assert uids[..|uids|] == uids;
    }

    /** List what has expired in one transaction, delete in another. */
    method DeleteExpired(now: int, list: Fault, between: seq<Mutation>, f: Fault) returns (r: Reply<nat>)
      requires Valid() && GroundedAll(db, between)
      modifies this
      ensures Valid()
      ensures var found := Query(old(db), ExpiredBy(Trunc(now)));
        if list != NoFault then r == Err(StoreError) && db == old(db)
        else if found == [] then r == Ok(0) && db == old(db)
        else
          var db1 := ApplyAll(old(db), between);
          && r == (if f == NoFault then Ok(|found|) else Err(StoreError))
          && db == (if f == Refused then db1 else Apply(db1, Mutation.Purge(found)))
      ensures forall u :: u in Query(old(db), ExpiredBy(Trunc(now))) <==> Overdue(D.NodeAt(old(db), u), now)
    {
      forall u ensures u in Query(db, ExpiredBy(Trunc(now))) <==> Overdue(D.NodeAt(db, u), now) {
        ListFinds(db, u, "", Trunc(now));
      }
      if list != NoFault {
        return Err(StoreError);
      }
      hide D.WellFormed, D.Delete, Query, ApplyAll, GroundedAll, Apply, Grounded;
      var threshold := Trunc(now);
      var expired := Query(db, ExpiredBy(threshold));
      if expired == [] {
        return Ok(0);
      }
      Others(between);
      PurgeGrounded(db, expired);
      ApplyExtends(db, Mutation.Purge(expired));
      var refs := Refs(expired);
      var ok := Remove(refs, f);
      PurgeDeletes(ApplyAll(old(db), between), expired, refs);
      return if ok then Ok(|expired|) else Err(StoreError);
    }

    /** The user's sessions that are not revoked, least recently seen first. */
    method ListForUser(userId: string, f: Fault) returns (r: Reply<seq<Session>>)
      ensures f != NoFault ==> r == Err(StoreError)
      ensures f == NoFault ==> r.Ok? && Listing(db, Query(db, LiveOf(userId)), r.value)
      ensures Valid() ==> forall u :: u in Query(db, LiveOf(userId)) <==> OpenFor(D.NodeAt(db, u), userId)
    {
      forall u | Valid() ensures u in Query(db, LiveOf(userId)) <==> OpenFor(D.NodeAt(db, u), userId) {
        ListFinds(db, u, userId, 0);
      }
      if f != NoFault {
        return Err(StoreError);
      }
      hide Listing, View, Query, BySeen;
      var order := BySeen(db, Query(db, LiveOf(userId)));
      var sessions := [];
      for i := 0 to |order|
        invariant |sessions| == i
        invariant forall j :: 0 <= j < i ==> sessions[j] == View(order[j], D.NodeAt(db, order[j]))
      {
        sessions := sessions + [View(order[i], D.NodeAt(db, order[i]))];
      }
      ViewsInOrder(db, Query(db, LiveOf(userId)), sessions);
      return Ok(sessions);
    }
  }
}
