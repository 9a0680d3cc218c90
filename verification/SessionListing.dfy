// The order in which ListForUser returns a user's sessions
// (internal/repository/dgraph/session.go), and the order it promises.

module SessionListing {
  import opened Times
  import opened Sessions
  import opened SessionStore
  import D = Dgraph

  function Seen(db: D.Db, u: D.Uid): int { StatusOf(D.NodeAt(db, u)).lastSeenAt }

  function Insert(db: D.Db, u: D.Uid, s: seq<D.Uid>): seq<D.Uid> {
    if s == [] || Seen(db, u) < Seen(db, s[0]) then [u] + s else [s[0]] + Insert(db, u, s[1..])
  }

  /** `orderasc` of the query: least recently seen first. */
  function BySeen(db: D.Db, s: seq<D.Uid>): seq<D.Uid> {
    if s == [] then [] else Insert(db, s[|s| - 1], BySeen(db, s[..|s| - 1]))
  }

  ghost predicate Ascending(db: D.Db, s: seq<D.Uid>) {
    forall i, j :: 0 <= i < j < |s| ==> Seen(db, s[i]) <= Seen(db, s[j])
  }

  /** What the interface documents. */
  ghost predicate Descending(db: D.Db, s: seq<D.Uid>) {
    forall i, j :: 0 <= i < j < |s| ==> Seen(db, s[i]) >= Seen(db, s[j])
  }

  function Ids(list: seq<Session>): (ids: seq<D.Uid>)
    ensures |ids| == |list| && forall i :: 0 <= i < |list| ==> ids[i] == list[i].id
  {
    seq(|list|, i requires 0 <= i < |list| => list[i].id)
  }

  /** The sessions at `found`, each once, in ascending order of last use. */
  ghost predicate Listing(db: D.Db, found: seq<D.Uid>, list: seq<Session>) {
    && multiset(Ids(list)) == multiset(found)
    && (forall i :: 0 <= i < |list| ==> list[i] == View(list[i].id, D.NodeAt(db, list[i].id)))
    && (forall i, j :: 0 <= i < j < |list| ==> list[i].status.lastSeenAt <= list[j].status.lastSeenAt)
  }

  lemma {:induction false} InsertOrders(db: D.Db, u: D.Uid, s: seq<D.Uid>)
    requires Ascending(db, s)
    ensures Ascending(db, Insert(db, u, s)) && multiset(Insert(db, u, s)) == multiset(s) + multiset{u}
  {
    hide Seen;
    if s == [] || Seen(db, u) < Seen(db, s[0]) {
    } else {
      InsertOrders(db, u, s[1..]);
      assert s == [s[0]] + s[1..];
      var rest := Insert(db, u, s[1..]);
      forall k | 0 <= k < |rest| ensures Seen(db, s[0]) <= Seen(db, rest[k]) {
        assert rest[k] in multiset(s[1..]) + multiset{u};
        assert rest[k] == u || rest[k] in s[1..];
      }
    }
  }

  /** The list holds the same sessions, in ascending order of last use. */
  lemma {:induction false} BySeenOrders(db: D.Db, s: seq<D.Uid>)
    ensures Ascending(db, BySeen(db, s)) && multiset(BySeen(db, s)) == multiset(s)
  {
    hide Insert, Seen;
    if s != [] {
      var init, last := s[..|s| - 1], s[|s| - 1];
      BySeenOrders(db, init);
      InsertOrders(db, last, BySeen(db, init));
      assert s == init + [last];
    }
  }

  lemma ViewsInOrder(db: D.Db, found: seq<D.Uid>, list: seq<Session>)
    requires var order := BySeen(db, found);
      |list| == |order| && forall i :: 0 <= i < |order| ==> list[i] == View(order[i], D.NodeAt(db, order[i]))
    ensures Listing(db, found, list)
  {
    BySeenOrders(db, found);
    hide BySeen, CoreOf, StatusOf;
    assert Ids(list) == BySeen(db, found);
    assert forall i :: 0 <= i < |list| ==> list[i].status.lastSeenAt == Seen(db, Ids(list)[i]);
  }

  /** The list comes in the documented order, most recently seen first, if and
      only if all the user's live sessions were last seen in the same second. */
  lemma NewestFirstIff(db: D.Db, userId: string)
    ensures var found := Query(db, LiveOf(userId));
      Descending(db, BySeen(db, found)) <==> forall u, v :: u in found && v in found ==> Seen(db, u) == Seen(db, v)
  {
    var found := Query(db, LiveOf(userId));
    hide Query, Seen, BySeen, Ascending;
    var list := BySeen(db, found);
    BySeenOrders(db, found);
    assert forall u :: u in found <==> u in list by { SameElements(found, list); }
    if Descending(db, list) {
      forall u, v | u in found && v in found ensures Seen(db, u) == Seen(db, v) {
        BothWays(db, list, u, v);
      }
    }
  }

  lemma SameElements(a: seq<D.Uid>, b: seq<D.Uid>)
    requires multiset(a) == multiset(b)
    ensures forall u :: u in a <==> u in b
  {
    assert forall u :: u in a <==> u in multiset(a);
    assert forall u :: u in b <==> u in multiset(b);
  }

  lemma BothWays(db: D.Db, list: seq<D.Uid>, u: D.Uid, v: D.Uid)
    requires Ascending(db, list) && Descending(db, list) && u in list && v in list
    ensures Seen(db, u) == Seen(db, v)
  {
    hide Seen;
    var i: nat :| i < |list| && list[i] == u;
    var j: nat :| j < |list| && list[j] == v;
  }

  /** What a login leaves for the list to find. */
  lemma Logged(c: Core)
    ensures Matches(LiveOf(c.who.userId), NewFields(c)) && StatusOf(NewFields(c)).lastSeenAt == Trunc(c.createdAt)
  {
    ReadBack(1, c);
    NewKeyed(c);
    hide NewFields;
  }

  lemma {:induction false} AtLeast(s: seq<D.Uid>, i: nat)
    requires i < |s| && s[0] >= 1 && forall i, j :: 0 <= i < j < |s| ==> s[i] < s[j]
    ensures s[i] >= i + 1
  {
    if i > 0 {
      AtLeast(s, i - 1);
    }
  }

  lemma OneAndTwo(s: seq<D.Uid>)
    requires (forall i, j :: 0 <= i < j < |s| ==> s[i] < s[j]) && forall u: D.Uid :: u in s <==> u == 1 || u == 2
    ensures s == [1, 2]
  {
    assert 1 in s && 2 in s && s[0] in s && s[|s| - 1] in s;
    AtLeast(s, |s| - 1);
  }

  lemma LoggedTwice(c: Core, d: Core) returns (db: D.Db)
    requires c.who.userId == d.who.userId
    ensures db == Apply(Apply(D.EMPTY, Create(c)), Create(d)) && db.nextUid == 3
    ensures forall u :: D.NodeAt(db, u) == if u == 1 then NewFields(c) else if u == 2 then NewFields(d) else map[]
  {
    hide NewFields, Apply;
    var db1 := Apply(D.EMPTY, Create(c));
    db := Apply(db1, Create(d));
    ApplyExtends(D.EMPTY, Create(c));
    ApplyExtends(db1, Create(d));
    forall u ensures D.NodeAt(db, u) == if u == 1 then NewFields(c) else if u == 2 then NewFields(d) else map[] {
      ApplyEffect(D.EMPTY, Create(c), u);
      ApplyEffect(db1, Create(d), u);
    }
  }

  /** Two logins of one user a second apart: the older one is listed first. */
  lemma OldestFirst(c: Core, d: Core) returns (db: D.Db)
    requires c.who.userId == d.who.userId && d.createdAt == c.createdAt + SECOND
    ensures db == Apply(Apply(D.EMPTY, Create(c)), Create(d))
    ensures var list := BySeen(db, Query(db, LiveOf(c.who.userId)));
      list == [1, 2] && Seen(db, 1) < Seen(db, 2) && !Descending(db, list)
  {
    db := LoggedTwice(c, d);
    hide NewFields, Apply, StatusOf, Matches, BySeen, Select;
    FoundBoth(db, c, d);
    Logged(c);
    Logged(d);
    assert D.NodeAt(db, 1) == NewFields(c) && D.NodeAt(db, 2) == NewFields(d);
    hide Query, D.NodeAt;
    InOrder(db);
  }

  lemma FoundBoth(db: D.Db, c: Core, d: Core)
    requires c.who.userId == d.who.userId && db.nextUid == 3
    requires forall u :: D.NodeAt(db, u) == if u == 1 then NewFields(c) else if u == 2 then NewFields(d) else map[]
    ensures Query(db, LiveOf(c.who.userId)) == [1, 2]
  {
    Logged(c);
    Logged(d);
    NothingMatches(c.who.userId);
    hide NewFields, StatusOf, Matches;
    var found := Query(db, LiveOf(c.who.userId));
    forall u: D.Uid ensures u in found <==> u == 1 || u == 2 {
      FoundIff(db, LiveOf(c.who.userId), u);
    }
    OneAndTwo(found);
  }

  lemma FoundIff(db: D.Db, f: Filter, u: D.Uid)
    requires !Matches(f, map[])
    ensures u in Query(db, f) <==> u < db.nextUid && Matches(f, D.NodeAt(db, u))
  {
    hide Matches;
  }

  lemma InOrder(db: D.Db)
    requires Seen(db, 1) < Seen(db, 2)
    ensures BySeen(db, [1, 2]) == [1, 2] && !Descending(db, [1, 2])
  {
    hide Seen;
    assert [1, 2][..1] == [1] && [1][..0] == [];
    assert BySeen(db, [1]) == [1];
    assert Insert(db, 2, [1]) == [1, 2];
    assert !Descending(db, [1, 2]) by {
      assert Seen(db, [1, 2][0]) < Seen(db, [1, 2][1]);
    }
  }

  lemma NothingMatches(userId: string)
    ensures !Matches(LiveOf(userId), map[])
  {
  }
}
