// List in internal/repository/dgraph/repository.go, and the filter it
// normalises (internal/domain/user.go).

module Pagination {
  import opened Prelude
  import opened Users
  import D = Dgraph

  const DEFAULT_SIZE := 20
  const MAX_SIZE := 100

  class ListFilter {
    var country: string
    var page: int
    var pageSize: int

    constructor (c: string, p: int, size: int)
      ensures country == c && page == p && pageSize == size
    {
      country, page, pageSize := c, p, size;
    }

    method Normalise()
      modifies this
      ensures page >= 1 && 1 <= pageSize <= MAX_SIZE && country == old(country)
      ensures page == if old(page) < 1 then 1 else old(page)
      ensures old(1 <= pageSize <= MAX_SIZE) ==> pageSize == old(pageSize)
      ensures old(pageSize) < 1 ==> pageSize == DEFAULT_SIZE
      ensures old(pageSize) > MAX_SIZE ==> pageSize == MAX_SIZE
    {
      if page < 1 {
        page := 1;
      }
      if pageSize < 1 {
        pageSize := DEFAULT_SIZE;
      } else if pageSize > MAX_SIZE {
        pageSize := MAX_SIZE;
      }
    }
  }

  // --- The query -------------------------------------------------------------------------

  /** Active users, all of them or those of one country. */
  predicate Listed(n: D.Fields, country: string) {
    && D.Get(n, D.Active) == Some(D.Flag(true))
    && (if country == "" then D.Get(n, D.DType) == Some(D.Type(D.UserType))
        else D.Get(n, D.Country) == Some(D.Text(country)))
  }

  function Matching(db: D.Db, country: string): seq<D.Uid> {
    D.Scan(db.nodes, n => Listed(n, country), db.nextUid)
  }

  /** `offset` and `first` of a query. */
  function Slice<T>(s: seq<T>, offset: nat, first: nat): seq<T> {
    var lo := if offset < |s| then offset else |s|;
    var hi := if offset + first < |s| then offset + first else |s|;
    s[lo..hi]
  }

  function Page<T>(s: seq<T>, page: nat, size: nat): seq<T>
    requires page >= 1
  {
    Slice(s, (page - 1) * size, size)
  }

  /** The number of pages the result reports. */
  function Pages(total: nat, size: nat): nat
    requires size > 0
  {
    var p := (total + size - 1) / size;
    if p < 1 then 1 else p
  }

  /** The first position of a page. */
  lemma FirstOf(page: nat, size: nat)
    requires page >= 1
    ensures (page - 1) * size >= 0
  {
  }

  /** What the query reads of a user: everything but the password. */
  function Shown(n: D.Fields): User { UserOf(n).(passwordHash := "") }

  datatype ListResult = ListResult(users: seq<User>, total: nat, page: nat, pages: nat)

  method List(db: D.Db, filter: ListFilter) returns (r: ListResult)
    modifies filter
    ensures filter.page >= 1 && 1 <= filter.pageSize <= MAX_SIZE && filter.country == old(filter.country)
    ensures old(filter.page >= 1 && 1 <= filter.pageSize <= MAX_SIZE) ==>
      filter.page == old(filter.page) && filter.pageSize == old(filter.pageSize)
    ensures var all := Matching(db, filter.country);
      var shown := Page(all, filter.page, filter.pageSize);
      && r.total == |all| && r.page == filter.page && r.pages == Pages(|all|, filter.pageSize)
      && |r.users| == |shown|
      && forall i :: 0 <= i < |shown| ==> r.users[i] == UserOf(D.NodeAt(db, shown[i])).(passwordHash := "")
  {
    hide D.Scan, Matching, UserOf, Pages;
    filter.Normalise();
    FirstOf(filter.page, filter.pageSize);
    var offset := (filter.page - 1) * filter.pageSize;
    var all := Matching(db, filter.country);
    var found := Slice(all, offset, filter.pageSize);
    var users := [];
    for i := 0 to |found|
      invariant |users| == i
      invariant forall j :: 0 <= j < i ==> users[j] == Shown(D.NodeAt(db, found[j]))
    {
      users := users + [Shown(D.NodeAt(db, found[i]))];
    }
    var total := |all|;
    r := ListResult(users, total, filter.page, Pages(total, filter.pageSize));
  }

  // --- Pages partition the list -------------------------------------------------------------

  /** Pages 1 to `k`, one after the other. */
  function Through<T>(s: seq<T>, size: nat, k: nat): seq<T> {
    if k == 0 then [] else Through(s, size, k - 1) + Page(s, k, size)
  }

  function Upto(total: nat, n: nat): nat { if n < total then n else total }

  lemma Product(k: nat, size: nat)
    requires k >= 1
    ensures (k - 1) * size + size == k * size && (k - 1) * size >= 0
  {
  }

  lemma {:induction false} ThroughPrefix<T>(s: seq<T>, size: nat, k: nat)
    ensures Through(s, size, k) == s[..Upto(|s|, k * size)]
  {
    if k > 0 {
      ThroughPrefix(s, size, k - 1);
      Product(k, size);
    } else {
      assert k * size == 0;
    }
  }

  lemma PagesBound(total: nat, size: nat, k: nat)
    requires size > 0 && k >= 1
    ensures k * size >= total <==> k >= Pages(total, size)
  {
    var q := (total + size - 1) / size;
    assert total + size - 1 == size * q + (total + size - 1) % size;
    assert size * q >= total && (total > 0 ==> size * (q - 1) < total) by {
      assert size * (q - 1) == size * q - size;
    }
    if k >= q {
      Monotone(size, q, k);
    } else {
      Monotone(size, k, q - 1);
    }
  }

  lemma Monotone(size: nat, a: int, b: int)
    requires a <= b
    ensures size * a <= size * b
  {
  }

  /** Over one snapshot the pages, one after the other, give the whole filtered
      list in order, each user once; and the number of pages reported is the
      least that does, never less than one. */
  lemma PagesPartition(db: D.Db, country: string, size: nat, k: nat)
    requires size >= 1 && k >= 1
    ensures var all := Matching(db, country);
      && (Through(all, size, k) == all <==> k >= Pages(|all|, size))
      && (forall i, j :: 0 <= i < j < |all| ==> all[i] != all[j])
      && (forall u :: u in all <==>
            && u < db.nextUid && u in db.nodes && D.Get(db.nodes[u], D.Active) == Some(D.Flag(true))
            && (if country == "" then D.Get(db.nodes[u], D.DType) == Some(D.Type(D.UserType))
                else D.Get(db.nodes[u], D.Country) == Some(D.Text(country))))
  {
    var all := Matching(db, country);
    hide D.Scan;
    ThroughPrefix(all, size, k);
    PagesBound(|all|, size, k);
    var n := Upto(|all|, k * size);
    assert all[..|all|] == all;
    assert |all[..n]| == n;
  }

  /** A page past the reported number is empty, one within it holds a full page
      except for the last. */
  lemma PageSizes<T>(s: seq<T>, size: nat, page: nat)
    requires size >= 1 && page >= 1
    ensures page > Pages(|s|, size) ==> Page(s, page, size) == []
    ensures page < Pages(|s|, size) ==> |Page(s, page, size)| == size
  {
    Product(page, size);
    PagesBound(|s|, size, page);
    if page > 1 {
      PagesBound(|s|, size, page - 1);
    }
  }
}
