/** Listing orders: filter, sort by (createdAt desc, id desc), skip and take. */
module Pagination {
  import opened Basics
  import opened Sorting

  datatype Row = Row(id: nat, userId: nat, status: nat, restaurantId: nat, createdAt: nat)

  /** The optional conditions of the query; `createdFrom` and `createdTo` are inclusive. */
  datatype Filter = Filter(
    userId: Option<nat>, status: Option<nat>, restaurantId: Option<nat>, createdFrom: Option<nat>,
      createdTo: Option<nat>)

  predicate Selects(f: Filter, r: Row) {
    && (f.userId.Some? ==> r.userId == f.userId.value)
    && (f.status.Some? ==> r.status == f.status.value)
    && (f.restaurantId.Some? ==> r.restaurantId == f.restaurantId.value)
    && (f.createdFrom.Some? ==> f.createdFrom.value <= r.createdAt)
    && (f.createdTo.Some? ==> r.createdAt <= f.createdTo.value)
  }

  /** Newest first, and by descending id among orders of the same instant. */
  predicate Before(x: Row, y: Row) {
    x.createdAt > y.createdAt || (x.createdAt == y.createdAt && x.id >= y.id)
  }

  function Where(f: Filter, table: seq<Row>): seq<Row> {
    if table == [] then []
    else (if Selects(f, table[0]) then [table[0]] else []) + Where(f, table[1..])
  }

  function CeilDiv(a: nat, b: nat): nat
    requires b > 0
  {
    (a + b - 1) / b
  }

  function Matching(f: Filter, table: seq<Row>): seq<Row> { Sort(Before, Where(f, table)) }

  datatype Listing = Listing(data: seq<Row>, total: nat, pages: nat)

  function List(f: Filter, table: seq<Row>, page: nat, limit: nat): Listing
    requires page >= 1 && limit >= 1
  {
    var all := Matching(f, table);
    var skip := (page - 1) * limit;
    Listing(all[Min(skip, |all|)..Min(skip + limit, |all|)], |Where(f, table)|, CeilDiv(|Where(f, table)|, limit))
  }

  /** Pages 1 to n one after another. */
  function FirstPages(f: Filter, table: seq<Row>, limit: nat, n: nat): seq<Row>
    requires limit >= 1
  {
    if n == 0 then [] else FirstPages(f, table, limit, n - 1) + List(f, table, n, limit).data
  }

  ghost predicate DistinctIds(table: seq<Row>) {
    forall i, j :: 0 <= i < j < |table| ==> table[i].id != table[j].id
  }

  lemma BeforeIsTotal()
    ensures TotalOrder(Before)
  {}

  lemma {:induction false} WhereSelects(f: Filter, table: seq<Row>, r: Row)
    ensures multiset(Where(f, table))[r] == if Selects(f, r) then multiset(table)[r] else 0
  {
    if table != [] {
      WhereSelects(f, table[1..], r);
      assert table == [table[0]] + table[1..];
    }
  }

  lemma {:induction false} PagesArePrefix(f: Filter, table: seq<Row>, limit: nat, n: nat)
    requires limit >= 1
    ensures FirstPages(f, table, limit, n) == Matching(f, table)[..Min(n * limit, |Matching(f, table)|)]
  {
    hide Matching, Where;
    if n > 0 {
      PagesArePrefix(f, table, limit, n - 1);
      PageAppends(Matching(f, table), (n - 1) * limit, limit);
      Multiples(n, limit);
    }
  }

  lemma PageAppends(all: seq<Row>, skip: nat, limit: nat)
    ensures all[..Min(skip, |all|)] + all[Min(skip, |all|)..Min(skip + limit, |all|)] == all[..Min(skip + limit, |all|)]
  {}

  lemma Multiples(n: nat, limit: nat)
    requires n > 0
    ensures n * limit == (n - 1) * limit + limit
  {}

  lemma PagesCoverTotal(total: nat, limit: nat)
    requires limit >= 1
    ensures total <= CeilDiv(total, limit) * limit < total + limit
  {
    var q, r := (total + limit - 1) / limit, (total + limit - 1) % limit;
    assert q * limit + r == total + limit - 1;
  }

  /** Every condition that is given holds of the order. */
  predicate Meets(r: Row, f: Filter) {
    && f.userId in {None, Some(r.userId)} && f.status in {None, Some(r.status)}
    && f.restaurantId in {None, Some(r.restaurantId)}
    && (f.createdFrom == None || r.createdAt >= f.createdFrom.value)
    && (f.createdTo == None || r.createdAt <= f.createdTo.value)
  }

  predicate NewestFirst(rows: seq<Row>) {
    forall i, j :: 0 <= i < j < |rows| ==>
      || rows[i].createdAt > rows[j].createdAt
      || (rows[i].createdAt == rows[j].createdAt && rows[i].id >= rows[j].id)
  }

  /** The announced pages, concatenated, are exactly the orders of the table that meet every condition
      given, each as often as in the table, newest first and by descending id at the same instant; and
      every later page is empty. */
  lemma PagesPartition(f: Filter, table: seq<Row>, limit: nat, page: nat)
    requires limit >= 1 && page >= 1
    ensures var whole := FirstPages(f, table, limit, List(f, table, page, limit).pages);
      && |whole| == List(f, table, page, limit).total
      && NewestFirst(whole)
      && forall r :: multiset(whole)[r] == if Meets(r, f) then multiset(table)[r] else 0
    ensures page > List(f, table, page, limit).pages ==> List(f, table, page, limit).data == []
    ensures |List(f, table, page, limit).data| <= limit
  {
    hide Matching, Where, Meets, NewestFirst, FirstPages;
    MatchingOrders(f, table);
    var all, n := Matching(f, table), List(f, table, page, limit).pages;
    PagesArePrefix(f, table, limit, n);
    PagesCoverTotal(|all|, limit);
    assert all[..|all|] == all;
    if page > n {
      LaterPage(n, page, limit);
    }
  }

  lemma MatchingOrders(f: Filter, table: seq<Row>)
    ensures |Matching(f, table)| == |Where(f, table)| && NewestFirst(Matching(f, table))
    ensures forall r :: multiset(Matching(f, table))[r] == if Meets(r, f) then multiset(table)[r] else 0
  {
    BeforeIsTotal();
    SortSorts(Before, Where(f, table));
    assert |multiset(Matching(f, table))| == |Matching(f, table)|;
    forall r
      ensures multiset(Matching(f, table))[r] == if Meets(r, f) then multiset(table)[r] else 0
    {
      WhereSelects(f, table, r);
    }
    InTheOrderOfBefore(Matching(f, table));
  }

  lemma InTheOrderOfBefore(rows: seq<Row>)
    requires Sorted(Before, rows)
    ensures NewestFirst(rows)
  {
    forall i, j | 0 <= i < j < |rows|
      ensures Before(rows[i], rows[j])
    {}
  }

  lemma LaterPage(n: nat, page: nat, limit: nat)
    requires page > n
    ensures (page - 1) * limit >= n * limit
  {}

  /** With ids distinct, the pages are the only sequence of the matching orders in this order: the
      answer does not depend on how the database sorts. */
  lemma PagesAreDetermined(f: Filter, table: seq<Row>, limit: nat, other: seq<Row>)
    requires limit >= 1 && DistinctIds(table)
    requires Sorted(Before, other) && multiset(other) == multiset(Where(f, table))
    ensures FirstPages(f, table, limit, CeilDiv(|Where(f, table)|, limit)) == other
  {
    hide Sorted, Where, Sort, TotalOrder, Before;
    BeforeIsTotal();
    SortSorts(Before, Where(f, table));
    var all := Matching(f, table);
    PagesArePrefix(f, table, limit, CeilDiv(|Where(f, table)|, limit));
    PagesCoverTotal(|all|, limit);
    assert all[..|all|] == all;
    SortedByIdIsUnique(f, table, all, other);
  }

  lemma SortedByIdIsUnique(f: Filter, table: seq<Row>, xs: seq<Row>, ys: seq<Row>)
    requires DistinctIds(table) && multiset(xs) == multiset(Where(f, table)) == multiset(ys)
    requires Sorted(Before, xs) && Sorted(Before, ys)
    ensures xs == ys
  {
    forall x, y | x in xs && y in xs && Before(x, y) && Before(y, x)
      ensures x == y
    {
      assert x in multiset(xs) && y in multiset(xs);
      WhereSelects(f, table, x);
      WhereSelects(f, table, y);
      assert x in multiset(table) && y in multiset(table);
      var i :| 0 <= i < |table| && table[i] == x;
      var j :| 0 <= j < |table| && table[j] == y;
    }
    SortedIsUnique(Before, xs, ys);
  }
}
