/** Pricing an order from the menu. Amounts are in cents; DECIMAL(12,2) holds up to 12 digits. */
module Pricing {
  import opened Basics
  import opened Business

  const MAX_CENTS: nat := 999_999_999_999
  const MAX_ITEMS: nat := 50
  const MAX_QUANTITY: nat := 50

  datatype MenuItem = MenuItem(restaurantId: nat, price: nat, available: bool)

  datatype Item = Item(menuItemId: nat, quantity: nat)

  datatype Priced =
    | Lines(lines: seq<Line>, total: nat)
    | RestaurantNotFound
    | InvalidItems      // invalid, duplicated or unavailable
    | Overflow          // the amount does not fit its column

  function Ids(items: seq<Item>): seq<nat> {
    seq(|items|, i requires 0 <= i < |items| => items[i].menuItemId)
  }

  /** The menu rows that the query for these ids finds. */
  function Found(menu: map<nat, MenuItem>, restaurantId: nat, ids: seq<nat>): set<nat> {
    set id | id in ids && Orderable(menu, restaurantId, id)
  }

  predicate Orderable(menu: map<nat, MenuItem>, restaurantId: nat, id: nat) {
    id in menu && menu[id].restaurantId == restaurantId && menu[id].available
  }

  predicate AllOrderable(menu: map<nat, MenuItem>, restaurantId: nat, ids: seq<nat>) {
    forall i :: 0 <= i < |ids| ==> Orderable(menu, restaurantId, ids[i])
  }

  function LineFor(menu: map<nat, MenuItem>, item: Item): Line
    requires item.menuItemId in menu
  {
    var price := menu[item.menuItemId].price;
    Line(item.menuItemId, price, item.quantity, price * item.quantity)
  }

  function LinesFor(menu: map<nat, MenuItem>, items: seq<Item>): seq<Line>
    requires forall i :: 0 <= i < |items| ==> items[i].menuItemId in menu
  {
    seq(|items|, i requires 0 <= i < |items| => LineFor(menu, items[i]))
  }

  // ---- What an order should be, from menu and request alone ----

  /** All items are different, on this restaurant's menu, and available. */
  predicate CanBeOrdered(menu: map<nat, MenuItem>, restaurantId: nat, items: seq<Item>) {
    && (forall i, j :: 0 <= i < j < |items| ==> items[i].menuItemId != items[j].menuItemId)
    && forall i :: 0 <= i < |items| ==>
      && items[i].menuItemId in menu && menu[items[i].menuItemId].available
      && menu[items[i].menuItemId].restaurantId == restaurantId
  }

  predicate OnMenu(menu: map<nat, MenuItem>, items: seq<Item>) {
    forall i :: 0 <= i < |items| ==> items[i].menuItemId in menu
  }

  /** One line per item, in order: the item, the menu's price, the quantity asked for, their product. */
  predicate LinesMatch(menu: map<nat, MenuItem>, items: seq<Item>, lines: seq<Line>)
    requires OnMenu(menu, items)
  {
    && |lines| == |items|
    && forall i :: 0 <= i < |items| ==>
      && lines[i].itemId == items[i].menuItemId && lines[i].unitPrice == menu[items[i].menuItemId].price
      && lines[i].quantity == items[i].quantity
      && lines[i].lineTotal == menu[items[i].menuItemId].price * items[i].quantity
  }

  /** The sum of price times quantity. */
  function Cost(menu: map<nat, MenuItem>, items: seq<Item>): nat
    requires OnMenu(menu, items)
  {
    if items == [] then 0
    else menu[items[0].menuItemId].price * items[0].quantity + Cost(menu, items[1..])
  }

  lemma {:induction false} CostOfLines(menu: map<nat, MenuItem>, items: seq<Item>, lines: seq<Line>)
    requires OnMenu(menu, items) && LinesMatch(menu, items, lines)
    ensures SumLines(lines) == Cost(menu, items)
  {
    if items != [] {
      CostOfLines(menu, items[1..], lines[1..]);
    }
  }

  // ---- The length check ----

  /** Comparing two lengths is enough: as many rows found as ids asked for means that the ids are all
      different and every one of them can be ordered, and the other way round. */
  lemma LengthCheck(menu: map<nat, MenuItem>, restaurantId: nat, ids: seq<nat>)
    ensures |Found(menu, restaurantId, ids)| == |ids| <==> Distinct(ids) && AllOrderable(menu, restaurantId, ids)
  {
    var found, all := Found(menu, restaurantId, ids), Elements(ids);
    SetOfSize(ids);
    assert found <= all;
    SubsetSize(found, all);
    if |found| == |ids| {
      assert found == all;
      forall i | 0 <= i < |ids|
        ensures Orderable(menu, restaurantId, ids[i])
      {
        assert ids[i] in all;
      }
    }
    if AllOrderable(menu, restaurantId, ids) {
      assert found == all;
    }
  }

  // ---- The program ----

  /** The running sum from left to right. */
  function Reduce(sum: nat, lines: seq<Line>): nat
    decreases |lines|
  {
    if lines == [] then sum else Reduce(sum + lines[0].lineTotal, lines[1..])
  }

  lemma {:induction false} ReduceSums(sum: nat, lines: seq<Line>)
    ensures Reduce(sum, lines) == sum + SumLines(lines)
    decreases |lines|
  {
    if lines != [] {
      ReduceSums(sum + lines[0].lineTotal, lines[1..]);
    }
  }

  lemma DistinctItems(items: seq<Item>)
    ensures Distinct(Ids(items)) <==>
      forall i, j :: 0 <= i < j < |items| ==> items[i].menuItemId != items[j].menuItemId
  {
    forall i, j | 0 <= i < j < |items| && Distinct(Ids(items))
      ensures items[i].menuItemId != items[j].menuItemId
    {
      assert Ids(items)[i] != Ids(items)[j];
    }
  }

  lemma OrderableItems(menu: map<nat, MenuItem>, restaurantId: nat, items: seq<Item>)
    ensures CanBeOrdered(menu, restaurantId, items)
      <==> Distinct(Ids(items)) && AllOrderable(menu, restaurantId, Ids(items))
    ensures CanBeOrdered(menu, restaurantId, items) ==> OnMenu(menu, items)
  {
    DistinctItems(items);
    forall i | 0 <= i < |items| && AllOrderable(menu, restaurantId, Ids(items))
      ensures Orderable(menu, restaurantId, items[i].menuItemId)
    {
      assert Orderable(menu, restaurantId, Ids(items)[i]);
    }
  }

  /** Prices an order: every failure exactly when it should be, and otherwise one line per item with
      the menu's price, and the sum of price times quantity. */
  method PriceOrder(active: set<nat>, menu: map<nat, MenuItem>, restaurantId: nat, items: seq<Item>) returns (r: Priced)
    ensures r.RestaurantNotFound? <==> restaurantId !in active
    ensures r.InvalidItems? <==>
      restaurantId in active && !CanBeOrdered(menu, restaurantId, items)
    ensures r.Lines? || r.Overflow? ==> OnMenu(menu, items)
    ensures r.Lines? ==> LinesMatch(menu, items, r.lines) && r.total == Cost(menu, items) <= 999_999_999_999
    ensures r.Overflow? ==> Cost(menu, items) > 999_999_999_999
  {
    if restaurantId !in active {
      return RestaurantNotFound;
    }
    var found := Found(menu, restaurantId, Ids(items));
    LengthCheck(menu, restaurantId, Ids(items));
    OrderableItems(menu, restaurantId, items);
    if |found| != |items| {
      return InvalidItems;
    }
    var lines := LinesFor(menu, items);
    var total := Reduce(0, lines);
    ReduceSums(0, lines);
    CostOfLines(menu, items, lines);
    r := if total <= MAX_CENTS then Lines(lines, total) else Overflow;
  }

  // ---- The total does not depend on the order of the items ----

  lemma {:induction false} SumRemove(lines: seq<Line>, k: nat)
    requires k < |lines|
    ensures SumLines(lines) == lines[k].lineTotal + SumLines(lines[..k] + lines[k + 1..])
  {
    if k > 0 {
      SumRemove(lines[1..], k - 1);
      assert lines[1..][..k - 1] + lines[1..][k..] == (lines[..k] + lines[k + 1..])[1..];
    } else {
      assert lines[..k] + lines[k + 1..] == lines[1..];
    }
  }

  lemma Without(lines: seq<Line>, k: nat)
    requires k < |lines|
    ensures multiset(lines[..k] + lines[k + 1..]) == multiset(lines) - multiset{lines[k]}
  {
    assert lines == lines[..k] + [lines[k]] + lines[k + 1..];
  }

  lemma WithoutBoth(xs: seq<Line>, ys: seq<Line>, k: nat)
    requires multiset(xs) == multiset(ys) && xs != [] && k < |ys| && ys[k] == xs[0]
    ensures multiset(xs[1..]) == multiset(ys[..k] + ys[k + 1..])
  {
    Without(xs, 0);
    Without(ys, k);
    assert xs[..0] + xs[1..] == xs[1..];
  }

  lemma {:induction false} TotalIsOrderIndependent(xs: seq<Line>, ys: seq<Line>)
    requires multiset(xs) == multiset(ys)
    ensures SumLines(xs) == SumLines(ys)
    decreases |xs|
  {
    if xs == [] {
      assert |multiset(ys)| == |ys|;
    } else {
      assert xs[0] in multiset(ys);
      var k :| 0 <= k < |ys| && ys[k] == xs[0];
      SumRemove(ys, k);
      WithoutBoth(xs, ys, k);
      TotalIsOrderIndependent(xs[1..], ys[..k] + ys[k + 1..]);
    }
  }

  // ---- Which menu prices can never overflow an order ----

  /** A request that the DTO accepts and that can be priced, with every price at most the given maximum. */
  predicate Allowed(menu: map<nat, MenuItem>, restaurantId: nat, items: seq<Item>, maxPrice: nat) {
    && 1 <= |items| <= MAX_ITEMS && (forall i :: 0 <= i < |items| ==> 1 <= items[i].quantity <= MAX_QUANTITY)
    && CanBeOrdered(menu, restaurantId, items)
    && forall i :: 0 <= i < |items| ==> menu[items[i].menuItemId].price <= maxPrice
  }

  lemma {:induction false} SumBound(lines: seq<Line>, maxLine: nat)
    requires forall i :: 0 <= i < |lines| ==> lines[i].lineTotal <= maxLine
    ensures SumLines(lines) <= |lines| * maxLine
    ensures (forall i :: 0 <= i < |lines| ==> lines[i].lineTotal == maxLine) ==> SumLines(lines) == |lines| * maxLine
  {
    if lines != [] {
      SumBound(lines[1..], maxLine);
      assert |lines| * maxLine == maxLine + |lines[1..]| * maxLine;
    }
  }

  lemma Times(a: nat, b: nat, c: nat)
    requires a <= b
    ensures a * c <= b * c
  {}

  lemma PriceBound(price: nat, quantity: nat, maxPrice: nat)
    requires price <= maxPrice && quantity <= MAX_QUANTITY
    ensures price * quantity <= MAX_QUANTITY * maxPrice
  {
    assert price * quantity <= maxPrice * quantity <= maxPrice * MAX_QUANTITY;
  }

  lemma AllowedFits(menu: map<nat, MenuItem>, restaurantId: nat, items: seq<Item>, maxPrice: nat)
    requires Allowed(menu, restaurantId, items, maxPrice)
    ensures OnMenu(menu, items) && Cost(menu, items) <= MAX_ITEMS * (MAX_QUANTITY * maxPrice)
  {
    hide SumLines;
    var lines, maxLine := LinesFor(menu, items), MAX_QUANTITY * maxPrice;
    forall i | 0 <= i < |lines|
      ensures lines[i].lineTotal <= maxLine
    {
      PriceBound(menu[items[i].menuItemId].price, items[i].quantity, maxPrice);
    }
    SumBound(lines, maxLine);
    Times(|lines|, MAX_ITEMS, maxLine);
    CostOfLines(menu, items, lines);
  }

  function OnePrice(price: nat, n: nat): (menu: map<nat, MenuItem>)
    ensures forall id: nat :: id < n ==> id in menu && menu[id] == MenuItem(0, price, true)
  {
    if n == 0 then map[] else OnePrice(price, n - 1)[n - 1 := MenuItem(0, price, true)]
  }

  /** Fifty items at the maximum price, fifty times each. */
  lemma DearestRequest(maxPrice: nat) returns (menu: map<nat, MenuItem>, items: seq<Item>)
    ensures Allowed(menu, 0, items, maxPrice)
    ensures Cost(menu, items) == MAX_ITEMS * (MAX_QUANTITY * maxPrice)
  {
    menu := OnePrice(maxPrice, MAX_ITEMS);
    items := seq(MAX_ITEMS, i requires 0 <= i < MAX_ITEMS => Item(i, MAX_QUANTITY));
    SumBound(LinesFor(menu, items), MAX_QUANTITY * maxPrice);
    CostOfLines(menu, items, LinesFor(menu, items));
  }

  /** The total of every request that can be priced fits DECIMAL(12,2) exactly if no price may exceed
      3,999,999.99. */
  lemma TotalsFitExactlyUpTo(maxPrice: nat)
    ensures (forall menu, restaurantId, items :: Allowed(menu, restaurantId, items, maxPrice) ==>
              OnMenu(menu, items) && Cost(menu, items) <= 999_999_999_999)
      <==> maxPrice <= 399_999_999
  {
    if maxPrice <= 399_999_999 {
      forall menu, restaurantId, items | Allowed(menu, restaurantId, items, maxPrice)
        ensures OnMenu(menu, items) && Cost(menu, items) <= 999_999_999_999
      {
        AllowedFits(menu, restaurantId, items, maxPrice);
      }
    } else {
      var menu, items := DearestRequest(maxPrice);
    }
  }
}
