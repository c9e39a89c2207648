/**
 * The order history page of src/components/Orders.jsx: the join of the server's
 * order-book entries to the products shipped with them, the per-group totals, and
 * the grouping of orders by day, newest day first.
 *
 * The day of an order is `new Date(orderDate).toDateString()`, compared as a date
 * when the groups are sorted. Date parsing is not modelled: `dayOf` maps an order
 * date to an ordered day number, larger meaning later.
 */
module Orders {
  import opened Wrappers
  import opened Api
  import opened ProductJoin
  import UserStorage

  /** One entry of the server's order book: `{id, productId, quantity, createdOn}`. */
  datatype OrderEntry = OrderEntry(id: int, productId: int, quantity: int, createdOn: Option<string>)

  /** `{...product, quantity, orderId, orderDate}`. */
  datatype OrderLine = OrderLine(product: Product, quantity: int, orderId: int, orderDate: string)

  /** The body of the order-book endpoint: `{orderBooks, ceremics}`. */
  datatype OrderBookResponse = OrderBookResponse(orderBooks: seq<OrderEntry>, ceremics: seq<RawItem>)

  /** The order date of an entry: its `createdOn`, else `now` (`new Date().toISOString()`). */
  function OrderDate(e: OrderEntry, now: string): string {
    OrElse(e.createdOn, now)
  }

  /** Each entry paired with the first product of its id; entries with no product are dropped. */
  function JoinOrders(products: seq<Product>, entries: seq<OrderEntry>, now: string): (r: seq<OrderLine>)
    ensures |r| <= |entries|
    ensures |r| == |entries| <==> forall i :: 0 <= i < |entries| ==> FindProduct(products, entries[i].productId).Some?
  {
    var productIdOf := (e: OrderEntry) => e.productId;
    var build := (p: Product, e: OrderEntry) => OrderLine(p, e.quantity, e.id, OrderDate(e, now));
    JoinLength(products, entries, productIdOf, build);
    JoinByProduct(products, entries, productIdOf, build)
  }

  /**
   * An order line exists exactly when some entry found its product; it carries that entry's
   * quantity, id and date and the first product with the entry's product id.
   */
  lemma {:induction false} OrderLines(products: seq<Product>, entries: seq<OrderEntry>, now: string)
    ensures forall l :: l in JoinOrders(products, entries, now) <==>
              exists i :: 0 <= i < |entries| && FindProduct(products, entries[i].productId) == Some(l.product)
                          && l.quantity == entries[i].quantity && l.orderId == entries[i].id
                          && l.orderDate == OrderDate(entries[i], now)
  {
    var f := (e: OrderEntry) => e.productId;
    var g := (p: Product, e: OrderEntry) => OrderLine(p, e.quantity, e.id, OrderDate(e, now));
    forall l {
      JoinMembership(products, entries, f, g, l);
    }
  }

  /** An entry whose product is unknown vanishes without disturbing the order of the others. */
  lemma {:induction false} JoinOrdersDropsUnresolved(products: seq<Product>, before: seq<OrderEntry>, e: OrderEntry, after: seq<OrderEntry>, now: string)
    requires FindProduct(products, e.productId).None?
    ensures JoinOrders(products, before + [e] + after, now) == JoinOrders(products, before, now) + JoinOrders(products, after, now)
  {
    var f := (e: OrderEntry) => e.productId;
    var g := (p: Product, e: OrderEntry) => OrderLine(p, e.quantity, e.id, OrderDate(e, now));
    JoinAppend(products, before + [e], after, f, g);
    JoinAppend(products, before, [e], f, g);
  }

  // ---------------------------------------------------------------- totals

  /** `calculateOrderTotal`: the sum of unit price times quantity. */
  function OrderTotal(lines: seq<OrderLine>): int {
    if lines == [] then 0 else lines[0].product.UnitPrice() * lines[0].quantity + OrderTotal(lines[1..])
  }

  /** `calculateOrderItems`: the sum of the quantities. */
  function OrderItems(lines: seq<OrderLine>): int {
    if lines == [] then 0 else lines[0].quantity + OrderItems(lines[1..])
  }

  /** Both totals add up over a split of the orders, as a left-to-right `reduce` does. */
  lemma {:induction false} OrderTotalsAppend(a: seq<OrderLine>, b: seq<OrderLine>)
    ensures OrderTotal(a + b) == OrderTotal(a) + OrderTotal(b)
    ensures OrderItems(a + b) == OrderItems(a) + OrderItems(b)
  {
    if a == [] {
      assert a + b == b;
    } else {
      assert (a + b)[1..] == a[1..] + b;
      OrderTotalsAppend(a[1..], b);
    }
  }

  /** With non-negative prices and quantities the total is at least each unit price times quantity. */
  lemma {:induction false} OrderTotalBounds(lines: seq<OrderLine>)
    requires forall i :: 0 <= i < |lines| ==> lines[i].quantity >= 0 && lines[i].product.UnitPrice() >= 0
    ensures OrderTotal(lines) >= 0 && OrderItems(lines) >= 0
    ensures forall i :: 0 <= i < |lines| ==> OrderTotal(lines) >= lines[i].product.UnitPrice() * lines[i].quantity
  {
    if lines != [] {
      assert forall i :: 1 <= i < |lines| ==> lines[i] == lines[1..][i - 1];
      OrderTotalBounds(lines[1..]);
    }
  }

  // ---------------------------------------------------------------- grouping by day

  /** All orders of one day, in their original order. */
  datatype DayGroup = DayGroup(day: int, orders: seq<OrderLine>)

  /** The orders placed on day `d`, in their original order. */
  function OnDay(orders: seq<OrderLine>, dayOf: string -> int, d: int): seq<OrderLine> {
    if orders == [] then []
    else
      var last := orders[|orders| - 1];
      OnDay(orders[..|orders| - 1], dayOf, d) + (if dayOf(last.orderDate) == d then [last] else [])
  }

  lemma {:induction false} OnDayMembers(orders: seq<OrderLine>, dayOf: string -> int, d: int)
    ensures forall o :: o in OnDay(orders, dayOf, d) <==> o in orders && dayOf(o.orderDate) == d
  {
    if orders != [] {
      OnDayMembers(orders[..|orders| - 1], dayOf, d);
      assert orders == orders[..|orders| - 1] + [orders[|orders| - 1]];
    }
  }

  lemma {:induction false} OnDayEmpty(orders: seq<OrderLine>, dayOf: string -> int, d: int)
    requires forall k :: 0 <= k < |orders| ==> dayOf(orders[k].orderDate) != d
    ensures OnDay(orders, dayOf, d) == []
  {
    if orders != [] {
      OnDayEmpty(orders[..|orders| - 1], dayOf, d);
    }
  }

  predicate NewestFirst(groups: seq<DayGroup>) {
    forall i, j :: 0 <= i < j < |groups| ==> groups[i].day > groups[j].day
  }

  /**
   * What the grouping produces: one non-empty group per day on which something was
   * ordered, newest day first, each holding exactly that day's orders in their order.
   */
  ghost predicate IsDayGrouping(orders: seq<OrderLine>, dayOf: string -> int, groups: seq<DayGroup>) {
    && NewestFirst(groups)
    && (forall o :: o in orders ==> exists i :: 0 <= i < |groups| && groups[i].day == dayOf(o.orderDate))
    && (forall i :: 0 <= i < |groups| ==> groups[i].orders == OnDay(orders, dayOf, groups[i].day) && groups[i].orders != [])
  }

  /** Every order lands in exactly one group: the group of its own day. */
  lemma {:induction false} EachOrderInOneGroup(orders: seq<OrderLine>, dayOf: string -> int, groups: seq<DayGroup>, o: OrderLine)
    requires IsDayGrouping(orders, dayOf, groups) && o in orders
    ensures exists i :: 0 <= i < |groups| && o in groups[i].orders
    ensures forall i :: 0 <= i < |groups| ==> (o in groups[i].orders <==> groups[i].day == dayOf(o.orderDate))
  {
    forall i | 0 <= i < |groups| ensures o in groups[i].orders <==> groups[i].day == dayOf(o.orderDate) {
      OnDayMembers(orders, dayOf, groups[i].day);
    }
  }

  /** Puts `g` into a newest-first list of groups of other days. */
  function InsertByDay(g: DayGroup, sorted: seq<DayGroup>): (r: seq<DayGroup>)
    requires NewestFirst(sorted)
    requires forall k :: 0 <= k < |sorted| ==> sorted[k].day != g.day
    ensures NewestFirst(r) && |r| == |sorted| + 1
    ensures forall x :: x in r <==> x in sorted || x == g
  {
    if sorted == [] || g.day > sorted[0].day then [g] + sorted
    else
      var rest := InsertByDay(g, sorted[1..]);
      assert forall x :: x in sorted[1..] ==> x.day < sorted[0].day;
      [sorted[0]] + rest
  }

  /** `Object.entries(...).sort(...)` on groups of distinct days: newest day first. */
  function SortNewestFirst(gs: seq<DayGroup>): (r: seq<DayGroup>)
    requires forall i, j :: 0 <= i < j < |gs| ==> gs[i].day != gs[j].day
    ensures NewestFirst(r) && |r| == |gs|
    ensures forall x :: x in r <==> x in gs
  {
    if gs == [] then []
    else
      var rest := SortNewestFirst(gs[1..]);
      assert forall x :: x in gs[1..] ==> x.day != gs[0].day;
      assert gs == [gs[0]] + gs[1..];
      InsertByDay(gs[0], rest)
  }

  /** The dictionary the grouping `reduce` builds from `seen`: each day mapped to its orders. */
  function AccOf(seen: seq<OrderLine>, dayOf: string -> int): map<int, seq<OrderLine>> {
    if seen == [] then map[]
    else
      var acc := AccOf(seen[..|seen| - 1], dayOf);
      var o := seen[|seen| - 1];
      var d := dayOf(o.orderDate);
      acc[d := (if d in acc then acc[d] else []) + [o]]
  }

  /** The dictionary's keys in insertion order, which is the order `Object.entries` lists them in. */
  function KeysOf(seen: seq<OrderLine>, dayOf: string -> int): seq<int> {
    if seen == [] then []
    else
      var prefix := seen[..|seen| - 1];
      var d := dayOf(seen[|seen| - 1].orderDate);
      if d in AccOf(prefix, dayOf) then KeysOf(prefix, dayOf) else KeysOf(prefix, dayOf) + [d]
  }

  /** The keys listed are exactly the dictionary's keys. */
  ghost predicate KeysMatch(keys: seq<int>, acc: map<int, seq<OrderLine>>) {
    && (forall d :: d in acc <==> d in keys)
    && (forall k :: 0 <= k < |keys| ==> keys[k] in acc)
  }

  ghost predicate Distinct(keys: seq<int>) {
    forall a, b :: 0 <= a < b < |keys| ==> keys[a] != keys[b]
  }

  /** Each day's list holds that day's orders, in the order they were read, and is never empty. */
  ghost predicate ListsOnDay(seen: seq<OrderLine>, dayOf: string -> int, acc: map<int, seq<OrderLine>>) {
    forall d :: d in acc ==> acc[d] == OnDay(seen, dayOf, d) && acc[d] != []
  }

  /** Every order read has its day in the dictionary. */
  ghost predicate Covers(seen: seq<OrderLine>, dayOf: string -> int, acc: map<int, seq<OrderLine>>) {
    forall k :: 0 <= k < |seen| ==> dayOf(seen[k].orderDate) in acc
  }

  /** What the dictionary and its keys satisfy after reading `seen`. */
  ghost predicate Grouped(seen: seq<OrderLine>, dayOf: string -> int, keys: seq<int>, acc: map<int, seq<OrderLine>>) {
    KeysMatch(keys, acc) && Distinct(keys) && ListsOnDay(seen, dayOf, acc) && Covers(seen, dayOf, acc)
  }

  /** The last step of the fold adds the last order's day to the keys exactly when it is new. */
  lemma {:induction false} StepKeys(seen: seq<OrderLine>, dayOf: string -> int)
    requires seen != []
    requires KeysMatch(KeysOf(seen[..|seen| - 1], dayOf), AccOf(seen[..|seen| - 1], dayOf))
    requires Distinct(KeysOf(seen[..|seen| - 1], dayOf))
    ensures KeysMatch(KeysOf(seen, dayOf), AccOf(seen, dayOf)) && Distinct(KeysOf(seen, dayOf))
  {
  }

  /** The last step of the fold appends the last order to its day's list only. */
  lemma {:induction false} StepLists(seen: seq<OrderLine>, dayOf: string -> int)
    requires seen != []
    requires ListsOnDay(seen[..|seen| - 1], dayOf, AccOf(seen[..|seen| - 1], dayOf))
    requires Covers(seen[..|seen| - 1], dayOf, AccOf(seen[..|seen| - 1], dayOf))
    ensures ListsOnDay(seen, dayOf, AccOf(seen, dayOf))
  {
    var prefix := seen[..|seen| - 1];
    var d := dayOf(seen[|seen| - 1].orderDate);
    var acc := AccOf(prefix, dayOf);
    if d !in acc {
      OnDayEmpty(prefix, dayOf, d);
    }
  }

  /** After the last step of the fold every order read so far has its day in the dictionary. */
  lemma {:induction false} StepCovers(seen: seq<OrderLine>, dayOf: string -> int)
    requires seen != []
    requires Covers(seen[..|seen| - 1], dayOf, AccOf(seen[..|seen| - 1], dayOf))
    ensures Covers(seen, dayOf, AccOf(seen, dayOf))
  {
    var prefix := seen[..|seen| - 1];
    forall k | 0 <= k < |seen| ensures dayOf(seen[k].orderDate) in AccOf(seen, dayOf) {
      if k < |prefix| {
        assert seen[k] == prefix[k];
      }
    }
  }

  /** The fold is a grouping of everything it has read. */
  lemma {:induction false} FoldIsGrouped(seen: seq<OrderLine>, dayOf: string -> int)
    ensures Grouped(seen, dayOf, KeysOf(seen, dayOf), AccOf(seen, dayOf))
  {
    if seen != [] {
      FoldIsGrouped(seen[..|seen| - 1], dayOf);
      StepKeys(seen, dayOf);
      StepLists(seen, dayOf);
      StepCovers(seen, dayOf);
    }
  }

  /** `Object.entries` of the dictionary: one group per key, in insertion order. */
  function Entries(keys: seq<int>, acc: map<int, seq<OrderLine>>): (r: seq<DayGroup>)
    requires forall k :: 0 <= k < |keys| ==> keys[k] in acc
    ensures |r| == |keys| && forall k :: 0 <= k < |keys| ==> r[k] == DayGroup(keys[k], acc[keys[k]])
  {
    seq(|keys|, k requires 0 <= k < |keys| => DayGroup(keys[k], acc[keys[k]]))
  }

  /** The entries of the finished dictionary, sorted newest day first, form a day grouping. */
  lemma {:induction false} GroupedSorted(orders: seq<OrderLine>, dayOf: string -> int, keys: seq<int>, acc: map<int, seq<OrderLine>>)
    requires Grouped(orders, dayOf, keys, acc)
    ensures IsDayGrouping(orders, dayOf, SortNewestFirst(Entries(keys, acc)))
  {
    var entries := Entries(keys, acc);
    var groups := SortNewestFirst(entries);
    forall j | 0 <= j < |groups| ensures groups[j].orders == OnDay(orders, dayOf, groups[j].day) && groups[j].orders != [] {
      assert groups[j] in entries;
    }
    forall o | o in orders ensures exists j :: 0 <= j < |groups| && groups[j].day == dayOf(o.orderDate) {
      var d := dayOf(o.orderDate);
      var k :| 0 <= k < |keys| && keys[k] == d;
      assert entries[k] in groups;
    }
  }

  /** The finished dictionary's entries, sorted newest day first, group the orders by day. */
  lemma {:induction false} FoldGroupsByDay(orders: seq<OrderLine>, dayOf: string -> int, keys: seq<int>, acc: map<int, seq<OrderLine>>)
    requires keys == KeysOf(orders, dayOf) && acc == AccOf(orders, dayOf)
    ensures forall k :: 0 <= k < |keys| ==> keys[k] in acc
    ensures Distinct(keys)
    ensures IsDayGrouping(orders, dayOf, SortNewestFirst(Entries(keys, acc)))
  {
    FoldIsGrouped(orders, dayOf);
    GroupedSorted(orders, dayOf, keys, acc);
  }

  /**
   * The grouping `reduce` and the sort that follows: a dictionary from day to that
   * day's orders is filled in one pass, then its entries are sorted newest day first.
   */
  method GroupByDay(orders: seq<OrderLine>, dayOf: string -> int) returns (groups: seq<DayGroup>)
    ensures IsDayGrouping(orders, dayOf, groups)
  {
    var keys: seq<int> := [];
    var acc: map<int, seq<OrderLine>> := map[];
    var i := 0;
    while i < |orders|
      invariant 0 <= i <= |orders|
      invariant keys == KeysOf(orders[..i], dayOf) && acc == AccOf(orders[..i], dayOf)
    {
      var o := orders[i];
      var d := dayOf(o.orderDate);
      assert orders[..i + 1][..i] == orders[..i] && orders[..i + 1][i] == o;
      if d !in acc {
        keys := keys + [d];
        acc := acc[d := []];
      }
      acc := acc[d := acc[d] + [o]];
      i := i + 1;
    }
    assert orders[..i] == orders;
    FoldGroupsByDay(orders, dayOf, keys, acc);
    groups := SortNewestFirst(Entries(keys, acc));
  }

  // ---------------------------------------------------------------- the page's state

  const LoadFailed := "Failed to load orders. Please try again."

  /** The orders the server describes, as the page shows them. */
  function OrdersFromResponse(reply: OrderBookResponse, now: string): (r: seq<OrderLine>)
    ensures |r| <= |reply.orderBooks|
  {
    JoinOrders(TransformCollections(reply.ceremics, now), reply.orderBooks, now)
  }

  class OrdersPage {
    var orders: seq<OrderLine>
    var loading: bool
    var error: Option<string>

    constructor ()
      ensures orders == [] && loading && error == None
    {
      orders, loading, error := [], true, None;
    }

    /** The mount effect `fetchOrders`: with a session it loads and joins the order book. */
    method FetchOrders(store: UserStorage.Store, reply: Outcome<OrderBookResponse>, now: string) returns (requested: bool)
      requires store.Valid()
      modifies this
      ensures requested <==> store.IsUserLoggedIn() && store.GetUserData().Some?
      ensures !loading
      ensures !requested ==> orders == old(orders) && error == old(error)
      ensures requested && reply.Returned? ==> orders == OrdersFromResponse(reply.value, now) && error == None
      ensures requested && reply.Threw? ==> orders == [] && error == Some(LoadFailed)
    {
      requested := false;
      if !store.IsUserLoggedIn() {
        loading := false;
        return;
      }
      var userData := store.GetUserData();
      if userData.None? {
        loading := false;
        return;
      }
      requested := true;
      loading := true;
      error := None;
      match reply {
        case Returned(body) =>
          orders := OrdersFromResponse(body, now);
        case Threw(_) =>
          error := Some(LoadFailed);
          orders := [];
      }
      loading := false;
    }
  }
}
