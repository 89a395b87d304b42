/** Server-side order creation (backend/.../service/FrontdashService.java,
    `createOrder` and `roundCurrency`). The database is abstracted as a
    `Repository` object: each restaurant's menu as a price map, the
    auto-increment counters, and the log of rows written, in order. */
module OrderService {
  import opened Common
  import opened Money
  import opened OrderRequest

  /** One row written by the repository. */
  datatype Write =
    | OrderRow(orderNumber: int, restName: Option<string>, subtotal: real, tipAmount: real, status: string)
    | OrderLine(orderNumber: int, itemId: int, quantity: int, lineSubtotal: real)
    | AddressRow(addressId: int, street1: Option<string>, street2: Option<string>, city: Option<string>,
                 state: Option<string>, zip: Option<string>)
    | DeliveryRow(orderNumber: int, addressId: int, contactName: Option<string>, contactPhone: Option<string>)

  datatype CreateOrderResponse = CreateOrderResponse(
    orderNumber: int, subtotal: real, serviceCharge: real, tipAmount: real, grandTotal: real, message: string)

  const InvalidItemsMessage: string := "One or more menu items are invalid for this restaurant"

  class Repository {
    /** restaurant name -> menu item id -> item price */
    var menus: map<string, map<int, real>>
    var log: seq<Write>
    var lastOrderNumber: int
    var lastAddressId: int

    constructor (menus: map<string, map<int, real>>)
      ensures this.menus == menus && log == [] && lastOrderNumber == 0 && lastAddressId == 0
    {
      this.menus := menus;
      log := [];
      lastOrderNumber := 0;
      lastAddressId := 0;
    }

    /** The menu the lookup query joins against; an unknown or null
        restaurant name matches no row. */
    function MenuOf(restName: Option<string>): map<int, real>
      reads this
    {
      if restName.Some? && restName.value in menus then menus[restName.value] else map[]
    }

    /** `createOrderWithTotals`: inserts the order row with status
        "In Progress" and returns the generated order number. */
    method CreateOrderWithTotals(restName: Option<string>, subtotal: real, tipAmount: real) returns (orderNumber: int)
      modifies this`log, this`lastOrderNumber
      ensures orderNumber == old(lastOrderNumber) + 1 && lastOrderNumber == orderNumber
      ensures log == old(log) + [OrderRow(orderNumber, restName, subtotal, tipAmount, "In Progress")]
    {
      lastOrderNumber := lastOrderNumber + 1;
      orderNumber := lastOrderNumber;
      log := log + [OrderRow(orderNumber, restName, subtotal, tipAmount, "In Progress")];
    }

    method AddOrderItem(orderNumber: int, itemId: int, quantity: int, lineSubtotal: real)
      modifies this`log
      ensures log == old(log) + [OrderLine(orderNumber, itemId, quantity, lineSubtotal)]
    {
      log := log + [OrderLine(orderNumber, itemId, quantity, lineSubtotal)];
    }

    method CreateAddress(street1: Option<string>, street2: Option<string>, city: Option<string>,
                         state: Option<string>, zip: Option<string>) returns (addressId: int)
      modifies this`log, this`lastAddressId
      ensures addressId == old(lastAddressId) + 1 && lastAddressId == addressId
      ensures log == old(log) + [AddressRow(addressId, street1, street2, city, state, zip)]
    {
      lastAddressId := lastAddressId + 1;
      addressId := lastAddressId;
      log := log + [AddressRow(addressId, street1, street2, city, state, zip)];
    }

    method SetOrderDeliveryAddress(orderNumber: int, addressId: int, contactName: Option<string>,
                                   contactPhone: Option<string>)
      modifies this`log
      ensures log == old(log) + [DeliveryRow(orderNumber, addressId, contactName, contactPhone)]
    {
      log := log + [DeliveryRow(orderNumber, addressId, contactName, contactPhone)];
    }
  }

  // ------------------------------------------------------------ item lookup

  function ItemIds(items: seq<OrderItem>): (ids: seq<Option<int>>)
    ensures |ids| == |items|
    ensures forall i :: 0 <= i < |items| ==> ids[i] == items[i].itemId
  {
    seq(|items|, i requires 0 <= i < |items| => items[i].itemId)
  }

  /** `getMenuItemsForRestaurant`: the menu rows whose id is among `ids`,
      keyed by id. A null id matches no row. */
  function MenuRowsFor(menu: map<int, real>, ids: seq<Option<int>>): (found: map<Option<int>, real>)
    ensures forall o :: o in found <==> o in ids && o.Some? && o.value in menu
    ensures forall o :: o in found ==> found[o] == menu[o.value]
  {
    map o | o in ids && o.Some? && o.value in menu :: menu[o.value]
  }

  predicate Distinct<T(==)>(s: seq<T>)
  {
    forall i, j :: 0 <= i < j < |s| ==> s[i] != s[j]
  }

  function SetOf<T(==)>(s: seq<T>): set<T>
  {
    set x | x in s
  }

  /** createOrder's guard: as many menu rows came back as ids were sent. */
  predicate ItemsResolve(menu: map<int, real>, ids: seq<Option<int>>)
  {
    |MenuRowsFor(menu, ids)| == |ids|
  }

  lemma {:induction false} SetOfCard<T>(s: seq<T>)
    ensures |SetOf(s)| <= |s|
    ensures |SetOf(s)| == |s| <==> Distinct(s)
  {
    if s != [] {
      var t := s[1..];
      SetOfCard(t);
      assert SetOf(s) == {s[0]} + SetOf(t) by {
        assert forall x :: x in s <==> x == s[0] || x in t;
      }
      if s[0] in t {
        assert SetOf(s) == SetOf(t);
        var k :| 0 <= k < |t| && t[k] == s[0];
        assert s[0] == s[k + 1];
      } else {
        assert Distinct(s) <==> Distinct(t) by {
          if Distinct(t) {
            forall i, j | 0 <= i < j < |s| ensures s[i] != s[j] {
              if i > 0 {
                assert s[i] == t[i - 1] && s[j] == t[j - 1];
              } else {
                assert s[j] == t[j - 1];
              }
            }
          }
          if Distinct(s) {
            forall i, j | 0 <= i < j < |t| ensures t[i] != t[j] {
              assert t[i] == s[i + 1] && t[j] == s[j + 1];
            }
          }
        }
      }
    }
  }

  lemma SubsetCard<T>(a: set<T>, b: set<T>)
    requires a <= b
    ensures |a| <= |b|
    ensures |a| == |b| ==> a == b
  {
    assert b == a + (b - a);
    assert a * (b - a) == {};
    if |a| == |b| {
      assert |b - a| == 0;
    }
  }

  /** The size check rejects exactly the requests naming an id the menu
      lacks (a null id included) or naming one id twice. */
  lemma ItemsResolveIff(menu: map<int, real>, ids: seq<Option<int>>)
    ensures ItemsResolve(menu, ids)
        <==> (forall i :: 0 <= i < |ids| ==> ids[i].Some? && ids[i].value in menu) && Distinct(ids)
  {
    var found := MenuRowsFor(menu, ids);
    var keys := found.Keys;
    assert keys <= SetOf(ids);
    SubsetCard(keys, SetOf(ids));
    SetOfCard(ids);
    assert |found| == |keys|;
    if ItemsResolve(menu, ids) {
      SubsetCard(keys, SetOf(ids));
      forall i | 0 <= i < |ids| ensures ids[i].Some? && ids[i].value in menu {
        assert ids[i] in SetOf(ids);
      }
    }
    if (forall i :: 0 <= i < |ids| ==> ids[i].Some? && ids[i].value in menu) && Distinct(ids) {
      assert keys == SetOf(ids);
    }
  }

  /** Once every id resolves, each request line has its price and no id
      repeats. */
  lemma ResolvedItemsFound(menu: map<int, real>, items: seq<OrderItem>)
    requires ItemsResolve(menu, ItemIds(items))
    ensures AllFound(MenuRowsFor(menu, ItemIds(items)), items) && Distinct(ItemIds(items))
  {
    var ids := ItemIds(items);
    ItemsResolveIff(menu, ids);
    forall i | 0 <= i < |items| ensures items[i].itemId.Some? && items[i].itemId in MenuRowsFor(menu, ids) {
      assert ids[i] == items[i].itemId;
    }
  }

  // ------------------------------------------------------------ pricing

  /** The unrounded amount of one request line. */
  function LineAmount(found: map<Option<int>, real>, item: OrderItem): real
    requires item.itemId in found
  {
    found[item.itemId] * item.quantity as real
  }

  predicate AllFound(found: map<Option<int>, real>, items: seq<OrderItem>)
  {
    forall i :: 0 <= i < |items| ==> items[i].itemId.Some? && items[i].itemId in found
  }

  /** Sum over the request lines of menu price times quantity. */
  function OrderSubtotal(found: map<Option<int>, real>, items: seq<OrderItem>): real
    requires AllFound(found, items)
  {
    if items == [] then 0.0
    else OrderSubtotal(found, items[..|items| - 1]) + LineAmount(found, items[|items| - 1])
  }

  lemma {:induction false} OrderSubtotalNonNegative(found: map<Option<int>, real>, items: seq<OrderItem>)
    requires AllFound(found, items)
    requires forall o :: o in found ==> found[o] >= 0.0
    requires forall i :: 0 <= i < |items| ==> items[i].quantity >= 0
    ensures OrderSubtotal(found, items) >= 0.0
  {
    if items != [] {
      OrderSubtotalNonNegative(found, items[..|items| - 1]);
      var last := items[|items| - 1];
      assert found[last.itemId] * last.quantity as real >= 0.0;
    }
  }

  /** With every line valid (quantity at least one) and every price
      positive, a non-empty order has a positive subtotal. */
  lemma {:induction false} OrderSubtotalPositive(found: map<Option<int>, real>, items: seq<OrderItem>)
    requires AllFound(found, items) && |items| > 0
    requires forall o :: o in found ==> found[o] > 0.0
    requires forall i :: 0 <= i < |items| ==> ValidItem(items[i])
    ensures OrderSubtotal(found, items) > 0.0
  {
    var init := items[..|items| - 1];
    OrderSubtotalNonNegative(found, init);
    var last := items[|items| - 1];
    assert found[last.itemId] * last.quantity as real >= found[last.itemId];
  }

  /** The first loop of createOrder: add up the line amounts in request
      order and remember each id's line amount. */
  method PriceItems(found: map<Option<int>, real>, items: seq<OrderItem>)
    returns (subtotal: real, lineSubtotals: map<int, real>)
    requires AllFound(found, items) && Distinct(ItemIds(items))
    ensures subtotal == OrderSubtotal(found, items)
    ensures forall i :: 0 <= i < |items| ==>
              items[i].itemId.value in lineSubtotals && lineSubtotals[items[i].itemId.value] == LineAmount(found, items[i])
  {
    subtotal := 0.0;
    lineSubtotals := map[];
    var i := 0;
    while i < |items|
      invariant 0 <= i <= |items|
      invariant subtotal == OrderSubtotal(found, items[..i])
      invariant forall j :: 0 <= j < i ==>
                  items[j].itemId.value in lineSubtotals && lineSubtotals[items[j].itemId.value] == LineAmount(found, items[j])
    {
      var item := items[i];
      var price := found[item.itemId];
      var line := price * item.quantity as real;
      forall j | 0 <= j < i ensures items[j].itemId.value != item.itemId.value {
        assert ItemIds(items)[j] != ItemIds(items)[i];
      }
      lineSubtotals := lineSubtotals[item.itemId.value := line];
      assert items[..i + 1][..i] == items[..i];
      subtotal := subtotal + line;
      i := i + 1;
    }
    assert items[..i] == items;
  }

  /** The order lines createOrder writes, one per request item, in request
      order, each with its rounded amount. */
  function LineWrites(orderNumber: int, found: map<Option<int>, real>, items: seq<OrderItem>): (w: seq<Write>)
    requires AllFound(found, items)
    ensures |w| == |items|
    ensures forall i :: 0 <= i < |items| ==>
              w[i] == OrderLine(orderNumber, items[i].itemId.value, items[i].quantity, Round2(LineAmount(found, items[i])))
  {
    seq(|items|, i requires 0 <= i < |items| =>
      OrderLine(orderNumber, items[i].itemId.value, items[i].quantity, Round2(LineAmount(found, items[i]))))
  }

  /** The response: rounded subtotal, service charge and tip, and a grand
      total rounded from the unrounded subtotal and tip plus the rounded
      service charge. */
  function ResponseFor(orderNumber: int, subtotal: real, tipAmount: real): CreateOrderResponse
  {
    var serviceCharge := Round2(subtotal * ServiceChargeRate);
    CreateOrderResponse(orderNumber, Round2(subtotal), serviceCharge, Round2(tipAmount),
                        Round2(subtotal + serviceCharge + tipAmount), "Order created")
  }

  /** A null tip counts as zero. */
  function TipOrZero(tipAmount: Option<real>): (t: real)
    ensures tipAmount.None? ==> t == 0.0
    ensures tipAmount.Some? ==> t == tipAmount.value
  {
    if tipAmount.None? then 0.0 else tipAmount.value
  }

  /** Everything a successful createOrder writes, in order: the order row,
      one line per item, the address row, and the delivery link. */
  function OrderWrites(orderNumber: int, addressId: int, restName: Option<string>, found: map<Option<int>, real>,
                       items: seq<OrderItem>, d: DeliveryDetails, tip: real): seq<Write>
    requires AllFound(found, items)
  {
    [OrderRow(orderNumber, restName, Round2(OrderSubtotal(found, items)), Round2(tip), "In Progress")]
    + LineWrites(orderNumber, found, items)
    + [AddressRow(addressId, d.streetAddress1, d.streetAddress2, d.city, d.state, d.zip),
       DeliveryRow(orderNumber, addressId, d.contactName, d.contactPhone)]
  }

  /** The second loop of createOrder: one `addOrderItem` per request line. */
  method WriteOrderLines(repo: Repository, orderNumber: int, found: map<Option<int>, real>, items: seq<OrderItem>,
                         lineSubtotals: map<int, real>)
    requires AllFound(found, items)
    requires forall i :: 0 <= i < |items| ==>
               items[i].itemId.value in lineSubtotals && lineSubtotals[items[i].itemId.value] == LineAmount(found, items[i])
    modifies repo`log
    ensures repo.log == old(repo.log) + LineWrites(orderNumber, found, items)
  {
    var i := 0;
    while i < |items|
      invariant 0 <= i <= |items|
      invariant repo.log == old(repo.log) + LineWrites(orderNumber, found, items[..i])
    {
      var item := items[i];
      var line := lineSubtotals[item.itemId.value];
      repo.AddOrderItem(orderNumber, item.itemId.value, item.quantity, Round2(line));
      assert LineWrites(orderNumber, found, items[..i + 1])
          == LineWrites(orderNumber, found, items[..i]) + [OrderLine(orderNumber, item.itemId.value, item.quantity, Round2(line))];
      i := i + 1;
    }
    assert items[..i] == items;
  }

  /** The state after a successful createOrder, given the state before: both
      counters advanced by one, the log extended by exactly the order's
      writes under the new numbers, and the response built from the
      unrounded subtotal and tip. */
  predicate OrderRecorded(log0: seq<Write>, order0: int, address0: int,
                          log1: seq<Write>, order1: int, address1: int,
                          restName: Option<string>, found: map<Option<int>, real>, items: seq<OrderItem>,
                          d: DeliveryDetails, tip: real, response: CreateOrderResponse)
  {
    && AllFound(found, items)
    && order1 == order0 + 1
    && address1 == address0 + 1
    && log1 == log0 + OrderWrites(order1, address1, restName, found, items, d, tip)
    && response == ResponseFor(order1, OrderSubtotal(found, items), tip)
  }

  /** `createOrder`. The request's `items` and `delivery` are non-null (the
      controller's `@Valid` guarantees that); nothing else is assumed of it. */
  method CreateOrder(repo: Repository, request: CreateOrderRequest) returns (result: Result<CreateOrderResponse, string>)
    requires request.items.Some? && request.delivery.Some?
    modifies repo
    ensures repo.menus == old(repo.menus)
    ensures result.Failure? <==> !ItemsResolve(old(repo.MenuOf(request.restName)), ItemIds(request.items.value))
    ensures result.Failure? ==>
              && result.error == InvalidItemsMessage
              && repo.log == old(repo.log)
              && repo.lastOrderNumber == old(repo.lastOrderNumber)
              && repo.lastAddressId == old(repo.lastAddressId)
    ensures result.Success? ==>
              OrderRecorded(old(repo.log), old(repo.lastOrderNumber), old(repo.lastAddressId),
                            repo.log, repo.lastOrderNumber, repo.lastAddressId, request.restName,
                            MenuRowsFor(old(repo.MenuOf(request.restName)), ItemIds(request.items.value)),
                            request.items.value, request.delivery.value, TipOrZero(request.tipAmount), result.value)
  {
    var tipAmount := TipOrZero(request.tipAmount);
    var items := request.items.value;
    var itemIds := ItemIds(items);
    var menuItems := MenuRowsFor(repo.MenuOf(request.restName), itemIds);
    if |menuItems| != |itemIds| {
      return Failure(InvalidItemsMessage);
    }
    ResolvedItemsFound(repo.MenuOf(request.restName), items);
    result := RecordOrder(repo, request.restName, menuItems, items, request.delivery.value, tipAmount);
  }

  /** The part of createOrder after the lookup succeeded: price the lines,
      write the order, its lines, its address and its delivery link, and
      build the response. */
  method RecordOrder(repo: Repository, restName: Option<string>, found: map<Option<int>, real>, items: seq<OrderItem>,
                     delivery: DeliveryDetails, tipAmount: real) returns (result: Result<CreateOrderResponse, string>)
    requires AllFound(found, items) && Distinct(ItemIds(items))
    modifies repo
    ensures repo.menus == old(repo.menus)
    ensures result.Success?
    ensures OrderRecorded(old(repo.log), old(repo.lastOrderNumber), old(repo.lastAddressId),
                          repo.log, repo.lastOrderNumber, repo.lastAddressId, restName,
                          found, items, delivery, tipAmount, result.value)
  {
    ghost var log0 := repo.log;
    var subtotal, lineSubtotals := PriceItems(found, items);
    var orderNumber := repo.CreateOrderWithTotals(restName, Round2(subtotal), Round2(tipAmount));
    ghost var head := [OrderRow(orderNumber, restName, Round2(subtotal), Round2(tipAmount), "In Progress")];
    WriteOrderLines(repo, orderNumber, found, items, lineSubtotals);
    ghost var lines := LineWrites(orderNumber, found, items);
    var addressId := repo.CreateAddress(delivery.streetAddress1, delivery.streetAddress2, delivery.city,
                                        delivery.state, delivery.zip);
    repo.SetOrderDeliveryAddress(orderNumber, addressId, delivery.contactName, delivery.contactPhone);
    ghost var tail := [AddressRow(addressId, delivery.streetAddress1, delivery.streetAddress2, delivery.city,
                                  delivery.state, delivery.zip),
                       DeliveryRow(orderNumber, addressId, delivery.contactName, delivery.contactPhone)];
    assert repo.log == log0 + (head + lines + tail);
    assert head + lines + tail == OrderWrites(orderNumber, addressId, restName, found, items, delivery, tipAmount);

    var serviceCharge := Round2(subtotal * ServiceChargeRate);
    var grandTotal := Round2(subtotal + serviceCharge + tipAmount);
    result := Success(CreateOrderResponse(orderNumber, Round2(subtotal), serviceCharge, Round2(tipAmount), grandTotal,
                                          "Order created"));
  }

  // ------------------------------------------------------------ response

  /** Every figure in the response is a whole number of cents. */
  lemma ResponseInCents(orderNumber: int, subtotal: real, tipAmount: real)
    ensures var r := ResponseFor(orderNumber, subtotal, tipAmount);
            && Round2(r.subtotal) == r.subtotal && Round2(r.serviceCharge) == r.serviceCharge
            && Round2(r.tipAmount) == r.tipAmount && Round2(r.grandTotal) == r.grandTotal
  {
    Round2Idempotent(subtotal);
    Round2Idempotent(subtotal * ServiceChargeRate);
    Round2Idempotent(tipAmount);
    var sc := Round2(subtotal * ServiceChargeRate);
    Round2Idempotent(subtotal + sc + tipAmount);
  }

  /** The grand total differs from the sum of the other three figures by at
      most one cent (each is rounded separately). */
  lemma GrandTotalWithinOneCent(orderNumber: int, subtotal: real, tipAmount: real)
    ensures var r := ResponseFor(orderNumber, subtotal, tipAmount);
            -0.01 <= r.grandTotal - (r.subtotal + r.serviceCharge + r.tipAmount) <= 0.01
  {
    var r := ResponseFor(orderNumber, subtotal, tipAmount);
    var sc := Round2(subtotal * ServiceChargeRate);
    var g := HalfUpCents(subtotal + sc + tipAmount);
    var a := HalfUpCents(subtotal);
    var b := HalfUpCents(subtotal * ServiceChargeRate);
    var t := HalfUpCents(tipAmount);
    assert r.grandTotal - (r.subtotal + r.serviceCharge + r.tipAmount) == (g - a - b - t) as real / 100.0;
    assert (subtotal + sc + tipAmount) * 100.0 == subtotal * 100.0 + b as real + tipAmount * 100.0;
    CentsDrift(g, a, b, t, subtotal * 100.0, tipAmount * 100.0);
  }

  /** Three roundings, each within half a cent, drift by at most a cent and
      a half in total. */
  lemma CentsDrift(g: int, a: int, b: int, t: int, subtotalCents: real, tipCents: real)
    requires g as real - 0.5 <= subtotalCents + b as real + tipCents <= g as real + 0.5
    requires a as real - 0.5 <= subtotalCents <= a as real + 0.5
    requires t as real - 0.5 <= tipCents <= t as real + 0.5
    ensures -1.5 <= (g - a - b - t) as real <= 1.5
  {
  }

  /** When the subtotal and the tip are already whole cents, the grand total
      is exactly the sum of the three rounded figures. */
  lemma GrandTotalExactForCents(orderNumber: int, subtotalCents: int, tipCents: int)
    ensures var r := ResponseFor(orderNumber, Cents(subtotalCents), Cents(tipCents));
            r.grandTotal == r.subtotal + r.serviceCharge + r.tipAmount
  {
    var s, t := Cents(subtotalCents), Cents(tipCents);
    Round2OfCents(subtotalCents);
    Round2OfCents(tipCents);
    var b := HalfUpCents(s * ServiceChargeRate);
    assert s + Round2(s * ServiceChargeRate) + t == Cents(subtotalCents + b + tipCents);
    Round2OfCents(subtotalCents + b + tipCents);
  }
}
