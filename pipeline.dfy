/** `getOrdersByDate`: validate the date, check the dataset, scan and filter the orders, then
    total each matched order in place, aborting the whole run at the first problem. */
module Pipeline {
  import opened Wrappers
  import opened FailFast
  import opened Dates
  import opened Orders
  import opened OrderFacts

  /** The orders of the dataset, or none when the collection is absent. */
  function OrdersOf(ds: Dataset): seq<Order> {
    if ds.orders.Some? then ds.orders.value else []
  }

  /** The terminal state of a run, stage by stage. */
  function Run(date: string, status: Option<string>, ds: Dataset): (r: Outcome)
    ensures r.Found? ==>
      ValidateDate(date) && ds.orders.Some? && ds.customers.Some? && r.orders != [] &&
      forall o :: o in r.orders ==> o in ds.orders.value && Matches(o, date, status)
  {
    if !ValidateDate(date) then InvalidDate
    else if ds.orders.None? then MissingOrders
    else if ds.customers.None? then MissingCustomers
    else if |ds.orders.value| == 0 then NoOrders
    else match Screen(ds.orders.value, date, status)
      case FieldMissing(f) => MissingOrderField(f)
      case Selected(m) =>
        if m == [] then NoMatch
        else match FirstFault(m, OrderCheck(CustomerIds(ds.customers.value)))
          case Some(fault) => BadOrder(fault)
          case None => Found(m)
  }

  /** The matched orders that receive a total before the run ends: every match on success,
      the matches before the first faulty one on an abort, none when the run stops earlier. */
  function Enriched(date: string, status: Option<string>, ds: Dataset): (r: seq<Order>)
    ensures r != [] ==> ValidateDate(date) && ds.orders.Some? && ds.customers.Some?
    ensures |r| <= |OrdersOf(ds)|
  {
    if !ValidateDate(date) || ds.orders.None? || ds.customers.None? || |ds.orders.value| == 0 then []
    else match Screen(ds.orders.value, date, status)
      case FieldMissing(_) => []
      case Selected(m) =>
        m[..CleanPrefix(m, OrderCheck(CustomerIds(ds.customers.value)))]
  }

  /** The filter test of the first loop, for an order that has every required property. */
  method IsSelected(order: Order, date: string, status: Option<string>) returns (selected: bool)
    requires order.orderDate.Some? && order.status.Some?
    ensures selected == Matches(order, date, status)
  {
    if status.None? || status.value == "" {
      selected := GetDate(order.orderDate.value) == date;
    } else {
      selected := order.status.value == status.value && GetDate(order.orderDate.value) == date;
    }
  }

  /** The required-property scan interleaved with the filter (the first loop). */
  method SelectOrders(orders: seq<Order>, date: string, status: Option<string>) returns (r: Screening)
    ensures r == Screen(orders, date, status)
  {
    var result: seq<Order> := [];
    var i := 0;
    while i < |orders|
      invariant 0 <= i <= |orders|
      invariant forall j :: 0 <= j < i ==> MissingField(orders[j]).None?
      invariant result == Filter(orders[..i], date, status)
    {
      var order := orders[i];
      var missing := MissingField(order);
      if missing.Some? {
        CleanPrefixAt(orders, MissingField, i);
        return FieldMissing(missing.value);
      }
      var selected := IsSelected(order, date, status);
      if selected {
        result := result + [order];
      }
      FilterStep(orders, i, date, status);
      i := i + 1;
    }
    assert orders[..i] == orders;
    CleanPrefixAt(orders, MissingField, i);
    assert Screen(orders, date, status) == Selected(result);
    r := Selected(result);
  }

  /** The item loop of one matched order: the first item fault, or the total of its items. */
  method ItemsTotal(items: seq<Item>) returns (fault: Option<Fault>, total: real)
    ensures fault == FirstFault(items, ItemFault)
    ensures fault.None? ==> total == Sum(items)
  {
    total := 0.0;
    var i := 0;
    while i < |items|
      invariant 0 <= i <= |items|
      invariant forall j :: 0 <= j < i ==> ItemFault(items[j]).None?
      invariant total == Sum(items[..i])
    {
      var item := items[i];
      if item.quantity.None? || item.price.None? ||
         item.quantity.value.NotNumber? || item.price.value.NotNumber?
      {
        CleanPrefixAt(items, ItemFault, i);
        if item.quantity.None? { return Some(MissingQuantity), total; }
        if item.price.None? { return Some(MissingPrice), total; }
        if item.quantity.value.NotNumber? { return Some(QuantityNotNumber), total; }
        return Some(PriceNotNumber), total;
      }
      assert items[..i + 1][..i] == items[..i];
      total := total + item.quantity.value.amount * item.price.value.amount;
      i := i + 1;
    }
    assert items[..i] == items;
    CleanPrefixAt(items, ItemFault, i);
    fault := None;
  }

  /** The second loop: check each matched order's customer, then its items, and write its
      total into it before moving on; stop at the first fault. */
  method EnrichOrders(matched: seq<Order>, customerIds: seq<Option<Ident>>) returns (fault: Option<Fault>)
    requires forall o :: o in matched ==> o.items.Some?
    modifies set o | o in matched
    ensures fault == FirstFault(matched, OrderCheck(customerIds))
    ensures forall o :: o in matched ==>
      o.totalOrderValue ==
        if o in matched[..CleanPrefix(matched, OrderCheck(customerIds))] then Some(OrderTotal(o))
        else old(o.totalOrderValue)
  {
    ghost var check := OrderCheck(customerIds);
    var k := 0;
    while k < |matched|
      invariant 0 <= k <= |matched|
      invariant forall j :: 0 <= j < k ==> check(matched[j]).None?
      invariant forall o :: o in matched ==>
        o.totalOrderValue == if o in matched[..k] then Some(OrderTotal(o)) else old(o.totalOrderValue)
    {
      var order := matched[k];
      if order.customerId !in customerIds {
        CleanPrefixAt(matched, check, k);
        return Some(UnknownCustomer);
      }
      var itemFault, totalOrderValue := ItemsTotal(order.items.value);
      if itemFault.Some? {
        CleanPrefixAt(matched, check, k);
        return itemFault;
      }
      order.totalOrderValue := Some(totalOrderValue);
      assert matched[..k + 1] == matched[..k] + [order];
      k := k + 1;
    }
    assert matched[..k] == matched;
    CleanPrefixAt(matched, check, k);
    fault := None;
  }

  /** A run that stops before the scans totals nothing. */
  lemma StopsBeforeScan(date: string, status: Option<string>, ds: Dataset)
    requires !ValidateDate(date) || ds.orders.None? || ds.customers.None? || |ds.orders.value| == 0
    ensures Enriched(date, status, ds) == []
  {
  }

  /** How a run that reaches the scans ends, given the scan's result. */
  lemma AfterScan(date: string, status: Option<string>, ds: Dataset, screening: Screening)
    requires ValidateDate(date) && ds.orders.Some? && ds.customers.Some? && |ds.orders.value| > 0
    requires screening == Screen(ds.orders.value, date, status)
    ensures screening.FieldMissing? ==>
      Run(date, status, ds) == MissingOrderField(screening.field) && Enriched(date, status, ds) == []
    ensures screening.Selected? ==>
      var m := screening.matched;
      var check := OrderCheck(CustomerIds(ds.customers.value));
      Enriched(date, status, ds) == m[..CleanPrefix(m, check)] &&
      Run(date, status, ds) ==
        if m == [] then NoMatch
        else if FirstFault(m, check).Some? then BadOrder(FirstFault(m, check).value)
        else Found(m)
  {
  }

  /** The checks before any total is computed: the date, the two collections, an empty
      `orders`, the required-property scan with the filter, and an empty match. Either the run
      stops here with `early`, having totalled nothing, or it goes on with the non-empty
      `matched` list. */
  method ScreenDataset(date: string, status: Option<string>, ds: Dataset)
    returns (early: Option<Outcome>, matched: seq<Order>)
    ensures early.Some? ==> early.value == Run(date, status, ds) && Enriched(date, status, ds) == []
    ensures early.None? ==>
      ValidateDate(date) && ds.orders.Some? && ds.customers.Some? && |ds.orders.value| > 0 &&
      Screen(ds.orders.value, date, status) == Selected(matched) && matched != [] &&
      forall o :: o in matched ==> o in ds.orders.value && o.items.Some?
  {
    matched := [];
    if !ValidateDate(date) {
      StopsBeforeScan(date, status, ds);
      return Some(InvalidDate), matched;
    }
    if ds.orders.None? {
      StopsBeforeScan(date, status, ds);
      return Some(MissingOrders), matched;
    }
    if ds.customers.None? {
      StopsBeforeScan(date, status, ds);
      return Some(MissingCustomers), matched;
    }
    var orders := ds.orders.value;
    if |orders| <= 0 {
      StopsBeforeScan(date, status, ds);
      return Some(NoOrders), matched;
    }
    var screening := SelectOrders(orders, date, status);
    AfterScan(date, status, ds, screening);
    if screening.FieldMissing? {
      return Some(MissingOrderField(screening.field)), matched;
    }
    matched := screening.matched;
    SelectedHaveItems(orders, date, status);
    if |matched| == 0 {
      return Some(NoMatch), matched;
    }
    early := None;
  }

  /** `getOrdersByDate` over an already parsed dataset. */
  method GetOrdersByDate(date: string, status: Option<string>, ds: Dataset) returns (outcome: Outcome)
    modifies set o | o in OrdersOf(ds)
    ensures outcome == Run(date, status, ds)
    ensures forall o :: o in OrdersOf(ds) ==>
      o.totalOrderValue == if o in Enriched(date, status, ds) then Some(OrderTotal(o))
                           else old(o.totalOrderValue)
    ensures outcome.Found? ==>
      forall o :: o in outcome.orders ==> o.totalOrderValue == Some(OrderTotal(o))
  {
    var early, result := ScreenDataset(date, status, ds);
    if early.Some? {
      return early.value;
    }
    AfterScan(date, status, ds, Selected(result));
    var customerIds := CustomerIds(ds.customers.value);
    var fault := EnrichOrders(result, customerIds);
    if fault.Some? {
      return BadOrder(fault.value);
    }
    assert result[..|result|] == result;
    return Found(result);
  }
}
