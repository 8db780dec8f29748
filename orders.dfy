/** The order dataset as the pipeline sees it after parsing, and the checks and derived
    values the pipeline computes from it, stated as functions. */
module Orders {
  import opened Wrappers
  import opened FailFast
  import opened Dates

  /** An identifier as it appears in the JSON document: a string or a number. */
  datatype Ident = Text(text: string) | Number(number: real)

  /** The value of an item's `quantity` or `price`: numeric, or something `isNaN` rejects. */
  datatype Value = Num(amount: real) | NotNumber

  /** A line item; each property may be absent. */
  datatype Item = Item(quantity: Option<Value>, price: Option<Value>)

  /** A customer; only its `customerId` (possibly absent) is consulted. */
  datatype Customer = Customer(customerId: Option<Ident>)

  /** An order record. The pipeline reads the five source properties and never writes them;
      `totalOrderValue` is the property it adds to the record in place. */
  class Order {
    const orderId: Option<Ident>
    const customerId: Option<Ident>
    const orderDate: Option<string>
    const status: Option<string>
    const items: Option<seq<Item>>
    var totalOrderValue: Option<real>

    constructor (orderId: Option<Ident>, customerId: Option<Ident>, orderDate: Option<string>,
                 status: Option<string>, items: Option<seq<Item>>)
      ensures this.orderId == orderId && this.customerId == customerId
      ensures this.orderDate == orderDate && this.status == status && this.items == items
      ensures totalOrderValue.None?
    {
      this.orderId := orderId;
      this.customerId := customerId;
      this.orderDate := orderDate;
      this.status := status;
      this.items := items;
      totalOrderValue := None;
    }
  }

  /** The parsed document; either top-level collection may be absent. */
  datatype Dataset = Dataset(orders: Option<seq<Order>>, customers: Option<seq<Customer>>)

  /** The properties every order must have. */
  datatype OrderField = OrderId | CustomerId | OrderDate | Status | Items

  /** The order in which the required properties are checked. */
  const RequiredFields: seq<OrderField> := [OrderId, CustomerId, OrderDate, Status, Items]

  /** A failure found while totalling a matched order. */
  datatype Fault =
    | UnknownCustomer
    | MissingQuantity
    | MissingPrice
    | QuantityNotNumber
    | PriceNotNumber

  /** One terminal state of a run: one variant per diagnostic the utility prints, the two
      benign empty results, and the list of enriched orders handed to the table. */
  datatype Outcome =
    | InvalidDate
    | MissingOrders
    | MissingCustomers
    | NoOrders
    | MissingOrderField(field: OrderField)
    | NoMatch
    | BadOrder(fault: Fault)
    | Found(orders: seq<Order>)

  predicate Has(o: Order, f: OrderField) {
    match f
    case OrderId => o.orderId.Some?
    case CustomerId => o.customerId.Some?
    case OrderDate => o.orderDate.Some?
    case Status => o.status.Some?
    case Items => o.items.Some?
  }

  /** The required property reported for `o` (see `OrderFacts.MissingFieldFirstAbsent`). */
  function MissingField(o: Order): Option<OrderField> {
    if o.orderId.None? then Some(OrderId)
    else if o.customerId.None? then Some(CustomerId)
    else if o.orderDate.None? then Some(OrderDate)
    else if o.status.None? then Some(Status)
    else if o.items.None? then Some(Items)
    else None
  }

  /** A missing or empty status selects every status. */
  predicate AnyStatus(status: Option<string>) {
    status.None? || status.value == ""
  }

  /** The filter condition: the date part of `orderDate` is `date` and, unless any status is
      selected, `status` is exactly the requested one. */
  predicate Matches(o: Order, date: string, status: Option<string>) {
    o.orderDate.Some? && GetDate(o.orderDate.value) == date &&
    (AnyStatus(status) || o.status == status)
  }

  /** The matching orders, in their original order. */
  function Filter(os: seq<Order>, date: string, status: Option<string>): (r: seq<Order>)
    ensures |r| <= |os|
    ensures forall o :: o in r ==> o in os && Matches(o, date, status)
  {
    if os == [] then []
    else (if Matches(os[0], date, status) then [os[0]] else []) + Filter(os[1..], date, status)
  }

  /** Outcome of the required-property scan with the filter. */
  datatype Screening = FieldMissing(field: OrderField) | Selected(matched: seq<Order>)

  /** The scan reports the earliest order's first missing property if there is one; the
      matches found before it are discarded. Otherwise it yields the filtered orders. */
  function Screen(os: seq<Order>, date: string, status: Option<string>): (r: Screening)
    ensures r.Selected? <==> forall j :: 0 <= j < |os| ==> MissingField(os[j]).None?
    ensures r.FieldMissing? ==>
      exists i :: 0 <= i < |os| && MissingField(os[i]) == Some(r.field) &&
        forall j :: 0 <= j < i ==> MissingField(os[j]).None?
    ensures r.Selected? ==>
      forall o :: o in r.matched ==> o in os && Matches(o, date, status) && MissingField(o).None?
  {
    match FirstFault(os, MissingField)
    case Some(f) => FieldMissing(f)
    case None => Selected(Filter(os, date, status))
  }

  /** The item check, in checking order: quantity present, price present, quantity numeric,
      price numeric. */
  function ItemFault(it: Item): (r: Option<Fault>)
    ensures r.None? <==>
      it.quantity.Some? && it.quantity.value.Num? && it.price.Some? && it.price.value.Num?
    ensures r == Some(MissingQuantity) <==> it.quantity.None?
    ensures r == Some(MissingPrice) <==> it.quantity.Some? && it.price.None?
    ensures r == Some(QuantityNotNumber) <==>
      it.quantity.Some? && it.price.Some? && it.quantity.value.NotNumber?
    ensures r == Some(PriceNotNumber) <==>
      it.quantity.Some? && it.price.Some? && it.quantity.value.Num? && it.price.value.NotNumber?
    ensures r != Some(UnknownCustomer)
  {
    if it.quantity.None? then Some(MissingQuantity)
    else if it.price.None? then Some(MissingPrice)
    else if it.quantity.value.NotNumber? then Some(QuantityNotNumber)
    else if it.price.value.NotNumber? then Some(PriceNotNumber)
    else None
  }

  /** quantity × price of a checked item (0 for an item the check would refuse). */
  function LineValue(it: Item): real {
    if ItemFault(it).None? then it.quantity.value.amount * it.price.value.amount else 0.0
  }

  /** The running total the pipeline accumulates, item by item from the first. */
  function Sum(items: seq<Item>): (r: real)
    ensures (forall j :: 0 <= j < |items| ==> LineValue(items[j]) >= 0.0) ==> r >= 0.0
  {
    if items == [] then 0.0 else Sum(items[..|items| - 1]) + LineValue(items[|items| - 1])
  }

  /** The `customerId` of each customer, `None` where the property is absent. */
  function CustomerIds(cs: seq<Customer>): (ids: seq<Option<Ident>>)
    ensures |ids| == |cs|
    ensures forall i :: 0 <= i < |cs| ==> ids[i] == cs[i].customerId
    ensures forall x :: x in ids <==> exists c :: c in cs && c.customerId == x
  {
    seq(|cs|, i requires 0 <= i < |cs| => cs[i].customerId)
  }

  /** The check applied to a matched order: its customer is known, then its items pass. */
  function OrderFault(o: Order, ids: seq<Option<Ident>>): (r: Option<Fault>)
    ensures r.None? <==>
      o.customerId in ids && o.items.Some? &&
      forall j :: 0 <= j < |o.items.value| ==> ItemFault(o.items.value[j]).None?
    ensures o.customerId !in ids ==> r == Some(UnknownCustomer)
    ensures o.customerId in ids && o.items.Some? ==> r == FirstFault(o.items.value, ItemFault)
  {
    if o.customerId !in ids then Some(UnknownCustomer)
    else if o.items.None? then Some(MissingQuantity)
    else FirstFault(o.items.value, ItemFault)
  }

  /** `OrderFault` with the known customer identifiers fixed. */
  function OrderCheck(ids: seq<Option<Ident>>): Order -> Option<Fault> {
    (o: Order) => OrderFault(o, ids)
  }

  /** The total written into an order. */
  function OrderTotal(o: Order): real {
    if o.items.Some? then Sum(o.items.value) else 0.0
  }
}

module OrderFacts {
  import opened Wrappers
  import opened Dates
  import opened Orders

  /** The property reported for an order is the first absent one in checking order, and none
      is reported iff all are present. */
  lemma MissingFieldFirstAbsent(o: Order)
    ensures MissingField(o).None? <==>
      forall i :: 0 <= i < |RequiredFields| ==> Has(o, RequiredFields[i])
    ensures MissingField(o).Some? ==>
      exists i :: 0 <= i < |RequiredFields| && RequiredFields[i] == MissingField(o).value &&
        !Has(o, RequiredFields[i]) && forall j :: 0 <= j < i ==> Has(o, RequiredFields[j])
  {
    assert RequiredFields[0] == OrderId && RequiredFields[1] == CustomerId;
    assert RequiredFields[2] == OrderDate && RequiredFields[3] == Status && RequiredFields[4] == Items;
  }

  /** The filter distributes over concatenation, so it keeps the relative order of orders. */
  lemma {:induction false} FilterConcat(a: seq<Order>, b: seq<Order>, date: string, status: Option<string>)
    ensures Filter(a + b, date, status) == Filter(a, date, status) + Filter(b, date, status)
  {
    if a == [] {
      assert a + b == b;
    } else {
      var head := if Matches(a[0], date, status) then [a[0]] else [];
      calc {
        Filter(a + b, date, status);
      == { assert (a + b)[0] == a[0]; }
        head + Filter((a + b)[1..], date, status);
      == { assert (a + b)[1..] == a[1..] + b; }
        head + Filter(a[1..] + b, date, status);
      == { FilterConcat(a[1..], b, date, status); }
        head + (Filter(a[1..], date, status) + Filter(b, date, status));
      }
    }
  }

  /** Appending one order to the scanned prefix appends it to the matches iff it matches. */
  lemma FilterSnoc(a: seq<Order>, o: Order, date: string, status: Option<string>)
    ensures Filter(a + [o], date, status) ==
      Filter(a, date, status) + (if Matches(o, date, status) then [o] else [])
  {
    FilterConcat(a, [o], date, status);
  }

  /** One more step of a left-to-right scan of `os`. */
  lemma FilterStep(os: seq<Order>, i: nat, date: string, status: Option<string>)
    requires i < |os|
    ensures Filter(os[..i + 1], date, status) ==
      Filter(os[..i], date, status) + (if Matches(os[i], date, status) then [os[i]] else [])
  {
    assert os[..i + 1] == os[..i] + [os[i]];
    FilterSnoc(os[..i], os[i], date, status);
  }

  /** The orders a successful scan selects come from the scanned list and have their items. */
  lemma SelectedHaveItems(os: seq<Order>, date: string, status: Option<string>)
    requires Screen(os, date, status).Selected?
    ensures forall o :: o in Screen(os, date, status).matched ==> o in os && o.items.Some?
  {
    forall o | o in Screen(os, date, status).matched ensures o in os && o.items.Some? {
      assert MissingField(o).None?;
    }
  }

  /** Exactly the matching orders are kept. */
  lemma {:induction false} FilterMembers(os: seq<Order>, date: string, status: Option<string>, x: Order)
    ensures x in Filter(os, date, status) <==> x in os && Matches(x, date, status)
  {
    if os != [] {
      FilterMembers(os[1..], date, status, x);
      assert os == [os[0]] + os[1..];
    }
  }

  /** Two orders dated 2024-01-01 (one with a time part): with no status both are selected
      in order, with status "B" only the second. */
  lemma FilterExample(first: Order, second: Order)
    requires first.orderDate == Some("2024-01-01T00:00:00") && first.status == Some("A")
    requires second.orderDate == Some("2024-01-01") && second.status == Some("B")
    ensures Filter([first, second], "2024-01-01", None) == [first, second]
    ensures Filter([first, second], "2024-01-01", Some("")) == [first, second]
    ensures Filter([first, second], "2024-01-01", Some("B")) == [second]
    ensures Filter([first, second], "2024-01-02", None) == []
  {
    assert [first, second][1..] == [second];
    assert GetDate("2024-01-01T00:00:00") == "2024-01-01";
  }

  /** Totals add up over concatenated item lists. */
  lemma {:induction false} SumConcat(a: seq<Item>, b: seq<Item>)
    ensures Sum(a + b) == Sum(a) + Sum(b)
  {
    if b != [] {
      var c := a + b;
      assert c[..|c| - 1] == a + b[..|b| - 1];
      SumConcat(a, b[..|b| - 1]);
    } else {
      assert a + b == a;
    }
  }

  /** The running total equals the sum taken from the first item onwards. */
  lemma SumFromFront(items: seq<Item>)
    requires items != []
    ensures Sum(items) == LineValue(items[0]) + Sum(items[1..])
  {
    SumConcat([items[0]], items[1..]);
    assert [items[0]] + items[1..] == items;
    assert [items[0]][..0] == [];
  }

  /** Items 2 × 3 and 1 × 5 total 11. */
  lemma SumExample()
    ensures Sum([Item(Some(Num(2.0)), Some(Num(3.0))), Item(Some(Num(1.0)), Some(Num(5.0)))]) == 11.0
  {
    var items := [Item(Some(Num(2.0)), Some(Num(3.0))), Item(Some(Num(1.0)), Some(Num(5.0)))];
    assert items[..1] == [items[0]];
    assert items[..1][..0] == [];
  }
}
