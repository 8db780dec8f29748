/** What a run of the pipeline promises, stated over the dataset it is given. */
module PipelineFacts {
  import opened Wrappers
  import opened FailFast
  import opened Dates
  import opened Orders
  import opened OrderFacts
  import opened Pipeline

  /** The dataset passes the top-level checks: both collections present, orders non-empty. */
  predicate Loaded(ds: Dataset) {
    ds.orders.Some? && ds.customers.Some? && |ds.orders.value| > 0
  }

  /** Every order has every required property. */
  predicate AllComplete(os: seq<Order>) {
    forall j :: 0 <= j < |os| ==> MissingField(os[j]).None?
  }

  /** The early exits, in the order they are taken: the date before the dataset, a missing
      `orders` before a missing `customers`, then an empty `orders`; none of them totals anything. */
  lemma EarlyExitOrder(date: string, status: Option<string>, ds: Dataset)
    ensures !ValidateDate(date) ==> Run(date, status, ds) == InvalidDate
    ensures ValidateDate(date) && ds.orders.None? ==> Run(date, status, ds) == MissingOrders
    ensures ValidateDate(date) && ds.orders.Some? && ds.customers.None? ==>
      Run(date, status, ds) == MissingCustomers
    ensures ValidateDate(date) && ds.orders == Some([]) && ds.customers.Some? ==>
      Run(date, status, ds) == NoOrders
    ensures !(ValidateDate(date) && Loaded(ds)) ==> Enriched(date, status, ds) == []
  {
  }

  /** Past the top-level checks, a run is decided by the two fail-fast scans: the
      required-property scan over all orders, then the customer-and-items scan over the
      matched ones. */
  lemma RunAfterLoading(date: string, status: Option<string>, ds: Dataset)
    requires ValidateDate(date) && Loaded(ds)
    ensures
      var os := ds.orders.value;
      var m := Filter(os, date, status);
      var check := OrderCheck(CustomerIds(ds.customers.value));
      Run(date, status, ds) ==
        (if !AllComplete(os) then MissingOrderField(FirstFault(os, MissingField).value)
         else if m == [] then NoMatch
         else if FirstFault(m, check).Some? then BadOrder(FirstFault(m, check).value)
         else Found(m)) &&
      Enriched(date, status, ds) == (if AllComplete(os) then m[..CleanPrefix(m, check)] else [])
  {
    var os := ds.orders.value;
    if AllComplete(os) {
      assert Screen(os, date, status).Selected?;
      assert Screen(os, date, status) == Selected(Filter(os, date, status));
    } else {
      assert Screen(os, date, status).FieldMissing?;
      assert FirstFault(os, MissingField).Some?;
    }
  }

  /** A missing property is reported iff some order lacks one; the report names the first
      missing property of the earliest such order, whether or not that order or any earlier
      one matches the filter. */
  lemma MissingFieldReported(date: string, status: Option<string>, ds: Dataset, f: OrderField)
    requires ValidateDate(date) && Loaded(ds)
    ensures Run(date, status, ds) == MissingOrderField(f) <==>
      exists i :: 0 <= i < |ds.orders.value| && MissingField(ds.orders.value[i]) == Some(f) &&
        AllComplete(ds.orders.value[..i])
    ensures Run(date, status, ds).MissingOrderField? ==> Enriched(date, status, ds) == []
  {
    RunAfterLoading(date, status, ds);
    var os := ds.orders.value;
    if exists i :: 0 <= i < |os| && MissingField(os[i]) == Some(f) && AllComplete(os[..i]) {
      var i :| 0 <= i < |os| && MissingField(os[i]) == Some(f) && AllComplete(os[..i]);
      forall j | 0 <= j < i ensures MissingField(os[j]).None? {
        assert os[..i][j] == os[j];
      }
      CleanPrefixAt(os, MissingField, i);
      assert !AllComplete(os);
    }
    if Run(date, status, ds) == MissingOrderField(f) {
      assert !AllComplete(os);
      var i := CleanPrefix(os, MissingField);
      assert i < |os| && MissingField(os[i]) == Some(f);
      forall j | 0 <= j < i ensures MissingField(os[..i][j]).None? {
        assert os[..i][j] == os[j];
        assert (MissingField)(os[j]).None?;
      }
      assert AllComplete(os[..i]);
    }
  }

  /** "No matched order" is reported iff every order is complete and none matches: an empty
      match list never reaches the totals and never becomes an empty success. */
  lemma NoMatchReported(date: string, status: Option<string>, ds: Dataset)
    requires ValidateDate(date) && Loaded(ds)
    ensures Run(date, status, ds) == NoMatch <==>
      AllComplete(ds.orders.value) &&
      forall o :: o in ds.orders.value ==> !Matches(o, date, status)
    ensures Run(date, status, ds) == NoMatch ==> Enriched(date, status, ds) == []
  {
    RunAfterLoading(date, status, ds);
    var os := ds.orders.value;
    var m := Filter(os, date, status);
    if m != [] {
      FilterMembers(os, date, status, m[0]);
    } else {
      forall o | o in os ensures !Matches(o, date, status) {
        FilterMembers(os, date, status, o);
      }
      assert m[..0] == [];
    }
  }

  /** A run succeeds iff every order is complete, some order matches and every matched order
      names a known customer and has only well-formed items. The list returned is exactly
      the filtered orders, in dataset order, and every one of them has been totalled. */
  lemma SuccessCharacterized(date: string, status: Option<string>, ds: Dataset)
    requires ValidateDate(date) && Loaded(ds)
    ensures Run(date, status, ds).Found? <==>
      var m := Filter(ds.orders.value, date, status);
      AllComplete(ds.orders.value) && m != [] &&
      forall o :: o in m ==> OrderFault(o, CustomerIds(ds.customers.value)).None?
    ensures Run(date, status, ds).Found? ==>
      Run(date, status, ds).orders == Filter(ds.orders.value, date, status) &&
      Enriched(date, status, ds) == Run(date, status, ds).orders
  {
    RunAfterLoading(date, status, ds);
    var m := Filter(ds.orders.value, date, status);
    var ids := CustomerIds(ds.customers.value);
    var check := OrderCheck(ids);
    if forall o :: o in m ==> OrderFault(o, ids).None? {
      forall j | 0 <= j < |m| ensures check(m[j]).None? {
        assert m[j] in m;
      }
      assert FirstFault(m, check).None?;
      assert CleanPrefix(m, check) == |m|;
      assert m[..|m|] == m;
    } else {
      var o :| o in m && OrderFault(o, ids).Some?;
      var j :| 0 <= j < |m| && m[j] == o;
      assert check(m[j]).Some?;
      assert FirstFault(m, check).Some?;
    }
  }

  /** Every order that receives a total is an order of the dataset that matches the query,
      references a known customer and has only numeric quantities and prices. */
  lemma EnrichedSound(date: string, status: Option<string>, ds: Dataset, o: Order)
    requires o in Enriched(date, status, ds)
    ensures ValidateDate(date) && Loaded(ds)
    ensures o in ds.orders.value && Matches(o, date, status)
    ensures OrderFault(o, CustomerIds(ds.customers.value)).None?
    ensures exists c :: c in ds.customers.value && c.customerId == o.customerId
  {
    RunAfterLoading(date, status, ds);
    var m := Filter(ds.orders.value, date, status);
    var check := OrderCheck(CustomerIds(ds.customers.value));
    CleanPrefixMembers(m, check);
    FilterMembers(ds.orders.value, date, status, o);
    assert check(o).None?;
  }

  /** Among the matched orders `m`, the one at `k` is the first with a fault, and it is `f`. */
  predicate FirstFaultyAt(m: seq<Order>, ids: seq<Option<Ident>>, k: int, f: Fault) {
    0 <= k < |m| && OrderFault(m[k], ids) == Some(f) &&
    forall j :: 0 <= j < k ==> OrderFault(m[j], ids).None?
  }

  /** A run aborts on a matched order iff every order is complete and some matched order has
      a fault while all matched orders before it are sound; the fault reported is that
      order's. */
  lemma AbortCharacterized(date: string, status: Option<string>, ds: Dataset, f: Fault)
    requires ValidateDate(date) && Loaded(ds)
    ensures Run(date, status, ds) == BadOrder(f) <==>
      AllComplete(ds.orders.value) &&
      exists k :: FirstFaultyAt(Filter(ds.orders.value, date, status), CustomerIds(ds.customers.value), k, f)
  {
    var m := Filter(ds.orders.value, date, status);
    var ids := CustomerIds(ds.customers.value);
    if AllComplete(ds.orders.value) && exists k :: FirstFaultyAt(m, ids, k, f) {
      AbortFromFault(date, status, ds, f);
    }
    if Run(date, status, ds) == BadOrder(f) {
      AbortHasFault(date, status, ds, f);
    }
  }

  /** The "if" half of `AbortCharacterized`. */
  lemma AbortFromFault(date: string, status: Option<string>, ds: Dataset, f: Fault)
    requires ValidateDate(date) && Loaded(ds)
    requires AllComplete(ds.orders.value)
    requires exists k :: FirstFaultyAt(Filter(ds.orders.value, date, status), CustomerIds(ds.customers.value), k, f)
    ensures Run(date, status, ds) == BadOrder(f)
  {
    RunAfterLoading(date, status, ds);
    var m := Filter(ds.orders.value, date, status);
    var ids := CustomerIds(ds.customers.value);
    var check := OrderCheck(ids);
    var k :| FirstFaultyAt(m, ids, k, f);
    forall j | 0 <= j < k ensures check(m[j]).None? {
      assert OrderFault(m[j], ids).None?;
    }
    CleanPrefixAt(m, check, k);
    assert FirstFault(m, check) == Some(f);
  }

  /** The "only if" half of `AbortCharacterized`. */
  lemma AbortHasFault(date: string, status: Option<string>, ds: Dataset, f: Fault)
    requires ValidateDate(date) && Loaded(ds)
    requires Run(date, status, ds) == BadOrder(f)
    ensures AllComplete(ds.orders.value)
    ensures FirstFaultyAt(Filter(ds.orders.value, date, status), CustomerIds(ds.customers.value),
                          |Enriched(date, status, ds)|, f)
    ensures Enriched(date, status, ds) ==
      Filter(ds.orders.value, date, status)[..|Enriched(date, status, ds)|]
  {
    RunAfterLoading(date, status, ds);
    var m := Filter(ds.orders.value, date, status);
    var ids := CustomerIds(ds.customers.value);
    var check := OrderCheck(ids);
    assert AllComplete(ds.orders.value);
    assert m != [] && FirstFault(m, check) == Some(f);
    var k := CleanPrefix(m, check);
    assert k < |m| && check(m[k]) == Some(f);
    assert Enriched(date, status, ds) == m[..k];
    forall j | 0 <= j < k ensures OrderFault(m[j], ids).None? {
      assert check(m[j]).None?;
    }
    assert FirstFaultyAt(m, ids, k, f);
  }

  /** On such an abort the faulty matched order is not among the totalled ones, so it keeps
      its previous `totalOrderValue`. */
  lemma AbortEnrichesPrefix(date: string, status: Option<string>, ds: Dataset, f: Fault)
    requires Run(date, status, ds) == BadOrder(f)
    ensures Loaded(ds)
    ensures
      var m := Filter(ds.orders.value, date, status);
      var k := |Enriched(date, status, ds)|;
      k < |m| && m[k] !in Enriched(date, status, ds)
  {
    AbortHasFault(date, status, ds, f);
  }

  /** Every order in a successful result is in the dataset, matches the query, references a
      known customer and has only numeric quantities and prices. */
  lemma ResultOrdersSound(date: string, status: Option<string>, ds: Dataset, o: Order)
    requires Run(date, status, ds).Found? && o in Run(date, status, ds).orders
    ensures o in ds.orders.value && Matches(o, date, status)
    ensures ds.customers.Some? && o.customerId in CustomerIds(ds.customers.value)
    ensures exists c :: c in ds.customers.value && c.customerId == o.customerId
    ensures o.items.Some? && forall j :: 0 <= j < |o.items.value| ==> ItemFault(o.items.value[j]).None?
  {
    FilterMembers(ds.orders.value, date, status, o);
    SuccessCharacterized(date, status, ds);
  }

  /** Two orders, the first complete and matching, the second without `items`: the run
      reports the missing `items` and totals nothing, although the first order was fine. */
  lemma SecondOrderWithoutItems(date: string, ds: Dataset, first: Order, second: Order)
    requires ValidateDate(date) && ds.customers.Some? && ds.orders == Some([first, second])
    requires MissingField(first).None? && Matches(first, date, None)
    requires second.orderId.Some? && second.customerId.Some? && second.orderDate.Some?
    requires second.status.Some? && second.items.None?
    ensures Run(date, None, ds) == MissingOrderField(Items)
    ensures Enriched(date, None, ds) == []
  {
    assert [first, second][..1] == [first];
    MissingFieldReported(date, None, ds, Items);
  }
}
