/** Orders as the worker reads them from the order-management API, and the
    two projections from the fetched orders to the order numbers it reports
    (src/index.js:101-112 for the processing profile, src/index.js:170 for
    the holded profile, which reports `IncrementIds` of every fetched
    order). */
module Orders {

  import opened Seqs

  /** The fields of an order record the worker looks at. `createdAt` is the
      creation time as an abstract timestamp (ordered like the instants the
      source compares); `grandTotalCents` is the grand total in cents. */
  datatype Order = Order(incrementId: string, createdAt: int, grandTotalCents: int)

  /** The processing profile reports orders whose total is above $500. */
  const HighValueThresholdCents: int := 500 * 100

  /** Creation time inside the inclusive window `[start, end]`. */
  predicate CreatedWithin(o: Order, start: int, end: int)
  {
    start <= o.createdAt && o.createdAt <= end
  }

  /** Grand total strictly above the threshold. */
  predicate IsHighValue(o: Order)
  {
    o.grandTotalCents > HighValueThresholdCents
  }

  /** What the processing profile keeps: both filters at once. */
  predicate Qualifies(o: Order, start: int, end: int)
  {
    CreatedWithin(o, start, end) && IsHighValue(o)
  }

  /** The `increment_id` of every order, in order (`orders.map(o => o.increment_id)`):
      the processing profile applies it to the qualifying orders, the holded
      profile to every fetched order. */
  function IncrementIds(orders: seq<Order>): (ids: seq<string>)
    ensures |ids| == |orders|
    ensures forall i :: 0 <= i < |orders| ==> ids[i] == orders[i].incrementId
  {
    if orders == [] then [] else [orders[0].incrementId] + IncrementIds(orders[1..])
  }

  /** The two successive filters of the processing profile: first the
      creation-window re-check, then the total threshold. The result is the
      one-pass filter by `Qualifies`; it keeps exactly the qualifying orders,
      in their original relative order. */
  function HighValueOrders(orders: seq<Order>, start: int, end: int): (kept: seq<Order>)
    ensures kept == Filter(orders, o => Qualifies(o, start, end))
    ensures |kept| <= |orders|
    ensures forall o :: o in kept <==> o in orders && Qualifies(o, start, end)
    ensures IsSubsequence(kept, orders)
  {
    var onlyYesterday := Filter(orders, o => CreatedWithin(o, start, end));
    var highValue := Filter(onlyYesterday, IsHighValue);
    FilterFilter(orders, o => CreatedWithin(o, start, end), IsHighValue, o => Qualifies(o, start, end));
    highValue
  }

  /** Order numbers reported by the processing profile: the number of
      exactly those fetched orders created inside the window (both ends
      inclusive) with a total above the threshold, in fetch order, and never
      more numbers than orders were fetched. */
  function ProcessingOrderNumbers(orders: seq<Order>, start: int, end: int): (ids: seq<string>)
    ensures ids == IncrementIds(Filter(orders, o => Qualifies(o, start, end)))
    ensures |ids| <= |orders|
    ensures forall id :: id in ids <==> exists o :: o in orders && Qualifies(o, start, end) && o.incrementId == id
    ensures exists kept :: IsSubsequence(kept, orders)
                        && (forall o :: o in kept ==> Qualifies(o, start, end))
                        && ids == IncrementIds(kept)
  {
    var kept := HighValueOrders(orders, start, end);
    var ids := IncrementIds(kept);
    SelectedNumbers(orders, kept, ids, start, end);
    ids
  }

  lemma SelectedNumbers(orders: seq<Order>, kept: seq<Order>, ids: seq<string>, start: int, end: int)
    requires forall o :: o in kept <==> o in orders && Qualifies(o, start, end)
    requires ids == IncrementIds(kept)
    ensures forall id :: id in ids <==> exists o :: o in orders && Qualifies(o, start, end) && o.incrementId == id
  {
    forall id | id in ids
      ensures exists o :: o in orders && Qualifies(o, start, end) && o.incrementId == id
    {
      var i :| 0 <= i < |ids| && ids[i] == id;
      assert kept[i] in kept;
    }
    forall id | exists o :: o in orders && Qualifies(o, start, end) && o.incrementId == id
      ensures id in ids
    {
      var o :| o in orders && Qualifies(o, start, end) && o.incrementId == id;
      var i :| 0 <= i < |kept| && kept[i] == o;
      assert ids[i] == id;
    }
  }

  /** The processing report over pages fetched one after another is the
      report over each part, concatenated in fetch order. */
  lemma {:induction false} ProcessingOrderNumbersAppend(a: seq<Order>, b: seq<Order>, start: int, end: int)
    ensures ProcessingOrderNumbers(a + b, start, end)
         == ProcessingOrderNumbers(a, start, end) + ProcessingOrderNumbers(b, start, end)
  {
    FilterAppend(a, b, o => Qualifies(o, start, end));
    IncrementIdsAppend(HighValueOrders(a, start, end), HighValueOrders(b, start, end));
  }

  lemma {:induction false} IncrementIdsAppend(a: seq<Order>, b: seq<Order>)
    ensures IncrementIds(a + b) == IncrementIds(a) + IncrementIds(b)
  {
    if a == [] {
      assert a + b == b;
    } else {
      assert (a + b)[0] == a[0];
      assert (a + b)[1..] == a[1..] + b;
      IncrementIdsAppend(a[1..], b);
    }
  }

}
