/** The reporting service's aggregation code: sales totals over the completed
    payments of a period, per-product totals over the completed orders of a
    period, the revenue trend of the last days and the start of a "top
    selling" period.

    Payments and orders come from the other services over HTTP; here they are
    inputs. Dates are day numbers; `created_at` is already read as a day. */
module Reports {

  import opened Common
  import opened Tallies

  // ---------------------------------------------------------------- sales

  /** One completed payment as the payment service lists it. */
  datatype Transaction = Transaction(amount: real, methodId: Option<string>, createdDay: int)

  /** `payment_method_id ?? 'unknown'` */
  function MethodOf(t: Transaction): string
  {
    t.methodId.GetOr("unknown")
  }

  /** The sum of the amounts. */
  function Revenue(ts: seq<Transaction>): real
    decreases |ts|
  {
    if ts == [] then 0.0 else Revenue(ts[..|ts| - 1]) + ts[|ts| - 1].amount
  }

  /** The per-method tallies after the transactions, in order. */
  function ByMethod(ts: seq<Transaction>): map<string, Tally>
    decreases |ts|
  {
    if ts == [] then map[]
    else Bump(ByMethod(ts[..|ts| - 1]), MethodOf(ts[|ts| - 1]), ts[|ts| - 1].amount)
  }

  /** The per-day tallies after the transactions, in order. */
  function Daily(ts: seq<Transaction>): map<int, Tally>
    decreases |ts|
  {
    if ts == [] then map[]
    else Bump(Daily(ts[..|ts| - 1]), ts[|ts| - 1].createdDay, ts[|ts| - 1].amount)
  }

  datatype SalesData = SalesData(transactions: int, revenue: real, itemsSold: int, average: real,
                                 byMethod: map<string, Tally>, daily: map<int, Tally>)

  /** What `aggregateSalesData` returns; every transaction counts as one item
      sold. */
  function Aggregate(ts: seq<Transaction>): (d: SalesData)
    ensures d.transactions == |ts| && d.itemsSold == |ts|
    ensures d.revenue == Revenue(ts)
    ensures ts == [] ==> d.average == 0.0
    ensures ts != [] ==> d.average * |ts| as real == d.revenue
  {
    SalesData(|ts|, Revenue(ts), |ts|, if |ts| > 0 then Revenue(ts) / |ts| as real else 0.0,
              ByMethod(ts), Daily(ts))
  }

  /** The per-method tallies add up to the transaction count and the revenue. */
  lemma {:induction false} MethodTalliesBalance(ts: seq<Transaction>)
    ensures Sum(ByMethod(ts)) == Tally(|ts|, Revenue(ts))
    decreases |ts|
  {
    if ts != [] {
      var n := |ts| - 1;
      MethodTalliesBalance(ts[..n]);
      BumpSum(ByMethod(ts[..n]), MethodOf(ts[n]), ts[n].amount);
    }
  }

  /** The per-day tallies add up to the transaction count and the revenue. */
  lemma {:induction false} DailyTalliesBalance(ts: seq<Transaction>)
    ensures Sum(Daily(ts)) == Tally(|ts|, Revenue(ts))
    decreases |ts|
  {
    if ts != [] {
      var n := |ts| - 1;
      DailyTalliesBalance(ts[..n]);
      BumpSum(Daily(ts[..n]), ts[n].createdDay, ts[n].amount);
    }
  }

  /** A method has an entry exactly when some transaction used it. */
  lemma {:induction false} MethodKeys(ts: seq<Transaction>, m: string)
    ensures m in ByMethod(ts) <==> exists i :: 0 <= i < |ts| && MethodOf(ts[i]) == m
    decreases |ts|
  {
    if ts != [] {
      var n := |ts| - 1;
      MethodKeys(ts[..n], m);
      if m in ByMethod(ts[..n]) {
        var i :| 0 <= i < n && MethodOf(ts[..n][i]) == m;
        assert MethodOf(ts[i]) == m;
      }
      if exists i :: 0 <= i < |ts| && MethodOf(ts[i]) == m {
        var i :| 0 <= i < |ts| && MethodOf(ts[i]) == m;
        if i < n {
          assert MethodOf(ts[..n][i]) == m;
        }
      }
    }
  }

  /** A day has an entry exactly when some transaction was made on it. */
  lemma {:induction false} DailyKeys(ts: seq<Transaction>, day: int)
    ensures day in Daily(ts) <==> exists i :: 0 <= i < |ts| && ts[i].createdDay == day
    decreases |ts|
  {
    if ts != [] {
      var n := |ts| - 1;
      DailyKeys(ts[..n], day);
      if day in Daily(ts[..n]) {
        var i :| 0 <= i < n && ts[..n][i].createdDay == day;
        assert ts[i].createdDay == day;
      }
      if exists i :: 0 <= i < |ts| && ts[i].createdDay == day {
        var i :| 0 <= i < |ts| && ts[i].createdDay == day;
        if i < n {
          assert ts[..n][i].createdDay == day;
        }
      }
    }
  }

  /** `aggregateSalesData`: a sum over the amounts, then one pass that counts
      items and fills the two maps, starting each entry at zero. */
  method AggregateSalesData(ts: seq<Transaction>) returns (d: SalesData)
    ensures d == Aggregate(ts)
  {
    var totalTransactions := |ts|;
    var totalRevenue := 0.0;
    var k := 0;
    while k < |ts|
      invariant 0 <= k <= |ts|
      invariant totalRevenue == Revenue(ts[..k])
    {
      assert ts[..k + 1][..k] == ts[..k];
      totalRevenue := totalRevenue + ts[k].amount;
      k := k + 1;
    }
    assert ts[..|ts|] == ts;
    var totalItemsSold := 0;
    var byPaymentMethod: map<string, Tally> := map[];
    var dailyBreakdown: map<int, Tally> := map[];
    k := 0;
    while k < |ts|
      invariant 0 <= k <= |ts|
      invariant totalItemsSold == k
      invariant byPaymentMethod == ByMethod(ts[..k])
      invariant dailyBreakdown == Daily(ts[..k])
    {
      assert ts[..k + 1][..k] == ts[..k];
      var t := ts[k];
      totalItemsSold := totalItemsSold + 1;
      var methodId := if t.methodId.Some? then t.methodId.value else "unknown";
      byPaymentMethod := BumpEntry(byPaymentMethod, methodId, t.amount);
      dailyBreakdown := BumpEntry(dailyBreakdown, t.createdDay, t.amount);
      assert ByMethod(ts[..k + 1]) == Bump(ByMethod(ts[..k]), MethodOf(t), t.amount);
      assert Daily(ts[..k + 1]) == Bump(Daily(ts[..k]), t.createdDay, t.amount);
      k := k + 1;
    }
    d := SalesData(totalTransactions, totalRevenue, totalItemsSold,
                   if totalTransactions > 0 then totalRevenue / totalTransactions as real else 0.0,
                   byPaymentMethod, dailyBreakdown);
  }

  // ------------------------------------------------------------- products

  /** One order item as the order service lists it. */
  datatype ItemLine = ItemLine(productId: int, productName: Option<string>, quantity: int, subtotal: real)

  /** A completed order; `items` may be missing (`$order['items'] ?? []`). */
  datatype OrderRecord = OrderRecord(items: Option<seq<ItemLine>>)

  /** All item lines of the orders, order by order. */
  function LinesOf(orders: seq<OrderRecord>): seq<ItemLine>
    decreases |orders|
  {
    if orders == [] then []
    else LinesOf(orders[..|orders| - 1]) + orders[|orders| - 1].items.GetOr([])
  }

  /** The running entry of one product. */
  datatype Acc = Acc(name: string, quantity: int, revenue: real, lines: int)

  /** The keyed entries and the order their keys were first set in (PHP
      arrays keep insertion order). */
  datatype Tracked = Tracked(data: map<int, Acc>, order: seq<int>)

  /** One item line added to the running entries: a missing entry starts with
      the line's name, or "Unknown", and zeros. */
  function Step(t: Tracked, l: ItemLine): Tracked
  {
    var base := if l.productId in t.data then t.data[l.productId] else Acc(l.productName.GetOr("Unknown"), 0, 0.0, 0);
    Tracked(t.data[l.productId := Acc(base.name, base.quantity + l.quantity, base.revenue + l.subtotal, base.lines + 1)],
            if l.productId in t.data then t.order else t.order + [l.productId])
  }

  function Track(lines: seq<ItemLine>): Tracked
    decreases |lines|
  {
    if lines == [] then Tracked(map[], []) else Step(Track(lines[..|lines| - 1]), lines[|lines| - 1])
  }

  // Reference definitions, one product at a time.

  predicate Appears(lines: seq<ItemLine>, id: int)
  {
    exists i :: 0 <= i < |lines| && lines[i].productId == id
  }

  function QuantityOf(lines: seq<ItemLine>, id: int): int
    decreases |lines|
  {
    if lines == [] then 0
    else QuantityOf(lines[..|lines| - 1], id) + (if lines[|lines| - 1].productId == id then lines[|lines| - 1].quantity else 0)
  }

  function RevenueOf(lines: seq<ItemLine>, id: int): real
    decreases |lines|
  {
    if lines == [] then 0.0
    else RevenueOf(lines[..|lines| - 1], id) + (if lines[|lines| - 1].productId == id then lines[|lines| - 1].subtotal else 0.0)
  }

  function LineCount(lines: seq<ItemLine>, id: int): nat
    decreases |lines|
  {
    if lines == [] then 0
    else LineCount(lines[..|lines| - 1], id) + (if lines[|lines| - 1].productId == id then 1 else 0)
  }

  /** The position of the first line of product `id`. */
  function First(lines: seq<ItemLine>, id: int): (i: nat)
    requires Appears(lines, id)
    ensures i < |lines| && lines[i].productId == id
    ensures forall j :: 0 <= j < i ==> lines[j].productId != id
    decreases |lines|
  {
    var n := |lines| - 1;
    if Appears(lines[..n], id) then
      var i := First(lines[..n], id);
      assert forall j :: 0 <= j < i ==> lines[j] == lines[..n][j];
      i
    else
      assert forall j :: 0 <= j < n ==> lines[j] == lines[..n][j];
      n
  }

  /** The name the first line of product `id` carries, or "Unknown". */
  function FirstName(lines: seq<ItemLine>, id: int): string
    requires Appears(lines, id)
  {
    lines[First(lines, id)].productName.GetOr("Unknown")
  }

  /** What the running entries mean: one entry per product that appears,
      holding the name of its first line and the sums over its lines; keys in
      order of first appearance, each once. */
  ghost predicate Explains(t: Tracked, lines: seq<ItemLine>)
  {
    && (forall id :: id in t.data <==> Appears(lines, id))
    && (forall id :: id in t.data ==>
          t.data[id] == Acc(FirstName(lines, id), QuantityOf(lines, id), RevenueOf(lines, id), LineCount(lines, id)))
    && (forall i :: 0 <= i < |t.order| ==> t.order[i] in t.data)
    && (forall id :: id in t.data ==> id in t.order)
    && (forall i, j :: 0 <= i < j < |t.order| ==> t.order[i] != t.order[j])
    && (forall i, j :: 0 <= i < j < |t.order| ==>
          Appears(lines, t.order[i]) && Appears(lines, t.order[j]) &&
          First(lines, t.order[i]) < First(lines, t.order[j]))
  }

  lemma AppearsInPrefix(lines: seq<ItemLine>, id: int)
    requires lines != []
    ensures Appears(lines, id) <==> Appears(lines[..|lines| - 1], id) || lines[|lines| - 1].productId == id
  {
    var n := |lines| - 1;
    if Appears(lines, id) && lines[n].productId != id {
      var i :| 0 <= i < |lines| && lines[i].productId == id;
      assert lines[..n][i].productId == id;
    }
    if Appears(lines[..n], id) {
      var i :| 0 <= i < n && lines[..n][i].productId == id;
      assert lines[i].productId == id;
    }
  }

  /** The fold keeps its meaning, line by line. */
  lemma {:induction false} TrackExplains(lines: seq<ItemLine>)
    ensures Explains(Track(lines), lines)
    decreases |lines|
  {
    if lines != [] {
      TrackExplains(lines[..|lines| - 1]);
      StepKeys(lines);
      StepSums(lines);
      StepOrder(lines);
    }
  }

  /** One more line: the keys are the products that appear, listed once each. */
  lemma StepKeys(lines: seq<ItemLine>)
    requires lines != [] && Explains(Track(lines[..|lines| - 1]), lines[..|lines| - 1])
    ensures forall id :: id in Track(lines).data <==> Appears(lines, id)
    ensures forall i :: 0 <= i < |Track(lines).order| ==> Track(lines).order[i] in Track(lines).data
    ensures forall id :: id in Track(lines).data ==> id in Track(lines).order
    ensures forall i, j :: 0 <= i < j < |Track(lines).order| ==> Track(lines).order[i] != Track(lines).order[j]
  {
    var n := |lines| - 1;
    var after := Track(lines);
    assert after == Step(Track(lines[..n]), lines[n]);
    forall id
      ensures id in after.data <==> Appears(lines, id)
    {
      AppearsInPrefix(lines, id);
    }
  }

  /** One more line: each entry holds the first name and the sums. */
  lemma StepSums(lines: seq<ItemLine>)
    requires lines != [] && Explains(Track(lines[..|lines| - 1]), lines[..|lines| - 1])
    ensures forall id :: id in Track(lines).data ==>
      Appears(lines, id) &&
      Track(lines).data[id] == Acc(FirstName(lines, id), QuantityOf(lines, id), RevenueOf(lines, id), LineCount(lines, id))
  {
    var prefix := lines[..|lines| - 1];
    var before := Track(prefix);
    forall id | id in Track(lines).data
      ensures Appears(lines, id)
      ensures Track(lines).data[id] == Acc(FirstName(lines, id), QuantityOf(lines, id), RevenueOf(lines, id), LineCount(lines, id))
    {
      StepEntry(lines, id, if id in before.data then Some(before.data[id]) else None);
    }
  }

  /** The entry of one product after one more line, from its entry before. */
  lemma StepEntry(lines: seq<ItemLine>, id: int, prior: Option<Acc>)
    requires lines != []
    requires prior.Some? <==> id in Track(lines[..|lines| - 1]).data
    requires prior.Some? <==> Appears(lines[..|lines| - 1], id)
    requires prior.Some? ==> Track(lines[..|lines| - 1]).data[id] == prior.value
    requires prior.Some? ==> prior.value == Acc(FirstName(lines[..|lines| - 1], id), QuantityOf(lines[..|lines| - 1], id),
                                            RevenueOf(lines[..|lines| - 1], id), LineCount(lines[..|lines| - 1], id))
    requires id in Track(lines).data
    ensures Appears(lines, id)
    ensures Track(lines).data[id] == Acc(FirstName(lines, id), QuantityOf(lines, id), RevenueOf(lines, id), LineCount(lines, id))
  {
    var n := |lines| - 1;
    var prefix := lines[..n];
    var l := lines[n];
    assert Track(lines) == Step(Track(prefix), l);
    AppearsInPrefix(lines, id);
    FirstInPrefix(lines, id);
    assert QuantityOf(lines, id) == QuantityOf(prefix, id) + (if l.productId == id then l.quantity else 0);
    assert RevenueOf(lines, id) == RevenueOf(prefix, id) + (if l.productId == id then l.subtotal else 0.0);
    assert LineCount(lines, id) == LineCount(prefix, id) + (if l.productId == id then 1 else 0);
    if prior.Some? {
      assert lines[First(lines, id)] == prefix[First(prefix, id)];
    } else {
      NoLinesNoSums(prefix, id);
    }
  }

  /** One more line: the keys stay in order of first appearance. */
  lemma StepOrder(lines: seq<ItemLine>)
    requires lines != [] && Explains(Track(lines[..|lines| - 1]), lines[..|lines| - 1])
    ensures forall i, j :: 0 <= i < j < |Track(lines).order| ==>
      Appears(lines, Track(lines).order[i]) && Appears(lines, Track(lines).order[j]) &&
      First(lines, Track(lines).order[i]) < First(lines, Track(lines).order[j])
  {
    var n := |lines| - 1;
    var prefix := lines[..n];
    var l := lines[n];
    var before := Track(prefix);
    var after := Track(lines);
    assert after == Step(before, l);
    StepKeys(lines);
    forall i, j | 0 <= i < j < |after.order|
      ensures Appears(lines, after.order[i]) && Appears(lines, after.order[j])
      ensures First(lines, after.order[i]) < First(lines, after.order[j])
    {
      var a, b := after.order[i], after.order[j];
      AppearsInPrefix(lines, a);
      AppearsInPrefix(lines, b);
      FirstInPrefix(lines, a);
      FirstInPrefix(lines, b);
      if l.productId !in before.data && j == |before.order| {
        assert a == before.order[i];
      } else {
        assert a == before.order[i] && b == before.order[j];
      }
    }
  }

  /** The first line of a product lies in the prefix when it appears there,
      and is the last line otherwise. */
  lemma FirstInPrefix(lines: seq<ItemLine>, id: int)
    requires lines != [] && Appears(lines, id)
    ensures Appears(lines[..|lines| - 1], id) ==> First(lines, id) == First(lines[..|lines| - 1], id)
    ensures !Appears(lines[..|lines| - 1], id) ==> First(lines, id) == |lines| - 1
  {
  }

  datatype ProductRow = ProductRow(productId: int, productName: string, quantitySold: int, revenue: real,
                                   orderCount: int, avgQuantity: real)

  /** `quantity_sold / order_count`, or 0 with no lines. */
  function AverageQuantity(a: Acc): real
  {
    if a.lines > 0 then a.quantity as real / a.lines as real else 0.0
  }

  function RowOf(t: Tracked, id: int): ProductRow
  {
    var a := if id in t.data then t.data[id] else Acc("Unknown", 0, 0.0, 0);
    ProductRow(id, a.name, a.quantity, a.revenue, a.lines, AverageQuantity(a))
  }

  /** `array_values` of the entries over the given lines, each with its
      average. */
  function RowsOf(lines: seq<ItemLine>): seq<ProductRow>
  {
    var t := Track(lines);
    seq(|t.order|, k requires 0 <= k < |t.order| => RowOf(t, t.order[k]))
  }

  function ProductRows(orders: seq<OrderRecord>): seq<ProductRow>
  {
    RowsOf(LinesOf(orders))
  }

  /** The rows are the tracked entries, in key order. */
  lemma RowsOfTracked(lines: seq<ItemLine>, rows: seq<ProductRow>)
    requires rows == RowsOf(lines)
    ensures Explains(Track(lines), lines)
    ensures |rows| == |Track(lines).order|
    ensures forall k :: 0 <= k < |rows| ==> rows[k] == RowOf(Track(lines), Track(lines).order[k])
    ensures forall k :: 0 <= k < |rows| ==> rows[k].productId == Track(lines).order[k]
  {
    TrackExplains(lines);
  }

  /** One row per product that appears in the lines, and each product once. */
  lemma RowsAreTheProducts(lines: seq<ItemLine>, rows: seq<ProductRow>)
    requires rows == RowsOf(lines)
    ensures forall id :: Appears(lines, id) <==> exists k :: 0 <= k < |rows| && rows[k].productId == id
    ensures forall k, m :: 0 <= k < m < |rows| ==> rows[k].productId != rows[m].productId
  {
    RowsOfTracked(lines, rows);
    var t := Track(lines);
    forall id | Appears(lines, id)
      ensures exists k :: 0 <= k < |rows| && rows[k].productId == id
    {
      assert id in t.order;
      var k :| 0 <= k < |t.order| && t.order[k] == id;
      assert rows[k].productId == id;
    }
  }

  /** The rows come in the order their products first appear. */
  lemma RowsInFirstSeenOrder(lines: seq<ItemLine>, rows: seq<ProductRow>)
    requires rows == RowsOf(lines)
    ensures forall k, m :: 0 <= k < m < |rows| ==>
              Appears(lines, rows[k].productId) && Appears(lines, rows[m].productId) &&
              First(lines, rows[k].productId) < First(lines, rows[m].productId)
  {
    RowsOfTracked(lines, rows);
  }

  /** Each row holds the first line's name, the summed quantities and
      subtotals, the number of lines (at least one) and their mean quantity. */
  lemma RowsHoldTheSums(lines: seq<ItemLine>, rows: seq<ProductRow>)
    requires rows == RowsOf(lines)
    ensures forall k :: 0 <= k < |rows| ==>
              Appears(lines, rows[k].productId)
              && rows[k].productName == FirstName(lines, rows[k].productId)
              && rows[k].quantitySold == QuantityOf(lines, rows[k].productId)
              && rows[k].revenue == RevenueOf(lines, rows[k].productId)
              && rows[k].orderCount == LineCount(lines, rows[k].productId)
              && rows[k].orderCount >= 1
              && rows[k].avgQuantity * rows[k].orderCount as real == rows[k].quantitySold as real
  {
    forall k | 0 <= k < |rows|
      ensures Appears(lines, rows[k].productId)
      ensures rows[k].productName == FirstName(lines, rows[k].productId)
      ensures rows[k].quantitySold == QuantityOf(lines, rows[k].productId)
      ensures rows[k].revenue == RevenueOf(lines, rows[k].productId)
      ensures rows[k].orderCount == LineCount(lines, rows[k].productId) >= 1
      ensures rows[k].avgQuantity * rows[k].orderCount as real == rows[k].quantitySold as real
    {
      RowAt(lines, rows, k);
      AverageTimesLines(Acc(rows[k].productName, rows[k].quantitySold, rows[k].revenue, rows[k].orderCount));
    }
  }

  /** Row `k` is the entry of its product over the lines. */
  lemma RowAt(lines: seq<ItemLine>, rows: seq<ProductRow>, k: int)
    requires rows == RowsOf(lines) && 0 <= k < |rows|
    ensures Appears(lines, rows[k].productId)
    ensures var id := rows[k].productId;
            var a := Acc(FirstName(lines, id), QuantityOf(lines, id), RevenueOf(lines, id), LineCount(lines, id));
            && a.lines >= 1
            && rows[k] == ProductRow(id, a.name, a.quantity, a.revenue, a.lines, AverageQuantity(a))
  {
    RowsOfTracked(lines, rows);
    var t := Track(lines);
    var id := t.order[k];
    assert id in t.data;
    PositiveCount(lines, id);
  }

  lemma AverageTimesLines(a: Acc)
    requires a.lines > 0
    ensures AverageQuantity(a) * a.lines as real == a.quantity as real
  {
  }

  lemma {:induction false} NoLinesNoSums(lines: seq<ItemLine>, id: int)
    requires !Appears(lines, id)
    ensures QuantityOf(lines, id) == 0 && RevenueOf(lines, id) == 0.0 && LineCount(lines, id) == 0
    decreases |lines|
  {
    if lines != [] {
      AppearsInPrefix(lines, id);
      NoLinesNoSums(lines[..|lines| - 1], id);
    }
  }

  lemma {:induction false} PositiveCount(lines: seq<ItemLine>, id: int)
    requires Appears(lines, id)
    ensures LineCount(lines, id) >= 1
    decreases |lines|
  {
    AppearsInPrefix(lines, id);
    var n := |lines| - 1;
    if lines[n].productId != id {
      PositiveCount(lines[..n], id);
    }
  }

  /** The body of the inner loop: start the product's entry if it is not yet
      set, then add the line's quantity, subtotal and one line. */
  method AddItem(productData: map<int, Acc>, keys: seq<int>, item: ItemLine)
    returns (productData': map<int, Acc>, keys': seq<int>)
    ensures Tracked(productData', keys') == Step(Tracked(productData, keys), item)
  {
    productData', keys' := productData, keys;
    var productId := item.productId;
    if productId !in productData' {
      productData' := productData'[productId := Acc(if item.productName.Some? then item.productName.value else "Unknown", 0, 0.0, 0)];
      keys' := keys' + [productId];
    }
    var entry := productData'[productId];
    productData' := productData'[productId := Acc(entry.name, entry.quantity + item.quantity,
                                                  entry.revenue + item.subtotal, entry.lines + 1)];
  }

  /** The inner loop of `aggregateProductData`: the items of one order added
      to the entries so far, which are those of the lines `done`. */
  method AddItems(productData: map<int, Acc>, keys: seq<int>, items: seq<ItemLine>, ghost done: seq<ItemLine>)
    returns (productData': map<int, Acc>, keys': seq<int>)
    requires Tracked(productData, keys) == Track(done)
    ensures Tracked(productData', keys') == Track(done + items)
  {
    productData', keys' := productData, keys;
    assert done + items[..0] == done;
    var j := 0;
    while j < |items|
      invariant 0 <= j <= |items|
      invariant Tracked(productData', keys') == Track(done + items[..j])
    {
      assert (done + items[..j + 1])[..|done| + j] == done + items[..j];
      productData', keys' := AddItem(productData', keys', items[j]);
      j := j + 1;
    }
    assert items[..|items|] == items;
  }

  /** The loop that turns the entries, in key order, into rows with their
      averages. */
  method EntriesToRows(productData: map<int, Acc>, keys: seq<int>) returns (rows: seq<ProductRow>)
    ensures |rows| == |keys|
    ensures forall m :: 0 <= m < |keys| ==> rows[m] == RowOf(Tracked(productData, keys), keys[m])
  {
    rows := [];
    var k := 0;
    while k < |keys|
      invariant 0 <= k <= |keys|
      invariant |rows| == k
      invariant forall m :: 0 <= m < k ==> rows[m] == RowOf(Tracked(productData, keys), keys[m])
    {
      var id := keys[k];
      var data := if id in productData then productData[id] else Acc("Unknown", 0, 0.0, 0);
      rows := rows + [ProductRow(id, data.name, data.quantity, data.revenue, data.lines,
                                 if data.lines > 0 then data.quantity as real / data.lines as real else 0.0)];
      k := k + 1;
    }
  }

  /** `aggregateProductData`: a loop over the orders and their items that
      fills the keyed entries, then a loop that adds the averages. */
  method AggregateProductData(orders: seq<OrderRecord>) returns (rows: seq<ProductRow>)
    ensures rows == ProductRows(orders)
  {
    var productData: map<int, Acc> := map[];
    var keys: seq<int> := [];
    var i := 0;
    while i < |orders|
      invariant 0 <= i <= |orders|
      invariant Tracked(productData, keys) == Track(LinesOf(orders[..i]))
    {
      assert orders[..i + 1][..i] == orders[..i];
      var items := if orders[i].items.Some? then orders[i].items.value else [];
      assert LinesOf(orders[..i + 1]) == LinesOf(orders[..i]) + items;
      productData, keys := AddItems(productData, keys, items, LinesOf(orders[..i]));
      i := i + 1;
    }
    assert orders[..|orders|] == orders;
    rows := EntriesToRows(productData, keys);
  }

  // ---------------------------------------------------------------- trend

  datatype TrendPoint = TrendPoint(day: int, revenue: real, transactions: int)

  /** The trend point of one day, from that day's completed payments. */
  function PointOf(day: int, fetch: int -> seq<Transaction>): TrendPoint
  {
    TrendPoint(day, Aggregate(fetch(day)).revenue, Aggregate(fetch(day)).transactions)
  }

  /** The points of the `days` days up to today. */
  function Trend(today: int, days: int, fetch: int -> seq<Transaction>): seq<TrendPoint>
  {
    if days <= 0 then []
    else seq(days, k requires 0 <= k < days => PointOf(today - (days - 1 - k), fetch))
  }

  /** The trend has one point per day, oldest first, consecutive days, the
      last being today, each with that day's revenue and count. */
  lemma TrendShape(today: int, days: int, fetch: int -> seq<Transaction>)
    ensures var t := Trend(today, days, fetch);
            && |t| == (if days > 0 then days else 0)
            && (|t| > 0 ==> t[|t| - 1].day == today)
            && (forall k :: 0 <= k < |t| - 1 ==> t[k + 1].day == t[k].day + 1)
            && (forall k :: 0 <= k < |t| ==>
                  t[k].revenue == Revenue(fetch(t[k].day)) && t[k].transactions == |fetch(t[k].day)|)
  {
    var t := Trend(today, days, fetch);
    if days > 0 {
      assert |t| == days;
      forall k | 0 <= k < |t|
        ensures t[k].day == today - (days - 1 - k)
        ensures t[k].revenue == Revenue(fetch(t[k].day)) && t[k].transactions == |fetch(t[k].day)|
      {
        assert t[k] == PointOf(today - (days - 1 - k), fetch);
      }
    }
  }

  /** `getRevenueTrend`: a loop from `days - 1` down to 0 that appends the
      point of `today - i`. */
  method RevenueTrend(today: int, days: int, fetch: int -> seq<Transaction>) returns (trend: seq<TrendPoint>)
    ensures trend == Trend(today, days, fetch)
  {
    trend := [];
    var i := days - 1;
    while i >= 0
      invariant -1 <= i || days <= 0
      invariant days > 0 ==> -1 <= i < days && |trend| == days - 1 - i
      invariant days <= 0 ==> trend == []
      invariant forall k :: 0 <= k < |trend| ==> trend[k] == PointOf(today - (days - 1 - k), fetch)
    {
      var date := today - i;
      var data := AggregateSalesData(fetch(date));
      trend := trend + [TrendPoint(date, data.revenue, data.transactions)];
      i := i - 1;
    }
  }

  // ------------------------------------------------------------- top list

  /** The start day of a "top selling" period; anything but "day" and "week"
      means the current month. The week and month starts are clock inputs. */
  function PeriodStart(period: string, today: int, weekStart: int, monthStart: int): (start: int)
    ensures period == "day" ==> start == today
    ensures period == "week" ==> start == weekStart
    ensures period != "day" && period != "week" ==> start == monthStart
    ensures weekStart <= today && monthStart <= today ==> start <= today
  {
    match period
    case "day" => today
    case "week" => weekStart
    case _ => monthStart
  }
}
