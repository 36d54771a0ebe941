/** The product service's order-event handler: it takes stock away for a
    created order and gives it back for a cancelled one, item by item, inside
    one database transaction.

    The payload is the decoded message: `order_id ?? null`, `status ??
    'pending'` and `items ?? []`, each item with `product_id ?? null` and
    `quantity ?? 0`. */
module StockConsumer {

  import opened Common
  import opened Products
  import Broker

  datatype Line = Line(productId: Option<int>, quantity: int)

  datatype OrderPayload = OrderPayload(orderId: Option<int>, status: Option<string>, items: seq<Line>)

  /** What an undecodable or null body becomes: `[]`. */
  const EmptyPayload: OrderPayload := OrderPayload(None, None, [])

  /** PHP truthiness of an id: absent and 0 are both false. */
  predicate Truthy(id: Option<int>)
  {
    id.Some? && id.value != 0
  }

  /** Increase iff the status is "cancelled"; a missing status reads as
      "pending", which decreases. */
  function DirectionOf(status: Option<string>): (d: AdjustKind)
    ensures d == Increase <==> status == Some("cancelled")
    ensures status.None? ==> d == Decrease
  {
    if status.GetOr("pending") == "cancelled" then Increase else Decrease
  }

  /** No order id or no items: the handler logs a warning and returns. */
  predicate Ignored(payload: OrderPayload)
  {
    !Truthy(payload.orderId) || payload.items == []
  }

  /** A line that names an existing product with a positive quantity. */
  predicate Eligible(products: map<int, Product>, line: Line)
  {
    Truthy(line.productId) && line.quantity > 0 && line.productId.value in products
  }

  /** Only the stock and the status of products ever change. */
  predicate SameCatalogue(before: map<int, Product>, after: map<int, Product>)
  {
    && before.Keys == after.Keys
    && forall id :: id in before ==> after[id].name == before[id].name && after[id].price == before[id].price
  }

  /** One item of the loop, with the direction given. */
  function ApplyLine(products: map<int, Product>, line: Line, dir: AdjustKind): (r: map<int, Product>)
    // ineligible lines and decreases beyond the stock are skipped
    ensures !Eligible(products, line) ==> r == products
    ensures Eligible(products, line) && dir == Decrease && products[line.productId.value].stock < line.quantity ==>
      r == products
    // otherwise the stock moves by exactly the quantity and the status follows it
    ensures Eligible(products, line) && !(dir == Decrease && products[line.productId.value].stock < line.quantity) ==>
      var id := line.productId.value;
      r == products[id := products[id].(stock := Moved(products[id].stock, line.quantity, dir),
                                       status := StatusFor(Moved(products[id].stock, line.quantity, dir)))]
    ensures SameCatalogue(products, r)
  {
    if !Eligible(products, line) then products
    else
      var id := line.productId.value;
      var p := products[id];
      if dir == Decrease && p.stock < line.quantity then products
      else
        var stock := Moved(p.stock, line.quantity, dir);
        products[id := p.(stock := stock, status := StatusFor(stock))]
  }

  /** An applied line changes the product exactly as `adjustStock` would. */
  lemma LineAgreesWithAdjustStock(products: map<int, Product>, line: Line, dir: AdjustKind)
    requires Eligible(products, line)
    ensures Adjust(products, line.productId.value, line.quantity, dir, None).reply == InsufficientStock <==>
      ApplyLine(products, line, dir) == products && dir == Decrease
    ensures Adjust(products, line.productId.value, line.quantity, dir, None).reply.Adjusted? ==>
      ApplyLine(products, line, dir) == Adjust(products, line.productId.value, line.quantity, dir, None).products
  {
    var id := line.productId.value;
    if dir == Decrease && products[id].stock >= line.quantity {
      assert ApplyLine(products, line, dir)[id].stock != products[id].stock;
    }
  }

  /** The loop over the items, in message order. */
  function ApplyLines(products: map<int, Product>, lines: seq<Line>, dir: AdjustKind): (r: map<int, Product>)
    ensures SameCatalogue(products, r)
  {
    if lines == [] then products
    else ApplyLine(ApplyLines(products, lines[..|lines| - 1], dir), lines[|lines| - 1], dir)
  }

  /** The handler as evidently intended, with the direction of line 26 in
      scope of the loop. */
  function HandleIntended(products: map<int, Product>, payload: OrderPayload): (r: Broker.Handled<map<int, Product>>)
    ensures r.Returned?
    ensures Ignored(payload) ==> r.state == products
    ensures !Ignored(payload) ==> r.state == ApplyLines(products, payload.items, DirectionOf(payload.status))
  {
    if Ignored(payload) then Broker.Returned(products)
    else Broker.Returned(ApplyLines(products, payload.items, DirectionOf(payload.status)))
  }

  /** The message PHP reports for the variable the closure did not capture. */
  const UndefinedDirection: string := "Undefined variable $direction"

  /** The handler as written: the closure does not capture `$direction`, so the
      first line that gets past the skip rules reads an undefined variable,
      which Laravel raises as an exception; the transaction rolls back. */
  function HandleAsWritten(products: map<int, Product>, payload: OrderPayload): (r: Broker.Handled<map<int, Product>>)
    ensures r.Threw? <==> !Ignored(payload) && exists i :: 0 <= i < |payload.items| && Eligible(products, payload.items[i])
    ensures r.Returned? ==> r.state == products
  {
    if Ignored(payload) then Broker.Returned(products)
    else if exists i :: 0 <= i < |payload.items| && Eligible(products, payload.items[i]) then
      Broker.Threw(UndefinedDirection)
    else Broker.Returned(products)
  }

  /** As written, no sequence of order events ever changes a stock. */
  lemma {:induction false} AsWrittenNeverAdjusts(products: map<int, Product>, ds: seq<Broker.Delivery<OrderPayload>>)
    ensures Broker.Drain(products, ds, HandleAsWritten, EmptyPayload).state == products
  {
    if ds != [] {
      AsWrittenNeverAdjusts(products, ds[..|ds| - 1]);
    }
  }

  /** The input that shows it: an order.created event for 3 of a product with
      stock 10 leaves the stock at 10 and the message nacked, where 7 was
      meant. */
  lemma AsWrittenDropsOrderCreated()
    ensures var products := map[1 := Product("Pen", 1.0, 10, Available)];
            var created := OrderPayload(Some(42), Some("pending"), [Line(Some(1), 3)]);
            && HandleAsWritten(products, created) == Broker.Threw(UndefinedDirection)
            && HandleIntended(products, created).state[1].stock == 7
  {
    var products := map[1 := Product("Pen", 1.0, 10, Available)];
    var created := OrderPayload(Some(42), Some("pending"), [Line(Some(1), 3)]);
    assert Eligible(products, created.items[0]);
    assert created.items[..0] == [];
  }

  /** The loop never takes a non-negative stock below zero. */
  lemma {:induction false} NeverNegative(products: map<int, Product>, lines: seq<Line>, dir: AdjustKind)
    requires forall id :: id in products ==> products[id].stock >= 0
    ensures forall id :: id in ApplyLines(products, lines, dir) ==> ApplyLines(products, lines, dir)[id].stock >= 0
  {
    if lines != [] {
      NeverNegative(products, lines[..|lines| - 1], dir);
    }
  }

  /** After the loop every status agrees with its stock, if it did before. */
  lemma {:induction false} StaysConsistent(products: map<int, Product>, lines: seq<Line>, dir: AdjustKind)
    requires AllConsistent(products)
    ensures AllConsistent(ApplyLines(products, lines, dir))
  {
    if lines != [] {
      StaysConsistent(products, lines[..|lines| - 1], dir);
    }
  }

  /** Whether a line names product `id`. */
  predicate Names(line: Line, id: int)
  {
    line.productId == Some(id)
  }

  /** A product that no line names keeps its record. */
  lemma {:induction false} UnnamedUnchanged(products: map<int, Product>, lines: seq<Line>, dir: AdjustKind, id: int)
    requires id in products
    requires forall i :: 0 <= i < |lines| ==> !Names(lines[i], id)
    ensures ApplyLines(products, lines, dir)[id] == products[id]
  {
    if lines != [] {
      UnnamedUnchanged(products, lines[..|lines| - 1], dir, id);
    }
  }

  /** The quantity the lines ask of product `id`, counting the lines the skip
      rules let through. */
  function Requested(lines: seq<Line>, id: int): (q: int)
    ensures q >= 0
  {
    if lines == [] then 0
    else
      var last := lines[|lines| - 1];
      Requested(lines[..|lines| - 1], id)
        + (if Names(last, id) && id != 0 && last.quantity > 0 then last.quantity else 0)
  }

  /** An increase adds exactly what the lines ask. */
  lemma {:induction false} IncreaseAddsRequested(products: map<int, Product>, lines: seq<Line>, id: int)
    requires id in products
    ensures ApplyLines(products, lines, Increase)[id].stock == products[id].stock + Requested(lines, id)
  {
    if lines != [] {
      IncreaseAddsRequested(products, lines[..|lines| - 1], id);
    }
  }

  /** Every product has enough stock for all the lines asking for it. */
  predicate Sufficient(products: map<int, Product>, lines: seq<Line>)
  {
    forall id :: id in products ==> Requested(lines, id) <= products[id].stock
  }

  /** With enough stock, no decrease is skipped and each product loses exactly
      what the lines ask. */
  lemma {:induction false} DecreaseTakesRequested(products: map<int, Product>, lines: seq<Line>)
    requires Sufficient(products, lines)
    ensures forall id :: id in products ==>
      ApplyLines(products, lines, Decrease)[id].stock == products[id].stock - Requested(lines, id)
  {
    if lines != [] {
      var n := |lines| - 1;
      var init := lines[..n];
      assert Sufficient(products, init) by {
        forall id | id in products ensures Requested(init, id) <= products[id].stock {
          assert Requested(init, id) <= Requested(lines, id);
        }
      }
      DecreaseTakesRequested(products, init);
    }
  }

  /** A created order whose stock was all there, followed by its cancellation
      with the same items, leaves every product as it was. */
  lemma CancelRestoresStock(products: map<int, Product>, lines: seq<Line>)
    requires AllConsistent(products) && Sufficient(products, lines)
    ensures ApplyLines(ApplyLines(products, lines, Decrease), lines, Increase) == products
  {
    var taken := ApplyLines(products, lines, Decrease);
    var back := ApplyLines(taken, lines, Increase);
    DecreaseTakesRequested(products, lines);
    StaysConsistent(products, lines, Decrease);
    StaysConsistent(taken, lines, Increase);
    forall id | id in products ensures back[id] == products[id] {
      IncreaseAddsRequested(taken, lines, id);
    }
  }

  /** The example: stock 10, an order for 3 takes it to 7, its cancellation
      brings it back to 10. */
  lemma CreateThenCancelExample()
    ensures var products := map[1 := Product("Pen", 1.0, 10, Available)];
            var lines := [Line(Some(1), 3)];
            && HandleIntended(products, OrderPayload(Some(42), Some("pending"), lines)).state[1].stock == 7
            && HandleIntended(HandleIntended(products, OrderPayload(Some(42), Some("pending"), lines)).state,
                              OrderPayload(Some(42), Some("cancelled"), lines)).state == products
  {
    var products := map[1 := Product("Pen", 1.0, 10, Available)];
    var lines := [Line(Some(1), 3)];
    assert lines[..0] == [];
    CancelRestoresStock(products, lines);
  }

  /** One line of the handler's loop, on the stored products: skipped when
      ineligible or when a decrease exceeds the stock, otherwise the stock is
      moved and the status refreshed from it. */
  method ApplyLineInPlace(inventory: Inventory, line: Line, dir: AdjustKind)
    modifies inventory
    ensures inventory.products == ApplyLine(old(inventory.products), line, dir)
  {
    if line.productId.None? || line.productId.value == 0 || line.quantity <= 0 {
      return;
    }
    var id := line.productId.value;
    if id !in inventory.products {
      return;
    }
    var stock := inventory.products[id].stock;
    if dir == Decrease {
      if stock < line.quantity {
        return;
      }
      inventory.products := inventory.products[id := inventory.products[id].(stock := stock - line.quantity)];
    } else {
      inventory.products := inventory.products[id := inventory.products[id].(stock := stock + line.quantity)];
    }
    var refreshed := inventory.products[id].stock;
    inventory.products := inventory.products[id := inventory.products[id].(
      status := if refreshed > 0 then Available else OutOfStock)];
  }

  /** The handler in place on the product table. `failAt` is the item at
      which the database raises, if any; the transaction then rolls back and
      the message is nacked. */
  method ApplyOrderEvent(inventory: Inventory, payload: OrderPayload, failAt: Option<nat>) returns (acked: bool)
    modifies inventory
    ensures Ignored(payload) ==> acked && inventory.products == old(inventory.products)
    ensures !Ignored(payload) && failAt.Some? && failAt.value < |payload.items| ==>
      !acked && inventory.products == old(inventory.products)
    ensures !Ignored(payload) && !(failAt.Some? && failAt.value < |payload.items|) ==>
      acked && inventory.products == HandleIntended(old(inventory.products), payload).state
  {
    if !Truthy(payload.orderId) || |payload.items| == 0 {
      return true;
    }
    var dir := DirectionOf(payload.status);
    var snapshot := inventory.products;
    for i := 0 to |payload.items|
      invariant inventory.products == ApplyLines(snapshot, payload.items[..i], dir)
      invariant failAt.Some? ==> failAt.value >= i
    {
      if failAt == Some(i) {
        inventory.products := snapshot;
        return false;
      }
      assert payload.items[..i + 1] == payload.items[..i] + [payload.items[i]];
      ApplyLineInPlace(inventory, payload.items[i], dir);
    }
    assert payload.items[..|payload.items|] == payload.items;
    return true;
  }
}
