/** How the order service's events and stock check meet the product
    service's stock handler and stock check: the order.created and
    order.cancelled messages as the stock handler reads them. */
module Saga {

  import opened Common
  import opened Products
  import Orders
  import StockConsumer

  function StatusText(s: Orders.OrderStatus): string
  {
    match s
    case Pending => "pending"
    case Processing => "processing"
    case Completed => "completed"
    case Cancelled => "cancelled"
  }

  /** The `items` of an order event, one `product_id`/`quantity` line each. */
  function CancelledLines(lines: seq<Orders.StockLine>): (r: seq<StockConsumer.Line>)
    ensures |r| == |lines|
    ensures forall i :: 0 <= i < |lines| ==> r[i] == StockConsumer.Line(Some(lines[i].productId), lines[i].quantity)
  {
    seq(|lines|, i requires 0 <= i < |lines| => StockConsumer.Line(Some(lines[i].productId), lines[i].quantity))
  }

  /** order.created carries the same line shape, read off the order's items. */
  function CreatedLines(items: seq<Orders.OrderItem>): (r: seq<StockConsumer.Line>)
    ensures |r| == |items|
    ensures forall i :: 0 <= i < |items| ==> r[i] == StockConsumer.Line(Some(items[i].productId), items[i].quantity)
  {
    CancelledLines(Orders.LinesOf(items))
  }

  /** The stock handler's reading of a published order event; order.updated
      is not bound to its queue. */
  function PayloadOf(e: Orders.OrderEvent): Option<StockConsumer.OrderPayload>
  {
    match e
    case OrderCreated(id, _, status, _, items) => Some(StockConsumer.OrderPayload(Some(id), Some(StatusText(status)), CreatedLines(items)))
    case OrderCancelled(id, status, lines) => Some(StockConsumer.OrderPayload(Some(id), Some(StatusText(status)), CancelledLines(lines)))
    case OrderUpdated(_, _) => None
  }

  /** A new order's order.created message takes stock; every order.cancelled
      message, from `update` or `destroy`, gives it back. */
  lemma EventDirections(id: int, userId: int, number: string, inputs: seq<Orders.ItemInput>, notes: Option<string>,
                        orders: map<int, Orders.Order>, oid: int, newStatus: Orders.OrderStatus)
    ensures var o := Orders.NewOrder(userId, number, inputs, notes);
            StockConsumer.DirectionOf(PayloadOf(Orders.OrderCreated(id, userId, o.status, o.total, o.items)).value.status) == Decrease
    ensures oid in orders && Orders.UpdateEvent(oid, orders[oid], newStatus).OrderCancelled? ==>
            StockConsumer.DirectionOf(PayloadOf(Orders.UpdateEvent(oid, orders[oid], newStatus)).value.status) == Increase
    ensures Orders.Destroy(orders, oid).published != [] ==>
            StockConsumer.DirectionOf(PayloadOf(Orders.Destroy(orders, oid).published[0]).value.status) == Increase
  {
  }

  /** The order service's verdict on the product service's answer: the check
      passes iff every line, taken on its own, has enough stock. */
  lemma CheckAgreesWithStock(products: map<int, Product>, items: seq<StockQuery>)
    requires ValidQuery(products, items)
    ensures Orders.CheckProductStock(Orders.Entries(CheckStock(products, items).value)).success <==>
            forall i :: 0 <= i < |items| ==> products[items[i].productId].stock >= items[i].quantity
  {
    var data := CheckStock(products, items).value;
    assert forall i :: 0 <= i < |items| ==> (data[i].isAvailable <==> products[items[i].productId].stock >= items[i].quantity);
  }

  /** An order created with enough stock and then deleted leaves the stock as
      it was: order.created takes each line, order.cancelled gives each back. */
  lemma CreateThenDestroyRestores(products: map<int, Product>, id: int, userId: int, number: string,
                                  inputs: seq<Orders.ItemInput>, notes: Option<string>)
    requires id != 0 && Orders.ValidItems(inputs)
    requires AllConsistent(products)
    requires StockConsumer.Sufficient(products, CreatedLines(Orders.NewOrder(userId, number, inputs, notes).items))
    ensures var o := Orders.NewOrder(userId, number, inputs, notes);
            var created := PayloadOf(Orders.OrderCreated(id, userId, o.status, o.total, o.items)).value;
            var cancelled := PayloadOf(Orders.Destroy(map[id := o], id).published[0]).value;
            StockConsumer.HandleIntended(StockConsumer.HandleIntended(products, created).state, cancelled).state == products
  {
    var o := Orders.NewOrder(userId, number, inputs, notes);
    var lines := CreatedLines(o.items);
    var created := PayloadOf(Orders.OrderCreated(id, userId, o.status, o.total, o.items)).value;
    var event := Orders.Destroy(map[id := o], id).published[0];
    assert event == Orders.OrderCancelled(id, Orders.Cancelled, Orders.LinesOf(o.items));
    var cancelled := PayloadOf(event).value;
    assert cancelled.items == lines;
    assert created.items == lines && lines != [];
    StockConsumer.CancelRestoresStock(products, lines);
  }

  /** The check looks at each line on its own, so two lines of 3 for a
      product with stock 5 both pass; the handler then takes 3 and skips the
      second line, and the cancellation gives back 6: stock ends at 8. */
  lemma DuplicateLinesInflateStock()
    ensures var products := map[1 := Product("Pen", 1.0, 5, Available)];
            var query := [StockQuery(1, 3), StockQuery(1, 3)];
            var lines := [StockConsumer.Line(Some(1), 3), StockConsumer.Line(Some(1), 3)];
            var created := StockConsumer.OrderPayload(Some(42), Some("pending"), lines);
            var cancelled := StockConsumer.OrderPayload(Some(42), Some("cancelled"), lines);
            var taken := StockConsumer.HandleIntended(products, created).state;
            && Orders.CheckProductStock(Orders.Entries(CheckStock(products, query).value)).success
            && taken[1].stock == 2
            && StockConsumer.HandleIntended(taken, cancelled).state[1].stock == 8
  {
    var products := map[1 := Product("Pen", 1.0, 5, Available)];
    var lines := [StockConsumer.Line(Some(1), 3), StockConsumer.Line(Some(1), 3)];
    CheckAgreesWithStock(products, [StockQuery(1, 3), StockQuery(1, 3)]);
    assert lines[..1] == [lines[0]] && [lines[0]][..0] == [];
    var once := StockConsumer.ApplyLine(products, lines[0], Decrease);
    assert once[1].stock == 2;
    assert StockConsumer.ApplyLines(products, lines[..1], Decrease) == once;
    var taken := StockConsumer.ApplyLines(products, lines, Decrease);
    assert taken == StockConsumer.ApplyLine(once, lines[1], Decrease) == once;
    var back := StockConsumer.ApplyLine(taken, lines[0], Increase);
    assert back[1].stock == 5;
    assert StockConsumer.ApplyLines(taken, lines[..1], Increase) == back;
    assert StockConsumer.ApplyLines(taken, lines, Increase) == StockConsumer.ApplyLine(back, lines[1], Increase);
  }
}
