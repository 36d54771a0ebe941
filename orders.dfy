/** The order service's order controller: creating an order after the product
    service's stock check, status updates, deletion, and the events each of
    them publishes on the `order.*` routing keys. Orders live in a table keyed
    by id; generated ids and order numbers are inputs. */
module Orders {

  import opened Common
  import Products

  datatype OrderStatus = Pending | Processing | Completed | Cancelled

  /** One requested line: `items.*.product_id`, `quantity`, `price`. */
  datatype ItemInput = ItemInput(productId: int, quantity: int, price: real)

  datatype OrderItem = OrderItem(productId: int, quantity: int, price: real, subtotal: real)

  datatype Order = Order(userId: int, number: string, total: real, status: OrderStatus,
                         notes: Option<string>, items: seq<OrderItem>)

  /** A line of an order.cancelled event. */
  datatype StockLine = StockLine(productId: int, quantity: int)

  /** What the controller publishes, by routing key. */
  datatype OrderEvent =
    | OrderCreated(orderId: int, userId: int, status: OrderStatus, totalAmount: real, items: seq<OrderItem>)
    | OrderCancelled(orderId: int, status: OrderStatus, lines: seq<StockLine>)
    | OrderUpdated(orderId: int, status: OrderStatus)

  function RoutingKey(e: OrderEvent): string
  {
    match e
    case OrderCreated(_, _, _, _, _) => "order.created"
    case OrderCancelled(_, _, _) => "order.cancelled"
    case OrderUpdated(_, _) => "order.updated"
  }

  /** `collect($items)->sum(quantity * price)` */
  function Total(items: seq<ItemInput>): real
  {
    if items == [] then 0.0
    else Total(items[..|items| - 1]) + items[|items| - 1].quantity as real * items[|items| - 1].price
  }

  function ItemOf(item: ItemInput): OrderItem
  {
    OrderItem(item.productId, item.quantity, item.price, item.quantity as real * item.price)
  }

  /** The order items created for the requested lines, one per line, in order. */
  function ItemsOf(items: seq<ItemInput>): (r: seq<OrderItem>)
    ensures |r| == |items|
    ensures forall i :: 0 <= i < |items| ==>
      && r[i].productId == items[i].productId && r[i].quantity == items[i].quantity
      && r[i].price == items[i].price && r[i].subtotal == items[i].quantity as real * items[i].price
  {
    seq(|items|, i requires 0 <= i < |items| => ItemOf(items[i]))
  }

  /** One more requested line adds its item at the end. */
  lemma ItemsOfAppend(items: seq<ItemInput>, i: int)
    requires 0 <= i < |items|
    ensures ItemsOf(items[..i + 1]) == ItemsOf(items[..i]) + [ItemOf(items[i])]
  {
    var a := ItemsOf(items[..i + 1]);
    var b := ItemsOf(items[..i]) + [ItemOf(items[i])];
    forall j | 0 <= j < |a|
      ensures a[j] == b[j]
    {
      if j < i {
        assert items[..i + 1][j] == items[..i][j];
      }
    }
  }

  function SumSubtotals(items: seq<OrderItem>): real
  {
    if items == [] then 0.0 else SumSubtotals(items[..|items| - 1]) + items[|items| - 1].subtotal
  }

  /** The stored subtotals add up to the stored total. */
  lemma {:induction false} SubtotalsSumToTotal(items: seq<ItemInput>)
    ensures SumSubtotals(ItemsOf(items)) == Total(items)
  {
    if items != [] {
      var n := |items| - 1;
      SubtotalsSumToTotal(items[..n]);
      assert ItemsOf(items)[..n] == ItemsOf(items[..n]);
    }
  }

  /** With non-negative prices and positive quantities the total is not
      negative. */
  lemma {:induction false} TotalNonNegative(items: seq<ItemInput>)
    requires forall i :: 0 <= i < |items| ==> items[i].quantity >= 1 && items[i].price >= 0.0
    ensures Total(items) >= 0.0
  {
    if items != [] {
      TotalNonNegative(items[..|items| - 1]);
    }
  }

  /** How the product service answered the stock check. */
  datatype StockReply =
    | Entries(data: seq<Products.Availability>)  // a 2xx reply and its `data`
    | NotSuccessful                              // any other status
    | Unreachable                                // the call threw

  datatype StockCheck = StockCheck(success: bool, unavailable: seq<Products.Availability>)

  /** r occurs in data in order, not necessarily contiguously. */
  predicate SubsequenceOf<T(==)>(r: seq<T>, data: seq<T>)
    decreases |data|
  {
    if r == [] then true
    else if data == [] then false
    else if r[|r| - 1] == data[|data| - 1] then SubsequenceOf(r[..|r| - 1], data[..|data| - 1])
    else SubsequenceOf(r, data[..|data| - 1])
  }

  /** The entries with `is_available` false, in order. */
  function Unavailable(data: seq<Products.Availability>): (r: seq<Products.Availability>)
    ensures |r| <= |data|
    ensures forall j :: 0 <= j < |r| ==> !r[j].isAvailable && r[j] in data
    ensures forall i :: 0 <= i < |data| && !data[i].isAvailable ==> data[i] in r
  {
    if data == [] then []
    else
      var rest := Unavailable(data[..|data| - 1]);
      assert forall i :: 0 <= i < |data| - 1 ==> data[..|data| - 1][i] == data[i];
      if data[|data| - 1].isAvailable then rest else rest + [data[|data| - 1]]
  }

  /** The unavailable entries are reported in the order they come, each as
      often as it comes: with the clauses above this pins the report down to
      the filtered list. */
  lemma {:induction false} UnavailableKeepsOrderAndCount(data: seq<Products.Availability>)
    ensures SubsequenceOf(Unavailable(data), data)
    ensures forall x: Products.Availability :: !x.isAvailable ==> multiset(Unavailable(data))[x] == multiset(data)[x]
  {
    if data != [] {
      var init, last := data[..|data| - 1], data[|data| - 1];
      UnavailableKeepsOrderAndCount(init);
      var rest := Unavailable(init);
      assert data == init + [last];
      assert multiset(data) == multiset(init) + multiset{last};
      if !last.isAvailable {
        assert Unavailable(data) == rest + [last];
        assert (rest + [last])[..|rest|] == rest;
        assert multiset(rest + [last]) == multiset(rest) + multiset{last};
      }
    }
  }

  /** `checkProductStock` */
  function CheckProductStock(reply: StockReply): (r: StockCheck)
    ensures r.success <==> reply.Entries? && forall i :: 0 <= i < |reply.data| ==> reply.data[i].isAvailable
    ensures !reply.Entries? ==> r.unavailable == []
    ensures reply.Entries? ==> r.unavailable == Unavailable(reply.data)
  {
    match reply
    case Entries(data) =>
      var missing := Unavailable(data);
      assert missing == [] <==> forall i :: 0 <= i < |data| ==> data[i].isAvailable by {
        if missing != [] { assert missing[0] in data; }
      }
      StockCheck(missing == [], missing)
    case NotSuccessful => StockCheck(false, [])
    case Unreachable => StockCheck(false, [])
  }

  /** The request passes validation: at least one line, quantities of at
      least 1, prices of at least 0; otherwise 422. */
  predicate ValidItems(items: seq<ItemInput>)
  {
    items != [] && forall i :: 0 <= i < |items| ==> items[i].quantity >= 1 && items[i].price >= 0.0
  }

  datatype StoreReply =
    | InvalidOrder                                       // 422
    | StockNotAvailable(details: seq<Products.Availability>)  // 400
    | OrderStored(orderId: int)                          // 201

  function StoreStatus(r: StoreReply): int
  {
    match r
    case InvalidOrder => 422
    case StockNotAvailable(_) => 400
    case OrderStored(_) => 201
  }

  /** The order `store` creates. */
  function NewOrder(userId: int, number: string, items: seq<ItemInput>, notes: Option<string>): (o: Order)
    ensures o.status == Pending && o.total == Total(items) && o.items == ItemsOf(items)
    ensures SumSubtotals(o.items) == o.total
  {
    SubtotalsSumToTotal(items);
    Order(userId, number, Total(items), Pending, notes, ItemsOf(items))
  }

  /** The event `update` publishes: order.cancelled exactly when the order
      moves into cancelled from another status, order.updated otherwise. */
  function UpdateEvent(id: int, o: Order, newStatus: OrderStatus): (e: OrderEvent)
    ensures e.OrderCancelled? <==> newStatus == Cancelled && o.status != Cancelled
    ensures e.OrderUpdated? <==> !(newStatus == Cancelled && o.status != Cancelled)
    ensures e.orderId == id && e.status == newStatus
    ensures e.OrderCancelled? ==> |e.lines| == |o.items|
    ensures e.OrderCancelled? ==>
      forall i :: 0 <= i < |o.items| ==> e.lines[i] == StockLine(o.items[i].productId, o.items[i].quantity)
  {
    if newStatus == Cancelled && o.status != Cancelled then OrderCancelled(id, Cancelled, LinesOf(o.items))
    else OrderUpdated(id, newStatus)
  }

  /** The order's items as stock lines. */
  function LinesOf(items: seq<OrderItem>): (r: seq<StockLine>)
    ensures |r| == |items|
    ensures forall i :: 0 <= i < |items| ==> r[i] == StockLine(items[i].productId, items[i].quantity)
  {
    seq(|items|, i requires 0 <= i < |items| => StockLine(items[i].productId, items[i].quantity))
  }

  datatype DestroyReply = OrderNotFound | CannotDeleteCompleted | Deleted

  datatype Outcome<R> = Outcome(orders: map<int, Order>, published: seq<OrderEvent>, reply: R)

  /** `destroy`: a completed order stays; any other is deleted, and unless it
      was already cancelled its stock is handed back by an order.cancelled
      event. */
  function Destroy(orders: map<int, Order>, id: int): (r: Outcome<DestroyReply>)
    ensures id !in orders ==> r == Outcome(orders, [], OrderNotFound)
    ensures r.reply == CannotDeleteCompleted <==> id in orders && orders[id].status == Completed
    ensures r.reply == CannotDeleteCompleted ==> r.orders == orders && r.published == []
    ensures r.reply == Deleted ==> id in orders && r.orders == orders - {id}
    ensures r.reply == Deleted && orders[id].status != Cancelled ==>
      r.published == [OrderCancelled(id, Cancelled, LinesOf(orders[id].items))]
    ensures r.reply == Deleted && orders[id].status == Cancelled ==> r.published == []
  {
    if id !in orders then Outcome(orders, [], OrderNotFound)
    else if orders[id].status == Completed then Outcome(orders, [], CannotDeleteCompleted)
    else
      var events := if orders[id].status != Cancelled then [OrderCancelled(id, Cancelled, LinesOf(orders[id].items))] else [];
      Outcome(orders - {id}, events, Deleted)
  }

  /** Any status may follow any other, so an order that is cancelled, reopened
      and cancelled again hands its stock back twice. */
  lemma RecancelPublishesTwice(id: int, o: Order)
    requires o.status == Pending && o.items != []
    ensures UpdateEvent(id, o, Cancelled).OrderCancelled?
    ensures UpdateEvent(id, o.(status := Cancelled), Pending).OrderUpdated?
    ensures UpdateEvent(id, o.(status := Pending), Cancelled) == UpdateEvent(id, o, Cancelled)
  {
  }

  /** The order table and the events published, as the controller mutates
      them. */
  class OrderBook {
    var orders: map<int, Order>
    var published: seq<OrderEvent>

    constructor (orders: map<int, Order>)
      ensures this.orders == orders && published == []
    {
      this.orders := orders;
      published := [];
    }

    /** `store`: `newId` and `number` are the generated id and order number,
        `stock` how the stock check ended. */
    method Store(newId: int, number: string, userId: int, items: seq<ItemInput>, notes: Option<string>,
                 stock: StockReply) returns (reply: StoreReply)
      modifies this
      ensures !ValidItems(items) ==> reply == InvalidOrder
      ensures ValidItems(items) && !CheckProductStock(stock).success ==>
        reply == StockNotAvailable(CheckProductStock(stock).unavailable)
      ensures reply.OrderStored? <==> ValidItems(items) && CheckProductStock(stock).success
      ensures reply.OrderStored? ==>
        && reply.orderId == newId
        && orders == old(orders)[newId := NewOrder(userId, number, items, notes)]
        && published == old(published) + [OrderCreated(newId, userId, Pending, Total(items), ItemsOf(items))]
      ensures !reply.OrderStored? ==> orders == old(orders) && published == old(published)
    {
      if !ValidItems(items) {
        return InvalidOrder;
      }
      var check := CheckProductStock(stock);
      if !check.success {
        return StockNotAvailable(check.unavailable);
      }
      var total := 0.0;
      for i := 0 to |items|
        invariant total == Total(items[..i])
        invariant orders == old(orders) && published == old(published)
      {
        assert items[..i + 1][..i] == items[..i];
        total := total + items[i].quantity as real * items[i].price;
      }
      assert items[..|items|] == items;
      var created: seq<OrderItem> := [];
      for i := 0 to |items|
        invariant created == ItemsOf(items[..i])
        invariant orders == old(orders) && published == old(published)
      {
        created := created + [OrderItem(items[i].productId, items[i].quantity, items[i].price,
                                        items[i].quantity as real * items[i].price)];
        ItemsOfAppend(items, i);
      }
      assert created == ItemsOf(items) && total == Total(items);
      var order := Order(userId, number, total, Pending, notes, created);
      assert order == NewOrder(userId, number, items, notes);
      orders := orders[newId := order];
      published := published + [OrderCreated(newId, userId, order.status, order.total, order.items)];
      return OrderStored(newId);
    }

    /** `update`: any of the four statuses is accepted from any status. */
    method UpdateStatus(id: int, status: OrderStatus) returns (found: bool)
      modifies this
      ensures found <==> id in old(orders)
      ensures !found ==> orders == old(orders) && published == old(published)
      ensures found ==>
        && orders == old(orders)[id := old(orders)[id].(status := status)]
        && published == old(published) + [UpdateEvent(id, old(orders)[id], status)]
    {
      if id !in orders {
        return false;
      }
      var oldStatus := orders[id].status;
      var items := orders[id].items;
      orders := orders[id := orders[id].(status := status)];
      if status == Cancelled && oldStatus != Cancelled {
        published := published + [OrderCancelled(id, orders[id].status, LinesOf(items))];
      } else {
        published := published + [OrderUpdated(id, orders[id].status)];
      }
      return true;
    }

    /** `destroy` */
    method DestroyOrder(id: int) returns (reply: DestroyReply)
      modifies this
      ensures orders == Destroy(old(orders), id).orders && reply == Destroy(old(orders), id).reply
      ensures published == old(published) + Destroy(old(orders), id).published
    {
      if id !in orders {
        return OrderNotFound;
      }
      if orders[id].status == Completed {
        return CannotDeleteCompleted;
      }
      if orders[id].status != Cancelled {
        published := published + [OrderCancelled(id, Cancelled, LinesOf(orders[id].items))];
      }
      orders := orders - {id};
      return Deleted;
    }
  }
}
