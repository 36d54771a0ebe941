/** The order service's cart controller. Every user has at most one cart
    (the unique `user_id` of the carts table); a cart holds at most one item
    per product (the unique (cart_id, product_id) pair of cart_items). Item
    ids are generated by the database and are inputs here. */
module Cart {

  import opened Common
  import Orders

  datatype CartItem = CartItem(id: int, productId: int, quantity: int, price: real)

  /** No two items of a cart are for the same product. */
  predicate UniqueProducts(items: seq<CartItem>)
  {
    forall i, j :: 0 <= i < j < |items| ==> items[i].productId != items[j].productId
  }

  /** The position of the cart's item for `productId`, if it has one. */
  function IndexOf(items: seq<CartItem>, productId: int): (r: Option<nat>)
    ensures r.Some? ==> r.value < |items| && items[r.value].productId == productId
    ensures r.None? <==> forall i :: 0 <= i < |items| ==> items[i].productId != productId
  {
    if items == [] then None
    else if items[|items| - 1].productId == productId then Some(|items| - 1)
    else
      var r := IndexOf(items[..|items| - 1], productId);
      assert forall i :: 0 <= i < |items| - 1 ==> items[..|items| - 1][i] == items[i];
      r
  }

  /** `addItem` on the items of one cart: an existing item for the product
      gains the quantity and keeps its price; otherwise a new item is added
      with the given quantity and price. */
  function Added(items: seq<CartItem>, productId: int, quantity: int, price: real, newId: int): (r: seq<CartItem>)
    ensures UniqueProducts(items) ==> UniqueProducts(r)
    ensures IndexOf(items, productId).Some? ==>
      var i := IndexOf(items, productId).value;
      |r| == |items| && r == items[i := items[i].(quantity := items[i].quantity + quantity)]
    ensures IndexOf(items, productId).None? ==>
      r == items + [CartItem(newId, productId, quantity, price)]
    // every other item stays as it was
    ensures forall i :: 0 <= i < |items| && items[i].productId != productId ==> r[i] == items[i]
  {
    match IndexOf(items, productId)
    case Some(i) => items[i := items[i].(quantity := items[i].quantity + quantity)]
    case None => items + [CartItem(newId, productId, quantity, price)]
  }

  /** The quantity of `productId` in the cart, 0 if it has no such item. */
  function QuantityOf(items: seq<CartItem>, productId: int): int
  {
    match IndexOf(items, productId)
    case Some(i) => items[i].quantity
    case None => 0
  }

  /** In a cart with one item per product, adding a product twice leaves one
      item for it, with the two quantities summed and the first price. */
  lemma AddTwiceMerges(items: seq<CartItem>, productId: int, q1: int, q2: int, p1: real, p2: real, id1: int, id2: int)
    requires UniqueProducts(items) && IndexOf(items, productId).None?
    ensures var twice := Added(Added(items, productId, q1, p1, id1), productId, q2, p2, id2);
            twice == items + [CartItem(id1, productId, q1 + q2, p1)]
  {
    var once := Added(items, productId, q1, p1, id1);
    assert IndexOf(once, productId) == Some(|items|);
  }

  /** Adding a product changes its quantity by exactly the amount added, and
      no other product's. */
  lemma AddChangesOnlyThatQuantity(items: seq<CartItem>, productId: int, quantity: int, price: real,
                                   newId: int, other: int)
    requires UniqueProducts(items)
    ensures QuantityOf(Added(items, productId, quantity, price, newId), productId) ==
      QuantityOf(items, productId) + quantity
    ensures other != productId ==>
      QuantityOf(Added(items, productId, quantity, price, newId), other) == QuantityOf(items, other)
  {
    var r := Added(items, productId, quantity, price, newId);
    assert UniqueProducts(r);
    var k := if IndexOf(items, productId).Some? then IndexOf(items, productId).value else |items|;
    assert r[k].productId == productId && r[k].quantity == QuantityOf(items, productId) + quantity;
    assert IndexOf(r, productId) == Some(k);
    if other != productId {
      match IndexOf(items, other) {
        case Some(i) =>
          assert r[i] == items[i];
        case None =>
          assert forall i :: 0 <= i < |r| ==> r[i].productId != other by {
            forall i | 0 <= i < |r| ensures r[i].productId != other {
              if i < |items| && items[i].productId == productId {
                assert r[i].productId == productId;
              }
            }
          }
      }
    }
  }

  /** The order lines checkout sends: product, quantity and price of each cart
      item, in cart order. */
  function OrderData(items: seq<CartItem>): (r: seq<Orders.ItemInput>)
    ensures |r| == |items|
    ensures forall i :: 0 <= i < |items| ==>
      r[i] == Orders.ItemInput(items[i].productId, items[i].quantity, items[i].price)
  {
    seq(|items|, i requires 0 <= i < |items| => Orders.ItemInput(items[i].productId, items[i].quantity, items[i].price))
  }

  datatype CheckoutReply =
    | CartEmpty             // 400 'Cart is empty'
    | ServerError(message: string)  // 500 from the uncaught error
    | OrderReply(status: int)       // whatever order creation answered

  /** The error PHP raises for the missing constructor argument. */
  const MissingPublisher: string := "Too few arguments to function OrderController::__construct()"

  datatype Checkout = Checkout(carts: map<int, seq<CartItem>>, reply: CheckoutReply, sent: Option<seq<Orders.ItemInput>>)

  /** `checkout` as written: the controller is built without its publisher,
      so every non-empty checkout fails with 500 and the cart stays. */
  function CheckoutAsWritten(carts: map<int, seq<CartItem>>, userId: int): (r: Checkout)
    ensures r.carts == carts && r.sent.None?
    ensures r.reply == CartEmpty <==> userId !in carts || carts[userId] == []
    ensures r.reply != CartEmpty ==> r.reply == ServerError(MissingPublisher)
  {
    if userId !in carts || carts[userId] == [] then Checkout(carts, CartEmpty, None)
    else Checkout(carts, ServerError(MissingPublisher), None)
  }

  /** `checkout` with order creation working: `orderStatus` is the status order
      creation answers for the cart's lines. */
  function CheckoutIntended(carts: map<int, seq<CartItem>>, userId: int, orderStatus: int): (r: Checkout)
    ensures r.reply == CartEmpty <==> userId !in carts || carts[userId] == []
    ensures r.reply == CartEmpty ==> r.carts == carts && r.sent.None?
    ensures r.reply != CartEmpty ==>
      && r.reply == OrderReply(orderStatus)
      && r.sent == Some(OrderData(carts[userId]))
      && r.carts == (if orderStatus == 201 then carts[userId := []] else carts)
  {
    if userId !in carts || carts[userId] == [] then Checkout(carts, CartEmpty, None)
    else
      Checkout(if orderStatus == 201 then carts[userId := []] else carts,
               OrderReply(orderStatus), Some(OrderData(carts[userId])))
  }

  /** The input that shows it: a cart with one item. As written the answer is
      500 and nothing is ordered; intended, the order is created and the cart
      emptied. */
  lemma CheckoutAsWrittenFails()
    ensures var carts := map[7 := [CartItem(1, 3, 2, 5.0)]];
            && CheckoutAsWritten(carts, 7).reply == ServerError(MissingPublisher)
            && CheckoutAsWritten(carts, 7).carts[7] != []
            && CheckoutIntended(carts, 7, 201).carts[7] == []
            && CheckoutIntended(carts, 7, 201).sent == Some([Orders.ItemInput(3, 2, 5.0)])
  {
    var carts := map[7 := [CartItem(1, 3, 2, 5.0)]];
    assert OrderData(carts[7]) == [Orders.ItemInput(3, 2, 5.0)];
  }

  /** The sent lines pass the order service's validation whenever every cart
      item was added through `addItem`'s validation. */
  lemma CheckoutLinesAreValid(items: seq<CartItem>)
    requires items != []
    requires forall i :: 0 <= i < |items| ==> items[i].quantity >= 1 && items[i].price >= 0.0
    ensures Orders.ValidItems(OrderData(items))
  {
  }

  datatype AddReply = InvalidItem | ItemAdded   // 422 or success
  datatype UpdateReply = InvalidQuantity | ItemNotFound | ItemUpdated

  /** The carts, keyed by user id, each with its items in order. */
  class CartStore {
    var carts: map<int, seq<CartItem>>

    predicate Valid()
      reads this
    {
      forall u :: u in carts ==> UniqueProducts(carts[u])
    }

    constructor ()
      ensures carts == map[] && Valid()
    {
      carts := map[];
    }

    /** `addItem`: quantity at least 1 and price at least 0, or 422. */
    method AddItem(userId: int, productId: int, quantity: int, price: real, newId: int) returns (reply: AddReply)
      requires Valid()
      modifies this
      ensures Valid()
      ensures reply == InvalidItem <==> quantity < 1 || price < 0.0
      ensures reply == InvalidItem ==> carts == old(carts)
      ensures reply == ItemAdded ==>
        carts == old(carts)[userId := Added(if userId in old(carts) then old(carts)[userId] else [],
                                            productId, quantity, price, newId)]
    {
      if quantity < 1 || price < 0.0 {
        return InvalidItem;
      }
      if userId !in carts {
        carts := carts[userId := []];
      }
      var items := carts[userId];
      var i := 0;
      while i < |items| && items[i].productId != productId
        invariant 0 <= i <= |items|
        invariant forall j :: 0 <= j < i ==> items[j].productId != productId
      {
        i := i + 1;
      }
      if i < |items| {
        assert IndexOf(items, productId) == Some(i) by {
          assert UniqueProducts(items);
        }
        items := items[i := items[i].(quantity := items[i].quantity + quantity)];
      } else {
        items := items + [CartItem(newId, productId, quantity, price)];
      }
      carts := carts[userId := items];
      return ItemAdded;
    }

    /** `updateItem` for the item `itemId` of the user's cart: the quantity is
        set to the given value, which must be at least 1. */
    method UpdateItem(userId: int, itemId: int, quantity: int) returns (reply: UpdateReply)
      requires Valid()
      modifies this
      ensures Valid()
      // the item is bound from the route before the body is validated
      ensures reply == ItemNotFound <==>
        userId !in old(carts) || forall i :: 0 <= i < |old(carts)[userId]| ==> old(carts)[userId][i].id != itemId
      ensures reply == InvalidQuantity <==> reply != ItemNotFound && quantity < 1
      ensures reply != ItemUpdated ==> carts == old(carts)
      ensures reply == ItemUpdated ==>
        && userId in old(carts)
        && exists i :: 0 <= i < |old(carts)[userId]| && old(carts)[userId][i].id == itemId
             && carts == old(carts)[userId := old(carts)[userId][i := old(carts)[userId][i].(quantity := quantity)]]
    {
      if userId !in carts {
        return ItemNotFound;
      }
      var items := carts[userId];
      var i := 0;
      while i < |items| && items[i].id != itemId
        invariant 0 <= i <= |items|
        invariant forall j :: 0 <= j < i ==> items[j].id != itemId
      {
        i := i + 1;
      }
      if i == |items| {
        return ItemNotFound;
      }
      if quantity < 1 {
        return InvalidQuantity;
      }
      carts := carts[userId := items[i := items[i].(quantity := quantity)]];
      return ItemUpdated;
    }

    /** `clear`: empties the user's cart if there is one; always succeeds. */
    method Clear(userId: int)
      requires Valid()
      modifies this
      ensures Valid()
      ensures userId in old(carts) ==> carts == old(carts)[userId := []]
      ensures userId !in old(carts) ==> carts == old(carts)
    {
      if userId in carts {
        carts := carts[userId := []];
      }
    }

    /** `checkout` as evidently intended, with the order-creation status given. */
    method CheckoutCart(userId: int, orderStatus: int) returns (reply: CheckoutReply, sent: Option<seq<Orders.ItemInput>>)
      requires Valid()
      modifies this
      ensures Valid()
      ensures Checkout(carts, reply, sent) == CheckoutIntended(old(carts), userId, orderStatus)
    {
      if userId !in carts || |carts[userId]| == 0 {
        return CartEmpty, None;
      }
      var items := carts[userId];
      var lines: seq<Orders.ItemInput> := [];
      for i := 0 to |items|
        invariant |lines| == i
        invariant forall j :: 0 <= j < i ==> lines[j] == Orders.ItemInput(items[j].productId, items[j].quantity, items[j].price)
      {
        lines := lines + [Orders.ItemInput(items[i].productId, items[i].quantity, items[i].price)];
      }
      assert lines == OrderData(items);
      if orderStatus == 201 {
        carts := carts[userId := []];
      }
      return OrderReply(orderStatus), Some(lines);
    }
  }
}
