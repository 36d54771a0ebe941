/** The product service: status derivation on create and update, manual stock
    adjustment, the stock check the order service calls, and the low-stock
    rule of the summary. Products live in a table keyed by id. */
module Products {

  import opened Common

  const LowStockThreshold: int := 10

  datatype ProductStatus = Available | OutOfStock

  datatype Product = Product(name: string, price: real, stock: int, status: ProductStatus)

  /** `stock > 0 ? 'available' : 'out_of_stock'` */
  function StatusFor(stock: int): (s: ProductStatus)
    ensures s == Available <==> stock > 0
    ensures s == OutOfStock <==> stock <= 0
  {
    if stock > 0 then Available else OutOfStock
  }

  /** The status agrees with the stock. */
  predicate Consistent(p: Product)
  {
    p.status == StatusFor(p.stock)
  }

  predicate AllConsistent(products: map<int, Product>)
  {
    forall id :: id in products ==> Consistent(products[id])
  }

  /** `store`: price must be numeric and at least 0, stock an integer of at
      least 0 (422 otherwise); the status follows the stock. */
  function Create(name: string, price: real, stock: int): (r: Option<Product>)
    ensures r.Some? <==> price >= 0.0 && stock >= 0
    ensures r.Some? ==> r.value.name == name && r.value.price == price && r.value.stock == stock
    ensures r.Some? ==> (r.value.status == Available <==> stock > 0)
    ensures r.Some? ==> Consistent(r.value)
  {
    if price < 0.0 || stock < 0 then None
    else Some(Product(name, price, stock, StatusFor(stock)))
  }

  /** The fields an update may carry; absent ones keep their value. */
  datatype ProductUpdate = ProductUpdate(name: Option<string>, price: Option<real>,
                                         stock: Option<int>, status: Option<ProductStatus>)

  /** `update`: a supplied stock decides the status whatever status was
      supplied; without a stock the supplied status, or else the old one, is
      kept. */
  function Update(p: Product, u: ProductUpdate): (r: Option<Product>)
    ensures r.Some? <==> (u.price.Some? ==> u.price.value >= 0.0) && (u.stock.Some? ==> u.stock.value >= 0)
    ensures r.Some? ==> r.value.name == u.name.GetOr(p.name) && r.value.price == u.price.GetOr(p.price)
    ensures r.Some? ==> r.value.stock == u.stock.GetOr(p.stock)
    ensures r.Some? && u.stock.Some? ==> r.value.status == StatusFor(u.stock.value)
    ensures r.Some? && u.stock.None? ==> r.value.status == u.status.GetOr(p.status)
  {
    if (u.price.Some? && u.price.value < 0.0) || (u.stock.Some? && u.stock.value < 0) then None
    else
      var stock := u.stock.GetOr(p.stock);
      var status := if u.stock.Some? then StatusFor(stock) else u.status.GetOr(p.status);
      Some(Product(u.name.GetOr(p.name), u.price.GetOr(p.price), stock, status))
  }

  /** An update that carries a stock leaves the product consistent. */
  lemma UpdateWithStockIsConsistent(p: Product, u: ProductUpdate)
    requires u.stock.Some? && Update(p, u).Some?
    ensures Consistent(Update(p, u).value)
  {
  }

  /** An update that carries only a status is taken as given, even when it
      disagrees with the stock. */
  lemma StatusOnlyUpdateIsTakenAsGiven()
    ensures Update(Product("Pen", 1.0, 5, Available), ProductUpdate(None, None, None, Some(OutOfStock)))
              == Some(Product("Pen", 1.0, 5, OutOfStock))
    ensures !Consistent(Product("Pen", 1.0, 5, OutOfStock))
  {
  }

  /** The summary's low-stock count: `stock <= 10` and `stock > 0`. */
  predicate LowStock(stock: int)
  {
    0 < stock <= LowStockThreshold
  }

  /** A low-stock product is available; an out-of-stock one is not low. */
  lemma LowStockIsAvailable(p: Product)
    requires Consistent(p)
    ensures LowStock(p.stock) ==> p.status == Available
    ensures p.status == OutOfStock ==> !LowStock(p.stock)
  {
  }

  datatype AdjustKind = Increase | Decrease

  /** The StockAdjusted event. */
  datatype StockAdjusted = StockAdjusted(productId: int, oldStock: int, newStock: int,
                                         quantity: int, kind: AdjustKind, reason: string)

  datatype AdjustReply =
    | ProductNotFound            // 404 from the route binding
    | InsufficientStock          // 400 'Insufficient stock'
    | Adjusted(event: StockAdjusted)

  datatype Adjustment = Adjustment(products: map<int, Product>, reply: AdjustReply)

  /** The stock after adding or taking `quantity`. */
  function Moved(stock: int, quantity: int, kind: AdjustKind): int
  {
    if kind == Decrease then stock - quantity else stock + quantity
  }

  /** `adjustStock`: the quantity is validated only as an integer. */
  function Adjust(products: map<int, Product>, id: int, quantity: int, kind: AdjustKind,
                  reason: Option<string>): (r: Adjustment)
    ensures id !in products ==> r == Adjustment(products, ProductNotFound)
    // a decrease below zero is refused and nothing changes
    ensures r.reply == InsufficientStock <==>
      id in products && kind == Decrease && products[id].stock < quantity
    ensures r.reply == InsufficientStock ==> r.products == products
    // otherwise the stock moves by exactly the quantity and the status follows it
    ensures r.reply.Adjusted? ==>
      && id in products
      && r.reply.event == StockAdjusted(id, products[id].stock, Moved(products[id].stock, quantity, kind),
                                        quantity, kind, reason.GetOr("Manual adjustment"))
      && r.products == products[id := products[id].(stock := r.reply.event.newStock,
                                                   status := StatusFor(r.reply.event.newStock))]
    ensures r.reply.Adjusted? ==> (r.products[id].status == Available <==> r.products[id].stock > 0)
    ensures r.products.Keys == products.Keys
  {
    if id !in products then Adjustment(products, ProductNotFound)
    else
      var p := products[id];
      if kind == Decrease && p.stock < quantity then Adjustment(products, InsufficientStock)
      else
        var stock := Moved(p.stock, quantity, kind);
        Adjustment(products[id := p.(stock := stock, status := StatusFor(stock))],
                   Adjusted(StockAdjusted(id, p.stock, stock, quantity, kind,
                                          reason.GetOr("Manual adjustment"))))
  }

  /** With a non-negative quantity an adjustment never takes a stock below zero. */
  lemma AdjustKeepsStockNonNegative(products: map<int, Product>, id: int, quantity: int,
                                    kind: AdjustKind, reason: Option<string>)
    requires quantity >= 0
    requires forall k :: k in products ==> products[k].stock >= 0
    ensures forall k :: k in Adjust(products, id, quantity, kind, reason).products ==>
      Adjust(products, id, quantity, kind, reason).products[k].stock >= 0
  {
  }

  /** The quantity is not required to be positive: an increase by -5 of a
      stock of 2 is accepted and leaves -3. */
  lemma NegativeIncreaseGoesBelowZero()
    ensures Adjust(map[1 := Product("Pen", 1.0, 2, Available)], 1, -5, Increase, None).products[1]
              == Product("Pen", 1.0, -3, OutOfStock)
  {
  }

  /** One line of a stock-check request. */
  datatype StockQuery = StockQuery(productId: int, quantity: int)

  /** One entry of the stock-check answer. */
  datatype Availability = Availability(productId: int, productName: string, requested: int,
                                       available: int, isAvailable: bool)

  /** The request passes validation: a non-empty list (`required|array`) of
      existing products with quantities of at least 1; otherwise 422. */
  predicate ValidQuery(products: map<int, Product>, items: seq<StockQuery>)
  {
    items != [] && forall i :: 0 <= i < |items| ==> items[i].productId in products && items[i].quantity >= 1
  }

  /** The answer to a stock check: one entry per item, in request order. */
  function CheckStock(products: map<int, Product>, items: seq<StockQuery>): (r: Option<seq<Availability>>)
    ensures r.Some? <==> ValidQuery(products, items)
    ensures r.Some? ==> |r.value| == |items|
    ensures r.Some? ==> forall i :: 0 <= i < |items| ==>
      && r.value[i].productId == items[i].productId
      && r.value[i].productName == products[items[i].productId].name
      && r.value[i].requested == items[i].quantity
      && r.value[i].available == products[items[i].productId].stock
      && (r.value[i].isAvailable <==> products[items[i].productId].stock >= items[i].quantity)
  {
    if !ValidQuery(products, items) then None
    else Some(seq(|items|, i requires 0 <= i < |items| =>
                 var p := products[items[i].productId];
                 Availability(items[i].productId, p.name, items[i].quantity, p.stock, p.stock >= items[i].quantity)))
  }

  /** The product table as the controller mutates it. */
  class Inventory {
    var products: map<int, Product>

    constructor (products: map<int, Product>)
      ensures this.products == products
    {
      this.products := products;
    }

    /** `adjustStock` in place. */
    method AdjustStock(id: int, quantity: int, kind: AdjustKind, reason: Option<string>) returns (reply: AdjustReply)
      modifies this
      ensures Adjustment(products, reply) == Adjust(old(products), id, quantity, kind, reason)
    {
      if id !in products {
        return ProductNotFound;
      }
      var oldStock := products[id].stock;
      if kind == Decrease {
        if oldStock < quantity {
          return InsufficientStock;
        }
        products := products[id := products[id].(stock := oldStock - quantity)];
      } else {
        products := products[id := products[id].(stock := oldStock + quantity)];
      }
      var newStock := products[id].stock;
      products := products[id := products[id].(status := if newStock > 0 then Available else OutOfStock)];
      reply := Adjusted(StockAdjusted(id, oldStock, newStock, quantity, kind,
                                      if reason.Some? then reason.value else "Manual adjustment"));
    }

    /** `checkStock`: reads the table and builds the answer item by item. */
    method CheckStockOf(items: seq<StockQuery>) returns (r: Option<seq<Availability>>)
      ensures r == CheckStock(products, items)
    {
      if items == [] {
        return None;
      }
      for i := 0 to |items|
        invariant forall j :: 0 <= j < i ==> items[j].productId in products && items[j].quantity >= 1
      {
        if items[i].productId !in products || items[i].quantity < 1 {
          return None;
        }
      }
      assert ValidQuery(products, items);
      var entries: seq<Availability> := [];
      for i := 0 to |items|
        invariant |entries| == i
        invariant forall j :: 0 <= j < i ==> entries[j] == CheckStock(products, items).value[j]
      {
        var p := products[items[i].productId];
        entries := entries + [Availability(items[i].productId, p.name, items[i].quantity, p.stock,
                                           p.stock >= items[i].quantity)];
      }
      assert entries == CheckStock(products, items).value;
      return Some(entries);
    }
  }
}
