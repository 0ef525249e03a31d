/**
 * Pharmacy stock and restock orders (src/pages/Pharmacy.tsx). A product's
 * stock status is derived from its quantity and reorder threshold; orders
 * are placed against a product, and marking an order delivered adds its
 * quantity to the product it references.
 */
module Pharmacy {
  import opened Wrappers
  import opened Text
  import opened Clock
  import Seqs

  datatype ProductStatus = InStock | LowStock | OutOfStock

  datatype OrderStatus = Pending | Confirmed | Delivered | Cancelled

  /** Prices and costs are integer cents. */
  datatype Product = Product(
    id: string,
    name: string,
    category: string,
    quantity: int,
    minStock: int,
    unit: string,
    price: int,
    supplier: string,
    expiryDate: Option<string>,
    status: ProductStatus,
    lastRestocked: Option<string>)

  datatype Order = Order(
    id: string,
    productId: string,
    productName: string,
    quantity: int,
    supplier: string,
    orderDate: string,
    expectedDelivery: Option<string>,
    status: OrderStatus,
    totalCost: int,
    notes: Option<string>)

  /** The product dialog's fields. */
  datatype ProductForm = ProductForm(
    name: string,
    category: string,
    quantity: int,
    minStock: int,
    unit: string,
    price: int,
    supplier: string,
    expiryDate: string)

  /** The order dialog's fields. */
  datatype OrderForm = OrderForm(productId: string, quantity: int, supplier: string, notes: string)

  function StatusName(s: ProductStatus): string {
    match s
    case InStock => "in_stock"
    case LowStock => "low_stock"
    case OutOfStock => "out_of_stock"
  }

  // ---------------------------------------------------------------------
  // The stock-status rule
  // ---------------------------------------------------------------------

  /** Out of stock at zero, low below the threshold, in stock otherwise; the zero case comes first. */
  function StockStatus(quantity: int, minStock: int): (s: ProductStatus)
    ensures s == OutOfStock <==> quantity == 0
    ensures s == LowStock <==> quantity != 0 && quantity < minStock
    ensures s == InStock <==> quantity != 0 && quantity >= minStock
  {
    if quantity == 0 then OutOfStock
    else if quantity < minStock then LowStock
    else InStock
  }

  /** How well stocked a status says a product is. */
  function Level(s: ProductStatus): nat {
    match s
    case OutOfStock => 0
    case LowStock => 1
    case InStock => 2
  }

  /** Adding stock to a non-negative quantity never lowers the status. */
  lemma RestockNeverWorsens(quantity: int, added: int, minStock: int)
    requires quantity >= 0 && added >= 0
    ensures Level(StockStatus(quantity, minStock)) <= Level(StockStatus(quantity + added, minStock))
  {
  }

  /** Every product's status agrees with the rule. */
  predicate StatusesDerived(products: seq<Product>) {
    forall i :: 0 <= i < |products| ==>
      products[i].status == StockStatus(products[i].quantity, products[i].minStock)
  }

  // ---------------------------------------------------------------------
  // Product create, edit, delete
  // ---------------------------------------------------------------------

  /** A product carrying the form's fields, with its status derived from them. */
  function WithForm(p: Product, form: ProductForm): (r: Product)
    ensures r.id == p.id && r.lastRestocked == p.lastRestocked
    ensures r.name == form.name && r.category == form.category && r.quantity == form.quantity
    ensures r.minStock == form.minStock && r.unit == form.unit && r.price == form.price
    ensures r.supplier == form.supplier && r.expiryDate == Some(form.expiryDate)
    ensures r.status == StockStatus(form.quantity, form.minStock)
  {
    p.(name := form.name, category := form.category, quantity := form.quantity,
       minStock := form.minStock, unit := form.unit, price := form.price,
       supplier := form.supplier, expiryDate := Some(form.expiryDate),
       status := StockStatus(form.quantity, form.minStock))
  }

  /** `handleEditProduct`: the dialog filled from a product, an absent expiry date shown empty. */
  function EditForm(p: Product): (f: ProductForm)
    ensures f.name == p.name && f.category == p.category && f.quantity == p.quantity
    ensures f.minStock == p.minStock && f.unit == p.unit && f.price == p.price && f.supplier == p.supplier
    ensures f.expiryDate == if p.expiryDate.Some? then p.expiryDate.value else ""
  {
    ProductForm(p.name, p.category, p.quantity, p.minStock, p.unit, p.price, p.supplier,
                if p.expiryDate.Some? then p.expiryDate.value else "")
  }

  /**
   * Saving the edit dialog untouched gives the product back, provided its
   * expiry date is present and its status is the derived one.
   */
  lemma EditUnchangedKeepsProduct(p: Product)
    requires p.expiryDate.Some? && p.status == StockStatus(p.quantity, p.minStock)
    ensures WithForm(p, EditForm(p)) == p
  {
  }

  /** The product list after submitting the product dialog (edit when `editing` names an id). */
  function SubmitProduct(products: seq<Product>, editing: Option<string>, form: ProductForm, clock: Instant): (r: seq<Product>)
    ensures editing.Some? ==>
      && |r| == |products|
      && forall i :: 0 <= i < |products| ==>
           r[i] == if products[i].id == editing.value then WithForm(products[i], form) else products[i]
    ensures editing.None? ==>
      && |r| == |products| + 1 && r[1..] == products
      && r[0].id == Stamp("prod-", clock) && r[0].lastRestocked == Some(Today(clock))
      && r[0] == WithForm(r[0], form)
  {
    match editing
    case Some(id) =>
      seq(|products|, i requires 0 <= i < |products| =>
        if products[i].id == id then WithForm(products[i], form) else products[i])
    case None =>
      var created := Product(Stamp("prod-", clock), form.name, form.category, form.quantity,
                           form.minStock, form.unit, form.price, form.supplier,
                           Some(form.expiryDate), StockStatus(form.quantity, form.minStock),
                           Some(Today(clock)));
      [created] + products
  }

  /** `handleDeleteProduct`: exactly the products with that id are removed. */
  function DeleteProduct(products: seq<Product>, id: string): (r: seq<Product>)
    ensures forall p :: p in r <==> p in products && p.id != id
    ensures forall p: Product :: p.id != id ==> multiset(r)[p] == multiset(products)[p]
  {
    Seqs.FilterMultiset(products, (p: Product) => p.id != id);
    Seqs.Filter(products, (p: Product) => p.id != id)
  }

  lemma SubmitKeepsStatusesDerived(products: seq<Product>, editing: Option<string>, form: ProductForm, clock: Instant)
    requires StatusesDerived(products)
    ensures StatusesDerived(SubmitProduct(products, editing, form, clock))
  {
  }

  // ---------------------------------------------------------------------
  // Orders
  // ---------------------------------------------------------------------

  /** `k` is the position of the first product whose id is `id`. */
  predicate FirstProductAt(products: seq<Product>, id: string, k: int) {
    0 <= k < |products| && products[k].id == id &&
    forall j :: 0 <= j < k ==> products[j].id != id
  }

  /** `products.find(p => p.id === id)`. */
  function FindProduct(products: seq<Product>, id: string): (r: Option<Product>)
    ensures r.None? <==> forall k :: 0 <= k < |products| ==> products[k].id != id
    ensures forall k :: FirstProductAt(products, id, k) ==> r == Some(products[k])
  {
    match Seqs.FindFirst(products, (p: Product) => p.id == id)
    case None => None
    case Some(k) =>
      assert FirstProductAt(products, id, k);
      Some(products[k])
  }

  /**
   * The order `handleOrderSubmit` places, or `None` for an unknown product:
   * pending, costed at the product's current price, named after the product,
   * and supplied by the product's supplier when the form leaves it empty.
   */
  function NewOrder(products: seq<Product>, form: OrderForm, clock: Instant): (r: Option<Order>)
    ensures r.None? <==> forall k :: 0 <= k < |products| ==> products[k].id != form.productId
    ensures forall k :: FirstProductAt(products, form.productId, k) ==>
      && r.Some?
      && r.value.productId == form.productId
      && r.value.productName == products[k].name
      && r.value.totalCost == products[k].price * form.quantity
      && r.value.supplier == (if form.supplier == "" then products[k].supplier else form.supplier)
    ensures r.Some? ==>
      && r.value.id == Stamp("order-", clock)
      && r.value.quantity == form.quantity
      && r.value.status == Pending
      && r.value.orderDate == Today(clock)
      && r.value.expectedDelivery == None
      && r.value.notes == Some(form.notes)
  {
    match FindProduct(products, form.productId)
    case None => None
    case Some(p) =>
      Some(Order(Stamp("order-", clock), form.productId, p.name, form.quantity,
                 if form.supplier == "" then p.supplier else form.supplier,
                 Today(clock), None, Pending, p.price * form.quantity, Some(form.notes)))
  }

  /** The orders after `handleOrderSubmit`: the new order in front, or unchanged. */
  function PlaceOrder(products: seq<Product>, orders: seq<Order>, form: OrderForm, clock: Instant): (r: seq<Order>)
    ensures NewOrder(products, form, clock).None? ==> r == orders
    ensures NewOrder(products, form, clock).Some? ==>
      |r| == |orders| + 1 && r[0] == NewOrder(products, form, clock).value && r[1..] == orders
  {
    match NewOrder(products, form, clock)
    case None => orders
    case Some(o) => [o] + orders
  }

  /** Every order with the given id takes the new status; nothing else changes. */
  function SetOrderStatus(orders: seq<Order>, id: string, status: OrderStatus): (r: seq<Order>)
    ensures |r| == |orders|
    ensures forall i :: 0 <= i < |orders| ==>
      r[i].status == (if orders[i].id == id then status else orders[i].status)
    ensures forall i :: 0 <= i < |orders| ==> r[i].(status := orders[i].status) == orders[i]
  {
    seq(|orders|, i requires 0 <= i < |orders| =>
      if orders[i].id == id then orders[i].(status := status) else orders[i])
  }

  /**
   * A product restocked by a delivered order. The delivery handler writes the
   * stock-status rule out again inline; it is the same rule as `StockStatus`.
   */
  function Restocked(p: Product, added: int, clock: Instant): (r: Product)
    ensures r.quantity == p.quantity + added
    ensures r.status == StockStatus(p.quantity + added, p.minStock)
    ensures r.lastRestocked == Some(Today(clock))
    ensures r.(quantity := p.quantity, status := p.status, lastRestocked := p.lastRestocked) == p
  {
    var q := p.quantity + added;
    p.(quantity := q, status := StockStatus(q, p.minStock), lastRestocked := Some(Today(clock)))
  }

  /** The products after the delivery of `order`: those it references are restocked. */
  function Restock(products: seq<Product>, order: Order, clock: Instant): (r: seq<Product>)
    ensures |r| == |products|
    ensures forall i :: 0 <= i < |products| ==>
      r[i] == if products[i].id == order.productId
              then Restocked(products[i], order.quantity, clock) else products[i]
  {
    seq(|products|, i requires 0 <= i < |products| =>
      if products[i].id == order.productId
      then Restocked(products[i], order.quantity, clock) else products[i])
  }

  /**
   * `handleOrderStatusChange`: the matching orders take the new status; on
   * `delivered`, the first order with that id in the list as it was before
   * the change restocks its product. An unknown order or a product that no
   * longer exists leaves the products as they are.
   */
  function ChangeOrderStatus(products: seq<Product>, orders: seq<Order>, id: string,
                             status: OrderStatus, clock: Instant): (r: (seq<Product>, seq<Order>))
    ensures r.1 == SetOrderStatus(orders, id, status)
    ensures status != Delivered ==> r.0 == products
    ensures status == Delivered ==>
      r.0 == match Seqs.Find(orders, (o: Order) => o.id == id)
             case None => products
             case Some(o) => Restock(products, o, clock)
  {
    var orders' := SetOrderStatus(orders, id, status);
    if status == Delivered then
      match Seqs.Find(orders, (o: Order) => o.id == id)
      case None => (products, orders')
      case Some(o) => (Restock(products, o, clock), orders')
    else (products, orders')
  }

  /** Delivery adds exactly the order's quantity to each referenced product and nothing elsewhere. */
  lemma DeliveryAddsQuantity(products: seq<Product>, order: Order, clock: Instant, i: nat)
    requires i < |products|
    ensures products[i].id == order.productId ==>
      Restock(products, order, clock)[i].quantity == products[i].quantity + order.quantity
    ensures products[i].id != order.productId ==> Restock(products, order, clock)[i] == products[i]
  {
  }

  /** When no product has the referenced id, delivery changes no product. */
  lemma DeliveryOfMissingProduct(products: seq<Product>, order: Order, clock: Instant)
    requires forall k :: 0 <= k < |products| ==> products[k].id != order.productId
    ensures Restock(products, order, clock) == products
  {
  }

  lemma RestockKeepsStatusesDerived(products: seq<Product>, order: Order, clock: Instant)
    requires StatusesDerived(products)
    ensures StatusesDerived(Restock(products, order, clock))
  {
  }

  /** The status selector is offered only on orders neither delivered nor cancelled. */
  predicate StatusSelectable(o: Order) {
    o.status != Delivered && o.status != Cancelled
  }

  /**
   * Once an id has been delivered, no order with that id offers the selector
   * again, so through the page an order restocks at most once.
   */
  lemma DeliveredNotSelectable(orders: seq<Order>, id: string)
    ensures forall o :: o in SetOrderStatus(orders, id, Delivered) && o.id == id ==> !StatusSelectable(o)
  {
    var r := SetOrderStatus(orders, id, Delivered);
    forall o | o in r && o.id == id ensures !StatusSelectable(o) {
      var i :| 0 <= i < |r| && r[i] == o;
      assert orders[i].id == id;
    }
  }

  /**
   * An example of `StockStatus` and of the restock that `Restock` applies:
   * 15 units against a threshold of 50, then 200 delivered.
   */
  lemma RestockExample(p: Product, order: Order, clock: Instant)
    requires p.quantity == 15 && p.minStock == 50 && order.quantity == 200
    ensures StockStatus(p.quantity, p.minStock) == LowStock
    ensures Restocked(p, order.quantity, clock).quantity == 215
    ensures Restocked(p, order.quantity, clock).status == InStock
  {
  }

  // ---------------------------------------------------------------------
  // Derived views
  // ---------------------------------------------------------------------

  function InStockCount(products: seq<Product>): nat {
    Seqs.Count(products, (p: Product) => p.status == InStock)
  }

  function LowStockCount(products: seq<Product>): nat {
    Seqs.Count(products, (p: Product) => p.status == LowStock)
  }

  function OutOfStockCount(products: seq<Product>): nat {
    Seqs.Count(products, (p: Product) => p.status == OutOfStock)
  }

  /** The "pending orders" counter: orders pending or confirmed. */
  function OpenOrderCount(orders: seq<Order>): nat {
    Seqs.Count(orders, (o: Order) => o.status == Pending || o.status == Confirmed)
  }

  /** The orders the counter counts are exactly those that still offer the status selector. */
  lemma {:induction false} OpenOrdersSelectable(orders: seq<Order>)
    ensures OpenOrderCount(orders) == Seqs.Count(orders, StatusSelectable)
  {
    if orders != [] {
      OpenOrdersSelectable(orders[1..]);
    }
  }

  /** The three stock counters partition the catalogue. */
  lemma {:induction false} StockCountsPartition(products: seq<Product>)
    ensures InStockCount(products) + LowStockCount(products) + OutOfStockCount(products) == |products|
  {
    if products != [] {
      StockCountsPartition(products[1..]);
    }
  }

  predicate ProductMatches(p: Product, search: string, category: string, status: string) {
    (Matches(p.name, search) || Matches(p.supplier, search)) &&
    (category == "all" || p.category == category) &&
    (status == "all" || StatusName(p.status) == status)
  }

  /** `filteredProducts`: name or supplier search, category filter, status filter. */
  function FilteredProducts(products: seq<Product>, search: string, category: string, status: string): (r: seq<Product>)
    ensures forall p :: p in r <==> p in products && ProductMatches(p, search, category, status)
    ensures |r| <= |products|
    ensures forall p :: multiset(r)[p] == if ProductMatches(p, search, category, status) then multiset(products)[p] else 0
  {
    Seqs.FilterMultiset(products, (p: Product) => ProductMatches(p, search, category, status));
    Seqs.Filter(products, (p: Product) => ProductMatches(p, search, category, status))
  }

  // ---------------------------------------------------------------------
  // The page's state
  // ---------------------------------------------------------------------

  /** The `products` and `orders` state of the page. */
  class Store {
    var products: seq<Product>
    var orders: seq<Order>

    constructor (initialProducts: seq<Product>, initialOrders: seq<Order>)
      ensures products == initialProducts && orders == initialOrders
    {
      products := initialProducts;
      orders := initialOrders;
    }

    /** `handleProductSubmit`. */
    method SubmitProductForm(editing: Option<string>, form: ProductForm, clock: Instant)
      modifies this
      ensures products == SubmitProduct(old(products), editing, form, clock)
      ensures orders == old(orders)
    {
      products := SubmitProduct(products, editing, form, clock);
    }

    /** `handleDeleteProduct`: orders keep referring to the removed id. */
    method DeleteProductById(id: string)
      modifies this
      ensures products == DeleteProduct(old(products), id)
      ensures orders == old(orders)
    {
      products := DeleteProduct(products, id);
    }

    /** `handleOrderSubmit`. */
    method SubmitOrderForm(form: OrderForm, clock: Instant) returns (placed: bool)
      modifies this
      ensures placed <==> NewOrder(old(products), form, clock).Some?
      ensures orders == PlaceOrder(old(products), old(orders), form, clock)
      ensures products == old(products)
    {
      var o := NewOrder(products, form, clock);
      placed := o.Some?;
      if placed {
        orders := [o.value] + orders;
      }
    }

    /** `handleOrderStatusChange`: both lists change in one step. */
    method ChangeStatus(id: string, status: OrderStatus, clock: Instant)
      modifies this
      ensures (products, orders) == ChangeOrderStatus(old(products), old(orders), id, status, clock)
    {
      var r := ChangeOrderStatus(products, orders, id, status, clock);
      products, orders := r.0, r.1;
    }
  }
}
