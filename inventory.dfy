/**
 * The store behind the product and stock pages: table `produto` as a map
 * from product id to row, table `movimento` as an append-only log, and the
 * category table, which the pages only read.
 */
module Inventory {
  import opened Wrappers
  import opened Catalog
  import opened Ledger

  class Store {
    var products: map<ProductId, Product>
    var movements: seq<Movement>
    /** The id the next inserted product receives. */
    var nextId: ProductId
    const categories: map<CategoryId, string>
    /** The stock a new product starts with (the column default of `quantidade_em_estoque`). */
    const defaultStock: nat
    /**
     * Each product's stock before any recorded movement: the default stock
     * for an inserted product, and for a row of the initial database its
     * stock minus the net flow of the initial log.
     */
    ghost var start: map<ProductId, int>

    /**
     * Ids are below `nextId`; every movement names a product and has a
     * positive quantity; every stock, and the default, lies in
     * `[0, Int64Max]`; and the audit invariant:
     * each product's stock is its own starting stock plus the signed sum of
     * its movements.
     */
    ghost predicate Valid()
      reads this
    {
      && nextId >= 1
      && IdsBelow(products, nextId)
      && products.Keys == start.Keys
      && (forall m :: m in movements ==> m.product in products && m.quantity > 0)
      && defaultStock <= Int64Max
      && (forall id :: id in products ==> 0 <= products[id].stock <= Int64Max)
      && (forall id :: id in products ==> products[id].stock == start[id] + NetFlow(movements, id))
    }

    /**
     * Opens a database that the setup script has created and populated:
     * product rows with ids below `firstFreeId` and non-negative stock, and
     * a movement log over those products. Stored integers are within
     * SQLite's INTEGER range.
     */
    constructor (categories: map<CategoryId, string>, defaultStock: nat,
                 seed: map<ProductId, Product>, seedLog: seq<Movement>, firstFreeId: ProductId)
      requires firstFreeId >= 1 && IdsBelow(seed, firstFreeId)
      requires defaultStock <= Int64Max
      requires forall id :: id in seed ==> 0 <= seed[id].stock <= Int64Max
      requires forall m :: m in seedLog ==> m.product in seed && m.quantity > 0
      ensures Valid()
      ensures products == seed && movements == seedLog && nextId == firstFreeId
      ensures this.categories == categories && this.defaultStock == defaultStock
      ensures start == map id | id in seed :: seed[id].stock - NetFlow(seedLog, id)
    {
      products := seed;
      movements := seedLog;
      nextId := firstFreeId;
      this.categories := categories;
      this.defaultStock := defaultStock;
      start := map id | id in seed :: seed[id].stock - NetFlow(seedLog, id);
    }

    /**
     * Adds a product from the form; it starts at the default stock. A
     * missing name or category, or a field `int(...)` rejects, writes nothing.
     */
    method AddProduct(form: ProductForm) returns (r: Result<ProductId, FormError>)
      requires Valid()
      modifies this
      ensures Valid()
      ensures movements == old(movements)
      ensures ReadForm(form).Err? ==>
                && r == Err(ReadForm(form).error)
                && products == old(products) && nextId == old(nextId) && start == old(start)
      ensures ReadForm(form).Ok? ==>
                && r == Ok(old(nextId))
                && old(nextId) !in old(products)
                && products == old(products)[old(nextId) := NewProduct(ReadForm(form).value)]
                && nextId == old(nextId) + 1
                && start == old(start)[old(nextId) := defaultStock]
    {
      var fields := ReadForm(form);
      if fields.Err? {
        return Err(fields.error);
      }
      var id := nextId;
      NetFlowUnreferenced(movements, id);
      products := products[id := NewProduct(fields.value)];
      start := start[id := defaultStock];
      nextId := nextId + 1;
      r := Ok(id);
    }

    /** The row an insert writes: the given fields and the default stock. */
    function NewProduct(f: Fields): (p: Product)
      reads this
      ensures p.stock == defaultStock
    {
      Product(f.name, f.description, defaultStock, f.minimum, f.location, f.category)
    }

    /**
     * Rewrites name, description, minimum, location and category of product
     * `id`, keeping its stock. An id outside SQLite's INTEGER range cannot
     * be bound and changes nothing. As with an UPDATE that matches no row,
     * any other unknown id changes nothing and still reports success.
     */
    method EditProduct(id: ProductId, form: ProductForm) returns (r: Outcome<FormError>)
      requires Valid()
      modifies this
      ensures Valid()
      ensures movements == old(movements) && nextId == old(nextId) && start == old(start)
      ensures products.Keys == old(products).Keys
      ensures ReadForm(form).Err? ==> r == Fail(ReadForm(form).error) && products == old(products)
      ensures ReadForm(form).Ok? && !IsInt64(id) ==> r == Fail(NumberOutOfRange) && products == old(products)
      ensures ReadForm(form).Ok? && IsInt64(id) ==> r == Pass
      ensures ReadForm(form).Ok? && id !in old(products) ==> products == old(products)
      ensures ReadForm(form).Ok? && IsInt64(id) && id in old(products) ==>
                products == old(products)[id := Edited(old(products)[id], ReadForm(form).value)]
      ensures id in products ==> products[id].stock == old(products)[id].stock
    {
      var fields := ReadForm(form);
      if fields.Err? {
        return Fail(fields.error);
      }
      if !IsInt64(id) {
        return Fail(NumberOutOfRange);
      }
      if id in products {
        products := products[id := Edited(products[id], fields.value)];
      }
      r := Pass;
    }

    /**
     * Applies one stock movement for `user`. In order: a non-positive
     * quantity is refused, then an id SQLite cannot bind, then an unknown
     * product, then a withdrawal ("saida") larger than the stock, then an
     * entry whose new stock SQLite cannot bind (the transaction is rolled
     * back); a refusal changes nothing. Otherwise
     * the product's stock moves by the signed quantity, exactly one record
     * is appended, and a warning is raised iff the new stock is below the
     * minimum.
     */
    method ApplyMovement(id: ProductId, kind: string, quantity: int, user: UserId)
      returns (r: Result<Receipt, MoveError>)
      requires Valid()
      modifies this
      ensures Valid()
      ensures nextId == old(nextId) && products.Keys == old(products).Keys && start == old(start)
      ensures quantity <= 0 ==> r == Err(NonPositiveQuantity)
      ensures quantity > 0 && !IsInt64(id) ==> r == Err(OutOfRange)
      ensures quantity > 0 && IsInt64(id) && id !in old(products) ==> r == Err(ProductNotFound)
      ensures quantity > 0 && IsInt64(id) && id in old(products) && IsOutbound(kind) &&
              old(products)[id].stock < quantity ==>
                r == Err(InsufficientStock(old(products)[id].name, old(products)[id].stock))
      ensures quantity > 0 && IsInt64(id) && id in old(products) && !IsOutbound(kind) &&
              !IsInt64(old(products)[id].stock + quantity) ==>
                r == Err(OutOfRange)
      ensures r.Err? ==> products == old(products) && movements == old(movements)
      ensures r.Ok? <==>
                && quantity > 0 && IsInt64(id) && id in old(products)
                && (if IsOutbound(kind) then quantity <= old(products)[id].stock
                    else IsInt64(old(products)[id].stock + quantity))
      ensures r.Ok? ==>
                var m := Movement(kind, quantity, id, user);
                var before := old(products)[id];
                && r.value.stock == before.stock + Signed(m)
                && r.value.stock >= 0
                && products == old(products)[id := before.(stock := r.value.stock)]
                && movements == old(movements) + [m]
                && (r.value.warning.Some? <==> BelowMinimum(r.value.stock, before.minimum))
                && (r.value.warning.Some? ==> r.value.warning.value == LowStock(before.name, r.value.stock, before.minimum))
    {
      if quantity <= 0 {
        return Err(NonPositiveQuantity);
      }
      if !IsInt64(id) {
        return Err(OutOfRange);
      }
      if id !in products {
        return Err(ProductNotFound);
      }
      var product := products[id];
      var stock: int;
      if IsOutbound(kind) {
        if product.stock < quantity {
          return Err(InsufficientStock(product.name, product.stock));
        }
        stock := product.stock - quantity;
      } else {
        stock := product.stock + quantity;
        if !IsInt64(stock) {
          return Err(OutOfRange);
        }
      }
      var m := Movement(kind, quantity, id, user);
      forall other | other in products
        ensures NetFlow(movements + [m], other) == NetFlow(movements, other) + (if other == id then Signed(m) else 0)
      {
        NetFlowAppend(movements, m, other);
      }
      products := products[id := product.(stock := stock)];
      movements := movements + [m];
      var warning := None;
      if BelowMinimum(stock, product.minimum) {
        warning := Some(LowStock(product.name, stock, product.minimum));
      }
      r := Ok(Receipt(stock, warning));
    }
  }

  /** The edit writes every field but the stock. */
  function Edited(p: Product, f: Fields): (q: Product)
    ensures q.stock == p.stock
  {
    Product(f.name, f.description, p.stock, f.minimum, f.location, f.category)
  }

  /**
   * A client of the store: "Widget" with stock 10 and minimum 5; withdrawing 7
   * leaves 3 and warns; withdrawing 5 more is refused with 3 available.
   */
  method WidgetScenario(user: UserId)
  {
    var store := new Store(map[1 := "Ferramentas"], 0, map[], [], 1);
    var form := ProductForm("Widget", "1", None, Some("5"), None);
    var added := store.AddProduct(form);
    assert added == Ok(1);
    var entry := store.ApplyMovement(1, "entrada", 10, user);
    assert entry.Ok? && entry.value.stock == 10 && entry.value.warning == None;
    var out := store.ApplyMovement(1, "saida", 7, user);
    assert out.Ok? && out.value.stock == 3 && out.value.warning == Some(LowStock("Widget", 3, 5));
    var refused := store.ApplyMovement(1, "saida", 5, user);
    assert refused == Err(InsufficientStock("Widget", 3));
    assert store.products[1].stock == 3 && |store.movements| == 2;
  }

  /**
   * A client of a populated database: "Widget" was written by the setup
   * script with stock 10 and minimum 5 and has no movements; withdrawing 7
   * leaves 3 and warns.
   */
  method SeededScenario(user: UserId)
  {
    var widget := Product("Widget", "", 10, 5, "A1", 1);
    var store := new Store(map[1 := "Ferramentas"], 0, map[1 := widget], [], 2);
    var out := store.ApplyMovement(1, "saida", 7, user);
    assert out.Ok? && out.value.stock == 3 && out.value.warning == Some(LowStock("Widget", 3, 5));
    assert store.movements == [Movement("saida", 7, 1, user)];
  }

  /**
   * A client at the top of the integer range: an entry of 1 on a stock of
   * `Int64Max` cannot be written, and nothing changes.
   */
  method OverflowScenario(user: UserId)
  {
    var widget := Product("Widget", "", Int64Max, 5, "A1", 1);
    var store := new Store(map[1 := "Ferramentas"], 0, map[1 := widget], [], 2);
    var r := store.ApplyMovement(1, "entrada", 1, user);
    assert r == Err(OutOfRange);
    assert store.products[1].stock == Int64Max && store.movements == [];
  }
}
