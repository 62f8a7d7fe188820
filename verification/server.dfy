/**
 * The back end's order and product store (backend/server.py): the rules the
 * HTTP handlers apply to the products, orders and payment_transactions
 * collections.
 *
 * Each collection is a map from its key to its record. Products and orders
 * are keyed by their `id`; payment transactions by their Stripe session id,
 * which is how every handler looks them up. Money is in integer cents, so the
 * server's `round(x, 2)` is exact.
 *
 * Each handler is specified by a function on values (the `...Op` functions,
 * `Seeded`, `MarkPaid`, `Revenue`), and the `Store` class's methods are proved
 * to change its maps exactly as those functions say.
 */
module OrderStore {
  import opened Wrappers

  // ---------------------------------------------------------------- records

  datatype Ingredient = Ingredient(name: string, quantity: real, unit: string, unitCost: real, totalCost: real)

  /** A catalogue entry; `price` in cents. */
  datatype Product = Product(
    id: string, name: string, description: string, category: string, price: int,
    imageUrl: string, ingredients: seq<Ingredient>, foodCost: real, taxRate: real, isAvailable: bool)

  /** The fields a new product is built from; `price` in cents. */
  datatype ProductCreate = ProductCreate(
    name: string, description: string, category: string, price: int, imageUrl: string,
    ingredients: seq<Ingredient>, foodCost: real, isAvailable: bool)

  /** A partial update: `None` leaves the field as it is. */
  datatype ProductUpdate = ProductUpdate(
    name: Option<string>, description: Option<string>, category: Option<string>, price: Option<int>,
    imageUrl: Option<string>, ingredients: Option<seq<Ingredient>>, foodCost: Option<real>,
    isAvailable: Option<bool>)

  /** One line of an order; `price` in cents. */
  datatype CartItem = CartItem(productId: string, quantity: int, productName: string, price: int)

  /** The body of `POST /api/orders`. */
  datatype OrderCreate = OrderCreate(
    items: seq<CartItem>, customerName: string, customerEmail: string, customerPhone: string,
    pickupTime: string, notes: Option<string>)

  /** A stored order; `total` in cents. */
  datatype Order = Order(
    id: string, items: seq<CartItem>, customerName: string, customerEmail: string,
    customerPhone: string, pickupTime: string, notes: string, total: int, status: string,
    paymentMethod: Option<string>, paymentSessionId: Option<string>)

  /** A stored payment transaction; `amount` in cents. `customerEmail` is its metadata. */
  datatype PaymentTransaction = PaymentTransaction(
    orderId: string, sessionId: string, amount: int, currency: string, paymentMethod: string,
    status: string, customerEmail: string)

  /** The body of `POST /api/checkout/stripe`. */
  datatype CheckoutRequest = CheckoutRequest(orderId: string, originUrl: string, paymentMethod: string)

  /** What the server asks Stripe to create: amount in cents, return URLs and metadata. */
  datatype SessionRequest = SessionRequest(
    amount: int, currency: string, successUrl: string, cancelUrl: string,
    orderId: string, customerEmail: string)

  /** The checkout session Stripe hands back. */
  datatype StripeSession = StripeSession(sessionId: string, url: string)

  /** What Stripe reports about a checkout session; `amountTotal` in cents. */
  datatype StripeStatus = StripeStatus(status: string, paymentStatus: string, amountTotal: int, currency: string)

  /** An HTTP error response: status code and detail message. */
  datatype HttpError = HttpError(code: int, detail: string)

  /** The three collections. */
  datatype Db = Db(
    products: map<string, Product>, orders: map<string, Order>,
    transactions: map<string, PaymentTransaction>)

  datatype AdminStats = AdminStats(
    totalProducts: int, totalOrders: int, pendingOrders: int, paidOrders: int, totalRevenue: int)

  /** Every record is stored under its own key. */
  ghost predicate WellKeyed(db: Db)
  {
    && (forall id :: id in db.products ==> db.products[id].id == id)
    && (forall id :: id in db.orders ==> db.orders[id].id == id)
    && (forall sid :: sid in db.transactions ==> db.transactions[sid].sessionId == sid)
  }

  /**
   * Every session an order carries has its transaction, and that transaction
   * names the order back.
   */
  ghost predicate SessionsLinked(db: Db)
  {
    forall id :: id in db.orders && db.orders[id].paymentSessionId.Some? ==>
      && db.orders[id].paymentSessionId.value in db.transactions
      && db.transactions[db.orders[id].paymentSessionId.value].orderId == id
  }

  /** With the sessions linked, no two orders carry the same session. */
  lemma SessionOnOneOrder(db: Db, a: string, b: string)
    requires SessionsLinked(db)
    requires a in db.orders && b in db.orders && db.orders[a].paymentSessionId.Some?
    requires db.orders[a].paymentSessionId == db.orders[b].paymentSessionId
    ensures a == b
  {
  }

  // ------------------------------------------------------- initial products

  const DefaultTaxRate: real := 0.10

  /** A product as the `Product` model builds it from creation data and an id. */
  function NewProduct(id: string, data: ProductCreate): (p: Product)
    ensures p.id == id && p.taxRate == DefaultTaxRate
    ensures p.name == data.name && p.description == data.description && p.category == data.category
    ensures p.price == data.price && p.imageUrl == data.imageUrl && p.ingredients == data.ingredients
    ensures p.foodCost == data.foodCost && p.isAvailable == data.isAvailable
  {
    Product(id, data.name, data.description, data.category, data.price, data.imageUrl,
            data.ingredients, data.foodCost, DefaultTaxRate, data.isAvailable)
  }

  /** The fixed ids of the initial menu; these products cannot be deleted. */
  const InitialProductIds: seq<string> := [
    "prod-quinoa-bowl-001",
    "prod-alcachofa-002",
    "prod-poke-tofu-003",
    "prod-lentejas-004",
    "prod-wrap-lechuga-005",
    "prod-fideos-arroz-006",
    "prod-ensalada-pollo-007",
    "prod-avena-salada-008",
    "prod-mediterraneo-009"
  ]

  /** The initial menu, in the order of `InitialProductIds`; prices in cents. */
  const InitialProducts: seq<ProductCreate> := [
      ProductCreate(
        "Bowl de Quinoa",
        "Quinoa cocida con pechuga de pollo, espárragos verdes, habas, fresas, aguacate y vinagreta de albahaca",
        "bowls", 1300,
        "https://images.unsplash.com/photo-1546069901-ba9599a7e63c?w=800",
        [ Ingredient("Quinoa cocida", 60.0, "g", 0.051, 0.051),
          Ingredient("Pechuga de pollo", 120.0, "g", 0.1308, 0.1308),
          Ingredient("Espárragos verdes", 60.0, "g", 0.0659, 0.0659),
          Ingredient("Habas", 40.0, "g", 0.022, 0.022),
          Ingredient("Fresas", 60.0, "g", 0.03, 0.03),
          Ingredient("Aguacate", 50.0, "g", 0.0425, 0.0425),
          Ingredient("Vinagreta", 40.0, "ml", 0.02, 0.02) ],
        0.43, true),
      ProductCreate(
        "Ensalada de Alcachofa Fría",
        "Alcachofa confitada con guisantes, pera, nueces, queso de cabra y vinagreta",
        "ensaladas", 900,
        "https://images.unsplash.com/photo-1512621776951-a57141f2eefd?w=800",
        [ Ingredient("Alcachofa confitada", 120.0, "g", 0.0452, 0.0452),
          Ingredient("Guisantes", 50.0, "g", 0.05, 0.05),
          Ingredient("Pera", 60.0, "g", 0.024, 0.024),
          Ingredient("Nueces", 15.0, "g", 0.027, 0.027),
          Ingredient("Queso de cabra", 30.0, "g", 0.0747, 0.0747) ],
        0.3, true),
      ProductCreate(
        "Poke Bowl de Tofu",
        "Arroz integral con tofu marinado, espinacas frescas, zanahoria rallada, mango y sésamo",
        "bowls", 1100,
        "https://images.unsplash.com/photo-1604908176997-125f25cc6f3d?w=800",
        [ Ingredient("Arroz integral cocido", 90.0, "g", 0.0405, 0.0405),
          Ingredient("Tofu marinado", 90.0, "g", 0.108, 0.108),
          Ingredient("Espinacas frescas", 60.0, "g", 0.036, 0.036),
          Ingredient("Zanahoria rallada", 40.0, "g", 0.014, 0.014),
          Ingredient("Mango", 60.0, "g", 0.03, 0.03) ],
        0.29, true),
      ProductCreate(
        "Lentejas con Coliflor Asada",
        "Lentejas cocidas con coliflor asada, cebolla caramelizada y pimiento verde",
        "bowls", 900,
        "https://images.unsplash.com/photo-1543339308-43e59d6b73a6?w=800",
        [ Ingredient("Lentejas cocidas", 150.0, "g", 0.0525, 0.0525),
          Ingredient("Coliflor asada", 150.0, "g", 0.045, 0.045),
          Ingredient("Cebolla", 30.0, "g", 0.006, 0.006),
          Ingredient("Pimiento verde", 20.0, "g", 0.0056, 0.0056) ],
        0.18, true),
      ProductCreate(
        "Wrap de Lechuga",
        "Hojas de lechuga romana rellenas de zanahoria, aguacate, pepino y salsa de yogur",
        "wraps", 800,
        "https://images.unsplash.com/photo-1626700051175-6818013e1d4f?w=800",
        [ Ingredient("Lechuga romana", 40.0, "g", 0.01, 0.01),
          Ingredient("Zanahoria", 40.0, "g", 0.0044, 0.0044),
          Ingredient("Aguacate", 40.0, "g", 0.034, 0.034),
          Ingredient("Pepino", 40.0, "g", 0.013, 0.013),
          Ingredient("Salsa de yogur", 50.0, "ml", 0.0325, 0.0325) ],
        0.15, true),
      ProductCreate(
        "Bowl de Fideos de Arroz",
        "Fideos de arroz salteados con brotes de soja, calabacín, zanahoria y setas",
        "bowls", 1000,
        "https://images.unsplash.com/photo-1569718212165-3a8278d5f624?w=800",
        [ Ingredient("Fideos de arroz", 90.0, "g", 0.0895, 0.0895),
          Ingredient("Brotes de soja", 30.0, "g", 0.018, 0.018),
          Ingredient("Calabacín", 60.0, "g", 0.0179, 0.0179),
          Ingredient("Zanahoria", 40.0, "g", 0.0044, 0.0044),
          Ingredient("Setas", 60.0, "g", 0.0454, 0.0454) ],
        0.24, true),
      ProductCreate(
        "Ensalada Verde con Pollo",
        "Mix de espinacas con pechuga de pollo, patatas, almendras laminadas y vinagreta",
        "ensaladas", 1100,
        "https://images.unsplash.com/photo-1540420773420-3366772f4999?w=800",
        [ Ingredient("Pechuga de pollo", 120.0, "g", 0.1308, 0.1308),
          Ingredient("Espinacas", 50.0, "g", 0.03, 0.03),
          Ingredient("Patatas", 100.0, "g", 0.02, 0.02),
          Ingredient("Almendras laminadas", 15.0, "g", 0.03, 0.03) ],
        0.28, true),
      ProductCreate(
        "Tazón de Avena Salada",
        "Avena con berenjena asada, pimiento rojo, cebolla caramelizada y hummus",
        "bowls", 900,
        "https://images.unsplash.com/photo-1495214783159-3503fd1b572d?w=800",
        [ Ingredient("Avena", 80.0, "g", 0.028, 0.028),
          Ingredient("Berenjena", 60.0, "g", 0.0131, 0.0131),
          Ingredient("Pimiento rojo", 60.0, "g", 0.0179, 0.0179),
          Ingredient("Cebolla", 40.0, "g", 0.008, 0.008),
          Ingredient("Hummus", 50.0, "g", 0.0425, 0.0425) ],
        0.17, true),
      ProductCreate(
        "Bowl Mediterráneo",
        "Garbanzos con tomate, pepino, aceitunas, queso feta y orégano fresco",
        "bowls", 900,
        "https://images.unsplash.com/photo-1529059997568-3d847b1154f0?w=800",
        [ Ingredient("Garbanzos cocidos", 80.0, "g", 0.036, 0.036),
          Ingredient("Tomate", 60.0, "g", 0.024, 0.024),
          Ingredient("Pepino", 50.0, "g", 0.0163, 0.0163),
          Ingredient("Aceitunas", 15.0, "g", 0.0128, 0.0128),
          Ingredient("Queso feta", 30.0, "g", 0.0428, 0.0428) ],
        0.2, true)
  ]


  /** The `i`-th initial product, with its fixed id. */
  function InitialProduct(i: nat): (p: Product)
    requires i < |InitialProductIds|
    ensures p.id == InitialProductIds[i]
  {
    NewProduct(InitialProductIds[i], InitialProducts[i])
  }

  /** The initial products with their fixed ids, in seeding order. */
  function InitialSeeds(): (s: seq<Product>)
    ensures |s| == |InitialProductIds|
    ensures forall i :: 0 <= i < |s| ==> s[i] == InitialProduct(i)
  {
    seq(|InitialProductIds|, i requires 0 <= i < |InitialProductIds| => InitialProduct(i))
  }

  /** The ids of the initial products as a set. */
  function InitialIds(): set<string>
  {
    set i | 0 <= i < |InitialProductIds| :: InitialProductIds[i]
  }

  /** The ids of a sequence of products. */
  function IdsOf(seeds: seq<Product>): set<string>
  {
    set k | 0 <= k < |seeds| :: seeds[k].id
  }

  lemma InitialSeedIds()
    ensures IdsOf(InitialSeeds()) == InitialIds()
  {
    var seeds := InitialSeeds();
    assert forall i :: 0 <= i < |seeds| ==> seeds[i].id == InitialProductIds[i];
  }

  /**
   * The seeding loop over `seeds`: each product whose id is missing is
   * inserted under that id; products already present are left alone.
   */
  function SeedWith(products: map<string, Product>, seeds: seq<Product>): map<string, Product>
    decreases |seeds|
  {
    if seeds == [] then products
    else
      var p := seeds[0];
      SeedWith(if p.id in products then products else products[p.id := p], seeds[1..])
  }

  /** The ids of a non-empty sequence are its first id and those of its tail. */
  lemma IdsOfCons(seeds: seq<Product>)
    requires seeds != []
    ensures IdsOf(seeds) == {seeds[0].id} + IdsOf(seeds[1..])
  {
    assert forall k :: 1 <= k < |seeds| ==> seeds[k] == seeds[1..][k - 1];
    assert forall k :: 0 <= k < |seeds| - 1 ==> seeds[1..][k] == seeds[k + 1];
  }

  /**
   * Seeding adds exactly the seeds' ids, keeps every product already present,
   * and stores under each new id a seed with that id.
   */
  lemma {:induction false} SeedWithSpec(products: map<string, Product>, seeds: seq<Product>)
    ensures SeedWith(products, seeds).Keys == products.Keys + IdsOf(seeds)
    ensures forall id :: id in products ==> SeedWith(products, seeds)[id] == products[id]
    ensures forall id :: id in SeedWith(products, seeds) && id !in products ==>
              SeedWith(products, seeds)[id] in seeds && SeedWith(products, seeds)[id].id == id
    decreases |seeds|
  {
    if seeds != [] {
      var p := seeds[0];
      var next := if p.id in products then products else products[p.id := p];
      IdsOfCons(seeds);
      SeedWithSpec(next, seeds[1..]);
      assert forall x :: x in seeds[1..] ==> x in seeds;
    }
  }

  /** Seeding when every seed's id is present changes nothing. */
  lemma {:induction false} SeedingPresentIsNoOp(products: map<string, Product>, seeds: seq<Product>)
    requires IdsOf(seeds) <= products.Keys
    ensures SeedWith(products, seeds) == products
    decreases |seeds|
  {
    if seeds != [] {
      IdsOfCons(seeds);
      SeedingPresentIsNoOp(products, seeds[1..]);
    }
  }

  /** The product collection after the start-up seeding. */
  function Seeded(products: map<string, Product>): (r: map<string, Product>)
    ensures r.Keys == products.Keys + InitialIds()
    ensures forall id :: id in products ==> r[id] == products[id]
    ensures forall id :: id in r && id !in products ==> r[id] in InitialSeeds() && r[id].id == id
  {
    InitialSeedIds();
    SeedWithSpec(products, InitialSeeds());
    SeedWith(products, InitialSeeds())
  }

  /** Seeding keeps every product stored under its own id. */
  lemma SeededWellKeyed(db: Db)
    requires WellKeyed(db)
    ensures WellKeyed(db.(products := Seeded(db.products)))
  {
  }

  /** Seeding a second time inserts nothing. */
  lemma SeedingIdempotent(products: map<string, Product>)
    ensures Seeded(Seeded(products)) == Seeded(products)
  {
    InitialSeedIds();
    SeedingPresentIsNoOp(Seeded(products), InitialSeeds());
  }

  // ---------------------------------------------------------------- products

  /** The filter `GET /api/products` sends to the database. */
  datatype ProductQuery = ProductQuery(category: Option<string>, onlyAvailable: bool)

  /** A category filter is added only for a non-empty category. */
  function BuildQuery(category: Option<string>, availableOnly: bool): (q: ProductQuery)
    ensures q.category.Some? <==> category.Some? && category.value != ""
    ensures q.category.Some? ==> q.category == category
    ensures q.onlyAvailable == availableOnly
  {
    ProductQuery(if category.Some? && category.value != "" then category else None, availableOnly)
  }

  predicate Matches(p: Product, q: ProductQuery)
  {
    (q.category.Some? ==> p.category == q.category.value) && (q.onlyAvailable ==> p.isAvailable)
  }

  /** The products a query selects. */
  function Select(products: map<string, Product>, q: ProductQuery): (r: map<string, Product>)
    ensures forall id :: id in r <==> id in products && Matches(products[id], q)
    ensures forall id :: id in r ==> r[id] == products[id]
  {
    map id | id in products && Matches(products[id], q) :: products[id]
  }

  /** With no category and `available_only` off, every product is returned. */
  lemma UnfilteredQuerySelectsAll(products: map<string, Product>)
    ensures Select(products, BuildQuery(None, false)) == products
  {
  }

  /** The given value, or `d` when there is none. */
  function Or<T>(o: Option<T>, d: T): T
  {
    if o.Some? then o.value else d
  }

  /** `update_product`'s field-by-field merge: given fields overwrite, `None` keeps. */
  function ApplyUpdate(p: Product, u: ProductUpdate): (r: Product)
    ensures r.id == p.id && r.taxRate == p.taxRate
    ensures r.name == (if u.name.Some? then u.name.value else p.name)
    ensures r.description == (if u.description.Some? then u.description.value else p.description)
    ensures r.category == (if u.category.Some? then u.category.value else p.category)
    ensures r.price == (if u.price.Some? then u.price.value else p.price)
    ensures r.imageUrl == (if u.imageUrl.Some? then u.imageUrl.value else p.imageUrl)
    ensures r.ingredients == (if u.ingredients.Some? then u.ingredients.value else p.ingredients)
    ensures r.foodCost == (if u.foodCost.Some? then u.foodCost.value else p.foodCost)
    ensures r.isAvailable == (if u.isAvailable.Some? then u.isAvailable.value else p.isAvailable)
  {
    Product(p.id, Or(u.name, p.name), Or(u.description, p.description), Or(u.category, p.category),
            Or(u.price, p.price), Or(u.imageUrl, p.imageUrl), Or(u.ingredients, p.ingredients),
            Or(u.foodCost, p.foodCost), p.taxRate, Or(u.isAvailable, p.isAvailable))
  }

  /** The update with every field `None`. */
  const NoChange := ProductUpdate(None, None, None, None, None, None, None, None)

  /** An update with no fields changes nothing. */
  lemma EmptyUpdateIsIdentity(p: Product)
    ensures ApplyUpdate(p, NoChange) == p
  {
  }

  /** Applying the same update twice is applying it once. */
  lemma UpdateIdempotent(p: Product, u: ProductUpdate)
    ensures ApplyUpdate(ApplyUpdate(p, u), u) == ApplyUpdate(p, u)
  {
  }

  /** `PUT /api/products/{id}`: 404 for an unknown id, otherwise merge and return the result. */
  function UpdateProductOp(products: map<string, Product>, id: string, u: ProductUpdate)
    : (r: (map<string, Product>, Result<Product, HttpError>))
    ensures id !in products ==> r.0 == products && r.1 == Err(HttpError(404, "Product not found"))
    ensures id in products ==>
      && r.0 == products[id := ApplyUpdate(products[id], u)]
      && r.1 == Ok(ApplyUpdate(products[id], u))
  {
    if id !in products then (products, Err(HttpError(404, "Product not found")))
    else
      var updated := ApplyUpdate(products[id], u);
      (products[id := updated], Ok(updated))
  }

  const DeleteForbidden := "No se pueden eliminar los productos iniciales del menú. Solo puedes desactivarlos."

  /**
   * `DELETE /api/products/{id}`: the initial products are refused with 403
   * and nothing changes; an unknown id is 404; otherwise exactly that product
   * goes.
   */
  function DeleteProductOp(products: map<string, Product>, id: string)
    : (r: (map<string, Product>, Result<string, HttpError>))
    ensures id in InitialIds() ==> r.0 == products && r.1 == Err(HttpError(403, DeleteForbidden))
    ensures id !in InitialIds() && id !in products ==>
              r.0 == products && r.1 == Err(HttpError(404, "Product not found"))
    ensures id !in InitialIds() && id in products ==>
              r.0.Keys == products.Keys - {id} && r.1 == Ok("Product deleted successfully")
    ensures forall k :: k in r.0 ==> k in products && r.0[k] == products[k]
    ensures InitialIds() <= products.Keys ==> InitialIds() <= r.0.Keys
  {
    if id in InitialProductIds then (products, Err(HttpError(403, DeleteForbidden)))
    else if id !in products then (products, Err(HttpError(404, "Product not found")))
    else (products - {id}, Ok("Product deleted successfully"))
  }

  // ------------------------------------------------------------------ orders

  /**
   * Σ price × quantity over the items, in cents; items with non-negative
   * prices and quantities have a non-negative total.
   */
  function OrderTotal(items: seq<CartItem>): (t: int)
    ensures (forall i :: 0 <= i < |items| ==> items[i].price >= 0 && items[i].quantity >= 0) ==> t >= 0
  {
    if items == [] then 0
    else
      assert forall i :: 0 <= i < |items| - 1 ==> items[1..][i] == items[i + 1];
      items[0].price * items[0].quantity + OrderTotal(items[1..])
  }

  /** The total of a concatenation is the sum of the totals. */
  lemma {:induction false} OrderTotalAppend(a: seq<CartItem>, b: seq<CartItem>)
    ensures OrderTotal(a + b) == OrderTotal(a) + OrderTotal(b)
  {
    if a == [] {
      assert a + b == b;
    } else {
      assert (a + b)[0] == a[0] && (a + b)[1..] == a[1..] + b;
      OrderTotalAppend(a[1..], b);
    }
  }

  /** The order `POST /api/orders` stores for `data` under the fresh id `id`. */
  function NewOrder(id: string, data: OrderCreate): (o: Order)
    ensures o.id == id && o.items == data.items && o.status == "pending"
    ensures o.total == OrderTotal(data.items)
    ensures |data.items| == 1 && data.items[0].quantity == 1 ==> o.total == data.items[0].price
    ensures o.notes == (if data.notes.Some? then data.notes.value else "")
    ensures o.customerName == data.customerName && o.customerEmail == data.customerEmail
    ensures o.customerPhone == data.customerPhone && o.pickupTime == data.pickupTime
    ensures o.paymentMethod == None && o.paymentSessionId == None
  {
    Order(id, data.items, data.customerName, data.customerEmail, data.customerPhone,
          data.pickupTime, if data.notes.Some? then data.notes.value else "",
          OrderTotal(data.items), "pending", None, None)
  }

  /** The statuses an order may be set to. */
  const ValidStatuses: seq<string> := ["pending", "paid", "preparing", "ready", "completed", "cancelled"]

  const InvalidStatusDetail :=
    "Invalid status. Must be one of: ['pending', 'paid', 'preparing', 'ready', 'completed', 'cancelled']"

  /**
   * `PUT /api/orders/{id}/status`: an unknown status is refused (400) before
   * the store is looked at, an unknown id is 404, and otherwise only the
   * order's status changes.
   */
  function SetStatusOp(orders: map<string, Order>, id: string, status: string)
    : (r: (map<string, Order>, Result<string, HttpError>))
    ensures status !in ValidStatuses ==> r.0 == orders && r.1 == Err(HttpError(400, InvalidStatusDetail))
    ensures status in ValidStatuses && id !in orders ==>
              r.0 == orders && r.1 == Err(HttpError(404, "Order not found"))
    ensures status in ValidStatuses && id in orders ==>
              && r.0 == orders[id := orders[id].(status := status)]
              && r.1 == Ok("Order status updated to " + status)
    ensures r.1.Ok? <==> status in ValidStatuses && id in orders
  {
    if status !in ValidStatuses then (orders, Err(HttpError(400, InvalidStatusDetail)))
    else if id !in orders then (orders, Err(HttpError(404, "Order not found")))
    else (orders[id := orders[id].(status := status)], Ok("Order status updated to " + status))
  }

  // ---------------------------------------------------------------- payments

  /** Python's `s.rstrip('/')`: every trailing slash removed. */
  function RStripSlash(s: string): (r: string)
    ensures r <= s && (r == [] || r[|r| - 1] != '/')
    ensures forall i :: |r| <= i < |s| ==> s[i] == '/'
  {
    if s != [] && s[|s| - 1] == '/' then RStripSlash(s[..|s| - 1]) else s
  }

  /** Stripping is unaffected by one more trailing slash. */
  lemma RStripExtraSlash(s: string)
    ensures RStripSlash(s + "/") == RStripSlash(s)
  {
    assert (s + "/")[..|s + "/"| - 1] == s;
  }

  const SuccessPath := "/payment-success?session_id={CHECKOUT_SESSION_ID}"
  const CancelPath := "/checkout?order_id="

  /** `base` is `origin` without its trailing slashes. */
  predicate StrippedOrigin(base: string, origin: string)
  {
    && base <= origin
    && (base == [] || base[|base| - 1] != '/')
    && forall i :: |base| <= i < |origin| ==> origin[i] == '/'
  }

  /**
   * The return URL Stripe redirects to after payment: the origin without
   * trailing slashes, then the success page with the session-id placeholder
   * Stripe fills in.
   */
  function SuccessUrl(origin: string): (u: string)
    ensures |u| >= |SuccessPath| && u[|u| - |SuccessPath|..] == SuccessPath
    ensures StrippedOrigin(u[..|u| - |SuccessPath|], origin)
  {
    assert (RStripSlash(origin) + SuccessPath)[..|RStripSlash(origin)|] == RStripSlash(origin);
    RStripSlash(origin) + SuccessPath
  }

  /**
   * The URL Stripe sends the customer back to on cancel: the origin without
   * trailing slashes, then the checkout page with the order id.
   */
  function CancelUrl(origin: string, orderId: string): (u: string)
    ensures var tail := CancelPath + orderId;
      |u| >= |tail| && u[|u| - |tail|..] == tail && StrippedOrigin(u[..|u| - |tail|], origin)
  {
    assert (RStripSlash(origin) + (CancelPath + orderId))[..|RStripSlash(origin)|] == RStripSlash(origin);
    assert RStripSlash(origin) + CancelPath + orderId == RStripSlash(origin) + (CancelPath + orderId);
    RStripSlash(origin) + CancelPath + orderId
  }

  /** A trailing slash on the origin never doubles the separator. */
  lemma UrlsIgnoreTrailingSlash(origin: string, orderId: string)
    ensures SuccessUrl(origin + "/") == SuccessUrl(origin)
    ensures CancelUrl(origin + "/", orderId) == CancelUrl(origin, orderId)
  {
    RStripExtraSlash(origin);
  }

  /** The cancel URL ends with the order id right after `order_id=`, so the checkout page gets it back. */
  lemma CancelUrlCarriesOrderId(origin: string, orderId: string)
    ensures var u := CancelUrl(origin, orderId);
      |u| >= |CancelPath| + |orderId| && u[|u| - |orderId|..] == orderId
      && u[|u| - |orderId| - |CancelPath|..|u| - |orderId|] == CancelPath
  {
    var u := CancelUrl(origin, orderId);
    assert u == (RStripSlash(origin) + CancelPath) + orderId;
  }

  /** What `POST /api/checkout/stripe` sends to Stripe for an existing order. */
  function SessionRequestFor(req: CheckoutRequest, order: Order): (s: SessionRequest)
    ensures s.amount == order.total && s.currency == "eur" && s.orderId == req.orderId
    ensures s.successUrl == SuccessUrl(req.originUrl) && s.cancelUrl == CancelUrl(req.originUrl, req.orderId)
    ensures s.customerEmail == order.customerEmail
  {
    SessionRequest(order.total, "eur", SuccessUrl(req.originUrl), CancelUrl(req.originUrl, req.orderId),
                   req.orderId, order.customerEmail)
  }

  /**
   * The writes after Stripe created `session`: a pending transaction under the
   * session id, and the order now carrying that session and the method
   * "stripe".
   */
  function RecordSession(db: Db, req: CheckoutRequest, session: StripeSession): (r: Db)
    requires req.orderId in db.orders
    ensures r.products == db.products
    ensures r.transactions == db.transactions[session.sessionId := PaymentTransaction(
              req.orderId, session.sessionId, db.orders[req.orderId].total, "eur", "stripe", "pending",
              db.orders[req.orderId].customerEmail)]
    ensures r.orders == db.orders[req.orderId := db.orders[req.orderId].(
              paymentSessionId := Some(session.sessionId), paymentMethod := Some("stripe"))]
  {
    var order := db.orders[req.orderId];
    var tx := PaymentTransaction(req.orderId, session.sessionId, order.total, "eur", "stripe", "pending",
                                 order.customerEmail);
    Db(db.products,
       db.orders[req.orderId := order.(paymentSessionId := Some(session.sessionId), paymentMethod := Some("stripe"))],
       db.transactions[session.sessionId := tx])
  }

  /**
   * The paid-marking of `GET /api/checkout/status/{sid}` when Stripe reports
   * the session paid: if its transaction exists and is not yet paid, the
   * transaction and every order carrying the session become paid; otherwise
   * nothing changes.
   */
  function MarkPaid(db: Db, sid: string): (r: Db)
    ensures r.products == db.products
    ensures r.orders.Keys == db.orders.Keys && r.transactions.Keys == db.transactions.Keys
    ensures sid in db.transactions ==> r.transactions[sid].status == "paid"
    ensures sid in db.transactions && db.transactions[sid].status != "paid" ==>
              r.transactions[sid] == db.transactions[sid].(status := "paid")
    ensures sid !in db.transactions || db.transactions[sid].status == "paid" ==> r == db
    ensures sid in db.transactions && db.transactions[sid].status != "paid" ==>
              forall id :: id in db.orders && db.orders[id].paymentSessionId == Some(sid) ==>
                r.orders[id] == db.orders[id].(status := "paid")
    ensures forall id :: id in db.orders && db.orders[id].paymentSessionId != Some(sid) ==>
              r.orders[id] == db.orders[id]
    ensures forall k :: k in db.transactions && k != sid ==> r.transactions[k] == db.transactions[k]
  {
    if sid in db.transactions && db.transactions[sid].status != "paid" then
      Db(db.products,
         map id | id in db.orders ::
           if db.orders[id].paymentSessionId == Some(sid) then db.orders[id].(status := "paid") else db.orders[id],
         db.transactions[sid := db.transactions[sid].(status := "paid")])
    else db
  }

  /** A second report of the same paid session changes nothing. */
  lemma MarkPaidIdempotent(db: Db, sid: string)
    ensures MarkPaid(MarkPaid(db, sid), sid) == MarkPaid(db, sid)
  {
  }

  /**
   * After a Stripe checkout was recorded for an order, Stripe reporting that
   * session paid marks the order paid.
   */
  lemma PaidSessionPaysItsOrder(db: Db, req: CheckoutRequest, session: StripeSession)
    requires req.orderId in db.orders
    ensures var after := MarkPaid(RecordSession(db, req, session), session.sessionId);
      after.orders[req.orderId].status == "paid" && after.transactions[session.sessionId].status == "paid"
  {
  }

  // ------------------------------------------------------------------- stats

  /** Σ total over the orders with ids in `ids`, in cents. */
  ghost function SumTotals(orders: map<string, Order>, ids: set<string>): int
    requires ids <= orders.Keys
    decreases ids
  {
    if ids == {} then 0
    else
      var id :| id in ids;
      orders[id].total + SumTotals(orders, ids - {id})
  }

  /** Any member can be taken out of the sum first. */
  lemma {:induction false} SumTotalsRemove(orders: map<string, Order>, ids: set<string>, x: string)
    requires ids <= orders.Keys && x in ids
    ensures SumTotals(orders, ids) == orders[x].total + SumTotals(orders, ids - {x})
    decreases ids
  {
    var y :| y in ids && SumTotals(orders, ids) == orders[y].total + SumTotals(orders, ids - {y});
    if y != x {
      SumTotalsRemove(orders, ids - {y}, x);
      SumTotalsRemove(orders, ids - {x}, y);
      assert ids - {y} - {x} == ids - {x} - {y};
    }
  }

  /** The sum depends only on the totals of the orders summed over. */
  lemma {:induction false} SumTotalsSameTotals(a: map<string, Order>, b: map<string, Order>, ids: set<string>)
    requires ids <= a.Keys && ids <= b.Keys
    requires forall id :: id in ids ==> a[id].total == b[id].total
    ensures SumTotals(a, ids) == SumTotals(b, ids)
    decreases ids
  {
    if ids != {} {
      var x :| x in ids;
      SumTotalsRemove(a, ids, x);
      SumTotalsRemove(b, ids, x);
      SumTotalsSameTotals(a, b, ids - {x});
    }
  }

  /** The sum is never negative when no total summed over is. */
  lemma {:induction false} SumTotalsNonNegative(orders: map<string, Order>, ids: set<string>)
    requires ids <= orders.Keys
    requires forall id :: id in ids ==> orders[id].total >= 0
    ensures SumTotals(orders, ids) >= 0
    decreases ids
  {
    if ids != {} {
      var x :| x in ids;
      SumTotalsRemove(orders, ids, x);
      SumTotalsNonNegative(orders, ids - {x});
    }
  }

  /** An order counts towards revenue when it is paid or completed. */
  predicate Earns(o: Order)
  {
    o.status == "paid" || o.status == "completed"
  }

  ghost function RevenueIds(orders: map<string, Order>): set<string>
  {
    set id | id in orders && Earns(orders[id])
  }

  /**
   * The admin dashboard's revenue: Σ total over the paid and completed
   * orders; an order store without negative totals has non-negative revenue.
   */
  ghost function Revenue(orders: map<string, Order>): (revenue: int)
    ensures (forall id :: id in orders ==> orders[id].total >= 0) ==> revenue >= 0
  {
    var revenue := SumTotals(orders, RevenueIds(orders));
    assert (forall id :: id in orders ==> orders[id].total >= 0) ==> revenue >= 0 by {
      if forall id :: id in orders ==> orders[id].total >= 0 {
        SumTotalsNonNegative(orders, RevenueIds(orders));
      }
    }
    revenue
  }

  /** Counting one more order adds its total to the revenue exactly when it earns. */
  lemma RevenueStep(orders: map<string, Order>, done: set<string>, id: string)
    requires done <= orders.Keys && id in orders && id !in done
    ensures SumTotals(orders, RevenueIds(orders) * (done + {id}))
            == SumTotals(orders, RevenueIds(orders) * done) + (if Earns(orders[id]) then orders[id].total else 0)
  {
    var earned := RevenueIds(orders) * (done + {id});
    if Earns(orders[id]) {
      SumTotalsRemove(orders, earned, id);
      assert earned - {id} == RevenueIds(orders) * done;
    } else {
      assert earned == RevenueIds(orders) * done;
    }
  }

  /** Setting an order that did not earn to paid adds exactly its total to the revenue. */
  lemma RevenueGainsPaidOrder(orders: map<string, Order>, id: string)
    requires id in orders && !Earns(orders[id])
    ensures Revenue(SetStatusOp(orders, id, "paid").0) == Revenue(orders) + orders[id].total
  {
    var after := SetStatusOp(orders, id, "paid").0;
    assert RevenueIds(after) == RevenueIds(orders) + {id};
    SumTotalsRemove(after, RevenueIds(after), id);
    assert RevenueIds(after) - {id} == RevenueIds(orders);
    SumTotalsSameTotals(after, orders, RevenueIds(orders));
  }

  /** Changing the status of an order that neither earned before nor earns after leaves the revenue unchanged. */
  lemma RevenueIgnoresOtherStatuses(orders: map<string, Order>, id: string, status: string)
    requires id in orders && !Earns(orders[id]) && status != "paid" && status != "completed"
    ensures Revenue(SetStatusOp(orders, id, status).0) == Revenue(orders)
  {
    var after := SetStatusOp(orders, id, status).0;
    assert RevenueIds(after) == RevenueIds(orders);
    SumTotalsSameTotals(after, orders, RevenueIds(orders));
  }

  /** Recording a fresh session keeps every record under its key and the sessions linked. */
  lemma RecordSessionKeepsLinks(db: Db, req: CheckoutRequest, session: StripeSession)
    requires WellKeyed(db) && SessionsLinked(db)
    requires req.orderId in db.orders && session.sessionId !in db.transactions
    ensures WellKeyed(RecordSession(db, req, session)) && SessionsLinked(RecordSession(db, req, session))
  {
  }

  /** Marking a session paid keeps every record under its key and the sessions linked. */
  lemma MarkPaidKeepsLinks(db: Db, sid: string)
    requires WellKeyed(db) && SessionsLinked(db)
    ensures WellKeyed(MarkPaid(db, sid)) && SessionsLinked(MarkPaid(db, sid))
  {
  }

  /**
   * With the sessions linked, marking a session paid changes at most one
   * order, the one its transaction names, as `update_one` would.
   */
  lemma MarkPaidChangesOneOrder(db: Db, sid: string)
    requires SessionsLinked(db)
    ensures forall id :: id in db.orders && MarkPaid(db, sid).orders[id] != db.orders[id] ==>
              sid in db.transactions && id == db.transactions[sid].orderId
  {
  }

  // ------------------------------------------------------------------ store

  /** The database, as the handlers see it. */
  class Store {
    var products: map<string, Product>
    var orders: map<string, Order>
    var transactions: map<string, PaymentTransaction>

    /** The three collections as a value. */
    function State(): Db
      reads this
    {
      Db(products, orders, transactions)
    }

    /** Every record under its key, and every order's session linked to its transaction. */
    ghost predicate Valid()
      reads this
    {
      WellKeyed(State()) && SessionsLinked(State())
    }

    constructor ()
      ensures Valid() && products == map[] && orders == map[] && transactions == map[]
    {
      products, orders, transactions := map[], map[], map[];
    }

    /** The start-up seeding: every missing initial product is inserted under its fixed id. */
    method Startup()
      requires Valid()
      modifies this
      ensures Valid()
      ensures products == Seeded(old(products))
      ensures orders == old(orders) && transactions == old(transactions)
    {
      SeededWellKeyed(State());
      SeedProducts(InitialSeeds());
    }

    /**
     * The loop of the start-up seeding over `seeds`, in order: a seed whose id
     * is not yet a product's is inserted under that id.
     */
    method SeedProducts(seeds: seq<Product>)
      modifies this
      ensures products == SeedWith(old(products), seeds)
      ensures orders == old(orders) && transactions == old(transactions)
    {
      var idx := 0;
      while idx < |seeds|
        invariant 0 <= idx <= |seeds|
        invariant SeedWith(products, seeds[idx..]) == SeedWith(old(products), seeds)
        invariant orders == old(orders) && transactions == old(transactions)
      {
        var seed := seeds[idx];
        assert seeds[idx..][1..] == seeds[idx + 1..];
        if seed.id !in products {
          products := products[seed.id := seed];
        }
        idx := idx + 1;
      }
      assert seeds[idx..] == [];
    }

    /**
     * `GET /api/products`. The endpoint's default for `available_only` is
     * true; a caller that omits it, like the menu page, passes `true` here.
     */
    method GetProducts(category: Option<string>, availableOnly: bool) returns (r: map<string, Product>)
      ensures r == Select(products, BuildQuery(category, availableOnly))
    {
      var q := BuildQuery(category, availableOnly);
      r := map id | id in products && Matches(products[id], q) :: products[id];
    }

    /** `PUT /api/products/{id}`. */
    method UpdateProduct(id: string, u: ProductUpdate) returns (r: Result<Product, HttpError>)
      requires Valid()
      modifies this
      ensures Valid()
      ensures (products, r) == UpdateProductOp(old(products), id, u)
      ensures orders == old(orders) && transactions == old(transactions)
    {
      if id !in products {
        return Err(HttpError(404, "Product not found"));
      }
      var updated := ApplyUpdate(products[id], u);
      if u != NoChange {
        products := products[id := updated];
      } else {
        EmptyUpdateIsIdentity(products[id]);
        assert products[id := updated] == products;
      }
      r := Ok(updated);
    }

    /** `DELETE /api/products/{id}`. */
    method DeleteProduct(id: string) returns (r: Result<string, HttpError>)
      requires Valid()
      modifies this
      ensures Valid()
      ensures (products, r) == DeleteProductOp(old(products), id)
      ensures orders == old(orders) && transactions == old(transactions)
    {
      if id in InitialProductIds {
        return Err(HttpError(403, DeleteForbidden));
      }
      if id !in products {
        return Err(HttpError(404, "Product not found"));
      }
      products := products - {id};
      r := Ok("Product deleted successfully");
    }

    /** `POST /api/orders`; `id` is the fresh identifier the server generates. */
    method CreateOrder(id: string, data: OrderCreate) returns (o: Order)
      requires Valid() && id !in orders
      modifies this
      ensures Valid()
      ensures o == NewOrder(id, data) && orders == old(orders)[id := o]
      ensures products == old(products) && transactions == old(transactions)
    {
      o := NewOrder(id, data);
      orders := orders[id := o];
    }

    /** `PUT /api/orders/{id}/status`. */
    method UpdateOrderStatus(id: string, status: string) returns (r: Result<string, HttpError>)
      requires Valid()
      modifies this
      ensures Valid()
      ensures (orders, r) == SetStatusOp(old(orders), id, status)
      ensures products == old(products) && transactions == old(transactions)
    {
      if status !in ValidStatuses {
        return Err(HttpError(400, InvalidStatusDetail));
      }
      if id !in orders {
        return Err(HttpError(404, "Order not found"));
      }
      orders := orders[id := orders[id].(status := status)];
      r := Ok("Order status updated to " + status);
    }

    /**
     * `POST /api/checkout/stripe`. `stripe` is Stripe's answer to the session
     * request (a session, or the failure that aborts the handler with 500);
     * `sent` is the request made to Stripe, if any.
     */
    method CreateStripeCheckout(req: CheckoutRequest, stripe: Result<StripeSession, string>)
      returns (r: Result<StripeSession, HttpError>, sent: Option<SessionRequest>)
      requires Valid()
      requires stripe.Ok? ==> stripe.value.sessionId !in transactions
      modifies this
      ensures Valid()
      ensures req.orderId !in old(orders) ==>
                r == Err(HttpError(404, "Order not found")) && sent == None && State() == old(State())
      ensures req.orderId in old(orders) ==> sent == Some(SessionRequestFor(req, old(orders)[req.orderId]))
      ensures req.orderId in old(orders) && stripe.Err? ==>
                r == Err(HttpError(500, "Internal Server Error")) && State() == old(State())
      ensures req.orderId in old(orders) && stripe.Ok? ==>
                r == Ok(stripe.value) && State() == RecordSession(old(State()), req, stripe.value)
    {
      if req.orderId !in orders {
        return Err(HttpError(404, "Order not found")), None;
      }
      var order := orders[req.orderId];
      sent := Some(SessionRequestFor(req, order));
      if stripe.Err? {
        return Err(HttpError(500, "Internal Server Error")), sent;
      }
      var session := stripe.value;
      RecordSessionKeepsLinks(State(), req, session);
      transactions := transactions[session.sessionId := PaymentTransaction(
        req.orderId, session.sessionId, order.total, "eur", "stripe", "pending", order.customerEmail)];
      orders := orders[req.orderId := order.(paymentSessionId := Some(session.sessionId),
                                             paymentMethod := Some("stripe"))];
      r := Ok(session);
    }

    /**
     * `GET /api/checkout/status/{sid}`. `stripe` is Stripe's report on the
     * session, or the failure that turns into a 400.
     */
    method GetCheckoutStatus(sid: string, stripe: Result<StripeStatus, string>)
      returns (r: Result<StripeStatus, HttpError>)
      requires Valid()
      modifies this
      ensures Valid()
      ensures stripe.Err? ==> r == Err(HttpError(400, stripe.error)) && State() == old(State())
      ensures stripe.Ok? ==> r == Ok(stripe.value)
      ensures stripe.Ok? && stripe.value.paymentStatus == "paid" ==> State() == MarkPaid(old(State()), sid)
      ensures stripe.Ok? && stripe.value.paymentStatus != "paid" ==> State() == old(State())
    {
      if stripe.Err? {
        return Err(HttpError(400, stripe.error));
      }
      if stripe.value.paymentStatus == "paid" {
        MarkPaidKeepsLinks(State(), sid);
        if sid in transactions && transactions[sid].status != "paid" {
          transactions := transactions[sid := transactions[sid].(status := "paid")];
          orders := map id | id in orders ::
            if orders[id].paymentSessionId == Some(sid) then orders[id].(status := "paid") else orders[id];
        }
      }
      r := Ok(stripe.value);
    }

    /** `GET /api/admin/stats`. */
    method GetAdminStats() returns (stats: AdminStats)
      ensures stats.totalProducts == |products| && stats.totalOrders == |orders|
      ensures stats.pendingOrders == |set id | id in orders && orders[id].status == "pending"|
      ensures stats.paidOrders == |set id | id in orders && orders[id].status == "paid"|
      ensures stats.totalRevenue == Revenue(orders)
    {
      var revenue := 0;
      var rest := orders.Keys;
      ghost var done: set<string> := {};
      while rest != {}
        invariant rest <= orders.Keys && done == orders.Keys - rest
        invariant revenue == SumTotals(orders, RevenueIds(orders) * done)
        decreases rest
      {
        var id :| id in rest;
        RevenueStep(orders, done, id);
        if Earns(orders[id]) {
          revenue := revenue + orders[id].total;
        }
        rest := rest - {id};
        done := done + {id};
      }
      assert RevenueIds(orders) * done == RevenueIds(orders);
      stats := AdminStats(|products|, |orders|,
                          |set id | id in orders && orders[id].status == "pending"|,
                          |set id | id in orders && orders[id].status == "paid"|,
                          revenue);
    }
  }
}
