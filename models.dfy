/**
  inventory/models.py: the six tables of InventoryX, their column constraints as
  the PostgreSQL backend enforces them, the derived totals, `Product.__str__`,
  row creation with the field defaults, and the CASCADE/PROTECT delete rules.

  A table is its rows in insertion order plus the next value of its id sequence
  (ids are never reused, as with a PostgreSQL sequence). All operations are
  functions from a store to a new store or an error.
 */
module Models {
  import opened Wrappers
  import opened Seqs

  // ---------------------------------------------------------------------------
  // Column types
  // ---------------------------------------------------------------------------

  const MinInt32: int := -0x8000_0000
  const MaxInt32: int := 0x7FFF_FFFF

  /** `IntegerField`: a PostgreSQL `integer`. */
  predicate FitsInteger(v: int)
  {
    MinInt32 <= v <= MaxInt32
  }

  /** `PositiveIntegerField`: an `integer` with a `CHECK (v >= 0)` constraint. */
  predicate FitsPositiveInteger(v: int)
  {
    0 <= v <= MaxInt32
  }

  /**
    The value a `varchar(n)` column stores. PostgreSQL cuts an over-long value to
    `n` characters when every character past the `n`-th is a space, and rejects
    it otherwise.
   */
  function Varchar(v: string, n: nat): (r: Option<string>)
    ensures r.Some? <==> forall i :: n <= i < |v| ==> v[i] == ' '
    ensures r.Some? ==> r.value <= v && |r.value| == if |v| <= n then |v| else n
    ensures |v| <= n ==> r == Some(v)
  {
    if |v| <= n then Some(v)
    else if forall i :: n <= i < |v| ==> v[i] == ' ' then Some(v[..n])
    else None
  }

  lemma VarcharExamples()
    ensures Varchar("ab", 2) == Some("ab")
    ensures Varchar("ab  ", 2) == Some("ab")
    ensures Varchar("ab c", 2) == None
  {
    assert "ab  "[..2] == "ab";
    assert "ab c"[3] != ' ';
  }

  /** The errors the database layer raises. */
  datatype DbError =
    | DataError          // a value too long for its varchar, or an integer out of range
    | IntegrityError     // a CHECK, UNIQUE or FOREIGN KEY constraint fails
    | ProtectedError     // a delete blocked by an `on_delete=PROTECT` reference
    | DoesNotExist       // `.get(...)` or a delete finds no row

  // ---------------------------------------------------------------------------
  // Rows (created_at/updated_at of TimeStampedModel are not modelled)
  // ---------------------------------------------------------------------------

  datatype Product = Product(id: nat, name: string, sku: string, priceCents: int, isActive: bool)

  datatype InventoryEntry = InventoryEntry(id: nat, product: nat, delta: int, note: string)

  datatype Customer = Customer(id: nat, email: string, fullName: string)

  datatype Status = Pending | Paid | Cancelled

  datatype Order = Order(id: nat, customer: nat, status: Status)

  datatype OrderItem = OrderItem(id: nat, order: nat, product: nat, quantity: int, unitPriceCents: int)

  /** `payload` is a JSON object; the writers in this code base store integers only. */
  datatype AnalyticsEvent = AnalyticsEvent(id: nat, order: Option<nat>, kind: string, payload: map<string, int>)

  /** The stored value of a status (the `choices` of `Order.status`). */
  function StatusName(st: Status): (name: string)
    ensures name in {"PENDING", "PAID", "CANCELLED"} && |name| <= 20
  {
    match st
    case Pending => "PENDING"
    case Paid => "PAID"
    case Cancelled => "CANCELLED"
  }

  /** Distinct statuses are stored as distinct strings. */
  lemma StatusNameInjective(a: Status, b: Status)
    requires StatusName(a) == StatusName(b)
    ensures a == b
  {
  }

  const DefaultStatus: Status := Pending

  function ProductId(p: Product): nat { p.id }
  function ProductSku(p: Product): string { p.sku }
  function EntryId(e: InventoryEntry): nat { e.id }
  function CustomerId(c: Customer): nat { c.id }
  function CustomerEmail(c: Customer): string { c.email }
  function OrderId(o: Order): nat { o.id }
  function ItemId(it: OrderItem): nat { it.id }
  function EventId(ev: AnalyticsEvent): nat { ev.id }

  // ---------------------------------------------------------------------------
  // Tables and the store
  // ---------------------------------------------------------------------------

  datatype Table<T> = Table(rows: seq<T>, nextId: nat)

  const EmptyTableNextId: nat := 1

  /** Row `row` added under the next id of the sequence. */
  function Append<T>(t: Table<T>, row: T): (r: Table<T>)
    ensures r.rows == t.rows + [row] && r.nextId == t.nextId + 1
  {
    Table(t.rows + [row], t.nextId + 1)
  }

  /** Ids are unique, positive and below the sequence's next value. */
  ghost predicate IdsOk<T>(t: Table<T>, idOf: T -> nat)
  {
    && UniqueBy(t.rows, idOf)
    && (forall i :: 0 <= i < |t.rows| ==> 1 <= idOf(t.rows[i]) < t.nextId)
  }

  lemma AppendKeepsIds<T>(t: Table<T>, row: T, idOf: T -> nat)
    requires IdsOk(t, idOf) && idOf(row) == t.nextId && t.nextId >= 1
    ensures IdsOk(Append(t, row), idOf)
  {
    forall y | y in t.rows ensures idOf(y) != idOf(row) {
      var i :| 0 <= i < |t.rows| && t.rows[i] == y;
    }
    UniqueByAppend(t.rows, row, idOf);
  }

  lemma FilterKeepsIds<T>(t: Table<T>, p: T -> bool, idOf: T -> nat)
    requires IdsOk(t, idOf)
    ensures IdsOk(Table(Filter(t.rows, p), t.nextId), idOf)
  {
    FilterUniqueBy(t.rows, p, idOf);
    FilterMembers(t.rows, p);
    forall i | 0 <= i < |Filter(t.rows, p)| ensures 1 <= idOf(Filter(t.rows, p)[i]) < t.nextId {
      var k :| 0 <= k < |t.rows| && t.rows[k] == Filter(t.rows, p)[i];
    }
  }

  datatype Store = Store(
    products: Table<Product>,
    entries: Table<InventoryEntry>,
    customers: Table<Customer>,
    orders: Table<Order>,
    items: Table<OrderItem>,
    events: Table<AnalyticsEvent>)

  const EmptyStore: Store := Store(
    Table([], EmptyTableNextId), Table([], EmptyTableNextId), Table([], EmptyTableNextId),
    Table([], EmptyTableNextId), Table([], EmptyTableNextId), Table([], EmptyTableNextId))

  function ProductIds(s: Store): set<nat> { set p | p in s.products.rows :: p.id }
  function CustomerIds(s: Store): set<nat> { set c | c in s.customers.rows :: c.id }
  function OrderIds(s: Store): set<nat> { set o | o in s.orders.rows :: o.id }

  /** The column limits of each row (max_length, integer ranges, PositiveIntegerField checks). */
  predicate ProductOk(p: Product) { |p.name| <= 200 && |p.sku| <= 64 && FitsPositiveInteger(p.priceCents) }
  predicate EntryOk(e: InventoryEntry) { FitsInteger(e.delta) && |e.note| <= 255 }
  predicate CustomerOk(c: Customer) { |c.email| <= 254 && |c.fullName| <= 200 }
  predicate ItemOk(it: OrderItem) { FitsPositiveInteger(it.quantity) && FitsPositiveInteger(it.unitPriceCents) }
  predicate EventOk(ev: AnalyticsEvent) { |ev.kind| <= 50 }

  ghost predicate TablesOk(s: Store)
  {
    && s.products.nextId >= 1 && s.entries.nextId >= 1 && s.customers.nextId >= 1
    && s.orders.nextId >= 1 && s.items.nextId >= 1 && s.events.nextId >= 1
    && IdsOk(s.products, ProductId) && IdsOk(s.entries, EntryId) && IdsOk(s.customers, CustomerId)
    && IdsOk(s.orders, OrderId) && IdsOk(s.items, ItemId) && IdsOk(s.events, EventId)
  }

  /** `sku` and `email` are `unique=True`. */
  ghost predicate UniqueOk(s: Store)
  {
    UniqueBy(s.products.rows, ProductSku) && UniqueBy(s.customers.rows, CustomerEmail)
  }

  predicate RowsOk(s: Store)
  {
    && (forall p :: p in s.products.rows ==> ProductOk(p))
    && (forall e :: e in s.entries.rows ==> EntryOk(e))
    && (forall c :: c in s.customers.rows ==> CustomerOk(c))
    && (forall it :: it in s.items.rows ==> ItemOk(it))
    && (forall ev :: ev in s.events.rows ==> EventOk(ev))
  }

  /** Every foreign key names an existing row (`AnalyticsEvent.order` may be NULL). */
  predicate RefsOk(s: Store)
  {
    && (forall e :: e in s.entries.rows ==> e.product in ProductIds(s))
    && (forall o :: o in s.orders.rows ==> o.customer in CustomerIds(s))
    && (forall it :: it in s.items.rows ==> it.order in OrderIds(s) && it.product in ProductIds(s))
    && (forall ev :: ev in s.events.rows ==> ev.order.Some? ==> ev.order.value in OrderIds(s))
  }

  /** Everything the database guarantees about a committed state. */
  ghost predicate Valid(s: Store)
  {
    TablesOk(s) && UniqueOk(s) && RowsOk(s) && RefsOk(s)
  }

  lemma EmptyStoreValid()
    ensures Valid(EmptyStore)
  {
  }

  // ---------------------------------------------------------------------------
  // Derived values
  // ---------------------------------------------------------------------------

  /** `OrderItem.total_cents` */
  function ItemTotal(it: OrderItem): int
  {
    it.quantity * it.unitPriceCents
  }

  /** Quantity 3 at 200 cents is 600 cents. */
  lemma ItemTotalExample(it: OrderItem)
    requires it.quantity == 3 && it.unitPriceCents == 200
    ensures ItemTotal(it) == 600
  {
  }

  lemma ItemTotalNonNegative(it: OrderItem)
    requires ItemOk(it)
    ensures ItemTotal(it) >= 0
    ensures it.quantity >= 1 ==> ItemTotal(it) >= it.unitPriceCents
  {
  }

  function ItemOf(orderId: nat): OrderItem -> bool
  {
    (it: OrderItem) => it.order == orderId
  }

  /** `order.items.all()`, in table order. */
  function ItemsOf(items: seq<OrderItem>, orderId: nat): (r: seq<OrderItem>)
  {
    Filter(items, ItemOf(orderId))
  }

  /** `Order.total_cents`: the sum of the totals of the order's items. */
  function OrderTotal(items: seq<OrderItem>, orderId: nat): int
  {
    SumOf(ItemsOf(items, orderId), ItemTotal)
  }

  /** An order without items totals 0. */
  lemma {:induction false} OrderTotalNoItems(items: seq<OrderItem>, orderId: nat)
    requires forall it :: it in items ==> it.order != orderId
    ensures OrderTotal(items, orderId) == 0
  {
    if items != [] {
      OrderTotalNoItems(items[1..], orderId);
      assert ItemsOf(items, orderId) == ItemsOf(items[1..], orderId);
    }
  }

  /** Adding an item adds its total to its own order and leaves every other order's total alone. */
  lemma OrderTotalAppend(items: seq<OrderItem>, it: OrderItem, orderId: nat)
    ensures OrderTotal(items + [it], orderId) ==
            OrderTotal(items, orderId) + (if it.order == orderId then ItemTotal(it) else 0)
  {
    FilterAppend(items, [it], ItemOf(orderId));
    SumOfAppend(ItemsOf(items, orderId), ItemsOf([it], orderId), ItemTotal);
  }

  /** With valid items the total is never negative. */
  lemma OrderTotalNonNegative(items: seq<OrderItem>, orderId: nat)
    requires forall it :: it in items ==> ItemOk(it)
    ensures OrderTotal(items, orderId) >= 0
  {
    FilterMembers(items, ItemOf(orderId));
    forall it | it in ItemsOf(items, orderId) ensures ItemTotal(it) >= 0 {
      ItemTotalNonNegative(it);
    }
    SumOfNonNegative(ItemsOf(items, orderId), ItemTotal);
  }

  /** One item of quantity 2 at 500 cents: the order totals 1000. */
  lemma OrderTotalExample(it: OrderItem)
    requires it.order == 7 && it.quantity == 2 && it.unitPriceCents == 500
    ensures OrderTotal([it], 7) == 1000
    ensures OrderTotal([it], 8) == 0
  {
    OrderTotalAppend([], it, 7);
    OrderTotalAppend([], it, 8);
    assert [] + [it] == [it];
  }

  /** `Product.__str__` */
  function ProductStr(p: Product): (r: string)
    ensures |r| == |p.sku| + 3 + |p.name|
    ensures r[..|p.sku|] == p.sku && r[|p.sku|..|p.sku| + 3] == " - " && r[|p.sku| + 3..] == p.name
  {
    p.sku + " - " + p.name
  }

  lemma ProductStrExample()
    ensures ProductStr(Product(1, "Wireless Mouse", "WM-001", 800, true)) == "WM-001 - Wireless Mouse"
  {
  }

  // ---------------------------------------------------------------------------
  // Lookups
  // ---------------------------------------------------------------------------

  /** The position of the first row meeting `p`, if any. */
  function FindIndex<T>(rows: seq<T>, p: T -> bool): (r: Option<nat>)
    ensures r.None? <==> forall i :: 0 <= i < |rows| ==> !p(rows[i])
    ensures r.Some? ==> r.value < |rows| && p(rows[r.value]) && forall j :: 0 <= j < r.value ==> !p(rows[j])
  {
    if rows == [] then None
    else if p(rows[0]) then Some(0)
    else
      var r := FindIndex(rows[1..], p);
      assert forall i :: 1 <= i < |rows| ==> rows[i] == rows[1..][i - 1];
      if r.None? then None else Some(r.value + 1)
  }

  function SkuIs(sku: string): Product -> bool { (p: Product) => p.sku == sku }
  function EmailIs(email: string): Customer -> bool { (c: Customer) => c.email == email }
  function OrderIdIs(id: nat): Order -> bool { (o: Order) => o.id == id }

  /** `Product.objects.filter(sku=sku).first()` */
  function ProductBySku(s: Store, sku: string): (r: Option<Product>)
    ensures r.None? <==> forall p :: p in s.products.rows ==> p.sku != sku
    ensures r.Some? ==> r.value in s.products.rows && r.value.sku == sku
  {
    var i := FindIndex(s.products.rows, SkuIs(sku));
    if i.None? then None else Some(s.products.rows[i.value])
  }

  /** `Customer.objects.filter(email=email).first()` */
  function CustomerByEmail(s: Store, email: string): (r: Option<Customer>)
    ensures r.None? <==> forall c :: c in s.customers.rows ==> c.email != email
    ensures r.Some? ==> r.value in s.customers.rows && r.value.email == email
  {
    var i := FindIndex(s.customers.rows, EmailIs(email));
    if i.None? then None else Some(s.customers.rows[i.value])
  }

  /** `Order.objects.get(id=id)` */
  function GetOrder(s: Store, id: nat): (r: Result<Order, DbError>)
    ensures r.Err? <==> id !in OrderIds(s)
    ensures r.Err? ==> r.error == DoesNotExist
    ensures r.Ok? ==> r.value in s.orders.rows && r.value.id == id
  {
    var i := FindIndex(s.orders.rows, OrderIdIs(id));
    if i.None? then Err(DoesNotExist) else Ok(s.orders.rows[i.value])
  }

  /** Under a unique column there is only one row to find. */
  lemma UniqueLookup(s: Store, p: Product)
    requires UniqueOk(s) && p in s.products.rows
    ensures ProductBySku(s, p.sku) == Some(p)
  {
    var q := ProductBySku(s, p.sku).value;
    var i :| 0 <= i < |s.products.rows| && s.products.rows[i] == p;
    var j :| 0 <= j < |s.products.rows| && s.products.rows[j] == q;
    assert ProductSku(s.products.rows[i]) == ProductSku(s.products.rows[j]);
  }

  // ---------------------------------------------------------------------------
  // Creates (`Model.objects.create(...)`), with the model's defaults
  // ---------------------------------------------------------------------------

  /**
    `Product.objects.create`; `price_cents` defaults to 0 and `is_active` to True.
    The row holds the values the varchar columns store.
   */
  function CreateProduct(s: Store, name: string, sku: string, priceCents: Option<int>, isActive: Option<bool>)
    : (r: Result<(Store, Product), DbError>)
    ensures var name', sku', price := Varchar(name, 200), Varchar(sku, 64), priceCents.GetOr(0);
            && (r == Err(DataError) <==> name'.None? || sku'.None? || !FitsInteger(price))
            && (r.Ok? <==> name'.Some? && sku'.Some? && FitsPositiveInteger(price) && ProductBySku(s, sku'.value).None?)
            && (r.Err? ==> r.error in {DataError, IntegrityError})
            && (r.Ok? ==> var p := Product(s.products.nextId, name'.value, sku'.value, price, isActive.GetOr(true));
                          r.value == (s.(products := Append(s.products, p)), p))
  {
    var name', sku', price := Varchar(name, 200), Varchar(sku, 64), priceCents.GetOr(0);
    if name'.None? || sku'.None? || !FitsInteger(price) then Err(DataError)
    else
      var p := Product(s.products.nextId, name'.value, sku'.value, price, isActive.GetOr(true));
      if price < 0 || ProductBySku(s, p.sku).Some? then Err(IntegrityError)
      else Ok((s.(products := Append(s.products, p)), p))
  }

  /** `InventoryEntry.objects.create`; `note` defaults to "". */
  function CreateInventoryEntry(s: Store, product: nat, delta: int, note: Option<string>)
    : (r: Result<(Store, InventoryEntry), DbError>)
    ensures var note' := Varchar(note.GetOr(""), 255);
            && (r == Err(DataError) <==> !FitsInteger(delta) || note'.None?)
            && (r.Ok? <==> FitsInteger(delta) && note'.Some? && product in ProductIds(s))
            && (r.Err? ==> r.error in {DataError, IntegrityError})
            && (r.Ok? ==> var e := InventoryEntry(s.entries.nextId, product, delta, note'.value);
                          r.value == (s.(entries := Append(s.entries, e)), e))
  {
    var note' := Varchar(note.GetOr(""), 255);
    if !FitsInteger(delta) || note'.None? then Err(DataError)
    else if product !in ProductIds(s) then Err(IntegrityError)
    else
      var e := InventoryEntry(s.entries.nextId, product, delta, note'.value);
      Ok((s.(entries := Append(s.entries, e)), e))
  }

  /** `Customer.objects.create`; an `EmailField` is a `varchar(254)`. */
  function CreateCustomer(s: Store, email: string, fullName: string): (r: Result<(Store, Customer), DbError>)
    ensures var email', fullName' := Varchar(email, 254), Varchar(fullName, 200);
            && (r == Err(DataError) <==> email'.None? || fullName'.None?)
            && (r.Ok? <==> email'.Some? && fullName'.Some? && CustomerByEmail(s, email'.value).None?)
            && (r.Err? ==> r.error in {DataError, IntegrityError})
            && (r.Ok? ==> var c := Customer(s.customers.nextId, email'.value, fullName'.value);
                          r.value == (s.(customers := Append(s.customers, c)), c))
  {
    var email', fullName' := Varchar(email, 254), Varchar(fullName, 200);
    if email'.None? || fullName'.None? then Err(DataError)
    else if CustomerByEmail(s, email'.value).Some? then Err(IntegrityError)
    else
      var c := Customer(s.customers.nextId, email'.value, fullName'.value);
      Ok((s.(customers := Append(s.customers, c)), c))
  }

  /** `Order.objects.create`; `status` defaults to PENDING. */
  function CreateOrder(s: Store, customer: nat, status: Option<Status>): (r: Result<(Store, Order), DbError>)
    ensures var o := Order(s.orders.nextId, customer, status.GetOr(DefaultStatus));
            && (r.Ok? <==> customer in CustomerIds(s))
            && (r.Err? ==> r.error == IntegrityError)
            && (r.Ok? ==> r.value == (s.(orders := Append(s.orders, o)), o))
            && (r.Ok? && status.None? ==> StatusName(r.value.1.status) == "PENDING")
  {
    var o := Order(s.orders.nextId, customer, status.GetOr(DefaultStatus));
    if customer !in CustomerIds(s) then Err(IntegrityError)
    else Ok((s.(orders := Append(s.orders, o)), o))
  }

  /** `OrderItem.objects.create`; `quantity` defaults to 1, `unit_price_cents` has no default. */
  function CreateOrderItem(s: Store, order: nat, product: nat, quantity: Option<int>, unitPriceCents: int)
    : (r: Result<(Store, OrderItem), DbError>)
    ensures var it := OrderItem(s.items.nextId, order, product, quantity.GetOr(1), unitPriceCents);
            && (r.Ok? <==> ItemOk(it) && order in OrderIds(s) && product in ProductIds(s))
            && (r == Err(DataError) <==> !FitsInteger(it.quantity) || !FitsInteger(unitPriceCents))
            && (r.Err? ==> r.error in {DataError, IntegrityError})
            && (r.Ok? ==> r.value == (s.(items := Append(s.items, it)), it))
  {
    var it := OrderItem(s.items.nextId, order, product, quantity.GetOr(1), unitPriceCents);
    if !FitsInteger(it.quantity) || !FitsInteger(unitPriceCents) then Err(DataError)
    else if it.quantity < 0 || unitPriceCents < 0 || order !in OrderIds(s) || product !in ProductIds(s) then Err(IntegrityError)
    else Ok((s.(items := Append(s.items, it)), it))
  }

  /** `AnalyticsEvent.objects.create`; `payload` defaults to `{}`. */
  function CreateAnalyticsEvent(s: Store, order: Option<nat>, kind: string, payload: Option<map<string, int>>)
    : (r: Result<(Store, AnalyticsEvent), DbError>)
    ensures var kind' := Varchar(kind, 50);
            && (r == Err(DataError) <==> kind'.None?)
            && (r.Ok? <==> kind'.Some? && (order.Some? ==> order.value in OrderIds(s)))
            && (r.Err? ==> r.error in {DataError, IntegrityError})
            && (r.Ok? ==> var ev := AnalyticsEvent(s.events.nextId, order, kind'.value, payload.GetOr(map[]));
                          r.value == (s.(events := Append(s.events, ev)), ev))
  {
    var kind' := Varchar(kind, 50);
    if kind'.None? then Err(DataError)
    else if order.Some? && order.value !in OrderIds(s) then Err(IntegrityError)
    else
      var ev := AnalyticsEvent(s.events.nextId, order, kind'.value, payload.GetOr(map[]));
      Ok((s.(events := Append(s.events, ev)), ev))
  }

  /**
    An integer below the 32-bit range is a DataError, not a failed CHECK; a sku
    padded past 64 characters with spaces is stored cut to its first 64.
   */
  lemma CreateProductEdges(sku: string)
    requires |sku| == 64
    ensures CreateProduct(EmptyStore, "n", "s", Some(-3_000_000_000), None) == Err(DataError)
    ensures CreateProduct(EmptyStore, "n", "s", Some(-1), None) == Err(IntegrityError)
    ensures var r := CreateProduct(EmptyStore, "n", sku + "  ", None, None);
            r.Ok? && r.value.1.sku == sku
  {
    assert (sku + "  ")[..64] == sku;
  }

  /** `Product.objects.get_or_create(sku=sku, defaults=...)`: the existing row, or a new one. */
  function GetOrCreateProduct(s: Store, sku: string, name: string, priceCents: int)
    : (r: Result<(Store, Product, bool), DbError>)
    ensures ProductBySku(s, sku).Some? ==> r == Ok((s, ProductBySku(s, sku).value, false))
    ensures ProductBySku(s, sku).None? ==>
              match CreateProduct(s, name, sku, Some(priceCents), None)
              case Ok((s', p)) => r == Ok((s', p, true))
              case Err(e) => r == Err(e)
  {
    match ProductBySku(s, sku)
    case Some(p) => Ok((s, p, false))
    case None =>
      var (s', p) :- CreateProduct(s, name, sku, Some(priceCents), None);
      Ok((s', p, true))
  }

  /** `Customer.objects.get_or_create(email=email, defaults={"full_name": ...})` */
  function GetOrCreateCustomer(s: Store, email: string, fullName: string)
    : (r: Result<(Store, Customer, bool), DbError>)
    ensures CustomerByEmail(s, email).Some? ==> r == Ok((s, CustomerByEmail(s, email).value, false))
    ensures CustomerByEmail(s, email).None? ==>
              match CreateCustomer(s, email, fullName)
              case Ok((s', c)) => r == Ok((s', c, true))
              case Err(e) => r == Err(e)
  {
    match CustomerByEmail(s, email)
    case Some(c) => Ok((s, c, false))
    case None =>
      var (s', c) :- CreateCustomer(s, email, fullName);
      Ok((s', c, true))
  }

  // ---------------------------------------------------------------------------
  // Creates keep the store valid
  // ---------------------------------------------------------------------------

  lemma CreateProductValid(s: Store, name: string, sku: string, priceCents: Option<int>, isActive: Option<bool>)
    requires Valid(s) && CreateProduct(s, name, sku, priceCents, isActive).Ok?
    ensures Valid(CreateProduct(s, name, sku, priceCents, isActive).value.0)
  {
    var (s', p) := CreateProduct(s, name, sku, priceCents, isActive).value;
    AppendKeepsIds(s.products, p, ProductId);
    forall y | y in s.products.rows ensures ProductSku(y) != ProductSku(p) { }
    UniqueByAppend(s.products.rows, p, ProductSku);
    assert ProductIds(s) <= ProductIds(s');
  }

  lemma CreateInventoryEntryValid(s: Store, product: nat, delta: int, note: Option<string>)
    requires Valid(s) && CreateInventoryEntry(s, product, delta, note).Ok?
    ensures Valid(CreateInventoryEntry(s, product, delta, note).value.0)
  {
    var (s', e) := CreateInventoryEntry(s, product, delta, note).value;
    AppendKeepsIds(s.entries, e, EntryId);
  }

  lemma CreateCustomerValid(s: Store, email: string, fullName: string)
    requires Valid(s) && CreateCustomer(s, email, fullName).Ok?
    ensures Valid(CreateCustomer(s, email, fullName).value.0)
  {
    var (s', c) := CreateCustomer(s, email, fullName).value;
    AppendKeepsIds(s.customers, c, CustomerId);
    forall y | y in s.customers.rows ensures CustomerEmail(y) != CustomerEmail(c) { }
    UniqueByAppend(s.customers.rows, c, CustomerEmail);
    assert CustomerIds(s) <= CustomerIds(s');
  }

  lemma CreateOrderValid(s: Store, customer: nat, status: Option<Status>)
    requires Valid(s) && CreateOrder(s, customer, status).Ok?
    ensures Valid(CreateOrder(s, customer, status).value.0)
  {
    var (s', o) := CreateOrder(s, customer, status).value;
    AppendKeepsIds(s.orders, o, OrderId);
    assert OrderIds(s) <= OrderIds(s');
  }

  lemma CreateOrderItemValid(s: Store, order: nat, product: nat, quantity: Option<int>, unitPriceCents: int)
    requires Valid(s) && CreateOrderItem(s, order, product, quantity, unitPriceCents).Ok?
    ensures Valid(CreateOrderItem(s, order, product, quantity, unitPriceCents).value.0)
  {
    var (s', it) := CreateOrderItem(s, order, product, quantity, unitPriceCents).value;
    AppendKeepsIds(s.items, it, ItemId);
  }

  lemma CreateAnalyticsEventValid(s: Store, order: Option<nat>, kind: string, payload: Option<map<string, int>>)
    requires Valid(s) && CreateAnalyticsEvent(s, order, kind, payload).Ok?
    ensures Valid(CreateAnalyticsEvent(s, order, kind, payload).value.0)
  {
    var (s', ev) := CreateAnalyticsEvent(s, order, kind, payload).value;
    AppendKeepsIds(s.events, ev, EventId);
  }

  // ---------------------------------------------------------------------------
  // Deletes: on_delete CASCADE and PROTECT
  // ---------------------------------------------------------------------------

  function ProductIsNot(id: nat): Product -> bool { (p: Product) => p.id != id }
  function EntryNotOf(id: nat): InventoryEntry -> bool { (e: InventoryEntry) => e.product != id }
  function CustomerIsNot(id: nat): Customer -> bool { (c: Customer) => c.id != id }
  function OrderIsNot(id: nat): Order -> bool { (o: Order) => o.id != id }
  function ItemNotOf(id: nat): OrderItem -> bool { (it: OrderItem) => it.order != id }
  function EventNotOf(id: nat): AnalyticsEvent -> bool { (ev: AnalyticsEvent) => ev.order != Some(id) }

  function Keep<T>(t: Table<T>, p: T -> bool): (r: Table<T>)
  {
    Table(Filter(t.rows, p), t.nextId)
  }

  /** Some order item references the product (`OrderItem.product`, PROTECT). */
  predicate ProductInUse(s: Store, id: nat)
  {
    exists it :: it in s.items.rows && it.product == id
  }

  /** Some order references the customer (`Order.customer`, PROTECT). */
  predicate CustomerInUse(s: Store, id: nat)
  {
    exists o :: o in s.orders.rows && o.customer == id
  }

  /** Deleting a product: refused while an order item uses it; otherwise its inventory entries go too. */
  function DeleteProduct(s: Store, id: nat): (r: Result<Store, DbError>)
    ensures id !in ProductIds(s) ==> r == Err(DoesNotExist)
    ensures id in ProductIds(s) && ProductInUse(s, id) ==> r == Err(ProtectedError)
    ensures r.Ok? <==> id in ProductIds(s) && !ProductInUse(s, id)
    ensures r.Ok? ==> r.value == s.(products := Keep(s.products, ProductIsNot(id)), entries := Keep(s.entries, EntryNotOf(id)))
  {
    if id !in ProductIds(s) then Err(DoesNotExist)
    else if ProductInUse(s, id) then Err(ProtectedError)
    else Ok(s.(products := Keep(s.products, ProductIsNot(id)), entries := Keep(s.entries, EntryNotOf(id))))
  }

  /** Deleting a customer: refused while an order references it. */
  function DeleteCustomer(s: Store, id: nat): (r: Result<Store, DbError>)
    ensures id !in CustomerIds(s) ==> r == Err(DoesNotExist)
    ensures id in CustomerIds(s) && CustomerInUse(s, id) ==> r == Err(ProtectedError)
    ensures r.Ok? <==> id in CustomerIds(s) && !CustomerInUse(s, id)
    ensures r.Ok? ==> r.value == s.(customers := Keep(s.customers, CustomerIsNot(id)))
  {
    if id !in CustomerIds(s) then Err(DoesNotExist)
    else if CustomerInUse(s, id) then Err(ProtectedError)
    else Ok(s.(customers := Keep(s.customers, CustomerIsNot(id))))
  }

  /** Deleting an order removes its items and its analytics events (both CASCADE). */
  function DeleteOrder(s: Store, id: nat): (r: Result<Store, DbError>)
    ensures r.Err? <==> id !in OrderIds(s)
    ensures r.Err? ==> r.error == DoesNotExist
    ensures r.Ok? ==> r.value == s.(orders := Keep(s.orders, OrderIsNot(id)),
                                    items := Keep(s.items, ItemNotOf(id)),
                                    events := Keep(s.events, EventNotOf(id)))
  {
    if id !in OrderIds(s) then Err(DoesNotExist)
    else Ok(s.(orders := Keep(s.orders, OrderIsNot(id)), items := Keep(s.items, ItemNotOf(id)), events := Keep(s.events, EventNotOf(id))))
  }

  /**
    After a product delete: it and its entries are gone, every other product and
    every entry of another product is still there, and no other table changed.
   */
  lemma DeleteProductEffect(s: Store, id: nat)
    requires DeleteProduct(s, id).Ok?
    ensures var s' := DeleteProduct(s, id).value;
            && id !in ProductIds(s')
            && (forall e :: e in s'.entries.rows ==> e.product != id)
            && (forall p :: p in s.products.rows && p.id != id ==> p in s'.products.rows)
            && (forall e :: e in s.entries.rows && e.product != id ==> e in s'.entries.rows)
            && s'.customers == s.customers && s'.orders == s.orders && s'.items == s.items && s'.events == s.events
  {
    FilterMembers(s.products.rows, ProductIsNot(id));
    FilterMembers(s.entries.rows, EntryNotOf(id));
    var s' := DeleteProduct(s, id).value;
    forall p | p in s.products.rows && p.id != id ensures p in s'.products.rows {
      var i :| 0 <= i < |s.products.rows| && s.products.rows[i] == p;
    }
    forall e | e in s.entries.rows && e.product != id ensures e in s'.entries.rows {
      var i :| 0 <= i < |s.entries.rows| && s.entries.rows[i] == e;
    }
    forall e | e in s'.entries.rows ensures e.product != id {
      var i :| 0 <= i < |s'.entries.rows| && s'.entries.rows[i] == e;
    }
    assert id !in ProductIds(s') by {
      forall p | p in s'.products.rows ensures p.id != id {
        var i :| 0 <= i < |s'.products.rows| && s'.products.rows[i] == p;
      }
    }
  }

  /** After an order delete: it, its items and its events are gone; every other row stays. */
  lemma DeleteOrderEffect(s: Store, id: nat)
    requires DeleteOrder(s, id).Ok?
    ensures var s' := DeleteOrder(s, id).value;
            && id !in OrderIds(s')
            && (forall it :: it in s'.items.rows ==> it.order != id)
            && (forall ev :: ev in s'.events.rows ==> ev.order != Some(id))
            && (forall o :: o in s.orders.rows && o.id != id ==> o in s'.orders.rows)
            && (forall it :: it in s.items.rows && it.order != id ==> it in s'.items.rows)
            && (forall ev :: ev in s.events.rows && ev.order != Some(id) ==> ev in s'.events.rows)
            && s'.products == s.products && s'.entries == s.entries && s'.customers == s.customers
  {
    var s' := DeleteOrder(s, id).value;
    FilterMembers(s.orders.rows, OrderIsNot(id));
    FilterMembers(s.items.rows, ItemNotOf(id));
    FilterMembers(s.events.rows, EventNotOf(id));
    forall o | o in s.orders.rows && o.id != id ensures o in s'.orders.rows {
      var i :| 0 <= i < |s.orders.rows| && s.orders.rows[i] == o;
    }
    forall it | it in s.items.rows && it.order != id ensures it in s'.items.rows {
      var i :| 0 <= i < |s.items.rows| && s.items.rows[i] == it;
    }
    forall ev | ev in s.events.rows && ev.order != Some(id) ensures ev in s'.events.rows {
      var i :| 0 <= i < |s.events.rows| && s.events.rows[i] == ev;
    }
    forall it | it in s'.items.rows ensures it.order != id {
      var i :| 0 <= i < |s'.items.rows| && s'.items.rows[i] == it;
    }
    forall ev | ev in s'.events.rows ensures ev.order != Some(id) {
      var i :| 0 <= i < |s'.events.rows| && s'.events.rows[i] == ev;
    }
    assert id !in OrderIds(s') by {
      forall o | o in s'.orders.rows ensures o.id != id {
        var i :| 0 <= i < |s'.orders.rows| && s'.orders.rows[i] == o;
      }
    }
  }

  /** The rows a `Keep` leaves are rows of the table. */
  lemma KeepSubset<T>(t: Table<T>, p: T -> bool)
    ensures forall x :: x in Keep(t, p).rows ==> x in t.rows && p(x)
  {
    FilterMembers(t.rows, p);
    forall x | x in Keep(t, p).rows ensures x in t.rows && p(x) {
      var i :| 0 <= i < |Keep(t, p).rows| && Keep(t, p).rows[i] == x;
    }
  }

  lemma KeepUnique<T, K>(t: Table<T>, p: T -> bool, key: T -> K)
    requires UniqueBy(t.rows, key)
    ensures UniqueBy(Keep(t, p).rows, key)
  {
    FilterUniqueBy(t.rows, p, key);
  }

  /** The delete rules keep every foreign key pointing at an existing row. */
  lemma DeleteProductValid(s: Store, id: nat)
    requires Valid(s) && DeleteProduct(s, id).Ok?
    ensures Valid(DeleteProduct(s, id).value)
  {
    var s' := DeleteProduct(s, id).value;
    FilterKeepsIds(s.products, ProductIsNot(id), ProductId);
    FilterKeepsIds(s.entries, EntryNotOf(id), EntryId);
    KeepUnique(s.products, ProductIsNot(id), ProductSku);
    KeepSubset(s.products, ProductIsNot(id));
    KeepSubset(s.entries, EntryNotOf(id));
    DeleteProductEffect(s, id);
    assert ProductIds(s') == ProductIds(s) - {id};
  }

  lemma DeleteCustomerValid(s: Store, id: nat)
    requires Valid(s) && DeleteCustomer(s, id).Ok?
    ensures Valid(DeleteCustomer(s, id).value)
  {
    var s' := DeleteCustomer(s, id).value;
    FilterKeepsIds(s.customers, CustomerIsNot(id), CustomerId);
    KeepUnique(s.customers, CustomerIsNot(id), CustomerEmail);
    KeepSubset(s.customers, CustomerIsNot(id));
    FilterMembers(s.customers.rows, CustomerIsNot(id));
    forall c | c in s.customers.rows && c.id != id ensures c in s'.customers.rows {
      var i :| 0 <= i < |s.customers.rows| && s.customers.rows[i] == c;
    }
    assert CustomerIds(s') == CustomerIds(s) - {id};
  }

  lemma DeleteOrderValid(s: Store, id: nat)
    requires Valid(s) && DeleteOrder(s, id).Ok?
    ensures Valid(DeleteOrder(s, id).value)
  {
    var s' := DeleteOrder(s, id).value;
    FilterKeepsIds(s.orders, OrderIsNot(id), OrderId);
    FilterKeepsIds(s.items, ItemNotOf(id), ItemId);
    FilterKeepsIds(s.events, EventNotOf(id), EventId);
    KeepSubset(s.orders, OrderIsNot(id));
    KeepSubset(s.items, ItemNotOf(id));
    KeepSubset(s.events, EventNotOf(id));
    DeleteOrderEffect(s, id);
    assert OrderIds(s') == OrderIds(s) - {id};
  }
}
