/**
  inventory/management/commands/seed_demo.py: `Command.handle`, a get-or-create
  pass over three demo products (with 100 units of initial stock for each one it
  creates) followed by a get-or-create of the demo customer. The output written
  to stdout is not modelled.
 */
module SeedDemo {
  import opened Wrappers
  import opened Seqs
  import opened Models
  import opened Orm
  import opened Tasks

  datatype ProductSeed = ProductSeed(name: string, sku: string, priceCents: int)

  const DemoProducts: seq<ProductSeed> := [
    ProductSeed("Wireless Mouse", "WM-001", 800),
    ProductSeed("Mechanical Keyboard", "KB-101", 2500),
    ProductSeed("USB-C Cable", "CB-050", 300)
  ]

  const DemoEmail: string := "c@example.com"
  const DemoFullName: string := "Customer Demo"
  const InitialStock: int := 100
  const InitialNote: string := "Initial stock"

  /** One iteration of the product loop: get or create, and stock a product only when it is new. */
  function SeedProduct(s: Store, seed: ProductSeed): Result<Store, DbError>
  {
    var (s1, obj, created) :- GetOrCreateProduct(s, seed.sku, seed.name, seed.priceCents);
    if created then
      var (s2, _) :- CreateInventoryEntry(s1, obj.id, InitialStock, Some(InitialNote));
      Ok(s2)
    else Ok(s1)
  }

  /** The product loop over `seeds`, stopping at the first exception. */
  function SeedProducts(s: Store, seeds: seq<ProductSeed>): Result<Store, DbError>
    decreases |seeds|
  {
    if seeds == [] then Ok(s)
    else
      var s1 :- SeedProducts(s, seeds[..|seeds| - 1]);
      SeedProduct(s1, seeds[|seeds| - 1])
  }

  /** The whole command on a store. */
  function Seeded(s: Store): Result<Store, DbError>
  {
    var s1 :- SeedProducts(s, DemoProducts);
    var (s2, _, _) :- GetOrCreateCustomer(s1, DemoEmail, DemoFullName);
    Ok(s2)
  }

  // ---------------------------------------------------------------------------
  // The command as written
  // ---------------------------------------------------------------------------

  lemma SeedProductsNext(s: Store, seeds: seq<ProductSeed>, i: nat)
    requires i < |seeds|
    ensures SeedProducts(s, seeds[..i + 1]) ==
            match SeedProducts(s, seeds[..i])
            case Err(e) => Err(e)
            case Ok(s1) => SeedProduct(s1, seeds[i])
  {
    assert seeds[..i + 1][..i] == seeds[..i];
  }

  lemma {:induction false} SeedProductsErrorSticks(s: Store, seeds: seq<ProductSeed>, i: nat)
    requires i <= |seeds| && SeedProducts(s, seeds[..i]).Err?
    ensures SeedProducts(s, seeds) == SeedProducts(s, seeds[..i])
    decreases |seeds| - i
  {
    if i < |seeds| {
      SeedProductsNext(s, seeds, i);
      SeedProductsErrorSticks(s, seeds, i + 1);
    } else {
      assert seeds[..i] == seeds;
    }
  }

  /** `Command.handle`; on an exception the rows written before it stay (there is no transaction). */
  method Handle(db: Database) returns (r: Result<(), DbError>)
    modifies db
    ensures Seeded(old(db.Snapshot())).Ok? ==> r.Ok? && db.Snapshot() == Seeded(old(db.Snapshot())).value
    ensures Seeded(old(db.Snapshot())).Err? ==> r == Err(Seeded(old(db.Snapshot())).error)
  {
    ghost var start := db.Snapshot();
    var products := DemoProducts;
    var i := 0;
    while i < |products|
      invariant 0 <= i <= |products|
      invariant SeedProducts(start, products[..i]) == Ok(db.Snapshot())
    {
      var p := products[i];
      SeedProductsNext(start, products, i);
      var res := db.GetOrCreateProduct(p.sku, p.name, p.priceCents);
      if res.Err? {
        SeedProductsErrorSticks(start, products, i + 1);
        return Err(res.error);
      }
      var (obj, created) := res.value;
      if created {
        var entry := db.CreateInventoryEntry(obj.id, InitialStock, Some(InitialNote));
        if entry.Err? {
          SeedProductsErrorSticks(start, products, i + 1);
          return Err(entry.error);
        }
      }
      i := i + 1;
    }
    assert products[..i] == products;
    var cust := db.GetOrCreateCustomer(DemoEmail, DemoFullName);
    if cust.Err? {
      return Err(cust.error);
    }
    r := Ok(());
  }

  // ---------------------------------------------------------------------------
  // Properties of one iteration
  // ---------------------------------------------------------------------------

  /** A seed whose row already exists changes nothing. */
  lemma SeedProductExisting(s: Store, seed: ProductSeed)
    requires ProductBySku(s, seed.sku).Some?
    ensures SeedProduct(s, seed) == Ok(s)
  {
  }

  /** The columns of every demo product fit. */
  predicate SeedFits(seed: ProductSeed)
  {
    |seed.name| <= 200 && |seed.sku| <= 64 && FitsPositiveInteger(seed.priceCents)
  }

  /**
    On a valid store an iteration succeeds and keeps it valid; a new product
    becomes the last product row and gets exactly one entry, of 100 units under
    the "Initial stock" note; nothing else changes.
   */
  lemma SeedProductNew(s: Store, seed: ProductSeed)
    requires Valid(s) && SeedFits(seed) && ProductBySku(s, seed.sku).None?
    ensures SeedProduct(s, seed).Ok?
    ensures var s' := SeedProduct(s, seed).value;
            var p := Product(s.products.nextId, seed.name, seed.sku, seed.priceCents, true);
            && Valid(s')
            && s'.products == Append(s.products, p)
            && s'.entries == Append(s.entries, InventoryEntry(s.entries.nextId, p.id, InitialStock, InitialNote))
            && s'.customers == s.customers && s'.orders == s.orders && s'.items == s.items && s'.events == s.events
  {
    CreateProductValid(s, seed.name, seed.sku, Some(seed.priceCents), None);
    var (s1, p) := CreateProduct(s, seed.name, seed.sku, Some(seed.priceCents), None).value;
    assert p.id in ProductIds(s1);
    CreateInventoryEntryValid(s1, p.id, InitialStock, Some(InitialNote));
  }

  /**
    What the product loop guarantees relative to the store it started on: the
    store stays valid and only grows, orders, items and customers are untouched,
    every entry it adds belongs to a product it created (so old products keep
    their stock), and every product it created has a stock of 100.
   */
  ghost predicate SeedInvariant(s0: Store, s: Store)
  {
    && Valid(s)
    && s0.products.rows <= s.products.rows
    && s0.entries.rows <= s.entries.rows
    && s.customers == s0.customers && s.orders == s0.orders && s.items == s0.items && s.events == s0.events
    && (forall pid :: pid in ProductIds(s0) ==> CurrentStock(s.entries.rows, pid) == CurrentStock(s0.entries.rows, pid))
    && (forall p :: p in s.products.rows && p.id !in ProductIds(s0) ==> CurrentStock(s.entries.rows, p.id) == InitialStock)
    && (forall i :: |s0.entries.rows| <= i < |s.entries.rows| ==> s.entries.rows[i].product !in ProductIds(s0))
  }

  lemma SeedProductKeepsInvariant(s0: Store, s: Store, seed: ProductSeed)
    requires SeedInvariant(s0, s) && SeedFits(seed)
    ensures SeedProduct(s, seed).Ok? && SeedInvariant(s0, SeedProduct(s, seed).value)
  {
    if ProductBySku(s, seed.sku).None? {
      SeedProductNew(s, seed);
      var p := Product(s.products.nextId, seed.name, seed.sku, seed.priceCents, true);
      NewProductKeepsInvariant(s0, s, SeedProduct(s, seed).value, p);
    }
  }

  /** Appending a new product with its initial entry keeps the loop invariant. */
  lemma NewProductKeepsInvariant(s0: Store, s: Store, s': Store, p: Product)
    requires SeedInvariant(s0, s) && Valid(s') && p.id == s.products.nextId
    requires s'.products == Append(s.products, p)
    requires s'.entries == Append(s.entries, InventoryEntry(s.entries.nextId, p.id, InitialStock, InitialNote))
    requires s'.customers == s.customers && s'.orders == s.orders && s'.items == s.items && s'.events == s.events
    ensures SeedInvariant(s0, s')
  {
    var e := InventoryEntry(s.entries.nextId, p.id, InitialStock, InitialNote);
    NextProductIdFresh(s);
    PrefixProductIds(s0, s);
    forall pid | pid in ProductIds(s0)
      ensures CurrentStock(s'.entries.rows, pid) == CurrentStock(s0.entries.rows, pid)
    {
      CurrentStockAppend(s.entries.rows, e, pid);
    }
    forall q | q in s'.products.rows && q.id !in ProductIds(s0)
      ensures CurrentStock(s'.entries.rows, q.id) == InitialStock
    {
      CurrentStockAppend(s.entries.rows, e, q.id);
      if q.id == p.id {
        CurrentStockNoEntries(s.entries.rows, p.id);
      } else {
        assert q in s.products.rows;
      }
    }
    forall i | |s0.entries.rows| <= i < |s'.entries.rows|
      ensures s'.entries.rows[i].product !in ProductIds(s0)
    {
      if i == |s.entries.rows| {
        assert s'.entries.rows[i] == e;
      } else {
        assert s'.entries.rows[i] == s.entries.rows[i];
      }
    }
  }

  /** The next product id names no product yet. */
  lemma NextProductIdFresh(s: Store)
    requires Valid(s)
    ensures s.products.nextId !in ProductIds(s)
    ensures forall e :: e in s.entries.rows ==> e.product != s.products.nextId
  {
    forall p | p in s.products.rows ensures p.id != s.products.nextId {
      var i :| 0 <= i < |s.products.rows| && s.products.rows[i] == p;
      assert ProductId(s.products.rows[i]) < s.products.nextId;
    }
  }

  /** A table that only grew still has every id it had. */
  lemma PrefixProductIds(s0: Store, s: Store)
    requires s0.products.rows <= s.products.rows
    ensures ProductIds(s0) <= ProductIds(s)
  {
    forall p | p in s0.products.rows ensures p in s.products.rows {
      var i :| 0 <= i < |s0.products.rows| && s0.products.rows[i] == p;
      assert s.products.rows[i] == p;
    }
  }

  lemma {:induction false} SeedProductsInvariant(s0: Store, seeds: seq<ProductSeed>)
    requires Valid(s0) && forall i :: 0 <= i < |seeds| ==> SeedFits(seeds[i])
    ensures SeedProducts(s0, seeds).Ok? && SeedInvariant(s0, SeedProducts(s0, seeds).value)
    decreases |seeds|
  {
    if seeds == [] {
      assert SeedInvariant(s0, s0);
    } else {
      var init := seeds[..|seeds| - 1];
      assert forall i :: 0 <= i < |init| ==> init[i] == seeds[i];
      SeedProductsInvariant(s0, init);
      SeedProductKeepsInvariant(s0, SeedProducts(s0, init).value, seeds[|seeds| - 1]);
    }
  }

  /** Every seed's sku names a product row. */
  predicate SkusPresent(s: Store, seeds: seq<ProductSeed>)
  {
    forall i :: 0 <= i < |seeds| ==> ProductBySku(s, seeds[i].sku).Some?
  }

  /** Every seed's row exists after the loop over it. */
  lemma {:induction false} SeedProductsPresent(s0: Store, seeds: seq<ProductSeed>)
    requires SeedProducts(s0, seeds).Ok? && forall i :: 0 <= i < |seeds| ==> |seeds[i].sku| <= 64
    ensures SkusPresent(SeedProducts(s0, seeds).value, seeds)
    ensures s0.products.rows <= SeedProducts(s0, seeds).value.products.rows
    ensures SeedProducts(s0, seeds).value.customers == s0.customers
    decreases |seeds|
  {
    if seeds != [] {
      var init := seeds[..|seeds| - 1];
      SeedProductsPresent(s0, init);
      var s := SeedProducts(s0, init).value;
      SeedProductPresent(s, seeds[|seeds| - 1]);
      SkusPresentStep(s, SeedProducts(s0, seeds).value, seeds);
    }
  }

  lemma SkusPresentStep(s: Store, s': Store, seeds: seq<ProductSeed>)
    requires seeds != [] && SkusPresent(s, seeds[..|seeds| - 1])
    requires s.products.rows <= s'.products.rows && ProductBySku(s', seeds[|seeds| - 1].sku).Some?
    ensures SkusPresent(s', seeds)
  {
    var init := seeds[..|seeds| - 1];
    forall i | 0 <= i < |init| ensures ProductBySku(s', seeds[i].sku).Some? {
      assert init[i] == seeds[i];
      SkuKeptByPrefix(s, s', seeds[i].sku);
    }
  }

  /**
    One iteration leaves its seed's row present, keeps the products and touches
    no customer. (An over-long sku would be stored truncated, under another key.)
   */
  lemma SeedProductPresent(s: Store, seed: ProductSeed)
    requires SeedProduct(s, seed).Ok? && |seed.sku| <= 64
    ensures var s' := SeedProduct(s, seed).value;
            && ProductBySku(s', seed.sku).Some?
            && s.products.rows <= s'.products.rows
            && s'.customers == s.customers
  {
    if ProductBySku(s, seed.sku).None? {
      var p := CreateProduct(s, seed.name, seed.sku, Some(seed.priceCents), None).value.1;
      assert p in SeedProduct(s, seed).value.products.rows;
    }
  }

  lemma SkuKeptByPrefix(s: Store, s': Store, sku: string)
    requires s.products.rows <= s'.products.rows && ProductBySku(s, sku).Some?
    ensures ProductBySku(s', sku).Some?
  {
    var p := ProductBySku(s, sku).value;
    var i :| 0 <= i < |s.products.rows| && s.products.rows[i] == p;
    assert s'.products.rows[i] == p;
  }

  /** When every seed's row exists, the loop changes nothing. */
  lemma {:induction false} SeedProductsNoop(s: Store, seeds: seq<ProductSeed>)
    requires SkusPresent(s, seeds)
    ensures SeedProducts(s, seeds) == Ok(s)
    decreases |seeds|
  {
    if seeds != [] {
      var init := seeds[..|seeds| - 1];
      assert forall i :: 0 <= i < |init| ==> init[i] == seeds[i];
      SeedProductsNoop(s, init);
    }
  }

  // ---------------------------------------------------------------------------
  // Properties of the command
  // ---------------------------------------------------------------------------

  lemma DemoProductsFit()
    ensures forall i :: 0 <= i < |DemoProducts| ==> SeedFits(DemoProducts[i])
  {
  }

  /**
    On a valid store the command succeeds and keeps the store valid; existing
    rows are kept as they were (tables only grow), every entry it adds belongs to
    a product it created, each of which has 100 units, old products keep their
    stock, and orders, items and events are untouched.
   */
  lemma SeededEffect(s: Store)
    requires Valid(s)
    ensures Seeded(s).Ok?
    ensures var s' := Seeded(s).value;
            && Valid(s')
            && s.products.rows <= s'.products.rows
            && s.entries.rows <= s'.entries.rows
            && s.customers.rows <= s'.customers.rows
            && s'.orders == s.orders && s'.items == s.items && s'.events == s.events
            && (forall pid :: pid in ProductIds(s) ==> CurrentStock(s'.entries.rows, pid) == CurrentStock(s.entries.rows, pid))
            && (forall p :: p in s'.products.rows && p.id !in ProductIds(s) ==> CurrentStock(s'.entries.rows, p.id) == InitialStock)
            && (forall i :: |s.entries.rows| <= i < |s'.entries.rows| ==> s'.entries.rows[i].product !in ProductIds(s))
  {
    DemoProductsFit();
    SeedProductsInvariant(s, DemoProducts);
    var s1 := SeedProducts(s, DemoProducts).value;
    if CustomerByEmail(s1, DemoEmail).None? {
      CreateCustomerValid(s1, DemoEmail, DemoFullName);
    }
  }

  /** After the command every demo SKU and the demo customer exist; an existing customer row is kept as it was. */
  lemma SeededPresent(s: Store)
    requires Seeded(s).Ok?
    ensures forall i :: 0 <= i < |DemoProducts| ==> ProductBySku(Seeded(s).value, DemoProducts[i].sku).Some?
    ensures CustomerByEmail(Seeded(s).value, DemoEmail).Some?
    ensures CustomerByEmail(s, DemoEmail).Some? ==> Seeded(s).value.customers == s.customers
  {
    DemoProductsFit();
    SeedProductsPresent(s, DemoProducts);
    var s1 := SeedProducts(s, DemoProducts).value;
    if CustomerByEmail(s1, DemoEmail).None? {
      var c := CreateCustomer(s1, DemoEmail, DemoFullName).value.1;
      assert c in Seeded(s).value.customers.rows;
    }
  }

  /** Running the command a second time adds no product, entry or customer. */
  lemma SeededIdempotent(s: Store)
    requires Seeded(s).Ok?
    ensures Seeded(Seeded(s).value) == Seeded(s)
  {
    SeededPresent(s);
    var s' := Seeded(s).value;
    SeedProductsNoop(s', DemoProducts);
  }

  /** On an empty database one run leaves each demo product with a stock of 100. */
  lemma SeededEmptyStock()
    ensures Seeded(EmptyStore).Ok?
    ensures forall i :: 0 <= i < |DemoProducts| ==>
              var p := ProductBySku(Seeded(EmptyStore).value, DemoProducts[i].sku);
              p.Some? && CurrentStock(Seeded(EmptyStore).value.entries.rows, p.value.id) == InitialStock
  {
    EmptyStoreValid();
    SeededEffect(EmptyStore);
    SeededPresent(EmptyStore);
  }
}
