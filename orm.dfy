/**
  The Django ORM calls the task bodies and the seed command make, on a database
  object whose tables are updated in place. Each method does what the matching
  function of `Models` computes and changes only the table it writes.
 */
module Orm {
  import opened Wrappers
  import opened Models

  class Database {
    var products: Table<Product>
    var entries: Table<InventoryEntry>
    var customers: Table<Customer>
    var orders: Table<Order>
    var items: Table<OrderItem>
    var events: Table<AnalyticsEvent>

    /** The committed state of all six tables. */
    function Snapshot(): Store
      reads this
    {
      Store(products, entries, customers, orders, items, events)
    }

    constructor (s: Store)
      ensures Snapshot() == s
    {
      products, entries, customers := s.products, s.entries, s.customers;
      orders, items, events := s.orders, s.items, s.events;
    }

    /** `Product.objects.get_or_create(sku=sku, defaults={...})` */
    method GetOrCreateProduct(sku: string, name: string, priceCents: int) returns (r: Result<(Product, bool), DbError>)
      modifies this
      ensures match Models.GetOrCreateProduct(old(Snapshot()), sku, name, priceCents)
              case Ok((s', p, created)) => Snapshot() == s' && r == Ok((p, created))
              case Err(e) => Snapshot() == old(Snapshot()) && r == Err(e)
    {
      var res := Models.GetOrCreateProduct(Snapshot(), sku, name, priceCents);
      match res
      case Ok((s', p, created)) =>
        products := s'.products;
        r := Ok((p, created));
      case Err(e) =>
        r := Err(e);
    }

    /** `InventoryEntry.objects.create(product=..., delta=..., note=...)` */
    method CreateInventoryEntry(product: nat, delta: int, note: Option<string>) returns (r: Result<InventoryEntry, DbError>)
      modifies this
      ensures match Models.CreateInventoryEntry(old(Snapshot()), product, delta, note)
              case Ok((s', e)) => Snapshot() == s' && r == Ok(e)
              case Err(e) => Snapshot() == old(Snapshot()) && r == Err(e)
    {
      var res := Models.CreateInventoryEntry(Snapshot(), product, delta, note);
      match res
      case Ok((s', e)) =>
        entries := s'.entries;
        r := Ok(e);
      case Err(e) =>
        r := Err(e);
    }

    /** `Customer.objects.get_or_create(email=email, defaults={"full_name": ...})` */
    method GetOrCreateCustomer(email: string, fullName: string) returns (r: Result<(Customer, bool), DbError>)
      modifies this
      ensures match Models.GetOrCreateCustomer(old(Snapshot()), email, fullName)
              case Ok((s', c, created)) => Snapshot() == s' && r == Ok((c, created))
              case Err(e) => Snapshot() == old(Snapshot()) && r == Err(e)
    {
      var res := Models.GetOrCreateCustomer(Snapshot(), email, fullName);
      match res
      case Ok((s', c, created)) =>
        customers := s'.customers;
        r := Ok((c, created));
      case Err(e) =>
        r := Err(e);
    }

    /** `AnalyticsEvent.objects.create(order=..., kind=..., payload=...)` */
    method CreateAnalyticsEvent(order: Option<nat>, kind: string, payload: Option<map<string, int>>)
      returns (r: Result<AnalyticsEvent, DbError>)
      modifies this
      ensures match Models.CreateAnalyticsEvent(old(Snapshot()), order, kind, payload)
              case Ok((s', ev)) => Snapshot() == s' && r == Ok(ev)
              case Err(e) => Snapshot() == old(Snapshot()) && r == Err(e)
    {
      var res := Models.CreateAnalyticsEvent(Snapshot(), order, kind, payload);
      match res
      case Ok((s', ev)) =>
        events := s'.events;
        r := Ok(ev);
      case Err(e) =>
        r := Err(e);
    }
  }
}
