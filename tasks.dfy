/**
  inventory/tasks.py: the stock of a product and the bodies of the two Celery
  tasks, which each append one analytics event. Dispatch through Celery is not
  modelled; the bodies are plain methods on the database.
 */
module Tasks {
  import opened Wrappers
  import opened Seqs
  import opened Models
  import opened Orm

  function EntryOf(productId: int): InventoryEntry -> bool
  {
    (e: InventoryEntry) => e.product == productId
  }

  function Delta(e: InventoryEntry): int
  {
    e.delta
  }

  /** `current_stock`: the sum of `delta` over the product's inventory entries (0 when there are none). */
  function CurrentStock(entries: seq<InventoryEntry>, productId: int): int
  {
    SumOf(Filter(entries, EntryOf(productId)), Delta)
  }

  /** A product without entries has stock 0. */
  lemma {:induction false} CurrentStockNoEntries(entries: seq<InventoryEntry>, productId: int)
    requires forall e :: e in entries ==> e.product != productId
    ensures CurrentStock(entries, productId) == 0
  {
    if entries != [] {
      CurrentStockNoEntries(entries[1..], productId);
      assert Filter(entries, EntryOf(productId)) == Filter(entries[1..], EntryOf(productId));
    }
  }

  /** A new entry moves the stock of its own product by its delta and no other product's stock. */
  lemma CurrentStockAppend(entries: seq<InventoryEntry>, e: InventoryEntry, productId: int)
    ensures CurrentStock(entries + [e], productId) ==
            CurrentStock(entries, productId) + (if e.product == productId then e.delta else 0)
  {
    FilterAppend(entries, [e], EntryOf(productId));
    SumOfAppend(Filter(entries, EntryOf(productId)), Filter([e], EntryOf(productId)), Delta);
  }

  /** +10 then -2 leaves a stock of 8; another product's entry is ignored. */
  lemma CurrentStockExample(a: InventoryEntry, b: InventoryEntry, c: InventoryEntry)
    requires a.product == 5 && a.delta == 10 && b.product == 6 && b.delta == 40 && c.product == 5 && c.delta == -2
    ensures CurrentStock([a, b, c], 5) == 8
  {
    CurrentStockNoEntries([], 5);
    CurrentStockAppend([], a, 5);
    CurrentStockAppend([a], b, 5);
    CurrentStockAppend([a, b], c, 5);
    assert [] + [a] == [a] && [a] + [b] == [a, b] && [a, b] + [c] == [a, b, c];
  }

  const RecalcKind: string := "RECALC_PRODUCT"
  const OrderCreatedKind: string := "ORDER_CREATED"

  /** `recalc_inventory_async`: one event, linked to no order, carrying the product's current stock. */
  method RecalcInventoryAsync(db: Database, productId: int) returns (ev: AnalyticsEvent)
    modifies db
    ensures ev == AnalyticsEvent(old(db.events.nextId), None, RecalcKind,
                                 map["product_id" := productId, "stock" := CurrentStock(old(db.entries.rows), productId)])
    ensures db.Snapshot() == old(db.Snapshot()).(events := Append(old(db.events), ev))
    ensures Valid(old(db.Snapshot())) ==> Valid(db.Snapshot())
  {
    var total := CurrentStock(db.entries.rows, productId);
    ghost var before := db.Snapshot();
    var payload := map["product_id" := productId, "stock" := total];
    var r := db.CreateAnalyticsEvent(None, RecalcKind, Some(payload));
    if Valid(before) {
      CreateAnalyticsEventValid(before, None, RecalcKind, Some(payload));
    }
    ev := r.value;
  }

  /**
    `post_order_analytics_async`: DoesNotExist and no write when the order is
    missing; otherwise one event linked to the order carrying its total.
   */
  method PostOrderAnalyticsAsync(db: Database, orderId: nat) returns (r: Result<AnalyticsEvent, DbError>)
    modifies db
    ensures orderId !in OrderIds(old(db.Snapshot())) <==> r.Err?
    ensures r.Err? ==> r.error == DoesNotExist && db.Snapshot() == old(db.Snapshot())
    ensures r.Ok? ==> r.value == AnalyticsEvent(old(db.events.nextId), Some(orderId), OrderCreatedKind,
                                                map["total_cents" := OrderTotal(old(db.items.rows), orderId)])
    ensures r.Ok? ==> db.Snapshot() == old(db.Snapshot()).(events := Append(old(db.events), r.value))
    ensures Valid(old(db.Snapshot())) ==> Valid(db.Snapshot())
  {
    var order :- GetOrder(db.Snapshot(), orderId);
    ghost var before := db.Snapshot();
    var payload := map["total_cents" := OrderTotal(db.items.rows, order.id)];
    r := db.CreateAnalyticsEvent(Some(order.id), OrderCreatedKind, Some(payload));
    if Valid(before) {
      CreateAnalyticsEventValid(before, Some(order.id), OrderCreatedKind, Some(payload));
    }
  }
}
