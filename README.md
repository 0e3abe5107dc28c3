# InventoryX core, modelled in Dafny

InventoryX is a Django + graphene inventory service. There are products with stock
movements, customers, orders with line items, and analytics events. This project
models its core behaviour and proves properties about it:

- **CRUD read-path pre/post-processing** (module `DjangoCrud`). This is what
  `CustomDjangoCRUDObjectType` does around the generic graphene CRUD library:
  - adds the `created_at_in_timezone` column in `get_queryset` and `filter`;
  - coerces Enum-valued request variables in place, in `batchread` and `mutate`;
  - pops the `createdAt` date filter from the variables;
  - splits the `orderBy` entries into private-field entries and the rest;
  - applies the time-zone-aware month/year/gte/lte filter;
  - looks up private fields;
  - runs the custom-ordering pass.
- **Shared helpers** (module `Utils`): the relay total count, the identity
  global-id scheme, and the resolution of a UTC offset cookie to a named zone.
- **The data model** (module `Models`):
  - six tables with their column limits, uniqueness and foreign keys;
  - the derived totals and `Product.__str__`;
  - row creation with the field defaults;
  - the CASCADE/PROTECT delete rules.

  Every operation is a function from a store to a new store or an error.
  Module `Orm` wraps the store in a `Database` object whose tables are updated
  in place, for the code that calls the ORM step by step.
- **Task bodies** (module `Tasks`): `current_stock`, and the two Celery task
  bodies that each append one analytics event.
- **Demo seeding** (module `SeedDemo`): the `seed_demo` management command. It
  runs a get-or-create loop over three products, stocking only the products it
  creates, and then a get-or-create of the demo customer. It is proved
  idempotent.

Querysets are modelled by three things:
- the rows they select, in table order;
- their annotations;
- their ordering, meaning the argument of the last `order_by`. Django's
  `order_by` replaces an earlier ordering, so no sort is materialised.

Collaborators that are not visible are parameters. These are `stringcase.snakecase`,
a private field's `compute`, time-zone localisation and calendar extraction, the
conversion of a lookup value, `super().batchread` and `super().mutate`. The pytz
zone table is passed as (name, current offset) pairs in `pytz.all_timezones` order.
Python dictionaries are sequences of (key, value) pairs in insertion order.
Python's `==` on these values (`Values.PyEq`) ignores the order of a
dictionary's keys and takes `True == 1`. A private field's `compute` may fail,
and the model's field names are part of what the layer reads from
`_meta.model`: `annotate` refuses an alias that names a field of the model with
ValueError, and `order_by` accepts a model field as well as an annotation.

The database is PostgreSQL (config/settings.py:49-57), so the model enforces what
PostgreSQL enforces:
- an integer outside the 32-bit `integer` range raises `DataError`, even when it
  is negative and a `CHECK (v >= 0)` would also fail;
- a varchar value over its `max_length` raises `DataError`, unless every
  character past the limit is a space; such a value is cut to the limit and
  stored (`Models.Varchar`);
- a failing `CHECK (v >= 0)` of a `PositiveIntegerField`, a UNIQUE constraint or a
  foreign key raises `IntegrityError`.

Three behaviours of the code are easy to misread:
- **Ordering.** The custom `orderBy` entries are not a multi-key sort. Each
  "ASC"/"DESC" item of the custom pass calls `order_by`, which replaces the
  ordering, so the last such item wins. It also replaces the ordering the library
  applied.
- **Quantity.** `OrderItem.quantity` is a `PositiveIntegerField`, which admits 0,
  so the model admits 0.
- **`not in custom_order_by`.** The rewritten `orderBy` drops every entry that
  is Python-equal to a custom entry. A public entry with a private entry's keys
  in another order is dropped with it (`DjangoCrud.ReorderedTwinDropped`).
  GraphQL's input coercion builds every input object in the order its fields
  are defined, so such an entry cannot reach batchread through a GraphQL query.
  Without such a twin the new `orderBy` is exactly the public entries.
- **Product deletes.** `InventoryEntry.product` is CASCADE: deleting a product
  deletes its stock movements. Only `OrderItem.product` protects a product.

## Model

| member | source | states |
|---|---|---|
| `Utils.ResolveTotalCount` | modules/shared/utils.py:14-21 | the definition of `resolve_total_count`: 0 with no iterable, else `count()` or `len`; its property is `TotalCountIgnoresPage` |
| `Utils.TotalCountIgnoresPage` | modules/shared/utils.py:14-21 | the total is the size of the whole result, at least the page's size, whatever page was cut |
| `Utils.TotalCountExample` | modules/shared/utils.py:14-21 | three rows served one per page report 3 |
| `Utils.ToGlobalId` | modules/shared/utils.py:28-30 | the definition of `to_global_id` (the raw id); its property is `GlobalIdIgnoresType` |
| `Utils.GlobalIdIgnoresType` | modules/shared/utils.py:28-30 | the type name plays no part in the global id |
| `Utils.SplitOffset` | modules/shared/utils.py:43-47 | hours*60 + minutes equals the offset, with 0 <= minutes < 60 |
| `Utils.SplitOffsetUnique` | modules/shared/utils.py:43-44 | the split is the floor decomposition: any other pair with minutes in [0, 60) is the same |
| `Utils.SplitOffsetExamples` | modules/shared/utils.py:43-44 | -300 gives (-5, 0), -301 gives (-6, 59), 330 gives (5, 30) |
| `Utils.MatchingZones` | modules/shared/utils.py:51-55 | the `tz_names` comprehension: the names of the table's zones at the offset, in table order (its head is stated by `FirstMatchingZone`) |
| `Utils.ConvertOffsetToTimezone` | modules/shared/utils.py:41-58 | the first zone in table order whose current offset matches; "America/New_York" when none does; always a table name or that fallback |
| `Utils.FirstMatchingZone` | modules/shared/utils.py:51-57 | the head of the matching-names list is the first matching zone of the table |
| `Utils.ConvertOffsetExample` | modules/shared/utils.py:51-58 | of two zones at -300 the first is chosen; a table without one gives the fallback |
| `DjangoCrud.TimezoneFromCookie` | modules/graphene_custom/custom_django_crud.py:167-169 | the zone `convert_offset_to_timezone` gives for the cookie's offset, 0 when the cookie is absent (stated by `MissingCookieIsOffsetZero` and `ConvertOffsetToTimezone`) |
| `DjangoCrud.WithTimezone` | modules/graphene_custom/custom_django_crud.py:36-42 | adds the `created_at_in_timezone` conversion to the cookie's zone exactly when the model has `created_at`; rows and ordering unchanged |
| `DjangoCrud.GetQueryset` | modules/graphene_custom/custom_django_crud.py:30-44 | all rows in the default ordering; the time-zone column present iff the model has `created_at`, and then the only annotation |
| `DjangoCrud.MissingCookieIsOffsetZero` | modules/graphene_custom/custom_django_crud.py:37-39 | an absent `timezone` cookie behaves as offset 0 |
| `DjangoCrud.FilterById` | modules/graphene_custom/custom_django_crud.py:47-61 | exactly the table rows whose pk is `id`, with the same time-zone column as `get_queryset` |
| `DjangoCrud.FilterByIdAtMostOne` | modules/graphene_custom/custom_django_crud.py:48 | with unique primary keys at most one row is selected |
| `DjangoCrud.IsMethodOverridden` | modules/graphene_custom/custom_django_crud.py:64-71 | False iff the attribute is missing or falsy |
| `DjangoCrud.CoerceValue` | modules/graphene_custom/custom_django_crud.py:145-146 | an Enum member becomes its value; any other value is kept |
| `DjangoCrud.CoerceAll` | modules/graphene_custom/custom_django_crud.py:144-146 | the definition of the coercion loop (each value coerced in place); its properties are `CoerceAllKeys`, `GetCoerceAll` and `NoEnumLeft` |
| `DjangoCrud.CoerceAllKeys` | modules/graphene_custom/custom_django_crud.py:144-146 | the coercion keeps the key list and distinct keys |
| `DjangoCrud.GetCoerceAll` | modules/graphene_custom/custom_django_crud.py:144-146 | a lookup after the coercion is the coerced lookup before it |
| `DjangoCrud.NoEnumLeft` | modules/graphene_custom/custom_django_crud.py:180-182 | when Enum values are plain values, no Enum member is left |
| `DjangoCrud.VarDict.CoerceEnums` | modules/graphene_custom/custom_django_crud.py:144-146 | the in-place loop leaves the dictionary equal to its coercion, keys still distinct |
| `DjangoCrud.VarDict.Pop` | modules/graphene_custom/custom_django_crud.py:148 | returns the key's value (None when absent) and removes the key, nothing else |
| `DjangoCrud.VarDict.SetItem` | modules/graphene_custom/custom_django_crud.py:160-162 | replaces the key's value in place, or appends the key when absent |
| `DjangoCrud.Mutate` | modules/graphene_custom/custom_django_crud.py:178-183 | coerces `data` in place and passes the coerced data to the library's mutate |
| `DjangoCrud.ReadDateFilters` | modules/graphene_custom/custom_django_crud.py:78-82 | the four chained `.get` reads, in source order, stopping at the first AttributeError |
| `DjangoCrud.ReadDateFiltersValues` | modules/graphene_custom/custom_django_crud.py:78-82 | fails only with AttributeError, exactly when the variables or a present `month`/`year` value are not dicts; `gte`/`lte` are the values under those keys or None; `month`/`year` are the `exact` of their dict, None when the key is missing |
| `DjangoCrud.DateFiltered` | modules/graphene_custom/custom_django_crud.py:73-103 | the reference date filter: one conjunctive filter with the month/year annotations, or the first exception (stated by `DateFilteredProperties`) |
| `DjangoCrud.DateFilteredProperties` | modules/graphene_custom/custom_django_crud.py:79-103 | an order-preserving subsequence holding exactly the rows meeting every truthy predicate; ordering kept; the input itself when no predicate is given |
| `DjangoCrud.FilterByDateTimezone` | modules/graphene_custom/custom_django_crud.py:74-103 | the four conditional steps compute the single conjunctive filter, or the first step's exception |
| `DjangoCrud.FilterByCalendar` | modules/graphene_custom/custom_django_crud.py:85-96 | the month and year steps raise the first calendar error, or keep exactly the rows meeting the supplied month and year, adding their annotations |
| `DjangoCrud.FilterByRange` | modules/graphene_custom/custom_django_crud.py:98-101 | the gte and lte steps raise FieldError without the time-zone column or InvalidValue for a bad value, or keep exactly the rows in range |
| `DjangoCrud.FirstNamed` | modules/graphene_custom/custom_django_crud.py:111-114 | None iff no private field has the name; otherwise the first one that does |
| `DjangoCrud.FindPrivateField` | modules/graphene_custom/custom_django_crud.py:106-114 | the search loop returns that first match, or None |
| `DjangoCrud.AnnotateAll` | modules/graphene_custom/custom_django_crud.py:134 | `annotate(**kwargs)`, one keyword at a time (stated by `AnnotateAllEffect`) |
| `DjangoCrud.AnnotateAllEffect` | modules/graphene_custom/custom_django_crud.py:134 | the names annotated afterwards are the old ones and the keywords; each keyword holds its expression (the last one given for a repeated name); every other annotation keeps its expression |
| `DjangoCrud.OrderStep` | modules/graphene_custom/custom_django_crud.py:126-139 | the reference for one item of the inner loop (stated by `OrderStepProperties`) |
| `DjangoCrud.OrderStepProperties` | modules/graphene_custom/custom_django_crud.py:125-139 | an unknown key raises AttributeError; rows kept; a non-dict `compute` is annotated under `snakecase(key)+"_custom"`; ASC/DESC replace the ordering, other values keep it; a failing `compute` passes its error on; an alias naming a model field raises ValueError; the only other error is FieldError, when ordering by a `key_sk` that a dict-valued `compute` did not annotate and that is no model field |
| `DjangoCrud.OrderStepAnnotations` | modules/graphene_custom/custom_django_crud.py:127-134 | no alias names a model field, and the annotations are `annotate(**kwargs)` of the old ones, with kwargs the dict `compute` returns (each of its keys annotated with its value) or its one expression under `snakecase(key)+"_custom"`; no other name is added and every other annotation is unchanged |
| `DjangoCrud.OrderPairs` | modules/graphene_custom/custom_django_crud.py:117-140 | the reference pass: the step for every item in loop order, stopping at the first exception (stated by the `OrderPairs…` lemmas) |
| `DjangoCrud.OrderPairsStep` | modules/graphene_custom/custom_django_crud.py:124-125 | one more item runs one more step on the result so far |
| `DjangoCrud.OrderPairsErrorSticks` | modules/graphene_custom/custom_django_crud.py:124-139 | after an exception, later items change nothing |
| `DjangoCrud.OrderPairsOrdering` | modules/graphene_custom/custom_django_crud.py:136-139 | rows unchanged; the ordering is the last ASC/DESC item's, or the incoming one when there is none |
| `DjangoCrud.OrderPairsUnknownField` | modules/graphene_custom/custom_django_crud.py:129 | a key that names no private field makes the pass fail |
| `DjangoCrud.OrderPairsSucceeds` | modules/graphene_custom/custom_django_crud.py:124-139 | when every key names a private field whose `compute` succeeds with one expression under an alias that is no model field, the pass succeeds |
| `DjangoCrud.OrderByItem` | modules/graphene_custom/custom_django_crud.py:126-139 | the inner loop body computes one step of the reference pass |
| `DjangoCrud.OrderByEntry` | modules/graphene_custom/custom_django_crud.py:125-139 | the inner loop over one entry's items ends where the reference pass stands after that entry, or with the pass's exception |
| `DjangoCrud.OrderByCustom` | modules/graphene_custom/custom_django_crud.py:117-140 | the nested loops compute the reference pass over all items of all entries, stopping at the first exception |
| `DjangoCrud.PrivateNames` | modules/graphene_custom/custom_django_crud.py:152 | the private fields' names, in order |
| `DjangoCrud.PrivateEntries` | modules/graphene_custom/custom_django_crud.py:155-157 | the reference for the loop collecting the private entries (stated by `PrivateEntriesOk` and `PrivateEntriesFilter`) |
| `DjangoCrud.PrivateEntriesOk` | modules/graphene_custom/custom_django_crud.py:155-157 | the loop over `orderBy` succeeds iff every entry is a non-empty dict |
| `DjangoCrud.PrivateEntriesFilter` | modules/graphene_custom/custom_django_crud.py:155-157 | the custom list is, in original order, exactly the entries whose snakecased first key names a private field |
| `DjangoCrud.PartitionCorrect` | modules/graphene_custom/custom_django_crud.py:160-162 | the `not in custom_order_by` comprehension, under Python's `==`, keeps in order the public entries equal to no private entry, and exactly the public entries when no public entry equals a private one |
| `DjangoCrud.SplitOrderBy` | modules/graphene_custom/custom_django_crud.py:150-162 | with no `orderBy`, or no private fields, no custom entries and the variables unchanged |
| `DjangoCrud.SplitOrderByVars` | modules/graphene_custom/custom_django_crud.py:160-162 | the rewrite keeps the key list and distinct keys, and every variable other than `orderBy` |
| `DjangoCrud.SplitOrderByPartition` | modules/graphene_custom/custom_django_crud.py:150-162 | the custom entries are the private ones; the new `orderBy` holds, in order, the public entries equal to no private entry, which are all the public ones when none is |
| `DjangoCrud.TwinDropped` | modules/graphene_custom/custom_django_crud.py:150-162 | a public entry equal to the private entry before it is dropped with it |
| `DjangoCrud.ReorderedTwinDropped` | modules/graphene_custom/custom_django_crud.py:150-162 | `[{score: ASC, name: DESC}, {name: DESC, score: ASC}]` with `score` private is rewritten to `[]`, not to the public second entry |
| `Values.PyEqRefl` | modules/graphene_custom/custom_django_crud.py:160-162 | every value equals itself, so each custom entry is dropped from `orderBy` |
| `Values.PyEqReordered` | modules/graphene_custom/custom_django_crud.py:160-162 | two dictionaries with the same items in another order are equal |
| `Values.PyEqExamples` | modules/graphene_custom/custom_django_crud.py:160-162 | `True == 1`; a dictionary with an extra key and a list in another order are not equal |
| `DjangoCrud.SplitOrderByCustomDicts` | modules/graphene_custom/custom_django_crud.py:155-157 | every custom entry is a dict |
| `DjangoCrud.PrivateEntriesErrorSticks` | modules/graphene_custom/custom_django_crud.py:155-157 | the first malformed entry's exception is the loop's result |
| `DjangoCrud.CollectPrivateEntries` | modules/graphene_custom/custom_django_crud.py:155-157 | the loop over `orderBy` computes the reference collection of private entries, exceptions included |
| `DjangoCrud.SplitCustomOrderBy` | modules/graphene_custom/custom_django_crud.py:150-162 | the loop and in-place rewrite produce the reference partition, leaving the variables untouched on an exception |
| `DjangoCrud.BatchreadVariables` | modules/graphene_custom/custom_django_crud.py:144-148 | after preprocessing `createdAt` is gone, the date filter gets its coerced former value, and every variable other than `createdAt` and `orderBy` is its coerced original |
| `DjangoCrud.PostProcess` | modules/graphene_custom/custom_django_crud.py:166-175 | the reference for what runs after the library call: the date filter on a truthy `createdAt`, then the custom pass when there are custom entries (stated by `PostProcessRows`) |
| `DjangoCrud.PostProcessRows` | modules/graphene_custom/custom_django_crud.py:166-175 | the rows are the library's, date-filtered only when `createdAt` was truthy; the custom ordering drops no row; nothing changes with neither |
| `DjangoCrud.Batchread` | modules/graphene_custom/custom_django_crud.py:143-175 | coerces, pops `createdAt`, partitions `orderBy`, calls the library on the rewritten variables; the library's exception propagates with the variables already rewritten; otherwise date-filters and custom-orders, with exceptions as in the reference |
| `Models.StatusName` | inventory/models.py:30 | every status is stored as one of PENDING/PAID/CANCELLED, within 20 characters |
| `Models.StatusNameInjective` | inventory/models.py:30 | distinct statuses are stored as distinct strings |
| `Models.EmptyStoreValid` | inventory/models.py:9-47 | the empty database satisfies every table constraint |
| `Models.ItemTotal` | inventory/models.py:40-42 | quantity times unit price (stated by `ItemTotalExample` and `ItemTotalNonNegative`) |
| `Models.ItemTotalExample` | inventory/models.py:40-42 | quantity 3 at 200 cents totals 600 |
| `Models.ItemTotalNonNegative` | inventory/models.py:38-42 | a stored item's total is non-negative, and at least its unit price when quantity >= 1 |
| `Models.OrderTotal` | inventory/models.py:31-33 | the sum of the totals of the order's items (stated by the `OrderTotal…` lemmas) |
| `Models.OrderTotalNoItems` | inventory/models.py:31-33 | an order without items totals 0 |
| `Models.OrderTotalAppend` | inventory/models.py:31-33 | an item adds its total to its own order's total and to no other |
| `Models.OrderTotalNonNegative` | inventory/models.py:31-33 | with stored items an order total is non-negative |
| `Models.OrderTotalExample` | inventory/models.py:31-33 | one item of 2 at 500 makes its order total 1000 and another order's 0 |
| `Models.ProductStr` | inventory/models.py:14-15 | the sku, then " - ", then the name |
| `Models.ProductStrExample` | inventory/models.py:14-15 | the demo mouse reads "WM-001 - Wireless Mouse" |
| `Models.ProductBySku` | inventory/models.py:11 | None iff no product has the sku; otherwise a product row with that sku |
| `Models.CustomerByEmail` | inventory/models.py:25 | None iff no customer has the email; otherwise a customer row with that email |
| `Models.GetOrder` | inventory/tasks.py:14 | DoesNotExist iff no order has the id; otherwise that order's row |
| `Models.UniqueLookup` | inventory/models.py:11 | under the unique sku, lookup by sku finds the one row that has it |
| `Models.Varchar` | inventory/models.py:10-11 | a value within the limit is stored as is; a longer one is stored cut to the limit iff every character past it is a space, and rejected otherwise |
| `Models.VarcharExamples` | inventory/models.py:10-11 | "ab" and "ab  " store as "ab" in a `varchar(2)`; "ab c" is rejected |
| `Models.CreateProduct` | inventory/models.py:9-13 | DataError iff name or sku is rejected by its varchar or the price is outside the 32-bit range; otherwise IntegrityError iff the price is negative or the stored sku exists; the row gets the next id, the stored name and sku, price 0 and is_active True by default, and is appended |
| `Models.CreateProductEdges` | inventory/models.py:9-13 | a price of -3000000000 is a DataError while -1 is an IntegrityError; a sku padded past 64 characters with spaces is stored cut to 64 |
| `Models.CreateInventoryEntry` | inventory/models.py:17-20 | DataError iff delta is outside the 32-bit range or the note is rejected by its varchar; otherwise IntegrityError iff the product is missing; the stored note, "" by default; appended |
| `Models.CreateCustomer` | inventory/models.py:24-26 | DataError iff the email or full name is rejected by its varchar; otherwise IntegrityError iff the stored email exists; stored values appended |
| `Models.CreateOrder` | inventory/models.py:28-30 | succeeds iff the customer exists; status PENDING by default; appended |
| `Models.CreateOrderItem` | inventory/models.py:35-39 | succeeds iff quantity and unit price are non-negative 32-bit integers and the order and product exist; DataError iff either is outside the 32-bit range; quantity 1 by default; appended |
| `Models.CreateAnalyticsEvent` | inventory/models.py:44-47 | DataError iff the kind is rejected by its varchar; otherwise IntegrityError iff a given order is missing; order may be NULL; the stored kind; payload {} by default; appended |
| `Models.GetOrCreateProduct` | inventory/management/commands/seed_demo.py:14 | the existing row with `created` False and the store unchanged, or the create's outcome with `created` True |
| `Models.GetOrCreateCustomer` | inventory/management/commands/seed_demo.py:20 | the existing row unchanged with `created` False, or the create's outcome with `created` True |
| `Models.CreateProductValid` | inventory/models.py:9-13 | a successful create keeps every table constraint |
| `Models.CreateInventoryEntryValid` | inventory/models.py:17-20 | a successful create keeps every table constraint |
| `Models.CreateCustomerValid` | inventory/models.py:24-26 | a successful create keeps every table constraint |
| `Models.CreateOrderValid` | inventory/models.py:28-30 | a successful create keeps every table constraint |
| `Models.CreateOrderItemValid` | inventory/models.py:35-39 | a successful create keeps every table constraint |
| `Models.CreateAnalyticsEventValid` | inventory/models.py:44-47 | a successful create keeps every table constraint |
| `Models.DeleteProduct` | inventory/models.py:17-37 | DoesNotExist for a missing product; ProtectedError while an order item uses it; otherwise removes it and cascades to its inventory entries |
| `Models.DeleteCustomer` | inventory/models.py:28-29 | DoesNotExist for a missing customer; ProtectedError while an order references it; otherwise removes only it |
| `Models.DeleteOrder` | inventory/models.py:35-45 | DoesNotExist for a missing order; otherwise removes it, its items and its analytics events |
| `Models.DeleteProductEffect` | inventory/models.py:18 | the product and its entries are gone; every other product and entry remains; other tables unchanged |
| `Models.DeleteOrderEffect` | inventory/models.py:36-45 | the order, its items and its events are gone; every other row remains |
| `Models.DeleteProductValid` | inventory/models.py:17-37 | a product delete leaves every foreign key pointing at an existing row |
| `Models.DeleteCustomerValid` | inventory/models.py:28-29 | a customer delete keeps every table constraint |
| `Models.DeleteOrderValid` | inventory/models.py:35-45 | an order delete keeps every table constraint |
| `Orm.Database.GetOrCreateProduct` | inventory/management/commands/seed_demo.py:14 | on success the product table becomes the get-or-create's; on failure the database is unchanged |
| `Orm.Database.CreateInventoryEntry` | inventory/management/commands/seed_demo.py:17 | on success the entry table becomes the create's; on failure the database is unchanged |
| `Orm.Database.GetOrCreateCustomer` | inventory/management/commands/seed_demo.py:20 | on success the customer table becomes the get-or-create's; on failure the database is unchanged |
| `Orm.Database.CreateAnalyticsEvent` | inventory/tasks.py:10 | on success the event table becomes the create's; on failure the database is unchanged |
| `Tasks.CurrentStock` | inventory/tasks.py:4-5 | the sum of the deltas of the product's entries (stated by the `CurrentStock…` lemmas) |
| `Tasks.CurrentStockNoEntries` | inventory/tasks.py:4-5 | a product without entries has stock 0 |
| `Tasks.CurrentStockAppend` | inventory/tasks.py:4-5 | an entry moves its own product's stock by its delta and no other product's stock |
| `Tasks.CurrentStockExample` | inventory/tasks.py:4-5 | +10 then -2 gives 8, ignoring another product's entry |
| `Tasks.RecalcInventoryAsync` | inventory/tasks.py:8-10 | appends exactly one event with no order, kind RECALC_PRODUCT and payload {product_id, stock = current stock}; nothing else changes; validity kept |
| `Tasks.PostOrderAnalyticsAsync` | inventory/tasks.py:13-15 | DoesNotExist and no write iff the order is missing; otherwise appends exactly one ORDER_CREATED event linked to the order with its derived total; validity kept |
| `SeedDemo.SeedProduct` | inventory/management/commands/seed_demo.py:14-19 | the reference for one iteration: get or create the product, and add its initial stock only when it was created |
| `SeedDemo.SeedProducts` | inventory/management/commands/seed_demo.py:13-19 | the reference for the product loop, stopping at the first exception |
| `SeedDemo.Seeded` | inventory/management/commands/seed_demo.py:7-22 | the reference for the whole command: the product loop, then the customer's get-or-create |
| `SeedDemo.Handle` | inventory/management/commands/seed_demo.py:7-22 | the loop and customer step leave the database equal to the reference run, or return its first exception |
| `SeedDemo.SeedProductExisting` | inventory/management/commands/seed_demo.py:14-19 | a seed whose sku exists changes nothing |
| `SeedDemo.SeedProductNew` | inventory/management/commands/seed_demo.py:14-17 | a new seed appends the product and exactly one entry of 100 units noted "Initial stock"; no other table changes |
| `SeedDemo.NewProductKeepsInvariant` | inventory/management/commands/seed_demo.py:14-17 | appending a new product with its 100-unit entry keeps the loop invariant |
| `SeedDemo.SeedProductPresent` | inventory/management/commands/seed_demo.py:14 | after one iteration whose sku fits its column, the sku exists, old products are kept and customers are untouched |
| `SeedDemo.SeedProductKeepsInvariant` | inventory/management/commands/seed_demo.py:13-19 | one iteration succeeds on a valid store and keeps the loop invariant |
| `SeedDemo.SeedProductsInvariant` | inventory/management/commands/seed_demo.py:13-19 | the loop succeeds, keeps the store valid, only appends rows, adds entries only for products it created, leaves old stock alone and gives new products 100 |
| `SeedDemo.SeedProductsPresent` | inventory/management/commands/seed_demo.py:13-14 | after a loop over skus that fit their column every seed's sku exists, existing products kept, customers untouched |
| `SeedDemo.SeedProductsNoop` | inventory/management/commands/seed_demo.py:13-19 | when every seed's sku exists the loop changes nothing |
| `SeedDemo.DemoProductsFit` | inventory/management/commands/seed_demo.py:8-12 | the demo seeds fit the product columns |
| `SeedDemo.SeededEffect` | inventory/management/commands/seed_demo.py:7-20 | on a valid store the command succeeds, keeps it valid, keeps existing rows, adds entries only for created products, leaves their stock alone and gives created products 100 units |
| `SeedDemo.SeededPresent` | inventory/management/commands/seed_demo.py:8-20 | afterwards the three skus and c@example.com exist; an existing customer row is kept as it was |
| `SeedDemo.SeededIdempotent` | inventory/management/commands/seed_demo.py:14-20 | a second run changes nothing |
| `SeedDemo.SeededEmptyStock` | inventory/management/commands/seed_demo.py:8-17 | on an empty database each demo product ends with stock 100 |

## Left out

- The `int()` parse of the `timezone` cookie is not modelled. The cookie is an
  optional integer, so the ValueError from a non-numeric cookie is left out.
- The pytz zone database, `datetime.now` and the SQL of `TimeZoneConversion` and
  `Extract` are not modelled. The zone table is a parameter; the annotations are
  symbolic values; localisation and month/year extraction are parameters.
- Django's conversion of a lookup value (a string to a month number or a
  datetime) is the parameter `toInt`. Its failure is the error `InvalidValue`.
- `stringcase.snakecase` and each private field's `compute` are parameters;
  `compute` returns a value or one of the CRUD errors.
- DjangoCrud.OrderStep: `annotate` also raises TypeError when given a value that
  is not an expression. The model takes every value `compute` returns to be an
  expression, so that TypeError is not modelled.
- DjangoCrud.WithTimezone, DjangoCrud.DateFiltered: the `created_at_in_timezone…`
  annotations are taken not to collide with a model field, so their ValueError
  is not modelled. No model of the core has a field of those names.
- Values.PyEq: an Enum member equals a member with the same name and value, as
  the class of an Enum member is not recorded. A dictionary's duplicate keys do
  not arise; the first entry under a key is the one compared.
- `super().batchread` and `super().mutate` are parameters; the first returns a
  queryset or one of the CRUD errors it may raise. The library's
  `BatchReadField`/`ReadField` arguments, its create/update/delete resolution
  and relation `connect` are not visible, so they are not modelled.
- modules/graphene_custom/custom_connection_field.py is not part of this model.
- Mutate: the exception logging and re-raise are not modelled. An exception from
  the library's mutate is taken to pass through unchanged.
- DjangoCrud.OrderByCustom: requires every custom entry to be a dict.
  `batchread` only passes such entries (`SplitOrderByCustomDicts`). A direct call
  with a non-dict entry, which would raise AttributeError, is not modelled.
- Ordering is not materialised: rows stay in table order, and the ordering is
  the argument list of the last `order_by`.
- `created_at`/`updated_at` timestamps and `InventoryEntry.Meta.ordering` are not
  modelled, except as the `createdAt` instant the CRUD layer filters on.
- Models.CreateOrder: `status` is a datatype of the three choices. Django's
  `create` does not validate `choices`, so the model does not capture storing any
  other string of up to 20 characters.
- `AnalyticsEvent.payload` is an arbitrary JSON object. It is modelled as a map to
  integers, which is all the tasks write.
- Ids are unbounded naturals. Running out of the 64-bit `BigAutoField` sequence
  (config/settings.py:66) is not modelled.
- `EmailField` validation happens in forms, not in the database, so it is not
  modelled.
- Deletes of InventoryEntry, OrderItem and AnalyticsEvent rows are not modelled.
  No other row depends on them. Updates are not modelled either, because the
  core has no update path of its own.
- Concurrency is not modelled: the `get_or_create` race, transaction isolation,
  and Celery dispatch, broker and eager mode. The task bodies are plain methods.
- SeedDemo.Handle: on an exception the contract gives the error, not the
  partially seeded state. The command runs without a transaction, and the rows
  written before the exception stay.
- The stdout messages of the seed command are not modelled.
- HTTP views, schema wiring and settings are not modelled. The order-creation and
  cancellation mutations are not part of the visible source, so they are not
  modelled.
