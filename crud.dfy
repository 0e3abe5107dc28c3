/**
  modules/graphene_custom/custom_django_crud.py: the read-path pre- and
  post-processing that `CustomDjangoCRUDObjectType` wraps around the generic CRUD
  library, and the enum coercion of `mutate`.

  A queryset is modelled by the rows it currently selects (in table order), the
  annotations it carries and its ordering, the list passed to the last
  `order_by` (a later `order_by` replaces an earlier one; no sort is
  materialised). Time-zone localisation, calendar extraction, the conversion of
  a lookup value and `stringcase.snakecase` are parameters (see `Env`).
 */
module DjangoCrud {
  import opened Wrappers
  import opened Seqs
  import opened Values
  import Utils

  // ---------------------------------------------------------------------------
  // Querysets, model metadata and the environment
  // ---------------------------------------------------------------------------

  /** A row as the CRUD layer sees it: its primary key and its `created_at` instant (UTC). */
  datatype Row = Row(pk: int, createdAt: int)

  datatype Annotation =
    | TimeZoneConversion(zone: string)   // created_at shown in the zone
    | ExtractMonth(zone: string)         // Extract("created_at", "month", tzinfo=zone)
    | ExtractYear(zone: string)          // Extract("created_at", "year", tzinfo=zone)
    | Computed(expr: Value)              // an expression supplied by a private field

  datatype QuerySet = QuerySet(rows: seq<Row>, annotations: map<string, Annotation>, ordering: seq<string>)

  /**
    A private (non-column) field and its `compute(**variable_values)`, which may
    raise (a TypeError on keyword arguments it does not accept, or any error of
    its own).
   */
  datatype PrivateField = PrivateField(name: string, compute: Entries -> Result<Value, CrudError>)

  /**
    What the layer reads from `cls._meta.model`; `fieldNames` are the names (and
    attribute names) of the model's own fields, the names `annotate` refuses as
    aliases and `order_by` accepts besides annotations.
   */
  datatype ModelMeta = ModelMeta(hasCreatedAt: bool, privateFields: seq<PrivateField>,
                                 defaultOrdering: seq<string>, fieldNames: seq<string>)

  /** The collaborators that are not modelled. */
  datatype Env = Env(
    snakecase: string -> string,          // stringcase.snakecase
    zones: seq<Utils.Zone>,               // pytz.all_timezones with their offsets now
    localize: (string, int) -> int,       // a UTC instant as wall-clock time in the named zone
    monthOf: int -> int,                  // calendar month of a wall-clock time
    yearOf: int -> int,                   // calendar year of a wall-clock time
    toInt: Value -> Option<int>)          // Django's preparation of a lookup value; None when it raises

  /** The exceptions the Python code raises on malformed input. */
  datatype CrudError =
    | TypeError        // iterating a value that is not iterable
    | AttributeError   // `.keys()`/`.get()` on a non-dict, `.compute` on None
    | IndexError       // `list(ob.keys())[0]` on an empty dict
    | FieldError       // a lookup or ordering on a name the queryset does not have
    | InvalidValue     // a lookup value Django cannot convert
    | ValueError       // an annotation alias that conflicts with a field on the model

  const CreatedAtInTimezone: string := "created_at_in_timezone"

  /** The zone named by the `timezone` cookie (offset 0 when the cookie is absent). */
  function TimezoneFromCookie(cookie: Option<int>, env: Env): string
  {
    Utils.ConvertOffsetToTimezone(cookie.GetOr(0), env.zones)
  }

  /** The `created_at_in_timezone` annotation, added only when the model has `created_at`. */
  function WithTimezone(meta: ModelMeta, q: QuerySet, cookie: Option<int>, env: Env): (r: QuerySet)
    ensures r.rows == q.rows && r.ordering == q.ordering
    ensures meta.hasCreatedAt ==> r.annotations == q.annotations[CreatedAtInTimezone := TimeZoneConversion(TimezoneFromCookie(cookie, env))]
    ensures !meta.hasCreatedAt ==> r == q
  {
    if meta.hasCreatedAt then
      q.(annotations := q.annotations[CreatedAtInTimezone := TimeZoneConversion(TimezoneFromCookie(cookie, env))])
    else q
  }

  // ---------------------------------------------------------------------------
  // get_queryset, filter, _is_method_overridden
  // ---------------------------------------------------------------------------

  /** `model.objects.all()`, with the time-zone column when the model has `created_at`. */
  function GetQueryset(meta: ModelMeta, table: seq<Row>, cookie: Option<int>, env: Env): (q: QuerySet)
    ensures q.rows == table && q.ordering == meta.defaultOrdering
    ensures CreatedAtInTimezone in q.annotations <==> meta.hasCreatedAt
    ensures meta.hasCreatedAt ==> q.annotations[CreatedAtInTimezone] == TimeZoneConversion(TimezoneFromCookie(cookie, env))
    ensures meta.hasCreatedAt ==> q.annotations.Keys == {CreatedAtInTimezone}
  {
    WithTimezone(meta, QuerySet(table, map[], meta.defaultOrdering), cookie, env)
  }

  /** An absent cookie is read as offset 0, i.e. UTC's zone. */
  lemma {:induction false} MissingCookieIsOffsetZero(meta: ModelMeta, table: seq<Row>, env: Env)
    ensures GetQueryset(meta, table, None, env) == GetQueryset(meta, table, Some(0), env)
  {
  }

  /** `model.objects.filter(pk=id)`, with the same time-zone column. */
  function FilterById(meta: ModelMeta, table: seq<Row>, id: int, cookie: Option<int>, env: Env): (q: QuerySet)
    ensures forall i :: 0 <= i < |q.rows| ==> q.rows[i].pk == id && q.rows[i] in table
    ensures forall i :: 0 <= i < |table| && table[i].pk == id ==> table[i] in q.rows
    ensures q.annotations == GetQueryset(meta, table, cookie, env).annotations
    ensures q.ordering == meta.defaultOrdering
  {
    FilterMembers(table, HasPk(id));
    WithTimezone(meta, QuerySet(Filter(table, HasPk(id)), map[], meta.defaultOrdering), cookie, env)
  }

  function RowPk(r: Row): int
  {
    r.pk
  }

  /** `pk=id` */
  function HasPk(id: int): Row -> bool
  {
    (r: Row) => r.pk == id
  }

  /** Primary keys are unique, so `filter(pk=id)` selects at most one row. */
  lemma FilterByIdAtMostOne(meta: ModelMeta, table: seq<Row>, id: int, cookie: Option<int>, env: Env)
    requires UniqueBy(table, RowPk)
    ensures |FilterById(meta, table, id, cookie, env).rows| <= 1
  {
    var hits := Filter(table, HasPk(id));
    FilterUniqueBy(table, HasPk(id), RowPk);
    FilterMembers(table, HasPk(id));
    AtMostOneWithKey(hits, RowPk, id);
  }

  /** `getattr(cls, method_name, None)` is truthy. */
  function IsMethodOverridden(attrs: map<string, Value>, methodName: string): (r: bool)
    ensures !r <==> methodName !in attrs || !Truthy(attrs[methodName])
  {
    if methodName in attrs && Truthy(attrs[methodName]) then true else false
  }

  // ---------------------------------------------------------------------------
  // Enum coercion (batchread and mutate)
  // ---------------------------------------------------------------------------

  /** `value.value` for an Enum member, the value itself otherwise. */
  function CoerceValue(v: Value): (r: Value)
    ensures v.VEnum? ==> r == v.value
    ensures !v.VEnum? ==> r == v
  {
    if v.VEnum? then v.value else v
  }

  /** The dictionary after the coercion loop: same keys, in the same order. */
  function CoerceAll(d: Entries): (r: Entries)
    ensures |r| == |d|
    ensures forall i :: 0 <= i < |d| ==> r[i] == (d[i].0, CoerceValue(d[i].1))
  {
    seq(|d|, i requires 0 <= i < |d| => (d[i].0, CoerceValue(d[i].1)))
  }

  lemma CoerceAllKeys(d: Entries)
    ensures Keys(CoerceAll(d)) == Keys(d)
    ensures DistinctKeys(d) ==> DistinctKeys(CoerceAll(d))
  {
  }

  /** Looking a key up after the coercion gives the coerced value of looking it up before. */
  lemma {:induction false} GetCoerceAll(d: Entries, k: string)
    ensures Get(CoerceAll(d), k) == CoerceValue(Get(d, k))
  {
    if d != [] {
      assert CoerceAll(d)[1..] == CoerceAll(d[1..]);
      GetCoerceAll(d[1..], k);
    }
  }

  /** Once the values of Enum members are not themselves members (graphene's case), no Enum is left. */
  lemma NoEnumLeft(d: Entries)
    requires forall i :: 0 <= i < |d| && d[i].1.VEnum? ==> !d[i].1.value.VEnum?
    ensures forall i :: 0 <= i < |d| ==> !CoerceAll(d)[i].1.VEnum?
  {
  }

  /** `info.variable_values` or a mutation's `data`: a dictionary updated in place. */
  class VarDict {
    var entries: Entries

    ghost predicate Valid()
      reads this
    {
      DistinctKeys(entries)
    }

    constructor (d: Entries)
      requires DistinctKeys(d)
      ensures Valid() && entries == d
    {
      entries := d;
    }

    function Contains(k: string): bool
      reads this
    {
      HasKey(entries, k)
    }

    function Lookup(k: string): Value
      reads this
    {
      Get(entries, k)
    }

    /** `for key, value in d.items(): if isinstance(value, Enum): d[key] = value.value` */
    method CoerceEnums()
      requires Valid()
      modifies this
      ensures Valid()
      ensures entries == CoerceAll(old(entries))
    {
      var i := 0;
      while i < |entries|
        invariant 0 <= i <= |entries| == |old(entries)|
        invariant forall j :: 0 <= j < i ==> entries[j] == (old(entries)[j].0, CoerceValue(old(entries)[j].1))
        invariant forall j :: i <= j < |entries| ==> entries[j] == old(entries)[j]
      {
        var (key, value) := entries[i];
        if value.VEnum? {
          entries := entries[i := (key, value.value)];
        }
        i := i + 1;
      }
      CoerceAllKeys(old(entries));
    }

    /** `d.pop(k, None)` */
    method Pop(k: string) returns (v: Value)
      requires Valid()
      modifies this
      ensures Valid()
      ensures v == Get(old(entries), k) && entries == Without(old(entries), k)
    {
      v := Get(entries, k);
      WithoutKeepsDistinct(entries, k);
      entries := Without(entries, k);
    }

    /** `d[k] = v` */
    method SetItem(k: string, v: Value)
      requires Valid()
      modifies this
      ensures Valid()
      ensures entries == Put(old(entries), k, v)
    {
      GetPut(entries, k, v, k);
      entries := Put(entries, k, v);
    }
  }

  /** `mutate`: the coercion, then the library's mutation on the coerced data. */
  method Mutate<R>(data: VarDict, superMutate: Entries -> R) returns (r: R)
    requires data.Valid()
    modifies data
    ensures data.Valid()
    ensures data.entries == CoerceAll(old(data.entries))
    ensures r == superMutate(CoerceAll(old(data.entries)))
  {
    data.CoerceEnums();
    r := superMutate(data.entries);
  }

  // ---------------------------------------------------------------------------
  // filter_by_date_timezone
  // ---------------------------------------------------------------------------

  /** The four date predicates, each the Python value read (None when absent). */
  datatype DateFilters = DateFilters(month: Value, year: Value, gte: Value, lte: Value)

  /** `v.get(k, default)`; raises AttributeError unless `v` is a dict. */
  function DictGet(v: Value, k: string, default: Value): Result<Value, CrudError>
  {
    if v.VDict? then Ok(if HasKey(v.entries, k) then Get(v.entries, k) else default)
    else Err(AttributeError)
  }

  /** Lines reading `month`, `year`, `gte` and `lte`, in that order. */
  function ReadDateFilters(dv: Value): Result<DateFilters, CrudError>
  {
    var monthDict :- DictGet(dv, "month", VDict([]));
    var month :- DictGet(monthDict, "exact", VNone);
    var yearDict :- DictGet(dv, "year", VDict([]));
    var year :- DictGet(yearDict, "exact", VNone);
    var gte :- DictGet(dv, "gte", VNone);
    var lte :- DictGet(dv, "lte", VNone);
    Ok(DateFilters(month, year, gte, lte))
  }

  /**
    Each `.get` on a value that is not a dict raises AttributeError, and a missing
    key reads as None (or as `{}` for `month` and `year`, whose `exact` is then None).
   */
  lemma ReadDateFiltersValues(dv: Value)
    ensures var r := ReadDateFilters(dv);
            && (r.Err? ==> r == Err(AttributeError))
            && (r.Ok? <==> dv.VDict? && (HasKey(dv.entries, "month") ==> Get(dv.entries, "month").VDict?)
                                     && (HasKey(dv.entries, "year") ==> Get(dv.entries, "year").VDict?))
            && (r.Ok? ==> r.value.gte == Get(dv.entries, "gte") && r.value.lte == Get(dv.entries, "lte"))
            && (r.Ok? ==> r.value.month == if HasKey(dv.entries, "month") then Get(Get(dv.entries, "month").entries, "exact") else VNone)
            && (r.Ok? ==> r.value.year == if HasKey(dv.entries, "year") then Get(Get(dv.entries, "year").entries, "exact") else VNone)
  {
  }

  /** The zone of the queryset's `created_at_in_timezone` column, if it has one. */
  function TzColumnZone(q: QuerySet): Option<string>
  {
    if CreatedAtInTimezone in q.annotations && q.annotations[CreatedAtInTimezone].TimeZoneConversion? then
      Some(q.annotations[CreatedAtInTimezone].zone)
    else None
  }

  function LocalTime(env: Env, zone: string, row: Row): int
  {
    env.localize(zone, row.createdAt)
  }

  predicate MonthOk(f: DateFilters, zone: string, env: Env, row: Row)
  {
    Truthy(f.month) ==> env.toInt(f.month) == Some(env.monthOf(LocalTime(env, zone, row)))
  }

  predicate YearOk(f: DateFilters, zone: string, env: Env, row: Row)
  {
    Truthy(f.year) ==> env.toInt(f.year) == Some(env.yearOf(LocalTime(env, zone, row)))
  }

  predicate GteOk(f: DateFilters, tz: string, env: Env, row: Row)
  {
    Truthy(f.gte) ==> env.toInt(f.gte).Some? && LocalTime(env, tz, row) >= env.toInt(f.gte).value
  }

  predicate LteOk(f: DateFilters, tz: string, env: Env, row: Row)
  {
    Truthy(f.lte) ==> env.toInt(f.lte).Some? && LocalTime(env, tz, row) <= env.toInt(f.lte).value
  }

  /** A row survives the date filter iff it meets every supplied (truthy) predicate. */
  predicate KeepByDate(f: DateFilters, zone: string, tz: string, env: Env, row: Row)
  {
    MonthOk(f, zone, env, row) && YearOk(f, zone, env, row) && GteOk(f, tz, env, row) && LteOk(f, tz, env, row)
  }

  function DateTest(f: DateFilters, zone: string, tz: string, env: Env): Row -> bool
  {
    (row: Row) => KeepByDate(f, zone, tz, env, row)
  }

  /** The first exception the month and year steps raise, in step order. */
  function CalendarError(f: DateFilters, meta: ModelMeta, env: Env): Option<CrudError>
  {
    if Truthy(f.month) && !meta.hasCreatedAt then Some(FieldError)
    else if Truthy(f.month) && env.toInt(f.month).None? then Some(InvalidValue)
    else if Truthy(f.year) && !meta.hasCreatedAt then Some(FieldError)
    else if Truthy(f.year) && env.toInt(f.year).None? then Some(InvalidValue)
    else None
  }

  /** The first exception the gte and lte steps raise, in step order. */
  function RangeError(q: QuerySet, f: DateFilters, env: Env): Option<CrudError>
  {
    if Truthy(f.gte) && TzColumnZone(q).None? then Some(FieldError)
    else if Truthy(f.gte) && env.toInt(f.gte).None? then Some(InvalidValue)
    else if Truthy(f.lte) && TzColumnZone(q).None? then Some(FieldError)
    else if Truthy(f.lte) && env.toInt(f.lte).None? then Some(InvalidValue)
    else None
  }

  /** The first exception the four steps raise, in step order. */
  function DateFilterError(q: QuerySet, f: DateFilters, meta: ModelMeta, env: Env): Option<CrudError>
  {
    if CalendarError(f, meta, env).Some? then CalendarError(f, meta, env) else RangeError(q, f, env)
  }

  function DateAnnotations(q: QuerySet, f: DateFilters, zone: string): map<string, Annotation>
  {
    var a1 := if Truthy(f.month) then q.annotations["created_at_in_timezone_month" := ExtractMonth(zone)] else q.annotations;
    if Truthy(f.year) then a1["created_at_in_timezone_year" := ExtractYear(zone)] else a1
  }

  /**
    Reference definition of the date filter: one order-preserving filter by the
    conjunction of the supplied predicates, or the first error. `gte`/`lte` compare
    the `created_at_in_timezone` column, so they use that column's zone.
   */
  function DateFiltered(q: QuerySet, dv: Value, zone: string, meta: ModelMeta, env: Env): Result<QuerySet, CrudError>
  {
    var f :- ReadDateFilters(dv);
    match DateFilterError(q, f, meta, env)
    case Some(e) => Err(e)
    case None =>
      var tz := TzColumnZone(q).GetOr(zone);
      Ok(QuerySet(Filter(q.rows, DateTest(f, zone, tz, env)), DateAnnotations(q, f, zone), q.ordering))
  }

  /**
    The date filter keeps, in order, exactly the rows meeting every supplied
    predicate, keeps the ordering, and is the identity when no predicate is supplied.
   */
  lemma DateFilteredProperties(q: QuerySet, dv: Value, zone: string, meta: ModelMeta, env: Env)
    requires DateFiltered(q, dv, zone, meta, env).Ok?
    ensures var f := ReadDateFilters(dv).value;
            var r := DateFiltered(q, dv, zone, meta, env).value;
            && |r.rows| <= |q.rows|
            && r.ordering == q.ordering
            && (forall i :: 0 <= i < |r.rows| ==> r.rows[i] in q.rows && KeepByDate(f, zone, TzColumnZone(q).GetOr(zone), env, r.rows[i]))
            && (forall i :: 0 <= i < |q.rows| && KeepByDate(f, zone, TzColumnZone(q).GetOr(zone), env, q.rows[i]) ==> q.rows[i] in r.rows)
            && (!Truthy(f.month) && !Truthy(f.year) && !Truthy(f.gte) && !Truthy(f.lte) ==> r == q)
  {
    var f := ReadDateFilters(dv).value;
    var tz := TzColumnZone(q).GetOr(zone);
    FilterMembers(q.rows, DateTest(f, zone, tz, env));
    if !Truthy(f.month) && !Truthy(f.year) && !Truthy(f.gte) && !Truthy(f.lte) {
      FilterAll(q.rows, DateTest(f, zone, tz, env));
    }
  }

  /** The predicates applied after `stage` of the four steps. */
  function KeptAfter(stage: nat, f: DateFilters, zone: string, tz: string, env: Env): Row -> bool
  {
    (row: Row) =>
      && (stage >= 1 ==> MonthOk(f, zone, env, row))
      && (stage >= 2 ==> YearOk(f, zone, env, row))
      && (stage >= 3 ==> GteOk(f, tz, env, row))
      && (stage >= 4 ==> LteOk(f, tz, env, row))
  }

  /** `filter(created_at_in_timezone_month=m)` */
  function MonthIs(env: Env, zone: string, m: int): Row -> bool
  {
    (row: Row) => env.monthOf(LocalTime(env, zone, row)) == m
  }

  /** `filter(created_at_in_timezone_year=y)` */
  function YearIs(env: Env, zone: string, y: int): Row -> bool
  {
    (row: Row) => env.yearOf(LocalTime(env, zone, row)) == y
  }

  /** `filter(created_at_in_timezone__gte=v)` */
  function NotBefore(env: Env, tz: string, v: int): Row -> bool
  {
    (row: Row) => LocalTime(env, tz, row) >= v
  }

  /** `filter(created_at_in_timezone__lte=v)` */
  function NotAfter(env: Env, tz: string, v: int): Row -> bool
  {
    (row: Row) => LocalTime(env, tz, row) <= v
  }

  /** The method as written: four conditional steps, each rebinding the queryset. */
  method FilterByDateTimezone(queryset: QuerySet, dateVariables: Value, timezone: string, meta: ModelMeta, env: Env)
    returns (r: Result<QuerySet, CrudError>)
    ensures r == DateFiltered(queryset, dateVariables, timezone, meta, env)
  {
    var f :- ReadDateFilters(dateVariables);
    ghost var tz := TzColumnZone(queryset).GetOr(timezone);
    var q :- FilterByCalendar(queryset, f, timezone, tz, meta, env);
    assert TzColumnZone(q) == TzColumnZone(queryset);
    r := FilterByRange(q, f, queryset.rows, timezone, env);
    if r.Ok? {
      FilterCongruent(queryset.rows, KeptAfter(4, f, timezone, tz, env), DateTest(f, timezone, tz, env));
    }
  }

  /** The month and year steps (annotate with the extracted field, then filter by it). */
  method FilterByCalendar(queryset: QuerySet, f: DateFilters, timezone: string, ghost tz: string, meta: ModelMeta, env: Env)
    returns (r: Result<QuerySet, CrudError>)
    ensures CalendarError(f, meta, env).Some? ==> r == Err(CalendarError(f, meta, env).value)
    ensures CalendarError(f, meta, env).None? ==>
              r == Ok(QuerySet(Filter(queryset.rows, KeptAfter(2, f, timezone, tz, env)),
                               DateAnnotations(queryset, f, timezone), queryset.ordering))
  {
    var q := queryset;
    FilterAll(queryset.rows, KeptAfter(0, f, timezone, tz, env));

    if Truthy(f.month) {
      if !meta.hasCreatedAt { return Err(FieldError); }
      var month := env.toInt(f.month);
      if month.None? { return Err(InvalidValue); }
      q := q.(annotations := q.annotations["created_at_in_timezone_month" := ExtractMonth(timezone)]);
      q := q.(rows := Filter(q.rows, MonthIs(env, timezone, month.value)));
      FilterTwice(queryset.rows, KeptAfter(0, f, timezone, tz, env), MonthIs(env, timezone, month.value), KeptAfter(1, f, timezone, tz, env));
    } else {
      FilterCongruent(queryset.rows, KeptAfter(0, f, timezone, tz, env), KeptAfter(1, f, timezone, tz, env));
    }

    if Truthy(f.year) {
      if !meta.hasCreatedAt { return Err(FieldError); }
      var year := env.toInt(f.year);
      if year.None? { return Err(InvalidValue); }
      q := q.(annotations := q.annotations["created_at_in_timezone_year" := ExtractYear(timezone)]);
      q := q.(rows := Filter(q.rows, YearIs(env, timezone, year.value)));
      FilterTwice(queryset.rows, KeptAfter(1, f, timezone, tz, env), YearIs(env, timezone, year.value), KeptAfter(2, f, timezone, tz, env));
    } else {
      FilterCongruent(queryset.rows, KeptAfter(1, f, timezone, tz, env), KeptAfter(2, f, timezone, tz, env));
    }
    r := Ok(q);
  }

  /**
    The gte and lte steps, on the `created_at_in_timezone` column. `rows` is the
    queryset before the month and year steps, which left `q.rows` filtered.
   */
  method FilterByRange(q: QuerySet, f: DateFilters, ghost rows: seq<Row>, ghost timezone: string, env: Env)
    returns (r: Result<QuerySet, CrudError>)
    requires q.rows == Filter(rows, KeptAfter(2, f, timezone, TzColumnZone(q).GetOr(timezone), env))
    ensures RangeError(q, f, env).Some? ==> r == Err(RangeError(q, f, env).value)
    ensures RangeError(q, f, env).None? ==>
              r == Ok(q.(rows := Filter(rows, KeptAfter(4, f, timezone, TzColumnZone(q).GetOr(timezone), env))))
  {
    ghost var tz := TzColumnZone(q).GetOr(timezone);
    var q1 := q;
    if Truthy(f.gte) {
      var zone := TzColumnZone(q);
      if zone.None? { return Err(FieldError); }
      var gte := env.toInt(f.gte);
      if gte.None? { return Err(InvalidValue); }
      q1 := q1.(rows := Filter(q1.rows, NotBefore(env, zone.value, gte.value)));
      FilterTwice(rows, KeptAfter(2, f, timezone, tz, env), NotBefore(env, zone.value, gte.value), KeptAfter(3, f, timezone, tz, env));
    } else {
      FilterCongruent(rows, KeptAfter(2, f, timezone, tz, env), KeptAfter(3, f, timezone, tz, env));
    }

    if Truthy(f.lte) {
      var zone := TzColumnZone(q);
      if zone.None? { return Err(FieldError); }
      var lte := env.toInt(f.lte);
      if lte.None? { return Err(InvalidValue); }
      q1 := q1.(rows := Filter(q1.rows, NotAfter(env, zone.value, lte.value)));
      FilterTwice(rows, KeptAfter(3, f, timezone, tz, env), NotAfter(env, zone.value, lte.value), KeptAfter(4, f, timezone, tz, env));
    } else {
      FilterCongruent(rows, KeptAfter(3, f, timezone, tz, env), KeptAfter(4, f, timezone, tz, env));
    }
    r := Ok(q1);
  }


  // ---------------------------------------------------------------------------
  // find_private_field and order_by_custom
  // ---------------------------------------------------------------------------

  /** The first private field called `name`, or None. */
  function FirstNamed(fields: seq<PrivateField>, name: string): (r: Option<PrivateField>)
    ensures r.None? <==> forall i :: 0 <= i < |fields| ==> fields[i].name != name
    ensures r.Some? ==> exists i :: 0 <= i < |fields| && fields[i] == r.value && r.value.name == name &&
                                    forall j :: 0 <= j < i ==> fields[j].name != name
  {
    if fields == [] then None
    else if fields[0].name == name then Some(fields[0])
    else
      var r := FirstNamed(fields[1..], name);
      assert forall i :: 1 <= i < |fields| ==> fields[i] == fields[1..][i - 1];
      r
  }

  /** The linear search of `find_private_field`. */
  method FindPrivateField(meta: ModelMeta, name: string) returns (r: Option<PrivateField>)
    ensures r == FirstNamed(meta.privateFields, name)
  {
    var fields := meta.privateFields;
    var i := 0;
    while i < |fields|
      invariant 0 <= i <= |fields|
      invariant FirstNamed(fields, name) == FirstNamed(fields[i..], name)
    {
      if fields[i].name == name {
        return Some(fields[i]);
      }
      assert fields[i..][1..] == fields[i + 1..];
      i := i + 1;
    }
    return None;
  }

  /** `snakecase(key) + "_custom"`: the name a private field is annotated and ordered under. */
  function CustomKey(env: Env, key: string): string
  {
    env.snakecase(key) + "_custom"
  }

  predicate IsDirective(v: Value)
  {
    v == VStr("ASC") || v == VStr("DESC")
  }

  /** The `order_by` argument list for an "ASC" or "DESC" entry. */
  function DirectiveOrdering(env: Env, key: string, v: Value): seq<string>
  {
    if v == VStr("ASC") then [CustomKey(env, key)] else ["-" + CustomKey(env, key)]
  }

  /** `queryset.annotate(**kwargs)`, one keyword at a time. */
  function AnnotateAll(anns: map<string, Annotation>, kwargs: Entries): map<string, Annotation>
    decreases |kwargs|
  {
    if kwargs == [] then anns
    else
      var last := kwargs[|kwargs| - 1];
      AnnotateAll(anns, kwargs[..|kwargs| - 1])[last.0 := Computed(last.1)]
  }

  /**
    After `annotate(**kwargs)` the annotated names are the old ones and the
    keywords; every keyword names its expression (the last one given, should a
    name repeat), and every other annotation is kept as it was.
   */
  lemma AnnotateAllEffect(anns: map<string, Annotation>, kwargs: Entries)
    ensures var r := AnnotateAll(anns, kwargs);
            && (forall k :: k in r <==> k in anns || k in Keys(kwargs))
            && (forall k :: k in anns && k !in Keys(kwargs) ==> r[k] == anns[k])
            && (forall i :: 0 <= i < |kwargs| && (forall j :: i < j < |kwargs| ==> kwargs[j].0 != kwargs[i].0) ==>
                  kwargs[i].0 in r && r[kwargs[i].0] == Computed(kwargs[i].1))
  {
    var r := AnnotateAll(anns, kwargs);
    forall k ensures (k in r <==> k in anns || k in Keys(kwargs)) && (k in anns && k !in Keys(kwargs) ==> r[k] == anns[k]) {
      AnnotateAllKey(anns, kwargs, k);
    }
    forall i | 0 <= i < |kwargs| && (forall j :: i < j < |kwargs| ==> kwargs[j].0 != kwargs[i].0)
      ensures kwargs[i].0 in r && r[kwargs[i].0] == Computed(kwargs[i].1)
    {
      AnnotateAllValue(anns, kwargs, i);
    }
  }

  lemma {:induction false} AnnotateAllKey(anns: map<string, Annotation>, kwargs: Entries, k: string)
    ensures k in AnnotateAll(anns, kwargs) <==> k in anns || k in Keys(kwargs)
    ensures k in anns && k !in Keys(kwargs) ==> AnnotateAll(anns, kwargs)[k] == anns[k]
    decreases |kwargs|
  {
    if kwargs != [] {
      var init := kwargs[..|kwargs| - 1];
      AnnotateAllKey(anns, init, k);
      assert Keys(kwargs) == Keys(init) + [kwargs[|kwargs| - 1].0];
    }
  }

  lemma {:induction false} AnnotateAllValue(anns: map<string, Annotation>, kwargs: Entries, i: nat)
    requires i < |kwargs| && forall j :: i < j < |kwargs| ==> kwargs[j].0 != kwargs[i].0
    ensures kwargs[i].0 in AnnotateAll(anns, kwargs) && AnnotateAll(anns, kwargs)[kwargs[i].0] == Computed(kwargs[i].1)
    decreases |kwargs|
  {
    if i < |kwargs| - 1 {
      var init := kwargs[..|kwargs| - 1];
      assert init[i] == kwargs[i];
      forall j | i < j < |init| ensures init[j].0 != init[i].0 {
        assert init[j] == kwargs[j];
      }
      AnnotateAllValue(anns, init, i);
    }
  }

  /** The annotations `compute` asks for: its dict as is, or one expression under `CustomKey`. */
  function Kwargs(computed: Value, keySk: string): Entries
  {
    if computed.VDict? then computed.entries else [(keySk, computed)]
  }

  /** Some alias `annotate(**kwargs)` is given names a field of the model. */
  predicate ConflictsWithField(kwargs: Entries, meta: ModelMeta)
  {
    exists i :: 0 <= i < |kwargs| && kwargs[i].0 in meta.fieldNames
  }

  /** One (key, value) item of a custom orderBy entry, as the inner loop body of `order_by_custom`. */
  function OrderStep(q: QuerySet, key: string, value: Value, vars: Entries, meta: ModelMeta, env: Env): Result<QuerySet, CrudError>
  {
    match FirstNamed(meta.privateFields, env.snakecase(key))
    case None => Err(AttributeError)
    case Some(field) =>
      var computed :- field.compute(vars);
      var keySk := CustomKey(env, key);
      var kwargs := Kwargs(computed, keySk);
      if ConflictsWithField(kwargs, meta) then Err(ValueError)
      else
        var q1 := q.(annotations := AnnotateAll(q.annotations, kwargs));
        if IsDirective(value) then
          if keySk in q1.annotations || keySk in meta.fieldNames then Ok(q1.(ordering := DirectiveOrdering(env, key, value)))
          else Err(FieldError)
        else Ok(q1)
  }

  /**
    One item: an unknown key raises AttributeError (`None.compute`), a failing
    `compute` passes its error on, and an alias that names a model field raises
    ValueError; otherwise the rows are kept, the item's expression is annotated
    under `key_sk` unless `compute` returns a dict, and the ordering is replaced
    by an "ASC"/"DESC" value and kept by any other. The only other failure is
    ordering by a `key_sk` that a dict-valued `compute` did not annotate and
    that is no field of the model.
   */
  lemma OrderStepProperties(q: QuerySet, key: string, value: Value, vars: Entries, meta: ModelMeta, env: Env)
    ensures var r := OrderStep(q, key, value, vars, meta, env);
            var field := FirstNamed(meta.privateFields, env.snakecase(key));
            && (field.None? ==> r == Err(AttributeError))
            && (field.Some? && field.value.compute(vars).Err? ==> r == Err(field.value.compute(vars).error))
            && (field.Some? && field.value.compute(vars).Ok? &&
                ConflictsWithField(Kwargs(field.value.compute(vars).value, CustomKey(env, key)), meta) ==>
                  r == Err(ValueError))
            && (r.Ok? ==> r.value.rows == q.rows)
            && (r.Ok? ==> r.value.ordering == if IsDirective(value) then DirectiveOrdering(env, key, value) else q.ordering)
            && (r.Ok? && !field.value.compute(vars).value.VDict? ==>
                  CustomKey(env, key) in r.value.annotations &&
                  CustomKey(env, key) !in meta.fieldNames &&
                  r.value.annotations[CustomKey(env, key)] == Computed(field.value.compute(vars).value))
            && (r.Err? && field.Some? && field.value.compute(vars).Ok? &&
                !ConflictsWithField(Kwargs(field.value.compute(vars).value, CustomKey(env, key)), meta) ==>
                  r == Err(FieldError) && IsDirective(value) && field.value.compute(vars).value.VDict? &&
                  CustomKey(env, key) !in meta.fieldNames)
  {
    var field := FirstNamed(meta.privateFields, env.snakecase(key));
    if field.Some? && field.value.compute(vars).Ok? {
      var computed := field.value.compute(vars).value;
      var kwargs := Kwargs(computed, CustomKey(env, key));
      AnnotateAllEffect(q.annotations, kwargs);
      if !computed.VDict? {
        assert kwargs[0].0 == CustomKey(env, key);
      }
    }
  }

  /**
    The annotations after one item are those of `annotate(**kwargs)`: every key of
    the dict `compute` returns names its value, or its one expression is under
    `key_sk`; no other annotation is added, and every other keeps its expression.
   */
  lemma OrderStepAnnotations(q: QuerySet, key: string, value: Value, vars: Entries, meta: ModelMeta, env: Env)
    requires OrderStep(q, key, value, vars, meta, env).Ok?
    ensures var r := OrderStep(q, key, value, vars, meta, env).value;
            var computed := FirstNamed(meta.privateFields, env.snakecase(key)).value.compute(vars).value;
            var kwargs := Kwargs(computed, CustomKey(env, key));
            && !ConflictsWithField(kwargs, meta)
            && r.annotations == AnnotateAll(q.annotations, kwargs)
            && (forall k :: k in r.annotations <==> k in q.annotations || k in Keys(kwargs))
            && (forall k :: k in q.annotations && k !in Keys(kwargs) ==> r.annotations[k] == q.annotations[k])
            && (computed.VDict? ==>
                  forall i :: 0 <= i < |computed.entries| &&
                              (forall j :: i < j < |computed.entries| ==> computed.entries[j].0 != computed.entries[i].0) ==>
                    computed.entries[i].0 in r.annotations && r.annotations[computed.entries[i].0] == Computed(computed.entries[i].1))
  {
    var computed := FirstNamed(meta.privateFields, env.snakecase(key)).value.compute(vars).value;
    AnnotateAllEffect(q.annotations, Kwargs(computed, CustomKey(env, key)));
  }

  /** All (key, value) items of the custom entries, in loop order. */
  function Flatten(custom: seq<Value>): Entries
    decreases |custom|
  {
    if custom == [] then []
    else
      var last := custom[|custom| - 1];
      Flatten(custom[..|custom| - 1]) + (if last.VDict? then last.entries else [])
  }

  /** Reference definition of `order_by_custom`: the steps for every item, stopping at the first error. */
  function OrderPairs(q: QuerySet, pairs: Entries, vars: Entries, meta: ModelMeta, env: Env): Result<QuerySet, CrudError>
    decreases |pairs|
  {
    if pairs == [] then Ok(q)
    else
      var q' :- OrderPairs(q, pairs[..|pairs| - 1], vars, meta, env);
      OrderStep(q', pairs[|pairs| - 1].0, pairs[|pairs| - 1].1, vars, meta, env)
  }

  lemma {:induction false} OrderPairsStep(q: QuerySet, pairs: Entries, key: string, value: Value, vars: Entries, meta: ModelMeta, env: Env)
    ensures OrderPairs(q, pairs + [(key, value)], vars, meta, env) ==
            match OrderPairs(q, pairs, vars, meta, env)
            case Err(e) => Err(e)
            case Ok(q') => OrderStep(q', key, value, vars, meta, env)
  {
    assert (pairs + [(key, value)])[..|pairs|] == pairs;
  }

  /** After an error, further items change nothing: the exception propagates. */
  lemma {:induction false} OrderPairsErrorSticks(q: QuerySet, pairs: Entries, more: Entries, vars: Entries, meta: ModelMeta, env: Env)
    requires OrderPairs(q, pairs, vars, meta, env).Err?
    ensures OrderPairs(q, pairs + more, vars, meta, env) == OrderPairs(q, pairs, vars, meta, env)
    decreases |more|
  {
    if more != [] {
      var init := more[..|more| - 1];
      OrderPairsErrorSticks(q, pairs, init, vars, meta, env);
      assert pairs + more == (pairs + init) + [more[|more| - 1]];
      OrderPairsErrorStep(q, pairs + init, more[|more| - 1], vars, meta, env);
    } else {
      assert pairs + more == pairs;
    }
  }

  lemma OrderPairsErrorStep(q: QuerySet, pairs: Entries, item: (string, Value), vars: Entries, meta: ModelMeta, env: Env)
    requires OrderPairs(q, pairs, vars, meta, env).Err?
    ensures OrderPairs(q, pairs + [item], vars, meta, env) == OrderPairs(q, pairs, vars, meta, env)
  {
    assert (pairs + [item])[..|pairs|] == pairs;
  }

  /**
    `order_by` replaces the ordering: after the custom pass the ordering is the one
    the last "ASC"/"DESC" item asks for, and the incoming ordering (including the
    one the library applied) when there is none. The rows are never changed.
   */
  lemma {:induction false} OrderPairsOrdering(q: QuerySet, pairs: Entries, vars: Entries, meta: ModelMeta, env: Env)
    requires OrderPairs(q, pairs, vars, meta, env).Ok?
    ensures OrderPairs(q, pairs, vars, meta, env).value.rows == q.rows
    ensures (forall k :: 0 <= k < |pairs| ==> !IsDirective(pairs[k].1)) ==>
              OrderPairs(q, pairs, vars, meta, env).value.ordering == q.ordering
    ensures forall k :: 0 <= k < |pairs| && IsDirective(pairs[k].1) &&
                        (forall j :: k < j < |pairs| ==> !IsDirective(pairs[j].1)) ==>
              OrderPairs(q, pairs, vars, meta, env).value.ordering == DirectiveOrdering(env, pairs[k].0, pairs[k].1)
    decreases |pairs|
  {
    if pairs != [] {
      var init := pairs[..|pairs| - 1];
      OrderPairsOrdering(q, init, vars, meta, env);
      OrderStepProperties(OrderPairs(q, init, vars, meta, env).value, pairs[|pairs| - 1].0, pairs[|pairs| - 1].1, vars, meta, env);
      forall k | 0 <= k < |pairs| - 1 ensures init[k] == pairs[k] { }
    }
  }

  /** Each item whose snakecased key names no private field makes the pass fail. */
  lemma {:induction false} OrderPairsUnknownField(q: QuerySet, pairs: Entries, k: nat, vars: Entries, meta: ModelMeta, env: Env)
    requires k < |pairs| && FirstNamed(meta.privateFields, env.snakecase(pairs[k].0)).None?
    ensures OrderPairs(q, pairs, vars, meta, env).Err?
  {
    var upto := pairs[..k];
    assert pairs[..k + 1] == upto + [pairs[k]];
    OrderPairsStep(q, upto, pairs[k].0, pairs[k].1, vars, meta, env);
    if OrderPairs(q, upto, vars, meta, env).Ok? {
      OrderStepProperties(OrderPairs(q, upto, vars, meta, env).value, pairs[k].0, pairs[k].1, vars, meta, env);
    }
    assert pairs == pairs[..k + 1] + pairs[k + 1..];
    OrderPairsErrorSticks(q, pairs[..k + 1], pairs[k + 1..], vars, meta, env);
  }

  /** The item's key names a private field whose `compute` succeeds with one expression, under an alias that is no model field. */
  predicate SingleExpressionItem(key: string, vars: Entries, meta: ModelMeta, env: Env)
  {
    var field := FirstNamed(meta.privateFields, env.snakecase(key));
    && field.Some?
    && field.value.compute(vars).Ok?
    && !field.value.compute(vars).value.VDict?
    && CustomKey(env, key) !in meta.fieldNames
  }

  /**
    When every key names a private field whose `compute` succeeds with a single
    expression and whose alias is no model field, the pass succeeds.
   */
  lemma {:induction false} OrderPairsSucceeds(q: QuerySet, pairs: Entries, vars: Entries, meta: ModelMeta, env: Env)
    requires forall k :: 0 <= k < |pairs| ==> SingleExpressionItem(pairs[k].0, vars, meta, env)
    ensures OrderPairs(q, pairs, vars, meta, env).Ok?
    decreases |pairs|
  {
    if pairs != [] {
      var init := pairs[..|pairs| - 1];
      forall k | 0 <= k < |init| ensures init[k] == pairs[k] { }
      OrderPairsSucceeds(q, init, vars, meta, env);
      OrderStepProperties(OrderPairs(q, init, vars, meta, env).value, pairs[|pairs| - 1].0, pairs[|pairs| - 1].1, vars, meta, env);
    }
  }

  /** The body of the inner loop of `order_by_custom`, for one (key, value) item. */
  method OrderByItem(q: QuerySet, key: string, value: Value, variableValues: Entries, meta: ModelMeta, env: Env)
    returns (r: Result<QuerySet, CrudError>)
    ensures r == OrderStep(q, key, value, variableValues, meta, env)
  {
    var keySk := env.snakecase(key) + "_custom";
    var field := FindPrivateField(meta, env.snakecase(key));
    if field.None? {
      return Err(AttributeError);
    }
    var computed :- field.value.compute(variableValues);
    var kwargs := if computed.VDict? then computed.entries else [(keySk, computed)];
    if ConflictsWithField(kwargs, meta) {
      return Err(ValueError);
    }
    var q1 := q.(annotations := AnnotateAll(q.annotations, kwargs));
    if value == VStr("ASC") || value == VStr("DESC") {
      if keySk !in q1.annotations && keySk !in meta.fieldNames {
        return Err(FieldError);
      }
      if value == VStr("ASC") {
        q1 := q1.(ordering := [keySk]);
      } else {
        q1 := q1.(ordering := ["-" + keySk]);
      }
    }
    r := Ok(q1);
  }

  /** The nested loops of `order_by_custom`. */
  method OrderByCustom(queryset: QuerySet, customOrderBy: seq<Value>, variableValues: Entries, meta: ModelMeta, env: Env)
    returns (r: Result<QuerySet, CrudError>)
    requires forall i :: 0 <= i < |customOrderBy| ==> customOrderBy[i].VDict?
    ensures r == OrderPairs(queryset, Flatten(customOrderBy), variableValues, meta, env)
  {
    var q := queryset;
    var i := 0;
    while i < |customOrderBy|
      invariant 0 <= i <= |customOrderBy|
      invariant OrderPairs(queryset, Flatten(customOrderBy[..i]), variableValues, meta, env) == Ok(q)
    {
      var next := OrderByEntry(queryset, q, customOrderBy, i, variableValues, meta, env);
      if next.Err? {
        return next;
      }
      q := next.value;
      i := i + 1;
    }
    assert customOrderBy[..i] == customOrderBy;
    r := Ok(q);
  }

  /**
    The inner loop of `order_by_custom`, over the items of entry `i`: it ends where
    the reference pass stands after that entry, or with the pass's exception.
   */
  method OrderByEntry(queryset: QuerySet, q0: QuerySet, customOrderBy: seq<Value>, i: nat, variableValues: Entries,
                      meta: ModelMeta, env: Env)
    returns (r: Result<QuerySet, CrudError>)
    requires i < |customOrderBy| && customOrderBy[i].VDict?
    requires OrderPairs(queryset, Flatten(customOrderBy[..i]), variableValues, meta, env) == Ok(q0)
    ensures r.Ok? ==> r == OrderPairs(queryset, Flatten(customOrderBy[..i + 1]), variableValues, meta, env)
    ensures r.Err? ==> r == OrderPairs(queryset, Flatten(customOrderBy), variableValues, meta, env)
  {
    var q := q0;
    var ob := customOrderBy[i].entries;
    ghost var done := Flatten(customOrderBy[..i]);
    var j := 0;
    assert done + ob[..0] == done;
    while j < |ob|
      invariant 0 <= j <= |ob|
      invariant OrderPairs(queryset, done + ob[..j], variableValues, meta, env) == Ok(q)
    {
      var (key, value) := ob[j];
      OrderPairsNext(queryset, customOrderBy, i, j, variableValues, meta, env);
      var next := OrderByItem(q, key, value, variableValues, meta, env);
      if next.Err? {
        return Err(next.error);
      }
      q := next.value;
      j := j + 1;
    }
    assert ob[..j] == ob;
    FlattenNext(customOrderBy, i);
    r := Ok(q);
  }

  lemma FlattenNext(custom: seq<Value>, i: nat)
    requires i < |custom| && custom[i].VDict?
    ensures Flatten(custom[..i + 1]) == Flatten(custom[..i]) + custom[i].entries
  {
    assert custom[..i + 1][..i] == custom[..i];
  }

  /** The step from item `j` of entry `i` to the next, and its failure ending the whole pass. */
  lemma OrderPairsNext(q: QuerySet, custom: seq<Value>, i: nat, j: nat, vars: Entries, meta: ModelMeta, env: Env)
    requires i < |custom| && custom[i].VDict? && j < |custom[i].entries|
    ensures var pre := Flatten(custom[..i]) + custom[i].entries[..j];
            var item := custom[i].entries[j];
            && OrderPairs(q, Flatten(custom[..i]) + custom[i].entries[..j + 1], vars, meta, env) ==
                 (match OrderPairs(q, pre, vars, meta, env)
                  case Err(e) => Err(e)
                  case Ok(q') => OrderStep(q', item.0, item.1, vars, meta, env))
            && (OrderPairs(q, Flatten(custom[..i]) + custom[i].entries[..j + 1], vars, meta, env).Err? ==>
                  OrderPairs(q, Flatten(custom), vars, meta, env) == OrderPairs(q, Flatten(custom[..i]) + custom[i].entries[..j + 1], vars, meta, env))
  {
    var done := Flatten(custom[..i]);
    var ob := custom[i].entries;
    assert done + ob[..j + 1] == (done + ob[..j]) + [ob[j]];
    OrderPairsStep(q, done + ob[..j], ob[j].0, ob[j].1, vars, meta, env);
    if OrderPairs(q, done + ob[..j + 1], vars, meta, env).Err? {
      FlattenSplit(custom, i, j);
      OrderPairsErrorSticks(q, done + ob[..j + 1], ob[j + 1..] + FlattenFrom(custom, i + 1), vars, meta, env);
    }
  }

  /** The items of the entries from position `i` on. */
  function FlattenFrom(custom: seq<Value>, i: nat): Entries
    requires i <= |custom|
    decreases |custom| - i
  {
    if i == |custom| then [] else (if custom[i].VDict? then custom[i].entries else []) + FlattenFrom(custom, i + 1)
  }

  lemma {:induction false} FlattenConcat(custom: seq<Value>, i: nat)
    requires i <= |custom|
    ensures Flatten(custom) == Flatten(custom[..i]) + FlattenFrom(custom, i)
    decreases |custom| - i
  {
    if i < |custom| {
      FlattenConcat(custom, i + 1);
      assert custom[..i + 1][..i] == custom[..i];
    } else {
      assert custom[..i] == custom;
    }
  }

  lemma FlattenSplit(custom: seq<Value>, i: nat, j: nat)
    requires i < |custom| && custom[i].VDict? && j < |custom[i].entries|
    ensures Flatten(custom) == (Flatten(custom[..i]) + custom[i].entries[..j + 1]) + (custom[i].entries[j + 1..] + FlattenFrom(custom, i + 1))
  {
    FlattenConcat(custom, i);
    assert FlattenFrom(custom, i) == custom[i].entries + FlattenFrom(custom, i + 1);
    RegroupAt(Flatten(custom[..i]), custom[i].entries, FlattenFrom(custom, i + 1), j + 1);
  }

  lemma RegroupAt<T>(a: seq<T>, b: seq<T>, c: seq<T>, k: nat)
    requires k <= |b|
    ensures a + (b + c) == (a + b[..k]) + (b[k..] + c)
  {
    assert b == b[..k] + b[k..];
  }

  // ---------------------------------------------------------------------------
  // batchread: the orderBy partition and the whole pre/post-processing
  // ---------------------------------------------------------------------------

  /** `[field.name for field in model._meta.private_fields]` */
  function PrivateNames(meta: ModelMeta): (names: seq<string>)
    ensures |names| == |meta.privateFields|
    ensures forall i :: 0 <= i < |names| ==> names[i] == meta.privateFields[i].name
  {
    seq(|meta.privateFields|, i requires 0 <= i < |meta.privateFields| => meta.privateFields[i].name)
  }

  /** What `for ob in v` iterates over; TypeError for values that are not iterable. */
  function Iterate(v: Value): Result<seq<Value>, CrudError>
  {
    match v
    case VList(es) => Ok(es)
    case VStr(s) => Ok(seq(|s|, i requires 0 <= i < |s| => VStr([s[i]])))
    case VDict(es) => Ok(seq(|es|, i requires 0 <= i < |es| => VStr(es[i].0)))
    case _ => Err(TypeError)
  }

  /** An entry whose first key can be read. */
  predicate WellFormedEntry(ob: Value)
  {
    ob.VDict? && ob.entries != []
  }

  /** An entry whose first key, snakecased, names a private field. */
  predicate IsPrivateEntry(ob: Value, names: seq<string>, env: Env)
  {
    WellFormedEntry(ob) && env.snakecase(ob.entries[0].0) in names
  }

  /** The `custom_order_by` the loop builds, or the exception it raises on a malformed entry. */
  function PrivateEntries(obs: seq<Value>, names: seq<string>, env: Env): Result<seq<Value>, CrudError>
    decreases |obs|
  {
    if obs == [] then Ok([])
    else
      var custom :- PrivateEntries(obs[..|obs| - 1], names, env);
      var ob := obs[|obs| - 1];
      if !ob.VDict? then Err(AttributeError)
      else if ob.entries == [] then Err(IndexError)
      else if env.snakecase(ob.entries[0].0) in names then Ok(custom + [ob])
      else Ok(custom)
  }

  lemma FilterSnoc<T>(s: seq<T>, x: T, p: T -> bool)
    ensures Filter(s + [x], p) == Filter(s, p) + (if p(x) then [x] else [])
  {
    FilterAppend(s, [x], p);
  }

  function PrivateTest(names: seq<string>, env: Env): Value -> bool
  {
    (ob: Value) => IsPrivateEntry(ob, names, env)
  }

  function PublicTest(names: seq<string>, env: Env): Value -> bool
  {
    (ob: Value) => !IsPrivateEntry(ob, names, env)
  }

  /** `ob not in custom_order_by`, under Python's `==`. */
  function NotIn(custom: seq<Value>): Value -> bool
  {
    (ob: Value) => forall i :: 0 <= i < |custom| ==> !PyEq(ob, custom[i])
  }

  /** An entry the rewritten orderBy keeps: a public one that equals no private entry. */
  function KeptTest(obs: seq<Value>, names: seq<string>, env: Env): Value -> bool
  {
    (ob: Value) => !IsPrivateEntry(ob, names, env) &&
                   forall j :: 0 <= j < |obs| && IsPrivateEntry(obs[j], names, env) ==> !PyEq(ob, obs[j])
  }

  /** No public entry equals (under Python's `==`) a private one. */
  predicate NoPublicTwin(obs: seq<Value>, names: seq<string>, env: Env)
  {
    forall i, j ::
      0 <= i < |obs| && 0 <= j < |obs| && !IsPrivateEntry(obs[i], names, env) && IsPrivateEntry(obs[j], names, env) ==>
        !PyEq(obs[i], obs[j])
  }

  /** The loop over `orderBy` succeeds iff every entry is a non-empty dict. */
  lemma {:induction false} PrivateEntriesOk(obs: seq<Value>, names: seq<string>, env: Env)
    ensures PrivateEntries(obs, names, env).Ok? <==> forall i :: 0 <= i < |obs| ==> WellFormedEntry(obs[i])
    decreases |obs|
  {
    if obs != [] {
      var init := obs[..|obs| - 1];
      PrivateEntriesOk(init, names, env);
      forall i | 0 <= i < |init| ensures init[i] == obs[i] { }
    }
  }

  /** When it succeeds, `custom_order_by` is, in original order, exactly the private entries. */
  lemma {:induction false} PrivateEntriesFilter(obs: seq<Value>, names: seq<string>, env: Env)
    requires PrivateEntries(obs, names, env).Ok?
    ensures PrivateEntries(obs, names, env).value == Filter(obs, PrivateTest(names, env))
    decreases |obs|
  {
    if obs != [] {
      var init := obs[..|obs| - 1];
      var last := obs[|obs| - 1];
      PrivateEntriesFilter(init, names, env);
      assert obs == init + [last];
      FilterSnoc(init, last, PrivateTest(names, env));
    }
  }

  /**
    Hence the rewritten orderBy (`ob not in custom_order_by`) holds, in order,
    the public entries that equal no private entry; when no public entry equals
    a private one, that is exactly the public entries.
   */
  lemma PartitionCorrect(obs: seq<Value>, names: seq<string>, env: Env)
    requires PrivateEntries(obs, names, env).Ok?
    ensures Filter(obs, NotIn(PrivateEntries(obs, names, env).value)) == Filter(obs, KeptTest(obs, names, env))
    ensures NoPublicTwin(obs, names, env) ==>
              Filter(obs, NotIn(PrivateEntries(obs, names, env).value)) == Filter(obs, PublicTest(names, env))
  {
    PrivateEntriesFilter(obs, names, env);
    var custom := PrivateEntries(obs, names, env).value;
    FilterMembers(obs, PrivateTest(names, env));
    forall x | x in obs ensures NotIn(custom)(x) == KeptTest(obs, names, env)(x) {
      if IsPrivateEntry(x, names, env) {
        var i :| 0 <= i < |custom| && custom[i] == x;
        PyEqRefl(x);
      } else {
        forall j | 0 <= j < |obs| && IsPrivateEntry(obs[j], names, env) ensures obs[j] in custom {
        }
      }
    }
    FilterCongruent(obs, NotIn(custom), KeptTest(obs, names, env));
    if NoPublicTwin(obs, names, env) {
      forall x | x in obs ensures KeptTest(obs, names, env)(x) == PublicTest(names, env)(x) {
        var i :| 0 <= i < |obs| && obs[i] == x;
      }
      FilterCongruent(obs, KeptTest(obs, names, env), PublicTest(names, env));
    }
  }

  /** A well-formed public entry that equals the private entry before it is dropped with it. */
  lemma TwinDropped(a: Value, b: Value, names: seq<string>, env: Env)
    requires IsPrivateEntry(a, names, env) && WellFormedEntry(b) && !IsPrivateEntry(b, names, env)
    requires PyEq(b, a)
    ensures PrivateEntries([a, b], names, env) == Ok([a])
    ensures Filter([a, b], PublicTest(names, env)) == [b]
    ensures Filter([a, b], NotIn([a])) == []
  {
    var obs := [a, b];
    assert PrivateEntries([a, b], names, env) == Ok([a]) by {
      assert obs[..|obs| - 1] == [a] && [a][..|[a]| - 1] == [];
      assert PrivateEntries([], names, env) == Ok([]);
      assert [] + [a] == [a];
    }
    assert obs[1..] == [b] && [b][1..] == [];
    assert Filter([a, b], PublicTest(names, env)) == [b] by {
      assert Filter([b], PublicTest(names, env)) == [b];
    }
    assert Filter([a, b], NotIn([a])) == [] by {
      PyEqRefl(a);
      assert !NotIn([a])(a);
      assert !NotIn([a])(b);
      assert Filter([b], NotIn([a])) == [];
    }
  }

  /**
    A public entry with the keys of a private one in another order equals it, and
    is dropped with it: with `score` private and `name` public, orderBy
    `[{score: ASC, name: DESC}, {name: DESC, score: ASC}]` is rewritten to `[]`.
   */
  lemma ReorderedTwinDropped(names: seq<string>, env: Env)
    requires env.snakecase("score") in names && env.snakecase("name") !in names
    ensures var obs := [VDict([("score", VStr("ASC")), ("name", VStr("DESC"))]),
                        VDict([("name", VStr("DESC")), ("score", VStr("ASC"))])];
            && PrivateEntries(obs, names, env) == Ok([obs[0]])
            && Filter(obs, PublicTest(names, env)) == [obs[1]]
            && Filter(obs, NotIn(PrivateEntries(obs, names, env).value)) == []
  {
    PyEqReordered("name", VStr("DESC"), "score", VStr("ASC"));
    TwinDropped(VDict([("score", VStr("ASC")), ("name", VStr("DESC"))]),
                VDict([("name", VStr("DESC")), ("score", VStr("ASC"))]), names, env);
  }

  /** The split of `orderBy` in batchread: the custom entries, and the variables with `orderBy` holding the rest. */
  function SplitOrderBy(vars: Entries, meta: ModelMeta, env: Env): (r: Result<(seq<Value>, Entries), CrudError>)
    ensures !HasKey(vars, "orderBy") || meta.privateFields == [] ==> r == Ok(([], vars))
  {
    if !HasKey(vars, "orderBy") || |PrivateNames(meta)| == 0 then Ok(([], vars))
    else
      var obs :- Iterate(Get(vars, "orderBy"));
      var custom :- PrivateEntries(obs, PrivateNames(meta), env);
      Ok((custom, Put(vars, "orderBy", VList(Filter(obs, NotIn(custom))))))
  }

  /** The rewrite touches `orderBy` only: the keys stay distinct and every other variable is unchanged. */
  lemma SplitOrderByVars(vars: Entries, meta: ModelMeta, env: Env, k: string)
    requires DistinctKeys(vars)
    requires SplitOrderBy(vars, meta, env).Ok?
    ensures DistinctKeys(SplitOrderBy(vars, meta, env).value.1)
    ensures Keys(SplitOrderBy(vars, meta, env).value.1) == Keys(vars)
    ensures k != "orderBy" ==> Get(SplitOrderBy(vars, meta, env).value.1, k) == Get(vars, k)
  {
    if HasKey(vars, "orderBy") && |PrivateNames(meta)| != 0 {
      var obs := Iterate(Get(vars, "orderBy")).value;
      var custom := PrivateEntries(obs, PrivateNames(meta), env).value;
      GetPut(vars, "orderBy", VList(Filter(obs, NotIn(custom))), k);
    }
  }

  /**
    With an `orderBy` and private fields, the custom entries are the private ones
    and the new `orderBy` holds the public ones that equal no private entry (all
    the public ones when none does), both in their original order.
   */
  lemma SplitOrderByPartition(vars: Entries, meta: ModelMeta, env: Env)
    requires DistinctKeys(vars)
    requires HasKey(vars, "orderBy") && meta.privateFields != []
    requires SplitOrderBy(vars, meta, env).Ok?
    ensures Iterate(Get(vars, "orderBy")).Ok?
    ensures var obs := Iterate(Get(vars, "orderBy")).value;
            && SplitOrderBy(vars, meta, env).value.0 == Filter(obs, PrivateTest(PrivateNames(meta), env))
            && Get(SplitOrderBy(vars, meta, env).value.1, "orderBy") == VList(Filter(obs, KeptTest(obs, PrivateNames(meta), env)))
            && (NoPublicTwin(obs, PrivateNames(meta), env) ==>
                  Get(SplitOrderBy(vars, meta, env).value.1, "orderBy") == VList(Filter(obs, PublicTest(PrivateNames(meta), env))))
  {
    var obs := Iterate(Get(vars, "orderBy")).value;
    PrivateEntriesFilter(obs, PrivateNames(meta), env);
    PartitionCorrect(obs, PrivateNames(meta), env);
    var custom := PrivateEntries(obs, PrivateNames(meta), env).value;
    GetPut(vars, "orderBy", VList(Filter(obs, NotIn(custom))), "orderBy");
  }

  /** Every custom entry is a dict, as `order_by_custom` needs. */
  lemma SplitOrderByCustomDicts(vars: Entries, meta: ModelMeta, env: Env)
    requires SplitOrderBy(vars, meta, env).Ok?
    ensures forall i :: 0 <= i < |SplitOrderBy(vars, meta, env).value.0| ==> SplitOrderBy(vars, meta, env).value.0[i].VDict?
  {
    if HasKey(vars, "orderBy") && |PrivateNames(meta)| != 0 {
      var obs := Iterate(Get(vars, "orderBy")).value;
      PrivateEntriesFilter(obs, PrivateNames(meta), env);
      FilterMembers(obs, PrivateTest(PrivateNames(meta), env));
    }
  }

  /**
    The variables the library sees: `createdAt` is gone, its coerced former value is
    what the date filter receives, and every variable other than `createdAt` and
    `orderBy` is the coerced original.
   */
  lemma BatchreadVariables(d: Entries, meta: ModelMeta, env: Env, k: string)
    requires DistinctKeys(d)
    requires SplitOrderBy(Without(CoerceAll(d), "createdAt"), meta, env).Ok?
    ensures var after := SplitOrderBy(Without(CoerceAll(d), "createdAt"), meta, env).value.1;
            && DistinctKeys(after)
            && !HasKey(after, "createdAt")
            && (k != "createdAt" && k != "orderBy" ==> Get(after, k) == CoerceValue(Get(d, k)))
    ensures Get(CoerceAll(d), "createdAt") == CoerceValue(Get(d, "createdAt"))
  {
    var base := Without(CoerceAll(d), "createdAt");
    CoerceAllKeys(d);
    WithoutKeepsDistinct(CoerceAll(d), "createdAt");
    SplitOrderByVars(base, meta, env, k);
    GetWithout(CoerceAll(d), "createdAt", k);
    GetCoerceAll(d, k);
    GetCoerceAll(d, "createdAt");
  }

  /** What batchread does to the library's queryset: the date filter when `createdAt` was truthy, then the custom ordering when there is one. */
  function PostProcess(q0: QuerySet, dateFilters: Value, custom: seq<Value>, vars: Entries, cookie: Option<int>,
                       meta: ModelMeta, env: Env): Result<QuerySet, CrudError>
  {
    var q1 :- if Truthy(dateFilters) then DateFiltered(q0, dateFilters, TimezoneFromCookie(cookie, env), meta, env) else Ok(q0);
    if custom != [] then OrderPairs(q1, Flatten(custom), vars, meta, env) else Ok(q1)
  }

  /**
    The rows batchread returns are those the library returned, filtered by the date
    predicates only when `createdAt` was truthy; the custom ordering never drops a row.
   */
  lemma PostProcessRows(q0: QuerySet, dateFilters: Value, custom: seq<Value>, vars: Entries, cookie: Option<int>,
                        meta: ModelMeta, env: Env)
    requires PostProcess(q0, dateFilters, custom, vars, cookie, meta, env).Ok?
    ensures var r := PostProcess(q0, dateFilters, custom, vars, cookie, meta, env).value;
            !Truthy(dateFilters) ==> r.rows == q0.rows
    ensures var r := PostProcess(q0, dateFilters, custom, vars, cookie, meta, env).value;
            var zone := TimezoneFromCookie(cookie, env);
            Truthy(dateFilters) ==>
              r.rows == Filter(q0.rows, DateTest(ReadDateFilters(dateFilters).value, zone, TzColumnZone(q0).GetOr(zone), env))
    ensures !Truthy(dateFilters) && custom == [] ==> PostProcess(q0, dateFilters, custom, vars, cookie, meta, env) == Ok(q0)
  {
    var q1 := if Truthy(dateFilters) then DateFiltered(q0, dateFilters, TimezoneFromCookie(cookie, env), meta, env).value else q0;
    if custom != [] {
      OrderPairsOrdering(q1, Flatten(custom), vars, meta, env);
    }
  }

  /** The loop that collects `custom_order_by`: the `orderBy` entries whose first key names a private field. */
  method CollectPrivateEntries(obs: seq<Value>, names: seq<string>, env: Env) returns (r: Result<seq<Value>, CrudError>)
    ensures r == PrivateEntries(obs, names, env)
  {
    var customOrderBy: seq<Value> := [];
    var i := 0;
    while i < |obs|
      invariant 0 <= i <= |obs|
      invariant PrivateEntries(obs[..i], names, env) == Ok(customOrderBy)
    {
      var ob := obs[i];
      assert obs[..i + 1][..i] == obs[..i];
      if !ob.VDict? {
        PrivateEntriesErrorSticks(obs, i + 1, names, env);
        return Err(AttributeError);
      }
      if ob.entries == [] {
        PrivateEntriesErrorSticks(obs, i + 1, names, env);
        return Err(IndexError);
      }
      if env.snakecase(ob.entries[0].0) in names {
        customOrderBy := customOrderBy + [ob];
      }
      i := i + 1;
    }
    assert obs[..i] == obs;
    return Ok(customOrderBy);
  }

  /** Batchread's split of `orderBy`: collect the private entries, then rewrite `orderBy` in place without them. */
  method SplitCustomOrderBy(vars: VarDict, meta: ModelMeta, env: Env) returns (r: Result<seq<Value>, CrudError>)
    requires vars.Valid()
    modifies vars
    ensures vars.Valid()
    ensures match SplitOrderBy(old(vars.entries), meta, env)
            case Err(e) => r == Err(e) && vars.entries == old(vars.entries)
            case Ok(split) => r == Ok(split.0) && vars.entries == split.1
  {
    var customOrderBy: seq<Value> := [];
    if vars.Contains("orderBy") {
      var names := PrivateNames(meta);
      if |names| > 0 {
        var orderBy := vars.Lookup("orderBy");
        var obs :- Iterate(orderBy);
        customOrderBy :- CollectPrivateEntries(obs, names, env);
        vars.SetItem("orderBy", VList(Filter(obs, NotIn(customOrderBy))));
      }
    }
    r := Ok(customOrderBy);
  }

  /**
    `batchread`: coerce, pop `createdAt`, split `orderBy`, call the library,
    post-process. The library call may raise (a FieldError for an unknown
    `where` or `orderBy` field, say): its exception propagates with the
    variables already rewritten, and nothing is post-processed.
   */
  method Batchread(vars: VarDict, cookie: Option<int>, meta: ModelMeta, env: Env,
                   superBatchread: Entries -> Result<QuerySet, CrudError>)
    returns (r: Result<QuerySet, CrudError>)
    requires vars.Valid()
    modifies vars
    ensures vars.Valid()
    ensures var coerced := CoerceAll(old(vars.entries));
            var base := Without(coerced, "createdAt");
            match SplitOrderBy(base, meta, env)
            case Err(e) => vars.entries == base && r == Err(e)
            case Ok(split) =>
              && vars.entries == split.1
              && match superBatchread(split.1)
                 case Err(e) => r == Err(e)
                 case Ok(q0) => r == PostProcess(q0, Get(coerced, "createdAt"), split.0, split.1, cookie, meta, env)
  {
    vars.CoerceEnums();
    var dateFilters := vars.Pop("createdAt");
    ghost var base := vars.entries;
    var customOrderBy :- SplitCustomOrderBy(vars, meta, env);
    SplitOrderByCustomDicts(base, meta, env);
    var query :- superBatchread(vars.entries);
    if Truthy(dateFilters) {
      var timezone := TimezoneFromCookie(cookie, env);
      query :- FilterByDateTimezone(query, dateFilters, timezone, meta, env);
    }
    if customOrderBy != [] {
      query :- OrderByCustom(query, customOrderBy, vars.entries, meta, env);
    }
    r := Ok(query);
  }

  lemma {:induction false} PrivateEntriesErrorSticks(obs: seq<Value>, i: nat, names: seq<string>, env: Env)
    requires i <= |obs| && PrivateEntries(obs[..i], names, env).Err?
    ensures PrivateEntries(obs, names, env) == PrivateEntries(obs[..i], names, env)
    decreases |obs| - i
  {
    if i < |obs| {
      assert obs[..i + 1][..i] == obs[..i];
      PrivateEntriesErrorSticks(obs, i + 1, names, env);
    } else {
      assert obs[..i] == obs;
    }
  }
}
