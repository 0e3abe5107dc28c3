/**
  modules/shared/utils.py: the total count of a connection, the identity
  global-id scheme, and the resolution of a UTC offset in minutes (the
  `timezone` cookie) to a named time zone.

  The zone database and the current instant are not modelled: the caller passes
  the zone table as (name, offset from UTC at the current instant) pairs, in the
  order of `pytz.all_timezones`.
 */
module Utils {
  import opened Wrappers
  import opened Seqs

  // ---------------------------------------------------------------------------
  // TotalCountConnection.resolve_total_count
  // ---------------------------------------------------------------------------

  /** What a connection may carry as `iterable`: a queryset (has `.count()`) or a plain list. */
  datatype Iterable<T> = QuerySetOf(rows: seq<T>) | ListOf(items: seq<T>)

  function Elements<T>(it: Iterable<T>): seq<T>
  {
    match it
    case QuerySetOf(rows) => rows
    case ListOf(items) => items
  }

  /**
    A relay connection: `iterable` is the full result the page was cut from (absent
    when nothing was attached), `edges` the nodes of the requested page.
   */
  datatype Connection<T> = Connection(iterable: Option<Iterable<T>>, edges: seq<T>)

  /**
    The total count: 0 with no iterable, otherwise `iterable.count()` on a queryset
    and `len(iterable)` on a list (where `.count()` raises and the fallback runs).
   */
  function ResolveTotalCount<T>(conn: Connection<T>): (n: nat)
    ensures conn.iterable.None? ==> n == 0
    ensures conn.iterable.Some? ==> n == |Elements(conn.iterable.value)|
  {
    match conn.iterable
    case None => 0
    case Some(QuerySetOf(rows)) => |rows|   // `SELECT COUNT(*)`: one per selected row
    case Some(ListOf(items)) => |items|
  }

  /** The count is that of the whole matching set, whatever page was cut from it. */
  lemma TotalCountIgnoresPage<T>(rows: seq<T>, lo: nat, hi: nat)
    requires lo <= hi <= |rows|
    ensures ResolveTotalCount(Connection(Some(QuerySetOf(rows)), rows[lo..hi])) == |rows|
    ensures ResolveTotalCount(Connection(Some(QuerySetOf(rows)), rows[lo..hi])) >= hi - lo
  {
  }

  /** Three matching rows served one per page still report a total of 3. */
  lemma TotalCountExample(a: int, b: int, c: int)
    ensures ResolveTotalCount(Connection(Some(QuerySetOf([a, b, c])), [a])) == 3
  {
  }

  // ---------------------------------------------------------------------------
  // CustomNode.to_global_id
  // ---------------------------------------------------------------------------

  /** Global ids are the raw ids: the type name plays no part. */
  function ToGlobalId<Id>(typeName: string, id: Id): (gid: Id)
    ensures gid == id
  {
    id
  }

  lemma GlobalIdIgnoresType<Id>(t1: string, t2: string, id: Id)
    ensures ToGlobalId(t1, id) == ToGlobalId(t2, id)
  {
  }

  // ---------------------------------------------------------------------------
  // convert_offset_to_timezone
  // ---------------------------------------------------------------------------

  /** `timedelta(hours=h, minutes=m)`. */
  datatype Offset = Offset(hours: int, minutes: int)

  function TotalMinutes(o: Offset): int
  {
    o.hours * 60 + o.minutes
  }

  /**
    `offset_minutes // 60` and `offset_minutes % 60`. Python floors; with the
    positive divisor 60 Dafny's Euclidean `/` and `%` give the same results.
   */
  function SplitOffset(offsetMinutes: int): (o: Offset)
    ensures TotalMinutes(o) == offsetMinutes
    ensures 0 <= o.minutes < 60
  {
    Offset(offsetMinutes / 60, offsetMinutes % 60)
  }

  /** The decomposition is the floor one: no other (hours, minutes) pair has minutes in [0, 60). */
  lemma SplitOffsetUnique(offsetMinutes: int, h: int, m: int)
    requires h * 60 + m == offsetMinutes && 0 <= m < 60
    ensures SplitOffset(offsetMinutes) == Offset(h, m)
  {
  }

  lemma SplitOffsetExamples()
    ensures SplitOffset(-300) == Offset(-5, 0)
    ensures SplitOffset(-301) == Offset(-6, 59)
    ensures SplitOffset(330) == Offset(5, 30)
    ensures SplitOffset(0) == Offset(0, 0)
  {
    SplitOffsetUnique(-300, -5, 0);
    SplitOffsetUnique(-301, -6, 59);
    SplitOffsetUnique(330, 5, 30);
  }

  /** One entry of the zone table: a zone name and its UTC offset now, in minutes. */
  datatype Zone = Zone(name: string, utcOffsetMinutes: int)

  const FallbackZone: string := "America/New_York"

  /** The comprehension `[tz.zone for tz in ... if now.astimezone(tz).utcoffset() == offset]`. */
  function MatchingZones(table: seq<Zone>, offset: Offset): seq<string>
  {
    var hits := Filter(table, (z: Zone) => z.utcOffsetMinutes == TotalMinutes(offset));
    seq(|hits|, i requires 0 <= i < |hits| => hits[i].name)
  }

  function ConvertOffsetToTimezone(offsetMinutes: int, table: seq<Zone>): (name: string)
    // the first zone, in table order, whose current offset is the requested one
    ensures forall i :: 0 <= i < |table| && table[i].utcOffsetMinutes == offsetMinutes &&
                        (forall j :: 0 <= j < i ==> table[j].utcOffsetMinutes != offsetMinutes)
                        ==> name == table[i].name
    // the fallback exactly when no zone matches
    ensures (forall i :: 0 <= i < |table| ==> table[i].utcOffsetMinutes != offsetMinutes)
            ==> name == FallbackZone
    ensures name == FallbackZone || exists i :: 0 <= i < |table| && table[i].name == name
  {
    var names := MatchingZones(table, SplitOffset(offsetMinutes));
    if |names| > 0 then
      FirstMatchingZone(table, offsetMinutes);
      names[0]
    else
      FilterMembers(table, (z: Zone) => z.utcOffsetMinutes == TotalMinutes(SplitOffset(offsetMinutes)));
      FallbackZone
  }

  lemma FirstMatchingZone(table: seq<Zone>, offsetMinutes: int)
    requires |MatchingZones(table, SplitOffset(offsetMinutes))| > 0
    ensures exists i :: 0 <= i < |table| && table[i].name == MatchingZones(table, SplitOffset(offsetMinutes))[0] &&
                        table[i].utcOffsetMinutes == offsetMinutes &&
                        forall j :: 0 <= j < i ==> table[j].utcOffsetMinutes != offsetMinutes
    ensures forall i :: 0 <= i < |table| && table[i].utcOffsetMinutes == offsetMinutes &&
                        (forall j :: 0 <= j < i ==> table[j].utcOffsetMinutes != offsetMinutes)
                        ==> table[i].name == MatchingZones(table, SplitOffset(offsetMinutes))[0]
  {
    var p := (z: Zone) => z.utcOffsetMinutes == TotalMinutes(SplitOffset(offsetMinutes));
    FilterFirst(table, p);
    var k :| 0 <= k < |table| && table[k] == Filter(table, p)[0] && p(table[k]) &&
             forall j :: 0 <= j < k ==> !p(table[j]);
    forall i | 0 <= i < |table| && table[i].utcOffsetMinutes == offsetMinutes &&
               (forall j :: 0 <= j < i ==> table[j].utcOffsetMinutes != offsetMinutes)
      ensures i == k
    {
    }
  }

  /** With a US Eastern standard-time cookie (-300) the first zone now at UTC-5 is chosen. */
  lemma ConvertOffsetExample()
    ensures ConvertOffsetToTimezone(-300, [Zone("America/Bogota", -300), Zone("America/Cancun", -300)])
            == "America/Bogota"
    ensures ConvertOffsetToTimezone(-300, [Zone("Europe/London", 0)]) == FallbackZone
  {
  }
}
