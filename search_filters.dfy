/**
 * The search-criteria editor (src/components/SearchFilters.tsx): each input
 * hands the parent a copy of the criteria with one field replaced.
 */
module SearchFilters {
  import opened Wrappers
  import opened Decimal
  import opened RideTypes

  /** The keys of the criteria record. */
  datatype Key = QueryKey | DepartureKey | DestinationKey | DateKey | TimeRangeKey | MaxDistanceKey | DriverNameKey

  /** One `updateFilter(key, value)` call: the key together with a value of that field's type. */
  datatype Update =
    | SetQuery(query: string)
    | SetDeparture(departure: string)
    | SetDestination(destination: string)
    | SetDate(date: string)
    | SetTimeRange(timeRange: TimeRange)
    | SetMaxDistance(maxDistance: int)
    | SetDriverName(driverName: string)

  function KeyOf(u: Update): Key {
    match u
    case SetQuery(_) => QueryKey
    case SetDeparture(_) => DepartureKey
    case SetDestination(_) => DestinationKey
    case SetDate(_) => DateKey
    case SetTimeRange(_) => TimeRangeKey
    case SetMaxDistance(_) => MaxDistanceKey
    case SetDriverName(_) => DriverNameKey
  }

  /** The two records hold the same value under `k`. */
  predicate Agree(f: SearchCriteria, g: SearchCriteria, k: Key) {
    match k
    case QueryKey => f.query == g.query
    case DepartureKey => f.departure == g.departure
    case DestinationKey => f.destination == g.destination
    case DateKey => f.date == g.date
    case TimeRangeKey => f.timeRange == g.timeRange
    case MaxDistanceKey => f.maxDistance == g.maxDistance
    case DriverNameKey => f.driverName == g.driverName
  }

  /** The record holds the value the update writes. */
  predicate Holds(f: SearchCriteria, u: Update) {
    match u
    case SetQuery(v) => f.query == v
    case SetDeparture(v) => f.departure == v
    case SetDestination(v) => f.destination == v
    case SetDate(v) => f.date == v
    case SetTimeRange(v) => f.timeRange == v
    case SetMaxDistance(v) => f.maxDistance == v
    case SetDriverName(v) => f.driverName == v
  }

  /** `{ ...filters, [key]: value }`. */
  function UpdateFilter(f: SearchCriteria, u: Update): SearchCriteria {
    match u
    case SetQuery(v) => f.(query := v)
    case SetDeparture(v) => f.(departure := v)
    case SetDestination(v) => f.(destination := v)
    case SetDate(v) => f.(date := v)
    case SetTimeRange(v) => f.(timeRange := v)
    case SetMaxDistance(v) => f.(maxDistance := v)
    case SetDriverName(v) => f.(driverName := v)
  }

  /** The updated field holds the new value and every other field is as before. */
  lemma UpdateFilterRule(f: SearchCriteria, u: Update)
    ensures Holds(UpdateFilter(f, u), u)
    ensures forall k :: k != KeyOf(u) ==> Agree(UpdateFilter(f, u), f, k)
  {
  }

  /** Two records that agree on every key are the same record. */
  lemma AgreeEverywhere(f: SearchCriteria, g: SearchCriteria)
    requires forall k :: Agree(f, g, k)
    ensures f == g
  {
    assert Agree(f, g, QueryKey) && Agree(f, g, DepartureKey) && Agree(f, g, DestinationKey);
    assert Agree(f, g, DateKey) && Agree(f, g, TimeRangeKey) && Agree(f, g, MaxDistanceKey);
    assert Agree(f, g, DriverNameKey);
  }

  /** Applying an update again changes nothing; of two updates to the same key the later one wins. */
  lemma UpdateFilterIdempotent(f: SearchCriteria, u: Update, w: Update)
    ensures UpdateFilter(UpdateFilter(f, u), u) == UpdateFilter(f, u)
    ensures KeyOf(u) == KeyOf(w) ==> UpdateFilter(UpdateFilter(f, u), w) == UpdateFilter(f, w)
  {
  }

  /** Updates of different keys commute. */
  lemma UpdatesCommute(f: SearchCriteria, u: Update, w: Update)
    requires KeyOf(u) != KeyOf(w)
    ensures UpdateFilter(UpdateFilter(f, u), w) == UpdateFilter(UpdateFilter(f, w), u)
  {
  }

  datatype Bound = Start | End

  /** `updateTimeRange(key, value)`: `{ ...filters, timeRange: { ...filters.timeRange, [key]: value } }`. */
  function UpdateTimeRange(f: SearchCriteria, key: Bound, value: string): (r: SearchCriteria)
    ensures r.timeRange.start == (if key.Start? then value else f.timeRange.start)
    ensures r.timeRange.end == (if key.End? then value else f.timeRange.end)
    ensures forall k :: k != TimeRangeKey ==> Agree(r, f, k)
  {
    var range := if key.Start? then f.timeRange.(start := value) else f.timeRange.(end := value);
    UpdateFilter(f, SetTimeRange(range))
  }

  /** Setting the same bound twice is setting it once; setting one bound leaves the other. */
  lemma UpdateTimeRangeIdempotent(f: SearchCriteria, key: Bound, value: string)
    ensures UpdateTimeRange(UpdateTimeRange(f, key, value), key, value) == UpdateTimeRange(f, key, value)
  {
    var r := UpdateTimeRange(f, key, value);
    var r2 := UpdateTimeRange(r, key, value);
    forall k ensures Agree(r2, r, k) {
      if k == TimeRangeKey {
        assert r2.timeRange == r.timeRange;
      }
    }
    AgreeEverywhere(r2, r);
  }

  const SliderMin := 5
  const SliderMax := 100

  /**
   * The "Max Distance" slider: the range input reports its position as
   * decimal text, and `parseInt` of that text becomes `maxDistance`.
   */
  function SliderChange(f: SearchCriteria, position: int): (r: SearchCriteria)
    requires SliderMin <= position <= SliderMax
    ensures r.maxDistance == position && SliderMin <= r.maxDistance <= SliderMax
    ensures forall k :: k != MaxDistanceKey ==> Agree(r, f, k)
  {
    var text := IntToString(position);
    ParseIntOfIntToString(position);
    UpdateFilter(f, SetMaxDistance(ParseInt(text).value))
  }
}
