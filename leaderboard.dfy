/**
 * The driver leaderboard page (src/pages/Leaderboard.tsx): the sort-column
 * state machine, the ordering of the scored drivers, and ordinal rank text.
 * A driver's score is taken as given (its logarithmic formula is not modelled).
 */
module Leaderboard {
  import opened Decimal
  import opened Sequences

  datatype SortField = Rating | TotalRides | Co2Saved | Score

  datatype SortOrder = Asc | Desc

  datatype SortState = SortState(field: SortField, order: SortOrder)

  datatype ScoredDriver = ScoredDriver(
    id: string,
    name: string,
    rating: real,
    verified: bool,
    totalRides: int,
    joinedDate: string,
    co2Saved: real,
    score: int)

  const InitialSort := SortState(Score, Desc)

  /** `handleSort(clicked)`: the same column flips the order, another column is selected in descending order. */
  function NextSort(s: SortState, clicked: SortField): SortState {
    if s.field == clicked then s.(order := if s.order == Asc then Desc else Asc)
    else SortState(clicked, Desc)
  }

  /** Clicking the current column keeps it and flips the order, so clicking it twice restores the state; clicking another column sorts by it descending. */
  lemma NextSortRule(s: SortState, clicked: SortField)
    ensures NextSort(s, clicked).field == clicked
    ensures s.field == clicked ==> NextSort(s, clicked).order != s.order && NextSort(NextSort(s, clicked), clicked) == s
    ensures s.field != clicked ==> NextSort(s, clicked).order == Desc
  {
  }

  /** The number a column sorts by. */
  function SortKey(d: ScoredDriver, field: SortField): real {
    match field
    case Rating => d.rating
    case TotalRides => d.totalRides as real
    case Co2Saved => d.co2Saved
    case Score => d.score as real
  }

  /** `sortedDrivers`: a sorted copy of the scored drivers. */
  function SortedDrivers(drivers: seq<ScoredDriver>, s: SortState): seq<ScoredDriver> {
    SortBy(drivers, d => SortKey(d, s.field), s.order == Asc)
  }

  /** The sorted list holds the same drivers, with the column's value non-decreasing (ascending) or non-increasing (descending). */
  lemma SortedDriversOrdered(drivers: seq<ScoredDriver>, s: SortState)
    ensures var r := SortedDrivers(drivers, s);
      && multiset(r) == multiset(drivers)
      && (s.order == Asc ==> forall i, j :: 0 <= i < j < |r| ==> SortKey(r[i], s.field) <= SortKey(r[j], s.field))
      && (s.order == Desc ==> forall i, j :: 0 <= i < j < |r| ==> SortKey(r[i], s.field) >= SortKey(r[j], s.field))
  {
    var r := SortedDrivers(drivers, s);
    assert SortedBy(r, d => SortKey(d, s.field), s.order == Asc);
  }

  /** JavaScript's `%`: `a - b * q` with `q` the quotient truncated toward zero, so the remainder takes the sign of the dividend. */
  function JsRem(a: int, b: int): (r: int)
    requires b > 0
    ensures a >= 0 ==> r == a % b
    ensures a < 0 ==> r <= 0 && r == a - b * -((-a) / b)
    ensures -b < r < b
  {
    if a >= 0 then a % b else -((-a) % b)
  }

  /** The suffix `getOrdinalSuffix` appends. */
  function OrdinalSuffix(i: int): string {
    var j := JsRem(i, 10);
    var k := JsRem(i, 100);
    if j == 1 && k != 11 then "st"
    else if j == 2 && k != 12 then "nd"
    else if j == 3 && k != 13 then "rd"
    else "th"
  }

  /** `getOrdinalSuffix(i)`: the rank written out, "1st", "12th", "23rd". */
  function Ordinal(i: int): string {
    IntToString(i) + OrdinalSuffix(i)
  }

  /** For a positive rank: "st", "nd", "rd" after a last digit 1, 2, 3 except in the teens, "th" otherwise. */
  lemma OrdinalSuffixRule(i: nat)
    ensures OrdinalSuffix(i) == "st" <==> i % 10 == 1 && i % 100 != 11
    ensures OrdinalSuffix(i) == "nd" <==> i % 10 == 2 && i % 100 != 12
    ensures OrdinalSuffix(i) == "rd" <==> i % 10 == 3 && i % 100 != 13
    ensures OrdinalSuffix(i) == "th" <==> !(i % 10 in {1, 2, 3}) || i % 100 in {11, 12, 13}
  {
  }

  lemma OrdinalExamples()
    ensures Ordinal(1) == "1st" && Ordinal(2) == "2nd" && Ordinal(3) == "3rd" && Ordinal(4) == "4th"
    ensures Ordinal(11) == "11th" && Ordinal(12) == "12th" && Ordinal(13) == "13th"
    ensures Ordinal(21) == "21st" && Ordinal(22) == "22nd" && Ordinal(111) == "111th" && Ordinal(112) == "112th"
  {
  }

  /** The page's sort state. */
  class LeaderboardPage {
    var sort: SortState

    constructor ()
      ensures sort == SortState(Score, Desc)
    {
      sort := InitialSort;
    }

    /** `handleSort(clicked)`. */
    method HandleSort(clicked: SortField)
      modifies this
      ensures sort == NextSort(old(sort), clicked)
    {
      if sort.field == clicked {
        sort := sort.(order := if sort.order == Asc then Desc else Asc);
      } else {
        sort := SortState(clicked, Desc);
      }
    }

    /** The rows in display order. */
    function Rows(drivers: seq<ScoredDriver>): seq<ScoredDriver>
      reads this
    {
      SortedDrivers(drivers, sort)
    }
  }
}
