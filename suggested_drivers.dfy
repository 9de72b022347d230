/**
 * The suggested-drivers panel (src/components/SuggestedDrivers.tsx): the
 * distinct drivers of the ride list, best rated first, each with a tier badge
 * and a count of the rides they offer.
 */
module SuggestedDrivers {
  import opened RideTypes
  import opened Sequences

  function Ids(drivers: seq<DriverRef>): seq<string> {
    seq(|drivers|, i requires 0 <= i < |drivers| => drivers[i].id)
  }

  /**
   * The accumulator of the `reduce` after the rides of `rides` have been seen:
   * a ride's driver is pushed unless a driver with that id is already there.
   */
  function Distinct(rides: seq<Ride>): seq<DriverRef> {
    if rides == [] then []
    else
      var acc := Distinct(rides[..|rides| - 1]);
      var d := rides[|rides| - 1].driver;
      if d.id in Ids(acc) then acc else acc + [d]
  }

  /** The first ride of `rides` whose driver has id `id`. */
  predicate FirstWithId(rides: seq<Ride>, i: int, id: string) {
    0 <= i < |rides| && rides[i].driver.id == id && forall j :: 0 <= j < i ==> rides[j].driver.id != id
  }

  lemma InIds(ds: seq<DriverRef>, id: string)
    ensures id in Ids(ds) <==> exists p :: 0 <= p < |ds| && ds[p].id == id
  {
    if id in Ids(ds) {
      var p :| 0 <= p < |Ids(ds)| && Ids(ds)[p] == id;
      assert ds[p].id == id;
    }
    if exists p :: 0 <= p < |ds| && ds[p].id == id {
      var p :| 0 <= p < |ds| && ds[p].id == id;
      assert Ids(ds)[p] == id;
    }
  }

  /** The reduce never pushes a driver whose id it already holds. */
  lemma {:induction false} DistinctIdsUnique(rides: seq<Ride>)
    ensures forall p, q :: 0 <= p < q < |Distinct(rides)| ==> Distinct(rides)[p].id != Distinct(rides)[q].id
  {
    if rides != [] {
      var acc := Distinct(rides[..|rides| - 1]);
      var ds := Distinct(rides);
      var d := rides[|rides| - 1].driver;
      DistinctIdsUnique(rides[..|rides| - 1]);
      InIds(acc, d.id);
      forall p, q | 0 <= p < q < |ds| ensures ds[p].id != ds[q].id {
        assert ds[p] == acc[p];
        if q == |acc| {
          assert ds[q] == d;
        } else {
          assert ds[q] == acc[q];
        }
      }
    }
  }

  /** Every ride's driver id is among the distinct drivers. */
  lemma {:induction false} DistinctCovers(rides: seq<Ride>)
    ensures forall i :: 0 <= i < |rides| ==> rides[i].driver.id in Ids(Distinct(rides))
  {
    if rides != [] {
      var init := rides[..|rides| - 1];
      var acc := Distinct(init);
      DistinctCovers(init);
      assert forall i :: 0 <= i < |init| ==> rides[i] == init[i];
      var ds := Distinct(rides);
      forall x | x in Ids(acc) ensures x in Ids(ds) {
        InIds(acc, x);
        var p :| 0 <= p < |acc| && acc[p].id == x;
        assert ds[p] == acc[p];
        InIds(ds, x);
      }
      InIds(ds, rides[|rides| - 1].driver.id);
      if rides[|rides| - 1].driver.id !in Ids(acc) {
        assert ds[|acc|] == rides[|rides| - 1].driver;
      }
    }
  }

  /** Each listed driver is the driver record of the first ride carrying that id. */
  lemma {:induction false} DistinctFirst(rides: seq<Ride>)
    ensures forall p :: 0 <= p < |Distinct(rides)| ==>
      exists i :: FirstWithId(rides, i, Distinct(rides)[p].id) && rides[i].driver == Distinct(rides)[p]
  {
    if rides != [] {
      var n := |rides| - 1;
      var init := rides[..n];
      var acc := Distinct(init);
      var ds := Distinct(rides);
      DistinctFirst(init);
      assert forall i :: 0 <= i < n ==> rides[i] == init[i];
      forall p | 0 <= p < |ds|
        ensures exists i :: FirstWithId(rides, i, ds[p].id) && rides[i].driver == ds[p]
      {
        if p < |acc| {
          assert ds[p] == acc[p];
          var i :| FirstWithId(init, i, acc[p].id) && init[i].driver == acc[p];
          assert FirstWithId(rides, i, ds[p].id);
        } else {
          var d := rides[n].driver;
          assert d.id !in Ids(acc) && ds[p] == d;
          DistinctCovers(init);
          assert FirstWithId(rides, n, d.id);
        }
      }
    } else {
      assert Distinct(rides) == [];
    }
  }

  /** The listed drivers appear in the order their first rides do. */
  lemma {:induction false} FirstAppearanceOrder(rides: seq<Ride>)
    ensures forall p, q, i, j ::
      (0 <= p < q < |Distinct(rides)| && FirstWithId(rides, i, Distinct(rides)[p].id)
        && FirstWithId(rides, j, Distinct(rides)[q].id)) ==> i < j
  {
    if rides != [] {
      var n := |rides| - 1;
      var init := rides[..n];
      var acc := Distinct(init);
      var ds := Distinct(rides);
      FirstAppearanceOrder(init);
      DistinctFirst(init);
      DistinctCovers(init);
      assert forall i :: 0 <= i < n ==> rides[i] == init[i];
      forall p, q, i, j | 0 <= p < q < |ds| && FirstWithId(rides, i, ds[p].id) && FirstWithId(rides, j, ds[q].id)
        ensures i < j
      {
        var i' :| FirstWithId(init, i', acc[p].id) && init[i'].driver == acc[p];
        assert ds[p] == acc[p];
        assert FirstWithId(rides, i', acc[p].id);
        FirstWithIdUnique(rides, i, i', acc[p].id);
        if q < |acc| {
          var j' :| FirstWithId(init, j', acc[q].id) && init[j'].driver == acc[q];
          assert ds[q] == acc[q];
          assert FirstWithId(rides, j', acc[q].id);
          FirstWithIdUnique(rides, j, j', acc[q].id);
          assert FirstWithId(init, i, acc[p].id) && FirstWithId(init, j, acc[q].id);
        }
      }
    }
  }

  lemma FirstWithIdUnique(rides: seq<Ride>, i: int, j: int, id: string)
    requires FirstWithId(rides, i, id) && FirstWithId(rides, j, id)
    ensures i == j
  {
  }

  /** The `reduce` as the loop it runs: push each ride's driver unless the id has been seen. */
  method UniqueDrivers(rides: seq<Ride>) returns (drivers: seq<DriverRef>)
    ensures drivers == Distinct(rides)
  {
    drivers := [];
    for n := 0 to |rides|
      invariant drivers == Distinct(rides[..n])
    {
      assert rides[..n + 1][..n] == rides[..n];
      var existing := false;
      for k := 0 to |drivers|
        invariant existing <==> exists p :: 0 <= p < k && drivers[p].id == rides[n].driver.id
      {
        if drivers[k].id == rides[n].driver.id {
          existing := true;
        }
      }
      assert existing <==> rides[n].driver.id in Ids(drivers) by {
        if rides[n].driver.id in Ids(drivers) {
          var p :| 0 <= p < |Ids(drivers)| && Ids(drivers)[p] == rides[n].driver.id;
          assert drivers[p].id == rides[n].driver.id;
        }
        if existing {
          var p :| 0 <= p < |drivers| && drivers[p].id == rides[n].driver.id;
          assert Ids(drivers)[p] == rides[n].driver.id;
        }
      }
      if !existing {
        drivers := drivers + [rides[n].driver];
      }
    }
    assert rides[..|rides|] == rides;
  }

  /** `sortedDrivers`: the distinct drivers by rating, highest first. */
  function SortedDrivers(drivers: seq<DriverRef>): seq<DriverRef> {
    SortBy(drivers, (d: DriverRef) => d.rating, false)
  }

  /** The panel lists each distinct driver once, ratings never increasing down the list. */
  lemma SortedDriversRule(drivers: seq<DriverRef>)
    ensures var r := SortedDrivers(drivers);
      && multiset(r) == multiset(drivers)
      && forall i, j :: 0 <= i < j < |r| ==> r[i].rating >= r[j].rating
  {
    assert SortedBy(SortedDrivers(drivers), (d: DriverRef) => d.rating, false);
  }

  datatype Tier = Gold | Silver | Bronze | NoTier

  /** The badge for a driver's completed-ride count. */
  function TierOf(totalRides: int): (t: Tier)
    ensures t == Gold <==> totalRides >= 100
    ensures t == Silver <==> 50 <= totalRides < 100
    ensures t == Bronze <==> 10 <= totalRides < 50
    ensures t == NoTier <==> totalRides < 10
  {
    if totalRides >= 100 then Gold
    else if totalRides >= 50 then Silver
    else if totalRides >= 10 then Bronze
    else NoTier
  }

  /** The tier never drops as the ride count grows. */
  lemma TierMonotone(a: int, b: int)
    requires a <= b
    ensures Rank(TierOf(a)) <= Rank(TierOf(b))
  {
  }

  function Rank(t: Tier): nat {
    match t
    case NoTier => 0
    case Bronze => 1
    case Silver => 2
    case Gold => 3
  }

  /** "rides available": how many rides the driver offers. */
  function RideCount(rides: seq<Ride>, driverId: string): nat {
    |Filter(rides, (r: Ride) => r.driver.id == driverId)|
  }

  /** Every driver the panel lists offers at least one ride. */
  lemma ListedDriversHaveRides(rides: seq<Ride>)
    ensures forall p :: 0 <= p < |Distinct(rides)| ==> RideCount(rides, Distinct(rides)[p].id) >= 1
  {
    var ds := Distinct(rides);
    DistinctFirst(rides);
    forall p | 0 <= p < |ds|
      ensures RideCount(rides, ds[p].id) >= 1
    {
      var id := ds[p].id;
      var i :| FirstWithId(rides, i, id) && rides[i].driver == ds[p];
      var f := Filter(rides, (r: Ride) => r.driver.id == id);
      assert rides[i] in f;
    }
  }
}
