/**
 * The mock matching backend (src/data/smartMatching.ts, repeated verbatim in
 * src/lib/smartMatchingUtils.ts): filters over the user, ride and message
 * tables, and in-place updates of points, badges and passenger lists.
 *
 * The tables are the fields of a `Backend` object instead of module-level
 * arrays; the half-second `delay` wrapping every result is left out, so each
 * operation returns its value directly. A lookup of an unknown id that the
 * source then dereferences raises a `TypeError`; here such a call returns
 * `None` and changes nothing.
 */
module SmartMatching {
  import opened Wrappers
  import opened Sequences

  datatype Point = Point(lat: real, lng: real)

  datatype User = User(
    id: string,
    name: string,
    email: string,
    role: string,
    points: int,
    badges: seq<string>,
    sustainabilityScore: int,
    home: Point,
    work: Point)

  datatype MatchRide = MatchRide(
    id: string,
    driverId: string,
    passengerIds: seq<string>,
    start: Point,
    end: Point,
    departure: string,
    eta: string,
    status: string)

  datatype Message = Message(id: string, from: string, to: string, rideId: string, content: string, timestamp: int)

  function Abs(x: real): real {
    if x < 0.0 then -x else x
  }

  const Radius: real := 0.02

  /** A driver whose home lies strictly inside the 0.02-degree box around `home`. */
  predicate NearbyDriver(u: User, home: Point) {
    u.role == "driver" && Abs(u.home.lat - home.lat) < Radius && Abs(u.home.lng - home.lng) < Radius
  }

  /** `analyzeRoutes(home)`. */
  function AnalyzeRoutes(users: seq<User>, home: Point): seq<User> {
    Filter(users, u => NearbyDriver(u, home))
  }

  /** The matches are exactly the nearby drivers, in table order; a driver exactly 0.02 away is not one. */
  lemma AnalyzeRoutesExact(users: seq<User>, more: seq<User>, home: Point)
    ensures forall u :: u in AnalyzeRoutes(users, home) ==>
              (u in users && u.role == "driver" && Abs(u.home.lat - home.lat) < 0.02 && Abs(u.home.lng - home.lng) < 0.02)
    ensures forall i :: 0 <= i < |users| && NearbyDriver(users[i], home) ==> users[i] in AnalyzeRoutes(users, home)
    ensures AnalyzeRoutes(users + more, home) == AnalyzeRoutes(users, home) + AnalyzeRoutes(more, home)
  {
    FilterAppend(users, more, u => NearbyDriver(u, home));
  }

  /** `users.find(u => u.id === id)`, as the index of the user found. */
  function FindUser(users: seq<User>, id: string): Option<nat> {
    FindFirst(users, (u: User) => u.id, id)
  }

  /** `rides.find(r => r.id === id)`, as the index of the ride found. */
  function FindRide(rides: seq<MatchRide>, id: string): Option<nat> {
    FindFirst(rides, (r: MatchRide) => r.id, id)
  }

  /** `suggestDrivers(passengerId)`: the drivers near the passenger's home; `None` when there is no such passenger. */
  function SuggestDrivers(users: seq<User>, passengerId: string): (r: Option<seq<User>>)
    ensures r.None? <==> forall j :: 0 <= j < |users| ==> users[j].id != passengerId
    ensures r.Some? ==> FindUser(users, passengerId).Some?
    ensures r.Some? ==> (forall u :: u in r.value <==>
      u in users && NearbyDriver(u, users[FindUser(users, passengerId).value].home))
  {
    match FindUser(users, passengerId)
    case None => None
    case Some(i) => Some(AnalyzeRoutes(users, users[i].home))
  }

  /**
   * The suggestions for a known passenger are the drivers near the home of the
   * first user with that id, each as often as the table lists it, and in
   * table order: the suggestions for a longer table extend those for its prefix.
   */
  lemma SuggestDriversExact(users: seq<User>, more: seq<User>, passengerId: string, u: User)
    requires FindUser(users, passengerId).Some?
    ensures SuggestDrivers(users, passengerId).Some?
    ensures var home := users[FindUser(users, passengerId).value].home;
      multiset(SuggestDrivers(users, passengerId).value)[u] == if NearbyDriver(u, home) then multiset(users)[u] else 0
    ensures SuggestDrivers(users + more, passengerId).Some?
    ensures var home := users[FindUser(users, passengerId).value].home;
      SuggestDrivers(users + more, passengerId).value == SuggestDrivers(users, passengerId).value + AnalyzeRoutes(more, home)
  {
    var i := FindUser(users, passengerId).value;
    var home := users[i].home;
    FilterCounts(users, (v: User) => NearbyDriver(v, home), u);
    FindFirstPrefix(users, more, (v: User) => v.id, passengerId);
    AnalyzeRoutesExact(users, more, home);
  }

  const EmployeeDomain := "@company.com"

  /** `verifyEmployee(email).verified`. */
  function VerifyEmployee(email: string): bool {
    EndsWith(email, EmployeeDomain)
  }

  /** An address is verified exactly when it is some local part followed by "@company.com". */
  lemma VerifyEmployeeExact(email: string)
    ensures VerifyEmployee(email) <==> exists local: string :: |local| <= |email| && email == local + EmployeeDomain
  {
    if VerifyEmployee(email) {
      var local := email[..|email| - |EmployeeDomain|];
      assert email == local + EmployeeDomain;
    }
    if exists local: string :: |local| <= |email| && email == local + EmployeeDomain {
      var local: string :| |local| <= |email| && email == local + EmployeeDomain;
      assert email[|email| - |EmployeeDomain|..] == EmployeeDomain;
    }
  }

  /** A look-alike domain is not the company's. */
  lemma VerifyEmployeeExamples()
    ensures VerifyEmployee("alice@company.com")
    ensures !VerifyEmployee("alice@company.co")
    ensures !VerifyEmployee("bob@mycompany.com")
  {
    assert "alice@company.com"[5..] == EmployeeDomain;
    assert "bob@mycompany.com"[5..] != EmployeeDomain by {
      assert "bob@mycompany.com"[5] != EmployeeDomain[0];
    }
  }

  predicate OnRide(r: MatchRide, userId: string) {
    r.driverId == userId || userId in r.passengerIds
  }

  /** `getRidesForUser(userId)`. */
  function GetRidesForUser(rides: seq<MatchRide>, userId: string): seq<MatchRide> {
    Filter(rides, r => OnRide(r, userId))
  }

  /** The user's rides are exactly those they drive or ride in, in table order. */
  lemma GetRidesForUserExact(rides: seq<MatchRide>, more: seq<MatchRide>, userId: string)
    ensures forall r :: r in GetRidesForUser(rides, userId) ==> (r in rides && (r.driverId == userId || userId in r.passengerIds))
    ensures forall i :: 0 <= i < |rides| && (rides[i].driverId == userId || userId in rides[i].passengerIds)
              ==> rides[i] in GetRidesForUser(rides, userId)
    ensures GetRidesForUser(rides + more, userId) == GetRidesForUser(rides, userId) + GetRidesForUser(more, userId)
  {
    FilterAppend(rides, more, r => OnRide(r, userId));
  }

  /** `getMessages(rideId)`. */
  function GetMessages(messages: seq<Message>, rideId: string): seq<Message> {
    Filter(messages, (m: Message) => m.rideId == rideId)
  }

  /** A ride's messages are exactly those sent about it, in order; asking again changes nothing. */
  lemma GetMessagesExact(messages: seq<Message>, more: seq<Message>, rideId: string)
    ensures forall m :: m in GetMessages(messages, rideId) ==> (m in messages && m.rideId == rideId)
    ensures forall i :: 0 <= i < |messages| && messages[i].rideId == rideId ==> messages[i] in GetMessages(messages, rideId)
    ensures GetMessages(messages + more, rideId) == GetMessages(messages, rideId) + GetMessages(more, rideId)
    ensures GetMessages(GetMessages(messages, rideId), rideId) == GetMessages(messages, rideId)
  {
    FilterAppend(messages, more, (m: Message) => m.rideId == rideId);
    FilterIdempotent(messages, (m: Message) => m.rideId == rideId);
  }

  /** The user table after `addRidePoints(userId, points)`: the first user with that id gains `points`. */
  function PointsAdded(users: seq<User>, userId: string, points: int): seq<User> {
    match FindUser(users, userId)
    case None => users
    case Some(i) => users[i := users[i].(points := users[i].points + points)]
  }

  /** Only the found user changes, and only in its points. */
  lemma PointsAddedOnlyThere(users: seq<User>, userId: string, points: int)
    ensures |PointsAdded(users, userId, points)| == |users|
    ensures FindUser(users, userId).Some? ==>
      var i := FindUser(users, userId).value;
      && PointsAdded(users, userId, points)[i].points == users[i].points + points
      && PointsAdded(users, userId, points)[i] == users[i].(points := users[i].points + points)
      && forall j :: 0 <= j < |users| && j != i ==> PointsAdded(users, userId, points)[j] == users[j]
    ensures FindUser(users, userId).None? ==> PointsAdded(users, userId, points) == users
  {
  }

  const CenturyRider := "century-rider"
  const CenturyPoints := 100

  /** A user after `checkBadges`: "century-rider" is added at 100 points or more, unless already held. */
  function BadgeChecked(u: User): User {
    if u.points >= CenturyPoints && CenturyRider !in u.badges then u.(badges := u.badges + [CenturyRider]) else u
  }

  function Occurrences(s: seq<string>, x: string): nat {
    multiset(s)[x]
  }

  /**
   * The badge is held afterwards exactly when it was held or the points reach
   * 100; below 100 nothing changes; it is never added twice; checking twice is
   * checking once.
   */
  lemma BadgeCheckedRule(u: User)
    ensures CenturyRider in BadgeChecked(u).badges <==> CenturyRider in u.badges || u.points >= 100
    ensures u.points < 100 ==> BadgeChecked(u) == u
    ensures Occurrences(BadgeChecked(u).badges, CenturyRider) == if CenturyRider in BadgeChecked(u).badges then
              (if CenturyRider in u.badges then Occurrences(u.badges, CenturyRider) else 1) else 0
    ensures BadgeChecked(BadgeChecked(u)) == BadgeChecked(u)
    ensures BadgeChecked(u).points == u.points && BadgeChecked(u).id == u.id
  {
    if CenturyRider !in u.badges {
      assert Occurrences(u.badges, CenturyRider) == 0;
    }
  }

  /** The ride table after `applyForRide(rideId, passengerId)`: the passenger appended to the first ride with that id, when absent. */
  function PassengerAdded(rides: seq<MatchRide>, rideId: string, passengerId: string): seq<MatchRide> {
    match FindRide(rides, rideId)
    case None => rides
    case Some(i) =>
      if passengerId in rides[i].passengerIds then rides
      else rides[i := rides[i].(passengerIds := rides[i].passengerIds + [passengerId])]
  }

  predicate NoDuplicates(s: seq<string>) {
    forall i, j :: 0 <= i < j < |s| ==> s[i] != s[j]
  }

  /**
   * Applying puts the passenger on a known ride once and keeps a duplicate-free
   * list duplicate-free; applying twice is applying once; an unknown ride
   * changes nothing.
   */
  lemma PassengerAddedRule(rides: seq<MatchRide>, rideId: string, passengerId: string)
    ensures var after := PassengerAdded(rides, rideId, passengerId);
      && |after| == |rides|
      && (FindRide(rides, rideId).None? ==> after == rides)
      && (FindRide(rides, rideId).Some? ==>
            var i := FindRide(rides, rideId).value;
            && passengerId in after[i].passengerIds
            && (NoDuplicates(rides[i].passengerIds) ==> NoDuplicates(after[i].passengerIds))
            && (forall j :: 0 <= j < |rides| && j != i ==> after[j] == rides[j]))
      && PassengerAdded(after, rideId, passengerId) == after
  {
    var after := PassengerAdded(rides, rideId, passengerId);
    match FindRide(rides, rideId)
    case None =>
    case Some(i) =>
      assert after[i].id == rides[i].id;
      assert forall j :: 0 <= j < |rides| && j != i ==> after[j] == rides[j];
      assert FindRide(after, rideId) == Some(i) by {
        FindFirstAt(after, (r: MatchRide) => r.id, rideId, i);
      }
  }

  /** Every application is approved. */
  const Approved := "approved"

  /** The matching backend's mutable tables. */
  class Backend {
    var users: seq<User>
    var rides: seq<MatchRide>
    var messages: seq<Message>

    constructor (users: seq<User>, rides: seq<MatchRide>, messages: seq<Message>)
      ensures this.users == users && this.rides == rides && this.messages == messages
    {
      this.users := users;
      this.rides := rides;
      this.messages := messages;
    }

    /** `addRidePoints(userId, points)`: the user's new total, or `None` where the source raises. */
    method AddRidePoints(userId: string, points: int) returns (newPoints: Option<int>)
      modifies this
      ensures users == PointsAdded(old(users), userId, points)
      ensures rides == old(rides) && messages == old(messages)
      ensures newPoints.None? <==> FindUser(old(users), userId).None?
      ensures newPoints.Some? ==> newPoints.value == old(users)[FindUser(old(users), userId).value].points + points
    {
      match FindUser(users, userId)
      case None =>
        newPoints := None;
      case Some(i) =>
        users := users[i := users[i].(points := users[i].points + points)];
        newPoints := Some(users[i].points);
    }

    /** `checkBadges(userId)`: the user's badges afterwards, or `None` where the source raises. */
    method CheckBadges(userId: string) returns (badges: Option<seq<string>>)
      modifies this
      ensures FindUser(old(users), userId).None? ==> users == old(users) && badges.None?
      ensures FindUser(old(users), userId).Some? ==>
        var i := FindUser(old(users), userId).value;
        users == old(users)[i := BadgeChecked(old(users)[i])] && badges == Some(users[i].badges)
      ensures rides == old(rides) && messages == old(messages)
    {
      match FindUser(users, userId)
      case None =>
        badges := None;
      case Some(i) =>
        var u := users[i];
        if u.points >= CenturyPoints && CenturyRider !in u.badges {
          users := users[i := u.(badges := u.badges + [CenturyRider])];
        }
        badges := Some(users[i].badges);
    }

    /** `applyForRide(rideId, passengerId)`: always "approved". */
    method ApplyForRide(rideId: string, passengerId: string) returns (status: string)
      modifies this
      ensures rides == PassengerAdded(old(rides), rideId, passengerId)
      ensures users == old(users) && messages == old(messages)
      ensures status == "approved"
    {
      match FindRide(rides, rideId) {
        case None =>
        case Some(i) =>
          if passengerId !in rides[i].passengerIds {
            rides := rides[i := rides[i].(passengerIds := rides[i].passengerIds + [passengerId])];
          }
      }
      status := Approved;
    }
  }
}
