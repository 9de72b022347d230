/**
 * The ride records of the carpool app (src/types/ride.ts and the offer
 * records kept under `mockRides.myOffers`). JavaScript numbers are `real`s.
 */
module RideTypes {
  import opened Wrappers

  /** The embedded copy of the driver's public fields that a ride carries. */
  datatype DriverRef = DriverRef(id: string, name: string, rating: real, verified: bool, totalRides: int)

  datatype Departure = Departure(location: string, coordinates: (real, real), time: string, date: string)

  datatype Destination = Destination(location: string, coordinates: (real, real), time: string)

  /** Present on a ride that repeats weekly on `days`, until `endDate` when one is given. */
  datatype Recurrence = Recurrence(days: seq<string>, endDate: Option<string>)

  datatype Ride = Ride(
    id: string,
    driver: DriverRef,
    departure: Departure,
    destination: Destination,
    availableSeats: real,
    totalSeats: real,
    price: real,
    distance: real,
    duration: string,
    description: Option<string>,
    preferences: seq<string>,
    recurring: Option<Recurrence>,
    waitlistCount: int)

  /** One entry of the driver's "my offers" list; price and seats are display values. */
  datatype Offer = Offer(
    date: string,
    time: string,
    departure: string,
    destination: string,
    status: string,
    price: string,
    seats: real)

  datatype TimeRange = TimeRange(start: string, end: string)

  /** The ride search criteria edited on the search page. */
  datatype SearchCriteria = SearchCriteria(
    query: string,
    departure: string,
    destination: string,
    date: string,
    timeRange: TimeRange,
    maxDistance: int,
    driverName: string)
}
