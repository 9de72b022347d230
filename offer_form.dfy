/**
 * The older ride-offer form (src/components/AddRideForm.tsx): the live
 * per-seat price and the submission that appends an offer to the stored
 * `mockRides.myOffers` list through `updateModuleProperty`.
 *
 * Arithmetic is exact: the source multiplies binary floating-point numbers by
 * 1.3, which can round differently when the exact result is an integer.
 */
module OfferForm {
  import opened Wrappers
  import opened Decimal
  import opened RideTypes
  import opened MockStore

  /** A JavaScript number that `Math.ceil` can produce here: an integer, an infinity, or `NaN`. */
  datatype Amount = Whole(n: int) | PosInfinity | NegInfinity | NaN

  /** `Math.ceil(x)`: the least integer not below `x`. */
  function Ceil(x: real): (r: int)
    ensures r as real >= x && (r - 1) as real < x
  {
    -((-x).Floor)
  }

  lemma CeilMonotone(x: real, y: real)
    requires x <= y
    ensures Ceil(x) <= Ceil(y)
  {
  }

  const Markup: real := 1.3

  /** `calculateRidePrice(fuel, parking, seats)`: the marked-up cost shared by the driver and `seats` passengers, rounded up. */
  function RidePrice(fuel: real, parking: real, seats: real): Amount {
    var totalWithMarkup := (fuel + parking) * Markup;
    var people := seats + 1.0;
    if people != 0.0 then Whole(Ceil(totalWithMarkup / people))
    else if totalWithMarkup > 0.0 then PosInfinity
    else if totalWithMarkup < 0.0 then NegInfinity
    else NaN
  }

  /** `calculatedPrice`: free parking means the parking cost is not charged. */
  function CalculatedPrice(fuel: real, parking: real, seats: real, hasFreeParking: bool): Amount {
    RidePrice(fuel, if hasFreeParking then 0.0 else parking, seats)
  }

  /** With free parking the parking cost entered makes no difference. */
  lemma FreeParkingIgnoresParking(fuel: real, parking: real, seats: real)
    ensures CalculatedPrice(fuel, parking, seats, true) == RidePrice(fuel, 0.0, seats)
    ensures !(CalculatedPrice(fuel, parking, seats, false) == RidePrice(fuel, 0.0, seats)) ==> parking != 0.0
  {
  }

  /**
   * For non-negative costs and seats the price is a whole non-negative
   * number, zero exactly when nothing is to be paid, never below the
   * marked-up share and less than one unit above it.
   */
  lemma {:induction false} PriceIsFairShare(fuel: real, parking: real, seats: real)
    requires fuel >= 0.0 && parking >= 0.0 && seats >= 0.0
    ensures RidePrice(fuel, parking, seats).Whole?
    ensures var n := RidePrice(fuel, parking, seats).n;
      && n >= 0
      && (n == 0 <==> fuel + parking == 0.0)
      && n as real * (seats + 1.0) >= Markup * (fuel + parking)
      && (n - 1) as real * (seats + 1.0) < Markup * (fuel + parking)
  {
    var total := (fuel + parking) * Markup;
    var k := seats + 1.0;
    var share := total / k;
    var n := Ceil(share);
    assert RidePrice(fuel, parking, seats) == Whole(n);
    assert share * k == total by { DivideThenMultiply(total, k); }
    assert total == Markup * (fuel + parking);
    var below := (n - 1) as real;
    assert n as real >= share && below < share;
    ScaleByPositive(n as real, share, k);
    ScaleByPositive(share, below, k);
    assert below * k < total;
    if fuel + parking > 0.0 {
      assert total > 0.0;
      assert share > 0.0 by { ScaleByPositive(share, 0.0, k); }
    } else {
      assert total == 0.0 && share == 0.0;
    }
  }

  lemma DivideThenMultiply(a: real, k: real)
    requires k > 0.0
    ensures a / k * k == a
  {
  }

  lemma ScaleByPositive(x: real, y: real, k: real)
    requires k > 0.0
    ensures x >= y ==> x * k >= y * k
    ensures x > y ==> x * k > y * k
  {
  }

  /** The price never falls when a cost rises, and never rises when a seat is added. */
  lemma PriceMonotone(fuel: real, parking: real, seats: real, fuel': real, parking': real, seats': real)
    requires 0.0 <= fuel <= fuel' && 0.0 <= parking <= parking'
    requires 0.0 <= seats' <= seats
    ensures RidePrice(fuel, parking, seats).Whole? && RidePrice(fuel', parking', seats').Whole?
    ensures RidePrice(fuel, parking, seats).n <= RidePrice(fuel', parking', seats').n
  {
    var a := (fuel + parking) * Markup;
    var b := (fuel' + parking') * Markup;
    var p := seats + 1.0;
    var q := seats' + 1.0;
    assert a / p <= b / q by {
      assert a / p <= a / q by { DivideByLarger(a, q, p); }
      assert a / q <= b / q by { DivideMonotone(a, b, q); }
    }
    CeilMonotone(a / p, b / q);
  }

  lemma DivideByLarger(a: real, q: real, p: real)
    requires a >= 0.0 && 0.0 < q <= p
    ensures a / p <= a / q
  {
    assert a / p * p == a;
    assert a / q * q == a;
    if a / p > a / q {
      ScaleByPositive(a / p, a / q, q);
      assert a / p * q > a;
      ScaleByPositive(p, q, a / p);
    }
  }

  lemma DivideMonotone(a: real, b: real, q: real)
    requires a <= b && q > 0.0
    ensures a / q <= b / q
  {
  }

  /** The price text shown and stored: `${price} EUR`. */
  function AmountText(a: Amount): string {
    match a
    case Whole(n) => IntToString(n)
    case PosInfinity => "Infinity"
    case NegInfinity => "-Infinity"
    case NaN => "NaN"
  }

  function PriceLabel(a: Amount): string {
    AmountText(a) + " EUR"
  }

  /** The figure in a whole price's label reads back as the price. */
  lemma PriceLabelReadsBack(n: int)
    ensures var text := PriceLabel(Whole(n));
      |text| > 4 && text[|text| - 4..] == " EUR" && ParseInt(text[..|text| - 4]) == Some(n)
  {
    var text := PriceLabel(Whole(n));
    assert text[..|text| - 4] == IntToString(n);
    ParseIntOfIntToString(n);
  }

  /** The values the form holds when it is submitted. */
  datatype OfferInput = OfferInput(
    departureLocation: string,
    destinationLocation: string,
    departureDate: string,
    departureTime: string,
    availableSeats: real,
    isRecurring: bool,
    fuelCost: real,
    parkingCost: real,
    hasFreeParking: bool)

  /** The offer record appended on submission. */
  function NewOffer(input: OfferInput): Offer {
    Offer(
      date := input.departureDate,
      time := input.departureTime,
      departure := input.departureLocation,
      destination := input.destinationLocation,
      status := if input.isRecurring then "Recurring" else "Active",
      price := PriceLabel(CalculatedPrice(input.fuelCost, input.parkingCost, input.availableSeats, input.hasFreeParking)),
      seats := input.availableSeats)
  }

  /** `data?.mockRides?.myOffers || []`. */
  function StoredOffers(blob: Option<Blob>): seq<Offer> {
    if blob.Some? && "mockRides" in blob.value && "myOffers" in blob.value["mockRides"]
       && blob.value["mockRides"]["myOffers"].Offers?
    then blob.value["mockRides"]["myOffers"].offers
    else []
  }

  /** What one submission does to the stored slot. */
  function SubmitStep(slot: Slot, input: OfferInput, accepted: bool): Slot {
    UpdateStep(slot, "mockRides", "myOffers", Offers(StoredOffers(Read(slot)) + [NewOffer(input)]), accepted)
  }

  /**
   * A submission appends exactly one offer at the end of the stored list,
   * keeping earlier offers in order and every other export of every module.
   */
  lemma SubmitAppendsOffer(slot: Slot, input: OfferInput)
    ensures var before := Read(slot).GetOr(map[]);
      var after := Read(SubmitStep(slot, input, true)).value;
      && StoredOffers(Read(SubmitStep(slot, input, true))) == StoredOffers(Read(slot)) + [NewOffer(input)]
      && (forall name :: name in before && name != "mockRides" ==> name in after && after[name] == before[name])
      && ("mockRides" in before ==> forall k :: k in before["mockRides"] && k != "myOffers" ==>
            k in after["mockRides"] && after["mockRides"][k] == before["mockRides"][k])
  {
    UpdateFrame(slot, "mockRides", "myOffers", Offers(StoredOffers(Read(slot)) + [NewOffer(input)]));
  }

  /** The stored offer's status says "Recurring" exactly for recurring rides, and otherwise "Active". */
  lemma OfferStatus(input: OfferInput)
    ensures NewOffer(input).status == "Recurring" <==> input.isRecurring
    ensures !input.isRecurring ==> NewOffer(input).status == "Active"
    ensures NewOffer(input).seats == input.availableSeats
  {
  }

  /**
   * A later submission of the other ride form rewrites the `mockRides` module
   * from the fixtures, so the offers appended here do not survive it.
   */
  lemma RideFormSyncDropsOffers(slot: Slot, input: OfferInput, files: seq<FixtureFile>, rides: seq<Ride>)
    ensures var after := SyncStep(SubmitStep(slot, input, true), files,
                                  map["mockRides" := map["mockRides" := Rides(rides)]], true);
      StoredOffers(Read(after)) == []
  {
  }

  datatype Effect = SuccessToast | Navigate(path: string)

  /** The offer form's state: the submitting flag and the store it writes to. */
  class OfferFormPage {
    var isSubmitting: bool
    var effects: seq<Effect>
    const store: Store

    constructor (store: Store)
      ensures !isSubmitting && effects == [] && this.store == store
    {
      isSubmitting := false;
      effects := [];
      this.store := store;
    }

    /** The price the page shows for the current form values. */
    function DisplayedPrice(input: OfferInput): Amount {
      CalculatedPrice(input.fuelCost, input.parkingCost, input.availableSeats, input.hasFreeParking)
    }

    /** `onSubmit`, with the one-second delay taken as already elapsed. */
    method OnSubmit(input: OfferInput, accepted: bool)
      modifies this, store
      ensures !isSubmitting
      ensures store.slot == SubmitStep(old(store.slot), input, accepted)
      ensures effects == old(effects) + [SuccessToast, Navigate("/my-rides")]
    {
      isSubmitting := true;
      var stored := StoredOffers(store.Load());
      store.UpdateModuleProperty("mockRides", "myOffers", Offers(stored + [NewOffer(input)]), accepted);
      effects := effects + [SuccessToast];
      isSubmitting := false;
      effects := effects + [Navigate("/my-rides")];
    }
  }
}
