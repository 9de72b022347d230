/**
 * The ride form's validation schema (src/components/ride-form/types.ts):
 * per-field bounds plus two cross-field refinements, one for the return trip
 * and one for recurring rides, combined into one validator.
 *
 * The schema library's e-mail check is the abstract `isEmail`; the year the
 * schema is built in is `currentYear`. JavaScript's `Date` parsing is modelled
 * for the forms the date and time inputs produce, "YYYY-MM-DD" and "HH:MM";
 * any other text is an invalid date, and every comparison with an invalid date
 * is false, as every comparison with `NaN` is.
 */
module RideFormSchema {
  import opened Wrappers
  import opened Decimal

  datatype RideFormData = RideFormData(
    driverName: string,
    driverEmail: string,
    driverPhone: string,
    vehicleMake: string,
    vehicleModel: string,
    vehicleYear: real,
    vehicleColor: string,
    licensePlate: string,
    departureLocation: string,
    destinationLocation: string,
    departureDate: string,
    departureTime: string,
    returnDate: Option<string>,
    returnTime: Option<string>,
    availableSeats: real,
    fuelCost: real,
    parkingCost: real,
    hasFreeParking: bool,
    message: Option<string>,
    isRecurring: bool,
    recurringDays: Option<seq<string>>,
    recurringEndDate: Option<string>,
    hasReturnTrip: bool,
    pickupWindow: real,
    allowSmoking: bool,
    allowPets: bool,
    allowMusic: bool,
    allowChatting: bool)

  /** The number written by `s[lo..hi]` when those characters are all digits. */
  function Field(s: string, lo: nat, hi: nat): Option<nat>
    requires lo <= hi <= |s|
  {
    if AllDigits(s[lo..hi]) then Some(DigitsValue(s[lo..hi])) else None
  }

  /** The day a "YYYY-MM-DD" text denotes, as the number YYYYMMDD; `None` for an invalid date. */
  function DateKey(s: string): (r: Option<nat>)
    ensures r.Some? <==>
      && |s| == 10 && s[4] == '-' && s[7] == '-'
      && AllDigits(s[0..4]) && AllDigits(s[5..7]) && AllDigits(s[8..10])
      && 1 <= DigitsValue(s[5..7]) <= 12 && 1 <= DigitsValue(s[8..10]) <= 31
    ensures r.Some? ==>
      r.value == DigitsValue(s[0..4]) * 10000 + DigitsValue(s[5..7]) * 100 + DigitsValue(s[8..10])
  {
    if |s| != 10 || s[4] != '-' || s[7] != '-' then None
    else
      match (Field(s, 0, 4), Field(s, 5, 7), Field(s, 8, 10))
      case (Some(y), Some(m), Some(d)) =>
        if 1 <= m <= 12 && 1 <= d <= 31 then Some(y * 10000 + m * 100 + d) else None
      case _ => None
  }

  /** The minute of the day an "HH:MM" text denotes, as the number HHMM; `None` for an invalid time. */
  function TimeKey(s: string): (r: Option<nat>)
    ensures r.Some? <==>
      && |s| == 5 && s[2] == ':' && AllDigits(s[0..2]) && AllDigits(s[3..5])
      && DigitsValue(s[0..2]) <= 23 && DigitsValue(s[3..5]) <= 59
    ensures r.Some? ==> r.value == DigitsValue(s[0..2]) * 100 + DigitsValue(s[3..5]) && r.value < 2400
  {
    if |s| != 5 || s[2] != ':' then None
    else
      match (Field(s, 0, 2), Field(s, 3, 5))
      case (Some(h), Some(m)) => if h <= 23 && m <= 59 then Some(h * 100 + m) else None
      case _ => None
  }

  /** `new Date(`${date}T${time}`)` as a number that orders instants; `None` for an invalid date. */
  function Instant(date: string, time: string): Option<nat> {
    match (DateKey(date), TimeKey(time))
    case (Some(d), Some(t)) => Some(d * 10000 + t)
    case _ => None
  }

  /** `!x` for an optional string: missing or empty. */
  predicate Blank(x: Option<string>) {
    x.None? || x.value == ""
  }

  /** `x >= y` between two dates, false when either is invalid. */
  predicate AtOrAfter(x: Option<nat>, y: Option<nat>) {
    x.Some? && y.Some? && x.value >= y.value
  }

  /** The per-field bounds of the schema. */
  predicate FieldsValid(d: RideFormData, currentYear: int, isEmail: string -> bool) {
    && |d.driverName| >= 1
    && isEmail(d.driverEmail)
    && |d.driverPhone| >= 1
    && |d.vehicleMake| >= 1
    && |d.vehicleModel| >= 1
    && 1900.0 <= d.vehicleYear <= (currentYear + 1) as real
    && |d.vehicleColor| >= 1
    && |d.licensePlate| >= 1
    && |d.departureLocation| >= 3
    && |d.destinationLocation| >= 3
    && |d.departureDate| >= 1
    && |d.departureTime| >= 1
    && 1.0 <= d.availableSeats <= 8.0
    && d.fuelCost >= 0.0
    && d.parkingCost >= 0.0
    && 5.0 <= d.pickupWindow <= 60.0
  }

  /** The first refinement: a return trip needs a return date and time, not before the departure. */
  predicate ReturnTripValid(d: RideFormData) {
    if d.hasReturnTrip then
      if Blank(d.returnDate) || Blank(d.returnTime) then false
      else AtOrAfter(Instant(d.returnDate.value, d.returnTime.value), Instant(d.departureDate, d.departureTime))
    else true
  }

  /** The second refinement: a recurring ride needs a day, and an end date given must not precede the departure date. */
  predicate RecurrenceValid(d: RideFormData) {
    if d.isRecurring then
      if d.recurringDays.None? || |d.recurringDays.value| == 0 then false
      else if !Blank(d.recurringEndDate) then AtOrAfter(DateKey(d.recurringEndDate.value), DateKey(d.departureDate))
      else true
    else true
  }

  /** `rideFormSchema.safeParse(d).success`. */
  predicate Valid(d: RideFormData, currentYear: int, isEmail: string -> bool) {
    FieldsValid(d, currentYear, isEmail) && ReturnTripValid(d) && RecurrenceValid(d)
  }

  /** A valid form's numeric fields lie within the schema's bounds. */
  lemma ValidNumericBounds(d: RideFormData, currentYear: int, isEmail: string -> bool)
    requires Valid(d, currentYear, isEmail)
    ensures 1.0 <= d.availableSeats <= 8.0 && 5.0 <= d.pickupWindow <= 60.0
    ensures d.fuelCost >= 0.0 && d.parkingCost >= 0.0
    ensures 1900.0 <= d.vehicleYear <= (currentYear + 1) as real
  {
  }

  /** A valid form's text fields meet their minimum lengths and the e-mail check. */
  lemma ValidTextBounds(d: RideFormData, currentYear: int, isEmail: string -> bool)
    requires Valid(d, currentYear, isEmail)
    ensures |d.departureLocation| >= 3 && |d.destinationLocation| >= 3
    ensures |d.driverName| >= 1 && |d.driverPhone| >= 1 && |d.vehicleMake| >= 1 && |d.vehicleModel| >= 1
    ensures |d.vehicleColor| >= 1 && |d.licensePlate| >= 1 && |d.departureDate| >= 1 && |d.departureTime| >= 1
    ensures isEmail(d.driverEmail)
  {
  }

  /**
   * With a return trip, the form is accepted exactly when both return fields
   * are filled in and denote an instant at or after the departure; an equal
   * instant is accepted.
   */
  lemma ReturnTripRule(d: RideFormData)
    requires d.hasReturnTrip
    ensures ReturnTripValid(d) <==>
      && d.returnDate.Some? && d.returnDate.value != ""
      && d.returnTime.Some? && d.returnTime.value != ""
      && Instant(d.returnDate.value, d.returnTime.value).Some?
      && Instant(d.departureDate, d.departureTime).Some?
      && Instant(d.returnDate.value, d.returnTime.value).value >= Instant(d.departureDate, d.departureTime).value
  {
  }

  /** A recurring ride is accepted exactly when it has a day and any end date given is on or after the departure date. */
  lemma RecurrenceRule(d: RideFormData)
    requires d.isRecurring
    ensures RecurrenceValid(d) <==>
      && d.recurringDays.Some? && |d.recurringDays.value| > 0
      && (d.recurringEndDate.Some? && d.recurringEndDate.value != "" ==>
            AtOrAfter(DateKey(d.recurringEndDate.value), DateKey(d.departureDate)))
  {
  }

  /** Without the two flags the refinements accept every form. */
  lemma RefinementsNeedTheirFlags(d: RideFormData)
    ensures !d.hasReturnTrip ==> ReturnTripValid(d)
    ensures !d.isRecurring ==> RecurrenceValid(d)
  {
  }

  /** Departing and returning at the same date and time is accepted. */
  lemma SameInstantReturnAccepted(d: RideFormData)
    requires d.hasReturnTrip && d.returnDate == Some(d.departureDate) && d.returnTime == Some(d.departureTime)
    requires Instant(d.departureDate, d.departureTime).Some?
    ensures ReturnTripValid(d)
  {
  }

  /** Lexicographic order on strings, the order of JavaScript's `<=` on strings. */
  predicate LexLeq(a: string, b: string) {
    a == [] || (b != [] && (a[0] < b[0] || (a[0] == b[0] && LexLeq(a[1..], b[1..]))))
  }

  /** A digit string's value is below 10 to the power of its length. */
  lemma {:induction false} DigitsValueBound(s: string)
    requires AllDigits(s)
    ensures DigitsValue(s) < Pow10(|s|)
  {
    if s != [] {
      DigitsValueBound(s[..|s| - 1]);
    }
  }

  function Pow10(n: nat): (p: nat)
    ensures p >= 1
  {
    if n == 0 then 1 else 10 * Pow10(n - 1)
  }

  lemma {:induction false} DigitsValueFront(s: string)
    requires AllDigits(s) && s != []
    ensures DigitsValue(s) == (s[0] as int - '0' as int) * Pow10(|s| - 1) + DigitsValue(s[1..])
  {
    if |s| > 1 {
      var init := s[..|s| - 1];
      assert init[1..] == s[1..][..|s[1..]| - 1];
      DigitsValueFront(init);
    }
  }

  /**
   * For digit strings of equal length, numeric order is lexicographic order:
   * the reason zero-padded dates and times can be compared as text.
   */
  lemma {:induction false} DigitOrderIsLexOrder(a: string, b: string)
    requires AllDigits(a) && AllDigits(b) && |a| == |b|
    ensures DigitsValue(a) <= DigitsValue(b) <==> LexLeq(a, b)
  {
    if a != [] {
      DigitsValueFront(a);
      DigitsValueFront(b);
      DigitsValueBound(a[1..]);
      DigitsValueBound(b[1..]);
      DigitOrderIsLexOrder(a[1..], b[1..]);
      var p := Pow10(|a| - 1);
      var da := a[0] as int - '0' as int;
      var db := b[0] as int - '0' as int;
      if da < db {
        LeadingDigitDecides(da, db, DigitsValue(a[1..]), DigitsValue(b[1..]), p);
      } else if da > db {
        LeadingDigitDecides(db, da, DigitsValue(b[1..]), DigitsValue(a[1..]), p);
      }
    }
  }

  lemma LeadingDigitDecides(lo: int, hi: int, x: int, y: int, p: int)
    requires 0 <= lo < hi && 0 <= x < p && 0 <= y
    ensures lo * p + x < hi * p + y
  {
    var k := hi - lo;
    assert hi * p == lo * p + k * p;
    assert k * p >= p by {
      assert (k - 1) * p >= 0;
    }
  }

  /** Two digit strings of one length with the same value are the same string. */
  lemma {:induction false} DigitsValueInjective(a: string, b: string)
    requires AllDigits(a) && AllDigits(b) && |a| == |b| && DigitsValue(a) == DigitsValue(b)
    ensures a == b
  {
    DigitOrderIsLexOrder(a, b);
    DigitOrderIsLexOrder(b, a);
    LexLeqAntisymmetric(a, b);
  }

  lemma {:induction false} LexLeqAntisymmetric(a: string, b: string)
    requires |a| == |b| && LexLeq(a, b) && LexLeq(b, a)
    ensures a == b
  {
    if a != [] {
      LexLeqAntisymmetric(a[1..], b[1..]);
      assert a == [a[0]] + a[1..] && b == [b[0]] + b[1..];
    }
  }

  /** Comparing `p + x` with `q + y` for `|p| == |q|`: the heads decide unless they are equal. */
  lemma {:induction false} LexSplit(p: string, x: string, q: string, y: string)
    requires |p| == |q|
    ensures LexLeq(p + x, q + y) <==> if p == q then LexLeq(x, y) else LexLeq(p, q)
  {
    if p == [] {
      assert p + x == x && q + y == y;
    } else {
      assert (p + x)[1..] == p[1..] + x && (q + y)[1..] == q[1..] + y;
      LexSplit(p[1..], x, q[1..], y);
      if p[0] == q[0] && p[1..] == q[1..] {
        assert p == [p[0]] + p[1..] && q == [q[0]] + q[1..];
      }
    }
  }

  /** The key YYYYMMDD orders by year, then month, then day. */
  lemma KeyOrder(ya: nat, ma: nat, da: nat, yb: nat, mb: nat, db: nat)
    requires ma < 100 && da < 100 && mb < 100 && db < 100
    ensures ya * 10000 + ma * 100 + da <= yb * 10000 + mb * 100 + db
      <==> ya < yb || (ya == yb && (ma < mb || (ma == mb && da <= db)))
  {
    var ra := ma * 100 + da;
    var rb := mb * 100 + db;
    assert ra < 10000 && rb < 10000;
    if ya < yb {
      LeadingDigitDecides(ya, yb, ra, rb, 10000);
    } else if ya > yb {
      LeadingDigitDecides(yb, ya, rb, ra, 10000);
    } else if ma < mb {
      LeadingDigitDecides(ma, mb, da, db, 100);
    } else if ma > mb {
      LeadingDigitDecides(mb, ma, db, da, 100);
    }
  }

  /** A field of two or four digits compares as text the way its value compares as a number. */
  lemma FieldOrder(a: string, b: string)
    requires AllDigits(a) && AllDigits(b) && |a| == |b|
    ensures a == b <==> DigitsValue(a) == DigitsValue(b)
    ensures a != b ==> (LexLeq(a, b) <==> DigitsValue(a) < DigitsValue(b))
  {
    DigitOrderIsLexOrder(a, b);
    if DigitsValue(a) == DigitsValue(b) {
      DigitsValueInjective(a, b);
    }
  }

  /**
   * Valid "YYYY-MM-DD" dates compare by their keys exactly as their texts
   * compare, so ordering the keys orders the calendar days the texts name.
   */
  lemma DateOrderIsTextOrder(a: string, b: string)
    requires DateKey(a).Some? && DateKey(b).Some?
    ensures DateKey(a).value <= DateKey(b).value <==> LexLeq(a, b)
  {
    assert |a| == 10 && |b| == 10;
    var a1, a2, a3 := a[..4], a[5..7], a[8..];
    var b1, b2, b3 := b[..4], b[5..7], b[8..];
    assert a == a1 + ([a[4]] + (a2 + ([a[7]] + a3)));
    assert b == b1 + ([b[4]] + (b2 + ([b[7]] + b3)));
    LexSplit(a1, [a[4]] + (a2 + ([a[7]] + a3)), b1, [b[4]] + (b2 + ([b[7]] + b3)));
    assert ([a[4]] + (a2 + ([a[7]] + a3)))[1..] == a2 + ([a[7]] + a3);
    assert ([b[4]] + (b2 + ([b[7]] + b3)))[1..] == b2 + ([b[7]] + b3);
    assert LexLeq([a[4]] + (a2 + ([a[7]] + a3)), [b[4]] + (b2 + ([b[7]] + b3)))
      <==> LexLeq(a2 + ([a[7]] + a3), b2 + ([b[7]] + b3));
    LexSplit(a2, [a[7]] + a3, b2, [b[7]] + b3);
    assert ([a[7]] + a3)[1..] == a3 && ([b[7]] + b3)[1..] == b3;
    assert LexLeq([a[7]] + a3, [b[7]] + b3) <==> LexLeq(a3, b3);
    assert a[0..4] == a1 && a[5..7] == a2 && a[8..10] == a3;
    assert b[0..4] == b1 && b[5..7] == b2 && b[8..10] == b3;
    FieldOrder(a1, b1);
    FieldOrder(a2, b2);
    FieldOrder(a3, b3);
    DigitsValueBound(a2);
    DigitsValueBound(a3);
    DigitsValueBound(b2);
    DigitsValueBound(b3);
    assert Pow10(2) == 100;
    assert Field(a, 0, 4).Some? && Field(a, 5, 7).Some? && Field(a, 8, 10).Some?;
    assert Field(b, 0, 4).Some? && Field(b, 5, 7).Some? && Field(b, 8, 10).Some?;
    assert DateKey(a).value == DigitsValue(a1) * 10000 + DigitsValue(a2) * 100 + DigitsValue(a3);
    assert DateKey(b).value == DigitsValue(b1) * 10000 + DigitsValue(b2) * 100 + DigitsValue(b3);
    assert LexLeq(a, b) <==> if a1 == b1 then (if a2 == b2 then LexLeq(a3, b3) else LexLeq(a2, b2)) else LexLeq(a1, b1);
    KeyOrder(DigitsValue(a1), DigitsValue(a2), DigitsValue(a3), DigitsValue(b1), DigitsValue(b2), DigitsValue(b3));
    assert DigitsValue(a3) <= DigitsValue(b3) <==> LexLeq(a3, b3) by {
      DigitOrderIsLexOrder(a3, b3);
    }
  }
}
