/**
 * Creating a ride from the validated ride form
 * (src/components/ride-form/AddRideForm.tsx, `onSubmit`): build the new `Ride`,
 * append it to the stored ride list and write the list back through
 * `syncWithAdditionalData`.
 */
module CreateRide {
  import opened Wrappers
  import opened Decimal
  import opened RideTypes
  import opened MockStore
  import opened RideFormSchema

  /** The signed-in user's fields that the new ride copies (the `mockUser` fixture). */
  datatype Profile = Profile(id: string, rating: real, verified: bool, totalRides: int)

  const SmokingTag := "Smoking allowed"
  const PetsTag := "Pets allowed"
  const MusicTag := "Music allowed"
  const ChattingTag := "Chatting welcome"

  /** The preference tags of the new ride: one per set flag, in a fixed order. */
  function PreferenceTags(d: RideFormData): (tags: seq<string>)
  {
    (if d.allowSmoking then [SmokingTag] else [])
    + (if d.allowPets then [PetsTag] else [])
    + (if d.allowMusic then [MusicTag] else [])
    + (if d.allowChatting then [ChattingTag] else [])
  }

  /** A tag's place in the fixed order Smoking, Pets, Music, Chatting; other text comes after all four. */
  function TagRank(tag: string): nat {
    if tag == SmokingTag then 0
    else if tag == PetsTag then 1
    else if tag == MusicTag then 2
    else if tag == ChattingTag then 3
    else 4
  }

  /** Each tag is present exactly when its flag is set; there are at most four, none twice, and always in the fixed order. */
  lemma PreferenceTagsExact(d: RideFormData)
    ensures var tags := PreferenceTags(d);
      && (SmokingTag in tags <==> d.allowSmoking)
      && (PetsTag in tags <==> d.allowPets)
      && (MusicTag in tags <==> d.allowMusic)
      && (ChattingTag in tags <==> d.allowChatting)
      && |tags| <= 4
      && (forall i, j :: 0 <= i < j < |tags| ==> tags[i] != tags[j])
      && (forall i, j :: 0 <= i < j < |tags| ==> TagRank(tags[i]) < TagRank(tags[j]))
      && (d.allowSmoking && d.allowPets && d.allowMusic && d.allowChatting ==> tags == [SmokingTag, PetsTag, MusicTag, ChattingTag])
  {
  }

  /** The id of the ride created when `count` rides exist: "ride" and the decimal of `count + 1`. */
  function RideId(count: nat): string {
    "ride" + NatToString(count + 1)
  }

  /** The `newRide` record built from the form. */
  function NewRide(d: RideFormData, user: Profile, count: nat): Ride {
    Ride(
      id := RideId(count),
      driver := DriverRef(user.id, d.driverName, user.rating, user.verified, user.totalRides),
      departure := Departure(d.departureLocation, (0.0, 0.0), d.departureTime, d.departureDate),
      destination := Destination(d.destinationLocation, (0.0, 0.0), ""),
      availableSeats := d.availableSeats,
      totalSeats := d.availableSeats,
      price := d.fuelCost + d.parkingCost,
      distance := 0.0,
      duration := "",
      description := d.message,
      preferences := PreferenceTags(d),
      recurring := if d.isRecurring then Some(Recurrence(d.recurringDays.GetOr([]), d.recurringEndDate)) else None,
      waitlistCount := 0)
  }

  /** A new ride starts full of free seats, with nobody waiting, priced at the plain cost sum, recurring iff the form says so. */
  lemma NewRideShape(d: RideFormData, user: Profile, count: nat)
    ensures var r := NewRide(d, user, count);
      && r.totalSeats == r.availableSeats == d.availableSeats
      && r.waitlistCount == 0
      && r.price == d.fuelCost + d.parkingCost
      && (r.recurring.Some? <==> d.isRecurring)
      && (d.isRecurring ==> r.recurring.value.days == (if d.recurringDays.Some? then d.recurringDays.value else []))
      && r.driver.name == d.driverName && r.driver.id == user.id
      && r.id[..4] == "ride" && ParseInt(r.id[4..]) == Some(count + 1)
  {
    var r := NewRide(d, user, count);
    assert r.id[4..] == NatToString(count + 1);
    ParseIntOfIntToString(count + 1);
  }

  /** `localStorageData?.mockRides?.mockRides || []`: the stored rides, or none. */
  function StoredRides(blob: Option<Blob>): seq<Ride> {
    if blob.Some? && "mockRides" in blob.value && "mockRides" in blob.value["mockRides"]
       && blob.value["mockRides"]["mockRides"].Rides?
    then blob.value["mockRides"]["mockRides"].rides
    else []
  }

  /** The argument of the `syncWithAdditionalData` call: the `mockRides` module holding only the updated list. */
  function RideListWrite(rides: seq<Ride>): Blob {
    map["mockRides" := map["mockRides" := Rides(rides)]]
  }

  /** What one submission does to the stored slot. */
  function SubmitStep(slot: Slot, files: seq<FixtureFile>, d: RideFormData, user: Profile, accepted: bool): Slot {
    var existing := StoredRides(Read(slot));
    SyncStep(slot, files, RideListWrite(existing + [NewRide(d, user, |existing|)]), accepted)
  }

  /**
   * After a submission the stored list is the earlier list, unchanged and in
   * order, followed by the new ride; and the `mockRides` module holds nothing
   * else, so other exports of that module are gone.
   */
  lemma SubmitAppendsRide(slot: Slot, files: seq<FixtureFile>, d: RideFormData, user: Profile)
    ensures var existing := StoredRides(Read(slot));
      var after := SubmitStep(slot, files, d, user, true);
      && StoredRides(Read(after)) == existing + [NewRide(d, user, |existing|)]
      && Read(after).value["mockRides"] == map["mockRides" := Rides(existing + [NewRide(d, user, |existing|)])]
  {
  }

  /** A ride list whose ids are "ride1", "ride2", ... in order, as repeated submissions from an empty list produce. */
  predicate SequentialIds(rides: seq<Ride>) {
    forall i :: 0 <= i < |rides| ==> rides[i].id == RideId(i)
  }

  /** Submitting keeps the ids sequential, and sequential ids are all different. */
  lemma SubmitKeepsIdsSequential(slot: Slot, files: seq<FixtureFile>, d: RideFormData, user: Profile)
    requires SequentialIds(StoredRides(Read(slot)))
    ensures var after := StoredRides(Read(SubmitStep(slot, files, d, user, true)));
      SequentialIds(after) && forall i, j :: 0 <= i < j < |after| ==> after[i].id != after[j].id
  {
    var after := StoredRides(Read(SubmitStep(slot, files, d, user, true)));
    SubmitAppendsRide(slot, files, d, user);
    forall i, j | 0 <= i < j < |after|
      ensures after[i].id != after[j].id
    {
      if after[i].id == after[j].id {
        assert "ride" + NatToString(i + 1) == "ride" + NatToString(j + 1);
        assert NatToString(i + 1) == ("ride" + NatToString(i + 1))[4..];
        assert NatToString(j + 1) == ("ride" + NatToString(j + 1))[4..];
        NatToStringInjective(i + 1, j + 1);
      }
    }
  }

  /** The observable effects of a submission, in order. */
  datatype Effect = SuccessToast | CalledOnSuccess | CalledOnCancel

  /** The ride form's state: the submitting flag and the store it writes to. */
  class RideForm {
    var isSubmitting: bool
    var effects: seq<Effect>
    const store: Store
    const user: Profile
    const hasOnSuccess: bool
    const hasOnCancel: bool

    constructor (store: Store, user: Profile, hasOnSuccess: bool, hasOnCancel: bool)
      ensures !isSubmitting && effects == []
      ensures this.store == store && this.user == user
      ensures this.hasOnSuccess == hasOnSuccess && this.hasOnCancel == hasOnCancel
    {
      isSubmitting := false;
      effects := [];
      this.store := store;
      this.user := user;
      this.hasOnSuccess := hasOnSuccess;
      this.hasOnCancel := hasOnCancel;
    }

    /** `onSubmit(d)`; `accepted` says whether the storage takes the write. */
    method OnSubmit(d: RideFormData, accepted: bool)
      modifies this, store
      ensures !isSubmitting
      ensures store.slot == SubmitStep(old(store.slot), store.fixtures, d, user, accepted)
      ensures effects == old(effects) + [SuccessToast]
                         + (if hasOnSuccess then [CalledOnSuccess] else [])
                         + (if hasOnCancel then [CalledOnCancel] else [])
    {
      isSubmitting := true;
      var existing := StoredRides(store.Load());
      var newRide := NewRide(d, user, |existing|);
      var updated := existing + [newRide];
      store.SyncWithAdditionalData(RideListWrite(updated), accepted);
      effects := effects + [SuccessToast];
      if hasOnSuccess {
        effects := effects + [CalledOnSuccess];
      }
      if hasOnCancel {
        effects := effects + [CalledOnCancel];
      }
      isSubmitting := false;
    }
  }
}
