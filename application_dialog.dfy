/**
 * The dialog in which a passenger applies for a seat
 * (src/components/RideApplicationDialog.tsx): four form fields and a submit
 * that goes through only once the terms are accepted. The `onSubmit` and
 * `onClose` callbacks are recorded as events.
 */
module ApplicationDialog {

  datatype ApplicationData = ApplicationData(
    pickupLocation: string,
    message: string,
    agreedToTerms: bool,
    phoneNumber: string)

  /** The empty form the dialog starts with and returns to after a submit. */
  const EmptyApplication := ApplicationData("", "", false, "")

  datatype Event = Submitted(data: ApplicationData) | Closed

  /** The state after `handleSubmit`, and the callbacks it fires, in order. */
  datatype SubmitResult = SubmitResult(next: ApplicationData, events: seq<Event>)

  /** `handleSubmit`: with the terms accepted, hand the data on, reset the form and close; otherwise nothing. */
  function SubmitStep(data: ApplicationData): (r: SubmitResult)
    ensures data.agreedToTerms ==> r.next == EmptyApplication && r.events == [Submitted(data), Closed]
    ensures !data.agreedToTerms ==> r.next == data && r.events == []
  {
    if data.agreedToTerms then SubmitResult(EmptyApplication, [Submitted(data), Closed])
    else SubmitResult(data, [])
  }

  /** The submit button's `disabled`. */
  function SubmitDisabled(data: ApplicationData): bool {
    !data.agreedToTerms
  }

  /** The button is disabled exactly when submitting would do nothing, and `onSubmit` fires exactly when it is enabled. */
  lemma DisabledIffNoEffect(data: ApplicationData)
    ensures SubmitDisabled(data) <==> SubmitStep(data).events == []
    ensures Submitted(data) in SubmitStep(data).events <==> !SubmitDisabled(data)
  {
  }

  /** A second submit right after a successful one does nothing: the reset clears the terms box. */
  lemma NoDoubleSubmit(data: ApplicationData)
    requires data.agreedToTerms
    ensures SubmitStep(SubmitStep(data).next).events == []
    ensures SubmitDisabled(SubmitStep(data).next)
  {
  }

  class ApplicationForm {
    var data: ApplicationData
    var events: seq<Event>

    constructor ()
      ensures data == EmptyApplication && events == []
    {
      data := EmptyApplication;
      events := [];
    }

    method SetPickupLocation(v: string)
      modifies this
      ensures data == old(data).(pickupLocation := v) && events == old(events)
    {
      data := data.(pickupLocation := v);
    }

    method SetPhoneNumber(v: string)
      modifies this
      ensures data == old(data).(phoneNumber := v) && events == old(events)
    {
      data := data.(phoneNumber := v);
    }

    method SetMessage(v: string)
      modifies this
      ensures data == old(data).(message := v) && events == old(events)
    {
      data := data.(message := v);
    }

    method SetAgreedToTerms(checked: bool)
      modifies this
      ensures data == old(data).(agreedToTerms := checked) && events == old(events)
    {
      data := data.(agreedToTerms := checked);
    }

    method HandleSubmit()
      modifies this
      ensures data == SubmitStep(old(data)).next
      ensures events == old(events) + SubmitStep(old(data)).events
    {
      if data.agreedToTerms {
        events := events + [Submitted(data)];
        data := EmptyApplication;
        events := events + [Closed];
      }
    }
  }
}
