/**
 * The client-side booking form (components/booking-form.tsx): required-field
 * validation, a day-by-day walk of the chosen range against the blocked
 * ranges, the request body, and the state reset after a sent request.
 */
module BookingForm {
  import opened Wrappers
  import opened Records
  import BookingsApi

  /** A blocked range as the calendar receives it: both ends inclusive. */
  datatype DayRange = DayRange(from: Day, to: Day)

  const RequiredFieldsMessage := "Please fill in all required fields (dates, name, phone)."
  const BlockedMessage := "Selected range includes dates that are already booked."
  const SentMessage := "Booking request sent! We will contact you shortly."
  const FailedMessage := "Something went wrong. Please try again."

  /** `isDateBlocked`: some blocked range contains the day. */
  predicate IsDateBlocked(d: Day, blocked: seq<DayRange>)
    ensures blocked == [] ==> !IsDateBlocked(d, blocked)
    ensures IsDateBlocked(d, blocked) ==> exists r :: r in blocked && r.from <= r.to
  {
    exists r :: r in blocked && Within(d, r.from, r.to)
  }

  /**
   * The `while (current <= end)` walk: reports whether some day of
   * [from, to] is blocked. When `from > to` it looks at no day.
   */
  method RangeHitsBlocked(first: Day, last: Day, blocked: seq<DayRange>) returns (hit: bool)
    ensures hit <==> exists d :: Within(d, first, last) && IsDateBlocked(d, blocked)
  {
    var current := first;
    while current <= last
      invariant first <= current
      invariant first <= last ==> current <= last + 1
      invariant forall d :: first <= d < current ==> !IsDateBlocked(d, blocked)
      decreases last - current
    {
      if IsDateBlocked(current, blocked) {
        assert Within(current, first, last);
        return true;
      }
      current := current + 1;
    }
    hit := false;
  }

  /**
   * For a well-ordered range, the walk finds a blocked day exactly when the
   * range overlaps some non-empty blocked range.
   */
  lemma WalkMatchesOverlap(from: Day, to: Day, blocked: seq<DayRange>)
    requires from <= to
    ensures (exists d :: Within(d, from, to) && IsDateBlocked(d, blocked)) <==>
            exists r :: r in blocked && r.from <= r.to && Overlaps(from, to, r.from, r.to)
  {
    if exists d :: Within(d, from, to) && IsDateBlocked(d, blocked) {
      var d :| Within(d, from, to) && IsDateBlocked(d, blocked);
      var r :| r in blocked && Within(d, r.from, r.to);
      assert r.from <= r.to && Overlaps(from, to, r.from, r.to);
    }
    if exists r :: r in blocked && r.from <= r.to && Overlaps(from, to, r.from, r.to) {
      var r :| r in blocked && r.from <= r.to && Overlaps(from, to, r.from, r.to);
      OverlapsIffSharedDay(from, to, r.from, r.to);
      var d :| Within(d, from, to) && Within(d, r.from, r.to);
      assert IsDateBlocked(d, blocked);
    }
  }

  /** The JSON body the form posts to /api/bookings. */
  function RequestBody(propertyId: string, from: Day, to: Day, guests: int, name: string,
                       email: string, phone: string, includeMeals: bool): BookingsApi.BookingRequest
  {
    BookingsApi.BookingRequest(Some(propertyId), Some(from), Some(to), Some(guests), Some(name),
                               Some(email), Some(phone), Some(includeMeals))
  }

  /**
   * A body that passed the form's own checks is accepted by the route, which
   * stores the form's guest count, name, email and phone and drops the meals flag.
   */
  lemma FormBodyIsAccepted(propertyId: string, from: Day, to: Day, guests: int, name: string,
                           email: string, phone: string, includeMeals: bool)
    requires propertyId != "" && name != "" && phone != ""
    ensures BookingsApi.PostDraft(RequestBody(propertyId, from, to, guests, name, email, phone, includeMeals)) ==
            Some(BookingDraft(propertyId, from, to, Some(guests), name, email, Some(phone)))
  {
  }

  /** The form's state: one field per `useState` of the component. */
  class Form {
    var from: Option<Day>
    var to: Option<Day>
    var guests: int
    var includeMeals: bool
    var name: string
    var email: string
    var phone: string
    var isSubmitting: bool
    var message: string

    constructor ()
      ensures from == None && to == None && guests == 1 && !includeMeals
      ensures name == "" && email == "" && phone == "" && !isSubmitting && message == ""
    {
      from, to, guests, includeMeals := None, None, 1, false;
      name, email, phone, isSubmitting, message := "", "", "", false, "";
    }

    /** Dates, name and phone are present; the email is optional. */
    predicate Complete()
      reads this
    {
      from.Some? && to.Some? && name != "" && phone != ""
    }

    /**
     * `handleBooking`. Without dates, name or phone it only sets the
     * required-fields message; a range with a blocked day only sets the
     * blocked message. Otherwise it sends the body; when the request does not
     * throw (whatever status the server answers) it shows the sent message
     * and clears dates, name, email, phone and the meals flag, keeping the
     * guest count; when it throws it shows the failure message.
     */
    method HandleBooking(propertyId: string, blocked: seq<DayRange>, requestThrows: bool)
      returns (sent: Option<BookingsApi.BookingRequest>)
      modifies this
      ensures !old(Complete()) ==>
                sent == None && message == RequiredFieldsMessage && isSubmitting == old(isSubmitting) &&
                from == old(from) && to == old(to) && name == old(name) && email == old(email) &&
                phone == old(phone) && includeMeals == old(includeMeals)
      ensures old(Complete()) &&
              (exists d :: Within(d, old(from).value, old(to).value) && IsDateBlocked(d, blocked)) ==>
                sent == None && message == BlockedMessage && isSubmitting == old(isSubmitting) &&
                from == old(from) && to == old(to) && name == old(name) && email == old(email) &&
                phone == old(phone) && includeMeals == old(includeMeals)
      ensures old(Complete()) &&
              !(exists d :: Within(d, old(from).value, old(to).value) && IsDateBlocked(d, blocked)) ==>
                sent == Some(RequestBody(propertyId, old(from).value, old(to).value, old(guests),
                                         old(name), old(email), old(phone), old(includeMeals))) &&
                !isSubmitting &&
                (requestThrows ==>
                   message == FailedMessage && from == old(from) && to == old(to) &&
                   name == old(name) && email == old(email) && phone == old(phone) &&
                   includeMeals == old(includeMeals)) &&
                (!requestThrows ==>
                   message == SentMessage && from == None && to == None &&
                   name == "" && email == "" && phone == "" && !includeMeals)
      ensures guests == old(guests)
    {
      message := "";
      if from.None? || to.None? || name == "" || phone == "" {
        message := RequiredFieldsMessage;
        return None;
      }
      var hit := RangeHitsBlocked(from.value, to.value, blocked);
      if hit {
        message := BlockedMessage;
        return None;
      }
      isSubmitting := true;
      sent := Some(RequestBody(propertyId, from.value, to.value, guests, name, email, phone, includeMeals));
      if requestThrows {
        message := FailedMessage;
      } else {
        message := SentMessage;
        from, to := None, None;
        name, email, phone := "", "", "";
        includeMeals := false;
      }
      isSubmitting := false;
    }
  }
}
