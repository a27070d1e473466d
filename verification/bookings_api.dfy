/** The bookings collection route (app/api/bookings/route.ts): GET lists, POST validates and creates. */
module BookingsApi {
  import opened Wrappers
  import opened Records
  import opened Http
  import Ledger

  /**
   * A POST body. A date is None when absent or empty; `includeMeals` is
   * sent by the booking form and ignored by the route.
   */
  datatype BookingRequest = BookingRequest(
    propertyId: Option<string>,
    startDate: Option<Day>,
    endDate: Option<Day>,
    guestCount: Option<int>,
    customerName: Option<string>,
    customerEmail: Option<string>,
    customerPhone: Option<string>,
    includeMeals: Option<bool>)

  /** The five fields the route demands. */
  predicate HasRequiredFields(req: BookingRequest) {
    Given(req.propertyId) && req.startDate.Some? && req.endDate.Some? &&
    Given(req.customerName) && Given(req.customerPhone)
  }

  /**
   * The record POST hands to `createBooking`, or None for the 400 answer:
   * the seven named fields, with a missing email turned into "".
   */
  function PostDraft(req: BookingRequest): (r: Option<BookingDraft>)
    ensures r.None? <==> !HasRequiredFields(req)
    ensures r.Some? ==> Some(r.value.propertyId) == req.propertyId && Some(r.value.startDate) == req.startDate &&
                        Some(r.value.endDate) == req.endDate && Some(r.value.customerName) == req.customerName &&
                        r.value.customerPhone == req.customerPhone
  {
    if !HasRequiredFields(req) then None
    else Some(BookingDraft(
      req.propertyId.value,
      req.startDate.value,
      req.endDate.value,
      req.guestCount,
      req.customerName.value,
      req.customerEmail.GetOr(""),
      req.customerPhone))
  }

  /**
   * What the route keeps from a valid body: the guest count as sent (0 and
   * absence included), the email or "", the phone, and nothing else.
   */
  lemma PostDraftFields(req: BookingRequest, meals: Option<bool>)
    ensures PostDraft(req).None? <==> !HasRequiredFields(req)
    ensures PostDraft(req.(includeMeals := meals)) == PostDraft(req)
    ensures PostDraft(req).Some? ==>
              var d := PostDraft(req).value;
              d.guestCount == req.guestCount &&
              (req.customerEmail.None? ==> d.customerEmail == "") &&
              d.customerName != "" && d.customerPhone.Some? && d.customerPhone.value != ""
  {
  }

  /** GET: every booking, in stored order. */
  method Get(store: Ledger.Store) returns (reply: Reply<seq<Booking>>)
    ensures reply == Ok(200, store.bookings)
  {
    reply := Ok(200, store.bookings);
  }

  /**
   * POST: 400 "Missing required fields" and no change, or 201 with the new
   * pending booking appended to the store.
   */
  method Post(store: Ledger.Store, req: BookingRequest, freshId: string) returns (reply: Reply<Booking>)
    requires store.Valid()
    requires forall x :: x in store.bookings ==> x.id != freshId
    modifies store
    ensures store.Valid()
    ensures PostDraft(req).None? ==>
              reply == Error(400, "Missing required fields") && store.bookings == old(store.bookings)
    ensures PostDraft(req).Some? ==>
              var b := Ledger.NewBooking(PostDraft(req).value, freshId);
              reply == Ok(201, b) && b.status == Pending && store.bookings == old(store.bookings) + [b]
    ensures store.properties == old(store.properties) && store.users == old(store.users)
  {
    var draft := PostDraft(req);
    if draft.None? {
      return Error(400, "Missing required fields");
    }
    var booking := store.CreateBooking(draft.value, freshId);
    reply := Ok(201, booking);
  }
}
