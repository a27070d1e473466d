/**
 * The three record kinds of the booking store (lib/data.ts) and the
 * closed-interval overlap test used both by the confirmation gate and by the
 * search page. Dates are calendar day numbers.
 */
module Records {
  import opened Wrappers

  /** A calendar day; the source stores ISO date strings and compares parsed Dates. */
  type Day = int

  datatype Status = Pending | Confirmed | Rejected

  datatype Role = Admin | Customer

  datatype Property = Property(
    id: string,
    title: string,
    description: string,
    price: real,
    location: string,
    images: seq<string>,
    rating: real,
    maxGuests: int,
    amenities: seq<string>)

  /** A property as handed to `createProperty`: every field but the id. */
  datatype PropertyDraft = PropertyDraft(
    title: string,
    description: string,
    price: real,
    location: string,
    images: seq<string>,
    rating: real,
    maxGuests: int,
    amenities: seq<string>)

  /**
   * A booking for the closed day interval [startDate, endDate]. The guest
   * count is whatever the request carried (possibly nothing); the phone is
   * optional in the record type.
   */
  datatype Booking = Booking(
    id: string,
    propertyId: string,
    startDate: Day,
    endDate: Day,
    guestCount: Option<int>,
    status: Status,
    customerName: string,
    customerEmail: string,
    customerPhone: Option<string>)

  /** A booking as handed to `createBooking`: every field but the id and the status. */
  datatype BookingDraft = BookingDraft(
    propertyId: string,
    startDate: Day,
    endDate: Day,
    guestCount: Option<int>,
    customerName: string,
    customerEmail: string,
    customerPhone: Option<string>)

  datatype User = User(
    id: string,
    name: string,
    email: string,
    passwordHash: string,
    role: Role,
    phone: Option<string>)

  /** A user as handed to `createUser`: every field but the id. */
  datatype UserDraft = UserDraft(
    name: string,
    email: string,
    passwordHash: string,
    role: Role,
    phone: Option<string>)

  function PropertyId(p: Property): string { p.id }
  function BookingId(b: Booking): string { b.id }
  function UserId(u: User): string { u.id }

  /** Day `d` lies in the closed interval [start, end]. */
  predicate Within(d: Day, start: Day, end: Day) {
    start <= d <= end
  }

  /** Two closed day intervals overlap: each starts no later than the other ends. */
  predicate Overlaps(aStart: Day, aEnd: Day, bStart: Day, bEnd: Day) {
    aStart <= bEnd && aEnd >= bStart
  }

  /**
   * For two non-empty intervals the overlap test holds exactly when some
   * calendar day lies in both: a shared boundary day counts, adjacent
   * intervals do not.
   */
  lemma OverlapsIffSharedDay(aStart: Day, aEnd: Day, bStart: Day, bEnd: Day)
    requires aStart <= aEnd && bStart <= bEnd
    ensures Overlaps(aStart, aEnd, bStart, bEnd) <==>
            exists d :: Within(d, aStart, aEnd) && Within(d, bStart, bEnd)
  {
    if Overlaps(aStart, aEnd, bStart, bEnd) {
      var d := if aStart < bStart then bStart else aStart;
      assert Within(d, aStart, aEnd) && Within(d, bStart, bEnd);
    }
  }
}
