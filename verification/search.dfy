/**
 * The listing filter of the properties page (app/properties/page.tsx): a
 * location/title text match, a guest-capacity test and an availability test
 * against every booking that is not rejected.
 */
module PropertySearch {
  import opened Wrappers
  import opened Records
  import Seqs
  import Text

  /**
   * The search parameters after parsing: `location` is "" when absent;
   * `guests` is None when absent, empty or not a number (`parseInt` gives
   * NaN, which fails every comparison); a date is None when absent or empty.
   */
  datatype Query = Query(location: string, guests: Option<int>, startDate: Option<Day>, endDate: Option<Day>)

  /** A booking hides a property for [start, end]: same property, not rejected, overlapping. */
  predicate Blocks(b: Booking, p: Property, start: Day, end: Day) {
    b.propertyId == p.id && b.status != Rejected &&
    Overlaps(start, end, b.startDate, b.endDate)
  }

  /** The callback handed to `filter`, with its three early `return false`s. */
  predicate Keep(p: Property, bookings: seq<Booking>, q: Query)
    ensures Keep(p, bookings, q) && q.guests.Some? ==> q.guests.value <= p.maxGuests
    ensures Keep(p, bookings, q) && q.startDate.Some? && q.endDate.Some? ==>
              forall b :: b in bookings && b.propertyId == p.id && b.status != Rejected ==>
                !Overlaps(q.startDate.value, q.endDate.value, b.startDate, b.endDate)
  {
    if q.location != "" &&
       !Text.Contains(Text.Lower(p.location), Text.Lower(q.location)) &&
       !Text.Contains(Text.Lower(p.title), Text.Lower(q.location)) then false
    else if q.guests.Some? && p.maxGuests < q.guests.value then false
    else if q.startDate.Some? && q.endDate.Some? &&
            exists b :: b in bookings && Blocks(b, p, q.startDate.value, q.endDate.value) then false
    else true
  }

  /** `allProperties.filter(...)`. */
  function Search(properties: seq<Property>, bookings: seq<Booking>, q: Query): (r: seq<Property>)
    ensures |r| <= |properties|
    ensures forall k :: 0 <= k < |r| ==> r[k] in properties && Keep(r[k], bookings, q)
    ensures forall k :: 0 <= k < |properties| && Keep(properties[k], bookings, q) ==> properties[k] in r
  {
    Seqs.Filter(properties, (p: Property) => Keep(p, bookings, q))
  }

  /** The result lists only stored properties, in stored order, and each listed one passes every test. */
  lemma SearchIsOrderedSelection(properties: seq<Property>, bookings: seq<Booking>, q: Query)
    ensures Seqs.IsSubsequence(Search(properties, bookings, q), properties)
    ensures forall p :: p in Search(properties, bookings, q) <==> p in properties && Keep(p, bookings, q)
  {
    var keep := (p: Property) => Keep(p, bookings, q);
    Seqs.FilterIsSubsequence(properties, keep);
    var r := Search(properties, bookings, q);
    forall p | p in r ensures p in properties && Keep(p, bookings, q) {
      var k :| 0 <= k < |r| && r[k] == p;
    }
    forall p | p in properties && Keep(p, bookings, q) ensures p in r {
      var k :| 0 <= k < |properties| && properties[k] == p;
    }
  }

  /** The location test: no location asked for, or it occurs, case-folded, in the location or the title. */
  predicate MatchesLocation(p: Property, q: Query) {
    q.location == "" ||
    Text.Contains(Text.Lower(p.location), Text.Lower(q.location)) ||
    Text.Contains(Text.Lower(p.title), Text.Lower(q.location))
  }

  /** The guest test: no count asked for, or the property sleeps at least that many. */
  predicate HasRoom(p: Property, q: Query) {
    q.guests.None? || q.guests.value <= p.maxGuests
  }

  /** The availability test: not both dates given, or no non-rejected booking of the property overlaps them. */
  predicate IsFree(p: Property, bookings: seq<Booking>, q: Query) {
    q.startDate.None? || q.endDate.None? ||
    forall b :: b in bookings && b.propertyId == p.id && b.status != Rejected ==>
      !Overlaps(q.startDate.value, q.endDate.value, b.startDate, b.endDate)
  }

  /** The filter's three early returns amount to: a property is listed exactly when it passes all three tests. */
  lemma KeepIsAllThreeTests(p: Property, bookings: seq<Booking>, q: Query)
    ensures Keep(p, bookings, q) <==> MatchesLocation(p, q) && HasRoom(p, q) && IsFree(p, bookings, q)
  {
  }

  /** With no location, no guest count and not both dates, every property is listed. */
  lemma NoFiltersListsAll(properties: seq<Property>, bookings: seq<Booking>, q: Query)
    requires q.location == "" && q.guests.None? && (q.startDate.None? || q.endDate.None?)
    ensures Search(properties, bookings, q) == properties
  {
    Seqs.FilterKeepsAll(properties, (p: Property) => Keep(p, bookings, q));
  }

  /**
   * The location test: with a non-empty query, a property passes exactly
   * when the lower-cased query occurs in its lower-cased location or title.
   */
  lemma LocationTest(p: Property, q: Query)
    requires q.location != ""
    ensures Keep(p, [], q.(guests := None)) <==>
              Text.Contains(Text.Lower(p.location), Text.Lower(q.location)) ||
              Text.Contains(Text.Lower(p.title), Text.Lower(q.location))
  {
  }

  /** The guest test: a property whose capacity is below the requested count is never listed. */
  lemma TooSmallIsExcluded(p: Property, bookings: seq<Booking>, q: Query)
    requires q.guests.Some? && p.maxGuests < q.guests.value
    ensures !Keep(p, bookings, q)
  {
  }

  /**
   * The availability test applies only when both dates are given; then a
   * property is excluded exactly when some non-rejected booking of it
   * overlaps the range, a pending booking as much as a confirmed one.
   */
  lemma AvailabilityTest(p: Property, bookings: seq<Booking>, q: Query)
    requires q.location == "" && q.guests.None?
    ensures (q.startDate.None? || q.endDate.None?) ==> Keep(p, bookings, q)
    ensures q.startDate.Some? && q.endDate.Some? ==>
              (Keep(p, bookings, q) <==>
               forall b :: b in bookings && b.propertyId == p.id && b.status != Rejected ==>
                 !Overlaps(q.startDate.value, q.endDate.value, b.startDate, b.endDate))
  {
  }

  /**
   * A property whose only booking on the searched days is still pending is
   * hidden from the results: the page blocks on every status but rejected.
   */
  lemma PendingBookingHides(properties: seq<Property>, bookings: seq<Booking>, q: Query, i: nat, b: Booking)
    requires i < |properties| && b in bookings
    requires q.startDate.Some? && q.endDate.Some?
    requires b.propertyId == properties[i].id && b.status == Pending
    requires Overlaps(q.startDate.value, q.endDate.value, b.startDate, b.endDate)
    ensures properties[i] !in Search(properties, bookings, q)
  {
    SearchIsOrderedSelection(properties, bookings, q);
    assert Blocks(b, properties[i], q.startDate.value, q.endDate.value);
  }
}
