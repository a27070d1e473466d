/**
 * The administrator's "block dates" flow (app/admin/page.tsx): post an
 * ordinary booking with no guests, then push it to confirmed through the
 * same confirmation gate as any other booking.
 */
module AdminBlock {
  import opened Wrappers
  import opened Records
  import opened Http
  import Ledger
  import BookingsApi

  const BlockEmail := "admin@goodboy.com"

  /** A placeholder phone for a block, which has no customer to call. */
  const BlockPhone := "N/A"

  /** The body `handleCreateBlock` posts as written: it carries no `customerPhone`. */
  function BlockRequestAsWritten(propertyId: string, from: Day, to: Day, reason: string): BookingsApi.BookingRequest {
    BookingsApi.BookingRequest(Some(propertyId), Some(from), Some(to), Some(0), Some(reason),
                               Some(BlockEmail), None, None)
  }

  /**
   * As written, every block request is refused by the bookings route, which
   * demands a phone: the POST answers 400, no booking is created and nothing
   * gets confirmed.
   */
  lemma AsWrittenBlockIsRefused(propertyId: string, from: Day, to: Day, reason: string)
    ensures BookingsApi.PostDraft(BlockRequestAsWritten(propertyId, from, to, reason)).None?
  {
  }

  /** The block body with a placeholder phone, so that the route accepts it. */
  function BlockRequest(propertyId: string, from: Day, to: Day, reason: string): BookingsApi.BookingRequest {
    BookingsApi.BookingRequest(Some(propertyId), Some(from), Some(to), Some(0), Some(reason),
                               Some(BlockEmail), Some(BlockPhone), None)
  }

  /**
   * With a property chosen and a non-empty reason, the corrected block is
   * accepted as a zero-guest booking of exactly the chosen days.
   */
  lemma BlockRequestIsAccepted(propertyId: string, from: Day, to: Day, reason: string)
    requires propertyId != "" && reason != ""
    ensures BookingsApi.PostDraft(BlockRequest(propertyId, from, to, reason)) ==
            Some(BookingDraft(propertyId, from, to, Some(0), reason, BlockEmail, Some(BlockPhone)))
  {
  }

  /** The new booking, as the last entry, conflicts with the old ones exactly as it would on its own. */
  lemma ConflictIgnoresOwnEntry(bs: seq<Booking>, b: Booking)
    requires forall x :: x in bs ==> x.id != b.id
    ensures Ledger.ConflictsWithConfirmed(bs + [b], b) <==> Ledger.ConflictsWithConfirmed(bs, b)
  {
    if Ledger.ConflictsWithConfirmed(bs + [b], b) {
      var x :| x in bs + [b] && x.id != b.id && x.propertyId == b.propertyId &&
               x.status == Confirmed && Overlaps(b.startDate, b.endDate, x.startDate, x.endDate);
      assert x in bs;
    }
  }

  /**
   * `handleCreateBlock` as written, once a property and a range are chosen:
   * the POST is refused, so no booking is added and nothing is confirmed.
   */
  method BlockDatesAsWritten(store: Ledger.Store, propertyId: string, from: Day, to: Day, reason: string, freshId: string)
    requires store.Valid()
    requires forall x :: x in store.bookings ==> x.id != freshId
    modifies store
    ensures store.Valid()
    ensures store.bookings == old(store.bookings)
    ensures store.properties == old(store.properties) && store.users == old(store.users)
  {
    AsWrittenBlockIsRefused(propertyId, from, to, reason);
    var reply := BookingsApi.Post(store, BlockRequestAsWritten(propertyId, from, to, reason), freshId);
    if reply.Ok? {
      assert false;
    }
  }

  /**
   * `handleCreateBlock` with the corrected body. Without a property or with
   * a blank reason the POST is refused and nothing changes. Otherwise the
   * block is appended as a zero-guest booking; it ends confirmed when no
   * confirmed booking of the property overlaps it, and otherwise stays
   * pending (the create is not undone).
   */
  method BlockDates(store: Ledger.Store, propertyId: string, from: Day, to: Day, reason: string, freshId: string)
    returns (created: Option<Booking>)
    requires store.Valid()
    requires forall x :: x in store.bookings ==> x.id != freshId
    modifies store
    ensures store.Valid()
    ensures propertyId == "" || reason == "" ==> created.None? && store.bookings == old(store.bookings)
    ensures propertyId != "" && reason != "" ==>
              var b := Ledger.NewBooking(BookingDraft(propertyId, from, to, Some(0), reason, BlockEmail, Some(BlockPhone)), freshId);
              var conflict := Ledger.ConflictsWithConfirmed(old(store.bookings), b);
              created == Some(b) &&
              store.bookings == old(store.bookings) + [b.(status := if conflict then Pending else Confirmed)]
    ensures store.properties == old(store.properties) && store.users == old(store.users)
  {
    if propertyId != "" && reason != "" {
      BlockRequestIsAccepted(propertyId, from, to, reason);
    }
    var reply := BookingsApi.Post(store, BlockRequest(propertyId, from, to, reason), freshId);
    if reply.Error? {
      return None;
    }
    var b := reply.body;
    ghost var before := store.bookings;
    ConflictIgnoresOwnEntry(old(store.bookings), b);
    assert Ledger.BookingIndex(before, freshId) == |before| - 1 by {
      assert before[|before| - 1].id == freshId;
      assert forall k :: 0 <= k < |before| - 1 ==> before[k] in old(store.bookings);
    }
    var outcome := store.UpdateBookingStatus(freshId, Confirmed);
    created := Some(b);
  }
}
