/**
 * The booking store of lib/data.ts: three lists (properties, bookings,
 * users) that every operation changes in place, and the confirmation gate
 * that keeps two confirmed bookings of one property from sharing a day.
 *
 * The source re-reads and re-writes a JSON file around every operation;
 * here the store is in-memory state and operations run one at a time.
 * Fresh identifiers, which the source draws at random, are parameters.
 */
module Ledger {
  import opened Wrappers
  import opened Records
  import Seqs

  /** The errors the store throws, one per `throw new Error(...)` site. */
  datatype LedgerError = PropertyNotFound | BookingConflict | UserAlreadyExists | UserNotFound

  function Message(e: LedgerError): string {
    match e
    case PropertyNotFound => "Property not found"
    case BookingConflict => "Booking conflict: Dates are already booked."
    case UserAlreadyExists => "User already exists"
    case UserNotFound => "User not found"
  }

  /** Field updates for `updateUser`: a present field overrides, an absent one keeps the stored value. */
  datatype UserUpdate = UserUpdate(
    id: Option<string>,
    name: Option<string>,
    email: Option<string>,
    passwordHash: Option<string>,
    role: Option<Role>,
    phone: Option<string>)

  // ----- lookups (findIndex / find) -----

  function PropertyIndex(ps: seq<Property>, id: string): (i: int)
    ensures -1 <= i < |ps|
    ensures i == -1 <==> forall k :: 0 <= k < |ps| ==> ps[k].id != id
    ensures 0 <= i ==> ps[i].id == id && forall k :: 0 <= k < i ==> ps[k].id != id
  {
    Seqs.FirstIndex(ps, (p: Property) => p.id == id)
  }

  function BookingIndex(bs: seq<Booking>, id: string): int {
    Seqs.FirstIndex(bs, (b: Booking) => b.id == id)
  }

  function UserIndex(us: seq<User>, id: string): int {
    Seqs.FirstIndex(us, (u: User) => u.id == id)
  }

  /** `getProperty`: the first property with the id, if any. */
  function PropertyById(ps: seq<Property>, id: string): (r: Option<Property>)
    ensures r.Some? ==> r.value in ps && r.value.id == id
    ensures r.None? <==> forall p :: p in ps ==> p.id != id
  {
    var i := PropertyIndex(ps, id);
    if i == -1 then None else Some(ps[i])
  }

  /** `getUserByEmail`: the first user with the email, if any. */
  function UserByEmail(us: seq<User>, email: string): (r: Option<User>)
    ensures r.Some? ==> r.value in us && r.value.email == email
    ensures r.Some? ==> exists k :: 0 <= k < |us| && us[k] == r.value &&
                                    forall j :: 0 <= j < k ==> us[j].email != email
    ensures r.None? <==> forall u :: u in us ==> u.email != email
  {
    var i := Seqs.FirstIndex(us, (u: User) => u.email == email);
    if i == -1 then None else Some(us[i])
  }

  /** The "my bookings" query of the dashboard: bookings whose customer email equals the caller's. */
  function BookingsOf(bs: seq<Booking>, email: string): (r: seq<Booking>)
    ensures |r| <= |bs|
    ensures forall k :: 0 <= k < |r| ==> r[k] in bs && r[k].customerEmail == email
  {
    Seqs.Filter(bs, (b: Booking) => b.customerEmail == email)
  }

  // ----- record construction (`{ ...draft, id, status }`) -----

  function NewBooking(d: BookingDraft, id: string): Booking {
    Booking(id, d.propertyId, d.startDate, d.endDate, d.guestCount, Pending,
            d.customerName, d.customerEmail, d.customerPhone)
  }

  function NewProperty(d: PropertyDraft, id: string): Property {
    Property(id, d.title, d.description, d.price, d.location, d.images, d.rating, d.maxGuests, d.amenities)
  }

  function NewUser(d: UserDraft, id: string): User {
    User(id, d.name, d.email, d.passwordHash, d.role, d.phone)
  }

  /** `{ ...user, ...updates }` with the update's id dropped. */
  function Merge(u: User, up: UserUpdate): (r: User)
    ensures r.id == u.id
    ensures up.name.Some? ==> r.name == up.name.value
    ensures up.name.None? ==> r.name == u.name
    ensures up.email.Some? ==> r.email == up.email.value
    ensures up.email.None? ==> r.email == u.email
    ensures up.passwordHash.Some? ==> r.passwordHash == up.passwordHash.value
    ensures up.passwordHash.None? ==> r.passwordHash == u.passwordHash
    ensures up.role.Some? ==> r.role == up.role.value
    ensures up.role.None? ==> r.role == u.role
    ensures up.phone.Some? ==> r.phone == up.phone
    ensures up.phone.None? ==> r.phone == u.phone
  {
    User(u.id,
         up.name.GetOr(u.name),
         up.email.GetOr(u.email),
         up.passwordHash.GetOr(u.passwordHash),
         up.role.GetOr(u.role),
         if up.phone.Some? then up.phone else u.phone)
  }

  // ----- the confirmation gate and the invariant it protects -----

  /**
   * The predicate handed to `some` when a booking is confirmed: another
   * booking (by id) of the same property, already confirmed, whose closed
   * interval overlaps the target's.
   */
  predicate ConflictsWithConfirmed(bs: seq<Booking>, target: Booking)
    ensures ConflictsWithConfirmed(bs, target) <==>
              exists k :: 0 <= k < |bs| && bs[k].id != target.id && DoubleBooked(bs[k], target.(status := Confirmed))
  {
    exists b :: b in bs && b.id != target.id && b.propertyId == target.propertyId &&
                b.status == Confirmed &&
                Overlaps(target.startDate, target.endDate, b.startDate, b.endDate)
  }

  /** Two confirmed bookings of one property whose intervals overlap. */
  predicate DoubleBooked(a: Booking, b: Booking) {
    a.propertyId == b.propertyId && a.status == Confirmed && b.status == Confirmed &&
    Overlaps(a.startDate, a.endDate, b.startDate, b.endDate)
  }

  /** No two confirmed bookings of one property overlap. */
  predicate NoDoubleBooking(bs: seq<Booking>) {
    forall i, j :: 0 <= i < j < |bs| ==> !DoubleBooked(bs[i], bs[j])
  }

  /** What every store operation keeps: unique ids in each list and no double booking. */
  predicate LedgerInvariant(ps: seq<Property>, bs: seq<Booking>, us: seq<User>) {
    Seqs.Distinct(ps, PropertyId) && Seqs.Distinct(bs, BookingId) &&
    Seqs.Distinct(us, UserId) && NoDoubleBooking(bs)
  }

  /** The bookings after `data.bookings[i].status = st`. */
  function WithStatus(bs: seq<Booking>, i: nat, st: Status): seq<Booking>
    requires i < |bs|
  {
    bs[i := bs[i].(status := st)]
  }

  /**
   * What `updateBookingStatus(id, st)` does to the bookings: nothing for an
   * unknown id, a conflict error when confirming would clash, otherwise the
   * status of the first booking with that id becomes `st`.
   */
  function StatusChange(bs: seq<Booking>, id: string, st: Status): (r: Result<seq<Booking>, LedgerError>)
    ensures r.Failure? ==> r.error == BookingConflict && st == Confirmed
    ensures r.Success? ==> |r.value| == |bs| && forall k :: 0 <= k < |bs| ==> r.value[k].id == bs[k].id
  {
    var i := BookingIndex(bs, id);
    if i == -1 then Success(bs)
    else if st == Confirmed && ConflictsWithConfirmed(bs, bs[i]) then Failure(BookingConflict)
    else Success(WithStatus(bs, i, st))
  }

  /** Appending a pending booking with a fresh id keeps ids unique and creates no double booking. */
  lemma AppendPendingKeepsInvariant(bs: seq<Booking>, b: Booking)
    requires Seqs.Distinct(bs, BookingId) && NoDoubleBooking(bs)
    requires b.status == Pending
    requires forall x :: x in bs ==> x.id != b.id
    ensures Seqs.Distinct(bs + [b], BookingId) && NoDoubleBooking(bs + [b])
  {
    var r := bs + [b];
    forall i, j | 0 <= i < j < |r| ensures r[i].id != r[j].id && !DoubleBooked(r[i], r[j]) {
      if j == |bs| {
        assert r[i] in bs;
      }
    }
  }

  /**
   * The gate is exact: confirming booking i leaves no double booking if and
   * only if no other confirmed booking of its property overlaps it. So the
   * gate refuses exactly the confirmations that would break the invariant.
   */
  lemma {:induction false} ConfirmGateIsExact(bs: seq<Booking>, i: nat)
    requires Seqs.Distinct(bs, BookingId) && NoDoubleBooking(bs)
    requires i < |bs|
    ensures NoDoubleBooking(WithStatus(bs, i, Confirmed)) <==> !ConflictsWithConfirmed(bs, bs[i])
  {
    var r := WithStatus(bs, i, Confirmed);
    if ConflictsWithConfirmed(bs, bs[i]) {
      var b :| b in bs && b.id != bs[i].id && b.propertyId == bs[i].propertyId &&
               b.status == Confirmed &&
               Overlaps(bs[i].startDate, bs[i].endDate, b.startDate, b.endDate);
      var k :| 0 <= k < |bs| && bs[k] == b;
      assert k != i;
      if k < i {
        assert DoubleBooked(r[k], r[i]);
      } else {
        assert DoubleBooked(r[i], r[k]);
      }
    } else {
      forall j, k | 0 <= j < k < |r| ensures !DoubleBooked(r[j], r[k]) {
        if j == i {
          assert bs[k] in bs && bs[k].id != bs[i].id;
        } else if k == i {
          assert bs[j] in bs && bs[j].id != bs[i].id;
        } else {
          assert !DoubleBooked(bs[j], bs[k]);
        }
      }
    }
  }

  /** Setting a status other than confirmed can never create a double booking. */
  lemma DemotionKeepsNoDoubleBooking(bs: seq<Booking>, i: nat, st: Status)
    requires NoDoubleBooking(bs)
    requires i < |bs| && st != Confirmed
    ensures NoDoubleBooking(WithStatus(bs, i, st))
  {
    var r := WithStatus(bs, i, st);
    forall j, k | 0 <= j < k < |r| ensures !DoubleBooked(r[j], r[k]) {
      if j != i && k != i {
        assert !DoubleBooked(bs[j], bs[k]);
      }
    }
  }

  /** Every successful status change keeps unique ids and no double booking. */
  lemma StatusChangeKeepsInvariant(bs: seq<Booking>, id: string, st: Status)
    requires Seqs.Distinct(bs, BookingId) && NoDoubleBooking(bs)
    ensures StatusChange(bs, id, st).Success? ==>
              Seqs.Distinct(StatusChange(bs, id, st).value, BookingId) &&
              NoDoubleBooking(StatusChange(bs, id, st).value)
  {
    var i := BookingIndex(bs, id);
    if i != -1 {
      var r := WithStatus(bs, i, st);
      assert forall k :: 0 <= k < |r| ==> r[k].id == bs[k].id;
      if st == Confirmed {
        ConfirmGateIsExact(bs, i);
      } else {
        DemotionKeepsNoDoubleBooking(bs, i, st);
      }
    }
  }

  /**
   * The only failure of a status change is a conflict on confirmation:
   * setting pending or rejected always succeeds, and confirming fails exactly
   * when the booking with that id overlaps another confirmed booking of its
   * property.
   */
  lemma StatusChangeFailsOnlyOnConflict(bs: seq<Booking>, id: string, st: Status)
    requires Seqs.Distinct(bs, BookingId)
    ensures StatusChange(bs, id, st).Failure? ==> StatusChange(bs, id, st).error == BookingConflict
    ensures StatusChange(bs, id, st).Failure? <==>
              st == Confirmed &&
              exists k :: 0 <= k < |bs| && bs[k].id == id && ConflictsWithConfirmed(bs, bs[k])
  {
    var i := BookingIndex(bs, id);
    if i != -1 {
      assert forall k :: 0 <= k < |bs| && bs[k].id == id ==> k == i;
    }
  }

  /**
   * A successful status change alters only the `status` field of the
   * booking with that id; an unknown id changes nothing.
   */
  lemma StatusChangeTouchesOnlyStatus(bs: seq<Booking>, id: string, st: Status)
    requires Seqs.Distinct(bs, BookingId)
    ensures (forall b :: b in bs ==> b.id != id) ==> StatusChange(bs, id, st) == Success(bs)
    ensures StatusChange(bs, id, st).Success? ==>
              var r := StatusChange(bs, id, st).value;
              |r| == |bs| &&
              forall k :: 0 <= k < |bs| ==> r[k] == if bs[k].id == id then bs[k].(status := st) else bs[k]
  {
    var i := BookingIndex(bs, id);
    if i != -1 {
      assert forall k :: 0 <= k < |bs| && bs[k].id == id ==> k == i;
    }
  }

  /**
   * With no double booking, a property has at most one confirmed booking on
   * any calendar day.
   */
  lemma AtMostOneConfirmedPerDay(bs: seq<Booking>, i: nat, j: nat, d: Day)
    requires NoDoubleBooking(bs)
    requires i < j < |bs|
    requires bs[i].propertyId == bs[j].propertyId
    requires bs[i].status == Confirmed && bs[j].status == Confirmed
    ensures !(Within(d, bs[i].startDate, bs[i].endDate) && Within(d, bs[j].startDate, bs[j].endDate))
  {
    assert !DoubleBooked(bs[i], bs[j]);
  }

  /**
   * Replacing the property with a known id keeps ids unique; afterwards the
   * list has the same length, the new record at the old index, every other
   * entry unchanged, and no second record with that id.
   */
  lemma ReplacePropertyKeepsIdentity(ps: seq<Property>, p: Property)
    requires Seqs.Distinct(ps, PropertyId)
    requires PropertyIndex(ps, p.id) != -1
    ensures var i := PropertyIndex(ps, p.id);
            var r := ps[i := p];
            |r| == |ps| && Seqs.Distinct(r, PropertyId) &&
            (forall k :: 0 <= k < |r| && k != i ==> r[k] == ps[k]) &&
            (forall k :: 0 <= k < |r| && r[k].id == p.id ==> r[k] == p) &&
            PropertyById(r, p.id) == Some(p)
  {
    var i := PropertyIndex(ps, p.id);
    var r := ps[i := p];
    assert ps[i].id == p.id;
    assert forall k :: 0 <= k < |r| && r[k].id == p.id ==> k == i;
    assert forall k :: 0 <= k < i ==> r[k] == ps[k] && ps[k].id != p.id;
    var j := PropertyIndex(r, p.id);
    assert r[i].id == p.id;
    assert j == i;
  }

  /** `users.filter(u => u.id !== id)`. */
  function WithoutUser(us: seq<User>, id: string): (r: seq<User>)
    ensures |r| <= |us|
    ensures forall k :: 0 <= k < |r| ==> r[k] in us && r[k].id != id
  {
    Seqs.Filter(us, (u: User) => u.id != id)
  }

  /**
   * Deleting keeps exactly the users with other ids, in their order, and
   * removes nothing exactly when no user has the id.
   */
  lemma WithoutUserSpec(us: seq<User>, id: string)
    ensures var r := WithoutUser(us, id);
            Seqs.IsSubsequence(r, us) &&
            (forall k :: 0 <= k < |r| ==> r[k].id != id) &&
            (forall u :: u in us && u.id != id ==> u in r) &&
            (|r| == |us| <==> forall u :: u in us ==> u.id != id)
  {
    Seqs.FilterIsSubsequence(us, (u: User) => u.id != id);
    Seqs.FilterKeepsAll(us, (u: User) => u.id != id);
  }

  /** Filtering keeps unique ids unique. */
  lemma WithoutUserKeepsDistinct(us: seq<User>, id: string)
    requires Seqs.Distinct(us, UserId)
    ensures Seqs.Distinct(WithoutUser(us, id), UserId)
    decreases |us|
  {
    if us != [] {
      WithoutUserKeepsDistinct(us[1..], id);
      var rest := WithoutUser(us[1..], id);
      if us[0].id != id {
        assert WithoutUser(us, id) == [us[0]] + rest;
        forall k | 0 <= k < |rest| ensures rest[k].id != us[0].id {
          assert rest[k] in us[1..];
        }
      }
    }
  }

  /** After a user with an unused email is appended, looking up that email finds exactly that user. */
  lemma UserByEmailAfterAppend(us: seq<User>, u: User)
    requires forall x :: x in us ==> x.email != u.email
    ensures UserByEmail(us + [u], u.email) == Some(u)
  {
    var r := us + [u];
    var i := Seqs.FirstIndex(r, (x: User) => x.email == u.email);
    assert r[|us|] == u;
    assert forall k :: 0 <= k < |us| ==> r[k] in us;
  }

  /**
   * `updateUser` does not re-check email uniqueness: two users with
   * different emails can end up sharing one.
   */
  lemma UpdateUserCanDuplicateEmail()
    ensures var a := User("a1", "Ann", "ann@x.in", "pw", Customer, None);
            var b := User("b2", "Ben", "ben@x.in", "pw", Customer, None);
            var b' := Merge(b, UserUpdate(None, None, Some("ann@x.in"), None, None, None));
            a.email != b.email && b'.id == b.id && a.email == b'.email
  {
  }

  /** The "my bookings" query returns, in stored order, exactly the bookings made under that email. */
  lemma BookingsOfSpec(bs: seq<Booking>, email: string)
    ensures Seqs.IsSubsequence(BookingsOf(bs, email), bs)
    ensures forall b :: b in BookingsOf(bs, email) <==> b in bs && b.customerEmail == email
  {
    Seqs.FilterIsSubsequence(bs, (b: Booking) => b.customerEmail == email);
    var r := BookingsOf(bs, email);
    forall b | b in r ensures b in bs && b.customerEmail == email {
      var k :| 0 <= k < |r| && r[k] == b;
    }
    forall b | b in bs && b.customerEmail == email ensures b in r {
      var k :| 0 <= k < |bs| && bs[k] == b;
    }
  }

  /** The in-memory store; every method is one exported function of lib/data.ts. */
  class Store {
    var properties: seq<Property>
    var bookings: seq<Booking>
    var users: seq<User>

    ghost predicate Valid()
      reads this
    {
      LedgerInvariant(properties, bookings, users)
    }

    /** A store seeded with the given properties and no bookings or users. */
    constructor (seed: seq<Property>)
      requires Seqs.Distinct(seed, PropertyId)
      ensures Valid()
      ensures properties == seed && bookings == [] && users == []
    {
      properties, bookings, users := seed, [], [];
    }

    /** `createBooking`: appends the draft as a pending booking with a fresh id. */
    method CreateBooking(draft: BookingDraft, id: string) returns (b: Booking)
      requires Valid()
      requires forall x :: x in bookings ==> x.id != id
      modifies this
      ensures Valid()
      ensures b == NewBooking(draft, id) && b.status == Pending
      ensures bookings == old(bookings) + [b]
      ensures properties == old(properties) && users == old(users)
    {
      b := NewBooking(draft, id);
      AppendPendingKeepsInvariant(bookings, b);
      bookings := bookings + [b];
    }

    /** `createProperty`: appends the draft with a fresh id. */
    method CreateProperty(draft: PropertyDraft, id: string) returns (p: Property)
      requires Valid()
      requires forall x :: x in properties ==> x.id != id
      modifies this
      ensures Valid()
      ensures p == NewProperty(draft, id)
      ensures properties == old(properties) + [p]
      ensures bookings == old(bookings) && users == old(users)
    {
      p := NewProperty(draft, id);
      ghost var ps := properties;
      properties := properties + [p];
      assert forall k :: 0 <= k < |ps| ==> properties[k] == ps[k] && ps[k] in ps;
    }

    /** `updateProperty`: replaces the record with the same id, or throws "Property not found". */
    method UpdateProperty(property: Property) returns (r: Result<Property, LedgerError>)
      requires Valid()
      modifies this
      ensures Valid()
      ensures var i := PropertyIndex(old(properties), property.id);
              if i == -1 then r == Failure(PropertyNotFound) && properties == old(properties)
              else r == Success(property) && properties == old(properties)[i := property]
      ensures bookings == old(bookings) && users == old(users)
    {
      var index := PropertyIndex(properties, property.id);
      if index == -1 {
        return Failure(PropertyNotFound);
      }
      ReplacePropertyKeepsIdentity(properties, property);
      properties := properties[index := property];
      r := Success(property);
    }

    /**
     * `updateBookingStatus`: an unknown id is a silent no-op; confirming a
     * booking that overlaps another confirmed booking of its property throws
     * and changes nothing; otherwise only that booking's status changes.
     */
    method UpdateBookingStatus(id: string, status: Status) returns (r: Outcome<LedgerError>)
      requires Valid()
      modifies this
      ensures Valid()
      ensures match StatusChange(old(bookings), id, status)
              case Success(bs) => r == Pass && bookings == bs
              case Failure(e) => r == Fail(e) && bookings == old(bookings)
      ensures properties == old(properties) && users == old(users)
    {
      StatusChangeKeepsInvariant(bookings, id, status);
      var index := BookingIndex(bookings, id);
      if index != -1 {
        var bookingToUpdate := bookings[index];
        if status == Confirmed {
          var hasConflict := ConflictsWithConfirmed(bookings, bookingToUpdate);
          if hasConflict {
            return Fail(BookingConflict);
          }
        }
        bookings := bookings[index := bookings[index].(status := status)];
      }
      r := Pass;
    }

    /** `createUser`: throws "User already exists" for a taken email, otherwise appends with a fresh id. */
    method CreateUser(draft: UserDraft, id: string) returns (r: Result<User, LedgerError>)
      requires Valid()
      requires forall x :: x in users ==> x.id != id
      modifies this
      ensures Valid()
      ensures UserByEmail(old(users), draft.email).Some? ==>
                r == Failure(UserAlreadyExists) && users == old(users)
      ensures UserByEmail(old(users), draft.email).None? ==>
                r == Success(NewUser(draft, id)) && users == old(users) + [r.value]
      ensures properties == old(properties) && bookings == old(bookings)
    {
      if UserByEmail(users, draft.email).Some? {
        return Failure(UserAlreadyExists);
      }
      var newUser := NewUser(draft, id);
      ghost var us := users;
      users := users + [newUser];
      assert forall k :: 0 <= k < |us| ==> users[k] == us[k] && us[k] in us;
      r := Success(newUser);
    }

    /** `deleteUser`: keeps the users with other ids, or throws "User not found" when none had it. */
    method DeleteUser(id: string) returns (r: Outcome<LedgerError>)
      requires Valid()
      modifies this
      ensures Valid()
      ensures (forall u :: u in old(users) ==> u.id != id) ==>
                r == Fail(UserNotFound) && users == old(users)
      ensures (exists u :: u in old(users) && u.id == id) ==>
                r == Pass && users == WithoutUser(old(users), id)
      ensures properties == old(properties) && bookings == old(bookings)
    {
      var newUsers := WithoutUser(users, id);
      WithoutUserSpec(users, id);
      if |newUsers| == |users| {
        return Fail(UserNotFound);
      }
      WithoutUserKeepsDistinct(users, id);
      users := newUsers;
      r := Pass;
    }

    /** `updateUserRole`: sets the role of the user with the id, or throws "User not found". */
    method UpdateUserRole(id: string, role: Role) returns (r: Result<User, LedgerError>)
      requires Valid()
      modifies this
      ensures Valid()
      ensures var i := UserIndex(old(users), id);
              if i == -1 then r == Failure(UserNotFound) && users == old(users)
              else r == Success(old(users)[i].(role := role)) && users == old(users)[i := r.value]
      ensures properties == old(properties) && bookings == old(bookings)
    {
      var index := UserIndex(users, id);
      if index == -1 {
        return Failure(UserNotFound);
      }
      ghost var us := users;
      users := users[index := users[index].(role := role)];
      assert forall k :: 0 <= k < |users| ==> users[k].id == us[k].id;
      r := Success(users[index]);
    }

    /**
     * `updateUser`: merges the present fields into the user with the id,
     * never changing its id and not re-checking email uniqueness, or throws
     * "User not found".
     */
    method UpdateUser(id: string, updates: UserUpdate) returns (r: Result<User, LedgerError>)
      requires Valid()
      modifies this
      ensures Valid()
      ensures var i := UserIndex(old(users), id);
              if i == -1 then r == Failure(UserNotFound) && users == old(users)
              else r == Success(Merge(old(users)[i], updates)) && r.value.id == id &&
                   users == old(users)[i := r.value]
      ensures properties == old(properties) && bookings == old(bookings)
    {
      var index := UserIndex(users, id);
      if index == -1 {
        return Failure(UserNotFound);
      }
      ghost var us := users;
      users := users[index := Merge(users[index], updates)];
      assert forall k :: 0 <= k < |users| ==> users[k].id == us[k].id;
      r := Success(users[index]);
    }
  }
}
