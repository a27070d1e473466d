/**
 * The properties collection route (app/api/properties/route.ts): GET lists
 * every property, POST validates and fills defaults before `createProperty`,
 * PUT checks the id and title before `updateProperty`.
 */
module PropertiesApi {
  import opened Wrappers
  import opened Records
  import opened Http
  import Ledger

  /** A JSON body; a field is None when the body does not carry it. Numbers arrive already parsed. */
  datatype PropertyBody = PropertyBody(
    id: Option<string>,
    title: Option<string>,
    description: Option<string>,
    price: Option<real>,
    location: Option<string>,
    images: Option<seq<string>>,
    rating: Option<real>,
    maxGuests: Option<int>,
    amenities: Option<seq<string>>)

  /** Truthiness of a numeric field: absent and zero are falsy. */
  predicate GivenReal(x: Option<real>) {
    x.Some? && x.value != 0.0
  }

  /** `Number(body.maxGuests) || 2`. */
  function GuestsOrTwo(x: Option<int>): (r: int)
    ensures r != 0
    ensures x.Some? && x.value != 0 ==> r == x.value
    ensures x.None? || x.value == 0 ==> r == 2
  {
    if x.Some? && x.value != 0 then x.value else 2
  }

  /** The four fields POST demands. */
  predicate PostHasRequired(body: PropertyBody) {
    Given(body.title) && Given(body.description) && GivenReal(body.price) && Given(body.location)
  }

  /** The record POST hands to `createProperty`, or None for 400 "Missing required fields". */
  function PostDraft(body: PropertyBody): (r: Option<PropertyDraft>)
    ensures r.None? <==> !PostHasRequired(body)
    ensures r.Some? ==> r.value.rating == 0.0 && r.value.maxGuests != 0
    ensures r.Some? && body.maxGuests.Some? && body.maxGuests.value != 0 ==> r.value.maxGuests == body.maxGuests.value
    ensures r.Some? && (body.maxGuests.None? || body.maxGuests.value == 0) ==> r.value.maxGuests == 2
  {
    if !PostHasRequired(body) then None
    else Some(PropertyDraft(
      body.title.value,
      body.description.value,
      body.price.value,
      body.location.value,
      body.images.GetOr([]),
      0.0,
      GuestsOrTwo(body.maxGuests),
      body.amenities.GetOr([])))
  }

  /**
   * POST's rules: a falsy title, description, price (zero included) or
   * location is refused; a created property has rating 0, the given guest
   * count when it is non-zero and two guests when it is absent or zero, and
   * empty image and amenity lists when none are given; the other fields are
   * copied.
   */
  lemma PostDraftRules(body: PropertyBody)
    ensures PostDraft(body).None? <==>
              body.title.None? || body.title.value == "" || body.description.None? || body.description.value == "" ||
              body.price.None? || body.price.value == 0.0 || body.location.None? || body.location.value == ""
    ensures PostDraft(body).Some? ==>
              var d := PostDraft(body).value;
              d.rating == 0.0 && d.maxGuests != 0 &&
              Some(d.title) == body.title && Some(d.description) == body.description &&
              Some(d.price) == body.price && Some(d.location) == body.location &&
              (body.maxGuests.None? || body.maxGuests.value == 0 ==> d.maxGuests == 2) &&
              (body.maxGuests.Some? && body.maxGuests.value != 0 ==> d.maxGuests == body.maxGuests.value) &&
              (body.images.None? ==> d.images == []) && (body.images.Some? ==> d.images == body.images.value) &&
              (body.amenities.None? ==> d.amenities == []) && (body.amenities.Some? ==> d.amenities == body.amenities.value)
  {
  }

  /** The rating a body sets, whatever it says, never survives POST. */
  lemma PostIgnoresRating(body: PropertyBody, rating: Option<real>)
    ensures PostDraft(body.(rating := rating)) == PostDraft(body)
  {
  }

  /**
   * The record PUT hands to `updateProperty`, or None for 400 "Missing
   * required fields". Absent description, location, price and maxGuests
   * stand in as "", "", 0 and 0.
   */
  function PutRecord(body: PropertyBody): (r: Option<Property>)
    ensures r.None? <==> !Given(body.id) || !Given(body.title)
    ensures r.Some? ==> Some(r.value.id) == body.id && Some(r.value.title) == body.title
  {
    if !Given(body.id) || !Given(body.title) then None
    else Some(Property(
      body.id.value,
      body.title.value,
      body.description.GetOr(""),
      body.price.GetOr(0.0),
      body.location.GetOr(""),
      body.images.GetOr([]),
      body.rating.GetOr(0.0),
      body.maxGuests.GetOr(0),
      body.amenities.GetOr([])))
  }

  /**
   * PUT's rules: only a missing id or title is refused; the record keeps the
   * given id and title, takes rating 0 when none is given, and copies every
   * field the body carries.
   */
  lemma PutRecordRules(body: PropertyBody)
    ensures PutRecord(body).None? <==> !Given(body.id) || !Given(body.title)
    ensures PutRecord(body).Some? ==>
              var p := PutRecord(body).value;
              Some(p.id) == body.id && Some(p.title) == body.title &&
              (body.rating.None? ==> p.rating == 0.0) && (body.rating.Some? ==> p.rating == body.rating.value) &&
              (body.description.Some? ==> p.description == body.description.value) &&
              (body.location.Some? ==> p.location == body.location.value) &&
              (body.price.Some? ==> p.price == body.price.value) &&
              (body.maxGuests.Some? ==> p.maxGuests == body.maxGuests.value) &&
              (body.images.Some? ==> p.images == body.images.value) &&
              (body.amenities.Some? ==> p.amenities == body.amenities.value)
  {
  }

  /** A property sent back in full is accepted unchanged. */
  lemma PutOfFullRecord(p: Property)
    requires p.id != "" && p.title != ""
    ensures PutRecord(PropertyBody(Some(p.id), Some(p.title), Some(p.description), Some(p.price), Some(p.location),
                                   Some(p.images), Some(p.rating), Some(p.maxGuests), Some(p.amenities))) == Some(p)
  {
  }

  /** GET: every property, unfiltered and in stored order. */
  method Get(store: Ledger.Store) returns (reply: Reply<seq<Property>>)
    ensures reply == Ok(200, store.properties)
  {
    reply := Ok(200, store.properties);
  }

  /** POST: 400 and no change, or 201 with the new property appended. */
  method Post(store: Ledger.Store, body: PropertyBody, freshId: string) returns (reply: Reply<Property>)
    requires store.Valid()
    requires forall x :: x in store.properties ==> x.id != freshId
    modifies store
    ensures store.Valid()
    ensures PostDraft(body).None? ==>
              reply == Error(400, "Missing required fields") && store.properties == old(store.properties)
    ensures PostDraft(body).Some? ==>
              var p := Ledger.NewProperty(PostDraft(body).value, freshId);
              reply == Ok(201, p) && store.properties == old(store.properties) + [p]
    ensures store.bookings == old(store.bookings) && store.users == old(store.users)
  {
    var draft := PostDraft(body);
    if draft.None? {
      return Error(400, "Missing required fields");
    }
    var property := store.CreateProperty(draft.value, freshId);
    reply := Ok(201, property);
  }

  /**
   * PUT: 400 and no change; 500 "Failed to update property" and no change
   * when the ledger does not know the id; otherwise 200 with the record,
   * which replaces the stored one in place.
   */
  method Put(store: Ledger.Store, body: PropertyBody) returns (reply: Reply<Property>)
    requires store.Valid()
    modifies store
    ensures store.Valid()
    ensures PutRecord(body).None? ==>
              reply == Error(400, "Missing required fields") && store.properties == old(store.properties)
    ensures PutRecord(body).Some? ==>
              var p := PutRecord(body).value;
              var i := Ledger.PropertyIndex(old(store.properties), p.id);
              if i == -1 then
                reply == Error(500, "Failed to update property") && store.properties == old(store.properties)
              else
                reply == Ok(200, p) && store.properties == old(store.properties)[i := p]
    ensures store.bookings == old(store.bookings) && store.users == old(store.users)
  {
    var record := PutRecord(body);
    if record.None? {
      return Error(400, "Missing required fields");
    }
    var r := store.UpdateProperty(record.value);
    if r.Failure? {
      return Error(500, "Failed to update property");
    }
    reply := Ok(200, r.value);
  }
}
