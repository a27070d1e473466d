/**
 * The admin property editor (components/admin/property-form.tsx): the
 * gallery list with its fifteen-image cap, removal by index, moving an
 * image to the cover slot, the comma-separated amenity field, and the
 * record the form submits.
 */
module PropertyForm {
  import opened Wrappers
  import opened Records
  import Text
  import Seqs
  import PropertiesApi

  const MaxImages := 15
  const TooManyImages := "Maximum 15 images allowed."
  const UploadFailed := "Upload failed."
  const UploadErrorMessage := "Upload error."

  /** The image list and the text of the "paste image URL" box. */
  datatype Gallery = Gallery(images: seq<string>, url: string)

  /** A gallery state after a handler, with the alert it raised, if any. */
  datatype Step = Step(gallery: Gallery, alert: Option<string>)

  /** `handleAddImage`. */
  function AddImage(g: Gallery): (r: Step)
    ensures g.url == "" ==> r == Step(g, None)
    ensures g.url != "" && |g.images| >= MaxImages ==> r == Step(g, Some(TooManyImages))
    ensures g.url != "" && |g.images| < MaxImages ==>
              r.alert.None? && r.gallery.images == g.images + [g.url] && r.gallery.url == ""
  {
    if g.url == "" then Step(g, None)
    else if |g.images| >= MaxImages then Step(g, Some(TooManyImages))
    else Step(Gallery(g.images + [g.url], ""), None)
  }

  /** What the upload request came back with. */
  datatype UploadReply = Uploaded(url: string) | Refused | Unreachable

  /**
   * The file input's change handler: no file changes nothing; a full gallery
   * raises the cap alert before anything is sent; otherwise the returned URL
   * is appended, or an alert reports the failure.
   */
  function UploadImage(g: Gallery, hasFile: bool, reply: UploadReply): (r: Step)
    ensures !hasFile ==> r == Step(g, None)
    ensures hasFile && |g.images| >= MaxImages ==> r == Step(g, Some(TooManyImages))
    ensures hasFile && |g.images| < MaxImages ==>
              match reply
              case Uploaded(url) => r == Step(g.(images := g.images + [url]), None)
              case Refused => r == Step(g, Some(UploadFailed))
              case Unreachable => r == Step(g, Some(UploadErrorMessage))
  {
    if !hasFile then Step(g, None)
    else if |g.images| >= MaxImages then Step(g, Some(TooManyImages))
    else match reply
      case Uploaded(url) => Step(g.(images := g.images + [url]), None)
      case Refused => Step(g, Some(UploadFailed))
      case Unreachable => Step(g, Some(UploadErrorMessage))
  }

  /** Neither way of adding an image takes a gallery of at most fifteen images past fifteen. */
  lemma AddingKeepsCap(g: Gallery, hasFile: bool, reply: UploadReply)
    requires |g.images| <= MaxImages
    ensures |AddImage(g).gallery.images| <= MaxImages
    ensures |UploadImage(g, hasFile, reply).gallery.images| <= MaxImages
    ensures |g.images| == MaxImages ==>
              AddImage(g).gallery.images == g.images && UploadImage(g, hasFile, reply).gallery.images == g.images
  {
  }

  /** `images.filter((_, i) => i !== index)`: the list without position `index`. */
  function RemoveAt(s: seq<string>, index: int): (r: seq<string>)
    ensures 0 <= index < |s| ==> |r| == |s| - 1
    ensures !(0 <= index < |s|) ==> r == s
  {
    if 0 <= index < |s| then s[..index] + s[index + 1..] else s
  }

  /**
   * Removing position `index` deletes exactly that element: the ones before
   * it stay in place, the ones after it move up by one, and the multiset
   * loses one copy of the removed element.
   */
  lemma RemoveAtSpec(s: seq<string>, index: nat)
    requires index < |s|
    ensures forall k :: 0 <= k < index ==> RemoveAt(s, index)[k] == s[k]
    ensures forall k :: index <= k < |s| - 1 ==> RemoveAt(s, index)[k] == s[k + 1]
    ensures multiset(RemoveAt(s, index)) + multiset{s[index]} == multiset(s)
  {
    assert s == s[..index] + [s[index]] + s[index + 1..];
  }

  /**
   * The list with element `i` in front is described position by position:
   * the element first, then the ones before `i` one place later, then the
   * ones after `i` where they were.
   */
  lemma CoverShape(images: seq<string>, i: nat, r: seq<string>)
    requires i < |images| && |r| == |images|
    requires r[0] == images[i]
    requires forall k :: 1 <= k <= i ==> r[k] == images[k - 1]
    requires forall k :: i < k < |r| ==> r[k] == images[k]
    ensures r == [images[i]] + RemoveAt(images, i)
    ensures multiset(r) == multiset(images)
  {
    var rest := RemoveAt(images, i);
    RemoveAtSpec(images, i);
    assert r[1..] == rest by {
      forall k | 0 <= k < |rest|
        ensures r[1..][k] == rest[k]
      {
        if k < i {
          assert rest[k] == images[k];
        } else {
          assert rest[k] == images[k + 1];
        }
      }
    }
    assert r == [r[0]] + r[1..];
  }

  /**
   * The "Set Cover" button: a copy of the list, from which `splice` takes
   * the element at `i` and `unshift` puts it back in front. Together they
   * shift the elements before `i` one place towards the end.
   */
  method SetCover(images: seq<string>, i: nat) returns (r: seq<string>)
    requires i < |images|
    ensures r == [images[i]] + RemoveAt(images, i)
    ensures |r| == |images| && r[0] == images[i]
    ensures multiset(r) == multiset(images)
  {
    var a := new string[|images|](k requires 0 <= k < |images| => images[k]);
    var selected := a[i];
    var j := i;
    while j > 0
      invariant 0 <= j <= i
      invariant forall k :: 0 <= k <= j ==> a[k] == images[k]
      invariant forall k :: j < k <= i ==> a[k] == images[k - 1]
      invariant forall k :: i < k < a.Length ==> a[k] == images[k]
    {
      a[j] := a[j - 1];
      j := j - 1;
    }
    a[0] := selected;
    r := a[..];
    CoverShape(images, i, r);
  }

  predicate NonEmpty(s: string) {
    s != []
  }

  /** An amenity as the form can carry it through a save: non-empty, trimmed, without a comma. */
  predicate Amenity(s: string) {
    s != [] && Text.Trimmed(s) && ',' !in s
  }

  /** `.map(s => s.trim()).filter(s => s.length > 0)`: the trimmed pieces that are not empty. */
  function Clean(pieces: seq<string>): (r: seq<string>)
    ensures (forall k :: 0 <= k < |pieces| ==> ',' !in pieces[k]) ==> forall k :: 0 <= k < |r| ==> Amenity(r[k])
  {
    var trimmed := Seqs.Map(pieces, Text.Trim);
    assert forall k :: 0 <= k < |pieces| && ',' !in pieces[k] ==> ',' !in trimmed[k];
    Seqs.Filter(trimmed, NonEmpty)
  }

  lemma CleanCons(h: string, t: seq<string>)
    ensures Clean([h] + t) == (if Text.Trim(h) != [] then [Text.Trim(h)] else []) + Clean(t)
  {
    Seqs.MapCons(h, t, Text.Trim);
    Seqs.FilterCons(Text.Trim(h), Seqs.Map(t, Text.Trim), NonEmpty);
  }

  /** The amenities field: split at commas, trim each piece, drop the empty ones. */
  function ParseAmenities(text: string): (r: seq<string>)
    ensures forall k :: 0 <= k < |r| ==> Amenity(r[k])
  {
    Clean(Text.Split(text, ','))
  }

  /** The prefilled amenities text: the list joined with ", ". */
  function AmenitiesText(amenities: seq<string>): string {
    Text.Join(amenities, ", ")
  }

  /** White space alone parses to no amenities. */
  lemma ParseSpace(lead: string)
    requires Text.AllSpace(lead)
    ensures Clean(Text.Split(lead, ',')) == []
  {
    assert !Text.IsSpace(',');
    Text.SplitWithoutSeparator(lead, ',');
    Text.TrimOfSpace(lead);
    CleanCons(lead, []);
  }

  /** White space and one amenity parse to that amenity. */
  lemma ParseOne(lead: string, x: string)
    requires Text.AllSpace(lead) && Amenity(x)
    ensures Clean(Text.Split(lead + x, ',')) == [x]
  {
    assert !Text.IsSpace(',');
    Text.SplitWithoutSeparator(lead + x, ',');
    Text.TrimOfPadded(lead, x);
    CleanCons(lead + x, []);
  }

  /** White space and an amenity before a comma parse to that amenity followed by what the rest parses to. */
  lemma ParseFirst(lead: string, x: string, rest: string)
    requires Text.AllSpace(lead) && Amenity(x)
    ensures Clean(Text.Split(lead + x + [','] + rest, ',')) == [x] + Clean(Text.Split(rest, ','))
  {
    assert !Text.IsSpace(',');
    Text.SplitOfJoined(lead + x, ',', rest);
    Text.TrimOfPadded(lead, x);
    CleanCons(lead + x, Text.Split(rest, ','));
  }

  /** The joined text of two or more amenities is the first, a comma, and a space before the joined rest. */
  lemma JoinFirst(lead: string, xs: seq<string>)
    requires |xs| >= 2
    ensures lead + AmenitiesText(xs) == lead + xs[0] + [','] + (" " + AmenitiesText(xs[1..]))
  {
    var tail := AmenitiesText(xs[1..]);
    assert AmenitiesText(xs) == xs[0] + ", " + tail;
    assert lead + (xs[0] + ", " + tail) == lead + xs[0] + [','] + (" " + tail);
  }

  /** Parsing white space followed by a joined list of amenities gives back the list. */
  lemma {:induction false} ParsePadded(lead: string, xs: seq<string>)
    requires Text.AllSpace(lead)
    requires forall k :: 0 <= k < |xs| ==> Amenity(xs[k])
    ensures Clean(Text.Split(lead + AmenitiesText(xs), ',')) == xs
    decreases |xs|
  {
    if xs == [] {
      assert lead + AmenitiesText(xs) == lead;
      ParseSpace(lead);
    } else if |xs| == 1 {
      assert lead + AmenitiesText(xs) == lead + xs[0];
      ParseOne(lead, xs[0]);
    } else {
      var rest := xs[1..];
      JoinFirst(lead, xs);
      assert Amenity(xs[0]);
      ParseFirst(lead, xs[0], " " + AmenitiesText(rest));
      assert Text.AllSpace(" ");
      ParsePadded(" ", rest);
      assert xs == [xs[0]] + rest;
    }
  }

  /**
   * The field prefilled from a property's amenities parses back to the same
   * list, so saving an edit without touching the field keeps them.
   */
  lemma AmenitiesRoundTrip(xs: seq<string>)
    requires forall k :: 0 <= k < |xs| ==> Amenity(xs[k])
    ensures ParseAmenities(AmenitiesText(xs)) == xs
  {
    assert "" + AmenitiesText(xs) == AmenitiesText(xs);
    ParsePadded("", xs);
  }

  /** Parsing is a normal form: parsing the joined result again changes nothing. */
  lemma ParseIsIdempotent(text: string)
    ensures ParseAmenities(AmenitiesText(ParseAmenities(text))) == ParseAmenities(text)
  {
    AmenitiesRoundTrip(ParseAmenities(text));
  }

  /** The native form inputs, with the numbers as `Number` reads them. */
  datatype Inputs = Inputs(
    title: string,
    description: string,
    location: string,
    price: real,
    maxGuests: int,
    amenities: string)

  /** The inputs' default values when editing a property. */
  function Prefill(p: Property): (r: Inputs)
    ensures r.title == p.title && r.description == p.description && r.location == p.location
    ensures r.price == p.price && r.maxGuests == p.maxGuests
    ensures r.amenities == AmenitiesText(p.amenities)
  {
    Inputs(p.title, p.description, p.location, p.price, p.maxGuests, AmenitiesText(p.amenities))
  }

  /**
   * The record `handleSubmit` hands to `onSubmit`: the inputs, the gallery's
   * images and the parsed amenities, plus the edited property's id and
   * rating when editing.
   */
  function Submission(initial: Option<Property>, inputs: Inputs, images: seq<string>): (r: PropertiesApi.PropertyBody)
    ensures r.title == Some(inputs.title) && r.description == Some(inputs.description)
    ensures r.location == Some(inputs.location) && r.price == Some(inputs.price)
    ensures r.maxGuests == Some(inputs.maxGuests) && r.images == Some(images)
    ensures r.amenities == Some(ParseAmenities(inputs.amenities))
    ensures forall k :: 0 <= k < |r.amenities.value| ==> Amenity(r.amenities.value[k])
    ensures initial.None? ==> r.id.None? && r.rating.None?
    ensures initial.Some? ==> r.id == Some(initial.value.id) && r.rating == Some(initial.value.rating)
  {
    PropertiesApi.PropertyBody(
      if initial.Some? then Some(initial.value.id) else None,
      Some(inputs.title),
      Some(inputs.description),
      Some(inputs.price),
      Some(inputs.location),
      Some(images),
      if initial.Some? then Some(initial.value.rating) else None,
      Some(inputs.maxGuests),
      Some(ParseAmenities(inputs.amenities)))
  }

  /**
   * Opening a property in the editor and saving it untouched sends a PUT
   * whose record is the property itself, provided its amenities are in the
   * form the editor produces.
   */
  lemma UntouchedEditSavesSameProperty(p: Property)
    requires p.id != "" && p.title != ""
    requires forall k :: 0 <= k < |p.amenities| ==> Amenity(p.amenities[k])
    ensures PropertiesApi.PutRecord(Submission(Some(p), Prefill(p), p.images)) == Some(p)
  {
    AmenitiesRoundTrip(p.amenities);
  }
}
