# Property booking ledger — a Dafny model

This project models the decision logic of a small property-rental website.

**The ledger.** At its centre is the booking ledger of `lib/data.ts`. It holds three lists:
- properties;
- bookings, each for a closed interval of calendar days, with status pending, confirmed or rejected;
- users.

The ledger also holds the confirmation gate, which refuses to confirm a booking that overlaps another confirmed booking of the same property. The ledger is the class `Ledger.Store`. Every exported operation of `lib/data.ts` that changes the store is one of its methods. The read-only getters are module functions over the lists (`Ledger.PropertyById`, `Ledger.UserByEmail`, `Ledger.BookingsOf`), and `Get` methods of the route modules return the lists. Each method states its whole new state and keeps the class invariant: ids are unique in every list, and no two confirmed bookings of one property overlap.

**What surrounds the ledger** is modelled as functions from a request or a state to an answer:
- the request validation and defaulting of the HTTP routes (bookings, properties, register, login, users, upload);
- the search filter of the listings page;
- the client-side range check of the booking form;
- the admin property editor: its gallery list, the cover move and amenity parsing;
- the admin user editor's payload rule;
- the middleware's redirect table;
- the image viewer's wrap-around index.

Three of these are imperative in the source, and the model keeps that form:
- the booking form is a class;
- the image viewer is a class;
- the cover move works on an array in place.

**Conventions:**
- Dates are integer day numbers.
- Fresh ids and the upload timestamp are parameters.
- JWT verification is a parameter of type `string -> Option<Role>`: it gives the role a token carries, or `None` when verification fails.
- A JavaScript falsy string is an absent or empty one (`Http.Given`).
- The middleware runs only on paths matching `/admin/:path*` and `/dashboard/:path*` (`middleware.ts:47-49`). `Middleware.Decide` also lets every other path through, so the two agree.
- The update mapping of the user edit route, lines 41-46 of `app/api/users/[id]/route.ts`, is `UsersApi.PatchUpdate`. It is stated through `UsersApi.EditKeepsPasswordUnlessTyped`.

Where the documentation comments of the repository and the code disagree, the model follows the code:
- The availability filter of the listings page hides a property for every booking that is not rejected, pending ones included. The comment at `app/properties/page.tsx:38` speaks of confirmed bookings only.
- `updateBookingStatus` with an unknown id changes nothing and reports no error.
- The property page renders the booking form without blocked ranges (`app/properties/[id]/page.tsx:96`). The model takes the blocked ranges as a parameter, and the shipped page always passes none.

## Model

| member | source | states |
|---|---|---|
| Records.OverlapsIffSharedDay | lib/data.ts:193 | For non-empty closed intervals, the overlap test `startA <= endB && endA >= startB` holds exactly when some day lies in both. A shared boundary day counts; adjacent intervals do not. |
| Ledger.PropertyIndex | lib/data.ts:164 | `findIndex` gives -1 exactly when no property has the id; otherwise it gives the first index with that id. |
| Ledger.PropertyById | lib/data.ts:120-123 | `getProperty` gives a stored property with the id, or nothing exactly when no property has it. |
| Ledger.UserByEmail | lib/data.ts:206-210 | `getUserByEmail` gives the FIRST stored user with the email: no earlier user has it. It gives nothing exactly when no user has the email. |
| Ledger.Merge | lib/data.ts:274-276 | `{ ...user, ...updates }` without the update's id: the id is kept, a present field overrides, and an absent one keeps the stored value. |
| Ledger.ConflictsWithConfirmed | lib/data.ts:183-194 | The gate's `some` holds exactly when another booking (by id) of the list and the target, taken as confirmed, form a double booking. |
| Ledger.StatusChange | lib/data.ts:178-203 | The only error is a conflict when confirming. A success keeps the length and every id in place. |
| Ledger.BookingsOfSpec | app/dashboard/page.tsx:35 | "My bookings" are, in stored order, exactly the stored bookings whose customer email is the caller's. |
| Ledger.BookingsOf | app/dashboard/page.tsx:35 | Every booking listed is a stored one made under the caller's email. |
| Ledger.AppendPendingKeepsInvariant | lib/data.ts:135-141 | Appending a pending booking with a fresh id keeps ids unique and creates no double booking. |
| Ledger.ConfirmGateIsExact | lib/data.ts:182-201 | Confirming booking i leaves no two overlapping confirmed bookings of one property, if and only if the gate's `some` finds no conflict. So the gate refuses exactly the confirmations that would break the invariant. |
| Ledger.DemotionKeepsNoDoubleBooking | lib/data.ts:201 | Setting a status other than confirmed never creates a double booking. |
| Ledger.StatusChangeKeepsInvariant | lib/data.ts:178-203 | Every successful status change keeps ids unique and leaves no double booking. |
| Ledger.StatusChangeFailsOnlyOnConflict | lib/data.ts:182-198 | The only failure is the conflict error. It happens exactly when confirming a booking that overlaps another confirmed booking (by id) of its property. Pending and rejected always succeed. |
| Ledger.StatusChangeTouchesOnlyStatus | lib/data.ts:178-203 | An unknown id changes nothing. A successful change alters only the `status` field of the booking with that id and keeps every other booking. |
| Ledger.AtMostOneConfirmedPerDay | lib/data.ts:182-201 | Under the invariant, no calendar day lies in two confirmed bookings of one property. |
| Ledger.ReplacePropertyKeepsIdentity | lib/data.ts:164-169 | Replacing the property with a known id keeps the length, every other entry and unique ids. Afterwards the id finds the new record. |
| Ledger.WithoutUserSpec | lib/data.ts:241-242 | The filter keeps, in order, exactly the users with other ids. It drops nothing exactly when no user has the id. |
| Ledger.WithoutUser | lib/data.ts:241 | The filtered list is no longer than the old one, and every user in it is a stored one with another id. |
| Ledger.WithoutUserKeepsDistinct | lib/data.ts:241-246 | Deleting keeps user ids unique. |
| Ledger.UserByEmailAfterAppend | lib/data.ts:209-225 | After a user with an unused email is appended, looking up that email finds exactly that user. |
| Ledger.UpdateUserCanDuplicateEmail | lib/data.ts:274-276 | `updateUser` keeps the id but does not re-check emails: two users can end up sharing one. |
| Ledger.Store.constructor | lib/data.ts:94-112 | An empty booking and user list with seeded properties satisfies the invariant. |
| Ledger.Store.CreateBooking | lib/data.ts:131-144 | Appends exactly one booking, pending, with the fresh id; all earlier bookings and the other lists are unchanged; the invariant is kept. |
| Ledger.Store.CreateProperty | lib/data.ts:146-158 | Appends the draft with the fresh id; the other lists are unchanged; property ids stay unique. |
| Ledger.Store.UpdateProperty | lib/data.ts:160-172 | "Property not found" and no change for an unknown id; otherwise the record replaces the one at the same index. |
| Ledger.Store.UpdateBookingStatus | lib/data.ts:174-204 | The new bookings are those of the status-change function. A conflict throws and leaves the store unchanged. An unknown id is a silent no-op. The invariant is kept. |
| Ledger.Store.CreateUser | lib/data.ts:212-228 | "User already exists" and no change for a taken email; otherwise appends the user with the fresh id. |
| Ledger.Store.DeleteUser | lib/data.ts:236-248 | "User not found" and no change when no user has the id; otherwise exactly the users with other ids remain, in order. |
| Ledger.Store.UpdateUserRole | lib/data.ts:250-262 | "User not found" for an unknown id; otherwise only that user's role changes and the updated user is returned. |
| Ledger.Store.UpdateUser | lib/data.ts:264-279 | "User not found" for an unknown id; otherwise the present fields are merged into that user, whose id never changes. |
| AdminBlock.AsWrittenBlockIsRefused | app/admin/page.tsx:83-90 | The block body as written carries no phone, so the bookings route refuses every block. |
| AdminBlock.BlockDatesAsWritten | app/admin/page.tsx:80-97 | As written, a block adds no booking and confirms nothing. |
| AdminBlock.BlockRequestIsAccepted | app/admin/page.tsx:83-90 | With a placeholder phone, a block for a chosen property with a non-empty reason is accepted as a zero-guest booking of exactly the chosen days. |
| AdminBlock.ConflictIgnoresOwnEntry | lib/data.ts:184 | The gate's exclusion of the booking's own id makes a newly appended booking conflict exactly as it would without being stored. |
| AdminBlock.BlockDates | app/admin/page.tsx:72-97 | With the corrected body, a block is created and then confirmed through the ordinary gate. It ends confirmed when no confirmed booking of the property overlaps it, and otherwise stays pending. A missing property or reason changes nothing. |
| PropertySearch.Keep | app/properties/page.tsx:22-54 | A property passing the filter has room for the requested guests, and, when both dates are given, no non-rejected booking of it overlaps them. |
| PropertySearch.KeepIsAllThreeTests | app/properties/page.tsx:22-54 | A property passes the filter exactly when it passes the location test (empty query, or a case-folded match in location or title), the guest test and, with both dates, the availability test. |
| PropertySearch.Search | app/properties/page.tsx:22-54 | Every listed property is stored and passes the filter, and every stored property passing it is listed. |
| PropertySearch.SearchIsOrderedSelection | app/properties/page.tsx:22-54 | The result is a subsequence of all properties, in stored order, and holds exactly the properties that pass every test. |
| PropertySearch.NoFiltersListsAll | app/properties/page.tsx:22-54 | With no location, no guest count and not both dates, every property is listed. |
| PropertySearch.LocationTest | app/properties/page.tsx:24-26 | With a location, a property passes exactly when the lower-cased query occurs in its lower-cased location or title. |
| PropertySearch.TooSmallIsExcluded | app/properties/page.tsx:29-31 | A property whose capacity is below the requested guests is excluded. |
| PropertySearch.AvailabilityTest | app/properties/page.tsx:34-51 | The availability test applies only when both dates are given. Then a property is excluded exactly when some non-rejected booking of it overlaps the range as closed intervals. |
| PropertySearch.PendingBookingHides | app/properties/page.tsx:39-48 | A pending booking on the searched days hides the property. |
| BookingForm.Form.constructor | components/booking-form.tsx:23-33 | The form starts with no dates, one guest, no meals, empty text fields and no message. |
| BookingForm.IsDateBlocked | components/booking-form.tsx:35-39 | No day is blocked without ranges, and a blocked day lies in a non-empty range. |
| BookingForm.RangeHitsBlocked | components/booking-form.tsx:51-59 | The day-by-day walk reports a hit exactly when some day of [from, to] lies in a blocked range. When from > to, it looks at no day. |
| BookingForm.WalkMatchesOverlap | components/booking-form.tsx:35-59 | For a well-ordered range, the walk hits exactly when the range overlaps some non-empty blocked range. |
| BookingForm.FormBodyIsAccepted | components/booking-form.tsx:69-78 | A body that passed the form's checks is accepted by the bookings route. The route stores the form's guests, name, email and phone, and drops the meals flag. |
| BookingForm.Form.HandleBooking | components/booking-form.tsx:41-91 | Missing dates, name or phone only set the required-fields message. A blocked day only sets the blocked message. In both cases every other field, `isSubmitting` included, is unchanged. Otherwise the request is sent and `isSubmitting` ends false. Then either the form is cleared and the guest count kept, or the failure message is shown. |
| BookingsApi.PostDraftFields | app/api/bookings/route.ts:16-30 | 400 exactly when a required field is falsy. The guest count passes through unvalidated. A missing email becomes "". `includeMeals` is dropped. |
| BookingsApi.PostDraft | app/api/bookings/route.ts:16-30 | No record exactly when a required field is falsy. Otherwise the record carries the property, dates, name and phone as sent. |
| BookingsApi.Get | app/api/bookings/route.ts:4-11 | Every booking, in stored order. |
| BookingsApi.Post | app/api/bookings/route.ts:13-36 | 400 "Missing required fields" and no change, or 201 with the new pending booking appended. |
| PropertiesApi.GuestsOrTwo | app/api/properties/route.ts:34 | A missing or zero guest count becomes 2; otherwise it is kept. |
| PropertiesApi.PostDraft | app/api/properties/route.ts:23-36 | No record exactly when a required field is falsy. A created record has rating 0. It keeps a non-zero guest count as sent, and an absent or zero count becomes 2. |
| PropertiesApi.PutRecord | app/api/properties/route.ts:48-62 | No record exactly when the id or title is missing. Otherwise the record keeps the id and title as sent. |
| PropertiesApi.PostDraftRules | app/api/properties/route.ts:23-36 | 400 exactly when title, description, price (zero included) or location is falsy. A created property has rating 0. Its guest count is the one sent when non-zero, and 2 when absent or zero. Its image and amenity lists are empty when none are given, and every other field is copied. |
| PropertiesApi.PostIgnoresRating | app/api/properties/route.ts:33 | A rating in the body never survives POST. |
| PropertiesApi.PutRecordRules | app/api/properties/route.ts:48-62 | 400 exactly when id or title is missing. The record keeps the id and title, its rating defaults to 0, and it copies every field the body carries. |
| PropertiesApi.PutOfFullRecord | app/api/properties/route.ts:52-62 | A property sent back in full is stored unchanged. |
| PropertiesApi.Get | app/api/properties/route.ts:4-16 | Every property, unfiltered and in stored order. |
| PropertiesApi.Post | app/api/properties/route.ts:18-42 | 400 and no change, or 201 with the new property appended. |
| PropertiesApi.Put | app/api/properties/route.ts:44-68 | 400 and no change; 500 "Failed to update property" and no change for an unknown id; otherwise 200, with the record replacing the stored one in place. |
| PropertyForm.AddImage | components/admin/property-form.tsx:29-37 | An empty URL changes nothing. Fifteen images raise the cap alert and change nothing. Otherwise the URL is appended and the box cleared. |
| PropertyForm.UploadImage | components/admin/property-form.tsx:124-152 | No file changes nothing. A full gallery raises the cap alert before anything is sent. Otherwise the returned URL is appended, or an alert reports the failure. |
| PropertyForm.AddingKeepsCap | components/admin/property-form.tsx:128-131 | Neither way of adding takes a gallery past fifteen images, and a full gallery is left as it is. |
| PropertyForm.RemoveAt | components/admin/property-form.tsx:40 | An index in range removes one element; any other index changes nothing. |
| PropertyForm.RemoveAtSpec | components/admin/property-form.tsx:40 | Exactly the element at the index goes. Earlier ones stay in place, later ones move up by one, and the multiset loses one copy. |
| PropertyForm.CoverShape | components/admin/property-form.tsx:200-203 | A list with element i in front and the rest in their order equals that element followed by the list without it, and has the same multiset. |
| PropertyForm.SetCover | components/admin/property-form.tsx:199-204 | The in-place splice and unshift put element i first and the others in their relative order. The result is a permutation of the list. |
| PropertyForm.Clean | components/admin/property-form.tsx:53 | Trimming and dropping empty pieces that have no comma leaves only non-empty, trimmed amenities without commas. |
| PropertyForm.ParseAmenities | components/admin/property-form.tsx:53 | Every parsed amenity is non-empty, has no surrounding white space and no comma. |
| PropertyForm.ParsePadded | components/admin/property-form.tsx:53 | White space followed by a joined list of amenities parses back to that list. |
| PropertyForm.AmenitiesRoundTrip | components/admin/property-form.tsx:53 | The field prefilled with `join(", ")` parses back to the same amenities. |
| PropertyForm.ParseIsIdempotent | components/admin/property-form.tsx:53 | Parsing, joining and parsing again gives the first parse. |
| PropertyForm.Prefill | components/admin/property-form.tsx:84-227 | The editor's inputs show the property's title, description, location, price and guest count. The amenities field shows the amenities joined with ", ". |
| PropertyForm.Submission | components/admin/property-form.tsx:53-68 | The submitted record carries the title, description, location, price and guest count as the inputs hold them, the gallery's images, and the parse of the amenities field. When editing, it also carries the initial id and rating; when creating, neither. |
| PropertyForm.UntouchedEditSavesSameProperty | components/admin/property-form.tsx:47-77 | Opening a property in the editor and saving it untouched makes the PUT route store the property itself. |
| UserForm.Blank | components/admin/user-form.tsx:23-29 | A new-user form starts with role customer and every other field empty. |
| UserForm.TextOr | components/admin/user-form.tsx:34-36 | A present text is kept, and a missing one becomes the empty string. |
| UserForm.Prefill | components/admin/user-form.tsx:31-41 | Prefill copies name, email and phone ("" when missing), the role (customer when missing), and always clears the password. |
| UserForm.Submit | components/admin/user-form.tsx:43-58 | The payload is the form state. Its password is absent exactly when editing with a blank password; otherwise it is the typed one. |
| UserForm.SubmitRules | components/admin/user-form.tsx:48-51 | Creating always sends the password. Editing a user untouched sends the user's own fields and no password. |
| AuthApi.ClaimsOf | app/api/auth/login/route.ts:21-26 | The token claims are exactly the user's id, email, role and name. |
| AuthApi.RegisterDraft | app/api/auth/register/route.ts:13-28 | Refusals are 400 or 409. An accepted user is a customer whose hash is the password as sent. |
| AuthApi.RegisterRules | app/api/auth/register/route.ts:13-28 | 400 "Missing fields" for a missing name, email or password. 409 exactly for a taken email. Otherwise the new user is a customer storing the password verbatim and the phone as sent. |
| AuthApi.Register | app/api/auth/register/route.ts:9-55 | A refusal leaves the users unchanged. Success appends the customer and answers with its claims. |
| AuthApi.Login | app/api/auth/login/route.ts:9-46 | Any failure is 401 "Invalid credentials". Success names the first stored user with that email, whose hash equals the password exactly, and carries that user's role and claims. |
| AuthApi.LoginDecision | app/api/auth/login/route.ts:13-31 | For the first user with an email, sign-in succeeds exactly for that user's stored password and answers with its role and claims. A wrong password gets the same 401 as an unknown email. |
| AuthApi.SharedEmailLocksOutLaterUser | app/api/auth/login/route.ts:13-17 | When two users share an email (which `updateUser` allows), the later one is refused with its own password unless it equals the earlier one's. |
| AuthApi.UnknownEmailIsRefused | app/api/auth/login/route.ts:13-18 | An unknown email gets 401 "Invalid credentials". |
| AuthApi.RegisterThenLogin | app/api/auth/register/route.ts:25 | A freshly registered customer signs in with the password they registered with. |
| UsersApi.SessionToken | app/api/users/route.ts:10 | No token exactly when there is no cookie header or no `session=` in it. Otherwise, with `rest` the text after the first `session=`: the token is a prefix of `rest`, holds no `;` and no start of a `session=`. It ends at the end of `rest`, at a `;`, or at a `session=`. |
| UsersApi.IsAdmin | app/api/users/route.ts:9-18 | An administrator always sent a cookie holding `session=`. |
| UsersApi.IsAdminRules | app/api/users/route.ts:9-18 | Without a cookie, a `session=` or a non-empty token, the caller is not an administrator whatever the verifier says. Otherwise the verified role alone decides. |
| UsersApi.TokenOfCookieHeader | app/api/users/route.ts:10 | The header `session=abc; x=1` gives the token `abc`. |
| UsersApi.PostDraft | app/api/users/route.ts:35-40 | The password becomes the hash, the role defaults to customer, and the phone passes through. |
| UsersApi.PostIgnoresSentHash | app/api/users/route.ts:36-37 | A `passwordHash` sent in the body never reaches the store. |
| UsersApi.Get | app/api/users/route.ts:20-26 | 401 "Unauthorized" unless the caller is an administrator; then every user. |
| UsersApi.Post | app/api/users/route.ts:28-45 | 401 and no change for a non-administrator. 400 with the store's "User already exists" for a taken email. Otherwise the user is appended and returned. |
| UsersApi.EditKeepsPasswordUnlessTyped | components/admin/user-form.tsx:48-51 | Through the update the edit route builds from the payload (`UsersApi.PatchUpdate`, which carries a new hash exactly when a non-empty password was sent), saving with a blank password keeps the stored hash and a typed password replaces it. The id stays; name, email and role follow the form. |
| Middleware.AreasAreDisjoint | middleware.ts:12-13 | No path is both an administrator path and a dashboard path. |
| Middleware.Decide | middleware.ts:9-45 | A request proceeds exactly when its path is unprotected, or when it has a non-empty token that verifies to the role owning its area. The login redirect carries the request URL as callback exactly when there was no token. A redirect home only follows a verified token. |
| Middleware.DecisionTable | middleware.ts:9-45 | The guard's table. Unprotected paths proceed. No token goes to the login page with a callback, and a token that fails verification goes there without one. `/admin` proceeds only for admin and `/dashboard` only for customer; every other role is sent home. |
| Middleware.ProceedNeedsOwningRole | middleware.ts:31-39 | A request proceeds into a protected area only with a token that verifies to the role owning it. |
| Gallery.ArrowsAreInverse | components/property-gallery.tsx:44-55 | Previous then next, and next then previous, return to the index. |
| Gallery.Prev | components/property-gallery.tsx:44 | On a non-empty list the "previous" step is `(i-1+n) mod n`: it wraps from the first image to the last and stays in range. |
| Gallery.Next | components/property-gallery.tsx:55 | On a non-empty list the "next" step is `(i+1) mod n`: it wraps from the last image to the first and stays in range. |
| Gallery.FullTurn | components/property-gallery.tsx:55 | k presses of "next" from the start reach k, and n presses return to the start. |
| Gallery.Viewer.Counter | components/property-gallery.tsx:65 | The counter lies in 1..n. |
| Gallery.Viewer.constructor | components/property-gallery.tsx:15 | The index starts at 0. |
| Gallery.Viewer.ShowPrevious | components/property-gallery.tsx:42-45 | The left arrow applies the wrap-around "previous" step and keeps the index in range. |
| Gallery.Viewer.ShowNext | components/property-gallery.tsx:53-56 | The right arrow applies the wrap-around "next" step and keeps the index in range. |
| Gallery.Viewer.Select | components/property-gallery.tsx:75 | A thumbnail selects its own position. |
| Upload.Sanitize | app/api/upload/route.ts:22 | One character for one: the length is kept, and every character is in `[a-zA-Z0-9._-]`. |
| Upload.SanitizeSpec | app/api/upload/route.ts:22 | Allowed characters stay in place, every other becomes `_`, and sanitising is idempotent. |
| Upload.Decimal | app/api/upload/route.ts:22 | The timestamp's text is a non-empty string of decimal digits, without a leading zero for a positive number. |
| Upload.DecimalRoundTrip | app/api/upload/route.ts:22 | Reading the digits back gives the timestamp. |
| Upload.FileName | app/api/upload/route.ts:22 | The stored name is as long as the timestamp, a dash and the client name, with the dash right after the timestamp. |
| Upload.FileNameParts | app/api/upload/route.ts:22 | The stored name is the timestamp, a dash, then the sanitised name, and the timestamp can be read back from before the first dash. |
| Upload.Post | app/api/upload/route.ts:10-31 | 400 "No file uploaded" without a file; 500 "Upload failed" when the write fails; otherwise the URL is `/uploads/` followed by the stored name. |
| Text.Lower | app/properties/page.tsx:24 | Lower-casing keeps the length. It maps each letter A-Z to its lower-case letter and keeps every other character. |
| Text.IndexOf | app/api/users/route.ts:10 | -1 exactly when the needle does not occur; otherwise the first occurrence. |
| Text.Before | app/api/users/route.ts:10 | The text up to the first separator: a prefix with no separator, followed by the separator unless it is the whole text. |
| Text.Trim | components/admin/property-form.tsx:53 | The input is white space, the result, then white space, and the result has no white space at either end. |
| Text.TrimOfPadded | components/admin/property-form.tsx:53 | Trimming leading white space off a trimmed word gives the word. |
| Text.TrimOfSurrounded | components/admin/property-form.tsx:53 | Trimming white space off both sides of a trimmed, non-empty word gives the word. |
| Text.Split | components/admin/property-form.tsx:53 | At least one piece, none holding the separator. |
| Text.JoinSplit | components/admin/property-form.tsx:53 | Joining the pieces with the separator gives back the text. |
| Text.SplitOfJoined | components/admin/property-form.tsx:53 | Splitting `a + sep + b`, where a has no separator, gives a followed by the pieces of b. |

## Left out

- File persistence: the JSON file read and written around every ledger operation, its seeding and migration (`ensureDataFile`), and the upload's directory creation and file write. The store is in-memory state; a failed upload write is the `writeFails` parameter of `Upload.Post`.
- Id and time generation: `Math.random` ids and `Date.now()` are parameters. Each id carries a precondition that it is not yet used.
- Concurrency: the unlocked read-modify-write of concurrent requests, which can let two conflicting confirmations both succeed. Operations here run one at a time.
- JWT signing, expiry and cookie setting; verification is a parameter.
- Date parsing, times of day and time zones, `addDays` and `toISOString`: dates are day numbers.
- The 500 answers of the `catch` blocks ("Failed to fetch bookings", "Failed to create booking", "Failed to create property", "Registration failed", "Login failed", "Upload failed" for anything but the write). They follow a failed file read or write, and also a request body that is not JSON or is JSON `null`, which makes `request.json()` or the destructuring throw. Request bodies here are always well-formed records.
- Rendering: pages, cards, navigation, the dashboard around its filter, the admin page's fetch orchestration and its optimistic local status update (`app/admin/page.tsx:66`), which ignores a failed request.
- The DELETE and role routes of `app/api/users/[id]/route.ts` and the `app/api/bookings/[id]/route.ts` status route: only the PATCH update mapping is modelled. The ledger operations behind them are modelled.
- `extract_colors.py`: image decoding and colour ranking through a foreign imaging library.
- Text.Lower: lower-cases the ASCII letters only, where `toLowerCase` covers all of Unicode.
- Upload.Sanitize: works on characters. The source's regular expression sees UTF-16 code units, so a character outside the Basic Multilingual Plane becomes two `_` there and one here.
- PropertiesApi.PutRecord: an absent description, location, price or guest count is stored as "", "", 0 and 0. The source stores `undefined` and `NaN`, which a Dafny record cannot hold. The editor always sends these fields.
- PropertiesApi.PostDraft: numbers arrive already parsed, so `Number()` of a non-numeric text (NaN) is not modelled.
- UsersApi.PostDraft: an absent name, email or password stands in as "". The extra keys that `...body` copies into the stored user, the plain `password` among them, are not modelled.
- UsersApi.PatchUpdate: the empty `password` key the route leaves in the update, which the spread then stores on the user, is not modelled.
- UsersApi.SessionToken: the token is cut at the first `session=` anywhere in the header, so `xsession=` also matches. The model keeps this matching but the lemmas do not single it out.
- Middleware.Decide: verification yields a role or failure, so a valid token whose payload has no role claim, or another one, is not modelled. The callback URL is kept as given, without `encodeURI`.
- Roles: roles other than admin and customer, which the untyped request bodies could store, are not modelled.
- PropertyForm.UploadImage: the source appends to the image list captured when the handler started; an edit made during the upload would be lost. The model appends to the current list.
- Guest-count parsing on the listings page: `parseInt` of the guest count is taken as already done; NaN is an absent count.

## Findings

| source | as written | input that shows it | evidently intended | confidence | as-written member | corrected member |
|---|---|---|---|---|---|---|
| app/admin/page.tsx:83-90 | The admin "block dates" request posts no `customerPhone`. The bookings route answers 400 to any body without one (app/api/bookings/route.ts:18-20), so `res.ok` is false, nothing is created or confirmed, and the admin sees no message. | Any block, e.g. property "1", days 10–12, reason "Admin Block". | The block is created as a zero-guest booking and pushed through the confirmation gate, so that it blocks the calendar. | not executed | AdminBlock.BlockDatesAsWritten | AdminBlock.BlockDates |
