/**
 * The admin-only users routes (app/api/users/route.ts, and the update
 * mapping of app/api/users/[id]/route.ts): the session token is cut out of
 * the cookie header, verified, and only the admin role gets through.
 * Token verification is a parameter: it maps a token to the role it
 * carries, or None when the signature or expiry check fails.
 */
module UsersApi {
  import opened Wrappers
  import opened Records
  import opened Http
  import Text
  import Ledger
  import UserForm

  const SessionKey := "session="

  /** Text that starts a piece cut from the front of what follows the key also directly follows the key. */
  lemma TokenFollowsKey(c: string, i: int, piece: string, token: string)
    requires Text.OccursAt(c, SessionKey, i)
    requires Text.StartsWith(c[i + |SessionKey|..], piece) && Text.StartsWith(piece, token)
    ensures Text.OccursAt(c, SessionKey + token, i)
  {
    var rest := c[i + |SessionKey|..];
    assert rest[..|token|] == piece[..|token|] == token;
    assert c[i..i + |SessionKey| + |token|] == c[i..i + |SessionKey|] + rest[..|token|];
  }

  /**
   * `cookie?.split('session=')[1]?.split(';')[0]`: the text after the first
   * `session=`, up to the next `session=` or `;`, or None without a cookie
   * header or without any `session=` in it. With `rest` the text after the
   * first `session=`, the token is the prefix of `rest` that holds no `;`
   * and no start of a `session=`, and stops at the end of `rest`, at a `;`
   * or at a `session=`.
   */
  function SessionToken(cookie: Option<string>): (r: Option<string>)
    ensures r.None? <==> cookie.None? || !Text.Contains(cookie.value, SessionKey)
    ensures r.Some? ==> Text.OccursAt(cookie.value, SessionKey + r.value, Text.IndexOf(cookie.value, SessionKey))
    ensures r.Some? ==>
              var rest := cookie.value[Text.IndexOf(cookie.value, SessionKey) + |SessionKey|..];
              Text.StartsWith(rest, r.value) && ';' !in r.value &&
              (forall k :: 0 <= k < |r.value| ==> !Text.OccursAt(rest, SessionKey, k)) &&
              (|r.value| == |rest| || rest[|r.value|] == ';' || Text.OccursAt(rest, SessionKey, |r.value|))
  {
    if cookie.None? then None
    else
      var c := cookie.value;
      var i := Text.IndexOf(c, SessionKey);
      if i == -1 then None
      else
        var rest := c[i + |SessionKey|..];
        var j := Text.IndexOf(rest, SessionKey);
        var piece := if j == -1 then rest else rest[..j];
        var token := Text.Before(piece, ';');
        TokenFollowsKey(c, i, piece, token);
        Some(token)
  }

  /** `isAdmin`: a non-empty token that verifies to the admin role. */
  predicate IsAdmin(cookie: Option<string>, verify: string -> Option<Role>)
    ensures IsAdmin(cookie, verify) ==> cookie.Some? && Text.Contains(cookie.value, SessionKey)
  {
    var token := SessionToken(cookie);
    token.Some? && token.value != "" && verify(token.value) == Some(Admin)
  }

  /**
   * Without a cookie, without `session=` in it, or with an empty token the
   * caller is not an administrator, whatever the verifier says; otherwise
   * the verified role alone decides.
   */
  lemma IsAdminRules(cookie: Option<string>, verify: string -> Option<Role>)
    ensures cookie.None? ==> !IsAdmin(cookie, verify)
    ensures cookie.Some? && !Text.Contains(cookie.value, SessionKey) ==> !IsAdmin(cookie, verify)
    ensures IsAdmin(cookie, verify) <==>
              SessionToken(cookie).Some? && SessionToken(cookie).value != "" &&
              verify(SessionToken(cookie).value) == Some(Admin)
  {
  }

  /** A header whose session cookie comes first: the token stops at the `;`. */
  lemma TokenOfCookieHeader()
    ensures SessionToken(Some("session=abc; x=1")) == Some("abc")
  {
    var c := "session=abc; x=1";
    assert Text.OccursAt(c, SessionKey, 0);
    var rest := c[8..];
    assert rest == "abc" + [';'] + " x=1";
    Text.BeforeOfJoined("abc", ';', " x=1");
  }

  /** A POST body; `...body` also copies a `passwordHash`, which `password` then overrides. */
  datatype UserBody = UserBody(
    name: Option<string>,
    email: Option<string>,
    password: Option<string>,
    passwordHash: Option<string>,
    role: Option<Role>,
    phone: Option<string>)

  /**
   * The record POST hands to `createUser`: the password becomes the hash,
   * and the role is customer unless the body names one. Absent name, email
   * and password stand in as "".
   */
  function PostDraft(body: UserBody): (r: UserDraft)
    ensures body.password.Some? ==> r.passwordHash == body.password.value
    ensures body.role.None? ==> r.role == Customer
    ensures body.role.Some? ==> r.role == body.role.value
    ensures r.phone == body.phone
  {
    UserDraft(body.name.GetOr(""), body.email.GetOr(""), body.password.GetOr(""), body.role.GetOr(Customer), body.phone)
  }

  /** A `passwordHash` sent in the body never reaches the store. */
  lemma PostIgnoresSentHash(body: UserBody, hash: Option<string>)
    ensures PostDraft(body.(passwordHash := hash)) == PostDraft(body)
  {
  }

  /** GET: 401 "Unauthorized" unless the caller is an administrator; then every user. */
  method Get(store: Ledger.Store, cookie: Option<string>, verify: string -> Option<Role>) returns (reply: Reply<seq<User>>)
    ensures !IsAdmin(cookie, verify) ==> reply == Error(401, "Unauthorized")
    ensures IsAdmin(cookie, verify) ==> reply == Ok(200, store.users)
  {
    if !IsAdmin(cookie, verify) {
      return Error(401, "Unauthorized");
    }
    reply := Ok(200, store.users);
  }

  /**
   * POST: 401 and no change unless the caller is an administrator; 400 with
   * the store's message and no change for a taken email; otherwise the new
   * user is appended and returned.
   */
  method Post(store: Ledger.Store, cookie: Option<string>, verify: string -> Option<Role>,
              body: UserBody, freshId: string) returns (reply: Reply<User>)
    requires store.Valid()
    requires forall x :: x in store.users ==> x.id != freshId
    modifies store
    ensures store.Valid()
    ensures !IsAdmin(cookie, verify) ==> reply == Error(401, "Unauthorized") && store.users == old(store.users)
    ensures IsAdmin(cookie, verify) && Ledger.UserByEmail(old(store.users), PostDraft(body).email).Some? ==>
              reply == Error(400, "User already exists") && store.users == old(store.users)
    ensures IsAdmin(cookie, verify) && Ledger.UserByEmail(old(store.users), PostDraft(body).email).None? ==>
              var u := Ledger.NewUser(PostDraft(body), freshId);
              reply == Ok(200, u) && store.users == old(store.users) + [u]
    ensures store.properties == old(store.properties) && store.bookings == old(store.bookings)
  {
    if !IsAdmin(cookie, verify) {
      return Error(401, "Unauthorized");
    }
    var r := store.CreateUser(PostDraft(body), freshId);
    if r.Failure? {
      return Error(400, Ledger.Message(r.error));
    }
    reply := Ok(200, r.value);
  }

  /**
   * The update the edit route builds from the user form's payload: every
   * field sent overrides, and a non-empty password becomes the new hash.
   */
  function PatchUpdate(p: UserForm.Payload): (r: Ledger.UserUpdate)
    ensures r.passwordHash.Some? <==> p.password.Some? && p.password.value != ""
  {
    Ledger.UserUpdate(None, Some(p.name), Some(p.email),
                      if p.password.Some? && p.password.value != "" then p.password else None,
                      Some(p.role), Some(p.phone))
  }

  /**
   * Saving an edit with a blank password keeps the stored password hash;
   * saving one with a typed password replaces it. Either way the id stays.
   */
  lemma EditKeepsPasswordUnlessTyped(u: User, f: UserForm.Fields)
    ensures var saved := Ledger.Merge(u, PatchUpdate(UserForm.Submit(true, f)));
            saved.id == u.id && saved.name == f.name && saved.email == f.email && saved.role == f.role &&
            (f.password == "" ==> saved.passwordHash == u.passwordHash) &&
            (f.password != "" ==> saved.passwordHash == f.password)
  {
  }
}
