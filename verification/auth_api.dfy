/**
 * Registration and sign-in (app/api/auth/register/route.ts,
 * app/api/auth/login/route.ts). Both answer with the claims of the session
 * token they sign; signing and the cookie are not part of this model.
 */
module AuthApi {
  import opened Wrappers
  import opened Records
  import opened Http
  import Ledger

  /** The claims a session token carries. */
  datatype Claims = Claims(id: string, email: string, role: Role, name: string)

  /** A sign-in answer: the role in the JSON body and the claims of the token set as cookie. */
  datatype Session = Session(role: Role, claims: Claims)

  function ClaimsOf(u: User): (r: Claims)
    ensures r.id == u.id && r.email == u.email && r.role == u.role && r.name == u.name
  {
    Claims(u.id, u.email, u.role, u.name)
  }

  datatype RegisterRequest = RegisterRequest(
    name: Option<string>,
    email: Option<string>,
    password: Option<string>,
    phone: Option<string>)

  /**
   * Registration's decision before the store is touched: 400 "Missing
   * fields", 409 "User already exists", or the customer to create, whose
   * password hash is the password as sent.
   */
  function RegisterDraft(users: seq<User>, req: RegisterRequest): (r: Reply<UserDraft>)
    ensures r.Error? ==> r.status == 400 || r.status == 409
    ensures r.Ok? ==> r.body.role == Customer && Some(r.body.passwordHash) == req.password
  {
    if !Given(req.name) || !Given(req.email) || !Given(req.password) then Error(400, "Missing fields")
    else if Ledger.UserByEmail(users, req.email.value).Some? then Error(409, "User already exists")
    else Ok(200, UserDraft(req.name.value, req.email.value, req.password.value, Customer, req.phone))
  }

  /**
   * Registration's rules: a missing field answers 400; a taken email 409;
   * otherwise the new user is a customer, whatever else the body holds,
   * storing the password verbatim and the phone as sent.
   */
  lemma RegisterRules(users: seq<User>, req: RegisterRequest)
    ensures RegisterDraft(users, req).Error? <==>
              !Given(req.name) || !Given(req.email) || !Given(req.password) ||
              exists u :: u in users && u.email == req.email.value
    ensures !Given(req.name) || !Given(req.email) || !Given(req.password) ==>
              RegisterDraft(users, req) == Error(400, "Missing fields")
    ensures RegisterDraft(users, req).Ok? ==>
              var d := RegisterDraft(users, req).body;
              d.role == Customer && Some(d.name) == req.name && Some(d.email) == req.email &&
              Some(d.passwordHash) == req.password && d.phone == req.phone
  {
  }

  /**
   * `POST /api/auth/register`: refuses without touching the store, or
   * appends the new customer and answers with the claims of its session.
   */
  method Register(store: Ledger.Store, req: RegisterRequest, freshId: string) returns (reply: Reply<Claims>)
    requires store.Valid()
    requires forall x :: x in store.users ==> x.id != freshId
    modifies store
    ensures store.Valid()
    ensures match RegisterDraft(old(store.users), req)
            case Error(status, message) =>
              reply == Error(status, message) && store.users == old(store.users)
            case Ok(_, d) =>
              var u := Ledger.NewUser(d, freshId);
              reply == Ok(200, ClaimsOf(u)) && store.users == old(store.users) + [u]
    ensures store.properties == old(store.properties) && store.bookings == old(store.bookings)
  {
    var decision := RegisterDraft(store.users, req);
    if decision.Error? {
      return Error(decision.status, decision.message);
    }
    var r := store.CreateUser(decision.body, freshId);
    reply := Ok(200, ClaimsOf(r.value));
  }

  /**
   * `POST /api/auth/login`: the first user with the email, if its stored
   * password hash equals the password exactly; otherwise 401 "Invalid
   * credentials".
   */
  function Login(users: seq<User>, email: Option<string>, password: Option<string>): (r: Reply<Session>)
    ensures r.Error? ==> r == Error(401, "Invalid credentials")
    ensures r.Ok? ==> r.status == 200 && email.Some? &&
                      exists k :: 0 <= k < |users| && users[k].email == email.value &&
                                  (forall j :: 0 <= j < k ==> users[j].email != email.value) &&
                                  Some(users[k].passwordHash) == password &&
                                  r.body == Session(users[k].role, ClaimsOf(users[k]))
  {
    var user := if email.Some? then Ledger.UserByEmail(users, email.value) else None;
    if user.None? || Some(user.value.passwordHash) != password then Error(401, "Invalid credentials")
    else Ok(200, Session(user.value.role, ClaimsOf(user.value)))
  }

  /**
   * Only the first user with the email is checked: sign-in succeeds exactly
   * for that user's stored password, answering with that user's role and
   * claims, and a wrong password gets the same answer as an unknown email.
   */
  lemma LoginDecision(users: seq<User>, i: nat, password: string)
    requires i < |users|
    requires forall j :: 0 <= j < i ==> users[j].email != users[i].email
    ensures var u := users[i];
            (Login(users, Some(u.email), Some(password)).Ok? <==> password == u.passwordHash) &&
            (password != u.passwordHash ==> Login(users, Some(u.email), Some(password)) == Error(401, "Invalid credentials")) &&
            (password == u.passwordHash ==> Login(users, Some(u.email), Some(password)) == Ok(200, Session(u.role, ClaimsOf(u))))
  {
    var u := Ledger.UserByEmail(users, users[i].email);
    var k :| 0 <= k < |users| && users[k] == u.value && forall j :: 0 <= j < k ==> users[j].email != users[i].email;
    assert k == i;
  }

  /**
   * When two users share an email, the later one cannot sign in with its
   * own password unless it equals the earlier one's.
   */
  lemma SharedEmailLocksOutLaterUser(users: seq<User>, i: nat, j: nat)
    requires i < j < |users|
    requires forall k :: 0 <= k < i ==> users[k].email != users[i].email
    requires users[j].email == users[i].email && users[j].passwordHash != users[i].passwordHash
    ensures Login(users, Some(users[j].email), Some(users[j].passwordHash)) == Error(401, "Invalid credentials")
  {
    LoginDecision(users, i, users[j].passwordHash);
  }

  lemma UnknownEmailIsRefused(users: seq<User>, email: string, password: Option<string>)
    requires forall x :: x in users ==> x.email != email
    ensures Login(users, Some(email), password) == Error(401, "Invalid credentials")
  {
  }

  /** A freshly registered customer can sign in with the password they registered with. */
  lemma RegisterThenLogin(users: seq<User>, req: RegisterRequest, freshId: string)
    requires RegisterDraft(users, req).Ok?
    ensures var u := Ledger.NewUser(RegisterDraft(users, req).body, freshId);
            Login(users + [u], req.email, req.password) == Ok(200, Session(Customer, ClaimsOf(u)))
  {
    var u := Ledger.NewUser(RegisterDraft(users, req).body, freshId);
    Ledger.UserByEmailAfterAppend(users, u);
  }
}
