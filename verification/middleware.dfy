/**
 * The route guard (middleware.ts): which requests to the administrator
 * and customer areas proceed and where the others are sent. Token
 * verification is a parameter mapping a token to the role it carries, or
 * None when the signature or expiry check fails.
 */
module Middleware {
  import opened Wrappers
  import opened Records
  import Text

  datatype Decision =
    | Proceed
    /** To `/login`, with the original URL as `callbackUrl` when there was no token. */
    | RedirectToLogin(callbackUrl: Option<string>)
    /** To `/`. */
    | RedirectHome

  predicate IsAdminRoute(pathname: string) {
    Text.StartsWith(pathname, "/admin")
  }

  predicate IsDashboardRoute(pathname: string) {
    Text.StartsWith(pathname, "/dashboard")
  }

  /** `middleware`: the decision for a request path, its session cookie, and the request URL. */
  function Decide(pathname: string, token: Option<string>, verify: string -> Option<Role>, url: string): (r: Decision)
    ensures r == Proceed <==>
              (!IsAdminRoute(pathname) && !IsDashboardRoute(pathname)) ||
              (token.Some? && token.value != "" &&
               ((IsAdminRoute(pathname) && verify(token.value) == Some(Admin)) ||
                (IsDashboardRoute(pathname) && verify(token.value) == Some(Customer))))
    ensures r.RedirectToLogin? ==> (r.callbackUrl.Some? <==> token.None? || token.value == "")
    ensures r.RedirectToLogin? && r.callbackUrl.Some? ==> r.callbackUrl.value == url
    ensures r == RedirectHome ==> token.Some? && verify(token.value).Some?
  {
    AreasAreDisjoint(pathname);
    if !IsAdminRoute(pathname) && !IsDashboardRoute(pathname) then Proceed
    else if token.None? || token.value == "" then RedirectToLogin(Some(url))
    else match verify(token.value)
      case None => RedirectToLogin(None)
      case Some(role) =>
        if IsAdminRoute(pathname) && role != Admin then RedirectHome
        else if IsDashboardRoute(pathname) && role != Customer then RedirectHome
        else Proceed
  }

  /** No path is both an administrator path and a dashboard path. */
  lemma AreasAreDisjoint(pathname: string)
    ensures !(IsAdminRoute(pathname) && IsDashboardRoute(pathname))
  {
    if IsAdminRoute(pathname) {
      assert pathname[..6] == "/admin";
      assert pathname[1] == 'a';
    }
  }

  /**
   * The guard's table: unprotected paths proceed; a protected path without
   * a token goes to the login page with a callback, one with a token that
   * fails verification goes there without; a verified role proceeds
   * exactly into its own area (administrators into `/admin`, customers
   * into `/dashboard`) and is sent home from the other.
   */
  lemma DecisionTable(pathname: string, token: Option<string>, verify: string -> Option<Role>, url: string)
    ensures !IsAdminRoute(pathname) && !IsDashboardRoute(pathname) ==>
              Decide(pathname, token, verify, url) == Proceed
    ensures (IsAdminRoute(pathname) || IsDashboardRoute(pathname)) && (token.None? || token.value == "") ==>
              Decide(pathname, token, verify, url) == RedirectToLogin(Some(url))
    ensures (IsAdminRoute(pathname) || IsDashboardRoute(pathname)) && token.Some? && token.value != "" &&
            verify(token.value).None? ==>
              Decide(pathname, token, verify, url) == RedirectToLogin(None)
    ensures IsAdminRoute(pathname) && token.Some? && token.value != "" && verify(token.value).Some? ==>
              Decide(pathname, token, verify, url) == (if verify(token.value).value == Admin then Proceed else RedirectHome)
    ensures IsDashboardRoute(pathname) && token.Some? && token.value != "" && verify(token.value).Some? ==>
              Decide(pathname, token, verify, url) == (if verify(token.value).value == Customer then Proceed else RedirectHome)
  {
    AreasAreDisjoint(pathname);
  }

  /** A request proceeds into a protected area only with a token whose verified role owns that area. */
  lemma ProceedNeedsOwningRole(pathname: string, token: Option<string>, verify: string -> Option<Role>, url: string)
    requires Decide(pathname, token, verify, url) == Proceed
    ensures IsAdminRoute(pathname) ==> token.Some? && verify(token.value) == Some(Admin)
    ensures IsDashboardRoute(pathname) ==> token.Some? && verify(token.value) == Some(Customer)
  {
    AreasAreDisjoint(pathname);
  }
}
