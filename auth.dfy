/** auth.js: the refresh call and expiry test used by the page guard. The
    expiry test is the same function as the gateway's (`JwtFetch.IsJwtExpired`);
    the refresh call differs only in its absolute endpoint. */
module Auth {
  import opened Js
  import opened Browser
  import opened JwtFetch

  /** The refresh endpoint auth.js calls (the back end's own origin). */
  const AuthRefreshUrl := "http://localhost:8082/api/auth/refresh"

  /** auth.js's `refreshToken()`. */
  method RefreshToken(w: Window) returns (result: Refreshed)
    modifies w
    ensures var e := RefreshEffectOf(AuthRefreshUrl, old(w.storage), old(w.replies));
      result == e.result && w.storage == e.storage && w.replies == e.rest
      && w.sent == old(w.sent) + [e.request]
    ensures w.href == old(w.href) && w.alerts == old(w.alerts)
  {
    result := RefreshAt(w, AuthRefreshUrl);
  }

  /** The two refresh calls differ only in the endpoint: from the same state
      they produce the same result and storage, and requests that agree in
      everything but the URL. */
  lemma RefreshCallsAgree(storage: map<string, Item>, replies: seq<Outcome>)
    ensures var a := RefreshEffectOf(AuthRefreshUrl, storage, replies);
      var g := RefreshEffectOf(RefreshUrl, storage, replies);
      && a.result == g.result && a.storage == g.storage && a.rest == g.rest
      && a.request == g.request.(url := AuthRefreshUrl)
      && a.request.url != g.request.url
  {
  }
}

/** auth-guard.js: runs on every protected page. It refreshes a missing or
    expiring token, sends the visitor to the login page when no token can be
    had, and lets only administrators stay on the admin page. */
module AuthGuard {
  import opened Js
  import opened Browser
  import opened JwtFetch
  import opened Auth

  const LoginPage := "index.html"
  const AdminPageSuffix := "admin.html"
  /** The `localStorage` key of the signed-in user's role. */
  const RoleKey := "user_role"

  /** The stored role passes the admin check: present, non-empty, and "admin"
      in any letter case. */
  predicate IsAdminRole(role: Option<string>) {
    role.Some? && role.value != "" && ToLower(role.value) == "admin"
  }

  /** The effect of the guard: storage, requests, the remaining answers, and
      the last value assigned to `window.location.href` (`None`: the visitor
      stays). */
  datatype GuardEffect = GuardEffect(storage: map<string, Item>, requests: seq<Request>, rest: seq<Outcome>, href: Option<string>)

  /** The checks after the token is settled: a falsy token or an admin page
      without the admin role sends the visitor to the login page. */
  function Verdict(pathname: string, tokenTruthy: bool, storage: map<string, Item>): Option<string> {
    if !tokenTruthy || (EndsWith(pathname, AdminPageSuffix) && !IsAdminRole(GetText(storage, RoleKey)))
    then Some(LoginPage)
    else None
  }

  function GuardEffectOf(pathname: string, storage: map<string, Item>, replies: seq<Outcome>,
                         nowMs: int, decode: string -> Option<Val>): GuardEffect
  {
    var stored := GetText(storage, TokenKey);
    if stored.None? || IsJwtExpired(stored, nowMs, decode) then
      var r := RefreshEffectOf(AuthRefreshUrl, storage, replies);
      match r.result
      case RefreshFailed => GuardEffect(r.storage, [r.request], r.rest, Some(LoginPage))
      case Refreshed(t) => GuardEffect(r.storage, [r.request], r.rest, Verdict(pathname, Truthy(t), r.storage))
    else
      GuardEffect(storage, [], replies, Verdict(pathname, true, storage))
  }

  /** The guard calls the refresh endpoint exactly when the stored token is
      missing or about to expire, and then only once. */
  lemma GuardRefreshesOnlyExpired(pathname: string, storage: map<string, Item>, replies: seq<Outcome>,
                                  nowMs: int, decode: string -> Option<Val>)
    ensures var e := GuardEffectOf(pathname, storage, replies, nowMs, decode);
      && (|e.requests| == 1 <==> IsJwtExpired(GetText(storage, TokenKey), nowMs, decode))
      && |e.requests| <= 1
      && (e.requests == [] ==> e.storage == storage)
  {
  }

  /** The visitor stays exactly when a usable token is at hand (a valid
      stored one, or a truthy refreshed one) and, on the admin page, the
      stored role is "admin" in some letter case. */
  lemma GuardAdmitsExactly(pathname: string, storage: map<string, Item>, replies: seq<Outcome>,
                           nowMs: int, decode: string -> Option<Val>)
    ensures var e := GuardEffectOf(pathname, storage, replies, nowMs, decode);
      var expired := IsJwtExpired(GetText(storage, TokenKey), nowMs, decode);
      var r := RefreshEffectOf(AuthRefreshUrl, storage, replies);
      && (e.href.Some? ==> e.href == Some(LoginPage))
      && (e.href.None? <==>
            && (!expired || (r.result.Refreshed? && Truthy(r.result.token)))
            && (EndsWith(pathname, AdminPageSuffix) ==> IsAdminRole(GetText(e.storage, RoleKey))))
  {
  }

  /** A failed refresh always sends the visitor to the login page and clears
      the token. */
  lemma FailedRefreshRedirects(pathname: string, storage: map<string, Item>, replies: seq<Outcome>,
                               nowMs: int, decode: string -> Option<Val>)
    requires IsJwtExpired(GetText(storage, TokenKey), nowMs, decode)
    requires !RefreshSucceeds(NextOutcome(replies))
    ensures var e := GuardEffectOf(pathname, storage, replies, nowMs, decode);
      e.href == Some(LoginPage) && TokenKey !in e.storage
  {
  }

  /** Outside the admin page the stored role plays no part. */
  lemma RoleOnlyMattersOnAdminPage(pathname: string, storage: map<string, Item>, role: Item,
                                   replies: seq<Outcome>, nowMs: int, decode: string -> Option<Val>)
    requires !EndsWith(pathname, AdminPageSuffix)
    ensures GuardEffectOf(pathname, storage[RoleKey := role], replies, nowMs, decode).href
         == GuardEffectOf(pathname, storage - {RoleKey}, replies, nowMs, decode).href
  {
    assert GetText(storage[RoleKey := role], TokenKey) == GetText(storage - {RoleKey}, TokenKey);
  }

  /** The guard, run on the page at `pathname`. */
  method Guard(w: Window, pathname: string, nowMs: int, decode: string -> Option<Val>)
    modifies w
    ensures var e := GuardEffectOf(pathname, old(w.storage), old(w.replies), nowMs, decode);
      && w.storage == e.storage && w.replies == e.rest && w.sent == old(w.sent) + e.requests
      && w.href == (if e.href.Some? then e.href else old(w.href))
    ensures w.alerts == old(w.alerts)
  {
    var stored := GetText(w.storage, TokenKey);
    var tokenTruthy: bool;
    if stored.None? || IsJwtExpired(stored, nowMs, decode) {
      var r := Auth.RefreshToken(w);
      if r.RefreshFailed? {
        w.Navigate(LoginPage);
        return;
      }
      tokenTruthy := Truthy(r.token);
    } else {
      tokenTruthy := stored.value != "";
    }
    if !tokenTruthy {
      w.Navigate(LoginPage);
    }
    if EndsWith(pathname, AdminPageSuffix) {
      var role := GetText(w.storage, RoleKey);
      if role.None? || role.value == "" || ToLower(role.value) != "admin" {
        w.Navigate(LoginPage);
      }
    }
  }
}
