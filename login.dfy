/** login.js: the sign-in form. It sends the trimmed credentials, stores the
    access token and the lower-cased role, and routes the user by role. */
module Login {
  import opened Js
  import opened Browser
  import opened JwtFetch
  import AuthGuard

  const LoginUrl := "http://localhost:8082/api/auth/login"
  const EmptyFieldsMessage := "Please enter both username and password"
  const FailedLoginMessage := "Invalid username or password"

  /** The page a signed-in user is sent to, by the lower-cased role (`None`
      when the reply has no role). */
  function RouteFor(role: Option<string>): string {
    if role == Some("admin") then "admin.html"
    else if role == Some("user") then "home.html"
    else "index.html"
  }

  function LoginRequest(username: string, password: string): Request {
    Request(LoginUrl, "POST", map["Content-Type" := "application/json"], "include",
            Some(Obj(map["username" := Str(username), "password" := Str(password)])))
  }

  /** The effect of one form submission: storage, requests, the remaining
      answers, the page navigated to, and the alerts shown. */
  datatype LoginEffect = LoginEffect(
    storage: map<string, Item>,
    requests: seq<Request>,
    rest: seq<Outcome>,
    href: Option<string>,
    alerts: seq<string>)

  function SubmitEffectOf(usernameField: string, passwordField: string,
                          storage: map<string, Item>, replies: seq<Outcome>): LoginEffect
  {
    var username := Trim(usernameField);
    var password := Trim(passwordField);
    if username == "" || password == "" then
      LoginEffect(storage, [], replies, None, [EmptyFieldsMessage])
    else
      var req := LoginRequest(username, password);
      var o := NextOutcome(replies);
      if o.TransportError? || !IsOk(o.reply) || o.reply.body.None? || IsNullish(o.reply.body.value) then
        // a failed request, a non-2xx status, a body that is not JSON, or
        // reading `accessToken` of null: all end in the catch block
        LoginEffect(storage, [req], RestOf(replies), None, [FailedLoginMessage])
      else
        var data := o.reply.body.value;
        var withToken := storage[TokenKey := Text(StringOf(Get(data, "accessToken")))];
        var role := Get(data, "role");
        if IsNullish(role) then
          // `undefined` is stored as the text "undefined"
          LoginEffect(withToken[AuthGuard.RoleKey := Text("undefined")], [req], RestOf(replies), Some(RouteFor(None)), [])
        else if !role.Str? then
          // `toLowerCase` is not a function: the token is already stored
          LoginEffect(withToken, [req], RestOf(replies), None, [FailedLoginMessage])
        else
          var lowered := ToLower(role.s);
          LoginEffect(withToken[AuthGuard.RoleKey := Text(lowered)], [req], RestOf(replies), Some(RouteFor(Some(lowered))), [])
  }

  /** A request is sent exactly when both trimmed fields are non-empty, and it
      carries the trimmed values. */
  lemma RequestOnlyWithBothFields(usernameField: string, passwordField: string,
                                  storage: map<string, Item>, replies: seq<Outcome>)
    ensures var e := SubmitEffectOf(usernameField, passwordField, storage, replies);
      && (e.requests != [] <==> Trim(usernameField) != "" && Trim(passwordField) != "")
      && (e.requests == [] ==> e.storage == storage && e.href == None && e.alerts == [EmptyFieldsMessage])
      && (e.requests != [] ==> e.requests == [LoginRequest(Trim(usernameField), Trim(passwordField))])
  {
    var username := Trim(usernameField);
    var password := Trim(passwordField);
    if username != "" && password != "" {
      var e := SubmitEffectOf(usernameField, passwordField, storage, replies);
      assert e.requests == [LoginRequest(username, password)];
    }
  }

  /** A rejected login changes nothing in storage, stays on the page, and
      shows one alert. */
  lemma RejectedLoginStoresNothing(usernameField: string, passwordField: string,
                                   storage: map<string, Item>, replies: seq<Outcome>)
    requires Trim(usernameField) != "" && Trim(passwordField) != ""
    requires replies == [] || replies[0].TransportError? || !IsOk(replies[0].reply)
    ensures var e := SubmitEffectOf(usernameField, passwordField, storage, replies);
      e.storage == storage && e.href == None && e.alerts == [FailedLoginMessage]
  {
  }

  /** An accepted login with a string role stores the token and the
      lower-cased role and routes by it; the stored role then passes the admin
      page's check exactly when the user was routed to the admin page. */
  lemma AcceptedLoginRoutesByRole(usernameField: string, passwordField: string,
                                  storage: map<string, Item>, replies: seq<Outcome>,
                                  data: map<string, Val>, role: string)
    requires Trim(usernameField) != "" && Trim(passwordField) != ""
    requires replies != [] && replies[0].Received? && IsOk(replies[0].reply)
    requires replies[0].reply.body == Some(Obj(data)) && "role" in data && data["role"] == Str(role)
    ensures var e := SubmitEffectOf(usernameField, passwordField, storage, replies);
      && GetText(e.storage, TokenKey) == Some(StringOf(Get(Obj(data), "accessToken")))
      && GetText(e.storage, AuthGuard.RoleKey) == Some(ToLower(role))
      && e.href == Some(RouteFor(Some(ToLower(role)))) && e.alerts == []
      && (AuthGuard.IsAdminRole(GetText(e.storage, AuthGuard.RoleKey)) <==> e.href == Some("admin.html"))
  {
    ToLowerIdempotent(role);
  }

  /** Routing ignores letter case: "Admin", "ADMIN" and "admin" all lead to
      the admin page, and only those spellings do. */
  lemma RouteIgnoresCase(role: string)
    ensures RouteFor(Some(ToLower(role))) == "admin.html" <==> ToLower(role) == "admin"
    ensures RouteFor(Some(ToLower(role))) == "home.html" <==> ToLower(role) == "user"
    ensures ToLower("ADMIN") == "admin" && ToLower("Admin") == "admin" && ToLower("uSeR") == "user"
  {
    assert ToLower("ADMIN") == "admin";
    assert ToLower("Admin") == "admin";
    assert ToLower("uSeR") == "user";
  }

  /** A role that is present but not a string makes `toLowerCase` throw after
      the token was stored: the user sees the failure alert yet holds a token. */
  lemma NonStringRoleKeepsToken(usernameField: string, passwordField: string,
                                storage: map<string, Item>, replies: seq<Outcome>, data: map<string, Val>)
    requires Trim(usernameField) != "" && Trim(passwordField) != ""
    requires replies != [] && replies[0].Received? && IsOk(replies[0].reply)
    requires replies[0].reply.body == Some(Obj(data)) && "role" in data
    requires !IsNullish(data["role"]) && !data["role"].Str?
    ensures var e := SubmitEffectOf(usernameField, passwordField, storage, replies);
      && TokenKey in e.storage && e.alerts == [FailedLoginMessage] && e.href == None
      && e.storage - {TokenKey} == storage - {TokenKey}
  {
  }

  /** The submit handler of the login form. */
  method Submit(w: Window, usernameField: string, passwordField: string)
    modifies w
    ensures var e := SubmitEffectOf(usernameField, passwordField, old(w.storage), old(w.replies));
      && w.storage == e.storage && w.replies == e.rest && w.sent == old(w.sent) + e.requests
      && w.href == (if e.href.Some? then e.href else old(w.href))
      && w.alerts == old(w.alerts) + e.alerts
  {
    var username := Trim(usernameField);
    var password := Trim(passwordField);
    if username == "" || password == "" {
      w.Alert(EmptyFieldsMessage);
      return;
    }
    var o := w.Fetch(LoginRequest(username, password));
    if o.TransportError? || !IsOk(o.reply) || o.reply.body.None? || IsNullish(o.reply.body.value) {
      w.Alert(FailedLoginMessage);
      return;
    }
    var data := o.reply.body.value;
    w.SetItem(TokenKey, Text(StringOf(Get(data, "accessToken"))));
    var role := Get(data, "role");
    if IsNullish(role) {
      w.SetItem(AuthGuard.RoleKey, Text("undefined"));
      w.Navigate(RouteFor(None));
    } else if !role.Str? {
      w.Alert(FailedLoginMessage);
    } else {
      var lowered := ToLower(role.s);
      w.SetItem(AuthGuard.RoleKey, Text(lowered));
      w.Navigate(RouteFor(Some(lowered)));
    }
  }
}
