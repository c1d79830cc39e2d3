/** The authenticated request gateway of jwtFetch.js: the access-token expiry
    test, the refresh call, and `apiFetch`, which attaches the bearer token,
    refreshes it when it is about to expire, and retries once on 401. */
module JwtFetch {
  import opened Js
  import opened Browser

  /** The `localStorage` key of the access token. */
  const TokenKey := "jwt_token"
  /** The refresh endpoint the gateway calls (same origin). */
  const RefreshUrl := "/api/auth/refresh"
  /** A token with less than this many seconds left counts as expired. */
  const ExpiryMarginSeconds := 60

  // ---------------------------------------------------------------------------
  // Expiry test

  /** The second dot-separated segment of a token, if it has one. */
  function PayloadSegment(token: string): Option<string> {
    var parts := Split(token, '.');
    if |parts| >= 2 then Some(parts[1]) else None
  }

  /** The base64url alphabet of RFC 4648 section 5 mapped onto the base64
      alphabet of section 4: '-' becomes '+' and '_' becomes '/'. */
  function UrlToStd(s: string): string {
    ReplaceAll(ReplaceAll(s, '-', "+"), '_', "/")
  }

  predicate IsUrlSafeChar(c: char) {
    'A' <= c <= 'Z' || 'a' <= c <= 'z' || '0' <= c <= '9' || c == '-' || c == '_' || c == '='
  }

  predicate IsStdChar(c: char) {
    'A' <= c <= 'Z' || 'a' <= c <= 'z' || '0' <= c <= '9' || c == '+' || c == '/' || c == '='
  }

  /** The alphabet swap maps each character on its own and keeps the length;
      a base64url segment becomes a base64 string. */
  lemma UrlToStdAt(s: string)
    ensures |UrlToStd(s)| == |s|
    ensures forall i :: 0 <= i < |s| ==>
      UrlToStd(s)[i] == (if s[i] == '-' then '+' else if s[i] == '_' then '/' else s[i])
    ensures (forall i :: 0 <= i < |s| ==> IsUrlSafeChar(s[i])) ==>
      forall i :: 0 <= i < |s| ==> IsStdChar(UrlToStd(s)[i])
  {
    ReplaceCharAt(s, '-', '+');
    ReplaceCharAt(ReplaceAll(s, '-', "+"), '_', '/');
  }

  /** `isJwtExpired(token)` at wall-clock time `nowMs` (milliseconds). `decode`
      is `atob` followed by `JSON.parse`; `None` is either of them throwing. */
  function IsJwtExpired(token: Option<string>, nowMs: int, decode: string -> Option<Val>): bool {
    if token.None? || token.value == "" then true
    else
      match PayloadSegment(token.value)
      case None => true
      case Some(p) =>
        if p == "" then true
        else
          match decode(UrlToStd(p))
          case None => true
          case Some(payload) =>
            // reading `exp` of null throws, and the throw counts as expired
            IsNullish(payload) || LessThanNumber(Get(payload, "exp"), nowMs / 1000 + ExpiryMarginSeconds)
  }

  /** A compact JWS `header.payload.signature` has `payload` as its payload segment. */
  lemma PayloadOfCompactToken(header: string, payload: string, signature: string)
    requires '.' !in header && '.' !in payload && '.' !in signature
    ensures PayloadSegment(header + "." + payload + "." + signature) == Some(payload)
  {
    SplitWithoutSeparator(signature, '.');
    SplitAfterFirst(payload, '.', signature);
    assert header + "." + payload + "." + signature == header + ['.'] + (payload + ['.'] + signature);
    SplitAfterFirst(header, '.', payload + ['.'] + signature);
  }

  /** A missing or empty token, one without a dot, or one whose second
      segment is empty ("a.", "a..b") is expired. */
  lemma MalformedTokenIsExpired(token: Option<string>, nowMs: int, decode: string -> Option<Val>)
    requires token.None? || '.' !in token.value
             || exists h, rest :: '.' !in h && token.value == h + "." + rest && (rest == "" || rest[0] == '.')
    ensures IsJwtExpired(token, nowMs, decode)
  {
    if token.Some? {
      if '.' !in token.value {
        SplitWithoutSeparator(token.value, '.');
      } else {
        var h, rest :| '.' !in h && token.value == h + "." + rest && (rest == "" || rest[0] == '.');
        EmptyPayloadSegment(h, rest);
      }
    }
  }

  /** A header followed by a dot and nothing or another dot has an empty
      payload segment. */
  lemma EmptyPayloadSegment(h: string, rest: string)
    requires '.' !in h && (rest == "" || rest[0] == '.')
    ensures PayloadSegment(h + "." + rest) == Some("")
  {
    SplitAfterFirst(h, '.', rest);
    if rest != "" {
      assert [rest[0]] + rest[1..] == rest;
    }
  }

  /** A payload segment that does not decode, or that decodes to null, makes the
      token expired. */
  lemma UndecodablePayloadIsExpired(token: string, p: string, nowMs: int, decode: string -> Option<Val>)
    requires PayloadSegment(token) == Some(p)
    requires decode(UrlToStd(p)) == None || decode(UrlToStd(p)) == Some(Null)
    ensures IsJwtExpired(Some(token), nowMs, decode)
  {
  }

  /** With a numeric `exp` claim the token is expired exactly when fewer than
      60 seconds are left: `exp == now + 60` is still valid, `exp == now + 59`
      is not. */
  lemma ExpiryBoundary(header: string, p: string, signature: string, nowMs: int,
                       decode: string -> Option<Val>, claims: map<string, Val>, exp: int)
    requires '.' !in header && '.' !in p && '.' !in signature && p != ""
    requires decode(UrlToStd(p)) == Some(Obj(claims)) && "exp" in claims && claims["exp"] == Num(exp)
    ensures IsJwtExpired(Some(header + "." + p + "." + signature), nowMs, decode)
        <==> exp < nowMs / 1000 + ExpiryMarginSeconds
    ensures exp == nowMs / 1000 + 60 ==> !IsJwtExpired(Some(header + "." + p + "." + signature), nowMs, decode)
    ensures exp == nowMs / 1000 + 59 ==> IsJwtExpired(Some(header + "." + p + "." + signature), nowMs, decode)
  {
    PayloadOfCompactToken(header, p, signature);
  }

  /** A payload object without an `exp` claim never expires: `undefined < n`
      is false. */
  lemma NoExpClaimNeverExpires(header: string, p: string, signature: string, nowMs: int,
                               decode: string -> Option<Val>, claims: map<string, Val>)
    requires '.' !in header && '.' !in p && '.' !in signature && p != ""
    requires decode(UrlToStd(p)) == Some(Obj(claims)) && "exp" !in claims
    ensures !IsJwtExpired(Some(header + "." + p + "." + signature), nowMs, decode)
  {
    PayloadOfCompactToken(header, p, signature);
  }

  /** Expiry is monotone in time: a token expired now stays expired later. */
  lemma ExpiredStaysExpired(token: Option<string>, nowMs: int, laterMs: int, decode: string -> Option<Val>)
    requires nowMs <= laterMs
    requires IsJwtExpired(token, nowMs, decode)
    ensures IsJwtExpired(token, laterMs, decode)
  {
    SecondsMonotone(nowMs, laterMs);
    if token.Some? && token.value != "" {
      match PayloadSegment(token.value)
      case None =>
      case Some(p) =>
        if p != "" {
          match decode(UrlToStd(p))
          case None =>
          case Some(payload) =>
            if !IsNullish(payload) {
              LessThanMonotone(Get(payload, "exp"), nowMs / 1000 + 60, laterMs / 1000 + 60);
            }
        }
    }
  }

  /** Whole seconds since the epoch never go back as milliseconds advance. */
  lemma SecondsMonotone(a: int, b: int)
    requires a <= b
    ensures a / 1000 <= b / 1000
  {
  }

  lemma LessThanMonotone(v: Val, x: int, y: int)
    requires x <= y && LessThanNumber(v, x)
    ensures LessThanNumber(v, y)
  {
  }

  // ---------------------------------------------------------------------------
  // Refresh

  /** What `refreshToken()` resolves to: the `accessToken` of the reply, or a
      rejection. */
  datatype Refreshed = Refreshed(token: Val) | RefreshFailed

  /** The effect of one refresh call: its result, the storage after it, the
      request it sent and the answers still to come. */
  datatype RefreshEffect = RefreshEffect(result: Refreshed, storage: map<string, Item>, request: Request, rest: seq<Outcome>)

  /** The Authorization value of a refresh call: the stored token, or "null"
      when there is none. */
  function StoredBearer(storage: map<string, Item>): string {
    "Bearer " + GetText(storage, TokenKey).GetOr("null")
  }

  function RefreshRequest(url: string, storage: map<string, Item>): Request {
    Request(url, "POST", map["Authorization" := StoredBearer(storage)], "include", None)
  }

  /** True when the answer to a refresh call yields a new token: the call
      completed, its status is 2xx, and its body is JSON other than null. */
  predicate RefreshSucceeds(o: Outcome) {
    o.Received? && IsOk(o.reply) && o.reply.body.Some? && !IsNullish(o.reply.body.value)
  }

  /** `refreshToken()` against endpoint `url`: a failure of any kind removes the
      stored token; a success stores `String(accessToken)`. */
  function RefreshEffectOf(url: string, storage: map<string, Item>, replies: seq<Outcome>): RefreshEffect {
    var o := NextOutcome(replies);
    if RefreshSucceeds(o) then
      var t := Get(o.reply.body.value, "accessToken");
      RefreshEffect(Refreshed(t), storage[TokenKey := Text(StringOf(t))], RefreshRequest(url, storage), RestOf(replies))
    else
      RefreshEffect(RefreshFailed, storage - {TokenKey}, RefreshRequest(url, storage), RestOf(replies))
  }

  /** A refresh fails exactly when the answer is not a 2xx JSON object; on
      failure the token is gone, on success it is the new one; no other key
      of storage changes, and the call sends the current token with cookies. */
  lemma RefreshContract(url: string, storage: map<string, Item>, replies: seq<Outcome>)
    ensures var e := RefreshEffectOf(url, storage, replies);
      && (e.result.RefreshFailed? <==> !RefreshSucceeds(NextOutcome(replies)))
      && (e.result.RefreshFailed? ==> TokenKey !in e.storage)
      && (e.result.Refreshed? ==> GetText(e.storage, TokenKey) == Some(StringOf(e.result.token)))
      && (forall k :: k != TokenKey ==> (k in e.storage <==> k in storage))
      && (forall k :: k != TokenKey && k in storage ==> e.storage[k] == storage[k])
      && e.request.url == url && e.request.verb == "POST" && e.request.credentials == "include"
      && e.request.headers["Authorization"] == StoredBearer(storage)
      && |e.rest| == if replies == [] then 0 else |replies| - 1
  {
  }

  /** `refreshToken()` against endpoint `url`, on the window's storage and network. */
  method RefreshAt(w: Window, url: string) returns (result: Refreshed)
    modifies w
    ensures var e := RefreshEffectOf(url, old(w.storage), old(w.replies));
      result == e.result && w.storage == e.storage && w.replies == e.rest
      && w.sent == old(w.sent) + [e.request]
    ensures w.href == old(w.href) && w.alerts == old(w.alerts)
  {
    var req := RefreshRequest(url, w.storage);
    var o := w.Fetch(req);
    if RefreshSucceeds(o) {
      var t := Get(o.reply.body.value, "accessToken");
      w.SetItem(TokenKey, Text(StringOf(t)));
      result := Refreshed(t);
    } else {
      w.RemoveItem(TokenKey);
      result := RefreshFailed;
    }
  }

  /** jwtFetch.js's `refreshToken()`. */
  method RefreshToken(w: Window) returns (result: Refreshed)
    modifies w
    ensures var e := RefreshEffectOf(RefreshUrl, old(w.storage), old(w.replies));
      result == e.result && w.storage == e.storage && w.replies == e.rest
      && w.sent == old(w.sent) + [e.request]
    ensures w.href == old(w.href) && w.alerts == old(w.alerts)
  {
    result := RefreshAt(w, RefreshUrl);
  }

  // ---------------------------------------------------------------------------
  // apiFetch

  /** The `init` object a caller hands to `apiFetch`, which writes into it. */
  class RequestInit {
    const verb: string
    const body: Option<Val>
    var headers: map<string, string>
    /** `init.credentials`; `None` until `apiFetch` sets it. */
    var credentials: Option<string>

    constructor (verb: string, body: Option<Val>, headers: map<string, string>, credentials: Option<string>)
      ensures this.verb == verb && this.body == body && this.headers == headers && this.credentials == credentials
    {
      this.verb := verb;
      this.body := body;
      this.headers := headers;
      this.credentials := credentials;
    }
  }

  /** Which endpoint each request of one `apiFetch` call went to. */
  datatype Call = RefreshCall | CallerCall

  /** What `apiFetch` resolves to: a response, or a rejection. */
  datatype Fetched = Returned(reply: Reply) | Threw

  /** The effect of one `apiFetch` call: its result, the storage after it, the
      requests sent and whom each went to, the answers still to come, and what
      is left in `init.headers` and `init.credentials`. */
  datatype GatewayEffect = GatewayEffect(
    result: Fetched,
    storage: map<string, Item>,
    requests: seq<Request>,
    calls: seq<Call>,
    rest: seq<Outcome>,
    headers: map<string, string>,
    credentials: Option<string>)

  function CallerRequest(url: string, verb: string, body: Option<Val>, headers: map<string, string>, token: string): Request {
    Request(url, verb, headers["Authorization" := "Bearer " + token], "include", body)
  }

  /** From the first send onwards: send with `token`, and on 401 refresh once
      and send again. */
  function SendEffect(url: string, verb: string, body: Option<Val>, headers: map<string, string>, token: string,
                      storage: map<string, Item>, replies: seq<Outcome>): GatewayEffect
  {
    var req := CallerRequest(url, verb, body, headers, token);
    var o := NextOutcome(replies);
    if o.TransportError? then
      GatewayEffect(Threw, storage, [req], [CallerCall], RestOf(replies), req.headers, Some("include"))
    else if o.reply.status != 401 then
      GatewayEffect(Returned(o.reply), storage, [req], [CallerCall], RestOf(replies), req.headers, Some("include"))
    else
      var r := RefreshEffectOf(RefreshUrl, storage, RestOf(replies));
      match r.result
      case RefreshFailed =>
        GatewayEffect(Threw, r.storage, [req, r.request], [CallerCall, RefreshCall], r.rest, req.headers, Some("include"))
      case Refreshed(t) =>
        var again := CallerRequest(url, verb, body, req.headers, StringOf(t));
        var o2 := NextOutcome(r.rest);
        GatewayEffect(if o2.TransportError? then Threw else Returned(o2.reply), r.storage,
                      [req, r.request, again], [CallerCall, RefreshCall, CallerCall], RestOf(r.rest),
                      again.headers, Some("include"))
  }

  /** `apiFetch(url, init)` at time `nowMs`, as a function of the caller's
      `init` fields, the storage and the answers the network will give. */
  function ApiFetchEffectOf(url: string, verb: string, body: Option<Val>, headers: map<string, string>, credentials: Option<string>,
                            storage: map<string, Item>, replies: seq<Outcome>,
                            nowMs: int, decode: string -> Option<Val>): GatewayEffect
  {
    var stored := GetText(storage, TokenKey);
    if IsJwtExpired(stored, nowMs, decode) then
      var r := RefreshEffectOf(RefreshUrl, storage, replies);
      match r.result
      case RefreshFailed =>
        GatewayEffect(Threw, r.storage, [r.request], [RefreshCall], r.rest, headers, credentials)
      case Refreshed(t) =>
        var e := SendEffect(url, verb, body, headers, StringOf(t), r.storage, r.rest);
        e.(requests := [r.request] + e.requests, calls := [RefreshCall] + e.calls)
    else
      SendEffect(url, verb, body, headers, stored.value, storage, replies)
  }

  /** The call patterns from the first send onwards. */
  predicate SendCalls(calls: seq<Call>) {
    calls == [CallerCall] || calls == [CallerCall, RefreshCall] || calls == [CallerCall, RefreshCall, CallerCall]
  }

  /** True when `req` is a request to the caller's endpoint that carries the
      caller's verb and headers, a bearer token, and cookies. */
  predicate CarriesBearer(req: Request, url: string, verb: string, body: Option<Val>, headers: map<string, string>) {
    && req.url == url && req.verb == verb && req.body == body && req.credentials == "include"
    && "Authorization" in req.headers
    && |req.headers["Authorization"]| >= 7 && req.headers["Authorization"][..7] == "Bearer "
    && (forall k :: k in headers && k != "Authorization" ==> k in req.headers && req.headers[k] == headers[k])
  }

  /** From the first send onwards the calls follow `SendCalls`, one answer is
      consumed per request, and every caller request carries the bearer token. */
  lemma SendShape(url: string, verb: string, body: Option<Val>, headers: map<string, string>, token: string,
                  storage: map<string, Item>, replies: seq<Outcome>)
    ensures var e := SendEffect(url, verb, body, headers, token, storage, replies);
      && SendCalls(e.calls) && |e.requests| == |e.calls|
      && (|replies| >= |e.requests| ==> |e.rest| == |replies| - |e.requests|)
      && (forall i :: 0 <= i < |e.requests| && e.calls[i] == CallerCall ==> CarriesBearer(e.requests[i], url, verb, body, headers))
  {
    var req := CallerRequest(url, verb, body, headers, token);
    BearerRequest(url, verb, body, headers, headers, token);
    var o := NextOutcome(replies);
    if o.Received? && o.reply.status == 401 {
      var r := RefreshEffectOf(RefreshUrl, storage, RestOf(replies));
      if r.result.Refreshed? {
        BearerRequest(url, verb, body, headers, req.headers, StringOf(r.result.token));
      }
    }
  }

  /** A caller request built on headers that keep the caller's own carries
      the bearer token. */
  lemma BearerRequest(url: string, verb: string, body: Option<Val>, headers: map<string, string>,
                      base: map<string, string>, token: string)
    requires forall k :: k in headers && k != "Authorization" ==> k in base && base[k] == headers[k]
    ensures CarriesBearer(CallerRequest(url, verb, body, base, token), url, verb, body, headers)
  {
    assert ("Bearer " + token)[..7] == "Bearer ";
  }

  /** The call patterns `apiFetch` can produce: an optional refresh, the
      caller's request, and on 401 one more refresh and at most one resend. */
  predicate AllowedCalls(calls: seq<Call>) {
    || calls == [RefreshCall]
    || SendCalls(calls)
    || (|calls| >= 2 && calls[0] == RefreshCall && SendCalls(calls[1..]))
  }

  /** One `apiFetch` call sends at most four requests, at most two of them to
      the caller's endpoint and never two refreshes in a row; each request
      consumes one answer. */
  lemma RetryCeiling(url: string, verb: string, body: Option<Val>, headers: map<string, string>, credentials: Option<string>,
                     storage: map<string, Item>, replies: seq<Outcome>, nowMs: int, decode: string -> Option<Val>)
    ensures var e := ApiFetchEffectOf(url, verb, body, headers, credentials, storage, replies, nowMs, decode);
      && |e.requests| == |e.calls| <= 4
      && |Filter(e.calls, (c: Call) => c == CallerCall)| <= 2
      && (forall i :: 0 <= i < |e.calls| - 1 ==> !(e.calls[i] == RefreshCall && e.calls[i + 1] == RefreshCall))
  {
    CallerRequestsCarryBearer(url, verb, body, headers, credentials, storage, replies, nowMs, decode);
    AllowedCallsBounded(ApiFetchEffectOf(url, verb, body, headers, credentials, storage, replies, nowMs, decode).calls);
  }

  lemma AllowedCallsBounded(calls: seq<Call>)
    requires AllowedCalls(calls)
    ensures |calls| <= 4
    ensures |Filter(calls, (c: Call) => c == CallerCall)| <= 2
    ensures forall i :: 0 <= i < |calls| - 1 ==> !(calls[i] == RefreshCall && calls[i + 1] == RefreshCall)
  {
    var isCaller := (c: Call) => c == CallerCall;
    if calls == [RefreshCall] {
      assert Filter(calls, isCaller) == [];
    } else if SendCalls(calls) {
      SendCallsBounded(calls);
    } else {
      SendCallsBounded(calls[1..]);
      assert calls == [calls[0]] + calls[1..];
      assert Filter(calls, isCaller) == Filter(calls[1..], isCaller);
    }
  }

  lemma SendCallsBounded(calls: seq<Call>)
    requires SendCalls(calls)
    ensures |calls| <= 3 && calls[0] == CallerCall
    ensures |Filter(calls, (c: Call) => c == CallerCall)| <= 2
    ensures forall i :: 0 <= i < |calls| - 1 ==> !(calls[i] == RefreshCall && calls[i + 1] == RefreshCall)
  {
    var isCaller := (c: Call) => c == CallerCall;
    if calls == [CallerCall] {
      assert Filter(calls, isCaller) == [CallerCall];
    } else if calls == [CallerCall, RefreshCall] {
      assert Filter(calls, isCaller) == [CallerCall];
    } else {
      assert calls[1..] == [RefreshCall, CallerCall];
      assert calls[1..][1..] == [CallerCall];
      assert Filter(calls, isCaller) == [CallerCall, CallerCall];
    }
  }

  /** Every request to the caller's endpoint goes to `url` with the caller's
      verb, with cookies, with `Authorization: Bearer ...`, and with every other
      header the caller set. */
  lemma CallerRequestsCarryBearer(url: string, verb: string, body: Option<Val>, headers: map<string, string>, credentials: Option<string>,
                                  storage: map<string, Item>, replies: seq<Outcome>, nowMs: int, decode: string -> Option<Val>)
    ensures var e := ApiFetchEffectOf(url, verb, body, headers, credentials, storage, replies, nowMs, decode);
      && AllowedCalls(e.calls) && |e.requests| == |e.calls|
      && (|replies| >= |e.requests| ==> |e.rest| == |replies| - |e.requests|)
      && forall i :: 0 <= i < |e.requests| && e.calls[i] == CallerCall ==> CarriesBearer(e.requests[i], url, verb, body, headers)
  {
    var stored := GetText(storage, TokenKey);
    if IsJwtExpired(stored, nowMs, decode) {
      var r := RefreshEffectOf(RefreshUrl, storage, replies);
      if r.result.Refreshed? {
        var e := SendEffect(url, verb, body, headers, StringOf(r.result.token), r.storage, r.rest);
        SendShape(url, verb, body, headers, StringOf(r.result.token), r.storage, r.rest);
        RefreshFirstCarries(e, r.request, url, verb, body, headers);
      }
    } else {
      SendShape(url, verb, body, headers, stored.value, storage, replies);
    }
  }

  /** Putting a refresh in front of the requests keeps every caller request
      carrying the bearer token. */
  lemma RefreshFirstCarries(e: GatewayEffect, refresh: Request, url: string, verb: string, body: Option<Val>, headers: map<string, string>)
    requires |e.requests| == |e.calls| && SendCalls(e.calls)
    requires forall i :: 0 <= i < |e.requests| && e.calls[i] == CallerCall ==> CarriesBearer(e.requests[i], url, verb, body, headers)
    ensures var all := e.(requests := [refresh] + e.requests, calls := [RefreshCall] + e.calls);
      && AllowedCalls(all.calls) && |all.requests| == |all.calls|
      && forall i :: 0 <= i < |all.requests| && all.calls[i] == CallerCall ==> CarriesBearer(all.requests[i], url, verb, body, headers)
  {
    var all := e.(requests := [refresh] + e.requests, calls := [RefreshCall] + e.calls);
    assert all.calls[1..] == e.calls;
    forall i | 0 <= i < |all.requests| && all.calls[i] == CallerCall
      ensures CarriesBearer(all.requests[i], url, verb, body, headers)
    {
      assert i >= 1 && all.requests[i] == e.requests[i - 1] && e.calls[i - 1] == CallerCall;
    }
  }

  /** A stored token that is not about to expire is used as is: no refresh
      precedes the caller's request, and a non-401 answer is passed through
      with storage untouched. */
  lemma ValidTokenIsUsedDirectly(url: string, verb: string, body: Option<Val>, headers: map<string, string>, credentials: Option<string>,
                                 storage: map<string, Item>, replies: seq<Outcome>, nowMs: int, decode: string -> Option<Val>)
    requires !IsJwtExpired(GetText(storage, TokenKey), nowMs, decode)
    ensures var e := ApiFetchEffectOf(url, verb, body, headers, credentials, storage, replies, nowMs, decode);
      && e.calls[0] == CallerCall
      && e.requests[0] == CallerRequest(url, verb, body, headers, GetText(storage, TokenKey).value)
      && (replies != [] && replies[0].Received? && replies[0].reply.status != 401 ==>
            e.result == Returned(replies[0].reply) && e.storage == storage && |e.requests| == 1)
  {
  }

  /** An expired token whose refresh fails makes `apiFetch` reject before the
      caller's request is sent: the token is cleared and `init` is untouched. */
  lemma FailedFirstRefreshRejects(url: string, verb: string, body: Option<Val>, headers: map<string, string>, credentials: Option<string>,
                                  storage: map<string, Item>, replies: seq<Outcome>, nowMs: int, decode: string -> Option<Val>)
    requires IsJwtExpired(GetText(storage, TokenKey), nowMs, decode)
    requires !RefreshSucceeds(NextOutcome(replies))
    ensures var e := ApiFetchEffectOf(url, verb, body, headers, credentials, storage, replies, nowMs, decode);
      && e.result == Threw && e.calls == [RefreshCall] && TokenKey !in e.storage
      && e.headers == headers && e.credentials == credentials
  {
  }

  /** After a successful refresh the caller's request carries the new token,
      which is also what storage now holds. */
  lemma RefreshedTokenIsUsed(url: string, verb: string, body: Option<Val>, headers: map<string, string>, credentials: Option<string>,
                             storage: map<string, Item>, replies: seq<Outcome>, nowMs: int, decode: string -> Option<Val>)
    requires IsJwtExpired(GetText(storage, TokenKey), nowMs, decode)
    requires RefreshSucceeds(NextOutcome(replies))
    ensures var e := ApiFetchEffectOf(url, verb, body, headers, credentials, storage, replies, nowMs, decode);
      var t := StringOf(Get(replies[0].reply.body.value, "accessToken"));
      && e.calls[..2] == [RefreshCall, CallerCall]
      && e.requests[1].headers["Authorization"] == "Bearer " + t
      && (e.calls == [RefreshCall, CallerCall] ==> GetText(e.storage, TokenKey) == Some(t))
  {
    var r := RefreshEffectOf(RefreshUrl, storage, replies);
    var e := SendEffect(url, verb, body, headers, StringOf(r.result.token), r.storage, r.rest);
    assert e.calls[0] == CallerCall && e.requests[0] == CallerRequest(url, verb, body, headers, StringOf(r.result.token));
  }

  /** A 401 to the caller's request triggers exactly one refresh and one
      resend with the new token, whose answer is returned whatever its status:
      there is no second retry. */
  lemma UnauthorizedIsRetriedOnce(url: string, verb: string, body: Option<Val>, headers: map<string, string>, token: string,
                                  storage: map<string, Item>, replies: seq<Outcome>, newToken: Val, second: Reply)
    requires |replies| >= 3
    requires replies[0].Received? && replies[0].reply.status == 401
    requires RefreshSucceeds(replies[1]) && Get(replies[1].reply.body.value, "accessToken") == newToken
    requires replies[2] == Received(second)
    ensures var e := SendEffect(url, verb, body, headers, token, storage, replies);
      && e.calls == [CallerCall, RefreshCall, CallerCall]
      && e.result == Returned(second)
      && e.requests[2].headers["Authorization"] == "Bearer " + StringOf(newToken)
      && GetText(e.storage, TokenKey) == Some(StringOf(newToken))
      && e.rest == replies[3..]
  {
  }

  /** The part of `apiFetch` from the first send onwards, with `token` the
      token it settled on. */
  method Send(w: Window, url: string, init: RequestInit, token: string) returns (result: Fetched)
    modifies w, init
    ensures var e := SendEffect(url, init.verb, init.body, old(init.headers), token, old(w.storage), old(w.replies));
      && result == e.result && w.storage == e.storage && w.replies == e.rest
      && w.sent == old(w.sent) + e.requests
      && init.headers == e.headers && init.credentials == e.credentials
    ensures w.href == old(w.href) && w.alerts == old(w.alerts)
  {
    init.headers := init.headers["Authorization" := "Bearer " + token];
    init.credentials := Some("include");
    var o := w.Fetch(Request(url, init.verb, init.headers, "include", init.body));
    if o.TransportError? {
      return Threw;
    }
    if o.reply.status != 401 {
      return Returned(o.reply);
    }
    var r := RefreshToken(w);
    if r.RefreshFailed? {
      return Threw;
    }
    init.headers := init.headers["Authorization" := "Bearer " + StringOf(r.token)];
    var o2 := w.Fetch(Request(url, init.verb, init.headers, "include", init.body));
    result := if o2.TransportError? then Threw else Returned(o2.reply);
  }

  /** `apiFetch(url, init)`. */
  method ApiFetch(w: Window, url: string, init: RequestInit, nowMs: int, decode: string -> Option<Val>)
    returns (result: Fetched)
    modifies w, init
    ensures var e := ApiFetchEffectOf(url, init.verb, init.body, old(init.headers), old(init.credentials),
                                      old(w.storage), old(w.replies), nowMs, decode);
      && result == e.result && w.storage == e.storage && w.replies == e.rest
      && w.sent == old(w.sent) + e.requests
      && init.headers == e.headers && init.credentials == e.credentials
    ensures w.href == old(w.href) && w.alerts == old(w.alerts)
  {
    ghost var storage0, replies0 := w.storage, w.replies;
    var stored := GetText(w.storage, TokenKey);
    if IsJwtExpired(stored, nowMs, decode) {
      var r := RefreshToken(w);
      if r.RefreshFailed? {
        return Threw;
      }
      ghost var sent1 := w.sent;
      result := Send(w, url, init, StringOf(r.token));
      ghost var e := SendEffect(url, init.verb, init.body, old(init.headers), StringOf(r.token), RefreshEffectOf(RefreshUrl, storage0, replies0).storage, RefreshEffectOf(RefreshUrl, storage0, replies0).rest);
      assert w.sent == sent1 + e.requests;
    } else {
      result := Send(w, url, init, stored.value);
    }
  }
}
