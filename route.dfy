/**
 * The POST handler of the API route: resolve the base URL, obtain a client-credentials
 * token, map the action to one PayPal v1 request, send it, and wrap everything the
 * console shows (the request trace, the response trace, the token summary, a cURL
 * command) in one result envelope. The network and the clock are inputs.
 */
module Route {
  import opened Wrappers
  import opened Json
  import opened Encoding
  import opened Endpoint
  import opened Query
  import opened Actions
  import opened Curl

  /* ---------- what arrives ---------- */

  /** The fields the handler destructures from the inbound JSON body; None is `undefined`. */
  datatype RouteInput = RouteInput(
    clientId: Option<string>,
    clientSecret: Option<string>,
    environment: Option<string>,
    customBaseUrl: Option<string>,
    action: Option<string>,
    paymentId: Option<string>,
    saleId: Option<string>,
    authorizationId: Option<string>,
    orderId: Option<string>,
    captureId: Option<string>,
    refundId: Option<string>,
    payerId: Option<string>,
    requestBody: Option<Json>,
    patchBody: Option<Json>,
    queryParams: Option<ListQuery>)

  /** `${v}` for a field that is a string or undefined: the JSON interpolation of that string. */
  function Text(v: Option<string>): (r: string)
    ensures r == Interpolate(if v.Some? then Some(Str(v.value)) else None)
  {
    if v.Some? then v.value else "undefined"
  }

  /** What the action table reads: the ids as they appear in the URL templates. */
  function ParamsOf(inp: RouteInput): Params {
    Params(
      Ids(Text(inp.paymentId), Text(inp.saleId), Text(inp.authorizationId),
          Text(inp.orderId), Text(inp.captureId), Text(inp.refundId)),
      inp.payerId, inp.requestBody, inp.patchBody, inp.queryParams)
  }

  /* ---------- the network ---------- */

  /** A response as the handler consumes it; `json` is what `.json()` on its text gives. */
  datatype HttpReply = HttpReply(
    ok: bool,
    status: int,
    statusText: string,
    headers: map<string, string>,
    text: string,
    json: Result<Json, string>)

  /** What one `fetch` comes back with: a response, or the error it rejects with. */
  datatype Exchange = Delivered(reply: HttpReply) | Refused(message: string)

  /** One outgoing request: URL, method, headers in insertion order, and the body if one is attached. */
  datatype Fetch = Fetch(url: string, verb: string, headers: seq<Header>, body: Option<string>)

  /* ---------- what goes back ---------- */

  datatype HttpInfo = HttpInfo(
    verb: string, url: string, headers: seq<Header>, body: Option<Json>, curl: Option<string>)

  datatype HttpResponseInfo = HttpResponseInfo(
    status: int, statusText: string, headers: map<string, string>, body: Json, time: string)

  datatype TokenInfo = TokenInfo(
    scope: Option<Json>, tokenType: Option<Json>, appId: Option<Json>,
    expiresIn: Option<Json>, nonce: Option<Json>, authTime: string)

  /** The envelope; None fields are `undefined` and absent from the JSON reply. */
  datatype ApiResult = ApiResult(
    success: bool,
    error: Option<string>,
    httpRequest: Option<HttpInfo>,
    httpResponse: Option<HttpResponseInfo>,
    tokenInfo: Option<TokenInfo>,
    tokenResponse: Option<Json>)

  /** The HTTP status of the reply beside the envelope. */
  datatype Reply = Reply(status: int, result: ApiResult)

  /** The reply and every request the handler sent to obtain it, in order. */
  datatype Outcome = Outcome(reply: Reply, calls: seq<Fetch>)

  /* ---------- fixed texts ---------- */

  const FormContentType: string := "application/x-www-form-urlencoded"
  const JsonContentType: string := "application/json"
  const GrantBody: string := "grant_type=client_credentials"
  const MaskedBasic: string := "Basic <base64(clientId:clientSecret)>"
  const AuthFailedMessage: string := "Authentication failed"
  /** What the engine's TypeError says when `tokenData.access_token` is read on null. */
  const NullTokenMessage: string := "Cannot read properties of null (reading 'access_token')"

  /** `<n>ms` for a measured duration. */
  function Elapsed(ms: int): string {
    IntToString(ms) + "ms"
  }

  /* ---------- the token request ---------- */

  /** RFC 7617 Basic credentials: base64 of the UTF-8 bytes of `id:secret`. */
  function BasicCredentials(clientId: Option<string>, clientSecret: Option<string>): string {
    "Basic " + Base64(Utf8(Text(clientId) + ":" + Text(clientSecret)))
  }

  function TokenFetch(baseUrl: string, inp: RouteInput): Fetch {
    Fetch(TokenUrl(baseUrl), "POST",
          [("Content-Type", FormContentType), ("Authorization", BasicCredentials(inp.clientId, inp.clientSecret))],
          Some(GrantBody))
  }

  /** The trace of the token request, with the credentials replaced by a placeholder. */
  function TokenTrace(baseUrl: string): HttpInfo {
    HttpInfo("POST", TokenUrl(baseUrl),
             [("Content-Type", FormContentType), ("Authorization", MaskedBasic)],
             Some(Str(GrantBody)), None)
  }

  function ResponseTrace(r: HttpReply, body: Json, ms: int): HttpResponseInfo {
    HttpResponseInfo(r.status, r.statusText, r.headers, body, Elapsed(ms))
  }

  /* ---------- the four exits ---------- */

  /** The catch-all: status 500 with the thrown error's message. */
  function Crash(message: string): Reply {
    Reply(500, ApiResult(false, Some(message), None, None, None, None))
  }

  /** The short-circuit after a token response that is not ok (status 200, as NextResponse.json defaults). */
  function AuthFailed(baseUrl: string, r: HttpReply, tokenData: Json, tokenMs: int): Reply {
    Reply(200, ApiResult(false, Some(AuthFailedMessage), Some(TokenTrace(baseUrl)),
                         Some(ResponseTrace(r, tokenData, tokenMs)), None, Some(tokenData)))
  }

  function UnknownAction(action: Option<string>): Reply {
    Reply(400, ApiResult(false, Some("Unknown action: " + Text(action)), None, None, None, None))
  }

  function TokenInfoOf(tokenData: Json, tokenMs: int): TokenInfo {
    TokenInfo(Get(tokenData, "scope"), Get(tokenData, "token_type"), Get(tokenData, "app_id"),
              Get(tokenData, "expires_in"), Get(tokenData, "nonce"), Elapsed(tokenMs))
  }

  /* ---------- the API request ---------- */

  /** The header record the API request starts from, in insertion order. */
  function ApiHeaders(accessToken: string): seq<Header> {
    [("Content-Type", JsonContentType), ("Authorization", "Bearer " + accessToken)]
  }

  /** `headers[name] = value` on a record: overwrite in place when present, else append. */
  function SetHeader(hs: seq<Header>, name: string, value: string): (r: seq<Header>)
    ensures |r| == |hs| || |r| == |hs| + 1
    ensures forall i :: 0 <= i < |hs| ==> r[i].0 == hs[i].0
  {
    if hs == [] then [(name, value)]
    else if hs[0].0 == name then [(name, value)] + hs[1..]
    else [hs[0]] + SetHeader(hs[1..], name, value)
  }

  /** `{...headers, Authorization: "Bearer <access_token>"}`: same keys and order, Authorization masked. */
  function MaskAuthorization(hs: seq<Header>): seq<Header> {
    SetHeader(hs, "Authorization", MaskedBearer)
  }

  /** `JSON.stringify(v)`: undefined stays undefined, a value becomes its compact text. */
  function StringifyBody(v: Option<Json>): (r: Option<string>)
    ensures r.Some? <==> v.Some?
    ensures r.Some? ==> r.value != ""
  {
    if v.Some? then SerializeNonEmpty(v.value, "", ""); Some(Stringify(v.value)) else None
  }

  /** The body attached to the fetch: only a non-empty body on a non-GET request. */
  function Attached(verb: string, apiBody: Option<string>): Option<string> {
    if SendsBody(verb, apiBody) then apiBody else None
  }

  /** `s.includes(t)`. */
  predicate Includes(s: string, t: string)
    decreases |s|
  {
    if |s| < |t| then false
    else s[..|t|] == t || Includes(s[1..], t)
  }

  /** `headers.get("content-type") || ""`: names are held lower-case, as the Headers object keeps them. */
  function ContentType(r: HttpReply): string {
    if "content-type" in r.headers then r.headers["content-type"] else ""
  }

  /** The response body: `.json()` when the content type mentions json, else `.text()`. */
  function ResponseBody(r: HttpReply): Result<Json, string> {
    if Includes(ContentType(r), "json") then r.json else Success(Str(r.text))
  }

  /* ---------- the handler as one function ---------- */

  /** The URL, method and body value the table gives for an inbound request. */
  function Planned(a: Action, baseUrl: string, inp: RouteInput): (string, string, Option<Json>) {
    var p := ParamsOf(inp);
    (UrlFor(a, baseUrl, p), RowOf(a).verb, BodyFor(a, p))
  }

  /** Once the token is in hand: the action, the API call, and the full trace. */
  function ApiStage(inp: RouteInput, baseUrl: string, tf: Fetch, tokenData: Json,
                    tokenMs: int, api: Exchange, apiMs: int): Outcome
  {
    var act := if inp.action.Some? then Actions.Parse(inp.action.value) else None;
    if act.None? then Outcome(UnknownAction(inp.action), [tf])
    else
      var a := act.value;
      var (url, verb, bodyValue) := Planned(a, baseUrl, inp);
      var apiBody := StringifyBody(bodyValue);
      var headers := ApiHeaders(Interpolate(Get(tokenData, "access_token")));
      var af := Fetch(url, verb, headers, Attached(verb, apiBody));
      match api
      case Refused(m) => Outcome(Crash(m), [tf, af])
      case Delivered(ar) =>
        match ResponseBody(ar)
        case Failure(m) => Outcome(Crash(m), [tf, af])
        case Success(body) =>
          var request := HttpInfo(verb, url, MaskAuthorization(headers), bodyValue,
                                  Some(CurlCommand(verb, url, headers, apiBody)));
          Outcome(Reply(200, ApiResult(ar.ok, None, Some(request), Some(ResponseTrace(ar, body, apiMs)),
                                       Some(TokenInfoOf(tokenData, tokenMs)), None)),
                  [tf, af])
  }

  /**
   * The handler: `inbound` is `request.json()`, `token` and `api` what the two fetches
   * come back with, `tokenMs` and `apiMs` the measured durations.
   */
  function Handle(inbound: Result<RouteInput, string>, token: Exchange, api: Exchange,
                  tokenMs: int, apiMs: int): Outcome
  {
    match inbound
    case Failure(m) => Outcome(Crash(m), [])
    case Success(inp) =>
      var baseUrl := BaseUrl(Text(inp.environment), inp.customBaseUrl);
      var tf := TokenFetch(baseUrl, inp);
      match token
      case Refused(m) => Outcome(Crash(m), [tf])
      case Delivered(tr) =>
        match tr.json
        case Failure(m) => Outcome(Crash(m), [tf])
        case Success(tokenData) =>
          if !tr.ok then Outcome(AuthFailed(baseUrl, tr, tokenData, tokenMs), [tf])
          else if tokenData.Null? then Outcome(Crash(NullTokenMessage), [tf])
          else ApiStage(inp, baseUrl, tf, tokenData, tokenMs, api, apiMs)
  }

  /* ---------- properties of the handler ---------- */

  /** The conditions under which the handler holds a usable token response. */
  predicate TokenAccepted(inbound: Result<RouteInput, string>, token: Exchange) {
    inbound.Success? && token.Delivered? && token.reply.json.Success? && token.reply.ok &&
    !token.reply.json.value.Null?
  }

  /** The request the handler builds for a known action, as the table describes it. */
  function ApiFetch(a: Action, inp: RouteInput, tokenData: Json): Fetch {
    var baseUrl := BaseUrl(Text(inp.environment), inp.customBaseUrl);
    var p := ParamsOf(inp);
    var verb := RowOf(a).verb;
    Fetch(UrlFor(a, baseUrl, p), verb, ApiHeaders(Interpolate(Get(tokenData, "access_token"))),
          Attached(verb, StringifyBody(BodyFor(a, p))))
  }

  /**
   * Requests go out in a fixed order: first the token request and at most one API
   * request after it; a malformed inbound body sends nothing.
   */
  lemma CallsInOrder(inbound: Result<RouteInput, string>, token: Exchange, api: Exchange, tokenMs: int, apiMs: int)
    ensures var o := Handle(inbound, token, api, tokenMs, apiMs);
            |o.calls| <= 2 &&
            (inbound.Failure? <==> o.calls == []) &&
            (inbound.Success? ==>
               o.calls[0] == TokenFetch(BaseUrl(Text(inbound.value.environment), inbound.value.customBaseUrl), inbound.value)) &&
            (|o.calls| == 2 ==> TokenAccepted(inbound, token))
  {
  }

  /**
   * The token request: POST to `<base>/v1/oauth2/token`, form-encoded, with the
   * Basic credentials of `clientId:clientSecret`.
   */
  lemma TokenRequestShape(baseUrl: string, inp: RouteInput)
    ensures var f := TokenFetch(baseUrl, inp);
            f.url == baseUrl + "/v1/oauth2/token" && f.verb == "POST" && f.body == Some(GrantBody) &&
            f.headers == [("Content-Type", FormContentType),
                          ("Authorization", "Basic " + Base64(Utf8(Text(inp.clientId) + ":" + Text(inp.clientSecret))))]
  {
  }

  /**
   * The Basic credentials are `Basic ` and four base64 characters per started triple
   * of bytes of the UTF-8 encoding of `clientId:clientSecret`.
   */
  lemma CredentialsLength(clientId: Option<string>, clientSecret: Option<string>)
    ensures var creds := Utf8(Text(clientId) + ":" + Text(clientSecret));
            |BasicCredentials(clientId, clientSecret)| == 6 + 4 * ((|creds| + 2) / 3)
  {
    UserPassLength(Text(clientId) + ":" + Text(clientSecret));
  }

  lemma UserPassLength(userPass: string)
    ensures |"Basic " + Base64(Utf8(userPass))| == 6 + 4 * ((|Utf8(userPass)| + 2) / 3)
  {
    Base64Length(Utf8(userPass));
  }

  /**
   * A token response whose body is not JSON throws before `ok` is looked at: the
   * catch-all answers 500 with the parser's message, even for a failed login.
   */
  lemma TokenBodyNotJson(inbound: Result<RouteInput, string>, token: Exchange, api: Exchange,
                         tokenMs: int, apiMs: int)
    requires inbound.Success? && token.Delivered? && token.reply.json.Failure?
    ensures var o := Handle(inbound, token, api, tokenMs, apiMs);
            o.reply == Crash(token.reply.json.error) && o.reply.status == 500 && |o.calls| == 1
  {
  }

  /** A null token body makes the read of `access_token` throw: 500, and no API call. */
  lemma NullTokenBody(inbound: Result<RouteInput, string>, token: Exchange, api: Exchange,
                      tokenMs: int, apiMs: int)
    requires inbound.Success? && token.Delivered? && token.reply.json == Success(Null) && token.reply.ok
    ensures var o := Handle(inbound, token, api, tokenMs, apiMs);
            o.reply == Crash(NullTokenMessage) && |o.calls| == 1
  {
  }

  /**
   * A token response that parses but is not ok ends the request: no API call, success
   * false, "Authentication failed", the raw token body, and a trace whose credentials
   * are the placeholder.
   */
  lemma AuthFailureShortCircuits(inbound: Result<RouteInput, string>, token: Exchange, api: Exchange,
                                 tokenMs: int, apiMs: int)
    requires inbound.Success? && token.Delivered? && token.reply.json.Success? && !token.reply.ok
    ensures var o := Handle(inbound, token, api, tokenMs, apiMs);
            var inp := inbound.value;
            var baseUrl := BaseUrl(Text(inp.environment), inp.customBaseUrl);
            var r := o.reply.result;
            o.calls == [TokenFetch(baseUrl, inp)] &&
            o.reply.status == 200 && !r.success && r.error == Some(AuthFailedMessage) &&
            r.tokenResponse == Some(token.reply.json.value) &&
            r.httpRequest == Some(HttpInfo("POST", baseUrl + "/v1/oauth2/token",
                                           [("Content-Type", FormContentType), ("Authorization", MaskedBasic)],
                                           Some(Str(GrantBody)), None)) &&
            r.httpResponse == Some(ResponseTrace(token.reply, token.reply.json.value, tokenMs)) &&
            r.tokenInfo.None?
  {
  }

  /**
   * An action that is no `case` label is answered with 400 and its name, after the
   * token was obtained and without calling the API.
   */
  lemma UnknownActionAfterToken(inbound: Result<RouteInput, string>, token: Exchange, api: Exchange,
                                tokenMs: int, apiMs: int)
    requires TokenAccepted(inbound, token)
    requires inbound.value.action.None? || Actions.Parse(inbound.value.action.value).None?
    ensures var o := Handle(inbound, token, api, tokenMs, apiMs);
            var inp := inbound.value;
            o.reply == Reply(400, ApiResult(false, Some("Unknown action: " + Text(inp.action)), None, None, None, None)) &&
            o.calls == [TokenFetch(BaseUrl(Text(inp.environment), inp.customBaseUrl), inp)]
  {
  }

  /** A known action sends exactly the table's request, with the real token, as the second call. */
  lemma KnownActionSendsTableRequest(inbound: Result<RouteInput, string>, token: Exchange, api: Exchange,
                                     tokenMs: int, apiMs: int, a: Action)
    requires TokenAccepted(inbound, token)
    requires inbound.value.action == Some(Name(a))
    ensures var o := Handle(inbound, token, api, tokenMs, apiMs);
            |o.calls| == 2 && o.calls[1] == ApiFetch(a, inbound.value, token.reply.json.value)
  {
    ParseName(a);
  }

  /** The API request carries a body exactly when the method is not GET and the table yields a value. */
  lemma BodyAttachedOnlyWhenSent(a: Action, inp: RouteInput, tokenData: Json)
    ensures var f := ApiFetch(a, inp, tokenData);
            var body := BodyFor(a, ParamsOf(inp));
            (f.body.Some? <==> f.verb != "GET" && body.Some?) &&
            (f.body.Some? ==> f.body.value == Stringify(body.value))
  {
  }

  /** void_authorization and void_order always send the two characters `{}`. */
  lemma VoidRequestBody(a: Action, inp: RouteInput, tokenData: Json)
    requires a == VoidAuthorization || a == VoidOrder
    ensures ApiFetch(a, inp, tokenData).body == Some("{}")
  {
  }

  /**
   * On the full path the envelope has status 200, no error, `success` equal to the API
   * response's ok flag, the response trace, and the token summary.
   */
  lemma SuccessMirrorsOk(inbound: Result<RouteInput, string>, token: Exchange, api: Exchange,
                         tokenMs: int, apiMs: int, a: Action)
    requires TokenAccepted(inbound, token)
    requires inbound.value.action == Some(Name(a))
    requires api.Delivered? && ResponseBody(api.reply).Success?
    ensures var o := Handle(inbound, token, api, tokenMs, apiMs);
            var r := o.reply.result;
            o.reply.status == 200 && r.success == api.reply.ok && r.error.None? &&
            r.httpResponse == Some(ResponseTrace(api.reply, ResponseBody(api.reply).value, apiMs)) &&
            r.tokenInfo == Some(TokenInfoOf(token.reply.json.value, tokenMs)) && r.tokenResponse.None?
  {
    ParseName(a);
  }

  /** `success` is true only on the full path, after both requests, when the API said ok. */
  lemma SuccessNeedsBothCalls(inbound: Result<RouteInput, string>, token: Exchange, api: Exchange,
                              tokenMs: int, apiMs: int)
    ensures var o := Handle(inbound, token, api, tokenMs, apiMs);
            o.reply.result.success ==> o.reply.status == 200 && |o.calls| == 2 && api.Delivered? && api.reply.ok
    ensures var o := Handle(inbound, token, api, tokenMs, apiMs);
            o.reply.status in {200, 400, 500} && (o.reply.status != 200 ==> !o.reply.result.success)
  {
    if TokenAccepted(inbound, token) {
      var inp := inbound.value;
      var baseUrl := BaseUrl(Text(inp.environment), inp.customBaseUrl);
      ApiStageExits(inp, baseUrl, TokenFetch(baseUrl, inp), token.reply.json.value, tokenMs, api, apiMs);
    }
  }

  /** The exits after the token: 400 for an unknown action, 500 for a failed call, else 200 with the API's ok. */
  lemma ApiStageExits(inp: RouteInput, baseUrl: string, tf: Fetch, tokenData: Json,
                      tokenMs: int, api: Exchange, apiMs: int)
    ensures var o := ApiStage(inp, baseUrl, tf, tokenData, tokenMs, api, apiMs);
            o.reply.status in {200, 400, 500} && (o.reply.status != 200 ==> !o.reply.result.success) &&
            (o.reply.result.success ==> |o.calls| == 2 && api.Delivered? && api.reply.ok)
  {
  }

  /** Masking the API headers keeps their order and replaces only the bearer token. */
  lemma MaskedApiHeaders(accessToken: string)
    ensures MaskAuthorization(ApiHeaders(accessToken)) == [("Content-Type", JsonContentType), ("Authorization", MaskedBearer)]
  {
    assert SetHeader(ApiHeaders(accessToken)[1..], "Authorization", MaskedBearer) == [("Authorization", MaskedBearer)];
  }

  /** The request trace of the full path, in terms of the table and the access token. */
  lemma FullPathTrace(inbound: Result<RouteInput, string>, token: Exchange, api: Exchange,
                      tokenMs: int, apiMs: int, a: Action)
    requires TokenAccepted(inbound, token)
    requires inbound.value.action == Some(Name(a))
    requires api.Delivered? && ResponseBody(api.reply).Success?
    ensures var f := ApiFetch(a, inbound.value, token.reply.json.value);
            var body := BodyFor(a, ParamsOf(inbound.value));
            Handle(inbound, token, api, tokenMs, apiMs).reply.result.httpRequest ==
              Some(HttpInfo(f.verb, f.url, MaskAuthorization(f.headers), body,
                            Some(CurlCommand(f.verb, f.url, f.headers, StringifyBody(body)))))
  {
    ParseName(a);
  }

  /**
   * The trace never shows the token: its headers are fixed, and the cURL command is the
   * one any other token would give.
   */
  lemma TraceMasksToken(inbound: Result<RouteInput, string>, token: Exchange, api: Exchange,
                        tokenMs: int, apiMs: int, a: Action, otherToken: string)
    requires TokenAccepted(inbound, token)
    requires inbound.value.action == Some(Name(a))
    requires api.Delivered? && ResponseBody(api.reply).Success?
    ensures var o := Handle(inbound, token, api, tokenMs, apiMs);
            var f := ApiFetch(a, inbound.value, token.reply.json.value);
            var req := o.reply.result.httpRequest;
            req.Some? &&
            req.value.headers == [("Content-Type", JsonContentType), ("Authorization", MaskedBearer)] &&
            req.value.curl == Some(CurlCommand(f.verb, f.url, ApiHeaders(otherToken),
                                               StringifyBody(BodyFor(a, ParamsOf(inbound.value)))))
  {
    FullPathTrace(inbound, token, api, tokenMs, apiMs, a);
    var f := ApiFetch(a, inbound.value, token.reply.json.value);
    MaskedApiHeaders(Interpolate(Get(token.reply.json.value, "access_token")));
    assert SameButAuthorization(f.headers, ApiHeaders(otherToken));
    CommandIgnoresAuthorization(f.verb, f.url, f.headers, ApiHeaders(otherToken),
                                StringifyBody(BodyFor(a, ParamsOf(inbound.value))));
  }

  /** The trace's method, URL and body are the table's; the body is undefined when nothing was serialised. */
  lemma TraceBodyIsTableBody(inbound: Result<RouteInput, string>, token: Exchange, api: Exchange,
                             tokenMs: int, apiMs: int, a: Action)
    requires TokenAccepted(inbound, token)
    requires inbound.value.action == Some(Name(a))
    requires api.Delivered? && ResponseBody(api.reply).Success?
    ensures var req := Handle(inbound, token, api, tokenMs, apiMs).reply.result.httpRequest;
            req.Some? && req.value.body == BodyFor(a, ParamsOf(inbound.value)) &&
            req.value.verb == RowOf(a).verb &&
            req.value.url == UrlFor(a, BaseUrl(Text(inbound.value.environment), inbound.value.customBaseUrl),
                                    ParamsOf(inbound.value))
  {
    FullPathTrace(inbound, token, api, tokenMs, apiMs, a);
  }

  /** `t` occurs in `s` at position `i`. */
  predicate OccursAt(s: string, t: string, i: int) {
    0 <= i && i + |t| <= |s| && s[i..i + |t|] == t
  }

  /** `includes` holds exactly when `t` occurs somewhere in `s`. */
  lemma {:induction false} IncludesIffOccurs(s: string, t: string)
    ensures Includes(s, t) <==> exists i :: OccursAt(s, t, i)
    decreases |s|
  {
    if |s| < |t| {
      NoRoom(s, t);
    } else if s[..|t|] == t {
      assert OccursAt(s, t, 0);
    } else {
      IncludesIffOccurs(s[1..], t);
      if Includes(s[1..], t) {
        var i :| OccursAt(s[1..], t, i);
        OccursShift(s, t, i);
      } else {
        NotAtHead(s, t);
      }
    }
  }

  lemma NoRoom(s: string, t: string)
    requires |s| < |t|
    ensures !exists i :: OccursAt(s, t, i)
  {
  }

  /** An occurrence in the tail is one further along in `s`. */
  lemma OccursShift(s: string, t: string, i: int)
    requires |s| > 0 && OccursAt(s[1..], t, i)
    ensures OccursAt(s, t, i + 1)
  {
    assert s[i + 1..i + 1 + |t|] == s[1..][i..i + |t|];
  }

  /** With no match at the head and none in the tail, `t` occurs nowhere in `s`. */
  lemma NotAtHead(s: string, t: string)
    requires |s| >= |t| && s[..|t|] != t
    requires !exists i :: OccursAt(s[1..], t, i)
    ensures !exists i :: OccursAt(s, t, i)
  {
    forall i | 0 < i && OccursAt(s, t, i)
      ensures OccursAt(s[1..], t, i - 1)
    {
      assert s[i..i + |t|] == s[1..][i - 1..i - 1 + |t|];
    }
  }

  /** The response body is the parsed JSON exactly when "json" occurs in the content type, else the text. */
  lemma ResponseBodyChoice(r: HttpReply)
    ensures (exists i :: OccursAt(ContentType(r), "json", i)) ==> ResponseBody(r) == r.json
    ensures !(exists i :: OccursAt(ContentType(r), "json", i)) ==> ResponseBody(r) == Success(Str(r.text))
  {
    IncludesIffOccurs(ContentType(r), "json");
  }

  /** Header names that occur once each, as in a record. */
  predicate DistinctNames(hs: seq<Header>) {
    forall i, j :: 0 <= i < j < |hs| ==> hs[i].0 != hs[j].0
  }

  /**
   * On a record, `headers[name] = value` binds `name` to `value`, keeps every other
   * entry, adds nothing else, and keeps the names distinct.
   */
  lemma {:induction false} SetHeaderIsRecordUpdate(hs: seq<Header>, name: string, value: string)
    requires DistinctNames(hs)
    ensures var r := SetHeader(hs, name, value);
            DistinctNames(r) && (name, value) in r &&
            (forall h :: h in hs && h.0 != name ==> h in r) &&
            (forall h :: h in r && h.0 != name ==> h in hs) &&
            (forall h :: h in r && h.0 == name ==> h.1 == value)
  {
    if hs != [] && hs[0].0 != name {
      SetHeaderIsRecordUpdate(hs[1..], name, value);
      var r := SetHeader(hs, name, value);
      assert r == [hs[0]] + SetHeader(hs[1..], name, value);
      forall h | h in hs && h.0 != name ensures h in r {
        if h != hs[0] {
          assert h in hs[1..];
        }
      }
    } else if hs != [] {
      var r := SetHeader(hs, name, value);
      assert r[1..] == hs[1..];
      forall h | h in r && h.0 != name ensures h in hs {
        assert h in r[1..];
      }
      forall h | h in hs && h.0 != name ensures h in r {
        assert h in hs[1..];
      }
      assert forall k :: 1 <= k < |hs| ==> hs[k].0 != name;
    }
  }

  /* ---------- the handler as the route writes it ---------- */

  /** A template with an id, as the route spells it: one literal path, the id, the tail. */
  lemma ResourceUrl(a: Action, baseUrl: string, p: Params, path: string)
    requires RowOf(a).slot != NoId && a != ListPayments
    requires path == PaymentsPath + RowOf(a).resource + "/"
    ensures UrlFor(a, baseUrl, p) == baseUrl + path + IdFor(RowOf(a).slot, p.ids) + RowOf(a).tail
    ensures RowOf(a).tail == "" ==> UrlFor(a, baseUrl, p) == baseUrl + path + IdFor(RowOf(a).slot, p.ids)
  {
    var row := RowOf(a);
    var id := IdFor(row.slot, p.ids);
    assert UrlFor(a, baseUrl, p) == baseUrl + PaymentsPath + row.resource + ("/" + id) + row.tail + "";
    assert baseUrl + PaymentsPath + row.resource + ("/" + id) == baseUrl + path + id;
  }

  lemma CreateUrl(baseUrl: string, p: Params)
    ensures UrlFor(CreatePayment, baseUrl, p) == baseUrl + "/v1/payments/payment"
  {
    assert UrlFor(CreatePayment, baseUrl, p) == baseUrl + PaymentsPath + "payment" + "" + "" + "";
  }

  lemma ListUrl(baseUrl: string, p: Params, qs: string)
    requires qs == QueryString(p.queryParams)
    ensures UrlFor(ListPayments, baseUrl, p) == baseUrl + "/v1/payments/payment" + (if qs != "" then "?" + qs else "")
  {
    assert UrlFor(ListPayments, baseUrl, p) == baseUrl + PaymentsPath + "payment" + "" + "" + QuerySuffix(p.queryParams);
  }

  /** The actions whose URL is under `/v1/payments/<resource>`. */
  predicate InFamily(name: string, resource: string) {
    Actions.Parse(name).Some? && RowOf(Actions.Parse(name).value).resource == resource
  }

  /** Every action belongs to exactly one resource family, so the `case` groups cover the `switch`. */
  lemma FamiliesCover(name: string)
    ensures Actions.Parse(name).Some? <==>
              InFamily(name, "payment") || InFamily(name, "sale") || InFamily(name, "authorization") ||
              InFamily(name, "orders") || InFamily(name, "capture") || InFamily(name, "refund")
  {
  }

  /** The `case` labels of a family are exactly its actions' names. */
  /** An action's own label selects it, in its own family. */
  lemma LabelSelects(a: Action)
    ensures InFamily(Name(a), RowOf(a).resource) && Actions.Parse(Name(a)) == Some(a)
  {
    ParseName(a);
  }

  lemma PaymentNames(name: string)
    ensures InFamily(name, "payment") ==> name == "create_payment" || name == "list_payments" || name == "show_payment" || name == "update_payment" || name == "execute_payment"
  {
    if InFamily(name, "payment") {
      var a := Actions.Parse(name).value;
      assert Name(a) == name;
      assert a == CreatePayment || a == ListPayments || a == ShowPayment || a == UpdatePayment || a == ExecutePayment;
    }
  }

  lemma SaleNames(name: string)
    ensures InFamily(name, "sale") ==> name == "show_sale" || name == "refund_sale"
  {
    if InFamily(name, "sale") {
      var a := Actions.Parse(name).value;
      assert Name(a) == name;
      assert a == ShowSale || a == RefundSale;
    }
  }

  lemma AuthorizationNames(name: string)
    ensures InFamily(name, "authorization") ==> name == "show_authorization" || name == "capture_authorization" || name == "void_authorization" || name == "reauthorize"
  {
    if InFamily(name, "authorization") {
      var a := Actions.Parse(name).value;
      assert Name(a) == name;
      assert a == ShowAuthorization || a == CaptureAuthorization || a == VoidAuthorization || a == Reauthorize;
    }
  }

  lemma OrderNames(name: string)
    ensures InFamily(name, "orders") ==> name == "show_order" || name == "capture_order" || name == "void_order" || name == "authorize_order"
  {
    if InFamily(name, "orders") {
      var a := Actions.Parse(name).value;
      assert Name(a) == name;
      assert a == ShowOrder || a == CaptureOrder || a == VoidOrder || a == AuthorizeOrder;
    }
  }

  lemma CaptureNames(name: string)
    ensures InFamily(name, "capture") ==> name == "show_capture" || name == "refund_capture"
  {
    if InFamily(name, "capture") {
      var a := Actions.Parse(name).value;
      assert Name(a) == name;
      assert a == ShowCapture || a == RefundCapture;
    }
  }

  lemma RefundNames(name: string)
    ensures InFamily(name, "refund") ==> name == "show_refund"
  {
    if InFamily(name, "refund") {
      var a := Actions.Parse(name).value;
      assert Name(a) == name;
      assert a == ShowRefund;
    }
  }

  /** The `case` labels of the payment actions. */
  method PaymentCases(name: string, baseUrl: string, inp: RouteInput, headers: seq<Header>)
    returns (matched: bool, url: string, verb: string, body: Option<Json>, hs: seq<Header>)
    requires |headers| > 0 && headers[0] == ("Content-Type", JsonContentType)
    ensures matched <==> InFamily(name, "payment")
    ensures matched ==> (url, verb, body) == Planned(Actions.Parse(name).value, baseUrl, inp)
    ensures hs == headers
  {
    PaymentNames(name);
    ghost var path := "/v1/payments/payment/";
    assert path == PaymentsPath + "payment" + "/";
    matched, url, verb, body := true, "", "GET", None;
    hs := headers;
    if name == "create_payment" {
      url := baseUrl + "/v1/payments/payment";
      verb := "POST";
      body := inp.requestBody;
      CreateUrl(baseUrl, ParamsOf(inp));
      LabelSelects(CreatePayment);
      assert (url, verb, body) == Planned(CreatePayment, baseUrl, inp);
    } else if name == "list_payments" {
      var qs := BuildListQuery(inp.queryParams);
      url := baseUrl + "/v1/payments/payment" + (if qs != "" then "?" + qs else "");
      verb := "GET";
      ListUrl(baseUrl, ParamsOf(inp), qs);
      LabelSelects(ListPayments);
      assert (url, verb, body) == Planned(ListPayments, baseUrl, inp);
    } else if name == "show_payment" {
      url := baseUrl + "/v1/payments/payment/" + Text(inp.paymentId);
      verb := "GET";
      ResourceUrl(ShowPayment, baseUrl, ParamsOf(inp), path);
      LabelSelects(ShowPayment);
      assert (url, verb, body) == Planned(ShowPayment, baseUrl, inp);
    } else if name == "update_payment" {
      url := baseUrl + "/v1/payments/payment/" + Text(inp.paymentId);
      verb := "PATCH";
      hs := SetHeader(hs, "Content-Type", JsonContentType);
      body := inp.patchBody;
      ResourceUrl(UpdatePayment, baseUrl, ParamsOf(inp), path);
      LabelSelects(UpdatePayment);
      assert (url, verb, body) == Planned(UpdatePayment, baseUrl, inp);
    } else if name == "execute_payment" {
      url := baseUrl + "/v1/payments/payment/" + Text(inp.paymentId) + "/execute";
      verb := "POST";
      body := if Present(inp.requestBody) then inp.requestBody else Some(PayerObject(inp.payerId));
      ResourceUrl(ExecutePayment, baseUrl, ParamsOf(inp), path);
      LabelSelects(ExecutePayment);
      assert (url, verb, body) == Planned(ExecutePayment, baseUrl, inp);
    } else {
      matched := false;
    }
  }

  /** The `case` labels of the sale actions. */
  method SaleCases(name: string, baseUrl: string, inp: RouteInput)
    returns (matched: bool, url: string, verb: string, body: Option<Json>)
    ensures matched <==> InFamily(name, "sale")
    ensures matched ==> (url, verb, body) == Planned(Actions.Parse(name).value, baseUrl, inp)
  {
    SaleNames(name);
    ghost var path := "/v1/payments/sale/";
    assert path == PaymentsPath + "sale" + "/";
    matched, url, verb, body := true, "", "GET", None;
    if name == "show_sale" {
      url := baseUrl + "/v1/payments/sale/" + Text(inp.saleId);
      verb := "GET";
      ResourceUrl(ShowSale, baseUrl, ParamsOf(inp), path);
      LabelSelects(ShowSale);
      assert (url, verb, body) == Planned(ShowSale, baseUrl, inp);
    } else if name == "refund_sale" {
      url := baseUrl + "/v1/payments/sale/" + Text(inp.saleId) + "/refund";
      verb := "POST";
      body := if Present(inp.requestBody) then inp.requestBody else Some(Obj([]));
      ResourceUrl(RefundSale, baseUrl, ParamsOf(inp), path);
      LabelSelects(RefundSale);
      assert (url, verb, body) == Planned(RefundSale, baseUrl, inp);
    } else {
      matched := false;
    }
  }

  /** The `case` labels of the authorization actions. */
  method AuthorizationCases(name: string, baseUrl: string, inp: RouteInput)
    returns (matched: bool, url: string, verb: string, body: Option<Json>)
    ensures matched <==> InFamily(name, "authorization")
    ensures matched ==> (url, verb, body) == Planned(Actions.Parse(name).value, baseUrl, inp)
  {
    AuthorizationNames(name);
    ghost var path := "/v1/payments/authorization/";
    assert path == PaymentsPath + "authorization" + "/";
    matched, url, verb, body := true, "", "GET", None;
    if name == "show_authorization" {
      url := baseUrl + "/v1/payments/authorization/" + Text(inp.authorizationId);
      verb := "GET";
      ResourceUrl(ShowAuthorization, baseUrl, ParamsOf(inp), path);
      LabelSelects(ShowAuthorization);
      assert (url, verb, body) == Planned(ShowAuthorization, baseUrl, inp);
    } else if name == "capture_authorization" {
      url := baseUrl + "/v1/payments/authorization/" + Text(inp.authorizationId) + "/capture";
      verb := "POST";
      body := inp.requestBody;
      ResourceUrl(CaptureAuthorization, baseUrl, ParamsOf(inp), path);
      LabelSelects(CaptureAuthorization);
      assert (url, verb, body) == Planned(CaptureAuthorization, baseUrl, inp);
    } else if name == "void_authorization" {
      url := baseUrl + "/v1/payments/authorization/" + Text(inp.authorizationId) + "/void";
      verb := "POST";
      body := Some(Obj([]));
      ResourceUrl(VoidAuthorization, baseUrl, ParamsOf(inp), path);
      LabelSelects(VoidAuthorization);
      assert (url, verb, body) == Planned(VoidAuthorization, baseUrl, inp);
    } else if name == "reauthorize" {
      url := baseUrl + "/v1/payments/authorization/" + Text(inp.authorizationId) + "/reauthorize";
      verb := "POST";
      body := inp.requestBody;
      ResourceUrl(Reauthorize, baseUrl, ParamsOf(inp), path);
      LabelSelects(Reauthorize);
      assert (url, verb, body) == Planned(Reauthorize, baseUrl, inp);
    } else {
      matched := false;
    }
  }

  /** The `case` labels of the order actions. */
  method OrderCases(name: string, baseUrl: string, inp: RouteInput)
    returns (matched: bool, url: string, verb: string, body: Option<Json>)
    ensures matched <==> InFamily(name, "orders")
    ensures matched ==> (url, verb, body) == Planned(Actions.Parse(name).value, baseUrl, inp)
  {
    OrderNames(name);
    ghost var path := "/v1/payments/orders/";
    assert path == PaymentsPath + "orders" + "/";
    matched, url, verb, body := true, "", "GET", None;
    if name == "show_order" {
      url := baseUrl + "/v1/payments/orders/" + Text(inp.orderId);
      verb := "GET";
      ResourceUrl(ShowOrder, baseUrl, ParamsOf(inp), path);
      LabelSelects(ShowOrder);
      assert (url, verb, body) == Planned(ShowOrder, baseUrl, inp);
    } else if name == "capture_order" {
      url := baseUrl + "/v1/payments/orders/" + Text(inp.orderId) + "/capture";
      verb := "POST";
      body := inp.requestBody;
      ResourceUrl(CaptureOrder, baseUrl, ParamsOf(inp), path);
      LabelSelects(CaptureOrder);
      assert (url, verb, body) == Planned(CaptureOrder, baseUrl, inp);
    } else if name == "void_order" {
      url := baseUrl + "/v1/payments/orders/" + Text(inp.orderId) + "/do-void";
      verb := "POST";
      body := Some(Obj([]));
      ResourceUrl(VoidOrder, baseUrl, ParamsOf(inp), path);
      LabelSelects(VoidOrder);
      assert (url, verb, body) == Planned(VoidOrder, baseUrl, inp);
    } else if name == "authorize_order" {
      url := baseUrl + "/v1/payments/orders/" + Text(inp.orderId) + "/authorize";
      verb := "POST";
      body := inp.requestBody;
      ResourceUrl(AuthorizeOrder, baseUrl, ParamsOf(inp), path);
      LabelSelects(AuthorizeOrder);
      assert (url, verb, body) == Planned(AuthorizeOrder, baseUrl, inp);
    } else {
      matched := false;
    }
  }

  /** The `case` labels of the capture actions. */
  method CaptureCases(name: string, baseUrl: string, inp: RouteInput)
    returns (matched: bool, url: string, verb: string, body: Option<Json>)
    ensures matched <==> InFamily(name, "capture")
    ensures matched ==> (url, verb, body) == Planned(Actions.Parse(name).value, baseUrl, inp)
  {
    CaptureNames(name);
    ghost var path := "/v1/payments/capture/";
    assert path == PaymentsPath + "capture" + "/";
    matched, url, verb, body := true, "", "GET", None;
    if name == "show_capture" {
      url := baseUrl + "/v1/payments/capture/" + Text(inp.captureId);
      verb := "GET";
      ResourceUrl(ShowCapture, baseUrl, ParamsOf(inp), path);
      LabelSelects(ShowCapture);
      assert (url, verb, body) == Planned(ShowCapture, baseUrl, inp);
    } else if name == "refund_capture" {
      url := baseUrl + "/v1/payments/capture/" + Text(inp.captureId) + "/refund";
      verb := "POST";
      body := if Present(inp.requestBody) then inp.requestBody else Some(Obj([]));
      ResourceUrl(RefundCapture, baseUrl, ParamsOf(inp), path);
      LabelSelects(RefundCapture);
      assert (url, verb, body) == Planned(RefundCapture, baseUrl, inp);
    } else {
      matched := false;
    }
  }

  /** The `case` labels of the refund actions. */
  method RefundCases(name: string, baseUrl: string, inp: RouteInput)
    returns (matched: bool, url: string, verb: string, body: Option<Json>)
    ensures matched <==> InFamily(name, "refund")
    ensures matched ==> (url, verb, body) == Planned(Actions.Parse(name).value, baseUrl, inp)
  {
    RefundNames(name);
    ghost var path := "/v1/payments/refund/";
    assert path == PaymentsPath + "refund" + "/";
    matched, url, verb, body := true, "", "GET", None;
    if name == "show_refund" {
      url := baseUrl + "/v1/payments/refund/" + Text(inp.refundId);
      verb := "GET";
      ResourceUrl(ShowRefund, baseUrl, ParamsOf(inp), path);
      LabelSelects(ShowRefund);
      assert (url, verb, body) == Planned(ShowRefund, baseUrl, inp);
    } else {
      matched := false;
    }
  }

  /**
   * The `switch`: from the action name, assign the URL, the method and the body,
   * starting from the header record `{Content-Type, Authorization}`; the body value
   * is then serialised with `JSON.stringify`. The cases are tried family by family;
   * `known` is false when the `default` label is reached.
   */
  method BuildRequest(action: Option<string>, baseUrl: string, inp: RouteInput, accessToken: string)
    returns (known: bool, url: string, verb: string, bodyValue: Option<Json>, apiBody: Option<string>,
             headers: seq<Header>)
    ensures known <==> action.Some? && Actions.Parse(action.value).Some?
    ensures known ==> (url, verb, bodyValue) == Planned(Actions.Parse(action.value).value, baseUrl, inp)
    ensures apiBody == StringifyBody(bodyValue)
    ensures headers == ApiHeaders(accessToken)
  {
    headers := [("Content-Type", JsonContentType), ("Authorization", "Bearer " + accessToken)];
    if action.None? {
      return false, "", "GET", None, None, headers;
    }
    var name := action.value;
    FamiliesCover(name);
    known, url, verb, bodyValue, headers := PaymentCases(name, baseUrl, inp, headers);
    if !known {
      known, url, verb, bodyValue := SaleCases(name, baseUrl, inp);
    }
    if !known {
      known, url, verb, bodyValue := AuthorizationCases(name, baseUrl, inp);
    }
    if !known {
      known, url, verb, bodyValue := OrderCases(name, baseUrl, inp);
    }
    if !known {
      known, url, verb, bodyValue := CaptureCases(name, baseUrl, inp);
    }
    if !known {
      known, url, verb, bodyValue := RefundCases(name, baseUrl, inp);
    }
    apiBody := StringifyBody(bodyValue);
  }

  /**
   * The handler step by step: each `return` is one exit of the route, `calls` grows by
   * one request per `fetch`, and a thrown error becomes the catch-all reply.
   */
  method Post(inbound: Result<RouteInput, string>, token: Exchange, api: Exchange, tokenMs: int, apiMs: int)
    returns (reply: Reply, calls: seq<Fetch>)
    ensures Outcome(reply, calls) == Handle(inbound, token, api, tokenMs, apiMs)
  {
    calls := [];
    if inbound.Failure? {
      return Crash(inbound.error), calls;
    }
    var inp := inbound.value;
    var baseUrl := BaseUrl(Text(inp.environment), inp.customBaseUrl);

    calls := calls + [TokenFetch(baseUrl, inp)];
    if token.Refused? {
      return Crash(token.message), calls;
    }
    var tokenRes := token.reply;
    if tokenRes.json.Failure? {
      return Crash(tokenRes.json.error), calls;
    }
    var tokenData := tokenRes.json.value;
    if !tokenRes.ok {
      return AuthFailed(baseUrl, tokenRes, tokenData, tokenMs), calls;
    }
    if tokenData.Null? {
      return Crash(NullTokenMessage), calls;
    }
    reply, calls := CallApi(inp, baseUrl, calls[0], tokenData, tokenMs, api, apiMs);
  }

  /** From the access token on: the `switch`, the API `fetch`, the response body and the trace. */
  method CallApi(inp: RouteInput, baseUrl: string, tokenRequest: Fetch, tokenData: Json, tokenMs: int,
                 api: Exchange, apiMs: int)
    returns (reply: Reply, calls: seq<Fetch>)
    ensures Outcome(reply, calls) == ApiStage(inp, baseUrl, tokenRequest, tokenData, tokenMs, api, apiMs)
  {
    calls := [tokenRequest];
    var accessToken := Interpolate(Get(tokenData, "access_token"));

    var known, url, verb, bodyValue, apiBody, headers := BuildRequest(inp.action, baseUrl, inp, accessToken);
    if !known {
      return UnknownAction(inp.action), calls;
    }

    var fetchBody: Option<string> := None;
    if apiBody.Some? && apiBody.value != "" && verb != "GET" {
      fetchBody := apiBody;
    }
    calls := calls + [Fetch(url, verb, headers, fetchBody)];
    if api.Refused? {
      return Crash(api.message), calls;
    }
    var apiRes := api.reply;

    var responseBody: Json;
    var contentType := ContentType(apiRes);
    if Includes(contentType, "json") {
      if apiRes.json.Failure? {
        return Crash(apiRes.json.error), calls;
      }
      responseBody := apiRes.json.value;
    } else {
      responseBody := Str(apiRes.text);
    }

    var curlCmd := BuildCurl(verb, url, headers, apiBody);
    var request := HttpInfo(verb, url, MaskAuthorization(headers), bodyValue, Some(curlCmd));
    reply := Reply(200, ApiResult(apiRes.ok, None, Some(request), Some(ResponseTrace(apiRes, responseBody, apiMs)),
                                  Some(TokenInfoOf(tokenData, tokenMs)), None));
  }
}
