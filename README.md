# PayPal v1 API tester: request builder and console, in Dafny

This project models the two halves of a small PayPal REST v1 tester.

**The server route** (`POST /api/paypal`) does the following:

- resolves the API origin: a custom URL with every trailing `/` removed, or the live or sandbox host;
- obtains an OAuth2 client-credentials token with HTTP Basic credentials;
- maps one of 18 action names to a method, a URL under `/v1/payments/...` and a body;
- builds the `list_payments` query string;
- calls the API;
- answers with an envelope. The envelope holds the API response, a request trace with the bearer token masked, a reproducible cURL command and a token summary.

The route has four exits:

- authentication failure;
- unknown action (400);
- the full trace;
- the catch-all (500).

**The client console's `executeAction` handler** does the following:

- checks that credentials are present;
- parses the editor text as the request body or as the patch document, for the actions that read one;
- builds the inbound request;
- keeps the reply;
- fills in the payment id and the sale, authorization, order and capture ids from the reply body;
- prepends a history entry, keeping at most 50.

The default-body effect of the console is modelled as well: choosing a different action resets the editor to that action's default body, and re-choosing the active action leaves the editor as it is.

Modules:

- `Wrappers`: Option and Result.
- `Json`: a parsed JSON value. It covers JavaScript truthiness, property reads (duplicate keys: the last one wins), `JSON.stringify` (compact and indented), `String()` coercion and template interpolation.
- `Encoding`: UTF-8, base64 (RFC 4648 section 4) and the application/x-www-form-urlencoded byte serializer of the WHATWG URL Standard (section 5.2).
- `Endpoint`: base URL resolution.
- `Actions`: the action table (method, URL template, id slot, body policy) and the case labels.
- `Query`: `URLSearchParams.set` and `toString`, and the `list_payments` query.
- `Curl`: the cURL loop.
- `Route`: the handler, written two ways:
  - `Handle` is a function describing every exit;
  - `Post` is an imperative method that follows the code's assignments and `switch` and is proved equal to `Handle`.
- `Console`: the client state is a class. Its methods update fields in place and carry field-level `modifies` frames. Extraction and the parse gate are loops and early returns; the history, the summary and the query object are functions.

External effects become inputs:

- Each `fetch` is an `Exchange`: a delivered reply (ok flag, status, status text, headers, raw text, and the result of `.json()` on that text) or the message it rejects with.
- `request.json()` on the inbound body is a `Result`.
- The measured durations are integer parameters.
- `JSON.parse` in the console is a function parameter.
- The reply the console receives, and the local time string, are parameters of `ExecuteAction`.

The route reads the token reply's body as JSON *before* it looks at the ok flag. So a failed login whose body is not JSON is answered by the catch-all (500, the parser's message), not by the "Authentication failed" envelope (`Route.TokenBodyNotJson`). The "Authentication failed" envelope itself goes out with HTTP status 200, the default of `NextResponse.json`.

## Model

| member | source | states |
|---|---|---|
| Endpoint.StripTrailingSlashes | app/api/paypal/route.ts:25 | the result is a prefix of the input, does not end in `/`, and only `/` characters were removed |
| Endpoint.StripUnique | app/api/paypal/route.ts:25 | any prefix with those three properties is exactly the stripped URL, so the regex removes the whole trailing run and nothing else |
| Endpoint.StripIdempotent | app/api/paypal/route.ts:25 | stripping twice gives the same URL as stripping once |
| Endpoint.BaseUrl | app/api/paypal/route.ts:24-28 | a non-empty override wins, with its trailing slashes removed; otherwise `live` gives `https://api-m.paypal.com` and any other environment gives the sandbox origin; the base URL never ends in `/` |
| Actions.Parse | app/api/paypal/route.ts:81-203 | a matched case label is the name of the action it selects |
| Actions.ParseName | app/api/paypal/route.ts:81-196 | every action's own name selects that action, so no label is shadowed |
| Actions.ParseUnknown | app/api/paypal/route.ts:198-202 | a string reaches `default` exactly when it is no action's name |
| Actions.MethodsUsed | app/api/paypal/route.ts:81-196 | only GET, POST and PATCH are used, and PATCH is used by update_payment alone |
| Actions.GetHasNoBody | app/api/paypal/route.ts:88-110 | a GET action never sets `apiBody`, whatever the caller sent |
| Actions.VoidSendsEmptyObject | app/api/paypal/route.ts:147-151 | void_authorization and void_order serialise `{}`, whatever `requestBody` is |
| Actions.RefundDefaultsToEmptyObject | app/api/paypal/route.ts:130-134 | refund_sale and refund_capture send a truthy `requestBody` as it is, and `{}` otherwise |
| Actions.ExecuteDefaultsToPayer | app/api/paypal/route.ts:119-123 | execute_payment sends a truthy `requestBody`; otherwise `{payer_id: payerId}`, which becomes `{}` when payerId is undefined |
| Actions.PatchOnlyForUpdate | app/api/paypal/route.ts:112-117 | update_payment sends exactly `patchBody`, and no other action's body depends on it |
| Actions.PassThroughRoundTrip | app/api/paypal/route.ts:82-86 | a pass-through action's body is the caller's body, and an undefined body stays undefined |
| Actions.IdInsertedVerbatim | app/api/paypal/route.ts:107-196 | the URL is the base, the fixed path for the resource, the id unchanged, then the fixed tail |
| Actions.UrlReadsOnlyItsId | app/api/paypal/route.ts:81-196 | the URL depends on the request only through the action's own id (and, for list_payments, the query) |
| Query.SetParam | app/api/paypal/route.ts:89-100 | `params.set` with a name not yet present appends that one pair; with a name present it leaves one pair of that name holding the new value and the other pairs in order (a case the route never reaches, since it sets seven distinct names once each) |
| Query.SerializePairs | app/api/paypal/route.ts:101 | `toString` is empty exactly when there are no pairs |
| Query.SetIfGiven | app/api/paypal/route.ts:90 | `if (value) params.set(name, value)` adds the pair exactly when the value is truthy |
| Query.BuildListQuery | app/api/paypal/route.ts:88-101 | the seven `if` statements yield the query string of the given filters, which is empty exactly when no pair was added |
| Query.QueryCarriesExactlyGivenFilters | app/api/paypal/route.ts:89-100 | a pair is in the query exactly when its key is one of the seven and that filter is truthy with that value |
| Query.QueryFollowsKeyOrder | app/api/paypal/route.ts:89-100 | the pairs appear in the order count, start_id, start_index, start_time, end_time, sort_by, sort_order |
| Query.QueryEmptyIffNothingGiven | app/api/paypal/route.ts:101-102 | the query string is empty, so no `?` is added, exactly when no filter is truthy |
| Query.ExampleEntries | app/api/paypal/route.ts:88-101 | a count and a start time alone give exactly those two pairs, count first |
| Query.ExampleTimeEncoding | app/api/paypal/route.ts:101 | a timestamp is serialised with its colons as `%3A` |
| Query.ExampleQueryString | app/api/paypal/route.ts:88-101 | a count of 5 and the start time `2024-01-01T00:00:00Z` give exactly `count=5&start_time=2024-01-01T00%3A00%3A00Z` |
| Query.EncodeColonJoined | app/api/paypal/route.ts:101 | between unreserved pieces, only the colons are escaped |
| Encoding.Utf8Char | app/api/paypal/route.ts:38 | a character is 1 to 4 UTF-8 bytes, one byte (itself) exactly when it is ASCII |
| Encoding.Base64Length | app/api/paypal/route.ts:38 | base64 gives four characters per started group of three bytes |
| Encoding.FormEncodeIsQuerySafe | app/api/paypal/route.ts:101 | a serialised name or value holds only unreserved characters, `+`, `%` and hex digits, and every `%` is followed by two upper-case hex digits, so it never holds `&`, `=`, `#`, `/`, a quote or a space |
| Encoding.FormEncodeUnreservedVerbatim | app/api/paypal/route.ts:101 | unreserved ASCII text is serialised unchanged |
| Encoding.FormEncodeAppend | app/api/paypal/route.ts:101 | serialisation distributes over concatenation |
| Json.LookupIsLastMember | app/api/paypal/route.ts:70 | a property read finds nothing exactly when no member has the key, and otherwise the last member with it |
| Json.GetIsLastMember | app/api/paypal/route.ts:253-257 | a property read gives undefined exactly when the value is not an object or no member has the key, and otherwise the value of the last member with that key |
| Json.SerializeNonEmpty | app/api/paypal/route.ts:207 | a stringified value is never empty, so a serialised body is always truthy |
| Json.CompactHasNoNewline | app/api/paypal/route.ts:229-231 | the compact body text holds no line break, so the `-d` argument stays on its line |
| Route.Text | app/api/paypal/route.ts:38 | a string-or-undefined field renders exactly as the general template-literal rendering of that field's JSON value (`undefined` when absent) |
| Route.SetHeader | app/api/paypal/route.ts:115 | assigning a header keeps every existing name in place and adds at most one entry |
| Route.SetHeaderIsRecordUpdate | app/api/paypal/route.ts:115 | on a record, the name is bound to the new value, every other entry is kept, nothing else is added, and the names stay distinct |
| Route.StringifyBody | app/api/paypal/route.ts:85 | `JSON.stringify` of undefined is undefined; of a value it is non-empty text |
| Route.CallsInOrder | app/api/paypal/route.ts:5-211 | at most two requests: none when the inbound body is malformed, otherwise the token request first; an API request only after an accepted token |
| Route.TokenRequestShape | app/api/paypal/route.ts:31-41 | the token request is a POST to `<base>/v1/oauth2/token` with body `grant_type=client_credentials`, headers Content-Type form-urlencoded then `Basic ` + base64 of the UTF-8 of `clientId:clientSecret` |
| Route.CredentialsLength | app/api/paypal/route.ts:36-38 | the Basic credentials are `Basic ` plus four base64 characters per started triple of credential bytes |
| Route.TokenBodyNotJson | app/api/paypal/route.ts:43-46 | a token body that is not JSON throws before the ok check: 500 with the parser's message, one request |
| Route.NullTokenBody | app/api/paypal/route.ts:70 | a null token body makes the `access_token` read throw: 500, no API request |
| Route.AuthFailureShortCircuits | app/api/paypal/route.ts:46-68 | a token reply that is not ok sends no API request and answers success false, "Authentication failed", the raw token body, the masked trace, and the token response trace with the reply's status, status text, headers, parsed body and `<n>ms` time |
| Route.UnknownActionAfterToken | app/api/paypal/route.ts:198-202 | an unknown action is answered with 400 and `Unknown action: <action>`, after the token request and without an API request |
| Route.KnownActionSendsTableRequest | app/api/paypal/route.ts:205-211 | a known action sends exactly the table's request, with the real bearer token, as the second request |
| Route.BodyAttachedOnlyWhenSent | app/api/paypal/route.ts:206-209 | a body is attached exactly when the method is not GET and the table yields a value, and it is that value's compact text |
| Route.VoidRequestBody | app/api/paypal/route.ts:170-174 | the void requests carry the two characters `{}` |
| Route.SuccessMirrorsOk | app/api/paypal/route.ts:233-260 | on the full path: status 200, no error, `success` equal to the API reply's ok flag, the response trace and the token summary |
| Route.SuccessNeedsBothCalls | app/api/paypal/route.ts:233-267 | `success` is true only after both requests and when the API said ok; the status is 200, 400 or 500, and anything but 200 has success false |
| Route.MaskedApiHeaders | app/api/paypal/route.ts:238-241 | the traced headers are Content-Type, then Authorization with the placeholder |
| Route.FullPathTrace | app/api/paypal/route.ts:235-244 | the request trace is the table's method, URL and body, the masked headers, and the cURL command of the real request |
| Route.TraceMasksToken | app/api/paypal/route.ts:223-241 | neither the traced headers nor the cURL command depend on the access token |
| Route.TraceBodyIsTableBody | app/api/paypal/route.ts:235-242 | the traced body is the table's body value, undefined when nothing was serialised |
| Route.IncludesIffOccurs | app/api/paypal/route.ts:216 | `includes` holds exactly when the text occurs at some position |
| Route.ResponseBodyChoice | app/api/paypal/route.ts:214-220 | the body is the parsed JSON exactly when "json" occurs in the content type, and otherwise the raw text |
| Route.FamiliesCover | app/api/paypal/route.ts:81-203 | every known action belongs to exactly one of the six resource groups the cases are tried in |
| Route.PaymentCases | app/api/paypal/route.ts:82-123 | the payment cases match exactly their five names and assign the table's URL, method and body; the header record is unchanged |
| Route.SaleCases | app/api/paypal/route.ts:125-134 | the sale cases match exactly their names and assign the table's URL, method and body |
| Route.AuthorizationCases | app/api/paypal/route.ts:136-157 | the same for the four authorization cases |
| Route.OrderCases | app/api/paypal/route.ts:159-180 | the same for the four order cases |
| Route.CaptureCases | app/api/paypal/route.ts:182-191 | the same for the two capture cases |
| Route.RefundCases | app/api/paypal/route.ts:193-196 | the same for show_refund |
| Route.BuildRequest | app/api/paypal/route.ts:72-203 | the `switch` is known exactly for an action name. It assigns the table's URL, method and body. `apiBody` is that body's serialisation, and the headers are Content-Type and the bearer token |
| Route.Post | app/api/paypal/route.ts:3-267 | the step-by-step handler gives the same reply and the same requests as `Handle` on every input |
| Route.CallApi | app/api/paypal/route.ts:70-260 | the part after the token gives the same reply and requests as `ApiStage` |
| Curl.BuildCurl | app/api/paypal/route.ts:223-231 | the loop yields `curl -X <method> '<url>'`, one `-H` line per header in order, then `-d` exactly for a non-empty body on a non-GET request |
| Curl.CommandIgnoresAuthorization | app/api/paypal/route.ts:224-231 | header lists that differ only in Authorization give the same command |
| Curl.LinesIgnoreAuthorization | app/api/paypal/route.ts:224-228 | the same for the header lines alone |
| Curl.GetCommandHasNoData | app/api/paypal/route.ts:229-231 | a GET command never carries `-d` |
| Console.DefaultBodyTextPresent | app/page.tsx:238-244 | the editor is pre-filled exactly for the actions whose route case reads a caller body or patch, and left empty for GET actions and the void actions |
| Console.TrimEmptyIffAllSpace | app/page.tsx:269 | `trim()` is empty exactly when every character is ECMAScript white space |
| Console.ParsedWhereRead | app/page.tsx:257-267 | the eight body actions are exactly those whose route case reads `requestBody`, and update_payment is the only one that reads `patchBody` |
| Console.Gate | app/page.tsx:269-286 | for a body action with non-blank text that parses, the parsed value is the body; for update_payment, the patch; otherwise neither is set; the gate fails exactly when such a parse fails |
| Console.OrUndefined | app/page.tsx:296 | `x \|\| undefined` never sends an empty string, and the text is recovered from it by reading undefined as empty |
| Console.ConsoleQueryEntries | app/page.tsx:307-315 | list_payments sends exactly the non-empty ones of count, start_id, start_time and end_time, in that order; other actions send no query |
| Console.PushHistory | app/page.tsx:354-357 | the new entry first, then the first 49 older entries in order; at most 50 entries |
| Console.PushAllKeepsNewest | app/page.tsx:354-357 | after any number of calls the history is the newest entries first, cut to the 50 most recent |
| Console.Summary | app/page.tsx:351-353 | without a response trace the summary is the error, or "Unknown" when there is none |
| Console.SummaryOfResponse | app/page.tsx:351-352 | with a response trace the summary is exactly the decimal status, a space, the status text, ` (`, the time and `)`, each part found at its offset |
| Console.PaymentIdFrom | app/page.tsx:323-330 | the payment id changes only to a string `id` with the `PAY-` or `PAYID-` prefix, and always does for one |
| Console.Carried | app/page.tsx:339-342 | a carried id is truthy |
| Console.CarriedExactly | app/page.tsx:339-342 | an id is carried exactly when `rr.<key>?.id` is truthy, and the carried value is that id |
| Console.ApplyAllIsLastCarried | app/page.tsx:338-343 | each of the four ids ends as the one from the last related resource carrying it |
| Console.LastCarriedIsLast | app/page.tsx:338-343 | with no carrier the id is unchanged; otherwise it comes from a carrier after which none carries that key |
| Console.ScanRelatedVisits | app/page.tsx:338-343 | without a null resource the inner loop visits every related resource |
| Console.NoNullNoFault | app/page.tsx:338-343 | related resources with no null entry never throw |
| Console.ScanVisitsAll | app/page.tsx:335-346 | transactions and related resources with no null entry never throw, and the scan visits every related resource of every transaction in order |
| Console.RelatedFaultSticks | app/page.tsx:338-343 | once a null resource has thrown, later resources change nothing |
| Console.LaterTransactionsIgnored | app/page.tsx:336-346 | once a transaction has thrown, appending further transactions changes neither the ids visited nor the error |
| Console.Console.constructor | app/page.tsx:189-225 | the initial state: empty credentials, sandbox, create_payment, count "10", the sample payment pretty-printed, no result, empty history |
| Console.Console.SelectAction | app/page.tsx:238-244 | choosing an action makes it active; when the active action changes, the editor is reset to the new action's default body text, and re-choosing the active action keeps the edited text, since the effect depends on `activeAction` alone; nothing else changes |
| Console.Console.ApplyResource | app/page.tsx:339-342 | one related resource overwrites exactly the ids it carries |
| Console.Console.ExtractRelated | app/page.tsx:337-344 | the inner loop leaves the ids of the resources visited before any throw, and reports the throw |
| Console.Console.ExtractTransactions | app/page.tsx:335-346 | the outer loop leaves the ids of all resources visited, transaction by transaction, and reports the throw |
| Console.Console.AutoExtract | app/page.tsx:323-347 | the payment id and the four ids after extraction, and the error when a null entry throws; nothing else changes |
| Console.Console.ParseInputs | app/page.tsx:255-286 | the sequence of early returns computes `Gate` on the current action and editor text |
| Console.Console.Receive | app/page.tsx:318-363 | a thrown request leaves the error result; a reply is kept and its ids extracted; the history gains one entry unless extraction throws; loading ends false |
| Console.Console.ExecuteAction | app/page.tsx:247-363 | without credentials nothing happens. A failed parse clears the result and sends nothing. Otherwise exactly the request built from the state is sent and the reply is taken in. refundId, the credentials and the editor are never written |

## Left out

- The network, the clock and the browser's local time are inputs: replies, rejection messages, durations and the time string are parameters.
- `JSON.parse` is a parameter of the console. In the route, `JSON.parse(apiBody)` is taken as the inverse of `JSON.stringify`, so the traced body is the value itself. This does not hold for objects with `undefined` members or non-finite numbers, which the model's JSON values cannot hold. It also does not hold for an object that is not in JavaScript property order (see the next line).
- `Json.Obj` stands for a JavaScript object whose keys are distinct and listed in property order, with integer-like keys first in ascending order and the others in insertion order. A member list with a repeated key or in another order is written out by `Stringify` as it stands. The source reads the same JSON text into an object that keeps only the last duplicate and puts integer-like keys first, then stringifies that object. For such an inbound `requestBody` or `patchBody`, the model's `apiBody`, the cURL `-d` text and the traced body differ from the source's: for `{"b":1,"1":2}` the source sends `{"1":2,"b":1}`, and for `{"a":1,"a":2}` it sends `{"a":2}`.
- JSON numbers are integers; floating point and its `String()` form are not modelled.
- Inbound string fields (ids, credentials, filters) are strings or undefined. Other JSON types in those fields are not modelled. The console sends its text fields as strings; an id extracted from a non-string value would reach the route as that value, which only the route's template literals turn into text (see the next line).
- Response `Headers` are a map with lower-case names; repeated headers and `Object.fromEntries` ordering are not modelled.
- The token trace's `body` is the value of the grant string, not a request body. The `time` strings are `<n>ms` of the given durations.
- Console.Console.ExtractTransactions: an id extracted from a non-string value is stored as its `String()` text. The source stores the value itself and posts it in the JSON body as that value; only the route's template literal turns it into the same text, so the URL the route builds is the same but the posted body differs.
- Console.Console.ExecuteAction: React state updates are applied at once and in order. Batching, re-rendering, `useCallback` dependencies, `alert`, the bottom-tab switch and scrolling are not modelled.
- Route.BuildRequest: the 18-case `switch` is written as six methods, one per resource family, tried in turn. The fall-through to `default` is the case where none matches.
- The action catalog for the sidebar and the other UI of the console (credential toggles, styles, clipboard) are not modelled.
- Base64 and UTF-8 are modelled concretely, but only their length and shape are proved.
