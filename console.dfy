/**
 * The tester's client component, reduced to what `executeAction` and the
 * default-body effect do with its state: gate the request on credentials and on the
 * body text, send one request to the route, keep the reply, fill in resource ids from
 * the reply body, and prepend a bounded history entry.
 */
module Console {
  import opened Wrappers
  import opened Json
  import opened Query
  import opened Actions
  import opened Route

  /* ---------- default request bodies ---------- */

  function Money(total: string): Json {
    Obj([Member("total", Str(total)), Member("currency", Str("USD"))])
  }

  function MoneyCurrencyFirst(total: string): Json {
    Obj([Member("currency", Str("USD")), Member("total", Str(total))])
  }

  function Details(subtotal: string): Json {
    Obj([Member("subtotal", Str(subtotal)), Member("tax", Str("0.00")), Member("shipping", Str("0.00"))])
  }

  /** The sample payment the editor starts with. */
  function SamplePayment(): Json {
    Obj([
      Member("intent", Str("sale")),
      Member("payer", Obj([Member("payment_method", Str("paypal"))])),
      Member("transactions", Arr([
        Obj([
          Member("amount", Obj([Member("total", Str("10.00")), Member("currency", Str("USD")),
                                Member("details", Details("10.00"))])),
          Member("description", Str("Test payment via V1 API tester")),
          Member("item_list", Obj([Member("items", Arr([
            Obj([Member("name", Str("Test Item")), Member("description", Str("A test item")),
                 Member("quantity", Str("1")), Member("price", Str("10.00")), Member("currency", Str("USD"))])
          ]))]))
        ])
      ])),
      Member("redirect_urls", Obj([Member("return_url", Str("https://example.com/return")),
                                   Member("cancel_url", Str("https://example.com/cancel"))]))
    ])
  }

  /** A capture request for 10.00 USD marked final. */
  function FinalCapture(): Json {
    Obj([Member("amount", MoneyCurrencyFirst("10.00")), Member("is_final_capture", Bool(true))])
  }

  /** The sample JSON Patch document for update_payment. */
  function SamplePatch(): Json {
    Arr([Obj([
      Member("op", Str("replace")),
      Member("path", Str("/transactions/0/amount")),
      Member("value", Obj([Member("total", Str("20.00")), Member("currency", Str("USD")),
                           Member("details", Details("20.00"))]))
    ])])
  }

  /** `DEFAULT_BODIES[action]`: None where the record has no entry. */
  function DefaultBody(a: Action): Option<Json> {
    match a
    case CreatePayment => Some(SamplePayment())
    case ExecutePayment => Some(Obj([Member("payer_id", Str(""))]))
    case RefundSale => Some(Obj([]))
    case CaptureAuthorization => Some(FinalCapture())
    case Reauthorize => Some(Obj([Member("amount", Money("10.00"))]))
    case CaptureOrder => Some(FinalCapture())
    case AuthorizeOrder => Some(Obj([Member("amount", MoneyCurrencyFirst("10.00"))]))
    case RefundCapture => Some(Obj([]))
    case UpdatePayment => Some(SamplePatch())
    case _ => None
  }

  /** The editor text the effect installs: the default pretty-printed with two spaces, or "". */
  function DefaultBodyText(a: Action): string {
    var d := DefaultBody(a);
    if d.Some? && Truthy(d.value) then StringifyIndented(d.value, 2) else ""
  }

  /**
   * The editor is pre-filled exactly for the actions whose request reads the caller's
   * body or patch document; GET actions and the two void actions start empty.
   */
  lemma DefaultBodyTextPresent(a: Action)
    ensures DefaultBodyText(a) != "" <==> RowOf(a).policy !in {NoBody, FixedEmpty}
  {
    if DefaultBody(a).Some? {
      SerializeNonEmpty(DefaultBody(a).value, seq(2, _ => ' '), "");
    }
  }

  /* ---------- gating the request on the editor text ---------- */

  /** ECMAScript WhiteSpace and LineTerminator code points, the set `trim` removes. */
  predicate JsSpace(c: char) {
    var n := c as int;
    n == 9 || n == 10 || n == 11 || n == 12 || n == 13 || n == 32 || n == 0xA0 || n == 0x1680 ||
    (0x2000 <= n <= 0x200A) || n == 0x2028 || n == 0x2029 || n == 0x202F || n == 0x205F ||
    n == 0x3000 || n == 0xFEFF
  }

  function TrimStart(s: string): (r: string)
    ensures r == [] || !JsSpace(r[0])
  {
    if s == [] || !JsSpace(s[0]) then s else TrimStart(s[1..])
  }

  function TrimEnd(s: string): (r: string)
    ensures r == [] || !JsSpace(r[|r| - 1])
  {
    if s == [] || !JsSpace(s[|s| - 1]) then s else TrimEnd(s[..|s| - 1])
  }

  /** `s.trim()`. */
  function Trim(s: string): string {
    TrimEnd(TrimStart(s))
  }

  predicate AllSpace(s: string) {
    forall i :: 0 <= i < |s| ==> JsSpace(s[i])
  }

  lemma {:induction false} TrimStartEmpty(s: string)
    ensures TrimStart(s) == [] <==> AllSpace(s)
  {
    if s != [] && JsSpace(s[0]) {
      TrimStartEmpty(s[1..]);
      assert AllSpace(s) <==> AllSpace(s[1..]) by {
        if AllSpace(s[1..]) {
          forall i | 0 <= i < |s| ensures JsSpace(s[i]) {
            if i > 0 { assert s[i] == s[1..][i - 1]; }
          }
        }
      }
    }
  }

  lemma {:induction false} TrimEndEmpty(s: string)
    ensures TrimEnd(s) == [] <==> AllSpace(s)
  {
    if s != [] && JsSpace(s[|s| - 1]) {
      var n := |s| - 1;
      TrimEndEmpty(s[..n]);
      assert AllSpace(s) <==> AllSpace(s[..n]) by {
        if AllSpace(s[..n]) {
          forall i | 0 <= i < |s| ensures JsSpace(s[i]) {
            if i < n { assert s[i] == s[..n][i]; }
          }
        }
      }
    }
  }

  /** The trimmed text is empty exactly when every character is white space. */
  lemma TrimEmptyIffAllSpace(s: string)
    ensures Trim(s) == "" <==> AllSpace(s)
  {
    TrimStartEmpty(s);
    TrimEndEmpty(TrimStart(s));
  }

  /** `bodyText.trim()` is truthy. */
  predicate HasContent(text: string) {
    Trim(text) != ""
  }

  /** The actions whose body text `executeAction` parses as the request body. */
  const BodyActionNames: seq<string> := [
    "create_payment", "execute_payment", "refund_sale", "capture_authorization",
    "reauthorize", "capture_order", "authorize_order", "refund_capture"]

  /**
   * The console parses a request body for exactly the actions whose route case reads
   * `requestBody`, and a patch for exactly the one that reads `patchBody`.
   */
  lemma ParsedWhereRead(a: Action)
    ensures Name(a) in BodyActionNames <==> RowOf(a).policy in {PassThrough, EmptyFallback, PayerFallback}
    ensures a == UpdatePayment <==> RowOf(a).policy == PatchDocument
  {
  }

  /** The parsed request body and patch document; None is `undefined`. */
  datatype Parsed = Parsed(body: Option<Json>, patch: Option<Json>)

  const InvalidBodyMessage: string := "Invalid JSON in request body"
  const InvalidPatchMessage: string := "Invalid JSON in patch body"

  /**
   * The two parse steps: the body text is parsed as the request body for a body
   * action, as the patch for update_payment, and only when it is not blank; a text
   * that does not parse aborts with the alert's message.
   */
  function Gate(a: Action, text: string, parse: string -> Result<Json, string>): (r: Result<Parsed, string>)
    ensures r.Success? && r.value.body.Some? ==>
              Name(a) in BodyActionNames && HasContent(text) && parse(text) == Success(r.value.body.value)
    ensures r.Success? && r.value.patch.Some? ==>
              a == UpdatePayment && HasContent(text) && parse(text) == Success(r.value.patch.value)
    ensures r.Failure? <==> (Name(a) in BodyActionNames || a == UpdatePayment) && HasContent(text) && parse(text).Failure?
    ensures Name(a) in BodyActionNames && HasContent(text) && parse(text).Success? ==>
              r == Success(Parsed(Some(parse(text).value), None))
    ensures a == UpdatePayment && HasContent(text) && parse(text).Success? ==>
              r == Success(Parsed(None, Some(parse(text).value)))
    ensures !((Name(a) in BodyActionNames || a == UpdatePayment) && HasContent(text)) ==>
              r == Success(Parsed(None, None))
  {
    var needsBody := Name(a) in BodyActionNames;
    var isPatch := a == UpdatePayment;
    if needsBody && HasContent(text) then
      match parse(text)
      case Failure(_) => Failure(InvalidBodyMessage)
      case Success(v) => Success(Parsed(Some(v), None))
    else if isPatch && HasContent(text) then
      match parse(text)
      case Failure(_) => Failure(InvalidPatchMessage)
      case Success(v) => Success(Parsed(None, Some(v)))
    else Success(Parsed(None, None))
  }

  /* ---------- what is sent ---------- */

  /** `x || undefined` for a text field. */
  function OrUndefined(s: string): (r: Option<string>)
    ensures r != Some("")
    ensures (if r.Some? then r.value else "") == s
  {
    if s != "" then Some(s) else None
  }

  /** The `queryParams` object: only for list_payments, and only four of the route's seven keys. */
  function QueryParamsFor(a: Action, count: string, startId: string, startTime: string, endTime: string): Option<ListQuery> {
    if a == ListPayments then
      Some(ListQuery(OrUndefined(count), OrUndefined(startId), None, OrUndefined(startTime),
                     OrUndefined(endTime), None, None))
    else None
  }

  /** The pairs `(key, value)` of the non-empty fields among `fs`, in order. */
  function NonEmpty(fs: seq<(string, string)>): seq<Pair> {
    if fs == [] then []
    else if fs[0].1 != "" then [fs[0]] + NonEmpty(fs[1..])
    else NonEmpty(fs[1..])
  }

  /**
   * The list query the route receives from the console carries the non-empty ones of
   * count, start_id, start_time and end_time, in that order, and nothing else; any
   * other action sends no query at all.
   */
  lemma ConsoleQueryEntries(a: Action, count: string, startId: string, startTime: string, endTime: string)
    ensures a == ListPayments ==>
              QueryEntries(QueryParamsFor(a, count, startId, startTime, endTime)) ==
              NonEmpty([("count", count), ("start_id", startId), ("start_time", startTime), ("end_time", endTime)])
    ensures a != ListPayments ==> QueryEntries(QueryParamsFor(a, count, startId, startTime, endTime)) == []
  {
    if a == ListPayments {
      ConsoleFieldsKept(count, startId, startTime, endTime);
      FourNonEmpty(count, startId, startTime, endTime);
    }
  }

  /** The pair `(k, v)` alone when `v` is non-empty, else nothing. */
  function KeptPair(k: string, v: string): seq<Pair> {
    if v != "" then [(k, v)] else []
  }

  /** The fields of the console's query keep exactly its four non-empty inputs. */
  lemma ConsoleFieldsKept(count: string, startId: string, startTime: string, endTime: string)
    ensures KeepGiven(Fields(ListQuery(OrUndefined(count), OrUndefined(startId), None, OrUndefined(startTime),
                                       OrUndefined(endTime), None, None))) ==
            KeptPair("count", count) + KeptPair("start_id", startId) +
            KeptPair("start_time", startTime) + KeptPair("end_time", endTime)
  {
    var tail := [("start_time", OrUndefined(startTime)), ("end_time", OrUndefined(endTime)),
                 ("sort_by", None), ("sort_order", None)];
    LaterFieldsKept("start_time", "end_time", "sort_by", "sort_order", startTime, endTime);
    EarlierFieldsKept("count", "start_id", "start_index", count, startId, tail);
    var fs := Fields(ListQuery(OrUndefined(count), OrUndefined(startId), None, OrUndefined(startTime),
                               OrUndefined(endTime), None, None));
    assert fs == [("count", OrUndefined(count)), ("start_id", OrUndefined(startId)), ("start_index", None)] + tail;
  }

  /** The last four fields of the console's query: start_time and end_time, then two unset keys. */
  lemma LaterFieldsKept(k3: string, k4: string, k5: string, k6: string, startTime: string, endTime: string)
    ensures KeepGiven([(k3, OrUndefined(startTime)), (k4, OrUndefined(endTime)), (k5, None), (k6, None)]) ==
            KeptPair(k3, startTime) + KeptPair(k4, endTime)
  {
    var none: seq<(string, Option<string>)> := [(k5, None), (k6, None)];
    assert KeepGiven(none) == [] by {
      assert none[1..][1..] == [];
    }
    assert [(k4, OrUndefined(endTime))] + none == [(k4, OrUndefined(endTime)), (k5, None), (k6, None)];
    KeepOrUndefined(k4, endTime, none);
    KeepOrUndefined(k3, startTime, [(k4, OrUndefined(endTime))] + none);
    assert [(k3, OrUndefined(startTime))] + ([(k4, OrUndefined(endTime))] + none) ==
           [(k3, OrUndefined(startTime)), (k4, OrUndefined(endTime)), (k5, None), (k6, None)];
  }

  /** The first three fields of the console's query: count and start_id, then the unset start_index. */
  lemma EarlierFieldsKept(k0: string, k1: string, k2: string, count: string, startId: string,
                          rest: seq<(string, Option<string>)>)
    ensures KeepGiven([(k0, OrUndefined(count)), (k1, OrUndefined(startId)), (k2, None)] + rest) ==
            KeptPair(k0, count) + KeptPair(k1, startId) + KeepGiven(rest)
  {
    KeepThree(k0, OrUndefined(count), k1, OrUndefined(startId), k2, rest);
    assert KeptOption(k0, OrUndefined(count)) == KeptPair(k0, count);
    assert KeptOption(k1, OrUndefined(startId)) == KeptPair(k1, startId);
  }

  /** The pair `(k, o.value)` alone when `o` is given, else nothing. */
  function KeptOption(k: string, o: Option<string>): seq<Pair> {
    if Given(o) then [(k, o.value)] else []
  }

  /** Two optional fields and an unset one ahead of `rest`. */
  lemma KeepThree(k0: string, o0: Option<string>, k1: string, o1: Option<string>, k2: string,
                  rest: seq<(string, Option<string>)>)
    ensures KeepGiven([(k0, o0), (k1, o1), (k2, None)] + rest) ==
            KeptOption(k0, o0) + KeptOption(k1, o1) + KeepGiven(rest)
  {
    ConsThree((k0, o0), (k1, o1), (k2, None), rest);
    KeepGivenCons((k2, None), rest);
    KeepTwo(k0, o0, k1, o1, [(k2, None)] + rest);
  }

  lemma KeepTwo(k0: string, o0: Option<string>, k1: string, o1: Option<string>,
                rest: seq<(string, Option<string>)>)
    ensures KeepGiven([(k0, o0)] + ([(k1, o1)] + rest)) ==
            KeptOption(k0, o0) + KeptOption(k1, o1) + KeepGiven(rest)
  {
    KeepGivenCons((k1, o1), rest);
    KeepGivenCons((k0, o0), [(k1, o1)] + rest);
    var p0, p1, t := KeptOption(k0, o0), KeptOption(k1, o1), KeepGiven(rest);
    assert p0 + (p1 + t) == p0 + p1 + t;
  }

  lemma ConsThree<T>(a: T, b: T, c: T, rest: seq<T>)
    ensures [a, b, c] + rest == [a] + ([b] + ([c] + rest))
  {
  }

  /** A field fed by `value || undefined` is kept exactly when `value` is non-empty. */
  lemma KeepOrUndefined(k: string, v: string, rest: seq<(string, Option<string>)>)
    ensures KeepGiven([(k, OrUndefined(v))] + rest) == KeptPair(k, v) + KeepGiven(rest)
  {
    KeepGivenCons((k, OrUndefined(v)), rest);
  }

  /** NonEmpty of the four console inputs, one pair at a time. */
  lemma FourNonEmpty(count: string, startId: string, startTime: string, endTime: string)
    ensures NonEmpty([("count", count), ("start_id", startId), ("start_time", startTime), ("end_time", endTime)]) ==
            KeptPair("count", count) + KeptPair("start_id", startId) +
            KeptPair("start_time", startTime) + KeptPair("end_time", endTime)
  {
    NonEmptyFour("count", "start_id", "start_time", "end_time", count, startId, startTime, endTime);
  }

  lemma NonEmptyFour(k0: string, k1: string, k2: string, k3: string, v0: string, v1: string, v2: string, v3: string)
    ensures NonEmpty([(k0, v0), (k1, v1), (k2, v2), (k3, v3)]) ==
            KeptPair(k0, v0) + KeptPair(k1, v1) + KeptPair(k2, v2) + KeptPair(k3, v3)
  {
    var last: seq<(string, string)> := [(k2, v2), (k3, v3)];
    NonEmptyTwo(k2, k3, v2, v3, []);
    assert last + [] == last;
    NonEmptyTwo(k0, k1, v0, v1, last);
    assert [(k0, v0), (k1, v1)] + last == [(k0, v0), (k1, v1), (k2, v2), (k3, v3)];
  }

  /** NonEmpty of two leading pairs, one at a time. */
  lemma NonEmptyTwo(k0: string, k1: string, v0: string, v1: string, rest: seq<(string, string)>)
    ensures NonEmpty([(k0, v0), (k1, v1)] + rest) == KeptPair(k0, v0) + KeptPair(k1, v1) + NonEmpty(rest)
  {
    var tail := [(k1, v1)] + rest;
    NonEmptyCons((k1, v1), rest);
    NonEmptyCons((k0, v0), tail);
    assert [(k0, v0)] + tail == [(k0, v0), (k1, v1)] + rest;
  }

  /** NonEmpty of one leading pair. */
  lemma NonEmptyCons(f: (string, string), rest: seq<(string, string)>)
    ensures NonEmpty([f] + rest) == KeptPair(f.0, f.1) + NonEmpty(rest)
  {
    assert ([f] + rest)[1..] == rest;
  }

  lemma KeepGivenCons(f: (string, Option<string>), rest: seq<(string, Option<string>)>)
    ensures KeepGiven([f] + rest) == KeptOption(f.0, f.1) + KeepGiven(rest)
  {
    assert ([f] + rest)[1..] == rest;
  }

  /* ---------- the history ---------- */

  datatype HistoryEntry = HistoryEntry(action: string, time: string, success: bool, summary: string)

  const HistoryLimit: nat := 50

  function Min(a: nat, b: nat): nat {
    if a <= b then a else b
  }

  /** `[entry, ...prev.slice(0, 49)]`. */
  function PushHistory(prev: seq<HistoryEntry>, e: HistoryEntry): (r: seq<HistoryEntry>)
    ensures |r| == Min(|prev| + 1, HistoryLimit)
    ensures r[0] == e
    ensures r[1..] == prev[..Min(|prev|, HistoryLimit - 1)]
  {
    [e] + prev[..Min(|prev|, HistoryLimit - 1)]
  }

  function Reverse<T>(s: seq<T>): (r: seq<T>)
    ensures |r| == |s|
    ensures forall i :: 0 <= i < |s| ==> r[i] == s[|s| - 1 - i]
  {
    if s == [] then [] else Reverse(s[1..]) + [s[0]]
  }

  /** The history after recording each of `es` in turn. */
  function PushAll(prev: seq<HistoryEntry>, es: seq<HistoryEntry>): seq<HistoryEntry>
    decreases |es|
  {
    if es == [] then prev else PushAll(PushHistory(prev, es[0]), es[1..])
  }

  /**
   * Recording entries one by one, starting from a history of at most 50, leaves the
   * newest first followed by the older ones, cut to the 50 most recent.
   */
  lemma {:induction false} PushAllKeepsNewest(prev: seq<HistoryEntry>, es: seq<HistoryEntry>)
    requires |prev| <= HistoryLimit
    ensures PushAll(prev, es) == (Reverse(es) + prev)[..Min(|es| + |prev|, HistoryLimit)]
    decreases |es|
  {
    if es != [] {
      var next := PushHistory(prev, es[0]);
      PushAllKeepsNewest(next, es[1..]);
      var k := Min(|es| + |prev|, HistoryLimit);
      var whole := Reverse(es) + prev;
      assert whole == Reverse(es[1..]) + ([es[0]] + prev) by {
        assert Reverse(es) == Reverse(es[1..]) + [es[0]];
      }
      var m := Min(|prev|, HistoryLimit - 1);
      assert next == ([es[0]] + prev)[..m + 1];
      var left := Reverse(es[1..]) + next;
      assert Min(|es[1..]| + |next|, HistoryLimit) == k;
      assert left[..k] == whole[..k] by {
        forall i | 0 <= i < k ensures left[i] == whole[i] {
          if i >= |es| - 1 {
            assert left[i] == next[i - (|es| - 1)];
            assert whole[i] == ([es[0]] + prev)[i - (|es| - 1)];
          }
        }
      }
    }
  }

  /** `"<status> <statusText> (<time>)"` when there is a response trace, else the error or "Unknown". */
  function Summary(data: ApiResult): (r: string)
    ensures data.httpResponse.None? && data.error.Some? && data.error.value != "" ==> r == data.error.value
    ensures data.httpResponse.None? && (data.error.None? || data.error.value == "") ==> r == "Unknown"
  {
    match data.httpResponse
    case Some(h) => IntToString(h.status) + " " + h.statusText + " (" + h.time + ")"
    case None => if data.error.Some? && data.error.value != "" then data.error.value else "Unknown"
  }

  /**
   * With a response trace the summary is the decimal status code, a space, the status
   * text, and the time in parentheses; each part can be read back at its offset.
   */
  lemma SummaryOfResponse(data: ApiResult)
    requires data.httpResponse.Some?
    ensures var h := data.httpResponse.value;
            Summary(data) == IntToString(h.status) + " " + h.statusText + " (" + h.time + ")"
    ensures var h := data.httpResponse.value;
            var code := IntToString(h.status);
            var s := Summary(data);
            var open := |code| + 1 + |h.statusText|;
            |s| == open + |h.time| + 3 &&
            s[..|code|] == code && s[|code|] == ' ' &&
            s[|code| + 1..open] == h.statusText &&
            s[open..open + 2] == " (" &&
            s[open + 2..|s| - 1] == h.time && s[|s| - 1] == ')'
  {
    var h := data.httpResponse.value;
    var code := IntToString(h.status);
    var s := Summary(data);
    var open := |code| + 1 + |h.statusText|;
    assert s == code + " " + h.statusText + " (" + h.time + ")";
    assert s[..|code|] == code;
    assert s[|code| + 1..open] == h.statusText;
    assert s[open..open + 2] == " (";
    assert s[open + 2..|s| - 1] == h.time;
  }

  /* ---------- ids taken from the reply ---------- */

  predicate StartsWith(s: string, prefix: string) {
    |prefix| <= |s| && s[..|prefix|] == prefix
  }

  /** `id.startsWith("PAY-") || id.startsWith("PAYID-")`. */
  predicate IsPaymentId(id: string) {
    StartsWith(id, "PAY-") || StartsWith(id, "PAYID-")
  }

  /** The payment id after a reply whose body is `body`: a truthy string `id` with a payment prefix, else unchanged. */
  function PaymentIdFrom(body: Json, current: string): (r: string)
    ensures r != current ==> Get(body, "id") == Some(Str(r)) && IsPaymentId(r)
    ensures (Truthy(body) && Get(body, "id").Some? && Get(body, "id").value.Str? &&
             IsPaymentId(Get(body, "id").value.s)) ==> r == Get(body, "id").value.s
  {
    if !Truthy(body) then current
    else
      var id := Get(body, "id");
      if id.Some? && Truthy(id.value) && id.value.Str? && IsPaymentId(id.value.s) then id.value.s
      else current
  }

  /** `rr.<key>?.id` when truthy: the id a related resource carries under `key`. */
  function Carried(rr: Json, key: string): (r: Option<Json>)
    ensures r.Some? ==> Truthy(r.value)
  {
    var sub := Get(rr, key);
    if sub.None? || sub.value.Null? then None
    else
      var id := Get(sub.value, "id");
      if id.Some? && Truthy(id.value) then id else None
  }

  /** An id is carried exactly when `rr.<key>?.id` is truthy, and it is that id. */
  lemma CarriedExactly(rr: Json, key: string)
    ensures var r := Carried(rr, key);
            r.Some? <==> Get(rr, key).Some? && Get(Get(rr, key).value, "id").Some? &&
                         Truthy(Get(Get(rr, key).value, "id").value)
    ensures var r := Carried(rr, key);
            r.Some? ==> r.value == Get(Get(rr, key).value, "id").value
  {
  }

  /** The four ids the scan fills in. */
  datatype Found = Found(sale: string, authorization: string, order: string, capture: string)

  /** What one related resource does to them: each key it carries overwrites its id. */
  function Apply(f: Found, rr: Json): Found {
    var s := Carried(rr, "sale");
    var a := Carried(rr, "authorization");
    var o := Carried(rr, "order");
    var c := Carried(rr, "capture");
    Found(if s.Some? then ToJsString(s.value) else f.sale,
          if a.Some? then ToJsString(a.value) else f.authorization,
          if o.Some? then ToJsString(o.value) else f.order,
          if c.Some? then ToJsString(c.value) else f.capture)
  }

  function ApplyAll(f: Found, rrs: seq<Json>): Found {
    if rrs == [] then f else Apply(ApplyAll(f, rrs[..|rrs| - 1]), rrs[|rrs| - 1])
  }

  /** The id of the last related resource carrying `key`, or `current` when none does. */
  function LastCarried(rrs: seq<Json>, key: string, current: string): string {
    if rrs == [] then current
    else
      var c := Carried(rrs[|rrs| - 1], key);
      if c.Some? then ToJsString(c.value) else LastCarried(rrs[..|rrs| - 1], key, current)
  }

  /** Each id ends as the one from the last related resource carrying it. */
  lemma {:induction false} ApplyAllIsLastCarried(f: Found, rrs: seq<Json>)
    ensures var g := ApplyAll(f, rrs);
            g.sale == LastCarried(rrs, "sale", f.sale) &&
            g.authorization == LastCarried(rrs, "authorization", f.authorization) &&
            g.order == LastCarried(rrs, "order", f.order) &&
            g.capture == LastCarried(rrs, "capture", f.capture)
  {
    if rrs != [] {
      ApplyAllIsLastCarried(f, rrs[..|rrs| - 1]);
    }
  }

  /**
   * The last-wins rule: with no carrier the id is unchanged; otherwise it is the id
   * of a carrier after which no resource carries `key`.
   */
  lemma LastCarriedIsLast(rrs: seq<Json>, key: string, current: string)
    ensures (forall i :: 0 <= i < |rrs| ==> Carried(rrs[i], key).None?) ==> LastCarried(rrs, key, current) == current
    ensures (exists i :: 0 <= i < |rrs| && Carried(rrs[i], key).Some?) ==>
              exists i :: 0 <= i < |rrs| && Carried(rrs[i], key).Some? &&
                          LastCarried(rrs, key, current) == ToJsString(Carried(rrs[i], key).value) &&
                          forall k :: i < k < |rrs| ==> Carried(rrs[k], key).None?
  {
    var cs := CarriedAll(rrs, key);
    LastCarriedIsLastSome(rrs, key, current);
    LastSomeIsLast(cs, current);
    if exists i :: 0 <= i < |rrs| && Carried(rrs[i], key).Some? {
      var i :| 0 <= i < |rrs| && Carried(rrs[i], key).Some?;
      assert cs[i].Some?;
      var j :| 0 <= j < |cs| && cs[j].Some? && LastSome(cs, current) == ToJsString(cs[j].value) &&
               forall k :: j < k < |cs| ==> cs[k].None?;
      assert Carried(rrs[j], key) == cs[j];
      forall k | j < k < |rrs| ensures Carried(rrs[k], key).None? {
        assert Carried(rrs[k], key) == cs[k];
      }
    }
  }

  /** What each related resource carries under `key`, in order. */
  function CarriedAll(rrs: seq<Json>, key: string): (cs: seq<Option<Json>>)
    ensures |cs| == |rrs| && forall i :: 0 <= i < |rrs| ==> cs[i] == Carried(rrs[i], key)
  {
    seq(|rrs|, i requires 0 <= i < |rrs| => Carried(rrs[i], key))
  }

  /** The text of the last present entry of `cs`, or `current` when none is present. */
  function LastSome(cs: seq<Option<Json>>, current: string): string {
    if cs == [] then current
    else if cs[|cs| - 1].Some? then ToJsString(cs[|cs| - 1].value)
    else LastSome(cs[..|cs| - 1], current)
  }

  lemma {:induction false} LastCarriedIsLastSome(rrs: seq<Json>, key: string, current: string)
    ensures LastCarried(rrs, key, current) == LastSome(CarriedAll(rrs, key), current)
  {
    if rrs != [] {
      var n := |rrs| - 1;
      LastCarriedIsLastSome(rrs[..n], key, current);
      assert CarriedAll(rrs[..n], key) == CarriedAll(rrs, key)[..n];
    }
  }

  lemma {:induction false} LastSomeIsLast(cs: seq<Option<Json>>, current: string)
    ensures (forall i :: 0 <= i < |cs| ==> cs[i].None?) ==> LastSome(cs, current) == current
    ensures (exists i :: 0 <= i < |cs| && cs[i].Some?) ==>
              exists i :: 0 <= i < |cs| && cs[i].Some? && LastSome(cs, current) == ToJsString(cs[i].value) &&
                          forall k :: i < k < |cs| ==> cs[k].None?
  {
    if cs != [] {
      var n := |cs| - 1;
      var prior := cs[..n];
      LastSomeIsLast(prior, current);
      if cs[n].None? {
        if exists i :: 0 <= i < |cs| && cs[i].Some? {
          var i :| 0 <= i < |cs| && cs[i].Some?;
          assert prior[i] == cs[i];
          var j :| 0 <= j < n && prior[j].Some? && LastSome(prior, current) == ToJsString(prior[j].value) &&
                   forall k :: j < k < n ==> prior[k].None?;
          assert prior[j] == cs[j];
          forall k | j < k < |cs| ensures cs[k].None? {
            if k < n { assert prior[k] == cs[k]; }
          }
        }
        forall i | 0 <= i < n ensures prior[i] == cs[i] { }
      }
    }
  }

  /** The related resources visited before the scan stops, and the error that stopped it. */
  datatype Scan = Scan(visited: seq<Json>, fault: Option<string>)

  const NullTxnMessage: string := "Cannot read properties of null (reading 'related_resources')"
  const NullResourceMessage: string := "Cannot read properties of null (reading 'sale')"

  const RelatedKey: string := "related_resources"

  /** `txn.related_resources` when it is an array, else nothing to visit. */
  function RelatedOf(txn: Json): seq<Json> {
    var rr := Get(txn, RelatedKey);
    if rr.Some? && rr.value.Arr? then rr.value.items else []
  }

  /** The inner loop over `related_resources`: a null entry throws when `.sale` is read. */
  function ScanRelated(rrs: seq<Json>): Scan {
    RelatedPrefix(rrs, |rrs|)
  }

  /** The inner loop after its first `n` resources. */
  function RelatedPrefix(rrs: seq<Json>, n: nat): Scan
    requires n <= |rrs|
  {
    if n == 0 then Scan([], None)
    else
      var prior := RelatedPrefix(rrs, n - 1);
      if prior.fault.Some? then prior
      else if rrs[n - 1].Null? then Scan(prior.visited, Some(NullResourceMessage))
      else Scan(prior.visited + [rrs[n - 1]], None)
  }

  /** A scan of the first `n` resources that does not throw visits exactly those resources. */
  lemma {:induction false} RelatedPrefixVisits(rrs: seq<Json>, n: nat)
    requires n <= |rrs|
    ensures RelatedPrefix(rrs, n).fault.None? ==> RelatedPrefix(rrs, n).visited == rrs[..n]
  {
    if n > 0 {
      RelatedPrefixVisits(rrs, n - 1);
      assert rrs[..n] == rrs[..n - 1] + [rrs[n - 1]];
    }
  }

  /** Without a null resource the inner loop visits every related resource, in order. */
  lemma ScanRelatedVisits(rrs: seq<Json>)
    ensures ScanRelated(rrs).fault.None? ==> ScanRelated(rrs).visited == rrs
  {
    RelatedPrefixVisits(rrs, |rrs|);
    assert rrs[..|rrs|] == rrs;
  }

  /** The outer loop over `transactions`: a null transaction throws when `.related_resources` is read. */
  function ScanTransactions(txns: seq<Json>): Scan {
    ScanFrom(txns, 0)
  }

  /** The outer loop from transaction `i` on: a transaction that throws ends the scan. */
  function ScanFrom(txns: seq<Json>, i: nat): Scan
    requires i <= |txns|
    decreases |txns| - i
  {
    if i == |txns| then Scan([], None)
    else
      var own := ScanTransaction(txns[i]);
      if own.fault.Some? then own
      else
        var rest := ScanFrom(txns, i + 1);
        Scan(own.visited + rest.visited, rest.fault)
  }

  /** One transaction: reading `related_resources` of null throws, else its resources are scanned. */
  function ScanTransaction(txn: Json): Scan {
    if txn.Null? then Scan([], Some(NullTxnMessage)) else ScanRelated(RelatedOf(txn))
  }

  /** The scan of a reply body: its `transactions` when that is an array. */
  function ScanBody(body: Json): Scan {
    var t := Get(body, "transactions");
    if Truthy(body) && t.Some? && t.value.Arr? then ScanTransactions(t.value.items) else Scan([], None)
  }

  /** The related resources of transactions `i` on, concatenated in order. */
  function AllRelatedFrom(txns: seq<Json>, i: nat): seq<Json>
    requires i <= |txns|
    decreases |txns| - i
  {
    if i == |txns| then [] else RelatedOf(txns[i]) + AllRelatedFrom(txns, i + 1)
  }

  /**
   * Without a null transaction or resource the scan does not throw and visits every
   * related resource of every transaction, in order.
   */
  lemma {:induction false} ScanVisitsAll(txns: seq<Json>)
    requires forall i :: 0 <= i < |txns| ==>
               !txns[i].Null? && forall j :: 0 <= j < |RelatedOf(txns[i])| ==> !RelatedOf(txns[i])[j].Null?
    ensures ScanTransactions(txns).fault.None?
    ensures ScanTransactions(txns).visited == AllRelatedFrom(txns, 0)
  {
    FromVisitsAll(txns, 0);
  }

  lemma {:induction false} FromVisitsAll(txns: seq<Json>, i: nat)
    requires i <= |txns|
    requires forall i :: 0 <= i < |txns| ==>
               !txns[i].Null? && forall j :: 0 <= j < |RelatedOf(txns[i])| ==> !RelatedOf(txns[i])[j].Null?
    ensures ScanFrom(txns, i) == Scan(AllRelatedFrom(txns, i), None)
    decreases |txns| - i
  {
    if i < |txns| {
      NoNullNoFault(RelatedOf(txns[i]));
      ScanRelatedVisits(RelatedOf(txns[i]));
      FromVisitsAll(txns, i + 1);
    }
  }

  lemma {:induction false} NoNullNoFault(rrs: seq<Json>)
    requires forall j :: 0 <= j < |rrs| ==> !rrs[j].Null?
    ensures ScanRelated(rrs).fault.None?
  {
    NoNullPrefix(rrs, |rrs|);
  }

  lemma {:induction false} NoNullPrefix(rrs: seq<Json>, n: nat)
    requires n <= |rrs|
    requires forall j :: 0 <= j < |rrs| ==> !rrs[j].Null?
    ensures RelatedPrefix(rrs, n).fault.None?
  {
    if n > 0 {
      NoNullPrefix(rrs, n - 1);
    }
  }

  /** The message a thrown error leaves in the result, with nothing else. */
  function ErrorResult(message: string): ApiResult {
    ApiResult(false, Some(message), None, None, None, None)
  }

  /* ---------- the component state ---------- */

  class Console {
    var clientId: string
    var clientSecret: string
    var environment: string
    var customBaseUrl: string
    var activeAction: Action
    var loading: bool
    var paymentId: string
    var saleId: string
    var authorizationId: string
    var orderId: string
    var captureId: string
    var refundId: string
    var payerId: string
    var listCount: string
    var listStartId: string
    var listStartTime: string
    var listEndTime: string
    var bodyText: string
    var result: Option<ApiResult>
    var history: seq<HistoryEntry>

    /** The initial state of the component. */
    constructor ()
      ensures clientId == "" && clientSecret == "" && environment == "sandbox" && customBaseUrl == ""
      ensures activeAction == CreatePayment && !loading
      ensures paymentId == "" && saleId == "" && authorizationId == "" && orderId == "" &&
              captureId == "" && refundId == "" && payerId == ""
      ensures listCount == "10" && listStartId == "" && listStartTime == "" && listEndTime == ""
      ensures bodyText == StringifyIndented(SamplePayment(), 2) && bodyText == DefaultBodyText(activeAction)
      ensures result.None? && history == []
    {
      clientId, clientSecret, environment, customBaseUrl := "", "", "sandbox", "";
      activeAction, loading := CreatePayment, false;
      paymentId, saleId, authorizationId, orderId, captureId, refundId, payerId := "", "", "", "", "", "", "";
      listCount, listStartId, listStartTime, listEndTime := "10", "", "", "";
      bodyText := StringifyIndented(SamplePayment(), 2);
      result, history := None, [];
    }

    function Ids(): Found
      reads this
    {
      Found(saleId, authorizationId, orderId, captureId)
    }

    /** The request body `executeAction` posts to the route, given the parsed body and patch. */
    function Request(p: Parsed): RouteInput
      reads this
    {
      RouteInput(Some(clientId), Some(clientSecret), Some(environment), OrUndefined(customBaseUrl),
                 Some(Name(activeAction)),
                 Some(paymentId), Some(saleId), Some(authorizationId), Some(orderId), Some(captureId),
                 Some(refundId), Some(payerId), p.body, p.patch,
                 QueryParamsFor(activeAction, listCount, listStartId, listStartTime, listEndTime))
    }

    /**
     * Choosing an action makes it active. The editor is reset to the action's default
     * body only when the active action changes, since the effect that writes it depends
     * on `activeAction` alone; re-choosing the active action keeps the edited text.
     */
    method SelectAction(a: Action)
      modifies this`activeAction, this`bodyText
      ensures activeAction == a
      ensures bodyText == if old(activeAction) == a then old(bodyText) else DefaultBodyText(a)
    {
      if a == activeAction {
        return;
      }
      activeAction := a;
      var d := DefaultBody(a);
      if d.Some? && Truthy(d.value) {
        bodyText := StringifyIndented(d.value, 2);
      } else {
        bodyText := "";
      }
    }

    /** One related resource: each of sale, authorization, order and capture it carries sets that id. */
    method ApplyResource(rr: Json)
      modifies this`saleId, this`authorizationId, this`orderId, this`captureId
      ensures Ids() == Apply(old(Ids()), rr)
    {
      var s := Carried(rr, "sale");
      if s.Some? { saleId := ToJsString(s.value); }
      var a := Carried(rr, "authorization");
      if a.Some? { authorizationId := ToJsString(a.value); }
      var o := Carried(rr, "order");
      if o.Some? { orderId := ToJsString(o.value); }
      var c := Carried(rr, "capture");
      if c.Some? { captureId := ToJsString(c.value); }
    }

    /** The inner loop: each related resource overwrites the ids it carries; a null one throws. */
    method ExtractRelated(rrs: seq<Json>) returns (fault: Option<string>)
      modifies this`saleId, this`authorizationId, this`orderId, this`captureId
      ensures Ids() == ApplyAll(old(Ids()), ScanRelated(rrs).visited)
      ensures fault == ScanRelated(rrs).fault
    {
      var j := 0;
      while j < |rrs|
        invariant 0 <= j <= |rrs|
        invariant RelatedPrefix(rrs, j) == Scan(rrs[..j], None)
        invariant Ids() == ApplyAll(old(Ids()), rrs[..j])
      {
        var rr := rrs[j];
        assert rrs[..j + 1] == rrs[..j] + [rr];
        if rr.Null? {
          RelatedFaultSticks(rrs, j + 1);
          return Some(NullResourceMessage);
        }
        ApplyResource(rr);
        j := j + 1;
      }
      assert rrs[..j] == rrs;
      return None;
    }

    /**
     * The id extraction after a reply: the payment id from `id`, then the nested loops
     * over `transactions` and their `related_resources`.
     */
    method AutoExtract(data: ApiResult) returns (fault: Option<string>)
      modifies this`paymentId, this`saleId, this`authorizationId, this`orderId, this`captureId
      ensures var body := if data.httpResponse.Some? then data.httpResponse.value.body else Null;
              paymentId == PaymentIdFrom(body, old(paymentId)) &&
              Ids() == ApplyAll(old(Ids()), ScanBody(body).visited) &&
              fault == ScanBody(body).fault
    {
      if data.httpResponse.None? || !Truthy(data.httpResponse.value.body) {
        return None;
      }
      var body := data.httpResponse.value.body;
      var id := Get(body, "id");
      if id.Some? && Truthy(id.value) && id.value.Str? {
        if IsPaymentId(id.value.s) {
          paymentId := id.value.s;
        }
      }
      var txns := Get(body, "transactions");
      if txns.None? || !txns.value.Arr? {
        return None;
      }
      fault := ExtractTransactions(txns.value.items);
    }

    /** The body of the outer loop for one transaction. */
    method ExtractTransaction(txn: Json) returns (fault: Option<string>)
      modifies this`saleId, this`authorizationId, this`orderId, this`captureId
      ensures Ids() == ApplyAll(old(Ids()), ScanTransaction(txn).visited)
      ensures fault == ScanTransaction(txn).fault
    {
      if txn.Null? {
        return Some(NullTxnMessage);
      }
      var rrs := Get(txn, RelatedKey);
      var items := if rrs.Some? && rrs.value.Arr? then rrs.value.items else [];
      assert items == RelatedOf(txn);
      fault := ExtractRelated(items);
    }

    /** The outer loop over the transactions of a reply body. */
    method ExtractTransactions(ts: seq<Json>) returns (fault: Option<string>)
      modifies this`saleId, this`authorizationId, this`orderId, this`captureId
      ensures Ids() == ApplyAll(old(Ids()), ScanTransactions(ts).visited)
      ensures fault == ScanTransactions(ts).fault
    {
      var i := 0;
      ghost var seen: seq<Json> := [];
      while i < |ts|
        invariant 0 <= i <= |ts|
        invariant ScanTransactions(ts) == Scan(seen + ScanFrom(ts, i).visited, ScanFrom(ts, i).fault)
        invariant Ids() == ApplyAll(old(Ids()), seen)
      {
        ghost var own := ScanTransaction(ts[i]);
        fault := ExtractTransaction(ts[i]);
        ApplyAllAppend(old(Ids()), seen, own.visited);
        FromStep(ts, i, seen);
        if fault.Some? {
          return fault;
        }
        seen := seen + own.visited;
        i := i + 1;
      }
      assert seen + [] == seen;
      return None;
    }

    /**
     * The parse gate of `executeAction`, read from the state: the body for a body
     * action, the patch for update_payment, each only when the editor is not blank.
     */
    method ParseInputs(parse: string -> Result<Json, string>) returns (g: Result<Parsed, string>)
      ensures g == Gate(activeAction, bodyText, parse)
    {
      var parsedBody: Option<Json> := None;
      var parsedPatch: Option<Json> := None;
      var needsBody := Name(activeAction) in BodyActionNames;
      var isPatch := activeAction == UpdatePayment;

      if needsBody && HasContent(bodyText) {
        var r := parse(bodyText);
        if r.Failure? {
          return Failure(InvalidBodyMessage);
        }
        parsedBody := Some(r.value);
      }
      if isPatch && HasContent(bodyText) {
        var r := parse(bodyText);
        if r.Failure? {
          return Failure(InvalidPatchMessage);
        }
        parsedPatch := Some(r.value);
      }
      return Success(Parsed(parsedBody, parsedPatch));
    }

    /**
     * What happens once the request is sent: an error thrown by the request becomes the
     * error result; a reply is kept, its ids extracted, and a history entry recorded
     * unless the extraction throws, in which case the error result replaces the reply.
     */
    method Receive(response: Result<ApiResult, string>, now: string)
      modifies this`loading, this`result, this`paymentId, this`saleId, this`authorizationId,
               this`orderId, this`captureId, this`history
      ensures !loading
      ensures response.Failure? ==>
                result == Some(ErrorResult(response.error)) && history == old(history) &&
                paymentId == old(paymentId) && Ids() == old(Ids())
      ensures response.Success? ==>
                var data := response.value;
                var body := if data.httpResponse.Some? then data.httpResponse.value.body else Null;
                var scan := ScanBody(body);
                paymentId == PaymentIdFrom(body, old(paymentId)) &&
                Ids() == ApplyAll(old(Ids()), scan.visited) &&
                (scan.fault.None? ==>
                   result == Some(data) &&
                   history == PushHistory(old(history), HistoryEntry(Name(activeAction), now, data.success, Summary(data)))) &&
                (scan.fault.Some? ==> result == Some(ErrorResult(scan.fault.value)) && history == old(history))
    {
      if response.Failure? {
        result := Some(ErrorResult(response.error));
        loading := false;
        return;
      }
      var data := response.value;
      result := Some(data);
      var fault := AutoExtract(data);
      if fault.Some? {
        result := Some(ErrorResult(fault.value));
        loading := false;
        return;
      }
      var summary := Summary(data);
      history := PushHistory(history, HistoryEntry(Name(activeAction), now, data.success, summary));
      loading := false;
    }

    /**
     * `executeAction`: abort without credentials or on a body that does not parse;
     * otherwise send one request built from the state and take in what comes back.
     * `response` is what the request to the route yields (the decoded reply, or the
     * message of the error it throws), `now` the local time.
     */
    method ExecuteAction(parse: string -> Result<Json, string>, response: Result<ApiResult, string>, now: string)
      returns (sent: Option<RouteInput>)
      modifies this`loading, this`result, this`paymentId, this`saleId, this`authorizationId,
               this`orderId, this`captureId, this`history
      ensures (clientId == "" || clientSecret == "") ==>
                sent.None? && result == old(result) && loading == old(loading) && history == old(history) &&
                paymentId == old(paymentId) && Ids() == old(Ids())
      ensures clientId != "" && clientSecret != "" ==> !loading
      ensures clientId != "" && clientSecret != "" && Gate(activeAction, bodyText, parse).Failure? ==>
                sent.None? && result.None? && history == old(history) &&
                paymentId == old(paymentId) && Ids() == old(Ids())
      ensures sent.Some? <==> clientId != "" && clientSecret != "" && Gate(activeAction, bodyText, parse).Success?
      ensures sent.Some? ==> sent == Some(old(Request(Gate(activeAction, bodyText, parse).value)))
      ensures sent.Some? && response.Failure? ==>
                result == Some(ErrorResult(response.error)) && history == old(history) &&
                paymentId == old(paymentId) && Ids() == old(Ids())
      ensures sent.Some? && response.Success? ==>
                var data := response.value;
                var body := if data.httpResponse.Some? then data.httpResponse.value.body else Null;
                var scan := ScanBody(body);
                paymentId == PaymentIdFrom(body, old(paymentId)) &&
                Ids() == ApplyAll(old(Ids()), scan.visited) &&
                (scan.fault.None? ==>
                   result == Some(data) &&
                   history == PushHistory(old(history), HistoryEntry(Name(activeAction), now, data.success, Summary(data)))) &&
                (scan.fault.Some? ==> result == Some(ErrorResult(scan.fault.value)) && history == old(history))
    {
      if clientId == "" || clientSecret == "" {
        return None;
      }
      loading := true;
      result := None;
      var g := ParseInputs(parse);
      if g.Failure? {
        loading := false;
        return None;
      }
      sent := Some(Request(g.value));
      Receive(response, now);
    }
  }

  /** Once the inner scan has stopped, later resources change nothing. */
  lemma {:induction false} RelatedFaultSticks(rrs: seq<Json>, k: nat)
    requires k <= |rrs| && RelatedPrefix(rrs, k).fault.Some?
    ensures ScanRelated(rrs) == RelatedPrefix(rrs, k)
  {
    RelatedSticksUpTo(rrs, k, |rrs|);
  }

  lemma {:induction false} RelatedSticksUpTo(rrs: seq<Json>, k: nat, j: nat)
    requires k <= j <= |rrs| && RelatedPrefix(rrs, k).fault.Some?
    ensures RelatedPrefix(rrs, j) == RelatedPrefix(rrs, k)
    decreases j - k
  {
    if j > k {
      RelatedSticksUpTo(rrs, k, j - 1);
    }
  }

  /** One step of the outer loop, with the resources `seen` before it. */
  lemma FromStep(ts: seq<Json>, i: nat, seen: seq<Json>)
    requires i < |ts|
    ensures var own := ScanTransaction(ts[i]);
            if own.fault.Some? then ScanFrom(ts, i) == own
            else seen + ScanFrom(ts, i).visited == (seen + own.visited) + ScanFrom(ts, i + 1).visited &&
                 ScanFrom(ts, i).fault == ScanFrom(ts, i + 1).fault
  {
  }

  /** Once a transaction has thrown, transactions after the scanned ones change nothing. */
  lemma LaterTransactionsIgnored(ts: seq<Json>, extra: seq<Json>)
    requires ScanTransactions(ts).fault.Some?
    ensures ScanTransactions(ts + extra) == ScanTransactions(ts)
  {
    FromIgnoresExtra(ts, extra, 0);
  }

  lemma {:induction false} FromIgnoresExtra(ts: seq<Json>, extra: seq<Json>, i: nat)
    requires i <= |ts| && ScanFrom(ts, i).fault.Some?
    ensures ScanFrom(ts + extra, i) == ScanFrom(ts, i)
    decreases |ts| - i
  {
    assert (ts + extra)[i] == ts[i];
    if ScanTransaction(ts[i]).fault.None? {
      FromIgnoresExtra(ts, extra, i + 1);
    }
  }

  /** Scanning a concatenation applies the two parts in turn. */
  lemma {:induction false} ApplyAllAppend(f: Found, xs: seq<Json>, ys: seq<Json>)
    ensures ApplyAll(f, xs + ys) == ApplyAll(ApplyAll(f, xs), ys)
    decreases |ys|
  {
    if ys != [] {
      var n := |ys| - 1;
      assert (xs + ys)[..|xs + ys| - 1] == xs + ys[..n];
      ApplyAllAppend(f, xs, ys[..n]);
    } else {
      assert xs + ys == xs;
    }
  }
}
