/**
 * The eighteen actions of the route's `switch`: for each one the HTTP method, the
 * resource path with at most one id, and where the request body comes from.
 */
module Actions {
  import opened Wrappers
  import opened Json
  import opened Query

  datatype Action =
    | CreatePayment | ListPayments | ShowPayment | UpdatePayment | ExecutePayment
    | ShowSale | RefundSale
    | ShowAuthorization | CaptureAuthorization | VoidAuthorization | Reauthorize
    | ShowOrder | CaptureOrder | VoidOrder | AuthorizeOrder
    | ShowCapture | RefundCapture
    | ShowRefund

  /** The action identifier the console sends and the `switch` compares against. */
  function Name(a: Action): string {
    match a
    case CreatePayment => "create_payment"
    case ListPayments => "list_payments"
    case ShowPayment => "show_payment"
    case UpdatePayment => "update_payment"
    case ExecutePayment => "execute_payment"
    case ShowSale => "show_sale"
    case RefundSale => "refund_sale"
    case ShowAuthorization => "show_authorization"
    case CaptureAuthorization => "capture_authorization"
    case VoidAuthorization => "void_authorization"
    case Reauthorize => "reauthorize"
    case ShowOrder => "show_order"
    case CaptureOrder => "capture_order"
    case VoidOrder => "void_order"
    case AuthorizeOrder => "authorize_order"
    case ShowCapture => "show_capture"
    case RefundCapture => "refund_capture"
    case ShowRefund => "show_refund"
  }

  /** Which `case` label of the `switch` matches an incoming action string, if any. */
  function Parse(s: string): (r: Option<Action>)
    ensures r.Some? ==> Name(r.value) == s
  {
    if s == "create_payment" then Some(CreatePayment)
    else if s == "list_payments" then Some(ListPayments)
    else if s == "show_payment" then Some(ShowPayment)
    else if s == "update_payment" then Some(UpdatePayment)
    else if s == "execute_payment" then Some(ExecutePayment)
    else if s == "show_sale" then Some(ShowSale)
    else if s == "refund_sale" then Some(RefundSale)
    else if s == "show_authorization" then Some(ShowAuthorization)
    else if s == "capture_authorization" then Some(CaptureAuthorization)
    else if s == "void_authorization" then Some(VoidAuthorization)
    else if s == "reauthorize" then Some(Reauthorize)
    else if s == "show_order" then Some(ShowOrder)
    else if s == "capture_order" then Some(CaptureOrder)
    else if s == "void_order" then Some(VoidOrder)
    else if s == "authorize_order" then Some(AuthorizeOrder)
    else if s == "show_capture" then Some(ShowCapture)
    else if s == "refund_capture" then Some(RefundCapture)
    else if s == "show_refund" then Some(ShowRefund)
    else None
  }

  /** Every action's own name selects that action: no `case` label is shadowed by another. */
  lemma ParseName(a: Action)
    ensures Parse(Name(a)) == Some(a)
  {
  }

  /** A string is unknown exactly when it is no action's name. */
  lemma ParseUnknown(s: string)
    ensures Parse(s).None? <==> forall a: Action :: Name(a) != s
  {
    if Parse(s).None? {
      forall a: Action ensures Name(a) != s {
        ParseName(a);
      }
    }
  }

  /* ---------- the parameters the URL and the body draw on ---------- */

  /** The six resource ids of the inbound request. */
  datatype Ids = Ids(
    paymentId: string, saleId: string, authorizationId: string,
    orderId: string, captureId: string, refundId: string)

  /** What the mapping reads from the inbound request besides the action. */
  datatype Params = Params(
    ids: Ids,
    payerId: Option<string>,
    requestBody: Option<Json>,
    patchBody: Option<Json>,
    queryParams: Option<ListQuery>)

  /** Which id a URL template takes. */
  datatype IdSlot = NoId | PaymentSlot | SaleSlot | AuthorizationSlot | OrderSlot | CaptureSlot | RefundSlot

  /** Where the body of an action comes from. */
  datatype BodyPolicy =
    | NoBody          // GET actions: nothing is serialised
    | PassThrough     // JSON.stringify(requestBody)
    | FixedEmpty      // JSON.stringify({})
    | EmptyFallback   // JSON.stringify(requestBody || {})
    | PayerFallback   // JSON.stringify(requestBody || { payer_id: payerId })
    | PatchDocument   // JSON.stringify(patchBody)

  /** One row of the table: `<base>/v1/payments/<resource>[/<id>]<tail>`. */
  datatype Row = Row(verb: string, resource: string, slot: IdSlot, tail: string, policy: BodyPolicy)

  function RowOf(a: Action): Row {
    match a
    case CreatePayment => Row("POST", "payment", NoId, "", PassThrough)
    case ListPayments => Row("GET", "payment", NoId, "", NoBody)
    case ShowPayment => Row("GET", "payment", PaymentSlot, "", NoBody)
    case UpdatePayment => Row("PATCH", "payment", PaymentSlot, "", PatchDocument)
    case ExecutePayment => Row("POST", "payment", PaymentSlot, "/execute", PayerFallback)
    case ShowSale => Row("GET", "sale", SaleSlot, "", NoBody)
    case RefundSale => Row("POST", "sale", SaleSlot, "/refund", EmptyFallback)
    case ShowAuthorization => Row("GET", "authorization", AuthorizationSlot, "", NoBody)
    case CaptureAuthorization => Row("POST", "authorization", AuthorizationSlot, "/capture", PassThrough)
    case VoidAuthorization => Row("POST", "authorization", AuthorizationSlot, "/void", FixedEmpty)
    case Reauthorize => Row("POST", "authorization", AuthorizationSlot, "/reauthorize", PassThrough)
    case ShowOrder => Row("GET", "orders", OrderSlot, "", NoBody)
    case CaptureOrder => Row("POST", "orders", OrderSlot, "/capture", PassThrough)
    case VoidOrder => Row("POST", "orders", OrderSlot, "/do-void", FixedEmpty)
    case AuthorizeOrder => Row("POST", "orders", OrderSlot, "/authorize", PassThrough)
    case ShowCapture => Row("GET", "capture", CaptureSlot, "", NoBody)
    case RefundCapture => Row("POST", "capture", CaptureSlot, "/refund", EmptyFallback)
    case ShowRefund => Row("GET", "refund", RefundSlot, "", NoBody)
  }

  function IdFor(slot: IdSlot, ids: Ids): string {
    match slot
    case NoId => ""
    case PaymentSlot => ids.paymentId
    case SaleSlot => ids.saleId
    case AuthorizationSlot => ids.authorizationId
    case OrderSlot => ids.orderId
    case CaptureSlot => ids.captureId
    case RefundSlot => ids.refundId
  }

  const PaymentsPath: string := "/v1/payments/"

  /** `?` and the query, only when the query is not empty. */
  function QuerySuffix(q: Option<ListQuery>): string {
    var qs := QueryString(q);
    if qs == "" then "" else "?" + qs
  }

  /** The request URL the table gives for an action. */
  function UrlFor(a: Action, baseUrl: string, p: Params): string {
    var row := RowOf(a);
    var id := if row.slot == NoId then "" else "/" + IdFor(row.slot, p.ids);
    var query := if a == ListPayments then QuerySuffix(p.queryParams) else "";
    baseUrl + PaymentsPath + row.resource + id + row.tail + query
  }

  /** `{ payer_id: payerId }` as serialised: an undefined member is dropped, leaving `{}`. */
  function PayerObject(payerId: Option<string>): Json {
    if payerId.Some? then Obj([Member("payer_id", Str(payerId.value))]) else Obj([])
  }

  /** The JSON value the table serialises as the body, or None when `apiBody` stays undefined. */
  function BodyFor(a: Action, p: Params): Option<Json> {
    match RowOf(a).policy
    case NoBody => None
    case PassThrough => p.requestBody
    case FixedEmpty => Some(Obj([]))
    case EmptyFallback => if Present(p.requestBody) then p.requestBody else Some(Obj([]))
    case PayerFallback =>
      if Present(p.requestBody) then p.requestBody else Some(PayerObject(p.payerId))
    case PatchDocument => p.patchBody
  }

  /* ---------- properties of the table ---------- */

  function Methods(): set<string> {
    {"GET", "POST", "PATCH"}
  }

  /** Only GET, POST and PATCH occur; PATCH is update_payment alone. */
  lemma MethodsUsed(a: Action)
    ensures RowOf(a).verb in Methods()
    ensures RowOf(a).verb == "PATCH" <==> a == UpdatePayment
  {
  }

  /** A GET action never has a body to send. */
  lemma GetHasNoBody(a: Action, p: Params)
    ensures RowOf(a).verb == "GET" ==> BodyFor(a, p).None?
  {
  }

  /** void_authorization and void_order send `{}` whatever body the caller supplied. */
  lemma VoidSendsEmptyObject(a: Action, p: Params)
    requires a == VoidAuthorization || a == VoidOrder
    ensures BodyFor(a, p) == Some(Obj([]))
  {
  }

  /** The refund actions send the caller's body when it is truthy and `{}` otherwise. */
  lemma RefundDefaultsToEmptyObject(a: Action, p: Params)
    requires a == RefundSale || a == RefundCapture
    ensures Present(p.requestBody) ==> BodyFor(a, p) == p.requestBody
    ensures !Present(p.requestBody) ==> BodyFor(a, p) == Some(Obj([]))
  {
  }

  /**
   * execute_payment sends the caller's body when truthy, else `{"payer_id": payerId}`,
   * which is `{}` when payerId itself is undefined.
   */
  lemma ExecuteDefaultsToPayer(p: Params)
    ensures Present(p.requestBody) ==> BodyFor(ExecutePayment, p) == p.requestBody
    ensures !Present(p.requestBody) && p.payerId.Some? ==>
              BodyFor(ExecutePayment, p) == Some(Obj([Member("payer_id", Str(p.payerId.value))]))
    ensures !Present(p.requestBody) && p.payerId.None? ==> BodyFor(ExecutePayment, p) == Some(Obj([]))
  {
  }

  /** update_payment sends the patch document, and no other action reads it. */
  lemma PatchOnlyForUpdate(a: Action, p: Params, patch: Option<Json>)
    ensures a == UpdatePayment ==> BodyFor(a, p.(patchBody := patch)) == patch
    ensures a != UpdatePayment ==> BodyFor(a, p.(patchBody := patch)) == BodyFor(a, p)
  {
  }

  /** A pass-through action's body is exactly the caller's body, and undefined stays undefined. */
  lemma PassThroughRoundTrip(a: Action, p: Params)
    requires RowOf(a).policy == PassThrough
    ensures BodyFor(a, p) == p.requestBody
  {
  }

  /**
   * The id is inserted verbatim: right after `<base>/v1/payments/<resource>/` the
   * URL holds exactly the id of the action's slot, followed by the fixed tail.
   */
  lemma IdInsertedVerbatim(a: Action, baseUrl: string, p: Params)
    requires RowOf(a).slot != NoId
    ensures var row := RowOf(a);
            var id := IdFor(row.slot, p.ids);
            var k := |baseUrl + PaymentsPath + row.resource + "/"|;
            var url := UrlFor(a, baseUrl, p);
            |url| == k + |id| + |row.tail| && url[..k] == baseUrl + PaymentsPath + row.resource + "/" &&
            url[k..k + |id|] == id && url[k + |id|..] == row.tail
  {
    var row := RowOf(a);
    var id := IdFor(row.slot, p.ids);
    var head := baseUrl + PaymentsPath + row.resource + "/";
    assert UrlFor(a, baseUrl, p) == head + id + row.tail;
  }

  /** The URL depends on the parameters only through the action's own id (and, for list_payments, its query). */
  lemma UrlReadsOnlyItsId(a: Action, baseUrl: string, p: Params, p': Params)
    requires IdFor(RowOf(a).slot, p.ids) == IdFor(RowOf(a).slot, p'.ids)
    requires a == ListPayments ==> p.queryParams == p'.queryParams
    ensures UrlFor(a, baseUrl, p) == UrlFor(a, baseUrl, p')
  {
  }
}
