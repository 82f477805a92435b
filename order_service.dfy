/** The typed adapter over the orders endpoint (src/app/services/order.service.ts):
    the request each operation issues, the query parameters of the list
    call, and the message `handleError` turns a failed call into. A call is
    modelled by the request it issues; transport is not modelled. */
module OrderService {
  import opened Models
  import JsText

  const ApiUrl: string := "/api/orders"

  datatype Verb = Get | Post | Put | Delete

  datatype Param = Param(key: string, value: string)

  datatype Request = Request(verb: Verb, url: string, params: seq<Param>, body: Option<OrderPayload>)

  /** The value of the first parameter named `key`, if any. */
  function Lookup(params: seq<Param>, key: string): Option<string> {
    if params == [] then None
    else if params[0].key == key then Some(params[0].value)
    else Lookup(params[1..], key)
  }

  /** The query of `getOrders(filterDate, searchTerm)`; an argument left out
      is `None`. */
  function OrdersParams(filterDate: Option<string>, searchTerm: Option<string>): seq<Param> {
    (if Truthy(filterDate) then [Param("date", filterDate.value)] else [])
    + (if searchTerm.Some? && JsText.Trim(searchTerm.value) != ""
       then [Param("search", JsText.Trim(searchTerm.value))] else [])
  }

  function GetOrders(filterDate: Option<string>, searchTerm: Option<string>): Request {
    Request(Get, ApiUrl, OrdersParams(filterDate, searchTerm), None)
  }

  /** `${id}` of a `string | number` identifier. */
  function IdText(id: Id): string {
    match id
    case StrId(s) => s
    case NumId(n) => JsText.NumberText(n)
  }

  /** The URL of one order. */
  function OrderUrl(id: Id): string {
    ApiUrl + "/" + IdText(id)
  }

  function GetOrderById(id: Id): Request {
    Request(Get, OrderUrl(id), [], None)
  }

  function CreateOrder(payload: OrderPayload): Request {
    Request(Post, ApiUrl, [], Some(payload))
  }

  function UpdateOrder(id: Id, payload: OrderPayload): Request {
    Request(Put, OrderUrl(id), [], Some(payload))
  }

  function DeleteOrder(id: Id): Request {
    Request(Delete, OrderUrl(id), [], None)
  }

  /** The `date` parameter is present exactly when the date filter is a
      non-empty string, and then carries it unchanged. */
  lemma DateParam(filterDate: Option<string>, searchTerm: Option<string>)
    ensures Lookup(OrdersParams(filterDate, searchTerm), "date")
            == if Truthy(filterDate) then filterDate else None
  {
    var ps := OrdersParams(filterDate, searchTerm);
    if !Truthy(filterDate) && ps != [] {
      assert ps[1..] == [];
    }
  }

  /** The `search` parameter is present exactly when the term is not blank,
      and then carries the trimmed term. */
  lemma SearchParam(filterDate: Option<string>, searchTerm: Option<string>)
    ensures Lookup(OrdersParams(filterDate, searchTerm), "search")
            == if searchTerm.Some? && JsText.Trim(searchTerm.value) != ""
               then Some(JsText.Trim(searchTerm.value)) else None
  {
    var ps := OrdersParams(filterDate, searchTerm);
    if Truthy(filterDate) {
      assert ps[1..] == OrdersParams(None, searchTerm);
    }
  }

  /** At most the two parameters, `date` before `search`; no arguments give
      no parameters. */
  lemma ParamsShape(filterDate: Option<string>, searchTerm: Option<string>)
    ensures var ps := OrdersParams(filterDate, searchTerm);
      |ps| <= 2
      && (forall i :: 0 <= i < |ps| ==> ps[i].key == "date" || ps[i].key == "search")
      && (|ps| == 2 ==> ps[0].key == "date" && ps[1].key == "search")
    ensures OrdersParams(None, None) == []
  {
  }

  /** The id operations all target the order's own URL, from which the id's
      text can be read back; string ids therefore get distinct URLs. */
  lemma IdOperationsTargetOrderUrl(id: Id, payload: OrderPayload)
    ensures GetOrderById(id).url == UpdateOrder(id, payload).url == DeleteOrder(id).url == OrderUrl(id)
    ensures |OrderUrl(id)| >= |ApiUrl| + 1
            && OrderUrl(id)[..|ApiUrl| + 1] == ApiUrl + "/"
            && OrderUrl(id)[|ApiUrl| + 1..] == IdText(id)
  {
  }

  lemma OrderUrlInjective(a: Id, b: Id)
    requires (a.StrId? && b.StrId?) || (a.NumId? && b.NumId?)
    requires OrderUrl(a) == OrderUrl(b)
    ensures a == b
  {
    var p := |ApiUrl| + 1;
    assert IdText(a) == OrderUrl(a)[p..];
    assert IdText(b) == OrderUrl(b)[p..];
    if a.NumId? {
      JsText.NumberTextInjective(a.number, b.number);
    }
  }

  /** The shapes of `HttpErrorResponse.error`: a client-side `ErrorEvent`, a
      JSON object body (its `message` and `title` fields and its
      `JSON.stringify` rendering, which is not modelled), or anything else
      (null, a string, a number). */
  datatype ErrorPayload =
    | ClientEvent(eventMessage: string)
    | ObjectBody(message: Option<string>, title: Option<string>, json: string)
    | OtherBody

  datatype HttpErrorResponse = HttpErrorResponse(status: int, message: string, error: ErrorPayload)

  const ClientPrefix: string := "Errore del client: "
  const ServerPrefix: string := "Codice errore dal server: "
  const MessageLabel: string := "\nMessaggio: "
  const DetailsLabel: string := "\nDettagli: "

  /** `c0 || c1 || ... || fallback`: the first truthy candidate, and the
      fallback only when no candidate is truthy. */
  function FirstTruthy(candidates: seq<Option<string>>, fallback: string): (r: string)
    ensures (forall i :: 0 <= i < |candidates| ==> !Truthy(candidates[i])) ==> r == fallback
    ensures forall i ::
      (0 <= i < |candidates| && Truthy(candidates[i]) && forall k :: 0 <= k < i ==> !Truthy(candidates[k]))
      ==> r == candidates[i].value
  {
    if candidates == [] then fallback
    else if Truthy(candidates[0]) then candidates[0].value
    else FirstTruthy(candidates[1..], fallback)
  }

  /** `serverError.message || serverError.title || JSON.stringify(serverError)`. */
  function Details(message: Option<string>, title: Option<string>, json: string): string {
    if Truthy(message) then message.value
    else if Truthy(title) then title.value
    else json
  }

  /** The fallback chain is the first truthy of the message and the title,
      else the JSON rendering. */
  lemma DetailsIsFirstTruthy(message: Option<string>, title: Option<string>, json: string)
    ensures Details(message, title, json) == FirstTruthy([message, title], json)
  {
    assert [message, title][1..] == [title];
    assert [title][1..] == [];
  }

  /** The message `handleError` builds. */
  function ErrorMessage(e: HttpErrorResponse): string {
    match e.error
    case ClientEvent(m) => ClientPrefix + m
    case ObjectBody(m, t, j) =>
      ServerPrefix + JsText.NumberText(e.status) + MessageLabel + e.message + DetailsLabel + Details(m, t, j)
    case OtherBody =>
      ServerPrefix + JsText.NumberText(e.status) + MessageLabel + e.message
  }

  /** `handleError` re-raises every failure as an error carrying the message. */
  function HandleError<T>(e: HttpErrorResponse): (r: Result<T, string>)
    ensures r.Err? && r.error == ErrorMessage(e)
  {
    Err(ErrorMessage(e))
  }

  /** A client-side event is reported with the client prefix and its own
      message. */
  lemma ClientErrorMessage(e: HttpErrorResponse)
    requires e.error.ClientEvent?
    ensures var m := ErrorMessage(e);
      m[..|ClientPrefix|] == ClientPrefix && m[|ClientPrefix|..] == e.error.eventMessage
  {
  }

  /** A server failure starts with its status and transport message; details
      follow exactly when the body is an object. */
  lemma ServerErrorMessage(e: HttpErrorResponse)
    requires !e.error.ClientEvent?
    ensures var head := ServerPrefix + JsText.NumberText(e.status) + MessageLabel + e.message;
      var m := ErrorMessage(e);
      |head| <= |m| && m[..|head|] == head
      && (e.error.OtherBody? ==> m == head)
      && (e.error.ObjectBody? ==>
            m[|head|..] == DetailsLabel + Details(e.error.message, e.error.title, e.error.json))
  {
  }
}
