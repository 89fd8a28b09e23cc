/**
 * The declarations of Public/DataTableHttpRequest.h: the verb and status
 * enumerations, the two data-table row records with their default field
 * values, the verb-to-wire-string conversion, and the default response
 * handler whose two callbacks do nothing.
 */
module HttpRows {

  import opened Wrappers
  import opened HeaderMaps

  /** The storage type of both enumerations (`enum class … : uint8`). */
  newtype uint8 = x: int | 0 <= x < 256

  /**
   * Names a row of a data table. A row handle (`FDataTableRowHandle`) is an
   * `Option<RowKey>`: None while the handle is unset (no table chosen).
   */
  type RowKey = string

  /** Names a subclass of the response handler (`TSubclassOf<UDataTableHttpResponseHandler>`). */
  type HandlerClass = string

  // ---------------------------------------------------------------------------
  // EHttpVerb

  datatype HttpVerb = Get | Put | Post | Patch | Delete

  /** Every enumerator, in declaration order. */
  const AllVerbs: seq<HttpVerb> := [Get, Put, Post, Patch, Delete]

  /** The byte each declared enumerator is stored as: its position in the declaration. */
  function VerbCode(v: HttpVerb): (code: uint8)
    ensures (code as int) < |AllVerbs| && AllVerbs[code as int] == v
  {
    match v
    case Get => 0
    case Put => 1
    case Post => 2
    case Patch => 3
    case Delete => 4
  }

  /** The five method names `VerbToFString` can produce. */
  const WireVerbs: set<string> := {"GET", "PUT", "POST", "PATCH", "DELETE"}

  /**
   * `FHttpRequestRow::VerbToFString`: the HTTP method name of a stored verb
   * byte. A byte that is not one of the five enumerators reaches the
   * `default:` arm and yields "GET".
   */
  function VerbToFString(verb: uint8): (s: string)
    ensures s in WireVerbs
    ensures s != "GET" ==> verb != VerbCode(Get) && verb < 5
  {
    if verb == VerbCode(Get) then "GET"
    else if verb == VerbCode(Put) then "PUT"
    else if verb == VerbCode(Post) then "POST"
    else if verb == VerbCode(Patch) then "PATCH"
    else if verb == VerbCode(Delete) then "DELETE"
    else "GET"
  }

  /** Each declared verb maps to the method name of the same spelling. */
  lemma VerbToFStringOfDeclared()
    ensures VerbToFString(VerbCode(Get)) == "GET"
    ensures VerbToFString(VerbCode(Put)) == "PUT"
    ensures VerbToFString(VerbCode(Post)) == "POST"
    ensures VerbToFString(VerbCode(Patch)) == "PATCH"
    ensures VerbToFString(VerbCode(Delete)) == "DELETE"
  {
  }

  /** A byte that is no declared verb falls to the default arm: "GET". */
  lemma VerbToFStringUndeclared(verb: uint8)
    requires forall v: HttpVerb :: VerbCode(v) != verb
    ensures VerbToFString(verb) == "GET"
  {
  }

  /** Distinct declared verbs never share a method name. */
  lemma VerbToFStringInjective(v: HttpVerb, w: HttpVerb)
    requires VerbToFString(VerbCode(v)) == VerbToFString(VerbCode(w))
    ensures v == w
  {
  }

  // ---------------------------------------------------------------------------
  // EDataTableHttpRequestStatus

  datatype Status =
    | Http_Ok_200
    | Http_Created_201
    | Http_NoContent_204
    | Http_MovedPermanently_301
    | Http_BadRequest_400
    | Http_Unauthorized_401
    | Http_PaymentRequired_402
    | Http_Forbidden_403
    | Http_NotFound_404
    | Http_MethodNotAllowed_405
    | Http_RequestTimeout_408
    | Http_TooManyRequests_429
    | Http_InternalServerError_500
    | Http_NotImplemented_501
    | Http_BadGateway_502
    | Http_ServiceUnavailable_503
    | Http_GatewayTimeout_504
    | Http_WhyDoYouHateMe

  /** Every enumerator, in declaration order. */
  const AllStatuses: seq<Status> := [
    Http_Ok_200, Http_Created_201, Http_NoContent_204, Http_MovedPermanently_301,
    Http_BadRequest_400, Http_Unauthorized_401, Http_PaymentRequired_402, Http_Forbidden_403,
    Http_NotFound_404, Http_MethodNotAllowed_405, Http_RequestTimeout_408, Http_TooManyRequests_429,
    Http_InternalServerError_500, Http_NotImplemented_501, Http_BadGateway_502,
    Http_ServiceUnavailable_503, Http_GatewayTimeout_504, Http_WhyDoYouHateMe
  ]

  /** The position of a status among the enumerators: it indexes that status in `AllStatuses`. */
  function StatusOrdinal(s: Status): (n: nat)
    ensures n < |AllStatuses| && AllStatuses[n] == s
  {
    match s
    case Http_Ok_200 => 0
    case Http_Created_201 => 1
    case Http_NoContent_204 => 2
    case Http_MovedPermanently_301 => 3
    case Http_BadRequest_400 => 4
    case Http_Unauthorized_401 => 5
    case Http_PaymentRequired_402 => 6
    case Http_Forbidden_403 => 7
    case Http_NotFound_404 => 8
    case Http_MethodNotAllowed_405 => 9
    case Http_RequestTimeout_408 => 10
    case Http_TooManyRequests_429 => 11
    case Http_InternalServerError_500 => 12
    case Http_NotImplemented_501 => 13
    case Http_BadGateway_502 => 14
    case Http_ServiceUnavailable_503 => 15
    case Http_GatewayTimeout_504 => 16
    case Http_WhyDoYouHateMe => 17
  }

  /**
   * The enumeration is closed: eighteen distinct members, seventeen named
   * after an HTTP status and the catch-all `Http_WhyDoYouHateMe` last.
   */
  lemma StatusEnumerationClosed()
    ensures |AllStatuses| == 18
    ensures AllStatuses[17] == Http_WhyDoYouHateMe
    ensures forall s: Status :: s in AllStatuses
    ensures forall i, j :: 0 <= i < j < |AllStatuses| ==> AllStatuses[i] != AllStatuses[j]
  {
    forall s: Status
      ensures s in AllStatuses
    {
      assert AllStatuses[StatusOrdinal(s)] == s;
    }
  }

  // ---------------------------------------------------------------------------
  // Row records

  /** `FHttpServiceRow`: one backend service. */
  datatype ServiceRow = ServiceRow(
    recordName: string,
    baseUrl: string,
    defaultRequestHeaders: HeaderMap,
    requestTimeoutSeconds: int)

  /**
   * `FHttpRequestRow`: one endpoint of a service. `service` is the handle of
   * the service row it belongs to; `verb` is the stored `EHttpVerb` byte;
   * `responseHandler` is None while the handler class is unset.
   */
  datatype RequestRow = RequestRow(
    recordName: string,
    service: Option<RowKey>,
    verb: uint8,
    path: string,
    requestHeaders: HeaderMap,
    timeoutSeconds: int,
    responseHandler: Option<HandlerClass>)

  /** A service row as constructed, before any field is edited. */
  const DefaultServiceRow: ServiceRow := ServiceRow("", "", map[], 5)

  /** A request row as constructed: unset handle, empty strings, the first verb, no handler class. */
  const DefaultRequestRow: RequestRow := RequestRow("", None, VerbCode(Get), "", map[], 5, None)

  /** Both row kinds start with a five-second timeout. */
  lemma DefaultTimeoutsAreFive()
    ensures DefaultServiceRow.requestTimeoutSeconds == 5
    ensures DefaultRequestRow.timeoutSeconds == 5
  {
  }

  // ---------------------------------------------------------------------------
  // Responses and the default handler

  /** `UDataTableHttpResponseData`: the headers and body handed to listeners. */
  datatype ResponseData = ResponseData(headers: map<string, string>, responseContent: string)

  /** A response-data object as `NewObject` creates it. */
  const EmptyResponseData: ResponseData := ResponseData(map[], "")

  /**
   * `UDataTableHttpResponseHandler`: the callbacks a request row binds. The
   * base class's implementations have empty bodies, so calling either one
   * changes no state.
   */
  class ResponseHandler {
    /** The class `NewObject` instantiated. */
    const handlerClass: HandlerClass
    /** The handler's own `RequestRow` property; `NewObject` leaves it unset. */
    var requestRow: Option<RowKey>

    constructor (handlerClass: HandlerClass)
      ensures this.handlerClass == handlerClass && requestRow == None
    {
      this.handlerClass := handlerClass;
      requestRow := None;
    }

    /** `HandleSuccess_Implementation`: does nothing. */
    method HandleSuccess(status: Status, response: Option<ResponseData>)
      ensures unchanged(this)
    {
    }

    /** `HandleFailure_Implementation`: does nothing. */
    method HandleFailure(status: Status, response: Option<ResponseData>)
      ensures unchanged(this)
    {
    }
  }
}
