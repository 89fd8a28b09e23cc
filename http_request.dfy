/**
 * Private/DataTableHttpRequest.cpp: resolving a request row and its service
 * row into a request plan (`BuildRequest`), issuing it (`Send`) and routing
 * the transport's completion to the bound handler and to the two broadcast
 * channels (the lambda bound in `Send`).
 *
 * The transport, the handler and the delegates are observed through an event
 * log: every transport call, handler call and broadcast appends one entry.
 */
module HttpRequest {

  import opened Wrappers
  import opened HeaderMaps
  import opened HttpRows

  /** `UDataTableHttpRequestData`: the plan `BuildRequest` returns. */
  datatype RequestData = RequestData(
    verb: string,
    uri: string,
    headers: HeaderMap,
    timeoutSeconds: int)

  /** The two data tables the row handles point into. */
  datatype ConfigStore = ConfigStore(
    requests: map<RowKey, RequestRow>,
    services: map<RowKey, ServiceRow>)

  /** What `Send` configures on the transport's request object before `ProcessRequest`. */
  datatype TransportRequest = TransportRequest(
    verb: string,
    url: string,
    content: string,
    timeoutSeconds: int,
    headers: map<string, string>)

  datatype HandlerEntry = HandleSuccess | HandleFailure

  /** The two multicast delegates of `UDataTableHttpRequest`. */
  datatype Channel = OnRequestFailed | OnRequestSucceed

  datatype Event =
    | TransportCall(request: TransportRequest)
    | HandlerCall(entry: HandlerEntry, handlerClass: HandlerClass, status: Status, response: Option<ResponseData>)
    | Broadcast(channel: Channel, status: Status, response: Option<ResponseData>)

  // ---------------------------------------------------------------------------
  // Request resolution

  /** `FDataTableRowHandle::GetRow`: the row a handle names, if the handle is set and the row exists. */
  function GetRow<T>(table: map<RowKey, T>, handle: Option<RowKey>): (row: Option<T>)
    ensures row.Some? <==> handle.Some? && handle.value in table
    ensures row.Some? ==> row.value == table[handle.value]
  {
    if handle.Some? && handle.value in table then Some(table[handle.value]) else None
  }

  /**
   * The header map the two loops of `BuildRequest` leave: every request
   * header, and every default header whose key no request header matches
   * ignoring case. A request header overrides a default spelt in another
   * case, and its own spelling is the one kept.
   */
  function MergeHeaders(defaults: HeaderMap, overrides: HeaderMap): (merged: HeaderMap)
    ensures merged.Keys == overrides.Keys + (set k | k in defaults && !HasKey(overrides, k))
    ensures forall k :: k in overrides ==> merged[k] == overrides[k]
    ensures forall k :: k in defaults && !HasKey(overrides, k) ==> merged[k] == defaults[k]
    ensures forall k :: k in defaults ==> HasKey(merged, k)
  {
    var merged := map k | k in overrides.Keys + defaults.Keys && (k in overrides || !HasKey(overrides, k)) ::
      if k in overrides then overrides[k] else defaults[k];
    assert forall k :: k in defaults && HasKey(overrides, k) ==> HasKey(merged, k) by {
      forall k | k in defaults && HasKey(overrides, k) ensures HasKey(merged, k) {
        var o :| o in overrides && SameKey(o, k);
        assert o in merged;
      }
    }
    assert forall k :: k in defaults && !HasKey(overrides, k) ==> HasKey(merged, k) by {
      forall k | k in defaults && !HasKey(overrides, k) ensures HasKey(merged, k) {
        assert k in merged && SameKey(k, k);
      }
    }
    merged
  }

  /**
   * Adding one more request header to a partial merge gives the merge with
   * that header included, when no header merged so far has its key.
   */
  lemma MergeThenAdd(defaults: HeaderMap, done: HeaderMap, next: HeaderMap, key: string, value: string)
    requires !HasKey(done, key)
    requires next == done[key := value]
    ensures AddHeader(MergeHeaders(defaults, done), key, value) == MergeHeaders(defaults, next)
  {
    var before := MergeHeaders(defaults, done);
    var lhs := AddHeader(before, key, value);
    var rhs := MergeHeaders(defaults, next);
    forall k | k in lhs ensures k in rhs && lhs[k] == rhs[k] {
      if k != key {
        assert k in before && !SameKey(k, key);
      }
    }
    forall k | k in rhs ensures k in lhs {
      if k != key && k !in done {
        assert k in defaults && !HasKey(next, k);
        assert !SameKey(k, key) by {
          assert key in next;
        }
      }
    }
    assert lhs.Keys == rhs.Keys;
  }

  /**
   * A request header spelt in another case than the default it matches
   * replaces it: one header is left, with the request's spelling and value.
   */
  lemma MergeIgnoresCase()
    ensures MergeHeaders(map["Content-Type" := "application/json"], map["content-type" := "text/plain"])
         == map["content-type" := "text/plain"]
  {
    var overrides: HeaderMap := map["content-type" := "text/plain"];
    assert SameKey("content-type", "Content-Type") by {
      assert FoldCase("content-type") == "CONTENT-TYPE";
      assert FoldCase("Content-Type") == "CONTENT-TYPE";
    }
    assert HasKey(overrides, "Content-Type");
  }

  /**
   * The plan `BuildRequest` yields for the request-row handle `requestRow`:
   * None when that row or the service row it names is missing or its handle
   * is unset; otherwise the service's default headers overwritten by the
   * request's headers (keys compared ignoring case), the base URL followed
   * verbatim by the path, the smaller of the two timeouts and the verb's
   * method name.
   */
  function ResolveRequest(store: ConfigStore, requestRow: Option<RowKey>): (plan: Option<RequestData>)
    ensures plan.None? <==>
      GetRow(store.requests, requestRow).None? ||
      GetRow(store.services, store.requests[requestRow.value].service).None?
    ensures plan.Some? ==>
      var req := store.requests[requestRow.value];
      var svc := store.services[req.service.value];
      var p := plan.value;
      && p.headers.Keys == req.requestHeaders.Keys
           + (set k | k in svc.defaultRequestHeaders && !HasKey(req.requestHeaders, k))
      && (forall k :: k in req.requestHeaders ==> p.headers[k] == req.requestHeaders[k])
      && (forall k :: k in svc.defaultRequestHeaders && !HasKey(req.requestHeaders, k) ==>
            p.headers[k] == svc.defaultRequestHeaders[k])
      && |p.uri| == |svc.baseUrl| + |req.path|
      && p.uri[..|svc.baseUrl|] == svc.baseUrl
      && p.uri[|svc.baseUrl|..] == req.path
      && p.timeoutSeconds <= svc.requestTimeoutSeconds
      && p.timeoutSeconds <= req.timeoutSeconds
      && (p.timeoutSeconds == svc.requestTimeoutSeconds || p.timeoutSeconds == req.timeoutSeconds)
      && p.verb == VerbToFString(req.verb)
  {
    match GetRow(store.requests, requestRow)
    case None => None
    case Some(req) =>
      match GetRow(store.services, req.service)
      case None => None
      case Some(svc) =>
        Some(RequestData(
          VerbToFString(req.verb),
          svc.baseUrl + req.path,
          MergeHeaders(svc.defaultRequestHeaders, req.requestHeaders),
          if svc.requestTimeoutSeconds <= req.timeoutSeconds then svc.requestTimeoutSeconds else req.timeoutSeconds))
  }

  /** A request row left at its defaults has an unset service handle, so it never resolves. */
  lemma DefaultRequestRowNeverResolves(store: ConfigStore, requestRow: RowKey)
    requires requestRow in store.requests && store.requests[requestRow] == DefaultRequestRow
    ensures ResolveRequest(store, Some(requestRow)) == None
  {
  }

  /**
   * A request row at its defaults except for a handle naming a service row
   * at its defaults resolves to a five-second GET with no headers.
   */
  lemma ResolveDefaultRows(store: ConfigStore, requestRow: RowKey, service: RowKey)
    requires requestRow in store.requests
    requires store.requests[requestRow] == DefaultRequestRow.(service := Some(service))
    requires service in store.services && store.services[service] == DefaultServiceRow
    ensures ResolveRequest(store, Some(requestRow)) == Some(RequestData("GET", "", map[], 5))
  {
  }

  // ---------------------------------------------------------------------------
  // Status classification

  /**
   * One arm of a C++ `switch` that assigns the status and ends without
   * `break`; `caseLabel == None` is the `default:` arm.
   */
  datatype StatusCase = StatusCase(caseLabel: Option<int>, assigns: Status)

  /** The switch on the response code, arm by arm in source order. */
  const ResponseCodeSwitch: seq<StatusCase> := [
    StatusCase(Some(200), Http_Ok_200),
    StatusCase(Some(201), Http_Created_201),
    StatusCase(None, Http_WhyDoYouHateMe)
  ]

  /** The first arm carrying `caseLabel`, or `|cases|` if there is none. */
  function CaseIndex(cases: seq<StatusCase>, caseLabel: Option<int>): (i: nat)
    ensures i <= |cases|
    ensures i < |cases| ==> cases[i].caseLabel == caseLabel
    ensures forall j :: 0 <= j < i ==> cases[j].caseLabel != caseLabel
  {
    if cases == [] || cases[0].caseLabel == caseLabel then 0 else 1 + CaseIndex(cases[1..], caseLabel)
  }

  /**
   * Where control enters the switch on `code`: the arm labelled `code`,
   * otherwise the `default:` arm, otherwise past the last arm.
   */
  function EntryCase(cases: seq<StatusCase>, code: int): (i: nat)
    ensures i <= |cases|
    ensures i < |cases| ==>
      cases[i].caseLabel == Some(code) ||
      (cases[i].caseLabel == None && forall j :: 0 <= j < |cases| ==> cases[j].caseLabel != Some(code))
    ensures i == |cases| ==>
      forall j :: 0 <= j < |cases| ==> cases[j].caseLabel != Some(code) && cases[j].caseLabel != None
  {
    var labelled := CaseIndex(cases, Some(code));
    if labelled < |cases| then labelled else CaseIndex(cases, None)
  }

  /**
   * Runs the arms from `from` to the end, as a switch without `break` does:
   * each arm overwrites the status, so the last arm's assignment survives.
   * `current` is the status before the first arm runs (None: unassigned).
   */
  function RunWithoutBreak(cases: seq<StatusCase>, from: nat, current: Option<Status>): (r: Option<Status>)
    requires from <= |cases|
    ensures from < |cases| ==> r == Some(cases[|cases| - 1].assigns)
    ensures from == |cases| ==> r == current
    decreases |cases| - from
  {
    if from == |cases| then current
    else RunWithoutBreak(cases, from + 1, Some(cases[from].assigns))
  }

  /**
   * The status the completion derives from a response code. Whatever arm
   * control enters, it falls through to `default:`, so every code, 200 and
   * 201 included, classifies as the catch-all.
   */
  function ClassifyResponseCode(code: int): (status: Status)
    ensures status == Http_WhyDoYouHateMe
  {
    RunWithoutBreak(ResponseCodeSwitch, EntryCase(ResponseCodeSwitch, code), None).value
  }

  // ---------------------------------------------------------------------------
  // Completion routing

  /** The engine's `NewObject` needs a class: a resolving request row must name its handler class. */
  predicate HandlerBindable(store: ConfigStore, requestRow: Option<RowKey>)
  {
    GetRow(store.requests, requestRow).Some? ==> store.requests[requestRow.value].responseHandler.Some?
  }

  /**
   * The handler class the completion instantiates: the `ResponseHandler`
   * class of the request row, or None when the row no longer resolves.
   */
  function HandlerFor(store: ConfigStore, requestRow: Option<RowKey>): (h: Option<HandlerClass>)
    requires HandlerBindable(store, requestRow)
    ensures h.Some? <==> requestRow.Some? && requestRow.value in store.requests
    ensures h.Some? ==> h.value == store.requests[requestRow.value].responseHandler.value
  {
    match GetRow(store.requests, requestRow)
    case None => None
    case Some(req) => req.responseHandler
  }

  /** A call of `entry` on the handler, if there is one. */
  function HandlerCalls(handler: Option<HandlerClass>, entry: HandlerEntry, status: Status, response: Option<ResponseData>): seq<Event>
  {
    if handler.Some? then [HandlerCall(entry, handler.value, status, response)] else []
  }

  /**
   * The entries the completion appends, given the tables at completion time
   * and the transport's outcome.
   */
  function CompletionEvents(store: ConfigStore, requestRow: Option<RowKey>, hasResponse: bool, responseCode: int, connected: bool): (events: seq<Event>)
    requires HandlerBindable(store, requestRow)
    ensures forall e :: e in events ==>
      && !e.TransportCall?
      && e.status == Http_WhyDoYouHateMe
      && (e.response == None || e.response == Some(EmptyResponseData))
      && (e.response == None <==> !hasResponse)
  {
    var handler := HandlerFor(store, requestRow);
    if !hasResponse then
      HandlerCalls(handler, HandleFailure, Http_WhyDoYouHateMe, None)
        + [Broadcast(OnRequestFailed, Http_WhyDoYouHateMe, None)]
    else
      var status := ClassifyResponseCode(responseCode);
      var data := Some(EmptyResponseData);
      if connected then
        HandlerCalls(handler, HandleSuccess, status, data) + [Broadcast(OnRequestFailed, status, data)]
      else
        HandlerCalls(handler, HandleFailure, status, data) + [Broadcast(OnRequestSucceed, status, data)]
  }

  /**
   * A completion makes exactly one broadcast, as its last entry; before it
   * comes one handler call when the request row resolves and none otherwise;
   * it never calls the transport.
   */
  lemma CompletionBroadcastsOnce(store: ConfigStore, requestRow: Option<RowKey>, hasResponse: bool, responseCode: int, connected: bool)
    requires HandlerBindable(store, requestRow)
    ensures var events := CompletionEvents(store, requestRow, hasResponse, responseCode, connected);
      && |events| == (if requestRow.Some? && requestRow.value in store.requests then 2 else 1)
      && events[|events| - 1].Broadcast?
      && (forall i :: 0 <= i < |events| - 1 ==> events[i].HandlerCall?)
      && (forall i :: 0 <= i < |events| ==> !events[i].TransportCall?)
  {
  }

  /**
   * Without a response object: the handler's `HandleFailure` with the
   * catch-all status and no data, then `OnRequestFailed` with the same
   * arguments, whatever the connectivity flag and the code.
   */
  lemma CompletionWithoutResponse(store: ConfigStore, requestRow: Option<RowKey>, responseCode: int, connected: bool)
    requires HandlerBindable(store, requestRow)
    ensures var events := CompletionEvents(store, requestRow, false, responseCode, connected);
      && events[|events| - 1] == Broadcast(OnRequestFailed, Http_WhyDoYouHateMe, None)
      && (requestRow.Some? && requestRow.value in store.requests ==>
            events[0] == HandlerCall(HandleFailure, store.requests[requestRow.value].responseHandler.value, Http_WhyDoYouHateMe, None))
  {
  }

  /**
   * A response over a successful connection: `HandleSuccess`, then the
   * `OnRequestFailed` broadcast, both with the catch-all status and an empty
   * response-data object.
   */
  lemma CompletionConnected(store: ConfigStore, requestRow: Option<RowKey>, responseCode: int)
    requires HandlerBindable(store, requestRow)
    ensures var events := CompletionEvents(store, requestRow, true, responseCode, true);
      && events[|events| - 1] == Broadcast(OnRequestFailed, Http_WhyDoYouHateMe, Some(EmptyResponseData))
      && (requestRow.Some? && requestRow.value in store.requests ==>
            events[0] == HandlerCall(HandleSuccess, store.requests[requestRow.value].responseHandler.value,
                                     Http_WhyDoYouHateMe, Some(EmptyResponseData)))
  {
  }

  /**
   * A response over a failed connection: `HandleFailure`, then the
   * `OnRequestSucceed` broadcast, both with the catch-all status and an empty
   * response-data object.
   */
  lemma CompletionDisconnected(store: ConfigStore, requestRow: Option<RowKey>, responseCode: int)
    requires HandlerBindable(store, requestRow)
    ensures var events := CompletionEvents(store, requestRow, true, responseCode, false);
      && events[|events| - 1] == Broadcast(OnRequestSucceed, Http_WhyDoYouHateMe, Some(EmptyResponseData))
      && (requestRow.Some? && requestRow.value in store.requests ==>
            events[0] == HandlerCall(HandleFailure, store.requests[requestRow.value].responseHandler.value,
                                     Http_WhyDoYouHateMe, Some(EmptyResponseData)))
  {
  }

  // ---------------------------------------------------------------------------
  // The request object

  /**
   * `UDataTableHttpRequest`: the handle of its request row, the tables that
   * handle resolves against, the log of what it has done, and the number of
   * issued transport calls whose completion has not run yet.
   */
  class DataTableHttpRequest {
    var requestRow: Option<RowKey>
    var store: ConfigStore
    var log: seq<Event>
    var pending: nat

    constructor (requestRow: Option<RowKey>, store: ConfigStore)
      ensures this.requestRow == requestRow && this.store == store && log == [] && pending == 0
    {
      this.requestRow := requestRow;
      this.store := store;
      log := [];
      pending := 0;
    }

    /**
     * `BuildRequest`: looks up the request row and its service row, copies the
     * service's default headers into a fresh map, adds the request's headers
     * over them, and fills in the URI, verb and timeout.
     */
    method BuildRequest() returns (data: Option<RequestData>)
      ensures data == ResolveRequest(store, requestRow)
    {
      var requestRecord := GetRow(store.requests, requestRow);
      if requestRecord.None? {
        return None;
      }
      var req := requestRecord.value;
      var serviceRecord := GetRow(store.services, req.service);
      if serviceRecord.None? {
        return None;
      }
      var svc := serviceRecord.value;

      var headers: HeaderMap := map[];
      var todo := svc.defaultRequestHeaders.Keys;
      while todo != {}
        invariant todo <= svc.defaultRequestHeaders.Keys
        invariant headers.Keys == svc.defaultRequestHeaders.Keys - todo
        invariant forall k :: k in headers ==> headers[k] == svc.defaultRequestHeaders[k]
        decreases todo
      {
        var k :| k in todo;
        headers := AddHeader(headers, k, svc.defaultRequestHeaders[k]);
        todo := todo - {k};
      }
      assert headers == svc.defaultRequestHeaders;

      ghost var done: HeaderMap := map[];
      todo := req.requestHeaders.Keys;
      while todo != {}
        invariant todo <= req.requestHeaders.Keys
        invariant done.Keys == req.requestHeaders.Keys - todo
        invariant forall k :: k in done ==> done[k] == req.requestHeaders[k]
        invariant headers == MergeHeaders(svc.defaultRequestHeaders, done)
        decreases todo
      {
        var k :| k in todo;
        assert !HasKey(done, k) by {
          if o :| o in done && SameKey(o, k) {
            assert o in req.requestHeaders && o != k;
          }
        }
        ghost var next: HeaderMap := done[k := req.requestHeaders[k]];
        MergeThenAdd(svc.defaultRequestHeaders, done, next, k, req.requestHeaders[k]);
        headers := AddHeader(headers, k, req.requestHeaders[k]);
        done := next;
        todo := todo - {k};
      }
      assert done == req.requestHeaders;

      var uri := svc.baseUrl + req.path;
      var timeout := if svc.requestTimeoutSeconds <= req.timeoutSeconds
        then svc.requestTimeoutSeconds else req.timeoutSeconds;
      data := Some(RequestData(VerbToFString(req.verb), uri, headers, timeout));
    }

    /**
     * `Send`: when a plan resolves, configures one transport request with the
     * plan's verb, URI, timeout and every merged header and the given body,
     * binds the completion to it and issues it; when none resolves, does
     * nothing, so no completion can follow.
     */
    method Send(requestContent: string)
      modifies this`log, this`pending
      ensures ResolveRequest(store, requestRow).None? ==> log == old(log) && pending == old(pending)
      ensures ResolveRequest(store, requestRow).Some? ==>
        var p := ResolveRequest(store, requestRow).value;
        && log == old(log) + [TransportCall(TransportRequest(p.verb, p.uri, requestContent, p.timeoutSeconds, p.headers))]
        && pending == old(pending) + 1
    {
      var data := BuildRequest();
      if data.None? {
        return;
      }
      var plan := data.value;
      var request := TransportRequest("", "", "", 0, map[]);
      request := request.(verb := plan.verb);
      request := request.(url := plan.uri);
      request := request.(content := requestContent);
      request := request.(timeoutSeconds := plan.timeoutSeconds);

      var todo := plan.headers.Keys;
      while todo != {}
        invariant todo <= plan.headers.Keys
        invariant request.headers.Keys == plan.headers.Keys - todo
        invariant forall k :: k in request.headers ==> request.headers[k] == plan.headers[k]
        invariant request.(headers := map[]) == TransportRequest(plan.verb, plan.uri, requestContent, plan.timeoutSeconds, map[])
        decreases todo
      {
        var k :| k in todo;
        request := request.(headers := request.headers[k := plan.headers[k]]);
        todo := todo - {k};
      }
      assert request.headers == plan.headers;

      pending := pending + 1;
      log := log + [TransportCall(request)];
    }

    /**
     * The completion bound in `Send`, for a transport outcome: whether a
     * response object exists, its code, and the connectivity flag. It runs
     * once for a transport call `Send` issued. It looks the request row up
     * again and instantiates that row's handler class if the row resolves,
     * then calls the handler and broadcasts.
     */
    method OnProcessRequestComplete(hasResponse: bool, responseCode: int, connected: bool)
      requires pending > 0
      requires HandlerBindable(store, requestRow)
      modifies this`log, this`pending
      ensures pending == old(pending) - 1
      ensures log == old(log) + CompletionEvents(store, requestRow, hasResponse, responseCode, connected)
    {
      pending := pending - 1;
      var requestRecord := GetRow(store.requests, requestRow);
      var handler: ResponseHandler? := null;
      if requestRecord.Some? {
        handler := new ResponseHandler(requestRecord.value.responseHandler.value);
      }

      if !hasResponse {
        if handler != null {
          handler.HandleFailure(Http_WhyDoYouHateMe, None);
          log := log + [HandlerCall(HandleFailure, handler.handlerClass, Http_WhyDoYouHateMe, None)];
        }
        log := log + [Broadcast(OnRequestFailed, Http_WhyDoYouHateMe, None)];
        return;
      }

      var responseData := Some(EmptyResponseData);
      var status := ClassifyResponseCode(responseCode);

      if connected {
        if handler != null {
          handler.HandleSuccess(status, responseData);
          log := log + [HandlerCall(HandleSuccess, handler.handlerClass, status, responseData)];
        }
        log := log + [Broadcast(OnRequestFailed, status, responseData)];
      } else {
        if handler != null {
          handler.HandleFailure(status, responseData);
          log := log + [HandlerCall(HandleFailure, handler.handlerClass, status, responseData)];
        }
        log := log + [Broadcast(OnRequestSucceed, status, responseData)];
      }
    }
  }
}
