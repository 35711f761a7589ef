/**
 * The `PayloadCms` node's `execute`: for each input item, dispatch the
 * operation to an HTTP method, endpoint, body and query, hand them to the
 * request helper, and flatten the response into output items. The host's
 * `getNodeParameter` results are the fields of `ItemParams`, and the host's
 * HTTP transport is the `Server` function from the requests this run has
 * already sent and the new request options to a decoded
 * response or a transport error.
 */
module PayloadCmsNode {
  import opened Wrappers
  import opened JsValue
  import opened GenericFunctions

  datatype HttpMethod = GET | POST | PATCH | DELETE

  function MethodName(m: HttpMethod): string {
    match m
    case GET => "GET"
    case POST => "POST"
    case PATCH => "PATCH"
    case DELETE => "DELETE"
  }

  /** The node parameters of one input item, as `getNodeParameter` returns them. */
  datatype ItemParams = ItemParams(
    resource: string,
    operation: string,
    collectionSlug: string,
    entryId: string,
    jsonData: map<string, Value>,
    returnAll: bool,
    limit: Value)

  /** One output item, `{ json: ... }`. */
  datatype ExecutionData = ExecutionData(json: Value)

  /** The `method`, `endpoint`, `body` and `qs` variables after the `switch`. */
  datatype RequestPlan = RequestPlan(
    httpMethod: HttpMethod,
    endpoint: string,
    body: map<string, Value>,
    qs: map<string, Value>)

  datatype NodeError =
    | UnknownOperation(operation: string)   // NodeOperationError `Unknown operation ...`
    | RequestFailed(message: string)        // an error the host's request helper throws

  /**
   * The host's HTTP transport and the CMS behind it: given the requests this run
   * has already sent (the writes the CMS has seen) and the new request, a
   * decoded response body or the error the request helper throws.
   */
  type Server = (seq<RequestOptions>, RequestOptions) -> Result<Value, string>

  const KnownOperations: set<string> := {"create", "get", "getAll", "update", "delete"}

  /** The operations whose endpoint carries the entry id. */
  const EntryOperations: set<string> := {"get", "update", "delete"}

  /** The `switch (operation)` of one item. */
  function PlanRequest(p: ItemParams): (r: Result<RequestPlan, NodeError>)
    ensures r.Failure? <==> p.operation !in KnownOperations
    ensures r.Failure? ==> r.error == UnknownOperation(p.operation)
    ensures r.Success? ==>
      r.value.endpoint
      == "/" + p.collectionSlug + (if p.operation in EntryOperations then "/" + p.entryId else "")
    ensures r.Success? ==>
      && (r.value.httpMethod == POST <==> p.operation == "create")
      && (r.value.httpMethod == PATCH <==> p.operation == "update")
      && (r.value.httpMethod == DELETE <==> p.operation == "delete")
      && (r.value.httpMethod == GET <==> p.operation in {"get", "getAll"})
    ensures r.Success? ==>
      r.value.body == if p.operation in {"create", "update"} then p.jsonData else map[]
    ensures r.Success? ==>
      && ("limit" in r.value.qs <==> p.operation == "getAll" && !p.returnAll)
      && ("limit" in r.value.qs ==> r.value.qs == map["limit" := p.limit])
      && ("limit" !in r.value.qs ==> r.value.qs == map[])
  {
    var endpoint := "/" + p.collectionSlug;
    match p.operation
    case "create" => Success(RequestPlan(POST, endpoint, p.jsonData, map[]))
    case "get" => Success(RequestPlan(GET, endpoint + "/" + p.entryId, map[], map[]))
    case "update" => Success(RequestPlan(PATCH, endpoint + "/" + p.entryId, p.jsonData, map[]))
    case "delete" => Success(RequestPlan(DELETE, endpoint + "/" + p.entryId, map[], map[]))
    case "getAll" =>
      Success(RequestPlan(GET, endpoint, map[], if !p.returnAll then map["limit" := p.limit] else map[]))
    case _ => Failure(UnknownOperation(p.operation))
  }

  /**
   * The call `payloadCmsApiRequest.call(this, method, endpoint, collectionSlug,
   * body, qs)` as it is written: the helper's parameters are (method, endpoint,
   * body, qs, headers), so the slug lands in `body`, the planned body in `qs`
   * and the planned query in `headers`.
   */
  function WiredOptions(creds: Credentials, slug: string, plan: RequestPlan): (o: RequestOptions)
    ensures o.verb == MethodName(plan.httpMethod)
    ensures o.uri == TrimTrailingSlash(creds.baseUrl) + "/api" + plan.endpoint
    ensures o.json
    ensures o.body == if slug == "" then None else Some(Str(slug))
    ensures o.qs == plan.body
    ensures o.headers.Keys == plan.qs.Keys + {AuthorizationHeader, ContentTypeHeader}
    ensures forall k :: k in plan.qs ==> o.headers[k] == plan.qs[k]
    ensures AuthorizationHeader !in plan.qs ==>
      o.headers[AuthorizationHeader] == Str(creds.authCollection + " API-Key " + creds.apiKey)
    ensures ContentTypeHeader !in plan.qs ==>
      o.headers[ContentTypeHeader] == Str("application/json")
  {
    var built := BuildOptions(
      creds, MethodName(plan.httpMethod), plan.endpoint,
      Str(slug), plan.body, plan.qs, NoOverrides);
    built.value
  }

  /** `responseData.docs` spread into one item each, else the response itself if truthy. */
  function Flatten(response: Value): (out: seq<ExecutionData>)
    ensures DocsArray(response).Some? ==>
      var docs := DocsArray(response).value;
      |out| == |docs| && forall j :: 0 <= j < |out| ==> out[j].json == docs[j]
    ensures DocsArray(response).None? ==>
      out == if Truthy(response) then [ExecutionData(response)] else []
  {
    match DocsArray(response)
    case Some(docs) => seq(|docs|, j requires 0 <= j < |docs| => ExecutionData(docs[j]))
    case None => if Truthy(response) then [ExecutionData(response)] else []
  }

  /** What a run has produced: the output so far or the error it stopped with, and the requests issued. */
  datatype Trace = Trace(result: Result<seq<ExecutionData>, NodeError>, requests: seq<RequestOptions>)

  const Nothing := Trace(Success([]), [])

  /** `t` followed by `u`: `t`'s error stops everything; otherwise outputs and requests concatenate. */
  function Then(t: Trace, u: Trace): Trace {
    if t.result.Failure? then t
    else
      Trace(
        if u.result.Failure? then u.result else Success(t.result.value + u.result.value),
        t.requests + u.requests)
  }

  /** One iteration of the item loop, after the requests in `sent`. */
  function Step(p: ItemParams, creds: Credentials, server: Server, sent: seq<RequestOptions>): (t: Trace)
    ensures p.resource != "collection" ==> t == Nothing
    ensures p.resource == "collection" && p.operation !in KnownOperations ==>
      t == Trace(Failure(UnknownOperation(p.operation)), [])
    ensures p.resource == "collection" && p.operation in KnownOperations ==>
      && t.requests == [WiredOptions(creds, p.collectionSlug, PlanRequest(p).value)]
      && (server(sent, t.requests[0]).Success? ==>
            t.result == Success(Flatten(server(sent, t.requests[0]).value)))
      && (server(sent, t.requests[0]).Failure? ==>
            t.result == Failure(RequestFailed(server(sent, t.requests[0]).error)))
  {
    if p.resource != "collection" then Nothing
    else
      match PlanRequest(p)
      case Failure(e) => Trace(Failure(e), [])
      case Success(plan) =>
        var options := WiredOptions(creds, p.collectionSlug, plan);
        match server(sent, options)
        case Failure(message) => Trace(Failure(RequestFailed(message)), [options])
        case Success(response) => Trace(Success(Flatten(response)), [options])
  }

  /**
   * The whole batch after the requests in `sent`, item by item in input order,
   * stopping at the first error; each item's request is answered after those
   * of the items before it.
   */
  function Run(items: seq<ItemParams>, creds: Credentials, server: Server, sent: seq<RequestOptions>): Trace
    decreases |items|
  {
    if items == [] then Nothing
    else
      var before := Run(items[..|items| - 1], creds, server, sent);
      Then(before, Step(items[|items| - 1], creds, server, sent + before.requests))
  }

  /**
   * `execute`: the `for` loop over the items, pushing into `returnData`.
   * `requests` lists the options handed to the transport, in order.
   */
  method Execute(items: seq<ItemParams>, creds: Credentials, server: Server)
    returns (result: Result<seq<ExecutionData>, NodeError>, requests: seq<RequestOptions>)
    ensures Trace(result, requests) == Run(items, creds, server, [])
  {
    var returnData: seq<ExecutionData> := [];
    requests := [];
    for i := 0 to |items|
      invariant Run(items[..i], creds, server, []) == Trace(Success(returnData), requests)
    {
      var item := items[i];
      ghost var sent := requests;
      ghost var done := Run(items[..i], creds, server, []);
      assert items[..i + 1][..i] == items[..i];
      assert [] + sent == sent;
      assert Run(items[..i + 1], creds, server, []) == Then(done, Step(item, creds, server, sent));
      if item.resource != "collection" {
        NothingIsNeutral(done);
      } else {
        var planned := PlanRequest(item);
        if planned.Failure? {
          result := Failure(planned.error);
          assert Run(items[..i + 1], creds, server, []) == Trace(result, requests);
          RunAppend(items[..i + 1], items[i + 1..], creds, server, []);
          assert items[..i + 1] + items[i + 1..] == items;
          return;
        }
        var options := WiredOptions(creds, item.collectionSlug, planned.value);
        var responseData := server(requests, options);
        requests := requests + [options];
        if responseData.Failure? {
          result := Failure(RequestFailed(responseData.error));
          assert Run(items[..i + 1], creds, server, []) == Trace(result, requests);
          RunAppend(items[..i + 1], items[i + 1..], creds, server, []);
          assert items[..i + 1] + items[i + 1..] == items;
          return;
        }
        var response := responseData.value;
        ghost var before := returnData;
        match DocsArray(response)
        case Some(docs) =>
          returnData := returnData + seq(|docs|, j requires 0 <= j < |docs| => ExecutionData(docs[j]));
        case None =>
          if Truthy(response) {
            returnData := returnData + [ExecutionData(response)];
          }
        assert returnData == before + Flatten(response);
        assert Step(item, creds, server, sent) == Trace(Success(Flatten(response)), [options]);
      }
    }
    assert items[..|items|] == items;
    result := Success(returnData);
  }

  lemma ThenAssociative(t: Trace, u: Trace, v: Trace)
    ensures Then(Then(t, u), v) == Then(t, Then(u, v))
  {
    if t.result.Success? && u.result.Success? && v.result.Success? {
      assert (t.result.value + u.result.value) + v.result.value
          == t.result.value + (u.result.value + v.result.value);
      assert (t.requests + u.requests) + v.requests == t.requests + (u.requests + v.requests);
    } else if t.result.Success? && u.result.Success? {
      assert (t.requests + u.requests) + v.requests == t.requests + (u.requests + v.requests);
    } else if t.result.Success? {
      assert (t.requests + u.requests) + v.requests == t.requests + (u.requests + v.requests);
    }
  }

  lemma NothingIsNeutral(t: Trace)
    ensures Then(t, Nothing) == t && Then(Nothing, t) == t
  {
    assert t.requests + [] == t.requests && [] + t.requests == t.requests;
    if t.result.Success? {
      assert t.result.value + [] == t.result.value && [] + t.result.value == t.result.value;
    }
  }

  /**
   * Running `a + b` is running `a`, then `b` after `a`'s requests: outputs and
   * requests in input order, the first error wins.
   */
  lemma {:induction false} RunAppend(
    a: seq<ItemParams>, b: seq<ItemParams>, creds: Credentials, server: Server, sent: seq<RequestOptions>)
    ensures Run(a + b, creds, server, sent)
         == Then(Run(a, creds, server, sent), Run(b, creds, server, sent + Run(a, creds, server, sent).requests))
    decreases |b|
  {
    var ra := Run(a, creds, server, sent);
    var mid := sent + ra.requests;
    if b == [] {
      assert a + b == a;
      NothingIsNeutral(ra);
    } else {
      var init, last := b[..|b| - 1], b[|b| - 1];
      assert (a + b)[..|a + b| - 1] == a + init;
      assert (a + b)[|a + b| - 1] == last;
      RunAppend(a, init, creds, server, sent);
      var ri := Run(init, creds, server, mid);
      var rai := Run(a + init, creds, server, sent);
      assert rai == Then(ra, ri);
      assert Run(a + b, creds, server, sent)
          == Then(rai, Step(last, creds, server, sent + rai.requests));
      assert b[..|b| - 1] == init && b[|b| - 1] == last;
      var s := Step(last, creds, server, mid + ri.requests);
      assert Run(b, creds, server, mid) == Then(ri, s);
      if ra.result.Success? {
        assert rai.requests == ra.requests + ri.requests;
        assert sent + rai.requests == mid + ri.requests;
        ThenAssociative(ra, ri, s);
      }
    }
  }

  /** An unknown operation on a collection item fails the batch there: no request for it or any later item. */
  lemma UnknownOperationStopsBatch(
    items: seq<ItemParams>, k: nat, creds: Credentials, server: Server, sent: seq<RequestOptions>)
    requires k < |items|
    requires items[k].resource == "collection" && items[k].operation !in KnownOperations
    requires Run(items[..k], creds, server, sent).result.Success?
    ensures Run(items, creds, server, sent)
         == Trace(Failure(UnknownOperation(items[k].operation)), Run(items[..k], creds, server, sent).requests)
  {
    assert items[..k + 1][..k] == items[..k];
    assert items == items[..k + 1] + items[k + 1..];
    RunAppend(items[..k + 1], items[k + 1..], creds, server, sent);
  }

  /** An item whose resource is not "collection" changes neither the output nor the requests. */
  lemma SkipNonCollection(
    a: seq<ItemParams>, x: ItemParams, b: seq<ItemParams>,
    creds: Credentials, server: Server, sent: seq<RequestOptions>)
    requires x.resource != "collection"
    ensures Run(a + [x] + b, creds, server, sent) == Run(a + b, creds, server, sent)
  {
    assert (a + [x])[..|a + [x]| - 1] == a;
    NothingIsNeutral(Run(a, creds, server, sent));
    RunAppend(a + [x], b, creds, server, sent);
    RunAppend(a, b, creds, server, sent);
  }

  /**
   * Of two collection items, the second is answered by a CMS that has already
   * received the first one's request (a create, update or delete shows in later
   * reads).
   */
  lemma SecondItemSeesFirstRequest(
    p: ItemParams, q: ItemParams, creds: Credentials, server: Server, sent: seq<RequestOptions>)
    requires p.resource == "collection" && p.operation in KnownOperations
    requires server(sent, WiredOptions(creds, p.collectionSlug, PlanRequest(p).value)).Success?
    ensures var first := WiredOptions(creds, p.collectionSlug, PlanRequest(p).value);
      Run([p, q], creds, server, sent)
      == Then(Step(p, creds, server, sent), Step(q, creds, server, sent + [first]))
  {
    var first := WiredOptions(creds, p.collectionSlug, PlanRequest(p).value);
    var sp := Step(p, creds, server, sent);
    assert [p, q][..1] == [p];
    assert [p][..0] == [];
    assert sent + [] == sent;
    NothingIsNeutral(sp);
    assert Run([p], creds, server, sent) == sp;
    assert sp.requests == [first];
    assert Run([p, q], creds, server, sent) == Then(sp, Step(q, creds, server, sent + sp.requests));
  }

  /** The number of items whose resource is "collection". */
  function CollectionCount(items: seq<ItemParams>): nat {
    if items == [] then 0
    else CollectionCount(items[..|items| - 1]) + (if items[|items| - 1].resource == "collection" then 1 else 0)
  }

  /** A batch that succeeds issues exactly one request per collection item. */
  lemma {:induction false} OneRequestPerCollectionItem(
    items: seq<ItemParams>, creds: Credentials, server: Server, sent: seq<RequestOptions>)
    requires Run(items, creds, server, sent).result.Success?
    ensures |Run(items, creds, server, sent).requests| == CollectionCount(items)
    decreases |items|
  {
    if items != [] {
      OneRequestPerCollectionItem(items[..|items| - 1], creds, server, sent);
    }
  }

  /** The position of the first '/' in `s`, or `|s|` when there is none. */
  function IndexOfSlash(s: string): (k: nat)
    ensures k <= |s|
    ensures k < |s| ==> s[k] == '/'
    ensures forall j :: 0 <= j < k ==> s[j] != '/'
  {
    if s == [] || s[0] == '/' then 0 else 1 + IndexOfSlash(s[1..])
  }

  /** Reads `/<collection>[/<id>]` back into the collection slug and the optional entry id. */
  function SplitEndpoint(endpoint: string): Option<(string, Option<string>)> {
    if |endpoint| == 0 || endpoint[0] != '/' then None
    else
      var rest := endpoint[1..];
      var k := IndexOfSlash(rest);
      if k == |rest| then Some((rest, None)) else Some((rest[..k], Some(rest[k + 1..])))
  }

  /** The endpoint names the collection, and the entry exactly for get, update and delete. */
  lemma EndpointRoundTrip(p: ItemParams)
    requires p.operation in KnownOperations
    requires '/' !in p.collectionSlug
    ensures SplitEndpoint(PlanRequest(p).value.endpoint)
         == Some((p.collectionSlug, if p.operation in EntryOperations then Some(p.entryId) else None))
  {
    var slug := p.collectionSlug;
    var rest := PlanRequest(p).value.endpoint[1..];
    if p.operation in EntryOperations {
      assert rest == slug + "/" + p.entryId;
      assert rest[|slug|] == '/';
      assert IndexOfSlash(rest) == |slug|;
      assert rest[..|slug|] == slug;
      assert rest[|slug| + 1..] == p.entryId;
    } else {
      assert rest == slug;
    }
  }

  /**
   * The request a collection item actually sends: the slug as the body (dropped
   * only when empty), the planned body (the `jsonData` of create and update) as
   * the query, and the planned query (`limit`) among the headers.
   */
  lemma ShiftedWiring(p: ItemParams, creds: Credentials, server: Server, sent: seq<RequestOptions>)
    requires p.resource == "collection" && p.operation in KnownOperations
    ensures var o := Step(p, creds, server, sent).requests[0];
      && o.body == (if p.collectionSlug == "" then None else Some(Str(p.collectionSlug)))
      && o.qs == (if p.operation in {"create", "update"} then p.jsonData else map[])
      && ("limit" in o.headers <==> p.operation == "getAll" && !p.returnAll)
      && ("limit" in o.headers ==> o.headers["limit"] == p.limit)
  {
  }
}
