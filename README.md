# Payload CMS workflow node — Dafny model

This project models the two pieces of deterministic logic in the Payload CMS
node for a workflow-automation host:

- **`payloadCmsApiRequest`** (module `GenericFunctions`): the assembly of the
  options object handed to the host's HTTP helper. It trims one trailing `/`
  from the stored base URL and forms `<baseUrl>/api<endpoint>`. It builds the
  default `Authorization` (`<authCollection> API-Key <apiKey>`) and
  `Content-Type` headers, which the caller's headers override key by key. It
  spreads the `option` argument last, so `option` overrides every field. It
  then deletes `body` when `Object.keys(body)` is empty.
- **`PayloadCms.execute`** (module `PayloadCmsNode`): the loop over the input
  items. Each collection item's operation is dispatched to an HTTP method, endpoint, body
  and query: create → POST, get/getAll → GET, update → PATCH, delete → DELETE,
  and any other operation fails the batch; items of any other resource are
  skipped. The request helper is then called. The
  response is flattened: a `docs` array gives one output item per element, any
  other truthy value gives one item, and a falsy value gives none.

JavaScript values crossing the host boundary are the datatype `JsValue.Value`.
`JsValue` also defines `Object.keys(v).length`, truthiness and
`Array.isArray(v?.docs)`.

`Execute` is a method with a `for` loop that appends to the output sequence.
It is proved equal to `Run`, a specification function over the batch. `Run`
also records the request options handed to the transport, in order. The
lemmas about `Run` state the batch properties: output and requests follow input
order, the first error stops the batch, non-collection items are skipped, and
there is one request per collection item.

**The call as written.** In `execute`, the helper is called as
`payloadCmsApiRequest(method, endpoint, collectionSlug, body, qs)`. The helper's
third parameter is `body`, so the arguments shift by one place:

- the slug is sent as the request body;
- the computed body (`jsonData` for create and update) is sent as the query string;
- the computed query (`limit`) is sent among the headers.

The model follows the code (`WiredOptions`, `ShiftedWiring`). The source's
own text points the other way: the `jsonData` parameter is described as "Data
for create/update operations (JSON format)"
(nodes/PayloadCms/PayloadCms.node.ts:95), `limit` as "Max number of results to
return" (nodes/PayloadCms/PayloadCms.node.ts:121), and the helper's parameters
are ordered `body, qs, headers` (helpers/GenericFunctions.ts:8-10). The call as
written sends neither `jsonData` as the body nor `limit` as a query parameter.

The host's inputs are parameters:

- `getNodeParameter` results are the fields of `ItemParams`;
- the credentials are a `Credentials` value;
- the HTTP transport, with the CMS behind it, is a `Server` function. It maps
  the requests this run has already sent, together with the new request
  options, to a decoded response or a thrown error. A create, update or delete
  earlier in the batch can therefore change what later requests get back.

## Model

| member | source | states |
|---|---|---|
| `GenericFunctions.TrimTrailingSlash` | helpers/GenericFunctions.ts:14 | The result is a prefix of the base URL; exactly one trailing `/` is removed when present (so `a//` becomes `a/`); otherwise the URL is unchanged. |
| `GenericFunctions.BuildOptions` | helpers/GenericFunctions.ts:4-34 | Fails only where `Object.keys` throws (a null body). `uri` is the trimmed base URL + `/api` + endpoint. The headers hold every caller header with the caller's value, plus `Authorization` = `<authCollection> API-Key <apiKey>` and `Content-Type` = `application/json` unless the caller overrides them. Each field `option` carries overrides `method`, `qs`, `body`, `uri`, `json` and `headers`. `body` is absent exactly when the body argument (after its `{}` default) has zero keys. Otherwise `body` is the body argument, unless `option` overrides it. |
| `GenericFunctions.StringBodyKept` | helpers/GenericFunctions.ts:25-34 | A string body has one key per character, so it is sent unless it is empty. |
| `GenericFunctions.OptionBodyDroppedWithEmptyBody` | helpers/GenericFunctions.ts:29-34 | The empty-body deletion happens after the `option` spread, so an `option.body` is dropped when the body argument is `{}`. |
| `PayloadCmsNode.PlanRequest` | nodes/PayloadCms/PayloadCms.node.ts:146-177 | Fails with `UnknownOperation(op)` exactly when the operation is not one of the five known ones. The endpoint is `/<slug>`, with `/<entryId>` appended exactly for get, update and delete. Methods: POST iff create, PATCH iff update, DELETE iff delete, GET iff get or getAll. The body is `jsonData` for create and update and `{}` otherwise. The query has `limit` (the `limit` parameter) iff getAll without returnAll, and is empty otherwise. |
| `PayloadCmsNode.EndpointRoundTrip` | nodes/PayloadCms/PayloadCms.node.ts:147-167 | For a slug without `/`, splitting the endpoint at its first two `/` gives back the slug, plus the entry id exactly for get, update and delete. |
| `PayloadCmsNode.WiredOptions` | nodes/PayloadCms/PayloadCms.node.ts:179-186 | The options the shifted call produces. The method name and `uri` come from the plan, and `json` is true. `body` is the slug string, absent when the slug is empty. `qs` is the planned body. The headers are the defaults (`Authorization` = `<authCollection> API-Key <apiKey>`, `Content-Type` = `application/json`) overridden key by key by the planned query. |
| `PayloadCmsNode.ShiftedWiring` | nodes/PayloadCms/PayloadCms.node.ts:179-186 | For a collection item the request sent carries the slug as its body, `jsonData` as its query (create, update) and `limit` as a header exactly for getAll without returnAll. |
| `PayloadCmsNode.Flatten` | nodes/PayloadCms/PayloadCms.node.ts:188-192 | A response whose `docs` is an array gives exactly `\|docs\|` items carrying the docs in order. Any other response gives one item carrying it when truthy (an empty object included) and none when falsy. |
| `PayloadCmsNode.Step` | nodes/PayloadCms/PayloadCms.node.ts:142-192 | A non-collection item issues no request and contributes nothing. A collection item with an unknown operation fails with no request. Otherwise exactly one request (the wired options) is issued, answered in the light of the requests sent before it. Its response yields the flattened items, and a transport error becomes `RequestFailed`. |
| `PayloadCmsNode.Execute` | nodes/PayloadCms/PayloadCms.node.ts:137-197 | The loop's output, error and issued requests are exactly those of `Run` over the whole batch, starting with no requests sent. Each request is answered after the requests of the items before it. |
| `PayloadCmsNode.RunAppend` | nodes/PayloadCms/PayloadCms.node.ts:141-196 | Running `a + b` is running `a` and then running `b` against a CMS that has received `a`'s requests. Outputs and requests concatenate in input order, and an error in `a` ends the run with nothing from `b`. |
| `PayloadCmsNode.SecondItemSeesFirstRequest` | nodes/PayloadCms/PayloadCms.node.ts:141-186 | Of two collection items, the second item's request is answered after the first item's request has been sent, so it can see that write. |
| `PayloadCmsNode.UnknownOperationStopsBatch` | nodes/PayloadCms/PayloadCms.node.ts:175-176 | An unknown operation on item `k` (when earlier items succeeded) fails the batch with that operation's name. Only the earlier items' requests are issued, none for item `k` or later. |
| `PayloadCmsNode.SkipNonCollection` | nodes/PayloadCms/PayloadCms.node.ts:141-145 | Removing an item whose resource is not `collection` changes neither the output nor the requests. |
| `PayloadCmsNode.OneRequestPerCollectionItem` | nodes/PayloadCms/PayloadCms.node.ts:141-186 | A batch that succeeds issues exactly one request per item whose resource is `collection`. |

## Left out

- The credential type declaration (`credentials/PayloadCmsApi.credentials.ts`) and the node's UI description (the `description` property). Both are static metadata the host reads. Its `required` and `minValue` hints are enforced by the host, not by this code. `authCollection`, which the credential type does not declare, is an opaque input string.
- `getCredentials`, `getNodeParameter`, `getInputData` and `helpers.request` are host I/O. Their results are parameters. HTTP, cookies, status-code errors and JSON encoding are not modelled, and neither is a `getNodeParameter` that throws on a missing parameter.
- The parsing of the `jsonData` parameter is done by the host; the parsed value is an opaque map.
- `Server`: the CMS's answers depend only on the requests this run has sent and the new request. Changes made to the CMS by other clients during the batch are not modelled.
- async/await: items are processed one after another, so a plain loop stands for the awaited calls.
- Numbers are integers: NaN, fractions and floating point are not modelled, so NaN's falsiness is not captured.
- String length is counted in characters, not UTF-16 code units. Only whether the count is zero matters here.
- `Object.keys` counts the keys of the map. Inherited, non-enumerable and symbol keys are not modelled, and neither is an array with extra named properties, so `docs` is looked up only on objects.
- `OptionOverrides` covers the six fields the options literal sets. Other request-library options and `option` keys explicitly set to `undefined` are not modelled.
- `Execute` returns the single output branch's items and not the wrapping `[returnData]`. Its `UnknownOperation` error carries the operation's name, as the source's message does. The source passes no item index, so none is modelled.
