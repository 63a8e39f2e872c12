# Dataset admin client, models table and list controller — a Dafny model

This project models three pieces of CDAP and proves properties of each.

- **The remote dataset admin-op executor** (`DatasetOpExecutor`, in `dataset_op_executor.dfy`).
  Each lifecycle operation on a dataset (exists, create, update, drop, truncate, upgrade) sends one
  POST request to the dataset-executor service. The path is
  `namespaces/<namespace>/data/datasets/<name>/admin/<op>`. Create, update and drop attach a JSON body.
  The others send no body. A user-id header is attached when the caller's principal name is known.
  The answer is then classified:
  - 409 is a conflict carrying the body text;
  - any other status except 200 is a handler failure carrying the status and the body text;
  - 200 is success, and the body is decoded for the operation.

  `doRequest` is an imperative method over an in-place request builder (`RequestBuilder`). It is proved
  equal to the functional specification `Perform`. The six public operations are functions, and
  `Invoke` dispatches one `AdminCall` to them so that properties of all six can be stated at once.
- **The models-table helpers** (`ModelsTable`, in `models_table.dfy`). These are pure functions:
  - splicing metric columns into the header row and slicing them back out for each row;
  - choosing regression or categorical metrics;
  - the metric-cell fallback under JavaScript truthiness;
  - the split-step test;
  - the current page computed from offset and limit;
  - the choice between the loading view and the titled table.

  JavaScript `slice` (with negative indices), `indexOf` and `Math.ceil` are modelled exactly, on exact
  numbers rather than IEEE doubles (see "## Left out").
- **The list controller** (`ListController`, in `list_controller.dfy`). This part is imperative:
  - the metadata method name and parameters are chosen per entity type;
  - the plural title is looked up for the current type;
  - a backwards loop wraps every received object in place;
  - a second backwards loop `splice`s out Query objects of type 0 and Flow objects of type 1.

  JavaScript arrays are a class (`JsArray`) whose sequence of items is changed by assignment and
  `splice`. The controller's `entityType` and `types` are fields of the class `Controller`.

External collaborators are parameters of the model:
- `Transport` (a function from request to response or I/O failure) stands for service discovery and
  the HTTP client;
- `Codec` (functions to and from JSON) stands for the JSON serialiser;
- `userId` (an optional string) stands for the authentication context;
- `reply` stands for the asynchronous metadata answer the list controller receives;
- `numberTypes` stands for the table's list of numeric outcome types.

The names of the target service, the API version and the user-id header come from the project's
constants class, which is not part of this model. The constants `DatasetExecutorService`
(`dataset.executor`), `ApiVersion3` (`v3`) and `UserIdHeader` (`CDAP-UserId`) are placeholder values
for them, and may differ from the real ones. No proved property depends on their values.

Two things the code does not do, and so the model does not do either:
- This code adds no content-type header. The only header it adds is the user-id header
  (RemoteDatasetOpExecutor.java:117-120); a body is attached with `withBody` alone.
- The code does not check that namespace and name are non-empty, so the model does not require it.
  The path round trip needs identifiers without `/`. `PathAmbiguousWithSlashes` shows two different
  datasets that share one drop path when `/` is allowed.

## Model

| member | source | states |
|---|---|---|
| `DatasetOpExecutor.AdminPath` | cdap-data-fabric/src/main/java/co/cask/cdap/data2/datafabric/dataset/service/executor/RemoteDatasetOpExecutor.java:109-110 | the path starts with `namespaces/` and is 33 characters longer than namespace, name and op name together (they are inserted verbatim) |
| `DatasetOpExecutor.PathRoundTrip` | cdap-data-fabric/src/main/java/co/cask/cdap/data2/datafabric/dataset/service/executor/RemoteDatasetOpExecutor.java:109-110 | splitting the path at `/` reads back exactly the namespace, name and op name, when none contains `/` |
| `DatasetOpExecutor.PathInjective` | cdap-data-fabric/src/main/java/co/cask/cdap/data2/datafabric/dataset/service/executor/RemoteDatasetOpExecutor.java:109-110 | two slash-free (namespace, name, op) triples with the same path are equal |
| `DatasetOpExecutor.PathAmbiguousWithSlashes` | cdap-data-fabric/src/main/java/co/cask/cdap/data2/datafabric/dataset/service/executor/RemoteDatasetOpExecutor.java:109-110 | without the slash-free restriction, two different datasets produce the same path for the same operation (`drop`) |
| `DatasetOpExecutor.RequestShape` | cdap-data-fabric/src/main/java/co/cask/cdap/data2/datafabric/dataset/service/executor/RemoteDatasetOpExecutor.java:109-120 | the request is a POST to the dataset executor at the literal admin path; it has a body iff one is given, and then that body; the user-id header value is the principal name exactly when there is one; no other header is added |
| `DatasetOpExecutor.RequestBuilder.constructor` | cdap-data-fabric/src/main/java/co/cask/cdap/data2/datafabric/dataset/service/executor/RemoteDatasetOpExecutor.java:113 | a new builder has the given method, service and path, no body and no headers |
| `DatasetOpExecutor.RequestBuilder.WithBody` | cdap-data-fabric/src/main/java/co/cask/cdap/data2/datafabric/dataset/service/executor/RemoteDatasetOpExecutor.java:114-116 | sets the body and changes nothing else |
| `DatasetOpExecutor.RequestBuilder.AddHeader` | cdap-data-fabric/src/main/java/co/cask/cdap/data2/datafabric/dataset/service/executor/RemoteDatasetOpExecutor.java:117-120 | appends exactly one header and changes nothing else |
| `DatasetOpExecutor.DoRequest` | cdap-data-fabric/src/main/java/co/cask/cdap/data2/datafabric/dataset/service/executor/RemoteDatasetOpExecutor.java:107-129 | building step by step on the builder (method, service and path, then the body, then the header, then `build()`) yields exactly the request `BuildRequest` describes, whose shape `RequestShape` states; the outcome is the transport's I/O failure unchanged, or the classification of its response |
| `DatasetOpExecutor.VerifyResponse` | cdap-data-fabric/src/main/java/co/cask/cdap/data2/datafabric/dataset/service/executor/RemoteDatasetOpExecutor.java:131-139 | nothing is raised iff the status is 200; 409 raises a conflict with the body text; every other status raises a handler failure with that status and the body text |
| `DatasetOpExecutor.ClassificationExclusive` | cdap-data-fabric/src/main/java/co/cask/cdap/data2/datafabric/dataset/service/executor/RemoteDatasetOpExecutor.java:131-138 | a raised error is a conflict iff the status is 409 (so 409 is never a handler failure), and is always one of the two |
| `DatasetOpExecutor.OpNamesDistinct` | cdap-data-fabric/src/main/java/co/cask/cdap/data2/datafabric/dataset/service/executor/RemoteDatasetOpExecutor.java:63-99 | each public operation uses its own op name, no two share one, and none contains `/` |
| `DatasetOpExecutor.CallRequestShape` | cdap-data-fabric/src/main/java/co/cask/cdap/data2/datafabric/dataset/service/executor/RemoteDatasetOpExecutor.java:63-105 | every operation sends a POST to the executor on its own admin path; it carries a body iff it is create, update or drop, and then the serialised creation, update or drop parameters; the user-id header is the principal name |
| `DatasetOpExecutor.OnlyItsRequestIsSent` | cdap-data-fabric/src/main/java/co/cask/cdap/data2/datafabric/dataset/service/executor/RemoteDatasetOpExecutor.java:101-124 | an operation's outcome depends only on the transport's answer to that operation's request, so repeating a call against an unchanged backend gives the same outcome |
| `DatasetOpExecutor.SuccessOnlyOn200` | cdap-data-fabric/src/main/java/co/cask/cdap/data2/datafabric/dataset/service/executor/RemoteDatasetOpExecutor.java:121-139 | an operation returns normally only if the transport delivered a response with status 200 |
| `DatasetOpExecutor.CallFailures` | cdap-data-fabric/src/main/java/co/cask/cdap/data2/datafabric/dataset/service/executor/RemoteDatasetOpExecutor.java:121-139 | a transport failure is rethrown unchanged; 409 fails with a conflict carrying the body; any other non-200 status fails with a handler failure carrying status and body |
| `DatasetOpExecutor.ExistsResult` | cdap-data-fabric/src/main/java/co/cask/cdap/data2/datafabric/dataset/service/executor/RemoteDatasetOpExecutor.java:63-105 | on 200, exists returns the Boolean `result` of the decoded admin-op response; a null envelope or a non-Boolean result fails with a bad result, and undecodable JSON with a decoding failure |
| `DatasetOpExecutor.TruncateUpgradeDiscardResult` | cdap-data-fabric/src/main/java/co/cask/cdap/data2/datafabric/dataset/service/executor/RemoteDatasetOpExecutor.java:91-105 | on 200, truncate and upgrade succeed iff the body decodes (or is JSON null); the decoded result is discarded |
| `DatasetOpExecutor.DropOn200` | cdap-data-fabric/src/main/java/co/cask/cdap/data2/datafabric/dataset/service/executor/RemoteDatasetOpExecutor.java:84-89 | on 200, drop returns normally whatever the body, since it does not decode it |
| `DatasetOpExecutor.CreationResult` | cdap-data-fabric/src/main/java/co/cask/cdap/data2/datafabric/dataset/service/executor/RemoteDatasetOpExecutor.java:68-82 | on 200, create and update return the decoded creation response; JSON null gives no object and undecodable JSON fails |
| `ModelsTable.IndexOf` | cdap-ui/app/cdap/components/Experiments/DetailedView/ModelsTable/index.js:115 | the result is -1 iff the element is absent; otherwise it is the first index holding it |
| `ModelsTable.AddMetricsToHeaders` | cdap-ui/app/cdap/components/Experiments/DetailedView/ModelsTable/index.js:108-112 | the result has `|h| + |m|` columns, equal to all headers but the last, then the metrics, then the last header; with no headers, just the metrics |
| `ModelsTable.GetNewHeadersBasedOnOutcome` | cdap-ui/app/cdap/components/Experiments/DetailedView/ModelsTable/index.js:114-119 | the four first common columns, then the regression metrics if the outcome type is a number type and the categorical metrics otherwise, then the delete column (9 or 8 columns) |
| `ModelsTable.MetricsRoundTrip` | cdap-ui/app/cdap/components/Experiments/DetailedView/ModelsTable/index.js:167-175 | slicing the spliced headers from `|h| - 1` to one before the end returns exactly the inserted metrics |
| `ModelsTable.RenderedMetricsMatchOutcome` | cdap-ui/app/cdap/components/Experiments/DetailedView/ModelsTable/index.js:167-179 | each row has one metric cell per chosen metric column, in order, with that column's width and the metric's value or the dash (both branches of the outcome test give the same slice) |
| `ModelsTable.MetricValue` | cdap-ui/app/cdap/components/Experiments/DetailedView/ModelsTable/index.js:176 | the cell shows the looked-up value or the dash, and is never falsy |
| `ModelsTable.MetricFallback` | cdap-ui/app/cdap/components/Experiments/DetailedView/ModelsTable/index.js:176 | a truthy value is shown as is; a falsy one, including a missing value and the number 0, shows `--` |
| `ModelsTable.InSplitStep` | cdap-ui/app/cdap/components/Experiments/DetailedView/ModelsTable/index.js:191 | a model is in the split step iff its status is `SPLITTING`, `DATA_READY` or `EMPTY` |
| `ModelsTable.AlgorithmCell` | cdap-ui/app/cdap/components/Experiments/DetailedView/ModelsTable/index.js:207-217 | the algorithm cell is `--` iff the model is in the split step, and otherwise shows the algorithm label |
| `ModelsTable.Ceil` | cdap-ui/app/cdap/components/Experiments/DetailedView/ModelsTable/index.js:322 | `Math.ceil`: the least integer not below its argument |
| `ModelsTable.CurrentPageHoldsOffset` | cdap-ui/app/cdap/components/Experiments/DetailedView/ModelsTable/index.js:322 | for offset >= 0 and limit > 0 the current page n is at least 1 and is the page holding the offset: `(n - 1) * limit <= offset < n * limit` |
| `ModelsTable.FirstPageSpecialCaseAgrees` | cdap-ui/app/cdap/components/Experiments/DetailedView/ModelsTable/index.js:322 | for a positive limit the general formula also gives page 1 at offset 0 |
| `ModelsTable.ViewOfState` | cdap-ui/app/cdap/components/Experiments/DetailedView/ModelsTable/index.js:269-325 | the loading view is shown iff loading or the experiment id is empty; otherwise the title is `Models` iff the total count exceeds 1 (else `Model`), and the page shown is the one computed from the store's offset and limit |
| `ListController.MetadataRequestRoundTrip` | client/core/controllers/list.js:33-35 | for a known type, the method name decodes back to that type and to whether an application id was given (the `ByApplication` form exactly then); the params are `[appId]` then and `[]` otherwise |
| `ListController.MethodNameIsGetPlural` | client/core/controllers/list.js:9-22 | every method name is `get` followed by the plural title of the same type |
| `ListController.TitleMatchesMethod` | client/core/controllers/list.js:23-25 | the title of a known current type is its plural (Query gives `Queries`), and the method called for it is `get` plus that title |
| `ListController.WrapEachKeeps` | client/core/controllers/list.js:45-49 | wrapping keeps the count and each object's attributes, and every object becomes a model |
| `ListController.JsArray.Set` | client/core/controllers/list.js:48 | assignment replaces one element and keeps the rest |
| `ListController.JsArray.Splice` | client/core/controllers/list.js:58 | `splice(i, 1)` removes exactly the element at i |
| `ListController.WrapAll` | client/core/controllers/list.js:46-49 | the backwards loop replaces every object by its wrapped model in place |
| `ListController.RemoveHidden` | client/core/controllers/list.js:55-62 | the backwards splice loop leaves exactly the filtered list: the input without Query objects of type 0 and Flow objects of type 1, in order |
| `ListController.VisibleConcat` | client/core/controllers/list.js:55-62 | filtering distributes over concatenation, so survivors keep their relative order |
| `ListController.VisibleMembers` | client/core/controllers/list.js:55-62 | an object survives iff it was received and is not hidden |
| `ListController.VisibleKeepsOtherTypes` | client/core/controllers/list.js:57-61 | for entity types other than Query and Flow nothing is removed |
| `ListController.VisibleIdempotent` | client/core/controllers/list.js:55-62 | filtering a filtered list removes nothing more |
| `ListController.Controller.constructor` | client/core/controllers/list.js:8 | a new controller has no entity type and no kept lists |
| `ListController.Controller.GetObjects` | client/core/controllers/list.js:26-70 | sets the entity type and makes the selected metadata call; on error a callback gets `[]`; on success every object is wrapped; a callback gets all of them; otherwise only the filtered list is kept for the type; nothing else changes |
| `ListController.Controller.Unload` | client/core/controllers/list.js:101-104 | resets the kept lists to empty and keeps the entity type |

## Left out

- Service discovery, `RemoteClient` and the HTTP exchange are the `Transport` parameter. The URL the
  remote client composes from the discovered endpoint, the API version and the path is not modelled
  beyond the request's `service`, `apiVersion` and `path` fields. A service that cannot be found is
  a transport failure, which `CallFailures` shows is passed through unchanged without any status
  classification.
- JSON serialisation and decoding (Gson, `ObjectResponse.fromJsonBody`) are the `Codec` parameter.
  The payload records (`DatasetTypeMeta`, `DatasetProperties`, `DatasetSpecification`,
  `DatasetCreationResponse`) have placeholder fields, because their classes are not part of this model.
- The authentication context is the optional `userId` parameter. A principal that is itself null
  (a null-pointer failure in the source) is not modelled.
- Trace logging does not affect control flow and is left out.
- Response bodies arrive already decoded as UTF-8 text. Status codes are non-negative; the status
  object's rejection of a negative code is not modelled.
- The executor's constructor and its injected fields are left out: they only configure the
  transport.
- React rendering in the models table is left out: JSX, `Link` (including the row link for models in
  the split step), `connect`, `getAlgorithmLabel`, `humanReadableDate`, `getCurrentNamespace`, the
  sortable grid and the row details. The list of numeric outcome types comes from a constants file
  that is not part of this model, so it is a parameter. A model without `evaluationMetrics` (a
  runtime type error in the source) is not modelled.
- The list controller's Ember plumbing is left out: `Em.Object`, `C.get`'s asynchronous call (its
  answer is the `reply` parameter), `C.interstitial`, `getStats` with its `setTimeout` polling,
  `viewType`, and the `clearTimeout` in `unload`. `C.Mdl[type].create` becomes `Wrap`, which keeps the
  received object's attributes, including its `type`, on the model. An entity type without a model
  class (a runtime error in the source) and inherited keys of the method-name table are not modelled.
- ListController.Controller.GetObjects: the source wraps and splices `response.params` itself, in place,
  and then hands that same array to the callback or keeps it as the list's content. The model copies
  the received sequence into a fresh `JsArray` first, so it does not capture that the caller's
  `response.params` array is the one changed and handed on.
- ModelsTable.CurrentPage: JavaScript numbers are IEEE doubles, but the model uses exact integers and
  reals for the offset, the limit and `(offset + 1) / limit`. The two agree for offsets and limits below
  2^53; above that the source's rounding is not modelled.
