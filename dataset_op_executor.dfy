/**
 * The remote dataset administrative-operation client: every dataset lifecycle
 * operation (exists, create, update, drop, truncate, upgrade) becomes one POST
 * request to the dataset-executor service, and the HTTP status of the answer
 * is classified into success, a conflict, or a generic handler failure.
 *
 * Service discovery and the HTTP transport are one function parameter
 * (`Transport`); the JSON serialiser is a `Codec` of functions; the caller's
 * principal name is an explicit optional parameter.
 */
module DatasetOpExecutor {
  import opened Wrappers

  // ---------------------------------------------------------------------------
  // Data model
  // ---------------------------------------------------------------------------

  /** A dataset instance: its namespace and its name, both used verbatim. */
  datatype DatasetId = DatasetId(namespace: string, name: string)

  datatype HttpMethod = GET | PUT | POST | DELETE

  /** Logical name of the service every request is routed to. */
  const DatasetExecutorService: string := "dataset.executor"
  /** API version prefix the remote client puts in front of every path. */
  const ApiVersion3: string := "v3"
  /** Name of the header that carries the caller's principal name. */
  const UserIdHeader: string := "CDAP-UserId"

  /** A request as the HTTP request builder produces it. */
  datatype HttpRequest = HttpRequest(
    verb: HttpMethod,
    service: string,
    apiVersion: string,
    path: string,
    body: Option<string>,
    headers: seq<(string, string)>)

  /** A status code and the response body, already decoded as UTF-8 text. */
  datatype HttpResponse = HttpResponse(status: nat, body: string)

  /** The typed failures an operation can end with. */
  datatype OpError =
    | Conflict(message: string)             // ConflictException: status 409
    | Handler(status: nat, message: string) // HandlerException: any other non-200 status
    | Transport(cause: string)              // I/O or discovery failure, rethrown unchanged
    | Malformed(reason: string)             // the body is not valid JSON for the expected type
    | BadResult                             // `exists` got no Boolean result to unbox

  /** Discovery plus transport: sends a request, yields a response or an I/O failure. */
  type Transport = HttpRequest -> Result<HttpResponse, string>

  // Payload records. Their classes are opaque to this client: it only
  // serialises them to JSON or receives them back.
  datatype DatasetTypeMeta = DatasetTypeMeta(name: string, modules: seq<string>)
  datatype DatasetProperties = DatasetProperties(properties: map<string, string>)
  datatype DatasetSpecification = DatasetSpecification(name: string, typeName: string, properties: map<string, string>)
  datatype DatasetCreationResponse = DatasetCreationResponse(spec: DatasetSpecification)

  /** The `result` field of an admin-op response, as JSON decoding leaves it. */
  datatype AdminResult = BoolResult(b: bool) | NullResult | OtherResult(json: string)
  datatype DatasetAdminOpResponse = DatasetAdminOpResponse(result: AdminResult, message: string)

  /** The request payloads of create, update and drop. */
  datatype OpParams =
    | CreationParams(typeMeta: DatasetTypeMeta, props: DatasetProperties)
    | UpdateParams(typeMeta: DatasetTypeMeta, existing: DatasetSpecification, props: DatasetProperties)
    | DropParams(typeMeta: DatasetTypeMeta, spec: DatasetSpecification)

  /** Outcome of decoding JSON: an object, JSON null / an empty body, or a syntax error. */
  datatype Decoded<T> = Parsed(value: T) | JsonNull | Unparsable(reason: string)

  /** The JSON serialiser, as a stateless capability. */
  datatype Codec = Codec(
    toJson: OpParams -> string,
    adminOpFromJson: string -> Decoded<DatasetAdminOpResponse>,
    creationFromJson: string -> Decoded<DatasetCreationResponse>)

  // ---------------------------------------------------------------------------
  // Request path
  // ---------------------------------------------------------------------------

  /** The request path of an admin operation on a dataset. */
  function AdminPath(namespace: string, name: string, opName: string): (p: string)
    ensures "namespaces/" <= p
    ensures |p| == |namespace| + |name| + |opName| + 33
  {
    "namespaces/" + namespace + "/data/datasets/" + name + "/admin/" + opName
  }

  /** Splits a path at every '/', as a reader of the path would. */
  function Split(s: string): (parts: seq<string>)
    ensures |parts| >= 1
  {
    if |s| == 0 then [""]
    else
      var rest := Split(s[1..]);
      if s[0] == '/' then [""] + rest else [[s[0]] + rest[0]] + rest[1..]
  }

  /** Reads namespace, dataset name and op name back out of an admin path. */
  function ParseAdminPath(p: string): Option<(string, string, string)>
  {
    var parts := Split(p);
    if |parts| == 7 && parts[0] == "namespaces" && parts[2] == "data"
       && parts[3] == "datasets" && parts[5] == "admin"
    then Some((parts[1], parts[4], parts[6]))
    else None
  }

  lemma {:induction false} SplitSingle(a: string)
    requires '/' !in a
    ensures Split(a) == [a]
  {
    if |a| > 0 {
      assert '/' !in a[1..] by {
        forall k | 0 <= k < |a[1..]| ensures a[1..][k] != '/' { assert a[1..][k] == a[k + 1]; }
      }
      SplitSingle(a[1..]);
      assert [a[0]] + a[1..] == a;
    }
  }

  lemma {:induction false} SplitAfterSegment(a: string, b: string)
    requires '/' !in a
    ensures Split(a + "/" + b) == [a] + Split(b)
  {
    var s := a + "/" + b;
    if |a| == 0 {
      assert s == "/" + b;
      assert s[1..] == b;
    } else {
      assert '/' !in a[1..] by {
        forall k | 0 <= k < |a[1..]| ensures a[1..][k] != '/' { assert a[1..][k] == a[k + 1]; }
      }
      assert s[0] == a[0];
      assert s[1..] == a[1..] + "/" + b;
      SplitAfterSegment(a[1..], b);
      assert [a[0]] + a[1..] == a;
    }
  }

  /** Segments joined with '/' between them. */
  function JoinSlash(segs: seq<string>): string
    requires |segs| >= 1
  {
    if |segs| == 1 then segs[0] else segs[0] + "/" + JoinSlash(segs[1..])
  }

  /** Splitting undoes joining when no segment contains '/'. */
  lemma {:induction false} SplitJoin(segs: seq<string>)
    requires |segs| >= 1
    requires forall i :: 0 <= i < |segs| ==> '/' !in segs[i]
    ensures Split(JoinSlash(segs)) == segs
  {
    if |segs| == 1 {
      SplitSingle(segs[0]);
    } else {
      assert forall i :: 0 <= i < |segs[1..]| ==> segs[1..][i] == segs[i + 1];
      SplitJoin(segs[1..]);
      SplitAfterSegment(segs[0], JoinSlash(segs[1..]));
      assert [segs[0]] + segs[1..] == segs;
    }
  }

  /** The admin path is its seven segments joined with '/'. */
  lemma AdminPathSegments(namespace: string, name: string, opName: string)
    ensures AdminPath(namespace, name, opName)
         == JoinSlash(["namespaces", namespace, "data", "datasets", name, "admin", opName])
  {
    var segs := ["namespaces", namespace, "data", "datasets", name, "admin", opName];
    assert JoinSlash(segs[6..]) == opName;
    assert JoinSlash(segs[5..]) == "admin/" + opName by { assert segs[5..][1..] == segs[6..]; }
    assert JoinSlash(segs[4..]) == name + "/admin/" + opName by { assert segs[4..][1..] == segs[5..]; }
    assert JoinSlash(segs[3..]) == "datasets/" + name + "/admin/" + opName by { assert segs[3..][1..] == segs[4..]; }
    assert JoinSlash(segs[2..]) == "data/datasets/" + name + "/admin/" + opName by { assert segs[2..][1..] == segs[3..]; }
    assert JoinSlash(segs[1..]) == namespace + "/data/datasets/" + name + "/admin/" + opName by { assert segs[1..][1..] == segs[2..]; }
    assert JoinSlash(segs) == "namespaces/" + namespace + "/data/datasets/" + name + "/admin/" + opName;
  }

  /** With slash-free components the path is read back exactly (round trip). */
  lemma PathRoundTrip(namespace: string, name: string, opName: string)
    requires '/' !in namespace && '/' !in name && '/' !in opName
    ensures ParseAdminPath(AdminPath(namespace, name, opName)) == Some((namespace, name, opName))
  {
    var segs := ["namespaces", namespace, "data", "datasets", name, "admin", opName];
    AdminPathSegments(namespace, name, opName);
    SplitJoin(segs);
  }

  /** Distinct slash-free (namespace, name, op) triples never share a path. */
  lemma PathInjective(ns1: string, n1: string, op1: string, ns2: string, n2: string, op2: string)
    requires '/' !in ns1 && '/' !in n1 && '/' !in op1
    requires '/' !in ns2 && '/' !in n2 && '/' !in op2
    requires AdminPath(ns1, n1, op1) == AdminPath(ns2, n2, op2)
    ensures ns1 == ns2 && n1 == n2 && op1 == op2
  {
    PathRoundTrip(ns1, n1, op1);
    PathRoundTrip(ns2, n2, op2);
  }

  /** Without the slash-free restriction on identifiers, two datasets share a path for the same operation. */
  lemma PathAmbiguousWithSlashes()
    ensures AdminPath("a", "b/data/datasets/c", "drop") == AdminPath("a/data/datasets/b", "c", "drop")
  {
  }

  // ---------------------------------------------------------------------------
  // Request building (imperative, as the HTTP request builder works)
  // ---------------------------------------------------------------------------

  /** An HTTP request builder that is updated in place. */
  class RequestBuilder {
    var verb: HttpMethod
    var service: string
    var apiVersion: string
    var path: string
    var body: Option<string>
    var headers: seq<(string, string)>

    constructor (verb: HttpMethod, service: string, apiVersion: string, path: string)
      ensures this.verb == verb && this.service == service
      ensures this.apiVersion == apiVersion && this.path == path
      ensures body == None && headers == []
    {
      this.verb := verb;
      this.service := service;
      this.apiVersion := apiVersion;
      this.path := path;
      body := None;
      headers := [];
    }

    /** Attaches a body; nothing else changes. */
    method WithBody(b: string)
      modifies this
      ensures body == Some(b)
      ensures verb == old(verb) && service == old(service)
      ensures apiVersion == old(apiVersion) && path == old(path) && headers == old(headers)
    {
      body := Some(b);
    }

    /** Appends one header; nothing else changes. */
    method AddHeader(name: string, value: string)
      modifies this
      ensures headers == old(headers) + [(name, value)]
      ensures verb == old(verb) && service == old(service)
      ensures apiVersion == old(apiVersion) && path == old(path) && body == old(body)
    {
      headers := headers + [(name, value)];
    }

    /** The request the builder currently describes. */
    function Build(): (r: HttpRequest)
      reads this
      ensures r.verb == verb && r.service == service && r.apiVersion == apiVersion
      ensures r.path == path && r.body == body && r.headers == headers
    {
      HttpRequest(verb, service, apiVersion, path, body, headers)
    }
  }

  /** Specification of the request an admin operation sends. */
  function BuildRequest(id: DatasetId, opName: string, body: Option<string>, userId: Option<string>): HttpRequest
  {
    HttpRequest(POST, DatasetExecutorService, ApiVersion3,
                AdminPath(id.namespace, id.name, opName), body,
                if userId.Some? then [(UserIdHeader, userId.value)] else [])
  }

  /** The value of the first header with the given name, if any. */
  function HeaderValue(headers: seq<(string, string)>, name: string): Option<string>
  {
    if |headers| == 0 then None
    else if headers[0].0 == name then Some(headers[0].1)
    else HeaderValue(headers[1..], name)
  }

  /**
   * The request is a POST to the dataset executor at the admin path, carries
   * exactly the given body, and carries the user-id header exactly when a
   * principal name is known, with that name as its value; no other header.
   */
  lemma RequestShape(id: DatasetId, opName: string, body: Option<string>, userId: Option<string>)
    ensures var r := BuildRequest(id, opName, body, userId);
      && r.verb == POST && r.service == DatasetExecutorService && r.apiVersion == ApiVersion3
      && r.path == "namespaces/" + id.namespace + "/data/datasets/" + id.name + "/admin/" + opName
      && (r.body.Some? <==> body.Some?) && r.body == body
      && HeaderValue(r.headers, UserIdHeader) == userId
      && (forall h :: h in r.headers ==> h.0 == UserIdHeader)
  {
  }

  // ---------------------------------------------------------------------------
  // Response classification
  // ---------------------------------------------------------------------------

  /**
   * The error a response raises, or None when it raises nothing. The 409 test
   * comes first, so a conflict is never reported as a generic failure.
   */
  function VerifyResponse(resp: HttpResponse): (r: Option<OpError>)
    ensures r.None? <==> resp.status == 200
    ensures resp.status == 409 ==> r == Some(Conflict(resp.body))
    ensures resp.status != 200 && resp.status != 409 ==> r == Some(Handler(resp.status, resp.body))
  {
    if resp.status == 409 then Some(Conflict(resp.body))
    else if resp.status != 200 then Some(Handler(resp.status, resp.body))
    else None
  }

  /** No status is classified as more than one outcome, and 409 is never a generic failure. */
  lemma ClassificationExclusive(resp: HttpResponse)
    ensures VerifyResponse(resp).Some? ==>
      (VerifyResponse(resp).value.Conflict? <==> resp.status == 409)
    ensures VerifyResponse(resp).Some? ==>
      (VerifyResponse(resp).value.Conflict? || VerifyResponse(resp).value.Handler?)
  {
  }

  /** Sending a request and checking its status; transport failures pass through unchanged. */
  function Exchange(req: HttpRequest, send: Transport): Result<HttpResponse, OpError>
  {
    match send(req)
    case Failure(cause) => Failure(Transport(cause))
    case Success(resp) =>
      match VerifyResponse(resp)
      case Some(err) => Failure(err)
      case None => Success(resp)
  }

  /** Functional specification of `doRequest`. */
  function Perform(id: DatasetId, opName: string, body: Option<string>, userId: Option<string>,
                   send: Transport): Result<HttpResponse, OpError>
  {
    Exchange(BuildRequest(id, opName, body, userId), send)
  }

  /**
   * Builds the request step by step on a builder, sends it, and checks the
   * response. Returns the request it sent and the outcome.
   */
  method DoRequest(id: DatasetId, opName: string, body: Option<string>, userId: Option<string>,
                   send: Transport)
    returns (req: HttpRequest, r: Result<HttpResponse, OpError>)
    ensures req == BuildRequest(id, opName, body, userId)
    ensures r == Exchange(req, send)
    ensures r == Perform(id, opName, body, userId, send)
  {
    var path := AdminPath(id.namespace, id.name, opName);
    var builder := new RequestBuilder(POST, DatasetExecutorService, ApiVersion3, path);
    if body.Some? {
      builder.WithBody(body.value);
    }
    if userId.Some? {
      builder.AddHeader(UserIdHeader, userId.value);
    }
    req := builder.Build();
    var sent := send(req);
    match sent {
      case Failure(cause) =>
        r := Failure(Transport(cause));
      case Success(resp) =>
        var verdict := VerifyResponse(resp);
        if verdict.Some? {
          r := Failure(verdict.value);
        } else {
          r := Success(resp);
        }
    }
  }

  // ---------------------------------------------------------------------------
  // The public operations
  // ---------------------------------------------------------------------------

  /** Sends an admin op without a body and decodes the admin-op response envelope. */
  function ExecuteAdminOp(id: DatasetId, opName: string, userId: Option<string>,
                          codec: Codec, send: Transport): Result<Option<DatasetAdminOpResponse>, OpError>
  {
    match Perform(id, opName, None, userId, send)
    case Failure(e) => Failure(e)
    case Success(resp) =>
      match codec.adminOpFromJson(resp.body)
      case Parsed(v) => Success(Some(v))
      case JsonNull => Success(None)
      case Unparsable(reason) => Failure(Malformed(reason))
  }

  /** Decoding of a creation response; JSON null gives no object rather than an error. */
  function CreationFromJsonBody(d: Decoded<DatasetCreationResponse>): Result<Option<DatasetCreationResponse>, OpError>
  {
    match d
    case Parsed(v) => Success(Some(v))
    case JsonNull => Success(None)
    case Unparsable(reason) => Failure(Malformed(reason))
  }

  function Exists(id: DatasetId, userId: Option<string>, codec: Codec, send: Transport): Result<bool, OpError>
  {
    match ExecuteAdminOp(id, "exists", userId, codec, send)
    case Failure(e) => Failure(e)
    case Success(resp) =>
      if resp.Some? && resp.value.result.BoolResult? then Success(resp.value.result.b)
      else Failure(BadResult)
  }

  function Create(id: DatasetId, typeMeta: DatasetTypeMeta, props: DatasetProperties,
                  userId: Option<string>, codec: Codec, send: Transport)
    : Result<Option<DatasetCreationResponse>, OpError>
  {
    match Perform(id, "create", Some(codec.toJson(CreationParams(typeMeta, props))), userId, send)
    case Failure(e) => Failure(e)
    case Success(resp) => CreationFromJsonBody(codec.creationFromJson(resp.body))
  }

  function Update(id: DatasetId, typeMeta: DatasetTypeMeta, props: DatasetProperties,
                  existing: DatasetSpecification, userId: Option<string>, codec: Codec, send: Transport)
    : Result<Option<DatasetCreationResponse>, OpError>
  {
    match Perform(id, "update", Some(codec.toJson(UpdateParams(typeMeta, existing, props))), userId, send)
    case Failure(e) => Failure(e)
    case Success(resp) => CreationFromJsonBody(codec.creationFromJson(resp.body))
  }

  function Drop(id: DatasetId, typeMeta: DatasetTypeMeta, spec: DatasetSpecification,
                userId: Option<string>, codec: Codec, send: Transport): Result<(), OpError>
  {
    match Perform(id, "drop", Some(codec.toJson(DropParams(typeMeta, spec))), userId, send)
    case Failure(e) => Failure(e)
    case Success(_) => Success(())
  }

  function Truncate(id: DatasetId, userId: Option<string>, codec: Codec, send: Transport): Result<(), OpError>
  {
    match ExecuteAdminOp(id, "truncate", userId, codec, send)
    case Failure(e) => Failure(e)
    case Success(_) => Success(())
  }

  function Upgrade(id: DatasetId, userId: Option<string>, codec: Codec, send: Transport): Result<(), OpError>
  {
    match ExecuteAdminOp(id, "upgrade", userId, codec, send)
    case Failure(e) => Failure(e)
    case Success(_) => Success(())
  }

  // ---------------------------------------------------------------------------
  // One call of any operation, to state properties of all six at once
  // ---------------------------------------------------------------------------

  datatype AdminCall =
    | ExistsCall(id: DatasetId)
    | CreateCall(id: DatasetId, typeMeta: DatasetTypeMeta, props: DatasetProperties)
    | UpdateCall(id: DatasetId, typeMeta: DatasetTypeMeta, props: DatasetProperties, existing: DatasetSpecification)
    | DropCall(id: DatasetId, typeMeta: DatasetTypeMeta, spec: DatasetSpecification)
    | TruncateCall(id: DatasetId)
    | UpgradeCall(id: DatasetId)

  /** What a successful call returns. */
  datatype Reply = ExistsReply(present: bool) | CreationReply(response: Option<DatasetCreationResponse>) | Done

  function OpNameOf(call: AdminCall): string
  {
    match call
    case ExistsCall(_) => "exists"
    case CreateCall(_, _, _) => "create"
    case UpdateCall(_, _, _, _) => "update"
    case DropCall(_, _, _) => "drop"
    case TruncateCall(_) => "truncate"
    case UpgradeCall(_) => "upgrade"
  }

  /** The serialised payload a call sends, if any. */
  function PayloadOf(call: AdminCall, codec: Codec): Option<string>
  {
    match call
    case CreateCall(_, m, p) => Some(codec.toJson(CreationParams(m, p)))
    case UpdateCall(_, m, p, e) => Some(codec.toJson(UpdateParams(m, e, p)))
    case DropCall(_, m, s) => Some(codec.toJson(DropParams(m, s)))
    case _ => None
  }

  /** The request a call sends. */
  function RequestOf(call: AdminCall, userId: Option<string>, codec: Codec): HttpRequest
  {
    BuildRequest(call.id, OpNameOf(call), PayloadOf(call, codec), userId)
  }

  /** Runs the public operation a call names. */
  function Invoke(call: AdminCall, userId: Option<string>, codec: Codec, send: Transport): Result<Reply, OpError>
  {
    match call
    case ExistsCall(id) =>
      (match Exists(id, userId, codec, send) case Success(b) => Success(ExistsReply(b)) case Failure(e) => Failure(e))
    case CreateCall(id, m, p) =>
      (match Create(id, m, p, userId, codec, send) case Success(c) => Success(CreationReply(c)) case Failure(e) => Failure(e))
    case UpdateCall(id, m, p, x) =>
      (match Update(id, m, p, x, userId, codec, send) case Success(c) => Success(CreationReply(c)) case Failure(e) => Failure(e))
    case DropCall(id, m, s) =>
      (match Drop(id, m, s, userId, codec, send) case Success(_) => Success(Done) case Failure(e) => Failure(e))
    case TruncateCall(id) =>
      (match Truncate(id, userId, codec, send) case Success(_) => Success(Done) case Failure(e) => Failure(e))
    case UpgradeCall(id) =>
      (match Upgrade(id, userId, codec, send) case Success(_) => Success(Done) case Failure(e) => Failure(e))
  }

  /** Each operation has its own op name, and no two operations share one. */
  lemma OpNamesDistinct(c1: AdminCall, c2: AdminCall)
    ensures OpNameOf(c1) == OpNameOf(c2) <==>
      (&& c1.ExistsCall? == c2.ExistsCall? && c1.CreateCall? == c2.CreateCall?
       && c1.UpdateCall? == c2.UpdateCall? && c1.DropCall? == c2.DropCall?
       && c1.TruncateCall? == c2.TruncateCall? && c1.UpgradeCall? == c2.UpgradeCall?)
    ensures '/' !in OpNameOf(c1)
  {
  }

  /**
   * Every call is a POST to the dataset executor on its own admin path; it
   * has a body exactly when it is a create, update or drop, and that body is
   * the serialised payload.
   */
  lemma CallRequestShape(call: AdminCall, userId: Option<string>, codec: Codec)
    ensures var r := RequestOf(call, userId, codec);
      && r.verb == POST && r.service == DatasetExecutorService
      && r.path == AdminPath(call.id.namespace, call.id.name, OpNameOf(call))
      && (r.body.Some? <==> (call.CreateCall? || call.UpdateCall? || call.DropCall?))
      && (call.CreateCall? ==> r.body == Some(codec.toJson(CreationParams(call.typeMeta, call.props))))
      && (call.UpdateCall? ==> r.body == Some(codec.toJson(UpdateParams(call.typeMeta, call.existing, call.props))))
      && (call.DropCall? ==> r.body == Some(codec.toJson(DropParams(call.typeMeta, call.spec))))
      && HeaderValue(r.headers, UserIdHeader) == userId
  {
    RequestShape(call.id, OpNameOf(call), PayloadOf(call, codec), userId);
  }

  /**
   * A call sends exactly `RequestOf(call, ..)` and nothing else: two transports
   * that answer that request alike give the same outcome. In particular,
   * repeating a call against an unchanged backend gives the same outcome.
   */
  lemma OnlyItsRequestIsSent(call: AdminCall, userId: Option<string>, codec: Codec, send1: Transport, send2: Transport)
    requires send1(RequestOf(call, userId, codec)) == send2(RequestOf(call, userId, codec))
    ensures Invoke(call, userId, codec, send1) == Invoke(call, userId, codec, send2)
  {
  }

  /** A call returns normally only when the transport delivered a 200 response. */
  lemma SuccessOnlyOn200(call: AdminCall, userId: Option<string>, codec: Codec, send: Transport)
    ensures Invoke(call, userId, codec, send).Success? ==>
      var sent := send(RequestOf(call, userId, codec));
      sent.Success? && sent.value.status == 200
  {
  }

  /**
   * The failures a call raises, by what the transport delivered: an I/O
   * failure unchanged, a conflict with the body on 409, a handler failure
   * with status and body on every other non-200 status.
   */
  lemma CallFailures(call: AdminCall, userId: Option<string>, codec: Codec, send: Transport)
    ensures var sent := send(RequestOf(call, userId, codec));
      && (sent.Failure? ==> Invoke(call, userId, codec, send) == Failure(Transport(sent.error)))
      && (sent.Success? && sent.value.status == 409 ==>
            Invoke(call, userId, codec, send) == Failure(Conflict(sent.value.body)))
      && (sent.Success? && sent.value.status != 200 && sent.value.status != 409 ==>
            Invoke(call, userId, codec, send) == Failure(Handler(sent.value.status, sent.value.body)))
  {
  }

  /** On 200, `exists` returns the Boolean `result` of the decoded envelope, and fails without one. */
  lemma ExistsResult(id: DatasetId, userId: Option<string>, codec: Codec, send: Transport)
    requires send(BuildRequest(id, "exists", None, userId)).Success?
    requires send(BuildRequest(id, "exists", None, userId)).value.status == 200
    ensures var d := codec.adminOpFromJson(send(BuildRequest(id, "exists", None, userId)).value.body);
      && (d.Parsed? && d.value.result.BoolResult? ==> Exists(id, userId, codec, send) == Success(d.value.result.b))
      && (d.JsonNull? || (d.Parsed? && !d.value.result.BoolResult?) ==> Exists(id, userId, codec, send) == Failure(BadResult))
      && (d.Unparsable? ==> Exists(id, userId, codec, send) == Failure(Malformed(d.reason)))
  {
  }

  /** On 200, truncate and upgrade discard the decoded result; only undecodable JSON fails them. */
  lemma TruncateUpgradeDiscardResult(id: DatasetId, userId: Option<string>, codec: Codec, send: Transport)
    ensures var st := send(BuildRequest(id, "truncate", None, userId));
      st.Success? && st.value.status == 200 ==>
        (Truncate(id, userId, codec, send).Success? <==> !codec.adminOpFromJson(st.value.body).Unparsable?)
    ensures var su := send(BuildRequest(id, "upgrade", None, userId));
      su.Success? && su.value.status == 200 ==>
        (Upgrade(id, userId, codec, send).Success? <==> !codec.adminOpFromJson(su.value.body).Unparsable?)
  {
  }

  /** On 200, drop returns normally: it does not decode the response body. */
  lemma DropOn200(id: DatasetId, m: DatasetTypeMeta, sp: DatasetSpecification, userId: Option<string>, codec: Codec, send: Transport)
    requires send(RequestOf(DropCall(id, m, sp), userId, codec)).Success?
    requires send(RequestOf(DropCall(id, m, sp), userId, codec)).value.status == 200
    ensures Invoke(DropCall(id, m, sp), userId, codec, send) == Success(Done)
  {
  }

  /** On 200, create and update return the decoded creation response; JSON null gives none. */
  lemma CreationResult(call: AdminCall, userId: Option<string>, codec: Codec, send: Transport)
    requires call.CreateCall? || call.UpdateCall?
    requires send(RequestOf(call, userId, codec)).Success?
    requires send(RequestOf(call, userId, codec)).value.status == 200
    ensures var d := codec.creationFromJson(send(RequestOf(call, userId, codec)).value.body);
      && (d.Parsed? ==> Invoke(call, userId, codec, send) == Success(CreationReply(Some(d.value))))
      && (d.JsonNull? ==> Invoke(call, userId, codec, send) == Success(CreationReply(None)))
      && (d.Unparsable? ==> Invoke(call, userId, codec, send) == Failure(Malformed(d.reason)))
  {
  }
}
