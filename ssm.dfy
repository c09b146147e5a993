/**
 * `src/ssm.rs`: the Systems Manager Parameter Store client.  Requests are JSON POSTs to
 * the regional endpoint, the operation named by the `X-Amz-Target` header.
 */
module Ssm {
  import opened Wrappers
  import opened Auth
  import opened Errors
  import Ureq
  import Format
  import Signing
  import Retry
  import Context

  type Bytes = Ureq.Bytes

  const ServiceName := "ssm"
  const ContentType := "application/x-amz-json-1.1"

  /** The JSON error document the service returns with an error status. */
  datatype ErrorBody = ErrorBody(errorType: string, message: Option<string>)

  datatype Error =
    | Api(status: nat, response: Ureq.Response)
    | Json(jsonError: JsonError)
    | Request(signingError: Signing.Error)
    | SSM(body: ErrorBody)
    | Transport(transportError: Ureq.UreqError)

  datatype Client = Client(credentials: Credentials, region: string)

  datatype GetParameterInput = GetParameterInput(name: string, withDecryption: Option<bool>)
  {
    function WithName(n: string): (r: GetParameterInput)
      ensures r.name == n && r.withDecryption == withDecryption
    {
      this.(name := n)
    }

    function WithDecryption(b: bool): (r: GetParameterInput)
      ensures r.withDecryption == Some(b) && r.name == name
    {
      this.(withDecryption := Some(b))
    }
  }

  datatype ParameterStringFilter = ParameterStringFilter(key: string, option: Option<string>, values: Option<seq<string>>)

  datatype GetParametersByPathInput = GetParametersByPathInput(
    maxResults: Option<Format.u32>,
    nextToken: Option<string>,
    parameterFilters: Option<seq<ParameterStringFilter>>,
    path: string,
    recursive: Option<bool>,
    withDecryption: Option<bool>)
  {
    function WithMaxResults(n: Format.u32): (r: GetParametersByPathInput)
      ensures r == GetParametersByPathInput(Some(n), nextToken, parameterFilters, path, recursive, withDecryption)
    {
      this.(maxResults := Some(n))
    }

    function WithNextToken(token: string): (r: GetParametersByPathInput)
      ensures r == GetParametersByPathInput(maxResults, Some(token), parameterFilters, path, recursive, withDecryption)
    {
      this.(nextToken := Some(token))
    }

    function WithParameterFilters(fs: seq<ParameterStringFilter>): (r: GetParametersByPathInput)
      ensures r == GetParametersByPathInput(maxResults, nextToken, Some(fs), path, recursive, withDecryption)
    {
      this.(parameterFilters := Some(fs))
    }

    function WithPath(p: string): (r: GetParametersByPathInput)
      ensures r == GetParametersByPathInput(maxResults, nextToken, parameterFilters, p, recursive, withDecryption)
    {
      this.(path := p)
    }

    function WithRecursive(b: bool): (r: GetParametersByPathInput)
      ensures r == GetParametersByPathInput(maxResults, nextToken, parameterFilters, path, Some(b), withDecryption)
    {
      this.(recursive := Some(b))
    }

    function WithDecryption(b: bool): (r: GetParametersByPathInput)
      ensures r == GetParametersByPathInput(maxResults, nextToken, parameterFilters, path, recursive, Some(b))
    {
      this.(withDecryption := Some(b))
    }
  }

  /** Builders that set different fields commute, and the later of two calls to the same builder wins. */
  lemma BuildersCommute(input: GetParametersByPathInput, p: string, q: string, b: bool, n: Format.u32)
    ensures input.WithPath(p).WithRecursive(b) == input.WithRecursive(b).WithPath(p)
    ensures input.WithMaxResults(n).WithNextToken(q) == input.WithNextToken(q).WithMaxResults(n)
    ensures input.WithPath(p).WithPath(q) == input.WithPath(q)
  {
  }

  /** `From<ureq::Error>`: an error status becomes `Api`, a failed transport `Transport`. */
  function FromUreq(e: Ureq.UreqError): (r: Error)
    ensures r.Api? <==> e.Status?
    ensures e.Status? ==> r.status == e.code && r.response == e.response
    ensures r.Transport? <==> e.Transport?
    ensures e.Transport? ==> r.transportError == e
  {
    match e
    case Status(code, response) => Api(code, response)
    case Transport(_) => Transport(e)
  }

  /** The conversion loses nothing: distinct client errors stay distinct. */
  lemma FromUreqInjective(a: Ureq.UreqError, b: Ureq.UreqError)
    ensures FromUreq(a) == FromUreq(b) ==> a == b
  {
  }

  /**
   * The error side of each operation: an `Api` error is decoded from JSON into the error
   * body and becomes `SSM`, or `Json` when the body does not decode; every other error
   * passes unchanged.
   */
  function ClassifyError(e: Error, decodeError: Bytes -> Result<ErrorBody, JsonError>): (c: Error)
    ensures !c.Api?
    ensures e.Api? && decodeError(e.response.body).Success? ==> c == SSM(decodeError(e.response.body).value)
    ensures e.Api? && decodeError(e.response.body).Failure? ==> c == Json(decodeError(e.response.body).error)
    ensures !e.Api? ==> c == e
  {
    match e
    case Api(_, response) =>
      (match decodeError(response.body)
       case Success(body) => SSM(body)
       case Failure(x) => Json(x))
    case _ => e
  }

  /** Classifying twice is classifying once. */
  lemma ClassifyErrorIdempotent(e: Error, decodeError: Bytes -> Result<ErrorBody, JsonError>)
    ensures ClassifyError(ClassifyError(e, decodeError), decodeError) == ClassifyError(e, decodeError)
  {
  }

  /** What each operation makes of the outcome of `send`. */
  function Complete<O>(sent: Result<Ureq.Response, Error>, decodeOutput: Bytes -> Result<O, JsonError>,
                       decodeError: Bytes -> Result<ErrorBody, JsonError>): (r: Result<O, Error>)
    ensures r.Success? <==> sent.Success? && decodeOutput(sent.value.body).Success?
    ensures r.Success? ==> r.value == decodeOutput(sent.value.body).value
    ensures sent.Success? && decodeOutput(sent.value.body).Failure? ==>
      r == Failure(Json(decodeOutput(sent.value.body).error))
    ensures sent.Failure? ==> r == Failure(ClassifyError(sent.error, decodeError))
    ensures r.Failure? ==> !r.error.Api?
  {
    match sent
    case Success(response) => decodeOutput(response.body).MapFailure(x => Json(x))
    case Failure(e) => Failure(ClassifyError(e, decodeError))
  }

  /** `url`: the regional endpoint. */
  function Url(region: string): (u: string)
    ensures u == "https://ssm." + region + ".amazonaws.com"
  {
    "https://" + ServiceName + "." + region + ".amazonaws.com"
  }

  /** The region can be read back from the endpoint, so distinct regions have distinct endpoints. */
  lemma UrlInjective(a: string, b: string)
    ensures Url(a) == Url(b) ==> a == b
  {
    if Url(a) == Url(b) {
      assert Url(a)[12..|Url(a)| - 14] == a;
      assert Url(b)[12..|Url(b)| - 14] == b;
    }
  }

  /**
   * The request each operation builds: a POST to the endpoint with exactly two headers, the
   * JSON content type and the operation's target, and no query.  Both are signed.
   */
  function TargetRequest(api: Client, target: string): (r: Ureq.Request)
    ensures r.verb == "POST" && r.url == Url(api.region) && r.query == []
    ensures r.headers == [("Content-Type", ContentType), ("X-Amz-Target", target)]
    ensures r.Header("Content-Type") == Some(ContentType) && r.Header("X-Amz-Target") == Some(target)
    ensures Signing.SignableHeaders(r) == r.headers
  {
    var typed := Ureq.Post(Url(api.region)).Set("Content-Type", ContentType);
    assert typed.headers == [("Content-Type", ContentType)];
    Ureq.SetFresh(typed, "X-Amz-Target", target);
    var r := typed.Set("X-Amz-Target", target);
    assert r.headers[0].0 != r.headers[1].0;
    Signing.SignableHeadersExact(r);
    r
  }

  function SendSpec<I>(api: Client, request: Ureq.Request, input: I, serialize: I -> Result<Bytes, JsonError>,
                       env: Context.Env): Retry.Run<Ureq.Outgoing, Ureq.Response, Error>
  {
    match serialize(input)
    case Failure(e) => Retry.Run(Failure(Json(e)), [], [])
    case Success(body) =>
      match Signing.Signed(request, body, Identity(api.credentials), api.region, ServiceName, env.now, env.signer)
      case Failure(e) => Retry.Run(Failure(Request(e)), [], [])
      case Success(signed) => Retry.Spec(Ureq.Outgoing(signed, Some(body)), env.network, FromUreq)
  }

  /**
   * `send`: serializes the input to JSON, signs the request once over exactly those bytes,
   * and sends the signed request with those bytes through the retry loop.  A serialization
   * failure is returned as `Json` and a signing failure as `Request`, with no attempt made.
   */
  method Send<I>(api: Client, request: Ureq.Request, input: I, serialize: I -> Result<Bytes, JsonError>,
                 env: Context.Env) returns (run: Retry.Run<Ureq.Outgoing, Ureq.Response, Error>)
    ensures run == SendSpec(api, request, input, serialize, env)
    ensures |run.sent| <= Retry.MaxAttempts
    ensures serialize(input).Failure? ==> run.result == Failure(Json(serialize(input).error)) && run.sent == []
    ensures forall i :: 0 <= i < |run.sent| ==> run.sent[i].payload == Some(serialize(input).value)
    ensures run.sent == [] <==> run.result.Failure? && (run.result.error.Json? || run.result.error.Request?)
  {
    var serialized := serialize(input);
    if serialized.Failure? {
      return Retry.Run(Failure(Json(serialized.error)), [], []);
    }
    var body := serialized.value;
    var identity := Identity(api.credentials);
    var signed := Signing.SignRequest(request, body, identity, api.region, ServiceName, env.now, env.signer);
    if signed.Failure? {
      return Retry.Run(Failure(Request(signed.error)), [], []);
    }
    run := Retry.Loop(Ureq.Outgoing(signed.value, Some(body)), env.network, FromUreq);
  }

  /** `get_parameter`: the `AmazonSSM.GetParameter` target. */
  method GetParameter<O>(api: Client, input: GetParameterInput, env: Context.Env,
                         serialize: GetParameterInput -> Result<Bytes, JsonError>,
                         decodeOutput: Bytes -> Result<O, JsonError>, decodeError: Bytes -> Result<ErrorBody, JsonError>)
    returns (r: Result<O, Error>, run: Retry.Run<Ureq.Outgoing, Ureq.Response, Error>)
    ensures run == SendSpec(api, TargetRequest(api, "AmazonSSM.GetParameter"), input, serialize, env)
    ensures r == Complete(run.result, decodeOutput, decodeError)
  {
    var req := Ureq.Post(Url(api.region));
    req := req.Set("Content-Type", ContentType);
    req := req.Set("X-Amz-Target", "AmazonSSM.GetParameter");
    run := Send(api, req, input, serialize, env);
    r := Complete(run.result, decodeOutput, decodeError);
  }

  /** `get_parameters_by_path`: the `AmazonSSM.GetParametersByPath` target. */
  method GetParametersByPath<O>(api: Client, input: GetParametersByPathInput, env: Context.Env,
                                serialize: GetParametersByPathInput -> Result<Bytes, JsonError>,
                                decodeOutput: Bytes -> Result<O, JsonError>, decodeError: Bytes -> Result<ErrorBody, JsonError>)
    returns (r: Result<O, Error>, run: Retry.Run<Ureq.Outgoing, Ureq.Response, Error>)
    ensures run == SendSpec(api, TargetRequest(api, "AmazonSSM.GetParametersByPath"), input, serialize, env)
    ensures r == Complete(run.result, decodeOutput, decodeError)
  {
    var req := Ureq.Post(Url(api.region));
    req := req.Set("Content-Type", ContentType);
    req := req.Set("X-Amz-Target", "AmazonSSM.GetParametersByPath");
    run := Send(api, req, input, serialize, env);
    r := Complete(run.result, decodeOutput, decodeError);
  }
}
