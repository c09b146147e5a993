/**
 * `src/secretsmanager.rs`: the Secrets Manager client.  Requests are JSON POSTs to the
 * regional endpoint, the operation named by the `X-Amz-Target` header.
 */
module SecretsManager {
  import opened Wrappers
  import opened Auth
  import opened Errors
  import Ureq
  import Signing
  import Retry
  import Context

  type Bytes = Ureq.Bytes

  const ServiceName := "secretsmanager"
  const ContentType := "application/x-amz-json-1.1"

  /** The JSON error document the service returns with an error status. */
  datatype ErrorBody = ErrorBody(errorType: string, message: Option<string>)

  datatype Error =
    | Api(status: nat, response: Ureq.Response)
    | Json(jsonError: JsonError)
    | Request(signingError: Signing.Error)
    | SecretsManager(body: ErrorBody)
    | Transport(transportError: Ureq.UreqError)

  datatype Client = Client(credentials: Credentials, region: string)

  datatype GetSecretValueInput = GetSecretValueInput(secretId: string, versionId: Option<string>, versionStage: Option<string>)
  {
    function WithSecretId(id: string): (r: GetSecretValueInput)
      ensures r == GetSecretValueInput(id, versionId, versionStage)
    {
      this.(secretId := id)
    }

    function WithVersionId(id: string): (r: GetSecretValueInput)
      ensures r == GetSecretValueInput(secretId, Some(id), versionStage)
    {
      this.(versionId := Some(id))
    }

    function WithVersionStage(stage: string): (r: GetSecretValueInput)
      ensures r == GetSecretValueInput(secretId, versionId, Some(stage))
    {
      this.(versionStage := Some(stage))
    }
  }

  /** Builders that set different fields commute, and the later of two calls to the same builder wins. */
  lemma BuildersCommute(input: GetSecretValueInput, a: string, b: string)
    ensures input.WithSecretId(a).WithVersionStage(b) == input.WithVersionStage(b).WithSecretId(a)
    ensures input.WithVersionId(a).WithVersionStage(b) == input.WithVersionStage(b).WithVersionId(a)
    ensures input.WithVersionId(a).WithVersionId(b) == input.WithVersionId(b)
  {
  }

  /** `From<ureq::Error>`: an error status becomes `Api`, a failed transport `Transport`. */
  function FromUreq(e: Ureq.UreqError): (r: Error)
    ensures r.Api? <==> e.Status?
    ensures e.Status? ==> r.status == e.code && r.response == e.response
    ensures r.Transport? <==> e.Transport?
    ensures e.Transport? ==> r.transportError == e
  {
    match e
    case Status(code, response) => Api(code, response)
    case Transport(_) => Transport(e)
  }

  /** The conversion loses nothing: distinct client errors stay distinct. */
  lemma FromUreqInjective(a: Ureq.UreqError, b: Ureq.UreqError)
    ensures FromUreq(a) == FromUreq(b) ==> a == b
  {
  }

  /**
   * The error side of each operation: an `Api` error is decoded from JSON into the error
   * body and becomes `SecretsManager`, or `Json` when the body does not decode; every other error
   * passes unchanged.
   */
  function ClassifyError(e: Error, decodeError: Bytes -> Result<ErrorBody, JsonError>): (c: Error)
    ensures !c.Api?
    ensures e.Api? && decodeError(e.response.body).Success? ==> c == SecretsManager(decodeError(e.response.body).value)
    ensures e.Api? && decodeError(e.response.body).Failure? ==> c == Json(decodeError(e.response.body).error)
    ensures !e.Api? ==> c == e
  {
    match e
    case Api(_, response) =>
      (match decodeError(response.body)
       case Success(body) => SecretsManager(body)
       case Failure(x) => Json(x))
    case _ => e
  }

  /** Classifying twice is classifying once. */
  lemma ClassifyErrorIdempotent(e: Error, decodeError: Bytes -> Result<ErrorBody, JsonError>)
    ensures ClassifyError(ClassifyError(e, decodeError), decodeError) == ClassifyError(e, decodeError)
  {
  }

  /** What each operation makes of the outcome of `send`. */
  function Complete<O>(sent: Result<Ureq.Response, Error>, decodeOutput: Bytes -> Result<O, JsonError>,
                       decodeError: Bytes -> Result<ErrorBody, JsonError>): (r: Result<O, Error>)
    ensures r.Success? <==> sent.Success? && decodeOutput(sent.value.body).Success?
    ensures r.Success? ==> r.value == decodeOutput(sent.value.body).value
    ensures sent.Success? && decodeOutput(sent.value.body).Failure? ==>
      r == Failure(Json(decodeOutput(sent.value.body).error))
    ensures sent.Failure? ==> r == Failure(ClassifyError(sent.error, decodeError))
    ensures r.Failure? ==> !r.error.Api?
  {
    match sent
    case Success(response) => decodeOutput(response.body).MapFailure(x => Json(x))
    case Failure(e) => Failure(ClassifyError(e, decodeError))
  }

  /** `url`: the regional endpoint. */
  function Url(region: string): (u: string)
    ensures u == "https://secretsmanager." + region + ".amazonaws.com"
  {
    "https://" + ServiceName + "." + region + ".amazonaws.com"
  }

  /** The region can be read back from the endpoint, so distinct regions have distinct endpoints. */
  lemma UrlInjective(a: string, b: string)
    ensures Url(a) == Url(b) ==> a == b
  {
    if Url(a) == Url(b) {
      assert Url(a)[23..|Url(a)| - 14] == a;
      assert Url(b)[23..|Url(b)| - 14] == b;
    }
  }

  /**
   * The request each operation builds: a POST to the endpoint with exactly two headers, the
   * JSON content type and the operation's target, and no query.  Both are signed.
   */
  function TargetRequest(api: Client, target: string): (r: Ureq.Request)
    ensures r.verb == "POST" && r.url == Url(api.region) && r.query == []
    ensures r.headers == [("Content-Type", ContentType), ("X-Amz-Target", target)]
    ensures r.Header("Content-Type") == Some(ContentType) && r.Header("X-Amz-Target") == Some(target)
    ensures Signing.SignableHeaders(r) == r.headers
  {
    var typed := Ureq.Post(Url(api.region)).Set("Content-Type", ContentType);
    assert typed.headers == [("Content-Type", ContentType)];
    Ureq.SetFresh(typed, "X-Amz-Target", target);
    var r := typed.Set("X-Amz-Target", target);
    assert r.headers[0].0 != r.headers[1].0;
    Signing.SignableHeadersExact(r);
    r
  }

  function SendSpec<I>(api: Client, request: Ureq.Request, input: I, serialize: I -> Result<Bytes, JsonError>,
                       env: Context.Env): Retry.Run<Ureq.Outgoing, Ureq.Response, Error>
  {
    match serialize(input)
    case Failure(e) => Retry.Run(Failure(Json(e)), [], [])
    case Success(body) =>
      match Signing.Signed(request, body, Identity(api.credentials), api.region, ServiceName, env.now, env.signer)
      case Failure(e) => Retry.Run(Failure(Request(e)), [], [])
      case Success(signed) => Retry.Spec(Ureq.Outgoing(signed, Some(body)), env.network, FromUreq)
  }

  /**
   * `send`: serializes the input to JSON, signs the request once over exactly those bytes,
   * and sends the signed request with those bytes through the retry loop.  A serialization
   * failure is returned as `Json` and a signing failure as `Request`, with no attempt made.
   */
  method Send<I>(api: Client, request: Ureq.Request, input: I, serialize: I -> Result<Bytes, JsonError>,
                 env: Context.Env) returns (run: Retry.Run<Ureq.Outgoing, Ureq.Response, Error>)
    ensures run == SendSpec(api, request, input, serialize, env)
    ensures |run.sent| <= Retry.MaxAttempts
    ensures serialize(input).Failure? ==> run.result == Failure(Json(serialize(input).error)) && run.sent == []
    ensures forall i :: 0 <= i < |run.sent| ==> run.sent[i].payload == Some(serialize(input).value)
    ensures run.sent == [] <==> run.result.Failure? && (run.result.error.Json? || run.result.error.Request?)
  {
    var serialized := serialize(input);
    if serialized.Failure? {
      return Retry.Run(Failure(Json(serialized.error)), [], []);
    }
    var body := serialized.value;
    var identity := Identity(api.credentials);
    var signed := Signing.SignRequest(request, body, identity, api.region, ServiceName, env.now, env.signer);
    if signed.Failure? {
      return Retry.Run(Failure(Request(signed.error)), [], []);
    }
    run := Retry.Loop(Ureq.Outgoing(signed.value, Some(body)), env.network, FromUreq);
  }

  /** `get_secret_value`: the `secretsmanager.GetSecretValue` target. */
  method GetSecretValue<O>(api: Client, input: GetSecretValueInput, env: Context.Env,
                           serialize: GetSecretValueInput -> Result<Bytes, JsonError>,
                           decodeOutput: Bytes -> Result<O, JsonError>, decodeError: Bytes -> Result<ErrorBody, JsonError>)
    returns (r: Result<O, Error>, run: Retry.Run<Ureq.Outgoing, Ureq.Response, Error>)
    ensures run == SendSpec(api, TargetRequest(api, "secretsmanager.GetSecretValue"), input, serialize, env)
    ensures r == Complete(run.result, decodeOutput, decodeError)
  {
    var req := Ureq.Post(Url(api.region));
    req := req.Set("Content-Type", ContentType);
    req := req.Set("X-Amz-Target", "secretsmanager.GetSecretValue");
    run := Send(api, req, input, serialize, env);
    r := Complete(run.result, decodeOutput, decodeError);
  }
}
