/**
 * `src/s3.rs`: the S3 client.  Requests are GETs against the bucket's virtual-hosted
 * endpoint, signed over an empty body with the payload-hash header.
 */
module S3 {
  import opened Wrappers
  import opened Auth
  import opened Errors
  import Ureq
  import Signing
  import Retry
  import Context
  import Imds

  type Bytes = Ureq.Bytes

  const ServiceName := "s3"

  /** The XML error document S3 returns with an error status. */
  datatype ErrorBody = ErrorBody(code: string, message: string, resource: Option<string>, requestId: string)

  datatype Error =
    | Api(status: nat, response: Ureq.Response)
    | Http(httpError: Ureq.UreqError)
    | Imds(imdsError: Imds.Error)
    | Io(ioError: IoError)
    | NoSuchBucket
    | Request(signingError: Signing.Error)
    | S3(body: ErrorBody)
    | Transport(transportError: Ureq.UreqError)
    | Xml(xmlError: XmlError)

  datatype Client = Client(credentials: Credentials, region: string)

  datatype GetObjectInput = GetObjectInput(bucket: string, key: string)
  {
    function WithBucket(b: string): (r: GetObjectInput)
      ensures r.bucket == b && r.key == key
    {
      this.(bucket := b)
    }

    function WithKey(k: string): (r: GetObjectInput)
      ensures r.key == k && r.bucket == bucket
    {
      this.(key := k)
    }
  }

  /** The object's body, handed back unread. */
  datatype GetObjectOutput = GetObjectOutput(body: Bytes)

  datatype ListObjectsV2Input = ListObjectsV2Input(bucket: string, continuationToken: Option<string>, prefix: Option<string>)
  {
    function WithBucket(b: string): (r: ListObjectsV2Input)
      ensures r.bucket == b && r.continuationToken == continuationToken && r.prefix == prefix
    {
      this.(bucket := b)
    }

    function WithContinuationToken(token: string): (r: ListObjectsV2Input)
      ensures r.continuationToken == Some(token) && r.bucket == bucket && r.prefix == prefix
    {
      this.(continuationToken := Some(token))
    }

    function WithPrefix(p: string): (r: ListObjectsV2Input)
      ensures r.prefix == Some(p) && r.bucket == bucket && r.continuationToken == continuationToken
    {
      this.(prefix := Some(p))
    }
  }

  /** Builders that set different fields commute, and the later of two calls to the same builder wins. */
  lemma BuildersCommute(g: GetObjectInput, l: ListObjectsV2Input, a: string, b: string)
    ensures g.WithBucket(a).WithKey(b) == g.WithKey(b).WithBucket(a)
    ensures g.WithKey(a).WithKey(b) == g.WithKey(b)
    ensures l.WithPrefix(a).WithContinuationToken(b) == l.WithContinuationToken(b).WithPrefix(a)
    ensures l.WithBucket(a).WithPrefix(b) == l.WithPrefix(b).WithBucket(a)
    ensures l.WithPrefix(a).WithPrefix(b) == l.WithPrefix(b)
  {
  }

  /** `From<ureq::Error>`: an error status becomes `Api`, a failed transport `Transport`. */
  function FromUreq(e: Ureq.UreqError): (r: Error)
    ensures r.Api? <==> e.Status?
    ensures e.Status? ==> r.status == e.code && r.response == e.response
    ensures r.Transport? <==> e.Transport?
    ensures e.Transport? ==> r.transportError == e
  {
    match e
    case Status(code, response) => Api(code, response)
    case Transport(_) => Transport(e)
  }

  /** The conversion loses nothing: distinct client errors stay distinct. */
  lemma FromUreqInjective(a: Ureq.UreqError, b: Ureq.UreqError)
    ensures FromUreq(a) == FromUreq(b) ==> a == b
  {
  }

  /**
   * The error side of each operation: an `Api` error is decoded into an S3 error body and
   * becomes `S3`, or the decoder's `Xml` error when the body does not decode; every other
   * error passes unchanged.
   */
  function ClassifyError(e: Error, decodeError: Bytes -> Result<ErrorBody, XmlError>): (c: Error)
    ensures !c.Api?
    ensures e.Api? && decodeError(e.response.body).Success? ==> c == S3(decodeError(e.response.body).value)
    ensures e.Api? && decodeError(e.response.body).Failure? ==> c == Xml(decodeError(e.response.body).error)
    ensures !e.Api? ==> c == e
  {
    match e
    case Api(_, response) =>
      (match decodeError(response.body)
       case Success(body) => S3(body)
       case Failure(x) => Xml(x))
    case _ => e
  }

  /** Classifying twice is classifying once. */
  lemma ClassifyErrorIdempotent(e: Error, decodeError: Bytes -> Result<ErrorBody, XmlError>)
    ensures ClassifyError(ClassifyError(e, decodeError), decodeError) == ClassifyError(e, decodeError)
  {
  }

  /** `url`: the bucket's virtual-hosted endpoint in the client's region. */
  function Url(region: string, bucket: string): (u: string)
    ensures u == "https://" + bucket + ".s3." + region + ".amazonaws.com"
  {
    "https://" + bucket + "." + ServiceName + "." + region + ".amazonaws.com"
  }

  /** Within one region the bucket can be read back from the endpoint, and within one bucket the region. */
  lemma UrlInjective(region: string, region2: string, a: string, b: string)
    ensures Url(region, a) == Url(region, b) ==> a == b
    ensures Url(region, a) == Url(region2, a) ==> region == region2
  {
    if Url(region, a) == Url(region, b) {
      assert Url(region, a)[8..|Url(region, a)| - 18 - |region|] == a;
      assert Url(region, b)[8..|Url(region, b)| - 18 - |region|] == b;
    }
    if Url(region, a) == Url(region2, a) {
      assert Url(region, a)[12 + |a|..|Url(region, a)| - 14] == region;
      assert Url(region2, a)[12 + |a|..|Url(region2, a)| - 14] == region2;
    }
  }

  /**
   * The request `list_objects_v2` builds: a GET of the endpoint followed by "/", with
   * `list-type=2` first, then the continuation token and the prefix when they are set.
   */
  function ListObjectsV2Request(api: Client, input: ListObjectsV2Input): (r: Ureq.Request)
    ensures r.verb == "GET" && r.url == Url(api.region, input.bucket) + "/" && r.headers == []
    ensures |r.query| >= 1 && r.query[0] == ("list-type", "2")
  {
    var listed := Ureq.Get(Url(api.region, input.bucket) + "/").Query("list-type", "2");
    var resumed := if input.continuationToken.Some? then listed.Query("continuation-token", input.continuationToken.value) else listed;
    if input.prefix.Some? then resumed.Query("prefix", input.prefix.value) else resumed
  }

  /**
   * The query carries each option exactly as the input holds it: `continuation-token` and
   * `prefix` are present iff they are set, with their values, and nothing else is added.
   * The pairs come in the order they are added: `list-type`, the token, then the prefix.
   */
  lemma ListObjectsV2Query(api: Client, input: ListObjectsV2Input)
    ensures Ureq.Lookup(ListObjectsV2Request(api, input).query, "list-type") == Some("2")
    ensures Ureq.Lookup(ListObjectsV2Request(api, input).query, "continuation-token") == input.continuationToken
    ensures Ureq.Lookup(ListObjectsV2Request(api, input).query, "prefix") == input.prefix
    ensures |ListObjectsV2Request(api, input).query| ==
      1 + (if input.continuationToken.Some? then 1 else 0) + (if input.prefix.Some? then 1 else 0)
    ensures ListObjectsV2Request(api, input).query ==
      [("list-type", "2")]
      + (if input.continuationToken.Some? then [("continuation-token", input.continuationToken.value)] else [])
      + (if input.prefix.Some? then [("prefix", input.prefix.value)] else [])
    ensures input.continuationToken.Some? && input.prefix.Some? ==>
      var q := ListObjectsV2Request(api, input).query;
      q[1].0 == "continuation-token" && q[|q| - 1].0 == "prefix"
  {
    var q := ListObjectsV2Request(api, input).query;
    var tokenPart := if input.continuationToken.Some? then [("continuation-token", input.continuationToken.value)] else [];
    var prefixPart := if input.prefix.Some? then [("prefix", input.prefix.value)] else [];
    assert q == [("list-type", "2")] + tokenPart + prefixPart;
    Ureq.LookupAppend([("list-type", "2")] + tokenPart, prefixPart, "prefix");
    Ureq.LookupAppend([("list-type", "2")], tokenPart, "prefix");
    Ureq.LookupAppend([("list-type", "2")] + tokenPart, prefixPart, "continuation-token");
    Ureq.LookupAppend([("list-type", "2")], tokenPart, "continuation-token");
  }

  /** The request `get_object` builds: a GET of the endpoint, "/" and the key, with no query. */
  function GetObjectRequest(api: Client, input: GetObjectInput): (r: Ureq.Request)
    ensures r.verb == "GET" && r.headers == [] && r.query == []
    ensures r.url == "https://" + input.bucket + ".s3." + api.region + ".amazonaws.com/" + input.key
  {
    Ureq.Get(Url(api.region, input.bucket) + "/" + input.key)
  }

  function SendSpec(api: Client, request: Ureq.Request, env: Context.Env): Retry.Run<Ureq.Outgoing, Ureq.Response, Error> {
    match Signing.Signed(request, [], Identity(api.credentials), api.region, ServiceName, env.now, env.signer)
    case Failure(e) => Retry.Run(Failure(Request(e)), [], [])
    case Success(signed) => Retry.Spec(Ureq.Outgoing(signed, None), env.network, FromUreq)
  }

  /**
   * `send`: signs the request once over an empty body, then sends it with no body through
   * the retry loop.  A signing failure is returned as `Request` with no attempt made.
   */
  method Send(api: Client, request: Ureq.Request, env: Context.Env) returns (run: Retry.Run<Ureq.Outgoing, Ureq.Response, Error>)
    ensures run == SendSpec(api, request, env)
    ensures |run.sent| <= Retry.MaxAttempts
    ensures forall i :: 0 <= i < |run.sent| ==> run.sent[i].payload == None
    ensures run.sent == [] <==> run.result.Failure? && run.result.error.Request?
  {
    var identity := Identity(api.credentials);
    var signed := Signing.SignRequest(request, [], identity, api.region, ServiceName, env.now, env.signer);
    if signed.Failure? {
      return Retry.Run(Failure(Request(signed.error)), [], []);
    }
    run := Retry.Loop(Ureq.Outgoing(signed.value, None), env.network, FromUreq);
  }

  /** S3 requests are signed with the payload-hash header; the other services are not. */
  lemma SignsPayloadHash()
    ensures Signing.SettingsFor(ServiceName).payloadChecksumKind == Signing.XAmzSha256
  {
  }

  /** What `list_objects_v2` makes of the outcome of `send`. */
  function ListComplete<O>(sent: Result<Ureq.Response, Error>, decodeOutput: Bytes -> Result<O, XmlError>,
                           decodeError: Bytes -> Result<ErrorBody, XmlError>): (r: Result<O, Error>)
    ensures r.Success? <==> sent.Success? && decodeOutput(sent.value.body).Success?
    ensures r.Success? ==> r.value == decodeOutput(sent.value.body).value
    ensures sent.Success? && decodeOutput(sent.value.body).Failure? ==>
      r == Failure(Xml(decodeOutput(sent.value.body).error))
    ensures sent.Failure? ==> r == Failure(ClassifyError(sent.error, decodeError))
    ensures r.Failure? ==> !r.error.Api?
  {
    match sent
    case Success(response) => decodeOutput(response.body).MapFailure(x => Xml(x))
    case Failure(e) => Failure(ClassifyError(e, decodeError))
  }

  /** What `get_object` makes of the outcome of `send`: a success hands the body back undecoded. */
  function GetComplete(sent: Result<Ureq.Response, Error>, decodeError: Bytes -> Result<ErrorBody, XmlError>): (r: Result<GetObjectOutput, Error>)
    ensures r.Success? <==> sent.Success?
    ensures r.Success? ==> r.value.body == sent.value.body
    ensures sent.Failure? ==> r == Failure(ClassifyError(sent.error, decodeError))
  {
    match sent
    case Success(response) => Success(GetObjectOutput(response.body))
    case Failure(e) => Failure(ClassifyError(e, decodeError))
  }

  /** `list_objects_v2`. */
  method ListObjectsV2<O>(api: Client, input: ListObjectsV2Input, env: Context.Env,
                          decodeOutput: Bytes -> Result<O, XmlError>, decodeError: Bytes -> Result<ErrorBody, XmlError>)
    returns (r: Result<O, Error>, run: Retry.Run<Ureq.Outgoing, Ureq.Response, Error>)
    ensures run == SendSpec(api, ListObjectsV2Request(api, input), env)
    ensures r == ListComplete(run.result, decodeOutput, decodeError)
  {
    var req := Ureq.Get(Url(api.region, input.bucket) + "/");
    req := req.Query("list-type", "2");
    if input.continuationToken.Some? {
      req := req.Query("continuation-token", input.continuationToken.value);
    }
    if input.prefix.Some? {
      req := req.Query("prefix", input.prefix.value);
    }
    run := Send(api, req, env);
    r := ListComplete(run.result, decodeOutput, decodeError);
  }

  /** `get_object`. */
  method GetObject(api: Client, input: GetObjectInput, env: Context.Env, decodeError: Bytes -> Result<ErrorBody, XmlError>)
    returns (r: Result<GetObjectOutput, Error>, run: Retry.Run<Ureq.Outgoing, Ureq.Response, Error>)
    ensures run == SendSpec(api, GetObjectRequest(api, input), env)
    ensures r == GetComplete(run.result, decodeError)
  {
    run := Send(api, GetObjectRequest(api, input), env);
    r := GetComplete(run.result, decodeError);
  }
}
