/**
 * `src/ec2.rs`: the block-storage client.  Requests are form-encoded POSTs whose body is
 * the flattened parameter list; responses and error bodies are XML.
 */
module Ec2 {
  import opened Wrappers
  import Ureq
  import opened Auth
  import opened Errors
  import Format
  import Signing
  import Retry
  import Context

  type Param = Ureq.Param
  type Bytes = Ureq.Bytes

  const ServiceName := "ec2"
  const ApiVersion := "2016-11-15"

  datatype ApiError = ApiError(code: string, message: string)

  /** The XML error body the service returns with an error status. */
  datatype ErrorBody = ErrorBody(errors: seq<ApiError>, requestId: string)

  datatype Error =
    | Api(status: nat, response: Ureq.Response)
    | Http(httpError: Ureq.UreqError)
    | Io(ioError: IoError)
    | Json(jsonError: JsonError)
    | Request(signingError: Signing.Error)
    | EC2(body: ErrorBody)
    | Transport(transportError: Ureq.UreqError)
    | Xml(xmlError: XmlError)

  datatype Client = Client(credentials: Credentials, region: string)

  datatype AttachVolumeInput = AttachVolumeInput(device: string, instanceId: string, volumeId: string)

  datatype Filter = Filter(name: string, values: seq<string>)

  datatype DescribeVolumesInput = DescribeVolumesInput(
    filters: Option<seq<Filter>>,
    maxResults: Option<Format.u32>,
    nextToken: Option<string>,
    volumeIds: Option<seq<string>>)
  {
    function WithFilters(fs: seq<Filter>): (r: DescribeVolumesInput)
      ensures r.filters == Some(fs)
      ensures r.maxResults == maxResults && r.nextToken == nextToken && r.volumeIds == volumeIds
    {
      this.(filters := Some(fs))
    }

    function WithMaxResults(n: Format.u32): (r: DescribeVolumesInput)
      ensures r.maxResults == Some(n)
      ensures r.filters == filters && r.nextToken == nextToken && r.volumeIds == volumeIds
    {
      this.(maxResults := Some(n))
    }

    function WithNextToken(token: string): (r: DescribeVolumesInput)
      ensures r.nextToken == Some(token)
      ensures r.filters == filters && r.maxResults == maxResults && r.volumeIds == volumeIds
    {
      this.(nextToken := Some(token))
    }

    function WithVolumeIds(ids: seq<string>): (r: DescribeVolumesInput)
      ensures r.volumeIds == Some(ids)
      ensures r.filters == filters && r.maxResults == maxResults && r.nextToken == nextToken
    {
      this.(volumeIds := Some(ids))
    }
  }

  /** Builders that set different fields commute, and the later of two calls to the same builder wins. */
  lemma DescribeVolumesBuildersCommute(input: DescribeVolumesInput, fs: seq<Filter>, n: Format.u32, token: string, token2: string)
    ensures input.WithFilters(fs).WithMaxResults(n) == input.WithMaxResults(n).WithFilters(fs)
    ensures input.WithNextToken(token).WithMaxResults(n) == input.WithMaxResults(n).WithNextToken(token)
    ensures input.WithNextToken(token).WithNextToken(token2) == input.WithNextToken(token2)
  {
  }

  /** `From<ureq::Error>`: an error status becomes `Api`, a failed transport `Transport`. */
  function FromUreq(e: Ureq.UreqError): (r: Error)
    ensures r.Api? <==> e.Status?
    ensures e.Status? ==> r.status == e.code && r.response == e.response
    ensures r.Transport? <==> e.Transport?
    ensures e.Transport? ==> r.transportError == e
  {
    match e
    case Status(code, response) => Api(code, response)
    case Transport(_) => Transport(e)
  }

  /** The conversion loses nothing: distinct client errors stay distinct. */
  lemma FromUreqInjective(a: Ureq.UreqError, b: Ureq.UreqError)
    ensures FromUreq(a) == FromUreq(b) ==> a == b
  {
  }

  /**
   * The error side of each operation: an `Api` error is decoded into the service's error
   * body and becomes `EC2`, or the decoder's `Xml` error when the body does not decode;
   * every other error passes unchanged.
   */
  function ClassifyError(e: Error, decodeError: Bytes -> Result<ErrorBody, XmlError>): (c: Error)
    ensures !c.Api?
    ensures e.Api? && decodeError(e.response.body).Success? ==> c == EC2(decodeError(e.response.body).value)
    ensures e.Api? && decodeError(e.response.body).Failure? ==> c == Xml(decodeError(e.response.body).error)
    ensures !e.Api? ==> c == e
  {
    match e
    case Api(_, response) =>
      (match decodeError(response.body)
       case Success(body) => EC2(body)
       case Failure(x) => Xml(x))
    case _ => e
  }

  /** Classifying twice is classifying once. */
  lemma ClassifyErrorIdempotent(e: Error, decodeError: Bytes -> Result<ErrorBody, XmlError>)
    ensures ClassifyError(ClassifyError(e, decodeError), decodeError) == ClassifyError(e, decodeError)
  {
  }

  /** What `attach_volume` and `describe_volumes` make of the outcome of `send`. */
  function Complete<O>(sent: Result<Ureq.Response, Error>, decodeOutput: Bytes -> Result<O, XmlError>,
                       decodeError: Bytes -> Result<ErrorBody, XmlError>): (r: Result<O, Error>)
    ensures r.Success? <==> sent.Success? && decodeOutput(sent.value.body).Success?
    ensures r.Success? ==> r.value == decodeOutput(sent.value.body).value
    ensures sent.Success? && decodeOutput(sent.value.body).Failure? ==>
      r == Failure(Xml(decodeOutput(sent.value.body).error))
    ensures sent.Failure? ==> r == Failure(ClassifyError(sent.error, decodeError))
    ensures r.Failure? ==> !r.error.Api?
  {
    match sent
    case Success(response) => decodeOutput(response.body).MapFailure(x => Xml(x))
    case Failure(e) => Failure(ClassifyError(e, decodeError))
  }

  /** `url`: the regional endpoint. */
  function Url(region: string): (u: string)
    ensures u == "https://ec2." + region + ".amazonaws.com"
  {
    "https://" + ServiceName + "." + region + ".amazonaws.com"
  }

  /** The region can be read back from the endpoint, so distinct regions have distinct endpoints. */
  lemma UrlInjective(a: string, b: string)
    ensures Url(a) == Url(b) ==> a == b
  {
    if Url(a) == Url(b) {
      assert Url(a)[12..|Url(a)| - 14] == a;
      assert Url(b)[12..|Url(b)| - 14] == b;
    }
  }

  /** The parameters of `attach_volume`: exactly five pairs in this order. */
  function AttachVolumeParams(input: AttachVolumeInput): (ps: seq<Param>)
    ensures Ureq.Keys(ps) == ["Action", "Version", "Device", "InstanceId", "VolumeId"]
    ensures ps[0].1 == "AttachVolume" && ps[1].1 == ApiVersion
    ensures ps[2].1 == input.device && ps[3].1 == input.instanceId && ps[4].1 == input.volumeId
  {
    [("Action", "AttachVolume"),
     ("Version", ApiVersion),
     ("Device", input.device),
     ("InstanceId", input.instanceId),
     ("VolumeId", input.volumeId)]
  }

  /** The 1-based flattening of a list of strings under `prefix`, built from the end. */
  function IndexedParams(values: seq<string>, prefix: string): seq<Param>
    decreases |values|
  {
    if values == [] then []
    else IndexedParams(values[..|values| - 1], prefix) +
         [(prefix + "." + Format.Decimal(|values|), values[|values| - 1])]
  }

  /** Pair `i` of the flattening is (`prefix.<i+1>`, value `i`), one pair per value, in input order. */
  lemma {:induction false} IndexedParamsAt(values: seq<string>, prefix: string)
    ensures |IndexedParams(values, prefix)| == |values|
    ensures forall i :: 0 <= i < |values| ==>
      IndexedParams(values, prefix)[i] == (prefix + "." + Format.Decimal(i + 1), values[i])
    decreases |values|
  {
    if values != [] {
      var init := values[..|values| - 1];
      IndexedParamsAt(init, prefix);
      forall i | 0 <= i < |init| ensures values[i] == init[i] {}
    }
  }

  /** `ToParams for Vec<String>`. */
  method StringsToParams(values: seq<string>, prefix: string) returns (params: seq<Param>)
    ensures params == IndexedParams(values, prefix)
    ensures |params| == |values|
    ensures forall i :: 0 <= i < |values| ==> params[i] == (prefix + "." + Format.Decimal(i + 1), values[i])
  {
    params := [];
    for i := 0 to |values|
      invariant params == IndexedParams(values[..i], prefix)
    {
      var key := prefix + "." + Format.Decimal(i + 1);
      params := params + [(key, values[i])];
      assert values[..i + 1][..i] == values[..i];
    }
    assert values[..|values|] == values;
    IndexedParamsAt(values, prefix);
  }

  /** The flattening of one filter: its name, then its values as `prefix.Value.<i+1>`. */
  function FilterParams(filter: Filter, prefix: string): seq<Param> {
    [(prefix + ".Name", filter.name)] + IndexedParams(filter.values, prefix + ".Value")
  }

  /** One filter flattens to its name under `prefix.Name`, then value `i` under `prefix.Value.<i+1>`. */
  lemma FilterParamsAt(filter: Filter, prefix: string)
    ensures |FilterParams(filter, prefix)| == 1 + |filter.values|
    ensures FilterParams(filter, prefix)[0] == (prefix + ".Name", filter.name)
    ensures forall i :: 0 <= i < |filter.values| ==>
      FilterParams(filter, prefix)[i + 1] == (prefix + ".Value." + Format.Decimal(i + 1), filter.values[i])
  {
    var ps := FilterParams(filter, prefix);
    IndexedParamsAt(filter.values, prefix + ".Value");
    forall i | 0 <= i < |filter.values|
      ensures ps[i + 1] == (prefix + ".Value." + Format.Decimal(i + 1), filter.values[i])
    {
      assert (prefix + ".Value") + "." + Format.Decimal(i + 1) == prefix + ".Value." + Format.Decimal(i + 1);
    }
  }

  /** `ToParams for Filter`. */
  method FilterToParams(filter: Filter, prefix: string) returns (params: seq<Param>)
    ensures params == FilterParams(filter, prefix)
  {
    params := [(prefix + ".Name", filter.name)];
    for i := 0 to |filter.values|
      invariant params == [(prefix + ".Name", filter.name)] + IndexedParams(filter.values[..i], prefix + ".Value")
    {
      var key := prefix + ".Value." + Format.Decimal(i + 1);
      assert key == (prefix + ".Value") + "." + Format.Decimal(i + 1);
      assert filter.values[..i + 1][..i] == filter.values[..i];
      params := params + [(key, filter.values[i])];
    }
    assert filter.values[..|filter.values|] == filter.values;
  }

  /** The flattening of a list of filters: filter `i` under `prefix.<i+1>`, concatenated in order. */
  function FiltersParams(filters: seq<Filter>, prefix: string): seq<Param>
    decreases |filters|
  {
    if filters == [] then []
    else FiltersParams(filters[..|filters| - 1], prefix) +
         FilterParams(filters[|filters| - 1], prefix + "." + Format.Decimal(|filters|))
  }

  /** The number of pairs a list of filters flattens to: one per filter and one per value. */
  function PairCount(filters: seq<Filter>): nat
    decreases |filters|
  {
    if filters == [] then 0 else PairCount(filters[..|filters| - 1]) + 1 + |filters[|filters| - 1].values|
  }

  predicate StartsWith(s: string, p: string) {
    |p| <= |s| && s[..|p|] == p
  }

  lemma StartsWithConcat(p: string, x: string)
    ensures StartsWith(p + x, p)
  {
    assert (p + x)[..|p|] == p;
  }

  lemma StartsWithTrans(s: string, q: string, p: string)
    requires StartsWith(s, q) && StartsWith(q, p)
    ensures StartsWith(s, p)
  {
    assert s[..|p|] == s[..|q|][..|p|];
  }

  /** Every key of one filter's flattening starts with the filter's own prefix. */
  lemma FilterKeysUnder(filter: Filter, sub: string)
    ensures forall i :: 0 <= i < |FilterParams(filter, sub)| ==> StartsWith(FilterParams(filter, sub)[i].0, sub)
  {
    var ps := FilterParams(filter, sub);
    FilterParamsAt(filter, sub);
    forall i | 0 <= i < |ps| ensures StartsWith(ps[i].0, sub) {
      if i == 0 {
        StartsWithConcat(sub, ".Name");
      } else {
        var j := i - 1;
        assert ps[j + 1] == (sub + ".Value." + Format.Decimal(j + 1), filter.values[j]);
        assert ps[i].0 == sub + (".Value." + Format.Decimal(j + 1));
        StartsWithConcat(sub, ".Value." + Format.Decimal(j + 1));
      }
    }
  }

  /** A list of filters flattens to `PairCount` pairs, every key under `prefix.`. */
  lemma {:induction false} FiltersParamsShape(filters: seq<Filter>, prefix: string)
    ensures |FiltersParams(filters, prefix)| == PairCount(filters)
    ensures forall i :: 0 <= i < |FiltersParams(filters, prefix)| ==>
      StartsWith(FiltersParams(filters, prefix)[i].0, prefix + ".")
    decreases |filters|
  {
    if filters != [] {
      var n := |filters|;
      var init := FiltersParams(filters[..n - 1], prefix);
      var sub := prefix + "." + Format.Decimal(n);
      var last := FilterParams(filters[n - 1], sub);
      FiltersParamsShape(filters[..n - 1], prefix);
      FilterParamsAt(filters[n - 1], sub);
      FilterKeysUnder(filters[n - 1], sub);
      StartsWithConcat(prefix + ".", Format.Decimal(n));
      var all := FiltersParams(filters, prefix);
      assert all == init + last;
      forall i | 0 <= i < |all| ensures StartsWith(all[i].0, prefix + ".") {
        if i >= |init| {
          assert all[i] == last[i - |init|];
          StartsWithTrans(all[i].0, sub, prefix + ".");
        } else {
          assert all[i] == init[i];
        }
      }
    }
  }

  /** `ToParams for Vec<Filter>`. */
  method FiltersToParams(filters: seq<Filter>, prefix: string) returns (params: seq<Param>)
    ensures params == FiltersParams(filters, prefix)
  {
    params := [];
    for i := 0 to |filters|
      invariant params == FiltersParams(filters[..i], prefix)
    {
      var filterPrefix := prefix + "." + Format.Decimal(i + 1);
      var more := FilterToParams(filters[i], filterPrefix);
      params := params + more;
      assert filters[..i + 1][..i] == filters[..i];
    }
    assert filters[..|filters|] == filters;
  }

  /** The pairs each block of `describe_volumes` contributes; an unset option contributes none. */
  function FilterPart(input: DescribeVolumesInput): seq<Param> {
    if input.filters.Some? then FiltersParams(input.filters.value, "Filter") else []
  }

  function MaxResultsPart(input: DescribeVolumesInput): seq<Param> {
    if input.maxResults.Some? then [("MaxResults", Format.Decimal(input.maxResults.value))] else []
  }

  function NextTokenPart(input: DescribeVolumesInput): seq<Param> {
    if input.nextToken.Some? then [("NextToken", input.nextToken.value)] else []
  }

  function VolumeIdPart(input: DescribeVolumesInput): seq<Param> {
    if input.volumeIds.Some? then IndexedParams(input.volumeIds.value, "VolumeId") else []
  }

  const DescribeVolumesHead: seq<Param> := [("Action", "DescribeVolumes"), ("Version", ApiVersion)]

  /** The parameters of `describe_volumes`, in the order the source adds them. */
  function DescribeVolumesParamList(input: DescribeVolumesInput): seq<Param> {
    DescribeVolumesHead + FilterPart(input) + MaxResultsPart(input) + NextTokenPart(input) + VolumeIdPart(input)
  }

  /** The parameter list `describe_volumes` builds before sending. */
  method DescribeVolumesParams(input: DescribeVolumesInput) returns (params: seq<Param>)
    ensures params == DescribeVolumesParamList(input)
  {
    params := [("Action", "DescribeVolumes"), ("Version", ApiVersion)];
    if input.filters.Some? {
      var more := FiltersToParams(input.filters.value, "Filter");
      params := params + more;
    }
    assert params == DescribeVolumesHead + FilterPart(input);
    if input.maxResults.Some? {
      params := params + [("MaxResults", Format.Decimal(input.maxResults.value))];
    }
    assert params == DescribeVolumesHead + FilterPart(input) + MaxResultsPart(input);
    if input.nextToken.Some? {
      params := params + [("NextToken", input.nextToken.value)];
    }
    assert params == DescribeVolumesHead + FilterPart(input) + MaxResultsPart(input) + NextTokenPart(input);
    if input.volumeIds.Some? {
      var more := StringsToParams(input.volumeIds.value, "VolumeId");
      params := params + more;
    }
  }

  /** No key of the `VolumeId` flattening is `MaxResults` or `NextToken`. */
  lemma VolumeIdKeys(ids: seq<string>)
    ensures "MaxResults" !in Ureq.Keys(IndexedParams(ids, "VolumeId"))
    ensures "NextToken" !in Ureq.Keys(IndexedParams(ids, "VolumeId"))
  {
    IndexedParamsAt(ids, "VolumeId");
    var ps := IndexedParams(ids, "VolumeId");
    forall i | 0 <= i < |ps| ensures ps[i].0 != "MaxResults" && ps[i].0 != "NextToken" {
      assert ps[i].0[0] == 'V';
    }
  }

  /** No key of the `Filter` flattening is `MaxResults` or `NextToken`. */
  lemma FilterKeys(filters: seq<Filter>)
    ensures "MaxResults" !in Ureq.Keys(FiltersParams(filters, "Filter"))
    ensures "NextToken" !in Ureq.Keys(FiltersParams(filters, "Filter"))
  {
    FiltersParamsShape(filters, "Filter");
    var ps := FiltersParams(filters, "Filter");
    forall i | 0 <= i < |ps| ensures ps[i].0 != "MaxResults" && ps[i].0 != "NextToken" {
      assert StartsWith(ps[i].0, "Filter.");
      assert ps[i].0[0] == ps[i].0[..7][0] == 'F';
    }
  }

  /** A lookup past a prefix that lacks the name is a lookup in the rest. */
  lemma LookupAfter(a: seq<Param>, b: seq<Param>, c: seq<Param>, name: string)
    requires name !in Ureq.Keys(a)
    ensures Ureq.Lookup(a + b + c, name) ==
      if Ureq.Lookup(b, name).Some? then Ureq.Lookup(b, name) else Ureq.Lookup(c, name)
  {
    assert a + b + c == a + (b + c);
    Ureq.LookupAppend(a, b + c, name);
    Ureq.LookupAppend(b, c, name);
  }

  lemma KeysAppend(a: seq<Param>, b: seq<Param>)
    ensures Ureq.Keys(a + b) == Ureq.Keys(a) + Ureq.Keys(b)
  {
  }

  lemma OptionalPartKeys(input: DescribeVolumesInput)
    ensures "MaxResults" !in Ureq.Keys(FilterPart(input)) && "NextToken" !in Ureq.Keys(FilterPart(input))
    ensures "MaxResults" !in Ureq.Keys(VolumeIdPart(input)) && "NextToken" !in Ureq.Keys(VolumeIdPart(input))
  {
    if input.filters.Some? { FilterKeys(input.filters.value); }
    if input.volumeIds.Some? { VolumeIdKeys(input.volumeIds.value); }
  }

  /** `MaxResults` is looked up to its decimal value when set and is absent otherwise. */
  lemma MaxResultsLookup(input: DescribeVolumesInput)
    ensures Ureq.Lookup(DescribeVolumesParamList(input), "MaxResults") ==
      if input.maxResults.Some? then Some(Format.Decimal(input.maxResults.value)) else None
  {
    var head := DescribeVolumesHead;
    var m := MaxResultsPart(input);
    var n := NextTokenPart(input);
    OptionalPartKeys(input);
    KeysAppend(head, FilterPart(input));
    KeysAppend(n, VolumeIdPart(input));
    assert DescribeVolumesParamList(input) == (head + FilterPart(input)) + m + (n + VolumeIdPart(input));
    LookupAfter(head + FilterPart(input), m, n + VolumeIdPart(input), "MaxResults");
  }

  /** `NextToken` is looked up to its value when set and is absent otherwise. */
  lemma NextTokenLookup(input: DescribeVolumesInput)
    ensures Ureq.Lookup(DescribeVolumesParamList(input), "NextToken") == input.nextToken
  {
    var head := DescribeVolumesHead;
    var m := MaxResultsPart(input);
    var n := NextTokenPart(input);
    OptionalPartKeys(input);
    KeysAppend(head, FilterPart(input));
    KeysAppend(head + FilterPart(input), m);
    assert DescribeVolumesParamList(input) == (head + FilterPart(input) + m) + n + VolumeIdPart(input);
    LookupAfter(head + FilterPart(input) + m, n, VolumeIdPart(input), "NextToken");
  }

  /**
   * `describe_volumes` always starts with `Action` and `Version`; `MaxResults` and
   * `NextToken` appear exactly when they are set, carrying their values, and with
   * nothing set the list is just the first two pairs.
   */
  lemma DescribeVolumesParamsShape(input: DescribeVolumesInput)
    ensures |DescribeVolumesParamList(input)| >= 2
    ensures DescribeVolumesParamList(input)[..2] == [("Action", "DescribeVolumes"), ("Version", ApiVersion)]
    ensures "MaxResults" in Ureq.Keys(DescribeVolumesParamList(input)) <==> input.maxResults.Some?
    ensures "NextToken" in Ureq.Keys(DescribeVolumesParamList(input)) <==> input.nextToken.Some?
    ensures input.maxResults.Some? ==>
      Ureq.Lookup(DescribeVolumesParamList(input), "MaxResults") == Some(Format.Decimal(input.maxResults.value))
    ensures input.nextToken.Some? ==> Ureq.Lookup(DescribeVolumesParamList(input), "NextToken") == input.nextToken
    ensures input == DescribeVolumesInput(None, None, None, None) ==> |DescribeVolumesParamList(input)| == 2
  {
    MaxResultsLookup(input);
    NextTokenLookup(input);
  }

  /** What `send` does, as a function of its inputs. */
  function SendSpec(api: Client, request: Ureq.Request, params: seq<Param>, env: Context.Env,
                    formEncode: seq<Param> -> Bytes): Retry.Run<Ureq.Outgoing, Ureq.Response, Error>
  {
    var body := formEncode(params);
    match Signing.Signed(request, body, Identity(api.credentials), api.region, ServiceName, env.now, env.signer)
    case Failure(e) => Retry.Run(Failure(Request(e)), [], [])
    case Success(signed) => Retry.Spec(Ureq.Outgoing(signed, Some(body)), env.network, FromUreq)
  }

  /**
   * `send`: form-encodes the parameters, signs the request once over exactly those bytes,
   * and sends the signed request with those bytes through the retry loop.  A signing
   * failure is returned as `Request` with no attempt made.
   */
  method Send(api: Client, request: Ureq.Request, params: seq<Param>, env: Context.Env,
              formEncode: seq<Param> -> Bytes) returns (run: Retry.Run<Ureq.Outgoing, Ureq.Response, Error>)
    ensures run == SendSpec(api, request, params, env, formEncode)
    ensures |run.sent| <= Retry.MaxAttempts
    ensures forall i :: 0 <= i < |run.sent| ==> run.sent[i].payload == Some(formEncode(params))
    ensures run.sent == [] <==> run.result.Failure? && run.result.error.Request?
  {
    var body := formEncode(params);
    var identity := Identity(api.credentials);
    var signed := Signing.SignRequest(request, body, identity, api.region, ServiceName, env.now, env.signer);
    if signed.Failure? {
      return Retry.Run(Failure(Request(signed.error)), [], []);
    }
    run := Retry.Loop(Ureq.Outgoing(signed.value, Some(body)), env.network, FromUreq);
  }

  /** `attach_volume`: POST to the endpoint with the five attach parameters. */
  method AttachVolume<O>(api: Client, input: AttachVolumeInput, env: Context.Env, formEncode: seq<Param> -> Bytes,
                         decodeOutput: Bytes -> Result<O, XmlError>, decodeError: Bytes -> Result<ErrorBody, XmlError>)
    returns (r: Result<O, Error>, run: Retry.Run<Ureq.Outgoing, Ureq.Response, Error>)
    ensures run == SendSpec(api, Ureq.Post(Url(api.region)), AttachVolumeParams(input), env, formEncode)
    ensures r == Complete(run.result, decodeOutput, decodeError)
  {
    var request := Ureq.Post(Url(api.region));
    var params := AttachVolumeParams(input);
    run := Send(api, request, params, env, formEncode);
    r := Complete(run.result, decodeOutput, decodeError);
  }

  /** `describe_volumes`: POST to the endpoint followed by "/" with the flattened describe parameters. */
  method DescribeVolumes<O>(api: Client, input: DescribeVolumesInput, env: Context.Env, formEncode: seq<Param> -> Bytes,
                            decodeOutput: Bytes -> Result<O, XmlError>, decodeError: Bytes -> Result<ErrorBody, XmlError>)
    returns (r: Result<O, Error>, run: Retry.Run<Ureq.Outgoing, Ureq.Response, Error>)
    ensures run == SendSpec(api, Ureq.Post(Url(api.region) + "/"), DescribeVolumesParamList(input), env, formEncode)
    ensures r == Complete(run.result, decodeOutput, decodeError)
  {
    var request := Ureq.Post(Url(api.region) + "/");
    var params := DescribeVolumesParams(input);
    run := Send(api, request, params, env, formEncode);
    r := Complete(run.result, decodeOutput, decodeError);
  }
}
