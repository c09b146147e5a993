/**
 * `src/request.rs`: signing a draft request.  The signature algorithm itself lives in a
 * library and is a parameter here (`Signer`); what is modelled is how the request is
 * presented to it, which settings it gets, and how its instructions are applied.
 */
module Signing {
  import opened Wrappers
  import opened Ureq
  import opened Auth

  datatype PayloadChecksumKind = NoHeader | XAmzSha256

  /** The library's signing settings; only the payload checksum kind is ever changed by this code. */
  datatype SigningSettings = SigningSettings(payloadChecksumKind: PayloadChecksumKind)

  /** `SigningSettings::default()`: no content-hash header. */
  const DefaultSettings := SigningSettings(NoHeader)

  datatype SigningParams = SigningParams(
    identity: Identity,
    region: string,
    name: string,
    time: Timestamp,
    settings: SigningSettings)

  /** What the signer is shown: method, URL, query, headers and the exact payload bytes. */
  datatype SignableRequest = SignableRequest(
    verb: string,
    url: string,
    query: seq<Param>,
    headers: seq<Param>,
    body: Bytes)

  /** Headers to set on the request and query parameters to add to it. */
  datatype SigningInstructions = SigningInstructions(headers: seq<Param>, params: seq<Param>)

  /** The signing library's own error. */
  datatype SignerError = SignerError(reason: string)

  /** `request::Error`. */
  datatype Error = SigningError(cause: SignerError)

  /**
   * The signing library: `SignableRequest::new`, which may refuse its input, and `sign`,
   * which may fail.  Both are deterministic given their arguments.
   */
  datatype Signer = Signer(
    accept: SignableRequest -> Outcome<SignerError>,
    sign: (SignableRequest, SigningParams) -> Result<SigningInstructions, SignerError>)

  /** The settings `sign_request` hands to the signer for `service`. */
  function SettingsFor(service: string): (s: SigningSettings)
    ensures s.payloadChecksumKind == XAmzSha256 <==> service == "s3"
    ensures service != "s3" ==> s == DefaultSettings
  {
    if service == "s3" then DefaultSettings.(payloadChecksumKind := XAmzSha256) else DefaultSettings
  }

  function ParamsFor(identity: Identity, region: string, service: string, now: Timestamp): SigningParams {
    SigningParams(identity, region, service, now, SettingsFor(service))
  }

  /** The header list shown to the signer for the names `names`: each name with its value, or "" when it has none. */
  function HeadersFor(request: Request, names: seq<string>): (hs: seq<Param>)
    ensures |hs| == |names|
    ensures forall i :: 0 <= i < |names| ==> hs[i] == (names[i], request.Header(names[i]).GetOr(""))
  {
    if names == [] then []
    else [(names[0], request.Header(names[0]).GetOr(""))] + HeadersFor(request, names[1..])
  }

  function SignableHeaders(request: Request): seq<Param> {
    HeadersFor(request, request.HeaderNames())
  }

  function SignableOf(request: Request, body: Bytes): SignableRequest {
    SignableRequest(request.verb, request.url, request.query, SignableHeaders(request), body)
  }

  /** Every header name of a request has a value, so the "" fallback is never taken. */
  lemma HeaderNamesHaveValues(request: Request)
    ensures forall i :: 0 <= i < |request.headers| ==> request.Header(request.HeaderNames()[i]).Some?
  {
    forall i | 0 <= i < |request.headers|
      ensures request.Header(request.HeaderNames()[i]).Some?
    {
      assert request.HeaderNames()[i] in Keys(request.headers);
    }
  }

  lemma {:induction false} LookupUnique(ps: seq<Param>, i: nat)
    requires UniqueNames(ps)
    requires i < |ps|
    ensures Lookup(ps, ps[i].0) == Some(ps[i].1)
  {
    if i > 0 {
      assert UniqueNames(ps[1..]) by {
        forall a, b | 0 <= a < b < |ps[1..]| ensures ps[1..][a].0 != ps[1..][b].0 {
          assert ps[1..][a] == ps[a + 1] && ps[1..][b] == ps[b + 1];
        }
      }
      assert ps[1..][i - 1] == ps[i];
      LookupUnique(ps[1..], i - 1);
    }
  }

  /** When header names are unique (as `set` keeps them), the signer sees exactly the request's headers. */
  lemma SignableHeadersExact(request: Request)
    requires UniqueNames(request.headers)
    ensures SignableHeaders(request) == request.headers
  {
    var hs := SignableHeaders(request);
    forall i | 0 <= i < |hs| ensures hs[i] == request.headers[i] {
      LookupUnique(request.headers, i);
    }
  }

  /** The instruction headers applied one after the other with `set`. */
  function ApplyHeaders(request: Request, hs: seq<Param>): Request
    decreases |hs|
  {
    if hs == [] then request else ApplyHeaders(request.Set(hs[0].0, hs[0].1), hs[1..])
  }

  /** The instruction query parameters applied one after the other with `query`. */
  function ApplyParams(request: Request, ps: seq<Param>): Request
    decreases |ps|
  {
    if ps == [] then request else ApplyParams(request.Query(ps[0].0, ps[0].1), ps[1..])
  }

  function ApplyInstructions(request: Request, instructions: SigningInstructions): Request {
    ApplyParams(ApplyHeaders(request, instructions.headers), instructions.params)
  }

  /** The value of the last pair called `name`. */
  function LastValue(ps: seq<Param>, name: string): Option<string>
    decreases |ps|
  {
    if ps == [] then None
    else if LastValue(ps[1..], name).Some? then LastValue(ps[1..], name)
    else if ps[0].0 == name then Some(ps[0].1)
    else None
  }

  /**
   * Applying instruction headers leaves method, URL and query alone; a header named by an
   * instruction ends with the value of the last such instruction, every other header is unchanged.
   */
  lemma {:induction false} ApplyHeadersEffect(request: Request, hs: seq<Param>, name: string)
    ensures ApplyHeaders(request, hs).verb == request.verb
    ensures ApplyHeaders(request, hs).url == request.url
    ensures ApplyHeaders(request, hs).query == request.query
    ensures ApplyHeaders(request, hs).Header(name) ==
      if LastValue(hs, name).Some? then LastValue(hs, name) else request.Header(name)
    decreases |hs|
  {
    if hs != [] {
      var next := request.Set(hs[0].0, hs[0].1);
      ApplyHeadersEffect(next, hs[1..], name);
      SetHeader(request, hs[0].0, hs[0].1, name);
    }
  }

  /** Applying instruction parameters appends them to the query, in order, and changes nothing else. */
  lemma {:induction false} ApplyParamsEffect(request: Request, ps: seq<Param>)
    ensures ApplyParams(request, ps) == request.(query := request.query + ps)
    decreases |ps|
  {
    if ps == [] {
      assert request.query + ps == request.query;
    } else {
      ApplyParamsEffect(request.Query(ps[0].0, ps[0].1), ps[1..]);
      assert request.query + [ps[0]] + ps[1..] == request.query + ps;
    }
  }

  /** `update_request`: every instruction header in order, then every instruction parameter in order. */
  method UpdateRequest(request: Request, instructions: SigningInstructions) returns (r: Request)
    ensures r == ApplyInstructions(request, instructions)
    ensures r.verb == request.verb && r.url == request.url
    ensures r.query == request.query + instructions.params
    ensures forall name :: r.Header(name) ==
                           (if LastValue(instructions.headers, name).Some? then LastValue(instructions.headers, name)
                            else request.Header(name))
  {
    var hs, ps := instructions.headers, instructions.params;
    r := request;
    for i := 0 to |hs|
      invariant ApplyHeaders(r, hs[i..]) == ApplyHeaders(request, hs)
    {
      assert hs[i..][1..] == hs[i + 1..];
      r := r.Set(hs[i].0, hs[i].1);
    }
    assert hs[|hs|..] == [];
    ghost var headed := r;
    for i := 0 to |ps|
      invariant ApplyParams(r, ps[i..]) == ApplyParams(headed, ps)
    {
      assert ps[i..][1..] == ps[i + 1..];
      r := r.Query(ps[i].0, ps[i].1);
    }
    assert ps[|ps|..] == [];
    ApplyParamsEffect(headed, ps);
    forall name
      ensures r.Header(name) == (if LastValue(hs, name).Some? then LastValue(hs, name) else request.Header(name))
    {
      ApplyHeadersEffect(request, hs, name);
    }
    ApplyHeadersEffect(request, hs, "");
  }

  /** What `sign_request` returns, as a function of its inputs. */
  function Signed(request: Request, body: Bytes, identity: Identity, region: string, service: string,
                  now: Timestamp, signer: Signer): Result<Request, Error>
  {
    var signable := SignableOf(request, body);
    match signer.accept(signable)
    case Fail(e) => Failure(SigningError(e))
    case Pass =>
      match signer.sign(signable, ParamsFor(identity, region, service, now))
      case Failure(e) => Failure(SigningError(e))
      case Success(instructions) => Success(ApplyInstructions(request, instructions))
  }

  /**
   * `sign_request`: chooses the settings for `service`, reads the clock once (`now`), shows
   * the signer the request's headers and exactly `body`, and applies the instructions.
   * Any failure of the library comes back as `SigningError` and no request.
   */
  method SignRequest(request: Request, body: Bytes, identity: Identity, region: string, service: string,
                     now: Timestamp, signer: Signer) returns (r: Result<Request, Error>)
    ensures r == Signed(request, body, identity, region, service, now, signer)
    ensures signer.accept(SignableOf(request, body)).Fail? ==>
      r == Failure(SigningError(signer.accept(SignableOf(request, body)).error))
    ensures signer.accept(SignableOf(request, body)).Pass? ==>
      match signer.sign(SignableOf(request, body), ParamsFor(identity, region, service, now))
      case Failure(e) => r == Failure(SigningError(e))
      case Success(instructions) => r == Success(ApplyInstructions(request, instructions))
  {
    var settings := DefaultSettings;
    if service == "s3" {
      settings := settings.(payloadChecksumKind := XAmzSha256);
    }
    var params := SigningParams(identity, region, service, now, settings);
    var headers := SignableHeaders(request);
    var signable := SignableRequest(request.verb, request.url, request.query, headers, body);
    match signer.accept(signable) {
      case Fail(e) =>
        return Failure(SigningError(e));
      case Pass =>
    }
    var output := signer.sign(signable, params);
    match output {
      case Failure(e) =>
        return Failure(SigningError(e));
      case Success(instructions) =>
        var updated := UpdateRequest(request, instructions);
        return Success(updated);
    }
  }
}
