/**
 * `src/imds.rs`: the instance-metadata client.  It fetches a session token once, keeps it
 * in a write-once cell, and reads metadata paths and role credentials with it.
 */
module Imds {
  import opened Wrappers
  import Ureq
  import opened Auth
  import opened Errors

  datatype Error =
    | Io(ioError: IoError)
    | SerdeJson(jsonError: JsonError)
    | Request(requestError: Ureq.UreqError)

  /** `From<ureq::Error>`. */
  function FromUreq(e: Ureq.UreqError): (r: Error)
    ensures r.Request? && r.requestError == e
  {
    Request(e)
  }

  const DefaultEndpoint := "http://169.254.169.254"
  const TokenTtlHeader := "X-aws-ec2-metadata-token-ttl-seconds"
  const TokenTtl := "21600"
  const TokenHeader := "X-aws-ec2-metadata-token"
  const MetadataRoot := "latest/meta-data"
  const RolePath := "iam/security-credentials/"

  /** A failure of the RFC 3339 date-time parser. */
  datatype ParseError = ParseError(message: string)

  /** The network calls the client makes: sending a request, and reading a response's body as text. */
  datatype Net = Net(
    call: Ureq.Request -> Result<Ureq.Response, Ureq.UreqError>,
    readText: Ureq.Response -> Result<string, IoError>)

  /** `Path::join` on Unix: an absolute `path` replaces `base`, otherwise one separator joins them. */
  function Join(base: string, path: string): string
  {
    if |path| > 0 && path[0] == '/' then path
    else if |base| > 0 && base[|base| - 1] != '/' then base + "/" + path
    else base + path
  }

  /**
   * What `Join` promises: the result ends with `path`; a relative `path` keeps `base` in
   * front and adds a separator exactly when `base` is non-empty and lacks a trailing one.
   */
  lemma JoinShape(base: string, path: string)
    ensures |path| > 0 && path[0] == '/' ==> Join(base, path) == path
    ensures |path| <= |Join(base, path)| && Join(base, path)[|Join(base, path)| - |path|..] == path
    ensures (|path| == 0 || path[0] != '/') ==>
      var r := Join(base, path);
      && |base| <= |r| <= |base| + 1 + |path|
      && r[..|base|] == base
      && (|r| == |base| + 1 + |path| <==> |base| > 0 && base[|base| - 1] != '/')
      && (|r| == |base| + 1 + |path| ==> r[|base|] == '/')
  {
  }

  /** The request that asks for a session token, valid for six hours. */
  function TokenRequest(endpoint: string): (r: Ureq.Request)
    ensures r.verb == "PUT" && r.url == endpoint + "/latest/api/token" && r.query == []
    ensures r.Header(TokenTtlHeader) == Some(TokenTtl)
  {
    Ureq.SetHeader(Ureq.Put(endpoint + "/latest/api/token"), TokenTtlHeader, TokenTtl, TokenTtlHeader);
    Ureq.Put(endpoint + "/latest/api/token").Set(TokenTtlHeader, TokenTtl)
  }

  /** The request for `path`, carrying the session token. */
  function PathRequest(endpoint: string, path: string, token: string): (r: Ureq.Request)
    ensures r.verb == "GET" && r.url == endpoint + "/" + path && r.query == []
    ensures r.Header(TokenHeader) == Some(token)
  {
    Ureq.SetHeader(Ureq.Get(endpoint + "/" + path), TokenHeader, token, TokenHeader);
    Ureq.Get(endpoint + "/" + path).Set(TokenHeader, token)
  }

  /** The closure that fills the token cell: a failed call becomes an `Other` I/O error. */
  function FetchToken(endpoint: string, net: Net): (r: Result<string, IoError>)
    ensures net.call(TokenRequest(endpoint)).Failure? ==>
      r == Failure(IoError(Other, Shown(net.call(TokenRequest(endpoint)).error)))
    ensures net.call(TokenRequest(endpoint)).Success? ==> r == net.readText(net.call(TokenRequest(endpoint)).value)
  {
    match net.call(TokenRequest(endpoint))
    case Failure(e) => Failure(IoError(Other, Shown(e)))
    case Success(response) => net.readText(response)
  }

  /** `.and_then(|response| response.into_string().map_err(From::from))`: the body read as text. */
  function BodyText(net: Net, response: Result<Ureq.Response, Error>): (r: Result<string, Error>)
    ensures r.Success? <==> response.Success? && net.readText(response.value).Success?
    ensures r.Success? ==> r.value == net.readText(response.value).value
    ensures response.Failure? ==> r == Failure(response.error)
    ensures response.Success? && net.readText(response.value).Failure? ==>
      r == Failure(Io(net.readText(response.value).error))
  {
    match response
    case Failure(e) => Failure(e)
    case Success(resp) => net.readText(resp).MapFailure(e => Io(e))
  }

  /** `get_metadata` and `get_credentials` reach the paths below `latest/meta-data/`. */
  lemma MetadataPaths(path: string)
    requires |path| == 0 || path[0] != '/'
    ensures Join(MetadataRoot, path) == MetadataRoot + "/" + path
    ensures Join(RolePath, path) == RolePath + path
    ensures Join(MetadataRoot, Join(RolePath, path)) == MetadataRoot + "/" + RolePath + path
  {
    assert MetadataRoot[|MetadataRoot| - 1] == 'a';
    assert RolePath[|RolePath| - 1] == '/';
    assert (RolePath + path)[0] == 'i';
  }

  /**
   * `Credentials::from_map`: `AccessKeyId` is checked first, then `SecretAccessKey`; a
   * missing key is a `NotFound` error.  `Token` is copied when present.  A missing
   * `Expiration` means no expiry; one that does not parse as an RFC 3339 date-time is an
   * `InvalidInput` error.
   */
  function FromMap(m: map<string, string>, parseRfc3339: string -> Result<Timestamp, ParseError>): (r: Result<Credentials, Error>)
    ensures "AccessKeyId" !in m ==> r == Failure(Io(IoError(NotFound, Text("AccessKeyId not found"))))
    ensures "AccessKeyId" in m && "SecretAccessKey" !in m ==>
      r == Failure(Io(IoError(NotFound, Text("SecretAccessKey not found"))))
    ensures "AccessKeyId" in m && "SecretAccessKey" in m && "Expiration" in m && parseRfc3339(m["Expiration"]).Failure? ==>
      r == Failure(Io(IoError(InvalidInput, Text("Unable to parse expiration: " + parseRfc3339(m["Expiration"]).error.message))))
    ensures r.Success? <==>
      "AccessKeyId" in m && "SecretAccessKey" in m && ("Expiration" in m ==> parseRfc3339(m["Expiration"]).Success?)
    ensures r.Success? ==>
      && r.value.accessKeyId == m["AccessKeyId"]
      && r.value.secretAccessKey == m["SecretAccessKey"]
      && r.value.sessionToken == (if "Token" in m then Some(m["Token"]) else None)
      && r.value.expiresAfter == (if "Expiration" in m then Some(parseRfc3339(m["Expiration"]).value) else None)
      && r.value.providerName == "imds"
  {
    if "AccessKeyId" !in m then Failure(Io(IoError(NotFound, Text("AccessKeyId not found"))))
    else if "SecretAccessKey" !in m then Failure(Io(IoError(NotFound, Text("SecretAccessKey not found"))))
    else
      var sessionToken := if "Token" in m then Some(m["Token"]) else None;
      var expiresAfter :=
        if "Expiration" in m then
          match parseRfc3339(m["Expiration"])
          case Success(t) => Success(Some(t))
          case Failure(e) => Failure(IoError(InvalidInput, Text("Unable to parse expiration: " + e.message)))
        else Success(None);
      match expiresAfter
      case Failure(e) => Failure(Io(e))
      case Success(expiry) =>
        Success(Credentials(m["AccessKeyId"], m["SecretAccessKey"], sessionToken, expiry, "imds"))
  }

  class Imds {
    /** The write-once cell holding the session token. */
    var token: Option<string>
    const endpoint: string

    /** `Imds::default()`: the link-local endpoint and an empty token cell. */
    constructor ()
      ensures token == None && endpoint == DefaultEndpoint
    {
      token := None;
      endpoint := DefaultEndpoint;
    }

    /**
     * `get`: fills the token cell if it is empty (a failed fetch leaves it empty and is
     * returned), then requests `endpoint/path` with the token.  A token already in the cell
     * is reused and no token request is made.  `sent` lists the requests made, in order.
     */
    method Get(path: string, net: Net) returns (r: Result<Ureq.Response, Error>, sent: seq<Ureq.Request>)
      modifies this
      ensures old(token).Some? ==> token == old(token)
      ensures old(token).None? ==>
        token == (if FetchToken(endpoint, net).Success? then Some(FetchToken(endpoint, net).value) else None)
      ensures old(token).Some? ==> sent == [PathRequest(endpoint, path, old(token).value)]
      ensures old(token).None? ==> |sent| >= 1 && sent[0] == TokenRequest(endpoint)
      ensures token.None? ==> sent == [TokenRequest(endpoint)] && r == Failure(Io(FetchToken(endpoint, net).error))
      ensures token.Some? ==>
        && sent[|sent| - 1] == PathRequest(endpoint, path, token.value)
        && |sent| == (if old(token).None? then 2 else 1)
        && r == net.call(PathRequest(endpoint, path, token.value)).MapFailure(FromUreq)
    {
      sent := [];
      if token.None? {
        var fetched := FetchToken(endpoint, net);
        sent := [TokenRequest(endpoint)];
        if fetched.Failure? {
          return Failure(Io(fetched.error)), sent;
        }
        token := Some(fetched.value);
      }
      var request := Ureq.Get(endpoint + "/" + path).Set(TokenHeader, token.value);
      sent := sent + [request];
      r := net.call(request).MapFailure(FromUreq);
    }

    /** `get_metadata`: `get` below `latest/meta-data`, the body read as text. */
    method GetMetadata(path: string, net: Net) returns (r: Result<string, Error>, sent: seq<Ureq.Request>)
      modifies this
      ensures old(token).Some? ==> token == old(token)
      ensures old(token).None? ==>
        token == (if FetchToken(endpoint, net).Success? then Some(FetchToken(endpoint, net).value) else None)
      ensures 1 <= |sent| <= 2
      ensures old(token).Some? ==> sent == [PathRequest(endpoint, Join(MetadataRoot, path), old(token).value)]
      ensures token.Some? ==> sent[|sent| - 1] == PathRequest(endpoint, Join(MetadataRoot, path), token.value)
      ensures token.None? ==> sent == [TokenRequest(endpoint)] && r == Failure(Io(FetchToken(endpoint, net).error))
      ensures old(token).None? <==> sent[0] == TokenRequest(endpoint)
      ensures |sent| == (if old(token).None? && token.Some? then 2 else 1)
      ensures token.Some? ==>
        r == BodyText(net, net.call(PathRequest(endpoint, Join(MetadataRoot, path), token.value)).MapFailure(FromUreq))
      ensures r.Success? ==>
        && token.Some?
        && net.call(PathRequest(endpoint, Join(MetadataRoot, path), token.value)).Success?
        && r == net.readText(net.call(PathRequest(endpoint, Join(MetadataRoot, path), token.value)).value).MapFailure(e => Io(e))
    {
      var response;
      response, sent := Get(Join(MetadataRoot, path), net);
      r := BodyText(net, response);
    }

    /** `get_user_data`: `get` of `latest/user-data`, the body read as text. */
    method GetUserData(net: Net) returns (r: Result<string, Error>, sent: seq<Ureq.Request>)
      modifies this
      ensures old(token).Some? ==> token == old(token)
      ensures old(token).None? ==>
        token == (if FetchToken(endpoint, net).Success? then Some(FetchToken(endpoint, net).value) else None)
      ensures 1 <= |sent| <= 2
      ensures old(token).Some? ==> sent == [PathRequest(endpoint, "latest/user-data", old(token).value)]
      ensures token.Some? ==> sent[|sent| - 1] == PathRequest(endpoint, "latest/user-data", token.value)
      ensures token.None? ==> sent == [TokenRequest(endpoint)] && r == Failure(Io(FetchToken(endpoint, net).error))
      ensures old(token).None? <==> sent[0] == TokenRequest(endpoint)
      ensures |sent| == (if old(token).None? && token.Some? then 2 else 1)
      ensures token.Some? ==>
        r == BodyText(net, net.call(PathRequest(endpoint, "latest/user-data", token.value)).MapFailure(FromUreq))
      ensures r.Success? ==>
        && token.Some?
        && net.call(PathRequest(endpoint, "latest/user-data", token.value)).Success?
        && r == net.readText(net.call(PathRequest(endpoint, "latest/user-data", token.value)).value).MapFailure(e => Io(e))
    {
      var response;
      response, sent := Get("latest/user-data", net);
      r := BodyText(net, response);
    }

    /** `get_region`: the metadata path `placement/region`. */
    method GetRegion(net: Net) returns (r: Result<string, Error>, sent: seq<Ureq.Request>)
      modifies this
      ensures old(token).Some? ==> token == old(token)
      ensures old(token).None? ==>
        token == (if FetchToken(endpoint, net).Success? then Some(FetchToken(endpoint, net).value) else None)
      ensures 1 <= |sent| <= 2
      ensures old(token).Some? ==> sent == [PathRequest(endpoint, MetadataRoot + "/placement/region", old(token).value)]
      ensures token.Some? ==> sent[|sent| - 1] == PathRequest(endpoint, MetadataRoot + "/placement/region", token.value)
      ensures token.None? ==> sent == [TokenRequest(endpoint)] && r == Failure(Io(FetchToken(endpoint, net).error))
      ensures old(token).None? <==> sent[0] == TokenRequest(endpoint)
      ensures |sent| == (if old(token).None? && token.Some? then 2 else 1)
      ensures token.Some? ==>
        r == BodyText(net, net.call(PathRequest(endpoint, MetadataRoot + "/placement/region", token.value)).MapFailure(FromUreq))
    {
      MetadataPaths("placement/region");
      assert Join(MetadataRoot, "placement/region") == MetadataRoot + "/placement/region";
      r, sent := GetMetadata("placement/region", net);
    }

    /**
     * `get_credentials`: reads the role name below `iam/security-credentials/`, then the
     * credentials document at that path joined with the role, decodes it as a string map and
     * validates it with `FromMap`.  At most one token request is made, and only first.  Each
     * `?` returns the first failure and makes no further request.
     */
    method GetCredentials(net: Net, parseMap: string -> Result<map<string, string>, JsonError>,
                          parseRfc3339: string -> Result<Timestamp, ParseError>)
      returns (r: Result<Credentials, Error>, sent: seq<Ureq.Request>)
      modifies this
      ensures old(token).Some? ==> token == old(token)
      ensures old(token).None? ==>
        token == (if FetchToken(endpoint, net).Success? then Some(FetchToken(endpoint, net).value) else None)
      ensures |sent| >= 1
      ensures forall i :: 1 <= i < |sent| ==> sent[i].verb == "GET"
      ensures token.None? ==> sent == [TokenRequest(endpoint)] && r == Failure(Io(FetchToken(endpoint, net).error))
      ensures token.Some? ==>
        var prefix := if old(token).None? then [TokenRequest(endpoint)] else [];
        var roleRequest := PathRequest(endpoint, Join(MetadataRoot, RolePath), token.value);
        var role := BodyText(net, net.call(roleRequest).MapFailure(FromUreq));
        && (role.Failure? ==> sent == prefix + [roleRequest] && r == Failure(role.error))
        && (role.Success? ==>
              var documentRequest := PathRequest(endpoint, Join(MetadataRoot, Join(RolePath, role.value)), token.value);
              var document := BodyText(net, net.call(documentRequest).MapFailure(FromUreq));
              && sent == prefix + [roleRequest, documentRequest]
              && r == (if document.Failure? then Failure(document.error)
                       else if parseMap(document.value).Failure? then Failure(SerdeJson(parseMap(document.value).error))
                       else FromMap(parseMap(document.value).value, parseRfc3339)))
      ensures r.Success? ==>
        && token.Some?
        && |sent| >= 2
        && sent[|sent| - 2] == PathRequest(endpoint, Join(MetadataRoot, RolePath), token.value)
        && net.call(sent[|sent| - 2]).Success?
        && net.readText(net.call(sent[|sent| - 2]).value).Success?
        && sent[|sent| - 1] == PathRequest(endpoint,
             Join(MetadataRoot, Join(RolePath, net.readText(net.call(sent[|sent| - 2]).value).value)), token.value)
      ensures r.Success? ==>
        var reply := net.call(sent[|sent| - 1]);
        && reply.Success?
        && net.readText(reply.value).Success?
        && parseMap(net.readText(reply.value).value).Success?
        && r == FromMap(parseMap(net.readText(reply.value).value).value, parseRfc3339)
    {
      ghost var prefix: seq<Ureq.Request> := if token.None? then [TokenRequest(endpoint)] else [];
      var role, first := GetMetadata(RolePath, net);
      sent := first;
      if role.Failure? {
        return Failure(role.error), sent;
      }
      ghost var t := token.value;
      ghost var roleRequest := PathRequest(endpoint, Join(MetadataRoot, RolePath), t);
      assert first == prefix + [roleRequest];
      assert role == BodyText(net, net.call(roleRequest).MapFailure(FromUreq));
      ghost var documentRequest := PathRequest(endpoint, Join(MetadataRoot, Join(RolePath, role.value)), t);
      var document, second := GetMetadata(Join(RolePath, role.value), net);
      assert second == [documentRequest];
      assert document == BodyText(net, net.call(documentRequest).MapFailure(FromUreq));
      sent := sent + second;
      assert sent == prefix + [roleRequest, documentRequest];
      if document.Failure? {
        return Failure(document.error), sent;
      }
      match parseMap(document.value) {
        case Failure(e) =>
          r := Failure(SerdeJson(e));
        case Success(m) =>
          r := FromMap(m, parseRfc3339);
      }
    }
  }
}
