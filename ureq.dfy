/**
 * The parts of the HTTP client library (ureq) that the request pipeline relies on:
 * a request value that is rebuilt by `set` and `query`, responses, the client's
 * two error kinds, and what one attempt puts on the wire.  The network itself is
 * not modelled: callers receive it as an oracle.
 */
module Ureq {
  import opened Wrappers

  newtype byte = x: int | 0 <= x < 256
  type Bytes = seq<byte>

  /** A (name, value) pair: a header, a query parameter or a form field. */
  type Param = (string, string)

  /** The names of a list of pairs, in order. */
  function Keys(ps: seq<Param>): (ks: seq<string>)
    ensures |ks| == |ps|
    ensures forall i :: 0 <= i < |ps| ==> ks[i] == ps[i].0
  {
    if ps == [] then [] else [ps[0].0] + Keys(ps[1..])
  }

  /** The value of the first pair called `name`. */
  function Lookup(ps: seq<Param>, name: string): (r: Option<string>)
    ensures r.None? <==> name !in Keys(ps)
  {
    if ps == [] then None
    else if ps[0].0 == name then Some(ps[0].1)
    else Lookup(ps[1..], name)
  }

  /** `ps` without the pairs called `name`, the others in their order. */
  function Without(ps: seq<Param>, name: string): (r: seq<Param>)
    ensures name !in Keys(r)
    ensures forall p :: p in r <==> p in ps && p.0 != name
  {
    if ps == [] then []
    else if ps[0].0 == name then Without(ps[1..], name)
    else [ps[0]] + Without(ps[1..], name)
  }

  /** True when no two pairs share a name. */
  predicate UniqueNames(ps: seq<Param>) {
    forall i, j :: 0 <= i < j < |ps| ==> ps[i].0 != ps[j].0
  }

  /**
   * A request that has not been sent.  The client keeps the query pairs apart from
   * the base URL; the string the client would build from both is not modelled.
   */
  datatype Request = Request(verb: string, url: string, headers: seq<Param>, query: seq<Param>) {

    /** `Request::set`: the header replaces any header of the same name. */
    function Set(name: string, value: string): Request {
      this.(headers := Without(headers, name) + [(name, value)])
    }

    /** `Request::query`: appends one query pair. */
    function Query(name: string, value: string): Request {
      this.(query := query + [(name, value)])
    }

    function HeaderNames(): seq<string> {
      Keys(headers)
    }

    /** `Request::header`: the value of the first header called `name`. */
    function Header(name: string): Option<string> {
      Lookup(headers, name)
    }
  }

  function Get(url: string): Request { Request("GET", url, [], []) }
  function Post(url: string): Request { Request("POST", url, [], []) }
  function Put(url: string): Request { Request("PUT", url, [], []) }

  datatype Response = Response(status: nat, body: Bytes)

  /** `ureq::Error`: the server answered with an error status, or no answer came. */
  datatype UreqError = Status(code: nat, response: Response) | Transport(message: string)

  /** What one attempt sends: the request and the payload (`None` for `call()`). */
  datatype Outgoing = Outgoing(request: Request, payload: Option<Bytes>)

  /** The network as an oracle: the outcome of sending `o` as the `n`-th attempt. */
  type Network = (Outgoing, nat) -> Result<Response, UreqError>

  lemma {:induction false} LookupAppend(a: seq<Param>, b: seq<Param>, name: string)
    ensures Lookup(a + b, name) == if Lookup(a, name).Some? then Lookup(a, name) else Lookup(b, name)
  {
    if a == [] {
      assert a + b == b;
    } else {
      assert (a + b)[0] == a[0] && (a + b)[1..] == a[1..] + b;
      LookupAppend(a[1..], b, name);
    }
  }

  lemma {:induction false} LookupWithout(ps: seq<Param>, name: string, other: string)
    requires other != name
    ensures Lookup(Without(ps, name), other) == Lookup(ps, other)
  {
    if ps != [] {
      LookupWithout(ps[1..], name, other);
    }
  }

  /** After `Set(name, value)` the header `name` reads `value` and every other header reads as before. */
  lemma SetHeader(r: Request, name: string, value: string, other: string)
    ensures r.Set(name, value).Header(other) == if other == name then Some(value) else r.Header(other)
  {
    LookupAppend(Without(r.headers, name), [(name, value)], other);
    if other != name {
      LookupWithout(r.headers, name, other);
    }
  }

  /** `Set` keeps header names unique. */
  lemma SetKeepsUnique(r: Request, name: string, value: string)
    requires UniqueNames(r.headers)
    ensures UniqueNames(r.Set(name, value).headers)
  {
    var w := Without(r.headers, name);
    UniqueWithout(r.headers, name);
    var hs := w + [(name, value)];
    forall i, j | 0 <= i < j < |hs| ensures hs[i].0 != hs[j].0 {
      if j == |w| {
        assert hs[i] == w[i];
        assert w[i].0 in Keys(w);
      }
    }
  }

  lemma {:induction false} UniqueWithout(ps: seq<Param>, name: string)
    requires UniqueNames(ps)
    ensures UniqueNames(Without(ps, name))
  {
    if ps != [] {
      UniqueWithout(ps[1..], name);
      if ps[0].0 != name {
        var w := Without(ps[1..], name);
        forall i | 0 <= i < |w| ensures w[i].0 != ps[0].0 {
          assert w[i] in w;
          var k :| 0 <= k < |ps[1..]| && ps[1..][k] == w[i];
          assert ps[k + 1] == w[i];
        }
      }
    }
  }

  /** Removing a name no pair carries changes nothing. */
  lemma {:induction false} WithoutAbsent(ps: seq<Param>, name: string)
    requires name !in Keys(ps)
    ensures Without(ps, name) == ps
  {
    if ps != [] {
      assert Keys(ps) == [ps[0].0] + Keys(ps[1..]);
      WithoutAbsent(ps[1..], name);
      assert [ps[0]] + ps[1..] == ps;
    }
  }

  /** `Set` of a name the request does not carry appends that one header. */
  lemma SetFresh(r: Request, name: string, value: string)
    requires name !in r.HeaderNames()
    ensures r.Set(name, value) == r.(headers := r.headers + [(name, value)])
  {
    WithoutAbsent(r.headers, name);
  }
}
