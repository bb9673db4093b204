/**
 * Request shaping for the info endpoints: src/entities/info/api/client.ts.
 *
 * `buildInfoUrl` is a template string over the API base path;
 * `serializeParams` keeps the entries of a parameters object whose value is
 * not `undefined`; `makeFetcher` pairs the two into a GET request, which the
 * transport (not part of this model) then sends.
 */
module InfoClient {
  import opened Optional
  import opened ApiConstants

  /** `InfoSeries`: the only two series an info client asks for. */
  datatype InfoSeries = Metadata | Configuration {
    function Name(): (r: string)
      ensures |r| > 0
    {
      match this
      case Metadata => "metadata"
      case Configuration => "configuration"
    }
  }

  /** A value of `InfoQueryParams`. */
  datatype InfoValue = Undefined | Str(s: string) | Num(n: int) | Bool(b: bool)

  /** A parameters object, as the sequence of its own entries (`Object.entries`). */
  type InfoParams = seq<(string, InfoValue)>

  const INFO_PREFIX: string := API_BASE_PATH + "/info/"

  /** `buildInfoUrl(resource, series)`. */
  function BuildInfoUrl(resource: string, series: InfoSeries): (r: string)
    ensures r == "/api/v1" + "/info/" + resource + "/" + series.Name()
  {
    INFO_PREFIX + resource + "/" + series.Name()
  }

  function StripPrefix(s: string, t: string): (r: Option<string>)
    ensures r.Some? <==> |t| <= |s| && s[..|t|] == t
    ensures r.Some? ==> s == t + r.value
  {
    if |t| <= |s| && s[..|t|] == t then
      assert s == s[..|t|] + s[|t|..];
      Some(s[|t|..])
    else None
  }

  function StripSuffix(s: string, t: string): (r: Option<string>)
    ensures r.Some? <==> |t| <= |s| && s[|s| - |t|..] == t
    ensures r.Some? ==> s == r.value + t
  {
    if |t| <= |s| && s[|s| - |t|..] == t then
      assert s == s[..|s| - |t|] + s[|s| - |t|..];
      Some(s[..|s| - |t|])
    else None
  }

  /** Reads a resource and a series back out of an info path. */
  function ParseInfoUrl(url: string): (r: Option<(string, InfoSeries)>)
    ensures r.Some? ==> BuildInfoUrl(r.value.0, r.value.1) == url
  {
    match StripPrefix(url, INFO_PREFIX)
    case None => None
    case Some(rest) =>
      match StripSuffix(rest, "/" + Metadata.Name())
      case Some(resource) => Some((resource, Metadata))
      case None =>
        match StripSuffix(rest, "/" + Configuration.Name())
        case Some(resource) => Some((resource, Configuration))
        case None => None
  }

  /** Every info path can be read back: the path determines resource and series. */
  lemma ParseBuildInfoUrl(resource: string, series: InfoSeries)
    ensures ParseInfoUrl(BuildInfoUrl(resource, series)) == Some((resource, series))
  {
    var tail := "/" + series.Name();
    var rest := resource + tail;
    assert BuildInfoUrl(resource, series) == INFO_PREFIX + rest;
    assert (INFO_PREFIX + rest)[..|INFO_PREFIX|] == INFO_PREFIX;
    assert rest[|rest| - |tail|..] == tail;
    assert rest[..|rest| - |tail|] == resource;
    if series == Configuration {
      // "/configuration" and "/metadata" end in different letters
      assert rest[|rest| - 1] == 'n';
      if |"/metadata"| <= |rest| {
        assert rest[|rest| - |"/metadata"|..][|"/metadata"| - 1] == 'n';
      }
    }
  }

  /** Different resources or series never share a path. */
  lemma InfoUrlInjective(r1: string, s1: InfoSeries, r2: string, s2: InfoSeries)
    ensures BuildInfoUrl(r1, s1) == BuildInfoUrl(r2, s2) <==> r1 == r2 && s1 == s2
  {
    ParseBuildInfoUrl(r1, s1);
    ParseBuildInfoUrl(r2, s2);
  }

  /**
   * `serializeParams(params = {})`: the entries whose value is not
   * `undefined`, in their original order, with their values.
   */
  function SerializeParams(params: Option<InfoParams>): (r: InfoParams)
    ensures forall x :: x in r <==> x in params.GetOr([]) && x.1 != Undefined
    ensures |r| <= |params.GetOr([])|
    ensures (forall i :: 0 <= i < |params.GetOr([])| ==> params.GetOr([])[i].1 != Undefined) ==> r == params.GetOr([])
  {
    match params
    case None => []
    case Some(p) => Defined(p)
  }

  function Defined(p: InfoParams): (r: InfoParams)
    ensures forall x :: x in r <==> x in p && x.1 != Undefined
    ensures |r| <= |p|
    ensures (forall i :: 0 <= i < |p| ==> p[i].1 != Undefined) ==> r == p
  {
    if p == [] then []
    else if p[0].1.Undefined? then Defined(p[1..])
    else
      assert p == [p[0]] + p[1..];
      [p[0]] + Defined(p[1..])
  }

  /** Filtering respects concatenation, so the order of the kept entries is the order of the input. */
  lemma {:induction false} DefinedConcat(a: InfoParams, b: InfoParams)
    ensures Defined(a + b) == Defined(a) + Defined(b)
    decreases |a|
  {
    if a != [] {
      assert (a + b)[0] == a[0];
      assert (a + b)[1..] == a[1..] + b;
      DefinedConcat(a[1..], b);
    } else {
      assert a + b == b;
    }
  }

  /** One entry on its own: kept exactly when it is defined. */
  lemma DefinedSingle(x: (string, InfoValue))
    ensures Defined([x]) == if x.1.Undefined? then [] else [x]
  {
    assert [x][1..] == [];
  }

  /** Serialising twice is serialising once. */
  lemma SerializeParamsIdempotent(params: Option<InfoParams>)
    ensures SerializeParams(Some(SerializeParams(params))) == SerializeParams(params)
  {
  }

  /** Missing parameters give an empty object. */
  lemma MissingParamsGiveEmpty()
    ensures SerializeParams(None) == []
  {
  }

  /** The GET request `makeFetcher(resource, series)(params)` hands to the transport. */
  datatype Request = Request(verb: string, url: string, params: InfoParams)

  function MakeRequest(resource: string, series: InfoSeries, params: Option<InfoParams>): (r: Request)
    ensures r.verb == "GET"
    ensures ParseInfoUrl(r.url) == Some((resource, series))
    ensures r.params == SerializeParams(params)
    ensures forall x :: x in r.params <==> x in params.GetOr([]) && x.1 != Undefined
  {
    ParseBuildInfoUrl(resource, series);
    Request("GET", BuildInfoUrl(resource, series), SerializeParams(params))
  }

  /** `createInfoResourceClient(resource)`: one fetcher per series. */
  datatype ResourceClient = ResourceClient(resource: string) {
    function MetadataRequest(params: Option<InfoParams>): (r: Request)
      ensures r.verb == "GET" && ParseInfoUrl(r.url) == Some((resource, Metadata))
      ensures forall x :: x in r.params <==> x in params.GetOr([]) && x.1 != Undefined
    {
      MakeRequest(resource, Metadata, params)
    }

    function ConfigurationRequest(params: Option<InfoParams>): (r: Request)
      ensures r.verb == "GET" && ParseInfoUrl(r.url) == Some((resource, Configuration))
      ensures forall x :: x in r.params <==> x in params.GetOr([]) && x.1 != Undefined
    {
      MakeRequest(resource, Configuration, params)
    }
  }
}
