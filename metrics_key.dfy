/**
 * How a metrics query becomes a cache key: src/entities/metrics/model/utils.ts.
 *
 * `serializeMetricsParams` picks seven fields, in a fixed order, out of the
 * parameters object; `buildMetricsQueryKey` wraps them with the scope, the
 * resource and the series and writes the whole with `JSON.stringify`, which
 * leaves out the fields whose value is `undefined`.
 */
module MetricsKey {
  import opened Optional
  import opened ApiConstants
  import Json

  /** `MetricsSeries`. */
  datatype MetricsSeries = Cost | Summary | Trends | Efficiency {
    function Name(): (r: string)
      ensures |r| > 0
    {
      match this
      case Cost => "cost"
      case Summary => "summary"
      case Trends => "trends"
      case Efficiency => "efficiency"
    }
  }

  /** A parameter value of the kinds `MetricsQueryOptions` declares (strings, numbers, string lists), or `undefined`. */
  datatype Param = Undefined | Str(s: string) | Num(n: int) | Strs(items: seq<string>)

  /** A parameters object: its own properties, in order. */
  type Params = seq<(string, Param)>

  /** `params.name`, which is `undefined` when there is no such property. */
  function Get(params: Params, name: string): (r: Param)
    ensures (forall i :: 0 <= i < |params| ==> params[i].0 != name) ==> r == Undefined
    ensures r != Undefined ==> exists i :: 0 <= i < |params| && params[i] == (name, r)
  {
    if params == [] then Undefined
    else if params[0].0 == name then params[0].1
    else Get(params[1..], name)
  }

  /** JavaScript falsiness of a parameter value: every list is truthy, even `[]`. */
  predicate Falsy(p: Param)
    ensures p.Undefined? ==> Falsy(p)
    ensures p.Str? ==> (Falsy(p) <==> p.s == "")
    ensures p.Num? ==> (Falsy(p) <==> p.n == 0)
    ensures p.Strs? ==> !Falsy(p)
  {
    p.Undefined? || p == Str("") || p == Num(0)
  }

  /**
   * `items.join(sep)`: starts with the first item, is that item alone for a
   * one-item list, and is empty only for `[]` and `[""]`.
   */
  function Join(items: seq<string>, sep: string): (r: string)
    ensures items == [] ==> r == ""
    ensures |items| == 1 ==> r == items[0]
    ensures |items| > 0 ==> items[0] <= r
    ensures sep != "" ==> (r == "" <==> items == [] || items == [""])
  {
    if items == [] then ""
    else if |items| == 1 then items[0]
    else items[0] + sep + Join(items[1..], sep)
  }

  /**
   * `normalizeArrayParam`: a falsy value becomes `undefined`, a list becomes
   * its comma-join (so `[]` becomes `""`), anything else is kept.
   */
  function NormalizeArrayParam(value: Param): (r: Param)
    ensures Falsy(value) ==> r == Undefined
    ensures !Falsy(value) && value.Strs? ==> r == Str(Join(value.items, ","))
    ensures !Falsy(value) && !value.Strs? ==> r == value
    ensures !r.Strs?
  {
    if Falsy(value) then Undefined
    else if value.Strs? then Str(Join(value.items, ","))
    else value
  }

  /** The fields of the serialised record, in the order they are written. */
  const FIELDS: seq<string> := ["start", "end", "limit", "offset", "sort", "metric", "currency"]

  /**
   * `serializeMetricsParams(params = {})`: exactly the seven fields, in that
   * order, with `metric` normalised and every other property dropped.
   */
  function SerializeMetricsParams(params: Option<Params>): (r: seq<(string, Param)>)
    ensures |r| == |FIELDS| && forall i :: 0 <= i < |r| ==> r[i].0 == FIELDS[i]
    ensures forall i :: 0 <= i < |r| && i != 5 ==> r[i].1 == Get(params.GetOr([]), FIELDS[i])
    ensures r[5].1 == NormalizeArrayParam(Get(params.GetOr([]), "metric"))
  {
    var p := params.GetOr([]);
    [ ("start", Get(p, "start")),
      ("end", Get(p, "end")),
      ("limit", Get(p, "limit")),
      ("offset", Get(p, "offset")),
      ("sort", Get(p, "sort")),
      ("metric", NormalizeArrayParam(Get(p, "metric"))),
      ("currency", Get(p, "currency")) ]
  }

  function ParamJson(p: Param): Json.Value {
    match p
    case Undefined => Json.Undefined
    case Str(s) => Json.Str(s)
    case Num(n) => Json.Num(n)
    case Strs(items) => Json.Arr(StrItems(items))
  }

  function StrItems(items: seq<string>): seq<Json.Value> {
    seq(|items|, i requires 0 <= i < |items| => Json.Str(items[i]))
  }

  function JsonMembers(fields: seq<(string, Param)>): seq<(string, Json.Value)> {
    seq(|fields|, i requires 0 <= i < |fields| => (fields[i].0, ParamJson(fields[i].1)))
  }

  /**
   * The object `buildMetricsQueryKey` hands to `JSON.stringify`: the members
   * `scope`, `resource`, `series` and `params`, in that order.
   */
  function KeyObject(resource: MetricResource, series: MetricsSeries, params: Option<Params>): (r: Json.Value)
    ensures r.Obj? && |r.props| == 4
    ensures r.props[0] == ("scope", Json.Str("metrics"))
    ensures r.props[1] == ("resource", Json.Str(resource.Name()))
    ensures r.props[2] == ("series", Json.Str(series.Name()))
    ensures r.props[3] == ("params", Json.Obj(JsonMembers(SerializeMetricsParams(params))))
  {
    KeyShape(resource.Name(), series.Name(), JsonMembers(SerializeMetricsParams(params)))
  }

  /** `buildMetricsQueryKey(resource, series, params)`: object text that reads back as the key object. */
  function BuildMetricsQueryKey(resource: MetricResource, series: MetricsSeries, params: Option<Params>): (r: string)
    ensures |r| > 0 && r[0] == '{'
    ensures Json.Parse(r) == Some(Json.Canon(KeyObject(resource, series, params)))
  {
    Json.ParseText(KeyObject(resource, series, params));
    Json.Stringify(KeyObject(resource, series, params)).value
  }

  /** The fields that are not `undefined`, in order: what the key actually records. */
  function Present(fields: seq<(string, Param)>): (r: seq<(string, Param)>)
    ensures forall i :: 0 <= i < |r| ==> r[i].1 != Undefined
    ensures forall x :: x in fields && x.1 != Undefined ==> x in r
    ensures forall x :: x in r ==> x in fields
  {
    if fields == [] then []
    else if fields[0].1.Undefined? then Present(fields[1..])
    else [fields[0]] + Present(fields[1..])
  }

  /** The (name, value) pairs of a query's key, in field order, with absent values omitted. */
  function KeyFields(params: Option<Params>): seq<(string, Param)> {
    Present(SerializeMetricsParams(params))
  }

  // ---------------------------------------------------------------------------
  // Properties
  // ---------------------------------------------------------------------------

  lemma ResourceNamesDistinct(a: MetricResource, b: MetricResource)
    ensures a.Name() == b.Name() <==> a == b
  {
    if a != b {
      assert a.Name()[0] != b.Name()[0] || a.Name()[1] != b.Name()[1] || |a.Name()| != |b.Name()|;
    }
  }

  lemma SeriesNamesDistinct(a: MetricsSeries, b: MetricsSeries)
    ensures a.Name() == b.Name() <==> a == b
  {
    if a != b {
      assert a.Name()[0] != b.Name()[0] || |a.Name()| != |b.Name()|;
    }
  }

  lemma StrItemsCanon(items: seq<string>)
    ensures Json.CanonItems(StrItems(items)) == StrItems(items)
    decreases |items|
  {
    if items != [] {
      assert StrItems(items)[1..] == StrItems(items[1..]);
      StrItemsCanon(items[1..]);
    }
  }

  lemma ParamJsonCanon(p: Param)
    requires p != Undefined
    ensures Json.Canon(ParamJson(p)) == ParamJson(p)
  {
    if p.Strs? {
      StrItemsCanon(p.items);
    }
  }

  /** Writing drops exactly the `undefined` fields: the canonical form of the members is that of `Present`. */
  lemma {:induction false} CanonJsonMembers(fields: seq<(string, Param)>)
    ensures Json.CanonMembers(JsonMembers(fields)) == JsonMembers(Present(fields))
    decreases |fields|
  {
    if fields != [] {
      var m := JsonMembers(fields);
      assert m[0] == (fields[0].0, ParamJson(fields[0].1));
      assert m[1..] == JsonMembers(fields[1..]);
      CanonJsonMembers(fields[1..]);
      if !fields[0].1.Undefined? {
        ParamJsonCanon(fields[0].1);
        assert JsonMembers([fields[0]] + Present(fields[1..]))
            == [(fields[0].0, ParamJson(fields[0].1))] + JsonMembers(Present(fields[1..]));
      }
    }
  }

  lemma ParamJsonInjective(a: Param, b: Param)
    requires ParamJson(a) == ParamJson(b)
    ensures a == b
  {
    if a.Strs? {
      assert |a.items| == |StrItems(a.items)| == |StrItems(b.items)| == |b.items|;
      forall i | 0 <= i < |a.items| ensures a.items[i] == b.items[i] {
        assert StrItems(a.items)[i] == StrItems(b.items)[i];
      }
    }
  }

  lemma JsonMembersInjective(a: seq<(string, Param)>, b: seq<(string, Param)>)
    requires JsonMembers(a) == JsonMembers(b)
    ensures a == b
  {
    assert |a| == |JsonMembers(a)| == |JsonMembers(b)| == |b|;
    forall i | 0 <= i < |a| ensures a[i] == b[i] {
      assert JsonMembers(a)[i] == JsonMembers(b)[i];
      ParamJsonInjective(a[i].1, b[i].1);
    }
  }

  lemma CanonMembersCons(name: string, v: Json.Value, rest: seq<(string, Json.Value)>)
    requires !v.Undefined?
    ensures Json.CanonMembers([(name, v)] + rest) == [(name, Json.Canon(v))] + Json.CanonMembers(rest)
  {
    assert ([(name, v)] + rest)[1..] == rest;
  }

  /** The key object for given resource and series names and serialised fields. */
  function KeyShape(resourceName: string, seriesName: string, fields: seq<(string, Json.Value)>): Json.Value {
    Json.Obj([
      ("scope", Json.Str("metrics")),
      ("resource", Json.Str(resourceName)),
      ("series", Json.Str(seriesName)),
      ("params", Json.Obj(fields))])
  }

  lemma CanonKeyShape(resourceName: string, seriesName: string, fields: seq<(string, Json.Value)>)
    ensures Json.Canon(KeyShape(resourceName, seriesName, fields))
         == KeyShape(resourceName, seriesName, Json.CanonMembers(fields))
  {
    var last := [("params", Json.Obj(fields))];
    CanonMembersCons("params", Json.Obj(fields), []);
    var s3 := [("series", Json.Str(seriesName))] + last;
    CanonMembersCons("series", Json.Str(seriesName), last);
    var s2 := [("resource", Json.Str(resourceName))] + s3;
    CanonMembersCons("resource", Json.Str(resourceName), s3);
    CanonMembersCons("scope", Json.Str("metrics"), s2);
    assert KeyShape(resourceName, seriesName, fields) == Json.Obj([("scope", Json.Str("metrics"))] + s2);
  }

  lemma CanonKeyObject(resource: MetricResource, series: MetricsSeries, params: Option<Params>)
    ensures Json.Canon(KeyObject(resource, series, params))
         == KeyShape(resource.Name(), series.Name(), JsonMembers(KeyFields(params)))
  {
    CanonKeyShape(resource.Name(), series.Name(), JsonMembers(SerializeMetricsParams(params)));
    CanonJsonMembers(SerializeMetricsParams(params));
  }

  /**
   * Keys are collision-free: two queries get the same key exactly when they
   * have the same resource, the same series and the same present fields with
   * the same values. So a different resource or series always gives a
   * different key, and nothing but the seven fields, their values and which
   * of them are defined can influence the key.
   */
  lemma KeyIdentifiesQuery(r1: MetricResource, s1: MetricsSeries, p1: Option<Params>,
                           r2: MetricResource, s2: MetricsSeries, p2: Option<Params>)
    ensures BuildMetricsQueryKey(r1, s1, p1) == BuildMetricsQueryKey(r2, s2, p2)
        <==> r1 == r2 && s1 == s2 && KeyFields(p1) == KeyFields(p2)
  {
    Json.TextInjective(KeyObject(r1, s1, p1), KeyObject(r2, s2, p2));
    CanonKeyObject(r1, s1, p1);
    CanonKeyObject(r2, s2, p2);
    ResourceNamesDistinct(r1, r2);
    SeriesNamesDistinct(s1, s2);
    if JsonMembers(KeyFields(p1)) == JsonMembers(KeyFields(p2)) {
      JsonMembersInjective(KeyFields(p1), KeyFields(p2));
    }
  }

  /**
   * Only the seven fields matter, and only through their values: the order of
   * the input's properties, any other property, and the difference between an
   * `undefined` property and a missing one do not change the key.
   */
  lemma KeyDependsOnlyOnFields(resource: MetricResource, series: MetricsSeries, p1: Option<Params>, p2: Option<Params>)
    requires forall i :: 0 <= i < |FIELDS| ==> Get(p1.GetOr([]), FIELDS[i]) == Get(p2.GetOr([]), FIELDS[i])
    ensures BuildMetricsQueryKey(resource, series, p1) == BuildMetricsQueryKey(resource, series, p2)
  {
    assert SerializeMetricsParams(p1) == SerializeMetricsParams(p2);
  }

  /** `{limit: 10, offset: undefined}` and `{limit: 10}` give the same key; so does a different property order. */
  lemma UndefinedIsAbsent(resource: MetricResource, series: MetricsSeries)
    ensures BuildMetricsQueryKey(resource, series, Some([("limit", Num(10)), ("offset", Undefined)]))
         == BuildMetricsQueryKey(resource, series, Some([("limit", Num(10))]))
    ensures BuildMetricsQueryKey(resource, series, Some([("limit", Num(10)), ("offset", Num(5))]))
         == BuildMetricsQueryKey(resource, series, Some([("offset", Num(5)), ("limit", Num(10))]))
  {
    SerializeAgrees([("limit", Num(10)), ("offset", Undefined)], [("limit", Num(10))]);
    SerializeAgrees([("limit", Num(10)), ("offset", Num(5))], [("offset", Num(5)), ("limit", Num(10))]);
  }

  /** An `undefined` property gives the same key as no property at all. */
  lemma UndefinedFieldIsAbsent(resource: MetricResource, series: MetricsSeries, p: Params, name: string)
    requires forall i :: 0 <= i < |p| ==> p[i].0 != name
    ensures BuildMetricsQueryKey(resource, series, Some(p + [(name, Undefined)]))
         == BuildMetricsQueryKey(resource, series, Some(p))
  {
    forall i | 0 <= i < |FIELDS|
      ensures Get(p + [(name, Undefined)], FIELDS[i]) == Get(p, FIELDS[i])
    {
      if FIELDS[i] == name {
        GetPastOthers(p, name, Undefined);
      } else {
        GetAppended(p, FIELDS[i], (name, Undefined));
      }
    }
    KeyDependsOnlyOnFields(resource, series, Some(p + [(name, Undefined)]), Some(p));
  }

  /** No two entries share a property name. */
  predicate DistinctNames(p: Params) {
    forall i, j :: 0 <= i < j < |p| ==> p[i].0 != p[j].0
  }

  /** With distinct names, reading a property gives the value of its one entry. */
  lemma {:induction false} GetEntry(p: Params, name: string, v: Param)
    requires DistinctNames(p) && (name, v) in p
    ensures Get(p, name) == v
    decreases |p|
  {
    if p[0] != (name, v) {
      assert (name, v) in p[1..];
      var k :| 0 <= k < |p[1..]| && p[1..][k] == (name, v);
      assert p[k + 1].0 == name;
      assert DistinctNames(p[1..]) by {
        forall i, j | 0 <= i < j < |p[1..]| ensures p[1..][i].0 != p[1..][j].0 {
          assert p[1..][i] == p[i + 1] && p[1..][j] == p[j + 1];
        }
      }
      GetEntry(p[1..], name, v);
    }
  }

  /** The same entries in another order, with distinct names, give the same reads. */
  lemma GetReordered(p: Params, q: Params, name: string)
    requires DistinctNames(p) && DistinctNames(q)
    requires forall x :: x in p <==> x in q
    ensures Get(p, name) == Get(q, name)
  {
    var v := Get(p, name);
    if v != Undefined {
      GetEntry(q, name, v);
    } else {
      var w := Get(q, name);
      if w != Undefined {
        GetEntry(p, name, w);
      }
    }
  }

  /** The order of the properties does not change the key, as long as no name repeats. */
  lemma OrderDoesNotMatter(resource: MetricResource, series: MetricsSeries, p: Params, q: Params)
    requires DistinctNames(p) && DistinctNames(q)
    requires forall x :: x in p <==> x in q
    ensures BuildMetricsQueryKey(resource, series, Some(p)) == BuildMetricsQueryKey(resource, series, Some(q))
  {
    forall i | 0 <= i < |FIELDS| ensures Get(p, FIELDS[i]) == Get(q, FIELDS[i]) {
      GetReordered(p, q, FIELDS[i]);
    }
    KeyDependsOnlyOnFields(resource, series, Some(p), Some(q));
  }

  /** Missing parameters are the same as an empty object. */
  lemma MissingParamsAreEmpty(resource: MetricResource, series: MetricsSeries)
    ensures BuildMetricsQueryKey(resource, series, None) == BuildMetricsQueryKey(resource, series, Some([]))
    ensures KeyFields(None) == []
  {
  }

  /**
   * A list of metrics gives the same key as its comma-join, as long as that
   * join is not empty.
   */
  lemma MetricListIsJoined(resource: MetricResource, series: MetricsSeries, p: Params, items: seq<string>)
    requires forall i :: 0 <= i < |p| ==> p[i].0 != "metric"
    requires Join(items, ",") != ""
    ensures BuildMetricsQueryKey(resource, series, Some(p + [("metric", Strs(items))]))
         == BuildMetricsQueryKey(resource, series, Some(p + [("metric", Str(Join(items, ",")))]))
  {
    var x, y := ("metric", Strs(items)), ("metric", Str(Join(items, ",")));
    GetPastOthers(p, "metric", x.1);
    GetPastOthers(p, "metric", y.1);
    GetAppendedBoth(p, "start", x, y);
    GetAppendedBoth(p, "end", x, y);
    GetAppendedBoth(p, "limit", x, y);
    GetAppendedBoth(p, "offset", x, y);
    GetAppendedBoth(p, "sort", x, y);
    GetAppendedBoth(p, "currency", x, y);
    SerializeAgrees(p + [x], p + [y]);
  }

  /** Two parameter objects that agree on the seven (normalised) fields serialise alike. */
  lemma SerializeAgrees(a: Params, b: Params)
    requires Get(a, "start") == Get(b, "start") && Get(a, "end") == Get(b, "end")
    requires Get(a, "limit") == Get(b, "limit") && Get(a, "offset") == Get(b, "offset")
    requires Get(a, "sort") == Get(b, "sort") && Get(a, "currency") == Get(b, "currency")
    requires NormalizeArrayParam(Get(a, "metric")) == NormalizeArrayParam(Get(b, "metric"))
    ensures SerializeMetricsParams(Some(a)) == SerializeMetricsParams(Some(b))
  {
  }

  lemma GetAppendedBoth(p: Params, name: string, x: (string, Param), y: (string, Param))
    requires x.0 != name && y.0 != name
    ensures Get(p + [x], name) == Get(p + [y], name)
  {
    GetAppended(p, name, x);
    GetAppended(p, name, y);
  }

  /** `["a", "b"]` and `"a,b"` give the same key. */
  lemma MetricPairIsJoined(resource: MetricResource, series: MetricsSeries)
    ensures BuildMetricsQueryKey(resource, series, Some([("metric", Strs(["a", "b"]))]))
         == BuildMetricsQueryKey(resource, series, Some([("metric", Str("a,b"))]))
  {
    JoinPair();
    MetricListIsJoined(resource, series, [], ["a", "b"]);
    assert [] + [("metric", Strs(["a", "b"]))] == [("metric", Strs(["a", "b"]))];
    assert [] + [("metric", Str("a,b"))] == [("metric", Str("a,b"))];
  }

  lemma JoinPair()
    ensures Join(["a", "b"], ",") == "a,b"
  {
    assert ["a", "b"][1..] == ["b"];
  }

  /**
   * An empty list is truthy, so `metric: []` is written as `"metric":""`,
   * while `metric: ""` is falsy and left out: the two keys differ.
   */
  lemma EmptyMetricListIsNotEmptyString(resource: MetricResource, series: MetricsSeries)
    ensures BuildMetricsQueryKey(resource, series, Some([("metric", Strs([]))]))
         != BuildMetricsQueryKey(resource, series, Some([("metric", Str(""))]))
  {
    var p1 := Some([("metric", Strs([]))]);
    var p2 := Some([("metric", Str(""))]);
    KeyIdentifiesQuery(resource, series, p1, resource, series, p2);
    EmptyListMetricPresent(p1);
    EmptyStringMetricAbsent(p2);
  }

  lemma EmptyListMetricPresent(p: Option<Params>)
    requires p == Some([("metric", Strs([]))])
    ensures ("metric", Str("")) in KeyFields(p)
  {
    var s := SerializeMetricsParams(p);
    assert Get(p.GetOr([]), "metric") == Strs([]);
    assert s[5] == ("metric", Str(""));
  }

  lemma EmptyStringMetricAbsent(p: Option<Params>)
    requires p == Some([("metric", Str(""))])
    ensures ("metric", Str("")) !in KeyFields(p)
  {
    var s := SerializeMetricsParams(p);
    assert Get(p.GetOr([]), "metric") == Str("");
    assert s[5].1 == Undefined;
    forall i | 0 <= i < |s| ensures s[i] != ("metric", Str("")) {
      if i != 5 {
        assert s[i].0 == FIELDS[i] != "metric";
      }
    }
  }

  lemma GetPastOthers(p: Params, name: string, v: Param)
    requires forall i :: 0 <= i < |p| ==> p[i].0 != name
    ensures Get(p + [(name, v)], name) == v
    decreases |p|
  {
    if p != [] {
      assert (p + [(name, v)])[1..] == p[1..] + [(name, v)];
      GetPastOthers(p[1..], name, v);
    }
  }

  lemma GetAppended(p: Params, name: string, x: (string, Param))
    requires x.0 != name
    ensures Get(p + [x], name) == Get(p, name)
    decreases |p|
  {
    if p != [] {
      assert (p + [x])[1..] == p[1..] + [x];
      GetAppended(p[1..], name, x);
    }
  }
}
