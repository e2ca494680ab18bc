/** The path and query of a request to the API server
    (pkg/client/resource_request.go): `/api/<version>` for the core group or
    `/apis/<group>/<version>` otherwise, then `namespaces/<ns>` when a
    namespace is given, then the resource, the name and the subresource,
    then `?` and the encoded query when there is one. */
module ResourceRequests {
  import opened Types
  import opened Urls

  datatype ResourceRequest = ResourceRequest(
    gvr: GroupVersionResource,
    subresource: string,
    verb: string,
    namespace: string,
    name: string,
    values: Values)

  /** The group-and-version part of the path. */
  function GvrPath(gvr: GroupVersionResource): string
  {
    if gvr.group == "" then Join(["api", gvr.version]) else Join(["apis", gvr.group, gvr.version])
  }

  /** The namespace part of the path; none for an empty namespace. */
  function NsPath(namespace: string): string
  {
    if namespace != "" then Join(["namespaces", namespace]) else ""
  }

  /** `?` and the encoded query, or nothing when the query is empty. */
  function QuerySuffix(values: Values): (s: string)
    ensures values.pairs == [] <==> s == ""
    ensures s != "" ==> s == "?" + Encode(values)
  {
    var q := Encode(values);
    if q != "" then "?" + q else ""
  }

  function URL(r: ResourceRequest): (url: string)
    ensures |url| > 0 && url[0] == '/'
  {
    "/" + Join([GvrPath(r.gvr), NsPath(r.namespace), r.gvr.resource, r.name, r.subresource]) + QuerySuffix(r.values)
  }

  /** The path segments of a request, flattened. */
  function GvrSegments(gvr: GroupVersionResource): seq<string>
  {
    if gvr.group == "" then ["api", gvr.version] else ["apis", gvr.group, gvr.version]
  }

  function NsSegments(namespace: string): seq<string>
  {
    if namespace != "" then ["namespaces", namespace] else []
  }

  function Segments(r: ResourceRequest): seq<string>
  {
    GvrSegments(r.gvr) + NsSegments(r.namespace) + [r.gvr.resource, r.name, r.subresource]
  }

  /** The nested joins of the source are one join of all segments. */
  lemma URLIsFlatJoin(r: ResourceRequest)
    ensures URL(r) == "/" + Join(Segments(r)) + QuerySuffix(r.values)
  {
    var tail := [r.gvr.resource, r.name, r.subresource];
    assert NsPath(r.namespace) == Join(NsSegments(r.namespace));
    JoinNested(GvrSegments(r.gvr), NsSegments(r.namespace), tail);
    assert [GvrPath(r.gvr), NsPath(r.namespace), r.gvr.resource, r.name, r.subresource]
        == [Join(GvrSegments(r.gvr)), Join(NsSegments(r.namespace))] + tail;
  }

  /** Joining more segments extends a joined path. */
  lemma JoinPrefix(xs: seq<string>, ys: seq<string>)
    ensures Join(xs) <= Join(xs + ys)
  {
    JoinAppend(xs, ys);
  }

  lemma PrefixExtends(p: string, s: string, q: string)
    requires p <= s
    ensures "/" + p <= "/" + s + q
  {
    assert ("/" + s + q)[..|"/" + p|] == "/" + p;
  }

  /** The group-and-version prefixes, spelled out. */
  lemma CorePrefix(v: string)
    requires v != ""
    ensures "/" + Join(["api", v]) == "/api/" + v
  {
    assert Join([v]) == v;
    assert Join(["api", v]) == Glue("api", Join([v]));
  }

  lemma GroupPrefix(g: string, v: string)
    requires v != "" && g != ""
    ensures "/" + Join(["apis", g, v]) == "/apis/" + g + "/" + v
  {
    assert Join([v]) == v;
    assert Join(["apis", g, v]) == Glue("apis", Glue(g, Join([v])));
  }

  /** A core-group request's path starts with `/api/<version>`, a named
      group's with `/apis/<group>/<version>`. */
  lemma URLPrefix(r: ResourceRequest)
    requires r.gvr.version != ""
    ensures r.gvr.group == "" ==> "/api/" + r.gvr.version <= URL(r)
    ensures r.gvr.group != "" ==> "/apis/" + r.gvr.group + "/" + r.gvr.version <= URL(r)
  {
    URLIsFlatJoin(r);
    var gvr := GvrSegments(r.gvr);
    var rest := NsSegments(r.namespace) + [r.gvr.resource, r.name, r.subresource];
    assert Segments(r) == gvr + rest;
    JoinPrefix(gvr, rest);
    PrefixExtends(Join(gvr), Join(Segments(r)), QuerySuffix(r.values));
    if r.gvr.group == "" {
      CorePrefix(r.gvr.version);
    } else {
      GroupPrefix(r.gvr.group, r.gvr.version);
    }
  }

  /** An empty namespace, name or subresource adds no segment: such a
      request addresses the same path as one without that segment. */
  lemma EmptyPartsVanish(r: ResourceRequest)
    requires r.namespace == "" && r.name == "" && r.subresource == ""
    ensures URL(r) == "/" + Join(GvrSegments(r.gvr) + [r.gvr.resource]) + QuerySuffix(r.values)
  {
    URLIsFlatJoin(r);
    var g := GvrSegments(r.gvr) + [r.gvr.resource];
    assert Segments(r) == g + [""] + [""];
    EmptySegmentVanishes(g + [""], []);
    assert g + [""] + [""] + [] == g + [""] + [""];
    assert g + [""] + [] == g + [""];
    EmptySegmentVanishes(g, []);
    assert g + [] == g;
  }

  /** A named object of a namespaced core-group resource, e.g. pod `web` in
      `default`, is addressed by the path of segments `api`, the version,
      `namespaces`, the namespace, the resource and the name, with no query. */
  lemma CoreNamedURL(version: string, namespace: string, resource: string, name: string, verb: string)
    ensures URL(ResourceRequest(GroupVersionResource("", version, resource), "", verb, namespace, name, NoValues))
         == "/" + Join(["api", version] + NsSegments(namespace) + [resource, name])
  {
    var r := ResourceRequest(GroupVersionResource("", version, resource), "", verb, namespace, name, NoValues);
    URLIsFlatJoin(r);
    var xs := ["api", version] + NsSegments(namespace) + [resource, name];
    assert Segments(r) == xs + [""] + [];
    EmptySegmentVanishes(xs, []);
    assert xs + [] == xs;
    assert QuerySuffix(NoValues) == "";
  }
}
