/** The raw object API of the current client generation (pkg/apis/api.go):
    how it addresses resources, how it judges a response status, and the
    queries and requests its operations send. Bodies, JSON and the HTTP
    exchange itself are left to the transport; an exchange's outcome is a
    parameter. */
module ApisApi {
  import opened Types
  import opened Urls
  import opened ResourceRequests
  import opened Watchers
  import opened StreamWatchers

  /** An object API: the server it talks to, the resource kind and the
      subresource every request addresses ("" for the resource itself). */
  datatype ObjectApi = ObjectApi(serverUrl: string, gvr: GroupVersionResource, subresource: string)

  /** A request of this API; its body is not modelled. */
  datatype ApiRequest = ApiRequest(verb: string, namespace: string, name: string, values: Values)

  function RequestPath(o: ObjectApi, r: ApiRequest): string
  {
    Join([GvrPath(o.gvr), NsPath(r.namespace), o.gvr.resource, r.name, o.subresource])
  }

  function BuildRequestURL(o: ObjectApi, r: ApiRequest): string
  {
    o.serverUrl + "/" + RequestPath(o, r) + QuerySuffix(r.values)
  }

  /** The same request in the client's own request form. */
  function ClientRequest(o: ObjectApi, r: ApiRequest): ResourceRequest
  {
    ResourceRequest(o.gvr, o.subresource, r.verb, r.namespace, r.name, r.values)
  }

  /** The API's URL is the server address followed by the path and query the
      client's request form builds, so the prefix rules of that form hold
      here too. */
  lemma BuildRequestURLIsServerPlusClientURL(o: ObjectApi, r: ApiRequest)
    ensures BuildRequestURL(o, r) == o.serverUrl + URL(ClientRequest(o, r))
  {
    assert o.serverUrl + "/" + RequestPath(o, r) + QuerySuffix(r.values)
        == o.serverUrl + ("/" + RequestPath(o, r) + QuerySuffix(r.values));
  }

  /** The same API addressing `subresource`; everything else is kept. */
  function Subresource(o: ObjectApi, subresource: string): (r: ObjectApi)
    ensures r.subresource == subresource
    ensures r.serverUrl == o.serverUrl && r.gvr == o.gvr
  {
    o.(subresource := subresource)
  }

  function Status(o: ObjectApi): ObjectApi
  {
    Subresource(o, "status")
  }

  /** A subresource is one more path segment after the object's name. */
  lemma SubresourceURL(o: ObjectApi, r: ApiRequest, subresource: string)
    requires o.subresource == "" && subresource != ""
    ensures BuildRequestURL(Subresource(o, subresource), r)
         == o.serverUrl + "/" + RequestPath(o, r) + "/" + subresource + QuerySuffix(r.values)
  {
    var xs := [GvrPath(o.gvr), NsPath(r.namespace), o.gvr.resource, r.name];
    JoinAppend(xs, [subresource]);
    JoinAppend(xs, [""]);
    assert xs + [subresource] == [GvrPath(o.gvr), NsPath(r.namespace), o.gvr.resource, r.name, subresource];
    assert xs + [""] == [GvrPath(o.gvr), NsPath(r.namespace), o.gvr.resource, r.name, ""];
    assert Join([subresource]) == subresource && Join([""]) == "";
    JoinEmpty(xs);
    assert xs[0] != "";
  }

  lemma StatusURL(o: ObjectApi, r: ApiRequest)
    requires o.subresource == ""
    ensures BuildRequestURL(Status(o), r) == o.serverUrl + "/" + RequestPath(o, r) + "/status" + QuerySuffix(r.values)
  {
    SubresourceURL(o, r, "status");
    assert o.serverUrl + "/" + RequestPath(o, r) + "/" + "status" + QuerySuffix(r.values)
        == o.serverUrl + "/" + RequestPath(o, r) + "/status" + QuerySuffix(r.values);
  }

  // ---------------------------------------------------------------------
  // The exchange

  /** What the transport produced: no response at all (the request could not
      be built or sent), or a response with a status code and body. */
  datatype Exchange = NoResponse(message: string) | Response(status: int, body: string)

  datatype HttpError =
    | TransportError(message: string)
    | InvalidStatus(status: int, url: string, body: string)

  /** `do`: a status outside 200..226 is an error carrying the status, the
      URL and the body; the response is returned whenever there was one,
      even with the error. */
  function Do(o: ObjectApi, r: ApiRequest, exchange: Exchange): (result: (Option<int>, Option<HttpError>))
    ensures exchange.NoResponse? ==> result == (None, Some(TransportError(exchange.message)))
    ensures exchange.Response? ==> result.0 == Some(exchange.status)
    ensures exchange.Response? ==> (result.1.None? <==> 200 <= exchange.status <= 226)
    ensures exchange.Response? && result.1.Some? ==>
      result.1.value == InvalidStatus(exchange.status, BuildRequestURL(o, r), exchange.body)
  {
    match exchange
    case NoResponse(message) => (None, Some(TransportError(message)))
    case Response(status, body) =>
      if status < 200 || status > 226 then (Some(status), Some(InvalidStatus(status, BuildRequestURL(o, r), body)))
      else (Some(status), None)
  }

  // ---------------------------------------------------------------------
  // Queries

  /** A selector as sent to the server: the bare label for Exists, label,
      operator and value otherwise. */
  function SelectorString(selector: LabelSelector): string
  {
    if selector.operator == Exists then selector.key else selector.key + selector.operator + selector.value
  }

  function SelectorStrings(selectors: seq<LabelSelector>): (r: seq<string>)
    ensures |r| == |selectors|
    ensures forall i :: 0 <= i < |selectors| ==> r[i] == SelectorString(selectors[i])
  {
    if selectors == [] then []
    else SelectorStrings(selectors[..|selectors| - 1]) + [SelectorString(selectors[|selectors| - 1])]
  }

  lemma SelectorStringExamples()
    ensures SelectorString(LabelSelector("app", "", Exists)) == "app"
    ensures SelectorString(LabelSelector("app", "web", Equals)) == "app%3Dweb"
    ensures SelectorString(LabelSelector("tier", "3", LessThan)) == "tierlt3"
  {
  }

  /** Adds every selector under `key`, in order. */
  method AddSelectors(q0: Values, key: string, selectors: seq<LabelSelector>) returns (q: Values)
    ensures Lookup(q, key) == Lookup(q0, key) + SelectorStrings(selectors)
    ensures forall k :: k != key ==> Lookup(q, k) == Lookup(q0, k)
  {
    q := q0;
    var i := 0;
    while i < |selectors|
      invariant 0 <= i <= |selectors|
      invariant Lookup(q, key) == Lookup(q0, key) + SelectorStrings(selectors[..i])
      invariant forall k :: k != key ==> Lookup(q, k) == Lookup(q0, k)
    {
      assert selectors[..i + 1][..i] == selectors[..i];
      q := Add(q, key, SelectorString(selectors[i]));
      i := i + 1;
    }
    assert selectors[..i] == selectors;
  }

  /** The query of Watch: `watch=1`, one `labelSelector` per selector, and
      a field selector on the name when a name is given. */
  method WatchQuery(name: string, selectors: seq<LabelSelector>) returns (q: Values)
    ensures Lookup(q, "watch") == ["1"]
    ensures Lookup(q, "labelSelector") == SelectorStrings(selectors)
    ensures Lookup(q, "fieldSelector") == (if name != "" then ["metadata.name" + Equals + name] else [])
    ensures forall k :: k != "watch" && k != "labelSelector" && k != "fieldSelector" ==> Lookup(q, k) == []
  {
    q := Set(NoValues, "watch", "1");
    q := AddSelectors(q, "labelSelector", selectors);
    if name != "" {
      q := Add(q, "fieldSelector", "metadata.name" + Equals + name);
    }
  }

  /** The query of List as written: each selector is added under the key
      `labelSelector=`, which is not the parameter the server reads. */
  method ListQueryAsWritten(selectors: seq<LabelSelector>) returns (q: Values)
    ensures Lookup(q, "labelSelector=") == SelectorStrings(selectors)
    ensures Lookup(q, "labelSelector") == []
  {
    q := AddSelectors(NoValues, "labelSelector=", selectors);
  }

  /** The query of List with the parameter Watch uses: the server sees the
      same label selectors for a List and a Watch with the same options. */
  method ListQuery(selectors: seq<LabelSelector>) returns (q: Values)
    ensures Lookup(q, "labelSelector") == SelectorStrings(selectors)
    ensures forall k :: k != "labelSelector" ==> Lookup(q, k) == []
  {
    q := AddSelectors(NoValues, "labelSelector", selectors);
  }

  /** The query of a patch: the field manager always, `force=1` only when
      forcing. */
  function PatchQuery(fieldManager: string, force: bool): (q: Values)
    ensures Lookup(q, "fieldManager") == [fieldManager]
    ensures Lookup(q, "force") == (if force then ["1"] else [])
    ensures forall k :: k != "fieldManager" && k != "force" ==> Lookup(q, k) == []
  {
    var q := Set(NoValues, "fieldManager", fieldManager);
    if force then Set(q, "force", "1") else q
  }

  /** The query of Delete: `force=1` only when forcing. */
  function DeleteQuery(force: bool): (q: Values)
    ensures Lookup(q, "force") == (if force then ["1"] else [])
    ensures forall k :: k != "force" ==> Lookup(q, k) == []
  {
    if force then Set(NoValues, "force", "1") else NoValues
  }

  // ---------------------------------------------------------------------
  // Requests

  const ApplyPatchContentType: string := "application/apply-patch+yaml"
  const MergePatchContentType: string := "application/merge-patch+json"

  /** A request with the content type it is sent with, if any. */
  datatype Call = Call(request: ApiRequest, contentType: Option<string>)

  function GetCall(namespace: string, name: string): Call
  {
    Call(ApiRequest("", namespace, name, NoValues), None)
  }

  function CreateCall(namespace: string): Call
  {
    Call(ApiRequest("POST", namespace, "", NoValues), None)
  }

  function PatchRequest(namespace: string, name: string, fieldManager: string, force: bool, contentType: string): Call
  {
    Call(ApiRequest("PATCH", namespace, name, PatchQuery(fieldManager, force)), Some(contentType))
  }

  function ApplyCall(namespace: string, name: string, fieldManager: string, force: bool): Call
  {
    PatchRequest(namespace, name, fieldManager, force, ApplyPatchContentType)
  }

  function PatchCall(namespace: string, name: string, fieldManager: string): Call
  {
    PatchRequest(namespace, name, fieldManager, false, MergePatchContentType)
  }

  function DeleteCall(namespace: string, name: string, force: bool): Call
  {
    Call(ApiRequest("DELETE", namespace, name, DeleteQuery(force)), None)
  }

  /** Apply and Patch are the same PATCH request but for the content type
      and the force flag: a merge patch never forces. */
  lemma ApplyAndPatchDiffer(namespace: string, name: string, fieldManager: string, force: bool)
    ensures ApplyCall(namespace, name, fieldManager, force).request.verb == "PATCH"
    ensures PatchCall(namespace, name, fieldManager).request.verb == "PATCH"
    ensures ApplyCall(namespace, name, fieldManager, force).contentType == Some(ApplyPatchContentType)
    ensures PatchCall(namespace, name, fieldManager).contentType == Some(MergePatchContentType)
    ensures Lookup(PatchCall(namespace, name, fieldManager).request.values, "force") == []
    ensures Lookup(ApplyCall(namespace, name, fieldManager, force).request.values, "fieldManager") == [fieldManager]
  {
  }

  /** A forced delete ends its URL with `?force=1`. */
  lemma ForcedDeleteURL(o: ObjectApi, namespace: string, name: string)
    ensures BuildRequestURL(o, DeleteCall(namespace, name, true).request)
         == o.serverUrl + "/" + RequestPath(o, DeleteCall(namespace, name, true).request) + "?force=1"
  {
    var q := DeleteQuery(true);
    assert q.pairs == [("force", "1")];
    assert Encode(q) == "force" + "=" + "1";
  }

  // ---------------------------------------------------------------------
  // Apply's event type

  /** The event type Apply reports, as written: it reads the response's
      status even when the patch produced no response, which panics. */
  function ApplyEventTypeAsWritten(status: Option<int>): (r: Result<string, string>)
    ensures status.None? <==> r.Err?
  {
    match status
    case None => Err("invalid memory address or nil pointer dereference")
    case Some(code) => Ok(if code == 201 then EventTypeAdded else EventTypeModified)
  }

  /** A request that never reached the server makes Apply panic. */
  lemma ApplyWithoutResponsePanicsAsWritten(namespace: string, name: string, fieldManager: string,
                                            force: bool, o: ObjectApi, message: string)
    ensures var call := ApplyCall(namespace, name, fieldManager, force);
      ApplyEventTypeAsWritten(Do(o, call.request, NoResponse(message)).0).Err?
  {
  }

  /** The event type Apply reports: Added for 201 Created, Modified for any
      other response, none when there was no response. */
  function ApplyEventType(status: Option<int>): (r: Option<string>)
    ensures r.Some? <==> status.Some?
    ensures status == Some(201) ==> r == Some(EventTypeAdded)
    ensures status.Some? && status.value != 201 ==> r == Some(EventTypeModified)
  {
    match status
    case None => None
    case Some(code) => Some(if code == 201 then EventTypeAdded else EventTypeModified)
  }

  /** Apply reports an event type exactly when it got a response, a type a
      watch stream accepts, and it agrees with the written mapping wherever
      that does not panic. */
  lemma ApplyEventTypeIsKnown(o: ObjectApi, r: ApiRequest, exchange: Exchange)
    ensures var status := Do(o, r, exchange).0;
      && (ApplyEventType(status).Some? <==> exchange.Response?)
      && (ApplyEventType(status).Some? ==> KnownEventType(ApplyEventType(status).value))
      && (ApplyEventTypeAsWritten(status).Ok? ==> ApplyEventType(status) == Some(ApplyEventTypeAsWritten(status).value))
  {
  }

  // ---------------------------------------------------------------------
  // Watch

  /** Watch: build the watch query, make a watcher that resumes from the
      options' resource version and connect it; `server` stands for the
      server's answers to the watcher's requests. */
  method Watch(o: ObjectApi, namespace: string, name: string, opts: ListOptions, server: seq<Response>)
    returns (w: Result<Watcher, string>)
    ensures server == [] ==> w == Err(NoAnswer)
    ensures server != [] && server[0].Refused? ==> w == Err(server[0].message)
    ensures server != [] && server[0].Accepted? ==> w.Ok?
    ensures w.Ok? ==>
      && w.value.live && w.value.body == server[0].body && w.value.server == server[1..]
      && w.value.resourceVersion == opts.resourceVersion
      && |w.value.sent| == 1
      && w.value.sent[0].gvr == o.gvr && w.value.sent[0].subresource == o.subresource
      && w.value.sent[0].verb == ""
      && w.value.sent[0].namespace == namespace && w.value.sent[0].name == ""
      && Lookup(w.value.sent[0].values, "watch") == ["1"]
      && Lookup(w.value.sent[0].values, "labelSelector") == SelectorStrings(opts.labelSelector)
      && Lookup(w.value.sent[0].values, "fieldSelector")
           == (if name != "" then ["metadata.name" + Equals + name] else [])
      && Lookup(w.value.sent[0].values, "resourceVersion")
           == (if opts.resourceVersion != "" then [opts.resourceVersion] else [])
      && (forall k :: k != "watch" && k != "labelSelector" && k != "fieldSelector" && k != "resourceVersion" ==>
            Lookup(w.value.sent[0].values, k) == [])
    ensures w.Ok? ==> fresh(w.value)
  {
    var q := WatchQuery(name, opts.labelSelector);
    var req := ResourceRequest(o.gvr, o.subresource, "", namespace, "", q);
    var watcher := new Watcher(req, opts.resourceVersion, server);
    ghost var start := watcher.State();
    var err := watcher.DoWatch();
    if err.Some? {
      return Err(err.value);
    }
    ResumedWatchQuery(q, name, opts, ResumeRequest(start).values);
    return Ok(watcher);
  }

  /** The query of the first watch request: the watch query with the
      options' resume token written in when there is one. */
  lemma ResumedWatchQuery(q: Values, name: string, opts: ListOptions, sent: Values)
    requires Lookup(q, "watch") == ["1"]
    requires Lookup(q, "labelSelector") == SelectorStrings(opts.labelSelector)
    requires Lookup(q, "fieldSelector") == (if name != "" then ["metadata.name" + Equals + name] else [])
    requires forall k :: k != "watch" && k != "labelSelector" && k != "fieldSelector" ==> Lookup(q, k) == []
    requires opts.resourceVersion != "" ==> Lookup(sent, "resourceVersion") == [opts.resourceVersion]
    requires opts.resourceVersion == "" ==> sent == q
    requires forall k :: k != "resourceVersion" ==> Lookup(sent, k) == Lookup(q, k)
    ensures Lookup(sent, "watch") == ["1"]
    ensures Lookup(sent, "labelSelector") == SelectorStrings(opts.labelSelector)
    ensures Lookup(sent, "fieldSelector") == (if name != "" then ["metadata.name" + Equals + name] else [])
    ensures Lookup(sent, "resourceVersion") == (if opts.resourceVersion != "" then [opts.resourceVersion] else [])
    ensures forall k :: k != "watch" && k != "labelSelector" && k != "fieldSelector" && k != "resourceVersion" ==>
      Lookup(sent, k) == []
  {
    assert Lookup(sent, "watch") == Lookup(q, "watch");
    assert Lookup(sent, "labelSelector") == Lookup(q, "labelSelector");
    assert Lookup(sent, "fieldSelector") == Lookup(q, "fieldSelector");
    if opts.resourceVersion == "" {
      assert Lookup(q, "resourceVersion") == [];
    }
  }
}
