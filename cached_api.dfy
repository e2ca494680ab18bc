/** The cache-backed object API (pkg/apis/cached_api.go): reads are answered
    from a resource cache, writes go to the raw API unchanged, and a watch
    is a filtered view fed by the cache. */
module CachedApis {
  import opened Types
  import opened Util
  import opened LocalMatcher
  import opened Cache
  import opened PipeWatchers
  import ApisApi

  /** The wrapper: the raw API and the cache, which is nil when building it
      failed. */
  datatype CachedApi = CachedApi(api: ApisApi.ObjectApi, cache: ResourceCache?)

  /** NewCachedAPI: the wrapper is returned together with the cache's error,
      whatever it is. `list` and `watchError` stand for the raw API's answers
      to the cache's List and Watch. */
  method NewCachedAPI(rawApi: ApisApi.ObjectApi, namespace: string, opts: ListOptions,
                      list: Result<ObjectList, string>, watchError: Option<string>)
    returns (c: CachedApi, err: Option<string>)
    ensures c.api == rawApi
    ensures err.None? <==> c.cache != null
    ensures list.Err? ==> err == Some(list.error)
    ensures list.Ok? && watchError.Some? ==> err == watchError
    ensures c.cache != null ==> c.cache.Valid() && c.cache.items == Listed(list.value.items)
  {
    var cache, _ := NewResourceCache(namespace, opts, list, watchError);
    if cache.Err? {
      return CachedApi(rawApi, null), Some(cache.error);
    }
    return CachedApi(rawApi, cache.value), None;
  }

  const NotFound: string := "Could not find object "

  /** Get: the cached object under the key of `namespace` and `name`, or the
      zero object and an error naming the key. */
  function Get(c: CachedApi, namespace: string, name: string): (r: (Obj, Option<string>))
    requires c.cache != null
    reads c.cache
    ensures r.1.None? <==> GetKey(namespace, name) in c.cache.items
    ensures r.1.None? ==> r.0 == c.cache.items[GetKey(namespace, name)]
    ensures r.1.Some? ==> r.0 == ZeroObj && r.1.value == NotFound + GetKey(namespace, name)
  {
    var key := GetKey(namespace, name);
    match c.cache.Get(key)
    case Some(item) => (item, None)
    case None => (ZeroObj, Some(NotFound + key))
  }

  /** What Get finds is filed under its own key: a cache built from a list
      and fed watch events never answers with an object of another key. */
  lemma GetFindsOwnKey(c: CachedApi, namespace: string, name: string)
    requires c.cache != null && c.cache.Valid()
    ensures Get(c, namespace, name).1.None? ==>
      GetKeyForObject(Get(c, namespace, name).0) == GetKey(namespace, name)
  {
    FoldKeyedByIdentity(c.cache.initial, c.cache.applied);
  }

  /** An object delivered by an ADDED or MODIFIED event is what Get returns
      for its namespace and name afterwards. */
  lemma GetAfterUpsert(items: map<string, Obj>, e: Event)
    requires e.eventType != EventTypeDeleted
    ensures ApplyEvent(items, e)[GetKey(e.obj.namespace, e.obj.name)] == e.obj
  {
  }

  /** List: every cached object that matches the namespace and the label
      selectors, each once, in the map's (unspecified) iteration order;
      `order` names the key each listed object was found under. The cache
      is only read. */
  method List(c: CachedApi, namespace: string, opts: ListOptions)
    returns (items: seq<Obj>, err: Option<string>, ghost order: seq<string>)
    requires c.cache != null
    ensures err == None
    ensures |order| == |items|
    ensures forall i :: 0 <= i < |items| ==> order[i] in c.cache.items && items[i] == c.cache.items[order[i]]
    ensures forall i, j :: 0 <= i < j < |order| ==> order[i] != order[j]
    ensures forall k :: k in order <==> k in c.cache.items && Matches(namespace, opts.labelSelector, c.cache.items[k])
    ensures forall o :: o in items ==> Matches(namespace, opts.labelSelector, o)
  {
    var index := c.cache.items;
    var todo := index.Keys;
    items, order := [], [];
    while todo != {}
      invariant todo <= index.Keys
      invariant |order| == |items|
      invariant forall i :: 0 <= i < |items| ==> order[i] in index && items[i] == index[order[i]]
      invariant forall i, j :: 0 <= i < j < |order| ==> order[i] != order[j]
      invariant forall k :: k in order <==> k in index && k !in todo && Matches(namespace, opts.labelSelector, index[k])
      decreases |todo|
    {
      var k :| k in todo;
      if Matches(namespace, opts.labelSelector, index[k]) {
        items := items + [index[k]];
        order := order + [k];
      }
      todo := todo - {k};
    }
    err := None;
  }

  /** The requests of the write operations: each is sent to the raw API
      with its arguments unchanged. */
  function Delete(c: CachedApi, namespace: string, name: string, force: bool): (ApisApi.ObjectApi, ApisApi.Call)
  {
    (c.api, ApisApi.DeleteCall(namespace, name, force))
  }

  function Create(c: CachedApi, namespace: string): (ApisApi.ObjectApi, ApisApi.Call)
  {
    (c.api, ApisApi.CreateCall(namespace))
  }

  function Apply(c: CachedApi, namespace: string, name: string, fieldManager: string, force: bool)
    : (ApisApi.ObjectApi, ApisApi.Call)
  {
    (c.api, ApisApi.ApplyCall(namespace, name, fieldManager, force))
  }

  function Patch(c: CachedApi, namespace: string, name: string, fieldManager: string): (ApisApi.ObjectApi, ApisApi.Call)
  {
    (c.api, ApisApi.PatchCall(namespace, name, fieldManager))
  }

  /** The sub-API of a subresource: the raw API's sub-API, over the same
      cache object. */
  function Subresource(c: CachedApi, subresource: string): CachedApi
  {
    CachedApi(ApisApi.Subresource(c.api, subresource), c.cache)
  }

  function Status(c: CachedApi): CachedApi
  {
    Subresource(c, "status")
  }

  /** A sub-API shares the cache: it answers every Get as its parent does,
      while its writes go to the raw API's sub-API with the parent's
      arguments, at the subresource's URL. */
  lemma SubresourceSharesCache(c: CachedApi, subresource: string, namespace: string, name: string,
                                fieldManager: string, force: bool)
    requires c.cache != null
    ensures Subresource(c, subresource).cache == c.cache
    ensures Get(Subresource(c, subresource), namespace, name) == Get(c, namespace, name)
    ensures Delete(Subresource(c, subresource), namespace, name, force)
         == (ApisApi.Subresource(c.api, subresource), Delete(c, namespace, name, force).1)
    ensures Create(Subresource(c, subresource), namespace)
         == (ApisApi.Subresource(c.api, subresource), Create(c, namespace).1)
    ensures Apply(Subresource(c, subresource), namespace, name, fieldManager, force)
         == (ApisApi.Subresource(c.api, subresource), Apply(c, namespace, name, fieldManager, force).1)
    ensures Patch(Subresource(c, subresource), namespace, name, fieldManager)
         == (ApisApi.Subresource(c.api, subresource), Patch(c, namespace, name, fieldManager).1)
    ensures Status(c).api.subresource == "status" && Status(c).cache == c.cache
  {
  }

  /** The filter of the view Watch hands out, as written: the method's
      parameters are declared (name, namespace) while callers pass
      (namespace, name), so the view filters on the name. */
  function ViewFilterAsWritten(namespace: string, name: string, opts: ListOptions): (string, seq<LabelSelector>)
  {
    var (nameParam, namespaceParam) := (namespace, name);
    (namespaceParam, opts.labelSelector)
  }

  /** The filter of the view: the namespace and the label selectors. */
  function ViewFilter(namespace: string, name: string, opts: ListOptions): (string, seq<LabelSelector>)
  {
    (namespace, opts.labelSelector)
  }

  /** A view asked for namespace `default` and object `web` drops the
      ADDED event of that very object as written, and forwards it as
      intended. */
  lemma SwappedViewDropsItsObjectAsWritten(o: Obj, opts: ListOptions)
    requires o.namespace == "default" && o.name == "web" && opts.labelSelector == []
    ensures var (ns, sel) := ViewFilterAsWritten("default", "web", opts);
      Forwarded(ns, sel, [Event(EventTypeAdded, o)]) == []
    ensures var (ns, sel) := ViewFilter("default", "web", opts);
      Forwarded(ns, sel, [Event(EventTypeAdded, o)]) == [Event(EventTypeAdded, o)]
  {
    assert [Event(EventTypeAdded, o)][..0] == [];
  }

  /** A view forwards exactly the events of the requested namespace that
      satisfy the selectors. */
  lemma ViewForwardsRequestedNamespace(namespace: string, name: string, opts: ListOptions, events: seq<Event>, e: Event)
    requires namespace != ""
    ensures var (ns, sel) := ViewFilter(namespace, name, opts);
      e in Forwarded(ns, sel, events) <==>
        e in events && e.obj.namespace == namespace && LabelMatch(opts.labelSelector, e.obj.labels)
  {
    ForwardedMembership(namespace, opts.labelSelector, events, e);
  }

  /** Watch: a view filtering on the requested namespace and selectors,
      registered with the cache as listener `handle`; the cache replays its
      index to it. The error is always nil. */
  method Watch(c: CachedApi, namespace: string, name: string, opts: ListOptions, handle: nat)
    returns (p: PipeWatcher, err: Option<string>)
    requires c.cache != null && c.cache.Valid()
    modifies c.cache
    ensures fresh(p) && (p.namespace, p.selectors) == ViewFilter(namespace, name, opts) && p.result == []
    ensures c.cache.Valid() && c.cache.listeners == old(c.cache.listeners) + [handle]
    ensures IsReplayOf(c.cache.received[|c.cache.received| - 1], c.cache.items)
    ensures c.cache.items == old(c.cache.items)
    ensures err == None
  {
    var cache := c.cache;
    cache.RegisterListener(handle);
    var (ns, sel) := ViewFilter(namespace, name, opts);
    p := new PipeWatcher(ns, sel);
    err := None;
  }
}
