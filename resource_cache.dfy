/** The watch-fed cache (pkg/apis/resource_cache.go): a map from identity
    key to object, bootstrapped from a List and kept current by the events of
    a watch, with every processed event fanned out to registered listeners.
    Each critical section of the source is one atomic method here. */
module Cache {
  import opened Types
  import opened Util

  // ---------------------------------------------------------------------
  // Specification of the index

  /** One event applied to the index: DELETED removes the object's key, any
      other type (ADDED, MODIFIED, ERROR, or an unrecognised one) stores the
      object under it. */
  function ApplyEvent(items: map<string, Obj>, e: Event): (r: map<string, Obj>)
    ensures e.eventType == EventTypeDeleted ==> GetKeyForObject(e.obj) !in r
    ensures e.eventType != EventTypeDeleted ==>
      GetKeyForObject(e.obj) in r && r[GetKeyForObject(e.obj)] == e.obj
  {
    var key := GetKeyForObject(e.obj);
    if e.eventType == EventTypeDeleted then items - {key} else items[key := e.obj]
  }

  /** Applying an event leaves every other key's entry as it was. */
  lemma ApplyEventFrame(items: map<string, Obj>, e: Event, k: string)
    requires k != GetKeyForObject(e.obj)
    ensures k in ApplyEvent(items, e) <==> k in items
    ensures k in items ==> ApplyEvent(items, e)[k] == items[k]
  {
  }

  /** The index after applying `events` in order, starting from `items`. */
  function Fold(items: map<string, Obj>, events: seq<Event>): map<string, Obj>
  {
    if events == [] then items
    else ApplyEvent(Fold(items, events[..|events| - 1]), events[|events| - 1])
  }

  /** Folding two stretches of events one after the other is folding their
      concatenation. */
  lemma {:induction false} FoldAppend(items: map<string, Obj>, a: seq<Event>, b: seq<Event>)
    ensures Fold(items, a + b) == Fold(Fold(items, a), b)
  {
    if b == [] {
      assert a + b == a;
    } else {
      var b' := b[..|b| - 1];
      assert (a + b)[..|a + b| - 1] == a + b';
      FoldAppend(items, a, b');
    }
  }

  /** The last of `events` whose object has identity key `key`. */
  function LastEventFor(events: seq<Event>, key: string): (r: Option<Event>)
    ensures r.Some? ==> r.value in events && GetKeyForObject(r.value.obj) == key
  {
    if events == [] then None
    else
      var last := events[|events| - 1];
      if GetKeyForObject(last.obj) == key then Some(last)
      else
        var r := LastEventFor(events[..|events| - 1], key);
        assert r.Some? ==> r.value in events[..|events| - 1];
        r
  }

  /** After a sequence of events a key is present exactly when its last event
      is not a deletion, or when it has no event and was present before; its
      value is the object of that last event, or the old value. */
  lemma {:induction false} FoldAt(items: map<string, Obj>, events: seq<Event>, key: string)
    ensures LastEventFor(events, key).None? ==>
      (key in Fold(items, events) <==> key in items) &&
      (key in items ==> Fold(items, events)[key] == items[key])
    ensures LastEventFor(events, key).Some? ==>
      var e := LastEventFor(events, key).value;
      (key in Fold(items, events) <==> e.eventType != EventTypeDeleted) &&
      (e.eventType != EventTypeDeleted ==> Fold(items, events)[key] == e.obj)
  {
    if events != [] {
      var last := events[|events| - 1];
      if GetKeyForObject(last.obj) != key {
        FoldAt(items, events[..|events| - 1], key);
      }
    }
  }

  /** Every entry sits under its own object's key. */
  ghost predicate KeyedByIdentity(items: map<string, Obj>)
  {
    forall k :: k in items ==> GetKeyForObject(items[k]) == k
  }

  lemma {:induction false} FoldKeyedByIdentity(items: map<string, Obj>, events: seq<Event>)
    requires KeyedByIdentity(items)
    ensures KeyedByIdentity(Fold(items, events))
  {
    if events != [] {
      FoldKeyedByIdentity(items, events[..|events| - 1]);
    }
  }

  /** The index built from a List result: each item under its key, a later
      item with the same key overwriting an earlier one. */
  function Listed(list: seq<Obj>): map<string, Obj>
  {
    if list == [] then map[]
    else
      var last := list[|list| - 1];
      Listed(list[..|list| - 1])[GetKeyForObject(last) := last]
  }

  /** The listed items as ADDED events. */
  function AddedEvents(list: seq<Obj>): (events: seq<Event>)
    ensures |events| == |list|
    ensures forall j :: 0 <= j < |list| ==> events[j] == Event(EventTypeAdded, list[j])
  {
    if list == [] then [] else AddedEvents(list[..|list| - 1]) + [Event(EventTypeAdded, list[|list| - 1])]
  }

  /** Bootstrapping from a list is replaying its items as ADDED events on an
      empty index, so the last item listed under a key is the one kept. */
  lemma {:induction false} ListedIsFoldOfAdded(list: seq<Obj>)
    ensures Listed(list) == Fold(map[], AddedEvents(list))
    ensures KeyedByIdentity(Listed(list))
  {
    if list != [] {
      var init := list[..|list| - 1];
      ListedIsFoldOfAdded(init);
      assert AddedEvents(list)[..|list| - 1] == AddedEvents(init);
    }
  }

  // ---------------------------------------------------------------------
  // Replays delivered on registration

  predicate AllAdded(events: seq<Event>)
  {
    forall j :: 0 <= j < |events| ==> events[j].eventType == EventTypeAdded
  }

  /** `replay` is a snapshot of `snapshot` as the source sends it to a new
      listener: ADDED events only, one per entry, rebuilding exactly the
      snapshot. */
  ghost predicate IsReplayOf(replay: seq<Event>, snapshot: map<string, Obj>)
  {
    AllAdded(replay) && |replay| == |snapshot| && Fold(map[], replay) == snapshot
  }

  /** Folding ADDED events yields the set of their keys. */
  lemma {:induction false} AddedFoldKeys(events: seq<Event>)
    requires AllAdded(events)
    ensures Fold(map[], events).Keys == set j | 0 <= j < |events| :: GetKeyForObject(events[j].obj)
  {
    if events != [] {
      var init := events[..|events| - 1];
      AddedFoldKeys(init);
      assert forall j :: 0 <= j < |init| ==> init[j] == events[j];
    }
  }

  /** A fold of ADDED events in which two events share a key has fewer
      entries than events. */
  lemma {:induction false} AddedFoldSize(events: seq<Event>)
    requires AllAdded(events)
    ensures |Fold(map[], events)| <= |events|
    ensures (exists a, b :: 0 <= a < b < |events| &&
              GetKeyForObject(events[a].obj) == GetKeyForObject(events[b].obj))
            ==> |Fold(map[], events)| < |events|
  {
    if events != [] {
      var n := |events| - 1;
      var init := events[..n];
      var last := events[n];
      AddedFoldSize(init);
      assert forall j :: 0 <= j < n ==> init[j] == events[j];
      var before := Fold(map[], init);
      var after := Fold(map[], events);
      assert after == before[GetKeyForObject(last.obj) := last.obj];
      if exists a, b :: 0 <= a < b < |events| &&
           GetKeyForObject(events[a].obj) == GetKeyForObject(events[b].obj)
      {
        var a, b :| 0 <= a < b < |events| &&
          GetKeyForObject(events[a].obj) == GetKeyForObject(events[b].obj);
        if b == n {
          AddedFoldKeys(init);
          assert GetKeyForObject(init[a].obj) in before.Keys;
          assert after.Keys == before.Keys;
        } else {
          assert GetKeyForObject(init[a].obj) == GetKeyForObject(init[b].obj);
        }
      }
    }
  }

  /** A replay never delivers two events for one key. */
  lemma ReplayHasNoDuplicates(replay: seq<Event>, snapshot: map<string, Obj>)
    requires IsReplayOf(replay, snapshot)
    ensures forall a, b :: 0 <= a < b < |replay| ==>
      GetKeyForObject(replay[a].obj) != GetKeyForObject(replay[b].obj)
  {
    AddedFoldSize(replay);
  }

  /** A replay delivers every entry of the snapshot. */
  lemma ReplayCoversSnapshot(replay: seq<Event>, snapshot: map<string, Obj>, key: string)
    requires IsReplayOf(replay, snapshot) && key in snapshot
    ensures exists j :: 0 <= j < |replay| && replay[j].obj == snapshot[key]
  {
    FoldAt(map[], replay, key);
    var e := LastEventFor(replay, key).value;
    var j :| 0 <= j < |replay| && replay[j] == e;
  }

  /** A listener that received a replay of the index as it stood after the
      first `joined` events, followed by every later event, rebuilds the
      current index exactly: no entry is missed and none counted twice. */
  lemma ReplayThenLive(initial: map<string, Obj>, applied: seq<Event>, joined: nat, replay: seq<Event>)
    requires joined <= |applied|
    requires IsReplayOf(replay, Fold(initial, applied[..joined]))
    ensures Fold(map[], replay + applied[joined..]) == Fold(initial, applied)
  {
    var before, live := applied[..joined], applied[joined..];
    SplitAt(applied, joined);
    FoldAppend(map[], replay, live);
    FoldAppend(initial, before, live);
  }

  lemma SplitAt(s: seq<Event>, i: nat)
    requires i <= |s|
    ensures s[..i] + s[i..] == s
  {
  }

  function Restrict(items: map<string, Obj>, keys: set<string>): map<string, Obj>
  {
    map k | k in keys && k in items :: items[k]
  }

  /** `replay` holds one ADDED event for each entry of `items` outside
      `todo`, and rebuilds exactly those entries. */
  ghost predicate PartialReplay(items: map<string, Obj>, todo: set<string>, replay: seq<Event>)
  {
    && todo <= items.Keys
    && AllAdded(replay)
    && |replay| == |items.Keys - todo|
    && Fold(map[], replay) == Restrict(items, items.Keys - todo)
  }

  /** Adding one more entry's ADDED event to a partial replay extends what
      it rebuilds by that entry. */
  lemma ReplayStep(items: map<string, Obj>, todo: set<string>, replay: seq<Event>, k: string)
    requires KeyedByIdentity(items) && k in todo
    requires PartialReplay(items, todo, replay)
    ensures PartialReplay(items, todo - {k}, replay + [Event(EventTypeAdded, items[k])])
  {
    var e := Event(EventTypeAdded, items[k]);
    var done := items.Keys - todo;
    assert items.Keys - (todo - {k}) == done + {k};
    FoldSnoc(map[], replay, e);
    assert Restrict(items, done)[k := items[k]] == Restrict(items, done + {k});
    assert AllAdded(replay + [e]) by {
      forall j | 0 <= j < |replay + [e]| ensures (replay + [e])[j].eventType == EventTypeAdded {
        if j < |replay| { assert (replay + [e])[j] == replay[j]; }
      }
    }
  }

  lemma RestrictAll(items: map<string, Obj>, keys: set<string>)
    requires keys == items.Keys
    ensures Restrict(items, keys) == items && |keys| == |items|
  {
  }

  /** The ADDED events sent to a new listener: one per entry of the index,
      in the map's (unspecified) iteration order. */
  method ReplayOf(items: map<string, Obj>) returns (replay: seq<Event>)
    requires KeyedByIdentity(items)
    ensures IsReplayOf(replay, items)
  {
    replay := [];
    var todo := items.Keys;
    assert Restrict(items, items.Keys - todo) == map[];
    while todo != {}
      invariant PartialReplay(items, todo, replay)
      decreases |todo|
    {
      var k :| k in todo;
      ReplayStep(items, todo, replay, k);
      replay := replay + [Event(EventTypeAdded, items[k])];
      todo := todo - {k};
    }
    RestrictAll(items, items.Keys - todo);
  }

  // ---------------------------------------------------------------------
  // The background loop's view of the watch

  /** The events a watch delivers before its first error. */
  function UntilError(results: seq<Result<Event, string>>): (events: seq<Event>)
    ensures |events| <= |results|
  {
    if results == [] || results[0].Err? then []
    else [results[0].value] + UntilError(results[1..])
  }

  predicate HasError(results: seq<Result<Event, string>>)
  {
    exists j :: 0 <= j < |results| && results[j].Err?
  }

  lemma {:induction false} UntilErrorStep(results: seq<Result<Event, string>>, i: nat)
    requires i < |results| && !HasError(results[..i])
    ensures results[i].Ok? ==> UntilError(results[..i + 1]) == UntilError(results[..i]) + [results[i].value]
    ensures results[i].Err? ==> UntilError(results) == UntilError(results[..i]) && HasError(results[..i + 1])
  {
    if i > 0 {
      assert results[1..][..i - 1] == results[..i][1..];
      assert results[1..][..i] == results[..i + 1][1..];
      var prefix := results[1..][..i - 1];
      assert !HasError(prefix) by {
        forall j | 0 <= j < |prefix| ensures prefix[j].Ok? {
          assert prefix[j] == results[..i][j + 1];
        }
      }
      UntilErrorStep(results[1..], i - 1);
    }
    assert results[..i + 1][i] == results[i];
  }

  /** A listener that joined after `joined` of the `applied` events was sent
      a replay of the index as it stood then, and has received every later
      event since. */
  ghost predicate ListenerInSync(initial: map<string, Obj>, applied: seq<Event>, joined: nat,
                                 replay: seq<Event>, received: seq<Event>)
  {
    && joined <= |applied|
    && IsReplayOf(replay, Fold(initial, applied[..joined]))
    && received == replay + applied[joined..]
  }

  /** Delivering a newly applied event keeps a listener in sync. */
  lemma ListenerInSyncStep(initial: map<string, Obj>, applied: seq<Event>, joined: nat,
                           replay: seq<Event>, received: seq<Event>, e: Event)
    requires ListenerInSync(initial, applied, joined, replay, received)
    ensures ListenerInSync(initial, applied + [e], joined, replay, received + [e])
  {
    assert (applied + [e])[..joined] == applied[..joined];
    assert (applied + [e])[joined..] == applied[joined..] + [e];
  }

  /** A listener sent a replay of the current index is in sync. */
  lemma JoinNow(initial: map<string, Obj>, applied: seq<Event>, replay: seq<Event>)
    requires IsReplayOf(replay, Fold(initial, applied))
    ensures ListenerInSync(initial, applied, |applied|, replay, replay)
  {
    assert applied[..|applied|] == applied;
    assert replay + applied[|applied|..] == replay;
  }

  /** Appending one event to the history applies it to the index. */
  lemma FoldSnoc(items: map<string, Obj>, events: seq<Event>, e: Event)
    ensures Fold(items, events + [e]) == ApplyEvent(Fold(items, events), e)
  {
    assert (events + [e])[..|events|] == events;
  }

  /** Each listener's log after one more delivery: what it had at the
      start, the events delivered so far, then the new one. */
  lemma DeliveredStep(start: seq<seq<Event>>, before: seq<seq<Event>>, after: seq<seq<Event>>,
                      events: seq<Event>, e: Event)
    requires |before| == |start| && |after| == |start|
    requires forall j :: 0 <= j < |before| ==> before[j] == start[j] + events
    requires forall j :: 0 <= j < |after| ==> after[j] == before[j] + [e]
    ensures forall j :: 0 <= j < |after| ==> after[j] == start[j] + (events + [e])
  {
    forall j | 0 <= j < |after|
      ensures after[j] == start[j] + (events + [e])
    {
      assert start[j] + events + [e] == start[j] + (events + [e]);
    }
  }

  // ---------------------------------------------------------------------
  // The cache

  class ResourceCache {
    /** The index, keyed by `namespace/name`. */
    var items: map<string, Obj>
    /** The handle of each registered listener, in registration order. */
    var listeners: seq<nat>
    /** The events delivered to each registered listener, in delivery order. */
    var received: seq<seq<Event>>
    /** How many times Stop was called on each registered listener. */
    var stops: seq<nat>
    var ready: bool

    /** The index the watch started from, and every event applied since. */
    ghost var initial: map<string, Obj>
    ghost var applied: seq<Event>
    /** For each listener: how many events had been applied when it
        registered, and the replay it was sent then. */
    ghost var joinedAt: seq<nat>
    ghost var replays: seq<seq<Event>>

    ghost predicate Valid()
      reads this
    {
      && |received| == |listeners|
      && |stops| == |listeners|
      && |joinedAt| == |listeners|
      && |replays| == |listeners|
      && KeyedByIdentity(initial)
      && items == Fold(initial, applied)
      && forall i :: 0 <= i < |listeners| ==>
           ListenerInSync(initial, applied, joinedAt[i], replays[i], received[i])
    }

    constructor (snapshot: map<string, Obj>)
      requires KeyedByIdentity(snapshot)
      ensures Valid()
      ensures items == snapshot && initial == snapshot && applied == []
      ensures listeners == [] && received == [] && stops == [] && !ready
    {
      items := snapshot;
      listeners, received, stops := [], [], [];
      ready := false;
      initial, applied := snapshot, [];
      joinedAt, replays := [], [];
    }

    function IsReady(): bool
      reads this
    {
      ready
    }

    /** Looks a key up in the index. */
    function Get(key: string): (r: Option<Obj>)
      reads this
      ensures r.Some? <==> key in items
      ensures r.Some? ==> r.value == items[key]
    {
      if key in items then Some(items[key]) else None
    }

    /** Every listener rebuilds the current index from what it received. */
    lemma ListenersSeeIndex(i: nat)
      requires Valid() && i < |listeners|
      ensures Fold(map[], received[i]) == items
    {
      ReplayThenLive(initial, applied, joinedAt[i], replays[i]);
    }

    /** Applies one watch event to the index, then delivers it to every
        registered listener in registration order. */
    method ProcessEvent(e: Event)
      requires Valid()
      modifies this
      ensures Valid()
      ensures items == ApplyEvent(old(items), e)
      ensures initial == old(initial) && applied == old(applied) + [e]
      ensures listeners == old(listeners) && stops == old(stops) && ready == old(ready)
      ensures |received| == |old(received)|
      ensures forall i :: 0 <= i < |received| ==> received[i] == old(received[i]) + [e]
    {
      var key := GetKeyForObject(e.obj);
      if e.eventType == EventTypeDeleted {
        items := items - {key};
      } else {
        items := items[key := e.obj];
      }
      applied := applied + [e];

      var delivered := received;
      var i := 0;
      while i < |listeners|
        invariant 0 <= i <= |listeners| && |delivered| == |listeners|
        invariant forall j :: 0 <= j < i ==> delivered[j] == received[j] + [e]
        invariant forall j :: i <= j < |listeners| ==> delivered[j] == received[j]
      {
        delivered := delivered[i := delivered[i] + [e]];
        i := i + 1;
      }
      FoldSnoc(initial, old(applied), e);
      forall j | 0 <= j < |listeners|
        ensures ListenerInSync(initial, applied, joinedAt[j], replays[j], delivered[j])
      {
        ListenerInSyncStep(initial, old(applied), joinedAt[j], replays[j], received[j], e);
      }
      received := delivered;
    }

    /** The failure branch of the background loop: the cache stops being
        ready and Stop is called once on every listener. */
    method StopListeners()
      requires Valid()
      modifies this
      ensures Valid()
      ensures !ready
      ensures |stops| == |old(stops)|
      ensures forall i :: 0 <= i < |stops| ==> stops[i] == old(stops[i]) + 1
      ensures items == old(items) && initial == old(initial) && applied == old(applied)
      ensures listeners == old(listeners) && received == old(received)
    {
      ready := false;
      var counts := stops;
      var i := 0;
      while i < |listeners|
        invariant 0 <= i <= |listeners| && |counts| == |listeners|
        invariant forall j :: 0 <= j < i ==> counts[j] == stops[j] + 1
        invariant forall j :: i <= j < |listeners| ==> counts[j] == stops[j]
      {
        counts := counts[i := counts[i] + 1];
        i := i + 1;
      }
      stops := counts;
    }

    /** The background loop fed with the successive results of the watch's
        Next: events are processed until the first error, which stops every
        listener and ends the loop. */
    method Run(results: seq<Result<Event, string>>)
      requires Valid()
      modifies this
      ensures Valid()
      ensures applied == old(applied) + UntilError(results)
      ensures items == Fold(old(items), UntilError(results))
      ensures ready == (old(ready) && !HasError(results))
      ensures initial == old(initial) && listeners == old(listeners)
      ensures |stops| == |old(stops)|
      ensures forall i :: 0 <= i < |stops| ==> stops[i] == old(stops[i]) + (if HasError(results) then 1 else 0)
      ensures |received| == |old(received)|
      ensures forall i :: 0 <= i < |received| ==> received[i] == old(received[i]) + UntilError(results)
    {
      var i := 0;
      ghost var done: seq<Event> := [];
      while i < |results|
        invariant 0 <= i <= |results|
        invariant Valid()
        invariant !HasError(results[..i]) && done == UntilError(results[..i])
        invariant initial == old(initial) && applied == old(applied) + done
        invariant listeners == old(listeners) && stops == old(stops) && ready == old(ready)
        invariant |received| == |old(received)|
        invariant forall j :: 0 <= j < |received| ==> received[j] == old(received[j]) + done
      {
        UntilErrorStep(results, i);
        if results[i].Err? {
          assert UntilError(results) == done && HasError(results);
          StopListeners();
          FoldAppend(initial, old(applied), done);
          return;
        }
        var e := results[i].value;
        Deliver(e, old(received), old(applied), done);
        done := done + [e];
        i := i + 1;
      }
      assert results[..i] == results;
      assert UntilError(results) == done && !HasError(results);
      FoldAppend(initial, old(applied), done);
    }

    /** One turn of the background loop: the event is processed, so it
        follows the events delivered so far in the history and in every
        listener's log. */
    method Deliver(e: Event, ghost start: seq<seq<Event>>, ghost history: seq<Event>, ghost done: seq<Event>)
      requires Valid() && applied == history + done
      requires |received| == |start| && forall j :: 0 <= j < |received| ==> received[j] == start[j] + done
      modifies this
      ensures Valid() && applied == history + (done + [e])
      ensures initial == old(initial) && listeners == old(listeners) && stops == old(stops) && ready == old(ready)
      ensures |received| == |start| && forall j :: 0 <= j < |received| ==> received[j] == start[j] + (done + [e])
    {
      ghost var before := received;
      ProcessEvent(e);
      DeliveredStep(start, before, received, done, e);
    }

    /** Replays the index to a new listener as ADDED events, in the map's
        (unspecified) iteration order, then appends the listener. */
    method RegisterListener(handle: nat)
      requires Valid()
      modifies this
      ensures Valid()
      ensures listeners == old(listeners) + [handle]
      ensures |received| == |listeners| && received[..|old(received)|] == old(received)
      ensures IsReplayOf(received[|received| - 1], items)
      ensures stops == old(stops) + [0]
      ensures items == old(items) && initial == old(initial) && applied == old(applied)
      ensures ready == old(ready)
    {
      assert KeyedByIdentity(items) by { FoldKeyedByIdentity(initial, applied); }
      var replay := ReplayOf(items);
      ghost var n := |listeners|;
      ghost var oldReceived := received;
      listeners := listeners + [handle];
      received := received + [replay];
      stops := stops + [0];
      joinedAt := joinedAt + [|applied|];
      replays := replays + [replay];
      forall j | 0 <= j < |listeners|
        ensures ListenerInSync(initial, applied, joinedAt[j], replays[j], received[j])
      {
        if j == n {
          JoinNow(initial, applied, replay);
        } else {
          assert received[j] == oldReceived[j] && joinedAt[j] == old(joinedAt)[j] && replays[j] == old(replays)[j];
        }
      }
    }
  }

  /** Builds a cache: List, index the items, start a watch from the list's
      resume token. `list` and `watchError` stand for the answers of the raw
      API's List and Watch; `watchCall` reports whether and how Watch was
      called. */
  method NewResourceCache(namespace: string, opts: ListOptions,
                          list: Result<ObjectList, string>, watchError: Option<string>)
    returns (cache: Result<ResourceCache, string>, watchCall: Option<(string, string, ListOptions)>)
    ensures list.Err? ==> cache == Err(list.error) && watchCall == None
    ensures list.Ok? ==>
      watchCall == Some((namespace, "", opts.(resourceVersion := list.value.resourceVersion)))
    ensures list.Ok? && watchError.Some? ==> cache == Err(watchError.value)
    ensures list.Ok? && watchError.None? ==> cache.Ok?
    ensures cache.Ok? ==>
      && fresh(cache.value)
      && cache.value.Valid()
      && cache.value.items == Listed(list.value.items)
      && cache.value.applied == []
      && cache.value.listeners == []
      && cache.value.ready
  {
    if list.Err? {
      return Err(list.error), None;
    }
    var listed := list.value.items;
    var index: map<string, Obj> := map[];
    var i := 0;
    while i < |listed|
      invariant 0 <= i <= |listed| && index == Listed(listed[..i])
    {
      assert listed[..i + 1][..i] == listed[..i];
      index := index[GetKeyForObject(listed[i]) := listed[i]];
      i := i + 1;
    }
    assert listed[..i] == listed;

    var watchOpts := opts.(resourceVersion := list.value.resourceVersion);
    watchCall := Some((namespace, "", watchOpts));
    if watchError.Some? {
      return Err(watchError.value), watchCall;
    }
    ListedIsFoldOfAdded(listed);
    var c := new ResourceCache(index);
    c.ready := true;
    cache := Ok(c);
  }

  /** Listing A and B, then watching MODIFIED A', DELETED B and ADDED C leaves
      exactly A' and C. */
  lemma BootstrapThenWatchExample()
    ensures
      var a := Obj("ns", "a", map[], "1");
      var a' := Obj("ns", "a", map[], "2");
      var b := Obj("ns", "b", map[], "1");
      var c := Obj("ns", "c", map[], "3");
      var events := [Event(EventTypeModified, a'), Event(EventTypeDeleted, b), Event(EventTypeAdded, c)];
      Fold(Listed([a, b]), events) == map["ns/a" := a', "ns/c" := c]
  {
    var a := Obj("ns", "a", map[], "1");
    var a' := Obj("ns", "a", map[], "2");
    var b := Obj("ns", "b", map[], "1");
    var c := Obj("ns", "c", map[], "3");
    var events := [Event(EventTypeModified, a'), Event(EventTypeDeleted, b), Event(EventTypeAdded, c)];
    var e1, e2, e3 := events[0], events[1], events[2];
    assert [a, b][..1] == [a] && [a][..0] == [];
    assert GetKeyForObject(a) == "ns/a" && GetKeyForObject(a') == "ns/a";
    assert GetKeyForObject(b) == "ns/b" && GetKeyForObject(c) == "ns/c";
    var listed := map["ns/a" := a, "ns/b" := b];
    assert Listed([a]) == map["ns/a" := a];
    assert Listed([a, b]) == listed;
    assert events == [e1] + [e2] + [e3];
    FoldSnoc(listed, [], e1);
    FoldSnoc(listed, [e1], e2);
    FoldSnoc(listed, [e1, e2], e3);
    assert [e1] + [e2] == [e1, e2] && [] + [e1] == [e1];
    assert Fold(listed, [e1]) == map["ns/a" := a', "ns/b" := b];
    assert Fold(listed, [e1, e2]) == map["ns/a" := a'];
  }
}
