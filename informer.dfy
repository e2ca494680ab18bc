/** Indexers and the key stream that feeds a controller
    (pkg/controller/informer.go): an indexer maps an object to a work-queue
    key, "" meaning "no key", and the index loop forwards the non-empty keys
    of a watch's events. */
module Informer {
  import opened Types
  import opened Util

  type Indexer = Obj -> string

  /** A Go map read: the value under `key`, or "" when it is absent. */
  function LabelValue(labels: map<string, string>, key: string): string
  {
    if key in labels then labels[key] else ""
  }

  /** The key the label indexer derives from one object: none when the
      label `labelName` is absent or empty, otherwise the label's value
      qualified by the object's namespace. */
  function LabelKey(labelName: string, item: Obj): (key: string)
    ensures key == "" <==> labelName !in item.labels || item.labels[labelName] == ""
    ensures key != "" ==> key == GetKey(item.namespace, item.labels[labelName])
  {
    var value := LabelValue(item.labels, labelName);
    if value == "" then ""
    else
      GetKeyShape(item.namespace, value);
      GetKey(item.namespace, value)
  }

  /** The indexer reading the label `labelName`. */
  function KeyFromLabel(labelName: string): Indexer
  {
    item => LabelKey(labelName, item)
  }

  /** The keys the index loop forwards for `events`: each event's key, in
      order, with empty keys dropped. */
  function IndexKeys(events: seq<Event>, indexer: Indexer): (keys: seq<string>)
    ensures |keys| <= |events|
    ensures forall i :: 0 <= i < |keys| ==> keys[i] != ""
    ensures (forall i :: 0 <= i < |events| ==> indexer(events[i].obj) != "") ==> |keys| == |events|
  {
    if events == [] then []
    else
      var init := events[..|events| - 1];
      var key := indexer(events[|events| - 1].obj);
      assert forall i :: 0 <= i < |init| ==> init[i] == events[i];
      IndexKeys(init, indexer) + (if key == "" then [] else [key])
  }

  /** The index loop over the events of a watch. */
  method IndexChan(events: seq<Event>, indexer: Indexer) returns (keys: seq<string>)
    ensures keys == IndexKeys(events, indexer)
  {
    keys := [];
    var i := 0;
    while i < |events|
      invariant 0 <= i <= |events| && keys == IndexKeys(events[..i], indexer)
    {
      var key := indexer(events[i].obj);
      assert events[..i + 1][..i] == events[..i];
      if key != "" {
        keys := keys + [key];
      }
      i := i + 1;
    }
    assert events[..i] == events;
  }

  /** Indexing a stream in two stretches indexes each on its own. */
  lemma {:induction false} IndexKeysAppend(a: seq<Event>, b: seq<Event>, indexer: Indexer)
    ensures IndexKeys(a + b, indexer) == IndexKeys(a, indexer) + IndexKeys(b, indexer)
  {
    if b == [] {
      assert a + b == a;
    } else {
      var b' := b[..|b| - 1];
      assert (a + b)[..|a + b| - 1] == a + b';
      assert (a + b)[|a + b| - 1] == b[|b| - 1];
      IndexKeysAppend(a, b', indexer);
    }
  }

  /** Every forwarded key is the key of some event, and every event with a
      non-empty key has its key forwarded. */
  lemma {:induction false} IndexKeysExact(events: seq<Event>, indexer: Indexer, k: string)
    ensures k in IndexKeys(events, indexer) <==>
      k != "" && exists i :: 0 <= i < |events| && indexer(events[i].obj) == k
  {
    if events != [] {
      var init := events[..|events| - 1];
      IndexKeysExact(init, indexer, k);
      assert forall i :: 0 <= i < |init| ==> init[i] == events[i];
      if k != "" && exists i :: 0 <= i < |events| && indexer(events[i].obj) == k {
        var i :| 0 <= i < |events| && indexer(events[i].obj) == k;
        if i < |init| {
          assert indexer(init[i].obj) == k;
        }
      }
    }
  }

  /** The identity indexer the plain controller uses yields a key for every
      object with a name, so it forwards every event. */
  lemma IdentityIndexerKeepsNamed(events: seq<Event>)
    requires forall i :: 0 <= i < |events| ==> events[i].obj.name != ""
    ensures |IndexKeys(events, GetKeyForObject)| == |events|
  {
    forall i | 0 <= i < |events| ensures GetKeyForObject(events[i].obj) != "" {
      GetKeyShape(events[i].obj.namespace, events[i].obj.name);
    }
  }

  /** The label indexer drops an object without the label and keys an
      object labelled `owner: web` in namespace `ns` as `ns/web`. */
  lemma LabelIndexerExample()
    ensures KeyFromLabel("owner")(Obj("ns", "pod-1", map["app" := "x"], "1")) == ""
    ensures KeyFromLabel("owner")(Obj("ns", "pod-1", map["owner" := ""], "1")) == ""
    ensures KeyFromLabel("owner")(Obj("ns", "pod-1", map["owner" := "web"], "1")) == "ns/web"
  {
  }
}
