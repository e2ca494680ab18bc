/** The filtered view a cache-backed API hands out as a watch
    (pkg/apis/pipe_watcher.go): it forwards, in order, the events of its
    input whose object matches its namespace and label selectors. */
module PipeWatchers {
  import opened Types
  import opened LocalMatcher

  /** The events `run` forwards from `events`. */
  function Forwarded(namespace: string, selectors: seq<LabelSelector>, events: seq<Event>): (out: seq<Event>)
    ensures |out| <= |events|
  {
    if events == [] then []
    else
      var last := events[|events| - 1];
      Forwarded(namespace, selectors, events[..|events| - 1])
        + (if Matches(namespace, selectors, last.obj) then [last] else [])
  }

  /** The positions of the events whose object matches, in increasing
      order. */
  function MatchingPositions(namespace: string, selectors: seq<LabelSelector>, events: seq<Event>): seq<nat>
  {
    if events == [] then []
    else
      MatchingPositions(namespace, selectors, events[..|events| - 1])
        + (if Matches(namespace, selectors, events[|events| - 1].obj) then [|events| - 1] else [])
  }

  /** The forwarded events are exactly the matching input events, in input
      order: the k-th forwarded event is the input event at the k-th
      matching position, the positions increase, and a position is among
      them exactly when its event matches. */
  lemma {:induction false} ForwardedIsMatchingSubsequence(namespace: string, selectors: seq<LabelSelector>,
                                                          events: seq<Event>)
    ensures var out := Forwarded(namespace, selectors, events);
      var at := MatchingPositions(namespace, selectors, events);
      && |at| == |out|
      && (forall k :: 0 <= k < |at| ==> at[k] < |events| && out[k] == events[at[k]])
      && (forall k, l :: 0 <= k < l < |at| ==> at[k] < at[l])
      && (forall j :: 0 <= j < |events| ==> (j in at <==> Matches(namespace, selectors, events[j].obj)))
  {
    if events != [] {
      var init := events[..|events| - 1];
      ForwardedIsMatchingSubsequence(namespace, selectors, init);
      assert forall j :: 0 <= j < |init| ==> init[j] == events[j];
    }
  }

  /** An event is forwarded exactly when it occurs in the input with a
      matching object. */
  lemma ForwardedMembership(namespace: string, selectors: seq<LabelSelector>, events: seq<Event>, e: Event)
    ensures e in Forwarded(namespace, selectors, events) <==> e in events && Matches(namespace, selectors, e.obj)
  {
    ForwardedIsMatchingSubsequence(namespace, selectors, events);
    var out := Forwarded(namespace, selectors, events);
    var at := MatchingPositions(namespace, selectors, events);
    if e in out {
      var k :| 0 <= k < |out| && out[k] == e;
      assert events[at[k]] == e;
    }
    if e in events && Matches(namespace, selectors, e.obj) {
      var j :| 0 <= j < |events| && events[j] == e;
      var k :| 0 <= k < |at| && at[k] == j;
      assert out[k] == e;
    }
  }

  /** A view of one namespace drops the events of another. */
  lemma OtherNamespaceDropped(o1: Obj, o2: Obj)
    requires o1.namespace == "ns1" && o2.namespace == "ns2"
    ensures Forwarded("ns1", [], [Event(EventTypeAdded, o1), Event(EventTypeAdded, o2)]) == [Event(EventTypeAdded, o1)]
  {
    var events := [Event(EventTypeAdded, o1), Event(EventTypeAdded, o2)];
    assert events[..1] == [Event(EventTypeAdded, o1)];
    assert events[..1][..0] == [];
  }

  class PipeWatcher {
    const namespace: string
    const selectors: seq<LabelSelector>
    /** The events sent on the result channel and not yet received. */
    var result: seq<Event>

    constructor (namespace: string, selectors: seq<LabelSelector>)
      ensures this.namespace == namespace && this.selectors == selectors && result == []
    {
      this.namespace, this.selectors := namespace, selectors;
      result := [];
    }

    /** `run`, fed with the events its input channel delivers: each matching
        event is sent on the result channel. */
    method Run(input: seq<Event>)
      modifies this
      ensures result == old(result) + Forwarded(namespace, selectors, input)
    {
      var i := 0;
      while i < |input|
        invariant 0 <= i <= |input|
        invariant result == old(result) + Forwarded(namespace, selectors, input[..i])
      {
        assert input[..i + 1][..i] == input[..i];
        if Matches(namespace, selectors, input[i].obj) {
          result := result + [input[i]];
        }
        i := i + 1;
      }
      assert input[..i] == input;
    }

    /** Receives the next forwarded event; the error is always nil. */
    method Next() returns (e: Event, err: Option<string>)
      requires result != []
      modifies this
      ensures e == old(result)[0] && result == old(result)[1..]
      ensures err == None
    {
      e := result[0];
      result := result[1..];
      err := None;
    }

    /** The watcher never has an error. */
    function Error(): (err: Option<string>)
      ensures err.None?
    {
      None
    }

    /** Stop does nothing. */
    method Stop()
      ensures unchanged(this)
    {
    }
  }

  /** Events forwarded by `run` come out of Next in order and without an
      error. */
  method ForwardThenReceive(o1: Obj, o2: Obj) returns (first: Event, err: Option<string>, error: Option<string>)
    requires o1.namespace == "ns1" && o2.namespace == "ns2"
    ensures first == Event(EventTypeAdded, o1) && err == None && error == None
  {
    var p := new PipeWatcher("ns1", []);
    OtherNamespaceDropped(o1, o2);
    p.Run([Event(EventTypeAdded, o1), Event(EventTypeAdded, o2)]);
    first, err := p.Next();
    error := p.Error();
  }
}
