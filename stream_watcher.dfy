/** The stream watcher of the earlier client generation (pkg/stream.go): it
    decodes watch events from a response body, rejects unknown event types,
    and forwards the decoded events until the first error, after which it
    stops itself and closes its output. */
module StreamWatchers {
  import opened Types
  import opened Watchers

  /** The event types a watch stream may carry. */
  predicate KnownEventType(t: string)
  {
    t == EventTypeAdded || t == EventTypeModified || t == EventTypeDeleted || t == EventTypeError
  }

  /** One Decode call on the unread frames: the decoder's error unchanged
      (EOF at the end of the body), an event of a known type, or an error
      naming the unknown type. */
  function Decode(frames: seq<Frame>): (r: Result<Event, string>)
    ensures r.Ok? <==> frames != [] && frames[0].Object? && KnownEventType(frames[0].event.eventType)
    ensures r.Ok? ==> r.value == frames[0].event
    ensures frames == [] ==> r == Err(EOF)
    ensures frames != [] && frames[0].Garbled? ==> r == Err(frames[0].message)
    ensures frames != [] && frames[0].Object? && !KnownEventType(frames[0].event.eventType) ==>
      r == Err("got invalid Watch event type: " + frames[0].event.eventType)
  {
    if frames == [] then Err(EOF)
    else
      match frames[0]
      case Garbled(message) => Err(message)
      case Object(e) =>
        if e.eventType in [EventTypeAdded, EventTypeModified, EventTypeDeleted, EventTypeError] then Ok(e)
        else Err("got invalid Watch event type: " + e.eventType)
  }

  /** The frames a Decode call leaves: a decoded object is consumed, a
      rejected frame is not. */
  function AfterDecode(frames: seq<Frame>): (rest: seq<Frame>)
    ensures frames != [] && frames[0].Object? ==> rest == frames[1..]
    ensures frames == [] || frames[0].Garbled? ==> rest == frames
  {
    if frames != [] && frames[0].Object? then frames[1..] else frames
  }

  /** The events the receive loop forwards: those decoded before the first
      error. */
  function Emitted(frames: seq<Frame>): (events: seq<Event>)
    ensures |events| <= |frames|
    decreases |frames|
  {
    if Decode(frames).Err? then [] else [Decode(frames).value] + Emitted(frames[1..])
  }

  /** The error that ends the receive loop. */
  function EndingError(frames: seq<Frame>): string
    decreases |frames|
  {
    if Decode(frames).Err? then Decode(frames).error else EndingError(frames[1..])
  }

  /** One turn of the receive loop: an error ends the forwarded events,
      a decoded event is followed by those of the remaining frames. */
  lemma EmittedStep(frames: seq<Frame>)
    ensures Decode(frames).Err? ==> Emitted(frames) == [] && EndingError(frames) == Decode(frames).error
    ensures Decode(frames).Ok? ==>
      && Emitted(frames) == [Decode(frames).value] + Emitted(AfterDecode(frames))
      && EndingError(frames) == EndingError(AfterDecode(frames))
  {
  }

  /** The forwarded events are the leading frames, all of a known type, in
      body order; the frame after them is the first that fails to decode. */
  lemma {:induction false} EmittedIsDecodedPrefix(frames: seq<Frame>)
    ensures forall i :: 0 <= i < |Emitted(frames)| ==>
      frames[i] == Object(Emitted(frames)[i]) && KnownEventType(Emitted(frames)[i].eventType)
    ensures Decode(frames[|Emitted(frames)|..]).Err?
    ensures Decode(frames[|Emitted(frames)|..]).error == EndingError(frames)
    decreases |frames|
  {
    if Decode(frames).Ok? {
      EmittedIsDecodedPrefix(frames[1..]);
      assert frames[|Emitted(frames)|..] == frames[1..][|Emitted(frames[1..])|..];
    }
  }

  /** Each known type is accepted and any other type is rejected. */
  lemma DecodeExamples(o: Obj)
    ensures Decode([Object(Event(EventTypeAdded, o))]) == Ok(Event(EventTypeAdded, o))
    ensures Decode([Object(Event(EventTypeError, o))]).Ok?
    ensures Decode([Object(Event("BOOKMARK", o))]) == Err("got invalid Watch event type: BOOKMARK")
  {
    assert "got invalid Watch event type: " + "BOOKMARK" == "got invalid Watch event type: BOOKMARK";
  }

  const DecodeFailureLog: string := "k8s-client-go: unable to decode an event from the Watch stream: "

  /** The line the receive loop logs for the error that ended it: nothing
      once Stop was called or at a normal EOF. */
  function EndLog(stopping: bool, err: string): (lines: seq<string>)
    ensures |lines| <= 1
    ensures lines != [] <==> !stopping && err != EOF
  {
    if stopping || err == EOF then [] else [DecodeFailureLog + err]
  }

  class StreamWatcher {
    /** The unread frames of the response body. */
    var frames: seq<Frame>
    var stopped: bool
    /** How many times the body reader was closed. */
    var closes: nat
    /** The events sent down the result channel, in order. */
    var result: seq<Event>
    var resultClosed: bool
    var logged: seq<string>

    constructor (frames: seq<Frame>)
      ensures this.frames == frames
      ensures !stopped && closes == 0 && result == [] && !resultClosed && logged == []
    {
      this.frames := frames;
      stopped, closes, result, resultClosed, logged := false, 0, [], false, [];
    }

    /** Stops the watcher: the first call marks it stopped and closes the
        reader, later calls do nothing. */
    method Stop()
      modifies this
      ensures stopped
      ensures closes == old(closes) + (if old(stopped) then 0 else 1)
      ensures frames == old(frames) && result == old(result)
      ensures resultClosed == old(resultClosed) && logged == old(logged)
    {
      if !stopped {
        stopped := true;
        closes := closes + 1;
      }
    }

    /** Whether Stop has been called. */
    function Stopping(): (s: bool)
      reads this
      ensures s <==> stopped
    {
      stopped
    }

    method DecodeNext() returns (r: Result<Event, string>)
      modifies this
      ensures r == Decode(old(frames)) && frames == AfterDecode(old(frames))
      ensures stopped == old(stopped) && closes == old(closes) && result == old(result)
      ensures resultClosed == old(resultClosed) && logged == old(logged)
    {
      r := Decode(frames);
      frames := AfterDecode(frames);
    }

    /** The receive loop: forward decoded events until the first error, log
        that error unless it is EOF or Stop was called, then stop and close
        the output. */
    method Receive()
      modifies this
      ensures result == old(result) + Emitted(old(frames))
      ensures logged == old(logged) + EndLog(old(stopped), EndingError(old(frames)))
      ensures stopped && resultClosed
      ensures closes == old(closes) + (if old(stopped) then 0 else 1)
    {
      ghost var done: seq<Event> := [];
      while true
        invariant result == old(result) + done
        invariant done + Emitted(frames) == Emitted(old(frames))
        invariant EndingError(frames) == EndingError(old(frames))
        invariant stopped == old(stopped) && closes == old(closes) && logged == old(logged)
        decreases |frames|
      {
        ghost var before := frames;
        EmittedStep(before);
        var r := DecodeNext();
        if r.Err? {
          assert done == Emitted(old(frames)) && r.error == EndingError(old(frames));
          logged := logged + EndLog(Stopping(), r.error);
          break;
        }
        ContinueTurn(done, r.value, before, frames);
        result := result + [r.value];
        done := done + [r.value];
      }
      Stop();
      resultClosed := true;
    }
  }

  /** A decoded event moves from the frames still to read to the events
      already forwarded. */
  lemma ContinueTurn(done: seq<Event>, e: Event, before: seq<Frame>, after: seq<Frame>)
    requires Decode(before) == Ok(e) && after == AfterDecode(before)
    ensures (done + [e]) + Emitted(after) == done + Emitted(before)
    ensures EndingError(after) == EndingError(before)
  {
    EmittedStep(before);
  }

  /** Stopping twice closes the reader once. */
  method StopTwice() returns (closes: nat, stopped: bool)
    ensures closes == 1 && stopped
  {
    var w := new StreamWatcher([]);
    w.Stop();
    w.Stop();
    closes, stopped := w.closes, w.Stopping();
  }
}
