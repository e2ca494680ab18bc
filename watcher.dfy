/** The reconnecting watch stream (pkg/apis/stream.go). A watch connection
    is a response body read frame by frame by a JSON decoder; when the body
    ends (EOF) the watcher asks the server again, resuming from the resource
    version of the last object it decoded. The server is a finite script of
    answers to successive requests, and a body is a finite script of frames
    whose end is EOF. */
module Watchers {
  import opened Types
  import opened Urls
  import opened ResourceRequests

  /** One decoder read: an event, or a frame the decoder rejects. A garbled
      frame stands for a JSON syntax error, which the decoder keeps
      returning, so it is never consumed. */
  datatype Frame = Object(event: Event) | Garbled(message: string)

  /** The server's answer to one watch request: a body, or an error (a
      transport failure or a status outside 2xx). */
  datatype Response = Accepted(body: seq<Frame>) | Refused(message: string)

  const EOF: string := "EOF"

  /** The error of a request once the server script is exhausted. */
  const NoAnswer: string := "no response from server"

  /** The watcher's state: whether a decoder is attached, the unread part of
      the current body, the server's remaining answers, the resume token,
      the request (whose query the token is written into) and every request
      sent so far. */
  datatype WatchState = WatchState(
    live: bool,
    body: seq<Frame>,
    server: seq<Response>,
    resourceVersion: string,
    req: ResourceRequest,
    sent: seq<ResourceRequest>)

  /** The request a (re)connection sends: the stored request, with the
      resume token written into its query when there is one. */
  function ResumeRequest(s: WatchState): (req: ResourceRequest)
    ensures s.resourceVersion != "" ==> Lookup(req.values, "resourceVersion") == [s.resourceVersion]
    ensures s.resourceVersion == "" ==> req == s.req
    ensures forall k :: k != "resourceVersion" ==> Lookup(req.values, k) == Lookup(s.req.values, k)
  {
    if s.resourceVersion != "" then s.req.(values := Set(s.req.values, "resourceVersion", s.resourceVersion))
    else s.req
  }

  /** One (re)connection: the request is sent; on success its body replaces
      the current one, on failure the error is returned and the old,
      finished decoder stays in place. */
  function Resume(s: WatchState): (r: (WatchState, Option<string>))
    ensures r.0.sent == s.sent + [ResumeRequest(s)] && r.0.req == ResumeRequest(s)
    ensures r.0.resourceVersion == s.resourceVersion
    ensures s.server != [] ==> r.0.server == s.server[1..]
    ensures r.1.None? <==> s.server != [] && s.server[0].Accepted?
    ensures r.1.None? ==> r.0.live && r.0.body == s.server[0].body
    ensures r.1.Some? ==> r.0.live == s.live && r.0.body == s.body
    ensures r.1.Some? && s.server == [] ==> r.1.value == NoAnswer
    ensures r.1.Some? && s.server != [] ==> r.1.value == s.server[0].message
  {
    var req := ResumeRequest(s);
    var s' := s.(req := req, sent := s.sent + [req]);
    if s.server == [] then (s', Some(NoAnswer))
    else
      match s.server[0]
      case Refused(message) => (s'.(server := s.server[1..]), Some(message))
      case Accepted(body) => (s'.(server := s.server[1..], live := true, body := body), None)
  }

  /** Next: the first decoded event, reconnecting whenever a body ends. A
      watcher without a decoder (never started, or closed) reports EOF. */
  function NextSpec(s: WatchState): (r: (Result<Event, string>, WatchState))
    decreases |s.server|, |s.body|
  {
    if !s.live then (Err(EOF), s)
    else if s.body == [] then
      var (s', err) := Resume(s);
      if err.Some? then (Err(err.value), s') else NextSpec(s')
    else
      match s.body[0]
      case Object(e) => (Ok(e), s.(body := s.body[1..], resourceVersion := e.obj.resourceVersion))
      case Garbled(message) => (Err(message), s)
  }

  /** A decoded event is returned and becomes the resume token. */
  lemma {:induction false} DeliverySetsToken(s: WatchState)
    ensures var (r, s') := NextSpec(s);
      r.Ok? ==> s'.resourceVersion == r.value.obj.resourceVersion
    decreases |s.server|
  {
    if s.live && s.body == [] && Resume(s).1.None? {
      DeliverySetsToken(Resume(s).0);
    }
  }

  /** A rejected frame is returned at once, with no reconnect and no change
      of state. */
  lemma GarbledReturnsAtOnce(s: WatchState)
    requires s.live && s.body != [] && s.body[0].Garbled?
    ensures NextSpec(s) == (Err(s.body[0].message), s)
  {
  }

  /** At the end of a body, a refused reconnect is returned after exactly
      one request. */
  lemma RefusedReconnectReturned(s: WatchState)
    requires s.live && s.body == [] && s.server != [] && s.server[0].Refused?
    ensures NextSpec(s).0 == Err(s.server[0].message)
    ensures NextSpec(s).1.sent == s.sent + [ResumeRequest(s)]
  {
  }

  /** `after` extends the requests of `before`, and every request added
      carries the resume token `before` held, when it held one. */
  ghost predicate CarriesToken(before: WatchState, after: WatchState)
  {
    && |before.sent| <= |after.sent|
    && after.sent[..|before.sent|] == before.sent
    && (before.resourceVersion != "" ==>
          forall j :: |before.sent| <= j < |after.sent| ==>
            Lookup(after.sent[j].values, "resourceVersion") == [before.resourceVersion])
  }

  /** Every request Next sends carries the resume token it started with, so
      a reconnect resumes after the last decoded object; requests already
      sent are untouched. */
  lemma {:induction false} RequestsCarryToken(s: WatchState)
    ensures CarriesToken(s, NextSpec(s).1)
    decreases |s.server|
  {
    if !s.live || s.body != [] {
      assert NextSpec(s).1.sent == s.sent;
    } else {
      var (s1, err) := Resume(s);
      assert CarriesToken(s, s1) by {
        assert s1.sent[..|s.sent|] == s.sent;
      }
      if err.None? {
        RequestsCarryToken(s1);
        CarriesTokenTrans(s, s1, NextSpec(s1).1);
      }
    }
  }

  /** A reconnect that carried the token, followed by requests that carry
      it, carries it throughout. */
  lemma CarriesTokenTrans(s: WatchState, s1: WatchState, s2: WatchState)
    requires CarriesToken(s, s1) && CarriesToken(s1, s2)
    requires s1.resourceVersion == s.resourceVersion
    ensures CarriesToken(s, s2)
  {
    assert s2.sent[..|s.sent|] == s2.sent[..|s1.sent|][..|s.sent|];
  }

  /** Bodies that end at once are skipped: the watcher keeps reconnecting
      until a body yields an event. */
  lemma EmptyBodiesSkipped(s: WatchState, e: Event)
    requires s.live && s.body == []
    requires s.server == [Accepted([]), Accepted([Object(e)])]
    ensures NextSpec(s).0 == Ok(e)
    ensures |NextSpec(s).1.sent| == |s.sent| + 2
  {
    var (s1, _) := Resume(s);
    var (s2, _) := Resume(s1);
    assert s1.server == [Accepted([Object(e)])];
    assert NextSpec(s) == NextSpec(s1) == NextSpec(s2);
  }

  /** A closed watcher reports EOF and sends nothing. */
  lemma NextAfterClose(s: WatchState)
    ensures NextSpec(s.(live := false)) == (Err(EOF), s.(live := false))
  {
  }

  class Watcher {
    var live: bool
    var body: seq<Frame>
    var server: seq<Response>
    var resourceVersion: string
    var req: ResourceRequest
    var sent: seq<ResourceRequest>
    /** How many times a response body was closed. */
    var closes: nat

    ghost function State(): WatchState
      reads this
    {
      WatchState(live, body, server, resourceVersion, req, sent)
    }

    /** A watcher for `req` that starts from `resourceVersion`; no request
        has been sent and no decoder is attached yet. */
    constructor (req: ResourceRequest, resourceVersion: string, server: seq<Response>)
      ensures State() == WatchState(false, [], server, resourceVersion, req, [])
      ensures closes == 0
    {
      this.live, this.body, this.server := false, [], server;
      this.resourceVersion, this.req, this.sent := resourceVersion, req, [];
      this.closes := 0;
    }

    method DoWatch() returns (err: Option<string>)
      modifies this
      ensures (State(), err) == Resume(old(State()))
      ensures closes == old(closes)
    {
      if resourceVersion != "" {
        req := req.(values := Set(req.values, "resourceVersion", resourceVersion));
      }
      sent := sent + [req];
      if server == [] {
        return Some(NoAnswer);
      }
      var answer := server[0];
      server := server[1..];
      match answer
      case Refused(message) =>
        return Some(message);
      case Accepted(b) =>
        live, body := true, b;
        return None;
    }

    method Next() returns (r: Result<Event, string>)
      modifies this
      ensures (r, State()) == NextSpec(old(State()))
      ensures closes == old(closes)
    {
      while true
        invariant NextSpec(State()) == NextSpec(old(State()))
        invariant closes == old(closes)
        decreases |server|
      {
        if !live {
          return Err(EOF);
        }
        if body == [] {
          var err := DoWatch();
          if err.Some? {
            return Err(err.value);
          }
        } else {
          match body[0]
          case Object(e) =>
            body := body[1..];
            resourceVersion := e.obj.resourceVersion;
            return Ok(e);
          case Garbled(message) =>
            return Err(message);
        }
      }
    }

    /** Detaches the decoder and closes the current body. */
    method Close()
      modifies this
      ensures State() == old(State()).(live := false)
      ensures closes == old(closes) + 1
    {
      live := false;
      closes := closes + 1;
    }
  }

  // ---------------------------------------------------------------------
  // Next as written

  /** What a call can do besides returning: panic. */
  datatype Outcome = Returned(result: Result<Event, string>, state: WatchState) | Panicked(message: string)

  /** One `Decode` call on the decoder field: a closed or never started
      watcher has a nil decoder, and calling through it panics; otherwise
      the decoder yields an event, io.EOF at the end of the body, or the
      error of a rejected frame. */
  datatype DecoderRead = NilDecoder | Decoded(e: Event) | AtEOF | Failed(message: string)

  function ReadDecoder(s: WatchState): (d: DecoderRead)
    ensures d.NilDecoder? <==> !s.live
    ensures d.AtEOF? <==> s.live && s.body == []
    ensures d.Decoded? ==> s.live && s.body != [] && s.body[0] == Object(d.e)
    ensures d.Failed? ==> s.live && s.body != [] && s.body[0] == Garbled(d.message)
  {
    if !s.live then NilDecoder
    else if s.body == [] then AtEOF
    else
      match s.body[0]
      case Object(e) => Decoded(e)
      case Garbled(message) => Failed(message)
  }

  /** Next as written, in the order of its statements: the decoder is
      called first, then the error is switched on; the nil-decoder check
      sits inside the EOF case, after the call that already dereferenced
      the decoder. */
  function NextAsWritten(s: WatchState): (o: Outcome)
    decreases |s.server|, |s.body|
  {
    match ReadDecoder(s)
    case NilDecoder => Panicked("invalid memory address or nil pointer dereference")
    case Decoded(e) => Returned(Ok(e), s.(body := s.body[1..], resourceVersion := e.obj.resourceVersion))
    case AtEOF =>
      if !s.live then Returned(Err(EOF), s)
      else
        var (s', err) := Resume(s);
        if err.Some? then Returned(Err(err.value), s') else NextAsWritten(s')
    case Failed(message) => Returned(Err(message), s)
  }

  /** On a watcher with a decoder the code as written does what Next is
      meant to; without one it panics where EOF is meant. */
  lemma {:induction false} NextAsWrittenAgrees(s: WatchState)
    ensures s.live ==> NextAsWritten(s) == Returned(NextSpec(s).0, NextSpec(s).1)
    ensures !s.live ==> NextAsWritten(s).Panicked? && NextSpec(s) == (Err(EOF), s)
    decreases |s.server|
  {
    if s.live && s.body == [] {
      var (s', err) := Resume(s);
      if err.None? {
        NextAsWrittenAgrees(s');
      }
    }
  }

  /** Calling Next after Close panics. */
  lemma NextAfterClosePanicsAsWritten(s: WatchState)
    ensures NextAsWritten(s.(live := false)).Panicked?
  {
  }
}
