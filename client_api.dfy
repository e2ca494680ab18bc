/** The object API of the earlier client generation (pkg/api.go): options
    applied at construction, URLs whose query is a list of raw `extra`
    strings, a stricter status check, and the extras of Apply and Watch. */
module ClientApi {
  import opened Types
  import opened Urls
  import opened ResourceRequests
  import opened StreamWatchers
  import opened Watchers
  import ApisApi

  /** A construction option; the logger and decoder factory are opaque
      names here. */
  datatype ApiOption = WithLogger(logger: string) | WithResponseDecoder(decoder: string)

  datatype Options = Options(logger: string, decoder: string)

  const DefaultOptions: Options := Options("default logger", "json decoder")

  function ApplyOption(opts: Options, o: ApiOption): Options
  {
    match o
    case WithLogger(logger) => opts.(logger := logger)
    case WithResponseDecoder(decoder) => opts.(decoder := decoder)
  }

  /** The options after applying `options` in order. */
  function ApplyOptions(opts: Options, options: seq<ApiOption>): Options
  {
    if options == [] then opts
    else ApplyOption(ApplyOptions(opts, options[..|options| - 1]), options[|options| - 1])
  }

  /** Whether `options[i]` is the last logger option (`logger`) or the last
      decoder option (`!logger`). */
  predicate LastOfKind(options: seq<ApiOption>, i: int, logger: bool)
    requires 0 <= i < |options|
  {
    && options[i].WithLogger? == logger
    && forall j :: i < j < |options| ==> options[j].WithLogger? != logger
  }

  /** The setting an option of the kind `logger` (or decoder) sets, and the
      value it sets it to. */
  function Setting(opts: Options, logger: bool): string
  {
    if logger then opts.logger else opts.decoder
  }

  function Value(o: ApiOption): string
  {
    match o
    case WithLogger(logger) => logger
    case WithResponseDecoder(decoder) => decoder
  }

  /** When the final option is of the kind, it is the last of its kind. */
  lemma LastOfKindIsFinal(options: seq<ApiOption>, logger: bool, i: int)
    requires 0 <= i < |options| && options[|options| - 1].WithLogger? == logger
    requires LastOfKind(options, i, logger)
    ensures i == |options| - 1
  {
  }

  /** When the final option is of the other kind, the last of the kind lies
      in the options before it. */
  lemma LastOfKindInInit(options: seq<ApiOption>, logger: bool, i: int)
    requires 0 <= i < |options| && options[|options| - 1].WithLogger? != logger
    requires LastOfKind(options, i, logger)
    ensures i < |options| - 1 && LastOfKind(options[..|options| - 1], i, logger)
  {
    var init := options[..|options| - 1];
    forall j | i < j < |init|
      ensures init[j].WithLogger? != logger
    {
      assert init[j] == options[j];
    }
  }

  lemma NoneOfKindInInit(options: seq<ApiOption>, init: seq<ApiOption>, logger: bool)
    requires options != [] && init == options[..|options| - 1]
    requires forall i :: 0 <= i < |options| ==> options[i].WithLogger? != logger
    ensures forall i :: 0 <= i < |init| ==> init[i].WithLogger? != logger
  {
  }

  /** For one kind of option: the last option of that kind decides the
      setting, and the setting keeps its value when there is none. */
  lemma {:induction false} LastOfKindWins(opts: Options, options: seq<ApiOption>, logger: bool)
    ensures (forall i :: 0 <= i < |options| ==> options[i].WithLogger? != logger) ==>
      Setting(ApplyOptions(opts, options), logger) == Setting(opts, logger)
    ensures forall i :: 0 <= i < |options| && LastOfKind(options, i, logger) ==>
      Setting(ApplyOptions(opts, options), logger) == Value(options[i])
  {
    if options != [] {
      var n := |options| - 1;
      var init := options[..n];
      LastOfKindWins(opts, init, logger);
      var before := ApplyOptions(opts, init);
      var after := ApplyOptions(opts, options);
      assert after == ApplyOption(before, options[n]);
      if options[n].WithLogger? == logger {
        assert Setting(after, logger) == Value(options[n]);
        forall i | 0 <= i < |options| && LastOfKind(options, i, logger)
          ensures Setting(after, logger) == Value(options[i])
        {
          LastOfKindIsFinal(options, logger, i);
        }
      } else {
        assert Setting(after, logger) == Setting(before, logger);
        forall i | 0 <= i < |options| && LastOfKind(options, i, logger)
          ensures Setting(after, logger) == Value(options[i])
        {
          LastOfKindInInit(options, logger, i);
          assert init[i] == options[i];
        }
        if forall i :: 0 <= i < |options| ==> options[i].WithLogger? != logger {
          NoneOfKindInInit(options, init, logger);
        }
      }
    }
  }

  /** The last logger option decides the logger, and the default stays when
      there is none; likewise for the decoder. */
  lemma LastOptionWins(opts: Options, options: seq<ApiOption>)
    ensures (forall i :: 0 <= i < |options| ==> !options[i].WithLogger?) ==>
      ApplyOptions(opts, options).logger == opts.logger
    ensures forall i :: 0 <= i < |options| && LastOfKind(options, i, true) ==>
      ApplyOptions(opts, options).logger == options[i].logger
    ensures (forall i :: 0 <= i < |options| ==> !options[i].WithResponseDecoder?) ==>
      ApplyOptions(opts, options).decoder == opts.decoder
    ensures forall i :: 0 <= i < |options| && LastOfKind(options, i, false) ==>
      ApplyOptions(opts, options).decoder == options[i].decoder
  {
    LastOfKindWins(opts, options, true);
    LastOfKindWins(opts, options, false);
  }

  datatype ObjectApi = ObjectApi(serverUrl: string, gvr: GroupVersionResource, opts: Options)

  /** NewObjectAPI: the defaults, then each option in turn. */
  method NewObjectAPI(serverUrl: string, gvr: GroupVersionResource, options: seq<ApiOption>)
    returns (api: ObjectApi)
    ensures api == ObjectApi(serverUrl, gvr, ApplyOptions(DefaultOptions, options))
  {
    var opts := DefaultOptions;
    var i := 0;
    while i < |options|
      invariant 0 <= i <= |options| && opts == ApplyOptions(DefaultOptions, options[..i])
    {
      assert options[..i + 1][..i] == options[..i];
      opts := ApplyOption(opts, options[i]);
      i := i + 1;
    }
    assert options[..i] == options;
    api := ObjectApi(serverUrl, gvr, opts);
  }

  /** A request of this API: its query is a list of raw strings. */
  datatype ClientRequest = ClientRequest(verb: string, namespace: string, name: string, extra: seq<string>)

  /** `strings.Join`. */
  function JoinWith(parts: seq<string>, sep: string): string
  {
    if parts == [] then ""
    else if |parts| == 1 then parts[0]
    else parts[0] + sep + JoinWith(parts[1..], sep)
  }

  function BuildRequestURL(o: ObjectApi, r: ClientRequest): string
  {
    o.serverUrl + "/" + Join([GvrPath(o.gvr), NsPath(r.namespace), o.gvr.resource, r.name])
      + (if |r.extra| > 0 then "?" + JoinWith(r.extra, "&") else "")
  }

  /** Without extras, this API addresses what the client's request form
      addresses for the same resource, with no subresource and no query. */
  lemma SameAddressAsClientRequest(o: ObjectApi, namespace: string, name: string, verb: string)
    ensures BuildRequestURL(o, ClientRequest(verb, namespace, name, []))
         == o.serverUrl + URL(ResourceRequest(o.gvr, "", verb, namespace, name, NoValues))
  {
    var xs := [GvrPath(o.gvr), NsPath(namespace), o.gvr.resource, name];
    JoinAppend(xs, [""]);
    assert Join([""]) == "";
    assert xs + [""] == [GvrPath(o.gvr), NsPath(namespace), o.gvr.resource, name, ""];
    assert QuerySuffix(NoValues) == "";
  }

  /** `do`: any status but 200 is an error, and then no response is
      returned. */
  function Do(o: ObjectApi, r: ClientRequest, exchange: ApisApi.Exchange)
    : (result: (Option<int>, Option<ApisApi.HttpError>))
    ensures result.0.Some? <==> exchange.Response? && exchange.status == 200
    ensures result.1.None? <==> result.0.Some?
    ensures exchange.NoResponse? ==> result.1 == Some(ApisApi.TransportError(exchange.message))
    ensures exchange.Response? && exchange.status != 200 ==>
      result.1 == Some(ApisApi.InvalidStatus(exchange.status, BuildRequestURL(o, r), exchange.body))
  {
    match exchange
    case NoResponse(message) => (None, Some(ApisApi.TransportError(message)))
    case Response(status, body) =>
      if status != 200 then (None, Some(ApisApi.InvalidStatus(status, BuildRequestURL(o, r), body)))
      else (Some(status), None)
  }

  /** This status check is stricter than the newer API's: whatever it
      accepts the newer one accepts, while 201 Created is an error here. */
  lemma StatusCheckStricter(o: ObjectApi, r: ClientRequest, a: ApisApi.ObjectApi, ar: ApisApi.ApiRequest,
                            exchange: ApisApi.Exchange)
    ensures Do(o, r, exchange).1.None? ==> ApisApi.Do(a, ar, exchange).1.None?
    ensures exchange == ApisApi.Response(201, "") ==>
      Do(o, r, exchange).1.Some? && ApisApi.Do(a, ar, exchange).1.None?
  {
  }

  /** The extras of Apply: the field manager, then `force` when forcing. */
  function ApplyExtras(fieldManager: string, force: bool): (extra: seq<string>)
    ensures |extra| == (if force then 2 else 1)
    ensures extra[0] == "fieldManager=" + fieldManager
    ensures force ==> extra[1] == "force"
  {
    ["fieldManager=" + fieldManager] + (if force then ["force"] else [])
  }

  function ApplyCall(namespace: string, name: string, fieldManager: string, force: bool): ClientRequest
  {
    ClientRequest("PATCH", namespace, name, ApplyExtras(fieldManager, force))
  }

  /** The query of an Apply is `fieldManager=<fm>`, followed by `&force`
      when forcing. */
  lemma ApplyQuery(o: ObjectApi, namespace: string, name: string, fieldManager: string, force: bool)
    ensures JoinWith(ApplyExtras(fieldManager, force), "&")
         == "fieldManager=" + fieldManager + (if force then "&force" else "")
    ensures ApplyCall(namespace, name, fieldManager, force).verb == "PATCH"
    ensures BuildRequestURL(o, ApplyCall(namespace, name, fieldManager, force))
         == o.serverUrl + "/" + Join([GvrPath(o.gvr), NsPath(namespace), o.gvr.resource, name])
            + "?" + ("fieldManager=" + fieldManager + (if force then "&force" else ""))
  {
    if force {
      assert ApplyExtras(fieldManager, force)[1..] == ["force"];
    }
  }

  /** The request of Watch: the extra `watch` and nothing from the
      options. */
  function WatchCall(namespace: string, name: string, opts: ListOptions): ClientRequest
  {
    ClientRequest("", namespace, name, ["watch"])
  }

  lemma WatchIgnoresOptions(o: ObjectApi, namespace: string, name: string, opts1: ListOptions, opts2: ListOptions)
    ensures WatchCall(namespace, name, opts1) == WatchCall(namespace, name, opts2)
    ensures BuildRequestURL(o, WatchCall(namespace, name, opts1))
         == o.serverUrl + "/" + Join([GvrPath(o.gvr), NsPath(namespace), o.gvr.resource, name]) + "?watch"
  {
  }

  /** Watch: send the watch request; on success the response body feeds a
      new stream watcher. `exchange` is the server's answer and `frames`
      the body it streams. */
  method Watch(o: ObjectApi, namespace: string, name: string, opts: ListOptions,
               exchange: ApisApi.Exchange, frames: seq<Frame>)
    returns (w: Result<StreamWatcher, ApisApi.HttpError>)
    ensures Do(o, WatchCall(namespace, name, opts), exchange).1.Some? ==>
      w == Err(Do(o, WatchCall(namespace, name, opts), exchange).1.value)
    ensures w.Ok? <==> exchange.Response? && exchange.status == 200
    ensures w.Ok? ==> w.value.frames == frames && !w.value.stopped && w.value.result == []
    ensures w.Ok? ==> w.value.closes == 0 && !w.value.resultClosed && w.value.logged == []
    ensures w.Ok? ==> fresh(w.value)
  {
    var (resp, err) := Do(o, WatchCall(namespace, name, opts), exchange);
    if err.Some? {
      return Err(err.value);
    }
    var watcher := new StreamWatcher(frames);
    return Ok(watcher);
  }
}
