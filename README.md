# k8s-client-go client core in Dafny

This project models the client-side logic of the Kubernetes client library
`k8s-client-go`:

- **Resource addressing.** How a request for a group/version/resource,
  namespace, name and subresource becomes a URL path and query
  (`pkg/client/resource_request.go`, and the two object APIs
  `pkg/apis/api.go` and `pkg/api.go`).
- **Responses.** How each API judges a response status.
- **Requests.** Which queries the API operations send: Watch, List,
  Apply, Patch and Delete.
- **Watch streams.**
  - The reconnecting watcher (`pkg/apis/stream.go`) resumes from the last
    resource version it decoded.
  - The older stream watcher (`pkg/stream.go`) forwards decoded events until
    the first error.
- **The watch-fed resource cache** (`pkg/apis/resource_cache.go`). It
  bootstraps from a List, applies watch events and fans them out to its
  listeners. A new listener gets a replay of the index.
- **The cache-backed API and its filtered views** (`pkg/apis/cached_api.go`,
  `pkg/apis/pipe_watcher.go`), built on client-side label matching
  (`pkg/apis/local_matcher.go`).
- **The controller's deduplicating work queue**
  (`pkg/controller/controller.go`), fed by indexers
  (`pkg/controller/informer.go`), with the identity keys of
  `pkg/util/util.go`.

Stateful parts are classes whose methods change their fields:

- `Cache.ResourceCache`
- `Controllers.Controller`
- `Watchers.Watcher`
- `StreamWatchers.StreamWatcher`
- `PipeWatchers.PipeWatcher`

Each method is proved against a specification function: `Fold`, `NextSpec`,
`Emitted`, `NewKeys`, `Forwarded` or `IndexKeys`. The properties the system
relies on are then proved about those functions.

The two most important properties:

- Every cache listener can rebuild the current index from what it received:
  a replay followed by the live events (`Cache.ResourceCache.ListenersSeeIndex`).
- Every reconnect of a watch carries the resume token
  (`Watchers.RequestsCarryToken`).

Each critical section of the source is one atomic method. Channels and
goroutines become sequences of values and explicit calls. The one lock
whose use is modelled is the controller's mutex along its processing loop:
each pass is the sequence of Lock and Unlock calls it makes
(`Controllers.PassLockOpsAsWritten`).

`Types.ListOptions` carries a resource version. `pkg/apis/resource_cache.go:36`
and `pkg/apis/api.go:243` read one, although `types/types.go:22-24` declares
only the selectors. The model follows the code that uses it.

`ApisApi.Watch` builds the package-local `ResourceRequest`
(`pkg/apis/api.go:71-77`, which has no group-version-resource and no
subresource) and stores it, with `api: o`, in the watcher's fields, which
are typed `client.ResourceRequest` and `*client.Client`
(`pkg/apis/stream.go:25-26`). That literal does not type-check as written.
The model reads it as a request for the API object's own
group-version-resource and subresource, with no verb, the given namespace
and no name. The source returns the watcher wrapped in
`stream.NewAsyncStream` (`pkg/apis/api.go:249`). That wrapper runs a
goroutine, so the model returns the watcher itself.

Where a row of "## Findings" names a corrected member, the classes and
their methods follow the corrected behaviour: a made in-progress map, EOF
from `Next` after `Close`, and the view filter in interface order. The
source's own behaviour is the as-written member of that row.

## Model

| member | source | states |
|---|---|---|
| Util.GetKeyShape | pkg/util/util.go:7-16 | `GetKey` gives the bare name when the namespace is empty. Otherwise it gives the namespace, one `/` and the name. `GetKeyForObject` applies it to the object's own namespace and name. |
| Util.SplitKey | pkg/util/util.go:7-16 | Splits a key at its first `/` into namespace and name. This is the inverse that `GetKey` is checked against. |
| Util.KeyRoundTrip | pkg/util/util.go:7-16 | Splitting `GetKey(ns, name)` gives back `(ns, name)` when neither contains `/`. |
| Util.KeyInjective | pkg/util/util.go:7-20 | Two slash-free identities share a key only if they are equal. |
| Util.KeyCollision | pkg/util/util.go:7-16 | Without that condition keys collide: `("", "a/b")` and `("a", "b")` share a key. |
| Urls.Glue | pkg/client/resource_request.go:41 | Joining two path fragments gives the empty string only if both are empty. |
| Urls.JoinEmpty | pkg/client/resource_request.go:41 | `path.Join` gives the empty string exactly when every segment is empty. |
| Urls.GlueAssociative | pkg/client/resource_request.go:33-41 | Joining is associative, so nested `path.Join` calls agree. |
| Urls.JoinAppend | pkg/client/resource_request.go:33-41 | Joining a concatenation joins the two joined halves. |
| Urls.JoinNested | pkg/client/resource_request.go:33-41 | A joined path used as one segment of a further join splices in. |
| Urls.EmptySegmentVanishes | pkg/client/resource_request.go:37-41 | An empty segment contributes nothing to a joined path. |
| Urls.Add | pkg/apis/api.go:140-145 | `Values.Add` appends the value to that key's values. Every other key is unchanged. |
| Urls.Set | pkg/apis/api.go:168-172 | `Values.Set` leaves exactly one value under the key. Every other key is unchanged. |
| Urls.Encode | pkg/client/resource_request.go:43 | The encoded query is empty exactly when no pair was added. |
| ResourceRequests.QuerySuffix | pkg/client/resource_request.go:43-45 | `?` and the query are appended exactly when the query is non-empty. |
| ResourceRequests.URL | pkg/client/resource_request.go:30-48 | The URL is an absolute path: non-empty and starting with `/`. |
| ResourceRequests.URLIsFlatJoin | pkg/client/resource_request.go:31-41 | The nested joins equal one join of all segments: group and version, namespace, resource, name, subresource. |
| ResourceRequests.URLPrefix | pkg/client/resource_request.go:32-36 | A core-group URL starts with `/api/<version>`. A named group's URL starts with `/apis/<group>/<version>`. |
| ResourceRequests.EmptyPartsVanish | pkg/client/resource_request.go:37-41 | An empty namespace, name and subresource add no segment. |
| ResourceRequests.CoreNamedURL | pkg/client/resource_request.go:30-48 | A named core-group object with no subresource and no query is at the path joined from `api`, the version, `namespaces` and the namespace (when one is given), the resource and the name. |
| LocalMatcher.StringLessTrichotomy | pkg/apis/local_matcher.go:29-36 | Go's string order, used by `lt`/`gt`, is a strict total order. |
| LocalMatcher.LabelMatch | pkg/apis/local_matcher.go:14-41 | The empty selector list accepts every label map. |
| LocalMatcher.Matches | pkg/apis/local_matcher.go:7-12 | A different non-empty namespace rejects the object. Otherwise the result is the selector scan. |
| LocalMatcher.SelectorAgrees | pkg/apis/local_matcher.go:15-37 | One selector accepts exactly when its label is present and its operator's comparison holds. Exists and unknown operators only require presence. |
| LocalMatcher.LabelMatchAll | pkg/apis/local_matcher.go:14-41 | The early-exit scan accepts exactly when every selector holds on its own. |
| LocalMatcher.SelectorOrderIrrelevant | pkg/apis/local_matcher.go:14-41 | Selector order and repetition do not change the verdict. |
| LocalMatcher.AbsentLabelRejects | pkg/apis/local_matcher.go:16-19 | A selector on an absent label rejects, whatever its operator. |
| LocalMatcher.EqualsExample | pkg/apis/local_matcher.go:21-24 | `app=foo` accepts `{app: foo, tier: web}` and rejects `{app: bar}` and `{tier: web}`. |
| Cache.ApplyEvent | pkg/apis/resource_cache.go:96-104 | DELETED removes the object's key. Any other type stores the object under its key. |
| Cache.ApplyEventFrame | pkg/apis/resource_cache.go:96-104 | Every other key keeps its entry. |
| Cache.FoldAppend | pkg/apis/resource_cache.go:44-58 | Processing two stretches of events one after the other equals processing their concatenation. |
| Cache.FoldAt | pkg/apis/resource_cache.go:96-104 | A key is present after a run of events exactly when its last event is not a deletion (or, with no event, it was present), and holds that event's object. |
| Cache.FoldKeyedByIdentity | pkg/apis/resource_cache.go:96-104 | Every entry stays under its own object's key. |
| Cache.AddedEvents | pkg/apis/resource_cache.go:33-35 | The listed items become ADDED events, one per item, in list order. |
| Cache.ListedIsFoldOfAdded | pkg/apis/resource_cache.go:33-35 | Bootstrapping from a List is replaying its items as ADDED events. The last item under a key wins. |
| Cache.ReplayHasNoDuplicates | pkg/apis/resource_cache.go:87-92 | A registration replay never delivers two events for one key. |
| Cache.ReplayCoversSnapshot | pkg/apis/resource_cache.go:87-92 | A registration replay delivers every entry of the index. |
| Cache.ReplayThenLive | pkg/apis/resource_cache.go:83-110 | A replay of the index at join time, followed by every later event, rebuilds the current index. |
| Cache.ReplayOf | pkg/apis/resource_cache.go:87-92 | The replay loop yields ADDED events only, one per entry, rebuilding exactly the index. |
| Cache.UntilError | pkg/apis/resource_cache.go:45-58 | The background loop processes at most as many events as Next returned. |
| Cache.ResourceCache.constructor | pkg/apis/resource_cache.go:23-26 | A new cache holds the given index, no listeners and is not ready. |
| Cache.ResourceCache.Get | pkg/apis/resource_cache.go:75-81 | Found exactly when the key is in the index, with the stored object. |
| Cache.ResourceCache.ListenersSeeIndex | pkg/apis/resource_cache.go:83-110 | Every registered listener can rebuild the current index from the events it received. |
| Cache.ResourceCache.ProcessEvent | pkg/apis/resource_cache.go:96-110 | The index becomes `ApplyEvent(old index, e)`. Every listener gets `e` appended, in registration order. Nothing else changes, and the invariant is kept. |
| Cache.ResourceCache.StopListeners | pkg/apis/resource_cache.go:50-56 | The cache is no longer ready and every listener is stopped exactly once. |
| Cache.ResourceCache.Run | pkg/apis/resource_cache.go:44-58 | Events are applied up to the first error. Every listener receives exactly those events, appended to what it had. The cache stays ready (what `IsReady` reports) exactly when there was no error. On an error every listener is stopped once. |
| Cache.ResourceCache.RegisterListener | pkg/apis/resource_cache.go:83-94 | The listener is appended and receives a replay of the current index. Earlier listeners and the index are unchanged. |
| Cache.NewResourceCache | pkg/apis/resource_cache.go:23-65 | A List error is returned without a Watch. The Watch resumes from the list's resource version. A Watch error is returned. On success the cache is ready and holds the listed items by key. |
| Cache.BootstrapThenWatchExample | pkg/apis/resource_cache.go:33-35 | Listing a and b, then MODIFIED a', DELETED b and ADDED c, leaves exactly a' and c. |
| Controllers.NewKeys | pkg/controller/controller.go:45-56 | A run of notifications queues exactly the keys not already waiting, each once. |
| Controllers.NewKeysOfWaiting | pkg/controller/controller.go:47-51 | Notifying only waiting keys queues nothing. |
| Controllers.NewKeysOrder | pkg/controller/controller.go:53 | Keys are queued in the order of their first notification. |
| Controllers.Handoff | pkg/controller/controller.go:88-94 | The action receives the lookup's element even on error. A lookup error is logged as `ERROR <message>`. |
| Controllers.Controller.constructor | pkg/controller/controller.go:22-30 | Nothing is queued, waiting or in progress. |
| Controllers.Controller.Enqueue | pkg/controller/controller.go:46-56 | A waiting key is dropped. Any other key is appended and marked waiting. The queue and the waiting set stay in step. |
| Controllers.Controller.Watches | pkg/controller/controller.go:43-61 | The queue grows by `NewKeys(waiting, keys)`, and every notified key ends up waiting. |
| Controllers.Controller.Dequeue | pkg/controller/controller.go:66-86 | An empty queue idles. An in-progress front key is rotated to the back. Otherwise the front key is removed, marked in progress and no longer waiting. |
| Controllers.Controller.Finish | pkg/controller/controller.go:96-98 | The key is no longer in progress. Nothing else changes. |
| Controllers.Controller.RunOnce | pkg/controller/controller.go:65-99 | The pass idles on an empty queue. It rotates an in-progress front key, leaving the waiting set alone. Otherwise it takes the front key out of the queue and the waiting set and gives the lookup's element to the action. A log line `ERROR <message>` appears exactly when the lookup failed. The set of keys in progress is the same after the pass. |
| Controllers.NotifyTwice | pkg/controller/controller.go:47-54 | A key notified twice is queued once. |
| Controllers.NotifyWhileInFlight | pkg/controller/controller.go:78-85 | A key notified during its action is rotated, not started, until the action finishes. |
| Controllers.DequeueAsWritten | pkg/controller/controller.go:66-83 | The dequeue step on Go maps. An empty queue idles with everything unchanged. Its agreement with `Controller.Dequeue` and its failure on the nil map are stated by `DequeueMatchesAsWritten` and `NilMapDequeueFails`. |
| Controllers.NilMapDequeueFails | pkg/controller/controller.go:78-82 | On the nil `inProgress` map the step as written panics exactly when the queue has a key to take. |
| Controllers.DequeueMatchesAsWritten | pkg/controller/controller.go:66-85 | On a made map, the step as written gives the same step, queue and keys in progress as `Controller.Dequeue`. |
| Controllers.FirstDequeuePanicsAsWritten | pkg/controller/controller.go:22-30 | The first key a fresh controller dequeues panics on the nil `inProgress` map. |
| Controllers.FirstDequeueStarts | pkg/controller/controller.go:78-83 | With the map made, the first key is started and marked in progress. |
| Controllers.HeldAfterPassAsWritten | pkg/controller/controller.go:67-98 | Starting from a free lock, one pass's lock operations as written end holding the lock exactly when the pass rotated a key. |
| Controllers.RunLockOpsAppend | pkg/controller/controller.go:67-98 | Two runs of lock operations compose: the second starts where the first ended, and a blocked or failed run stays so. |
| Controllers.PassLockOpsAsWritten | pkg/controller/controller.go:67-98 | Every pass as written starts with the Lock at the loop head. A rotating pass has no Unlock after it. |
| Controllers.PassLockOps | pkg/controller/controller.go:67-98 | The corrected pass also starts with the Lock at the loop head, and unlocks before the `continue`. |
| Controllers.RotationDeadlocksAsWritten | pkg/controller/controller.go:67-98 | As written, passes that rotate no key leave the lock free. A rotation followed by any further pass blocks that pass forever on its own lock. |
| Controllers.EveryPassReleasesLock | pkg/controller/controller.go:67-98 | With the Unlock before the `continue`, any run of passes leaves the lock free and never blocks. |
| Informer.LabelKey | pkg/controller/informer.go:25-34 | No key when the label is absent or empty. Otherwise the key is the label value qualified by the object's namespace. |
| Informer.IndexKeys | pkg/controller/informer.go:12-17 | Forwarded keys are non-empty, at most one per event, and one per event when every key is non-empty. |
| Informer.IndexChan | pkg/controller/informer.go:8-21 | The loop forwards exactly `IndexKeys(events, indexer)`. |
| Informer.IndexKeysAppend | pkg/controller/informer.go:12-17 | Indexing two stretches of a stream indexes each stretch on its own. |
| Informer.IndexKeysExact | pkg/controller/informer.go:13-16 | A key is forwarded exactly when it is non-empty and is the key of some event. |
| Informer.IdentityIndexerKeepsNamed | pkg/controller/controller.go:40 | The identity indexer forwards every event of named objects. |
| Informer.LabelIndexerExample | pkg/controller/informer.go:25-34 | The `KeyFromLabel` indexer drops objects without `owner` or with an empty value. `owner: web` in `ns` gives `ns/web`. |
| PipeWatchers.Forwarded | pkg/apis/pipe_watcher.go:15-21 | The filter forwards at most as many events as it reads. |
| PipeWatchers.ForwardedIsMatchingSubsequence | pkg/apis/pipe_watcher.go:16-20 | The output is the matching input events, in input order. A position is forwarded exactly when its object matches. |
| PipeWatchers.ForwardedMembership | pkg/apis/pipe_watcher.go:17-18 | An event is forwarded exactly when it is in the input and its object matches. |
| PipeWatchers.OtherNamespaceDropped | pkg/apis/pipe_watcher.go:17 | A view of `ns1` drops an event from `ns2`. |
| PipeWatchers.PipeWatcher.constructor | pkg/apis/cached_api.go:30-34 | A view holds its namespace and selectors, with nothing pending. |
| PipeWatchers.PipeWatcher.Run | pkg/apis/pipe_watcher.go:15-21 | The result channel receives `Forwarded(namespace, selectors, input)`. |
| PipeWatchers.PipeWatcher.Next | pkg/apis/pipe_watcher.go:31-33 | Next yields the oldest pending event and never an error. |
| PipeWatchers.PipeWatcher.Error | pkg/apis/pipe_watcher.go:35-37 | Error is always nil. |
| PipeWatchers.PipeWatcher.Stop | pkg/apis/pipe_watcher.go:23-25 | Stop changes nothing. |
| PipeWatchers.ForwardThenReceive | pkg/apis/pipe_watcher.go:15-33 | A matching event comes out of Next with no error. |
| CachedApis.NewCachedAPI | pkg/apis/cached_api.go:17-23 | The wrapper keeps the raw API and is returned with the cache's error, which is not discarded. The cache is nil exactly when there is an error. |
| CachedApis.Get | pkg/apis/cached_api.go:42-50 | A hit returns the stored item. A miss returns the zero object and `Could not find object <key>`. |
| CachedApis.GetFindsOwnKey | pkg/apis/cached_api.go:42-50 | An object Get finds is filed under its own key. |
| CachedApis.GetAfterUpsert | pkg/apis/cached_api.go:43-44 | After an ADDED or MODIFIED event, the key of the event's namespace and name holds its object. |
| CachedApis.List | pkg/apis/cached_api.go:55-67 | Exactly the cached objects that match, each once. The error is nil, and the cache is only read. |
| CachedApis.SubresourceSharesCache | pkg/apis/cached_api.go:69-94 | `Subresource` and `Status` share the cache object, so a sub-API answers Get like its parent. Its `Delete`, `Create`, `Apply` and `Patch` send the parent's requests to the raw sub-API. Status is the `status` sub-API. |
| CachedApis.SwappedViewDropsItsObjectAsWritten | pkg/apis/cached_api.go:29-34 | As written, a view asked for `default`/`web` drops that object's ADDED event. The corrected view forwards it. |
| CachedApis.ViewForwardsRequestedNamespace | pkg/apis/cached_api.go:30-34 | The corrected view forwards exactly the events of the requested namespace that satisfy the selectors. |
| CachedApis.Watch | pkg/apis/cached_api.go:29-39 | A fresh view with the request's filter, registered with the cache and sent a replay of the index. The error is nil. The filter is the corrected one (see ## Findings). |
| ApisApi.BuildRequestURLIsServerPlusClientURL | pkg/apis/api.go:51-69 | `BuildRequestURL` is the server address followed by the path and query of `resource_request.go`. |
| ApisApi.Subresource | pkg/apis/api.go:79-84 | The copy differs from the original only in its subresource. |
| ApisApi.SubresourceURL | pkg/apis/api.go:62-84 | A subresource adds one final path segment, for a named object or a collection. |
| ApisApi.StatusURL | pkg/apis/api.go:86-88 | `Status` addresses `<path>/status`. |
| ApisApi.Do | pkg/apis/api.go:90-110 | Statuses 200..226 succeed. Any other status is an error with the status, URL and body, and the response is still returned. A transport failure returns no response. |
| ApisApi.SelectorStrings | pkg/apis/api.go:225-231 | One string per selector, in order: the bare label for Exists, otherwise label, operator and value. |
| ApisApi.SelectorStringExamples | pkg/apis/api.go:226-230 | `app` for Exists, `app%3Dweb` for Equals, `tierlt3` for lt. |
| ApisApi.AddSelectors | pkg/apis/api.go:225-231 | The selectors are added under the key, in order. Other keys are unchanged. |
| ApisApi.WatchQuery | pkg/apis/api.go:219-238 | `watch=1`, one `labelSelector` per selector, `fieldSelector=metadata.name%3D<name>` when a name is given, and nothing else. |
| ApisApi.ListQueryAsWritten | pkg/apis/api.go:139-146 | The selectors go under the key `labelSelector=`. The `labelSelector` parameter is empty. |
| ApisApi.ListQuery | pkg/apis/api.go:139-146 | The selectors go under `labelSelector`, as Watch sends them, and nothing else is sent. |
| ApisApi.PatchQuery | pkg/apis/api.go:168-172 | `fieldManager` always, `force=1` exactly when forcing, nothing else. |
| ApisApi.DeleteQuery | pkg/apis/api.go:188-191 | `force=1` exactly when forcing, nothing else. |
| ApisApi.ApplyAndPatchDiffer | pkg/apis/api.go:165-217 | Apply and Patch are PATCH requests with the apply-patch and merge-patch content types. A merge patch never forces. |
| ApisApi.ForcedDeleteURL | pkg/apis/api.go:187-199 | A forced delete's URL ends in `?force=1`. |
| ApisApi.ApplyEventTypeAsWritten | pkg/apis/api.go:204-209 | Reading the status of a missing response panics. |
| ApisApi.ApplyWithoutResponsePanicsAsWritten | pkg/apis/api.go:201-205 | An Apply whose request got no response panics. |
| ApisApi.ApplyEventType | pkg/apis/api.go:204-209 | 201 gives ADDED. Any other response gives MODIFIED. No response gives no type. |
| ApisApi.ApplyEventTypeIsKnown | pkg/apis/api.go:201-211 | An event type is reported exactly when there was a response. It is a valid watch event type and agrees with the written code wherever that does not panic. |
| ApisApi.Watch | pkg/apis/api.go:219-250 | Exactly one request is sent, to the API object's own resource and subresource in the given namespace, with no name. Its query holds `watch=1`, the label selectors in order, `fieldSelector=metadata.name%3D<name>` when a name is given, and the options' resume token when there is one, and nothing else. A refused or missing answer is returned as the error. On success the watcher is fresh and live on the body. |
| Watchers.ResumeRequest | pkg/apis/stream.go:37-40 | A non-empty resume token is written as the single `resourceVersion` value. Other parameters are kept. |
| Watchers.Resume | pkg/apis/stream.go:37-51 | The request is recorded as sent. On success the new body replaces the old one. On failure the error is returned and the old decoder is kept. |
| Watchers.DeliverySetsToken | pkg/apis/stream.go:62-64 | A returned event's resource version becomes the resume token. |
| Watchers.GarbledReturnsAtOnce | pkg/apis/stream.go:82-83 | A decode error other than EOF is returned with no reconnect and no state change. |
| Watchers.RefusedReconnectReturned | pkg/apis/stream.go:68-78 | At the end of a body, a refused reconnect is returned after exactly one request. |
| Watchers.RequestsCarryToken | pkg/apis/stream.go:37-76 | Requests already sent are untouched. Every reconnect carries the token Next started with. |
| Watchers.EmptyBodiesSkipped | pkg/apis/stream.go:55-79 | Bodies that end at once are skipped by reconnecting until an event arrives. |
| Watchers.NextAfterClose | pkg/apis/stream.go:68-73 | A watcher without a decoder reports EOF and sends nothing. |
| Watchers.Watcher.constructor | pkg/apis/api.go:240-244 | The watcher holds the request and resume token. Nothing has been sent and no decoder is attached. |
| Watchers.Watcher.DoWatch | pkg/apis/stream.go:37-51 | The state change and error are those of `Resume`. |
| Watchers.Watcher.Next | pkg/apis/stream.go:54-86 | The result and new state are those of `NextSpec`. |
| Watchers.Watcher.Close | pkg/apis/stream.go:31-35 | The decoder is detached and the body closed once. Nothing else changes. |
| Watchers.NextAsWritten | pkg/apis/stream.go:54-86 | Next in source order: the decoder is called first, then the error is switched on, and the nil-decoder check sits inside the EOF case. Its relation to `NextSpec` is `NextAsWrittenAgrees`. |
| Watchers.ReadDecoder | pkg/apis/stream.go:56-57 | A call through the decoder field fails on a nil decoder. Otherwise it yields EOF exactly at the end of the body, or the next event or rejected frame. |
| Watchers.NextAsWrittenAgrees | pkg/apis/stream.go:54-86 | With a decoder, Next as written returns what `NextSpec` returns and leaves the same state. Without one it panics where `NextSpec` reports EOF. |
| Watchers.NextAfterClosePanicsAsWritten | pkg/apis/stream.go:57-72 | As written, Next after Close panics. |
| StreamWatchers.Decode | pkg/stream.go:88-99 | Decoder errors pass through, and the end of the body is EOF. The four known types are accepted. Any other type is rejected as `got invalid Watch event type: <type>`. |
| StreamWatchers.AfterDecode | pkg/stream.go:88-92 | A decoded object is consumed, even one of an unknown type. A rejected frame is not. |
| StreamWatchers.Emitted | pkg/stream.go:65-83 | At most one event is forwarded per frame. |
| StreamWatchers.EmittedIsDecodedPrefix | pkg/stream.go:65-83 | The forwarded events are the leading valid frames, in order. The next frame is the one whose error ends the loop. |
| StreamWatchers.DecodeExamples | pkg/stream.go:93-97 | ADDED and ERROR are accepted. `BOOKMARK` is rejected with its type named. |
| StreamWatchers.EndLog | pkg/stream.go:67-80 | One line is logged exactly when the stream was not stopped and the error is not EOF. |
| StreamWatchers.StreamWatcher.constructor | pkg/stream.go:28-37 | A new watcher is not stopped, has sent nothing and holds the body. |
| StreamWatchers.StreamWatcher.Stop | pkg/stream.go:45-52 | Stop is idempotent: the body is closed only on the first call. |
| StreamWatchers.StreamWatcher.Stopping | pkg/stream.go:55-59 | True exactly when Stop has been called. |
| StreamWatchers.StreamWatcher.Receive | pkg/stream.go:62-84 | Sends `Emitted(frames)` and logs `EndLog` for the ending error. Then the watcher is stopped, the result closed, and the body closed once overall. |
| StreamWatchers.StopTwice | pkg/stream.go:45-52 | Stopping twice closes the body once. |
| ClientApi.LastOfKindWins | pkg/api.go:46-55 | For one kind of option, the setting is the value of the last option of that kind. With no option of that kind, the setting keeps its initial value. |
| ClientApi.LastOptionWins | pkg/api.go:46-55 | The last logger option and the last decoder option win. Without one, the default stays. |
| ClientApi.NewObjectAPI | pkg/api.go:46-62 | The options are the defaults with each option applied in order. |
| ClientApi.SameAddressAsClientRequest | pkg/api.go:70-88 | Without extras, `BuildRequestURL` gives the server address plus the `resource_request.go` path with no subresource. |
| ClientApi.Do | pkg/api.go:98-118 | Only status 200 succeeds. Any other status is an error with the status, URL and body, and no response is returned. |
| ClientApi.StatusCheckStricter | pkg/api.go:111 | Whatever this API accepts, `pkg/apis/api.go` accepts. A 201 is an error only here. |
| ClientApi.ApplyExtras | pkg/api.go:155-158 | `fieldManager=<fm>` first, then `force` exactly when forcing. |
| ClientApi.ApplyQuery | pkg/api.go:152-166 | `ApplyCall` is a PATCH whose URL, built by `BuildRequestURL`, ends in `?fieldManager=<fm>`, followed by `&force` when forcing. |
| ClientApi.WatchIgnoresOptions | pkg/api.go:178-183 | `WatchCall` ignores the options, and its URL, built by `BuildRequestURL`, ends in `?watch`. |
| ClientApi.Watch | pkg/api.go:178-188 | A non-200 answer is returned as the error. On 200 the result is a fresh stream watcher on the body that is not stopped and has sent, logged and closed nothing. |

## Left out

- Locks, goroutines and channels. Each critical section is one atomic
  method, and a goroutine's loop is a method run over the sequence of values
  its channel delivers. Interleavings between the cache's lock release and
  delivery are not modelled.
- Cache.ResourceCache.ProcessEvent: the source releases the item lock
  (pkg/apis/resource_cache.go:105) before it fans the event out, and reads
  the listener list unlocked. A listener registering in that gap gets the
  event in its replay and may also get it from the fan-out. The model
  applies and fans out in one atomic step, so it does not show that
  duplicate.
- CachedApis.Watch: the source starts a goroutine that registers the view
  (`go i.cache.RegisterListener`, pkg/apis/cached_api.go:36), so the
  registration may happen after Watch returns. The model registers before
  it returns. `RegisterListener` itself runs synchronously under the lock in
  both.
- ApisApi.Watch: the result is the watcher, not the `stream.NewAsyncStream`
  wrapper around it (pkg/apis/api.go:249), whose goroutine falls under the
  rule for goroutines above. The ill-typed request literal is read as
  described in the introduction.
- CachedApis.Get: requires a cache. On the wrapper that `NewCachedAPI`
  returns after a failed bootstrap, the cache is nil, and the source
  dereferences it (pkg/apis/cached_api.go:44) and panics. The model does not
  admit that call.
- CachedApis.List: requires a cache, for the same reason. The source panics
  on the nil cache's lock (pkg/apis/cached_api.go:58).
- CachedApis.Watch: requires a cache, for the same reason. The source panics
  inside the registering goroutine (pkg/apis/cached_api.go:36), after Watch
  has returned the view.
- ResourceRequests.CoreNamedURL: the path is stated as the join of its
  segments, not as one spelled-out string for concrete values (such as
  `/api/v1/namespaces/default/pods/web`). Equalities between long concrete
  strings are too costly for the verifier here.
- Watchers.Frame: a rejected frame stands for a JSON syntax error, which
  `json.Decoder` keeps returning, so the frame is never consumed. A value
  that is well-formed JSON but fails to unmarshal into the event type is
  consumed by `json.Decoder`. The model does not distinguish that case.
- The replay order of a new listener and List's order are Go's unspecified
  map iteration order. The model picks keys with `:|`.
- PipeWatchers.PipeWatcher: the source type has no `Event` method, so it
  cannot actually be registered as a cache listener. `CachedAPI.Watch`
  never creates the input channel and never starts `run`. The model feeds
  `Run` the events explicitly and leaves this gap unmodelled. `ResultChan`
  is not modelled.
- PipeWatchers.PipeWatcher.Next: receiving from an empty channel blocks.
  The model requires a pending event instead.
- Urls.Encode: `url.Values.Encode` sorts keys and percent-escapes keys and
  values, and the model does neither. As a result the percent-encoded
  operators `%3D` and `%21%3D` are not shown being escaped a second time.
- Urls.Join: `path.Join` also cleans `.` and `..` segments and repeated
  slashes. The model joins the non-empty segments only.
- Request and response bodies, JSON marshalling and unmarshalling, HTTP
  headers other than the content type, and `http.NewRequest` failures
  (folded into the transport error).
- Get and List of `pkg/api.go` and the unmarshalling helpers of
  `pkg/apis/api.go` are not modelled: they only decode a body.
- StreamWatchers.EndLog: the separate log line for `io.ErrUnexpectedEOF` is
  not modelled. The model has one line for every error other than EOF.
- Watchers.Watcher.Close: the error of closing the body is not modelled.
- The server is a finite script of answers. Once it is exhausted, a request
  fails with `no response from server`, which stands for the transport
  failing.
- Controllers.Controller.RunOnce: `util.GetObjectForKey` is not part of this
  model. The lookup takes the key directly, and the action runs between the
  two critical sections as one step.
- Controllers.Controller: the condition-variable wait is the `Idle` step.
- Loggers, decoder factories and the API-server client are opaque names or
  parameters.

## Findings

| source | as written | input that shows it | evidently intended | confidence | as-written member | corrected member |
|---|---|---|---|---|---|---|
| pkg/controller/controller.go:22-30, 82 | The empty controller's literal makes `waiting` but not `inProgress`, and `Run` writes `c.inProgress[key] = true` into that nil map | A fresh controller with one queued key, e.g. `"a"` | `inProgress: make(map[string]bool)` | high; not executed | Controllers.FirstDequeuePanicsAsWritten | Controllers.FirstDequeueStarts |
| pkg/controller/controller.go:67, 78-80 | When the front key is still in progress it is pushed back and the loop `continue`s without unlocking, so the `Lock` at the loop head blocks forever | Two `Run` workers, with the nil-map write at :82 fixed first (otherwise the first dequeue panics): a key is notified while one worker runs its action, and the other worker dequeues it before that action ends | Unlock before `continue` | high; not executed | Controllers.RotationDeadlocksAsWritten | Controllers.EveryPassReleasesLock |
| pkg/apis/stream.go:57-72 | `Next` calls `sw.decoder.Decode` before the `sw.decoder == nil` check that is meant to handle a closed or unstarted watcher | `Next` after `Close` | Report EOF when there is no decoder | high; not executed | Watchers.NextAfterClosePanicsAsWritten | Watchers.NextAfterClose |
| pkg/apis/api.go:142, 144 | List adds its selectors under the key `labelSelector=`, so the server sees no `labelSelector` parameter | `ListOptions` with selector `app=web` | The key `labelSelector`, as Watch uses at :227, :229 | high; not executed | ApisApi.ListQueryAsWritten | ApisApi.ListQuery |
| pkg/apis/api.go:202-205 | Apply reads `resp.StatusCode` even when the patch failed with no response | A request that fails in transport | Report the error with no event type | medium; not executed | ApisApi.ApplyWithoutResponsePanicsAsWritten | ApisApi.ApplyEventTypeIsKnown |
| pkg/apis/cached_api.go:29-32 | The parameters are declared `(name, namespace)`, while the interface (types/types.go:70) and every caller pass `(namespace, name)`, so the view filters on the name | `Watch("default", "web", {})` on the ADDED event of `default/web` | Filter on the namespace argument | medium; not executed | CachedApis.SwappedViewDropsItsObjectAsWritten | CachedApis.ViewForwardsRequestedNamespace |
