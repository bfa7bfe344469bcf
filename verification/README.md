# cofetch, modelled and proved in Dafny

cofetch drives libcurl's multi interface from an ASIO event loop. Its `Client`
is a single-threaded state machine between two callback-driven libraries: it
hands easy handles to libcurl and takes DONE messages back, reuses warm handles
without resetting them, coalesces timers, watches descriptors with one-shot
waits, and completes every request's handler exactly once, even when handlers
start and cancel requests from inside the completion loop. This project models
that machine, the response-header reader, the epoll baseline it is measured
against, and the throughput benchmark that runs on top of it, and proves what
they promise for every run.

## How the project is laid out

Each machine comes as a *specification* (functions on values, with libcurl, the
event loop and the operating system as an environment that may do anything its
rules allow), *proofs and theorems* over every run of it, and an *imperative
class* whose methods change fields, lists and objects step by step and are
proved to do exactly what the specification says.

| files | machine |
|---|---|
| `EasyHandle` | the options of an easy handle; pooled reuse against a fresh handle |
| `LifecycleSpec`, `LifecycleProofs`, `LifecycleTheorems`, `Lifecycle` | transfers: start, fail, cancel, retire, completion loop, destructor |
| `WakeupSpec`, `Wakeups` | timer coalescing and kick deduplication |
| `SocketSpec`, `SocketProofs`, `SocketTheorems`, `Sockets` | descriptors, borrowed dups, one-shot waits |
| `ClientRun` | the three machines above as one client, and what follows for the event loop |
| `HeaderSpec`, `Headers` | the response-header reader and its case-insensitive map |
| `BaselineSpec`, `BaselineTheorems`, `Baseline` | the epoll baseline |
| `ThroughputSpec`, `Throughput`, `ThroughputRun` | the refill window over the client, the split over event loops, and the return of the event loop |
| `Common` | removal from lists, and censuses in which each number occurs once |

The environment rules are these. libcurl works only on handles in the multi
whose transfer is not over, queues one DONE message per transfer, calls the
callbacks set on the handle with the pointers set on it, and does all this only
inside calls the client makes. `CURL_SOCKET_TIMEOUT` makes it forget the
deadline it last reported. The state records each chunk and message of a
transfer, and which directions of which descriptors libcurl asked for last.
Where it matters that the event loop keeps going, libcurl is taken to wait,
while it has a transfer, for a deadline it reported or a descriptor it asked
for that the client has a state for. It asks for no new descriptor while the
client is being destroyed, and closes a native descriptor by itself only when
it no longer wants it watched. The event loop runs queued closures in any
order; a timer wait that has expired can no longer be cancelled; a socket wait
is aborted only by closing its socket. A completion handler is a script of
client operations; scripts may nest to any depth.

## Findings

* A pooled handle is not reset, and a GET leaves `CURLOPT_POSTFIELDSIZE` as the
  previous transfer set it. Reuse equals a fresh handle exactly when the request
  sets that option itself or the handle still has libcurl's default
  (`EasyHandle.PooledRefinesFresh`); after a completed POST, a GET with a hook
  that makes it an upload runs with the POST's size
  (`LifecycleTheorems.StalePostFieldSize`).
* `cancel` lowers the pending count whether or not the transfer was counted.
  `LifecycleTheorems.CancelCount` gives the effect in every state, and from it
  exactly when the count is right afterwards. It goes wrong in two ways, each
  with a run that shows it: the transfer had not been kicked yet
  (`LifecycleTheorems.UnkickedCancelMiscounts`), or its DONE message was queued
  (`LifecycleTheorems.DoneCancelMiscounts`). The count is then too low; it never
  overcounts.
* With more event loops than concurrency, `concurrency / loops` is 0, each loop
  gets an empty window and launches nothing
  (`ThroughputSpec.MoreLoopsThanConcurrency`,
  `ThroughputRun.ReturningLoopDidItsShare`); with busy polling it then never
  ends (`ThroughputSpec.NoRoomNoProgress`).
* The comment on the header reader says a line without a colon is the status
  line or blank; a status line with a colon in its reason phrase is read as a
  field (`HeaderSpec.RoundTrip` holds if and only if it has none;
  `HeaderSpec.ColonMakesAField` and `HeaderSpec.ColonInReasonPhrase` say what
  becomes of one).

## Model

| member | source | states |
|---|---|---|
| `EasyHandle.PooledRefinesFresh` | include/cofetch.h:530-584 | a pooled handle given a request runs with the options of a fresh, configured one: always up to POSTFIELDSIZE, and entirely if and only if the request fixes that option or the handle holds its default |
| `EasyHandle.MatchingOptions` | include/cofetch.h:530-557 | every pointer option of a transfer names its own node, or is null, and without a hook its handle is fit for the pool afterwards |
| `EasyHandle.WhatIsAsked` | include/cofetch.h:530-578 | a request without a hook goes out as GET, POST, PUT, PATCH or DELETE by its method, with its own url, timeout, redirect limit, header list and, unless a GET, its body and its size, through the client's own callbacks and settings |
| `EasyHandle.HookIsInOrder` | include/cofetch.h:580-584 | each setting of a hook takes effect on what the settings before it left |
| `LifecycleSpec.Start` | include/cofetch.h:512-617 | start runs no handler, touches no queued message and forgets no earlier request, whether it succeeds or fails |
| `LifecycleSpec.Cancel` | include/cofetch.h:623-645 | cancel runs no handler and adds no message |
| `LifecycleSpec.CheckCompletions` | include/cofetch.h:918-943 | the loop ends whatever the handlers do, and only ever adds to what was delivered |
| `LifecycleProofs.StartKeeps` | include/cofetch.h:512-606 | start keeps the whole invariant in all of its outcomes: no handle to be had, refused by the multi, accepted |
| `LifecycleProofs.CancelKeeps` | include/cofetch.h:623-645 | cancel keeps the whole invariant, for any id |
| `LifecycleProofs.CompleteKeeps` | include/cofetch.h:920-941 | a queued message always leads to a node with a handler, and the whole invariant holds again when that handler is invoked |
| `LifecycleProofs.CheckCompletionsKeeps` | include/cofetch.h:918-943 | the completion loop with re-entrant handlers keeps the invariant and empties the queue |
| `LifecycleProofs.CurlActKeeps` | include/cofetch.h:702-719 | body and header chunks and finished transfers keep the invariant, through the pointers set on the handle |
| `LifecycleProofs.DestroyKeeps` | include/cofetch.h:315-337 | after the destructor every handle is freed once and every handler in flight is dropped once |
| `LifecycleTheorems.ExactlyOnce` | include/cofetch.h:512-645 | at every moment of every run each handler is in exactly one place: one node, one posted completion, run once, or dropped by the destructor |
| `LifecycleTheorems.DrainedMeansDelivered` | include/cofetch.h:918-943 | a living client with nothing in flight and nothing posted has run every handler exactly once |
| `LifecycleTheorems.HandlersSeeAWholeClient` | include/cofetch.h:918-942 | when a handler is invoked the client is in an ordinary reachable state, node retired and handle out of the multi, and stays so under whatever the handler does, while the message queue only shrinks |
| `LifecycleTheorems.ResponsesAreTheirOwn` | include/cofetch.h:931-941 | each handler is told about its own request: it has no error if and only if libcurl's code is 0 and that very code otherwise, or was aborted (code 42), or could not be started (27 or 2); with the response come exactly the chunks libcurl received for it, in order |
| `LifecycleTheorems.HandlerIsToldTheResult` | include/cofetch.h:920-941 | the next DONE message's handler gets that message's code and status and what its own node gathered |
| `LifecycleTheorems.StartTellsTheReason` | include/cofetch.h:512-617 | a start that fails posts out of memory (27) or failed init (2) as the case may be; one that does not puts the request in flight and posts nothing |
| `LifecycleTheorems.PostedIsDelivered` | include/cofetch.h:610-642 | a posted completion is the one its handler is run with |
| `LifecycleTheorems.ChunkArrives` | include/cofetch.h:702-719 | every chunk libcurl receives for a transfer goes to the end of that transfer's buffer, unless a hook took it elsewhere, and to no other |
| `LifecycleTheorems.RequestsAreAskedFor` | include/cofetch.h:530-578 | each transfer in flight without a hook asks libcurl for its own request's method, url, limits, headers and body, with the client's callbacks and settings, on pooled and new handles alike |
| `LifecycleTheorems.CountIsFreshAfterAnAction` | include/cofetch.h:913-916 | after a socket action the pending count is the number of transfers libcurl is not done with |
| `LifecycleTheorems.HandlesAreConserved` | include/cofetch.h:652-670 | every easy handle is in flight, pooled or freed once, never two of these; the multi holds exactly those in flight; the pool respects its cap |
| `LifecycleTheorems.PooledHandlesLeakNothing` | include/cofetch.h:479-497 | in every reachable state each transfer runs with the options of a fresh handle and pointers to its own node, and pooled nodes are blank |
| `LifecycleTheorems.StalePostFieldSize` | include/cofetch.h:530-584 | a reachable client that has delivered a POST of five characters, and a GET with a hook that, started there, runs as an upload of that size |
| `LifecycleTheorems.PendingNeverOvercounts` | include/cofetch.h:449-449 | 0 <= pending_requests <= transfers in flight less queued messages |
| `LifecycleTheorems.CancelCount` | include/cofetch.h:623-631 | what a cancellation does to the number of transfers the count leaves out, in every state, and exactly when the count is right afterwards |
| `LifecycleTheorems.UnkickedCancelMiscounts` | include/cofetch.h:597-631 | a reachable state in which cancelling a transfer libcurl was not kicked for leaves a count of 0 with another in flight |
| `LifecycleTheorems.DoneCancelMiscounts` | include/cofetch.h:623-631 | a reachable state, inside the completion loop, in which cancelling a transfer with a queued DONE message leaves a count of 0 with another in flight |
| `LifecycleTheorems.IdsDescend` | include/cofetch.h:512-528 | ids in the in-flight list strictly decrease and lie within the ids handed out |
| `LifecycleTheorems.CancelHitsItsOwn` | include/cofetch.h:586-595 | emitting request k's cancellation aborts request k, with operation_aborted and code 42, if it is in flight and changes nothing otherwise, even when its node is in use again |
| `LifecycleTheorems.UnknownIdCancelsNothing` | include/cofetch.h:623-645 | an id no request was given cancels nothing |
| `LifecycleTheorems.DestructionIsSafe` | include/cofetch.h:315-337 | after the destructor no handler in flight runs, no client or libcurl state changes, and completions posted before are neither lost nor doubled |
| `LifecycleTheorems.NoMessageWaits` | include/cofetch.h:913-943 | between event-loop steps no DONE message is left in the queue |
| `LifecycleTheorems.LastRetiredFirstDrawn` | include/cofetch.h:664-665 | a handler's first request draws the very node it was delivered from |
| `Lifecycle.Client.ConfigureHandle` | include/cofetch.h:675-694 | the option calls leave exactly the configured options, whatever was there |
| `Lifecycle.Client.SetBody` | include/cofetch.h:696-700 | POSTFIELDSIZE and POSTFIELDS are the node's body, and select a POST |
| `Lifecycle.Client.SetRequestOptions` | include/cofetch.h:530-578 | the option calls of start amount to the request's options, POSTFIELDSIZE kept for a GET |
| `Lifecycle.Client.RunHook` | include/cofetch.h:580-584 | the hook's settings come last, in order |
| `Lifecycle.Client.PrepareTransfer` | include/cofetch.h:512-597 | a node drawn or made, loaded and entered, as specified, with a handle no other node has |
| `Lifecycle.Client.Start` | include/cofetch.h:512-606 | start on objects does what the specification says |
| `Lifecycle.Client.Fail` | include/cofetch.h:610-617 | the error is posted, not delivered |
| `Lifecycle.Client.Cancel` | include/cofetch.h:623-645 | cancel on objects does what the specification says |
| `Lifecycle.Client.Retire` | include/cofetch.h:652-670 | the node is wiped and moves to the pool, or is freed with its handle when the pool is full |
| `Lifecycle.Client.MoveBuffers` | include/cofetch.h:931-932 | the buffers are handed over and leave arbitrary contents behind |
| `Lifecycle.Client.CompleteNext` | include/cofetch.h:920-941 | one turn of the completion loop delivers what the specification says |
| `Lifecycle.Client.CheckCompletions` | include/cofetch.h:918-943 | the loop on objects, handlers re-entering, does what the specification says and terminates |
| `Lifecycle.Client.BodyWriteCb` | include/cofetch.h:708-719 | a body chunk is appended to its own transfer and to no other |
| `Lifecycle.Client.HeaderCb` | include/cofetch.h:702-706 | a header chunk is appended to its own transfer and to no other |
| `Lifecycle.Client.Kick` | include/cofetch.h:913-916 | libcurl works, running_ is brought up to date, and all it completed is delivered |
| `Lifecycle.Client.RunPosted` | include/cofetch.h:610-642 | a posted completion runs with or without a living client |
| `Lifecycle.Client.Destroy` | include/cofetch.h:326-333 | each handle is freed once, none while in the multi, and nothing is left |
| `WakeupSpec.NoLostWakeup` | include/cofetch.h:872-911 | whenever libcurl waits for a reported deadline, a kick is posted or an uncancelled wait ends by then, despite skipped reschedules, cancels and stale expired waits |
| `WakeupSpec.WhatAReportDoes` | include/cofetch.h:872-911 | a negative timeout leaves no timer wait running; zero queues one kick and leaves the timer; a positive one changes nothing just when an armed timer fires by then, and otherwise leaves one wait, for that time |
| `WakeupSpec.QuietMeansOnTime` | include/cofetch.h:872-916 | an event loop with nothing ready to run is early for libcurl's deadline and still has a wait to keep it running |
| `WakeupSpec.WakeupIsEnabled` | include/cofetch.h:885-916 | once a deadline has come, the event loop alone kicks libcurl within two steps |
| `WakeupSpec.NothingPilesUp` | include/cofetch.h:879-902 | at most one kick is queued and one timer wait runs, and kick_pending_ says exactly whether one is queued |
| `WakeupSpec.RereportIsNeeded` | include/cofetch.h:897-900 | a reachable state in which a stale expired wait carries the only wake-up for a later deadline |
| `WakeupSpec.DestructionIsSafe` | include/cofetch.h:315-334 | whatever deadlines libcurl reports while the client is destroyed, kicks and timer waits that outlive it change nothing of it and call libcurl no more |
| `Wakeups.Client.TimerCb` | include/cofetch.h:872-911 | timer_cb on objects does what the specification says for every timeout |
| `Wakeups.Client.RunClosure` | include/cofetch.h:885-908 | a queued closure does what the specification says and leaves a dead client alone |
| `Wakeups.Client.Kick` | include/cofetch.h:913-916 | kick forgets the last report and hears every new one |
| `Wakeups.Client.Destroy` | include/cofetch.h:315-334 | the flag is cleared, every wait that can be cancelled is, and so is what libcurl's clean-up arms |
| `SocketTheorems.WatchedIsArmed` | include/cofetch.h:800-858 | between steps every watched direction of every open socket is armed, and a flag is set exactly while one wait exists |
| `SocketTheorems.WatchesWhatIsWanted` | include/cofetch.h:800-829 | in every reachable state a descriptor with an assigned pointer watches exactly the directions libcurl asked for last and waits for each of them, and one libcurl does not want watches nothing |
| `SocketTheorems.PollArms` | include/cofetch.h:800-858 | CURL_POLL_IN, OUT or INOUT makes the descriptor's own or newly borrowed state watch just that, with a wait for each direction asked for and no new wait for another; with no dup to be had nothing is watched |
| `SocketTheorems.OpensIpSockets` | include/cofetch.h:723-742 | just for an IP connection over IPv4 or IPv6, and if the system has one, libcurl is given a new open descriptor with a state of its own; otherwise nothing is opened |
| `SocketTheorems.EventsReachCurl` | include/cofetch.h:831-870 | a watched direction's wait, once it ends, leads to a socket action for that descriptor, from a wait armed on it, naming that direction, or an error just if the wait failed |
| `SocketTheorems.StaleWaitIsDeaf` | include/cofetch.h:839-846 | a wait of a closed or destroyed socket changes nothing, even when its number is in use again |
| `SocketTheorems.EventsAreNotMixedUp` | include/cofetch.h:839-870 | at every socket action for an event the descriptor the wait was armed on was open under its number, and the number given to libcurl meant the descriptor libcurl had under it: the same one for a socket of ours, the dup's original for a borrowed one |
| `SocketTheorems.PointersNeverDangle` | include/cofetch.h:800-825 | every pointer assigned with curl_multi_assign leads to a live state whenever it is used |
| `SocketTheorems.DescriptorsAreConserved` | include/cofetch.h:723-829 | no close names a wrong descriptor, each is open or was closed once, and each open one has an owner that will close it |
| `SocketTheorems.RemoveClosesOnlyTheDup` | include/cofetch.h:814-825 | CURL_POLL_REMOVE on a borrowed descriptor closes the dup and leaves libcurl's own open |
| `SocketTheorems.DestructionClosesEverything` | include/cofetch.h:318-334 | after the destructor every descriptor ever made was closed exactly once, whatever libcurl did meanwhile |
| `SocketTheorems.DestructionIsSafe` | include/cofetch.h:839-856 | socket waits left in the queue change nothing |
| `SocketProofs.DoKeeps` | include/cofetch.h:723-829 | every callback libcurl may make, in any state it may make it in, keeps the socket invariant |
| `SocketProofs.RunWaitKeeps` | include/cofetch.h:860-870 | on_event keeps it, whatever libcurl does to this or any socket inside |
| `Sockets.Client.OpenSocketCb` | include/cofetch.h:723-742 | the callback on objects does what the specification says, refusals included |
| `Sockets.Client.CloseSocketCb` | include/cofetch.h:744-760 | own, borrowed and unknown descriptors are each closed as specified |
| `Sockets.Client.Borrow` | include/cofetch.h:777-798 | a dup is made and registered, or nothing is left behind |
| `Sockets.Client.SocketCb` | include/cofetch.h:800-829 | the callback on objects does what the specification says |
| `Sockets.Client.Arm` | include/cofetch.h:831-858 | exactly the watched, unarmed directions of an open socket get a wait |
| `Sockets.Client.OnEvent` | include/cofetch.h:860-870 | on_event on objects does what the specification says, though libcurl may destroy the state meanwhile |
| `Sockets.Client.RunWait` | include/cofetch.h:839-856 | a wait's closure reaches only a state that can still be locked |
| `Sockets.Client.Destroy` | include/cofetch.h:318-334 | severing, libcurl's clean-up and the last states going, as specified |
| `ClientRun.EachMachineIsReachable` | include/cofetch.h:950-960 | in a run of the whole client transfers, wake-ups and sockets each follow a run of their own machine, so all of their promises hold together |
| `ClientRun.ClosuresDriveTransfers` | include/cofetch.h:860-916 | a queued kick, timer wait or socket wait moves transfers on and has completions checked if and only if it calls libcurl, once at the most |
| `ClientRun.NoStall` | include/cofetch.h:800-916 | with a transfer in flight the event loop of a living client has work, as long as libcurl waits for a deadline or for a descriptor the client has a state for |
| `ClientRun.RunReturnsWhenAllIsDelivered` | include/cofetch.h:913-943 | when the event loop runs out of work every handler has been run exactly once and the pending count is 0 |
| `ClientRun.DestructionIsSafe` | include/cofetch.h:315-337 | after the destructor no event of any kind reaches the client, libcurl or a descriptor; only completions posted before still run |
| `HeaderSpec.FinalBlockOnly` | include/cofetch.h:198-204 | what precedes the final status line changes nothing |
| `HeaderSpec.RoundTrip` | include/cofetch.h:192-222 | parsing a printed head after any earlier hops gives back its fields in order if and only if its status line has no colon |
| `HeaderSpec.ColonMakesAField` | include/cofetch.h:210-213 | a status line with a colon comes back as a field, split at its first colon |
| `HeaderSpec.ColonInReasonPhrase` | include/cofetch.h:210-213 | the status line HTTP/1.1 200 a:b is such a line |
| `HeaderSpec.ContentTypeIsFound` | include/cofetch.h:173-185 | asked for content-type, a response with the field Content-Type: text/html gives text/html |
| `HeaderSpec.TrimIs` | include/cofetch.h:217-222 | trimming is determined by what it leaves and what it takes away |
| `HeaderSpec.TrimCutsBlanks` | include/cofetch.h:217-222 | trimming cuts spaces and tabs only, from the ends only, and leaves none at either end |
| `HeaderSpec.CiEqualIsLetterCase` | include/cofetch.h:96-116 | two names are equal if and only if they are as long and differ, place by place, at most in the case of an ASCII letter |
| `HeaderSpec.CiEqualIsEquivalence` | include/cofetch.h:107-116 | comparing names without case is an equivalence on all strings |
| `HeaderSpec.EqualNamesHashAlike` | include/cofetch.h:99-106 | equal names have equal 64-bit hashes |
| `HeaderSpec.HashIsANumber` | include/cofetch.h:99-106 | the hash, wrapping at every step, is the number the lower-case bytes make to base 31, modulo 2^64 |
| `HeaderSpec.CombinedCi` | include/cofetch.h:147-166 | what the fields say for a name does not depend on its spelling |
| `HeaderSpec.TwoFieldsCombine` | include/cofetch.h:156-185 | two fields of one name, however spelled, are joined in order by a comma and a space, and a field of another name has no part in it |
| `Headers.BucketedIsLinear` | include/cofetch.h:99-116 | looking in one bucket finds what scanning every entry finds |
| `Headers.TrimView` | include/cofetch.h:218-222 | the two scans yield the trimmed text |
| `Headers.HashOf` | include/cofetch.h:101-105 | the hash loop computes the wrapping hash |
| `Headers.EqualNames` | include/cofetch.h:109-115 | the comparison loop decides equality without case |
| `Headers.CiMap.Find` | include/cofetch.h:118-124 | lookup through the hash agrees with a linear scan |
| `Headers.CiMap.Add` | include/cofetch.h:158-164 | a new name is entered in its spelling, a known one gets the value appended, and no other name changes |
| `Headers.Response.ForEachField` | include/cofetch.h:198-215 | the scan visits exactly the fields of the final block, in order |
| `Headers.Response.Headers` | include/cofetch.h:156-166 | for every bucket count the map says of each name what the fields say, under the first spelling of each |
| `Headers.Response.Header` | include/cofetch.h:173-185 | one field is the in-order combination of its values, or absent |
| `Headers.Response.ReadersAgree` | include/cofetch.h:147-185 | header(name) and lookup in headers() agree for every raw header and name |
| `BaselineTheorems.KernelAgrees` | bench/baseline/http_epoll.h:220-245 | at every moment fd_set_ is the kernel's interest list, no epoll_ctl has failed, and each mask has EPOLLIN just when libcurl's latest interest is IN or INOUT, EPOLLOUT just when it is OUT or INOUT, and nothing else |
| `BaselineTheorems.EventsAreProcessedInOrder` | bench/baseline/http_epoll.h:257-268 | libcurl acts for every ready descriptor in order, for the timeout just when none is ready, and not at all when epoll_wait fails; the pending count is exact afterwards |
| `BaselineTheorems.SubmitKicksFirst` | bench/baseline/http_epoll.h:249-255 | submit adds the handle, kicks, then processes what epoll_wait gives, and completes nothing |
| `BaselineTheorems.PollDrains` | bench/baseline/http_epoll.h:173-176 | after poll no DONE message is left, whatever callbacks submit |
| `BaselineTheorems.HandlesAreConserved` | bench/baseline/http_epoll.h:182-209 | at every moment, inside callbacks too, each easy handle is in the pool or with one request, never both |
| `BaselineTheorems.CallbacksRunOnce` | bench/baseline/http_epoll.h:270-287 | at every moment each callback has returned once or is running or still to come, and the pending count is exact |
| `BaselineTheorems.LoopTurnsAreReachable` | bench/baseline/http_epoll.h:270-287 | every callback of the completion loop, after any number of its requests, and every turn of the loop is among the moments the promises are about |
| `BaselineTheorems.CallbackNeverDrawsItsOwnHandle` | bench/baseline/http_epoll.h:279-285 | whenever a callback is running, the next request, whatever it is for, gets another handle than the one being completed, which is in no pool and out of the multi |
| `BaselineTheorems.LastRecycledFirstDrawn` | bench/baseline/http_epoll.h:184-191 | when a callback returns, the next request, whatever it is for, is given the handle of the one just completed |
| `BaselineSpec.CompleteWork` | bench/baseline/http_epoll.h:247-287 | the completion loop ends: each turn uses up one request, whatever submitting completes meanwhile |
| `Baseline.Http.constructor` | bench/baseline/http_epoll.h:150-162 | the pool starts with its handles made in order |
| `Baseline.Http.Request` | bench/baseline/http_epoll.h:182-209 | request does what the specification says |
| `Baseline.Http.SocketFn` | bench/baseline/http_epoll.h:220-245 | the socket callback does what the specification says for every interest |
| `Baseline.Http.Submit` | bench/baseline/http_epoll.h:249-255 | submit adds the handle, kicks and processes events |
| `Baseline.Http.ProcessEvents` | bench/baseline/http_epoll.h:257-268 | one action per ready descriptor, one for the timeout when none is ready, none when epoll_wait fails |
| `Baseline.Http.MultiInfoRead` | bench/baseline/http_epoll.h:270-287 | the completion loop on the fields does what the specification says and terminates |
| `ThroughputSpec.WindowIsFull` | bench/bench_cofetch.cpp:20-48 | after every step launched is in flight plus done, the window is as full as concurrency and the rest allow, in-flight counts what the client holds, and every request made is a plain GET of the url |
| `ThroughputSpec.FailuresAreCounted` | bench/bench_cofetch.cpp:33-38 | the failed count is the number of completions with an error, a libcurl code other than 0 or a status outside 200 to 299 |
| `ThroughputRun.ReturnMeansDrained` | bench/bench_cofetch.cpp:41-47 | when io_context::run returns, nothing is in flight and nothing posted |
| `ThroughputRun.ReturnMeansDone` | bench/bench_cofetch.cpp:41-47 | when io_context::run returns, every request was made and completed once, if and only if concurrency is at least 1 or there was nothing to do |
| `ThroughputSpec.NoRoomNoProgress` | bench/bench_cofetch.cpp:42-43 | without room in the window the busy-polling condition stays true forever |
| `ThroughputSpec.RefillFills` | bench/bench_cofetch.cpp:28-40 | refill tops the window up and runs no completion, so it is never entered recursively |
| `ThroughputSpec.SharesAddUp` | bench/bench_cofetch.cpp:65-71 | the shares add up to the total if and only if it is not negative or divides evenly |
| `ThroughputSpec.SharesAreEven` | bench/bench_cofetch.cpp:67-68 | shares differ by at most one, larger ones first |
| `ThroughputRun.ReturningLoopDidItsShare` | bench/bench_cofetch.cpp:65-71 | a loop that returns has done its share if and only if concurrency is at least the number of loops, or the share is nothing |
| `ThroughputSpec.MoreLoopsThanConcurrency` | bench/bench_cofetch.cpp:65-71 | two loops and a concurrency of 1: the first loop has a request to do, launches nothing and has nothing to wait for |
| `Throughput.Runner.Refill` | bench/bench_cofetch.cpp:28-40 | the loop over the captured counters does what the specification says |
| `Throughput.Runner.OnComplete` | bench/bench_cofetch.cpp:33-38 | the completion lambda updates the counters and refills |
| `Throughput.Runner.Run` | bench/bench_cofetch.cpp:41-47 | refill and any sequence of event-loop turns keep counters and window right |
| `Throughput.Split` | bench/bench_cofetch.cpp:65-71 | the workload split computes every share and their sum |

## Left out

- libcurl and ASIO themselves, sockets, DNS, TLS and HTTP: they are the environment described above; the two libraries' sources are not part of this model.
- Time spent and fairness: the event loop may run queued closures in any order, so nothing is said about when one runs, only that it is there.
- Request::curl hooks that overwrite CURLOPT_PRIVATE, WRITEDATA or HEADERDATA, re-enter the client, add the handle elsewhere or throw: a hook is any sequence of the other options.
- Handlers that destroy the client or run the event loop: the client is documented to outlive its requests. A handler posted before the destructor still runs, but starts nothing on the destroyed client.
- Moved-from handlers, slots and completion tokens: a handler is a ticket and the script it performs.
- List iterators: `Transfer::self` is the node itself, and a node is named by the number of its easy handle, made and freed with it.
- Messages other than CURLMSG_DONE: libcurl defines none.
- Memory: string reserve sizes, the header list's heap cells, reuse of addresses, out-of-memory inside lists; curl_easy_init and curl_multi_add_handle failing is modelled.
- 64-bit wrap-around of transfer ids, and of `int` counters in the benchmarks.
- Clients on several threads, the global initialisation mutex, and process-wide clean-up.
- One object for all fields: the imperative client comes as three classes over the fields each machine touches (`Lifecycle.Client`, `Wakeups.Client`, `Sockets.Client`), and `ClientRun` puts them together on values.
- The Windows branch of `borrow`.
- Rehashing of std::unordered_map: the header map is right for any fixed number of buckets.
- obs-fold continuation lines: each line stands on its own, as in the code.
- for_each_field's visitor: the scan returns the calls its visitor would receive, and the two readers act on them in order.
- The baseline's easy options, buffers and custom data; a callback's requests are submitted as they are made, and a builder never sent keeps its handle.
- RequestBuilder and the async_get shorthand: they only fill in a Request, which here is given.
- The chain scenario, reports and argument parsing of the benchmarks; other drivers, examples and scripts.
