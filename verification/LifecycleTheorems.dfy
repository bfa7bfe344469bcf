/**
 * The promises of the transfer lifecycle, for every run: any interleaving of
 * starts, cancellations, passes of libcurl, posted completions and the
 * destructor, with any script of starts and cancels in every handler.
 */
module LifecycleTheorems {
  import opened Common
  import opened EasyHandle
  import opened LifecycleSpec
  import opened LifecycleProofs

  lemma InitKeeps(cap: nat)
    ensures Inv(Init(cap))
  {
    var s := Init(cap);
    assert HandlePlaces(s) == multiset{} && HandlerPlaces(s) == multiset{};
  }

  lemma {:induction false} RunKeeps(s: State, es: seq<Event>)
    requires Inv(s)
    ensures Inv(Run(s, es))
    decreases |es|
  {
    if es != [] {
      StepKeeps(s, es[0]);
      RunKeeps(Step(s, es[0]), es[1..]);
    }
  }

  /**
   * The moments at which user code can look at a client: between the events
   * of a run, when libcurl has returned but its messages are still queued,
   * when a handler is about to be invoked in the middle of the completion
   * loop, and between the operations that handler performs.
   */
  datatype Moment = Whole(e: Event) | Pass(acts: seq<Act>) | Take | Do(op: Op)

  function Advance(s: State, m: Moment): (t: State)
    ensures s.delivered <= t.delivered
    ensures t.alive ==> s.alive && t.dropped == s.dropped
  {
    match m
    case Whole(e) => Step(s, e)
    case Pass(acts) => if s.alive then SocketAction(s, acts) else s
    case Take => if s.alive && s.msgs != [] && Complete(s).Some? then Complete(s).value else s
    case Do(op) => if s.alive then RunScript(s, [op]) else s
  }

  function Trail(s: State, ms: seq<Moment>): State
    decreases |ms|
  {
    if ms == [] then s else Trail(Advance(s, ms[0]), ms[1..])
  }

  lemma AdvanceKeeps(s: State, m: Moment)
    requires Inv(s)
    ensures Inv(Advance(s, m))
  {
    match m
    case Whole(e) => StepKeeps(s, e);
    case Pass(acts) => SocketActionKeeps(s, acts);
    case Take => if s.msgs != [] { CompleteKeeps(s); }
    case Do(op) => RunScriptKeeps(s, [op]);
  }

  lemma {:induction false} TrailKeeps(s: State, ms: seq<Moment>)
    requires Inv(s)
    ensures Inv(Trail(s, ms))
    ensures Trail(s, ms).alive ==> s.alive && Trail(s, ms).dropped == s.dropped
    ensures s.delivered <= Trail(s, ms).delivered
    decreases |ms|
  {
    if ms != [] {
      AdvanceKeeps(s, ms[0]);
      TrailKeeps(Advance(s, ms[0]), ms[1..]);
    }
  }

  ghost predicate Reachable(s: State) {
    exists cap: nat, ms: seq<Moment> :: s == Trail(Init(cap), ms)
  }

  /** Everything proved of Inv holds at every moment of every run. */
  lemma ReachableInv(s: State)
    requires Reachable(s)
    ensures Inv(s)
    ensures s.alive ==> s.dropped == []
  {
    var cap: nat, ms: seq<Moment> :| s == Trail(Init(cap), ms);
    InitKeeps(cap);
    TrailKeeps(Init(cap), ms);
  }

  // ---- the promises ----

  /**
   * Exactly once: each handler given to start is held by one in-flight node,
   * or sits in one posted completion, or was run once, or went down with the
   * client; never two of these, and never none.
   */
  lemma ExactlyOnce(s: State, k: nat)
    requires Reachable(s) && k < |s.issued|
    ensures multiset(Held(s.transfers))[k] + multiset(TicketsOf(s.posted))[k]
            + multiset(TicketsOf(s.delivered))[k] + multiset(s.dropped)[k] == 1
  {
    ReachableInv(s);
    assert HandlerPlaces(s)[k] == 1;
  }

  /** A living client with nothing in flight and an empty queue has run every handler exactly once. */
  lemma DrainedMeansDelivered(s: State)
    requires Reachable(s) && s.alive && s.transfers == [] && s.posted == []
    ensures EachOnce(multiset(TicketsOf(s.delivered)), |s.issued|)
  {
    ReachableInv(s);
    assert Held(s.transfers) == [] && TicketsOf(s.posted) == [];
    assert HandlerPlaces(s) == multiset(TicketsOf(s.delivered));
  }

  /**
   * Response isolation: what a handler is told concerns its own request, and
   * its error code says what its response says. It was aborted, or could not
   * be started, or gets the code libcurl reported for it with exactly the
   * chunks libcurl received for it, in order (less what a hook took elsewhere).
   */
  lemma ResponsesAreTheirOwn(s: State, i: nat)
    requires Reachable(s) && i < |s.delivered|
    ensures s.delivered[i].ticket < |s.issued| == |s.wire|
    ensures var c := s.delivered[i];
      && (c.ec == NoError <==> c.res.curlCode == 0)
      && (c.ec.CurlError? ==> c.ec.code == c.res.curlCode)
    ensures var c := s.delivered[i];
      var issue, w := s.issued[c.ticket], s.wire[c.ticket];
      || (c.ec == OperationAborted && c.res == Response(42, 0, "", ""))
      || (issue.env == AddFails(true) && c.ec == CurlError(27) && c.res == Response(27, 0, "", ""))
      || (issue.env in {InitFails, AddFails(false)} && c.ec == CurlError(2) && c.res == Response(2, 0, "", ""))
      || (w.finished.Some? && c.res.curlCode == w.finished.value.code && c.res.httpCode == w.finished.value.http
          && c.res.data == (if KeepsBody(issue.req) then Flatten(w.body) else "")
          && c.res.headerData == (if KeepsHead(issue.req) then Flatten(w.head) else ""))
    ensures s.issued[s.delivered[i].ticket].req.hook.None? ==>
      KeepsBody(s.issued[s.delivered[i].ticket].req) && KeepsHead(s.issued[s.delivered[i].ticket].req)
  {
    ReachableInv(s);
    assert Honest(s, s.delivered[i]);
    KeptByDefault(s.issued[s.delivered[i].ticket].req);
  }

  lemma KeptByDefault(r: Request)
    ensures r.hook.None? ==> KeepsBody(r) && KeepsHead(r)
  {
    CallbacksOfRequest(Effective(Configure(Fresh()), 0, r), 0, r);
  }

  /** The next message's handler is told what that message says, and gets what its own node has gathered. */
  lemma HandlerIsToldTheResult(s: State) returns (i: nat)
    requires Reachable(s) && s.msgs != []
    ensures Complete(s).Some? && i < |s.transfers|
    ensures var m, t := s.msgs[0], s.transfers[i];
      && t.eh == m.eh && t.handler.Some?
      && Complete(s).value.delivered == s.delivered + [Completion(
           t.handler.value, if m.code == 0 then NoError else CurlError(m.code),
           Response(m.code, m.http, t.buffer, t.headerBuffer))]
  {
    hide Inv;
    ReachableInv(s);
    i := CompleteUnfolds(s);
  }

  /** A start that fails posts the reason, and only that; one that does not posts nothing and puts the request in flight. */
  lemma StartTellsTheReason(s: State, r: Request, script: seq<Op>, env: StartEnv)
    ensures var t, k := Start(s, r, script, env), |s.issued|;
      && |t.issued| == k + 1 && t.issued[k].req == r
      && (env == AddFails(true) ==> t.posted == s.posted + [Completion(k, CurlError(27), Response(27, 0, "", ""))])
      && (env == AddFails(false) ==> t.posted == s.posted + [Completion(k, CurlError(2), Response(2, 0, "", ""))])
      && (env == InitFails && s.idle == [] ==>
            t.posted == s.posted + [Completion(k, CurlError(2), Response(2, 0, "", ""))])
      && (env == Accepts || (env == InitFails && s.idle != []) ==>
            t.posted == s.posted && t.transfers != [] && t.transfers[0].handler == Some(k)
            && t.transfers[0].eh in t.added && t.added[t.transfers[0].eh] == k)
  {
    hide Effective;
  }

  /** A completion that was posted is the one delivered. */
  lemma PostedIsDelivered(s: State, i: nat)
    requires s.alive && i < |s.posted|
    ensures Step(s, RunPosted(i)).delivered == s.delivered + [s.posted[i]]
  {
  }

  /** A chunk goes to the end of its own transfer's buffer, unless a hook took it elsewhere, and changes no other node. */
  lemma ChunkArrives(s: State, eh: nat, data: string) returns (i: nat)
    requires Reachable(s) && Busy(s, eh)
    ensures i < |s.transfers| && s.transfers[i].eh == eh && s.added[eh] < |s.issued|
    ensures var t, n, r := CurlAct(s, BodyChunk(eh, data)), s.transfers[i], s.issued[s.added[eh]].req;
      && t.wire[s.added[eh]].body == s.wire[s.added[eh]].body + [data]
      && t.transfers == s.transfers[i := n.(buffer := if KeepsBody(r) then n.buffer + data else n.buffer)]
    ensures var t, n, r := CurlAct(s, HeaderChunk(eh, data)), s.transfers[i], s.issued[s.added[eh]].req;
      && t.wire[s.added[eh]].head == s.wire[s.added[eh]].head + [data]
      && t.transfers == s.transfers[i := n.(headerBuffer := if KeepsHead(r) then n.headerBuffer + data else n.headerBuffer)]
  {
    hide Inv, Core, CurlAct, KeepsBody, KeepsHead;
    ReachableInv(s);
    InvIsCore(s);
    i := ChunkUnfolds(s, eh, data);
    BusyIs(s, eh, i);
    assert s.transfers[i := s.transfers[i]] == s.transfers;
  }

  lemma BusyIs(s: State, eh: nat, i: nat)
    requires Core(s) && Busy(s, eh) && s.easy[eh].req.writeData.NodePtr?
    requires IndexOfEh(s.transfers, s.easy[eh].req.writeData.node) == Some(i)
    ensures i < |s.transfers| && s.transfers[i].eh == eh && s.added[eh] < |s.issued|
    ensures s.easy[eh].config.writeFunction == BodyWriteCb <==> KeepsBody(s.issued[s.added[eh]].req)
    ensures s.easy[eh].config.headerFunction == HeaderCb <==> KeepsHead(s.issued[s.added[eh]].req)
  {
    hide Nodes, Multi, Outcomes, Ids, EachOnce, Matches, KeepsBody, KeepsHead;
    var j := BusyNode(s, eh);
  }

  /**
   * What libcurl is asked to do for each transfer in flight whose request has
   * no hook: the request's method, target, limits, headers and body, with the
   * client's own callbacks and settings.
   */
  lemma RequestsAreAskedFor(s: State, i: nat)
    requires Reachable(s) && i < |s.transfers|
    ensures var t := s.transfers[i];
      && t.handler.Some? && t.handler.value < |s.issued| && t.eh in s.easy
      && var r, o, c := s.issued[t.handler.value].req, s.easy[t.eh].req, s.easy[t.eh].config;
      r.hook.None? ==>
        && WireMethod(o) == (match r.verb case GET => "GET" case POST => "POST" case PUT => "PUT"
                             case PATCH => "PATCH" case DEL => "DELETE")
        && o.url == r.url && o.timeoutMs == r.timeoutMs && o.maxRedirs == r.maxRedirects
        && (o.followLocation == 1 <==> r.maxRedirects != 0) && (o.followLocation == 0 <==> r.maxRedirects == 0)
        && o.httpHeader == (if r.headers == [] then Null else HeaderListPtr(t.eh)) && t.headers == r.headers
        && (r.verb == GET ==> o.verb == GetVerb && o.postFields == Null)
        && (r.verb != GET ==> o.verb == PostVerb && o.postFields == BodyPtr(t.eh) && o.postFieldSize == |r.body|)
        && t.body == r.body
        && c == Config(BodyWriteCb, HeaderCb, 1, 30, Some(""), 1, 524288, OpenSocketCb, true, CloseSocketCb, true)
  {
    ReachableInv(s);
    hide Matches;
    var t := s.transfers[i];
    assert InFlightOk(s, t);
    if s.issued[t.handler.value].req.hook.None? {
      WhatIsAsked(s.easy[t.eh], t.eh, s.issued[t.handler.value].req);
    }
  }

  /** When libcurl returns, pending_requests is the number of transfers it is not done with. */
  lemma CountIsFreshAfterAnAction(s: State, acts: seq<Act>)
    requires Reachable(s)
    ensures var t := SocketAction(s, acts); t.running == |t.transfers| - |t.msgs|
  {
    hide Inv, Core, SocketAction;
    ReachableInv(s);
    InvIsCore(s);
    SocketActionKeeps(s, acts);
  }

  /** Every easy handle ever made is in flight, pooled, or freed, and in one of these places only. */
  lemma HandlesAreConserved(s: State, eh: nat)
    requires Reachable(s) && eh < s.nextEasy
    ensures multiset(Ehs(s.transfers))[eh] + multiset(Ehs(s.idle))[eh] + multiset(s.freed)[eh] == 1
    ensures eh in s.easy <==> eh !in s.freed
    ensures eh in s.added <==> eh in Ehs(s.transfers)
    ensures |s.idle| <= s.maxPooled
  {
    ReachableInv(s);
    assert HandlePlaces(s)[eh] == 1;
    assert eh in Ehs(s.transfers) <==> eh in multiset(Ehs(s.transfers));
    assert eh in Ehs(s.idle) <==> eh in multiset(Ehs(s.idle));
    assert eh in s.freed <==> eh in multiset(s.freed);
  }

  /**
   * In every reachable state each transfer in flight runs with the options a
   * fresh handle would give its request, up to a POSTFIELDSIZE that request
   * leaves alone, and its handle points at its own node; and each pooled
   * handle is fit for any next request.
   */
  lemma PooledHandlesLeakNothing(s: State, i: nat)
    requires Reachable(s)
    ensures i < |s.transfers| ==>
      var t := s.transfers[i];
      && t.handler.Some? && t.handler.value < |s.issued| && t.eh in s.easy
      && var r, o := s.issued[t.handler.value].req, s.easy[t.eh];
      && Matches(o, t.eh, r) && t.body == r.body && t.headers == r.headers
      && o.req.writeData == NodePtr(t.eh) && o.req.headerData == HeaderBufferPtr(t.eh) && o.req.private_ == NodePtr(t.eh)
      && (r.hook.None? ==> o.req.httpHeader in {Null, HeaderListPtr(t.eh)} && o.req.postFields in {Null, BodyPtr(t.eh)})
    ensures i < |s.idle| ==>
      && s.idle[i] == Node(s.idle[i].eh, [], "", "", "", None, 0, false)
      && s.idle[i].eh in s.easy && PoolReady(s.easy[s.idle[i].eh])
  {
    ReachableInv(s);
    if i < |s.transfers| {
      var t := s.transfers[i];
      assert InFlightOk(s, t);
      MatchingOptions(s.easy[t.eh], t.eh, s.issued[t.handler.value].req);
    }
    if i < |s.idle| {
      assert IdleOk(s, s.idle[i]);
    }
  }

  /** pending_requests never counts more than is in flight and not done, so it is 0 when nothing is. */
  lemma PendingNeverOvercounts(s: State)
    requires Reachable(s)
    ensures 0 <= s.running <= |s.transfers| - |s.msgs|
  {
    ReachableInv(s);
  }

  /** The in-flight list runs from the newest id down to the oldest, within the ids handed out. */
  lemma IdsDescend(s: State, i: nat, j: nat)
    requires Reachable(s) && i < j < |s.transfers|
    ensures s.nextId >= s.transfers[i].id > s.transfers[j].id > 0
  {
    ReachableInv(s);
    IdsBounded(s);
  }

  /** The node with request k's id is the node holding request k's handler. */
  lemma IdNamesItsRequest(s: State, k: nat, i: nat)
    requires Inv(s) && k < |s.issued| && s.issued[k].id > 0 && i < |s.transfers|
    ensures s.transfers[i].handler.Some? && (s.transfers[i].id == s.issued[k].id <==> Held(s.transfers)[i] == k)
  {
    assert InFlightOk(s, s.transfers[i]);
  }

  lemma CancelEffect(s: State, i: nat)
    requires i < |s.transfers| && s.transfers[i].handler.Some?
    requires IndexOfId(s.transfers, s.transfers[i].id) == Some(i)
    ensures var t := Cancel(s, s.transfers[i].id);
      && t.transfers == RemoveAt(s.transfers, i) && t.added == s.added - {s.transfers[i].eh}
      && t.posted == s.posted + [Completion(s.transfers[i].handler.value, OperationAborted, Response(42, 0, "", ""))]
  {
  }

  /**
   * Cancellation identity: emitting the cancellation of request k aborts that
   * request if it is in flight, and otherwise (completed, refused by libcurl,
   * its node reused by a later request) changes nothing.
   */
  lemma CancelHitsItsOwn(s: State, k: nat) returns (i: nat)
    requires Reachable(s) && k < |s.issued| && s.issued[k].id > 0
    ensures k !in Held(s.transfers) ==> Cancel(s, s.issued[k].id) == s
    ensures k in Held(s.transfers) ==>
      && i < |s.transfers| && s.transfers[i].handler == Some(k)
      && var t := Cancel(s, s.issued[k].id);
      && t.transfers == RemoveAt(s.transfers, i)
      && t.posted == s.posted + [Completion(k, OperationAborted, Response(42, 0, "", ""))]
      && t.added == s.added - {s.transfers[i].eh}
  {
    ReachableInv(s);
    var found := IndexOfId(s.transfers, s.issued[k].id);
    if found.Some? {
      i := found.value;
      IdNamesItsRequest(s, k, i);
      CancelEffect(s, i);
      assert Held(s.transfers)[i] == k;
    } else {
      i := 0;
      forall j | 0 <= j < |s.transfers| ensures Held(s.transfers)[j] != k {
        IdNamesItsRequest(s, k, j);
      }
    }
  }

  /** An id that no request was given cancels nothing. */
  lemma UnknownIdCancelsNothing(s: State, id: nat)
    requires Reachable(s) && (id == 0 || id > s.nextId)
    ensures Cancel(s, id) == s
  {
    ReachableInv(s);
    IdsBounded(s);
  }

  /** What a destroyed client can still do: run the completions already posted, each once. */
  lemma {:induction false} AfterDestruction(d: State, es: seq<Event>)
    requires !d.alive
    ensures var t := Run(d, es);
      && t == d.(posted := t.posted, delivered := t.delivered)
      && multiset(t.posted) + multiset(t.delivered) == multiset(d.posted) + multiset(d.delivered)
    decreases |es|
  {
    hide Step;
    if es != [] {
      DeadStep(d, es[0]);
      AfterDestruction(Step(d, es[0]), es[1..]);
    }
  }

  lemma DeadStep(d: State, e: Event)
    requires !d.alive
    ensures var t := Step(d, e);
      && t == d.(posted := t.posted, delivered := t.delivered)
      && multiset(t.posted) + multiset(t.delivered) == multiset(d.posted) + multiset(d.delivered)
  {
    if e.RunPosted? && e.i < |d.posted| {
      RemoveAtMultiset(d.posted, e.i);
    }
  }

  /**
   * Destruction safety: whatever runs after ~Client touches no client or
   * libcurl state, no handler that was in flight is ever run, and the
   * completions posted before still run, each at most once and none lost.
   */
  lemma DestructionIsSafe(s: State, es: seq<Event>, k: nat)
    requires Reachable(s) && s.alive && k in Held(s.transfers)
    ensures var t := Run(Destroy(s), es);
      && k !in TicketsOf(t.delivered) && k !in TicketsOf(t.posted)
      && t.easy == map[] && t.added == map[] && t.freed == Destroy(s).freed && t.issued == s.issued
      && multiset(t.posted) + multiset(t.delivered) == multiset(s.posted) + multiset(s.delivered)
  {
    ReachableInv(s);
    DestroyKeeps(s);
    MultiCounts(s);
    var d := Destroy(s);
    RunKeeps(d, es);
    AfterDestruction(d, es);
    var t := Run(d, es);
    assert k in multiset(Held(s.transfers));
    assert t.dropped == s.dropped + Held(s.transfers);
    assert HandlerPlaces(t)[k] <= 1;
    assert multiset(t.dropped)[k] >= 1;
    assert k in TicketsOf(t.delivered) ==> k in multiset(TicketsOf(t.delivered));
    assert k in TicketsOf(t.posted) ==> k in multiset(TicketsOf(t.posted));
  }

  /** Between the events of a run no message waits: what libcurl announces in one pass is completed in that pass. */
  lemma {:induction false} NoMessageWaits(s: State, es: seq<Event>)
    requires Inv(s) && s.msgs == []
    ensures Run(s, es).msgs == []
    decreases |es|
  {
    hide Inv, Step;
    if es != [] {
      StepKeeps(s, es[0]);
      StepDrains(s, es[0]);
      NoMessageWaits(Step(s, es[0]), es[1..]);
    }
  }

  lemma StepDrains(s: State, e: Event)
    requires Inv(s) && s.msgs == []
    ensures Step(s, e).msgs == []
  {
    hide Inv, SocketAction, CheckCompletions, Core;
    if e.Action? {
      InvIsCore(s);
      SocketActionKeeps(s, e.acts);
      CheckCompletionsKeeps(SocketAction(s, e.acts));
    }
  }

  /** How many transfers that libcurl is not done with pending_requests leaves out. */
  function Uncounted(s: State): int {
    |s.transfers| - |s.msgs| - s.running
  }

  /**
   * What a cancellation does to the count, whatever it was: it is right unless
   * the transfer was done already, in which case one more is left out, or the
   * count was 0, in which case a transfer that was not counted goes.
   */
  lemma CancelCount(s: State, i: nat)
    requires Inv(s) && i < |s.transfers|
    ensures var t, done := Cancel(s, s.transfers[i].id), Done(s.msgs, s.transfers[i].eh);
      && |t.transfers| == |s.transfers| - 1 && |t.msgs| == |s.msgs| - (if done then 1 else 0)
      && Uncounted(t) == Uncounted(s) + (if s.running > 0 then (if done then 1 else 0) else (if done then 0 else -1))
      && (Uncounted(t) == 0 <==> if s.running > 0 then Uncounted(s) == 0 && !done else Uncounted(s) == if done then 0 else 1)
  {
    hide Inv, Cancel, Done;
    CancelFinds(s, i);
    CancelSizes(s, i);
  }

  lemma CancelFinds(s: State, i: nat)
    requires Inv(s) && i < |s.transfers|
    ensures IndexOfId(s.transfers, s.transfers[i].id) == Some(i) && s.transfers[i].handler.Some?
    ensures DistinctEhs(s.msgs) && s.running >= 0 && Uncounted(s) >= 0
  {
    hide Multi, Outcomes, EachOnce;
    MessagesDistinct(s);
    assert InFlightOk(s, s.transfers[i]);
    var found := IndexOfId(s.transfers, s.transfers[i].id);
    assert found.Some? && !(found.value < i) && !(i < found.value);
  }

  lemma MessagesDistinct(s: State)
    requires Multi(s)
    ensures DistinctEhs(s.msgs)
  {
  }

  lemma CancelSizes(s: State, i: nat)
    requires i < |s.transfers| && IndexOfId(s.transfers, s.transfers[i].id) == Some(i) && s.transfers[i].handler.Some?
    requires DistinctEhs(s.msgs)
    ensures var t, done := Cancel(s, s.transfers[i].id), Done(s.msgs, s.transfers[i].eh);
      && |t.transfers| == |s.transfers| - 1 && |t.msgs| == |s.msgs| - (if done then 1 else 0)
      && t.running == if s.running > 0 then s.running - 1 else s.running
  {
    hide Done;
    DropMsgsKeeps(s.msgs, s.transfers[i].eh);
  }

  const Plain := Request("", GET, [], "", 0, 0, None)

  /** A start that libcurl accepts, as a moment of a run. */
  lemma Started(s: State, r: Request) returns (t: State)
    requires Reachable(s) && s.alive
    ensures Reachable(t) && t.alive && t == Start(s, r, [], Accepts)
    ensures |t.transfers| == |s.transfers| + 1 && t.transfers[1..] == s.transfers
    ensures t.transfers[0].eh == NextHandle(s) && t.transfers[0].scrub == r.hook.Some?
    ensures t.msgs == s.msgs && t.running == s.running && t.idle == (if s.idle == [] then [] else s.idle[1..])
    ensures t.maxPooled == s.maxPooled && t.nextEasy == s.nextEasy + if s.idle == [] then 1 else 0
    ensures NextHandle(s) !in s.added && t.added == s.added[NextHandle(s) := |s.issued|] && |t.issued| == |s.issued| + 1
    ensures t.easy.Keys == s.easy.Keys + {NextHandle(s)} && |t.wire| == |t.issued|
    ensures s.idle != [] ==> NextHandle(s) in s.easy
    ensures t.easy[NextHandle(s)] == Effective(if s.idle == [] then Configure(Fresh()) else s.easy[NextHandle(s)], NextHandle(s), r)
  {
    hide Inv, Effective;
    ReachableInv(s);
    StartFacts(s, r);
    t := Start(s, r, [], Accepts);
    StartKeeps(s, r, [], Accepts);
    InvIsCore(t);
    ReachableNext(s, Whole(UserStart(r, [], Accepts)));
  }

  /** A retired node is the first to be used again, so a handler that starts a request gets the node it was delivered from. */
  lemma LastRetiredFirstDrawn(s: State)
    requires Reachable(s) && s.alive && s.msgs != [] && |s.idle| < s.maxPooled
    ensures Complete(s).Some?
    ensures var c := Complete(s).value; NextHandle(c) == s.msgs[0].eh && c.idle == [Blank(s.msgs[0].eh)] + s.idle
  {
    ReachableInv(s);
    hide Inv;
    var i := CompleteUnfolds(s);
  }

  lemma {:induction false} TrailSnoc(s: State, ms: seq<Moment>, m: Moment)
    ensures Trail(s, ms + [m]) == Advance(Trail(s, ms), m)
    decreases |ms|
  {
    if ms == [] {
      assert [m][1..] == [];
    } else {
      assert (ms + [m])[1..] == ms[1..] + [m];
      TrailSnoc(Advance(s, ms[0]), ms[1..], m);
    }
  }

  lemma ReachableNext(s: State, m: Moment)
    requires Reachable(s)
    ensures Reachable(Advance(s, m))
  {
    var cap: nat, ms: seq<Moment> :| s == Trail(Init(cap), ms);
    TrailSnoc(Init(cap), ms, m);
  }

  /**
   * The completion loop is ready for re-entrance: when a handler is invoked
   * the client is in a reachable state like any other, its message is off the
   * queue, its handle out of the multi, its node out of the in-flight list;
   * and whatever operations the handler performs, the state stays reachable
   * and the queue of messages, which the loop runs down, does not grow.
   */
  lemma HandlersSeeAWholeClient(s: State, op: Op)
    requires Reachable(s) && s.alive && s.msgs != []
    ensures Complete(s).Some?
    ensures var c := Complete(s).value;
      && Reachable(c) && |c.msgs| < |s.msgs| && c.delivered[..|s.delivered|] == s.delivered
      && s.msgs[0].eh !in c.added && s.msgs[0].eh !in Ehs(c.transfers) && !Done(c.msgs, s.msgs[0].eh)
      && Reachable(RunScript(c, [op])) && |RunScript(c, [op]).msgs| <= |c.msgs|
  {
    hide Inv, RunScript;
    ReachableInv(s);
    CompleteKeeps(s);
    var c := Complete(s).value;
    ReachableNext(s, Take);
    ReachableNext(c, Do(op));
    LeftTheMulti(s, c);
  }

  lemma LeftTheMulti(s: State, c: State)
    requires Inv(s) && Inv(c) && s.msgs != [] && Complete(s) == Some(c)
    ensures s.msgs[0].eh !in c.added && s.msgs[0].eh !in Ehs(c.transfers) && !Done(c.msgs, s.msgs[0].eh)
  {
    hide Nodes, Ids, Outcomes, EachOnce;
    var i := CompleteUnfolds(s);
  }

  // ---- runs in which something goes unnoticed ----

  lemma Beginning(cap: nat)
    ensures Reachable(Init(cap))
  {
    assert Init(cap) == Trail(Init(cap), []);
  }

  /** libcurl finishes a transfer. */
  lemma FinishAct(s: State, eh: nat) returns (t: State)
    requires Core(s) && eh in s.added && !Done(s.msgs, eh)
    ensures t == CurlAct(s, Finish(eh, CURLE_OK, 200)) && Core(t)
    ensures t == s.(msgs := s.msgs + [Msg(eh, CURLE_OK, 200)], wire := t.wire)
  {
    hide Core;
    t := CurlAct(s, Finish(eh, CURLE_OK, 200));
    CurlActKeeps(s, Finish(eh, CURLE_OK, 200));
    BusyWhenAdded(s, eh);
  }

  lemma BusyWhenAdded(s: State, eh: nat)
    requires Core(s) && eh in s.added && !Done(s.msgs, eh)
    ensures Busy(s, eh)
  {
    var i :| 0 <= i < |s.transfers| && Ehs(s.transfers)[i] == eh;
    assert InFlightOk(s, s.transfers[i]);
  }

  /** A pass of libcurl in which no transfer gets anywhere. */
  lemma Kicked(s: State) returns (t: State)
    requires Reachable(s) && s.alive
    ensures Reachable(t) && t == s.(running := |s.added| - |s.msgs|)
  {
    hide Reachable;
    t := SocketAction(s, []);
    ReachableNext(s, Pass([]));
  }

  /** One pass of libcurl in which the transfers of ehs, in turn, come to their end. */
  lemma Finished(s: State, eh: nat) returns (t: State)
    requires Reachable(s) && s.alive && eh in s.added && s.msgs == []
    ensures Reachable(t) && t.alive && t == s.(msgs := [Msg(eh, CURLE_OK, 200)], wire := t.wire, running := |s.added| - 1)
  {
    hide Inv, Core, CurlAct;
    ReachableInv(s);
    InvIsCore(s);
    var a := Finish(eh, CURLE_OK, 200);
    var q := FinishAct(s, eh);
    assert CurlActs(s, [a]) == CurlActs(q, []);
    t := SocketAction(s, [a]);
    ReachableNext(s, Pass([a]));
  }

  lemma BothFinished(s: State, x: nat, y: nat) returns (t: State)
    requires Reachable(s) && s.alive && x in s.added && y in s.added && x != y && s.msgs == []
    ensures Reachable(t) && t.alive
    ensures t == s.(msgs := [Msg(x, CURLE_OK, 200), Msg(y, CURLE_OK, 200)], wire := t.wire, running := |s.added| - 2)
  {
    hide Inv, Core, CurlAct;
    ReachableInv(s);
    InvIsCore(s);
    var a, b := Finish(x, CURLE_OK, 200), Finish(y, CURLE_OK, 200);
    var p := FinishAct(s, x);
    var q := FinishAct(p, y);
    assert [a, b][1..] == [b] && CurlActs(p, [b]) == CurlActs(q, []);
    t := SocketAction(s, [a, b]);
    ReachableNext(s, Pass([a, b]));
  }

  /** The first message is taken, and its handler invoked. */
  lemma HandlerRuns(s: State) returns (c: State, i: nat)
    requires Reachable(s) && s.alive && s.msgs != []
    ensures i < |s.transfers| && s.transfers[i].eh == s.msgs[0].eh && s.msgs[0].eh in s.easy
    ensures Reachable(c) && c.alive && c.transfers == RemoveAt(s.transfers, i) && c.msgs == s.msgs[1..]
    ensures c.running == s.running && c.delivered != [] && c.maxPooled == s.maxPooled
    ensures |s.idle| < s.maxPooled && !s.transfers[i].scrub ==> c.idle == [Blank(s.msgs[0].eh)] + s.idle && c.easy == s.easy
  {
    hide Inv;
    ReachableInv(s);
    CompleteKeeps(s);
    ReachableNext(s, Take);
    c := Complete(s).value;
    i := CompleteUnfolds(s);
    OthersStay(s);
  }

  lemma OthersStay(s: State)
    requires Inv(s) && s.msgs != []
    ensures DropMsgs(s.msgs[1..], s.msgs[0].eh) == s.msgs[1..]
  {
    DropMsgsNone(s.msgs[1..], s.msgs[0].eh);
  }

  /**
   * A transfer libcurl was not kicked for is not counted, yet cancelling it
   * lowers the count: here it drops to 0 with the other transfer, which was
   * counted, in flight.
   */
  lemma UnkickedCancelMiscounts() returns (s: State)
    ensures Reachable(s) && s.alive && |s.transfers| == 2 && s.msgs == [] && s.running == 1
    ensures var t := Cancel(s, s.transfers[0].id); |t.transfers| == 1 && t.msgs == [] && t.running == 0
  {
    hide Inv, Core, Start, Cancel, Reachable, Effective;
    Beginning(0);
    s := Started(Init(0), Plain);
    s := Kicked(s);
    s := Started(s, Plain);
    ReachableInv(s);
    CancelCount(s, 0);
  }

  /** Three transfers, of which the first and the last started were done in one pass. */
  lemma TwoOfThree() returns (s: State)
    ensures Reachable(s) && s.alive && |s.transfers| == 3 && s.running == 1
    ensures s.transfers[0].eh == 2 && s.transfers[1].eh == 1 && s.transfers[2].eh == 0
    ensures s.msgs == [Msg(0, CURLE_OK, 200), Msg(2, CURLE_OK, 200)]
  {
    hide Inv, Core, Start, Reachable, Effective;
    Beginning(0);
    var first := Started(Init(0), Plain);
    var second := Started(first, Plain);
    var third := Started(second, Plain);
    assert third.transfers[1] == third.transfers[1..][0] == second.transfers[0];
    assert third.transfers[2] == third.transfers[1..][1] == second.transfers[1] == second.transfers[1..][0];
    s := BothFinished(third, 0, 2);
  }

  lemma HeadDone(s: State)
    requires s.transfers != [] && s.msgs != [] && s.msgs[0].eh == s.transfers[0].eh
    ensures Done(s.msgs, s.transfers[0].eh)
  {
  }

  /**
   * A handler cancels a transfer that was done in the same pass: the count, so
   * far exact, drops to 0 with the third transfer in flight.
   */
  lemma DoneCancelMiscounts() returns (s: State)
    ensures Reachable(s) && s.alive && |s.transfers| == 2 && s.msgs == [Msg(s.transfers[0].eh, CURLE_OK, 200)]
    ensures s.delivered != [] && s.running == 1 == |s.transfers| - |s.msgs|
    ensures var t := Cancel(s, s.transfers[0].id); |t.transfers| == 1 && t.msgs == [] && t.running == 0
  {
    hide Inv, Core, Start, Cancel, Reachable, Done;
    var b := TwoOfThree();
    var i: nat;
    s, i := HandlerRuns(b);
    assert i == 2;
    ReachableInv(s);
    HeadDone(s);
    CancelCount(s, 0);
  }

  /**
   * A pooled handle remembers the size of the last upload. Here a POST with a
   * body of five characters has completed; a GET whose hook makes it an upload
   * of the hook's own then runs with that size, where a fresh handle would
   * leave it to libcurl to find out.
   */
  lemma StalePostFieldSize() returns (s: State, r: Request)
    ensures Reachable(s) && s.alive && s.transfers == [] && s.msgs == [] && |s.idle| == 1 && s.delivered != []
    ensures r.verb.GET?
    ensures var t := Start(s, r, [], Accepts);
      && t.transfers != [] && t.transfers[0].eh in t.easy
      && var n := t.transfers[0].eh;
      && t.easy[n].req.verb == PostVerb && t.easy[n].req.postFieldSize == 5
      && Effective(Configure(Fresh()), n, r).req.verb == PostVerb
      && Effective(Configure(Fresh()), n, r).req.postFieldSize == -1
  {
    hide Start, Effective;
    var post := Request("", POST, [], "12345", 0, 0, None);
    s := DeliveredOne(post);
    var hook: seq<HookSetting> := [PostFields(ForeignPtr(0))];
    r := Plain.(hook := Some(hook));
    var t := Started(s, r);
    UploadThenHook(post, r, hook);
  }

  /** A client with room in its pool starts one request without a hook and delivers it. */
  lemma DeliveredOne(r: Request) returns (s: State)
    requires r.hook.None?
    ensures Reachable(s) && s.alive && s.transfers == [] && s.msgs == [] && s.idle == [Blank(0)] && s.delivered != []
    ensures 0 in s.easy && s.easy[0] == Effective(Configure(Fresh()), 0, r)
  {
    hide Inv, Core, Start, Complete, Effective, CurlAct, Reachable;
    Beginning(1);
    s := Started(Init(1), r);
    s := Finished(s, 0);
    var i: nat;
    s, i := HandlerRuns(s);
  }

  lemma UploadThenHook(post: Request, r: Request, hook: seq<HookSetting>)
    requires post.verb.POST? && |post.body| == 5 && post.hook.None?
    requires r.verb.GET? && r.hook == Some(hook) && hook == [PostFields(ForeignPtr(0))]
    ensures var o := Effective(Effective(Configure(Fresh()), 0, post), 0, r); o.req.verb == PostVerb && o.req.postFieldSize == 5
    ensures var o := Effective(Configure(Fresh()), 0, r); o.req.verb == PostVerb && o.req.postFieldSize == -1
  {
    assert forall x: Options :: SetAll(x, hook) == SetAll(Set(x, hook[0]), []);
  }
}
