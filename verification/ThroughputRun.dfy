/**
 * run_throughput over the whole client: the counters, the wake-ups and the
 * sockets of one event loop, up to the point where io_context::run returns.
 */
module ThroughputRun {
  import opened Common
  import L = LifecycleSpec
  import LP = LifecycleProofs
  import W = WakeupSpec
  import S = SocketSpec
  import SP = SocketProofs
  import ST = SocketTheorems
  import T = ThroughputSpec
  import opened ClientRun

  datatype Loop = Loop(bench: T.Bench, wake: W.State, sock: S.State)

  /** The client below the counters. */
  function Client(r: Loop): State {
    State(r.bench.client, r.wake, r.sock)
  }

  /** The completion loop, each handler refilling the window before the next message is read. */
  function DeliverAll(b: T.Bench, n: nat): T.Bench
    decreases n
  {
    if n == 0 then b else DeliverAll(T.Advance(b, T.Deliver), n - 1)
  }

  /** libcurl works, then all it completed is delivered: as many handlers as there are messages. */
  function Pass(b: T.Bench, acts: seq<L.Act>): T.Bench {
    var t := T.Advance(b, T.Work(acts));
    DeliverAll(t, |t.client.msgs|)
  }

  /** The program makes no calls of its own once it runs the event loop, and outlives it. */
  predicate OfTheLoop(e: Event) {
    !e.Start? && !e.Cancel? && !e.Destruct?
  }

  function Turn(r: Loop, e: Event): T.Bench {
    match e
    case RunClosure(i, acts, _) => if Kicks(r.wake, i) then Pass(r.bench, acts) else r.bench
    case RunWait(i, acts, _) => if Hears(r.sock, i) then Pass(r.bench, acts) else r.bench
    case RunPosted(i, _) => T.Advance(r.bench, T.Posted(i))
    case _ => r.bench
  }

  function Go(r: Loop, e: Event): Loop {
    if !OfTheLoop(e) then r
    else Loop(Turn(r, e), W.Run(r.wake, WakeEvent(Client(r), e)), S.Run(r.sock, SockEvent(Client(r), e)))
  }

  function Going(r: Loop, es: seq<Event>): Loop
    decreases |es|
  {
    if es == [] then r else Going(Go(r, es[0]), es[1..])
  }

  /** The first refill, before the event loop runs; side is what libcurl asks for while handles are added. */
  function Begin(url: string, total: int, concurrency: int, envs: seq<L.StartEnv>, cap: nat, now: nat, side: Side): Loop {
    Loop(T.Begin(url, total, concurrency, envs, cap),
         W.Step(W.Init(now), W.CurlCall(side.reports)), S.Step(S.Init(), S.CurlCall(side.socks)))
  }

  ghost predicate Reached(r: Loop) {
    exists cap: nat, now: nat, side: Side, es: seq<Event> ::
      r == Going(Begin(r.bench.url, r.bench.total, r.bench.concurrency, r.bench.envs, cap, now, side), es)
  }

  /** What holds between the turns of the event loop. */
  ghost predicate Running(r: Loop) {
    && T.Reachable(r.bench) && W.Reachable(r.wake) && ST.Reachable(r.sock)
    && r.wake.alive && r.sock.alive && r.bench.client.msgs == []
  }

  lemma {:induction false} DeliverAllKeeps(b: T.Bench, n: nat)
    requires T.Reachable(b) && |b.client.msgs| <= n
    ensures T.Reachable(DeliverAll(b, n)) && DeliverAll(b, n).client.msgs == []
    decreases n
  {
    hide T.Reachable, T.Advance;
    if n > 0 {
      DeliverShrinks(b);
      T.ReachableNext(b, T.Deliver);
      DeliverAllKeeps(T.Advance(b, T.Deliver), n - 1);
    }
  }

  lemma DeliverShrinks(b: T.Bench)
    requires T.Reachable(b)
    ensures var c := T.Advance(b, T.Deliver);
      if b.client.msgs == [] then c.client.msgs == [] else |c.client.msgs| < |b.client.msgs|
  {
    hide T.Reachable, LP.Inv, T.Refill;
    T.ReachableKeeps(b);
    if b.client.msgs != [] {
      T.DeliverStep(b.client);
      var c := L.Complete(b.client).value;
      RefillQueues(b, c, T.LastOf(c));
    }
  }

  /** Nothing a refill does queues a message. */
  lemma {:induction false} RefillMessages(b: T.Bench)
    ensures T.Refill(b).client.msgs == b.client.msgs
    decreases b.total - b.launched
  {
    hide L.Start;
    if b.inFlight < b.concurrency && b.launched < b.total {
      RefillMessages(T.Launch(b));
    }
  }

  lemma RefillQueues(b: T.Bench, c: L.State, x: L.Completion)
    ensures T.OnComplete(b.(client := c), x).client.msgs == c.msgs
  {
    RefillMessages(b.(client := c, inFlight := b.inFlight - 1, done := b.done + 1,
                      failed := if T.Bad(x) then b.failed + 1 else b.failed));
  }

  lemma PassKeeps(b: T.Bench, acts: seq<L.Act>)
    requires T.Reachable(b)
    ensures T.Reachable(Pass(b, acts)) && Pass(b, acts).client.msgs == []
  {
    hide T.Reachable, T.Advance;
    T.ReachableNext(b, T.Work(acts));
    DeliverAllKeeps(T.Advance(b, T.Work(acts)), |T.Advance(b, T.Work(acts)).client.msgs|);
  }

  lemma PostedKeeps(b: T.Bench, i: nat)
    requires T.Reachable(b) && b.client.msgs == []
    ensures T.Reachable(T.Advance(b, T.Posted(i))) && T.Advance(b, T.Posted(i)).client.msgs == []
  {
    hide T.Reachable, T.Refill;
    T.ReachableNext(b, T.Posted(i));
    if i < |b.client.posted| {
      RefillQueues(b, L.Step(b.client, L.RunPosted(i)), b.client.posted[i]);
      PostedQueues(b, i);
    }
  }

  lemma PostedQueues(b: T.Bench, i: nat)
    requires b.client.msgs == [] && i < |b.client.posted|
    ensures L.Step(b.client, L.RunPosted(i)).msgs == []
  {
  }

  lemma GoKeeps(r: Loop, e: Event)
    requires Running(r)
    ensures Running(Go(r, e))
  {
    hide T.Reachable, W.Reachable, ST.Reachable, T.Advance, W.Step, S.Step, Pass;
    var w, k := WakeEvent(Client(r), e), SockEvent(Client(r), e);
    if OfTheLoop(e) {
      match e {
        case RunClosure(_, acts, _) => PassKeeps(r.bench, acts);
        case RunWait(_, acts, _) => PassKeeps(r.bench, acts);
        case RunPosted(i, _) => PostedKeeps(r.bench, i);
        case _ =>
      }
      ST.ReachableInv(r.sock);
      if |w| == 1 {
        W.ReachableNext(r.wake, w[0]);
        WakeStepAlive(r.wake, w[0]);
        assert w == [w[0]] && W.Run(r.wake, w) == W.Step(r.wake, w[0]);
      }
      if |k| == 1 {
        ST.ReachableNext(r.sock, k[0]);
        SP.StepKeeps(r.sock, k[0]);
        assert k == [k[0]] && S.Run(r.sock, k) == S.Step(r.sock, k[0]);
      }
    }
  }

  lemma {:induction false} GoingKeeps(r: Loop, es: seq<Event>)
    requires Running(r)
    ensures Running(Going(r, es))
    decreases |es|
  {
    hide Running, Go;
    if es != [] {
      GoKeeps(r, es[0]);
      GoingKeeps(Go(r, es[0]), es[1..]);
    }
  }

  lemma BeginRuns(url: string, total: int, concurrency: int, envs: seq<L.StartEnv>, cap: nat, now: nat, side: Side)
    ensures Running(Begin(url, total, concurrency, envs, cap, now, side))
  {
    hide T.Reachable, T.Refill, W.Step, S.Step;
    T.ReachableBegin(url, total, concurrency, envs, cap);
    RefillMessages(T.Bench(url, total, concurrency, envs, L.Init(cap), 0, 0, 0, 0));
    assert W.Init(now) == W.Run(W.Init(now), []) && S.Init() == S.Run(S.Init(), []);
    W.ReachableNext(W.Init(now), W.CurlCall(side.reports));
    ST.ReachableNext(S.Init(), S.CurlCall(side.socks));
    WakeStepAlive(W.Init(now), W.CurlCall(side.reports));
    SP.InitKeeps();
    SP.StepKeeps(S.Init(), S.CurlCall(side.socks));
  }

  lemma ReachedRuns(r: Loop)
    requires Reached(r)
    ensures Running(r)
  {
    hide Running, Begin, Going;
    var cap: nat, now: nat, side: Side, es: seq<Event> :|
      r == Going(Begin(r.bench.url, r.bench.total, r.bench.concurrency, r.bench.envs, cap, now, side), es);
    BeginRuns(r.bench.url, r.bench.total, r.bench.concurrency, r.bench.envs, cap, now, side);
    GoingKeeps(Begin(r.bench.url, r.bench.total, r.bench.concurrency, r.bench.envs, cap, now, side), es);
  }

  /** io_context::run returns only when the client has nothing in flight and nothing posted. */
  lemma ReturnMeansDrained(r: Loop)
    requires Reached(r) && CurlIsWaiting(Client(r)) && OutOfWork(Client(r))
    ensures r.bench.client.transfers == [] && r.bench.client.posted == [] && T.Reachable(r.bench)
  {
    hide T.Reachable, W.Reachable, ST.Reachable, LP.Inv;
    ReachedRuns(r);
    T.ReachableKeeps(r.bench);
    if r.bench.client.transfers != [] {
      LoopHasWork(Client(r));
    }
  }

  /**
   * When io_context::run returns, every request was made and completed, once
   * each, exactly if the window had room or there was nothing to do.
   */
  lemma ReturnMeansDone(r: Loop)
    requires Reached(r) && CurlIsWaiting(Client(r)) && OutOfWork(Client(r))
    ensures r.bench.done == T.Max(0, r.bench.total) <==> r.bench.concurrency >= 1 || r.bench.total <= 0
    ensures r.bench.done == r.bench.launched
    ensures EachOnce(multiset(L.TicketsOf(r.bench.client.delivered)), |r.bench.client.issued|)
  {
    hide T.Reachable, Reached, CurlIsWaiting, OutOfWork;
    ReturnMeansDrained(r);
    T.DrainedMeansDone(r.bench);
  }

  /**
   * Of several loops, one that returns has done its share exactly if main was
   * given at least as much concurrency as loops, or the share is nothing.
   */
  lemma ReturningLoopDidItsShare(r: Loop, total: int, concurrency: int, loops: int, t: int)
    requires loops > 0 && 0 <= t < loops
    requires r.bench.total == T.Share(total, loops, t) && r.bench.concurrency == T.Quot(concurrency, loops)
    requires Reached(r) && CurlIsWaiting(Client(r)) && OutOfWork(Client(r))
    ensures r.bench.done == T.Max(0, T.Share(total, loops, t)) <==> concurrency >= loops || T.Share(total, loops, t) <= 0
  {
    hide T.Reachable, Reached, CurlIsWaiting, OutOfWork;
    ReturnMeansDrained(r);
    T.LoopDoesItsShare(r.bench, total, concurrency, loops, t);
  }
}
