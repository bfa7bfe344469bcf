/**
 * The whole client: transfers, wake-ups and sockets together. One call into
 * libcurl may move transfers on, report deadlines and touch descriptors all
 * at once, and one queued closure may lead to such a call.
 */
module ClientRun {
  import opened Common
  import opened EasyHandle
  import L = LifecycleSpec
  import LP = LifecycleProofs
  import LT = LifecycleTheorems
  import W = WakeupSpec
  import S = SocketSpec
  import SP = SocketProofs
  import ST = SocketTheorems

  datatype State = State(life: L.State, wake: W.State, sock: S.State)

  /** What libcurl does besides the transfers themselves while the client is in one of its turns. */
  datatype Side = Side(reports: seq<int>, socks: seq<S.Act>)

  datatype Event =
    | Start(req: Request, script: seq<L.Op>, env: L.StartEnv, side: Side)
    | Cancel(id: nat, side: Side)
    | RunClosure(i: nat, acts: seq<L.Act>, side: Side)  // a kick, or the end of a timer wait
    | RunWait(i: nat, acts: seq<L.Act>, side: Side)     // the end of a socket wait
    | RunPosted(i: nat, side: Side)                     // a completion posted by fail or cancel
    | TimeIsUp(i: nat)
    | SocketReady(i: nat, failed: bool)
    | Tick(ms: nat)
    | Destruct(side: Side)

  function Init(cap: nat, now: nat): State {
    State(L.Init(cap), W.Init(now), S.Init())
  }

  /** Does queued closure i of the timer and kick machinery call libcurl? */
  predicate Kicks(w: W.State, i: nat) {
    w.alive && i < |w.ready| && W.Wakes(w.ready[i])
  }

  /** Does queued socket wait i call libcurl? */
  predicate Hears(k: S.State, i: nat) {
    i < |k.waits| && k.waits[i].end.Some? && S.InMap(k, k.waits[i].gen) && !k.waits[i].end.value.OperationAborted?
  }

  /** The part of an event that each machine sees, if it sees any. */
  function LifeEvent(s: State, e: Event): seq<L.Event> {
    match e
    case Start(req, script, env, _) => [L.UserStart(req, script, env)]
    case Cancel(id, _) => [L.UserCancel(id)]
    case RunClosure(i, acts, _) => if Kicks(s.wake, i) then [L.Action(acts)] else []
    case RunWait(i, acts, _) => if Hears(s.sock, i) then [L.Action(acts)] else []
    case RunPosted(i, _) => [L.RunPosted(i)]
    case Destruct(_) => [L.Destruct]
    case _ => []
  }

  function WakeEvent(s: State, e: Event): seq<W.Event> {
    match e
    case Start(_, _, _, side) => [W.CurlCall(side.reports)]
    case Cancel(_, side) => [W.CurlCall(side.reports)]
    case RunClosure(i, _, side) => [W.RunClosure(i, side.reports)]
    case RunWait(i, _, side) => if Hears(s.sock, i) then [W.CurlCall(side.reports)] else []
    case RunPosted(_, side) => [W.CurlCall(side.reports)]
    case TimeIsUp(i) => [W.TimeIsUp(i)]
    case Tick(ms) => [W.Tick(ms)]
    case Destruct(side) => [W.Destruct(side.reports)]
    case _ => []
  }

  function SockEvent(s: State, e: Event): seq<S.Event> {
    match e
    case Start(_, _, _, side) => [S.CurlCall(side.socks)]
    case Cancel(_, side) => [S.CurlCall(side.socks)]
    case RunClosure(i, _, side) => if Kicks(s.wake, i) then [S.CurlCall(side.socks)] else []
    case RunWait(i, _, side) => [S.RunQueued(i, side.socks)]
    case RunPosted(_, side) => [S.CurlCall(side.socks)]
    case SocketReady(i, failed) => [S.Ready(i, failed)]
    case Destruct(side) => [S.Destruct(side.socks)]
    case _ => []
  }

  function Step(s: State, e: Event): State {
    State(L.Run(s.life, LifeEvent(s, e)), W.Run(s.wake, WakeEvent(s, e)), S.Run(s.sock, SockEvent(s, e)))
  }

  function Run(s: State, es: seq<Event>): State
    decreases |es|
  {
    if es == [] then s else Run(Step(s, es[0]), es[1..])
  }

  ghost predicate Reachable(s: State) {
    exists cap: nat, now: nat, es: seq<Event> :: s == Run(Init(cap, now), es)
  }

  // ---- the three machines see runs of their own ----

  lemma {:induction false} LifeConcat(s: L.State, a: seq<L.Event>, b: seq<L.Event>)
    ensures L.Run(s, a + b) == L.Run(L.Run(s, a), b)
    decreases |a|
  {
    if a == [] {
      assert a + b == b;
    } else {
      assert (a + b)[1..] == a[1..] + b;
      LifeConcat(L.Step(s, a[0]), a[1..], b);
    }
  }

  lemma {:induction false} WakeConcat(s: W.State, a: seq<W.Event>, b: seq<W.Event>)
    ensures W.Run(s, a + b) == W.Run(W.Run(s, a), b)
    decreases |a|
  {
    if a == [] {
      assert a + b == b;
    } else {
      assert (a + b)[1..] == a[1..] + b;
      WakeConcat(W.Step(s, a[0]), a[1..], b);
    }
  }

  lemma {:induction false} SockConcat(s: S.State, a: seq<S.Event>, b: seq<S.Event>)
    ensures S.Run(s, a + b) == S.Run(S.Run(s, a), b)
    decreases |a|
  {
    if a == [] {
      assert a + b == b;
    } else {
      assert (a + b)[1..] == a[1..] + b;
      SockConcat(S.Step(s, a[0]), a[1..], b);
    }
  }

  lemma {:induction false} Project(s: State, es: seq<Event>)
    returns (ls: seq<L.Event>, ws: seq<W.Event>, ss: seq<S.Event>)
    ensures Run(s, es) == State(L.Run(s.life, ls), W.Run(s.wake, ws), S.Run(s.sock, ss))
    decreases |es|
  {
    hide LifeEvent, WakeEvent, SockEvent;
    if es == [] {
      ls, ws, ss := [], [], [];
    } else {
      var t := Step(s, es[0]);
      var l, w, k := Project(t, es[1..]);
      LifeConcat(s.life, LifeEvent(s, es[0]), l);
      WakeConcat(s.wake, WakeEvent(s, es[0]), w);
      SockConcat(s.sock, SockEvent(s, es[0]), k);
      ls, ws, ss := LifeEvent(s, es[0]) + l, WakeEvent(s, es[0]) + w, SockEvent(s, es[0]) + k;
    }
  }

  /** An event of the lifecycle is one of the moments its promises are about. */
  lemma {:induction false} RunIsTrail(s: L.State, es: seq<L.Event>) returns (ms: seq<LT.Moment>)
    ensures LT.Trail(s, ms) == L.Run(s, es)
    decreases |es|
  {
    hide L.Step;
    if es == [] {
      ms := [];
    } else {
      var rest := RunIsTrail(L.Step(s, es[0]), es[1..]);
      ms := [LT.Whole(es[0])] + rest;
      assert ms[1..] == rest;
    }
  }

  /** So whatever is promised of each machine alone holds of the whole client. */
  lemma EachMachineIsReachable(s: State)
    requires Reachable(s)
    ensures LT.Reachable(s.life) && W.Reachable(s.wake) && ST.Reachable(s.sock)
    ensures s.life.msgs == []
  {
    var cap: nat, now: nat, es: seq<Event> :| s == Run(Init(cap, now), es);
    var ls, ws, ss := Project(Init(cap, now), es);
    var ms := RunIsTrail(L.Init(cap), ls);
    LT.InitKeeps(cap);
    LT.NoMessageWaits(L.Init(cap), ls);
  }

  // ---- they live and die together ----

  ghost predicate Together(s: State) {
    s.life.alive == s.wake.alive == s.sock.alive
  }

  lemma LifeStepAlive(s: L.State, e: L.Event)
    ensures L.Step(s, e).alive == (s.alive && !e.Destruct?)
  {
  }

  lemma WakeStepAlive(s: W.State, e: W.Event)
    ensures W.Step(s, e).alive == (s.alive && !e.Destruct?)
  {
    match e
    case Destruct(reports) => W.DestroyOnly(s, reports);
    case CurlCall(reports) => W.ReportsOnly(s, reports);
    case RunClosure(i, reports) =>
      if i < |s.ready| {
        var q := s.(ready := RemoveAt(s.ready, i), last := None, kicks := s.kicks + 1);
        W.ReportsOnly(q.(kickPending := false), reports);
        W.ReportsOnly(q.(armed := false), reports);
      }
    case _ =>
  }

  lemma StepTogether(s: State, e: Event)
    requires Together(s) && SP.Steady(s.sock)
    ensures Together(Step(s, e)) && SP.Steady(Step(s, e).sock)
    ensures Step(s, e).life.alive == (s.life.alive && !e.Destruct?)
  {
    hide SP.Steady, L.Step, W.Step, S.Step;
    var l, w, k := LifeEvent(s, e), WakeEvent(s, e), SockEvent(s, e);
    assert |l| <= 1 && |w| <= 1 && |k| <= 1;
    if |l| == 1 { LifeStepAlive(s.life, l[0]); assert l == [l[0]] && L.Run(s.life, l) == L.Step(s.life, l[0]); }
    if |w| == 1 { WakeStepAlive(s.wake, w[0]); assert w == [w[0]] && W.Run(s.wake, w) == W.Step(s.wake, w[0]); }
    if |k| == 1 {
      SP.StepKeeps(s.sock, k[0]);
      assert k == [k[0]] && S.Run(s.sock, k) == S.Step(s.sock, k[0]);
    }
  }

  lemma {:induction false} RunTogether(s: State, es: seq<Event>)
    requires Together(s) && SP.Steady(s.sock)
    ensures Together(Run(s, es)) && SP.Steady(Run(s, es).sock)
    decreases |es|
  {
    hide SP.Steady, Step;
    if es != [] {
      StepTogether(s, es[0]);
      RunTogether(Step(s, es[0]), es[1..]);
    }
  }

  lemma ReachableTogether(s: State)
    requires Reachable(s)
    ensures Together(s)
  {
    var cap: nat, now: nat, es: seq<Event> :| s == Run(Init(cap, now), es);
    SP.InitKeeps();
    RunTogether(Init(cap, now), es);
  }

  // ---- the promises of the whole ----

  lemma OneWake(s: W.State, e: W.Event)
    ensures W.Run(s, [e]) == W.Step(s, e)
  {
    hide W.Step;
    assert W.Run(s, [e]) == W.Run(W.Step(s, e), []);
  }

  lemma OneLife(s: L.State, e: L.Event)
    ensures L.Run(s, [e]) == L.Step(s, e)
  {
    hide L.Step;
    assert L.Run(s, [e]) == L.Run(L.Step(s, e), []);
  }

  /**
   * A queued closure moves transfers on and has completions checked exactly if
   * it calls libcurl, and it calls libcurl once at the most: a kick or a timer
   * wait through the wake-ups, a socket wait through the sockets.
   */
  lemma ClosuresDriveTransfers(s: State, e: Event)
    requires Reachable(s) && (e.RunClosure? || e.RunWait?)
    ensures var t := Step(s, e);
      var calls := (t.wake.kicks - s.wake.kicks) + (|t.sock.drives| - |s.sock.drives|);
      || (calls == 1 && t.life == L.Step(s.life, L.Action(e.acts)))
      || (calls == 0 && t.life == s.life && (if e.RunClosure? then t.sock == s.sock else t.wake == s.wake))
  {
    hide SP.Inv, L.Step, W.Reports, S.DoAll, W.Run, S.Run, L.Run, S.RunWait, Kicks, Hears, LT.Reachable, W.Reachable, ST.Reachable, Reachable;
    EachMachineIsReachable(s);
    match e
    case RunClosure(i, acts, side) =>
      OneLife(s.life, L.Action(acts));
      OneWake(s.wake, W.RunClosure(i, side.reports));
      ClosureCalls(s.wake, i, side.reports);
      SockCalled(s.sock, side.socks);
      NoEvents(s);
    case RunWait(i, acts, side) =>
      OneLife(s.life, L.Action(acts));
      OneWake(s.wake, W.CurlCall(side.reports));
      W.ReportsOnly(s.wake, side.reports);
      WaitCalls(s.sock, i, side.socks);
      NoEvents(s);
  }

  lemma NoEvents(s: State)
    ensures L.Run(s.life, []) == s.life && W.Run(s.wake, []) == s.wake && S.Run(s.sock, []) == s.sock
  {
  }

  lemma ClosureCalls(w: W.State, i: nat, reports: seq<int>)
    requires W.Reachable(w)
    ensures W.Step(w, W.RunClosure(i, reports)).kicks == w.kicks + if Kicks(w, i) then 1 else 0
  {
    hide W.Reports, W.Inv, W.Reachable;
    W.ReachableInv(w);
    if i < |w.ready| {
      W.RunReadyKeeps(w, i, reports);
    }
  }

  lemma SockCalled(k: S.State, acts: seq<S.Act>)
    requires ST.Reachable(k)
    ensures S.Run(k, [S.CurlCall(acts)]).drives == k.drives
  {
    hide SP.Inv, S.DoAll, ST.Reachable;
    ST.ReachableInv(k);
    ST.OneStep(k, S.CurlCall(acts));
    SP.DoAllKeeps(k, acts, {});
  }

  lemma WaitCalls(k: S.State, i: nat, acts: seq<S.Act>)
    requires ST.Reachable(k)
    ensures |S.Run(k, [S.RunQueued(i, acts)]).drives| == |k.drives| + if Hears(k, i) then 1 else 0
  {
    hide SP.Inv, S.DoAll, ST.Reachable, S.DriveOf, S.Arm;
    ST.ReachableInv(k);
    ST.OneStep(k, S.RunQueued(i, acts));
    if Hears(k, i) {
      ST.HeardWait(k, i, acts);
    }
  }

  /** The event loop has nothing to run and nothing to wait for, so io_context::run returns. */
  predicate OutOfWork(s: State) {
    s.life.posted == [] && s.wake.ready == [] && s.wake.waiting == [] && s.sock.waits == []
  }

  /**
   * libcurl's side of the bargain: while it has a transfer it has either
   * reported a deadline or asked for some direction of a descriptor for which
   * there is a socket state to watch.
   */
  ghost predicate CurlIsWaiting(s: State) {
    s.life.added != map[] ==> s.wake.last.Some? || exists fd :: CurlWants(s.sock, fd)
  }

  predicate CurlWants(k: S.State, fd: nat) {
    && fd in k.wanted && (k.wanted[fd].read || k.wanted[fd].write)
    && fd in k.polled && k.polled[fd].Some?
  }

  lemma LoopHasWork(s: State)
    requires LP.Inv(s.life) && W.Reachable(s.wake) && ST.Reachable(s.sock) && Together(s) && s.life.alive
    requires CurlIsWaiting(s) && s.life.transfers != []
    ensures !OutOfWork(s)
  {
    hide SP.Inv, LP.Inv, W.Reachable, ST.Reachable;
    InFlightIsAdded(s.life);
    if s.wake.last.Some? {
      W.NoLostWakeup(s.wake);
    } else {
      var fd :| CurlWants(s.sock, fd);
      ST.WatchesWhatIsWanted(s.sock, fd);
    }
  }

  /** With a transfer in flight the event loop of a living client has work: it does not return too early. */
  lemma NoStall(s: State)
    requires Reachable(s) && s.life.alive && CurlIsWaiting(s) && s.life.transfers != []
    ensures !OutOfWork(s)
  {
    hide LP.Inv, W.Reachable, ST.Reachable, LT.Reachable, OutOfWork, CurlIsWaiting;
    EachMachineIsReachable(s);
    ReachableTogether(s);
    LT.ReachableInv(s.life);
    LoopHasWork(s);
  }

  lemma InFlightIsAdded(s: L.State)
    requires LP.Inv(s) && s.transfers != []
    ensures s.added != map[]
  {
    assert L.Ehs(s.transfers)[0] in L.Ehs(s.transfers);
  }

  /** When io_context::run returns and the client still lives, every handler ever given to it has been run exactly once. */
  lemma RunReturnsWhenAllIsDelivered(s: State)
    requires Reachable(s) && s.life.alive && CurlIsWaiting(s) && OutOfWork(s)
    ensures s.life.transfers == [] && EachOnce(multiset(L.TicketsOf(s.life.delivered)), |s.life.issued|)
    ensures s.life.running == 0
  {
    if s.life.transfers != [] {
      NoStall(s);
    }
    EachMachineIsReachable(s);
    LT.DrainedMeansDelivered(s.life);
    LT.PendingNeverOvercounts(s.life);
  }

  /** The parts of a state that outlive the client: the queue, and what the handlers left in it were told. */
  ghost predicate OnlyTheQueueMoved(d: State, t: State) {
    && t.life == d.life.(posted := t.life.posted, delivered := t.life.delivered)
    && multiset(t.life.posted) + multiset(t.life.delivered) == multiset(d.life.posted) + multiset(d.life.delivered)
    && t.wake == d.wake.(now := t.wake.now, ready := t.wake.ready)
    && t.sock == d.sock.(waits := t.sock.waits)
  }

  /**
   * Destruction safety of the whole: once ~Client has run, no event of any
   * kind reaches the client, libcurl or a descriptor; all descriptors and
   * easy handles are gone; and exactly the completions posted before can still run.
   */
  lemma DestructionIsSafe(s: State, side: Side, es: seq<Event>)
    requires Reachable(s) && s.life.alive
    ensures var d := Step(s, Destruct(side));
      && OnlyTheQueueMoved(d, Run(d, es))
      && d.life.easy == map[] && d.life.added == map[] && d.sock.os.fds == map[] && d.wake.waiting == []
      && d.life.posted == s.life.posted && d.life.delivered == s.life.delivered && d.wake.kicks == s.wake.kicks
  {
    hide SP.Inv, LP.Inv, S.Destroy, W.Run, S.Run, L.Run;
    EachMachineIsReachable(s);
    ReachableTogether(s);
    var d := Step(s, Destruct(side));
    OneDestruct(s, side);
    W.DestroyOnly(s.wake, side.reports);
    ST.ReachableInv(s.sock);
    SP.DestroyKeeps(s.sock, side.socks);
    var ls, ws, ss := Project(d, es);
    LT.AfterDestruction(d.life, ls);
    W.ClosuresOutliveTheClient(d.wake, ws);
    ST.QueuedWaitsOutliveTheClient(d.sock, ss);
  }

  lemma OneDestruct(s: State, side: Side)
    requires s.life.alive && Together(s)
    ensures Step(s, Destruct(side))
      == State(L.Destroy(s.life), W.Destroy(s.wake, side.reports), S.Destroy(s.sock, side.socks))
  {
    hide L.Destroy, W.Destroy, S.Destroy;
    assert L.Run(s.life, [L.Destruct]) == L.Run(L.Step(s.life, L.Destruct), []);
    var w, k := W.Destruct(side.reports), S.Destruct(side.socks);
    assert W.Run(s.wake, [w]) == W.Run(W.Step(s.wake, w), []);
    assert S.Run(s.sock, [k]) == S.Run(S.Step(s.sock, k), []);
  }
}
