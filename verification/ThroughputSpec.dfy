/**
 * The throughput benchmark: a window of concurrent requests that each
 * completion refills, as a program running on the transfer lifecycle, and the
 * way main splits its work over several event loops.
 */
module ThroughputSpec {
  import opened Common
  import opened EasyHandle
  import opened LifecycleSpec
  import opened LifecycleProofs
  import opened LifecycleTheorems

  /** The counters are C++ ints; client is everything below them. envs says how each start turns out in libcurl. */
  datatype Bench = Bench(
    url: string, total: int, concurrency: int, envs: seq<StartEnv>,
    client: State, failed: int, inFlight: int, launched: int, done: int)

  /** Request(url) with everything else left as it is, its timeout of five seconds included. */
  function Get(url: string): Request {
    Request(url, GET, [], "", 5000, 0, None)
  }

  function EnvOf(b: Bench): StartEnv {
    if 0 <= b.launched < |b.envs| then b.envs[b.launched] else Accepts
  }

  /** One turn of refill's loop. */
  function Launch(b: Bench): Bench {
    b.(inFlight := b.inFlight + 1, launched := b.launched + 1, client := Start(b.client, Get(b.url), [], EnvOf(b)))
  }

  function Refill(b: Bench): Bench
    decreases b.total - b.launched
  {
    if b.inFlight < b.concurrency && b.launched < b.total then Refill(Launch(b)) else b
  }

  predicate IsOk(r: Response) {
    r.curlCode == CURLE_OK && 200 <= r.httpCode < 300
  }

  predicate Bad(c: Completion) {
    c.ec != NoError || !IsOk(c.res)
  }

  /** The completion handler: the same for every request. */
  function OnComplete(b: Bench, c: Completion): Bench {
    Refill(b.(inFlight := b.inFlight - 1, done := b.done + 1, failed := if Bad(c) then b.failed + 1 else b.failed))
  }

  function Begin(url: string, total: int, concurrency: int, envs: seq<StartEnv>, cap: nat): Bench {
    Refill(Bench(url, total, concurrency, envs, Init(cap), 0, 0, 0, 0))
  }

  /** What the event loop does: libcurl works, one finished transfer is delivered, one posted completion runs. */
  datatype Turn = Work(acts: seq<Act>) | Deliver | Posted(i: nat)

  function Advance(b: Bench, t: Turn): Bench {
    match t
    case Work(acts) => b.(client := SocketAction(b.client, acts))
    case Deliver =>
      if b.client.msgs != [] && Complete(b.client).Some? then
        var c := Complete(b.client).value;
        OnComplete(b.(client := c), c.delivered[|c.delivered| - 1])
      else b
    case Posted(i) =>
      if i < |b.client.posted| then OnComplete(b.(client := Step(b.client, RunPosted(i))), b.client.posted[i]) else b
  }

  function Turns(b: Bench, ts: seq<Turn>): Bench
    decreases |ts|
  {
    if ts == [] then b else Turns(Advance(b, ts[0]), ts[1..])
  }

  ghost predicate Reachable(b: Bench) {
    exists cap: nat, ts: seq<Turn> :: b == Turns(Begin(b.url, b.total, b.concurrency, b.envs, cap), ts)
  }

  // ---- the invariant ----

  function CountBad(cs: seq<Completion>): nat
    decreases |cs|
  {
    if cs == [] then 0
    else CountBad(cs[..|cs| - 1]) + if Bad(cs[|cs| - 1]) then 1 else 0
  }

  /** The counters count what the client has been asked, and has done. */
  ghost predicate Counts(b: Bench) {
    && LifecycleProofs.Inv(b.client) && b.client.alive && b.client.dropped == []
    && (forall k :: 0 <= k < |b.client.issued| ==> b.client.issued[k].script == [] && b.client.issued[k].req == Get(b.url))
    && b.launched == |b.client.issued|
    && b.done == |b.client.delivered|
    && b.launched == b.inFlight + b.done
    && b.failed == CountBad(b.client.delivered)
  }

  function Min(a: int, b: int): int {
    if a < b then a else b
  }

  function Max(a: int, b: int): int {
    if a > b then a else b
  }

  /** The window is as full as it can be. */
  ghost predicate Full(b: Bench) {
    b.inFlight == Max(0, Min(b.concurrency, b.total - b.done)) && b.launched <= Max(0, b.total)
  }

  lemma LaunchCounts(b: Bench)
    requires Counts(b)
    ensures var c := Launch(b);
      && Counts(c) && c.done == b.done && c.client.delivered == b.client.delivered && c.client.msgs == b.client.msgs
  {
    hide LifecycleProofs.Inv, Effective;
    StartKeeps(b.client, Get(b.url), [], EnvOf(b));
    StartIssues(b.client, Get(b.url), EnvOf(b));
  }

  lemma StartIssues(s: State, r: Request, env: StartEnv)
    ensures var t := Start(s, r, [], env);
      && |t.issued| == |s.issued| + 1 && t.issued[..|s.issued|] == s.issued && t.issued[|s.issued|].script == []
      && t.issued[|s.issued|].req == r
  {
  }

  /** refill tops the window up and runs no handler: start completes nothing. */
  lemma {:induction false} RefillFills(b: Bench)
    requires Counts(b)
    requires 0 <= b.inFlight <= Max(0, Min(b.concurrency, b.total - b.done)) && b.launched <= Max(0, b.total)
    ensures var c := Refill(b);
      && Counts(c) && Full(c) && c.done == b.done && c.failed == b.failed
      && c.client.delivered == b.client.delivered && c.client.msgs == b.client.msgs
      && c == b.(client := c.client, inFlight := c.inFlight, launched := c.launched)
    decreases b.total - b.launched
  {
    hide Counts, Launch;
    CountsAddUp(b);
    if b.inFlight < b.concurrency && b.launched < b.total {
      LaunchCounts(b);
      LaunchAdds(b);
      RefillFills(Launch(b));
    }
  }

  lemma CountsAddUp(b: Bench)
    requires Counts(b)
    ensures b.launched == b.inFlight + b.done && b.done >= 0
  {
  }

  lemma LaunchAdds(b: Bench)
    ensures Launch(b) == b.(inFlight := b.inFlight + 1, launched := b.launched + 1, client := Launch(b).client)
  {
  }

  lemma OnCompleteKeeps(b: Bench, c: State, x: Completion)
    requires Counts(b) && Full(b) && b.launched > b.done
    requires LifecycleProofs.Inv(c) && c.alive && c.dropped == [] && c.issued == b.client.issued
    requires c.delivered == b.client.delivered + [x]
    ensures var d := OnComplete(b.(client := c), x);
      && Counts(d) && Full(d) && d.done == b.done + 1 && d.client.delivered == c.delivered
      && d.total == b.total && d.concurrency == b.concurrency
  {
    hide LifecycleProofs.Inv, Refill;
    assert c.delivered[..|b.client.delivered|] == b.client.delivered;
    RefillFills(b.(client := c, inFlight := b.inFlight - 1, done := b.done + 1,
                   failed := if Bad(x) then b.failed + 1 else b.failed));
  }

  /** A completion can only arrive while something is in flight. */
  lemma InFlightIsOwed(s: State)
    requires LifecycleProofs.Inv(s) && s.dropped == []
    ensures |s.issued| == |s.transfers| + |s.posted| + |s.delivered|
  {
    var m := HandlerPlaces(s);
    assert |m| == |s.transfers| + |s.posted| + |s.delivered|;
    EachOnceSize(m, |s.issued|);
  }

  lemma {:induction false} EachOnceSize(m: multiset<nat>, n: nat)
    requires EachOnce(m, n)
    ensures |m| == n
    decreases n
  {
    if n > 0 {
      var less := m - multiset{n - 1};
      assert EachOnce(less, n - 1);
      EachOnceSize(less, n - 1);
      assert m == less + multiset{n - 1};
    } else {
      assert m == multiset{};
    }
  }

  lemma AdvanceKeeps(b: Bench, t: Turn)
    requires Counts(b) && Full(b)
    ensures Counts(Advance(b, t)) && Full(Advance(b, t))
    ensures Advance(b, t).total == b.total && Advance(b, t).concurrency == b.concurrency
  {
    hide LifecycleProofs.Inv, Full, SocketAction, OnComplete;
    match t
    case Work(acts) => WorkCounts(b, acts);
    case Deliver =>
      if b.client.msgs != [] {
        DeliverStep(b.client);
        OnCompleteKeeps(b, Complete(b.client).value, LastOf(Complete(b.client).value));
      }
    case Posted(i) =>
      if i < |b.client.posted| {
        PostedStep(b.client, i);
        OnCompleteKeeps(b, Step(b.client, RunPosted(i)), b.client.posted[i]);
      }
  }

  function LastOf(s: State): Completion
    requires s.delivered != []
  {
    s.delivered[|s.delivered| - 1]
  }

  lemma WorkCounts(b: Bench, acts: seq<Act>)
    requires Counts(b)
    ensures Counts(b.(client := SocketAction(b.client, acts))) && (Full(b) ==> Full(b.(client := SocketAction(b.client, acts))))
  {
    hide LifecycleProofs.Inv;
    InvIsCore(b.client);
    SocketActionKeeps(b.client, acts);
    CurlActsIssue(b.client, acts);
  }

  lemma {:induction false} CurlActsIssue(s: State, acts: seq<Act>)
    ensures CurlActs(s, acts).issued == s.issued
    decreases |acts|
  {
    if acts != [] {
      CurlActsIssue(CurlAct(s, acts[0]), acts[1..]);
    }
  }

  lemma DeliverStep(s: State)
    requires LifecycleProofs.Inv(s) && s.dropped == [] && s.msgs != []
    ensures Complete(s).Some?
    ensures var c := Complete(s).value;
      && LifecycleProofs.Inv(c) && c.alive == s.alive && c.dropped == [] && c.issued == s.issued
      && c.delivered != [] && c.delivered == s.delivered + [LastOf(c)] && |s.issued| > |s.delivered|
  {
    hide LifecycleProofs.Inv;
    CompleteKeeps(s);
    var c := Complete(s).value;
    InFlightIsOwed(c);
    assert c.delivered[..|s.delivered|] == s.delivered;
  }

  lemma PostedStep(s: State, i: nat)
    requires LifecycleProofs.Inv(s) && s.dropped == [] && s.alive && i < |s.posted|
    requires forall k :: 0 <= k < |s.issued| ==> s.issued[k].script == []
    ensures var c := Step(s, RunPosted(i));
      && LifecycleProofs.Inv(c) && c.alive && c.dropped == [] && c.issued == s.issued
      && c.delivered == s.delivered + [s.posted[i]] && |s.issued| > |s.delivered|
  {
    hide LifecycleProofs.Inv;
    RunPostedKeeps(s, i);
    InFlightIsOwed(s);
    var d := s.(posted := RemoveAt(s.posted, i), delivered := s.delivered + [s.posted[i]]);
    assert ScriptOf(d, s.posted[i].ticket) == [];
  }

  lemma {:induction false} TurnsKeep(b: Bench, ts: seq<Turn>)
    requires Counts(b) && Full(b)
    ensures Counts(Turns(b, ts)) && Full(Turns(b, ts))
    decreases |ts|
  {
    hide Counts, Full, Advance;
    if ts != [] {
      AdvanceKeeps(b, ts[0]);
      TurnsKeep(Advance(b, ts[0]), ts[1..]);
    }
  }

  lemma BeginKeeps(url: string, total: int, concurrency: int, envs: seq<StartEnv>, cap: nat)
    ensures var b := Begin(url, total, concurrency, envs, cap); Counts(b) && Full(b)
  {
    InitKeeps(cap);
    RefillFills(Bench(url, total, concurrency, envs, Init(cap), 0, 0, 0, 0));
  }

  lemma {:induction false} TurnsSnoc(b: Bench, ts: seq<Turn>, t: Turn)
    ensures Turns(b, ts + [t]) == Advance(Turns(b, ts), t)
    decreases |ts|
  {
    hide Advance;
    if ts == [] {
      assert [t][1..] == [];
    } else {
      assert (ts + [t])[1..] == ts[1..] + [t];
      TurnsSnoc(Advance(b, ts[0]), ts[1..], t);
    }
  }

  /** No turn changes what the run is about. */
  lemma {:induction false} RefillSame(b: Bench)
    ensures var c := Refill(b);
      c.url == b.url && c.total == b.total && c.concurrency == b.concurrency && c.envs == b.envs
    decreases b.total - b.launched
  {
    if b.inFlight < b.concurrency && b.launched < b.total {
      RefillSame(Launch(b));
    }
  }

  lemma AdvanceSame(b: Bench, t: Turn)
    ensures var c := Advance(b, t);
      c.url == b.url && c.total == b.total && c.concurrency == b.concurrency && c.envs == b.envs
  {
    hide Refill;
    match t
    case Work(_) =>
    case Deliver =>
      if b.client.msgs != [] && Complete(b.client).Some? {
        var c := Complete(b.client).value;
        OnCompleteSame(b.(client := c), c.delivered[|c.delivered| - 1]);
      }
    case Posted(i) =>
      if i < |b.client.posted| {
        OnCompleteSame(b.(client := Step(b.client, RunPosted(i))), b.client.posted[i]);
      }
  }

  lemma OnCompleteSame(b: Bench, c: Completion)
    ensures var d := OnComplete(b, c);
      d.url == b.url && d.total == b.total && d.concurrency == b.concurrency && d.envs == b.envs
  {
    RefillSame(b.(inFlight := b.inFlight - 1, done := b.done + 1, failed := if Bad(c) then b.failed + 1 else b.failed));
  }

  lemma ReachableNext(b: Bench, t: Turn)
    requires Reachable(b)
    ensures Reachable(Advance(b, t))
  {
    hide Advance, Turns, Begin;
    var cap: nat, ts: seq<Turn> :| b == Turns(Begin(b.url, b.total, b.concurrency, b.envs, cap), ts);
    TurnsSnoc(Begin(b.url, b.total, b.concurrency, b.envs, cap), ts, t);
    AdvanceSame(b, t);
  }

  lemma ReachableBegin(url: string, total: int, concurrency: int, envs: seq<StartEnv>, cap: nat)
    ensures var b := Begin(url, total, concurrency, envs, cap);
      && Reachable(b) && b.url == url && b.total == total && b.concurrency == concurrency && b.envs == envs
  {
    hide Refill;
    RefillSame(Bench(url, total, concurrency, envs, Init(cap), 0, 0, 0, 0));
    var b := Begin(url, total, concurrency, envs, cap);
    assert b == Turns(Begin(b.url, b.total, b.concurrency, b.envs, cap), []);
  }

  lemma ReachableKeeps(b: Bench)
    requires Reachable(b)
    ensures Counts(b) && Full(b)
  {
    hide Counts, Full, Turns, Begin;
    var cap: nat, ts: seq<Turn> :| b == Turns(Begin(b.url, b.total, b.concurrency, b.envs, cap), ts);
    BeginKeeps(b.url, b.total, b.concurrency, b.envs, cap);
    TurnsKeep(Begin(b.url, b.total, b.concurrency, b.envs, cap), ts);
  }

  // ---- the promises ----

  /** The window: after every step as many requests are in flight as the concurrency and what is left allow. */
  lemma WindowIsFull(b: Bench)
    requires Reachable(b)
    ensures b.launched == b.inFlight + b.done
    ensures b.inFlight == Max(0, Min(b.concurrency, b.total - b.done)) && b.launched <= Max(0, b.total)
    ensures b.inFlight == |b.client.transfers| + |b.client.posted|
    ensures |b.client.issued| == b.launched
    ensures forall k :: 0 <= k < |b.client.issued| ==> b.client.issued[k].req == Request(b.url, GET, [], "", 5000, 0, None)
  {
    ReachableKeeps(b);
    InFlightIsOwed(b.client);
  }

  /** The completions that came with an error, with a libcurl code other than 0 or with an HTTP status that is not 2xx. */
  function FailedAt(cs: seq<Completion>): set<nat> {
    set i: nat | i < |cs| && (cs[i].ec != NoError || cs[i].res.curlCode != 0 || cs[i].res.httpCode < 200 || cs[i].res.httpCode > 299)
  }

  lemma {:induction false} CountBadIs(cs: seq<Completion>)
    ensures CountBad(cs) == |FailedAt(cs)|
    decreases |cs|
  {
    if cs != [] {
      var init, n := cs[..|cs| - 1], |cs| - 1;
      CountBadIs(init);
      assert FailedAt(cs) == FailedAt(init) + if Bad(cs[n]) then {n} else {};
    }
  }

  /** What run_throughput returns: of all that completed, how many failed. */
  lemma FailuresAreCounted(b: Bench)
    requires Reachable(b)
    ensures b.failed == |FailedAt(b.client.delivered)| && b.done == |b.client.delivered|
  {
    hide FailedAt;
    ReachableKeeps(b);
    CountBadIs(b.client.delivered);
  }

  /** When the event loop runs out of work, everything was requested and completed, exactly if the window let anything through. */
  lemma DrainedMeansDone(b: Bench)
    requires Reachable(b) && b.client.transfers == [] && b.client.posted == []
    ensures b.done == Max(0, b.total) <==> b.concurrency >= 1 || b.total <= 0
    ensures b.done == b.launched && EachOnce(multiset(TicketsOf(b.client.delivered)), |b.client.issued|)
  {
    hide LifecycleProofs.Inv, Turns, Begin;
    WindowIsFull(b);
    ReachableKeeps(b);
    if b.concurrency <= 0 {
      NothingLaunched(b);
    }
    DrainedHandlers(b.client);
  }

  lemma DrainedHandlers(s: State)
    requires LifecycleProofs.Inv(s) && s.dropped == [] && s.transfers == [] && s.posted == []
    ensures EachOnce(multiset(TicketsOf(s.delivered)), |s.issued|)
  {
    assert Held(s.transfers) == [] && TicketsOf(s.posted) == [];
    assert HandlerPlaces(s) == multiset(TicketsOf(s.delivered));
  }

  /** With no room in the window nothing is ever done, so the busy-polling loop never ends. */
  lemma NoRoomNoProgress(b: Bench)
    requires Reachable(b) && b.concurrency <= 0 && b.total > 0
    ensures b.done == 0 && b.launched == 0 && b.done < b.total
  {
    WindowIsFull(b);
    ReachableKeeps(b);
    InFlightIsOwed(b.client);
    NothingLaunched(b);
  }

  lemma NothingLaunched(b: Bench)
    requires Reachable(b) && b.concurrency <= 0
    ensures b.launched == 0
  {
    var cap: nat, ts: seq<Turn> :| b == Turns(Begin(b.url, b.total, b.concurrency, b.envs, cap), ts);
    var a := Begin(b.url, b.total, b.concurrency, b.envs, cap);
    BeginKeeps(b.url, b.total, b.concurrency, b.envs, cap);
    IdleForever(a, ts);
  }

  lemma {:induction false} IdleForever(b: Bench, ts: seq<Turn>)
    requires Counts(b) && Full(b) && b.concurrency <= 0 && b.launched == 0
    ensures Turns(b, ts).launched == 0
    decreases |ts|
  {
    hide LifecycleProofs.Inv;
    if ts != [] {
      InFlightIsOwed(b.client);
      assert b.client.transfers == [] && b.client.posted == [] && b.client.msgs == [] by { NoMessages(b.client); }
      AdvanceKeeps(b, ts[0]);
      IdleForever(Advance(b, ts[0]), ts[1..]);
    }
  }

  lemma NoMessages(s: State)
    requires LifecycleProofs.Inv(s) && s.transfers == []
    ensures s.msgs == []
  {
  }

  // ---- splitting the work ----

  /** C++ division and remainder. */
  function Quot(a: int, b: int): int
    requires b > 0
  {
    if a >= 0 then a / b else -((-a) / b)
  }

  function Rem(a: int, b: int): int
    requires b > 0
  {
    a - Quot(a, b) * b
  }

  function Share(total: int, loops: int, t: int): int
    requires loops > 0
  {
    Quot(total, loops) + if t < Rem(total, loops) then 1 else 0
  }

  function Shares(total: int, loops: int, n: nat): int
    requires loops > 0
  {
    if n == 0 then 0 else Shares(total, loops, n - 1) + Share(total, loops, n - 1)
  }

  lemma {:induction false} SharesUpTo(total: int, loops: int, n: nat)
    requires loops > 0
    ensures Shares(total, loops, n) == n * Quot(total, loops) + Max(0, Min(n, Rem(total, loops)))
  {
    if n > 0 {
      SharesUpTo(total, loops, n - 1);
      assert n * Quot(total, loops) == (n - 1) * Quot(total, loops) + Quot(total, loops);
    }
  }

  lemma RemRange(total: int, loops: int)
    requires loops > 0
    ensures total >= 0 ==> 0 <= Rem(total, loops) < loops
    ensures total < 0 ==> -loops < Rem(total, loops) <= 0
  {
  }

  /** Over all loops the shares add up to the total, exactly when it is not negative or divides evenly. */
  lemma SharesAddUp(total: int, loops: int)
    requires loops > 0
    ensures Shares(total, loops, loops) == total <==> total >= 0 || Rem(total, loops) == 0
  {
    SharesUpTo(total, loops, loops);
    RemRange(total, loops);
    assert loops * Quot(total, loops) == Quot(total, loops) * loops;
  }

  /** No share is more than one away from another. */
  lemma SharesAreEven(total: int, loops: int, t: int, u: int)
    requires loops > 0 && 0 <= t < u < loops
    ensures Share(total, loops, u) <= Share(total, loops, t) <= Share(total, loops, u) + 1
  {
  }

  /**
   * A loop that drains has done its share exactly if main was given at least
   * as much concurrency as loops, or the share is nothing: with more loops
   * than concurrency each loop gets a window of zero.
   */
  lemma LoopDoesItsShare(b: Bench, total: int, concurrency: int, loops: int, t: int)
    requires loops > 0 && 0 <= t < loops
    requires b.total == Share(total, loops, t) && b.concurrency == Quot(concurrency, loops)
    requires Reachable(b) && b.client.transfers == [] && b.client.posted == []
    ensures b.done == Max(0, Share(total, loops, t)) <==> concurrency >= loops || Share(total, loops, t) <= 0
  {
    DrainedMeansDone(b);
    WindowPositive(concurrency, loops);
  }

  /** Two loops and a concurrency of 1: the first loop is to do one request, gets no window, and has nothing to wait for. */
  lemma MoreLoopsThanConcurrency(url: string, cap: nat)
    ensures Share(1, 2, 0) == 1 && Quot(1, 2) == 0
    ensures var b := Begin(url, Share(1, 2, 0), Quot(1, 2), [], cap);
      && Reachable(b) && b.client.transfers == [] && b.client.posted == [] && b.done == 0 < b.total
  {
    var b := Begin(url, 1, 0, [], cap);
    ReachableBegin(url, 1, 0, [], cap);
    assert b == Bench(url, 1, 0, [], Init(cap), 0, 0, 0, 0);
  }

  lemma WindowPositive(concurrency: int, loops: int)
    requires loops > 0
    ensures Quot(concurrency, loops) >= 1 <==> concurrency >= loops
  {
  }
}
