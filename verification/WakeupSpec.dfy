/**
 * How the client gets woken: curl reports a deadline through timer_cb, which
 * posts one deduplicated kick or arms one asio timer and skips reschedules it
 * thinks it can do without. Time, the event loop and libcurl are the
 * environment; a timer wait whose time has come can no longer be cancelled.
 */
module WakeupSpec {
  import opened Common

  /** A closure in the event loop's queue, ready to run. */
  datatype Closure =
    | KickNow
    | Fired(deadline: nat, aborted: bool)  // an async_wait of the timer that ended

  datatype State = State(
    kickPending: bool, armed: bool, alive: bool,
    // the asio timer: its expiry and the waits on it that have not ended
    expiry: nat, waiting: seq<nat>,
    now: nat, ready: seq<Closure>,
    // libcurl: the deadline it last reported, and how often it was told that its time had come
    last: Option<nat>, kicks: nat)

  function Init(now: nat): State {
    State(false, false, true, 0, [], now, [], None, 0)
  }

  function Aborted(waiting: seq<nat>): (r: seq<Closure>)
    ensures |r| == |waiting| && forall i :: 0 <= i < |r| ==> r[i] == Fired(waiting[i], true)
  {
    seq(|waiting|, i requires 0 <= i < |waiting| => Fired(waiting[i], true))
  }

  /** basic_waitable_timer::cancel. */
  function CancelWaits(s: State): State {
    s.(waiting := [], ready := s.ready + Aborted(s.waiting))
  }

  /** The point in time that a timeout in milliseconds stands for; a negative one means there is none. */
  function Deadline(now: nat, ms: int): Option<nat> {
    if ms < 0 then None else Some(now + ms)
  }

  function TimerCb(s: State, ms: int): State {
    if ms < 0 then CancelWaits(s).(armed := false)
    else if ms == 0 then
      if s.kickPending then s else s.(kickPending := true, ready := s.ready + [KickNow])
    else
      var deadline := s.now + ms;
      if s.armed && s.expiry <= deadline then s
      else
        var c := CancelWaits(s);
        c.(expiry := deadline, waiting := c.waiting + [deadline], armed := true)
  }

  /** libcurl calls timer_cb. */
  function Report(s: State, ms: int): State {
    TimerCb(s, ms).(last := Deadline(s.now, ms))
  }

  function Reports(s: State, reports: seq<int>): State
    decreases |reports|
  {
    if reports == [] then s else Reports(Report(s, reports[0]), reports[1..])
  }

  /**
   * kick: CURL_SOCKET_TIMEOUT makes libcurl forget what it last reported, so
   * that a deadline it still has is reported again before the call and the
   * completions after it are over.
   */
  function Kick(s: State, reports: seq<int>): State {
    Reports(s.(last := None, kicks := s.kicks + 1), reports)
  }

  function RunReady(s: State, i: nat, reports: seq<int>): State
    requires i < |s.ready|
  {
    var q := s.(ready := RemoveAt(s.ready, i));
    match s.ready[i]
    case KickNow => if !s.alive then q else Kick(q.(kickPending := false), reports)
    case Fired(_, aborted) => if aborted || !s.alive then q else Kick(q.(armed := false), reports)
  }

  /**
   * The timer part of ~Client: libcurl may still report deadlines while it
   * lets go of its transfers, and what those arm is cancelled with the timer.
   */
  function Destroy(s: State, reports: seq<int>): State {
    CancelWaits(Reports(CancelWaits(s.(alive := false)), reports))
  }

  /** A wait whose time has come ends, and its closure is queued. */
  function Expire(s: State, i: nat): State
    requires i < |s.waiting|
  {
    s.(waiting := RemoveAt(s.waiting, i), ready := s.ready + [Fired(s.waiting[i], false)])
  }

  datatype Event =
    | CurlCall(reports: seq<int>)        // any other call into libcurl: adding and removing handles, socket events
    | RunClosure(i: nat, reports: seq<int>)
    | TimeIsUp(i: nat)
    | Tick(ms: nat)
    | Destruct(reports: seq<int>)

  function Step(s: State, e: Event): State {
    match e
    case CurlCall(reports) => if s.alive then Reports(s, reports) else s
    case RunClosure(i, reports) => if i < |s.ready| then RunReady(s, i, reports) else s
    case TimeIsUp(i) => if i < |s.waiting| && s.waiting[i] <= s.now then Expire(s, i) else s
    case Tick(ms) => s.(now := s.now + ms)
    case Destruct(reports) => if s.alive then Destroy(s, reports) else s
  }

  function Run(s: State, es: seq<Event>): State
    decreases |es|
  {
    if es == [] then s else Run(Step(s, es[0]), es[1..])
  }

  // ---- the invariant ----

  /** Something not cancelled will call kick at time d at the latest. */
  predicate WokenBy(s: State, d: nat) {
    || KickNow in s.ready
    || (exists i :: 0 <= i < |s.waiting| && s.waiting[i] <= d)
    || (exists i :: 0 <= i < |s.ready| && s.ready[i].Fired? && !s.ready[i].aborted && s.ready[i].deadline <= d)
  }

  /** A closure that kicks libcurl when it runs, if the client lives. */
  predicate Wakes(c: Closure) {
    c.KickNow? || !c.aborted
  }

  /** A wait for exactly time d that is still running or whose uncancelled end is queued. */
  predicate LiveWait(s: State, d: nat) {
    d in s.waiting || Fired(d, false) in s.ready
  }

  /** A posted kick is marked and there is at most one; an armed timer has a live wait for its expiry and never two. */
  ghost predicate Armed(s: State) {
    && multiset(s.ready)[KickNow] == (if s.kickPending then 1 else 0)
    && (s.armed ==> LiveWait(s, s.expiry))
    && |s.waiting| <= 1 && (s.waiting != [] ==> s.waiting[0] == s.expiry)
  }

  ghost predicate Inv(s: State) {
    s.alive ==> Armed(s) && (s.last.Some? ==> WokenBy(s, s.last.value))
  }

  lemma LiveWakes(s: State, d: nat, bound: nat)
    requires LiveWait(s, d) && d <= bound
    ensures WokenBy(s, bound)
  {
    if d !in s.waiting {
      var i :| 0 <= i < |s.ready| && s.ready[i] == Fired(d, false);
    }
  }

  lemma ReportKeeps(s: State, ms: int)
    requires s.alive && Armed(s)
    ensures var t := Report(s, ms); t.alive && Armed(t) && Inv(t)
    ensures Report(s, ms).kicks == s.kicks && Report(s, ms).now == s.now
  {
    var t := Report(s, ms);
    if ms == 0 {
      assert s.kickPending ==> KickNow in multiset(s.ready);
      assert t.ready == s.ready || t.ready[|s.ready|] == KickNow;
      assert s.armed && s.expiry !in s.waiting ==> Fired(s.expiry, false) in s.ready;
    } else if ms > 0 && s.armed && s.expiry <= s.now + ms {
      LiveWakes(t, s.expiry, s.now + ms);
    } else if ms > 0 {
      assert t.waiting == [s.now + ms];
    }
    assert KickNow !in multiset(Aborted(s.waiting));
  }

  lemma {:induction false} ReportsKeep(s: State, reports: seq<int>)
    requires s.alive && Armed(s) && Inv(s)
    ensures var t := Reports(s, reports); t.alive && Armed(t) && Inv(t) && t.kicks == s.kicks && t.now == s.now
    decreases |reports|
  {
    if reports != [] {
      ReportKeeps(s, reports[0]);
      ReportsKeep(Report(s, reports[0]), reports[1..]);
    }
  }

  /** Taking a closure out of the queue hurts only the wake-up it carried. */
  lemma TakenKeeps(s: State, q: State, i: nat)
    requires Armed(s) && i < |s.ready| && q == s.(ready := RemoveAt(s.ready, i))
    ensures multiset(s.ready) == multiset(q.ready) + multiset{s.ready[i]}
    ensures s.armed && s.ready[i] != Fired(s.expiry, false) ==> LiveWait(q, s.expiry)
    ensures forall d :: WokenBy(s, d) && s.ready[i].Fired? && s.ready[i].aborted ==> WokenBy(q, d)
  {
    RemoveAtMultiset(s.ready, i);
    forall c | c in s.ready && c != s.ready[i] ensures c in q.ready {
      assert c in multiset(s.ready);
      assert c in multiset(q.ready);
    }
    forall d | WokenBy(s, d) && s.ready[i].Fired? && s.ready[i].aborted ensures WokenBy(q, d) {
      if j :| 0 <= j < |s.ready| && s.ready[j].Fired? && !s.ready[j].aborted && s.ready[j].deadline <= d {
        assert s.ready[j] in q.ready;
        var k :| 0 <= k < |q.ready| && q.ready[k] == s.ready[j];
      }
    }
  }

  lemma RunReadyKeeps(s: State, i: nat, reports: seq<int>)
    requires Inv(s) && i < |s.ready|
    ensures Inv(RunReady(s, i, reports)) && RunReady(s, i, reports).alive == s.alive
    ensures RunReady(s, i, reports).kicks == s.kicks + if s.alive && Wakes(s.ready[i]) then 1 else 0
  {
    var q := s.(ready := RemoveAt(s.ready, i));
    if s.alive {
      TakenKeeps(s, q, i);
      match s.ready[i]
      case KickNow => ReportsKeep(q.(kickPending := false, last := None, kicks := s.kicks + 1), reports);
      case Fired(_, aborted) =>
        if !aborted {
          ReportsKeep(q.(armed := false, last := None, kicks := s.kicks + 1), reports);
        }
    }
  }

  lemma ExpireKeeps(s: State, i: nat)
    requires Inv(s) && i < |s.waiting|
    ensures Inv(Expire(s, i))
  {
    var t, c := Expire(s, i), Fired(s.waiting[i], false);
    if s.alive {
      assert t.ready[|s.ready|] == c;
      assert forall x :: x in s.ready ==> x in t.ready;
      if s.last.Some? {
        var d := s.last.value;
        if j :| 0 <= j < |s.waiting| && s.waiting[j] <= d {
          assert t.ready[|s.ready|].deadline <= d;
        } else if j :| 0 <= j < |s.ready| && s.ready[j].Fired? && !s.ready[j].aborted && s.ready[j].deadline <= d {
          assert t.ready[j] == s.ready[j];
        }
      }
    }
  }

  /** Reporting a deadline is no kick, and no matter of life and death. */
  lemma {:induction false} ReportsOnly(s: State, reports: seq<int>)
    ensures var t := Reports(s, reports); t.alive == s.alive && t.kicks == s.kicks && t.now == s.now
    decreases |reports|
  {
    if reports != [] {
      ReportsOnly(Report(s, reports[0]), reports[1..]);
    }
  }

  lemma DestroyOnly(s: State, reports: seq<int>)
    ensures var d := Destroy(s, reports); !d.alive && d.waiting == [] && d.kicks == s.kicks && d.now == s.now
  {
    ReportsOnly(CancelWaits(s.(alive := false)), reports);
  }

  lemma StepKeeps(s: State, e: Event)
    requires Inv(s)
    ensures Inv(Step(s, e))
  {
    match e
    case CurlCall(reports) => if s.alive { ReportsKeep(s, reports); }
    case RunClosure(i, reports) => if i < |s.ready| { RunReadyKeeps(s, i, reports); }
    case TimeIsUp(i) => if i < |s.waiting| { ExpireKeeps(s, i); }
    case Tick(_) =>
    case Destruct(reports) => DestroyOnly(s, reports);
  }

  ghost predicate Reachable(s: State) {
    exists now: nat, es: seq<Event> :: s == Run(Init(now), es)
  }

  lemma {:induction false} RunSnoc(s: State, es: seq<Event>, e: Event)
    ensures Run(s, es + [e]) == Step(Run(s, es), e)
    decreases |es|
  {
    hide Step;
    if es == [] {
      assert [e][1..] == [];
    } else {
      assert (es + [e])[1..] == es[1..] + [e];
      RunSnoc(Step(s, es[0]), es[1..], e);
    }
  }

  lemma ReachableNext(s: State, e: Event)
    requires Reachable(s)
    ensures Reachable(Step(s, e))
  {
    var now: nat, es: seq<Event> :| s == Run(Init(now), es);
    RunSnoc(Init(now), es, e);
  }

  lemma {:induction false} RunKeeps(s: State, es: seq<Event>)
    requires Inv(s)
    ensures Inv(Run(s, es))
    decreases |es|
  {
    if es != [] {
      StepKeeps(s, es[0]);
      RunKeeps(Step(s, es[0]), es[1..]);
    }
  }

  lemma ReachableInv(s: State)
    requires Reachable(s)
    ensures Inv(s)
  {
    var now: nat, es: seq<Event> :| s == Run(Init(now), es);
    RunKeeps(Init(now), es);
  }

  // ---- the promises ----

  /**
   * No lost wake-up: whenever libcurl waits for a deadline it has reported, a
   * kick is posted or an uncancelled wait ends no later than that deadline.
   */
  lemma NoLostWakeup(s: State)
    requires Reachable(s) && s.alive && s.last.Some?
    ensures WokenBy(s, s.last.value)
  {
    ReachableInv(s);
  }

  /**
   * What each kind of report comes to. A negative one ends the wait that runs:
   * nothing is left to fire but what had fired before, and there is no
   * deadline any more. Zero means one kick is queued, however many are asked
   * for, and the timer keeps its wait. A positive one leaves everything as it
   * was just when an armed timer fires by then anyway; otherwise the only wait
   * that runs is one for the time reported.
   */
  lemma WhatAReportDoes(s: State, ms: int)
    requires Reachable(s) && s.alive
    ensures Report(s, ms).kicks == s.kicks && Report(s, ms).now == s.now && s.ready <= Report(s, ms).ready
    ensures forall c :: c in Report(s, ms).ready[|s.ready|..] ==> (c == KickNow && ms == 0) || (c.Fired? && c.aborted && ms != 0)
    ensures ms < 0 ==>
      var t := Report(s, ms);
      t.last == None && t.waiting == [] && !t.armed && t.kickPending == s.kickPending
    ensures ms == 0 ==>
      var t := Report(s, ms);
      && t.last == Some(s.now) && KickNow in t.ready && t.kickPending && (s.kickPending ==> t.ready == s.ready)
      && t.waiting == s.waiting && t.armed == s.armed && t.expiry == s.expiry
    ensures ms > 0 ==>
      var t := Report(s, ms);
      if s.armed && s.expiry <= s.now + ms then t == s.(last := Some(s.now + ms)) && LiveWait(s, s.expiry)
      else
        && t.last == Some(s.now + ms) && t.waiting == [s.now + ms] && t.expiry == s.now + ms && t.armed
        && t.kickPending == s.kickPending
  {
    ReachableInv(s);
    var t := Report(s, ms);
    assert s.kickPending ==> KickNow in multiset(s.ready);
    if ms == 0 && !s.kickPending {
      assert t.ready[|s.ready|] == KickNow;
    }
  }

  /** Nothing is ready to run and no wait is overdue. */
  predicate Quiet(s: State) {
    s.ready == [] && forall i :: 0 <= i < |s.waiting| ==> s.waiting[i] > s.now
  }

  /**
   * An event loop that has run everything it can owes libcurl nothing: its
   * deadline lies ahead, and the loop still has work to wait for, so it does
   * not return.
   */
  lemma QuietMeansOnTime(s: State)
    requires Reachable(s) && s.alive && s.last.Some? && Quiet(s)
    ensures s.now < s.last.value && s.waiting == [s.expiry] && s.now < s.expiry <= s.last.value
  {
    NoLostWakeup(s);
    ReachableInv(s);
  }

  lemma OneStep(s: State, e: Event)
    ensures Run(s, [e]) == Step(s, e)
  {
    assert Run(s, [e]) == Run(Step(s, e), []);
  }

  lemma TwoSteps(s: State, e: Event, f: Event)
    ensures Run(s, [e, f]) == Step(Step(s, e), f)
  {
    OneStep(Step(s, e), f);
    assert [e, f][1..] == [f];
  }

  /** Once the deadline has come, the event loop on its own can kick libcurl, in two steps at the most. */
  lemma WakeupIsEnabled(s: State, reports: seq<int>) returns (es: seq<Event>)
    requires Reachable(s) && s.alive && s.last.Some? && s.last.value <= s.now
    ensures |es| <= 2 && (forall e :: e in es ==> e.TimeIsUp? || e.RunClosure?)
    ensures Run(s, es).kicks == s.kicks + 1
  {
    hide Run, Kick, Reports, Inv;
    NoLostWakeup(s);
    ReachableInv(s);
    if KickNow in s.ready {
      var i :| 0 <= i < |s.ready| && s.ready[i] == KickNow;
      es := [RunClosure(i, reports)];
      RunReadyKeeps(s, i, reports);
      OneStep(s, es[0]);
    } else if i :| 0 <= i < |s.waiting| && s.waiting[i] <= s.last.value {
      es := [TimeIsUp(i), RunClosure(|s.ready|, reports)];
      ExpireKeeps(s, i);
      RunReadyKeeps(Expire(s, i), |s.ready|, reports);
      TwoSteps(s, es[0], es[1]);
    } else {
      var i :| 0 <= i < |s.ready| && s.ready[i].Fired? && !s.ready[i].aborted && s.ready[i].deadline <= s.last.value;
      es := [RunClosure(i, reports)];
      RunReadyKeeps(s, i, reports);
      OneStep(s, es[0]);
    }
  }

  /** However often libcurl asks for an immediate wake-up, at most one kick is queued, and one timer wait runs. */
  lemma NothingPilesUp(s: State)
    requires Reachable(s) && s.alive
    ensures multiset(s.ready)[KickNow] <= 1 && |s.waiting| <= 1
    ensures s.kickPending <==> KickNow in s.ready
  {
    ReachableInv(s);
    assert KickNow in s.ready <==> KickNow in multiset(s.ready);
  }

  lemma DeadStep(d: State, e: Event)
    requires !d.alive && d.waiting == []
    ensures var t := Step(d, e); t == d.(now := t.now, ready := t.ready) && multiset(t.ready) <= multiset(d.ready)
  {
    if e.RunClosure? && e.i < |d.ready| {
      RemoveAtMultiset(d.ready, e.i);
    }
  }

  /**
   * Destruction safety: whatever order the closures left in the queue run in,
   * they change no field of the client, its timer or libcurl, and none of
   * them queues anything.
   */
  lemma {:induction false} ClosuresOutliveTheClient(d: State, es: seq<Event>)
    requires !d.alive && d.waiting == []
    ensures var t := Run(d, es);
      && t == d.(now := t.now, ready := t.ready) && multiset(t.ready) <= multiset(d.ready)
    decreases |es|
  {
    if es != [] {
      hide Step;
      DeadStep(d, es[0]);
      ClosuresOutliveTheClient(Step(d, es[0]), es[1..]);
    }
  }

  lemma DestructionIsSafe(s: State, reports: seq<int>, es: seq<Event>)
    requires s.alive
    ensures var d := Destroy(s, reports);
      var t := Run(d, es);
      t.kicks == s.kicks && !t.alive && t.waiting == [] && t == d.(now := t.now, ready := t.ready)
  {
    hide Destroy, Run;
    DestroyOnly(s, reports);
    ClosuresOutliveTheClient(Destroy(s, reports), es);
  }

  /**
   * What the skipped reschedules rest on: here a report of time 12 armed
   * nothing, as a wait for time 10 had just expired. Once that wait's closure
   * has been taken from the queue nothing is left to wake libcurl by 12, so
   * the kick it makes must have the deadline reported again.
   */
  lemma RereportIsNeeded()
    ensures exists s: State :: Reachable(s) && s.alive && s.last == Some(12) && s.ready == [Fired(10, false)]
                               && !WokenBy(RemovedFirst(s), 12)
  {
    var es := [CurlCall([10]), Tick(10), TimeIsUp(0), CurlCall([2])];
    var s0 := Init(0);
    var s1 := Step(s0, es[0]);
    assert s1 == Reports(Report(s0, 10), []);
    var s2 := Step(s1, es[1]);
    var s3 := Step(s2, es[2]);
    var s4 := Step(s3, es[3]);
    assert s4 == Reports(Report(s3, 2), []);
    assert Run(s0, es) == Run(s1, es[1..]) == Run(s2, es[2..]) == Run(s3, es[3..]) == Run(s4, es[4..]) == s4;
    assert Reachable(s4);
  }

  /** The queue without its first closure. */
  function RemovedFirst(s: State): State {
    if s.ready == [] then s else s.(ready := s.ready[1..])
  }
}
