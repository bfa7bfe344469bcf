/**
 * The wake-up fields of Client and the objects around it, changed step by
 * step; each method is proved against the functions of WakeupSpec.
 */
module Wakeups {
  import opened Common
  import opened WakeupSpec

  /** The io_context, with the clock it reads. */
  class EventLoop {
    var now: nat
    var ready: seq<Closure>

    constructor (t: nat)
      ensures now == t && ready == []
    {
      now, ready := t, [];
    }

    method Post(c: Closure)
      modifies `ready
      ensures ready == old(ready) + [c]
    {
      ready := ready + [c];
    }
  }

  /** asio's steady_timer. */
  class SteadyTimer {
    const loop: EventLoop
    var expiry: nat
    var waiting: seq<nat>

    constructor (l: EventLoop)
      ensures loop == l && expiry == 0 && waiting == []
    {
      loop, expiry, waiting := l, 0, [];
    }

    /** Every wait that has not ended ends with operation_aborted; one whose end is queued is out of reach. */
    method Cancel()
      modifies `waiting, loop`ready
      ensures waiting == [] && loop.ready == old(loop.ready) + Aborted(old(waiting))
    {
      var n := |waiting|;
      for i := 0 to n
        invariant waiting == old(waiting)[i..] && n == |old(waiting)|
        invariant loop.ready == old(loop.ready) + Aborted(old(waiting))[..i]
      {
        loop.Post(Fired(waiting[0], true));
        waiting := waiting[1..];
      }
    }

    method ExpiresAt(deadline: nat)
      modifies this, loop`ready
      ensures expiry == deadline && waiting == [] && loop.ready == old(loop.ready) + Aborted(old(waiting))
    {
      Cancel();
      expiry := deadline;
    }

    method AsyncWait()
      modifies `waiting
      ensures waiting == old(waiting) + [expiry]
    {
      waiting := waiting + [expiry];
    }

    /** The time of one wait has come. */
    method TimeIsUp(i: nat)
      requires i < |waiting| && waiting[i] <= loop.now
      modifies `waiting, loop`ready
      ensures waiting == RemoveAt(old(waiting), i) && loop.ready == old(loop.ready) + [Fired(old(waiting)[i], false)]
    {
      loop.Post(Fired(waiting[i], false));
      waiting := RemoveAt(waiting, i);
    }
  }

  /** The std::shared_ptr<bool> that closures hold to learn whether the client still exists. */
  class Flag {
    var value: bool

    constructor (v: bool)
      ensures value == v
    {
      value := v;
    }
  }

  /** What libcurl's side of the exchange remembers. */
  class Multi {
    var last: Option<nat>
    var kicks: nat

    constructor ()
      ensures last == None && kicks == 0
    {
      last, kicks := None, 0;
    }
  }

  class Client {
    const loop: EventLoop
    const timer: SteadyTimer
    const aliveFlag: Flag
    const multi: Multi
    var kickPending: bool
    var timerArmed: bool

    constructor (l: EventLoop)
      requires l.ready == []
      ensures Model() == Init(l.now) && timer.loop == loop == l
      ensures fresh(timer) && fresh(aliveFlag) && fresh(multi)
    {
      loop := l;
      timer := new SteadyTimer(l);
      aliveFlag := new Flag(true);
      multi := new Multi();
      kickPending, timerArmed := false, false;
    }

    ghost function Model(): State
      reads this, loop, timer, aliveFlag, multi
    {
      State(kickPending, timerArmed, aliveFlag.value, timer.expiry, timer.waiting, loop.now, loop.ready, multi.last, multi.kicks)
    }

    method TimerCb(timeoutMs: int)
      requires timer.loop == loop
      modifies this, timer, loop`ready
      ensures Model() == WakeupSpec.TimerCb(old(Model()), timeoutMs)
    {
      if timeoutMs < 0 {
        timer.Cancel();
        timerArmed := false;
        return;
      }
      if timeoutMs == 0 {
        if !kickPending {
          kickPending := true;
          loop.Post(KickNow);
        }
        return;
      }
      var deadline := loop.now + timeoutMs;
      if timerArmed && timer.expiry <= deadline {
        return;
      }
      timer.ExpiresAt(deadline);
      timerArmed := true;
      timer.AsyncWait();
    }

    /** libcurl reports its deadlines while it works. */
    method HearReports(reports: seq<int>)
      requires timer.loop == loop
      modifies this, timer, loop`ready, multi`last
      ensures Model() == Reports(old(Model()), reports)
    {
      for i := 0 to |reports|
        invariant Reports(Model(), reports[i..]) == Reports(old(Model()), reports)
      {
        assert reports[i..][0] == reports[i] && reports[i..][1..] == reports[i + 1..];
        TimerCb(reports[i]);
        multi.last := Deadline(loop.now, reports[i]);
      }
    }

    method Kick(reports: seq<int>)
      requires timer.loop == loop
      modifies this, timer, loop`ready, multi
      ensures Model() == WakeupSpec.Kick(old(Model()), reports)
    {
      multi.last, multi.kicks := None, multi.kicks + 1;
      HearReports(reports);
    }

    /** The event loop runs one queued closure, which may outlive the client. */
    method RunClosure(i: nat, reports: seq<int>)
      requires timer.loop == loop && i < |loop.ready|
      modifies this, timer, loop`ready, multi
      ensures Model() == RunReady(old(Model()), i, reports)
      ensures !aliveFlag.value ==> unchanged(this) && unchanged(timer) && unchanged(multi)
    {
      var c := loop.ready[i];
      loop.ready := RemoveAt(loop.ready, i);
      match c {
        case KickNow =>
          if !aliveFlag.value {
            return;
          }
          kickPending := false;
          Kick(reports);
        case Fired(_, aborted) =>
          if aborted || !aliveFlag.value {
            return;
          }
          timerArmed := false;
          Kick(reports);
      }
    }

    /** The timer part of the destructor; reports come from libcurl's clean-up. */
    method Destroy(reports: seq<int>)
      requires timer.loop == loop
      modifies this, aliveFlag, timer, loop`ready, multi`last
      ensures Model() == WakeupSpec.Destroy(old(Model()), reports)
    {
      aliveFlag.value := false;
      timer.Cancel();
      HearReports(reports);
      timer.Cancel();  // its own destructor
    }
  }
}
