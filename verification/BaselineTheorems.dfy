/** What every run of the epoll baseline keeps, and what follows from it. */
module BaselineTheorems {
  import opened Common
  import opened BaselineSpec

  function Handles(infos: seq<Info>): (r: seq<nat>)
    ensures |r| == |infos| && forall i :: 0 <= i < |r| ==> r[i] == infos[i].eh
  {
    seq(|infos|, i requires 0 <= i < |infos| => infos[i].eh)
  }

  function Tickets(infos: seq<Info>): (r: seq<nat>)
    ensures |r| == |infos| && forall i :: 0 <= i < |r| ==> r[i] == infos[i].ticket
  {
    seq(|infos|, i requires 0 <= i < |infos| => infos[i].ticket)
  }

  /** fd_set_ is what the kernel watches, and each mask is the one libcurl asked for last. */
  ghost predicate Mirror(s: State) {
    && s.epoll.failures == 0
    && s.epoll.interest.Keys == s.fdSet == s.wanted.Keys
    && forall fd :: fd in s.fdSet ==> s.epoll.interest[fd] == EventsOf[s.wanted[fd]]
  }

  ghost predicate Distinct(xs: seq<nat>) {
    forall i, j :: 0 <= i < j < |xs| ==> xs[i] != xs[j]
  }

  ghost predicate Messages(s: State) {
    && Distinct(s.msgs) && (forall i :: 0 <= i < |s.msgs| ==> s.msgs[i] in s.added)
    && s.pending == |s.added| - |s.msgs|
  }

  /** The multi holds the handles of the requests sent, but for the one whose callback is running, if any. */
  ghost predicate Sent(s: State, running: Option<nat>) {
    && (forall i :: 0 <= i < |s.infos| && s.infos[i].sent && running != Some(s.infos[i].eh) ==> s.infos[i].eh in s.added)
    && (forall eh :: eh in s.added ==> running != Some(eh))
    && (forall eh :: eh in s.added ==> exists i :: 0 <= i < |s.infos| && s.infos[i].eh == eh && s.infos[i].sent)
    && (running.Some? ==> exists i :: 0 <= i < |s.infos| && s.infos[i].eh == running.value && s.infos[i].sent)
  }

  /** Where every handle and every callback is. */
  ghost predicate Places(s: State) {
    && EachOnce(multiset(s.pool) + multiset(Handles(s.infos)), s.nextEasy)
    && EachOnce(multiset(s.called) + multiset(Tickets(s.infos)), s.asked)
  }

  ghost predicate Inv(s: State, running: Option<nat>) {
    Mirror(s) && Messages(s) && Sent(s, running) && Places(s)
  }

  lemma DistinctHandles(s: State)
    requires Places(s)
    ensures Distinct(Handles(s.infos))
    ensures forall i :: 0 <= i < |s.infos| ==> s.infos[i].eh !in s.pool && s.infos[i].eh < s.nextEasy
  {
    var a := Handles(s.infos);
    EachOncePart(multiset(s.pool) + multiset(a), a, multiset(s.pool), s.nextEasy);
    forall i | 0 <= i < |s.infos| ensures s.infos[i].eh !in s.pool && s.infos[i].eh < s.nextEasy {
      assert a[i] !in multiset(s.pool);
    }
  }

  // ---- libcurl and the kernel ----

  lemma DoKeeps(s: State, a: Act)
    requires Mirror(s) && Distinct(s.msgs) && (forall i :: 0 <= i < |s.msgs| ==> s.msgs[i] in s.added)
    ensures var t := Do(s, a);
      && Mirror(t) && Distinct(t.msgs) && (forall i :: 0 <= i < |t.msgs| ==> t.msgs[i] in t.added)
      && t.infos == s.infos && t.added == s.added
  {
  }

  lemma {:induction false} DoAllKeeps(s: State, acts: seq<Act>)
    requires Mirror(s) && Distinct(s.msgs) && (forall i :: 0 <= i < |s.msgs| ==> s.msgs[i] in s.added)
    ensures var t := DoAll(s, acts);
      Mirror(t) && Distinct(t.msgs) && forall i :: 0 <= i < |t.msgs| ==> t.msgs[i] in t.added
    decreases |acts|
  {
    hide Mirror, Do, Distinct;
    if acts != [] {
      DoKeeps(s, acts[0]);
      DoAllKeeps(Do(s, acts[0]), acts[1..]);
    }
  }

  /** pending is brought up to date by the action, so it need not be before. */
  lemma SocketActionKeeps(s: State, acts: seq<Act>, running: Option<nat>)
    requires Inv(s.(pending := |s.added| - |s.msgs|), running)
    ensures Inv(SocketAction(s, acts), running)
  {
    DoAllKeeps(s, acts);
  }

  lemma {:induction false} SocketActionsKeep(s: State, ready: seq<seq<Act>>, running: Option<nat>)
    requires Inv(s, running)
    ensures Inv(SocketActions(s, ready), running)
    decreases |ready|
  {
    hide Mirror, Sent, Places, SocketAction;
    if ready != [] {
      assert s == s.(pending := |s.added| - |s.msgs|);
      SocketActionKeeps(s, ready[0], running);
      SocketActionsKeep(SocketAction(s, ready[0]), ready[1..], running);
    }
  }

  lemma ProcessEventsKeeps(s: State, ready: Option<seq<seq<Act>>>, timeout: seq<Act>, running: Option<nat>)
    requires Inv(s, running)
    ensures Inv(ProcessEvents(s, ready, timeout), running)
  {
    hide Mirror, Sent, Places, SocketAction;
    assert s == s.(pending := |s.added| - |s.msgs|);
    if ready.Some? {
      SocketActionKeeps(s, timeout, running);
      SocketActionsKeep(s, ready.value, running);
    }
  }

  // ---- requests ----

  lemma RequestPlaces(s: State, job: Job)
    requires Places(s)
    ensures Places(Request(s, job)) && NextHandle(s) !in Handles(s.infos)
  {
    DistinctHandles(s);
    var t, n := Request(s, job), NextHandle(s);
    ConsMultiset(n, Handles(s.infos));
    ConsMultiset(s.asked, Tickets(s.infos));
    assert Handles(t.infos) == [n] + Handles(s.infos) && Tickets(t.infos) == [s.asked] + Tickets(s.infos);
    if s.pool == [] {
      EachOnceNext(multiset(s.pool) + multiset(Handles(s.infos)), s.nextEasy);
    } else {
      assert s.pool == t.pool + [n];
      assert n in s.pool;
    }
    EachOnceNext(multiset(s.called) + multiset(Tickets(s.infos)), s.asked);
    assert multiset(t.called) + multiset(Tickets(t.infos)) == multiset(s.called) + multiset(Tickets(s.infos)) + multiset{s.asked};
    var all := multiset(s.pool) + multiset(Handles(s.infos));
    assert multiset(t.pool) + multiset(Handles(t.infos)) == if s.pool == [] then all + multiset{n} else all;
  }

  lemma RequestSent(s: State, job: Job, running: Option<nat>)
    requires Sent(s, running)
    ensures Sent(Request(s, job), running)
  {
    var t := Request(s, job);
    forall eh | eh in t.added ensures exists i :: 0 <= i < |t.infos| && t.infos[i].eh == eh && t.infos[i].sent {
      var i :| 0 <= i < |s.infos| && s.infos[i].eh == eh && s.infos[i].sent;
      assert t.infos[i + 1] == s.infos[i];
    }
    if running.Some? {
      var i :| 0 <= i < |s.infos| && s.infos[i].eh == running.value && s.infos[i].sent;
      assert t.infos[i + 1] == s.infos[i];
    }
  }

  lemma RequestKeeps(s: State, job: Job, running: Option<nat>)
    requires Inv(s, running)
    ensures Inv(Request(s, job), running)
  {
    hide Places, Sent;
    RequestPlaces(s, job);
    RequestSent(s, job, running);
  }

  /** A request yet to be sent shares its handle with none that was. */
  lemma SentApart(s: State, i: nat)
    requires Places(s) && i < |s.infos| && !s.infos[i].sent
    ensures forall j :: 0 <= j < |s.infos| && s.infos[j].sent ==> s.infos[j].eh != s.infos[i].eh
  {
    hide Places;
    DistinctHandles(s);
    forall j | 0 <= j < |s.infos| && s.infos[j].sent ensures s.infos[j].eh != s.infos[i].eh {
      assert Handles(s.infos)[j] != Handles(s.infos)[i];
    }
  }

  lemma SubmitSent(s: State, t: State, i: nat, running: Option<nat>)
    requires Sent(s, running) && Places(s) && i < |s.infos| && !s.infos[i].sent
    requires t.infos == s.infos[i := s.infos[i].(sent := true)] && t.added == s.added + {s.infos[i].eh}
    ensures Sent(t, running) && s.infos[i].eh !in s.added
  {
    hide Places;
    SentApart(s, i);
    forall eh | eh in t.added ensures exists j :: 0 <= j < |t.infos| && t.infos[j].eh == eh && t.infos[j].sent {
      if eh == s.infos[i].eh {
        assert t.infos[i].sent;
      } else {
        var j :| 0 <= j < |s.infos| && s.infos[j].eh == eh && s.infos[j].sent;
        assert t.infos[j] == s.infos[j];
      }
    }
    if running.Some? {
      var j :| 0 <= j < |s.infos| && s.infos[j].eh == running.value && s.infos[j].sent;
      assert t.infos[j] == s.infos[j];
    }
  }

  /** A handle is added to the multi for a request not sent before. */
  lemma SubmitKeeps(s: State, i: nat, running: Option<nat>)
    requires Inv(s, running) && i < |s.infos| && !s.infos[i].sent
    ensures Inv(Submit(s, i), running)
  {
    hide Mirror, Sent, ProcessEvents, SocketAction;
    var n := s.infos[i];
    var t := s.(infos := s.infos[i := n.(sent := true)], added := s.added + {n.eh});
    var u := t.(pending := |t.added| - |t.msgs|);
    SubmitSent(s, u, i, running);
    assert Handles(u.infos) == Handles(s.infos) && Tickets(u.infos) == Tickets(s.infos);
    MirrorFrame(s, u);
    SocketActionKeeps(t, n.job.drive.kick, running);
    ProcessEventsKeeps(SocketAction(t, n.job.drive.kick), n.job.drive.ready, n.job.drive.timeout, running);
  }

  lemma MirrorFrame(s: State, t: State)
    requires Mirror(s) && t.epoll == s.epoll && t.fdSet == s.fdSet && t.wanted == s.wanted
    ensures Mirror(t)
  {
  }

  lemma {:induction false} CallbackKeeps(s: State, jobs: seq<Job>, running: Option<nat>)
    requires Inv(s, running)
    ensures Inv(Callback(s, jobs), running)
    decreases |jobs|
  {
    hide Inv, Request, Submit;
    if jobs != [] {
      var q := Request(s, jobs[0]);
      RequestKeeps(s, jobs[0], running);
      DrawsAnother(s, jobs[0], running);
      SubmitKeeps(q, 0, running);
      CallbackKeeps(Submit(q, 0), jobs[1..], running);
    }
  }

  /** A request never draws a handle in use, so a callback's never draws the one still being completed. */
  lemma DrawsAnother(s: State, job: Job, running: Option<nat>)
    requires Inv(s, running)
    ensures NextHandle(s) !in Handles(s.infos) && running != Some(NextHandle(s))
    ensures var q := Request(s, job); q.infos != [] && !q.infos[0].sent && q.infos[0].eh == NextHandle(s)
  {
    RequestPlaces(s, job);
  }

  // ---- completion ----

  lemma TakeKeeps(s: State)
    requires Inv(s, None) && s.msgs != []
    ensures Inv(Take(s), Some(s.msgs[0]))
  {
    var t := Take(s);
    MirrorFrame(s, t);
    assert s.msgs[0] in s.added;
    var i :| 0 <= i < |s.infos| && s.infos[i].eh == s.msgs[0] && s.infos[i].sent;
    assert Handles(t.infos)[i] == s.msgs[0];
    forall j | 0 <= j < |t.msgs| ensures t.msgs[j] in t.added {
      assert t.msgs[j] == s.msgs[j + 1];
    }
  }

  lemma RecyclePlaces(s: State, i: nat)
    requires i < |s.infos| && Places(s)
    ensures Places(Recycle(s, i))
  {
    var t := Recycle(s, i);
    assert Handles(t.infos) == RemoveAt(Handles(s.infos), i) && Tickets(t.infos) == RemoveAt(Tickets(s.infos), i);
    RemoveAtMultiset(Handles(s.infos), i);
    RemoveAtMultiset(Tickets(s.infos), i);
    assert multiset(t.pool) + multiset(Handles(t.infos)) == multiset(s.pool) + multiset(Handles(s.infos));
    assert multiset(t.called) + multiset(Tickets(t.infos)) == multiset(s.called) + multiset(Tickets(s.infos));
  }

  lemma RecycleSent(s: State, i: nat)
    requires i < |s.infos| && Sent(s, Some(s.infos[i].eh)) && Distinct(Handles(s.infos))
    ensures Sent(Recycle(s, i), None)
  {
    var t := Recycle(s, i);
    forall eh | eh in t.added ensures exists j :: 0 <= j < |t.infos| && t.infos[j].eh == eh && t.infos[j].sent {
      var j :| 0 <= j < |s.infos| && s.infos[j].eh == eh && s.infos[j].sent;
      assert t.infos[if j < i then j else j - 1] == s.infos[j];
    }
    forall j | 0 <= j < |t.infos| && t.infos[j].sent ensures t.infos[j].eh in t.added {
      var o := if j < i then j else j + 1;
      assert t.infos[j] == s.infos[o] && Handles(s.infos)[o] != Handles(s.infos)[i];
    }
  }

  lemma RecycleKeeps(s: State, i: nat)
    requires i < |s.infos| && Inv(s, Some(s.infos[i].eh))
    ensures Inv(Recycle(s, i), None)
  {
    hide Mirror, Places, Sent, Distinct;
    MirrorFrame(s, Recycle(s, i));
    DistinctHandles(s);
    RecyclePlaces(s, i);
    RecycleSent(s, i);
  }

  lemma CompleteKeeps(s: State)
    requires Inv(s, None) && s.msgs != []
    ensures Complete(s).Some? && Inv(Complete(s).value, None)
  {
    hide Mirror, Places, Messages, Callback, Request, Submit;
    TakeKeeps(s);
    var eh := s.msgs[0];
    assert eh in Handles(s.infos) by {
      var j :| 0 <= j < |s.infos| && s.infos[j].eh == eh && s.infos[j].sent;
      assert Handles(s.infos)[j] == eh;
    }
    var i := FoundAt(s, eh);
    var jobs := s.infos[i].job.follow;
    CallbackKeeps(Take(s), jobs, Some(eh));
    CallbackWork(Take(s), jobs);
    var c := Callback(Take(s), jobs);
    assert c.infos[i + |jobs|] == s.infos[i];
    RecycleKeeps(c, i + |jobs|);
  }

  lemma FoundAt(s: State, eh: nat) returns (i: nat)
    requires eh in Handles(s.infos)
    ensures i < |s.infos| && s.infos[i].eh == eh && IndexOf(s.infos, eh) == Some(i)
  {
    var j :| 0 <= j < |s.infos| && Handles(s.infos)[j] == eh;
    i := IndexOf(s.infos, eh).value;
  }

  lemma {:induction false} MultiInfoReadKeeps(s: State)
    requires Inv(s, None)
    ensures Inv(MultiInfoRead(s), None) && MultiInfoRead(s).msgs == []
    decreases Work(s.infos)
  {
    hide Inv, Complete;
    if s.msgs != [] {
      CompleteWork(s);
      CompleteKeeps(s);
      MultiInfoReadKeeps(Complete(s).value);
    }
  }

  // ---- runs ----

  lemma StepKeeps(s: State, e: Event, running: Option<nat>)
    requires Inv(s, running) && (e.Poll? ==> running.None?)
    ensures Inv(Step(s, e), running)
  {
    hide Inv, Request, Submit, MultiInfoRead, ProcessEvents;
    match e
    case Prepare(job) => RequestKeeps(s, job, running);
    case Send(i) => if i < |s.infos| && !s.infos[i].sent { SubmitKeeps(s, i, running); }
    case Poll(ready, timeout) =>
      ProcessEventsKeeps(s, ready, timeout, None);
      MultiInfoReadKeeps(ProcessEvents(s, ready, timeout));
  }

  /** A state, and the handle whose callback is running if one is. */
  datatype View = View(s: State, running: Option<nat>)

  /**
   * The moments of a run: a call of the user's, made from outside or from a
   * callback; the first half of a poll; a message taken, so that its callback
   * runs; and that callback's return. A poll is not made from a callback.
   */
  datatype Moment = Call(e: Event) | Events(ready: Option<seq<seq<Act>>>, timeout: seq<Act>) | Invoke | Return

  function Advance(v: View, m: Moment): View {
    match m
    case Call(e) => if e.Poll? && v.running.Some? then v else v.(s := Step(v.s, e))
    case Events(ready, timeout) => if v.running.Some? then v else v.(s := ProcessEvents(v.s, ready, timeout))
    case Invoke =>
      if v.running.None? && v.s.msgs != [] && IndexOf(v.s.infos, v.s.msgs[0]).Some?
      then View(Take(v.s), Some(v.s.msgs[0])) else v
    case Return =>
      if v.running.Some? && IndexOf(v.s.infos, v.running.value).Some?
      then View(Recycle(v.s, IndexOf(v.s.infos, v.running.value).value), None) else v
  }

  function Trail(v: View, ms: seq<Moment>): View
    decreases |ms|
  {
    if ms == [] then v else Trail(Advance(v, ms[0]), ms[1..])
  }

  lemma AdvanceKeeps(v: View, m: Moment)
    requires Inv(v.s, v.running)
    ensures Inv(Advance(v, m).s, Advance(v, m).running)
  {
    hide Inv, Step, ProcessEvents;
    match m
    case Call(e) => if e.Poll? ==> v.running.None? { StepKeeps(v.s, e, v.running); }
    case Events(ready, timeout) => ProcessEventsKeeps(v.s, ready, timeout, v.running);
    case Invoke => if v.running.None? && v.s.msgs != [] { TakeKeeps(v.s); }
    case Return =>
      if v.running.Some? && IndexOf(v.s.infos, v.running.value).Some? {
        RecycleKeeps(v.s, IndexOf(v.s.infos, v.running.value).value);
      }
  }

  lemma {:induction false} TrailKeeps(v: View, ms: seq<Moment>)
    requires Inv(v.s, v.running)
    ensures Inv(Trail(v, ms).s, Trail(v, ms).running)
    decreases |ms|
  {
    hide Inv, Advance;
    if ms != [] {
      AdvanceKeeps(v, ms[0]);
      TrailKeeps(Advance(v, ms[0]), ms[1..]);
    }
  }

  lemma {:induction false} NumbersEachOnce(n: nat)
    ensures EachOnce(multiset(Numbers(n)), n)
  {
    if n > 0 {
      NumbersEachOnce(n - 1);
      assert Numbers(n) == Numbers(n - 1) + [n - 1];
      EachOnceNext(multiset(Numbers(n - 1)), n - 1);
    }
  }

  lemma InitKeeps(poolSize: nat)
    ensures Inv(Init(poolSize), None)
  {
    NumbersEachOnce(poolSize);
    var s := Init(poolSize);
    assert multiset(s.pool) + multiset(Handles(s.infos)) == multiset(Numbers(poolSize));
  }

  ghost predicate Reachable(v: View) {
    exists poolSize: nat, ms: seq<Moment> :: v == Trail(View(Init(poolSize), None), ms)
  }

  lemma ReachableInv(v: View)
    requires Reachable(v)
    ensures Inv(v.s, v.running)
  {
    hide Inv;
    var poolSize: nat, ms: seq<Moment> :| v == Trail(View(Init(poolSize), None), ms);
    InitKeeps(poolSize);
    TrailKeeps(View(Init(poolSize), None), ms);
  }

  lemma {:induction false} TrailSnoc(v: View, ms: seq<Moment>, m: Moment)
    ensures Trail(v, ms + [m]) == Advance(Trail(v, ms), m)
    decreases |ms|
  {
    hide Advance;
    if ms == [] {
      assert [m][1..] == [];
    } else {
      assert (ms + [m])[1..] == ms[1..] + [m];
      TrailSnoc(Advance(v, ms[0]), ms[1..], m);
    }
  }

  lemma ReachableNext(v: View, m: Moment)
    requires Reachable(v)
    ensures Reachable(Advance(v, m))
  {
    var poolSize: nat, ms: seq<Moment> :| v == Trail(View(Init(poolSize), None), ms);
    TrailSnoc(View(Init(poolSize), None), ms, m);
  }

  /** A callback's requests are calls like any other. */
  lemma {:induction false} CallbackIsReachable(s: State, jobs: seq<Job>, running: Option<nat>)
    requires Reachable(View(s, running))
    ensures Reachable(View(Callback(s, jobs), running))
    decreases |jobs|
  {
    hide Reachable, Inv, Submit, Request;
    if jobs != [] {
      var q := Request(s, jobs[0]);
      ReachableInv(View(s, running));
      DrawsAnother(s, jobs[0], running);
      ReachableNext(View(s, running), Call(Prepare(jobs[0])));
      ReachableNext(View(q, running), Call(Send(0)));
      CallbackIsReachable(Submit(q, 0), jobs[1..], running);
    }
  }

  /**
   * The completion loop is made of these moments: a callback is running in a
   * reachable view when it is invoked, after any number of its requests, and
   * at its return, which leaves the loop where its next turn begins. So the
   * promises below hold inside every callback of every poll.
   */
  lemma LoopTurnsAreReachable(s: State, k: nat)
    requires Reachable(View(s, None)) && s.msgs != []
    ensures Complete(s).Some? && Reachable(View(Complete(s).value, None))
    ensures var i := IndexOf(s.infos, s.msgs[0]).value;
      k <= |s.infos[i].job.follow| ==> Reachable(View(Callback(Take(s), s.infos[i].job.follow[..k]), Some(s.msgs[0])))
  {
    hide Reachable, Inv, Callback, Take;
    ReachableInv(View(s, None));
    CompleteKeeps(s);
    var eh, i := s.msgs[0], IndexOf(s.infos, s.msgs[0]).value;
    var jobs := s.infos[i].job.follow;
    ReachableNext(View(s, None), Invoke);
    CallbackIsReachable(Take(s), jobs, Some(eh));
    if k <= |jobs| {
      CallbackIsReachable(Take(s), jobs[..k], Some(eh));
    }
    var c := Callback(Take(s), jobs);
    ReachableInv(View(c, Some(eh)));
    CallbackMoves(s, jobs, i);
    OnlyPlace(c, i + |jobs|, Some(eh));
    ReachableNext(View(c, Some(eh)), Return);
  }

  lemma CallbackMoves(s: State, jobs: seq<Job>, i: nat)
    requires s.msgs != [] && i < |s.infos|
    ensures |Callback(Take(s), jobs).infos| == |s.infos| + |jobs| && Callback(Take(s), jobs).infos[i + |jobs|] == s.infos[i]
  {
    CallbackWork(Take(s), jobs);
  }

  /** A handle in use is with one request, where a search finds it. */
  lemma OnlyPlace(s: State, i: nat, running: Option<nat>)
    requires Inv(s, running) && i < |s.infos|
    ensures IndexOf(s.infos, s.infos[i].eh) == Some(i)
  {
    DistinctHandles(s);
    var j := IndexOf(s.infos, s.infos[i].eh).value;
    assert Handles(s.infos)[j] == Handles(s.infos)[i];
  }

  /**
   * fd_set_ is exactly what the kernel watches, and no epoll_ctl ever failed;
   * the mask registered has bit 1, EPOLLIN, just when libcurl's latest
   * interest is CURL_POLL_IN (1) or INOUT (3), bit 4, EPOLLOUT, just when it
   * is CURL_POLL_OUT (2) or INOUT, and no other bit.
   */
  lemma KernelAgrees(v: View, fd: nat)
    requires Reachable(v)
    ensures var s := v.s;
      && (fd in s.fdSet <==> fd in s.epoll.interest) && (fd in s.wanted <==> fd in s.epoll.interest)
      && s.epoll.failures == 0
    ensures fd in v.s.wanted ==>
      var what, mask := v.s.wanted[fd], v.s.epoll.interest[fd];
      && (mask % 2 == 1 <==> what == 1 || what == 3)
      && (mask / 4 % 2 == 1 <==> what == 2 || what == 3)
      && mask / 2 % 2 == 0 && mask < 8
  {
    ReachableInv(v);
    assert fd in v.s.epoll.interest <==> fd in v.s.epoll.interest.Keys;
    assert fd in v.s.wanted <==> fd in v.s.wanted.Keys;
  }

  function Flatten(batches: seq<seq<Act>>): seq<Act>
    decreases |batches|
  {
    if batches == [] then [] else batches[0] + Flatten(batches[1..])
  }

  lemma {:induction false} DoAllConcat(s: State, a: seq<Act>, b: seq<Act>)
    ensures DoAll(s, a + b) == DoAll(DoAll(s, a), b)
    decreases |a|
  {
    hide Do;
    if a == [] {
      assert a + b == b;
    } else {
      assert (a + b)[1..] == a[1..] + b;
      DoAllConcat(Do(s, a[0]), a[1..], b);
    }
  }

  /** What libcurl does with its sockets and transfers has nothing to do with handle_count_. */
  lemma {:induction false} PendingApart(s: State, acts: seq<Act>, n: int)
    ensures DoAll(s.(pending := n), acts) == DoAll(s, acts).(pending := n)
    decreases |acts|
  {
    if acts != [] {
      assert Do(s.(pending := n), acts[0]) == Do(s, acts[0]).(pending := n);
      PendingApart(Do(s, acts[0]), acts[1..], n);
    }
  }

  lemma {:induction false} SocketActionsInOrder(s: State, batches: seq<seq<Act>>)
    requires batches != []
    ensures var t := DoAll(s, Flatten(batches)); SocketActions(s, batches) == t.(pending := |t.added| - |t.msgs|)
    decreases |batches|
  {
    hide Do;
    var first, rest := batches[0], batches[1..];
    var q := SocketAction(s, first);
    DoAllConcat(s, first, Flatten(rest));
    if rest == [] {
      assert first + [] == first;
    } else {
      SocketActionsInOrder(q, rest);
      PendingApart(DoAll(s, first), Flatten(rest), q.pending);
    }
  }

  /**
   * process_events: libcurl gets to act for each ready descriptor in the order
   * epoll_wait gave, or, just when none is ready, for a timeout; either way
   * handle_count_ ends as the number of transfers still running. When
   * epoll_wait fails nothing happens.
   */
  lemma EventsAreProcessedInOrder(s: State, ready: Option<seq<seq<Act>>>, timeout: seq<Act>)
    ensures ready.None? ==> ProcessEvents(s, ready, timeout) == s
    ensures ready.Some? ==>
      var t := DoAll(s, if |ready.value| == 0 then timeout else Flatten(ready.value));
      ProcessEvents(s, ready, timeout) == t.(pending := |t.added| - |t.msgs|)
  {
    if ready.Some? && ready.value != [] {
      SocketActionsInOrder(s, ready.value);
    }
  }

  /** The acts of one process_events, in order. */
  function Acts(ready: Option<seq<seq<Act>>>, timeout: seq<Act>): seq<Act> {
    if ready == None then [] else if ready == Some([]) then timeout else Flatten(ready.value)
  }

  /**
   * submit: the handle joins the multi first, then libcurl is kicked, then it
   * acts on what epoll_wait gives; nothing is completed, and handle_count_ is
   * brought up to date.
   */
  lemma SubmitKicksFirst(s: State, i: nat)
    requires i < |s.infos|
    ensures var n := s.infos[i];
      var added := s.(infos := s.infos[i := n.(sent := true)], added := s.added + {n.eh});
      var t := DoAll(added, n.job.drive.kick + Acts(n.job.drive.ready, n.job.drive.timeout));
      Submit(s, i) == t.(pending := |t.added| - |t.msgs|)
  {
    hide Do, DoAll, ProcessEvents, SocketActions;
    var n := s.infos[i];
    var r, kick := n.job.drive.ready, n.job.drive.kick;
    var acts := Acts(r, n.job.drive.timeout);
    var a := s.(infos := s.infos[i := n.(sent := true)], added := s.added + {n.eh});
    var k := DoAll(a, kick);
    var q := SocketAction(a, kick);
    assert q == k.(pending := q.pending);
    EventsAreProcessedInOrder(q, r, n.job.drive.timeout);
    DoAllConcat(a, kick, acts);
    PendingApart(k, acts, q.pending);
    if r.None? {
      assert kick + [] == kick;
    }
  }

  /** poll leaves no DONE message behind, whatever the callbacks submit. */
  lemma PollDrains(s: State, ready: Option<seq<seq<Act>>>, timeout: seq<Act>)
    requires Reachable(View(s, None))
    ensures Step(s, Poll(ready, timeout)).msgs == []
  {
    hide Inv, MultiInfoRead, ProcessEvents, Reachable;
    ReachableInv(View(s, None));
    ProcessEventsKeeps(s, ready, timeout, None);
    MultiInfoReadKeeps(ProcessEvents(s, ready, timeout));
  }

  /** Every easy handle is in the pool or with one request, never both and never lost, inside callbacks too. */
  lemma HandlesAreConserved(v: View, eh: nat)
    requires Reachable(v) && eh < v.s.nextEasy
    ensures multiset(v.s.pool)[eh] + multiset(Handles(v.s.infos))[eh] == 1
  {
    ReachableInv(v);
    assert (multiset(v.s.pool) + multiset(Handles(v.s.infos)))[eh] == 1;
  }

  /** Every request's callback has run once, or is running or still to come, and pending_requests is exact. */
  lemma CallbacksRunOnce(v: View, k: nat)
    requires Reachable(v) && k < v.s.asked
    ensures multiset(v.s.called)[k] + multiset(Tickets(v.s.infos))[k] == 1
    ensures v.s.pending == |v.s.added| - |v.s.msgs|
  {
    ReachableInv(v);
    assert (multiset(v.s.called) + multiset(Tickets(v.s.infos)))[k] == 1;
  }

  /**
   * While the callback of a request runs, its handle has left the multi and is
   * not yet in the pool: whatever the callback has requested so far, the next
   * request it makes, which goes to the front of the list, gets another handle.
   */
  lemma CallbackNeverDrawsItsOwnHandle(v: View, job: Job)
    requires Reachable(v) && v.running.Some?
    ensures var eh := v.running.value;
      && |Request(v.s, job).infos| == |v.s.infos| + 1 && Request(v.s, job).infos[0].eh != eh
      && eh !in v.s.pool && eh !in v.s.added && eh in Handles(v.s.infos)
  {
    hide Places, Mirror, Messages;
    ReachableInv(v);
    DrawsAnother(v.s, job, v.running);
    DistinctHandles(v.s);
    var i :| 0 <= i < |v.s.infos| && v.s.infos[i].eh == v.running.value && v.s.infos[i].sent;
    assert Handles(v.s.infos)[i] == v.running.value;
  }

  /** ... and when it returns, the handle it gives back is the first to be drawn again: the pool is last in, first out. */
  lemma LastRecycledFirstDrawn(v: View, job: Job)
    requires Reachable(v) && v.running.Some?
    ensures var u := Advance(v, Return);
      && u.running == None && Request(u.s, job).infos == [Info(v.running.value, job, u.s.asked, false)] + u.s.infos
      && v.running.value !in Handles(u.s.infos)
  {
    hide Mirror, Messages;
    ReachableInv(v);
    var i := FoundAt(v.s, v.running.value) by { CallbackNeverDrawsItsOwnHandle(v, job); }
    RecycleKeeps(v.s, i);
    DistinctHandles(Recycle(v.s, i));
    var u := Recycle(v.s, i);
    assert u.pool[|u.pool| - 1] == v.running.value;
  }
}
