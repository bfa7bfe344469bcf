/**
 * The epoll baseline: easy handles that alternate between a pool and the list
 * of requests, and a set of watched descriptors that mirrors the kernel's.
 * libcurl and the kernel are the environment.
 */
module BaselineSpec {
  import opened Common

  /** One request: what its callback requests in turn, and what libcurl does when each of those is submitted. */
  datatype Job = Job(follow: seq<Job>, drive: Drive)

  /** CURL_POLL_NONE, IN, OUT, INOUT. */
  type Interest = n: nat | n < 4

  datatype Act = Watch(fd: nat, what: Interest) | Unwatch(fd: nat) | Finish(eh: nat)

  /**
   * The socket actions of one submit: the kick, then what epoll_wait leads to:
   * one per ready descriptor, one for the timeout when none is ready, and none
   * when epoll_wait fails.
   */
  datatype Drive = Drive(kick: seq<Act>, ready: Option<seq<seq<Act>>>, timeout: seq<Act>)

  datatype Info = Info(eh: nat, job: Job, ticket: nat, sent: bool)

  datatype Op = Add(fd: nat, events: nat) | Mod(fd: nat, events: nat) | Del(fd: nat)

  /** An epoll instance: the interest list, and how many epoll_ctl calls failed. */
  datatype Epoll = Epoll(interest: map<nat, nat>, failures: nat)

  datatype State = State(
    epoll: Epoll, fdSet: set<nat>, pool: seq<nat>, infos: seq<Info>, pending: int,
    // libcurl: what it wants watched, its handles, its DONE messages
    wanted: map<nat, Interest>, nextEasy: nat, added: set<nat>, msgs: seq<nat>,
    // history
    asked: nat, called: seq<nat>)

  const EPOLLIN := 1
  const EPOLLOUT := 4

  const EventsOf: seq<nat> := [0, EPOLLIN, EPOLLOUT, EPOLLIN + EPOLLOUT]

  /** epoll_ctl fails on adding what is there and on changing or deleting what is not. */
  function Ctl(e: Epoll, op: Op): Epoll {
    match op
    case Add(fd, events) => if fd in e.interest then e.(failures := e.failures + 1) else e.(interest := e.interest[fd := events])
    case Mod(fd, events) => if fd in e.interest then e.(interest := e.interest[fd := events]) else e.(failures := e.failures + 1)
    case Del(fd) => if fd in e.interest then e.(interest := e.interest - {fd}) else e.(failures := e.failures + 1)
  }

  function Numbers(n: nat): (r: seq<nat>)
    ensures |r| == n && forall i :: 0 <= i < n ==> r[i] == i
  {
    seq(n, i => i)
  }

  /** The constructor, with poolSize handles made in advance. */
  function Init(poolSize: nat): State {
    State(Epoll(map[], 0), {}, Numbers(poolSize), [], 0, map[], poolSize, {}, [], 0, [])
  }

  /** socket_fn; None is CURL_POLL_REMOVE. */
  function SocketFn(s: State, fd: nat, what: Option<Interest>): State {
    match what
    case None => s.(epoll := Ctl(s.epoll, Del(fd)), fdSet := s.fdSet - {fd})
    case Some(w) =>
      if fd !in s.fdSet then s.(epoll := Ctl(s.epoll, Add(fd, EventsOf[w])), fdSet := s.fdSet + {fd})
      else s.(epoll := Ctl(s.epoll, Mod(fd, EventsOf[w])))
  }

  /** libcurl asks for removal only of what it watches, and finishes only what it works on, once. */
  function Do(s: State, a: Act): State {
    match a
    case Watch(fd, what) => SocketFn(s, fd, Some(what)).(wanted := s.wanted[fd := what])
    case Unwatch(fd) => if fd in s.wanted then SocketFn(s, fd, None).(wanted := s.wanted - {fd}) else s
    case Finish(eh) => if eh in s.added && eh !in s.msgs then s.(msgs := s.msgs + [eh]) else s
  }

  function DoAll(s: State, acts: seq<Act>): (t: State)
    ensures t.infos == s.infos && t.pool == s.pool && t.nextEasy == s.nextEasy && t.added == s.added
    ensures t.asked == s.asked && t.called == s.called
    decreases |acts|
  {
    if acts == [] then s else DoAll(Do(s, acts[0]), acts[1..])
  }

  /** curl_multi_socket_action leaves the number of transfers still running in handle_count_. */
  function SocketAction(s: State, acts: seq<Act>): State {
    var t := DoAll(s, acts);
    t.(pending := |t.added| - |t.msgs|)
  }

  function SocketActions(s: State, ready: seq<seq<Act>>): (t: State)
    ensures t.infos == s.infos && t.pool == s.pool && t.nextEasy == s.nextEasy && t.added == s.added
    ensures t.asked == s.asked && t.called == s.called
    decreases |ready|
  {
    if ready == [] then s else SocketActions(SocketAction(s, ready[0]), ready[1..])
  }

  function ProcessEvents(s: State, ready: Option<seq<seq<Act>>>, timeout: seq<Act>): State {
    match ready
    case None => s
    case Some(batches) => if batches == [] then SocketAction(s, timeout) else SocketActions(s, batches)
  }

  /** The handle the next request gets: the one pooled last, or a new one. */
  function NextHandle(s: State): nat {
    if s.pool == [] then s.nextEasy else s.pool[|s.pool| - 1]
  }

  function Request(s: State, job: Job): State {
    s.(pool := if s.pool == [] then [] else s.pool[..|s.pool| - 1],
       nextEasy := if s.pool == [] then s.nextEasy + 1 else s.nextEasy,
       infos := [Info(NextHandle(s), job, s.asked, false)] + s.infos,
       asked := s.asked + 1)
  }

  /** submit the request at position i of the list. */
  function Submit(s: State, i: nat): (t: State)
    requires i < |s.infos|
    ensures t.infos == s.infos[i := s.infos[i].(sent := true)] && t.pool == s.pool && t.nextEasy == s.nextEasy
    ensures t.added == s.added + {s.infos[i].eh} && t.asked == s.asked && t.called == s.called
  {
    var n := s.infos[i];
    var t := s.(infos := s.infos[i := n.(sent := true)], added := s.added + {n.eh});
    ProcessEvents(SocketAction(t, n.job.drive.kick), n.job.drive.ready, n.job.drive.timeout)
  }

  /** What a callback does: request and submit, one after the other. */
  function Callback(s: State, jobs: seq<Job>): (t: State)
    ensures |t.infos| == |s.infos| + |jobs|
    decreases |jobs|
  {
    if jobs == [] then s else Callback(Submit(Request(s, jobs[0]), 0), jobs[1..])
  }

  function IndexOf(infos: seq<Info>, eh: nat): (r: Option<nat>)
    ensures r.Some? ==> r.value < |infos| && infos[r.value].eh == eh
    ensures r.None? ==> forall i :: 0 <= i < |infos| ==> infos[i].eh != eh
  {
    if infos == [] then None
    else if infos[0].eh == eh then Some(0)
    else var r := IndexOf(infos[1..], eh); if r.Some? then Some(r.value + 1) else None
  }

  /** The message at the head of the queue is taken and its handle leaves the multi; its callback is about to run. */
  function Take(s: State): State
    requires s.msgs != []
  {
    s.(msgs := s.msgs[1..], added := s.added - {s.msgs[0]})
  }

  /** The callback of the request at position i is over: its handle goes back to the pool and its node out of the list. */
  function Recycle(s: State, i: nat): State
    requires i < |s.infos|
  {
    s.(pool := s.pool + [s.infos[i].eh], infos := RemoveAt(s.infos, i), called := s.called + [s.infos[i].ticket])
  }

  /** One turn of the completion loop; None when PRIVATE leads nowhere. */
  function Complete(s: State): Option<State>
    requires s.msgs != []
  {
    match IndexOf(s.infos, s.msgs[0])
    case None => None
    case Some(i) =>
      // new requests go to the front of the list, so the node has moved back by as many places
      var c := Callback(Take(s), s.infos[i].job.follow);
      Some(Recycle(c, i + |s.infos[i].job.follow|))
  }

  // ---- how much is left to request ----

  function Size(j: Job): nat
    decreases j
  {
    1 + Sizes(j.follow)
  }

  function Sizes(js: seq<Job>): nat
    decreases js
  {
    if js == [] then 0 else Size(js[0]) + Sizes(js[1..])
  }

  /** All requests that the ones listed will lead to, themselves included. */
  function Work(infos: seq<Info>): nat
    decreases |infos|
  {
    if infos == [] then 0 else Size(infos[0].job) + Work(infos[1..])
  }

  lemma {:induction false} WorkUpdated(infos: seq<Info>, i: nat, n: Info)
    requires i < |infos| && n.job == infos[i].job
    ensures Work(infos[i := n]) == Work(infos)
    decreases i
  {
    if i > 0 {
      assert infos[i := n][1..] == infos[1..][i - 1 := n];
      WorkUpdated(infos[1..], i - 1, n);
    } else {
      assert infos[0 := n][1..] == infos[1..];
    }
  }

  lemma {:induction false} WorkRemoved(infos: seq<Info>, i: nat)
    requires i < |infos|
    ensures Work(RemoveAt(infos, i)) == Work(infos) - Size(infos[i].job)
    decreases i
  {
    if i > 0 {
      assert RemoveAt(infos, i)[1..] == RemoveAt(infos[1..], i - 1);
      WorkRemoved(infos[1..], i - 1);
    } else {
      assert RemoveAt(infos, 0) == infos[1..];
    }
  }

  /** A callback adds its own requests at the front of the list and leaves the rest of the list alone. */
  lemma {:induction false} CallbackWork(s: State, jobs: seq<Job>)
    ensures Work(Callback(s, jobs).infos) == Work(s.infos) + Sizes(jobs)
    ensures forall i :: 0 <= i < |s.infos| ==> Callback(s, jobs).infos[i + |jobs|] == s.infos[i]
    decreases |jobs|
  {
    hide Submit, Size;
    if jobs != [] {
      var q := Request(s, jobs[0]);
      var t := Submit(q, 0);
      assert q.infos[1..] == s.infos;
      WorkUpdated(q.infos, 0, q.infos[0].(sent := true));
      CallbackWork(t, jobs[1..]);
      forall i | 0 <= i < |s.infos| ensures Callback(s, jobs).infos[i + |jobs|] == s.infos[i] {
        assert t.infos[i + 1] == s.infos[i];
        assert Callback(t, jobs[1..]).infos[(i + 1) + |jobs[1..]|] == t.infos[i + 1];
      }
    }
  }

  /** One job less: each completion uses one up, whatever libcurl completes meanwhile. */
  lemma CompleteWork(s: State)
    requires s.msgs != []
    ensures Complete(s).Some? ==> Work(Complete(s).value.infos) < Work(s.infos)
  {
    hide Submit, Request, Callback;
    var found := IndexOf(s.infos, s.msgs[0]);
    if found.Some? {
      var i, jobs := found.value, s.infos[found.value].job.follow;
      CallbackWork(Take(s), jobs);
      var c := Callback(Take(s), jobs);
      assert c.infos[i + |jobs|] == s.infos[i];
      WorkRemoved(c.infos, i + |jobs|);
    }
  }

  /** multi_info_read. Callbacks may complete further transfers, so the queue is no bound; the requests still to come are. */
  function MultiInfoRead(s: State): State
    decreases Work(s.infos)
  {
    if s.msgs == [] then s
    else
      CompleteWork(s);
      match Complete(s)
      case None => s
      case Some(t) => MultiInfoRead(t)
  }

  /** One step of a run. */
  datatype Event =
    | Prepare(job: Job)
    | Send(i: nat)  // get, post, put or del on a builder, which is used once
    | Poll(ready: Option<seq<seq<Act>>>, timeout: seq<Act>)

  function Step(s: State, e: Event): State {
    match e
    case Prepare(job) => Request(s, job)
    case Send(i) => if i < |s.infos| && !s.infos[i].sent then Submit(s, i) else s
    case Poll(ready, timeout) => MultiInfoRead(ProcessEvents(s, ready, timeout))
  }

  function Run(s: State, es: seq<Event>): State
    decreases |es|
  {
    if es == [] then s else Run(Step(s, es[0]), es[1..])
  }
}
