/** The epoll baseline's Http class, changed step by step; proved against BaselineSpec. */
module Baseline {
  import opened Common
  import opened BaselineSpec

  /** The kernel's epoll instance. */
  class EpollInstance {
    var state: Epoll

    constructor ()
      ensures state == Epoll(map[], 0)
    {
      state := Epoll(map[], 0);
    }

    method Ctl(op: Op)
      modifies this
      ensures state == BaselineSpec.Ctl(old(state), op)
    {
      state := BaselineSpec.Ctl(state, op);
    }
  }

  /** libcurl's multi interface. */
  class Multi {
    var wanted: map<nat, Interest>
    var nextEasy: nat
    var added: set<nat>
    var msgs: seq<nat>

    constructor ()
      ensures wanted == map[] && nextEasy == 0 && added == {} && msgs == []
    {
      wanted, nextEasy, added, msgs := map[], 0, {}, [];
    }

    method EasyInit() returns (eh: nat)
      modifies `nextEasy
      ensures eh == old(nextEasy) && nextEasy == eh + 1
    {
      eh := nextEasy;
      nextEasy := nextEasy + 1;
    }
  }

  class Http {
    const epoll: EpollInstance
    const multi: Multi
    var fdSet: set<nat>
    var ehPool: seq<nat>
    var requestInfos: seq<Info>
    var handleCount: int
    var asked: nat            // numbers the requests
    ghost var called: seq<nat>

    constructor (poolSize: nat)
      ensures Model() == Init(poolSize) && fresh(epoll) && fresh(multi)
    {
      epoll := new EpollInstance();
      multi := new Multi();
      fdSet, ehPool, requestInfos, handleCount, asked, called := {}, [], [], 0, 0, [];
      new;
      for i := 0 to poolSize
        invariant ehPool == Numbers(i) && multi.nextEasy == i && fresh(epoll) && fresh(multi)
        invariant Model() == Init(0).(pool := Numbers(i), nextEasy := i)
      {
        var eh := multi.EasyInit();
        ehPool := ehPool + [eh];
      }
    }

    ghost function Model(): State
      reads this, epoll, multi
    {
      State(epoll.state, fdSet, ehPool, requestInfos, handleCount,
            multi.wanted, multi.nextEasy, multi.added, multi.msgs, asked, called)
    }

    method Request(job: Job)
      modifies this, multi
      ensures Model() == BaselineSpec.Request(old(Model()), job)
    {
      var eh: nat;
      if ehPool == [] {
        eh := multi.EasyInit();
      } else {
        eh := ehPool[|ehPool| - 1];
        ehPool := ehPool[..|ehPool| - 1];
      }
      requestInfos := [Info(eh, job, asked, false)] + requestInfos;
      asked := asked + 1;
    }

    method SocketFn(fd: nat, what: Option<Interest>)
      modifies `fdSet, epoll
      ensures Model() == BaselineSpec.SocketFn(old(Model()), fd, what)
    {
      if what.None? {
        epoll.Ctl(Del(fd));
        fdSet := fdSet - {fd};
        return;
      }
      var events := EventsOf[what.value];
      if fd !in fdSet {
        epoll.Ctl(Add(fd, events));
        fdSet := fdSet + {fd};
      } else {
        epoll.Ctl(Mod(fd, events));
      }
    }

    /** libcurl acts on one descriptor or one transfer. */
    method Do(a: Act)
      modifies this, epoll, multi
      ensures Model() == BaselineSpec.Do(old(Model()), a)
    {
      match a {
        case Watch(fd, what) =>
          SocketFn(fd, Some(what));
          multi.wanted := multi.wanted[fd := what];
        case Unwatch(fd) =>
          if fd in multi.wanted {
            SocketFn(fd, None);
            multi.wanted := multi.wanted - {fd};
          }
        case Finish(eh) =>
          if eh in multi.added && eh !in multi.msgs {
            multi.msgs := multi.msgs + [eh];
          }
      }
    }

    /** curl_multi_socket_action. */
    method SocketAction(acts: seq<Act>)
      modifies this, epoll, multi
      ensures Model() == BaselineSpec.SocketAction(old(Model()), acts)
    {
      hide BaselineSpec.Do;
      for i := 0 to |acts|
        invariant DoAll(Model(), acts[i..]) == DoAll(old(Model()), acts)
      {
        assert acts[i..][0] == acts[i] && acts[i..][1..] == acts[i + 1..];
        Do(acts[i]);
      }
      handleCount := |multi.added| - |multi.msgs|;
    }

    /** None: epoll_wait returned -1, and the loop over ready descriptors has nothing to do. */
    method ProcessEvents(ready: Option<seq<seq<Act>>>, timeout: seq<Act>)
      modifies this, epoll, multi
      ensures Model() == BaselineSpec.ProcessEvents(old(Model()), ready, timeout)
    {
      hide BaselineSpec.SocketAction;
      if ready == Some([]) {
        SocketAction(timeout);
      } else {
        var batches := if ready.Some? then ready.value else [];
        for i := 0 to |batches|
          invariant SocketActions(Model(), batches[i..]) == SocketActions(old(Model()), batches)
        {
          assert batches[i..][0] == batches[i] && batches[i..][1..] == batches[i + 1..];
          SocketAction(batches[i]);
        }
      }
    }

    method Submit(i: nat)
      requires i < |requestInfos|
      modifies this, epoll, multi
      ensures Model() == BaselineSpec.Submit(old(Model()), i)
    {
      hide BaselineSpec.SocketAction, BaselineSpec.ProcessEvents;
      var n := requestInfos[i];
      requestInfos := requestInfos[i := n.(sent := true)];
      multi.added := multi.added + {n.eh};
      SocketAction(n.job.drive.kick);
      ProcessEvents(n.job.drive.ready, n.job.drive.timeout);
    }

    method Callback(jobs: seq<Job>)
      modifies this, epoll, multi
      ensures Model() == BaselineSpec.Callback(old(Model()), jobs)
    {
      hide BaselineSpec.Submit, BaselineSpec.Request;
      for i := 0 to |jobs|
        invariant BaselineSpec.Callback(Model(), jobs[i..]) == BaselineSpec.Callback(old(Model()), jobs)
      {
        assert jobs[i..][0] == jobs[i] && jobs[i..][1..] == jobs[i + 1..];
        NewestFirst(Model(), jobs[i]);
        Request(jobs[i]);
        Submit(0);
      }
    }

    lemma NewestFirst(s: State, job: Job)
      ensures |BaselineSpec.Request(s, job).infos| > 0
    {
    }

    /** The node PRIVATE leads to, if any. */
    method Find(eh: nat) returns (r: Option<nat>)
      ensures r == IndexOf(requestInfos, eh)
    {
      var i := 0;
      while i < |requestInfos|
        invariant i <= |requestInfos|
        invariant IndexOf(requestInfos, eh) == match IndexOf(requestInfos[i..], eh) case None => None case Some(k) => Some(i + k)
      {
        if requestInfos[i].eh == eh {
          return Some(i);
        }
        assert requestInfos[i..][1..] == requestInfos[i + 1..];
        i := i + 1;
      }
      return None;
    }

    /** Deliver what is complete, including what completes while callbacks submit more. */
    method MultiInfoRead()
      modifies this, epoll, multi
      ensures Model() == BaselineSpec.MultiInfoRead(old(Model()))
    {
      hide BaselineSpec.Callback;
      while multi.msgs != []
        invariant BaselineSpec.MultiInfoRead(Model()) == BaselineSpec.MultiInfoRead(old(Model()))
        decreases Work(requestInfos)
      {
        CompleteWork(Model());
        var eh := multi.msgs[0];
        var found := Find(eh);
        if found.None? {
          return;
        }
        var info := requestInfos[found.value];
        multi.msgs, multi.added := multi.msgs[1..], multi.added - {eh};
        Callback(info.job.follow);
        var at := found.value + |info.job.follow|;
        ehPool := ehPool + [requestInfos[at].eh];
        called := called + [requestInfos[at].ticket];
        requestInfos := RemoveAt(requestInfos, at);
      }
    }

    method Poll(ready: Option<seq<seq<Act>>>, timeout: seq<Act>)
      modifies this, epoll, multi
      ensures Model() == Step(old(Model()), BaselineSpec.Poll(ready, timeout))
    {
      hide BaselineSpec.ProcessEvents, BaselineSpec.MultiInfoRead;
      ProcessEvents(ready, timeout);
      MultiInfoRead();
    }
  }
}
