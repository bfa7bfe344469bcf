/** The promises of the socket machinery, for every run of libcurl, the event loop and the system. */
module SocketTheorems {
  import opened Common
  import opened SocketSpec
  import opened SocketProofs

  ghost predicate Reachable(s: State) {
    exists es: seq<Event> :: s == Run(Init(), es)
  }

  lemma {:induction false} RunSnoc(s: State, es: seq<Event>, e: Event)
    ensures Run(s, es + [e]) == Step(Run(s, es), e)
    decreases |es|
  {
    hide Step;
    if es == [] {
      assert [e][1..] == [];
    } else {
      assert (es + [e])[1..] == es[1..] + [e];
      RunSnoc(Step(s, es[0]), es[1..], e);
    }
  }

  lemma ReachableNext(s: State, e: Event)
    requires Reachable(s)
    ensures Reachable(Step(s, e))
  {
    var es: seq<Event> :| s == Run(Init(), es);
    RunSnoc(Init(), es, e);
  }

  lemma ReachableInv(s: State)
    requires Reachable(s)
    ensures Steady(s)
  {
    var es: seq<Event> :| s == Run(Init(), es);
    InitKeeps();
    RunKeeps(Init(), es);
  }

  /**
   * Between steps, each direction a socket in sockets_ is watched for is
   * armed, and a flag is set exactly while there is one wait for it: re-adding
   * a descriptor after CURL_POLL_REMOVE never arms it twice.
   */
  lemma WatchedIsArmed(s: State, fd: nat, d: Dir)
    requires Reachable(s) && s.alive && fd in s.sockets
    ensures s.sockets[fd] < |s.socks|
    ensures var g := s.sockets[fd];
      && s.socks[g].open
      && (Has(s.socks[g].watch, d) ==> Has(s.socks[g].armed, d))
      && Count(s.waits, g, d) == (if Has(s.socks[g].armed, d) then 1 else 0)
  {
    ReachableInv(s);
    assert InMap(s, s.sockets[fd]);
    assert ArmedOk(s, s.sockets[fd], d, {});
  }

  /** A wait on direction d of state g, running or ended and queued, that will be heard. */
  ghost predicate Awaits(s: State, g: nat, d: Dir) {
    exists i :: 0 <= i < |s.waits| && s.waits[i].gen == g && s.waits[i].dir == d && s.waits[i].end != Some(OperationAborted)
  }

  /**
   * What libcurl wants is what is watched: a descriptor with an assigned
   * pointer watches exactly the directions libcurl asked for last and waits
   * for each of them, and one that libcurl does not want watches nothing.
   */
  lemma WatchesWhatIsWanted(s: State, fd: nat)
    requires Reachable(s) && s.alive
    ensures fd in s.wanted <==> fd in s.polled
    ensures fd in s.polled && s.polled[fd].Some? ==>
      var g := s.polled[fd].value;
      && g < |s.socks| && s.socks[g].fd == fd && s.socks[g].open
      && s.socks[g].watch.read == s.wanted[fd].read && s.socks[g].watch.write == s.wanted[fd].write
      && (s.wanted[fd].read ==> Awaits(s, g, Read)) && (s.wanted[fd].write ==> Awaits(s, g, Write))
    ensures fd in s.sockets && fd !in s.polled ==>
      s.sockets[fd] < |s.socks| && s.socks[s.sockets[fd]].watch == Dirs(false, false)
  {
    hide Waits, OsOk, Sound, Owned, Accounted;
    ReachableInv(s);
    assert s.wanted.Keys == s.polled.Keys;
    assert fd in s.wanted.Keys <==> fd in s.polled.Keys;
    if fd in s.polled && s.polled[fd].Some? {
      assert InMap(s, s.polled[fd].value);
      if s.wanted[fd].read {
        var i := WatchingWait(s, fd, Read);
      }
      if s.wanted[fd].write {
        var i := WatchingWait(s, fd, Write);
      }
    }
  }

  /**
   * CURL_POLL_IN, OUT and INOUT: a descriptor of ours, or one that can be
   * borrowed, then watches just what is asked and waits for it, and no wait is
   * added for a direction not asked for. Where there is no dup to be had
   * nothing is watched and no pointer assigned.
   */
  lemma PollArms(s: State, fd: nat, what: Dirs, env: DupEnv)
    requires Reachable(s) && s.alive && Legal(s, Poll(fd, what, env))
    ensures var t := Step(s, CurlCall([Poll(fd, what, env)]));
      && fd in t.polled && t.wanted == s.wanted[fd := what]
      && s.waits <= t.waits && (forall w :: w in t.waits[|s.waits|..] ==> if w.dir.Read? then what.read else what.write)
      && (fd in t.sockets <==> fd in s.sockets || env.Borrowed?)
      && (if fd in t.sockets then
            var g := t.sockets[fd];
            && t.polled[fd] == Some(g) && g < |t.socks| && t.socks[g].watch.read == what.read && t.socks[g].watch.write == what.write
            && (what.read ==> Awaits(t, g, Read)) && (what.write ==> Awaits(t, g, Write))
          else t.polled[fd] == None && t.socks == s.socks && t.waits == s.waits)
  {
    hide Do, Heeded, Inv, Legal, Rewatched;
    var a := Poll(fd, what, env);
    ReachableInv(s);
    IsCore(s, {});
    OneAct(s, a);
    PollWants(s, fd, what, env);
    PollWaits(s, fd, what, env);
    var t := Do(s, a);
    ReachableNext(s, CurlCall([a]));
    if fd in s.sockets {
      PollKnown(s, fd, what, env);
      PollTells(s, Respond(s, a), fd, s.sockets[fd], what);
      WatchesWhatIsWanted(t, fd);
    } else {
      PollNew(s, fd, what, env);
      if env.Borrowed? {
        PollTells(s, Respond(s, a), fd, |s.socks|, what);
        WatchesWhatIsWanted(t, fd);
      }
    }
  }

  lemma PollTells(s: State, t: State, fd: nat, g: nat, w: Dirs)
    requires Rewatched(s, t, fd, g, w)
    ensures fd in t.sockets && t.sockets[fd] == g && t.polled == s.polled[fd := Some(g)]
    ensures t.alive == s.alive && g < |t.socks| && t.socks[g].watch == w
  {
  }

  lemma OneAct(s: State, a: Act)
    requires s.alive
    ensures Step(s, CurlCall([a])) == Do(s, a)
  {
    hide Do;
    assert DoAll(s, [a]) == DoAll(Do(s, a), []);
  }

  lemma PollWants(s: State, fd: nat, what: Dirs, env: DupEnv)
    requires Legal(s, Poll(fd, what, env))
    ensures var t := Do(s, Poll(fd, what, env)); t.wanted == s.wanted[fd := what] && t == Respond(s, Poll(fd, what, env)).(wanted := t.wanted)
  {
    hide Respond;
  }

  lemma PollWaits(s: State, fd: nat, what: Dirs, env: DupEnv)
    requires Legal(s, Poll(fd, what, env))
    ensures var t := Respond(s, Poll(fd, what, env));
      && s.waits <= t.waits && (forall w :: w in t.waits[|s.waits|..] ==> if w.dir.Read? then what.read else what.write)
      && (fd !in s.sockets && (fd in s.polled ==> s.polled[fd] == None) && !env.Borrowed? ==> t.waits == s.waits)
  {
    hide Arm, Open, Close;
    forall q: State, g: nat | g < |q.socks| {
      WatchAdds(q, g, what);
    }
  }

  lemma WatchAdds(s: State, g: nat, what: Dirs)
    requires g < |s.socks|
    ensures var t := Arm(SetWatch(s, g, what), g);
      s.waits <= t.waits && forall w :: w in t.waits[|s.waits|..] ==> if w.dir.Read? then what.read else what.write
  {
  }

  /**
   * open_socket_cb: just for an IP connection over IPv4 or IPv6 and when the
   * system has a descriptor to give, libcurl gets that descriptor, open and
   * with a fresh state of its own that watches nothing yet; in every other
   * case nothing is opened.
   */
  lemma OpensIpSockets(s: State, ip: bool, family: Family, got: Option<nat>)
    requires Reachable(s) && s.alive && Legal(s, OpenSocket(ip, family, got))
    ensures var t := Step(s, CurlCall([OpenSocket(ip, family, got)]));
      if ip && (family == Inet || family == Inet6) && got.Some? then
        var fd, n := got.value, |s.os.made|;
        && fd !in s.sockets && t.held == s.held + [Held(fd, n, false)] && IsOpen(t.os, fd, n)
        && t.sockets == s.sockets[fd := |s.socks|] && |t.socks| == |s.socks| + 1
        && t.socks[|s.socks|] == Sock(fd, false, fd, n, true, Dirs(false, false), Dirs(false, false))
      else t == s
  {
    hide Inv;
    ReachableInv(s);
    OneAct(s, OpenSocket(ip, family, got));
    if got.Some? {
      NewNumber(s, got.value, {});
    }
  }

  /**
   * Events reach libcurl: what is watched has a wait, and once that wait ends
   * libcurl is told, in two steps at the most, of the direction that was
   * waited for, or of an error if the wait failed.
   */
  lemma EventsReachCurl(s: State, fd: nat, d: Dir, failed: bool, acts: seq<Act>) returns (i: nat, es: seq<Event>)
    requires Reachable(s) && s.alive && fd in s.sockets && s.sockets[fd] < |s.socks| && Has(s.socks[s.sockets[fd]].watch, d)
    ensures |es| <= 2 && forall e :: e in es ==> e.Ready? || e.RunQueued?
    ensures i < |s.waits| && s.waits[i].gen == s.sockets[fd] && s.waits[i].dir == d
    ensures var t := Run(s, es);
      && |t.drives| == |s.drives| + 1 && s.drives < t.drives
      && t.drives[|s.drives|].fd == fd && t.drives[|s.drives|].armedOn == s.socks[s.sockets[fd]].serial
      && t.drives[|s.drives|].dir ==
           (if s.waits[i].end == Some(Failed) || (s.waits[i].end.None? && failed) then None else Some(d))
  {
    hide Inv, Run, DoAll, RunWait;
    ReachableInv(s);
    i := WatchingWait(s, fd, d);
    if s.waits[i].end.Some? {
      es := [RunQueued(i, acts)];
      HeardWait(s, i, acts);
      OneStep(s, es[0]);
    } else {
      es := [Ready(i, failed), RunQueued(i, acts)];
      var m := Step(s, es[0]);
      StepKeeps(s, es[0]);
      HeardWait(m, i, acts);
      TwoSteps(s, es[0], es[1]);
    }
  }

  /** The one wait for a watched direction. */
  lemma WatchingWait(s: State, fd: nat, d: Dir) returns (i: nat)
    requires Reachable(s) && s.alive && fd in s.sockets && s.sockets[fd] < |s.socks| && Has(s.socks[s.sockets[fd]].watch, d)
    ensures i < |s.waits| && s.waits[i].gen == s.sockets[fd] && s.waits[i].dir == d && InMap(s, s.sockets[fd])
    ensures s.waits[i].end != Some(OperationAborted) && s.waits[i].serial == s.socks[s.sockets[fd]].serial
    ensures s.socks[s.sockets[fd]].fd == fd
  {
    hide Run, Curl, OsOk;
    var g := s.sockets[fd];
    ReachableInv(s);
    WatchedIsArmed(s, fd, d);
    assert Spot(g, d) in multiset(Tags(s.waits));
    i :| 0 <= i < |s.waits| && Tags(s.waits)[i] == Spot(g, d);
    assert WaitOk(s, s.waits[i]);
  }

  lemma TwoSteps(s: State, e: Event, f: Event)
    ensures Run(s, [e, f]) == Step(Step(s, e), f)
  {
    hide Step;
    OneStep(Step(s, e), f);
    assert [e, f][1..] == [f];
  }

  lemma OneStep(s: State, e: Event)
    ensures Run(s, [e]) == Step(s, e)
  {
    assert Run(s, [e]) == Run(Step(s, e), []);
  }

  /** The end of a live state's wait is passed on to libcurl, with the state's own descriptor. */
  lemma HeardWait(s: State, i: nat, acts: seq<Act>)
    requires Steady(s) && i < |s.waits| && s.waits[i].end.Some? && s.waits[i].end != Some(OperationAborted)
    requires InMap(s, s.waits[i].gen)
    ensures s.waits[i].serial == s.socks[s.waits[i].gen].serial
    ensures var t := RunWait(s, i, acts);
      && |t.drives| == |s.drives| + 1 && s.drives < t.drives
      && t.drives[|s.drives|].fd == s.socks[s.waits[i].gen].fd && t.drives[|s.drives|].armedOn == s.waits[i].serial
      && t.drives[|s.drives|].dir == (if s.waits[i].end == Some(Failed) then None else Some(s.waits[i].dir))
  {
    hide Inv, DoAll, DriveOf;
    WaitIsOk(s, i);
    var w := s.waits[i];
    var k := s.socks[w.gen];
    var q := s.(waits := RemoveAt(s.waits, i), socks := s.socks[w.gen := k.(armed := With(k.armed, w.dir, false))]);
    FiredKeeps(s, q, i);
    FiredWaitOk(s, q, w);
    DriveIsFair(q, w, {Spot(w.gen, w.dir)});
    DriveKeeps(q, DriveOf(q, w), {Spot(w.gen, w.dir)});
    DoAllKeeps(q.(drives := q.drives + [DriveOf(q, w)]), acts, {Spot(w.gen, w.dir)});
    DriveNames(q, w);
  }

  lemma DriveNames(s: State, w: Wait)
    requires w.gen < |s.socks| && w.end.Some?
    ensures DriveOf(s, w).fd == s.socks[w.gen].fd && DriveOf(s, w).armedOn == w.serial
    ensures w.end != Some(OperationAborted) ==> DriveOf(s, w).dir == if w.end == Some(Failed) then None else Some(w.dir)
  {
  }

  /**
   * A wait left over from a descriptor that was closed is deaf, even when its
   * number is in use again: it changes nothing but the queue it leaves.
   */
  lemma StaleWaitIsDeaf(s: State, i: nat, acts: seq<Act>)
    requires Reachable(s) && i < |s.waits| && s.waits[i].end.Some?
    ensures s.waits[i].gen < |s.socks|
    ensures s.alive && (!s.socks[s.waits[i].gen].open || s.waits[i].end == Some(OperationAborted)) ==>
      Step(s, RunQueued(i, acts)) == s.(waits := RemoveAt(s.waits, i))
  {
    ReachableInv(s);
    assert WaitOk(s, s.waits[i]);
    if s.alive && InMap(s, s.waits[i].gen) {
      assert s.socks[s.waits[i].gen].open;
    }
  }

  /**
   * Each time libcurl was told of an event, the descriptor the wait had been
   * armed on was open under the number it was armed on, and the number given
   * to libcurl meant the very descriptor libcurl had under it: the same one
   * for a socket of ours, the original of the dup for a borrowed one. A number
   * in use again is never taken for its predecessor.
   */
  lemma EventsAreNotMixedUp(s: State, i: nat)
    requires Reachable(s) && i < |s.drives|
    ensures var v := s.drives[i];
      && v.waitedOn == Some(v.armedOn) && v.libcurls.Some? && v.named == v.libcurls
      && (v.own ==> v.named == Some(v.armedOn))
  {
    ReachableInv(s);
    assert Fair(s.drives[i]);
  }

  /** No pointer libcurl was assigned is followed after its state was destroyed. */
  lemma PointersNeverDangle(s: State)
    requires Reachable(s)
    ensures s.dangling == 0
    ensures forall fd :: fd in s.polled && s.polled[fd].Some? ==> InMap(s, s.polled[fd].value)
  {
    ReachableInv(s);
  }

  /**
   * Descriptor conservation: no close names a descriptor that is not open or
   * not meant, every descriptor ever made is open or was closed exactly once,
   * and while the client lives every open one is libcurl's to close or the
   * client's dup of one that libcurl wants watched.
   */
  lemma DescriptorsAreConserved(s: State, k: nat)
    requires Reachable(s) && k < |s.os.made|
    ensures s.os.faults == 0
    ensures s.os.made[k].closes == if IsOpen(s.os, s.os.made[k].fd, k) then 0 else 1
    ensures IsOpen(s.os, s.os.made[k].fd, k) ==>
      || Holds(s, s.os.made[k].fd)
      || exists g :: 0 <= g < |s.socks| && InMap(s, g) && s.socks[g].borrowed
                     && s.socks[g].handle == s.os.made[k].fd && s.socks[g].fd in s.polled
  {
    ReachableInv(s);
    var fd := s.os.made[k].fd;
    if IsOpen(s.os, fd, k) && !Holds(s, fd) {
      HoldsLists(s, fd);
      assert !ListsNative(s.held, fd);
      var g :| 0 <= g < |s.socks| && s.socks[g].open && s.socks[g].handle == fd;
      assert SockOk(s, g);
    }
  }

  /** CURL_POLL_REMOVE on a borrowed descriptor closes the client's dup of it, and libcurl's own stays open. */
  lemma RemoveClosesOnlyTheDup(s: State, fd: nat)
    requires Reachable(s) && s.alive && fd in s.sockets && s.sockets[fd] < |s.socks| && s.socks[s.sockets[fd]].borrowed
    ensures var k := s.socks[s.sockets[fd]];
      var t := Step(s, CurlCall([Unpoll(fd)]));
      && fd in s.os.fds && k.handle in s.os.fds && k.handle != fd
      && t.os.fds == s.os.fds - {k.handle} && t.os.faults == 0 && fd !in t.sockets && t.held == s.held
  {
    hide Inv, Do, SockOk, Table, Linked, Step;
    ReachableInv(s);
    var g := s.sockets[fd];
    BorrowedFacts(s, fd);
    CloseKeeps(s.os, s.socks[g].handle, s.socks[g].serial);
    UnpollUnfolds(s, fd);
  }

  lemma BorrowedFacts(s: State, fd: nat)
    requires Inv(s, {}) && s.alive && fd in s.sockets && s.sockets[fd] < |s.socks| && s.socks[s.sockets[fd]].borrowed
    ensures var g := s.sockets[fd];
      && InMap(s, g) && s.socks[g].open && s.socks[g].fd == fd && fd in s.polled && s.polled[fd] == Some(g)
      && OsOk(s.os) && IsOpen(s.os, s.socks[g].handle, s.socks[g].serial)
      && fd in s.os.fds && fd != s.socks[g].handle
  {
    var g := s.sockets[fd];
    assert InMap(s, g) && SockOk(s, g);
    var i :| 0 <= i < |s.held| && s.held[i].fd == fd;
    assert HeldOk(s, s.held[i]);
  }

  lemma UnpollUnfolds(s: State, fd: nat)
    requires s.alive && fd in s.polled && s.polled[fd].Some?
    requires var g := s.polled[fd].value; InMap(s, g) && s.socks[g].borrowed && s.socks[g].open && s.socks[g].fd == fd
    ensures var k := s.socks[s.polled[fd].value];
      var t := Step(s, CurlCall([Unpoll(fd)]));
      t.os == Close(s.os, k.handle, k.serial) && t.sockets == s.sockets - {fd} && t.held == s.held
  {
    hide Close;
    assert DoAll(s, [Unpoll(fd)]) == DoAll(Do(s, Unpoll(fd)), []);
  }

  /** Whatever libcurl does while the client is destroyed, and whoever closes first, every descriptor ends closed exactly once. */
  lemma DestructionClosesEverything(s: State, acts: seq<Act>, k: nat)
    requires Reachable(s) && s.alive
    ensures var d := Step(s, Destruct(acts));
      && d.os.fds == map[] && d.os.faults == 0 && d.sockets == map[] && d.dangling == 0
      && (k < |d.os.made| ==> d.os.made[k].closes == 1)
  {
    ReachableInv(s);
    DestroyKeeps(s, acts);
  }

  /** Whatever is still queued when the client is gone changes nothing but the queue. */
  lemma {:induction false} QueuedWaitsOutliveTheClient(d: State, es: seq<Event>)
    requires Steady(d) && !d.alive
    ensures Run(d, es) == d.(waits := Run(d, es).waits)
    decreases |es|
  {
    if es != [] {
      hide Inv;
      var t := Step(d, es[0]);
      StepKeeps(d, es[0]);
      assert t == d.(waits := t.waits);
      QueuedWaitsOutliveTheClient(t, es[1..]);
    }
  }

  lemma DestructionIsSafe(s: State, acts: seq<Act>, es: seq<Event>)
    requires Reachable(s) && s.alive
    ensures var d := Step(s, Destruct(acts)); Run(d, es) == d.(waits := Run(d, es).waits)
  {
    ReachableInv(s);
    DestroyKeeps(s, acts);
    QueuedWaitsOutliveTheClient(Step(s, Destruct(acts)), es);
  }
}
