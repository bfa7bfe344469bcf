/**
 * The socket callbacks of Client on objects: SocketState records that are
 * shared through sockets_, updated in place and closed under a wait's feet.
 * Every method is proved against the functions of SocketSpec.
 */
module Sockets {
  import opened Common
  import opened SocketSpec
  import opened SocketProofs

  /** The operating system's descriptors. */
  class System {
    var table: Os

    constructor ()
      ensures table == Os(map[], [], 0)
    {
      table := Os(map[], [], 0);
    }

    /** A new descriptor gets a number not in use. */
    method OpenAt(fd: nat) returns (serial: nat)
      requires fd !in table.fds
      modifies this
      ensures table == Open(old(table), fd) && serial == |old(table).made|
    {
      serial := |table.made|;
      table := Open(table, fd);
    }

    method CloseNative(fd: nat, ghost serial: nat)
      requires IsOpen(table, fd, serial) && serial < |table.made|
      modifies this
      ensures table == Close(old(table), fd, serial)
    {
      table := Close(table, fd, table.fds[fd]);
    }
  }

  /** The waits given to the reactor and the closures of those that ended. */
  class Reactor {
    var waits: seq<Wait>

    constructor ()
      ensures waits == []
    {
      waits := [];
    }

    method AsyncWait(w: Wait)
      modifies this
      ensures waits == old(waits) + [w]
    {
      waits := waits + [w];
    }

    /** Closing a socket ends the waits still running on it. */
    method Abort(gen: nat)
      modifies this
      ensures waits == AbortWaits(old(waits), gen)
    {
      for i := 0 to |waits|
        invariant |waits| == |old(waits)|
        invariant forall j :: 0 <= j < i ==> waits[j] == AbortWaits(old(waits), gen)[j]
        invariant forall j :: i <= j < |waits| ==> waits[j] == old(waits)[j]
      {
        if waits[i].gen == gen && waits[i].end.None? {
          waits := waits[i := waits[i].(end := Some(OperationAborted))];
        }
      }
    }
  }

  class SocketState {
    const gen: nat  // tells states apart, as an address does
    const fd: nat
    const borrowed: bool
    const handle: nat  // socket.native_handle()
    const serial: nat  // tells descriptors of one number apart
    var open: bool
    var watch: Dirs
    var readArmed: bool
    var writeArmed: bool

    constructor (gen: nat, fd: nat, borrowed: bool, handle: nat, serial: nat)
      ensures this.gen == gen && View() == Sock(fd, borrowed, handle, serial, true, NoDirs, NoDirs)
    {
      this.gen, this.fd, this.borrowed, this.handle, this.serial := gen, fd, borrowed, handle, serial;
      open, watch, readArmed, writeArmed := true, NoDirs, false, false;
    }

    ghost function View(): Sock
      reads this
    {
      Sock(fd, borrowed, handle, serial, open, watch, Dirs(readArmed, writeArmed))
    }
  }

  class Client {
    const system: System
    const reactor: Reactor
    var states: seq<SocketState>       // every state ever made: what weak pointers may lead to
    var sockets: map<nat, SocketState>
    var alive: bool
    // libcurl's side
    var held: seq<Held>
    var polled: map<nat, SocketState?>
    ghost var state: State
    ghost var repr: set<object>

    constructor (sys: System, r: Reactor)
      requires sys.table == Os(map[], [], 0) && r.waits == []
      ensures Valid() && state == Init() && repr == {this, sys, r}
    {
      system, reactor, states, sockets, alive, held, polled := sys, r, [], map[], true, [], map[];
      state, repr := Init(), {this, sys, r};
    }

    ghost predicate Valid()
      reads this, repr
    {
      && {this, system, reactor} <= repr && (forall st :: st in states ==> st in repr)
      && |states| == |state.socks|
      && (forall g :: 0 <= g < |states| ==> states[g].gen == g && states[g].View() == state.socks[g])
      && sockets.Keys == state.sockets.Keys
      && (forall fd :: fd in sockets ==> Is(sockets[fd], state.sockets[fd]))
      && polled.Keys == state.polled.Keys
      && (forall fd :: fd in polled ==> if polled[fd] == null then state.polled[fd] == None
                                        else state.polled[fd].Some? && Is(polled[fd], state.polled[fd].value))
      && state.alive == alive && state.held == held && state.os == system.table && state.waits == reactor.waits
    }

    ghost predicate Is(st: SocketState, g: nat)
      reads `states
    {
      g < |states| && states[g] == st
    }

    /** socket.close: waits end, and closing twice does nothing. */
    method CloseSocket(st: SocketState)
      requires Valid() && Is(st, st.gen) && (st.open ==> IsOpen(state.os, st.handle, st.serial) && st.serial < |state.os.made|)
      modifies st, system, reactor, `state
      ensures Valid() && state == SocketSpec.CloseSocket(old(state), st.gen)
    {
      ghost var s := state;
      if st.open {
        st.open := false;
        system.CloseNative(st.handle, st.serial);
        reactor.Abort(st.gen);
        state := SocketSpec.CloseSocket(s, st.gen);
      }
    }

    method CloseNative(fd: nat, ghost serial: nat)
      requires Valid() && IsOpen(state.os, fd, serial) && serial < |state.os.made|
      modifies system, `state
      ensures Valid() && state == old(state).(os := Close(old(state).os, fd, serial))
    {
      system.CloseNative(fd, serial);
      state := state.(os := system.table);
    }

    method SetWatch(st: SocketState, what: Dirs)
      requires Valid() && Is(st, st.gen)
      modifies st`watch, `state
      ensures Valid() && state == SocketSpec.SetWatch(old(state), st.gen, what)
    {
      st.watch := what;
      state := SocketSpec.SetWatch(state, st.gen, what);
    }

    method Arm(st: SocketState)
      requires Valid() && Is(st, st.gen)
      modifies st, reactor, `state
      ensures Valid() && state == SocketSpec.Arm(old(state), st.gen)
    {
      if !st.open {
        return;
      }
      ArmRead(st);
      ArmWrite(st);
    }

    method ArmRead(st: SocketState)
      requires Valid() && Is(st, st.gen)
      modifies st, reactor, `state
      ensures Valid() && state == ArmDir(old(state), st.gen, Read)
    {
      ghost var s := state;
      if st.watch.read && !st.readArmed {
        st.readArmed := true;
        reactor.AsyncWait(Wait(st.gen, Read, st.serial, None));
      }
      state := ArmDir(s, st.gen, Read);
    }

    method ArmWrite(st: SocketState)
      requires Valid() && Is(st, st.gen)
      modifies st, reactor, `state
      ensures Valid() && state == ArmDir(old(state), st.gen, Write)
    {
      ghost var s := state;
      if st.watch.write && !st.writeArmed {
        st.writeArmed := true;
        reactor.AsyncWait(Wait(st.gen, Write, st.serial, None));
      }
      state := ArmDir(s, st.gen, Write);
    }

    /** A new state for a descriptor just made goes into sockets_. */
    method AddState(fd: nat, borrowed: bool, handle: nat) returns (st: SocketState)
      requires Valid() && handle !in system.table.fds
      modifies `states, `sockets, `repr, `state, system
      ensures Valid() && fresh(st) && repr == old(repr) + {st} && states == old(states) + [st]
      ensures Is(st, st.gen) && st.gen == |old(state).socks|
      ensures var s := old(state);
        state == s.(os := Open(s.os, handle),
                    socks := s.socks + [Sock(fd, borrowed, handle, |s.os.made|, true, NoDirs, NoDirs)],
                    sockets := s.sockets[fd := |s.socks|])
    {
      ghost var s := state;
      var serial := system.OpenAt(handle);
      st := new SocketState(|states|, fd, borrowed, handle, serial);
      states, sockets, repr := states + [st], sockets[fd := st], repr + {st};
      state := s.(os := Open(s.os, handle),
                  socks := s.socks + [Sock(fd, borrowed, handle, |s.os.made|, true, NoDirs, NoDirs)],
                  sockets := s.sockets[fd := |s.socks|]);
    }

    method Erase(fd: nat)
      requires Valid()
      modifies `sockets, `state
      ensures Valid() && state == old(state).(sockets := old(state).sockets - {fd})
    {
      sockets := sockets - {fd};
      state := state.(sockets := state.sockets - {fd});
    }

    /** None stands for CURL_SOCKET_BAD. */
    method OpenSocketCb(ipConnection: bool, family: Family, got: Option<nat>) returns (fd: Option<nat>)
      requires Valid() && (got.Some? ==> got.value !in system.table.fds)
      modifies `states, `sockets, `repr, `state, system
      ensures Valid() && state == SocketSpec.OpenSocketCb(old(state), ipConnection, family, got)
      ensures fresh(repr - old(repr)) && old(states) <= states
      ensures fd == if ipConnection && !family.OtherFamily? then got else None
    {
      if !ipConnection {
        return None;
      }
      if family.OtherFamily? {
        return None;
      }
      if got.None? {
        return None;
      }
      var st := AddState(got.value, false, got.value);
      return got;
    }

    lemma Good(fd: nat, but: set<Spot>)
      requires Valid() && Inv(state, but)
      ensures fd in sockets ==> InMap(state, sockets[fd].gen) && Is(sockets[fd], sockets[fd].gen) && sockets[fd].fd == fd
      ensures fd in sockets ==> sockets[fd].gen == state.sockets[fd]
      ensures fd in polled && polled[fd] != null ==>
        fd in sockets && polled[fd] == sockets[fd] && state.polled[fd] == Some(sockets[fd].gen)
      ensures fd in sockets && sockets[fd].open ==>
        IsOpen(state.os, sockets[fd].handle, sockets[fd].serial) && sockets[fd].serial < |state.os.made|
      ensures forall i :: 0 <= i < |held| && (held[i].native || fd !in sockets) && held[i].fd == fd ==>
        IsOpen(state.os, fd, held[i].serial) && held[i].serial < |state.os.made|
    {
      forall g | 0 <= g < |states| && states[g].open
        ensures IsOpen(system.table, states[g].handle, states[g].serial) && states[g].serial < |system.table.made| {
        assert SockOk(state, g);
      }
      forall i | 0 <= i < |held| ensures HeldOk(state, held[i]) {
      }
    }

    /** close_socket_cb: a descriptor opened past open_socket_cb is still the client's to close, and so is a borrowed one. */
    method CloseSocketCb(fd: nat, ghost i: nat, ghost but: set<Spot>)
      requires Valid() && Inv(state, but) && HeldAt(held, fd) == Some(i)
      modifies this, repr
      ensures Valid() && state == SocketSpec.CloseSocketCb(old(state), fd, old(held)[i].serial)
      ensures repr == old(repr) && states == old(states)
      ensures held == old(held) && polled == old(polled)
    {
      hide Inv, Valid, Close;
      Good(fd, but);
      Bound(fd);
      ghost var s := state;
      if fd !in sockets {
        CloseNative(fd, held[i].serial);
        return;
      }
      var st := sockets[fd];
      SetWatch(st, NoDirs);
      CloseSocket(st);
      if st.borrowed {
        CloseBorrowedNative(s, fd, i, but);
        CloseNative(fd, held[i].serial);
      }
      Erase(fd);
    }

    lemma Bound(fd: nat)
      requires Valid()
      ensures {this, system, reactor} <= repr && held == state.held && (fd in sockets <==> fd in state.sockets)
      ensures fd in sockets ==> sockets[fd] in repr && state.sockets[fd] < |state.socks| &&
                                sockets[fd].View() == state.socks[state.sockets[fd]]
      ensures fd in polled <==> fd in state.polled
      ensures fd in polled && polled[fd] == null ==> state.polled[fd] == None
      ensures system.table == state.os
    {
    }

    /** Once the dup is closed, libcurl's own descriptor is still open. */
    lemma CloseBorrowedNative(s: State, fd: nat, i: nat, but: set<Spot>)
      requires Inv(s, but) && HeldAt(s.held, fd) == Some(i) && fd in s.sockets && InMap(s, s.sockets[fd])
      requires s.socks[s.sockets[fd]].borrowed
      ensures var o := Shut(s, s.sockets[fd]).os; IsOpen(o, fd, s.held[i].serial) && s.held[i].serial < |o.made|
    {
      ShutKeeps(s, s.sockets[fd], but);
      assert HeldOk(Shut(s, s.sockets[fd]), s.held[i]);
    }

    method Borrow(fd: nat, env: DupEnv) returns (st: SocketState?)
      requires Valid() && Possible(system.table, env)
      modifies `states, `sockets, `repr, `state, system
      ensures Valid() && state == SocketSpec.Borrow(old(state), fd, env).0
      ensures fresh(repr - old(repr)) && old(states) <= states
      ensures if st == null then SocketSpec.Borrow(old(state), fd, env).1 == None
              else SocketSpec.Borrow(old(state), fd, env).1 == Some(st.gen) && Is(st, st.gen) && fresh(st)
    {
      match env {
        case DupFails =>
          st := null;
        case AssignFails(dup) =>
          ghost var serial := system.OpenAt(dup);
          state := state.(os := system.table);
          CloseNative(dup, serial);
          st := null;
        case Borrowed(dup) =>
          st := AddState(fd, true, dup);
      }
    }

    /** curl_multi_assign, and libcurl's own bookkeeping of what it wants watched. */
    method Assign(fd: nat, st: SocketState?)
      requires Valid() && (st != null ==> Is(st, st.gen))
      modifies `polled, `state
      ensures Valid()
      ensures state == old(state).(polled := old(state).polled[fd := if st == null then None else Some(st.gen)])
    {
      polled := polled[fd := st];
      state := state.(polled := state.polled[fd := if st == null then None else Some(st.gen)]);
    }

    method Unassign(fd: nat)
      requires Valid()
      modifies `polled, `state
      ensures Valid() && state == old(state).(polled := old(state).polled - {fd})
    {
      polled := polled - {fd};
      state := state.(polled := state.polled - {fd});
    }

    method Attend(st: SocketState, what: Option<Dirs>, ghost but: set<Spot>)
      requires Valid() && Inv(state, but) && st.fd in sockets && sockets[st.fd] == st
      modifies this, repr
      ensures Valid() && state == SocketSpec.Attend(old(state), st.fd, what, st.gen)
      ensures repr == old(repr) && states == old(states)
    {
      hide Inv, Valid, Close, Open;
      Good(st.fd, but);
      Bound(st.fd);
      if what.None? {
        SetWatch(st, NoDirs);
        if st.borrowed {
          CloseSocket(st);
          Erase(st.fd);
        }
        return;
      }
      SetWatch(st, what.value);
      Arm(st);
    }

    /** socket_cb; None is CURL_POLL_REMOVE. */
    method SocketCb(fd: nat, what: Option<Dirs>, env: DupEnv, ghost but: set<Spot>)
      requires Valid() && Inv(state, but) && fd in polled && Holds(state, fd) && Possible(system.table, env)
      modifies this, repr
      ensures Valid() && fd in old(state).polled && fresh(repr - old(repr)) && old(states) <= states
      ensures state == SocketSpec.SocketCb(old(state), fd, what, old(state).polled[fd], env)
    {
      hide Inv, Valid, SocketSpec.Borrow, SocketSpec.Attend;
      Good(fd, but);
      Bound(fd);
      ghost var s := state;
      var st := polled[fd];
      if st == null {
        if what.None? {
          return;  // never watched
        }
        st := FindOrBorrow(fd, env, but);
        if st == null {
          return;
        }
      }
      Attend(st, what, but);
    }

    /** The state for a descriptor libcurl has attached none to: its own, or a borrowed one, if that can be had. */
    method FindOrBorrow(fd: nat, env: DupEnv, ghost but: set<Spot>) returns (st: SocketState?)
      requires Valid() && Inv(state, but) && fd in polled && polled[fd] == null && Holds(state, fd) && Possible(system.table, env)
      modifies this, system
      ensures Valid() && Inv(state, but) && fresh(repr - old(repr)) && old(states) <= states
      ensures var s := old(state);
        var (q, g) := if fd in s.sockets then (s, Some(s.sockets[fd])) else SocketSpec.Borrow(s, fd, env);
        if st == null then g == None && state == q
        else g == Some(st.gen) && state == q.(polled := q.polled[fd := g]) && st.fd == fd && fd in sockets && sockets[fd] == st
    {
      hide Inv, Valid;
      Good(fd, but);
      Bound(fd);
      HoldsLists(state, fd);
      ghost var s := state;
      if fd in sockets {
        st := sockets[fd];
        AttachKeeps(s, fd, but);
        Assign(fd, st);
      } else {
        st := Borrow(fd, env);
        match env {
          case DupFails =>
          case AssignFails(dup) => AssignFailsKeeps(s, dup, but);
          case Borrowed(dup) =>
            Assign(fd, st);
            BorrowKeeps(s, state, fd, dup, but);
            Bound(fd);
            Good(fd, but);
            SameState(st, fd);
        }
      }
    }

    lemma SameState(st: SocketState, fd: nat)
      requires Valid() && Is(st, st.gen) && fd in state.sockets && state.sockets[fd] == st.gen
      ensures fd in sockets && sockets[fd] == st
    {
    }

    method SetHeld(hs: seq<Held>)
      requires Valid()
      modifies `held, `state
      ensures Valid() && state == old(state).(held := hs)
    {
      held := hs;
      state := state.(held := hs);
    }

    // ---- libcurl ----

    method CurlOpens(ipConnection: bool, family: Family, got: Option<nat>)
      requires Valid() && alive && (got.Some? ==> got.value !in system.table.fds)
      modifies this, repr
      ensures Valid() && state == SocketSpec.Respond(old(state), OpenSocket(ipConnection, family, got))
      ensures fresh(repr - old(repr)) && old(states) <= states
    {
      var serial := |system.table.made|;
      var fd := OpenSocketCb(ipConnection, family, got);
      if fd.Some? {
        SetHeld(held + [Held(fd.value, serial, false)]);
      }
    }

    method CurlOpensNative(fd: nat)
      requires Valid() && alive && fd !in system.table.fds
      modifies this, repr
      ensures Valid() && state == SocketSpec.Respond(old(state), OpenNative(fd))
      ensures repr == old(repr) && states == old(states)
    {
      ghost var s := state;
      var serial := system.OpenAt(fd);
      state := s.(os := system.table);
      SetHeld(held + [Held(fd, serial, true)]);
    }

    method CurlPolls(fd: nat, what: Dirs, env: DupEnv, ghost but: set<Spot>)
      requires Valid() && Inv(state, but) && Holds(state, fd) && Possible(system.table, env)
      modifies this, repr
      ensures Valid() && state == SocketSpec.Respond(old(state), Poll(fd, what, env))
      ensures fresh(repr - old(repr)) && old(states) <= states
    {
      hide Inv, Valid, SocketSpec.SocketCb;
      Bound(fd);
      HoldsLists(state, fd);
      ghost var s := state;
      if fd !in polled {
        Assign(fd, null);
        PolledKeeps(s, fd, but);
      } else {
        assert s == s.(polled := s.polled[fd := s.polled[fd]]);
      }
      Bound(fd);
      SocketCb(fd, Some(what), env, but);
    }

    method CurlUnpolls(fd: nat, ghost but: set<Spot>)
      requires Valid() && Inv(state, but) && fd in polled
      modifies this, repr
      ensures Valid() && state == SocketSpec.Respond(old(state), Unpoll(fd))
      ensures fresh(repr - old(repr)) && old(states) <= states
    {
      hide Inv, Valid, SocketSpec.SocketCb;
      Bound(fd);
      PolledIsHeld(state, fd, but);
      SocketCb(fd, None, DupFails, but);
      Unassign(fd);
    }

    lemma PolledIsHeld(s: State, fd: nat, but: set<Spot>)
      requires Inv(s, but) && fd in s.polled
      ensures Holds(s, fd)
    {
      HoldsLists(s, fd);
    }

    lemma PointersStay(s: State, fd: nat, serial: nat)
      ensures SocketSpec.CloseSocketCb(s, fd, serial).polled == s.polled
    {
    }

    method CurlCloses(fd: nat, ghost but: set<Spot>)
      requires Valid() && Inv(state, but) && Holds(state, fd)
      modifies this, repr
      ensures Valid() && state == SocketSpec.Respond(old(state), CloseHeld(fd)) && repr == old(repr) && states == old(states)
    {
      hide Inv, Valid, SocketSpec.CloseSocketCb;
      Bound(fd);
      var i := HeldAt(held, fd).value;
      PointersStay(state, fd, held[i].serial);
      CloseSocketCb(fd, i, but);
      SetHeld(RemoveAt(held, i));
      Unassign(fd);
    }

    method CurlClosesItself(fd: nat, ghost but: set<Spot>)
      requires Valid() && Inv(state, but) && Legal(state, CloseOwn(fd))
      modifies this, repr
      ensures Valid() && state == SocketSpec.Respond(old(state), CloseOwn(fd)) && repr == old(repr) && states == old(states)
    {
      hide Inv, Valid, Close;
      Bound(fd);
      Good(fd, but);
      var i := HeldAt(held, fd).value;
      CloseNative(fd, held[i].serial);
      SetHeld(RemoveAt(held, i));
      Unassign(fd);
    }

    method Do(a: Act, ghost but: set<Spot>)
      requires Valid() && Inv(state, but)
      modifies this, repr
      ensures Valid() && Inv(state, but) && state == SocketSpec.Do(old(state), a)
      ensures fresh(repr - old(repr)) && old(states) <= states
    {
      hide Inv, Valid, SocketSpec.Respond, NowWanted, LegalNow;
      ghost var s := state;
      DoKeeps(s, a, but);
      Actual();
      if !LegalNow(a) {
        PassedOver(s, a);
        return;
      }
      match a {
        case OpenSocket(ip, family, got) => CurlOpens(ip, family, got);
        case OpenNative(fd) => CurlOpensNative(fd);
        case Poll(fd, what, env) => CurlPolls(fd, what, env, but);
        case Unpoll(fd) => CurlUnpolls(fd, but);
        case CloseHeld(fd) => CurlCloses(fd, but);
        case CloseOwn(fd) => CurlClosesItself(fd, but);
      }
      NoteWanted(NowWanted(s, a));
    }

    /** What libcurl asked for last, which is for it to know and for nobody to read. */
    ghost method NoteWanted(wanted: map<nat, Dirs>)
      requires Valid()
      modifies `state
      ensures Valid() && state == old(state).(wanted := wanted)
    {
      state := state.(wanted := wanted);
    }

    lemma PassedOver(s: State, a: Act)
      requires !Legal(s, a)
      ensures SocketSpec.Do(s, a) == s
    {
    }

    /** Legal, read off the fields. */
    predicate LegalNow(a: Act)
      reads this, system
    {
      match a
      case OpenSocket(_, _, got) => alive && (got.Some? ==> got.value !in system.table.fds)
      case OpenNative(fd) => alive && fd !in system.table.fds
      case Poll(fd, _, env) => HeldAt(held, fd).Some? && Possible(system.table, env)
      case Unpoll(fd) => fd in polled
      case CloseHeld(fd) => HeldAt(held, fd).Some?
      case CloseOwn(fd) => HeldAt(held, fd).Some? && held[HeldAt(held, fd).value].native && fd !in polled
    }

    lemma Actual()
      requires Valid()
      ensures system.table == state.os && held == state.held && alive == state.alive && polled.Keys == state.polled.Keys
      ensures |states| == |state.socks| && reactor.waits == state.waits && {this, system, reactor} <= repr
      ensures forall a :: LegalNow(a) <==> Legal(state, a)
    {
    }

    method DoAll(acts: seq<Act>, ghost but: set<Spot>)
      requires Valid() && Inv(state, but)
      modifies this, repr
      ensures Valid() && Inv(state, but) && state == SocketSpec.DoAll(old(state), acts)
      ensures fresh(repr - old(repr)) && old(states) <= states
    {
      hide Inv, Valid, SocketSpec.Do;
      for i := 0 to |acts|
        invariant Valid() && Inv(state, but) && fresh(repr - old(repr)) && old(states) <= states
        invariant SocketSpec.DoAll(state, acts[i..]) == SocketSpec.DoAll(old(state), acts)
      {
        assert acts[i..][0] == acts[i] && acts[i..][1..] == acts[i + 1..];
        Do(acts[i], but);
      }
    }

    // ---- the event loop ----

    method TakeWait(i: nat) returns (w: Wait)
      requires Valid() && i < |reactor.waits|
      modifies reactor, `state
      ensures Valid() && w == old(state).waits[i] && state == old(state).(waits := RemoveAt(old(state).waits, i))
    {
      w := reactor.waits[i];
      reactor.waits := RemoveAt(reactor.waits, i);
      state := state.(waits := RemoveAt(state.waits, i));
    }

    method ClearFlag(st: SocketState, d: Dir)
      requires Valid() && Is(st, st.gen)
      modifies st`readArmed, st`writeArmed, `state
      ensures Valid() && st.gen < |old(state).socks|
      ensures var s, k := old(state), old(state).socks[st.gen];
        state == s.(socks := s.socks[st.gen := k.(armed := With(k.armed, d, false))])
    {
      ghost var s, k := state, state.socks[st.gen];
      if d.Read? {
        st.readArmed := false;
      } else {
        st.writeArmed := false;
      }
      state := s.(socks := s.socks[st.gen := k.(armed := With(k.armed, d, false))]);
    }

    ghost method NoteDrive(v: Drive)
      requires Valid()
      modifies `state
      ensures Valid() && state == old(state).(drives := old(state).drives + [v])
    {
      state := state.(drives := state.drives + [v]);
    }

    /** The states a weak pointer can still be locked to are those in sockets_. */
    method Lock(gen: nat) returns (st: SocketState?)
      requires Valid() && gen < |states|
      ensures if InMap(state, gen) then st == states[gen] && Is(st, gen) && st in repr && st.gen == gen else st == null
    {
      st := states[gen];
      if st.fd !in sockets || sockets[st.fd] != st {
        st := null;
      }
    }

    /** on_event for the end of wait w, which was number i of the queue in state s. */
    method OnEvent(st: SocketState, w: Wait, acts: seq<Act>, ghost i: nat, ghost s: State)
      requires Valid() && Steady(s) && s.alive && i < |s.waits| && s.waits[i] == w && w.end.Some? && InMap(s, w.gen)
      requires state == s.(waits := RemoveAt(s.waits, i)) && Is(st, st.gen) && st in repr && st.gen == w.gen
      modifies this, repr
      ensures Valid() && w.gen < |old(state).socks| && state == SocketSpec.OnEvent(old(state), w, acts)
      ensures Inv(state, {}) && fresh(repr - old(repr)) && old(states) <= states
    {
      hide Inv, Valid, SocketSpec.DoAll, SocketSpec.Arm, DriveOf;
      Actual();
      RunWaitKeeps(s, i, acts);
      WaitIsOk(s, i);
      ClearFlag(st, w.dir);
      FiredKeeps(s, state, i);
      if w.end.value.OperationAborted? {
        return;
      }
      FiredWaitOk(s, state, w);
      DriveIsFair(state, w, {Spot(st.gen, w.dir)});
      DriveKeeps(state, DriveOf(state, w), {Spot(st.gen, w.dir)});
      NoteDrive(DriveOf(state, w));
      DoAllKeeps(state, acts, {Spot(st.gen, w.dir)});
      DoAll(acts, {Spot(st.gen, w.dir)});
      StillThere(st);
      if st.watch != NoDirs {
        Arm(st);
      }
    }

    /** A shared pointer keeps its state alive, if not in sockets_. */
    lemma StillThere(st: SocketState)
      requires Valid() && Is(st, st.gen)
      ensures {this, reactor} <= repr && st in repr && st.gen < |state.socks| && state.socks[st.gen].watch == st.watch
    {
    }

    /** The closure of an ended wait runs. */
    method RunWait(i: nat, acts: seq<Act>)
      requires Valid() && Steady(state) && i < |reactor.waits| && reactor.waits[i].end.Some?
      modifies this, repr
      ensures Valid() && Steady(state) && state == Step(old(state), RunQueued(i, acts))
      ensures fresh(repr - old(repr)) && old(states) <= states
    {
      hide Inv, Valid, SocketSpec.OnEvent;
      Actual();
      ghost var s := state;
      RunWaitKeeps(s, i, acts);
      WaitIsKnown(s, i);
      var w := TakeWait(i);
      Actual();
      var st := Lock(w.gen);
      if st != null {
        OnEvent(st, w, acts, i, s);
      }
    }

    lemma WaitIsKnown(s: State, i: nat)
      requires Inv(s, {}) && i < |s.waits|
      ensures s.waits[i].gen < |s.socks|
    {
      assert WaitOk(s, s.waits[i]);
    }

    /** A descriptor is ready, or has failed: the reactor queues the wait's closure. */
    method EndWait(i: nat, failed: bool)
      requires Valid() && i < |reactor.waits| && reactor.waits[i].end.None?
      modifies reactor, `state
      ensures Valid() && state == Step(old(state), Ready(i, failed))
    {
      var w := reactor.waits[i];
      reactor.waits := reactor.waits[i := w.(end := Some(if failed then Failed else NoError))];
      state := Step(state, Ready(i, failed));
    }

    /** Cut off every socket in sockets_. */
    method SeverAll()
      requires Valid() && Inv(state, {}) && !alive
      modifies this, repr
      ensures Valid() && Inv(state, {}) && state == Sever(old(state), |old(state).socks|) && repr == old(repr) && !alive
    {
      hide Inv, Valid, SocketSpec.SetWatch, SocketSpec.CloseSocket;
      ghost var s := state;
      Actual();
      for g := 0 to |states|
        invariant Valid() && Inv(state, {}) && repr == old(repr) && states == old(states) && !alive && |states| == |s.socks|
        invariant state == Sever(s, g)
      {
        Actual();
        var st := Lock(g);
        if st != null {
          SeverOne(st);
        }
      }
    }

    method SeverOne(st: SocketState)
      requires Valid() && Inv(state, {}) && !alive && Is(st, st.gen) && st in repr && InMap(state, st.gen)
      modifies this, repr
      ensures Valid() && Inv(state, {}) && !alive && repr == old(repr) && states == old(states)
      ensures st.gen < |old(state).socks| && state == Shut(old(state), st.gen)
    {
      hide Inv, Valid, SocketSpec.SetWatch, SocketSpec.CloseSocket;
      Actual();
      LockedIsHere(st);
      Good(st.fd, {});
      IsCore(state, {});
      ghost var q := state;
      ShutKeeps(q, st.gen, {});
      SetWatchOnly(q, st.gen);
      ShutIs(q, st.gen);
      SetWatch(st, NoDirs);
      CloseSocket(st);
      DeadCore(state);
    }

    lemma LockedIsHere(st: SocketState)
      requires Valid() && Is(st, st.gen) && InMap(state, st.gen)
      ensures st.fd in sockets && sockets[st.fd] == st
    {
    }

    lemma SetWatchOnly(q: State, g: nat)
      requires g < |q.socks|
      ensures SocketSpec.SetWatch(q, g, NoDirs).os == q.os
    {
    }

    lemma ShutIs(q: State, g: nat)
      requires g < |q.socks|
      ensures Shut(q, g) == SocketSpec.CloseSocket(SocketSpec.SetWatch(q, g, NoDirs), g) && Shut(q, g).alive == q.alive
    {
    }

    /** curl_multi_cleanup: every descriptor libcurl still has goes through close_socket_cb. */
    method CurlCleanup()
      requires Valid() && Inv(state, {})
      modifies this, repr
      ensures Valid() && Inv(state, {}) && state == Cleanup(old(state)) && fresh(repr - old(repr))
    {
      hide Inv, Valid, SocketSpec.Do;
      while held != []
        invariant Valid() && Inv(state, {}) && fresh(repr - old(repr)) && Cleanup(state) == Cleanup(old(state))
        decreases |held|
      {
        Actual();
        ghost var s := state;
        ClosingShrinks(s);
        DoKeeps(s, CloseHeld(s.held[0].fd), {});
        Do(CloseHeld(held[0].fd), {});
        Actual();
      }
      Actual();
    }

    lemma ClosingShrinks(s: State)
      requires s.held != []
      ensures Holds(s, s.held[0].fd) && |SocketSpec.Do(s, CloseHeld(s.held[0].fd)).held| < |s.held|
    {
    }

    method Die()
      requires Valid()
      modifies `alive, `state
      ensures Valid() && state == old(state).(alive := false) && !alive
    {
      alive := false;
      state := state.(alive := false);
    }

    method ClearSockets()
      requires Valid()
      modifies `sockets, `state
      ensures Valid() && state == old(state).(sockets := map[])
    {
      sockets := map[];
      state := state.(sockets := map[]);
    }

    /** The destructor's part in this. */
    method Destroy(acts: seq<Act>)
      requires Valid() && Inv(state, {}) && alive
      modifies this, repr
      ensures Valid() && Inv(state, {}) && state == SocketSpec.Destroy(old(state), acts) && fresh(repr - old(repr))
    {
      hide Inv, Valid, Sever, Cleanup, SocketSpec.DoAll;
      DestroyKeeps(state, acts);
      Actual();
      DyingKeeps(state);
      Die();
      DeadCore(state);
      SeverAll();
      Actual();
      DoAllKeeps(state, acts, {});
      DoAll(acts, {});
      Actual();
      CleanupKeeps(state);
      CurlCleanup();
      Actual();
      SeverAll();
      ClearSockets();
    }
  }
}
