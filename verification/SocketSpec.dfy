/**
 * Socket watching: the descriptors the client opens for libcurl or borrows
 * from it, the one-shot waits armed on them, and the callbacks that do so.
 * The operating system, libcurl and the event loop are the environment.
 */
module SocketSpec {
  import opened Common

  /** A descriptor as the system made it, and how often it was closed. */
  datatype Descriptor = Descriptor(fd: nat, closes: nat)

  /**
   * The descriptor table: which number refers to which descriptor, every
   * descriptor ever made, and the calls of close that named one not open.
   */
  datatype Os = Os(fds: map<nat, nat>, made: seq<Descriptor>, faults: nat)

  predicate IsOpen(o: Os, fd: nat, serial: nat) {
    fd in o.fds && o.fds[fd] == serial
  }

  function Open(o: Os, fd: nat): Os {
    o.(fds := o.fds[fd := |o.made|], made := o.made + [Descriptor(fd, 0)])
  }

  /** close(fd), by someone who means descriptor serial. */
  function Close(o: Os, fd: nat, serial: nat): Os {
    if IsOpen(o, fd, serial) && serial < |o.made| then
      o.(fds := o.fds - {fd}, made := o.made[serial := o.made[serial].(closes := o.made[serial].closes + 1)])
    else o.(faults := o.faults + 1)
  }

  datatype Dir = Read | Write

  /** A set of directions: CURL_POLL_NONE, IN, OUT and INOUT, and the two armed flags. */
  datatype Dirs = Dirs(read: bool, write: bool)

  const NoDirs := Dirs(false, false)

  predicate Has(ds: Dirs, d: Dir) {
    if d.Read? then ds.read else ds.write
  }

  function With(ds: Dirs, d: Dir, on: bool): Dirs {
    if d.Read? then ds.(read := on) else ds.(write := on)
  }

  /** A SocketState. handle is the descriptor of its asio socket: fd itself, or a dup of a borrowed one. */
  datatype Sock = Sock(fd: nat, borrowed: bool, handle: nat, serial: nat, open: bool, watch: Dirs, armed: Dirs)

  datatype Ec = NoError | Failed | OperationAborted

  /** An async_wait on one direction of socket state number gen, armed on descriptor serial: waiting, or its closure queued. */
  datatype Wait = Wait(gen: nat, dir: Dir, serial: nat, end: Option<Ec>)

  /** A descriptor libcurl uses; a native one it opened past open_socket_cb. */
  datatype Held = Held(fd: nat, serial: nat, native: bool)

  /**
   * One curl_multi_socket_action for a socket event: what libcurl is told, the
   * descriptor the wait was armed on, and how things stand at that moment:
   * which descriptor the waiting socket's number means, which one the number
   * given to libcurl means, and which one libcurl has under it.
   */
  datatype Drive = Drive(
    fd: nat, dir: Option<Dir>, own: bool, armedOn: nat, waitedOn: Option<nat>, named: Option<nat>, libcurls: Option<nat>)

  datatype State = State(
    // the client: every socket state ever made, the sockets_ map (by number of the state)
    socks: seq<Sock>, sockets: map<nat, nat>, alive: bool,
    os: Os,
    // libcurl: its descriptors, and those it wants watched with the pointer assigned to each
    // and the directions it last asked for
    held: seq<Held>, polled: map<nat, Option<nat>>, wanted: map<nat, Dirs>,
    waits: seq<Wait>,
    // history
    drives: seq<Drive>, dangling: nat)

  function Init(): State {
    State([], map[], true, Os(map[], [], 0), [], map[], map[], [], [], 0)
  }

  /** The state is owned by sockets_; a weak pointer to it can be locked. */
  predicate InMap(s: State, g: nat) {
    g < |s.socks| && s.socks[g].fd in s.sockets && s.sockets[s.socks[g].fd] == g
  }

  function HeldAt(held: seq<Held>, fd: nat): (r: Option<nat>)
    ensures r.Some? ==> r.value < |held| && held[r.value].fd == fd
    ensures r.None? ==> forall i :: 0 <= i < |held| ==> held[i].fd != fd
  {
    if held == [] then None
    else if held[0].fd == fd then Some(0)
    else var r := HeldAt(held[1..], fd); if r.Some? then Some(r.value + 1) else None
  }

  predicate Holds(s: State, fd: nat) {
    HeldAt(s.held, fd).Some?
  }

  /** Closing a socket ends the waits on it. */
  function AbortWaits(waits: seq<Wait>, g: nat): (r: seq<Wait>)
    ensures |r| == |waits|
    ensures forall i :: 0 <= i < |r| ==>
      r[i] == if waits[i].gen == g && waits[i].end.None? then waits[i].(end := Some(OperationAborted)) else waits[i]
  {
    seq(|waits|, i requires 0 <= i < |waits| =>
      if waits[i].gen == g && waits[i].end.None? then waits[i].(end := Some(OperationAborted)) else waits[i])
  }

  /** socket.close of an asio socket; one already closed stays as it is. */
  function CloseSocket(s: State, g: nat): State
    requires g < |s.socks|
  {
    var k := s.socks[g];
    if !k.open then s
    else s.(socks := s.socks[g := k.(open := false)], os := Close(s.os, k.handle, k.serial), waits := AbortWaits(s.waits, g))
  }

  function SetWatch(s: State, g: nat, watch: Dirs): State
    requires g < |s.socks|
  {
    s.(socks := s.socks[g := s.socks[g].(watch := watch)])
  }

  function ArmDir(s: State, g: nat, d: Dir): State
    requires g < |s.socks|
  {
    var k := s.socks[g];
    if Has(k.watch, d) && !Has(k.armed, d) then
      s.(socks := s.socks[g := k.(armed := With(k.armed, d, true))], waits := s.waits + [Wait(g, d, k.serial, None)])
    else s
  }

  function Arm(s: State, g: nat): State
    requires g < |s.socks|
  {
    if !s.socks[g].open then s else ArmDir(ArmDir(s, g, Read), g, Write)
  }

  datatype Family = Inet | Inet6 | OtherFamily

  /** open_socket_cb, for a new descriptor fd; None when the system has none to give. */
  function OpenSocketCb(s: State, ipConnection: bool, family: Family, fd: Option<nat>): State {
    if !ipConnection || family.OtherFamily? || fd.None? then s
    else
      var n := |s.os.made|;
      s.(os := Open(s.os, fd.value),
         socks := s.socks + [Sock(fd.value, false, fd.value, n, true, NoDirs, NoDirs)],
         sockets := s.sockets[fd.value := |s.socks|])
  }

  /** close_socket_cb for libcurl's descriptor serial. */
  function CloseSocketCb(s: State, fd: nat, serial: nat): State {
    if fd !in s.sockets then s.(os := Close(s.os, fd, serial))
    else
      var g := s.sockets[fd];
      if !InMap(s, g) then s.(dangling := s.dangling + 1)
      else
        var c := CloseSocket(SetWatch(s, g, NoDirs), g);
        c.(os := if c.socks[g].borrowed then Close(c.os, fd, serial) else c.os, sockets := c.sockets - {fd})
  }

  /** How duplicating a descriptor turns out. */
  datatype DupEnv = DupFails | AssignFails(dup: nat) | Borrowed(dup: nat)

  /** A dup must have a number not in use. */
  predicate Possible(o: Os, env: DupEnv) {
    env.DupFails? || env.dup !in o.fds
  }

  /** borrow: the new state number, if there is one. */
  function Borrow(s: State, fd: nat, env: DupEnv): (State, Option<nat>) {
    match env
    case DupFails => (s, None)
    case AssignFails(dup) => (s.(os := Close(Open(s.os, dup), dup, |s.os.made|)), None)
    case Borrowed(dup) =>
      (s.(os := Open(s.os, dup),
          socks := s.socks + [Sock(fd, true, dup, |s.os.made|, true, NoDirs, NoDirs)],
          sockets := s.sockets[fd := |s.socks|]),
       Some(|s.socks|))
  }

  /** The tail of socket_cb for a state that is attached; None is CURL_POLL_REMOVE. */
  function Attend(s: State, fd: nat, what: Option<Dirs>, g: nat): State {
    if !InMap(s, g) then s.(dangling := s.dangling + 1)  // the state was destroyed
    else if what.Some? then Arm(SetWatch(s, g, what.value), g)
    else
      var r := SetWatch(s, g, NoDirs);
      if !r.socks[g].borrowed then r
      else var c := CloseSocket(r, g); c.(sockets := c.sockets - {fd})
  }

  function SocketCb(s: State, fd: nat, what: Option<Dirs>, socketp: Option<nat>, env: DupEnv): State {
    if socketp.Some? then Attend(s, fd, what, socketp.value)
    else if what.None? then s  // never watched
    else
      var (q, g) := if fd in s.sockets then (s, Some(s.sockets[fd])) else Borrow(s, fd, env);
      if g.None? then q
      else Attend(q.(polled := q.polled[fd := g]), fd, what, g.value)
  }

  /** What libcurl may do inside any call it is given. Acts it may not do at the time are passed over. */
  datatype Act =
    | OpenSocket(ipConnection: bool, family: Family, got: Option<nat>)
    | OpenNative(fd: nat)
    | Poll(fd: nat, what: Dirs, env: DupEnv)
    | Unpoll(fd: nat)        // CURL_POLL_REMOVE
    | CloseHeld(fd: nat)     // through close_socket_cb
    | CloseOwn(fd: nat)      // by itself, a native descriptor it no longer wants watched

  /** A client being destroyed is asked for no new descriptor. */
  predicate Legal(s: State, a: Act) {
    match a
    case OpenSocket(_, _, got) => s.alive && (got.Some? ==> got.value !in s.os.fds)
    case OpenNative(fd) => s.alive && fd !in s.os.fds
    case Poll(fd, _, env) => Holds(s, fd) && Possible(s.os, env)
    case Unpoll(fd) => fd in s.polled
    case CloseHeld(fd) => Holds(s, fd)
    case CloseOwn(fd) => Holds(s, fd) && s.held[HeldAt(s.held, fd).value].native && fd !in s.polled
  }

  function Forget(s: State, fd: nat): State
    requires Holds(s, fd)
  {
    s.(held := RemoveAt(s.held, HeldAt(s.held, fd).value), polled := s.polled - {fd})
  }

  /** How the client and the system answer it. */
  function Respond(s: State, a: Act): State {
    if !Legal(s, a) then s
    else
      match a
      case OpenSocket(ip, family, got) =>
        var q := OpenSocketCb(s, ip, family, got);
        if q == s then s else q.(held := q.held + [Held(got.value, |s.os.made|, false)])
      case OpenNative(fd) => s.(os := Open(s.os, fd), held := s.held + [Held(fd, |s.os.made|, true)])
      case Poll(fd, what, env) =>
        var socketp := if fd in s.polled then s.polled[fd] else None;
        SocketCb(s.(polled := s.polled[fd := socketp]), fd, Some(what), socketp, env)
      case Unpoll(fd) =>
        var q := SocketCb(s, fd, None, s.polled[fd], DupFails);
        q.(polled := q.polled - {fd})
      case CloseHeld(fd) =>
        var q := CloseSocketCb(s, fd, s.held[HeldAt(s.held, fd).value].serial);
        q.(held := RemoveAt(s.held, HeldAt(s.held, fd).value), polled := s.polled - {fd})
      case CloseOwn(fd) =>
        Forget(s, fd).(os := Close(s.os, fd, s.held[HeldAt(s.held, fd).value].serial))
  }

  /** What libcurl wants watched from then on. */
  function NowWanted(s: State, a: Act): map<nat, Dirs> {
    if !Legal(s, a) then s.wanted
    else
      match a
      case Poll(fd, what, _) => s.wanted[fd := what]
      case Unpoll(fd) => s.wanted - {fd}
      case CloseHeld(fd) => s.wanted - {fd}
      case CloseOwn(fd) => s.wanted - {fd}
      case _ => s.wanted
  }

  function Do(s: State, a: Act): State {
    Respond(s, a).(wanted := NowWanted(s, a))
  }

  function DoAll(s: State, acts: seq<Act>): State
    decreases |acts|
  {
    if acts == [] then s else DoAll(Do(s, acts[0]), acts[1..])
  }

  function Lookup(o: Os, fd: nat): Option<nat> {
    if fd in o.fds then Some(o.fds[fd]) else None
  }

  /** What there is to say about the end of wait w when it reaches libcurl. */
  function DriveOf(s: State, w: Wait): Drive
    requires w.gen < |s.socks| && w.end.Some?
  {
    var k := s.socks[w.gen];
    var at := HeldAt(s.held, k.fd);
    Drive(k.fd, if w.end.value.NoError? then Some(w.dir) else None, !k.borrowed, w.serial,
          Lookup(s.os, k.handle), Lookup(s.os, k.fd), if at.Some? then Some(s.held[at.value].serial) else None)
  }

  /** on_event; acts are what libcurl and the completion handlers do in response. */
  function OnEvent(s: State, w: Wait, acts: seq<Act>): State
    requires w.gen < |s.socks| && w.end.Some?
  {
    var g, k := w.gen, s.socks[w.gen];
    var q := s.(socks := s.socks[g := k.(armed := With(k.armed, w.dir, false))]);
    if w.end.value.OperationAborted? then q
    else
      var t := DoAll(q.(drives := q.drives + [DriveOf(q, w)]), acts);
      if g < |t.socks| && t.socks[g].watch != NoDirs then Arm(t, g) else t
  }

  /** A queued wait runs: only a state that still exists hears of it. */
  function RunWait(s: State, i: nat, acts: seq<Act>): State
    requires i < |s.waits| && s.waits[i].end.Some?
  {
    var w := s.waits[i];
    var q := s.(waits := RemoveAt(s.waits, i));
    if InMap(s, w.gen) then OnEvent(q, w, acts) else q
  }

  /** Close the sockets of the first n states that sockets_ holds. */
  function Sever(s: State, n: nat): (t: State)
    requires n <= |s.socks|
    ensures |t.socks| == |s.socks|
  {
    if n == 0 then s
    else
      var q := Sever(s, n - 1);
      if InMap(q, n - 1) then CloseSocket(SetWatch(q, n - 1, NoDirs), n - 1) else q
  }

  /** curl_multi_cleanup closes what libcurl still holds. */
  function Cleanup(s: State): State
    decreases |s.held|
  {
    if s.held == [] then s else Cleanup(Do(s, CloseHeld(s.held[0].fd)))
  }

  /**
   * ~Client: the sockets are severed, libcurl lets go of its transfers and
   * connections, and the states left in sockets_ go with it.
   */
  function Destroy(s: State, acts: seq<Act>): State {
    var v := Sever(s.(alive := false), |s.socks|);
    var t := Cleanup(DoAll(v, acts));
    Sever(t, |t.socks|).(sockets := map[])
  }

  datatype Event =
    | CurlCall(acts: seq<Act>)
    | Ready(i: nat, failed: bool)       // the descriptor is ready, or has failed: the wait ends
    | RunQueued(i: nat, acts: seq<Act>)
    | Destruct(acts: seq<Act>)

  function Step(s: State, e: Event): State {
    match e
    case CurlCall(acts) => if s.alive then DoAll(s, acts) else s
    case Ready(i, failed) =>
      if i < |s.waits| && s.waits[i].end.None? then
        s.(waits := s.waits[i := s.waits[i].(end := Some(if failed then Failed else NoError))])
      else s
    case RunQueued(i, acts) => if i < |s.waits| && s.waits[i].end.Some? then RunWait(s, i, acts) else s
    case Destruct(acts) => if s.alive then Destroy(s, acts) else s
  }

  function Run(s: State, es: seq<Event>): State
    decreases |es|
  {
    if es == [] then s else Run(Step(s, es[0]), es[1..])
  }
}
