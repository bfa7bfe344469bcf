/** What every run of the socket machinery keeps. */
module SocketProofs {
  import opened Common
  import opened SocketSpec

  // ---- the descriptor table ----

  /** No close ever named the wrong descriptor, and each descriptor is open or was closed exactly once. */
  ghost predicate OsOk(o: Os) {
    && o.faults == 0
    && (forall fd :: fd in o.fds ==> o.fds[fd] < |o.made| && o.made[o.fds[fd]].fd == fd)
    && (forall k :: 0 <= k < |o.made| ==> o.made[k].closes == if IsOpen(o, o.made[k].fd, k) then 0 else 1)
  }

  lemma OpenKeeps(o: Os, fd: nat)
    requires OsOk(o) && fd !in o.fds
    ensures OsOk(Open(o, fd)) && IsOpen(Open(o, fd), fd, |o.made|)
    ensures forall f, n :: IsOpen(o, f, n) ==> IsOpen(Open(o, fd), f, n)
  {
    var p := Open(o, fd);
    forall k | 0 <= k < |p.made| ensures p.made[k].closes == if IsOpen(p, p.made[k].fd, k) then 0 else 1 {
      assert k < |o.made| ==> p.made[k] == o.made[k];
    }
  }

  lemma CloseKeeps(o: Os, fd: nat, serial: nat)
    requires OsOk(o) && IsOpen(o, fd, serial)
    ensures OsOk(Close(o, fd, serial)) && Close(o, fd, serial).fds == o.fds - {fd}
    ensures forall f, n :: f != fd ==> (IsOpen(o, f, n) <==> IsOpen(Close(o, fd, serial), f, n))
  {
  }

  // ---- the invariant ----

  ghost predicate SockOk(s: State, g: nat)
    requires g < |s.socks|
  {
    var k := s.socks[g];
    && (!InMap(s, g) ==> !k.open && k.watch == NoDirs)
    && (k.open ==> IsOpen(s.os, k.handle, k.serial))
    && (!k.borrowed ==> k.handle == k.fd)
  }

  /** sockets_ leads to live states, and open sockets share no descriptor. */
  ghost predicate Table(s: State) {
    && (forall fd :: fd in s.sockets ==> s.sockets[fd] < |s.socks| && s.socks[s.sockets[fd]].fd == fd)
    && (forall g :: 0 <= g < |s.socks| ==> SockOk(s, g))
    && (forall g, h :: 0 <= g < h < |s.socks| && s.socks[g].open && s.socks[h].open ==> s.socks[g].handle != s.socks[h].handle)
  }

  /** Its own descriptor libcurl has open; for one of ours the client still has the state, even once severed. */
  ghost predicate HeldOk(s: State, h: Held)
    requires Table(s)
  {
    if h.native then
      && IsOpen(s.os, h.fd, h.serial) && (h.fd in s.sockets ==> s.socks[s.sockets[h.fd]].borrowed)
      && (forall g :: 0 <= g < |s.socks| && s.socks[g].open ==> s.socks[g].handle != h.fd)
    else h.fd in s.sockets && !s.socks[s.sockets[h.fd]].borrowed && s.socks[s.sockets[h.fd]].serial == h.serial
  }

  /** The descriptor of an open socket. */
  ghost predicate Backs(s: State, fd: nat) {
    exists g :: 0 <= g < |s.socks| && s.socks[g].open && s.socks[g].handle == fd
  }

  ghost predicate Distinct(held: seq<Held>) {
    forall i, j :: 0 <= i < j < |held| ==> held[i].fd != held[j].fd
  }

  ghost predicate Lists(held: seq<Held>, fd: nat) {
    exists i :: 0 <= i < |held| && held[i].fd == fd
  }

  ghost predicate ListsNative(held: seq<Held>, fd: nat) {
    exists i :: 0 <= i < |held| && held[i].fd == fd && held[i].native
  }

  /** What libcurl has is in order, and no number occurs twice in it. */
  ghost predicate Owned(s: State)
    requires Table(s)
  {
    Distinct(s.held) && forall i :: 0 <= i < |s.held| ==> HeldOk(s, s.held[i])
  }

  /** sockets_ and the pointers libcurl was assigned lead to each other, and both to descriptors libcurl has. */
  ghost predicate Linked(s: State) {
    && (forall fd :: fd in s.sockets ==> Lists(s.held, fd))
    && (forall g :: 0 <= g < |s.socks| && InMap(s, g) && s.socks[g].borrowed
                    ==> s.socks[g].fd in s.polled && s.polled[s.socks[g].fd] == Some(g))
    && (forall fd :: fd in s.polled ==> Lists(s.held, fd))
    && (forall fd :: fd in s.polled && s.polled[fd].Some? ==> fd in s.sockets && s.sockets[fd] == s.polled[fd].value)
  }

  /** No descriptor is open that nobody will close. */
  ghost predicate Accounted(s: State) {
    forall fd :: fd in s.os.fds ==> Backs(s, fd) || ListsNative(s.held, fd)
  }

  ghost predicate Curl(s: State)
    requires Table(s)
  {
    Owned(s) && Linked(s) && Accounted(s)
  }

  datatype Spot = Spot(gen: nat, dir: Dir)

  function Tags(waits: seq<Wait>): (r: seq<Spot>)
    ensures |r| == |waits| && forall i :: 0 <= i < |r| ==> r[i] == Spot(waits[i].gen, waits[i].dir)
  {
    seq(|waits|, i requires 0 <= i < |waits| => Spot(waits[i].gen, waits[i].dir))
  }

  /** How many waits there are on one direction of one state, running or queued. */
  function Count(waits: seq<Wait>, g: nat, d: Dir): nat {
    multiset(Tags(waits))[Spot(g, d)]
  }

  ghost predicate WaitOk(s: State, w: Wait) {
    && w.gen < |s.socks| && w.serial == s.socks[w.gen].serial
    && (w.end.None? ==> s.socks[w.gen].open)
    && (w.end == Some(OperationAborted) ==> !s.socks[w.gen].open)
  }

  /** A flag is set exactly while there is one wait; what is watched is armed, except perhaps at one spot. */
  ghost predicate ArmedOk(s: State, g: nat, d: Dir, but: set<Spot>)
    requires g < |s.socks|
  {
    var k := s.socks[g];
    && Count(s.waits, g, d) == (if Has(k.armed, d) then 1 else 0)
    && (k.open && Has(k.watch, d) && Spot(g, d) !in but ==> Has(k.armed, d))
  }

  ghost predicate Waits(s: State, but: set<Spot>) {
    && (forall i :: 0 <= i < |s.waits| ==> WaitOk(s, s.waits[i]))
    && (forall g, d :: 0 <= g < |s.socks| && InMap(s, g) ==> ArmedOk(s, g, d, but))
  }

  /**
   * The descriptor the wait was armed on is still the one its number means,
   * and libcurl was told of a number that means the descriptor it has under
   * it; for a socket of ours these are one descriptor.
   */
  ghost predicate Fair(v: Drive) {
    && v.waitedOn == Some(v.armedOn)
    && v.libcurls.Some? && v.named == v.libcurls
    && (v.own ==> v.named == Some(v.armedOn))
  }

  ghost predicate Sound(s: State) {
    s.dangling == 0 && forall i :: 0 <= i < |s.drives| ==> Fair(s.drives[i])
  }

  /** While the client lives every socket in sockets_ is open. */
  ghost predicate AllOpen(s: State) {
    s.alive ==> forall g :: 0 <= g < |s.socks| && InMap(s, g) ==> s.socks[g].open
  }

  ghost predicate Core(s: State, but: set<Spot>) {
    OsOk(s.os) && Table(s) && Curl(s) && Waits(s, but) && Sound(s)
  }

  ghost predicate Inv(s: State, but: set<Spot>) {
    Core(s, but) && AllOpen(s)
  }

  // ---- lists of descriptors and of waits ----

  lemma HoldsLists(s: State, fd: nat)
    ensures Holds(s, fd) <==> Lists(s.held, fd)
  {
  }

  lemma ListsGrown(held: seq<Held>, h: Held)
    ensures forall fd :: Lists(held + [h], fd) <==> Lists(held, fd) || fd == h.fd
    ensures forall fd :: ListsNative(held, fd) ==> ListsNative(held + [h], fd)
    ensures h.native ==> ListsNative(held + [h], h.fd)
    ensures Distinct(held) && !Lists(held, h.fd) ==> Distinct(held + [h])
  {
    var r := held + [h];
    assert r[|held|] == h;
    forall fd | Lists(held, fd) ensures Lists(r, fd) {
      var i :| 0 <= i < |held| && held[i].fd == fd;
      assert r[i] == held[i];
    }
    forall fd | ListsNative(held, fd) ensures ListsNative(r, fd) {
      var i :| 0 <= i < |held| && held[i].fd == fd && held[i].native;
      assert r[i] == held[i];
    }
    forall fd | Lists(r, fd) ensures Lists(held, fd) || fd == h.fd {
      var i :| 0 <= i < |r| && r[i].fd == fd;
      assert i < |held| ==> r[i] == held[i];
    }
  }

  lemma ListsShrunk(held: seq<Held>, i: nat)
    requires i < |held| && Distinct(held)
    ensures Distinct(RemoveAt(held, i))
    ensures forall fd :: Lists(RemoveAt(held, i), fd) <==> Lists(held, fd) && fd != held[i].fd
    ensures forall fd :: ListsNative(held, fd) && (fd != held[i].fd || !held[i].native) ==> ListsNative(RemoveAt(held, i), fd)
  {
    var r := RemoveAt(held, i);
    forall fd | Lists(held, fd) && fd != held[i].fd ensures Lists(r, fd) {
      var j :| 0 <= j < |held| && held[j].fd == fd;
      assert r[if j < i then j else j - 1] == held[j];
    }
    forall fd | ListsNative(held, fd) && (fd != held[i].fd || !held[i].native) ensures ListsNative(r, fd) {
      var j :| 0 <= j < |held| && held[j].fd == fd && held[j].native;
      assert r[if j < i then j else j - 1] == held[j];
    }
    forall fd | Lists(r, fd) ensures Lists(held, fd) && fd != held[i].fd {
      var j :| 0 <= j < |r| && r[j].fd == fd;
      assert r[j] == held[if j < i then j else j + 1];
    }
  }

  lemma CountNext(waits: seq<Wait>, w: Wait)
    ensures forall g, d :: Count(waits + [w], g, d) == Count(waits, g, d) + if w.gen == g && w.dir == d then 1 else 0
  {
    assert Tags(waits + [w]) == Tags(waits) + [Spot(w.gen, w.dir)];
  }

  lemma CountLess(waits: seq<Wait>, i: nat)
    requires i < |waits|
    ensures forall g, d :: Count(RemoveAt(waits, i), g, d)
                           == Count(waits, g, d) - if waits[i].gen == g && waits[i].dir == d then 1 else 0
  {
    assert Tags(RemoveAt(waits, i)) == RemoveAt(Tags(waits), i);
    RemoveAtMultiset(Tags(waits), i);
  }

  lemma CountSame(waits: seq<Wait>, other: seq<Wait>)
    requires |waits| == |other| && forall i :: 0 <= i < |waits| ==> waits[i].gen == other[i].gen && waits[i].dir == other[i].dir
    ensures forall g, d :: Count(waits, g, d) == Count(other, g, d)
  {
    assert Tags(waits) == Tags(other);
  }

  lemma CountNone(waits: seq<Wait>, g: nat)
    requires forall i :: 0 <= i < |waits| ==> waits[i].gen != g
    ensures forall d :: Count(waits, g, d) == 0
  {
    forall d ensures Spot(g, d) !in multiset(Tags(waits)) {
      assert Spot(g, d) in multiset(Tags(waits)) ==> Spot(g, d) in Tags(waits);
    }
  }

  // ---- flags ----

  /** q differs from s in watch and armed flags and in the waits only. */
  ghost predicate Reflagged(s: State, q: State) {
    && q == s.(socks := q.socks, waits := q.waits)
    && |q.socks| == |s.socks|
    && (forall g :: 0 <= g < |s.socks| ==> q.socks[g] == s.socks[g].(watch := q.socks[g].watch, armed := q.socks[g].armed))
    && (forall g :: 0 <= g < |s.socks| && !InMap(s, g) ==> q.socks[g].watch == s.socks[g].watch)
  }

  lemma ReflaggedKeeps(s: State, q: State)
    requires Table(s) && Curl(s) && Reflagged(s, q)
    ensures Table(q) && Curl(q) && (AllOpen(s) ==> AllOpen(q))
    ensures forall g :: InMap(q, g) <==> InMap(s, g)
  {
    forall g | 0 <= g < |q.socks| ensures SockOk(q, g) {
      assert SockOk(s, g);
    }
    forall i | 0 <= i < |q.held| ensures HeldOk(q, q.held[i]) {
      assert HeldOk(s, s.held[i]);
    }
    forall fd | Backs(s, fd) ensures Backs(q, fd) {
      var g :| 0 <= g < |s.socks| && s.socks[g].open && s.socks[g].handle == fd;
      assert q.socks[g].handle == fd;
    }
  }

  lemma SetWatchKeeps(s: State, g: nat, w: Dirs, but: set<Spot>)
    requires Table(s) && Waits(s, but) && InMap(s, g)
    ensures Reflagged(s, SetWatch(s, g, w)) && Waits(SetWatch(s, g, w), but + {Spot(g, Read), Spot(g, Write)})
  {
    var q := SetWatch(s, g, w);
    forall i | 0 <= i < |q.waits| ensures WaitOk(q, q.waits[i]) {
      assert WaitOk(s, s.waits[i]);
    }
    forall h, d | 0 <= h < |q.socks| && InMap(q, h) ensures ArmedOk(q, h, d, but + {Spot(g, Read), Spot(g, Write)}) {
      assert InMap(s, h) && ArmedOk(s, h, d, but);
    }
  }

  lemma ArmDirWaits(s: State, g: nat, d: Dir, but: set<Spot>)
    requires g < |s.socks| && s.socks[g].open && Waits(s, but)
    ensures Waits(ArmDir(s, g, d), but - {Spot(g, d)})
  {
    var q := ArmDir(s, g, d);
    CountNext(s.waits, Wait(g, d, s.socks[g].serial, None));
    forall i | 0 <= i < |q.waits| ensures WaitOk(q, q.waits[i]) {
      assert i < |s.waits| ==> WaitOk(s, s.waits[i]);
    }
    forall h, e | 0 <= h < |q.socks| && InMap(q, h) ensures ArmedOk(q, h, e, but - {Spot(g, d)}) {
      assert InMap(s, h) && ArmedOk(s, h, e, but);
    }
  }

  lemma ArmDirKeeps(s: State, g: nat, d: Dir, but: set<Spot>)
    requires g < |s.socks| && s.socks[g].open && Table(s) && Waits(s, but)
    ensures Reflagged(s, ArmDir(s, g, d)) && Waits(ArmDir(s, g, d), but - {Spot(g, d)})
  {
    hide Waits;
    ArmDirWaits(s, g, d, but);
    assert SockOk(s, g);
  }

  lemma ArmKeeps(s: State, g: nat, but: set<Spot>)
    requires Inv(s, but) && g < |s.socks|
    ensures Inv(Arm(s, g), but - {Spot(g, Read), Spot(g, Write)})
  {
    hide Curl, Waits, Sound, OsOk, Reflagged, Table, AllOpen, ArmDir;
    if s.socks[g].open {
      var r := ArmDir(s, g, Read);
      ArmDirKeeps(s, g, Read, but);
      ReflaggedKeeps(s, r);
      StillOpen(s, r, g);
      ArmDirKeeps(r, g, Write, but - {Spot(g, Read)});
      ReflaggedKeeps(r, Arm(s, g));
      SoundFrame(s, r);
      SoundFrame(r, Arm(s, g));
      assert but - {Spot(g, Read)} - {Spot(g, Write)} == but - {Spot(g, Read), Spot(g, Write)};
    } else {
      ClosedNeedsNoWatch(s, g, but);
    }
  }

  lemma StillOpen(s: State, q: State, g: nat)
    requires Reflagged(s, q) && g < |s.socks|
    ensures g < |q.socks| && q.socks[g].open == s.socks[g].open && q.os == s.os
  {
  }

  lemma SoundFrame(s: State, q: State)
    requires Sound(s) && Reflagged(s, q)
    ensures Sound(q) && q.os == s.os
  {
  }

  /** On a closed socket nothing needs to be armed. */
  lemma ClosedNeedsNoWatch(s: State, g: nat, but: set<Spot>)
    requires Waits(s, but) && g < |s.socks| && !s.socks[g].open
    ensures Waits(s, but - {Spot(g, Read), Spot(g, Write)})
  {
    forall h, e | 0 <= h < |s.socks| && InMap(s, h) ensures ArmedOk(s, h, e, but - {Spot(g, Read), Spot(g, Write)}) {
      assert ArmedOk(s, h, e, but);
    }
  }

  /** socket_cb's tail for a watched descriptor: whatever it is to be watched for gets armed. */
  lemma WatchKeeps(s: State, g: nat, w: Dirs, but: set<Spot>)
    requires Inv(s, but) && InMap(s, g)
    ensures Inv(Arm(SetWatch(s, g, w), g), but)
  {
    hide Curl, Waits, Sound, OsOk, Reflagged, Table, AllOpen, Arm;
    var q := SetWatch(s, g, w);
    var two := {Spot(g, Read), Spot(g, Write)};
    SetWatchKeeps(s, g, w, but);
    ReflaggedKeeps(s, q);
    SoundFrame(s, q);
    ArmKeeps(q, g, but + two);
    FewerExceptions(Arm(q, g), but + two - two, but);
  }

  lemma FewerExceptions(s: State, few: set<Spot>, many: set<Spot>)
    requires Inv(s, few) && few <= many
    ensures Inv(s, many)
  {
    forall h, e | 0 <= h < |s.socks| && InMap(s, h) ensures ArmedOk(s, h, e, many) {
      assert ArmedOk(s, h, e, few);
    }
  }

  // ---- new descriptors ----

  /** Every number a living client or its libcurl knows is in use. */
  lemma KnownNumbers(s: State, fd: nat, but: set<Spot>)
    requires Inv(s, but) && s.alive && (fd in s.sockets || fd in s.polled || Lists(s.held, fd))
    ensures fd in s.os.fds
  {
    if fd in s.sockets {
      assert SockOk(s, s.sockets[fd]) && InMap(s, s.sockets[fd]);
    }
    var i :| 0 <= i < |s.held| && s.held[i].fd == fd;
    assert HeldOk(s, s.held[i]);
  }

  lemma NewNumber(s: State, fd: nat, but: set<Spot>)
    requires Inv(s, but) && s.alive && fd !in s.os.fds
    ensures fd !in s.sockets && fd !in s.polled && !Lists(s.held, fd)
  {
    if fd in s.sockets || fd in s.polled || Lists(s.held, fd) {
      KnownNumbers(s, fd, but);
    }
  }

  /** q has one more socket state than s: open, unwatched, for a descriptor just made and a number not in sockets_. */
  ghost predicate Grown(s: State, q: State, k: Sock) {
    && k.fd !in s.sockets && k.handle !in s.os.fds
    && k.open && k.serial == |s.os.made| && k.watch == NoDirs && k.armed == NoDirs
    && (!k.borrowed ==> k.handle == k.fd)
    && q == s.(socks := s.socks + [k], sockets := s.sockets[k.fd := |s.socks|], os := Open(s.os, k.handle),
               held := q.held, polled := q.polled)
  }

  lemma GrownMap(s: State, q: State, k: Sock)
    requires Grown(s, q, k)
    ensures forall g :: 0 <= g < |s.socks| ==> (InMap(q, g) <==> InMap(s, g)) && q.socks[g] == s.socks[g]
    ensures |q.socks| == |s.socks| + 1 && InMap(q, |s.socks|) && q.socks[|s.socks|] == k
  {
  }

  lemma GrownSock(s: State, q: State, k: Sock, g: nat)
    requires OsOk(s.os) && Grown(s, q, k) && g < |s.socks| && SockOk(s, g)
    ensures SockOk(q, g) && (q.socks[g].open ==> q.socks[g].handle != k.handle)
  {
    GrownMap(s, q, k);
    OpenKeeps(s.os, k.handle);
  }

  lemma GrownTable(s: State, q: State, k: Sock)
    requires OsOk(s.os) && Table(s) && Grown(s, q, k)
    ensures OsOk(q.os) && Table(q)
    ensures forall g :: 0 <= g < |s.socks| ==> (InMap(q, g) <==> InMap(s, g)) && q.socks[g] == s.socks[g]
    ensures InMap(q, |s.socks|) && q.socks[|s.socks|] == k
    ensures AllOpen(s) ==> AllOpen(q)
  {
    hide OsOk, SockOk;
    OpenKeeps(s.os, k.handle);
    GrownMap(s, q, k);
    NewSockOk(s, q, k);
    forall g | 0 <= g < |s.socks| ensures SockOk(q, g) && (q.socks[g].open ==> q.socks[g].handle != k.handle) {
      GrownSock(s, q, k, g);
    }
  }

  lemma NewSockOk(s: State, q: State, k: Sock)
    requires OsOk(s.os) && Grown(s, q, k)
    ensures |s.socks| < |q.socks| && SockOk(q, |s.socks|)
  {
    OpenKeeps(s.os, k.handle);
  }

  lemma GrownWaits(s: State, q: State, k: Sock, but: set<Spot>)
    requires OsOk(s.os) && Table(s) && Grown(s, q, k) && Waits(s, but)
    ensures Waits(q, but)
  {
    GrownTable(s, q, k);
    forall i | 0 <= i < |q.waits| ensures WaitOk(q, q.waits[i]) {
      assert WaitOk(s, s.waits[i]);
    }
    CountNone(s.waits, |s.socks|);
    forall h, d | 0 <= h < |q.socks| && InMap(q, h) ensures ArmedOk(q, h, d, but) {
      assert h < |s.socks| ==> ArmedOk(s, h, d, but);
    }
  }

  /** What libcurl held before, it holds as before. */
  lemma GrownHeld(s: State, q: State, k: Sock, i: nat)
    requires OsOk(s.os) && Table(s) && Grown(s, q, k) && Table(q) && i < |s.held| && HeldOk(s, s.held[i])
    requires k.fd != s.held[i].fd || (k.borrowed && s.held[i].native)
    ensures HeldOk(q, s.held[i])
  {
    OpenKeeps(s.os, k.handle);
  }

  lemma GrownDups(s: State, q: State, k: Sock)
    requires Grown(s, q, k)
    ensures forall fd :: Backs(s, fd) ==> Backs(q, fd)
    ensures Backs(q, k.handle)
  {
    forall fd | Backs(s, fd) ensures Backs(q, fd) {
      var g :| 0 <= g < |s.socks| && s.socks[g].open && s.socks[g].handle == fd;
      assert q.socks[g] == s.socks[g];
    }
    assert q.socks[|s.socks|] == k;
  }

  lemma OpenSocketKeeps(s: State, fd: nat, but: set<Spot>)
    requires Inv(s, but) && s.alive && fd !in s.os.fds
    ensures Inv(Respond(s, OpenSocket(true, Inet, Some(fd))), but)
  {
    hide Waits, OsOk, SockOk, Respond, Grown, Curl, Owned, Linked, Accounted, AllOpen;
    var q := Respond(s, OpenSocket(true, Inet, Some(fd)));
    var k := Sock(fd, false, fd, |s.os.made|, true, NoDirs, NoDirs);
    NewNumber(s, fd, but);
    OpenSocketUnfolds(s, fd);
    GrownTable(s, q, k);
    GrownWaits(s, q, k, but);
    OpenedCurl(s, q, k);
  }

  lemma OpenedCurl(s: State, q: State, k: Sock)
    requires OsOk(s.os) && Table(s) && Table(q) && Curl(s) && !Lists(s.held, k.fd)
    requires Grown(s, q, k) && !k.borrowed && q.held == s.held + [Held(k.fd, k.serial, false)] && q.polled == s.polled
    ensures Curl(q)
  {
    hide OsOk, Table, Owned, Linked, Accounted, Grown;
    OpenedOwned(s, q, k);
    OpenedLinked(s, q, k);
    OpenedAccounted(s, q, k);
  }

  lemma OpenedLinked(s: State, q: State, k: Sock)
    requires Linked(s) && Grown(s, q, k) && !k.borrowed
    requires q.held == s.held + [Held(k.fd, k.serial, false)] && q.polled == s.polled
    ensures Linked(q)
  {
    hide Grown;
    ListsGrown(s.held, Held(k.fd, k.serial, false));
    OpenedLinks(s, q, k);
  }

  lemma OpenedAccounted(s: State, q: State, k: Sock)
    requires Accounted(s) && Grown(s, q, k) && !k.borrowed && q.held == s.held + [Held(k.fd, k.serial, false)]
    requires q.polled == s.polled
    ensures Accounted(q)
  {
    hide Grown, Backs, ListsNative;
    ListsGrown(s.held, Held(k.fd, k.serial, false));
    GrownDups(s, q, k);
    OpenedLinks(s, q, k);
  }

  lemma OpenedOwned(s: State, q: State, k: Sock)
    requires OsOk(s.os) && Table(s) && Table(q) && Owned(s) && !Lists(s.held, k.fd)
    requires Grown(s, q, k) && !k.borrowed && q.held == s.held + [Held(k.fd, k.serial, false)]
    ensures Owned(q)
  {
    hide OsOk;
    ListsGrown(s.held, Held(k.fd, k.serial, false));
    forall i | 0 <= i < |s.held| ensures HeldOk(q, s.held[i]) {
      assert HeldOk(s, s.held[i]) && Lists(s.held, s.held[i].fd);
      GrownHeld(s, q, k, i);
    }
  }

  lemma OpenedLinks(s: State, q: State, k: Sock)
    requires Grown(s, q, k) && !k.borrowed && q.polled == s.polled
    ensures q.sockets == s.sockets[k.fd := |s.socks|] && k.fd !in s.sockets && q.os.fds.Keys == s.os.fds.Keys + {k.handle}
    ensures k.handle == k.fd && |q.socks| == |s.socks| + 1 && q.socks[|s.socks|] == k
    ensures forall g :: 0 <= g < |s.socks| ==> q.socks[g] == s.socks[g]
    ensures forall g :: 0 <= g < |s.socks| && InMap(q, g) ==> InMap(s, g)
  {
  }

  lemma OpenSocketUnfolds(s: State, fd: nat)
    requires s.alive && fd !in s.os.fds && fd !in s.sockets
    ensures var q := Respond(s, OpenSocket(true, Inet, Some(fd)));
      && Grown(s, q, Sock(fd, false, fd, |s.os.made|, true, NoDirs, NoDirs))
      && q.held == s.held + [Held(fd, |s.os.made|, false)] && q.polled == s.polled
  {
    assert |OpenSocketCb(s, true, Inet, Some(fd)).socks| == |s.socks| + 1;
  }

  lemma OpenNativeKeeps(s: State, fd: nat, but: set<Spot>)
    requires Inv(s, but) && s.alive && fd !in s.os.fds
    ensures Inv(Respond(s, OpenNative(fd)), but)
  {
    hide Waits, Owned, Linked, Accounted;
    var q := Respond(s, OpenNative(fd));
    NewNumber(s, fd, but);
    OpenKeeps(s.os, fd);
    forall g | 0 <= g < |q.socks| ensures SockOk(q, g) {
      assert SockOk(s, g) && (InMap(q, g) <==> InMap(s, g));
    }
    OpenedNative(s, q, fd);
    SameSockWaits(s, q, but);
  }

  lemma OpenedNative(s: State, q: State, fd: nat)
    requires OsOk(s.os) && Table(s) && Table(q) && Curl(s) && fd !in s.os.fds && !Lists(s.held, fd) && fd !in s.sockets
    requires q == s.(os := Open(s.os, fd), held := s.held + [Held(fd, |s.os.made|, true)])
    ensures Curl(q)
  {
    hide OsOk, Table, HeldOk, Accounted;
    ListsGrown(s.held, Held(fd, |s.os.made|, true));
    forall i | 0 <= i < |q.held| ensures HeldOk(q, q.held[i]) {
      assert i < |s.held| ==> HeldOk(s, s.held[i]);
      OpenedNativeHeld(s, q, fd, q.held[i]);
    }
    OpenedNativeAccounted(s, q, fd);
  }

  lemma OpenedNativeHeld(s: State, q: State, fd: nat, h: Held)
    requires OsOk(s.os) && Table(s) && Table(q) && fd !in s.os.fds && fd !in s.sockets
    requires q == s.(os := Open(s.os, fd), held := s.held + [Held(fd, |s.os.made|, true)])
    requires h == Held(fd, |s.os.made|, true) || (HeldOk(s, h) && h.fd != fd)
    ensures HeldOk(q, h)
  {
    OpenKeeps(s.os, fd);
    assert forall g :: 0 <= g < |s.socks| && s.socks[g].open ==> SockOk(s, g);
  }

  lemma OpenedNativeAccounted(s: State, q: State, fd: nat)
    requires Accounted(s)
    requires q == s.(os := Open(s.os, fd), held := s.held + [Held(fd, |s.os.made|, true)])
    ensures Accounted(q)
  {
    ListsGrown(s.held, Held(fd, |s.os.made|, true));
    forall x | Backs(s, x) ensures Backs(q, x) {
      var g :| 0 <= g < |s.socks| && s.socks[g].open && s.socks[g].handle == x;
      assert q.socks[g].handle == x;
    }
  }

  /** The waits only depend on the socket states and the map. */
  lemma SameSockWaits(s: State, q: State, but: set<Spot>)
    requires Waits(s, but) && q.socks == s.socks && q.sockets == s.sockets && q.waits == s.waits
    ensures Waits(q, but)
  {
    forall i | 0 <= i < |q.waits| ensures WaitOk(q, q.waits[i]) {
      assert WaitOk(s, s.waits[i]);
    }
    forall h, d | 0 <= h < |q.socks| && InMap(q, h) ensures ArmedOk(q, h, d, but) {
      assert InMap(s, h) && ArmedOk(s, h, d, but);
    }
  }

  lemma SameTable(s: State, q: State)
    requires Table(s) && q.socks == s.socks && q.sockets == s.sockets && q.os == s.os && q.alive == s.alive
    ensures Table(q) && (AllOpen(s) ==> AllOpen(q))
    ensures forall h :: HeldOk(s, h) ==> HeldOk(q, h)
    ensures forall g :: InMap(q, g) <==> InMap(s, g)
    ensures forall fd :: Backs(s, fd) ==> Backs(q, fd)
  {
    forall g | 0 <= g < |q.socks| ensures SockOk(q, g) {
      assert SockOk(s, g);
    }
  }

  /** A dup is made, watched and assigned for one of libcurl's own descriptors. */
  lemma BorrowKeeps(s: State, q: State, fd: nat, dup: nat, but: set<Spot>)
    requires Inv(s, but) && Lists(s.held, fd) && fd !in s.sockets && dup !in s.os.fds
    requires q == Borrow(s, fd, Borrowed(dup)).0.(polled := s.polled[fd := Some(|s.socks|)])
    ensures Inv(q, but) && InMap(q, |s.socks|)
  {
    hide OsOk, Table, Owned, Linked, Accounted, Waits, Sound, AllOpen;
    var k := Sock(fd, true, dup, |s.os.made|, true, NoDirs, NoDirs);
    assert Grown(s, q, k);
    GrownTable(s, q, k);
    GrownWaits(s, q, k, but);
    BorrowedOwned(s, q, k);
    BorrowedLinked(s, q, k);
    GrownDups(s, q, k);
    BorrowedAccounted(s, q, k);
    SoundSame(s, q);
  }

  lemma SoundSame(s: State, q: State)
    requires Sound(s) && q.dangling == s.dangling && q.drives == s.drives
    ensures Sound(q)
  {
  }

  lemma BorrowedOwned(s: State, q: State, k: Sock)
    requires OsOk(s.os) && Table(s) && Table(q) && Owned(s) && Grown(s, q, k) && k.borrowed && q.held == s.held
    ensures Owned(q)
  {
    hide OsOk, Table;
    forall i | 0 <= i < |q.held| ensures HeldOk(q, q.held[i]) {
      assert HeldOk(s, s.held[i]);
      NotOurs(s, k.fd, s.held[i]);
      GrownHeld(s, q, k, i);
    }
  }

  /** A descriptor libcurl has and the client does not know is one libcurl made. */
  lemma NotOurs(s: State, fd: nat, h: Held)
    requires Table(s) && HeldOk(s, h) && fd !in s.sockets
    ensures h.fd == fd ==> h.native
  {
  }

  lemma BorrowedLinked(s: State, q: State, k: Sock)
    requires Linked(s) && Grown(s, q, k) && k.borrowed && q.held == s.held && Lists(s.held, k.fd)
    requires q.polled == s.polled[k.fd := Some(|s.socks|)]
    ensures Linked(q)
  {
    GrownMap(s, q, k);
    forall g | 0 <= g < |q.socks| && InMap(q, g) && q.socks[g].borrowed
      ensures q.socks[g].fd in q.polled && q.polled[q.socks[g].fd] == Some(g) {
      assert g < |s.socks| ==> InMap(s, g);
    }
  }

  lemma BorrowedAccounted(s: State, q: State, k: Sock)
    requires Accounted(s) && Grown(s, q, k) && q.held == s.held && Backs(q, k.handle)
    requires forall fd :: Backs(s, fd) ==> Backs(q, fd)
    ensures Accounted(q)
  {
    hide Backs, ListsNative;
  }

  lemma PolledKeeps(s: State, fd: nat, but: set<Spot>)
    requires Inv(s, but) && Lists(s.held, fd) && fd !in s.polled
    ensures Inv(s.(polled := s.polled[fd := None]), but)
  {
    hide Waits, OsOk, Table, HeldOk, Backs;
    var q := s.(polled := s.polled[fd := None]);
    SameTable(s, q);
    SameSockWaits(s, q, but);
  }

  // ---- closing ----

  function Shut(s: State, g: nat): State
    requires g < |s.socks|
  {
    CloseSocket(SetWatch(s, g, NoDirs), g)
  }

  /** q is s with state g unwatched and its socket, if it was open, closed. */
  ghost predicate ShutAt(s: State, q: State, g: nat)
    requires InMap(s, g)
  {
    var k := s.socks[g];
    && q == s.(socks := s.socks[g := k.(open := false, watch := NoDirs)], os := q.os, waits := q.waits)
    && q.os == (if k.open then Close(s.os, k.handle, k.serial) else s.os)
    && q.waits == if k.open then AbortWaits(s.waits, g) else s.waits
  }

  lemma ShutTable(s: State, q: State, g: nat)
    requires OsOk(s.os) && Table(s) && InMap(s, g) && ShutAt(s, q, g)
    ensures OsOk(q.os) && Table(q)
    ensures forall h :: InMap(q, h) <==> InMap(s, h)
    ensures s.socks[g].open ==> q.os.fds == s.os.fds - {s.socks[g].handle}
  {
    var k := s.socks[g];
    assert SockOk(s, g);
    if k.open {
      CloseKeeps(s.os, k.handle, k.serial);
    }
    forall h | 0 <= h < |q.socks| ensures SockOk(q, h) {
      assert SockOk(s, h) && (InMap(q, h) <==> InMap(s, h));
    }
  }

  lemma ShutCurl(s: State, q: State, g: nat)
    requires OsOk(s.os) && Table(s) && InMap(s, g) && ShutAt(s, q, g) && Curl(s) && Table(q)
    ensures Curl(q)
  {
    var k := s.socks[g];
    assert SockOk(s, g);
    if k.open {
      CloseKeeps(s.os, k.handle, k.serial);
    }
    forall i | 0 <= i < |q.held| ensures HeldOk(q, q.held[i]) {
      assert HeldOk(s, s.held[i]);
    }
    forall fd | fd in q.os.fds && Backs(s, fd) ensures Backs(q, fd) {
      var h :| 0 <= h < |s.socks| && s.socks[h].open && s.socks[h].handle == fd;
      assert h != g && q.socks[h] == s.socks[h];
    }
  }

  lemma ShutWaits(s: State, q: State, g: nat, but: set<Spot>)
    requires InMap(s, g) && ShutAt(s, q, g) && Waits(s, but)
    ensures Waits(q, but)
  {
    CountSame(s.waits, q.waits);
    forall i | 0 <= i < |q.waits| ensures WaitOk(q, q.waits[i]) {
      assert WaitOk(s, s.waits[i]);
    }
    forall h, d | 0 <= h < |q.socks| && InMap(q, h) ensures ArmedOk(q, h, d, but) {
      assert InMap(s, h) && ArmedOk(s, h, d, but);
    }
  }

  lemma ShutKeeps(s: State, g: nat, but: set<Spot>)
    requires Core(s, but) && InMap(s, g)
    ensures ShutAt(s, Shut(s, g), g) && Core(Shut(s, g), but)
    ensures forall h :: InMap(Shut(s, g), h) <==> InMap(s, h)
  {
    hide OsOk, Table, Curl, Waits;
    var q := Shut(s, g);
    ShutTable(s, q, g);
    ShutCurl(s, q, g);
    ShutWaits(s, q, g, but);
  }

  /** A shut state of a borrowed descriptor leaves sockets_, and libcurl forgets its pointer to it. */
  lemma EraseBorrowed(s: State, q: State, g: nat, but: set<Spot>)
    requires Core(s, but) && InMap(s, g) && s.socks[g].borrowed && !s.socks[g].open && s.socks[g].watch == NoDirs
    requires q == s.(sockets := s.sockets - {s.socks[g].fd}, polled := s.polled - {s.socks[g].fd})
    ensures Core(q, but)
    ensures forall h :: InMap(q, h) <==> InMap(s, h) && h != g
  {
    ErasedTable(s, q, g);
    forall i | 0 <= i < |q.held| ensures HeldOk(q, q.held[i]) {
      assert HeldOk(s, s.held[i]);
    }
    assert forall fd :: Backs(s, fd) ==> Backs(q, fd);
    FewerWaits(s, q, but);
  }

  lemma ErasedTable(s: State, q: State, g: nat)
    requires Table(s) && InMap(s, g) && !s.socks[g].open && s.socks[g].watch == NoDirs
    requires q.socks == s.socks && q.sockets == s.sockets - {s.socks[g].fd} && q.os == s.os
    ensures Table(q)
    ensures forall h :: InMap(q, h) <==> InMap(s, h) && h != g
  {
    forall h | 0 <= h < |q.socks| ensures SockOk(q, h) {
      assert SockOk(s, h);
    }
  }

  lemma FewerWaits(s: State, q: State, but: set<Spot>)
    requires Waits(s, but) && q.socks == s.socks && q.waits == s.waits
    requires forall h :: InMap(q, h) ==> InMap(s, h)
    ensures Waits(q, but)
  {
    forall i | 0 <= i < |q.waits| ensures WaitOk(q, q.waits[i]) {
      assert WaitOk(s, s.waits[i]);
    }
    forall h, d | 0 <= h < |q.socks| && InMap(q, h) ensures ArmedOk(q, h, d, but) {
      assert InMap(s, h) && ArmedOk(s, h, d, but);
    }
  }

  /** libcurl gives up a descriptor of ours whose socket is closed. */
  lemma ReleaseOurs(s: State, q: State, i: nat, but: set<Spot>)
    requires Core(s, but) && i < |s.held| && !s.held[i].native && s.held[i].fd in s.sockets
    requires var g := s.sockets[s.held[i].fd]; g < |s.socks| && !s.socks[g].open && s.socks[g].watch == NoDirs
    requires q == s.(sockets := s.sockets - {s.held[i].fd}, polled := s.polled - {s.held[i].fd}, held := RemoveAt(s.held, i))
    ensures Core(q, but)
    ensures forall h :: InMap(q, h) <==> InMap(s, h) && h != s.sockets[s.held[i].fd]
  {
    hide OsOk, Table, Waits, HeldOk, Owned, Linked, Accounted;
    OwnedAt(s, i);
    var g := s.sockets[s.held[i].fd];
    KeyOf(s, s.held[i].fd);
    ErasedTable(s, q, g);
    GivenUpOwned(s, q, i);
    GivenUpBorrowed(s, i);
    GivenUpLinked(s, q, i);
    GivenUpAccounted(s, q, i);
    FewerWaits(s, q, but);
  }

  lemma OwnedAt(s: State, i: nat)
    requires Table(s) && Owned(s) && i < |s.held|
    ensures HeldOk(s, s.held[i]) && Distinct(s.held)
  {
  }

  lemma GivenUpLinked(s: State, q: State, i: nat)
    requires Linked(s) && Distinct(s.held) && i < |s.held| && s.held[i].fd in s.sockets
    requires forall g :: 0 <= g < |s.socks| && InMap(s, g) && s.socks[g].borrowed ==> s.socks[g].fd != s.held[i].fd
    requires forall h :: InMap(q, h) ==> InMap(s, h)
    requires q == s.(sockets := s.sockets - {s.held[i].fd}, polled := s.polled - {s.held[i].fd}, held := RemoveAt(s.held, i))
    ensures Linked(q)
  {
    ListsShrunk(s.held, i);
  }

  lemma GivenUpAccounted(s: State, q: State, i: nat)
    requires Accounted(s) && Distinct(s.held) && i < |s.held| && !s.held[i].native
    requires q.socks == s.socks && q.os == s.os && q.held == RemoveAt(s.held, i)
    ensures Accounted(q)
  {
    ListsShrunk(s.held, i);
    assert forall fd :: Backs(s, fd) ==> Backs(q, fd);
  }

  lemma KeyOf(s: State, fd: nat)
    requires Table(s) && fd in s.sockets
    ensures InMap(s, s.sockets[fd]) && s.socks[s.sockets[fd]].fd == fd
  {
  }

  lemma GivenUpBorrowed(s: State, i: nat)
    requires Table(s) && i < |s.held| && HeldOk(s, s.held[i]) && !s.held[i].native
    ensures forall g :: 0 <= g < |s.socks| && InMap(s, g) && s.socks[g].borrowed ==> s.socks[g].fd != s.held[i].fd
  {
  }

  lemma GivenUpOwned(s: State, q: State, i: nat)
    requires Table(s) && Table(q) && Owned(s) && i < |s.held|
    requires q.sockets == s.sockets - {s.held[i].fd} && q.socks == s.socks && q.os == s.os && q.held == RemoveAt(s.held, i)
    ensures Owned(q)
  {
    hide Table;
    ListsShrunk(s.held, i);
    forall j | 0 <= j < |q.held| ensures HeldOk(q, q.held[j]) {
      var o := if j < i then j else j + 1;
      assert q.held[j] == s.held[o] && HeldOk(s, s.held[o]) && s.held[o].fd != s.held[i].fd;
    }
  }

  lemma ReleasedTable(s: State, q: State, i: nat)
    requires Table(s) && OsOk(s.os) && i < |s.held| && s.held[i].native && HeldOk(s, s.held[i])
    requires q.os == Close(s.os, s.held[i].fd, s.held[i].serial) && q.socks == s.socks && q.sockets == s.sockets
    ensures Table(q)
  {
    CloseKeeps(s.os, s.held[i].fd, s.held[i].serial);
    forall h | 0 <= h < |q.socks| ensures SockOk(q, h) {
      assert SockOk(s, h) && (InMap(q, h) <==> InMap(s, h));
    }
  }

  lemma ReleasedOwned(s: State, q: State, i: nat)
    requires Table(s) && Table(q) && OsOk(s.os) && Owned(s) && i < |s.held| && s.held[i].native
    requires q.os == Close(s.os, s.held[i].fd, s.held[i].serial) && q.socks == s.socks && q.sockets == s.sockets
    requires q.held == RemoveAt(s.held, i)
    ensures Owned(q)
  {
    hide Table;
    assert HeldOk(s, s.held[i]);
    CloseKeeps(s.os, s.held[i].fd, s.held[i].serial);
    ListsShrunk(s.held, i);
    forall j | 0 <= j < |q.held| ensures HeldOk(q, q.held[j]) {
      var o := if j < i then j else j + 1;
      assert q.held[j] == s.held[o] && HeldOk(s, s.held[o]) && s.held[o].fd != s.held[i].fd;
    }
  }

  /** A native descriptor no state stands for is closed. */
  lemma ReleaseNative(s: State, q: State, i: nat, but: set<Spot>)
    requires Core(s, but) && i < |s.held| && s.held[i].native && s.held[i].fd !in s.sockets
    requires q == s.(os := Close(s.os, s.held[i].fd, s.held[i].serial), polled := s.polled - {s.held[i].fd},
                     held := RemoveAt(s.held, i))
    ensures Core(q, but) && q.os.fds == s.os.fds - {s.held[i].fd}
    ensures forall h :: InMap(q, h) <==> InMap(s, h)
  {
    hide OsOk, Table, Waits, HeldOk, Close;
    assert HeldOk(s, s.held[i]);
    ClosedNative(s, i);
    ReleasedTable(s, q, i);
    ReleasedOwned(s, q, i);
    ListsShrunk(s.held, i);
    FewerWaits(s, q, but);
  }

  lemma ClosedNative(s: State, i: nat)
    requires OsOk(s.os) && Table(s) && i < |s.held| && HeldOk(s, s.held[i]) && s.held[i].native
    ensures var o := Close(s.os, s.held[i].fd, s.held[i].serial); OsOk(o) && o.fds == s.os.fds - {s.held[i].fd}
  {
    CloseKeeps(s.os, s.held[i].fd, s.held[i].serial);
  }

  // ---- what libcurl does ----

  lemma PointerIsGood(s: State, fd: nat)
    requires Table(s) && Linked(s)
    ensures fd in s.polled && s.polled[fd].Some? ==> InMap(s, s.polled[fd].value) && s.socks[s.polled[fd].value].fd == fd
    ensures fd in s.sockets ==> InMap(s, s.sockets[fd]) && s.socks[s.sockets[fd]].fd == fd
  {
  }

  /** A known state gets attached to a descriptor libcurl begins to watch. */
  lemma AttachKeeps(s: State, fd: nat, but: set<Spot>)
    requires Inv(s, but) && fd in s.polled && fd in s.sockets
    ensures Inv(s.(polled := s.polled[fd := Some(s.sockets[fd])]), but)
  {
    hide Waits, OsOk, Table, HeldOk, Backs;
    PointerIsGood(s, fd);
    var q := s.(polled := s.polled[fd := Some(s.sockets[fd])]);
    SameTable(s, q);
    SameSockWaits(s, q, but);
  }

  lemma AssignFailsKeeps(s: State, dup: nat, but: set<Spot>)
    requires Inv(s, but) && dup !in s.os.fds
    ensures Inv(s.(os := Close(Open(s.os, dup), dup, |s.os.made|)), but)
  {
    var q := s.(os := Close(Open(s.os, dup), dup, |s.os.made|));
    hide OsOk, Waits, Open, Close;
    FleetingDup(s.os, dup);
    SameNumbers(s, q);
    SameSockWaits(s, q, but);
  }

  lemma FleetingDup(o: Os, dup: nat)
    requires OsOk(o) && dup !in o.fds
    ensures var p := Close(Open(o, dup), dup, |o.made|); OsOk(p) && p.fds == o.fds
  {
    OpenKeeps(o, dup);
    CloseKeeps(Open(o, dup), dup, |o.made|);
  }

  lemma SameNumbers(s: State, q: State)
    requires Table(s) && Curl(s) && q == s.(os := q.os) && q.os.fds == s.os.fds
    ensures Table(q) && Curl(q) && (AllOpen(s) ==> AllOpen(q))
  {
    forall h | 0 <= h < |q.socks| ensures SockOk(q, h) {
      assert SockOk(s, h) && (InMap(q, h) <==> InMap(s, h));
    }
    forall i | 0 <= i < |q.held| ensures HeldOk(q, q.held[i]) {
      assert HeldOk(s, s.held[i]);
    }
    assert forall fd :: Backs(s, fd) ==> Backs(q, fd);
  }

  /** socket_cb finds, makes or fails to get a state, and watches it. */
  lemma PollKeeps(s: State, fd: nat, what: Dirs, env: DupEnv, but: set<Spot>)
    requires Inv(s, but) && Lists(s.held, fd) && fd in s.polled && Possible(s.os, env)
    ensures Inv(SocketCb(s, fd, Some(what), s.polled[fd], env), but)
  {
    hide Inv, OsOk, Owned, Accounted, Waits, Sound, Arm, SetWatch;
    IsCore(s, but);
    PointerIsGood(s, fd);
    if s.polled[fd].Some? {
      WatchKeeps(s, s.polled[fd].value, what, but);
    } else if fd in s.sockets {
      AttachKeeps(s, fd, but);
      var q := s.(polled := s.polled[fd := Some(s.sockets[fd])]);
      assert InMap(q, s.sockets[fd]);
      WatchKeeps(q, s.sockets[fd], what, but);
    } else {
      match env
      case DupFails =>
      case AssignFails(dup) => AssignFailsKeeps(s, dup, but);
      case Borrowed(dup) =>
        var q := Borrow(s, fd, env).0.(polled := s.polled[fd := Some(|s.socks|)]);
        BorrowKeeps(s, q, fd, dup, but);
        WatchKeeps(q, |s.socks|, what, but);
    }
  }

  lemma IsCore(s: State, but: set<Spot>)
    requires Inv(s, but)
    ensures Core(s, but) && AllOpen(s) && OsOk(s.os) && Table(s) && Curl(s) && Waits(s, but)
  {
  }

  lemma ErasedOpen(s: State, q: State, g: nat)
    requires AllOpen(s) && q.alive == s.alive && |q.socks| == |s.socks|
    requires forall h :: InMap(q, h) ==> InMap(s, h) && h != g
    requires forall h :: 0 <= h < |s.socks| && h != g ==> q.socks[h].open == s.socks[h].open
    ensures AllOpen(q)
  {
  }

  lemma UnpollKeeps(s: State, fd: nat, but: set<Spot>)
    requires Inv(s, but) && fd in s.polled
    ensures Inv(Respond(s, Unpoll(fd)), but)
  {
    hide Inv, OsOk, Owned, Accounted, Waits, Sound;
    IsCore(s, but);
    PointerIsGood(s, fd);
    var q := Respond(s, Unpoll(fd));
    if s.polled[fd].None? {
      UnpolledOurs(s, q, fd, but);
    } else {
      var g := s.polled[fd].value;
      if s.socks[g].borrowed {
        ShutKeeps(s, g, but);
        EraseBorrowed(Shut(s, g), q, g, but);
        ErasedOpen(s, q, g);
        CoreIsInv(q, but);
      } else {
        UnwatchKeeps(s, g, but);
        UnpolledOurs(SetWatch(s, g, NoDirs), q, fd, but);
      }
    }
  }

  lemma CoreIsInv(s: State, but: set<Spot>)
    requires Core(s, but) && AllOpen(s)
    ensures Inv(s, but)
  {
  }

  lemma UnwatchKeeps(s: State, g: nat, but: set<Spot>)
    requires Inv(s, but) && InMap(s, g)
    ensures Inv(SetWatch(s, g, NoDirs), but)
  {
    var q := SetWatch(s, g, NoDirs);
    ReflaggedKeeps(s, q);
    forall i | 0 <= i < |q.waits| ensures WaitOk(q, q.waits[i]) {
      assert WaitOk(s, s.waits[i]);
    }
    forall h, d | 0 <= h < |q.socks| && InMap(q, h) ensures ArmedOk(q, h, d, but) {
      assert InMap(s, h) && ArmedOk(s, h, d, but);
    }
  }

  /** libcurl no longer wants a descriptor watched that is not borrowed. */
  lemma UnpolledOurs(s: State, q: State, fd: nat, but: set<Spot>)
    requires Inv(s, but) && fd in s.polled
    requires fd in s.sockets && s.polled[fd].Some? ==> s.sockets[fd] < |s.socks| && !s.socks[s.sockets[fd]].borrowed
    requires q == s.(polled := s.polled - {fd})
    ensures Inv(q, but)
  {
    hide OsOk, Waits, HeldOk, Backs;
    SameTable(s, q);
    SameSockWaits(s, q, but);
  }

  lemma CloseHeldUnfolds(s: State, fd: nat, i: nat)
    requires HeldAt(s.held, fd) == Some(i) && (fd in s.sockets ==> InMap(s, s.sockets[fd]) && s.socks[s.sockets[fd]].fd == fd)
    ensures var q := s.(os := Close(s.os, fd, s.held[i].serial), polled := s.polled - {fd}, held := RemoveAt(s.held, i));
      fd !in s.sockets ==> Respond(s, CloseHeld(fd)) == q
    ensures fd in s.sockets ==>
      (var g := s.sockets[fd];
       var t := Shut(s, g).(sockets := s.sockets - {fd}, polled := s.polled - {fd});
       Respond(s, CloseHeld(fd)) ==
         t.(os := if s.socks[g].borrowed then Close(t.os, fd, s.held[i].serial) else t.os, held := RemoveAt(s.held, i)))
  {
    hide Close;
  }

  lemma CloseHeldKeeps(s: State, fd: nat, but: set<Spot>)
    requires Inv(s, but) && Holds(s, fd)
    ensures Inv(Respond(s, CloseHeld(fd)), but)
  {
    hide Inv, OsOk, Linked, Accounted, Waits, Sound, Respond, Shut, Close;
    IsCore(s, but);
    var i := HeldAt(s.held, fd).value;
    var q := Respond(s, CloseHeld(fd));
    PointerIsGood(s, fd);
    CloseHeldUnfolds(s, fd, i);
    assert HeldOk(s, s.held[i]);
    if fd !in s.sockets {
      ReleaseNative(s, q, i, but);
      ErasedOpen(s, q, |s.socks|);
      CoreIsInv(q, but);
    } else if s.held[i].native {
      CloseBorrowedKeeps(s, q, fd, i, but);
    } else {
      CloseOursKeeps(s, q, fd, i, but);
    }
  }

  /** The descriptor and its dup are closed, in whichever order the client and libcurl were done with it. */
  lemma CloseBorrowedKeeps(s: State, q: State, fd: nat, i: nat, but: set<Spot>)
    requires Inv(s, but) && i < |s.held| && s.held[i].fd == fd && s.held[i].native
    requires fd in s.sockets && InMap(s, s.sockets[fd]) && s.socks[s.sockets[fd]].fd == fd && s.socks[s.sockets[fd]].borrowed
    requires var t := Shut(s, s.sockets[fd]).(sockets := s.sockets - {fd}, polled := s.polled - {fd});
      q == t.(os := Close(t.os, fd, s.held[i].serial), held := RemoveAt(s.held, i))
    ensures Inv(q, but)
  {
    hide Inv, OsOk, Table, Curl, Waits, Sound, Shut, Close;
    IsCore(s, but);
    var g := s.sockets[fd];
    var t := Shut(s, g);
    ShutKeeps(s, g, but);
    var u := t.(sockets := t.sockets - {fd}, polled := t.polled - {fd});
    EraseBorrowed(t, u, g, but);
    ReleaseNative(u, q, i, but);
    ErasedOpen(s, q, g);
    CoreIsInv(q, but);
  }

  lemma CloseOursKeeps(s: State, q: State, fd: nat, i: nat, but: set<Spot>)
    requires Inv(s, but) && i < |s.held| && s.held[i].fd == fd && !s.held[i].native
    requires fd in s.sockets && InMap(s, s.sockets[fd]) && s.socks[s.sockets[fd]].fd == fd && !s.socks[s.sockets[fd]].borrowed
    requires q == Shut(s, s.sockets[fd]).(sockets := s.sockets - {fd}, polled := s.polled - {fd}, held := RemoveAt(s.held, i))
    ensures Inv(q, but)
  {
    hide Inv, OsOk, Table, Curl, Waits, Sound, Shut, Close;
    IsCore(s, but);
    var g := s.sockets[fd];
    ShutKeeps(s, g, but);
    ReleaseOurs(Shut(s, g), q, i, but);
    ErasedOpen(s, q, g);
    CoreIsInv(q, but);
  }

  lemma CloseOwnKeeps(s: State, fd: nat, but: set<Spot>)
    requires Inv(s, but) && Legal(s, CloseOwn(fd))
    ensures Inv(Respond(s, CloseOwn(fd)), but)
  {
    hide OsOk, Accounted, Waits, Sound;
    var i := HeldAt(s.held, fd).value;
    PointerIsGood(s, fd);
    assert HeldOk(s, s.held[i]);
    ReleaseNative(s, Respond(s, CloseOwn(fd)), i, but);
  }

  /** States are never forgotten, and libcurl's doings are no events of the client. */
  ghost predicate Later(s: State, t: State) {
    |s.socks| <= |t.socks| && t.alive == s.alive && t.drives == s.drives
  }

  lemma RespondLater(s: State, a: Act)
    ensures Later(s, Respond(s, a))
  {
    hide Open, Close, AbortWaits, CloseSocketCb, SocketCb;
    match a
    case Poll(fd, what, env) =>
      var socketp := if fd in s.polled then s.polled[fd] else None;
      SocketCbLater(s.(polled := s.polled[fd := socketp]), fd, Some(what), socketp, env);
    case Unpoll(fd) => if fd in s.polled { SocketCbLater(s, fd, None, s.polled[fd], DupFails); }
    case CloseHeld(fd) => if Holds(s, fd) { CloseSocketCbLater(s, fd, s.held[HeldAt(s.held, fd).value].serial); }
    case _ =>
  }

  lemma SocketCbLater(s: State, fd: nat, what: Option<Dirs>, socketp: Option<nat>, env: DupEnv)
    ensures Later(s, SocketCb(s, fd, what, socketp, env))
  {
    hide Open, Close, Attend;
    if socketp.Some? {
      AttendLater(s, fd, what, socketp.value);
    } else if what.Some? {
      var (q, g) := if fd in s.sockets then (s, Some(s.sockets[fd])) else Borrow(s, fd, env);
      if g.Some? {
        AttendLater(q.(polled := q.polled[fd := g]), fd, what, g.value);
      }
    }
  }

  lemma AttendLater(s: State, fd: nat, what: Option<Dirs>, g: nat)
    ensures Later(s, Attend(s, fd, what, g))
  {
    hide Open, Close, AbortWaits;
  }

  lemma CloseSocketCbLater(s: State, fd: nat, serial: nat)
    ensures Later(s, CloseSocketCb(s, fd, serial))
  {
    hide Close, AbortWaits;
  }

  lemma RespondKeeps(s: State, a: Act, but: set<Spot>)
    requires Inv(s, but)
    ensures Inv(Respond(s, a), but)
  {
    hide Inv, SocketCb, OpenSocketCb, CloseSocketCb;
    if Legal(s, a) {
      match a
      case OpenSocket(ip, family, got) =>
        OpenSocketCases(s, ip, family, got);
        if got.Some? { OpenSocketKeeps(s, got.value, but); }
      case OpenNative(fd) => OpenNativeKeeps(s, fd, but);
      case Poll(fd, what, env) =>
        HoldsLists(s, fd);
        var socketp := if fd in s.polled then s.polled[fd] else None;
        var q := s.(polled := s.polled[fd := socketp]);
        if fd in s.polled {
          assert q == s;
        } else {
          PolledKeeps(s, fd, but);
        }
        PollKeeps(q, fd, what, env, but);
      case Unpoll(fd) => UnpollKeeps(s, fd, but);
      case CloseHeld(fd) => CloseHeldKeeps(s, fd, but);
      case CloseOwn(fd) => CloseOwnKeeps(s, fd, but);
    }
  }

  lemma OpenSocketCases(s: State, ip: bool, family: Family, got: Option<nat>)
    ensures var q := Respond(s, OpenSocket(ip, family, got));
      q == s || (got.Some? && q == Respond(s, OpenSocket(true, Inet, got)))
  {
  }

  /** What libcurl remembers wanting is no part of this. */
  lemma WantedFrame(s: State, wanted: map<nat, Dirs>, but: set<Spot>)
    requires Inv(s, but)
    ensures Inv(s.(wanted := wanted), but)
  {
    hide Waits, OsOk, Table, HeldOk, Backs;
    var q := s.(wanted := wanted);
    SameTable(s, q);
    SameSockWaits(s, q, but);
  }

  lemma DoLater(s: State, a: Act)
    ensures Later(s, Do(s, a))
  {
    hide Respond, NowWanted;
    RespondLater(s, a);
  }

  lemma DoKeeps(s: State, a: Act, but: set<Spot>)
    requires Inv(s, but)
    ensures Inv(Do(s, a), but)
  {
    hide Inv, Respond, NowWanted;
    RespondKeeps(s, a, but);
    WantedFrame(Respond(s, a), NowWanted(s, a), but);
  }

  // ---- what is wanted and what is watched ----

  /** Each state libcurl was given for a descriptor it wants watched watches what libcurl asked for last, and no other watches anything. */
  ghost predicate Heeded(s: State) {
    s.alive ==>
      && s.wanted.Keys == s.polled.Keys
      && (forall fd :: fd in s.polled && s.polled[fd].Some? ==>
            s.polled[fd].value < |s.socks| && s.socks[s.polled[fd].value].watch == s.wanted[fd])
      && (forall fd :: fd in s.sockets && s.sockets[fd] < |s.socks| && s.socks[s.sockets[fd]].watch != NoDirs ==>
            fd in s.polled && s.polled[fd] == Some(s.sockets[fd]))
  }

  /** What watching comes to after s: state g is for fd and watches w, and every other state what it did. */
  ghost predicate Rewatched(s: State, t: State, fd: nat, g: nat, w: Dirs) {
    && g < |t.socks| && |s.socks| <= |t.socks| <= |s.socks| + 1 && (|t.socks| > |s.socks| ==> g == |s.socks|)
    && t.socks[g].watch == w && t.sockets == s.sockets[fd := g]
    && (forall h :: 0 <= h < |s.socks| && h != g ==> t.socks[h].watch == s.socks[h].watch)
    && t.polled == s.polled[fd := Some(g)] && t.alive == s.alive
  }

  lemma WatchOnly(s: State, g: nat, w: Dirs)
    requires g < |s.socks|
    ensures var t := Arm(SetWatch(s, g, w), g);
      && |t.socks| == |s.socks| && t.socks[g].watch == w && t == s.(socks := t.socks, waits := t.waits)
      && forall h :: 0 <= h < |s.socks| && h != g ==> t.socks[h].watch == s.socks[h].watch
  {
  }

  /** A known descriptor's own state watches it. */
  lemma PollKnown(s: State, fd: nat, what: Dirs, env: DupEnv)
    requires Table(s) && Linked(s) && Legal(s, Poll(fd, what, env)) && fd in s.sockets
    ensures Rewatched(s, Respond(s, Poll(fd, what, env)), fd, s.sockets[fd], what)
  {
    hide Arm, SetWatch, Borrow, Table, Linked;
    PointerIsGood(s, fd);
    KnownPointer(s, fd);
    var g := s.sockets[fd];
    var q := s.(polled := s.polled[fd := Some(g)]);
    WatchOnly(q, g, what);
    assert InMap(q, g);
    assert s.polled[fd := None][fd := Some(g)] == s.polled[fd := Some(g)];
    assert fd in s.polled ==> s.polled[fd := s.polled[fd]][fd := Some(g)] == s.polled[fd := Some(g)];
  }

  /** Another is borrowed, and the new state watches it, or there is none to be had. */
  lemma PollNew(s: State, fd: nat, what: Dirs, env: DupEnv)
    requires Table(s) && Linked(s) && Legal(s, Poll(fd, what, env)) && fd !in s.sockets
    ensures var t := Respond(s, Poll(fd, what, env));
      if env.Borrowed? then Rewatched(s, t, fd, |s.socks|, what)
      else t.socks == s.socks && t.sockets == s.sockets && t.polled == s.polled[fd := None] && t.alive == s.alive
  {
    hide Arm, SetWatch, Open, Close, Table, Linked;
    KnownPointer(s, fd);
    var q := s.(polled := s.polled[fd := None]);
    if env.Borrowed? {
      WatchOnly(Borrow(q, fd, env).0.(polled := q.polled[fd := Some(|s.socks|)]), |s.socks|, what);
    }
  }

  lemma KnownPointer(s: State, fd: nat)
    requires Table(s) && Linked(s)
    ensures fd in s.polled && s.polled[fd].Some? ==> fd in s.sockets && s.polled[fd].value == s.sockets[fd]
  {
  }

  /** States are told apart by their descriptors. */
  lemma PointersApart(s: State)
    requires Table(s)
    ensures forall x, y :: x in s.sockets && y in s.sockets && s.sockets[x] == s.sockets[y] ==> x == y
    ensures forall x :: x in s.sockets ==> s.sockets[x] < |s.socks|
  {
  }

  lemma RewatchedHeeds(s: State, q: State, t: State, fd: nat, g: nat, w: Dirs)
    requires Table(s) && Linked(s) && Heeded(s) && s.alive && Rewatched(s, q, fd, g, w)
    requires if fd in s.sockets then g == s.sockets[fd] else g == |s.socks|
    requires t == q.(wanted := s.wanted[fd := w])
    ensures Heeded(t)
  {
    hide Table, Linked;
    PointersApart(s);
    forall x { KnownPointer(s, x); }
  }

  lemma UnattachedHeeds(s: State, t: State, fd: nat, w: Dirs)
    requires Heeded(s) && s.alive && t.alive && t.socks == s.socks && t.sockets == s.sockets && fd !in s.sockets
    requires t.polled == s.polled[fd := None] && t.wanted == s.wanted[fd := w]
    ensures Heeded(t)
  {
  }

  lemma PollHeeds(s: State, fd: nat, what: Dirs, env: DupEnv)
    requires Table(s) && Linked(s) && Heeded(s) && s.alive && Legal(s, Poll(fd, what, env))
    ensures Heeded(Do(s, Poll(fd, what, env)))
  {
    hide Respond, Table, Linked, Heeded, Rewatched;
    var q, t := Respond(s, Poll(fd, what, env)), Do(s, Poll(fd, what, env));
    if fd in s.sockets {
      PollKnown(s, fd, what, env);
      RewatchedHeeds(s, q, t, fd, s.sockets[fd], what);
    } else {
      PollNew(s, fd, what, env);
      if env.Borrowed? {
        RewatchedHeeds(s, q, t, fd, |s.socks|, what);
      } else {
        UnattachedHeeds(s, t, fd, what);
      }
    }
  }

  /** A descriptor is wanted no more, and its state, if it stays, watches nothing. */
  lemma UnwantedHeeds(s: State, t: State, fd: nat)
    requires Table(s) && Linked(s) && Heeded(s) && s.alive && t.alive && |t.socks| == |s.socks|
    requires t.polled == s.polled - {fd} && t.wanted == s.wanted - {fd}
    requires t.sockets == s.sockets || t.sockets == s.sockets - {fd}
    requires forall h :: 0 <= h < |s.socks| ==>
      t.socks[h].watch == s.socks[h].watch || (fd in s.sockets && h == s.sockets[fd])
    requires fd in t.sockets && t.sockets[fd] < |t.socks| ==> t.socks[t.sockets[fd]].watch == NoDirs
    ensures Heeded(t)
  {
    hide Table, Linked;
    PointersApart(s);
    forall x { KnownPointer(s, x); }
  }

  lemma UnpollHeeds(s: State, fd: nat)
    requires Table(s) && Linked(s) && Heeded(s) && s.alive && fd in s.polled
    ensures Heeded(Do(s, Unpoll(fd)))
  {
    hide Table, Linked, Heeded, Close, AbortWaits;
    PointerIsGood(s, fd);
    KnownPointer(s, fd);
    if fd in s.sockets && s.sockets[fd] < |s.socks| {
      Unpointed(s, fd);
    }
    UnwantedHeeds(s, Do(s, Unpoll(fd)), fd);
  }

  /** A state libcurl was not given watches nothing. */
  lemma Unpointed(s: State, fd: nat)
    requires Heeded(s) && s.alive && fd in s.sockets && s.sockets[fd] < |s.socks|
    ensures fd !in s.polled || s.polled[fd] == None ==> s.socks[s.sockets[fd]].watch == NoDirs
  {
  }

  lemma CloseHeeds(s: State, a: Act, fd: nat)
    requires Table(s) && Linked(s) && Heeded(s) && s.alive && (a == CloseHeld(fd) || a == CloseOwn(fd)) && Legal(s, a)
    ensures Heeded(Do(s, a))
  {
    hide Table, Linked, Heeded, Close, AbortWaits;
    PointerIsGood(s, fd);
    if fd in s.sockets && s.sockets[fd] < |s.socks| {
      Unpointed(s, fd);
    }
    UnwantedHeeds(s, Do(s, a), fd);
  }

  lemma OpenHeeds(s: State, a: Act, but: set<Spot>)
    requires Inv(s, but) && Heeded(s) && s.alive && (a.OpenSocket? || a.OpenNative?)
    ensures Heeded(Do(s, a))
  {
    hide Curl, Waits, OsOk, Sound, Open;
    if a.OpenSocket? && a.got.Some? && a.got.value !in s.os.fds {
      NewNumber(s, a.got.value, but);
    }
    PointersApart(s);
  }

  lemma DoHeeds(s: State, a: Act, but: set<Spot>)
    requires Inv(s, but) && Heeded(s)
    ensures Heeded(Do(s, a))
  {
    hide Inv, Respond, NowWanted, Legal, Heeded, Owned, Accounted, Table, Linked;
    IsCore(s, but);
    DoLater(s, a);
    if !s.alive {
      DeadHeeds(Do(s, a));
    } else if !Legal(s, a) {
      IllegalHeeds(s, a);
    } else {
      match a
      case OpenSocket(_, _, _) => OpenHeeds(s, a, but);
      case OpenNative(_) => OpenHeeds(s, a, but);
      case Poll(fd, what, env) => PollHeeds(s, fd, what, env);
      case Unpoll(fd) => LegalUnpoll(s, fd); UnpollHeeds(s, fd);
      case CloseHeld(fd) => CloseHeeds(s, a, fd);
      case CloseOwn(fd) => CloseHeeds(s, a, fd);
    }
  }

  lemma LegalUnpoll(s: State, fd: nat)
    requires Legal(s, Unpoll(fd))
    ensures fd in s.polled
  {
  }

  lemma DeadHeeds(s: State)
    requires !s.alive
    ensures Heeded(s)
  {
  }

  lemma IllegalHeeds(s: State, a: Act)
    requires Heeded(s) && !Legal(s, a)
    ensures Heeded(Do(s, a))
  {
  }

  lemma {:induction false} DoAllHeeds(s: State, acts: seq<Act>, but: set<Spot>)
    requires Inv(s, but) && Heeded(s)
    ensures Heeded(DoAll(s, acts))
    decreases |acts|
  {
    hide Inv, Do, Heeded;
    if acts != [] {
      DoKeeps(s, acts[0], but);
      DoHeeds(s, acts[0], but);
      DoAllHeeds(Do(s, acts[0]), acts[1..], but);
    }
  }

  /** Flags, waits and history have no part in it. */
  lemma SameWatch(s: State, t: State)
    requires Heeded(s) && |t.socks| == |s.socks| && t.alive == s.alive
    requires forall g :: 0 <= g < |s.socks| ==> t.socks[g].watch == s.socks[g].watch
    requires t.sockets == s.sockets && t.polled == s.polled && t.wanted == s.wanted
    ensures Heeded(t)
  {
  }

  lemma {:induction false} DoAllKeeps(s: State, acts: seq<Act>, but: set<Spot>)
    requires Inv(s, but)
    ensures Inv(DoAll(s, acts), but) && Later(s, DoAll(s, acts))
    decreases |acts|
  {
    hide Inv, Do;
    if acts != [] {
      DoKeeps(s, acts[0], but);
      DoLater(s, acts[0]);
      DoAllKeeps(Do(s, acts[0]), acts[1..], but);
    }
  }

  // ---- waits that end ----

  /** The wait is over: its flag is cleared, and its spot is the one place that may be watched and not armed. */
  lemma FiredKeeps(s: State, q: State, i: nat)
    requires Inv(s, {}) && i < |s.waits| && InMap(s, s.waits[i].gen)
    requires var w := s.waits[i];
      var k := s.socks[w.gen];
      q == s.(waits := RemoveAt(s.waits, i), socks := s.socks[w.gen := k.(armed := With(k.armed, w.dir, false))])
    ensures Inv(q, {Spot(s.waits[i].gen, s.waits[i].dir)})
  {
    hide Table, Curl, OsOk, Waits, AllOpen;
    FiredWaits(s, q, i);
    ReflaggedKeeps(s, q);
  }

  lemma FiredWaits(s: State, q: State, i: nat)
    requires Waits(s, {}) && i < |s.waits| && InMap(s, s.waits[i].gen)
    requires var w := s.waits[i];
      var k := s.socks[w.gen];
      q == s.(waits := RemoveAt(s.waits, i), socks := s.socks[w.gen := k.(armed := With(k.armed, w.dir, false))])
    ensures Waits(q, {Spot(s.waits[i].gen, s.waits[i].dir)})
  {
    var w := s.waits[i];
    CountLess(s.waits, i);
    forall j | 0 <= j < |q.waits| ensures WaitOk(q, q.waits[j]) {
      var o := if j < i then j else j + 1;
      assert q.waits[j] == s.waits[o] && WaitOk(s, s.waits[o]);
    }
    forall h, d | 0 <= h < |q.socks| && InMap(q, h) ensures ArmedOk(q, h, d, {Spot(w.gen, w.dir)}) {
      assert InMap(s, h) && ArmedOk(s, h, d, {});
    }
  }

  /** A wait of a state that is gone leaves the queue. */
  lemma DeafKeeps(s: State, i: nat)
    requires Inv(s, {}) && i < |s.waits| && !InMap(s, s.waits[i].gen)
    ensures Inv(s.(waits := RemoveAt(s.waits, i)), {})
  {
    hide OsOk, Curl;
    var q := s.(waits := RemoveAt(s.waits, i));
    ReflaggedKeeps(s, q);
    CountLess(s.waits, i);
    forall j | 0 <= j < |q.waits| ensures WaitOk(q, q.waits[j]) {
      var o := if j < i then j else j + 1;
      assert q.waits[j] == s.waits[o] && WaitOk(s, s.waits[o]);
    }
    forall h, d | 0 <= h < |q.socks| && InMap(q, h) ensures ArmedOk(q, h, d, {}) {
      assert InMap(s, h) && ArmedOk(s, h, d, {});
    }
  }

  /** An exception at a spot that is watched for nothing is none. */
  lemma NoException(s: State, g: nat, d: Dir)
    requires Inv(s, {Spot(g, d)}) && (g < |s.socks| ==> !s.socks[g].open || s.socks[g].watch == NoDirs)
    ensures Inv(s, {})
  {
    forall h, e | 0 <= h < |s.socks| && InMap(s, h) ensures ArmedOk(s, h, e, {}) {
      assert ArmedOk(s, h, e, {Spot(g, d)});
    }
  }

  lemma DriveKeeps(s: State, v: Drive, but: set<Spot>)
    requires Inv(s, but) && Fair(v)
    ensures Inv(s.(drives := s.drives + [v]), but)
  {
    hide Waits, OsOk, Table, HeldOk, Backs;
    var q := s.(drives := s.drives + [v]);
    SameTable(s, q);
    SameSockWaits(s, q, but);
  }

  /** The re-arming tail of on_event. */
  lemma RearmKeeps(t: State, g: nat, d: Dir)
    requires Inv(t, {Spot(g, d)}) && g < |t.socks|
    ensures Inv(if t.socks[g].watch != NoDirs then Arm(t, g) else t, {})
  {
    hide Inv, Arm;
    if t.socks[g].watch != NoDirs {
      ArmKeeps(t, g, {Spot(g, d)});
      assert {Spot(g, d)} - {Spot(g, Read), Spot(g, Write)} == {};
    } else {
      NoException(t, g, d);
    }
  }

  lemma AbortedIsClosed(s: State, i: nat)
    requires Inv(s, {}) && i < |s.waits| && s.waits[i].end == Some(OperationAborted)
    ensures s.waits[i].gen < |s.socks| && !s.socks[s.waits[i].gen].open
  {
    assert WaitOk(s, s.waits[i]);
  }

  /** Between steps, and after its destruction a client has no sockets left. */
  ghost predicate Steady(s: State) {
    Inv(s, {}) && (s.alive || s.sockets == map[]) && Heeded(s)
  }

  /** The wait of a socket still in sockets_ speaks of the right descriptors. */
  lemma DriveIsFair(s: State, w: Wait, but: set<Spot>)
    requires Inv(s, but) && s.alive && InMap(s, w.gen) && WaitOk(s, w) && w.end.Some?
    ensures Fair(DriveOf(s, w))
  {
    hide Waits, OsOk, Accounted;
    var k := s.socks[w.gen];
    assert SockOk(s, w.gen) && k.open;
    var i :| 0 <= i < |s.held| && s.held[i].fd == k.fd;
    var at := HeldAt(s.held, k.fd).value;
    assert HeldOk(s, s.held[at]);
  }

  lemma RunWaitKeeps(s: State, i: nat, acts: seq<Act>)
    requires Steady(s) && i < |s.waits| && s.waits[i].end.Some?
    ensures Steady(RunWait(s, i, acts)) && RunWait(s, i, acts).alive == s.alive
  {
    hide Inv, DoAll, Arm, DriveOf, Heeded;
    WaitIsOk(s, i);
    var w := s.waits[i];
    if !InMap(s, w.gen) {
      DeafKeeps(s, i);
      SameWatch(s, s.(waits := RemoveAt(s.waits, i)));
    } else {
      var k := s.socks[w.gen];
      var q := s.(waits := RemoveAt(s.waits, i), socks := s.socks[w.gen := k.(armed := With(k.armed, w.dir, false))]);
      FiredKeeps(s, q, i);
      SameWatch(s, q);
      if w.end.value.OperationAborted? {
        AbortedIsClosed(s, i);
        NoException(q, w.gen, w.dir);
      } else {
        FiredWaitOk(s, q, w);
        DriveIsFair(q, w, {Spot(w.gen, w.dir)});
        var d := q.(drives := q.drives + [DriveOf(q, w)]);
        DriveKeeps(q, DriveOf(q, w), {Spot(w.gen, w.dir)});
        DoAllKeeps(d, acts, {Spot(w.gen, w.dir)});
        RearmKeeps(DoAll(d, acts), w.gen, w.dir);
        SameWatch(q, d);
        DoAllHeeds(d, acts, {Spot(w.gen, w.dir)});
        ArmHeeds(DoAll(d, acts), w.gen);
      }
    }
  }

  lemma WaitIsOk(s: State, i: nat)
    requires Inv(s, {}) && i < |s.waits|
    ensures WaitOk(s, s.waits[i])
  {
  }

  /** Clearing the flag leaves the state otherwise as it was. */
  lemma FiredWaitOk(s: State, q: State, w: Wait)
    requires WaitOk(s, w) && InMap(s, w.gen) && q.sockets == s.sockets
    requires var k := s.socks[w.gen]; q.socks == s.socks[w.gen := k.(armed := With(k.armed, w.dir, false))]
    ensures WaitOk(q, w) && InMap(q, w.gen)
  {
  }

  lemma ArmHeeds(s: State, g: nat)
    requires g < |s.socks| && Heeded(s)
    ensures Arm(s, g).alive == s.alive && Heeded(Arm(s, g))
  {
    hide Heeded;
    SameWatch(s, Arm(s, g));
  }

  lemma ReadyKeeps(s: State, i: nat, ec: Ec)
    requires Inv(s, {}) && i < |s.waits| && s.waits[i].end.None? && !ec.OperationAborted?
    ensures Inv(s.(waits := s.waits[i := s.waits[i].(end := Some(ec))]), {})
  {
    hide OsOk, Curl;
    var q := s.(waits := s.waits[i := s.waits[i].(end := Some(ec))]);
    ReflaggedKeeps(s, q);
    CountSame(s.waits, q.waits);
    forall j | 0 <= j < |q.waits| ensures WaitOk(q, q.waits[j]) {
      assert WaitOk(s, s.waits[j]);
    }
    forall h, d | 0 <= h < |q.socks| && InMap(q, h) ensures ArmedOk(q, h, d, {}) {
      assert InMap(s, h) && ArmedOk(s, h, d, {});
    }
  }

  // ---- destruction ----

  lemma {:induction false} SeverKeeps(s: State, n: nat)
    requires Core(s, {}) && !s.alive && n <= |s.socks|
    ensures Core(Sever(s, n), {}) && !Sever(s, n).alive
  {
    hide Core;
    if n > 0 {
      SeverKeeps(s, n - 1);
      var q := Sever(s, n - 1);
      if InMap(q, n - 1) {
        ShutKeeps(q, n - 1, {});
      }
    }
  }

  lemma {:induction false} CleanupKeeps(s: State)
    requires Inv(s, {})
    ensures Inv(Cleanup(s), {}) && Cleanup(s).held == [] && Cleanup(s).alive == s.alive && |Cleanup(s).socks| >= |s.socks|
    decreases |s.held|
  {
    hide Inv;
    if s.held != [] {
      DoKeeps(s, CloseHeld(s.held[0].fd), {});
      DoLater(s, CloseHeld(s.held[0].fd));
      CleanupKeeps(Do(s, CloseHeld(s.held[0].fd)));
    }
  }

  lemma DyingKeeps(s: State)
    requires Inv(s, {})
    ensures Core(s.(alive := false), {})
  {
    hide Waits, OsOk, Table, HeldOk, Backs;
    var q := s.(alive := false);
    DyingTable(s, q);
    SameSockWaits(s, q, {});
  }

  lemma DyingTable(s: State, q: State)
    requires Table(s) && q == s.(alive := false)
    ensures Table(q)
    ensures forall h :: HeldOk(s, h) ==> HeldOk(q, h)
    ensures forall fd :: Backs(s, fd) ==> Backs(q, fd)
    ensures forall g :: InMap(q, g) <==> InMap(s, g)
  {
    forall g | 0 <= g < |q.socks| ensures SockOk(q, g) {
      assert SockOk(s, g);
    }
  }

  /** When libcurl has let go of everything, there is nothing left to own. */
  lemma NothingLeft(s: State)
    requires Inv(s, {}) && s.held == []
    ensures s.sockets == map[] && s.polled == map[] && s.os.fds == map[]
    ensures forall g :: 0 <= g < |s.socks| ==> !s.socks[g].open
    ensures forall k :: 0 <= k < |s.os.made| ==> s.os.made[k].closes == 1
  {
    assert forall fd :: !Lists(s.held, fd) && !ListsNative(s.held, fd);
    assert s.sockets.Keys == {} && s.polled.Keys == {};
    forall g | 0 <= g < |s.socks| ensures !s.socks[g].open {
      assert SockOk(s, g);
    }
    assert s.os.fds.Keys == {};
  }

  lemma {:induction false} SeverNothing(s: State, n: nat)
    requires s.sockets == map[] && n <= |s.socks|
    ensures Sever(s, n) == s
  {
    if n > 0 {
      SeverNothing(s, n - 1);
    }
  }

  lemma DestroyKeeps(s: State, acts: seq<Act>)
    requires Inv(s, {})
    ensures var d := Destroy(s, acts);
      && Inv(d, {}) && !d.alive && d.sockets == map[] && d.os.fds == map[] && d.held == []
      && forall k :: 0 <= k < |d.os.made| ==> d.os.made[k].closes == 1
  {
    hide Inv, Core, Do, DoAll, Sever, Cleanup, Later;
    DyingKeeps(s);
    var v := Sever(s.(alive := false), |s.socks|);
    SeverKeeps(s.(alive := false), |s.socks|);
    DeadCore(v);
    DoAllKeeps(v, acts, {});
    var u := DoAll(v, acts);
    LaterAlive(v, u);
    CleanupKeeps(u);
    var t := Cleanup(u);
    NothingLeft(t);
    SeverNothing(t, |t.socks|);
  }

  lemma DeadCore(s: State)
    requires Core(s, {}) && !s.alive
    ensures Inv(s, {})
  {
  }

  lemma LaterAlive(s: State, t: State)
    requires Later(s, t)
    ensures s.alive == t.alive
  {
  }

  // ---- runs ----

  lemma StepKeeps(s: State, e: Event)
    requires Steady(s)
    ensures Steady(Step(s, e)) && Step(s, e).alive == (s.alive && !e.Destruct?)
  {
    hide Inv, DoAll, RunWait, Destroy, Heeded;
    match e
    case CurlCall(acts) =>
      DoAllKeeps(s, acts, {});
      DoAllHeeds(s, acts, {});
    case Ready(i, failed) =>
      if i < |s.waits| && s.waits[i].end.None? {
        ReadyKeeps(s, i, if failed then Failed else NoError);
        SameWatch(s, Step(s, e));
      }
    case RunQueued(i, acts) =>
      if i < |s.waits| && s.waits[i].end.Some? {
        RunWaitKeeps(s, i, acts);
      }
    case Destruct(acts) =>
      DestroyKeeps(s, acts);
      if s.alive { DeadHeeds(Destroy(s, acts)); }
  }

  lemma InitKeeps()
    ensures Steady(Init())
  {
  }

  lemma {:induction false} RunKeeps(s: State, es: seq<Event>)
    requires Steady(s)
    ensures Steady(Run(s, es))
    decreases |es|
  {
    hide Steady, Step;
    if es != [] {
      StepKeeps(s, es[0]);
      RunKeeps(Step(s, es[0]), es[1..]);
    }
  }
}
