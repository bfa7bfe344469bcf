/** What every run of the transfer lifecycle keeps, and the promises that follow. */
module LifecycleProofs {
  import opened Common
  import opened EasyHandle
  import opened LifecycleSpec

  function Flatten(chunks: seq<string>): string {
    if chunks == [] then "" else Flatten(chunks[..|chunks| - 1]) + chunks[|chunks| - 1]
  }

  /** What the client keeps of the chunks for request r: all of them, unless a hook took them elsewhere. */
  function BodyOf(r: Request, w: Wire): string {
    if KeepsBody(r) then Flatten(w.body) else ""
  }

  function HeadOf(r: Request, w: Wire): string {
    if KeepsHead(r) then Flatten(w.head) else ""
  }

  /** Where every handler ever given to start is. */
  function HandlerPlaces(s: State): multiset<nat> {
    multiset(Held(s.transfers)) + multiset(TicketsOf(s.posted)) + multiset(TicketsOf(s.delivered)) + multiset(s.dropped)
  }

  /** Where every easy handle ever made is. */
  function HandlePlaces(s: State): multiset<nat> {
    multiset(Ehs(s.transfers)) + multiset(Ehs(s.idle)) + multiset(s.freed)
  }

  /** A node in flight: it holds the handler, the data and the options of one request and of no other. */
  ghost predicate InFlightOk(s: State, t: Node) {
    && t.handler.Some? && t.handler.value < |s.issued| == |s.wire|
    && var k := t.handler.value;
    var r := s.issued[k].req;
    && t.id == s.issued[k].id > 0
    && t.eh in s.easy && t.eh in s.added && s.added[t.eh] == k
    && Matches(s.easy[t.eh], t.eh, r)
    && t.scrub == r.hook.Some?
    && t.body == r.body && t.headers == r.headers
    && t.buffer == BodyOf(r, s.wire[k]) && t.headerBuffer == HeadOf(r, s.wire[k])
  }

  /** A pooled node carries nothing of its past but its configured handle. */
  ghost predicate IdleOk(s: State, t: Node) {
    t == Blank(t.eh) && t.eh in s.easy && t.eh !in s.added && PoolReady(s.easy[t.eh])
  }

  /** A completion says what became of its own request. */
  ghost predicate Honest(s: State, c: Completion) {
    && c.ticket < |s.issued| == |s.wire|
    && var w, r := s.wire[c.ticket], s.issued[c.ticket].req;
    || c == Abortion(c.ticket)
    || (!s.issued[c.ticket].env.Accepts? && c == Failure(c.ticket, StartFailureCode(s.issued[c.ticket].env)))
    || (w.finished.Some? &&
        c == Completion(c.ticket, ResultCode(w.finished.value.code),
                        Response(w.finished.value.code, w.finished.value.http, BodyOf(r, w), HeadOf(r, w))))
  }

  ghost predicate Nodes(s: State) {
    && |s.wire| == |s.issued|
    && (forall i :: 0 <= i < |s.transfers| ==> InFlightOk(s, s.transfers[i]))
    && (forall i :: 0 <= i < |s.idle| ==> IdleOk(s, s.idle[i]))
    && |s.idle| <= s.maxPooled
  }

  ghost predicate Ids(s: State) {
    && (forall i, j :: 0 <= i < j < |s.transfers| ==> s.transfers[i].id > s.transfers[j].id)
    && (forall k :: 0 <= k < |s.issued| ==> s.issued[k].id <= s.nextId)
    && (forall j, k :: 0 <= j < k < |s.issued| && s.issued[j].id > 0 && s.issued[k].id > 0
                       ==> s.issued[j].id < s.issued[k].id)
  }

  /** Each queued message is about a different handle in the multi, and is the one libcurl recorded for its request. */
  ghost predicate MsgsOk(msgs: seq<Msg>, added: map<nat, nat>, wire: seq<Wire>) {
    && (forall i :: 0 <= i < |msgs| ==> msgs[i].eh in added && added[msgs[i].eh] < |wire|
                                        && wire[added[msgs[i].eh]].finished == Some(msgs[i]))
    && DistinctEhs(msgs)
  }

  /** The live handles are those of the two lists, and the multi holds exactly those in flight. */
  ghost predicate Multi(s: State) {
    && (forall eh :: eh in s.easy <==> eh in Ehs(s.transfers) || eh in Ehs(s.idle))
    && (forall eh :: eh in s.added <==> eh in Ehs(s.transfers))
    && MsgsOk(s.msgs, s.added, s.wire)
  }

  /** running_ never overcounts what is in flight and not done. */
  ghost predicate Running(s: State) {
    0 <= s.running <= |s.transfers| - |s.msgs|
  }

  ghost predicate Outcomes(s: State) {
    && |s.wire| == |s.issued|
    && (forall i :: 0 <= i < |s.posted| ==> Honest(s, s.posted[i]))
    && (forall i :: 0 <= i < |s.delivered| ==> Honest(s, s.delivered[i]))
  }

  /** The invariant inside a pass of libcurl, which brings running_ up to date when it returns. */
  ghost predicate Core(s: State) {
    && Nodes(s) && Ids(s) && Multi(s) && Outcomes(s)
    && EachOnce(HandlePlaces(s), s.nextEasy)
    && EachOnce(HandlerPlaces(s), |s.issued|)
  }

  ghost predicate Inv(s: State) {
    Core(s) && Running(s)
  }

  // ---- consequences of the two censuses ----

  lemma DistinctHandles(s: State)
    requires EachOnce(HandlePlaces(s), s.nextEasy)
    ensures forall i, j :: 0 <= i < j < |s.transfers| ==> s.transfers[i].eh != s.transfers[j].eh
    ensures forall i, j :: 0 <= i < j < |s.idle| ==> s.idle[i].eh != s.idle[j].eh
    ensures forall i, j :: 0 <= i < |s.transfers| && 0 <= j < |s.idle| ==> s.transfers[i].eh != s.idle[j].eh
    ensures forall i :: 0 <= i < |s.transfers| ==> s.transfers[i].eh < s.nextEasy
    ensures forall i :: 0 <= i < |s.idle| ==> s.idle[i].eh < s.nextEasy
  {
    var a, b, c := Ehs(s.transfers), Ehs(s.idle), multiset(s.freed);
    EachOncePart(HandlePlaces(s), a, multiset(b) + c, s.nextEasy);
    EachOncePart(HandlePlaces(s), b, multiset(a) + c, s.nextEasy);
    forall i, j | 0 <= i < |a| && 0 <= j < |b| ensures a[i] != b[j] {
      assert b[j] in multiset(b);
    }
  }

  /** A handler in flight is in no other node, and neither posted nor delivered. */
  lemma DistinctTickets(s: State)
    requires Nodes(s) && EachOnce(HandlerPlaces(s), |s.issued|)
    ensures forall i, j :: 0 <= i < j < |s.transfers| ==> s.transfers[i].handler != s.transfers[j].handler
    ensures forall i, j :: 0 <= i < |s.transfers| && 0 <= j < |s.posted| ==> s.transfers[i].handler.value != s.posted[j].ticket
    ensures forall i, j :: 0 <= i < |s.transfers| && 0 <= j < |s.delivered| ==> s.transfers[i].handler.value != s.delivered[j].ticket
  {
    hide Matches;
    var a, b, c := Held(s.transfers), TicketsOf(s.posted), TicketsOf(s.delivered);
    EachOncePart(HandlerPlaces(s), a, multiset(b) + multiset(c) + multiset(s.dropped), |s.issued|);
    forall j | 0 <= j < |b| ensures b[j] in multiset(b) {}
    forall j | 0 <= j < |c| ensures c[j] in multiset(c) {}
    assert forall i :: 0 <= i < |a| ==> a[i] !in multiset(b) && a[i] !in multiset(c);
  }

  // ---- a node leaves the in-flight list ----

  ghost predicate DistinctEhs(msgs: seq<Msg>) {
    forall i, j :: 0 <= i < j < |msgs| ==> msgs[i].eh != msgs[j].eh
  }

  lemma {:induction false} DropMsgsMembers(msgs: seq<Msg>, eh: nat)
    ensures forall m :: m in DropMsgs(msgs, eh) <==> m in msgs && m.eh != eh
  {
    if msgs != [] {
      DropMsgsMembers(msgs[1..], eh);
      assert msgs == [msgs[0]] + msgs[1..];
    }
  }

  lemma {:induction false} DropMsgsNone(msgs: seq<Msg>, eh: nat)
    requires forall i :: 0 <= i < |msgs| ==> msgs[i].eh != eh
    ensures DropMsgs(msgs, eh) == msgs
  {
    if msgs != [] {
      DropMsgsNone(msgs[1..], eh);
    }
  }

  lemma {:induction false} DropMsgsSize(msgs: seq<Msg>, eh: nat)
    requires DistinctEhs(msgs)
    ensures DistinctEhs(DropMsgs(msgs, eh))
    ensures |DropMsgs(msgs, eh)| == if Done(msgs, eh) then |msgs| - 1 else |msgs|
  {
    if msgs != [] {
      var rest := msgs[1..];
      assert forall i :: 0 <= i < |rest| ==> rest[i] == msgs[i + 1];
      if msgs[0].eh == eh {
        DropMsgsNone(rest, eh);
        assert Done(msgs, eh);
      } else {
        DropMsgsSize(rest, eh);
        DropMsgsMembers(rest, eh);
        var r := DropMsgs(rest, eh);
        forall j | 0 <= j < |r| ensures r[j].eh != msgs[0].eh {
          assert r[j] in r && r[j] in rest;
        }
        assert Done(rest, eh) ==> Done(msgs, eh);
        assert Done(msgs, eh) ==> Done(rest, eh) by {
          if i :| 0 <= i < |msgs| && msgs[i].eh == eh { assert rest[i - 1].eh == eh; }
        }
      }
    }
  }

  lemma DropMsgsKeeps(msgs: seq<Msg>, eh: nat)
    requires DistinctEhs(msgs)
    ensures var r := DropMsgs(msgs, eh);
      && (forall m :: m in r ==> m in msgs && m.eh != eh) && DistinctEhs(r)
      && |r| == (if Done(msgs, eh) then |msgs| - 1 else |msgs|)
      && (!Done(msgs, eh) ==> r == msgs)
  {
    DropMsgsMembers(msgs, eh);
    DropMsgsSize(msgs, eh);
    if !Done(msgs, eh) {
      DropMsgsNone(msgs, eh);
    }
  }

  /** q is s with node i retired: its handle out of the multi and in the pool or freed, its handler nobody's. */
  ghost predicate Retired(s: State, q: State, i: nat) {
    && i < |s.transfers|
    && var eh := s.transfers[i].eh;
    && q == s.(transfers := RemoveAt(s.transfers, i), added := s.added - {eh}, msgs := q.msgs,
               idle := q.idle, easy := q.easy, freed := q.freed, running := q.running)
    && (forall m :: m in q.msgs ==> m in s.msgs && m.eh != eh)
    && DistinctEhs(q.msgs)
    && |q.msgs| == (if Done(s.msgs, eh) then |s.msgs| - 1 else |s.msgs|)
    && if |s.idle| < s.maxPooled then
         && q.idle == [Blank(eh)] + s.idle && q.freed == s.freed
         && eh in q.easy && PoolReady(q.easy[eh])
         && (eh in s.easy ==> q.easy == s.easy[eh := q.easy[eh]])
       else
         q.idle == s.idle && q.freed == s.freed + [eh] && q.easy == s.easy - {eh}
  }

  lemma RetireYields(s: State, i: nat, scrub: bool)
    requires i < |s.transfers| && s.transfers[i].eh in s.easy
    requires !scrub ==> PoolReady(s.easy[s.transfers[i].eh])
    requires DistinctEhs(s.msgs)
    ensures Retired(s, Retire(RemoveHandle(s, s.transfers[i].eh), i, scrub), i)
  {
    DropMsgsKeeps(s.msgs, s.transfers[i].eh);
  }

  lemma RetiredNodes(s: State, q: State, i: nat)
    requires Nodes(s) && Retired(s, q, i) && EachOnce(HandlePlaces(s), s.nextEasy)
    ensures Nodes(q)
  {
    DistinctHandles(s);
    var eh := s.transfers[i].eh;
    forall j | 0 <= j < |q.transfers| ensures InFlightOk(q, q.transfers[j]) {
      var o := if j < i then j else j + 1;
      assert q.transfers[j] == s.transfers[o] && InFlightOk(s, s.transfers[o]) && s.transfers[o].eh != eh;
    }
    forall j | 0 <= j < |q.idle| ensures IdleOk(q, q.idle[j]) {
      var o := if |s.idle| < s.maxPooled then j - 1 else j;
      assert o >= 0 ==> q.idle[j] == s.idle[o] && IdleOk(s, s.idle[o]) && s.idle[o].eh != eh;
    }
  }

  lemma RetiredIds(s: State, q: State, i: nat)
    requires Ids(s) && Retired(s, q, i)
    ensures Ids(q)
  {
    forall j, k | 0 <= j < k < |q.transfers| ensures q.transfers[j].id > q.transfers[k].id {
      var oj, ok := if j < i then j else j + 1, if k < i then k else k + 1;
      assert q.transfers[j] == s.transfers[oj] && q.transfers[k] == s.transfers[ok];
    }
  }

  lemma RetiredEhs(s: State, q: State, i: nat)
    requires Retired(s, q, i) && EachOnce(HandlePlaces(s), s.nextEasy)
    ensures forall x :: x in Ehs(q.transfers) <==> x in Ehs(s.transfers) && x != s.transfers[i].eh
    ensures forall x :: x in Ehs(q.idle) <==> x in Ehs(s.idle) || (|s.idle| < s.maxPooled && x == s.transfers[i].eh)
    ensures s.transfers[i].eh !in Ehs(s.idle)
  {
    DistinctHandles(s);
    var a, b := Ehs(s.transfers), Ehs(q.transfers);
    assert b == a[..i] + a[i + 1..];
    assert a == a[..i] + [a[i]] + a[i + 1..];
    if |s.idle| < s.maxPooled {
      assert Ehs(q.idle) == [s.transfers[i].eh] + Ehs(s.idle);
    }
  }

  lemma RetiredMulti(s: State, q: State, i: nat)
    requires Multi(s) && Retired(s, q, i) && EachOnce(HandlePlaces(s), s.nextEasy)
    ensures Multi(q)
  {
    RetiredEhs(s, q, i);
    assert s.transfers[i].eh in Ehs(s.transfers);
    forall j | 0 <= j < |q.msgs| ensures q.msgs[j] in s.msgs && q.msgs[j].eh != s.transfers[i].eh {
      assert q.msgs[j] in q.msgs;
    }
  }

  lemma RetiredCensus(s: State, q: State, i: nat)
    requires i < |s.transfers| && s.transfers[i].handler.Some? && q.transfers == RemoveAt(s.transfers, i)
    requires q.posted == s.posted && q.delivered == s.delivered && q.dropped == s.dropped
    requires (q.idle == [Blank(s.transfers[i].eh)] + s.idle && q.freed == s.freed)
             || (q.idle == s.idle && q.freed == s.freed + [s.transfers[i].eh])
    ensures HandlePlaces(q) == HandlePlaces(s)
    ensures HandlerPlaces(q) + multiset{s.transfers[i].handler.value} == HandlerPlaces(s)
  {
    var one, rest := multiset{s.transfers[i].eh}, multiset(Ehs(q.transfers));
    assert Ehs(q.transfers) == RemoveAt(Ehs(s.transfers), i);
    assert Held(q.transfers) == RemoveAt(Held(s.transfers), i);
    RemoveAtMultiset(Ehs(s.transfers), i);
    RemoveAtMultiset(Held(s.transfers), i);
    if q.freed == s.freed {
      assert Ehs(q.idle) == [s.transfers[i].eh] + Ehs(s.idle);
      assert multiset(Ehs(q.idle)) == one + multiset(Ehs(s.idle));
    }
  }

  lemma HoldsHandler(s: State, i: nat)
    requires Nodes(s) && i < |s.transfers|
    ensures s.transfers[i].handler.Some? && s.transfers[i].handler.value < |s.issued| && s.transfers[i].eh in s.easy
  {
    assert InFlightOk(s, s.transfers[i]);
  }

  /** Everything but the census of handlers, one of which is between places, survives a retirement. */
  lemma RetiredKeeps(s: State, q: State, i: nat)
    requires Core(s) && Retired(s, q, i)
    ensures Nodes(q) && Ids(q) && Multi(q) && Outcomes(q) && EachOnce(HandlePlaces(q), q.nextEasy)
    ensures s.transfers[i].handler.Some?
    ensures HandlerPlaces(q) + multiset{s.transfers[i].handler.value} == HandlerPlaces(s)
    ensures |q.msgs| <= |q.transfers|
  {
    hide Nodes, Ids, Multi, Honest, EachOnce, HandlePlaces, HandlerPlaces;
    HoldsHandler(s, i);
    RetiredNodes(s, q, i);
    RetiredIds(s, q, i);
    RetiredMulti(s, q, i);
    RetiredCensus(s, q, i);
    OutcomesFrame(s, q);
    MultiCounts(q);
  }

  // ---- parts of the invariant that a change elsewhere does not touch ----

  ghost predicate Extends(s: State, t: State) {
    |s.wire| == |s.issued| && |t.wire| == |t.issued| && s.issued <= t.issued && s.wire <= t.wire
  }

  lemma NodesFrame(s: State, t: State)
    requires Nodes(s) && Extends(s, t)
    requires t.transfers == s.transfers && t.idle == s.idle && t.maxPooled == s.maxPooled
    requires t.easy == s.easy && t.added == s.added
    ensures Nodes(t)
  {
    forall i | 0 <= i < |t.transfers| ensures InFlightOk(t, t.transfers[i]) {
      assert InFlightOk(s, s.transfers[i]);
    }
    forall i | 0 <= i < |t.idle| ensures IdleOk(t, t.idle[i]) {
      assert IdleOk(s, s.idle[i]);
    }
  }

  lemma MultiFrame(s: State, t: State)
    requires Multi(s) && Extends(s, t)
    requires t.transfers == s.transfers && t.idle == s.idle
    requires t.easy == s.easy && t.added == s.added && t.msgs == s.msgs
    ensures Multi(t)
  {
  }

  lemma HonestFrame(s: State, t: State, c: Completion)
    requires Honest(s, c) && Extends(s, t)
    ensures Honest(t, c)
  {
  }

  lemma OutcomesFrame(s: State, t: State)
    requires Outcomes(s) && Extends(s, t) && t.posted == s.posted && t.delivered == s.delivered
    ensures Outcomes(t)
  {
    forall i | 0 <= i < |t.posted| ensures Honest(t, t.posted[i]) {
      HonestFrame(s, t, s.posted[i]);
    }
    forall i | 0 <= i < |t.delivered| ensures Honest(t, t.delivered[i]) {
      HonestFrame(s, t, s.delivered[i]);
    }
  }

  lemma SettleOutcomes(q: State, t: State, c: Completion)
    requires Outcomes(q) && Honest(q, c) && Extends(q, t)
    requires (t.posted == q.posted + [c] && t.delivered == q.delivered)
             || (t.posted == q.posted && t.delivered == q.delivered + [c])
    ensures Outcomes(t)
  {
    forall i | 0 <= i < |t.posted| ensures Honest(t, t.posted[i]) {
      HonestFrame(q, t, if i < |q.posted| then q.posted[i] else c);
    }
    forall i | 0 <= i < |t.delivered| ensures Honest(t, t.delivered[i]) {
      HonestFrame(q, t, if i < |q.delivered| then q.delivered[i] else c);
    }
  }

  lemma SettleCensus(q: State, t: State, c: Completion)
    requires t.transfers == q.transfers && t.dropped == q.dropped
    requires (t.posted == q.posted + [c] && t.delivered == q.delivered)
             || (t.posted == q.posted && t.delivered == q.delivered + [c])
    ensures HandlerPlaces(t) == HandlerPlaces(q) + multiset{c.ticket}
  {
    assert TicketsOf(q.posted + [c]) == TicketsOf(q.posted) + [c.ticket];
    assert TicketsOf(q.delivered + [c]) == TicketsOf(q.delivered) + [c.ticket];
  }

  /** A handler between places comes to rest in a posted or a delivered completion. */
  lemma SettleKeeps(q: State, t: State, c: Completion)
    requires Nodes(q) && Ids(q) && Multi(q) && Running(q) && Outcomes(q) && EachOnce(HandlePlaces(q), q.nextEasy)
    requires EachOnce(HandlerPlaces(q) + multiset{c.ticket}, |q.issued|) && Honest(q, c)
    requires t == q.(posted := q.posted + [c]) || t == q.(delivered := q.delivered + [c])
    ensures Inv(t)
  {
    NodesFrame(q, t);
    MultiFrame(q, t);
    SettleOutcomes(q, t, c);
    SettleCensus(q, t, c);
    assert HandlePlaces(t) == HandlePlaces(q);
  }

  // ---- start ----

  /** A call of start is on record, its handler not yet anywhere. */
  function Enter(s: State, issue: Issue): State {
    s.(issued := s.issued + [issue], wire := s.wire + [Wire([], [], None)],
       nextId := if issue.id == 0 then s.nextId else issue.id)
  }

  lemma EnterKeeps(s: State, issue: Issue)
    requires Inv(s) && (issue.id == 0 || issue.id == s.nextId + 1)
    ensures var e := Enter(s, issue);
      && Nodes(e) && Ids(e) && Multi(e) && Running(e) && Outcomes(e) && EachOnce(HandlePlaces(e), e.nextEasy)
      && EachOnce(HandlerPlaces(e) + multiset{|s.issued|}, |e.issued|)
  {
    var e := Enter(s, issue);
    NodesFrame(s, e);
    MultiFrame(s, e);
    OutcomesFrame(s, e);
    assert HandlerPlaces(e) == HandlerPlaces(s);
    assert HandlePlaces(e) == HandlePlaces(s);
  }

  /** The state after start when libcurl accepts the handle. */
  function Admitted(s: State, r: Request, script: seq<Op>, env: StartEnv): State {
    var p := Prepare(s, r, script, env);
    p.(added := p.added[NextHandle(s) := |s.issued|])
  }

  /** a is s with node t in flight for ticket |s.issued|, its handle taken from the pool or made. */
  ghost predicate Joined(s: State, a: State, t: Node) {
    && |s.wire| == |s.issued| && |a.wire| == |a.issued| == |s.issued| + 1
    && s.issued <= a.issued && s.wire <= a.wire
    && a == s.(transfers := [t] + s.transfers, idle := a.idle, nextEasy := a.nextEasy, easy := a.easy,
               added := s.added[t.eh := |s.issued|], issued := a.issued, wire := a.wire, nextId := a.nextId)
    && t.eh in a.easy && a.easy == s.easy[t.eh := a.easy[t.eh]]
    && t.handler == Some(|s.issued|)
    && if s.idle == [] then
         t.eh == s.nextEasy && a.nextEasy == s.nextEasy + 1 && a.idle == []
       else
         t.eh == s.idle[0].eh && a.nextEasy == s.nextEasy && a.idle == s.idle[1..]
  }

  lemma JoinedIsNew(s: State, a: State, t: Node)
    requires Joined(s, a, t) && EachOnce(HandlePlaces(s), s.nextEasy)
    ensures forall i :: 0 <= i < |s.transfers| ==> s.transfers[i].eh != t.eh
    ensures forall i :: 0 <= i < |a.idle| ==> a.idle[i].eh != t.eh
    ensures t.eh !in Ehs(s.transfers)
    ensures s.idle == [] ==> t.eh !in Ehs(s.idle)
  {
    DistinctHandles(s);
  }

  lemma JoinedNodes(s: State, a: State, t: Node)
    requires Nodes(s) && Joined(s, a, t) && EachOnce(HandlePlaces(s), s.nextEasy) && InFlightOk(a, t)
    ensures Nodes(a)
  {
    JoinedIsNew(s, a, t);
    forall i | 0 <= i < |a.transfers| ensures InFlightOk(a, a.transfers[i]) {
      assert i > 0 ==> InFlightOk(s, s.transfers[i - 1]);
    }
    forall i | 0 <= i < |a.idle| ensures IdleOk(a, a.idle[i]) {
      assert IdleOk(s, s.idle[i + 1]);
    }
  }

  lemma JoinedMulti(s: State, a: State, t: Node)
    requires Multi(s) && Running(s) && Joined(s, a, t) && EachOnce(HandlePlaces(s), s.nextEasy)
    ensures Multi(a) && Running(a)
  {
    JoinedIsNew(s, a, t);
    assert Ehs(a.transfers) == [t.eh] + Ehs(s.transfers);
    assert s.idle != [] ==> Ehs(s.idle) == [t.eh] + Ehs(a.idle);
    assert forall i :: 0 <= i < |s.msgs| ==> s.msgs[i].eh != t.eh && a.added[s.msgs[i].eh] == s.added[s.msgs[i].eh];
  }

  lemma JoinedHandlers(s: State, a: State, t: Node)
    requires Joined(s, a, t) && EachOnce(HandlerPlaces(s), |s.issued|)
    ensures EachOnce(HandlerPlaces(a), |a.issued|)
  {
    hide EachOnce;
    ConsMultiset(|s.issued|, Held(s.transfers));
    assert Held(a.transfers) == [|s.issued|] + Held(s.transfers);
    assert HandlerPlaces(a) == HandlerPlaces(s) + multiset{|s.issued|};
    EachOnceNext(HandlerPlaces(s), |s.issued|);
  }

  lemma MovedPlaces(n: nat, ts: seq<nat>, rest: seq<nat>, f: multiset<nat>)
    ensures multiset([n] + ts) + multiset(rest) + f == multiset(ts) + multiset([n] + rest) + f
    ensures multiset([n] + ts) + multiset(rest) + f == multiset(ts) + multiset(rest) + f + multiset{n}
  {
    ConsMultiset(n, ts);
    ConsMultiset(n, rest);
  }

  lemma JoinedHandles(s: State, a: State, t: Node)
    requires a.transfers == [t] + s.transfers && a.freed == s.freed
    requires if s.idle == [] then a.idle == [] && t.eh == s.nextEasy else s.idle == [s.idle[0]] + a.idle && t.eh == s.idle[0].eh
    ensures s.idle == [] ==> HandlePlaces(a) == HandlePlaces(s) + multiset{s.nextEasy}
    ensures s.idle != [] ==> HandlePlaces(a) == HandlePlaces(s)
  {
    assert Ehs(a.transfers) == [t.eh] + Ehs(s.transfers);
    MovedPlaces(t.eh, Ehs(s.transfers), Ehs(a.idle), multiset(s.freed));
    assert s.idle != [] ==> Ehs(s.idle) == [t.eh] + Ehs(a.idle);
  }

  lemma AdmittedJoins(s: State, r: Request, script: seq<Op>, env: StartEnv)
    requires |s.wire| == |s.issued|
    ensures var a := Admitted(s, r, script, env); Joined(s, a, a.transfers[0])
  {
    hide Effective;
  }

  /** Whether drawn or made, the node's past is blank and its handle fit for any request. */
  lemma DrawnIsBlank(s: State, r: Request)
    requires Nodes(s) && Multi(s) && EachOnce(HandlePlaces(s), s.nextEasy)
    ensures StartedNode(s, r) == Node(NextHandle(s), r.headers, r.body, "", "", Some(|s.issued|), s.nextId + 1, r.hook.Some?)
    ensures if s.idle == [] then NextHandle(s) !in s.easy
            else NextHandle(s) in s.easy && PoolReady(s.easy[NextHandle(s)])
  {
    DistinctHandles(s);
    assert s.idle != [] ==> IdleOk(s, s.idle[0]);
  }

  /** What start relies on. */
  lemma StartFacts(s: State, r: Request)
    requires Inv(s)
    ensures StartedNode(s, r) == Node(NextHandle(s), r.headers, r.body, "", "", Some(|s.issued|), s.nextId + 1, r.hook.Some?)
    ensures if s.idle == [] then NextHandle(s) !in s.easy else NextHandle(s) in s.easy
    ensures NextHandle(s) !in s.added
    ensures forall i :: 0 <= i < |s.transfers| ==> s.transfers[i].eh != NextHandle(s)
    ensures forall i :: 1 <= i < |s.idle| ==> s.idle[i].eh != NextHandle(s)
  {
    DrawnIsBlank(s, r);
    DistinctHandles(s);
    assert forall eh :: eh in s.added ==> eh in Ehs(s.transfers);
  }

  /** The node start prepares, from the pool or new, is right for its request. */
  lemma AdmittedNode(s: State, r: Request, script: seq<Op>, env: StartEnv)
    requires Nodes(s) && Multi(s) && EachOnce(HandlePlaces(s), s.nextEasy)
    ensures var a := Admitted(s, r, script, env); InFlightOk(a, a.transfers[0])
  {
    hide Matches, Effective, Multi, EachOnce, IdleOk, PoolReady, StartedNode, NextHandle;
    DrawnIsBlank(s, r);
    PooledRefinesFresh(if s.idle == [] then Configure(Fresh()) else s.easy[NextHandle(s)], NextHandle(s), r);
  }

  lemma AdmittedKeeps(s: State, r: Request, script: seq<Op>, env: StartEnv)
    requires Inv(s)
    ensures Inv(Admitted(s, r, script, env))
  {
    hide InFlightOk, Joined, Effective, Ids;
    var a := Admitted(s, r, script, env);
    EnterKeeps(s, Issue(r, script, env, s.nextId + 1));
    AdmittedJoins(s, r, script, env);
    AdmittedNode(s, r, script, env);
    JoinedKeeps(s, Enter(s, Issue(r, script, env, s.nextId + 1)), a, a.transfers[0]);
  }

  lemma JoinedKeeps(s: State, e: State, a: State, t: Node)
    requires Nodes(s) && Multi(s) && Running(s)
    requires EachOnce(HandlePlaces(s), s.nextEasy) && EachOnce(HandlerPlaces(s), |s.issued|)
    requires Ids(e) && Outcomes(e) && e.transfers == s.transfers && e.posted == s.posted && e.delivered == s.delivered
    requires Ids(s) && e.nextId == a.nextId > s.nextId && e.issued == a.issued && e.wire == a.wire
    requires Joined(s, a, t) && InFlightOk(a, t) && t.id == a.nextId
    ensures Inv(a)
  {
    hide Nodes, Multi, Outcomes, InFlightOk, HandlerPlaces, HandlePlaces;
    JoinedNodes(s, a, t);
    JoinedMulti(s, a, t);
    JoinedHandlers(s, a, t);
    JoinedHandles(s, a, t);
    EachOnceNext(HandlePlaces(s), s.nextEasy);
    OutcomesFrame(e, a);
    IdsBounded(s);
    AdmittedIds(e, a);
  }

  lemma IdsBounded(s: State)
    requires Nodes(s) && Ids(s)
    ensures forall i :: 0 <= i < |s.transfers| ==> 0 < s.transfers[i].id <= s.nextId
  {
    forall i | 0 <= i < |s.transfers| ensures 0 < s.transfers[i].id <= s.nextId {
      assert InFlightOk(s, s.transfers[i]);
    }
  }

  lemma AdmittedIds(e: State, a: State)
    requires Ids(e) && a.transfers != [] && a.transfers[1..] == e.transfers && a.issued == e.issued && a.nextId == e.nextId
    requires a.transfers[0].id == e.nextId
    requires forall i :: 0 <= i < |e.transfers| ==> e.transfers[i].id < e.nextId
    ensures Ids(a)
  {
    assert forall i :: 1 <= i < |a.transfers| ==> a.transfers[i] == e.transfers[i - 1];
  }

  lemma NextHandleHasNoMessage(s: State, a: State, t: Node)
    requires Multi(s) && Joined(s, a, t) && EachOnce(HandlePlaces(s), s.nextEasy)
    ensures t.eh !in s.added && !Done(s.msgs, t.eh) && DropMsgs(s.msgs, t.eh) == s.msgs
  {
    JoinedIsNew(s, a, t);
    assert forall i :: 0 <= i < |s.msgs| ==> s.msgs[i].eh in s.added;
    DropMsgsKeeps(s.msgs, t.eh);
  }

  /** Node i leaves and its handler settles as c. */
  lemma DepartKeeps(s: State, i: nat, q: State, t: State, c: Completion)
    requires Inv(s) && Retired(s, q, i) && c.ticket == s.transfers[i].handler.value && Honest(q, c)
    requires 0 <= q.running <= s.running && (q.running == s.running > 0 ==> |q.transfers| - |q.msgs| >= s.running)
    requires t == q.(posted := q.posted + [c]) || t == q.(delivered := q.delivered + [c])
    ensures Inv(t)
  {
    RetiredKeeps(s, q, i);
    SettleKeeps(q, t, c);
  }

  lemma AddThenRemove(p: State, eh: nat, k: nat)
    requires eh !in p.added && DropMsgs(p.msgs, eh) == p.msgs
    ensures RemoveHandle(p.(added := p.added[eh := k]), eh) == p
  {
    assert p.added[eh := k] - {eh} == p.added;
  }

  lemma RejectedIsRetired(s: State, a: State, p: State, t: Node)
    requires Multi(s) && Joined(s, a, t) && EachOnce(HandlePlaces(s), s.nextEasy)
    requires p.added == s.added && p.msgs == s.msgs && a == p.(added := p.added[t.eh := |s.issued|])
    ensures Retired(a, Retire(p, 0, true), 0)
  {
    NextHandleHasNoMessage(s, a, t);
    AddThenRemove(p, t.eh, |s.issued|);
    RetireYields(a, 0, true);
  }

  /** A handle libcurl refuses is retired at once, and the refusal posted. */
  lemma RejectedKeeps(s: State, r: Request, script: seq<Op>, env: StartEnv)
    requires Inv(s) && env.AddFails?
    ensures Inv(Start(s, r, script, env))
  {
    hide Matches;
    AdmittedKeeps(s, r, script, env);
    AdmittedJoins(s, r, script, env);
    AdmittedNode(s, r, script, env);
    RejectedIsRetired(s, Admitted(s, r, script, env), Prepare(s, r, script, env), StartedNode(s, r));
    DepartKeeps(Admitted(s, r, script, env), 0, Retire(Prepare(s, r, script, env), 0, true),
                Start(s, r, script, env), Failure(|s.issued|, StartFailureCode(env)));
  }

  lemma StartKeeps(s: State, r: Request, script: seq<Op>, env: StartEnv)
    requires Inv(s)
    ensures Inv(Start(s, r, script, env))
  {
    hide Inv, Start;
    if s.idle == [] && env.InitFails? {
      NoHandleKeeps(s, r, script, env);
    } else if env.AddFails? {
      RejectedKeeps(s, r, script, env);
    } else {
      AdmittedKeeps(s, r, script, env);
      AdmittedIsStart(s, r, script, env);
    }
  }

  lemma NoHandleKeeps(s: State, r: Request, script: seq<Op>, env: StartEnv)
    requires Inv(s) && s.idle == [] && env.InitFails?
    ensures Inv(Start(s, r, script, env))
  {
    hide Nodes, Ids, Multi, EachOnce, Effective, Prepare;
    var issue := Issue(r, script, env, 0);
    EnterKeeps(s, issue);
    SettleKeeps(Enter(s, issue), Start(s, r, script, env), Failure(|s.issued|, CURLE_FAILED_INIT));
  }

  lemma AdmittedIsStart(s: State, r: Request, script: seq<Op>, env: StartEnv)
    requires !env.AddFails? && (s.idle != [] || !env.InitFails?)
    ensures Start(s, r, script, env) == Admitted(s, r, script, env)
  {
    hide Effective;
  }

  // ---- cancel and completions ----

  lemma CancelKeeps(s: State, id: nat)
    requires Inv(s)
    ensures Inv(Cancel(s, id))
  {
    hide Matches, HandlePlaces, HandlerPlaces, EachOnce, InFlightOk, IdleOk, Ids, Outcomes;
    var found := IndexOfId(s.transfers, id);
    if found.Some? {
      var i := found.value;
      var t := s.transfers[i];
      HoldsHandler(s, i);
      RetireYields(s, i, true);
      var q := Retire(RemoveHandle(s, t.eh), i, true).(running := if s.running > 0 then s.running - 1 else s.running);
      DepartKeeps(s, i, q, Cancel(s, id), Abortion(t.handler.value));
    }
  }

  /** The completion check_completions makes of node t and message m. */
  function CompletionOf(t: Node, m: Msg): Completion
    requires t.handler.Some?
  {
    Completion(t.handler.value, ResultCode(m.code), Response(m.code, m.http, t.buffer, t.headerBuffer))
  }

  /** The node PRIVATE leads to is the one that added the handle, and the completion built from it is honest. */
  lemma CompleteFinds(s: State)
    requires Inv(s) && s.msgs != []
    ensures s.msgs[0].eh in s.easy
    ensures var i := Deref(s.transfers, s.easy[s.msgs[0].eh].req.private_);
      && i.Some? && s.transfers[i.value].eh == s.msgs[0].eh && s.transfers[i.value].handler.Some?
      && (!s.transfers[i.value].scrub ==> PoolReady(s.easy[s.msgs[0].eh]))
      && Honest(s, CompletionOf(s.transfers[i.value], s.msgs[0]))
  {
    hide Matches, EachOnce, HandlePlaces, HandlerPlaces;
    var m := s.msgs[0];
    assert m.eh in s.added && m.eh in Ehs(s.transfers);
    var i :| 0 <= i < |s.transfers| && Ehs(s.transfers)[i] == m.eh;
    assert InFlightOk(s, s.transfers[i]);
    MatchingOptions(s.easy[m.eh], m.eh, s.issued[s.transfers[i].handler.value].req);
    var j := Deref(s.transfers, s.easy[m.eh].req.private_).value;
    assert InFlightOk(s, s.transfers[j]);
  }

  lemma PopKeeps(s: State)
    requires Inv(s) && s.msgs != []
    ensures Inv(s.(msgs := s.msgs[1..]))
  {
    var p := s.(msgs := s.msgs[1..]);
    NodesFrame(s, p);
    OutcomesFrame(s, p);
    assert HandlePlaces(p) == HandlePlaces(s) && HandlerPlaces(p) == HandlerPlaces(s);
  }

  lemma CompleteRetires(s: State) returns (i: nat, q: State)
    requires Inv(s) && s.msgs != []
    ensures i < |s.transfers| && s.transfers[i].handler.Some?
    ensures Retired(s.(msgs := s.msgs[1..]), q, i) && q.running == s.running && |q.msgs| < |s.msgs|
    ensures var c := CompletionOf(s.transfers[i], s.msgs[0]);
      Honest(s, c) && Complete(s) == Some(q.(delivered := q.delivered + [c]))
  {
    hide Nodes, Ids, Outcomes, EachOnce, Honest, Matches;
    CompleteFinds(s);
    i := Deref(s.transfers, s.easy[s.msgs[0].eh].req.private_).value;
    var t, p := s.transfers[i], s.(msgs := s.msgs[1..]);
    RetireYields(p, i, t.scrub);
    q := Retire(RemoveHandle(p, t.eh), i, t.scrub);
  }

  /** The state once the handler of message m has been taken out of node i, and its call. */
  lemma CompleteUnfolds(s: State) returns (i: nat)
    requires Inv(s) && s.msgs != []
    ensures i < |s.transfers| && s.msgs[0].eh in s.easy && s.easy[s.msgs[0].eh].req.private_.NodePtr?
    ensures IndexOfEh(s.transfers, s.easy[s.msgs[0].eh].req.private_.node) == Some(i)
    ensures s.transfers[i].handler.Some? && s.transfers[i].handler.value < |s.issued| && s.transfers[i].eh == s.msgs[0].eh
    ensures var t, m := s.transfers[i], s.msgs[0];
      var q := Retire(RemoveHandle(s.(msgs := s.msgs[1..]), t.eh), i, t.scrub);
      Complete(s) == Some(q.(delivered := q.delivered + [CompletionOf(t, m)]))
  {
    hide Inv;
    CompleteFinds(s);
    i := Deref(s.transfers, s.easy[s.msgs[0].eh].req.private_).value;
  }

  lemma CompleteKeeps(s: State)
    requires Inv(s) && s.msgs != []
    ensures Complete(s).Some? && Inv(Complete(s).value)
  {
    var i, q := CompleteRetires(s);
    PopKeeps(s);
    var c := CompletionOf(s.transfers[i], s.msgs[0]);
    HonestFrame(s, q, c);
    DepartKeeps(s.(msgs := s.msgs[1..]), i, q, Complete(s).value, c);
  }

  lemma {:induction false} RunScriptKeeps(s: State, ops: seq<Op>)
    requires Inv(s)
    ensures Inv(RunScript(s, ops))
    decreases |ops|
  {
    hide Inv, Start, Cancel;
    if ops != [] {
      match ops[0]
      case StartOp(r, script, env) =>
        StartKeeps(s, r, script, env);
        RunScriptKeeps(Start(s, r, script, env), ops[1..]);
      case CancelOp(id) =>
        CancelKeeps(s, id);
        RunScriptKeeps(Cancel(s, id), ops[1..]);
    }
  }

  /** The whole invariant holds each time the loop invokes a handler, and the loop drains the message queue. */
  lemma {:induction false} CheckCompletionsKeeps(s: State)
    requires Inv(s)
    ensures Inv(CheckCompletions(s)) && CheckCompletions(s).msgs == []
    decreases |s.msgs|
  {
    hide Inv, Complete, RunScript;
    if s.msgs != [] {
      CompleteKeeps(s);
      var c := Complete(s).value;
      RunScriptKeeps(c, ScriptOf(c, LastDelivered(c)));
      CheckCompletionsKeeps(RunScript(c, ScriptOf(c, LastDelivered(c))));
    }
  }

  // ---- what libcurl does to a transfer ----

  /** t is s after libcurl worked on the transfer of node i: its buffers, its record and the message queue may differ. */
  ghost predicate Touched(s: State, t: State, i: nat) {
    && i < |s.transfers| && s.transfers[i].handler.Some? && s.transfers[i].handler.value < |s.wire| == |s.issued|
    && |t.transfers| == |s.transfers|
    && var n := s.transfers[i].(buffer := t.transfers[i].buffer, headerBuffer := t.transfers[i].headerBuffer);
    var k := n.handler.value;
    && |t.wire| == |s.wire|
    && t == s.(transfers := s.transfers[i := n], wire := s.wire[k := t.wire[k]], msgs := t.msgs)
    && n.buffer == BodyOf(s.issued[k].req, t.wire[k]) && n.headerBuffer == HeadOf(s.issued[k].req, t.wire[k])
  }

  lemma TouchedNodes(s: State, t: State, i: nat)
    requires Nodes(s) && Touched(s, t, i) && EachOnce(HandlerPlaces(s), |s.issued|)
    ensures Nodes(t)
  {
    DistinctTickets(s);
    assert InFlightOk(s, s.transfers[i]);
    forall j | 0 <= j < |t.transfers| ensures InFlightOk(t, t.transfers[j]) {
      assert InFlightOk(s, s.transfers[j]);
    }
    forall j | 0 <= j < |t.idle| ensures IdleOk(t, t.idle[j]) {
      assert IdleOk(s, s.idle[j]);
    }
  }

  lemma TouchedOutcomes(s: State, t: State, i: nat)
    requires Nodes(s) && Outcomes(s) && Touched(s, t, i) && EachOnce(HandlerPlaces(s), |s.issued|)
    ensures Outcomes(t)
  {
    DistinctTickets(s);
    forall j | 0 <= j < |t.posted| ensures Honest(t, t.posted[j]) {
      assert Honest(s, s.posted[j]) && s.posted[j].ticket != s.transfers[i].handler.value;
    }
    forall j | 0 <= j < |t.delivered| ensures Honest(t, t.delivered[j]) {
      assert Honest(s, s.delivered[j]) && s.delivered[j].ticket != s.transfers[i].handler.value;
    }
  }

  lemma TouchedCensus(s: State, t: State, i: nat)
    requires Touched(s, t, i)
    ensures HandlePlaces(t) == HandlePlaces(s) && HandlerPlaces(t) == HandlerPlaces(s)
    ensures Ehs(t.transfers) == Ehs(s.transfers) && (Ids(s) ==> Ids(t))
  {
    assert Ehs(t.transfers) == Ehs(s.transfers);
    assert Held(t.transfers) == Held(s.transfers);
  }

  lemma FlattenSnoc(chunks: seq<string>, data: string)
    ensures Flatten(chunks + [data]) == Flatten(chunks) + data
  {
    assert (chunks + [data])[..|chunks|] == chunks;
  }

  /** The pointers libcurl uses for a busy handle lead to the node that added it. */
  lemma BusyNode(s: State, eh: nat) returns (i: nat)
    requires Nodes(s) && Multi(s) && EachOnce(HandlePlaces(s), s.nextEasy) && Busy(s, eh)
    ensures i < |s.transfers| && s.transfers[i].eh == eh && InFlightOk(s, s.transfers[i])
    ensures s.added[eh] == s.transfers[i].handler.value
    ensures Deref(s.transfers, s.easy[eh].req.writeData) == Some(i)
    ensures s.easy[eh].req.headerData == HeaderBufferPtr(eh) && IndexOfEh(s.transfers, eh) == Some(i)
    ensures s.easy[eh].config.writeFunction == BodyWriteCb <==> KeepsBody(s.issued[s.added[eh]].req)
    ensures s.easy[eh].config.headerFunction == HeaderCb <==> KeepsHead(s.issued[s.added[eh]].req)
  {
    assert eh in Ehs(s.transfers);
    i :| 0 <= i < |s.transfers| && Ehs(s.transfers)[i] == eh;
    var t := s.transfers[i];
    assert InFlightOk(s, t);
    MatchingOptions(s.easy[eh], eh, s.issued[t.handler.value].req);
    CallbacksOfRequest(s.easy[eh], eh, s.issued[t.handler.value].req);
    UniqueIndex(s, i);
  }

  lemma UniqueIndex(s: State, i: nat)
    requires EachOnce(HandlePlaces(s), s.nextEasy) && i < |s.transfers|
    ensures IndexOfEh(s.transfers, s.transfers[i].eh) == Some(i)
  {
    DistinctHandles(s);
  }

  /** libcurl touched node i of handle eh, and queued a message for it or none. */
  ghost predicate Worked(s: State, t: State, i: nat, eh: nat) {
    && Touched(s, t, i) && s.transfers[i].eh == eh && eh in s.added && s.added[eh] == s.transfers[i].handler.value
    && !Done(s.msgs, eh)
    && (t.msgs == s.msgs ||
        (t.msgs != [] && t.msgs[|t.msgs| - 1].eh == eh && t.msgs[..|t.msgs| - 1] == s.msgs
         && t.wire[s.added[eh]].finished == Some(t.msgs[|t.msgs| - 1])))
  }

  /** The queued messages are about other requests than the one that is not over. */
  lemma MsgsOfOthers(s: State, eh: nat, i: nat)
    requires Nodes(s) && Multi(s) && EachOnce(HandlerPlaces(s), |s.issued|) && !Done(s.msgs, eh)
    requires i < |s.transfers| && s.transfers[i].eh == eh
    ensures forall j :: 0 <= j < |s.msgs| ==>
      s.msgs[j].eh != eh && s.msgs[j].eh in s.added && s.added[s.msgs[j].eh] != s.transfers[i].handler.value
  {
    hide Nodes, HandlerPlaces, EachOnce;
    DistinctTickets(s);
    TicketsOfHandles(s);
    forall j | 0 <= j < |s.msgs|
      ensures s.msgs[j].eh != eh && s.msgs[j].eh in s.added && s.added[s.msgs[j].eh] != s.transfers[i].handler.value
    {
      assert s.msgs[j].eh in Ehs(s.transfers);
      var o :| 0 <= o < |s.transfers| && Ehs(s.transfers)[o] == s.msgs[j].eh;
      assert s.transfers[o].handler != s.transfers[i].handler;
    }
  }

  lemma TicketsOfHandles(s: State)
    requires Nodes(s)
    ensures forall o :: 0 <= o < |s.transfers| ==>
      var t := s.transfers[o]; t.handler.Some? && t.eh in s.added && s.added[t.eh] == t.handler.value
  {
    hide Matches;
    forall o | 0 <= o < |s.transfers|
      ensures var t := s.transfers[o]; t.handler.Some? && t.eh in s.added && s.added[t.eh] == t.handler.value
    {
      assert InFlightOk(s, s.transfers[o]);
    }
  }

  lemma MsgsTouch(msgs: seq<Msg>, added: map<nat, nat>, wire: seq<Wire>, k: nat, w: Wire)
    requires MsgsOk(msgs, added, wire) && k < |wire|
    requires forall j :: 0 <= j < |msgs| ==> added[msgs[j].eh] != k
    ensures MsgsOk(msgs, added, wire[k := w])
  {
  }

  lemma MsgsAppend(msgs: seq<Msg>, added: map<nat, nat>, wire: seq<Wire>, m: Msg)
    requires MsgsOk(msgs, added, wire) && m.eh in added && added[m.eh] < |wire| && wire[added[m.eh]].finished == Some(m)
    requires forall j :: 0 <= j < |msgs| ==> msgs[j].eh != m.eh
    ensures MsgsOk(msgs + [m], added, wire)
  {
  }

  lemma WorkedMulti(s: State, t: State, i: nat, eh: nat)
    requires Nodes(s) && Multi(s) && EachOnce(HandlerPlaces(s), |s.issued|) && Worked(s, t, i, eh)
    ensures Multi(t)
  {
    hide Nodes, InFlightOk;
    TouchedCensus(s, t, i);
    MsgsOfOthers(s, eh, i);
    var k := s.added[eh];
    MsgsTouch(s.msgs, s.added, s.wire, k, t.wire[k]);
    if t.msgs != s.msgs {
      MsgsAppend(s.msgs, t.added, t.wire, t.msgs[|t.msgs| - 1]);
      assert t.msgs == s.msgs + [t.msgs[|t.msgs| - 1]];
    }
  }

  /** The state after node i and the record of request k took a body chunk. */
  function BodyGrown(s: State, i: nat, k: nat, data: string): State
    requires i < |s.transfers| && k < |s.wire|
  {
    var n, w := s.transfers[i], s.wire[k];
    s.(transfers := s.transfers[i := n.(buffer := n.buffer + data)], wire := s.wire[k := w.(body := w.body + [data])])
  }

  function HeadGrown(s: State, i: nat, k: nat, data: string): State
    requires i < |s.transfers| && k < |s.wire|
  {
    var n, w := s.transfers[i], s.wire[k];
    s.(transfers := s.transfers[i := n.(headerBuffer := n.headerBuffer + data)],
       wire := s.wire[k := w.(head := w.head + [data])])
  }

  /** The record alone of a chunk that went elsewhere. */
  function BodyHeard(s: State, k: nat, data: string): State
    requires k < |s.wire|
  {
    s.(wire := s.wire[k := s.wire[k].(body := s.wire[k].body + [data])])
  }

  function HeadHeard(s: State, k: nat, data: string): State
    requires k < |s.wire|
  {
    s.(wire := s.wire[k := s.wire[k].(head := s.wire[k].head + [data])])
  }

  /** The pointers of a busy handle lead to the node of the request that added it, and chunks go there. */
  lemma ChunkUnfolds(s: State, eh: nat, data: string) returns (i: nat)
    requires Core(s) && Busy(s, eh)
    ensures i < |s.transfers| && s.added[eh] < |s.wire|
    ensures s.easy[eh].req.writeData.NodePtr? && IndexOfEh(s.transfers, s.easy[eh].req.writeData.node) == Some(i)
    ensures s.easy[eh].req.headerData.HeaderBufferPtr? && IndexOfEh(s.transfers, s.easy[eh].req.headerData.node) == Some(i)
    ensures CurlAct(s, BodyChunk(eh, data)) ==
      if s.easy[eh].config.writeFunction == BodyWriteCb then BodyGrown(s, i, s.added[eh], data)
      else BodyHeard(s, s.added[eh], data)
    ensures CurlAct(s, HeaderChunk(eh, data)) ==
      if s.easy[eh].config.headerFunction == HeaderCb then HeadGrown(s, i, s.added[eh], data)
      else HeadHeard(s, s.added[eh], data)
  {
    hide Nodes, Multi, Ids, Outcomes, EachOnce, InFlightOk;
    i := BusyNode(s, eh);
  }

  lemma InvIsCore(s: State)
    requires Inv(s)
    ensures Core(s) && |s.wire| == |s.issued|
  {
  }

  /** A body chunk for node i, kept or not as its request says. */
  lemma BodyTouches(s: State, i: nat, data: string)
    requires i < |s.transfers| && InFlightOk(s, s.transfers[i])
    ensures var k := s.transfers[i].handler.value;
      Touched(s, if KeepsBody(s.issued[k].req) then BodyGrown(s, i, k, data) else BodyHeard(s, k, data), i)
  {
    hide Matches, KeepsBody, KeepsHead, Flatten;
    FlattenSnoc(s.wire[s.transfers[i].handler.value].body, data);
    assert s.transfers[i := s.transfers[i]] == s.transfers;
  }

  lemma HeadTouches(s: State, i: nat, data: string)
    requires i < |s.transfers| && InFlightOk(s, s.transfers[i])
    ensures var k := s.transfers[i].handler.value;
      Touched(s, if KeepsHead(s.issued[k].req) then HeadGrown(s, i, k, data) else HeadHeard(s, k, data), i)
  {
    hide Matches, KeepsBody, KeepsHead, Flatten;
    FlattenSnoc(s.wire[s.transfers[i].handler.value].head, data);
    assert s.transfers[i := s.transfers[i]] == s.transfers;
  }

  lemma BodyChunkWorks(s: State, eh: nat, data: string) returns (i: nat)
    requires Core(s) && Busy(s, eh)
    ensures Worked(s, CurlAct(s, BodyChunk(eh, data)), i, eh)
  {
    hide Nodes, Multi, Ids, Outcomes, EachOnce, InFlightOk, CurlAct, Touched, KeepsBody, KeepsHead;
    i := ChunkUnfolds(s, eh, data);
    var j := BusyNode(s, eh);
    BodyTouches(s, j, data);
    HasHandler(s, j);
  }

  lemma HeaderChunkWorks(s: State, eh: nat, data: string) returns (i: nat)
    requires Core(s) && Busy(s, eh)
    ensures Worked(s, CurlAct(s, HeaderChunk(eh, data)), i, eh)
  {
    hide Nodes, Multi, Ids, Outcomes, EachOnce, InFlightOk, CurlAct, Touched, KeepsBody, KeepsHead;
    i := ChunkUnfolds(s, eh, data);
    var j := BusyNode(s, eh);
    HeadTouches(s, j, data);
    HasHandler(s, j);
  }

  lemma HasHandler(s: State, i: nat)
    requires i < |s.transfers| && InFlightOk(s, s.transfers[i])
    ensures s.transfers[i].handler.Some? && s.transfers[i].eh in s.added && s.transfers[i].handler.value < |s.wire|
  {
  }

  lemma FinishWorks(s: State, eh: nat, code: nat, http: int) returns (i: nat)
    requires Core(s) && Busy(s, eh)
    ensures Worked(s, CurlAct(s, Finish(eh, code, http)), i, eh)
  {
    hide Nodes, Multi, Ids, Outcomes, EachOnce, Matches;
    i := BusyNode(s, eh);
    assert s.transfers[i := s.transfers[i]] == s.transfers;
  }

  lemma CurlActWorks(s: State, a: Act) returns (i: nat)
    requires Core(s) && Busy(s, a.eh)
    ensures Worked(s, CurlAct(s, a), i, a.eh)
  {
    match a
    case BodyChunk(eh, data) => i := BodyChunkWorks(s, eh, data);
    case HeaderChunk(eh, data) => i := HeaderChunkWorks(s, eh, data);
    case Finish(eh, code, http) => i := FinishWorks(s, eh, code, http);
  }

  lemma CurlActKeeps(s: State, a: Act)
    requires Core(s)
    ensures Core(CurlAct(s, a))
  {
    var t := CurlAct(s, a);
    if Busy(s, a.eh) {
      var i := CurlActWorks(s, a);
      TouchedNodes(s, t, i);
      TouchedOutcomes(s, t, i);
      TouchedCensus(s, t, i);
      WorkedMulti(s, t, i, a.eh);
    }
  }

  lemma {:induction false} CurlActsKeep(s: State, acts: seq<Act>)
    requires Core(s)
    ensures Core(CurlActs(s, acts))
    decreases |acts|
  {
    if acts != [] {
      CurlActKeeps(s, acts[0]);
      CurlActsKeep(CurlAct(s, acts[0]), acts[1..]);
    }
  }

  /** The multi holds exactly the transfers in flight, one message each at most. */
  lemma MultiCounts(s: State)
    requires Multi(s) && EachOnce(HandlePlaces(s), s.nextEasy)
    ensures |s.added| == |s.transfers| >= |s.msgs|
  {
    DistinctHandles(s);
    DistinctCount(Ehs(s.transfers));
    assert s.added.Keys == SetOf(Ehs(s.transfers));
    var ehs := seq(|s.msgs|, j requires 0 <= j < |s.msgs| => s.msgs[j].eh);
    DistinctFit(ehs, Ehs(s.transfers));
  }

  lemma SocketActionKeeps(s: State, acts: seq<Act>)
    requires Core(s)
    ensures Inv(SocketAction(s, acts))
    ensures SocketAction(s, acts).running == |SocketAction(s, acts).transfers| - |SocketAction(s, acts).msgs|
  {
    var t, u := CurlActs(s, acts), SocketAction(s, acts);
    CurlActsKeep(s, acts);
    MultiCounts(t);
    NodesFrame(t, u);
    OutcomesFrame(t, u);
    assert HandlePlaces(u) == HandlePlaces(t) && HandlerPlaces(u) == HandlerPlaces(t);
  }

  lemma DestroyKeeps(s: State)
    requires Core(s)
    ensures Core(Destroy(s))
  {
    var t := Destroy(s);
    OutcomesFrame(s, t);
    assert Held(t.transfers) == [] && Ehs(t.transfers) == [] && Ehs(t.idle) == [];
    assert HandlePlaces(t) == HandlePlaces(s);
    assert HandlerPlaces(t) == HandlerPlaces(s);
  }

  // ---- runs ----

  /** A posted completion about to run: its handler is between places. */
  lemma UnpostKeeps(s: State, q: State, i: nat)
    requires Core(s) && i < |s.posted| && q == s.(posted := RemoveAt(s.posted, i))
    ensures Nodes(q) && Ids(q) && Multi(q) && Outcomes(q) && EachOnce(HandlePlaces(q), q.nextEasy)
    ensures HandlerPlaces(q) + multiset{s.posted[i].ticket} == HandlerPlaces(s) && Honest(q, s.posted[i])
  {
    hide InFlightOk, IdleOk;
    NodesFrame(s, q);
    MultiFrame(s, q);
    forall x | Honest(s, x) ensures Honest(q, x) {
      HonestFrame(s, q, x);
    }
    assert TicketsOf(q.posted) == RemoveAt(TicketsOf(s.posted), i);
    RemoveAtMultiset(TicketsOf(s.posted), i);
    assert HandlePlaces(q) == HandlePlaces(s);
  }

  lemma RunPostedKeeps(s: State, i: nat)
    requires Inv(s)
    ensures Inv(Step(s, RunPosted(i)))
  {
    hide Nodes, Ids, Multi, Outcomes, Honest, EachOnce, HandlePlaces, HandlerPlaces, RunScript;
    if i < |s.posted| {
      var c, q := s.posted[i], s.(posted := RemoveAt(s.posted, i));
      var d := q.(delivered := q.delivered + [c]);
      UnpostKeeps(s, q, i);
      SettleKeeps(q, d, c);
      RunScriptKeeps(d, ScriptOf(d, c.ticket));
    }
  }

  lemma StepKeeps(s: State, e: Event)
    requires Inv(s)
    ensures Inv(Step(s, e))
  {
    match e
    case UserStart(r, script, env) => StartKeeps(s, r, script, env);
    case UserCancel(id) => CancelKeeps(s, id);
    case Action(acts) =>
      SocketActionKeeps(s, acts);
      CheckCompletionsKeeps(SocketAction(s, acts));
    case RunPosted(i) => RunPostedKeeps(s, i);
    case Destruct =>
      DestroyKeeps(s);
      MultiCounts(s);
  }
}
