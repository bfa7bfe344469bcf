/**
 * The transfer lifecycle as the Client class carries it out: list nodes and
 * easy handles that are objects, nodes moving between two lists, options set
 * one call at a time, counters and flags updated in place. Every method is
 * proved against the state machine of LifecycleSpec.
 */
module Lifecycle {
  import opened Common
  import opened EasyHandle
  import opened LifecycleSpec
  import opened LifecycleProofs

  /** A CURL*. */
  class Easy {
    const num: nat
    var opts: Options

    constructor (n: nat)
      ensures num == n && opts == Fresh()
    {
      num, opts := n, Fresh();
    }

    method SetOpt(s: Setting)
      modifies this
      ensures opts == Set(old(opts), s)
    {
      opts := Set(opts, s);
    }

    method Reset()
      modifies this
      ensures opts == Fresh()
    {
      opts := Fresh();
    }
  }

  /** libcurl. Freeing a handle that is not live, or is still in the multi, is ruled out. */
  class Curl {
    var easy: map<nat, Easy>
    var nextEasy: nat
    var freed: seq<nat>
    var added: map<nat, nat>  // the handles in the multi, with the handler each is working for
    var msgs: seq<Msg>

    constructor ()
      ensures easy == map[] && nextEasy == 0 && freed == [] && added == map[] && msgs == []
    {
      easy, nextEasy, freed, added, msgs := map[], 0, [], map[], [];
    }

    predicate Live(e: Easy)
      reads `easy
    {
      e.num in easy && easy[e.num] == e
    }

    method EasyInit() returns (e: Easy)
      modifies this`easy, this`nextEasy
      ensures fresh(e) && e.num == old(nextEasy) && e.opts == Fresh()
      ensures nextEasy == old(nextEasy) + 1 && easy == old(easy)[e.num := e]
    {
      e := new Easy(nextEasy);
      easy, nextEasy := easy[e.num := e], nextEasy + 1;
    }

    method EasyCleanup(e: Easy)
      requires Live(e) && e.num !in added
      modifies this`easy, this`freed
      ensures easy == old(easy) - {e.num} && freed == old(freed) + [e.num]
    {
      easy, freed := easy - {e.num}, freed + [e.num];
    }

    method AddHandle(e: Easy, h: nat)
      requires Live(e) && e.num !in added
      modifies this`added
      ensures added == old(added)[e.num := h]
    {
      added := added[e.num := h];
    }

    method RemoveHandle(e: Easy)
      requires Live(e)
      modifies this`added, this`msgs
      ensures added == old(added) - {e.num} && msgs == DropMsgs(old(msgs), e.num)
    {
      added, msgs := added - {e.num}, DropMsgs(msgs, e.num);
    }

    /** libcurl's side: a transfer is over. */
    method QueueDone(m: Msg)
      modifies this`msgs
      ensures msgs == old(msgs) + [m]
    {
      msgs := msgs + [m];
    }

    method InfoRead() returns (msg: Option<Msg>)
      modifies this`msgs
      ensures old(msgs) == [] ==> msg == None && msgs == []
      ensures old(msgs) != [] ==> msg == Some(old(msgs)[0]) && msgs == old(msgs)[1..]
    {
      if msgs == [] {
        msg := None;
      } else {
        msg, msgs := Some(msgs[0]), msgs[1..];
      }
    }
  }

  /** The completions posted to the io_context and not yet run. */
  class EventLoop {
    var posted: seq<Completion>

    constructor ()
      ensures posted == []
    {
      posted := [];
    }

    method Post(c: Completion)
      modifies this
      ensures posted == old(posted) + [c]
    {
      posted := posted + [c];
    }
  }

  class Transfer {
    const eh: Easy
    var headers: seq<string>
    var body: string
    var buffer: string
    var headerBuffer: string
    var handler: Option<nat>
    var self: Transfer?
    var id: nat
    var scrubOnDone: bool

    constructor (e: Easy)
      ensures eh == e && View() == Blank(e.num)
    {
      eh := e;
      headers, body, buffer, headerBuffer := [], "", "", "";
      handler, self, id, scrubOnDone := None, null, 0, false;
    }

    function View(): Node
      reads this
    {
      Node(eh.num, headers, body, buffer, headerBuffer, handler, id, scrubOnDone)
    }
  }

  /** What a retiring node still held does not matter. */
  lemma RetireForgets(s: State, i: nat, n: Node, scrub: bool)
    requires i < |s.transfers| && n.eh == s.transfers[i].eh
    ensures LifecycleSpec.Retire(s.(transfers := s.transfers[i := n]), i, scrub) == LifecycleSpec.Retire(s, i, scrub)
  {
    assert RemoveAt(s.transfers[i := n], i) == RemoveAt(s.transfers, i);
  }

  lemma PostedInvoked(s: State, i: nat)
    requires Inv(s) && i < |s.posted|
    ensures Inv(s.(posted := RemoveAt(s.posted, i), delivered := s.delivered + [s.posted[i]]))
    ensures s.posted[i].ticket < |s.issued|
  {
    var q := s.(posted := RemoveAt(s.posted, i));
    UnpostKeeps(s, q, i);
    hide Nodes, Ids, Multi, Outcomes, EachOnce, HandlePlaces, HandlerPlaces;
    SettleKeeps(q, q.(delivered := q.delivered + [s.posted[i]]), s.posted[i]);
  }

  lemma CoreWire(s: State)
    requires Core(s)
    ensures |s.wire| == |s.issued|
  {
  }

  lemma IdleHandle(s: State, a: Act)
    requires !Busy(s, a.eh)
    ensures CurlAct(s, a) == s
  {
  }

  lemma {:induction false} FirstIndexOfEh(ts: seq<Node>, n: nat, i: nat)
    requires i < |ts| && ts[i].eh == n && forall j :: 0 <= j < i ==> ts[j].eh != n
    ensures IndexOfEh(ts, n) == Some(i)
  {
    if i > 0 {
      FirstIndexOfEh(ts[1..], n, i - 1);
    }
  }

  /** A node is drawn ... */
  ghost function Drawn(s: State): State {
    if s.idle == [] then
      s.(transfers := [Blank(s.nextEasy)] + s.transfers, easy := s.easy[s.nextEasy := Configure(Fresh())],
         nextEasy := s.nextEasy + 1)
    else s.(transfers := [s.idle[0]] + s.transfers, idle := s.idle[1..])
  }

  /** ... loaded with request r for handler h ... */
  ghost function Loaded(s: State, r: Request, h: nat, id: nat): State
    requires s.transfers != [] && s.transfers[0].eh in s.easy
  {
    var n := s.transfers[0];
    s.(transfers := s.transfers[0 := n.(handler := Some(h), id := id, body := r.body, headers := r.headers,
                                        scrub := r.hook.Some? || n.scrub)],
       easy := s.easy[n.eh := Effective(s.easy[n.eh], n.eh, r)])
  }

  /** ... and the request entered, which is all start does before it adds the handle. */
  ghost function Enlisted(s: State, issue: Issue): State {
    s.(nextId := issue.id, issued := s.issued + [issue], wire := s.wire + [Wire([], [], None)])
  }

  lemma PrepareInSteps(s: State, r: Request, script: seq<Op>, env: StartEnv)
    requires if s.idle == [] then s.nextEasy !in s.easy else s.idle[0].eh in s.easy
    ensures Enlisted(Loaded(Drawn(s), r, |s.issued|, s.nextId + 1), Issue(r, script, env, s.nextId + 1))
            == Prepare(s, r, script, env)
    ensures Drawn(s).nextId == s.nextId && Drawn(s).issued == s.issued
    ensures Loaded(Drawn(s), r, |s.issued|, s.nextId + 1).nextId == s.nextId
  {
    hide Effective;
    if s.idle == [] {
      Overwrite(s.easy, s.nextEasy, Configure(Fresh()), Effective(Configure(Fresh()), s.nextEasy, r));
    }
  }

  function Nums(ts: seq<Transfer>): (r: seq<nat>)
    ensures |r| == |ts| && forall i :: 0 <= i < |ts| ==> r[i] == ts[i].eh.num
  {
    seq(|ts|, i requires 0 <= i < |ts| => ts[i].eh.num)
  }

  lemma NumsNext(ts: seq<Transfer>, i: nat)
    requires i < |ts|
    ensures Nums(ts[..i + 1]) == Nums(ts[..i]) + [ts[i].eh.num]
    ensures SetOf(Nums(ts[..i + 1])) == SetOf(Nums(ts[..i])) + {ts[i].eh.num}
  {
    assert Nums(ts[..i + 1]) == Nums(ts[..i]) + [ts[i].eh.num];
  }

  /** Every live handle, every handle in the multi and every message belongs to a node of the two lists. */
  lemma AllListed(s: State)
    requires Core(s)
    ensures forall n :: n in s.easy ==> n in SetOf(Ehs(s.transfers)) || n in SetOf(Ehs(s.idle))
    ensures forall n :: n in s.added <==> n in SetOf(Ehs(s.transfers))
    ensures forall m :: m in s.msgs ==> m.eh in SetOf(Ehs(s.transfers))
    ensures forall i :: 0 <= i < |s.idle| ==> s.idle[i].eh !in s.added
  {
    hide Nodes, Ids, Outcomes, HandlerPlaces;
    DistinctHandles(s);
  }

  lemma MessagesNeedHandles(msgs: seq<Msg>, added: map<nat, nat>)
    requires forall m :: m in msgs ==> m.eh in added
    ensures msgs != [] ==> added != map[]
  {
    if msgs != [] {
      assert msgs[0] in msgs;
    }
  }

  ghost function Lowered(s: State): State {
    s.(running := if s.running > 0 then s.running - 1 else s.running)
  }

  lemma CancelInSteps(s: State, i: nat)
    requires i < |s.transfers| && s.transfers[i].handler.Some?
    ensures var n := s.transfers[i];
      var r := LifecycleSpec.Retire(Lowered(RemoveHandle(s, n.eh)), i, true);
      IndexOfId(s.transfers, n.id) == Some(i) ==>
        LifecycleSpec.Cancel(s, n.id) == r.(posted := r.posted + [Abortion(n.handler.value)])
  {
  }

  class Client {
    const curl: Curl
    const loop: EventLoop
    const maxPooledHandles: nat
    var transfers: seq<Transfer>
    var idle: seq<Transfer>
    var running: int
    var nextTransferId: nat
    var alive: bool
    var scripts: seq<seq<Op>>  // what each handler given to start does when it is run
    ghost var state: State     // the abstract state, which Valid ties to the fields above
    ghost var repr: set<object>

    constructor (c: Curl, l: EventLoop, cap: nat)
      requires c.easy == map[] && c.nextEasy == 0 && c.freed == [] && c.added == map[] && c.msgs == [] && l.posted == []
      ensures curl == c && loop == l && Valid() && state == Init(cap) && repr == {this, c, l}
    {
      curl, loop, maxPooledHandles := c, l, cap;
      transfers, idle, running, nextTransferId, alive, scripts := [], [], 0, 0, true, [];
      state, repr := Init(cap), {this, c, l};
    }

    /** Object t is node n: its content, its own list position, and its live handle. */
    ghost predicate Mirrors(t: Transfer, n: Node)
      reads t, curl`easy
    {
      t.View() == n && t.self == t && n.eh in curl.easy && curl.easy[n.eh] == t.eh
    }

    /** The fields hold what the abstract state says, in objects of repr. */
    ghost predicate Valid()
      reads this, repr
    {
      && {this, curl, loop} <= repr && (forall t :: t in transfers + idle ==> t in repr)
      && (forall n :: n in curl.easy ==> curl.easy[n] in repr)
      && |transfers| == |state.transfers| && (forall i :: 0 <= i < |transfers| ==> Mirrors(transfers[i], state.transfers[i]))
      && |idle| == |state.idle| && (forall i :: 0 <= i < |idle| ==> Mirrors(idle[i], state.idle[i]))
      && state.easy.Keys == curl.easy.Keys
      && (forall n :: n in curl.easy ==> curl.easy[n].num == n && curl.easy[n].opts == state.easy[n])
      && Scalars()
    }

    /** No other node has the handle of the one at position i. */
    ghost predicate Sole(i: nat)
      requires i < |transfers|
      reads `transfers, `idle
    {
      && (forall j :: 0 <= j < |transfers| && j != i ==> transfers[j].eh.num != transfers[i].eh.num)
      && (forall j :: 0 <= j < |idle| ==> idle[j].eh.num != transfers[i].eh.num)
    }

    ghost predicate Scalars()
      reads this, curl, loop
    {
      && state.maxPooled == maxPooledHandles && state.running == running && state.nextId == nextTransferId && state.alive == alive
      && state.nextEasy == curl.nextEasy && state.freed == curl.freed && state.added == curl.added && state.msgs == curl.msgs
      && state.posted == loop.posted
      && |scripts| == |state.issued| && (forall k :: 0 <= k < |scripts| ==> scripts[k] == state.issued[k].script)
    }

    method ConfigureHandle(eh: Easy)
      modifies eh
      ensures eh.opts == Configure(old(eh.opts))
    {
      eh.SetOpt(WriteFunction(Callback.BodyWriteCb));
      eh.SetOpt(HeaderFunction(Callback.HeaderCb));
      eh.SetOpt(NoSignal(1));
      eh.SetOpt(MaxLifetimeConn(30));
      eh.SetOpt(AcceptEncoding(Some("")));
      eh.SetOpt(PipeWait(1));
      eh.SetOpt(BufferSize(512 * 1024));
      eh.SetOpt(OpenSocketFunction(OpenSocketCb));
      eh.SetOpt(OpenSocketData(true));
      eh.SetOpt(CloseSocketFunction(CloseSocketCb));
      eh.SetOpt(CloseSocketData(true));
    }

    method SetBody(t: Transfer)
      modifies t.eh
      ensures var o := old(t.eh.opts);
        t.eh.opts == o.(req := o.req.(postFieldSize := |t.body|, postFields := BodyPtr(t.eh.num), verb := PostVerb))
    {
      t.eh.SetOpt(PostFieldSize(|t.body|));
      t.eh.SetOpt(PostFields(BodyPtr(t.eh.num)));
    }

    /** Everything a transfer can vary, set again on every start: handles are reused without a reset. */
    method SetRequestOptions(t: Transfer, r: Request)
      requires t.body == r.body
      modifies t`headers, t.eh
      ensures t.headers == r.headers && t.eh.opts == Apply(old(t.eh.opts), t.eh.num, r)
    {
      SetTarget(t.eh, r);
      SetLimits(t.eh, r);
      var chunk := HeaderList(r);
      t.eh.SetOpt(HttpHeader(if chunk == [] then Null else HeaderListPtr(t.eh.num)));
      t.headers := chunk;
      SetMethod(t, r);
    }

    method SetTarget(eh: Easy, r: Request)
      modifies eh
      ensures var o := old(eh.opts);
        eh.opts == o.(req := o.req.(
          url := r.url, writeData := NodePtr(eh.num), headerData := HeaderBufferPtr(eh.num), private_ := NodePtr(eh.num)))
    {
      eh.SetOpt(Url(r.url));
      eh.SetOpt(WriteData(NodePtr(eh.num)));
      eh.SetOpt(HeaderData(HeaderBufferPtr(eh.num)));
      eh.SetOpt(Private(NodePtr(eh.num)));
    }

    method SetLimits(eh: Easy, r: Request)
      modifies eh
      ensures var o := old(eh.opts);
        eh.opts == o.(req := o.req.(
          timeoutMs := r.timeoutMs, followLocation := if r.maxRedirects != 0 then 1 else 0, maxRedirs := r.maxRedirects))
    {
      eh.SetOpt(TimeoutMs(r.timeoutMs));
      eh.SetOpt(FollowLocation(if r.maxRedirects != 0 then 1 else 0));
      eh.SetOpt(MaxRedirs(r.maxRedirects));
    }

    method HeaderList(r: Request) returns (chunk: seq<string>)
      ensures chunk == r.headers
    {
      chunk := [];
      for i := 0 to |r.headers|
        invariant chunk == r.headers[..i]
      {
        chunk := chunk + [r.headers[i]];
      }
    }

    method SetMethod(t: Transfer, r: Request)
      requires t.body == r.body
      modifies t.eh
      ensures var o := old(t.eh.opts);
        t.eh.opts == o.(req := o.req.(
          customRequest := CustomVerb(r.verb), verb := if r.verb.GET? then GetVerb else PostVerb,
          postFields := if r.verb.GET? then Null else BodyPtr(t.eh.num),
          postFieldSize := if r.verb.GET? then o.req.postFieldSize else |r.body|))
    {
      match r.verb {
        case GET =>
          t.eh.SetOpt(CustomRequest(None));
          t.eh.SetOpt(PostFields(Null));  // selects POST, so it goes before HTTPGET
          t.eh.SetOpt(HttpGet);
        case POST => Upload(t, None);
        case PUT => Upload(t, Some("PUT"));
        case PATCH => Upload(t, Some("PATCH"));
        case DEL => Upload(t, Some("DELETE"));
      }
    }

    method Upload(t: Transfer, custom: Option<string>)
      modifies t.eh
      ensures var o := old(t.eh.opts);
        t.eh.opts == o.(req := o.req.(
          customRequest := custom, verb := PostVerb, postFields := BodyPtr(t.eh.num), postFieldSize := |t.body|))
    {
      t.eh.SetOpt(CustomRequest(custom));
      t.eh.SetOpt(Post);
      SetBody(t);
    }

    /** The Request::curl escape hatch: its settings run last. */
    method RunHook(eh: Easy, hook: seq<HookSetting>)
      modifies eh
      ensures eh.opts == SetAll(old(eh.opts), hook)
    {
      for i := 0 to |hook|
        invariant SetAll(eh.opts, hook[i..]) == SetAll(old(eh.opts), hook)
      {
        assert hook[i..][0] == hook[i] && hook[i..][1..] == hook[i + 1..];
        eh.SetOpt(hook[i]);
      }
    }

    method MakeHandle() returns (eh: Easy)
      requires Valid() && curl.nextEasy !in curl.easy
      modifies this`state, this`repr, curl`easy, curl`nextEasy
      ensures Valid() && fresh(eh) && eh.num == old(curl.nextEasy) && curl.Live(eh) && repr == old(repr) + {eh}
      ensures var s := old(state);
        state == s.(easy := s.easy[s.nextEasy := Configure(Fresh())], nextEasy := s.nextEasy + 1)
    {
      ghost var s := state;
      eh := curl.EasyInit();
      ConfigureHandle(eh);
      repr, state := repr + {eh}, s.(easy := s.easy[s.nextEasy := Configure(Fresh())], nextEasy := s.nextEasy + 1);
      forall n | n in curl.easy ensures curl.easy[n].num == n && curl.easy[n].opts == state.easy[n] {
        assert n != eh.num ==> curl.easy[n] == old(curl.easy[n]) && old(curl.easy[n].opts) == s.easy[n];
      }
      forall i | 0 <= i < |transfers| ensures Mirrors(transfers[i], state.transfers[i]) {
        assert old(Mirrors(transfers[i], state.transfers[i]));
      }
      forall i | 0 <= i < |idle| ensures Mirrors(idle[i], state.idle[i]) {
        assert old(Mirrors(idle[i], state.idle[i]));
      }
    }

    /** transfers_.emplace_front: a node just made heads transfers. */
    method Enroll(t: Transfer)
      requires Valid() && t.self == t && curl.Live(t.eh) && t.View() == Blank(t.eh.num)
      modifies `transfers, `repr, `state
      ensures Valid() && transfers == [t] + old(transfers) && repr == old(repr) + {t}
      ensures state == old(state).(transfers := [Blank(t.eh.num)] + old(state).transfers)
    {
      transfers, repr := [t] + transfers, repr + {t};
      state := state.(transfers := [Blank(t.eh.num)] + state.transfers);
    }

    /** Make a node with a configured handle; it heads transfers. */
    method MakeNode() returns (t: Transfer)
      requires Valid() && idle == [] && curl.nextEasy !in curl.easy
      modifies this, curl
      ensures Valid() && transfers == [t] + old(transfers) && idle == [] && fresh(repr - old(repr))
      ensures state == Drawn(old(state)) && t.eh.num == old(state).nextEasy
    {
      hide Valid;
      Counters();
      var eh := MakeHandle();
      t := new Transfer(eh);
      t.self := t;
      Enroll(t);
    }

    /** Move the first idle node to the head of transfers. */
    method TakeNode() returns (t: Transfer)
      requires Valid() && idle != []
      modifies this
      ensures Valid() && transfers == [t] + old(transfers) && [t] + idle == old(idle) && repr == old(repr)
      ensures state == Drawn(old(state))
    {
      ghost var s := state;
      t, idle := idle[0], idle[1..];
      transfers := [t] + transfers;
      state := s.(transfers := [s.idle[0]] + s.transfers, idle := s.idle[1..]);
    }

    /** Load node t with request r and handler h. */
    method Load(t: Transfer, r: Request, h: nat, id: nat)
      modifies t, t.eh
      ensures t.self == t
      ensures t.View() == old(t.View()).(handler := Some(h), id := id, body := r.body, headers := r.headers,
                                         scrub := r.hook.Some? || old(t.scrubOnDone))
      ensures t.eh.opts == Effective(old(t.eh.opts), t.eh.num, r)
    {
      t.self := t;
      t.handler := Some(h);
      t.body := r.body;
      t.id := id;
      SetRequestOptions(t, r);
      if r.hook.Some? {
        t.scrubOnDone := true;
        RunHook(t.eh, r.hook.value);
      }
    }

    method LoadAt(t: Transfer, r: Request, h: nat, id: nat)
      requires Valid() && transfers != [] && transfers[0] == t
      requires Sole(0)
      modifies t, t.eh, this`state
      ensures Valid() && old(state).transfers[0].eh in old(state).easy && state == Loaded(old(state), r, h, id)
    {
      hide Effective;
      ghost var s := state;
      assert Mirrors(t, s.transfers[0]);
      Load(t, r, h, id);
      state := Loaded(s, r, h, id);
      forall n | n in curl.easy ensures curl.easy[n].num == n && curl.easy[n].opts == state.easy[n] {
        assert old(curl.easy[n].opts) == s.easy[n];
        assert curl.easy[n] != t.eh ==> curl.easy[n].opts == old(curl.easy[n].opts);
      }
      forall j | 0 <= j < |transfers| ensures Mirrors(transfers[j], state.transfers[j]) {
        assert old(Mirrors(transfers[j], state.transfers[j]));
      }
      forall j | 0 <= j < |idle| ensures Mirrors(idle[j], state.idle[j]) {
        assert old(Mirrors(idle[j], state.idle[j]));
      }
    }

    method Enlist(r: Request, script: seq<Op>, ghost env: StartEnv)
      requires Valid()
      modifies `nextTransferId, `scripts, `state
      ensures Valid() && state == Enlisted(old(state), Issue(r, script, env, old(state).nextId + 1))
    {
      nextTransferId := nextTransferId + 1;
      scripts := scripts + [script];
      state := Enlisted(state, Issue(r, script, env, state.nextId + 1));
    }

    /** Where an iterator points. */
    method Position(t: Transfer) returns (i: nat)
      requires t in transfers
      ensures i < |transfers| && transfers[i] == t && t !in transfers[..i]
    {
      i := 0;
      while transfers[i] != t
        invariant i < |transfers| && t !in transfers[..i]
        decreases |transfers| - i
      {
        i := i + 1;
      }
    }

    /** Wipe what the transfer left in its node, and with scrub also its handle's options. */
    method Wipe(t: Transfer, scrub: bool)
      modifies t, t.eh
      ensures t.View() == Blank(t.eh.num).(handler := old(t.handler)) && t.self == old(t.self)
      ensures t.eh.opts == if scrub then Configure(Fresh()) else old(t.eh.opts)
    {
      t.headers := [];
      t.id := 0;
      t.scrubOnDone := false;
      t.buffer := "";
      t.headerBuffer := "";
      t.body := "";
      if scrub {
        t.eh.Reset();
        ConfigureHandle(t.eh);
      }
    }

    method WipeAt(t: Transfer, scrub: bool, ghost i: nat)
      requires Valid() && i < |transfers| && transfers[i] == t && t.handler == None
      requires Sole(i)
      modifies t, t.eh, this`state
      ensures Valid()
      ensures var s, eh := old(state), t.eh.num;
        state == s.(transfers := s.transfers[i := Blank(eh)], easy := if scrub then s.easy[eh := Configure(Fresh())] else s.easy)
    {
      ghost var s, eh := state, t.eh.num;
      Wipe(t, scrub);
      state := s.(transfers := s.transfers[i := Blank(eh)], easy := if scrub then s.easy[eh := Configure(Fresh())] else s.easy);
      forall j | 0 <= j < |transfers| ensures Mirrors(transfers[j], state.transfers[j]) {
        assert old(Mirrors(transfers[j], state.transfers[j]));
      }
      forall j | 0 <= j < |idle| ensures Mirrors(idle[j], state.idle[j]) {
        assert old(Mirrors(idle[j], state.idle[j]));
      }
    }

    method Pool(t: Transfer, at: nat)
      requires Valid() && at < |transfers| && transfers[at] == t
      modifies this
      ensures Valid() && repr == old(repr)
      ensures var s := old(state); state == s.(transfers := RemoveAt(s.transfers, at), idle := [s.transfers[at]] + s.idle)
    {
      ghost var s := state;
      idle, transfers := [t] + idle, RemoveAt(transfers, at);
      state := s.(transfers := RemoveAt(s.transfers, at), idle := [s.transfers[at]] + s.idle);
      forall j | 0 <= j < |transfers| ensures Mirrors(transfers[j], state.transfers[j]) {
        var o := if j < at then j else j + 1;
        assert old(Mirrors(transfers[o], state.transfers[o]));
      }
    }

    method Free(t: Transfer, at: nat)
      requires Valid() && at < |transfers| && transfers[at] == t && t.eh.num !in curl.added
      requires Sole(at)
      modifies this, curl
      ensures Valid() && repr == old(repr)
      ensures var s, eh := old(state), t.eh.num;
        state == s.(transfers := RemoveAt(s.transfers, at), easy := s.easy - {eh}, freed := s.freed + [eh])
    {
      ghost var s, eh := state, t.eh.num;
      assert Mirrors(t, s.transfers[at]);
      curl.EasyCleanup(t.eh);
      transfers := RemoveAt(transfers, at);
      state := s.(transfers := RemoveAt(s.transfers, at), easy := s.easy - {eh}, freed := s.freed + [eh]);
      forall j | 0 <= j < |transfers| ensures Mirrors(transfers[j], state.transfers[j]) {
        var o := if j < at then j else j + 1;
        assert old(Mirrors(transfers[o], state.transfers[o]));
      }
      forall j | 0 <= j < |idle| ensures Mirrors(idle[j], state.idle[j]) {
        assert old(Mirrors(idle[j], state.idle[j]));
      }
    }

    /** t's handler is moved out and its handle is out of the multi: back to the pool with both, or free them. */
    method Retire(t: Transfer, scrub: bool, ghost i: nat)
      requires Valid() && i < |transfers| && transfers[i] == t && t.handler == None && t.eh.num !in curl.added
      requires Sole(i)
      modifies repr
      ensures Valid() && state == LifecycleSpec.Retire(old(state), i, scrub) && repr == old(repr)
    {
      ghost var s, eh := state, t.eh.num;
      WipeAt(t, scrub, i);
      assert Mirrors(t, state.transfers[i]);
      assert RemoveAt(s.transfers[i := Blank(eh)], i) == RemoveAt(s.transfers, i);
      Overwrite(s.easy, eh, Configure(Fresh()), Configure(Fresh()));
      var at := Position(t.self);
      if |idle| < maxPooledHandles {
        Pool(t, at);
      } else {
        Free(t, at);
      }
    }

    method DrawNode() returns (t: Transfer)
      requires Valid() && Inv(state)
      modifies repr
      ensures Valid() && transfers == [t] + old(transfers) && fresh(repr - old(repr))
      ensures t in repr && t.eh in repr && state == Drawn(old(state)) && Sole(0)
      ensures t.eh.num == NextHandle(old(state)) && t.eh.num !in curl.added
      ensures curl.Live(t.eh)
    {
      hide Inv, Valid, Sole;
      StartFacts(state, Request("", GET, [], "", 0, 0, None));
      Counters();
      if idle == [] {
        t := MakeNode();
      } else {
        t := TakeNode();
      }
      HeadAlone();
      Counters();
    }

    lemma HeadAlone()
      requires Valid() && transfers != []
      requires |state.transfers| > 0 && forall j :: 1 <= j < |state.transfers| ==> state.transfers[j].eh != state.transfers[0].eh
      requires forall j :: 0 <= j < |state.idle| ==> state.idle[j].eh != state.transfers[0].eh
      ensures Sole(0) && curl.Live(transfers[0].eh) && transfers[0].eh.num == state.transfers[0].eh
      ensures transfers[0] in repr && transfers[0].eh in repr
    {
      assert forall j :: 0 <= j < |transfers| ==> Mirrors(transfers[j], state.transfers[j]);
      assert forall j :: 0 <= j < |idle| ==> Mirrors(idle[j], state.idle[j]);
    }

    /** start up to the call of curl_multi_add_handle. */
    method PrepareTransfer(r: Request, script: seq<Op>, ghost env: StartEnv, h: nat) returns (t: Transfer)
      requires Valid() && Inv(state) && h == |scripts|
      modifies repr
      ensures Valid() && state == Prepare(old(state), r, script, env)
      ensures transfers == [t] + old(transfers) && fresh(repr - old(repr))
      ensures Sole(0)
      ensures t.eh.num == NextHandle(old(state)) && t.eh.num !in curl.added && curl.Live(t.eh)
    {
      hide Inv, Effective, Prepare, Drawn, Loaded, Enlisted, Valid;
      ghost var s := state;
      StartFacts(s, r);
      PrepareInSteps(s, r, script, env);
      Counters();
      t := DrawNode();
      Counters();
      LoadAt(t, r, h, nextTransferId + 1);
      Enlist(r, script, env);
    }

    lemma Counters()
      requires Valid()
      ensures |scripts| == |state.issued| && nextTransferId == state.nextId && |idle| == |state.idle|
      ensures curl.nextEasy == state.nextEasy && {this, curl, loop} <= repr
      ensures Scalars() && curl.easy.Keys == state.easy.Keys
      ensures alive == state.alive && loop.posted == state.posted && curl.msgs == state.msgs && curl.added == state.added
    {
    }

    /** Move t's handler out of its node. */
    method TakeHandler(t: Transfer, ghost i: nat) returns (h: Option<nat>)
      requires Valid() && i < |transfers| && transfers[i] == t
      requires Sole(i)
      modifies t, this`state
      ensures Valid() && t.handler == None && h == old(state).transfers[i].handler
      ensures var s := old(state); state == s.(transfers := s.transfers[i := s.transfers[i].(handler := None)])
    {
      ghost var s := state;
      assert Mirrors(t, s.transfers[i]);
      h := t.handler;
      t.handler := None;
      state := s.(transfers := s.transfers[i := s.transfers[i].(handler := None)]);
      forall j | 0 <= j < |transfers| ensures Mirrors(transfers[j], state.transfers[j]) {
        assert old(Mirrors(transfers[j], state.transfers[j]));
      }
      forall j | 0 <= j < |idle| ensures Mirrors(idle[j], state.idle[j]) {
        assert old(Mirrors(idle[j], state.idle[j]));
      }
    }

    /** The node of a live client shares its handle with no other node. */
    lemma OwnHandle(i: nat)
      requires Valid() && Inv(state) && i < |transfers|
      ensures Sole(i)
      ensures transfers[i].eh.num == state.transfers[i].eh && curl.Live(transfers[i].eh)
      ensures state.transfers[i].handler.Some? && transfers[i].handler == state.transfers[i].handler
    {
      DistinctHandles(state);
      HoldsHandler(state, i);
      assert forall j :: 0 <= j < |transfers| ==> Mirrors(transfers[j], state.transfers[j]);
      assert forall j :: 0 <= j < |idle| ==> Mirrors(idle[j], state.idle[j]);
    }

    method AddToMulti(t: Transfer, h: nat)
      requires Valid() && curl.Live(t.eh) && t.eh.num !in curl.added
      modifies this`state, curl`added
      ensures Valid() && state == old(state).(added := old(state).added[t.eh.num := h])
    {
      curl.AddHandle(t.eh, h);
      state := state.(added := state.added[t.eh.num := h]);
    }

    method RemoveFromMulti(t: Transfer)
      requires Valid() && curl.Live(t.eh)
      modifies this`state, curl`added, curl`msgs
      ensures Valid() && state == RemoveHandle(old(state), t.eh.num) && t.eh.num !in curl.added
    {
      curl.RemoveHandle(t.eh);
      state := RemoveHandle(state, t.eh.num);
    }

    /** Complete h through the event loop, never from inside the call that fails. */
    method PostCompletion(c: Completion)
      requires Valid()
      modifies this`state, loop
      ensures Valid() && state == old(state).(posted := old(state).posted + [c])
    {
      loop.Post(c);
      state := state.(posted := state.posted + [c]);
    }

    method Fail(h: nat, code: nat)
      requires Valid()
      modifies this`state, loop
      ensures Valid() && state == old(state).(posted := old(state).posted + [Failure(h, code)])
    {
      PostCompletion(Completion(h, CurlError(code), Response(code, 0, "", "")));
    }

    /** Move the handler out of a node whose handle has left the multi, and retire the node. */
    method Detach(t: Transfer, scrub: bool, ghost i: nat) returns (h: Option<nat>)
      requires Valid() && i < |transfers| && transfers[i] == t && t.eh.num !in curl.added && Sole(i)
      modifies repr
      ensures Valid() && state == LifecycleSpec.Retire(old(state), i, scrub) && repr == old(repr)
      ensures h == old(state).transfers[i].handler
    {
      hide LifecycleSpec.Retire;
      RetireForgets(state, i, state.transfers[i].(handler := None), scrub);
      h := TakeHandler(t, i);
      Retire(t, scrub, i);
    }

    method NoHandle(r: Request, script: seq<Op>, h: nat)
      requires Valid() && h == |scripts|
      modifies this, loop
      ensures Valid() && repr == old(repr)
      ensures var s := old(state);
        state == Enter(s, Issue(r, script, InitFails, 0)).(posted := s.posted + [Failure(h, CURLE_FAILED_INIT)])
    {
      scripts := scripts + [script];
      state := Enter(state, Issue(r, script, InitFails, 0));
      Fail(h, CURLE_FAILED_INIT);
    }

    method Start(r: Request, script: seq<Op>, env: StartEnv, h: nat)
      requires Valid() && Inv(state) && h == |scripts|
      modifies repr
      ensures Valid() && state == LifecycleSpec.Start(old(state), r, script, env) && fresh(repr - old(repr))
    {
      hide Inv, Valid, Sole, Prepare, LifecycleSpec.Retire;
      Counters();
      if idle == [] && env.InitFails? {  // curl_easy_init returned nullptr
        NoHandle(r, script, h);
        return;
      }
      var t := PrepareTransfer(r, script, env, h);
      Counters();
      InLists();
      if !env.AddFails? {
        AddToMulti(t, h);
      } else {
        var handler := Detach(t, true, 0);
        Fail(h, if env.outOfMemory then CURLE_OUT_OF_MEMORY else CURLE_FAILED_INIT);
      }
    }

    lemma InLists()
      requires Valid()
      ensures forall t :: t in transfers + idle ==> t in repr
      ensures forall i :: 0 <= i < |transfers| ==> Mirrors(transfers[i], state.transfers[i])
    {
    }

    method LowerRunning()
      requires Valid()
      modifies this`state, this`running
      ensures Valid() && state == Lowered(old(state))
    {
      if running > 0 {
        running := running - 1;
        state := state.(running := state.running - 1);
      }
    }

    lemma AtPosition(i: nat)
      requires Valid() && i < |transfers|
      ensures |transfers| == |state.transfers| && Mirrors(transfers[i], state.transfers[i])
      ensures {this, curl, loop, transfers[i], transfers[i].eh} <= repr
    {
      assert Mirrors(transfers[i], state.transfers[i]);
    }

    method Abort(t: Transfer, ghost i: nat)
      requires Valid() && Inv(state) && i < |transfers| && t == transfers[i]
      modifies repr
      ensures Valid() && repr == old(repr)
      ensures IndexOfId(old(state).transfers, old(t.id)) == Some(i) ==> state == LifecycleSpec.Cancel(old(state), old(t.id))
    {
      hide Inv, Valid, Sole, LifecycleSpec.Cancel, LifecycleSpec.Retire;
      AtPosition(i);
      OwnHandle(i);
      CancelInSteps(state, i);
      RemoveFromMulti(t);
      LowerRunning();
      var handler := Detach(t, true, i);
      PostCompletion(Completion(handler.value, OperationAborted, Response(CURLE_ABORTED_BY_CALLBACK, 0, "", "")));
    }

    method Cancel(id: nat)
      requires Valid() && Inv(state)
      modifies repr
      ensures Valid() && state == LifecycleSpec.Cancel(old(state), id) && repr == old(repr)
    {
      hide Inv;
      ghost var s := state;
      for i := 0 to |transfers|
        invariant Valid() && state == s && repr == old(repr)
        invariant forall j :: 0 <= j < i ==> s.transfers[j].id != id
      {
        assert Mirrors(transfers[i], s.transfers[i]);
        if transfers[i].id == id {
          assert IndexOfId(s.transfers, id) == Some(i);
          hide LifecycleSpec.Cancel;
          Abort(transfers[i], i);
          return;
        }
      }
    }

    /** Follow a Transfer* that libcurl holds. */
    method Deref(n: nat) returns (t: Transfer, ghost i: nat)
      requires Valid() && IndexOfEh(state.transfers, n).Some?
      ensures i < |transfers| && t == transfers[i] && IndexOfEh(state.transfers, n) == Some(i)
    {
      var at := 0;
      while true
        invariant at < |transfers| && at <= IndexOfEh(state.transfers, n).value
        invariant forall j :: 0 <= j < at ==> state.transfers[j].eh != n
        decreases |transfers| - at
      {
        t, i := transfers[at], at;
        assert Mirrors(t, state.transfers[at]);
        if t.eh.num == n {
          FirstIndexOfEh(state.transfers, n, at);
          return;
        }
        at := at + 1;
      }
    }

    /** std::move of both buffers: what stays behind is unspecified. */
    method MoveBuffers(t: Transfer, ghost i: nat) returns (data: string, head: string)
      requires Valid() && i < |transfers| && transfers[i] == t && Sole(i)
      modifies t, this`state
      ensures Valid() && data == old(state).transfers[i].buffer && head == old(state).transfers[i].headerBuffer
      ensures var s := old(state);
        state == s.(transfers := s.transfers[i := s.transfers[i].(buffer := t.buffer, headerBuffer := t.headerBuffer)])
    {
      ghost var s := state;
      assert Mirrors(t, s.transfers[i]);
      data, head := t.buffer, t.headerBuffer;
      t.buffer := *;
      t.headerBuffer := *;
      state := s.(transfers := s.transfers[i := s.transfers[i].(buffer := t.buffer, headerBuffer := t.headerBuffer)]);
      forall j | 0 <= j < |transfers| ensures Mirrors(transfers[j], state.transfers[j]) {
        assert old(Mirrors(transfers[j], state.transfers[j]));
      }
      forall j | 0 <= j < |idle| ensures Mirrors(idle[j], state.idle[j]) {
        assert old(Mirrors(idle[j], state.idle[j]));
      }
    }

    method RunScript(ops: seq<Op>)
      requires Valid() && Inv(state)
      modifies repr
      ensures Valid() && Inv(state) && state == LifecycleSpec.RunScript(old(state), ops) && fresh(repr - old(repr))
    {
      hide Inv, LifecycleSpec.Start, LifecycleSpec.Cancel;
      for i := 0 to |ops|
        invariant Valid() && Inv(state) && fresh(repr - old(repr))
        invariant LifecycleSpec.RunScript(state, ops[i..]) == LifecycleSpec.RunScript(old(state), ops)
      {
        assert ops[i..][0] == ops[i] && ops[i..][1..] == ops[i + 1..];
        match ops[i] {
          case StartOp(r, script, env) =>
            StartKeeps(state, r, script, env);
            Start(r, script, env, |scripts|);
          case CancelOp(id) =>
            CancelKeeps(state, id);
            Cancel(id);
        }
      }
    }

    method ReadMsg() returns (m: Msg)
      requires Valid() && state.msgs != []
      modifies this`state, curl`msgs
      ensures Valid() && m == old(state).msgs[0] && state == old(state).(msgs := old(state).msgs[1..])
    {
      var msg := curl.InfoRead();
      m := msg.value;
      state := state.(msgs := state.msgs[1..]);
    }

    /** A handler is invoked: the user sees c. */
    ghost method Invoke(c: Completion)
      requires Valid()
      modifies this`state
      ensures Valid() && state == old(state).(delivered := old(state).delivered + [c])
    {
      state := state.(delivered := state.delivered + [c]);
    }

    method Conclude(t: Transfer, ghost i: nat) returns (h: Option<nat>, data: string, head: string)
      requires Valid() && Inv(state) && i < |transfers| && t == transfers[i]
      modifies repr
      ensures Valid() && repr == old(repr)
      ensures var s, n := old(state), old(state).transfers[i];
        && state == LifecycleSpec.Retire(RemoveHandle(s, n.eh), i, n.scrub)
        && h == n.handler && data == n.buffer && head == n.headerBuffer
    {
      hide Inv, Valid, Sole, LifecycleSpec.Retire;
      AtPosition(i);
      ghost var s, n := state, state.transfers[i];
      OwnHandle(i);
      data, head := MoveBuffers(t, i);
      ghost var moved := state.transfers[i];
      RemoveFromMulti(t);
      RetireForgets(RemoveHandle(s, n.eh), i, moved, n.scrub);
      AtPosition(i);
      h := Detach(t, t.scrubOnDone, i);
    }

    /** One turn of the completion loop, up to and including the invocation of the handler. */
    method CompleteNext() returns (c: Completion)
      requires Valid() && Inv(state) && state.msgs != []
      modifies repr
      ensures Valid() && repr == old(repr) && Complete(old(state)) == Some(state) && Inv(state)
      ensures c == state.delivered[|state.delivered| - 1] && c.ticket < |scripts|
    {
      hide Inv, Complete, LifecycleSpec.Retire, Valid;
      ghost var at := CompleteUnfolds(state);
      CompleteKeeps(state);
      PopKeeps(state);
      Counters();
      var m := ReadMsg();
      InRepr(m.eh);
      var p := curl.easy[m.eh].opts.req.private_;
      var t, i := Deref(p.node);
      var handler, data, head := Conclude(t, i);
      var ec := if m.code == CURLE_OK then NoError else CurlError(m.code);
      c := Completion(handler.value, ec, Response(m.code, m.http, data, head));
      Counters();
      Invoke(c);
      Counters();
    }

    method CheckCompletions()
      requires Valid() && Inv(state)
      modifies repr
      ensures Valid() && Inv(state) && state == LifecycleSpec.CheckCompletions(old(state)) && fresh(repr - old(repr))
    {
      hide Inv, Complete, LifecycleSpec.RunScript;
      while curl.msgs != []
        invariant Valid() && Inv(state) && fresh(repr - old(repr))
        invariant LifecycleSpec.CheckCompletions(state) == LifecycleSpec.CheckCompletions(old(state))
        decreases |state.msgs|
      {
        var c := CompleteNext();
        RunScript(scripts[c.ticket]);
      }
    }

    /** A completion posted by fail or cancel runs; it does not need the client to be alive. */
    method RunPosted(i: nat) returns (c: Completion)
      requires Valid() && Inv(state) && i < |loop.posted|
      modifies repr
      ensures c == old(state).posted[i]
      ensures Valid() && Inv(state) && state == Step(old(state), LifecycleSpec.RunPosted(i)) && fresh(repr - old(repr))
    {
      hide Inv, Valid, LifecycleSpec.RunScript;
      Counters();
      RunPostedKeeps(state, i);
      PostedInvoked(state, i);
      c := Unpost(i);
      Invoke(c);
      Counters();
      if alive {
        RunScript(scripts[c.ticket]);
      }
    }

    method Unpost(i: nat) returns (c: Completion)
      requires Valid() && i < |loop.posted|
      modifies this`state, loop
      ensures Valid() && c == old(state).posted[i] && state == old(state).(posted := RemoveAt(old(state).posted, i))
    {
      c := loop.posted[i];
      loop.posted := RemoveAt(loop.posted, i);
      state := state.(posted := RemoveAt(state.posted, i));
    }

    method BodyWriteCb(data: string, t: Transfer, ghost i: nat, ghost k: nat)
      requires Valid() && i < |transfers| && t == transfers[i] && k < |state.wire| && Sole(i)
      modifies t, this`state
      ensures Valid() && state == BodyGrown(old(state), i, k, data)
    {
      assert Mirrors(t, state.transfers[i]);
      t.buffer := t.buffer + data;
      state := BodyGrown(state, i, k, data);
      forall j | 0 <= j < |transfers| ensures Mirrors(transfers[j], state.transfers[j]) {
        assert old(Mirrors(transfers[j], state.transfers[j]));
      }
      forall j | 0 <= j < |idle| ensures Mirrors(idle[j], state.idle[j]) {
        assert old(Mirrors(idle[j], state.idle[j]));
      }
    }

    method HeaderCb(data: string, t: Transfer, ghost i: nat, ghost k: nat)
      requires Valid() && i < |transfers| && t == transfers[i] && k < |state.wire| && Sole(i)
      modifies t, this`state
      ensures Valid() && state == HeadGrown(old(state), i, k, data)
    {
      assert Mirrors(t, state.transfers[i]);
      t.headerBuffer := t.headerBuffer + data;
      state := HeadGrown(state, i, k, data);
      forall j | 0 <= j < |transfers| ensures Mirrors(transfers[j], state.transfers[j]) {
        assert old(Mirrors(transfers[j], state.transfers[j]));
      }
      forall j | 0 <= j < |idle| ensures Mirrors(idle[j], state.idle[j]) {
        assert old(Mirrors(idle[j], state.idle[j]));
      }
    }

    /** A chunk that a hook has sent elsewhere changes nothing but the record of it. */
    ghost method Hear(t: State)
      requires Valid() && t == state.(wire := t.wire)
      modifies this`state
      ensures Valid() && state == t
    {
      state := t;
    }

    lemma OnlyRecords(s: State, k: nat, data: string)
      requires k < |s.wire|
      ensures BodyHeard(s, k, data) == s.(wire := BodyHeard(s, k, data).wire)
      ensures HeadHeard(s, k, data) == s.(wire := HeadHeard(s, k, data).wire)
    {
    }

    lemma InRepr(eh: nat)
      requires Valid() && eh in state.easy
      ensures eh in curl.easy && curl.easy[eh].opts == state.easy[eh] && this in repr
      ensures |transfers| == |state.transfers| && forall t :: t in transfers ==> t in repr
    {
    }

    method PerformBody(eh: nat, data: string)
      requires Valid() && Core(state) && Busy(state, eh)
      modifies repr
      ensures Valid() && repr == old(repr) && state == CurlAct(old(state), BodyChunk(eh, data))
    {
      hide Core, CurlAct, BodyGrown, HeadGrown, BodyHeard, HeadHeard, Valid;
      ghost var k := state.added[eh];
      ghost var at := ChunkUnfolds(state, eh, data);
      OnlyRecords(state, k, data);
      InRepr(eh);
      SoleFromCore(at);
      var o := curl.easy[eh].opts;
      if o.config.writeFunction == Callback.BodyWriteCb {
        var t, i := Deref(o.req.writeData.node);
        BodyWriteCb(data, t, i, k);
      } else {
        Hear(BodyHeard(state, k, data));
      }
    }

    method PerformHeader(eh: nat, data: string)
      requires Valid() && Core(state) && Busy(state, eh)
      modifies repr
      ensures Valid() && repr == old(repr) && state == CurlAct(old(state), HeaderChunk(eh, data))
    {
      hide Core, CurlAct, BodyGrown, HeadGrown, BodyHeard, HeadHeard, Valid;
      ghost var k := state.added[eh];
      ghost var at := ChunkUnfolds(state, eh, data);
      OnlyRecords(state, k, data);
      InRepr(eh);
      SoleFromCore(at);
      var o := curl.easy[eh].opts;
      if o.config.headerFunction == Callback.HeaderCb {
        var t, i := Deref(o.req.headerData.node);
        HeaderCb(data, t, i, k);
      } else {
        Hear(HeadHeard(state, k, data));
      }
    }

    method PerformFinish(eh: nat, code: nat, http: int)
      requires Valid() && Busy(state, eh)
      modifies `state, curl`msgs
      ensures Valid() && state == CurlAct(old(state), Finish(eh, code, http))
    {
      curl.QueueDone(Msg(eh, code, http));
      state := CurlAct(state, Finish(eh, code, http));
    }

    /** libcurl works on one transfer, through the pointers set on its handle. */
    method Perform(a: Act)
      requires Valid() && Core(state)
      modifies repr
      ensures Valid() && Core(state) && state == CurlAct(old(state), a) && repr == old(repr)
    {
      hide Core, CurlAct;
      CurlActKeeps(state, a);
      CoreWire(state);
      if a.eh !in curl.easy || a.eh !in curl.added || curl.added[a.eh] >= |scripts| || Done(curl.msgs, a.eh) {
        IdleHandle(state, a);
        return;
      }
      match a {
        case BodyChunk(eh, data) => PerformBody(eh, data);
        case HeaderChunk(eh, data) => PerformHeader(eh, data);
        case Finish(eh, code, http) => PerformFinish(eh, code, http);
      }
    }

    lemma SoleFromCore(i: nat)
      requires Valid() && Core(state) && i < |transfers|
      ensures Sole(i)
    {
      DistinctHandles(state);
      assert forall j :: 0 <= j < |transfers| ==> Mirrors(transfers[j], state.transfers[j]);
      assert forall j :: 0 <= j < |idle| ==> Mirrors(idle[j], state.idle[j]);
    }

    /** curl_multi_socket_action: any work libcurl finds to do, then the number of transfers still running. */
    method SocketAction(acts: seq<Act>)
      requires Valid() && Inv(state)
      modifies repr
      ensures Valid() && Inv(state) && state == LifecycleSpec.SocketAction(old(state), acts) && repr == old(repr)
    {
      hide Inv, Core, Valid, CurlAct;
      InvIsCore(state);
      SocketActionKeeps(state, acts);
      ghost var s := state;
      for i := 0 to |acts|
        invariant Valid() && Core(state) && repr == old(repr)
        invariant CurlActs(state, acts[i..]) == CurlActs(s, acts)
      {
        assert acts[i..][0] == acts[i] && acts[i..][1..] == acts[i + 1..];
        Perform(acts[i]);
      }
      Counters();
      TellRunning();
    }

    method TellRunning()
      requires Valid()
      modifies this`running, this`state
      ensures Valid() && state == old(state).(running := |old(state).added| - |old(state).msgs|)
    {
      running := |curl.added| - |curl.msgs|;
      state := state.(running := running);
    }

    /** kick and on_event alike: let libcurl work, then deliver what it completed. */
    method Kick(acts: seq<Act>)
      requires Valid() && Inv(state) && alive
      modifies repr
      ensures Valid() && Inv(state) && state == Step(old(state), Action(acts)) && fresh(repr - old(repr))
    {
      hide Inv, LifecycleSpec.SocketAction, LifecycleSpec.CheckCompletions;
      SocketAction(acts);
      CheckCompletions();
    }

    /** The handles of ts are live, and no two of ts share one. */
    ghost predicate Owners(ts: seq<Transfer>)
      reads curl`easy
    {
      && (forall i :: 0 <= i < |ts| ==> curl.Live(ts[i].eh))
      && (forall i, j :: 0 <= i < j < |ts| ==> ts[i].eh.num != ts[j].eh.num)
    }

    /** Transfers still in flight: out of the multi, then freed, their handlers uninvoked. */
    method DropInFlight(ts: seq<Transfer>)
      requires Owners(ts) && forall m :: m in curl.msgs ==> m.eh in curl.added
      modifies curl
      ensures curl.nextEasy == old(curl.nextEasy) && curl.freed == old(curl.freed) + Nums(ts)
      ensures curl.easy == old(curl.easy) - SetOf(Nums(ts)) && curl.added == old(curl.added) - SetOf(Nums(ts))
      ensures forall m :: m in curl.msgs ==> m.eh in curl.added
    {
      for i := 0 to |ts|
        invariant curl.nextEasy == old(curl.nextEasy) && curl.freed == old(curl.freed) + Nums(ts[..i])
        invariant curl.easy == old(curl.easy) - SetOf(Nums(ts[..i])) && curl.added == old(curl.added) - SetOf(Nums(ts[..i]))
        invariant forall m :: m in curl.msgs ==> m.eh in curl.added
      {
        NumsNext(ts, i);
        assert ts[i].eh.num !in Nums(ts[..i]);
        DropMsgsMembers(curl.msgs, ts[i].eh.num);
        curl.RemoveHandle(ts[i].eh);
        curl.EasyCleanup(ts[i].eh);
      }
      assert ts[..|ts|] == ts;
    }

    method DropIdle(ts: seq<Transfer>)
      requires Owners(ts) && forall i :: 0 <= i < |ts| ==> ts[i].eh.num !in curl.added
      modifies curl`easy, curl`freed
      ensures curl.freed == old(curl.freed) + Nums(ts) && curl.easy == old(curl.easy) - SetOf(Nums(ts))
    {
      for i := 0 to |ts|
        invariant curl.freed == old(curl.freed) + Nums(ts[..i]) && curl.easy == old(curl.easy) - SetOf(Nums(ts[..i]))
      {
        NumsNext(ts, i);
        assert ts[i].eh.num !in Nums(ts[..i]);
        curl.EasyCleanup(ts[i].eh);
      }
      assert ts[..|ts|] == ts;
    }

    lemma LastOwners()
      requires Valid() && Core(state)
      ensures Owners(transfers) && Owners(idle)
      ensures Nums(transfers) == Ehs(state.transfers) && Nums(idle) == Ehs(state.idle)
      ensures forall i, j :: 0 <= i < |transfers| && 0 <= j < |idle| ==> transfers[i].eh.num != idle[j].eh.num
    {
      DistinctHandles(state);
      assert forall j :: 0 <= j < |transfers| ==> Mirrors(transfers[j], state.transfers[j]);
      assert forall j :: 0 <= j < |idle| ==> Mirrors(idle[j], state.idle[j]);
    }

    /** The destructor. What it frees is everything there is: each handle once, and none while in the multi. */
    method Destroy()
      requires Valid() && Inv(state) && alive
      modifies repr
      ensures Valid() && state == LifecycleSpec.Destroy(old(state)) && repr == old(repr)
    {
      hide Inv, Core, Valid, Owners;
      ghost var s := state;
      InvIsCore(s);
      AllListed(s);
      LastOwners();
      Counters();
      alive := false;
      FreeAll();
      transfers, idle, running := [], [], 0;
      state := LifecycleSpec.Destroy(s);
      Emptied();
    }

    /** Both lists are all there is, and they share nothing. */
    method FreeAll()
      requires Owners(transfers) && Owners(idle)
      requires forall i, j :: 0 <= i < |transfers| && 0 <= j < |idle| ==> transfers[i].eh.num != idle[j].eh.num
      requires forall n :: n in curl.easy ==> n in SetOf(Nums(transfers)) || n in SetOf(Nums(idle))
      requires forall n :: n in curl.added <==> n in SetOf(Nums(transfers))
      requires forall m :: m in curl.msgs ==> m.eh in curl.added
      modifies curl
      ensures curl.easy == map[] && curl.added == map[] && curl.msgs == [] && curl.nextEasy == old(curl.nextEasy)
      ensures curl.freed == old(curl.freed) + Nums(transfers) + Nums(idle)
    {
      DropInFlight(transfers);
      DropIdle(idle);
      MessagesNeedHandles(curl.msgs, curl.added);
    }

    lemma Emptied()
      requires {this, curl, loop} <= repr && transfers == [] && idle == [] && curl.easy == map[] && Scalars()
      requires state.transfers == [] && state.idle == [] && state.easy == map[]
      ensures Valid()
    {
    }
  }
}
