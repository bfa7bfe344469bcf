/**
 * The transfer lifecycle of cofetch's Client as a state machine over values:
 * what start, fail, cancel, retire, check_completions and the destructor do to
 * the in-flight list, the idle pool, the multi handle and the completions
 * still owed, and what libcurl may do in between.
 */
module LifecycleSpec {
  import opened Common
  import opened EasyHandle

  const CURLE_OK := 0
  const CURLE_FAILED_INIT := 2
  const CURLE_OUT_OF_MEMORY := 27
  const CURLE_ABORTED_BY_CALLBACK := 42

  /** The std::list node of one transfer. handler is the ticket of the completion handler it holds. */
  datatype Node = Node(
    eh: nat, headers: seq<string>, body: string, buffer: string, headerBuffer: string,
    handler: Option<nat>, id: nat, scrub: bool)

  datatype Msg = Msg(eh: nat, code: nat, http: int)

  datatype ErrorCode = NoError | CurlError(code: nat) | OperationAborted

  datatype Response = Response(curlCode: nat, httpCode: int, data: string, headerData: string)

  /** One call of a completion handler: made, or posted to the event loop. */
  datatype Completion = Completion(ticket: nat, ec: ErrorCode, res: Response)

  /** How the libcurl calls inside one start turn out. */
  datatype StartEnv = InitFails | AddFails(outOfMemory: bool) | Accepts

  /** What a completion handler does when it runs: client operations, in order. */
  datatype Op = StartOp(req: Request, script: seq<Op>, env: StartEnv) | CancelOp(id: nat)

  /** What was asked for by one call of start; the handler's ticket is its position in issued. */
  datatype Issue = Issue(req: Request, script: seq<Op>, env: StartEnv, id: nat)

  /** What libcurl received for one request, chunk by chunk, and the DONE message it queued. */
  datatype Wire = Wire(body: seq<string>, head: seq<string>, finished: Option<Msg>)

  datatype State = State(
    // the client
    transfers: seq<Node>, idle: seq<Node>, maxPooled: nat, running: int, nextId: nat, alive: bool,
    // libcurl: live easy handles, which of them the multi holds (and for whose request), its message queue
    easy: map<nat, Options>, nextEasy: nat, freed: seq<nat>, added: map<nat, nat>, msgs: seq<Msg>,
    // completions posted to the event loop
    posted: seq<Completion>,
    // history
    issued: seq<Issue>, wire: seq<Wire>, delivered: seq<Completion>, dropped: seq<nat>)

  function Init(maxPooled: nat): State {
    State([], [], maxPooled, 0, 0, true, map[], 0, [], map[], [], [], [], [], [], [])
  }

  function IndexOfId(ts: seq<Node>, id: nat): (r: Option<nat>)
    ensures r.Some? ==> r.value < |ts| && ts[r.value].id == id
    ensures r.Some? ==> forall j :: 0 <= j < r.value ==> ts[j].id != id
    ensures r.None? ==> forall j :: 0 <= j < |ts| ==> ts[j].id != id
  {
    if ts == [] then None
    else if ts[0].id == id then Some(0)
    else var r := IndexOfId(ts[1..], id); if r.Some? then Some(r.value + 1) else None
  }

  function IndexOfEh(ts: seq<Node>, eh: nat): (r: Option<nat>)
    ensures r.Some? ==> r.value < |ts| && ts[r.value].eh == eh
    ensures r.None? ==> forall j :: 0 <= j < |ts| ==> ts[j].eh != eh
  {
    if ts == [] then None
    else if ts[0].eh == eh then Some(0)
    else var r := IndexOfEh(ts[1..], eh); if r.Some? then Some(r.value + 1) else None
  }

  /** Dereference a Transfer* held by libcurl: the in-flight node it names, if there is one. */
  function Deref(ts: seq<Node>, p: Ptr): (r: Option<nat>)
    ensures r.Some? ==> r.value < |ts| && p == NodePtr(ts[r.value].eh)
  {
    if p.NodePtr? then IndexOfEh(ts, p.node) else None
  }

  /** curl_multi_remove_handle also discards the messages of that handle. */
  function DropMsgs(msgs: seq<Msg>, eh: nat): (r: seq<Msg>)
    ensures |r| <= |msgs|
  {
    if msgs == [] then []
    else if msgs[0].eh == eh then DropMsgs(msgs[1..], eh)
    else [msgs[0]] + DropMsgs(msgs[1..], eh)
  }

  function RemoveHandle(s: State, eh: nat): State {
    s.(added := s.added - {eh}, msgs := DropMsgs(s.msgs, eh))
  }

  function Blank(eh: nat): Node {
    Node(eh, [], "", "", "", None, 0, false)
  }

  /** retire: the node at index i of transfers is done, its handler already moved out. */
  function Retire(s: State, i: nat, scrub: bool): (r: State)
    requires i < |s.transfers|
    ensures r.msgs == s.msgs && r.issued == s.issued && r.delivered == s.delivered && r.dropped == s.dropped
  {
    var eh := s.transfers[i].eh;
    var rest := RemoveAt(s.transfers, i);
    if |s.idle| < s.maxPooled then
      s.(transfers := rest, idle := [Blank(eh)] + s.idle,
         easy := if scrub then s.easy[eh := Configure(Fresh())] else s.easy)
    else
      s.(transfers := rest, easy := s.easy - {eh}, freed := s.freed + [eh])
  }

  function Failure(ticket: nat, code: nat): Completion {
    Completion(ticket, CurlError(code), Response(code, 0, "", ""))
  }

  function Abortion(ticket: nat): Completion {
    Completion(ticket, OperationAborted, Response(CURLE_ABORTED_BY_CALLBACK, 0, "", ""))
  }

  function StartFailureCode(env: StartEnv): nat {
    if env == AddFails(true) then CURLE_OUT_OF_MEMORY else CURLE_FAILED_INIT
  }

  /** The easy handle a start would use: pooled (newest first) or made for it. */
  function NextHandle(s: State): nat {
    if s.idle == [] then s.nextEasy else s.idle[0].eh
  }

  function StartedNode(s: State, r: Request): Node {
    var drawn := if s.idle == [] then Blank(s.nextEasy) else s.idle[0];
    drawn.(handler := Some(|s.issued|), id := s.nextId + 1, body := r.body, headers := r.headers,
           scrub := r.hook.Some? || drawn.scrub)
  }

  /** The state just before start calls curl_multi_add_handle. */
  function Prepare(s: State, r: Request, script: seq<Op>, env: StartEnv): State {
    var eh := NextHandle(s);
    var base := if eh in s.easy then s.easy[eh] else Configure(Fresh());
    s.(transfers := [StartedNode(s, r)] + s.transfers,
       idle := if s.idle == [] then [] else s.idle[1..],
       nextId := s.nextId + 1,
       easy := s.easy[eh := Effective(base, eh, r)],
       nextEasy := if s.idle == [] then s.nextEasy + 1 else s.nextEasy,
       issued := s.issued + [Issue(r, script, env, s.nextId + 1)],
       wire := s.wire + [Wire([], [], None)])
  }

  function Start(s: State, r: Request, script: seq<Op>, env: StartEnv): (t: State)
    ensures t.msgs == s.msgs && t.alive == s.alive && s.issued <= t.issued
    ensures t.delivered == s.delivered && t.dropped == s.dropped
  {
    var ticket := |s.issued|;
    if s.idle == [] && env.InitFails? then
      s.(issued := s.issued + [Issue(r, script, env, 0)], wire := s.wire + [Wire([], [], None)],
         posted := s.posted + [Failure(ticket, CURLE_FAILED_INIT)])
    else
      var p := Prepare(s, r, script, env);
      if !env.AddFails? then
        p.(added := p.added[NextHandle(s) := ticket])
      else
        var q := Retire(p, 0, true);
        q.(posted := q.posted + [Failure(ticket, StartFailureCode(env))])
  }

  function Cancel(s: State, id: nat): (t: State)
    ensures |t.msgs| <= |s.msgs| && t.alive == s.alive && t.issued == s.issued
    ensures t.delivered == s.delivered && t.dropped == s.dropped
  {
    match IndexOfId(s.transfers, id)
    case None => s
    case Some(i) =>
      var t := s.transfers[i];
      var q := Retire(RemoveHandle(s, t.eh), i, true).(running := if s.running > 0 then s.running - 1 else s.running);
      if t.handler.Some? then q.(posted := q.posted + [Abortion(t.handler.value)]) else q
  }

  /** The client operations of one handler. They complete nothing themselves: no handler runs inside another. */
  function RunScript(s: State, ops: seq<Op>): (t: State)
    ensures |t.msgs| <= |s.msgs| && t.alive == s.alive && s.issued <= t.issued
    ensures t.delivered == s.delivered && t.dropped == s.dropped
    decreases |ops|
  {
    if ops == [] then s
    else
      var s1 := match ops[0]
        case StartOp(r, script, env) => Start(s, r, script, env)
        case CancelOp(id) => Cancel(s, id);
      RunScript(s1, ops[1..])
  }

  function ResultCode(code: nat): ErrorCode {
    if code == CURLE_OK then NoError else CurlError(code)
  }

  /** Take one DONE message up to the moment its handler is invoked; None when PRIVATE leads nowhere. */
  function Complete(s: State): (r: Option<State>)
    requires s.msgs != []
    ensures r.Some? ==> |r.value.msgs| < |s.msgs| && r.value.issued == s.issued && r.value.alive == s.alive
    ensures r.Some? ==> |r.value.delivered| == |s.delivered| + 1 && s.delivered <= r.value.delivered
    ensures r.Some? ==> r.value.dropped == s.dropped
  {
    var m := s.msgs[0];
    if m.eh !in s.easy then None
    else
      match Deref(s.transfers, s.easy[m.eh].req.private_)
      case None => None
      case Some(i) =>
        var t := s.transfers[i];
        if t.handler.None? then None
        else
          var q := Retire(RemoveHandle(s.(msgs := s.msgs[1..]), m.eh), i, t.scrub);
          var res := Response(m.code, m.http, t.buffer, t.headerBuffer);
          Some(q.(delivered := q.delivered + [Completion(t.handler.value, ResultCode(m.code), res)]))
  }

  function ScriptOf(s: State, ticket: nat): seq<Op> {
    if ticket < |s.issued| then s.issued[ticket].script else []
  }

  function LastDelivered(s: State): nat
    requires s.delivered != []
  {
    s.delivered[|s.delivered| - 1].ticket
  }

  /**
   * check_completions: each message in turn is taken, its node retired, and
   * its handler run, which may start and cancel requests. The number of queued
   * messages is the measure, as nothing a handler can do adds one.
   */
  function CheckCompletions(s: State): (t: State)
    ensures t.dropped == s.dropped && t.alive == s.alive && s.delivered <= t.delivered
    decreases |s.msgs|
  {
    if s.msgs == [] then s
    else
      match Complete(s)
      case None => s
      case Some(c) => CheckCompletions(RunScript(c, ScriptOf(c, LastDelivered(c))))
  }

  /** What libcurl does to the transfers inside one curl_multi_socket_action, in any order and number. */
  datatype Act = BodyChunk(eh: nat, data: string) | HeaderChunk(eh: nat, data: string)
               | Finish(eh: nat, code: nat, http: int)

  predicate Done(msgs: seq<Msg>, eh: nat) {
    exists i :: 0 <= i < |msgs| && msgs[i].eh == eh
  }

  /** libcurl only works on handles in the multi whose transfer is not over. */
  predicate Busy(s: State, eh: nat) {
    eh in s.easy && eh in s.added && s.added[eh] < |s.wire| && !Done(s.msgs, eh)
  }

  function CurlAct(s: State, a: Act): (t: State)
    ensures t.dropped == s.dropped && t.alive == s.alive && t.delivered == s.delivered
  {
    if !Busy(s, a.eh) then s
    else
      var k := s.added[a.eh];
      match a
      case BodyChunk(eh, data) =>
        var q := s.(wire := s.wire[k := s.wire[k].(body := s.wire[k].body + [data])]);
        if s.easy[eh].config.writeFunction != BodyWriteCb then q  // a hook took the body over
        else
          (match Deref(s.transfers, s.easy[eh].req.writeData)
           case None => q
           case Some(i) =>
             var t := s.transfers[i];
             q.(transfers := s.transfers[i := t.(buffer := t.buffer + data)]))
      case HeaderChunk(eh, data) =>
        var q := s.(wire := s.wire[k := s.wire[k].(head := s.wire[k].head + [data])]);
        if s.easy[eh].config.headerFunction != HeaderCb || !s.easy[eh].req.headerData.HeaderBufferPtr? then q
        else
          (match IndexOfEh(s.transfers, s.easy[eh].req.headerData.node)
           case None => q
           case Some(i) =>
             var t := s.transfers[i];
             q.(transfers := s.transfers[i := t.(headerBuffer := t.headerBuffer + data)]))
      case Finish(eh, code, http) =>
        var m := Msg(eh, code, http);
        s.(msgs := s.msgs + [m], wire := s.wire[k := s.wire[k].(finished := Some(m))])
  }

  function CurlActs(s: State, acts: seq<Act>): (t: State)
    ensures t.dropped == s.dropped && t.alive == s.alive && t.delivered == s.delivered
    decreases |acts|
  {
    if acts == [] then s else CurlActs(CurlAct(s, acts[0]), acts[1..])
  }

  /** curl_multi_socket_action: on return running_ holds the number of transfers still running. */
  function SocketAction(s: State, acts: seq<Act>): State {
    var t := CurlActs(s, acts);
    t.(running := |t.added| - |t.msgs|)
  }

  function Ehs(ts: seq<Node>): (r: seq<nat>)
    ensures |r| == |ts|
    ensures forall i :: 0 <= i < |ts| ==> r[i] == ts[i].eh
  {
    seq(|ts|, i requires 0 <= i < |ts| => ts[i].eh)
  }

  /** The tickets of the handlers held by nodes. */
  function Held(ts: seq<Node>): (r: seq<nat>)
    ensures |r| == |ts|
    ensures forall i :: 0 <= i < |ts| && ts[i].handler.Some? ==> r[i] == ts[i].handler.value
  {
    seq(|ts|, i requires 0 <= i < |ts| => if ts[i].handler.Some? then ts[i].handler.value else 0)
  }

  function TicketsOf(cs: seq<Completion>): (r: seq<nat>)
    ensures |r| == |cs|
    ensures forall i :: 0 <= i < |cs| ==> r[i] == cs[i].ticket
  {
    seq(|cs|, i requires 0 <= i < |cs| => cs[i].ticket)
  }

  /** ~Client: every node and handle is freed; the handlers in flight go down with their nodes. No count is left to read. */
  function Destroy(s: State): State {
    s.(alive := false, running := 0, transfers := [], idle := [], easy := map[], added := map[], msgs := [],
       freed := s.freed + Ehs(s.transfers) + Ehs(s.idle), dropped := s.dropped + Held(s.transfers))
  }

  /** One step of a run: a user call, a pass of libcurl with its completions, a posted completion, the destructor. */
  datatype Event =
    | UserStart(req: Request, script: seq<Op>, env: StartEnv)
    | UserCancel(id: nat)
    | Action(acts: seq<Act>)
    | RunPosted(i: nat)
    | Destruct

  /**
   * Cancellation slots check alive_; kicks and socket waits of a destroyed
   * client do not reach it; posted completions do not depend on the client.
   */
  function Step(s: State, e: Event): (t: State)
    ensures s.delivered <= t.delivered
    ensures t.alive ==> s.alive && t.dropped == s.dropped
  {
    match e
    case UserStart(r, script, env) => if s.alive then Start(s, r, script, env) else s
    case UserCancel(id) => if s.alive then Cancel(s, id) else s
    case Action(acts) => if s.alive then CheckCompletions(SocketAction(s, acts)) else s
    case RunPosted(i) =>
      if i < |s.posted| then
        var c := s.posted[i];
        var d := s.(posted := RemoveAt(s.posted, i), delivered := s.delivered + [c]);
        if s.alive then RunScript(d, ScriptOf(d, c.ticket)) else d
      else s
    case Destruct => if s.alive then Destroy(s) else s
  }

  function Run(s: State, es: seq<Event>): State
    decreases |es|
  {
    if es == [] then s else Run(Step(s, es[0]), es[1..])
  }
}
