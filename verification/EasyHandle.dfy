/**
 * A libcurl easy handle as the client uses it: the options one handle holds,
 * what each curl_easy_setopt call does to them, and the two ways a request
 * meets a handle (freshly made, or drawn from the idle pool without a reset).
 */
module EasyHandle {
  import opened Common

  /** What a pointer-valued option refers to. A transfer node is named by the number of its easy handle. */
  datatype Ptr =
    | Null
    | NodePtr(node: nat)          // the Transfer itself
    | HeaderBufferPtr(node: nat)  // &t.header_buffer
    | BodyPtr(node: nat)          // t.body.c_str()
    | HeaderListPtr(node: nat)    // the curl_slist in t.headers
    | ForeignPtr(tag: nat)        // supplied by a Request::curl hook

  datatype Callback = NoCallback | BodyWriteCb | HeaderCb | OpenSocketCb | CloseSocketCb | ForeignCb(tag: nat)

  /** The request kind libcurl keeps internally; several options change it. */
  datatype Verb = GetVerb | PostVerb

  /** Options that do not depend on the request: configure_handle sets them once per handle. */
  datatype Config = Config(
    writeFunction: Callback, headerFunction: Callback, noSignal: int, maxLifetimeConn: int,
    acceptEncoding: Option<string>, pipeWait: int, bufferSize: int,
    openSocketFunction: Callback, openSocketData: bool,
    closeSocketFunction: Callback, closeSocketData: bool)

  /** Options a transfer can vary: start sets them each time. */
  datatype PerRequest = PerRequest(
    url: string, writeData: Ptr, headerData: Ptr, private_: Ptr, timeoutMs: int,
    followLocation: int, maxRedirs: int, httpHeader: Ptr, customRequest: Option<string>,
    verb: Verb, postFields: Ptr, postFieldSize: int)

  /** other holds whatever else a Request::curl hook may have set. */
  datatype Options = Options(config: Config, req: PerRequest, other: map<nat, string>)

  /** One curl_easy_setopt call. The Data options of the socket callbacks hold the client, or not. */
  datatype Setting =
    | WriteFunction(cb: Callback) | HeaderFunction(cb: Callback) | NoSignal(n: int) | MaxLifetimeConn(n: int)
    | AcceptEncoding(text: Option<string>) | PipeWait(n: int) | BufferSize(n: int)
    | OpenSocketFunction(cb: Callback) | OpenSocketData(client: bool)
    | CloseSocketFunction(cb: Callback) | CloseSocketData(client: bool)
    | Url(s: string) | WriteData(p: Ptr) | HeaderData(p: Ptr) | Private(p: Ptr) | TimeoutMs(n: int)
    | FollowLocation(n: int) | MaxRedirs(n: int) | HttpHeader(p: Ptr) | CustomRequest(text: Option<string>)
    | HttpGet | Post | PostFields(p: Ptr) | PostFieldSize(n: int)
    | Other(key: nat, s: string)

  /** What a Request::curl hook may set: anything but the three options that tie a handle to its node. */
  type HookSetting = s: Setting | !s.WriteData? && !s.HeaderData? && !s.Private? witness HttpGet

  datatype Method = GET | POST | PUT | PATCH | DEL

  datatype Request = Request(
    url: string, verb: Method, headers: seq<string>, body: string, timeoutMs: int,
    maxRedirects: int, hook: Option<seq<HookSetting>>)

  const DefaultConfig := Config(NoCallback, NoCallback, 0, 118, None, 0, 16384, NoCallback, false, NoCallback, false)

  const DefaultRequest := PerRequest("", Null, Null, Null, 0, 0, -1, Null, None, GetVerb, Null, -1)

  /** What configure_handle asks for. */
  const ClientConfig :=
    Config(BodyWriteCb, HeaderCb, 1, 30, Some(""), 1, 512 * 1024, OpenSocketCb, true, CloseSocketCb, true)

  /** curl_easy_init, and what curl_easy_reset goes back to. */
  function Fresh(): Options {
    Options(DefaultConfig, DefaultRequest, map[])
  }

  function SetConfig(c: Config, s: Setting): Config {
    match s
    case WriteFunction(cb) => c.(writeFunction := cb)
    case HeaderFunction(cb) => c.(headerFunction := cb)
    case NoSignal(n) => c.(noSignal := n)
    case MaxLifetimeConn(n) => c.(maxLifetimeConn := n)
    case AcceptEncoding(text) => c.(acceptEncoding := text)
    case PipeWait(n) => c.(pipeWait := n)
    case BufferSize(n) => c.(bufferSize := n)
    case OpenSocketFunction(cb) => c.(openSocketFunction := cb)
    case OpenSocketData(client) => c.(openSocketData := client)
    case CloseSocketFunction(cb) => c.(closeSocketFunction := cb)
    case CloseSocketData(client) => c.(closeSocketData := client)
    case _ => c
  }

  /** POSTFIELDS and POST select a POST; HTTPGET selects a GET. */
  function SetRequest(q: PerRequest, s: Setting): PerRequest {
    match s
    case Url(s) => q.(url := s)
    case WriteData(p) => q.(writeData := p)
    case HeaderData(p) => q.(headerData := p)
    case Private(p) => q.(private_ := p)
    case TimeoutMs(n) => q.(timeoutMs := n)
    case FollowLocation(n) => q.(followLocation := n)
    case MaxRedirs(n) => q.(maxRedirs := n)
    case HttpHeader(p) => q.(httpHeader := p)
    case CustomRequest(text) => q.(customRequest := text)
    case HttpGet => q.(verb := GetVerb)
    case Post => q.(verb := PostVerb)
    case PostFields(p) => q.(postFields := p, verb := PostVerb)
    case PostFieldSize(n) => q.(postFieldSize := n)
    case _ => q
  }

  /** curl_easy_setopt. */
  function Set(o: Options, s: Setting): Options {
    Options(SetConfig(o.config, s), SetRequest(o.req, s), if s.Other? then o.other[s.key := s.s] else o.other)
  }

  function SetAll(o: Options, settings: seq<Setting>): Options
    decreases |settings|
  {
    if settings == [] then o else SetAll(Set(o, settings[0]), settings[1..])
  }

  /** The state configure_handle leaves a handle in. */
  function Configure(o: Options): Options {
    o.(config := ClientConfig)
  }

  function CustomVerb(m: Method): Option<string> {
    match m
    case GET => None
    case POST => None
    case PUT => Some("PUT")
    case PATCH => Some("PATCH")
    case DEL => Some("DELETE")
  }

  /** What request r, carried by node n, asks of its handle before its hook; a GET leaves POSTFIELDSIZE as it was. */
  function Ask(n: nat, r: Request, oldSize: int): PerRequest {
    var get := r.verb.GET?;
    PerRequest(r.url, NodePtr(n), HeaderBufferPtr(n), NodePtr(n), r.timeoutMs,
               if r.maxRedirects != 0 then 1 else 0, r.maxRedirects,
               if r.headers == [] then Null else HeaderListPtr(n), CustomVerb(r.verb),
               if get then GetVerb else PostVerb, if get then Null else BodyPtr(n),
               if get then oldSize else |r.body|)
  }

  /** The options start() leaves behind, before the hook. */
  function Apply(o: Options, n: nat, r: Request): Options {
    o.(req := Ask(n, r, o.req.postFieldSize))
  }

  /** The options a transfer of r runs with when its handle starts from base. */
  function Effective(base: Options, n: nat, r: Request): Options {
    var o := Apply(base, n, r);
    if r.hook.Some? then SetAll(o, r.hook.value) else o
  }

  /** A handle fit for the pool: apart from what its last request set, it is as configured. */
  predicate PoolReady(o: Options) {
    o.config == ClientConfig && o.other == map[]
  }

  predicate SameButPostFieldSize(a: Options, b: Options) {
    a.config == b.config && a.other == b.other && a.req.(postFieldSize := 0) == b.req.(postFieldSize := 0)
  }

  predicate SetsPostFieldSize(settings: seq<Setting>) {
    exists i :: 0 <= i < |settings| && settings[i].PostFieldSize?
  }

  /** Does r fix POSTFIELDSIZE itself, whatever the handle held before? */
  predicate FixesPostFieldSize(r: Request) {
    !r.verb.GET? || (r.hook.Some? && SetsPostFieldSize(r.hook.value))
  }

  /** Options o are those a fresh handle would run r with, up to a POSTFIELDSIZE that r leaves alone. */
  predicate Matches(o: Options, n: nat, r: Request) {
    var slow := Effective(Configure(Fresh()), n, r);
    SameButPostFieldSize(o, slow) && (FixesPostFieldSize(r) ==> o == slow)
  }

  /** Do body and header chunks reach the client's own callbacks? Only a hook can take them elsewhere. */
  predicate KeepsBody(r: Request) {
    Effective(Configure(Fresh()), 0, r).config.writeFunction == BodyWriteCb
  }

  predicate KeepsHead(r: Request) {
    Effective(Configure(Fresh()), 0, r).config.headerFunction == HeaderCb
  }

  /** The method libcurl puts on the wire: a custom one if set, else that of the request kind. */
  function WireMethod(q: PerRequest): string {
    if q.customRequest.Some? then q.customRequest.value else if q.verb.PostVerb? then "POST" else "GET"
  }

  lemma SetAgrees(a: Options, b: Options, s: Setting)
    requires SameButPostFieldSize(a, b)
    ensures SameButPostFieldSize(Set(a, s), Set(b, s))
    ensures Set(a, s) == Set(b, s) <==> a == b || s.PostFieldSize?
  {
  }

  lemma SetsPostFieldSizeSplit(settings: seq<Setting>)
    requires settings != []
    ensures SetsPostFieldSize(settings) <==> settings[0].PostFieldSize? || SetsPostFieldSize(settings[1..])
  {
  }

  /** Two handles that differ in POSTFIELDSIZE at most keep that through any settings, and lose it to one that sets it. */
  lemma {:induction false} SetAllAgrees(a: Options, b: Options, settings: seq<Setting>)
    requires SameButPostFieldSize(a, b)
    ensures SameButPostFieldSize(SetAll(a, settings), SetAll(b, settings))
    ensures SetAll(a, settings) == SetAll(b, settings) <==> a == b || SetsPostFieldSize(settings)
    decreases |settings|
  {
    if settings != [] {
      SetAgrees(a, b, settings[0]);
      SetsPostFieldSizeSplit(settings);
      SetAllAgrees(Set(a, settings[0]), Set(b, settings[0]), settings[1..]);
    }
  }

  /** A hook's settings take effect in order, each on what the ones before it left. */
  lemma {:induction false} HookIsInOrder(o: Options, settings: seq<Setting>, last: Setting)
    ensures SetAll(o, settings + [last]) == Set(SetAll(o, settings), last)
    decreases |settings|
  {
    if settings == [] {
      assert [last][1..] == [];
    } else {
      assert (settings + [last])[1..] == settings[1..] + [last];
      HookIsInOrder(Set(o, settings[0]), settings[1..], last);
    }
  }

  lemma {:induction false} SetAllConfig(a: Options, b: Options, settings: seq<Setting>)
    requires a.config == b.config
    ensures SetAll(a, settings).config == SetAll(b, settings).config
    decreases |settings|
  {
    if settings != [] {
      SetAllConfig(Set(a, settings[0]), Set(b, settings[0]), settings[1..]);
    }
  }

  /** Which callbacks a transfer runs with does not depend on the node that carries it. */
  lemma CallbacksOfRequest(o: Options, n: nat, r: Request)
    requires Matches(o, n, r)
    ensures o.config.writeFunction == BodyWriteCb <==> KeepsBody(r)
    ensures o.config.headerFunction == HeaderCb <==> KeepsHead(r)
    ensures r.hook.None? ==> KeepsBody(r) && KeepsHead(r)
  {
    if r.hook.Some? {
      SetAllConfig(Apply(Configure(Fresh()), n, r), Apply(Configure(Fresh()), 0, r), r.hook.value);
    }
  }

  /**
   * What a request without a hook asks of libcurl, in its own terms: its
   * method, target and limits, its header list, and its body with its size
   * unless it is a GET; with the client's callbacks and settings.
   */
  lemma WhatIsAsked(o: Options, n: nat, r: Request)
    requires Matches(o, n, r) && r.hook.None?
    ensures match r.verb
            case GET => WireMethod(o.req) == "GET"
            case POST => WireMethod(o.req) == "POST"
            case PUT => WireMethod(o.req) == "PUT"
            case PATCH => WireMethod(o.req) == "PATCH"
            case DEL => WireMethod(o.req) == "DELETE"
    ensures o.req.url == r.url && o.req.timeoutMs == r.timeoutMs && o.req.maxRedirs == r.maxRedirects
    ensures o.req.followLocation == 1 <==> r.maxRedirects != 0
    ensures o.req.followLocation == 0 <==> r.maxRedirects == 0
    ensures o.req.httpHeader == if r.headers == [] then Null else HeaderListPtr(n)
    ensures r.verb == GET ==> o.req.verb == GetVerb && o.req.postFields == Null
    ensures r.verb != GET ==> o.req.verb == PostVerb && o.req.postFields == BodyPtr(n) && o.req.postFieldSize == |r.body|
    ensures o.config.writeFunction == BodyWriteCb && o.config.headerFunction == HeaderCb
    ensures o.config.openSocketFunction == OpenSocketCb && o.config.openSocketData
    ensures o.config.closeSocketFunction == CloseSocketCb && o.config.closeSocketData
    ensures o.config.noSignal == 1 && o.config.maxLifetimeConn == 30 && o.config.acceptEncoding == Some("")
    ensures o.config.pipeWait == 1 && o.config.bufferSize == 524288
  {
  }

  /** Hooks cannot reach the three options that tie a handle to its node. */
  lemma {:induction false} HookKeepsNodePointers(o: Options, hook: seq<HookSetting>)
    ensures SetAll(o, hook).req.writeData == o.req.writeData
    ensures SetAll(o, hook).req.headerData == o.req.headerData
    ensures SetAll(o, hook).req.private_ == o.req.private_
    decreases |hook|
  {
    if hook != [] {
      HookKeepsNodePointers(Set(o, hook[0]), hook[1..]);
    }
  }

  /**
   * Reusing a pooled handle without curl_easy_reset gives the transfer the
   * options a fresh, configured handle would: always up to POSTFIELDSIZE, and
   * entirely exactly when the request fixes that option or the pooled handle
   * holds libcurl's default for it.
   */
  lemma PooledRefinesFresh(o: Options, n: nat, r: Request)
    requires PoolReady(o)
    ensures Matches(Effective(o, n, r), n, r)
    ensures Effective(o, n, r) == Effective(Configure(Fresh()), n, r)
            <==> FixesPostFieldSize(r) || o.req.postFieldSize == Fresh().req.postFieldSize
  {
    var fast, slow := Apply(o, n, r), Apply(Configure(Fresh()), n, r);
    assert SameButPostFieldSize(fast, slow);
    if r.hook.Some? {
      SetAllAgrees(fast, slow, r.hook.value);
    }
  }

  /** What a transfer runs with ties the handle to its own node, and a hookless one leaves it fit for the pool. */
  lemma MatchingOptions(o: Options, n: nat, r: Request)
    requires Matches(o, n, r)
    ensures o.req.writeData == NodePtr(n) && o.req.headerData == HeaderBufferPtr(n) && o.req.private_ == NodePtr(n)
    ensures r.hook.None? ==> PoolReady(o)
    ensures r.hook.None? ==> o.req.httpHeader in {Null, HeaderListPtr(n)} && o.req.postFields in {Null, BodyPtr(n)}
    ensures r.hook.None? ==> (o.req.verb == GetVerb <==> r.verb.GET?)
  {
    var slow := Apply(Configure(Fresh()), n, r);
    if r.hook.Some? {
      HookKeepsNodePointers(slow, r.hook.value);
    }
  }
}
