/** The relay's request handling as a function on values (server/server.js:57-117,
    185-193): resolve the session, then run the route's Dispatcher operations on it. */
module Protocol {
  import opened Wire
  import opened Mailbox
  import opened Identity

  datatype Route =
    | MobileInit | MobileConsole | MobileBreakpoint | MobileIncoming
    | DesktopOutgoing | DesktopIncoming
    | Peripheral   // target listing, file list, UI and file-data service
    | Unmatched    // 404

  predicate StartsWith(s: string, prefix: string) {
    |prefix| <= |s| && s[..|prefix|] == prefix
  }

  /** The `switch (reqInfo.pathname)`, compared with the whole path. */
  function RouteOf(path: string): (r: Route)
    ensures r == MobileInit <==> path == "/mobile/init"
    ensures r == MobileConsole <==> path == "/mobile/console"
    ensures r == MobileBreakpoint <==> path == "/mobile/breakpoint"
    ensures r == MobileIncoming <==> path == "/mobile/incoming"
    ensures r == DesktopOutgoing <==> path == "/desktop/outgoing"
    ensures r == DesktopIncoming <==> path == "/desktop/incoming"
    ensures r == Peripheral <==>
              path in {"/files/list", "/", "/ui", "/ui/"}
              || StartsWith(path, "/ui/") || StartsWith(path, "/files/data/")
  {
    CaseLabelsUnprefixed(path);
    if path == "/mobile/init" then MobileInit
    else if path == "/mobile/console" then MobileConsole
    else if path == "/mobile/breakpoint" then MobileBreakpoint
    else if path == "/mobile/incoming" then MobileIncoming
    else if path == "/desktop/outgoing" then DesktopOutgoing
    else if path == "/desktop/incoming" then DesktopIncoming
    else if path in {"/files/list", "/", "/ui", "/ui/"}
            || StartsWith(path, "/ui/") || StartsWith(path, "/files/data/") then Peripheral
    else Unmatched
  }

  /** No `case` label of the switch starts with `/ui/` or `/files/data/`: their second
      character is `m` or `d`. */
  lemma CaseLabelsUnprefixed(path: string)
    ensures |path| > 1 && (path[1] == 'm' || path[1] == 'd') ==>
              !StartsWith(path, "/ui/") && !StartsWith(path, "/files/data/")
  {
    if |path| > 1 && StartsWith(path, "/ui/") {
      assert path[1] == path[..4][1] == 'u';
    }
    if |path| > 1 && StartsWith(path, "/files/data/") {
      assert path[1] == path[..12][1] == 'f';
    }
  }

  /** Routes that call a method on the session's Dispatchers. */
  predicate UsesDispatchers(r: Route) {
    !r.Peripheral? && !r.Unmatched?
  }

  /** The two Dispatchers a request acts on. */
  datatype Pair = Pair(mobile: Box, desktop: Box)

  datatype Routed = Routed(pair: Pair, sent: seq<Completion>)

  /** `ok200()`: `200 {}`. */
  function Ack(conn: ConnId): Completion {
    Completion(conn, Json200(EmptyObject))
  }

  /** One `case` of the switch on the resolved pair. `conn` is the request's response
      object and `data` its body. For `/mobile/init` the mobile side becomes a brand-new
      Dispatcher. */
  function RouteOn(route: Route, p: Pair, conn: ConnId, data: Body): (r: Routed)
    ensures Settled(p.mobile) && Settled(p.desktop) ==>
              Settled(r.pair.mobile) && Settled(r.pair.desktop)
    ensures route in {MobileConsole, DesktopIncoming} ==> r.pair.mobile == p.mobile
    ensures route in {DesktopOutgoing, MobileIncoming} ==> r.pair.desktop == p.desktop
    ensures route in {MobileConsole, DesktopOutgoing} ==>
              |r.sent| > 0 && r.sent[|r.sent| - 1] == Ack(conn)
    ensures route == Unmatched ==> r == Routed(p, [Completion(conn, Text404(NotFoundText))])
    ensures route == Peripheral ==> r == Routed(p, [Completion(conn, Collaborator)])
    ensures route == MobileInit ==> r.pair.mobile == Box([], Some(conn))
  {
    match route
    case MobileInit =>
      InitRoute(p, conn, data)
    case MobileConsole =>
      var told := AddMessage(p.desktop, data);
      Routed(Pair(p.mobile, told.next), told.sent + [Ack(conn)])
    case MobileBreakpoint =>
      var told := AddMessage(p.desktop, data);
      var parked := SetClient(p.mobile, conn);
      Routed(Pair(parked.next, told.next), told.sent + parked.sent)
    case MobileIncoming =>
      var parked := SetClient(p.mobile, conn);
      Routed(Pair(parked.next, p.desktop), parked.sent)
    case DesktopOutgoing =>
      var told := AddMessage(p.mobile, data);
      Routed(Pair(told.next, p.desktop), told.sent + [Ack(conn)])
    case DesktopIncoming =>
      var parked := SetClient(p.desktop, conn);
      Routed(Pair(p.mobile, parked.next), parked.sent)
    case Peripheral =>
      Routed(p, [Completion(conn, Collaborator)])
    case Unmatched =>
      Routed(p, [Completion(conn, Text404(NotFoundText))])
  }

  /** The `/mobile/init` case: the old mobile client is ended and a new mobile Dispatcher
      parks the init connection; the desktop backlog is replaced by the body. */
  function InitRoute(p: Pair, conn: ConnId, data: Body): (r: Routed)
    ensures r.pair.mobile == Box([], Some(conn))
    ensures r.pair.desktop == (if p.desktop.client.Some? then Idle else Box([data], None))
    ensures r.sent == (if p.mobile.client.Some? then [Completion(p.mobile.client.value, EndedEmpty)] else [])
                      + (if p.desktop.client.Some? then [Completion(p.desktop.client.value, Delivered(data))] else [])
  {
    var ended := End(p.mobile);
    var parked := SetClient(Idle, conn);
    var told := AddMessage(ClearMessages(p.desktop), data);
    Routed(Pair(parked.next, told.next), ended.sent + parked.sent + told.sent)
  }

  // ---------------------------------------------------------------------------------------
  // The whole relay

  /** One registry entry: `{mobileDispatcher, desktopDispatcher, lastAccessTime}`.
      `lastAccessTime` is `None` until first set. */
  datatype SessionView = SessionView(mobile: Box, desktop: Box, lastAccessTime: Option<int>)

  /** `dispatcherMap` with the two default Dispatchers. */
  datatype RelayView = RelayView(sessions: map<string, SessionView>, defaultMobile: Box,
                                 defaultDesktop: Box)

  /** What a request brings: its path and `targetId` query parameter, the client address and
      User-Agent header, its body, its response object and the clock reading. */
  datatype Request = Request(path: string, targetId: Option<string>, ip: string,
                             ua: Option<string>, data: Body, conn: ConnId, now: int)

  /** The completions a request causes, in order, and the exception that ended it, if any. */
  datatype Reply = Reply(sent: seq<Completion>, fault: Option<Fault>)

  datatype Outcome = Outcome(next: RelayView, reply: Reply)

  /** The relay at start-up. */
  const Initial: RelayView := RelayView(map[], Idle, Idle)

  /** Every Dispatcher of the relay is at rest. */
  predicate RelaySettled(v: RelayView) {
    Settled(v.defaultMobile) && Settled(v.defaultDesktop)
    && forall k | k in v.sessions :: Settled(v.sessions[k].mobile) && Settled(v.sessions[k].desktop)
  }

  function Resolved(v: RelayView, q: Request): Resolution {
    Resolve(v.sessions.Keys, q.path, q.targetId, q.ip, q.ua)
  }

  /** `processPostedData(data)` for request `q` in state `v`. */
  function Handle(v: RelayView, q: Request): Outcome {
    HandleWith(v, q, Resolved(v, q))
  }

  /** `processPostedData(data)` with the resolution step as written. */
  function HandleAsWritten(v: RelayView, q: Request): Outcome {
    HandleWith(v, q, ResolveAsWritten(v.sessions.Keys, q.path, q.targetId, q.ip, q.ua))
  }

  /** Runs the route on the dispatchers that `res` selects. An `Explicit` key the registry
      does not own stands for a `dispatcherMap` lookup that is truthy but not a session:
      both of its Dispatchers are `undefined`. `/mobile/init` on the default pair ends the
      default mobile client and then fails on `dispatcherMap[undefined]`. */
  function HandleWith(v: RelayView, q: Request, res: Resolution): (o: Outcome)
    ensures o.reply.fault == Some(UserAgentUndefined) <==> res.NoUserAgent?
    ensures o.reply.fault.Some? ==> o.next == v
    ensures v.sessions.Keys <= o.next.sessions.Keys
    ensures o.next.sessions.Keys <= v.sessions.Keys + (if res.Derived? then {res.key} else {})
  {
    var route := RouteOf(q.path);
    match res
    case NoUserAgent =>
      Outcome(v, Reply([], Some(UserAgentUndefined)))
    case Shared =>
      if route == MobileInit then
        Outcome(v, Reply(End(v.defaultMobile).sent, Some(DispatcherUndefined)))
      else
        var r := RouteOn(route, Pair(v.defaultMobile, v.defaultDesktop), q.conn, q.data);
        Outcome(v.(defaultMobile := r.pair.mobile, defaultDesktop := r.pair.desktop),
                Reply(r.sent, None))
    case Explicit(k) =>
      if k !in v.sessions then
        if UsesDispatchers(route) then Outcome(v, Reply([], Some(DispatcherUndefined)))
        else Outcome(v, Reply(RouteOn(route, Pair(Idle, Idle), q.conn, q.data).sent, None))
      else
        var s := v.sessions[k];
        var r := RouteOn(route, Pair(s.mobile, s.desktop), q.conn, q.data);
        Outcome(v.(sessions := v.sessions[k := s.(mobile := r.pair.mobile, desktop := r.pair.desktop)]),
                Reply(r.sent, None))
    case Derived(k) =>
      var t := Touch(v, k, q.now);
      var s := t.sessions[k];
      var r := RouteOn(route, Pair(s.mobile, s.desktop), q.conn, q.data);
      Outcome(t.(sessions := t.sessions[k := s.(mobile := r.pair.mobile, desktop := r.pair.desktop)]),
              Reply(r.sent, None))
  }

  /** The fingerprint branch before the switch: the entry for `k` is created if missing
      (an existing one is kept) and its `lastAccessTime` set to `now`. */
  function Touch(v: RelayView, k: string, now: int): (r: RelayView)
    ensures r.sessions.Keys == v.sessions.Keys + {k}
    ensures r.sessions[k].lastAccessTime == Some(now)
    ensures k in v.sessions ==> r.sessions[k] == v.sessions[k].(lastAccessTime := Some(now))
    ensures k !in v.sessions ==> r.sessions[k] == SessionView(Idle, Idle, Some(now))
    ensures forall j | j in v.sessions && j != k :: r.sessions[j] == v.sessions[j]
    ensures r.defaultMobile == v.defaultMobile && r.defaultDesktop == v.defaultDesktop
  {
    var s := if k in v.sessions then v.sessions[k] else SessionView(Idle, Idle, None);
    v.(sessions := v.sessions[k := s.(lastAccessTime := Some(now))])
  }
}
