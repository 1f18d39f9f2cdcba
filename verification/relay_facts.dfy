/** What the protocol promises, stated over `Protocol.Handle`. */
module RelayFacts {
  import opened Wire
  import opened Mailbox
  import opened Identity
  import opened Protocol

  /** The states the relay can reach: every Dispatcher at rest, and every registry key a
      fingerprint, which holds a dash (so it is never `"toString"` or another inherited
      name). */
  predicate WellFormed(v: RelayView) {
    RelaySettled(v) && forall k | k in v.sessions :: '-' in k
  }

  lemma InitialWellFormed()
    ensures WellFormed(Initial)
  {
  }

  lemma MobilePrefixed(p: string)
    requires |p| >= 8 && p[..8] == "/mobile/"
    ensures IsMobilePath(p)
  {
    assert OccursAt(p, "/mobile/", 0);
  }

  lemma MobileRoutesAreMobilePaths()
    ensures IsMobilePath("/mobile/init") && IsMobilePath("/mobile/console")
    ensures IsMobilePath("/mobile/breakpoint") && IsMobilePath("/mobile/incoming")
  {
    MobilePrefixed("/mobile/init");
    MobilePrefixed("/mobile/console");
    MobilePrefixed("/mobile/breakpoint");
    MobilePrefixed("/mobile/incoming");
  }

  /** The registry only grows. A new entry appears only for a mobile path, under the
      request's fingerprint, with `lastAccessTime` set; entries the request does not
      resolve to are left exactly as they were; `lastAccessTime` changes only on the
      fingerprint branch. */
  lemma RegistryOnlyGrows(v: RelayView, q: Request)
    ensures var n := Handle(v, q).next;
      v.sessions.Keys <= n.sessions.Keys
      && (forall k | k in n.sessions && k !in v.sessions ::
            IsMobilePath(q.path) && q.ua.Some? && k == MobileKey(q.ip, q.ua.value)
            && n.sessions[k].lastAccessTime == Some(q.now))
      && (forall k | k in v.sessions && Resolved(v, q) != Explicit(k) && Resolved(v, q) != Derived(k) ::
            n.sessions[k] == v.sessions[k])
      && (forall k | k in v.sessions && n.sessions[k].lastAccessTime != v.sessions[k].lastAccessTime ::
            Resolved(v, q) == Derived(k) && n.sessions[k].lastAccessTime == Some(q.now))
  {
  }

  /** Every request leaves every Dispatcher at rest. */
  lemma HandleSettled(v: RelayView, q: Request)
    requires RelaySettled(v)
    ensures RelaySettled(Handle(v, q).next)
  {
    var n := Handle(v, q).next;
    match Resolved(v, q)
    case Explicit(k) =>
      assert forall j | j in n.sessions && j != k :: n.sessions[j] == v.sessions[j];
    case Derived(k) =>
      assert forall j | j in n.sessions && j != k :: n.sessions[j] == v.sessions[j];
    case Shared =>
    case NoUserAgent =>
  }

  /** Handling a request keeps the relay well formed. */
  lemma HandleWellFormed(v: RelayView, q: Request)
    requires WellFormed(v)
    ensures WellFormed(Handle(v, q).next)
  {
    var n := Handle(v, q).next;
    HandleSettled(v, q);
    RegistryOnlyGrows(v, q);
    forall k | k in n.sessions ensures '-' in k {
      if k !in v.sessions {
        assert k[|q.ip|] == '-';
      }
    }
  }

  /** With lookups restricted to the registry's own keys, a request fails only when it comes
      on a mobile path without a User-Agent header; nothing is changed then. */
  lemma OnlyMissingUserAgentFails(v: RelayView, q: Request)
    ensures Handle(v, q).reply.fault.Some? <==> Resolved(v, q).NoUserAgent?
    ensures Resolved(v, q).NoUserAgent? ==> Handle(v, q) == Outcome(v, Reply([], Some(UserAgentUndefined)))
  {
    MobileRoutesAreMobilePaths();
  }

  /** Two requests on mobile paths without a `targetId`, from the same address and with
      user agents equal up to whitespace-versus-dash, reach the same session; the second
      creates nothing. */
  lemma SameClientSameSession(v: RelayView, q1: Request, q2: Request)
    requires IsMobilePath(q1.path) && IsMobilePath(q2.path)
    requires q1.targetId == None && q2.targetId == None && q1.ip == q2.ip
    requires q1.ua.Some? && q2.ua.Some? && Dashify(q1.ua.value) == Dashify(q2.ua.value)
    ensures var v1 := Handle(v, q1).next;
      var k := MobileKey(q1.ip, q1.ua.value);
      Resolved(v, q1) == Derived(k) && Resolved(v1, q2) == Derived(k) && k in v1.sessions
      && Handle(v1, q2).next.sessions.Keys == v1.sessions.Keys
  {
  }

  /** The `/mobile/init` case on a pair at rest. */
  lemma InitOnPair(p: Pair, conn: ConnId, data: Body)
    requires Settled(p.mobile) && Settled(p.desktop)
    ensures var r := RouteOn(MobileInit, p, conn, data);
      r.pair.mobile == Box([], Some(conn))
      && (p.mobile.client.Some? ==>
            |r.sent| > 0 && r.sent[0] == Completion(p.mobile.client.value, EndedEmpty))
      && r.pair.desktop == (if p.desktop.client.Some? then Idle else Box([data], None))
      && DeliveredBodies(r.sent) == (if p.desktop.client.Some? then [data] else [])
      && (p.desktop.client.Some? ==> Completion(p.desktop.client.value, Delivered(data)) in r.sent)
      && r.sent == (if p.mobile.client.Some? then [Completion(p.mobile.client.value, EndedEmpty)] else [])
                   + (if p.desktop.client.Some? then [Completion(p.desktop.client.value, Delivered(data))] else [])
  {
    var ended := End(p.mobile);
    var parked := SetClient(Idle, conn);
    var told := AddMessage(ClearMessages(p.desktop), data);
    assert parked == Step(Box([], Some(conn)), []);
    assert DeliveredBodies(ended.sent) == [];
    DeliveredBodiesAppend(ended.sent, parked.sent);
    DeliveredBodiesAppend(ended.sent + parked.sent, told.sent);
    if p.desktop.client.Some? {
      var c := p.desktop.client.value;
      assert told == Step(Idle, [Completion(c, Delivered(data))]);
      assert (ended.sent + parked.sent + told.sent)[|ended.sent|] == Completion(c, Delivered(data));
    } else {
      assert told == Step(Box([data], None), []);
    }
  }

  /** `/mobile/console` on a pair at rest: `data` goes to a waiting desktop client at once,
      or is appended to the desktop queue; then the request is answered `200 {}`. The
      mobile side is untouched. */
  lemma ConsoleOnPair(p: Pair, conn: ConnId, data: Body)
    requires Settled(p.desktop)
    ensures var r := RouteOn(MobileConsole, p, conn, data);
      r.pair.mobile == p.mobile
      && (p.desktop.client.None? ==>
            r.pair.desktop == Box(p.desktop.queue + [data], None) && r.sent == [Ack(conn)])
      && (p.desktop.client.Some? ==>
            r.pair.desktop == Idle
            && r.sent == [Completion(p.desktop.client.value, Delivered(data)), Ack(conn)])
  {
  }

  /** `/desktop/outgoing` on a pair at rest: the same on the mobile side. */
  lemma OutgoingOnPair(p: Pair, conn: ConnId, data: Body)
    requires Settled(p.mobile)
    ensures var r := RouteOn(DesktopOutgoing, p, conn, data);
      r.pair.desktop == p.desktop
      && (p.mobile.client.None? ==>
            r.pair.mobile == Box(p.mobile.queue + [data], None) && r.sent == [Ack(conn)])
      && (p.mobile.client.Some? ==>
            r.pair.mobile == Idle
            && r.sent == [Completion(p.mobile.client.value, Delivered(data)), Ack(conn)])
  {
  }

  /** `/mobile/incoming` on a pair at rest: the poll is answered with the oldest mobile
      message at once, or waits on the empty queue after ending an earlier poll. */
  lemma MobileIncomingOnPair(p: Pair, conn: ConnId, data: Body)
    requires Settled(p.mobile)
    ensures var r := RouteOn(MobileIncoming, p, conn, data);
      r.pair.desktop == p.desktop
      && (p.mobile.queue != [] ==>
            r.pair.mobile == Box(p.mobile.queue[1..], None)
            && r.sent == [Completion(conn, Delivered(p.mobile.queue[0]))])
      && (p.mobile.queue == [] ==>
            r.pair.mobile == Box([], Some(conn))
            && r.sent == if p.mobile.client.Some? then [Completion(p.mobile.client.value, EndedEmpty)] else [])
  {
    AttachToSettled(p.mobile, conn);
  }

  /** `/desktop/incoming` on a pair at rest: the same on the desktop side. */
  lemma DesktopIncomingOnPair(p: Pair, conn: ConnId, data: Body)
    requires Settled(p.desktop)
    ensures var r := RouteOn(DesktopIncoming, p, conn, data);
      r.pair.mobile == p.mobile
      && (p.desktop.queue != [] ==>
            r.pair.desktop == Box(p.desktop.queue[1..], None)
            && r.sent == [Completion(conn, Delivered(p.desktop.queue[0]))])
      && (p.desktop.queue == [] ==>
            r.pair.desktop == Box([], Some(conn))
            && r.sent == if p.desktop.client.Some? then [Completion(p.desktop.client.value, EndedEmpty)] else [])
  {
    AttachToSettled(p.desktop, conn);
  }

  /** `/mobile/breakpoint` on a pair at rest: `data` reaches the desktop as for
      `/mobile/console`, and then the request polls the mobile side as `/mobile/incoming`
      does; the completions come in that order. */
  lemma BreakpointOnPair(p: Pair, conn: ConnId, data: Body)
    requires Settled(p.mobile) && Settled(p.desktop)
    ensures var r := RouteOn(MobileBreakpoint, p, conn, data);
      var told := if p.desktop.client.Some? then [Completion(p.desktop.client.value, Delivered(data))] else [];
      r.pair.desktop == (if p.desktop.client.Some? then Idle else Box(p.desktop.queue + [data], None))
      && (p.mobile.queue != [] ==>
            r.pair.mobile == Box(p.mobile.queue[1..], None)
            && r.sent == told + [Completion(conn, Delivered(p.mobile.queue[0]))])
      && (p.mobile.queue == [] ==>
            r.pair.mobile == Box([], Some(conn))
            && r.sent == told + if p.mobile.client.Some? then [Completion(p.mobile.client.value, EndedEmpty)] else [])
  {
    AttachToSettled(p.mobile, conn);
  }

  /** `/mobile/init` starts a new generation: the previous mobile long poll is ended empty,
      the session's mobile side is a new Dispatcher holding only the init connection (the
      old mobile backlog is gone), the desktop backlog is dropped and replaced by the init
      body, and the only message delivered anywhere is that body, to a waiting desktop. */
  lemma InitStartsGeneration(v: RelayView, q: Request)
    requires WellFormed(v) && RouteOf(q.path) == MobileInit && !Resolved(v, q).NoUserAgent?
    ensures var o := Handle(v, q);
      var res := Resolved(v, q);
      (res.Explicit? || res.Derived?) && o.reply.fault == None
      && var k := res.key;
      var was := if k in v.sessions then v.sessions[k] else SessionView(Idle, Idle, None);
      k in o.next.sessions
      && o.next.sessions[k].mobile == Box([], Some(q.conn))
      && (was.mobile.client.Some? ==>
            |o.reply.sent| > 0 && o.reply.sent[0] == Completion(was.mobile.client.value, EndedEmpty))
      && o.next.sessions[k].desktop == (if was.desktop.client.Some? then Idle else Box([q.data], None))
      && DeliveredBodies(o.reply.sent) == (if was.desktop.client.Some? then [q.data] else [])
      && (was.desktop.client.Some? ==>
            Completion(was.desktop.client.value, Delivered(q.data)) in o.reply.sent)
      && o.reply.sent == (if was.mobile.client.Some? then [Completion(was.mobile.client.value, EndedEmpty)] else [])
                         + (if was.desktop.client.Some? then [Completion(was.desktop.client.value, Delivered(q.data))] else [])
  {
    MobileRoutesAreMobilePaths();
    var res := Resolved(v, q);
    var k := res.key;
    var was := if k in v.sessions then v.sessions[k] else SessionView(Idle, Idle, None);
    InitOnPair(Pair(was.mobile, was.desktop), q.conn, q.data);
  }

  /** A route that matches no case answers `404 NOT FOUND` and leaves every existing
      Dispatcher as it was. */
  lemma UnmatchedIsNotFound(v: RelayView, q: Request)
    requires RouteOf(q.path) == Unmatched && !Resolved(v, q).NoUserAgent?
    ensures var o := Handle(v, q);
      o.reply == Reply([Completion(q.conn, Text404(NotFoundText))], None)
      && o.next.defaultMobile == v.defaultMobile && o.next.defaultDesktop == v.defaultDesktop
      && forall k | k in v.sessions ::
           o.next.sessions[k].mobile == v.sessions[k].mobile
           && o.next.sessions[k].desktop == v.sessions[k].desktop
  {
  }

  /** A path that matches no case but holds `/mobile/` still takes the fingerprint branch
      first: the session is created and stamped before the 404 is written. */
  lemma UnmatchedMobilePathCreatesSession(v: RelayView, q: Request)
    requires RouteOf(q.path) == Unmatched && IsMobilePath(q.path)
    requires q.targetId == None && q.ua.Some? && MobileKey(q.ip, q.ua.value) !in v.sessions
    ensures var o := Handle(v, q); var k := MobileKey(q.ip, q.ua.value);
      o.reply == Reply([Completion(q.conn, Text404(NotFoundText))], None)
      && o.next.sessions.Keys == v.sessions.Keys + {k}
      && o.next.sessions[k] == SessionView(Idle, Idle, Some(q.now))
  {
  }

  /** For instance `/mobile/x` from a new client. */
  lemma UnknownMobilePathExample(ip: string, ua: string, c: ConnId, now: int)
    ensures var q := Request("/mobile/x", None, ip, Some(ua), Undefined, c, now);
      var o := Handle(Initial, q);
      o.reply == Reply([Completion(c, Text404(NotFoundText))], None)
      && o.next.sessions.Keys == {MobileKey(ip, ua)}
  {
    MobilePrefixed("/mobile/x");
    CaseLabelsUnprefixed("/mobile/x");
    UnmatchedMobilePathCreatesSession(Initial, Request("/mobile/x", None, ip, Some(ua), Undefined, c, now));
  }

  /** `POST /mobile/console` from a new client, then `GET /desktop/incoming` naming that
      client's session: the console call is acknowledged with `200 {}` and queued; the
      desktop poll receives it and the queue is empty again. */
  lemma ConsoleReachesDesktop(v: RelayView, ip: string, ua: string, t: string, c1: ConnId,
                              c2: ConnId, t1: int, t2: int, ip2: string, ua2: Option<string>)
    requires MobileKey(ip, ua) !in v.sessions
    ensures var k := MobileKey(ip, ua);
      var o1 := Handle(v, Request("/mobile/console", None, ip, Some(ua), Json(t), c1, t1));
      var o2 := Handle(o1.next, Request("/desktop/incoming", Some(k), ip2, ua2, Undefined, c2, t2));
      o1.reply == Reply([Ack(c1)], None)
      && k in o1.next.sessions && o1.next.sessions[k].desktop == Box([Json(t)], None)
      && o2.reply == Reply([Completion(c2, Delivered(Json(t)))], None)
      && k in o2.next.sessions && o2.next.sessions[k].desktop == Idle
  {
    MobileRoutesAreMobilePaths();
  }

  /** `GET /mobile/incoming` is held open on an empty mobile queue; a later
      `POST /desktop/outgoing` naming that session completes it with the command and is
      itself acknowledged with `200 {}`. */
  lemma CommandReachesHeldMobile(v: RelayView, ip: string, ua: string, cmd: string,
                                 c1: ConnId, c2: ConnId, t1: int, t2: int, ip2: string,
                                 ua2: Option<string>)
    requires var k := MobileKey(ip, ua); k in v.sessions ==> v.sessions[k].mobile.queue == []
    ensures var k := MobileKey(ip, ua);
      var o1 := Handle(v, Request("/mobile/incoming", None, ip, Some(ua), Undefined, c1, t1));
      var o2 := Handle(o1.next, Request("/desktop/outgoing", Some(k), ip2, ua2, Json(cmd), c2, t2));
      (forall x | x in o1.reply.sent :: x.response == EndedEmpty)
      && k in o1.next.sessions && o1.next.sessions[k].mobile == Box([], Some(c1))
      && o2.reply == Reply([Completion(c1, Delivered(Json(cmd))), Ack(c2)], None)
      && o2.next.sessions[k].mobile == Idle
  {
    MobileRoutesAreMobilePaths();
  }

  // ---------------------------------------------------------------------------------------
  // Inherited names as `targetId`

  /** As written, a `targetId` that names an inherited property of the registry object
      (here `toString`) passes the lookup, and the route then calls a method on an
      undefined Dispatcher: the request handler throws. */
  lemma InheritedTargetIdThrows(v: RelayView, q: Request)
    requires WellFormed(v) && q.targetId == Some("toString") && UsesDispatchers(RouteOf(q.path))
    ensures HandleAsWritten(v, q) == Outcome(v, Reply([], Some(DispatcherUndefined)))
  {
    assert "toString" in InheritedNames;
    assert '-' !in "toString";
  }

  /** The as-written handler and the own-keys one differ only on a `targetId` that names an
      inherited property. */
  lemma AsWrittenAgrees(v: RelayView, q: Request)
    requires !(q.targetId.Some? && q.targetId.value in InheritedNames)
    ensures HandleAsWritten(v, q) == Handle(v, q)
  {
  }

  /** With only own keys honoured, the same request is routed as if it carried no
      `targetId`: to the default pair, or to its fingerprint session on a mobile path. */
  lemma InheritedTargetIdIgnored(v: RelayView, q: Request)
    requires WellFormed(v) && q.targetId == Some("toString")
    ensures var r := Handle(v, q);
      r == Handle(v, q.(targetId := None))
      && (q.ua.Some? || !IsMobilePath(q.path) ==> r.reply.fault == None)
  {
    assert '-' !in "toString";
    OnlyMissingUserAgentFails(v, q);
  }
}
