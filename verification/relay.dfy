/** The relay's mutable state (server/server.js:22-24) and `processPostedData`
    (server/server.js:57-117, 185-193) acting on it in place. */
module Relay {
  import opened Wire
  import Mailbox
  import opened Identity
  import opened Protocol
  import opened Dispatch

  /** A registry entry `{mobileDispatcher, desktopDispatcher, lastAccessTime}`. */
  datatype Entry = Entry(mobile: Dispatcher, desktop: Dispatcher, lastAccessTime: Option<int>)

  /** The states an entry's Dispatchers hold, with its access time. */
  ghost function EntryView(e: Entry): SessionView
    reads e.mobile, e.desktop
  {
    SessionView(e.mobile.State(), e.desktop.State(), e.lastAccessTime)
  }

  /** The request-handling half of one `case`: the Dispatcher calls of every route but
      `/mobile/init`, on the resolved pair `m`, `d`. */
  method RunRoute(route: Route, m: Dispatcher, d: Dispatcher, conn: ConnId, data: Body)
    returns (sent: seq<Completion>)
    requires route != MobileInit && m != d
    modifies m, d
    ensures Routed(Pair(m.State(), d.State()), sent)
            == RouteOn(route, Pair(old(m.State()), old(d.State())), conn, data)
  {
    match route
    case MobileConsole =>
      sent := d.AddMessage(data);
      sent := sent + [Ack(conn)];
    case MobileBreakpoint =>
      sent := d.AddMessage(data);
      var parked := m.SetClient(conn);
      sent := sent + parked;
    case MobileIncoming =>
      sent := m.SetClient(conn);
    case DesktopOutgoing =>
      sent := m.AddMessage(data);
      sent := sent + [Ack(conn)];
    case DesktopIncoming =>
      sent := d.SetClient(conn);
    case Peripheral =>
      sent := [Completion(conn, Collaborator)];
    case Unmatched =>
      sent := [Completion(conn, Text404(NotFoundText))];
  }

  /** `new Dispatcher()` followed by `setClient(conn)`. */
  method Parked(ghost owner: Owner, conn: ConnId) returns (d: Dispatcher, sent: seq<Completion>)
    ensures fresh(d) && d.owner == owner
    ensures Mailbox.Step(d.State(), sent) == Mailbox.SetClient(Mailbox.Idle, conn)
  {
    d := new Dispatcher(owner);
    sent := d.SetClient(conn);
  }

  /** `clearMessages()` followed by `addMessage(data)`. */
  method Reset(d: Dispatcher, data: Body) returns (sent: seq<Completion>)
    modifies d
    ensures Mailbox.Step(d.State(), sent) == Mailbox.AddMessage(Mailbox.ClearMessages(old(d.State())), data)
  {
    d.ClearMessages();
    sent := d.AddMessage(data);
  }

  class Server {
    var sessions: map<string, Entry>
    const defaultMobile: Dispatcher
    const defaultDesktop: Dispatcher

    /** Every Dispatcher the registry can reach. */
    ghost function Dispatchers(): set<Dispatcher>
      reads this
    {
      {defaultMobile, defaultDesktop}
      + (set k | k in sessions :: sessions[k].mobile)
      + (set k | k in sessions :: sessions[k].desktop)
    }

    /** Dispatchers are tagged with their slot, so distinct slots hold distinct objects.
        That every Dispatcher is at rest is a property of the modelled value
        (`RelayFacts.WellFormed`). */
    ghost predicate Valid()
      reads this
    {
      defaultMobile.owner == Owner(None, MobileSide)
      && defaultDesktop.owner == Owner(None, DesktopSide)
      && forall k | k in sessions ::
           sessions[k].mobile.owner == Owner(Some(k), MobileSide)
           && sessions[k].desktop.owner == Owner(Some(k), DesktopSide)
    }

    /** `v` is the registry as a value, except possibly for the entry under `key`: the
        same keys, and every other entry and default Dispatcher holds the state `v` gives
        it. */
    ghost predicate ModelsExcept(v: RelayView, key: Option<string>)
      reads this, Dispatchers()
    {
      v.sessions.Keys == sessions.Keys
      && defaultMobile.State() == v.defaultMobile && defaultDesktop.State() == v.defaultDesktop
      && forall k | k in sessions && Some(k) != key :: EntryView(sessions[k]) == v.sessions[k]
    }

    /** `v` is the registry as a value. */
    ghost predicate Models(v: RelayView)
      reads this, Dispatchers()
    {
      ModelsExcept(v, None)
    }

    /** Session `k` is present and holds `e`; the rest is as `v` says. */
    ghost predicate Holds(v: RelayView, k: string, e: SessionView)
      reads this, Dispatchers()
    {
      ModelsExcept(v, Some(k)) && k in sessions && EntryView(sessions[k]) == e
    }

    lemma Focus(v: RelayView, k: string)
      requires Models(v) && k in sessions
      ensures Holds(v, k, v.sessions[k])
    {
    }

    lemma Unfocus(v: RelayView, k: string, e: SessionView)
      requires Holds(v, k, e)
      ensures Models(v.(sessions := v.sessions[k := e]))
    {
    }

    /** Process start-up: empty registry, two fresh default Dispatchers. */
    constructor ()
      ensures Valid() && Models(Initial)
    {
      sessions := map[];
      defaultMobile := new Dispatcher(Owner(None, MobileSide));
      defaultDesktop := new Dispatcher(Owner(None, DesktopSide));
    }

    /** Puts the new entry `e` under key `k`. */
    method Insert(k: string, e: Entry, ghost v: RelayView)
      requires Valid() && Models(v) && k !in sessions
      requires e.mobile.owner == Owner(Some(k), MobileSide) && e.desktop.owner == Owner(Some(k), DesktopSide)
      modifies this
      ensures Valid() && sessions == old(sessions)[k := e]
      ensures Holds(v.(sessions := v.sessions[k := EntryView(e)]), k, EntryView(e))
    {
      ghost var w := v.(sessions := v.sessions[k := EntryView(e)]);
      sessions := sessions[k := e];
      assert w.sessions.Keys == sessions.Keys;
    }

    /** `dispatcherMap[targetId] = {}` with two fresh Dispatchers. */
    method CreateSession(k: string, ghost v: RelayView)
      requires Valid() && Models(v) && k !in sessions
      modifies this
      ensures Valid() && sessions.Keys == old(sessions.Keys) + {k}
      ensures fresh(sessions[k].mobile) && fresh(sessions[k].desktop)
      ensures Holds(v.(sessions := v.sessions[k := SessionView(Mailbox.Idle, Mailbox.Idle, None)]), k,
                    SessionView(Mailbox.Idle, Mailbox.Idle, None))
    {
      var m := new Dispatcher(Owner(Some(k), MobileSide));
      var d := new Dispatcher(Owner(Some(k), DesktopSide));
      assert Models(v);
      assert EntryView(Entry(m, d, None)) == SessionView(Mailbox.Idle, Mailbox.Idle, None);
      Insert(k, Entry(m, d, None), v);
    }

    /** `dispatcherMap[targetId].lastAccessTime = Date.now()`, the clock reading passed in. */
    method Stamp(k: string, now: int, ghost v: RelayView, ghost e: SessionView)
      requires Valid() && Holds(v, k, e)
      modifies this
      ensures Valid() && sessions == old(sessions)[k := old(sessions[k]).(lastAccessTime := Some(now))]
      ensures Holds(v, k, e.(lastAccessTime := Some(now)))
    {
      sessions := sessions[k := sessions[k].(lastAccessTime := Some(now))];
    }

    /** The fingerprint branch for key `k` before the switch: create the entry if it is
        missing (an existing one is never replaced), then stamp `lastAccessTime`. */
    method Touch(k: string, now: int, ghost v: RelayView)
      requires Valid() && Models(v)
      modifies this
      ensures var t := Protocol.Touch(v, k, now); Valid() && Holds(t, k, t.sessions[k])
      ensures sessions.Keys == old(sessions.Keys) + {k}
      ensures k in old(sessions) ==> sessions[k].mobile == old(sessions[k].mobile)
                                     && sessions[k].desktop == old(sessions[k].desktop)
      ensures k !in old(sessions) ==> fresh(sessions[k].mobile) && fresh(sessions[k].desktop)
    {
      ghost var v1 := v;
      if k !in sessions {
        v1 := v.(sessions := v.sessions[k := SessionView(Mailbox.Idle, Mailbox.Idle, None)]);
        CreateSession(k, v);
      } else {
        Focus(v, k);
      }
      Stamp(k, now, v1, v1.sessions[k]);
      assert Protocol.Touch(v, k, now).sessions[k] == v1.sessions[k].(lastAccessTime := Some(now));
    }

    /** A route other than `/mobile/init` on the default pair. */
    method RouteDefaults(route: Route, q: Request, ghost v: RelayView) returns (sent: seq<Completion>)
      requires Valid() && Models(v) && route != MobileInit
      modifies defaultMobile, defaultDesktop
      ensures Valid()
      ensures var r := RouteOn(route, Pair(v.defaultMobile, v.defaultDesktop), q.conn, q.data);
              sent == r.sent && Models(v.(defaultMobile := r.pair.mobile, defaultDesktop := r.pair.desktop))
    {
      sent := RunRoute(route, defaultMobile, defaultDesktop, q.conn, q.data);
    }

    /** A route other than `/mobile/init` on the Dispatchers of session `k`, which hold `e`. */
    method RouteSession(k: string, route: Route, q: Request, ghost v: RelayView, ghost e: SessionView)
      returns (sent: seq<Completion>)
      requires Valid() && Holds(v, k, e) && route != MobileInit
      modifies sessions[k].mobile, sessions[k].desktop
      ensures Valid()
      ensures var r := RouteOn(route, Pair(e.mobile, e.desktop), q.conn, q.data);
              sent == r.sent && Holds(v, k, e.(mobile := r.pair.mobile, desktop := r.pair.desktop))
    {
      sent := RunRoute(route, sessions[k].mobile, sessions[k].desktop, q.conn, q.data);
    }

    /** Puts Dispatcher `d` into the mobile slot of session `k`. */
    method ReplaceMobile(k: string, d: Dispatcher, ghost v: RelayView, ghost e: SessionView)
      requires Valid() && Holds(v, k, e) && d.owner == Owner(Some(k), MobileSide)
      modifies this
      ensures Valid() && sessions == old(sessions)[k := old(sessions[k]).(mobile := d)]
      ensures Holds(v, k, e.(mobile := d.State()))
    {
      sessions := sessions[k := sessions[k].(mobile := d)];
    }

    /** The desktop half of `/mobile/init`: the backlog is replaced by the body. */
    method ResetDesktop(k: string, data: Body, ghost v: RelayView, ghost e: SessionView)
      returns (sent: seq<Completion>)
      requires Valid() && Holds(v, k, e)
      modifies sessions[k].desktop
      ensures Valid()
      ensures var told := Mailbox.AddMessage(Mailbox.ClearMessages(e.desktop), data);
              sent == told.sent && Holds(v, k, e.(desktop := told.next))
    {
      sent := Reset(sessions[k].desktop, data);
    }

    /** `/mobile/init` on session `k`: the old mobile client is ended, a new mobile
        Dispatcher parks the init connection, the desktop backlog is reset to the body. */
    method InitSession(k: string, q: Request, ghost v: RelayView, ghost e: SessionView)
      returns (sent: seq<Completion>)
      requires Valid() && Holds(v, k, e)
      modifies this, sessions[k].desktop
      ensures Valid() && sessions.Keys == old(sessions.Keys)
      ensures var r := InitRoute(Pair(e.mobile, e.desktop), q.conn, q.data);
              sent == r.sent && Holds(v, k, e.(mobile := r.pair.mobile, desktop := r.pair.desktop))
    {
      var ended := sessions[k].mobile.End();
      var renewed, parked := Parked(Owner(Some(k), MobileSide), q.conn);
      var told := ResetDesktop(k, q.data, v, e);
      ReplaceMobile(k, renewed, v, e.(desktop := Mailbox.AddMessage(Mailbox.ClearMessages(e.desktop), q.data).next));
      sent := ended + parked + told;
    }

    /** The switch on the Dispatchers of session `k`, which hold `e`. */
    method OnSession(k: string, route: Route, q: Request, ghost v: RelayView, ghost e: SessionView)
      returns (reply: Reply)
      requires Valid() && Holds(v, k, e)
      modifies this, sessions[k].mobile, sessions[k].desktop
      ensures Valid() && sessions.Keys == old(sessions.Keys)
      ensures var r := RouteOn(route, Pair(e.mobile, e.desktop), q.conn, q.data);
              reply == Reply(r.sent, None)
              && Models(v.(sessions := v.sessions[k := e.(mobile := r.pair.mobile, desktop := r.pair.desktop)]))
    {
      var sent;
      ghost var r := RouteOn(route, Pair(e.mobile, e.desktop), q.conn, q.data);
      if route == MobileInit {
        sent := InitSession(k, q, v, e);
      } else {
        sent := RouteSession(k, route, q, v, e);
      }
      Unfocus(v, k, e.(mobile := r.pair.mobile, desktop := r.pair.desktop));
      reply := Reply(sent, None);
    }

    /** `processPostedData(data)`: resolve the session, then run the route. */
    method Handle(q: Request, ghost v: RelayView) returns (reply: Reply)
      requires Valid() && Models(v)
      modifies this, Dispatchers()
      ensures Valid() && Models(Protocol.Handle(v, q).next) && reply == Protocol.Handle(v, q).reply
      ensures old(sessions.Keys) <= sessions.Keys
    {
      var res := Resolve(sessions.Keys, q.path, q.targetId, q.ip, q.ua);
      match res
      case NoUserAgent =>
        reply := Reply([], Some(UserAgentUndefined));
      case Shared =>
        reply := HandleShared(q, v);
      case Explicit(k) =>
        Focus(v, k);
        reply := OnSession(k, RouteOf(q.path), q, v, v.sessions[k]);
      case Derived(k) =>
        reply := HandleDerived(k, q, v);
    }

    /** The default pair serves a request that names no session. */
    method HandleShared(q: Request, ghost v: RelayView) returns (reply: Reply)
      requires Valid() && Models(v)
      modifies defaultMobile, defaultDesktop
      ensures Valid() && Models(HandleWith(v, q, Shared).next) && reply == HandleWith(v, q, Shared).reply
    {
      var route := RouteOf(q.path);
      if route == MobileInit {
        var ended := defaultMobile.End();
        reply := Reply(ended, Some(DispatcherUndefined));
      } else {
        var sent := RouteDefaults(route, q, v);
        reply := Reply(sent, None);
      }
    }

    /** The fingerprint branch: the session `k` is found or created, stamped, then serves
        the request. */
    method HandleDerived(k: string, q: Request, ghost v: RelayView) returns (reply: Reply)
      requires Valid() && Models(v)
      modifies this, Dispatchers()
      ensures Valid() && Models(HandleWith(v, q, Derived(k)).next)
      ensures reply == HandleWith(v, q, Derived(k)).reply
      ensures old(sessions.Keys) <= sessions.Keys
    {
      Touch(k, q.now, v);
      ghost var t := Protocol.Touch(v, k, q.now);
      reply := OnSession(k, RouteOf(q.path), q, t, t.sessions[k]);
    }
  }
}
