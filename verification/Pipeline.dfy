/** The lifecycle and one direction of the byte path as a single machine: the relay's routes are the
    session table's, its open connections are the gateway's, and every lifecycle step takes effect on
    both. Nothing about routes is assumed any more; how long one lasts is proved. */
module Pipeline {
  import opened Protocol
  import opened MessageParsing
  import opened Sessions
  import N = SendPath
  import G = Gateways
  import E = EndToEnd

  /** From the clients to the AppHosts, or back. */
  datatype Side = ToApphosts | ToClients

  function Opener(side: Side): byte {
    if side.ToApphosts? then SPAWN_APP else APPHOST_READY
  }

  /** The receiving connections. */
  function Receivers(side: Side, g: G.Gw): map<Handle, G.Peer> {
    if side.ToApphosts? then g.apphosts else g.clients
  }

  function FieldOf(side: Side): Field {
    if side.ToApphosts? then ApphostField else ClientField
  }

  /** Where find_apphost or find_client sends a session; 0 is nowhere. */
  function Target(side: Side, rt: Runtime): (h: Handle)
    ensures KeyOf(rt, FieldOf(side)) == h
  {
    if side.ToApphosts? then rt.apphostConn else rt.clientConn
  }

  function RoutesBy(side: Side, recs: map<SessionId, Runtime>): map<SessionId, Handle> {
    map s | s in recs && Target(side, recs[s]) != 0 :: Target(side, recs[s])
  }

  datatype Whole = Whole(g: G.Gw, r: E.Relay)

  datatype Move =
    | Control(e: G.Event, slot: N.Slot)  // a step of the lifecycle; `slot`: the node of a connection that comes or goes
    | Data(k: E.RelayEvent)              // a receive, a packet handled, a message of the gateway's own, or the pool

  /** The session a lifecycle step removes, if any. */
  function Ended(g: G.Gw, e: G.Event): Option<SessionId> {
    match e
    case SessionRemoved(s) => Some(s)
    case SpawnFailed(h) => if h in g.clients && g.clients[h].task.Launching? then Some(g.clients[h].task.id) else None
    case ClientGone(h) => if h in g.clients && g.clients[h].session != 0 then Some(g.clients[h].session) else None
    case ApphostGone(h) => if h in g.apphosts && g.apphosts[h].session != 0 then Some(g.apphosts[h].session) else None
    case _ => None
  }

  predicate Arrives(side: Side, e: G.Event) {
    if side.ToApphosts? then e.ApphostAccepted? else e.ClientAccepted?
  }

  predicate Departs(side: Side, e: G.Event) {
    if side.ToApphosts? then e.ApphostLeaves? else e.ClientLeaves?
  }

  /** What a lifecycle step does to the relay. */
  function Echo(side: Side, g: G.Gw, e: G.Event, slot: N.Slot): Option<E.RelayEvent> {
    if Arrives(side, e) then Some(E.Pool(N.EvAccept(slot, e.h)))
    else if Departs(side, e) then Some(E.Pool(N.EvRelease(slot)))
    else if side.ToClients? && e.SpawnCreate? then Some(E.SetRoute(NextId(g.table), e.h))
    else if side.ToApphosts? && e.ReadyBind? && CanBind(g.table, e.s) then Some(E.SetRoute(e.s, e.h))
    else match Ended(g, e)
         case Some(s) => Some(E.DropRoute(s))
         case None => None
  }

  /** The session the next packet closes. */
  function Closes(r: E.Relay, e: E.RelayEvent): Option<SessionId> {
    if e.HandleNext? && e.c in r.links && r.links[e.c].todo != []
        && r.links[e.c].todo[0].header.cmdType == CLOSE_SESSION
    then Some(r.links[e.c].todo[0].header.sessionId) else None
  }

  predicate OwnCommand(cmd: byte) {
    cmd == SESSION_ACK || cmd == HEARTBEAT || cmd == ERROR_RESP || cmd == CLOSE_SESSION
  }

  /** Routes change, and connections come and go, only with the lifecycle; the gateway's own messages are
      acknowledgements, heartbeats, errors and closes. */
  predicate DataOnly(e: E.RelayEvent) {
    && !e.SetRoute? && !e.DropRoute?
    && !(e.Pool? && (e.e.EvAccept? || e.e.EvRelease?))
    && (e.SendOwn? ==> OwnCommand(e.p.header.cmdType))
  }

  ghost predicate MEnabled(side: Side, w: Whole, m: Move) {
    && N.WellFormed(w.r.net)
    && match m
       case Control(e, slot) =>
         && G.Enabled(w.g, e)
         && (Arrives(side, e) ==> slot !in w.r.net.active)
         && (Departs(side, e) ==> slot in w.r.net.active && w.r.net.slots[slot].id == e.h)
       case Data(e) => DataOnly(e) && E.REnabled(w.r, e)
  }

  function Shut(g: G.Gw, closed: Option<SessionId>): G.Gw {
    match closed
    case Some(s) => g.(table := Remove(g.table, s))
    case None => g
  }

  function MStep(side: Side, w: Whole, m: Move): Whole
    requires MEnabled(side, w, m)
  {
    match m
    case Control(e, slot) =>
      Whole(G.Step(w.g, e),
            match Echo(side, w.g, e, slot)
            case Some(k) => E.RStep(w.r, k)
            case None => w.r)
    case Data(e) => Whole(Shut(w.g, Closes(w.r, e)), E.RStep(w.r, e))
  }

  /// The invariant
  /// -------------

  /** The active list holds exactly the open connections, each once. */
  ghost predicate Listed(net: N.Net, peers: map<Handle, G.Peer>)
    requires N.WellFormed(net)
  {
    && N.UniqueIds(net)
    && (forall a :: a in net.active ==> G.Open(peers, net.slots[a].id))
    && (forall h :: G.Open(peers, h) ==> N.FindIn(net.slots, net.active, h).Some?)
  }

  ghost predicate MInv(side: Side, w: Whole) {
    && G.Inv(w.g) && E.RInv(w.r) && w.r.opener == Opener(side)
    && w.r.routes == RoutesBy(side, w.g.table.recs)
    && Listed(w.r.net, Receivers(side, w.g))
  }

  function Start(side: Side): Whole {
    Whole(G.INIT, E.Start(Opener(side)))
  }

  /// Routes follow the table

  lemma RoutesAfterSet(side: Side, recs: map<SessionId, Runtime>, s: SessionId, rt: Runtime)
    ensures RoutesBy(side, recs[s := rt]) ==
            if Target(side, rt) != 0 then RoutesBy(side, recs)[s := Target(side, rt)] else RoutesBy(side, recs) - {s}
  {
  }

  lemma RoutesAfterRemoval(side: Side, recs: map<SessionId, Runtime>, s: SessionId)
    ensures RoutesBy(side, recs - {s}) == RoutesBy(side, recs) - {s}
  {
  }

  lemma RoutesAfterTouch(side: Side, recs: map<SessionId, Runtime>, s: SessionId, rt: Runtime)
    requires s in recs && Target(side, rt) == Target(side, recs[s])
    ensures RoutesBy(side, recs[s := rt]) == RoutesBy(side, recs)
  {
  }

  /** The routes a relay step leaves. */
  function RoutesThen(routes: map<SessionId, Handle>, k: Option<E.RelayEvent>): map<SessionId, Handle> {
    match k
    case Some(SetRoute(s, h)) => routes[s := h]
    case Some(DropRoute(s)) => routes - {s}
    case _ => routes
  }

  lemma CreateRoutes(side: Side, g: G.Gw, e: G.Event, slot: N.Slot)
    requires G.Possible(g, e) && e.SpawnCreate? && NextId(g.table) !in g.table.recs && e.h > 0
    ensures RoutesBy(side, G.Step(g, e).table.recs) == RoutesThen(RoutesBy(side, g.table.recs), Echo(side, g, e, slot))
  {
    var id := NextId(g.table);
    RoutesAfterSet(side, g.table.recs, id, G.Step(g, e).table.recs[id]);
    assert RoutesBy(side, g.table.recs) - {id} == RoutesBy(side, g.table.recs);
  }

  lemma BindRoutes(side: Side, g: G.Gw, e: G.Event, slot: N.Slot)
    requires G.Inv(g) && G.Enabled(g, e) && e.ReadyBind?
    ensures RoutesBy(side, G.Step(g, e).table.recs) == RoutesThen(RoutesBy(side, g.table.recs), Echo(side, g, e, slot))
  {
    if CanBind(g.table, e.s) {
      G.CallSitesAreFresh(g, e);
      var rt := G.Step(g, e).table.recs[e.s];
      if side.ToApphosts? {
        RoutesAfterSet(side, g.table.recs, e.s, rt);
      } else {
        RoutesAfterTouch(side, g.table.recs, e.s, rt);
      }
    }
  }

  /** A connection that goes takes the session it recorded with it, and no other. */
  lemma GoneRemoves(g: G.Gw, e: G.Event)
    requires G.Inv(g) && G.Possible(g, e) && (e.ClientGone? || e.ApphostGone?)
    ensures G.Step(g, e).table.recs == match Ended(g, e) case Some(s) => g.table.recs - {s} case None => g.table.recs
  {
    if Ended(g, e).None? && e.ClientGone? {
      G.NoSessionOwnsNothing(g, ClientField, g.clients, e.h);
    } else if Ended(g, e).None? {
      G.NoSessionOwnsNothing(g, ApphostField, g.apphosts, e.h);
    }
  }

  lemma GoneRoutes(side: Side, g: G.Gw, e: G.Event, slot: N.Slot)
    requires G.Possible(g, e) && (e.ClientGone? || e.ApphostGone?)
    requires G.Step(g, e).table.recs == match Ended(g, e) case Some(s) => g.table.recs - {s} case None => g.table.recs
    ensures RoutesBy(side, G.Step(g, e).table.recs) == RoutesThen(RoutesBy(side, g.table.recs), Echo(side, g, e, slot))
  {
    if Ended(g, e).Some? {
      RoutesAfterRemoval(side, g.table.recs, Ended(g, e).value);
    }
  }

  /** A step that neither creates, binds nor removes changes no route. */
  lemma TouchRoutes(side: Side, g: G.Gw, e: G.Event)
    requires G.Possible(g, e) && Ended(g, e).None?
    requires !e.SpawnCreate? && !e.ReadyBind? && !e.ClientGone? && !e.ApphostGone?
    ensures RoutesBy(side, G.Step(g, e).table.recs) == RoutesBy(side, g.table.recs)
  {
    match e
    case SpawnPid(h, pid) =>
      var s := g.clients[h].task.id;
      if s in g.table.recs {
        RoutesAfterTouch(side, g.table.recs, s, g.table.recs[s].(apphostPid := pid));
      }
    case ClientSeen(s, now) =>
      if s in g.table.recs {
        RoutesAfterTouch(side, g.table.recs, s, g.table.recs[s].(lastClientSeen := now));
      }
    case ApphostSeen(s, now) =>
      if s in g.table.recs {
        RoutesAfterTouch(side, g.table.recs, s, g.table.recs[s].(lastApphostSeen := now));
      }
    case FailBegin(s) =>
      if CanClose(g.table, s) {
        RoutesAfterTouch(side, g.table.recs, s, g.table.recs[s].(state := Closing));
      }
    case _ =>
  }

  /** Every lifecycle step changes the table's routes exactly as its echo changes the relay's. */
  lemma RoutesFollow(side: Side, g: G.Gw, e: G.Event, slot: N.Slot)
    requires G.Inv(g) && G.Enabled(g, e)
    ensures RoutesBy(side, G.Step(g, e).table.recs) == RoutesThen(RoutesBy(side, g.table.recs), Echo(side, g, e, slot))
  {
    if e.SpawnCreate? {
      G.CallSitesAreFresh(g, e);
      CreateRoutes(side, g, e, slot);
    } else if e.ReadyBind? {
      BindRoutes(side, g, e, slot);
    } else if e.ClientGone? || e.ApphostGone? {
      GoneRemoves(g, e);
      GoneRoutes(side, g, e, slot);
    } else if Ended(g, e).Some? {
      RoutesAfterRemoval(side, g.table.recs, Ended(g, e).value);
    } else {
      TouchRoutes(side, g, e);
    }
  }

  /// The list follows the connections

  /** The same slots, in the same order, with the same handles. */
  predicate SameList(n: N.Net, m: N.Net)
    requires N.WellFormed(n) && N.WellFormed(m)
  {
    m.active == n.active && forall a :: a in n.active ==> m.slots[a].id == n.slots[a].id
  }

  lemma {:induction false} FindSame(slots: map<N.Slot, N.Conn>, slots': map<N.Slot, N.Conn>, active: seq<N.Slot>,
                                    h: Handle)
    requires forall i :: 0 <= i < |active| ==>
          active[i] in slots && active[i] in slots' && slots'[active[i]].id == slots[active[i]].id
    ensures N.FindIn(slots', active, h) == N.FindIn(slots, active, h)
  {
    if active != [] {
      FindSame(slots, slots', active[1..], h);
    }
  }

  lemma SameLookups(n: N.Net, m: N.Net, h: Handle)
    requires N.WellFormed(n) && N.WellFormed(m) && SameList(n, m)
    ensures N.FindIn(m.slots, m.active, h) == N.FindIn(n.slots, n.active, h)
  {
    FindSame(n.slots, m.slots, n.active, h);
  }

  lemma SameStaysListed(n: N.Net, m: N.Net, peers: map<Handle, G.Peer>, peers': map<Handle, G.Peer>)
    requires N.WellFormed(n) && N.WellFormed(m) && SameList(n, m) && Listed(n, peers)
    requires forall h :: G.Open(peers', h) <==> G.Open(peers, h)
    ensures Listed(m, peers')
  {
    forall h | G.Open(peers', h) ensures N.FindIn(m.slots, m.active, h).Some? {
      SameLookups(n, m, h);
    }
  }

  lemma SendToSameList(r: E.Relay, h: Handle, entry: E.Entry)
    requires N.WellFormed(r.net)
    ensures var r' := E.SendTo(r, h, entry); N.WellFormed(r'.net) && SameList(r.net, r'.net) && r'.routes == r.routes
  {
    var found := N.FindIn(r.net.slots, r.net.active, h);
    if found.Some? {
      var m := E.SendTo(r, h, entry).net;
      assert m == N.Enqueue(r.net, found.value, PacketBytes(entry.p)) && m.active == r.net.active;
      forall a | a in r.net.slots ensures N.SameOccupant(r.net, m, a) {
        N.EnqueueKeepsOccupants(r.net, found.value, PacketBytes(entry.p), a);
      }
    }
  }

  /** What handling the next packet leaves of the list and the routes. */
  lemma HandleKeepsList(r: E.Relay, c: E.LinkId)
    requires N.WellFormed(r.net) && E.REnabled(r, E.HandleNext(c))
    ensures var r' := E.Handled(r, c);
      && N.WellFormed(r'.net) && SameList(r.net, r'.net) && r'.opener == r.opener
      && r'.routes == RoutesThen(r.routes, AsDrop(Closes(r, E.HandleNext(c))))
  {
    var p := r.links[c].todo[0];
    if E.IsDefault(r.opener, p) && p.header.sessionId in r.routes {
      var mid := r.(links := r.links[c := E.Popped(r.links[c])]);
      SendToSameList(mid, r.routes[p.header.sessionId], E.Entry(E.From(c), p));
    }
  }

  lemma PoolKeepsList(n: N.Net, e: N.Event)
    requires N.Inv(n) && N.Enabled(n, e) && !e.EvAccept? && !e.EvRelease?
    ensures N.WellFormed(N.Step(n, e)) && SameList(n, N.Step(n, e))
  {
    N.StepKeepsInv(n, e);
    N.SameHandles(n, e);
    N.SameActive(n, e);
  }

  function AsDrop(closed: Option<SessionId>): Option<E.RelayEvent> {
    match closed
    case Some(s) => Some(E.DropRoute(s))
    case None => None
  }

  /** A step of the byte path moves no connection, and changes only the route it closes. */
  lemma DataKeepsList(r: E.Relay, e: E.RelayEvent)
    requires E.RInv(r) && DataOnly(e) && E.REnabled(r, e)
    ensures var r' := E.RStep(r, e);
      && N.WellFormed(r'.net) && SameList(r.net, r'.net) && r'.opener == r.opener
      && r'.routes == RoutesThen(r.routes, AsDrop(Closes(r, e)))
  {
    match e
    case HandleNext(c) => HandleKeepsList(r, c);
    case SendOwn(h, p) => SendToSameList(r, h, E.Entry(E.Own, p));
    case Pool(k) => PoolKeepsList(r.net, k);
    case _ =>
  }

  lemma ArrivedListed(n: N.Net, a: N.Slot, h: Handle, peers: map<Handle, G.Peer>)
    requires N.Inv(n) && Listed(n, peers) && a !in n.active && h !in peers
    ensures N.WellFormed(N.Alloc(n, a, h)) && Listed(N.Alloc(n, a, h), peers[h := G.Peer(0, G.Idle)])
  {
    var m, peers' := N.Alloc(n, a, h), peers[h := G.Peer(0, G.Idle)];
    N.UniqueKept(n, N.EvAccept(a, h));
    forall k | G.Open(peers', k) ensures N.FindIn(m.slots, m.active, k).Some? {
      ArrivedLookup(n, a, h, k);
    }
    ArrivedOpen(n, a, h, peers);
  }

  lemma ArrivedOpen(n: N.Net, a: N.Slot, h: Handle, peers: map<Handle, G.Peer>)
    requires N.WellFormed(n) && Listed(n, peers) && a !in n.active && N.WellFormed(N.Alloc(n, a, h))
    ensures var m := N.Alloc(n, a, h); forall b :: b in m.active ==>
          G.Open(peers[h := G.Peer(0, G.Idle)], m.slots[b].id)
  {
    var m := N.Alloc(n, a, h);
    forall b | b in m.active ensures G.Open(peers[h := G.Peer(0, G.Idle)], m.slots[b].id) {
      assert b != a ==> b in n.active;
    }
  }

  lemma ArrivedLookup(n: N.Net, a: N.Slot, h: Handle, k: Handle)
    requires N.WellFormed(n) && a !in n.active && N.WellFormed(N.Alloc(n, a, h))
    ensures N.FindIn(N.Alloc(n, a, h).slots, N.Alloc(n, a, h).active, k) ==
            if k == h then Some(a) else N.FindIn(n.slots, n.active, k)
  {
    var m := N.Alloc(n, a, h);
    assert m.active[1..] == n.active;
    FindSame(n.slots, m.slots, n.active, k);
  }

  /** With the slot gone its handle is found no more, and every other as before. */
  lemma DepartedLookup(n: N.Net, a: N.Slot, h: Handle, k: Handle)
    requires N.Inv(n) && N.UniqueIds(n) && a in n.active && n.slots[a].id == h
    ensures var m := n.(active := N.Without(n.active, a));
      && N.WellFormed(m)
      && N.FindIn(m.slots, m.active, k) == if k == h then None else N.FindIn(n.slots, n.active, k)
  {
    var m := n.(active := N.Without(n.active, a));
    N.ReleaseKeepsInv(n, a);
    if k == h {
      NotFound(n, a);
    } else {
      FindWithout(n.slots, n.active, a, k);
    }
  }

  lemma NotFound(n: N.Net, a: N.Slot)
    requires N.Inv(n) && N.UniqueIds(n) && a in n.active
    ensures forall b :: b in N.Without(n.active, a) ==> b in n.active && n.slots[b].id != n.slots[a].id
  {
    N.WithoutDistinct(n.active, a);
    N.LiveIffActive(n, a);
    forall b | b in N.Without(n.active, a) ensures b in n.active && n.slots[b].id != n.slots[a].id {
      N.LiveIffActive(n, b);
    }
  }

  lemma DepartedListed(n: N.Net, a: N.Slot, h: Handle, peers: map<Handle, G.Peer>, p: G.Peer)
    requires N.Inv(n) && Listed(n, peers) && a in n.active && n.slots[a].id == h && p.task == G.Leaving
    ensures var m := n.(active := N.Without(n.active, a)); N.WellFormed(m) && Listed(m, peers[h := p])
  {
    var m := n.(active := N.Without(n.active, a));
    N.UniqueKept(n, N.EvRelease(a));
    NotFound(n, a);
    forall k | G.Open(peers[h := p], k) ensures N.FindIn(m.slots, m.active, k).Some? {
      DepartedLookup(n, a, h, k);
    }
  }

  lemma {:induction false} FindWithout(slots: map<N.Slot, N.Conn>, active: seq<N.Slot>, a: N.Slot, h: Handle)
    requires forall i :: 0 <= i < |active| ==> active[i] in slots
    requires forall i :: 0 <= i < |N.Without(active, a)| ==> N.Without(active, a)[i] in slots
    requires a in slots && slots[a].id != h
    ensures N.FindIn(slots, N.Without(active, a), h) == N.FindIn(slots, active, h)
  {
    if active != [] && active[0] != a {
      var rest := N.Without(active[1..], a);
      assert N.Without(active, a) == [active[0]] + rest;
      forall i | 0 <= i < |rest| ensures rest[i] in slots {
        assert N.Without(active, a)[i + 1] == rest[i];
      }
      FindWithout(slots, active[1..], a, h);
      assert N.Without(active, a)[1..] == rest;
    }
  }

  /** Steps in which no receiving connection comes or goes leave the same ones open. */
  lemma OpenSame(side: Side, g: G.Gw, e: G.Event)
    requires G.Possible(g, e) && !Arrives(side, e) && !Departs(side, e)
    ensures forall h :: G.Open(Receivers(side, G.Step(g, e)), h) <==> G.Open(Receivers(side, g), h)
  {
  }

  lemma EchoNet(side: Side, w: Whole, e: G.Event, slot: N.Slot)
    requires MEnabled(side, w, Control(e, slot))
    ensures MStep(side, w, Control(e, slot)).r.net ==
            if Arrives(side, e) then N.Alloc(w.r.net, slot, e.h)
            else if Departs(side, e) then w.r.net.(active := N.Without(w.r.net.active, slot))
            else w.r.net
  {
  }

  lemma EchoOk(side: Side, w: Whole, e: G.Event, slot: N.Slot)
    requires E.RInv(w.r) && MEnabled(side, w, Control(e, slot))
    ensures E.RInv(MStep(side, w, Control(e, slot)).r)
  {
    var echo := Echo(side, w.g, e, slot);
    if echo.Some? {
      E.RStepKeepsInv(w.r, echo.value);
    }
  }

  lemma ControlListed(side: Side, w: Whole, e: G.Event, slot: N.Slot)
    requires MInv(side, w) && MEnabled(side, w, Control(e, slot))
    ensures var w' := MStep(side, w, Control(e, slot)); E.RInv(w'.r) && Listed(w'.r.net, Receivers(side, w'.g))
  {
    EchoOk(side, w, e, slot);
    EchoNet(side, w, e, slot);
    ListFollows(side, w.g, e, w.r.net, slot);
  }

  lemma ListFollows(side: Side, g: G.Gw, e: G.Event, n: N.Net, slot: N.Slot)
    requires G.Possible(g, e) && N.Inv(n) && Listed(n, Receivers(side, g))
    requires Arrives(side, e) ==> slot !in n.active
    requires Departs(side, e) ==> slot in n.active && n.slots[slot].id == e.h
    ensures var m := if Arrives(side, e) then N.Alloc(n, slot, e.h)
                     else if Departs(side, e) then n.(active := N.Without(n.active, slot)) else n;
      N.WellFormed(m) && Listed(m, Receivers(side, G.Step(g, e)))
  {
    var peers := Receivers(side, g);
    if Arrives(side, e) {
      ArrivedListed(n, slot, e.h, peers);
    } else if Departs(side, e) {
      DepartedListed(n, slot, e.h, peers, peers[e.h].(task := G.Leaving));
    } else {
      OpenSame(side, g, e);
      SameStaysListed(n, n, peers, Receivers(side, G.Step(g, e)));
    }
  }

  lemma EchoRoutes(side: Side, w: Whole, e: G.Event, slot: N.Slot)
    requires MEnabled(side, w, Control(e, slot))
    ensures var w' := MStep(side, w, Control(e, slot));
      w'.r.routes == RoutesThen(w.r.routes, Echo(side, w.g, e, slot)) && w'.r.opener == w.r.opener
  {
  }

  lemma ControlKeepsInv(side: Side, w: Whole, e: G.Event, slot: N.Slot)
    requires MInv(side, w) && MEnabled(side, w, Control(e, slot))
    ensures MInv(side, MStep(side, w, Control(e, slot)))
  {
    ControlKeepsGateway(side, w, e, slot);
    ControlRoutes(side, w, e, slot);
    ControlListed(side, w, e, slot);
  }

  lemma ControlKeepsGateway(side: Side, w: Whole, e: G.Event, slot: N.Slot)
    requires MInv(side, w) && MEnabled(side, w, Control(e, slot))
    ensures G.Inv(MStep(side, w, Control(e, slot)).g)
  {
    G.StepKeepsInv(w.g, e);
  }

  lemma ControlRoutes(side: Side, w: Whole, e: G.Event, slot: N.Slot)
    requires MInv(side, w) && MEnabled(side, w, Control(e, slot))
    ensures var w' := MStep(side, w, Control(e, slot));
      w'.r.routes == RoutesBy(side, w'.g.table.recs) && w'.r.opener == Opener(side)
  {
    EchoRoutes(side, w, e, slot);
    RoutesFollow(side, w.g, e, slot);
  }

  lemma DataKeepsInv(side: Side, w: Whole, e: E.RelayEvent)
    requires MInv(side, w) && MEnabled(side, w, Data(e))
    ensures MInv(side, MStep(side, w, Data(e)))
  {
    var w' := MStep(side, w, Data(e));
    E.RStepKeepsInv(w.r, e);
    DataKeepsList(w.r, e);
    if Closes(w.r, e).Some? {
      G.FewerKeepsInv(w.g, w'.g.table);
      RoutesAfterRemoval(side, w.g.table.recs, Closes(w.r, e).value);
    }
    SameStaysListed(w.r.net, w'.r.net, Receivers(side, w.g), Receivers(side, w'.g));
  }

  /** Every step of either kind keeps the two machines in agreement. */
  lemma MStepKeepsInv(side: Side, w: Whole, m: Move)
    requires MInv(side, w) && MEnabled(side, w, m)
    ensures MInv(side, MStep(side, w, m))
  {
    match m
    case Control(e, slot) => ControlKeepsInv(side, w, e, slot);
    case Data(e) => DataKeepsInv(side, w, e);
  }

  lemma StartIsOk(side: Side)
    ensures MInv(side, Start(side))
  {
  }

  ghost predicate ValidMoves(side: Side, w: Whole, ms: seq<Move>)
    decreases |ms|
  {
    ms == [] || (MEnabled(side, w, ms[0]) && ValidMoves(side, MStep(side, w, ms[0]), ms[1..]))
  }

  ghost function After(side: Side, w: Whole, ms: seq<Move>): Whole
    requires ValidMoves(side, w, ms)
    decreases |ms|
  {
    if ms == [] then w else After(side, MStep(side, w, ms[0]), ms[1..])
  }

  lemma {:induction false} MovesKeepInv(side: Side, w: Whole, ms: seq<Move>)
    requires MInv(side, w) && ValidMoves(side, w, ms)
    ensures MInv(side, After(side, w, ms))
    decreases |ms|
  {
    if ms != [] {
      MStepKeepsInv(side, w, ms[0]);
      MovesKeepInv(side, MStep(side, w, ms[0]), ms[1..]);
    }
  }

  /** Some run from the start leads here. */
  ghost predicate Reached(side: Side, w: Whole) {
    exists ms :: ValidMoves(side, Start(side), ms) && After(side, Start(side), ms) == w
  }

  lemma ReachedIsOk(side: Side, w: Whole)
    requires Reached(side, w)
    ensures MInv(side, w)
  {
    var ms :| ValidMoves(side, Start(side), ms) && After(side, Start(side), ms) == w;
    StartIsOk(side);
    MovesKeepInv(side, Start(side), ms);
  }

  lemma {:induction false} MovesSnoc(side: Side, w: Whole, ms: seq<Move>, m: Move)
    requires ValidMoves(side, w, ms) && MEnabled(side, After(side, w, ms), m)
    ensures ValidMoves(side, w, ms + [m]) && After(side, w, ms + [m]) == MStep(side, After(side, w, ms), m)
    decreases |ms|
  {
    if ms == [] {
      assert ms + [m] == [m] && [m][1..] == [];
    } else {
      MovesSnoc(side, MStep(side, w, ms[0]), ms[1..], m);
      assert (ms + [m])[1..] == ms[1..] + [m];
    }
  }

  lemma ReachedRelay(side: Side, w: Whole)
    requires Reached(side, w)
    ensures E.RInv(w.r) && w.r.opener == Opener(side)
  {
    ReachedIsOk(side, w);
  }

  lemma ReachedGateway(side: Side, w: Whole)
    requires Reached(side, w)
    ensures G.Inv(w.g) && w.r.routes == RoutesBy(side, w.g.table.recs)
  {
    ReachedIsOk(side, w);
  }

  lemma ReachedWellFormed(side: Side, w: Whole)
    requires Reached(side, w)
    ensures N.WellFormed(w.r.net)
  {
    ReachedIsOk(side, w);
  }

  /** What a step of the byte path adds to a slot, and that it moves no connection. */
  lemma ReachedAdds(side: Side, w: Whole, e: E.RelayEvent, a: N.Slot)
    requires Reached(side, w) && MEnabled(side, w, Data(e))
    ensures E.Entries(E.RStep(w.r, e), a) == E.Entries(w.r, a) + Added(w.r, e, a)
    ensures SameIds(w.r.net, E.RStep(w.r, e).net)
  {
    ReachedRelay(side, w);
    DataAdds(w.r, e, a);
  }

  lemma ReachedSameList(side: Side, w: Whole, e: E.RelayEvent)
    requires Reached(side, w) && MEnabled(side, w, Data(e))
    ensures N.WellFormed(E.RStep(w.r, e).net) && SameList(w.r.net, E.RStep(w.r, e).net)
  {
    ReachedRelay(side, w);
    DataKeepsList(w.r, e);
  }

  lemma StartReached(side: Side)
    ensures Reached(side, Start(side))
  {
    assert ValidMoves(side, Start(side), []) && After(side, Start(side), []) == Start(side);
  }

  lemma ReachedStep(side: Side, w: Whole, m: Move)
    requires Reached(side, w) && MEnabled(side, w, m)
    ensures Reached(side, MStep(side, w, m))
  {
    var ms :| ValidMoves(side, Start(side), ms) && After(side, Start(side), ms) == w;
    MovesSnoc(side, Start(side), ms, m);
  }

  /// Whose connection a route reaches
  /// --------------------------------

  /** In every reachable state a routed session's packets reach a connection exactly while the receiving
      connection is open; that connection has recorded the session or is about to, and no other session is
      routed to it. */
  lemma RouteReachesItsOwner(side: Side, w: Whole, s: SessionId)
    requires Reached(side, w) && s in w.r.routes
    ensures N.WellFormed(w.r.net)
    ensures var h, found := w.r.routes[s], N.FindIn(w.r.net.slots, w.r.net.active, w.r.routes[s]);
      && h > 0 && G.Knows(Receivers(side, w.g), h, s)
      && (found.Some? <==> Receivers(side, w.g)[h].task != G.Leaving)
      && (forall o :: o in w.r.routes && w.r.routes[o] == h ==> o == s)
  {
    ReachedIsOk(side, w);
    var h, peers := w.r.routes[s], Receivers(side, w.g);
    var recs := w.g.table.recs;
    assert KeyOf(recs[s], FieldOf(side)) == h && G.Knows(peers, h, s);
    forall o | o in w.r.routes && w.r.routes[o] == h ensures o == s {
      if o != s {
        G.RoutesAreDisjoint(w.g, s, o);
      }
    }
  }

  /** The session is routed to handle `h`, and looking it up finds slot `a`. */
  ghost predicate Routed(w: Whole, s: SessionId, h: Handle, a: N.Slot) {
    N.WellFormed(w.r.net) && E.RoutedTo(w.r, s, h, a)
  }

  /// How long a route lasts
  /// ----------------------

  /** The session is bound again, is removed (closed, failed, or its client or AppHost is gone), or the
      receiving connection has been unlinked. */
  predicate Ends(side: Side, w: Whole, m: Move, s: SessionId)
    requires s in w.r.routes
  {
    match m
    case Control(e, _) =>
      || (side.ToApphosts? && e.ReadyBind? && e.s == s && CanBind(w.g.table, s))
      || Ended(w.g, e) == Some(s)
      || (Departs(side, e) && e.h == w.r.routes[s])
    case Data(e) => Closes(w.r, e) == Some(s)
  }

  lemma DataEndsExact(r: E.Relay, e: E.RelayEvent, s: SessionId, h: Handle, a: N.Slot)
    requires E.RInv(r) && DataOnly(e) && E.REnabled(r, e) && E.RoutedTo(r, s, h, a)
    ensures N.WellFormed(E.RStep(r, e).net)
    ensures E.RoutedTo(E.RStep(r, e), s, h, a) <==> Closes(r, e) != Some(s)
  {
    DataKeepsList(r, e);
    DataLookup(r.net, E.RStep(r, e), r.routes, Closes(r, e), s, h, a);
  }

  lemma DataLookup(n: N.Net, r': E.Relay, routes: map<SessionId, Handle>, closed: Option<SessionId>, s: SessionId,
                   h: Handle, a: N.Slot)
    requires N.WellFormed(n) && N.WellFormed(r'.net) && SameList(n, r'.net)
    requires r'.routes == RoutesThen(routes, AsDrop(closed))
    requires s in routes && routes[s] == h && N.FindIn(n.slots, n.active, h) == Some(a)
    ensures E.RoutedTo(r', s, h, a) <==> closed != Some(s)
  {
    SameLookups(n, r'.net, h);
  }

  /** A session bound again goes to another connection: this one has bound before. */
  lemma ReboundElsewhere(side: Side, w: Whole, e: G.Event, h: Handle)
    requires Reached(side, w) && side.ToApphosts? && G.Enabled(w.g, e) && e.ReadyBind? && CanBind(w.g.table, e.s)
    requires e.s in w.r.routes && w.r.routes[e.s] == h
    ensures e.h != h
  {
    RouteReachesItsOwner(side, w, e.s);
    ReachedGateway(side, w);
    assert e.s >= 1;
  }

  /** A handle in use is found as before, unless its connection is the one that is unlinked. */
  lemma ControlLookup(side: Side, n: N.Net, m: N.Net, e: G.Event, slot: N.Slot, h: Handle)
    requires N.Inv(n) && N.UniqueIds(n) && N.WellFormed(m)
    requires Arrives(side, e) ==> slot !in n.active && e.h != h && m == N.Alloc(n, slot, e.h)
    requires Departs(side, e) ==>
          slot in n.active && n.slots[slot].id == e.h && m == n.(active := N.Without(n.active, slot))
    requires !Arrives(side, e) && !Departs(side, e) ==> m == n
    ensures N.FindIn(m.slots, m.active, h) == if Departs(side, e) && e.h == h then None
          else N.FindIn(n.slots, n.active, h)
  {
    if Arrives(side, e) {
      ArrivedLookup(n, slot, e.h, h);
    } else if Departs(side, e) {
      DepartedLookup(n, slot, e.h, h);
    }
  }

  /** What a step's echo does to a route, given that ids are fresh and a session is bound again elsewhere. */
  lemma EchoEndsExact(side: Side, w: Whole, e: G.Event, slot: N.Slot, s: SessionId)
    requires s in w.r.routes && (e.SpawnCreate? ==> NextId(w.g.table) != s)
    requires side.ToApphosts? && e.ReadyBind? && e.s == s && CanBind(w.g.table, s) ==> e.h != w.r.routes[s]
    ensures var routes := RoutesThen(w.r.routes, Echo(side, w.g, e, slot));
      s in routes && routes[s] == w.r.routes[s] <==> !(Ends(side, w, Control(e, slot), s) && !Departs(side, e))
  {
  }

  lemma NewIsOther(side: Side, w: Whole, e: G.Event, s: SessionId)
    requires Reached(side, w) && G.Enabled(w.g, e) && s in w.r.routes
    ensures e.SpawnCreate? ==> NextId(w.g.table) != s
    ensures side.ToApphosts? && e.ReadyBind? && e.s == s && CanBind(w.g.table, s) ==> e.h != w.r.routes[s]
  {
    if e.SpawnCreate? {
      ReachedIsOk(side, w);
      G.CallSitesAreFresh(w.g, e);
    } else if side.ToApphosts? && e.ReadyBind? && e.s == s && CanBind(w.g.table, s) {
      ReboundElsewhere(side, w, e, w.r.routes[s]);
    }
  }

  lemma ArrivalIsNew(side: Side, w: Whole, e: G.Event, s: SessionId)
    requires Reached(side, w) && G.Possible(w.g, e) && Arrives(side, e) && s in w.r.routes
    ensures e.h != w.r.routes[s]
  {
    RouteReachesItsOwner(side, w, s);
  }

  lemma ControlEndsExact(side: Side, w: Whole, e: G.Event, slot: N.Slot, s: SessionId, h: Handle, a: N.Slot)
    requires Reached(side, w) && MEnabled(side, w, Control(e, slot)) && Routed(w, s, h, a)
    ensures Routed(MStep(side, w, Control(e, slot)), s, h, a) <==> !Ends(side, w, Control(e, slot), s)
  {
    ReachedIsOk(side, w);
    ControlListed(side, w, e, slot);
    EchoNet(side, w, e, slot);
    EchoRoutes(side, w, e, slot);
    NewIsOther(side, w, e, s);
    EchoEndsExact(side, w, e, slot, s);
    if Arrives(side, e) {
      ArrivalIsNew(side, w, e, s);
    }
    ControlLookup(side, w.r.net, MStep(side, w, Control(e, slot)).r.net, e, slot, h);
  }

  /** A step takes a session's route from it exactly when it ends it. */
  lemma EndsExact(side: Side, w: Whole, m: Move, s: SessionId, h: Handle, a: N.Slot)
    requires Reached(side, w) && MEnabled(side, w, m) && Routed(w, s, h, a)
    ensures Routed(MStep(side, w, m), s, h, a) <==> !Ends(side, w, m, s)
  {
    match m
    case Control(e, slot) => ControlEndsExact(side, w, e, slot, s, h, a);
    case Data(e) =>
      ReachedIsOk(side, w);
      DataEndsExact(w.r, e, s, h, a);
  }

  /** What the relay takes part in of a step: at most one event. */
  function Part(side: Side, w: Whole, m: Move): seq<E.RelayEvent> {
    match m
    case Data(e) => [e]
    case Control(e, slot) => match Echo(side, w.g, e, slot) case Some(k) => [k] case None => []
  }

  /** The relay's part of a run. */
  ghost function Projected(side: Side, w: Whole, ms: seq<Move>): seq<E.RelayEvent>
    requires ValidMoves(side, w, ms)
    decreases |ms|
  {
    if ms == [] then [] else Part(side, w, ms[0]) + Projected(side, MStep(side, w, ms[0]), ms[1..])
  }

  /** The route is in force in every state of the run. */
  ghost predicate Lasts(side: Side, w: Whole, ms: seq<Move>, s: SessionId, h: Handle, a: N.Slot)
    requires ValidMoves(side, w, ms)
    decreases |ms|
  {
    && Routed(w, s, h, a)
    && (ms == [] || Lasts(side, MStep(side, w, ms[0]), ms[1..], s, h, a))
  }

  /** No step of the run ends the route. */
  ghost predicate NothingEnds(side: Side, w: Whole, ms: seq<Move>, s: SessionId)
    requires ValidMoves(side, w, ms)
    decreases |ms|
  {
    ms == [] || (s in w.r.routes && !Ends(side, w, ms[0], s) && NothingEnds(side, MStep(side, w, ms[0]), ms[1..], s))
  }

  /** Over a whole run from a reachable state a route stays in force if and only if nothing ends it. */
  lemma {:induction false} LastsExact(side: Side, w: Whole, ms: seq<Move>, s: SessionId, h: Handle, a: N.Slot)
    requires Reached(side, w) && ValidMoves(side, w, ms) && Routed(w, s, h, a)
    ensures Lasts(side, w, ms, s, h, a) <==> NothingEnds(side, w, ms, s)
    decreases |ms|
  {
    if ms != [] {
      ReachedStep(side, w, ms[0]);
      EndsExact(side, w, ms[0], s, h, a);
      if !Ends(side, w, ms[0], s) {
        LastsExact(side, MStep(side, w, ms[0]), ms[1..], s, h, a);
      }
    }
  }

  lemma PartIsStep(side: Side, w: Whole, m: Move)
    requires MEnabled(side, w, m)
    ensures var k := Part(side, w, m);
      if k == [] then MStep(side, w, m).r == w.r
      else |k| == 1 && E.REnabled(w.r, k[0]) && MStep(side, w, m).r == E.RStep(w.r, k[0])
  {
  }

  /** The relay's part of a run is a run of the relay alone, and a route that lasts is kept in it. */
  lemma {:induction false} ProjectedRuns(side: Side, w: Whole, ms: seq<Move>, s: SessionId, h: Handle, a: N.Slot)
    requires Reached(side, w) && ValidMoves(side, w, ms)
    ensures E.Traces(w.r, Projected(side, w, ms), After(side, w, ms).r)
    ensures Lasts(side, w, ms, s, h, a) ==> E.RouteKept(w.r, Projected(side, w, ms), s, h, a)
    decreases |ms|
  {
    if ms != [] {
      var part, w' := Part(side, w, ms[0]), MStep(side, w, ms[0]);
      ReachedStep(side, w, ms[0]);
      PartIsStep(side, w, ms[0]);
      ProjectedRuns(side, w', ms[1..], s, h, a);
      var rest := Projected(side, w', ms[1..]);
      if part == [] {
        assert part + rest == rest;
      } else {
        assert (part + rest)[1..] == rest && (part + rest)[0] == part[0];
      }
    }
  }

  /** End to end with nothing assumed about routes: until something ends the session's route, whatever
      else the gateway, other sessions and the pool do, what comes out at the connection it reaches is
      what was sent under the session from then on; and none of it comes out anywhere else. */
  lemma {:induction false} RoutedEndToEnd(side: Side, w: Whole, ms: seq<Move>, s: SessionId, h: Handle, a: N.Slot,
                                          c: E.LinkId, chunks: seq<seq<byte>>)
    returns (k: nat)
    requires Reached(side, w) && ValidMoves(side, w, ms) && Routed(w, s, h, a) && NothingEnds(side, w, ms, s)
    requires c in w.r.links
    requires var net := After(side, w, ms).r.net; a in net.slots && Flatten(chunks) <= net.slots[a].handed
    ensures E.Delivered(After(side, w, ms).r, |E.Entries(w.r, a)|, |w.r.links[c].handled|, s, a, c, chunks, k)
    ensures forall cmd: byte :: cmd != w.r.opener && cmd != HEARTBEAT && cmd != CLOSE_SESSION ==>
              E.CommandDelivered(After(side, w, ms).r, |E.Entries(w.r, a)|, |w.r.links[c].handled|, s, a, c, chunks, k,
                                 cmd)
    ensures forall b :: b != a && E.NoneStamped(w.r, b, s) ==> E.NoneStamped(After(side, w, ms).r, b, s)
  {
    ReachedRelay(side, w);
    LastsExact(side, w, ms, s, h, a);
    ProjectedRuns(side, w, ms, s, h, a);
    var es := Projected(side, w, ms);
    k := E.EndToEndTransparent(w.r, es, s, h, a, c, chunks);
    forall b | b != a && E.NoneStamped(w.r, b, s) ensures E.NoneStamped(After(side, w, ms).r, b, s) {
      E.Isolated(w.r, es, s, h, a, b);
    }
  }

  /// Whose frames a connection sees
  /// ------------------------------

  /** Every default-case frame a client connection was ever given is stamped with an id already issued, and
      while that session exists it is this very connection's. */
  ghost predicate LogsOwned(w: Whole) {
    forall a, i :: a in w.r.net.slots && 0 <= i < |E.Entries(w.r, a)| ==>
        EntryOwned(w.g.table, w.r.net.slots[a].id, E.Entries(w.r, a)[i])
  }

  predicate EntryOwned(t: Table, h: Handle, entry: E.Entry) {
    entry.from.Own?
    || (var s := entry.p.header.sessionId; s <= t.created && (s in t.recs ==> t.recs[s].clientConn == h))
  }

  /** Sessions keep their client, and new ones get new ids. */
  lemma OwnedStays(t: Table, t': Table, h: Handle, entry: E.Entry)
    requires EntryOwned(t, h, entry)
    requires SameClients(t, t')
    ensures EntryOwned(t', h, entry)
  {
  }

  /** Each record is an old one with its client, or has a new id. */
  predicate SameClients(t: Table, t': Table) {
    && t.created <= t'.created
    && forall s :: s in t'.recs ==> (s in t.recs && t'.recs[s].clientConn == t.recs[s].clientConn) || s > t.created
  }

  lemma CreateSameClients(g: G.Gw, e: G.Event)
    requires G.Possible(g, e) && G.FewSessions(g, e) && e.SpawnCreate?
    ensures SameClients(g.table, G.Step(g, e).table)
  {
  }

  lemma ClientsStay(g: G.Gw, e: G.Event)
    requires G.Enabled(g, e)
    ensures SameClients(g.table, G.Step(g, e).table)
  {
    if e.SpawnCreate? {
      CreateSameClients(g, e);
    }
  }

  /** What a step of the byte path enqueues to slot `a`. */
  function Added(r: E.Relay, e: E.RelayEvent, a: N.Slot): seq<E.Entry>
    requires N.WellFormed(r.net)
  {
    match e
    case HandleNext(c) =>
      if c !in r.links || r.links[c].todo == [] then []
      else
        var p := r.links[c].todo[0];
        if E.IsDefault(r.opener, p) && p.header.sessionId in r.routes
           && N.FindIn(r.net.slots, r.net.active, r.routes[p.header.sessionId]) == Some(a)
        then [E.Entry(E.From(c), p)] else []
    case SendOwn(h, p) => if N.FindIn(r.net.slots, r.net.active, h) == Some(a) then [E.Entry(E.Own, p)] else []
    case _ => []
  }

  lemma SendToAdds(r: E.Relay, h: Handle, entry: E.Entry, a: N.Slot)
    requires N.WellFormed(r.net)
    ensures E.Entries(E.SendTo(r, h, entry), a) ==
            E.Entries(r, a) + if N.FindIn(r.net.slots, r.net.active, h) == Some(a) then [entry] else []
    ensures SameIds(r.net, E.SendTo(r, h, entry).net)
  {
  }

  /** The same slots with the same handles. */
  predicate SameIds(n: N.Net, m: N.Net) {
    m.slots.Keys == n.slots.Keys && forall b :: b in n.slots ==> m.slots[b].id == n.slots[b].id
  }

  lemma PoolAdds(n: N.Net, e: N.Event)
    requires N.Inv(n) && N.Enabled(n, e) && !e.EvAccept?
    ensures SameIds(n, N.Step(n, e))
  {
    N.SameHandles(n, e);
    if e.EvDrain? {
      DrainAddsNoSlot(n, e.drain);
    }
  }

  lemma DrainAddsNoSlot(n: N.Net, d: N.Drain)
    requires N.WellFormed(n)
    ensures N.RunDrain(n, d).slots.Keys == n.slots.Keys
  {
  }

  lemma HandleAddsOne(r: E.Relay, c: E.LinkId, a: N.Slot)
    requires N.WellFormed(r.net) && E.REnabled(r, E.HandleNext(c))
    ensures E.Entries(E.Handled(r, c), a) == E.Entries(r, a) + Added(r, E.HandleNext(c), a)
    ensures SameIds(r.net, E.Handled(r, c).net)
  {
    var p := r.links[c].todo[0];
    E.HandleIsSend(r, c, a);
    if E.IsDefault(r.opener, p) && p.header.sessionId in r.routes {
      SendToAdds(r.(links := r.links[c := E.Popped(r.links[c])]), r.routes[p.header.sessionId], E.Entry(E.From(c), p),
          a);
    }
  }

  lemma DataAdds(r: E.Relay, e: E.RelayEvent, a: N.Slot)
    requires E.RInv(r) && DataOnly(e) && E.REnabled(r, e)
    ensures E.Entries(E.RStep(r, e), a) == E.Entries(r, a) + Added(r, e, a)
    ensures SameIds(r.net, E.RStep(r, e).net)
  {
    match e
    case HandleNext(c) => HandleAddsOne(r, c, a);
    case SendOwn(h, p) => SendToAdds(r, h, E.Entry(E.Own, p), a);
    case Pool(k) => PoolAdds(r.net, k);
    case _ =>
  }

  lemma AddedIsOwned(w: Whole, e: E.RelayEvent, a: N.Slot, entry: E.Entry)
    requires Reached(ToClients, w) && N.WellFormed(w.r.net) && a in w.r.net.slots && entry in Added(w.r, e, a)
    ensures EntryOwned(w.g.table, w.r.net.slots[a].id, entry)
  {
    ReachedGateway(ToClients, w);
  }

  lemma DataKeepsOwned(w: Whole, e: E.RelayEvent)
    requires Reached(ToClients, w) && MEnabled(ToClients, w, Data(e)) && LogsOwned(w)
    ensures LogsOwned(MStep(ToClients, w, Data(e)))
  {
    var w' := MStep(ToClients, w, Data(e));
    forall a, i | a in w'.r.net.slots && 0 <= i < |E.Entries(w'.r, a)|
      ensures EntryOwned(w'.g.table, w'.r.net.slots[a].id, E.Entries(w'.r, a)[i])
    {
      ReachedAdds(ToClients, w, e, a);
      var entry := E.Entries(w'.r, a)[i];
      if i < |E.Entries(w.r, a)| {
        assert entry == E.Entries(w.r, a)[i];
      } else {
        AddedIsOwned(w, e, a, entry);
      }
      OwnedStays(w.g.table, w'.g.table, w.r.net.slots[a].id, entry);
    }
  }

  /** A lifecycle step enqueues nothing; a new connection starts with an empty log. */
  lemma ControlAdds(side: Side, w: Whole, e: G.Event, slot: N.Slot, a: N.Slot)
    requires MEnabled(side, w, Control(e, slot))
          && a in MStep(side, w, Control(e, slot)).r.net.slots
    ensures var r' := MStep(side, w, Control(e, slot)).r;
      if Arrives(side, e) && slot == a then E.Entries(r', a) == []
      else a in w.r.net.slots && r'.net.slots[a].id == w.r.net.slots[a].id && E.Entries(r', a) == E.Entries(w.r, a)
    ensures MStep(side, w, Control(e, slot)).r.links == w.r.links
  {
  }

  lemma ControlKeepsOwned(w: Whole, e: G.Event, slot: N.Slot)
    requires Reached(ToClients, w) && MEnabled(ToClients, w, Control(e, slot)) && LogsOwned(w)
    ensures LogsOwned(MStep(ToClients, w, Control(e, slot)))
  {
    var w' := MStep(ToClients, w, Control(e, slot));
    ClientsStay(w.g, e);
    forall a, i | a in w'.r.net.slots && 0 <= i < |E.Entries(w'.r, a)|
      ensures EntryOwned(w'.g.table, w'.r.net.slots[a].id, E.Entries(w'.r, a)[i])
    {
      ControlAdds(ToClients, w, e, slot, a);
      OwnedStays(w.g.table, w'.g.table, w.r.net.slots[a].id, E.Entries(w.r, a)[i]);
    }
  }

  lemma {:induction false} LogsStayOwned(w: Whole, ms: seq<Move>)
    requires Reached(ToClients, w) && LogsOwned(w) && ValidMoves(ToClients, w, ms)
    ensures LogsOwned(After(ToClients, w, ms))
    decreases |ms|
  {
    if ms != [] {
      match ms[0] {
        case Control(e, slot) => ControlKeepsOwned(w, e, slot);
        case Data(e) => DataKeepsOwned(w, e);
      }
      ReachedStep(ToClients, w, ms[0]);
      LogsStayOwned(MStep(ToClients, w, ms[0]), ms[1..]);
    }
  }

  /** In every reachable state: if an AppHost's default-case frame stamped with an existing session is in the log
      of a connected client, that client is the one the session was created for, and knows it. */
  lemma ClientsSeeOnlyTheirOwn(w: Whole, a: N.Slot, i: nat)
    requires Reached(ToClients, w) && a in w.r.net.active && i < |E.Entries(w.r, a)| && E.Entries(w.r, a)[i].from.From?
    ensures a in w.r.net.slots
    ensures var s, h := E.Entries(w.r, a)[i].p.header.sessionId, w.r.net.slots[a].id;
      s in w.g.table.recs ==> w.g.table.recs[s].clientConn == h && G.Knows(w.g.clients, h, s)
  {
    var ms :| ValidMoves(ToClients, Start(ToClients), ms) && After(ToClients, Start(ToClients), ms) == w;
    ReachedIsOk(ToClients, w);
    StartReached(ToClients);
    LogsStayOwned(Start(ToClients), ms);
    assert EntryOwned(w.g.table, w.r.net.slots[a].id, E.Entries(w.r, a)[i]);
    var s := E.Entries(w.r, a)[i].p.header.sessionId;
    if s in w.g.table.recs {
      assert w.g.table.recs[s].clientConn > 0 && KeyOf(w.g.table.recs[s], ClientField) == w.g.table.recs[s].clientConn;
    }
  }

  /** Every entry from number `n` on is a frame of the session's, handled from the connection it came from,
      or a message of the gateway's own. */
  ghost predicate OwnSince(r: E.Relay, a: N.Slot, n: nat, s: SessionId) {
    n <= |E.Entries(r, a)| && forall i :: n <= i < |E.Entries(r, a)| ==> OwnEntry(r, E.Entries(r, a)[i], s)
  }

  ghost predicate OwnEntry(r: E.Relay, entry: E.Entry, s: SessionId) {
    match entry.from
    case Own => OwnCommand(entry.p.header.cmdType)
    case From(c) => E.Mine(r.opener, entry.p, s) && c in r.links && entry.p in r.links[c].handled
  }

  lemma LinksGrow(r: E.Relay, e: E.RelayEvent)
    requires N.WellFormed(r.net) && E.REnabled(r, e)
    ensures E.RStep(r, e).opener == r.opener
    ensures forall c :: c in r.links ==>
          c in E.RStep(r, e).links && r.links[c].handled <= E.RStep(r, e).links[c].handled
  {
    match e
    case HandleNext(c) => E.HandleLinks(r, c);
    case SendOwn(h, p) => E.SendToKeepsLinks(r, h, E.Entry(E.Own, p));
    case _ =>
  }

  lemma OwnEntryStays(r: E.Relay, r': E.Relay, entry: E.Entry, s: SessionId)
    requires OwnEntry(r, entry, s) && r'.opener == r.opener
    requires forall c :: c in r.links ==> c in r'.links && r.links[c].handled <= r'.links[c].handled
    ensures OwnEntry(r', entry, s)
  {
    if entry.from.From? {
      var c := entry.from.c;
      var i :| 0 <= i < |r.links[c].handled| && r.links[c].handled[i] == entry.p;
      assert r'.links[c].handled[i] == entry.p;
    }
  }

  /** A frame a step adds to slot `a` is a default-case one of a session routed to the handle of `a`. */
  lemma AddedFrom(r: E.Relay, e: E.RelayEvent, a: N.Slot, entry: E.Entry)
    requires N.WellFormed(r.net) && DataOnly(e) && E.REnabled(r, e) && entry in Added(r, e, a)
    ensures entry.from.Own? ==> OwnCommand(entry.p.header.cmdType)
    ensures entry.from.From? ==>
              && E.IsDefault(r.opener, entry.p)
              && entry.p.header.sessionId in r.routes && a in r.net.slots
              && r.net.slots[a].id == r.routes[entry.p.header.sessionId]
    ensures entry.from.From? ==> e == E.HandleNext(entry.from.c) && r.links[entry.from.c].todo[0] == entry.p
  {
  }

  lemma HandledHas(r: E.Relay, c: E.LinkId)
    requires N.WellFormed(r.net) && E.REnabled(r, E.HandleNext(c))
    ensures var r' := E.RStep(r, E.HandleNext(c));
          c in r'.links && r.links[c].todo[0] in r'.links[c].handled && r'.opener == r.opener
  {
    var l := r.links[c];
    E.HandleLinks(r, c);
    assert E.Popped(l).handled[|l.handled|] == l.todo[0];
  }

  /** What a step enqueues to the session's connection is the session's. */
  lemma AddedIsOwn(side: Side, w: Whole, e: E.RelayEvent, s: SessionId, h: Handle, a: N.Slot, entry: E.Entry)
    requires Reached(side, w) && MEnabled(side, w, Data(e)) && Routed(w, s, h, a) && entry in Added(w.r, e, a)
    ensures OwnEntry(E.RStep(w.r, e), entry, s)
  {
    AddedFrom(w.r, e, a, entry);
    if entry.from.From? {
      RouteReachesItsOwner(side, w, s);
      HandledHas(w.r, entry.from.c);
    }
  }

  lemma DataKeepsOwn(side: Side, w: Whole, e: E.RelayEvent, s: SessionId, h: Handle, a: N.Slot, n: nat)
    requires Reached(side, w) && MEnabled(side, w, Data(e)) && Routed(w, s, h, a) && OwnSince(w.r, a, n, s)
    ensures OwnSince(E.RStep(w.r, e), a, n, s)
  {
    var r' := E.RStep(w.r, e);
    ReachedAdds(side, w, e, a);
    LinksGrow(w.r, e);
    forall i | n <= i < |E.Entries(r', a)| ensures OwnEntry(r', E.Entries(r', a)[i], s) {
      var entry := E.Entries(r', a)[i];
      if i < |E.Entries(w.r, a)| {
        assert entry == E.Entries(w.r, a)[i];
        OwnEntryStays(w.r, r', entry, s);
      } else {
        AddedIsOwn(side, w, e, s, h, a, entry);
      }
    }
  }

  lemma ControlKeepsOwn(side: Side, w: Whole, e: G.Event, slot: N.Slot, s: SessionId, h: Handle, a: N.Slot, n: nat)
    requires Reached(side, w) && MEnabled(side, w, Control(e, slot)) && Routed(w, s, h, a) && OwnSince(w.r, a, n, s)
    ensures OwnSince(MStep(side, w, Control(e, slot)).r, a, n, s)
  {
    var r' := MStep(side, w, Control(e, slot)).r;
    ControlKeepsSlot(side, w, e, slot, a);
    ControlAdds(side, w, e, slot, a);
    EchoRoutes(side, w, e, slot);
    forall i | n <= i < |E.Entries(r', a)| ensures OwnEntry(r', E.Entries(r', a)[i], s) {
      OwnEntryStays(w.r, r', E.Entries(w.r, a)[i], s);
    }
  }

  lemma ControlKeepsSlot(side: Side, w: Whole, e: G.Event, slot: N.Slot, a: N.Slot)
    requires MEnabled(side, w, Control(e, slot)) && a in w.r.net.slots
    ensures a in MStep(side, w, Control(e, slot)).r.net.slots
  {
  }

  /** While a session's route lasts, its connection is sent nothing but the session's own frames, whoever
      sent them, and the gateway's own messages. */
  lemma {:induction false} OnlyOwnFrames(side: Side, w: Whole, ms: seq<Move>, s: SessionId, h: Handle, a: N.Slot,
                                         n: nat)
    requires Reached(side, w) && ValidMoves(side, w, ms) && Routed(w, s, h, a) && NothingEnds(side, w, ms, s)
    requires OwnSince(w.r, a, n, s)
    ensures OwnSince(After(side, w, ms).r, a, n, s)
    decreases |ms|
  {
    if ms != [] {
      match ms[0] {
        case Control(e, slot) => ControlKeepsOwn(side, w, e, slot, s, h, a, n);
        case Data(e) => DataKeepsOwn(side, w, e, s, h, a, n);
      }
      ReachedStep(side, w, ms[0]);
      EndsExact(side, w, ms[0], s, h, a);
      OnlyOwnFrames(side, MStep(side, w, ms[0]), ms[1..], s, h, a, n);
    }
  }

  /** Where routes come from: a client that creates a session, or an AppHost whose READY binds one, is open,
      and from that step on the session's packets reach its connection. */
  lemma RouteBegins(side: Side, w: Whole, e: G.Event, slot: N.Slot) returns (s: SessionId, a: N.Slot)
    requires Reached(side, w) && MEnabled(side, w, Control(e, slot))
    requires if side.ToClients? then e.SpawnCreate? else e.ReadyBind? && CanBind(w.g.table, e.s)
    ensures N.WellFormed(MStep(side, w, Control(e, slot)).r.net)
    ensures E.RoutedTo(MStep(side, w, Control(e, slot)).r, s, e.h, a)
    ensures N.FindIn(w.r.net.slots, w.r.net.active, e.h) == Some(a)
    ensures s == if side.ToClients? then NextId(w.g.table) else e.s
  {
    ReachedIsOk(side, w);
    EchoNet(side, w, e, slot);
    EchoRoutes(side, w, e, slot);
    s := if side.ToClients? then NextId(w.g.table) else e.s;
    assert G.Open(Receivers(side, w.g), e.h);
    a := N.FindIn(w.r.net.slots, w.r.net.active, e.h).value;
  }

  /** No connection but `c` has sent frames with this command stamped with the session. */
  ghost predicate OnlyStamps(r: E.Relay, cmd: byte, c: E.LinkId, s: SessionId) {
    forall o, i :: o in r.links && o != c && 0 <= i < |Parse(r.links[o].received).packets| ==>
      var p := Parse(r.links[o].received).packets[i];
      !(p.header.cmdType == cmd && p.header.sessionId == s)
  }

  /** All frames with this command from entry `n` on come from `c` under the session. */
  ghost predicate OnlyFrom(es: seq<E.Entry>, n: nat, cmd: byte, c: E.LinkId, s: SessionId) {
    forall i :: n <= i < |es| && es[i].p.header.cmdType == cmd ==>
      es[i].from == E.From(c) && es[i].p.header.sessionId == s
  }

  lemma HandledWasSent(l: E.Link, p: Packet) returns (i: nat)
    requires E.LinkOk(l) && p in l.handled
    ensures i < |Parse(l.received).packets| && Parse(l.received).packets[i] == p
  {
    i :| 0 <= i < |l.handled| && l.handled[i] == p;
    assert (l.handled + l.todo)[i] == p;
  }

  lemma OwnFrames(r: E.Relay, a: N.Slot, n: nat, cmd: byte, c: E.LinkId, s: SessionId)
    requires E.RInv(r) && OwnSince(r, a, n, s) && OnlyStamps(r, cmd, c, s) && !OwnCommand(cmd)
    ensures OnlyFrom(E.Entries(r, a), n, cmd, c, s)
  {
    var es := E.Entries(r, a);
    forall i | n <= i < |es| && es[i].p.header.cmdType == cmd
        ensures es[i].from == E.From(c) && es[i].p.header.sessionId == s {
      assert OwnEntry(r, es[i], s);
      if es[i].from.From? {
        var j := HandledWasSent(r.links[es[i].from.c], es[i].p);
      }
    }
  }

  /** A run from a reachable `w` to `w'` in which the session stays routed to `h`, in slot `a`, with `c` the
      only connection to send this command under it. */
  ghost predicate Carries(side: Side, w: Whole, ms: seq<Move>, w': Whole, s: SessionId, h: Handle, a: N.Slot,
                          cmd: byte, c: E.LinkId) {
    && Reached(side, w) && ValidMoves(side, w, ms) && After(side, w, ms) == w'
    && Routed(w, s, h, a) && NothingEnds(side, w, ms, s)
    && c in w.r.links && OnlyStamps(w'.r, cmd, c, s)
  }

  /** The relay's part of such a run. */
  lemma {:induction false} RelayPart(side: Side, w: Whole, ms: seq<Move>, w': Whole, s: SessionId, h: Handle, a: N.Slot,
                                     cmd: byte, c: E.LinkId)
    returns (es: seq<E.RelayEvent>)
    requires Carries(side, w, ms, w', s, h, a, cmd, c) && !OwnCommand(cmd)
    ensures E.RInv(w.r) && w.r.opener == Opener(side) && c in w.r.links
    ensures E.Traces(w.r, es, w'.r) && E.RouteKept(w.r, es, s, h, a)
    ensures OnlyFrom(E.Entries(w'.r, a), |E.Entries(w.r, a)|, cmd, c, s)
  {
    ReachedIsOk(side, w);
    LastsExact(side, w, ms, s, h, a);
    ProjectedRuns(side, w, ms, s, h, a);
    MovesKeepInv(side, w, ms);
    OnlyOwnFrames(side, w, ms, s, h, a, |E.Entries(w.r, a)|);
    OwnFrames(w'.r, a, |E.Entries(w.r, a)|, cmd, c, s);
    es := Projected(side, w, ms);
  }

  lemma OnlyFromNarrow(es: seq<E.Entry>, n: nat, k: nat, cmd: byte, c: E.LinkId, s: SessionId)
    requires OnlyFrom(es, n, cmd, c, s) && n <= k <= |es|
    ensures OnlyFrom(es[n..k], 0, cmd, c, s)
  {
  }

  /// Before a connection has bound anything
  /// --------------------------------------

  predicate Unbound(p: G.Peer) {
    p.session == 0 && !p.task.Created? && !p.task.Bound?
  }

  /** Nothing but the gateway's own messages. */
  ghost predicate OwnOnly(es: seq<E.Entry>) {
    forall i :: 0 <= i < |es| ==> IsOwn(es[i])
  }

  /** An AppHost connection that has bound no session has been sent no client's frame. */
  ghost predicate UnboundSilent(w: Whole) {
    && N.WellFormed(w.r.net)
    && forall a ::
         && a in w.r.net.active && w.r.net.slots[a].id in w.g.apphosts
         && Unbound(w.g.apphosts[w.r.net.slots[a].id])
         ==> OwnOnly(E.Entries(w.r, a))
  }

  lemma UnboundBefore(g: G.Gw, e: G.Event, h: Handle)
    requires G.Inv(g) && G.Possible(g, e) && h in G.Step(g, e).apphosts && Unbound(G.Step(g, e).apphosts[h])
    ensures (e.ApphostAccepted? && e.h == h) || (h in g.apphosts && Unbound(g.apphosts[h]))
  {
  }

  predicate IsOwn(entry: E.Entry) {
    entry.from.Own? && OwnCommand(entry.p.header.cmdType)
  }

  /** No session is routed to a connection that has bound none. */
  lemma NothingRoutedHere(w: Whole, h: Handle, s: SessionId)
    requires Reached(ToApphosts, w) && h in w.g.apphosts && Unbound(w.g.apphosts[h])
    ensures s in w.r.routes ==> w.r.routes[s] != h
  {
    if s in w.r.routes {
      ReachedGateway(ToApphosts, w);
      RouteReachesItsOwner(ToApphosts, w, s);
      assert s >= 1;
    }
  }

  lemma AddedToUnbound(w: Whole, e: E.RelayEvent, a: N.Slot, entry: E.Entry)
    requires Reached(ToApphosts, w) && MEnabled(ToApphosts, w, Data(e)) && a in w.r.net.slots
    requires entry in Added(w.r, e, a)
    requires var h := w.r.net.slots[a].id; h in w.g.apphosts && Unbound(w.g.apphosts[h])
    ensures IsOwn(entry)
  {
    AddedFrom(w.r, e, a, entry);
    NothingRoutedHere(w, w.r.net.slots[a].id, entry.p.header.sessionId);
  }

  lemma OwnAppend(es: seq<E.Entry>, more: seq<E.Entry>)
    requires OwnOnly(es) && forall entry :: entry in more ==> IsOwn(entry)
    ensures OwnOnly(es + more)
  {
  }

  lemma DataKeepsSilent(w: Whole, e: E.RelayEvent, a: N.Slot)
    requires Reached(ToApphosts, w) && MEnabled(ToApphosts, w, Data(e)) && a in w.r.net.active
    requires var h := w.r.net.slots[a].id; h in w.g.apphosts && Unbound(w.g.apphosts[h])
    requires OwnOnly(E.Entries(w.r, a))
    ensures OwnOnly(E.Entries(E.RStep(w.r, e), a))
  {
    ReachedAdds(ToApphosts, w, e, a);
    forall entry | entry in Added(w.r, e, a) ensures IsOwn(entry) {
      AddedToUnbound(w, e, a, entry);
    }
    OwnAppend(E.Entries(w.r, a), Added(w.r, e, a));
  }

  lemma UnboundWas(w: Whole, e: G.Event, h: Handle)
    requires Reached(ToApphosts, w) && G.Possible(w.g, e)
    requires h in G.Step(w.g, e).apphosts && Unbound(G.Step(w.g, e).apphosts[h])
    ensures (e.ApphostAccepted? && e.h == h) || (h in w.g.apphosts && Unbound(w.g.apphosts[h]))
  {
    ReachedGateway(ToApphosts, w);
    UnboundBefore(w.g, e, h);
  }

  lemma ControlKeepsSilent(w: Whole, e: G.Event, slot: N.Slot, a: N.Slot)
    requires Reached(ToApphosts, w) && MEnabled(ToApphosts, w, Control(e, slot)) && UnboundSilent(w)
    requires var w' := MStep(ToApphosts, w, Control(e, slot));
      && a in w'.r.net.active && a in w'.r.net.slots && w'.r.net.slots[a].id in w'.g.apphosts
      && Unbound(w'.g.apphosts[w'.r.net.slots[a].id])
    ensures OwnOnly(E.Entries(MStep(ToApphosts, w, Control(e, slot)).r, a))
  {
    ControlAdds(ToApphosts, w, e, slot, a);
    UnboundWas(w, e, MStep(ToApphosts, w, Control(e, slot)).r.net.slots[a].id);
    StillActive(w, e, slot, a);
  }

  /** A slot that is active after a lifecycle step was so before, unless it has just been taken. */
  lemma StillActive(w: Whole, e: G.Event, slot: N.Slot, a: N.Slot)
    requires Reached(ToApphosts, w) && MEnabled(ToApphosts, w, Control(e, slot))
    requires a in MStep(ToApphosts, w, Control(e, slot)).r.net.active
    ensures (Arrives(ToApphosts, e) && slot == a)
            || (a in w.r.net.active && !(Arrives(ToApphosts, e) && e.h == w.r.net.slots[a].id))
  {
    ReachedIsOk(ToApphosts, w);
    EchoNet(ToApphosts, w, e, slot);
  }

  lemma ControlStepSilent(w: Whole, e: G.Event, slot: N.Slot)
    requires Reached(ToApphosts, w) && MEnabled(ToApphosts, w, Control(e, slot)) && UnboundSilent(w)
    ensures UnboundSilent(MStep(ToApphosts, w, Control(e, slot)))
  {
    var w' := MStep(ToApphosts, w, Control(e, slot));
    ReachedStep(ToApphosts, w, Control(e, slot));
    ReachedWellFormed(ToApphosts, w');
    forall a | a in w'.r.net.active && w'.r.net.slots[a].id in w'.g.apphosts
        && Unbound(w'.g.apphosts[w'.r.net.slots[a].id])
      ensures OwnOnly(E.Entries(w'.r, a))
    {
      ControlKeepsSilent(w, e, slot, a);
    }
  }

  lemma DataStepSilent(w: Whole, e: E.RelayEvent)
    requires Reached(ToApphosts, w) && MEnabled(ToApphosts, w, Data(e)) && UnboundSilent(w)
    ensures UnboundSilent(MStep(ToApphosts, w, Data(e)))
  {
    var w' := MStep(ToApphosts, w, Data(e));
    ReachedSameList(ToApphosts, w, e);
    forall a | a in w'.r.net.active && w'.r.net.slots[a].id in w'.g.apphosts
        && Unbound(w'.g.apphosts[w'.r.net.slots[a].id])
      ensures OwnOnly(E.Entries(w'.r, a))
    {
      DataKeepsSilent(w, e, a);
    }
  }

  lemma {:induction false} SilentUntilBound(w: Whole, ms: seq<Move>)
    requires Reached(ToApphosts, w) && ValidMoves(ToApphosts, w, ms) && UnboundSilent(w)
    ensures UnboundSilent(After(ToApphosts, w, ms))
    decreases |ms|
  {
    if ms != [] {
      match ms[0] {
        case Control(e, slot) => ControlStepSilent(w, e, slot);
        case Data(e) => DataStepSilent(w, e);
      }
      ReachedStep(ToApphosts, w, ms[0]);
      SilentUntilBound(MStep(ToApphosts, w, ms[0]), ms[1..]);
    }
  }

  /** In every reachable state, an AppHost connection in the middle of nothing that has recorded no session has
      been sent nothing but the gateway's own messages. */
  lemma UnboundGetsNothing(w: Whole, a: N.Slot)
    requires Reached(ToApphosts, w) && a in w.r.net.active && a in w.r.net.slots
    requires G.Doing(w.g.apphosts, w.r.net.slots[a].id, G.Idle) && w.g.apphosts[w.r.net.slots[a].id].session == 0
    ensures OwnOnly(E.Entries(w.r, a))
  {
    var ms :| ValidMoves(ToApphosts, Start(ToApphosts), ms) && After(ToApphosts, Start(ToApphosts), ms) == w;
    StartReached(ToApphosts);
    SilentUntilBound(Start(ToApphosts), ms);
  }

  lemma BindingRoutes(w: Whole, e: G.Event, b: N.Slot, a: N.Slot)
    requires Reached(ToApphosts, w) && MEnabled(ToApphosts, w, Control(e, b))
    requires e.ReadyBind? && CanBind(w.g.table, e.s) && N.FindIn(w.r.net.slots, w.r.net.active, e.h) == Some(a)
    ensures var w0 := MStep(ToApphosts, w, Control(e, b)); N.WellFormed(w0.r.net) && E.RoutedTo(w0.r, e.s, e.h, a)
  {
    ReachedIsOk(ToApphosts, w);
    var s, a' := RouteBegins(ToApphosts, w, e, b);
  }

  lemma BindingAdds(w: Whole, e: G.Event, b: N.Slot, a: N.Slot)
    requires MEnabled(ToApphosts, w, Control(e, b)) && e.ReadyBind? && a in w.r.net.slots
    ensures var w0 := MStep(ToApphosts, w, Control(e, b));
      w0.r.links == w.r.links && E.Entries(w0.r, a) == E.Entries(w.r, a)
  {
    ControlAdds(ToApphosts, w, e, b, a);
  }

  /** A READY that binds a session in a reachable state: from then on the session's packets reach its
      connection, which has been sent no client's frame before. */
  lemma BindingBegins(w: Whole, e: G.Event, b: N.Slot, a: N.Slot)
    requires Reached(ToApphosts, w) && MEnabled(ToApphosts, w, Control(e, b))
    requires e.ReadyBind? && CanBind(w.g.table, e.s) && N.FindIn(w.r.net.slots, w.r.net.active, e.h) == Some(a)
    ensures var w0 := MStep(ToApphosts, w, Control(e, b));
      && N.WellFormed(w0.r.net) && E.RoutedTo(w0.r, e.s, e.h, a)
      && w0.r.links == w.r.links && OwnOnly(E.Entries(w0.r, a))
  {
    BindingRoutes(w, e, b, a);
    BindingAdds(w, e, b, a);
    UnboundGetsNothing(w, a);
  }
}
