/** The whole byte path through the gateway, from the connections of one side to those of the other:
    receives are parsed, default-case frames are looked up by the session they are stamped with,
    re-serialised and enqueued, and the pool carries the chunks. Receive callbacks, route changes, the
    gateway's own messages and the pool interleave freely. Clients to AppHosts and AppHosts to clients
    run the same code but for the command that opens a session. */
module EndToEnd {
  import opened Protocol
  import opened MessageParsing
  import opened SendPath
  import Sessions

  type LinkId = nat

  /** A receiving connection: `rest` is what its parser holds over, `todo` what it has cut off but the
      callback has not handled; `received` and `handled` record everything. */
  datatype Link = Link(received: seq<byte>, handled: seq<Packet>, todo: seq<Packet>, rest: seq<byte>, good: bool)

  datatype Origin = From(c: LinkId) | Own

  datatype Entry = Entry(from: Origin, p: Packet)

  /** `opener` is SPAWN_APP on the way to the AppHosts and APPHOST_READY on the way to the clients;
      `log` records, for each slot's current occupant, the packets enqueued to it. */
  datatype Relay = Relay(opener: byte, links: map<LinkId, Link>, routes: map<SessionId, Handle>, net: Net,
      log: map<Slot, seq<Entry>>)

  datatype RelayEvent =
    | Connect(c: LinkId)
    | Receive(c: LinkId, data: seq<byte>)
    | HandleNext(c: LinkId)              // the callback takes the next packet
    | SetRoute(s: SessionId, h: Handle)  // the session is created or bound
    | DropRoute(s: SessionId)
    | SendOwn(h: Handle, p: Packet)      // the gateway's acknowledgements, heartbeats, errors and close messages
    | Pool(e: Event)                     // accept, release, SENT, settle, cancel, drain

  /** What the switch on the command leaves to forwarding. */
  predicate IsDefault(opener: byte, p: Packet) {
    p.header.cmdType != opener && p.header.cmdType != HEARTBEAT && p.header.cmdType != CLOSE_SESSION
  }

  ghost predicate REnabled(r: Relay, e: RelayEvent)
    requires WellFormed(r.net)
  {
    match e
    case Connect(c) => c !in r.links
    case Receive(c, _) => c in r.links && r.links[c].todo == []
    case HandleNext(c) => c in r.links && r.links[c].todo != []
    case SetRoute(_, _) => true
    case DropRoute(_) => true
    case SendOwn(_, p) => GoodPacket(p)
    case Pool(e) => !e.EvEnqueue? && Enabled(r.net, e)
  }

  function Took(l: Link, data: seq<byte>): Link {
    if !l.good then l.(received := l.received + data)
    else
      var x := Parse(l.rest + data);
      Link(l.received + data, l.handled, x.packets, x.rest, x.verdict == NeedMore)
  }

  function Popped(l: Link): Link
    requires l.todo != []
  {
    l.(handled := l.handled + [l.todo[0]], todo := l.todo[1..])
  }

  /** Looks the handle up among the open AppHost connections and enqueues to the one found. */
  function SendTo(r: Relay, h: Handle, entry: Entry): Relay
    requires WellFormed(r.net)
  {
    match FindIn(r.net.slots, r.net.active, h)
    case None => r
    case Some(a) =>
      r.(net := Enqueue(r.net, a, PacketBytes(entry.p)), log := r.log[a := Entries(r, a) + [entry]])
  }

  function Entries(r: Relay, a: Slot): seq<Entry> {
    if a in r.log then r.log[a] else []
  }

  function Handled(r: Relay, c: LinkId): Relay
    requires WellFormed(r.net) && c in r.links && r.links[c].todo != []
  {
    var p := r.links[c].todo[0];
    var s := p.header.sessionId;
    var r' := r.(links := r.links[c := Popped(r.links[c])]);
    if IsDefault(r.opener, p) then (if s in r.routes then SendTo(r', r.routes[s], Entry(From(c), p)) else r')
    else if p.header.cmdType == CLOSE_SESSION then r'.(routes := r.routes - {s})
    else r'
  }

  function RStep(r: Relay, e: RelayEvent): Relay
    requires WellFormed(r.net) && REnabled(r, e)
  {
    match e
    case Connect(c) => r.(links := r.links[c := Link([], [], [], [], true)])
    case Receive(c, data) => r.(links := r.links[c := Took(r.links[c], data)])
    case HandleNext(c) => Handled(r, c)
    case SetRoute(s, h) => r.(routes := r.routes[s := h])
    case DropRoute(s) => r.(routes := r.routes - {s})
    case SendOwn(h, p) => SendTo(r, h, Entry(Own, p))
    case Pool(e) => r.(net := Step(r.net, e), log := if e.EvAccept? then r.log[e.slot := []] else r.log)
  }

  /** Only the connection the packet's session is routed to was given anything: the packet's bytes, and that if and
      only if the handle is found among the open connections. */
  ghost predicate Forwarded(r: Relay, r': Relay, p: Packet)
    requires WellFormed(r.net)
  {
    var s := p.header.sessionId;
    if s in r.routes && FindIn(r.net.slots, r.net.active, r.routes[s]).Some? then
      var a := FindIn(r.net.slots, r.net.active, r.routes[s]).value;
      && a in r.net.slots && r'.net.slots.Keys == r.net.slots.Keys
      && r'.net.slots[a].enqueued == r.net.slots[a].enqueued + PacketBytes(p)
      && forall b :: b in r.net.slots && b != a ==> r'.net.slots[b] == r.net.slots[b]
    else r'.net == r.net
  }

  /** By its command byte: a packet that does not open a session, beat or close one is forwarded, and those are
      not; only a close touches the routes. */
  lemma HandlingByCommand(r: Relay, c: LinkId)
    requires WellFormed(r.net) && REnabled(r, HandleNext(c))
    ensures var p, r' := r.links[c].todo[0], Handled(r, c);
      && (if p.header.cmdType in {r.opener, HEARTBEAT, CLOSE_SESSION} then r'.net == r.net else Forwarded(r, r', p))
      && r'.routes == (if p.header.cmdType == CLOSE_SESSION then r.routes - {p.header.sessionId} else r.routes)
      && r'.links.Keys == r.links.Keys
      && r'.links[c].handled == r.links[c].handled + [p] && r'.links[c].todo == r.links[c].todo[1..]
  {
  }

  /// The invariant
  /// -------------

  function Packets(es: seq<Entry>): seq<Packet> {
    if es == [] then [] else [es[0].p] + Packets(es[1..])
  }

  lemma {:induction false} PacketsAppend(es: seq<Entry>, fs: seq<Entry>)
    ensures Packets(es + fs) == Packets(es) + Packets(fs)
  {
    if es == [] {
      assert es + fs == fs;
    } else {
      PacketsAppend(es[1..], fs);
      assert (es + fs)[1..] == es[1..] + fs;
      Assoc([es[0].p], Packets(es[1..]), Packets(fs));
    }
  }

  /** However the stream was cut into receives, what has been and will be handled is its one-shot parse. */
  ghost predicate LinkOk(l: Link) {
    var whole := Parse(l.received);
    && whole.packets == l.handled + l.todo
    && (l.good <==> whole.verdict == NeedMore)
    && (l.good ==> l.rest == whole.rest)
  }

  /** What the slot's occupant was given is the wire form of whole good packets. */
  ghost predicate LogOk(c: Conn, es: seq<Entry>) {
    GoodPackets(Packets(es)) && c.enqueued == WireOf(Packets(es))
  }

  ghost predicate RInv(r: Relay) {
    && Inv(r.net)
    && (forall c :: c in r.links ==> LinkOk(r.links[c]))
    && (forall a :: a in r.net.slots ==> LogOk(r.net.slots[a], Entries(r, a)))
  }

  lemma TookOk(l: Link, data: seq<byte>)
    requires LinkOk(l) && l.todo == []
    ensures LinkOk(Took(l, data))
  {
    ParseAppend(l.received, data);
    assert l.handled + [] == l.handled;
  }

  lemma PoppedOk(l: Link)
    requires LinkOk(l) && l.todo != []
    ensures LinkOk(Popped(l)) && GoodPacket(l.todo[0])
  {
    ParseSound(l.received);
    assert (l.handled + l.todo)[|l.handled|] == l.todo[0];
    assert l.todo == [l.todo[0]] + l.todo[1..];
    Assoc(l.handled, [l.todo[0]], l.todo[1..]);
  }

  lemma AppendOk(c: Conn, es: seq<Entry>, entry: Entry, c': Conn)
    requires LogOk(c, es) && GoodPacket(entry.p) && c'.enqueued == c.enqueued + PacketBytes(entry.p)
    ensures LogOk(c', es + [entry])
  {
    PacketsAppend(es, [entry]);
    assert Packets([entry]) == [entry.p];
    WireOfConcat(Packets(es), [entry.p]);
    assert WireOf([entry.p]) == PacketBytes(entry.p);
  }

  lemma EnqueueAdds(n: Net, a: Slot, data: seq<byte>)
    requires WellFormed(n) && Live(n, a)
    ensures var m := Enqueue(n, a, data);
      m.slots == n.slots[a := m.slots[a]] && m.slots[a].enqueued == n.slots[a].enqueued + data && m.active == n.active
  {
  }

  lemma OneLogGrows(r: Relay, a: Slot, es: seq<Entry>, net: Net)
    requires RInv(r) && a in r.net.slots && Inv(net)
    requires a in net.slots && net.slots == r.net.slots[a := net.slots[a]] && LogOk(net.slots[a], es)
    ensures RInv(r.(net := net, log := r.log[a := es]))
  {
  }

  lemma SendToOk(r: Relay, h: Handle, entry: Entry)
    requires RInv(r) && GoodPacket(entry.p)
    ensures RInv(SendTo(r, h, entry)) && SendTo(r, h, entry).links == r.links && SendTo(r, h, entry).routes == r.routes
  {
    var found := FindIn(r.net.slots, r.net.active, h);
    if found.Some? {
      var a := found.value;
      var net := Enqueue(r.net, a, PacketBytes(entry.p));
      EnqueueKeepsInv(r.net, a, PacketBytes(entry.p));
      EnqueueAdds(r.net, a, PacketBytes(entry.p));
      AppendOk(r.net.slots[a], Entries(r, a), entry, net.slots[a]);
      OneLogGrows(r, a, Entries(r, a) + [entry], net);
    }
  }

  lemma LinkKeepsInv(r: Relay, c: LinkId, l: Link)
    requires RInv(r) && LinkOk(l)
    ensures RInv(r.(links := r.links[c := l]))
  {
  }

  lemma HandledOk(r: Relay, c: LinkId)
    requires RInv(r) && REnabled(r, HandleNext(c))
    ensures RInv(Handled(r, c))
  {
    var p := r.links[c].todo[0];
    PoppedOk(r.links[c]);
    LinkKeepsInv(r, c, Popped(r.links[c]));
    if IsDefault(r.opener, p) && p.header.sessionId in r.routes {
      SendToOk(r.(links := r.links[c := Popped(r.links[c])]), r.routes[p.header.sessionId], Entry(From(c), p));
    }
  }

  lemma DrainAddsNothing(n: Net, d: Drain, a: Slot)
    requires WellFormed(n) && a in RunDrain(n, d).slots
    ensures a in n.slots && RunDrain(n, d).slots[a].enqueued == n.slots[a].enqueued
  {
  }

  /** The pool's own steps enqueue nothing. */
  lemma PoolAddsNothing(n: Net, e: Event, a: Slot)
    requires Inv(n) && Enabled(n, e) && !e.EvEnqueue?
    ensures a in Step(n, e).slots && !(e.EvAccept? && e.slot == a) ==>
              a in n.slots && Step(n, e).slots[a].enqueued == n.slots[a].enqueued
    ensures e.EvAccept? ==> e.slot in Step(n, e).slots && Step(n, e).slots[e.slot].enqueued == []
  {
    if e.EvDrain? && a in Step(n, e).slots {
      DrainAddsNothing(n, e.drain, a);
    }
  }

  lemma PoolLogOk(r: Relay, e: Event, a: Slot)
    requires RInv(r) && REnabled(r, Pool(e)) && a in Step(r.net, e).slots
    ensures LogOk(Step(r.net, e).slots[a], Entries(RStep(r, Pool(e)), a))
  {
    PoolAddsNothing(r.net, e, a);
  }

  lemma PoolOk(r: Relay, e: Event)
    requires RInv(r) && REnabled(r, Pool(e))
    ensures RInv(RStep(r, Pool(e)))
  {
    var r' := RStep(r, Pool(e));
    StepKeepsInv(r.net, e);
    forall a | a in r'.net.slots ensures LogOk(r'.net.slots[a], Entries(r', a)) {
      PoolLogOk(r, e, a);
    }
  }

  lemma RStepKeepsInv(r: Relay, e: RelayEvent)
    requires RInv(r) && REnabled(r, e)
    ensures RInv(RStep(r, e))
  {
    match e
    case Connect(c) => LinkKeepsInv(r, c, Link([], [], [], [], true));
    case Receive(c, data) =>
      TookOk(r.links[c], data);
      LinkKeepsInv(r, c, Took(r.links[c], data));
    case HandleNext(c) => HandledOk(r, c);
    case SetRoute(_, _) =>
    case DropRoute(_) =>
    case SendOwn(h, p) => SendToOk(r, h, Entry(Own, p));
    case Pool(e) => PoolOk(r, e);
  }

  ghost predicate ValidTrace(r: Relay, es: seq<RelayEvent>)
    decreases |es|
  {
    es == [] || (WellFormed(r.net) && REnabled(r, es[0]) && ValidTrace(RStep(r, es[0]), es[1..]))
  }

  ghost function Trace(r: Relay, es: seq<RelayEvent>): Relay
    requires ValidTrace(r, es)
    decreases |es|
  {
    if es == [] then r else Trace(RStep(r, es[0]), es[1..])
  }

  function Start(opener: byte): Relay {
    Relay(opener, map[], map[], SendPath.INIT, map[])
  }

  lemma {:induction false} TraceKeepsInv(r: Relay, es: seq<RelayEvent>)
    requires RInv(r) && ValidTrace(r, es)
    ensures RInv(Trace(r, es))
    decreases |es|
  {
    if es != [] {
      RStepKeepsInv(r, es[0]);
      TraceKeepsInv(RStep(r, es[0]), es[1..]);
    }
  }

  /// Transparency
  /// ------------

  predicate Mine(o: byte, p: Packet, s: SessionId) {
    IsDefault(o, p) && p.header.sessionId == s
  }

  /** The default-case frames stamped with a session. */
  function Stamped(o: byte, ps: seq<Packet>, s: SessionId): seq<Packet> {
    if ps == [] then [] else (if Mine(o, ps[0], s) then [ps[0]] else []) + Stamped(o, ps[1..], s)
  }

  /** The frames a client sent under a session, among those enqueued to a connection. */
  function Select(o: byte, es: seq<Entry>, c: LinkId, s: SessionId): seq<Packet> {
    if es == [] then [] else Picked(o, es[0], c, s) + Select(o, es[1..], c, s)
  }

  function Picked(o: byte, entry: Entry, c: LinkId, s: SessionId): seq<Packet> {
    if entry.from == From(c) && Mine(o, entry.p, s) then [entry.p] else []
  }

  /** The packets with this command and session id, and those of them that came from `c`. */
  function Of(ps: seq<Packet>, cmd: byte, s: SessionId): seq<Packet> {
    if ps == [] then []
    else
      (if ps[0].header.cmdType == cmd && ps[0].header.sessionId == s then [ps[0]] else []) + Of(ps[1..], cmd, s)
  }

  function Came(es: seq<Entry>, cmd: byte, c: LinkId, s: SessionId): seq<Packet> {
    if es == [] then []
    else
      (if es[0].from == From(c) && es[0].p.header.cmdType == cmd && es[0].p.header.sessionId == s
       then [es[0].p] else [])
      + Came(es[1..], cmd, c, s)
  }

  lemma {:induction false} OfAppend(ps: seq<Packet>, qs: seq<Packet>, cmd: byte, s: SessionId)
    ensures Of(ps + qs, cmd, s) == Of(ps, cmd, s) + Of(qs, cmd, s)
  {
    if ps == [] {
      assert ps + qs == qs;
    } else {
      OfAppend(ps[1..], qs, cmd, s);
      assert (ps + qs)[1..] == ps[1..] + qs;
      Assoc(if ps[0].header.cmdType == cmd && ps[0].header.sessionId == s then [ps[0]] else [],
        Of(ps[1..], cmd, s), Of(qs, cmd, s));
    }
  }

  lemma OfPrefix(ps: seq<Packet>, qs: seq<Packet>, cmd: byte, s: SessionId)
    requires ps <= qs
    ensures Of(ps, cmd, s) <= Of(qs, cmd, s)
  {
    OfAppend(ps, qs[|ps|..], cmd, s);
    assert qs == ps + qs[|ps|..];
  }

  /** The commands the gateway does not take for itself. */
  predicate Passes(o: byte, cmd: byte) {
    cmd != o && cmd != HEARTBEAT && cmd != CLOSE_SESSION
  }

  lemma {:induction false} OfStamped(o: byte, ps: seq<Packet>, cmd: byte, s: SessionId)
    requires Passes(o, cmd)
    ensures Of(Stamped(o, ps, s), cmd, s) == Of(ps, cmd, s)
  {
    if ps != [] {
      OfStamped(o, ps[1..], cmd, s);
      OfAppend(if Mine(o, ps[0], s) then [ps[0]] else [], Stamped(o, ps[1..], s), cmd, s);
      assert [ps[0]][1..] == [];
    }
  }

  lemma {:induction false} OfSelected(o: byte, es: seq<Entry>, cmd: byte, c: LinkId, s: SessionId)
    requires Passes(o, cmd)
    ensures Of(Select(o, es, c, s), cmd, s) == Came(es, cmd, c, s)
  {
    if es != [] {
      OfSelected(o, es[1..], cmd, c, s);
      OfAppend(Picked(o, es[0], c, s), Select(o, es[1..], c, s), cmd, s);
      assert [es[0].p][1..] == [];
    }
  }

  lemma {:induction false} StampedSnoc(o: byte, ps: seq<Packet>, p: Packet, s: SessionId)
    ensures Stamped(o, ps + [p], s) == Stamped(o, ps, s) + if Mine(o, p, s) then [p] else []
  {
    if ps == [] {
      assert [p][1..] == [];
      assert ps + [p] == [p];
    } else {
      StampedSnoc(o, ps[1..], p, s);
      assert (ps + [p])[1..] == ps[1..] + [p];
    }
  }

  lemma {:induction false} SelectAppend(o: byte, es: seq<Entry>, fs: seq<Entry>, c: LinkId, s: SessionId)
    ensures Select(o, es + fs, c, s) == Select(o, es, c, s) + Select(o, fs, c, s)
  {
    if es == [] {
      assert es + fs == fs;
    } else {
      SelectAppend(o, es[1..], fs, c, s);
      assert (es + fs)[1..] == es[1..] + fs;
      Assoc(Picked(o, es[0], c, s), Select(o, es[1..], c, s), Select(o, fs, c, s));
    }
  }

  /** The session is routed to handle `h`, and looking `h` up finds slot `a`. */
  predicate RoutedTo(r: Relay, s: SessionId, h: Handle, a: Slot)
    requires WellFormed(r.net)
  {
    s in r.routes && r.routes[s] == h && FindIn(r.net.slots, r.net.active, h) == Some(a)
  }

  /** The route holds in every state of the run. */
  ghost predicate RouteKept(r: Relay, es: seq<RelayEvent>, s: SessionId, h: Handle, a: Slot)
    requires ValidTrace(r, es)
    decreases |es|
  {
    WellFormed(r.net) && RoutedTo(r, s, h, a) && (es == [] || RouteKept(RStep(r, es[0]), es[1..], s, h, a))
  }

  /** What a step adds to the frames handled from `c` under `s`. */
  function NewlyHandled(r: Relay, e: RelayEvent, c: LinkId, s: SessionId): seq<Packet> {
    if e == HandleNext(c) && c in r.links && r.links[c].todo != [] && Mine(r.opener, r.links[c].todo[0], s)
        then [r.links[c].todo[0]] else []
  }

  lemma SendToLogs(r: Relay, h: Handle, entry: Entry, a: Slot, c: LinkId, s: SessionId)
    requires WellFormed(r.net)
    ensures Select(r.opener, Entries(SendTo(r, h, entry), a), c, s) ==
            Select(r.opener, Entries(r, a), c, s)
            + if FindIn(r.net.slots, r.net.active, h) == Some(a) then Picked(r.opener, entry, c, s) else []
  {
    SelectAppend(r.opener, Entries(r, a), [entry], c, s);
    assert [entry][1..] == [];
  }

  lemma SendToKeepsLinks(r: Relay, h: Handle, entry: Entry)
    requires WellFormed(r.net)
    ensures SendTo(r, h, entry).links == r.links
  {
  }

  lemma HandleLinks(r: Relay, k: LinkId)
    requires WellFormed(r.net) && REnabled(r, HandleNext(k))
    ensures Handled(r, k).links == r.links[k := Popped(r.links[k])]
  {
    var p := r.links[k].todo[0];
    if IsDefault(r.opener, p) && p.header.sessionId in r.routes {
      SendToKeepsLinks(r.(links := r.links[k := Popped(r.links[k])]), r.routes[p.header.sessionId], Entry(From(k), p));
    }
  }

  /** What handling the next packet does to the logs: nothing, or one send. */
  lemma HandleIsSend(r: Relay, k: LinkId, a: Slot)
    requires WellFormed(r.net) && REnabled(r, HandleNext(k))
    ensures var p := r.links[k].todo[0];
      var r' := r.(links := r.links[k := Popped(r.links[k])]);
      if IsDefault(r.opener, p) && p.header.sessionId in r.routes
      then Handled(r, k) == SendTo(r', r.routes[p.header.sessionId], Entry(From(k), p))
          && Entries(r', a) == Entries(r, a)
      else Entries(Handled(r, k), a) == Entries(r, a)
  {
  }

  lemma HandleLogs(r: Relay, k: LinkId, s: SessionId, h: Handle, a: Slot, c: LinkId)
    requires WellFormed(r.net) && REnabled(r, HandleNext(k)) && RoutedTo(r, s, h, a) && c in r.links
    ensures Select(r.opener, Entries(Handled(r, k), a), c, s) ==
          Select(r.opener, Entries(r, a), c, s) + NewlyHandled(r, HandleNext(k), c, s)
  {
    var p := r.links[k].todo[0];
    HandleIsSend(r, k, a);
    if IsDefault(r.opener, p) && p.header.sessionId in r.routes {
      SendToLogs(r.(links := r.links[k := Popped(r.links[k])]), r.routes[p.header.sessionId], Entry(From(k), p), a, c,
          s);
    }
  }

  lemma HandleAdds(r: Relay, k: LinkId, s: SessionId, h: Handle, a: Slot, c: LinkId)
    requires WellFormed(r.net) && REnabled(r, HandleNext(k)) && RoutedTo(r, s, h, a) && c in r.links
    ensures Select(r.opener, Entries(Handled(r, k), a), c, s) ==
          Select(r.opener, Entries(r, a), c, s) + NewlyHandled(r, HandleNext(k), c, s)
    ensures c in Handled(r, k).links
    ensures Stamped(r.opener, Handled(r, k).links[c].handled, s) ==
          Stamped(r.opener, r.links[c].handled, s) + NewlyHandled(r, HandleNext(k), c, s)
  {
    HandleLogs(r, k, s, h, a, c);
    HandleLinks(r, k);
    StampedSnoc(r.opener, r.links[k].handled, r.links[k].todo[0], s);
  }

  /** No other step handles or enqueues anything. */
  lemma OtherStepsKeep(r: Relay, e: RelayEvent, s: SessionId, h: Handle, a: Slot, c: LinkId)
    requires WellFormed(r.net) && REnabled(r, e) && RoutedTo(r, s, h, a) && c in r.links && !e.HandleNext?
          && !e.SendOwn?
    ensures Entries(RStep(r, e), a) == Entries(r, a)
    ensures c in RStep(r, e).links && RStep(r, e).links[c].handled == r.links[c].handled
  {
  }

  /** A step under a kept route queues to `a` exactly what it handles from `c` under `s`. */
  lemma StepAdds(r: Relay, e: RelayEvent, s: SessionId, h: Handle, a: Slot, c: LinkId)
    requires WellFormed(r.net) && REnabled(r, e) && RoutedTo(r, s, h, a) && c in r.links
    ensures c in RStep(r, e).links
    ensures Select(r.opener, Entries(RStep(r, e), a), c, s) ==
          Select(r.opener, Entries(r, a), c, s) + NewlyHandled(r, e, c, s)
    ensures Stamped(r.opener, RStep(r, e).links[c].handled, s) ==
          Stamped(r.opener, r.links[c].handled, s) + NewlyHandled(r, e, c, s)
  {
    match e
    case HandleNext(k) => HandleAdds(r, k, s, h, a, c);
    case SendOwn(g, p) =>
      SendToLogs(r, g, Entry(Own, p), a, c, s);
      SendToKeepsLinks(r, g, Entry(Own, p));
    case _ => OtherStepsKeep(r, e, s, h, a, c);
  }

  lemma {:induction false} RunAdds(r: Relay, es: seq<RelayEvent>, s: SessionId, h: Handle, a: Slot, c: LinkId)
    returns (d: seq<Packet>)
    requires RInv(r) && ValidTrace(r, es) && RouteKept(r, es, s, h, a) && c in r.links
    ensures c in Trace(r, es).links
    ensures Stamped(r.opener, Trace(r, es).links[c].handled, s) == Stamped(r.opener, r.links[c].handled, s) + d
    ensures Select(r.opener, Entries(Trace(r, es), a), c, s) == Select(r.opener, Entries(r, a), c, s) + d
    decreases |es|
  {
    if es == [] {
      d := [];
    } else {
      var first := NewlyHandled(r, es[0], c, s);
      RStepKeepsInv(r, es[0]);
      StepAdds(r, es[0], s, h, a, c);
      StepGrows(r, es[0], s, h, a, c);
      var later := RunAdds(RStep(r, es[0]), es[1..], s, h, a, c);
      d := first + later;
      Assoc(Stamped(r.opener, r.links[c].handled, s), first, later);
      Assoc(Select(r.opener, Entries(r, a), c, s), first, later);
    }
  }

  /** `d` is what the run has added, both to the packets with this command and session id that `c` has had handled
      and to those of them queued to `a`. */
  ghost predicate AddsBoth(r: Relay, r': Relay, cmd: byte, s: SessionId, a: Slot, c: LinkId, d: seq<Packet>) {
    && c in r.links && c in r'.links
    && Of(r'.links[c].handled, cmd, s) == Of(r.links[c].handled, cmd, s) + d
    && Came(Entries(r', a), cmd, c, s) == Came(Entries(r, a), cmd, c, s) + d
  }

  /** Over a run that keeps the route, the frames queued to the AppHost's connection and those handled from the
      client grow by the very same frames, in order, and so for every command but the session opener, HEARTBEAT and
      CLOSE_SESSION: none lost, added or reordered, whatever other clients, sessions and the gateway itself send in
      between. */
  lemma {:induction false} Transparent(r: Relay, es: seq<RelayEvent>, s: SessionId, h: Handle, a: Slot, c: LinkId)
    returns (d: seq<Packet>)
    requires RInv(r) && ValidTrace(r, es) && RouteKept(r, es, s, h, a) && c in r.links
    ensures c in Trace(r, es).links
    ensures Stamped(r.opener, Trace(r, es).links[c].handled, s) == Stamped(r.opener, r.links[c].handled, s) + d
    ensures Select(r.opener, Entries(Trace(r, es), a), c, s) == Select(r.opener, Entries(r, a), c, s) + d
    ensures forall cmd: byte :: cmd != r.opener && cmd != HEARTBEAT && cmd != CLOSE_SESSION ==>
              AddsBoth(r, Trace(r, es), cmd, s, a, c, Of(d, cmd, s))
  {
    d := RunAdds(r, es, s, h, a, c);
    forall cmd: byte | Passes(r.opener, cmd) ensures AddsBoth(r, Trace(r, es), cmd, s, a, c, Of(d, cmd, s)) {
      AddsByCommand(r, Trace(r, es), cmd, s, a, c, d);
    }
  }

  lemma AddsByCommand(r: Relay, r': Relay, cmd: byte, s: SessionId, a: Slot, c: LinkId, d: seq<Packet>)
    requires Passes(r.opener, cmd) && c in r.links && c in r'.links
    requires Stamped(r.opener, r'.links[c].handled, s) == Stamped(r.opener, r.links[c].handled, s) + d
    requires Select(r.opener, Entries(r', a), c, s) == Select(r.opener, Entries(r, a), c, s) + d
    ensures AddsBoth(r, r', cmd, s, a, c, Of(d, cmd, s))
  {
    OfStamped(r.opener, r.links[c].handled, cmd, s);
    OfStamped(r.opener, r'.links[c].handled, cmd, s);
    OfAppend(Stamped(r.opener, r.links[c].handled, s), d, cmd, s);
    OfSelected(r.opener, Entries(r, a), cmd, c, s);
    OfSelected(r.opener, Entries(r', a), cmd, c, s);
    OfAppend(Select(r.opener, Entries(r, a), c, s), d, cmd, s);
  }

  /// Isolation
  /// ---------

  /** No client's frame stamped with the session has been enqueued to the slot's occupant. */
  ghost predicate NoneStamped(r: Relay, b: Slot, s: SessionId) {
    NoneAmong(Entries(r, b), s)
  }

  ghost predicate NoneAmong(es: seq<Entry>, s: SessionId) {
    forall i :: 0 <= i < |es| ==> es[i].from == Own || es[i].p.header.sessionId != s
  }

  lemma SendToIsolates(r: Relay, h: Handle, entry: Entry, b: Slot, s: SessionId)
    requires WellFormed(r.net) && NoneStamped(r, b, s)
    requires FindIn(r.net.slots, r.net.active, h) == Some(b) ==> entry.from == Own || entry.p.header.sessionId != s
    ensures NoneStamped(SendTo(r, h, entry), b, s)
  {
  }

  lemma StepIsolates(r: Relay, e: RelayEvent, s: SessionId, h: Handle, a: Slot, b: Slot)
    requires WellFormed(r.net) && REnabled(r, e) && RoutedTo(r, s, h, a) && b != a && NoneStamped(r, b, s)
    ensures NoneStamped(RStep(r, e), b, s)
  {
    match e
    case HandleNext(c) =>
      var p := r.links[c].todo[0];
      if IsDefault(r.opener, p) && p.header.sessionId in r.routes {
        var r' := r.(links := r.links[c := Popped(r.links[c])]);
        assert NoneStamped(r', b, s);
        SendToIsolates(r', r.routes[p.header.sessionId], Entry(From(c), p), b, s);
      }
    case SendOwn(g, p) => SendToIsolates(r, g, Entry(Own, p), b, s);
    case _ =>
  }

  /** While a session keeps its route, no frame stamped with it reaches any other connection, from
      whichever client it comes. */
  lemma {:induction false} Isolated(r: Relay, es: seq<RelayEvent>, s: SessionId, h: Handle, a: Slot, b: Slot)
    requires ValidTrace(r, es) && RouteKept(r, es, s, h, a) && b != a && NoneStamped(r, b, s)
    ensures NoneStamped(Trace(r, es), b, s)
    decreases |es|
  {
    if es != [] {
      StepIsolates(r, es[0], s, h, a, b);
      Isolated(RStep(r, es[0]), es[1..], s, h, a, b);
    }
  }

  /// What the AppHost sees
  /// ---------------------

  /** Any part of what the pool was given, in any pieces, parses to the first packets enqueued, whole
      and byte for byte; and all of it to all of them. */
  lemma AppHostSees(r: Relay, a: Slot, chunks: seq<seq<byte>>) returns (k: nat)
    requires RInv(r) && a in r.net.slots && Flatten(chunks) <= r.net.slots[a].handed
    ensures k <= |Entries(r, a)|
    ensures FeedAll([], chunks).packets == Packets(Entries(r, a)[..k]) && FeedAll([], chunks).verdict == NeedMore
    ensures Flatten(chunks) == r.net.slots[a].handed && r.net.slots[a].queue == [] ==> k == |Entries(r, a)|
  {
    var c, es := r.net.slots[a], Entries(r, a);
    assert c.handed <= c.enqueued;
    k := ArrivedPackets(Packets(es), chunks);
    PacketsLength(es);
    PacketsTake(es, k);
    if c.queue == [] {
      assert c.handed + [] == c.handed;
    }
  }

  lemma {:induction false} PacketsLength(es: seq<Entry>)
    ensures |Packets(es)| == |es|
  {
    if es != [] {
      PacketsLength(es[1..]);
    }
  }

  lemma PacketsTake(es: seq<Entry>, k: nat)
    requires k <= |es|
    ensures |Packets(es)| == |es| && Packets(es)[..k] == Packets(es[..k])
  {
    PacketsAppend(es[..k], es[k..]);
    assert es[..k] + es[k..] == es;
    PacketsLength(es[..k]);
    PacketsLength(es);
  }

  lemma SelectTake(o: byte, es: seq<Entry>, k: nat, c: LinkId, s: SessionId)
    requires k <= |es|
    ensures Select(o, es, c, s) == Select(o, es[..k], c, s) + Select(o, es[k..], c, s)
  {
    SelectAppend(o, es[..k], es[k..], c, s);
    assert es[..k] + es[k..] == es;
  }

  lemma {:induction false} StampedAppend(o: byte, ps: seq<Packet>, qs: seq<Packet>, s: SessionId)
    ensures Stamped(o, ps + qs, s) == Stamped(o, ps, s) + Stamped(o, qs, s)
  {
    if ps == [] {
      assert ps + qs == qs;
    } else {
      StampedAppend(o, ps[1..], qs, s);
      assert (ps + qs)[1..] == ps[1..] + qs;
      Assoc(if Mine(o, ps[0], s) then [ps[0]] else [], Stamped(o, ps[1..], s), Stamped(o, qs, s));
    }
  }

  lemma SendToGrows(r: Relay, h: Handle, entry: Entry, a: Slot)
    requires WellFormed(r.net)
    ensures Entries(r, a) <= Entries(SendTo(r, h, entry), a)
  {
  }

  /** Under a kept route a step only adds to the connection's log and to what is handled. */
  lemma StepGrows(r: Relay, e: RelayEvent, s: SessionId, h: Handle, a: Slot, c: LinkId)
    requires WellFormed(r.net) && REnabled(r, e) && RoutedTo(r, s, h, a) && c in r.links
    ensures Entries(r, a) <= Entries(RStep(r, e), a) && RStep(r, e).opener == r.opener
    ensures c in RStep(r, e).links && r.links[c].handled <= RStep(r, e).links[c].handled
  {
    match e
    case HandleNext(k) =>
      HandleLinks(r, k);
      var p := r.links[k].todo[0];
      if IsDefault(r.opener, p) && p.header.sessionId in r.routes {
        SendToGrows(r.(links := r.links[k := Popped(r.links[k])]), r.routes[p.header.sessionId], Entry(From(k), p), a);
      }
    case SendOwn(g, p) => SendToGrows(r, g, Entry(Own, p), a);
    case _ =>
  }

  lemma {:induction false} TraceGrows(r: Relay, es: seq<RelayEvent>, s: SessionId, h: Handle, a: Slot, c: LinkId)
    requires ValidTrace(r, es) && RouteKept(r, es, s, h, a) && c in r.links
    ensures Entries(r, a) <= Entries(Trace(r, es), a) && Trace(r, es).opener == r.opener
    ensures c in Trace(r, es).links && r.links[c].handled <= Trace(r, es).links[c].handled
    decreases |es|
  {
    if es != [] {
      StepGrows(r, es[0], s, h, a, c);
      TraceGrows(RStep(r, es[0]), es[1..], s, h, a, c);
    }
  }

  /** The frames from `c` under `s` among the entries from number `n` up to number `k`. */
  function SelectSince(o: byte, es: seq<Entry>, n: nat, k: nat, c: LinkId, s: SessionId): seq<Packet>
    requires k <= |es|
  {
    if n <= k then Select(o, es[n..k], c, s) else []
  }

  /** `k` entries have come out at the far end, whole. Of those enqueued after the first `n`, the ones
      from `c` under `s` are a prefix of the default-case frames stamped `s` that `c` has sent after its
      first `m` frames; all of them once everything is handled, handed over and received. */
  ghost predicate Delivered(r: Relay, n: nat, m: nat, s: SessionId, a: Slot, c: LinkId, chunks: seq<seq<byte>>,
                            k: nat) {
    && c in r.links && a in r.net.slots && k <= |Entries(r, a)| && m <= |Parse(r.links[c].received).packets|
    && FeedAll([], chunks).packets == Packets(Entries(r, a)[..k]) && FeedAll([], chunks).verdict == NeedMore
    && var seen, sent := SelectSince(r.opener, Entries(r, a), n, k, c, s),
        Stamped(r.opener, Parse(r.links[c].received).packets[m..], s);
       && seen <= sent
       && (Flatten(chunks) == r.net.slots[a].handed && r.net.slots[a].queue == [] && r.links[c].todo == [] ==>
           seen == sent)
  }

  /** The same for one command: of the packets with it and the session id that `c` has sent after its first `m`,
      those that have come out after the first `n` entries are the first, and all of them in the end. */
  ghost predicate CommandDelivered(r: Relay, n: nat, m: nat, s: SessionId, a: Slot, c: LinkId, chunks: seq<seq<byte>>,
                                   k: nat, cmd: byte) {
    && c in r.links && a in r.net.slots && k <= |Entries(r, a)| && m <= |Parse(r.links[c].received).packets|
    && FeedAll([], chunks).packets == Packets(Entries(r, a)[..k])
    && var seen, sent := CameSince(Entries(r, a), n, k, cmd, c, s),
        Of(Parse(r.links[c].received).packets[m..], cmd, s);
       && seen <= sent
       && (Flatten(chunks) == r.net.slots[a].handed && r.net.slots[a].queue == [] && r.links[c].todo == [] ==>
           seen == sent)
  }

  function CameSince(es: seq<Entry>, n: nat, k: nat, cmd: byte, c: LinkId, s: SessionId): seq<Packet>
    requires k <= |es|
  {
    if n <= k then Came(es[n..k], cmd, c, s) else []
  }

  lemma DeliveredByCommand(r: Relay, n: nat, m: nat, s: SessionId, a: Slot, c: LinkId, chunks: seq<seq<byte>>, k: nat,
                           cmd: byte)
    requires Delivered(r, n, m, s, a, c, chunks, k) && Passes(r.opener, cmd)
    ensures CommandDelivered(r, n, m, s, a, c, chunks, k, cmd)
  {
    var es, sent := Entries(r, a), Parse(r.links[c].received).packets[m..];
    OfPrefix(SelectSince(r.opener, es, n, k, c, s), Stamped(r.opener, sent, s), cmd, s);
    OfStamped(r.opener, sent, cmd, s);
    if n <= k {
      OfSelected(r.opener, es[n..k], cmd, c, s);
    }
  }

  /** End to end, from any reachable state in which the session is routed, over any run that keeps the
      route: whatever else interleaves, however the sender's stream is cut into receives and the
      receiver's into chunks, what comes out at the far end is what was sent from then on, for every command but
      the session opener, HEARTBEAT and CLOSE_SESSION. */
  lemma EndToEndTransparent(r: Relay, es: seq<RelayEvent>, s: SessionId, h: Handle, a: Slot, c: LinkId,
                            chunks: seq<seq<byte>>)
    returns (k: nat)
    requires RInv(r) && ValidTrace(r, es) && RouteKept(r, es, s, h, a) && c in r.links
    requires a in Trace(r, es).net.slots && Flatten(chunks) <= Trace(r, es).net.slots[a].handed
    ensures Delivered(Trace(r, es), |Entries(r, a)|, |r.links[c].handled|, s, a, c, chunks, k)
    ensures forall cmd: byte :: cmd != r.opener && cmd != HEARTBEAT && cmd != CLOSE_SESSION ==>
              CommandDelivered(Trace(r, es), |Entries(r, a)|, |r.links[c].handled|, s, a, c, chunks, k, cmd)
  {
    k := AllDelivered(r, es, s, h, a, c, chunks);
    TraceGrows(r, es, s, h, a, c);
    forall cmd: byte | Passes(r.opener, cmd)
      ensures CommandDelivered(Trace(r, es), |Entries(r, a)|, |r.links[c].handled|, s, a, c, chunks, k, cmd)
    {
      DeliveredByCommand(Trace(r, es), |Entries(r, a)|, |r.links[c].handled|, s, a, c, chunks, k, cmd);
    }
  }

  lemma AllDelivered(r: Relay, es: seq<RelayEvent>, s: SessionId, h: Handle, a: Slot, c: LinkId,
                     chunks: seq<seq<byte>>)
    returns (k: nat)
    requires RInv(r) && ValidTrace(r, es) && RouteKept(r, es, s, h, a) && c in r.links
    requires a in Trace(r, es).net.slots && Flatten(chunks) <= Trace(r, es).net.slots[a].handed
    ensures Delivered(Trace(r, es), |Entries(r, a)|, |r.links[c].handled|, s, a, c, chunks, k)
  {
    TraceKeepsInv(r, es);
    TraceGrows(r, es, s, h, a, c);
    var r' := Trace(r, es);
    var d := RunAdds(r, es, s, h, a, c);
    k := AppHostSees(r', a, chunks);
    DeliveredSince(r', Entries(r, a), r.links[c].handled, d, s, a, c, chunks, k);
  }

  lemma DeliveredSince(r: Relay, oldEntries: seq<Entry>, oldHandled: seq<Packet>, d: seq<Packet>,
                       s: SessionId, a: Slot, c: LinkId, chunks: seq<seq<byte>>, k: nat)
    requires c in r.links && LinkOk(r.links[c]) && a in r.net.slots && k <= |Entries(r, a)|
    requires oldEntries <= Entries(r, a) && oldHandled <= r.links[c].handled
    requires Stamped(r.opener, r.links[c].handled, s) == Stamped(r.opener, oldHandled, s) + d
    requires Select(r.opener, Entries(r, a), c, s) == Select(r.opener, oldEntries, c, s) + d
    requires FeedAll([], chunks).packets == Packets(Entries(r, a)[..k]) && FeedAll([], chunks).verdict == NeedMore
    requires Flatten(chunks) == r.net.slots[a].handed && r.net.slots[a].queue == [] ==> k == |Entries(r, a)|
    ensures Delivered(r, |oldEntries|, |oldHandled|, s, a, c, chunks, k)
  {
    SeenOf(r.opener, Entries(r, a), oldEntries, d, c, s, k);
    SentSince(r.opener, r.links[c], oldHandled, d, s);
  }

  lemma SeenOf(o: byte, es: seq<Entry>, old': seq<Entry>, d: seq<Packet>, c: LinkId, s: SessionId, k: nat)
    requires old' <= es && k <= |es| && Select(o, es, c, s) == Select(o, old', c, s) + d
    ensures SelectSince(o, es, |old'|, k, c, s) <= d
    ensures k == |es| ==> SelectSince(o, es, |old'|, k, c, s) == d
  {
    assert es == old' + es[|old'|..];
    SeenSince(o, es, old', es[|old'|..], d, c, s, k);
  }

  lemma Cancel<T>(a: seq<T>, x: seq<T>, y: seq<T>)
    requires a + x == a + y
    ensures x == y
  {
    TakeDrop(a, x);
    TakeDrop(a, y);
  }

  /** A list extended twice, without its first part. */
  lemma DropTwice<T>(a: seq<T>, b: seq<T>, c: seq<T>)
    ensures ((a + b) + c)[|a|..] == b + c
  {
    Assoc(a, b, c);
    TakeDrop(a, b + c);
  }

  lemma NewHandled(o: byte, l: Link, old': seq<Packet>, new': seq<Packet>, d: seq<Packet>, s: SessionId)
    requires LinkOk(l) && l.handled == old' + new' && Stamped(o, l.handled, s) == Stamped(o, old', s) + d
    ensures |old'| <= |Parse(l.received).packets|
    ensures Stamped(o, Parse(l.received).packets[|old'|..], s) == d + Stamped(o, l.todo, s)
  {
    StampedAppend(o, old', new', s);
    Cancel(Stamped(o, old', s), d, Stamped(o, new', s));
    DropTwice(old', new', l.todo);
    StampedAppend(o, new', l.todo, s);
  }

  lemma NewSelected(o: byte, old': seq<Entry>, new': seq<Entry>, d: seq<Packet>, c: LinkId, s: SessionId, k: nat)
    requires Select(o, old' + new', c, s) == Select(o, old', c, s) + d && |old'| <= k <= |old' + new'|
    ensures Select(o, (old' + new')[|old'|..k], c, s) + Select(o, new'[k - |old'|..], c, s) == d
  {
    SelectAppend(o, old', new', c, s);
    Cancel(Select(o, old', c, s), d, Select(o, new', c, s));
    SelectTake(o, new', k - |old'|, c, s);
    assert (old' + new')[|old'|..k] == new'[..k - |old'|];
  }

  lemma PrefixOfSum<T>(x: seq<T>, t: seq<T>, d: seq<T>)
    requires x + t == d
    ensures x <= d && (t == [] ==> x == d)
  {
  }

  lemma SeenSince(o: byte, es: seq<Entry>, old': seq<Entry>, new': seq<Entry>, d: seq<Packet>, c: LinkId, s: SessionId,
                  k: nat)
    requires es == old' + new' && k <= |es| && Select(o, es, c, s) == Select(o, old', c, s) + d
    ensures SelectSince(o, es, |old'|, k, c, s) <= d
    ensures k == |es| ==> SelectSince(o, es, |old'|, k, c, s) == d
  {
    if |old'| <= k {
      NewSelected(o, old', new', d, c, s, k);
      SelectNothing(o, new', k - |old'|, c, s);
      PrefixOfSum(Select(o, es[|old'|..k], c, s), Select(o, new'[k - |old'|..], c, s), d);
    }
  }

  lemma SelectNothing(o: byte, es: seq<Entry>, k: nat, c: LinkId, s: SessionId)
    requires k <= |es|
    ensures k == |es| ==> Select(o, es[k..], c, s) == []
  {
  }

  lemma SentSince(o: byte, l: Link, old': seq<Packet>, d: seq<Packet>, s: SessionId)
    requires LinkOk(l) && old' <= l.handled && Stamped(o, l.handled, s) == Stamped(o, old', s) + d
    ensures |old'| <= |Parse(l.received).packets|
    ensures d <= Stamped(o, Parse(l.received).packets[|old'|..], s)
    ensures l.todo == [] ==> d == Stamped(o, Parse(l.received).packets[|old'|..], s)
  {
    var new' := l.handled[|old'|..];
    assert l.handled == old' + new';
    NewHandled(o, l, old', new', d, s);
    PrefixOfSum(d, Stamped(o, l.todo, s), Stamped(o, Parse(l.received).packets[|old'|..], s));
  }

  /// The client callback
  /// -------------------

  ghost predicate Traces(r: Relay, es: seq<RelayEvent>, r': Relay) {
    ValidTrace(r, es) && Trace(r, es) == r'
  }

  lemma TracesCons(r: Relay, e: RelayEvent, es: seq<RelayEvent>, r': Relay)
    requires WellFormed(r.net) && REnabled(r, e) && Traces(RStep(r, e), es, r')
    ensures Traces(r, [e] + es, r')
  {
    assert ([e] + es)[1..] == es;
  }

  lemma {:induction false} TracesSnoc(r: Relay, es: seq<RelayEvent>, r': Relay, e: RelayEvent)
    requires Traces(r, es, r') && WellFormed(r'.net) && REnabled(r', e)
    ensures Traces(r, es + [e], RStep(r', e))
    decreases |es|
  {
    if es == [] {
      TracesCons(r, e, [], RStep(r, e));
      assert [e] + [] == es + [e];
    } else {
      TracesSnoc(RStep(r, es[0]), es[1..], r', e);
      TracesCons(r, es[0], es[1..] + [e], RStep(r', e));
      assert es + [e] == [es[0]] + (es[1..] + [e]);
    }
  }

  /** Where the callback stands: `left` is the part of the stream still to be handled, the packet in
      hand included. */
  ghost predicate Draining(l: Link, left: seq<byte>) {
    var x := Parse(left);
    x.packets == l.todo && (l.good <==> x.verdict == NeedMore) && (l.good ==> x.rest == l.rest)
  }

  lemma DrainingStep(l: Link, p: Packet, left: seq<byte>)
    requires GoodPacket(p) && Draining(l, PacketBytes(p) + left)
    ensures l.todo != [] && l.todo[0] == p && Draining(Popped(l), left)
  {
    ParseOne(p, left);
    assert l.todo == [p] + Parse(left).packets;
  }

  /** Where find_apphost sends each session: the sessions bound to an AppHost, by its handle. */
  function RoutesOf(recs: map<SessionId, Sessions.Runtime>): map<SessionId, Handle> {
    map s | s in recs && recs[s].apphostConn != 0 :: recs[s].apphostConn
  }

  lemma RoutesWithout(recs: map<SessionId, Sessions.Runtime>, s: SessionId)
    ensures RoutesOf(recs - {s}) == RoutesOf(recs) - {s}
  {
  }

  lemma RoutesMarked(t: Sessions.Table, s: SessionId, now: Sessions.Time)
    ensures RoutesOf(Sessions.MarkClient(t, s, now).recs) == RoutesOf(t.recs)
  {
  }

  /** The client connection a callback runs for: its handle, the session it has recorded, and the time. */
  datatype Sender = Sender(h: Handle, session: SessionId, now: Sessions.Time)

  /** What handling a packet sends back to a client, and the processes it asks to end. */
  datatype Reply = ToClient(h: Handle, p: Packet) | Terminate(pid: int)

  function Seen(t: Sessions.Table, me: Sender): Sessions.Table {
    if me.session != 0 then Sessions.MarkClient(t, me.session, me.now) else t
  }

  /** Only a close removes a session. */
  function Switched(t: Sessions.Table, p: Packet): Sessions.Table {
    if p.header.cmdType == CLOSE_SESSION then Sessions.Remove(t, p.header.sessionId) else t
  }

  /** A heartbeat is echoed; a close is told to the session's client and its process. */
  function RepliesTo(t: Sessions.Table, p: Packet, h: Handle): seq<Reply> {
    if p.header.cmdType == HEARTBEAT then [ToClient(h, MakePacket(HEARTBEAT, p.header.sessionId))]
    else if p.header.cmdType == CLOSE_SESSION then CloseReplies(t, p.header.sessionId)
    else []
  }

  function CloseReplies(t: Sessions.Table, s: SessionId): seq<Reply> {
    if s !in t.recs then []
    else
      (if t.recs[s].clientConn != 0 then [ToClient(t.recs[s].clientConn, MakePacket(CLOSE_SESSION, s))] else [])
      + (if t.recs[s].apphostPid > 0 then [Terminate(t.recs[s].apphostPid)] else [])
  }

  /** A close is told to the session's client, then its process is asked to end; a session that is gone, or has
      neither, hears nothing. */
  lemma CloseRepliesExact(t: Sessions.Table, s: SessionId)
    ensures var replies := CloseReplies(t, s);
      && (forall h, p :: ToClient(h, p) in replies <==>
            s in t.recs && h == t.recs[s].clientConn && h != 0 && p == MakePacket(CLOSE_SESSION, s))
      && (forall pid :: Terminate(pid) in replies <==> s in t.recs && pid == t.recs[s].apphostPid && pid > 0)
      && (forall i, j :: 0 <= i < j < |replies| ==> replies[i].ToClient? && replies[j].Terminate?)
  {
  }

  /** Every packet first shows that the sender's own session is alive. */
  function TableAfter(t: Sessions.Table, ps: seq<Packet>, me: Sender): Sessions.Table
    decreases |ps|
  {
    if ps == [] then t else TableAfter(Switched(Seen(t, me), ps[0]), ps[1..], me)
  }

  function RepliesAfter(t: Sessions.Table, ps: seq<Packet>, me: Sender): seq<Reply>
    decreases |ps|
  {
    if ps == [] then []
    else RepliesTo(Seen(t, me), ps[0], me.h) + RepliesAfter(Switched(Seen(t, me), ps[0]), ps[1..], me)
  }

  /** What is still to come of the table and the replies, with these packets left. */
  ghost predicate StillTo(t: Sessions.Table, replies: seq<Reply>, ps: seq<Packet>, me: Sender, last: Sessions.Table,
                          total: seq<Reply>) {
    TableAfter(t, ps, me) == last && replies + RepliesAfter(t, ps, me) == total
  }

  lemma StillToStep(t: Sessions.Table, replies: seq<Reply>, ps: seq<Packet>, me: Sender, last: Sessions.Table,
                    total: seq<Reply>)
    requires StillTo(t, replies, ps, me, last, total) && ps != []
    ensures var seen := Seen(t, me);
      StillTo(Switched(seen, ps[0]), replies + RepliesTo(seen, ps[0], me.h), ps[1..], me, last, total)
  {
    var seen := Seen(t, me);
    Assoc(replies, RepliesTo(seen, ps[0], me.h), RepliesAfter(Switched(seen, ps[0]), ps[1..], me));
  }

  lemma StillToEnd(t: Sessions.Table, replies: seq<Reply>, me: Sender, last: Sessions.Table, total: seq<Reply>)
    requires StillTo(t, replies, [], me, last, total)
    ensures t == last && replies == total
  {
    assert replies + [] == replies;
  }

  /** What the callback knows when it takes the next packet. */
  lemma NextIsHandled(r: Relay, c: LinkId, start: Relay, before: seq<RelayEvent>)
    requires RInv(r) && REnabled(r, HandleNext(c)) && Traces(start, before, r)
    ensures GoodPacket(r.links[c].todo[0]) && LinkOk(Popped(r.links[c])) && RInv(RStep(r, HandleNext(c)))
    ensures RStep(r, HandleNext(c)).links == r.links[c := Popped(r.links[c])]
    ensures Traces(start, before + [HandleNext(c)], RStep(r, HandleNext(c)))
  {
    PoppedOk(r.links[c]);
    RStepKeepsInv(r, HandleNext(c));
    HandleLinks(r, c);
    TracesSnoc(start, before, r, HandleNext(c));
  }

  lemma SendForwards(r0: Relay, r: Relay, h: Handle, entry: Entry)
    requires WellFormed(r.net) && r0.net == r.net && entry.p.header.sessionId in r0.routes
    requires r0.routes[entry.p.header.sessionId] == h
    ensures Forwarded(r0, SendTo(r, h, entry), entry.p)
  {
  }

  class RelayGateway {
    const conns: ConnTable
    const sessions: Sessions.SessionTable
    var replies: seq<Reply>
    ghost var links: map<LinkId, Link>
    ghost var log: map<Slot, seq<Entry>>

    ghost function View(): Relay
      reads this, conns, sessions
    {
      Relay(SPAWN_APP, links, RoutesOf(sessions.bySession), conns.View(), log)
    }

    ghost predicate Valid()
      reads this, conns, sessions
    {
      sessions.Valid() && RInv(View())
    }

    /** The parser of a client connection between callbacks. */
    ghost predicate Parked(c: LinkId, parser: MessageParser)
      requires c in links
      reads this, parser
    {
      && parser.Valid() && links[c].todo == []
      && (links[c].good <==> parser.state != Poisoned)
      && (links[c].good ==> parser.Backlog() == links[c].rest)
    }

    constructor ()
      ensures Valid() && fresh(conns) && fresh(sessions) && View() == Start(SPAWN_APP) && replies == []
    {
      conns := new ConnTable();
      sessions := new Sessions.SessionTable();
      replies := [];
      links, log := map[], map[];
    }

    /** A parser for a new connection. */
    method OpenClient(ghost c: LinkId) returns (parser: MessageParser)
      requires Valid() && c !in links
      modifies this`links
      ensures Valid() && fresh(parser) && c in links && Parked(c, parser)
      ensures View() == RStep(old(View()), Connect(c))
    {
      RStepKeepsInv(View(), Connect(c));
      links := links[c := Link([], [], [], [], true)];
      parser := new MessageParser();
    }

    /** Enqueues to the open connection with this handle, if there is one. */
    method SendToApphost(h: Handle, bytes: seq<byte>, ghost entry: Entry)
      requires Valid() && GoodPacket(entry.p) && bytes == PacketBytes(entry.p)
      modifies this`log, conns
      ensures Valid() && View() == SendTo(old(View()), h, entry)
    {
      ghost var r := View();
      SendToOk(r, h, entry);
      var found := conns.FindLocked(h);
      if found.Some? {
        conns.EnqueueConn(found.value, bytes);
        log := log[found.value := Entries(r, found.value) + [entry]];
      }
      assert View() == SendTo(r, h, entry);
    }

    /** Re-serialises the packet to the AppHost its session is routed to; drops it without a route. */
    method ForwardToApphost(p: Packet, ghost c: LinkId)
      requires Valid() && GoodPacket(p)
      modifies this`log, conns
      ensures Valid()
      ensures View() == if p.header.sessionId in old(View()).routes
                        then SendTo(old(View()), old(View()).routes[p.header.sessionId], Entry(From(c), p))
                            else old(View())
      ensures Forwarded(old(View()), View(), p)
    {
      var route := sessions.Find(p.header.sessionId);
      if route.apphostConn != 0 {
        var bytes := SerializePacket(p);
        assert p.(header := p.header.(bodyLength := |p.body| % 0x1_0000_0000)) == p;
        SendForwards(View(), View(), route.apphostConn, Entry(From(c), p));
        SendToApphost(route.apphostConn, bytes, Entry(From(c), p));
      }
    }

    method MarkSeen(me: Sender)
      requires Valid()
      modifies sessions
      ensures Valid() && View() == old(View()) && sessions.View() == Seen(old(sessions.View()), me)
      ensures var recs := old(sessions.bySession);
        sessions.bySession == if me.session != 0 && me.session in recs
                              then recs[me.session := recs[me.session].(lastClientSeen := me.now)] else recs
    {
      RoutesMarked(sessions.View(), me.session, me.now);
      if me.session != 0 {
        var _ := sessions.MarkClientSeen(me.session, me.now);
      }
    }

    /** Any packet marks the sender's session as seen before it is handled. */
    method HandlePacket(p: Packet, me: Sender, ghost c: LinkId, ghost start: Relay, ghost before: seq<RelayEvent>)
      returns (ghost es: seq<RelayEvent>)
      requires Valid() && c in links && links[c].todo != [] && links[c].todo[0] == p && Traces(start, before, View())
      modifies this, conns, sessions
      ensures Valid() && links == old(links)[c := Popped(old(links[c]))]
      ensures Traces(start, es, View()) && before + [HandleNext(c)] <= es
      ensures sessions.View() == Switched(Seen(old(sessions.View()), me), p)
      ensures replies == old(replies) + RepliesTo(Seen(old(sessions.View()), me), p, me.h)
      ensures ByCommand(old(View()), old(replies), p, me.h)
    {
      MarkSeen(me);
      es := SwitchOn(p, me.h, c, start, before);
    }

    /** What has been sent for a packet, by its command byte: an echo to its sender for a heartbeat; a close
        message to the session's AppHost for a close; nothing for SPAWN_APP; for any other the packet itself, to
        the AppHost whose handle the session's record has. */
    ghost predicate ByCommand(r: Relay, before: seq<Reply>, p: Packet, h: Handle)
      requires WellFormed(r.net)
      reads this, conns, sessions
    {
      if p.header.cmdType == CLOSE_SESSION then
        && p.header.sessionId !in sessions.bySession
        && Forwarded(r, View(), MakePacket(CLOSE_SESSION, p.header.sessionId))
      else if p.header.cmdType == HEARTBEAT then
        conns.View() == r.net && replies == before + [ToClient(h, MakePacket(HEARTBEAT, p.header.sessionId))]
      else if p.header.cmdType == SPAWN_APP then conns.View() == r.net && replies == before
      else
        && Forwarded(r, View(), p) && replies == before
        && var recs, s := sessions.bySession, p.header.sessionId;
           && (s in r.routes <==> s in recs && recs[s].apphostConn != 0)
           && (s in r.routes ==> r.routes[s] == recs[s].apphostConn)
    }

    /** The switch on the command. Closing drops the route and then tells both peers and the process. What
        SPAWN_APP does is Gateways.Gateway.HandleSpawnApp. */
    method SwitchOn(p: Packet, h: Handle, ghost c: LinkId, ghost start: Relay, ghost before: seq<RelayEvent>)
      returns (ghost es: seq<RelayEvent>)
      requires Valid() && c in links && links[c].todo != [] && links[c].todo[0] == p && Traces(start, before, View())
      modifies this, conns, sessions
      ensures Valid() && links == old(links)[c := Popped(old(links[c]))]
      ensures Traces(start, es, View()) && before + [HandleNext(c)] <= es
      ensures sessions.View() == Switched(old(sessions.View()), p)
      ensures replies == old(replies) + RepliesTo(old(sessions.View()), p, h)
      ensures ByCommand(old(View()), old(replies), p, h)
    {
      if p.header.cmdType == CLOSE_SESSION {
        es := TakeClose(p, c, start, before);
      } else if p.header.cmdType == SPAWN_APP || p.header.cmdType == HEARTBEAT {
        es := TakeOther(p, h, c, start, before);
      } else {
        es := TakeDefault(p, c, start, before);
        assert replies + [] == replies;
      }
    }

    method TakeClose(p: Packet, ghost c: LinkId, ghost start: Relay, ghost before: seq<RelayEvent>)
      returns (ghost es: seq<RelayEvent>)
      requires Valid() && c in links && links[c].todo != [] && links[c].todo[0] == p && Traces(start, before, View())
      requires p.header.cmdType == CLOSE_SESSION
      modifies this, conns, sessions
      ensures Valid() && links == old(links)[c := Popped(old(links[c]))]
      ensures Traces(start, es, View()) && before + [HandleNext(c)] <= es
      ensures sessions.View() == Switched(old(sessions.View()), p)
      ensures replies == old(replies) + CloseReplies(old(sessions.View()), p.header.sessionId)
      ensures forall h :: ByCommand(old(View()), old(replies), p, h)
    {
      ghost var r := View();
      NextIsHandled(r, c, start, before);
      links := links[c := Popped(links[c])];
      es := CloseRoute(p.header.sessionId, start, before + [HandleNext(c)], RStep(r, HandleNext(c)));
    }

    /** A heartbeat is echoed; SPAWN_APP touches nothing here. */
    method TakeOther(p: Packet, h: Handle, ghost c: LinkId, ghost start: Relay, ghost before: seq<RelayEvent>)
      returns (ghost es: seq<RelayEvent>)
      requires Valid() && c in links && links[c].todo != [] && links[c].todo[0] == p && Traces(start, before, View())
      requires p.header.cmdType == SPAWN_APP || p.header.cmdType == HEARTBEAT
      modifies this, conns, sessions
      ensures Valid() && links == old(links)[c := Popped(old(links[c]))]
      ensures Traces(start, es, View()) && before + [HandleNext(c)] <= es
      ensures sessions.View() == old(sessions.View())
      ensures ByCommand(old(View()), old(replies), p, h)
      ensures replies == old(replies) + RepliesTo(old(sessions.View()), p, h)
    {
      ghost var r := View();
      NextIsHandled(r, c, start, before);
      es := before + [HandleNext(c)];
      links := links[c := Popped(links[c])];
      assert View() == RStep(r, HandleNext(c));
      if p.header.cmdType == HEARTBEAT {
        replies := replies + [ToClient(h, MakePacket(HEARTBEAT, p.header.sessionId))];
      } else {
        assert replies + [] == replies;
      }
    }

    method TakeDefault(p: Packet, ghost c: LinkId, ghost start: Relay, ghost before: seq<RelayEvent>)
      returns (ghost es: seq<RelayEvent>)
      requires Valid() && c in links && links[c].todo != [] && links[c].todo[0] == p && Traces(start, before, View())
      requires IsDefault(SPAWN_APP, p)
      modifies this, conns, sessions
      ensures Valid() && links == old(links)[c := Popped(old(links[c]))]
      ensures Traces(start, es, View()) && before + [HandleNext(c)] <= es
      ensures sessions.View() == old(sessions.View()) && replies == old(replies)
      ensures forall h :: ByCommand(old(View()), old(replies), p, h)
    {
      ghost var r := View();
      NextIsHandled(r, c, start, before);
      es := before + [HandleNext(c)];
      links := links[c := Popped(links[c])];
      LinkKeepsInv(r, c, links[c]);
      ForwardToApphost(p, c);
    }

    /** Closing a session: it is removed, then both peers are told and the process is asked to end. */
    method CloseRoute(s: SessionId, ghost start: Relay, ghost before: seq<RelayEvent>, ghost closed: Relay)
      returns (ghost es: seq<RelayEvent>)
      requires sessions.Valid() && RInv(closed) && Traces(start, before, closed)
      requires closed == View().(routes := RoutesOf(sessions.bySession) - {s})
      modifies this`log, this`replies, conns, sessions
      ensures Valid() && Traces(start, es, View()) && before <= es
      ensures Forwarded(closed.(routes := RoutesOf(old(sessions.bySession))), View(), MakePacket(CLOSE_SESSION, s))
      ensures sessions.View() == Sessions.Remove(old(sessions.View()), s)
      ensures replies == old(replies) + CloseReplies(old(sessions.View()), s)
    {
      var h := RemoveAndTell(s);
      es := TellApphostClosed(s, h, start, before, closed.(routes := RoutesOf(old(sessions.bySession))));
    }

    method RemoveAndTell(s: SessionId) returns (apphost: Handle)
      requires sessions.Valid()
      modifies this`replies, sessions
      ensures sessions.Valid() && sessions.View() == Sessions.Remove(old(sessions.View()), s)
      ensures RoutesOf(sessions.bySession) == RoutesOf(old(sessions.bySession)) - {s}
      ensures apphost == Sessions.FindRoute(old(sessions.View()), s).apphostConn
      ensures replies == old(replies) + CloseReplies(old(sessions.View()), s)
    {
      var route := sessions.Find(s);
      var ok, pid := sessions.GetPid(s);
      RoutesWithout(sessions.bySession, s);
      sessions.RemoveSession(s);
      TellClosed(s, route, pid);
      apphost := route.apphostConn;
    }

    /** The AppHost's message, if the session was bound. */
    method TellApphostClosed(s: SessionId, h: Handle, ghost start: Relay, ghost before: seq<RelayEvent>,
                             ghost was: Relay)
      returns (ghost es: seq<RelayEvent>)
      requires Valid() && Traces(start, before, View())
      requires was.net == conns.View() && if h != 0 then s in was.routes && was.routes[s] == h else s !in was.routes
      modifies this`log, conns
      ensures Valid() && Traces(start, es, View()) && before <= es
      ensures es == if h != 0 then before + [SendOwn(h, MakePacket(CLOSE_SESSION, s))] else before
      ensures Forwarded(was, View(), MakePacket(CLOSE_SESSION, s))
    {
      es := before;
      if h != 0 {
        var p := MakePacket(CLOSE_SESSION, s);
        var bytes := SerializePacket(p);
        TracesSnoc(start, before, View(), SendOwn(h, p));
        es := before + [SendOwn(h, p)];
        SendForwards(was, View(), h, Entry(Own, p));
        SendToApphost(h, bytes, Entry(Own, p));
      }
    }

    /** The client's message and the signal. */
    method TellClosed(s: SessionId, route: Sessions.Route, pid: int)
      modifies this`replies
      ensures replies == old(replies)
            + ((if route.clientConn != 0 then [ToClient(route.clientConn, MakePacket(CLOSE_SESSION, s))] else [])
                                         + (if pid > 0 then [Terminate(pid)] else []))
    {
      if route.clientConn != 0 {
        replies := replies + [ToClient(route.clientConn, MakePacket(CLOSE_SESSION, s))];
      }
      if pid > 0 {
        replies := replies + [Terminate(pid)];
      }
    }

    /** A whole receive callback, nothing else interleaved: feed, then handle packet by packet. It is a
        run of the steps above and leaves nothing to handle; the table and the replies are those of
        the packets it completes, one after the other. */
    method OnClientReceived(parser: MessageParser, data: seq<byte>, me: Sender, ghost c: LinkId)
      returns (ghost es: seq<RelayEvent>)
      requires Valid() && c in links && Parked(c, parser)
      modifies this, conns, sessions, parser
      ensures Valid() && c in links && Parked(c, parser) && links[c].received == old(links[c].received) + data
      ensures Traces(old(View()), es, View()) && [Receive(c, data)] <= es
      ensures var ps := Took(old(links[c]), data).todo;
        && sessions.View() == TableAfter(old(sessions.View()), ps, me)
        && replies == old(replies) + RepliesAfter(old(sessions.View()), ps, me)
    {
      ghost var start, e := View(), Receive(c, data);
      RStepKeepsInv(start, e);
      TracesSnoc(start, [], start, e);
      assert [] + [e] == [e];
      links := links[c := Took(links[c], data)];
      assert View() == RStep(start, e);
      ghost var left := parser.Backlog() + data;
      parser.Feed(data);
      es := DrainParser(parser, me, c, left, start, [e]);
    }

    /** What the callback knows about the packet it has just asked for. */
    ghost predicate InHand(r: ParseResult, parser: MessageParser, left: seq<byte>, l: Link, poisoned: bool)
      requires parser.Valid()
      reads parser
    {
      && (r == Error <==> parser.state == Poisoned)
      && (if poisoned then r == Error && l.todo == [] && !l.good else Draining(l, left))
      && (r.Ok? ==> GoodPacket(r.packet) && left == PacketBytes(r.packet) + parser.Backlog())
      && (r == Incomplete ==> parser.Stalled() && left == parser.Backlog())
      && (r == Error && !poisoned ==> Parse(left) == Parsed([], Malformed, left))
    }

    method DrainParser(parser: MessageParser, me: Sender, ghost c: LinkId, ghost stream: seq<byte>, ghost start: Relay,
                       ghost before: seq<RelayEvent>)
      returns (ghost es: seq<RelayEvent>)
      requires Valid() && parser.Valid() && c in links && Traces(start, before, View())
      requires parser.state == Poisoned ==> links[c].todo == [] && !links[c].good
      requires parser.state != Poisoned ==> parser.Backlog() == stream && Draining(links[c], stream)
      modifies this, conns, sessions, parser
      ensures Valid() && c in links && Parked(c, parser) && links[c].received == old(links[c].received)
      ensures Traces(start, es, View()) && before <= es
      ensures sessions.View() == TableAfter(old(sessions.View()), old(links[c].todo), me)
      ensures replies == old(replies) + RepliesAfter(old(sessions.View()), old(links[c].todo), me)
    {
      ghost var last, total :=
          TableAfter(sessions.View(), links[c].todo, me), replies + RepliesAfter(sessions.View(), links[c].todo, me);
      ghost var left, poisoned, received := stream, parser.state == Poisoned, links[c].received;
      es := before;
      var r := parser.NextPacket();
      while r.Ok?
        invariant Valid() && parser.Valid() && c in links && links[c].received == received
        invariant Traces(start, es, View()) && before <= es
        invariant InHand(r, parser, left, links[c], poisoned)
        invariant StillTo(sessions.View(), replies, links[c].todo, me, last, total)
        decreases |left|, r.Ok?
      {
        ghost var next := parser.Backlog();
        r, es := HandleAndNext(parser, r.packet, me, last, total, c, start, es);
        left := next;
      }
      InHandEnds(r, parser, left, links[c], poisoned);
      StillToEnd(sessions.View(), replies, me, last, total);
    }

    method HandleAndNext(parser: MessageParser, p: Packet, me: Sender, ghost last: Sessions.Table,
                         ghost total: seq<Reply>,
                         ghost c: LinkId, ghost start: Relay, ghost before: seq<RelayEvent>)
      returns (r: ParseResult, ghost es: seq<RelayEvent>)
      requires Valid() && parser.Valid() && c in links && Traces(start, before, View()) && parser.state != Poisoned
      requires GoodPacket(p) && Draining(links[c], PacketBytes(p) + parser.Backlog())
      requires StillTo(sessions.View(), replies, links[c].todo, me, last, total)
      modifies this, conns, sessions, parser
      ensures Valid() && parser.Valid() && c in links && links[c].received == old(links[c].received)
      ensures Traces(start, es, View()) && before <= es
      ensures InHand(r, parser, old(parser.Backlog()), links[c], false)
      ensures StillTo(sessions.View(), replies, links[c].todo, me, last, total)
    {
      es := HandleOne(p, me, last, total, parser.Backlog(), c, start, before);
      r := parser.NextPacket();
    }

    method HandleOne(p: Packet, me: Sender, ghost last: Sessions.Table, ghost total: seq<Reply>, ghost left: seq<byte>,
                     ghost c: LinkId, ghost start: Relay, ghost before: seq<RelayEvent>)
      returns (ghost es: seq<RelayEvent>)
      requires Valid() && c in links && Traces(start, before, View())
      requires GoodPacket(p) && Draining(links[c], PacketBytes(p) + left)
      requires StillTo(sessions.View(), replies, links[c].todo, me, last, total)
      modifies this, conns, sessions
      ensures Valid() && c in links && links[c].received == old(links[c].received) && Draining(links[c], left)
      ensures Traces(start, es, View()) && before <= es
      ensures StillTo(sessions.View(), replies, links[c].todo, me, last, total)
    {
      DrainingStep(links[c], p, left);
      StillToStep(sessions.View(), replies, links[c].todo, me, last, total);
      es := HandlePacket(p, me, c, start, before);
    }

    lemma InHandEnds(r: ParseResult, parser: MessageParser, left: seq<byte>, l: Link, poisoned: bool)
      requires parser.Valid() && InHand(r, parser, left, l, poisoned) && !r.Ok?
      ensures l.todo == [] && (l.good <==> parser.state != Poisoned) && (l.good ==> parser.Backlog() == l.rest)
    {
    }
  }
}
