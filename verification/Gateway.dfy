/** Gateway-wide lifecycle: connections, spawning, the APPHOST_READY handshake, teardown and the
    monitor. The value-level machine has one step per critical section or unsynchronised write, so
    its runs are all interleavings; the class runs each callback as the sequence of its steps. */
module Gateways {
  import opened Protocol
  import opened Sessions

  /** What a connection's callback is in the middle of.
      Created: the session exists but the connection does not know it yet.
      Launching: recorded, the AppHost process is being started.
      Bound: the session is bound to this AppHost connection, which does not know it yet.
      Leaving: unlinked from the active list, session not yet removed. */
  datatype Task = Idle | Created(id: SessionId) | Launching(id: SessionId) | Bound(id: SessionId) | Leaving

  datatype Peer = Peer(session: SessionId, task: Task)

  datatype Gw = Gw(table: Table, clients: map<Handle, Peer>, apphosts: map<Handle, Peer>)

  datatype Event =
    | ClientAccepted(h: Handle)
    | SpawnCreate(h: Handle, appName: string, pluginPath: string, now: Time, timeout: Time)
    | SpawnRecord(h: Handle, autoSpawn: bool)
    | SpawnPid(h: Handle, pid: int)
    | SpawnFailed(h: Handle)
    | ClientLeaves(h: Handle)
    | ClientGone(h: Handle)
    | ApphostAccepted(h: Handle)
    | ReadyBind(h: Handle, s: SessionId, now: Time)
    | ReadyRecord(h: Handle)
    | ApphostLeaves(h: Handle)
    | ApphostGone(h: Handle)
    | ClientSeen(s: SessionId, now: Time)
    | ApphostSeen(s: SessionId, now: Time)
    | FailBegin(s: SessionId)
    | SessionRemoved(s: SessionId)  // close_session by either side, and the end of fail_session

  predicate Doing(peers: map<Handle, Peer>, h: Handle, task: Task) {
    h in peers && peers[h].task == task
  }

  /** A client connection may create only when it has recorded no session and owns no live one. */
  ghost predicate MaySpawn(g: Gw, h: Handle) {
    && Doing(g.clients, h, Idle) && g.clients[h].session == 0
    && forall s :: Owns(g.table.recs, ClientField, h, s) ==>
        g.table.recs[s].state == Closing || g.table.recs[s].state == Dead
  }

  /** When a step can happen. Three guards are the environment's: the pool hands out handles no open
      connection has, it never runs two callbacks of one connection at once (the steps of a callback
      start at an Idle connection), and the OS hands out pids no session records. The rest is the code's. */
  ghost predicate Possible(g: Gw, e: Event) {
    match e
    case ClientAccepted(h) => h > 0 && h !in g.clients
    case SpawnCreate(h, _, _, _, _) => MaySpawn(g, h)
    case SpawnRecord(h, _) => h in g.clients && g.clients[h].task.Created?
    case SpawnPid(h, pid) => h in g.clients && g.clients[h].task.Launching?
        && FreeFor(g.table.recs, PidField, pid, g.clients[h].task.id)
    case SpawnFailed(h) => h in g.clients && g.clients[h].task.Launching?
    case ClientLeaves(h) => Doing(g.clients, h, Idle)
    case ClientGone(h) => Doing(g.clients, h, Leaving)
    case ApphostAccepted(h) => h > 0 && h !in g.apphosts
    case ReadyBind(h, _, _) => Doing(g.apphosts, h, Idle)
    case ReadyRecord(h) => h in g.apphosts && g.apphosts[h].task.Bound?
    case ApphostLeaves(h) => Doing(g.apphosts, h, Idle)
    case ApphostGone(h) => Doing(g.apphosts, h, Leaving)
    case _ => true
  }

  /** An AppHost connection sends one APPHOST_READY that binds. */
  predicate OneReady(g: Gw, e: Event) {
    e.ReadyBind? && e.h in g.apphosts ==> g.apphosts[e.h].session == 0 || !CanBind(g.table, e.s)
  }

  /** The 32-bit id counter has not come round: the next session does not get id 0, which a connection
      would record as having none. */
  predicate FewSessions(g: Gw, e: Event) {
    e.SpawnCreate? ==> g.table.created + 1 < ID_SPACE
  }

  ghost predicate Enabled(g: Gw, e: Event) {
    Possible(g, e) && OneReady(g, e) && FewSessions(g, e)
  }

  /** Removes the session a scan for the handle finds. */
  function RemoveOwner(t: Table, f: Field, h: Handle): Table {
    t.(recs := t.recs - (set s | s in t.recs && KeyOf(t.recs[s], f) == h))
  }

  function Step(g: Gw, e: Event): Gw
    requires Possible(g, e)
  {
    match e
    case ClientAccepted(h) => g.(clients := g.clients[h := Peer(0, Idle)])
    case SpawnCreate(h, appName, pluginPath, now, timeout) =>
      Gw(Create(g.table, h, appName, pluginPath, now, timeout),
         g.clients[h := Peer(0, Created(NextId(g.table)))], g.apphosts)
    case SpawnRecord(h, autoSpawn) =>
      var id := g.clients[h].task.id;
      g.(clients := g.clients[h := Peer(id, if autoSpawn then Launching(id) else Idle)])
    case SpawnPid(h, pid) =>
      var id := g.clients[h].task.id;
      g.(table := SetPid(g.table, id, pid), clients := g.clients[h := Peer(id, Idle)])
    case SpawnFailed(h) =>
      g.(table := Remove(g.table, g.clients[h].task.id), clients := g.clients[h := Peer(0, Idle)])
    case ClientLeaves(h) => g.(clients := g.clients[h := g.clients[h].(task := Leaving)])
    case ClientGone(h) =>
      var s := g.clients[h].session;
      g.(table := if s != 0 then Remove(g.table, s) else RemoveOwner(g.table, ClientField, h),
         clients := g.clients - {h})
    case ApphostAccepted(h) => g.(apphosts := g.apphosts[h := Peer(0, Idle)])
    case ReadyBind(h, s, now) =>
      if CanBind(g.table, s)
      then g.(table := Bind(g.table, s, h, now), apphosts := g.apphosts[h := g.apphosts[h].(task := Bound(s))])
      else g
    case ReadyRecord(h) => g.(apphosts := g.apphosts[h := Peer(g.apphosts[h].task.id, Idle)])
    case ApphostLeaves(h) => g.(apphosts := g.apphosts[h := g.apphosts[h].(task := Leaving)])
    case ApphostGone(h) =>
      var s := g.apphosts[h].session;
      g.(table := if s != 0 then Remove(g.table, s) else RemoveOwner(g.table, ApphostField, h),
         apphosts := g.apphosts - {h})
    case ClientSeen(s, now) => g.(table := MarkClient(g.table, s, now))
    case ApphostSeen(s, now) => g.(table := MarkApphost(g.table, s, now))
    case FailBegin(s) => g.(table := ToClosing(g.table, s))
    case SessionRemoved(s) => g.(table := Remove(g.table, s))
  }

  /// The invariant
  /// -------------

  /** The peer at a session's handle is a connection that has recorded the session, or is just about to. */
  predicate Knows(peers: map<Handle, Peer>, h: Handle, s: SessionId) {
    h in peers && (peers[h].session == s || peers[h].task == Created(s) || peers[h].task == Bound(s))
  }

  ghost predicate PeersOk(peers: map<Handle, Peer>, created: nat) {
    forall h :: h in peers ==>
      && h > 0
      && peers[h].session <= created
      && (peers[h].task.Created? ==> peers[h].session == 0 && 1 <= peers[h].task.id <= created)
      && (peers[h].task.Bound? ==> peers[h].session == 0 && 1 <= peers[h].task.id <= created)
      && (peers[h].task.Launching? ==> peers[h].session == peers[h].task.id)
  }

  ghost predicate Known(recs: map<SessionId, Runtime>, f: Field, peers: map<Handle, Peer>) {
    forall s :: s in recs && KeyOf(recs[s], f) != 0 ==> KeyOf(recs[s], f) > 0 && Knows(peers, KeyOf(recs[s], f), s)
  }

  ghost predicate PidsDistinct(recs: map<SessionId, Runtime>) {
    forall s, o :: s in recs && o in recs && recs[s].apphostPid == recs[o].apphostPid > 0 ==> s == o
  }

  ghost predicate TableOk(t: Table) {
    Sane(t) && Issued(t) && PidsDistinct(t.recs) && forall s :: s in t.recs ==> t.recs[s].clientConn > 0
  }

  ghost predicate Inv(g: Gw) {
    && TableOk(g.table)
    && PeersOk(g.clients, g.table.created) && PeersOk(g.apphosts, g.table.created)
    && Known(g.table.recs, ClientField, g.clients)
    && Known(g.table.recs, ApphostField, g.apphosts)
  }

  /** A connection that has recorded no session, and is not about to, owns none. */
  lemma NoSessionOwnsNothing(g: Gw, f: Field, peers: map<Handle, Peer>, h: Handle)
    requires Issued(g.table) && Known(g.table.recs, f, peers)
    requires h in peers && h > 0 && peers[h].session == 0 && !peers[h].task.Created? && !peers[h].task.Bound?
    ensures forall s :: !Owns(g.table.recs, f, h, s)
  {
  }

  /** Two sessions never share a client handle, nor an AppHost handle, nor a pid: a packet stamped
      with one session's id is only ever routed to that session's own peers. */
  lemma RoutesAreDisjoint(g: Gw, s: SessionId, o: SessionId)
    requires Inv(g) && s in g.table.recs && o in g.table.recs && s != o
    ensures FindRoute(g.table, s).clientConn != FindRoute(g.table, o).clientConn
    ensures FindRoute(g.table, s).apphostConn != 0 ==>
          FindRoute(g.table, s).apphostConn != FindRoute(g.table, o).apphostConn
    ensures g.table.recs[s].apphostPid > 0 ==> g.table.recs[s].apphostPid != g.table.recs[o].apphostPid
  {
    var c, a := FindRoute(g.table, s).clientConn, FindRoute(g.table, s).apphostConn;
    assert Knows(g.clients, c, s) && s >= 1 && o >= 1;
    assert KeyOf(g.table.recs[o], ClientField) == c ==> Knows(g.clients, c, o);
    assert a != 0 && KeyOf(g.table.recs[o], ApphostField) == a ==> Knows(g.apphosts, a, o) && Knows(g.apphosts, a, s);
    assert KeyOf(g.table.recs[s], ApphostField) == a;
    assert KeyOf(g.table.recs[s], ClientField) == c;
  }

  /** The preconditions under which the session table's indexes stay exact. */
  ghost predicate CallsAreFresh(g: Gw, e: Event) {
    match e
    case SpawnCreate(h, _, _, _, _) =>
      h > 0 && NextId(g.table) !in g.table.recs && FreeFor(g.table.recs, ClientField, h, NextId(g.table))
    case ReadyBind(h, s, _) => !CanBind(g.table, s) || (h > 0 && FreeFor(g.table.recs, ApphostField, h, s))
    case _ => true
  }

  /** Every call site meets them: a session is always created on a client handle that owns none, and
      bound to an AppHost handle that owns none. */
  lemma CallSitesAreFresh(g: Gw, e: Event)
    requires Inv(g) && Enabled(g, e)
    ensures CallsAreFresh(g, e)
  {
    match e
    case SpawnCreate(h, _, _, _, _) => NoSessionOwnsNothing(g, ClientField, g.clients, h);
    case ReadyBind(h, s, _) =>
      if CanBind(g.table, s) {
        NoSessionOwnsNothing(g, ApphostField, g.apphosts, h);
      }
    case _ =>
  }

  lemma CreateTableOk(t: Table, h: Handle, appName: string, pluginPath: string, now: Time, timeout: Time)
    requires TableOk(t) && h > 0 && t.created + 1 < ID_SPACE
    ensures TableOk(Create(t, h, appName, pluginPath, now, timeout)) && NextId(t) == t.created + 1
  {
  }

  /** A new record's client is the one about to record it. */
  lemma CreateKeepsKnown(t: Table, peers: map<Handle, Peer>, h: Handle, rt: Runtime, id: SessionId)
    requires Known(t.recs, ClientField, peers) && h > 0 && rt.clientConn == h
    requires forall s :: !Owns(t.recs, ClientField, h, s)
    ensures Known(t.recs[id := rt], ClientField, peers[h := Peer(0, Created(id))])
  {
    forall s | s in t.recs && s != id && KeyOf(t.recs[s], ClientField) != 0
      ensures KeyOf(t.recs[s], ClientField) > 0
            && Knows(peers[h := Peer(0, Created(id))], KeyOf(t.recs[s], ClientField), s)
    {
      assert !Owns(t.recs, ClientField, h, s);
    }
  }

  lemma UnboundKeepsKnown(recs: map<SessionId, Runtime>, peers: map<Handle, Peer>, rt: Runtime, id: SessionId)
    requires Known(recs, ApphostField, peers) && rt.apphostConn == 0
    ensures Known(recs[id := rt], ApphostField, peers)
  {
  }

  lemma PeersKept(peers: map<Handle, Peer>, created: nat, created': nat, h: Handle, p: Peer)
    requires PeersOk(peers, created) && created <= created' && h > 0
    requires p.session <= created'
    requires p.task.Created? || p.task.Bound? ==> p.session == 0 && 1 <= p.task.id <= created'
    requires p.task.Launching? ==> p.session == p.task.id
    ensures PeersOk(peers, created') && PeersOk(peers[h := p], created')
  {
  }

  lemma CreateKeepsInv(g: Gw, h: Handle, appName: string, pluginPath: string, now: Time, timeout: Time)
    requires Inv(g) && Enabled(g, SpawnCreate(h, appName, pluginPath, now, timeout))
    ensures Inv(Step(g, SpawnCreate(h, appName, pluginPath, now, timeout)))
  {
    var t := g.table;
    var id, t' := NextId(t), Create(t, h, appName, pluginPath, now, timeout);
    NoSessionOwnsNothing(g, ClientField, g.clients, h);
    CreateTableOk(t, h, appName, pluginPath, now, timeout);
    CreateKeepsKnown(t, g.clients, h, t'.recs[id], id);
    UnboundKeepsKnown(t.recs, g.apphosts, t'.recs[id], id);
    PeersKept(g.clients, t.created, t'.created, h, Peer(0, Created(id)));
    PeersGrow(g.apphosts, t.created, t'.created);
  }

  lemma PeersGrow(peers: map<Handle, Peer>, created: nat, created': nat)
    requires PeersOk(peers, created) && created <= created'
    ensures PeersOk(peers, created')
  {
  }

  lemma BindTableOk(t: Table, h: Handle, s: SessionId, now: Time)
    requires TableOk(t) && h > 0
    ensures TableOk(Bind(t, s, h, now)) && Bind(t, s, h, now).created == t.created
  {
    if CanBind(t, s) {
      KeysKeepPids(t.recs, Bind(t, s, h, now).recs);
    }
  }

  lemma KeysKeepPids(recs: map<SessionId, Runtime>, recs': map<SessionId, Runtime>)
    requires PidsDistinct(recs) && forall s :: s in recs' ==> s in recs && recs'[s].apphostPid == recs[s].apphostPid
    ensures PidsDistinct(recs')
  {
  }

  lemma BindKeepsKnown(recs: map<SessionId, Runtime>, peers: map<Handle, Peer>, h: Handle, rt: Runtime, s: SessionId)
    requires Known(recs, ApphostField, peers) && h > 0 && h in peers && rt.apphostConn == h
    requires forall o :: !Owns(recs, ApphostField, h, o)
    ensures Known(recs[s := rt], ApphostField, peers[h := peers[h].(task := Bound(s))])
  {
    forall o | o in recs && o != s && KeyOf(recs[o], ApphostField) != 0
      ensures KeyOf(recs[o], ApphostField) > 0
            && Knows(peers[h := peers[h].(task := Bound(s))], KeyOf(recs[o], ApphostField), o)
    {
      assert !Owns(recs, ApphostField, h, o);
    }
  }

  lemma BindKeepsInv(g: Gw, h: Handle, s: SessionId, now: Time)
    requires Inv(g) && Enabled(g, ReadyBind(h, s, now))
    ensures Inv(Step(g, ReadyBind(h, s, now)))
  {
    if CanBind(g.table, s) {
      var t' := Bind(g.table, s, h, now);
      NoSessionOwnsNothing(g, ApphostField, g.apphosts, h);
      BindTableOk(g.table, h, s, now);
      BindKeepsKnown(g.table.recs, g.apphosts, h, t'.recs[s], s);
      KeysKeepKnown(g.table.recs, t'.recs, ClientField, g.clients);
      PeersKept(g.apphosts, g.table.created, g.table.created, h, g.apphosts[h].(task := Bound(s)));
    }
  }

  lemma PidStaysDistinct(t: Table, s: SessionId, pid: int)
    requires PidsDistinct(t.recs) && s in t.recs && FreeFor(t.recs, PidField, pid, s)
    ensures PidsDistinct(SetPid(t, s, pid).recs)
  {
    var recs := SetPid(t, s, pid).recs;
    forall p, o | p in recs && o in recs && recs[p].apphostPid == recs[o].apphostPid > 0 ensures p == o {
      assert p == s && o != s ==> Owns(t.recs, PidField, pid, o);
      assert o == s && p != s ==> Owns(t.recs, PidField, pid, p);
    }
  }

  lemma PidTableKeepsInv(g: Gw, s: SessionId, pid: int)
    requires Inv(g) && s in g.table.recs && FreeFor(g.table.recs, PidField, pid, s)
    ensures Inv(g.(table := SetPid(g.table, s, pid)))
  {
    var recs := SetPid(g.table, s, pid).recs;
    PidStaysDistinct(g.table, s, pid);
    KeysKeepKnown(g.table.recs, recs, ClientField, g.clients);
    KeysKeepKnown(g.table.recs, recs, ApphostField, g.apphosts);
  }

  lemma KeysKeepKnown(recs: map<SessionId, Runtime>, t: map<SessionId, Runtime>, f: Field, peers: map<Handle, Peer>)
    requires Known(recs, f, peers)
    requires forall s :: s in t ==> s in recs && KeyOf(t[s], f) == KeyOf(recs[s], f)
    ensures Known(t, f, peers)
  {
  }

  lemma PidKeepsInv(g: Gw, h: Handle, pid: int)
    requires Inv(g) && Enabled(g, SpawnPid(h, pid))
    ensures Inv(Step(g, SpawnPid(h, pid)))
  {
    var id := g.clients[h].task.id;
    if id in g.table.recs {
      PidTableKeepsInv(g, id, pid);
    }
    var g' := g.(table := SetPid(g.table, id, pid));
    ClientPeerKeepsInv(g', h, Peer(id, Idle));
  }

  /** Removing sessions keeps the invariant. */
  lemma FewerKeepsInv(g: Gw, t: Table)
    requires Inv(g) && t.created == g.table.created
    requires forall s :: s in t.recs ==> s in g.table.recs && t.recs[s] == g.table.recs[s]
    ensures Inv(g.(table := t))
  {
  }

  /** A record update that touches neither handles nor pid keeps the invariant. */
  lemma TouchKeepsInv(g: Gw, s: SessionId, rt: Runtime)
    requires Inv(g) && s in g.table.recs
    requires var r := g.table.recs[s];
      rt == r.(state := rt.state, lastClientSeen := rt.lastClientSeen, lastApphostSeen := rt.lastApphostSeen)
      && (rt.state == r.state || rt.state == Closing)
    ensures Inv(g.(table := g.table.(recs := g.table.recs[s := rt])))
  {
  }

  /** When a connection goes, the sessions that remain do not point at it. */
  lemma GoneKeepsKnown(recs: map<SessionId, Runtime>, f: Field, peers: map<Handle, Peer>, h: Handle,
                       t: map<SessionId, Runtime>)
    requires Known(recs, f, peers) && h in peers
    requires forall s :: s in t ==> s in recs && t[s] == recs[s]
    requires forall s :: s in t ==> KeyOf(t[s], f) != h
    ensures Known(t, f, peers - {h})
  {
  }

  lemma ClientGoneKeepsInv(g: Gw, h: Handle)
    requires Inv(g) && Enabled(g, ClientGone(h))
    ensures Inv(Step(g, ClientGone(h)))
  {
    var g' := Step(g, ClientGone(h));
    FewerKeepsInv(g, g'.table);
    forall s | s in g'.table.recs ensures KeyOf(g'.table.recs[s], ClientField) != h {
      assert KeyOf(g.table.recs[s], ClientField) == h ==> Knows(g.clients, h, s);
    }
    GoneKeepsKnown(g.table.recs, ClientField, g.clients, h, g'.table.recs);
  }

  lemma ApphostGoneKeepsInv(g: Gw, h: Handle)
    requires Inv(g) && Enabled(g, ApphostGone(h))
    ensures Inv(Step(g, ApphostGone(h)))
  {
    var g' := Step(g, ApphostGone(h));
    FewerKeepsInv(g, g'.table);
    forall s | s in g'.table.recs ensures KeyOf(g'.table.recs[s], ApphostField) != h {
      assert KeyOf(g.table.recs[s], ApphostField) == h ==> Knows(g.apphosts, h, s);
    }
    GoneKeepsKnown(g.table.recs, ApphostField, g.apphosts, h, g'.table.recs);
  }

  /** A peer whose session is unchanged, or becomes the one it was about to record, is still known. */
  lemma PeerKeepsKnown(recs: map<SessionId, Runtime>, f: Field, peers: map<Handle, Peer>, h: Handle, p: Peer)
    requires Known(recs, f, peers)
    requires h in peers ==> forall s :: Knows(peers, h, s) ==>
          p.session == s || p.task == Created(s) || p.task == Bound(s) || s !in recs
    ensures Known(recs, f, peers[h := p])
  {
    forall s | s in recs && KeyOf(recs[s], f) != 0 ensures Knows(peers[h := p], KeyOf(recs[s], f), s) {
      assert Knows(peers, KeyOf(recs[s], f), s);
    }
  }

  /** A client connection's own record changes, and still knows what its sessions need it to know. */
  lemma ClientPeerKeepsInv(g: Gw, h: Handle, p: Peer)
    requires Inv(g) && h > 0 && p.session <= g.table.created && !p.task.Created? && !p.task.Bound?
    requires p.task.Launching? ==> p.session == p.task.id
    requires h in g.clients ==> forall s :: Knows(g.clients, h, s) ==> p.session == s || s !in g.table.recs
    ensures Inv(g.(clients := g.clients[h := p]))
  {
    PeersKept(g.clients, g.table.created, g.table.created, h, p);
    PeerKeepsKnown(g.table.recs, ClientField, g.clients, h, p);
  }

  lemma ClientStepKeepsInv(g: Gw, e: Event)
    requires Inv(g) && Enabled(g, e)
    requires e.ClientAccepted? || e.SpawnRecord? || e.SpawnFailed? || e.ClientLeaves?
    ensures Inv(Step(g, e))
  {
    var g' := Step(g, e);
    if e.SpawnFailed? {
      FewerKeepsInv(g, g'.table);
    }
    ClientPeerKeepsInv(g.(table := g'.table), e.h, g'.clients[e.h]);
  }

  lemma ApphostStepKeepsInv(g: Gw, e: Event)
    requires Inv(g) && Enabled(g, e)
    requires e.ApphostAccepted? || e.ReadyRecord? || e.ApphostLeaves?
    ensures Inv(Step(g, e))
  {
    PeerKeepsKnown(g.table.recs, ApphostField, g.apphosts, e.h, Step(g, e).apphosts[e.h]);
  }

  lemma StepKeepsInv(g: Gw, e: Event)
    requires Inv(g) && Enabled(g, e)
    ensures Inv(Step(g, e))
  {
    match e
    case SpawnCreate(h, a, p, now, timeout) => CreateKeepsInv(g, h, a, p, now, timeout);
    case SpawnPid(h, pid) => PidKeepsInv(g, h, pid);
    case ClientGone(h) => ClientGoneKeepsInv(g, h);
    case ReadyBind(h, s, now) => BindKeepsInv(g, h, s, now);
    case ApphostGone(h) => ApphostGoneKeepsInv(g, h);
    case ClientSeen(s, now) =>
      if s in g.table.recs {
        TouchKeepsInv(g, s, g.table.recs[s].(lastClientSeen := now));
      }
    case ApphostSeen(s, now) =>
      if s in g.table.recs {
        TouchKeepsInv(g, s, g.table.recs[s].(lastApphostSeen := now));
      }
    case FailBegin(s) => if CanClose(g.table, s) { TouchKeepsInv(g, s, g.table.recs[s].(state := Closing)); }
    case SessionRemoved(s) => FewerKeepsInv(g, Remove(g.table, s));
    case ClientAccepted(_) => ClientStepKeepsInv(g, e);
    case SpawnRecord(_, _) => ClientStepKeepsInv(g, e);
    case SpawnFailed(_) => ClientStepKeepsInv(g, e);
    case ClientLeaves(_) => ClientStepKeepsInv(g, e);
    case ApphostAccepted(_) => ApphostStepKeepsInv(g, e);
    case ReadyRecord(_) => ApphostStepKeepsInv(g, e);
    case ApphostLeaves(_) => ApphostStepKeepsInv(g, e);
  }

  ghost predicate ValidRun(g: Gw, es: seq<Event>)
    decreases |es|
  {
    es == [] || (Enabled(g, es[0]) && ValidRun(Step(g, es[0]), es[1..]))
  }

  ghost function Run(g: Gw, es: seq<Event>): Gw
    requires ValidRun(g, es)
    decreases |es|
  {
    if es == [] then g else Run(Step(g, es[0]), es[1..])
  }

  const INIT: Gw := Gw(Table(0, map[]), map[], map[])

  /** Under every interleaving of callbacks and monitor steps the invariant holds. */
  lemma {:induction false} InvHoldsInEveryRun(g: Gw, es: seq<Event>)
    requires Inv(g) && ValidRun(g, es)
    ensures Inv(Run(g, es))
    decreases |es|
  {
    if es != [] {
      StepKeepsInv(g, es[0]);
      InvHoldsInEveryRun(Step(g, es[0]), es[1..]);
    }
  }

  /** In a reachable state a session's client handle is an open client connection that has recorded
      that very session or is about to, and owns no other. */
  lemma ReachableSessionsAreOwned(es: seq<Event>, s: SessionId)
    requires ValidRun(INIT, es) && s in Run(INIT, es).table.recs
    ensures var g := Run(INIT, es); var c := g.table.recs[s].clientConn;
      && Knows(g.clients, c, s) && FreeFor(g.table.recs, ClientField, c, s)
      && (g.table.recs[s].apphostConn != 0 ==>
            Knows(g.apphosts, g.table.recs[s].apphostConn, s)
                && FreeFor(g.table.recs, ApphostField, g.table.recs[s].apphostConn, s))
  {
    InvHoldsInEveryRun(INIT, es);
    var g := Run(INIT, es);
    forall o | o in g.table.recs && o != s
      ensures !Owns(g.table.recs, ClientField, g.table.recs[s].clientConn, o)
      ensures g.table.recs[s].apphostConn != 0 ==> !Owns(g.table.recs, ApphostField, g.table.recs[s].apphostConn, o)
    {
      RoutesAreDisjoint(g, s, o);
    }
    assert KeyOf(g.table.recs[s], ClientField) == g.table.recs[s].clientConn;
    assert KeyOf(g.table.recs[s], ApphostField) == g.table.recs[s].apphostConn;
  }

  ghost predicate ApphostsDisjoint(t: Table) {
    forall s, o :: s in t.recs && o in t.recs && t.recs[s].apphostConn == t.recs[o].apphostConn != 0 ==> s == o
  }

  /** The connection has recorded another session, which is still bound to it. */
  predicate BoundElsewhere(g: Gw, h: Handle, s: SessionId)
    requires h in g.apphosts
  {
    var o := g.apphosts[h].session;
    o != s && o in g.table.recs && g.table.recs[o].apphostConn == h
  }

  lemma BoundElsewhereExact(g: Gw, h: Handle, s: SessionId)
    requires Inv(g) && Doing(g.apphosts, h, Idle)
    ensures FreeFor(g.table.recs, ApphostField, h, s) <==> !BoundElsewhere(g, h, s)
  {
    var o := g.apphosts[h].session;
    forall x | Owns(g.table.recs, ApphostField, h, x) ensures x == o {
      assert Knows(g.apphosts, h, x);
    }
    if BoundElsewhere(g, h, s) {
      assert Owns(g.table.recs, ApphostField, h, o);
    }
  }

  lemma BindSharesExact(t: Table, h: Handle, s: SessionId, now: Time)
    requires ApphostsDisjoint(t) && CanBind(t, s) && h > 0
    ensures ApphostsDisjoint(Bind(t, s, h, now)) <==> FreeFor(t.recs, ApphostField, h, s)
  {
    var u := Bind(t, s, h, now);
    assert u.recs[s].apphostConn == h;
    if ApphostsDisjoint(u) {
      forall o | Owns(t.recs, ApphostField, h, o) ensures o == s {
        assert u.recs[o].apphostConn == h;
      }
    }
    if FreeFor(t.recs, ApphostField, h, s) {
      forall p, o | p in u.recs && o in u.recs && u.recs[p].apphostConn == u.recs[o].apphostConn != 0 ensures p == o {
        assert p != s && o == s ==> Owns(t.recs, ApphostField, h, p);
        assert o != s && p == s ==> Owns(t.recs, ApphostField, h, o);
      }
    }
  }

  /** Any READY, the first or not: it leaves two sessions on one AppHost handle if and only if it binds
      and its connection has recorded another session that is still bound to it. */
  lemma ReadyExact(g: Gw, h: Handle, s: SessionId, now: Time)
    requires Inv(g) && Possible(g, ReadyBind(h, s, now))
    ensures ApphostsDisjoint(Step(g, ReadyBind(h, s, now)).table) <==> !(CanBind(g.table, s) && BoundElsewhere(g, h, s))
  {
    ApphostsAreDisjoint(g);
    BoundElsewhereExact(g, h, s);
    if CanBind(g.table, s) {
      BindSharesExact(g.table, h, s, now);
    }
  }

  lemma ApphostsAreDisjoint(g: Gw)
    requires Inv(g)
    ensures ApphostsDisjoint(g.table)
  {
    forall p, o | p in g.table.recs && o in g.table.recs
        && g.table.recs[p].apphostConn == g.table.recs[o].apphostConn != 0 ensures p == o {
      if p != o {
        RoutesAreDisjoint(g, p, o);
      }
    }
  }

  /// The indexes over runs
  /// ---------------------

  /** What the step's calls into the session table do to its three indexes. */
  function IndexStep(g: Gw, ix: Indexes, e: Event): Indexes {
    match e
    case SpawnCreate(h, _, _, _, _) => IndexCreate(ix, h, NextId(g.table))
    case SpawnPid(h, pid) => if h in g.clients && g.clients[h].task.Launching?
        then IndexPid(ix, g.table, g.clients[h].task.id, pid) else ix
    case SpawnFailed(h) => if h in g.clients && g.clients[h].task.Launching?
        then IndexRemove(ix, g.table, g.clients[h].task.id) else ix
    case ClientGone(h) =>
      if h !in g.clients then ix
      else if g.clients[h].session != 0 then IndexRemove(ix, g.table, g.clients[h].session)
      else IndexRemoveClient(ix, g.table, h)
    case ReadyBind(h, s, _) => IndexBind(ix, g.table, s, h)
    case ApphostGone(h) =>
      if h !in g.apphosts then ix
      else if g.apphosts[h].session != 0 then IndexRemove(ix, g.table, g.apphosts[h].session)
      else IndexRemoveApphost(ix, g.table, h)
    case SessionRemoved(s) => IndexRemove(ix, g.table, s)
    case _ => ix
  }

  lemma ClientGoneExact(g: Gw, ix: Indexes, h: Handle)
    requires Inv(g) && Enabled(g, ClientGone(h)) && AllExact(ix, g.table.recs)
    ensures AllExact(IndexStep(g, ix, ClientGone(h)), Step(g, ClientGone(h)).table.recs)
  {
    if g.clients[h].session != 0 {
      RemovalExact(ix, g.table, g.clients[h].session);
    } else {
      NoSessionOwnsNothing(g, ClientField, g.clients, h);
      UnownedRemoval(ix, g.table, h);
      assert RemoveOwner(g.table, ClientField, h).recs == g.table.recs;
    }
  }

  lemma ApphostGoneExact(g: Gw, ix: Indexes, h: Handle)
    requires Inv(g) && Enabled(g, ApphostGone(h)) && AllExact(ix, g.table.recs)
    ensures AllExact(IndexStep(g, ix, ApphostGone(h)), Step(g, ApphostGone(h)).table.recs)
  {
    if g.apphosts[h].session != 0 {
      RemovalExact(ix, g.table, g.apphosts[h].session);
    } else {
      NoSessionOwnsNothing(g, ApphostField, g.apphosts, h);
      UnownedRemoval(ix, g.table, h);
      assert RemoveOwner(g.table, ApphostField, h).recs == g.table.recs;
    }
  }

  lemma TouchExact(ix: Indexes, recs: map<SessionId, Runtime>, s: SessionId, rt: Runtime)
    requires AllExact(ix, recs) && s in recs && forall f :: KeyOf(rt, f) == KeyOf(recs[s], f)
    ensures AllExact(ix, recs[s := rt])
  {
    TouchKeepsIndexed(ix.byClient, ix.byApphost, ix.byPid, recs, s, rt);
  }

  lemma IndexStepExact(g: Gw, ix: Indexes, e: Event)
    requires Inv(g) && Enabled(g, e) && AllExact(ix, g.table.recs)
    ensures AllExact(IndexStep(g, ix, e), Step(g, e).table.recs)
  {
    match e
    case SpawnCreate(h, a, p, now, timeout) =>
      CallSitesAreFresh(g, e);
      CreateExact(ix, g.table, h, a, p, now, timeout);
    case SpawnPid(h, pid) => PidExact(ix, g.table, g.clients[h].task.id, pid);
    case SpawnFailed(h) => RemovalExact(ix, g.table, g.clients[h].task.id);
    case ClientGone(h) => ClientGoneExact(g, ix, h);
    case ReadyBind(h, s, now) =>
      CallSitesAreFresh(g, e);
      BindExact(ix, g.table, s, h, now);
    case ApphostGone(h) => ApphostGoneExact(g, ix, h);
    case ClientSeen(s, now) =>
      if s in g.table.recs {
        TouchExact(ix, g.table.recs, s, g.table.recs[s].(lastClientSeen := now));
      }
    case ApphostSeen(s, now) =>
      if s in g.table.recs {
        TouchExact(ix, g.table.recs, s, g.table.recs[s].(lastApphostSeen := now));
      }
    case FailBegin(s) =>
      if CanClose(g.table, s) {
        TouchExact(ix, g.table.recs, s, g.table.recs[s].(state := Closing));
      }
    case SessionRemoved(s) => RemovalExact(ix, g.table, s);
    case _ =>
  }

  ghost function IndexRun(g: Gw, ix: Indexes, es: seq<Event>): Indexes
    requires ValidRun(g, es)
    decreases |es|
  {
    if es == [] then ix else IndexRun(Step(g, es[0]), IndexStep(g, ix, es[0]), es[1..])
  }

  /** In every reachable state of every interleaving the three indexes are exact inverses of the records. */
  lemma {:induction false} IndexesStayExact(g: Gw, ix: Indexes, es: seq<Event>)
    requires Inv(g) && ValidRun(g, es) && AllExact(ix, g.table.recs)
    ensures AllExact(IndexRun(g, ix, es), Run(g, es).table.recs)
    decreases |es|
  {
    if es != [] {
      IndexStepExact(g, ix, es[0]);
      StepKeepsInv(g, es[0]);
      IndexesStayExact(Step(g, es[0]), IndexStep(g, ix, es[0]), es[1..]);
    }
  }

  lemma ReachableIndexesAreExact(es: seq<Event>)
    requires ValidRun(INIT, es)
    ensures AllExact(IndexRun(INIT, Indexes(map[], map[], map[]), es), Run(INIT, es).table.recs)
  {
    IndexesStayExact(INIT, Indexes(map[], map[], map[]), es);
  }

  /// A second READY
  /// --------------

  /** The events lead from `g` to `g'`, each possible in turn; nothing is assumed about READYs. */
  ghost predicate Reaches(g: Gw, es: seq<Event>, g': Gw)
    decreases |es|
  {
    if es == [] then g == g' else Possible(g, es[0]) && Reaches(Step(g, es[0]), es[1..], g')
  }

  lemma {:induction false} ReachesSnoc(g: Gw, es: seq<Event>, g': Gw, e: Event)
    requires Reaches(g, es, g') && Possible(g', e)
    ensures Reaches(g, es + [e], Step(g', e))
    decreases |es|
  {
    if es == [] {
      assert [e][1..] == [] && es + [e] == [e];
    } else {
      ReachesSnoc(Step(g, es[0]), es[1..], g', e);
      assert (es + [e])[1..] == es[1..] + [e];
    }
  }

  lemma ReachesTwo(g: Gw, e: Event, f: Event)
    requires Possible(g, e) && Possible(Step(g, e), f)
    ensures Reaches(g, [e, f], Step(Step(g, e), f))
  {
    ReachesSnoc(g, [], g, e);
    ReachesSnoc(g, [] + [e], Step(g, e), f);
    assert [] + [e] + [f] == [e, f];
  }

  lemma BindAndRecord(start: Gw, before: seq<Event>, g: Gw, h: Handle, s: SessionId, now: Time)
    returns (es: seq<Event>, g': Gw)
    requires Reaches(start, before, g) && Doing(g.apphosts, h, Idle) && CanBind(g.table, s)
    ensures Reaches(start, es, g')
    ensures g' == Gw(Bind(g.table, s, h, now), g.clients, g.apphosts[h := Peer(s, Idle)])
  {
    var mid := Step(g, ReadyBind(h, s, now));
    ReachesSnoc(start, before, g, ReadyBind(h, s, now));
    ReachesSnoc(start, before + [ReadyBind(h, s, now)], mid, ReadyRecord(h));
    es, g' := before + [ReadyBind(h, s, now)] + [ReadyRecord(h)], Step(mid, ReadyRecord(h));
    assert g'.apphosts == g.apphosts[h := Peer(s, Idle)];
  }

  /** Two READYs on one connection put both sessions on its handle, but the connection remembers only the
      second. When it goes, the first keeps the dead handle; the next AppHost connection the pool gives
      that handle to then receives the first session's frames, though it has bound nothing. */
  lemma SecondReady(start: Gw, before: seq<Event>, g: Gw, h: Handle, s: SessionId, o: SessionId, now: Time)
    returns (both: seq<Event>, shared: Gw, later: seq<Event>, stray: Gw)
    requires Reaches(start, before, g) && h > 0 && Doing(g.apphosts, h, Idle)
    requires s != o && o != 0 && CanBind(g.table, s) && CanBind(g.table, o)
    ensures Reaches(start, both, shared) && s in shared.table.recs && o in shared.table.recs
    ensures shared.table.recs[s].apphostConn == shared.table.recs[o].apphostConn == h
    ensures h in shared.apphosts && shared.apphosts[h] == Peer(o, Idle)
    ensures Reaches(start, later, stray) && h in stray.apphosts && stray.apphosts[h] == Peer(0, Idle)
    ensures o !in stray.table.recs && s in stray.table.recs && FindRoute(stray.table, s).apphostConn == h
  {
    var es, g1 := BindAndRecord(start, before, g, h, s, now);
    both, shared := BindAndRecord(start, es, g1, h, o, now);
    later, stray := Reconnect(start, both, shared, h, o);
  }

  /** The connection goes, taking the session it has recorded with it, and its handle is given out again. */
  lemma Reconnect(start: Gw, before: seq<Event>, g: Gw, h: Handle, o: SessionId) returns (es: seq<Event>, g': Gw)
    requires Reaches(start, before, g) && h > 0 && h in g.apphosts && g.apphosts[h] == Peer(o, Idle) && o != 0
    ensures Reaches(start, es, g') && h in g'.apphosts && g'.apphosts[h] == Peer(0, Idle)
          && g'.table == Remove(g.table, o)
  {
    var g1 := Step(g, ApphostLeaves(h));
    var g2 := Step(g1, ApphostGone(h));
    ReachesThree(start, before, g, ApphostLeaves(h), ApphostGone(h), ApphostAccepted(h));
    es, g' := before + [ApphostLeaves(h)] + [ApphostGone(h)] + [ApphostAccepted(h)], Step(g2, ApphostAccepted(h));
  }

  lemma ReachesThree(start: Gw, before: seq<Event>, g: Gw, e: Event, f: Event, k: Event)
    requires Reaches(start, before, g) && Possible(g, e) && Possible(Step(g, e), f) && Possible(Step(Step(g, e), f), k)
    ensures Reaches(start, before + [e] + [f] + [k], Step(Step(Step(g, e), f), k))
  {
    ReachesSnoc(start, before, g, e);
    ReachesSnoc(start, before + [e], Step(g, e), f);
    ReachesSnoc(start, before + [e] + [f], Step(Step(g, e), f), k);
  }

  /** A client connects and is given a session to be bound by hand. */
  lemma ManualSession(start: Gw, before: seq<Event>, g: Gw, h: Handle) returns (es: seq<Event>, g': Gw)
    requires Reaches(start, before, g) && Inv(g) && h > 0 && h !in g.clients && g.table.created + 1 < ID_SPACE
    ensures Reaches(start, es, g') && Inv(g') && g'.apphosts == g.apphosts && g'.clients.Keys == g.clients.Keys + {h}
    ensures g'.table == Create(g.table, h, "", "", 0, 0)
  {
    var e1, e2, e3 := ClientAccepted(h), SpawnCreate(h, "", "", 0, 0), SpawnRecord(h, false);
    ManualSteps(g, h);
    ReachesThree(start, before, g, e1, e2, e3);
    es, g' := before + [e1] + [e2] + [e3], Step(Step(Step(g, e1), e2), e3);
  }

  lemma AcceptStep(g: Gw, h: Handle)
    requires Inv(g) && Possible(g, ClientAccepted(h))
    ensures var g' := Step(g, ClientAccepted(h));
      Inv(g') && MaySpawn(g', h) && g'.table == g.table && g'.apphosts == g.apphosts
          && g'.clients == g.clients[h := Peer(0, Idle)]
  {
    StepKeepsInv(g, ClientAccepted(h));
    var g' := Step(g, ClientAccepted(h));
    NoSessionOwnsNothing(g', ClientField, g'.clients, h);
  }

  lemma CreateSteps(g: Gw, h: Handle)
    requires Inv(g) && MaySpawn(g, h) && g.table.created + 1 < ID_SPACE
    ensures var e, f := SpawnCreate(h, "", "", 0, 0), SpawnRecord(h, false);
      && Possible(g, e) && Possible(Step(g, e), f)
      && var g' := Step(Step(g, e), f);
         Inv(g') && g'.apphosts == g.apphosts && g'.clients.Keys == g.clients.Keys
             && g'.table == Create(g.table, h, "", "", 0, 0)
  {
    CreateKeepsInv(g, h, "", "", 0, 0);
    ClientStepKeepsInv(Step(g, SpawnCreate(h, "", "", 0, 0)), SpawnRecord(h, false));
  }

  lemma ManualSteps(g: Gw, h: Handle)
    requires Inv(g) && h > 0 && h !in g.clients && g.table.created + 1 < ID_SPACE
    ensures var e1, e2, e3 := ClientAccepted(h), SpawnCreate(h, "", "", 0, 0), SpawnRecord(h, false);
      && Possible(g, e1) && Possible(Step(g, e1), e2) && Possible(Step(Step(g, e1), e2), e3)
      && var g' := Step(Step(Step(g, e1), e2), e3);
         Inv(g') && g'.apphosts == g.apphosts && g'.clients.Keys == g.clients.Keys + {h}
             && g'.table == Create(g.table, h, "", "", 0, 0)
  {
    AcceptStep(g, h);
    CreateSteps(Step(g, ClientAccepted(h)), h);
  }

  lemma TwoManualSessions() returns (es: seq<Event>, g: Gw)
    ensures Reaches(INIT, es, g) && CanBind(g.table, 1) && CanBind(g.table, 2) && g.apphosts == map[]
  {
    var es1, g1 := ManualSession(INIT, [], INIT, 1);
    es, g := ManualSession(INIT, es1, g1, 2);
    TwoCreated(INIT.table, 1, 2);
  }

  lemma TwoCreated(t: Table, h: Handle, k: Handle)
    requires t == Table(0, map[])
    ensures var u := Create(Create(t, h, "", "", 0, 0), k, "", "", 0, 0); CanBind(u, 1) && CanBind(u, 2)
  {
  }

  /** From the start: two clients, one AppHost connection, and a READY for each session on it. */
  lemma SharedHandleReachable() returns (both: seq<Event>, shared: Gw, later: seq<Event>, stray: Gw)
    ensures Reaches(INIT, both, shared) && !ApphostsDisjoint(shared.table)
    ensures Reaches(INIT, later, stray) && 9 in stray.apphosts && stray.apphosts[9] == Peer(0, Idle)
    ensures FindRoute(stray.table, 1).apphostConn == 9
  {
    var es, g := TwoManualSessions();
    ReachesSnoc(INIT, es, g, ApphostAccepted(9));
    both, shared, later, stray := SecondReady(INIT, es + [ApphostAccepted(9)], Step(g, ApphostAccepted(9)), 9, 1, 2, 0);
    Shared(shared.table, 1, 2);
  }

  lemma Shared(t: Table, s: SessionId, o: SessionId)
    requires s in t.recs && o in t.recs && s != o && t.recs[s].apphostConn == t.recs[o].apphostConn != 0
    ensures !ApphostsDisjoint(t)
  {
  }

  /// The callbacks
  /// -------------

  /** From `g` the events lead to `g'`, each enabled in turn. */
  ghost predicate Runs(g: Gw, es: seq<Event>, g': Gw) {
    ValidRun(g, es) && Run(g, es) == g'
  }

  lemma RunsCons(g: Gw, e: Event, es: seq<Event>, g': Gw)
    requires Enabled(g, e) && Runs(Step(g, e), es, g')
    ensures Runs(g, [e] + es, g')
  {
    assert ([e] + es)[1..] == es;
  }

  lemma RunsOne(g: Gw, e: Event)
    requires Enabled(g, e)
    ensures Runs(g, [e], Step(g, e))
  {
    RunsCons(g, e, [], Step(g, e));
    assert [e] + [] == [e];
  }

  lemma RunsTwo(g: Gw, e: Event, f: Event)
    requires Enabled(g, e) && Enabled(Step(g, e), f)
    ensures Runs(g, [e, f], Step(Step(g, e), f))
  {
    RunsOne(Step(g, e), f);
    RunsCons(g, e, [f], Step(Step(g, e), f));
    assert [e] + [f] == [e, f];
  }

  lemma RunsThree(g: Gw, e: Event, f: Event, k: Event)
    requires Enabled(g, e) && Enabled(Step(g, e), f) && Enabled(Step(Step(g, e), f), k)
    ensures Runs(g, [e, f, k], Step(Step(Step(g, e), f), k))
  {
    RunsTwo(Step(g, e), f, k);
    RunsCons(g, e, [f, k], Step(Step(Step(g, e), f), k));
    assert [e] + [f, k] == [e, f, k];
  }

  function AfterReady(g: Gw, h: Handle, s: SessionId, now: Time): Gw
    requires h in g.apphosts
  {
    if CanBind(g.table, s) then Gw(Bind(g.table, s, h, now), g.clients, g.apphosts[h := Peer(s, Idle)]) else g
  }

  lemma ReadyRuns(g: Gw, h: Handle, s: SessionId, now: Time)
    requires Inv(g) && Enabled(g, ReadyBind(h, s, now))
    ensures var e, f := ReadyBind(h, s, now), ReadyRecord(h);
      if CanBind(g.table, s)
      then Inv(AfterReady(g, h, s, now)) && Runs(g, [e] + [f], AfterReady(g, h, s, now))
      else Runs(g, [e] + [], g)
  {
    var e, f := ReadyBind(h, s, now), ReadyRecord(h);
    StepKeepsInv(g, e);
    RunsOne(g, e);
    assert [e] + [] == [e];
    if CanBind(g.table, s) {
      RunsTwo(g, e, f);
      StepKeepsInv(Step(g, e), f);
      assert [e] + [f] == [e, f];
      assert Step(Step(g, e), f) == AfterReady(g, h, s, now);
    }
  }

  datatype Out =
    | ToClient(h: Handle, cmd: byte, s: SessionId)
    | ToApphost(h: Handle, cmd: byte, s: SessionId)
    | Disable(h: Handle)
    | Terminate(pid: int)

  predicate Open(peers: map<Handle, Peer>, h: Handle) {
    h in peers && peers[h].task != Leaving
  }

  function IfOpen(peers: map<Handle, Peer>, h: Handle, o: Out): seq<Out> {
    if Open(peers, h) then [o] else []
  }

  /** The outcome of checking a SPAWN_APP body, the allow-list and file access. */
  datatype SpawnRequest = Refused | Granted(appName: string, pluginPath: string)

  /** The outcome of fork. */
  datatype Fork = ForkFailed | Forked(pid: int)

  function SpawnSteps(p: Peer, autoSpawn: bool, h: Handle, r: SpawnRequest, f: Fork, now: Time,
                      timeout: Time): seq<Event> {
    if p.session != 0 then []
    else if !autoSpawn then [SpawnCreate(h, "", "", now, 0), SpawnRecord(h, false)]
    else if r.Refused? then []
    else [SpawnCreate(h, r.appName, r.pluginPath, now, timeout), SpawnRecord(h, true),
          LaunchStep(h, f)]
  }

  function LaunchStep(h: Handle, f: Fork): Event {
    if f.Forked? then SpawnPid(h, f.pid) else SpawnFailed(h)
  }

  /** A session has been created for a client connection, which has recorded it. */
  function Spawned(g: Gw, h: Handle, appName: string, pluginPath: string, now: Time, timeout: Time, launch: bool): Gw {
    var id := NextId(g.table);
    Gw(Create(g.table, h, appName, pluginPath, now, timeout),
       g.clients[h := Peer(id, if launch then Launching(id) else Idle)], g.apphosts)
  }

  /** The new id is unused and the client handle owns no session: the indexes stay exact. */
  lemma SpawnIsFresh(g: Gw, h: Handle)
    requires Inv(g) && Doing(g.clients, h, Idle) && g.clients[h].session == 0
    ensures h > 0 && NextId(g.table) !in g.table.recs && FreeFor(g.table.recs, ClientField, h, NextId(g.table))
  {
    NoSessionOwnsNothing(g, ClientField, g.clients, h);
  }

  lemma SpawnPossible(g: Gw, h: Handle, appName: string, pluginPath: string, now: Time, timeout: Time, launch: bool)
    requires Inv(g) && Doing(g.clients, h, Idle) && g.clients[h].session == 0
    ensures var e, f := SpawnCreate(h, appName, pluginPath, now, timeout), SpawnRecord(h, launch);
      && Possible(g, e) && Possible(Step(g, e), f)
      && Step(Step(g, e), f) == Spawned(g, h, appName, pluginPath, now, timeout, launch)
  {
    NoSessionOwnsNothing(g, ClientField, g.clients, h);
  }

  /** Enabled too, and the invariant kept, when the new session does not get id 0. */
  lemma SpawnKeepsInv(g: Gw, h: Handle, appName: string, pluginPath: string, now: Time, timeout: Time, launch: bool)
    requires Inv(g) && g.table.created + 1 < ID_SPACE
    requires var e, f := SpawnCreate(h, appName, pluginPath, now, timeout), SpawnRecord(h, launch);
      Possible(g, e) && Possible(Step(g, e), f)
    ensures var e, f := SpawnCreate(h, appName, pluginPath, now, timeout), SpawnRecord(h, launch);
      Inv(Step(Step(g, e), f)) && Enabled(g, e) && Enabled(Step(g, e), f)
  {
    var e, f := SpawnCreate(h, appName, pluginPath, now, timeout), SpawnRecord(h, launch);
    CreateKeepsInv(g, h, appName, pluginPath, now, timeout);
    ClientStepKeepsInv(Step(g, e), f);
  }

  /** An idle connection that has recorded no session may create one and record it. */
  lemma SpawnFacts(g: Gw, h: Handle, appName: string, pluginPath: string, now: Time, timeout: Time, launch: bool)
    requires Inv(g) && Doing(g.clients, h, Idle) && g.clients[h].session == 0
    ensures var e, f := SpawnCreate(h, appName, pluginPath, now, timeout), SpawnRecord(h, launch);
      var g' := Spawned(g, h, appName, pluginPath, now, timeout, launch);
      && Reaches(g, [e, f], g')
      && (g.table.created + 1 < ID_SPACE ==> Inv(g') && Enabled(g, e) && Enabled(Step(g, e), f) && Runs(g, [e, f], g'))
  {
    var e, f := SpawnCreate(h, appName, pluginPath, now, timeout), SpawnRecord(h, launch);
    SpawnPossible(g, h, appName, pluginPath, now, timeout, launch);
    ReachesTwo(g, e, f);
    if g.table.created + 1 < ID_SPACE {
      SpawnKeepsInv(g, h, appName, pluginPath, now, timeout, launch);
      RunsTwo(g, e, f);
    }
  }

  lemma LaunchFacts(g: Gw, h: Handle, appName: string, pluginPath: string, now: Time, timeout: Time, f: Fork)
    requires Inv(g) && Doing(g.clients, h, Idle) && g.clients[h].session == 0
    requires Possible(Spawned(g, h, appName, pluginPath, now, timeout, true), LaunchStep(h, f))
    ensures var e, k := SpawnCreate(h, appName, pluginPath, now, timeout), SpawnRecord(h, true);
      var g' := Step(Spawned(g, h, appName, pluginPath, now, timeout, true), LaunchStep(h, f));
      && Reaches(g, [e, k, LaunchStep(h, f)], g')
      && (g.table.created + 1 < ID_SPACE ==> Runs(g, [e, k, LaunchStep(h, f)], g'))
  {
    var e, k := SpawnCreate(h, appName, pluginPath, now, timeout), SpawnRecord(h, true);
    var mid := Spawned(g, h, appName, pluginPath, now, timeout, true);
    SpawnFacts(g, h, appName, pluginPath, now, timeout, true);
    SpawnPossible(g, h, appName, pluginPath, now, timeout, true);
    ReachesSnoc(g, [e, k], mid, LaunchStep(h, f));
    assert [e, k] + [LaunchStep(h, f)] == [e, k, LaunchStep(h, f)];
    if g.table.created + 1 < ID_SPACE {
      RunsThree(g, e, k, LaunchStep(h, f));
    }
  }

  /** The connection can tell that it has a session exactly when the id counter has not come round: the
      session that gets id 0 exists and is its own, but the connection has recorded "none". It can create
      no other, and its end will tell no AppHost. */
  lemma RecordedExact(g: Gw, h: Handle, appName: string, pluginPath: string, now: Time, timeout: Time)
    requires Inv(g) && MaySpawn(g, h)
    ensures var g' := Spawned(g, h, appName, pluginPath, now, timeout, false);
      && Owns(g'.table.recs, ClientField, h, NextId(g.table)) && !MaySpawn(g', h)
      && (g'.clients[h].session != 0 <==> FewSessions(g, SpawnCreate(h, appName, pluginPath, now, timeout)))
  {
    var g' := Spawned(g, h, appName, pluginPath, now, timeout, false);
    assert Owns(g'.table.recs, ClientField, h, NextId(g.table));
    assert g'.table.recs[NextId(g.table)].state == Spawning;
  }

  lemma NewSessionsPidIsFree(g: Gw, g': Gw, id: SessionId, f: Fork)
    requires f.Forked? ==> f.pid > 0 && forall s :: !Owns(g.table.recs, PidField, f.pid, s)
    requires forall s :: s in g'.table.recs && s != id ==> s in g.table.recs && g'.table.recs[s] == g.table.recs[s]
    ensures f.Forked? ==> FreeFor(g'.table.recs, PidField, f.pid, id)
  {
    if f.Forked? {
      forall o | Owns(g'.table.recs, PidField, f.pid, o) ensures o == id {
        assert !Owns(g.table.recs, PidField, f.pid, o);
      }
    }
  }

  /** A second session, a refused or a failed spawn is answered with an error; a manual session is
      acknowledged at once; an automatic one only when its AppHost reports ready. */
  function SpawnReply(p: Peer, autoSpawn: bool, h: Handle, r: SpawnRequest, f: Fork, id: SessionId): seq<Out> {
    if p.session != 0 then [ToClient(h, ERROR_RESP, p.session)]
    else if !autoSpawn then [ToClient(h, SESSION_ACK, id)]
    else if r.Refused? then [ToClient(h, ERROR_RESP, 0)]
    else if f.ForkFailed? then [ToClient(h, ERROR_RESP, id)]
    else []
  }

  lemma {:induction false} ReachedByOne(g: Gw, e: Event, es: seq<Event>, g': Gw)
    requires Reaches(g, [e] + es, g')
    ensures Possible(g, e) && Reaches(Step(g, e), es, g')
  {
    assert ([e] + es)[1..] == es;
  }

  lemma {:induction false} ReachedByTwo(g: Gw, e: Event, f: Event, es: seq<Event>, g': Gw)
    requires Reaches(g, [e, f] + es, g')
    ensures Possible(g, e) && Possible(Step(g, e), f) && Reaches(Step(Step(g, e), f), es, g')
  {
    assert [e, f] + es == [e] + ([f] + es);
    ReachedByOne(g, e, [f] + es, g');
    ReachedByOne(Step(g, e), f, es, g');
  }

  lemma {:induction false} ManualOutcome(g: Gw, h: Handle, now: Time, g': Gw)
    requires Inv(g) && Doing(g.clients, h, Idle) && g.clients[h].session == 0
    requires Reaches(g, [SpawnCreate(h, "", "", now, 0), SpawnRecord(h, false)], g')
    ensures var id := (g.table.created + 1) % 0x1_0000_0000;
      && g'.table.recs == g.table.recs[id := Runtime(id, Spawning, h, 0, -1, "", "", now, now, now, now)]
      && g'.clients == g.clients[h := Peer(id, Idle)] && g'.apphosts == g.apphosts
  {
    var e, f := SpawnCreate(h, "", "", now, 0), SpawnRecord(h, false);
    assert [e, f] + [] == [e, f];
    ReachedByTwo(g, e, f, [], g');
    SpawnPossible(g, h, "", "", now, 0, false);
  }

  /** The child's pid is recorded, or the session taken back. */
  lemma {:induction false} AutomaticOutcome(g: Gw, h: Handle, appName: string, pluginPath: string, f: Fork, now: Time,
                                            timeout: Time, g': Gw)
    requires Inv(g) && Doing(g.clients, h, Idle) && g.clients[h].session == 0
    requires Reaches(g, [SpawnCreate(h, appName, pluginPath, now, timeout), SpawnRecord(h, true), LaunchStep(h, f)], g')
    ensures var id := (g.table.created + 1) % 0x1_0000_0000;
      if f.Forked? then
        && g'.table.recs == g.table.recs[id := Runtime(id, Spawning, h, 0, f.pid, appName, pluginPath, now,
                                                       now + timeout, now, now)]
        && g'.clients == g.clients[h := Peer(id, Idle)]
      else g'.table.recs == g.table.recs && g'.clients == g.clients[h := Peer(0, Idle)]
    ensures g'.apphosts == g.apphosts
  {
    var e, k, l := SpawnCreate(h, appName, pluginPath, now, timeout), SpawnRecord(h, true), LaunchStep(h, f);
    assert [e, k] + [l] == [e, k, l] && [l] + [] == [l];
    ReachedByTwo(g, e, k, [l], g');
    ReachedByOne(Step(Step(g, e), k), l, [], g');
    SpawnPossible(g, h, appName, pluginPath, now, timeout, true);
    SpawnIsFresh(g, h);
    LaunchedTable(g.table, NextId(g.table), Create(g.table, h, appName, pluginPath, now, timeout), f);
  }

  lemma LaunchedTable(t: Table, id: SessionId, u: Table, f: Fork)
    requires id !in t.recs && id in u.recs && u.recs == t.recs[id := u.recs[id]]
    ensures f.Forked? ==> SetPid(u, id, f.pid).recs == t.recs[id := u.recs[id].(apphostPid := f.pid)]
    ensures Remove(u, id).recs == t.recs
  {
  }

  /** What a spawn leaves, field by field: nothing for a second session or a refused one; a record for a manual
      one, waiting until now; for an automatic one a record with the child's pid, waiting for `timeout`, or nothing
      if the fork failed. */
  lemma {:induction false} SpawnOutcome(g: Gw, h: Handle, autoSpawn: bool, r: SpawnRequest, f: Fork, now: Time,
                                        timeout: Time, g': Gw)
    requires Inv(g) && Doing(g.clients, h, Idle)
    requires Reaches(g, SpawnSteps(g.clients[h], autoSpawn, h, r, f, now, timeout), g')
    ensures var id, had := (g.table.created + 1) % 0x1_0000_0000, g.clients[h].session;
      && (had != 0 || (autoSpawn && r.Refused?) ==> g' == g)
      && (had == 0 && !autoSpawn ==>
          && g'.table.recs == g.table.recs[id := Runtime(id, Spawning, h, 0, -1, "", "", now, now, now, now)]
          && g'.clients == g.clients[h := Peer(id, Idle)])
      && (had == 0 && autoSpawn && r.Granted? && f.Forked? ==>
          && g'.table.recs == g.table.recs[id := Runtime(id, Spawning, h, 0, f.pid, r.appName, r.pluginPath, now,
                                                         now + timeout, now, now)]
          && g'.clients == g.clients[h := Peer(id, Idle)])
      && (had == 0 && autoSpawn && r.Granted? && f.ForkFailed? ==>
          g'.table.recs == g.table.recs && g'.clients == g.clients[h := Peer(0, Idle)])
      && g'.apphosts == g.apphosts
  {
    if g.clients[h].session == 0 {
      if !autoSpawn {
        ManualOutcome(g, h, now, g');
      } else if r.Granted? {
        AutomaticOutcome(g, h, r.appName, r.pluginPath, f, now, timeout, g');
      }
    }
  }

  /** No session points at a handle without a connection. */
  lemma NoneLeft(g: Gw, h: Handle)
    requires Inv(g)
    ensures h !in g.clients ==> forall s :: s in g.table.recs ==> g.table.recs[s].clientConn != h
    ensures h !in g.apphosts && h != 0 ==> forall s :: s in g.table.recs ==> g.table.recs[s].apphostConn != h
  {
    assert forall s :: s in g.table.recs ==> KeyOf(g.table.recs[s], ClientField) == g.table.recs[s].clientConn;
    assert forall s :: s in g.table.recs ==> KeyOf(g.table.recs[s], ApphostField) == g.table.recs[s].apphostConn;
  }

  lemma ClientReleased(g: Gw, h: Handle, mid: Gw)
    requires Inv(g) && Doing(g.clients, h, Idle) && mid == Step(g, ClientLeaves(h))
    ensures Inv(mid) && Possible(mid, ClientGone(h)) && Inv(Step(mid, ClientGone(h)))
    ensures Runs(g, [ClientLeaves(h), ClientGone(h)], Step(mid, ClientGone(h)))
  {
    RunsTwo(g, ClientLeaves(h), ClientGone(h));
    StepKeepsInv(g, ClientLeaves(h));
    StepKeepsInv(mid, ClientGone(h));
  }

  lemma ApphostReleased(g: Gw, h: Handle, mid: Gw)
    requires Inv(g) && Doing(g.apphosts, h, Idle) && mid == Step(g, ApphostLeaves(h))
    ensures Inv(mid) && Possible(mid, ApphostGone(h)) && Inv(Step(mid, ApphostGone(h)))
    ensures Runs(g, [ApphostLeaves(h), ApphostGone(h)], Step(mid, ApphostGone(h)))
  {
    RunsTwo(g, ApphostLeaves(h), ApphostGone(h));
    StepKeepsInv(g, ApphostLeaves(h));
    StepKeepsInv(mid, ApphostGone(h));
  }

  /// The monitor's verdict on one session

  predicate ClientSilent(rt: Runtime, now: Time, clientTimeout: Time) {
    rt.state == Active && now - rt.lastClientSeen > clientTimeout
  }

  predicate Expired(rt: Runtime, now: Time, clientTimeout: Time, apphostTimeout: Time) {
    || (rt.state == Spawning && now > rt.spawnDeadline)
    || ClientSilent(rt, now, clientTimeout)
    || (rt.state == Active && now - rt.lastApphostSeen > apphostTimeout)
  }

  /** The process the session recorded has been reaped. */
  predicate Reaped(rt: Runtime, exited: seq<int>) {
    rt.apphostPid > 0 && rt.apphostPid in exited
  }

  class Gateway {
    const sessions: SessionTable
    const autoSpawn: bool
    const clientTimeout: Time
    const apphostTimeout: Time
    var clients: map<Handle, Peer>
    var apphosts: map<Handle, Peer>
    var outbox: seq<Out>

    ghost function View(): Gw
      reads this, sessions
    {
      Gw(sessions.View(), clients, apphosts)
    }

    ghost predicate Valid()
      reads this, sessions
    {
      sessions.Valid() && sessions.Indexed() && Inv(View())
    }

    constructor (autoSpawn: bool, clientTimeout: Time, apphostTimeout: Time)
      ensures Valid() && View() == INIT && fresh(sessions) && outbox == []
    {
      sessions := new SessionTable();
      this.autoSpawn, this.clientTimeout, this.apphostTimeout := autoSpawn, clientTimeout, apphostTimeout;
      clients, apphosts, outbox := map[], map[], [];
    }

    method SendToClient(h: Handle, cmd: byte, s: SessionId)
      modifies this`outbox
      ensures outbox == old(outbox) + IfOpen(clients, h, ToClient(h, cmd, s))
      ensures h in clients && clients[h].task != Leaving ==> outbox == old(outbox) + [ToClient(h, cmd, s)]
      ensures h !in clients || clients[h].task == Leaving ==> outbox == old(outbox)
    {
      if h in clients && clients[h].task != Leaving {
        outbox := outbox + [ToClient(h, cmd, s)];
      }
    }

    method SendToApphost(h: Handle, cmd: byte, s: SessionId)
      modifies this`outbox
      ensures outbox == old(outbox) + IfOpen(apphosts, h, ToApphost(h, cmd, s))
      ensures h in apphosts && apphosts[h].task != Leaving ==> outbox == old(outbox) + [ToApphost(h, cmd, s)]
      ensures h !in apphosts || apphosts[h].task == Leaving ==> outbox == old(outbox)
    {
      if h in apphosts && apphosts[h].task != Leaving {
        outbox := outbox + [ToApphost(h, cmd, s)];
      }
    }

    /** What a spawn does for any number of sessions created before; the invariant it keeps whenever the
        session does not get id 0. */
    method HandleSpawnApp(h: Handle, r: SpawnRequest, f: Fork, now: Time, timeout: Time)
      requires Valid() && Doing(clients, h, Idle)
      requires f.Forked? ==> forall s :: !Owns(sessions.bySession, PidField, f.pid, s)
      requires f.Forked? ==> f.pid > 0
      modifies this, sessions
      ensures sessions.Valid()
      ensures SpawnRan(old(View()), SpawnSteps(old(clients[h]), autoSpawn, h, r, f, now, timeout))
      ensures outbox == old(outbox) + SpawnReply(old(clients[h]), autoSpawn, h, r, f, NextId(old(View()).table))
      ensures var had, id, sent := old(clients[h]).session, (old(sessions.created) + 1) % 0x1_0000_0000,
                                   outbox[|old(outbox)|..];
        && (had != 0 ==> sent == [ToClient(h, ERROR_RESP, had)])
        && (had == 0 && !autoSpawn ==> sent == [ToClient(h, SESSION_ACK, id)])
        && (had == 0 && autoSpawn && r.Refused? ==> sent == [ToClient(h, ERROR_RESP, 0)])
        && (had == 0 && autoSpawn && r.Granted? && f.ForkFailed? ==> sent == [ToClient(h, ERROR_RESP, id)])
        && (had == 0 && autoSpawn && r.Granted? && f.Forked? ==> sent == [])
    {
      ghost var g := View();
      var busy := sessions.HasActiveOrSpawningForClient(h);
      if clients[h].session == 0 {
        NoSessionOwnsNothing(g, ClientField, clients, h);
      }
      if clients[h].session != 0 || busy {
        SendToClient(h, ERROR_RESP, clients[h].session);
        return;
      }
      if !autoSpawn {
        SpawnManual(h, now);
        return;
      }
      if r.Refused? {
        SendToClient(h, ERROR_RESP, 0);
        return;
      }
      SpawnAutomatic(h, r.appName, r.pluginPath, f, now, timeout);
    }

    /** These steps have happened; each was enabled, and the invariant holds, if no session got id 0. */
    ghost predicate SpawnRan(g: Gw, es: seq<Event>)
      reads this, sessions
    {
      && Reaches(g, es, View())
      && (es == [] || g.table.created + 1 < ID_SPACE ==> Valid() && Runs(g, es, View()))
    }

    /** A manual session waits for an AppHost started by hand; its deadline is the moment it is created. */
    method SpawnManual(h: Handle, now: Time)
      requires Valid() && Doing(clients, h, Idle) && clients[h].session == 0
      modifies this, sessions
      ensures sessions.Valid() && SpawnRan(old(View()), [SpawnCreate(h, "", "", now, 0), SpawnRecord(h, false)])
      ensures outbox == old(outbox) + [ToClient(h, SESSION_ACK, NextId(old(View()).table))]
    {
      ghost var g := View();
      SpawnIsFresh(g, h);
      SpawnFacts(g, h, "", "", now, 0, false);
      var id := sessions.CreateForClient(h, now);
      clients := clients[h := Peer(id, Idle)];
      assert View() == Spawned(g, h, "", "", now, 0, false);
      SendToClient(h, SESSION_ACK, id);
    }

    method SpawnAutomatic(h: Handle, appName: string, pluginPath: string, f: Fork, now: Time, timeout: Time)
      requires Valid() && Doing(clients, h, Idle) && clients[h].session == 0
      requires f.Forked? ==> f.pid > 0 && forall s :: !Owns(sessions.bySession, PidField, f.pid, s)
      modifies this, sessions
      ensures sessions.Valid()
      ensures SpawnRan(old(View()),
            [SpawnCreate(h, appName, pluginPath, now, timeout), SpawnRecord(h, true), LaunchStep(h, f)])
      ensures outbox == old(outbox) + if f.ForkFailed? then [ToClient(h, ERROR_RESP, NextId(old(View()).table))] else []
    {
      ghost var g := View();
      SpawnIsFresh(g, h);
      SpawnFacts(g, h, appName, pluginPath, now, timeout, true);
      var id := sessions.CreateSpawningSession(h, appName, pluginPath, now, timeout);
      clients := clients[h := Peer(id, Launching(id))];
      ghost var mid := View();
      assert mid == Spawned(g, h, appName, pluginPath, now, timeout, true);
      NewSessionsPidIsFree(g, mid, id, f);
      LaunchFacts(g, h, appName, pluginPath, now, timeout, f);
      Launch(h, id, f);
    }

    /** The end of a spawn: the child's pid is recorded, or the session is taken back. */
    method Launch(h: Handle, id: SessionId, f: Fork)
      requires sessions.Valid() && Doing(clients, h, Launching(id)) && Possible(View(), LaunchStep(h, f))
      modifies this, sessions
      ensures sessions.Valid() && View() == Step(old(View()), LaunchStep(h, f)) && (old(Valid()) ==> Valid())
      ensures outbox == old(outbox) + if f.ForkFailed? then [ToClient(h, ERROR_RESP, id)] else []
    {
      if f.ForkFailed? {
        TakeBack(h, id);
        SendToClient(h, ERROR_RESP, id);
      } else {
        RecordPid(h, id, f.pid);
        assert outbox + [] == outbox;
      }
    }

    method TakeBack(h: Handle, id: SessionId)
      requires sessions.Valid() && Doing(clients, h, Launching(id))
      modifies this`clients, sessions
      ensures sessions.Valid() && View() == Step(old(View()), SpawnFailed(h)) && (old(Valid()) ==> Valid())
    {
      if Valid() {
        ClientStepKeepsInv(View(), SpawnFailed(h));
      }
      sessions.RemoveSession(id);
      clients := clients[h := Peer(0, Idle)];
    }

    method RecordPid(h: Handle, id: SessionId, pid: int)
      requires sessions.Valid() && Doing(clients, h, Launching(id)) && Possible(View(), SpawnPid(h, pid))
      modifies this`clients, sessions
      ensures sessions.Valid() && View() == Step(old(View()), SpawnPid(h, pid)) && (old(Valid()) ==> Valid())
    {
      if Valid() {
        PidKeepsInv(View(), h, pid);
      }
      var _ := sessions.SetApphostPid(id, pid);
      clients := clients[h := Peer(id, Idle)];
    }

    /** Binds the session to this connection and records it there. */
    method BindReady(h: Handle, s: SessionId, now: Time) returns (ok: bool)
      requires Valid() && Possible(View(), ReadyBind(h, s, now))
      modifies this`apphosts, sessions
      ensures sessions.Valid() && (ok <==> CanBind(old(View()).table, s))
      ensures ok <==> s in old(sessions.bySession) && old(sessions.bySession)[s].state != Dead
      ensures ok ==> BoundHere(old(sessions.bySession), old(apphosts), h, s, now)
      ensures !ok ==> sessions.bySession == old(sessions.bySession) && apphosts == old(apphosts)
      ensures View() == AfterReady(old(View()), h, s, now)
      ensures old(OneReady(View(), ReadyBind(h, s, now))) ==>
                Valid() && Runs(old(View()), [ReadyBind(h, s, now)] + (if ok then [ReadyRecord(h)] else []), View())
    {
      ghost var g, e := View(), ReadyBind(h, s, now);
      if OneReady(g, e) {
        CallSitesAreFresh(g, e);
        ReadyRuns(g, h, s, now);
      }
      ok := sessions.BindApphost(s, h, now);
      if ok {
        apphosts := apphosts[h := Peer(s, Idle)];
      }
      assert View() == AfterReady(g, h, s, now);
    }

    /** The session is ACTIVE on this connection, which has recorded it; nothing else of either has changed. */
    ghost predicate BoundHere(recs: map<SessionId, Runtime>, peers: map<Handle, Peer>, h: Handle, s: SessionId,
                              now: Time)
      reads this, sessions
    {
      && s in recs
      && sessions.bySession == recs[s := recs[s].(apphostConn := h, state := Active, lastApphostSeen := now)]
      && apphosts == peers[h := Peer(s, Idle)]
    }

    /** Only a READY that binds is acknowledged to the client, and only for an automatic session. A second
        READY that binds does what the first does; what it breaks is ReadyExact and SecondReady. */
    method HandleApphostReady(h: Handle, s: SessionId, now: Time)
      requires Valid() && Possible(View(), ReadyBind(h, s, now))
      modifies this, sessions
      ensures sessions.Valid() && View() == AfterReady(old(View()), h, s, now)
      ensures s in old(sessions.bySession) && old(sessions.bySession)[s].state != Dead ==>
                && BoundHere(old(sessions.bySession), old(apphosts), h, s, now)
                && var c := old(sessions.bySession)[s].clientConn;
                   outbox == if autoSpawn && c in clients && clients[c].task != Leaving
                             then old(outbox) + [ToClient(c, SESSION_ACK, s)] else old(outbox)
      ensures s !in old(sessions.bySession) || old(sessions.bySession)[s].state == Dead ==>
                View() == old(View()) && outbox == old(outbox)
      ensures old(OneReady(View(), ReadyBind(h, s, now))) ==>
                Valid() && Runs(old(View()),
                    [ReadyBind(h, s, now)] + (if CanBind(old(View()).table, s) then [ReadyRecord(h)] else []), View())
      ensures outbox == old(outbox) + if CanBind(old(View()).table, s) && autoSpawn
                                      then var c := FindRoute(old(View()).table, s).clientConn;
                                          IfOpen(clients, c, ToClient(c, SESSION_ACK, s))
                                      else []
    {
      ghost var g := View();
      var ok := BindReady(h, s, now);
      if !ok {
        return;
      }
      var route := sessions.Find(s);
      assert route.clientConn == FindRoute(g.table, s).clientConn && 0 !in clients;
      if autoSpawn && route.clientConn != 0 {
        SendToClient(route.clientConn, SESSION_ACK, s);
      }
    }

    /** Either side may close any session: both peers are told and the process is asked to end. */
    method CloseSession(s: SessionId)
      requires Valid()
      modifies this`outbox, sessions
      ensures Valid() && Runs(old(View()), [SessionRemoved(s)], View())
      ensures sessions.bySession == old(sessions.bySession) - {s}
      ensures var t := old(View()).table;
        outbox == old(outbox) + CloseMessages(clients, apphosts, s, FindRoute(t, s),
            if s in t.recs then t.recs[s].apphostPid else -1)
    {
      ghost var g := View();
      var route := sessions.Find(s);
      var ok, pid := sessions.GetPid(s);
      sessions.RemoveSession(s);
      RunsOne(g, SessionRemoved(s));
      StepKeepsInv(g, SessionRemoved(s));
      TellClose(s, route, pid);
    }

    method TellClose(s: SessionId, route: Route, pid: int)
      requires 0 !in clients && 0 !in apphosts
      modifies this`outbox
      ensures outbox == old(outbox) + CloseMessages(clients, apphosts, s, route, pid)
    {
      if route.clientConn != 0 {
        SendToClient(route.clientConn, CLOSE_SESSION, s);
      }
      if route.apphostConn != 0 {
        SendToApphost(route.apphostConn, CLOSE_SESSION, s);
      }
      if pid > 0 {
        outbox := outbox + [Terminate(pid)];
      }
    }

    /** The session goes and its other side is told; a connection that never recorded one owns none. */
    method DropClientSession(h: Handle, s: SessionId)
      requires Valid() && Doing(clients, h, Leaving) && clients[h].session == s
      modifies this`outbox, sessions
      ensures sessions.Valid() && sessions.Indexed() && sessions.View() == Step(old(View()), ClientGone(h)).table
      ensures sessions.bySession == if s != 0 then old(sessions.bySession) - {s} else old(sessions.bySession)
      ensures var peer := FindRoute(old(View()).table, s).apphostConn;
        outbox == old(outbox) + if s != 0 then IfOpen(apphosts, peer, ToApphost(peer, CLOSE_SESSION, s)) else []
    {
      ghost var g := View();
      if s != 0 {
        var route := sessions.Find(s);
        sessions.RemoveSession(s);
        if route.apphostConn != 0 {
          SendToApphost(route.apphostConn, CLOSE_SESSION, s);
        }
      } else {
        NoSessionOwnsNothing(g, ClientField, clients, h);
        assert RemoveOwner(g.table, ClientField, h).recs == g.table.recs;
        var _ := sessions.RemoveByClient(h);
        assert outbox + [] == outbox;
      }
    }

    /** A connection that is no longer in the list has been released before: nothing happens. */
    method ReleaseClient(h: Handle)
      requires Valid() && (h in clients ==> clients[h].task == Idle || clients[h].task == Leaving)
      modifies this, sessions
      ensures !old(Doing(clients, h, Idle)) ==> Valid() && View() == old(View()) && outbox == old(outbox)
      ensures old(Doing(clients, h, Idle)) ==> ReleasedClient(h, old(View()), old(outbox))
    {
      if h in clients && clients[h].task == Idle {
        UnlinkClient(h);
      }
    }

    /** The two steps of a release have happened, the other side has been told, and no session points here. */
    ghost predicate ReleasedClient(h: Handle, g: Gw, before: seq<Out>)
      requires Doing(g.clients, h, Idle)
      reads this, sessions
    {
      var s := g.clients[h].session;
      var peer := FindRoute(g.table, s).apphostConn;
      && Valid() && Runs(g, [ClientLeaves(h), ClientGone(h)], View()) && clients == g.clients - {h}
      && sessions.bySession == (if s != 0 then g.table.recs - {s} else g.table.recs)
      && outbox == before + (if s != 0 then IfOpen(g.apphosts, peer, ToApphost(peer, CLOSE_SESSION, s)) else [])
      && forall x :: x in sessions.bySession ==> sessions.bySession[x].clientConn != h
    }

    method UnlinkClient(h: Handle)
      requires Valid() && Doing(clients, h, Idle)
      modifies this, sessions
      ensures ReleasedClient(h, old(View()), old(outbox))
    {
      ghost var g := View();
      var s := clients[h].session;
      clients := clients[h := Peer(s, Leaving)];
      ghost var mid := View();
      ClientReleased(g, h, mid);
      DropClientSession(h, s);
      clients := clients - {h};
      assert View() == Step(mid, ClientGone(h));
      NoneLeft(View(), h);
    }

    /** The session goes and its other side is told; a connection that never recorded one owns none. */
    method DropApphostSession(h: Handle, s: SessionId)
      requires Valid() && Doing(apphosts, h, Leaving) && apphosts[h].session == s
      modifies this`outbox, sessions
      ensures sessions.Valid() && sessions.Indexed() && sessions.View() == Step(old(View()), ApphostGone(h)).table
      ensures sessions.bySession == if s != 0 then old(sessions.bySession) - {s} else old(sessions.bySession)
      ensures var peer := FindRoute(old(View()).table, s).clientConn;
        outbox == old(outbox) + if s != 0 then IfOpen(clients, peer, ToClient(peer, CLOSE_SESSION, s)) else []
    {
      ghost var g := View();
      if s != 0 {
        var route := sessions.Find(s);
        sessions.RemoveSession(s);
        if route.clientConn != 0 {
          SendToClient(route.clientConn, CLOSE_SESSION, s);
        }
      } else {
        NoSessionOwnsNothing(g, ApphostField, apphosts, h);
        assert RemoveOwner(g.table, ApphostField, h).recs == g.table.recs;
        var _ := sessions.RemoveByApphost(h);
        assert outbox + [] == outbox;
      }
    }

    /** A connection that is no longer in the list has been released before: nothing happens. */
    method ReleaseApphost(h: Handle)
      requires Valid() && (h in apphosts ==> apphosts[h].task == Idle || apphosts[h].task == Leaving)
      modifies this, sessions
      ensures !old(Doing(apphosts, h, Idle)) ==> Valid() && View() == old(View()) && outbox == old(outbox)
      ensures old(Doing(apphosts, h, Idle)) ==> ReleasedApphost(h, old(View()), old(outbox))
    {
      if h in apphosts && apphosts[h].task == Idle {
        UnlinkApphost(h);
      }
    }

    /** The two steps of a release have happened, the other side has been told, and no session points here. */
    ghost predicate ReleasedApphost(h: Handle, g: Gw, before: seq<Out>)
      requires Doing(g.apphosts, h, Idle)
      reads this, sessions
    {
      var s := g.apphosts[h].session;
      var peer := FindRoute(g.table, s).clientConn;
      && Valid() && Runs(g, [ApphostLeaves(h), ApphostGone(h)], View()) && apphosts == g.apphosts - {h}
      && sessions.bySession == (if s != 0 then g.table.recs - {s} else g.table.recs)
      && outbox == before + (if s != 0 then IfOpen(g.clients, peer, ToClient(peer, CLOSE_SESSION, s)) else [])
      && forall x :: x in sessions.bySession ==> sessions.bySession[x].apphostConn != h
    }

    method UnlinkApphost(h: Handle)
      requires Valid() && Doing(apphosts, h, Idle)
      modifies this, sessions
      ensures ReleasedApphost(h, old(View()), old(outbox))
    {
      ghost var g := View();
      var s := apphosts[h].session;
      apphosts := apphosts[h := Peer(s, Leaving)];
      ghost var mid := View();
      ApphostReleased(g, h, mid);
      DropApphostSession(h, s);
      apphosts := apphosts - {h};
      assert View() == Step(mid, ApphostGone(h));
      NoneLeft(View(), h);
    }

    method TellFailure(s: SessionId, route: Route, pid: int, notifyClientError: bool)
      requires 0 !in clients
      modifies this`outbox
      ensures outbox == old(outbox) + FailureMessages(clients, s, route, pid, notifyClientError)
    {
      if notifyClientError && route.clientConn != 0 {
        SendToClient(route.clientConn, ERROR_RESP, s);
      }
      if route.apphostConn != 0 {
        outbox := outbox + [Disable(route.apphostConn)];
      }
      if route.clientConn != 0 {
        outbox := outbox + [Disable(route.clientConn)];
      }
      if pid > 0 {
        outbox := outbox + [Terminate(pid)];
      }
    }

    /** Tears the session down unless another path already is. */
    method FailSession(s: SessionId, notifyClientError: bool) returns (ok: bool)
      requires Valid()
      modifies this`outbox, sessions
      ensures Valid() && (ok <==> CanClose(old(View()).table, s))
      ensures ok <==> s in old(sessions.bySession) && old(sessions.bySession)[s].state !in {Closing, Dead}
      ensures View() == if ok then old(View()).(table := Remove(old(View()).table, s)) else old(View())
      ensures Runs(old(View()), if ok then [FailBegin(s), SessionRemoved(s)] else [FailBegin(s)], View())
      ensures !ok ==> outbox == old(outbox)
      ensures ok ==>
                var t := old(View()).table;
                outbox == old(outbox) + FailureMessages(clients, s, FindRoute(t, s), t.recs[s].apphostPid,
                    notifyClientError)
    {
      FailSteps(View(), s);
      var route, pid;
      ok, route, pid := sessions.TransitionToClosing(s);
      if !ok {
        return;
      }
      TellFailure(s, route, pid, notifyClientError);
      sessions.RemoveSession(s);
    }

    /** A reaped process fails its session, found through the pid index, with an error to the client. */
    method FailByPid(pid: int) returns (failed: set<SessionId>, ghost fs: seq<Failure>)
      requires Valid() && pid > 0
      modifies this`outbox, sessions
      ensures Valid() && failed == Doomed(old(View()).table, [pid])
      ensures View() == Minus(old(View()), failed)
      ensures Logged(old(View()), fs, old(outbox), outbox) && Tells(fs, AllTold(failed))
    {
      ghost var g, before := View(), outbox;
      var s := sessions.FindByPid(pid);
      OneDoomed(g, pid, s);
      failed, fs := {}, [];
      MinusNothing(g);
      NothingLogged(g, before);
      if s != 0 {
        var ok := FailSession(s, true);
        if ok {
          failed, fs := {s}, [Failure(s, true)];
          OneLogged(g, Failure(s, true), before, outbox);
        }
      }
    }

    method FailNextReaped(exited: seq<int>, i: nat, had: set<SessionId>, ghost g: Gw, ghost fs: seq<Failure>,
                          ghost before: seq<Out>)
      returns (failed: set<SessionId>, ghost now: seq<Failure>)
      requires Valid() && i < |exited| && exited[i] > 0 && ReapedSoFar(g, exited[..i], had, fs, before, View(), outbox)
      modifies this`outbox, sessions
      ensures Valid() && ReapedSoFar(g, exited[..i + 1], failed, now, before, View(), outbox)
    {
      ghost var mid, soFar := View(), outbox;
      var more;
      ghost var later;
      more, later := FailByPid(exited[i]);
      ReapStep(g, exited, i, had, fs, before, mid, soFar, later, outbox);
      failed, now := had + more, fs + later;
    }

    method FailReaped(exited: seq<int>) returns (failed: set<SessionId>, ghost fs: seq<Failure>)
      requires Valid() && forall i :: 0 <= i < |exited| ==> exited[i] > 0
      modifies this`outbox, sessions
      ensures Valid() && failed == Doomed(old(View()).table, exited)
      ensures View() == Minus(old(View()), failed)
      ensures Logged(old(View()), fs, old(outbox), outbox) && Tells(fs, AllTold(failed))
    {
      ghost var g, before := View(), outbox;
      failed, fs := {}, [];
      var i := 0;
      ReapStart(g, before);
      assert exited[..0] == [];
      while i < |exited|
        invariant 0 <= i <= |exited| && Valid()
        invariant ReapedSoFar(g, exited[..i], failed, fs, before, View(), outbox)
      {
        failed, fs := FailNextReaped(exited, i, failed, g, fs, before);
        i := i + 1;
      }
      assert exited[..i] == exited;
    }

    /** The deadline tests on one snapshot; a client that is itself silent is not told. */
    method FailIfExpired(snap: Snapshot, now: Time) returns (failed: bool, notify: bool)
      requires Valid() && snap.sessionId in sessions.bySession
            && snap == SnapshotFrom(sessions.bySession[snap.sessionId])
      modifies this`outbox, sessions
      ensures Valid()
      ensures failed <==> Expired(old(View()).table.recs[snap.sessionId], now, clientTimeout, apphostTimeout)
      ensures failed <==> var rt := old(sessions.bySession)[snap.sessionId];
                          || (rt.state == Spawning && now > rt.spawnDeadline)
                          || (rt.state == Active && now - rt.lastClientSeen > clientTimeout)
                          || (rt.state == Active && now - rt.lastApphostSeen > apphostTimeout)
      ensures notify <==> var rt := old(sessions.bySession)[snap.sessionId];
                          !(rt.state == Active && now - rt.lastClientSeen > clientTimeout)
      ensures notify <==> !ClientSilent(old(View()).table.recs[snap.sessionId], now, clientTimeout)
      ensures View() == Minus(old(View()), if failed then {snap.sessionId} else {})
      ensures Logged(old(View()), OneFailure(snap.sessionId, failed, notify), old(outbox), outbox)
    {
      ghost var g, before := View(), outbox;
      MinusNothing(g);
      NothingLogged(g, before);
      failed, notify := false, true;
      if snap.state == Spawning && now > snap.spawnDeadline {
        failed := FailSession(snap.sessionId, true);
      } else if snap.state == Active {
        if now - snap.lastClientSeen > clientTimeout {
          notify := false;
          failed := FailSession(snap.sessionId, false);
        } else if now - snap.lastApphostSeen > apphostTimeout {
          failed := FailSession(snap.sessionId, true);
        }
      }
      if failed {
        OneLogged(g, Failure(snap.sessionId, notify), before, outbox);
      }
    }

    method FailExpired(now: Time) returns (failed: map<SessionId, bool>, ghost fs: seq<Failure>)
      requires Valid()
      modifies this`outbox, sessions
      ensures Valid() && failed.Keys == Overdue(old(View()).table, now, clientTimeout, apphostTimeout)
      ensures forall s :: s in failed ==> (failed[s] <==> !ClientSilent(old(View()).table.recs[s], now, clientTimeout))
      ensures View() == Minus(old(View()), failed.Keys)
      ensures Logged(old(View()), fs, old(outbox), outbox) && Tells(fs, failed)
    {
      ghost var g := View();
      var snaps := sessions.SnapshotSessions();
      failed, fs := FailSnapshots(snaps, now);
      AllScanned(g.table, snaps, failed, now, clientTimeout, apphostTimeout);
    }

    /** Tests the snapshots one by one; each session is looked at once, as it was when they were taken. */
    method FailSnapshots(snaps: seq<Snapshot>, now: Time) returns (failed: map<SessionId, bool>, ghost fs: seq<Failure>)
      requires Valid() && SnapshotsOf(snaps, sessions.bySession)
      modifies this`outbox, sessions
      ensures Valid() && Scanned(old(View()).table, snaps, |snaps|, failed, now, clientTimeout, apphostTimeout)
      ensures View() == Minus(old(View()), failed.Keys)
      ensures Logged(old(View()), fs, old(outbox), outbox) && Tells(fs, failed)
    {
      ghost var g, before := View(), outbox;
      failed, fs := map[], [];
      var i := 0;
      ScanStart(g, snaps, before, now, clientTimeout, apphostTimeout);
      while i < |snaps|
        invariant 0 <= i <= |snaps| && Valid()
        invariant ScannedSoFar(g, snaps, i, failed, fs, before, View(), outbox, now, clientTimeout, apphostTimeout)
      {
        ghost var soFar, had := outbox, failed;
        var s := snaps[i].sessionId;
        var expired, notify := FailIfExpired(snaps[i], now);
        if expired {
          failed := failed[s := notify];
        }
        ScanStep(g, snaps, i, had, fs, before, soFar, expired, notify, outbox, now, clientTimeout, apphostTimeout);
        fs := fs + OneFailure(s, expired, notify);
        i := i + 1;
      }
    }

    /** One pass with callbacks quiescent: removes exactly the sessions not already closing whose
        process was reaped or whose deadline has passed, and leaves every other record as it was. Each of
        them, once and in the order `fs`, gets exactly the messages and signals owed to it; its client is
        told of the failure unless it is the silent one itself. */
    method MonitorPass(exited: seq<int>, now: Time) returns (failed: map<SessionId, bool>, ghost fs: seq<Failure>)
      requires Valid() && forall i :: 0 <= i < |exited| ==> exited[i] > 0
      modifies this`outbox, sessions
      ensures Valid()
      ensures failed.Keys == Failing(old(View()).table, exited, now, clientTimeout, apphostTimeout)
      ensures var recs := old(sessions.bySession);
        forall s :: s in failed <==>
          && s in recs && recs[s].state != Closing && recs[s].state != Dead
          && (|| (recs[s].apphostPid > 0 && recs[s].apphostPid in exited)
              || (recs[s].state == Spawning && now > recs[s].spawnDeadline)
              || (recs[s].state == Active && now - recs[s].lastClientSeen > clientTimeout)
              || (recs[s].state == Active && now - recs[s].lastApphostSeen > apphostTimeout))
      ensures sessions.bySession == old(sessions.bySession) - failed.Keys
      ensures var recs := old(sessions.bySession);
        forall s :: s in failed ==>
          && s in recs
          && (failed[s] <==> (recs[s].apphostPid > 0 && recs[s].apphostPid in exited)
                             || recs[s].state != Active || now - recs[s].lastClientSeen <= clientTimeout)
      ensures View() == Minus(old(View()), failed.Keys)
      ensures Logged(old(View()), fs, old(outbox), outbox) && Tells(fs, failed)
    {
      FailingMeans(sessions.View(), exited, now, clientTimeout, apphostTimeout);
      failed, fs := BothPhases(exited, now);
    }

    /** The reaped processes first, then the deadlines. */
    method BothPhases(exited: seq<int>, now: Time) returns (failed: map<SessionId, bool>, ghost fs: seq<Failure>)
      requires Valid() && forall i :: 0 <= i < |exited| ==> exited[i] > 0
      modifies this`outbox, sessions
      ensures Valid()
      ensures failed.Keys == Failing(old(View()).table, exited, now, clientTimeout, apphostTimeout)
      ensures var recs := old(View()).table.recs;
        forall s :: s in failed ==>
            (failed[s] <==> Reaped(recs[s], exited) || !ClientSilent(recs[s], now, clientTimeout))
      ensures View() == Minus(old(View()), failed.Keys)
      ensures Logged(old(View()), fs, old(outbox), outbox) && Tells(fs, failed)
    {
      ghost var g, before := View(), outbox;
      var reaped, expired;
      ghost var first, later;
      reaped, first := FailReaped(exited);
      ghost var soFar := outbox;
      expired, later := FailExpired(now);
      MinusMinus(g, reaped, expired.Keys);
      PassTotal(g.table, exited, now, clientTimeout, apphostTimeout);
      LoggedThen(g, first, AllTold(reaped), before, soFar, later, expired, outbox);
      failed, fs := (map s | s in reaped :: true) + expired, first + later;
      assert failed == AllTold(reaped) + expired && failed.Keys == reaped + expired.Keys;
    }
  }

  /** A session failed by a pass, and whether its client is sent an error. */
  datatype Failure = Failure(s: SessionId, told: bool)

  /** The messages and signals of these failures, one after the other. */
  function FailureLog(clients: map<Handle, Peer>, t: Table, fs: seq<Failure>): seq<Out> {
    if fs == [] then []
    else
      (if fs[0].s in t.recs
       then FailureMessages(clients, fs[0].s, FindRoute(t, fs[0].s), t.recs[fs[0].s].apphostPid, fs[0].told) else [])
      + FailureLog(clients, t, fs[1..])
  }

  /** Each of these failures is of a session in the table, and the outbox has grown by exactly their messages. */
  ghost predicate Logged(g: Gw, fs: seq<Failure>, before: seq<Out>, after: seq<Out>) {
    && (forall i :: 0 <= i < |fs| ==> fs[i].s in g.table.recs)
    && after == before + FailureLog(g.clients, g.table, fs)
  }

  /** The list names exactly these sessions, each once, and says the same of each client. */
  ghost predicate Tells(fs: seq<Failure>, failed: map<SessionId, bool>) {
    && (forall i :: 0 <= i < |fs| ==> fs[i].s in failed && failed[fs[i].s] == fs[i].told)
    && (forall i, j :: 0 <= i < j < |fs| ==> fs[i].s != fs[j].s)
    && |fs| == |failed|
  }

  function AllTold(failed: set<SessionId>): (m: map<SessionId, bool>)
    ensures m.Keys == failed
  {
    map s | s in failed :: true
  }

  lemma TellsBoth(a: set<SessionId>, b: set<SessionId>)
    ensures AllTold(a) + AllTold(b) == AllTold(a + b)
  {
  }

  lemma NothingLogged(g: Gw, before: seq<Out>)
    ensures Logged(g, [], before, before) && Tells([], map[]) && AllTold({}) == map[]
  {
    assert before + [] == before;
  }

  lemma SameLog(g: Gw, before: seq<Out>, after: seq<Out>)
    requires Logged(g, [], before, after)
    ensures after == before
  {
    assert before + [] == before;
  }

  lemma OneLogged(g: Gw, f: Failure, before: seq<Out>, after: seq<Out>)
    requires f.s in g.table.recs
    requires after == before + FailureMessages(g.clients, f.s, FindRoute(g.table, f.s), g.table.recs[f.s].apphostPid,
          f.told)
    ensures Logged(g, [f], before, after) && Tells([f], map[f.s := f.told]) && AllTold({f.s}) == map[f.s := true]
  {
    var ms := FailureMessages(g.clients, f.s, FindRoute(g.table, f.s), g.table.recs[f.s].apphostPid, f.told);
    assert [f][1..] == [] && ms + [] == ms;
    assert |map[f.s := f.told]| == 1;
  }

  lemma {:induction false} LogAppend(clients: map<Handle, Peer>, t: Table, fs: seq<Failure>, gs: seq<Failure>)
    ensures FailureLog(clients, t, fs + gs) == FailureLog(clients, t, fs) + FailureLog(clients, t, gs)
  {
    if fs == [] {
      assert fs + gs == gs;
    } else {
      LogAppend(clients, t, fs[1..], gs);
      assert (fs + gs)[1..] == fs[1..] + gs;
      Assoc(if fs[0].s in t.recs
            then FailureMessages(clients, fs[0].s, FindRoute(t, fs[0].s), t.recs[fs[0].s].apphostPid, fs[0].told)
                else [],
            FailureLog(clients, t, fs[1..]), FailureLog(clients, t, gs));
    }
  }

  /** The messages of sessions still there do not depend on those already gone. */
  lemma {:induction false} LogOnLeft(g: Gw, gone: set<SessionId>, fs: seq<Failure>)
    requires forall i :: 0 <= i < |fs| ==> fs[i].s in Minus(g, gone).table.recs
    ensures FailureLog(g.clients, Minus(g, gone).table, fs) == FailureLog(g.clients, g.table, fs)
  {
    if fs != [] {
      LogOnLeft(g, gone, fs[1..]);
    }
  }

  lemma DisjointSizes(a: map<SessionId, bool>, b: map<SessionId, bool>)
    requires a.Keys !! b.Keys
    ensures |a + b| == |a| + |b|
  {
    assert (a + b).Keys == a.Keys + b.Keys;
    assert |a.Keys + b.Keys| == |a.Keys| + |b.Keys|;
  }

  lemma TellsThen(fs: seq<Failure>, a: map<SessionId, bool>, gs: seq<Failure>, b: map<SessionId, bool>)
    requires Tells(fs, a) && Tells(gs, b) && a.Keys !! b.Keys
    ensures Tells(fs + gs, a + b)
  {
    DisjointSizes(a, b);
  }

  /** First these failures, then those on what is left. */
  lemma LoggedThen(g: Gw, fs: seq<Failure>, a: map<SessionId, bool>, before: seq<Out>, mid: seq<Out>,
                   gs: seq<Failure>, b: map<SessionId, bool>, after: seq<Out>)
    requires Logged(g, fs, before, mid) && Tells(fs, a)
    requires Logged(Minus(g, a.Keys), gs, mid, after) && Tells(gs, b) && a.Keys !! b.Keys
    ensures Logged(g, fs + gs, before, after) && Tells(fs + gs, a + b)
  {
    LogAppend(g.clients, g.table, fs, gs);
    LogOnLeft(g, a.Keys, gs);
    Assoc(before, FailureLog(g.clients, g.table, fs), FailureLog(g.clients, g.table, gs));
    TellsThen(fs, a, gs, b);
  }

  function CloseMessages(clients: map<Handle, Peer>, apphosts: map<Handle, Peer>, s: SessionId, route: Route,
                         pid: int): seq<Out> {
    IfOpen(clients, route.clientConn, ToClient(route.clientConn, CLOSE_SESSION, s))
    + IfOpen(apphosts, route.apphostConn, ToApphost(route.apphostConn, CLOSE_SESSION, s))
    + (if pid > 0 then [Terminate(pid)] else [])
  }

  function FailureMessages(clients: map<Handle, Peer>, s: SessionId, route: Route, pid: int,
                           notifyClientError: bool): seq<Out> {
    (if notifyClientError then IfOpen(clients, route.clientConn, ToClient(route.clientConn, ERROR_RESP, s)) else [])
    + (if route.apphostConn != 0 then [Disable(route.apphostConn)] else [])
    + (if route.clientConn != 0 then [Disable(route.clientConn)] else [])
    + (if pid > 0 then [Terminate(pid)] else [])
  }

  /** Who hears of a failure: the client, if it is open and to be told, as an error; both connections are
      disabled, and a recorded process is asked to end. The error goes first. */
  lemma FailureReaches(clients: map<Handle, Peer>, s: SessionId, route: Route, pid: int, notify: bool)
    ensures var ms := FailureMessages(clients, s, route, pid, notify);
      && (forall h, cmd, x :: ToClient(h, cmd, x) in ms <==>
            && notify && h == route.clientConn && h in clients && clients[h].task != Leaving
            && cmd == ERROR_RESP && x == s)
      && (forall h, cmd, x :: ToApphost(h, cmd, x) !in ms)
      && (forall h :: Disable(h) in ms <==> h != 0 && (h == route.apphostConn || h == route.clientConn))
      && (forall p :: Terminate(p) in ms <==> p == pid && pid > 0)
      && (forall i :: 0 < i < |ms| ==> !ms[i].ToClient?)
  {
  }

  /** Who hears of a close: both open peers, the client first, then a recorded process. */
  lemma CloseReaches(clients: map<Handle, Peer>, apphosts: map<Handle, Peer>, s: SessionId, route: Route, pid: int)
    ensures var ms := CloseMessages(clients, apphosts, s, route, pid);
      && (forall h, cmd, x :: ToClient(h, cmd, x) in ms <==>
            h == route.clientConn && h in clients && clients[h].task != Leaving && cmd == CLOSE_SESSION && x == s)
      && (forall h, cmd, x :: ToApphost(h, cmd, x) in ms <==>
            h == route.apphostConn && h in apphosts && apphosts[h].task != Leaving && cmd == CLOSE_SESSION && x == s)
      && (forall h :: Disable(h) !in ms)
      && (forall p :: Terminate(p) in ms <==> p == pid && pid > 0)
      && (forall i, j :: 0 <= i < j < |ms| ==> !ms[j].ToClient? && !ms[i].Terminate?)
  {
  }

  function Minus(g: Gw, gone: set<SessionId>): Gw {
    g.(table := g.table.(recs := g.table.recs - gone))
  }

  lemma MinusNothing(g: Gw)
    ensures Minus(g, {}) == g
  {
    assert g.table.recs - {} == g.table.recs;
  }

  lemma MinusMinus(g: Gw, a: set<SessionId>, b: set<SessionId>)
    ensures Minus(Minus(g, a), b) == Minus(g, a + b)
  {
    assert g.table.recs - a - b == g.table.recs - (a + b);
  }

  /** The sessions a pass fails because one of these processes was reaped. */
  ghost function Doomed(t: Table, pids: seq<int>): set<SessionId> {
    set s | s in t.recs && CanClose(t, s) && Reaped(t.recs[s], pids)
  }

  /** The sessions a pass fails because a deadline has passed. */
  ghost function Overdue(t: Table, now: Time, clientTimeout: Time, apphostTimeout: Time): set<SessionId> {
    set s | s in t.recs && Expired(t.recs[s], now, clientTimeout, apphostTimeout)
  }

  /** One snapshot of each session. */
  ghost predicate SnapshotsOf(snaps: seq<Snapshot>, recs: map<SessionId, Runtime>) {
    && (forall j :: 0 <= j < |snaps| ==>
        snaps[j].sessionId in recs && snaps[j] == SnapshotFrom(recs[snaps[j].sessionId]))
    && (forall j, k :: 0 <= j < k < |snaps| ==> snaps[j].sessionId != snaps[k].sessionId)
  }

  /** The first `i` snapshots have been looked at: exactly the overdue ones among them have failed. */
  ghost predicate Scanned(t: Table, snaps: seq<Snapshot>, i: nat, failed: map<SessionId, bool>,
                          now: Time, clientTimeout: Time, apphostTimeout: Time)
    requires i <= |snaps| && forall j :: 0 <= j < |snaps| ==> snaps[j].sessionId in t.recs
  {
    && failed.Keys <= Overdue(t, now, clientTimeout, apphostTimeout)
    && (forall j :: 0 <= j < i && snaps[j].sessionId in Overdue(t, now, clientTimeout, apphostTimeout) ==>
        snaps[j].sessionId in failed)
    && (forall j :: i <= j < |snaps| ==> snaps[j].sessionId !in failed)
    && (forall s :: s in failed ==> (failed[s] <==> !ClientSilent(t.recs[s], now, clientTimeout)))
  }

  ghost predicate ScannedSoFar(g: Gw, snaps: seq<Snapshot>, i: nat, failed: map<SessionId, bool>, fs: seq<Failure>,
                               before: seq<Out>, after: Gw, out: seq<Out>, now: Time, clientTimeout: Time,
                                   apphostTimeout: Time)
    requires i <= |snaps| && SnapshotsOf(snaps, g.table.recs)
  {
    && Scanned(g.table, snaps, i, failed, now, clientTimeout, apphostTimeout) && after == Minus(g, failed.Keys)
    && Logged(g, fs, before, out) && Tells(fs, failed)
  }

  lemma ScanStart(g: Gw, snaps: seq<Snapshot>, before: seq<Out>, now: Time, clientTimeout: Time, apphostTimeout: Time)
    requires SnapshotsOf(snaps, g.table.recs)
    ensures ScannedSoFar(g, snaps, 0, map[], [], before, g, before, now, clientTimeout, apphostTimeout)
  {
    MinusNothing(g);
    NothingLogged(g, before);
    var none: map<SessionId, bool> := map[];
    assert none.Keys == {};
  }

  lemma AllScanned(t: Table, snaps: seq<Snapshot>, failed: map<SessionId, bool>, now: Time, clientTimeout: Time,
                   apphostTimeout: Time)
    requires SnapshotsOf(snaps, t.recs) && forall s :: s in t.recs ==>
          exists i :: 0 <= i < |snaps| && snaps[i].sessionId == s
    requires Scanned(t, snaps, |snaps|, failed, now, clientTimeout, apphostTimeout)
    ensures failed.Keys == Overdue(t, now, clientTimeout, apphostTimeout)
  {
  }

  function OneFailure(s: SessionId, expired: bool, notify: bool): seq<Failure> {
    if expired then [Failure(s, notify)] else []
  }

  function OneMore(failed: map<SessionId, bool>, s: SessionId, expired: bool, notify: bool): map<SessionId, bool> {
    if expired then failed[s := notify] else failed
  }

  lemma VerdictStep(g: Gw, snaps: seq<Snapshot>, i: nat, failed: map<SessionId, bool>, expired: bool, notify: bool,
                    now: Time, clientTimeout: Time, apphostTimeout: Time)
    requires i < |snaps| && SnapshotsOf(snaps, g.table.recs)
    requires Scanned(g.table, snaps, i, failed, now, clientTimeout, apphostTimeout)
    requires expired <==> Expired(g.table.recs[snaps[i].sessionId], now, clientTimeout, apphostTimeout)
    requires notify <==> !ClientSilent(g.table.recs[snaps[i].sessionId], now, clientTimeout)
    ensures var s := snaps[i].sessionId;
      && Scanned(g.table, snaps, i + 1, OneMore(failed, s, expired, notify), now, clientTimeout, apphostTimeout)
      && Minus(Minus(g, failed.Keys), if expired then {s} else {}) == Minus(g, OneMore(failed, s, expired, notify).Keys)
  {
    var s := snaps[i].sessionId;
    MinusMinus(g, failed.Keys, if expired then {s} else {});
    if expired {
      assert failed[s := notify].Keys == failed.Keys + {s};
    } else {
      assert failed.Keys + {} == failed.Keys;
    }
  }

  lemma TellsOne(failed: map<SessionId, bool>, s: SessionId, notify: bool)
    requires s !in failed
    ensures Tells([Failure(s, notify)], map[s := notify]) && failed.Keys !! map[s := notify].Keys
    ensures failed + map[s := notify] == failed[s := notify]
  {
    assert |map[s := notify]| == 1;
  }

  lemma FailureStep(g: Gw, s: SessionId, failed: map<SessionId, bool>, fs: seq<Failure>, before: seq<Out>,
                    soFar: seq<Out>,
                    expired: bool, notify: bool, out: seq<Out>)
    requires Logged(g, fs, before, soFar) && Tells(fs, failed) && s !in failed
    requires Logged(Minus(g, failed.Keys), OneFailure(s, expired, notify), soFar, out)
    ensures Logged(g, fs + OneFailure(s, expired, notify), before, out)
    ensures Tells(fs + OneFailure(s, expired, notify), OneMore(failed, s, expired, notify))
  {
    if expired {
      TellsOne(failed, s, notify);
      LoggedThen(g, fs, failed, before, soFar, [Failure(s, notify)], map[s := notify], out);
    } else {
      SameLog(Minus(g, failed.Keys), soFar, out);
      assert fs + [] == fs;
    }
  }

  lemma ScanStep(g: Gw, snaps: seq<Snapshot>, i: nat, failed: map<SessionId, bool>, fs: seq<Failure>, before: seq<Out>,
                 soFar: seq<Out>,
                 expired: bool, notify: bool, out: seq<Out>, now: Time, clientTimeout: Time, apphostTimeout: Time)
    requires i < |snaps| && SnapshotsOf(snaps, g.table.recs)
    requires ScannedSoFar(g, snaps, i, failed, fs, before, Minus(g, failed.Keys), soFar, now, clientTimeout,
          apphostTimeout)
    requires expired <==> Expired(g.table.recs[snaps[i].sessionId], now, clientTimeout, apphostTimeout)
    requires notify <==> !ClientSilent(g.table.recs[snaps[i].sessionId], now, clientTimeout)
    requires Logged(Minus(g, failed.Keys), OneFailure(snaps[i].sessionId, expired, notify), soFar, out)
    ensures var s := snaps[i].sessionId;
      ScannedSoFar(g, snaps, i + 1, OneMore(failed, s, expired, notify), fs + OneFailure(s, expired, notify), before,
                   Minus(Minus(g, failed.Keys), if expired then {s} else {}), out, now, clientTimeout, apphostTimeout)
  {
    VerdictStep(g, snaps, i, failed, expired, notify, now, clientTimeout, apphostTimeout);
    FailureStep(g, snaps[i].sessionId, failed, fs, before, soFar, expired, notify, out);
  }

  /** The two parts of a pass together: the deadlines are tested on what the reaping leaves. */
  lemma PassTotal(t: Table, exited: seq<int>, now: Time, clientTimeout: Time, apphostTimeout: Time)
    ensures var left := t.(recs := t.recs - Doomed(t, exited));
      var late := Overdue(left, now, clientTimeout, apphostTimeout);
      && Doomed(t, exited) + late == Failing(t, exited, now, clientTimeout, apphostTimeout)
      && Doomed(t, exited) !! late
      && (forall s :: s in late ==> left.recs[s] == t.recs[s] && !Reaped(t.recs[s], exited))
  {
  }

  /** What a whole pass is to fail. */
  ghost function Failing(t: Table, exited: seq<int>, now: Time, clientTimeout: Time,
                         apphostTimeout: Time): set<SessionId> {
    set s | s in t.recs && CanClose(t, s)
        && (Reaped(t.recs[s], exited) || Expired(t.recs[s], now, clientTimeout, apphostTimeout))
  }

  lemma FailingMeans(t: Table, exited: seq<int>, now: Time, clientTimeout: Time, apphostTimeout: Time)
    ensures forall s :: s in Failing(t, exited, now, clientTimeout, apphostTimeout) <==>
              && s in t.recs && t.recs[s].state != Closing && t.recs[s].state != Dead
              && (|| (t.recs[s].apphostPid > 0 && t.recs[s].apphostPid in exited)
                  || (t.recs[s].state == Spawning && now > t.recs[s].spawnDeadline)
                  || (t.recs[s].state == Active && now - t.recs[s].lastClientSeen > clientTimeout)
                  || (t.recs[s].state == Active && now - t.recs[s].lastApphostSeen > apphostTimeout))
  {
  }

  /** A session still waiting for its AppHost is failed by a pass exactly when its timeout has passed; a
      manual one, created with timeout zero, by any later pass at all. */
  lemma SpawnDeadlineExact(t: Table, h: Handle, appName: string, pluginPath: string, now: Time, timeout: Time,
                           exited: seq<int>, later: Time, clientTimeout: Time, apphostTimeout: Time)
    ensures NextId(t) in Failing(Create(t, h, appName, pluginPath, now, timeout), exited, later, clientTimeout,
          apphostTimeout)
            <==> later > now + timeout
    ensures NextId(t) in Failing(Create(t, h, "", "", now, 0), exited, later, clientTimeout, apphostTimeout) <==>
          later > now
  {
    var rt := Create(t, h, appName, pluginPath, now, timeout).recs[NextId(t)];
    assert rt.state == Spawning && !Reaped(rt, exited);
  }

  /** The same for a session with any history: created, then in a run of other operations on any sessions that
      keeps it. What fails it is its process being reaped, a spawn not finished in time, or, once bound, silence of
      its client since it was last marked, or of its AppHost since it was last marked or bound; a closing one
      does not fail again. */
  lemma {:induction false} DeadlinesExact(t: Table, h: Handle, appName: string, pluginPath: string, now: Time,
                                          timeout: Time, ops: seq<Op>, exited: seq<int>, later: Time,
                                          clientTimeout: Time, apphostTimeout: Time)
    requires Keeps(Create(t, h, appName, pluginPath, now, timeout), ops, NextId(t))
    ensures var id := NextId(t);
      var fails := id in Failing(ApplyAll(Create(t, h, appName, pluginPath, now, timeout), ops), exited, later,
                                 clientTimeout, apphostTimeout);
      var v, u, pid := ClientMark(ops, id, now), ApphostMark(ops, id, now), PidMark(ops, id, -1);
      match StateMark(ops, id, Spawning)
      case Spawning => fails <==> (pid > 0 && pid in exited) || later > now + timeout
      case Active => fails <==> (pid > 0 && pid in exited) || later - v > clientTimeout || later - u > apphostTimeout
      case Closing => !fails
      case Dead => false
  {
    RecordAfterRun(Create(t, h, appName, pluginPath, now, timeout), ops, NextId(t));
  }

  /** A bound session that nobody marks any more is failed by every pass from the later timeout on. */
  lemma {:induction false} SilenceIsNoticed(t: Table, s: SessionId, ops: seq<Op>, exited: seq<int>, later: Time,
                                            clientTimeout: Time, apphostTimeout: Time)
    requires s in t.recs && t.recs[s].state == Active && Keeps(t, ops, s)
    requires forall k :: 0 <= k < |ops| ==> !MarksApphost(ops[k], s) && ops[k] != OpToClosing(s)
    requires later - t.recs[s].lastApphostSeen > apphostTimeout
    ensures s in Failing(ApplyAll(t, ops), exited, later, clientTimeout, apphostTimeout)
  {
    RecordAfterRun(t, ops, s);
    ApphostMarkIsLast(ops, s, t.recs[s].lastApphostSeen);
    StateStays(ops, s, Active);
  }

  lemma {:induction false} StateStays(ops: seq<Op>, s: SessionId, st: SessionState)
    requires forall k :: 0 <= k < |ops| ==> !(ops[k].OpBind? && ops[k].s == s) && ops[k] != OpToClosing(s)
    ensures StateMark(ops, s, st) == st
  {
    if ops != [] {
      StateStays(ops[1..], s, st);
    }
  }

  /** These processes have been dealt with: exactly their sessions have failed, been told and are gone. */
  ghost predicate ReapedSoFar(g: Gw, pids: seq<int>, failed: set<SessionId>, fs: seq<Failure>, before: seq<Out>,
                              after: Gw, out: seq<Out>) {
    && failed == Doomed(g.table, pids) && after == Minus(g, failed)
    && Logged(g, fs, before, out) && Tells(fs, AllTold(failed))
  }

  lemma ReapStart(g: Gw, before: seq<Out>)
    ensures ReapedSoFar(g, [], {}, [], before, g, before)
  {
    MinusNothing(g);
    NothingLogged(g, before);
    assert Doomed(g.table, []) == {};
  }

  lemma DoomedStep(g: Gw, exited: seq<int>, i: nat)
    requires i < |exited|
    ensures var failed := Doomed(g.table, exited[..i]);
      var more := Doomed(Minus(g, failed).table, [exited[i]]);
      Doomed(g.table, exited[..i + 1]) == failed + more && failed !! more
          && Minus(Minus(g, failed), more) == Minus(g, failed + more)
  {
    var failed := Doomed(g.table, exited[..i]);
    assert exited[..i + 1] == exited[..i] + [exited[i]];
    MinusMinus(g, failed, Doomed(Minus(g, failed).table, [exited[i]]));
  }

  lemma ReapStep(g: Gw, exited: seq<int>, i: nat, failed: set<SessionId>, fs: seq<Failure>, before: seq<Out>,
                 mid: Gw, soFar: seq<Out>, later: seq<Failure>, out: seq<Out>)
    requires i < |exited| && ReapedSoFar(g, exited[..i], failed, fs, before, mid, soFar)
    requires var more := Doomed(mid.table, [exited[i]]); Logged(mid, later, soFar, out) && Tells(later, AllTold(more))
    ensures var more := Doomed(mid.table, [exited[i]]);
      ReapedSoFar(g, exited[..i + 1], failed + more, fs + later, before, Minus(mid, more), out)
  {
    var more := Doomed(mid.table, [exited[i]]);
    DoomedStep(g, exited, i);
    LoggedThen(g, fs, AllTold(failed), before, soFar, later, AllTold(more), out);
    TellsBoth(failed, more);
  }

  lemma OneDoomed(g: Gw, pid: int, found: SessionId)
    requires Inv(g) && pid > 0
    requires (exists o :: Owns(g.table.recs, PidField, pid, o)) ==> Owns(g.table.recs, PidField, pid, found)
    requires (forall o :: !Owns(g.table.recs, PidField, pid, o)) ==> found == 0
    ensures Doomed(g.table, [pid]) == if CanClose(g.table, found) then {found} else {}
  {
    forall s | s in Doomed(g.table, [pid]) ensures s == found {
      assert Owns(g.table.recs, PidField, pid, s);
    }
    if CanClose(g.table, found) {
      assert found >= 1 && Owns(g.table.recs, PidField, pid, found);
    }
  }

  lemma FailSteps(g: Gw, s: SessionId)
    requires Inv(g)
    ensures !CanClose(g.table, s) ==> Runs(g, [FailBegin(s)], g)
    ensures CanClose(g.table, s) ==>
              var g' := g.(table := Remove(g.table, s));
              Inv(g') && Runs(g, [FailBegin(s), SessionRemoved(s)], g')
                  && Remove(ToClosing(g.table, s), s) == Remove(g.table, s)
  {
    RunsOne(g, FailBegin(s));
    RunsTwo(g, FailBegin(s), SessionRemoved(s));
    FewerKeepsInv(g, Remove(g.table, s));
    assert Remove(ToClosing(g.table, s), s).recs == Remove(g.table, s).recs;
  }
}
