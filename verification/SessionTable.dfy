/** The gateway's session table: one authoritative map from session id to record, three reverse
    indexes that speed up lookups by handle and by pid, and the lifecycle over whole runs. */
module Sessions {
  import opened Protocol

  type Time = int  // milliseconds of a steady clock

  datatype SessionState = Spawning | Active | Closing | Dead

  datatype Runtime = Runtime(
    sessionId: SessionId, state: SessionState, clientConn: Handle, apphostConn: Handle, apphostPid: int,
    appName: string, pluginPath: string,
    createdAt: Time, spawnDeadline: Time, lastClientSeen: Time, lastApphostSeen: Time)

  datatype Route = Route(clientConn: Handle, apphostConn: Handle)

  datatype Snapshot = Snapshot(
    sessionId: SessionId, state: SessionState, clientConn: Handle, apphostConn: Handle, apphostPid: int,
    spawnDeadline: Time, lastClientSeen: Time, lastApphostSeen: Time)

  function SnapshotFrom(rt: Runtime): Snapshot {
    Snapshot(rt.sessionId, rt.state, rt.clientConn, rt.apphostConn, rt.apphostPid,
             rt.spawnDeadline, rt.lastClientSeen, rt.lastApphostSeen)
  }

  /// The single map
  /// --------------

  const ID_SPACE: nat := 0x1_0000_0000

  /** `created` counts the sessions ever created; the 32-bit id counter is one ahead of it. */
  datatype Table = Table(created: nat, recs: map<SessionId, Runtime>)

  function NextId(t: Table): SessionId {
    (t.created + 1) % ID_SPACE
  }

  function Create(t: Table, client: Handle, appName: string, pluginPath: string, now: Time, timeout: Time): Table {
    Table(t.created + 1,
          t.recs[NextId(t) := Runtime(NextId(t), Spawning, client, 0, -1, appName, pluginPath, now, now + timeout, now,
              now)])
  }

  function SetPid(t: Table, s: SessionId, pid: int): Table {
    if s !in t.recs then t else t.(recs := t.recs[s := t.recs[s].(apphostPid := pid)])
  }

  predicate CanBind(t: Table, s: SessionId) {
    s in t.recs && t.recs[s].state != Dead
  }

  function Bind(t: Table, s: SessionId, apphost: Handle, now: Time): Table {
    if !CanBind(t, s) then t
    else t.(recs := t.recs[s := t.recs[s].(apphostConn := apphost, state := Active, lastApphostSeen := now)])
  }

  function MarkClient(t: Table, s: SessionId, now: Time): Table {
    if s !in t.recs then t else t.(recs := t.recs[s := t.recs[s].(lastClientSeen := now)])
  }

  function MarkApphost(t: Table, s: SessionId, now: Time): Table {
    if s !in t.recs then t else t.(recs := t.recs[s := t.recs[s].(lastApphostSeen := now)])
  }

  predicate CanClose(t: Table, s: SessionId) {
    s in t.recs && t.recs[s].state != Dead && t.recs[s].state != Closing
  }

  function ToClosing(t: Table, s: SessionId): Table {
    if !CanClose(t, s) then t else t.(recs := t.recs[s := t.recs[s].(state := Closing)])
  }

  function Remove(t: Table, s: SessionId): Table {
    t.(recs := t.recs - {s})
  }

  function FindRoute(t: Table, s: SessionId): Route {
    if s in t.recs then Route(t.recs[s].clientConn, t.recs[s].apphostConn) else Route(0, 0)
  }

  /// Reverse indexes
  /// ---------------

  datatype Field = ClientField | ApphostField | PidField

  /** The value a record contributes to an index; only positive ones are indexed. */
  function KeyOf(rt: Runtime, f: Field): int {
    match f
    case ClientField => rt.clientConn
    case ApphostField => rt.apphostConn
    case PidField => rt.apphostPid
  }

  /** The index is the exact inverse of the records' field. */
  ghost predicate Exact(index: map<int, SessionId>, recs: map<SessionId, Runtime>, f: Field) {
    && (forall k :: k in index ==> k > 0 && index[k] in recs && KeyOf(recs[index[k]], f) == k)
    && (forall s :: s in recs && KeyOf(recs[s], f) > 0 ==> KeyOf(recs[s], f) in index && index[KeyOf(recs[s], f)] == s)
  }

  ghost predicate Owns(recs: map<SessionId, Runtime>, f: Field, key: int, s: SessionId) {
    s in recs && KeyOf(recs[s], f) == key
  }

  /** No session other than `s` has this key. */
  ghost predicate FreeFor(recs: map<SessionId, Runtime>, f: Field, key: int, s: SessionId) {
    forall o :: Owns(recs, f, key, o) ==> o == s
  }

  /** A lookup in an exact index is the unique owner a full scan would find. */
  lemma LookupIsScan(index: map<int, SessionId>, recs: map<SessionId, Runtime>, f: Field, key: int)
    requires Exact(index, recs, f) && key > 0
    ensures key in index ==> Owns(recs, f, key, index[key]) && FreeFor(recs, f, key, index[key])
    ensures key !in index ==> forall s :: !Owns(recs, f, key, s)
  {
  }

  function Unindex(index: map<int, SessionId>, key: int): map<int, SessionId> {
    if key > 0 then index - {key} else index
  }

  /** Storing a record under an id and pointing an index at it unconditionally, after dropping the
      record's old key, keeps the index exact if and only if the new key is positive and free. */
  lemma ReindexExact(index: map<int, SessionId>, recs: map<SessionId, Runtime>, f: Field, s: SessionId, rt: Runtime)
    requires Exact(index, recs, f)
    ensures var old' := if s in recs then Unindex(index, KeyOf(recs[s], f)) else index;
      Exact(old'[KeyOf(rt, f) := s], recs[s := rt], f) <==> KeyOf(rt, f) > 0 && FreeFor(recs, f, KeyOf(rt, f), s)
  {
    var old' := if s in recs then Unindex(index, KeyOf(recs[s], f)) else index;
    var key, index', recs' := KeyOf(rt, f), old'[KeyOf(rt, f) := s], recs[s := rt];
    if Exact(index', recs', f) {
      assert key in index';
      forall o | Owns(recs, f, key, o) ensures o == s {
        assert o in recs';
      }
    }
    if key > 0 && FreeFor(recs, f, key, s) {
      forall o | o in recs' && KeyOf(recs'[o], f) > 0
          ensures KeyOf(recs'[o], f) in index' && index'[KeyOf(recs'[o], f)] == o {
        if o != s {
          assert Owns(recs, f, KeyOf(recs[o], f), o);
        }
      }
    }
  }

  /** Storing a record with no key, after dropping the old one, keeps the index exact. */
  lemma UnkeyedExact(index: map<int, SessionId>, recs: map<SessionId, Runtime>, f: Field, s: SessionId, rt: Runtime)
    requires Exact(index, recs, f) && KeyOf(rt, f) <= 0
    ensures Exact(if s in recs then Unindex(index, KeyOf(recs[s], f)) else index, recs[s := rt], f)
  {
  }

  lemma SameKeyExact(index: map<int, SessionId>, recs: map<SessionId, Runtime>, f: Field, s: SessionId, rt: Runtime)
    requires Exact(index, recs, f) && s in recs && KeyOf(rt, f) == KeyOf(recs[s], f)
    ensures Exact(index, recs[s := rt], f)
  {
  }

  /** A record update that changes no indexed field leaves all three indexes exact. */
  lemma TouchKeepsIndexed(byClient: map<int, SessionId>, byApphost: map<int, SessionId>, byPid: map<int, SessionId>,
                          recs: map<SessionId, Runtime>, s: SessionId, rt: Runtime)
    requires s in recs && forall f :: KeyOf(rt, f) == KeyOf(recs[s], f)
    ensures Exact(byClient, recs, ClientField) ==> Exact(byClient, recs[s := rt], ClientField)
    ensures Exact(byApphost, recs, ApphostField) ==> Exact(byApphost, recs[s := rt], ApphostField)
    ensures Exact(byPid, recs, PidField) ==> Exact(byPid, recs[s := rt], PidField)
  {
  }

  lemma RemoveExact(index: map<int, SessionId>, recs: map<SessionId, Runtime>, f: Field, s: SessionId)
    requires Exact(index, recs, f) && s in recs
    ensures Exact(Unindex(index, KeyOf(recs[s], f)), recs - {s}, f)
  {
  }

  /// The three indexes as one value
  /// ------------------------------

  datatype Indexes = Indexes(byClient: map<int, SessionId>, byApphost: map<int, SessionId>, byPid: map<int, SessionId>)

  ghost predicate AllExact(ix: Indexes, recs: map<SessionId, Runtime>) {
    Exact(ix.byClient, recs, ClientField) && Exact(ix.byApphost, recs, ApphostField) && Exact(ix.byPid, recs, PidField)
  }

  function IndexCreate(ix: Indexes, client: Handle, id: SessionId): Indexes {
    ix.(byClient := ix.byClient[client := id])
  }

  function IndexPid(ix: Indexes, t: Table, s: SessionId, pid: int): Indexes {
    if s !in t.recs then ix
    else
      var dropped := Unindex(ix.byPid, t.recs[s].apphostPid);
      ix.(byPid := if pid > 0 then dropped[pid := s] else dropped)
  }

  function IndexBind(ix: Indexes, t: Table, s: SessionId, apphost: Handle): Indexes {
    if !CanBind(t, s) then ix else ix.(byApphost := Unindex(ix.byApphost, t.recs[s].apphostConn)[apphost := s])
  }

  function IndexRemove(ix: Indexes, t: Table, s: SessionId): Indexes {
    if s !in t.recs then ix
    else
      Indexes(Unindex(ix.byClient, t.recs[s].clientConn), Unindex(ix.byApphost, t.recs[s].apphostConn),
              Unindex(ix.byPid, t.recs[s].apphostPid))
  }

  function IndexRemoveClient(ix: Indexes, t: Table, client: Handle): Indexes {
    if client !in ix.byClient then ix
    else
      var s := ix.byClient[client];
      if s !in t.recs then ix.(byClient := ix.byClient - {client})
      else
        Indexes(ix.byClient - {client}, Unindex(ix.byApphost, t.recs[s].apphostConn),
            Unindex(ix.byPid, t.recs[s].apphostPid))
  }

  function IndexRemoveApphost(ix: Indexes, t: Table, apphost: Handle): Indexes {
    if apphost !in ix.byApphost then ix
    else
      var s := ix.byApphost[apphost];
      if s !in t.recs then ix.(byApphost := ix.byApphost - {apphost})
      else
        Indexes(Unindex(ix.byClient, t.recs[s].clientConn), ix.byApphost - {apphost},
            Unindex(ix.byPid, t.recs[s].apphostPid))
  }

  lemma CreateExact(ix: Indexes, t: Table, client: Handle, appName: string, pluginPath: string, now: Time,
                    timeout: Time)
    requires AllExact(ix, t.recs) && NextId(t) !in t.recs && client > 0
          && FreeFor(t.recs, ClientField, client, NextId(t))
    ensures AllExact(IndexCreate(ix, client, NextId(t)), Create(t, client, appName, pluginPath, now, timeout).recs)
  {
    var rt := Create(t, client, appName, pluginPath, now, timeout).recs[NextId(t)];
    ReindexExact(ix.byClient, t.recs, ClientField, NextId(t), rt);
    UnkeyedExact(ix.byApphost, t.recs, ApphostField, NextId(t), rt);
    UnkeyedExact(ix.byPid, t.recs, PidField, NextId(t), rt);
  }

  lemma PidExact(ix: Indexes, t: Table, s: SessionId, pid: int)
    requires AllExact(ix, t.recs) && (pid > 0 ==> FreeFor(t.recs, PidField, pid, s))
    ensures AllExact(IndexPid(ix, t, s, pid), SetPid(t, s, pid).recs)
  {
    if s in t.recs {
      var rt := t.recs[s].(apphostPid := pid);
      SameKeyExact(ix.byClient, t.recs, ClientField, s, rt);
      SameKeyExact(ix.byApphost, t.recs, ApphostField, s, rt);
      if pid > 0 {
        ReindexExact(ix.byPid, t.recs, PidField, s, rt);
      } else {
        UnkeyedExact(ix.byPid, t.recs, PidField, s, rt);
      }
    }
  }

  lemma BindExact(ix: Indexes, t: Table, s: SessionId, apphost: Handle, now: Time)
    requires AllExact(ix, t.recs) && (CanBind(t, s) ==> apphost > 0 && FreeFor(t.recs, ApphostField, apphost, s))
    ensures AllExact(IndexBind(ix, t, s, apphost), Bind(t, s, apphost, now).recs)
  {
    if CanBind(t, s) {
      var rt := Bind(t, s, apphost, now).recs[s];
      SameKeyExact(ix.byClient, t.recs, ClientField, s, rt);
      SameKeyExact(ix.byPid, t.recs, PidField, s, rt);
      ReindexExact(ix.byApphost, t.recs, ApphostField, s, rt);
    }
  }

  lemma RemovalExact(ix: Indexes, t: Table, s: SessionId)
    requires AllExact(ix, t.recs)
    ensures AllExact(IndexRemove(ix, t, s), Remove(t, s).recs)
  {
    if s in t.recs {
      RemoveExact(ix.byClient, t.recs, ClientField, s);
      RemoveExact(ix.byApphost, t.recs, ApphostField, s);
      RemoveExact(ix.byPid, t.recs, PidField, s);
    } else {
      assert t.recs - {s} == t.recs;
    }
  }

  /** Removing by an unowned key changes nothing. */
  lemma UnownedRemoval(ix: Indexes, t: Table, key: Handle)
    requires AllExact(ix, t.recs)
    ensures (forall o :: !Owns(t.recs, ClientField, key, o)) ==> IndexRemoveClient(ix, t, key) == ix
    ensures (forall o :: !Owns(t.recs, ApphostField, key, o)) ==> IndexRemoveApphost(ix, t, key) == ix
  {
    assert key in ix.byClient ==> Owns(t.recs, ClientField, key, ix.byClient[key]);
    assert key in ix.byApphost ==> Owns(t.recs, ApphostField, key, ix.byApphost[key]);
  }

  /// Facts every table keeps
  /// -----------------------

  ghost predicate Sane(t: Table) {
    forall s :: s in t.recs ==>
      && t.recs[s].sessionId == s
      && t.recs[s].state != Dead
      && (t.recs[s].state == Spawning ==> t.recs[s].apphostConn == 0)
      && (t.recs[s].state == Active ==> t.recs[s].apphostConn > 0)
  }

  /** All ids stored have been issued, and the counter has not wrapped. */
  ghost predicate Issued(t: Table) {
    t.created < ID_SPACE && forall s :: s in t.recs ==> 1 <= s <= t.created
  }

  class SessionTable {
    var nextSessionId: SessionId
    var bySession: map<SessionId, Runtime>
    var byClient: map<int, SessionId>
    var byApphost: map<int, SessionId>
    var byPid: map<int, SessionId>
    ghost var created: nat

    ghost predicate Valid()
      reads this
    {
      nextSessionId == (created + 1) % ID_SPACE
    }

    /** The single map the four maps refine. */
    ghost function View(): Table
      reads this
    {
      Table(created, bySession)
    }

    ghost function Index(): Indexes
      reads this
    {
      Indexes(byClient, byApphost, byPid)
    }

    ghost predicate Indexed()
      reads this
    {
      AllExact(Index(), bySession)
    }

    constructor ()
      ensures Valid() && Indexed() && View() == Table(0, map[]) && Index() == Indexes(map[], map[], map[])
    {
      nextSessionId, bySession, byClient, byApphost, byPid := 1, map[], map[], map[], map[];
      created := 0;
    }

    /** The indexes stay exact if and only if the client handle is real and owns no session. */
    method CreateSpawningSession(client: Handle, appName: string, pluginPath: string, now: Time, timeout: Time)
      returns (id: SessionId)
      requires Valid()
      modifies this
      ensures Valid() && id == NextId(old(View()))
      ensures View() == Create(old(View()), client, appName, pluginPath, now, timeout)
      ensures Index() == IndexCreate(old(Index()), client, id)
      ensures id == (old(created) + 1) % 0x1_0000_0000 && created == old(created) + 1
      ensures id in bySession && bySession == old(bySession)[id := bySession[id]]
      ensures var rt := bySession[id];
        && rt.sessionId == id && rt.state == Spawning && rt.clientConn == client && rt.apphostConn == 0
        && rt.apphostPid == -1 && rt.appName == appName && rt.pluginPath == pluginPath
        && rt.createdAt == rt.lastClientSeen == rt.lastApphostSeen == now && rt.spawnDeadline == now + timeout
      ensures old(Indexed()) && id !in old(bySession) ==>
                (Indexed() <==> client > 0 && FreeFor(old(bySession), ClientField, client, id))
    {
      id := nextSessionId;
      nextSessionId := (nextSessionId as int + 1) % ID_SPACE;
      created := created + 1;
      var rt := Runtime(id, Spawning, client, 0, -1, appName, pluginPath, now, now + timeout, now, now);
      bySession := bySession[id := rt];
      byClient := byClient[client := id];
      if old(Indexed()) && id !in old(bySession) {
        ReindexExact(old(byClient), old(bySession), ClientField, id, rt);
        UnkeyedExact(byApphost, old(bySession), ApphostField, id, rt);
        UnkeyedExact(byPid, old(bySession), PidField, id, rt);
      }
    }

    method CreateForClient(client: Handle, now: Time) returns (id: SessionId)
      requires Valid()
      modifies this
      ensures Valid() && id == NextId(old(View())) && View() == Create(old(View()), client, "", "", now, 0)
      ensures Index() == IndexCreate(old(Index()), client, id)
      ensures old(Indexed()) && id !in old(bySession) ==>
                (Indexed() <==> client > 0 && FreeFor(old(bySession), ClientField, client, id))
    {
      id := CreateSpawningSession(client, "", "", now, 0);
    }

    /** The indexes stay exact if and only if a positive pid is not another session's. */
    method SetApphostPid(s: SessionId, pid: int) returns (ok: bool)
      requires Valid()
      modifies this
      ensures Valid() && View() == SetPid(old(View()), s, pid) && (ok <==> s in old(bySession))
      ensures Index() == IndexPid(old(Index()), old(View()), s, pid)
      ensures bySession == if ok then old(bySession)[s := old(bySession)[s].(apphostPid := pid)] else old(bySession)
      ensures old(Indexed()) ==>
                (Indexed() <==> !ok || pid <= 0 || FreeFor(old(bySession), PidField, pid, s))
    {
      if s !in bySession {
        return false;
      }
      var rt := bySession[s];
      if rt.apphostPid > 0 {
        byPid := byPid - {rt.apphostPid};
      }
      bySession := bySession[s := rt.(apphostPid := pid)];
      if pid > 0 {
        byPid := byPid[pid := s];
      }
      if old(Indexed()) {
        SameKeyExact(byClient, old(bySession), ClientField, s, bySession[s]);
        SameKeyExact(byApphost, old(bySession), ApphostField, s, bySession[s]);
        if pid > 0 {
          ReindexExact(old(byPid), old(bySession), PidField, s, bySession[s]);
        } else {
          UnkeyedExact(old(byPid), old(bySession), PidField, s, bySession[s]);
        }
      }
      return true;
    }

    /** Any session not DEAD is bound, even one being closed. The indexes stay exact if and only if
        nothing is bound, or the handle is real and not another session's. */
    method BindApphost(s: SessionId, apphost: Handle, now: Time) returns (ok: bool)
      requires Valid()
      modifies this
      ensures Valid() && View() == Bind(old(View()), s, apphost, now) && (ok <==> CanBind(old(View()), s))
      ensures Index() == IndexBind(old(Index()), old(View()), s, apphost)
      ensures ok <==> s in old(bySession) && old(bySession)[s].state != Dead
      ensures bySession ==
              if ok
              then old(bySession)[s := old(bySession)[s].(apphostConn := apphost, state := Active,
                                                          lastApphostSeen := now)]
              else old(bySession)
      ensures old(Indexed()) ==>
                (Indexed() <==> !ok || (apphost > 0 && FreeFor(old(bySession), ApphostField, apphost, s)))
    {
      if s !in bySession || bySession[s].state == Dead {
        return false;
      }
      var rt := bySession[s];
      if rt.apphostConn != 0 {
        byApphost := byApphost - {rt.apphostConn};
      }
      bySession := bySession[s := rt.(apphostConn := apphost, state := Active, lastApphostSeen := now)];
      byApphost := byApphost[apphost := s];
      if old(Indexed()) {
        SameKeyExact(byClient, old(bySession), ClientField, s, bySession[s]);
        SameKeyExact(byPid, old(bySession), PidField, s, bySession[s]);
        ReindexExact(old(byApphost), old(bySession), ApphostField, s, bySession[s]);
      }
      return true;
    }

    method Find(s: SessionId) returns (r: Route)
      ensures r == FindRoute(View(), s)
      ensures r == if s in bySession then Route(bySession[s].clientConn, bySession[s].apphostConn) else Route(0, 0)
    {
      if s !in bySession {
        return Route(0, 0);
      }
      return Route(bySession[s].clientConn, bySession[s].apphostConn);
    }

    method FindByPid(pid: int) returns (s: SessionId)
      ensures Indexed() && pid > 0 && (exists o :: Owns(bySession, PidField, pid, o)) ==>
                Owns(bySession, PidField, pid, s) && FreeFor(bySession, PidField, pid, s)
      ensures Indexed() && (pid <= 0 || forall o :: !Owns(bySession, PidField, pid, o)) ==> s == 0
    {
      s := if pid in byPid then byPid[pid] else 0;
    }

    method HasActiveOrSpawningForClient(client: Handle) returns (b: bool)
      ensures Indexed() && client > 0 ==>
                (b <==> exists s ::
                          && Owns(bySession, ClientField, client, s)
                          && (bySession[s].state == Spawning || bySession[s].state == Active))
    {
      if client !in byClient {
        return false;
      }
      var s := byClient[client];
      if s !in bySession {
        return false;
      }
      b := bySession[s].state == Spawning || bySession[s].state == Active;
      if Indexed() && client > 0 {
        LookupIsScan(byClient, bySession, ClientField, client);
        assert Owns(bySession, ClientField, client, s);
      }
    }

    method MarkClientSeen(s: SessionId, now: Time) returns (ok: bool)
      requires Valid()
      modifies this
      ensures Valid() && View() == MarkClient(old(View()), s, now) && (ok <==> s in old(bySession))
            && Index() == old(Index())
      ensures bySession == if ok then old(bySession)[s := old(bySession)[s].(lastClientSeen := now)] else old(bySession)
      ensures old(Indexed()) ==> Indexed()
    {
      if s !in bySession {
        return false;
      }
      bySession := bySession[s := bySession[s].(lastClientSeen := now)];
      TouchKeepsIndexed(old(byClient), old(byApphost), old(byPid), old(bySession), s, bySession[s]);
      return true;
    }

    method MarkApphostSeen(s: SessionId, now: Time) returns (ok: bool)
      requires Valid()
      modifies this
      ensures Valid() && View() == MarkApphost(old(View()), s, now) && (ok <==> s in old(bySession))
            && Index() == old(Index())
      ensures bySession ==
              if ok then old(bySession)[s := old(bySession)[s].(lastApphostSeen := now)] else old(bySession)
      ensures old(Indexed()) ==> Indexed()
    {
      if s !in bySession {
        return false;
      }
      bySession := bySession[s := bySession[s].(lastApphostSeen := now)];
      TouchKeepsIndexed(old(byClient), old(byApphost), old(byPid), old(bySession), s, bySession[s]);
      return true;
    }

    /** Every session exactly once, in no particular order. */
    method SnapshotSessions() returns (out: seq<Snapshot>)
      requires Sane(View())
      ensures forall i :: 0 <= i < |out| ==>
            out[i].sessionId in bySession && out[i] == SnapshotFrom(bySession[out[i].sessionId])
      ensures forall i, j :: 0 <= i < j < |out| ==> out[i].sessionId != out[j].sessionId
      ensures forall s :: s in bySession ==> exists i :: 0 <= i < |out| && out[i].sessionId == s
    {
      out := [];
      var rest := bySession.Keys;
      while rest != {}
        invariant rest <= bySession.Keys
        invariant forall i :: 0 <= i < |out| ==>
                    out[i].sessionId in bySession && out[i].sessionId !in rest
                        && out[i] == SnapshotFrom(bySession[out[i].sessionId])
        invariant forall i, j :: 0 <= i < j < |out| ==> out[i].sessionId != out[j].sessionId
        invariant forall s :: s in bySession && s !in rest ==> exists i :: 0 <= i < |out| && out[i].sessionId == s
        decreases rest
      {
        var s :| s in rest;
        ghost var before := out;
        out := out + [SnapshotFrom(bySession[s])];
        rest := rest - {s};
        assert out[|before|].sessionId == s;
        forall o | o in bySession && o !in rest ensures exists i :: 0 <= i < |out| && out[i].sessionId == o {
          if o != s {
            var i :| 0 <= i < |before| && before[i].sessionId == o;
            assert out[i].sessionId == o;
          }
        }
      }
    }

    method TransitionToClosing(s: SessionId) returns (ok: bool, route: Route, pid: int)
      requires Valid()
      modifies this
      ensures Valid() && View() == ToClosing(old(View()), s) && (ok <==> CanClose(old(View()), s))
      ensures ok ==> route == FindRoute(old(View()), s) && pid == old(bySession)[s].apphostPid
      ensures !ok ==> route == Route(0, 0) && pid == -1
      ensures ok <==> s in old(bySession) && old(bySession)[s].state != Dead && old(bySession)[s].state != Closing
      ensures bySession == if ok then old(bySession)[s := old(bySession)[s].(state := Closing)] else old(bySession)
      ensures ok ==> route == Route(old(bySession)[s].clientConn, old(bySession)[s].apphostConn)
      ensures Index() == old(Index()) && (old(Indexed()) ==> Indexed())
    {
      if s !in bySession || bySession[s].state == Dead || bySession[s].state == Closing {
        return false, Route(0, 0), -1;
      }
      bySession := bySession[s := bySession[s].(state := Closing)];
      TouchKeepsIndexed(old(byClient), old(byApphost), old(byPid), old(bySession), s, bySession[s]);
      return true, Route(bySession[s].clientConn, bySession[s].apphostConn), bySession[s].apphostPid;
    }

    method GetPid(s: SessionId) returns (ok: bool, pid: int)
      ensures ok <==> s in bySession
      ensures ok ==> pid == bySession[s].apphostPid
      ensures !ok ==> pid == -1
    {
      if s !in bySession {
        return false, -1;
      }
      return true, bySession[s].apphostPid;
    }

    method RemoveSession(s: SessionId)
      requires Valid()
      modifies this
      ensures Valid() && View() == Remove(old(View()), s) && bySession == old(bySession) - {s}
      ensures Index() == IndexRemove(old(Index()), old(View()), s)
      ensures old(Indexed()) ==> Indexed()
    {
      if old(Indexed()) {
        RemovalExact(Index(), View(), s);
      }
      if s !in bySession {
        assert bySession - {s} == bySession;
        return;
      }
      var rt := bySession[s];
      if rt.clientConn != 0 {
        byClient := byClient - {rt.clientConn};
      }
      if rt.apphostConn != 0 {
        byApphost := byApphost - {rt.apphostConn};
      }
      if rt.apphostPid > 0 {
        byPid := byPid - {rt.apphostPid};
      }
      bySession := bySession - {s};
    }

    /** Removes precisely the session a full scan for the handle would find, if there is one. */
    method RemoveByClient(client: Handle) returns (s: SessionId)
      requires Valid()
      modifies this
      ensures Valid() && created == old(created) && (old(Indexed()) ==> Indexed())
      ensures old(Indexed()) && (forall o :: !Owns(old(bySession), ClientField, client, o)) ==>
            s == 0 && View() == old(View())
      ensures old(Indexed()) && client > 0 ==>
                forall o :: Owns(old(bySession), ClientField, client, o) ==> s == o && View() == Remove(old(View()), o)
      ensures old(Indexed()) && client > 0 ==>
                forall x :: x in bySession <==> x in old(bySession) && old(bySession)[x].clientConn != client
      ensures forall x :: x in bySession ==> x in old(bySession) && bySession[x] == old(bySession)[x]
      ensures Index() == IndexRemoveClient(old(Index()), old(View()), client)
    {
      if client !in byClient {
        return 0;
      }
      s := byClient[client];
      assert Indexed() ==> Owns(bySession, ClientField, client, s);
      if s in bySession {
        if bySession[s].apphostConn != 0 {
          byApphost := byApphost - {bySession[s].apphostConn};
        }
        if bySession[s].apphostPid > 0 {
          byPid := byPid - {bySession[s].apphostPid};
        }
        bySession := bySession - {s};
      }
      byClient := byClient - {client};
      if old(Indexed()) {
        RemoveExact(old(byClient), old(bySession), ClientField, s);
        RemoveExact(old(byApphost), old(bySession), ApphostField, s);
        RemoveExact(old(byPid), old(bySession), PidField, s);
      }
    }

    method RemoveByApphost(apphost: Handle) returns (s: SessionId)
      requires Valid()
      modifies this
      ensures Valid() && created == old(created) && (old(Indexed()) ==> Indexed())
      ensures old(Indexed()) && (forall o :: !Owns(old(bySession), ApphostField, apphost, o)) ==>
            s == 0 && View() == old(View())
      ensures old(Indexed()) && apphost > 0 ==>
                forall o :: Owns(old(bySession), ApphostField, apphost, o) ==>
                    s == o && View() == Remove(old(View()), o)
      ensures old(Indexed()) && apphost > 0 ==>
                forall x :: x in bySession <==> x in old(bySession) && old(bySession)[x].apphostConn != apphost
      ensures forall x :: x in bySession ==> x in old(bySession) && bySession[x] == old(bySession)[x]
      ensures Index() == IndexRemoveApphost(old(Index()), old(View()), apphost)
    {
      if apphost !in byApphost {
        return 0;
      }
      s := byApphost[apphost];
      assert Indexed() ==> Owns(bySession, ApphostField, apphost, s);
      if s in bySession {
        if bySession[s].clientConn != 0 {
          byClient := byClient - {bySession[s].clientConn};
        }
        if bySession[s].apphostPid > 0 {
          byPid := byPid - {bySession[s].apphostPid};
        }
        bySession := bySession - {s};
      }
      byApphost := byApphost - {apphost};
      if old(Indexed()) {
        RemoveExact(old(byClient), old(bySession), ClientField, s);
        RemoveExact(old(byApphost), old(bySession), ApphostField, s);
        RemoveExact(old(byPid), old(bySession), PidField, s);
      }
    }
  }

  /// Lifecycle over runs
  /// -------------------

  datatype Op =
    | OpCreate(client: Handle, appName: string, pluginPath: string, now: Time, timeout: Time)
    | OpSetPid(s: SessionId, pid: int)
    | OpBind(s: SessionId, apphost: Handle, now: Time)
    | OpMarkClient(s: SessionId, now: Time)
    | OpMarkApphost(s: SessionId, now: Time)
    | OpToClosing(s: SessionId)
    | OpRemove(s: SessionId)

  function Apply(t: Table, op: Op): Table {
    match op
    case OpCreate(c, a, p, now, timeout) => Create(t, c, a, p, now, timeout)
    case OpSetPid(s, pid) => SetPid(t, s, pid)
    case OpBind(s, a, now) => Bind(t, s, a, now)
    case OpMarkClient(s, now) => MarkClient(t, s, now)
    case OpMarkApphost(s, now) => MarkApphost(t, s, now)
    case OpToClosing(s) => ToClosing(t, s)
    case OpRemove(s) => Remove(t, s)
  }

  function ApplyAll(t: Table, ops: seq<Op>): Table
    decreases |ops|
  {
    if ops == [] then t else ApplyAll(Apply(t, ops[0]), ops[1..])
  }

  /// What a run leaves of a session
  /// ------------------------------

  /** No operation of the run removes the session or is a creation that is handed its id. */
  predicate Keeps(t: Table, ops: seq<Op>, s: SessionId)
    decreases |ops|
  {
    ops == []
    || (&& !(ops[0].OpRemove? && ops[0].s == s)
        && !(ops[0].OpCreate? && (t.created + 1) % 0x1_0000_0000 == s)
        && Keeps(Apply(t, ops[0]), ops[1..], s))
  }

  predicate MarksClient(op: Op, s: SessionId) {
    op.OpMarkClient? && op.s == s
  }

  /** Hearing from the AppHost, or binding it. */
  predicate MarksApphost(op: Op, s: SessionId) {
    (op.OpMarkApphost? || op.OpBind?) && op.s == s
  }

  /** When the session's client was last heard of, `v` if not during the run; and its AppHost. */
  function ClientMark(ops: seq<Op>, s: SessionId, v: Time): Time {
    if ops == [] then v else ClientMark(ops[1..], s, if MarksClient(ops[0], s) then ops[0].now else v)
  }

  function ApphostMark(ops: seq<Op>, s: SessionId, u: Time): Time {
    if ops == [] then u else ApphostMark(ops[1..], s, if MarksApphost(ops[0], s) then ops[0].now else u)
  }

  /** The pid last recorded, `pid` if none during the run. */
  function PidMark(ops: seq<Op>, s: SessionId, pid: int): int {
    if ops == [] then pid else PidMark(ops[1..], s, if ops[0].OpSetPid? && ops[0].s == s then ops[0].pid else pid)
  }

  /** A bind makes a session ACTIVE whatever it was, and closing makes it CLOSING. */
  function StateMark(ops: seq<Op>, s: SessionId, st: SessionState): SessionState {
    if ops == [] then st
    else
      StateMark(ops[1..], s,
        if ops[0].OpBind? && ops[0].s == s then Active
        else if ops[0].OpToClosing? && ops[0].s == s then Closing else st)
  }

  /** These are indeed the last ones. */
  lemma {:induction false} ClientMarkIsLast(ops: seq<Op>, s: SessionId, v: Time)
    ensures (forall k :: 0 <= k < |ops| ==> !MarksClient(ops[k], s)) ==> ClientMark(ops, s, v) == v
    ensures forall i | 0 <= i < |ops| && MarksClient(ops[i], s)
                       && (forall k :: i < k < |ops| ==> !MarksClient(ops[k], s)) ::
              ClientMark(ops, s, v) == ops[i].now
  {
    if ops != [] {
      ClientMarkIsLast(ops[1..], s, if MarksClient(ops[0], s) then ops[0].now else v);
      assert forall i :: 0 < i < |ops| ==> ops[i] == ops[1..][i - 1];
    }
  }

  lemma {:induction false} ApphostMarkIsLast(ops: seq<Op>, s: SessionId, u: Time)
    ensures (forall k :: 0 <= k < |ops| ==> !MarksApphost(ops[k], s)) ==> ApphostMark(ops, s, u) == u
    ensures forall i | 0 <= i < |ops| && MarksApphost(ops[i], s)
                       && (forall k :: i < k < |ops| ==> !MarksApphost(ops[k], s)) ::
              ApphostMark(ops, s, u) == ops[i].now
  {
    if ops != [] {
      ApphostMarkIsLast(ops[1..], s, if MarksApphost(ops[0], s) then ops[0].now else u);
      assert forall i :: 0 < i < |ops| ==> ops[i] == ops[1..][i - 1];
    }
  }

  /** After any run that keeps a session its record holds what the run last wrote there, and nothing else of it
      has changed but its AppHost handle. */
  lemma {:induction false} RecordAfterRun(t: Table, ops: seq<Op>, s: SessionId)
    requires s in t.recs && t.recs[s].state != Dead && Keeps(t, ops, s)
    ensures s in ApplyAll(t, ops).recs
    ensures var was, rt := t.recs[s], ApplyAll(t, ops).recs[s];
      rt == was.(apphostConn := rt.apphostConn, state := StateMark(ops, s, was.state),
                 apphostPid := PidMark(ops, s, was.apphostPid),
                 lastClientSeen := ClientMark(ops, s, was.lastClientSeen),
                 lastApphostSeen := ApphostMark(ops, s, was.lastApphostSeen))
    ensures ApplyAll(t, ops).recs[s].state != Dead
    decreases |ops|
  {
    if ops != [] {
      RecordAfterRun(Apply(t, ops[0]), ops[1..], s);
    }
  }

  lemma {:induction false} CreatedGrows(t: Table, ops: seq<Op>)
    ensures t.created <= ApplyAll(t, ops).created
    decreases |ops|
  {
    if ops != [] {
      CreatedGrows(Apply(t, ops[0]), ops[1..]);
    }
  }

  /** No operation stores DEAD, and states match handles. */
  lemma StepKeepsSane(t: Table, op: Op)
    requires Sane(t) && (op.OpBind? ==> op.apphost > 0)
    ensures Sane(Apply(t, op))
  {
  }

  /** In every run that binds real handles, however many sessions it creates: SPAWNING has no AppHost
      handle, ACTIVE has one, DEAD is never stored. */
  lemma {:induction false} LifecycleFacts(t: Table, ops: seq<Op>)
    requires Sane(t) && forall i :: 0 <= i < |ops| && ops[i].OpBind? ==> ops[i].apphost > 0
    ensures Sane(ApplyAll(t, ops))
    decreases |ops|
  {
    if ops != [] {
      StepKeepsSane(t, ops[0]);
      LifecycleFacts(Apply(t, ops[0]), ops[1..]);
    }
  }

  /** While fewer than 2^32 sessions have been created, every stored id has been issued, and none is 0. */
  lemma {:induction false} IdsAreIssued(t: Table, ops: seq<Op>)
    requires Issued(t) && ApplyAll(t, ops).created < ID_SPACE
    ensures Issued(ApplyAll(t, ops))
    decreases |ops|
  {
    if ops != [] {
      CreatedGrows(Apply(t, ops[0]), ops[1..]);
      IdsAreIssued(Apply(t, ops[0]), ops[1..]);
    }
  }

  /** An id once issued and no longer stored stays unroutable until creation number 2^32 + s. */
  lemma {:induction false} RemovedStaysGone(t: Table, ops: seq<Op>, s: SessionId)
    requires 1 <= s <= t.created && s !in t.recs
    requires ApplyAll(t, ops).created < ID_SPACE + s
    ensures s !in ApplyAll(t, ops).recs && FindRoute(ApplyAll(t, ops), s) == Route(0, 0)
    decreases |ops|
  {
    if ops != [] {
      CreatedGrows(Apply(t, ops[0]), ops[1..]);
      RemovedStaysGone(Apply(t, ops[0]), ops[1..], s);
    }
  }

  /** That creation hands it out again: some prefix of the run stores it. */
  lemma {:induction false} IdComesBack(t: Table, ops: seq<Op>, s: SessionId) returns (k: nat)
    requires t.created < ID_SPACE + s <= ApplyAll(t, ops).created
    ensures k <= |ops| && s in ApplyAll(t, ops[..k]).recs
    decreases |ops|
  {
    var next := Apply(t, ops[0]);
    if next.created == ID_SPACE + s {
      k := 1;
      assert ops[..1][1..] == [] && NextId(t) == s;
    } else {
      var j := IdComesBack(next, ops[1..], s);
      k := j + 1;
      assert ops[..k][1..] == ops[1..][..k - 1];
    }
  }

  lemma {:induction false} PrefixCreatesFewer(t: Table, ops: seq<Op>, k: nat)
    requires k <= |ops|
    ensures ApplyAll(t, ops[..k]).created <= ApplyAll(t, ops).created
    decreases |ops|
  {
    if k == 0 {
      assert ops[..0] == [];
      CreatedGrows(t, ops);
    } else {
      assert ops[..k][1..] == ops[1..][..k - 1];
      PrefixCreatesFewer(Apply(t, ops[0]), ops[1..], k - 1);
    }
  }

  /** Ids are reused, and exactly when: an issued id that is gone stays gone throughout a run if and only
      if the run ends before creation number 2^32 + s. */
  lemma IdReuseExact(t: Table, ops: seq<Op>, s: SessionId)
    requires 1 <= s <= t.created < ID_SPACE + s && s !in t.recs
    ensures (forall k :: 0 <= k <= |ops| ==> s !in ApplyAll(t, ops[..k]).recs)
            <==> ApplyAll(t, ops).created < ID_SPACE + s
  {
    if ApplyAll(t, ops).created < ID_SPACE + s {
      forall k | 0 <= k <= |ops| ensures s !in ApplyAll(t, ops[..k]).recs {
        PrefixCreatesFewer(t, ops, k);
        RemovedStaysGone(t, ops[..k], s);
      }
    } else {
      var k := IdComesBack(t, ops, s);
    }
  }

  /** `n` creations in a row. */
  function Creations(n: nat): (ops: seq<Op>)
    ensures |ops| == n
  {
    if n == 0 then [] else Creations(n - 1) + [OpCreate(1, "", "", 0, 0)]
  }

  lemma {:induction false} ApplySnoc(t: Table, ops: seq<Op>, op: Op)
    ensures ApplyAll(t, ops + [op]) == Apply(ApplyAll(t, ops), op)
    decreases |ops|
  {
    if ops == [] {
      assert [op][1..] == [] && ops + [op] == [op];
    } else {
      assert (ops + [op])[1..] == ops[1..] + [op];
      ApplySnoc(Apply(t, ops[0]), ops[1..], op);
    }
  }

  lemma {:induction false} CreationsCount(t: Table, n: nat)
    ensures ApplyAll(t, Creations(n)).created == t.created + n
  {
    if n > 0 {
      CreationsCount(t, n - 1);
      ApplySnoc(t, Creations(n - 1), OpCreate(1, "", "", 0, 0));
    }
  }

  /** Every id does come back: from any table there is a run that stores it again. */
  lemma ReuseReachable(t: Table, s: SessionId)
    requires 1 <= s <= t.created < ID_SPACE + s && s !in t.recs
    ensures exists ops :: s in ApplyAll(t, ops).recs
  {
    var ops := Creations(ID_SPACE + s - t.created);
    CreationsCount(t, ID_SPACE + s - t.created);
    var k := IdComesBack(t, ops, s);
  }

  /** The id handed out is 0, the gateway's value for no session, exactly at every creation whose number
      is a multiple of 2^32; the first is number 2^32. */
  lemma ZeroIsIssued(t: Table, client: Handle)
    ensures NextId(t) == 0 <==> (t.created + 1) % ID_SPACE == 0
    ensures t.created < ID_SPACE ==> (NextId(t) == 0 <==> t.created == ID_SPACE - 1)
    ensures t.created == ID_SPACE - 1 ==> 0 in Create(t, client, "", "", 0, 0).recs
  {
  }

  /** Some operation of the run successfully binds `s`. */
  predicate BindsSomewhere(t: Table, ops: seq<Op>, s: SessionId)
    decreases |ops|
  {
    ops != [] && ((ops[0].OpBind? && ops[0].s == s && CanBind(t, s)) || BindsSomewhere(Apply(t, ops[0]), ops[1..], s))
  }

  lemma {:induction false} ClosingStays(t: Table, ops: seq<Op>, s: SessionId)
    requires 1 <= s <= t.created && !CanClose(t, s)
    requires ApplyAll(t, ops).created < ID_SPACE + s && !BindsSomewhere(t, ops, s)
    ensures !CanClose(ApplyAll(t, ops), s)
    decreases |ops|
  {
    if ops != [] {
      CreatedGrows(Apply(t, ops[0]), ops[1..]);
      ClosingStays(Apply(t, ops[0]), ops[1..], s);
    }
  }

  lemma {:induction false} PrefixBindsFewer(t: Table, ops: seq<Op>, s: SessionId, k: nat)
    requires k <= |ops| && !BindsSomewhere(t, ops, s)
    ensures !BindsSomewhere(t, ops[..k], s)
    decreases |ops|
  {
    if k > 0 {
      assert ops[..k][1..] == ops[1..][..k - 1];
      PrefixBindsFewer(Apply(t, ops[0]), ops[1..], s, k - 1);
    }
  }

  lemma {:induction false} BindRevives(t: Table, ops: seq<Op>, s: SessionId) returns (k: nat)
    requires BindsSomewhere(t, ops, s)
    ensures k <= |ops| && CanClose(ApplyAll(t, ops[..k]), s)
    decreases |ops|
  {
    if ops[0].OpBind? && ops[0].s == s && CanBind(t, s) {
      k := 1;
      assert ops[..1][1..] == [];
    } else {
      var j := BindRevives(Apply(t, ops[0]), ops[1..], s);
      k := j + 1;
      assert ops[..k][1..] == ops[1..][..k - 1];
    }
  }

  /** A session that is closing, or gone, can be closed again somewhere in a run if and only if some
      operation of the run successfully binds it. */
  lemma ClosingExact(t: Table, ops: seq<Op>, s: SessionId)
    requires 1 <= s <= t.created && !CanClose(t, s) && ApplyAll(t, ops).created < ID_SPACE + s
    ensures (exists k :: 0 <= k <= |ops| && CanClose(ApplyAll(t, ops[..k]), s)) <==> BindsSomewhere(t, ops, s)
  {
    if BindsSomewhere(t, ops, s) {
      var k := BindRevives(t, ops, s);
    } else {
      forall k | 0 <= k <= |ops| ensures !CanClose(ApplyAll(t, ops[..k]), s) {
        PrefixCreatesFewer(t, ops, k);
        PrefixBindsFewer(t, ops, s, k);
        ClosingStays(t, ops[..k], s);
      }
    }
  }

  /** Cleanup starts once: two successful transitions to CLOSING of one id have a successful bind in between. */
  lemma ClosingTwiceNeedsBind(t: Table, ops: seq<Op>, s: SessionId)
    requires 1 <= s <= t.created && CanClose(t, s)
    requires ApplyAll(ToClosing(t, s), ops).created < ID_SPACE + s
    requires CanClose(ApplyAll(ToClosing(t, s), ops), s)
    ensures BindsSomewhere(ToClosing(t, s), ops, s)
  {
    if !BindsSomewhere(ToClosing(t, s), ops, s) {
      ClosingStays(ToClosing(t, s), ops, s);
    }
  }

  /** CLOSING does not absorb: a late APPHOST_READY makes the session ACTIVE again, and then cleanup can start again. */
  lemma ClosingCanRevive(t: Table, s: SessionId, apphost: Handle, now: Time)
    requires CanClose(t, s)
    ensures var u := Bind(ToClosing(t, s), s, apphost, now); u.recs[s].state == Active && CanClose(u, s)
  {
  }
}
