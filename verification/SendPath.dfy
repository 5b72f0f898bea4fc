/** The gateway's per-connection send queues over a pool that takes one buffer of at most 4000
    bytes at a time: chunking, the eager first send, drains scheduled by SENT callbacks, and
    connection slots that are reused under a generation number. The client side and the AppHost
    side of the gateway run the same code; this module models one side. */
module SendPath {
  import opened Protocol
  import opened MessageParsing

  const MAX_CHUNK: nat := 4000

  type Slot = nat

  predicate ChunkSized(chunk: seq<byte>) {
    1 <= |chunk| <= MAX_CHUNK
  }

  /** The pieces a packet is sent in: all full but the last. */
  function Chunks(data: seq<byte>): (cs: seq<seq<byte>>)
    ensures Flatten(cs) == data
    ensures forall i :: 0 <= i < |cs| ==> ChunkSized(cs[i])
    ensures forall i :: 0 <= i < |cs| - 1 ==> |cs[i]| == MAX_CHUNK
    decreases |data|
  {
    if data == [] then []
    else
      var take := if |data| <= MAX_CHUNK then |data| else MAX_CHUNK;
      assert data == data[..take] + data[take..];
      [data[..take]] + Chunks(data[take..])
  }

  method PushChunked(queue: seq<seq<byte>>, data: seq<byte>) returns (q: seq<seq<byte>>)
    ensures q == queue + Chunks(data)
    ensures Flatten(q) == Flatten(queue) + data
  {
    FlattenAppend(queue, Chunks(data));
    q := queue;
    if data == [] {
      return;
    }
    if |data| <= MAX_CHUNK {
      assert data[|data|..] == [] && data[..|data|] == data;
      return q + [data];
    }
    var off := 0;
    assert data[off..] == data;
    while off < |data|
      invariant 0 <= off <= |data|
      invariant q + Chunks(data[off..]) == queue + Chunks(data)
    {
      var take := if MAX_CHUNK < |data| - off then MAX_CHUNK else |data| - off;
      SliceSplit(data, off, take);
      assert data[off..][..take] == data[off..off + take];
      Assoc(q, [data[off..off + take]], Chunks(data[off + take..]));
      q := q + [data[off..off + take]];
      off := off + take;
    }
    assert q + Chunks(data[off..]) == q;
  }

  /// Connections and the pool
  /// ------------------------

  /** The pool's view of a connection's send buffer. Settling: the SENT callback has run but the
      busy flag is not yet clear. */
  datatype Phase = Free | Sending | Settling

  /** `enqueued` and `handed` record, for the current generation, all data accepted by enqueue and
      all bytes given to the pool. */
  datatype Conn = Conn(id: Handle, generation: nat, queue: seq<seq<byte>>, phase: Phase, cancelled: bool,
                       enqueued: seq<byte>, handed: seq<byte>)

  datatype Drain = Drain(slot: Slot, generation: nat)

  /** `active` is the intrusive list, newest first; a released slot keeps its old contents. */
  datatype Net = Net(slots: map<Slot, Conn>, active: seq<Slot>, nextGeneration: nat, drains: multiset<Drain>)

  ghost predicate WellFormed(n: Net) {
    && (forall i :: 0 <= i < |n.active| ==> n.active[i] in n.slots)
    && (forall i, j :: 0 <= i < j < |n.active| ==> n.active[i] != n.active[j])
  }

  /** The first active slot with this handle. */
  function FindIn(slots: map<Slot, Conn>, active: seq<Slot>, id: Handle): (r: Option<Slot>)
    requires forall i :: 0 <= i < |active| ==> active[i] in slots
    ensures r.Some? ==> r.value in active && r.value in slots && slots[r.value].id == id
    ensures r.None? ==> forall s :: s in active ==> slots[s].id != id
  {
    if active == [] then None
    else if slots[active[0]].id == id then Some(active[0])
    else FindIn(slots, active[1..], id)
  }

  /** The test every locked operation makes: looking the slot's handle up finds the slot itself. */
  predicate Live(n: Net, s: Slot)
    requires forall i :: 0 <= i < |n.active| ==> n.active[i] in n.slots
  {
    s in n.slots && FindIn(n.slots, n.active, n.slots[s].id) == Some(s)
  }

  predicate UniqueIds(n: Net)
    requires forall i :: 0 <= i < |n.active| ==> n.active[i] in n.slots
  {
    forall i, j :: 0 <= i < j < |n.active| ==> n.slots[n.active[i]].id != n.slots[n.active[j]].id
  }

  lemma {:induction false} FindUnique(slots: map<Slot, Conn>, active: seq<Slot>, k: nat)
    requires forall i :: 0 <= i < |active| ==> active[i] in slots
    requires forall i, j :: 0 <= i < j < |active| ==> slots[active[i]].id != slots[active[j]].id
    requires k < |active|
    ensures FindIn(slots, active, slots[active[k]].id) == Some(active[k])
  {
    if k > 0 {
      FindUnique(slots, active[1..], k - 1);
    }
  }

  /** With unique handles, exactly the active slots are live. */
  lemma LiveIffActive(n: Net, s: Slot)
    requires WellFormed(n) && UniqueIds(n)
    ensures Live(n, s) <==> s in n.active
  {
    if s in n.active {
      var k :| 0 <= k < |n.active| && n.active[k] == s;
      FindUnique(n.slots, n.active, k);
    }
  }

  /** BeginInput refuses only a busy or cancelled connection. */
  predicate Accepts(c: Conn) {
    c.phase == Free && !c.cancelled
  }

  function HandOver(c: Conn): Conn
    requires c.queue != []
  {
    c.(queue := c.queue[1..], phase := Sending, handed := c.handed + c.queue[0])
  }

  function Put(n: Net, s: Slot, c: Conn): Net {
    n.(slots := n.slots[s := c])
  }

  function Enqueue(n: Net, s: Slot, data: seq<byte>): Net
    requires WellFormed(n)
  {
    if !Live(n, s) then n
    else
      var c := n.slots[s];
      var pushed := c.(queue := c.queue + Chunks(data), enqueued := c.enqueued + data);
      if c.queue == [] && pushed.queue != [] && Accepts(pushed) then Put(n, s, HandOver(pushed))
      else Put(n, s, pushed)
  }

  function Schedule(n: Net, s: Slot): Net
    requires WellFormed(n)
  {
    if Live(n, s) then n.(drains := n.drains + multiset{Drain(s, n.slots[s].generation)}) else n
  }

  function RunDrain(n: Net, d: Drain): Net
    requires WellFormed(n)
  {
    var ran := n.(drains := n.drains - multiset{d});
    if !Live(n, d.slot) || n.slots[d.slot].generation != d.generation || n.slots[d.slot].queue == [] then ran
    else
      var c := n.slots[d.slot];
      if Accepts(c) then Put(ran, d.slot, HandOver(c))
      else if !c.cancelled then n
      else ran
  }

  function Alloc(n: Net, s: Slot, id: Handle): Net {
    Net(n.slots[s := Conn(id, n.nextGeneration + 1, [], Free, false, [], [])], [s] + n.active, n.nextGeneration + 1,
        n.drains)
  }

  function Without(active: seq<Slot>, s: Slot): (r: seq<Slot>)
    ensures forall x :: x in r ==> x in active
  {
    if active == [] then [] else if active[0] == s then active[1..] else [active[0]] + Without(active[1..], s)
  }

  lemma {:induction false} WithoutDistinct(active: seq<Slot>, s: Slot)
    requires forall i, j :: 0 <= i < j < |active| ==> active[i] != active[j]
    ensures var r := Without(active, s);
      && (forall i, j :: 0 <= i < j < |r| ==> r[i] != r[j])
      && (forall x :: x in r <==> x in active && x != s)
  {
    if active != [] && active[0] != s {
      WithoutDistinct(active[1..], s);
      var t, r := Without(active[1..], s), Without(active, s);
      assert r == [active[0]] + t;
      forall x ensures x in r <==> x in active && x != s {
        assert x in active <==> x == active[0] || x in active[1..];
      }
      assert active[0] !in active[1..] && active[0] !in t;
    }
  }

  /// Steps: lock-sized operations of the gateway, and what the pool does on its own
  /// -------------------------------------------------------------------------------

  datatype Event =
    | EvAccept(slot: Slot, id: Handle)     // a connection is accepted into a free slot
    | EvRelease(slot: Slot)
    | EvEnqueue(slot: Slot, data: seq<byte>)
    | EvSent(slot: Slot, settled: bool)    // a send completes; `settled` if the busy flag is already clear
    | EvLateSent(slot: Slot)               // a SENT callback left over from an earlier occupant of the slot
    | EvSettle(slot: Slot)
    | EvCancel(slot: Slot)
    | EvDrain(drain: Drain)

  predicate Enabled(n: Net, e: Event) {
    match e
    case EvAccept(s, _) => s !in n.active
    case EvRelease(s) => s in n.active
    case EvEnqueue(_, _) => true
    case EvSent(s, _) => s in n.active && s in n.slots && n.slots[s].phase == Sending
    case EvLateSent(s) => s in n.slots
    case EvSettle(s) => s in n.slots && n.slots[s].phase == Settling
    case EvCancel(s) => s in n.slots
    case EvDrain(d) => d in n.drains
  }

  function Step(n: Net, e: Event): Net
    requires WellFormed(n) && Enabled(n, e)
  {
    match e
    case EvAccept(s, id) => Alloc(n, s, id)
    case EvRelease(s) => n.(active := Without(n.active, s))
    case EvEnqueue(s, data) => Enqueue(n, s, data)
    case EvSent(s, settled) => Schedule(Put(n, s, n.slots[s].(phase := if settled then Free else Settling)), s)
    case EvLateSent(s) => Schedule(n, s)
    case EvSettle(s) => Put(n, s, n.slots[s].(phase := Free))
    case EvCancel(s) => Put(n, s, n.slots[s].(cancelled := true))
    case EvDrain(d) => RunDrain(n, d)
  }

  /** Nothing is lost, duplicated or reordered: what the pool was given, followed by what still
      waits, is what was enqueued; and every waiting chunk fits the pool's buffer. */
  ghost predicate StreamKept(c: Conn) {
    && c.handed + Flatten(c.queue) == c.enqueued
    && forall i :: 0 <= i < |c.queue| ==> ChunkSized(c.queue[i])
  }

  ghost predicate Inv(n: Net) {
    && WellFormed(n)
    && (forall s :: s in n.slots ==> StreamKept(n.slots[s]) && 1 <= n.slots[s].generation <= n.nextGeneration)
    && (forall d :: d in n.drains ==> d.slot in n.slots && d.generation <= n.slots[d.slot].generation)
  }

  lemma PushKeepsStream(c: Conn, data: seq<byte>)
    requires StreamKept(c)
    ensures StreamKept(c.(queue := c.queue + Chunks(data), enqueued := c.enqueued + data))
  {
    FlattenAppend(c.queue, Chunks(data));
    Assoc(c.handed, Flatten(c.queue), data);
  }

  lemma HandOverKeepsStream(c: Conn)
    requires StreamKept(c) && c.queue != []
    ensures StreamKept(HandOver(c)) && |HandOver(c).queue| == |c.queue| - 1
  {
    Assoc(c.handed, c.queue[0], Flatten(c.queue[1..]));
  }

  lemma EnqueueKeepsInv(n: Net, s: Slot, data: seq<byte>)
    requires Inv(n)
    ensures Inv(Enqueue(n, s, data))
  {
    if Live(n, s) {
      var c := n.slots[s];
      PushKeepsStream(c, data);
      var pushed := c.(queue := c.queue + Chunks(data), enqueued := c.enqueued + data);
      if pushed.queue != [] {
        HandOverKeepsStream(pushed);
      }
    }
  }

  lemma DrainKeepsInv(n: Net, d: Drain)
    requires Inv(n)
    ensures Inv(RunDrain(n, d))
  {
    if d.slot in n.slots && n.slots[d.slot].queue != [] {
      HandOverKeepsStream(n.slots[d.slot]);
    }
  }

  lemma ReleaseKeepsInv(n: Net, s: Slot)
    requires Inv(n)
    ensures Inv(n.(active := Without(n.active, s)))
  {
    WithoutDistinct(n.active, s);
    var m := n.(active := Without(n.active, s));
    forall i | 0 <= i < |m.active| ensures m.active[i] in m.slots {
      assert m.active[i] in n.active;
    }
  }

  lemma ScheduleKeepsInv(n: Net, s: Slot)
    requires Inv(n)
    ensures Inv(Schedule(n, s))
  {
  }

  /** Only the pool's own view of the connection changes. */
  predicate SameButPool(c: Conn, c': Conn) {
    c' == c.(phase := c'.phase, cancelled := c'.cancelled)
  }

  lemma PoolKeepsInv(n: Net, s: Slot, c': Conn)
    requires Inv(n) && s in n.slots && SameButPool(n.slots[s], c')
    ensures Inv(Put(n, s, c'))
  {
  }

  lemma AllocKeepsInv(n: Net, s: Slot, id: Handle)
    requires Inv(n) && s !in n.active
    ensures Inv(Alloc(n, s, id))
  {
  }

  /// What is handed over, and when
  /// ------------------------------

  /** The first piece of a packet is its first 4000 bytes, or all of it. */
  lemma FirstChunk(data: seq<byte>)
    requires data != []
    ensures var k := if |data| <= 4000 then |data| else 4000;
      Chunks(data) == [data[..k]] + Chunks(data[k..])
  {
  }

  /** An open connection takes all the data. An idle one whose buffer is free and not cancelled gives the first
      piece to the pool at once; any other keeps all of it waiting. A connection that has gone takes nothing. */
  lemma EnqueueExact(n: Net, s: Slot, data: seq<byte>)
    requires Inv(n)
    ensures !Live(n, s) ==> Enqueue(n, s, data) == n
    ensures Live(n, s) ==>
              var m := Enqueue(n, s, data);
              var c, c', k := n.slots[s], m.slots[s], if |data| <= 4000 then |data| else 4000;
              && m == n.(slots := n.slots[s := c']) && c'.enqueued == c.enqueued + data
              && c'.id == c.id && c'.generation == c.generation && c'.cancelled == c.cancelled
              && (if c.queue == [] && data != [] && c.phase == Free && !c.cancelled
                  then c'.handed == c.handed + data[..k] && Flatten(c'.queue) == data[k..] && c'.phase == Sending
                  else c'.handed == c.handed && Flatten(c'.queue) == Flatten(c.queue) + data && c'.phase == c.phase)
  {
    if Live(n, s) {
      FlattenAppend(n.slots[s].queue, Chunks(data));
      if n.slots[s].queue == [] && data != [] {
        FirstChunk(data);
        assert [] + Chunks(data) == Chunks(data);
        assert Chunks(data)[1..] == Chunks(data[if |data| <= 4000 then |data| else 4000..]);
      }
    }
  }

  /** A drain of an open connection's own generation with something waiting gives the head chunk to a free buffer,
      and runs again later if the buffer is busy; any other only goes away. */
  lemma DrainExact(n: Net, d: Drain)
    requires Inv(n) && d in n.drains
    ensures var m, c := RunDrain(n, d), n.slots[d.slot];
      if Live(n, d.slot) && c.generation == d.generation && c.queue != [] && !c.cancelled then
        if c.phase == Free then
          var c' := m.slots[d.slot];
          && m == n.(slots := n.slots[d.slot := c'], drains := n.drains - multiset{d})
          && c'.handed == c.handed + c.queue[0] && c'.queue == c.queue[1..] && c'.phase == Sending
          && c'.enqueued == c.enqueued && c'.id == c.id && c'.generation == c.generation && !c'.cancelled
        else m == n
      else m == n.(drains := n.drains - multiset{d})
  {
  }

  /** However the steps interleave, a connection's buffer is given at most one piece at a time, of 1 to 4000 bytes,
      never while it is busy or cancelled, and only by data enqueued to it or by a drain of its own generation. */
  lemma OnePieceAtATime(n: Net, e: Event, s: Slot)
    requires Inv(n) && Enabled(n, e) && s in n.slots && !(e.EvAccept? && e.slot == s)
    ensures s in Step(n, e).slots
    ensures var c, c' := n.slots[s], Step(n, e).slots[s];
      c'.handed != c.handed ==>
        && c.phase == Free && !c.cancelled && c'.phase == Sending
        && |c.handed| < |c'.handed| <= |c.handed| + 4000 && c.handed <= c'.handed
        && (e == EvDrain(Drain(s, c.generation)) || (e.EvEnqueue? && e.slot == s && c.queue == []))
  {
    match e
    case EvEnqueue(t, data) =>
      EnqueueExact(n, t, data);
    case EvDrain(d) =>
      DrainExact(n, d);
    case _ =>
  }

  lemma StepKeepsInv(n: Net, e: Event)
    requires Inv(n) && Enabled(n, e)
    ensures Inv(Step(n, e))
  {
    match e
    case EvAccept(s, id) => AllocKeepsInv(n, s, id);
    case EvRelease(s) => ReleaseKeepsInv(n, s);
    case EvEnqueue(s, data) => EnqueueKeepsInv(n, s, data);
    case EvSent(s, settled) =>
      var c' := n.slots[s].(phase := if settled then Free else Settling);
      PoolKeepsInv(n, s, c');
      ScheduleKeepsInv(Put(n, s, c'), s);
    case EvLateSent(s) => ScheduleKeepsInv(n, s);
    case EvSettle(s) => PoolKeepsInv(n, s, n.slots[s].(phase := Free));
    case EvCancel(s) => PoolKeepsInv(n, s, n.slots[s].(cancelled := true));
    case EvDrain(d) => DrainKeepsInv(n, d);
  }

  /** A run is a sequence of events each enabled when it happens. */
  ghost predicate ValidRun(n: Net, es: seq<Event>)
    decreases |es|
  {
    es == [] || (WellFormed(n) && Enabled(n, es[0]) && ValidRun(Step(n, es[0]), es[1..]))
  }

  ghost function Run(n: Net, es: seq<Event>): Net
    requires ValidRun(n, es)
    decreases |es|
  {
    if es == [] then n else Run(Step(n, es[0]), es[1..])
  }

  const INIT: Net := Net(map[], [], 0, multiset{})

  lemma {:induction false} RunKeepsInv(n: Net, es: seq<Event>)
    requires Inv(n) && ValidRun(n, es)
    ensures Inv(Run(n, es))
    decreases |es|
  {
    if es != [] {
      StepKeepsInv(n, es[0]);
      RunKeepsInv(Step(n, es[0]), es[1..]);
    }
  }

  /** What the events themselves offer a slot's latest occupant: all data enqueued while it was live,
      since it was accepted. */
  ghost function Offered(n: Net, es: seq<Event>, s: Slot, soFar: seq<byte>): seq<byte>
    requires ValidRun(n, es)
    decreases |es|
  {
    if es == [] then soFar else Offered(Step(n, es[0]), es[1..], s, OfferedBy(n, es[0], s, soFar))
  }

  function OfferedBy(n: Net, e: Event, s: Slot, soFar: seq<byte>): seq<byte>
    requires WellFormed(n)
  {
    match e
    case EvAccept(t, _) => if t == s then [] else soFar
    case EvEnqueue(t, data) => if t == s && Live(n, s) then soFar + data else soFar
    case _ => soFar
  }

  function EnqueuedTo(n: Net, s: Slot): seq<byte> {
    if s in n.slots then n.slots[s].enqueued else []
  }

  lemma EnqueueOffers(n: Net, t: Slot, data: seq<byte>, s: Slot)
    requires WellFormed(n)
    ensures EnqueuedTo(Enqueue(n, t, data), s) == if t == s && Live(n, s) then EnqueuedTo(n, s) + data
          else EnqueuedTo(n, s)
  {
  }

  lemma DrainOffersNothing(n: Net, d: Drain, s: Slot)
    requires WellFormed(n)
    ensures EnqueuedTo(RunDrain(n, d), s) == EnqueuedTo(n, s)
  {
  }

  lemma StepOffers(n: Net, e: Event, s: Slot)
    requires WellFormed(n) && Enabled(n, e)
    ensures EnqueuedTo(Step(n, e), s) == OfferedBy(n, e, s, EnqueuedTo(n, s))
  {
    match e
    case EvEnqueue(t, data) => EnqueueOffers(n, t, data, s);
    case EvDrain(d) => DrainOffersNothing(n, d, s);
    case _ =>
  }

  lemma {:induction false} RunOffers(n: Net, es: seq<Event>, s: Slot)
    requires ValidRun(n, es)
    ensures EnqueuedTo(Run(n, es), s) == Offered(n, es, s, EnqueuedTo(n, s))
    decreases |es|
  {
    if es != [] {
      StepOffers(n, es[0], s);
      RunOffers(Step(n, es[0]), es[1..], s);
    }
  }

  /** In every reachable state, for every slot: the bytes handed to the pool and then those queued are
      exactly the data enqueued to its current occupant, in order, and every queued chunk fits. */
  lemma StreamPreserved(es: seq<Event>, s: Slot)
    requires ValidRun(INIT, es) && s in Run(INIT, es).slots
    ensures var c := Run(INIT, es).slots[s];
      && c.handed + Flatten(c.queue) == Offered(INIT, es, s, [])
      && forall i :: 0 <= i < |c.queue| ==> 1 <= |c.queue[i]| <= MAX_CHUNK
  {
    RunKeepsInv(INIT, es);
    RunOffers(INIT, es, s);
    var c := Run(INIT, es).slots[s];
    forall i | 0 <= i < |c.queue| ensures 1 <= |c.queue[i]| <= MAX_CHUNK {
      assert ChunkSized(c.queue[i]);
    }
  }

  /// Slot reuse
  /// ----------

  /** The slot is still known, with the handle and the generation it had. */
  predicate SameOccupant(n: Net, m: Net, s: Slot) {
    s in n.slots && s in m.slots && m.slots[s].id == n.slots[s].id && m.slots[s].generation == n.slots[s].generation
  }

  lemma EnqueueKeepsOccupants(n: Net, t: Slot, data: seq<byte>, s: Slot)
    requires WellFormed(n) && s in n.slots
    ensures SameOccupant(n, Enqueue(n, t, data), s) && Enqueue(n, t, data).active == n.active
  {
  }

  lemma DrainKeepsOccupants(n: Net, d: Drain, s: Slot)
    requires WellFormed(n) && s in n.slots
    ensures SameOccupant(n, RunDrain(n, d), s) && RunDrain(n, d).active == n.active
  {
  }

  /** Only an accept into the slot changes who it belongs to, and then the generation is new. */
  lemma OccupantsKept(n: Net, e: Event, s: Slot)
    requires WellFormed(n) && Enabled(n, e) && s in n.slots
    ensures !(e.EvAccept? && e.slot == s) ==> SameOccupant(n, Step(n, e), s)
    ensures e.EvAccept? && e.slot == s ==>
          s in Step(n, e).slots && Step(n, e).slots[s].generation == n.nextGeneration + 1
  {
    match e
    case EvAccept(_, _) =>
    case EvRelease(_) =>
    case EvEnqueue(t, data) => EnqueueKeepsOccupants(n, t, data, s);
    case EvSent(_, _) =>
    case EvLateSent(_) =>
    case EvSettle(_) =>
    case EvCancel(_) =>
    case EvDrain(d) => DrainKeepsOccupants(n, d, s);
  }

  lemma GenerationsGrow(n: Net, e: Event, s: Slot)
    requires Inv(n) && Enabled(n, e) && s in n.slots
    ensures s in Step(n, e).slots && n.slots[s].generation <= Step(n, e).slots[s].generation
    ensures e.EvAccept? && e.slot == s ==> n.slots[s].generation < Step(n, e).slots[s].generation
  {
    OccupantsKept(n, e, s);
  }

  /** A drain scheduled before its slot is reused finds a newer generation and touches nothing. */
  lemma {:induction false} StaleDrainIsInert(n: Net, es: seq<Event>, d: Drain, k: nat)
    requires Inv(n) && ValidRun(n, es) && d in n.drains
    requires k < |es| && es[k].EvAccept? && es[k].slot == d.slot
    ensures var m := Run(n, es);
      && d.slot in m.slots && d.generation < m.slots[d.slot].generation
      && WellFormed(m) && RunDrain(m, d).slots == m.slots
  {
    GenerationAfterReuse(n, es, d.slot, k);
    RunKeepsInv(n, es);
  }

  lemma {:induction false} GenerationAfterReuse(n: Net, es: seq<Event>, s: Slot, k: int)
    requires Inv(n) && ValidRun(n, es) && s in n.slots
    requires 0 <= k < |es| ==> es[k].EvAccept? && es[k].slot == s
    ensures s in Run(n, es).slots && n.slots[s].generation <= Run(n, es).slots[s].generation
    ensures 0 <= k < |es| ==> n.slots[s].generation < Run(n, es).slots[s].generation
    decreases |es|
  {
    if es != [] {
      StepKeepsInv(n, es[0]);
      GenerationsGrow(n, es[0], s);
      GenerationAfterReuse(Step(n, es[0]), es[1..], s, if k == 0 then -1 else k - 1);
    }
  }

  /// Wake-ups
  /// --------

  ghost predicate Awake(n: Net, s: Slot)
    requires s in n.slots
  {
    n.slots[s].phase == Sending || Drain(s, n.slots[s].generation) in n.drains
  }

  /** No lost wake-up: a waiting chunk always has a send in flight or a drain coming. */
  ghost predicate NoneAsleep(n: Net)
    requires WellFormed(n)
  {
    forall s :: s in n.active && !n.slots[s].cancelled && n.slots[s].queue != [] ==> Awake(n, s)
  }

  /** A connection that is settling has its drain coming. */
  ghost predicate SettlingIsDrained(n: Net)
    requires WellFormed(n)
  {
    forall s :: s in n.active && !n.slots[s].cancelled && n.slots[s].phase == Settling
         ==> Drain(s, n.slots[s].generation) in n.drains
  }

  /** The pool hands out a handle no open connection has. */
  predicate FreshHandle(n: Net, e: Event)
    requires WellFormed(n)
  {
    e.EvAccept? ==> forall i :: 0 <= i < |n.active| ==> n.slots[n.active[i]].id != e.id
  }

  /** The busy flag is clear before the drain, a millisecond after its SENT callback, runs. */
  predicate SettledBeforeDrain(n: Net, e: Event) {
    e.EvDrain? && e.drain.slot in n.slots && n.slots[e.drain.slot].generation == e.drain.generation
    ==> n.slots[e.drain.slot].phase != Settling
  }

  /** Handles stay unique: slots are only added fresh or dropped, and never change their handle. */
  lemma UniqueKept(n: Net, e: Event)
    requires Inv(n) && UniqueIds(n) && Enabled(n, e) && FreshHandle(n, e)
    ensures WellFormed(Step(n, e)) && UniqueIds(Step(n, e))
  {
    var m := Step(n, e);
    StepKeepsInv(n, e);
    if e.EvAccept? {
      assert forall i :: 1 <= i < |m.active| ==> m.active[i] == n.active[i - 1];
    } else {
      SameHandles(n, e);
      forall i, j | 0 <= i < j < |m.active| ensures m.slots[m.active[i]].id != m.slots[m.active[j]].id {
        assert m.active[i] in n.active && m.active[j] in n.active && m.active[i] != m.active[j];
      }
    }
  }

  lemma SameHandles(n: Net, e: Event)
    requires WellFormed(n) && Enabled(n, e) && !e.EvAccept?
    ensures forall s :: s in n.slots ==> s in Step(n, e).slots && Step(n, e).slots[s].id == n.slots[s].id
    ensures forall s :: s in Step(n, e).active ==> s in n.active
  {
    forall s | s in n.slots ensures s in Step(n, e).slots && Step(n, e).slots[s].id == n.slots[s].id {
      OccupantsKept(n, e, s);
    }
    SameActive(n, e);
  }

  lemma SameActive(n: Net, e: Event)
    requires WellFormed(n) && Enabled(n, e) && !e.EvAccept?
    ensures !e.EvRelease? ==> Step(n, e).active == n.active
    ensures forall s :: s in Step(n, e).active ==> s in n.active
  {
  }

  /** The one way to fall asleep: data arrives on an idle connection whose SENT callback and drain
      have both come and gone while the busy flag is still set. */
  predicate FallsAsleep(n: Net, e: Event) {
    && e.EvEnqueue? && e.data != []
    && e.slot in n.active && e.slot in n.slots
    && var c := n.slots[e.slot];
       c.queue == [] && !c.cancelled && c.phase == Settling && Drain(e.slot, c.generation) !in n.drains
  }

  lemma EnqueueWakes(n: Net, s: Slot, data: seq<byte>)
    requires Inv(n) && UniqueIds(n) && NoneAsleep(n)
    ensures WellFormed(Enqueue(n, s, data))
    ensures NoneAsleep(Enqueue(n, s, data)) <==> !FallsAsleep(n, EvEnqueue(s, data))
  {
    EnqueueKeepsInv(n, s, data);
    LiveIffActive(n, s);
    var m := Enqueue(n, s, data);
    if s in n.active {
      assert Chunks(data) == [] <==> data == [];
      assert forall t :: t in n.active && t != s ==> m.slots[t] == n.slots[t];
      if FallsAsleep(n, EvEnqueue(s, data)) {
        assert s in m.active && m.slots[s].queue != [] && !Awake(m, s);
      }
    }
  }

  lemma SentWakes(n: Net, s: Slot, settled: bool)
    requires Inv(n) && UniqueIds(n) && NoneAsleep(n) && s in n.active && n.slots[s].phase == Sending
    ensures var m := Step(n, EvSent(s, settled));
      WellFormed(m) && NoneAsleep(m) && Drain(s, n.slots[s].generation) in m.drains
      && m.slots[s].phase == (if settled then Free else Settling) && m.slots == n.slots[s := m.slots[s]]
          && m.active == n.active
      && n.drains <= m.drains
  {
    var p := Put(n, s, n.slots[s].(phase := if settled then Free else Settling));
    LiveIffActive(p, s);
    var m := Step(n, EvSent(s, settled));
    forall t | t in m.active && !m.slots[t].cancelled && m.slots[t].queue != [] ensures Awake(m, t) {
      assert t != s ==> Awake(n, t);
    }
  }

  lemma ScheduleWakes(n: Net, s: Slot)
    requires WellFormed(n) && NoneAsleep(n)
    ensures WellFormed(Schedule(n, s)) && NoneAsleep(Schedule(n, s))
  {
  }

  lemma DrainWakes(n: Net, d: Drain)
    requires Inv(n) && UniqueIds(n) && NoneAsleep(n) && d in n.drains
    ensures WellFormed(RunDrain(n, d)) && NoneAsleep(RunDrain(n, d))
  {
    LiveIffActive(n, d.slot);
    var m := RunDrain(n, d);
    forall t | t in m.active && !m.slots[t].cancelled && m.slots[t].queue != [] ensures Awake(m, t) {
      assert t != d.slot ==> m.slots[t] == n.slots[t];
    }
  }

  lemma ReleaseWakes(n: Net, s: Slot)
    requires Inv(n) && NoneAsleep(n)
    ensures var m := n.(active := Without(n.active, s)); WellFormed(m) && NoneAsleep(m)
  {
    ReleaseKeepsInv(n, s);
    WithoutDistinct(n.active, s);
  }

  /** Exactly that step loses a wake-up. */
  lemma WakeUpExact(n: Net, e: Event)
    requires Inv(n) && UniqueIds(n) && Enabled(n, e) && FreshHandle(n, e) && NoneAsleep(n)
    ensures WellFormed(Step(n, e))
    ensures NoneAsleep(Step(n, e)) <==> !FallsAsleep(n, e)
  {
    match e
    case EvAccept(s, id) => assert forall t :: t in n.active && t != s ==> t in Alloc(n, s, id).active;
    case EvRelease(s) => ReleaseWakes(n, s);
    case EvEnqueue(s, data) => EnqueueWakes(n, s, data);
    case EvSent(s, settled) => SentWakes(n, s, settled);
    case EvLateSent(s) => ScheduleWakes(n, s);
    case EvSettle(_) =>
    case EvCancel(_) =>
    case EvDrain(d) => DrainWakes(n, d);
  }

  /** Every handle accepted in the run is fresh. */
  ghost predicate FreshRun(n: Net, es: seq<Event>)
    requires ValidRun(n, es)
    decreases |es|
  {
    es == [] || (FreshHandle(n, es[0]) && FreshRun(Step(n, es[0]), es[1..]))
  }

  /** No waiting chunk is left asleep at any point of the run. */
  ghost predicate AlwaysAwake(n: Net, es: seq<Event>)
    requires Inv(n) && ValidRun(n, es)
    decreases |es|
  {
    && NoneAsleep(n)
    && (es == [] || (StepKeepsInv(n, es[0]); AlwaysAwake(Step(n, es[0]), es[1..])))
  }

  ghost predicate NeverFallsAsleep(n: Net, es: seq<Event>)
    requires ValidRun(n, es)
    decreases |es|
  {
    es == [] || (!FallsAsleep(n, es[0]) && NeverFallsAsleep(Step(n, es[0]), es[1..]))
  }

  /** Over whole runs, with nothing assumed about when the busy flag clears: every waiting chunk has its
      wake-up at every point if and only if no step of the run is the one that loses it. */
  lemma {:induction false} AwakeExact(n: Net, es: seq<Event>)
    requires Inv(n) && UniqueIds(n) && NoneAsleep(n) && ValidRun(n, es) && FreshRun(n, es)
    ensures AlwaysAwake(n, es) <==> NeverFallsAsleep(n, es)
    decreases |es|
  {
    if es != [] {
      var m := Step(n, es[0]);
      StepKeepsInv(n, es[0]);
      UniqueKept(n, es[0]);
      WakeUpExact(n, es[0]);
      if NoneAsleep(m) {
        AwakeExact(m, es[1..]);
      }
    }
  }

  /** Under the two assumptions on the pool no run ever loses a wake-up. */
  ghost predicate FairRun(n: Net, es: seq<Event>)
    decreases |es|
  {
    es == [] || (WellFormed(n) && Enabled(n, es[0]) && FreshHandle(n, es[0]) && SettledBeforeDrain(n, es[0])
                 && FairRun(Step(n, es[0]), es[1..]))
  }

  ghost predicate WakeInv(n: Net) {
    Inv(n) && UniqueIds(n) && NoneAsleep(n) && SettlingIsDrained(n)
  }

  lemma EnqueueKeepsSettling(n: Net, s: Slot, data: seq<byte>)
    requires Inv(n) && SettlingIsDrained(n)
    ensures WellFormed(Enqueue(n, s, data)) && SettlingIsDrained(Enqueue(n, s, data))
  {
    EnqueueKeepsInv(n, s, data);
    var m := Enqueue(n, s, data);
    forall t | t in m.active && !m.slots[t].cancelled && m.slots[t].phase == Settling
      ensures Drain(t, m.slots[t].generation) in m.drains
    {
      assert t in n.active && n.slots[t].phase == Settling && n.slots[t].generation == m.slots[t].generation;
    }
  }

  lemma DrainKeepsSettling(n: Net, d: Drain)
    requires WakeInv(n) && d in n.drains && SettledBeforeDrain(n, EvDrain(d))
    ensures WellFormed(RunDrain(n, d)) && SettlingIsDrained(RunDrain(n, d))
  {
    var m := RunDrain(n, d);
    forall t | t in m.active && !m.slots[t].cancelled && m.slots[t].phase == Settling
      ensures Drain(t, m.slots[t].generation) in m.drains
    {
      assert m.slots[t] == n.slots[t];
      assert Drain(t, n.slots[t].generation) != d;
    }
  }

  lemma ReleaseKeepsSettling(n: Net, s: Slot)
    requires Inv(n) && SettlingIsDrained(n)
    ensures var m := n.(active := Without(n.active, s)); WellFormed(m) && SettlingIsDrained(m)
  {
    ReleaseKeepsInv(n, s);
  }

  lemma AcceptKeepsSettling(n: Net, s: Slot, id: Handle)
    requires Inv(n) && SettlingIsDrained(n) && s !in n.active
    ensures WellFormed(Alloc(n, s, id)) && SettlingIsDrained(Alloc(n, s, id))
  {
    assert forall t :: t in Alloc(n, s, id).active ==> t == s || t in n.active;
  }

  lemma PoolKeepsSettling(n: Net, s: Slot, c': Conn)
    requires Inv(n) && SettlingIsDrained(n) && s in n.slots && SameButPool(n.slots[s], c')
          && (c'.phase == Free || c'.cancelled)
    ensures WellFormed(Put(n, s, c')) && SettlingIsDrained(Put(n, s, c'))
  {
  }

  lemma StepKeepsSettling(n: Net, e: Event)
    requires WakeInv(n) && Enabled(n, e) && SettledBeforeDrain(n, e)
    ensures WellFormed(Step(n, e)) && SettlingIsDrained(Step(n, e))
  {
    match e
    case EvAccept(s, id) => AcceptKeepsSettling(n, s, id);
    case EvRelease(s) => ReleaseKeepsSettling(n, s);
    case EvEnqueue(s, data) => EnqueueKeepsSettling(n, s, data);
    case EvSent(s, settled) => SentWakes(n, s, settled);
    case EvLateSent(_) =>
    case EvSettle(s) => PoolKeepsSettling(n, s, n.slots[s].(phase := Free));
    case EvCancel(s) => PoolKeepsSettling(n, s, n.slots[s].(cancelled := true));
    case EvDrain(d) => DrainKeepsSettling(n, d);
  }

  lemma StepKeepsWake(n: Net, e: Event)
    requires WakeInv(n) && Enabled(n, e) && FreshHandle(n, e) && SettledBeforeDrain(n, e)
    ensures WakeInv(Step(n, e))
  {
    StepKeepsInv(n, e);
    UniqueKept(n, e);
    WakeUpExact(n, e);
    StepKeepsSettling(n, e);
  }

  lemma {:induction false} NoLostWakeUp(n: Net, es: seq<Event>)
    requires WakeInv(n) && FairRun(n, es)
    ensures ValidRun(n, es) && WakeInv(Run(n, es))
    decreases |es|
  {
    if es != [] {
      StepKeepsWake(n, es[0]);
      NoLostWakeUp(Step(n, es[0]), es[1..]);
    }
  }

  lemma RunCons(n: Net, e: Event, es: seq<Event>)
    requires WellFormed(n) && Enabled(n, e) && ValidRun(Step(n, e), es)
    ensures ValidRun(n, [e] + es) && Run(n, [e] + es) == Run(Step(n, e), es)
  {
    assert ([e] + es)[1..] == es;
  }

  /** Two steps in a row. */
  lemma RunTwo(n: Net, e: Event, f: Event)
    requires Inv(n) && Enabled(n, e) && Inv(Step(n, e)) && Enabled(Step(n, e), f)
    ensures ValidRun(n, [e, f]) && Run(n, [e, f]) == Step(Step(n, e), f)
  {
    RunCons(Step(n, e), f, []);
    assert [f] + [] == [f];
    RunCons(n, e, [f]);
    assert [e] + [f] == [e, f];
  }

  /** A packet that fits one chunk goes straight to an idle, accepting connection's pool. */
  lemma EnqueueIdle(n: Net, s: Slot, data: seq<byte>)
    requires WellFormed(n) && Live(n, s) && n.slots[s].queue == [] && Accepts(n.slots[s]) && ChunkSized(data)
    ensures var c := n.slots[s];
      Enqueue(n, s, data) == Put(n, s, Conn(c.id, c.generation, [], Sending, false, c.enqueued + data, c.handed + data))
  {
    assert data[..|data|] == data && data[|data|..] == [];
    var none: seq<seq<byte>>, one: seq<seq<byte>> := [], [data];
    assert Chunks(data) == one + Chunks(data[|data|..]) == one;
    assert |one[1..]| == 0;
    assert none + one == one && one[1..] == none;
  }

  lemma OneByteSent() returns (n: Net)
    ensures n == Net(map[0 := Conn(7, 1, [], Sending, false, [1], [1])], [0], 1, multiset{})
    ensures ValidRun(INIT, [EvAccept(0, 7), EvEnqueue(0, [1])]) && Run(INIT, [EvAccept(0, 7), EvEnqueue(0, [1])]) == n
          && Inv(n)
  {
    var one: seq<byte> := [1];
    var empty: seq<byte> := [];
    var accepted := Alloc(INIT, 0, 7);
    AllocKeepsInv(INIT, 0, 7);
    assert accepted == Net(map[0 := Conn(7, 1, [], Free, false, [], [])], [0], 1, multiset{});
    EnqueueIdle(accepted, 0, one);
    EnqueueKeepsInv(accepted, 0, one);
    assert empty + one == one;
    n := Enqueue(accepted, 0, one);
    RunTwo(INIT, EvAccept(0, 7), EvEnqueue(0, one));
  }

  /** One byte is sent on a new connection, and its drain runs while the busy flag is still set. */
  lemma IdleAndSettling() returns (n: Net, es: seq<Event>)
    ensures ValidRun(INIT, es) && Run(INIT, es) == n && Inv(n)
    ensures n == Net(map[0 := Conn(7, 1, [], Settling, false, [1], [1])], [0], 1, multiset{})
  {
    var n2 := OneByteSent();
    var d := Drain(0, 1);
    es := [EvAccept(0, 7), EvEnqueue(0, [1])];
    var n3 := Step(n2, EvSent(0, false));
    StepKeepsInv(n2, EvSent(0, false));
    assert n3.drains == multiset{d};
    RunSnoc(INIT, es, EvSent(0, false));
    es := es + [EvSent(0, false)];
    n := Step(n3, EvDrain(d));
    StepKeepsInv(n3, EvDrain(d));
    RunSnoc(INIT, es, EvDrain(d));
    es := es + [EvDrain(d)];
  }

  /** Without the settling assumption a wake-up can be lost: data enqueued then stays for ever. */
  lemma LostWakeUp(data: seq<byte>)
    requires data != []
    ensures exists es :: ValidRun(INIT, es) && WellFormed(Run(INIT, es)) && !NoneAsleep(Run(INIT, es))
  {
    var n, es := IdleAndSettling();
    var m := Step(n, EvEnqueue(0, data));
    assert 0 in m.active && m.slots[0].queue != [] && !Awake(m, 0);
    RunSnoc(INIT, es, EvEnqueue(0, data));
  }

  lemma {:induction false} RunSnoc(n: Net, es: seq<Event>, e: Event)
    requires Inv(n) && ValidRun(n, es) && WellFormed(Run(n, es)) && Enabled(Run(n, es), e)
    ensures ValidRun(n, es + [e]) && Run(n, es + [e]) == Step(Run(n, es), e)
    decreases |es|
  {
    if es == [] {
      RunCons(n, e, []);
      assert [e] + [] == es + [e];
    } else {
      StepKeepsInv(n, es[0]);
      RunSnoc(Step(n, es[0]), es[1..], e);
      assert es + [e] == [es[0]] + (es[1..] + [e]);
      RunCons(n, es[0], es[1..] + [e]);
    }
  }

  /** From any good state the pool alone, by a SENT or a settling at most and a drain, gets exactly the
      head chunk of a waiting connection on its way. */
  lemma OneRound(n: Net, s: Slot) returns (es: seq<Event>)
    requires WakeInv(n) && s in n.active && !n.slots[s].cancelled && n.slots[s].queue != []
    ensures |es| <= 2 && FairRun(n, es) && ValidRun(n, es) && WakeInv(Run(n, es)) && Run(n, es).active == n.active
    ensures s in Run(n, es).slots
    ensures var c, c' := n.slots[s], Run(n, es).slots[s];
      && c'.queue == c.queue[1..] && c'.handed == c.handed + c.queue[0]
      && c'.enqueued == c.enqueued && !c'.cancelled && c'.generation == c.generation
  {
    var drain := EvDrain(Drain(s, n.slots[s].generation));
    if n.slots[s].phase == Free {
      DrainRound(n, s);
      es := [drain] + [];
    } else {
      var free := if n.slots[s].phase == Sending then EvSent(s, true) else EvSettle(s);
      var m := Step(n, free);
      BecomesFree(n, s);
      StepKeepsWake(n, free);
      DrainRound(m, s);
      FairCons(n, free, [drain] + []);
      es := [free] + ([drain] + []);
    }
    NoLostWakeUp(n, es);
  }

  /** The SENT or the settling that makes room for the next send. */
  lemma BecomesFree(n: Net, s: Slot)
    requires WakeInv(n) && s in n.active && !n.slots[s].cancelled && n.slots[s].phase != Free
    ensures var free := if n.slots[s].phase == Sending then EvSent(s, true) else EvSettle(s);
      && Enabled(n, free)
      && Step(n, free).active == n.active && Step(n, free).slots == n.slots[s := n.slots[s].(phase := Free)]
      && Drain(s, n.slots[s].generation) in Step(n, free).drains
  {
    if n.slots[s].phase == Sending {
      SentWakes(n, s, true);
    }
  }

  lemma DrainRound(n: Net, s: Slot)
    requires WakeInv(n) && s in n.active && n.slots[s].phase == Free && !n.slots[s].cancelled && n.slots[s].queue != []
    requires Drain(s, n.slots[s].generation) in n.drains
    ensures var es := [EvDrain(Drain(s, n.slots[s].generation))] + [];
      && FairRun(n, es) && ValidRun(n, es)
      && Run(n, es).active == n.active && Run(n, es).slots == n.slots[s := HandOver(n.slots[s])]
  {
    DrainHandsOver(n, s);
    FairCons(n, EvDrain(Drain(s, n.slots[s].generation)), []);
  }

  lemma FairCons(n: Net, e: Event, es: seq<Event>)
    requires WellFormed(n) && Enabled(n, e) && FreshHandle(n, e) && SettledBeforeDrain(n, e)
    requires FairRun(Step(n, e), es) && ValidRun(Step(n, e), es)
    ensures FairRun(n, [e] + es) && ValidRun(n, [e] + es) && Run(n, [e] + es) == Run(Step(n, e), es)
  {
    assert ([e] + es)[1..] == es;
  }

  lemma DrainHandsOver(n: Net, s: Slot)
    requires WakeInv(n) && s in n.active && n.slots[s].phase == Free && !n.slots[s].cancelled && n.slots[s].queue != []
    requires Drain(s, n.slots[s].generation) in n.drains
    ensures Step(n, EvDrain(Drain(s, n.slots[s].generation))).slots == n.slots[s := HandOver(n.slots[s])]
    ensures Step(n, EvDrain(Drain(s, n.slots[s].generation))).active == n.active
  {
    LiveIffActive(n, s);
  }

  ghost predicate Flushed(n: Net, es: seq<Event>, s: Slot)
    requires s in n.slots
  {
    && ValidRun(n, es)
    && s in Run(n, es).slots
    && var c := Run(n, es).slots[s];
       c.queue == [] && c.handed == c.enqueued == n.slots[s].enqueued
  }

  /** When no more data arrives the queue empties, and then the pool has been given everything. */
  lemma {:induction false} QueueEmpties(n: Net, s: Slot) returns (es: seq<Event>)
    requires WakeInv(n) && s in n.active && !n.slots[s].cancelled
    ensures |es| <= 2 * |n.slots[s].queue| && FairRun(n, es) && Flushed(n, es, s)
    decreases |n.slots[s].queue|
  {
    if n.slots[s].queue == [] {
      es := [];
    } else {
      var first := OneRound(n, s);
      var m := Run(n, first);
      var later := QueueEmpties(m, s);
      es := first + later;
      RunAppend(n, first, later);
    }
  }

  lemma FirstOfSum<T>(es: seq<T>, fs: seq<T>)
    requires es != []
    ensures es + fs == [es[0]] + (es[1..] + fs)
  {
  }

  lemma {:induction false} RunAppend(n: Net, es: seq<Event>, fs: seq<Event>)
    requires ValidRun(n, es) && FairRun(n, es) && FairRun(Run(n, es), fs) && ValidRun(Run(n, es), fs)
    ensures FairRun(n, es + fs) && ValidRun(n, es + fs) && Run(n, es + fs) == Run(Run(n, es), fs)
    decreases |es|
  {
    if es == [] {
      assert es + fs == fs;
    } else {
      RunAppend(Step(n, es[0]), es[1..], fs);
      FairCons(n, es[0], es[1..] + fs);
      FirstOfSum(es, fs);
    }
  }

  /// Every fair schedule empties the queue
  /// -------------------------------------

  /** A bound on the work left on a connection: three steps for each chunk, and what the pool still has
      to do for the one it holds. */
  function WorkLeft(c: Conn): nat {
    3 * |c.queue| + match c.phase case Sending => 2 case Settling => 1 case Free => 0
  }

  /** The connection is open and nothing is enqueued to it. */
  predicate Undisturbed(e: Event, s: Slot) {
    match e
    case EvAccept(t, _) => t != s
    case EvRelease(t) => t != s
    case EvEnqueue(t, data) => t != s
    case EvCancel(t) => t != s
    case _ => true
  }

  /** The steps that get something done for the connection: its send completes, its busy flag clears, or
      a drain of its generation hands over a chunk. */
  predicate Effective(n: Net, e: Event, s: Slot)
    requires s in n.slots
  {
    match e
    case EvSent(t, _) => t == s
    case EvSettle(t) => t == s
    case EvDrain(d) =>
      d == Drain(s, n.slots[s].generation) && n.slots[s].queue != [] && Accepts(n.slots[s])
    case _ => false
  }

  predicate OpenConn(n: Net, s: Slot) {
    s in n.slots && s in n.active && !n.slots[s].cancelled
  }

  function Count(b: bool): nat {
    if b then 1 else 0
  }

  ghost function EffectiveSteps(n: Net, es: seq<Event>, s: Slot): nat
    requires ValidRun(n, es) && s in n.slots
    decreases |es|
  {
    if es == [] then 0
    else
      OccupantsKept(n, es[0], s);
      Count(Effective(n, es[0], s)) + EffectiveSteps(Step(n, es[0]), es[1..], s)
  }

  ghost predicate UndisturbedRun(es: seq<Event>, s: Slot) {
    forall i :: 0 <= i < |es| ==> Undisturbed(es[i], s)
  }

  /** The same occupant and the same data, and no more work than the effective step leaves. */
  predicate Progresses(c: Conn, c': Conn, effective: bool) {
    && c'.generation == c.generation && c'.enqueued == c.enqueued && c'.cancelled == c.cancelled
    && WorkLeft(c') + Count(effective) <= WorkLeft(c)
  }

  lemma DrainProgresses(n: Net, d: Drain, s: Slot)
    requires WakeInv(n) && d in n.drains && SettledBeforeDrain(n, EvDrain(d)) && OpenConn(n, s)
    ensures OpenConn(RunDrain(n, d), s) && Progresses(n.slots[s], RunDrain(n, d).slots[s], Effective(n, EvDrain(d), s))
  {
    LiveIffActive(n, s);
  }

  lemma OthersEnqueue(n: Net, t: Slot, data: seq<byte>, s: Slot)
    requires WellFormed(n) && OpenConn(n, s) && t != s
    ensures OpenConn(Enqueue(n, t, data), s) && Enqueue(n, t, data).slots[s] == n.slots[s]
  {
  }

  lemma OthersRelease(n: Net, t: Slot, s: Slot)
    requires WellFormed(n) && OpenConn(n, s) && t != s
    ensures OpenConn(n.(active := Without(n.active, t)), s)
  {
    WithoutDistinct(n.active, t);
  }

  lemma AcceptElsewhere(n: Net, t: Slot, id: Handle, s: Slot)
    requires OpenConn(n, s) && t != s
    ensures OpenConn(Alloc(n, t, id), s) && Alloc(n, t, id).slots[s] == n.slots[s]
  {
  }

  lemma SentProgresses(n: Net, t: Slot, settled: bool, s: Slot)
    requires WellFormed(n) && Enabled(n, EvSent(t, settled)) && OpenConn(n, s)
    ensures OpenConn(Step(n, EvSent(t, settled)), s)
    ensures Progresses(n.slots[s], Step(n, EvSent(t, settled)).slots[s], t == s)
  {
  }

  lemma StepProgresses(n: Net, e: Event, s: Slot)
    requires WakeInv(n) && Enabled(n, e) && SettledBeforeDrain(n, e) && OpenConn(n, s) && Undisturbed(e, s)
    ensures OpenConn(Step(n, e), s) && Progresses(n.slots[s], Step(n, e).slots[s], Effective(n, e, s))
  {
    match e
    case EvAccept(t, id) => AcceptElsewhere(n, t, id, s);
    case EvRelease(t) => OthersRelease(n, t, s);
    case EvEnqueue(t, data) => OthersEnqueue(n, t, data, s);
    case EvSent(t, settled) => SentProgresses(n, t, settled, s);
    case EvLateSent(_) =>
    case EvSettle(_) =>
    case EvCancel(_) =>
    case EvDrain(d) => DrainProgresses(n, d, s);
  }

  /** Over every fair run that leaves the connection undisturbed, the work left and the effective steps
      taken never add up to more than the work at the start. */
  lemma {:induction false} WorkRunsOut(n: Net, es: seq<Event>, s: Slot)
    requires WakeInv(n) && FairRun(n, es) && UndisturbedRun(es, s) && OpenConn(n, s)
    ensures ValidRun(n, es) && OpenConn(Run(n, es), s)
    ensures var c, c' := n.slots[s], Run(n, es).slots[s];
      && c'.generation == c.generation && c'.enqueued == c.enqueued
      && WorkLeft(c') + EffectiveSteps(n, es, s) <= WorkLeft(c)
    decreases |es|
  {
    if es != [] {
      assert Undisturbed(es[0], s);
      StepProgresses(n, es[0], s);
      StepKeepsWake(n, es[0]);
      WorkRunsOut(Step(n, es[0]), es[1..], s);
    }
  }

  /** While a chunk waits, an effective step is enabled: a wake-up is never missing. */
  lemma EffectiveStepEnabled(n: Net, s: Slot) returns (e: Event)
    requires WakeInv(n) && OpenConn(n, s) && n.slots[s].queue != []
    ensures Enabled(n, e) && Effective(n, e, s) && Undisturbed(e, s) && FreshHandle(n, e) && SettledBeforeDrain(n, e)
  {
    match n.slots[s].phase
    case Sending => e := EvSent(s, true);
    case Settling => e := EvSettle(s);
    case Free => e := EvDrain(Drain(s, n.slots[s].generation));
  }

  /** No schedule can fail to empty the queue: in every fair run that leaves the connection undisturbed,
      at most WorkLeft effective steps are taken, another one is enabled for as long as a chunk waits, and
      once none is, or as many as that have been taken, the pool has been given all that was enqueued. */
  lemma EverySchedule(n: Net, es: seq<Event>, s: Slot)
    requires WakeInv(n) && FairRun(n, es) && UndisturbedRun(es, s) && OpenConn(n, s)
    ensures ValidRun(n, es) && s in Run(n, es).slots && EffectiveSteps(n, es, s) <= WorkLeft(n.slots[s])
    ensures Run(n, es).slots[s].queue != [] ==> exists e :: Enabled(Run(n, es), e) && Effective(Run(n, es), e, s)
    ensures (forall e :: Enabled(Run(n, es), e) ==> !Effective(Run(n, es), e, s)) ==> Flushed(n, es, s)
    ensures EffectiveSteps(n, es, s) == WorkLeft(n.slots[s]) ==> Flushed(n, es, s)
  {
    WorkRunsOut(n, es, s);
    NoLostWakeUp(n, es);
    var m := Run(n, es);
    if m.slots[s].queue != [] {
      var e := EffectiveStepEnabled(m, s);
    } else {
      assert m.slots[s].handed + [] == m.slots[s].handed;
    }
  }

  /// The table of connections
  /// ------------------------

  lemma {:induction false} FindSkips(slots: map<Slot, Conn>, active: seq<Slot>, id: Handle, k: nat)
    requires forall i :: 0 <= i < |active| ==> active[i] in slots
    requires k <= |active| && forall i :: 0 <= i < k ==> slots[active[i]].id != id
    ensures FindIn(slots, active, id) == FindIn(slots, active[k..], id)
  {
    if k > 0 {
      FindSkips(slots, active[1..], id, k - 1);
      assert active[1..][k - 1..] == active[k..];
    } else {
      assert active[0..] == active;
    }
  }

  lemma {:induction false} WithoutAt(active: seq<Slot>, s: Slot, k: nat)
    requires k <= |active| && s !in active[..k]
    requires k < |active| ==> active[k] == s
    ensures Without(active, s) == if k < |active| then active[..k] + active[k + 1..] else active
  {
    if 0 < k {
      assert active[0] in active[..k];
      assert forall i :: 0 <= i < k - 1 ==> active[1..][i] == active[..k][i + 1];
      WithoutAt(active[1..], s, k - 1);
      assert active == [active[0]] + active[1..];
    }
  }

  class ConnTable {
    var slots: map<Slot, Conn>
    var active: seq<Slot>
    var nextGeneration: nat
    var drains: multiset<Drain>

    ghost function View(): Net
      reads this
    {
      Net(slots, active, nextGeneration, drains)
    }

    constructor ()
      ensures View() == INIT
    {
      slots, active, nextGeneration, drains := map[], [], 0, multiset{};
    }

    method FindLocked(id: Handle) returns (r: Option<Slot>)
      requires WellFormed(View())
      ensures r == FindIn(slots, active, id)
      ensures r.Some? ==> exists i ::
                            && 0 <= i < |active| && active[i] == r.value && slots[r.value].id == id
                            && forall j :: 0 <= j < i ==> slots[active[j]].id != id
      ensures r.None? <==> forall i :: 0 <= i < |active| ==> slots[active[i]].id != id
    {
      var i := 0;
      while i < |active|
        invariant 0 <= i <= |active| && forall j :: 0 <= j < i ==> slots[active[j]].id != id
      {
        if slots[active[i]].id == id {
          FindSkips(slots, active, id, i);
          return Some(active[i]);
        }
        i := i + 1;
      }
      FindSkips(slots, active, id, i);
      return None;
    }

    /** The test of every locked operation: looking the node's handle up finds the node itself. */
    method IsLive(s: Slot) returns (live: bool)
      requires WellFormed(View())
      ensures live == Live(View(), s)
    {
      if s !in slots {
        return false;
      }
      var found := FindLocked(slots[s].id);
      return found == Some(s);
    }

    /** Takes a free node from the pool, if there is one, and puts it at the head of the list. */
    method AllocConn(node: Option<Slot>, id: Handle) returns (ok: bool)
      requires WellFormed(View())
      requires node.Some? ==> node.value !in active
      modifies this
      ensures ok <==> node.Some?
      ensures View() == if ok then Alloc(old(View()), node.value, id) else old(View())
      ensures ok ==>
                && nextGeneration == old(nextGeneration) + 1 && active == [node.value] + old(active)
                && slots == old(slots)[node.value := Conn(id, nextGeneration, [], Free, false, [], [])]
    {
      if node.None? {
        return false;
      }
      nextGeneration := nextGeneration + 1;
      slots := slots[node.value := Conn(id, nextGeneration, [], Free, false, [], [])];
      active := [node.value] + active;
      return true;
    }

    /** Unlinks the connection; reports whether it was still linked and hands the node back once. */
    method UnlinkConn(s: Slot) returns (wasActive: bool)
      requires WellFormed(View())
      modifies this
      ensures wasActive <==> s in old(active)
      ensures View() == old(View()).(active := Without(old(active), s))
      ensures forall x :: x in active <==> x in old(active) && x != s
    {
      var i := 0;
      while i < |active| && active[i] != s
        invariant 0 <= i <= |active| && s !in active[..i]
      {
        i := i + 1;
      }
      WithoutAt(active, s, i);
      WithoutDistinct(active, s);
      wasActive := i < |active|;
      if wasActive {
        active := active[..i] + active[i + 1..];
      }
    }

    /** BeginInput, copy, pop, EndInput. */
    method SendHead(s: Slot) returns (sent: bool)
      requires s in slots && slots[s].queue != []
      modifies this`slots
      ensures sent <==> Accepts(old(slots[s]))
      ensures slots == if sent then old(slots)[s := HandOver(old(slots[s]))] else old(slots)
    {
      var c := slots[s];
      sent := c.phase == Free && !c.cancelled;
      if sent {
        slots := slots[s := c.(handed := c.handed + c.queue[0], queue := c.queue[1..], phase := Sending)];
      }
    }

    method EnqueueConn(s: Slot, data: seq<byte>)
      requires WellFormed(View())
      modifies this
      ensures View() == Enqueue(old(View()), s, data)
    {
      var live := IsLive(s);
      if !live {
        return;
      }
      var c := slots[s];
      var wasIdle := c.queue == [];
      var queue := PushChunked(c.queue, data);
      slots := slots[s := c.(queue := queue, enqueued := c.enqueued + data)];
      if !wasIdle || queue == [] {
        return;
      }
      var _ := SendHead(s);
    }

    method DrainQueue(d: Drain)
      requires WellFormed(View()) && d in drains
      modifies this
      ensures View() == RunDrain(old(View()), d)
    {
      drains := drains - multiset{d};
      var live := IsLive(d.slot);
      if !live || slots[d.slot].generation != d.generation || slots[d.slot].queue == [] {
        return;
      }
      assert drains + multiset{d} == old(drains);
      SendOrRetry(d);
    }

    /** Gives the head chunk to the pool; when the pool is busy the drain is scheduled again. */
    method SendOrRetry(d: Drain)
      requires d.slot in slots && slots[d.slot].queue != []
      modifies this`slots, this`drains
      ensures slots == if Accepts(old(slots[d.slot])) then old(slots)[d.slot := HandOver(old(slots[d.slot]))]
            else old(slots)
      ensures drains == if Accepts(old(slots[d.slot])) || old(slots[d.slot]).cancelled then old(drains)
            else old(drains) + multiset{d}
    {
      var sent := SendHead(d.slot);
      if !sent && !slots[d.slot].cancelled {
        ScheduleDrain(d);
      }
    }

    method ScheduleDrain(d: Drain)
      modifies this`drains
      ensures drains == old(drains) + multiset{d}
    {
      drains := drains + multiset{d};
    }

    method OnSent(s: Slot)
      requires WellFormed(View()) && s in slots
      modifies this
      ensures View() == Schedule(old(View()), s)
      ensures drains == if Live(old(View()), s)
                        then old(drains) + multiset{Drain(s, slots[s].generation)} else old(drains)
    {
      var live := IsLive(s);
      if live {
        ScheduleDrain(Drain(s, slots[s].generation));
      }
    }
  }
}
