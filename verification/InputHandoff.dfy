/** Input events cross from any number of poster threads to the plugin's main loop through a queue
    and one coalesced work item. One step per critical section, so runs are all interleavings. */
module InputHandoff {
  import opened InputEvents
  import opened Protocol

  type ThreadId = nat

  datatype Work = DrainInput | Other(id: nat)

  /** Where the loop is: holding the lock at the top, running a popped item, dispatching a batch it
      has swapped out, or gone. The loop is not entered again from a handler. */
  datatype Main = AtTop | Running(work: Work) | Dispatching(local: seq<InputEvent>) | Returned

  /** `armed` holds the threads that have set the pending flag and not yet posted the drain;
      `pushed` and `dispatched` record all events in order. */
  datatype Host = Host(postQueue: seq<Work>, inputQueue: seq<InputEvent>, pending: bool, quit: bool,
                       armed: set<ThreadId>, main: Main, pushed: seq<InputEvent>, dispatched: seq<InputEvent>)

  const INIT: Host := Host([], [], false, false, {}, AtTop, [], [])

  datatype Event =
    | Push(t: ThreadId, ev: InputEvent)
    | PostDrain(t: ThreadId)
    | PostOther(id: nat)
    | Quit(t: ThreadId)
    | Pop
    | Swap
    | Dispatch
    | ItemDone
    | Return

  /** A thread posts again, or asks to quit, only after it has finished posting. */
  predicate Enabled(h: Host, e: Event) {
    match e
    case Push(t, _) => t !in h.armed
    case PostDrain(t) => t in h.armed
    case PostOther(_) => true
    case Quit(t) => t !in h.armed
    case Pop => h.main == AtTop && h.postQueue != []
    case Swap => h.main == Running(DrainInput)
    case Dispatch => h.main.Dispatching? && h.main.local != []
    case ItemDone => (h.main.Dispatching? && h.main.local == []) || (h.main.Running? && h.main.work.Other?)
    case Return => h.main == AtTop && h.postQueue == [] && h.quit
  }

  function PushStep(h: Host, t: ThreadId, ev: InputEvent): Host {
    h.(inputQueue := h.inputQueue + [ev], pushed := h.pushed + [ev], pending := true,
       armed := if h.pending then h.armed else h.armed + {t})
  }

  function Step(h: Host, e: Event): Host
    requires Enabled(h, e)
  {
    match e
    case Push(t, ev) => PushStep(h, t, ev)
    case PostDrain(t) => h.(postQueue := h.postQueue + [DrainInput], armed := h.armed - {t})
    case PostOther(id) => h.(postQueue := h.postQueue + [Other(id)])
    case Quit(_) => h.(quit := true)
    case Pop => h.(postQueue := h.postQueue[1..], main := Running(h.postQueue[0]))
    case Swap => h.(main := Dispatching(h.inputQueue), inputQueue := [], pending := false)
    case Dispatch => h.(main := Dispatching(h.main.local[1..]), dispatched := h.dispatched + [h.main.local[0]])
    case ItemDone => h.(main := AtTop)
    case Return => h.(main := Returned)
  }

  function Drains(q: seq<Work>): nat {
    if q == [] then 0 else (if q[0] == DrainInput then 1 else 0) + Drains(q[1..])
  }

  lemma {:induction false} DrainsAppend(q: seq<Work>, w: Work)
    ensures Drains(q + [w]) == Drains(q) + if w == DrainInput then 1 else 0
  {
    if q == [] {
      assert q + [w] == [w];
    } else {
      DrainsAppend(q[1..], w);
      assert (q + [w])[1..] == q[1..] + [w];
    }
  }

  function Local(h: Host): seq<InputEvent> {
    if h.main.Dispatching? then h.main.local else []
  }

  function PoppedDrain(h: Host): nat {
    if h.main == Running(DrainInput) then 1 else 0
  }

  /** The drains queued, about to be queued, and popped but not yet swapped are exactly one while the
      flag is set and none otherwise; the flag is set exactly while events wait; and no event is
      lost, duplicated or reordered. */
  ghost predicate Inv(h: Host) {
    && Drains(h.postQueue) + |h.armed| + PoppedDrain(h) == (if h.pending then 1 else 0)
    && (h.pending <==> h.inputQueue != [])
    && h.dispatched + Local(h) + h.inputQueue == h.pushed
  }

  lemma StepKeepsInv(h: Host, e: Event)
    requires Inv(h) && Enabled(h, e)
    ensures Inv(Step(h, e))
  {
    match e
    case PostDrain(_) => DrainsAppend(h.postQueue, DrainInput);
    case PostOther(id) => DrainsAppend(h.postQueue, Other(id));
    case Dispatch =>
      assert h.main.local == [h.main.local[0]] + h.main.local[1..];
      assert h.dispatched + h.main.local == (h.dispatched + [h.main.local[0]]) + h.main.local[1..];
    case _ =>
  }

  ghost predicate ValidRun(h: Host, es: seq<Event>)
    decreases |es|
  {
    es == [] || (Enabled(h, es[0]) && ValidRun(Step(h, es[0]), es[1..]))
  }

  ghost function Run(h: Host, es: seq<Event>): Host
    requires ValidRun(h, es)
    decreases |es|
  {
    if es == [] then h else Run(Step(h, es[0]), es[1..])
  }

  ghost predicate Runs(h: Host, es: seq<Event>, h': Host) {
    ValidRun(h, es) && Run(h, es) == h'
  }

  lemma {:induction false} RunKeepsInv(h: Host, es: seq<Event>)
    requires Inv(h) && ValidRun(h, es)
    ensures Inv(Run(h, es))
    decreases |es|
  {
    if es != [] {
      StepKeepsInv(h, es[0]);
      RunKeepsInv(Step(h, es[0]), es[1..]);
    }
  }

  /** The events posted, in the order of the posts' first critical sections. */
  function PushedBy(es: seq<Event>): seq<InputEvent> {
    if es == [] then [] else Posted(es[0]) + PushedBy(es[1..])
  }

  function Posted(e: Event): seq<InputEvent> {
    if e.Push? then [e.ev] else []
  }

  lemma StepPushes(h: Host, e: Event, later: seq<InputEvent>)
    requires Enabled(h, e)
    ensures Step(h, e).pushed + later == h.pushed + (Posted(e) + later)
  {
    assert Step(h, e).pushed == h.pushed + Posted(e);
  }

  lemma {:induction false} RunPushes(h: Host, es: seq<Event>)
    requires ValidRun(h, es)
    ensures Run(h, es).pushed == h.pushed + PushedBy(es)
    decreases |es|
  {
    if es != [] {
      RunPushes(Step(h, es[0]), es[1..]);
      StepPushes(h, es[0], PushedBy(es[1..]));
    } else {
      assert h.pushed + [] == h.pushed;
    }
  }

  /** For any number of threads and every interleaving: what is dispatched, swapped out and waiting is
      what was posted, in that order; and while events wait there is exactly one drain for them, queued,
      about to be queued or popped, and otherwise none. */
  lemma HandoffIsExact(es: seq<Event>)
    requires ValidRun(INIT, es)
    ensures var h := Run(INIT, es);
      && h.dispatched + Local(h) + h.inputQueue == PushedBy(es)
      && Drains(h.postQueue) + |h.armed| + PoppedDrain(h) == (if h.inputQueue != [] then 1 else 0)
      && (h.pending <==> h.inputQueue != [])
  {
    RunKeepsInv(INIT, es);
    RunPushes(INIT, es);
    assert INIT.pushed + PushedBy(es) == PushedBy(es);
  }

  /** A waiting event always has its drain: queued, about to be queued, or popped. */
  lemma NothingIsStuck(es: seq<Event>)
    requires ValidRun(INIT, es) && Run(INIT, es).inputQueue != []
    ensures var h := Run(INIT, es); DrainInput in h.postQueue || h.armed != {} || h.main == Running(DrainInput)
  {
    RunKeepsInv(INIT, es);
    DrainsIn(Run(INIT, es).postQueue);
  }

  lemma {:induction false} DrainsIn(q: seq<Work>)
    ensures Drains(q) > 0 <==> DrainInput in q
  {
    if q != [] {
      DrainsIn(q[1..]);
    }
  }

  /// Shutdown
  /// --------

  /** When the loop returns, input is left behind if and only if some thread is between setting the
      flag and posting. */
  lemma LeftBehindExact(h: Host)
    requires Inv(h) && Enabled(h, Return)
    ensures h.inputQueue != [] <==> h.armed != {}
    ensures h.armed == {} ==> h.dispatched == h.pushed
  {
    assert Local(h) == [];
    if h.armed == {} {
      assert h.dispatched + [] + [] == h.dispatched;
    }
  }

  /** The first `k` events are dispatched or swapped out, or a drain that will swap them is under way. */
  ghost predicate Promised(h: Host, k: nat) {
    && k <= |h.pushed|
    && (|h.dispatched| + |Local(h)| < k ==> h.armed == {})
    && (h.main == Returned ==> |h.dispatched| >= k)
  }

  lemma StepKeepsPromise(h: Host, e: Event, k: nat)
    requires Inv(h) && Enabled(h, e) && Promised(h, k)
    ensures Promised(Step(h, e), k)
  {
    StepKeepsInv(h, e);
    if e.Return? {
      LeftBehindExact(h);
    }
    if e.Push? && |h.dispatched| + |Local(h)| < k {
      assert h.inputQueue != [];
    }
  }

  lemma {:induction false} PromiseHolds(h: Host, es: seq<Event>, k: nat)
    requires Inv(h) && ValidRun(h, es) && Promised(h, k)
    ensures Promised(Run(h, es), k)
    decreases |es|
  {
    if es != [] {
      StepKeepsInv(h, es[0]);
      StepKeepsPromise(h, es[0], k);
      PromiseHolds(Step(h, es[0]), es[1..], k);
    }
  }

  /** Whatever happens next, once the loop has returned every event pushed so far has been dispatched. */
  ghost predicate NothingWillBeLost(h: Host) {
    forall es :: ValidRun(h, es) && Run(h, es).main == Returned ==> h.pushed <= Run(h, es).dispatched
  }

  lemma {:induction false} LogsGrow(h: Host, es: seq<Event>)
    requires ValidRun(h, es)
    ensures h.pushed <= Run(h, es).pushed
    decreases |es|
  {
    if es != [] {
      LogsGrow(Step(h, es[0]), es[1..]);
    }
  }

  /** Finishing what the loop is at, and then the items that are no drains. */
  lemma {:induction false} LoopFinishes(h: Host) returns (es: seq<Event>)
    requires Inv(h) && h.quit && h.armed != {}
    ensures ValidRun(h, es) && Run(h, es).main == Returned
    ensures Run(h, es).inputQueue == h.inputQueue && Run(h, es).pushed == h.pushed
    decreases |h.postQueue|, |Local(h)|, if h.main == AtTop then 0 else 1
  {
    if h.main == Returned {
      return [];
    }
    DrainsIn(h.postQueue);
    var e := match h.main
      case AtTop => if h.postQueue == [] then Return else Pop
      case Running(_) => ItemDone
      case Dispatching(local) => if local == [] then ItemDone else Dispatch;
    assert |h.armed| >= 1;
    StepKeepsInv(h, e);
    if e == Return {
      es := [e];
      assert es[1..] == [];
    } else {
      var later := LoopFinishes(Step(h, e));
      es := [e] + later;
      assert es[1..] == later;
    }
  }

  /** With no work posted and no post half done, everything pushed has been dispatched. */
  lemma NothingLeft(h: Host)
    requires Inv(h) && h.main == AtTop && h.postQueue == []
    ensures h.armed == {} ==> h.dispatched == h.pushed
  {
    if h.armed == {} {
      assert h.inputQueue == [] && h.dispatched + [] + [] == h.dispatched;
    }
  }

  /** What a caller can see of a post left half done: the flag is set, but no drain is queued or popped. */
  predicate HalfPosted(h: Host) {
    h.pending && DrainInput !in h.postQueue && h.main != Running(DrainInput)
  }

  lemma HalfPostedExact(h: Host)
    requires Inv(h)
    ensures HalfPosted(h) <==> h.armed != {}
  {
    DrainsIn(h.postQueue);
    if h.armed != {} {
      assert |h.armed| >= 1;
    }
  }

  /** Shutdown is exact: at the moment of quitting, no continuation can lose input already pushed if and
      only if no post is half done. */
  lemma ShutdownExact(h: Host, t: ThreadId)
    requires Inv(h) && h.main != Returned && t !in h.armed
    ensures NothingWillBeLost(Step(h, Quit(t))) <==> !HalfPosted(h)
  {
    var q := Step(h, Quit(t));
    StepKeepsInv(h, Quit(t));
    HalfPostedExact(h);
    if h.armed == {} {
      forall es | ValidRun(q, es) && Run(q, es).main == Returned ensures q.pushed <= Run(q, es).dispatched {
        AllDispatched(q, es);
      }
    } else {
      var es := LoopFinishes(q);
      LeftWaiting(q, es);
    }
  }

  /** It does happen: one thread sets the flag, another quits before it has posted, and the loop returns. */
  lemma InputLost(ev: InputEvent) returns (es: seq<Event>)
    ensures ValidRun(INIT, es) && Run(INIT, es).main == Returned
    ensures PushedBy(es) == [ev] && Run(INIT, es).dispatched == []
  {
    var h1 := Step(INIT, Push(1, ev));
    StepKeepsInv(INIT, Push(1, ev));
    var h2 := Step(h1, Quit(2));
    StepKeepsInv(h1, Quit(2));
    assert h2.armed == {1} && h2.pushed == [ev] && h2.inputQueue == [ev];
    var later := LoopFinishes(h2);
    es := [Push(1, ev)] + ([Quit(2)] + later);
    RunConsTwo(INIT, Push(1, ev), Quit(2), later);
    LostForGood(es, ev);
  }

  lemma RunConsTwo(h: Host, e: Event, f: Event, es: seq<Event>)
    requires Enabled(h, e) && Enabled(Step(h, e), f) && ValidRun(Step(Step(h, e), f), es)
    ensures ValidRun(h, [e] + ([f] + es)) && Run(h, [e] + ([f] + es)) == Run(Step(Step(h, e), f), es)
  {
    assert ([f] + es)[1..] == es;
    assert ([e] + ([f] + es))[1..] == [f] + es;
  }

  lemma LostForGood(es: seq<Event>, ev: InputEvent)
    requires ValidRun(INIT, es) && Run(INIT, es).pushed == [ev] && Run(INIT, es).inputQueue == [ev]
    ensures PushedBy(es) == [ev] && Run(INIT, es).dispatched == []
  {
    RunKeepsInv(INIT, es);
    RunPushes(INIT, es);
    assert INIT.pushed + PushedBy(es) == PushedBy(es);
    var h := Run(INIT, es);
    assert |h.dispatched| + |Local(h)| + |h.inputQueue| == |h.pushed|;
  }

  /** Only this thread posts input. */
  ghost predicate SoleReader(es: seq<Event>, t: ThreadId) {
    forall i :: 0 <= i < |es| ==> (es[i].Push? || es[i].PostDrain?) ==> es[i].t == t
  }

  lemma {:induction false} OnlyReaderArmed(h: Host, es: seq<Event>, t: ThreadId)
    requires ValidRun(h, es) && SoleReader(es, t) && h.armed <= {t}
    ensures Run(h, es).armed <= {t}
    decreases |es|
  {
    if es != [] {
      OnlyReaderArmed(Step(h, es[0]), es[1..], t);
    }
  }

  lemma {:induction false} RunSplits(h: Host, es: seq<Event>, k: nat)
    requires ValidRun(h, es) && k <= |es|
    ensures ValidRun(h, es[..k]) && ValidRun(Run(h, es[..k]), es[k..]) && Run(Run(h, es[..k]), es[k..]) == Run(h, es)
    decreases |es|
  {
    if k == 0 {
      assert es[..0] == [] && es[0..] == es;
    } else {
      RunSplits(Step(h, es[0]), es[1..], k - 1);
      assert es[..k][1..] == es[1..][..k - 1] && es[k..] == es[1..][k - 1..];
    }
  }

  /** The loop cannot return before someone has asked to quit. */
  lemma {:induction false} NoReturnBeforeQuit(h: Host, es: seq<Event>)
    requires ValidRun(h, es) && !h.quit && h.main != Returned && forall i :: 0 <= i < |es| ==> !es[i].Quit?
    ensures !Run(h, es).quit && Run(h, es).main != Returned
    decreases |es|
  {
    if es != [] {
      NoReturnBeforeQuit(Step(h, es[0]), es[1..]);
    }
  }

  /** Shutdown loses no input: when a single reader thread posts all input and is the first to ask to
      quit, then in every run, once the loop has returned, every event posted before that is dispatched. */
  lemma ReaderLosesNothing(es: seq<Event>, t: ThreadId, k: nat)
    requires ValidRun(INIT, es) && SoleReader(es, t)
    requires k < |es| && es[k] == Quit(t) && forall i :: 0 <= i < k ==> !es[i].Quit?
    requires Run(INIT, es).main == Returned
    ensures PushedBy(es[..k]) <= Run(INIT, es).dispatched
  {
    var before, later := es[..k], es[k..];
    RunSplits(INIT, es, k);
    NoReturnBeforeQuit(INIT, before);
    OnlyReaderArmed(INIT, before, t);
    ReaderQuits(before, later, t);
  }

  lemma ReaderQuits(before: seq<Event>, later: seq<Event>, t: ThreadId)
    requires ValidRun(INIT, before) && Run(INIT, before).main != Returned && Run(INIT, before).armed <= {t}
    requires ValidRun(Run(INIT, before), later) && later != [] && later[0] == Quit(t)
    requires Run(Run(INIT, before), later).main == Returned
    ensures PushedBy(before) <= Run(Run(INIT, before), later).dispatched
  {
    var h := Run(INIT, before);
    RunKeepsInv(INIT, before);
    RunPushes(INIT, before);
    assert INIT.pushed + PushedBy(before) == PushedBy(before);
    assert h.armed == {};
    StepKeepsInv(h, Quit(t));
    AllDispatched(Step(h, Quit(t)), later[1..]);
  }

  lemma AllDispatched(q: Host, es: seq<Event>)
    requires Inv(q) && q.main != Returned && q.armed == {} && ValidRun(q, es) && Run(q, es).main == Returned
    ensures q.pushed <= Run(q, es).dispatched
  {
    PromiseHolds(q, es, |q.pushed|);
    RunKeepsInv(q, es);
    LogsGrow(q, es);
    var m := Run(q, es);
    assert m.dispatched <= m.pushed by {
      assert m.dispatched + Local(m) + m.inputQueue == m.dispatched + (Local(m) + m.inputQueue);
    }
  }

  lemma LeftWaiting(q: Host, es: seq<Event>)
    requires Inv(q) && q.armed != {} && ValidRun(q, es)
    requires Run(q, es).inputQueue == q.inputQueue && Run(q, es).pushed == q.pushed
    ensures !(q.pushed <= Run(q, es).dispatched)
  {
    RunKeepsInv(q, es);
    assert |q.armed| >= 1;
    assert |Run(q, es).dispatched| < |q.pushed|;
  }

  /// The order of posted work
  /// ------------------------

  /** The work a run posts, in order. */
  function WorkPosted(es: seq<Event>): seq<Work> {
    if es == [] then [] else WorkOf(es[0]) + WorkPosted(es[1..])
  }

  function WorkOf(e: Event): seq<Work> {
    match e
    case PostDrain(_) => [DrainInput]
    case PostOther(id) => [Other(id)]
    case _ => []
  }

  /** The work the loop takes up in a run, in order. */
  ghost function WorkTaken(h: Host, es: seq<Event>): seq<Work>
    requires ValidRun(h, es)
    decreases |es|
  {
    if es == [] then []
    else
      var after := Step(h, es[0]);
      (if es[0].Pop? && after.main.Running? then [after.main.work] else []) + WorkTaken(after, es[1..])
  }

  lemma StepTakesFirst(h: Host, e: Event)
    requires Enabled(h, e)
    ensures var after := Step(h, e);
      h.postQueue + WorkOf(e) == (if e.Pop? && after.main.Running? then [after.main.work] else []) + after.postQueue
  {
    assert h.postQueue + [] == h.postQueue == [] + h.postQueue;
    if e.Pop? {
      assert h.postQueue == [h.postQueue[0]] + h.postQueue[1..];
    } else {
      assert [] + Step(h, e).postQueue == Step(h, e).postQueue;
    }
  }

  /** Posted work, the drains among it, is taken up first come, first served, each item once and none skipped. */
  lemma {:induction false} WorkIsFifo(h: Host, es: seq<Event>)
    requires ValidRun(h, es)
    ensures h.postQueue + WorkPosted(es) == WorkTaken(h, es) + Run(h, es).postQueue
    decreases |es|
  {
    if es == [] {
      assert h.postQueue + [] == [] + h.postQueue;
    } else {
      var after := Step(h, es[0]);
      var taken := if es[0].Pop? && after.main.Running? then [after.main.work] else [];
      StepTakesFirst(h, es[0]);
      WorkIsFifo(after, es[1..]);
      Assoc(h.postQueue, WorkOf(es[0]), WorkPosted(es[1..]));
      Assoc(taken, after.postQueue, WorkPosted(es[1..]));
      Assoc(taken, WorkTaken(after, es[1..]), Run(h, es).postQueue);
    }
  }

  /// The host object
  /// ---------------

  lemma RunsCons(h: Host, e: Event, es: seq<Event>, h': Host)
    requires Enabled(h, e) && Runs(Step(h, e), es, h')
    ensures Runs(h, [e] + es, h')
  {
    assert ([e] + es)[1..] == es;
  }

  lemma {:induction false} RunsSnoc(h: Host, es: seq<Event>, h': Host, e: Event)
    requires Runs(h, es, h') && Enabled(h', e)
    ensures Runs(h, es + [e], Step(h', e))
    decreases |es|
  {
    if es == [] {
      RunsCons(h, e, [], Step(h, e));
      assert [e] + [] == es + [e];
    } else {
      RunsSnoc(Step(h, es[0]), es[1..], h', e);
      RunsCons(h, es[0], es[1..] + [e], Step(h', e));
      assert es + [e] == [es[0]] + (es[1..] + [e]);
    }
  }

  class UiHost {
    var postQueue: seq<Work>
    var inputQueue: seq<InputEvent>
    var inputWorkPending: bool
    var quitFlag: bool
    ghost var armed: set<ThreadId>
    ghost var main: Main
    ghost var pushed: seq<InputEvent>
    var dispatched: seq<InputEvent>  // the plugin calls made, in order

    ghost function View(): Host
      reads this
    {
      Host(postQueue, inputQueue, inputWorkPending, quitFlag, armed, main, pushed, dispatched)
    }

    constructor ()
      ensures View() == INIT && Inv(View())
    {
      postQueue, inputQueue, inputWorkPending, quitFlag := [], [], false, false;
      armed, main, pushed, dispatched := {}, AtTop, [], [];
    }

    method OnHostPostWork(w: Work)
      modifies this`postQueue
      ensures postQueue == old(postQueue) + [w]
    {
      postQueue := postQueue + [w];
    }

    method OnHostQuit(ghost t: ThreadId)
      requires t !in armed
      modifies this`quitFlag
      ensures View() == Step(old(View()), Quit(t))
    {
      quitFlag := true;
    }

    /** The first critical section of a post. */
    method PushInput(ghost t: ThreadId, ev: InputEvent) returns (shouldPost: bool)
      requires t !in armed
      modifies this`inputQueue, this`inputWorkPending, this`armed, this`pushed
      ensures View() == Step(old(View()), Push(t, ev)) && shouldPost == !old(inputWorkPending)
    {
      inputQueue := inputQueue + [ev];
      pushed := pushed + [ev];
      shouldPost := false;
      if !inputWorkPending {
        inputWorkPending := true;
        armed := armed + {t};
        shouldPost := true;
      }
    }

    /** A whole post: both critical sections, nothing in between. */
    method PostInput(ghost t: ThreadId, ev: InputEvent)
      requires Inv(View()) && t !in armed
      modifies this
      ensures Inv(View()) && armed == old(armed)
      ensures Runs(old(View()), [Push(t, ev)] + (if old(inputWorkPending) then [] else [PostDrain(t)]), View())
    {
      ghost var h := View();
      var shouldPost := PushInput(t, ev);
      ghost var h1 := View();
      StepKeepsInv(h, Push(t, ev));
      if shouldPost {
        OnHostPostWork(DrainInput);
        armed := armed - {t};
        StepKeepsInv(h1, PostDrain(t));
        RunsCons(h1, PostDrain(t), [], View());
        assert [PostDrain(t)] + [] == [PostDrain(t)];
      }
      RunsCons(h, Push(t, ev), if shouldPost then [PostDrain(t)] else [], View());
    }

    /** Swaps the waiting events out under the lock and dispatches them without it. */
    method DrainInputQueue(ghost start: Host, ghost before: seq<Event>) returns (ghost es: seq<Event>)
      requires Inv(View()) && main == Running(DrainInput) && Runs(start, before, View())
      modifies this`inputQueue, this`inputWorkPending, this`main, this`dispatched
      ensures Inv(View()) && main == AtTop && Runs(start, es, View())
      ensures dispatched == old(dispatched) + old(inputQueue) && inputQueue == [] && !inputWorkPending
    {
      StepKeepsInv(View(), Swap);
      RunsSnoc(start, before, View(), Swap);
      var local := inputQueue;
      inputQueue, inputWorkPending := [], false;
      main := Dispatching(local);
      es := DispatchAll(local, start, before + [Swap]);
    }

    method DispatchAll(events: seq<InputEvent>, ghost start: Host, ghost before: seq<Event>)
      returns (ghost es: seq<Event>)
      requires Inv(View()) && main == Dispatching(events) && Runs(start, before, View())
      modifies this`main, this`dispatched
      ensures Inv(View()) && main == AtTop && Runs(start, es, View())
      ensures dispatched == old(dispatched) + events
    {
      var local := events;
      es := before;
      while local != []
        invariant main == Dispatching(local)
        invariant dispatched + local == old(dispatched) + events
        invariant Inv(View()) && Runs(start, es, View())
      {
        StepKeepsInv(View(), Dispatch);
        RunsSnoc(start, es, View(), Dispatch);
        es := es + [Dispatch];
        dispatched := dispatched + [local[0]];
        local := local[1..];
        main := Dispatching(local);
      }
      StepKeepsInv(View(), ItemDone);
      RunsSnoc(start, es, View(), ItemDone);
      es := es + [ItemDone];
      main := AtTop;
      assert dispatched + [] == dispatched;
    }

    /** One wake-up of the loop, no other thread interfering: it runs all posted work and returns if
        quitting has been asked for, else waits again. Either way, if no post was left half done, every
        event pushed has been dispatched. */
    method OnHostLoopTurn() returns (returned: bool, ghost es: seq<Event>)
      requires Inv(View()) && main == AtTop && (quitFlag || postQueue != [])
      modifies this`postQueue, this`inputQueue, this`inputWorkPending, this`main, this`dispatched
      ensures Inv(View()) && postQueue == [] && Runs(old(View()), es, View())
      ensures returned == quitFlag && main == if returned then Returned else AtTop
      ensures old(armed) == {} ==> dispatched == pushed
    {
      ghost var start := View();
      es := RunPosted();
      returned := quitFlag;
      if returned {
        StepKeepsInv(View(), Return);
        RunsSnoc(start, es, View(), Return);
        es := es + [Return];
        main := Returned;
      }
    }

    /** The inner loop: runs the posted items until there are none. */
    method RunPosted() returns (ghost es: seq<Event>)
      requires Inv(View()) && main == AtTop
      modifies this`postQueue, this`inputQueue, this`inputWorkPending, this`main, this`dispatched
      ensures Inv(View()) && main == AtTop && postQueue == [] && Runs(old(View()), es, View())
      ensures old(armed) == {} ==> dispatched == pushed
    {
      ghost var start := View();
      es := [];
      while postQueue != []
        invariant Inv(View()) && main == AtTop && Runs(start, es, View())
      {
        StepKeepsInv(View(), Pop);
        RunsSnoc(start, es, View(), Pop);
        es := es + [Pop];
        var item := postQueue[0];
        postQueue := postQueue[1..];
        main := Running(item);
        if item == DrainInput {
          es := DrainInputQueue(start, es);
        } else {
          StepKeepsInv(View(), ItemDone);
          RunsSnoc(start, es, View(), ItemDone);
          es := es + [ItemDone];
          main := AtTop;
        }
      }
      NothingLeft(View());
    }
  }
}
