/** Input all the way: from a client's INPUT_EVENT packets through the gateway, the AppHost's parser and
    handlers, and the hand-off to the plugin's main loop. */
module InputPath {
  import opened Protocol
  import opened MessageParsing
  import opened InputEvents
  import S = Sessions
  import N = SendPath
  import G = Gateways
  import E = EndToEnd
  import P = Pipeline
  import H = InputHandoff

  /// The AppHost's handlers
  /// ----------------------

  const ECHO_HEARTBEAT: HandlerId := 0
  const REQUEST_QUIT: HandlerId := 1
  const POST_INPUT: HandlerId := 2

  const HANDLERS: map<byte, HandlerId> :=
    map[HEARTBEAT := ECHO_HEARTBEAT, CLOSE_SESSION := REQUEST_QUIT, INPUT_EVENT := POST_INPUT]

  /** The input a packet carries: an INPUT_EVENT with a well-formed body. */
  function InputIn(p: Packet): seq<InputEvent> {
    if p.header.cmdType != INPUT_EVENT then []
    else match ParseBody(p.body)
         case Some(ev) => [ev]
         case None => []
  }

  function InputsOf(ps: seq<Packet>): seq<InputEvent> {
    if ps == [] then [] else InputIn(ps[0]) + InputsOf(ps[1..])
  }

  lemma {:induction false} InputsAppend(ps: seq<Packet>, qs: seq<Packet>)
    ensures InputsOf(ps + qs) == InputsOf(ps) + InputsOf(qs)
  {
    if ps == [] {
      assert ps + qs == qs;
    } else {
      InputsAppend(ps[1..], qs);
      assert (ps + qs)[1..] == ps[1..] + qs;
      Assoc(InputIn(ps[0]), InputsOf(ps[1..]), InputsOf(qs));
    }
  }

  /** One packet's part in the input: the event its body packs, if it is an INPUT_EVENT and that parses. */
  lemma {:induction false} InputOfOne(ps: seq<Packet>, i: nat)
    requires i < |ps|
    ensures var p := ps[i];
      InputsOf(ps) == InputsOf(ps[..i])
          + (if p.header.cmdType == INPUT_EVENT && ParseBody(p.body).Some? then [ParseBody(p.body).value] else [])
          + InputsOf(ps[i + 1..])
  {
    assert ps == ps[..i] + ([ps[i]] + ps[i + 1..]);
    InputsAppend(ps[..i], [ps[i]] + ps[i + 1..]);
    InputsAppend([ps[i]], ps[i + 1..]);
    assert [ps[i]][1..] == [] && InputsOf([ps[i]]) == InputIn(ps[i]);
    Assoc(InputsOf(ps[..i]), InputIn(ps[i]), InputsOf(ps[i + 1..]));
  }

  /** What a handler call does to the UI host, on the reader's thread: a push, a request to quit, or nothing. */
  function Posts(t: H.ThreadId, call: (HandlerId, Packet)): seq<H.Event> {
    if call.0 == POST_INPUT then
      match ParseBody(call.1.body)
      case Some(ev) => [H.Push(t, ev)]
      case None => []
    else if call.0 == REQUEST_QUIT then [H.Quit(t)]
    else []
  }

  function Program(t: H.ThreadId, calls: seq<(HandlerId, Packet)>): seq<H.Event> {
    if calls == [] then [] else Posts(t, calls[0]) + Program(t, calls[1..])
  }

  /** The reader's own part of a run. */
  function ByReader(es: seq<H.Event>, t: H.ThreadId): seq<H.Event> {
    if es == [] then []
    else (if (es[0].Push? || es[0].Quit?) && es[0].t == t then [es[0]] else []) + ByReader(es[1..], t)
  }

  lemma {:induction false} ProgramPushes(t: H.ThreadId, ps: seq<Packet>)
    ensures H.PushedBy(Program(t, Calls(HANDLERS, ps))) == InputsOf(ps)
  {
    if ps != [] {
      ProgramPushes(t, ps[1..]);
      var later := Calls(HANDLERS, ps[1..]);
      if ps[0].header.cmdType in HANDLERS {
        var call := (HANDLERS[ps[0].header.cmdType], ps[0]);
        assert ([call] + later)[1..] == later;
        PushedAppend(Posts(t, call), Program(t, later));
        OnePosts(t, ps[0], call);
      } else {
        assert [] + later == later;
      }
    }
  }

  lemma OnePosts(t: H.ThreadId, p: Packet, call: (HandlerId, Packet))
    requires p.header.cmdType in HANDLERS && call == (HANDLERS[p.header.cmdType], p)
    ensures H.PushedBy(Posts(t, call)) == InputIn(p)
  {
    var posts := Posts(t, call);
    if posts != [] {
      assert posts[1..] == [];
    }
  }

  lemma {:induction false} PushedAppend(es: seq<H.Event>, fs: seq<H.Event>)
    ensures H.PushedBy(es + fs) == H.PushedBy(es) + H.PushedBy(fs)
  {
    if es == [] {
      assert es + fs == fs;
    } else {
      PushedAppend(es[1..], fs);
      assert (es + fs)[1..] == es[1..] + fs;
      Assoc(H.Posted(es[0]), H.PushedBy(es[1..]), H.PushedBy(fs));
    }
  }

  /** When only the reader posts input, the run's pushes are those of its part. */
  lemma {:induction false} ReaderPushes(es: seq<H.Event>, t: H.ThreadId)
    requires H.SoleReader(es, t)
    ensures H.PushedBy(ByReader(es, t)) == H.PushedBy(es)
  {
    if es != [] {
      forall i | 0 <= i < |es[1..]| ensures (es[1..][i].Push? || es[1..][i].PostDrain?) ==> es[1..][i].t == t {
        assert es[1..][i] == es[i + 1];
      }
      ReaderPushes(es[1..], t);
      var own := if (es[0].Push? || es[0].Quit?) && es[0].t == t then [es[0]] else [];
      PushedAppend(own, ByReader(es[1..], t));
      assert own != [] ==> own[1..] == [];
    }
  }

  /** In this run of the UI host only the reader posts input, and what it has done so far is what its handler
      calls on these packets do, in order, and then to quit when the connection closes. */
  ghost predicate Follows(es: seq<H.Event>, t: H.ThreadId, ps: seq<Packet>) {
    H.SoleReader(es, t) && ByReader(es, t) <= Program(t, Calls(HANDLERS, ps)) + [H.Quit(t)]
  }

  lemma {:induction false} PrefixPushes(a: seq<H.Event>, b: seq<H.Event>)
    requires a <= b
    ensures H.PushedBy(a) <= H.PushedBy(b)
  {
    PushedAppend(a, b[|a|..]);
    assert b == a + b[|a|..];
  }

  lemma ReaderPushesBetween(es: seq<H.Event>, t: H.ThreadId, program: seq<H.Event>)
    requires ByReader(es, t) <= program + [H.Quit(t)]
    ensures H.PushedBy(ByReader(es, t)) <= H.PushedBy(program)
    ensures program <= ByReader(es, t) ==> H.PushedBy(ByReader(es, t)) == H.PushedBy(program)
  {
    PushedAppend(program, [H.Quit(t)]);
    assert [H.Quit(t)][1..] == [] && H.PushedBy([H.Quit(t)]) == [];
    assert H.PushedBy(program) + [] == H.PushedBy(program);
    PrefixPushes(ByReader(es, t), program + [H.Quit(t)]);
    if program <= ByReader(es, t) {
      PrefixPushes(program, ByReader(es, t));
    }
  }

  /** Whatever other threads and the loop do: what the plugin is given is a prefix of the input in the packets
      the reader has parsed; all of it once the reader's calls are made and nothing waits. */
  lemma {:induction false} ReaderToPlugin(es: seq<H.Event>, t: H.ThreadId, ps: seq<Packet>)
    requires H.ValidRun(H.INIT, es) && Follows(es, t, ps)
    ensures H.Run(H.INIT, es).dispatched <= InputsOf(ps)
    ensures var h := H.Run(H.INIT, es);
      Program(t, Calls(HANDLERS, ps)) <= ByReader(es, t) && H.Local(h) == h.inputQueue == [] ==>
        h.dispatched == InputsOf(ps)
  {
    var h := H.Run(H.INIT, es);
    H.HandoffIsExact(es);
    ReaderPushes(es, t);
    ReaderPushesBetween(es, t, Program(t, Calls(HANDLERS, ps)));
    ProgramPushes(t, ps);
    Assoc(h.dispatched, H.Local(h), h.inputQueue);
    assert h.dispatched <= H.PushedBy(es);
  }

  /// Through the gateway
  /// -------------------

  /** The packets with this session id, whatever their command. */
  function Under(ps: seq<Packet>, s: SessionId): seq<Packet> {
    if ps == [] then [] else (if ps[0].header.sessionId == s then [ps[0]] else []) + Under(ps[1..], s)
  }

  /** Only INPUT_EVENT packets count. */
  lemma {:induction false} InputUnder(ps: seq<Packet>, s: SessionId)
    ensures InputsOf(Under(ps, s)) == InputsOf(E.Of(ps, INPUT_EVENT, s))
  {
    if ps != [] {
      InputUnder(ps[1..], s);
      InputsAppend(if ps[0].header.sessionId == s then [ps[0]] else [], Under(ps[1..], s));
      InputsAppend(if ps[0].header.cmdType == INPUT_EVENT && ps[0].header.sessionId == s then [ps[0]] else [],
        E.Of(ps[1..], INPUT_EVENT, s));
      assert [ps[0]][1..] == [];
    }
  }

  lemma {:induction false} InputIsTheirs(es: seq<E.Entry>, c: E.LinkId, s: SessionId)
    requires P.OnlyFrom(es, 0, INPUT_EVENT, c, s)
    ensures InputsOf(E.Packets(es)) == InputsOf(E.Came(es, INPUT_EVENT, c, s))
  {
    if es != [] {
      InputIsTheirs(es[1..], c, s);
      InputsAppend([es[0].p], E.Packets(es[1..]));
      var first := if es[0].from == E.From(c) && es[0].p.header.cmdType == INPUT_EVENT
          && es[0].p.header.sessionId == s then [es[0].p] else [];
      InputsAppend(first, E.Came(es[1..], INPUT_EVENT, c, s));
      OneInput(es[0], c, s, first);
    }
  }

  lemma OneInput(entry: E.Entry, c: E.LinkId, s: SessionId, first: seq<Packet>)
    requires entry.p.header.cmdType == INPUT_EVENT ==> first == [entry.p]
    requires entry.p.header.cmdType != INPUT_EVENT ==> first == []
    ensures InputsOf([entry.p]) == InputsOf(first)
  {
    assert [entry.p][1..] == [];
  }

  lemma PrefixInputs(ps: seq<Packet>, qs: seq<Packet>)
    requires ps <= qs
    ensures InputsOf(ps) <= InputsOf(qs)
  {
    InputsAppend(ps, qs[|ps|..]);
    assert qs == ps + qs[|ps|..];
  }

  /** The input among the first `k` entries: that of the first `n`, then the session's. */
  lemma InputSplits(es: seq<E.Entry>, n: nat, k: nat, c: E.LinkId, s: SessionId)
    requires n <= k <= |es| && P.OnlyFrom(es[n..k], 0, INPUT_EVENT, c, s)
    ensures InputsOf(E.Packets(es[..k]))
            == InputsOf(E.Packets(es[..n])) + InputsOf(E.CameSince(es, n, k, INPUT_EVENT, c, s))
  {
    assert es[..k] == es[..n] + es[n..k];
    E.PacketsAppend(es[..n], es[n..k]);
    InputsAppend(E.Packets(es[..n]), E.Packets(es[n..k]));
    InputIsTheirs(es[n..k], c, s);
  }

  /** The packets the reader has parsed carry only input the client has sent under the session since, after what
      the first `n` entries carried; all of it when all has arrived. */
  lemma {:induction false} ArrivedInput(r: E.Relay, old': seq<E.Entry>, m: nat, a: N.Slot, c: E.LinkId, s: SessionId,
                                        heard: seq<seq<byte>>, k: nat)
    requires P.OnlyFrom(E.Entries(r, a), |old'|, INPUT_EVENT, c, s) && old' <= E.Entries(r, a)
    requires E.CommandDelivered(r, |old'|, m, s, a, c, heard, k, INPUT_EVENT)
    ensures var sent := SentInput(r, c, m, s);
      && InputsOf(FeedAll([], heard).packets) <= InputsOf(E.Packets(old')) + sent
      && (k == |E.Entries(r, a)| && E.CameSince(E.Entries(r, a), |old'|, k, INPUT_EVENT, c, s)
            == E.Of(Parse(r.links[c].received).packets[m..], INPUT_EVENT, s)
          ==> InputsOf(FeedAll([], heard).packets) == InputsOf(E.Packets(old')) + sent)
  {
    var es, n := E.Entries(r, a), |old'|;
    assert es[..n] == old';
    InputUnder(Parse(r.links[c].received).packets[m..], s);
    if k < n {
      BeforeThose(es, k, n);
    } else {
      P.OnlyFromNarrow(es, n, k, INPUT_EVENT, c, s);
      SelectedInput(es, n, k, c, s, E.Of(Parse(r.links[c].received).packets[m..], INPUT_EVENT, s));
    }
  }

  lemma SelectedInput(es: seq<E.Entry>, n: nat, k: nat, c: E.LinkId, s: SessionId, sent: seq<Packet>)
    requires n <= k <= |es| && P.OnlyFrom(es[n..k], 0, INPUT_EVENT, c, s)
          && E.CameSince(es, n, k, INPUT_EVENT, c, s) <= sent
    ensures InputsOf(E.Packets(es[..k])) <= InputsOf(E.Packets(es[..n])) + InputsOf(sent)
    ensures E.CameSince(es, n, k, INPUT_EVENT, c, s) == sent ==>
          InputsOf(E.Packets(es[..k])) == InputsOf(E.Packets(es[..n])) + InputsOf(sent)
  {
    InputSplits(es, n, k, c, s);
    PrefixInputs(E.CameSince(es, n, k, INPUT_EVENT, c, s), sent);
  }

  lemma BeforeThose(es: seq<E.Entry>, k: nat, n: nat)
    requires k <= n <= |es|
    ensures InputsOf(E.Packets(es[..k])) <= InputsOf(E.Packets(es[..n]))
  {
    assert es[..n] == es[..k] + es[k..n];
    E.PacketsAppend(es[..k], es[k..n]);
    PrefixInputs(E.Packets(es[..k]), E.Packets(es[..n]));
  }

  /** With all bytes handed over and received, every entry has arrived. */
  lemma AllArrived(r: E.Relay, n: nat, m: nat, s: SessionId, a: N.Slot, c: E.LinkId, heard: seq<seq<byte>>, k: nat)
    requires E.RInv(r) && E.CommandDelivered(r, n, m, s, a, c, heard, k, INPUT_EVENT)
    requires Flatten(heard) == r.net.slots[a].handed && r.net.slots[a].queue == []
    ensures k == |E.Entries(r, a)|
  {
    var all := E.AppHostSees(r, a, heard);
    E.PacketsLength(E.Entries(r, a)[..k]);
    E.PacketsLength(E.Entries(r, a)[..all]);
  }

  /** Everything the client sent has been handled, handed over, received and called, and nothing waits. */
  ghost predicate AllThrough(r: E.Relay, a: N.Slot, c: E.LinkId, heard: seq<seq<byte>>, es: seq<H.Event>, t: H.ThreadId)
    requires H.ValidRun(H.INIT, es) && c in r.links && a in r.net.slots
  {
    && AllHeard(r, a, c, heard)
    && Program(t, Calls(HANDLERS, Parse(Flatten(heard)).packets)) <= ByReader(es, t)
    && H.Local(H.Run(H.INIT, es)) == [] && H.Run(H.INIT, es).inputQueue == []
  }

  /** The input the client has sent under the session after its first `m` packets: that of all its packets with the
      session's id. */
  function SentInput(r: E.Relay, c: E.LinkId, m: nat, s: SessionId): seq<InputEvent>
    requires c in r.links && m <= |Parse(r.links[c].received).packets|
  {
    InputsOf(Under(Parse(r.links[c].received).packets[m..], s))
  }

  /** What the plugin is given is, after what the connection had been sent before, a prefix of the input its
      client has sent under the session since, whole, once each and in order; and all of it in the end. */
  ghost predicate InputArrives(r: E.Relay, old': seq<E.Entry>, m: nat, s: SessionId, a: N.Slot, c: E.LinkId,
                               heard: seq<seq<byte>>, es: seq<H.Event>, t: H.ThreadId)
    requires H.ValidRun(H.INIT, es)
  {
    && c in r.links && a in r.net.slots && m <= |Parse(r.links[c].received).packets|
    && var given, sent := H.Run(H.INIT, es).dispatched, InputsOf(E.Packets(old')) + SentInput(r, c, m, s);
       given <= sent && (AllThrough(r, a, c, heard, es, t) ==> given == sent)
  }

  /** The same for the packets the reader has parsed. */
  ghost predicate PacketsArrive(r: E.Relay, old': seq<E.Entry>, m: nat, s: SessionId, a: N.Slot, c: E.LinkId,
                                heard: seq<seq<byte>>) {
    && c in r.links && a in r.net.slots && m <= |Parse(r.links[c].received).packets|
    && var parsed, sent := InputsOf(Parse(Flatten(heard)).packets), InputsOf(E.Packets(old')) + SentInput(r, c, m, s);
       parsed <= sent && (AllHeard(r, a, c, heard) ==> parsed == sent)
  }

  ghost predicate AllHeard(r: E.Relay, a: N.Slot, c: E.LinkId, heard: seq<seq<byte>>)
    requires c in r.links && a in r.net.slots
  {
    r.links[c].todo == [] && r.net.slots[a].queue == [] && Flatten(heard) == r.net.slots[a].handed
  }

  lemma {:induction false} PacketsAlong(r: E.Relay, trace: seq<E.RelayEvent>, r': E.Relay, s: SessionId, h: Handle,
                                        a: N.Slot,
                                        c: E.LinkId, heard: seq<seq<byte>>)
    requires E.RInv(r) && E.Traces(r, trace, r') && E.RouteKept(r, trace, s, h, a) && c in r.links
    requires a in r'.net.slots && Flatten(heard) <= r'.net.slots[a].handed
    requires P.OnlyFrom(E.Entries(r', a), |E.Entries(r, a)|, INPUT_EVENT, c, s) && E.Passes(r.opener, INPUT_EVENT)
    ensures PacketsArrive(r', E.Entries(r, a), |r.links[c].handled|, s, a, c, heard)
  {
    E.TraceGrows(r, trace, s, h, a, c);
    E.TraceKeepsInv(r, trace);
    var k := E.EndToEndTransparent(r, trace, s, h, a, c, heard);
    ArrivedInput(r', E.Entries(r, a), |r.links[c].handled|, a, c, s, heard, k);
    OneParse(heard);
    if AllHeard(r', a, c, heard) {
      AllArrived(r', |E.Entries(r, a)|, |r.links[c].handled|, s, a, c, heard, k);
    }
  }

  lemma {:induction false} ThenPlugin(r: E.Relay, old': seq<E.Entry>, m: nat, s: SessionId, a: N.Slot, c: E.LinkId,
                                      heard: seq<seq<byte>>, es: seq<H.Event>, t: H.ThreadId)
    requires PacketsArrive(r, old', m, s, a, c, heard)
    requires H.ValidRun(H.INIT, es) && Follows(es, t, Parse(Flatten(heard)).packets)
    ensures InputArrives(r, old', m, s, a, c, heard, es, t)
  {
    ReaderToPlugin(es, t, Parse(Flatten(heard)).packets);
  }

  lemma {:induction false} PacketsThroughGateway(w0: P.Whole, ms: seq<P.Move>, w1: P.Whole, s: SessionId, h: Handle,
                                                 a: N.Slot,
                                                 c: E.LinkId, heard: seq<seq<byte>>)
    requires P.Carries(P.ToApphosts, w0, ms, w1, s, h, a, INPUT_EVENT, c)
    requires a in w1.r.net.slots && Flatten(heard) <= w1.r.net.slots[a].handed
    ensures PacketsArrive(w1.r, E.Entries(w0.r, a), |w0.r.links[c].handled|, s, a, c, heard)
  {
    var trace := P.RelayPart(P.ToApphosts, w0, ms, w1, s, h, a, INPUT_EVENT, c);
    PacketsAlong(w0.r, trace, w1.r, s, h, a, c, heard);
  }

  /** Input all the way: from any reachable state in which the session is bound, until something ends its route,
      whatever else the gateway, the pool, other threads and the plugin's loop do, as long as no other
      client connection stamps input with the session. */
  lemma {:induction false} InputThroughGateway(w0: P.Whole, ms: seq<P.Move>, w1: P.Whole, s: SessionId, h: Handle,
                                               a: N.Slot,
                                               c: E.LinkId, heard: seq<seq<byte>>, es: seq<H.Event>, t: H.ThreadId)
    requires P.Carries(P.ToApphosts, w0, ms, w1, s, h, a, INPUT_EVENT, c)
    requires a in w1.r.net.slots && Flatten(heard) <= w1.r.net.slots[a].handed
    requires H.ValidRun(H.INIT, es) && Follows(es, t, Parse(Flatten(heard)).packets)
    ensures InputArrives(w1.r, E.Entries(w0.r, a), |w0.r.links[c].handled|, s, a, c, heard, es, t)
  {
    PacketsThroughGateway(w0, ms, w1, s, h, a, c, heard);
    ThenPlugin(w1.r, E.Entries(w0.r, a), |w0.r.links[c].handled|, s, a, c, heard, es, t);
  }

  lemma OneParse(heard: seq<seq<byte>>)
    ensures FeedAll([], heard).packets == Parse(Flatten(heard)).packets
  {
    var none: seq<byte> := [];
    ChunkingInvisible(none, heard);
    assert none + Flatten(heard) == Flatten(heard);
  }

  lemma {:induction false} OwnCarriesNoInput(es: seq<E.Entry>)
    requires P.OwnOnly(es)
    ensures InputsOf(E.Packets(es)) == []
  {
    if es != [] {
      OwnCarriesNoInput(es[1..]);
      InputsAppend([es[0].p], E.Packets(es[1..]));
      assert P.IsOwn(es[0]) && [es[0].p][1..] == [];
    }
  }

  /** From the READY that binds the session, in any run from the start: the plugin is given nothing but the
      input the session's client has sent under it and the gateway has handled since. The READY leads from
      `w` to `w0`, and `ms` from there to `w1`. */
  lemma {:induction false} InputFromReady(w: P.Whole, e: G.Event, b: N.Slot, w0: P.Whole, ms: seq<P.Move>, w1: P.Whole,
                                          a: N.Slot, c: E.LinkId, heard: seq<seq<byte>>, es: seq<H.Event>,
                                              t: H.ThreadId)
    requires P.Reached(P.ToApphosts, w) && N.WellFormed(w.r.net) && P.MEnabled(P.ToApphosts, w, P.Control(e, b))
    requires e.ReadyBind? && S.CanBind(w.g.table, e.s) && N.FindIn(w.r.net.slots, w.r.net.active, e.h) == Some(a)
    requires w0 == P.MStep(P.ToApphosts, w, P.Control(e, b)) && P.ValidMoves(P.ToApphosts, w0, ms)
          && w1 == P.After(P.ToApphosts, w0, ms)
    requires P.NothingEnds(P.ToApphosts, w0, ms, e.s) && c in w.r.links && P.OnlyStamps(w1.r, INPUT_EVENT, c, e.s)
    requires a in w1.r.net.slots && Flatten(heard) <= w1.r.net.slots[a].handed
    requires H.ValidRun(H.INIT, es) && Follows(es, t, Parse(Flatten(heard)).packets)
    ensures var m, given := |w.r.links[c].handled|, H.Run(H.INIT, es).dispatched;
      && c in w1.r.links && m <= |Parse(w1.r.links[c].received).packets|
      && given <= SentInput(w1.r, c, m, e.s)
      && (AllThrough(w1.r, a, c, heard, es, t) ==> given == SentInput(w1.r, c, m, e.s))
  {
    P.ReachedStep(P.ToApphosts, w, P.Control(e, b));
    P.BindingBegins(w, e, b, a);
    OwnCarriesNoInput(E.Entries(w0.r, a));
    InputThroughGateway(w0, ms, w1, e.s, e.h, a, c, heard, es, t);
    NoneBefore(SentInput(w1.r, c, |w.r.links[c].handled|, e.s));
  }

  lemma NoneBefore(xs: seq<InputEvent>)
    ensures [] + xs == xs
  {
  }

  /// The reader thread's own code
  /// ----------------------------

  lemma {:induction false} ByReaderAppend(es: seq<H.Event>, fs: seq<H.Event>, t: H.ThreadId)
    ensures ByReader(es + fs, t) == ByReader(es, t) + ByReader(fs, t)
  {
    if es == [] {
      assert es + fs == fs;
    } else {
      ByReaderAppend(es[1..], fs, t);
      assert (es + fs)[1..] == es[1..] + fs;
      Assoc(if (es[0].Push? || es[0].Quit?)
          && es[0].t == t then [es[0]] else [], ByReader(es[1..], t), ByReader(fs, t));
    }
  }

  lemma {:induction false} RunsAppend(h: H.Host, es: seq<H.Event>, mid: H.Host, fs: seq<H.Event>, h': H.Host)
    requires H.Runs(h, es, mid) && H.Runs(mid, fs, h')
    ensures H.Runs(h, es + fs, h')
    decreases |es|
  {
    if es == [] {
      assert es + fs == fs;
    } else {
      RunsAppend(H.Step(h, es[0]), es[1..], mid, fs, h');
      assert es + fs == [es[0]] + (es[1..] + fs);
      H.RunsCons(h, es[0], es[1..] + fs, h');
    }
  }

  lemma {:induction false} ProgramAppend(t: H.ThreadId, calls: seq<(HandlerId, Packet)>, more: seq<(HandlerId, Packet)>)
    ensures Program(t, calls + more) == Program(t, calls) + Program(t, more)
  {
    if calls == [] {
      assert calls + more == more;
    } else {
      ProgramAppend(t, calls[1..], more);
      assert (calls + more)[1..] == calls[1..] + more;
      Assoc(Posts(t, calls[0]), Program(t, calls[1..]), Program(t, more));
    }
  }

  /** The run has taken the host from `h` to `h'`, and the reader's part in it is what these calls post. */
  ghost predicate Called(h: H.Host, es: seq<H.Event>, h': H.Host, t: H.ThreadId, calls: seq<(HandlerId, Packet)>) {
    && H.Runs(h, es, h') && H.Inv(h') && h'.armed == h.armed
    && H.SoleReader(es, t) && ByReader(es, t) == Program(t, calls)
  }

  lemma CalledAppend(h: H.Host, es: seq<H.Event>, mid: H.Host, fs: seq<H.Event>, h': H.Host, t: H.ThreadId,
                     calls: seq<(HandlerId, Packet)>, more: seq<(HandlerId, Packet)>)
    requires Called(h, es, mid, t, calls) && Called(mid, fs, h', t, more)
    ensures Called(h, es + fs, h', t, calls + more)
  {
    RunsAppend(h, es, mid, fs, h');
    ByReaderAppend(es, fs, t);
    ProgramAppend(t, calls, more);
  }

  lemma OneCalled(h: H.Host, e: H.Event, rest: seq<H.Event>, h': H.Host, t: H.ThreadId, call: (HandlerId, Packet))
    requires H.Runs(h, [e] + rest, h') && H.Inv(h') && h'.armed == h.armed && Posts(t, call) == [e]
    requires rest == [] || rest == [H.PostDrain(t)]
    ensures Called(h, [e] + rest, h', t, [call])
  {
    assert [call][1..] == [];
    assert Program(t, [call]) == Posts(t, call) + [] == [e];
    ByReaderAppend([e], rest, t);
    assert [e][1..] == [];
    if rest != [] {
      assert rest[1..] == [];
    }
  }

  lemma NothingCalled(h: H.Host, t: H.ThreadId, call: (HandlerId, Packet))
    requires H.Inv(h) && Posts(t, call) == []
    ensures Called(h, [], h, t, [call]) && Called(h, [], h, t, [])
  {
    assert [call][1..] == [];
    assert Program(t, [call]) == Posts(t, call) + [];
  }

  /** The registered handlers: heartbeats are echoed, a close asks the loop to quit, well-formed input is posted. */
  method RunHandler(host: H.UiHost, ghost t: H.ThreadId, call: (HandlerId, Packet)) returns (ghost es: seq<H.Event>)
    requires H.Inv(host.View()) && t !in host.armed
    modifies host
    ensures Called(old(host.View()), es, host.View(), t, [call])
  {
    ghost var h := host.View();
    if call.0 == POST_INPUT {
      var parsed := ParseBody(call.1.body);
      if parsed.Some? {
        ghost var rest := if host.inputWorkPending then [] else [H.PostDrain(t)];
        host.PostInput(t, parsed.value);
        es := [H.Push(t, parsed.value)] + rest;
        OneCalled(h, H.Push(t, parsed.value), rest, host.View(), t, call);
        return;
      }
    } else if call.0 == REQUEST_QUIT {
      host.OnHostQuit(t);
      H.RunsCons(h, H.Quit(t), [], host.View());
      H.StepKeepsInv(h, H.Quit(t));
      es := [H.Quit(t)] + [];
      OneCalled(h, H.Quit(t), [], host.View(), t, call);
      return;
    }
    es := [];
    NothingCalled(h, t, call);
  }

  method RunHandlers(host: H.UiHost, ghost t: H.ThreadId, calls: seq<(HandlerId, Packet)>)
    returns (ghost es: seq<H.Event>)
    requires H.Inv(host.View()) && t !in host.armed
    modifies host
    ensures Called(old(host.View()), es, host.View(), t, calls)
  {
    ghost var h := host.View();
    es := [];
    var i := 0;
    assert calls[..0] == [];
    while i < |calls|
      invariant 0 <= i <= |calls| && Called(h, es, host.View(), t, calls[..i])
    {
      ghost var mid := host.View();
      ghost var more := RunHandler(host, t, calls[i]);
      CalledAppend(h, es, mid, more, host.View(), t, calls[..i], [calls[i]]);
      assert calls[..i + 1] == calls[..i] + [calls[i]];
      es := es + more;
      i := i + 1;
    }
    assert calls[..i] == calls;
  }

  /// When the reader asks to quit
  /// ----------------------------

  /** How often the thread asks the loop to quit, and how many of the packets are CLOSE_SESSION. */
  function QuitCount(es: seq<H.Event>, t: H.ThreadId): nat {
    if es == [] then 0 else (if es[0] == H.Quit(t) then 1 else 0) + QuitCount(es[1..], t)
  }

  function CloseCount(ps: seq<Packet>): nat {
    if ps == [] then 0 else (if ps[0].header.cmdType == CLOSE_SESSION then 1 else 0) + CloseCount(ps[1..])
  }

  lemma {:induction false} QuitsAppend(es: seq<H.Event>, fs: seq<H.Event>, t: H.ThreadId)
    ensures QuitCount(es + fs, t) == QuitCount(es, t) + QuitCount(fs, t)
  {
    if es == [] {
      assert es + fs == fs;
    } else {
      QuitsAppend(es[1..], fs, t);
      assert (es + fs)[1..] == es[1..] + fs;
    }
  }

  lemma {:induction false} ReaderQuits(es: seq<H.Event>, t: H.ThreadId)
    ensures QuitCount(ByReader(es, t), t) == QuitCount(es, t)
  {
    if es != [] {
      ReaderQuits(es[1..], t);
      var own := if (es[0].Push? || es[0].Quit?) && es[0].t == t then [es[0]] else [];
      QuitsAppend(own, ByReader(es[1..], t), t);
      assert own != [] ==> own[1..] == [];
    }
  }

  /** What the handlers do on one packet. */
  function OnPacket(t: H.ThreadId, p: Packet): seq<H.Event> {
    Program(t, Calls(HANDLERS, [p]))
  }

  lemma OnePacket(t: H.ThreadId, p: Packet)
    ensures p.header.cmdType == CLOSE_SESSION ==> OnPacket(t, p) == [H.Quit(t)]
    ensures p.header.cmdType != CLOSE_SESSION ==> QuitCount(OnPacket(t, p), t) == 0
  {
    assert [p][1..] == [];
    if p.header.cmdType in HANDLERS {
      var call := (HANDLERS[p.header.cmdType], p);
      var calls := [call];
      assert Calls(HANDLERS, [p]) == calls && calls[1..] == [];
      var posts := Posts(t, call);
      assert OnPacket(t, p) == posts + Program(t, calls[1..]) && posts + [] == posts;
      assert posts != [] ==> posts[1..] == [];
    } else {
      assert Calls(HANDLERS, [p]) == [];
    }
  }

  lemma ProgramSplits(t: H.ThreadId, ps: seq<Packet>, qs: seq<Packet>)
    ensures Program(t, Calls(HANDLERS, ps + qs)) == Program(t, Calls(HANDLERS, ps)) + Program(t, Calls(HANDLERS, qs))
  {
    CallsAppend(HANDLERS, ps, qs);
    ProgramAppend(t, Calls(HANDLERS, ps), Calls(HANDLERS, qs));
  }

  lemma {:induction false} ProgramQuits(t: H.ThreadId, ps: seq<Packet>)
    ensures QuitCount(Program(t, Calls(HANDLERS, ps)), t) == CloseCount(ps)
  {
    if ps != [] {
      ProgramQuits(t, ps[1..]);
      assert ps == [ps[0]] + ps[1..];
      ProgramSplits(t, [ps[0]], ps[1..]);
      QuitsAppend(OnPacket(t, ps[0]), Program(t, Calls(HANDLERS, ps[1..])), t);
      OnePacket(t, ps[0]);
      assert [H.Quit(t)][1..] == [];
    }
  }

  /** A close's quit, among what the handlers do. */
  lemma ProgramAt(t: H.ThreadId, ps: seq<Packet>, i: nat)
    requires i < |ps| && ps[i].header.cmdType == CLOSE_SESSION
    ensures var before := Program(t, Calls(HANDLERS, ps[..i]));
      before + [H.Quit(t)] <= Program(t, Calls(HANDLERS, ps))
  {
    assert ps == ps[..i] + ([ps[i]] + ps[i + 1..]);
    ProgramSplits(t, ps[..i], [ps[i]] + ps[i + 1..]);
    ProgramSplits(t, [ps[i]], ps[i + 1..]);
    OnePacket(t, ps[i]);
    Assoc(Program(t, Calls(HANDLERS, ps[..i])), [H.Quit(t)], Program(t, Calls(HANDLERS, ps[i + 1..])));
  }

  /** Where an event of the reader's part stands in the whole run. */
  lemma {:induction false} ReaderAt(es: seq<H.Event>, t: H.ThreadId, before: seq<H.Event>, e: H.Event) returns (j: nat)
    requires before + [e] <= ByReader(es, t)
    ensures j < |es| && es[j] == e && ByReader(es[..j], t) == before
  {
    var mine := (es[0].Push? || es[0].Quit?) && es[0].t == t;
    if mine && before == [] {
      j := 0;
      assert (before + [e])[0] == ByReader(es, t)[0];
    } else if mine {
      assert before[0] == (before + [e])[0] == ByReader(es, t)[0] && before == [before[0]] + before[1..];
      assert (before + [e])[1..] == before[1..] + [e] && ByReader(es, t)[1..] == ByReader(es[1..], t);
      var k := ReaderAt(es[1..], t, before[1..], e);
      j := k + 1;
      assert es[..j][1..] == es[1..][..k];
    } else {
      var k := ReaderAt(es[1..], t, before, e);
      j := k + 1;
      assert es[..j][1..] == es[1..][..k];
    }
  }

  /** The quit a close asks for: after the input of exactly the packets before it, and after their closes' quits. */
  ghost predicate QuitsAt(es: seq<H.Event>, t: H.ThreadId, ps: seq<Packet>, i: nat, j: nat)
    requires i < |ps|
  {
    j < |es| && es[j] == H.Quit(t) && H.PushedBy(es[..j]) == InputsOf(ps[..i])
    && QuitCount(es[..j], t) == CloseCount(ps[..i])
  }

  lemma SoleBefore(es: seq<H.Event>, t: H.ThreadId, j: nat)
    requires H.SoleReader(es, t) && j <= |es|
    ensures H.SoleReader(es[..j], t)
  {
  }

  lemma QuitPlaced(es: seq<H.Event>, t: H.ThreadId, ps: seq<Packet>, after: seq<H.Event>, i: nat) returns (j: nat)
    requires H.SoleReader(es, t) && ByReader(es, t) == Program(t, Calls(HANDLERS, ps)) + after
    requires i < |ps| && ps[i].header.cmdType == CLOSE_SESSION
    ensures QuitsAt(es, t, ps, i, j)
  {
    var before := Program(t, Calls(HANDLERS, ps[..i]));
    ProgramAt(t, ps, i);
    j := ReaderAt(es, t, before, H.Quit(t));
    SoleBefore(es, t, j);
    ReaderPushes(es[..j], t);
    ProgramPushes(t, ps[..i]);
    ReaderQuits(es[..j], t);
    ProgramQuits(t, ps[..i]);
  }

  /** The reader asks to quit once for each CLOSE_SESSION, where its packet stands, and once when the connection
      closes. */
  lemma {:induction false} QuitsAreCloses(es: seq<H.Event>, t: H.ThreadId, ps: seq<Packet>, closed: bool)
    requires H.SoleReader(es, t)
    requires ByReader(es, t) == Program(t, Calls(HANDLERS, ps)) + if closed then [H.Quit(t)] else []
    ensures QuitCount(es, t) == CloseCount(ps) + if closed then 1 else 0
    ensures forall i :: 0 <= i < |ps| && ps[i].header.cmdType == CLOSE_SESSION ==> exists j :: QuitsAt(es, t, ps, i, j)
  {
    var after := if closed then [H.Quit(t)] else [];
    assert closed ==> after[1..] == [];
    ReaderQuits(es, t);
    QuitsAppend(Program(t, Calls(HANDLERS, ps)), after, t);
    ProgramQuits(t, ps);
    forall i | 0 <= i < |ps| && ps[i].header.cmdType == CLOSE_SESSION ensures exists j :: QuitsAt(es, t, ps, i, j) {
      var j := QuitPlaced(es, t, ps, after, i);
    }
  }

  method RegisterHandlers(handler: MessageHandler)
    requires handler.handlers == map[]
    modifies handler
    ensures handler.handlers == HANDLERS && handler.parser == old(handler.parser) && handler.calls == old(handler.calls)
  {
    handler.RegisterHandler(HEARTBEAT, ECHO_HEARTBEAT);
    handler.RegisterHandler(CLOSE_SESSION, REQUEST_QUIT);
    handler.RegisterHandler(INPUT_EVENT, POST_INPUT);
  }

  /** The reader sees the connection close. */
  ghost predicate Closes(received: seq<seq<byte>>, limit: nat) {
    exists i :: 0 <= i < |received| && i < limit && received[i] == []
  }

  /** The handler calls of a whole connection. */
  method Hear(received: seq<seq<byte>>, limit: nat) returns (calls: seq<(HandlerId, Packet)>, quitRequested: bool)
    ensures calls == Calls(HANDLERS, Parse(Flatten(Heard(received, limit))).packets)
    ensures quitRequested <==> Closes(received, limit)
  {
    var handler := new MessageHandler();
    RegisterHandlers(handler);
    quitRequested := ReaderLoop(handler, received, limit);
    calls := handler.calls;
  }

  /** The reader thread from registration to its end, no other thread in between: it posts exactly the input in
      the packets of the stream it hears, and asks the loop to quit once for each CLOSE_SESSION among them, after
      the input before it, and once if the connection closes. */
  method RunReader(host: H.UiHost, ghost t: H.ThreadId, received: seq<seq<byte>>, limit: nat)
    returns (ghost es: seq<H.Event>)
    requires host.View() == H.INIT
    modifies host
    ensures var ps := Parse(Flatten(Heard(received, limit))).packets;
      && H.Runs(H.INIT, es, host.View()) && H.SoleReader(es, t)
      && ByReader(es, t) == Program(t, Calls(HANDLERS, ps)) + (if Closes(received, limit) then [H.Quit(t)] else [])
      && host.pushed == InputsOf(ps)
      && QuitCount(es, t) == CloseCount(ps) + (if Closes(received, limit) then 1 else 0)
      && (forall i :: 0 <= i < |ps| && ps[i].header.cmdType == CLOSE_SESSION ==> exists j :: QuitsAt(es, t, ps, i, j))
  {
    ghost var ps := Parse(Flatten(Heard(received, limit))).packets;
    var calls, quitRequested := Hear(received, limit);
    es := RunHandlers(host, t, calls);
    if quitRequested {
      H.RunsSnoc(H.INIT, es, host.View(), H.Quit(t));
      host.OnHostQuit(t);
      ByReaderAppend(es, [H.Quit(t)], t);
      assert [H.Quit(t)][1..] == [];
      es := es + [H.Quit(t)];
    } else {
      assert ByReader(es, t) + [] == ByReader(es, t);
    }
    ReaderPushed(es, t, ps, quitRequested, host.View());
    QuitsAreCloses(es, t, ps, quitRequested);
  }

  lemma ReaderPushed(es: seq<H.Event>, t: H.ThreadId, ps: seq<Packet>, quit: bool, h: H.Host)
    requires H.Runs(H.INIT, es, h) && H.SoleReader(es, t)
    requires ByReader(es, t) == Program(t, Calls(HANDLERS, ps)) + if quit then [H.Quit(t)] else []
    ensures h.pushed == InputsOf(ps)
  {
    H.RunPushes(H.INIT, es);
    ReaderPushes(es, t);
    ProgramPushes(t, ps);
    PushedAppend(Program(t, Calls(HANDLERS, ps)), if quit then [H.Quit(t)] else []);
    assert [H.Quit(t)][1..] == [];
    assert H.INIT.pushed + H.PushedBy(es) == H.PushedBy(es);
    assert InputsOf(ps) + [] == InputsOf(ps);
  }
}
