/** The picture at the far end: window frames travel as PIXEL_DATA packets, directly or through the
    gateway; the client's parser cuts them out of whatever has arrived, and its renderer applies them
    in order. */
module Mirroring {
  import opened Protocol
  import opened MessageParsing
  import opened Framebuffer
  import opened SendPath
  import E = EndToEnd
  import P = Pipeline

  /** The AppHost's sink: one PIXEL_DATA packet for each body. */
  function PixelPacket(session: uint32, body: seq<byte>): Packet {
    Packet(Header(PROTOCOL_MAGIC, session, PIXEL_DATA, |body| % 0x1_0000_0000, 0), body)
  }

  /** The packets a run of draws sends. */
  ghost function Sent(session: uint32, w: Window, ds: seq<Draw>): seq<Packet>
    requires GoodWindow(w) && ValidDraws(w, ds)
    decreases |ds|
  {
    if ds == [] then [] else [PixelPacket(session, FrameBody(w, ds[0]))] + Sent(session, Drawn(w, ds[0]), ds[1..])
  }

  /** Every frame fits a packet the parser accepts. */
  ghost predicate FramesFit(w: Window, ds: seq<Draw>)
    requires GoodWindow(w) && ValidDraws(w, ds)
    decreases |ds|
  {
    ds == [] || (|FrameBody(w, ds[0])| <= MAX_BODY_LENGTH && FramesFit(Drawn(w, ds[0]), ds[1..]))
  }

  /** Up to 2^24 - 6 pixels, whatever is drawn. */
  lemma {:induction false} SmallWindowFits(w: Window, ds: seq<Draw>)
    requires GoodWindow(w) && BODY_HEADER + 4 * |w.px| <= MAX_BODY_LENGTH && ValidDraws(w, ds)
    ensures FramesFit(w, ds)
    decreases |ds|
  {
    if ds != [] {
      BodyBound(w, ds[0]);
      SmallWindowFits(Drawn(w, ds[0]), ds[1..]);
    }
  }

  lemma BodyBound(w: Window, d: Draw)
    requires GoodWindow(w) && PaintsInside(w, d)
    ensures |FrameBody(w, d)| <= BODY_HEADER + 4 * |w.px|
  {
    SmallerRectangle(w.width, w.height, d.rc);
    WindowPackable(w, d);
  }

  lemma {:induction false} SentIsGood(session: uint32, w: Window, ds: seq<Draw>)
    requires GoodWindow(w) && ValidDraws(w, ds) && FramesFit(w, ds)
    ensures |Sent(session, w, ds)| == |ds| && GoodPackets(Sent(session, w, ds))
    decreases |ds|
  {
    if ds != [] {
      SentIsGood(session, Drawn(w, ds[0]), ds[1..]);
    }
  }

  /** A packet over the limit is rejected on its header, whatever follows. */
  lemma OversizedRejected(session: uint32, body: seq<byte>, more: seq<byte>)
    requires MAX_BODY_LENGTH < |body| < 0x1_0000_0000
    ensures var stream := HeaderBytes(PixelPacket(session, body).header) + more;
      Parse(stream) == Parsed([], Malformed, stream)
  {
    var h := PixelPacket(session, body).header;
    HeaderRoundTrip(h, more);
    RejectNow(HeaderBytes(h) + more);
  }

  /** The whole stream parses to all the frames if and only if every frame fits. */
  lemma {:induction false} FitExact(session: uint32, w: Window, ds: seq<Draw>)
    requires GoodWindow(w) && ValidDraws(w, ds)
    ensures Parse(WireOf(Sent(session, w, ds))) == Parsed(Sent(session, w, ds), NeedMore, []) <==> FramesFit(w, ds)
    decreases |ds|
  {
    if ds != [] {
      var body, rest := FrameBody(w, ds[0]), Sent(session, Drawn(w, ds[0]), ds[1..]);
      FitExact(session, Drawn(w, ds[0]), ds[1..]);
      FirstFits(session, body, rest);
    }
  }

  lemma FirstFits(session: uint32, body: seq<byte>, rest: seq<Packet>)
    ensures var ps := [PixelPacket(session, body)] + rest;
      Parse(WireOf(ps)) == Parsed(ps, NeedMore, [])
      <==> |body| <= MAX_BODY_LENGTH && Parse(WireOf(rest)) == Parsed(rest, NeedMore, [])
  {
    var p := PixelPacket(session, body);
    var ps := [p] + rest;
    assert ps[1..] == rest;
    if |body| <= MAX_BODY_LENGTH {
      ParseOne(p, WireOf(rest));
      Cancel(p, Parse(WireOf(rest)).packets, rest);
    } else {
      ParseSound(WireOf(ps));
      assert !GoodPacket(ps[0]);
    }
  }

  lemma Cancel(p: Packet, ps: seq<Packet>, qs: seq<Packet>)
    ensures [p] + ps == [p] + qs <==> ps == qs
  {
    TakeDrop([p], ps);
    TakeDrop([p], qs);
  }

  lemma {:induction false} SentPrefix(session: uint32, w: Window, ds: seq<Draw>, k: nat)
    requires GoodWindow(w) && ValidDraws(w, ds) && k <= |ds|
    ensures ValidDraws(w, ds[..k]) && Sent(session, w, ds[..k]) <= Sent(session, w, ds)
          && |Sent(session, w, ds[..k])| == k
    decreases |ds|
  {
    if k > 0 {
      assert ds[..k][1..] == ds[1..][..k - 1];
      SentPrefix(session, Drawn(w, ds[0]), ds[1..], k - 1);
    }
  }

  /** The renderer's part of the client's packet switch. */
  function Shown(c: Client, ps: seq<Packet>): Client
    requires Sized(c)
    decreases |ps|
  {
    if ps == [] then c else Shown(if ps[0].header.cmdType == PIXEL_DATA then ApplyBody(c, ps[0].body).1 else c, ps[1..])
  }

  lemma {:induction false} ShownIsWatched(session: uint32, c: Client, w: Window, ds: seq<Draw>)
    requires Sized(c) && GoodWindow(w) && ValidDraws(w, ds)
    ensures Shown(c, Sent(session, w, ds)) == Watch(c, w, ds)
    decreases |ds|
  {
    if ds != [] {
      ShownIsWatched(session, ApplyBody(c, FrameBody(w, ds[0])).1, Drawn(w, ds[0]), ds[1..]);
      assert Sent(session, w, ds)[1..] == Sent(session, Drawn(w, ds[0]), ds[1..]);
    }
  }

  /** The client shows what the window showed after the first `k` frames. */
  ghost predicate ShowsFrame(c: Client, w: Window, ds: seq<Draw>, k: nat, ps: seq<Packet>)
    requires Sized(c)
  {
    k <= |ds| && Shown(c, ps).px == if k == 0 then c.px else After(w, ds[..k]).px
  }

  lemma FramesShown(session: uint32, c: Client, w: Window, ds: seq<Draw>, k: nat)
    requires GoodWindow(w) && InStep(c, w) && ValidDraws(w, ds) && |ds| <= Room(c, w) && k <= |ds|
    requires ds != [] ==> c.px == w.px || Covers(ds[0].rc, w)
    requires k <= |Sent(session, w, ds)|
    ensures ShowsFrame(c, w, ds, k, Sent(session, w, ds)[..k])
  {
    var first := ds[..k];
    SentPrefix(session, w, ds, k);
    assert Sent(session, w, ds)[..k] == Sent(session, w, first);
    ShownIsWatched(session, c, w, first);
    if k > 0 {
      FramesMirrored(c, w, first);
    }
  }

  lemma FramesMirrored(c: Client, w: Window, ds: seq<Draw>)
    requires GoodWindow(w) && InStep(c, w) && ValidDraws(w, ds) && |ds| <= Room(c, w) && ds != []
    requires c.px == w.px || Covers(ds[0].rc, w)
    ensures Watch(c, w, ds).px == After(w, ds).px
  {
    MirrorsExactly(c, w, ds);
  }

  /** Whatever part of the AppHost's byte stream has arrived, in whatever pieces, the client shows
      exactly what the window showed after some number of frames, and never a torn one; the last of
      them once everything has arrived. */
  lemma ScreenIsAWholeFrame(session: uint32, c: Client, w: Window, ds: seq<Draw>, chunks: seq<seq<byte>>)
    returns (k: nat)
    requires GoodWindow(w) && InStep(c, w) && ValidDraws(w, ds) && FramesFit(w, ds) && |ds| <= Room(c, w)
    requires c.px == w.px || (ds != [] && Covers(ds[0].rc, w))
    requires Flatten(chunks) <= WireOf(Sent(session, w, ds))
    ensures ShowsFrame(c, w, ds, k, FeedAll([], chunks).packets)
    ensures FeedAll([], chunks).verdict == NeedMore
    ensures Flatten(chunks) == WireOf(Sent(session, w, ds)) ==> k == |ds|
  {
    SentIsGood(session, w, ds);
    k := ArrivedPackets(Sent(session, w, ds), chunks);
    FramesShown(session, c, w, ds, k);
  }

  /** An oversized frame ends the picture: once its header has arrived the client shows the frame before
      it for ever, whatever else is sent. */
  lemma OversizedFrameFreezes(session: uint32, c: Client, w: Window, ds: seq<Draw>, d: Draw, chunks: seq<seq<byte>>,
                              more: seq<byte>)
    requires GoodWindow(w) && InStep(c, w) && ValidDraws(w, ds) && FramesFit(w, ds) && |ds| <= Room(c, w)
    requires ds != [] ==> c.px == w.px || Covers(ds[0].rc, w)
    requires GoodWindow(After(w, ds)) && PaintsInside(After(w, ds), d)
    requires MAX_BODY_LENGTH < |FrameBody(After(w, ds), d)| < 0x1_0000_0000
    requires Flatten(chunks) ==
          WireOf(Sent(session, w, ds)) + (HeaderBytes(PixelPacket(session, FrameBody(After(w, ds), d)).header) + more)
    ensures FeedAll([], chunks).packets == Sent(session, w, ds) && FeedAll([], chunks).verdict == Malformed
    ensures ShowsFrame(c, w, ds, |ds|, FeedAll([], chunks).packets)
  {
    var ps, body := Sent(session, w, ds), FrameBody(After(w, ds), d);
    var tail := HeaderBytes(PixelPacket(session, body).header) + more;
    SentIsGood(session, w, ds);
    OversizedRejected(session, body, more);
    ParseComplete(ps, tail);
    assert ps + [] == ps;
    var none: seq<byte> := [];
    ChunkingInvisible(none, chunks);
    assert none + Flatten(chunks) == Flatten(chunks);
    AllShown(session, c, w, ds);
  }

  lemma AllShown(session: uint32, c: Client, w: Window, ds: seq<Draw>)
    requires GoodWindow(w) && InStep(c, w) && ValidDraws(w, ds) && FramesFit(w, ds) && |ds| <= Room(c, w)
    requires ds != [] ==> c.px == w.px || Covers(ds[0].rc, w)
    ensures ShowsFrame(c, w, ds, |ds|, Sent(session, w, ds))
  {
    SentIsGood(session, w, ds);
    if ds != [] {
      FramesShown(session, c, w, ds, |ds|);
      assert Sent(session, w, ds)[..|ds|] == Sent(session, w, ds);
    }
  }

  /// Through the gateway
  /// -------------------

  /** The client's picture depends only on the one sender's pixels. */
  lemma {:induction false} ShownIsTheirs(cl: Client, es: seq<E.Entry>, c: E.LinkId, s: SessionId)
    requires Sized(cl) && P.OnlyFrom(es, 0, PIXEL_DATA, c, s)
    ensures Shown(cl, E.Packets(es)) == Shown(cl, E.Came(es, PIXEL_DATA, c, s))
    decreases |es|
  {
    if es != [] {
      var next := if es[0].p.header.cmdType == PIXEL_DATA then ApplyBody(cl, es[0].p.body).1 else cl;
      P.OnlyFromNarrow(es, 1, |es|, PIXEL_DATA, c, s);
      assert es[1..|es|] == es[1..];
      ShownIsTheirs(next, es[1..], c, s);
      ShownFirst(cl, es[0].p, E.Packets(es[1..]));
      ShownFirst(cl, es[0].p, E.Came(es[1..], PIXEL_DATA, c, s));
      assert [] + E.Came(es[1..], PIXEL_DATA, c, s) == E.Came(es[1..], PIXEL_DATA, c, s);
    }
  }

  lemma ShownFirst(cl: Client, p: Packet, ps: seq<Packet>)
    requires Sized(cl)
    ensures Shown(cl, [p] + ps) == Shown(if p.header.cmdType == PIXEL_DATA then ApplyBody(cl, p.body).1 else cl, ps)
  {
    assert ([p] + ps)[1..] == ps;
  }

  /** The PIXEL_DATA packets with the session's id that the AppHost has sent after its first `m` packets are the
      first frames of the run; what else it sends is free. */
  ghost predicate SendsFrames(r: E.Relay, m: nat, c: E.LinkId, s: SessionId, w: Window, ds: seq<Draw>)
    requires GoodWindow(w) && ValidDraws(w, ds)
  {
    && c in r.links && m <= |Parse(r.links[c].received).packets|
    && E.Of(Parse(r.links[c].received).packets[m..], PIXEL_DATA, s) <= Sent(s, w, ds)
  }

  /** Of the packets received since entry `n`, the client makes exactly frame `j` of the window. */
  ghost predicate ClientShows(r: E.Relay, n: nat, k: nat, a: Slot, cl: Client, w: Window, ds: seq<Draw>, j: nat)
    requires Sized(cl)
  {
    n <= k <= |E.Entries(r, a)| && ShowsFrame(cl, w, ds, j, E.Packets(E.Entries(r, a)[n..k]))
  }

  /** Pixels all the way: an AppHost's frames, handled by the gateway as they arrive, interleaved with
      everything else, chunked, drained and parsed again, show the client exactly some frame of the
      window, and the last one sent once everything has been delivered. */
  lemma {:induction false} PixelsThroughGateway(r: E.Relay, es: seq<E.RelayEvent>, r': E.Relay, s: SessionId,
                                                h: Handle, a: Slot, c: E.LinkId,
                             chunks: seq<seq<byte>>, cl: Client, w: Window, ds: seq<Draw>)
    returns (k: nat, j: nat)
    requires r.opener == APPHOST_READY && E.RInv(r) && E.Traces(r, es, r') && E.RouteKept(r, es, s, h, a)
          && c in r.links
    requires a in r'.net.slots && Flatten(chunks) <= r'.net.slots[a].handed
    requires P.OnlyFrom(E.Entries(r', a), |E.Entries(r, a)|, PIXEL_DATA, c, s)
    requires GoodWindow(w) && InStep(cl, w) && ValidDraws(w, ds) && |ds| <= Room(cl, w)
    requires ds != [] ==> cl.px == w.px || Covers(ds[0].rc, w)
    requires SendsFrames(r', |r.links[c].handled|, c, s, w, ds)
    ensures PixelsArrive(r', |E.Entries(r, a)|, |r.links[c].handled|, s, a, c, chunks, cl, w, ds, k, j)
  {
    E.TraceGrows(r, es, s, h, a, c);
    k := E.EndToEndTransparent(r, es, s, h, a, c, chunks);
    j := DeliveredArrive(r', |E.Entries(r, a)|, |r.links[c].handled|, s, a, c, chunks, k, cl, w, ds);
  }

  lemma DeliveredArrive(r: E.Relay, n: nat, m: nat, s: SessionId, a: Slot, c: E.LinkId, chunks: seq<seq<byte>>, k: nat,
                        cl: Client, w: Window, ds: seq<Draw>)
    returns (j: nat)
    requires E.CommandDelivered(r, n, m, s, a, c, chunks, k, PIXEL_DATA)
    requires P.OnlyFrom(E.Entries(r, a), n, PIXEL_DATA, c, s)
    requires GoodWindow(w) && InStep(cl, w) && ValidDraws(w, ds) && |ds| <= Room(cl, w)
    requires ds != [] ==> cl.px == w.px || Covers(ds[0].rc, w)
    requires SendsFrames(r, m, c, s, w, ds)
    ensures PixelsArrive(r, n, m, s, a, c, chunks, cl, w, ds, k, j)
  {
    j := 0;
    if n <= k {
      j := DeliveredIsShown(r, n, m, s, a, c, chunks, k, cl, w, ds);
    }
  }

  /** `k` entries have come out at the client, which shows frame `j`: the last one sent, once all is delivered. */
  ghost predicate PixelsArrive(r: E.Relay, n: nat, m: nat, s: SessionId, a: Slot, c: E.LinkId, chunks: seq<seq<byte>>,
                               cl: Client, w: Window, ds: seq<Draw>, k: nat, j: nat)
    requires Sized(cl)
  {
    && E.CommandDelivered(r, n, m, s, a, c, chunks, k, PIXEL_DATA)
    && (n <= k ==> ClientShows(r, n, k, a, cl, w, ds, j))
    && (AllDelivered(r, a, c, chunks) && n <= k ==>
        j == |E.Of(Parse(r.links[c].received).packets[m..], PIXEL_DATA, s)|)
  }

  ghost predicate AllDelivered(r: E.Relay, a: Slot, c: E.LinkId, chunks: seq<seq<byte>>) {
    && c in r.links && a in r.net.slots
    && Flatten(chunks) == r.net.slots[a].handed && r.net.slots[a].queue == [] && r.links[c].todo == []
  }

  lemma DeliveredIsShown(r: E.Relay, n: nat, m: nat, s: SessionId, a: Slot, c: E.LinkId, chunks: seq<seq<byte>>, k: nat,
                         cl: Client, w: Window, ds: seq<Draw>)
    returns (j: nat)
    requires E.CommandDelivered(r, n, m, s, a, c, chunks, k, PIXEL_DATA) && n <= k
    requires P.OnlyFrom(E.Entries(r, a), n, PIXEL_DATA, c, s)
    requires GoodWindow(w) && InStep(cl, w) && ValidDraws(w, ds) && |ds| <= Room(cl, w)
    requires ds != [] ==> cl.px == w.px || Covers(ds[0].rc, w)
    requires SendsFrames(r, m, c, s, w, ds)
    ensures ClientShows(r, n, k, a, cl, w, ds, j)
    ensures AllDelivered(r, a, c, chunks) ==> j == |E.Of(Parse(r.links[c].received).packets[m..], PIXEL_DATA, s)|
  {
    var new', seen := E.Entries(r, a)[n..k], E.CameSince(E.Entries(r, a), n, k, PIXEL_DATA, c, s);
    P.OnlyFromNarrow(E.Entries(r, a), n, k, PIXEL_DATA, c, s);
    ShownIsTheirs(cl, new', c, s);
    j := |seen|;
    SentLength(s, w, ds);
    assert seen == Sent(s, w, ds)[..j];
    FramesShown(s, cl, w, ds, j);
  }

  lemma SentLength(session: uint32, w: Window, ds: seq<Draw>)
    requires GoodWindow(w) && ValidDraws(w, ds)
    ensures |Sent(session, w, ds)| == |ds|
  {
    SentPrefix(session, w, ds, |ds|);
    assert ds[..|ds|] == ds;
  }

  /// With nothing assumed about routes
  /// ---------------------------------

  /** Pixels all the way through the whole gateway: from any reachable state in which the session's client is
      connected, until the session ends or the client leaves, the client shows exactly some frame of the
      AppHost's window, and the last one sent once everything has been delivered, provided no other AppHost
      connection stamps pixels with the session. */
  lemma {:induction false} PixelsReachTheirClient(w0: P.Whole, ms: seq<P.Move>, w1: P.Whole, s: SessionId, h: Handle,
                                                  a: Slot,
                                                  c: E.LinkId, chunks: seq<seq<byte>>, cl: Client, w: Window,
                                                      ds: seq<Draw>)
    returns (k: nat, j: nat)
    requires P.Carries(P.ToClients, w0, ms, w1, s, h, a, PIXEL_DATA, c)
    requires a in w1.r.net.slots && Flatten(chunks) <= w1.r.net.slots[a].handed
    requires GoodWindow(w) && InStep(cl, w) && ValidDraws(w, ds) && |ds| <= Room(cl, w)
    requires ds != [] ==> cl.px == w.px || Covers(ds[0].rc, w)
    requires SendsFrames(w1.r, |w0.r.links[c].handled|, c, s, w, ds)
    ensures PixelsArrive(w1.r, |E.Entries(w0.r, a)|, |w0.r.links[c].handled|, s, a, c, chunks, cl, w, ds, k, j)
  {
    var es := P.RelayPart(P.ToClients, w0, ms, w1, s, h, a, PIXEL_DATA, c);
    k, j := PixelsThroughGateway(w0.r, es, w1.r, s, h, a, c, chunks, cl, w, ds);
  }
}
