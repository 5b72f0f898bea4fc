/** The incremental parser over a compacting buffer, the handler table that drains it,
    and the reader loop that feeds it. The one-shot `Parse` is the reference. */
module MessageParsing {
  import opened Protocol

  function Flatten(chunks: seq<seq<byte>>): seq<byte> {
    if chunks == [] then [] else chunks[0] + Flatten(chunks[1..])
  }

  lemma {:induction false} FlattenAppend(chunks: seq<seq<byte>>, more: seq<seq<byte>>)
    ensures Flatten(chunks + more) == Flatten(chunks) + Flatten(more)
  {
    if chunks == [] {
      assert chunks + more == more;
    } else {
      FlattenAppend(chunks[1..], more);
      assert (chunks + more)[1..] == chunks[1..] + more;
      Assoc(chunks[0], Flatten(chunks[1..]), Flatten(more));
    }
  }

  /** Feeding chunk by chunk and draining after each: only the undecided rest is carried over,
      and nothing is looked at after a bad header. */
  function FeedAll(carried: seq<byte>, chunks: seq<seq<byte>>): Parsed
    decreases |chunks|
  {
    if chunks == [] then Parsed([], NeedMore, carried)
    else
      var step := Parse(carried + chunks[0]);
      if step.verdict == Malformed then step
      else
        var later := FeedAll(step.rest, chunks[1..]);
        Parsed(step.packets + later.packets, later.verdict, later.rest)
  }

  /** How the stream is cut into chunks is invisible: same packets and verdict as one parse of the
      concatenation, and the same rest while the stream is good. */
  lemma {:induction false} ChunkingInvisible(carried: seq<byte>, chunks: seq<seq<byte>>)
    requires Parse(carried) == Parsed([], NeedMore, carried)
    ensures var whole := Parse(carried + Flatten(chunks));
      && FeedAll(carried, chunks).packets == whole.packets
      && FeedAll(carried, chunks).verdict == whole.verdict
      && (whole.verdict == NeedMore ==> FeedAll(carried, chunks).rest == whole.rest)
    decreases |chunks|
  {
    if chunks == [] {
      assert carried + Flatten(chunks) == carried;
    } else {
      var first := carried + chunks[0];
      Assoc(carried, chunks[0], Flatten(chunks[1..]));
      ParseAppend(first, Flatten(chunks[1..]));
      ParseSound(first);
      if Parse(first).verdict == NeedMore {
        ChunkingInvisible(Parse(first).rest, chunks[1..]);
      }
    }
  }

  /** Whatever part of a stream of good packets has arrived, in whatever pieces: the first `k` packets
      come out, whole, and the parser waits for more; all of them once everything has arrived. */
  lemma ArrivedPackets(ps: seq<Packet>, chunks: seq<seq<byte>>) returns (k: nat)
    requires GoodPackets(ps) && Flatten(chunks) <= WireOf(ps)
    ensures k <= |ps| && FeedAll([], chunks).packets == ps[..k] && FeedAll([], chunks).verdict == NeedMore
    ensures Flatten(chunks) == WireOf(ps) ==> k == |ps|
  {
    var none: seq<byte> := [];
    ChunkingInvisible(none, chunks);
    assert none + Flatten(chunks) == Flatten(chunks);
    ParsePrefix(ps, Flatten(chunks));
    k := |FeedAll(none, chunks).packets|;
    if Flatten(chunks) == WireOf(ps) {
      ParseComplete(ps, none);
      assert WireOf(ps) + none == WireOf(ps) && ps + Parse(none).packets == ps;
    }
  }

  datatype State = WaitHeader | WaitBody | Poisoned

  datatype ParseResult = Ok(packet: Packet) | Incomplete | Error

  class MessageParser {
    var buf: seq<byte>
    var readPos: nat
    var state: State
    var pending: Header
    // Accounting: bytes accepted by Feed, bytes read past, bytes moved by Compact.
    ghost var fed: nat
    ghost var consumed: nat
    ghost var moved: nat

    ghost predicate Valid()
      reads this
    {
      && readPos <= |buf|
      && (state == WaitBody ==> GoodHeader(pending))
      && consumed + (|buf| - readPos) <= fed
      && moved + readPos <= consumed
    }

    /** The part of the stream not yet emitted; in WaitBody the header has left the buffer. */
    ghost function Backlog(): seq<byte>
      requires Valid()
      reads this
    {
      if state == WaitBody then HeaderBytes(pending) + buf[readPos..] else buf[readPos..]
    }

    ghost predicate Stalled()
      requires Valid()
      reads this
    {
      state != Poisoned && Parse(Backlog()) == Parsed([], NeedMore, Backlog())
    }

    /** The state of a drained parser whose stream so far parses as `whole`. */
    ghost predicate After(whole: Parsed)
      requires Valid()
      reads this
    {
      && (state == Poisoned <==> whole.verdict == Malformed)
      && (whole.verdict == NeedMore ==> Stalled() && Backlog() == whole.rest)
    }

    constructor ()
      ensures Valid() && state == WaitHeader && Backlog() == [] && Stalled()
      ensures fed == consumed == moved == 0
    {
      buf, readPos, state := [], 0, WaitHeader;
      pending := Header(0, 0, 0, 0, 0);
      fed, consumed, moved := 0, 0, 0;
    }

    function Readable(): nat
      requires Valid()
      reads this
    {
      |buf| - readPos
    }

    /** Drops the bytes already read. Its cost, the bytes moved down, is paid for by bytes read. */
    method Compact()
      requires Valid() && readPos > |buf| / 2
      modifies this
      ensures Valid() && readPos == 0 && state == old(state) && pending == old(pending)
      ensures buf == old(buf[readPos..]) && Backlog() == old(Backlog())
      ensures fed == old(fed) && consumed == old(consumed) && moved == old(moved) + |buf|
    {
      moved := moved + |buf| - readPos;
      buf := buf[readPos..];
      readPos := 0;
    }

    /** Appends to the stream, whether or not compaction fires. A poisoned parser ignores input. */
    method Feed(data: seq<byte>)
      requires Valid()
      modifies this
      ensures Valid() && state == old(state) && pending == old(pending) && consumed == old(consumed)
      ensures state == Poisoned ==> buf == old(buf) && readPos == old(readPos) && fed == old(fed)
      ensures state != Poisoned ==> Backlog() == old(Backlog()) + data && fed == old(fed) + |data|
      ensures state != Poisoned ==> |buf| <= 2 * old(Readable()) + |data|
      ensures Readable() <= old(Readable()) + |data|
      ensures moved <= fed
    {
      if state == Poisoned {
        return;
      }
      if readPos > |buf| / 2 && readPos > 0 {
        Compact();
      }
      buf := buf + data;
      fed := fed + |data|;
      assert buf[readPos..] == old(buf[readPos..]) + data;
      Assoc(HeaderBytes(pending), old(buf[readPos..]), data);
    }

    /** Reads the 13 header bytes; a bad header poisons the parser, exactly when `Parse` rejects at once. */
    method TakeHeader()
      requires Valid() && state == WaitHeader && Readable() >= HEADER_SIZE
      modifies this
      ensures Valid() && fed == old(fed) && moved == old(moved) && state != WaitHeader
      ensures state == WaitBody ==> Backlog() == old(Backlog())
      ensures state == Poisoned ==> Parse(old(Backlog())) == Parsed([], Malformed, old(Backlog()))
    {
      ghost var backlog := Backlog();
      pending := DeserializeHeader(buf[readPos..]);
      HeaderInFront(backlog);
      SliceSplit(buf, readPos, HEADER_SIZE);
      readPos, consumed := readPos + HEADER_SIZE, consumed + HEADER_SIZE;
      if pending.magic != PROTOCOL_MAGIC || pending.bodyLength > MAX_BODY_LENGTH {
        state := Poisoned;
        RejectNow(backlog);
      } else {
        state := WaitBody;
      }
    }

    method TakeBody() returns (p: Packet)
      requires Valid() && state == WaitBody && Readable() >= pending.bodyLength
      modifies this
      ensures Valid() && fed == old(fed) && moved == old(moved) && state == WaitHeader
      ensures GoodPacket(p) && old(Backlog()) == PacketBytes(p) + Backlog()
    {
      var n := pending.bodyLength;
      var body := buf[readPos..readPos + n];
      p := Packet(pending, body);
      SliceSplit(buf, readPos, n);
      Assoc(HeaderBytes(pending), body, buf[readPos + n..]);
      readPos, consumed := readPos + n, consumed + n;
      state := WaitHeader;
    }

    /** What the first bytes of the stream decide. */
    lemma NextIsDecided()
      requires Valid()
      ensures var s := Backlog();
        (BadStart(s) <==> Parse(s) == Parsed([], Malformed, s)) && (WholeFrame(s) <==> Parse(s).packets != [])
    {
      var s := Backlog();
      ParseStart(s);
      if |s| >= 13 && s[0] == 0xBE && s[1] == 0xEF && LengthAt(s) <= 64 * 1024 * 1024 {
        ParseFirst(s);
      }
    }

    /** Ok: the packet's bytes leave the front of the stream. Incomplete: nothing is lost and the
        one-shot parse would also wait. Error: exactly when the one-shot parse rejects at once. */
    method NextPacket() returns (r: ParseResult)
      requires Valid()
      modifies this
      ensures Valid() && fed == old(fed) && moved == old(moved)
      ensures old(state) == Poisoned ==> r == Error && state == Poisoned && buf == old(buf) && readPos == old(readPos)
      ensures r == Error <==> state == Poisoned
      ensures r.Ok? ==>
                state == WaitHeader && GoodPacket(r.packet) && old(Backlog()) == PacketBytes(r.packet) + Backlog()
      ensures r == Incomplete ==> Stalled() && Backlog() == old(Backlog()) && Readable() < MAX_BODY_LENGTH
      ensures r == Error && old(state) != Poisoned ==> Parse(old(Backlog())) == Parsed([], Malformed, old(Backlog()))
      ensures old(state) != Poisoned ==>
                (r == Error <==> BadStart(old(Backlog()))) && (r.Ok? <==> WholeFrame(old(Backlog())))
      ensures r.Ok? ==> r.packet.header.magic == 0xBEEF && |r.packet.body| <= 64 * 1024 * 1024
    {
      ghost var whole := Parse(Backlog());
      NextIsDecided();
      if state == Poisoned {
        return Error;
      }
      if state == WaitHeader {
        if Readable() < HEADER_SIZE {
          return Incomplete;
        }
        TakeHeader();
        if state == Poisoned {
          return Error;
        }
      }
      if Readable() < pending.bodyLength {
        WaitNow(pending, buf[readPos..]);
        return Incomplete;
      }
      var p := TakeBody();
      ParseOne(p, Backlog());
      assert whole.packets == [p] + Parse(Backlog()).packets;
      return Ok(p);
    }

    method Reset()
      requires Valid()
      modifies this
      ensures Valid() && state == WaitHeader && buf == [] && Backlog() == [] && Stalled()
      ensures fed == old(fed) && moved == old(moved)
    {
      buf, readPos, state := [], 0, WaitHeader;
      pending := Header(0, 0, 0, 0, 0);
    }
  }

  /// Handlers
  /// --------

  type HandlerId = nat

  /** The calls a drained run of packets makes: unregistered commands are dropped. */
  function Calls(handlers: map<byte, HandlerId>, ps: seq<Packet>): seq<(HandlerId, Packet)> {
    if ps == [] then []
    else
      (if ps[0].header.cmdType in handlers then [(handlers[ps[0].header.cmdType], ps[0])] else [])
      + Calls(handlers, ps[1..])
  }

  lemma {:induction false} CallsAppend(handlers: map<byte, HandlerId>, ps: seq<Packet>, qs: seq<Packet>)
    ensures Calls(handlers, ps + qs) == Calls(handlers, ps) + Calls(handlers, qs)
  {
    if ps == [] {
      assert ps + qs == qs;
    } else {
      CallsAppend(handlers, ps[1..], qs);
      assert (ps + qs)[1..] == ps[1..] + qs;
    }
  }

  /** One emitted packet moves from the undrained part of the stream to the done part. */
  lemma DrainStep(handlers: map<byte, HandlerId>, stream: seq<byte>, done: seq<Packet>, p: Packet, left: seq<byte>)
    requires GoodPacket(p) && Parse(stream) == Prepend(done, Parse(PacketBytes(p) + left))
    ensures Parse(stream) == Prepend(done + [p], Parse(left))
    ensures forall earlier ::
              earlier + Calls(handlers, done + [p]) == earlier + Calls(handlers, done) + Calls(handlers, [p])
  {
    ParseOne(p, left);
    PrependPrepend(done, [p], Parse(left));
    CallsAppend(handlers, done, [p]);
  }

  lemma DrainEnd(stream: seq<byte>, done: seq<Packet>, left: seq<byte>)
    requires Parse(stream) == Prepend(done, Parse(left)) && Parse(left).packets == []
    ensures Parse(stream) == Parsed(done, Parse(left).verdict, Parse(left).rest)
  {
  }

  class MessageHandler {
    var parser: MessageParser
    var handlers: map<byte, HandlerId>
    var calls: seq<(HandlerId, Packet)>  // the handler invocations, in order

    ghost predicate Valid()
      reads this, parser
    {
      parser.Valid()
    }

    constructor ()
      ensures Valid() && fresh(parser) && parser.Stalled() && parser.Backlog() == [] && handlers == map[] && calls == []
    {
      parser := new MessageParser();
      handlers, calls := map[], [];
    }

    method RegisterHandler(cmd: byte, fn: HandlerId)
      modifies this
      ensures handlers == old(handlers)[cmd := fn] && parser == old(parser) && calls == old(calls)
    {
      handlers := handlers[cmd := fn];
    }

    /** Calls the handler registered for the packet's command, if any. */
    method Dispatch(p: Packet)
      modifies this`calls
      ensures calls == old(calls) + Calls(handlers, [p])
    {
      var cmd := p.header.cmdType;
      if cmd in handlers {
        calls := calls + [(handlers[cmd], p)];
      }
    }

    /** In the loop: `done` has been called, `left` is the stream from the packet in hand on. */
    ghost predicate Calling(r: ParseResult, base: seq<(HandlerId, Packet)>, whole: Parsed, done: seq<Packet>,
                            left: seq<byte>)
      requires Valid()
      reads this, parser
    {
      && (r == Error <==> parser.state == Poisoned)
      && calls == base + Calls(handlers, done) && whole == Prepend(done, Parse(left))
      && (r.Ok? ==> GoodPacket(r.packet) && left == PacketBytes(r.packet) + parser.Backlog())
      && (r == Incomplete ==> parser.Stalled() && left == parser.Backlog())
      && (r == Error ==> Parse(left) == Parsed([], Malformed, left))
    }

    /** Calls the packet's handler and asks for the next one. */
    method DispatchNext(p: Packet, ghost base: seq<(HandlerId, Packet)>, ghost stream: seq<byte>,
                        ghost done: seq<Packet>)
      returns (r: ParseResult)
      requires Valid() && parser.state != Poisoned && GoodPacket(p) && calls == base + Calls(handlers, done)
      requires Parse(stream) == Prepend(done, Parse(PacketBytes(p) + parser.Backlog()))
      modifies this`calls, parser
      ensures Valid() && Calling(r, base, Parse(stream), done + [p], old(parser.Backlog()))
    {
      DrainStep(handlers, stream, done, p, parser.Backlog());
      Dispatch(p);
      r := parser.NextPacket();
    }

    /** Feed, then drain. The loop ends because each packet shortens the backlog. */
    method Feed(data: seq<byte>)
      requires Valid()
      modifies this, parser
      ensures Valid() && parser == old(parser) && handlers == old(handlers)
      ensures old(parser.state) == Poisoned ==> calls == old(calls) && parser.state == Poisoned
      ensures old(parser.state) != Poisoned ==>
                var whole := Parse(old(parser.Backlog()) + data);
                calls == old(calls) + Calls(handlers, whole.packets) && parser.After(whole)
    {
      ghost var stream := parser.Backlog() + data;
      parser.Feed(data);
      Drain(stream);
    }

    method Drain(ghost stream: seq<byte>)
      requires Valid() && (parser.state != Poisoned ==> parser.Backlog() == stream)
      modifies this`calls, parser
      ensures Valid()
      ensures old(parser.state) == Poisoned ==> calls == old(calls) && parser.state == Poisoned
      ensures old(parser.state) != Poisoned ==>
                calls == old(calls) + Calls(handlers, Parse(stream).packets) && parser.After(Parse(stream))
    {
      ghost var poisoned := parser.state == Poisoned;
      ghost var base, done: seq<Packet>, left := calls, [], stream;
      var r := parser.NextPacket();
      assert base + Calls(handlers, []) == base && [] + Parse(left).packets == Parse(left).packets;
      while r.Ok?
        invariant Valid() && (poisoned ==> r == Error && parser.state == Poisoned && calls == base)
        invariant !poisoned ==> Calling(r, base, Parse(stream), done, left)
        decreases |left|, r.Ok?
      {
        ghost var next := parser.Backlog();
        ghost var p := r.packet;
        r := DispatchNext(r.packet, base, stream, done);
        done, left := done + [p], next;
      }
      if !poisoned {
        DrainEnd(stream, done, left);
      }
    }

    method Reset()
      requires Valid()
      modifies this
      ensures Valid() && fresh(parser) && parser.Stalled() && parser.Backlog() == []
      ensures handlers == old(handlers) && calls == old(calls)
    {
      parser := new MessageParser();
    }
  }

  /** The receives before the first empty one, which is how a closed connection shows. */
  function BeforeClose(received: seq<seq<byte>>): seq<seq<byte>> {
    if received == [] || received[0] == [] then [] else [received[0]] + BeforeClose(received[1..])
  }

  /** The receives before the reader stops: the first `limit`, after which it sees the shutdown flag,
      cut off at the first empty one. */
  function Heard(received: seq<seq<byte>>, limit: nat): seq<seq<byte>> {
    BeforeClose(received[..if limit < |received| then limit else |received|])
  }

  lemma {:induction false} BeforeCloseExact(received: seq<seq<byte>>)
    ensures var n := |BeforeClose(received)|;
      && n <= |received| && BeforeClose(received) == received[..n]
      && (forall i :: 0 <= i < n ==> received[i] != []) && (n < |received| ==> received[n] == [])
  {
    if received != [] && received[0] != [] {
      BeforeCloseExact(received[1..]);
      assert received == [received[0]] + received[1..];
    }
  }

  /** As long as the first receives are not empty and the reader is not told to shut down, it hears them all. */
  lemma {:induction false} HeardExact(received: seq<seq<byte>>, limit: nat)
    ensures var n := |Heard(received, limit)|;
      && n <= |received| && n <= limit && Heard(received, limit) == received[..n]
      && (forall i :: 0 <= i < n ==> received[i] != [])
      && (n == |received| || n == limit || received[n] == [])
  {
    var k := if limit < |received| then limit else |received|;
    BeforeCloseExact(received[..k]);
    assert forall n :: 0 <= n <= k ==> received[..k][..n] == received[..n];
  }

  /** The AppHost's reader: feeds each receive to the handler until the connection closes, when it asks
      the UI loop to quit, or until it finds itself being shut down. However the stream arrives, the
      handler calls are those of one parse. */
  method ReaderLoop(handler: MessageHandler, received: seq<seq<byte>>, limit: nat) returns (quitRequested: bool)
    requires handler.Valid() && handler.parser.Stalled() && handler.parser.Backlog() == []
    modifies handler, handler.parser
    ensures handler.Valid()
    ensures quitRequested <==> exists i :: 0 <= i < |received| && i < limit && received[i] == []
    ensures var whole := Parse(Flatten(Heard(received, limit)));
      && handler.calls == old(handler.calls) + Calls(old(handler.handlers), whole.packets)
      && handler.parser.After(whole)
  {
    ghost var heard := received[..if limit < |received| then limit else |received|];
    quitRequested := ReadAll(handler, heard, received, limit);
    if quitRequested {
      ghost var i :| 0 <= i < |heard| && heard[i] == [];
      assert received[i] == [];
    } else {
      forall i | 0 <= i < |received| && i < limit ensures received[i] != [] {
        assert heard[i] == received[i];
      }
    }
  }

  method ReadAll(handler: MessageHandler, ghost heard: seq<seq<byte>>, received: seq<seq<byte>>, limit: nat)
    returns (closed: bool)
    requires handler.Valid() && handler.parser.Stalled() && handler.parser.Backlog() == []
    requires heard == received[..if limit < |received| then limit else |received|]
    modifies handler, handler.parser
    ensures handler.Valid()
    ensures closed <==> [] in heard
    ensures var whole := Parse(Flatten(BeforeClose(heard)));
      && handler.calls == old(handler.calls) + Calls(old(handler.handlers), whole.packets)
      && handler.parser.After(whole)
  {
    var i := 0;
    ghost var seen: seq<byte> := [];
    ghost var base, handlers := handler.calls, handler.handlers;
    assert heard[..0] == [];
    while i < limit && i < |received|
      invariant 0 <= i <= |heard| && handler.Valid() && [] !in heard[..i]
      invariant handler.parser == old(handler.parser) && handler.handlers == handlers
      invariant handler.calls == base + Calls(handlers, Parse(seen).packets) && handler.parser.After(Parse(seen))
      invariant Flatten(BeforeClose(heard)) == seen + Flatten(BeforeClose(heard[i..]))
    {
      assert received[i] == heard[i];
      if received[i] == [] {
        assert seen + Flatten(BeforeClose(heard[i..])) == seen;
        return true;
      }
      handler.Feed(received[i]);
      ReaderStep(handlers, seen, received[i]);
      assert BeforeClose(heard[i..])[1..] == BeforeClose(heard[i + 1..]);
      Assoc(seen, received[i], Flatten(BeforeClose(heard[i + 1..])));
      seen := seen + received[i];
      i := i + 1;
    }
    assert seen + Flatten(BeforeClose(heard[i..])) == seen;
    return false;
  }

  /** One more receive extends the calls by those of the newly completed packets. */
  lemma ReaderStep(handlers: map<byte, HandlerId>, seen: seq<byte>, data: seq<byte>)
    ensures Parse(seen).verdict == Malformed ==>
              Parse(seen + data).verdict == Malformed
                  && Calls(handlers, Parse(seen + data).packets) == Calls(handlers, Parse(seen).packets)
    ensures Parse(seen).verdict == NeedMore ==>
              var next := Parse(Parse(seen).rest + data);
              && (forall base :: base + Calls(handlers, Parse(seen + data).packets) ==
                                 base + Calls(handlers, Parse(seen).packets) + Calls(handlers, next.packets))
              && Parse(seen + data).verdict == next.verdict && Parse(seen + data).rest == next.rest
  {
    ParseAppend(seen, data);
    if Parse(seen).verdict == NeedMore {
      CallsAppend(handlers, Parse(seen).packets, Parse(Parse(seen).rest + data).packets);
    }
  }
}
