/** The wire format: big-endian numerals, the 13-byte header, whole frames, and the
    one-shot parse of a byte stream against which the incremental parser is judged. */
module Protocol {

  type byte = x: int | 0 <= x < 0x100
  type uint16 = x: int | 0 <= x < 0x1_0000
  type uint32 = x: int | 0 <= x < 0x1_0000_0000

  type SessionId = uint32
  type Handle = nat  // a pool handle; 0 means none

  datatype Option<T> = None | Some(value: T)

  const PROTOCOL_MAGIC: uint16 := 0xBEEF
  const HEADER_SIZE: nat := 13
  const MAX_BODY_LENGTH: nat := 64 * 1024 * 1024

  const HEARTBEAT: byte := 0x01
  const SPAWN_APP: byte := 0x02
  const SESSION_ACK: byte := 0x03
  const APPHOST_READY: byte := 0x04
  const PIXEL_DATA: byte := 0x10
  const INPUT_EVENT: byte := 0x20
  const CLOSE_SESSION: byte := 0xFE
  const ERROR_RESP: byte := 0xFF

  datatype Header = Header(magic: uint16, sessionId: uint32, cmdType: byte, bodyLength: uint32, reserved: uint16)

  datatype Packet = Packet(header: Header, body: seq<byte>)

  /// Big-endian numerals
  /// -------------------

  function Pow256(n: nat): (p: nat)
    ensures p >= 1
  {
    if n == 0 then 1 else 256 * Pow256(n - 1)
  }

  /** The number a byte string denotes, most significant byte first. */
  function BeValue(s: seq<byte>): (v: nat)
    ensures v < Pow256(|s|)
  {
    if s == [] then 0 else 256 * BeValue(s[..|s| - 1]) + s[|s| - 1]
  }

  /** The low `n` bytes of `v`, most significant byte first. */
  function BeBytes(v: nat, n: nat): (s: seq<byte>)
    ensures |s| == n
  {
    if n == 0 then [] else BeBytes(v / 256, n - 1) + [v % 256]
  }

  lemma {:induction false} BeValueOfBytes(v: nat, n: nat)
    requires v < Pow256(n)
    ensures BeValue(BeBytes(v, n)) == v
  {
    if n > 0 {
      BeValueOfBytes(v / 256, n - 1);
      assert BeBytes(v, n)[..n - 1] == BeBytes(v / 256, n - 1);
    }
  }

  lemma {:induction false} BeBytesOfValue(s: seq<byte>)
    ensures BeBytes(BeValue(s), |s|) == s
  {
    if s != [] {
      var front, last := s[..|s| - 1], s[|s| - 1];
      BeBytesOfValue(front);
      LowByte(BeValue(front), last);
      assert s == front + [last];
    }
  }

  lemma LowByte(high: nat, low: byte)
    ensures (256 * high + low) / 256 == high && (256 * high + low) % 256 == low
  {
  }

  function U16(hi: int, lo: int): int {
    0x100 * hi + lo
  }

  function U32(b3: int, b2: int, b1: int, b0: int): int {
    0x100_0000 * b3 + 0x1_0000 * b2 + 0x100 * b1 + b0
  }

  /** The shift-and-mask form of a 16-bit numeral. */
  lemma Be16(v: uint16)
    ensures BeBytes(v, 2) == [v / 0x100 % 0x100, v % 0x100]
  {
    assert BeBytes(v, 2) == BeBytes(v / 256, 1) + [v % 256];
    assert BeBytes(v / 256, 1) == BeBytes(v / 256 / 256, 0) + [v / 256 % 256];
  }

  /** The shift-and-mask form of a 32-bit numeral. */
  lemma Be32(v: uint32)
    ensures BeBytes(v, 4) == [v / 0x100_0000 % 0x100, v / 0x1_0000 % 0x100, v / 0x100 % 0x100, v % 0x100]
  {
    assert BeBytes(v, 4) == BeBytes(v / 256, 3) + [v % 256];
    assert BeBytes(v / 256, 3) == BeBytes(v / 256 / 256, 2) + [v / 256 % 256];
    assert v / 256 / 256 == v / 0x1_0000 && v / 0x1_0000 / 256 == v / 0x100_0000;
    Be16(v / 0x1_0000);
  }

  lemma BeValue16(s: seq<byte>)
    requires |s| == 2
    ensures BeValue(s) == U16(s[0], s[1])
  {
    assert BeValue(s[..1]) == 256 * BeValue(s[..1][..0]) + s[0];
  }

  lemma BeValue32(s: seq<byte>)
    requires |s| == 4
    ensures BeValue(s) == U32(s[0], s[1], s[2], s[3])
  {
    assert s[..3][..2] == s[..2];
    BeValue16(s[..2]);
    assert BeValue(s[..3]) == 256 * BeValue(s[..2]) + s[2];
  }

  /// Headers and frames
  /// ------------------

  /// Records: big-endian fields of given widths, one after the other

  function Size(widths: seq<nat>): nat {
    if widths == [] then 0 else widths[0] + Size(widths[1..])
  }

  function FieldBytes(values: seq<nat>, widths: seq<nat>): (s: seq<byte>)
    requires |values| == |widths|
    ensures |s| == Size(widths)
  {
    if values == [] then [] else BeBytes(values[0], widths[0]) + FieldBytes(values[1..], widths[1..])
  }

  function FieldValues(s: seq<byte>, widths: seq<nat>): (values: seq<nat>)
    requires |s| >= Size(widths)
    ensures |values| == |widths|
    ensures forall i :: 0 <= i < |values| ==> values[i] < Pow256(widths[i])
  {
    if widths == [] then [] else [BeValue(s[..widths[0]])] + FieldValues(s[widths[0]..], widths[1..])
  }

  /** Each value is the numeral in its own place. */
  lemma {:induction false} FieldValueAt(s: seq<byte>, widths: seq<nat>, i: nat, start: nat)
    requires |s| >= Size(widths) && i < |widths| && start == Size(widths[..i])
    ensures start + widths[i] <= |s| && FieldValues(s, widths)[i] == BeValue(s[start..start + widths[i]])
  {
    if i == 0 {
      assert widths[..0] == [];
    } else {
      assert widths[..i][1..] == widths[1..][..i - 1] && widths[..i][0] == widths[0];
      FieldValueAt(s[widths[0]..], widths[1..], i - 1, start - widths[0]);
      assert s[widths[0]..][start - widths[0]..start - widths[0] + widths[i]] == s[start..start + widths[i]];
    }
  }

  lemma {:induction false} FieldValuesOfBytes(values: seq<nat>, widths: seq<nat>, more: seq<byte>)
    requires |values| == |widths|
    requires forall i :: 0 <= i < |values| ==> values[i] < Pow256(widths[i])
    ensures FieldValues(FieldBytes(values, widths) + more, widths) == values
  {
    if values != [] {
      var first, later := BeBytes(values[0], widths[0]), FieldBytes(values[1..], widths[1..]) + more;
      BeValueOfBytes(values[0], widths[0]);
      FieldValuesOfBytes(values[1..], widths[1..], more);
      Assoc(first, FieldBytes(values[1..], widths[1..]), more);
      TakeDrop(first, later);
    }
  }

  lemma {:induction false} FieldBytesOfValues(s: seq<byte>, widths: seq<nat>)
    requires |s| >= Size(widths)
    ensures FieldBytes(FieldValues(s, widths), widths) == s[..Size(widths)]
  {
    if widths != [] {
      var w := widths[0];
      BeBytesOfValue(s[..w]);
      FieldBytesOfValues(s[w..], widths[1..]);
      assert s[..Size(widths)] == s[..w] + s[w..][..Size(widths[1..])];
    }
  }

  /** Magic, session id, command, body length, reserved. */
  const HEADER_WIDTHS: seq<nat> := [2, 4, 1, 4, 2]

  lemma HeaderSize()
    ensures Size(HEADER_WIDTHS) == HEADER_SIZE
  {
    var w := HEADER_WIDTHS;
    assert w[1..][1..] == w[2..] && w[2..][1..] == w[3..] && w[3..][1..] == w[4..] && |w[4..]| == 1;
    assert Size(w[4..]) == 2 && Size(w[3..]) == 6 && Size(w[2..]) == 7 && Size(w[1..]) == 11;
  }

  function HeaderBytes(h: Header): (s: seq<byte>)
    ensures |s| == HEADER_SIZE
  {
    HeaderSize();
    FieldBytes([h.magic, h.sessionId, h.cmdType, h.bodyLength, h.reserved], HEADER_WIDTHS)
  }

  /** The header that starts a byte string. */
  function HeaderOf(s: seq<byte>): Header
    requires |s| >= HEADER_SIZE
  {
    HeaderSize();
    assert Pow256(1) == 0x100 && Pow256(2) == 0x1_0000 && Pow256(4) == 0x1_0000_0000;
    var v := FieldValues(s, HEADER_WIDTHS);
    Header(v[0], v[1], v[2], v[3], v[4])
  }

  lemma HeaderRoundTrip(h: Header, more: seq<byte>)
    ensures HeaderOf(HeaderBytes(h) + more) == h
  {
    HeaderSize();
    assert Pow256(1) == 0x100 && Pow256(2) == 0x1_0000 && Pow256(4) == 0x1_0000_0000;
    FieldValuesOfBytes([h.magic, h.sessionId, h.cmdType, h.bodyLength, h.reserved], HEADER_WIDTHS, more);
  }

  lemma HeaderBytesOfHeader(s: seq<byte>)
    requires |s| >= HEADER_SIZE
    ensures HeaderBytes(HeaderOf(s)) == s[..HEADER_SIZE]
  {
    HeaderSize();
    var v := FieldValues(s, HEADER_WIDTHS);
    assert v == [v[0], v[1], v[2], v[3], v[4]];
    FieldBytesOfValues(s, HEADER_WIDTHS);
  }

  /** The five numerals spelt out, at offsets 0, 2, 6, 7 and 11. */
  lemma HeaderLayout(h: Header)
    ensures HeaderBytes(h) ==
            BeBytes(h.magic, 2) + BeBytes(h.sessionId, 4) + [h.cmdType] + BeBytes(h.bodyLength, 4)
                + BeBytes(h.reserved, 2)
  {
    var v: seq<nat> := [h.magic, h.sessionId, h.cmdType, h.bodyLength, h.reserved];
    var w := HEADER_WIDTHS;
    assert w[1..][1..] == w[2..] && w[2..][1..] == w[3..] && w[3..][1..] == w[4..];
    assert v[1..][1..] == v[2..] && v[2..][1..] == v[3..] && v[3..][1..] == v[4..];
    assert FieldBytes(v[4..], w[4..]) == BeBytes(h.reserved, 2);
    assert FieldBytes(v[3..], w[3..]) == BeBytes(h.bodyLength, 4) + FieldBytes(v[4..], w[4..]);
    assert FieldBytes(v[2..], w[2..]) == BeBytes(h.cmdType, 1) + FieldBytes(v[3..], w[3..]);
    assert FieldBytes(v[1..], w[1..]) == BeBytes(h.sessionId, 4) + FieldBytes(v[2..], w[2..]);
    assert BeBytes(h.cmdType, 1) == [h.cmdType];
  }

  /** The shift-and-or form of the header's five numerals. */
  lemma HeaderFromBytes(s: seq<byte>)
    requires |s| >= HEADER_SIZE
    ensures var h := HeaderOf(s);
      && h.magic == U16(s[0], s[1]) && h.sessionId == U32(s[2], s[3], s[4], s[5]) && h.cmdType == s[6]
      && h.bodyLength == U32(s[7], s[8], s[9], s[10]) && h.reserved == U16(s[11], s[12])
  {
    var h := HeaderOf(s);
    HeaderLayout(h);
    HeaderBytesOfHeader(s);
    assert Pow256(2) == 0x1_0000 && Pow256(4) == 0x1_0000_0000;
    assert s[..HEADER_SIZE][0..2] == BeBytes(h.magic, 2) && s[..HEADER_SIZE][2..6] == BeBytes(h.sessionId, 4);
    assert s[..HEADER_SIZE][7..11] == BeBytes(h.bodyLength, 4) && s[..HEADER_SIZE][11..13] == BeBytes(h.reserved, 2);
    BeValueOfBytes(h.magic, 2);
    BeValueOfBytes(h.sessionId, 4);
    BeValueOfBytes(h.bodyLength, 4);
    BeValueOfBytes(h.reserved, 2);
    BeValue16(s[..HEADER_SIZE][0..2]);
    BeValue32(s[..HEADER_SIZE][2..6]);
    BeValue32(s[..HEADER_SIZE][7..11]);
    BeValue16(s[..HEADER_SIZE][11..13]);
  }

  /** Writes the header with shifts and masks into the first 13 bytes of `buf`. */
  method SerializeHeader(h: Header, buf: array<byte>)
    requires buf.Length >= HEADER_SIZE
    modifies buf
    ensures buf[..HEADER_SIZE] == HeaderBytes(h)
    ensures buf[HEADER_SIZE..] == old(buf[HEADER_SIZE..])
  {
    buf[0], buf[1] := h.magic / 0x100 % 0x100, h.magic % 0x100;
    buf[2], buf[3] := h.sessionId / 0x100_0000 % 0x100, h.sessionId / 0x1_0000 % 0x100;
    buf[4], buf[5] := h.sessionId / 0x100 % 0x100, h.sessionId % 0x100;
    buf[6] := h.cmdType;
    buf[7], buf[8] := h.bodyLength / 0x100_0000 % 0x100, h.bodyLength / 0x1_0000 % 0x100;
    buf[9], buf[10] := h.bodyLength / 0x100 % 0x100, h.bodyLength % 0x100;
    buf[11], buf[12] := h.reserved / 0x100 % 0x100, h.reserved % 0x100;
    HeaderLayout(h);
    Be16(h.magic);
    Be32(h.sessionId);
    Be32(h.bodyLength);
    Be16(h.reserved);
  }

  /** Reads the header back field by field. */
  method DeserializeHeader(buf: seq<byte>) returns (h: Header)
    requires |buf| >= HEADER_SIZE
    ensures h == HeaderOf(buf)
  {
    var magic := U16(buf[0], buf[1]);
    var sessionId := U32(buf[2], buf[3], buf[4], buf[5]);
    var bodyLength := U32(buf[7], buf[8], buf[9], buf[10]);
    var reserved := U16(buf[11], buf[12]);
    h := Header(magic, sessionId, buf[6], bodyLength, reserved);
    HeaderFromBytes(buf);
  }

  function PacketBytes(p: Packet): seq<byte> {
    HeaderBytes(p.header) + p.body
  }

  /** Re-serialises a packet; the length field is recomputed from the body, truncated to 32 bits. */
  method SerializePacket(p: Packet) returns (bytes: seq<byte>)
    ensures bytes == PacketBytes(p.(header := p.header.(bodyLength := |p.body| % 0x1_0000_0000)))
  {
    var out := new byte[HEADER_SIZE + |p.body|];
    var hdr := p.header.(bodyLength := |p.body| % 0x1_0000_0000);
    SerializeHeader(hdr, out);
    forall i | 0 <= i < |p.body| {
      out[HEADER_SIZE + i] := p.body[i];
    }
    assert out[..HEADER_SIZE] == HeaderBytes(hdr);
    bytes := out[..];
  }

  /** A body-less frame of the gateway's own. */
  function MakePacket(cmd: byte, sessionId: uint32): (p: Packet)
    ensures GoodPacket(p) && p.body == []
    ensures p.header.cmdType == cmd && p.header.sessionId == sessionId && p.header.reserved == 0
  {
    Packet(Header(PROTOCOL_MAGIC, sessionId, cmd, 0, 0), [])
  }

  predicate GoodHeader(h: Header) {
    h.magic == PROTOCOL_MAGIC && h.bodyLength <= MAX_BODY_LENGTH
  }

  predicate GoodPacket(p: Packet) {
    GoodHeader(p.header) && |p.body| == p.header.bodyLength
  }

  ghost predicate GoodPackets(ps: seq<Packet>) {
    forall i :: 0 <= i < |ps| ==> GoodPacket(ps[i])
  }

  function WireOf(ps: seq<Packet>): seq<byte> {
    if ps == [] then [] else PacketBytes(ps[0]) + WireOf(ps[1..])
  }

  lemma {:induction false} WireOfConcat(ps: seq<Packet>, qs: seq<Packet>)
    ensures WireOf(ps + qs) == WireOf(ps) + WireOf(qs)
  {
    if ps == [] {
      assert ps + qs == qs;
    } else {
      WireOfConcat(ps[1..], qs);
      assert (ps + qs)[1..] == ps[1..] + qs;
      Assoc(PacketBytes(ps[0]), WireOf(ps[1..]), WireOf(qs));
    }
  }

  /// The one-shot parse
  /// ------------------

  datatype Verdict = NeedMore | Malformed

  datatype Parsed = Parsed(packets: seq<Packet>, verdict: Verdict, rest: seq<byte>)

  /** Cuts a complete stream into frames: up to the first bad header, or the first incomplete frame. */
  function Parse(s: seq<byte>): Parsed
    decreases |s|
  {
    if |s| < HEADER_SIZE then Parsed([], NeedMore, s)
    else
      var h := HeaderOf(s);
      if !GoodHeader(h) then Parsed([], Malformed, s)
      else
        var end := HEADER_SIZE + h.bodyLength;
        if |s| < end then Parsed([], NeedMore, s)
        else
          var tail := Parse(s[end..]);
          Parsed([Packet(h, s[HEADER_SIZE..end])] + tail.packets, tail.verdict, tail.rest)
  }

  lemma TakeDrop<T>(a: seq<T>, b: seq<T>)
    ensures (a + b)[..|a|] == a && (a + b)[|a|..] == b
  {
  }

  lemma Assoc<T>(a: seq<T>, b: seq<T>, c: seq<T>)
    ensures (a + b) + c == a + (b + c)
  {
  }

  lemma SliceSplit<T>(s: seq<T>, i: nat, k: nat)
    requires i + k <= |s|
    ensures s[i..] == s[i..i + k] + s[i + k..] && s[i..][k..] == s[i + k..]
  {
  }

  /** One good frame in front of any stream is emitted whole. */
  lemma ParseOne(p: Packet, r: seq<byte>)
    requires GoodPacket(p)
    ensures Parse(PacketBytes(p) + r) == Prepend([p], Parse(r))
  {
    var hb := HeaderBytes(p.header);
    Assoc(hb, p.body, r);
    var s := PacketBytes(p) + r;
    HeaderRoundTrip(p.header, p.body + r);
    assert s[HEADER_SIZE..HEADER_SIZE + |p.body|] == p.body;
    assert s[HEADER_SIZE + |p.body|..] == r;
  }

  /** A stream that does not stop at once starts with the bytes of its first packet. */
  lemma FirstFrame(s: seq<byte>)
    requires Parse(s).packets != []
    ensures var p := Parse(s).packets[0];
      GoodPacket(p) && |PacketBytes(p)| <= |s| && s == PacketBytes(p) + s[|PacketBytes(p)|..]
  {
    var h := HeaderOf(s);
    var end := HEADER_SIZE + h.bodyLength;
    HeaderBytesOfHeader(s);
    assert Parse(s).packets[0] == Packet(h, s[HEADER_SIZE..end]);
    assert s[..end] == s[..HEADER_SIZE] + s[HEADER_SIZE..end];
    assert s == s[..end] + s[end..];
  }

  /** A bad header is rejected at once. */
  lemma RejectNow(s: seq<byte>)
    requires |s| >= HEADER_SIZE && !GoodHeader(HeaderOf(s))
    ensures Parse(s) == Parsed([], Malformed, s)
  {
  }

  /** A good header with a short body waits. */
  lemma WaitNow(h: Header, tail: seq<byte>)
    requires GoodHeader(h) && |tail| < h.bodyLength
    ensures Parse(HeaderBytes(h) + tail) == Parsed([], NeedMore, HeaderBytes(h) + tail)
  {
    HeaderRoundTrip(h, tail);
  }

  /** A header read off the front of a stream leaves the stream unchanged. */
  lemma HeaderInFront(s: seq<byte>)
    requires |s| >= HEADER_SIZE
    ensures HeaderBytes(HeaderOf(s)) + s[HEADER_SIZE..] == s
  {
    HeaderBytesOfHeader(s);
  }

  /// The wire, byte by byte
  /// ----------------------

  /** Where every byte of a frame stands: two of magic, four of session id, the command, four of body length,
      two reserved, the body; most significant byte first. */
  lemma FrameLayout(p: Packet)
    ensures var s, h := PacketBytes(p), p.header;
      && |s| == 13 + |p.body| && s[13..] == p.body
      && s[0] == h.magic / 0x100 && s[1] == h.magic % 0x100
      && s[2] == h.sessionId / 0x100_0000 && s[3] == h.sessionId / 0x1_0000 % 0x100
      && s[4] == h.sessionId / 0x100 % 0x100 && s[5] == h.sessionId % 0x100
      && s[6] == h.cmdType
      && s[7] == h.bodyLength / 0x100_0000 && s[8] == h.bodyLength / 0x1_0000 % 0x100
      && s[9] == h.bodyLength / 0x100 % 0x100 && s[10] == h.bodyLength % 0x100
      && s[11] == h.reserved / 0x100 && s[12] == h.reserved % 0x100
  {
    var hb, h := HeaderBytes(p.header), p.header;
    HeaderNumerals(h);
    TwoBytes(hb, 0, h.magic);
    FourBytes(hb, 2, h.sessionId);
    FourBytes(hb, 7, h.bodyLength);
    TwoBytes(hb, 11, h.reserved);
  }

  lemma TwoBytes(s: seq<byte>, i: nat, v: uint16)
    requires i + 2 <= |s| && s[i..i + 2] == BeBytes(v, 2)
    ensures s[i] == v / 0x100 && s[i + 1] == v % 0x100
  {
    Be16(v);
    assert s[i..i + 2][0] == s[i] && s[i..i + 2][1] == s[i + 1];
  }

  lemma FourBytes(s: seq<byte>, i: nat, v: uint32)
    requires i + 4 <= |s| && s[i..i + 4] == BeBytes(v, 4)
    ensures s[i] == v / 0x100_0000 && s[i + 1] == v / 0x1_0000 % 0x100
    ensures s[i + 2] == v / 0x100 % 0x100 && s[i + 3] == v % 0x100
  {
    Be32(v);
    var w := s[i..i + 4];
    assert w[0] == s[i] && w[1] == s[i + 1] && w[2] == s[i + 2] && w[3] == s[i + 3];
  }

  lemma HeaderNumerals(h: Header)
    ensures var s := HeaderBytes(h);
      && s[0..2] == BeBytes(h.magic, 2) && s[2..6] == BeBytes(h.sessionId, 4) && s[6] == h.cmdType
      && s[7..11] == BeBytes(h.bodyLength, 4) && s[11..13] == BeBytes(h.reserved, 2)
  {
    HeaderLayout(h);
  }

  /** The body length four bytes give. */
  function LengthAt(s: seq<byte>): nat
    requires |s| >= 13
  {
    s[7] as int * 0x100_0000 + s[8] as int * 0x1_0000 + s[9] as int * 0x100 + s[10] as int
  }

  /** Not a header: the stream does not start with BE EF, or its length bytes give more than 64 MiB. */
  predicate BadStart(s: seq<byte>) {
    |s| >= 13 && (s[0] != 0xBE || s[1] != 0xEF || LengthAt(s) > 64 * 1024 * 1024)
  }

  /** A header and all the body it announces. */
  predicate WholeFrame(s: seq<byte>) {
    |s| >= 13 && s[0] == 0xBE && s[1] == 0xEF && LengthAt(s) <= 64 * 1024 * 1024 && |s| >= 13 + LengthAt(s)
  }

  /** What the first thirteen bytes decide: nothing is ever cut off a stream that does not start with BE EF, or
      whose length bytes give more than 64 MiB. */
  lemma ParseStart(s: seq<byte>)
    ensures |s| < 13 ==> Parse(s) == Parsed([], NeedMore, s)
    ensures |s| >= 13 ==>
              (Parse(s) == Parsed([], Malformed, s) <==>
               s[0] != 0xBE || s[1] != 0xEF || LengthAt(s) > 64 * 1024 * 1024)
  {
    if |s| >= 13 {
      HeaderSays(s);
    }
  }

  /** The header the bytes give. */
  lemma HeaderSays(s: seq<byte>)
    requires |s| >= 13
    ensures var h := HeaderOf(s);
      && (h.magic == 0xBEEF <==> s[0] == 0xBE && s[1] == 0xEF)
      && h.sessionId == s[2] as int * 0x100_0000 + s[3] as int * 0x1_0000 + s[4] as int * 0x100 + s[5] as int
      && h.cmdType == s[6] && h.bodyLength == LengthAt(s) && h.reserved == s[11] as int * 0x100 + s[12] as int
  {
    HeaderFromBytes(s);
  }

  /** Otherwise the first packet is exactly what the bytes say, once its body is there. */
  lemma ParseFirst(s: seq<byte>)
    requires |s| >= 13 && s[0] == 0xBE && s[1] == 0xEF && LengthAt(s) <= 64 * 1024 * 1024
    ensures |s| < 13 + LengthAt(s) ==> Parse(s) == Parsed([], NeedMore, s)
    ensures |s| >= 13 + LengthAt(s) ==>
              && Parse(s).packets != []
              && var p, left := Parse(s).packets[0], s[13 + LengthAt(s)..];
                 && p.header.magic == 0xBEEF
                 && p.header.sessionId ==
                    s[2] as int * 0x100_0000 + s[3] as int * 0x1_0000 + s[4] as int * 0x100 + s[5] as int
                 && p.header.cmdType == s[6] && p.header.bodyLength == LengthAt(s)
                 && p.header.reserved == s[11] as int * 0x100 + s[12] as int
                 && p.body == s[13..13 + LengthAt(s)]
                 && Parse(s).packets[1..] == Parse(left).packets
                 && Parse(s).verdict == Parse(left).verdict && Parse(s).rest == Parse(left).rest
  {
    HeaderSays(s);
  }

  function Prepend(ps: seq<Packet>, x: Parsed): Parsed {
    Parsed(ps + x.packets, x.verdict, x.rest)
  }

  lemma PrependPrepend(ps: seq<Packet>, qs: seq<Packet>, x: Parsed)
    ensures Prepend(ps, Prepend(qs, x)) == Prepend(ps + qs, x)
  {
    Assoc(ps, qs, x.packets);
  }

  /** What is emitted re-serialises to exactly the bytes consumed. */
  lemma {:induction false} ParseSound(s: seq<byte>)
    ensures s == WireOf(Parse(s).packets) + Parse(s).rest
    ensures GoodPackets(Parse(s).packets)
    ensures Parse(Parse(s).rest) == Parsed([], Parse(s).verdict, Parse(s).rest)
    decreases |s|
  {
    if Parse(s).packets != [] {
      FirstFrame(s);
      var p := Parse(s).packets[0];
      var r := s[|PacketBytes(p)|..];
      ParseSound(r);
      ParseOne(p, r);
      assert Parse(s).packets[1..] == Parse(r).packets;
      Assoc(PacketBytes(p), WireOf(Parse(r).packets), Parse(r).rest);
    } else {
      assert WireOf([]) + s == s;
    }
  }

  /** Serialising good packets and parsing gives the packets back, whatever follows them. */
  lemma {:induction false} ParseComplete(ps: seq<Packet>, r: seq<byte>)
    requires GoodPackets(ps)
    ensures Parse(WireOf(ps) + r) == Prepend(ps, Parse(r))
  {
    if ps == [] {
      assert WireOf(ps) + r == r;
      assert ps + Parse(r).packets == Parse(r).packets;
    } else {
      var w := WireOf(ps[1..]) + r;
      ParseComplete(ps[1..], r);
      ParseOne(ps[0], w);
      Assoc(PacketBytes(ps[0]), WireOf(ps[1..]), r);
      Assoc([ps[0]], ps[1..], Parse(r).packets);
      assert ps == [ps[0]] + ps[1..];
    }
  }

  /** A bad header stays bad whatever follows it. */
  lemma MalformedSticks(r: seq<byte>, more: seq<byte>)
    requires Parse(r).packets == [] && Parse(r).verdict == Malformed
    ensures Parse(r + more).packets == [] && Parse(r + more).verdict == Malformed
  {
    var tail := r[HEADER_SIZE..];
    HeaderInFront(r);
    HeaderRoundTrip(HeaderOf(r), tail + more);
    Assoc(HeaderBytes(HeaderOf(r)), tail, more);
  }

  /** Parsing a stream in two pieces: what the first piece leaves over joins the second. */
  lemma ParseAppend(a: seq<byte>, b: seq<byte>)
    ensures Parse(a).verdict == NeedMore ==>
              Parse(a + b).packets == Parse(a).packets + Parse(Parse(a).rest + b).packets
              && Parse(a + b).verdict == Parse(Parse(a).rest + b).verdict
              && Parse(a + b).rest == Parse(Parse(a).rest + b).rest
    ensures Parse(a).verdict == Malformed ==>
              Parse(a + b).packets == Parse(a).packets && Parse(a + b).verdict == Malformed
  {
    var ps, rest := Parse(a).packets, Parse(a).rest;
    ParseSound(a);
    ParseComplete(ps, rest + b);
    Assoc(WireOf(ps), rest, b);
    if Parse(a).verdict == Malformed {
      MalformedSticks(rest, b);
    }
  }

  /** A proper prefix of one good frame is neither emitted nor rejected. */
  lemma PartialFrame(p: Packet, s: seq<byte>)
    requires GoodPacket(p) && s <= PacketBytes(p) && |s| < |PacketBytes(p)|
    ensures Parse(s) == Parsed([], NeedMore, s)
  {
    if |s| >= HEADER_SIZE {
      var tail := s[HEADER_SIZE..];
      assert s == HeaderBytes(p.header) + tail;
      HeaderRoundTrip(p.header, tail);
    }
  }

  /** A prefix of a stream of good frames parses to a prefix of those frames, and is never rejected. */
  lemma {:induction false} ParsePrefix(ps: seq<Packet>, s: seq<byte>)
    requires GoodPackets(ps)
    requires s <= WireOf(ps)
    ensures Parse(s).packets <= ps && Parse(s).verdict == NeedMore
  {
    if ps != [] {
      var w := PacketBytes(ps[0]);
      if |s| < |w| {
        assert s == w[..|s|];
        PartialFrame(ps[0], s);
      } else {
        var t := s[|w|..];
        assert s == w + t;
        assert WireOf(ps)[|w|..] == WireOf(ps[1..]);
        ParsePrefix(ps[1..], t);
        ParseOne(ps[0], t);
        assert ps == [ps[0]] + ps[1..];
      }
    }
  }
}
