/** The body of an INPUT_EVENT packet: a kind byte, then a mouse or a keyboard record in big-endian
    fields. The gateway never looks inside; the AppHost turns it into the message the plugin gets. */
module InputEvents {
  import opened Protocol

  type int32 = x: int | -0x8000_0000 <= x < 0x8000_0000
  type uint64 = x: int | 0 <= x < 0x1_0000_0000_0000_0000

  const MOUSE_MOVE: byte := 0x01
  const MOUSE_LEFT_DOWN: byte := 0x02
  const MOUSE_LEFT_UP: byte := 0x03
  const MOUSE_RIGHT_DOWN: byte := 0x04
  const MOUSE_RIGHT_UP: byte := 0x05
  const MOUSE_SCROLL: byte := 0x06
  const KEY_DOWN: byte := 0x10
  const KEY_UP: byte := 0x11

  const MOUSE_BODY_SIZE: nat := 13
  const KEYBOARD_BODY_SIZE: nat := 11

  datatype Action = Moved | Pressed | Released | Wheeled

  datatype Button = NoButton | LeftButton | RightButton

  /** `held` is the button state; the wheel value is always zero and left out. */
  datatype MouseMessage = MouseMessage(action: Action, button: Button, held: Button, x: int32, y: int32)

  datatype KeyboardMessage = KeyboardMessage(key: byte, down: bool)

  datatype InputEvent = Mouse(mouse: MouseMessage) | Keyboard(keyboard: KeyboardMessage)

  predicate IsMouse(kind: byte) {
    0x01 <= kind <= 0x06
  }

  predicate IsKeyboard(kind: byte) {
    kind == KEY_DOWN || kind == KEY_UP
  }

  function MouseOf(kind: byte, x: int32, y: int32): MouseMessage
    requires IsMouse(kind)
  {
    if kind == MOUSE_MOVE then MouseMessage(Moved, NoButton, NoButton, x, y)
    else if kind == MOUSE_LEFT_DOWN then MouseMessage(Pressed, LeftButton, LeftButton, x, y)
    else if kind == MOUSE_LEFT_UP then MouseMessage(Released, LeftButton, NoButton, x, y)
    else if kind == MOUSE_RIGHT_DOWN then MouseMessage(Pressed, RightButton, RightButton, x, y)
    else if kind == MOUSE_RIGHT_UP then MouseMessage(Released, RightButton, NoButton, x, y)
    else MouseMessage(Wheeled, NoButton, NoButton, x, y)
  }

  /** Two's complement. */
  function Unsigned(x: int32): uint32 {
    if x >= 0 then x else x + 0x1_0000_0000
  }

  function Signed(v: uint32): int32 {
    if v < 0x8000_0000 then v else v - 0x1_0000_0000
  }

  /** Kind, x, y, and the four bytes of the eight-byte timestamp that fit the thirteen of a mouse body;
      kind, key code, timestamp. No message carries the timestamp. */
  const MOUSE_WIDTHS: seq<nat> := [1, 4, 4, 4]
  const KEYBOARD_WIDTHS: seq<nat> := [1, 2, 8]

  lemma MouseSize()
    ensures Size(MOUSE_WIDTHS) == MOUSE_BODY_SIZE
  {
    var w := MOUSE_WIDTHS;
    assert w[1..][1..] == w[2..] && w[2..][1..] == w[3..] && |w[3..]| == 1;
    assert Size(w[3..]) == 4 && Size(w[2..]) == 8;
  }

  lemma KeyboardSize()
    ensures Size(KEYBOARD_WIDTHS) == KEYBOARD_BODY_SIZE
  {
    var w := KEYBOARD_WIDTHS;
    assert w[1..][1..] == w[2..] && |w[2..]| == 1;
    assert Size(w[2..]) == 8;
  }

  function PackMouse(kind: byte, x: int32, y: int32, stamp: uint64): (body: seq<byte>)
    ensures |body| == MOUSE_BODY_SIZE
  {
    MouseSize();
    FieldBytes([kind, Unsigned(x), Unsigned(y), stamp / 0x1_0000_0000], MOUSE_WIDTHS)
  }

  function PackKeyboard(kind: byte, code: uint16, stamp: uint64): (body: seq<byte>)
    ensures |body| == KEYBOARD_BODY_SIZE
  {
    KeyboardSize();
    FieldBytes([kind, code, stamp], KEYBOARD_WIDTHS)
  }

  /** Empty, unknown, cut short, too long, or with a key code above 255: dropped. */
  function ParseBody(body: seq<byte>): Option<InputEvent> {
    if body == [] then None
    else if IsMouse(body[0]) then
      if |body| != MOUSE_BODY_SIZE then None
      else
        MouseSize();
        var v := FieldValues(body, MOUSE_WIDTHS);
        MouseValues(body);
        Some(Mouse(MouseOf(body[0], Signed(v[1]), Signed(v[2]))))
    else if IsKeyboard(body[0]) then
      if |body| != KEYBOARD_BODY_SIZE then None
      else
        KeyboardSize();
        var v := FieldValues(body, KEYBOARD_WIDTHS);
        if v[1] > 0xFF then None else Some(Keyboard(KeyboardMessage(v[1], body[0] == KEY_DOWN)))
    else None
  }

  lemma Powers()
    ensures Pow256(1) == 0x100 && Pow256(2) == 0x1_0000 && Pow256(4) == 0x1_0000_0000
    ensures Pow256(8) == 0x1_0000_0000_0000_0000
  {
    assert Pow256(2) == 256 * Pow256(1) && Pow256(3) == 256 * Pow256(2) && Pow256(4) == 256 * Pow256(3);
    assert Pow256(5) == 256 * Pow256(4) && Pow256(6) == 256 * Pow256(5);
    assert Pow256(7) == 256 * Pow256(6) && Pow256(8) == 256 * Pow256(7);
  }

  lemma MouseValues(body: seq<byte>)
    requires |body| == MOUSE_BODY_SIZE
    ensures |body| >= Size(MOUSE_WIDTHS)
    ensures var v := FieldValues(body, MOUSE_WIDTHS);
      |v| == 4 && v[0] == body[0] && v[1] < 0x1_0000_0000 && v[2] < 0x1_0000_0000 && v[3] < 0x1_0000_0000
  {
    MouseSize();
    Powers();
    FirstByte(body);
    var v := FieldValues(body, MOUSE_WIDTHS);
    assert v[0] == BeValue(body[..1]);
    assert v[1] < Pow256(MOUSE_WIDTHS[1]) && v[2] < Pow256(MOUSE_WIDTHS[2]) && v[3] < Pow256(MOUSE_WIDTHS[3]);
  }

  lemma FirstByte(body: seq<byte>)
    requires body != []
    ensures BeValue(body[..1]) == body[0]
  {
    assert body[..1][..0] == [];
  }

  lemma KeyboardValues(body: seq<byte>)
    requires |body| == KEYBOARD_BODY_SIZE
    ensures |body| >= Size(KEYBOARD_WIDTHS)
    ensures var v := FieldValues(body, KEYBOARD_WIDTHS);
      |v| == 3 && v[0] == body[0] && v[1] < 0x1_0000 && v[2] < 0x1_0000_0000_0000_0000
  {
    KeyboardSize();
    Powers();
    FirstByte(body);
    var v := FieldValues(body, KEYBOARD_WIDTHS);
    assert v[0] == BeValue(body[..1]);
    assert v[1] < Pow256(KEYBOARD_WIDTHS[1]) && v[2] < Pow256(KEYBOARD_WIDTHS[2]);
  }

  /** A packed mouse event is understood exactly when its kind is a mouse kind, and then as meant. */
  lemma MouseRoundTrip(kind: byte, x: int32, y: int32, stamp: uint64)
    ensures ParseBody(PackMouse(kind, x, y, stamp)) == if IsMouse(kind) then Some(Mouse(MouseOf(kind, x, y))) else None
  {
    var values, body := [kind, Unsigned(x), Unsigned(y), stamp / 0x1_0000_0000], PackMouse(kind, x, y, stamp);
    Powers();
    MouseSize();
    FieldValuesOfBytes(values, MOUSE_WIDTHS, []);
    assert body + [] == body;
    MouseValues(body);
  }

  /** A packed key is understood exactly when its kind is a key kind and its code fits a byte. */
  lemma KeyboardRoundTrip(kind: byte, code: uint16, stamp: uint64)
    ensures ParseBody(PackKeyboard(kind, code, stamp)) ==
            if IsKeyboard(kind) && code <= 0xFF then Some(Keyboard(KeyboardMessage(code, kind == KEY_DOWN))) else None
  {
    var values, body := [kind, code, stamp], PackKeyboard(kind, code, stamp);
    Powers();
    KeyboardSize();
    FieldValuesOfBytes(values, KEYBOARD_WIDTHS, []);
    assert body + [] == body;
    KeyboardValues(body);
  }

  lemma MouseIsPacked(body: seq<byte>) returns (x: int32, y: int32, stamp: uint64)
    requires body != [] && IsMouse(body[0]) && |body| == MOUSE_BODY_SIZE
    ensures body == PackMouse(body[0], x, y, stamp)
  {
    MouseValues(body);
    var v := FieldValues(body, MOUSE_WIDTHS);
    x, y, stamp := Signed(v[1]), Signed(v[2]), 0x1_0000_0000 * v[3];
    MouseSize();
    FieldBytesOfValues(body, MOUSE_WIDTHS);
    assert v == [body[0], Unsigned(x), Unsigned(y), stamp / 0x1_0000_0000];
    assert body[..MOUSE_BODY_SIZE] == body;
  }

  lemma KeyboardIsPacked(body: seq<byte>) returns (code: uint16, stamp: uint64)
    requires body != [] && IsKeyboard(body[0]) && |body| == KEYBOARD_BODY_SIZE
    ensures body == PackKeyboard(body[0], code, stamp)
  {
    KeyboardValues(body);
    var v := FieldValues(body, KEYBOARD_WIDTHS);
    code, stamp := v[1], v[2];
    KeyboardSize();
    FieldBytesOfValues(body, KEYBOARD_WIDTHS);
    assert v == [body[0], code, stamp];
    assert body[..KEYBOARD_BODY_SIZE] == body;
  }

  ghost predicate Packed(body: seq<byte>) {
    || (exists kind, x, y, stamp :: IsMouse(kind) && body == PackMouse(kind, x, y, stamp))
    || (exists kind, code: uint16, stamp :: IsKeyboard(kind) && code <= 0xFF && body == PackKeyboard(kind, code, stamp))
  }

  /** What the AppHost accepts is what a client packs, and nothing else. */
  lemma AcceptedExact(body: seq<byte>)
    ensures ParseBody(body).Some? <==> Packed(body)
  {
    if ParseBody(body).Some? {
      if IsMouse(body[0]) {
        var x, y, stamp := MouseIsPacked(body);
      } else {
        var code, stamp := KeyboardIsPacked(body);
        KeyboardRoundTrip(body[0], code, stamp);
      }
    }
    if Packed(body) {
      PackedIsAccepted(body);
    }
  }

  lemma PackedIsAccepted(body: seq<byte>)
    requires Packed(body)
    ensures ParseBody(body).Some?
  {
    if kind, x, y, stamp :| IsMouse(kind) && body == PackMouse(kind, x, y, stamp) {
      MouseRoundTrip(kind, x, y, stamp);
    } else {
      var kind, code: uint16, stamp :| IsKeyboard(kind) && code <= 0xFF && body == PackKeyboard(kind, code, stamp);
      KeyboardRoundTrip(kind, code, stamp);
    }
  }

  lemma OneSize(n: nat)
    ensures Size([n]) == n
  {
    assert [n][1..] == [];
  }

  lemma MouseStarts()
    ensures Size(MOUSE_WIDTHS[..1]) == 1 && Size(MOUSE_WIDTHS[..2]) == 5
  {
    var w := MOUSE_WIDTHS;
    assert w[..1] == [1] && w[..2] == [1, 4] && w[..2][1..] == [4];
    OneSize(1);
    OneSize(4);
  }

  lemma MouseField(body: seq<byte>, i: nat, start: nat)
    requires |body| == 13 && ((i == 1 && start == 1) || (i == 2 && start == 5))
    ensures |body| >= Size(MOUSE_WIDTHS)
    ensures FieldValues(body, MOUSE_WIDTHS)[i] == BeValue(body[start..start + 4])
  {
    MouseSize();
    MouseStarts();
    FieldValueAt(body, MOUSE_WIDTHS, i, start);
  }

  lemma KeyboardField(body: seq<byte>)
    requires |body| == 11
    ensures |body| >= Size(KEYBOARD_WIDTHS)
    ensures FieldValues(body, KEYBOARD_WIDTHS)[1] == BeValue(body[1..3])
  {
    KeyboardSize();
    assert KEYBOARD_WIDTHS[..1] == [1];
    OneSize(1);
    FieldValueAt(body, KEYBOARD_WIDTHS, 1, 1);
  }

  /** A coordinate, from its four bytes. */
  predicate Coordinate(x: int, s: seq<byte>) {
    x == if BeValue(s) < 0x8000_0000 then BeValue(s) else BeValue(s) - 0x1_0000_0000
  }

  /** What each body means, on its bytes: the kind byte says which button does what, and then come the
      coordinates; or which way the key goes, and then its code. */
  lemma BodyMeans(body: seq<byte>)
    ensures ParseBody(body).Some? <==>
            || (|body| == 13 && 0x01 <= body[0] <= 0x06)
            || (|body| == 11 && 0x10 <= body[0] <= 0x11 && BeValue(body[1..3]) <= 0xFF)
    ensures ParseBody(body).Some? && |body| == 13 ==>
              var ev := ParseBody(body).value;
              && ev.Mouse? && Coordinate(ev.mouse.x, body[1..5]) && Coordinate(ev.mouse.y, body[5..9])
              && (ev.mouse.action == Moved <==> body[0] == 0x01)
              && (ev.mouse.action == Pressed <==> body[0] == 0x02 || body[0] == 0x04)
              && (ev.mouse.action == Released <==> body[0] == 0x03 || body[0] == 0x05)
              && (ev.mouse.action == Wheeled <==> body[0] == 0x06)
              && (ev.mouse.button == LeftButton <==> body[0] == 0x02 || body[0] == 0x03)
              && (ev.mouse.button == RightButton <==> body[0] == 0x04 || body[0] == 0x05)
              && (ev.mouse.held == LeftButton <==> body[0] == 0x02)
              && (ev.mouse.held == RightButton <==> body[0] == 0x04)
    ensures ParseBody(body).Some? && |body| == 11 ==>
              ParseBody(body).value == Keyboard(KeyboardMessage(BeValue(body[1..3]), body[0] == 0x10))
  {
    if |body| == 13 {
      MouseField(body, 1, 1);
      MouseField(body, 2, 5);
    } else if |body| == 11 {
      KeyboardField(body);
    }
  }
}
