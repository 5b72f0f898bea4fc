/** Framebuffer replication: the AppHost packs a dirty rectangle of its window into a PIXEL_DATA body
    and the client applies it to its own buffer. A picture is a row-major sequence of 32-bit colours,
    alpha in the high byte, then red, green and blue. */
module Framebuffer {
  import opened Protocol

  /// Pictures and rectangles
  /// -----------------------

  /** Left and top inclusive, right and bottom exclusive. */
  datatype Rect = Rect(l: int, t: int, r: int, b: int)

  predicate IsEmpty(rc: Rect) {
    rc.l >= rc.r || rc.t >= rc.b
  }

  predicate Inside(rc: Rect, x: int, y: int) {
    rc.l <= x < rc.r && rc.t <= y < rc.b
  }

  predicate Within(rc: Rect, w: int, h: int) {
    0 <= rc.l < rc.r <= w && 0 <= rc.t < rc.b <= h
  }

  /** Where row `y` of a picture `w` wide starts. */
  function RowStart(w: nat, y: nat): nat {
    if y == 0 then 0 else RowStart(w, y - 1) + w
  }

  lemma {:induction false} RowStartIsProduct(w: nat, y: nat)
    ensures RowStart(w, y) == y * w
  {
    if y > 0 {
      RowStartIsProduct(w, y - 1);
      assert y * w == (y - 1) * w + w;
    }
  }

  method RowOffset(w: nat, y: nat) returns (o: nat)
    ensures o == RowStart(w, y)
  {
    RowStartIsProduct(w, y);
    o := y * w;
  }

  /** The bytes of so many rows of pixels. */
  method PixelBytesOf(w: nat, h: nat) returns (n: nat)
    ensures n == 4 * RowStart(w, h)
  {
    RowStartIsProduct(w, h);
    n := h * w * 4;
  }

  lemma {:induction false} RowsOrdered(w: nat, y: nat, t: nat)
    requires y < t
    ensures RowStart(w, y) + w <= RowStart(w, t)
  {
    if y < t - 1 {
      RowsOrdered(w, y, t - 1);
    }
  }

  /** A cell lies before all later rows and after all earlier ones. */
  lemma OtherRows(w: nat, x: nat, y: nat, t: nat)
    requires x < w
    ensures y < t ==> RowStart(w, y) + x < RowStart(w, t)
    ensures y > t ==> RowStart(w, y) + x >= RowStart(w, t) + w
  {
    if y < t {
      RowsOrdered(w, y, t);
    } else if y > t {
      RowsOrdered(w, t, y);
    }
  }

  function At(px: seq<uint32>, w: nat, x: nat, y: nat): uint32 {
    if RowStart(w, y) + x < |px| then px[RowStart(w, y) + x] else 0
  }

  lemma {:induction false} FindCell(w: nat, h: nat, i: nat) returns (x: nat, y: nat)
    requires i < RowStart(w, h)
    ensures x < w && y < h && i == RowStart(w, y) + x
  {
    if i >= RowStart(w, h - 1) {
      x, y := i - RowStart(w, h - 1), h - 1;
    } else {
      x, y := FindCell(w, h - 1, i);
    }
  }

  /** Pictures with the same cells are the same. */
  lemma SameCells(p: seq<uint32>, q: seq<uint32>, w: nat, h: nat)
    requires |p| == |q| == RowStart(w, h)
    requires forall x: nat, y: nat :: x < w && y < h ==> At(p, w, x, y) == At(q, w, x, y)
    ensures p == q
  {
    forall i | 0 <= i < |p| ensures p[i] == q[i] {
      var x, y := FindCell(w, h, i);
      assert At(p, w, x, y) == At(q, w, x, y);
    }
  }

  /// Cropping and pasting, row by row
  /// --------------------------------

  function Crop(px: seq<uint32>, w: nat, l: nat, r: nat, t: nat, b: nat): (words: seq<uint32>)
    requires l <= r <= w && t <= b && RowStart(w, b) <= |px|
    ensures |words| == RowStart(r - l, b - t)
    decreases b - t
  {
    if t == b then []
    else
      RowsOrdered(w, t, b);
      px[RowStart(w, t) + l..RowStart(w, t) + r] + Crop(px, w, l, r, t + 1, b)
  }

  function PasteRow(px: seq<uint32>, at: nat, row: seq<uint32>): (q: seq<uint32>)
    requires at + |row| <= |px|
    ensures |q| == |px|
  {
    px[..at] + row + px[at + |row|..]
  }

  lemma PasteRowAt(px: seq<uint32>, at: nat, row: seq<uint32>, i: nat)
    requires at + |row| <= |px| && i < |px|
    ensures PasteRow(px, at, row)[i] == if at <= i < at + |row| then row[i - at] else px[i]
  {
  }

  function Paste(px: seq<uint32>, w: nat, l: nat, r: nat, t: nat, b: nat, words: seq<uint32>): (q: seq<uint32>)
    requires l <= r <= w && t <= b && RowStart(w, b) <= |px| && |words| == RowStart(r - l, b - t)
    ensures |q| == |px|
    decreases b - t
  {
    if t == b then px
    else
      RowsOrdered(w, t, b);
      Paste(PasteRow(px, RowStart(w, t) + l, words[..r - l]), w, l, r, t + 1, b, words[r - l..])
  }

  lemma SliceShift<T>(a: seq<T>, b: seq<T>, i: nat, j: nat)
    requires i <= j <= |b|
    ensures (a + b)[|a| + i..|a| + j] == b[i..j]
  {
  }

  lemma {:induction false} CropRow(px: seq<uint32>, w: nat, l: nat, r: nat, t: nat, b: nat, y: nat)
    requires l <= r <= w && t <= y < b && RowStart(w, b) <= |px|
    ensures RowStart(w, y) + w <= |px| && RowStart(r - l, y - t) + (r - l) <= RowStart(r - l, b - t)
    ensures Crop(px, w, l, r, t, b)[RowStart(r - l, y - t)..RowStart(r - l, y - t) + (r - l)]
            == px[RowStart(w, y) + l..RowStart(w, y) + r]
    decreases b - t
  {
    RowsOrdered(w, y, b);
    RowsOrdered(w, t, b);
    RowsOrdered(r - l, y - t, b - t);
    var row, later := px[RowStart(w, t) + l..RowStart(w, t) + r], Crop(px, w, l, r, t + 1, b);
    if t < y {
      CropRow(px, w, l, r, t + 1, b, y);
      var at := RowStart(r - l, y - t - 1);
      SliceShift(row, later, at, at + (r - l));
    } else {
      TakeDrop(row, later);
    }
  }

  lemma SliceAt(s: seq<uint32>, i: nat, j: nat, k: nat)
    requires i + k < j <= |s|
    ensures s[i..j][k] == s[i + k]
  {
  }

  /** What is cropped is itself a picture, as wide as the rectangle. */
  lemma CropAt(px: seq<uint32>, w: nat, l: nat, r: nat, t: nat, b: nat, x: nat, y: nat)
    requires l <= x < r <= w && t <= y < b && RowStart(w, b) <= |px|
    ensures At(Crop(px, w, l, r, t, b), r - l, x - l, y - t) == At(px, w, x, y)
  {
    CropRow(px, w, l, r, t, b, y);
    var words, at := Crop(px, w, l, r, t, b), RowStart(r - l, y - t);
    SliceAt(words, at, at + (r - l), x - l);
    SliceAt(px, RowStart(w, y) + l, RowStart(w, y) + r, x - l);
  }

  /** Dropping a picture's first row moves every later row up by one. */
  lemma NextRow(words: seq<uint32>, k: nat, x: nat, y: nat)
    requires y > 0 && k <= |words|
    ensures At(words[k..], k, x, y - 1) == At(words, k, x, y)
  {
  }

  lemma {:induction false} PasteAt(px: seq<uint32>, w: nat, l: nat, r: nat, t: nat, b: nat, words: seq<uint32>, x: nat,
                                   y: nat)
    requires l <= r <= w && t <= b && RowStart(w, b) <= |px| && |words| == RowStart(r - l, b - t)
    requires x < w
    ensures At(Paste(px, w, l, r, t, b, words), w, x, y) ==
            if l <= x < r && t <= y < b then At(words, r - l, x - l, y - t) else At(px, w, x, y)
    decreases b - t
  {
    if t < b {
      RowsOrdered(w, t, b);
      var row, later := words[..r - l], words[r - l..];
      var q := PasteRow(px, RowStart(w, t) + l, row);
      PasteAt(q, w, l, r, t + 1, b, later, x, y);
      PasteRowCell(px, w, l, r, t, row, x, y);
      if l <= x < r && t < y < b {
        NextRow(words, r - l, x - l, y - t);
      } else if l <= x < r && y == t {
        assert At(words, r - l, x - l, 0) == row[x - l];
      }
    }
  }

  lemma PasteRowCell(px: seq<uint32>, w: nat, l: nat, r: nat, t: nat, row: seq<uint32>, x: nat, y: nat)
    requires l <= r <= w && RowStart(w, t) + w <= |px| && |row| == r - l && x < w
    ensures At(PasteRow(px, RowStart(w, t) + l, row), w, x, y) == if l <= x < r && y == t then row[x - l]
          else At(px, w, x, y)
  {
    OtherRows(w, x, y, t);
    if RowStart(w, y) + x < |px| {
      PasteRowAt(px, RowStart(w, t) + l, row, RowStart(w, y) + x);
    }
  }

  /** Pasting what was cropped copies exactly the rectangle's cells, even between pictures of
      different widths. */
  lemma CropThenPaste(p: seq<uint32>, v: nat, q: seq<uint32>, w: nat, l: nat, r: nat, t: nat, b: nat, x: nat, y: nat)
    requires l <= r <= v && r <= w && t <= b && RowStart(v, b) <= |p| && RowStart(w, b) <= |q| && x < w
    ensures At(Paste(q, w, l, r, t, b, Crop(p, v, l, r, t, b)), w, x, y) ==
            if l <= x < r && t <= y < b then At(p, v, x, y) else At(q, w, x, y)
  {
    PasteAt(q, w, l, r, t, b, Crop(p, v, l, r, t, b), x, y);
    if l <= x < r && t <= y < b {
      CropAt(p, v, l, r, t, b, x, y);
    }
  }

  /// The body
  /// --------

  const BODY_HEADER: nat := 24

  /** Frame number, left, top, right, bottom, data length. */
  const FIELDS: seq<nat> := [4, 4, 4, 4, 4, 4]

  lemma FieldsSize()
    ensures Size(FIELDS) == BODY_HEADER && Pow256(4) == 0x1_0000_0000
  {
    var w := FIELDS;
    assert w[1..][1..] == w[2..] && w[2..][1..] == w[3..] && w[3..][1..] == w[4..] && w[4..][1..] == w[5..]
        && |w[5..]| == 1;
    assert Size(w[5..]) == 4 && Size(w[4..]) == 8 && Size(w[3..]) == 12 && Size(w[2..]) == 16 && Size(w[1..]) == 20;
  }

  /** Each pixel goes out as alpha, red, green, blue: its colour in big-endian order. */
  function PixelBytes(words: seq<uint32>): (s: seq<byte>)
    ensures |s| == 4 * |words|
  {
    if words == [] then [] else BeBytes(words[0], 4) + PixelBytes(words[1..])
  }

  function WordsOf(s: seq<byte>): (words: seq<uint32>)
    requires |s| % 4 == 0
    ensures |words| == |s| / 4
  {
    if s == [] then []
    else
      assert Pow256(4) == 0x1_0000_0000;
      [BeValue(s[..4])] + WordsOf(s[4..])
  }

  lemma {:induction false} WordsOfPixels(words: seq<uint32>)
    ensures WordsOf(PixelBytes(words)) == words
  {
    if words != [] {
      assert Pow256(4) == 0x1_0000_0000;
      BeValueOfBytes(words[0], 4);
      TakeDrop(BeBytes(words[0], 4), PixelBytes(words[1..]));
      WordsOfPixels(words[1..]);
    }
  }

  lemma {:induction false} PixelsOfWords(s: seq<byte>)
    requires |s| % 4 == 0
    ensures PixelBytes(WordsOf(s)) == s
  {
    if s != [] {
      BeBytesOfValue(s[..4]);
      PixelsOfWords(s[4..]);
      assert WordsOf(s)[1..] == WordsOf(s[4..]);
      assert s == s[..4] + s[4..];
    }
  }

  lemma {:induction false} PixelSnoc(words: seq<uint32>, v: uint32)
    ensures PixelBytes(words + [v]) == PixelBytes(words) + BeBytes(v, 4)
  {
    if words == [] {
      assert words + [v] == [v] && [v][1..] == [];
      assert BeBytes(v, 4) + PixelBytes([]) == [] + BeBytes(v, 4);
    } else {
      PixelSnoc(words[1..], v);
      assert (words + [v])[1..] == words[1..] + [v];
      Assoc(BeBytes(words[0], 4), PixelBytes(words[1..]), BeBytes(v, 4));
    }
  }

  lemma {:induction false} WordAt(s: seq<byte>, k: nat)
    requires |s| % 4 == 0 && 4 * k + 4 <= |s|
    ensures WordsOf(s)[k] == U32(s[4 * k], s[4 * k + 1], s[4 * k + 2], s[4 * k + 3])
  {
    if k == 0 {
      BeValue32(s[..4]);
    } else {
      WordAt(s[4..], k - 1);
    }
  }

  function FieldsOf(frame: nat, rc: Rect, len: nat): (v: seq<nat>)
    requires rc.l >= 0 && rc.t >= 0 && rc.r >= 0 && rc.b >= 0
    ensures |v| == |FIELDS|
  {
    [frame, rc.l, rc.t, rc.r, rc.b, len]
  }

  function PixelBody(frame: uint32, rc: Rect, words: seq<uint32>): (body: seq<byte>)
    requires rc.l >= 0 && rc.t >= 0 && rc.r >= 0 && rc.b >= 0
    ensures |body| == BODY_HEADER + 4 * |words|
  {
    FieldsSize();
    FieldBytes(FieldsOf(frame, rc, 4 * |words|), FIELDS) + PixelBytes(words)
  }

  /** The six numerals one after the other. */
  lemma FieldsLayout(v: seq<nat>)
    requires |v| == 6
    ensures FieldBytes(v, FIELDS) ==
            BeBytes(v[0], 4) + BeBytes(v[1], 4) + BeBytes(v[2], 4) + BeBytes(v[3], 4) + BeBytes(v[4], 4)
                + BeBytes(v[5], 4)
  {
    var w := FIELDS;
    assert w[1..][1..] == w[2..] && w[2..][1..] == w[3..] && w[3..][1..] == w[4..] && w[4..][1..] == w[5..];
    assert v[1..][1..] == v[2..] && v[2..][1..] == v[3..] && v[3..][1..] == v[4..] && v[4..][1..] == v[5..];
    assert FieldBytes(v[5..], w[5..]) == BeBytes(v[5], 4);
    assert FieldBytes(v[4..], w[4..]) == BeBytes(v[4], 4) + FieldBytes(v[5..], w[5..]);
    assert FieldBytes(v[3..], w[3..]) == BeBytes(v[3], 4) + FieldBytes(v[4..], w[4..]);
    assert FieldBytes(v[2..], w[2..]) == BeBytes(v[2], 4) + FieldBytes(v[3..], w[3..]);
    assert FieldBytes(v[1..], w[1..]) == BeBytes(v[1], 4) + FieldBytes(v[2..], w[2..]);
  }

  method WriteBe32(dst: array<byte>, at: nat, v: uint32)
    requires at + 4 <= dst.Length
    modifies dst
    ensures dst[at..at + 4] == BeBytes(v, 4)
    ensures dst[..at] == old(dst[..at]) && dst[at + 4..] == old(dst[at + 4..])
  {
    dst[at], dst[at + 1] := v / 0x100_0000 % 0x100, v / 0x1_0000 % 0x100;
    dst[at + 2], dst[at + 3] := v / 0x100 % 0x100, v % 0x100;
    Be32(v);
  }

  method WriteFields(body: array<byte>, v: seq<uint32>)
    requires |v| == 6 && body.Length >= BODY_HEADER
    modifies body
    ensures body[..BODY_HEADER] == FieldBytes(v, FIELDS)
  {
    WriteBe32(body, 0, v[0]);
    WriteBe32(body, 4, v[1]);
    assert body[..8] == BeBytes(v[0], 4) + BeBytes(v[1], 4);
    WriteBe32(body, 8, v[2]);
    assert body[..12] == BeBytes(v[0], 4) + BeBytes(v[1], 4) + BeBytes(v[2], 4);
    WriteBe32(body, 12, v[3]);
    assert body[..16] == BeBytes(v[0], 4) + BeBytes(v[1], 4) + BeBytes(v[2], 4) + BeBytes(v[3], 4);
    WriteBe32(body, 16, v[4]);
    assert body[..20] == BeBytes(v[0], 4) + BeBytes(v[1], 4) + BeBytes(v[2], 4) + BeBytes(v[3], 4) + BeBytes(v[4], 4);
    WriteBe32(body, 20, v[5]);
    FieldsLayout(v);
  }

  /** A rectangle of a picture that the caller may pack: inside it, with a byte count below 2^32. */
  predicate Packable(px: seq<uint32>, stride: nat, rc: Rect) {
    && 0 <= rc.l <= rc.r <= stride <= 0x7FFF_FFFF && 0 <= rc.t <= rc.b <= 0x7FFF_FFFF && RowStart(stride, rc.b) <= |px|
    && 4 * RowStart(rc.r - rc.l, rc.b - rc.t) < 0x1_0000_0000
  }

  /** One row: the columns, each written big-endian. */
  method PackRow(px: seq<uint32>, src: nat, w: nat, ghost words: seq<uint32>, ghost done: nat, ghost head: seq<byte>,
                 body: array<byte>, start: nat)
    returns (dst: nat)
    requires src + w <= |px| && done + w <= |words| && words[done..done + w] == px[src..src + w]
    requires body.Length >= |head| + 4 * |words|
    requires start == |head| + 4 * done && body[..start] == head + PixelBytes(words[..done])
    modifies body
    ensures dst == |head| + 4 * (done + w) && body[..dst] == head + PixelBytes(words[..done + w])
  {
    dst := start;
    var col := 0;
    while col < w
      invariant 0 <= col <= w && dst == |head| + 4 * (done + col)
      invariant body[..dst] == head + PixelBytes(words[..done + col])
    {
      var v := px[src + col];
      assert words[done..done + w][col] == px[src..src + w][col];
      WriteBe32(body, dst, v);
      assert body[..dst + 4] == body[..dst] + body[dst..dst + 4];
      assert words[..done + col + 1] == words[..done + col] + [v];
      PixelSnoc(words[..done + col], v);
      Assoc(head, PixelBytes(words[..done + col]), BeBytes(v, 4));
      dst := dst + 4;
      col := col + 1;
    }
  }

  /** Crops, reorders and frames a rectangle in one pass over its rows and columns. */
  method PackPixelDataRect(px: seq<uint32>, stride: nat, rc: Rect, frame: uint32) returns (body: array<byte>)
    requires Packable(px, stride, rc)
    ensures fresh(body) && body[..] == PixelBody(frame, rc, Crop(px, stride, rc.l, rc.r, rc.t, rc.b))
  {
    var w, h := rc.r - rc.l, rc.b - rc.t;
    ghost var words := Crop(px, stride, rc.l, rc.r, rc.t, rc.b);
    var dataLen := PixelBytesOf(w, h);
    body := new byte[BODY_HEADER + dataLen](_ => 0);
    WriteFields(body, [frame, rc.l, rc.t, rc.r, rc.b, dataLen]);
    ghost var head := body[..BODY_HEADER];
    var dst := PackRows(px, stride, rc, words, head, body);
    assert words[..|words|] == words;
    assert body[..dst] == body[..];
  }

  method PackRows(px: seq<uint32>, stride: nat, rc: Rect, ghost words: seq<uint32>, ghost head: seq<byte>,
                  body: array<byte>)
    returns (dst: nat)
    requires Packable(px, stride, rc) && words == Crop(px, stride, rc.l, rc.r, rc.t, rc.b)
    requires |head| == BODY_HEADER && body.Length == BODY_HEADER + 4 * |words| && body[..BODY_HEADER] == head
    modifies body
    ensures dst == body.Length && body[..dst] == head + PixelBytes(words[..|words|])
  {
    var h := rc.b - rc.t;
    dst := BODY_HEADER;
    var row := 0;
    while row < h
      invariant 0 <= row <= h && PackedRows(rc, words, head, body, row, dst)
    {
      dst := PackNextRow(px, stride, rc, words, head, body, row, dst);
      row := row + 1;
    }
  }

  /** The head and the first rows have been written, up to `dst`. */
  ghost predicate PackedRows(rc: Rect, words: seq<uint32>, head: seq<byte>, body: array<byte>, row: nat, dst: nat)
    requires rc.l <= rc.r
    reads body
  {
    && RowStart(rc.r - rc.l, row) <= |words| && dst == |head| + 4 * RowStart(rc.r - rc.l, row) <= body.Length
    && body[..dst] == head + PixelBytes(words[..RowStart(rc.r - rc.l, row)])
  }

  method PackNextRow(px: seq<uint32>, stride: nat, rc: Rect, ghost words: seq<uint32>, ghost head: seq<byte>,
                     body: array<byte>,
                     row: nat, start: nat)
    returns (dst: nat)
    requires Packable(px, stride, rc) && words == Crop(px, stride, rc.l, rc.r, rc.t, rc.b) && row < rc.b - rc.t
    requires body.Length == |head| + 4 * |words| && PackedRows(rc, words, head, body, row, start)
    modifies body
    ensures PackedRows(rc, words, head, body, row + 1, dst)
  {
    ghost var done := RowStart(rc.r - rc.l, row);
    PackReady(px, stride, rc, words, row);
    var src := RowOffset(stride, rc.t + row);
    dst := PackRow(px, src + rc.l, rc.r - rc.l, words, done, head, body, start);
  }

  lemma PackReady(px: seq<uint32>, stride: nat, rc: Rect, words: seq<uint32>, row: nat)
    requires Packable(px, stride, rc) && words == Crop(px, stride, rc.l, rc.r, rc.t, rc.b) && row < rc.b - rc.t
    ensures var w, src, done := rc.r - rc.l, RowStart(stride, rc.t + row) + rc.l, RowStart(rc.r - rc.l, row);
      && src + w <= |px| && done + w <= |words| && words[done..done + w] == px[src..src + w]
      && RowStart(w, row + 1) == done + w
  {
    CropRow(px, stride, rc.l, rc.r, rc.t, rc.b, rc.t + row);
  }

  /// The client
  /// ----------

  datatype ApplyResult = OK | StaleFrame | BadRect | BadLength

  datatype Client = Client(width: nat, height: nat, last: uint32, px: seq<uint32>)

  predicate Sized(c: Client) {
    |c.px| == RowStart(c.width, c.height)
  }

  /** The cast of an unsigned to a signed 32-bit integer. */
  function ToInt32(v: nat): int
    requires v < 0x1_0000_0000
  {
    if v < 0x8000_0000 then v else v - 0x1_0000_0000
  }

  /** Stale frames first, then rectangles, then lengths; a rejected frame changes nothing. */
  function ApplyRect(c: Client, frame: uint32, rc: Rect, data: seq<byte>): (r: (ApplyResult, Client))
    requires Sized(c)
    ensures Sized(r.1) && r.1.width == c.width && r.1.height == c.height
    ensures r.0 != OK ==> r.1 == c
  {
    if frame < c.last then (StaleFrame, c)
    else if rc.l < 0 || rc.t < 0 || rc.r > c.width || rc.b > c.height || IsEmpty(rc) then (BadRect, c)
    else if |data| != 4 * RowStart(rc.r - rc.l, rc.b - rc.t) then (BadLength, c)
    else
      RowsUpTo(c.width, rc.b, c.height);
      (OK, Client(c.width, c.height, frame, Paste(c.px, c.width, rc.l, rc.r, rc.t, rc.b, WordsOf(data))))
  }

  lemma RowsUpTo(w: nat, b: nat, h: nat)
    requires b <= h
    ensures RowStart(w, b) <= RowStart(w, h)
  {
    if b < h {
      RowsOrdered(w, b, h);
    }
  }

  /** The rectangle a body's fields name. */
  function RectOf(v: seq<nat>): Rect
    requires |v| == 6 && forall i :: 0 <= i < 6 ==> v[i] < 0x1_0000_0000
  {
    Rect(ToInt32(v[1]), ToInt32(v[2]), ToInt32(v[3]), ToInt32(v[4]))
  }

  function Fields(body: seq<byte>): (v: seq<nat>)
    requires |body| >= BODY_HEADER
    ensures |v| == 6 && forall i :: 0 <= i < 6 ==> v[i] < 0x1_0000_0000
  {
    FieldsSize();
    FieldValues(body, FIELDS)
  }

  function ApplyBody(c: Client, body: seq<byte>): (r: (ApplyResult, Client))
    requires Sized(c)
    ensures Sized(r.1) && r.1.width == c.width && r.1.height == c.height
    ensures r.0 != OK ==> r.1 == c
  {
    if |body| < BODY_HEADER || Fields(body)[5] != |body| - BODY_HEADER then (BadLength, c)
    else ApplyRect(c, Fields(body)[0], RectOf(Fields(body)), body[BODY_HEADER..])
  }

  lemma FieldsReadBack(v: seq<nat>, more: seq<byte>)
    requires |v| == 6 && forall i :: 0 <= i < 6 ==> v[i] < 0x1_0000_0000
    ensures |FieldBytes(v, FIELDS)| == BODY_HEADER && Fields(FieldBytes(v, FIELDS) + more) == v
  {
    FieldsSize();
    assert forall i :: 0 <= i < 6 ==> FIELDS[i] == 4;
    FieldValuesOfBytes(v, FIELDS, more);
  }

  predicate Int32Rect(rc: Rect) {
    0 <= rc.l <= 0x7FFF_FFFF && 0 <= rc.t <= 0x7FFF_FFFF && 0 <= rc.r <= 0x7FFF_FFFF && 0 <= rc.b <= 0x7FFF_FFFF
  }

  lemma RectReadsBack(frame: uint32, rc: Rect, len: uint32)
    requires Int32Rect(rc)
    ensures var v := FieldsOf(frame, rc, len); (forall i :: 0 <= i < 6 ==> v[i] < 0x1_0000_0000) && RectOf(v) == rc
  {
  }

  lemma BodyParts(frame: uint32, rc: Rect, words: seq<uint32>)
    requires Int32Rect(rc)
    ensures |FieldBytes(FieldsOf(frame, rc, 4 * |words|), FIELDS)| == BODY_HEADER
    ensures PixelBody(frame, rc, words) == FieldBytes(FieldsOf(frame, rc, 4 * |words|), FIELDS) + PixelBytes(words)
    ensures PixelBody(frame, rc, words)[BODY_HEADER..] == PixelBytes(words)
  {
    FieldsSize();
    TakeDrop(FieldBytes(FieldsOf(frame, rc, 4 * |words|), FIELDS), PixelBytes(words));
  }

  /** The fields and the pixels read back from a packed body. */
  lemma BodyFields(frame: uint32, rc: Rect, words: seq<uint32>, body: seq<byte>)
    requires Int32Rect(rc) && 4 * |words| < 0x1_0000_0000
    requires body == PixelBody(frame, rc, words)
    ensures Fields(body) == FieldsOf(frame, rc, 4 * |words|) && RectOf(Fields(body)) == rc
    ensures body[BODY_HEADER..] == PixelBytes(words)
  {
    RectReadsBack(frame, rc, 4 * |words|);
    BodyParts(frame, rc, words);
    FieldsReadBack(FieldsOf(frame, rc, 4 * |words|), PixelBytes(words));
  }

  /** What the client makes of any packed rectangle: stale if its number is behind, a bad rectangle if
      it does not fit the client's own buffer, otherwise pasted; never a bad length. */
  lemma PackedVerdict(c: Client, px: seq<uint32>, stride: nat, rc: Rect, frame: uint32)
    requires Sized(c) && Packable(px, stride, rc) && !IsEmpty(rc)
    ensures var words := Crop(px, stride, rc.l, rc.r, rc.t, rc.b);
      var r := ApplyBody(c, PixelBody(frame, rc, words));
      if frame < c.last then r == (StaleFrame, c)
      else if rc.r > c.width || rc.b > c.height then r == (BadRect, c)
      else
        && RowStart(c.width, rc.b) <= |c.px|
        && r == (OK, Client(c.width, c.height, frame, Paste(c.px, c.width, rc.l, rc.r, rc.t, rc.b, words)))
  {
    var words := Crop(px, stride, rc.l, rc.r, rc.t, rc.b);
    BodyFields(frame, rc, words, PixelBody(frame, rc, words));
    WordsOfPixels(words);
    if rc.b <= c.height {
      RowsUpTo(c.width, rc.b, c.height);
    }
  }

  /** Only packed rectangles are accepted: whatever body the client applies is the packing of the words
      it carries, for a rectangle inside the client's buffer and a frame that is not stale. */
  lemma AcceptedIsPacked(c: Client, body: seq<byte>)
    requires Sized(c) && c.width <= 0x7FFF_FFFF && c.height <= 0x7FFF_FFFF && ApplyBody(c, body).0 == OK
    ensures var frame, rc := Fields(body)[0], RectOf(Fields(body));
      && |body| % 4 == 0 && frame >= c.last && Within(rc, c.width, c.height)
      && body == PixelBody(frame, rc, WordsOf(body[BODY_HEADER..]))
      && |WordsOf(body[BODY_HEADER..])| == RowStart(rc.r - rc.l, rc.b - rc.t)
  {
    var v, rc, data := Fields(body), RectOf(Fields(body)), body[BODY_HEADER..];
    FieldsSize();
    PixelsOfWords(data);
    FieldBytesOfValues(body, FIELDS);
    assert v == FieldsOf(v[0], rc, |data|);
    assert body == body[..BODY_HEADER] + data;
  }

  /// The server window
  /// -----------------

  /** `frames` counts the frames sent, without wrapping. */
  datatype Window = Window(width: nat, height: nat, px: seq<uint32>, frames: nat)

  predicate GoodWindow(w: Window) {
    && 0 < w.width <= 0x7FFF_FFFF && 0 < w.height <= 0x7FFF_FFFF
    && |w.px| == RowStart(w.width, w.height) && 4 * |w.px| < 0x1_0000_0000
  }

  /** One dispatched draw: the clipped rectangle and what the plugin leaves in the window. */
  datatype Draw = Draw(rc: Rect, px: seq<uint32>)

  /** The plugin paints only inside the rectangle it was asked to paint. */
  ghost predicate PaintsInside(w: Window, d: Draw) {
    && Within(d.rc, w.width, w.height) && |d.px| == |w.px|
    && forall x: nat, y: nat :: x < w.width && y < w.height && !Inside(d.rc, x, y) ==>
        At(d.px, w.width, x, y) == At(w.px, w.width, x, y)
  }

  function Drawn(w: Window, d: Draw): Window {
    Window(w.width, w.height, d.px, w.frames + 1)
  }

  /** The 32-bit frame counter is incremented first. */
  function FrameSeq(n: nat): uint32 {
    n % 0x1_0000_0000
  }

  lemma SmallerRectangle(w: nat, h: nat, rc: Rect)
    requires Within(rc, w, h)
    ensures RowStart(rc.r - rc.l, rc.b - rc.t) <= RowStart(w, h) && RowStart(w, rc.b) <= RowStart(w, h)
  {
    RowsUpTo(w, rc.b, h);
    RowsUpTo(w, rc.b - rc.t, h);
    NarrowerRows(rc.r - rc.l, w, rc.b - rc.t);
  }

  lemma {:induction false} NarrowerRows(k: nat, w: nat, m: nat)
    requires k <= w
    ensures RowStart(k, m) <= RowStart(w, m)
  {
    if m > 0 {
      NarrowerRows(k, w, m - 1);
    }
  }

  lemma WindowPackable(w: Window, d: Draw)
    requires GoodWindow(w) && Within(d.rc, w.width, w.height) && |d.px| == |w.px|
    ensures Packable(d.px, w.width, d.rc)
  {
    SmallerRectangle(w.width, w.height, d.rc);
  }

  function FrameBody(w: Window, d: Draw): seq<byte>
    requires GoodWindow(w) && Within(d.rc, w.width, w.height) && |d.px| == |w.px|
  {
    WindowPackable(w, d);
    PixelBody(FrameSeq(w.frames + 1), d.rc, Crop(d.px, w.width, d.rc.l, d.rc.r, d.rc.t, d.rc.b))
  }

  predicate SameSize(c: Client, w: Window) {
    c.width == w.width && c.height == w.height && |c.px| == |w.px|
  }

  predicate Covers(rc: Rect, w: Window) {
    rc == Rect(0, 0, w.width, w.height)
  }

  /** One frame: accepted exactly when its 32-bit number is not behind the last one applied, and then
      the client shows the window, whatever it showed before inside the rectangle. */
  lemma FrameMirrors(c: Client, w: Window, d: Draw)
    requires GoodWindow(w) && SameSize(c, w) && PaintsInside(w, d) && (c.px == w.px || Covers(d.rc, w))
    ensures ApplyBody(c, FrameBody(w, d)) ==
            if FrameSeq(w.frames + 1) < c.last then (StaleFrame, c)
            else (OK, Client(c.width, c.height, FrameSeq(w.frames + 1), d.px))
  {
    WindowPackable(w, d);
    PackedVerdict(c, d.px, w.width, d.rc, FrameSeq(w.frames + 1));
    PasteMirrors(c.px, w, d);
  }

  lemma PasteMirrors(q: seq<uint32>, w: Window, d: Draw)
    requires GoodWindow(w) && |q| == |w.px| && PaintsInside(w, d) && (q == w.px || Covers(d.rc, w))
    requires Packable(d.px, w.width, d.rc)
    ensures RowStart(w.width, d.rc.b) <= |q|
    ensures Paste(q, w.width, d.rc.l, d.rc.r, d.rc.t, d.rc.b, Crop(d.px, w.width, d.rc.l, d.rc.r, d.rc.t, d.rc.b)) ==
          d.px
  {
    var rc := d.rc;
    SmallerRectangle(w.width, w.height, rc);
    var p := Paste(q, w.width, rc.l, rc.r, rc.t, rc.b, Crop(d.px, w.width, rc.l, rc.r, rc.t, rc.b));
    forall x: nat, y: nat | x < w.width && y < w.height ensures At(p, w.width, x, y) == At(d.px, w.width, x, y) {
      CropThenPaste(d.px, w.width, q, w.width, rc.l, rc.r, rc.t, rc.b, x, y);
    }
    SameCells(p, d.px, w.width, w.height);
  }

  /// Whole runs
  /// ----------

  ghost predicate ValidDraws(w: Window, ds: seq<Draw>)
    decreases |ds|
  {
    ds == [] || (PaintsInside(w, ds[0]) && ValidDraws(Drawn(w, ds[0]), ds[1..]))
  }

  function After(w: Window, ds: seq<Draw>): Window
    decreases |ds|
  {
    if ds == [] then w else After(Drawn(w, ds[0]), ds[1..])
  }

  /** The client after all the frames. */
  ghost function Watch(c: Client, w: Window, ds: seq<Draw>): Client
    requires Sized(c) && GoodWindow(w) && ValidDraws(w, ds)
    decreases |ds|
  {
    if ds == [] then c else Watch(ApplyBody(c, FrameBody(w, ds[0])).1, Drawn(w, ds[0]), ds[1..])
  }

  ghost predicate AllAccepted(c: Client, w: Window, ds: seq<Draw>)
    requires Sized(c) && GoodWindow(w) && ValidDraws(w, ds)
    decreases |ds|
  {
    ds == [] || (ApplyBody(c, FrameBody(w, ds[0])).0 == OK
        && AllAccepted(ApplyBody(c, FrameBody(w, ds[0])).1, Drawn(w, ds[0]), ds[1..]))
  }

  /** The client is not ahead of the window's counter. It need not have seen every frame. */
  predicate InStep(c: Client, w: Window) {
    SameSize(c, w) && c.last <= FrameSeq(w.frames)
  }

  /** How many more frames the client will accept: those up to the counter's next wrap, but a client that
      has applied none, or only a frame numbered 0, survives a wrap that comes with the very next frame. */
  function Room(c: Client, w: Window): nat {
    if c.last == 0 && FrameSeq(w.frames) == 0xFFFF_FFFF then 0x1_0000_0000 else 0xFFFF_FFFF - FrameSeq(w.frames)
  }

  lemma NextSeq(n: nat)
    ensures FrameSeq(n + 1) == if FrameSeq(n) == 0xFFFF_FFFF then 0 else FrameSeq(n) + 1
  {
  }

  lemma MirrorStep(c: Client, w: Window, d: Draw)
    requires GoodWindow(w) && InStep(c, w) && PaintsInside(w, d) && (c.px == w.px || Covers(d.rc, w))
    ensures GoodWindow(Drawn(w, d))
    ensures var r := ApplyBody(c, FrameBody(w, d));
      if Room(c, w) > 0 then r.0 == OK && InStep(r.1, Drawn(w, d)) && r.1.px == d.px
          && Room(r.1, Drawn(w, d)) == Room(c, w) - 1
      else r == (StaleFrame, c)
  {
    FrameMirrors(c, w, d);
    NextSeq(w.frames);
  }

  /** Mirroring is exact: from a client not ahead that either shows the window or is next sent all of it,
      whatever the window has sent before, every frame is accepted if and only if there is room for as
      many; and then the client shows the window. */
  lemma {:induction false} MirrorsExactly(c: Client, w: Window, ds: seq<Draw>)
    requires GoodWindow(w) && InStep(c, w) && ValidDraws(w, ds)
    requires c.px == w.px || (ds != [] && Covers(ds[0].rc, w))
    ensures AllAccepted(c, w, ds) <==> |ds| <= Room(c, w)
    ensures AllAccepted(c, w, ds) ==> Watch(c, w, ds).px == After(w, ds).px && InStep(Watch(c, w, ds), After(w, ds))
    decreases |ds|
  {
    if ds != [] {
      MirrorStep(c, w, ds[0]);
      if Room(c, w) > 0 {
        MirrorsExactly(ApplyBody(c, FrameBody(w, ds[0])).1, Drawn(w, ds[0]), ds[1..]);
      }
    }
  }

  /** From the first frame of both on, that is fewer than 2^32 frames in all. */
  lemma MirrorsFromStart(c: Client, w: Window, ds: seq<Draw>)
    requires GoodWindow(w) && SameSize(c, w) && c.last == 0 && w.frames == 0 && ValidDraws(w, ds)
    requires ds != [] && Covers(ds[0].rc, w)
    ensures AllAccepted(c, w, ds) <==> |ds| < 0x1_0000_0000
    ensures |ds| < 0x1_0000_0000 ==> Watch(c, w, ds).px == After(w, ds).px
  {
    MirrorsExactly(c, w, ds);
  }

  lemma StaleStep(c: Client, w: Window, d: Draw)
    requires GoodWindow(w) && Sized(c) && PaintsInside(w, d) && c.last == 0xFFFF_FFFF
    requires 0xFFFF_FFFF <= w.frames && w.frames + 1 < 0x1_FFFF_FFFF
    ensures ApplyBody(c, FrameBody(w, d)) == (StaleFrame, c)
  {
    WindowPackable(w, d);
    PackedVerdict(c, d.px, w.width, d.rc, FrameSeq(w.frames + 1));
  }

  /** After frame 2^32 - 1 the counter wraps and the client freezes: it rejects every one of the next
      2^32 - 1 frames and keeps showing the old picture. */
  lemma {:induction false} WrapFreezes(c: Client, w: Window, ds: seq<Draw>)
    requires GoodWindow(w) && Sized(c) && ValidDraws(w, ds) && c.last == 0xFFFF_FFFF
    requires w.frames >= 0xFFFF_FFFF && w.frames + |ds| < 0x1_FFFF_FFFF
    ensures Watch(c, w, ds) == c
    decreases |ds|
  {
    if ds != [] {
      StaleStep(c, w, ds[0]);
      WrapFreezes(c, Drawn(w, ds[0]), ds[1..]);
    }
  }

  /// The window and the renderer
  /// ---------------------------

  function Max(x: int, y: int): int {
    if x < y then y else x
  }

  function Min(x: int, y: int): int {
    if x < y then x else y
  }

  function Clip(rc: Rect, w: int, h: int): Rect {
    Rect(Max(rc.l, 0), Max(rc.t, 0), Min(rc.r, w), Min(rc.b, h))
  }

  /** Clipping is intersection: it keeps exactly the cells of the rectangle that the window has, and is
      empty exactly when there are none. */
  lemma ClipIsIntersection(rc: Rect, w: nat, h: nat)
    ensures forall x: int, y: int :: Inside(Clip(rc, w, h), x, y) <==> Inside(rc, x, y) && 0 <= x < w && 0 <= y < h
    ensures forall x: int, y: int :: Inside(rc, x, y) <==> rc.l <= x < rc.r && rc.t <= y < rc.b
    ensures IsEmpty(Clip(rc, w, h)) <==> forall x: int, y: int :: 0 <= x < w && 0 <= y < h ==> !Inside(rc, x, y)
    ensures !IsEmpty(Clip(rc, w, h)) ==> Within(Clip(rc, w, h), w, h)
  {
    var c := Clip(rc, w, h);
    if !IsEmpty(c) {
      assert Inside(c, c.l, c.t);
    }
  }

  method PackFrame(px: seq<uint32>, width: nat, rc: Rect, frame: uint32, ghost w: Window) returns (body: seq<byte>)
    requires GoodWindow(w) && w.width == width && Within(rc, w.width, w.height) && |px| == |w.px|
    requires frame == FrameSeq(w.frames + 1)
    ensures body == FrameBody(w, Draw(rc, px))
  {
    WindowPackable(w, Draw(rc, px));
    var packed := PackPixelDataRect(px, width, rc, frame);
    body := packed[..];
  }

  class UiWindow {
    const width: nat
    const height: nat
    var pixels: seq<uint32>
    var destroyed: bool
    var hasHandler: bool
    var hasSink: bool
    var frameSeq: uint32
    var sent: seq<seq<byte>>  // the bodies given to the sink, in order
    ghost var frames: nat

    ghost predicate Valid()
      reads this
    {
      GoodWindow(View()) && frameSeq == FrameSeq(frames)
    }

    ghost function View(): Window
      reads this
    {
      Window(width, height, pixels, frames)
    }

    constructor (width: nat, height: nat)
      requires 0 < width <= 0x7FFF_FFFF && 0 < height <= 0x7FFF_FFFF && 4 * RowStart(width, height) < 0x1_0000_0000
      ensures Valid() && View() == Window(width, height, seq(RowStart(width, height), _ => 0), 0)
      ensures !destroyed && !hasHandler && !hasSink && sent == []
    {
      this.width, this.height := width, height;
      pixels := seq(RowStart(width, height), _ => 0);
      destroyed, hasHandler, hasSink, frameSeq, sent, frames := false, false, false, 0, [], 0;
    }

    /** The plugin paints first, leaving `painted`; then the rectangle is packed under the next number. */
    method DispatchDrawAndSend(rc: Rect, painted: seq<uint32>)
      requires Valid() && Within(rc, width, height) && |painted| == |pixels|
      modifies this`pixels, this`frameSeq, this`sent, this`frames
      ensures Valid()
      ensures destroyed || !hasHandler ==> View() == old(View()) && sent == old(sent)
      ensures !destroyed && hasHandler && !hasSink ==> View() == old(View()).(px := painted) && sent == old(sent)
      ensures !destroyed && hasHandler && hasSink ==>
                View() == Drawn(old(View()), Draw(rc, painted))
                    && sent == old(sent) + [FrameBody(old(View()), Draw(rc, painted))]
    {
      if destroyed || !hasHandler {
        return;
      }
      ghost var w := View();
      pixels := painted;
      if !hasSink {
        return;
      }
      SendFrame(rc, w);
    }

    /** Numbers, packs and hands over one frame of what is now in the window. */
    method SendFrame(rc: Rect, ghost w: Window)
      requires GoodWindow(w) && w.width == width && w.height == height && Within(rc, width, height)
            && |pixels| == |w.px|
      requires frameSeq == FrameSeq(w.frames) && frames == w.frames
      modifies this`frameSeq, this`sent, this`frames
      ensures frames == w.frames + 1 && frameSeq == FrameSeq(frames)
      ensures sent == old(sent) + [FrameBody(w, Draw(rc, pixels))]
    {
      frameSeq, frames := (frameSeq + 1) % 0x1_0000_0000, frames + 1;
      var body := PackFrame(pixels, width, rc, frameSeq, w);
      sent := sent + [body];
    }

    /** The first frame covers the window. */
    method OnWindowShow(show: bool, painted: seq<uint32>)
      requires Valid() && |painted| == |pixels|
      modifies this`pixels, this`frameSeq, this`sent, this`frames
      ensures Valid()
      ensures !show || destroyed || !hasHandler ==> View() == old(View()) && sent == old(sent)
      ensures show && !destroyed && hasHandler && !hasSink ==>
            View() == old(View()).(px := painted) && sent == old(sent)
      ensures show && !destroyed && hasHandler && hasSink ==>
                var d := Draw(Rect(0, 0, width, height), painted);
                Covers(d.rc, old(View())) && View() == Drawn(old(View()), d)
                    && sent == old(sent) + [FrameBody(old(View()), d)]
    {
      if !show {
        return;
      }
      DispatchDrawAndSend(Rect(0, 0, width, height), painted);
    }

    /** A damaged rectangle is sent exactly when the window has a cell of it. */
    method OnWindowDamage(rc: Rect, painted: seq<uint32>)
      requires Valid() && |painted| == |pixels|
      modifies this`pixels, this`frameSeq, this`sent, this`frames
      ensures Valid()
      ensures destroyed || !hasHandler || IsEmpty(Clip(rc, width, height)) ==>
            View() == old(View()) && sent == old(sent)
      ensures !destroyed && hasHandler && !hasSink && !IsEmpty(Clip(rc, width, height)) ==>
                View() == old(View()).(px := painted) && sent == old(sent)
      ensures !destroyed && hasHandler && hasSink && !IsEmpty(Clip(rc, width, height)) ==>
                var d := Draw(Clip(rc, width, height), painted);
                && Within(d.rc, width, height)
                && View() == Drawn(old(View()), d) && sent == old(sent) + [FrameBody(old(View()), d)]
    {
      var l, t, r, b := rc.l, rc.t, rc.r, rc.b;
      if l < 0 {
        l := 0;
      }
      if t < 0 {
        t := 0;
      }
      if r > width {
        r := width;
      }
      if b > height {
        b := height;
      }
      if l >= r || t >= b {
        return;
      }
      DispatchDrawAndSend(Rect(l, t, r, b), painted);
    }
  }

  class PixelRenderer {
    var width: nat
    var height: nat
    var lastFrameSeq: uint32
    var pixels: array<uint32>

    ghost predicate Valid()
      reads this
    {
      0 < width <= 0x7FFF_FFFF && 0 < height <= 0x7FFF_FFFF && pixels.Length == RowStart(width, height)
    }

    ghost function View(): Client
      reads this, pixels
    {
      Client(width, height, lastFrameSeq, pixels[..])
    }

    constructor (width: int, height: int, fill: uint32)
      requires width <= 0x7FFF_FFFF && height <= 0x7FFF_FFFF
      ensures Valid() && fresh(pixels)
      ensures View() == Blank(width, height, fill)
    {
      this.width, this.height := if width <= 0 then 1 else width, if height <= 0 then 1 else height;
      lastFrameSeq := 0;
      pixels := new uint32[RowStart(if width <= 0 then 1 else width, if height <= 0 then 1 else height)](_ => fill);
    }

    /** Starts over with another size; sizes below one become one. */
    method Reset(width: int, height: int, fill: uint32)
      requires width <= 0x7FFF_FFFF && height <= 0x7FFF_FFFF
      modifies this
      ensures Valid() && fresh(pixels) && View() == Blank(width, height, fill)
    {
      var w, h := width, height;
      if w <= 0 {
        w := 1;
      }
      if h <= 0 {
        h := 1;
      }
      this.width, this.height, lastFrameSeq := w, h, 0;
      pixels := new uint32[RowStart(w, h)](_ => fill);
    }

    /** Overwrites one row of the rectangle, reading four bytes for each pixel. */
    method PasteOneRow(at: nat, count: nat, data: seq<byte>, start: nat, ghost words: seq<uint32>, ghost first: nat)
      returns (src: nat)
      requires |data| % 4 == 0 && words == WordsOf(data) && start == 4 * first
      requires at + count <= pixels.Length && first + count <= |words|
      modifies pixels
      ensures src == start + 4 * count
      ensures pixels[..] == PasteRow(old(pixels[..]), at, words[first..first + count])
    {
      ghost var before := pixels[..];
      src := start;
      var x := 0;
      while x < count
        invariant 0 <= x <= count && src == 4 * (first + x)
        invariant pixels[..] == PasteRow(before, at, words[first..first + x])
      {
        pixels[at + x] := ReadPixel(data, src, first + x);
        PasteRowNext(before, at, words, first, x);
        src := src + 4;
        x := x + 1;
      }
    }

    method PasteRows(rc: Rect, data: seq<byte>)
      requires Valid() && Within(rc, width, height) && |data| == 4 * RowStart(rc.r - rc.l, rc.b - rc.t)
      modifies pixels
      ensures RowStart(width, rc.b) <= pixels.Length
      ensures pixels[..] == Paste(old(pixels[..]), width, rc.l, rc.r, rc.t, rc.b, WordsOf(data))
    {
      ghost var words, before := WordsOf(data), pixels[..];
      ghost var target := PasteStart(before, width, height, rc, words);
      PasteFrom(rc, data, words, target);
      PasteDone(pixels[..], width, rc, words, target);
    }

    method PasteFrom(rc: Rect, data: seq<byte>, ghost words: seq<uint32>, ghost target: seq<uint32>)
      requires Within(rc, width, height) && |data| % 4 == 0 && words == WordsOf(data)
      requires Pasting(rc, words, rc.t, 0, target)
      modifies pixels
      ensures PasteLeft(pixels[..], width, rc, words, rc.b, target)
    {
      var src, y := 0, rc.t;
      while y < rc.b
        invariant rc.t <= y <= rc.b && Pasting(rc, words, y, src, target)
      {
        src := PasteNextRow(rc, data, y, src, words, target);
        y := y + 1;
      }
    }

    /** The rows before `y` have been pasted from the data before `src`. */
    ghost predicate Pasting(rc: Rect, words: seq<uint32>, y: nat, src: nat, target: seq<uint32>)
      requires Within(rc, width, height) && rc.t <= y <= rc.b
      reads this, pixels
    {
      src == 4 * RowStart(rc.r - rc.l, y - rc.t) && PasteLeft(pixels[..], width, rc, words, y, target)
    }

    method PasteNextRow(rc: Rect, data: seq<byte>, y: nat, start: nat, ghost words: seq<uint32>,
                        ghost target: seq<uint32>)
      returns (src: nat)
      requires Within(rc, width, height) && |data| % 4 == 0 && words == WordsOf(data)
      requires rc.t <= y < rc.b && Pasting(rc, words, y, start, target)
      modifies pixels
      ensures Pasting(rc, words, y + 1, src, target)
    {
      ghost var before, first := pixels[..], RowStart(rc.r - rc.l, y - rc.t);
      PasteRowReady(before, width, rc, words, y, target);
      var at := RowOffset(width, y);
      src := PasteOneRow(at + rc.l, rc.r - rc.l, data, start, words, first);
      PasteLeftStep(before, pixels[..], width, rc, words, y, target);
    }

    /** `data` is None for a null pointer. */
    method ApplyDirtyRect(frame: uint32, rc: Rect, data: Option<seq<byte>>) returns (r: ApplyResult)
      requires Valid()
      modifies this`lastFrameSeq, pixels
      ensures Valid()
      ensures data.None? ==> r == BadLength && View() == old(View())
      ensures data.Some? ==> (r, View()) == ApplyRect(old(View()), frame, rc, data.value)
    {
      if data.None? {
        return BadLength;
      }
      if frame < lastFrameSeq {
        return StaleFrame;
      }
      if rc.l < 0 || rc.t < 0 || rc.r > width || rc.b > height || IsEmpty(rc) {
        return BadRect;
      }
      var expected := PixelBytesOf(rc.r - rc.l, rc.b - rc.t);
      if |data.value| != expected {
        return BadLength;
      }
      PasteRows(rc, data.value);
      lastFrameSeq := frame;
      return OK;
    }

    method ApplyPixelDataBody(body: Option<seq<byte>>) returns (r: ApplyResult)
      requires Valid()
      modifies this`lastFrameSeq, pixels
      ensures Valid()
      ensures body.None? ==> r == BadLength && View() == old(View())
      ensures body.Some? ==> (r, View()) == ApplyBody(old(View()), body.value)
    {
      if body.None? || |body.value| < BODY_HEADER {
        return BadLength;
      }
      var v := ReadFields(body.value);
      if v[5] != |body.value| - BODY_HEADER {
        return BadLength;
      }
      var rc := Rect(ToInt32(v[1]), ToInt32(v[2]), ToInt32(v[3]), ToInt32(v[4]));
      r := ApplyDirtyRect(v[0], rc, Some(body.value[BODY_HEADER..]));
    }
  }

  /** Alpha, red, green and blue make one colour. */
  method ReadPixel(data: seq<byte>, src: nat, ghost k: nat) returns (v: uint32)
    requires |data| % 4 == 0 && src == 4 * k && src + 4 <= |data|
    ensures v == WordsOf(data)[k]
  {
    WordAt(data, k);
    v := U32(data[src], data[src + 1], data[src + 2], data[src + 3]);
  }

  /** Pasting the rows from `y` on is all that is left to do. */
  ghost predicate PasteLeft(px: seq<uint32>, w: nat, rc: Rect, words: seq<uint32>, y: nat, target: seq<uint32>)
    requires 0 <= rc.l <= rc.r <= w && 0 <= rc.t <= y <= rc.b
  {
    var done := RowStart(rc.r - rc.l, y - rc.t);
    && RowStart(w, rc.b) <= |px| && done <= |words| && |words| - done == RowStart(rc.r - rc.l, rc.b - y)
    && target == Paste(px, w, rc.l, rc.r, y, rc.b, words[done..])
  }

  lemma PasteStart(px: seq<uint32>, w: nat, h: nat, rc: Rect, words: seq<uint32>) returns (target: seq<uint32>)
    requires Within(rc, w, h) && |px| == RowStart(w, h) && |words| == RowStart(rc.r - rc.l, rc.b - rc.t)
    ensures RowStart(w, rc.b) <= |px| && target == Paste(px, w, rc.l, rc.r, rc.t, rc.b, words)
    ensures PasteLeft(px, w, rc, words, rc.t, target)
  {
    RowsUpTo(w, rc.b, h);
    target := Paste(px, w, rc.l, rc.r, rc.t, rc.b, words);
    assert words[0..] == words;
  }

  lemma PasteDone(px: seq<uint32>, w: nat, rc: Rect, words: seq<uint32>, target: seq<uint32>)
    requires 0 <= rc.l <= rc.r <= w && 0 <= rc.t <= rc.b && PasteLeft(px, w, rc, words, rc.b, target)
    ensures px == target
  {
  }

  lemma PasteRowReady(px: seq<uint32>, w: nat, rc: Rect, words: seq<uint32>, y: nat, target: seq<uint32>)
    requires 0 <= rc.l < rc.r <= w && 0 <= rc.t <= y < rc.b && PasteLeft(px, w, rc, words, y, target)
    ensures var k, done := rc.r - rc.l, RowStart(rc.r - rc.l, y - rc.t);
      done + k <= |words| && RowStart(w, y) + w <= |px| && RowStart(k, y + 1 - rc.t) == done + k
  {
    RowsOrdered(w, y, rc.b);
  }

  lemma PasteLeftStep(px: seq<uint32>, q: seq<uint32>, w: nat, rc: Rect, words: seq<uint32>, y: nat,
                      target: seq<uint32>)
    requires 0 <= rc.l < rc.r <= w && 0 <= rc.t <= y < rc.b && PasteLeft(px, w, rc, words, y, target)
    requires var k, done := rc.r - rc.l, RowStart(rc.r - rc.l, y - rc.t);
      done + k <= |words| && RowStart(w, y) + w <= |px|
          && q == PasteRow(px, RowStart(w, y) + rc.l, words[done..done + k])
    ensures PasteLeft(q, w, rc, words, y + 1, target)
  {
    var k, done := rc.r - rc.l, RowStart(rc.r - rc.l, y - rc.t);
    RowsOrdered(w, y, rc.b);
    SliceSplit(words, done, k);
    TakeDrop(words[done..done + k], words[done + k..]);
  }

  /** The six fields, each read with shifts. */
  method ReadFields(body: seq<byte>) returns (v: seq<uint32>)
    requires |body| >= BODY_HEADER
    ensures |v| == 6 && v == Fields(body)
  {
    v := [U32(body[0], body[1], body[2], body[3]), U32(body[4], body[5], body[6], body[7]),
          U32(body[8], body[9], body[10], body[11]), U32(body[12], body[13], body[14], body[15]),
          U32(body[16], body[17], body[18], body[19]), U32(body[20], body[21], body[22], body[23])];
    FieldsFromBytes(body);
  }

  lemma FieldsFromBytes(body: seq<byte>)
    requires |body| >= BODY_HEADER
    ensures var v := Fields(body);
      && v[0] == U32(body[0], body[1], body[2], body[3]) && v[1] == U32(body[4], body[5], body[6], body[7])
      && v[2] == U32(body[8], body[9], body[10], body[11]) && v[3] == U32(body[12], body[13], body[14], body[15])
      && v[4] == U32(body[16], body[17], body[18], body[19]) && v[5] == U32(body[20], body[21], body[22], body[23])
  {
    OneField(body, 0);
    OneField(body, 1);
    OneField(body, 2);
    OneField(body, 3);
    OneField(body, 4);
    OneField(body, 5);
  }

  lemma OneField(body: seq<byte>, i: nat)
    requires |body| >= BODY_HEADER && i < 6
    ensures Fields(body)[i] == U32(body[4 * i], body[4 * i + 1], body[4 * i + 2], body[4 * i + 3])
  {
    var v := Fields(body);
    FieldsSize();
    FieldBytesOfValues(body, FIELDS);
    assert forall j :: 0 <= j < 6 ==> FIELDS[j] == 4;
    FieldAt(v, FIELDS, i);
    FieldFromBytes(v[i], body[..BODY_HEADER][4 * i..4 * i + 4]);
  }

  /** Where all fields are four bytes wide, field `i` starts at byte 4 i. */
  lemma {:induction false} FieldAt(values: seq<nat>, widths: seq<nat>, i: nat)
    requires |values| == |widths| && i < |values| && forall j :: 0 <= j < |widths| ==> widths[j] == 4
    ensures 4 * i + 4 <= |FieldBytes(values, widths)|
          && FieldBytes(values, widths)[4 * i..4 * i + 4] == BeBytes(values[i], 4)
  {
    var first, later := BeBytes(values[0], 4), FieldBytes(values[1..], widths[1..]);
    if i == 0 {
      TakeDrop(first, later);
    } else {
      FieldAt(values[1..], widths[1..], i - 1);
      SliceShift(first, later, 4 * (i - 1), 4 * (i - 1) + 4);
    }
  }

  lemma FieldFromBytes(v: nat, s: seq<byte>)
    requires v < 0x1_0000_0000 && s == BeBytes(v, 4)
    ensures v == U32(s[0], s[1], s[2], s[3])
  {
    assert Pow256(4) == 0x1_0000_0000;
    BeValueOfBytes(v, 4);
    BeValue32(s);
  }

  function Blank(width: int, height: int, fill: uint32): Client {
    var w, h := if width <= 0 then 1 else width, if height <= 0 then 1 else height;
    Client(w, h, 0, seq(RowStart(w, h), _ => fill))
  }

  lemma PasteRowNext(px: seq<uint32>, at: nat, words: seq<uint32>, first: nat, x: nat)
    requires first + x < |words| && at + x < |px|
    ensures PasteRow(px, at, words[first..first + x])[at + x := words[first + x]] ==
          PasteRow(px, at, words[first..first + x + 1])
  {
    assert words[first..first + x + 1] == words[first..first + x] + [words[first + x]];
  }

  /// The body, byte by byte
  /// ----------------------

  lemma FieldOnBytes(body: seq<byte>, i: nat)
    requires |body| >= 24 && i < 6
    ensures Fields(body)[i] == BeValue(body[4 * i..4 * i + 4])
  {
    OneField(body, i);
    BeValue32(body[4 * i..4 * i + 4]);
  }

  lemma PixelOnBytes(body: seq<byte>, k: nat)
    requires |body| >= 24 && (|body| - 24) % 4 == 0 && 24 + 4 * k + 4 <= |body|
    ensures WordsOf(body[24..])[k] == BeValue(body[24 + 4 * k..28 + 4 * k])
  {
    WordAt(body[24..], k);
    BeValue32(body[24 + 4 * k..28 + 4 * k]);
  }

  /** On the wire: the frame number, then left, top, right and bottom, then the data length, four bytes each and
      big-endian, and then the pixels. */
  lemma BodyLayout(frame: uint32, rc: Rect, words: seq<uint32>)
    requires Int32Rect(rc) && 4 * |words| < 0x1_0000_0000
    ensures var body := PixelBody(frame, rc, words);
      && |body| == 24 + 4 * |words|
      && BeValue(body[0..4]) == frame && BeValue(body[4..8]) == rc.l && BeValue(body[8..12]) == rc.t
      && BeValue(body[12..16]) == rc.r && BeValue(body[16..20]) == rc.b && BeValue(body[20..24]) == |body| - 24
      && forall k :: 0 <= k < |words| ==> BeValue(body[24 + 4 * k..28 + 4 * k]) == words[k]
  {
    var body := PixelBody(frame, rc, words);
    BodyFields(frame, rc, words, body);
    FieldOnBytes(body, 0);
    FieldOnBytes(body, 1);
    FieldOnBytes(body, 2);
    FieldOnBytes(body, 3);
    FieldOnBytes(body, 4);
    FieldOnBytes(body, 5);
    WordsOfPixels(words);
    forall k | 0 <= k < |words| ensures BeValue(body[24 + 4 * k..28 + 4 * k]) == words[k] {
      PixelOnBytes(body, k);
    }
  }

  /** Where a cell of the picture stands: row by row, left to right. */
  lemma CellIndex(px: seq<uint32>, w: nat, h: nat, x: nat, y: nat, i: int)
    requires x < w && y < h && RowStart(w, h) <= |px| && i == RowStart(w, y) + x
    ensures 0 <= i < |px| && At(px, w, x, y) == px[i]
  {
    RowsOrdered(w, y, h);
  }

  lemma CropIndex(px: seq<uint32>, stride: nat, rc: Rect, x: nat, y: nat, i: int, k: int)
    requires Packable(px, stride, rc) && Inside(rc, x, y)
    requires i == RowStart(stride, y) + x && k == RowStart(rc.r - rc.l, y - rc.t) + (x - rc.l)
    ensures 0 <= k < |Crop(px, stride, rc.l, rc.r, rc.t, rc.b)| && 0 <= i < |px|
    ensures Crop(px, stride, rc.l, rc.r, rc.t, rc.b)[k] == px[i]
  {
    CropAt(px, stride, rc.l, rc.r, rc.t, rc.b, x, y);
    CellIndex(Crop(px, stride, rc.l, rc.r, rc.t, rc.b), rc.r - rc.l, rc.b - rc.t, x - rc.l, y - rc.t, k);
    CellIndex(px, stride, rc.b, x, y, i);
  }

  lemma WordOnWire(frame: uint32, rc: Rect, words: seq<uint32>, k: nat)
    requires Int32Rect(rc) && 4 * |words| < 0x1_0000_0000 && k < |words|
    ensures 28 + 4 * k <= |PixelBody(frame, rc, words)|
    ensures BeValue(PixelBody(frame, rc, words)[24 + 4 * k..28 + 4 * k]) == words[k]
  {
    BodyLayout(frame, rc, words);
  }

  /** A cell of the rectangle goes out in its place among the rectangle's own rows. */
  lemma CellOnWire(px: seq<uint32>, stride: nat, rc: Rect, frame: uint32, x: nat, y: nat)
    requires Packable(px, stride, rc) && Inside(rc, x, y)
    ensures var k := (y - rc.t) * (rc.r - rc.l) + (x - rc.l);
      var body := PixelBody(frame, rc, Crop(px, stride, rc.l, rc.r, rc.t, rc.b));
      && 0 <= k && 28 + 4 * k <= |body| && 0 <= y * stride + x < |px|
      && BeValue(body[24 + 4 * k..28 + 4 * k]) == px[y * stride + x]
  {
    var i, k := RowStart(stride, y) + x, RowStart(rc.r - rc.l, y - rc.t) + (x - rc.l);
    RowStartIsProduct(stride, y);
    RowStartIsProduct(rc.r - rc.l, y - rc.t);
    CropIndex(px, stride, rc, x, y, i, k);
    WordOnWire(frame, rc, Crop(px, stride, rc.l, rc.r, rc.t, rc.b), k);
  }

  /** A signed number, from its four bytes. */
  predicate SignedOn(v: int, s: seq<byte>) {
    v == if BeValue(s) < 0x8000_0000 then BeValue(s) else BeValue(s) - 0x1_0000_0000
  }

  /** These four bytes each give the rectangle. */
  predicate RectOn(rc: Rect, body: seq<byte>)
    requires |body| >= 24
  {
    SignedOn(rc.l, body[4..8]) && SignedOn(rc.t, body[8..12]) && SignedOn(rc.r, body[12..16])
    && SignedOn(rc.b, body[16..20])
  }

  lemma FieldsOnBytes(body: seq<byte>, rc: Rect)
    requires |body| >= 24 && RectOn(rc, body)
    ensures RectOf(Fields(body)) == rc
    ensures Fields(body)[0] == BeValue(body[0..4]) && Fields(body)[5] == BeValue(body[20..24])
  {
    FieldOnBytes(body, 0);
    FieldOnBytes(body, 1);
    FieldOnBytes(body, 2);
    FieldOnBytes(body, 3);
    FieldOnBytes(body, 4);
    FieldOnBytes(body, 5);
  }

  /** What the client answers to any bytes at all. */
  lemma VerdictOnBytes(c: Client, body: seq<byte>, rc: Rect)
    requires Sized(c) && (|body| >= 24 ==> RectOn(rc, body))
    ensures ApplyBody(c, body).0 ==
            if |body| < 24 || BeValue(body[20..24]) != |body| - 24 then BadLength
            else if BeValue(body[0..4]) < c.last then StaleFrame
            else if rc.l < 0 || rc.t < 0 || rc.r > c.width || rc.b > c.height then BadRect
            else if rc.l >= rc.r || rc.t >= rc.b then BadRect
            else if |body| - 24 != 4 * ((rc.b - rc.t) * (rc.r - rc.l)) then BadLength
            else OK
  {
    if |body| >= 24 {
      FieldsOnBytes(body, rc);
      if rc.l < rc.r && rc.t < rc.b {
        RowStartIsProduct(rc.r - rc.l, rc.b - rc.t);
      }
    }
  }

  lemma PasteIndex(px: seq<uint32>, w: nat, h: nat, rc: Rect, words: seq<uint32>, x: nat, y: nat, i: int, k: int)
    requires Within(rc, w, h) && |px| == RowStart(w, h) && |words| == RowStart(rc.r - rc.l, rc.b - rc.t)
    requires x < w && y < h && i == RowStart(w, y) + x
    requires rc.l <= x < rc.r && rc.t <= y < rc.b ==> k == RowStart(rc.r - rc.l, y - rc.t) + (x - rc.l)
    ensures RowStart(w, rc.b) <= |px| && 0 <= i < |px|
    ensures rc.l <= x < rc.r && rc.t <= y < rc.b ==>
              0 <= k < |words| && Paste(px, w, rc.l, rc.r, rc.t, rc.b, words)[i] == words[k]
    ensures !(rc.l <= x < rc.r && rc.t <= y < rc.b) ==>
              Paste(px, w, rc.l, rc.r, rc.t, rc.b, words)[i] == px[i]
  {
    RowsUpTo(w, rc.b, h);
    PasteAt(px, w, rc.l, rc.r, rc.t, rc.b, words, x, y);
    CellIndex(px, w, h, x, y, i);
    CellIndex(Paste(px, w, rc.l, rc.r, rc.t, rc.b, words), w, h, x, y, i);
    if rc.l <= x < rc.r && rc.t <= y < rc.b {
      CellIndex(words, rc.r - rc.l, rc.b - rc.t, x - rc.l, y - rc.t, k);
    }
  }

  lemma AppliedIs(c: Client, body: seq<byte>, rc: Rect)
    requires Sized(c) && |body| >= 24 && RectOn(rc, body) && ApplyBody(c, body).0 == OK
    ensures Within(rc, c.width, c.height) && RowStart(c.width, rc.b) <= |c.px|
    ensures |body| - 24 == 4 * RowStart(rc.r - rc.l, rc.b - rc.t)
    ensures ApplyBody(c, body).1 == Client(c.width, c.height, BeValue(body[0..4]),
        Paste(c.px, c.width, rc.l, rc.r, rc.t, rc.b, WordsOf(body[24..])))
  {
    FieldsOnBytes(body, rc);
    RowsUpTo(c.width, rc.b, c.height);
  }

  lemma CellApplied(c: Client, body: seq<byte>, rc: Rect, x: nat, y: nat, i: int, k: int)
    requires Sized(c) && |body| >= 24 && RectOn(rc, body) && ApplyBody(c, body).0 == OK && x < c.width && y < c.height
    requires i == RowStart(c.width, y) + x
    requires rc.l <= x < rc.r && rc.t <= y < rc.b ==> k == RowStart(rc.r - rc.l, y - rc.t) + (x - rc.l)
    ensures 0 <= i < |c.px| && |ApplyBody(c, body).1.px| == |c.px|
    ensures if rc.l <= x < rc.r && rc.t <= y < rc.b
            then 0 <= k && 28 + 4 * k <= |body|
                && ApplyBody(c, body).1.px[i] == BeValue(body[24 + 4 * k..28 + 4 * k])
            else ApplyBody(c, body).1.px[i] == c.px[i]
  {
    AppliedIs(c, body, rc);
    PasteIndex(c.px, c.width, c.height, rc, WordsOf(body[24..]), x, y, i, k);
    if rc.l <= x < rc.r && rc.t <= y < rc.b {
      PixelOnBytes(body, k);
    }
  }

  /** An accepted body sets the rectangle's cells from its bytes, row by row, and no others. */
  lemma CellFromBytes(c: Client, body: seq<byte>, rc: Rect, x: nat, y: nat)
    requires Sized(c) && |body| >= 24 && RectOn(rc, body) && ApplyBody(c, body).0 == OK && x < c.width && y < c.height
    ensures var c', i, k := ApplyBody(c, body).1, y * c.width + x, (y - rc.t) * (rc.r - rc.l) + (x - rc.l);
      && c'.last == BeValue(body[0..4]) && c'.width == c.width && c'.height == c.height
      && 0 <= i < |c.px| == |c'.px|
      && (if rc.l <= x < rc.r && rc.t <= y < rc.b
          then 0 <= k && 28 + 4 * k <= |body| && c'.px[i] == BeValue(body[24 + 4 * k..28 + 4 * k])
          else c'.px[i] == c.px[i])
  {
    var i, k := y * c.width + x, (y - rc.t) * (rc.r - rc.l) + (x - rc.l);
    RowStartIsProduct(c.width, y);
    if rc.l <= x < rc.r && rc.t <= y < rc.b {
      RowStartIsProduct(rc.r - rc.l, y - rc.t);
    }
    CellApplied(c, body, rc, x, y, i, k);
    AppliedIs(c, body, rc);
  }
}
