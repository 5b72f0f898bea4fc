/** The 2048 board: four directions over one line algorithm, spawning, game over, and the laws
    every game keeps however it is played and whatever is spawned. */
module Board2048 {
  import opened Protocol
  import opened LineMerge

  const CELLS: nat := 16

  type Cells = b: seq<uint32> | |b| == CELLS witness seq(16, _ => 0)

  datatype Direction = Left | Right | Up | Down

  datatype GameState = Playing | GameOver

  /** The cell at place `k` of working line `l`; place 0 is where tiles slide to. */
  function Index(d: Direction, l: nat, k: nat): (p: nat)
    requires l < SIZE && k < SIZE
    ensures p < CELLS
  {
    match d
    case Left => 4 * l + k
    case Right => 4 * l + 3 - k
    case Up => 4 * k + l
    case Down => 4 * (3 - k) + l
  }

  function LineOf(d: Direction, p: nat): (l: nat)
    requires p < CELLS
    ensures l < SIZE
  {
    if d == Left || d == Right then p / 4 else p % 4
  }

  function PlaceOf(d: Direction, p: nat): (k: nat)
    requires p < CELLS
    ensures k < SIZE
  {
    match d
    case Left => p % 4
    case Right => 3 - p % 4
    case Up => p / 4
    case Down => 3 - p / 4
  }

  lemma IndexInverse(d: Direction, l: nat, k: nat)
    requires l < SIZE && k < SIZE
    ensures LineOf(d, Index(d, l, k)) == l && PlaceOf(d, Index(d, l, k)) == k
  {
  }

  lemma PlaceInverse(d: Direction, p: nat)
    requires p < CELLS
    ensures Index(d, LineOf(d, p), PlaceOf(d, p)) == p
  {
  }

  function GetLine(b: Cells, d: Direction, l: nat): Line
    requires l < SIZE
  {
    [b[Index(d, l, 0)], b[Index(d, l, 1)], b[Index(d, l, 2)], b[Index(d, l, 3)]]
  }

  /** The board after all four lines slide, before a tile is spawned. */
  function Slid(b: Cells, d: Direction): Cells {
    seq(CELLS, p requires 0 <= p < CELLS => Slide(GetLine(b, d, LineOf(d, p)))[PlaceOf(d, p)])
  }

  lemma LineAt(b: Cells, d: Direction, l: nat, k: nat)
    requires l < SIZE && k < SIZE
    ensures GetLine(b, d, l)[k] == b[Index(d, l, k)]
  {
  }

  lemma SlidCell(b: Cells, d: Direction, l: nat, k: nat)
    requires l < SIZE && k < SIZE
    ensures GetLine(Slid(b, d), d, l)[k] == Slide(GetLine(b, d, l))[k]
  {
    IndexInverse(d, l, k);
    LineAt(Slid(b, d), d, l, k);
  }

  lemma SlidLine(b: Cells, d: Direction, l: nat)
    requires l < SIZE
    ensures GetLine(Slid(b, d), d, l) == Slide(GetLine(b, d, l))
  {
    SlidCell(b, d, l, 0);
    SlidCell(b, d, l, 1);
    SlidCell(b, d, l, 2);
    SlidCell(b, d, l, 3);
    FourCells(GetLine(Slid(b, d), d, l), Slide(GetLine(b, d, l)));
  }

  lemma FourCells(s: Line, t: Line)
    requires s[0] == t[0] && s[1] == t[1] && s[2] == t[2] && s[3] == t[3]
    ensures s == t
  {
  }

  /** A board is determined by its lines. */
  lemma SameLines(b: Cells, c: Cells, d: Direction)
    requires forall l: nat :: l < SIZE ==> GetLine(b, d, l) == GetLine(c, d, l)
    ensures b == c
  {
    forall p | 0 <= p < CELLS ensures b[p] == c[p] {
      PlaceInverse(d, p);
      LineAt(b, d, LineOf(d, p), PlaceOf(d, p));
      LineAt(c, d, LineOf(d, p), PlaceOf(d, p));
    }
  }

  /** A board changes exactly when one of its lines does. */
  lemma ChangedByLine(b: Cells, d: Direction)
    ensures Slid(b, d) != b <==> exists l: nat :: l < SIZE && Slide(GetLine(b, d, l)) != GetLine(b, d, l)
  {
    if forall l: nat :: l < SIZE ==> Slide(GetLine(b, d, l)) == GetLine(b, d, l) {
      forall l: nat | l < SIZE ensures GetLine(Slid(b, d), d, l) == GetLine(b, d, l) {
        SlidLine(b, d, l);
      }
      SameLines(Slid(b, d), b, d);
    } else {
      var l: nat :| l < SIZE && Slide(GetLine(b, d, l)) != GetLine(b, d, l);
      SlidLine(b, d, l);
    }
  }

  /// What the directions mean
  /// ------------------------

  /** The board is stored row by row from the top, each row from the left. */
  function Row(b: Cells, y: nat): Line
    requires y < 4
  {
    [b[4 * y], b[4 * y + 1], b[4 * y + 2], b[4 * y + 3]]
  }

  function Column(b: Cells, x: nat): Line
    requires x < 4
  {
    [b[x], b[x + 4], b[x + 8], b[x + 12]]
  }

  function Backwards(line: Line): Line {
    [line[3], line[2], line[1], line[0]]
  }

  lemma LinesAreRows(b: Cells, l: nat)
    requires l < 4
    ensures GetLine(b, Left, l) == Row(b, l) && GetLine(b, Right, l) == Backwards(Row(b, l))
    ensures GetLine(b, Up, l) == Column(b, l) && GetLine(b, Down, l) == Backwards(Column(b, l))
  {
  }

  /** Cell by cell: Left slides every row towards its left end, Right towards its right end, Up every column
      towards its top and Down towards its bottom. */
  lemma SlidIsOnCells(b: Cells, i: nat)
    requires i < 4
    ensures Row(Slid(b, Left), i) == Slide(Row(b, i))
    ensures Backwards(Row(Slid(b, Right), i)) == Slide(Backwards(Row(b, i)))
    ensures Column(Slid(b, Up), i) == Slide(Column(b, i))
    ensures Backwards(Column(Slid(b, Down), i)) == Slide(Backwards(Column(b, i)))
  {
    SlidLine(b, Left, i);
    SlidLine(b, Right, i);
    SlidLine(b, Up, i);
    SlidLine(b, Down, i);
    LinesAreRows(b, i);
    LinesAreRows(Slid(b, Left), i);
    LinesAreRows(Slid(b, Right), i);
    LinesAreRows(Slid(b, Up), i);
    LinesAreRows(Slid(b, Down), i);
  }

  /** Left, on slices: each row of four cells is slid to its front. */
  lemma LeftSlidesRows(b: Cells, y: nat)
    requires y < 4
    ensures Slid(b, Left)[4 * y..4 * y + 4] == Slide(b[4 * y..4 * y + 4])
  {
    SlidIsOnCells(b, y);
    RowIsSlice(b, y);
    RowIsSlice(Slid(b, Left), y);
  }

  lemma RowIsSlice(b: Cells, y: nat)
    requires y < 4
    ensures Row(b, y) == b[4 * y..4 * y + 4]
  {
  }

  /// One direction is enough
  /// -----------------------

  function Mirror(b: Cells): Cells {
    seq(CELLS, p requires 0 <= p < CELLS => b[4 * (p / 4) + 3 - p % 4])
  }

  function Transpose(b: Cells): Cells {
    seq(CELLS, p requires 0 <= p < CELLS => b[4 * (p % 4) + p / 4])
  }

  lemma MirrorLines(b: Cells, l: nat)
    requires l < SIZE
    ensures GetLine(Mirror(b), Left, l) == GetLine(b, Right, l)
    ensures GetLine(Mirror(b), Right, l) == GetLine(b, Left, l)
  {
  }

  lemma TransposeLines(b: Cells, l: nat)
    requires l < SIZE
    ensures GetLine(Transpose(b), Left, l) == GetLine(b, Up, l)
    ensures GetLine(Transpose(b), Up, l) == GetLine(b, Left, l)
    ensures GetLine(Transpose(b), Right, l) == GetLine(b, Down, l)
    ensures GetLine(Transpose(b), Down, l) == GetLine(b, Right, l)
  {
  }

  lemma RightIsMirrored(b: Cells)
    ensures Slid(b, Right) == Mirror(Slid(Mirror(b), Left))
  {
    var x := Slid(Mirror(b), Left);
    forall l: nat | l < SIZE ensures GetLine(Slid(b, Right), Right, l) == GetLine(Mirror(x), Right, l) {
      MirrorLines(b, l);
      MirrorLines(x, l);
      SlidLine(b, Right, l);
      SlidLine(Mirror(b), Left, l);
    }
    SameLines(Slid(b, Right), Mirror(x), Right);
  }

  lemma UpIsTransposed(b: Cells)
    ensures Slid(b, Up) == Transpose(Slid(Transpose(b), Left))
  {
    var x := Slid(Transpose(b), Left);
    forall l: nat | l < SIZE ensures GetLine(Slid(b, Up), Up, l) == GetLine(Transpose(x), Up, l) {
      TransposeLines(b, l);
      TransposeLines(x, l);
      SlidLine(b, Up, l);
      SlidLine(Transpose(b), Left, l);
    }
    SameLines(Slid(b, Up), Transpose(x), Up);
  }

  lemma DownIsTransposed(b: Cells)
    ensures Slid(b, Down) == Transpose(Slid(Transpose(b), Right))
  {
    var x := Slid(Transpose(b), Right);
    forall l: nat | l < SIZE ensures GetLine(Slid(b, Down), Down, l) == GetLine(Transpose(x), Down, l) {
      TransposeLines(b, l);
      TransposeLines(x, l);
      SlidLine(b, Down, l);
      SlidLine(Transpose(b), Right, l);
    }
    SameLines(Slid(b, Down), Transpose(x), Down);
  }

  /** Right is left in the mirror; up and down are left and right of the transpose: the rules need
      only be read in one direction. */
  lemma DirectionsAreConjugate(b: Cells)
    ensures Slid(b, Right) == Mirror(Slid(Mirror(b), Left))
    ensures Slid(b, Up) == Transpose(Slid(Transpose(b), Left))
    ensures Slid(b, Down) == Transpose(Mirror(Slid(Mirror(Transpose(b)), Left)))
  {
    RightIsMirrored(b);
    UpIsTransposed(b);
    DownIsTransposed(b);
    RightIsMirrored(Transpose(b));
  }

  /// Sums over the board
  /// -------------------

  lemma SumCells(b: Cells, f: uint32 -> int)
    ensures Sum(b, f) ==
            f(b[0]) + f(b[1]) + f(b[2]) + f(b[3]) + f(b[4]) + f(b[5]) + f(b[6]) + f(b[7])
            + f(b[8]) + f(b[9]) + f(b[10]) + f(b[11]) + f(b[12]) + f(b[13]) + f(b[14]) + f(b[15])
  {
    assert b == (b[0..4] + b[4..8]) + (b[8..12] + b[12..16]);
    SumAppend(b[0..4] + b[4..8], b[8..12] + b[12..16], f);
    SumAppend(b[0..4], b[4..8], f);
    SumAppend(b[8..12], b[12..16], f);
    SumFour(b[0..4], f);
    SumFour(b[4..8], f);
    SumFour(b[8..12], f);
    SumFour(b[12..16], f);
  }

  /** A sum over the board is the sum over its lines, whichever way they run. */
  lemma SumByLines(b: Cells, d: Direction, f: uint32 -> int)
    ensures Sum(b, f) ==
            Sum(GetLine(b, d, 0), f) + Sum(GetLine(b, d, 1), f) + Sum(GetLine(b, d, 2), f) + Sum(GetLine(b, d, 3), f)
  {
    SumCells(b, f);
    SumFour(GetLine(b, d, 0), f);
    SumFour(GetLine(b, d, 1), f);
    SumFour(GetLine(b, d, 2), f);
    SumFour(GetLine(b, d, 3), f);
  }

  lemma {:induction false} SumUpdate(s: seq<uint32>, i: nat, v: uint32, f: uint32 -> int)
    requires i < |s|
    ensures Sum(s[i := v], f) == Sum(s, f) - f(s[i]) + f(v)
  {
    if i == 0 {
      assert s[0 := v][1..] == s[1..];
    } else {
      SumUpdate(s[1..], i - 1, v, f);
      assert s[i := v][1..] == s[1..][i - 1 := v];
    }
  }

  function LineGain(b: Cells, d: Direction, l: nat): nat
    requires l < SIZE
  {
    Gain(Pack(GetLine(b, d, l)))
  }

  lemma LineIsGood(b: Cells, d: Direction, l: nat)
    requires Tiles(b) && Small(b) && l < SIZE
    ensures Tiles(GetLine(b, d, l)) && Small(GetLine(b, d, l))
  {
  }

  lemma LinesAreGood(b: Cells, d: Direction)
    requires Tiles(b) && Small(b)
    ensures forall l: nat :: l < SIZE ==> Tiles(LinesOf(b, d)[l]) && Small(LinesOf(b, d)[l])
  {
    forall l: nat | l < SIZE ensures Tiles(LinesOf(b, d)[l]) && Small(LinesOf(b, d)[l]) {
      LineOfBoard(b, d, l);
      LineIsGood(b, d, l);
    }
  }

  function LinesOf(b: Cells, d: Direction): (lines: seq<Line>)
    ensures |lines| == SIZE
  {
    [GetLine(b, d, 0), GetLine(b, d, 1), GetLine(b, d, 2), GetLine(b, d, 3)]
  }

  function GainsOf(lines: seq<Line>): nat {
    if lines == [] then 0 else GainsOf(lines[..|lines| - 1]) + Gain(Pack(lines[|lines| - 1]))
  }

  /** The whole score of a move. */
  function TotalGain(b: Cells, d: Direction): nat {
    GainsOf(LinesOf(b, d))
  }

  /** The last line's gain comes on top. */
  lemma GainsSnoc(lines: seq<Line>, line: Line, before: nat, after: nat)
    requires GainsOf(lines) == before && GainsOf(lines + [line]) == after
    ensures after == before + Gain(Pack(line))
  {
    assert (lines + [line])[..|lines|] == lines;
  }

  lemma TakeOneMore<T>(s: seq<T>, k: nat)
    requires k < |s|
    ensures s[..k + 1] == s[..k] + [s[k]]
  {
  }

  lemma TakeAll<T>(s: seq<T>)
    ensures s[..|s|] == s && s[..0] == []
  {
  }

  lemma GainsOfFour(lines: seq<Line>)
    requires |lines| == 4
    ensures GainsOf(lines) == Gain(Pack(lines[0])) + Gain(Pack(lines[1])) + Gain(Pack(lines[2])) + Gain(Pack(lines[3]))
  {
    var a, b, c := lines[..1], lines[..2], lines[..3];
    TakeOneMore(lines, 0);
    TakeOneMore(lines, 1);
    TakeOneMore(lines, 2);
    TakeOneMore(lines, 3);
    TakeAll(lines);
    GainsSnoc([], lines[0], 0, GainsOf(a));
    GainsSnoc(a, lines[1], GainsOf(a), GainsOf(b));
    GainsSnoc(b, lines[2], GainsOf(b), GainsOf(c));
    GainsSnoc(c, lines[3], GainsOf(c), GainsOf(lines));
  }

  lemma GainOfLines(b: Cells, d: Direction)
    ensures TotalGain(b, d) == LineGain(b, d, 0) + LineGain(b, d, 1) + LineGain(b, d, 2) + LineGain(b, d, 3)
  {
    GainsOfFour(LinesOf(b, d));
  }

  function SlideEach(lines: seq<Line>): (r: seq<Line>)
    ensures |r| == |lines|
  {
    if lines == [] then [] else SlideEach(lines[..|lines| - 1]) + [Slide(lines[|lines| - 1])]
  }

  lemma {:induction false} SlideEachAt(lines: seq<Line>, l: nat)
    requires l < |lines|
    ensures SlideEach(lines)[l] == Slide(lines[l])
  {
    if l < |lines| - 1 {
      SlideEachAt(lines[..|lines| - 1], l);
    }
  }

  lemma SlidLineOf(b: Cells, d: Direction, l: nat)
    requires l < SIZE
    ensures LinesOf(Slid(b, d), d)[l] == SlideEach(LinesOf(b, d))[l]
  {
    SlidLine(b, d, l);
    SlideEachAt(LinesOf(b, d), l);
    LineOfBoard(b, d, l);
    LineOfBoard(Slid(b, d), d, l);
  }

  lemma SlidLinesOf(b: Cells, d: Direction)
    ensures LinesOf(Slid(b, d), d) == SlideEach(LinesOf(b, d))
  {
    SlidLineOf(b, d, 0);
    SlidLineOf(b, d, 1);
    SlidLineOf(b, d, 2);
    SlidLineOf(b, d, 3);
    SameFour(LinesOf(Slid(b, d), d), SlideEach(LinesOf(b, d)));
  }

  lemma SameFour(x: seq<Line>, y: seq<Line>)
    requires |x| == |y| == 4 && x[0] == y[0] && x[1] == y[1] && x[2] == y[2] && x[3] == y[3]
    ensures x == y
  {
  }

  lemma LineOfBoard(b: Cells, d: Direction, l: nat)
    requires l < SIZE
    ensures LinesOf(b, d)[l] == GetLine(b, d, l)
  {
  }

  function SumsOf(lines: seq<Line>, f: uint32 -> int): int {
    if lines == [] then 0 else SumsOf(lines[..|lines| - 1], f) + Sum(lines[|lines| - 1], f)
  }

  lemma SumsOfFour(lines: seq<Line>, f: uint32 -> int)
    requires |lines| == 4
    ensures SumsOf(lines, f) == Sum(lines[0], f) + Sum(lines[1], f) + Sum(lines[2], f) + Sum(lines[3], f)
  {
    assert lines[..3][..2] == lines[..2] && lines[..2][..1] == lines[..1] && lines[..1][..0] == [];
    assert SumsOf(lines[..1], f) == Sum(lines[0], f);
    assert SumsOf(lines[..2], f) == SumsOf(lines[..1], f) + Sum(lines[1], f);
    assert SumsOf(lines[..3], f) == SumsOf(lines[..2], f) + Sum(lines[2], f);
  }

  lemma SumIsSumsOf(b: Cells, d: Direction, f: uint32 -> int)
    ensures Sum(b, f) == SumsOf(LinesOf(b, d), f)
  {
    SumByLines(b, d, f);
    SumsOfFour(LinesOf(b, d), f);
  }

  lemma {:induction false} SlideEachSums(lines: seq<Line>)
    requires forall l :: 0 <= l < |lines| ==> Tiles(lines[l]) && Small(lines[l])
    ensures SumsOf(SlideEach(lines), Ident) == SumsOf(lines, Ident)
    ensures SumsOf(SlideEach(lines), Weight) == SumsOf(lines, Weight) + GainsOf(lines)
  {
    if lines != [] {
      var front, last := lines[..|lines| - 1], lines[|lines| - 1];
      SlideEachSums(front);
      SlideConserves(last);
      assert SlideEach(lines)[..|front|] == SlideEach(front);
    }
  }

  /** Before the spawn a move keeps the sum of the tiles, and adds exactly its score to their weight. */
  lemma SlidConserves(b: Cells, d: Direction)
    requires Tiles(b) && Small(b)
    ensures Sum(Slid(b, d), Ident) == Sum(b, Ident)
    ensures Sum(Slid(b, d), Weight) == Sum(b, Weight) + TotalGain(b, d)
  {
    SumIsSumsOf(b, d, Ident);
    SumIsSumsOf(b, d, Weight);
    SumIsSumsOf(Slid(b, d), d, Ident);
    SumIsSumsOf(Slid(b, d), d, Weight);
    SlidLinesOf(b, d);
    LinesAreGood(b, d);
    SlideEachSums(LinesOf(b, d));
  }

  lemma SlidTiles(b: Cells, d: Direction)
    requires Tiles(b) && Small(b)
    ensures Tiles(Slid(b, d))
  {
    forall p | 0 <= p < CELLS ensures Slid(b, d)[p] == 0 || IsTile(Slid(b, d)[p]) {
      LineIsGood(b, d, LineOf(d, p));
      SlideTiles(GetLine(b, d, LineOf(d, p)));
    }
  }

  /// The tile bound
  /// --------------

  /** At most 18 - k tiles are 2^k or more; so none reaches 2^18. */
  ghost predicate Bounded(b: Cells) {
    forall k :: 2 <= k <= 18 ==> Sum(b, AtLeast(k)) <= 18 - k
  }

  lemma {:induction false} CountRange(s: seq<uint32>, k: nat)
    ensures 0 <= Sum(s, AtLeast(k)) <= |s|
  {
    if s != [] {
      CountRange(s[1..], k);
    }
  }

  lemma {:induction false} NoneReaches(s: seq<uint32>, k: nat)
    requires Sum(s, AtLeast(k)) <= 0
    ensures forall i :: 0 <= i < |s| ==> s[i] < Pow2(k)
  {
    if s != [] {
      CountRange(s[1..], k);
      NoneReaches(s[1..], k);
    }
  }

  lemma PowValues()
    ensures Pow2(3) == 8 && Pow2(17) == 0x2_0000 && Pow2(18) == 0x4_0000
  {
    assert Pow2(4) == 16 && Pow2(6) == 64 && Pow2(8) == 256 && Pow2(10) == 1024;
    assert Pow2(12) == 4096 && Pow2(14) == 16384 && Pow2(16) == 65536;
  }

  lemma BoundedIsSmall(b: Cells)
    requires Bounded(b)
    ensures Small(b) && forall i :: 0 <= i < |b| ==> b[i] < Pow2(18)
  {
    NoneReaches(b, 18);
    PowValues();
  }

  /** One level of the bound: what merges lift to 2^k was counted twice at 2^(k-1). */
  lemma SlidCounts(b: Cells, d: Direction, k: nat)
    requires Tiles(b) && Small(b) && k >= 2
    ensures Sum(Slid(b, d), AtLeast(k)) <= Sum(b, AtLeast(k))
            || Sum(Slid(b, d), AtLeast(k)) <= Sum(b, AtLeast(k - 1)) - 1
  {
    forall l: nat | l < SIZE
      ensures Sum(GetLine(Slid(b, d), d, l), AtLeast(k)) <= Sum(GetLine(b, d, l), AtLeast(k))
            + Lifts(Pack(GetLine(b, d, l)), k)
      ensures 2 * Lifts(Pack(GetLine(b, d, l)), k)
            + Sum(GetLine(b, d, l), AtLeast(k)) <= Sum(GetLine(b, d, l), AtLeast(k - 1))
    {
      LineIsGood(b, d, l);
      SlidLine(b, d, l);
      SlideCounts(GetLine(b, d, l), k);
    }
    SumByLines(b, d, AtLeast(k));
    SumByLines(b, d, AtLeast(k - 1));
    SumByLines(Slid(b, d), d, AtLeast(k));
  }

  /** Sliding and then spawning a 2 or a 4 keeps the bound. */
  lemma BoundKept(b: Cells, d: Direction, cell: nat, v: uint32)
    requires Tiles(b) && Bounded(b) && cell < CELLS && Slid(b, d)[cell] == 0 && (v == 2 || v == 4)
    ensures Bounded(Slid(b, d)[cell := v])
  {
    var s := Slid(b, d);
    BoundedIsSmall(b);
    forall k | 2 <= k <= 18 ensures Sum(s[cell := v], AtLeast(k)) <= 18 - k {
      if k == 2 {
        CountRange(s[cell := v], 2);
      } else {
        PowValues();
        PowGrows(3, k);
        SlidCounts(b, d, k);
        SumUpdate(s, cell, v, AtLeast(k));
      }
    }
  }

  lemma {:induction false} PowGrows(j: nat, k: nat)
    requires j <= k
    ensures Pow2(j) <= Pow2(k)
    decreases k - j
  {
    if j < k {
      PowGrows(j, k - 1);
    }
  }

  /// The score bound
  /// ---------------

  function WeightOf(v: nat): int {
    if v <= 2 then 0 else 2 * WeightOf(v / 2) + v
  }

  /** The weight of a tile as if it had stopped at 2^k. */
  function Clipped(k: nat): uint32 -> int {
    (v: uint32) => WeightOf(if v < Pow2(k) then v else Pow2(k))
  }

  lemma {:induction false} WeightOfPow(k: nat)
    requires k >= 1
    ensures WeightOf(Pow2(k)) == (k - 1) * Pow2(k)
  {
    if k == 1 {
      assert Pow2(1) == 2;
    } else {
      WeightOfPow(k - 1);
      PowGrows(2, k);
      assert Pow2(k) == 2 * Pow2(k - 1) && Pow2(2) == 4;
      var a := Pow2(k - 1);
      assert Pow2(k) / 2 == a;
      assert WeightOf(Pow2(k)) == 2 * ((k - 2) * a) + 2 * a == (k - 1) * (2 * a);
    }
  }

  lemma {:induction false} WeightsAgree(v: uint32)
    ensures Weight(v) == WeightOf(v)
  {
    if v > 2 {
      WeightsAgree(v / 2);
    }
  }

  /** Between two neighbouring powers of two there is no tile. */
  lemma {:induction false} TileGap(v: uint32, k: nat)
    requires IsTile(v) && k >= 1 && v < Pow2(k)
    ensures v <= Pow2(k - 1)
  {
    if v > 2 && k > 1 {
      TileGap(v / 2, k - 1);
    }
  }

  /** What one more level is worth: k * 2^(k-1) for each tile that reaches it. */
  lemma ClipStep(v: uint32, k: nat)
    requires (v == 0 || IsTile(v)) && k >= 2
    ensures Clipped(k)(v) == Clipped(k - 1)(v) + k * Pow2(k - 1) * AtLeast(k)(v)
  {
    var a := Pow2(k - 1);
    assert Pow2(k) == 2 * a;
    if v >= Pow2(k) {
      WeightOfPow(k);
      WeightOfPow(k - 1);
      assert (k - 1) * (2 * a) == (k - 2) * a + k * a;
    } else if v != 0 {
      TileGap(v, k);
    }
  }

  lemma {:induction false} SumClipStep(s: seq<uint32>, k: nat)
    requires Tiles(s) && k >= 2
    ensures Sum(s, Clipped(k)) == Sum(s, Clipped(k - 1)) + k * Pow2(k - 1) * Sum(s, AtLeast(k))
  {
    if s != [] {
      ClipStep(s[0], k);
      SumClipStep(s[1..], k);
      Distribute(k * Pow2(k - 1), AtLeast(k)(s[0]), Sum(s[1..], AtLeast(k)));
    } else {
      assert k * Pow2(k - 1) * 0 == 0;
    }
  }

  lemma Distribute(c: int, x: int, y: int)
    ensures c * (x + y) == c * x + c * y
  {
  }

  /** The largest total weight the tile bound allows up to level `k`. */
  function WeightBound(k: nat): int {
    if k <= 1 then 0 else WeightBound(k - 1) + k * Pow2(k - 1) * (18 - k)
  }

  lemma {:induction false} ClippedBound(b: Cells, k: nat)
    requires Tiles(b) && Bounded(b) && 1 <= k <= 17
    ensures Sum(b, Clipped(k)) <= WeightBound(k)
  {
    if k == 1 {
      SumClipOne(b);
    } else {
      ClippedBound(b, k - 1);
      SumClipStep(b, k);
      Monotone(k * Pow2(k - 1), Sum(b, AtLeast(k)), 18 - k);
    }
  }

  lemma Monotone(c: int, x: int, y: int)
    requires c >= 0 && x <= y
    ensures c * x <= c * y
  {
  }

  lemma {:induction false} SumClipOne(s: seq<uint32>)
    ensures Sum(s, Clipped(1)) == 0
  {
    if s != [] {
      SumClipOne(s[1..]);
      var u := if s[0] < Pow2(1) then s[0] else Pow2(1);
      assert Pow2(1) == 2 && WeightOf(u) == 0;
      assert Clipped(1)(s[0]) == WeightOf(u);
    }
  }

  lemma {:induction false} SumClipAll(s: seq<uint32>)
    requires forall i :: 0 <= i < |s| ==> s[i] <= Pow2(17)
    ensures Sum(s, Weight) == Sum(s, Clipped(17))
  {
    if s != [] {
      SumClipAll(s[1..]);
      WeightsAgree(s[0]);
    }
  }

  lemma BoundedTiles(b: Cells)
    requires Tiles(b) && Bounded(b)
    ensures forall i :: 0 <= i < |b| ==> b[i] <= Pow2(17)
  {
    BoundedIsSmall(b);
    forall i | 0 <= i < |b| ensures b[i] <= Pow2(17) {
      if b[i] != 0 {
        TileGap(b[i], 18);
      }
    }
  }

  const MAX_SCORE: nat := 3932164

  lemma WeightBoundValue()
    ensures WeightBound(17) == MAX_SCORE
  {
    assert Pow2(1) == 2 && Pow2(2) == 4 && Pow2(3) == 8 && Pow2(4) == 16 && Pow2(5) == 32 && Pow2(6) == 64
        && Pow2(7) == 128;
    assert Pow2(8) == 256 && Pow2(9) == 512 && Pow2(10) == 1024 && Pow2(11) == 2048 && Pow2(12) == 4096
        && Pow2(13) == 8192;
    assert Pow2(14) == 16384 && Pow2(15) == 32768 && Pow2(16) == 65536;
    assert WeightBound(2) == 64 && WeightBound(3) == 244 && WeightBound(4) == 692 && WeightBound(5) == 1732;
    assert WeightBound(6) == 4036 && WeightBound(7) == 8964 && WeightBound(8) == 19204 && WeightBound(9) == 39940;
    assert WeightBound(10) == 80900 && WeightBound(11) == 159748 && WeightBound(12) == 307204
        && WeightBound(13) == 573444;
    assert WeightBound(14) == 1032196 && WeightBound(15) == 1769476 && WeightBound(16) == 2818052;
  }

  lemma WeightIsBounded(b: Cells)
    requires Tiles(b) && Bounded(b)
    ensures Sum(b, Weight) <= MAX_SCORE
  {
    BoundedTiles(b);
    SumClipAll(b);
    ClippedBound(b, 17);
    WeightBoundValue();
  }

  /// Game over
  /// ---------

  predicate RowPair(b: Cells, x: nat, y: nat) {
    x < 3 && y < 4 && b[4 * y + x] == b[4 * y + x + 1]
  }

  predicate ColumnPair(b: Cells, x: nat, y: nat) {
    x < 4 && y < 3 && b[4 * y + x] == b[4 * (y + 1) + x]
  }

  /** What any_move_possible looks for: a gap, or equal neighbours. */
  ghost predicate Scan(b: Cells) {
    0 in b || (exists x: nat, y: nat :: RowPair(b, x, y)) || (exists x: nat, y: nat :: ColumnPair(b, x, y))
  }

  ghost predicate CanMove(b: Cells) {
    exists d :: Slid(b, d) != b
  }

  lemma FullLineStays(b: Cells, d: Direction, l: nat)
    requires Tiles(b) && Small(b) && !Scan(b) && l < SIZE
    ensures Slide(GetLine(b, d, l)) == GetLine(b, d, l)
  {
    var line := GetLine(b, d, l);
    LineIsGood(b, d, l);
    assert !RowPair(b, 0, l) && !RowPair(b, 1, l) && !RowPair(b, 2, l);
    assert !ColumnPair(b, l, 0) && !ColumnPair(b, l, 1) && !ColumnPair(b, l, 2);
    assert line[0] in b && line[1] in b && line[2] in b && line[3] in b;
    assert line[0] != line[1] && line[1] != line[2] && line[2] != line[3];
    FullMoves(line);
  }

  lemma NoScanNoMove(b: Cells, d: Direction)
    requires Tiles(b) && Small(b) && !Scan(b)
    ensures Slid(b, d) == b
  {
    forall l: nat | l < SIZE ensures Slide(GetLine(b, d, l)) == GetLine(b, d, l) {
      FullLineStays(b, d, l);
    }
    ChangedByLine(b, d);
  }

  lemma RowPairMoves(b: Cells, x: nat, y: nat)
    requires Tiles(b) && Small(b) && 0 !in b && RowPair(b, x, y)
    ensures Slid(b, Left) != b
  {
    var line := GetLine(b, Left, y);
    LineIsGood(b, Left, y);
    assert line[x] == line[x + 1];
    assert forall i :: 0 <= i < SIZE ==> line[i] in b;
    FullMoves(line);
    ChangedByLine(b, Left);
  }

  lemma ColumnPairMoves(b: Cells, x: nat, y: nat)
    requires Tiles(b) && Small(b) && 0 !in b && ColumnPair(b, x, y)
    ensures Slid(b, Up) != b
  {
    var line := GetLine(b, Up, x);
    LineIsGood(b, Up, x);
    assert line[y] == line[y + 1];
    assert forall i :: 0 <= i < SIZE ==> line[i] in b;
    FullMoves(line);
    ChangedByLine(b, Up);
  }

  lemma MixedLineMoves(b: Cells, d: Direction, e: Direction, l: nat, i: nat, j: nat)
    requires Tiles(b) && Small(b) && l < SIZE && i < SIZE && j < SIZE
    requires GetLine(b, d, l)[i] == 0 && GetLine(b, d, l)[j] != 0
    requires GetLine(b, e, l) == Reverse(GetLine(b, d, l))
    ensures Slid(b, d) != b || Slid(b, e) != b
  {
    LineIsGood(b, d, l);
    MixedMoves(GetLine(b, d, l), i, j);
    ChangedByLine(b, d);
    ChangedByLine(b, e);
  }

  /** A gap and a tile: their rows are mixed, or the gap's column is. */
  lemma GapMoves(b: Cells, gap: nat, tile: nat)
    requires Tiles(b) && Small(b) && gap < CELLS && tile < CELLS && b[gap] == 0 && b[tile] != 0
    ensures CanMove(b)
  {
    var x, y, u, w := gap % 4, gap / 4, tile % 4, tile / 4;
    if b[4 * y + u] != 0 {
      assert GetLine(b, Left, y)[x] == 0 && GetLine(b, Left, y)[u] != 0;
      MixedLineMoves(b, Left, Right, y, x, u);
    } else {
      assert GetLine(b, Up, u)[y] == 0 && GetLine(b, Up, u)[w] != 0;
      MixedLineMoves(b, Up, Down, u, y, w);
    }
  }

  /** On any board with a tile on it the scan is exact. */
  lemma ScanExact(b: Cells, tile: nat)
    requires Tiles(b) && Small(b) && tile < CELLS && b[tile] != 0
    ensures Scan(b) <==> CanMove(b)
  {
    if !Scan(b) {
      forall d ensures Slid(b, d) == b {
        NoScanNoMove(b, d);
      }
    } else {
      ScanMoves(b, tile);
    }
  }

  lemma ScanMoves(b: Cells, tile: nat)
    requires Tiles(b) && Small(b) && tile < CELLS && b[tile] != 0 && Scan(b)
    ensures CanMove(b)
  {
    if 0 in b {
      var gap :| 0 <= gap < |b| && b[gap] == 0;
      GapMoves(b, gap, tile);
    } else if exists x: nat, y: nat :: RowPair(b, x, y) {
      var x: nat, y: nat :| RowPair(b, x, y);
      RowPairMoves(b, x, y);
    } else {
      var x: nat, y: nat :| ColumnPair(b, x, y);
      ColumnPairMoves(b, x, y);
    }
  }

  /** The empty board is the one on which it is not: there is a gap, but nothing can move. */
  lemma EmptyBoardScan()
    ensures var b: Cells := seq(CELLS, _ => 0); Scan(b) && !CanMove(b)
  {
    var b: Cells := seq(CELLS, _ => 0);
    assert b[0] == 0;
    forall d ensures Slid(b, d) == b {
      forall l: nat | l < SIZE ensures Slide(GetLine(b, d, l)) == GetLine(b, d, l) {
        PackZeros(GetLine(b, d, l));
      }
      ChangedByLine(b, d);
    }
  }
}
