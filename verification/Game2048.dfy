/** Whole games of 2048: the value-level rules with the spawn left to chance, what every reachable
    game satisfies, and the board object that plays by them in place. */
module Game2048 {
  import opened Protocol
  import opened LineMerge
  import opened Board2048

  /// Merge highlights
  /// ----------------

  function FlagAt(b: Cells, d: Direction, p: nat): bool
    requires p < CELLS
  {
    Slide(GetLine(b, d, LineOf(d, p))) != GetLine(b, d, LineOf(d, p))
        && SlideFlags(GetLine(b, d, LineOf(d, p)))[PlaceOf(d, p)]
  }

  function MergedBoard(b: Cells, d: Direction): (m: seq<bool>)
    ensures |m| == CELLS
  {
    seq(CELLS, p requires 0 <= p < CELLS => FlagAt(b, d, p))
  }

  /** The flags of a line, if it has moved at all. */
  function MovedFlags(line: Line): (f: seq<bool>)
    ensures |f| == 4
  {
    if Slide(line) != line then SlideFlags(line) else [false, false, false, false]
  }

  lemma FlagIsMoved(b: Cells, d: Direction, l: nat, k: nat)
    requires l < 4 && k < 4
    ensures MergedBoard(b, d)[Index(d, l, k)] == MovedFlags(GetLine(b, d, l))[k]
  {
    IndexInverse(d, l, k);
  }

  /** The highlights, cell by cell, in the four directions. */
  lemma MergedIsOnCells(b: Cells, i: nat, k: nat)
    requires i < 4 && k < 4
    ensures MergedBoard(b, Left)[4 * i + k] == MovedFlags(Row(b, i))[k]
    ensures MergedBoard(b, Right)[4 * i + 3 - k] == MovedFlags(Backwards(Row(b, i)))[k]
    ensures MergedBoard(b, Up)[4 * k + i] == MovedFlags(Column(b, i))[k]
    ensures MergedBoard(b, Down)[4 * (3 - k) + i] == MovedFlags(Backwards(Column(b, i)))[k]
  {
    LinesAreRows(b, i);
    FlagIsMoved(b, Left, i, k);
    FlagIsMoved(b, Right, i, k);
    FlagIsMoved(b, Up, i, k);
    FlagIsMoved(b, Down, i, k);
  }

  /** The values of the flagged cells, and nothing else. */
  function Highlighted(b: Cells, m: seq<bool>): Cells
    requires |m| == CELLS
  {
    seq(CELLS, p requires 0 <= p < CELLS => if m[p] then b[p] else 0)
  }

  lemma LineHighlight(b: Cells, d: Direction, l: nat, k: nat)
    requires l < SIZE && k < SIZE
    ensures var line := GetLine(b, d, l);
      GetLine(Highlighted(Slid(b, d), MergedBoard(b, d)), d, l)[k] as int
      == Kept(Slide(line) != line && SlideFlags(line)[k], Slide(line)[k])
  {
    var h := Highlighted(Slid(b, d), MergedBoard(b, d));
    IndexInverse(d, l, k);
    FlagIsMoved(b, d, l, k);
    LineAt(h, d, l, k);
    assert h[Index(d, l, k)] == if MergedBoard(b, d)[Index(d, l, k)] then Slid(b, d)[Index(d, l, k)] else 0;
  }

  lemma LineHighlights(b: Cells, d: Direction, l: nat)
    requires Tiles(b) && Small(b) && l < SIZE
    ensures Sum(GetLine(Highlighted(Slid(b, d), MergedBoard(b, d)), d, l), Ident) == LineGain(b, d, l)
  {
    var line, h := GetLine(b, d, l), GetLine(Highlighted(Slid(b, d), MergedBoard(b, d)), d, l);
    LineIsGood(b, d, l);
    SumFour(h, Ident);
    LineHighlight(b, d, l, 0);
    LineHighlight(b, d, l, 1);
    LineHighlight(b, d, l, 2);
    LineHighlight(b, d, l, 3);
    HighlightValue(line);
  }

  /** Kept where the line moved, the flagged cells are worth its gain. */
  lemma HighlightValue(line: Line)
    requires Tiles(line) && Small(line)
    ensures var moved, f, s := Slide(line) != line, SlideFlags(line), Slide(line);
      Kept(moved && f[0], s[0]) + Kept(moved && f[1], s[1]) + Kept(moved && f[2], s[2]) + Kept(moved && f[3], s[3]) ==
          Gain(Pack(line))
  {
    if Slide(line) != line {
      SlideFlagsMarkGain(line);
      FlaggedFour(Slide(line), SlideFlags(line));
    } else if Gain(Pack(line)) > 0 {
      GainMoves(line);
    }
  }

  lemma FlaggedFour(s: seq<uint32>, f: seq<bool>)
    requires |s| == |f| == 4
    ensures Flagged(s, f) == Kept(f[0], s[0]) + Kept(f[1], s[1]) + Kept(f[2], s[2]) + Kept(f[3], s[3])
  {
    assert s[1..][1..] == s[2..] && s[2..][1..] == s[3..] && s[3..][1..] == [];
    assert f[1..][1..] == f[2..] && f[2..][1..] == f[3..] && f[3..][1..] == [];
    assert Flagged(s[3..], f[3..]) == Kept(f[3], s[3]);
    assert Flagged(s[2..], f[2..]) == Kept(f[2], s[2]) + Flagged(s[3..], f[3..]);
    assert Flagged(s[1..], f[1..]) == Kept(f[1], s[1]) + Flagged(s[2..], f[2..]);
  }

  function Kept(flag: bool, v: uint32): int {
    if flag then v else 0
  }

  /** The highlighted tiles of a move are worth exactly what it scored. */
  lemma HighlightsAreTheScore(b: Cells, d: Direction)
    requires Tiles(b) && Small(b)
    ensures Sum(Highlighted(Slid(b, d), MergedBoard(b, d)), Ident) == TotalGain(b, d)
  {
    SumByLines(Highlighted(Slid(b, d), MergedBoard(b, d)), d, Ident);
    LineHighlights(b, d, 0);
    LineHighlights(b, d, 1);
    LineHighlights(b, d, 2);
    LineHighlights(b, d, 3);
    GainOfLines(b, d);
  }

  /** A move that changes the board leaves an empty cell to spawn in. */
  lemma ChangedLeavesGap(b: Cells, d: Direction)
    requires Tiles(b) && Small(b) && Slid(b, d) != b
    ensures 0 in Slid(b, d)
  {
    ChangedByLine(b, d);
    var l: nat :| l < SIZE && Slide(GetLine(b, d, l)) != GetLine(b, d, l);
    LineIsGood(b, d, l);
    MovedLeavesGap(GetLine(b, d, l));
    SlidLine(b, d, l);
    LineAt(Slid(b, d), d, l, 3);
    assert Slid(b, d)[Index(d, l, 3)] == 0;
  }

  /// Games
  /// -----

  /** `twos` and `fours` count the tiles spawned since the game began. */
  datatype Game = Game(tiles: Cells, merged: seq<bool>, score: uint32, state: GameState, twos: nat, fours: nat)

  datatype Turn = Turn(d: Direction, cell: nat, v: uint32)

  predicate SpawnOk(b: Cells, cell: nat, v: uint32) {
    cell < CELLS && b[cell] == 0 && (v == 2 || v == 4)
  }

  function Spawn(g: Game, cell: nat, v: uint32): Game
    requires SpawnOk(g.tiles, cell, v)
  {
    Game(g.tiles[cell := v], g.merged, g.score, g.state, g.twos + (if v == 2 then 1 else 0),
        g.fours + (if v == 4 then 1 else 0))
  }

  function NoFlags(): (m: seq<bool>)
    ensures |m| == CELLS
  {
    seq(CELLS, _ => false)
  }

  function Empty(): Game {
    Game(seq(CELLS, _ => 0), NoFlags(), 0, Playing, 0, 0)
  }

  function Moved(g: Game, d: Direction): Game {
    Game(Slid(g.tiles, d), MergedBoard(g.tiles, d), Add32(g.score, TotalGain(g.tiles, d) % 0x1_0000_0000), g.state,
        g.twos, g.fours)
  }

  predicate TurnOk(g: Game, t: Turn) {
    g.state == Playing && Slid(g.tiles, t.d) != g.tiles ==> SpawnOk(Slid(g.tiles, t.d), t.cell, t.v)
  }

  ghost function Play(g: Game, t: Turn): Game
    requires TurnOk(g, t)
  {
    if g.state == GameOver then g
    else if Slid(g.tiles, t.d) == g.tiles then Game(g.tiles, NoFlags(), g.score, g.state, g.twos, g.fours)
    else Judged(Spawn(Moved(g, t.d), t.cell, t.v))
  }

  ghost function Judged(g: Game): Game {
    if Scan(g.tiles) then g else Game(g.tiles, g.merged, g.score, GameOver, g.twos, g.fours)
  }

  ghost predicate GameInv(g: Game) {
    && Tiles(g.tiles) && Bounded(g.tiles) && |g.merged| == CELLS
    && (exists p :: 0 <= p < CELLS && g.tiles[p] != 0)
    && (g.state == GameOver <==> !Scan(g.tiles))
    && g.score + 4 * g.fours == Sum(g.tiles, Weight)
    && Sum(g.tiles, Ident) == 2 * g.twos + 4 * g.fours
  }

  /** Sliding before the spawn: the two conservation laws, and the tiles are still tiles. */
  lemma MovedFacts(g: Game, d: Direction)
    requires GameInv(g)
    ensures Tiles(Slid(g.tiles, d)) && Small(g.tiles)
    ensures Sum(Slid(g.tiles, d), Ident) == 2 * g.twos + 4 * g.fours
    ensures g.score + TotalGain(g.tiles, d) + 4 * g.fours == Sum(Slid(g.tiles, d), Weight)
  {
    BoundedIsSmall(g.tiles);
    SlidTiles(g.tiles, d);
    SlidConserves(g.tiles, d);
  }

  lemma SpawnSums(b: Cells, cell: nat, v: uint32)
    requires SpawnOk(b, cell, v)
    ensures Sum(b[cell := v], Ident) == Sum(b, Ident) + v
    ensures Sum(b[cell := v], Weight) == Sum(b, Weight) + if v == 4 then 4 else 0
    ensures Tiles(b) ==> Tiles(b[cell := v])
  {
    SumUpdate(b, cell, v, Ident);
    SumUpdate(b, cell, v, Weight);
    assert Weight(2) == 0 && Weight(4) == 4;
    assert IsTile(2) && IsTile(4);
  }

  lemma AddFits(score: uint32, gain: nat)
    requires score + gain < 0x1_0000_0000
    ensures Add32(score, gain % 0x1_0000_0000) == score + gain
  {
  }

  lemma SpawnedBound(b: Cells, d: Direction, cell: nat, v: uint32)
    requires Tiles(b) && Bounded(b) && SpawnOk(Slid(b, d), cell, v)
    ensures var c := Slid(b, d)[cell := v]; Tiles(c) && Bounded(c) && Sum(c, Weight) <= MAX_SCORE
  {
    BoundedIsSmall(b);
    SlidTiles(b, d);
    SpawnSums(Slid(b, d), cell, v);
    BoundKept(b, d, cell, v);
    WeightIsBounded(Slid(b, d)[cell := v]);
  }

  /** After the slide and the spawn: the tile bound still holds, so the score fits in 32 bits. */
  lemma SpawnedFacts(g: Game, d: Direction, cell: nat, v: uint32)
    requires GameInv(g) && SpawnOk(Slid(g.tiles, d), cell, v)
    ensures var b := Slid(g.tiles, d)[cell := v];
      && Tiles(b) && Bounded(b)
      && Sum(b, Ident) == 2 * g.twos + 4 * g.fours + v
      && Sum(b, Weight) == g.score + TotalGain(g.tiles, d) + 4 * g.fours + (if v == 4 then 4 else 0)
      && g.score + TotalGain(g.tiles, d) <= MAX_SCORE
  {
    MovedFacts(g, d);
    SpawnSums(Slid(g.tiles, d), cell, v);
    SpawnedBound(g.tiles, d, cell, v);
  }

  /** One turn, whatever the direction and the spawn. The score never wraps. */
  lemma PlayKeepsInv(g: Game, t: Turn)
    requires GameInv(g) && TurnOk(g, t)
    ensures GameInv(Play(g, t))
  {
    if g.state == Playing && Slid(g.tiles, t.d) != g.tiles {
      SpawnedFacts(g, t.d, t.cell, t.v);
      var moved := Moved(g, t.d);
      AddFits(g.score, TotalGain(g.tiles, t.d));
      SpawnedInv(g, moved, t.cell, t.v, TotalGain(g.tiles, t.d));
    }
  }

  lemma SpawnedInv(g: Game, moved: Game, cell: nat, v: uint32, gain: nat)
    requires GameInv(g) && g.state == Playing
    requires moved == Game(moved.tiles, moved.merged, moved.score, g.state, g.twos, g.fours) && |moved.merged| == CELLS
    requires moved.score == g.score + gain
    requires SpawnOk(moved.tiles, cell, v)
    requires var b := moved.tiles[cell := v];
      && Tiles(b) && Bounded(b)
      && Sum(b, Ident) == 2 * g.twos + 4 * g.fours + v
      && Sum(b, Weight) == g.score + gain + 4 * g.fours + (if v == 4 then 4 else 0)
    ensures GameInv(Judged(Spawn(moved, cell, v)))
  {
    assert Judged(Spawn(moved, cell, v)).tiles[cell] != 0;
  }

  ghost predicate ValidGame(g: Game, turns: seq<Turn>)
    decreases |turns|
  {
    turns == [] || (TurnOk(g, turns[0]) && ValidGame(Play(g, turns[0]), turns[1..]))
  }

  ghost function PlayAll(g: Game, turns: seq<Turn>): Game
    requires ValidGame(g, turns)
    decreases |turns|
  {
    if turns == [] then g else PlayAll(Play(g, turns[0]), turns[1..])
  }

  lemma {:induction false} InvHoldsInEveryGame(g: Game, turns: seq<Turn>)
    requires GameInv(g) && ValidGame(g, turns)
    ensures GameInv(PlayAll(g, turns))
    decreases |turns|
  {
    if turns != [] {
      PlayKeepsInv(g, turns[0]);
      InvHoldsInEveryGame(Play(g, turns[0]), turns[1..]);
    }
  }

  /** A new game has two tiles. */
  function NewGame(c1: nat, v1: uint32, c2: nat, v2: uint32): Game
    requires SpawnOk(Empty().tiles, c1, v1) && SpawnOk(Spawn(Empty(), c1, v1).tiles, c2, v2)
  {
    Spawn(Spawn(Empty(), c1, v1), c2, v2)
  }

  lemma {:induction false} CountNonZero(s: seq<uint32>, k: nat)
    requires k >= 1
    ensures Sum(s, AtLeast(k)) <= Sum(s, NonZero)
  {
    if s != [] {
      CountNonZero(s[1..], k);
    }
  }

  function NonZero(v: uint32): int {
    if v != 0 then 1 else 0
  }

  lemma NewGameSums(c1: nat, v1: uint32, c2: nat, v2: uint32)
    requires SpawnOk(Empty().tiles, c1, v1) && SpawnOk(Spawn(Empty(), c1, v1).tiles, c2, v2)
    ensures var g := NewGame(c1, v1, c2, v2);
      && Tiles(g.tiles)
      && g.score + 4 * g.fours == Sum(g.tiles, Weight)
      && Sum(g.tiles, Ident) == 2 * g.twos + 4 * g.fours
  {
    var e, one := Empty().tiles, Spawn(Empty(), c1, v1).tiles;
    SumZeros(e, Ident);
    SumZeros(e, Weight);
    SpawnSums(e, c1, v1);
    SpawnSums(one, c2, v2);
  }

  lemma NewGameCount(c1: nat, v1: uint32, c2: nat, v2: uint32)
    requires SpawnOk(Empty().tiles, c1, v1) && SpawnOk(Spawn(Empty(), c1, v1).tiles, c2, v2)
    ensures Sum(NewGame(c1, v1, c2, v2).tiles, NonZero) <= 2
  {
    var e: Cells := Empty().tiles;
    var one: Cells := e[c1 := v1];
    SumZeros(e, NonZero);
    SumUpdate(e, c1, v1, NonZero);
    SumUpdate(one, c2, v2, NonZero);
  }

  lemma NewGameTiles(c1: nat, v1: uint32, c2: nat, v2: uint32)
    requires SpawnOk(Empty().tiles, c1, v1) && SpawnOk(Spawn(Empty(), c1, v1).tiles, c2, v2)
    ensures var b := NewGame(c1, v1, c2, v2).tiles;
      Sum(b, NonZero) <= 2 && b[c2] == v2 && forall i :: 0 <= i < CELLS ==> b[i] <= 4
  {
    NewGameCount(c1, v1, c2, v2);
  }

  lemma FewTilesBounded(b: Cells)
    requires Sum(b, NonZero) <= 2 && forall i :: 0 <= i < CELLS ==> b[i] <= 4
    ensures Bounded(b)
  {
    PowValues();
    forall k | 2 <= k <= 18 ensures Sum(b, AtLeast(k)) <= 18 - k {
      CountNonZero(b, k);
      if k >= 3 {
        PowGrows(3, k);
        NoneCounted(b, k);
      }
    }
  }

  lemma NewGameInv(c1: nat, v1: uint32, c2: nat, v2: uint32)
    requires SpawnOk(Empty().tiles, c1, v1) && SpawnOk(Spawn(Empty(), c1, v1).tiles, c2, v2)
    ensures GameInv(NewGame(c1, v1, c2, v2))
  {
    NewGameSums(c1, v1, c2, v2);
    NewGameTiles(c1, v1, c2, v2);
    FewTilesBounded(NewGame(c1, v1, c2, v2).tiles);
    FewTilesScan(NewGame(c1, v1, c2, v2).tiles);
  }

  lemma {:induction false} NoneCounted(s: seq<uint32>, k: nat)
    requires forall i :: 0 <= i < |s| ==> s[i] < Pow2(k)
    ensures Sum(s, AtLeast(k)) == 0
  {
    if s != [] {
      NoneCounted(s[1..], k);
    }
  }

  /** Two tiles do not fill the board. */
  lemma FewTilesScan(b: Cells)
    requires Sum(b, NonZero) <= 2
    ensures Scan(b)
  {
    SumCells(b, NonZero);
    if b[0] != 0 && b[1] != 0 {
      assert b[2] == 0;
    }
  }

  /** What a player can rely on in every reachable state: tiles are powers of two up to 2^17, at most
      18 - k of them are 2^k or more, the score never exceeds 3,932,164 and accounts exactly for the
      tiles, and the game is over exactly when no direction changes the board. */
  lemma EveryReachableGame(c1: nat, v1: uint32, c2: nat, v2: uint32, turns: seq<Turn>)
    requires SpawnOk(Empty().tiles, c1, v1) && SpawnOk(Spawn(Empty(), c1, v1).tiles, c2, v2)
    requires ValidGame(NewGame(c1, v1, c2, v2), turns)
    ensures var g := PlayAll(NewGame(c1, v1, c2, v2), turns);
      && (forall p :: 0 <= p < CELLS ==> g.tiles[p] == 0 || (IsTile(g.tiles[p]) && g.tiles[p] <= 0x2_0000))
      && Bounded(g.tiles)
      && g.score <= MAX_SCORE && g.score + 4 * g.fours == Sum(g.tiles, Weight)
      && Sum(g.tiles, Ident) == 2 * g.twos + 4 * g.fours
      && (g.state == GameOver <==> !CanMove(g.tiles))
  {
    NewGameInv(c1, v1, c2, v2);
    InvHoldsInEveryGame(NewGame(c1, v1, c2, v2), turns);
    GameFacts(PlayAll(NewGame(c1, v1, c2, v2), turns));
  }

  lemma GameFacts(g: Game)
    requires GameInv(g)
    ensures forall p :: 0 <= p < CELLS ==> g.tiles[p] <= 0x2_0000
    ensures g.score <= MAX_SCORE
    ensures g.state == GameOver <==> !CanMove(g.tiles)
  {
    BoundedTiles(g.tiles);
    PowValues();
    WeightIsBounded(g.tiles);
    BoundedIsSmall(g.tiles);
    var p :| 0 <= p < CELLS && g.tiles[p] != 0;
    ScanExact(g.tiles, p);
  }

  /** The score a turn adds fits, and there is none on a board that does not change. */
  lemma TurnMeans(g: Game, d: Direction)
    requires GameInv(g)
    ensures g.score + TotalGain(g.tiles, d) < 0x1_0000_0000
    ensures Slid(g.tiles, d) == g.tiles ==> TotalGain(g.tiles, d) == 0 && MergedBoard(g.tiles, d) == NoFlags()
  {
    TurnGain(g, d);
    if Slid(g.tiles, d) == g.tiles {
      UnchangedHasNoFlags(g.tiles, d);
    }
  }

  /**
   * What a turn leaves and reports, field by field: a finished game is left alone; a slide that changes the board is
   * followed by one new tile, any other leaves the cells; and the game is over exactly when no direction is left.
   */
  ghost predicate TurnShown(g: Game, d: Direction, t: Turn, r: MoveResult, after: Game) {
    var slid := Slid(g.tiles, d);
    if g.state == GameOver then after == g && r == MoveResult(false, false, 0)
    else
      && (r.changed <==> slid != g.tiles) && (r.merged <==> r.scoreDelta > 0)
      && (r.changed ==>
          t.cell < 16 && slid[t.cell] == 0 && (t.v == 2 || t.v == 4) && after.tiles == slid[t.cell := t.v])
      && (!r.changed ==> after.tiles == g.tiles)
      && after.merged == MergedBoard(g.tiles, d)
      && after.score == g.score + r.scoreDelta
      && (after.state == GameOver <==> !CanMove(after.tiles))
  }

  lemma PlayedFields(g: Game, t: Turn)
    requires GameInv(g) && TurnOk(g, t) && g.state == Playing
    ensures var after, slid := Play(g, t), Slid(g.tiles, t.d);
      && after.tiles == (if slid != g.tiles then slid[t.cell := t.v] else g.tiles)
      && after.merged == MergedBoard(g.tiles, t.d) && after.score == g.score + TotalGain(g.tiles, t.d)
  {
    TurnMeans(g, t.d);
    AddFits(g.score, TotalGain(g.tiles, t.d));
  }

  lemma PlayedState(g: Game, t: Turn)
    requires GameInv(g) && TurnOk(g, t) && g.state == Playing
    ensures Play(g, t).state == GameOver <==> !CanMove(Play(g, t).tiles)
  {
    PlayKeepsInv(g, t);
    GameFacts(Play(g, t));
  }

  lemma GainReported(g: Game, d: Direction)
    requires GameInv(g) && g.state == Playing
    ensures var r := ReportOf(g, d);
      r.changed == (Slid(g.tiles, d) != g.tiles) && r.merged == (TotalGain(g.tiles, d) > 0)
      && r.scoreDelta == TotalGain(g.tiles, d)
  {
    TurnMeans(g, d);
    ModSmall(TotalGain(g.tiles, d));
  }

  lemma ModSmall(n: nat)
    requires n < 0x1_0000_0000
    ensures n % 0x1_0000_0000 == n
  {
  }

  lemma TurnShows(g: Game, d: Direction, t: Turn)
    requires GameInv(g) && TurnOk(g, t) && t.d == d
    ensures TurnShown(g, d, t, ReportOf(g, d), Play(g, t))
  {
    if g.state == Playing {
      PlayedShows(g, d, t, Play(g, t), ReportOf(g, d));
    }
  }

  lemma PlayedShows(g: Game, d: Direction, t: Turn, after: Game, r: MoveResult)
    requires GameInv(g) && TurnOk(g, t) && t.d == d && g.state == Playing
    requires after == Play(g, t) && r == ReportOf(g, d)
    ensures TurnShown(g, d, t, r, after)
  {
    PlayedFields(g, t);
    PlayedState(g, t);
    GainReported(g, d);
    ShownWhen(g, d, t, after, r, Slid(g.tiles, d), TotalGain(g.tiles, d));
  }

  lemma ShownWhen(g: Game, d: Direction, t: Turn, after: Game, r: MoveResult, slid: Cells, gain: nat)
    requires g.state == Playing && slid == Slid(g.tiles, d) && TurnOk(g, t) && t.d == d
    requires r.changed == (slid != g.tiles) && r.merged == (gain > 0) && r.scoreDelta == gain
    requires after.tiles == (if slid != g.tiles then slid[t.cell := t.v] else g.tiles)
    requires after.merged == MergedBoard(g.tiles, d) && after.score == g.score + gain
    requires after.state == GameOver <==> !CanMove(after.tiles)
    ensures TurnShown(g, d, t, r, after)
  {
  }

  /// The board object
  /// ----------------

  /** The cells of line `l` hold what sliding it gives, flagged only if it moved. */
  ghost predicate LineSlid(d: Direction, l: nat, line: Line, target: Cells, flags: seq<bool>)
    requires |flags| == CELLS
  {
    forall p :: 0 <= p < CELLS && LineOf(d, p) == l ==>
      target[p] == Slide(line)[PlaceOf(d, p)] && flags[p] == (Slide(line) != line && SlideFlags(line)[PlaceOf(d, p)])
  }

  ghost predicate LineHolds(d: Direction, l: nat, line: Line, b: Cells) {
    forall p :: 0 <= p < CELLS && LineOf(d, p) == l ==> b[p] == line[PlaceOf(d, p)]
  }

  lemma LineHeld(b: Cells, d: Direction, l: nat)
    requires l < SIZE
    ensures LineHolds(d, l, GetLine(b, d, l), b)
  {
    forall p | 0 <= p < CELLS && LineOf(d, p) == l ensures b[p] == GetLine(b, d, l)[PlaceOf(d, p)] {
      PlaceInverse(d, p);
      LineAt(b, d, l, PlaceOf(d, p));
    }
  }

  lemma LineIsSlid(b: Cells, d: Direction, l: nat)
    requires l < SIZE
    ensures LineSlid(d, l, GetLine(b, d, l), Slid(b, d), MergedBoard(b, d))
  {
  }

  lemma LinesSlid(b: Cells, d: Direction)
    ensures forall l :: 0 <= l < SIZE ==> LineHolds(d, l, LinesOf(b, d)[l], b)
    ensures forall l :: 0 <= l < SIZE ==> LineSlid(d, l, LinesOf(b, d)[l], Slid(b, d), MergedBoard(b, d))
  {
    forall l | 0 <= l < SIZE
      ensures LineHolds(d, l, LinesOf(b, d)[l], b) && LineSlid(d, l, LinesOf(b, d)[l], Slid(b, d), MergedBoard(b, d))
    {
      LineOfBoard(b, d, l);
      LineHeld(b, d, l);
      LineIsSlid(b, d, l);
    }
  }

  /** Some of the lines move. */
  predicate AnyMoves(lines: seq<Line>) {
    lines != [] && (AnyMoves(lines[..|lines| - 1]) || Slide(lines[|lines| - 1]) != lines[|lines| - 1])
  }

  /** Some of the lines report a gain. */
  predicate AnyGains(lines: seq<Line>) {
    lines != [] && (AnyGains(lines[..|lines| - 1]) || Gain(Pack(lines[|lines| - 1])) % 0x1_0000_0000 > 0)
  }

  lemma {:induction false} AnyMovesExact(lines: seq<Line>)
    ensures AnyMoves(lines) <==> SlideEach(lines) != lines
  {
    if lines != [] {
      var front, last := lines[..|lines| - 1], lines[|lines| - 1];
      AnyMovesExact(front);
      assert lines == front + [last];
      assert SlideEach(lines)[..|front|] == SlideEach(front) && SlideEach(lines)[|front|] == Slide(last);
    }
  }

  lemma {:induction false} AnyGainsIsGain(lines: seq<Line>)
    requires GainsOf(lines) < 0x1_0000_0000
    ensures AnyGains(lines) <==> GainsOf(lines) > 0
  {
    if lines != [] {
      AnyGainsIsGain(lines[..|lines| - 1]);
    }
  }

  /** What the four line passes report is what the whole move does. */
  lemma LinesReport(b: Cells, d: Direction)
    requires TotalGain(b, d) < 0x1_0000_0000
    ensures AnyMoves(LinesOf(b, d)) <==> Slid(b, d) != b
    ensures AnyGains(LinesOf(b, d)) <==> TotalGain(b, d) > 0
  {
    var lines := LinesOf(b, d);
    AnyGainsIsGain(lines);
    SomeLineMoves(b, d);
  }

  lemma SameLinesOf(b: Cells, c: Cells, d: Direction)
    requires LinesOf(b, d) == LinesOf(c, d)
    ensures b == c
  {
    forall l: nat | l < SIZE ensures GetLine(b, d, l) == GetLine(c, d, l) {
      LineOfBoard(b, d, l);
      LineOfBoard(c, d, l);
    }
    SameLines(b, c, d);
  }

  lemma SomeLineMoves(b: Cells, d: Direction)
    ensures AnyMoves(LinesOf(b, d)) <==> Slid(b, d) != b
  {
    AnyMovesExact(LinesOf(b, d));
    SlidLinesOf(b, d);
    if !AnyMoves(LinesOf(b, d)) {
      SameLinesOf(Slid(b, d), b, d);
    }
  }

  datatype MoveResult = MoveResult(changed: bool, merged: bool, scoreDelta: uint32)

  /** What a move returns: whether the board changed, whether anything merged, and the score made. */
  function ReportOf(g: Game, d: Direction): MoveResult {
    if g.state == GameOver then MoveResult(false, false, 0)
    else MoveResult(Slid(g.tiles, d) != g.tiles, TotalGain(g.tiles, d) > 0, TotalGain(g.tiles, d) % 0x1_0000_0000)
  }

  function Report(lines: seq<Line>): MoveResult {
    MoveResult(AnyMoves(lines), AnyGains(lines), GainsOf(lines) % 0x1_0000_0000)
  }

  lemma OneMoreLine(lines: seq<Line>, l: nat, r: MoveResult, moved: bool, gained: uint32)
    requires l < |lines| && r == Report(lines[..l])
    requires moved == (Slide(lines[l]) != lines[l]) && gained == Gain(Pack(lines[l])) % 0x1_0000_0000
    ensures Report(lines[..l + 1])
            == MoveResult(r.changed || moved, r.merged
                || gained > 0, if gained > 0 then Add32(r.scoreDelta, gained) else r.scoreDelta)
  {
    assert lines[..l + 1][..l] == lines[..l];
    AddWraps(GainsOf(lines[..l]), Gain(Pack(lines[l])));
  }

  ghost predicate Prepared(g: Game, d: Direction, moved: Game, lines: seq<Line>) {
    && |moved.merged| == CELLS && |lines| == SIZE
    && (forall l :: 0 <= l < SIZE ==>
        LineHolds(d, l, lines[l], g.tiles) && LineSlid(d, l, lines[l], moved.tiles, moved.merged))
    && moved.state == Playing && moved.twos == g.twos && moved.fours == g.fours
    && moved.score == Add32(g.score, GainsOf(lines) % 0x1_0000_0000)
    && (AnyMoves(lines) ==> 0 in moved.tiles)
  }

  ghost predicate Taken(moved: Game, d: Direction, changed: bool, score: uint32, t: Turn, after: Game) {
    && t.d == d
    && if changed then SpawnOk(moved.tiles, t.cell, t.v) && after == Judged(Spawn(moved, t.cell, t.v))
       else after == Game(moved.tiles, moved.merged, score, Playing, moved.twos, moved.fours)
  }

  lemma Reports(g: Game, d: Direction)
    requires GameInv(g) && g.state == Playing
    ensures Report(LinesOf(g.tiles, d)) == ReportOf(g, d)
  {
    TurnGain(g, d);
    LinesReport(g.tiles, d);
  }

  lemma Prepare(g: Game, d: Direction)
    requires GameInv(g) && g.state == Playing
    ensures Prepared(g, d, Moved(g, d), LinesOf(g.tiles, d))
    ensures Report(LinesOf(g.tiles, d)) == ReportOf(g, d)
  {
    TurnGain(g, d);
    Reports(g, d);
    LinesSlid(g.tiles, d);
  }

  lemma TurnTaken(g: Game, d: Direction, changed: bool, t: Turn, after: Game)
    requires GameInv(g) && g.state == Playing && changed == (Slid(g.tiles, d) != g.tiles)
    requires Taken(Moved(g, d), d, changed, g.score, t, after)
    ensures TurnOk(g, t) && after == Play(g, t) && GameInv(after)
  {
    if !changed {
      UnchangedHasNoFlags(g.tiles, d);
    }
    PlayKeepsInv(g, t);
  }

  class Board {
    const tiles: array<uint32>
    const merged: array<bool>
    var score: uint32
    var state: GameState
    ghost var twos: nat
    ghost var fours: nat

    ghost predicate Shape()
      reads this
    {
      tiles.Length == CELLS && merged.Length == CELLS
    }

    ghost function View(): Game
      requires Shape()
      reads this, tiles, merged
    {
      Game(tiles[..], merged[..], score, state, twos, fours)
    }

    constructor ()
      ensures Shape() && fresh(tiles) && fresh(merged) && View() == Empty()
    {
      tiles := new uint32[CELLS](_ => 0);
      merged := new bool[CELLS](_ => false);
      score, state, twos, fours := 0, Playing, 0, 0;
      new;
      assert tiles[..] == Empty().tiles && merged[..] == Empty().merged;
    }

    /** Puts a 2 or a 4 in some empty cell; on a full board does nothing. */
    method SpawnRandomTile() returns (ghost cell: nat, ghost v: uint32)
      requires Shape()
      modifies tiles, this`twos, this`fours
      ensures 0 !in old(tiles[..]) ==> View() == old(View())
      ensures 0 in old(tiles[..]) ==> SpawnOk(old(tiles[..]), cell, v) && View() == Spawn(old(View()), cell, v)
      ensures 0 in old(tiles[..]) ==>
                && cell < 16 && old(tiles[..])[cell] == 0 && (v == 2 || v == 4)
                && tiles[..] == old(tiles[..])[cell := v]
    {
      var empties: seq<nat> := [];
      var i := 0;
      cell, v := 0, 2;
      while i < CELLS
        invariant 0 <= i <= CELLS
        invariant forall e :: e in empties <==> 0 <= e < i && tiles[e] == 0
      {
        if tiles[i] == 0 {
          empties := empties + [i];
        }
        i := i + 1;
      }
      if empties == [] {
        assert forall j :: 0 <= j < CELLS ==> tiles[..][j] != 0;
        return;
      }
      var pick: nat :| pick < |empties|;
      var target := empties[pick];
      var roll: nat :| roll <= 9;
      assert target in empties;
      ghost var was := tiles[..];
      tiles[target] := if roll == 0 then 4 else 2;
      cell, v := target, tiles[target];
      twos := twos + (if v == 2 then 1 else 0);
      fours := fours + (if v == 4 then 1 else 0);
      assert tiles[..] == was[target := v];
      assert was[target] == 0;
    }

    method AnyMovePossible() returns (possible: bool)
      requires Shape()
      ensures possible <==> Scan(tiles[..])
    {
      ghost var b: Cells := tiles[..];
      var i := 0;
      while i < CELLS
        invariant 0 <= i <= CELLS && 0 !in b[..i]
      {
        if tiles[i] == 0 {
          assert b[i] == 0;
          return true;
        }
        i := i + 1;
      }
      assert b[..i] == b;
      var y := 0;
      while y < SIZE
        invariant 0 <= y <= SIZE
        invariant forall x: nat, z: nat :: z < y ==> !RowPair(b, x, z) && !ColumnPair(b, x, z)
      {
        var x := 0;
        while x < SIZE
          invariant 0 <= x <= SIZE
          invariant forall u: nat :: u < x ==> !RowPair(b, u, y) && !ColumnPair(b, u, y)
        {
          var v := tiles[4 * y + x];
          if x + 1 < SIZE && tiles[4 * y + x + 1] == v {
            assert RowPair(b, x, y);
            return true;
          }
          if y + 1 < SIZE && tiles[4 * (y + 1) + x] == v {
            assert ColumnPair(b, x, y);
            return true;
          }
          x := x + 1;
        }
        assert forall u: nat :: u >= SIZE ==> !RowPair(b, u, y) && !ColumnPair(b, u, y);
        y := y + 1;
      }
      return false;
    }

    /** Starts a fresh game whatever was being played. */
    method Reset() returns (ghost c1: nat, ghost v1: uint32, ghost c2: nat, ghost v2: uint32)
      requires Shape()
      modifies this, tiles, merged
      ensures SpawnOk(Empty().tiles, c1, v1) && SpawnOk(Spawn(Empty(), c1, v1).tiles, c2, v2)
      ensures View() == NewGame(c1, v1, c2, v2) && GameInv(View())
      ensures c1 < 16 && c2 < 16 && c1 != c2 && v1 in {2, 4} && v2 in {2, 4}
      ensures forall i :: 0 <= i < 16 ==> tiles[i] == if i == c1 then v1 else if i == c2 then v2 else 0
      ensures (forall i :: 0 <= i < 16 ==> !merged[i]) && score == 0 && state == Playing
    {
      forall i | 0 <= i < CELLS {
        tiles[i] := 0;
      }
      forall i | 0 <= i < CELLS {
        merged[i] := false;
      }
      score, state, twos, fours := 0, Playing, 0, 0;
      assert tiles[..] == Empty().tiles && merged[..] == Empty().merged;
      assert tiles[..][0] == 0;
      c1, v1 := SpawnRandomTile();
      assert if c1 == 0 then tiles[..][1] == 0 else tiles[..][0] == 0;
      c2, v2 := SpawnRandomTile();
      NewGameInv(c1, v1, c2, v2);
    }

    /** Writes one compressed line back, with its merge flags. */
    method WriteLine(d: Direction, l: nat, line: array<uint32>, lineMerged: array<bool>)
      requires Shape() && l < SIZE && line.Length == SIZE && lineMerged.Length == SIZE
      requires line != tiles && lineMerged != merged
      requires forall p :: 0 <= p < CELLS && LineOf(d, p) == l ==> !merged[p]
      modifies tiles, merged
      ensures forall p :: 0 <= p < CELLS ==>
            tiles[p] == if LineOf(d, p) == l then line[PlaceOf(d, p)] else old(tiles[p])
      ensures forall p :: 0 <= p < CELLS ==>
            merged[p] == if LineOf(d, p) == l then lineMerged[PlaceOf(d, p)] else old(merged[p])
    {
      var k := 0;
      while k < SIZE
        invariant 0 <= k <= SIZE
        invariant forall p :: 0 <= p < CELLS ==>
                    tiles[p] == if LineOf(d, p) == l && PlaceOf(d, p) < k then line[PlaceOf(d, p)] else old(tiles[p])
        invariant forall p :: 0 <= p < CELLS ==>
                    merged[p] == if LineOf(d, p) == l && PlaceOf(d, p) < k then lineMerged[PlaceOf(d, p)]
                        else old(merged[p])
      {
        IndexInverse(d, l, k);
        forall p | 0 <= p < CELLS && LineOf(d, p) == l && PlaceOf(d, p) == k ensures p == Index(d, l, k) {
          PlaceInverse(d, p);
        }
        tiles[Index(d, l, k)] := line[k];
        if lineMerged[k] {
          merged[Index(d, l, k)] := true;
        }
        k := k + 1;
      }
    }

    method ReadLine(d: Direction, l: nat, line: array<uint32>, ghost before: Line)
      requires Shape() && l < SIZE && line.Length == SIZE && line != tiles
      requires forall p :: 0 <= p < CELLS && LineOf(d, p) == l ==> tiles[p] == before[PlaceOf(d, p)]
      modifies line
      ensures line[..] == before
    {
      var k := 0;
      while k < SIZE
        invariant 0 <= k <= SIZE && forall j :: 0 <= j < k ==> line[j] == before[j]
      {
        IndexInverse(d, l, k);
        line[k] := tiles[Index(d, l, k)];
        k := k + 1;
      }
    }

    /** Slides one line in place; an unmoved line is not written. */
    method SlideLine(d: Direction, l: nat, ghost before: Line) returns (moved: bool, gained: uint32)
      requires Shape() && l < SIZE
      requires forall p :: 0 <= p < CELLS && LineOf(d, p) == l ==> tiles[p] == before[PlaceOf(d, p)] && !merged[p]
      modifies tiles, merged
      ensures forall p :: 0 <= p < CELLS && LineOf(d, p) == l ==> tiles[p] == Slide(before)[PlaceOf(d, p)]
      ensures forall p :: 0 <= p < CELLS && LineOf(d, p) == l ==>
            merged[p] == (moved && SlideFlags(before)[PlaceOf(d, p)])
      ensures forall p :: 0 <= p < CELLS && LineOf(d, p) != l ==>
            tiles[p] == old(tiles[p]) && merged[p] == old(merged[p])
      ensures moved <==> Slide(before) != before
      ensures gained == Gain(Pack(before)) % 0x1_0000_0000
    {
      var line, lineMerged := new uint32[SIZE], new bool[SIZE];
      ReadLine(d, l, line, before);
      var saved := line[..];
      gained := CompressLine(line, lineMerged);
      moved := line[..] != saved;
      ghost var after, flags := line[..], lineMerged[..];
      if moved {
        WriteLine(d, l, line, lineMerged);
      }
      assert forall k :: 0 <= k < SIZE ==> line[k] == after[k] && lineMerged[k] == flags[k];
    }

    /** The lines before `l` are slid, the others as they were. */
    ghost predicate SlidUpTo(d: Direction, l: nat, b: Cells, target: Cells, flags: seq<bool>)
      requires Shape() && |flags| == CELLS
      reads this, tiles, merged
    {
      forall p :: 0 <= p < CELLS ==>
        if LineOf(d, p) < l then tiles[p] == target[p] && merged[p] == flags[p] else tiles[p] == b[p] && !merged[p]
    }

    method SlideNext(d: Direction, l: nat, ghost line: Line, ghost b: Cells, ghost target: Cells,
                     ghost flags: seq<bool>)
      returns (moved: bool, gained: uint32)
      requires Shape() && |flags| == CELLS && l < SIZE && SlidUpTo(d, l, b, target, flags)
      requires LineHolds(d, l, line, b) && LineSlid(d, l, line, target, flags)
      modifies tiles, merged
      ensures SlidUpTo(d, l + 1, b, target, flags)
      ensures moved <==> Slide(line) != line
      ensures gained == Gain(Pack(line)) % 0x1_0000_0000
    {
      moved, gained := SlideLine(d, l, line);
    }

    /** Slides all four lines in place, before scoring and spawning. */
    method SlideAll(d: Direction, ghost lines: seq<Line>, ghost b: Cells, ghost target: Cells, ghost flags: seq<bool>)
      returns (changed: bool, mergedAny: bool, scoreDelta: uint32)
      requires Shape() && |flags| == CELLS && |lines| == SIZE && SlidUpTo(d, 0, b, target, flags)
      requires forall l :: 0 <= l < SIZE ==> LineHolds(d, l, lines[l], b) && LineSlid(d, l, lines[l], target, flags)
      modifies tiles, merged
      ensures SlidUpTo(d, SIZE, b, target, flags)
      ensures MoveResult(changed, mergedAny, scoreDelta) == Report(lines)
    {
      changed, mergedAny, scoreDelta := false, false, 0;
      var l := 0;
      while l < SIZE
        invariant 0 <= l <= SIZE && SlidUpTo(d, l, b, target, flags)
        invariant MoveResult(changed, mergedAny, scoreDelta) == Report(lines[..l])
      {
        ghost var before := MoveResult(changed, mergedAny, scoreDelta);
        var moved, gained := SlideNext(d, l, lines[l], b, target, flags);
        changed := changed || moved;
        if gained > 0 {
          mergedAny := true;
          scoreDelta := Add32(scoreDelta, gained);
        }
        OneMoreLine(lines, l, before, moved, gained);
        l := l + 1;
      }
      assert lines[..l] == lines;
    }

    /** Scores a changed move, spawns exactly one tile, and judges the board. */
    method FinishTurn(ghost moved: Game, scoreDelta: uint32) returns (ghost cell: nat, ghost v: uint32)
      requires Shape() && 0 in moved.tiles && moved.state == Playing
      requires tiles[..] == moved.tiles && merged[..] == moved.merged && Add32(score, scoreDelta) == moved.score
      requires state == Playing && twos == moved.twos && fours == moved.fours
      modifies this, tiles
      ensures SpawnOk(moved.tiles, cell, v) && View() == Judged(Spawn(moved, cell, v))
    {
      score := Add32(score, scoreDelta);
      assert View() == moved;
      cell, v := SpawnRandomTile();
      var possible := AnyMovePossible();
      if !possible {
        state := GameOver;
      }
    }

    method ClearFlags()
      requires Shape()
      modifies merged
      ensures merged[..] == NoFlags()
    {
      forall i | 0 <= i < CELLS {
        merged[i] := false;
      }
    }

    /** A turn of a game still being played, given what sliding the lines leads to. */
    method TakeTurn(d: Direction, ghost g: Game, ghost moved: Game, ghost lines: seq<Line>)
      returns (r: MoveResult, ghost t: Turn)
      requires Shape() && View() == g && g.state == Playing && Prepared(g, d, moved, lines)
      modifies this, tiles, merged
      ensures r == Report(lines)
      ensures Taken(moved, d, r.changed, g.score, t, View())
    {
      ClearFlags();
      assert forall p :: 0 <= p < CELLS ==> merged[p] == merged[..][p];
      var changed, mergedAny, scoreDelta := SlideAll(d, lines, g.tiles, moved.tiles, moved.merged);
      assert tiles[..] == moved.tiles && merged[..] == moved.merged;
      t := Turn(d, 0, 2);
      if changed {
        ghost var cell, v := FinishTurn(moved, scoreDelta);
        t := Turn(d, cell, v);
      }
      r := MoveResult(changed, mergedAny, scoreDelta);
    }

    /** A turn in place; a move in a finished game does nothing. */
    method Move(d: Direction) returns (r: MoveResult, ghost t: Turn)
      requires Shape() && GameInv(View())
      modifies this, tiles, merged
      ensures GameInv(View()) && t.d == d
      ensures TurnOk(old(View()), t) && View() == Play(old(View()), t)
      ensures r == ReportOf(old(View()), d)
      ensures TurnShown(old(View()), d, t, r, View())
    {
      ghost var g := View();
      if state == GameOver {
        r, t := MoveResult(false, false, 0), Turn(d, 0, 2);
      } else {
        r, t := PlayTurn(d, View());
      }
      TurnShows(g, d, t);
    }

    method PlayTurn(d: Direction, ghost g: Game) returns (r: MoveResult, ghost t: Turn)
      requires Shape() && View() == g && GameInv(g) && g.state == Playing
      modifies this, tiles, merged
      ensures GameInv(View()) && t.d == d
      ensures TurnOk(g, t) && View() == Play(g, t)
      ensures r == ReportOf(g, d)
    {
      Prepare(g, d);
      r, t := TakeTurn(d, g, Moved(g, d), LinesOf(g.tiles, d));
      TurnTaken(g, d, r.changed, t, View());
    }
  }

  /** A move's score fits: it is bounded by the weight of the board it leaves. */
  lemma TurnGain(g: Game, d: Direction)
    requires GameInv(g)
    ensures g.score + TotalGain(g.tiles, d) < 0x1_0000_0000
    ensures Slid(g.tiles, d) == g.tiles ==> TotalGain(g.tiles, d) == 0
    ensures Slid(g.tiles, d) != g.tiles ==> 0 in Slid(g.tiles, d)
  {
    BoundedIsSmall(g.tiles);
    if Slid(g.tiles, d) != g.tiles {
      ChangedLeavesGap(g.tiles, d);
      var cell :| 0 <= cell < CELLS && Slid(g.tiles, d)[cell] == 0;
      SpawnedFacts(g, d, cell, 2);
    } else {
      MovedFacts(g, d);
    }
  }

  lemma UnchangedHasNoFlags(b: Cells, d: Direction)
    requires Slid(b, d) == b
    ensures MergedBoard(b, d) == NoFlags()
  {
    ChangedByLine(b, d);
  }
}
