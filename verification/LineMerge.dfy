/** One line of the 2048 board: slide towards index 0 and merge each tile at most once. */
module LineMerge {
  import opened Protocol

  const SIZE: nat := 4

  type Line = s: seq<uint32> | |s| == SIZE witness [0, 0, 0, 0]

  function Pack(s: seq<uint32>): (r: seq<uint32>)
    ensures |r| <= |s| && 0 !in r
  {
    if s == [] then [] else (if s[0] != 0 then [s[0]] else []) + Pack(s[1..])
  }

  /** Doubling in 32 bits. */
  function Double(v: uint32): uint32 {
    (v as int) * 2 % 0x1_0000_0000
  }

  function MergeOnce(s: seq<uint32>): (r: seq<uint32>)
    ensures |r| <= |s|
  {
    if s == [] then []
    else if |s| > 1 && s[0] == s[1] then [Double(s[0])] + MergeOnce(s[2..])
    else [s[0]] + MergeOnce(s[1..])
  }

  /** Which tiles of the result are merges. */
  function MergeFlags(s: seq<uint32>): (r: seq<bool>)
    ensures |r| == |MergeOnce(s)|
  {
    if s == [] then []
    else if |s| > 1 && s[0] == s[1] then [true] + MergeFlags(s[2..])
    else [false] + MergeFlags(s[1..])
  }

  /** The score of the merges, not truncated. */
  function Gain(s: seq<uint32>): nat {
    if s == [] then 0
    else if |s| > 1 && s[0] == s[1] then Double(s[0]) + Gain(s[2..])
    else Gain(s[1..])
  }

  function Pad<T>(s: seq<T>, fill: T): (r: seq<T>)
    requires |s| <= SIZE
    ensures |r| == SIZE && r[..|s|] == s && forall i :: |s| <= i < SIZE ==> r[i] == fill
  {
    s + seq(SIZE - |s|, _ => fill)
  }

  function Slide(line: Line): Line {
    Pad(MergeOnce(Pack(line)), 0)
  }

  function SlideFlags(line: Line): (r: seq<bool>)
    ensures |r| == SIZE
  {
    Pad(MergeFlags(Pack(line)), false)
  }

  lemma {:induction false} PackSnoc(s: seq<uint32>, v: uint32)
    ensures Pack(s + [v]) == Pack(s) + if v != 0 then [v] else []
  {
    if s == [] {
      assert s + [v] == [v];
    } else {
      PackSnoc(s[1..], v);
      assert (s + [v])[1..] == s[1..] + [v];
      Assoc(if s[0] != 0 then [s[0]] else [], Pack(s[1..]), if v != 0 then [v] else []);
    }
  }

  /** The in-place algorithm: pack, merge with a read and a write cursor, copy back. */
  method CompressLine(line: array<uint32>, outMerged: array<bool>) returns (scoreDelta: uint32)
    requires line.Length == SIZE && outMerged.Length == SIZE
    modifies line, outMerged
    ensures line[..] == Slide(old(line[..]))
    ensures outMerged[..] == SlideFlags(old(line[..]))
    ensures scoreDelta == Gain(Pack(old(line[..]))) % 0x1_0000_0000
  {
    var packed := new uint32[SIZE](_ => 0);
    var n := PackInto(line, packed);
    var result := new uint32[SIZE](_ => 0);
    var merged := new bool[SIZE](_ => false);
    scoreDelta := MergeInto(packed, n, result, merged);
    forall j | 0 <= j < SIZE {
      line[j] := result[j];
    }
    forall j | 0 <= j < SIZE {
      outMerged[j] := merged[j];
    }
    assert line[..] == result[..] && outMerged[..] == merged[..];
  }

  method MergeInto(packed: array<uint32>, n: nat, result: array<uint32>, merged: array<bool>)
    returns (scoreDelta: uint32)
    requires packed.Length == SIZE && result.Length == SIZE && merged.Length == SIZE && n <= SIZE && packed != result
    requires forall j :: 0 <= j < SIZE ==> result[j] == 0 && !merged[j]
    modifies result, merged
    ensures result[..] == Pad(MergeOnce(packed[..n]), 0)
    ensures merged[..] == Pad(MergeFlags(packed[..n]), false)
    ensures scoreDelta == Gain(packed[..n]) % 0x1_0000_0000
  {
    ghost var all := packed[..n];
    ghost var r: seq<uint32>, m: seq<bool>, gained: nat := [], [], 0;
    MergeStart(all);
    scoreDelta := 0;
    var write, i := 0, 0;
    while i < n
      invariant 0 <= write <= i <= n
      invariant |r| == |m| == write && forall j :: 0 <= j < write ==> result[j] == r[j] && merged[j] == m[j]
      invariant forall j :: write <= j < SIZE ==> result[j] == 0 && !merged[j]
      invariant MergedUpTo(all, i, r, m, gained) && scoreDelta == gained % 0x1_0000_0000
    {
      assert packed[i] == all[i] && (i + 1 < n ==> packed[i + 1] == all[i + 1]);
      MergeStep(all, i, r, m, gained);
      var both := i + 1 < n && packed[i] == packed[i + 1];
      var v: uint32 := if both then Double(packed[i]) else packed[i];
      result[write] := v;
      r, m := r + [v], m + [both];
      if both {
        merged[write] := true;
        AddWrapsOne(gained, v);
        scoreDelta := Add32(scoreDelta, v);
        gained := gained + v;
      }
      write, i := write + 1, if both then i + 2 else i + 1;
    }
    MergeEnd(all, r, m, gained);
    PadIs(result[..], r, 0);
    PadIs(merged[..], m, false);
  }

  /** The merge loop at `i`: what it has written, and what merging the rest will add. */
  ghost predicate MergedUpTo(all: seq<uint32>, i: nat, r: seq<uint32>, m: seq<bool>, gained: nat) {
    && i <= |all| && MergeOnce(all) == r + MergeOnce(all[i..]) && MergeFlags(all) == m + MergeFlags(all[i..])
    && Gain(all) == gained + Gain(all[i..])
  }

  lemma MergeStart(all: seq<uint32>)
    ensures MergedUpTo(all, 0, [], [], 0)
  {
    assert all[0..] == all;
  }

  lemma MergeEnd(all: seq<uint32>, r: seq<uint32>, m: seq<bool>, gained: nat)
    requires MergedUpTo(all, |all|, r, m, gained)
    ensures r == MergeOnce(all) && m == MergeFlags(all) && gained == Gain(all)
  {
    assert all[|all|..] == [];
    assert r + [] == r && m + [] == m;
  }

  lemma PadIs<T>(s: seq<T>, front: seq<T>, fill: T)
    requires |front| <= |s| == SIZE
    requires forall j :: 0 <= j < SIZE ==> s[j] == if j < |front| then front[j] else fill
    ensures s == Pad(front, fill)
  {
  }

  /** Unsigned 32-bit addition. */
  function Add32(x: uint32, y: uint32): uint32 {
    (x as int + y) % 0x1_0000_0000
  }

  lemma AddWrapsOne(x: nat, y: uint32)
    ensures Add32(x % 0x1_0000_0000, y) == (x + y) % 0x1_0000_0000
  {
    AddWraps(x, y);
  }

  lemma AddWraps(x: nat, y: nat)
    ensures Add32(x % 0x1_0000_0000, y % 0x1_0000_0000) == (x + y) % 0x1_0000_0000
  {
  }

  /** One turn of the merge loop moves one result tile in front. */
  lemma MergeStep(all: seq<uint32>, i: nat, r: seq<uint32>, m: seq<bool>, gained: nat)
    requires i < |all| && MergedUpTo(all, i, r, m, gained)
    ensures var both := i + 1 < |all| && all[i] == all[i + 1];
      var v := if both then Double(all[i]) else all[i];
      MergedUpTo(all, if both then i + 2 else i + 1, r + [v], m + [both], gained + if both then v else 0)
  {
    var s := all[i..];
    var both := i + 1 < |all| && all[i] == all[i + 1];
    var v, next := if both then Double(all[i]) else all[i], if both then i + 2 else i + 1;
    assert s[next - i..] == all[next..];
    Assoc(r, [v], MergeOnce(all[next..]));
    Assoc(m, [both], MergeFlags(all[next..]));
  }

  method PackInto(line: array<uint32>, packed: array<uint32>) returns (n: nat)
    requires line.Length == SIZE && packed.Length == SIZE && line != packed
    modifies packed
    ensures n <= SIZE && packed[..n] == Pack(line[..])
  {
    n := 0;
    var j := 0;
    while j < SIZE
      invariant 0 <= n <= j <= SIZE && packed[..n] == Pack(line[..j])
    {
      ghost var before := packed[..n];
      PackSnoc(line[..j], line[j]);
      assert line[..j + 1] == line[..j] + [line[j]];
      if line[j] != 0 {
        packed[n] := line[j];
        assert packed[..n + 1] == before + [line[j]];
        n := n + 1;
      }
      j := j + 1;
    }
    assert line[..j] == line[..];
  }

  /// Sums over lines
  /// ---------------

  function Sum(s: seq<uint32>, f: uint32 -> int): int {
    if s == [] then 0 else f(s[0]) + Sum(s[1..], f)
  }

  lemma {:induction false} SumAppend(s: seq<uint32>, t: seq<uint32>, f: uint32 -> int)
    ensures Sum(s + t, f) == Sum(s, f) + Sum(t, f)
  {
    if s == [] {
      assert s + t == t;
    } else {
      SumAppend(s[1..], t, f);
      assert (s + t)[1..] == s[1..] + t;
    }
  }

  lemma SumFour(s: seq<uint32>, f: uint32 -> int)
    requires |s| == 4
    ensures Sum(s, f) == f(s[0]) + f(s[1]) + f(s[2]) + f(s[3])
  {
    assert s[1..][1..] == s[2..] && s[2..][1..] == s[3..] && s[3..][1..] == [];
    assert Sum(s[3..], f) == f(s[3]) && Sum(s[2..], f) == f(s[2]) + Sum(s[3..], f);
    assert Sum(s[1..], f) == f(s[1]) + Sum(s[2..], f);
  }

  lemma {:induction false} SumPack(s: seq<uint32>, f: uint32 -> int)
    requires f(0) == 0
    ensures Sum(Pack(s), f) == Sum(s, f)
  {
    if s != [] {
      SumPack(s[1..], f);
      if s[0] != 0 {
        assert Pack(s)[1..] == Pack(s[1..]);
      } else {
        assert Pack(s) == Pack(s[1..]);
      }
    }
  }

  lemma {:induction false} SumZeros(s: seq<uint32>, f: uint32 -> int)
    requires f(0) == 0 && forall i :: 0 <= i < |s| ==> s[i] == 0
    ensures Sum(s, f) == 0
  {
    if s != [] {
      SumZeros(s[1..], f);
    }
  }

  lemma SumSlide(line: Line, f: uint32 -> int)
    requires f(0) == 0
    ensures Sum(Slide(line), f) == Sum(MergeOnce(Pack(line)), f)
  {
    var m, r := MergeOnce(Pack(line)), Slide(line);
    assert r == m + r[|m|..];
    SumAppend(m, r[|m|..], f);
    SumZeros(r[|m|..], f);
  }

  /// Tiles and weights
  /// -----------------

  const WRAP: nat := 0x8000_0000

  /** Small enough that doubling does not wrap. */
  predicate Small(s: seq<uint32>) {
    forall i :: 0 <= i < |s| ==> s[i] < WRAP
  }

  function Ident(v: uint32): int {
    v
  }

  /** What a tile has earned since it was spawned as a 2: for 2^k, (k - 1) * 2^k. */
  function Weight(v: uint32): int {
    if v <= 2 then 0 else 2 * Weight(v / 2) + v
  }

  predicate AllTiles(s: seq<uint32>) {
    forall i :: 0 <= i < |s| ==> s[i] >= 2
  }

  lemma WeightDoubles(v: uint32)
    requires 2 <= v < WRAP
    ensures Double(v) == 2 * v && Weight(Double(v)) == 2 * Weight(v) + 2 * v
  {
    DoubleFits(v);
    var w: uint32 := Double(v);
    assert w / 2 == v;
    assert Weight(w) == 2 * Weight(w / 2) + w;
  }

  lemma DoubleFits(v: uint32)
    requires v < WRAP
    ensures Double(v) == 2 * v
  {
  }

  lemma SumPair(s: seq<uint32>, f: uint32 -> int)
    requires |s| >= 2
    ensures Sum(s, f) == f(s[0]) + f(s[1]) + Sum(s[2..], f)
  {
    assert s[1..][1..] == s[2..];
  }

  /** Merging keeps the sum and adds exactly the gain to the weight. */
  lemma {:induction false} MergeConserves(s: seq<uint32>)
    requires Small(s) && AllTiles(s)
    ensures Sum(MergeOnce(s), Ident) == Sum(s, Ident)
    ensures Sum(MergeOnce(s), Weight) == Sum(s, Weight) + Gain(s)
  {
    if s != [] {
      if |s| > 1 && s[0] == s[1] {
        MergeConserves(s[2..]);
        WeightDoubles(s[0]);
        SumPair(s, Ident);
        SumPair(s, Weight);
        assert MergeOnce(s)[1..] == MergeOnce(s[2..]);
      } else {
        MergeConserves(s[1..]);
        assert MergeOnce(s)[1..] == MergeOnce(s[1..]);
      }
    }
  }

  function Pow2(k: nat): (p: nat)
    ensures p >= 1
  {
    if k == 0 then 1 else 2 * Pow2(k - 1)
  }

  /** Counts the tiles of at least 2^k. */
  function AtLeast(k: nat): uint32 -> int {
    (v: uint32) => if v >= Pow2(k) then 1 else 0
  }

  /** Merges that lift a pair of tiles from below 2^k to at least 2^k. */
  function Lifts(s: seq<uint32>, k: nat): nat {
    if s == [] then 0
    else if |s| > 1 && s[0] == s[1] then (if s[0] < Pow2(k) <= 2 * (s[0] as int) then 1 else 0) + Lifts(s[2..], k)
    else Lifts(s[1..], k)
  }

  /** Each lift makes one new tile of 2^k out of two that counted at 2^(k-1) only. */
  lemma {:induction false} MergeCounts(s: seq<uint32>, k: nat)
    requires Small(s) && AllTiles(s) && k >= 1
    ensures Sum(MergeOnce(s), AtLeast(k)) <= Sum(s, AtLeast(k)) + Lifts(s, k)
    ensures 2 * Lifts(s, k) + Sum(s, AtLeast(k)) <= Sum(s, AtLeast(k - 1))
  {
    if s != [] {
      if |s| > 1 && s[0] == s[1] {
        MergeCounts(s[2..], k);
        assert s[1..][1..] == s[2..];
        assert MergeOnce(s)[1..] == MergeOnce(s[2..]);
        assert Double(s[0]) == 2 * s[0];
        assert Sum(s[1..], AtLeast(k)) == AtLeast(k)(s[1]) + Sum(s[2..], AtLeast(k));
        assert Sum(s[1..], AtLeast(k - 1)) == AtLeast(k - 1)(s[1]) + Sum(s[2..], AtLeast(k - 1));
      } else {
        MergeCounts(s[1..], k);
        assert MergeOnce(s)[1..] == MergeOnce(s[1..]);
      }
    }
  }

  /** A power of two from 2 up. */
  predicate IsTile(v: uint32) {
    v == 2 || (v > 2 && v % 2 == 0 && IsTile(v / 2))
  }

  predicate Tiles(s: seq<uint32>) {
    forall i :: 0 <= i < |s| ==> s[i] == 0 || IsTile(s[i])
  }

  lemma {:induction false} PackTiles(s: seq<uint32>)
    requires Tiles(s) && Small(s)
    ensures Tiles(Pack(s)) && AllTiles(Pack(s)) && Small(Pack(s))
  {
    if s != [] {
      PackTiles(s[1..]);
    }
  }

  lemma DoubleTile(v: uint32)
    requires IsTile(v) && 2 <= v < WRAP
    ensures IsTile(Double(v)) && Double(v) == 2 * v
  {
    DoubleFits(v);
    var w: uint32 := Double(v);
    assert w / 2 == v && w % 2 == 0;
  }

  lemma {:induction false} MergeTiles(s: seq<uint32>)
    requires Tiles(s) && AllTiles(s) && Small(s)
    ensures Tiles(MergeOnce(s)) && AllTiles(MergeOnce(s))
  {
    if s != [] {
      if |s| > 1 && s[0] == s[1] {
        MergeTiles(s[2..]);
        DoubleTile(s[0]);
        assert MergeOnce(s) == [Double(s[0])] + MergeOnce(s[2..]);
      } else {
        MergeTiles(s[1..]);
        assert MergeOnce(s) == [s[0]] + MergeOnce(s[1..]);
      }
    }
  }

  lemma SlideTiles(line: Line)
    requires Tiles(line) && Small(line)
    ensures Tiles(Slide(line)) && AllTiles(MergeOnce(Pack(line)))
  {
    PackTiles(line);
    MergeTiles(Pack(line));
    var m, r := MergeOnce(Pack(line)), Slide(line);
    assert forall i :: 0 <= i < |m| ==> r[i] == r[..|m|][i] == m[i];
  }

  lemma SlideConserves(line: Line)
    requires Tiles(line) && Small(line)
    ensures Sum(Slide(line), Ident) == Sum(line, Ident)
    ensures Sum(Slide(line), Weight) == Sum(line, Weight) + Gain(Pack(line))
  {
    PackTiles(line);
    MergeConserves(Pack(line));
    SumPack(line, Ident);
    SumPack(line, Weight);
    SumSlide(line, Ident);
    SumSlide(line, Weight);
  }

  lemma SlideCounts(line: Line, k: nat)
    requires Tiles(line) && Small(line) && k >= 2
    ensures Sum(Slide(line), AtLeast(k)) <= Sum(line, AtLeast(k)) + Lifts(Pack(line), k)
    ensures 2 * Lifts(Pack(line), k) + Sum(line, AtLeast(k)) <= Sum(line, AtLeast(k - 1))
  {
    PackTiles(line);
    MergeCounts(Pack(line), k);
    assert Pow2(k) >= 2 && Pow2(k - 1) >= 2;
    SumPack(line, AtLeast(k));
    SumPack(line, AtLeast(k - 1));
    SumSlide(line, AtLeast(k));
  }

  /// When a line moves
  /// -----------------

  predicate Full(s: seq<uint32>) {
    forall i :: 0 <= i < |s| ==> s[i] != 0
  }

  predicate NoEqualNeighbours(s: seq<uint32>) {
    forall i :: 0 <= i < |s| - 1 ==> s[i] != s[i + 1]
  }

  lemma {:induction false} PackFull(s: seq<uint32>)
    ensures Full(s) ==> Pack(s) == s
    ensures !Full(s) ==> |Pack(s)| < |s|
  {
    if s != [] {
      PackFull(s[1..]);
      assert s == [s[0]] + s[1..];
    }
  }

  lemma {:induction false} MergeFixed(s: seq<uint32>)
    ensures NoEqualNeighbours(s) ==> MergeOnce(s) == s && Gain(s) == 0
    ensures !NoEqualNeighbours(s) ==> |MergeOnce(s)| < |s|
  {
    if |s| > 1 {
      if s[0] != s[1] {
        MergeFixed(s[1..]);
        assert s == [s[0]] + s[1..];
        assert forall i :: 0 <= i < |s| - 2 ==> s[1..][i] == s[i + 1];
        if NoEqualNeighbours(s[1..]) {
          forall i | 0 <= i < |s| - 1 ensures s[i] != s[i + 1] {
            assert i > 0 ==> s[1..][i - 1] != s[1..][i];
          }
        }
      }
    } else if |s| == 1 {
      assert s == [s[0]] && MergeOnce(s[1..]) == [];
    }
  }

  /** The tiles of a slid line come first, and one is missing at the end unless the line was full and fixed. */
  lemma SlideShape(line: Line)
    requires Tiles(line) && Small(line)
    ensures forall i :: 0 <= i < SIZE - 1 && Slide(line)[i] == 0 ==> Slide(line)[i + 1] == 0
    ensures Full(line) && NoEqualNeighbours(line) ==> Slide(line) == line
    ensures !(Full(line) && NoEqualNeighbours(line)) ==> Slide(line)[SIZE - 1] == 0
  {
    SlideTiles(line);
    PackFull(line);
    MergeFixed(Pack(line));
    var m, r := MergeOnce(Pack(line)), Slide(line);
    assert forall i :: 0 <= i < |m| ==> r[i] == r[..|m|][i] == m[i];
    if Full(line) && NoEqualNeighbours(line) {
      assert r == r[..4] == m;
    }
  }

  /** A line that moves leaves an empty cell. */
  lemma MovedLeavesGap(line: Line)
    requires Tiles(line) && Small(line) && Slide(line) != line
    ensures Slide(line)[SIZE - 1] == 0
  {
    SlideShape(line);
  }

  function Reverse(line: Line): Line {
    [line[3], line[2], line[1], line[0]]
  }

  /** A line with both a tile and a gap moves one way or the other. */
  lemma MixedMoves(line: Line, i: nat, j: nat)
    requires Tiles(line) && Small(line) && i < SIZE && j < SIZE && line[i] == 0 && line[j] != 0
    ensures Slide(line) != line || Slide(Reverse(line)) != Reverse(line)
  {
    SlideShape(line);
    SlideShape(Reverse(line));
  }

  /** A line without gaps moves exactly when it has equal neighbours. */
  lemma FullMoves(line: Line)
    requires Tiles(line) && Small(line) && Full(line)
    ensures Slide(line) == line <==> NoEqualNeighbours(line)
  {
    SlideShape(line);
  }

  lemma {:induction false} NoMergeNoGain(s: seq<uint32>)
    requires Small(s) && AllTiles(s)
    ensures Gain(s) == 0 <==> NoEqualNeighbours(s)
  {
    MergeFixed(s);
    if |s| > 1 {
      if s[0] != s[1] {
        NoMergeNoGain(s[1..]);
        assert forall i :: 0 <= i < |s| - 2 ==> s[1..][i] == s[i + 1];
        if NoEqualNeighbours(s[1..]) {
          forall i | 0 <= i < |s| - 1 ensures s[i] != s[i + 1] {
            assert i > 0 ==> s[1..][i - 1] != s[1..][i];
          }
        }
      }
    }
  }

  /** A line that scores moves. */
  lemma GainMoves(line: Line)
    requires Tiles(line) && Small(line) && Gain(Pack(line)) > 0
    ensures Slide(line) != line
  {
    PackTiles(line);
    NoMergeNoGain(Pack(line));
    MergeFixed(Pack(line));
    SlideTiles(line);
    PackSlide(line);
  }

  /** Packing a slid line gives back its tiles. */
  lemma PackSlide(line: Line)
    requires 0 !in MergeOnce(Pack(line))
    ensures Pack(Slide(line)) == MergeOnce(Pack(line))
  {
    var m, r := MergeOnce(Pack(line)), Slide(line);
    PackAppend(m, r[|m|..]);
    assert r == m + r[|m|..];
    PackFull(m);
    PackZeros(r[|m|..]);
  }

  lemma {:induction false} PackAppend(s: seq<uint32>, t: seq<uint32>)
    ensures Pack(s + t) == Pack(s) + Pack(t)
  {
    if s == [] {
      assert s + t == t;
    } else {
      PackAppend(s[1..], t);
      assert (s + t)[1..] == s[1..] + t;
      Assoc(if s[0] != 0 then [s[0]] else [], Pack(s[1..]), Pack(t));
    }
  }

  lemma {:induction false} PackZeros(s: seq<uint32>)
    requires forall i :: 0 <= i < |s| ==> s[i] == 0
    ensures Pack(s) == []
  {
    if s != [] {
      PackZeros(s[1..]);
    }
  }

  /// Merge flags
  /// -----------

  /** The total value of the flagged cells. */
  function Flagged(s: seq<uint32>, flags: seq<bool>): nat
    requires |s| == |flags|
  {
    if s == [] then 0 else (if flags[0] then s[0] else 0) + Flagged(s[1..], flags[1..])
  }

  lemma {:induction false} FlagsMarkGain(s: seq<uint32>)
    ensures Flagged(MergeOnce(s), MergeFlags(s)) == Gain(s)
  {
    if s != [] {
      if |s| > 1 && s[0] == s[1] {
        FlagsMarkGain(s[2..]);
        assert MergeOnce(s)[1..] == MergeOnce(s[2..]) && MergeFlags(s)[1..] == MergeFlags(s[2..]);
      } else {
        FlagsMarkGain(s[1..]);
        assert MergeOnce(s)[1..] == MergeOnce(s[1..]) && MergeFlags(s)[1..] == MergeFlags(s[1..]);
      }
    }
  }

  lemma {:induction false} FlaggedAppend(s: seq<uint32>, f: seq<bool>, t: seq<uint32>, g: seq<bool>)
    requires |s| == |f| && |t| == |g|
    ensures Flagged(s + t, f + g) == Flagged(s, f) + Flagged(t, g)
  {
    if s == [] {
      assert s + t == t && f + g == g;
    } else {
      FlaggedAppend(s[1..], f[1..], t, g);
      assert (s + t)[1..] == s[1..] + t && (f + g)[1..] == f[1..] + g;
    }
  }

  lemma {:induction false} UnflaggedIsZero(s: seq<uint32>, f: seq<bool>)
    requires |s| == |f| && forall i :: 0 <= i < |f| ==> !f[i]
    ensures Flagged(s, f) == 0
  {
    if s != [] {
      UnflaggedIsZero(s[1..], f[1..]);
    }
  }

  /** The cells flagged after a slide are worth exactly what the line scored. */
  lemma SlideFlagsMarkGain(line: Line)
    ensures Flagged(Slide(line), SlideFlags(line)) == Gain(Pack(line))
  {
    var s := Pack(line);
    var m, f, r, g := MergeOnce(s), MergeFlags(s), Slide(line), SlideFlags(line);
    FlagsMarkGain(s);
    assert r == m + r[|m|..] && g == f + g[|m|..];
    FlaggedAppend(m, f, r[|m|..], g[|m|..]);
    UnflaggedIsZero(r[|m|..], g[|m|..]);
  }

  /// Slide, tile by tile
  /// -------------------

  /** A gap makes no difference but for its place: moving it to the end gives the same result. */
  lemma GapMovesToEnd(line: Line, i: nat)
    requires i < 4 && line[i] == 0
    ensures var closed: Line := line[..i] + line[i + 1..] + [0];
      Slide(line) == Slide(closed) && SlideFlags(line) == SlideFlags(closed) && Gain(Pack(line)) == Gain(Pack(closed))
  {
    GapPacksAway(line[..i], line[i + 1..]);
    assert line == line[..i] + ([0] + line[i + 1..]);
  }

  lemma GapPacksAway(a: seq<uint32>, b: seq<uint32>)
    ensures Pack(a + ([0] + b)) == Pack(a + b + [0])
  {
    PackAppend(a, [0] + b);
    assert ([0] + b)[1..] == b;
    PackAppend(a, b);
    PackSnoc(a + b, 0);
  }

  /** What sliding makes of a line without gaps between its tiles. Neighbours merge from the front, a tile
      takes part in one merge at most, and nothing else changes. */
  function ByHand(a: uint32, b: uint32, c: uint32, d: uint32): (Line, seq<bool>, nat) {
    var aa, bb, cc := a as int * 2 % 0x1_0000_0000, b as int * 2 % 0x1_0000_0000, c as int * 2 % 0x1_0000_0000;
    if a == 0 then ([0, 0, 0, 0], [false, false, false, false], 0)
    else if a == b && c == d && c != 0 then ([aa, cc, 0, 0], [true, true, false, false], aa + cc)
    else if a == b then ([aa, c, d, 0], [true, false, false, false], aa)
    else if b == c && b != 0 then ([a, bb, d, 0], [false, true, false, false], bb)
    else if c == d && c != 0 then ([a, b, cc, 0], [false, false, true, false], cc)
    else ([a, b, c, d], [false, false, false, false], 0)
  }

  /** Tiles and then nothing. */
  lemma PackClosed(tiles: seq<uint32>, gaps: seq<uint32>)
    requires Full(tiles) && forall i :: 0 <= i < |gaps| ==> gaps[i] == 0
    ensures Pack(tiles + gaps) == tiles
  {
    PackAppend(tiles, gaps);
    PackFull(tiles);
    PackZeros(gaps);
  }

  lemma MergeTwo(a: uint32, b: uint32)
    ensures MergeOnce([a]) == [a] && MergeFlags([a]) == [false] && Gain([a]) == 0
    ensures a == b ==> MergeOnce([a, b]) == [Double(a)] && MergeFlags([a, b]) == [true] && Gain([a, b]) == Double(a)
    ensures a != b ==> MergeOnce([a, b]) == [a, b] && MergeFlags([a, b]) == [false, false] && Gain([a, b]) == 0
  {
    assert [a][1..] == [] && [a, b][1..] == [b] && [a, b][2..] == [] && [b][1..] == [];
  }

  lemma MergeFirst(s: seq<uint32>)
    requires |s| >= 2
    ensures s[0] == s[1] ==>
              && MergeOnce(s) == [Double(s[0])] + MergeOnce(s[2..]) && MergeFlags(s) == [true] + MergeFlags(s[2..])
              && Gain(s) == Double(s[0]) + Gain(s[2..])
    ensures s[0] != s[1] ==>
              && MergeOnce(s) == [s[0]] + MergeOnce(s[1..]) && MergeFlags(s) == [false] + MergeFlags(s[1..])
              && Gain(s) == Gain(s[1..])
  {
  }

  lemma MergeThree(a: uint32, b: uint32, c: uint32)
    ensures MergeOnce([a, b, c]) ==
            if a == b then [Double(a), c] else if b == c then [a, Double(b)] else [a, b, c]
    ensures MergeFlags([a, b, c]) ==
            if a == b then [true, false] else if b == c then [false, true] else [false, false, false]
    ensures Gain([a, b, c]) == if a == b then Double(a) else if b == c then Double(b) else 0
  {
    var s := [a, b, c];
    MergeFirst(s);
    assert s[1..] == [b, c] && s[2..] == [c];
    MergeTwo(b, c);
    MergeTwo(c, c);
  }

  lemma MergeFour(a: uint32, b: uint32, c: uint32, d: uint32)
    ensures var s := [a, b, c, d];
      && (a == b ==> MergeOnce(s) == [Double(a)] + MergeOnce([c, d]) && MergeFlags(s) == [true] + MergeFlags([c, d])
                     && Gain(s) == Double(a) + Gain([c, d]))
      && (a != b ==> MergeOnce(s) == [a] + MergeOnce([b, c, d]) && MergeFlags(s) == [false] + MergeFlags([b, c, d])
                     && Gain(s) == Gain([b, c, d]))
  {
    var s := [a, b, c, d];
    MergeFirst(s);
    assert s[1..] == [b, c, d] && s[2..] == [c, d];
  }

  /** Packed, merged and flagged, these give the three parts of the result. */
  ghost predicate Gives(p: seq<uint32>, r: (Line, seq<bool>, nat)) {
    && |r.1| == 4 && |MergeOnce(p)| <= 4 && Gain(p) == r.2
    && r.0 == Pad(MergeOnce(p), 0) && r.1 == Pad(MergeFlags(p), false)
  }

  lemma GivesFew(a: uint32, b: uint32)
    requires a != 0
    ensures Gives([], ByHand(0, 0, 0, 0)) && Gives([a], ByHand(a, 0, 0, 0))
    ensures b != 0 ==> Gives([a, b], ByHand(a, b, 0, 0))
  {
    MergeTwo(a, b);
  }

  lemma GivesThree(a: uint32, b: uint32, c: uint32)
    requires a != 0 && b != 0 && c != 0
    ensures Gives([a, b, c], ByHand(a, b, c, 0))
  {
    MergeThree(a, b, c);
  }

  lemma GivesFour(a: uint32, b: uint32, c: uint32, d: uint32)
    requires a != 0 && b != 0 && c != 0 && d != 0
    ensures Gives([a, b, c, d], ByHand(a, b, c, d))
  {
    MergeFour(a, b, c, d);
    if a == b {
      MergeTwo(c, d);
    } else {
      MergeThree(b, c, d);
    }
  }

  lemma FewByHand(a: uint32, b: uint32)
    requires a == 0 ==> b == 0
    ensures Gives(Pack([a, b, 0, 0]), ByHand(a, b, 0, 0))
  {
    if a == 0 {
      PackClosed([], [0, 0, 0, 0]);
      assert [] + [0, 0, 0, 0] == [a, b, 0, 0];
      GivesFew(1, 1);
    } else if b == 0 {
      PackClosed([a], [0, 0, 0]);
      assert [a] + [0, 0, 0] == [a, b, 0, 0];
      GivesFew(a, a);
    } else {
      PackClosed([a, b], [0, 0]);
      assert [a, b] + [0, 0] == [a, b, 0, 0];
      GivesFew(a, b);
    }
  }

  lemma ManyByHand(a: uint32, b: uint32, c: uint32, d: uint32)
    requires a != 0 && b != 0 && c != 0
    ensures Gives(Pack([a, b, c, d]), ByHand(a, b, c, d))
  {
    if d == 0 {
      PackClosed([a, b, c], [0]);
      assert [a, b, c] + [0] == [a, b, c, d];
      GivesThree(a, b, c);
    } else {
      PackFull([a, b, c, d]);
      GivesFour(a, b, c, d);
    }
  }

  /** Slide, flags and gain of every line without gaps; with GapMovesToEnd, of every line. */
  lemma SlideByHand(a: uint32, b: uint32, c: uint32, d: uint32)
    requires (a == 0 ==> b == 0) && (b == 0 ==> c == 0) && (c == 0 ==> d == 0)
    ensures Slide([a, b, c, d]) == ByHand(a, b, c, d).0
    ensures SlideFlags([a, b, c, d]) == ByHand(a, b, c, d).1
    ensures Gain(Pack([a, b, c, d])) == ByHand(a, b, c, d).2
  {
    if c == 0 {
      FewByHand(a, b);
    } else {
      ManyByHand(a, b, c, d);
    }
  }
}
