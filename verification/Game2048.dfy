/** What every game of 2048 keeps, and exactly when no move is left. */
module Game2048 {

  import opened Boards2048

  // ---------- Tiles and their weights ----------

  /** A power of two, from 2 on. */
  predicate IsTile(x: nat) {
    x == 2 || (x > 2 && x % 2 == 0 && IsTile(x / 2))
  }

  function Pow2(k: nat): nat {
    if k == 0 then 1 else 2 * Pow2(k - 1)
  }

  /** The points it takes to merge a tile out of 2s. */
  function Phi(x: nat): nat {
    if x <= 2 || x % 2 == 1 then 0 else 2 * Phi(x / 2) + x
  }

  lemma {:induction false} PowerIsTile(k: nat)
    requires 1 <= k
    ensures IsTile(Pow2(k))
    ensures Phi(Pow2(k)) == (k - 1) * Pow2(k)
  {
    if k == 1 {
      assert Pow2(1) == 2 * Pow2(0);
    } else {
      PowerIsTile(k - 1);
      assert Pow2(k) / 2 == Pow2(k - 1);
      assert Pow2(k) > 2 by { if k > 2 { assert Pow2(k - 1) > 0; } }
      assert 2 * ((k - 2) * Pow2(k - 1)) + Pow2(k) == (k - 1) * Pow2(k);
    }
  }

  lemma {:induction false} TileIsPower(x: nat) returns (k: nat)
    requires IsTile(x)
    ensures 1 <= k && x == Pow2(k)
  {
    if x == 2 {
      k := 1;
      assert Pow2(1) == 2 * Pow2(0);
    } else {
      k := TileIsPower(x / 2);
      k := k + 1;
    }
  }

  /** The tiles are exactly the powers of two from 2 on. */
  lemma TilesArePowers(x: nat)
    ensures IsTile(x) <==> exists k: nat :: 1 <= k && x == Pow2(k)
  {
    if IsTile(x) {
      var k := TileIsPower(x);
    }
    if k: nat :| 1 <= k && x == Pow2(k) {
      PowerIsTile(k);
    }
  }

  datatype Measure = Value | Potential

  function Weight(m: Measure, x: nat): nat {
    if m.Value? then x else Phi(x)
  }

  function RowWeight(m: Measure, row: seq<nat>): nat {
    if row == [] then 0 else Weight(m, row[0]) + RowWeight(m, row[1..])
  }

  function GridWeight(m: Measure, rows: Board): nat {
    if rows == [] then 0 else GridWeight(m, rows[..|rows| - 1]) + RowWeight(m, rows[|rows| - 1])
  }

  ghost predicate TilesOnly(row: seq<nat>) {
    forall i :: 0 <= i < |row| ==> row[i] == 0 || IsTile(row[i])
  }

  ghost predicate TileBoard(b: Board) {
    forall i :: 0 <= i < |b| ==> TilesOnly(b[i])
  }

  /** The points of a move count for the potential, and for nothing else. */
  function Gain(m: Measure, points: nat): nat {
    if m.Value? then 0 else points
  }

  lemma {:induction false} NonZeroWeighs(m: Measure, row: seq<nat>)
    ensures RowWeight(m, NonZero(row)) == RowWeight(m, row)
    ensures TilesOnly(row) ==> TilesOnly(NonZero(row))
  {
    hide Weight, IsTile, RowWeight, TilesOnly;
    if row == [] {
    } else {
      var x, rest := row[0], row[1..];
      assert row == [x] + rest;
      NonZeroWeighs(m, rest);
      RowCons(m, x, rest);
      RowCons(m, x, NonZero(rest));
      GapWeighsNothing(m);
      assert NonZero(row) == if x == 0 then NonZero(rest) else [x] + NonZero(rest);
    }
  }

  lemma GapWeighsNothing(m: Measure)
    ensures Weight(m, 0) == 0
  {
  }

  lemma RowCons(m: Measure, x: nat, rest: seq<nat>)
    ensures RowWeight(m, [x] + rest) == Weight(m, x) + RowWeight(m, rest)
    ensures TilesOnly([x] + rest) <==> (x == 0 || IsTile(x)) && TilesOnly(rest)
  {
    hide Weight, IsTile;
    assert ([x] + rest)[1..] == rest;
    assert TilesOnly([x] + rest) ==> TilesOnly(([x] + rest)[1..]);
  }

  lemma {:induction false} MergeWeighs(m: Measure, tiles: seq<nat>)
    requires TilesOnly(tiles) && 0 !in tiles
    ensures RowWeight(m, Merge(tiles)) == RowWeight(m, tiles) + Gain(m, MergePoints(tiles))
    ensures TilesOnly(Merge(tiles))
  {
    hide Weight, IsTile, RowWeight, TilesOnly;
    if tiles == [] {
    } else if 1 < |tiles| && tiles[0] == tiles[1] {
      var x, rest := tiles[0], tiles[2..];
      assert tiles == [x] + ([x] + rest);
      RowCons(m, x, [x] + rest);
      RowCons(m, x, rest);
      MergeWeighs(m, rest);
      RowCons(m, x * 2, Merge(rest));
      DoubleWeighs(m, x);
    } else {
      var x, rest := tiles[0], tiles[1..];
      assert tiles == [x] + rest;
      RowCons(m, x, rest);
      MergeWeighs(m, rest);
      RowCons(m, x, Merge(rest));
    }
  }

  lemma DoubleWeighs(m: Measure, x: nat)
    requires IsTile(x)
    ensures IsTile(x * 2) && Weight(m, x * 2) == 2 * Weight(m, x) + Gain(m, x * 2)
  {
    assert Phi(x * 2) == 2 * Phi(x) + x * 2;
  }

  lemma {:induction false} PaddingWeighsNothing(m: Measure, row: seq<nat>, n: nat)
    ensures RowWeight(m, row + Zeros(n)) == RowWeight(m, row)
  {
    if row != [] {
      assert (row + Zeros(n))[1..] == row[1..] + Zeros(n);
      PaddingWeighsNothing(m, row[1..], n);
    } else if n > 0 {
      assert (row + Zeros(n))[1..] == [] + Zeros(n - 1);
      PaddingWeighsNothing(m, [], n - 1);
    } else {
      assert row + Zeros(n) == [];
    }
  }

  lemma SlideWeighs(m: Measure, row: seq<nat>)
    requires |row| == BOARD_SIZE && TilesOnly(row)
    ensures RowWeight(m, Slide(row)) == RowWeight(m, row) + Gain(m, MergePoints(NonZero(row)))
    ensures TilesOnly(Slide(row))
  {
    NonZeroWeighs(m, row);
    MergeWeighs(m, NonZero(row));
    PaddingWeighsNothing(m, Merge(NonZero(row)), BOARD_SIZE - |Merge(NonZero(row))|);
  }

  lemma FourCells(m: Measure, row: seq<nat>)
    requires |row| == BOARD_SIZE
    ensures RowWeight(m, row) == Weight(m, row[0]) + Weight(m, row[1]) + Weight(m, row[2]) + Weight(m, row[3])
  {
    assert row[1..][1..] == row[2..] && row[2..][1..] == row[3..] && row[3..][1..] == [];
    assert RowWeight(m, row[3..]) == Weight(m, row[3]);
    assert RowWeight(m, row[2..]) == Weight(m, row[2]) + Weight(m, row[3]);
  }

  lemma FourRows(m: Measure, b: Board)
    requires IsBoard(b)
    ensures GridWeight(m, b)
         == RowWeight(m, b[0]) + RowWeight(m, b[1]) + RowWeight(m, b[2]) + RowWeight(m, b[3])
  {
    assert b[..3][..2] == b[..2] && b[..2][..1] == b[..1] && b[..1][..0] == [];
    assert GridWeight(m, b[..1]) == RowWeight(m, b[0]);
    assert GridWeight(m, b[..2]) == RowWeight(m, b[0]) + RowWeight(m, b[1]);
  }

  lemma RotationWeighs(m: Measure, b: Board)
    requires IsBoard(b)
    ensures GridWeight(m, Rotate(b)) == GridWeight(m, b)
    ensures TileBoard(b) ==> TileBoard(Rotate(b))
  {
    hide RowWeight, GridWeight, Weight;
    FourRows(m, b);
    FourRows(m, Rotate(b));
    forall i | 0 <= i < BOARD_SIZE
      ensures RowWeight(m, b[i]) == Weight(m, b[i][0]) + Weight(m, b[i][1]) + Weight(m, b[i][2]) + Weight(m, b[i][3])
      ensures RowWeight(m, Rotate(b)[i])
           == Weight(m, b[3][i]) + Weight(m, b[2][i]) + Weight(m, b[1][i]) + Weight(m, b[0][i])
    {
      FourCells(m, b[i]);
      FourCells(m, Rotate(b)[i]);
    }
  }

  lemma {:induction false} TurnWeighs(m: Measure, b: Board, times: nat)
    requires IsBoard(b)
    ensures GridWeight(m, Turned(b, times)) == GridWeight(m, b)
    ensures TileBoard(b) ==> TileBoard(Turned(b, times))
  {
    hide GridWeight, TileBoard;
    if times == 0 {
    } else {
      TurnWeighs(m, b, times - 1);
      RotationWeighs(m, Turned(b, times - 1));
    }
  }

  lemma {:induction false} SlideAllWeighs(m: Measure, rows: Board, slid: Board)
    requires |slid| == |rows| && TileBoard(rows)
    requires forall i :: 0 <= i < |rows| ==> |rows[i]| == BOARD_SIZE && slid[i] == Slide(rows[i])
    ensures GridWeight(m, slid) == GridWeight(m, rows) + Gain(m, PointsOf(rows))
    ensures TileBoard(slid)
  {
    hide Slide, NonZero, MergePoints, RowWeight;
    if rows == [] {
    } else {
      var n := |rows| - 1;
      SlideAllWeighs(m, rows[..n], slid[..n]);
      SlideWeighs(m, rows[n]);
      assert forall i :: 0 <= i < n ==> slid[..n][i] == slid[i];
    }
  }

  /** A move keeps the sum of the board, and adds its points to the potential. */
  lemma MoveWeighs(m: Measure, b: Board, d: Direction)
    requires IsBoard(b) && TileBoard(b)
    ensures GridWeight(m, Moved(b, d)) == GridWeight(m, b) + Gain(m, MovePoints(b, d))
    ensures TileBoard(Moved(b, d))
  {
    hide GridWeight, TileBoard, Turned, SlideAll, PointsOf;
    if d != Unknown {
      var turned := Turned(b, Rotations(d));
      TurnWeighs(m, b, Rotations(d));
      SlideAllWeighs(m, turned, SlideAll(turned));
      TurnWeighs(m, SlideAll(turned), (4 - Rotations(d)) % 4);
    }
  }

  // ---------- Lines that a slide leaves as they are ----------

  /** The tiles first, then the gaps, and no two neighbouring tiles equal. */
  predicate Settled(line: seq<nat>) {
    forall i :: 0 <= i < |line| - 1 ==>
      && (line[i] == 0 ==> line[i + 1] == 0)
      && (line[i] != 0 ==> line[i] != line[i + 1])
  }

  predicate NoEqualNeighbours(tiles: seq<nat>) {
    forall i :: 0 <= i < |tiles| - 1 ==> tiles[i] != tiles[i + 1]
  }

  lemma {:induction false} MergeFixes(tiles: seq<nat>)
    ensures |Merge(tiles)| == |tiles| <==> NoEqualNeighbours(tiles)
    ensures NoEqualNeighbours(tiles) ==> Merge(tiles) == tiles
  {
    if tiles == [] {
    } else if 1 < |tiles| && tiles[0] == tiles[1] {
      assert |Merge(tiles)| == 1 + |Merge(tiles[2..])|;
    } else {
      MergeFixes(tiles[1..]);
      assert Merge(tiles) == [tiles[0]] + Merge(tiles[1..]);
      assert NoEqualNeighbours(tiles) <==> NoEqualNeighbours(tiles[1..]) by {
        if NoEqualNeighbours(tiles[1..]) {
          forall i | 0 <= i < |tiles| - 1
            ensures tiles[i] != tiles[i + 1]
          {
            if i > 0 {
              assert tiles[1..][i - 1] != tiles[1..][i];
            }
          }
        }
      }
    }
  }

  lemma {:induction false} PaddedNonZero(tiles: seq<nat>, n: nat)
    requires 0 !in tiles
    ensures NonZero(tiles + Zeros(n)) == tiles
  {
    if tiles != [] {
      assert (tiles + Zeros(n))[1..] == tiles[1..] + Zeros(n);
      PaddedNonZero(tiles[1..], n);
    } else if n > 0 {
      assert (tiles + Zeros(n))[1..] == [] + Zeros(n - 1);
      PaddedNonZero([], n - 1);
    } else {
      assert tiles + Zeros(n) == [];
    }
  }

  lemma {:induction false} OnlyGaps(line: seq<nat>)
    requires Settled(line) && (line == [] || line[0] == 0)
    ensures NonZero(line) == []
    ensures line == Zeros(|line|)
  {
    if line == [] {
    } else {
      var rest := line[1..];
      assert forall i :: 0 <= i < |rest| ==> rest[i] == line[i + 1];
      OnlyGaps(rest);
    }
  }

  lemma {:induction false} SettledIsPadded(line: seq<nat>)
    requires Settled(line)
    ensures |NonZero(line)| <= |line|
    ensures line == NonZero(line) + Zeros(|line| - |NonZero(line)|)
    ensures NoEqualNeighbours(NonZero(line))
  {
    if line == [] {
    } else {
      var rest := line[1..];
      assert Settled(rest) by {
        forall i | 0 <= i < |rest| - 1
          ensures (rest[i] == 0 ==> rest[i + 1] == 0) && (rest[i] != 0 ==> rest[i] != rest[i + 1])
        {
          assert rest[i] == line[i + 1] && rest[i + 1] == line[i + 2];
        }
      }
      SettledIsPadded(rest);
      if line[0] == 0 {
        OnlyGaps(line);
      } else {
        var tiles := NonZero(line);
        assert tiles == [line[0]] + NonZero(rest);
        forall i | 0 <= i < |tiles| - 1
          ensures tiles[i] != tiles[i + 1]
        {
          if i == 0 {
            assert tiles[1] == rest[0] == line[1];
          } else {
            assert NonZero(rest)[i - 1] != NonZero(rest)[i];
          }
        }
      }
    }
  }

  lemma PaddedIsSettled(tiles: seq<nat>, n: nat)
    requires 0 !in tiles && NoEqualNeighbours(tiles)
    ensures Settled(tiles + Zeros(n))
  {
  }

  lemma SlideFixes(line: seq<nat>)
    requires |line| == BOARD_SIZE
    ensures Slide(line) == line <==> Settled(line)
  {
    var tiles := NonZero(line);
    MergeFixes(tiles);
    if Settled(line) {
      SettledIsPadded(line);
    }
    if Slide(line) == line {
      PaddedNonZero(Merge(tiles), BOARD_SIZE - |Merge(tiles)|);
      assert Merge(tiles) == tiles;
      PaddedIsSettled(tiles, BOARD_SIZE - |tiles|);
    }
  }

  // ---------- When a move is left ----------

  lemma MoveFixes(b: Board, d: Direction)
    requires IsBoard(b) && d != Unknown
    ensures Moved(b, d) == b <==> forall k :: 0 <= k < BOARD_SIZE ==> Settled(LineOf(b, d, k))
  {
    hide LineOf, Moved, Slide, Settled;
    forall k | 0 <= k < BOARD_SIZE
      ensures LineOf(Moved(b, d), d, k) == Slide(LineOf(b, d, k))
      ensures Slide(LineOf(b, d, k)) == LineOf(b, d, k) <==> Settled(LineOf(b, d, k))
    {
      MovedLine(b, d, k);
      SlideFixes(LineOf(b, d, k));
    }
    if forall k :: 0 <= k < BOARD_SIZE ==> Settled(LineOf(b, d, k)) {
      LinesDetermine(Moved(b, d), b, d);
    }
  }

  lemma UnknownMovesNothing(b: Board, d: Direction)
    requires IsBoard(b) && Moved(b, d) != b
    ensures d != Unknown
  {
  }

  lemma ChangedLineEndsInGap(line: seq<nat>)
    requires |line| == BOARD_SIZE && Slide(line) != line
    ensures Slide(line)[3] == 0
  {
    hide Settled, MergePoints, NonZero, Merge;
    var tiles := NonZero(line);
    if |Merge(tiles)| == BOARD_SIZE {
      NothingToDrop(line);
      MergeFixes(tiles);
    }
  }

  /** Only a line with a gap left in it can change: a move that changes the board leaves an empty cell. */
  lemma ChangeLeavesGap(b: Board, d: Direction)
    requires IsBoard(b) && Moved(b, d) != b
    ensures exists i, j :: 0 <= i < BOARD_SIZE && 0 <= j < BOARD_SIZE && Moved(b, d)[i][j] == 0
  {
    hide Moved, Settled, Slide, LineOf;
    UnknownMovesNothing(b, d);
    MoveFixes(b, d);
    var k :| 0 <= k < BOARD_SIZE && !Settled(LineOf(b, d, k));
    SlideFixes(LineOf(b, d, k));
    ChangedLineEndsInGap(LineOf(b, d, k));
    MovedLine(b, d, k);
    PlaceIsLine(Moved(b, d), d, k, 3);
    assert Moved(b, d)[Place(d, k, 3).0][Place(d, k, 3).1] == 0;
  }

  lemma {:induction false} NothingToDrop(row: seq<nat>)
    requires |NonZero(row)| == |row|
    ensures NonZero(row) == row
  {
    if row == [] {
    } else {
      assert |NonZero(row)| <= 1 + |NonZero(row[1..])|;
      NothingToDrop(row[1..]);
    }
  }

  ghost predicate CanMove(b: Board)
    requires IsBoard(b)
  {
    Moved(b, Left) != b || Moved(b, Right) != b || Moved(b, Up) != b || Moved(b, Down) != b
  }

  predicate NoTiles(b: Board)
    requires IsBoard(b)
  {
    forall i, j :: 0 <= i < BOARD_SIZE && 0 <= j < BOARD_SIZE ==> b[i][j] == 0
  }

  predicate Full(b: Board)
    requires IsBoard(b)
  {
    forall i, j :: 0 <= i < BOARD_SIZE && 0 <= j < BOARD_SIZE ==> b[i][j] != 0
  }

  ghost predicate NoPairs(b: Board)
    requires IsBoard(b)
  {
    && (forall i, j, k :: 0 <= i < BOARD_SIZE && 0 <= j < k < BOARD_SIZE && k == j + 1 ==> b[i][j] != b[i][k])
    && (forall i, j, k :: 0 <= i < k < BOARD_SIZE && k == i + 1 && 0 <= j < BOARD_SIZE ==> b[i][j] != b[k][j])
  }

  lemma FullAndApartIsSettled(b: Board, d: Direction, k: nat)
    requires IsBoard(b) && Full(b) && NoPairs(b) && d != Unknown && k < BOARD_SIZE
    ensures Settled(LineOf(b, d, k))
  {
  }

  lemma EmptyIsSettled(b: Board, d: Direction, k: nat)
    requires IsBoard(b) && NoTiles(b) && d != Unknown && k < BOARD_SIZE
    ensures Settled(LineOf(b, d, k))
  {
  }

  /** A line settled both ways has no gap, or nothing but gaps; and no equal neighbours unless empty. */
  lemma SettledBothWays(line: seq<nat>)
    requires |line| == BOARD_SIZE && Settled(line) && Settled(Reverse(line))
    ensures (forall i :: 0 <= i < BOARD_SIZE ==> line[i] == 0)
         || (forall i :: 0 <= i < BOARD_SIZE ==> line[i] != 0)
  {
    var back := Reverse(line);
    assert back[0] == line[3] && back[1] == line[2] && back[2] == line[1] && back[3] == line[0];
  }

  lemma BothWays(b: Board, k: nat)
    requires IsBoard(b) && k < BOARD_SIZE && !CanMove(b)
    ensures Settled(b[k]) && Settled(Reverse(b[k]))
    ensures Settled(Column(b, k)) && Settled(Reverse(Column(b, k)))
  {
    hide Moved, Settled;
    MoveFixes(b, Left);
    MoveFixes(b, Right);
    MoveFixes(b, Up);
    MoveFixes(b, Down);
    assert LineOf(b, Left, k) == b[k] && LineOf(b, Right, k) == Reverse(b[k]);
    assert LineOf(b, Up, k) == Reverse(Column(b, k)) && LineOf(b, Down, k) == Column(b, k);
  }

  lemma StuckIsFull(b: Board)
    requires IsBoard(b) && !CanMove(b) && !NoTiles(b)
    ensures Full(b)
  {
    hide CanMove, Settled;
    var p, q :| 0 <= p < BOARD_SIZE && 0 <= q < BOARD_SIZE && b[p][q] != 0;
    BothWays(b, p);
    SettledBothWays(b[p]);
    forall i, j | 0 <= i < BOARD_SIZE && 0 <= j < BOARD_SIZE
      ensures b[i][j] != 0
    {
      BothWays(b, j);
      SettledBothWays(Column(b, j));
      assert Column(b, j)[p] == b[p][j] != 0;
      assert Column(b, j)[i] == b[i][j];
    }
  }

  lemma StuckIsApart(b: Board)
    requires IsBoard(b) && !CanMove(b) && Full(b)
    ensures NoPairs(b)
  {
    hide CanMove;
    forall k | 0 <= k < BOARD_SIZE
      ensures Settled(b[k]) && Settled(Column(b, k))
    {
      BothWays(b, k);
    }
    forall i, j, k | 0 <= i < k < BOARD_SIZE && k == i + 1 && 0 <= j < BOARD_SIZE
      ensures b[i][j] != b[k][j]
    {
      assert Column(b, j)[i] != Column(b, j)[i + 1];
    }
  }

  /** No move is left exactly when the board is full without two equal neighbours, or bare. */
  lemma NoMoveIsLeft(b: Board)
    requires IsBoard(b)
    ensures !CanMove(b) <==> NoTiles(b) || (Full(b) && NoPairs(b))
  {
    hide Moved, Settled, LineOf, NoPairs, Full, NoTiles;
    if !CanMove(b) {
      if !NoTiles(b) {
        StuckIsFull(b);
        StuckIsApart(b);
      }
    }
    if NoTiles(b) || (Full(b) && NoPairs(b)) {
      forall d: Direction | d != Unknown
        ensures Moved(b, d) == b
      {
        forall k | 0 <= k < BOARD_SIZE
          ensures Settled(LineOf(b, d, k))
        {
          if NoTiles(b) {
            EmptyIsSettled(b, d, k);
          } else {
            FullAndApartIsSettled(b, d, k);
          }
        }
        MoveFixes(b, d);
      }
    }
  }

  // ---------- Playing ----------

  /** The empty cells among the first n in row-major order, in that order. */
  function EmptyCells(b: Board, n: nat): (cells: seq<(nat, nat)>)
    requires IsBoard(b) && n <= BOARD_SIZE * BOARD_SIZE
    ensures forall c :: c in cells ==> c.0 < BOARD_SIZE && c.1 < BOARD_SIZE && b[c.0][c.1] == 0
    ensures forall k :: 0 <= k < n && b[k / 4][k % 4] == 0 ==> (k / 4, k % 4) in cells
  {
    if n == 0 then []
    else EmptyCells(b, n - 1) + if b[(n - 1) / 4][(n - 1) % 4] == 0 then [((n - 1) / 4, (n - 1) % 4)] else []
  }

  function Put(b: Board, i: nat, j: nat, x: nat): (r: Board)
    requires IsBoard(b) && i < BOARD_SIZE && j < BOARD_SIZE
    ensures IsBoard(r)
  {
    var row: seq<nat> := b[i];
    b[i := row[j := x]]
  }

  lemma PutWeighs(m: Measure, b: Board, i: nat, j: nat, x: nat)
    requires IsBoard(b) && i < BOARD_SIZE && j < BOARD_SIZE && b[i][j] == 0
    ensures GridWeight(m, Put(b, i, j, x)) == GridWeight(m, b) + Weight(m, x)
    ensures TileBoard(b) && IsTile(x) ==> TileBoard(Put(b, i, j, x))
  {
    hide GridWeight, RowWeight;
    FourRows(m, b);
    FourRows(m, Put(b, i, j, x));
    FourCells(m, b[i]);
    FourCells(m, Put(b, i, j, x)[i]);
  }

  lemma {:induction false} AppendWeighs(m: Measure, row: seq<nat>, x: nat)
    ensures RowWeight(m, row + [x]) == RowWeight(m, row) + Weight(m, x)
  {
    if row == [] {
      assert (row + [x])[1..] == [];
    } else {
      assert (row + [x])[1..] == row[1..] + [x];
      AppendWeighs(m, row[1..], x);
    }
  }

  function CountFours(spawned: seq<nat>): nat {
    if spawned == [] then 0 else (if spawned[0] == 4 then 1 else 0) + CountFours(spawned[1..])
  }

  lemma {:induction false} SpawnedPotential(spawned: seq<nat>)
    requires forall x :: x in spawned ==> x == 2 || x == 4
    ensures RowWeight(Potential, spawned) == 4 * CountFours(spawned)
  {
    if spawned == [] {
    } else {
      assert forall x :: x in spawned[1..] ==> x in spawned;
      assert spawned[0] in spawned && Phi(4) == 2 * Phi(2) + 4;
      SpawnedPotential(spawned[1..]);
    }
  }

  /** The second board is the first with one of its empty cells filled. */
  ghost predicate Gained(before: Board, after: Board, x: nat)
    requires IsBoard(before)
  {
    exists i, j :: 0 <= i < BOARD_SIZE && 0 <= j < BOARD_SIZE && before[i][j] == 0 && after == Put(before, i, j, x)
  }

  /** One answer of the player, and one throw of the dice for the tile that may follow it. */
  datatype Decision = Decision(direction: Direction, pick: nat, four: bool)

  /** The board with a 2 or a 4 in the picked one of its empty cells. */
  function WithTile(b: Board, pick: nat, four: bool): (r: Board)
    requires IsBoard(b)
    ensures IsBoard(r)
  {
    var empty := EmptyCells(b, BOARD_SIZE * BOARD_SIZE);
    if empty == [] then b
    else
      var cell := empty[pick % |empty|];
      assert cell in empty;
      Put(b, cell.0, cell.1, if four then 4 else 2)
  }

  /** `create_board` */
  function Bare(): (b: Board)
    ensures IsBoard(b)
  {
    [[0, 0, 0, 0], [0, 0, 0, 0], [0, 0, 0, 0], [0, 0, 0, 0]]
  }

  datatype Position = Position(board: Board, score: nat, moves: nat)

  /** One round of the game: a move that changes nothing counts for nothing and brings no tile. */
  function Turn(p: Position, d: Decision): (r: Position)
    requires IsBoard(p.board)
    ensures IsBoard(r.board)
  {
    var next := Moved(p.board, d.direction);
    if next == p.board then p
    else Position(WithTile(next, d.pick, d.four), p.score + MovePoints(p.board, d.direction), p.moves + 1)
  }

  function Turns(p: Position, ds: seq<Decision>): (r: Position)
    requires IsBoard(p.board)
    ensures IsBoard(r.board)
  {
    if ds == [] then p else Turn(Turns(p, ds[..|ds| - 1]), ds[|ds| - 1])
  }

  /** The second board has this tile more than the first, in a cell that was empty, and is the same elsewhere. */
  ghost predicate OneTileMore(before: Board, after: Board, i: nat, j: nat, x: nat)
    requires IsBoard(before) && IsBoard(after)
  {
    && i < BOARD_SIZE && j < BOARD_SIZE
    && before[i][j] == 0 && after[i][j] == x
    && forall p, q :: 0 <= p < BOARD_SIZE && 0 <= q < BOARD_SIZE && !(p == i && q == j) ==> after[p][q] == before[p][q]
  }

  ghost predicate HasOneTileMore(before: Board, after: Board, x: nat)
    requires IsBoard(before) && IsBoard(after)
  {
    exists i, j :: OneTileMore(before, after, i, j, x)
  }

  lemma EmptyIsListed(b: Board, i: nat, j: nat)
    requires IsBoard(b) && i < BOARD_SIZE && j < BOARD_SIZE && b[i][j] == 0
    ensures (i, j) in EmptyCells(b, BOARD_SIZE * BOARD_SIZE)
  {
    var k := i * 4 + j;
    assert k / 4 == i && k % 4 == j && k < BOARD_SIZE * BOARD_SIZE;
    assert b[k / 4][k % 4] == 0;
  }

  /** A 2 or a 4 comes into an empty cell; a full board stays as it is. */
  lemma TileComesIn(b: Board, pick: nat, four: bool)
    requires IsBoard(b)
    ensures (forall i, j :: 0 <= i < BOARD_SIZE && 0 <= j < BOARD_SIZE ==> b[i][j] != 0) ==>
      WithTile(b, pick, four) == b
    ensures (exists i, j :: 0 <= i < BOARD_SIZE && 0 <= j < BOARD_SIZE && b[i][j] == 0) ==>
      HasOneTileMore(b, WithTile(b, pick, four), if four then 4 else 2)
  {
    hide EmptyCells;
    var empty := EmptyCells(b, BOARD_SIZE * BOARD_SIZE);
    forall i, j | 0 <= i < BOARD_SIZE && 0 <= j < BOARD_SIZE && b[i][j] == 0
      ensures empty != []
    {
      EmptyIsListed(b, i, j);
    }
    if empty != [] {
      var cell := empty[pick % |empty|];
      assert cell in empty;
      PutIsOneMore(b, cell.0, cell.1, if four then 4 else 2);
    }
  }

  lemma PutIsOneMore(b: Board, i: nat, j: nat, x: nat)
    requires IsBoard(b) && i < BOARD_SIZE && j < BOARD_SIZE && b[i][j] == 0
    ensures OneTileMore(b, Put(b, i, j, x), i, j, x) && HasOneTileMore(b, Put(b, i, j, x), x)
  {
    assert OneTileMore(b, Put(b, i, j, x), i, j, x);
  }

  lemma SmallRemainder(k: nat, n: nat)
    requires k < n
    ensures k % n == k
  {
  }

  lemma IndexIn<T>(s: seq<T>, x: T) returns (k: nat)
    requires x in s
    ensures k < |s| && s[k] == x
  {
    k :| k < |s| && s[k] == x;
  }

  /** Any empty cell may be the one. */
  lemma AnyCellCanBePicked(b: Board, i: nat, j: nat, four: bool) returns (pick: nat)
    requires IsBoard(b) && i < BOARD_SIZE && j < BOARD_SIZE && b[i][j] == 0
    ensures OneTileMore(b, WithTile(b, pick, four), i, j, if four then 4 else 2)
  {
    hide EmptyCells, OneTileMore, IsBoard, Put;
    var empty := EmptyCells(b, BOARD_SIZE * BOARD_SIZE);
    EmptyIsListed(b, i, j);
    pick := IndexIn(empty, (i, j));
    SmallRemainder(pick, |empty|);
    PutIsOneMore(b, i, j, if four then 4 else 2);
  }

  /** A round in the direction that was answered: where no line of that direction can slide, nothing happens;
    * otherwise each line slides, the points of all of them are scored, one move is counted, and a tile comes in.
    */
  lemma TurnSlides(p: Position, d: Decision) returns (slid: Board)
    requires IsBoard(p.board) && d.direction != Unknown
    ensures IsBoard(slid)
    ensures forall k :: 0 <= k < BOARD_SIZE ==> LineOf(slid, d.direction, k) == Slide(LineOf(p.board, d.direction, k))
    ensures if forall k :: 0 <= k < BOARD_SIZE ==> Settled(LineOf(p.board, d.direction, k))
      then Turn(p, d) == p
      else && HasOneTileMore(slid, Turn(p, d).board, if d.four then 4 else 2)
           && Turn(p, d).score == p.score + LinePoints(p.board, d.direction, BOARD_SIZE)
           && Turn(p, d).moves == p.moves + 1
  {
    hide Moved, Settled, LineOf, WithTile, Slide, MovePoints, HasOneTileMore, LinePoints;
    slid := Moved(p.board, d.direction);
    MoveFixes(p.board, d.direction);
    forall k | 0 <= k < BOARD_SIZE
      ensures LineOf(slid, d.direction, k) == Slide(LineOf(p.board, d.direction, k))
    {
      MovedLine(p.board, d.direction, k);
    }
    if slid != p.board {
      ChangeLeavesGap(p.board, d.direction);
      TileComesIn(slid, d.pick, d.four);
      PointsOfLines(p.board, d.direction);
    }
  }

  /** Any other answer does nothing. */
  lemma UnknownTurn(p: Position, d: Decision)
    requires IsBoard(p.board) && d.direction == Unknown
    ensures Turn(p, d) == p
  {
  }

  /** The points of the first n lines, each slid on its own. */
  ghost function LinePoints(b: Board, d: Direction, n: nat): nat
    requires IsBoard(b) && d != Unknown && n <= BOARD_SIZE
  {
    if n == 0 then 0 else LinePoints(b, d, n - 1) + MergePoints(NonZero(LineOf(b, d, n - 1)))
  }

  lemma FourLines(b: Board, d: Direction)
    requires IsBoard(b) && d != Unknown
    ensures LinePoints(b, d, BOARD_SIZE) ==
      MergePoints(NonZero(LineOf(b, d, 0))) + MergePoints(NonZero(LineOf(b, d, 1)))
      + MergePoints(NonZero(LineOf(b, d, 2))) + MergePoints(NonZero(LineOf(b, d, 3)))
  {
    hide MergePoints, NonZero, LineOf;
    assert LinePoints(b, d, 1) == LinePoints(b, d, 0) + MergePoints(NonZero(LineOf(b, d, 0)));
    assert LinePoints(b, d, 2) == LinePoints(b, d, 1) + MergePoints(NonZero(LineOf(b, d, 1)));
    assert LinePoints(b, d, 3) == LinePoints(b, d, 2) + MergePoints(NonZero(LineOf(b, d, 2)));
  }

  lemma FourRowPoints(rows: Board)
    requires IsBoard(rows)
    ensures PointsOf(rows) ==
      MergePoints(NonZero(rows[0])) + MergePoints(NonZero(rows[1]))
      + MergePoints(NonZero(rows[2])) + MergePoints(NonZero(rows[3]))
  {
    hide MergePoints, NonZero;
    assert rows[..3][..2] == rows[..2] && rows[..2][..1] == rows[..1] && rows[..1][..0] == [];
    assert PointsOf(rows[..1]) == PointsOf([]) + MergePoints(NonZero(rows[0]));
    assert PointsOf(rows[..2]) == PointsOf(rows[..1]) + MergePoints(NonZero(rows[1]));
    assert PointsOf(rows[..3]) == PointsOf(rows[..2]) + MergePoints(NonZero(rows[2]));
  }

  /** A move scores what its lines score. */
  lemma PointsOfLines(b: Board, d: Direction)
    requires IsBoard(b) && d != Unknown
    ensures MovePoints(b, d) == LinePoints(b, d, BOARD_SIZE)
  {
    hide MergePoints, NonZero, LineOf, Turned, PointsOf, LinePoints;
    FourLines(b, d);
    FourRowPoints(Turned(b, Rotations(d)));
    TurnedLine(b, d, 0);
    TurnedLine(b, d, 1);
    TurnedLine(b, d, 2);
    TurnedLine(b, d, 3);
  }

  class Game {
    var board: Board
    var score: nat
    var moves: nat
    /** Every tile that was put on the board, in order. */
    ghost var spawned: seq<nat>

    /** What holds whenever the game is between two of its steps. */
    ghost predicate Valid()
      reads this
    {
      && IsBoard(board)
      && TileBoard(board)
      && (forall x :: x in spawned ==> x == 2 || x == 4)
      && GridWeight(Value, board) == RowWeight(Value, spawned)
      && GridWeight(Potential, board) == score + RowWeight(Potential, spawned)
    }

    /** The game's law in numbers: the sum of the board is what was put on it, and the score with the 4s
      * that came for free is the potential of the board.
      */
    lemma Laws()
      requires Valid()
      ensures GridWeight(Value, board) == RowWeight(Value, spawned)
      ensures score + 4 * CountFours(spawned) == GridWeight(Potential, board)
    {
      SpawnedPotential(spawned);
    }

    constructor ()
      ensures Valid() && board == Bare() && score == 0 && moves == 0 && spawned == []
    {
      board := Bare();
      score, moves, spawned := 0, 0, [];
      new;
      BareIsBare();
      BareWeighs(Value, board);
      BareWeighs(Potential, board);
    }

    /** `new_game`: the bare board and two tiles. */
    static method NewGame(first: Decision, second: Decision) returns (g: Game)
      ensures fresh(g) && g.Valid() && g.score == 0 && g.moves == 0 && |g.spawned| == 2
      ensures g.board == WithTile(WithTile(Bare(), first.pick, first.four), second.pick, second.four)
    {
      hide GridWeight, RowWeight, TileBoard, WithTile, Full, Gained;
      g := new Game();
      BareIsBare();
      var placed := g.AddRandomTile(first.pick, first.four);
      OneTileIsNotFull(g.board, if first.four then 4 else 2);
      placed := g.AddRandomTile(second.pick, second.four);
    }

    /** A 2 or a 4 in one of the empty cells; False when there is none. */
    method AddRandomTile(pick: nat, four: bool) returns (placed: bool)
      requires Valid()
      modifies `board, `spawned
      ensures Valid()
      ensures placed == !old(Full(board))
      ensures board == WithTile(old(board), pick, four)
      ensures !placed ==> board == old(board) && spawned == old(spawned)
      ensures placed ==> Gained(old(board), board, if four then 4 else 2)
      ensures placed ==> spawned == old(spawned) + [if four then 4 else 2]
    {
      hide GridWeight, RowWeight, TileBoard;
      var empty := EmptyCells(board, BOARD_SIZE * BOARD_SIZE);
      if empty == [] {
        forall i, j | 0 <= i < BOARD_SIZE && 0 <= j < BOARD_SIZE
          ensures board[i][j] != 0
        {
          assert (i * 4 + j) / 4 == i && (i * 4 + j) % 4 == j;
        }
        return false;
      }
      var cell := empty[pick % |empty|];
      var x := if four then 4 else 2;
      assert cell in empty && IsTile(x);
      PutWeighs(Value, board, cell.0, cell.1, x);
      PutWeighs(Potential, board, cell.0, cell.1, x);
      AppendWeighs(Value, spawned, x);
      AppendWeighs(Potential, spawned, x);
      board, spawned := Put(board, cell.0, cell.1, x), spawned + [x];
      return true;
    }

    method AnyMove() returns (any: bool)
      requires IsBoard(board)
      ensures any == CanMove(board)
    {
      hide Moved;
      var directions := [Left, Right, Up, Down];
      for k := 0 to |directions|
        invariant forall m :: 0 <= m < k ==> Moved(board, directions[m]) == board
      {
        var next, points, changed := Move(board, directions[k]);
        if changed {
          return true;
        }
      }
      assert forall m :: 0 <= m < 4 ==> Moved(board, directions[m]) == board;
      assert directions[0] == Left && directions[1] == Right && directions[2] == Up && directions[3] == Down;
      return false;
    }

    /** `play_game`, as far as the given decisions take it. Every move that counts found room for its tile,
      * so the board got exactly one tile a move; and the game stops early only when no move is left.
      */
    method Play(maxMoves: nat, decisions: seq<Decision>) returns (played: nat)
      requires Valid() && moves == 0 && score == 0 && |spawned| == 2
      modifies this
      ensures Valid()
      ensures played <= |decisions|
      ensures Position(board, score, moves) == Turns(Position(old(board), 0, 0), decisions[..played])
      ensures moves <= maxMoves && |spawned| == 2 + moves
      ensures moves <= played <= |decisions|
      ensures played < |decisions| && moves < maxMoves ==> Full(board) && NoPairs(board)
    {
      hide GridWeight, RowWeight, TileBoard, Moved, MovePoints, Full, NoPairs, WithTile;
      played := 0;
      while moves < maxMoves && played < |decisions|
        invariant Valid()
        invariant played <= |decisions|
        invariant Position(board, score, moves) == Turns(Position(old(board), 0, 0), decisions[..played])
        invariant moves <= maxMoves && |spawned| == 2 + moves
        invariant moves <= played <= |decisions|
        decreases |decisions| - played
      {
        var any := AnyMove();
        if !any {
          NoMoveIsLeft(board);
          BoardIsNotBare();
          return;
        }
        var decision := decisions[played];
        assert decisions[..played + 1][..played] == decisions[..played];
        var next, points, changed := Move(board, decision.direction);
        if changed {
          MoveWeighs(Value, board, decision.direction);
          MoveWeighs(Potential, board, decision.direction);
          ChangeLeavesGap(board, decision.direction);
          board, score := next, score + points;
          GapIsNotFull(board);
          var placed := AddRandomTile(decision.pick, decision.four);
          moves := moves + 1;
        }
        played := played + 1;
      }
    }

    lemma BoardIsNotBare()
      requires Valid() && |spawned| >= 2
      ensures !NoTiles(board)
    {
      hide GridWeight;
      assert spawned[0] in spawned && RowWeight(Value, spawned) >= spawned[0];
      if NoTiles(board) {
        BareWeighs(Value, board);
      }
    }
  }

  lemma BareIsBare()
    ensures NoTiles(Bare()) && !Full(Bare())
  {
    assert Bare()[0][0] == 0;
  }

  lemma OneTileIsNotFull(b: Board, x: nat)
    requires IsBoard(b) && Gained(Bare(), b, x)
    ensures !Full(b)
  {
    assert b[0][0] == 0 || b[1][0] == 0;
  }

  lemma GapIsNotFull(b: Board)
    requires IsBoard(b)
    requires exists i, j :: 0 <= i < BOARD_SIZE && 0 <= j < BOARD_SIZE && b[i][j] == 0
    ensures !Full(b)
  {
  }

  lemma BareWeighs(m: Measure, b: Board)
    requires IsBoard(b) && NoTiles(b)
    ensures GridWeight(m, b) == 0 && TileBoard(b)
  {
    hide GridWeight, RowWeight;
    FourRows(m, b);
    forall i | 0 <= i < BOARD_SIZE
      ensures RowWeight(m, b[i]) == 0
    {
      FourCells(m, b[i]);
    }
  }
}
