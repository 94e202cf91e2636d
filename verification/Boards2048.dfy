/** The two 2048 engines: one slides rows left on a rotated board, the other condenses lines in place. */
module Boards2048 {

  const BOARD_SIZE := 4

  type Grid<T> = seq<seq<T>>

  type Board = Grid<nat>

  /** `Unknown` is any word that is not one of the four. */
  datatype Direction = Left | Up | Right | Down | Unknown

  predicate IsBoard<T>(b: Grid<T>) {
    |b| == BOARD_SIZE && forall i :: 0 <= i < BOARD_SIZE ==> |b[i]| == BOARD_SIZE
  }

  // ---------- One line ----------

  function NonZero(row: seq<nat>): (tiles: seq<nat>)
    ensures |tiles| <= |row| && 0 !in tiles
  {
    if row == [] then [] else (if row[0] == 0 then [] else [row[0]]) + NonZero(row[1..])
  }

  /** Equal neighbours merged from the front, each tile at most once. */
  function Merge(tiles: seq<nat>): (merged: seq<nat>)
    ensures |merged| <= |tiles|
    ensures 0 !in tiles ==> 0 !in merged
  {
    if tiles == [] then []
    else if 1 < |tiles| && tiles[0] == tiles[1] then [tiles[0] * 2] + Merge(tiles[2..])
    else [tiles[0]] + Merge(tiles[1..])
  }

  function MergePoints(tiles: seq<nat>): nat {
    if tiles == [] then 0
    else if 1 < |tiles| && tiles[0] == tiles[1] then tiles[0] * 2 + MergePoints(tiles[2..])
    else MergePoints(tiles[1..])
  }

  function Zeros(n: nat): (zeros: seq<nat>)
    ensures |zeros| == n && forall i :: 0 <= i < n ==> zeros[i] == 0
  {
    seq(n, i => 0)
  }

  function Slide(row: seq<nat>): (slid: seq<nat>)
    requires |row| == BOARD_SIZE
    ensures |slid| == BOARD_SIZE
  {
    var merged := Merge(NonZero(row));
    merged + Zeros(BOARD_SIZE - |merged|)
  }

  lemma MergeStep(tiles: seq<nat>, i: nat)
    requires i < |tiles|
    ensures i + 1 < |tiles| && tiles[i] == tiles[i + 1] ==>
      && Merge(tiles[i..]) == [tiles[i] * 2] + Merge(tiles[i + 2..])
      && MergePoints(tiles[i..]) == tiles[i] * 2 + MergePoints(tiles[i + 2..])
    ensures !(i + 1 < |tiles| && tiles[i] == tiles[i + 1]) ==>
      && Merge(tiles[i..]) == [tiles[i]] + Merge(tiles[i + 1..])
      && MergePoints(tiles[i..]) == MergePoints(tiles[i + 1..])
  {
    assert tiles[i..][1..] == tiles[i + 1..];
    if i + 1 < |tiles| {
      assert tiles[i..][2..] == tiles[i + 2..];
    }
  }

  lemma MergeEnd(tiles: seq<nat>)
    ensures Merge(tiles[|tiles|..]) == [] && MergePoints(tiles[|tiles|..]) == 0
  {
  }

  lemma Regroup<T>(a: seq<T>, x: T, rest: seq<T>)
    ensures a + ([x] + rest) == (a + [x]) + rest
  {
  }

  /** The pair nearest to the side that is pushed to merges first, and no tile merges twice. */
  lemma FirstPairMerges(x: nat)
    requires x > 0
    ensures Slide([0, x, x, x]) == [2 * x, x, 0, 0]
    ensures Slide([x, x, 0, 2 * x]) == [2 * x, 2 * x, 0, 0]
    ensures Slide([x, x, x, x]) == [2 * x, 2 * x, 0, 0]
  {
    hide Merge, NonZero;
    FourTiles(0, x, x, x);
    FourTiles(x, x, 0, 2 * x);
    FourTiles(x, x, x, x);
    assert NonZero([0, x, x, x]) == [x, x, x];
    assert NonZero([x, x, 0, 2 * x]) == [x, x, 2 * x];
    assert NonZero([x, x, x, x]) == [x, x, x, x];
    ThreeTiles(x, x, x);
    ThreeTiles(x, x, 2 * x);
    TwoPairs(x);
    assert Zeros(1) == [0] && Zeros(2) == [0, 0];
  }

  lemma TwoPairs(x: nat)
    ensures Merge([x, x, x, x]) == [2 * x, 2 * x]
  {
    hide Merge, MergePoints;
    var four := [x, x, x, x];
    assert four[0..] == four;
    MergeStep(four, 0);
    MergeStep(four, 2);
    MergeEnd(four);
    assert four[4..] == four[|four|..];
  }

  lemma FourTiles(a: nat, b: nat, c: nat, d: nat)
    ensures NonZero([a, b, c, d]) == (if a == 0 then [] else [a]) + (if b == 0 then [] else [b])
      + (if c == 0 then [] else [c]) + (if d == 0 then [] else [d])
  {
    hide NonZero;
    FirstTile(a, [b, c, d]);
    FirstTile(b, [c, d]);
    FirstTile(c, [d]);
    FirstTile(d, []);
    assert [a] + [b, c, d] == [a, b, c, d] && [b] + [c, d] == [b, c, d] && [c] + [d] == [c, d] && [d] + [] == [d];
  }

  lemma FirstTile(a: nat, rest: seq<nat>)
    ensures NonZero([a] + rest) == (if a == 0 then [] else [a]) + NonZero(rest)
    ensures NonZero([]) == []
  {
    assert ([a] + rest)[1..] == rest;
  }

  lemma ThreeTiles(x: nat, y: nat, z: nat)
    requires x == y
    ensures Merge([x, y, z]) == [2 * x, z]
  {
    MergeStep([x, y, z], 0);
    MergeStep([x, y, z], 2);
    MergeEnd([x, y, z]);
    assert [x, y, z][0..] == [x, y, z];
  }

  method SlideRowLeft(row: seq<nat>) returns (slid: seq<nat>, points: nat)
    requires |row| == BOARD_SIZE
    ensures slid == Slide(row) && points == MergePoints(NonZero(row))
  {
    hide NonZero, Merge, MergePoints;
    var tiles := NonZero(row);
    MergeEnd(tiles);
    assert tiles[0..] == tiles;
    var merged: seq<nat> := [];
    points := 0;
    var i := 0;
    while i < |tiles|
      invariant 0 <= i <= |tiles|
      invariant merged + Merge(tiles[i..]) == Merge(tiles)
      invariant points + MergePoints(tiles[i..]) == MergePoints(tiles)
    {
      MergeStep(tiles, i);
      if i + 1 < |tiles| && tiles[i] == tiles[i + 1] {
        Regroup(merged, tiles[i] * 2, Merge(tiles[i + 2..]));
        merged := merged + [tiles[i] * 2];
        points := points + tiles[i] * 2;
        i := i + 2;
      } else {
        Regroup(merged, tiles[i], Merge(tiles[i + 1..]));
        merged := merged + [tiles[i]];
        i := i + 1;
      }
    }
    assert merged == Merge(tiles) by { assert merged + [] == merged; }
    slid := merged + Zeros(BOARD_SIZE - |merged|);
  }

  // ---------- The rotating engine ----------

  /** A quarter turn clockwise: `zip(*board[::-1])`. */
  function Rotate(b: Board): (r: Board)
    requires IsBoard(b)
    ensures IsBoard(r)
    ensures forall i, j :: 0 <= i < BOARD_SIZE && 0 <= j < BOARD_SIZE ==> r[i][j] == b[BOARD_SIZE - 1 - j][i]
  {
    seq(BOARD_SIZE, i requires 0 <= i < BOARD_SIZE =>
      seq(BOARD_SIZE, j requires 0 <= j < BOARD_SIZE => b[BOARD_SIZE - 1 - j][i]))
  }

  function Turned(b: Board, times: nat): (r: Board)
    requires IsBoard(b)
    ensures IsBoard(r)
  {
    if times == 0 then b else Rotate(Turned(b, times - 1))
  }

  function SlideAll(b: Board): (r: Board)
    requires IsBoard(b)
    ensures IsBoard(r)
    ensures forall i :: 0 <= i < BOARD_SIZE ==> r[i] == Slide(b[i])
  {
    seq(BOARD_SIZE, i requires 0 <= i < BOARD_SIZE => Slide(b[i]))
  }

  function Rotations(d: Direction): nat
    requires d != Unknown
  {
    match d
    case Left => 0
    case Up => 1
    case Right => 2
    case Down => 3
  }

  function Moved(b: Board, d: Direction): (r: Board)
    requires IsBoard(b)
    ensures IsBoard(r)
  {
    if d == Unknown then b
    else Turned(SlideAll(Turned(b, Rotations(d))), (4 - Rotations(d)) % 4)
  }

  function PointsOf(rows: Board): nat {
    if rows == [] then 0 else PointsOf(rows[..|rows| - 1]) + MergePoints(NonZero(rows[|rows| - 1]))
  }

  function MovePoints(b: Board, d: Direction): nat
    requires IsBoard(b)
  {
    if d == Unknown then 0 else PointsOf(Turned(b, Rotations(d)))
  }

  method RotateBoard(board: Board, times: nat) returns (r: Board)
    requires IsBoard(board)
    ensures r == Turned(board, times % 4)
  {
    r := board;
    for k := 0 to times % 4
      invariant r == Turned(board, k)
    {
      r := Rotate(r);
    }
  }

  method Move(board: Board, direction: Direction) returns (newBoard: Board, points: nat, changed: bool)
    requires IsBoard(board)
    ensures newBoard == Moved(board, direction) && points == MovePoints(board, direction)
    ensures changed == (newBoard != board)
  {
    hide NonZero, Merge, MergePoints, Slide, Turned, Rotate;
    if direction == Unknown {
      return board, 0, false;
    }
    var rotated := RotateBoard(board, Rotations(direction));
    newBoard, points := [], 0;
    for k := 0 to |rotated|
      invariant |newBoard| == k && forall i :: 0 <= i < k ==> newBoard[i] == Slide(rotated[i])
      invariant points == PointsOf(rotated[..k])
    {
      var row, gained := SlideRowLeft(rotated[k]);
      assert rotated[..k + 1][..k] == rotated[..k];
      newBoard, points := newBoard + [row], points + gained;
    }
    assert rotated[..|rotated|] == rotated;
    assert newBoard == SlideAll(rotated);
    newBoard := RotateBoard(newBoard, (4 - Rotations(direction)) % 4);
    changed := newBoard != board;
  }

  // ---------- What a move does to the board ----------

  function Reverse<T>(s: seq<T>): (r: seq<T>)
    ensures |r| == |s| && forall i :: 0 <= i < |s| ==> r[i] == s[|s| - 1 - i]
  {
    seq(|s|, i requires 0 <= i < |s| => s[|s| - 1 - i])
  }

  function Column<T>(b: Grid<T>, j: nat): (c: seq<T>)
    requires IsBoard(b) && j < BOARD_SIZE
    ensures |c| == BOARD_SIZE && forall i :: 0 <= i < BOARD_SIZE ==> c[i] == b[i][j]
  {
    seq(BOARD_SIZE, i requires 0 <= i < BOARD_SIZE => b[i][j])
  }

  /** The k-th line of the board, read from the side the move pushes to. */
  function LineOf<T>(b: Grid<T>, d: Direction, k: nat): (line: seq<T>)
    requires IsBoard(b) && d != Unknown && k < BOARD_SIZE
    ensures |line| == BOARD_SIZE
  {
    match d
    case Left => b[k]
    case Right => Reverse(b[k])
    case Up => Reverse(Column(b, k))
    case Down => Column(b, k)
  }

  /** Which row of the rotated board the k-th line becomes. */
  function RowFor(d: Direction, k: nat): nat
    requires d != Unknown && k < BOARD_SIZE
  {
    if d.Left? || d.Up? then k else BOARD_SIZE - 1 - k
  }

  lemma QuarterTurns(b: Board)
    requires IsBoard(b)
    ensures Turned(b, 0) == b
    ensures Turned(b, 1) == Rotate(b)
    ensures Turned(b, 2) == Rotate(Rotate(b))
    ensures Turned(b, 3) == Rotate(Rotate(Rotate(b)))
    ensures Turned(b, 4) == Rotate(Rotate(Rotate(Rotate(b))))
  {
    assert Turned(b, 1) == Rotate(Turned(b, 0));
    assert Turned(b, 2) == Rotate(Turned(b, 1));
    assert Turned(b, 3) == Rotate(Turned(b, 2));
  }

  lemma RotatedRow(b: Board, i: nat)
    requires IsBoard(b) && i < BOARD_SIZE
    ensures Rotate(b)[i] == Reverse(Column(b, i))
    ensures Column(Rotate(b), i) == b[BOARD_SIZE - 1 - i]
  {
    hide Rotate;
  }

  lemma ReverseTwice(s: seq<nat>)
    ensures Reverse(Reverse(s)) == s
  {
  }

  lemma TurnedLine(b: Board, d: Direction, k: nat)
    requires IsBoard(b) && d != Unknown && k < BOARD_SIZE
    ensures Turned(b, Rotations(d))[RowFor(d, k)] == LineOf(b, d, k)
  {
    hide Rotate, Reverse, Column, Turned;
    QuarterTurns(b);
    RotatedRow(b, k);
    RotatedRow(b, BOARD_SIZE - 1 - k);
    RotatedRow(Rotate(b), BOARD_SIZE - 1 - k);
    RotatedRow(Rotate(Rotate(b)), BOARD_SIZE - 1 - k);
    ReverseTwice(Column(b, k));
  }

  /** Four quarter turns are no turn. */
  lemma FourTurns(b: Board)
    requires IsBoard(b)
    ensures Turned(b, 4) == b
  {
    QuarterTurns(b);
    assert forall i :: 0 <= i < BOARD_SIZE ==> Turned(b, 4)[i] == b[i];
  }

  lemma {:induction false} TurnsAdd(b: Board, m: nat, n: nat)
    requires IsBoard(b)
    ensures Turned(Turned(b, m), n) == Turned(b, m + n)
  {
    if n == 0 {
    } else {
      TurnsAdd(b, m, n - 1);
    }
  }

  lemma TurnBack(b: Board, d: Direction)
    requires IsBoard(b) && d != Unknown
    ensures Turned(Turned(b, Rotations(d)), (4 - Rotations(d)) % 4) == b
    ensures Turned(Turned(b, (4 - Rotations(d)) % 4), Rotations(d)) == b
  {
    hide Turned;
    assert Turned(b, 0) == b by { QuarterTurns(b); }
    TurnsAdd(b, Rotations(d), (4 - Rotations(d)) % 4);
    TurnsAdd(b, (4 - Rotations(d)) % 4, Rotations(d));
    FourTurns(b);
  }

  /** A move slides every line of its direction on its own; in particular `up` pushes to the last row. */
  lemma MovedLine(b: Board, d: Direction, k: nat)
    requires IsBoard(b) && d != Unknown && k < BOARD_SIZE
    ensures LineOf(Moved(b, d), d, k) == Slide(LineOf(b, d, k))
  {
    hide Rotate, Slide, Turned, LineOf;
    var turned := Turned(b, Rotations(d));
    TurnBack(SlideAll(turned), d);
    TurnedLine(Moved(b, d), d, k);
    TurnedLine(b, d, k);
  }

  lemma CellOfLine<T>(b: Grid<T>, d: Direction, i: nat, j: nat)
    requires IsBoard(b) && d != Unknown && i < BOARD_SIZE && j < BOARD_SIZE
    ensures b[i][j] == match d
      case Left => LineOf(b, d, i)[j]
      case Right => LineOf(b, d, i)[3 - j]
      case Up => LineOf(b, d, j)[3 - i]
      case Down => LineOf(b, d, j)[i]
  {
  }

  /** A board is known from the lines of one direction. */
  lemma LinesDetermine<T>(a: Grid<T>, b: Grid<T>, d: Direction)
    requires IsBoard(a) && IsBoard(b) && d != Unknown
    requires forall k :: 0 <= k < BOARD_SIZE ==> LineOf(a, d, k) == LineOf(b, d, k)
    ensures a == b
  {
    hide LineOf;
    forall i | 0 <= i < BOARD_SIZE
      ensures a[i] == b[i]
    {
      forall j | 0 <= j < BOARD_SIZE
        ensures a[i][j] == b[i][j]
      {
        CellOfLine(a, d, i, j);
        CellOfLine(b, d, i, j);
      }
    }
  }

  // ---------- The in-place engine ----------

  datatype Cell = Empty | Tile(value: nat)

  function Gapless(cells: seq<Cell>): (tiles: seq<nat>)
    ensures |tiles| <= |cells|
  {
    if cells == [] then [] else (if cells[0].Empty? then [] else [cells[0].value]) + Gapless(cells[1..])
  }

  function Tiles(values: seq<nat>): (cells: seq<Cell>)
    ensures |cells| == |values| && forall i :: 0 <= i < |values| ==> cells[i] == Tile(values[i])
  {
    seq(|values|, i requires 0 <= i < |values| => Tile(values[i]))
  }

  function Condensed(line: seq<Cell>): seq<Cell> {
    var merged := Merge(Gapless(line));
    Tiles(merged) + if |merged| < 4 then seq(4 - |merged|, i => Empty) else []
  }

  method CondenseSequence(line: seq<Cell>) returns (condensed: seq<Cell>)
    ensures condensed == Condensed(line)
  {
    hide Gapless, Merge, MergePoints;
    var gapless := Gapless(line);
    MergeEnd(gapless);
    assert gapless[0..] == gapless;
    condensed := [];
    ghost var merged: seq<nat> := [];
    var i := 0;
    while i < |gapless|
      invariant 0 <= i <= |gapless|
      invariant condensed == Tiles(merged)
      invariant merged + Merge(gapless[i..]) == Merge(gapless)
    {
      MergeStep(gapless, i);
      if i + 1 < |gapless| && gapless[i] == gapless[i + 1] {
        Regroup(merged, gapless[i] * 2, Merge(gapless[i + 2..]));
        condensed, merged := condensed + [Tile(gapless[i] * 2)], merged + [gapless[i] * 2];
        i := i + 2;
      } else {
        Regroup(merged, gapless[i], Merge(gapless[i + 1..]));
        condensed, merged := condensed + [Tile(gapless[i])], merged + [gapless[i]];
        i := i + 1;
      }
    }
    assert merged == Merge(gapless) by { assert merged + [] == merged; }
    if |condensed| < 4 {
      condensed := condensed + seq(4 - |condensed|, i => Empty);
    }
  }

  predicate IsSquare(board: array2<Cell>) {
    board.Length0 == BOARD_SIZE && board.Length1 == BOARD_SIZE
  }

  ghost function Cells(board: array2<Cell>): (g: Grid<Cell>)
    requires IsSquare(board)
    reads board
    ensures IsBoard(g)
    ensures forall i, j :: 0 <= i < BOARD_SIZE && 0 <= j < BOARD_SIZE ==> g[i][j] == board[i, j]
  {
    seq(BOARD_SIZE, i requires 0 <= i < BOARD_SIZE reads board =>
      seq(BOARD_SIZE, j requires 0 <= j < BOARD_SIZE reads board => board[i, j]))
  }

  /** This engine's `up` pushes to the first row: where the rotating one pushes for `down`. */
  function Opposite(d: Direction): Direction {
    match d
    case Up => Down
    case Down => Up
    case _ => d
  }

  /** Row and column of the i-th cell of the k-th line. */
  function Place(d: Direction, k: nat, i: nat): (place: (nat, nat))
    requires d != Unknown && k < BOARD_SIZE && i < BOARD_SIZE
    ensures place.0 < BOARD_SIZE && place.1 < BOARD_SIZE
  {
    match d
    case Left => (k, i)
    case Right => (k, BOARD_SIZE - 1 - i)
    case Up => (BOARD_SIZE - 1 - i, k)
    case Down => (i, k)
  }

  lemma PlaceIsLine<T>(b: Grid<T>, d: Direction, k: nat, i: nat)
    requires IsBoard(b) && d != Unknown && k < BOARD_SIZE && i < BOARD_SIZE
    ensures b[Place(d, k, i).0][Place(d, k, i).1] == LineOf(b, d, k)[i]
  {
  }

  method ReadLine(board: array2<Cell>, d: Direction, k: nat) returns (line: seq<Cell>)
    requires IsSquare(board) && d != Unknown && k < BOARD_SIZE
    ensures line == LineOf(Cells(board), d, k)
  {
    line := [];
    for i := 0 to BOARD_SIZE
      invariant |line| == i
      invariant forall m :: 0 <= m < i ==> line[m] == board[Place(d, k, m).0, Place(d, k, m).1]
    {
      line := line + [board[Place(d, k, i).0, Place(d, k, i).1]];
    }
    forall m | 0 <= m < BOARD_SIZE
      ensures line[m] == LineOf(Cells(board), d, k)[m]
    {
      PlaceIsLine(Cells(board), d, k, m);
    }
  }

  method WriteLine(board: array2<Cell>, d: Direction, k: nat, line: seq<Cell>)
    requires IsSquare(board) && d != Unknown && k < BOARD_SIZE && |line| == BOARD_SIZE
    modifies board
    ensures LineOf(Cells(board), d, k) == line
    ensures forall m :: 0 <= m < BOARD_SIZE && m != k ==> LineOf(Cells(board), d, m) == old(LineOf(Cells(board), d, m))
  {
    hide LineOf;
    ghost var before := Cells(board);
    for i := 0 to BOARD_SIZE
      invariant forall m :: 0 <= m < i ==> board[Place(d, k, m).0, Place(d, k, m).1] == line[m]
      invariant forall n, m :: 0 <= n < BOARD_SIZE && 0 <= m < BOARD_SIZE && n != k ==>
        board[Place(d, n, m).0, Place(d, n, m).1] == before[Place(d, n, m).0][Place(d, n, m).1]
    {
      board[Place(d, k, i).0, Place(d, k, i).1] := line[i];
    }
    forall n | 0 <= n < BOARD_SIZE
      ensures LineOf(Cells(board), d, n) == if n == k then line else LineOf(before, d, n)
    {
      forall m | 0 <= m < BOARD_SIZE
        ensures LineOf(Cells(board), d, n)[m] == if n == k then line[m] else LineOf(before, d, n)[m]
      {
        PlaceIsLine(Cells(board), d, n, m);
        PlaceIsLine(before, d, n, m);
      }
    }
  }

  /** Every line of the direction is condensed, each from the cells it had before. */
  ghost predicate IsCondensed(before: Grid<Cell>, after: Grid<Cell>, d: Direction)
    requires IsBoard(before) && IsBoard(after) && d != Unknown
  {
    forall k :: 0 <= k < BOARD_SIZE ==> LineOf(after, d, k) == Condensed(LineOf(before, d, k))
  }

  /** What each word makes of a board: every row or column is condensed towards the side that the word names. */
  ghost predicate Pushed(before: Grid<Cell>, after: Grid<Cell>, word: Direction)
    requires IsBoard(before) && IsBoard(after)
  {
    match word
    case Left => forall k :: 0 <= k < BOARD_SIZE ==> after[k] == Condensed(before[k])
    case Right => forall k :: 0 <= k < BOARD_SIZE ==> Reverse(after[k]) == Condensed(Reverse(before[k]))
    case Up => forall k :: 0 <= k < BOARD_SIZE ==> Column(after, k) == Condensed(Column(before, k))
    case Down => forall k :: 0 <= k < BOARD_SIZE ==> Reverse(Column(after, k)) == Condensed(Reverse(Column(before, k)))
    case Unknown => after == before
  }

  lemma WordsPush(before: Grid<Cell>, after: Grid<Cell>, word: Direction)
    requires IsBoard(before) && IsBoard(after) && word != Unknown
    ensures IsCondensed(before, after, Opposite(word)) <==> Pushed(before, after, word)
  {
    hide Condensed;
    forall k | 0 <= k < BOARD_SIZE
      ensures LineOf(after, Left, k) == after[k] && LineOf(after, Right, k) == Reverse(after[k])
      ensures LineOf(after, Down, k) == Column(after, k) && LineOf(after, Up, k) == Reverse(Column(after, k))
    {
    }
  }

  method CondenseBoard(board: array2<Cell>, direction: Direction)
    requires IsSquare(board)
    modifies board
    ensures Pushed(old(Cells(board)), Cells(board), direction)
    ensures direction == Unknown ==> Cells(board) == old(Cells(board))
    ensures direction != Unknown ==> IsCondensed(old(Cells(board)), Cells(board), Opposite(direction))
  {
    if direction == Unknown {
      return;
    }
    hide Pushed;
    var push := Opposite(direction);
    for k := 0 to BOARD_SIZE
      invariant forall m :: 0 <= m < k ==>
        LineOf(Cells(board), push, m) == Condensed(old(LineOf(Cells(board), push, m)))
      invariant forall m :: k <= m < BOARD_SIZE ==> LineOf(Cells(board), push, m) == old(LineOf(Cells(board), push, m))
    {
      var line := ReadLine(board, push, k);
      var condensed := CondenseSequence(line);
      WriteLine(board, push, k, condensed);
    }
    WordsPush(old(Cells(board)), Cells(board), direction);
  }

  // ---------- The engines agree ----------

  function ToCell(x: nat): Cell {
    if x == 0 then Empty else Tile(x)
  }

  function ToCells(row: seq<nat>): (cells: seq<Cell>)
    ensures |cells| == |row| && forall i :: 0 <= i < |row| ==> cells[i] == ToCell(row[i])
  {
    seq(|row|, i requires 0 <= i < |row| => ToCell(row[i]))
  }

  function ToGrid(b: Board): (g: Grid<Cell>)
    requires IsBoard(b)
    ensures IsBoard(g)
    ensures forall i, j :: 0 <= i < BOARD_SIZE && 0 <= j < BOARD_SIZE ==> g[i][j] == ToCell(b[i][j])
  {
    seq(BOARD_SIZE, i requires 0 <= i < BOARD_SIZE => ToCells(b[i]))
  }

  lemma {:induction false} GaplessIsNonZero(row: seq<nat>)
    ensures Gapless(ToCells(row)) == NonZero(row)
  {
    if row == [] {
    } else {
      assert ToCells(row)[1..] == ToCells(row[1..]);
      GaplessIsNonZero(row[1..]);
    }
  }

  lemma CondensedIsSlid(row: seq<nat>)
    requires |row| == BOARD_SIZE
    ensures Condensed(ToCells(row)) == ToCells(Slide(row))
  {
    GaplessIsNonZero(row);
  }

  lemma LineOfGrid(b: Board, d: Direction, k: nat)
    requires IsBoard(b) && d != Unknown && k < BOARD_SIZE
    ensures LineOf(ToGrid(b), d, k) == ToCells(LineOf(b, d, k))
  {
  }

  /** Condensing in place and rotating, sliding and rotating back give the same board, `left` with `left`,
    * `right` with `right`, and `up` of the one with `down` of the other.
    */
  lemma EnginesAgree(b: Board, after: Grid<Cell>, d: Direction)
    requires IsBoard(b) && IsBoard(after) && d != Unknown
    ensures IsCondensed(ToGrid(b), after, d) <==> after == ToGrid(Moved(b, d))
  {
    hide LineOf, Moved, Condensed, Slide;
    forall k | 0 <= k < BOARD_SIZE
      ensures LineOf(ToGrid(Moved(b, d)), d, k) == Condensed(LineOf(ToGrid(b), d, k))
    {
      MovedLine(b, d, k);
      LineOfGrid(b, d, k);
      LineOfGrid(Moved(b, d), d, k);
      CondensedIsSlid(LineOf(b, d, k));
    }
    if IsCondensed(ToGrid(b), after, d) {
      LinesDetermine(after, ToGrid(Moved(b, d)), d);
    }
  }

  /** Where each direction of the rotating engine pushes: `left` to the first column, `right` to the last, `down` to
    * the first row and `up` to the last.
    */
  lemma MovesPush(b: Board, k: nat)
    requires IsBoard(b) && k < BOARD_SIZE
    ensures Moved(b, Left)[k] == Slide(b[k])
    ensures Reverse(Moved(b, Right)[k]) == Slide(Reverse(b[k]))
    ensures Column(Moved(b, Down), k) == Slide(Column(b, k))
    ensures Reverse(Column(Moved(b, Up), k)) == Slide(Reverse(Column(b, k)))
    ensures Moved(b, Unknown) == b
  {
    hide Slide, Turned, Rotate;
    MovedLine(b, Left, k);
    MovedLine(b, Right, k);
    MovedLine(b, Down, k);
    MovedLine(b, Up, k);
  }
}
