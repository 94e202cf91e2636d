/** The prefix-tree row parser of `src/art/megatron/prefix_tree.py`.
  *
  * Two flat integer rows (the group and the parent of every token) are cut into maximal
  * runs, stripped of padding, and read as a forest of segments. `Parses` says, without any
  * algorithm, which `Row` belongs to which input; `ParsePrefixTreeRow` is the source's loop,
  * proved to return that row exactly when there is one.
  */
module PrefixTree {
  import opened Wrappers

  datatype Segment = Segment(
    groupId: int,
    parentId: int,
    start: nat,
    end: nat,
    familyIndex: nat,
    ancestors: seq<int>
  )

  datatype Row = Row(rowIndex: int, validTokens: nat, segments: seq<Segment>)

  datatype Run = Run(start: nat, end: nat, groupId: int, parentId: int)

  datatype ParseError =
    | ShapeMismatch
    | PaddingNotTail
    | InconsistentParent(groupId: int, start: nat, end: nat)
    | RepeatedGroups(counts: map<int, nat>)
    | MissingParent(groupId: int, parentId: int)
    | ParentEndsLate(groupId: int, parentId: int)

  // ---------- Runs ----------

  /** `runs` cuts the rows into consecutive, nonempty, maximal stretches of one group and one parent. */
  ghost predicate Tiles(runs: seq<Run>, groups: seq<int>, parents: seq<int>)
    requires |groups| == |parents|
  {
    if runs == [] then
      |groups| == 0
    else
      var init, last := runs[..|runs| - 1], runs[|runs| - 1];
      && last.start < last.end == |groups|
      && (forall i :: last.start <= i < last.end ==> groups[i] == last.groupId && parents[i] == last.parentId)
      && Tiles(init, groups[..last.start], parents[..last.start])
      && (init != [] ==> init[|init| - 1].groupId != last.groupId)
  }

  /** Position `e` repeats the group of the run starting at `s` but names another parent. */
  ghost predicate ChangesParentInside(groups: seq<int>, parents: seq<int>, groupId: int, s: nat, e: nat)
    requires |groups| == |parents|
  {
    && s < e < |groups|
    && (forall i :: s <= i <= e ==> groups[i] == groupId)
    && parents[e] != parents[e - 1]
  }

  function ScanRuns(groups: seq<int>, parents: seq<int>): (r: Result<seq<Run>, ParseError>)
    requires |groups| == |parents|
    ensures r.Ok? ==> Tiles(r.value, groups, parents)
    ensures r.Err? ==>
              r.error.InconsistentParent?
              && ChangesParentInside(groups, parents, r.error.groupId, r.error.start, r.error.end)
    decreases |groups|
  {
    var n := |groups|;
    if n == 0 then
      Ok([])
    else
      match ScanRuns(groups[..n - 1], parents[..n - 1])
      case Err(e) => Err(e)
      case Ok(runs) =>
        var g, p := groups[n - 1], parents[n - 1];
        var init := if runs == [] then [] else runs[..|runs| - 1];
        if runs == [] || runs[|runs| - 1].groupId != g then
          assert Tiles(runs, groups[..n - 1], parents[..n - 1]);
          assert (runs + [Run(n - 1, n, g, p)])[..|runs|] == runs;
          Ok(runs + [Run(n - 1, n, g, p)])
        else if runs[|runs| - 1].parentId != p then
          Err(InconsistentParent(g, runs[|runs| - 1].start, n - 1))
        else
          var last := runs[|runs| - 1];
          assert groups[..n - 1][..last.start] == groups[..last.start];
          assert parents[..n - 1][..last.start] == parents[..last.start];
          assert (init + [last.(end := n)])[..|init|] == init;
          Ok(init + [last.(end := n)])
  }

  /** The last run of a tiling is the longest stretch of its group that ends the row. */
  lemma LastRunIsMaximal(runs: seq<Run>, groups: seq<int>, parents: seq<int>)
    requires |groups| == |parents| && runs != [] && Tiles(runs, groups, parents)
    ensures var last := runs[|runs| - 1];
            && (forall i :: last.start <= i < |groups| ==> groups[i] == last.groupId)
            && (last.start > 0 ==> groups[last.start - 1] != last.groupId)
  {
    var init, last := runs[..|runs| - 1], runs[|runs| - 1];
    if last.start > 0 {
      var g := groups[..last.start];
      assert Tiles(init, g, parents[..last.start]);
      assert g[last.start - 1] == init[|init| - 1].groupId;
    }
  }

  /** A row has at most one tiling. */
  lemma {:induction false} TilesUnique(a: seq<Run>, b: seq<Run>, groups: seq<int>, parents: seq<int>)
    requires |groups| == |parents|
    requires Tiles(a, groups, parents) && Tiles(b, groups, parents)
    ensures a == b
    decreases |a|
  {
    if a == [] {
    } else {
      var x, y := a[|a| - 1], b[|b| - 1];
      LastRunIsMaximal(a, groups, parents);
      LastRunIsMaximal(b, groups, parents);
      assert groups[|groups| - 1] == x.groupId == y.groupId;
      assert x.start == y.start;
      TilesUnique(a[..|a| - 1], b[..|b| - 1], groups[..x.start], parents[..x.start]);
      assert a == a[..|a| - 1] + [x];
      assert b == b[..|b| - 1] + [y];
    }
  }

  /** The change at `e` is the first one, and `s` is where its run of the group begins. */
  ghost predicate FirstChange(groups: seq<int>, parents: seq<int>, groupId: int, s: nat, e: nat)
    requires |groups| == |parents|
  {
    && ChangesParentInside(groups, parents, groupId, s, e)
    && (s > 0 ==> groups[s - 1] != groupId)
    && forall i, j :: 0 <= i < j < e && j == i + 1 && groups[i] == groups[j] ==> parents[i] == parents[j]
  }

  lemma TilesAreConsistent(runs: seq<Run>, groups: seq<int>, parents: seq<int>)
    requires |groups| == |parents| && Tiles(runs, groups, parents)
    ensures forall i, j :: 0 <= i < j < |groups| && j == i + 1 && groups[i] == groups[j] ==> parents[i] == parents[j]
  {
    hide Tiles;
    forall i, j | 0 <= i < j < |groups| && j == i + 1 && groups[i] == groups[j]
      ensures parents[i] == parents[j]
    {
      if parents[i] != parents[j] {
        assert ChangesParentInside(groups, parents, groups[i], i, j);
        InconsistentHasNoTiling(groups, parents, groups[i], i, j, runs);
      }
    }
  }

  lemma FirstChangeLifts(groups: seq<int>, parents: seq<int>, n: nat, groupId: int, s: nat, e: nat)
    requires |groups| == |parents| && n <= |groups| && FirstChange(groups[..n], parents[..n], groupId, s, e)
    ensures FirstChange(groups, parents, groupId, s, e)
  {
  }

  /** A scan that fails names the first position where a parent changes inside a group. */
  lemma {:induction false} ScanErrorIsFirst(groups: seq<int>, parents: seq<int>)
    requires |groups| == |parents| && ScanRuns(groups, parents).Err?
    ensures var e := ScanRuns(groups, parents).error;
            e.InconsistentParent? && FirstChange(groups, parents, e.groupId, e.start, e.end)
    decreases |groups|
  {
    hide Tiles;
    var n := |groups|;
    if n == 0 {
    } else {
      var g, p := groups[..n - 1], parents[..n - 1];
      match ScanRuns(g, p)
      case Err(e) =>
        ScanErrorIsFirst(g, p);
        FirstChangeLifts(groups, parents, n - 1, e.groupId, e.start, e.end);
      case Ok(runs) =>
        LastRunIsMaximal(runs, g, p);
        TilesAreConsistent(runs, g, p);
    }
  }

  /** A row that changes parent inside a group run has no tiling. */
  lemma {:induction false} InconsistentHasNoTiling(
    groups: seq<int>, parents: seq<int>, groupId: int, s: nat, e: nat, runs: seq<Run>)
    requires |groups| == |parents|
    requires ChangesParentInside(groups, parents, groupId, s, e)
    ensures !Tiles(runs, groups, parents)
    decreases |runs|
  {
    if Tiles(runs, groups, parents) {
      var init, last := runs[..|runs| - 1], runs[|runs| - 1];
      var g, p := groups[..last.start], parents[..last.start];
      LastRunIsMaximal(runs, groups, parents);
      if e < last.start {
        assert ChangesParentInside(g, p, groupId, s, e);
        InconsistentHasNoTiling(g, p, groupId, s, e, init);
      }
    }
  }

  // ---------- Padding ----------

  /** `pad` fills the row from position `n` on and appears nowhere before it. */
  ghost predicate PaddedAfter(groups: seq<int>, pad: int, n: nat) {
    && n <= |groups|
    && (forall i :: 0 <= i < n ==> groups[i] != pad)
    && (forall i :: n <= i < |groups| ==> groups[i] == pad)
  }

  function CountValid(groups: seq<int>, pad: int): (n: nat)
    ensures n <= |groups|
    ensures (forall i :: 0 <= i < n ==> groups[i] != pad) ==> PaddedAfter(groups, pad, n)
    ensures forall m: nat :: PaddedAfter(groups, pad, m) ==> m == n
    decreases |groups|
  {
    if groups == [] then
      0
    else
      var k := |groups| - 1;
      var rest := CountValid(groups[..k], pad);
      assert forall i :: 0 <= i < k ==> groups[..k][i] == groups[i];
      assert forall m: nat :: PaddedAfter(groups, pad, m) && m <= k ==> PaddedAfter(groups[..k], pad, m);
      assert PaddedAfter(groups, pad, |groups|) ==> PaddedAfter(groups[..k], pad, k);
      assert (forall i :: 0 <= i < rest ==> groups[i] != pad) ==> PaddedAfter(groups[..k], pad, rest);
      assert (forall i :: 0 <= i < rest ==> groups[i] != pad) && rest < k ==> groups[..k][rest] == pad;
      if groups[k] != pad then rest + 1 else rest
  }

  /** The last run repeats an earlier (group, parent) pair whose parent is negative. */
  predicate TerminalRepeat(runs: seq<Run>) {
    && |runs| >= 2
    && var last := runs[|runs| - 1];
      && last.parentId < 0
      && exists k :: 0 <= k < |runs| - 1 && runs[k].groupId == last.groupId && runs[k].parentId == last.parentId
  }

  /** The runs left once a repeated terminal run is taken for padding. */
  ghost function Kept(runs: seq<Run>): seq<Run> {
    if TerminalRepeat(runs) then runs[..|runs| - 1] else runs
  }

  function EndOf(runs: seq<Run>): nat {
    if runs == [] then 0 else runs[|runs| - 1].end
  }

  lemma KeptTiles(runs: seq<Run>, groups: seq<int>, parents: seq<int>)
    requires |groups| == |parents| && Tiles(runs, groups, parents)
    ensures EndOf(Kept(runs)) <= |groups|
    ensures Tiles(Kept(runs), groups[..EndOf(Kept(runs))], parents[..EndOf(Kept(runs))])
  {
    assert groups[..|groups|] == groups && parents[..|parents|] == parents;
    if TerminalRepeat(runs) {
      var init, last := runs[..|runs| - 1], runs[|runs| - 1];
      assert Tiles(init, groups[..last.start], parents[..last.start]);
      assert EndOf(init) == last.start;
    }
  }

  function InferTerminalPaddingLength(groups: seq<int>, parents: seq<int>): (r: Result<nat, ParseError>)
    requires |groups| == |parents|
    ensures r.Ok? ==>
              exists runs :: Tiles(runs, groups, parents) && r.value == EndOf(Kept(runs))
    ensures r.Err? ==> ScanRuns(groups, parents) == Err(r.error)
  {
    if |groups| == 0 then
      assert Tiles([], groups, parents) && Kept([]) == [];
      Ok(0)
    else
      match ScanRuns(groups, parents)
      case Err(e) => Err(e)
      case Ok(runs) =>
        assert Tiles(runs, groups, parents);
        if TerminalRepeat(runs) then
          assert Tiles(runs[..|runs| - 1], groups[..runs[|runs| - 1].start], parents[..runs[|runs| - 1].start]);
          Ok(runs[|runs| - 1].start)
        else
          Ok(|groups|)
  }

  function ValidLength(groups: seq<int>, parents: seq<int>, pad: int): (r: Result<nat, ParseError>)
    requires |groups| == |parents|
    ensures r.Ok? ==>
              exists n: nat, runs ::
                && PaddedAfter(groups, pad, n)
                && Tiles(runs, groups[..n], parents[..n])
                && r.value == EndOf(Kept(runs))
    ensures r == Err(PaddingNotTail) <==> forall n: nat :: !PaddedAfter(groups, pad, n)
    ensures r.Err? && r != Err(PaddingNotTail) ==>
              exists n: nat :: PaddedAfter(groups, pad, n) && ScanRuns(groups[..n], parents[..n]) == Err(r.error)
  {
    var n := CountValid(groups, pad);
    if n == 0 then
      assert PaddedAfter(groups, pad, 0);
      assert Tiles([], groups[..0], parents[..0]) && Kept([]) == [];
      Ok(0)
    else if exists i :: 0 <= i < n && groups[i] == pad then
      Err(PaddingNotTail)
    else
      assert PaddedAfter(groups, pad, n);
      InferTerminalPaddingLength(groups[..n], parents[..n])
  }

  // ---------- Forests ----------

  predicate IsRoot(groupId: int, parentId: int, start: nat, pad: int) {
    groupId == parentId || (start == 0 && parentId == pad)
  }

  ghost predicate IsRootSegment(s: Segment, pad: int) {
    IsRoot(s.groupId, s.parentId, s.start, pad)
  }

  ghost function RunsOf(segments: seq<Segment>): (runs: seq<Run>)
    ensures |runs| == |segments|
    ensures forall k :: 0 <= k < |runs| ==>
              runs[k] == Run(segments[k].start, segments[k].end, segments[k].groupId, segments[k].parentId)
  {
    seq(|segments|, k requires 0 <= k < |segments| =>
      Run(segments[k].start, segments[k].end, segments[k].groupId, segments[k].parentId))
  }

  ghost function TokensOf(segments: seq<Segment>): nat {
    if segments == [] then 0 else segments[|segments| - 1].end
  }

  ghost function RootCount(segments: seq<Segment>, pad: int): nat {
    if segments == [] then
      0
    else
      RootCount(segments[..|segments| - 1], pad)
      + (if IsRootSegment(segments[|segments| - 1], pad) then 1 else 0)
  }

  /** Segment `s` may follow the forest `before`: it is a new root, or a child of one earlier segment. */
  ghost predicate Extends(before: seq<Segment>, s: Segment, pad: int) {
    && s.start == TokensOf(before)
    && s.start < s.end
    && s.groupId != pad
    && (forall k :: 0 <= k < |before| ==> before[k].groupId != s.groupId)
    && (if IsRootSegment(s, pad) then
          s.ancestors == [] && s.familyIndex == RootCount(before, pad)
        else
          exists k :: 0 <= k < |before| && IsChildOf(s, before[k]))
  }

  ghost predicate IsChildOf(s: Segment, parent: Segment) {
    && parent.groupId == s.parentId
    && s.familyIndex == parent.familyIndex
    && s.ancestors == parent.ancestors + [s.parentId]
  }

  ghost predicate IsForest(segments: seq<Segment>, pad: int) {
    segments != [] ==>
      && IsForest(segments[..|segments| - 1], pad)
      && Extends(segments[..|segments| - 1], segments[|segments| - 1], pad)
  }

  /** `row` is what the two rows describe. */
  ghost predicate Parses(groups: seq<int>, parents: seq<int>, pad: int, row: Row) {
    && |groups| == |parents|
    && IsForest(row.segments, pad)
    && row.validTokens == TokensOf(row.segments)
    && exists n: nat, runs ::
        && PaddedAfter(groups, pad, n)
        && Tiles(runs, groups[..n], parents[..n])
        && RunsOf(row.segments) == Kept(runs)
  }

  lemma {:induction false} ForestStep(segments: seq<Segment>, pad: int, k: nat)
    requires IsForest(segments, pad) && k < |segments|
    ensures IsForest(segments[..k], pad) && Extends(segments[..k], segments[k], pad)
    decreases |segments|
  {
    if k < |segments| - 1 {
      var init := segments[..|segments| - 1];
      assert init[..k] == segments[..k];
      ForestStep(init, pad, k);
    }
  }

  /** The runs fix the forest: families and ancestor chains are not a choice of the parser. */
  lemma {:induction false} ForestUnique(a: seq<Segment>, b: seq<Segment>, pad: int)
    requires IsForest(a, pad) && IsForest(b, pad) && RunsOf(a) == RunsOf(b)
    ensures a == b
    decreases |a|
  {
    if a == [] {
    } else {
      var n := |a| - 1;
      assert |RunsOf(a)| == |RunsOf(b)|;
      forall k | 0 <= k <= n
        ensures RunsOf(a)[k] == RunsOf(b)[k]
      {
      }
      assert RunsOf(a[..n]) == RunsOf(b[..n]);
      ForestUnique(a[..n], b[..n], pad);
      assert RunsOf(a)[n] == RunsOf(b)[n];
      var x, y := a[n], b[n];
      if !IsRootSegment(x, pad) {
        var i :| 0 <= i < n && IsChildOf(x, a[..n][i]);
        var j :| 0 <= j < n && IsChildOf(y, b[..n][j]);
        DistinctGroups(a[..n], pad, i, j);
      }
      assert a == a[..n] + [x] && b == b[..n] + [y];
    }
  }

  lemma DistinctGroups(segments: seq<Segment>, pad: int, i: nat, j: nat)
    requires IsForest(segments, pad) && i < |segments| && j < |segments|
    ensures segments[i].groupId == segments[j].groupId ==> i == j
  {
    if i < j {
      ForestStep(segments, pad, j);
      assert segments[..j][i] == segments[i];
    } else if j < i {
      ForestStep(segments, pad, i);
      assert segments[..i][j] == segments[j];
    }
  }

  /** At most one row belongs to an input. */
  lemma ParsesUnique(groups: seq<int>, parents: seq<int>, pad: int, a: Row, b: Row)
    requires Parses(groups, parents, pad, a) && Parses(groups, parents, pad, b)
    ensures a.validTokens == b.validTokens && a.segments == b.segments
  {
    var n: nat, runs :|
      PaddedAfter(groups, pad, n) && Tiles(runs, groups[..n], parents[..n]) && RunsOf(a.segments) == Kept(runs);
    var m: nat, tiles :|
      PaddedAfter(groups, pad, m) && Tiles(tiles, groups[..m], parents[..m]) && RunsOf(b.segments) == Kept(tiles);
    PaddingUnique(groups, pad, n, m);
    TilesUnique(runs, tiles, groups[..n], parents[..n]);
    ForestUnique(a.segments, b.segments, pad);
  }

  lemma PaddingUnique(groups: seq<int>, pad: int, n: nat, m: nat)
    requires PaddedAfter(groups, pad, n) && PaddedAfter(groups, pad, m)
    ensures n == m
  {
    assert n < |groups| ==> groups[n] == pad;
    assert m < |groups| ==> groups[m] == pad;
  }

  // ---------- The parser ----------

  /** How many of the runs carry this group. */
  ghost function CountRuns(runs: seq<Run>, groupId: int): nat {
    if runs == [] then
      0
    else
      CountRuns(runs[..|runs| - 1], groupId) + (if runs[|runs| - 1].groupId == groupId then 1 else 0)
  }

  lemma {:induction false} CountRunsPositive(runs: seq<Run>, groupId: int)
    ensures CountRuns(runs, groupId) > 0 <==> exists k :: 0 <= k < |runs| && runs[k].groupId == groupId
    decreases |runs|
  {
    if runs == [] {
    } else {
      CountRunsPositive(runs[..|runs| - 1], groupId);
      assert runs[|runs| - 1].groupId == groupId ==> CountRuns(runs, groupId) > 0;
    }
  }

  /** What each error says about the input. No input gives `ParentEndsLate`. */
  ghost predicate Explains(error: ParseError, groups: seq<int>, parents: seq<int>, pad: int) {
    match error
    case ShapeMismatch => |groups| != |parents|
    case PaddingNotTail =>
      |groups| == |parents| && forall n: nat :: !PaddedAfter(groups, pad, n)
    case InconsistentParent(g, s, e) =>
      |groups| == |parents| && exists n: nat ::
        PaddedAfter(groups, pad, n) && FirstChange(groups[..n], parents[..n], g, s, e)
    case RepeatedGroups(counts) =>
      |groups| == |parents| && counts != map[] && exists n: nat, runs ::
        && PaddedAfter(groups, pad, n)
        && Tiles(runs, groups[..n], parents[..n])
        && forall g :: if g in counts then counts[g] == CountRuns(Kept(runs), g) >= 2
                                      else CountRuns(Kept(runs), g) <= 1
    case MissingParent(g, p) =>
      |groups| == |parents| && exists n: nat, runs, k: nat ::
        && PaddedAfter(groups, pad, n)
        && Tiles(runs, groups[..n], parents[..n])
        && k < |Kept(runs)|
        && Kept(runs)[k].groupId == g && Kept(runs)[k].parentId == p
        && IsOrphan(Kept(runs), k, pad)
    case ParentEndsLate(_, _) => false
  }

  /** Run `k` is no root and no earlier run is its parent. */
  ghost predicate IsOrphan(runs: seq<Run>, k: nat, pad: int)
    requires k < |runs|
  {
    && !IsRoot(runs[k].groupId, runs[k].parentId, runs[k].start, pad)
    && forall j :: 0 <= j < k ==> runs[j].groupId != runs[k].parentId
  }

  lemma {:induction false} ForestHasNoRepeats(segments: seq<Segment>, pad: int, g: int)
    requires IsForest(segments, pad)
    ensures CountRuns(RunsOf(segments), g) <= 1
    decreases |segments|
  {
    if segments == [] {
    } else {
      var n := |segments| - 1;
      ForestHasNoRepeats(segments[..n], pad, g);
      assert RunsOf(segments)[..n] == RunsOf(segments[..n]);
      CountRunsPositive(RunsOf(segments[..n]), g);
    }
  }

  lemma ForestHasNoOrphans(segments: seq<Segment>, pad: int, k: nat)
    requires IsForest(segments, pad) && k < |segments|
    ensures !IsOrphan(RunsOf(segments), k, pad)
  {
    ForestStep(segments, pad, k);
    if !IsRootSegment(segments[k], pad) {
      var j :| 0 <= j < k && IsChildOf(segments[k], segments[..k][j]);
      assert RunsOf(segments)[j].groupId == segments[k].parentId;
    }
  }

  lemma SomeKey(counts: map<int, nat>) returns (g: int)
    requires counts != map[]
    ensures g in counts
  {
    assert (forall x :: x !in counts) ==> counts == map[];
    g :| g in counts;
  }

  /** An explained input has no row: every error is justified, and none hides a parse. */
  lemma ExplainedHasNoParse(error: ParseError, groups: seq<int>, parents: seq<int>, pad: int, row: Row)
    requires Explains(error, groups, parents, pad)
    ensures !Parses(groups, parents, pad, row)
  {
    if Parses(groups, parents, pad, row) {
      var m: nat, tiles :|
        PaddedAfter(groups, pad, m) && Tiles(tiles, groups[..m], parents[..m]) && RunsOf(row.segments) == Kept(tiles);
      match error {
        case ShapeMismatch =>
        case PaddingNotTail =>
        case InconsistentParent(g, s, e) =>
          var n: nat :| PaddedAfter(groups, pad, n) && FirstChange(groups[..n], parents[..n], g, s, e);
          PaddingUnique(groups, pad, n, m);
          InconsistentHasNoTiling(groups[..n], parents[..n], g, s, e, tiles);
        case RepeatedGroups(counts) =>
          var n: nat, runs :|
            && PaddedAfter(groups, pad, n) && Tiles(runs, groups[..n], parents[..n])
            && forall g :: if g in counts then counts[g] == CountRuns(Kept(runs), g) >= 2
                                          else CountRuns(Kept(runs), g) <= 1;
          PaddingUnique(groups, pad, n, m);
          TilesUnique(runs, tiles, groups[..n], parents[..n]);
          var g := SomeKey(counts);
          ForestHasNoRepeats(row.segments, pad, g);
        case MissingParent(g, p) =>
          var n: nat, runs, k: nat :|
            && PaddedAfter(groups, pad, n) && Tiles(runs, groups[..n], parents[..n])
            && k < |Kept(runs)| && Kept(runs)[k].groupId == g && Kept(runs)[k].parentId == p
            && IsOrphan(Kept(runs), k, pad);
          PaddingUnique(groups, pad, n, m);
          TilesUnique(runs, tiles, groups[..n], parents[..n]);
          ForestHasNoOrphans(row.segments, pad, k);
      }
    }
  }

  /** The source's check for groups that come in more than one run. */
  method FindRepeatedGroups(runs: seq<Run>, pad: int) returns (repeated: map<int, nat>)
    requires forall k :: 0 <= k < |runs| ==> runs[k].groupId != pad
    ensures forall g :: if g in repeated then repeated[g] == CountRuns(runs, g) >= 2 else CountRuns(runs, g) <= 1
  {
    var seen: set<int> := {};
    repeated := map[];
    for i := 0 to |runs|
      invariant forall g :: g in seen <==> CountRuns(runs[..i], g) > 0
      invariant forall g :: if g in repeated then repeated[g] == CountRuns(runs[..i], g) >= 2
                                             else CountRuns(runs[..i], g) <= 1
    {
      var groupId := runs[i].groupId;
      assert runs[..i + 1][..i] == runs[..i];
      if groupId in seen && groupId != pad {
        repeated := repeated[groupId := (if groupId in repeated then repeated[groupId] else 1) + 1];
      }
      seen := seen + {groupId};
    }
    assert runs[..|runs|] == runs;
  }

  /** The parser's three dictionaries hold, for each group seen, what its segment says. */
  ghost predicate Remembers(
    segments: seq<Segment>, first: map<int, Segment>, family: map<int, nat>, ancestors: map<int, seq<int>>)
  {
    && (forall k :: 0 <= k < |segments| ==>
          var s := segments[k];
          && s.groupId in first && first[s.groupId] == s
          && s.groupId in family && family[s.groupId] == s.familyIndex
          && s.groupId in ancestors && ancestors[s.groupId] == s.ancestors)
    && (forall g :: g in first ==> exists k :: 0 <= k < |segments| && segments[k].groupId == g)
  }

  lemma {:induction false} TileAt(runs: seq<Run>, groups: seq<int>, parents: seq<int>, k: nat)
    requires |groups| == |parents| && Tiles(runs, groups, parents) && k < |runs|
    ensures runs[k].start == EndOf(runs[..k]) < runs[k].end <= |groups|
    ensures forall i :: runs[k].start <= i < runs[k].end ==>
              groups[i] == runs[k].groupId && parents[i] == runs[k].parentId
    ensures k + 1 < |runs| ==> runs[k].groupId != runs[k + 1].groupId
    ensures forall j :: 0 <= j < k ==> runs[j].end <= runs[k].start
    decreases |runs|
  {
    var n := |runs| - 1;
    var init, last := runs[..n], runs[n];
    var g, p := groups[..last.start], parents[..last.start];
    if k < n {
      TileAt(init, g, p, k);
      assert init[..k] == runs[..k];
      assert forall i :: 0 <= i < last.start ==> groups[i] == g[i] && parents[i] == p[i];
    } else {
      forall j | 0 <= j < n
        ensures runs[j].end <= last.start
      {
        TileAt(init, g, p, j);
      }
    }
  }

  lemma {:induction false} TwoRunsOfOneGroup(runs: seq<Run>, j: nat, i: nat)
    requires j < i < |runs| && runs[j].groupId == runs[i].groupId
    ensures CountRuns(runs, runs[i].groupId) >= 2
    decreases |runs|
  {
    var n := |runs| - 1;
    if i < n {
      TwoRunsOfOneGroup(runs[..n], j, i);
    } else {
      CountRunsPositive(runs[..n], runs[i].groupId);
      assert runs[..n][j] == runs[j];
    }
  }

  /** Consecutive nonempty runs of distinct groups, none of them padding. */
  ghost predicate Orderly(runs: seq<Run>, pad: int) {
    forall k :: 0 <= k < |runs| ==> OrderlyAt(runs, pad, k)
  }

  ghost predicate OrderlyAt(runs: seq<Run>, pad: int, k: nat)
    requires k < |runs|
  {
    && runs[k].start == EndOf(runs[..k]) < runs[k].end
    && runs[k].groupId != pad
    && forall j :: 0 <= j < k ==> runs[j].groupId != runs[k].groupId && runs[j].end <= runs[k].start
  }

  lemma TilesAreOrderly(runs: seq<Run>, groups: seq<int>, parents: seq<int>, pad: int)
    requires |groups| == |parents| && Tiles(runs, groups, parents)
    requires forall k :: 0 <= k < |runs| ==> runs[k].groupId != pad
    requires forall g :: CountRuns(runs, g) <= 1
    ensures Orderly(runs, pad)
  {
    forall k | 0 <= k < |runs|
      ensures OrderlyAt(runs, pad, k)
    {
      TileAt(runs, groups, parents, k);
      forall j | 0 <= j < k
        ensures runs[j].groupId != runs[k].groupId
      {
        if runs[j].groupId == runs[k].groupId {
          TwoRunsOfOneGroup(runs, j, k);
        }
      }
    }
  }

  /** The next run may follow the forest built from the runs before it. */
  lemma RunMayFollow(runs: seq<Run>, pad: int, before: seq<Segment>)
    requires Orderly(runs, pad) && |before| < |runs| && RunsOf(before) == runs[..|before|]
    ensures var run := runs[|before|];
            && run.start == TokensOf(before) < run.end
            && run.groupId != pad
            && forall k :: 0 <= k < |before| ==> before[k].groupId != run.groupId && before[k].end <= run.start
  {
    assert OrderlyAt(runs, pad, |before|);
    assert forall k :: 0 <= k < |before| ==> RunsOf(before)[k] == runs[k];
    EndsAgree(before);
  }

  /** The source's main loop: runs in order, each a new root or a child of an earlier segment. */
  method BuildSegments(runs: seq<Run>, pad: int) returns (r: Result<seq<Segment>, ParseError>)
    requires Orderly(runs, pad)
    ensures r.Ok? ==> RunsOf(r.value) == runs && IsForest(r.value, pad)
    ensures r.Err? ==>
              r.error.MissingParent? && exists k: nat ::
                && k < |runs|
                && runs[k].groupId == r.error.groupId && runs[k].parentId == r.error.parentId
                && IsOrphan(runs, k, pad)
  {
    var firstSegmentByGroup: map<int, Segment> := map[];
    var familyByGroup: map<int, nat> := map[];
    var ancestorsByGroup: map<int, seq<int>> := map[];
    var segments: seq<Segment> := [];
    var nextFamilyIndex := 0;
    for i := 0 to |runs|
      invariant |segments| == i && RunsOf(segments) == runs[..i]
      invariant IsForest(segments, pad)
      invariant nextFamilyIndex == RootCount(segments, pad)
      invariant Remembers(segments, firstSegmentByGroup, familyByGroup, ancestorsByGroup)
    {
      var Run(start, end, groupId, parentId) := runs[i];
      RunMayFollow(runs, pad, segments);
      var familyIndex: nat, ancestors: seq<int>;
      if IsRoot(groupId, parentId, start, pad) {
        familyIndex := nextFamilyIndex;
        nextFamilyIndex := nextFamilyIndex + 1;
        ancestors := [];
      } else {
        if parentId !in firstSegmentByGroup {
          assert forall j :: 0 <= j < i ==> runs[j].groupId == RunsOf(segments)[j].groupId;
          assert IsOrphan(runs, i, pad);
          return Err(MissingParent(groupId, parentId));
        }
        ChildFollows(segments, firstSegmentByGroup, familyByGroup, ancestorsByGroup, runs[i], pad);
        if firstSegmentByGroup[parentId].end > start {
          assert false;
          return Err(ParentEndsLate(groupId, parentId));
        }
        familyIndex := familyByGroup[parentId];
        ancestors := ancestorsByGroup[parentId] + [parentId];
      }
      var segment := Segment(groupId, parentId, start, end, familyIndex, ancestors);
      ForestGrows(segments, segment, pad);
      RemembersGrows(segments, segment, firstSegmentByGroup, familyByGroup, ancestorsByGroup);
      RunsGrow(segments, segment, runs);
      segments := segments + [segment];
      firstSegmentByGroup := firstSegmentByGroup[groupId := segment];
      familyByGroup := familyByGroup[groupId := familyIndex];
      ancestorsByGroup := ancestorsByGroup[groupId := ancestors];
    }
    assert runs[..|runs|] == runs;
    r := Ok(segments);
  }

  /** What a found parent makes of a run that may follow. */
  lemma ChildFollows(
    segments: seq<Segment>, first: map<int, Segment>, family: map<int, nat>, ancestors: map<int, seq<int>>,
    run: Run, pad: int)
    requires Remembers(segments, first, family, ancestors)
    requires run.start == TokensOf(segments) < run.end && run.groupId != pad
    requires forall k :: 0 <= k < |segments| ==> segments[k].groupId != run.groupId && segments[k].end <= run.start
    requires !IsRoot(run.groupId, run.parentId, run.start, pad) && run.parentId in first
    ensures run.parentId in family && run.parentId in ancestors
    ensures first[run.parentId].end <= run.start
    ensures Extends(
              segments,
              Segment(run.groupId, run.parentId, run.start, run.end,
                      family[run.parentId], ancestors[run.parentId] + [run.parentId]),
              pad)
  {
    var k :| 0 <= k < |segments| && segments[k].groupId == run.parentId;
    assert first[run.parentId] == segments[k];
    assert IsChildOf(Segment(run.groupId, run.parentId, run.start, run.end,
                             family[run.parentId], ancestors[run.parentId] + [run.parentId]),
                     segments[k]);
  }

  lemma ForestGrows(segments: seq<Segment>, s: Segment, pad: int)
    requires IsForest(segments, pad) && Extends(segments, s, pad)
    ensures IsForest(segments + [s], pad)
    ensures RootCount(segments + [s], pad) == RootCount(segments, pad) + (if IsRootSegment(s, pad) then 1 else 0)
  {
    assert (segments + [s])[..|segments|] == segments;
  }

  lemma RemembersGrows(
    segments: seq<Segment>, s: Segment,
    first: map<int, Segment>, family: map<int, nat>, ancestors: map<int, seq<int>>)
    requires Remembers(segments, first, family, ancestors)
    requires forall k :: 0 <= k < |segments| ==> segments[k].groupId != s.groupId
    ensures Remembers(segments + [s],
                      first[s.groupId := s], family[s.groupId := s.familyIndex], ancestors[s.groupId := s.ancestors])
  {
    forall g | g in first || g == s.groupId
      ensures exists k :: 0 <= k <= |segments| && (segments + [s])[k].groupId == g
    {
      if g == s.groupId {
        assert (segments + [s])[|segments|].groupId == g;
      } else {
        var k :| 0 <= k < |segments| && segments[k].groupId == g;
        assert (segments + [s])[k].groupId == g;
      }
    }
  }

  lemma RunsGrow(segments: seq<Segment>, s: Segment, runs: seq<Run>)
    requires |segments| < |runs| && RunsOf(segments) == runs[..|segments|]
    requires runs[|segments|] == Run(s.start, s.end, s.groupId, s.parentId)
    ensures RunsOf(segments + [s]) == runs[..|segments| + 1]
  {
    assert forall k :: 0 <= k < |segments| ==> RunsOf(segments)[k] == runs[k];
  }

  method ParsePrefixTreeRow(groups: seq<int>, parents: seq<int>, rowIndex: int, pad: int)
    returns (r: Result<Row, ParseError>)
    ensures r.Ok? ==> r.value.rowIndex == rowIndex && Parses(groups, parents, pad, r.value)
    ensures r.Err? ==> Explains(r.error, groups, parents, pad)
    ensures r.Ok? <==> exists row :: Parses(groups, parents, pad, row)
  {
    hide Tiles, ScanRuns, ValidLength, TerminalRepeat, Kept;
    if |groups| != |parents| {
      return Err(ShapeMismatch);
    }
    var valid := ValidLength(groups, parents, pad);
    if valid.Err? {
      LengthErrorIsExplained(groups, parents, pad);
      ExplainedRejects(valid.error, groups, parents, pad);
      return Err(valid.error);
    }
    var validTokens := valid.value;
    ghost var n: nat, tiles :|
      PaddedAfter(groups, pad, n) && Tiles(tiles, groups[..n], parents[..n]) && validTokens == EndOf(Kept(tiles));
    CutTiles(groups, parents, pad, n, tiles);
    if validTokens == 0 {
      NothingKept(tiles, groups[..n], parents[..n]);
      assert Kept(tiles) == [] == RunsOf([]);
      assert Parses(groups, parents, pad, Row(rowIndex, 0, []));
      return Ok(Row(rowIndex, 0, []));
    }
    RescanSucceeds(groups[..validTokens], parents[..validTokens], Kept(tiles));
    var runs := ScanRuns(groups[..validTokens], parents[..validTokens]).value;

    RunsAvoidPad(runs, groups[..validTokens], parents[..validTokens], pad);
    var repeated := FindRepeatedGroups(runs, pad);
    if repeated != map[] {
      ExplainedRejects(RepeatedGroups(repeated), groups, parents, pad);
      return Err(RepeatedGroups(repeated));
    }
    TilesAreOrderly(runs, groups[..validTokens], parents[..validTokens], pad);
    var built := BuildSegments(runs, pad);
    match built {
      case Err(e) =>
        ExplainedRejects(e, groups, parents, pad);
        r := Err(e);
      case Ok(segments) =>
        EndsAgree(segments);
        r := Ok(Row(rowIndex, validTokens, segments));
        assert Parses(groups, parents, pad, r.value);
    }
  }

  lemma LengthErrorIsExplained(groups: seq<int>, parents: seq<int>, pad: int)
    requires |groups| == |parents| && ValidLength(groups, parents, pad).Err?
    ensures Explains(ValidLength(groups, parents, pad).error, groups, parents, pad)
  {
    hide ScanRuns, ValidLength, FirstChange;
    var error := ValidLength(groups, parents, pad).error;
    if error != PaddingNotTail {
      var n: nat :| PaddedAfter(groups, pad, n) && ScanRuns(groups[..n], parents[..n]) == Err(error);
      ScanErrorIsFirst(groups[..n], parents[..n]);
    }
  }

  lemma NothingKept(runs: seq<Run>, groups: seq<int>, parents: seq<int>)
    requires |groups| == |parents| && Tiles(runs, groups, parents) && EndOf(Kept(runs)) == 0
    ensures Kept(runs) == []
  {
    KeptTiles(runs, groups, parents);
  }

  lemma EndsAgree(segments: seq<Segment>)
    ensures TokensOf(segments) == EndOf(RunsOf(segments))
  {
    if segments != [] {
      assert RunsOf(segments)[|segments| - 1].end == segments[|segments| - 1].end;
    }
  }

  lemma RunsAvoidPad(runs: seq<Run>, groups: seq<int>, parents: seq<int>, pad: int)
    requires |groups| == |parents| && Tiles(runs, groups, parents)
    requires forall i :: 0 <= i < |groups| ==> groups[i] != pad
    ensures forall k :: 0 <= k < |runs| ==> runs[k].groupId != pad
  {
    forall k | 0 <= k < |runs|
      ensures runs[k].groupId != pad
    {
      TileAt(runs, groups, parents, k);
      assert groups[runs[k].start] != pad;
    }
  }

  lemma ExplainedRejects(error: ParseError, groups: seq<int>, parents: seq<int>, pad: int)
    requires Explains(error, groups, parents, pad)
    ensures forall row :: !Parses(groups, parents, pad, row)
  {
    forall row ensures !Parses(groups, parents, pad, row) {
      ExplainedHasNoParse(error, groups, parents, pad, row);
    }
  }

  /** Scanning a row cut at the start of its last run gives the other runs back. */
  lemma CutTiles(groups: seq<int>, parents: seq<int>, pad: int, n: nat, tiles: seq<Run>)
    requires |groups| == |parents| && PaddedAfter(groups, pad, n) && Tiles(tiles, groups[..n], parents[..n])
    ensures EndOf(Kept(tiles)) <= n
    ensures Tiles(Kept(tiles), groups[..EndOf(Kept(tiles))], parents[..EndOf(Kept(tiles))])
  {
    var v := EndOf(Kept(tiles));
    KeptTiles(tiles, groups[..n], parents[..n]);
    assert groups[..n][..v] == groups[..v] && parents[..n][..v] == parents[..v];
  }

  lemma RescanSucceeds(groups: seq<int>, parents: seq<int>, tiles: seq<Run>)
    requires |groups| == |parents| && Tiles(tiles, groups, parents)
    ensures ScanRuns(groups, parents) == Ok(tiles)
  {
    match ScanRuns(groups, parents)
    case Ok(runs) => TilesUnique(runs, tiles, groups, parents);
    case Err(e) => InconsistentHasNoTiling(groups, parents, e.groupId, e.start, e.end, tiles);
  }
}
