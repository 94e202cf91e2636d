/** What the prefix-tree parser means: printing is its inverse on every forest, every accepted
  * input is a printed forest plus padding, and `ancestors` and `familyIndex` are the closure of
  * the parent relation.
  */
module PrefixForest {
  import opened PrefixTree

  // ---------- Printing ----------

  ghost function Repeat(x: int, n: nat): (s: seq<int>)
    ensures |s| == n && forall i :: 0 <= i < n ==> s[i] == x
  {
    seq(n, _ => x)
  }

  ghost function PrintGroups(segments: seq<Segment>): seq<int>
    requires forall k :: 0 <= k < |segments| ==> segments[k].start <= segments[k].end
  {
    if segments == [] then
      []
    else
      var last := segments[|segments| - 1];
      PrintGroups(segments[..|segments| - 1]) + Repeat(last.groupId, last.end - last.start)
  }

  ghost function PrintParents(segments: seq<Segment>): seq<int>
    requires forall k :: 0 <= k < |segments| ==> segments[k].start <= segments[k].end
  {
    if segments == [] then
      []
    else
      var last := segments[|segments| - 1];
      PrintParents(segments[..|segments| - 1]) + Repeat(last.parentId, last.end - last.start)
  }

  lemma SegmentsAreNonempty(segments: seq<Segment>, pad: int)
    requires IsForest(segments, pad)
    ensures forall k :: 0 <= k < |segments| ==> segments[k].start < segments[k].end && segments[k].groupId != pad
  {
    forall k | 0 <= k < |segments|
      ensures segments[k].start < segments[k].end && segments[k].groupId != pad
    {
      ForestStep(segments, pad, k);
    }
  }

  lemma {:induction false} PrintTiles(segments: seq<Segment>, pad: int)
    requires IsForest(segments, pad)
    ensures forall k :: 0 <= k < |segments| ==> segments[k].start < segments[k].end
    ensures |PrintGroups(segments)| == |PrintParents(segments)| == TokensOf(segments)
    ensures Tiles(RunsOf(segments), PrintGroups(segments), PrintParents(segments))
    ensures forall i :: 0 <= i < TokensOf(segments) ==> PrintGroups(segments)[i] != pad
    decreases |segments|
  {
    SegmentsAreNonempty(segments, pad);
    if segments == [] {
    } else {
      var n := |segments| - 1;
      var init, last := segments[..n], segments[n];
      PrintTiles(init, pad);
      var runs := RunsOf(segments);
      assert runs[..n] == RunsOf(init);
      assert PrintGroups(segments)[..last.start] == PrintGroups(init);
      assert PrintParents(segments)[..last.start] == PrintParents(init);
      assert n > 0 ==> RunsOf(init)[n - 1].groupId == init[n - 1].groupId;
    }
  }

  /** A row that ends in a run is what is before it and that run. */
  lemma EndsInRepeat(s: seq<int>, front: seq<int>, x: int, n: nat)
    requires n <= |s| && front == s[..|s| - n] && forall i :: |s| - n <= i < |s| ==> s[i] == x
    ensures s == front + Repeat(x, n)
  {
  }

  lemma LastTileEnds(runs: seq<Run>, groups: seq<int>, parents: seq<int>)
    requires |groups| == |parents| && runs != [] && Tiles(runs, groups, parents)
    ensures var last := runs[|runs| - 1];
      && last.start < last.end == |groups|
      && Tiles(runs[..|runs| - 1], groups[..last.start], parents[..last.start])
      && forall i :: last.start <= i < |groups| ==> groups[i] == last.groupId && parents[i] == last.parentId
  {
  }

  lemma PrintStep(segments: seq<Segment>)
    requires segments != [] && forall k :: 0 <= k < |segments| ==> segments[k].start <= segments[k].end
    ensures var init, last := segments[..|segments| - 1], segments[|segments| - 1];
      && PrintGroups(segments) == PrintGroups(init) + Repeat(last.groupId, last.end - last.start)
      && PrintParents(segments) == PrintParents(init) + Repeat(last.parentId, last.end - last.start)
  {
  }

  /** The rows are printed when what is before their last run is. */
  lemma PrintsOneMore(segments: seq<Segment>, groups: seq<int>, parents: seq<int>, v: nat)
    requires segments != [] && |groups| == |parents| && v == segments[|segments| - 1].start
    requires v < segments[|segments| - 1].end == |groups|
    requires forall k :: 0 <= k < |segments| ==> segments[k].start <= segments[k].end
    requires groups[..v] == PrintGroups(segments[..|segments| - 1])
    requires parents[..v] == PrintParents(segments[..|segments| - 1])
    requires forall i :: v <= i < |groups| ==> groups[i] == segments[|segments| - 1].groupId
    requires forall i :: v <= i < |parents| ==> parents[i] == segments[|segments| - 1].parentId
    ensures groups == PrintGroups(segments) && parents == PrintParents(segments)
  {
    hide Repeat, PrintGroups, PrintParents;
    var last, n := segments[|segments| - 1], |groups| - v;
    EndsInRepeat(groups, groups[..v], last.groupId, n);
    EndsInRepeat(parents, parents[..v], last.parentId, n);
    PrintStep(segments);
  }

  lemma NothingPrinted(groups: seq<int>, parents: seq<int>)
    requires |groups| == |parents| && Tiles(RunsOf([]), groups, parents)
    ensures groups == PrintGroups([]) && parents == PrintParents([])
  {
  }

  lemma {:induction false} TilesPrint(segments: seq<Segment>, groups: seq<int>, parents: seq<int>)
    requires |groups| == |parents| && Tiles(RunsOf(segments), groups, parents)
    ensures forall k :: 0 <= k < |segments| ==> segments[k].start < segments[k].end
    ensures groups == PrintGroups(segments) && parents == PrintParents(segments)
    decreases |segments|
  {
    hide Tiles, PrintGroups, PrintParents, Repeat;
    if segments == [] {
      NothingPrinted(groups, parents);
    } else {
      var runs, n := RunsOf(segments), |segments| - 1;
      assert runs[..n] == RunsOf(segments[..n]);
      LastTileEnds(runs, groups, parents);
      TilesPrint(segments[..n], groups[..runs[n].start], parents[..runs[n].start]);
      forall k | 0 <= k < |segments|
        ensures segments[k].start < segments[k].end
      {
        assert k < n ==> segments[..n][k] == segments[k];
      }
      PrintsOneMore(segments, groups, parents, runs[n].start);
    }
  }

  /** The rows are a printed forest, then at most one run that repeats the (group, negative parent)
    * pair of an earlier segment other than the last, then padding with any parents.
    */
  ghost predicate IsPrintOf(
    segments: seq<Segment>, again: nat, k: nat, tail: seq<int>,
    groups: seq<int>, parents: seq<int>, pad: int)
    requires forall k :: 0 <= k < |segments| ==> segments[k].start <= segments[k].end
  {
    && (again > 0 ==> k + 1 < |segments| && segments[k].parentId < 0)
    && groups == PrintGroups(segments)
                 + (if again > 0 then Repeat(segments[k].groupId, again) else [])
                 + Repeat(pad, |tail|)
    && parents == PrintParents(segments)
                  + (if again > 0 then Repeat(segments[k].parentId, again) else [])
                  + tail
  }

  lemma NoTerminalRepeat(segments: seq<Segment>, pad: int)
    requires IsForest(segments, pad)
    ensures !TerminalRepeat(RunsOf(segments))
  {
    forall k | 0 <= k < |segments| - 1
      ensures RunsOf(segments)[k].groupId != RunsOf(segments)[|segments| - 1].groupId
    {
      DistinctGroups(segments, pad, k, |segments| - 1);
    }
  }

  /** One more run after a tiling, of another group than the last. */
  lemma TilesExtend(runs: seq<Run>, last: Run, groups: seq<int>, parents: seq<int>, longer: seq<int>, more: seq<int>)
    requires |groups| == |parents| == last.start < last.end && Tiles(runs, groups, parents)
    requires longer == groups + Repeat(last.groupId, last.end - last.start)
    requires more == parents + Repeat(last.parentId, last.end - last.start)
    requires runs != [] ==> runs[|runs| - 1].groupId != last.groupId
    ensures Tiles(runs + [last], longer, more)
  {
    assert (runs + [last])[..|runs|] == runs;
    assert longer[..last.start] == groups && more[..last.start] == parents;
  }

  lemma TakesFirst(a: seq<int>, b: seq<int>, c: seq<int>)
    ensures (a + b + c)[..|a| + |b|] == a + b
  {
  }

  lemma PrintIsPadded(printed: seq<int>, groups: seq<int>, pad: int, n: nat)
    requires groups == printed + Repeat(pad, n) && pad !in printed
    ensures PaddedAfter(groups, pad, |printed|)
  {
    forall i | 0 <= i < |printed|
      ensures groups[i] != pad
    {
      assert groups[i] == printed[i];
    }
  }

  lemma RepeatIsTerminal(segments: seq<Segment>, k: nat, extra: Run, pad: int)
    requires k + 1 < |segments| && extra.groupId == segments[k].groupId
    requires extra.parentId == segments[k].parentId < 0
    ensures Kept(RunsOf(segments) + [extra]) == RunsOf(segments)
  {
    var runs := RunsOf(segments) + [extra];
    assert runs[k].groupId == extra.groupId && runs[k].parentId == extra.parentId;
    assert TerminalRepeat(runs);
    assert runs[..|segments|] == RunsOf(segments);
  }

  lemma Described(segments: seq<Segment>, runs: seq<Run>, n: nat, groups: seq<int>, parents: seq<int>, pad: int,
                  rowIndex: int)
    requires IsForest(segments, pad) && |groups| == |parents| && PaddedAfter(groups, pad, n)
    requires Tiles(runs, groups[..n], parents[..n]) && Kept(runs) == RunsOf(segments)
    ensures Parses(groups, parents, pad, Row(rowIndex, TokensOf(segments), segments))
  {
    hide Tiles, IsForest, Kept;
  }

  /** A forest printed up to the padding. */
  lemma ParseOfPlainPrint(segments: seq<Segment>, n: nat, groups: seq<int>, parents: seq<int>, pad: int, rowIndex: int)
    requires IsForest(segments, pad) && n <= |groups| == |parents| && PaddedAfter(groups, pad, n)
    requires forall k :: 0 <= k < |segments| ==> segments[k].start <= segments[k].end
    requires groups[..n] == PrintGroups(segments) && parents[..n] == PrintParents(segments)
    ensures Parses(groups, parents, pad, Row(rowIndex, TokensOf(segments), segments))
  {
    hide PrintGroups, PrintParents, Tiles, IsForest, TerminalRepeat, PaddedAfter, Parses;
    PrintTiles(segments, pad);
    NoTerminalRepeat(segments, pad);
    Described(segments, RunsOf(segments), n, groups, parents, pad, rowIndex);
  }

  /** A forest printed up to one more run, which repeats a segment, and the padding. */
  lemma ParseOfRepeatedPrint(segments: seq<Segment>, again: nat, k: nat, n: nat,
                             groups: seq<int>, parents: seq<int>, pad: int, rowIndex: int)
    requires IsForest(segments, pad) && n <= |groups| == |parents| && PaddedAfter(groups, pad, n)
    requires again > 0 && k + 1 < |segments| && segments[k].parentId < 0
    requires forall k :: 0 <= k < |segments| ==> segments[k].start <= segments[k].end
    requires groups[..n] == PrintGroups(segments) + Repeat(segments[k].groupId, again)
    requires parents[..n] == PrintParents(segments) + Repeat(segments[k].parentId, again)
    ensures Parses(groups, parents, pad, Row(rowIndex, TokensOf(segments), segments))
  {
    hide PrintGroups, PrintParents, Tiles, IsForest, TerminalRepeat, Kept, PaddedAfter, Parses;
    PrintTiles(segments, pad);
    var extra := Run(TokensOf(segments), n, segments[k].groupId, segments[k].parentId);
    DistinctGroups(segments, pad, k, |segments| - 1);
    TilesExtend(RunsOf(segments), extra, PrintGroups(segments), PrintParents(segments), groups[..n], parents[..n]);
    RepeatIsTerminal(segments, k, extra, pad);
    Described(segments, RunsOf(segments) + [extra], n, groups, parents, pad, rowIndex);
  }

  /** Print, then parse: every forest comes back, whatever was appended as padding. */
  lemma ParseOfPrint(
    segments: seq<Segment>, again: nat, k: nat, tail: seq<int>,
    groups: seq<int>, parents: seq<int>, pad: int, rowIndex: int)
    requires IsForest(segments, pad)
    requires forall k :: 0 <= k < |segments| ==> segments[k].start <= segments[k].end
    requires IsPrintOf(segments, again, k, tail, groups, parents, pad)
    ensures Parses(groups, parents, pad, Row(rowIndex, TokensOf(segments), segments))
  {
    hide PrintGroups, PrintParents, IsForest, Parses, Tiles, PaddedAfter, Repeat;
    var n := TokensOf(segments) + again;
    PrintTiles(segments, pad);
    SegmentsAreNonempty(segments, pad);
    var ofGroup := if again > 0 then Repeat(segments[k].groupId, again) else [];
    var ofParent := if again > 0 then Repeat(segments[k].parentId, again) else [];
    TakesFirst(PrintGroups(segments), ofGroup, Repeat(pad, |tail|));
    TakesFirst(PrintParents(segments), ofParent, tail);
    PrintIsPadded(PrintGroups(segments) + ofGroup, groups, pad, |tail|);
    if again == 0 {
      assert PrintGroups(segments) + [] == PrintGroups(segments);
      assert PrintParents(segments) + [] == PrintParents(segments);
      ParseOfPlainPrint(segments, n, groups, parents, pad, rowIndex);
    } else {
      ParseOfRepeatedPrint(segments, again, k, n, groups, parents, pad, rowIndex);
    }
  }

  lemma Split3(s: seq<int>, i: nat, j: nat)
    requires i <= j <= |s|
    ensures s == s[..i] + s[i..j] + s[j..]
  {
  }

  /** The run cut as terminal padding repeats segment `k`. */
  lemma CutRunRepeats(segments: seq<Segment>, runs: seq<Run>, groups: seq<int>, parents: seq<int>) returns (k: nat)
    requires |groups| == |parents| && Tiles(runs, groups, parents)
    requires TerminalRepeat(runs) && RunsOf(segments) == Kept(runs)
    ensures TokensOf(segments) < |groups|
    ensures k + 1 < |segments| && segments[k].parentId < 0
    ensures groups[TokensOf(segments)..] == Repeat(segments[k].groupId, |groups| - TokensOf(segments))
    ensures parents[TokensOf(segments)..] == Repeat(segments[k].parentId, |groups| - TokensOf(segments))
  {
    var n := |runs| - 1;
    var last := runs[n];
    k :| 0 <= k < n && runs[k].groupId == last.groupId && runs[k].parentId == last.parentId;
    assert RunsOf(segments)[k] == runs[k];
    TileAt(runs, groups, parents, n);
    TileAt(runs, groups, parents, k);
    EndsAgree(segments);
  }

  /** Parse, then print: nothing but padding is lost. */
  lemma PrintOfParse(groups: seq<int>, parents: seq<int>, pad: int, row: Row)
    returns (again: nat, k: nat, tail: seq<int>)
    requires Parses(groups, parents, pad, row)
    ensures forall k :: 0 <= k < |row.segments| ==> row.segments[k].start < row.segments[k].end
    ensures IsPrintOf(row.segments, again, k, tail, groups, parents, pad)
  {
    hide IsForest, Tiles, Repeat, PrintGroups, PrintParents, TerminalRepeat, TokensOf;
    var segments := row.segments;
    var n: nat, runs: seq<Run> :|
      PaddedAfter(groups, pad, n) && Tiles(runs, groups[..n], parents[..n]) && RunsOf(segments) == Kept(runs);
    PrintedPart(groups, parents, pad, n, runs, segments);
    tail, again, k := parents[n..], n - TokensOf(segments), 0;
    if TerminalRepeat(runs) {
      k := CutRunRepeats(segments, runs, groups[..n], parents[..n]);
      var v := TokensOf(segments);
      assert groups[..n][v..] == groups[v..n] && parents[..n][v..] == parents[v..n];
    } else {
      EndsAgree(segments);
      EndOfTiles(runs, groups[..n], parents[..n]);
      assert groups[n..n] == [] && parents[n..n] == [];
    }
  }

  lemma PrintedPart(groups: seq<int>, parents: seq<int>, pad: int, n: nat, runs: seq<Run>, segments: seq<Segment>)
    requires |groups| == |parents| && PaddedAfter(groups, pad, n)
    requires Tiles(runs, groups[..n], parents[..n]) && RunsOf(segments) == Kept(runs)
    ensures TokensOf(segments) <= n
    ensures forall k :: 0 <= k < |segments| ==> segments[k].start < segments[k].end
    ensures groups == PrintGroups(segments) + groups[TokensOf(segments)..n] + Repeat(pad, |groups| - n)
    ensures parents == PrintParents(segments) + parents[TokensOf(segments)..n] + parents[n..]
  {
    CutTiles(groups, parents, pad, n, runs);
    EndsAgree(segments);
    var v := TokensOf(segments);
    TilesPrint(segments, groups[..v], parents[..v]);
    Split3(groups, v, n);
    Split3(parents, v, n);
    assert groups[n..] == Repeat(pad, |groups| - n);
  }

  lemma EndOfTiles(runs: seq<Run>, groups: seq<int>, parents: seq<int>)
    requires |groups| == |parents| && Tiles(runs, groups, parents)
    ensures EndOf(runs) == |groups|
  {
  }

  ghost predicate IsPaddedPrint(segments: seq<Segment>, groups: seq<int>, parents: seq<int>, pad: int)
    requires forall k :: 0 <= k < |segments| ==> segments[k].start <= segments[k].end
  {
    exists again: nat, k: nat, tail :: IsPrintOf(segments, again, k, tail, groups, parents, pad)
  }

  /** The parser accepts exactly the padded prints of forests, and returns the forest. */
  lemma ParsesIffPrinted(groups: seq<int>, parents: seq<int>, pad: int, row: Row)
    ensures Parses(groups, parents, pad, row) <==>
            && IsForest(row.segments, pad)
            && row.validTokens == TokensOf(row.segments)
            && (forall k :: 0 <= k < |row.segments| ==> row.segments[k].start <= row.segments[k].end)
            && IsPaddedPrint(row.segments, groups, parents, pad)
  {
    if Parses(groups, parents, pad, row) {
      var again, k, tail := PrintOfParse(groups, parents, pad, row);
    }
    if && IsForest(row.segments, pad)
       && row.validTokens == TokensOf(row.segments)
       && (forall k :: 0 <= k < |row.segments| ==> row.segments[k].start <= row.segments[k].end)
       && IsPaddedPrint(row.segments, groups, parents, pad)
    {
      var again: nat, k: nat, tail :| IsPrintOf(row.segments, again, k, tail, groups, parents, pad);
      ParseOfPrint(row.segments, again, k, tail, groups, parents, pad, row.rowIndex);
    }
  }

  // ---------- Ancestry ----------

  ghost predicate IsParentIndex(segments: seq<Segment>, k: nat, j: nat)
    requires k < |segments|
  {
    j < k && segments[j].groupId == segments[k].parentId
  }

  /** The segment that `parentId` names. */
  ghost function ParentOf(segments: seq<Segment>, pad: int, k: nat): (j: nat)
    requires IsForest(segments, pad) && k < |segments| && !IsRootSegment(segments[k], pad)
    ensures IsParentIndex(segments, k, j) && segments[j].end <= segments[k].start
    ensures forall i: nat :: IsParentIndex(segments, k, i) ==> i == j
    ensures IsChildOf(segments[k], segments[j])
  {
    ForestStep(segments, pad, k);
    var j :| 0 <= j < k && IsChildOf(segments[k], segments[..k][j]);
    assert IsParentIndex(segments, k, j);
    assert forall i: nat :: IsParentIndex(segments, k, i) ==> i == j by {
      forall i: nat | IsParentIndex(segments, k, i)
        ensures i == j
      {
        DistinctGroups(segments, pad, i, j);
      }
    }
    EarlierEndsFirst(segments, pad, j, k);
    j
  }

  lemma {:induction false} EarlierEndsFirst(segments: seq<Segment>, pad: int, j: nat, k: nat)
    requires IsForest(segments, pad) && j < k < |segments|
    ensures segments[j].end <= segments[k].start
    decreases k
  {
    ForestStep(segments, pad, k);
    assert segments[..k][k - 1] == segments[k - 1];
    if j < k - 1 {
      EarlierEndsFirst(segments, pad, j, k - 1);
      ForestStep(segments, pad, k - 1);
    }
  }

  /** The path of segments from the root of `k` to `k`, by the parent relation alone. */
  ghost function PathTo(segments: seq<Segment>, pad: int, k: nat): (path: seq<nat>)
    requires IsForest(segments, pad) && k < |segments|
    ensures path != [] && path[|path| - 1] == k
    ensures forall i :: 0 <= i < |path| ==> path[i] <= k
    decreases k
  {
    if IsRootSegment(segments[k], pad) then [k] else PathTo(segments, pad, ParentOf(segments, pad, k)) + [k]
  }

  ghost function RootOf(segments: seq<Segment>, pad: int, k: nat): nat
    requires IsForest(segments, pad) && k < |segments|
  {
    PathTo(segments, pad, k)[0]
  }

  /** `ancestors` is the root-to-parent path, in order and without repeats. */
  lemma {:induction false} AncestorsAreThePath(segments: seq<Segment>, pad: int, k: nat)
    requires IsForest(segments, pad) && k < |segments|
    ensures var path, ancestors := PathTo(segments, pad, k), segments[k].ancestors;
            && |ancestors| == |path| - 1
            && (forall i :: 0 <= i < |ancestors| ==> ancestors[i] == segments[path[i]].groupId)
            && (forall i :: 0 <= i < |ancestors| ==> path[i] < path[i + 1])
            && (forall i, j :: 0 <= i < j < |ancestors| ==> ancestors[i] != ancestors[j])
            && (forall i :: 0 <= i < |ancestors| ==> ancestors[i] != segments[k].groupId)
            && IsRootSegment(segments[path[0]], pad)
    decreases k
  {
    hide IsForest, Extends;
    ForestStep(segments, pad, k);
    if IsRootSegment(segments[k], pad) {
      RootHasNoAncestors(segments, pad, k);
    } else {
      var j := ParentOf(segments, pad, k);
      var path, before := PathTo(segments, pad, k), PathTo(segments, pad, j);
      AncestorsAreThePath(segments, pad, j);
      assert path == before + [k];
      assert forall i :: 0 <= i < |before| ==> path[i] == before[i];
      var ancestors := segments[k].ancestors;
      forall i | 0 <= i < |before|
        ensures segments[before[i]].groupId != segments[k].groupId
        ensures ancestors[i] == segments[before[i]].groupId
      {
        DistinctGroups(segments, pad, before[i], k);
      }
    }
  }

  lemma RootHasNoAncestors(segments: seq<Segment>, pad: int, k: nat)
    requires IsForest(segments, pad) && k < |segments| && IsRootSegment(segments[k], pad)
    ensures segments[k].ancestors == []
  {
    ForestStep(segments, pad, k);
  }

  lemma {:induction false} RootCountMonotone(segments: seq<Segment>, pad: int, i: nat, j: nat)
    requires i <= j <= |segments|
    ensures RootCount(segments[..i], pad) <= RootCount(segments[..j], pad)
    ensures i < j && IsRootSegment(segments[i], pad) ==> RootCount(segments[..i], pad) < RootCount(segments[..j], pad)
    decreases j
  {
    if i < j {
      assert segments[..j][..j - 1] == segments[..j - 1];
      RootCountMonotone(segments, pad, i, j - 1);
    }
  }

  /** A family is numbered by how many roots come before its own. */
  lemma {:induction false} FamilyCountsRoots(segments: seq<Segment>, pad: int, k: nat)
    requires IsForest(segments, pad) && k < |segments|
    ensures var root := RootOf(segments, pad, k);
            root <= k && segments[k].familyIndex == RootCount(segments[..root], pad)
    decreases k
  {
    ForestStep(segments, pad, k);
    if !IsRootSegment(segments[k], pad) {
      var j := ParentOf(segments, pad, k);
      FamilyCountsRoots(segments, pad, j);
      assert PathTo(segments, pad, k)[0] == PathTo(segments, pad, j)[0];
    }
  }

  /** Two segments share a family exactly when they share a root. */
  lemma SameFamilyIffSameRoot(segments: seq<Segment>, pad: int, i: nat, j: nat)
    requires IsForest(segments, pad) && i < |segments| && j < |segments|
    ensures segments[i].familyIndex == segments[j].familyIndex <==>
            RootOf(segments, pad, i) == RootOf(segments, pad, j)
  {
    var r, q := RootOf(segments, pad, i), RootOf(segments, pad, j);
    FamilyCountsRoots(segments, pad, i);
    FamilyCountsRoots(segments, pad, j);
    AncestorsAreThePath(segments, pad, i);
    AncestorsAreThePath(segments, pad, j);
    if r < q {
      RootCountMonotone(segments, pad, r, q);
    } else if q < r {
      RootCountMonotone(segments, pad, q, r);
    }
  }

  // ---------- Forests and accepted rows, spelled out ----------

  /** What segment `k` is after those before it. A root names itself as its parent, or is the first and names the
    * padding; it begins a family, numbered by the roots before it. Any other segment has an earlier one of its
    * parent's group, and goes on with that one's family and ancestors.
    */
  ghost predicate Stands(segments: seq<Segment>, pad: int, k: nat)
    requires k < |segments|
  {
    var s := segments[k];
    && s.start == (if k == 0 then 0 else segments[k - 1].end)
    && s.start < s.end
    && s.groupId != pad
    && (forall j :: 0 <= j < k ==> segments[j].groupId != s.groupId)
    && if s.groupId == s.parentId || (k == 0 && s.parentId == pad) then
         s.ancestors == [] && s.familyIndex == |Roots(segments, k)|
       else
         exists j :: 0 <= j < k
           && segments[j].groupId == s.parentId
           && s.familyIndex == segments[j].familyIndex
           && s.ancestors == segments[j].ancestors + [s.parentId]
  }

  /** The segments among the first `k` that have no ancestors. */
  ghost function Roots(segments: seq<Segment>, k: int): set<int>
    requires k <= |segments|
  {
    set j | 0 <= j < k && segments[j].ancestors == []
  }

  lemma RootWithinForest(segments: seq<Segment>, pad: int, k: nat)
    requires IsForest(segments, pad) && k < |segments|
    ensures IsRootSegment(segments[k], pad) <==>
      segments[k].groupId == segments[k].parentId || (k == 0 && segments[k].parentId == pad)
    ensures segments[k].ancestors == [] <==> IsRootSegment(segments[k], pad)
  {
    ForestStep(segments, pad, k);
    if k > 0 {
      ForestStep(segments, pad, k - 1);
      assert segments[..k][k - 1] == segments[k - 1];
    }
  }

  lemma RootsGrow(segments: seq<Segment>, k: nat)
    requires 0 < k <= |segments|
    ensures |Roots(segments, k)| == |Roots(segments, k - 1)| + if segments[k - 1].ancestors == [] then 1 else 0
  {
    assert Roots(segments, k) == Roots(segments, k - 1) + if segments[k - 1].ancestors == [] then {k - 1} else {};
  }

  lemma RootCountGrows(segments: seq<Segment>, pad: int, k: nat)
    requires 0 < k <= |segments|
    ensures RootCount(segments[..k], pad)
         == RootCount(segments[..k - 1], pad) + if IsRootSegment(segments[k - 1], pad) then 1 else 0
  {
    hide IsRootSegment;
    assert segments[..k][..k - 1] == segments[..k - 1];
  }

  lemma {:induction false} RootsAreCounted(segments: seq<Segment>, pad: int, k: nat)
    requires IsForest(segments, pad) && k <= |segments|
    ensures RootCount(segments[..k], pad) == |Roots(segments, k)|
    decreases k
  {
    hide IsForest, IsRootSegment;
    if k == 0 {
      assert Roots(segments, 0) == {};
    } else {
      hide RootCount, Roots;
      RootsAreCounted(segments, pad, k - 1);
      RootWithinForest(segments, pad, k - 1);
      RootCountGrows(segments, pad, k);
      RootsGrow(segments, k);
    }
  }

  /** In a forest every segment stands. */
  lemma ForestStands(segments: seq<Segment>, pad: int, k: nat)
    requires IsForest(segments, pad) && k < |segments|
    ensures Stands(segments, pad, k)
  {
    hide IsForest, IsRootSegment, Roots, RootCount;
    ForestStep(segments, pad, k);
    RootWithinForest(segments, pad, k);
    RootsAreCounted(segments, pad, k);
    assert forall j :: 0 <= j < k ==> segments[..k][j] == segments[j];
  }

  lemma RootFollows(before: seq<Segment>, s: Segment, pad: int)
    requires IsForest(before, pad) && s.start == TokensOf(before)
    ensures IsRootSegment(s, pad) <==> s.groupId == s.parentId || (before == [] && s.parentId == pad)
  {
    if before != [] {
      ForestStep(before, pad, |before| - 1);
    }
  }

  /** A forest, spelled out. */
  lemma {:induction false} ForestIff(segments: seq<Segment>, pad: int)
    ensures IsForest(segments, pad) <==> forall k: nat :: k < |segments| ==> Stands(segments, pad, k)
  {
    hide IsRootSegment, RootCount, Roots, Stands;
    if segments == [] {
    } else {
      var n := |segments| - 1;
      var init, last := segments[..n], segments[n];
      ForestIff(init, pad);
      forall k: nat | k < n
        ensures Stands(segments, pad, k) == Stands(init, pad, k)
      {
        StandsAlone(segments, init, pad, k);
      }
      if IsForest(init, pad) && Stands(segments, pad, n) {
        LastStands(segments, pad);
      }
      if IsForest(segments, pad) {
        forall k: nat | k < |segments|
          ensures Stands(segments, pad, k)
        {
          ForestStands(segments, pad, k);
        }
      }
    }
  }

  lemma StandsAlone(segments: seq<Segment>, init: seq<Segment>, pad: int, k: nat)
    requires init <= segments && k < |init|
    ensures Stands(segments, pad, k) == Stands(init, pad, k)
  {
    assert forall j :: 0 <= j < |init| ==> init[j] == segments[j];
    assert Roots(segments, k) == Roots(init, k);
  }

  lemma LastStands(segments: seq<Segment>, pad: int)
    requires segments != [] && IsForest(segments[..|segments| - 1], pad)
    requires Stands(segments, pad, |segments| - 1)
    ensures IsForest(segments, pad)
  {
    hide IsRootSegment, RootCount, Roots;
    var n := |segments| - 1;
    var init, last := segments[..n], segments[n];
    RootFollows(init, last, pad);
    RootsAreCounted(init, pad, n);
    assert init[..n] == init && Roots(segments, n) == Roots(init, n) by { SameRoots(segments, init); }
    assert forall j :: 0 <= j < n ==> init[j] == segments[j];
  }

  lemma SameRoots(segments: seq<Segment>, init: seq<Segment>)
    requires init <= segments
    ensures Roots(segments, |init|) == Roots(init, |init|)
  {
  }

  /** No group has two of these runs, and each run names itself, or is the first and names the padding, or names a
    * group with an earlier run.
    */
  ghost predicate MakesForest(runs: seq<Run>, pad: int) {
    && (forall j, k :: 0 <= j < k < |runs| ==> runs[j].groupId != runs[k].groupId)
    && forall k :: 0 <= k < |runs| ==>
         || runs[k].groupId == runs[k].parentId
         || (k == 0 && runs[k].parentId == pad)
         || exists j :: 0 <= j < k && runs[j].groupId == runs[k].parentId
  }

  /** The segments of such runs. */
  lemma {:induction false} ForestOf(runs: seq<Run>, pad: int) returns (segments: seq<Segment>)
    requires Orderly(runs, pad) && MakesForest(runs, pad)
    ensures RunsOf(segments) == runs && IsForest(segments, pad)
    decreases |runs|
  {
    hide Orderly, MakesForest, IsForest, Extends, RunsOf;
    if runs == [] {
      segments := [];
      NoSegments(pad);
    } else {
      var n := |runs| - 1;
      InitIsOrderly(runs, pad);
      var init := ForestOf(runs[..n], pad);
      assert |init| == |RunsOf(init)| == n;
      var s := NextSegment(runs, pad, init);
      ForestGrows(init, s, pad);
      RunsGrow(init, s, runs);
      segments := init + [s];
      assert runs[..n + 1] == runs;
    }
  }

  lemma NoSegments(pad: int)
    ensures RunsOf([]) == [] && IsForest([], pad)
  {
  }

  lemma NextSegment(runs: seq<Run>, pad: int, init: seq<Segment>) returns (s: Segment)
    requires Orderly(runs, pad) && MakesForest(runs, pad) && IsForest(init, pad)
    requires |init| < |runs| && RunsOf(init) == runs[..|init|]
    ensures Extends(init, s, pad)
    ensures runs[|init|] == Run(s.start, s.end, s.groupId, s.parentId)
  {
    hide Orderly, IsForest;
    var n := |init|;
    var run := runs[n];
    assert forall j :: 0 <= j < n ==> RunsOf(init)[j] == runs[j];
    RunMayFollow(runs, pad, init);
    s := Segment(run.groupId, run.parentId, run.start, run.end, RootCount(init, pad), []);
    RootFollows(init, s, pad);
    if !IsRootSegment(s, pad) {
      var j :| 0 <= j < n && runs[j].groupId == run.parentId;
      s := s.(familyIndex := init[j].familyIndex, ancestors := init[j].ancestors + [run.parentId]);
      assert IsChildOf(s, init[j]);
    }
  }

  lemma InitIsOrderly(runs: seq<Run>, pad: int)
    requires runs != [] && Orderly(runs, pad) && MakesForest(runs, pad)
    ensures Orderly(runs[..|runs| - 1], pad) && MakesForest(runs[..|runs| - 1], pad)
  {
    var init := runs[..|runs| - 1];
    forall k | 0 <= k < |init|
      ensures OrderlyAt(init, pad, k)
    {
      assert OrderlyAt(runs, pad, k);
      assert init[..k] == runs[..k];
    }
  }

  lemma DistinctTilesAreOrderly(runs: seq<Run>, groups: seq<int>, parents: seq<int>, pad: int)
    requires |groups| == |parents| && Tiles(runs, groups, parents) && pad !in groups
    requires MakesForest(runs, pad)
    ensures Orderly(runs, pad)
  {
    RunsAvoidPad(runs, groups, parents, pad);
    forall k | 0 <= k < |runs|
      ensures OrderlyAt(runs, pad, k)
    {
      TileAt(runs, groups, parents, k);
    }
  }

  lemma RunsMakeForest(segments: seq<Segment>, pad: int)
    requires IsForest(segments, pad)
    ensures MakesForest(RunsOf(segments), pad)
  {
    hide IsForest;
    var runs := RunsOf(segments);
    forall j, k | 0 <= j < k < |runs|
      ensures runs[j].groupId != runs[k].groupId
    {
      DistinctGroups(segments, pad, j, k);
    }
    forall k | 0 <= k < |runs| && runs[k].groupId != runs[k].parentId && !(k == 0 && runs[k].parentId == pad)
      ensures exists j :: 0 <= j < k && runs[j].groupId == runs[k].parentId
    {
      ForestStands(segments, pad, k);
      var j :| 0 <= j < k && segments[j].groupId == segments[k].parentId;
      assert runs[j].groupId == runs[k].parentId;
    }
  }

  /** Which rows are accepted, by their runs alone. */
  lemma AcceptedIff(groups: seq<int>, parents: seq<int>, pad: int, n: nat, runs: seq<Run>)
    requires |groups| == |parents| && PaddedAfter(groups, pad, n) && Tiles(runs, groups[..n], parents[..n])
    ensures (exists row :: Parses(groups, parents, pad, row)) <==> MakesForest(Kept(runs), pad)
  {
    hide Tiles, IsForest, Kept, MakesForest;
    if row :| Parses(groups, parents, pad, row) {
      var m: nat, tiles :|
        PaddedAfter(groups, pad, m) && Tiles(tiles, groups[..m], parents[..m]) && RunsOf(row.segments) == Kept(tiles);
      PaddingUnique(groups, pad, n, m);
      TilesUnique(runs, tiles, groups[..n], parents[..n]);
      RunsMakeForest(row.segments, pad);
    }
    if MakesForest(Kept(runs), pad) {
      var v := EndOf(Kept(runs));
      CutTiles(groups, parents, pad, n, runs);
      DistinctTilesAreOrderly(Kept(runs), groups[..v], parents[..v], pad);
      var segments := ForestOf(Kept(runs), pad);
      assert Parses(groups, parents, pad, Row(0, TokensOf(segments), segments));
    }
  }

  /** Only a last run is ever dropped: one that names a negative parent, where an earlier run has its group and
    * its parent.
    */
  lemma KeptIff(runs: seq<Run>)
    ensures var last := |runs| - 1;
      Kept(runs) ==
        if last >= 1 && runs[last].parentId < 0
           && exists k :: 0 <= k < last
                && runs[k].groupId == runs[last].groupId && runs[k].parentId == runs[last].parentId
        then runs[..last]
        else runs
  {
  }

  /** What is returned for an accepted row has no ancestors exactly at its roots. */
  lemma RootsAreNamed(groups: seq<int>, parents: seq<int>, pad: int, row: Row, k: nat)
    requires Parses(groups, parents, pad, row) && k < |row.segments|
    ensures Stands(row.segments, pad, k)
    ensures row.segments[k].ancestors == [] <==>
      || row.segments[k].groupId == row.segments[k].parentId
      || (k == 0 && row.segments[k].parentId == pad)
  {
    RootWithinForest(row.segments, pad, k);
    ForestStands(row.segments, pad, k);
  }
}
