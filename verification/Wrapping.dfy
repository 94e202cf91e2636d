/** Greedy word wrapping, and why no other cutting into lines does with fewer. */
module Wrapping {

  type Line = seq<string>

  /** The width of the words of a line, joined by blanks. */
  type Width = Line -> int

  /** A line may be used when it fits, or when it cannot be cut. */
  predicate Allowed(line: Line, width: Width, maxWidth: int) {
    |line| == 1 || (line != [] && width(line) <= maxWidth)
  }

  function Flatten(lines: seq<Line>): seq<string> {
    if lines == [] then [] else lines[0] + Flatten(lines[1..])
  }

  /** The lines are the words in their order, cut into lines that may be used. */
  ghost predicate IsWrapping(words: seq<string>, lines: seq<Line>, width: Width, maxWidth: int) {
    Flatten(lines) == words && forall line :: line in lines ==> Allowed(line, width, maxWidth)
  }

  /** The width never shrinks when words are added, on either side. */
  ghost predicate Monotone(width: Width) {
    forall a: Line, line: Line, b: Line :: width(line) <= width(a + line + b)
  }

  // ---------- Greedy lines ----------

  /** The end of the line from `start` on, when it is known to reach `end`. */
  function EndFrom(words: seq<string>, width: Width, maxWidth: int, start: nat, end: nat): (r: nat)
    requires start < end <= |words|
    ensures end <= r <= |words|
    decreases |words| - end
  {
    if end < |words| && width(words[start..end + 1]) <= maxWidth
    then EndFrom(words, width, maxWidth, start, end + 1)
    else end
  }

  function GreedyLines(words: seq<string>, width: Width, maxWidth: int, start: nat): seq<Line>
    requires start <= |words|
    decreases |words| - start
  {
    if start == |words| then []
    else
      var end := EndFrom(words, width, maxWidth, start, start + 1);
      [words[start..end]] + GreedyLines(words, width, maxWidth, end)
  }

  /** What the source returns: no words make one empty line. */
  function Wrapped(words: seq<string>, width: Width, maxWidth: int): seq<Line> {
    if words == [] then [[]] else GreedyLines(words, width, maxWidth, 0)
  }

  /** `_wrap_text_to_width` */
  method WrapTextToWidth(words: seq<string>, width: Width, maxWidth: int) returns (lines: seq<Line>)
    ensures lines == Wrapped(words, width, maxWidth)
  {
    if words == [] {
      return [[]];
    }
    lines := [];
    var current: Line := [];
    ghost var start := 0;
    for k := 0 to |words|
      invariant start <= k && current == words[start..k]
      invariant start == k ==> k == 0
      invariant lines + GreedyLines(words, width, maxWidth, start) == GreedyLines(words, width, maxWidth, 0)
      invariant start < k ==>
        EndFrom(words, width, maxWidth, start, start + 1) == EndFrom(words, width, maxWidth, start, k)
    {
      assert current + [words[k]] == words[start..k + 1];
      if width(current + [words[k]]) <= maxWidth || current == [] {
        current := current + [words[k]];
      } else {
        assert words[start..k] == current;
        Regroup(lines, current, GreedyLines(words, width, maxWidth, k));
        lines := lines + [current];
        current := [words[k]];
        start := k;
      }
    }
    assert GreedyLines(words, width, maxWidth, start) == [current] + GreedyLines(words, width, maxWidth, |words|);
    Regroup(lines, current, []);
    lines := lines + [current];
  }

  lemma Regroup(lines: seq<Line>, line: Line, rest: seq<Line>)
    ensures lines + ([line] + rest) == (lines + [line]) + rest
    ensures lines + [line] + [] == lines + [line]
  {
  }

  // ---------- What greedy lines are ----------

  lemma {:induction false} EndIsAllowed(words: seq<string>, width: Width, maxWidth: int, start: nat, end: nat)
    requires start < end <= |words| && Allowed(words[start..end], width, maxWidth)
    ensures Allowed(words[start..EndFrom(words, width, maxWidth, start, end)], width, maxWidth)
    decreases |words| - end
  {
    if end < |words| && width(words[start..end + 1]) <= maxWidth {
      EndIsAllowed(words, width, maxWidth, start, end + 1);
    }
  }

  /** The greedy lines are a wrapping, whatever the width. */
  lemma {:induction false} GreedyWraps(words: seq<string>, width: Width, maxWidth: int, start: nat)
    requires start <= |words|
    ensures IsWrapping(words[start..], GreedyLines(words, width, maxWidth, start), width, maxWidth)
    decreases |words| - start
  {
    if start < |words| {
      var end := EndFrom(words, width, maxWidth, start, start + 1);
      EndIsAllowed(words, width, maxWidth, start, start + 1);
      GreedyWraps(words, width, maxWidth, end);
      assert words[start..] == words[start..end] + words[end..];
      var lines := GreedyLines(words, width, maxWidth, start);
      assert lines[1..] == GreedyLines(words, width, maxWidth, end);
    }
  }

  /** A greedy line reaches at least as far as any line that starts no later and may be used. */
  lemma {:induction false} GreedyReaches(words: seq<string>, width: Width, maxWidth: int,
                                         from: nat, to: nat, start: nat, end: nat)
    requires Monotone(width)
    requires from <= start < end <= |words| && to <= |words|
    requires from < to && Allowed(words[from..to], width, maxWidth)
    requires end <= to ==> start < to
    ensures to <= EndFrom(words, width, maxWidth, start, end)
    decreases |words| - end
  {
    if end < to {
      var a, line, b := words[from..start], words[start..end + 1], words[end + 1..to];
      assert words[from..to] == a + line + b;
      assert width(line) <= width(a + line + b);
      GreedyReaches(words, width, maxWidth, from, to, start, end + 1);
    }
  }

  /** No wrapping of at least these words has fewer lines. */
  lemma {:induction false} GreedyIsShortest(words: seq<string>, width: Width, maxWidth: int,
                                            from: nat, start: nat, lines: seq<Line>)
    requires Monotone(width)
    requires from <= start <= |words| && IsWrapping(words[from..], lines, width, maxWidth)
    ensures |GreedyLines(words, width, maxWidth, start)| <= |lines|
    decreases |lines|
  {
    if start < |words| {
      assert words[from..] != [];
      assert lines != [];
      var line := lines[0];
      var to := from + |line|;
      assert Allowed(line, width, maxWidth);
      assert words[from..] == line + Flatten(lines[1..]);
      assert line == words[from..][..|line|] == words[from..to];
      assert Flatten(lines[1..]) == words[from..][|line|..] == words[to..];
      var end := EndFrom(words, width, maxWidth, start, start + 1);
      if start < to {
        GreedyReaches(words, width, maxWidth, from, to, start, start + 1);
      }
      GreedyIsShortest(words, width, maxWidth, to, end, lines[1..]);
    }
  }

  /** Greedy wrapping is optimal: its lines wrap the words, and no wrapping has fewer. */
  lemma GreedyIsOptimal(words: seq<string>, width: Width, maxWidth: int, lines: seq<Line>)
    requires Monotone(width)
    ensures IsWrapping(words, GreedyLines(words, width, maxWidth, 0), width, maxWidth)
    ensures IsWrapping(words, lines, width, maxWidth) ==> |GreedyLines(words, width, maxWidth, 0)| <= |lines|
  {
    assert words[0..] == words;
    GreedyWraps(words, width, maxWidth, 0);
    if IsWrapping(words, lines, width, maxWidth) {
      GreedyIsShortest(words, width, maxWidth, 0, 0, lines);
    }
  }

  // ---------- When every line fits ----------

  lemma {:induction false} LinesHoldWords(lines: seq<Line>, line: Line, word: string)
    requires line in lines && word in line
    ensures word in Flatten(lines)
  {
    if line != lines[0] {
      LinesHoldWords(lines[1..], line, word);
    }
  }

  lemma {:induction false} WordsAreInLines(lines: seq<Line>, word: string) returns (line: Line)
    requires word in Flatten(lines)
    ensures line in lines && word in line
  {
    if word in lines[0] {
      line := lines[0];
    } else {
      line := WordsAreInLines(lines[1..], word);
    }
  }

  /** Words that fit by themselves make lines that fit, for any width whatever. */
  lemma NarrowWordsFit(words: seq<string>, lines: seq<Line>, width: Width, maxWidth: int)
    requires IsWrapping(words, lines, width, maxWidth)
    requires forall word :: word in words ==> width([word]) <= maxWidth
    ensures forall line :: line in lines ==> width(line) <= maxWidth
  {
    forall line | line in lines
      ensures width(line) <= maxWidth
    {
      if |line| == 1 {
        LinesHoldWords(lines, line, line[0]);
        assert line == [line[0]];
      }
    }
  }

  /** A word wider than the limit makes a line that does not fit, wherever it stands. */
  lemma WideWordStaysWide(words: seq<string>, lines: seq<Line>, width: Width, maxWidth: int, word: string)
    requires Monotone(width) && IsWrapping(words, lines, width, maxWidth)
    requires word in words && width([word]) > maxWidth
    ensures exists line :: line in lines && word in line && width(line) > maxWidth
  {
    var line := WordsAreInLines(lines, word);
    var k :| 0 <= k < |line| && line[k] == word;
    assert line == line[..k] + [word] + line[k + 1..];
    assert width([word]) <= width(line[..k] + [word] + line[k + 1..]);
  }

  /** Every line fits exactly when every word does by itself; without words, when the empty line does. */
  lemma EveryLineFitsIff(words: seq<string>, width: Width, maxWidth: int)
    requires Monotone(width)
    ensures (forall line :: line in Wrapped(words, width, maxWidth) ==> width(line) <= maxWidth) <==>
      if words == [] then width([]) <= maxWidth else forall word :: word in words ==> width([word]) <= maxWidth
  {
    if words == [] {
      assert [] in Wrapped(words, width, maxWidth);
    } else {
      var lines := Wrapped(words, width, maxWidth);
      assert words[0..] == words;
      GreedyWraps(words, width, maxWidth, 0);
      if forall word :: word in words ==> width([word]) <= maxWidth {
        NarrowWordsFit(words, lines, width, maxWidth);
      }
      forall word | word in words && width([word]) > maxWidth
        ensures exists line :: line in lines && width(line) > maxWidth
      {
        WideWordStaysWide(words, lines, width, maxWidth, word);
      }
    }
  }
}
