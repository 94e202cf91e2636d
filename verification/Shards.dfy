/** Requests dealt out to ranks in strides, and their outputs put together again from scattered pieces. */
module Shards {

  import opened Wrappers

  /** Output values of one request at some of its positions; no values where the output was not asked for. */
  datatype Record = Record(index: nat, source: seq<nat>, value: Option<seq<real>>)

  predicate RecordOk(r: Record, length: nat) {
    r.value.Some? ==>
      && |r.value.value| == |r.source|
      && (forall j :: 0 <= j < |r.source| ==> r.source[j] < length)
      && forall i, j :: 0 <= i < j < |r.source| ==> r.source[i] != r.source[j]
  }

  ghost predicate RecordsOk(records: seq<Record>, length: nat) {
    forall r :: r in records ==> RecordOk(r, length)
  }

  const ATOL := 0.00002
  const RTOL := 0.00002

  function Abs(x: real): real {
    if x < 0.0 then -x else x
  }

  /** `assert_close(actual, expected)` */
  predicate Close(actual: real, expected: real) {
    Abs(actual - expected) <= ATOL + RTOL * Abs(expected)
  }

  /** Two values are close when they differ by no more than 0.00002 and as much of what is expected. */
  lemma CloseIff(actual: real, expected: real)
    ensures Close(actual, expected) <==>
      var margin := 0.00002 + 0.00002 * (if expected < 0.0 then 0.0 - expected else expected);
      expected - margin <= actual <= expected + margin
  {
  }

  // ---------- Scattering ----------

  /** What has been written where, after these records. */
  ghost function Scattered(records: seq<Record>, length: nat): (written: map<nat, real>)
    requires RecordsOk(records, length)
    ensures forall p :: p in written ==> p < length
  {
    if records == [] then map[]
    else
      var r := records[|records| - 1];
      var before := Scattered(records[..|records| - 1], length);
      if r.value.None? then before
      else
        map p | 0 <= p < length && (p in before || p in r.source) ::
          if p in r.source then ValueAt(r, p, length) else before[p]
  }

  ghost function ValueAt(r: Record, p: nat, length: nat): real
    requires RecordOk(r, length) && r.value.Some? && p in r.source
  {
    var j :| 0 <= j < |r.source| && r.source[j] == p;
    r.value.value[j]
  }

  /** Where a record writes again, its values are close to those that are there. */
  ghost predicate Agrees(written: map<nat, real>, r: Record, length: nat)
    requires RecordOk(r, length)
  {
    r.value.Some? ==>
      forall j :: 0 <= j < |r.source| && r.source[j] in written ==> Close(written[r.source[j]], r.value.value[j])
  }

  ghost predicate AllAgree(records: seq<Record>, length: nat)
    requires RecordsOk(records, length)
  {
    forall k :: 0 <= k < |records| ==> Agrees(Scattered(records[..k], length), records[k], length)
  }

  predicate HasValue(records: seq<Record>) {
    exists r :: r in records && r.value.Some?
  }

  ghost predicate Full(written: map<nat, real>, length: nat) {
    forall p: nat :: p < length ==> p in written
  }

  datatype Failure = NotClose | MissedPositions

  method ReconstructTensor(records: seq<Record>, length: nat) returns (r: Result<Option<seq<real>>, Failure>)
    requires RecordsOk(records, length)
    ensures r == Ok(None) <==> forall k :: 0 <= k < |records| ==> records[k].value == None
    ensures r == Err(NotClose) <==> !AllAgree(records, length)
    ensures r == Err(MissedPositions) <==>
      HasValue(records) && AllAgree(records, length) && !Full(Scattered(records, length), length)
    ensures r.Ok? && r.value.Some? ==>
      |r.value.value| == length && forall p :: 0 <= p < length ==> r.value.value[p] == Scattered(records, length)[p]
  {
    if !HasValue(records) {
      NothingScattered(records, length);
      return Ok(None);
    }
    var output, filled := new real[length], new bool[length](_ => false);
    var close := ScatterAll(output, filled, records);
    if !close {
      return Err(NotClose);
    }
    for p := 0 to length
      invariant forall q: nat :: q < p ==> q in Scattered(records, length)
    {
      if !filled[p] {
        return Err(MissedPositions);
      }
    }
    r := Ok(Some(output[..]));
  }

  method ScatterAll(output: array<real>, filled: array<bool>, records: seq<Record>) returns (close: bool)
    requires output.Length == filled.Length && RecordsOk(records, output.Length)
    requires forall p: nat :: p < output.Length ==> !filled[p]
    modifies output, filled
    ensures close == AllAgree(records, output.Length)
    ensures close ==> HoldsWritten(output, filled, Scattered(records, output.Length))
  {
    hide Scattered, Agrees;
    EmptyScatters(output.Length);
    for k := 0 to |records|
      invariant HoldsWritten(output, filled, Scattered(records[..k], output.Length))
      invariant forall j :: 0 <= j < k ==> Agrees(Scattered(records[..j], output.Length), records[j], output.Length)
    {
      var record := records[k];
      ScatterStep(records, k, output.Length);
      if record.value.None? {
        continue;
      }
      close := CheckOverlap(output, filled, record, Scattered(records[..k], output.Length));
      if !close {
        return;
      }
      WriteValues(output, filled, record, Scattered(records[..k], output.Length));
    }
    assert records[..|records|] == records;
    close := true;
  }

  /** The buffers hold what has been written: the mask says where, the output says what. */
  ghost predicate HoldsWritten(output: array<real>, filled: array<bool>, written: map<nat, real>)
    requires output.Length == filled.Length
    reads output, filled
  {
    forall p: nat :: p < output.Length ==> filled[p] == (p in written) && (p in written ==> output[p] == written[p])
  }

  lemma EmptyScatters(length: nat)
    ensures Scattered([], length) == map[]
  {
  }

  lemma ScatterStep(records: seq<Record>, k: nat, length: nat)
    requires k < |records| && RecordsOk(records, length)
    ensures RecordOk(records[k], length)
    ensures records[k].value.None? ==>
      && Scattered(records[..k + 1], length) == Scattered(records[..k], length)
      && Agrees(Scattered(records[..k], length), records[k], length)
    ensures records[k].value.Some? ==>
      var before, after := Scattered(records[..k], length), Scattered(records[..k + 1], length);
      forall p: nat :: p < length ==>
        && (p in after <==> p in before || p in records[k].source)
        && (p in after ==> after[p] == if p in records[k].source then ValueAt(records[k], p, length) else before[p])
  {
    assert records[..k + 1][..k] == records[..k];
    assert records[k] in records;
  }

  method CheckOverlap(output: array<real>, filled: array<bool>, r: Record, ghost written: map<nat, real>)
    returns (close: bool)
    requires output.Length == filled.Length && RecordOk(r, output.Length) && r.value.Some?
    requires HoldsWritten(output, filled, written)
    ensures close == Agrees(written, r, output.Length)
  {
    for j := 0 to |r.source|
      invariant forall i :: 0 <= i < j && r.source[i] in written ==> Close(written[r.source[i]], r.value.value[i])
    {
      if filled[r.source[j]] && !Close(output[r.source[j]], r.value.value[j]) {
        return false;
      }
    }
    return true;
  }

  method WriteValues(output: array<real>, filled: array<bool>, r: Record, ghost written: map<nat, real>)
    requires output.Length == filled.Length && RecordOk(r, output.Length) && r.value.Some?
    requires HoldsWritten(output, filled, written)
    modifies output, filled
    ensures forall p: nat :: p < output.Length ==> filled[p] == (p in written || p in r.source)
    ensures forall p: nat :: p < output.Length && p in r.source ==> output[p] == ValueAt(r, p, output.Length)
    ensures forall p: nat :: p < output.Length && p in written && p !in r.source ==> output[p] == written[p]
  {
    for j := 0 to |r.source|
      invariant forall p: nat :: p < output.Length ==> filled[p] == (p in written || p in r.source[..j])
      invariant forall i :: 0 <= i < j ==> output[r.source[i]] == r.value.value[i]
      invariant forall p: nat :: p < output.Length && p in written && p !in r.source[..j] ==> output[p] == written[p]
    {
      assert r.source[..j + 1] == r.source[..j] + [r.source[j]];
      output[r.source[j]] := r.value.value[j];
      filled[r.source[j]] := true;
    }
    assert r.source[..|r.source|] == r.source;
  }

  lemma {:induction false} NothingScattered(records: seq<Record>, length: nat)
    requires RecordsOk(records, length) && !HasValue(records)
    ensures AllAgree(records, length) && Scattered(records, length) == map[]
  {
    if records == [] {
    } else {
      var init := records[..|records| - 1];
      assert records[|records| - 1] in records;
      NothingScattered(init, length);
      forall k | 0 <= k < |records|
        ensures Agrees(Scattered(records[..k], length), records[k], length)
      {
        assert records[k] in records;
      }
    }
  }

  // ---------- Rebuilding ----------

  /** A record of this tensor: its values are the tensor's, at its positions. */
  ghost predicate IsPieceOf(r: Record, truth: seq<real>) {
    && RecordOk(r, |truth|)
    && (r.value.Some? ==> forall j :: 0 <= j < |r.source| ==> r.value.value[j] == truth[r.source[j]])
  }

  ghost predicate ArePieces(records: seq<Record>, truth: seq<real>) {
    forall r :: r in records ==> IsPieceOf(r, truth)
  }

  /** Some record has a value for this position. */
  ghost predicate Covered(records: seq<Record>, p: nat) {
    exists r :: r in records && r.value.Some? && p in r.source
  }

  lemma {:induction false} PiecesScatter(records: seq<Record>, truth: seq<real>)
    requires ArePieces(records, truth) && RecordsOk(records, |truth|)
    ensures forall p: nat :: p in Scattered(records, |truth|) <==> Covered(records, p)
    ensures forall p :: p in Scattered(records, |truth|) ==> Scattered(records, |truth|)[p] == truth[p]
  {
    if records == [] {
    } else {
      var init, last := records[..|records| - 1], records[|records| - 1];
      PiecesScatter(init, truth);
      assert IsPieceOf(last, truth);
      forall p: nat
        ensures Covered(records, p) <==> Covered(init, p) || (last.value.Some? && p in last.source)
      {
        if Covered(init, p) {
          var r :| r in init && r.value.Some? && p in r.source;
          assert r in records;
        }
      }
    }
  }

  lemma PiecesAgree(records: seq<Record>, truth: seq<real>)
    requires ArePieces(records, truth) && RecordsOk(records, |truth|)
    ensures AllAgree(records, |truth|)
  {
    forall k | 0 <= k < |records|
      ensures Agrees(Scattered(records[..k], |truth|), records[k], |truth|)
    {
      PiecesScatter(records[..k], truth);
      assert IsPieceOf(records[k], truth);
    }
  }

  ghost predicate AllCovered(records: seq<Record>, length: nat) {
    forall p: nat :: p < length ==> Covered(records, p)
  }

  /** Pieces of a tensor give that tensor back, in whatever order they come and however often, exactly when
    * every position is covered.
    */
  method RebuildFromPieces(records: seq<Record>, length: nat, ghost truth: seq<real>)
    returns (r: Result<Option<seq<real>>, Failure>)
    requires |truth| == length
    requires ArePieces(records, truth) && HasValue(records)
    ensures r == Ok(Some(truth)) <==> AllCovered(records, |truth|)
    ensures r == Ok(Some(truth)) || r == Err(MissedPositions)
  {
    assert RecordsOk(records, |truth|) by {
      forall r | r in records
        ensures RecordOk(r, |truth|)
      {
        assert IsPieceOf(r, truth);
      }
    }
    hide AllCovered, AllAgree, Full;
    PiecesScatter(records, truth);
    PiecesAgree(records, truth);
    r := ReconstructTensor(records, length);
    FullIsCovered(records, truth);
    if r.Ok? {
      assert r.value.value == truth;
    } else {
      assert r.error.NotClose? || r.error.MissedPositions?;
    }
  }

  lemma FullIsCovered(records: seq<Record>, truth: seq<real>)
    requires ArePieces(records, truth) && RecordsOk(records, |truth|)
    ensures Full(Scattered(records, |truth|), |truth|) <==> AllCovered(records, |truth|)
  {
    PiecesScatter(records, truth);
    if AllCovered(records, |truth|) {
      forall p: nat | p < |truth|
        ensures p in Scattered(records, |truth|)
      {
        assert Covered(records, p);
      }
    }
  }

  // ---------- Dealing out and gathering ----------

  /** The indices of `list(enumerate(requests))[rank::size]`. */
  function Strided(count: nat, rank: nat, size: nat): seq<nat>
    requires size > 0
    decreases if rank < count then count - rank else 0
  {
    if rank < count then [rank] + Strided(count, rank + size, size) else []
  }

  predicate Reaches(rank: nat, size: nat, rounds: nat, i: nat) {
    i == rank + rounds * size
  }

  lemma ReachesOn(rank: nat, next: nat, size: nat, i: nat)
    requires next == rank + size
    ensures (exists rounds: nat :: Reaches(rank, size, rounds, i)) <==>
      i == rank || exists rounds: nat :: Reaches(next, size, rounds, i)
  {
    if rounds: nat :| Reaches(next, size, rounds, i) {
      Quotients(rounds + 1, 1, size);
      assert Reaches(rank, size, rounds + 1, i);
    }
    if rounds: nat :| Reaches(rank, size, rounds, i) && rounds > 0 {
      Quotients(rounds, 1, size);
      assert Reaches(next, size, rounds - 1, i);
    }
    if i == rank {
      assert Reaches(rank, size, 0, i);
    }
  }

  lemma {:induction false} StridedReaches(count: nat, rank: nat, size: nat, i: nat)
    requires size > 0
    ensures i in Strided(count, rank, size) <==> i < count && exists rounds: nat :: Reaches(rank, size, rounds, i)
    decreases if rank < count then count - rank else 0
  {
    hide Reaches;
    if rank < count {
      StridedReaches(count, rank + size, size, i);
      ReachesOn(rank, rank + size, size, i);
    } else if rounds: nat :| Reaches(rank, size, rounds, i) {
      ReachesUp(rank, size, rounds, i);
    }
  }

  lemma ReachesUp(rank: nat, size: nat, rounds: nat, i: nat)
    requires Reaches(rank, size, rounds, i)
    ensures rank <= i
  {
    Product(rounds, size);
  }

  lemma Product(k: nat, size: nat)
    ensures k > 0 ==> k * size >= size
  {
    if k > 0 {
      assert k * size == (k - 1) * size + size;
    }
  }

  lemma Quotients(q: nat, r: nat, size: nat)
    requires r <= q
    ensures q * size == r * size + (q - r) * size
  {
  }

  lemma SameRemainder(q: nat, m: nat, r: nat, rank: nat, size: nat)
    requires m < size && rank < size && m + q * size == rank + r * size
    ensures m == rank
  {
    if q >= r {
      Quotients(q, r, size);
      Product(q - r, size);
    } else {
      Quotients(r, q, size);
      Product(r - q, size);
    }
  }

  /** Each request goes to exactly one rank: to the remainder of its index. */
  lemma EachRequestOnce(count: nat, rank: nat, size: nat, i: nat)
    requires rank < size && i < count
    ensures i in Strided(count, rank, size) <==> rank == i % size
  {
    StridedReaches(count, rank, size, i);
    var q, m := i / size, i % size;
    assert i == m + q * size;
    if rounds: nat :| Reaches(rank, size, rounds, i) {
      SameRemainder(q, m, rounds, rank, size);
    }
    if rank == m {
      assert Reaches(rank, size, q, i);
    }
  }

  /** What the ranks hand in, rank after rank, when request `i` makes the records `out(i)`. */
  function Local(indices: seq<nat>, out: nat -> seq<Record>): seq<Record> {
    if indices == [] then [] else out(indices[0]) + Local(indices[1..], out)
  }

  function Gathered(world: seq<nat>, count: nat, size: nat, out: nat -> seq<Record>): seq<Record>
    requires size > 0
  {
    if world == [] then [] else Local(Strided(count, world[0], size), out) + Gathered(world[1..], count, size, out)
  }

  function Selected(records: seq<Record>, index: nat): seq<Record> {
    if records == [] then []
    else (if records[0].index == index then [records[0]] else []) + Selected(records[1..], index)
  }

  lemma {:induction false} SelectedAppend(a: seq<Record>, b: seq<Record>, index: nat)
    ensures Selected(a + b, index) == Selected(a, index) + Selected(b, index)
  {
    if a == [] {
      assert a + b == b;
    } else {
      var head := if a[0].index == index then [a[0]] else [];
      assert (a + b)[0] == a[0] && (a + b)[1..] == a[1..] + b;
      assert Selected(a + b, index) == head + Selected(a[1..] + b, index);
      SelectedAppend(a[1..], b, index);
      assert head + (Selected(a[1..], index) + Selected(b, index))
          == (head + Selected(a[1..], index)) + Selected(b, index);
    }
  }

  /** Records of one index: all are selected for it, and none for another. */
  lemma {:induction false} SelectedUniform(records: seq<Record>, i: nat, index: nat)
    requires forall r :: r in records ==> r.index == i
    ensures Selected(records, index) == if i == index then records else []
  {
    if records == [] {
    } else {
      assert records[0] in records;
      SelectedUniform(records[1..], i, index);
    }
  }

  ghost predicate Labelled(out: nat -> seq<Record>) {
    forall i, r :: r in out(i) ==> r.index == i
  }

  /** How often an index is among these. */
  function Times(indices: seq<nat>, index: nat): nat {
    if indices == [] then 0 else (if indices[0] == index then 1 else 0) + Times(indices[1..], index)
  }

  function Copies(n: nat, records: seq<Record>): seq<Record> {
    if n == 0 then [] else records + Copies(n - 1, records)
  }

  lemma {:induction false} CopiesAdd(m: nat, n: nat, records: seq<Record>)
    ensures Copies(m, records) + Copies(n, records) == Copies(m + n, records)
  {
    if m == 0 {
    } else {
      CopiesAdd(m - 1, n, records);
      assert records + (Copies(m - 1, records) + Copies(n, records))
          == (records + Copies(m - 1, records)) + Copies(n, records);
    }
  }

  lemma {:induction false} SelectedFromLocal(indices: seq<nat>, out: nat -> seq<Record>, index: nat)
    requires Labelled(out)
    ensures Selected(Local(indices, out), index) == Copies(Times(indices, index), out(index))
  {
    if indices == [] {
    } else {
      SelectedFromLocal(indices[1..], out, index);
      SelectedAppend(out(indices[0]), Local(indices[1..], out), index);
      SelectedUniform(out(indices[0]), indices[0], index);
    }
  }

  /** A stride has each index at most once. */
  lemma {:induction false} TimesInStride(count: nat, rank: nat, size: nat, index: nat)
    requires size > 0
    ensures Times(Strided(count, rank, size), index) == if index in Strided(count, rank, size) then 1 else 0
    ensures forall i :: i in Strided(count, rank, size) ==> rank <= i
    decreases if rank < count then count - rank else 0
  {
    if rank < count {
      TimesInStride(count, rank + size, size, index);
      assert Strided(count, rank, size)[1..] == Strided(count, rank + size, size);
    }
  }

  /** For every number of ranks and whatever ranks hand in, in any order: what is selected for a request are
    * the records it makes, once for each time that its rank hands in, and nothing else.
    */
  lemma {:induction false} SelectedAreOwn(world: seq<nat>, count: nat, size: nat, out: nat -> seq<Record>, index: nat)
    requires size > 0 && index < count && Labelled(out) && forall rank: nat :: rank in world ==> rank < size
    ensures Selected(Gathered(world, count, size, out), index) == Copies(Times(world, index % size), out(index))
  {
    hide Strided;
    if world == [] {
    } else {
      assert world[0] in world && forall rank: nat :: rank in world[1..] ==> rank in world;
      var here, rest := Local(Strided(count, world[0], size), out), Gathered(world[1..], count, size, out);
      SelectedAreOwn(world[1..], count, size, out, index);
      SelectedAppend(here, rest, index);
      SelectedFromLocal(Strided(count, world[0], size), out, index);
      TimesInStride(count, world[0], size, index);
      EachRequestOnce(count, world[0], size, index);
      CopiesAdd(if world[0] == index % size then 1 else 0, Times(world[1..], index % size), out(index));
    }
  }

  lemma {:induction false} CopiesMembers(n: nat, records: seq<Record>, r: Record)
    ensures r in Copies(n, records) <==> n > 0 && r in records
  {
    if n == 0 {
    } else {
      CopiesMembers(n - 1, records, r);
    }
  }

  lemma {:induction false} TimesPositive(indices: seq<nat>, index: nat)
    ensures Times(indices, index) > 0 <==> index in indices
  {
    if indices == [] {
    } else {
      TimesPositive(indices[1..], index);
    }
  }

  lemma SelectedMembers(world: seq<nat>, count: nat, size: nat, out: nat -> seq<Record>, index: nat)
    requires size > 0 && index < count && Labelled(out)
    requires forall rank: nat :: rank in world <==> rank < size
    ensures forall r :: r in Selected(Gathered(world, count, size, out), index) <==> r in out(index)
  {
    SelectedAreOwn(world, count, size, out, index);
    TimesPositive(world, index % size);
    forall r
      ensures r in Selected(Gathered(world, count, size, out), index) <==> r in out(index)
    {
      CopiesMembers(Times(world, index % size), out(index), r);
    }
  }

  /** `_global_outputs`, for one output: dealing the requests out to any number of ranks, gathering what they
    * hand in and putting it together gives each request its tensor, exactly when its positions are covered.
    */
  method GlobalOutputs(world: seq<nat>, lengths: seq<nat>, size: nat, out: nat -> seq<Record>,
                       ghost truth: seq<seq<real>>)
    returns (outputs: seq<Result<Option<seq<real>>, Failure>>)
    requires size > 0 && Labelled(out) && forall rank: nat :: rank in world <==> rank < size
    requires |truth| == |lengths| && forall i :: 0 <= i < |truth| ==> |truth[i]| == lengths[i]
    requires forall i: nat :: i < |truth| ==> ArePieces(out(i), truth[i]) && HasValue(out(i))
    ensures |outputs| == |lengths|
    ensures forall i: nat :: i < |outputs| ==>
      && (outputs[i] == Ok(Some(truth[i])) <==> AllCovered(out(i), lengths[i]))
      && (outputs[i] == Ok(Some(truth[i])) || outputs[i] == Err(MissedPositions))
  {
    hide Selected, Gathered, ArePieces, HasValue, AllCovered, Labelled;
    var records := Gathered(world, |lengths|, size, out);
    outputs := [];
    for i := 0 to |lengths|
      invariant |outputs| == i
      invariant forall k: nat :: k < i ==>
        && (outputs[k] == Ok(Some(truth[k])) <==> AllCovered(out(k), lengths[k]))
        && (outputs[k] == Ok(Some(truth[k])) || outputs[k] == Err(MissedPositions))
    {
      var selected := Selected(records, i);
      SelectedMembers(world, |lengths|, size, out, i);
      SameMembers(selected, out(i), truth[i]);
      var r := RebuildFromPieces(selected, lengths[i], truth[i]);
      outputs := outputs + [r];
    }
  }

  lemma SameMembers(a: seq<Record>, b: seq<Record>, truth: seq<real>)
    requires forall r :: r in a <==> r in b
    ensures ArePieces(a, truth) == ArePieces(b, truth) && HasValue(a) == HasValue(b)
    ensures AllCovered(a, |truth|) == AllCovered(b, |truth|)
  {
    forall p: nat
      ensures Covered(a, p) == Covered(b, p)
    {
    }
  }
}
