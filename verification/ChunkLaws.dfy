/** What a completion holds is decided by the pieces put together, not by how the stream was cut. */
module ChunkLaws {

  import opened Wrappers
  import opened ChunkFold

  /** What the chunks say about the p-th choice, in order. */
  ghost function Column(chunks: seq<Chunk>, p: nat): seq<ChunkChoice> {
    if chunks == [] then []
    else
      Column(chunks[..|chunks| - 1], p)
      + if p < |chunks[|chunks| - 1].choices| then [chunks[|chunks| - 1].choices[p]] else []
  }

  function NonEmpty<T>(s: seq<T>): Option<seq<T>> {
    if s == [] then None else Some(s)
  }

  lemma ExtendNonEmpty<T>(s: seq<T>, piece: Option<seq<T>>)
    ensures Extend(NonEmpty(s), piece) == NonEmpty(s + OrEmpty(piece))
  {
    if OrEmpty(piece) == [] {
      assert s + [] == s;
    }
  }

  /** What the last chunk adds to the fold of the others, and to the column. */
  lemma FoldStep(chunks: seq<Chunk>, p: nat)
    requires chunks != [] && p < |chunks[0].choices| && ChunksOk(chunks)
    ensures var init, last := chunks[..|chunks| - 1], chunks[|chunks| - 1];
      && ChunksOk(init) && (init != [] ==> p < |init[0].choices|) && (init == [] ==> p < |last.choices|)
      && var before := if init == [] then InitChoice(last.choices[p]) else FoldAt(init, p);
      if p < |last.choices| then
        && NonNegative(OrEmpty(last.choices[p].delta.toolCalls))
        && FoldAt(chunks, p) == FoldChoice(before, last.choices[p], PromptIds(chunks))
        && Column(chunks, p) == Column(init, p) + [last.choices[p]]
      else
        FoldAt(chunks, p) == before && Column(chunks, p) == Column(init, p)
  {
    hide FoldChoice, PromptIds;
    var last := chunks[|chunks| - 1];
    assert last in chunks && Ends(|chunks[0].choices|, last);
  }

  lemma NoColumn(p: nat)
    ensures Column([], p) == []
  {
  }

  // ---------- Texts and lists ----------

  datatype TextField = Content | Refusal | Reasoning

  function TextOf(f: TextField, choice: Choice): Option<string> {
    match f
    case Content => choice.content
    case Refusal => choice.refusal
    case Reasoning => choice.reasoning
  }

  function TextPiece(f: TextField, c: ChunkChoice): Option<string> {
    match f
    case Content => c.delta.content
    case Refusal => c.delta.refusal
    case Reasoning => c.delta.reasoning
  }

  ghost function TextPieces(f: TextField, column: seq<ChunkChoice>): string {
    if column == [] then "" else TextPieces(f, column[..|column| - 1]) + OrEmpty(TextPiece(f, column[|column| - 1]))
  }

  lemma FoldChoiceText(f: TextField, before: Choice, c: ChunkChoice, promptTokenIds: Option<seq<int>>)
    requires NonNegative(OrEmpty(c.delta.toolCalls))
    ensures TextOf(f, FoldChoice(before, c, promptTokenIds)) == Extend(TextOf(f, before), TextPiece(f, c))
  {
    hide FoldTools;
  }

  lemma NothingSaid(f: TextField, c: ChunkChoice)
    ensures TextOf(f, InitChoice(c)) == NonEmpty(TextPieces(f, []))
  {
  }

  /** A text is the concatenation of its pieces, and absent when they are all empty or absent. */
  lemma {:induction false} TextIsConcatenation(chunks: seq<Chunk>, p: nat, f: TextField)
    requires chunks != [] && p < |chunks[0].choices| && ChunksOk(chunks)
    ensures TextOf(f, FoldAt(chunks, p)) == NonEmpty(TextPieces(f, Column(chunks, p)))
  {
    hide FoldChoice, PromptIds, Extend, TextOf, FoldAt, Column, TextPieces;
    var init, last := chunks[..|chunks| - 1], chunks[|chunks| - 1];
    FoldStep(chunks, p);
    if init == [] {
      NothingSaid(f, last.choices[p]);
      NoColumn(p);
    } else {
      TextIsConcatenation(init, p, f);
    }
    if p < |last.choices| {
      var before := if init == [] then InitChoice(last.choices[p]) else FoldAt(init, p);
      FoldChoiceText(f, before, last.choices[p], PromptIds(chunks));
      MoreText(f, Column(init, p), last.choices[p]);
      ExtendNonEmpty(TextPieces(f, Column(init, p)), TextPiece(f, last.choices[p]));
    }
  }

  lemma MoreText(f: TextField, column: seq<ChunkChoice>, c: ChunkChoice)
    ensures TextPieces(f, column + [c]) == TextPieces(f, column) + OrEmpty(TextPiece(f, c))
  {
    assert (column + [c])[..|column|] == column;
  }

  datatype ListField = TokenIds | ContentLogprobs | RefusalLogprobs

  function ListOf(f: ListField, tokenIds: Option<seq<int>>, logprobs: Option<Logprobs>): Option<seq<int>> {
    match f
    case TokenIds => tokenIds
    case ContentLogprobs => if logprobs.None? then None else logprobs.value.content
    case RefusalLogprobs => if logprobs.None? then None else logprobs.value.refusal
  }

  function ListPiece(f: ListField, c: ChunkChoice): Option<seq<int>> {
    ListOf(f, c.tokenIds, c.logprobs)
  }

  ghost function ListPieces(f: ListField, column: seq<ChunkChoice>): seq<int> {
    if column == [] then [] else ListPieces(f, column[..|column| - 1]) + OrEmpty(ListPiece(f, column[|column| - 1]))
  }

  lemma FoldChoiceList(f: ListField, before: Choice, c: ChunkChoice, promptTokenIds: Option<seq<int>>)
    requires NonNegative(OrEmpty(c.delta.toolCalls))
    ensures var after := FoldChoice(before, c, promptTokenIds);
      ListOf(f, after.tokenIds, after.logprobs)
        == Extend(ListOf(f, before.tokenIds, before.logprobs), ListPiece(f, c))
  {
    hide FoldTools;
  }

  /** Token ids and log probabilities are the concatenation of those of the chunks. */
  lemma {:induction false} ListIsConcatenation(chunks: seq<Chunk>, p: nat, f: ListField)
    requires chunks != [] && p < |chunks[0].choices| && ChunksOk(chunks)
    ensures ListOf(f, FoldAt(chunks, p).tokenIds, FoldAt(chunks, p).logprobs)
         == NonEmpty(ListPieces(f, Column(chunks, p)))
  {
    hide FoldChoice, PromptIds, Extend, ListOf, FoldAt, Column, ListPieces;
    var init, last := chunks[..|chunks| - 1], chunks[|chunks| - 1];
    FoldStep(chunks, p);
    if init == [] {
      NothingListed(f, last.choices[p]);
      NoColumn(p);
    } else {
      ListIsConcatenation(init, p, f);
    }
    if p < |last.choices| {
      var before := if init == [] then InitChoice(last.choices[p]) else FoldAt(init, p);
      FoldChoiceList(f, before, last.choices[p], PromptIds(chunks));
      MoreListed(f, Column(init, p), last.choices[p]);
      ExtendNonEmpty(ListPieces(f, Column(init, p)), ListPiece(f, last.choices[p]));
    }
  }

  lemma MoreListed(f: ListField, column: seq<ChunkChoice>, c: ChunkChoice)
    ensures ListPieces(f, column + [c]) == ListPieces(f, column) + OrEmpty(ListPiece(f, c))
  {
    assert (column + [c])[..|column|] == column;
  }

  lemma NothingListed(f: ListField, c: ChunkChoice)
    ensures ListOf(f, InitChoice(c).tokenIds, InitChoice(c).logprobs) == NonEmpty(ListPieces(f, []))
  {
  }

  ghost predicate Calls(column: seq<ChunkChoice>) {
    exists c :: c in column && c.delta.functionCall.Some?
  }

  function CallPiece(c: ChunkChoice): FunctionCall {
    match c.delta.functionCall
    case None => FunctionCall("", "")
    case Some(f) => FunctionCall(OrEmpty(f.name), OrEmpty(f.arguments))
  }

  ghost function CallPieces(column: seq<ChunkChoice>): FunctionCall {
    if column == [] then FunctionCall("", "")
    else
      var before, piece := CallPieces(column[..|column| - 1]), CallPiece(column[|column| - 1]);
      FunctionCall(before.name + piece.name, before.arguments + piece.arguments)
  }

  /** What the pieces of a column make of a function call. */
  ghost function CallIn(column: seq<ChunkChoice>): Option<FunctionCall> {
    if Calls(column) then Some(CallPieces(column)) else None
  }

  lemma CallGrows(column: seq<ChunkChoice>, c: ChunkChoice)
    ensures CallIn(column + [c]) == ExtendCall(CallIn(column), c.delta.functionCall)
  {
    var longer := column + [c];
    assert longer[..|column|] == column && longer[|column|] == c;
    if Calls(column) {
      var d :| d in column && d.delta.functionCall.Some?;
      assert d in longer;
    } else {
      NoCalls(column);
    }
    if c.delta.functionCall.Some? {
      assert c in longer;
    } else {
      var pieces := CallPieces(column);
      assert pieces.name + "" == pieces.name && pieces.arguments + "" == pieces.arguments;
    }
  }

  lemma FoldChoiceCall(before: Choice, c: ChunkChoice, promptTokenIds: Option<seq<int>>)
    requires NonNegative(OrEmpty(c.delta.toolCalls))
    ensures FoldChoice(before, c, promptTokenIds).functionCall == ExtendCall(before.functionCall, c.delta.functionCall)
  {
  }

  /** The old kind of function call concatenates its names as well as its arguments. */
  lemma {:induction false} FunctionCallIsConcatenation(chunks: seq<Chunk>, p: nat)
    requires chunks != [] && p < |chunks[0].choices| && ChunksOk(chunks)
    ensures FoldAt(chunks, p).functionCall == CallIn(Column(chunks, p))
  {
    hide FoldChoice, PromptIds, ExtendCall, CallIn, FoldAt, Column;
    var init, last := chunks[..|chunks| - 1], chunks[|chunks| - 1];
    FoldStep(chunks, p);
    if init == [] {
      NothingCalled();
      NoColumn(p);
    } else {
      FunctionCallIsConcatenation(init, p);
    }
    if p < |last.choices| {
      var before := if init == [] then InitChoice(last.choices[p]) else FoldAt(init, p);
      FoldChoiceCall(before, last.choices[p], PromptIds(chunks));
      CallGrows(Column(init, p), last.choices[p]);
    }
  }

  lemma NothingCalled()
    ensures CallIn([]) == None
  {
  }

  lemma {:induction false} NoCalls(column: seq<ChunkChoice>)
    ensures !Calls(column) ==> CallPieces(column) == FunctionCall("", "")
  {
    if column == [] {
    } else {
      NoCalls(column[..|column| - 1]);
      assert column[|column| - 1] in column;
    }
  }

  // ---------- Tool calls ----------

  ghost function ToolPieces(column: seq<ChunkChoice>): seq<ToolDelta> {
    if column == [] then [] else ToolPieces(column[..|column| - 1]) + OrEmpty(column[|column| - 1].delta.toolCalls)
  }

  lemma {:induction false} FoldToolsAppend(calls: seq<ToolCall>, a: seq<ToolDelta>, b: seq<ToolDelta>)
    requires NonNegative(a) && NonNegative(b)
    ensures NonNegative(a + b) && FoldTools(FoldTools(calls, a), b) == FoldTools(calls, a + b)
  {
    hide FoldTool;
    if b == [] {
      assert a + b == a;
    } else {
      FoldToolsAppend(calls, a, b[..|b| - 1]);
      assert (a + b)[..|a + b| - 1] == a + b[..|b| - 1];
    }
  }

  lemma {:induction false} ColumnIsNonNegative(chunks: seq<Chunk>, p: nat)
    requires ChunksOk(chunks) && (chunks != [] ==> p < |chunks[0].choices|)
    ensures NonNegative(ToolPieces(Column(chunks, p)))
  {
    if chunks == [] {
    } else {
      var init, last := chunks[..|chunks| - 1], chunks[|chunks| - 1];
      ColumnIsNonNegative(init, p);
      if p < |last.choices| {
        assert Column(chunks, p)[..|Column(init, p)|] == Column(init, p);
        assert last in chunks && Ends(|chunks[0].choices|, last);
      } else {
        assert Column(chunks, p) == Column(init, p);
      }
    }
  }

  /** The tool calls of a choice are the fold of all its deltas, wherever the chunks were cut. */
  lemma {:induction false} ToolCallsAreFolded(chunks: seq<Chunk>, p: nat)
    requires chunks != [] && p < |chunks[0].choices| && ChunksOk(chunks)
    ensures NonNegative(ToolPieces(Column(chunks, p)))
    ensures var pieces := ToolPieces(Column(chunks, p));
      FoldAt(chunks, p).toolCalls == if pieces == [] then None else Some(FoldTools([], pieces))
  {
    hide FoldTools, PromptIds, FoldTool;
    ColumnIsNonNegative(chunks, p);
    var init, last := chunks[..|chunks| - 1], chunks[|chunks| - 1];
    if init == [] {
      assert Column(init, p) == [];
      NoToolsFold([]);
    } else {
      ToolCallsAreFolded(init, p);
    }
    if p < |last.choices| {
      assert Column(chunks, p)[..|Column(init, p)|] == Column(init, p);
      var before := ToolPieces(Column(init, p));
      var tools := OrEmpty(last.choices[p].delta.toolCalls);
      assert ToolPieces(Column(chunks, p)) == before + tools;
      NoToolsFold([]);
      if tools == [] {
        assert before + tools == before;
      } else {
        FoldToolsAppend([], before, tools);
      }
    } else {
      assert Column(chunks, p) == Column(init, p);
    }
  }

  lemma NoToolsFold(calls: seq<ToolCall>)
    ensures FoldTools(calls, []) == calls
  {
  }

  /** The number of tool calls: one more than the greatest index. */
  ghost function Width(deltas: seq<ToolDelta>): nat
    requires NonNegative(deltas)
  {
    if deltas == [] then 0
    else
      var before := Width(deltas[..|deltas| - 1]);
      var index := deltas[|deltas| - 1].index;
      if before <= index then index + 1 else before
  }

  /** The deltas that carry this index, in order. */
  ghost function Carrying(deltas: seq<ToolDelta>, index: nat): seq<ToolDelta> {
    if deltas == [] then []
    else
      Carrying(deltas[..|deltas| - 1], index)
      + if deltas[|deltas| - 1].index == index then [deltas[|deltas| - 1]] else []
  }

  ghost function AllArguments(deltas: seq<ToolDelta>): string {
    if deltas == [] then "" else AllArguments(deltas[..|deltas| - 1]) + ArgumentsOf(deltas[|deltas| - 1])
  }

  ghost function LastId(deltas: seq<ToolDelta>): string {
    if deltas == [] then "" else Or(deltas[|deltas| - 1].id, LastId(deltas[..|deltas| - 1]))
  }

  ghost function LastName(deltas: seq<ToolDelta>): string {
    if deltas == [] then "" else Or(NameOf(deltas[|deltas| - 1]), LastName(deltas[..|deltas| - 1]))
  }

  /** The call at an index has the last id and the last name that were given for it and not empty, and all
    * the arguments given for it, one after the other; there are as many calls as the greatest index asks for.
    */
  lemma {:induction false} ToolCallsByIndex(deltas: seq<ToolDelta>, i: nat)
    requires NonNegative(deltas)
    ensures |FoldTools([], deltas)| == Width(deltas)
    ensures i < Width(deltas) ==>
      var mine := Carrying(deltas, i);
      FoldTools([], deltas)[i] == ToolCall(LastId(mine), LastName(mine), AllArguments(mine))
    ensures Width(deltas) <= i ==> Carrying(deltas, i) == []
  {
    hide FoldTool;
    if deltas == [] {
    } else {
      var init, last := deltas[..|deltas| - 1], deltas[|deltas| - 1];
      ToolCallsByIndex(init, i);
      ToolAt(FoldTools([], init), last, i);
      if last.index == i {
        var mine := Carrying(deltas, i);
        assert mine[..|mine| - 1] == Carrying(init, i) && mine[|mine| - 1] == last;
      } else {
        assert Carrying(deltas, i) == Carrying(init, i);
      }
    }
  }

  lemma ToolAt(calls: seq<ToolCall>, d: ToolDelta, i: nat)
    requires 0 <= d.index
    ensures |FoldTool(calls, d)| == if |calls| <= d.index then d.index + 1 else |calls|
    ensures i < |FoldTool(calls, d)| ==>
      var call := if i < |calls| then calls[i] else NO_CALL;
      FoldTool(calls, d)[i] ==
        if i == d.index then ToolCall(Or(d.id, call.id), Or(NameOf(d), call.name), call.arguments + ArgumentsOf(d))
        else call
  {
  }

  /** No delta from `k` on gives this call an id. */
  ghost predicate NoIdFrom(deltas: seq<ToolDelta>, k: nat, i: nat) {
    forall j :: k <= j < |deltas| && deltas[j].index == i ==> deltas[j].id == None || deltas[j].id == Some("")
  }

  ghost predicate NoNameFrom(deltas: seq<ToolDelta>, k: nat, i: nat) {
    forall j :: k <= j < |deltas| && deltas[j].index == i && deltas[j].function_.Some? ==>
      deltas[j].function_.value.name == None || deltas[j].function_.value.name == Some("")
  }

  /** The id of a call is the last one given for it that is not empty; empty if there is none. */
  lemma {:induction false} LastIdIsKept(deltas: seq<ToolDelta>, i: nat, k: nat)
    requires NonNegative(deltas) && i < |FoldTools([], deltas)| && k <= |deltas| && NoIdFrom(deltas, k, i)
    requires k > 0 ==> deltas[k - 1].index == i && deltas[k - 1].id.Some? && deltas[k - 1].id.value != ""
    ensures FoldTools([], deltas)[i].id == if k == 0 then "" else deltas[k - 1].id.value
  {
    hide FoldTool;
    if deltas == [] {
    } else {
      var init, last := deltas[..|deltas| - 1], deltas[|deltas| - 1];
      ToolAt(FoldTools([], init), last, i);
      if k < |deltas| && i < |FoldTools([], init)| {
        LastIdIsKept(init, i, k);
      } else if k < |deltas| {
        ToolCallsByIndex(init, i);
        NeverCarried(init, i);
      }
    }
  }

  ghost predicate GivesName(d: ToolDelta) {
    d.function_.Some? && d.function_.value.name.Some? && d.function_.value.name.value != ""
  }

  lemma {:induction false} LastNameIsKept(deltas: seq<ToolDelta>, i: nat, k: nat)
    requires NonNegative(deltas) && i < |FoldTools([], deltas)| && k <= |deltas| && NoNameFrom(deltas, k, i)
    requires k > 0 ==> deltas[k - 1].index == i && GivesName(deltas[k - 1])
    ensures FoldTools([], deltas)[i].name == if k == 0 then "" else deltas[k - 1].function_.value.name.value
  {
    hide FoldTool;
    if deltas == [] {
    } else {
      var init, last := deltas[..|deltas| - 1], deltas[|deltas| - 1];
      ToolAt(FoldTools([], init), last, i);
      if k < |deltas| && i < |FoldTools([], init)| {
        LastNameIsKept(init, i, k);
      } else if k < |deltas| {
        ToolCallsByIndex(init, i);
        NeverCarried(init, i);
      }
    }
  }

  lemma {:induction false} NeverCarried(deltas: seq<ToolDelta>, i: nat)
    ensures Carrying(deltas, i) == [] ==> forall j :: 0 <= j < |deltas| ==> deltas[j].index != i
  {
    if deltas == [] {
    } else {
      NeverCarried(deltas[..|deltas| - 1], i);
    }
  }

  /** What one delta adds to the arguments. */
  lemma ArgumentsGiven(d: ToolDelta)
    ensures d.function_ == None ==> ArgumentsOf(d) == ""
    ensures d.function_.Some? && d.function_.value.arguments == None ==> ArgumentsOf(d) == ""
    ensures d.function_.Some? && d.function_.value.arguments.Some? ==>
      ArgumentsOf(d) == d.function_.value.arguments.value
  {
  }

  /** Deltas of different calls may arrive in either order. */
  lemma DeltasCommute(calls: seq<ToolCall>, before: seq<ToolDelta>, x: ToolDelta, y: ToolDelta, after: seq<ToolDelta>)
    requires NonNegative(before) && NonNegative(after) && 0 <= x.index && 0 <= y.index && x.index != y.index
    ensures NonNegative(before + [x, y] + after) && NonNegative(before + [y, x] + after)
    ensures FoldTools(calls, before + [x, y] + after) == FoldTools(calls, before + [y, x] + after)
  {
    hide FoldTool;
    var c := FoldTools(calls, before);
    ToolsCommute(c, x, y);
    TwoTools(c, x, y);
    TwoTools(c, y, x);
    FoldToolsAppend(calls, before, [x, y]);
    FoldToolsAppend(calls, before, [y, x]);
    FoldToolsAppend(calls, before + [x, y], after);
    FoldToolsAppend(calls, before + [y, x], after);
  }

  lemma ToolsCommute(calls: seq<ToolCall>, x: ToolDelta, y: ToolDelta)
    requires 0 <= x.index && 0 <= y.index && x.index != y.index
    ensures FoldTool(FoldTool(calls, x), y) == FoldTool(FoldTool(calls, y), x)
  {
    var a, b := FoldTool(FoldTool(calls, x), y), FoldTool(FoldTool(calls, y), x);
    assert |a| == |b|;
    forall i | 0 <= i < |a|
      ensures a[i] == b[i]
    {
    }
  }

  lemma TwoTools(calls: seq<ToolCall>, x: ToolDelta, y: ToolDelta)
    requires 0 <= x.index && 0 <= y.index
    ensures FoldTools(calls, [x, y]) == FoldTool(FoldTool(calls, x), y)
  {
    hide FoldTool;
    assert [x, y][..1] == [x] && [x][..0] == [];
    assert FoldTools(calls, [x]) == FoldTool(FoldTools(calls, []), x);
  }

  /** A delta may arrive in two pieces: the rest of its arguments alone, under the same index. */
  lemma DeltaSplits(calls: seq<ToolCall>, before: seq<ToolDelta>, d: ToolDelta, a: string, b: string,
                    after: seq<ToolDelta>)
    requires NonNegative(before) && NonNegative(after) && 0 <= d.index
    requires d.function_.Some? && d.function_.value.arguments == Some(a + b)
    ensures var first := d.(function_ := Some(d.function_.value.(arguments := Some(a))));
      var rest := ToolDelta(d.index, None, Some(FunctionDelta(None, Some(b))));
      && NonNegative(before + [d] + after) && NonNegative(before + [first, rest] + after)
      && FoldTools(calls, before + [d] + after) == FoldTools(calls, before + [first, rest] + after)
  {
    hide FoldTool;
    var first := d.(function_ := Some(d.function_.value.(arguments := Some(a))));
    var rest := ToolDelta(d.index, None, Some(FunctionDelta(None, Some(b))));
    var c := FoldTools(calls, before);
    ToolSplits(c, d, first, rest, a, b);
    TwoTools(c, first, rest);
    assert [d][..0] == [];
    assert FoldTools(c, [d]) == FoldTool(FoldTools(c, []), d);
    FoldToolsAppend(calls, before, [d]);
    FoldToolsAppend(calls, before, [first, rest]);
    FoldToolsAppend(calls, before + [d], after);
    FoldToolsAppend(calls, before + [first, rest], after);
  }

  lemma ToolSplits(calls: seq<ToolCall>, d: ToolDelta, first: ToolDelta, rest: ToolDelta, a: string, b: string)
    requires 0 <= d.index == first.index == rest.index && first.id == d.id && NameOf(first) == NameOf(d)
    requires rest.id == None && NameOf(rest) == None
    requires ArgumentsOf(d) == a + b && ArgumentsOf(first) == a && ArgumentsOf(rest) == b
    ensures FoldTool(FoldTool(calls, first), rest) == FoldTool(calls, d)
  {
    hide FoldTool, ArgumentsOf, NameOf;
    var split, whole := FoldTool(FoldTool(calls, first), rest), FoldTool(calls, d);
    ToolAt(calls, d, 0);
    ToolAt(calls, first, 0);
    ToolAt(FoldTool(calls, first), rest, 0);
    forall i | 0 <= i < |whole|
      ensures split[i] == whole[i]
    {
      ToolAt(calls, d, i);
      ToolAt(calls, first, i);
      ToolAt(FoldTool(calls, first), rest, i);
      var sofar := if i < |calls| then calls[i].arguments else "";
      assert sofar + a + b == sofar + (a + b);
    }
  }

  // ---------- What the last chunk decides ----------

  /** The choice keeps the index it began with, and its finish reason is that of the last chunk that has
    * the choice, `stop` when that chunk gives none: an earlier reason is not kept.
    */
  lemma {:induction false} LastReasonWins(chunks: seq<Chunk>, p: nat)
    requires chunks != [] && p < |chunks[0].choices| && ChunksOk(chunks)
    ensures Column(chunks, p) != []
    ensures FoldAt(chunks, p).index == chunks[0].choices[p].index
    ensures var column := Column(chunks, p);
      var reason := column[|column| - 1].finishReason;
      FoldAt(chunks, p).finishReason == if reason.Some? && reason.value != "" then reason.value else "stop"
  {
    hide FoldTools, PromptIds;
    var init, last := chunks[..|chunks| - 1], chunks[|chunks| - 1];
    if init == [] {
      assert Column(init, p) == [];
    } else {
      LastReasonWins(init, p);
    }
  }

  /** This chunk brings the prompt's token ids, and none after it does. */
  ghost predicate GivesLast(chunks: seq<Chunk>, k: int) {
    && 0 <= k < |chunks| && chunks[k].promptTokenIds.Some?
    && forall j :: k < j < |chunks| ==> chunks[j].promptTokenIds == None
  }

  /** A choice has the prompt's token ids that were given last, by the last chunk that has the choice at the latest. */
  lemma {:induction false} PromptIdsAreLast(chunks: seq<Chunk>, p: nat, last: nat)
    requires chunks != [] && p < |chunks[0].choices| && ChunksOk(chunks)
    requires last < |chunks| && p < |chunks[last].choices|
    requires forall j :: last < j < |chunks| ==> |chunks[j].choices| <= p
    ensures FoldAt(chunks, p).promptTokenIds == None <==>
      forall j :: 0 <= j <= last ==> chunks[j].promptTokenIds == None
    ensures forall k :: 0 <= k <= last && GivesLast(chunks[..last + 1], k) ==>
      FoldAt(chunks, p).promptTokenIds == chunks[k].promptTokenIds
  {
    hide FoldChoice;
    var init := chunks[..|chunks| - 1];
    FoldStep(chunks, p);
    if last < |chunks| - 1 {
      PromptIdsAreLast(init, p, last);
      assert init[..last + 1] == chunks[..last + 1];
    } else {
      assert chunks[..last + 1] == chunks;
      var before := if init == [] then InitChoice(chunks[last].choices[p]) else FoldAt(init, p);
      FoldChoicePrompt(before, chunks[last].choices[p], PromptIds(chunks));
      PromptIdsMeans(chunks);
      if init != [] {
        NoPromptYet(init, p);
      }
    }
  }

  lemma FoldChoicePrompt(before: Choice, c: ChunkChoice, promptTokenIds: Option<seq<int>>)
    requires NonNegative(OrEmpty(c.delta.toolCalls))
    ensures FoldChoice(before, c, promptTokenIds).promptTokenIds ==
      if promptTokenIds.None? then before.promptTokenIds else promptTokenIds
  {
  }

  lemma {:induction false} PromptIdsMeans(chunks: seq<Chunk>)
    ensures PromptIds(chunks) == None <==> forall j :: 0 <= j < |chunks| ==> chunks[j].promptTokenIds == None
    ensures forall k :: 0 <= k < |chunks| && GivesLast(chunks, k) ==> PromptIds(chunks) == chunks[k].promptTokenIds
  {
    if chunks == [] {
    } else {
      var init := chunks[..|chunks| - 1];
      PromptIdsMeans(init);
      forall k | 0 <= k < |init| && GivesLast(chunks, k)
        ensures GivesLast(init, k)
      {
      }
    }
  }

  lemma {:induction false} NoPromptYet(chunks: seq<Chunk>, p: nat)
    requires chunks != [] && p < |chunks[0].choices| && ChunksOk(chunks)
    ensures PromptIds(chunks) == None ==> FoldAt(chunks, p).promptTokenIds == None
  {
    hide FoldChoice;
    var init := chunks[..|chunks| - 1];
    FoldStep(chunks, p);
    if init != [] {
      NoPromptYet(init, p);
    }
    if p < |chunks[|chunks| - 1].choices| {
      var before := if init == [] then InitChoice(chunks[0].choices[p]) else FoldAt(init, p);
      FoldChoicePrompt(before, chunks[|chunks| - 1].choices[p], PromptIds(chunks));
    }
  }
}
