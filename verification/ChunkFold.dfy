/** Building one chat completion out of a stream of chunks. */
module ChunkFold {

  import opened Wrappers

  // ---------- Chunks and completions ----------

  datatype FunctionDelta = FunctionDelta(name: Option<string>, arguments: Option<string>)

  datatype ToolDelta = ToolDelta(index: int, id: Option<string>, function_: Option<FunctionDelta>)

  datatype Delta = Delta(content: Option<string>, refusal: Option<string>, reasoning: Option<string>,
                         functionCall: Option<FunctionDelta>, toolCalls: Option<seq<ToolDelta>>)

  /** Log probabilities of the tokens of the content and of the refusal; a token is told by its identity. */
  datatype Logprobs = Logprobs(content: Option<seq<int>>, refusal: Option<seq<int>>)

  datatype ChunkChoice = ChunkChoice(index: int, delta: Delta, finishReason: Option<string>,
                                     tokenIds: Option<seq<int>>, logprobs: Option<Logprobs>)

  /** service_tier, system_fingerprint and usage */
  datatype Trailer = Trailer(serviceTier: Option<string>, systemFingerprint: Option<string>, usage: Option<nat>)

  datatype Chunk = Chunk(choices: seq<ChunkChoice>, promptTokenIds: Option<seq<int>>, trailer: Trailer)

  datatype ToolCall = ToolCall(id: string, name: string, arguments: string)

  datatype FunctionCall = FunctionCall(name: string, arguments: string)

  datatype Choice = Choice(index: int, finishReason: string, content: Option<string>, refusal: Option<string>,
                           reasoning: Option<string>, functionCall: Option<FunctionCall>,
                           toolCalls: Option<seq<ToolCall>>, tokenIds: Option<seq<int>>,
                           logprobs: Option<Logprobs>, promptTokenIds: Option<seq<int>>)

  // ---------- Folding one delta ----------

  function OrEmpty<T>(x: Option<seq<T>>): seq<T> {
    if x.None? then [] else x.value
  }

  /** An absent or empty piece is falsy, and leaves what there is. */
  function Extend<T>(sofar: Option<seq<T>>, piece: Option<seq<T>>): Option<seq<T>> {
    if OrEmpty(piece) == [] then sofar else Some(OrEmpty(sofar) + piece.value)
  }

  /** The first that is present and not empty, else the second. */
  function Or(x: Option<string>, y: string): string {
    if OrEmpty(x) == "" then y else x.value
  }

  function ExtendLogprobs(sofar: Option<Logprobs>, piece: Option<Logprobs>): Option<Logprobs> {
    match piece
    case None => sofar
    case Some(p) =>
      var s := if sofar.None? then Logprobs(None, None) else sofar.value;
      Some(Logprobs(Extend(s.content, p.content), Extend(s.refusal, p.refusal)))
  }

  function ExtendCall(sofar: Option<FunctionCall>, piece: Option<FunctionDelta>): Option<FunctionCall> {
    match piece
    case None => sofar
    case Some(p) =>
      var s := if sofar.None? then FunctionCall("", "") else sofar.value;
      Some(FunctionCall(s.name + OrEmpty(p.name), s.arguments + OrEmpty(p.arguments)))
  }

  const NO_CALL := ToolCall("", "", "")

  function Padded(calls: seq<ToolCall>, n: nat): (padded: seq<ToolCall>)
    ensures |padded| == if |calls| < n then n else |calls|
    ensures forall i :: 0 <= i < |padded| ==> padded[i] == if i < |calls| then calls[i] else NO_CALL
  {
    if |calls| < n then calls + seq(n - |calls|, i => NO_CALL) else calls
  }

  function NameOf(d: ToolDelta): Option<string> {
    if d.function_.None? then None else d.function_.value.name
  }

  function ArgumentsOf(d: ToolDelta): string {
    if d.function_.None? then "" else OrEmpty(d.function_.value.arguments)
  }

  function FoldTool(calls: seq<ToolCall>, d: ToolDelta): (r: seq<ToolCall>)
    requires 0 <= d.index
  {
    var padded := Padded(calls, d.index + 1);
    var call := padded[d.index];
    padded[d.index := ToolCall(Or(d.id, call.id), Or(NameOf(d), call.name), call.arguments + ArgumentsOf(d))]
  }

  predicate NonNegative(deltas: seq<ToolDelta>) {
    forall d :: d in deltas ==> 0 <= d.index
  }

  function FoldTools(calls: seq<ToolCall>, deltas: seq<ToolDelta>): seq<ToolCall>
    requires NonNegative(deltas)
  {
    if deltas == [] then calls
    else FoldTool(FoldTools(calls, deltas[..|deltas| - 1]), deltas[|deltas| - 1])
  }

  /** Folding the chunk into a completion of that many choices comes to an end: it reaches no negative index. */
  predicate Ends(width: nat, chunk: Chunk) {
    forall p :: 0 <= p < width && p < |chunk.choices| ==> NonNegative(OrEmpty(chunk.choices[p].delta.toolCalls))
  }

  function FoldChoice(choice: Choice, c: ChunkChoice, promptTokenIds: Option<seq<int>>): Choice
    requires NonNegative(OrEmpty(c.delta.toolCalls))
  {
    var tools := OrEmpty(c.delta.toolCalls);
    Choice(choice.index, Or(c.finishReason, "stop"), Extend(choice.content, c.delta.content),
           Extend(choice.refusal, c.delta.refusal), Extend(choice.reasoning, c.delta.reasoning),
           ExtendCall(choice.functionCall, c.delta.functionCall),
           if tools == [] then choice.toolCalls else Some(FoldTools(OrEmpty(choice.toolCalls), tools)),
           Extend(choice.tokenIds, c.tokenIds), ExtendLogprobs(choice.logprobs, c.logprobs),
           if promptTokenIds.None? then choice.promptTokenIds else promptTokenIds)
  }

  function InitChoice(c: ChunkChoice): Choice {
    Choice(c.index, "stop", None, None, None, None, None, None,
           if c.logprobs.None? then None else Some(Logprobs(None, None)), None)
  }

  // ---------- The completion that the chunks update ----------

  /** The loop that makes room for a tool call. Its test is "not in range", so it only ends for an index
    * that is not negative.
    */
  method MakeRoom(calls: seq<ToolCall>, index: int) returns (padded: seq<ToolCall>)
    requires 0 <= index
    ensures padded == Padded(calls, index + 1)
  {
    padded := calls;
    while !(0 <= index < |padded|)
      invariant |calls| <= |padded| && (|padded| <= index + 1 || padded == calls)
      invariant padded == Padded(calls, |padded|)
      decreases index - |padded|
    {
      padded := padded + [NO_CALL];
    }
  }

  /** The calls after so many rounds of that loop, which runs while the index is not in range. */
  function PaddingRounds(calls: seq<ToolCall>, index: int, rounds: nat): seq<ToolCall> {
    if rounds == 0 then calls
    else
      var padded := PaddingRounds(calls, index, rounds - 1);
      if 0 <= index < |padded| then padded else padded + [NO_CALL]
  }

  lemma {:induction false} RoundsPad(calls: seq<ToolCall>, index: int, rounds: nat)
    ensures |PaddingRounds(calls, index, rounds)| <= |calls| + rounds
    ensures !(0 <= index < |PaddingRounds(calls, index, rounds)|) ==>
      |PaddingRounds(calls, index, rounds)| == |calls| + rounds
  {
    if rounds == 0 {
    } else {
      RoundsPad(calls, index, rounds - 1);
    }
  }

  lemma {:induction false} RoundsStop(calls: seq<ToolCall>, index: nat, rounds: nat)
    ensures PaddingRounds(calls, index, rounds) ==
      Padded(calls, if |calls| + rounds <= index then |calls| + rounds else index + 1)
  {
    if rounds == 0 {
    } else {
      RoundsStop(calls, index, rounds - 1);
    }
  }

  /** Folding ends for exactly the chunks that bring no negative index to a choice that the completion has. */
  lemma EndsIff(width: nat, chunk: Chunk)
    ensures Ends(width, chunk) <==>
      forall p, k :: 0 <= p < width && p < |chunk.choices| && chunk.choices[p].delta.toolCalls.Some?
                     && 0 <= k < |chunk.choices[p].delta.toolCalls.value| ==>
        0 <= chunk.choices[p].delta.toolCalls.value[k].index
  {
  }

  /** The loop ends exactly for an index that is not negative, with the calls padded up to it: for any other it runs
    * for any number of rounds.
    */
  lemma PaddingEnds(calls: seq<ToolCall>, index: int)
    ensures 0 <= index <==> exists rounds: nat :: 0 <= index < |PaddingRounds(calls, index, rounds)|
    ensures 0 <= index ==> forall rounds: nat :: index < rounds ==>
      PaddingRounds(calls, index, rounds) == Padded(calls, index + 1)
    ensures index < 0 ==> forall rounds: nat :: |PaddingRounds(calls, index, rounds)| == |calls| + rounds
  {
    forall rounds: nat
      ensures !(0 <= index < |PaddingRounds(calls, index, rounds)|) ==>
        |PaddingRounds(calls, index, rounds)| == |calls| + rounds
    {
      RoundsPad(calls, index, rounds);
    }
    if 0 <= index {
      forall rounds: nat | index < rounds
        ensures PaddingRounds(calls, index, rounds) == Padded(calls, index + 1)
      {
        RoundsStop(calls, index, rounds);
      }
      assert 0 <= index < |PaddingRounds(calls, index, index + 1)|;
    }
  }

  method ApplyToolDelta(calls: seq<ToolCall>, d: ToolDelta) returns (r: seq<ToolCall>)
    requires 0 <= d.index
    ensures r == FoldTool(calls, d)
  {
    r := MakeRoom(calls, d.index);
    if OrEmpty(d.id) != "" {
      r := r[d.index := r[d.index].(id := d.id.value)];
    }
    if d.function_.Some? {
      if OrEmpty(d.function_.value.name) != "" {
        r := r[d.index := r[d.index].(name := d.function_.value.name.value)];
      }
      if OrEmpty(d.function_.value.arguments) != "" {
        r := r[d.index := r[d.index].(arguments := r[d.index].arguments + d.function_.value.arguments.value)];
      }
    }
    assert r == Padded(calls, d.index + 1)[d.index := r[d.index]];
    assert r[d.index].arguments == Padded(calls, d.index + 1)[d.index].arguments + ArgumentsOf(d);
  }

  method ApplyToolDeltas(calls: seq<ToolCall>, deltas: seq<ToolDelta>) returns (r: seq<ToolCall>)
    requires NonNegative(deltas)
    ensures r == FoldTools(calls, deltas)
  {
    hide FoldTool;
    r := calls;
    for k := 0 to |deltas|
      invariant r == FoldTools(calls, deltas[..k])
    {
      assert deltas[..k + 1][..k] == deltas[..k];
      r := ApplyToolDelta(r, deltas[k]);
    }
    assert deltas[..|deltas|] == deltas;
  }

  method Append<T>(sofar: Option<seq<T>>, piece: Option<seq<T>>) returns (r: Option<seq<T>>)
    ensures r == Extend(sofar, piece)
  {
    r := sofar;
    if piece.Some? && |piece.value| > 0 {
      if r.None? {
        r := Some([]);
      }
      r := Some(r.value + piece.value);
    }
  }

  /** The body of the loop over the choices. */
  method ApplyChoice(before: Choice, c: ChunkChoice, promptTokenIds: Option<seq<int>>) returns (choice: Choice)
    requires NonNegative(OrEmpty(c.delta.toolCalls))
    ensures choice == FoldChoice(before, c, promptTokenIds)
  {
    hide Extend, FoldTools;
    choice := before;
    if promptTokenIds.Some? {
      choice := choice.(promptTokenIds := promptTokenIds);
    }
    var tokenIds := Append(choice.tokenIds, c.tokenIds);
    choice := choice.(tokenIds := tokenIds, finishReason := Or(c.finishReason, "stop"));
    if c.logprobs.Some? {
      if choice.logprobs.None? {
        choice := choice.(logprobs := Some(Logprobs(None, None)));
      }
      var ofContent := Append(choice.logprobs.value.content, c.logprobs.value.content);
      var ofRefusal := Append(choice.logprobs.value.refusal, c.logprobs.value.refusal);
      choice := choice.(logprobs := Some(Logprobs(ofContent, ofRefusal)));
    }
    var content := Append(choice.content, c.delta.content);
    var refusal := Append(choice.refusal, c.delta.refusal);
    choice := choice.(content := content, refusal := refusal);
    if c.delta.functionCall.Some? {
      if choice.functionCall.None? {
        choice := choice.(functionCall := Some(FunctionCall("", "")));
      }
      var call, piece := choice.functionCall.value, c.delta.functionCall.value;
      choice := choice.(functionCall :=
        Some(FunctionCall(call.name + OrEmpty(piece.name), call.arguments + OrEmpty(piece.arguments))));
    }
    if OrEmpty(c.delta.toolCalls) != [] {
      var calls := ApplyToolDeltas(OrEmpty(choice.toolCalls), c.delta.toolCalls.value);
      choice := choice.(toolCalls := Some(calls));
    }
    var reasoning := Append(choice.reasoning, c.delta.reasoning);
    choice := choice.(reasoning := reasoning);
  }

  /** The state after these chunks, position by position. */
  function PromptIds(chunks: seq<Chunk>): Option<seq<int>> {
    if chunks == [] then None
    else if chunks[|chunks| - 1].promptTokenIds.Some? then chunks[|chunks| - 1].promptTokenIds
    else PromptIds(chunks[..|chunks| - 1])
  }

  /** Folding all these chunks comes to an end; the first one says how many choices there are. */
  predicate ChunksOk(chunks: seq<Chunk>) {
    chunks != [] ==> forall c :: c in chunks ==> Ends(|chunks[0].choices|, c)
  }

  ghost function FoldAt(chunks: seq<Chunk>, p: nat): Choice
    requires chunks != [] && p < |chunks[0].choices| && ChunksOk(chunks)
  {
    var last := chunks[|chunks| - 1];
    var before := if |chunks| == 1 then InitChoice(last.choices[p]) else FoldAt(chunks[..|chunks| - 1], p);
    if p < |last.choices| then
      assert last in chunks && Ends(|chunks[0].choices|, last);
      FoldChoice(before, last.choices[p], PromptIds(chunks))
    else before
  }

  class ChatCompletion {
    var choices: seq<Choice>
    var promptTokenIds: Option<seq<int>>
    var trailer: Trailer

    /** The completion is what these chunks fold to. */
    ghost predicate Is(chunks: seq<Chunk>)
      reads this
    {
      && chunks != [] && ChunksOk(chunks)
      && promptTokenIds == PromptIds(chunks)
      && trailer == chunks[|chunks| - 1].trailer
      && |choices| == |chunks[0].choices|
      && forall p :: 0 <= p < |choices| ==> choices[p] == FoldAt(chunks, p)
    }

    /** `init_chat_completion`, which leaves all but the number of choices to the update with that chunk. */
    constructor (chunk: Chunk)
      ensures |choices| == |chunk.choices| && promptTokenIds == None
      ensures forall p :: 0 <= p < |choices| ==> choices[p] == InitChoice(chunk.choices[p])
    {
      choices := seq(|chunk.choices|, p requires 0 <= p < |chunk.choices| => InitChoice(chunk.choices[p]));
      promptTokenIds, trailer := None, Trailer(None, None, None);
    }

    /** `update_chat_completion`: choices are matched by position, as far as both sides have them. */
    method Update(chunk: Chunk)
      requires Ends(|choices|, chunk)
      modifies this
      ensures promptTokenIds == if chunk.promptTokenIds.Some? then chunk.promptTokenIds else old(promptTokenIds)
      ensures trailer == chunk.trailer && |choices| == old(|choices|)
      ensures forall p :: 0 <= p < |choices| && p < |chunk.choices| ==>
        choices[p] == FoldChoice(old(choices)[p], chunk.choices[p], promptTokenIds)
      ensures forall p :: 0 <= p < |choices| && |chunk.choices| <= p ==> choices[p] == old(choices)[p]
    {
      if chunk.promptTokenIds.Some? {
        promptTokenIds := chunk.promptTokenIds;
      }
      var n := if |choices| < |chunk.choices| then |choices| else |chunk.choices|;
      for p := 0 to n
        invariant |choices| == old(|choices|)
        invariant promptTokenIds == if chunk.promptTokenIds.Some? then chunk.promptTokenIds else old(promptTokenIds)
        invariant forall q :: 0 <= q < p ==> choices[q] == FoldChoice(old(choices)[q], chunk.choices[q], promptTokenIds)
        invariant forall q :: p <= q < |choices| ==> choices[q] == old(choices)[q]
      {
        var choice := ApplyChoice(choices[p], chunk.choices[p], promptTokenIds);
        choices := choices[p := choice];
      }
      trailer := chunk.trailer;
    }
  }

  /** The first chunk makes the completion; every chunk, the first one too, updates it. */
  method Take(sofar: ChatCompletion?, chunk: Chunk, ghost chunks: seq<Chunk>) returns (completion: ChatCompletion)
    requires ChunksOk(chunks + [chunk])
    requires sofar == null <==> chunks == []
    requires sofar != null ==> sofar.Is(chunks)
    modifies if sofar == null then {} else {sofar}
    ensures if sofar == null then fresh(completion) else completion == sofar
    ensures completion.Is(chunks + [chunk])
  {
    assert (chunks + [chunk])[..|chunks|] == chunks && chunk in chunks + [chunk];
    if sofar == null {
      completion := new ChatCompletion(chunk);
    } else {
      completion := sofar;
    }
    completion.Update(chunk);
  }

  /** `consume_sync_chat_completion_stream`; null where the source's assertion fails. */
  method ConsumeStream(chunks: seq<Chunk>) returns (completion: ChatCompletion?)
    requires ChunksOk(chunks)
    ensures completion == null <==> chunks == []
    ensures completion != null ==> fresh(completion) && completion.Is(chunks)
    ensures completion != null ==>
      && |completion.choices| == |chunks[0].choices| && completion.trailer == chunks[|chunks| - 1].trailer
      && forall p :: 0 <= p < |completion.choices| ==> completion.choices[p] == FoldAt(chunks, p)
  {
    completion := null;
    for k := 0 to |chunks|
      invariant completion == null <==> k == 0
      invariant completion != null ==> fresh(completion) && completion.Is(chunks[..k])
    {
      assert chunks[..k] + [chunks[k]] == chunks[..k + 1];
      assert forall c :: c in chunks[..k + 1] ==> c in chunks;
      completion := Take(completion, chunks[k], chunks[..k]);
    }
    assert chunks[..|chunks|] == chunks;
  }
}
