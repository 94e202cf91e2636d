/** Reading a buffered event stream: only `data: ` lines and the `[DONE]` mark of section 9.2 of the WHATWG
  * HTML Living Standard are known; what a payload decodes to is a parameter.
  */
module ServerSentEvents {

  import opened Wrappers
  import opened ChunkFold

  const DATA := "data: "
  const DONE := "[DONE]"

  /** `split("\n")` */
  function Lines(text: string): (lines: seq<string>)
    ensures lines != []
  {
    if text == "" then [""]
    else
      var rest := Lines(text[1..]);
      if text[0] == '\n' then [""] + rest else [[text[0]] + rest[0]] + rest[1..]
  }

  predicate IsSpace(c: char) {
    c == ' ' || c == '\t' || c == '\n' || c == '\r' || c == '\U{0B}' || c == '\U{0C}'
  }

  function Strip(s: string): string {
    if s != "" && IsSpace(s[0]) then Strip(s[1..])
    else if s != "" && IsSpace(s[|s| - 1]) then Strip(s[..|s| - 1])
    else s
  }

  function PayloadOf(line: string): Option<string> {
    var s := Strip(line);
    if |s| < |DATA| || s[..|DATA|] != DATA || s[|DATA|..] == DONE then None else Some(s[|DATA|..])
  }

  function PayloadsOf(lines: seq<string>): seq<string> {
    if lines == [] then []
    else
      var rest := PayloadsOf(lines[1..]);
      match PayloadOf(lines[0])
      case Some(p) => [p] + rest
      case None => rest
  }

  /** What reading the payloads comes to: chunks to fold, a payload that cannot be decoded, or a chunk whose
    * fold never ends.
    */
  datatype Reading = Read(chunks: seq<Chunk>) | Undecodable | Endless

  function Decoded(payloads: seq<string>, decode: string -> Option<Chunk>): Reading {
    if payloads == [] then Read([])
    else DecodedNext(Decoded(payloads[..|payloads| - 1], decode), decode(payloads[|payloads| - 1]))
  }

  function DecodedNext(sofar: Reading, chunk: Option<Chunk>): Reading {
    if !sofar.Read? then sofar
    else if chunk.None? then Undecodable
    else if ChunksOk(sofar.chunks + [chunk.value]) then Read(sofar.chunks + [chunk.value])
    else Endless
  }

  /** `NeverEnds` stands for a call that does not return. */
  datatype ParseError = BadPayload | NoChunks | NeverEnds

  /** `parse_sse_to_chat_completion`: the fold of the chunks of the payloads, in order. */
  method ParseToCompletion(text: string, decode: string -> Option<Chunk>)
    returns (completion: ChatCompletion?, error: Option<ParseError>)
    ensures match Decoded(PayloadsOf(Lines(text)), decode)
      case Undecodable => completion == null && error == Some(BadPayload)
      case Endless => completion == null && error == Some(NeverEnds)
      case Read(chunks) =>
        if chunks == [] then completion == null && error == Some(NoChunks)
        else completion != null && error.None? && fresh(completion) && completion.Is(chunks)
  {
    hide Lines, Strip, PayloadsOf, Decoded, Ends;
    var lines := Lines(text);
    completion, error := null, None;
    ghost var read: seq<string> := [];
    var chunks: seq<Chunk> := [];
    NothingLeft(lines, decode);
    for k := 0 to |lines|
      invariant read + PayloadsOf(lines[k..]) == PayloadsOf(lines)
      invariant Decoded(read, decode) == Read(chunks)
      invariant completion == null <==> chunks == []
      invariant completion != null ==> fresh(completion) && completion.Is(chunks)
    {
      LineStep(lines, k);
      var line := Strip(lines[k]);
      if |line| < |DATA| || line[..|DATA|] != DATA {
        continue;
      }
      var data := line[|DATA|..];
      if data == DONE {
        continue;
      }
      ghost var rest := PayloadsOf(lines[k + 1..]);
      assert read + ([data] + rest) == (read + [data]) + rest;
      DecodedStep(read, data, decode);
      var chunk := decode(data);
      if chunk.None? {
        FailureStays(read + [data], rest, decode);
        return null, Some(BadPayload);
      }
      if !ChunksOk(chunks + [chunk.value]) {
        FailureStays(read + [data], rest, decode);
        return null, Some(NeverEnds);
      }
      completion := Take(completion, chunk.value, chunks);
      read, chunks := read + [data], chunks + [chunk.value];
    }
    assert read + [] == read;
    error := if completion == null then Some(NoChunks) else None;
  }

  lemma LineStep(lines: seq<string>, k: nat)
    requires k < |lines|
    ensures var rest := PayloadsOf(lines[k + 1..]);
      PayloadsOf(lines[k..]) == match PayloadOf(lines[k]) case Some(p) => [p] + rest case None => rest
  {
    assert lines[k..][1..] == lines[k + 1..];
  }

  lemma NothingLeft(lines: seq<string>, decode: string -> Option<Chunk>)
    ensures lines[0..] == lines && PayloadsOf(lines[|lines|..]) == [] && Decoded([], decode) == Read([])
  {
  }

  lemma DecodedStep(read: seq<string>, data: string, decode: string -> Option<Chunk>)
    ensures Decoded(read + [data], decode) == DecodedNext(Decoded(read, decode), decode(data))
  {
    assert (read + [data])[..|read|] == read;
  }

  lemma {:induction false} FailureStays(a: seq<string>, b: seq<string>, decode: string -> Option<Chunk>)
    requires !Decoded(a, decode).Read?
    ensures Decoded(a + b, decode) == Decoded(a, decode)
  {
    if b == [] {
      assert a + b == a;
    } else {
      assert (a + b)[..|a + b| - 1] == a + b[..|b| - 1];
      FailureStays(a, b[..|b| - 1], decode);
    }
  }

  // ---------- What lines and payloads are ----------

  /** The ASCII white space. */
  const BLANKS := " \t\n\r\U{0B}\U{0C}"

  predicate Blank(s: string) {
    forall i :: 0 <= i < |s| ==> s[i] in BLANKS
  }

  function Joined(lines: seq<string>): string
    requires lines != []
  {
    if |lines| == 1 then lines[0] else lines[0] + "\n" + Joined(lines[1..])
  }

  /** Cutting at the line ends: joining the lines gives the text back, and no line has a line end. */
  lemma {:induction false} LinesJoin(text: string)
    ensures Joined(Lines(text)) == text
    ensures forall line :: line in Lines(text) ==> '\n' !in line
  {
    if text == "" {
    } else {
      var rest := Lines(text[1..]);
      LinesJoin(text[1..]);
      assert text == [text[0]] + text[1..];
      if text[0] == '\n' {
        assert ([""] + rest)[1..] == rest;
        assert "" + "\n" + text[1..] == text;
      } else {
        assert ([[text[0]] + rest[0]] + rest[1..])[1..] == rest[1..];
        if |rest| > 1 {
          assert [text[0]] + rest[0] + "\n" + Joined(rest[1..]) == [text[0]] + (rest[0] + "\n" + Joined(rest[1..]));
        }
      }
    }
  }

  lemma SpaceIsBlank(c: char)
    ensures IsSpace(c) <==> c in BLANKS
  {
    assert BLANKS[0] == ' ' && BLANKS[1] == '\t' && BLANKS[2] == '\n' && BLANKS[3] == '\r';
    assert BLANKS[4] == '\U{0B}' && BLANKS[5] == '\U{0C}';
  }

  /** What does not begin or end with a blank, with blanks around it, is what stripping gives. */
  lemma {:induction false} StripIs(a: string, s: string, b: string)
    requires Blank(a) && Blank(b) && (s != "" ==> s[0] !in BLANKS && s[|s| - 1] !in BLANKS)
    ensures Strip(a + s + b) == s
    decreases |a| + |b|
  {
    var all := a + s + b;
    forall c
      ensures IsSpace(c) <==> c in BLANKS
    {
      SpaceIsBlank(c);
    }
    if a != "" {
      assert all[1..] == a[1..] + s + b;
      StripIs(a[1..], s, b);
    } else if b != "" {
      if s == "" {
        assert all == b && all[1..] == "" + s + b[1..];
        StripIs("", s, b[1..]);
      } else {
        assert all[..|all| - 1] == a + s + b[..|b| - 1] && all[|all| - 1] == b[|b| - 1] && all[0] == s[0];
        StripIs(a, s, b[..|b| - 1]);
      }
    } else {
      assert all == s;
    }
  }

  /** The blanks that stripping takes off. */
  lemma {:induction false} StripCuts(s: string) returns (a: string, b: string)
    ensures Blank(a) && Blank(b) && s == a + Strip(s) + b
    ensures Strip(s) != "" ==> Strip(s)[0] !in BLANKS && Strip(s)[|Strip(s)| - 1] !in BLANKS
    decreases |s|
  {
    hide Strip, Blank, IsSpace;
    StripStep(s);
    if s != "" && IsSpace(s[0]) {
      SpaceIsBlank(s[0]);
      a, b := StripCuts(s[1..]);
      OneMore(s[0], a, Strip(s), b);
      assert s == [s[0]] + s[1..];
      a := [s[0]] + a;
    } else if s != "" && IsSpace(s[|s| - 1]) {
      SpaceIsBlank(s[|s| - 1]);
      a, b := StripCuts(s[..|s| - 1]);
      OneLess(a, Strip(s), b, s[|s| - 1]);
      assert s == s[..|s| - 1] + [s[|s| - 1]];
      b := b + [s[|s| - 1]];
    } else {
      if s != "" {
        SpaceIsBlank(s[0]);
        SpaceIsBlank(s[|s| - 1]);
      }
      a, b := "", "";
      assert s == a + s + b;
      assert Blank("") by { NoneIsBlank(); }
    }
  }

  lemma NoneIsBlank()
    ensures Blank("")
  {
  }

  lemma StripStep(s: string)
    ensures s != "" && IsSpace(s[0]) ==> Strip(s) == Strip(s[1..])
    ensures s != "" && !IsSpace(s[0]) && IsSpace(s[|s| - 1]) ==> Strip(s) == Strip(s[..|s| - 1])
    ensures s == "" || (!IsSpace(s[0]) && !IsSpace(s[|s| - 1])) ==> Strip(s) == s
  {
    hide IsSpace;
  }

  lemma OneMore(c: char, a: string, s: string, b: string)
    ensures [c] + (a + s + b) == ([c] + a) + s + b
    ensures Blank(a) && c in BLANKS ==> Blank([c] + a)
  {
  }

  lemma OneLess(a: string, s: string, b: string, c: char)
    ensures (a + s + b) + [c] == a + s + (b + [c])
    ensures Blank(b) && c in BLANKS ==> Blank(b + [c])
  {
  }

  /** Which lines carry which payload: those that are `data: `, the payload and blanks around, unless the payload
    * is empty, ends in a blank or is the end mark.
    */
  lemma PayloadIff(line: string, p: string)
    ensures PayloadOf(line) == Some(p) <==>
      && p != "" && p[|p| - 1] !in BLANKS && p != "[DONE]"
      && exists a, b :: Around(line, a, p, b)
  {
    hide Strip;
    var a, b := StripCuts(line);
    if PayloadOf(line) == Some(p) {
      var s := Strip(line);
      assert s == "data: " + p;
      assert s[|s| - 1] == if p == "" then ' ' else p[|p| - 1];
      assert BLANKS[0] == ' ';
      assert Around(line, a, p, b);
    }
    if p != "" && p[|p| - 1] !in BLANKS && p != "[DONE]" && exists a, b :: Around(line, a, p, b) {
      var c, d :| Around(line, c, p, d);
      var s := "data: " + p;
      assert s[0] == 'd' && s[|s| - 1] == p[|p| - 1];
      StripIs(c, s, d);
      assert s[..6] == "data: " && s[6..] == p;
    }
  }

  ghost predicate Around(line: string, a: string, p: string, b: string) {
    Blank(a) && Blank(b) && line == a + ("data: " + p) + b
  }

  /** What reading comes to, by what each payload decodes to: the chunks, when all decode and can be folded;
    * otherwise it stops at the first that does not decode, or that brings a negative index.
    */
  lemma {:induction false} DecodedIff(payloads: seq<string>, decode: string -> Option<Chunk>, chunks: seq<Chunk>)
    ensures Decoded(payloads, decode) == Read(chunks) <==>
      && |chunks| == |payloads|
      && (forall i :: 0 <= i < |payloads| ==> decode(payloads[i]) == Some(chunks[i]))
      && ChunksOk(chunks)
  {
    hide ChunksOk;
    if payloads == [] {
      assert ChunksOk([]) by { NoneIsOk(); }
    } else {
      var n := |payloads| - 1;
      if |chunks| == n + 1 {
        DecodedIff(payloads[..n], decode, chunks[..n]);
        assert chunks == chunks[..n] + [chunks[n]];
        if ChunksOk(chunks) {
          OkInit(chunks);
        }
      }
      var before := Decoded(payloads[..n], decode);
      if before.Read? {
        DecodedIff(payloads[..n], decode, before.chunks);
      }
    }
  }

  lemma NoneIsOk()
    ensures ChunksOk([])
  {
  }

  lemma OkInit(chunks: seq<Chunk>)
    requires ChunksOk(chunks) && chunks != []
    ensures ChunksOk(chunks[..|chunks| - 1])
  {
    hide Ends;
    assert forall c :: c in chunks[..|chunks| - 1] ==> c in chunks;
  }

  /** The first payload that stops the reading says how. */
  lemma DecodedStops(payloads: seq<string>, decode: string -> Option<Chunk>, k: nat, chunks: seq<Chunk>)
    requires k < |payloads| && Decoded(payloads[..k], decode) == Read(chunks)
    ensures decode(payloads[k]) == None ==> Decoded(payloads, decode) == Undecodable
    ensures decode(payloads[k]).Some? && !ChunksOk(chunks + [decode(payloads[k]).value]) ==>
      Decoded(payloads, decode) == Endless
  {
    hide ChunksOk, Decoded;
    DecodedStep(payloads[..k], payloads[k], decode);
    var upTo, rest := payloads[..k] + [payloads[k]], payloads[k + 1..];
    assert payloads == upTo + rest;
    if !Decoded(upTo, decode).Read? {
      FailureStays(upTo, rest, decode);
    }
  }

  // ---------- The round trip ----------

  /** What a server can send as data: one line, not blank at its end, and not the end mark. */
  predicate IsPayload(p: string) {
    p != "" && '\n' !in p && p[|p| - 1] !in BLANKS && p != "[DONE]"
  }

  function Print(payloads: seq<string>): string {
    if payloads == [] then "data: [DONE]\n\n" else "data: " + payloads[0] + "\n\n" + Print(payloads[1..])
  }

  lemma {:induction false} LineEnds(line: string, text: string)
    requires '\n' !in line
    ensures Lines(line + "\n" + text) == [line] + Lines(text)
  {
    if line == "" {
      assert (line + "\n" + text)[1..] == text;
    } else {
      assert (line + "\n" + text)[1..] == line[1..] + "\n" + text;
      LineEnds(line[1..], text);
      assert [line[0]] + line[1..] == line;
    }
  }

  lemma EventLines(data: string, text: string)
    requires '\n' !in data
    ensures Lines(DATA + data + "\n\n" + text) == [DATA + data, ""] + Lines(text)
  {
    LineEnds(DATA + data, "\n" + text);
    LineEnds("", text);
    assert "" + "\n" + text == "\n" + text;
    assert DATA + data + "\n\n" + text == (DATA + data) + "\n" + ("\n" + text);
  }

  lemma EventPayload(data: string)
    requires data != "" && data[|data| - 1] !in BLANKS
    ensures PayloadOf(DATA + data) == if data == "[DONE]" then None else Some(data)
    ensures PayloadOf("") == None
  {
    hide Strip;
    assert "" + ("data: " + data) + "" == "data: " + data;
    if data != "[DONE]" {
      assert Around("data: " + data, "", data, "");
      PayloadIff("data: " + data, data);
    } else {
      StripIs("", "data: [DONE]", "");
      assert "" + "data: [DONE]" + "" == "data: " + "[DONE]";
    }
    StripIs("", "", "");
    assert "" + "" + "" == "";
  }

  lemma EventPayloads(data: string, lines: seq<string>)
    requires data != "" && data[|data| - 1] !in BLANKS
    ensures PayloadsOf([DATA + data, ""] + lines) == (if data == "[DONE]" then [] else [data]) + PayloadsOf(lines)
  {
    hide PayloadOf;
    EventPayload(data);
    var all := [DATA + data, ""] + lines;
    assert all[1..] == [""] + lines && all[1..][1..] == lines;
    assert PayloadsOf(all[1..]) == PayloadsOf(lines);
  }

  /** Reading what was printed gives the payloads back, whatever they are. */
  lemma {:induction false} PayloadsComeBack(payloads: seq<string>)
    requires forall p :: p in payloads ==> IsPayload(p)
    ensures PayloadsOf(Lines(Print(payloads))) == payloads
  {
    hide PayloadOf, Lines;
    if payloads == [] {
      assert "data: [DONE]\n\n" == DATA + "[DONE]" + "\n\n" + "";
      EventLines("[DONE]", "");
      EventPayloads("[DONE]", Lines(""));
      BlankHasNone();
    } else {
      assert IsPayload(payloads[0]);
      EventLines(payloads[0], Print(payloads[1..]));
      EventPayloads(payloads[0], Lines(Print(payloads[1..])));
      PayloadsComeBack(payloads[1..]);
    }
  }

  lemma BlankHasNone()
    ensures PayloadsOf(Lines("")) == []
  {
    assert PayloadsOf([""]) == PayloadsOf([""][1..]);
  }
}
