/** Capturing conversations: every response goes to the first history that its request continues. */
module Histories {

  import opened Wrappers

  /** The `content` of a message as JSON has it: missing, null, a string, or something else. */
  datatype Content = Missing | Null | Text(text: string) | Parts(id: int)

  /** `extra` stands for the other keys together; `toolCalls` is None where the key is missing. */
  datatype Message = Message(role: string, content: Content, toolCalls: Option<seq<int>>, extra: Option<int>)

  datatype Choice = Choice(id: int, content: Option<string>, toolCalls: Option<seq<int>>)

  datatype Item = Sent(message: Message) | Reply(choice: Choice)

  datatype History = History(items: seq<Item>, tools: Option<int>)

  /** A trajectory: a history of its own, and the additional ones. */
  datatype Capture = Capture(main: History, additional: seq<History>)

  /** A response with its request: no messages where it is not a chat request, no reply where the response
    * cannot be read.
    */
  datatype Exchange = Exchange(messages: Option<seq<Message>>, tools: Option<int>, reply: Option<Choice>)

  // ---------- Messages ----------

  function MessageOf(choice: Choice): Message {
    var calls := if choice.toolCalls.None? then [] else choice.toolCalls.value;
    Message("assistant", Text(if choice.content.None? then "" else choice.content.value),
            if calls == [] then None else Some(calls), None)
  }

  function Normal(m: Message): Message {
    if m.content.Missing? || m.content.Null? then m.(content := Text("")) else m
  }

  function Normals(ms: seq<Message>): (r: seq<Message>)
    ensures |r| == |ms| && forall i :: 0 <= i < |ms| ==> r[i] == Normal(ms[i])
  {
    seq(|ms|, i requires 0 <= i < |ms| => Normal(ms[i]))
  }

  function MessageIn(item: Item): Message {
    match item
    case Sent(m) => Normal(m)
    case Reply(choice) => MessageOf(choice)
  }

  function Messages(items: seq<Item>): (r: seq<Message>)
    ensures |r| == |items| && forall i :: 0 <= i < |items| ==> r[i] == MessageIn(items[i])
  {
    seq(|items|, i requires 0 <= i < |items| => MessageIn(items[i]))
  }

  method GetMessages(items: seq<Item>) returns (messages: seq<Message>)
    ensures messages == Messages(items)
    ensures |messages| == |items| && forall i :: 0 <= i < |items| ==> ReadsAs(items[i], messages[i])
  {
    messages := [];
    for k := 0 to |items|
      invariant |messages| == k && forall i :: 0 <= i < k ==> messages[i] == MessageIn(items[i])
    {
      match items[k]
      case Reply(choice) =>
        var calls := if choice.toolCalls.Some? then choice.toolCalls.value else [];
        var content := if choice.content.Some? then choice.content.value else "";
        var message := Message("assistant", Text(content), None, None);
        if calls != [] {
          message := message.(toolCalls := Some(calls));
        }
        messages := messages + [message];
      case Sent(m) =>
        var message := m;
        if m.content.Missing? || m.content.Null? {
          message := message.(content := Text(""));
        }
        messages := messages + [message];
    }
    MessagesRead(items, messages);
  }

  // ---------- How items read ----------

  /** The message is the reply, field by field: tool calls only where there are some. */
  ghost predicate ComesBack(choice: Choice, m: Message) {
    && m.role == "assistant" && m.extra == None
    && (choice.content == None ==> m.content == Text(""))
    && (choice.content.Some? ==> m.content == Text(choice.content.value))
    && (choice.toolCalls.Some? && |choice.toolCalls.value| > 0 ==> m.toolCalls == choice.toolCalls)
    && (choice.toolCalls == None || choice.toolCalls == Some([]) ==> m.toolCalls == None)
  }

  ghost predicate HasContent(m: Message) {
    m.content != Missing && m.content != Null
  }

  /** The same message, with an empty text where it has no content. */
  ghost predicate Reads(sent: Message, m: Message) {
    && m.role == sent.role && m.toolCalls == sent.toolCalls && m.extra == sent.extra
    && m.content == if HasContent(sent) then sent.content else Text("")
  }

  ghost predicate ReadsAs(item: Item, m: Message) {
    match item
    case Sent(sent) => Reads(sent, m)
    case Reply(choice) => ComesBack(choice, m)
  }

  /** What a list of messages and replies reads as, item by item and field by field. */
  lemma MessagesRead(items: seq<Item>, ms: seq<Message>)
    ensures ms == Messages(items) <==>
      |ms| == |items| && forall i :: 0 <= i < |items| ==> ReadsAs(items[i], ms[i])
  {
    forall i | 0 <= i < |items| && i < |ms|
      ensures ReadsAs(items[i], ms[i]) <==> ms[i] == MessageIn(items[i])
    {
      ItemReads(items[i], ms[i]);
    }
  }

  lemma ItemReads(item: Item, m: Message)
    ensures ReadsAs(item, m) <==> m == MessageIn(item)
  {
  }

  lemma ReadingAsSent(m: Message)
    ensures Normal(m) == m <==> HasContent(m)
    ensures Reads(m, Normal(m))
  {
  }

  function SentAll(ms: seq<Message>): (r: seq<Item>)
    ensures |r| == |ms| && forall i :: 0 <= i < |ms| ==> r[i] == Sent(ms[i])
  {
    seq(|ms|, i requires 0 <= i < |ms| => Sent(ms[i]))
  }

  // ---------- Choosing and extending a history ----------

  predicate Continues(h: History, messages: seq<Message>, tools: Option<int>) {
    var sofar := Messages(h.items);
    sofar <= messages && (h.tools == tools || (sofar == [] && h.tools.None?))
  }

  function Extended(h: History, messages: seq<Message>, tools: Option<int>, reply: Choice): History {
    var n := |h.items|;
    History(h.items + SentAll(if n <= |messages| then messages[n..] else []) + [Reply(reply)], tools)
  }

  const NEW := History([], None)

  function HistoryAt(c: Capture, k: nat): History {
    if k == 0 then c.main else if k <= |c.additional| then c.additional[k - 1] else NEW
  }

  /** The first history from k on that the request continues, or the place after the last. */
  function Chosen(c: Capture, k: nat, messages: seq<Message>, tools: Option<int>): (r: nat)
    requires k <= |c.additional| + 1
    ensures k <= r <= |c.additional| + 1
    ensures forall i :: k <= i < r ==> !Continues(HistoryAt(c, i), messages, tools)
    ensures Continues(HistoryAt(c, r), messages, tools)
    decreases |c.additional| + 1 - k
  {
    if k == |c.additional| + 1 || Continues(HistoryAt(c, k), messages, tools) then k
    else Chosen(c, k + 1, messages, tools)
  }

  function WithHistory(c: Capture, k: nat, h: History): Capture
    requires k <= |c.additional| + 1
  {
    if k == 0 then c.(main := h)
    else if k <= |c.additional| then c.(additional := c.additional[k - 1 := h])
    else c.(additional := c.additional + [h])
  }

  function Handled(c: Capture, e: Exchange): Capture {
    if e.messages.None? || e.reply.None? then c
    else
      var k := Chosen(c, 0, e.messages.value, e.tools);
      WithHistory(c, k, Extended(HistoryAt(c, k), e.messages.value, e.tools, e.reply.value))
  }

  class AutoTrajectoryContext {
    var main: History
    var additional: seq<History>

    constructor ()
      ensures State() == Capture(NEW, [])
    {
      main, additional := NEW, [];
    }

    ghost function State(): Capture
      reads this
    {
      Capture(main, additional)
    }

    method HandleResponse(e: Exchange)
      modifies this
      ensures State() == Handled(old(State()), e)
    {
      if e.messages.None? || e.reply.None? {
        return;
      }
      var messages, tools := e.messages.value, e.tools;
      var history, index := main, -1;
      while true
        invariant -1 <= index < |additional|
        invariant history == HistoryAt(State(), index + 1)
        invariant State() == old(State())
        invariant Chosen(State(), 0, messages, tools) == Chosen(State(), index + 1, messages, tools)
        decreases |additional| - index
      {
        var sofar := GetMessages(history.items);
        var head := if |sofar| <= |messages| then messages[..|sofar|] else messages;
        if sofar == head && (history.tools == tools || (sofar == [] && history.tools.None?)) {
          break;
        }
        index := index + 1;
        if index < |additional| {
          history := additional[index];
        } else {
          history := History([], None);
          additional := additional + [history];
          break;
        }
      }
      assert index + 1 == Chosen(old(State()), 0, messages, tools);
      assert history == HistoryAt(old(State()), index + 1);
      var n := |history.items|;
      history := History(history.items + SentAll(if n <= |messages| then messages[n..] else []), history.tools);
      history := History(history.items + [Reply(e.reply.value)], tools);
      if index == -1 {
        main := history;
      } else {
        additional := additional[index := history];
      }
    }
  }

  // ---------- What a handled response does ----------

  /** A response that can be read adds exactly one reply, to one history; the other histories keep what
    * they have, and no more than one history is made.
    */
  lemma OneHistoryGrows(c: Capture, e: Exchange) returns (k: nat)
    requires e.messages.Some? && e.reply.Some?
    ensures k <= |c.additional| + 1
    ensures forall i: nat :: i != k ==> HistoryAt(Handled(c, e), i) == HistoryAt(c, i)
    ensures |Handled(c, e).additional| == if k == |c.additional| + 1 then k else |c.additional|
    ensures var before, after := HistoryAt(c, k).items, HistoryAt(Handled(c, e), k).items;
      && |before| < |after| && before <= after
      && after[|after| - 1] == Reply(e.reply.value)
      && forall i :: |before| <= i < |after| - 1 ==> after[i].Sent?
  {
    k := Chosen(c, 0, e.messages.value, e.tools);
  }

  /** The request repeats all that this history reads as, under the same tools; an empty one has no tools yet. */
  ghost predicate GoesOn(h: History, messages: seq<Message>, tools: Option<int>) {
    && |h.items| <= |messages|
    && (forall i :: 0 <= i < |h.items| ==> ReadsAs(h.items[i], messages[i]))
    && (h.tools == tools || (h.items == [] && h.tools == None))
  }

  lemma ContinuesGoesOn(h: History, messages: seq<Message>, tools: Option<int>)
    ensures Continues(h, messages, tools) <==> GoesOn(h, messages, tools)
  {
    hide ReadsAs, MessageIn;
    if |h.items| <= |messages| {
      MessagesRead(h.items, messages[..|h.items|]);
    }
  }

  /** The history that a response changes is the first one that its request goes on with, or a new one where it
    * goes on with none.
    */
  lemma FirstThatGoesOn(c: Capture, e: Exchange, k: nat)
    requires e.messages.Some? && e.reply.Some? && k <= |c.additional|
    ensures HistoryAt(Handled(c, e), k) != HistoryAt(c, k) <==>
      && GoesOn(HistoryAt(c, k), e.messages.value, e.tools)
      && forall i: nat :: i < k ==> !GoesOn(HistoryAt(c, i), e.messages.value, e.tools)
  {
    hide Continues, GoesOn, Messages;
    var chosen := Chosen(c, 0, e.messages.value, e.tools);
    forall i: nat | i <= |c.additional|
      ensures Continues(HistoryAt(c, i), e.messages.value, e.tools)
          <==> GoesOn(HistoryAt(c, i), e.messages.value, e.tools)
    {
      ContinuesGoesOn(HistoryAt(c, i), e.messages.value, e.tools);
    }
  }

  /** Afterwards that history reads as the normalised request followed by the reply, under its tools. */
  lemma HistoryReadsAsConversation(c: Capture, e: Exchange)
    requires e.messages.Some? && e.reply.Some?
    ensures var h := HistoryAt(Handled(c, e), Chosen(c, 0, e.messages.value, e.tools));
      ReadsAsConversation(h, e)
  {
    var k := Chosen(c, 0, e.messages.value, e.tools);
    ExtendedReads(HistoryAt(c, k), e.messages.value, e.tools, e.reply.value);
    Conversation(HistoryAt(Handled(c, e), k), e);
  }

  /** The history reads as the exchange: each message of the request, then the reply, under the request's tools. */
  ghost predicate ReadsAsConversation(h: History, e: Exchange)
    requires e.messages.Some? && e.reply.Some?
  {
    var ms, read := e.messages.value, Messages(h.items);
    && |read| == |ms| + 1
    && (forall i :: 0 <= i < |ms| ==> Reads(ms[i], read[i]))
    && ComesBack(e.reply.value, read[|ms|])
    && h.tools == e.tools
  }

  lemma Conversation(h: History, e: Exchange)
    requires e.messages.Some? && e.reply.Some? && h.tools == e.tools
    requires Messages(h.items) == Normals(e.messages.value) + [MessageOf(e.reply.value)]
    ensures ReadsAsConversation(h, e)
  {
    hide Messages, Normal, MessageOf, Reads, ComesBack;
    var ms := e.messages.value;
    forall i | 0 <= i < |ms|
      ensures Reads(ms[i], Messages(h.items)[i])
    {
      ReadingAsSent(ms[i]);
    }
    ReplyReads(e.reply.value);
  }

  /** A reply reads as an assistant's message with its text, and with its tool calls where it has any. */
  lemma ReplyReads(choice: Choice)
    ensures ComesBack(choice, MessageOf(choice))
    ensures forall m :: ComesBack(choice, m) ==> m == MessageOf(choice)
  {
  }

  lemma ExtendedReads(h: History, messages: seq<Message>, tools: Option<int>, reply: Choice)
    requires Messages(h.items) <= messages
    ensures Messages(Extended(h, messages, tools, reply).items) == Normals(messages) + [MessageOf(reply)]
  {
    hide Messages, Normals, MessageOf, Normal, SentAll;
    var rest := messages[|h.items|..];
    var items := h.items + SentAll(rest) + [Reply(reply)];
    forall i | 0 <= i < |items|
      ensures Messages(items)[i] == (Normals(messages) + [MessageOf(reply)])[i]
    {
      if i < |h.items| {
        assert messages[i] == Messages(h.items)[i] == MessageIn(h.items[i]);
        ReadingIsNormal(h.items[i]);
      } else if i < |messages| {
        assert items[i] == Sent(messages[i]);
      }
    }
  }

  lemma ReadingIsNormal(item: Item)
    ensures Normal(MessageIn(item)) == MessageIn(item)
  {
  }

  // ---------- Linear conversations ----------

  function HandledAll(es: seq<Exchange>): Capture {
    if es == [] then Capture(NEW, []) else Handled(HandledAll(es[..|es| - 1]), es[|es| - 1])
  }

  /** Every request repeats the one before it and goes on with at least one message. */
  ghost predicate Linear(es: seq<Exchange>) {
    && (forall i :: 0 <= i < |es| ==> es[i].messages.Some? && es[i].reply.Some?)
    && forall i, j :: 0 <= i < j < |es| && j == i + 1 ==>
         |es[i].messages.value| < |es[j].messages.value| && es[i].messages.value <= es[j].messages.value
  }

  /** The next request has the same tools, and repeats a request without missing or null contents, and the reply as
    * it reads here.
    */
  ghost predicate Repeats(e: Exchange, next: Exchange)
    requires e.messages.Some? && e.reply.Some? && next.messages.Some?
    requires |e.messages.value| < |next.messages.value| && e.messages.value <= next.messages.value
  {
    && e.tools == next.tools
    && (forall m :: m in e.messages.value ==> HasContent(m))
    && ComesBack(e.reply.value, next.messages.value[|e.messages.value|])
  }

  ghost predicate AllRepeat(es: seq<Exchange>)
    requires Linear(es)
  {
    forall i, j :: 0 <= i < j < |es| && j == i + 1 ==> Repeats(es[i], es[j])
  }

  lemma RepeatsIsPrefix(e: Exchange, next: Exchange)
    requires e.messages.Some? && e.reply.Some? && next.messages.Some?
    requires |e.messages.value| < |next.messages.value| && e.messages.value <= next.messages.value
    ensures Repeats(e, next) <==>
      e.tools == next.tools && Normals(e.messages.value) + [MessageOf(e.reply.value)] <= next.messages.value
  {
    hide Normal, MessageOf, ComesBack, HasContent;
    var ms, longer := e.messages.value, next.messages.value;
    var read := Normals(ms) + [MessageOf(e.reply.value)];
    ReplyReads(e.reply.value);
    forall m
      ensures Normal(m) == m <==> HasContent(m)
    {
      ReadingAsSent(m);
    }
    if forall m :: m in ms ==> HasContent(m) {
      assert Normals(ms) == ms;
    }
    if read <= longer {
      forall m | m in ms
        ensures HasContent(m)
      {
        var i :| 0 <= i < |ms| && ms[i] == m;
        assert read[i] == longer[i] == ms[i];
      }
      assert read[|ms|] == longer[|ms|];
    }
    if Repeats(e, next) {
      assert read == longer[..|ms| + 1];
    }
  }

  lemma LinearInit(es: seq<Exchange>)
    requires Linear(es) && |es| >= 2
    ensures Linear(es[..|es| - 1])
    ensures AllRepeat(es) <==> AllRepeat(es[..|es| - 1]) && Repeats(es[|es| - 2], es[|es| - 1])
  {
    var init, n := es[..|es| - 1], |es| - 1;
    if AllRepeat(init) && Repeats(es[n - 1], es[n]) {
      forall i, j | 0 <= i < j < |es| && j == i + 1
        ensures Repeats(es[i], es[j])
      {
        if j < n {
          assert Repeats(init[i], init[j]);
        }
      }
    }
    if AllRepeat(es) {
      forall i, j | 0 <= i < j < |init| && j == i + 1
        ensures Repeats(init[i], init[j])
      {
        assert Repeats(es[i], es[j]);
      }
    }
  }

  /** A linear conversation is one history exactly when its tools stay the same, every request but the last has no
    * message with missing or null content, and every reply comes back in the form it reads here.
    */
  lemma {:induction false} LinearConversation(es: seq<Exchange>)
    requires Linear(es) && es != []
    ensures HandledAll(es).additional == [] <==> AllRepeat(es)
    ensures AllRepeat(es) ==> ReadsAsConversation(HandledAll(es).main, es[|es| - 1])
  {
    LinearIsMain(es);
    if AllRepeat(es) {
      Conversation(HandledAll(es).main, es[|es| - 1]);
    }
  }

  lemma {:induction false} LinearIsMain(es: seq<Exchange>)
    requires Linear(es) && es != []
    ensures HandledAll(es).additional == [] <==> AllRepeat(es)
    ensures AllRepeat(es) ==> var last := es[|es| - 1];
      && Messages(HandledAll(es).main.items) == Normals(last.messages.value) + [MessageOf(last.reply.value)]
      && HandledAll(es).main.tools == last.tools
  {
    hide Repeats, MessageOf;
    var last := es[|es| - 1];
    var c := HandledAll(es[..|es| - 1]);
    var k := Chosen(c, 0, last.messages.value, last.tools);
    ExtendedReads(HistoryAt(c, k), last.messages.value, last.tools, last.reply.value);
    if |es| == 1 {
      assert es[..0] == [];
      assert Continues(NEW, last.messages.value, last.tools);
    } else {
      LinearInit(es);
      LinearIsMain(es[..|es| - 1]);
      RepeatsIsPrefix(es[|es| - 2], last);
      assert es[..|es| - 1][|es| - 2] == es[|es| - 2];
      if AllRepeat(es[..|es| - 1]) {
        assert Continues(c.main, last.messages.value, last.tools) <==> Repeats(es[|es| - 2], last);
      }
    }
  }

  /** A first request whose message has no content, and the next one that repeats it and the reply exactly: the
    * conversation is split in two.
    */
  lemma NullContentSplits(reply: Choice, back: Message, second: Choice, more: Message)
    requires ComesBack(reply, back)
    ensures var user := Message("user", Null, None, None);
      var es := [Exchange(Some([user]), None, Some(reply)),
                 Exchange(Some([user, back, more]), None, Some(second))];
      Linear(es) && HandledAll(es).additional != []
  {
    hide HandledAll;
    var user := Message("user", Null, None, None);
    var es := [Exchange(Some([user]), None, Some(reply)),
               Exchange(Some([user, back, more]), None, Some(second))];
    assert es[0].messages.value <= es[1].messages.value;
    assert user in es[0].messages.value && !HasContent(user);
    assert !Repeats(es[0], es[1]);
    LinearConversation(es);
  }

  /** An agent that calls a tool: the second request repeats the question and the call, written out, and adds the
    * tool's answer. Both are one history.
    */
  lemma ToolCallsContinue(question: Message, text: Option<string>, calls: seq<int>, answer: Message, second: Choice,
                          tools: Option<int>)
    requires HasContent(question) && calls != []
    ensures var call := Message("assistant", Text(if text == None then "" else text.value), Some(calls), None);
      var es := [Exchange(Some([question]), tools, Some(Choice(1, text, Some(calls)))),
                 Exchange(Some([question, call, answer]), tools, Some(second))];
      HandledAll(es).additional == []
  {
    hide HandledAll;
    var call := Message("assistant", Text(if text == None then "" else text.value), Some(calls), None);
    var es := [Exchange(Some([question]), tools, Some(Choice(1, text, Some(calls)))),
               Exchange(Some([question, call, answer]), tools, Some(second))];
    assert es[0].messages.value <= es[1].messages.value;
    assert es[1].messages.value[1] == call;
    assert Repeats(es[0], es[1]);
    LinearConversation(es);
  }
}
