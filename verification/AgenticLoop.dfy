// src/core/llm.py: the tool-use loop over the shared message list.
module AgenticLoop {
  import opened Collections
  import opened CacheMarkers

  const MAX_AGENTIC_TURNS: nat := 50

  datatype Event = TextChunk(content: string) | ToolCallRequest(call: ToolCall) | StreamDone(stopReason: string)

  datatype ToolOutcome = Returned(result: string) | Raised

  datatype StopAnswer = Continue | StopNow | StopRaised

  /**
   * What the world answers in one turn: the streamed events, whether the stream then
   * raises (or its consumer closes it), what the tool call at each index does, and what
   * the stop callback says. Any behaviour of model, tools and callback is some script.
   */
  datatype Turn = Turn(events: seq<Event>, streamRaises: bool, tools: seq<ToolOutcome>, stop: StopAnswer)

  /** A call beyond the scripted outcomes is one that raises. */
  function Outcome(t: Turn, k: nat): ToolOutcome {
    if k < |t.tools| then t.tools[k] else Raised
  }

  datatype Exit = NoToolCalls | Stopped | StreamFailed | ToolFailed | StopCallbackFailed | TurnLimit

  // ---- One turn ----------------------------------------------------------------------

  function TextOf(events: seq<Event>): string {
    if events == [] then ""
    else
      var last := events[|events| - 1];
      TextOf(events[..|events| - 1]) + (if last.TextChunk? then last.content else "")
  }

  function CallsOf(events: seq<Event>): seq<ToolCall> {
    if events == [] then []
    else
      var last := events[|events| - 1];
      CallsOf(events[..|events| - 1]) + (if last.ToolCallRequest? then [last.call] else [])
  }

  function ToolUseBlock(call: ToolCall): Block {
    Block(ToolUse(call), None)
  }

  function AssistantMessage(openaiStyle: bool, text: string, calls: seq<ToolCall>): Message {
    if openaiStyle then
      Message(Assistant, if text == "" then NoContent else Plain(text), calls, None)
    else
      Message(Assistant,
              Blocks((if text == "" then [] else [Block(TextBlock(text), None)]) + Map(calls, ToolUseBlock)), [], None)
  }

  /** The truth value of `content or tool_calls`. */
  predicate HasContent(m: Message) {
    (match m.content
     case NoContent => false
     case Plain(text) => text != ""
     case Blocks(blocks) => blocks != [])
    || m.toolCalls != []
  }

  function ToolMessage(call: ToolCall, result: string): Message {
    Message(ToolRole, Plain(result), [], Some(call.id))
  }

  function ResultBlock(call: ToolCall, result: string): Block {
    Block(ToolResult(call.id, result), None)
  }

  function ToolResultMessages(openaiStyle: bool, calls: seq<ToolCall>, results: seq<string>): seq<Message>
    requires |calls| == |results|
  {
    if openaiStyle then
      seq(|calls|, k requires 0 <= k < |calls| => ToolMessage(calls[k], results[k]))
    else
      [Message(User, Blocks(seq(|calls|, k requires 0 <= k < |calls| => ResultBlock(calls[k], results[k]))), [], None)]
  }

  predicate AllReturn(t: Turn) {
    forall k :: 0 <= k < |CallsOf(t.events)| ==> Outcome(t, k).Returned?
  }

  function Results(t: Turn): seq<string>
    requires AllReturn(t)
  {
    seq(|CallsOf(t.events)|, k requires 0 <= k < |CallsOf(t.events)| => Outcome(t, k).result)
  }

  /** How the turn ends the loop, if it does. */
  function Ending(t: Turn, hasStop: bool): Option<Exit> {
    if t.streamRaises then Some(StreamFailed)
    else if CallsOf(t.events) == [] then Some(NoToolCalls)
    else if !AllReturn(t) then Some(ToolFailed)
    else if !hasStop || t.stop.Continue? then None
    else if t.stop.StopRaised? then Some(StopCallbackFailed)
    else Some(Stopped)
  }

  lemma EndingIsNotTheLimit(t: Turn, hasStop: bool)
    ensures Ending(t, hasStop) != Some(TurnLimit)
  {
  }

  /** What the turn leaves in the history: all of its exchange, or nothing. */
  function Exchange(t: Turn, openaiStyle: bool): seq<Message> {
    var text, calls := TextOf(t.events), CallsOf(t.events);
    if t.streamRaises then []
    else if calls == [] then if text == "" then [] else [AssistantMessage(openaiStyle, text, [])]
    else if !AllReturn(t) then []
    else [AssistantMessage(openaiStyle, text, calls)] + ToolResultMessages(openaiStyle, calls, Results(t))
  }

  /** One assistant message, then the results: tool messages, or one message of the user's. */
  lemma ExchangeRoles(t: Turn, openaiStyle: bool)
    ensures forall k :: 0 <= k < |Exchange(t, openaiStyle)| ==>
      Exchange(t, openaiStyle)[k].role == if k == 0 then Assistant else if openaiStyle then ToolRole else User
    ensures !openaiStyle ==> |Exchange(t, openaiStyle)| <= 2
  {
    hide TextOf, CallsOf;
  }

  /** No turn sends an empty text or an empty message: what says nothing and calls nothing is not added. */
  lemma ExchangeIsNotEmpty(t: Turn, openaiStyle: bool, k: nat)
    requires k < |Exchange(t, openaiStyle)|
    ensures
      match Exchange(t, openaiStyle)[k].content
      case NoContent => openaiStyle && k == 0 && Exchange(t, openaiStyle)[k].toolCalls != []
      case Plain(text) => openaiStyle && (k == 0 ==> text != "")
      case Blocks(blocks) =>
        !openaiStyle && blocks != [] &&
        forall i :: 0 <= i < |blocks| ==> blocks[i].Block? && !(blocks[i].payload.TextBlock? && blocks[i].payload.text == "")
  {
    hide TextOf, CallsOf;
  }

  /** The exchanges of the first `n` turns. */
  function Exchanges(script: nat -> Turn, openaiStyle: bool, n: nat): seq<Message> {
    if n == 0 then [] else Exchanges(script, openaiStyle, n - 1) + Exchange(script(n - 1), openaiStyle)
  }

  function EventsOf(script: nat -> Turn, n: nat): seq<Event> {
    if n == 0 then [] else EventsOf(script, n - 1) + script(n - 1).events
  }

  function LimitNotice(): Event {
    TextChunk("\n\n[Stopped: reached the maximum of 50 agentic turns.]")
  }

  // ---- run_agentic_loop -----------------------------------------------------------

  class Conversation {
    var messages: seq<Message>

    constructor (messages: seq<Message>)
      ensures this.messages == messages
    {
      this.messages := messages;
    }

    /** Consumes one stream, accumulating text and tool calls. */
    method ReadStream(t: Turn, before: seq<Event>) returns (text: string, calls: seq<ToolCall>, yielded: seq<Event>)
      ensures text == TextOf(t.events) && calls == CallsOf(t.events) && yielded == before + t.events
    {
      text, calls, yielded := "", [], before;
      for i := 0 to |t.events|
        invariant text == TextOf(t.events[..i]) && calls == CallsOf(t.events[..i])
        invariant yielded == before + t.events[..i]
      {
        var event := t.events[i];
        yielded := yielded + [event];
        assert t.events[..i + 1][..i] == t.events[..i];
        match event
        case TextChunk(content) => text := text + content;
        case ToolCallRequest(call) => calls := calls + [call];
        case StreamDone(_) =>
      }
      assert t.events[..|t.events|] == t.events;
    }

    /** Executes the calls in order until one raises; then the orphaned assistant message goes. */
    method ExecuteTools(t: Turn, openaiStyle: bool, calls: seq<ToolCall>) returns (raised: bool)
      requires calls == CallsOf(t.events) && messages != []
      modifies this
      ensures raised == !AllReturn(t)
      ensures messages == if raised then old(messages)[..|old(messages)| - 1]
                          else old(messages) + ToolResultMessages(openaiStyle, calls, Results(t))
    {
      var results := [];
      for i := 0 to |calls|
        invariant messages == old(messages)
        invariant |results| == i
        invariant forall k :: 0 <= k < i ==> Outcome(t, k) == Returned(results[k])
      {
        match Outcome(t, i)
        case Raised =>
          messages := messages[..|messages| - 1];
          return true;
        case Returned(result) =>
          results := results + [result];
      }
      assert results == Results(t);
      messages := messages + ToolResultMessages(openaiStyle, calls, results);
      raised := false;
    }

    method RunTurn(t: Turn, openaiStyle: bool, hasStop: bool, before: seq<Event>)
      returns (exit: Option<Exit>, yielded: seq<Event>)
      modifies this
      ensures messages == old(messages) + Exchange(t, openaiStyle)
      ensures exit == Ending(t, hasStop)
      ensures yielded == before + t.events
    {
      var text, calls;
      text, calls, yielded := ReadStream(t, before);
      hide TextOf, CallsOf, AllReturn, Results, ToolResultMessages;
      if t.streamRaises {
        return Some(StreamFailed), yielded;
      }
      var assistant := AssistantMessage(openaiStyle, text, calls);
      if HasContent(assistant) {
        messages := messages + [assistant];
      }
      if calls == [] {
        return Some(NoToolCalls), yielded;
      }
      var raised := ExecuteTools(t, openaiStyle, calls);
      if raised {
        return Some(ToolFailed), yielded;
      }
      if hasStop && t.stop.StopRaised? {
        return Some(StopCallbackFailed), yielded;
      }
      exit := if hasStop && t.stop.StopNow? then Some(Stopped) else None;
    }

    /**
     * The loop makes at most 50 turns, all but the last of which continue; the history
     * grows by the turns' exchanges, and every event is passed on.
     */
    method RunAgenticLoop(script: nat -> Turn, openaiStyle: bool, hasStop: bool)
      returns (exit: Exit, turns: nat, yielded: seq<Event>)
      modifies this
      ensures 0 < turns <= MAX_AGENTIC_TURNS
      ensures forall j :: 0 <= j < turns - 1 ==> Ending(script(j), hasStop).None?
      ensures if exit.TurnLimit? then turns == MAX_AGENTIC_TURNS && Ending(script(turns - 1), hasStop).None?
              else Ending(script(turns - 1), hasStop) == Some(exit)
      ensures messages == old(messages) + Exchanges(script, openaiStyle, turns)
      ensures yielded == EventsOf(script, turns) + if exit.TurnLimit? then [LimitNotice()] else []
      ensures Paired(openaiStyle, old(messages)) ==> Paired(openaiStyle, messages)
    {
      hide Ending, Exchange;
      yielded, turns := [], 0;
      while turns < MAX_AGENTIC_TURNS
        invariant 0 <= turns <= MAX_AGENTIC_TURNS
        invariant forall j :: 0 <= j < turns ==> Ending(script(j), hasStop).None?
        invariant messages == old(messages) + Exchanges(script, openaiStyle, turns)
        invariant yielded == EventsOf(script, turns)
      {
        var ended;
        ended, yielded := RunTurn(script(turns), openaiStyle, hasStop, yielded);
        AppendAssociates(old(messages), Exchanges(script, openaiStyle, turns), Exchange(script(turns), openaiStyle));
        turns := turns + 1;
        if ended.Some? {
          EndingIsNotTheLimit(script(turns - 1), hasStop);
          if Paired(openaiStyle, old(messages)) {
            HistoryStaysPaired(old(messages), script, openaiStyle, turns);
          }
          return ended.value, turns, yielded;
        }
      }
      if Paired(openaiStyle, old(messages)) {
        HistoryStaysPaired(old(messages), script, openaiStyle, turns);
      }
      yielded := yielded + [LimitNotice()];
      exit := TurnLimit;
    }
  }

  // ---- Pairing ----------------------------------------------------------------------

  /** The tool calls a message makes. */
  function BlockCalls(blocks: seq<Block>): seq<ToolCall> {
    if blocks == [] then []
    else (if blocks[0].Block? && blocks[0].payload.ToolUse? then [blocks[0].payload.call] else []) + BlockCalls(blocks[1..])
  }

  function CallIds(openaiStyle: bool, m: Message): seq<string> {
    Map(if openaiStyle then m.toolCalls else BlockCalls(BlocksOf(m)), IdOf)
  }

  function IdOf(call: ToolCall): string {
    call.id
  }

  /** The ids of the tool results a message carries. */
  function BlockAnswers(blocks: seq<Block>): seq<string> {
    if blocks == [] then []
    else
      (if blocks[0].Block? && blocks[0].payload.ToolResult? then [blocks[0].payload.toolUseId] else [])
      + BlockAnswers(blocks[1..])
  }

  function AnswerIds(openaiStyle: bool, m: Message): seq<string> {
    if openaiStyle then if m.role.ToolRole? && m.toolCallId.Some? then [m.toolCallId.value] else []
    else BlockAnswers(BlocksOf(m))
  }

  /** In the OpenAI format one message per result, otherwise one message for all of them. */
  predicate Answers(openaiStyle: bool, ids: seq<string>, answers: seq<Message>) {
    && (forall a :: a in answers ==> CallIds(openaiStyle, a) == [])
    && if openaiStyle then |answers| == |ids| && forall k :: 0 <= k < |ids| ==> AnswerIds(true, answers[k]) == [ids[k]]
       else |answers| == 1 && AnswerIds(false, answers[0]) == ids
  }

  /** How many messages a message and its results take. */
  function ChunkSize(openaiStyle: bool, m: Message): (n: nat)
    ensures n > 0
  {
    var ids := CallIds(openaiStyle, m);
    if ids == [] then 1 else if openaiStyle then |ids| + 1 else 2
  }

  predicate Chunk(openaiStyle: bool, ms: seq<Message>)
    requires ms != []
  {
    && AnswerIds(openaiStyle, ms[0]) == []
    && (CallIds(openaiStyle, ms[0]) == [] ==> |ms| == 1)
    && (CallIds(openaiStyle, ms[0]) != [] ==> Answers(openaiStyle, CallIds(openaiStyle, ms[0]), ms[1..]))
  }

  /** Every message with calls is followed at once by exactly its results; no result stands alone. */
  predicate Paired(openaiStyle: bool, ms: seq<Message>) {
    if ms == [] then true
    else
      var n := ChunkSize(openaiStyle, ms[0]);
      n <= |ms| && Chunk(openaiStyle, ms[..n]) && Paired(openaiStyle, ms[n..])
  }

  lemma PairedStep(openaiStyle: bool, ms: seq<Message>)
    requires ms != []
    ensures
      var n := ChunkSize(openaiStyle, ms[0]);
      Paired(openaiStyle, ms) <==> n <= |ms| && Chunk(openaiStyle, ms[..n]) && Paired(openaiStyle, ms[n..])
  {
  }

  lemma {:induction false} PairedAppend(openaiStyle: bool, a: seq<Message>, b: seq<Message>)
    requires Paired(openaiStyle, a) && Paired(openaiStyle, b)
    ensures Paired(openaiStyle, a + b)
    decreases a
  {
    hide Chunk, ChunkSize, Paired;
    if a == [] {
      assert a + b == b;
    } else {
      var n := ChunkSize(openaiStyle, a[0]);
      PairedStep(openaiStyle, a);
      PairedStep(openaiStyle, a + b);
      PairedAppend(openaiStyle, a[n..], b);
      assert (a + b)[n..] == a[n..] + b;
      assert (a + b)[..n] == a[..n];
    }
  }

  lemma {:induction false} ToolUseBlocks(calls: seq<ToolCall>)
    ensures BlockCalls(Map(calls, ToolUseBlock)) == calls
    ensures BlockAnswers(Map(calls, ToolUseBlock)) == []
  {
    if calls != [] {
      ToolUseBlocks(calls[1..]);
      assert Map(calls, ToolUseBlock)[1..] == Map(calls[1..], ToolUseBlock);
    }
  }

  lemma AssistantCalls(openaiStyle: bool, text: string, calls: seq<ToolCall>)
    ensures CallIds(openaiStyle, AssistantMessage(openaiStyle, text, calls)) == Map(calls, IdOf)
    ensures AnswerIds(openaiStyle, AssistantMessage(openaiStyle, text, calls)) == []
  {
    ToolUseBlocks(calls);
    if !openaiStyle && text != "" {
      var blocks := [Block(TextBlock(text), None)] + Map(calls, ToolUseBlock);
      assert blocks[1..] == Map(calls, ToolUseBlock);
    } else if !openaiStyle {
      assert [] + Map(calls, ToolUseBlock) == Map(calls, ToolUseBlock);
    }
  }

  lemma {:induction false} ResultBlocks(calls: seq<ToolCall>, results: seq<string>)
    requires |calls| == |results|
    ensures
      var blocks := seq(|calls|, k requires 0 <= k < |calls| => ResultBlock(calls[k], results[k]));
      BlockAnswers(blocks) == Map(calls, IdOf) && BlockCalls(blocks) == []
  {
    if calls != [] {
      ResultBlocks(calls[1..], results[1..]);
      var blocks := seq(|calls|, k requires 0 <= k < |calls| => ResultBlock(calls[k], results[k]));
      assert blocks[1..] == seq(|calls| - 1, k requires 0 <= k < |calls| - 1 => ResultBlock(calls[1..][k], results[1..][k]));
    }
  }

  lemma ResultsAnswer(openaiStyle: bool, calls: seq<ToolCall>, results: seq<string>)
    requires |calls| == |results|
    ensures Answers(openaiStyle, Map(calls, IdOf), ToolResultMessages(openaiStyle, calls, results))
  {
    if !openaiStyle {
      ResultBlocks(calls, results);
    }
  }

  lemma ExchangePaired(t: Turn, openaiStyle: bool)
    ensures Paired(openaiStyle, Exchange(t, openaiStyle))
  {
    var text, calls, exchange := TextOf(t.events), CallsOf(t.events), Exchange(t, openaiStyle);
    hide TextOf, CallsOf;
    AssistantCalls(openaiStyle, text, calls);
    if exchange != [] && calls != [] {
      var results := ToolResultMessages(openaiStyle, calls, Results(t));
      ResultsAnswer(openaiStyle, calls, Results(t));
      var n := ChunkSize(openaiStyle, exchange[0]);
      assert n == |exchange| && exchange[..n] == exchange && exchange[n..] == [];
      assert exchange[1..] == results;
    }
  }

  lemma {:induction false} ExchangesPaired(script: nat -> Turn, openaiStyle: bool, n: nat)
    ensures Paired(openaiStyle, Exchanges(script, openaiStyle, n))
  {
    if n > 0 {
      ExchangesPaired(script, openaiStyle, n - 1);
      ExchangePaired(script(n - 1), openaiStyle);
      PairedAppend(openaiStyle, Exchanges(script, openaiStyle, n - 1), Exchange(script(n - 1), openaiStyle));
    }
  }

  /** Whatever the script and whichever exit, a paired history stays paired. */
  lemma HistoryStaysPaired(history: seq<Message>, script: nat -> Turn, openaiStyle: bool, n: nat)
    requires Paired(openaiStyle, history)
    ensures Paired(openaiStyle, history + Exchanges(script, openaiStyle, n))
  {
    ExchangesPaired(script, openaiStyle, n);
    PairedAppend(openaiStyle, history, Exchanges(script, openaiStyle, n));
  }

  // ---- What pairing means, message by message -----------------------------------------

  predicate HeadAnswered(openaiStyle: bool, ms: seq<Message>)
    requires ms != []
  {
    var n := ChunkSize(openaiStyle, ms[0]);
    n <= |ms| && (CallIds(openaiStyle, ms[0]) != [] ==> Answers(openaiStyle, CallIds(openaiStyle, ms[0]), ms[1..n]))
  }

  predicate AnsweredAt(openaiStyle: bool, ms: seq<Message>, i: nat)
    requires i < |ms|
  {
    HeadAnswered(openaiStyle, ms[i..])
  }

  /** The results in message `j` belong to the calls of message `i`. */
  predicate Covers(openaiStyle: bool, ms: seq<Message>, i: nat, j: nat)
    requires i < |ms|
  {
    i < j < i + ChunkSize(openaiStyle, ms[i])
  }

  ghost predicate OwnedAt(openaiStyle: bool, ms: seq<Message>, j: nat)
    requires j < |ms|
  {
    AnswerIds(openaiStyle, ms[j]) == [] || exists i: nat :: i < |ms| && Covers(openaiStyle, ms, i, j)
  }

  ghost predicate PairedEverywhere(openaiStyle: bool, ms: seq<Message>) {
    forall i :: 0 <= i < |ms| ==> AnsweredAt(openaiStyle, ms, i) && OwnedAt(openaiStyle, ms, i)
  }

  lemma ChunkAnswered(openaiStyle: bool, ms: seq<Message>)
    requires ms != [] && ChunkSize(openaiStyle, ms[0]) <= |ms|
    ensures Chunk(openaiStyle, ms[..ChunkSize(openaiStyle, ms[0])])
       <==> AnswerIds(openaiStyle, ms[0]) == [] && AnsweredAt(openaiStyle, ms, 0)
  {
    var n := ChunkSize(openaiStyle, ms[0]);
    assert ms[0..] == ms;
    assert ms[..n][1..] == ms[1..n];
  }

  /** An answering message makes no calls of its own. */
  lemma AnswersAreQuiet(openaiStyle: bool, ms: seq<Message>, i: nat)
    requires ms != [] && AnsweredAt(openaiStyle, ms, 0) && Covers(openaiStyle, ms, 0, i)
    ensures i < |ms| && CallIds(openaiStyle, ms[i]) == [] && ChunkSize(openaiStyle, ms[i]) == 1
  {
    assert ms[0..] == ms;
    assert ms[1..ChunkSize(openaiStyle, ms[0])][i - 1] == ms[i];
  }

  lemma TailAnswered(openaiStyle: bool, ms: seq<Message>, n: nat, rest: seq<Message>, i: nat)
    requires n <= i < |ms| && rest == ms[n..]
    ensures AnsweredAt(openaiStyle, rest, i - n) == AnsweredAt(openaiStyle, ms, i)
  {
    hide HeadAnswered;
    assert rest[i - n..] == ms[i..];
  }

  lemma TailOwnedUp(openaiStyle: bool, ms: seq<Message>, n: nat, rest: seq<Message>, i: nat)
    requires n <= i < |ms| && rest == ms[n..] && OwnedAt(openaiStyle, rest, i - n)
    ensures OwnedAt(openaiStyle, ms, i)
  {
    hide ChunkSize, AnswerIds;
    assert rest[i - n] == ms[i];
    if AnswerIds(openaiStyle, ms[i]) != [] {
      var j: nat :| j < |rest| && Covers(openaiStyle, rest, j, i - n);
      assert rest[j] == ms[j + n];
      assert Covers(openaiStyle, ms, j + n, i);
    }
  }

  lemma TailOwned(openaiStyle: bool, ms: seq<Message>, n: nat, rest: seq<Message>, i: nat)
    requires ms != [] && AnsweredAt(openaiStyle, ms, 0) && n == ChunkSize(openaiStyle, ms[0])
    requires n <= i < |ms| && rest == ms[n..] && OwnedAt(openaiStyle, ms, i)
    ensures OwnedAt(openaiStyle, rest, i - n)
  {
    hide ChunkSize, AnswerIds, AnsweredAt;
    assert rest[i - n] == ms[i];
    if AnswerIds(openaiStyle, ms[i]) != [] {
      var j: nat :| j < |ms| && Covers(openaiStyle, ms, j, i);
      if 0 < j < n {
        AnswersAreQuiet(openaiStyle, ms, j);
      }
      assert rest[j - n] == ms[j];
      assert Covers(openaiStyle, rest, j - n, i - n);
    }
  }

  /** The two readings of "paired" agree. */
  lemma {:induction false} PairedMeans(openaiStyle: bool, ms: seq<Message>)
    ensures Paired(openaiStyle, ms) <==> PairedEverywhere(openaiStyle, ms)
    decreases ms
  {
    if ms != [] {
      var n := ChunkSize(openaiStyle, ms[0]);
      PairedStep(openaiStyle, ms);
      if n <= |ms| {
        PairedMeans(openaiStyle, ms[n..]);
        ChunkAnswered(openaiStyle, ms);
        hide Paired, Chunk, ChunkSize, AnsweredAt, OwnedAt;
        if Paired(openaiStyle, ms) {
          EverywhereFromTail(openaiStyle, ms);
        }
        if PairedEverywhere(openaiStyle, ms) {
          TailFromEverywhere(openaiStyle, ms);
        }
      } else {
        assert ms[0..] == ms;
        assert !AnsweredAt(openaiStyle, ms, 0);
      }
    }
  }

  lemma EverywhereFromTail(openaiStyle: bool, ms: seq<Message>)
    requires ms != [] && AnswerIds(openaiStyle, ms[0]) == [] && AnsweredAt(openaiStyle, ms, 0)
    requires PairedEverywhere(openaiStyle, ms[ChunkSize(openaiStyle, ms[0])..])
    ensures PairedEverywhere(openaiStyle, ms)
  {
    var n := ChunkSize(openaiStyle, ms[0]);
    var rest := ms[n..];
    forall i | 0 <= i < |ms|
      ensures AnsweredAt(openaiStyle, ms, i) && OwnedAt(openaiStyle, ms, i)
    {
      if n <= i {
        assert AnsweredAt(openaiStyle, rest, i - n) && OwnedAt(openaiStyle, rest, i - n);
        TailAnswered(openaiStyle, ms, n, rest, i);
        TailOwnedUp(openaiStyle, ms, n, rest, i);
      } else if 0 < i {
        AnswersAreQuiet(openaiStyle, ms, i);
        assert Covers(openaiStyle, ms, 0, i);
      }
    }
  }

  lemma FirstAnswersNothing(openaiStyle: bool, ms: seq<Message>)
    requires ms != [] && OwnedAt(openaiStyle, ms, 0)
    ensures AnswerIds(openaiStyle, ms[0]) == []
  {
    hide AnswerIds;
    assert forall i: nat :: i < |ms| ==> !Covers(openaiStyle, ms, i, 0);
  }

  lemma TailPairedAt(openaiStyle: bool, ms: seq<Message>, n: nat, rest: seq<Message>, i: nat)
    requires ms != [] && AnsweredAt(openaiStyle, ms, 0) && n == ChunkSize(openaiStyle, ms[0])
    requires n <= i < |ms| && rest == ms[n..] && AnsweredAt(openaiStyle, ms, i) && OwnedAt(openaiStyle, ms, i)
    ensures AnsweredAt(openaiStyle, rest, i - n) && OwnedAt(openaiStyle, rest, i - n)
  {
    hide AnsweredAt, ChunkSize, OwnedAt;
    TailAnswered(openaiStyle, ms, n, rest, i);
    TailOwned(openaiStyle, ms, n, rest, i);
  }

  lemma TailFromEverywhere(openaiStyle: bool, ms: seq<Message>)
    requires ms != [] && PairedEverywhere(openaiStyle, ms) && ChunkSize(openaiStyle, ms[0]) <= |ms|
    ensures AnswerIds(openaiStyle, ms[0]) == [] && AnsweredAt(openaiStyle, ms, 0)
    ensures PairedEverywhere(openaiStyle, ms[ChunkSize(openaiStyle, ms[0])..])
  {
    hide AnsweredAt, ChunkSize, AnswerIds, OwnedAt;
    var n := ChunkSize(openaiStyle, ms[0]);
    var rest := ms[n..];
    assert AnsweredAt(openaiStyle, ms, 0) && OwnedAt(openaiStyle, ms, 0);
    FirstAnswersNothing(openaiStyle, ms);
    forall i | 0 <= i < |rest|
      ensures AnsweredAt(openaiStyle, rest, i) && OwnedAt(openaiStyle, rest, i)
    {
      TailPairedAt(openaiStyle, ms, n, rest, i + n);
    }
  }

  // ---- Requests -----------------------------------------------------------------------

  lemma {:induction false} StrippedCalls(blocks: seq<Block>)
    ensures BlockCalls(Map(blocks, Strip)) == BlockCalls(blocks)
    ensures BlockAnswers(Map(blocks, Strip)) == BlockAnswers(blocks)
  {
    if blocks != [] {
      StrippedCalls(blocks[1..]);
      assert Map(blocks, Strip)[1..] == Map(blocks[1..], Strip);
    }
  }

  lemma StripKeepsIds(openaiStyle: bool, m: Message)
    ensures CallIds(openaiStyle, StripMessage(m)) == CallIds(openaiStyle, m)
    ensures AnswerIds(openaiStyle, StripMessage(m)) == AnswerIds(openaiStyle, m)
  {
    StrippedCalls(BlocksOf(m));
    assert BlocksOf(StripMessage(m)) == Map(BlocksOf(m), Strip);
  }

  lemma EraseKeepsChunk(openaiStyle: bool, ms: seq<Message>)
    requires ms != []
    ensures Chunk(openaiStyle, Erase(ms)) == Chunk(openaiStyle, ms)
  {
    var e := Erase(ms);
    forall i | 0 <= i < |ms|
      ensures CallIds(openaiStyle, e[i]) == CallIds(openaiStyle, ms[i])
      ensures AnswerIds(openaiStyle, e[i]) == AnswerIds(openaiStyle, ms[i])
    {
      StripKeepsIds(openaiStyle, ms[i]);
    }
    hide CallIds, AnswerIds, Erase;
    SameAnswers(openaiStyle, CallIds(openaiStyle, ms[0]), e[1..], ms[1..]);
  }

  lemma SameAnswers(openaiStyle: bool, ids: seq<string>, a: seq<Message>, b: seq<Message>)
    requires |a| == |b|
    requires forall i :: 0 <= i < |a| ==>
      CallIds(openaiStyle, a[i]) == CallIds(openaiStyle, b[i]) && AnswerIds(openaiStyle, a[i]) == AnswerIds(openaiStyle, b[i])
    ensures Answers(openaiStyle, ids, a) == Answers(openaiStyle, ids, b)
  {
    assert (forall m :: m in a ==> CallIds(openaiStyle, m) == []) <==> (forall i :: 0 <= i < |a| ==> CallIds(openaiStyle, a[i]) == []);
    assert (forall m :: m in b ==> CallIds(openaiStyle, m) == []) <==> (forall i :: 0 <= i < |b| ==> CallIds(openaiStyle, b[i]) == []);
    hide CallIds, AnswerIds;
  }

  lemma {:induction false} EraseKeepsPaired(openaiStyle: bool, ms: seq<Message>)
    ensures Paired(openaiStyle, Erase(ms)) == Paired(openaiStyle, ms)
    decreases ms
  {
    if ms != [] {
      var e, n := Erase(ms), ChunkSize(openaiStyle, ms[0]);
      StripKeepsIds(openaiStyle, ms[0]);
      assert ChunkSize(openaiStyle, e[0]) == n;
      PairedStep(openaiStyle, ms);
      PairedStep(openaiStyle, e);
      hide Paired, Chunk, ChunkSize;
      if n <= |ms| {
        EraseKeepsPaired(openaiStyle, ms[n..]);
        assert e[n..] == Erase(ms[n..]);
        EraseKeepsChunk(openaiStyle, ms[..n]);
        assert e[..n] == Erase(ms[..n]);
      }
    }
  }

  /** What each turn sends, cache markers trimmed for the provider, is paired too. */
  lemma RequestsArePaired(history: seq<Message>, script: nat -> Turn, openaiStyle: bool, n: nat)
    requires Paired(openaiStyle, history)
    ensures Paired(openaiStyle, Finalize(history + Exchanges(script, openaiStyle, n), openaiStyle))
  {
    var ms := history + Exchanges(script, openaiStyle, n);
    HistoryStaysPaired(history, script, openaiStyle, n);
    FinalizeGuarantees(ms, openaiStyle);
    EraseKeepsPaired(openaiStyle, ms);
    EraseKeepsPaired(openaiStyle, Finalize(ms, openaiStyle));
  }

  // ---- How a turn ends the loop ---------------------------------------------------------

  predicate IsRequest(e: Event) {
    e.ToolCallRequest?
  }

  lemma {:induction false} CallsAreRequests(events: seq<Event>)
    ensures |CallsOf(events)| == |Filter(events, IsRequest)|
    ensures forall k :: 0 <= k < |CallsOf(events)| ==>
      Filter(events, IsRequest)[k].ToolCallRequest? && CallsOf(events)[k] == Filter(events, IsRequest)[k].call
    ensures CallsOf(events) == [] <==> forall e :: e in events ==> !e.ToolCallRequest?
  {
    if events != [] {
      var init, last := events[..|events| - 1], events[|events| - 1];
      CallsAreRequests(init);
      assert forall e :: e in events <==> e in init || e == last by {
        assert events == init + [last];
      }
    }
  }

  predicate ToolReturns(t: Turn, k: nat) {
    k < |t.tools| && t.tools[k].Returned?
  }

  lemma AllReturnMeans(t: Turn, n: nat)
    requires n == |CallsOf(t.events)|
    ensures AllReturn(t) <==> forall k: nat :: k < n ==> ToolReturns(t, k)
  {
    hide CallsOf;
    if AllReturn(t) {
      forall k: nat | k < n
        ensures ToolReturns(t, k)
      {
        assert Outcome(t, k).Returned?;
      }
    } else {
      var k :| 0 <= k < n && Outcome(t, k).Raised?;
      assert !ToolReturns(t, k);
    }
  }

  /**
   * The loop goes on after a turn exactly if its stream ended well with at least one tool
   * call, every tool called returned, and the callback, if there is one, says to continue.
   * Otherwise the first of these that fails names the exit.
   */
  lemma EndingMeans(t: Turn, hasStop: bool)
    ensures
      var requests := Filter(t.events, IsRequest);
      var asked := exists e :: e in t.events && e.ToolCallRequest?;
      var returned := forall k: nat :: k < |requests| ==> ToolReturns(t, k);
      && (Ending(t, hasStop).None? <==> !t.streamRaises && asked && returned && (hasStop ==> t.stop == Continue))
      && (Ending(t, hasStop) == Some(StreamFailed) <==> t.streamRaises)
      && (Ending(t, hasStop) == Some(NoToolCalls) <==> !t.streamRaises && !asked)
      && (Ending(t, hasStop) == Some(ToolFailed) <==> !t.streamRaises && !returned)
      && (Ending(t, hasStop) == Some(Stopped) <==> !t.streamRaises && asked && returned && hasStop && t.stop == StopNow)
      && (Ending(t, hasStop) == Some(StopCallbackFailed) <==>
            !t.streamRaises && asked && returned && hasStop && t.stop == StopRaised)
  {
    CallsAreRequests(t.events);
    AllReturnMeans(t, |Filter(t.events, IsRequest)|);
    hide CallsOf, Filter, AllReturn;
    var asked := exists e :: e in t.events && e.ToolCallRequest?;
    assert asked <==> CallsOf(t.events) != [];
  }

  // ---- What the client saw against what the history keeps -----------------------------

  function BlockText(blocks: seq<Block>): string {
    if blocks == [] then ""
    else (if blocks[0].Block? && blocks[0].payload.TextBlock? then blocks[0].payload.text else "") + BlockText(blocks[1..])
  }

  function OwnText(m: Message): string {
    if !m.role.Assistant? then ""
    else
      match m.content
      case NoContent => ""
      case Plain(text) => text
      case Blocks(blocks) => BlockText(blocks)
  }

  function OwnCalls(openaiStyle: bool, m: Message): seq<ToolCall> {
    if !m.role.Assistant? then [] else if openaiStyle then m.toolCalls else BlockCalls(BlocksOf(m))
  }

  /** The assistant text and the tool calls a history holds. */
  function RecordedText(ms: seq<Message>): string {
    if ms == [] then "" else OwnText(ms[0]) + RecordedText(ms[1..])
  }

  function RecordedCalls(openaiStyle: bool, ms: seq<Message>): seq<ToolCall> {
    if ms == [] then [] else OwnCalls(openaiStyle, ms[0]) + RecordedCalls(openaiStyle, ms[1..])
  }

  lemma {:induction false} RecordedTextAppend(a: seq<Message>, b: seq<Message>)
    ensures RecordedText(a + b) == RecordedText(a) + RecordedText(b)
  {
    hide OwnText;
    if a == [] {
      assert a + b == b;
    } else {
      RecordedTextAppend(a[1..], b);
      assert (a + b)[0] == a[0] && (a + b)[1..] == a[1..] + b;
      AppendAssociates(OwnText(a[0]), RecordedText(a[1..]), RecordedText(b));
    }
  }

  lemma {:induction false} RecordedCallsAppend(openaiStyle: bool, a: seq<Message>, b: seq<Message>)
    ensures RecordedCalls(openaiStyle, a + b) == RecordedCalls(openaiStyle, a) + RecordedCalls(openaiStyle, b)
  {
    hide OwnCalls;
    if a == [] {
      assert a + b == b;
    } else {
      RecordedCallsAppend(openaiStyle, a[1..], b);
      assert (a + b)[0] == a[0] && (a + b)[1..] == a[1..] + b;
      AppendAssociates(OwnCalls(openaiStyle, a[0]), RecordedCalls(openaiStyle, a[1..]), RecordedCalls(openaiStyle, b));
    }
  }

  lemma RecordedAppend(openaiStyle: bool, a: seq<Message>, b: seq<Message>)
    ensures RecordedText(a + b) == RecordedText(a) + RecordedText(b)
    ensures RecordedCalls(openaiStyle, a + b) == RecordedCalls(openaiStyle, a) + RecordedCalls(openaiStyle, b)
  {
    RecordedTextAppend(a, b);
    RecordedCallsAppend(openaiStyle, a, b);
  }

  lemma {:induction false} EventsAppend(a: seq<Event>, b: seq<Event>)
    ensures TextOf(a + b) == TextOf(a) + TextOf(b)
    ensures CallsOf(a + b) == CallsOf(a) + CallsOf(b)
  {
    if b == [] {
      assert a + b == a;
    } else {
      var init, last := b[..|b| - 1], b[|b| - 1];
      EventsAppend(a, init);
      EventsLast(a + init, last);
      EventsLast(init, last);
      hide TextOf, CallsOf;
      AppendAssociates(a, init, [last]);
      assert b == init + [last];
      AppendAssociates(TextOf(a), TextOf(init), if last.TextChunk? then last.content else "");
      AppendAssociates(CallsOf(a), CallsOf(init), if last.ToolCallRequest? then [last.call] else []);
    }
  }

  lemma EventsLast(events: seq<Event>, e: Event)
    ensures TextOf(events + [e]) == TextOf(events) + (if e.TextChunk? then e.content else "")
    ensures CallsOf(events + [e]) == CallsOf(events) + (if e.ToolCallRequest? then [e.call] else [])
  {
    assert (events + [e])[..|events + [e]| - 1] == events;
  }

  lemma {:induction false} ToolUseText(calls: seq<ToolCall>)
    ensures BlockText(Map(calls, ToolUseBlock)) == ""
  {
    if calls != [] {
      ToolUseText(calls[1..]);
      assert Map(calls, ToolUseBlock)[1..] == Map(calls[1..], ToolUseBlock);
    }
  }

  lemma AssistantRecords(openaiStyle: bool, text: string, calls: seq<ToolCall>)
    ensures
      var m := AssistantMessage(openaiStyle, text, calls);
      RecordedText([m]) == text && RecordedCalls(openaiStyle, [m]) == calls
  {
    var m := AssistantMessage(openaiStyle, text, calls);
    assert OwnText(m) == text && OwnCalls(openaiStyle, m) == calls by {
      OwnOfAssistant(openaiStyle, text, calls);
    }
    hide AssistantMessage, OwnText, OwnCalls;
    assert RecordedText([m]) == OwnText(m) + RecordedText([]);
    assert RecordedCalls(openaiStyle, [m]) == OwnCalls(openaiStyle, m) + RecordedCalls(openaiStyle, []);
  }

  lemma OwnOfAssistant(openaiStyle: bool, text: string, calls: seq<ToolCall>)
    ensures OwnText(AssistantMessage(openaiStyle, text, calls)) == text
    ensures OwnCalls(openaiStyle, AssistantMessage(openaiStyle, text, calls)) == calls
  {
    ToolUseBlocks(calls);
    ToolUseText(calls);
    var blocks := Map(calls, ToolUseBlock);
    if !openaiStyle && text != "" {
      assert ([Block(TextBlock(text), None)] + blocks)[1..] == blocks;
    } else {
      assert [] + blocks == blocks;
    }
  }

  lemma {:induction false} ResultsRecordNothing(openaiStyle: bool, ms: seq<Message>)
    requires forall m :: m in ms ==> !m.role.Assistant?
    ensures RecordedText(ms) == "" && RecordedCalls(openaiStyle, ms) == []
  {
    if ms != [] {
      assert ms[0] in ms;
      ResultsRecordNothing(openaiStyle, ms[1..]);
    }
  }

  /** The two exits that discard the turn they interrupt. */
  predicate Discards(ending: Option<Exit>) {
    ending == Some(StreamFailed) || ending == Some(ToolFailed)
  }

  lemma ExchangeRecords(t: Turn, openaiStyle: bool, hasStop: bool)
    ensures
      var kept := if Discards(Ending(t, hasStop)) then [] else t.events;
      RecordedText(Exchange(t, openaiStyle)) == TextOf(kept) && RecordedCalls(openaiStyle, Exchange(t, openaiStyle)) == CallsOf(kept)
  {
    var text, calls, exchange := TextOf(t.events), CallsOf(t.events), Exchange(t, openaiStyle);
    hide TextOf, CallsOf;
    NothingOf();
    if exchange != [] {
      AssistantRecords(openaiStyle, text, calls);
      ResultsRecordNothing(openaiStyle, exchange[1..]);
      RecordedAppend(openaiStyle, exchange[..1], exchange[1..]);
      assert exchange == exchange[..1] + exchange[1..] && exchange[..1] == [AssistantMessage(openaiStyle, text, calls)];
    }
  }

  lemma NothingOf()
    ensures TextOf([]) == "" && CallsOf([]) == []
  {
  }

  /**
   * The text and calls in the history are, in order, those of every turn the client was
   * streamed, except that an exit by a failing stream or tool discards its own turn.
   */
  lemma {:induction false} HistoryRecordsTheStream(script: nat -> Turn, openaiStyle: bool, hasStop: bool, n: nat)
    requires 0 < n && forall j :: 0 <= j < n - 1 ==> Ending(script(j), hasStop).None?
    ensures
      var kept := if Discards(Ending(script(n - 1), hasStop)) then n - 1 else n;
      && RecordedText(Exchanges(script, openaiStyle, n)) == TextOf(EventsOf(script, kept))
      && RecordedCalls(openaiStyle, Exchanges(script, openaiStyle, n)) == CallsOf(EventsOf(script, kept))
  {
    var t := script(n - 1);
    hide TextOf, CallsOf, RecordedText, RecordedCalls, Exchange, Ending;
    if n > 1 {
      HistoryRecordsTheStream(script, openaiStyle, hasStop, n - 1);
    } else {
      NothingOf();
    }
    var before, exchange := Exchanges(script, openaiStyle, n - 1), Exchange(t, openaiStyle);
    var ending := Ending(t, hasStop);
    RecordedAppend(openaiStyle, before, exchange);
    ExchangeRecords(t, openaiStyle, hasStop);
    EventsAppend(EventsOf(script, n - 1), t.events);
    NothingOf();
    assert n > 1 ==> !Discards(Ending(script(n - 2), hasStop));
    hide Discards;
    assert Exchanges(script, openaiStyle, n) == before + exchange;
    assert EventsOf(script, n) == EventsOf(script, n - 1) + t.events;
    hide Exchanges, EventsOf;
  }

  // ---- Each result reaches its own call --------------------------------------------------

  /** The tool results of a history, with the ids of the calls they answer. */
  function BlockResults(blocks: seq<Block>): seq<(string, string)> {
    if blocks == [] then []
    else
      (if blocks[0].Block? && blocks[0].payload.ToolResult?
       then [(blocks[0].payload.toolUseId, blocks[0].payload.result)] else [])
      + BlockResults(blocks[1..])
  }

  function OwnResults(openaiStyle: bool, m: Message): seq<(string, string)> {
    if !openaiStyle then BlockResults(BlocksOf(m))
    else if m.role.ToolRole? && m.toolCallId.Some? && m.content.Plain? then [(m.toolCallId.value, m.content.text)]
    else []
  }

  function RecordedResults(openaiStyle: bool, ms: seq<Message>): seq<(string, string)> {
    if ms == [] then [] else OwnResults(openaiStyle, ms[0]) + RecordedResults(openaiStyle, ms[1..])
  }

  /** What the tools returned in a turn, call by call, if all of them did. */
  function Returns(t: Turn): seq<(string, string)> {
    var calls := CallsOf(t.events);
    if t.streamRaises || |t.tools| < |calls| || (exists k :: 0 <= k < |calls| && t.tools[k].Raised?) then []
    else seq(|calls|, k requires 0 <= k < |calls| => (calls[k].id, t.tools[k].result))
  }

  function AllReturns(script: nat -> Turn, n: nat): seq<(string, string)> {
    if n == 0 then [] else AllReturns(script, n - 1) + Returns(script(n - 1))
  }

  lemma {:induction false} ToolMessagesAnswer(calls: seq<ToolCall>, results: seq<string>)
    requires |calls| == |results|
    ensures RecordedResults(true, ToolResultMessages(true, calls, results))
         == seq(|calls|, k requires 0 <= k < |calls| => (calls[k].id, results[k]))
  {
    if calls != [] {
      var ms := ToolResultMessages(true, calls, results);
      ToolMessagesAnswer(calls[1..], results[1..]);
      assert ms[1..] == ToolResultMessages(true, calls[1..], results[1..]);
      assert OwnResults(true, ms[0]) == [(calls[0].id, results[0])];
      hide OwnResults, ToolResultMessages;
    }
  }

  lemma {:induction false} ResultBlocksAnswer(calls: seq<ToolCall>, results: seq<string>)
    requires |calls| == |results|
    ensures BlockResults(seq(|calls|, k requires 0 <= k < |calls| => ResultBlock(calls[k], results[k])))
         == seq(|calls|, k requires 0 <= k < |calls| => (calls[k].id, results[k]))
  {
    if calls != [] {
      var blocks := seq(|calls|, k requires 0 <= k < |calls| => ResultBlock(calls[k], results[k]));
      ResultBlocksAnswer(calls[1..], results[1..]);
      assert blocks[1..] == seq(|calls| - 1, k requires 0 <= k < |calls| - 1 => ResultBlock(calls[1..][k], results[1..][k]));
    }
  }

  lemma ResultsAreRecorded(openaiStyle: bool, calls: seq<ToolCall>, results: seq<string>)
    requires |calls| == |results|
    ensures RecordedResults(openaiStyle, ToolResultMessages(openaiStyle, calls, results))
         == seq(|calls|, k requires 0 <= k < |calls| => (calls[k].id, results[k]))
  {
    if openaiStyle {
      ToolMessagesAnswer(calls, results);
    } else {
      ResultBlocksAnswer(calls, results);
      var ms := ToolResultMessages(false, calls, results);
      assert RecordedResults(false, ms) == OwnResults(false, ms[0]) + RecordedResults(false, []);
    }
  }

  lemma {:induction false} RecordedResultsAppend(openaiStyle: bool, a: seq<Message>, b: seq<Message>)
    ensures RecordedResults(openaiStyle, a + b) == RecordedResults(openaiStyle, a) + RecordedResults(openaiStyle, b)
  {
    hide OwnResults;
    if a == [] {
      assert a + b == b;
    } else {
      RecordedResultsAppend(openaiStyle, a[1..], b);
      assert (a + b)[0] == a[0] && (a + b)[1..] == a[1..] + b;
      AppendAssociates(OwnResults(openaiStyle, a[0]), RecordedResults(openaiStyle, a[1..]), RecordedResults(openaiStyle, b));
    }
  }

  lemma {:induction false} ToolUseResults(calls: seq<ToolCall>)
    ensures BlockResults(Map(calls, ToolUseBlock)) == []
  {
    if calls != [] {
      ToolUseResults(calls[1..]);
      assert Map(calls, ToolUseBlock)[1..] == Map(calls[1..], ToolUseBlock);
    }
  }

  lemma AssistantHasNoResults(openaiStyle: bool, text: string, calls: seq<ToolCall>)
    ensures RecordedResults(openaiStyle, [AssistantMessage(openaiStyle, text, calls)]) == []
  {
    var m := AssistantMessage(openaiStyle, text, calls);
    ToolUseResults(calls);
    var blocks := Map(calls, ToolUseBlock);
    if !openaiStyle && text != "" {
      assert ([Block(TextBlock(text), None)] + blocks)[1..] == blocks;
    } else {
      assert [] + blocks == blocks;
    }
    assert OwnResults(openaiStyle, m) == [];
    hide OwnResults, AssistantMessage;
    assert RecordedResults(openaiStyle, [m]) == OwnResults(openaiStyle, m) + RecordedResults(openaiStyle, []);
  }

  lemma ReturnsWhenAll(t: Turn)
    ensures
      var calls := CallsOf(t.events);
      if t.streamRaises || !AllReturn(t) then Returns(t) == []
      else |Returns(t)| == |calls| && forall k :: 0 <= k < |calls| ==> Returns(t)[k] == (calls[k].id, Results(t)[k])
  {
    AllReturnMeans(t, |CallsOf(t.events)|);
    hide CallsOf;
    var calls := CallsOf(t.events);
    if !t.streamRaises && AllReturn(t) {
      if calls != [] {
        assert ToolReturns(t, |calls| - 1);
      }
      assert forall k :: 0 <= k < |calls| ==> Outcome(t, k) == t.tools[k];
    }
  }

  lemma ExchangeReturns(t: Turn, openaiStyle: bool)
    ensures RecordedResults(openaiStyle, Exchange(t, openaiStyle)) == Returns(t)
  {
    var text, calls, exchange := TextOf(t.events), CallsOf(t.events), Exchange(t, openaiStyle);
    AssistantHasNoResults(openaiStyle, text, calls);
    hide TextOf, CallsOf, AssistantMessage, ToolResultMessages, OwnResults;
    ReturnsWhenAll(t);
    hide Returns, AllReturn;
    if exchange != [] && calls != [] {
      ResultsAreRecorded(openaiStyle, calls, Results(t));
      RecordedResultsAppend(openaiStyle, [AssistantMessage(openaiStyle, text, calls)],
                            ToolResultMessages(openaiStyle, calls, Results(t)));
    }
  }

  /** The history holds, call by call, what each tool returned in the turns that completed. */
  lemma {:induction false} EachResultReachesItsCall(script: nat -> Turn, openaiStyle: bool, n: nat)
    ensures RecordedResults(openaiStyle, Exchanges(script, openaiStyle, n)) == AllReturns(script, n)
  {
    if n > 0 {
      EachResultReachesItsCall(script, openaiStyle, n - 1);
      ExchangeReturns(script(n - 1), openaiStyle);
      RecordedResultsAppend(openaiStyle, Exchanges(script, openaiStyle, n - 1), Exchange(script(n - 1), openaiStyle));
    }
  }
}
