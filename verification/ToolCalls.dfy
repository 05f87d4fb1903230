// src/core/llm.py: putting streamed tool calls back together, for both wire formats.
module ToolCalls {
  import opened Collections
  import opened CacheMarkers
  import opened AgenticLoop

  /** One tool-call delta; an absent id, name or argument piece is the empty string. */
  datatype Fragment = Fragment(index: int, id: string, name: string, arguments: string)

  /** A chunk without a choice carries usage only; no finish reason is the empty string. */
  datatype Chunk = NoChoice | Choice(text: string, fragments: seq<Fragment>, finishReason: string)

  /** A tool call being assembled. */
  datatype Entry = Entry(id: string, name: string, arguments: string)

  type Parser = string -> Option<Json>

  /** No arguments, or arguments that do not parse, are the empty object. */
  function ToolInput(parse: Parser, arguments: string): Json {
    if arguments == "" then JObject(map[])
    else
      match parse(arguments)
      case None => JObject(map[])
      case Some(v) => v
  }

  function CallOf(parse: Parser, e: Entry): ToolCall {
    ToolCall(e.id, e.name, ToolInput(parse, e.arguments))
  }

  // ---- What a batch of fragments means ----------------------------------------------

  /** The fragments of one index, in order. */
  function Projection(fragments: seq<Fragment>, index: int): seq<Fragment> {
    if fragments == [] then []
    else
      var last := fragments[|fragments| - 1];
      Projection(fragments[..|fragments| - 1], index) + (if last.index == index then [last] else [])
  }

  function LatestId(fragments: seq<Fragment>): string {
    if fragments == [] then ""
    else
      var last := fragments[|fragments| - 1];
      if last.id != "" then last.id else LatestId(fragments[..|fragments| - 1])
  }

  function LatestName(fragments: seq<Fragment>): string {
    if fragments == [] then ""
    else
      var last := fragments[|fragments| - 1];
      if last.name != "" then last.name else LatestName(fragments[..|fragments| - 1])
  }

  function Arguments(fragments: seq<Fragment>): string {
    if fragments == [] then ""
    else Arguments(fragments[..|fragments| - 1]) + fragments[|fragments| - 1].arguments
  }

  /** What the fragments of one index assemble to: nothing but that index matters. */
  function Assembled(own: seq<Fragment>): Entry {
    Entry(LatestId(own), LatestName(own), Arguments(own))
  }

  /** The indices, by first appearance. */
  function Seen(fragments: seq<Fragment>): (r: seq<int>)
    ensures Distinct(r)
    ensures forall i :: i in r <==> exists k :: 0 <= k < |fragments| && fragments[k].index == i
  {
    if fragments == [] then []
    else
      var init, last := fragments[..|fragments| - 1], fragments[|fragments| - 1];
      assert fragments == init + [last];
      if last.index in Seen(init) then Seen(init) else Seen(init) + [last.index]
  }

  function CallAt(fragments: seq<Fragment>, parse: Parser, index: int): ToolCall {
    CallOf(parse, Assembled(Projection(fragments, index)))
  }

  /** The calls of a batch: one for each index. */
  function BatchCalls(fragments: seq<Fragment>, parse: Parser): (r: seq<ToolCall>)
    ensures |r| == |Seen(fragments)|
  {
    var seen := Seen(fragments);
    seq(|seen|, k requires 0 <= k < |seen| => CallAt(fragments, parse, seen[k]))
  }

  // ---- What a stream means ------------------------------------------------------------

  function Delta(c: Chunk): seq<Fragment> {
    if c.Choice? then c.fragments else []
  }

  predicate Finishes(c: Chunk) {
    c.Choice? && c.finishReason != ""
  }

  /** The fragments since the last finishing chunk. */
  function Pending(chunks: seq<Chunk>): seq<Fragment> {
    if chunks == [] then []
    else
      var last := chunks[|chunks| - 1];
      if Finishes(last) then [] else Pending(chunks[..|chunks| - 1]) + Delta(last)
  }

  /** The batches that finishing chunks close. */
  function Batches(chunks: seq<Chunk>): seq<seq<Fragment>> {
    if chunks == [] then []
    else
      var init, last := chunks[..|chunks| - 1], chunks[|chunks| - 1];
      Batches(init) + (if Finishes(last) then [Pending(init) + Delta(last)] else [])
  }

  function TextEvents(c: Chunk): seq<Event> {
    if c.Choice? && c.text != "" then [TextChunk(c.text)] else []
  }

  function Requests(calls: seq<ToolCall>): seq<Event> {
    Map(calls, Request)
  }

  function Request(call: ToolCall): Event {
    ToolCallRequest(call)
  }

  /** Everything yielded before the closing event. */
  function Yielded(chunks: seq<Chunk>, parse: Parser): seq<Event> {
    if chunks == [] then []
    else
      var init, last := chunks[..|chunks| - 1], chunks[|chunks| - 1];
      Yielded(init, parse) + TextEvents(last)
      + (if Finishes(last) then Requests(BatchCalls(Pending(init) + Delta(last), parse)) else [])
  }

  function FinishReason(chunks: seq<Chunk>): string {
    if chunks == [] then ""
    else
      var last := chunks[|chunks| - 1];
      if Finishes(last) then last.finishReason else FinishReason(chunks[..|chunks| - 1])
  }

  /** The closing event carries the last finish reason of the stream, if there was one. */
  lemma {:induction false} LastFinishReason(chunks: seq<Chunk>)
    ensures if FinishReason(chunks) == "" then forall i :: 0 <= i < |chunks| ==> !Finishes(chunks[i])
            else exists i :: 0 <= i < |chunks| && Finishes(chunks[i]) && FinishReason(chunks) == chunks[i].finishReason
                   && forall j :: i < j < |chunks| ==> !Finishes(chunks[j])
  {
    if chunks != [] {
      var init, last := chunks[..|chunks| - 1], chunks[|chunks| - 1];
      LastFinishReason(init);
      assert chunks == init + [last];
      assert FinishReason(chunks) == if Finishes(last) then last.finishReason else FinishReason(init);
      assert Finishes(last) ==> last.finishReason != "";
      hide FinishReason, Finishes;
      if Finishes(last) {
        assert chunks[|init|] == last;
      } else if FinishReason(init) != "" {
        var i :| 0 <= i < |init| && Finishes(init[i]) && FinishReason(init) == init[i].finishReason
          && forall j :: i < j < |init| ==> !Finishes(init[j]);
        assert chunks[i] == init[i];
      }
    }
  }

  // ---- _stream_turn_openai --------------------------------------------------------

  /** `order` and `entries` are the keys, in insertion order, and the items of the dictionary. */
  ghost predicate Tracks(order: seq<int>, entries: map<int, Entry>, pending: seq<Fragment>) {
    && order == Seen(pending)
    && (forall i :: i in entries <==> i in order)
    && (forall i :: i in order ==> entries[i] == Assembled(Projection(pending, i)))
  }

  lemma ProjectionStep(fragments: seq<Fragment>, f: Fragment, index: int)
    ensures Projection(fragments + [f], index) == Projection(fragments, index) + (if f.index == index then [f] else [])
  {
    assert (fragments + [f])[..|fragments + [f]| - 1] == fragments;
  }

  lemma AssembledStep(own: seq<Fragment>, f: Fragment)
    ensures Assembled(own + [f]) == Merged(Assembled(own), f)
  {
    assert (own + [f])[..|own + [f]| - 1] == own;
  }

  lemma {:induction false} UnseenIsEmpty(fragments: seq<Fragment>, index: int)
    requires index !in Seen(fragments)
    ensures Projection(fragments, index) == []
  {
    if fragments != [] {
      UnseenIsEmpty(fragments[..|fragments| - 1], index);
    }
  }

  lemma SeenStep(fragments: seq<Fragment>, f: Fragment)
    ensures Seen(fragments + [f]) == if f.index in Seen(fragments) then Seen(fragments) else Seen(fragments) + [f.index]
  {
    assert (fragments + [f])[..|fragments + [f]| - 1] == fragments;
  }

  /** The dictionary entry after one more delta. */
  function Merged(tc: Entry, f: Fragment): Entry {
    Entry(if f.id != "" then f.id else tc.id, if f.name != "" then f.name else tc.name, tc.arguments + f.arguments)
  }

  lemma EntryStep(fragments: seq<Fragment>, f: Fragment, i: int)
    requires i in Seen(fragments + [f])
    ensures Assembled(Projection(fragments + [f], i)) ==
      if i != f.index then Assembled(Projection(fragments, i))
      else Merged(if i in Seen(fragments) then Assembled(Projection(fragments, i)) else Entry("", "", ""), f)
  {
    ProjectionStep(fragments, f, i);
    if i == f.index {
      AssembledStep(Projection(fragments, i), f);
      if i !in Seen(fragments) {
        UnseenIsEmpty(fragments, i);
      }
    } else {
      hide Assembled;
      assert Projection(fragments, i) + [] == Projection(fragments, i);
    }
  }

  lemma TracksStep(order: seq<int>, entries: map<int, Entry>, pending: seq<Fragment>, f: Fragment, tc: Entry)
    requires Tracks(order, entries, pending)
    requires tc == if f.index in entries then entries[f.index] else Entry("", "", "")
    ensures Tracks(if f.index in entries then order else order + [f.index], entries[f.index := Merged(tc, f)], pending + [f])
  {
    hide Assembled, Projection, Seen, Merged;
    SeenStep(pending, f);
    forall i | i in Seen(pending + [f])
      ensures Assembled(Projection(pending + [f], i)) ==
        if i != f.index then Assembled(Projection(pending, i))
        else Merged(if i in Seen(pending) then Assembled(Projection(pending, i)) else Entry("", "", ""), f)
    {
      EntryStep(pending, f, i);
    }
  }

  /** Merges one delta into the dictionary. */
  method AddFragment(order: seq<int>, entries: map<int, Entry>, f: Fragment, ghost pending: seq<Fragment>)
    returns (order': seq<int>, entries': map<int, Entry>)
    requires Tracks(order, entries, pending)
    ensures Tracks(order', entries', pending + [f])
  {
    hide Tracks;
    order', entries' := order, entries;
    if f.index !in entries {
      order' := order' + [f.index];
      entries' := entries'[f.index := Entry("", "", "")];
    }
    ghost var start := entries'[f.index];
    var tc := entries'[f.index];
    if f.id != "" {
      tc := tc.(id := f.id);
    }
    if f.name != "" {
      tc := tc.(name := f.name);
    }
    if f.arguments != "" {
      tc := tc.(arguments := tc.arguments + f.arguments);
    }
    TracksStep(order, entries, pending, f, start);
    assert f.arguments == "" ==> start.arguments + f.arguments == start.arguments;
    assert entries'[f.index := tc] == entries[f.index := tc];
    entries' := entries'[f.index := tc];
  }

  method EmitCalls(order: seq<int>, entries: map<int, Entry>, parse: Parser, ghost pending: seq<Fragment>)
    returns (events: seq<Event>)
    requires Tracks(order, entries, pending)
    ensures events == Requests(BatchCalls(pending, parse))
  {
    TracksCalls(order, entries, parse, pending);
    hide Tracks, BatchCalls;
    events := [];
    for k := 0 to |order|
      invariant |events| == k
      invariant forall j :: 0 <= j < k ==> events[j] == ToolCallRequest(BatchCalls(pending, parse)[j])
    {
      var tc := entries[order[k]];
      var input := JObject(map[]);
      if tc.arguments != "" {
        match parse(tc.arguments)
        case None =>
        case Some(v) => input := v;
      }
      events := events + [ToolCallRequest(ToolCall(tc.id, tc.name, input))];
    }
  }

  lemma TracksCalls(order: seq<int>, entries: map<int, Entry>, parse: Parser, pending: seq<Fragment>)
    requires Tracks(order, entries, pending)
    ensures |BatchCalls(pending, parse)| == |order|
    ensures forall k :: 0 <= k < |order| ==>
      order[k] in entries && BatchCalls(pending, parse)[k] == CallOf(parse, entries[order[k]])
  {
    hide Seen, Projection, Assembled, CallOf;
  }

  method AddFragments(order: seq<int>, entries: map<int, Entry>, fragments: seq<Fragment>, ghost pending: seq<Fragment>)
    returns (order': seq<int>, entries': map<int, Entry>)
    requires Tracks(order, entries, pending)
    ensures Tracks(order', entries', pending + fragments)
  {
    hide Tracks;
    order', entries' := order, entries;
    assert pending + fragments[..0] == pending;
    for j := 0 to |fragments|
      invariant Tracks(order', entries', pending + fragments[..j])
    {
      order', entries' := AddFragment(order', entries', fragments[j], pending + fragments[..j]);
      assert pending + fragments[..j] + [fragments[j]] == pending + fragments[..j + 1];
    }
    assert fragments[..|fragments|] == fragments;
  }

  /** Processes one chunk. */
  method StreamChunk(order: seq<int>, entries: map<int, Entry>, chunk: Chunk, parse: Parser, ghost pending: seq<Fragment>)
    returns (order': seq<int>, entries': map<int, Entry>, events: seq<Event>, finishReason: string)
    requires Tracks(order, entries, pending)
    ensures Tracks(order', entries', if Finishes(chunk) then [] else pending + Delta(chunk))
    ensures events == TextEvents(chunk) + (if Finishes(chunk) then Requests(BatchCalls(pending + Delta(chunk), parse)) else [])
    ensures finishReason == if chunk.Choice? then chunk.finishReason else ""
  {
    NothingTracked();
    hide Tracks, BatchCalls, Requests;
    order', entries', events, finishReason := order, entries, [], "";
    if chunk.NoChoice? {
      assert pending + [] == pending;
      return;
    }
    if chunk.text != "" {
      events := events + [TextChunk(chunk.text)];
    }
    order', entries' := AddFragments(order', entries', chunk.fragments, pending);
    finishReason := chunk.finishReason;
    if finishReason != "" {
      var calls := EmitCalls(order', entries', parse, pending + chunk.fragments);
      events := events + calls;
      order', entries' := [], map[];
    }
  }

  method StreamTurnOpenAI(chunks: seq<Chunk>, parse: Parser) returns (events: seq<Event>)
    ensures events == Yielded(chunks, parse)
                      + [StreamDone(if FinishReason(chunks) == "" then "end_turn" else FinishReason(chunks))]
  {
    NothingTracked();
    hide Tracks, BatchCalls, Requests, TextEvents;
    var order: seq<int>, entries: map<int, Entry> := [], map[];
    var finishReason := "";
    events := [];
    for i := 0 to |chunks|
      invariant Tracks(order, entries, Pending(chunks[..i]))
      invariant events == Yielded(chunks[..i], parse)
      invariant finishReason == FinishReason(chunks[..i])
    {
      assert chunks[..i + 1][..i] == chunks[..i];
      var batch, reason;
      order, entries, batch, reason := StreamChunk(order, entries, chunks[i], parse, Pending(chunks[..i]));
      events := events + batch;
      if reason != "" {
        finishReason := reason;
      }
    }
    assert chunks[..|chunks|] == chunks;
    events := events + [StreamDone(if finishReason == "" then "end_turn" else finishReason)];
  }

  lemma NothingTracked()
    ensures Tracks([], map[], [])
  {
  }

  // ---- Interleaving does not matter ---------------------------------------------------

  lemma {:induction false} SeenIffProjected(fragments: seq<Fragment>, index: int)
    ensures index in Seen(fragments) <==> Projection(fragments, index) != []
  {
    if fragments != [] {
      SeenIffProjected(fragments[..|fragments| - 1], index);
    }
  }

  lemma DistinctCounts<T>(s: seq<T>, x: T)
    requires Distinct(s)
    ensures multiset(s)[x] == if x in s then 1 else 0
  {
    if x in s {
      var k :| 0 <= k < |s| && s[k] == x;
      assert s == s[..k] + [x] + s[k + 1..];
      assert x !in s[..k] && x !in s[k + 1..];
    }
  }

  lemma {:induction false} MapKeepsPermutation<T, U>(s: seq<T>, t: seq<T>, f: T -> U)
    requires multiset(s) == multiset(t)
    ensures multiset(Map(s, f)) == multiset(Map(t, f))
    decreases |s|
  {
    if s == [] {
      assert |t| == |multiset(t)| == 0;
    } else {
      var x := s[|s| - 1];
      assert s == s[..|s| - 1] + [x];
      assert x in multiset(t);
      var k :| 0 <= k < |t| && t[k] == x;
      var t' := t[..k] + t[k + 1..];
      assert t == t[..k] + [x] + t[k + 1..];
      assert multiset(t) == multiset(t') + multiset{x};
      assert multiset(s) == multiset(s[..|s| - 1]) + multiset{x};
      assert multiset(t') == multiset(t) - multiset{x};
      MapKeepsPermutation(s[..|s| - 1], t', f);
      MapAppend(s[..|s| - 1], [x], f);
      MapAppend(t[..k], t[k + 1..], f);
      MapAppend(t[..k] + [x], t[k + 1..], f);
      MapAppend(t[..k], [x], f);
      hide Map;
    }
  }

  /**
   * Any interleaving of the same per-index fragments gives the same calls, one per
   * index; where the indices also first appear in the same order, in the same order.
   */
  lemma InterleavingIndependent(a: seq<Fragment>, b: seq<Fragment>, parse: Parser)
    requires forall i :: Projection(a, i) == Projection(b, i)
    ensures multiset(BatchCalls(a, parse)) == multiset(BatchCalls(b, parse))
    ensures Seen(a) == Seen(b) ==> BatchCalls(a, parse) == BatchCalls(b, parse)
  {
    var f := i => CallAt(a, parse, i);
    assert BatchCalls(a, parse) == Map(Seen(a), f);
    assert BatchCalls(b, parse) == Map(Seen(b), f);
    forall i
      ensures multiset(Seen(a))[i] == multiset(Seen(b))[i]
    {
      SeenIffProjected(a, i);
      SeenIffProjected(b, i);
      DistinctCounts(Seen(a), i);
      DistinctCounts(Seen(b), i);
    }
    hide Seen, BatchCalls;
    assert multiset(Seen(a)) == multiset(Seen(b));
    MapKeepsPermutation(Seen(a), Seen(b), f);
  }

  // ---- Every fragment is in one batch, or pending ----------------------------------------

  function AllFragments(chunks: seq<Chunk>): seq<Fragment> {
    if chunks == [] then []
    else
      var last := chunks[|chunks| - 1];
      AllFragments(chunks[..|chunks| - 1]) + (if last.Choice? then last.fragments else [])
  }

  function Flatten(batches: seq<seq<Fragment>>): seq<Fragment> {
    if batches == [] then [] else Flatten(batches[..|batches| - 1]) + batches[|batches| - 1]
  }

  function CallsOfBatches(batches: seq<seq<Fragment>>, parse: Parser): seq<ToolCall> {
    if batches == [] then []
    else CallsOfBatches(batches[..|batches| - 1], parse) + BatchCalls(batches[|batches| - 1], parse)
  }

  function AllText(chunks: seq<Chunk>): string {
    if chunks == [] then ""
    else
      var last := chunks[|chunks| - 1];
      AllText(chunks[..|chunks| - 1]) + if last.Choice? then last.text else ""
  }

  lemma {:induction false} RequestsCarryCalls(calls: seq<ToolCall>)
    ensures CallsOf(Requests(calls)) == calls && TextOf(Requests(calls)) == ""
  {
    var events := Requests(calls);
    if calls != [] {
      var init := calls[..|calls| - 1];
      RequestsCarryCalls(init);
      assert events[..|events| - 1] == Requests(init);
      assert calls == init + [calls[|calls| - 1]];
    }
  }

  lemma TextEventsCarryText(c: Chunk)
    ensures CallsOf(TextEvents(c)) == []
    ensures TextOf(TextEvents(c)) == if c.Choice? then c.text else ""
  {
    if TextEvents(c) != [] {
      assert TextEvents(c)[..0] == [];
      assert "" + c.text == c.text;
    }
  }

  /**
   * The stream's tool calls are those of its batches, in order, and its text is intact.
   * The batches, and what is still pending when the stream ends, make up all fragments;
   * so fragments after the last finish reason are lost, and only those.
   */
  lemma {:induction false} StreamCarriesBatches(chunks: seq<Chunk>, parse: Parser)
    ensures Flatten(Batches(chunks)) + Pending(chunks) == AllFragments(chunks)
    ensures CallsOf(Yielded(chunks, parse)) == CallsOfBatches(Batches(chunks), parse)
    ensures TextOf(Yielded(chunks, parse)) == AllText(chunks)
  {
    if chunks != [] {
      var init, last := chunks[..|chunks| - 1], chunks[|chunks| - 1];
      StreamCarriesBatches(init, parse);
      var batch := Pending(init) + Delta(last);
      var closing := if Finishes(last) then Requests(BatchCalls(batch, parse)) else [];
      YieldedParts(Yielded(init, parse), last, if Finishes(last) then BatchCalls(batch, parse) else []);
      var before := Batches(init);
      if Finishes(last) {
        assert (before + [batch])[..|before + [batch]| - 1] == before;
        AppendAssociates(Flatten(before), Pending(init), Delta(last));
      } else {
        assert before + [] == before;
        AppendAssociates(Flatten(before), Pending(init), Delta(last));
      }
      hide TextOf, CallsOf, TextEvents, BatchCalls, Requests;
    }
  }

  lemma YieldedParts(before: seq<Event>, last: Chunk, calls: seq<ToolCall>)
    ensures CallsOf(before + TextEvents(last) + Requests(calls)) == CallsOf(before) + calls
    ensures TextOf(before + TextEvents(last) + Requests(calls)) == TextOf(before) + if last.Choice? then last.text else ""
  {
    hide TextOf, CallsOf, TextEvents, Requests;
    EventsAppend(before, TextEvents(last));
    EventsAppend(before + TextEvents(last), Requests(calls));
    TextEventsCarryText(last);
    RequestsCarryCalls(calls);
  }

  // ---- _stream_turn_anthropic ------------------------------------------------------

  /** A block start names the tool for a tool-use block; an absent id or name is empty. */
  datatype AnthropicEvent =
    | BlockStart(tool: Option<(string, string)>)
    | TextDelta(text: string)
    | JsonDelta(piece: string)
    | BlockStop

  function Current(events: seq<AnthropicEvent>): Entry {
    if events == [] then Entry("", "", "")
    else
      var before, last := Current(events[..|events| - 1]), events[|events| - 1];
      match last
      case BlockStart(Some(tool)) => Entry(tool.0, tool.1, "")
      case JsonDelta(piece) => before.(arguments := before.arguments + piece)
      case BlockStop => if before.id != "" && before.name != "" then Entry("", "", "") else before
      case _ => before
  }

  function AnthropicYielded(events: seq<AnthropicEvent>, parse: Parser): seq<Event> {
    if events == [] then []
    else
      var init, last := events[..|events| - 1], events[|events| - 1];
      AnthropicYielded(init, parse) +
      match last
      case TextDelta(text) => [TextChunk(text)]
      case BlockStop => if Current(init).id != "" && Current(init).name != "" then [Request(CallOf(parse, Current(init)))] else []
      case _ => []
  }

  method StreamTurnAnthropic(stream: seq<AnthropicEvent>, parse: Parser, stopReason: string) returns (events: seq<Event>)
    ensures events == AnthropicYielded(stream, parse) + [StreamDone(if stopReason == "" then "end_turn" else stopReason)]
  {
    var name, id, json := "", "", "";
    events := [];
    for i := 0 to |stream|
      invariant Current(stream[..i]) == Entry(id, name, json)
      invariant events == AnthropicYielded(stream[..i], parse)
    {
      assert stream[..i + 1][..i] == stream[..i];
      match stream[i]
      case BlockStart(tool) =>
        if tool.Some? {
          id, name, json := tool.value.0, tool.value.1, "";
        }
      case TextDelta(text) =>
        events := events + [TextChunk(text)];
      case JsonDelta(piece) =>
        json := json + piece;
      case BlockStop =>
        if name != "" && id != "" {
          var input := JObject(map[]);
          if json != "" {
            match parse(json)
            case None =>
            case Some(v) => input := v;
          }
          events := events + [ToolCallRequest(ToolCall(id, name, input))];
          name, id, json := "", "", "";
        }
    }
    assert stream[..|stream|] == stream;
    events := events + [StreamDone(if stopReason == "" then "end_turn" else stopReason)];
  }

  // ---- Content blocks there and back ----------------------------------------------------

  /** A content block as the model produces it, cut into arbitrary pieces. */
  datatype Produced = ProducedText(pieces: seq<string>) | ProducedTool(id: string, name: string, pieces: seq<string>)

  function Joined(pieces: seq<string>): string {
    if pieces == [] then "" else Joined(pieces[..|pieces| - 1]) + pieces[|pieces| - 1]
  }

  function TextDeltas(pieces: seq<string>): seq<AnthropicEvent> {
    if pieces == [] then [] else TextDeltas(pieces[..|pieces| - 1]) + [TextDelta(pieces[|pieces| - 1])]
  }

  function JsonDeltas(pieces: seq<string>): seq<AnthropicEvent> {
    if pieces == [] then [] else JsonDeltas(pieces[..|pieces| - 1]) + [JsonDelta(pieces[|pieces| - 1])]
  }

  function TextChunks(pieces: seq<string>): seq<Event> {
    if pieces == [] then [] else TextChunks(pieces[..|pieces| - 1]) + [TextChunk(pieces[|pieces| - 1])]
  }

  function Deltas(b: Produced): seq<AnthropicEvent> {
    if b.ProducedText? then TextDeltas(b.pieces) else JsonDeltas(b.pieces)
  }

  function Encoded(b: Produced): seq<AnthropicEvent> {
    [BlockStart(if b.ProducedText? then None else Some((b.id, b.name)))] + Deltas(b) + [BlockStop]
  }

  function EncodedAll(blocks: seq<Produced>): seq<AnthropicEvent> {
    if blocks == [] then [] else EncodedAll(blocks[..|blocks| - 1]) + Encoded(blocks[|blocks| - 1])
  }

  /** What the block should reach the client as. */
  function Decoded(b: Produced, parse: Parser): seq<Event> {
    if b.ProducedText? then TextChunks(b.pieces)
    else if b.id == "" || b.name == "" then []
    else [Request(ToolCall(b.id, b.name, ToolInput(parse, Joined(b.pieces))))]
  }

  function DecodedAll(blocks: seq<Produced>, parse: Parser): seq<Event> {
    if blocks == [] then [] else DecodedAll(blocks[..|blocks| - 1], parse) + Decoded(blocks[|blocks| - 1], parse)
  }

  lemma AnthropicStep(events: seq<AnthropicEvent>, e: AnthropicEvent, parse: Parser)
    ensures
      var before := Current(events);
      var complete := e.BlockStop? && before.id != "" && before.name != "";
      && Current(events + [e]) ==
           (if e.BlockStart? && e.tool.Some? then Entry(e.tool.value.0, e.tool.value.1, "")
            else if e.JsonDelta? then before.(arguments := before.arguments + e.piece)
            else if complete then Entry("", "", "") else before)
      && AnthropicYielded(events + [e], parse) == AnthropicYielded(events, parse) +
           (if e.TextDelta? then [TextChunk(e.text)]
            else if complete then [Request(CallOf(parse, before))] else [])
  {
    assert (events + [e])[..|events + [e]| - 1] == events;
  }

  lemma {:induction false} TextDeltasPass(events: seq<AnthropicEvent>, pieces: seq<string>, parse: Parser)
    ensures Current(events + TextDeltas(pieces)) == Current(events)
    ensures AnthropicYielded(events + TextDeltas(pieces), parse) == AnthropicYielded(events, parse) + TextChunks(pieces)
  {
    hide Current, AnthropicYielded;
    if pieces == [] {
      assert events + TextDeltas(pieces) == events;
    } else {
      var init, last := pieces[..|pieces| - 1], pieces[|pieces| - 1];
      var sent := events + TextDeltas(init);
      TextDeltasPass(events, init, parse);
      AnthropicStep(sent, TextDelta(last), parse);
      AppendAssociates(events, TextDeltas(init), [TextDelta(last)]);
      AppendAssociates(AnthropicYielded(events, parse), TextChunks(init), [TextChunk(last)]);
    }
  }

  lemma {:induction false} JsonDeltasGather(events: seq<AnthropicEvent>, pieces: seq<string>, parse: Parser)
    ensures
      var before := Current(events);
      Current(events + JsonDeltas(pieces)) == before.(arguments := before.arguments + Joined(pieces))
    ensures AnthropicYielded(events + JsonDeltas(pieces), parse) == AnthropicYielded(events, parse)
  {
    hide Current, AnthropicYielded;
    if pieces == [] {
      assert events + JsonDeltas(pieces) == events;
    } else {
      var init, last := pieces[..|pieces| - 1], pieces[|pieces| - 1];
      var sent := events + JsonDeltas(init);
      JsonDeltasGather(events, init, parse);
      AnthropicStep(sent, JsonDelta(last), parse);
      AppendAssociates(Current(events).arguments, Joined(init), last);
      AppendAssociates(events, JsonDeltas(init), [JsonDelta(last)]);
      assert AnthropicYielded(sent, parse) + [] == AnthropicYielded(sent, parse);
    }
  }

  predicate Idle(e: Entry) {
    e.id == "" || e.name == ""
  }

  lemma TextDecodes(events: seq<AnthropicEvent>, b: Produced, parse: Parser)
    requires Idle(Current(events)) && b.ProducedText?
    ensures Idle(Current(events + Encoded(b)))
    ensures AnthropicYielded(events + Encoded(b), parse) == AnthropicYielded(events, parse) + Decoded(b, parse)
  {
    hide Current, AnthropicYielded, TextDeltas, TextChunks;
    var begun := events + [BlockStart(None)];
    AnthropicStep(events, BlockStart(None), parse);
    TextDeltasPass(begun, b.pieces, parse);
    AnthropicStep(begun + Deltas(b), BlockStop, parse);
    assert events + Encoded(b) == begun + Deltas(b) + [BlockStop];
  }

  lemma ToolDecodes(events: seq<AnthropicEvent>, b: Produced, parse: Parser)
    requires b.ProducedTool?
    ensures Idle(Current(events + Encoded(b)))
    ensures AnthropicYielded(events + Encoded(b), parse) == AnthropicYielded(events, parse) + Decoded(b, parse)
  {
    hide Current, AnthropicYielded, Joined, ToolInput, JsonDeltas;
    var start := BlockStart(Some((b.id, b.name)));
    var begun := events + [start];
    AnthropicStep(events, start, parse);
    JsonDeltasGather(begun, b.pieces, parse);
    assert "" + Joined(b.pieces) == Joined(b.pieces);
    AnthropicStep(begun + Deltas(b), BlockStop, parse);
    assert events + Encoded(b) == begun + Deltas(b) + [BlockStop];
  }

  /** Content blocks survive the Anthropic stream however their text and arguments are cut. */
  lemma {:induction false} AnthropicRoundTrip(blocks: seq<Produced>, parse: Parser)
    ensures AnthropicYielded(EncodedAll(blocks), parse) == DecodedAll(blocks, parse)
    ensures Idle(Current(EncodedAll(blocks)))
  {
    if blocks != [] {
      var init, last := blocks[..|blocks| - 1], blocks[|blocks| - 1];
      AnthropicRoundTrip(init, parse);
      if last.ProducedText? {
        TextDecodes(EncodedAll(init), last, parse);
      } else {
        ToolDecodes(EncodedAll(init), last, parse);
      }
    }
  }

  /** A tool call as the OpenAI format streams it: id and name come first, then the pieces one by one. */
  function ToolDeltas(tool: Produced, index: int): seq<Fragment>
    requires tool.ProducedTool?
    decreases |tool.pieces|
  {
    var pieces := tool.pieces;
    if |pieces| <= 1 then [Fragment(index, tool.id, tool.name, if pieces == [] then "" else pieces[0])]
    else
      ToolDeltas(tool.(pieces := pieces[..|pieces| - 1]), index) + [Fragment(index, "", "", pieces[|pieces| - 1])]
  }

  lemma JoinedOne(piece: string)
    ensures Joined([piece]) == piece
  {
    assert [piece][..0] == [] && "" + piece == piece;
  }

  lemma {:induction false} DeltasAssemble(tool: Produced, index: int)
    requires tool.ProducedTool?
    ensures Assembled(ToolDeltas(tool, index)) == Entry(tool.id, tool.name, Joined(tool.pieces))
    decreases |tool.pieces|
  {
    var pieces := tool.pieces;
    if |pieces| <= 1 {
      var only := Fragment(index, tool.id, tool.name, if pieces == [] then "" else pieces[0]);
      AssembledStep([], only);
      assert [] + [only] == ToolDeltas(tool, index) && "" + only.arguments == only.arguments;
      if |pieces| == 1 {
        JoinedOne(pieces[0]);
        assert pieces == [pieces[0]];
      }
    } else {
      var init := tool.(pieces := pieces[..|pieces| - 1]);
      DeltasAssemble(init, index);
      AssembledStep(ToolDeltas(init, index), Fragment(index, "", "", pieces[|pieces| - 1]));
      hide Assembled;
    }
  }

  /** `fragments` interleaves the deltas of exactly these tools, call `k` under index `k`. */
  ghost predicate Carries(fragments: seq<Fragment>, tools: seq<Produced>)
    requires forall k :: 0 <= k < |tools| ==> tools[k].ProducedTool?
  {
    && Seen(fragments) == seq(|tools|, k => k)
    && forall k :: 0 <= k < |tools| ==> Projection(fragments, k) == ToolDeltas(tools[k], k)
  }

  /** The call is the tool's, its input the parsed arguments, or empty when there are none or they do not parse. */
  predicate CallIs(call: ToolCall, tool: Produced, parse: Parser)
    requires tool.ProducedTool?
  {
    var arguments := Joined(tool.pieces);
    && call.id == tool.id && call.name == tool.name
    && (arguments != "" && parse(arguments).Some? ==> call.input == parse(arguments).value)
    && (arguments == "" || parse(arguments).None? ==> call.input == JObject(map[]))
  }

  lemma CarriedCalls(fragments: seq<Fragment>, tools: seq<Produced>, parse: Parser)
    requires forall k :: 0 <= k < |tools| ==> tools[k].ProducedTool?
    requires Carries(fragments, tools)
    ensures |BatchCalls(fragments, parse)| == |tools|
    ensures forall k :: 0 <= k < |tools| ==>
      && BatchCalls(fragments, parse)[k] == ToolCall(tools[k].id, tools[k].name, ToolInput(parse, Joined(tools[k].pieces)))
      && CallIs(BatchCalls(fragments, parse)[k], tools[k], parse)
  {
    hide Seen, Projection, Assembled, ToolDeltas, Joined;
    forall k | 0 <= k < |tools|
      ensures BatchCalls(fragments, parse)[k] == ToolCall(tools[k].id, tools[k].name, ToolInput(parse, Joined(tools[k].pieces)))
    {
      DeltasAssemble(tools[k], k);
    }
  }

  lemma {:induction false} NothingFinishes(chunks: seq<Chunk>)
    requires forall i :: 0 <= i < |chunks| ==> !Finishes(chunks[i])
    ensures Pending(chunks) == AllFragments(chunks) && Batches(chunks) == []
  {
    if chunks != [] {
      NothingFinishes(chunks[..|chunks| - 1]);
    }
  }

  /**
   * Tool calls survive the OpenAI stream however their arguments are cut and interleaved
   * over the chunks, once a finish reason closes it: each comes out with its own id and
   * name and its joined arguments parsed.
   */
  lemma OpenAIRoundTrip(chunks: seq<Chunk>, tools: seq<Produced>, parse: Parser)
    requires chunks != [] && Finishes(chunks[|chunks| - 1])
    requires forall i :: 0 <= i < |chunks| - 1 ==> !Finishes(chunks[i])
    requires forall k :: 0 <= k < |tools| ==> tools[k].ProducedTool?
    requires Carries(AllFragments(chunks), tools)
    ensures |CallsOf(Yielded(chunks, parse))| == |tools|
    ensures forall k :: 0 <= k < |tools| ==> CallIs(CallsOf(Yielded(chunks, parse))[k], tools[k], parse)
    ensures TextOf(Yielded(chunks, parse)) == AllText(chunks)
  {
    var init, fragments := chunks[..|chunks| - 1], AllFragments(chunks);
    NothingFinishes(init);
    StreamCarriesBatches(chunks, parse);
    assert Batches(chunks) == [] + [fragments] == [fragments];
    hide Yielded, Batches, AllFragments, CallsOf, TextOf, AllText, CallIs, Carries;
    OneBatchCalls(fragments, parse);
    CarriedCalls(fragments, tools, parse);
  }

  lemma OneBatchCalls(fragments: seq<Fragment>, parse: Parser)
    ensures CallsOfBatches([fragments], parse) == BatchCalls(fragments, parse)
  {
    assert [fragments][..0] == [];
    hide BatchCalls;
    assert CallsOfBatches([], parse) + BatchCalls(fragments, parse) == BatchCalls(fragments, parse);
  }

  lemma {:induction false} ToolsDecode(tools: seq<Produced>, parse: Parser)
    requires forall k :: 0 <= k < |tools| ==> tools[k].ProducedTool? && tools[k].id != "" && tools[k].name != ""
    ensures |DecodedAll(tools, parse)| == |tools|
    ensures forall k :: 0 <= k < |tools| ==>
      DecodedAll(tools, parse)[k] == Request(ToolCall(tools[k].id, tools[k].name, ToolInput(parse, Joined(tools[k].pieces))))
  {
    if tools != [] {
      hide ToolInput, Joined;
      var init := tools[..|tools| - 1];
      ToolsDecode(init, parse);
      var last := Decoded(tools[|tools| - 1], parse);
      assert DecodedAll(tools, parse) == DecodedAll(init, parse) + last && |last| == 1;
      hide DecodedAll;
      assert forall k :: 0 <= k < |init| ==> tools[k] == init[k];
    }
  }

  /** Both providers' streams of the same tool calls reach the loop as the same requests. */
  lemma ProvidersAgree(tools: seq<Produced>, fragments: seq<Fragment>, parse: Parser)
    requires forall k :: 0 <= k < |tools| ==> tools[k].ProducedTool? && tools[k].id != "" && tools[k].name != ""
    requires Carries(fragments, tools)
    ensures Requests(BatchCalls(fragments, parse)) == AnthropicYielded(EncodedAll(tools), parse)
  {
    AnthropicRoundTrip(tools, parse);
    ToolsDecode(tools, parse);
    CarriedCalls(fragments, tools, parse);
    hide Carries, BatchCalls, Seen, Projection, DecodedAll, EncodedAll, AnthropicYielded;
  }
}
