// src/core/llm.py: provider messages and the request-only trimming of their
// cache_control markers.
module CacheMarkers {
  import opened Collections

  const MAX_CACHE_CONTROL_BLOCKS: nat := 4

  datatype Role = User | Assistant | ToolRole

  datatype ToolCall = ToolCall(id: string, name: string, input: Json)

  datatype Payload =
    | TextBlock(text: string)
    | ToolUse(call: ToolCall)
    | ToolResult(toolUseId: string, result: string)
    | OtherBlock(fields: map<string, Json>)

  /** A content block: a dict with or without a cache_control key, or something that is no dict. */
  datatype Block = Block(payload: Payload, cacheControl: Option<Json>) | NotADict(value: Json)

  datatype Content = NoContent | Plain(text: string) | Blocks(blocks: seq<Block>)

  /** `toolCalls` and `toolCallId` are only used in the OpenAI wire format. */
  datatype Message = Message(role: Role, content: Content, toolCalls: seq<ToolCall>, toolCallId: Option<string>)

  predicate Marked(b: Block) {
    b.Block? && b.cacheControl.Some?
  }

  function Strip(b: Block): Block {
    if b.Block? then b.(cacheControl := None) else b
  }

  // ---- finalize_messages_for_provider ----------------------------------------------

  function StripMessage(m: Message): Message {
    if m.content.Blocks? then m.(content := Blocks(Map(m.content.blocks, Strip))) else m
  }

  function BlockPositions(blocks: seq<Block>, mi: nat, bi: nat): seq<(nat, nat)>
    decreases blocks
  {
    if blocks == [] then []
    else (if Marked(blocks[0]) then [(mi, bi)] else []) + BlockPositions(blocks[1..], mi, bi + 1)
  }

  /** The (message, block) positions of all markers, in order. */
  function Positions(messages: seq<Message>, mi: nat): seq<(nat, nat)>
    decreases messages
  {
    if messages == [] then []
    else BlockPositions(BlocksOf(messages[0]), mi, 0) + Positions(messages[1..], mi + 1)
  }

  function BlocksOf(m: Message): seq<Block> {
    if m.content.Blocks? then m.content.blocks else []
  }

  predicate Dropped(drop: set<(nat, nat)>, mi: nat, bi: nat) {
    (mi, bi) in drop
  }

  function DropFrom(m: Message, mi: nat, drop: set<(nat, nat)>): Message {
    if !m.content.Blocks? then m
    else m.(content := Blocks(DropBlocks(m.content.blocks, mi, drop)))
  }

  function DropBlocks(blocks: seq<Block>, mi: nat, drop: set<(nat, nat)>): (r: seq<Block>)
    ensures |r| == |blocks|
    ensures forall bi :: 0 <= bi < |blocks| ==> r[bi] == if Dropped(drop, mi, bi) then Strip(blocks[bi]) else blocks[bi]
  {
    seq(|blocks|, bi requires 0 <= bi < |blocks| => if Dropped(drop, mi, bi) then Strip(blocks[bi]) else blocks[bi])
  }

  function Finalize(messages: seq<Message>, openaiStyle: bool): (r: seq<Message>)
    ensures |r| == |messages|
  {
    if openaiStyle then Map(messages, StripMessage)
    else
      var positions := Positions(messages, 0);
      if |positions| <= MAX_CACHE_CONTROL_BLOCKS then messages
      else
        var drop := set i | 0 <= i < |positions| - MAX_CACHE_CONTROL_BLOCKS :: positions[i];
        seq(|messages|, mi requires 0 <= mi < |messages| => DropFrom(messages[mi], mi, drop))
  }

  // ---- What it is for: a marker survives when fewer than four come after it -----------

  function BlockMarks(blocks: seq<Block>): nat {
    if blocks == [] then 0 else (if Marked(blocks[0]) then 1 else 0) + BlockMarks(blocks[1..])
  }

  function Marks(messages: seq<Message>): nat {
    if messages == [] then 0 else BlockMarks(BlocksOf(messages[0])) + Marks(messages[1..])
  }

  /** `after` markers follow these blocks. */
  function TrimBlocks(blocks: seq<Block>, after: nat): (r: seq<Block>)
    ensures |r| == |blocks|
  {
    if blocks == [] then []
    else
      var later := BlockMarks(blocks[1..]) + after;
      [if later >= MAX_CACHE_CONTROL_BLOCKS then Strip(blocks[0]) else blocks[0]] + TrimBlocks(blocks[1..], after)
  }

  function TrimMessage(m: Message, after: nat): Message {
    if m.content.Blocks? then m.(content := Blocks(TrimBlocks(m.content.blocks, after))) else m
  }

  function Trimmed(messages: seq<Message>): (r: seq<Message>)
    ensures |r| == |messages|
  {
    if messages == [] then [] else [TrimMessage(messages[0], Marks(messages[1..]))] + Trimmed(messages[1..])
  }

  function Erase(messages: seq<Message>): seq<Message> {
    Map(messages, StripMessage)
  }

  // ---- Positions count markers -----------------------------------------------------

  lemma {:induction false} BlockPositionsAt(blocks: seq<Block>, mi: nat, bi: nat, k: nat)
    requires k < |blocks| && Marked(blocks[k])
    ensures
      var p := BlockPositions(blocks, mi, bi);
      var i := |p| - 1 - BlockMarks(blocks[k + 1..]);
      |p| == BlockMarks(blocks) && 0 <= i < |p| && p[i] == (mi, bi + k)
    decreases blocks
  {
    BlockPositionsSize(blocks[1..], mi, bi + 1);
    if k > 0 {
      BlockPositionsAt(blocks[1..], mi, bi + 1, k - 1);
      assert blocks[1..][k..] == blocks[k + 1..];
    }
  }

  lemma {:induction false} BlockPositionsSize(blocks: seq<Block>, mi: nat, bi: nat)
    ensures |BlockPositions(blocks, mi, bi)| == BlockMarks(blocks)
    ensures forall i :: 0 <= i < |BlockPositions(blocks, mi, bi)| ==>
      var p := BlockPositions(blocks, mi, bi)[i]; p.0 == mi && bi <= p.1 < bi + |blocks| && Marked(blocks[p.1 - bi])
    ensures forall i, j :: 0 <= i < j < |BlockPositions(blocks, mi, bi)| ==>
      BlockPositions(blocks, mi, bi)[i].1 < BlockPositions(blocks, mi, bi)[j].1
    decreases blocks
  {
    if blocks != [] {
      BlockPositionsSize(blocks[1..], mi, bi + 1);
    }
  }

  predicate Before(p: (nat, nat), q: (nat, nat)) {
    p.0 < q.0 || (p.0 == q.0 && p.1 < q.1)
  }

  lemma {:induction false} PositionsSorted(messages: seq<Message>, mi: nat)
    ensures |Positions(messages, mi)| == Marks(messages)
    ensures forall i :: 0 <= i < |Positions(messages, mi)| ==> mi <= Positions(messages, mi)[i].0
    ensures forall i, j :: 0 <= i < j < |Positions(messages, mi)| ==>
      Before(Positions(messages, mi)[i], Positions(messages, mi)[j])
    decreases messages
  {
    if messages != [] {
      BlockPositionsSize(BlocksOf(messages[0]), mi, 0);
      PositionsSorted(messages[1..], mi + 1);
    }
  }

  lemma PositionsStep(messages: seq<Message>, mi: nat)
    requires messages != []
    ensures Positions(messages, mi) == BlockPositions(BlocksOf(messages[0]), mi, 0) + Positions(messages[1..], mi + 1)
  {
  }

  /** The position of a marker, counted from the end, is the number of markers after it. */
  lemma {:induction false} PositionsAt(messages: seq<Message>, mi: nat, m: nat, k: nat)
    requires m < |messages| && k < |BlocksOf(messages[m])| && Marked(BlocksOf(messages[m])[k])
    ensures
      var p := Positions(messages, mi);
      var i := |p| - 1 - BlockMarks(BlocksOf(messages[m])[k + 1..]) - Marks(messages[m + 1..]);
      0 <= i < |p| && p[i] == (mi + m, k)
    decreases messages
  {
    hide Positions, BlockPositions, BlockMarks, Marks, Marked, BlocksOf;
    PositionsStep(messages, mi);
    PositionsSorted(messages[1..], mi + 1);
    if m == 0 {
      BlockPositionsAt(BlocksOf(messages[0]), mi, 0, k);
    } else {
      PositionsAt(messages[1..], mi + 1, m - 1, k);
      assert messages[1..][m..] == messages[m + 1..];
    }
  }

  lemma {:induction false} TrimBlocksAt(blocks: seq<Block>, after: nat, k: nat)
    requires k < |blocks|
    ensures TrimBlocks(blocks, after)[k] ==
      if BlockMarks(blocks[k + 1..]) + after >= MAX_CACHE_CONTROL_BLOCKS then Strip(blocks[k]) else blocks[k]
  {
    if k > 0 {
      TrimBlocksAt(blocks[1..], after, k - 1);
      assert blocks[1..][k..] == blocks[k + 1..];
    }
  }

  lemma {:induction false} TrimmedAt(messages: seq<Message>, m: nat)
    requires m < |messages|
    ensures Trimmed(messages)[m] == TrimMessage(messages[m], Marks(messages[m + 1..]))
  {
    if m > 0 {
      TrimmedAt(messages[1..], m - 1);
      assert messages[1..][m..] == messages[m + 1..];
    }
  }

  /** A marked block is among the dropped positions exactly when four or more markers follow it. */
  lemma DroppedIffFourFollow(messages: seq<Message>, m: nat, k: nat)
    requires m < |messages| && k < |BlocksOf(messages[m])| && Marked(BlocksOf(messages[m])[k])
    requires |Positions(messages, 0)| > MAX_CACHE_CONTROL_BLOCKS
    ensures
      var p := Positions(messages, 0);
      (m, k) in p[..|p| - MAX_CACHE_CONTROL_BLOCKS] <==>
        BlockMarks(BlocksOf(messages[m])[k + 1..]) + Marks(messages[m + 1..]) >= MAX_CACHE_CONTROL_BLOCKS
  {
    var p := Positions(messages, 0);
    PositionsSorted(messages, 0);
    PositionsAt(messages, 0, m, k);
    var i := |p| - 1 - BlockMarks(BlocksOf(messages[m])[k + 1..]) - Marks(messages[m + 1..]);
    hide Positions, BlockMarks, Marks;
    InPrefixIff(p, |p| - MAX_CACHE_CONTROL_BLOCKS, i);
  }

  lemma InPrefixIff(p: seq<(nat, nat)>, n: nat, i: nat)
    requires n <= |p| && i < |p| && forall a, b :: 0 <= a < b < |p| ==> Before(p[a], p[b])
    ensures p[i] in p[..n] <==> i < n
  {
    if p[i] in p[..n] {
      var j :| 0 <= j < n && p[..n][j] == p[i];
      assert p[j] == p[i];
    }
    assert i < n ==> p[..n][i] == p[i];
  }

  lemma {:induction false} MarksSplit(messages: seq<Message>, m: nat)
    requires m < |messages|
    ensures Marks(messages) >= BlockMarks(BlocksOf(messages[m])) + Marks(messages[m + 1..])
  {
    if m > 0 {
      MarksSplit(messages[1..], m - 1);
      assert messages[1..][m..] == messages[m + 1..];
    }
  }

  lemma {:induction false} BlockMarksTail(blocks: seq<Block>, k: nat)
    requires k < |blocks|
    ensures BlockMarks(blocks) >= BlockMarks(blocks[k + 1..]) + (if Marked(blocks[k]) then 1 else 0)
  {
    if k > 0 {
      BlockMarksTail(blocks[1..], k - 1);
      assert blocks[1..][k..] == blocks[k + 1..];
    }
  }

  lemma FinalizeBlock(messages: seq<Message>, m: nat, k: nat)
    requires m < |messages| && k < |BlocksOf(messages[m])|
    ensures |BlocksOf(Finalize(messages, false)[m])| == |BlocksOf(messages[m])|
    ensures BlocksOf(Finalize(messages, false)[m])[k]
         == TrimBlocks(BlocksOf(messages[m]), Marks(messages[m + 1..]))[k]
  {
    var blocks := BlocksOf(messages[m]);
    PositionsSorted(messages, 0);
    TrimBlocksAt(blocks, Marks(messages[m + 1..]), k);
    MarksSplit(messages, m);
    BlockMarksTail(blocks, k);
    if Marked(blocks[k]) && |Positions(messages, 0)| > MAX_CACHE_CONTROL_BLOCKS {
      DroppedIffFourFollow(messages, m, k);
    }
    if Marked(blocks[k]) {
      PositionsAt(messages, 0, m, k);
    }
    hide Positions, BlockMarks, Marks, TrimBlocks;
  }

  /** Selecting the last four positions is keeping exactly the markers fewer than four follow. */
  lemma FinalizeIsTrimmed(messages: seq<Message>)
    ensures Finalize(messages, false) == Trimmed(messages)
  {
    forall m | 0 <= m < |messages|
      ensures Finalize(messages, false)[m] == Trimmed(messages)[m]
    {
      TrimmedAt(messages, m);
      var f := Finalize(messages, false)[m];
      forall k | 0 <= k < |BlocksOf(messages[m])|
        ensures k < |BlocksOf(f)| && BlocksOf(f)[k] == TrimBlocks(BlocksOf(messages[m]), Marks(messages[m + 1..]))[k]
      {
        FinalizeBlock(messages, m, k);
      }
      FinalizeShape(messages, m);
      hide Finalize, Trimmed, TrimBlocks;
      assert BlocksOf(f) == TrimBlocks(BlocksOf(messages[m]), Marks(messages[m + 1..]));
    }
  }

  lemma FinalizeShape(messages: seq<Message>, m: nat)
    requires m < |messages|
    ensures
      var f := Finalize(messages, false)[m];
      if messages[m].content.Blocks?
      then f.content.Blocks? && f == messages[m].(content := f.content) && |BlocksOf(f)| == |BlocksOf(messages[m])|
      else f == messages[m]
  {
  }

  // ---- Counting, idempotence, erasure -----------------------------------------------

  function Min(a: nat, b: nat): nat {
    if a < b then a else b
  }

  lemma {:induction false} TrimBlocksMarks(blocks: seq<Block>, after: nat)
    ensures BlockMarks(TrimBlocks(blocks, after)) + Min(after, MAX_CACHE_CONTROL_BLOCKS)
         == Min(BlockMarks(blocks) + after, MAX_CACHE_CONTROL_BLOCKS)
    ensures Map(TrimBlocks(blocks, after), Strip) == Map(blocks, Strip)
    ensures BlockMarks(blocks) + after <= MAX_CACHE_CONTROL_BLOCKS ==> TrimBlocks(blocks, after) == blocks
  {
    if blocks != [] {
      TrimBlocksMarks(blocks[1..], after);
      var t := TrimBlocks(blocks, after);
      assert t[1..] == TrimBlocks(blocks[1..], after);
      hide TrimBlocks;
      forall k | 0 <= k < |blocks|
        ensures Strip(t[k]) == Strip(blocks[k])
      {
        assert k > 0 ==> Map(t[1..], Strip)[k - 1] == Map(blocks[1..], Strip)[k - 1];
      }
      if BlockMarks(blocks) + after <= MAX_CACHE_CONTROL_BLOCKS {
        assert t == [blocks[0]] + blocks[1..];
      }
    }
  }

  lemma {:induction false} TrimmedMarks(messages: seq<Message>)
    ensures Marks(Trimmed(messages)) == Min(Marks(messages), MAX_CACHE_CONTROL_BLOCKS)
    ensures Marks(messages) <= MAX_CACHE_CONTROL_BLOCKS ==> Trimmed(messages) == messages
  {
    if messages != [] {
      var rest, after := messages[1..], Marks(messages[1..]);
      TrimmedMarks(rest);
      TrimBlocksMarks(BlocksOf(messages[0]), after);
      var t := Trimmed(messages);
      assert t[1..] == Trimmed(rest) && t[0] == TrimMessage(messages[0], after);
      assert BlocksOf(t[0]) == TrimBlocks(BlocksOf(messages[0]), after);
      MarksHead(t);
      MarksHead(messages);
      hide Trimmed, TrimBlocks, Marks;
      assert messages == [messages[0]] + rest && t == [t[0]] + t[1..];
    }
  }

  lemma {:induction false} TrimmedErases(messages: seq<Message>)
    ensures Erase(Trimmed(messages)) == Erase(messages)
  {
    if messages != [] {
      var rest, after := messages[1..], Marks(messages[1..]);
      TrimmedErases(rest);
      TrimBlocksMarks(BlocksOf(messages[0]), after);
      var t := Trimmed(messages);
      assert t[1..] == Trimmed(rest) && t[0] == TrimMessage(messages[0], after);
      assert StripMessage(t[0]) == StripMessage(messages[0]);
      hide Trimmed, TrimBlocks, Marks, BlockMarks;
      assert messages == [messages[0]] + rest && t == [t[0]] + t[1..];
      MapAppend([messages[0]], rest, StripMessage);
      MapAppend([t[0]], t[1..], StripMessage);
    }
  }

  lemma {:induction false} ErasedHasNoMarks(messages: seq<Message>)
    ensures Marks(Erase(messages)) == 0
    ensures Erase(Erase(messages)) == Erase(messages)
  {
    if messages != [] {
      ErasedHasNoMarks(messages[1..]);
      StrippedBlocks(BlocksOf(messages[0]));
      var e := Erase(messages);
      assert e[1..] == Erase(messages[1..]) && BlocksOf(e[0]) == Map(BlocksOf(messages[0]), Strip);
      assert StripMessage(e[0]) == e[0];
      hide Marks;
      assert Erase(e) == [StripMessage(e[0])] + Erase(e[1..]);
      assert e == [e[0]] + e[1..];
      MarksHead(e);
    }
  }

  lemma MarksHead(messages: seq<Message>)
    requires messages != []
    ensures Marks(messages) == BlockMarks(BlocksOf(messages[0])) + Marks(messages[1..])
  {
  }

  lemma {:induction false} StrippedBlocks(blocks: seq<Block>)
    ensures BlockMarks(Map(blocks, Strip)) == 0
    ensures Map(Map(blocks, Strip), Strip) == Map(blocks, Strip)
  {
    if blocks != [] {
      StrippedBlocks(blocks[1..]);
      assert Map(blocks, Strip)[1..] == Map(blocks[1..], Strip);
    }
  }

  /**
   * What the provider receives differs from the history in cache markers only: none in
   * the OpenAI format; otherwise the last min(n, 4), each kept where it was; doing it
   * twice changes nothing more.
   */
  lemma FinalizeGuarantees(messages: seq<Message>, openaiStyle: bool)
    ensures Erase(Finalize(messages, openaiStyle)) == Erase(messages)
    ensures openaiStyle ==> Marks(Finalize(messages, openaiStyle)) == 0
    ensures !openaiStyle ==> Finalize(messages, openaiStyle) == Trimmed(messages)
    ensures !openaiStyle ==> Marks(Finalize(messages, openaiStyle)) == Min(Marks(messages), MAX_CACHE_CONTROL_BLOCKS)
    ensures Finalize(Finalize(messages, openaiStyle), openaiStyle) == Finalize(messages, openaiStyle)
  {
    var f := Finalize(messages, openaiStyle);
    if openaiStyle {
      ErasedHasNoMarks(messages);
    } else {
      FinalizeIsTrimmed(messages);
      TrimmedMarks(messages);
      TrimmedErases(messages);
      FinalizeIsTrimmed(f);
      TrimmedMarks(f);
    }
  }

  // ---- Field by field ---------------------------------------------------------------

  /** The same block, but for a marker it may have lost. */
  predicate KeptBlock(b: Block, f: Block) {
    match b
    case Block(payload, cacheControl) =>
      f.Block? && f.payload == payload && (f.cacheControl == cacheControl || f.cacheControl == None)
    case NotADict(value) => f == NotADict(value)
  }

  predicate KeptContent(c: Content, f: Content) {
    match c
    case NoContent => f == NoContent
    case Plain(text) => f == Plain(text)
    case Blocks(blocks) =>
      f.Blocks? && |f.blocks| == |blocks| && forall k :: 0 <= k < |blocks| ==> KeptBlock(blocks[k], f.blocks[k])
  }

  /**
   * The provider receives every message with its role, tool calls and call id, its kind of
   * content, and every block with its payload: only a block's cache marker can be missing.
   */
  lemma FinalizeKeepsContent(messages: seq<Message>, openaiStyle: bool, m: nat)
    requires m < |messages|
    ensures
      var o, f := messages[m], Finalize(messages, openaiStyle)[m];
      f.role == o.role && f.toolCalls == o.toolCalls && f.toolCallId == o.toolCallId && KeptContent(o.content, f.content)
  {
    hide Positions;
  }

  /** The block at `p` carries a cache_control key. */
  predicate CarriesMarker(messages: seq<Message>, p: (nat, nat)) {
    && p.0 < |messages| && messages[p.0].content.Blocks? && p.1 < |messages[p.0].content.blocks|
    && var b := messages[p.0].content.blocks[p.1]; b.Block? && b.cacheControl.Some?
  }

  lemma {:induction false} PositionsMark(messages: seq<Message>, mi: nat)
    ensures forall i :: 0 <= i < |Positions(messages, mi)| ==>
      var p := Positions(messages, mi)[i];
      p.0 >= mi && CarriesMarker(messages, (p.0 - mi, p.1))
    decreases messages
  {
    if messages != [] {
      var own, later := BlockPositions(BlocksOf(messages[0]), mi, 0), Positions(messages[1..], mi + 1);
      PositionsStep(messages, mi);
      BlockPositionsSize(BlocksOf(messages[0]), mi, 0);
      PositionsMark(messages[1..], mi + 1);
      hide Positions, BlockPositions;
      var all: seq<(nat, nat)> := own + later;
      forall i | 0 <= i < |all|
        ensures all[i].0 >= mi && CarriesMarker(messages, (all[i].0 - mi, all[i].1))
      {
        if i >= |own| {
          var p: (nat, nat) := later[i - |own|];
          assert CarriesMarker(messages[1..], (p.0 - mi - 1, p.1));
        }
      }
    }
  }

  /** The positions are those of all markers, each once, in the order of the messages. */
  lemma PositionsAreMarkers(messages: seq<Message>)
    ensures forall p :: p in Positions(messages, 0) <==> CarriesMarker(messages, p)
    ensures forall i, j :: 0 <= i < j < |Positions(messages, 0)| ==>
      Before(Positions(messages, 0)[i], Positions(messages, 0)[j])
  {
    PositionsSorted(messages, 0);
    PositionsMark(messages, 0);
    forall p | CarriesMarker(messages, p)
      ensures p in Positions(messages, 0)
    {
      PositionsAt(messages, 0, p.0, p.1);
    }
    hide Positions;
  }

  /**
   * The OpenAI format carries no marker at all. The other carries exactly the last four of
   * the history's, or all when there are fewer.
   */
  lemma FinalizeKeepsLastMarkers(messages: seq<Message>, p: (nat, nat))
    ensures !CarriesMarker(Finalize(messages, true), p)
    ensures CarriesMarker(Finalize(messages, false), p) <==> p in LastN(Positions(messages, 0), MAX_CACHE_CONTROL_BLOCKS)
  {
    var positions := Positions(messages, 0);
    PositionsAreMarkers(messages);
    hide Positions;
    if |positions| > MAX_CACHE_CONTROL_BLOCKS {
      var n := |positions| - MAX_CACHE_CONTROL_BLOCKS;
      SplitPositions(positions, n, p);
      assert CarriesMarker(Finalize(messages, false), p) <==> CarriesMarker(messages, p) && p !in positions[..n];
    }
  }

  /** Distinct positions are either among the first `n` or among the others. */
  lemma SplitPositions(positions: seq<(nat, nat)>, n: nat, p: (nat, nat))
    requires n <= |positions| && forall i, j :: 0 <= i < j < |positions| ==> Before(positions[i], positions[j])
    ensures p in positions && p !in positions[..n] <==> p in positions[n..]
  {
  }
}
