// src/core/agent_claude_code.py: the before-images of edited files. During one stream, one
// is queued at each tool use and taken at each tool result to compute its diff.
module DiffSnapshots {
  import opened Collections

  /**
   * A tool use that queues an entry (a file's content, or a placeholder for tools that
   * edit no file); its result; and a result that belongs to no queued entry: of TodoWrite,
   * the plan-mode tools or ScheduleWakeup, of a monitor no longer tracked, of a use of an
   * earlier stream, or the notice that a background command ended.
   */
  datatype Op = ToolUse(id: nat) | ToolResult(id: nat) | OtherResult

  function Init(ops: seq<Op>): seq<Op>
    requires ops != []
  {
    ops[..|ops| - 1]
  }

  function Last(ops: seq<Op>): Op
    requires ops != []
  {
    ops[|ops| - 1]
  }

  /** What a result takes from the queue: its oldest entry, whichever use the result is of. */
  function Taken(pending: seq<nat>): Option<nat> {
    if pending == [] then None else Some(pending[0])
  }

  function Rest(pending: seq<nat>): seq<nat> {
    if pending == [] then [] else pending[1..]
  }

  /** The queue, each entry named by its use. */
  function Step(pending: seq<nat>, op: Op): seq<nat> {
    match op
    case ToolUse(id) => pending + [id]
    case ToolResult(_) => Rest(pending)
    case OtherResult => Rest(pending)
  }

  function Run(ops: seq<Op>): seq<nat> {
    if ops == [] then [] else Step(Run(Init(ops)), Last(ops))
  }

  /** Every result took the entry of its own use. */
  predicate Matched(ops: seq<Op>) {
    ops == [] ||
    (Matched(Init(ops)) && (Last(ops).ToolResult? ==> Taken(Run(Init(ops))) == Some(Last(ops).id)))
  }

  // ---- Conditions on what arrives, which do not look at the queue -----------------------------

  function Answer(waiting: seq<nat>, id: nat): seq<nat> {
    if waiting == [] then []
    else if waiting[0] == id then waiting[1..]
    else [waiting[0]] + Answer(waiting[1..], id)
  }

  /** The queueing uses without a result yet, oldest first. */
  function Unanswered(ops: seq<Op>): seq<nat> {
    if ops == [] then []
    else
      match Last(ops)
      case ToolUse(id) => Unanswered(Init(ops)) + [id]
      case ToolResult(id) => Answer(Unanswered(Init(ops)), id)
      case OtherResult => Unanswered(Init(ops))
  }

  /** Uses have ids of their own, and a result belongs to a use that has none yet. */
  predicate WellFormed(ops: seq<Op>) {
    ops == [] ||
    (&& WellFormed(Init(ops))
     && (Last(ops).ToolUse? ==> Last(ops) !in Init(ops))
     && (Last(ops).ToolResult? ==> Last(ops).id in Unanswered(Init(ops))))
  }

  /** No other result arrives while a use waits for its own. */
  predicate Quiet(ops: seq<Op>) {
    ops == [] || (Quiet(Init(ops)) && (Last(ops).OtherResult? ==> Unanswered(Init(ops)) == []))
  }

  /** Each result is that of the oldest use waiting for one. */
  predicate InUseOrder(ops: seq<Op>) {
    ops == [] ||
    (InUseOrder(Init(ops)) && (Last(ops).ToolResult? ==> Taken(Unanswered(Init(ops))) == Some(Last(ops).id)))
  }

  // ---- Alignment ---------------------------------------------------------------------------

  /** Answering the use at place `d` closes the gap it leaves. */
  lemma {:induction false} AnswerAt(waiting: seq<nat>, d: nat)
    requires Distinct(waiting) && d < |waiting|
    ensures Answer(waiting, waiting[d]) == waiting[..d] + waiting[d + 1..]
  {
    if d > 0 {
      AnswerAt(waiting[1..], d - 1);
      assert waiting[..d] == [waiting[0]] + waiting[1..][..d - 1];
    }
  }

  lemma AnswerKeepsDistinct(waiting: seq<nat>, id: nat)
    requires Distinct(waiting) && id in waiting
    ensures Distinct(Answer(waiting, id)) && forall x :: x in Answer(waiting, id) ==> x in waiting
  {
    var d :| 0 <= d < |waiting| && waiting[d] == id;
    AnswerAt(waiting, d);
    hide Answer;
  }

  lemma {:induction false} UnansweredDistinct(ops: seq<Op>)
    requires WellFormed(ops)
    ensures Distinct(Unanswered(ops))
    ensures forall id :: id in Unanswered(ops) ==> ToolUse(id) in ops
  {
    if ops != [] {
      UnansweredDistinct(Init(ops));
      assert ops == Init(ops) + [Last(ops)];
      if Last(ops).ToolResult? {
        AnswerKeepsDistinct(Unanswered(Init(ops)), Last(ops).id);
      }
    }
  }

  /** In a quiet stream with results in the order of uses, the queue is what is unanswered. */
  lemma {:induction false} OrderedMatches(ops: seq<Op>)
    requires WellFormed(ops) && Quiet(ops) && InUseOrder(ops)
    ensures Matched(ops) && Run(ops) == Unanswered(ops)
  {
    if ops != [] {
      OrderedMatches(Init(ops));
      UnansweredDistinct(Init(ops));
      if Last(ops).ToolResult? {
        AnswerAt(Unanswered(Init(ops)), 0);
      }
    }
  }

  /** The queue lags `d` entries behind, none exactly while the stream was quiet and ordered. */
  ghost predicate Behind(ops: seq<Op>, d: nat) {
    && d <= |Unanswered(ops)| && Run(ops) == Unanswered(ops)[d..]
    && (d == 0 <==> Quiet(ops) && InUseOrder(ops))
  }

  lemma BehindStep(ops: seq<Op>, d: nat) returns (e: nat)
    requires WellFormed(ops) && ops != [] && Matched(ops) && Behind(Init(ops), d)
    ensures Behind(ops, e)
  {
    var waiting := Unanswered(Init(ops));
    UnansweredDistinct(Init(ops));
    e := if Last(ops).OtherResult? && d < |waiting| then d + 1 else d;
    if Last(ops).ToolResult? {
      assert waiting[d] == Last(ops).id;
      AnswerAt(waiting, d);
      assert (waiting[..d] + waiting[d + 1..])[d..] == waiting[d + 1..];
    }
  }

  lemma {:induction false} MatchedIsBehind(ops: seq<Op>) returns (d: nat)
    requires WellFormed(ops) && Matched(ops)
    ensures Behind(ops, d)
  {
    if ops == [] {
      d := 0;
    } else {
      d := MatchedIsBehind(Init(ops));
      d := BehindStep(ops, d);
    }
  }

  /**
   * At every point of every stream: each result was compared with its own before-image
   * and the images still due are queued, exactly if the results came in the order of the
   * uses and no other result came while one was awaited. Once every use has its result,
   * nothing is due.
   */
  lemma ResultsMatchIff(ops: seq<Op>)
    requires WellFormed(ops)
    ensures Matched(ops) && Run(ops) == Unanswered(ops) <==> Quiet(ops) && InUseOrder(ops)
    ensures Unanswered(ops) == [] ==> (Matched(ops) <==> Quiet(ops) && InUseOrder(ops))
  {
    if Matched(ops) {
      var d := MatchedIsBehind(ops);
    }
    if Quiet(ops) && InUseOrder(ops) {
      OrderedMatches(ops);
    }
  }

  /** What one more operation adds to each of the notions above. */
  lemma Grow(ops: seq<Op>, op: Op)
    ensures Run(ops + [op]) == Step(Run(ops), op)
    ensures op.ToolUse? ==> Unanswered(ops + [op]) == Unanswered(ops) + [op.id]
    ensures op.ToolResult? ==> Unanswered(ops + [op]) == Answer(Unanswered(ops), op.id)
    ensures op.OtherResult? ==> Unanswered(ops + [op]) == Unanswered(ops)
    ensures Matched(ops + [op]) <==> Matched(ops) && (op.ToolResult? ==> Taken(Run(ops)) == Some(op.id))
    ensures WellFormed(ops + [op]) <==>
      WellFormed(ops) && (op.ToolUse? ==> op !in ops) && (op.ToolResult? ==> op.id in Unanswered(ops))
    ensures Quiet(ops + [op]) <==> Quiet(ops) && (op.OtherResult? ==> Unanswered(ops) == [])
    ensures InUseOrder(ops + [op]) <==> InUseOrder(ops) && (op.ToolResult? ==> Taken(Unanswered(ops)) == Some(op.id))
  {
    assert Init(ops + [op]) == ops;
  }

  /** A to-do update beside an edit takes the edit's before-image. */
  lemma TodoTakesTheSnapshot(edit: nat)
    ensures
      var ops := [] + [ToolUse(edit)] + [OtherResult] + [ToolResult(edit)];
      WellFormed(ops) && Unanswered(ops) == [] && InUseOrder(ops) && !Matched(ops)
  {
    var one := [] + [ToolUse(edit)];
    Grow([], ToolUse(edit));
    Grow(one, OtherResult);
    Grow(one + [OtherResult], ToolResult(edit));
  }

  /** Two edits whose results come in the other order get each other's before-image. */
  lemma SwappedResultsSwapImages(a: nat, b: nat)
    requires a != b
    ensures
      var uses := [] + [ToolUse(a)] + [ToolUse(b)];
      var ops := uses + [ToolResult(b)] + [ToolResult(a)];
      && WellFormed(ops) && Unanswered(ops) == [] && Quiet(ops)
      && Taken(Run(uses)) == Some(a) && Taken(Run(uses + [ToolResult(b)])) == Some(b)
  {
    var one := [] + [ToolUse(a)];
    var two := one + [ToolUse(b)];
    Grow([], ToolUse(a));
    Grow(one, ToolUse(b));
    Grow(two, ToolResult(b));
    Grow(two + [ToolResult(b)], ToolResult(a));
    assert Unanswered(two) == [a, b] == Run(two);
    assert Answer([a, b], b) == [a] by {
      assert [a, b][1..] == [b];
    }
  }

  // ---- The queue ---------------------------------------------------------------------------

  /** A file's path and its content before the edit, if that could be read. */
  datatype Image = Image(path: string, before: Option<string>)

  /** Tools whose uses queue nothing, and tools that edit the file they name. */
  const UNQUEUED_TOOLS := ["TodoWrite", "EnterPlanMode", "ExitPlanMode", "ScheduleWakeup", "Monitor", "AskUserQuestion"]
  const EDITING_TOOLS := ["Edit", "Write"]

  predicate Queues(toolName: string) {
    toolName !in UNQUEUED_TOOLS
  }

  /** Edit and Write with a target have an image, the other tools a placeholder. */
  function EntryOf(toolName: string, filePath: Option<string>, before: Option<string>): Option<Image> {
    if toolName in EDITING_TOOLS && filePath.Some? then Some(Image(filePath.value, before)) else None
  }

  /** Entries in the order of the tool uses; `log` is the stream so far, `noted` each use's entry. */
  class PendingSnapshots {
    var snapshots: seq<Option<Image>>
    ghost var log: seq<Op>
    ghost var noted: map<nat, Option<Image>>

    /** The queued entries are those of the uses the model's queue names. */
    ghost predicate Valid()
      reads this
    {
      && |snapshots| == |Run(log)|
      && forall i :: 0 <= i < |snapshots| ==> Run(log)[i] in noted && snapshots[i] == noted[Run(log)[i]]
    }

    /** A stream starts with an empty queue. */
    constructor ()
      ensures Valid() && log == [] && noted == map[]
    {
      snapshots, log, noted := [], [], map[];
    }

    method NoteToolUse(ghost id: nat, toolName: string, filePath: Option<string>, before: Option<string>)
      returns (queued: bool)
      requires Valid() && id !in noted
      modifies this
      ensures Valid() && queued == Queues(toolName)
      ensures queued ==> log == old(log) + [ToolUse(id)] && noted == old(noted)[id := EntryOf(toolName, filePath, before)]
      ensures !queued ==> log == old(log) && noted == old(noted)
    {
      if toolName in UNQUEUED_TOOLS {
        return false;
      }
      if toolName in EDITING_TOOLS && filePath.Some? {
        snapshots := snapshots + [Some(Image(filePath.value, before))];
      } else {
        snapshots := snapshots + [None];
      }
      Grow(log, ToolUse(id));
      log, noted := log + [ToolUse(id)], noted[id := EntryOf(toolName, filePath, before)];
      queued := true;
    }

    /**
     * Takes the oldest entry. Its own, for the result of a queueing use, in every stream
     * that was quiet and in order up to here.
     */
    method TakeForResult(ghost result: Op) returns (entry: Option<Image>)
      requires Valid() && !result.ToolUse?
      modifies this
      ensures Valid() && log == old(log) + [result] && noted == old(noted)
      ensures old(Run(log)) == [] ==> entry == None
      ensures old(Run(log)) != [] ==> old(Run(log))[0] in noted && entry == noted[old(Run(log))[0]]
      ensures WellFormed(log) && Quiet(log) && InUseOrder(log) && result.ToolResult? ==>
        result.id in noted && entry == noted[result.id]
    {
      Grow(log, result);
      ghost var grown := log + [result];
      if WellFormed(grown) && Quiet(grown) && InUseOrder(grown) {
        OrderedMatches(grown);
      }
      log := grown;
      if snapshots == [] {
        return None;
      }
      entry := snapshots[0];
      snapshots := snapshots[1..];
    }
  }
}
