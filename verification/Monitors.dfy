// src/core/agent_claude_code.py: the live monitors of a session and the messages clients
// see about them.
module Monitors {
  import opened Collections
  import opened SessionState

  /** A tracked monitor and how many events it has reported. */
  datatype Watch = Watch(id: string, count: nat)

  datatype MonitorMessage =
    | MonitorStart(id: string)
    | MonitorEvent(id: string, sequence: nat)
    | MonitorEnd(id: string, reason: string, total: nat)

  /** `active` is a dictionary in insertion order; `trace` is what was pushed about monitors. */
  datatype State = State(active: seq<Watch>, trace: seq<MonitorMessage>)

  const NO_MONITORS := State([], [])

  /** Whether a result is terminal, and with which reason, is read off its content. */
  datatype Op =
    | Start(id: string)
    | Result(id: string, terminal: bool, reason: string)
    | TerminateAll(reason: string)
    | Cancel(id: string)

  function HasId(id: string): Watch -> bool {
    (w: Watch) => w.id == id
  }

  function IndexOf(active: seq<Watch>, id: string): (i: nat)
    ensures i <= |active|
    ensures forall j :: 0 <= j < i ==> active[j].id != id
    ensures i < |active| ==> active[i].id == id
  {
    FirstIndex(active, HasId(id))
  }

  predicate Tracked(s: State, id: string) {
    IndexOf(s.active, id) < |s.active|
  }

  function Finish(s: State, i: nat, reason: string): State
    requires i < |s.active|
  {
    State(Without(s.active, i), s.trace + [MonitorEnd(s.active[i].id, reason, s.active[i].count)])
  }

  /** The end messages of all tracked monitors, in order. */
  function Ends(active: seq<Watch>, reason: string): (r: seq<MonitorMessage>)
    ensures |r| == |active|
    ensures forall k :: 0 <= k < |active| ==> r[k] == MonitorEnd(active[k].id, reason, active[k].count)
  {
    if active == [] then []
    else
      var w := active[|active| - 1];
      Ends(active[..|active| - 1], reason) + [MonitorEnd(w.id, reason, w.count)]
  }

  function Step(s: State, op: Op): State {
    match op
    case Start(id) =>
      var i := IndexOf(s.active, id);
      if id == "" then s
      else
        State(if i < |s.active| then s.active[i := Watch(id, 0)] else s.active + [Watch(id, 0)], s.trace + [MonitorStart(id)])
    case Result(id, terminal, reason) =>
      var i := IndexOf(s.active, id);
      if i == |s.active| then s
      else if terminal then Finish(s, i, reason)
      else
        var n := s.active[i].count + 1;
        State(s.active[i := Watch(id, n)], s.trace + [MonitorEvent(id, n)])
    case TerminateAll(reason) => State([], s.trace + Ends(s.active, reason))
    case Cancel(id) =>
      var i := IndexOf(s.active, id);
      if i == |s.active| then s else Finish(s, i, "cancelled")
  }

  function Run(ops: seq<Op>): State {
    if ops == [] then NO_MONITORS else Step(Run(ops[..|ops| - 1]), ops[|ops| - 1])
  }

  // ---- Reading a trace ---------------------------------------------------------------------

  /** What a client makes of the messages about one monitor. */
  datatype Phase = Off | On(n: nat) | Broken

  function Read(before: Phase, m: MonitorMessage): Phase {
    match m
    case MonitorStart(_) => if before.Off? then On(0) else Broken
    case MonitorEvent(_, sequence) => if sequence > 0 && before == On(sequence - 1) then On(sequence) else Broken
    case MonitorEnd(_, _, total) => if before == On(total) then Off else Broken
  }

  function Reading(trace: seq<MonitorMessage>, id: string): Phase {
    if trace == [] then Off
    else
      var last := trace[|trace| - 1];
      var before := Reading(trace[..|trace| - 1], id);
      if last.id == id then Read(before, last) else before
  }

  lemma ReadingStep(trace: seq<MonitorMessage>, m: MonitorMessage, id: string)
    ensures Reading(trace + [m], id) == if m.id == id then Read(Reading(trace, id), m) else Reading(trace, id)
  {
    assert (trace + [m])[..|trace + [m]| - 1] == trace;
  }

  predicate DistinctIds(active: seq<Watch>) {
    forall i, j :: 0 <= i < j < |active| ==> active[i].id != active[j].id
  }

  /** What the tracked monitors say the phase should be. */
  function Expected(active: seq<Watch>, id: string): Phase {
    var i := IndexOf(active, id);
    if i < |active| then On(active[i].count) else Off
  }

  /** Some start of `id` came while it was tracked. */
  predicate Restarted(ops: seq<Op>, id: string) {
    ops != [] &&
    (|| Restarted(ops[..|ops| - 1], id)
     || (ops[|ops| - 1] == Start(id) && id != "" && Tracked(Run(ops[..|ops| - 1]), id)))
  }

  lemma {:induction false} ReadingEnds(trace: seq<MonitorMessage>, active: seq<Watch>, reason: string, id: string)
    requires DistinctIds(active)
    ensures
      var i := IndexOf(active, id);
      Reading(trace + Ends(active, reason), id) ==
        if i < |active| then Read(Reading(trace, id), MonitorEnd(id, reason, active[i].count)) else Reading(trace, id)
  {
    if active == [] {
      assert trace + Ends(active, reason) == trace;
    } else {
      var init, w := active[..|active| - 1], active[|active| - 1];
      ReadingEnds(trace, init, reason, id);
      ReadingStep(trace + Ends(init, reason), MonitorEnd(w.id, reason, w.count), id);
      AppendAssociates(trace, Ends(init, reason), [MonitorEnd(w.id, reason, w.count)]);
      hide Reading, Read;
      IndexOfLast(active, id);
    }
  }

  lemma IndexOfLast(active: seq<Watch>, id: string)
    requires active != [] && DistinctIds(active)
    ensures
      var n := |active| - 1;
      IndexOf(active, id) ==
        if IndexOf(active[..n], id) < n then IndexOf(active[..n], id) else if active[n].id == id then n else n + 1
    ensures active[|active| - 1].id == id ==> IndexOf(active[..|active| - 1], id) == |active| - 1
  {
  }

  lemma IndexIs(active: seq<Watch>, id: string, i: nat)
    requires i <= |active| && (forall j :: 0 <= j < i ==> active[j].id != id) && (i < |active| ==> active[i].id == id)
    ensures IndexOf(active, id) == i
  {
    var k := IndexOf(active, id);
    assert k < |active| ==> active[k].id == id;
  }

  lemma UpdateIndex(active: seq<Watch>, i: nat, count: nat, id: string)
    requires DistinctIds(active) && i < |active|
    ensures DistinctIds(active[i := active[i].(count := count)])
    ensures IndexOf(active[i := active[i].(count := count)], id) == IndexOf(active, id)
  {
    IndexIs(active[i := active[i].(count := count)], id, IndexOf(active, id));
  }

  lemma AppendIndex(active: seq<Watch>, w: Watch, id: string)
    requires DistinctIds(active) && IndexOf(active, w.id) == |active|
    ensures DistinctIds(active + [w])
    ensures Expected(active + [w], id) == if id == w.id then On(w.count) else Expected(active, id)
  {
    var l := IndexOf(active, id);
    IndexIs(active + [w], id, if l == |active| && id != w.id then l + 1 else l);
  }

  lemma RemoveIndex(active: seq<Watch>, i: nat, id: string)
    requires DistinctIds(active) && i < |active|
    ensures DistinctIds(Without(active, i))
    ensures Expected(Without(active, i), id) == if id == active[i].id then Off else Expected(active, id)
  {
    var rest := Without(active, i);
    assert forall k :: 0 <= k < |rest| ==> rest[k] == active[if k < i then k else k + 1];
    var l := IndexOf(active, id);
    if l < |active| && l != i {
      assert rest[if l < i then l else l - 1] == active[l];
    }
  }

  /** The messages about `id` read as broken, or as what is tracked. */
  predicate Agrees(s: State, id: string) {
    Reading(s.trace, id).Broken? || Reading(s.trace, id) == Expected(s.active, id)
  }

  lemma FinishReads(s: State, i: nat, reason: string, id: string)
    requires DistinctIds(s.active) && i < |s.active| && Agrees(s, id)
    ensures DistinctIds(Finish(s, i, reason).active)
    ensures Reading(Finish(s, i, reason).trace, id) ==
      if Reading(s.trace, id).Broken? then Broken else Expected(Finish(s, i, reason).active, id)
  {
    ReadingStep(s.trace, MonitorEnd(s.active[i].id, reason, s.active[i].count), id);
    RemoveIndex(s.active, i, id);
    IndexIs(s.active, s.active[i].id, i);
    hide Reading, IndexOf, Without;
  }

  lemma EventReads(s: State, i: nat, id: string)
    requires DistinctIds(s.active) && i < |s.active| && Agrees(s, id)
    ensures
      var n := s.active[i].count + 1;
      var active := s.active[i := s.active[i].(count := n)];
      && DistinctIds(active)
      && Reading(s.trace + [MonitorEvent(s.active[i].id, n)], id) ==
           if Reading(s.trace, id).Broken? then Broken else Expected(active, id)
  {
    ReadingStep(s.trace, MonitorEvent(s.active[i].id, s.active[i].count + 1), id);
    UpdateIndex(s.active, i, s.active[i].count + 1, id);
    IndexIs(s.active, s.active[i].id, i);
    hide Reading, IndexOf;
  }

  lemma StartReads(s: State, started: string, id: string)
    requires DistinctIds(s.active) && Agrees(s, id) && started != ""
    ensures
      var s' := Step(s, Start(started));
      && DistinctIds(s'.active)
      && Reading(s'.trace, id) ==
           if Reading(s.trace, id).Broken? || (started == id && Tracked(s, id)) then Broken else Expected(s'.active, id)
  {
    var i := IndexOf(s.active, started);
    ReadingStep(s.trace, MonitorStart(started), id);
    if i < |s.active| {
      UpdateIndex(s.active, i, 0, id);
    } else {
      AppendIndex(s.active, Watch(started, 0), id);
    }
    hide Reading, IndexOf;
  }

  lemma StepReads(s: State, op: Op, id: string)
    requires DistinctIds(s.active) && Agrees(s, id)
    ensures DistinctIds(Step(s, op).active)
    ensures
      var restarts := op == Start(id) && id != "" && Tracked(s, id);
      Reading(Step(s, op).trace, id) ==
        if Reading(s.trace, id).Broken? || restarts then Broken else Expected(Step(s, op).active, id)
  {
    hide Reading, Expected;
    match op
    case Start(started) =>
      if started != "" {
        StartReads(s, started, id);
      }
    case Result(from, terminal, reason) =>
      var i := IndexOf(s.active, from);
      if i < |s.active| {
        if terminal {
          FinishReads(s, i, reason, id);
        } else {
          EventReads(s, i, id);
        }
      }
    case TerminateAll(reason) =>
      TerminateReads(s, reason, id);
    case Cancel(from) =>
      var i := IndexOf(s.active, from);
      if i < |s.active| {
        FinishReads(s, i, "cancelled", id);
      }
  }

  lemma TerminateReads(s: State, reason: string, id: string)
    requires DistinctIds(s.active) && Agrees(s, id)
    ensures Reading(s.trace + Ends(s.active, reason), id) == if Reading(s.trace, id).Broken? then Broken else Off
    ensures Expected([], id) == Off
  {
    ReadingEnds(s.trace, s.active, reason, id);
    hide Reading;
  }

  /**
   * After any run, the messages about a monitor read as: started, events numbered from 1,
   * ended with their number, exactly unless it was started again while tracked; and it is
   * tracked, with its count, exactly while they read as started and not ended.
   */
  lemma {:induction false} TraceReadsIff(ops: seq<Op>, id: string)
    ensures DistinctIds(Run(ops).active)
    ensures Reading(Run(ops).trace, id) == if Restarted(ops, id) then Broken else Expected(Run(ops).active, id)
  {
    if ops != [] {
      TraceReadsIff(ops[..|ops| - 1], id);
      StepReads(Run(ops[..|ops| - 1]), ops[|ops| - 1], id);
    }
  }

  // ---- Why monitors end ------------------------------------------------------------------------

  /** The reasons clients are given for the ends of monitor `id`, in order. */
  function ReasonsIn(trace: seq<MonitorMessage>, id: string): seq<string> {
    if trace == [] then []
    else
      var last := trace[|trace| - 1];
      ReasonsIn(trace[..|trace| - 1], id) + (if last.MonitorEnd? && last.id == id then [last.reason] else [])
  }

  /** Why an operation ends `id`, if it does when `id` is tracked. */
  function ReasonOf(op: Op, id: string): Option<string> {
    match op
    case Start(_) => None
    case Result(from, terminal, reason) => if from == id && terminal then Some(reason) else None
    case TerminateAll(reason) => Some(reason)
    case Cancel(from) => if from == id then Some("cancelled") else None
  }

  /** The reasons of the operations that came while `id` was tracked and end it. */
  function ReasonsGiven(ops: seq<Op>, id: string): seq<string> {
    if ops == [] then []
    else
      var init, why := ops[..|ops| - 1], ReasonOf(ops[|ops| - 1], id);
      ReasonsGiven(init, id) + (if Tracked(Run(init), id) && why.Some? then [why.value] else [])
  }

  lemma ReasonsStep(trace: seq<MonitorMessage>, m: MonitorMessage, id: string)
    ensures ReasonsIn(trace + [m], id) == ReasonsIn(trace, id) + (if m.MonitorEnd? && m.id == id then [m.reason] else [])
  {
    assert (trace + [m])[..|trace + [m]| - 1] == trace;
  }

  lemma {:induction false} ReasonsEnds(trace: seq<MonitorMessage>, active: seq<Watch>, reason: string, id: string)
    requires DistinctIds(active)
    ensures ReasonsIn(trace + Ends(active, reason), id)
         == ReasonsIn(trace, id) + if IndexOf(active, id) < |active| then [reason] else []
  {
    if active == [] {
      assert trace + Ends(active, reason) == trace;
    } else {
      var init, w := active[..|active| - 1], active[|active| - 1];
      ReasonsEnds(trace, init, reason, id);
      ReasonsStep(trace + Ends(init, reason), MonitorEnd(w.id, reason, w.count), id);
      AppendAssociates(trace, Ends(init, reason), [MonitorEnd(w.id, reason, w.count)]);
      IndexOfLast(active, id);
      hide ReasonsIn;
    }
  }

  lemma StepReasons(s: State, op: Op, id: string)
    requires DistinctIds(s.active)
    ensures ReasonsIn(Step(s, op).trace, id)
         == ReasonsIn(s.trace, id) + if Tracked(s, id) && ReasonOf(op, id).Some? then [ReasonOf(op, id).value] else []
  {
    hide ReasonsIn;
    match op
    case Start(started) => ReasonsStep(s.trace, MonitorStart(started), id);
    case Result(from, terminal, reason) =>
      var i := IndexOf(s.active, from);
      if i < |s.active| {
        ReasonsStep(s.trace, if terminal then MonitorEnd(from, reason, s.active[i].count)
                             else MonitorEvent(from, s.active[i].count + 1), id);
      }
    case TerminateAll(reason) => ReasonsEnds(s.trace, s.active, reason, id);
    case Cancel(from) =>
      var i := IndexOf(s.active, from);
      if i < |s.active| {
        ReasonsStep(s.trace, MonitorEnd(from, "cancelled", s.active[i].count), id);
      }
  }

  /** Over any run, the ends of a monitor give the reasons of what ended it, one each and in order. */
  lemma {:induction false} EndsSayWhy(ops: seq<Op>, id: string)
    ensures ReasonsIn(Run(ops).trace, id) == ReasonsGiven(ops, id)
  {
    if ops != [] {
      var init, last := ops[..|ops| - 1], ops[|ops| - 1];
      EndsSayWhy(init, id);
      TraceReadsIff(init, id);
      StepReasons(Run(init), last, id);
      hide ReasonsIn, Tracked, ReasonOf, Step;
    }
  }

  // ---- In which order monitors are tracked -----------------------------------------------------

  function WatchId(w: Watch): string {
    w.id
  }

  /** The started monitors that nothing ended since, in the order of their starts. */
  function Started(ops: seq<Op>): seq<string> {
    if ops == [] then []
    else
      var before := Started(ops[..|ops| - 1]);
      match ops[|ops| - 1]
      case Start(id) => if id == "" || id in before then before else before + [id]
      case Result(id, terminal, _) => if terminal then Filter(before, Not(id)) else before
      case TerminateAll(_) => []
      case Cancel(id) => Filter(before, Not(id))
  }

  lemma FilterWithout(active: seq<Watch>, i: nat)
    requires DistinctIds(active) && i < |active|
    ensures Map(Without(active, i), WatchId) == Filter(Map(active, WatchId), Not(active[i].id))
  {
    var ids := Map(active, WatchId);
    FilterOut(ids, i);
    hide Filter;
    assert Map(Without(active, i), WatchId) == ids[..i] + ids[i + 1..];
  }

  lemma UntrackedFilter(active: seq<Watch>, id: string)
    requires IndexOf(active, id) == |active|
    ensures Filter(Map(active, WatchId), Not(id)) == Map(active, WatchId)
  {
    FilterAll(Map(active, WatchId), Not(id));
  }

  lemma TrackedIffListed(active: seq<Watch>, id: string)
    ensures IndexOf(active, id) < |active| <==> id in Map(active, WatchId)
  {
    var i := IndexOf(active, id);
    if i < |active| {
      assert Map(active, WatchId)[i] == id;
    }
  }

  lemma StartStep(s: State, id: string)
    ensures Map(Step(s, Start(id)).active, WatchId) ==
      if id == "" || id in Map(s.active, WatchId) then Map(s.active, WatchId) else Map(s.active, WatchId) + [id]
  {
    TrackedIffListed(s.active, id);
  }

  lemma EndingStep(s: State, op: Op, id: string)
    requires DistinctIds(s.active) && (op == Cancel(id) || (op.Result? && op.id == id && op.terminal))
    ensures Map(Step(s, op).active, WatchId) == Filter(Map(s.active, WatchId), Not(id))
  {
    var i := IndexOf(s.active, id);
    if i < |s.active| {
      FilterWithout(s.active, i);
    } else {
      UntrackedFilter(s.active, id);
    }
  }

  /**
   * After any run the monitors tracked are those started and not ended since, in the order
   * they started in: the order in which ending all of them reports them.
   */
  lemma {:induction false} TrackedInStartOrder(ops: seq<Op>)
    ensures Map(Run(ops).active, WatchId) == Started(ops)
  {
    if ops != [] {
      var init, last := ops[..|ops| - 1], ops[|ops| - 1];
      TrackedInStartOrder(init);
      TraceReadsIff(init, "");
      var s := Run(init);
      hide Run, Filter, DistinctIds;
      match last
      case Start(id) => StartStep(s, id);
      case Result(id, terminal, _) =>
        if terminal {
          EndingStep(s, last, id);
        } else {
          assert Map(Step(s, last).active, WatchId) == Map(s.active, WatchId);
        }
      case TerminateAll(_) =>
      case Cancel(id) => EndingStep(s, last, id);
    }
  }

  // ---- Distinct monitor ids -----------------------------------------------------------------

  function About(trace: seq<MonitorMessage>, id: string): seq<MonitorMessage> {
    if trace == [] then []
    else
      var last := trace[|trace| - 1];
      About(trace[..|trace| - 1], id) + (if last.id == id then [last] else [])
  }

  /** One start and the first `n` events. */
  function Story(id: string, n: nat): seq<MonitorMessage> {
    if n == 0 then [MonitorStart(id)] else Story(id, n - 1) + [MonitorEvent(id, n)]
  }

  function StartsIn(trace: seq<MonitorMessage>, id: string): nat {
    if trace == [] then 0
    else StartsIn(trace[..|trace| - 1], id) + if trace[|trace| - 1] == MonitorStart(id) then 1 else 0
  }

  ghost predicate IsStory(trace: seq<MonitorMessage>, id: string) {
    match Reading(trace, id)
    case Broken => false
    case On(n) => About(trace, id) == Story(id, n)
    case Off =>
      About(trace, id) == [] || exists n, reason :: About(trace, id) == Story(id, n) + [MonitorEnd(id, reason, n)]
  }

  lemma {:induction false} OneStartIsAStory(trace: seq<MonitorMessage>, id: string)
    requires !Reading(trace, id).Broken? && StartsIn(trace, id) <= 1
    ensures IsStory(trace, id)
    ensures StartsIn(trace, id) == 0 <==> About(trace, id) == []
  {
    if trace != [] {
      var init, last := trace[..|trace| - 1], trace[|trace| - 1];
      OneStartIsAStory(init, id);
      if last.id == id {
        StoryGrows(About(init, id), Reading(init, id), last, id, StartsIn(init, id));
      }
      hide Story;
    }
  }

  lemma StoryGrows(about: seq<MonitorMessage>, phase: Phase, last: MonitorMessage, id: string, starts: nat)
    requires last.id == id && !Read(phase, last).Broken?
    requires starts == 0 <==> about == []
    requires last.MonitorStart? ==> starts == 0
    requires phase.On? ==> about == Story(id, phase.n)
    ensures last.MonitorStart? ==> about + [last] == Story(id, 0)
    ensures last.MonitorEvent? ==> Read(phase, last) == On(last.sequence) && about + [last] == Story(id, last.sequence)
    ensures last.MonitorEnd? ==> about + [last] == Story(id, last.total) + [MonitorEnd(id, last.reason, last.total)]
  {
    if last.MonitorEvent? {
      assert last.sequence > 0;
    }
  }

  function StartOps(ops: seq<Op>, id: string): nat {
    if ops == [] then 0 else StartOps(ops[..|ops| - 1], id) + if ops[|ops| - 1] == Start(id) then 1 else 0
  }

  lemma {:induction false} StartsAppend(trace: seq<MonitorMessage>, more: seq<MonitorMessage>, id: string)
    requires forall k :: 0 <= k < |more| ==> !more[k].MonitorStart?
    ensures StartsIn(trace + more, id) == StartsIn(trace, id)
  {
    if more == [] {
      assert trace + more == trace;
    } else {
      assert (trace + more)[..|trace + more| - 1] == trace + more[..|more| - 1];
      StartsAppend(trace, more[..|more| - 1], id);
    }
  }

  lemma {:induction false} TrackedWasStarted(ops: seq<Op>, id: string)
    ensures StartsIn(Run(ops).trace, id) <= StartOps(ops, id)
    ensures Tracked(Run(ops), id) ==> StartOps(ops, id) > 0
  {
    if ops != [] {
      var init, last := ops[..|ops| - 1], ops[|ops| - 1];
      TrackedWasStarted(init, id);
      TraceReadsIff(init, id);
      StepStarts(Run(init), last, id);
      hide Step, Tracked, StartsIn;
    }
  }

  lemma StepStarts(s: State, op: Op, id: string)
    requires DistinctIds(s.active)
    ensures StartsIn(Step(s, op).trace, id) <= StartsIn(s.trace, id) + if op == Start(id) then 1 else 0
    ensures Tracked(Step(s, op), id) ==> Tracked(s, id) || op == Start(id)
  {
    hide StartsIn;
    match op
    case Start(started) =>
      StartsStep(s.trace, MonitorStart(started), id);
      var i := IndexOf(s.active, started);
      if i < |s.active| {
        UpdateIndex(s.active, i, 0, id);
      } else {
        AppendIndex(s.active, Watch(started, 0), id);
      }
    case Result(from, terminal, reason) =>
      var i := IndexOf(s.active, from);
      if i < |s.active| {
        if terminal {
          StartsStep(s.trace, MonitorEnd(from, reason, s.active[i].count), id);
          RemoveIndex(s.active, i, id);
        } else {
          StartsStep(s.trace, MonitorEvent(from, s.active[i].count + 1), id);
          UpdateIndex(s.active, i, s.active[i].count + 1, id);
        }
      }
    case TerminateAll(reason) =>
      StartsAppend(s.trace, Ends(s.active, reason), id);
    case Cancel(from) =>
      var i := IndexOf(s.active, from);
      if i < |s.active| {
        StartsStep(s.trace, MonitorEnd(from, "cancelled", s.active[i].count), id);
        RemoveIndex(s.active, i, id);
      }
  }

  lemma StartsStep(trace: seq<MonitorMessage>, m: MonitorMessage, id: string)
    ensures StartsIn(trace + [m], id) == StartsIn(trace, id) + if m == MonitorStart(id) then 1 else 0
  {
    assert (trace + [m])[..|trace + [m]| - 1] == trace;
  }

  lemma {:induction false} StartedOnceIsNotRestarted(ops: seq<Op>, id: string)
    requires StartOps(ops, id) <= 1
    ensures !Restarted(ops, id)
  {
    if ops != [] {
      StartedOnceIsNotRestarted(ops[..|ops| - 1], id);
      TrackedWasStarted(ops[..|ops| - 1], id);
    }
  }

  /**
   * A monitor id used once: nothing, or one start, events 1 to n, and at most one end
   * whose total is n, with nothing after it; the end is missing exactly while tracked.
   */
  lemma MonitorStory(ops: seq<Op>, id: string)
    requires StartOps(ops, id) <= 1
    ensures IsStory(Run(ops).trace, id)
    ensures Tracked(Run(ops), id) <==> Reading(Run(ops).trace, id).On?
  {
    StartedOnceIsNotRestarted(ops, id);
    TraceReadsIff(ops, id);
    TrackedWasStarted(ops, id);
    OneStartIsAStory(Run(ops).trace, id);
    hide Run, IsStory, Reading, Restarted;
  }

  // ---- The class ----------------------------------------------------------------------------

  class MonitorTracker {
    var active: seq<Watch>
    var trace: seq<MonitorMessage>

    ghost function Now(): State
      reads this
    {
      State(active, trace)
    }

    constructor ()
      ensures Now() == NO_MONITORS
    {
      active, trace := [], [];
    }

    method Find(id: string) returns (i: nat)
      ensures i == IndexOf(active, id)
    {
      i := 0;
      while i < |active| && active[i].id != id
        invariant i <= |active|
        invariant FirstIndex(active, HasId(id)) == i + FirstIndex(active[i..], HasId(id))
      {
        assert active[i..][1..] == active[i + 1..];
        i := i + 1;
      }
    }

    method StartMonitor(id: string)
      modifies this
      ensures Now() == Step(old(Now()), Op.Start(id))
    {
      if id == "" {
        return;
      }
      var i := Find(id);
      if i < |active| {
        active := active[i := Watch(id, 0)];
      } else {
        active := active + [Watch(id, 0)];
      }
      trace := trace + [MonitorStart(id)];
    }

    method ProcessMonitorEvent(id: string, terminal: bool, reason: string)
      modifies this
      ensures Now() == Step(old(Now()), Op.Result(id, terminal, reason))
    {
      var i := Find(id);
      if i == |active| {
        return;
      }
      var state := active[i];
      if !terminal {
        state := state.(count := state.count + 1);
        active := active[i := state];
        trace := trace + [MonitorEvent(id, state.count)];
        return;
      }
      active := active[..i] + active[i + 1..];
      trace := trace + [MonitorEnd(id, reason, state.count)];
    }

    method TerminateActiveMonitors(reason: string)
      modifies this
      ensures Now() == Step(old(Now()), Op.TerminateAll(reason))
    {
      var live := active;
      active := [];
      for k := 0 to |live|
        invariant active == []
        invariant trace == old(trace) + Ends(live, reason)[..k]
      {
        trace := trace + [MonitorEnd(live[k].id, reason, live[k].count)];
      }
    }

    /** Raises when no monitor of that id is tracked. */
    method CancelMonitor(id: string) returns (raised: bool)
      modifies this
      ensures Now() == Step(old(Now()), Op.Cancel(id))
      ensures raised <==> !Tracked(old(Now()), id)
    {
      var i := Find(id);
      if i == |active| {
        return true;
      }
      var state := active[i];
      active := active[..i] + active[i + 1..];
      trace := trace + [MonitorEnd(id, "cancelled", state.count)];
      raised := false;
    }
  }
}
