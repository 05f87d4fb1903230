// src/core/session.py: the status machine of a session, over every run of transitions
// interleaved with the use of its buffer.
module SessionStatus {
  import opened Collections
  import Buffer

  datatype Status = Created | Active | Executing | Paused | Interrupted | Completed | Failed | Cancelled

  datatype Activity = Idle | ProcessingLlm | ExecutingTool | RunningSubprocess | AwaitingPermission

  /** The metadata keys the transitions write. */
  datatype Flags = Flags(completedWhilePaused: bool, restartInterrupted: bool, wasPausedBeforeRestart: bool)

  datatype Session = Session(
    status: Status,
    beforeWait: Option<Status>,
    endedAt: Option<int>,
    pausedAt: Option<int>,
    pausedReason: Option<string>,
    activity: Activity,
    flags: Flags,
    buffer: Buffer.State)

  const NEW_SESSION := Session(Created, None, None, None, None, Idle, Flags(false, false, false), Buffer.EMPTY)

  /** `Unpause` is the assignment by which ending or completing a paused session goes first. */
  datatype Op =
    | SetActive
    | SetExecuting
    | Complete(now: int)
    | Fail(now: int)
    | Cancel(now: int)
    | Interrupt
    | Pause(now: int, reason: Option<string>)
    | Resume
    | BeginInputWait(now: int, what: string)
    | EndInputWait
    | Restore
    | Unpause(clearPausedAt: bool)
    | SetActivity(activity: Activity)
    | UseBuffer(op: Buffer.BufferOp)

  predicate Terminal(status: Status) {
    status.Completed? || status.Failed? || status.Cancelled?
  }

  /** The transitions that raise. */
  predicate Raises(s: Session, op: Op) {
    match op
    case Pause(_, _) => Terminal(s.status) || s.status.Paused?
    case Resume => !s.status.Paused?
    case Restore => !Terminal(s.status) && !s.status.Interrupted?
    case _ => false
  }

  function Advance(s: Session, status: Status): Session {
    if s.status.Paused? || Terminal(s.status) then s else s.(status := status)
  }

  function End(s: Session, status: Status, now: int): Session {
    s.(status := status, activity := Idle, endedAt := Some(now), buffer := Buffer.AfterClose(s.buffer))
  }

  function Step(s: Session, op: Op): Session {
    if Raises(s, op) then s
    else
      match op
      case SetActive => Advance(s, Active)
      case SetExecuting => Advance(s, Executing)
      case Complete(now) =>
        if s.status.Paused? then s.(flags := s.flags.(completedWhilePaused := true)) else End(s, Completed, now)
      case Fail(now) => End(s, Failed, now).(pausedAt := None)
      case Cancel(now) => End(s, Cancelled, now).(pausedAt := None)
      case Interrupt =>
        if Terminal(s.status) then s
        else
          s.(status := Interrupted, activity := Idle,
             flags := s.flags.(restartInterrupted := true,
                               wasPausedBeforeRestart := s.flags.wasPausedBeforeRestart || s.status.Paused?))
      case Pause(now, reason) => s.(status := Paused, activity := Idle, pausedAt := Some(now), pausedReason := reason)
      case Resume => s.(status := Active, activity := Idle, pausedAt := None, pausedReason := None)
      case BeginInputWait(now, what) =>
        var waiting := s.(activity := AwaitingPermission);
        if Terminal(s.status) || s.status.Paused? then waiting
        else waiting.(beforeWait := Some(s.status), status := Paused, pausedAt := Some(now), pausedReason := Some(what))
      case EndInputWait =>
        (if s.status.Paused? && s.beforeWait.Some?
         then s.(status := s.beforeWait.value, pausedAt := None, pausedReason := None) else s)
        .(beforeWait := None, activity := RunningSubprocess)
      case Restore => s.(status := Active, activity := Idle, endedAt := None)
      case Unpause(clear) => if s.status.Paused? then s.(status := Active, pausedAt := if clear then None else s.pausedAt) else s
      case SetActivity(activity) => s.(activity := activity)
      case UseBuffer(bufferOp) => s.(buffer := Buffer.BufferStep(s.buffer, bufferOp))
  }

  function Run(s: Session, ops: seq<Op>): Session
    decreases ops
  {
    if ops == [] then s else Run(Step(s, ops[0]), ops[1..])
  }

  // ---- What every run keeps ------------------------------------------------------------

  predicate Inv(s: Session) {
    && (s.endedAt.Some? <==> Terminal(s.status))
    && (Terminal(s.status) ==> s.buffer.closed)
    && (s.buffer.closed ==> s.buffer.live == map[])
    && (s.status.Paused? ==> s.pausedAt.Some?)
    && (s.beforeWait.Some? ==> !Terminal(s.beforeWait.value) && !s.beforeWait.value.Paused?)
  }

  lemma BufferKeepsInv(b: Buffer.State, op: Buffer.BufferOp)
    requires b.closed ==> b.live == map[]
    ensures Buffer.BufferStep(b, op).closed ==> Buffer.BufferStep(b, op).live == map[]
    ensures b.closed ==> Buffer.BufferStep(b, op).closed
  {
  }

  lemma StepKeepsInv(s: Session, op: Op)
    requires Inv(s)
    ensures Inv(Step(s, op))
  {
    if op.UseBuffer? {
      BufferKeepsInv(s.buffer, op.op);
    }
  }

  /**
   * Over every run: `ended_at` is set exactly in the terminal statuses, and there the
   * buffer is closed and has no live subscriber.
   */
  lemma {:induction false} RunKeepsInv(s: Session, ops: seq<Op>)
    requires Inv(s)
    ensures Inv(Run(s, ops))
    decreases ops
  {
    if ops != [] {
      StepKeepsInv(s, ops[0]);
      RunKeepsInv(Step(s, ops[0]), ops[1..]);
    }
  }

  // ---- The status graph -----------------------------------------------------------------

  /** The changes of status that can happen at all. */
  predicate Edge(from: Status, to: Status) {
    from != to &&
    match to
    case Active => true
    case Executing => !Terminal(from)
    case Created => from.Paused?
    case Paused => !Terminal(from)
    case Interrupted => !Terminal(from)
    case Completed => !from.Paused?
    case Failed => true
    case Cancelled => true
  }

  lemma StepsFollowEdges(s: Session, op: Op)
    requires Inv(s) && Step(s, op).status != s.status
    ensures Edge(s.status, Step(s, op).status)
  {
  }

  /** A session in the given status, waiting for input if that status is a pause. */
  function Sample(status: Status, before: Status): Session {
    NEW_SESSION.(status := status,
                 endedAt := if Terminal(status) then Some(0) else None,
                 pausedAt := if status.Paused? then Some(0) else None,
                 beforeWait := if status.Paused? then Some(before) else None,
                 buffer := if Terminal(status) then Buffer.AfterClose(Buffer.EMPTY) else Buffer.EMPTY)
  }

  /** Every edge is taken by some operation in some session the invariant allows. */
  lemma EdgesHappen(from: Status, to: Status) returns (s: Session, op: Op)
    requires Edge(from, to)
    ensures Inv(s) && s.status == from && Step(s, op).status == to
  {
    s := Sample(from, if Terminal(to) || to.Paused? then Active else to);
    op := match to
      case Active => if Terminal(from) then Restore else if from.Paused? then Resume else SetActive
      case Executing => if from.Paused? then EndInputWait else SetExecuting
      case Created => EndInputWait
      case Paused => Pause(0, None)
      case Interrupted => Interrupt
      case Completed => Complete(0)
      case Failed => Fail(0)
      case Cancelled => Cancel(0);
  }

  /** A terminal session becomes non-terminal only where a run restores it. */
  lemma {:induction false} TerminalLeftOnlyByRestore(s: Session, ops: seq<Op>)
    requires Terminal(s.status) && !Terminal(Run(s, ops).status)
    ensures Restore in ops
    decreases ops
  {
    if ops[0] != Restore {
      assert Terminal(Step(s, ops[0]).status);
      TerminalLeftOnlyByRestore(Step(s, ops[0]), ops[1..]);
    }
  }

  /** Once closed, by the first ending, the buffer never serves a live subscriber again. */
  lemma {:induction false} ClosedStaysClosed(s: Session, ops: seq<Op>)
    requires Inv(s) && s.buffer.closed
    ensures Run(s, ops).buffer.closed && Run(s, ops).buffer.live == map[]
    decreases ops
  {
    if ops != [] {
      StepKeepsInv(s, ops[0]);
      if ops[0].UseBuffer? {
        BufferKeepsInv(s.buffer, ops[0].op);
      }
      ClosedStaysClosed(Step(s, ops[0]), ops[1..]);
    }
  }

  /**
   * So a session restored in memory is active with a closed buffer: whoever subscribes
   * afterwards gets the history and the end marker at once, and nothing later.
   */
  lemma RestoredInMemoryIsDeaf(s: Session, between: seq<Op>, id: string, after: seq<Op>)
    requires Inv(s) && Terminal(s.status)
    ensures
      var restored := Run(Step(s, Restore), between);
      var subscribed := Step(restored, UseBuffer(Buffer.OpSubscribe(id)));
      && Step(s, Restore).status == Active
      && |subscribed.buffer.queues| == |restored.buffer.queues| + 1
      && (var q := subscribed.buffer.queues[|restored.buffer.queues|];
          && q == Buffer.Replay(restored.buffer.history) + [Buffer.EndMarker]
          && |Run(subscribed, after).buffer.queues| > |restored.buffer.queues|
          && Run(subscribed, after).buffer.queues[|restored.buffer.queues|] == q)
  {
    var restored := Run(Step(s, Restore), between);
    var subscribed := Step(restored, UseBuffer(Buffer.OpSubscribe(id)));
    StepKeepsInv(s, Restore);
    RunKeepsInv(Step(s, Restore), between);
    ClosedStaysClosed(Step(s, Restore), between);
    StepKeepsInv(restored, UseBuffer(Buffer.OpSubscribe(id)));
    QueuesFrozen(subscribed, after);
  }

  lemma {:induction false} QueuesFrozen(s: Session, ops: seq<Op>)
    requires Inv(s) && s.buffer.closed
    ensures |Run(s, ops).buffer.queues| >= |s.buffer.queues|
    ensures forall k :: 0 <= k < |s.buffer.queues| ==> Run(s, ops).buffer.queues[k] == s.buffer.queues[k]
    decreases ops
  {
    if ops != [] {
      var s' := Step(s, ops[0]);
      StepKeepsInv(s, ops[0]);
      QueueStep(s, ops[0]);
      QueuesFrozen(s', ops[1..]);
    }
  }

  lemma QueueStep(s: Session, op: Op)
    requires Inv(s) && s.buffer.closed
    ensures Step(s, op).buffer.closed && |Step(s, op).buffer.queues| >= |s.buffer.queues|
    ensures forall k :: 0 <= k < |s.buffer.queues| ==> Step(s, op).buffer.queues[k] == s.buffer.queues[k]
  {
    assert forall k :: !Buffer.Listening(s.buffer.live, k);
    if op.UseBuffer? {
      BufferKeepsInv(s.buffer, op.op);
    }
  }

  // ---- Waiting for input ------------------------------------------------------------------

  /** What goes on in a session while a gate waits for the user's answer. */
  predicate DuringWait(op: Op) {
    op.SetActive? || op.SetExecuting? || op.Complete? || op.SetActivity? || op.UseBuffer?
  }

  predicate IsComplete(op: Op) {
    op.Complete?
  }

  lemma {:induction false} WaitMeanwhile(s: Session, ops: seq<Op>)
    requires forall i :: 0 <= i < |ops| ==> DuringWait(ops[i])
    requires s.status.Paused? || Terminal(s.status)
    ensures
      var t := Run(s, ops);
      var completes := exists i :: 0 <= i < |ops| && IsComplete(ops[i]);
      && t.beforeWait == s.beforeWait && t.pausedAt == s.pausedAt
      && t.status == (if Terminal(s.status) && completes then Completed else s.status)
      && t.flags == (if s.status.Paused? && completes then s.flags.(completedWhilePaused := true) else s.flags)
    decreases ops
  {
    if ops != [] {
      var s' := Step(s, ops[0]);
      assert DuringWait(ops[0]);
      assert s'.status == if Terminal(s.status) && ops[0].Complete? then Completed else s.status;
      WaitMeanwhile(s', ops[1..]);
      assert (exists i :: 0 <= i < |ops| && IsComplete(ops[i]))
        <==> IsComplete(ops[0]) || (exists i :: 0 <= i < |ops[1..]| && IsComplete(ops[1..][i])) by {
        assert forall i :: 0 < i < |ops| ==> ops[i] == ops[1..][i - 1];
      }
    }
  }

  /**
   * The session waits, and the meantime only tries to make it active, executing or
   * complete. The prior status comes back exactly when it was not a pause with a
   * leftover of an earlier wait, nor a failed or cancelled session that was completed.
   * A completion tried meanwhile on a running session does not happen: only its flag stays.
   */
  lemma InputWaitRestoresIff(s: Session, now: int, reason: string, ops: seq<Op>)
    requires Inv(s)
    requires forall i :: 0 <= i < |ops| ==> DuringWait(ops[i])
    ensures
      var completes := exists i :: 0 <= i < |ops| && IsComplete(ops[i]);
      var t := Step(Run(Step(s, BeginInputWait(now, reason)), ops), EndInputWait);
      && (t.status == s.status <==>
            !(s.status.Paused? && s.beforeWait.Some?) && !((s.status.Failed? || s.status.Cancelled?) && completes))
      && t.beforeWait.None?
      && (!Terminal(s.status) && completes ==> t.flags.completedWhilePaused && !Terminal(t.status))
  {
    WaitMeanwhile(Step(s, BeginInputWait(now, reason)), ops);
  }

  lemma RunLast(s: Session, ops: seq<Op>, op: Op)
    ensures Run(s, ops + [op]) == Step(Run(s, ops), op)
    decreases ops
  {
    if ops == [] {
      assert [op][1..] == [];
    } else {
      assert (ops + [op])[1..] == ops[1..] + [op];
      RunLast(Step(s, ops[0]), ops[1..], op);
    }
  }

  function StatusBefore(ops: seq<Op>, i: nat): Status
    requires i <= |ops|
  {
    Run(NEW_SESSION, ops[..i]).status
  }

  /** A wait took effect at step `i`, and no wait has been ended since. */
  predicate Unended(ops: seq<Op>, i: nat) {
    && i < |ops| && ops[i].BeginInputWait? && !StatusBefore(ops, i).Paused? && !Terminal(StatusBefore(ops, i))
    && forall j :: i < j < |ops| ==> !ops[j].EndInputWait?
  }

  lemma UnendedEarlier(ops: seq<Op>, op: Op, i: nat)
    requires i < |ops|
    ensures StatusBefore(ops + [op], i) == StatusBefore(ops, i)
    ensures Unended(ops + [op], i) <==> Unended(ops, i) && !op.EndInputWait?
  {
    var more := ops + [op];
    assert more[..i] == ops[..i];
    assert StatusBefore(more, i) == StatusBefore(ops, i);
    hide Run, Terminal, StatusBefore;
    assert more[|ops|] == op && forall j :: 0 <= j < |ops| ==> more[j] == ops[j];
  }

  lemma UnendedLast(ops: seq<Op>, op: Op)
    ensures StatusBefore(ops + [op], |ops|) == Run(NEW_SESSION, ops).status
    ensures
      var status := Run(NEW_SESSION, ops).status;
      Unended(ops + [op], |ops|) <==> op.BeginInputWait? && !status.Paused? && !Terminal(status)
  {
    assert (ops + [op])[..|ops|] == ops;
    hide Run, Terminal;
  }

  /** A saved status is that of the session before a wait that took effect and was not ended. */
  lemma {:induction false} SavedStatus(ops: seq<Op>) returns (i: nat)
    ensures Run(NEW_SESSION, ops).beforeWait.None? ==> forall k: nat :: !Unended(ops, k)
    ensures Run(NEW_SESSION, ops).beforeWait.Some? ==>
      Unended(ops, i) && Run(NEW_SESSION, ops).beforeWait == Some(StatusBefore(ops, i))
  {
    i := 0;
    if ops != [] {
      var init, last := ops[..|ops| - 1], ops[|ops| - 1];
      i := SavedStatus(init);
      RunLast(NEW_SESSION, init, last);
      assert ops == init + [last];
      var s := Run(NEW_SESSION, init);
      UnendedLast(init, last);
      if last.BeginInputWait? && !s.status.Paused? && !Terminal(s.status) {
        i := |init|;
      } else if s.beforeWait.Some? {
        UnendedEarlier(init, last, i);
      }
      hide Run, Unended, StatusBefore;
      forall k: nat | Run(NEW_SESSION, ops).beforeWait.None?
        ensures !Unended(ops, k)
      {
        UnendedInside(ops, k);
        if k < |init| {
          UnendedEarlier(init, last, k);
        }
      }
    }
  }

  lemma UnendedInside(ops: seq<Op>, k: nat)
    ensures Unended(ops, k) ==> k < |ops|
  {
  }

  /**
   * At every point of every run, ending a wait lifts a pause, whoever made it, exactly if
   * some wait took effect and none has been ended since; the status then goes back to one
   * the session had before such a wait.
   */
  lemma EndInputWaitLiftsPauseIff(ops: seq<Op>)
    requires Run(NEW_SESSION, ops).status.Paused?
    ensures
      var t := Step(Run(NEW_SESSION, ops), EndInputWait);
      && (!t.status.Paused? <==> exists i: nat :: Unended(ops, i))
      && (!t.status.Paused? ==> exists i: nat :: Unended(ops, i) && t.status == StatusBefore(ops, i))
  {
    var i := SavedStatus(ops);
    RunKeepsInv(NEW_SESSION, ops);
    hide Run;
  }

  /**
   * Resuming ends no wait, so an abandoned one leaves its status behind:
   * the user's later pause is then undone by the end of a wait that began while paused.
   */
  lemma ManualPauseUndone()
    ensures
      var s := Run(NEW_SESSION, [SetActive, BeginInputWait(1, "awaiting_question"), Resume, Pause(2, None)]);
      && s.status == Paused && s.pausedReason == None
      && Run(s, [BeginInputWait(3, "awaiting_question"), EndInputWait]).status == Active
  {
    var ops := [SetActive, BeginInputWait(1, "awaiting_question"), Resume, Pause(2, None)];
    var s1 := Step(NEW_SESSION, ops[0]);
    var s2 := Step(s1, ops[1]);
    var s3 := Step(s2, ops[2]);
    var s := Step(s3, ops[3]);
    assert ops[1..][0] == ops[1] && ops[1..][1..] == [ops[2], ops[3]];
    assert Run(s2, [ops[2], ops[3]]) == s by {
      assert [ops[2], ops[3]][1..] == [ops[3]] && [ops[3]][1..] == [];
      assert Run(s3, [ops[3]]) == Run(s, []);
    }
    assert Run(NEW_SESSION, ops) == Run(s1, ops[1..]) == s;
    var last := [BeginInputWait(3, "awaiting_question"), EndInputWait];
    assert last[1..] == [EndInputWait] && [EndInputWait][1..] == [];
    assert Run(Step(s, last[0]), [EndInputWait]) == Run(Step(Step(s, last[0]), EndInputWait), []);
  }

  // ---- Whose doing a status, its times and the activity are ---------------------------------

  /** Step `i` ends the session: a failure or a cancellation always does, a completion unless it is paused. */
  predicate Ends(ops: seq<Op>, i: nat) {
    i < |ops| && (ops[i].Fail? || ops[i].Cancel? || (ops[i].Complete? && !StatusBefore(ops, i).Paused?))
  }

  /** The last step that ends the session, with no restore since. */
  predicate LastEnding(ops: seq<Op>, i: nat) {
    Ends(ops, i) && forall j: nat :: i < j < |ops| ==> !Ends(ops, j) && !ops[j].Restore?
  }

  /** Step `i` pauses the session, by hand or to wait for input. */
  predicate Pauses(ops: seq<Op>, i: nat) {
    && i < |ops| && (ops[i].Pause? || ops[i].BeginInputWait?)
    && !StatusBefore(ops, i).Paused? && !Terminal(StatusBefore(ops, i))
  }

  /**
   * Step `i` clears the reason of the last pause, and its time: a resume, or the end of a
   * wait that lifts the pause. Failing, cancelling and ending a paused session clear the time only.
   */
  predicate Clears(ops: seq<Op>, i: nat, time: bool) {
    && i < |ops|
    && (|| (ops[i].Resume? && StatusBefore(ops, i).Paused?)
        || (ops[i].EndInputWait? && StatusBefore(ops, i).Paused? && !StatusBefore(ops, i + 1).Paused?)
        || (time && (ops[i].Fail? || ops[i].Cancel? || (ops[i] == Unpause(true) && StatusBefore(ops, i).Paused?))))
  }

  /** The last pause, its information not cleared since. */
  predicate LastPause(ops: seq<Op>, i: nat, time: bool) {
    Pauses(ops, i) && forall j: nat :: i < j < |ops| ==> !Pauses(ops, j) && !Clears(ops, j, time)
  }

  /** The operations that say what the session is doing. */
  function Said(op: Op): Option<Activity> {
    match op
    case SetActivity(activity) => Some(activity)
    case BeginInputWait(_, _) => Some(AwaitingPermission)
    case EndInputWait => Some(RunningSubprocess)
    case _ => None
  }

  /** Step `i` sets the session to rest: it ends, pauses by hand, resumes, restores or interrupts it. */
  predicate Quiets(ops: seq<Op>, i: nat) {
    && i < |ops|
    && (|| Ends(ops, i)
        || (ops[i].Pause? && Pauses(ops, i))
        || (ops[i].Resume? && StatusBefore(ops, i).Paused?)
        || (ops[i].Restore? && (Terminal(StatusBefore(ops, i)) || StatusBefore(ops, i).Interrupted?))
        || (ops[i].Interrupt? && !Terminal(StatusBefore(ops, i))))
  }

  /** The last thing said about the activity, with the session not set to rest since. */
  predicate LastSaid(ops: seq<Op>, i: nat) {
    && i < |ops| && Said(ops[i]).Some?
    && forall j: nat :: i < j < |ops| ==> Said(ops[j]).None? && !Quiets(ops, j)
  }

  lemma Earlier(ops: seq<Op>, op: Op, i: nat)
    requires i < |ops|
    ensures (ops + [op])[i] == ops[i] && StatusBefore(ops + [op], i) == StatusBefore(ops, i)
    ensures Ends(ops + [op], i) == Ends(ops, i) && Pauses(ops + [op], i) == Pauses(ops, i)
    ensures Quiets(ops + [op], i) == Quiets(ops, i)
  {
    assert (ops + [op])[..i] == ops[..i];
    hide Run, Terminal;
  }

  lemma Latest(ops: seq<Op>, op: Op)
    ensures (ops + [op])[|ops|] == op && StatusBefore(ops + [op], |ops|) == Run(NEW_SESSION, ops).status
    ensures StatusBefore(ops + [op], |ops| + 1) == Step(Run(NEW_SESSION, ops), op).status
  {
    assert (ops + [op])[..|ops|] == ops;
    assert (ops + [op])[..|ops| + 1] == ops + [op];
    RunLast(NEW_SESSION, ops, op);
  }

  lemma LastEndingStep(ops: seq<Op>, op: Op, i: nat)
    requires i < |ops|
    ensures LastEnding(ops + [op], i) <==> LastEnding(ops, i) && !Ends(ops + [op], |ops|) && !op.Restore?
  {
    hide Ends;
    var more := ops + [op];
    Earlier(ops, op, i);
    forall j: nat | j < |ops|
      ensures more[j] == ops[j] && Ends(more, j) == Ends(ops, j)
    {
      Earlier(ops, op, j);
    }
    if LastEnding(more, i) {
      forall j: nat | i < j < |ops|
        ensures !Ends(ops, j) && !ops[j].Restore?
      {
        assert !Ends(more, j) && !more[j].Restore?;
      }
      assert !Ends(more, |ops|) && !more[|ops|].Restore?;
    }
  }

  lemma EndingStep(ops: seq<Op>, op: Op)
    ensures
      var s := Run(NEW_SESSION, ops);
      var ends := op.Fail? || op.Cancel? || (op.Complete? && !s.status.Paused?);
      && (Ends(ops + [op], |ops|) <==> ends)
      && (LastEnding(ops + [op], |ops|) <==> ends)
  {
    hide Run, Step;
    Latest(ops, op);
  }

  /** What the ending at step `i` makes of the session. */
  predicate EndedBy(s: Session, op: Op) {
    && (s.status == Completed <==> op.Complete?)
    && (s.status == Failed <==> op.Fail?)
    && (s.status == Cancelled <==> op.Cancel?)
    && (op.Complete? || op.Fail? || op.Cancel? ==> s.endedAt == Some(op.now))
    && (op.Fail? || op.Cancel? ==> s.pausedAt.None?)
  }

  lemma EndStep(s: Session, op: Op)
    requires Inv(s)
    ensures
      var t := Step(s, op);
      if op.Fail? || op.Cancel? || (op.Complete? && !s.status.Paused?) then Terminal(t.status) && EndedBy(t, op)
      else if op.Restore? then !Terminal(t.status)
      else
        && (Terminal(t.status) <==> Terminal(s.status))
        && (Terminal(s.status) ==> t.status == s.status && t.endedAt == s.endedAt && t.pausedAt == s.pausedAt)
  {
  }

  /**
   * At every point of every run, a session has ended exactly if a step ended it that no
   * restore followed; the last such step names the status and gives the time.
   */
  lemma {:induction false} EndedByItsLastEnding(ops: seq<Op>) returns (i: nat)
    ensures
      var t := Run(NEW_SESSION, ops);
      && (!Terminal(t.status) ==> t.endedAt.None? && forall k: nat :: !LastEnding(ops, k))
      && (Terminal(t.status) ==> LastEnding(ops, i) && EndedBy(t, ops[i]))
  {
    i := 0;
    RunKeepsInv(NEW_SESSION, ops);
    if ops != [] {
      var init, last := ops[..|ops| - 1], ops[|ops| - 1];
      i := EndedByItsLastEnding(init);
      RunLast(NEW_SESSION, init, last);
      RunKeepsInv(NEW_SESSION, init);
      assert ops == init + [last];
      var s := Run(NEW_SESSION, init);
      EndStep(s, last);
      EndingStep(init, last);
      hide Run, Step, Terminal, LastEnding, Ends;
      forall k: nat | k < |init|
        ensures LastEnding(ops, k) <==> LastEnding(init, k) && !Ends(ops, |init|) && !last.Restore?
      {
        LastEndingStep(init, last, k);
      }
      LastEndingInside(ops);
      LastEndingInside(init);
      if Ends(ops, |init|) {
        i := |init|;
      }
    }
  }

  lemma LastEndingInside(ops: seq<Op>)
    ensures forall k: nat :: LastEnding(ops, k) ==> k < |ops|
  {
  }

  lemma ClearsEarlier(ops: seq<Op>, op: Op, i: nat, time: bool)
    requires i < |ops|
    ensures Clears(ops + [op], i, time) == Clears(ops, i, time)
  {
    assert (ops + [op])[..i] == ops[..i] && (ops + [op])[..i + 1] == ops[..i + 1];
    hide Run;
  }

  lemma LastPauseStep(ops: seq<Op>, op: Op, i: nat, time: bool)
    requires i < |ops|
    ensures LastPause(ops + [op], i, time) <==>
      LastPause(ops, i, time) && !Pauses(ops + [op], |ops|) && !Clears(ops + [op], |ops|, time)
  {
    hide Pauses, Clears;
    var more := ops + [op];
    Earlier(ops, op, i);
    forall j: nat | j < |ops|
      ensures Pauses(more, j) == Pauses(ops, j) && Clears(more, j, time) == Clears(ops, j, time)
    {
      Earlier(ops, op, j);
      ClearsEarlier(ops, op, j, time);
    }
    if LastPause(more, i, time) {
      forall j: nat | i < j < |ops|
        ensures !Pauses(ops, j) && !Clears(ops, j, time)
      {
        assert !Pauses(more, j) && !Clears(more, j, time);
      }
      assert !Pauses(more, |ops|) && !Clears(more, |ops|, time);
    }
  }

  predicate PausesNow(s: Session, op: Op) {
    (op.Pause? || op.BeginInputWait?) && !s.status.Paused? && !Terminal(s.status)
  }

  predicate ClearsNow(s: Session, op: Op, time: bool) {
    || (op.Resume? && s.status.Paused?)
    || (op.EndInputWait? && s.status.Paused? && !Step(s, op).status.Paused?)
    || (time && (op.Fail? || op.Cancel? || (op == Unpause(true) && s.status.Paused?)))
  }

  lemma PausingStep(ops: seq<Op>, op: Op, time: bool)
    ensures
      var s := Run(NEW_SESSION, ops);
      && (Pauses(ops + [op], |ops|) <==> PausesNow(s, op))
      && (Clears(ops + [op], |ops|, time) <==> ClearsNow(s, op, time))
      && (LastPause(ops + [op], |ops|, time) <==> PausesNow(s, op))
  {
    hide Run, Step, Terminal;
    Latest(ops, op);
  }

  /** What the pausing operation says about the pause. */
  predicate PausedBy(s: Session, op: Op, time: bool) {
    && (op.Pause? || op.BeginInputWait?)
    && if time then s.pausedAt == Some(op.now) else s.pausedReason == if op.Pause? then op.reason else Some(op.what)
  }

  /** No trace of a pause. */
  predicate Unpaused(s: Session, time: bool) {
    if time then s.pausedAt.None? else s.pausedReason.None?
  }

  lemma PauseStep(s: Session, op: Op, time: bool)
    requires Inv(s)
    ensures
      var t := Step(s, op);
      if PausesNow(s, op) then PausedBy(t, op, time)
      else if ClearsNow(s, op, time) then Unpaused(t, time)
      else if time then t.pausedAt == s.pausedAt else t.pausedReason == s.pausedReason
  {
  }

  lemma LastPauseInside(ops: seq<Op>, time: bool)
    ensures forall k: nat :: LastPause(ops, k, time) ==> k < |ops|
  {
  }

  /**
   * At every point of every run the time and the reason of a pause are those of the last
   * pause or wait, and there are none if it was lifted in a way that clears them, or there was none.
   */
  lemma {:induction false} PauseIsTheLastOne(ops: seq<Op>, time: bool) returns (i: nat)
    ensures
      var t := Run(NEW_SESSION, ops);
      || (LastPause(ops, i, time) && PausedBy(t, ops[i], time))
      || ((forall k: nat :: !LastPause(ops, k, time)) && Unpaused(t, time))
  {
    i := 0;
    if ops != [] {
      var init, last := ops[..|ops| - 1], ops[|ops| - 1];
      i := PauseIsTheLastOne(init, time);
      RunLast(NEW_SESSION, init, last);
      RunKeepsInv(NEW_SESSION, init);
      assert ops == init + [last];
      var s := Run(NEW_SESSION, init);
      PauseStep(s, last, time);
      PausingStep(init, last, time);
      hide Run, Step, Terminal, LastPause, Pauses, Clears, PausesNow, ClearsNow;
      forall k: nat | k < |init|
        ensures LastPause(ops, k, time) <==>
          LastPause(init, k, time) && !Pauses(ops, |init|) && !Clears(ops, |init|, time)
      {
        LastPauseStep(init, last, k, time);
      }
      LastPauseInside(ops, time);
      LastPauseInside(init, time);
      if PausesNow(s, last) {
        i := |init|;
      }
    }
  }

  lemma LastSaidStep(ops: seq<Op>, op: Op, i: nat)
    requires i < |ops|
    ensures LastSaid(ops + [op], i) <==> LastSaid(ops, i) && Said(op).None? && !Quiets(ops + [op], |ops|)
  {
    hide Quiets, Said;
    var more := ops + [op];
    Earlier(ops, op, i);
    Latest(ops, op);
    forall j: nat | j < |ops|
      ensures more[j] == ops[j] && Quiets(more, j) == Quiets(ops, j)
    {
      Earlier(ops, op, j);
    }
    if LastSaid(more, i) {
      forall j: nat | i < j < |ops|
        ensures Said(ops[j]).None? && !Quiets(ops, j)
      {
        assert Said(more[j]).None? && !Quiets(more, j);
      }
      assert Said(more[|ops|]).None? && !Quiets(more, |ops|);
    }
  }

  predicate QuietsNow(s: Session, op: Op) {
    || op.Fail? || op.Cancel? || (op.Complete? && !s.status.Paused?)
    || (op.Pause? && !s.status.Paused? && !Terminal(s.status))
    || (op.Resume? && s.status.Paused?)
    || (op.Restore? && (Terminal(s.status) || s.status.Interrupted?))
    || (op.Interrupt? && !Terminal(s.status))
  }

  lemma SayingStep(ops: seq<Op>, op: Op)
    ensures LastSaid(ops + [op], |ops|) <==> Said(op).Some?
    ensures Quiets(ops + [op], |ops|) <==> QuietsNow(Run(NEW_SESSION, ops), op)
  {
    hide Run, Step, Terminal, Said;
    Latest(ops, op);
    EndingStep(ops, op);
    PausingStep(ops, op, true);
    hide StatusBefore, Ends, Pauses, Clears, LastEnding, LastPause, ClearsNow;
  }

  lemma ActivityStep(s: Session, op: Op)
    ensures Step(s, op).activity == match Said(op)
                                    case Some(activity) => activity
                                    case None => if QuietsNow(s, op) then Idle else s.activity
  {
  }

  lemma LastSaidInside(ops: seq<Op>)
    ensures forall k: nat :: LastSaid(ops, k) ==> k < |ops|
  {
  }

  /**
   * At every point of every run the activity is what was last said about it, unless
   * nothing was said since the start or since the session was last set to rest.
   */
  lemma {:induction false} ActivityIsWhatWasLastSaid(ops: seq<Op>) returns (i: nat)
    ensures
      var t := Run(NEW_SESSION, ops);
      || (LastSaid(ops, i) && Some(t.activity) == Said(ops[i]))
      || ((forall k: nat :: !LastSaid(ops, k)) && t.activity == Idle)
  {
    i := 0;
    if ops != [] {
      var init, last := ops[..|ops| - 1], ops[|ops| - 1];
      i := ActivityIsWhatWasLastSaid(init);
      RunLast(NEW_SESSION, init, last);
      assert ops == init + [last];
      SayingStep(init, last);
      ActivityStep(Run(NEW_SESSION, init), last);
      hide Run, Step, LastSaid, Quiets, QuietsNow, Said;
      forall k: nat | k < |init|
        ensures LastSaid(ops, k) <==> LastSaid(init, k) && Said(last).None? && !Quiets(ops, |init|)
      {
        LastSaidStep(init, last, k);
      }
      LastSaidInside(ops);
      LastSaidInside(init);
      if Said(last).Some? {
        i := |init|;
      }
    }
  }

  predicate CausesActive(op: Op) {
    op.SetActive? || op.Resume? || op.Restore? || op.Unpause?
  }

  /** Some operation of the run accounts for the status, if it is one of a running session. */
  predicate Caused(ops: seq<Op>, status: Status) {
    && (status.Executing? ==> SetExecuting in ops)
    && (status.Interrupted? ==> Interrupt in ops)
    && (status.Active? ==> exists i :: 0 <= i < |ops| && CausesActive(ops[i]))
  }

  lemma CausedStill(ops: seq<Op>, op: Op, status: Status)
    requires Caused(ops, status)
    ensures Caused(ops + [op], status)
  {
    assert forall i :: 0 <= i < |ops| ==> (ops + [op])[i] == ops[i];
  }

  lemma CausedNow(ops: seq<Op>, s: Session, op: Op)
    requires Caused(ops, s.status) && (s.beforeWait.Some? ==> Caused(ops, s.beforeWait.value))
    ensures Caused(ops + [op], Step(s, op).status)
    ensures Step(s, op).beforeWait.Some? ==> Caused(ops + [op], Step(s, op).beforeWait.value)
  {
    var more := ops + [op];
    assert more[|ops|] == op;
    CausedStill(ops, op, s.status);
    if s.beforeWait.Some? {
      CausedStill(ops, op, s.beforeWait.value);
    }
  }

  /**
   * At every point of every run: nothing executes that was not set executing, nothing is
   * interrupted that no shutdown interrupted, and nothing is active that was not set
   * active, resumed, restored or lifted from its pause; setting one of the two running
   * statuses takes effect exactly where the session is neither paused nor ended.
   */
  lemma {:induction false} RunningStatusHasACause(ops: seq<Op>)
    ensures
      var s := Run(NEW_SESSION, ops);
      && Caused(ops, s.status) && (s.beforeWait.Some? ==> Caused(ops, s.beforeWait.value))
      && (s.status.Paused? || Terminal(s.status) ==> Step(s, SetActive) == Step(s, SetExecuting) == s)
      && (!s.status.Paused? && !Terminal(s.status) ==>
            Step(s, SetActive).status == Active && Step(s, SetExecuting).status == Executing)
  {
    if ops != [] {
      var init, last := ops[..|ops| - 1], ops[|ops| - 1];
      RunningStatusHasACause(init);
      RunLast(NEW_SESSION, init, last);
      assert ops == init + [last];
      CausedNow(init, Run(NEW_SESSION, init), last);
      hide Run, Caused;
    }
  }

  // ---- The class -----------------------------------------------------------------------

  class ActiveSession {
    var status: Status
    var statusBeforeInputWait: Option<Status>
    var endedAt: Option<int>
    var pausedAt: Option<int>
    var pausedReason: Option<string>
    var activityState: Activity
    var flags: Flags
    var buffer: Buffer.State

    ghost function Now(): Session
      reads this
    {
      Session(status, statusBeforeInputWait, endedAt, pausedAt, pausedReason, activityState, flags, buffer)
    }

    constructor ()
      ensures Now() == NEW_SESSION
    {
      status, statusBeforeInputWait, endedAt, pausedAt, pausedReason := Created, None, None, None, None;
      activityState, flags, buffer := Idle, Flags(false, false, false), Buffer.EMPTY;
    }

    method SetStatusActive()
      modifies this
      ensures Now() == Step(old(Now()), SetActive)
    {
      if status.Paused? || Terminal(status) {
        return;
      }
      status := Active;
    }

    method SetStatusExecuting()
      modifies this
      ensures Now() == Step(old(Now()), SetExecuting)
    {
      if status.Paused? || Terminal(status) {
        return;
      }
      status := Executing;
    }

    method CompleteSession(now: int)
      modifies this
      ensures Now() == Step(old(Now()), Complete(now))
    {
      if status.Paused? {
        flags := flags.(completedWhilePaused := true);
        return;
      }
      status := Completed;
      activityState := Idle;
      endedAt := Some(now);
      buffer := Buffer.AfterClose(buffer);
    }

    method FailSession(now: int)
      modifies this
      ensures Now() == Step(old(Now()), Fail(now))
    {
      status := Failed;
      activityState := Idle;
      endedAt := Some(now);
      pausedAt := None;
      buffer := Buffer.AfterClose(buffer);
    }

    method CancelSession(now: int)
      modifies this
      ensures Now() == Step(old(Now()), Cancel(now))
    {
      status := Cancelled;
      activityState := Idle;
      endedAt := Some(now);
      pausedAt := None;
      buffer := Buffer.AfterClose(buffer);
    }

    method InterruptSession()
      modifies this
      ensures Now() == Step(old(Now()), Interrupt)
    {
      if Terminal(status) {
        return;
      }
      var wasPaused := status.Paused?;
      status := Interrupted;
      activityState := Idle;
      flags := flags.(restartInterrupted := true);
      if wasPaused {
        flags := flags.(wasPausedBeforeRestart := true);
      }
    }

    method PauseSession(now: int, reason: Option<string>) returns (raised: bool)
      modifies this
      ensures Now() == Step(old(Now()), Pause(now, reason))
      ensures raised <==> Terminal(old(status)) || old(status).Paused?
    {
      if Terminal(status) || status.Paused? {
        return true;
      }
      status := Paused;
      activityState := Idle;
      pausedAt := Some(now);
      pausedReason := reason;
      raised := false;
    }

    method ResumeSession() returns (raised: bool)
      modifies this
      ensures Now() == Step(old(Now()), Resume)
      ensures raised <==> !old(status).Paused?
    {
      if !status.Paused? {
        return true;
      }
      status := Active;
      activityState := Idle;
      pausedAt := None;
      pausedReason := None;
      raised := false;
    }

    method StartInputWait(now: int, reason: string)
      modifies this
      ensures Now() == Step(old(Now()), BeginInputWait(now, reason))
    {
      activityState := AwaitingPermission;
      if !Terminal(status) && !status.Paused? {
        statusBeforeInputWait := Some(status);
        status := Paused;
        pausedAt := Some(now);
        pausedReason := Some(reason);
      }
    }

    method FinishInputWait()
      modifies this
      ensures Now() == Step(old(Now()), EndInputWait)
    {
      if status.Paused? && statusBeforeInputWait.Some? {
        status := statusBeforeInputWait.value;
        pausedAt := None;
        pausedReason := None;
      }
      statusBeforeInputWait := None;
      activityState := RunningSubprocess;
    }

    method RestoreSession() returns (raised: bool)
      modifies this
      ensures Now() == Step(old(Now()), Restore)
      ensures raised <==> !Terminal(old(status)) && !old(status).Interrupted?
    {
      if !Terminal(status) && !status.Interrupted? {
        return true;
      }
      status := Active;
      activityState := Idle;
      endedAt := None;
      raised := false;
    }
  }

  // ---- Shutdown -------------------------------------------------------------------------

  /** What `complete_all_active` does to one session. */
  function Completing(s: Session, now: int): Session {
    if Terminal(s.status) then s else Step(Step(s, Unpause(false)), Complete(now))
  }

  /** What `interrupt_all_active` does to one session. */
  function Interrupting(s: Session): Session {
    if Terminal(s.status) || s.status.Interrupted? then s else Step(s, Interrupt)
  }

  function CountUninterrupted(ss: seq<Session>): nat {
    if ss == [] then 0
    else
      CountUninterrupted(ss[..|ss| - 1])
      + if Terminal(ss[|ss| - 1].status) || ss[|ss| - 1].status.Interrupted? then 0 else 1
  }

  function CountNonTerminal(ss: seq<Session>): nat {
    if ss == [] then 0 else CountNonTerminal(ss[..|ss| - 1]) + if Terminal(ss[|ss| - 1].status) then 0 else 1
  }

  lemma CountsStep(ss: seq<Session>, i: nat)
    requires i < |ss|
    ensures CountNonTerminal(ss[..i + 1]) == CountNonTerminal(ss[..i]) + if Terminal(ss[i].status) then 0 else 1
    ensures CountUninterrupted(ss[..i + 1])
         == CountUninterrupted(ss[..i]) + if Terminal(ss[i].status) || ss[i].status.Interrupted? then 0 else 1
  {
    assert ss[..i + 1][..i] == ss[..i];
  }

  class SessionManager {
    var sessions: seq<ActiveSession>

    ghost function Snapshot(): (r: seq<Session>)
      reads this, sessions
      ensures |r| == |sessions|
    {
      seq(|sessions|, i requires 0 <= i < |sessions| reads this, sessions => sessions[i].Now())
    }

    constructor (sessions: seq<ActiveSession>)
      ensures this.sessions == sessions
    {
      this.sessions := sessions;
    }

    static method CompleteOne(session: ActiveSession, now: int) returns (moved: bool)
      modifies session
      ensures session.Now() == Completing(old(session.Now()), now)
      ensures moved == !Terminal(old(session.status))
    {
      moved := !Terminal(session.status);
      if moved {
        if session.status.Paused? {
          session.status := Active;
        }
        session.CompleteSession(now);
      }
    }

    /** Completes every session that has not ended, the paused ones too. */
    method CompleteAllActive(now: int) returns (count: nat)
      requires Distinct(sessions)
      modifies sessions
      ensures |Snapshot()| == |old(Snapshot())|
      ensures forall i :: 0 <= i < |sessions| ==> Snapshot()[i] == Completing(old(Snapshot())[i], now)
      ensures count == CountNonTerminal(old(Snapshot()))
    {
      count := 0;
      ghost var before := Snapshot();
      for i := 0 to |sessions|
        invariant forall k :: 0 <= k < |sessions| ==>
          sessions[k].Now() == if k < i then Completing(before[k], now) else before[k]
        invariant count == CountNonTerminal(before[..i])
      {
        var session := sessions[i];
        CountsStep(before, i);
        hide Completing, CountNonTerminal, Terminal;
        var moved := CompleteOne(session, now);
        forall k | 0 <= k < |sessions|
          ensures sessions[k].Now() == if k <= i then Completing(before[k], now) else before[k]
        {
          assert k != i ==> sessions[k] != session;
        }
        if moved {
          count := count + 1;
        }
      }
      assert before[..|sessions|] == before;
    }

    static method InterruptOne(session: ActiveSession) returns (moved: bool)
      modifies session
      ensures session.Now() == Interrupting(old(session.Now()))
      ensures moved == (!Terminal(old(session.status)) && !old(session.status).Interrupted?)
    {
      moved := !Terminal(session.status) && !session.status.Interrupted?;
      if moved {
        session.InterruptSession();
      }
    }

    /** Marks and counts every session that has neither ended nor been interrupted already. */
    method InterruptAllActive() returns (count: nat)
      requires Distinct(sessions)
      modifies sessions
      ensures |Snapshot()| == |old(Snapshot())|
      ensures forall i :: 0 <= i < |sessions| ==> Snapshot()[i] == Interrupting(old(Snapshot())[i])
      ensures count == CountUninterrupted(old(Snapshot()))
    {
      count := 0;
      ghost var before := Snapshot();
      for i := 0 to |sessions|
        invariant forall k :: 0 <= k < |sessions| ==>
          sessions[k].Now() == if k < i then Interrupting(before[k]) else before[k]
        invariant count == CountUninterrupted(before[..i])
      {
        var session := sessions[i];
        CountsStep(before, i);
        hide Interrupting, CountUninterrupted, Terminal;
        var moved := InterruptOne(session);
        forall k | 0 <= k < |sessions|
          ensures sessions[k].Now() == if k <= i then Interrupting(before[k]) else before[k]
        {
          assert k != i ==> sessions[k] != session;
        }
        if moved {
          count := count + 1;
        }
      }
      assert before[..|sessions|] == before;
    }
  }

  /**
   * After completing all, every session has ended and nobody listens; after interrupting
   * all, every session is ended or restorable, and none was ended or closed by it.
   */
  lemma ShutdownMeans(s: Session, now: int)
    requires Inv(s)
    ensures if Terminal(s.status) then Completing(s, now) == s
            else
              var t := Completing(s, now);
              t.status == Completed && t.endedAt == Some(now) && t.pausedAt == s.pausedAt
    ensures Terminal(s.status) || s.status.Interrupted? ==> Interrupting(s) == s
    ensures Inv(Completing(s, now)) && Terminal(Completing(s, now).status)
    ensures Completing(s, now).buffer.closed && Completing(s, now).buffer.live == map[]
    ensures Inv(Interrupting(s)) && !Raises(Interrupting(s), Restore)
    ensures Interrupting(s).endedAt == s.endedAt && Interrupting(s).buffer == s.buffer
    ensures Interrupting(s).status.Interrupted? && s.status.Paused? ==> Interrupting(s).flags.wasPausedBeforeRestart
    ensures !Terminal(s.status) && !s.status.Interrupted? ==>
      Interrupting(s).flags.restartInterrupted && Interrupting(s).activity == Idle
  {
    StepKeepsInv(s, Unpause(false));
    StepKeepsInv(Step(s, Unpause(false)), Complete(now));
    StepKeepsInv(s, Interrupt);
  }

  /** Ending a paused session on purpose lifts the pause first, and with it the time of the pause. */
  lemma PausedSessionIsEnded(s: Session, now: int)
    requires s.status.Paused?
    ensures
      var t := Run(s, [Unpause(true), Complete(now)]);
      t.status == Completed && t.endedAt == Some(now) && t.pausedAt.None? && t.activity == Idle && t.flags == s.flags
  {
    var ops := [Unpause(true), Complete(now)];
    assert ops[1..] == [Complete(now)] && ops[1..][1..] == [];
    var u := Step(s, Unpause(true));
    assert Run(u, ops[1..]) == Run(Step(u, Complete(now)), []);
  }

  function NotEnded(ss: seq<Session>): set<int> {
    set i | 0 <= i < |ss| && !Terminal(ss[i].status)
  }

  function NotEndedOrInterrupted(ss: seq<Session>): set<int> {
    set i | 0 <= i < |ss| && !Terminal(ss[i].status) && !ss[i].status.Interrupted?
  }

  lemma OneMoreSession(ss: seq<Session>, n: nat)
    requires |ss| == n + 1
    ensures NotEnded(ss) == NotEnded(ss[..n]) + if Terminal(ss[n].status) then {} else {n}
    ensures NotEndedOrInterrupted(ss)
         == NotEndedOrInterrupted(ss[..n]) + if Terminal(ss[n].status) || ss[n].status.Interrupted? then {} else {n}
    ensures n !in NotEnded(ss[..n]) && n !in NotEndedOrInterrupted(ss[..n])
  {
    hide Terminal;
  }

  /** The counts that a shutdown reports are the numbers of sessions it moves. */
  lemma {:induction false} CountsMean(ss: seq<Session>)
    ensures CountNonTerminal(ss) == |NotEnded(ss)|
    ensures CountUninterrupted(ss) == |NotEndedOrInterrupted(ss)|
  {
    hide Terminal;
    if ss == [] {
      assert NotEnded(ss) == {} && NotEndedOrInterrupted(ss) == {};
    } else {
      CountsMean(ss[..|ss| - 1]);
      OneMoreSession(ss, |ss| - 1);
      hide NotEnded, NotEndedOrInterrupted;
    }
  }
}
