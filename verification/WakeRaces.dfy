// One scheduled wake, its timer firing while requests to cancel it are under way.
module WakeRaces {
  // src/core/prompt_router.py, src/core/wakeup_store.py and src/api/routes/sessions.py.

  /**
   * The timer's task sleeps, waits for the store to mark the wake fired, hands the prompt
   * over, or has ended.
   */
  datatype TimerPhase = Asleep | Marking | Delivering | Ended

  /**
   * A cancel request: the row write is under way, committed, or the cancellation is
   * announced while the timer is still to be stopped. Only requests for all of a
   * session's wakes go through the last phase; one for a single wake stops the timer at once.
   */
  datatype Progress = Writing | Committed | Announced

  datatype Request = Request(all: bool, progress: Progress)

  /** `saidFired` and `saidCancelled` count the events sent to the session's clients. */
  datatype State = State(
    firedAt: bool,
    cancelledAt: bool,
    mirrored: bool,
    timer: TimerPhase,
    stopRequested: bool,
    requests: map<nat, Request>,
    saidFired: nat,
    saidCancelled: nat,
    delivered: nat)

  /** Enqueued and armed. */
  function Armed(): State {
    State(false, false, true, Asleep, false, map[], 0, 0, 0)
  }

  datatype Op =
    | Expire                       // the sleep ends and the fire callback starts
    | CommitFired                  // fired_at is written
    | MarkReturns                  // mirror, event, then the prompt is handed over
    | StopArrives                  // a requested cancellation reaches the task
    | Handled                      // the hand-over ends
    | Begin(id: nat, all: bool)
    | CommitCancelled(id: nat)     // cancelled_at is written
    | Announce(id: nat)            // mirror and event; a single request stops the timer too
    | StopTimer(id: nat)           // the request for all wakes stops their timers

  predicate Enabled(s: State, op: Op) {
    match op
    case Expire => s.timer.Asleep? && !s.stopRequested
    case CommitFired => s.timer.Marking?
    case MarkReturns => s.timer.Marking? && s.firedAt && !s.stopRequested
    case StopArrives => !s.timer.Ended? && s.stopRequested
    case Handled => s.timer.Delivering?
    case Begin(id, all) => id !in s.requests && (all ==> s.mirrored)
    case CommitCancelled(id) => id in s.requests && s.requests[id].progress.Writing?
    case Announce(id) => id in s.requests && s.requests[id].progress.Committed?
    case StopTimer(id) => id in s.requests && s.requests[id].progress.Announced?
  }

  /** Drops the wake from the mirror and emits the event, if it is still there. */
  function RemoveFired(s: State): State {
    if s.mirrored then s.(mirrored := false, saidFired := s.saidFired + 1) else s
  }

  function RemoveCancelled(s: State): State {
    if s.mirrored then s.(mirrored := false, saidCancelled := s.saidCancelled + 1) else s
  }

  function Stop(s: State): State {
    if s.timer.Ended? then s else s.(stopRequested := true)
  }

  function Step(s: State, op: Op): State {
    if !Enabled(s, op) then s
    else
      match op
      case Expire => s.(timer := Marking)
      case CommitFired => s.(firedAt := true)
      case MarkReturns => RemoveFired(s).(timer := Delivering, delivered := s.delivered + 1)
      case StopArrives => s.(timer := Ended)
      case Handled => s.(timer := Ended)
      case Begin(id, all) => s.(requests := s.requests[id := Request(all, Writing)])
      case CommitCancelled(id) => s.(cancelledAt := true, requests := s.requests[id := s.requests[id].(progress := Committed)])
      case Announce(id) =>
        if s.requests[id].all then
          RemoveCancelled(s).(requests := s.requests[id := s.requests[id].(progress := Announced)])
        else
          var removed := RemoveCancelled(s);
          (if s.mirrored then Stop(removed) else removed).(requests := s.requests - {id})
      case StopTimer(id) => Stop(s).(requests := s.requests - {id})
  }

  function Run(s: State, ops: seq<Op>): State
    decreases ops
  {
    if ops == [] then s else Step(Run(s, ops[..|ops| - 1]), ops[|ops| - 1])
  }

  // ---- The invariant -------------------------------------------------------------------

  predicate AboutToStop(r: Request) {
    r.all && r.progress.Announced?
  }

  /** The prompt can still be handed over. */
  predicate CanDeliver(s: State) {
    (s.timer.Asleep? || s.timer.Marking?) && !s.stopRequested
  }

  predicate TimerInv(s: State) {
    && (s.mirrored <==> s.saidFired + s.saidCancelled == 0)
    && s.saidFired + s.saidCancelled <= 1
    && s.delivered <= 1
    && (s.timer.Asleep? || s.timer.Marking? ==> s.delivered == 0)
    && (s.timer.Delivering? ==> s.delivered == 1)
    && (s.delivered == 1 ==> s.firedAt && !s.mirrored)
    && (s.saidFired == 1 ==> s.delivered == 1)
    && (s.mirrored ==> !s.stopRequested)
  }

  ghost predicate RequestInv(s: State) {
    && (s.saidCancelled == 1 && CanDeliver(s) ==> exists id :: id in s.requests && AboutToStop(s.requests[id]))
    && (s.saidCancelled == 1 ==> s.cancelledAt)
    && (forall id :: id in s.requests && !s.requests[id].progress.Writing? ==> s.cancelledAt)
    && (forall id :: id in s.requests && s.requests[id].progress.Announced? ==> s.requests[id].all && !s.mirrored)
  }

  ghost predicate Inv(s: State) {
    TimerInv(s) && RequestInv(s)
  }

  lemma StepKeepsTimer(s: State, op: Op)
    requires Inv(s)
    ensures TimerInv(Step(s, op))
  {
  }

  lemma StepKeepsInv(s: State, op: Op)
    requires Inv(s)
    ensures Inv(Step(s, op))
  {
    StepKeepsTimer(s, op);
    StepKeepsRequests(s, op);
  }

  lemma StepKeepsRequests(s: State, op: Op)
    requires Inv(s)
    ensures RequestInv(Step(s, op))
  {
    var s' := Step(s, op);
    if Enabled(s, op) && s'.saidCancelled == 1 && CanDeliver(s') {
      if s.mirrored {
        assert op.Announce? && AboutToStop(s'.requests[op.id]);
      } else {
        var id :| id in s.requests && AboutToStop(s.requests[id]);
        assert id in s'.requests && AboutToStop(s'.requests[id]);
      }
    }
  }

  lemma ArmedInv()
    ensures Inv(Armed()) && Exclusive(Armed())
  {
  }

  lemma {:induction false} RunKeepsInv(s: State, ops: seq<Op>)
    requires Inv(s)
    ensures Inv(Run(s, ops))
    decreases ops
  {
    if ops != [] {
      RunKeepsInv(s, ops[..|ops| - 1]);
      StepKeepsInv(Run(s, ops[..|ops| - 1]), ops[|ops| - 1]);
    }
  }

  /** One wake has one outcome. */
  predicate OneOutcome(s: State) {
    && s.saidFired + s.saidCancelled <= 1 && s.delivered <= 1
    && (s.saidFired == 1 ==> s.delivered == 1)
    && (s.mirrored ==> s.delivered == 0)
    && (s.delivered == 1 ==> s.firedAt)
    && (s.mirrored <==> s.saidFired + s.saidCancelled == 0)
  }

  ghost predicate Reachable(s: State) {
    exists ops :: s == Run(Armed(), ops)
  }

  lemma ReachableInv(s: State)
    requires Reachable(s)
    ensures Inv(s)
  {
    var ops :| s == Run(Armed(), ops);
    ArmedInv();
    RunKeepsInv(Armed(), ops);
  }

  /**
   * Under any interleaving a wake gets at most one terminal event, and it has one exactly
   * when it left the mirror; its prompt is handed over at most once, and "fired" is only
   * announced together with the hand-over.
   */
  lemma EveryRunHasOneOutcome(s: State)
    requires Reachable(s)
    ensures OneOutcome(s)
  {
    ReachableInv(s);
  }

  // ---- A cancelled wake that is delivered all the same ------------------------------------

  lemma StepKeepsStopped(s: State, op: Op)
    requires Inv(s) && !s.mirrored && !CanDeliver(s)
    ensures !Step(s, op).mirrored && !CanDeliver(Step(s, op)) && Step(s, op).delivered == s.delivered
  {
  }

  lemma {:induction false} RunKeepsStopped(s: State, ops: seq<Op>)
    requires Inv(s) && !s.mirrored && !CanDeliver(s)
    ensures !Run(s, ops).mirrored && !CanDeliver(Run(s, ops)) && Run(s, ops).delivered == s.delivered
    decreases ops
  {
    if ops != [] {
      RunKeepsStopped(s, ops[..|ops| - 1]);
      RunKeepsInv(s, ops[..|ops| - 1]);
      StepKeepsStopped(Run(s, ops[..|ops| - 1]), ops[|ops| - 1]);
    }
  }

  lemma ThreeSteps(s: State)
    requires CanDeliver(s)
    ensures Run(s, [Expire, CommitFired, MarkReturns]).delivered == s.delivered + 1
    ensures Run(s, [Expire, CommitFired, MarkReturns]).timer.Delivering?
  {
    var ops := [Expire, CommitFired, MarkReturns];
    assert ops[..2] == [Expire, CommitFired] && ops[..2][..1] == [Expire] && ops[..2][..1][..0] == [];
    assert Run(s, ops[..2][..1]) == Step(s, Expire);
    assert Run(s, ops[..2]) == Step(Step(s, Expire), CommitFired);
  }

  /** Some continuation hands the prompt over. */
  ghost predicate MayDeliver(s: State) {
    exists more :: Run(s, more).delivered == 1
  }

  ghost predicate CancellingAll(s: State) {
    exists id :: id in s.requests && AboutToStop(s.requests[id])
  }

  /**
   * After a wake was announced cancelled its prompt can still be delivered exactly when
   * its timer has not been told to stop, and then some request to cancel all of the
   * session's wakes is between announcing and stopping the timers.
   */
  lemma DeliveredAfterCancelIff(s: State)
    requires Reachable(s) && s.saidCancelled == 1 && s.delivered == 0
    ensures MayDeliver(s) <==> CanDeliver(s)
    ensures CanDeliver(s) ==> CancellingAll(s)
  {
    ReachableInv(s);
    if CanDeliver(s) {
      ThreeSteps(s);
    } else {
      forall more
        ensures Run(s, more).delivered == 0
      {
        RunKeepsStopped(s, more);
      }
    }
  }

  /** Requests for single wakes only. */
  predicate SingleOnly(ops: seq<Op>) {
    forall i :: 0 <= i < |ops| && ops[i].Begin? ==> !ops[i].all
  }

  ghost predicate Exclusive(s: State) {
    && (s.saidCancelled == 1 ==> s.delivered == 0 && !CanDeliver(s))
    && forall id :: id in s.requests ==> !s.requests[id].all
  }

  lemma ExclusiveStep(s: State, op: Op)
    requires Inv(s) && Exclusive(s) && (op.Begin? ==> !op.all)
    ensures Exclusive(Step(s, op))
  {
    if s.saidCancelled == 1 {
      StepKeepsStopped(s, op);
    }
  }

  lemma {:induction false} RunKeepsExclusive(ops: seq<Op>)
    requires SingleOnly(ops)
    ensures Exclusive(Run(Armed(), ops))
  {
    ArmedInv();
    hide Step, Exclusive, Inv;
    if ops == [] {
      ArmedInv();
    } else {
      var init := ops[..|ops| - 1];
      RunKeepsExclusive(init);
      RunKeepsInv(Armed(), init);
      assert ops[|ops| - 1].Begin? ==> !ops[|ops| - 1].all;
      ExclusiveStep(Run(Armed(), init), ops[|ops| - 1]);
    }
  }

  ghost predicate ReachableBySingles(s: State) {
    exists ops :: SingleOnly(ops) && s == Run(Armed(), ops)
  }

  /**
   * With requests for single wakes only, a wake is announced fired exactly when its
   * prompt is delivered, and never delivered once announced cancelled.
   */
  lemma SingleCancelIsExclusive(s: State, more: seq<Op>)
    requires ReachableBySingles(s)
    ensures s.saidFired == 1 <==> s.delivered == 1
    ensures s.saidCancelled == 1 ==> Run(s, more).delivered == 0
  {
    var ops :| SingleOnly(ops) && s == Run(Armed(), ops);
    ReachableInv(s);
    RunKeepsExclusive(ops);
    if s.saidCancelled == 1 {
      RunKeepsStopped(s, more);
    }
  }

  /** Cancelling all wakes as one of them expires: announced cancelled, and delivered. */
  lemma CancelAllRacesExpiry()
    ensures
      var s := Run(Armed(), [Begin(0, true), CommitCancelled(0), Announce(0), Expire, CommitFired, MarkReturns, StopTimer(0)]);
      s.saidCancelled == 1 && s.delivered == 1
  {
    var ops := [Begin(0, true), CommitCancelled(0), Announce(0), Expire, CommitFired, MarkReturns, StopTimer(0)];
    var s1 := Step(Armed(), Begin(0, true));
    var s3 := Step(Step(s1, CommitCancelled(0)), Announce(0));
    var s6 := Step(Step(Step(s3, Expire), CommitFired), MarkReturns);
    forall i | 0 <= i < |ops|
      ensures Run(Armed(), ops[..i + 1]) == Step(Run(Armed(), ops[..i]), ops[i])
    {
      assert ops[..i + 1][..i] == ops[..i];
    }
    assert Run(Armed(), ops[..1]) == s1;
    assert Run(Armed(), ops[..3]) == s3;
    assert Run(Armed(), ops[..6]) == s6;
    assert ops[..7] == ops;
  }

  // ---- Everything comes to an end ----------------------------------------------------------

  function TimerWork(s: State): nat {
    match s.timer
    case Asleep => 3
    case Marking => 2
    case Delivering => 1
    case Ended => 0
  }

  function RequestWork(s: State, id: nat): nat {
    if id !in s.requests then 0
    else
      match s.requests[id].progress
      case Writing => 3
      case Committed => 2
      case Announced => 1
  }

  /** Each step of the timer or of a request brings it nearer its end; nothing but a new request sets anything back. */
  lemma EveryStepAdvances(s: State, op: Op, id: nat)
    requires Enabled(s, op)
    ensures
      var t := Step(s, op);
      && (if op.Expire? || op.MarkReturns? || op.StopArrives? || op.Handled? then TimerWork(t) < TimerWork(s)
          else TimerWork(t) == TimerWork(s))
      && (if (op.CommitCancelled? || op.Announce? || op.StopTimer?) && op.id == id then RequestWork(t, id) < RequestWork(s, id)
          else op.Begin? || RequestWork(t, id) == RequestWork(s, id))
      && (op == CommitFired ==> t.firedAt)
  {
  }

  predicate EndedForAReason(s: State) {
    s.timer.Ended? ==> s.delivered == 1 || s.stopRequested
  }

  lemma {:induction false} RunEndsForAReason(ops: seq<Op>)
    ensures Inv(Run(Armed(), ops)) && EndedForAReason(Run(Armed(), ops))
  {
    hide Inv, Step;
    ArmedInv();
    if ops != [] {
      var init, last := ops[..|ops| - 1], ops[|ops| - 1];
      RunEndsForAReason(init);
      StepKeepsInv(Run(Armed(), init), last);
      StepEndsForAReason(Run(Armed(), init), last);
      hide EndedForAReason;
    }
  }

  lemma StepEndsForAReason(s: State, op: Op)
    requires Inv(s) && EndedForAReason(s)
    ensures EndedForAReason(Step(s, op))
  {
    hide RequestInv;
  }

  /** Nothing is left to do: new requests, and writing again that the wake fired, aside. */
  ghost predicate Over(s: State) {
    forall op :: Enabled(s, op) ==> op.Begin? || (op.CommitFired? && s.firedAt)
  }

  /**
   * Once nothing is left to do, in any run, the timer and all requests have ended, the wake
   * has left the mirror and was announced fired or cancelled, just one of the two; and if
   * it was not announced cancelled, its prompt was handed over.
   */
  lemma OverMeansDecided(s: State)
    requires Reachable(s) && Over(s)
    ensures s.timer.Ended? && s.requests == map[] && !s.mirrored
    ensures s.saidFired + s.saidCancelled == 1 && (s.saidCancelled == 1 || s.delivered == 1)
  {
    hide Run, RequestInv, Over;
    var ops :| s == Run(Armed(), ops);
    RunEndsForAReason(ops);
    TimerGoesOn(s);
    forall id
      ensures id !in s.requests
    {
      RequestGoesOn(s, id);
    }
  }

  lemma TimerGoesOn(s: State)
    requires Over(s)
    ensures s.timer.Ended?
  {
    assert !Enabled(s, Expire) && !Enabled(s, StopArrives) && !Enabled(s, Handled) && !Enabled(s, MarkReturns);
    assert s.timer.Marking? && !s.firedAt ==> Enabled(s, CommitFired);
  }

  lemma RequestGoesOn(s: State, id: nat)
    requires Over(s)
    ensures id !in s.requests
  {
    assert !Enabled(s, CommitCancelled(id)) && !Enabled(s, Announce(id)) && !Enabled(s, StopTimer(id));
  }

  /** With requests for single wakes only, a timer is told to stop only once its wake was announced cancelled. */
  lemma {:induction false} StoppedOnlyWhenCancelled(ops: seq<Op>)
    requires SingleOnly(ops)
    ensures Run(Armed(), ops).stopRequested ==> Run(Armed(), ops).saidCancelled == 1
  {
    if ops != [] {
      var init, last := ops[..|ops| - 1], ops[|ops| - 1];
      StoppedOnlyWhenCancelled(init);
      RunKeepsExclusive(init);
      ArmedInv();
      RunKeepsInv(Armed(), init);
      assert last.Begin? ==> !last.all;
      StopStep(Run(Armed(), init), last);
      hide Run, Inv, Exclusive, Step;
    }
  }

  lemma StopStep(s: State, op: Op)
    requires Inv(s) && Exclusive(s) && (s.stopRequested ==> s.saidCancelled == 1)
    ensures Step(s, op).stopRequested ==> Step(s, op).saidCancelled == 1
  {
  }
}
