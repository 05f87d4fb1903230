// src/core/wakeup_scheduler.py: the timer registry and its tasks.
module WakeTimers {
  // A step system over every order in which arming, cancelling, expiry and completion
  // callbacks can happen.

  import opened Collections

  /** A task sleeps (not yet resumed after its delay), runs the fire callback, or is done. */
  datatype Phase = Sleeping | Firing | Done

  datatype Timer = Timer(wake: string, phase: Phase, cancelRequested: bool)

  /**
   * `timers` are all tasks ever created, by creation order; `tasks` is the registry;
   * `callbacks` are done-callbacks the event loop has yet to run; `fires` logs the tasks
   * that entered the fire callback.
   */
  datatype State = State(timers: seq<Timer>, tasks: map<string, nat>, callbacks: set<nat>, fires: seq<nat>)

  datatype Op =
    | Arm(wake: string)
    | Cancel(wake: string)
    | Expire(t: nat)
    | DeliverCancel(t: nat)
    | FinishFire(t: nat)
    | Cleanup(t: nat)

  const NO_TIMERS := State([], map[], {}, [])

  predicate Enabled(s: State, op: Op) {
    match op
    case Arm(_) => true
    case Cancel(_) => true
    case Expire(t) => t < |s.timers| && s.timers[t].phase.Sleeping? && !s.timers[t].cancelRequested
    case DeliverCancel(t) => t < |s.timers| && s.timers[t].phase.Sleeping? && s.timers[t].cancelRequested
    case FinishFire(t) => t < |s.timers| && s.timers[t].phase.Firing?
    case Cleanup(t) => t in s.callbacks && t < |s.timers|
  }

  /** `task.cancel()` unless the task is done. */
  function RequestCancel(timers: seq<Timer>, t: nat): (r: seq<Timer>)
    ensures |r| == |timers|
  {
    if t < |timers| && !timers[t].phase.Done? then timers[t := timers[t].(cancelRequested := true)] else timers
  }

  /** Cancels the registered timer of a wake, if there is one. */
  function CancelRegistered(s: State, wake: string): (r: seq<Timer>)
    ensures |r| == |s.timers|
  {
    if wake in s.tasks then RequestCancel(s.timers, s.tasks[wake]) else s.timers
  }

  function Step(s: State, op: Op): State {
    if !Enabled(s, op) then s
    else
      match op
      case Arm(wake) =>
        s.(timers := CancelRegistered(s, wake) + [Timer(wake, Sleeping, false)], tasks := s.tasks[wake := |s.timers|])
      case Cancel(wake) =>
        s.(timers := CancelRegistered(s, wake), tasks := s.tasks - {wake})
      case Expire(t) =>
        s.(timers := s.timers[t := s.timers[t].(phase := Firing)], fires := s.fires + [t])
      case DeliverCancel(t) =>
        s.(timers := s.timers[t := s.timers[t].(phase := Done)], callbacks := s.callbacks + {t})
      case FinishFire(t) =>
        s.(timers := s.timers[t := s.timers[t].(phase := Done)], callbacks := s.callbacks + {t})
      case Cleanup(t) =>
        var wake := s.timers[t].wake;
        s.(callbacks := s.callbacks - {t},
           tasks := if wake in s.tasks && s.tasks[wake] == t then s.tasks - {wake} else s.tasks)
  }

  function Run(s: State, ops: seq<Op>): State
    decreases ops
  {
    if ops == [] then s else Step(Run(s, ops[..|ops| - 1]), ops[|ops| - 1])
  }

  // ---- The invariant -------------------------------------------------------------------

  predicate Live(x: Timer) {
    !x.phase.Done? && !x.cancelRequested
  }

  predicate Registered(s: State, t: nat)
    requires t < |s.timers|
  {
    s.timers[t].wake in s.tasks && s.tasks[s.timers[t].wake] == t
  }

  ghost predicate Inv(s: State) {
    // every unfinished timer without a cancel request is the registered one
    && (forall t: nat :: t < |s.timers| && Live(s.timers[t]) ==> Registered(s, t))
    && (forall w :: w in s.tasks ==> s.tasks[w] < |s.timers| && s.timers[s.tasks[w]].wake == w
                                     && !s.timers[s.tasks[w]].cancelRequested)
    // a registered timer that is done is about to be cleaned up
    && (forall t: nat :: t < |s.timers| && s.timers[t].phase.Done? && Registered(s, t) ==> t in s.callbacks)
    && (forall t :: t in s.callbacks ==> t < |s.timers| && s.timers[t].phase.Done?)
    // the log: each timer at most once, and all that left their sleep uncancelled
    && Distinct(s.fires)
    && (forall t :: t in s.fires ==> t < |s.timers| && !s.timers[t].phase.Sleeping?)
    && (forall t: nat :: t < |s.timers| && !s.timers[t].phase.Sleeping? && t !in s.fires ==> s.timers[t].cancelRequested)
  }

  lemma CancelKeepsInv(s: State, wake: string)
    requires Inv(s)
    ensures Inv(s.(timers := CancelRegistered(s, wake), tasks := s.tasks - {wake}))
  {
  }

  lemma ArmKeepsInv(s: State, wake: string)
    requires Inv(s) && wake !in s.tasks
    ensures Inv(s.(timers := s.timers + [Timer(wake, Sleeping, false)], tasks := s.tasks[wake := |s.timers|]))
  {
  }

  lemma ExpireKeepsInv(s: State, t: nat)
    requires Inv(s) && Enabled(s, Expire(t))
    ensures Inv(Step(s, Expire(t)))
  {
    assert t !in s.fires;
  }

  lemma FinishKeepsInv(s: State, t: nat)
    requires Inv(s) && t < |s.timers|
    requires s.timers[t].phase.Firing? || (s.timers[t].phase.Sleeping? && s.timers[t].cancelRequested)
    ensures Inv(s.(timers := s.timers[t := s.timers[t].(phase := Done)], callbacks := s.callbacks + {t}))
  {
  }

  lemma CleanupKeepsInv(s: State, t: nat)
    requires Inv(s) && Enabled(s, Cleanup(t))
    ensures Inv(Step(s, Cleanup(t)))
  {
  }

  /** Arming is cancelling, then registering a fresh timer. */
  lemma ArmIsCancelThenRegister(s: State, wake: string)
    ensures
      var c := Step(s, Cancel(wake));
      Step(s, Arm(wake)) == c.(timers := c.timers + [Timer(wake, Sleeping, false)], tasks := c.tasks[wake := |c.timers|])
  {
    assert (s.tasks - {wake})[wake := |s.timers|] == s.tasks[wake := |s.timers|];
  }

  lemma StepKeepsInv(s: State, op: Op)
    requires Inv(s)
    ensures Inv(Step(s, op))
  {
    if Enabled(s, op) {
      match op
      case Arm(wake) =>
        CancelKeepsInv(s, wake);
        ArmKeepsInv(Step(s, Cancel(wake)), wake);
        ArmIsCancelThenRegister(s, wake);
      case Cancel(wake) => CancelKeepsInv(s, wake);
      case Expire(t) => ExpireKeepsInv(s, t);
      case DeliverCancel(t) => FinishKeepsInv(s, t);
      case FinishFire(t) => FinishKeepsInv(s, t);
      case Cleanup(t) => CleanupKeepsInv(s, t);
    }
  }

  lemma {:induction false} RunKeepsInv(s: State, ops: seq<Op>)
    requires Inv(s)
    ensures Inv(Run(s, ops))
    decreases ops
  {
    if ops != [] {
      RunKeepsInv(s, ops[..|ops| - 1]);
      StepKeepsInv(Run(s, ops[..|ops| - 1]), ops[|ops| - 1]);
    }
  }

  /**
   * In every reachable state at most one timer of a wake is live, it is the one `cancel`
   * finds, and exactly the registered sleeping timer can fire; no timer fires twice.
   */
  lemma TimersAreRegistered(ops: seq<Op>, t: nat, u: nat)
    requires t < |Run(NO_TIMERS, ops).timers| && u < |Run(NO_TIMERS, ops).timers|
    ensures
      var s := Run(NO_TIMERS, ops);
      && (Live(s.timers[t]) && Live(s.timers[u]) && s.timers[t].wake == s.timers[u].wake ==> t == u)
      && (Live(s.timers[t]) ==> Step(s, Cancel(s.timers[t].wake)).timers[t].cancelRequested)
      && (Enabled(s, Expire(t)) <==> Registered(s, t) && t !in s.fires)
      && Distinct(s.fires)
  {
    RunKeepsInv(NO_TIMERS, ops);
  }

  // ---- A timer cancelled or replaced before it expires never fires --------------------------

  predicate Dead(s: State, t: nat) {
    t < |s.timers| && t !in s.fires && s.timers[t].cancelRequested
  }

  lemma StepKeepsDead(s: State, op: Op, t: nat)
    requires Dead(s, t)
    ensures Dead(Step(s, op), t)
  {
  }

  lemma {:induction false} RunKeepsDead(s: State, ops: seq<Op>, t: nat)
    requires Dead(s, t)
    ensures Dead(Run(s, ops), t)
    decreases ops
  {
    if ops != [] {
      RunKeepsDead(s, ops[..|ops| - 1], t);
      StepKeepsDead(Run(s, ops[..|ops| - 1]), ops[|ops| - 1], t);
    }
  }

  /** Cancelling or re-arming a wake silences all its timers that have not fired, whatever follows. */
  lemma SilencedNeverFires(before: seq<Op>, op: Op, after: seq<Op>, t: nat)
    requires op.Cancel? || op.Arm?
    requires t < |Run(NO_TIMERS, before).timers| && Run(NO_TIMERS, before).timers[t].wake == op.wake
    requires t !in Run(NO_TIMERS, before).fires
    ensures t !in Run(Step(Run(NO_TIMERS, before), op), after).fires
  {
    var s := Run(NO_TIMERS, before);
    RunKeepsInv(NO_TIMERS, before);
    hide Run;
    assert Dead(Step(s, op), t);
    RunKeepsDead(Step(s, op), after, t);
  }

  // ---- The registry implements an alarm table ----------------------------------------------

  /** What callers believe they use: at most one pending alarm per wake. */
  datatype Alarms = Alarms(armed: map<string, nat>, next: nat, fires: seq<nat>)

  function AlarmStep(a: Alarms, op: Op): Alarms {
    match op
    case Arm(wake) => a.(armed := a.armed[wake := a.next], next := a.next + 1)
    case Cancel(wake) => a.(armed := a.armed - {wake})
    case Expire(t) =>
      if exists w :: w in a.armed && a.armed[w] == t
      then a.(armed := map w | w in a.armed && a.armed[w] != t :: a.armed[w], fires := a.fires + [t])
      else a
    case DeliverCancel(_) => a
    case FinishFire(_) => a
    case Cleanup(_) => a
  }

  function AlarmRun(ops: seq<Op>): Alarms {
    if ops == [] then Alarms(map[], 0, []) else AlarmStep(AlarmRun(ops[..|ops| - 1]), ops[|ops| - 1])
  }

  predicate Pending(s: State, w: string) {
    w in s.tasks && s.tasks[w] < |s.timers| && s.timers[s.tasks[w]].phase.Sleeping?
  }

  function AsAlarms(s: State): Alarms {
    Alarms(map w | w in s.tasks && Pending(s, w) :: s.tasks[w], |s.timers|, s.fires)
  }

  lemma ArmImplements(s: State, wake: string)
    requires Inv(s)
    ensures AsAlarms(Step(s, Op.Arm(wake))).armed == AsAlarms(s).armed[wake := |s.timers|]
  {
  }

  lemma CancelImplements(s: State, wake: string)
    requires Inv(s)
    ensures AsAlarms(Step(s, Op.Cancel(wake))).armed == AsAlarms(s).armed - {wake}
  {
  }

  lemma FinishImplements(s: State, op: Op)
    requires Inv(s) && (op.DeliverCancel? || op.FinishFire? || op.Cleanup?)
    ensures AsAlarms(Step(s, op)).armed == AsAlarms(s).armed
  {
  }

  lemma StepImplements(s: State, op: Op)
    requires Inv(s)
    ensures AsAlarms(Step(s, op)) == AlarmStep(AsAlarms(s), op)
  {
    match op
    case Arm(wake) => ArmImplements(s, wake);
    case Cancel(wake) => CancelImplements(s, wake);
    case Expire(t) => ExpireImplements(s, t);
    case _ => FinishImplements(s, op);
  }

  lemma ExpireImplements(s: State, t: nat)
    requires Inv(s)
    ensures AsAlarms(Step(s, Expire(t))) == AlarmStep(AsAlarms(s), Expire(t))
  {
    var a := AsAlarms(s);
    if Enabled(s, Expire(t)) {
      var w := s.timers[t].wake;
      assert Registered(s, t) && Pending(s, w);
      assert w in a.armed && a.armed[w] == t;
      assert AsAlarms(Step(s, Expire(t))).armed == map w | w in a.armed && a.armed[w] != t :: a.armed[w];
    } else {
      assert forall w :: w in a.armed ==> a.armed[w] != t;
    }
  }

  /**
   * Under every interleaving the timers that fire, in order, and the pending alarms are
   * those of the alarm table: late cancellations, completions and callbacks are invisible.
   */
  lemma {:induction false} SchedulerImplementsAlarms(ops: seq<Op>)
    ensures AsAlarms(Run(NO_TIMERS, ops)) == AlarmRun(ops)
  {
    if ops == [] {
      assert AsAlarms(NO_TIMERS).armed == map[];
    } else {
      SchedulerImplementsAlarms(ops[..|ops| - 1]);
      RunKeepsInv(NO_TIMERS, ops[..|ops| - 1]);
      StepImplements(Run(NO_TIMERS, ops[..|ops| - 1]), ops[|ops| - 1]);
    }
  }

  // ---- Every timer comes to an end ------------------------------------------------------------

  function PhaseWork(x: Timer): nat {
    match x.phase
    case Sleeping => 3
    case Firing => 2
    case Done => 0
  }

  function TimersWork(timers: seq<Timer>): nat {
    if timers == [] then 0 else TimersWork(timers[..|timers| - 1]) + PhaseWork(timers[|timers| - 1])
  }

  /** How many steps the event loop can still take at most. */
  function Work(s: State): nat {
    TimersWork(s.timers) + |s.callbacks|
  }

  /** A step of the event loop, as opposed to a call. */
  predicate Effective(s: State, op: Op) {
    Enabled(s, op) && !op.Arm? && !op.Cancel?
  }

  lemma {:induction false} TimersWorkAt(timers: seq<Timer>, t: nat, x: Timer)
    requires t < |timers|
    ensures TimersWork(timers[t := x]) + PhaseWork(timers[t]) == TimersWork(timers) + PhaseWork(x)
  {
    hide PhaseWork;
    var n := |timers| - 1;
    if t == n {
      assert timers[t := x][..n] == timers[..n];
    } else {
      TimersWorkAt(timers[..n], t, x);
      assert timers[t := x][..n] == timers[..n][t := x];
    }
  }

  lemma CancelKeepsWork(s: State, wake: string)
    ensures TimersWork(CancelRegistered(s, wake)) == TimersWork(s.timers)
  {
    hide TimersWork;
    if wake in s.tasks && s.tasks[wake] < |s.timers| {
      var t := s.tasks[wake];
      TimersWorkAt(s.timers, t, s.timers[t].(cancelRequested := true));
    }
  }

  lemma StepWorks(s: State, op: Op)
    requires Inv(s)
    ensures Work(Step(s, op)) + (if Effective(s, op) then 1 else 0) <= Work(s) + if op.Arm? then 3 else 0
  {
    match op
    case Arm(wake) =>
      CancelKeepsWork(s, wake);
      var timers := CancelRegistered(s, wake);
      assert (timers + [Timer(wake, Sleeping, false)])[..|timers|] == timers;
    case Cancel(wake) => CancelKeepsWork(s, wake);
    case Expire(t) =>
      if Enabled(s, op) {
        TimersWorkAt(s.timers, t, s.timers[t].(phase := Firing));
      }
    case DeliverCancel(t) =>
      if Enabled(s, op) {
        TimersWorkAt(s.timers, t, s.timers[t].(phase := Done));
      }
    case FinishFire(t) =>
      if Enabled(s, op) {
        TimersWorkAt(s.timers, t, s.timers[t].(phase := Done));
      }
    case Cleanup(_) =>
  }

  function EffectiveSteps(ops: seq<Op>): nat {
    if ops == [] then 0
    else
      var init, last := ops[..|ops| - 1], ops[|ops| - 1];
      EffectiveSteps(init) + if Effective(Run(NO_TIMERS, init), last) then 1 else 0
  }

  function Arms(ops: seq<Op>): nat {
    if ops == [] then 0 else Arms(ops[..|ops| - 1]) + if ops[|ops| - 1].Arm? then 1 else 0
  }

  lemma {:induction false} StepsAreBounded(ops: seq<Op>)
    ensures EffectiveSteps(ops) + Work(Run(NO_TIMERS, ops)) <= 3 * Arms(ops)
  {
    if ops != [] {
      var init, last := ops[..|ops| - 1], ops[|ops| - 1];
      StepsAreBounded(init);
      RunKeepsInv(NO_TIMERS, init);
      StepWorks(Run(NO_TIMERS, init), last);
      hide Work, Step, Effective;
    }
  }

  /**
   * In every run the event loop takes at most three steps for each timer armed; and when it
   * can take none, every timer is done and the registry is empty: nothing leaks.
   */
  lemma TimersWindDown(ops: seq<Op>)
    ensures EffectiveSteps(ops) <= 3 * Arms(ops)
    ensures
      var s := Run(NO_TIMERS, ops);
      (forall op :: !Effective(s, op)) ==>
        s.tasks == map[] && s.callbacks == {} && forall t :: 0 <= t < |s.timers| ==> s.timers[t].phase.Done?
  {
    StepsAreBounded(ops);
    RunKeepsInv(NO_TIMERS, ops);
    var s := Run(NO_TIMERS, ops);
    hide Run;
    if forall op :: !Effective(s, op) {
      QuietIsClean(s);
    }
  }

  lemma QuietIsClean(s: State)
    requires Inv(s) && forall op :: !Effective(s, op)
    ensures s.tasks == map[] && s.callbacks == {} && forall t :: 0 <= t < |s.timers| ==> s.timers[t].phase.Done?
  {
    forall t | 0 <= t < |s.timers|
      ensures s.timers[t].phase.Done? && t !in s.callbacks
    {
      assert !Effective(s, Expire(t)) && !Effective(s, DeliverCancel(t)) && !Effective(s, FinishFire(t)) && !Effective(s, Cleanup(t));
    }
    forall w | w in s.tasks
      ensures false
    {
      assert Registered(s, s.tasks[w]);
    }
  }

  // ---- The class -----------------------------------------------------------------------

  /** The registry together with the event loop's view of the tasks it created. */
  class WakeupScheduler {
    var tasks: map<string, nat>
    var timers: seq<Timer>
    var callbacks: set<nat>
    ghost var fires: seq<nat>

    ghost function Now(): State
      reads this
    {
      State(timers, tasks, callbacks, fires)
    }

    ghost predicate Valid()
      reads this
    {
      Inv(Now())
    }

    constructor ()
      ensures Now() == NO_TIMERS && Valid()
    {
      tasks, timers, callbacks, fires := map[], [], {}, [];
    }

    method Arm(wake: string)
      requires Valid()
      modifies this
      ensures Now() == Step(old(Now()), Op.Arm(wake)) && Valid()
    {
      StepKeepsInv(Now(), Op.Arm(wake));
      assert wake in tasks ==> tasks[wake] < |timers|;
      hide Inv;
      var task := |timers|;
      if wake in tasks {
        var existing := tasks[wake];
        tasks := tasks - {wake};
        if !timers[existing].phase.Done? {
          timers := timers[existing := timers[existing].(cancelRequested := true)];
        }
      }
      timers := timers + [Timer(wake, Sleeping, false)];
      tasks := tasks[wake := task];
      assert tasks == old(tasks)[wake := task];
    }

    method Cancel(wake: string)
      requires Valid()
      modifies this
      ensures Now() == Step(old(Now()), Op.Cancel(wake)) && Valid()
      ensures tasks == old(tasks) - {wake}
    {
      StepKeepsInv(Now(), Op.Cancel(wake));
      if wake in tasks {
        var task := tasks[wake];
        tasks := tasks - {wake};
        if !timers[task].phase.Done? {
          timers := timers[task := timers[task].(cancelRequested := true)];
        }
      } else {
        assert tasks - {wake} == tasks;
      }
    }

    method CancelAllForSession(wakeIds: seq<string>)
      requires Valid()
      modifies this
      ensures Now() == CancelAll(old(Now()), wakeIds) && Valid()
      ensures forall w :: w in wakeIds ==> w !in tasks
    {
      hide Valid, Step, CancelAll;
      CancelNone(Now());
      assert wakeIds[..0] == [];
      for i := 0 to |wakeIds|
        invariant Valid() && Now() == CancelAll(old(Now()), wakeIds[..i])
        invariant forall k :: 0 <= k < i ==> wakeIds[k] !in tasks
      {
        Cancel(wakeIds[i]);
        CancelOneMore(old(Now()), wakeIds, i);
      }
      assert wakeIds[..|wakeIds|] == wakeIds;
    }

    /** The sleep ends: a pending cancellation is delivered there, otherwise the callback starts. */
    method ResumeFromSleep(t: nat) returns (fired: bool)
      requires Valid() && t < |timers| && timers[t].phase.Sleeping?
      modifies this
      ensures fired == !old(timers[t].cancelRequested)
      ensures Now() == Step(old(Now()), if fired then Expire(t) else DeliverCancel(t)) && Valid()
    {
      StepKeepsInv(Now(), if timers[t].cancelRequested then DeliverCancel(t) else Expire(t));
      if timers[t].cancelRequested {
        timers := timers[t := timers[t].(phase := Done)];
        callbacks := callbacks + {t};
        return false;
      }
      timers := timers[t := timers[t].(phase := Firing)];
      fires := fires + [t];
      fired := true;
    }

    /** The fire callback returned, raised or was cancelled: the task is done either way. */
    method FinishFiring(t: nat)
      requires Valid() && t < |timers| && timers[t].phase.Firing?
      modifies this
      ensures Now() == Step(old(Now()), FinishFire(t)) && Valid()
    {
      StepKeepsInv(Now(), FinishFire(t));
      timers := timers[t := timers[t].(phase := Done)];
      callbacks := callbacks + {t};
    }

    /** The done-callback, with its identity check. */
    method RunCleanup(t: nat)
      requires Valid() && t in callbacks
      modifies this
      ensures Now() == Step(old(Now()), Cleanup(t)) && Valid()
    {
      StepKeepsInv(Now(), Cleanup(t));
      callbacks := callbacks - {t};
      var wake := timers[t].wake;
      if wake in tasks && tasks[wake] == t {
        tasks := tasks - {wake};
      }
    }
  }

  function CancelAll(s: State, wakes: seq<string>): State {
    if wakes == [] then s else Step(CancelAll(s, wakes[..|wakes| - 1]), Op.Cancel(wakes[|wakes| - 1]))
  }

  lemma CancelNone(s: State)
    ensures CancelAll(s, []) == s
  {
  }

  lemma CancelOneMore(s: State, wakes: seq<string>, i: nat)
    requires i < |wakes|
    ensures CancelAll(s, wakes[..i + 1]) == Step(CancelAll(s, wakes[..i]), Op.Cancel(wakes[i]))
  {
    assert wakes[..i + 1][..i] == wakes[..i];
  }

  /** A bulk cancel is a run of single cancels. */
  lemma {:induction false} CancelAllIsRun(s: State, wakes: seq<string>)
    ensures CancelAll(s, wakes) == Run(s, Map(wakes, CancelOf))
  {
    if wakes != [] {
      var init := wakes[..|wakes| - 1];
      CancelAllIsRun(s, init);
      assert Map(wakes, CancelOf)[..|wakes| - 1] == Map(init, CancelOf);
    }
  }

  function CancelOf(wake: string): Op {
    Op.Cancel(wake)
  }

  // ---- Why the callback compares identities -------------------------------------------------

  /** A cleanup that removes whatever is registered under the wake. */
  function CarelessCleanup(s: State, t: nat): State
    requires t < |s.timers|
  {
    s.(callbacks := s.callbacks - {t}, tasks := s.tasks - {s.timers[t].wake})
  }

  /**
   * The identity check is needed exactly when the callback's timer is not the registered
   * one: otherwise the two cleanups agree; there the careless one loses a registration,
   * of a live timer if that timer is still unfinished.
   */
  lemma IdentityCheckNeededIff(s: State, t: nat)
    requires Inv(s) && t in s.callbacks
    ensures
      var wake := s.timers[t].wake;
      && (CarelessCleanup(s, t) == Step(s, Cleanup(t)) <==> (wake in s.tasks ==> s.tasks[wake] == t))
      && (Inv(CarelessCleanup(s, t)) <==>
            (wake in s.tasks && s.tasks[wake] != t ==> s.timers[s.tasks[wake]].phase.Done?))
  {
    var wake := s.timers[t].wake;
    var c := CarelessCleanup(s, t);
    if wake !in s.tasks {
      assert s.tasks - {wake} == s.tasks;
    } else if s.tasks[wake] != t {
      assert wake !in c.tasks && wake in Step(s, Cleanup(t)).tasks;
      var u := s.tasks[wake];
      if !s.timers[u].phase.Done? {
        assert Live(c.timers[u]) && !Registered(c, u);
      }
    }
  }
}
