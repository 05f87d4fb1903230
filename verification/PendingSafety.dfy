// The queued-message protocol: the guard allows one drain loop, and what drained
// messages have left of their attachments.
module PendingSafety {
  import opened Collections
  import opened PendingProtocol
  import opened PendingOwnership

  // ---- The drain guard ---------------------------------------------------------

  /** Drain tasks that are running, or finished with their done-callback still pending. */
  function Drains(tasks: map<TaskId, Task>, callbacks: set<TaskId>): set<TaskId> {
    (set t | t in tasks && IsDrain(tasks[t])) + callbacks
  }

  ghost predicate OneDrain(tasks: map<TaskId, Task>, callbacks: set<TaskId>, draining: bool) {
    && (forall t, u :: t in Drains(tasks, callbacks) && u in Drains(tasks, callbacks) ==> t == u)
    && (draining <==> Drains(tasks, callbacks) != {})
    && tasks.Keys !! callbacks
  }

  lemma DrainSameKind(tasks: map<TaskId, Task>, callbacks: set<TaskId>, draining: bool, t: TaskId, k: Task)
    requires OneDrain(tasks, callbacks, draining)
    requires if t in tasks then IsDrain(k) == IsDrain(tasks[t]) else !IsDrain(k) && t !in callbacks
    ensures OneDrain(tasks[t := k], callbacks, draining)
  {
    assert Drains(tasks[t := k], callbacks) == Drains(tasks, callbacks);
  }

  lemma DrainOtherEnds(tasks: map<TaskId, Task>, callbacks: set<TaskId>, draining: bool, t: TaskId)
    requires OneDrain(tasks, callbacks, draining) && t in tasks && !IsDrain(tasks[t])
    ensures OneDrain(tasks - {t}, callbacks, draining)
  {
    assert Drains(tasks - {t}, callbacks) == Drains(tasks, callbacks);
  }

  lemma DrainEnds(tasks: map<TaskId, Task>, callbacks: set<TaskId>, draining: bool, t: TaskId)
    requires OneDrain(tasks, callbacks, draining) && t in tasks && IsDrain(tasks[t])
    ensures OneDrain(tasks - {t}, callbacks + {t}, draining)
  {
    assert Drains(tasks - {t}, callbacks + {t}) == Drains(tasks, callbacks);
  }

  lemma DrainStarts(tasks: map<TaskId, Task>, callbacks: set<TaskId>, t: TaskId)
    requires OneDrain(tasks, callbacks, false) && t !in tasks && t !in callbacks
    ensures OneDrain(tasks[t := DrainTop], callbacks, true)
  {
    assert Drains(tasks[t := DrainTop], callbacks) == {t};
  }

  lemma DrainReleased(tasks: map<TaskId, Task>, callbacks: set<TaskId>, draining: bool, t: TaskId)
    requires OneDrain(tasks, callbacks, draining) && t in callbacks
    ensures OneDrain(tasks, callbacks - {t}, false)
  {
    assert t in Drains(tasks, callbacks);
    assert Drains(tasks, callbacks - {t}) == {};
  }

  lemma DrainKeepsStore(s: State, e: Event)
    requires OneDrain(s.tasks, s.callbacks, s.draining)
    requires e.BeginEnqueue? || e.InsertRow? || e.AddEntry? || e.BeginCancel? || e.BeginClear? || e.DeleteRows?
      || e.EmptyMirror? || e.RemoveClearedDir?
    ensures OneDrain(Step(s, e).tasks, Step(s, e).callbacks, Step(s, e).draining)
  {
    hide OneDrain;
    var t := e.t;
    match e
    case BeginEnqueue(_, id, att) => if FreshTask(s, t) { DrainSameKind(s.tasks, s.callbacks, s.draining, t, Spilled(id, att)); }
    case InsertRow(_) =>
      if At(s, t) && s.tasks[t].Spilled? {
        DrainSameKind(s.tasks, s.callbacks, s.draining, t, Inserted(s.tasks[t].id));
      }
    case AddEntry(_, _) => if At(s, t) && s.tasks[t].Inserted? { DrainOtherEnds(s.tasks, s.callbacks, s.draining, t); }
    case BeginCancel(_, id) =>
      if FreshTask(s, t) { DrainSameKind(s.tasks, s.callbacks, s.draining, t, Deleting(id, UserCancel)); }
    case BeginClear(_) => if FreshTask(s, t) { DrainSameKind(s.tasks, s.callbacks, s.draining, t, Clearing); }
    case DeleteRows(_) =>
      if At(s, t) && s.tasks[t].Clearing? { DrainSameKind(s.tasks, s.callbacks, s.draining, t, RowsGone); }
    case EmptyMirror(_) =>
      if At(s, t) && s.tasks[t].RowsGone? {
        DrainSameKind(s.tasks, s.callbacks, s.draining, t, RemovingDirs(s.mirror));
      }
    case RemoveClearedDir(_) =>
      if At(s, t) && s.tasks[t].RemovingDirs? {
        DrainOtherEnds(s.tasks, s.callbacks, s.draining, t);
        if s.tasks[t].dropped != [] {
          DrainSameKind(s.tasks, s.callbacks, s.draining, t, RemovingDirs(s.tasks[t].dropped[1..]));
        }
      }
  }

  lemma DrainKeepsDelete(s: State, e: Event)
    requires OneDrain(s.tasks, s.callbacks, s.draining) && (e.DeleteRow? || e.RemoveEntry? || e.RemoveDir?)
    ensures OneDrain(Step(s, e).tasks, Step(s, e).callbacks, Step(s, e).draining)
  {
    hide OneDrain;
    var t := e.t;
    if At(s, t) && (s.tasks[t].Deleting? || s.tasks[t].RowGone? || s.tasks[t].EntryGone?) {
      var id, why := s.tasks[t].id, s.tasks[t].why;
      if why.UserCancel? {
        DrainOtherEnds(s.tasks, s.callbacks, s.draining, t);
      } else {
        DrainEnds(s.tasks, s.callbacks, s.draining, t);
        DrainSameKind(s.tasks, s.callbacks, s.draining, t, Handing(id));
      }
      DrainSameKind(s.tasks, s.callbacks, s.draining, t, RowGone(id, why));
      DrainSameKind(s.tasks, s.callbacks, s.draining, t, EntryGone(id, id in s.mirror, why));
    }
  }

  lemma DrainKeeps(s: State, e: Event)
    requires OneDrain(s.tasks, s.callbacks, s.draining) && !e.UnguardedDrain?
    ensures OneDrain(Step(s, e).tasks, Step(s, e).callbacks, Step(s, e).draining)
  {
    if e.Crash? {
      assert Drains(map[], {}) == {};
    }
    hide OneDrain;
    match e
    case Schedule(t, _) => if FreshTask(s, t) && !s.draining { DrainStarts(s.tasks, s.callbacks, t); }
    case DoneCallback(t) => if t in s.callbacks { DrainReleased(s.tasks, s.callbacks, s.draining, t); }
    case LoopTest(t) =>
      if At(s, t) && s.tasks[t].DrainTop? {
        DrainEnds(s.tasks, s.callbacks, s.draining, t);
        if s.mirror != [] {
          DrainSameKind(s.tasks, s.callbacks, s.draining, t, Deleting(s.mirror[0], DrainPop));
        }
      }
    case Deliver(t, _) =>
      if At(s, t) && s.tasks[t].Handing? {
        DrainEnds(s.tasks, s.callbacks, s.draining, t);
        DrainSameKind(s.tasks, s.callbacks, s.draining, t, DrainTop);
      }
    case Fail(t) =>
      if At(s, t) {
        if IsDrain(s.tasks[t]) {
          DrainEnds(s.tasks, s.callbacks, s.draining, t);
        } else {
          DrainOtherEnds(s.tasks, s.callbacks, s.draining, t);
        }
      }
    case DeleteRow(_) => DrainKeepsDelete(s, e);
    case RemoveEntry(_) => DrainKeepsDelete(s, e);
    case RemoveDir(_) => DrainKeepsDelete(s, e);
    case Crash =>
    case Sweep =>
    case Load(_) =>
    case SetBusy(_) =>
    case _ => DrainKeepsStore(s, e);
  }

  lemma {:induction false} RunOneDrain(s: State, events: seq<Event>)
    requires OneDrain(s.tasks, s.callbacks, s.draining)
    requires forall i :: 0 <= i < |events| ==> !events[i].UnguardedDrain?
    ensures OneDrain(Run(s, events).tasks, Run(s, events).callbacks, Run(s, events).draining)
    decreases events
  {
    if events != [] {
      DrainKeeps(s, events[0]);
      RunOneDrain(Step(s, events[0]), events[1..]);
    }
  }

  /** With drains started only through the guard, at most one runs in any reachable state. */
  lemma AtMostOneDrain(events: seq<Event>, t: TaskId, u: TaskId)
    requires forall i :: 0 <= i < |events| ==> !events[i].UnguardedDrain?
    requires t in Run(START, events).tasks && IsDrain(Run(START, events).tasks[t])
    requires u in Run(START, events).tasks && IsDrain(Run(START, events).tasks[u])
    ensures t == u && Run(START, events).draining
  {
    RunOneDrain(START, events);
    var s := Run(START, events);
    assert t in Drains(s.tasks, s.callbacks) && u in Drains(s.tasks, s.callbacks);
  }

  lemma LoneCallback(tasks: map<TaskId, Task>, callbacks: set<TaskId>, draining: bool) returns (callback: TaskId)
    requires OneDrain(tasks, callbacks, draining) && forall u :: u in tasks ==> !IsDrain(tasks[u])
    ensures draining ==> callbacks == {callback}
  {
    callback := 0;
    if draining {
      assert Drains(tasks, callbacks) == callbacks;
      callback :| callback in callbacks;
      forall u | u in callbacks
        ensures u == callback
      {
        assert u in Drains(tasks, callbacks) && callback in Drains(tasks, callbacks);
      }
    }
  }

  lemma DrainStartsAfter(s: State, callback: TaskId, t: TaskId, busy: bool)
    requires (s.draining ==> callback in s.callbacks) && FreshTask(s, t) && s.mirror != []
    ensures
      var started := Step(Step(Step(s, DoneCallback(callback)), SetBusy(busy)), Schedule(t, true));
      var r := Step(started, LoopTest(t));
      && started.draining && At(started, t) && started.tasks[t] == DrainTop
      && (busy ==> !At(r, t) && t in r.callbacks && r.mirror == s.mirror && r.table == s.table)
      && (!busy ==> At(r, t) && r.tasks[t] == Deleting(s.mirror[0], DrainPop))
  {
  }

  /**
   * And the guard gets out of the way: in such a run, if no drain is running, then just
   * one done-callback is due if the guard is held, and once that has run a drain starts as
   * soon as something is queued; it picks the head unless the session is busy.
   */
  lemma NextDrainStarts(events: seq<Event>, t: TaskId, busy: bool) returns (callback: TaskId)
    requires forall i :: 0 <= i < |events| ==> !events[i].UnguardedDrain?
    requires forall u :: u in Run(START, events).tasks ==> !IsDrain(Run(START, events).tasks[u])
    requires FreshTask(Run(START, events), t) && Run(START, events).mirror != []
    ensures Run(START, events).draining ==> Run(START, events).callbacks == {callback}
    ensures
      var s := Run(START, events);
      var started := Step(Step(Step(s, DoneCallback(callback)), SetBusy(busy)), Schedule(t, true));
      var r := Step(started, LoopTest(t));
      && started.draining && At(started, t) && started.tasks[t] == DrainTop
      && (busy ==> !At(r, t) && t in r.callbacks && r.mirror == s.mirror && r.table == s.table)
      && (!busy ==> At(r, t) && r.tasks[t] == Deleting(s.mirror[0], DrainPop))
  {
    RunOneDrain(START, events);
    hide Run, Step, OneDrain;
    var s := Run(START, events);
    callback := LoneCallback(s.tasks, s.callbacks, s.draining);
    DrainStartsAfter(s, callback, t, busy);
  }

  /** After a crash and a reload a drain starts at once, whatever was under way before. */
  lemma DrainStartsAfterCrash(s: State, order: seq<Id>, t: TaskId)
    requires order != [] && Distinct(order) && (set i | 0 <= i < |order| :: order[i]) == s.table.Keys
    ensures
      var loaded := Step(Step(s, Crash), Load(order));
      var r := Step(Step(loaded, Schedule(t, true)), LoopTest(t));
      && loaded.mirror == order && loaded.tasks == map[] && loaded.callbacks == {}
      && r.tasks == map[t := Deleting(order[0], DrainPop)]
  {
    var loaded := Step(Step(s, Crash), Load(order));
    assert loaded.mirror == order && loaded.tasks == map[];
  }

  /** While a drain runs the guard starts none; a drain started past it runs beside the other. */
  lemma OnlyTheGuardHolds(s: State, t: TaskId, eligible: bool)
    requires FreshTask(s, t)
    ensures s.draining ==> Step(s, Schedule(t, eligible)) == s
    ensures At(Step(s, UnguardedDrain(t)), t) && Step(s, UnguardedDrain(t)).tasks[t] == DrainTop
    ensures forall u :: u in s.tasks ==> At(Step(s, UnguardedDrain(t)), u) && Step(s, UnguardedDrain(t)).tasks[u] == s.tasks[u]
  {
  }

  // ---- Drained attachments --------------------------------------------------------

  /** A popped message has lost its directory before it is handed over. */
  ghost predicate DetachedTasks(tasks: map<TaskId, Task>, disk: set<Id>, issued: set<Id>) {
    disk <= issued && forall t :: t in tasks && tasks[t].Handing? ==> tasks[t].id in issued - disk
  }

  ghost predicate NoneAttached(outcomes: seq<Outcome>) {
    forall i :: 0 <= i < |outcomes| && outcomes[i].Handed? ==> !outcomes[i].withAttachments
  }

  ghost predicate Detached(s: State) {
    DetachedTasks(s.tasks, s.disk, s.issued) && NoneAttached(s.outcomes)
  }

  lemma DetachedTaskMoves(tasks: map<TaskId, Task>, disk: set<Id>, issued: set<Id>, fewer: set<Id>, t: TaskId, k: Task)
    requires DetachedTasks(tasks, disk, issued) && fewer <= disk
    ensures DetachedTasks(tasks - {t}, fewer, issued)
    ensures k.Handing? ==> k.id in issued - fewer ==> DetachedTasks(tasks[t := k], fewer, issued)
    ensures !k.Handing? ==> DetachedTasks(tasks[t := k], fewer, issued)
  {
  }

  lemma DetachedRemoval(s: State, e: Event)
    requires Detached(s) && RowsOwned(s) && (e.RemoveDir? || e.RemoveClearedDir? || e.Deliver?)
    ensures Detached(Step(s, e))
  {
    match e
    case RemoveDir(t) =>
      if At(s, t) && s.tasks[t].EntryGone? {
        var id := s.tasks[t].id;
        assert RowHeld(s.tasks[t]) == Some(id) && id in s.issued;
        hide RowsOwned, Owned;
        DetachedTaskMoves(s.tasks, s.disk, s.issued, s.disk - {id}, t, Handing(id));
      }
    case RemoveClearedDir(t) =>
      if At(s, t) && s.tasks[t].RemovingDirs? && s.tasks[t].dropped != [] {
        hide RowsOwned, Owned;
        var dropped := s.tasks[t].dropped;
        DetachedTaskMoves(s.tasks, s.disk, s.issued, s.disk - {dropped[0]}, t, RemovingDirs(dropped[1..]));
      }
    case Deliver(t, _) =>
      if At(s, t) && s.tasks[t].Handing? {
        hide RowsOwned, Owned;
        DetachedTaskMoves(s.tasks, s.disk, s.issued, s.disk, t, DrainTop);
      }
  }

  lemma DetachedOther(s: State, e: Event)
    requires Detached(s) && !(e.RemoveDir? || e.RemoveClearedDir? || e.Deliver?)
    ensures Detached(Step(s, e))
  {
    hide NoneAttached;
  }

  lemma DetachedKeeps(s: State, e: Event)
    requires Detached(s) && RowsOwned(s)
    ensures Detached(Step(s, e))
  {
    hide Detached, RowsOwned, Step;
    if e.RemoveDir? || e.RemoveClearedDir? || e.Deliver? {
      DetachedRemoval(s, e);
    } else {
      DetachedOther(s, e);
    }
  }

  lemma {:induction false} RunDetached(s: State, events: seq<Event>)
    requires Detached(s) && RowsOwned(s)
    ensures Detached(Run(s, events))
    decreases events
  {
    if events != [] {
      DetachedKeeps(s, events[0]);
      StepRowsOwned(s, events[0]);
      RunDetached(Step(s, events[0]), events[1..]);
    }
  }

  /**
   * The drain loop pops (removing the directory) before it reads the attachments back,
   * so in every run every drained message is delivered without its attachments.
   */
  lemma DrainedAttachmentsAreLost(events: seq<Event>, i: nat)
    requires i < |Run(START, events).outcomes| && Run(START, events).outcomes[i].Handed?
    ensures !Run(START, events).outcomes[i].withAttachments
  {
    RunDetached(START, events);
  }
}
