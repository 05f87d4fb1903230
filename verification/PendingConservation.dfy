// The queued-message protocol: where every message is at any time, and that drains do hand over.
module PendingConservation {
  import opened Collections
  import opened PendingProtocol
  import opened PendingOwnership
  import opened PendingClear
  import opened PendingRaces

  /** The ids running tasks have taken out of the table, or not put into it yet. */
  function HeldIds(tasks: map<TaskId, Task>): set<Id> {
    set t | t in tasks && RowHeld(tasks[t]).Some? :: RowHeld(tasks[t]).value
  }

  function HeldBy(tasks: map<TaskId, Task>, t: TaskId): set<Id> {
    if t in tasks && RowHeld(tasks[t]).Some? then {RowHeld(tasks[t]).value} else {}
  }

  /**
   * What one step loses: a task that fails loses what it holds, and a crash what all of
   * them hold; a clear loses the rows; and a deletion its message if the entry is missing.
   */
  function Loses(s: State, e: Event): set<Id> {
    match e
    case Fail(t) => HeldBy(s.tasks, t)
    case Crash => HeldIds(s.tasks)
    case DeleteRows(t) => if At(s, t) && s.tasks[t].Clearing? then s.table.Keys else {}
    case RemoveDir(t) => if At(s, t) && s.tasks[t].EntryGone? && !s.tasks[t].found then {s.tasks[t].id} else {}
    case _ => {}
  }

  function Lost(s: State, events: seq<Event>): set<Id>
    decreases events
  {
    if events == [] then {} else Loses(s, events[0]) + Lost(Step(s, events[0]), events[1..])
  }

  /** Every id issued is in one of the four places, and in no two of them. */
  ghost predicate Accounted(rows: set<Id>, held: set<Id>, gone: set<Id>, lost: set<Id>, issued: set<Id>) {
    && issued == rows + held + gone + lost
    && rows !! held && rows !! gone && rows !! lost && held !! gone && held !! lost && gone !! lost
  }

  ghost predicate Whole(s: State, lost: set<Id>) {
    Accounted(s.table.Keys, HeldIds(s.tasks), OutcomeIds(s.outcomes), lost, s.issued)
  }

  lemma HeldMoves(tasks: map<TaskId, Task>, t: TaskId, k: Task)
    requires forall u, v :: u in tasks && v in tasks && u != v && RowHeld(tasks[u]).Some? ==> RowHeld(tasks[u]) != RowHeld(tasks[v])
    ensures HeldIds(tasks - {t}) == HeldIds(tasks) - HeldBy(tasks, t)
    ensures RowHeld(k).None? ==> HeldIds(tasks[t := k]) == HeldIds(tasks) - HeldBy(tasks, t)
    ensures RowHeld(k).Some? ==> HeldIds(tasks[t := k]) == HeldIds(tasks) - HeldBy(tasks, t) + {RowHeld(k).value}
    ensures HeldBy(tasks, t) <= HeldIds(tasks)
  {
    var r := tasks[t := k];
    forall id | id in HeldIds(tasks) && id !in HeldBy(tasks, t)
      ensures id in HeldIds(tasks - {t}) && id in HeldIds(r)
    {
      var u :| u in tasks && RowHeld(tasks[u]).Some? && RowHeld(tasks[u]).value == id;
      assert u in r && r[u] == tasks[u] && u in tasks - {t};
    }
    if RowHeld(k).Some? {
      assert t in r && r[t] == k;
    }
  }

  lemma TaskOnlyWhole(s: State, r: State, t: TaskId, k: Task, lost: set<Id>)
    requires RowsOwned(s) && Whole(s, lost)
    requires r.table.Keys == s.table.Keys && r.outcomes == s.outcomes && r.issued == s.issued
    requires r.tasks == s.tasks || (r.tasks == s.tasks - {t} && HeldBy(s.tasks, t) == {})
      || (r.tasks == s.tasks[t := k] && HeldBy(s.tasks, t) == match RowHeld(k) case Some(id) => {id} case None => {})
    ensures Whole(r, lost)
  {
    HeldMoves(s.tasks, t, k);
    hide HeldIds, OutcomeIds;
  }

  lemma EnqueueWhole(s: State, e: Event, lost: set<Id>)
    requires RowsOwned(s) && Whole(s, lost) && (e.BeginEnqueue? || e.InsertRow? || e.AddEntry?)
    ensures Whole(Step(s, e), lost)
  {
    var r, t := Step(s, e), e.t;
    match e
    case BeginEnqueue(_, id, att) =>
      if FreshTask(s, t) && id !in s.issued {
        HeldMoves(s.tasks, t, Spilled(id, att));
        hide HeldIds, OutcomeIds;
      }
    case InsertRow(_) =>
      if At(s, t) && s.tasks[t].Spilled? {
        HeldMoves(s.tasks, t, Inserted(s.tasks[t].id));
        hide HeldIds, OutcomeIds;
        assert r.table.Keys == s.table.Keys + {s.tasks[t].id};
      }
    case AddEntry(_, _) =>
      hide Owned, OutcomeIds, HeldIds, Accounted, DistinctOutcomes;
      TaskOnlyWhole(s, r, t, DrainTop, lost);
  }

  lemma DeleteRowWhole(s: State, t: TaskId, lost: set<Id>)
    requires RowsOwned(s) && Whole(s, lost)
    ensures Whole(Step(s, DeleteRow(t)), lost)
  {
    hide RowsOwned, Whole;
    if At(s, t) && s.tasks[t].Deleting? {
      if s.tasks[t].id in s.table {
        RowTakenWhole(s, t, lost);
      } else {
        TaskOnlyWhole(s, Step(s, DeleteRow(t)), t, DrainTop, lost);
      }
    }
  }

  lemma RowTakenWhole(s: State, t: TaskId, lost: set<Id>)
    requires RowsOwned(s) && Whole(s, lost) && At(s, t) && s.tasks[t].Deleting? && s.tasks[t].id in s.table
    ensures Whole(Step(s, DeleteRow(t)), lost)
  {
    var r := Step(s, DeleteRow(t));
    HeldMoves(s.tasks, t, RowGone(s.tasks[t].id, s.tasks[t].why));
    hide HeldIds, OutcomeIds;
    assert r.table.Keys == s.table.Keys - {s.tasks[t].id};
  }

  /** The message a task holds becomes an outcome, or is lost. */
  lemma GivenAwayWhole(s: State, r: State, t: TaskId, lost: set<Id>, o: Option<Outcome>)
    requires RowsOwned(s) && Whole(s, lost) && At(s, t) && RowHeld(s.tasks[t]).Some?
    requires r.table == s.table && r.issued == s.issued
    requires r.tasks == s.tasks - {t} || r.tasks == s.tasks[t := DrainTop]
    requires o.Some? ==> o.value.id == RowHeld(s.tasks[t]).value && r.outcomes == s.outcomes + [o.value]
    requires o.None? ==> r.outcomes == s.outcomes
    ensures Whole(r, if o.Some? then lost else lost + {RowHeld(s.tasks[t]).value})
  {
    HeldMoves(s.tasks, t, DrainTop);
    if o.Some? {
      OutcomeAppended(s.outcomes, o.value);
    }
    hide HeldIds, OutcomeIds, DistinctOutcomes;
  }

  lemma DeliverWhole(s: State, e: Event, lost: set<Id>)
    requires RowsOwned(s) && Whole(s, lost) && e.Deliver?
    ensures Whole(Step(s, e), lost)
  {
    hide RowsOwned, Whole;
    if At(s, e.t) && s.tasks[e.t].Handing? {
      GivenAwayWhole(s, Step(s, e), e.t, lost, Some(Handed(s.tasks[e.t].id, s.tasks[e.t].id in s.disk)));
    }
  }

  lemma RemoveDirWhole(s: State, t: TaskId, lost: set<Id>)
    requires RowsOwned(s) && Whole(s, lost)
    ensures Whole(Step(s, RemoveDir(t)), lost + Loses(s, RemoveDir(t)))
  {
    hide RowsOwned, Whole;
    assert lost + {} == lost;
    if At(s, t) && s.tasks[t].EntryGone? {
      var r, id := Step(s, RemoveDir(t)), s.tasks[t].id;
      if !s.tasks[t].found {
        GivenAwayWhole(s, r, t, lost, None);
      } else if s.tasks[t].why.UserCancel? {
        GivenAwayWhole(s, r, t, lost, Some(CancelReturned(id)));
      } else {
        TaskOnlyWhole(s, r, t, Handing(id), lost);
      }
    }
  }

  lemma FailWhole(s: State, t: TaskId, lost: set<Id>)
    requires RowsOwned(s) && Whole(s, lost)
    ensures Whole(Step(s, Fail(t)), lost + Loses(s, Fail(t)))
  {
    hide RowsOwned, Whole;
    assert lost + {} == lost;
    if At(s, t) {
      if RowHeld(s.tasks[t]).Some? {
        GivenAwayWhole(s, Step(s, Fail(t)), t, lost, None);
      } else {
        TaskOnlyWhole(s, Step(s, Fail(t)), t, DrainTop, lost);
      }
    }
  }

  lemma ClearRowsWhole(s: State, t: TaskId, lost: set<Id>)
    requires RowsOwned(s) && Whole(s, lost) && At(s, t) && s.tasks[t].Clearing?
    ensures Whole(Step(s, DeleteRows(t)), lost + s.table.Keys)
  {
    HeldMoves(s.tasks, t, RowsGone);
    hide HeldIds, OutcomeIds;
    var none: map<Id, bool> := map[];
    assert none.Keys == {};
  }

  lemma CrashWhole(s: State, lost: set<Id>)
    requires Whole(s, lost)
    ensures Whole(Step(s, Crash), lost + HeldIds(s.tasks))
  {
    assert HeldIds(map[]) == {};
    hide HeldIds, OutcomeIds;
  }

  lemma BeginWhole(s: State, e: Event, lost: set<Id>)
    requires RowsOwned(s) && Whole(s, lost)
    requires e.BeginCancel? || e.BeginClear? || e.Schedule? || e.UnguardedDrain?
    ensures Whole(Step(s, e), lost)
  {
    hide RowsOwned, Whole;
    var t := e.t;
    if FreshTask(s, t) {
      var k := if e.BeginCancel? then Deleting(e.id, UserCancel) else if e.BeginClear? then Clearing else DrainTop;
      TaskOnlyWhole(s, Step(s, e), t, k, lost);
    }
  }

  lemma MoveWhole(s: State, e: Event, lost: set<Id>)
    requires RowsOwned(s) && Whole(s, lost) && (e.RemoveEntry? || e.LoopTest?)
    ensures Whole(Step(s, e), lost)
  {
    hide RowsOwned, Whole, RemoveFirst;
    var r, t := Step(s, e), e.t;
    if At(s, t) {
      TaskOnlyWhole(s, r, t, if t in r.tasks then r.tasks[t] else DrainTop, lost);
    }
  }

  lemma ClearWhole(s: State, e: Event, lost: set<Id>)
    requires RowsOwned(s) && Whole(s, lost) && (e.EmptyMirror? || e.RemoveClearedDir?)
    ensures Whole(Step(s, e), lost)
  {
    hide RowsOwned, Whole;
    var r, t := Step(s, e), e.t;
    if At(s, t) {
      TaskOnlyWhole(s, r, t, if t in r.tasks then r.tasks[t] else DrainTop, lost);
    }
  }

  lemma StepWhole(s: State, e: Event, lost: set<Id>)
    requires RowsOwned(s) && Whole(s, lost)
    ensures Whole(Step(s, e), lost + Loses(s, e))
  {
    hide RowsOwned, Whole;
    assert lost + {} == lost;
    match e
    case BeginEnqueue(_, _, _) => EnqueueWhole(s, e, lost);
    case InsertRow(_) => EnqueueWhole(s, e, lost);
    case AddEntry(_, _) => EnqueueWhole(s, e, lost);
    case DeleteRow(t) => DeleteRowWhole(s, t, lost);
    case RemoveDir(t) => RemoveDirWhole(s, t, lost);
    case Deliver(_, _) => DeliverWhole(s, e, lost);
    case Fail(t) => FailWhole(s, t, lost);
    case DeleteRows(t) => if At(s, t) && s.tasks[t].Clearing? { ClearRowsWhole(s, t, lost); }
    case Crash => CrashWhole(s, lost);
    case Sweep => RestartWhole(s, e, lost);
    case Load(_) => RestartWhole(s, e, lost);
    case SetBusy(_) => RestartWhole(s, e, lost);
    case DoneCallback(_) => RestartWhole(s, e, lost);
    case RemoveEntry(_) => MoveWhole(s, e, lost);
    case LoopTest(_) => MoveWhole(s, e, lost);
    case EmptyMirror(_) => ClearWhole(s, e, lost);
    case RemoveClearedDir(_) => ClearWhole(s, e, lost);
    case _ => BeginWhole(s, e, lost);
  }

  lemma RestartWhole(s: State, e: Event, lost: set<Id>)
    requires Whole(s, lost) && (e.Sweep? || e.Load? || e.SetBusy? || e.DoneCallback?)
    ensures Whole(Step(s, e), lost)
  {
    hide Accounted, HeldIds, OutcomeIds;
  }

  lemma {:induction false} RunWhole(s: State, events: seq<Event>, lost: set<Id>)
    requires RowsOwned(s) && Whole(s, lost)
    ensures Whole(Run(s, events), lost + Lost(s, events))
    decreases events
  {
    assert lost + {} == lost;
    if events != [] {
      hide RowsOwned, Whole, Loses, Step;
      StepWhole(s, events[0], lost);
      StepRowsOwned(s, events[0]);
      RunWhole(Step(s, events[0]), events[1..], lost + Loses(s, events[0]));
      assert lost + Loses(s, events[0]) + Lost(Step(s, events[0]), events[1..]) == lost + Lost(s, events);
    }
  }

  /**
   * Conservation, under every interleaving with failures, crashes and reloads: every id
   * ever issued is in the table, held by a running task, handed over or returned by
   * `cancel`, or lost to one of the causes above, and is in no two of these places.
   */
  lemma EveryMessageIsSomewhere(events: seq<Event>)
    ensures
      var s := Run(START, events);
      Accounted(s.table.Keys, HeldIds(s.tasks), OutcomeIds(s.outcomes), Lost(START, events), s.issued)
  {
    assert Whole(START, {}) && RowsOwned(START);
    RunWhole(START, events, {});
    assert {} + Lost(START, events) == Lost(START, events);
  }

  // ---- A popped message is handed over -----------------------------------------------------------

  /** Events of other tasks, among which there is no crash. */
  predicate LeavesAlone(e: Event, t: TaskId) {
    match e
    case Crash => false
    case Sweep => true
    case Load(_) => true
    case SetBusy(_) => true
    case _ => e.t != t
  }

  predicate AllLeaveAlone(events: seq<Event>, t: TaskId) {
    forall i :: 0 <= i < |events| ==> LeavesAlone(events[i], t)
  }

  lemma LeftAlone(s: State, e: Event, t: TaskId)
    requires At(s, t) && LeavesAlone(e, t)
    ensures At(Step(s, e), t) && Step(s, e).tasks[t] == s.tasks[t]
    ensures s.outcomes <= Step(s, e).outcomes
  {
    hide RemoveFirst;
  }

  lemma {:induction false} RunLeftAlone(s: State, events: seq<Event>, t: TaskId)
    requires At(s, t) && AllLeaveAlone(events, t)
    ensures At(Run(s, events), t) && Run(s, events).tasks[t] == s.tasks[t]
    ensures s.outcomes <= Run(s, events).outcomes
    decreases events
  {
    if events != [] {
      LeftAlone(s, events[0], t);
      hide Step, LeavesAlone;
      RunLeftAlone(Step(s, events[0]), events[1..], t);
    }
  }

  /** The run goes on with the others' events and then one of the task's own. */
  function Later(s: State, others: seq<Event>, own: Event): State {
    Step(Run(s, others), own)
  }

  /**
   * A drain that has deleted a message's row and does not fail: whatever others do in
   * between, if the entry is still mirrored when it removes it, the message is handed over
   * at its delivery, as the newest outcome; and the loop goes on, or ends if that raised.
   */
  lemma PoppedIsHandedOver(s: State, t: TaskId, id: Id, a: seq<Event>, b: seq<Event>, c: seq<Event>, raised: bool)
    requires At(s, t) && s.tasks[t] == RowGone(id, DrainPop)
    requires AllLeaveAlone(a, t) && AllLeaveAlone(b, t) && AllLeaveAlone(c, t) && id in Run(s, a).mirror
    ensures
      var removed := Later(s, a, RemoveEntry(t));
      var taken := Later(removed, b, RemoveDir(t));
      var r := Later(taken, c, Deliver(t, raised));
      && r.outcomes == Run(taken, c).outcomes + [Handed(id, id in Run(taken, c).disk)]
      && (raised ==> !At(r, t) && t in r.callbacks)
      && (!raised ==> At(r, t) && r.tasks[t] == DrainTop)
  {
    hide Step, Run, AllLeaveAlone;
    var removed := Later(s, a, RemoveEntry(t));
    EntryRemoved(s, t, id, DrainPop, a);
    var taken := Later(removed, b, RemoveDir(t));
    DirectoryRemoved(removed, t, id, b);
    RunLeftAlone(taken, c, t);
    HandedOver(Run(taken, c), t, id, raised);
  }

  lemma EntryRemoved(s: State, t: TaskId, id: Id, why: Why, a: seq<Event>)
    requires At(s, t) && s.tasks[t] == RowGone(id, why) && AllLeaveAlone(a, t) && id in Run(s, a).mirror
    ensures var r := Later(s, a, RemoveEntry(t)); At(r, t) && r.tasks[t] == EntryGone(id, true, why)
  {
    hide Run, AllLeaveAlone, RemoveFirst;
    RunLeftAlone(s, a, t);
  }

  lemma DirectoryRemoved(s: State, t: TaskId, id: Id, b: seq<Event>)
    requires At(s, t) && s.tasks[t] == EntryGone(id, true, DrainPop) && AllLeaveAlone(b, t)
    ensures var r := Later(s, b, RemoveDir(t)); At(r, t) && r.tasks[t] == Handing(id)
  {
    hide Run, AllLeaveAlone;
    RunLeftAlone(s, b, t);
  }

  lemma HandedOver(s: State, t: TaskId, id: Id, raised: bool)
    requires At(s, t) && s.tasks[t] == Handing(id)
    ensures
      var r := Step(s, Deliver(t, raised));
      && r.outcomes == s.outcomes + [Handed(id, id in s.disk)]
      && (raised ==> !At(r, t) && t in r.callbacks)
      && (!raised ==> At(r, t) && r.tasks[t] == DrainTop)
  {
  }

  /** A cancel that has deleted the row, likewise: its caller gets the message back. */
  lemma CancelledIsReturned(s: State, t: TaskId, id: Id, a: seq<Event>, b: seq<Event>)
    requires At(s, t) && s.tasks[t] == RowGone(id, UserCancel)
    requires AllLeaveAlone(a, t) && AllLeaveAlone(b, t) && id in Run(s, a).mirror
    ensures
      var removed := Later(s, a, RemoveEntry(t));
      var r := Later(removed, b, RemoveDir(t));
      r.outcomes == Run(removed, b).outcomes + [CancelReturned(id)] && !At(r, t)
  {
    hide Run, AllLeaveAlone;
    var removed := Later(s, a, RemoveEntry(t));
    EntryRemoved(s, t, id, UserCancel, a);
    RunLeftAlone(removed, b, t);
  }

  /** Only this message, stored and mirrored, and nothing under way. */
  predicate Ready(s: State, id: Id) {
    && s.table.Keys == {id} && s.mirror == [id] && s.tasks == map[] && s.callbacks == {}
    && !s.busy && !s.draining && s.outcomes == []
  }

  lemma Stored(id: Id, attached: bool) returns (events: seq<Event>, s: State)
    ensures s == Run(START, events) && s.table == map[id := attached] && s.tasks == map[0 := Inserted(id)]
    ensures s.mirror == [] && s.callbacks == {} && !s.busy && !s.draining && s.outcomes == []
  {
    events, s := [], START;
    assert Run(START, events) == s;
    hide Run;
    events, s := Next(events, s, BeginEnqueue(0, id, attached));
    events, s := Next(events, s, InsertRow(0));
  }

  /** A message is mirrored by its enqueue, or by the reload after a crash before that. */
  lemma StoredIsMirrored(id: Id, attached: bool, crashes: bool) returns (events: seq<Event>, s: State)
    ensures s == Run(START, events) && Ready(s, id)
  {
    hide Run;
    events, s := Stored(id, attached);
    assert s.table.Keys == {id};
    if crashes {
      events, s := Next(events, s, Crash);
      var order := [id];
      assert order[0] == id && s.table.Keys == set i | 0 <= i < |order| :: order[i];
      events, s := Next(events, s, Load(order));
    } else {
      events, s := Next(events, s, AddEntry(0, 0));
    }
  }

  lemma HeadIsPopped(events: seq<Event>, s: State, id: Id) returns (longer: seq<Event>, r: State)
    requires s == Run(START, events) && Ready(s, id)
    ensures r == Run(START, longer)
    ensures r.tasks == map[1 := RowGone(id, DrainPop)] && r.mirror == [id] && r.table == map[] && r.outcomes == []
  {
    hide Run;
    longer, r := Next(events, s, Schedule(1, true));
    longer, r := Next(longer, r, LoopTest(1));
    assert r.tasks == map[1 := Deleting(id, DrainPop)] && r.mirror == [id] && r.table == s.table && r.outcomes == [];
    longer, r := Next(longer, r, DeleteRow(1));
  }

  /**
   * A message enqueued and, by the enqueue or by a reload after a crash, mirrored: the
   * guard lets a drain start, which pops the head and hands it over.
   */
  lemma EnqueuedIsHandedOver(id: Id, attached: bool, crashes: bool) returns (events: seq<Event>, s: State)
    ensures s == Run(START, events)
    ensures s.outcomes == [Handed(id, false)] && s.table == map[] && s.mirror == []
  {
    hide Run;
    events, s := StoredIsMirrored(id, attached, crashes);
    events, s := HeadIsPopped(events, s, id);
    events, s := Next(events, s, RemoveEntry(1));
    events, s := Next(events, s, RemoveDir(1));
    assert s.tasks == map[1 := Handing(id)] && s.mirror == [] && s.table == map[] && s.outcomes == [] && id !in s.disk;
    events, s := Next(events, s, Deliver(1, false));
  }

  /** The same message, cancelled by the user instead, is given back. */
  lemma EnqueuedIsReturned(id: Id, attached: bool, crashes: bool) returns (events: seq<Event>, s: State)
    ensures s == Run(START, events)
    ensures s.outcomes == [CancelReturned(id)] && s.table == map[] && s.mirror == [] && s.tasks == map[]
  {
    hide Run;
    events, s := StoredIsMirrored(id, attached, crashes);
    events, s := Next(events, s, BeginCancel(1, id));
    assert s.tasks == map[1 := Deleting(id, UserCancel)];
    events, s := Next(events, s, DeleteRow(1));
    events, s := Next(events, s, RemoveEntry(1));
    assert s.tasks == map[1 := EntryGone(id, true, UserCancel)] && s.mirror == [] && s.table == map[];
    events, s := Next(events, s, RemoveDir(1));
  }
}
