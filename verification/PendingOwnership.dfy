// The queued-message protocol: every row has one owner, so nothing is delivered or
// cancelled twice.
module PendingOwnership {
  import opened Collections
  import opened PendingProtocol

  /** The id whose row this task is about to create or has taken out of the table. */
  function RowHeld(task: Task): Option<Id> {
    match task
    case Spilled(id, _) => Some(id)
    case RowGone(id, _) => Some(id)
    case EntryGone(id, _, _) => Some(id)
    case Handing(id) => Some(id)
    case _ => None
  }

  ghost predicate DistinctOutcomes(outcomes: seq<Outcome>) {
    forall i, j :: 0 <= i < j < |outcomes| ==> outcomes[i].id != outcomes[j].id
  }

  function OutcomeIds(outcomes: seq<Outcome>): set<Id> {
    set i | 0 <= i < |outcomes| :: outcomes[i].id
  }

  /** Rows, holding tasks and outcomes share no id, and no two tasks hold the same one. */
  ghost predicate Owned(rows: set<Id>, tasks: map<TaskId, Task>, issued: set<Id>, gone: set<Id>) {
    && (forall t :: t in tasks && RowHeld(tasks[t]).Some? ==> RowHeld(tasks[t]).value in issued - rows - gone)
    && (forall t, u :: t in tasks && u in tasks && t != u && RowHeld(tasks[t]).Some? ==>
         RowHeld(tasks[t]) != RowHeld(tasks[u]))
    && rows <= issued && gone <= issued && rows !! gone
  }

  ghost predicate RowsOwned(s: State) {
    Owned(s.table.Keys, s.tasks, s.issued, OutcomeIds(s.outcomes)) && DistinctOutcomes(s.outcomes)
  }

  lemma OwnedSameHolder(rows: set<Id>, tasks: map<TaskId, Task>, issued: set<Id>, gone: set<Id>, t: TaskId, k: Task)
    requires Owned(rows, tasks, issued, gone)
    requires RowHeld(k) == None || (t in tasks && RowHeld(k) == RowHeld(tasks[t]))
    ensures Owned(rows, tasks[t := k], issued, gone)
  {
  }

  lemma OwnedDropTask(rows: set<Id>, tasks: map<TaskId, Task>, issued: set<Id>, gone: set<Id>, t: TaskId)
    requires Owned(rows, tasks, issued, gone)
    ensures Owned(rows, tasks - {t}, issued, gone)
  {
  }

  lemma OwnedNewId(rows: set<Id>, tasks: map<TaskId, Task>, issued: set<Id>, gone: set<Id>, t: TaskId, k: Task, id: Id)
    requires Owned(rows, tasks, issued, gone) && t !in tasks && id !in issued && RowHeld(k) == Some(id)
    ensures Owned(rows, tasks[t := k], issued + {id}, gone)
  {
  }

  lemma OwnedInsert(rows: set<Id>, tasks: map<TaskId, Task>, issued: set<Id>, gone: set<Id>, t: TaskId, k: Task, id: Id)
    requires Owned(rows, tasks, issued, gone) && t in tasks && RowHeld(tasks[t]) == Some(id) && RowHeld(k) == None
    ensures Owned(rows + {id}, tasks[t := k], issued, gone)
  {
  }

  lemma OwnedDelete(rows: set<Id>, tasks: map<TaskId, Task>, issued: set<Id>, gone: set<Id>, t: TaskId, k: Task, id: Id)
    requires Owned(rows, tasks, issued, gone) && t in tasks && id in rows && RowHeld(k) == Some(id)
    ensures Owned(rows - {id}, tasks[t := k], issued, gone)
  {
  }

  /** The holder gives the message away. */
  lemma OwnedGiveAway(rows: set<Id>, tasks: map<TaskId, Task>, issued: set<Id>, gone: set<Id>, t: TaskId, id: Id)
    requires Owned(rows, tasks, issued, gone) && t in tasks && RowHeld(tasks[t]) == Some(id)
    ensures Owned(rows, tasks - {t}, issued, gone + {id}) && id !in gone
  {
  }

  lemma OwnedFewerRows(rows: set<Id>, fewer: set<Id>, tasks: map<TaskId, Task>, issued: set<Id>, gone: set<Id>)
    requires Owned(rows, tasks, issued, gone) && fewer <= rows
    ensures Owned(fewer, tasks, issued, gone)
  {
  }

  lemma OutcomeAppended(outcomes: seq<Outcome>, o: Outcome)
    requires DistinctOutcomes(outcomes) && o.id !in OutcomeIds(outcomes)
    ensures DistinctOutcomes(outcomes + [o])
    ensures OutcomeIds(outcomes + [o]) == OutcomeIds(outcomes) + {o.id}
  {
    forall i | 0 <= i < |outcomes|
      ensures outcomes[i].id != o.id
    {
      assert outcomes[i].id in OutcomeIds(outcomes);
    }
    forall id
      ensures id in OutcomeIds(outcomes + [o]) <==> id in OutcomeIds(outcomes) + {o.id}
    {
      if id in OutcomeIds(outcomes) {
        var i :| 0 <= i < |outcomes| && outcomes[i].id == id;
        assert (outcomes + [o])[i].id == id;
      }
      assert (outcomes + [o])[|outcomes|] == o;
    }
  }

  lemma EnqueueRowsOwned(s: State, e: Event)
    requires RowsOwned(s) && (e.BeginEnqueue? || e.InsertRow? || e.AddEntry?)
    ensures RowsOwned(Step(s, e))
  {
    var rows, gone := s.table.Keys, OutcomeIds(s.outcomes);
    hide Owned, OutcomeIds, DistinctOutcomes;
    match e
    case BeginEnqueue(t, id, att) =>
      if FreshTask(s, t) && id !in s.issued {
        OwnedNewId(rows, s.tasks, s.issued, gone, t, Spilled(id, att), id);
      }
    case InsertRow(t) =>
      if At(s, t) && s.tasks[t].Spilled? {
        var id := s.tasks[t].id;
        OwnedInsert(rows, s.tasks, s.issued, gone, t, Inserted(id), id);
        assert s.table[id := s.tasks[t].hasAttachments].Keys == rows + {id};
      }
    case AddEntry(t, _) => OwnedDropTask(rows, s.tasks, s.issued, gone, t);
  }

  lemma DeleteRowsOwned(s: State, e: Event)
    requires RowsOwned(s) && (e.BeginCancel? || e.DeleteRow? || e.RemoveEntry?)
    ensures RowsOwned(Step(s, e))
  {
    var rows, gone := s.table.Keys, OutcomeIds(s.outcomes);
    hide Owned, OutcomeIds, DistinctOutcomes;
    match e
    case BeginCancel(t, id) => OwnedSameHolder(rows, s.tasks, s.issued, gone, t, Deleting(id, UserCancel));
    case DeleteRow(t) =>
      if At(s, t) && s.tasks[t].Deleting? {
        var id := s.tasks[t].id;
        OwnedDropTask(rows, s.tasks, s.issued, gone, t);
        if id in s.table {
          OwnedDelete(rows, s.tasks, s.issued, gone, t, RowGone(id, s.tasks[t].why), id);
          assert (s.table - {id}).Keys == rows - {id};
        }
      }
    case RemoveEntry(t) =>
      if At(s, t) && s.tasks[t].RowGone? {
        var id := s.tasks[t].id;
        OwnedSameHolder(rows, s.tasks, s.issued, gone, t, EntryGone(id, id in s.mirror, s.tasks[t].why));
      }
  }

  lemma ReturnRowsOwned(s: State, e: Event)
    requires RowsOwned(s) && (e.RemoveDir? || e.Deliver?)
    ensures RowsOwned(Step(s, e))
  {
    if At(s, e.t) && (if e.RemoveDir? then s.tasks[e.t].EntryGone? else s.tasks[e.t].Handing?) {
      var rows, gone := s.table.Keys, OutcomeIds(s.outcomes);
      var t, id := e.t, s.tasks[e.t].id;
      OwnedGiveAway(rows, s.tasks, s.issued, gone, t, id);
      OutcomeAppended(s.outcomes, CancelReturned(id));
      OutcomeAppended(s.outcomes, Handed(id, id in s.disk));
      hide Owned, OutcomeIds, DistinctOutcomes;
      OwnedDropTask(rows, s.tasks, s.issued, gone, t);
      OwnedSameHolder(rows, s.tasks, s.issued, gone, t, Handing(id));
      OwnedSameHolder(rows, s.tasks - {t}, s.issued, gone + {id}, t, DrainTop);
      assert (s.tasks - {t})[t := DrainTop] == s.tasks[t := DrainTop];
    }
  }

  lemma OtherRowsOwned(s: State, e: Event)
    requires RowsOwned(s)
    requires !(e.BeginEnqueue? || e.InsertRow? || e.AddEntry? || e.BeginCancel? || e.DeleteRow? || e.RemoveEntry?
               || e.RemoveDir? || e.Deliver?)
    ensures RowsOwned(Step(s, e))
  {
    var rows, gone := s.table.Keys, OutcomeIds(s.outcomes);
    if e.Crash? {
      assert Owned(rows, map[], s.issued, gone);
    }
    hide Owned, OutcomeIds, DistinctOutcomes;
    match e
    case BeginClear(t) => OwnedSameHolder(rows, s.tasks, s.issued, gone, t, Clearing);
    case DeleteRows(t) =>
      OwnedSameHolder(rows, s.tasks, s.issued, gone, t, RowsGone);
      OwnedFewerRows(rows, {}, s.tasks[t := RowsGone], s.issued, gone);
      var none: map<Id, bool> := map[];
      assert none.Keys == {};
    case EmptyMirror(t) => OwnedSameHolder(rows, s.tasks, s.issued, gone, t, RemovingDirs(s.mirror));
    case RemoveClearedDir(t) =>
      if At(s, t) && s.tasks[t].RemovingDirs? {
        OwnedDropTask(rows, s.tasks, s.issued, gone, t);
        if s.tasks[t].dropped != [] {
          OwnedSameHolder(rows, s.tasks, s.issued, gone, t, RemovingDirs(s.tasks[t].dropped[1..]));
        }
      }
    case Schedule(t, _) => OwnedSameHolder(rows, s.tasks, s.issued, gone, t, DrainTop);
    case UnguardedDrain(t) => OwnedSameHolder(rows, s.tasks, s.issued, gone, t, DrainTop);
    case Fail(t) => OwnedDropTask(rows, s.tasks, s.issued, gone, t);
    case LoopTest(t) =>
      OwnedDropTask(rows, s.tasks, s.issued, gone, t);
      if s.mirror != [] {
        OwnedSameHolder(rows, s.tasks, s.issued, gone, t, Deleting(s.mirror[0], DrainPop));
      }
    case _ =>
  }

  lemma StepRowsOwned(s: State, e: Event)
    requires RowsOwned(s)
    ensures RowsOwned(Step(s, e))
  {
    hide RowsOwned, Step;
    match e
    case BeginEnqueue(_, _, _) => EnqueueRowsOwned(s, e);
    case InsertRow(_) => EnqueueRowsOwned(s, e);
    case AddEntry(_, _) => EnqueueRowsOwned(s, e);
    case BeginCancel(_, _) => DeleteRowsOwned(s, e);
    case DeleteRow(_) => DeleteRowsOwned(s, e);
    case RemoveEntry(_) => DeleteRowsOwned(s, e);
    case RemoveDir(_) => ReturnRowsOwned(s, e);
    case Deliver(_, _) => ReturnRowsOwned(s, e);
    case _ => OtherRowsOwned(s, e);
  }

  lemma {:induction false} RunRowsOwned(s: State, events: seq<Event>)
    requires RowsOwned(s)
    ensures RowsOwned(Run(s, events))
    decreases events
  {
    if events != [] {
      StepRowsOwned(s, events[0]);
      RunRowsOwned(Step(s, events[0]), events[1..]);
    }
  }

  /**
   * For every interleaving of enqueues, cancels, clears, any number of drain loops
   * (guarded or not), crashes and reloads: no message is delivered twice, returned by
   * `cancel` twice, or both delivered and returned by `cancel`.
   */
  lemma {:induction false} NothingLeavesTwice(events: seq<Event>)
    ensures DistinctOutcomes(Run(START, events).outcomes)
  {
    RunRowsOwned(START, events);
  }
}
