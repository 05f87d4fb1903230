// The queued-message protocol: mirror entries without a row, and the queue blocked behind one.
module PendingBlocked {
  import opened Collections
  import opened PendingProtocol
  import opened PendingOwnership
  import opened PendingClear
  import opened PendingRaces

  // ---- How one arises ---------------------------------------------------------------------

  /** Some task is past deleting the row and has the mirror entry still to remove. */
  ghost predicate ToBeRemoved(tasks: map<TaskId, Task>, id: Id) {
    exists t :: t in tasks && (tasks[t].RowsGone? || (tasks[t].RowGone? && tasks[t].id == id))
  }

  ghost predicate Backed(s: State, id: Id) {
    id in s.table || ToBeRemoved(s.tasks, id)
  }

  /** Every mirrored message has its row, or is about to leave the mirror. */
  ghost predicate AllBacked(s: State) {
    forall id :: id in Members(s.mirror) ==> Backed(s, id)
  }

  /** An entry is filed whose row is gone, and whoever deleted it is done with the mirror. */
  ghost predicate FilesRowless(s: State, e: Event) {
    e.AddEntry? && At(s, e.t) && s.tasks[e.t].Inserted? && e.at <= |s.mirror| && !Backed(s, s.tasks[e.t].id)
  }

  /** A deletion or clear ends early, and leaves an entry without a row that nobody else will remove. */
  ghost predicate StopsShort(s: State, e: Event) {
    e.Fail? && exists id :: id in Members(s.mirror) && id !in s.table && !ToBeRemoved(s.tasks - {e.t}, id)
  }

  ghost predicate LeavesRowless(s: State, e: Event) {
    FilesRowless(s, e) || StopsShort(s, e)
  }

  /** The id this enqueue has yet to file. */
  function Filing(task: Task): Option<Id> {
    match task
    case Spilled(id, _) => Some(id)
    case Inserted(id) => Some(id)
    case _ => None
  }

  /** No two enqueues file the same id, and none files an id that is mirrored already. */
  ghost predicate FilesOnce(tasks: map<TaskId, Task>, mirror: set<Id>, issued: set<Id>) {
    && mirror <= issued
    && (forall t :: t in tasks && Filing(tasks[t]).Some? ==> Filing(tasks[t]).value in issued - mirror)
    && (forall t, u :: t in tasks && u in tasks && t != u && Filing(tasks[t]).Some? ==> Filing(tasks[t]) != Filing(tasks[u]))
  }

  ghost predicate MirrorOwned(s: State) {
    FilesOnce(s.tasks, Members(s.mirror), s.issued) && Distinct(s.mirror)
  }

  lemma FilesOnceMoves(tasks: map<TaskId, Task>, mirror: set<Id>, issued: set<Id>, t: TaskId, k: Task)
    requires FilesOnce(tasks, mirror, issued)
    ensures FilesOnce(tasks - {t}, mirror, issued)
    ensures Filing(k) == None || (t in tasks && Filing(k) == Filing(tasks[t])) ==> FilesOnce(tasks[t := k], mirror, issued)
    ensures Filing(k).Some? && Filing(k).value !in issued && t !in tasks ==>
      FilesOnce(tasks[t := k], mirror, issued + {Filing(k).value})
    ensures t in tasks && Filing(tasks[t]).Some? ==>
      Filing(tasks[t]).value !in mirror && FilesOnce(tasks - {t}, mirror + {Filing(tasks[t]).value}, issued)
  {
  }

  lemma FilesOnceFewer(tasks: map<TaskId, Task>, mirror: set<Id>, issued: set<Id>, fewer: set<Id>)
    requires FilesOnce(tasks, mirror, issued) && fewer <= mirror
    ensures FilesOnce(tasks, fewer, issued)
  {
  }

  lemma EnqueueMirrorOwned(s: State, e: Event)
    requires MirrorOwned(s) && (e.BeginEnqueue? || e.InsertRow? || e.AddEntry?)
    ensures MirrorOwned(Step(s, e))
  {
    var mirror, t := Members(s.mirror), e.t;
    hide FilesOnce, Members, Distinct;
    match e
    case BeginEnqueue(_, id, att) =>
      if FreshTask(s, t) && id !in s.issued {
        FilesOnceMoves(s.tasks, mirror, s.issued, t, Spilled(id, att));
      }
    case InsertRow(_) =>
      if At(s, t) && s.tasks[t].Spilled? {
        FilesOnceMoves(s.tasks, mirror, s.issued, t, Inserted(s.tasks[t].id));
      }
    case AddEntry(_, at) =>
      if At(s, t) && s.tasks[t].Inserted? && at <= |s.mirror| {
        FilesOnceMoves(s.tasks, mirror, s.issued, t, s.tasks[t]);
        DistinctInsert(s.mirror, at, s.tasks[t].id);
      }
  }

  lemma ShrinkMirrorOwned(s: State, e: Event)
    requires MirrorOwned(s) && (e.RemoveEntry? || e.EmptyMirror? || e.RemoveClearedDir?)
    ensures MirrorOwned(Step(s, e))
  {
    var mirror, t := Members(s.mirror), e.t;
    NoMembers();
    if At(s, t) {
      FilesOnceMoves(s.tasks, mirror, s.issued, t, DrainTop);
      if e.RemoveEntry? && s.tasks[t].RowGone? {
        var id := s.tasks[t].id;
        hide FilesOnce, Distinct, Members;
        FilesOnceMoves(s.tasks, mirror, s.issued, t, EntryGone(id, id in s.mirror, s.tasks[t].why));
        RemoveFirstMembers(s.mirror, id);
        FilesOnceFewer(Step(s, e).tasks, mirror, s.issued, mirror - {id});
      } else if e.EmptyMirror? && s.tasks[t].RowsGone? {
        FilesOnceMoves(s.tasks, mirror, s.issued, t, RemovingDirs(s.mirror));
        hide FilesOnce, Members;
        FilesOnceFewer(Step(s, e).tasks, mirror, s.issued, {});
      } else if e.RemoveClearedDir? && s.tasks[t].RemovingDirs? && s.tasks[t].dropped != [] {
        hide FilesOnce, Distinct, Members;
        FilesOnceMoves(s.tasks, mirror, s.issued, t, RemovingDirs(s.tasks[t].dropped[1..]));
      }
    }
  }

  lemma MoveMirrorOwned(s: State, e: Event)
    requires MirrorOwned(s) && (DeletionMove(e) || OtherMove(e))
    ensures MirrorOwned(Step(s, e))
  {
    var r, mirror := Step(s, e), Members(s.mirror);
    if DeletionMove(e) {
      DeletionMoved(s, e);
    } else {
      OtherMoved(s, e);
    }
    hide FilesOnce, Members, Distinct, Step;
    FilesOnceMoves(s.tasks, mirror, s.issued, e.t, DrainTop);
    if e.t in r.tasks {
      FilesOnceMoves(s.tasks, mirror, s.issued, e.t, r.tasks[e.t]);
    }
  }

  lemma RestartMirrorOwned(s: State, e: Event)
    requires MirrorOwned(s) && RowsOwned(s) && (e.Crash? || e.Sweep? || e.Load? || e.SetBusy? || e.DoneCallback?)
    ensures MirrorOwned(Step(s, e))
  {
    NoMembers();
    if e.Load? && Step(s, e) != s {
      assert Members(e.order) == s.table.Keys;
      hide Members;
    }
  }

  lemma StepMirrorOwned(s: State, e: Event)
    requires MirrorOwned(s) && RowsOwned(s)
    ensures MirrorOwned(Step(s, e))
  {
    hide MirrorOwned, RowsOwned, Step;
    match e
    case BeginEnqueue(_, _, _) => EnqueueMirrorOwned(s, e);
    case InsertRow(_) => EnqueueMirrorOwned(s, e);
    case AddEntry(_, _) => EnqueueMirrorOwned(s, e);
    case RemoveEntry(_) => ShrinkMirrorOwned(s, e);
    case EmptyMirror(_) => ShrinkMirrorOwned(s, e);
    case RemoveClearedDir(_) => ShrinkMirrorOwned(s, e);
    case Crash => RestartMirrorOwned(s, e);
    case Sweep => RestartMirrorOwned(s, e);
    case Load(_) => RestartMirrorOwned(s, e);
    case SetBusy(_) => RestartMirrorOwned(s, e);
    case DoneCallback(_) => RestartMirrorOwned(s, e);
    case _ => MoveMirrorOwned(s, e);
  }

  /** Rows and removals under way that stay keep a message backed. */
  lemma BackedKept(s: State, r: State, id: Id)
    requires Backed(s, id)
    requires id in s.table ==> Backed(r, id)
    requires forall t :: t in s.tasks && (s.tasks[t].RowsGone? || (s.tasks[t].RowGone? && s.tasks[t].id == id)) ==>
      t in r.tasks && r.tasks[t] == s.tasks[t]
    ensures Backed(r, id)
  {
  }

  lemma AddBacked(s: State, t: TaskId, at: nat)
    requires MirrorOwned(s) && AllBacked(s)
    ensures AllBacked(Step(s, AddEntry(t, at))) <==> !FilesRowless(s, AddEntry(t, at))
  {
    if At(s, t) && s.tasks[t].Inserted? && at <= |s.mirror| {
      var r, id := Step(s, AddEntry(t, at)), s.tasks[t].id;
      MembersInsert(s.mirror, at, id);
      hide Members, FilesOnce, Distinct;
      forall x
        ensures Backed(r, x) <==> Backed(s, x)
      {
        if Backed(s, x) {
          BackedKept(s, r, x);
        }
      }
      assert id in Members(r.mirror);
    }
  }

  lemma RemoveBacked(s: State, t: TaskId)
    requires MirrorOwned(s) && AllBacked(s) && At(s, t) && s.tasks[t].RowGone?
    ensures AllBacked(Step(s, RemoveEntry(t)))
  {
    var r := Step(s, RemoveEntry(t));
    RemoveFirstMembers(s.mirror, s.tasks[t].id);
    hide Members, FilesOnce, Distinct, RemoveFirst;
    forall x | x in Members(r.mirror)
      ensures Backed(r, x)
    {
      BackedKept(s, r, x);
    }
  }

  lemma DeleteBacked(s: State, e: Event)
    requires AllBacked(s) && (e.DeleteRow? || e.DeleteRows?)
    ensures AllBacked(Step(s, e))
  {
    var r, t := Step(s, e), e.t;
    hide Members;
    forall x | x in Members(r.mirror)
      ensures Backed(r, x)
    {
      if r != s && t in r.tasks && (r.tasks[t].RowsGone? || (r.tasks[t].RowGone? && r.tasks[t].id == x)) {
        assert ToBeRemoved(r.tasks, x);
      } else {
        BackedKept(s, r, x);
      }
    }
  }

  lemma MoveBacked(s: State, e: Event)
    requires AllBacked(s)
    requires e.BeginEnqueue? || e.InsertRow? || e.BeginCancel? || e.RemoveDir? || e.Deliver? || e.BeginClear?
      || e.RemoveClearedDir? || e.Schedule? || e.UnguardedDrain? || e.LoopTest?
    ensures AllBacked(Step(s, e))
  {
    var r := Step(s, e);
    hide Members;
    assert r.mirror == s.mirror && s.table.Keys <= r.table.Keys;
    assert forall t :: t in s.tasks && (s.tasks[t].RowsGone? || s.tasks[t].RowGone?) ==> t in r.tasks && r.tasks[t] == s.tasks[t];
    hide Step;
    forall x | x in Members(r.mirror)
      ensures Backed(r, x)
    {
      BackedKept(s, r, x);
    }
  }

  lemma RestartBacked(s: State, e: Event)
    requires AllBacked(s) && (e.EmptyMirror? || e.Crash? || e.Sweep? || e.Load? || e.SetBusy? || e.DoneCallback?)
    ensures AllBacked(Step(s, e))
  {
    var r := Step(s, e);
    NoMembers();
    if r.mirror != [] {
      if e.Load? && r != s {
        assert Members(e.order) == s.table.Keys;
      } else {
        assert r.mirror == s.mirror && r.table == s.table && r.tasks == s.tasks;
        hide Members;
        assert forall x :: Backed(s, x) ==> Backed(r, x);
      }
    }
  }

  lemma FailBacked(s: State, t: TaskId)
    requires AllBacked(s)
    ensures AllBacked(Step(s, Fail(t))) <==> !StopsShort(s, Fail(t))
  {
    var r := Step(s, Fail(t));
    assert r.table == s.table && r.mirror == s.mirror;
    assert r.tasks == s.tasks - {t};
    hide Members, Step, ToBeRemoved;
  }

  lemma StepBacked(s: State, e: Event)
    requires MirrorOwned(s) && AllBacked(s)
    ensures AllBacked(Step(s, e)) <==> !LeavesRowless(s, e)
  {
    hide MirrorOwned, AllBacked, Backed;
    match e
    case AddEntry(t, at) => AddBacked(s, t, at);
    case Fail(t) => FailBacked(s, t);
    case RemoveEntry(t) => if At(s, t) && s.tasks[t].RowGone? { RemoveBacked(s, t); }
    case DeleteRow(_) => DeleteBacked(s, e);
    case DeleteRows(_) => DeleteBacked(s, e);
    case EmptyMirror(_) => RestartBacked(s, e);
    case Crash => RestartBacked(s, e);
    case Sweep => RestartBacked(s, e);
    case Load(_) => RestartBacked(s, e);
    case SetBusy(_) => RestartBacked(s, e);
    case DoneCallback(_) => RestartBacked(s, e);
    case _ => MoveBacked(s, e);
  }

  ghost predicate AlwaysBacked(s: State, events: seq<Event>)
    decreases events
  {
    AllBacked(s) && (events == [] || AlwaysBacked(Step(s, events[0]), events[1..]))
  }

  ghost predicate NeverLeavesRowless(s: State, events: seq<Event>)
    decreases events
  {
    events == [] || (!LeavesRowless(s, events[0]) && NeverLeavesRowless(Step(s, events[0]), events[1..]))
  }

  lemma {:induction false} BackedRunIff(s: State, events: seq<Event>)
    requires MirrorOwned(s) && RowsOwned(s) && AllBacked(s)
    ensures AlwaysBacked(s, events) <==> NeverLeavesRowless(s, events)
    decreases events
  {
    if events != [] {
      StepMirrorOwned(s, events[0]);
      StepRowsOwned(s, events[0]);
      StepBacked(s, events[0]);
      hide MirrorOwned, RowsOwned, AllBacked, LeavesRowless, Step;
      if AllBacked(Step(s, events[0])) {
        BackedRunIff(Step(s, events[0]), events[1..]);
      }
    }
  }

  /**
   * In every interleaving with failures, crashes and reloads: at every point each mirrored
   * message has its row or is about to leave the mirror, exactly if no enqueue files an
   * entry whose row was deleted since it was inserted, by a task that is done with the
   * mirror, and no deletion or clear ends between row and mirror with nobody else left to
   * remove the entry.
   */
  lemma RowlessEntryIff(events: seq<Event>)
    ensures AlwaysBacked(START, events) <==> NeverLeavesRowless(START, events)
  {
    BackedRunIff(START, events);
  }

  // ---- What it blocks --------------------------------------------------------------------------

  /** Clears, restarts, and entries filed in front of the head. */
  predicate Frees(e: Event) {
    e.EmptyMirror? || e.Crash? || e.Load? || (e.AddEntry? && e.at == 0)
  }

  /** The head is a message without a row, which no task will insert and none will remove. */
  ghost predicate Blocked(s: State, head: Id) {
    && s.mirror != [] && s.mirror[0] == head && head !in s.table && head in s.issued
    && forall t :: t in s.tasks ==> !IsAbout(s.tasks[t], head)
  }

  predicate IsAbout(task: Task, id: Id) {
    (task.Spilled? || task.RowGone?) && task.id == id
  }

  /** A drain loop has taken the message's row, or is about to. */
  predicate Draws(task: Task, id: Id, head: Id) {
    match task
    case Deleting(x, why) => x == id && x != head && why.DrainPop?
    case RowGone(x, why) => x == id && why.DrainPop?
    case EntryGone(x, _, why) => x == id && why.DrainPop?
    case Handing(x) => x == id
    case _ => false
  }

  ghost predicate Undrawn(tasks: map<TaskId, Task>, id: Id, head: Id) {
    forall t :: t in tasks ==> !Draws(tasks[t], id, head)
  }

  lemma HeadStays(s: State, e: Event, head: Id)
    requires Blocked(s, head) && !Frees(e)
    ensures Step(s, e).mirror != [] && Step(s, e).mirror[0] == head
  {
  }

  lemma RowStaysAway(s: State, e: Event, head: Id)
    requires Blocked(s, head)
    ensures head !in Step(s, e).table && head in Step(s, e).issued
  {
    hide RemoveFirst;
  }

  lemma NothingAboutIt(s: State, e: Event, head: Id)
    requires head !in s.table && head in s.issued && forall t :: t in s.tasks ==> !IsAbout(s.tasks[t], head)
    ensures forall t :: t in Step(s, e).tasks ==> !IsAbout(Step(s, e).tasks[t], head)
  {
    hide RemoveFirst;
  }

  lemma BlockedStays(s: State, e: Event, head: Id)
    requires Blocked(s, head) && !Frees(e)
    ensures Blocked(Step(s, e), head)
  {
    HeadStays(s, e, head);
    RowStaysAway(s, e, head);
    NothingAboutIt(s, e, head);
    hide Step, IsAbout;
  }

  lemma HandsOverWhatItHolds(s: State, e: Event, id: Id)
    requires forall t :: t in s.tasks ==> s.tasks[t] != Handing(id)
    ensures forall b :: Handed(id, b) in Step(s, e).outcomes ==> Handed(id, b) in s.outcomes
  {
  }

  lemma UndrawnMoves(tasks: map<TaskId, Task>, id: Id, head: Id, t: TaskId, k: Task)
    requires Undrawn(tasks, id, head)
    ensures Undrawn(tasks - {t}, id, head)
    ensures !Draws(k, id, head) ==> Undrawn(tasks[t := k], id, head)
  {
  }

  /** One task moved, and draws nothing of `id` afterwards. */
  ghost predicate MovesUndrawn(s: State, r: State, t: TaskId, head: Id, id: Id) {
    || r.tasks == s.tasks
    || r.tasks == s.tasks - {t}
    || (t in r.tasks && r.tasks == s.tasks[t := r.tasks[t]] && !Draws(r.tasks[t], id, head))
  }

  lemma StoreMovesUndrawn(s: State, e: Event, head: Id, id: Id)
    requires e.BeginEnqueue? || e.InsertRow? || e.AddEntry? || e.BeginCancel? || e.BeginClear? || e.DeleteRows? || e.RemoveClearedDir?
    ensures MovesUndrawn(s, Step(s, e), e.t, head, id)
  {
  }

  /** A deletion draws only what it drew already, and finds no row of the head. */
  lemma DeletionMovesUndrawn(s: State, e: Event, head: Id, id: Id)
    requires Blocked(s, head) && Undrawn(s.tasks, id, head) && (e.DeleteRow? || e.RemoveEntry? || e.RemoveDir?)
    ensures MovesUndrawn(s, Step(s, e), e.t, head, id)
  {
    if At(s, e.t) {
      assert !Draws(s.tasks[e.t], id, head);
      hide Undrawn;
    }
  }

  /** The drain loop pops the head, whose row is missing. */
  lemma DrainMovesUndrawn(s: State, e: Event, head: Id, id: Id)
    requires Blocked(s, head) && (e.Schedule? || e.UnguardedDrain? || e.LoopTest? || e.Deliver? || e.DoneCallback?
                               || e.Fail?)
    ensures MovesUndrawn(s, Step(s, e), e.t, head, id)
  {
  }

  lemma UndrawnStays(s: State, e: Event, head: Id, id: Id)
    requires Blocked(s, head) && Undrawn(s.tasks, id, head) && !Frees(e)
    ensures Undrawn(Step(s, e).tasks, id, head)
    ensures forall b :: Handed(id, b) in Step(s, e).outcomes ==> Handed(id, b) in s.outcomes
  {
    HandsOverWhatItHolds(s, e, id);
    var r := Step(s, e);
    if e.Sweep? || e.SetBusy? {
      assert r.tasks == s.tasks;
    } else {
      if e.DeleteRow? || e.RemoveEntry? || e.RemoveDir? {
        DeletionMovesUndrawn(s, e, head, id);
      } else if e.Schedule? || e.UnguardedDrain? || e.LoopTest? || e.Deliver? || e.DoneCallback? || e.Fail? {
        DrainMovesUndrawn(s, e, head, id);
      } else {
        StoreMovesUndrawn(s, e, head, id);
      }
      hide Step, Undrawn, Draws, Blocked;
      UndrawnMoves(s.tasks, id, head, e.t, DrainTop);
      if e.t in r.tasks {
        UndrawnMoves(s.tasks, id, head, e.t, r.tasks[e.t]);
      }
    }
  }

  predicate NeverFrees(events: seq<Event>) {
    forall i :: 0 <= i < |events| ==> !Frees(events[i])
  }

  lemma {:induction false} BlockedRun(s: State, events: seq<Event>, head: Id, id: Id)
    requires Blocked(s, head) && Undrawn(s.tasks, id, head) && NeverFrees(events)
    ensures Blocked(Run(s, events), head)
    ensures forall b :: Handed(id, b) in Run(s, events).outcomes ==> Handed(id, b) in s.outcomes
    decreases events
  {
    if events != [] {
      BlockedStays(s, events[0], head);
      UndrawnStays(s, events[0], head, id);
      hide Blocked, Undrawn, Step;
      BlockedRun(Step(s, events[0]), events[1..], head, id);
    }
  }

  lemma HeadIsIssued(events: seq<Event>, head: Id)
    requires head in Members(Run(START, events).mirror)
    ensures head in Run(START, events).issued
    ensures forall t :: t in Run(START, events).tasks && Run(START, events).tasks[t].Spilled? ==>
      Run(START, events).tasks[t].id != head
  {
    StartIsSafe();
    RunDirectories(START, events);
    hide Run, RowsOwned, Spills;
  }

  /**
   * From any reachable state whose mirror head has no row, and whose deletion is not about
   * to remove it: in no continuation without a clear, a restart or an entry filed in front
   * of it does the head leave, and no message is handed over, queued now or later, but
   * those a drain loop had already got hold of.
   */
  lemma DrainNeedsHeadRow(before: seq<Event>, after: seq<Event>, head: Id, id: Id)
    requires Run(START, before).mirror != [] && Run(START, before).mirror[0] == head
    requires !Backed(Run(START, before), head) && Undrawn(Run(START, before).tasks, id, head) && NeverFrees(after)
    ensures
      var s, t := Run(START, before), Run(START, before + after);
      && t.mirror != [] && t.mirror[0] == head && head !in t.table
      && forall b :: Handed(id, b) in t.outcomes ==> Handed(id, b) in s.outcomes
  {
    var s := Run(START, before);
    assert head in Members(s.mirror);
    HeadIsIssued(before, head);
    RunAppend(START, before, after);
    hide Run, Members;
    BlockedRun(s, after, head, id);
  }

  // ---- A run that leaves the queue blocked ---------------------------------------------------------

  /** An enqueue whose row a whole clear removes before its mirror entry is added. */
  lemma OvertakenEnqueue() returns (events: seq<Event>, s: State)
    ensures s == Run(START, events)
    ensures s.table == map[] && s.mirror == [] && s.issued == {1} && s.callbacks == {} && s.outcomes == []
    ensures s.tasks == map[0 := Inserted(1), 1 := RemovingDirs([])]
  {
    events, s := [], START;
    assert Run(START, events) == s;
    hide Run;
    events, s := Next(events, s, BeginEnqueue(0, 1, false));
    events, s := Next(events, s, InsertRow(0));
    assert s == START.(tasks := map[0 := Inserted(1)], table := map[1 := false], issued := {1});
    events, s := Next(events, s, BeginClear(1));
    events, s := Next(events, s, DeleteRows(1));
    assert s == START.(tasks := map[0 := Inserted(1), 1 := RowsGone], issued := {1});
    events, s := Next(events, s, EmptyMirror(1));
    assert s.tasks == map[0 := Inserted(1), 1 := RemovingDirs([])];
  }

  /** The entry is then added without a row. */
  lemma RowlessHead() returns (events: seq<Event>, s: State)
    ensures s == Run(START, events)
    ensures s.mirror == [1] && s.table == map[] && s.issued == {1} && s.callbacks == {} && s.outcomes == []
    ensures s.tasks == map[1 := RemovingDirs([])]
  {
    hide Run;
    events, s := OvertakenEnqueue();
    events, s := Next(events, s, AddEntry(0, 0));
  }

  /** A later message is queued behind it. */
  lemma QueueBehindRowless() returns (events: seq<Event>, s: State)
    ensures s == Run(START, events)
    ensures s.tasks == map[1 := RemovingDirs([])] && s.mirror == [1, 2] && s.table == map[2 := false] && s.outcomes == []
  {
    hide Run;
    events, s := RowlessHead();
    events, s := Next(events, s, BeginEnqueue(2, 2, false));
    events, s := Next(events, s, InsertRow(2));
    assert s.tasks == map[1 := RemovingDirs([]), 2 := Inserted(2)] && s.mirror == [1] && s.table == map[2 := false];
    events, s := Next(events, s, AddEntry(2, 1));
  }

  /**
   * There the later message is handed over in no continuation without a clear, a restart or
   * an entry filed in front of both.
   */
  lemma ClearedEnqueueBlocksQueue(after: seq<Event>) returns (events: seq<Event>, s: State)
    requires NeverFrees(after)
    ensures s == Run(START, events)
    ensures s.mirror == [1, 2] && 1 !in s.table && 2 in s.table
    ensures Run(START, events + after).mirror != [] && Run(START, events + after).mirror[0] == 1
    ensures forall b :: Handed(2, b) !in Run(START, events + after).outcomes
  {
    events, s := QueueBehindRowless();
    hide Run, NeverFrees, Step, Frees;
    DrainNeedsHeadRow(events, after, 1, 2);
  }
}
