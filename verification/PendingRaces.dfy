// The queued-message protocol where it does not keep what its documentation promises.
module PendingRaces {
  import opened Collections
  import opened PendingProtocol
  import opened PendingOwnership
  import opened PendingClear

  // ---- A clear racing an enqueue -------------------------------------------------

  function RemoveDirs(s: State, t: TaskId, n: nat): State
    decreases n
  {
    if n == 0 then s else RemoveDirs(Step(s, RemoveClearedDir(t)), t, n - 1)
  }

  /** A half-done clear runs to its end with nothing in between. */
  function FinishClear(s: State, t: TaskId): State {
    RemoveDirs(Step(s, EmptyMirror(t)), t, |s.mirror|)
  }

  lemma {:induction false} RemoveDirsDisk(s: State, t: TaskId, n: nat)
    requires At(s, t) && s.tasks[t].RemovingDirs? && |s.tasks[t].dropped| == n
    ensures RemoveDirs(s, t, n).table == s.table
    ensures RemoveDirs(s, t, n).disk == s.disk - Members(s.tasks[t].dropped)
    decreases n
  {
    var dropped := s.tasks[t].dropped;
    if n > 0 {
      RemoveDirsDisk(Step(s, RemoveClearedDir(t)), t, n - 1);
      assert dropped == [dropped[0]] + dropped[1..];
      MembersSplit([dropped[0]], dropped[1..]);
    }
  }

  /**
   * Finishing a clear keeps every live row's directory if and only if no mirrored
   * message has a live row with attachments when the mirror is emptied.
   */
  lemma FinishClearSafeIff(s: State, t: TaskId)
    requires At(s, t) && s.tasks[t].RowsGone? && RowsHaveDirectories(s)
    ensures FinishClear(s, t).table == s.table
    ensures RowsHaveDirectories(FinishClear(s, t)) <==> forall id :: id in s.mirror && id in s.table ==> !s.table[id]
  {
    RemoveDirsDisk(Step(s, EmptyMirror(t)), t, |s.mirror|);
  }

  /** One more event of a run under construction. */
  lemma Next(events: seq<Event>, s: State, e: Event) returns (longer: seq<Event>, t: State)
    requires Run(START, events) == s
    ensures longer == events + [e] && t == Step(s, e) && Run(START, longer) == t
  {
    longer, t := events + [e], Step(s, e);
    RunAppend(START, events, [e]);
    assert [e][1..] == [];
  }

  /** A clear that has deleted the rows and not yet emptied the mirror. */
  lemma HalfClear() returns (events: seq<Event>, s: State)
    ensures s == Run(START, events)
    ensures s == START.(tasks := map[0 := RowsGone])
  {
    events, s := [], START;
    assert Run(START, events) == s;
    hide Run;
    events, s := Next(events, s, BeginClear(0));
    events, s := Next(events, s, DeleteRows(0));
    assert s.tasks == map[0 := RowsGone];
  }

  /**
   * It is not always so: an enqueue that commits and mirrors its message between a
   * clear's row deletion and its mirror clearing loses its attachments while its row lives.
   */
  lemma ClearRacesEnqueue() returns (events: seq<Event>, s: State)
    ensures s == Run(START, events)
    ensures 7 in s.table && s.table[7] && 7 !in s.disk
  {
    hide Run;
    events, s := HalfClear();
    events, s := Next(events, s, BeginEnqueue(1, 7, true));
    events, s := Next(events, s, InsertRow(1));
    assert s == START.(tasks := map[0 := RowsGone, 1 := Inserted(7)], table := map[7 := true], disk := {7}, issued := {7});
    events, s := Next(events, s, AddEntry(1, 0));
    assert s.mirror == [7] && s.table == map[7 := true] && At(s, 0) && s.tasks[0] == RowsGone;
    events, s := Next(events, s, EmptyMirror(0));
    events, s := Next(events, s, RemoveClearedDir(0));
  }

  // ---- Sweeping while an enqueue is under way -------------------------------------

  /** The orphan sweep run at any time, not only at startup. */
  function SweepNow(s: State): State {
    s.(disk := s.disk * s.table.Keys)
  }

  /** Rows and spilled enqueues have a directory exactly if they have attachments. */
  ghost predicate Attached(s: State) {
    Spills(s) && RowsHaveDirectories(s)
  }

  /** A sweep is harmless if and only if no enqueue has spilled attachments it has not committed yet. */
  lemma SweepSafeIff(s: State)
    requires Attached(s) && RowsOwned(s)
    ensures Attached(SweepNow(s)) <==> forall t :: t in s.tasks && s.tasks[t].Spilled? ==> !s.tasks[t].hasAttachments
  {
    forall t | t in s.tasks && s.tasks[t].Spilled?
      ensures s.tasks[t].id !in s.table
    {
      assert RowHeld(s.tasks[t]) == Some(s.tasks[t].id);
    }
    hide RowsOwned, Owned, Members;
  }
}
