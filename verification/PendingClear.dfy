// Clears and attachment directories in the queued-message protocol, over every interleaving:
// what a clear must not find in the mirror, for cleared messages to be gone for good and
// for live rows to keep their directories.
module PendingClear {
  import opened Collections
  import opened PendingProtocol
  import opened PendingOwnership

  /** The id whose mirror entry this task is about to create or has taken out of the mirror. */
  function EntryHeld(task: Task): Option<Id> {
    match task
    case Spilled(id, _) => Some(id)
    case Inserted(id) => Some(id)
    case EntryGone(id, found, _) => if found then Some(id) else None
    case Handing(id) => Some(id)
    case _ => None
  }

  function Members(s: seq<Id>): set<Id> {
    set i | 0 <= i < |s| :: s[i]
  }

  // ---- One owner per mirror entry ---------------------------------------------------

  /** Mirror, holding tasks and `gone` share no id, and no two tasks hold the same one. */
  ghost predicate Placed(mirror: set<Id>, tasks: map<TaskId, Task>, issued: set<Id>, gone: set<Id>) {
    && (forall t :: t in tasks && EntryHeld(tasks[t]).Some? ==> EntryHeld(tasks[t]).value in issued - mirror - gone)
    && (forall t, u :: t in tasks && u in tasks && t != u && EntryHeld(tasks[t]).Some? ==>
         EntryHeld(tasks[t]) != EntryHeld(tasks[u]))
    && mirror <= issued && gone <= issued && mirror !! gone
  }

  /** A cleared message was dropped once, never left otherwise, and has no row to come back from. */
  ghost predicate ClearedGone(s: State) {
    && Distinct(s.cleared)
    && Members(s.cleared) !! OutcomeIds(s.outcomes)
    && Members(s.cleared) !! s.table.Keys
  }

  function Gone(s: State): set<Id> {
    OutcomeIds(s.outcomes) + Members(s.cleared)
  }

  ghost predicate EntriesOwned(s: State) {
    Placed(Members(s.mirror), s.tasks, s.issued, Gone(s)) && Distinct(s.mirror) && ClearedGone(s)
  }

  lemma PlacedSameHolder(mirror: set<Id>, tasks: map<TaskId, Task>, issued: set<Id>, gone: set<Id>, t: TaskId, k: Task)
    requires Placed(mirror, tasks, issued, gone)
    requires EntryHeld(k) == None || (t in tasks && EntryHeld(k) == EntryHeld(tasks[t]))
    ensures Placed(mirror, tasks[t := k], issued, gone)
  {
  }

  lemma PlacedDropTask(mirror: set<Id>, tasks: map<TaskId, Task>, issued: set<Id>, gone: set<Id>, t: TaskId)
    requires Placed(mirror, tasks, issued, gone)
    ensures Placed(mirror, tasks - {t}, issued, gone)
  {
  }

  lemma PlacedNewId(mirror: set<Id>, tasks: map<TaskId, Task>, issued: set<Id>, gone: set<Id>, t: TaskId, k: Task, id: Id)
    requires Placed(mirror, tasks, issued, gone) && t !in tasks && id !in issued && EntryHeld(k) == Some(id)
    ensures Placed(mirror, tasks[t := k], issued + {id}, gone)
  {
  }

  lemma PlacedAdd(mirror: set<Id>, tasks: map<TaskId, Task>, issued: set<Id>, gone: set<Id>, t: TaskId, id: Id)
    requires Placed(mirror, tasks, issued, gone) && t in tasks && EntryHeld(tasks[t]) == Some(id)
    ensures Placed(mirror + {id}, tasks - {t}, issued, gone) && id !in mirror
  {
  }

  lemma PlacedRemove(mirror: set<Id>, tasks: map<TaskId, Task>, issued: set<Id>, gone: set<Id>, t: TaskId, k: Task, id: Id)
    requires Placed(mirror, tasks, issued, gone) && t in tasks && id in mirror && EntryHeld(k) == Some(id)
    ensures Placed(mirror - {id}, tasks[t := k], issued, gone)
  {
  }

  lemma PlacedGiveAway(mirror: set<Id>, tasks: map<TaskId, Task>, issued: set<Id>, gone: set<Id>, t: TaskId, id: Id)
    requires Placed(mirror, tasks, issued, gone) && t in tasks && EntryHeld(tasks[t]) == Some(id)
    ensures Placed(mirror, tasks - {t}, issued, gone + {id}) && id !in gone
  {
  }

  lemma PlacedEmpty(mirror: set<Id>, tasks: map<TaskId, Task>, issued: set<Id>, gone: set<Id>)
    requires Placed(mirror, tasks, issued, gone)
    ensures Placed({}, tasks, issued, gone + mirror)
  {
  }

  lemma {:induction false} RemoveFirstMembers(s: seq<Id>, id: Id)
    requires Distinct(s)
    ensures Distinct(RemoveFirst(s, id)) && Members(RemoveFirst(s, id)) == Members(s) - {id}
  {
    if s != [] {
      RemoveFirstMembers(s[1..], id);
      MembersSplit([s[0]], s[1..]);
      assert s == [s[0]] + s[1..];
      assert s[0] !in Members(s[1..]);
      if s[0] != id {
        MembersSplit([s[0]], RemoveFirst(s[1..], id));
        DistinctAppend([s[0]], RemoveFirst(s[1..], id));
      }
    }
  }

  lemma MembersSplit(a: seq<Id>, b: seq<Id>)
    ensures Members(a + b) == Members(a) + Members(b)
  {
    forall x
      ensures x in Members(a + b) <==> x in Members(a) + Members(b)
    {
      if x in Members(a) {
        var i :| 0 <= i < |a| && a[i] == x;
        assert (a + b)[i] == x;
      } else if x in Members(b) {
        var i :| 0 <= i < |b| && b[i] == x;
        assert (a + b)[|a| + i] == x;
      }
    }
  }

  lemma DistinctAppend(a: seq<Id>, b: seq<Id>)
    requires Distinct(a) && Distinct(b) && Members(a) !! Members(b)
    ensures Distinct(a + b)
  {
    forall i, j | 0 <= i < |a| && 0 <= j < |b|
      ensures a[i] != b[j]
    {
      assert a[i] in Members(a) && b[j] in Members(b);
    }
  }

  lemma DistinctInsert(s: seq<Id>, at: nat, id: Id)
    requires Distinct(s) && at <= |s| && id !in Members(s)
    ensures Distinct(s[..at] + [id] + s[at..]) && Members(s[..at] + [id] + s[at..]) == Members(s) + {id}
  {
    var r := s[..at] + [id] + s[at..];
    forall i | 0 <= i < |s|
      ensures s[i] != id
    {
      assert s[i] in Members(s);
    }
    forall i, j | 0 <= i < j < |r|
      ensures r[i] != r[j]
    {
      assert i < at ==> r[i] == s[i];
      assert i > at ==> r[i] == s[i - 1];
      assert j < at ==> r[j] == s[j];
      assert j > at ==> r[j] == s[j - 1];
    }
    assert Distinct(r);
    assert Members([id]) == {id} by { assert [id][0] == id; }
    hide Distinct, Members;
    MembersSplit(s[..at], s[at..]);
    assert s == s[..at] + s[at..];
    MembersSplit(s[..at], [id]);
    MembersSplit(s[..at] + [id], s[at..]);
  }

  lemma ClearedGoneSame(s: State, r: State)
    requires ClearedGone(s)
    requires r.cleared == s.cleared && r.outcomes == s.outcomes && r.table.Keys <= s.table.Keys
    ensures ClearedGone(r)
  {
  }

  lemma EnqueueEntriesOwned(s: State, e: Event)
    requires EntriesOwned(s) && (e.BeginEnqueue? || e.InsertRow? || e.AddEntry?)
    ensures EntriesOwned(Step(s, e))
  {
    var mirror, gone, r := Members(s.mirror), Gone(s), Step(s, e);
    match e
    case BeginEnqueue(t, id, att) =>
      if FreshTask(s, t) && id !in s.issued {
        PlacedNewId(mirror, s.tasks, s.issued, gone, t, Spilled(id, att), id);
        hide Placed;
        ClearedGoneSame(s, r);
      }
    case InsertRow(t) =>
      if At(s, t) && s.tasks[t].Spilled? {
        var id := s.tasks[t].id;
        assert EntryHeld(s.tasks[t]) == Some(id) && id !in gone;
        PlacedSameHolder(mirror, s.tasks, s.issued, gone, t, Inserted(id));
        hide Placed, OutcomeIds, Members;
        assert r.table.Keys == s.table.Keys + {id};
      }
    case AddEntry(t, at) =>
      if At(s, t) && s.tasks[t].Inserted? && at <= |s.mirror| {
        var id := s.tasks[t].id;
        PlacedAdd(mirror, s.tasks, s.issued, gone, t, id);
        DistinctInsert(s.mirror, at, id);
        hide Placed, OutcomeIds, Members;
      }
  }

  lemma DeleteEntriesOwned(s: State, e: Event)
    requires EntriesOwned(s) && (e.BeginCancel? || e.DeleteRow? || e.RemoveEntry?)
    ensures EntriesOwned(Step(s, e))
  {
    var mirror, gone, r := Members(s.mirror), Gone(s), Step(s, e);
    var t := e.t;
    match e
    case BeginCancel(_, id) =>
      if FreshTask(s, t) {
        PlacedSameHolder(mirror, s.tasks, s.issued, gone, t, Deleting(id, UserCancel));
        hide Placed;
        ClearedGoneSame(s, r);
      }
    case DeleteRow(_) =>
      if At(s, t) && s.tasks[t].Deleting? {
        var k := RowGone(s.tasks[t].id, s.tasks[t].why);
        PlacedDropTask(mirror, s.tasks, s.issued, gone, t);
        PlacedSameHolder(mirror, s.tasks, s.issued, gone, t, k);
        hide Placed;
        ClearedGoneSame(s, r);
      }
    case RemoveEntry(_) =>
      if At(s, t) && s.tasks[t].RowGone? {
        var id := s.tasks[t].id;
        var k := EntryGone(id, id in s.mirror, s.tasks[t].why);
        RemoveFirstMembers(s.mirror, id);
        assert id in s.mirror <==> id in mirror;
        if id in s.mirror {
          PlacedRemove(mirror, s.tasks, s.issued, gone, t, k, id);
        } else {
          PlacedSameHolder(mirror, s.tasks, s.issued, gone, t, k);
          assert mirror - {id} == mirror;
        }
        hide Placed, OutcomeIds, Members;
      }
  }

  /** The holder of a message gives it away as outcome `o`, and goes on as `k` or ends. */
  lemma OutcomeEntriesOwned(s: State, r: State, t: TaskId, o: Outcome)
    requires EntriesOwned(s) && RowsOwned(s) && At(s, t) && EntryHeld(s.tasks[t]) == Some(o.id)
    requires r.outcomes == s.outcomes + [o]
    requires r.mirror == s.mirror && r.cleared == s.cleared && r.table == s.table && r.issued == s.issued
    requires r.tasks == s.tasks - {t} || r.tasks == s.tasks[t := DrainTop]
    ensures EntriesOwned(r)
  {
    var mirror, gone := Members(s.mirror), Gone(s);
    assert o.id !in OutcomeIds(s.outcomes) && o.id !in Members(s.cleared);
    PlacedGiveAway(mirror, s.tasks, s.issued, gone, t, o.id);
    OutcomeAppended(s.outcomes, o);
    hide Placed, OutcomeIds, Members, RowsOwned;
    PlacedSameHolder(mirror, s.tasks - {t}, s.issued, gone + {o.id}, t, DrainTop);
    assert (s.tasks - {t})[t := DrainTop] == s.tasks[t := DrainTop];
    assert Gone(r) == gone + {o.id};
  }

  lemma DeliverEntriesOwned(s: State, t: TaskId, raised: bool)
    requires EntriesOwned(s) && RowsOwned(s) && At(s, t) && s.tasks[t].Handing?
    ensures EntriesOwned(Step(s, Deliver(t, raised)))
  {
    hide EntriesOwned, RowsOwned;
    OutcomeEntriesOwned(s, Step(s, Deliver(t, raised)), t, Handed(s.tasks[t].id, s.tasks[t].id in s.disk));
  }

  lemma RemoveDirEntriesOwned(s: State, t: TaskId)
    requires EntriesOwned(s) && RowsOwned(s) && At(s, t) && s.tasks[t].EntryGone?
    ensures EntriesOwned(Step(s, RemoveDir(t)))
  {
    var mirror, gone, r, id := Members(s.mirror), Gone(s), Step(s, RemoveDir(t)), s.tasks[t].id;
    if s.tasks[t].found && s.tasks[t].why.UserCancel? {
      hide EntriesOwned, RowsOwned;
      OutcomeEntriesOwned(s, r, t, CancelReturned(id));
    } else {
      PlacedDropTask(mirror, s.tasks, s.issued, gone, t);
      if s.tasks[t].found {
        PlacedSameHolder(mirror, s.tasks, s.issued, gone, t, Handing(id));
      }
      hide Placed, OutcomeIds, Members, RowsOwned;
      ClearedGoneSame(s, r);
    }
  }

  /** The mirror is emptied over a message that still has, or has again, a row. */
  ghost predicate DropsRow(s: State, e: Event) {
    e.EmptyMirror? && At(s, e.t) && s.tasks[e.t].RowsGone? && !(Members(s.mirror) !! s.table.Keys)
  }

  lemma EmptyMirrorEntriesOwned(s: State, t: TaskId)
    requires EntriesOwned(s) && At(s, t) && s.tasks[t].RowsGone?
    ensures if DropsRow(s, EmptyMirror(t)) then !ClearedGone(Step(s, EmptyMirror(t))) else EntriesOwned(Step(s, EmptyMirror(t)))
  {
    var mirror, gone, r := Members(s.mirror), Gone(s), Step(s, EmptyMirror(t));
    PlacedSameHolder(mirror, s.tasks, s.issued, gone, t, RemovingDirs(s.mirror));
    PlacedEmpty(mirror, r.tasks, s.issued, gone);
    MembersSplit(s.cleared, s.mirror);
    assert mirror !! gone;
    assert Members([]) == {};
    hide Placed, OutcomeIds;
    DistinctAppend(s.cleared, s.mirror);
    hide Members;
    assert Gone(r) == gone + mirror;
  }

  predicate MovesOnly(e: Event) {
    e.BeginClear? || e.DeleteRows? || e.RemoveClearedDir? || e.Schedule? || e.UnguardedDrain? || e.LoopTest?
  }

  /** Events that only move a task which holds no mirror entry before or after. */
  lemma MovesOnlyShape(s: State, e: Event)
    requires MovesOnly(e)
    ensures
      var r := Step(s, e);
      && r.mirror == s.mirror && r.cleared == s.cleared && r.outcomes == s.outcomes && r.issued == s.issued
      && r.table.Keys <= s.table.Keys
      && (|| r.tasks == s.tasks
          || r.tasks == s.tasks - {e.t}
          || (e.t in r.tasks && r.tasks == s.tasks[e.t := r.tasks[e.t]] && EntryHeld(r.tasks[e.t]) == None))
  {
    hide Members;
  }

  lemma OtherEntriesOwned(s: State, e: Event)
    requires EntriesOwned(s) && MovesOnly(e)
    ensures EntriesOwned(Step(s, e))
  {
    var mirror, gone, r, t := Members(s.mirror), Gone(s), Step(s, e), e.t;
    MovesOnlyShape(s, e);
    hide Step;
    PlacedDropTask(mirror, s.tasks, s.issued, gone, t);
    if t in r.tasks {
      if EntryHeld(r.tasks[t]) == None {
        PlacedSameHolder(mirror, s.tasks, s.issued, gone, t, r.tasks[t]);
      }
    }
    hide Placed, OutcomeIds, Members;
  }

  /** A task that ends early keeps what it held out of the mirror for good. */
  lemma FailEntriesOwned(s: State, t: TaskId)
    requires EntriesOwned(s)
    ensures EntriesOwned(Step(s, Fail(t)))
  {
    PlacedDropTask(Members(s.mirror), s.tasks, s.issued, Gone(s), t);
    hide Placed, OutcomeIds, Members;
  }

  lemma RestartEntriesOwned(s: State, e: Event)
    requires EntriesOwned(s) && RowsOwned(s) && (e.Crash? || e.Sweep? || e.Load? || e.SetBusy? || e.DoneCallback?)
    ensures EntriesOwned(Step(s, e))
  {
    if e.Crash? {
      assert Members([]) == {};
    } else if e.Load? && Step(s, e) != s {
      assert Members(e.order) == s.table.Keys;
    }
  }

  lemma StepEntriesOwned(s: State, e: Event)
    requires EntriesOwned(s) && RowsOwned(s)
    ensures if DropsRow(s, e) then !ClearedGone(Step(s, e)) else EntriesOwned(Step(s, e))
  {
    hide EntriesOwned, RowsOwned, ClearedGone, Members;
    match e
    case BeginEnqueue(_, _, _) => EnqueueEntriesOwned(s, e);
    case InsertRow(_) => EnqueueEntriesOwned(s, e);
    case AddEntry(_, _) => EnqueueEntriesOwned(s, e);
    case BeginCancel(_, _) => DeleteEntriesOwned(s, e);
    case DeleteRow(_) => DeleteEntriesOwned(s, e);
    case RemoveEntry(_) => DeleteEntriesOwned(s, e);
    case RemoveDir(t) => if At(s, t) && s.tasks[t].EntryGone? { RemoveDirEntriesOwned(s, t); }
    case Deliver(t, raised) => if At(s, t) && s.tasks[t].Handing? { DeliverEntriesOwned(s, t, raised); }
    case EmptyMirror(t) => if At(s, t) && s.tasks[t].RowsGone? { EmptyMirrorEntriesOwned(s, t); }
    case BeginClear(_) => OtherEntriesOwned(s, e);
    case DeleteRows(_) => OtherEntriesOwned(s, e);
    case RemoveClearedDir(_) => OtherEntriesOwned(s, e);
    case Schedule(_, _) => OtherEntriesOwned(s, e);
    case UnguardedDrain(_) => OtherEntriesOwned(s, e);
    case LoopTest(_) => OtherEntriesOwned(s, e);
    case Fail(t) => FailEntriesOwned(s, t);
    case _ => RestartEntriesOwned(s, e);
  }

  ghost predicate AlwaysClearedGone(s: State, events: seq<Event>)
    decreases events
  {
    ClearedGone(s) && (events == [] || AlwaysClearedGone(Step(s, events[0]), events[1..]))
  }

  ghost predicate NeverDropsRow(s: State, events: seq<Event>)
    decreases events
  {
    events == [] || (!DropsRow(s, events[0]) && NeverDropsRow(Step(s, events[0]), events[1..]))
  }

  lemma {:induction false} ClearedGoneRunIff(s: State, events: seq<Event>)
    requires EntriesOwned(s) && RowsOwned(s)
    ensures AlwaysClearedGone(s, events) <==> NeverDropsRow(s, events)
    decreases events
  {
    assert ClearedGone(s);
    if events != [] {
      var r := Step(s, events[0]);
      StepEntriesOwned(s, events[0]);
      StepRowsOwned(s, events[0]);
      if DropsRow(s, events[0]) {
        assert !AlwaysClearedGone(r, events[1..]);
      } else {
        hide EntriesOwned, RowsOwned, DropsRow, ClearedGone, Step;
        ClearedGoneRunIff(r, events[1..]);
      }
    }
  }

  /**
   * In every interleaving with crashes and reloads: at every point each cleared message
   * was dropped once, has not been delivered nor returned by `cancel`, and has no row left,
   * exactly if no clear empties the mirror over a message with a row.
   */
  lemma ClearedGoneIff(events: seq<Event>)
    ensures AlwaysClearedGone(START, events) <==> NeverDropsRow(START, events)
  {
    ClearedGoneRunIff(START, events);
  }

  // ---- Attachment directories ---------------------------------------------------------

  ghost predicate RowsHaveDirectories(s: State) {
    forall id :: id in s.table && s.table[id] ==> id in s.disk
  }

  /** No clear under way is about to remove the directory of a live row. */
  ghost predicate NoneDoomed(s: State) {
    forall t :: t in s.tasks && s.tasks[t].RemovingDirs? ==> Spared(s.table, Members(s.tasks[t].dropped))
  }

  ghost predicate Spared(table: map<Id, bool>, ids: set<Id>) {
    forall id :: id in ids && id in table ==> !table[id]
  }

  ghost predicate DirectoriesSafe(s: State) {
    RowsHaveDirectories(s) && NoneDoomed(s)
  }

  /** The mirror is emptied over a live row with attachments. */
  ghost predicate DropsAttached(s: State, e: Event) {
    e.EmptyMirror? && At(s, e.t) && s.tasks[e.t].RowsGone? && !Spared(s.table, Members(s.mirror))
  }

  /** The ids this task knows whose row was inserted at some time. */
  function PastInsertion(task: Task): set<Id> {
    match task
    case Inserted(id) => {id}
    case RemovingDirs(dropped) => Members(dropped)
    case _ => {}
  }

  ghost predicate Apart(tasks: map<TaskId, Task>, mirror: set<Id>, issued: set<Id>) {
    && mirror <= issued
    && (forall t :: t in tasks ==> PastInsertion(tasks[t]) <= issued)
    && (forall t, u :: t in tasks && u in tasks && tasks[t].Spilled? ==>
          tasks[t].id !in mirror + PastInsertion(tasks[u]))
  }

  /** In every run: an enqueue that has spilled has its directory, a row without attachments has none. */
  ghost predicate Spills(s: State) {
    && s.disk <= s.issued
    && (forall id :: id in s.table && id in s.disk ==> s.table[id])
    && (forall t :: t in s.tasks && s.tasks[t].Spilled? ==> (s.tasks[t].hasAttachments <==> s.tasks[t].id in s.disk))
  }

  ghost predicate DirInv(s: State) {
    Spills(s) && Apart(s.tasks, Members(s.mirror), s.issued)
  }

  lemma ApartMoves(tasks: map<TaskId, Task>, mirror: set<Id>, issued: set<Id>, t: TaskId, k: Task)
    requires Apart(tasks, mirror, issued)
    ensures Apart(tasks - {t}, mirror, issued)
    ensures !k.Spilled? && (PastInsertion(k) == {} || (t in tasks && PastInsertion(k) <= PastInsertion(tasks[t])))
      ==> Apart(tasks[t := k], mirror, issued)
    ensures !k.Spilled? && PastInsertion(k) == mirror ==> Apart(tasks[t := k], mirror, issued)
  {
  }

  lemma ApartFewer(tasks: map<TaskId, Task>, mirror: set<Id>, issued: set<Id>, fewer: set<Id>)
    requires Apart(tasks, mirror, issued) && fewer <= mirror
    ensures Apart(tasks, fewer, issued)
  {
  }

  lemma ApartEnqueue(s: State, e: Event)
    requires DirInv(s) && RowsOwned(s) && (e.BeginEnqueue? || e.InsertRow? || e.AddEntry?)
    ensures Apart(Step(s, e).tasks, Members(Step(s, e).mirror), Step(s, e).issued)
  {
    if e.BeginEnqueue? || (At(s, e.t) && s.tasks[e.t].Spilled?) {
      assert forall u :: u in s.tasks && s.tasks[u].Spilled? ==> RowHeld(s.tasks[u]) == Some(s.tasks[u].id);
      hide Members;
    } else if e.AddEntry? && At(s, e.t) && s.tasks[e.t].Inserted? && e.at <= |s.mirror| {
      assert PastInsertion(s.tasks[e.t]) == {s.tasks[e.t].id};
      hide RowsOwned, Spills;
      MembersInsert(s.mirror, e.at, s.tasks[e.t].id);
      hide Members;
    }
  }

  lemma MembersInsert(s: seq<Id>, at: nat, id: Id)
    requires at <= |s|
    ensures Members(s[..at] + [id] + s[at..]) == Members(s) + {id}
  {
    assert Members([id]) == {id} by { assert [id][0] == id; }
    hide Members;
    MembersSplit(s[..at], s[at..]);
    assert s == s[..at] + s[at..];
    MembersSplit(s[..at], [id]);
    MembersSplit(s[..at] + [id], s[at..]);
  }

  lemma {:induction false} RemoveFirstFewer(s: seq<Id>, id: Id)
    ensures Members(RemoveFirst(s, id)) <= Members(s)
  {
    if s != [] {
      assert s == [s[0]] + s[1..];
      MembersSplit([s[0]], s[1..]);
      if s[0] != id {
        RemoveFirstFewer(s[1..], id);
        MembersSplit([s[0]], RemoveFirst(s[1..], id));
      }
    }
  }

  lemma MembersTail(s: seq<Id>)
    requires s != []
    ensures s[0] in Members(s) && Members(s[1..]) <= Members(s)
    ensures Members(s) == {s[0]} + Members(s[1..])
  {
    assert s == [s[0]] + s[1..];
    MembersSplit([s[0]], s[1..]);
    assert Members([s[0]]) == {s[0]} by { assert [s[0]][0] == s[0]; }
  }

  lemma ApartMirrorShrinks(s: State, e: Event)
    requires e.RemoveEntry? || e.EmptyMirror?
    requires DirInv(s) && At(s, e.t) && if e.RemoveEntry? then s.tasks[e.t].RowGone? else s.tasks[e.t].RowsGone?
    ensures Apart(Step(s, e).tasks, Members(Step(s, e).mirror), Step(s, e).issued)
  {
    var mirror, t, r := Members(s.mirror), e.t, Step(s, e);
    hide Apart, Members, Spills;
    if e.RemoveEntry? {
      ApartMoves(s.tasks, mirror, s.issued, t, EntryGone(s.tasks[t].id, s.tasks[t].id in s.mirror, s.tasks[t].why));
      RemoveFirstFewer(s.mirror, s.tasks[t].id);
    } else {
      ApartMoves(s.tasks, mirror, s.issued, t, RemovingDirs(s.mirror));
      NoMembers();
    }
    ApartFewer(r.tasks, mirror, s.issued, Members(r.mirror));
  }

  lemma NoMembers()
    ensures Members([]) == {}
  {
  }

  lemma ApartRemoveCleared(s: State, t: TaskId)
    requires DirInv(s) && At(s, t) && s.tasks[t].RemovingDirs?
    ensures var r := Step(s, RemoveClearedDir(t)); Apart(r.tasks, Members(r.mirror), r.issued)
  {
    hide Apart, Members, Spills;
    ApartMoves(s.tasks, Members(s.mirror), s.issued, t, DrainTop);
    if s.tasks[t].dropped != [] {
      MembersTail(s.tasks[t].dropped);
      ApartMoves(s.tasks, Members(s.mirror), s.issued, t, RemovingDirs(s.tasks[t].dropped[1..]));
    }
  }

  /** One task moved, and knows no inserted id afterwards. */
  predicate TaskMoved(s: State, r: State, t: TaskId) {
    && r.mirror == s.mirror && r.issued == s.issued
    && (|| r.tasks == s.tasks
        || r.tasks == s.tasks - {t}
        || (t in r.tasks && r.tasks == s.tasks[t := r.tasks[t]]
            && !r.tasks[t].Spilled? && PastInsertion(r.tasks[t]) == {}))
  }

  predicate DeletionMove(e: Event) {
    e.BeginCancel? || e.DeleteRow? || e.RemoveDir? || e.Deliver?
  }

  predicate OtherMove(e: Event) {
    e.BeginClear? || e.DeleteRows? || e.Schedule? || e.UnguardedDrain? || e.LoopTest? || e.Fail?
  }

  lemma DeletionMoved(s: State, e: Event)
    requires DeletionMove(e)
    ensures TaskMoved(s, Step(s, e), e.t)
  {
    hide Members;
  }

  lemma OtherMoved(s: State, e: Event)
    requires OtherMove(e)
    ensures TaskMoved(s, Step(s, e), e.t)
  {
    hide Members;
  }

  lemma ApartTaskMoved(s: State, e: Event)
    requires DirInv(s) && (DeletionMove(e) || OtherMove(e))
    ensures Apart(Step(s, e).tasks, Members(Step(s, e).mirror), Step(s, e).issued)
  {
    var r := Step(s, e);
    if DeletionMove(e) {
      DeletionMoved(s, e);
    } else {
      OtherMoved(s, e);
    }
    hide Apart, Members, Spills, Step, PastInsertion;
    ApartMoves(s.tasks, Members(s.mirror), s.issued, e.t, DrainTop);
    if e.t in r.tasks {
      ApartMoves(s.tasks, Members(s.mirror), s.issued, e.t, r.tasks[e.t]);
    }
  }

  lemma ApartRestart(s: State, e: Event)
    requires DirInv(s) && RowsOwned(s) && (e.Crash? || e.Sweep? || e.Load? || e.SetBusy? || e.DoneCallback?)
    ensures Apart(Step(s, e).tasks, Members(Step(s, e).mirror), Step(s, e).issued)
  {
    hide Spills;
    if e.Load? && Step(s, e) != s {
      assert Members(e.order) == s.table.Keys;
      hide Members;
    } else if e.Crash? {
      NoMembers();
    }
  }

  lemma StepApart(s: State, e: Event)
    requires DirInv(s) && RowsOwned(s)
    ensures Apart(Step(s, e).tasks, Members(Step(s, e).mirror), Step(s, e).issued)
  {
    hide DirInv, RowsOwned;
    match e
    case BeginEnqueue(_, _, _) => ApartEnqueue(s, e);
    case InsertRow(_) => ApartEnqueue(s, e);
    case AddEntry(_, _) => ApartEnqueue(s, e);
    case RemoveEntry(t) => if At(s, t) && s.tasks[t].RowGone? { ApartMirrorShrinks(s, e); } else { ApartNow(s); }
    case EmptyMirror(t) => if At(s, t) && s.tasks[t].RowsGone? { ApartMirrorShrinks(s, e); } else { ApartNow(s); }
    case RemoveClearedDir(t) => if At(s, t) && s.tasks[t].RemovingDirs? { ApartRemoveCleared(s, t); } else { ApartNow(s); }
    case Crash => ApartRestart(s, e);
    case Sweep => ApartRestart(s, e);
    case Load(_) => ApartRestart(s, e);
    case SetBusy(_) => ApartRestart(s, e);
    case DoneCallback(_) => ApartRestart(s, e);
    case _ => ApartTaskMoved(s, e);
  }

  lemma ApartNow(s: State)
    requires DirInv(s)
    ensures Apart(s.tasks, Members(s.mirror), s.issued)
  {
  }

  /** Removing the directory of an id no spilled enqueue holds. */
  lemma SpillsWithout(s: State, r: State, id: Id)
    requires Spills(s)
    requires forall t :: t in s.tasks && s.tasks[t].Spilled? ==> s.tasks[t].id != id
    requires r.table == s.table && r.disk == s.disk - {id} && r.issued == s.issued
    requires forall t :: t in r.tasks && r.tasks[t].Spilled? ==> t in s.tasks && s.tasks[t] == r.tasks[t]
    ensures Spills(r)
  {
  }

  lemma NotHeldElsewhere(s: State, t: TaskId)
    requires RowsOwned(s) && At(s, t) && s.tasks[t].EntryGone?
    ensures s.tasks[t].id !in s.table
    ensures forall u :: u in s.tasks && s.tasks[u].Spilled? ==> s.tasks[u].id != s.tasks[t].id
  {
    assert RowHeld(s.tasks[t]) == Some(s.tasks[t].id);
    forall u | u in s.tasks && s.tasks[u].Spilled?
      ensures s.tasks[u].id != s.tasks[t].id
    {
      assert RowHeld(s.tasks[u]) == Some(s.tasks[u].id);
    }
  }

  lemma SpillsRemoveDir(s: State, t: TaskId)
    requires DirInv(s) && RowsOwned(s) && At(s, t) && s.tasks[t].EntryGone?
    ensures Spills(Step(s, RemoveDir(t)))
  {
    NotHeldElsewhere(s, t);
    hide RowsOwned, Apart, Spills;
    SpillsWithout(s, Step(s, RemoveDir(t)), s.tasks[t].id);
  }

  lemma SpillsRemoveCleared(s: State, t: TaskId)
    requires DirInv(s) && At(s, t) && s.tasks[t].RemovingDirs? && s.tasks[t].dropped != []
    ensures Spills(Step(s, RemoveClearedDir(t)))
  {
    var id := s.tasks[t].dropped[0];
    MembersTail(s.tasks[t].dropped);
    hide Members, Spills;
    assert id in PastInsertion(s.tasks[t]);
    assert forall u :: u in s.tasks && s.tasks[u].Spilled? ==> s.tasks[u].id != id;
    hide Apart;
    SpillsWithout(s, Step(s, RemoveClearedDir(t)), id);
  }

  lemma SpillsEnqueue(s: State, e: Event)
    requires Spills(s) && RowsOwned(s) && (e.BeginEnqueue? || e.InsertRow?)
    ensures Spills(Step(s, e))
  {
    if e.BeginEnqueue? {
      assert forall u :: u in s.tasks && s.tasks[u].Spilled? ==> RowHeld(s.tasks[u]) == Some(s.tasks[u].id);
    }
  }

  lemma StepSpills(s: State, e: Event)
    requires DirInv(s) && RowsOwned(s)
    ensures Spills(Step(s, e))
  {
    hide RowsOwned, Apart, Members;
    match e
    case BeginEnqueue(_, _, _) => SpillsEnqueue(s, e);
    case InsertRow(_) => SpillsEnqueue(s, e);
    case RemoveDir(t) => if At(s, t) && s.tasks[t].EntryGone? { SpillsRemoveDir(s, t); }
    case RemoveClearedDir(t) =>
      if At(s, t) && s.tasks[t].RemovingDirs? && s.tasks[t].dropped != [] {
        SpillsRemoveCleared(s, t);
      }
    case Sweep => SpillsSweep(s);
    case _ => SpillsOther(s, e);
  }

  lemma SpillsSweep(s: State)
    requires Spills(s)
    ensures Spills(Step(s, Sweep))
  {
  }

  lemma SpillsOther(s: State, e: Event)
    requires Spills(s) && !e.BeginEnqueue? && !e.InsertRow? && !e.RemoveDir? && !e.RemoveClearedDir? && !e.Sweep?
    ensures Spills(Step(s, e))
  {
    hide RemoveFirst;
  }

  lemma DirectoriesAfterRemoval(s: State, e: Event)
    requires RowsOwned(s) && DirectoriesSafe(s) && (e.RemoveDir? || e.RemoveClearedDir?)
    ensures RowsHaveDirectories(Step(s, e))
  {
    var t := e.t;
    if e.RemoveDir? && At(s, t) && s.tasks[t].EntryGone? {
      NotHeldElsewhere(s, t);
    }
    if e.RemoveClearedDir? && At(s, t) && s.tasks[t].RemovingDirs? && s.tasks[t].dropped != [] {
      MembersTail(s.tasks[t].dropped);
      assert Spared(s.table, Members(s.tasks[t].dropped));
    }
    hide RowsOwned, NoneDoomed, Members;
  }

  lemma StepRowsHaveDirectories(s: State, e: Event)
    requires DirInv(s) && RowsOwned(s) && DirectoriesSafe(s)
    ensures RowsHaveDirectories(Step(s, e))
  {
    hide RowsOwned, Apart, NoneDoomed, Members;
    if e.RemoveDir? || e.RemoveClearedDir? {
      DirectoriesAfterRemoval(s, e);
    }
  }

  lemma InsertNoneDoomed(s: State, t: TaskId)
    requires DirInv(s) && NoneDoomed(s) && At(s, t) && s.tasks[t].Spilled?
    ensures NoneDoomed(Step(s, InsertRow(t)))
  {
    hide Members;
    forall u | u in s.tasks && s.tasks[u].RemovingDirs?
      ensures s.tasks[t].id !in Members(s.tasks[u].dropped)
    {
      assert PastInsertion(s.tasks[u]) == Members(s.tasks[u].dropped);
    }
    hide Apart, Spills;
  }

  lemma ClearNoneDoomed(s: State, e: Event)
    requires NoneDoomed(s) && (e.EmptyMirror? || e.RemoveClearedDir?)
    ensures NoneDoomed(Step(s, e)) <==> !DropsAttached(s, e)
  {
    hide Members;
    var t := e.t;
    if e.EmptyMirror? && At(s, t) && s.tasks[t].RowsGone? {
      assert Step(s, e).tasks[t] == RemovingDirs(s.mirror);
    } else if e.RemoveClearedDir? && At(s, t) && s.tasks[t].RemovingDirs? && s.tasks[t].dropped != [] {
      MembersTail(s.tasks[t].dropped);
    }
  }

  lemma StepNoneDoomed(s: State, e: Event)
    requires DirInv(s) && NoneDoomed(s)
    ensures NoneDoomed(Step(s, e)) <==> !DropsAttached(s, e)
  {
    hide Members, Apart, Spills;
    match e
    case InsertRow(t) => if At(s, t) && s.tasks[t].Spilled? { InsertNoneDoomed(s, t); }
    case EmptyMirror(_) => ClearNoneDoomed(s, e);
    case RemoveClearedDir(_) => ClearNoneDoomed(s, e);
    case _ =>
  }

  lemma StepDirectories(s: State, e: Event)
    requires DirInv(s) && RowsOwned(s)
    ensures DirInv(Step(s, e)) && RowsOwned(Step(s, e))
    ensures DirectoriesSafe(s) ==> (DirectoriesSafe(Step(s, e)) <==> !DropsAttached(s, e))
  {
    StepApart(s, e);
    StepSpills(s, e);
    StepRowsOwned(s, e);
    hide RowsOwned, Spills, Apart, Step, DropsAttached, NoneDoomed, RowsHaveDirectories;
    if DirectoriesSafe(s) {
      StepRowsHaveDirectories(s, e);
      StepNoneDoomed(s, e);
    }
  }

  ghost predicate AlwaysDirectoriesSafe(s: State, events: seq<Event>)
    decreases events
  {
    DirectoriesSafe(s) && (events == [] || AlwaysDirectoriesSafe(Step(s, events[0]), events[1..]))
  }

  ghost predicate NeverDropsAttached(s: State, events: seq<Event>)
    decreases events
  {
    events == [] || (!DropsAttached(s, events[0]) && NeverDropsAttached(Step(s, events[0]), events[1..]))
  }

  lemma {:induction false} DirectoriesRunIff(s: State, events: seq<Event>)
    requires DirInv(s) && RowsOwned(s) && DirectoriesSafe(s)
    ensures AlwaysDirectoriesSafe(s, events) <==> NeverDropsAttached(s, events)
    decreases events
  {
    if events != [] {
      StepDirectories(s, events[0]);
      hide DirInv, RowsOwned, DirectoriesSafe, DropsAttached, Step;
      if DirectoriesSafe(Step(s, events[0])) {
        DirectoriesRunIff(Step(s, events[0]), events[1..]);
      }
    }
  }

  lemma {:induction false} RunDirectories(s: State, events: seq<Event>)
    requires DirInv(s) && RowsOwned(s)
    ensures DirInv(Run(s, events)) && RowsOwned(Run(s, events))
    ensures DirectoriesSafe(s) && NeverDropsAttached(s, events) ==> DirectoriesSafe(Run(s, events))
    decreases events
  {
    if events != [] {
      StepDirectories(s, events[0]);
      hide DirInv, RowsOwned, DirectoriesSafe, DropsAttached, Step;
      RunDirectories(Step(s, events[0]), events[1..]);
    }
  }

  lemma StartIsSafe()
    ensures DirInv(START) && RowsOwned(START) && DirectoriesSafe(START)
  {
  }

  /**
   * In every interleaving with crashes, sweeps and reloads: at every point each live row
   * with attachments has its directory and no clear is about to remove it, exactly if no
   * clear empties the mirror over a live row with attachments.
   */
  lemma DirectoriesKeptIff(events: seq<Event>)
    ensures AlwaysDirectoriesSafe(START, events) <==> NeverDropsAttached(START, events)
  {
    StartIsSafe();
    DirectoriesRunIff(START, events);
  }

  /**
   * Crash consistency of such a run: a live row has its directory if and only if it has
   * attachments; and a crash here followed by the startup sweep leaves exactly those
   * directories. A row without attachments has no directory in any run.
   */
  lemma DirectoriesAreRight(events: seq<Event>, id: Id)
    ensures id in Run(START, events).table && !Run(START, events).table[id] ==> id !in Run(START, events).disk
    ensures NeverDropsAttached(START, events) && id in Run(START, events).table ==>
      (Run(START, events).table[id] <==> id in Run(START, events).disk)
    ensures NeverDropsAttached(START, events) ==>
      (id in Step(Step(Run(START, events), Crash), Sweep).disk <==>
        id in Run(START, events).table && Run(START, events).table[id])
  {
    StartIsSafe();
    RunDirectories(START, events);
    hide Run, NeverDropsAttached, RowsOwned, Apart;
  }

  // ---- A sufficient condition -----------------------------------------------------------

  /** No clear is between deleting the rows and emptying the mirror. */
  predicate NoHalfClear(s: State) {
    forall t :: t in s.tasks ==> !s.tasks[t].RowsGone?
  }

  /** Along the run, rows are inserted only when no clear is half done. */
  predicate Guarded(s: State, events: seq<Event>)
    decreases events
  {
    events == [] ||
    ((events[0].InsertRow? ==> NoHalfClear(s)) && Guarded(Step(s, events[0]), events[1..]))
  }

  lemma GuardedDrop(s: State, e: Event)
    requires NoHalfClear(s) || s.table == map[]
    ensures !DropsRow(s, e) && !DropsAttached(s, e)
  {
    hide Members;
  }

  lemma GuardedStep(s: State, e: Event)
    requires NoHalfClear(s) || s.table == map[]
    requires e.InsertRow? ==> NoHalfClear(s)
    ensures NoHalfClear(Step(s, e)) || Step(s, e).table == map[]
  {
  }

  /** Inserting no row while a clear is half done is enough for both. */
  lemma {:induction false} GuardedRunsAreSafe(s: State, events: seq<Event>)
    requires (NoHalfClear(s) || s.table == map[]) && Guarded(s, events)
    ensures NeverDropsRow(s, events) && NeverDropsAttached(s, events)
    decreases events
  {
    if events != [] {
      GuardedDrop(s, events[0]);
      GuardedStep(s, events[0]);
      GuardedRunsAreSafe(Step(s, events[0]), events[1..]);
    }
  }

  lemma RunAppend(s: State, xs: seq<Event>, ys: seq<Event>)
    ensures Run(s, xs + ys) == Run(Run(s, xs), ys)
    decreases xs
  {
    if xs == [] {
      assert xs + ys == ys;
    } else {
      assert (xs + ys)[1..] == xs[1..] + ys;
      RunAppend(Step(s, xs[0]), xs[1..], ys);
    }
  }
}
