// The queued-message protocol with its awaits exposed: src/core/pending_store.py
// and the drain loop of src/core/prompt_router.py as interleaved steps over the
// table, the attachment directories and the in-memory mirror, with crashes.
//
// One session. Positions are left out: a mirror insertion may land anywhere. A task can
// end at any of its steps by an exception or by being cancelled.
module PendingProtocol {
  import opened Collections

  type Id = nat
  type TaskId = nat

  /** Who asked for a deletion: the user's cancel, or the drain loop's pop. */
  datatype Why = UserCancel | DrainPop

  /** Where a running store operation or drain loop stands. */
  datatype Task =
    | Spilled(id: Id, hasAttachments: bool)   // enqueue: directory written, row not inserted yet
    | Inserted(id: Id)                        // enqueue: row committed, mirror not updated yet
    | Deleting(id: Id, why: Why)              // delete: before the row transaction
    | RowGone(id: Id, why: Why)               // delete: row deleted by this task
    | EntryGone(id: Id, found: bool, why: Why) // delete: mirror updated, directory not removed yet
    | Clearing                                // clear: before the row transaction
    | RowsGone                                // clear: all rows deleted
    | RemovingDirs(dropped: seq<Id>)          // clear: mirror emptied, directories still to remove
    | DrainTop                                // drain loop: at its loop test
    | Handing(id: Id)                         // drain loop: owns a popped message

  /** A message leaving the queue through a return value: delivered, or returned by `cancel`. */
  datatype Outcome = Handed(id: Id, withAttachments: bool) | CancelReturned(id: Id)

  /** `table` maps a live row to whether it has attachments; `cleared` is what clears dropped. */
  datatype State = State(
    table: map<Id, bool>, disk: set<Id>,
    mirror: seq<Id>, tasks: map<TaskId, Task>, busy: bool, draining: bool, callbacks: set<TaskId>,
    issued: set<Id>, outcomes: seq<Outcome>, cleared: seq<Id>)

  const START := State(map[], {}, [], map[], false, false, {}, {}, [], [])

  datatype Event =
    | BeginEnqueue(t: TaskId, id: Id, hasAttachments: bool)
    | InsertRow(t: TaskId)
    | AddEntry(t: TaskId, at: nat)
    | BeginCancel(t: TaskId, id: Id)
    | DeleteRow(t: TaskId)
    | RemoveEntry(t: TaskId)
    | RemoveDir(t: TaskId)
    | BeginClear(t: TaskId)
    | DeleteRows(t: TaskId)
    | EmptyMirror(t: TaskId)
    | RemoveClearedDir(t: TaskId)
    | Schedule(t: TaskId, eligible: bool)
    | UnguardedDrain(t: TaskId)
    | LoopTest(t: TaskId)
    | Deliver(t: TaskId, raised: bool)
    | Fail(t: TaskId)
    | DoneCallback(t: TaskId)
    | SetBusy(busy: bool)
    | Crash
    | Sweep
    | Load(order: seq<Id>)

  predicate At(s: State, t: TaskId) {
    t in s.tasks
  }

  predicate FreshTask(s: State, t: TaskId) {
    t !in s.tasks && t !in s.callbacks
  }

  function Goto(s: State, t: TaskId, task: Task): State {
    s.(tasks := s.tasks[t := task])
  }

  function End(s: State, t: TaskId): State {
    s.(tasks := s.tasks - {t})
  }

  /** A drain task that finishes leaves its done-callbacks pending. */
  function EndDrain(s: State, t: TaskId): State {
    s.(tasks := s.tasks - {t}, callbacks := s.callbacks + {t})
  }

  /** What belongs to a drain loop, whose end its callbacks report. */
  predicate IsDrain(task: Task) {
    match task
    case DrainTop => true
    case Handing(_) => true
    case Deleting(_, why) => why.DrainPop?
    case RowGone(_, why) => why.DrainPop?
    case EntryGone(_, _, why) => why.DrainPop?
    case _ => false
  }

  function RemoveFirst(s: seq<Id>, id: Id): seq<Id> {
    if s == [] then [] else if s[0] == id then s[1..] else [s[0]] + RemoveFirst(s[1..], id)
  }

  function Step(s: State, e: Event): State {
    match e
    case BeginEnqueue(t, id, att) =>
      if !FreshTask(s, t) || id in s.issued then s
      else Goto(s.(disk := if att then s.disk + {id} else s.disk, issued := s.issued + {id}), t, Spilled(id, att))
    case InsertRow(t) =>
      if !At(s, t) || !s.tasks[t].Spilled? then s
      else Goto(s.(table := s.table[s.tasks[t].id := s.tasks[t].hasAttachments]), t, Inserted(s.tasks[t].id))
    case AddEntry(t, at) =>
      if !At(s, t) || !s.tasks[t].Inserted? || at > |s.mirror| then s
      else End(s.(mirror := s.mirror[..at] + [s.tasks[t].id] + s.mirror[at..]), t)
    case BeginCancel(t, id) => if !FreshTask(s, t) then s else Goto(s, t, Deleting(id, UserCancel))
    case DeleteRow(t) =>
      if !At(s, t) || !s.tasks[t].Deleting? then s
      else
        var id, why := s.tasks[t].id, s.tasks[t].why;
        if id in s.table then Goto(s.(table := s.table - {id}), t, RowGone(id, why))
        else if why.UserCancel? then End(s, t) else EndDrain(s, t)
    case RemoveEntry(t) =>
      if !At(s, t) || !s.tasks[t].RowGone? then s
      else
        var id := s.tasks[t].id;
        Goto(s.(mirror := RemoveFirst(s.mirror, id)), t, EntryGone(id, id in s.mirror, s.tasks[t].why))
    case RemoveDir(t) =>
      if !At(s, t) || !s.tasks[t].EntryGone? then s
      else
        var id, found := s.tasks[t].id, s.tasks[t].found;
        var r := s.(disk := s.disk - {id});
        if s.tasks[t].why.UserCancel?
        then End(if found then r.(outcomes := r.outcomes + [CancelReturned(id)]) else r, t)
        else if found then Goto(r, t, Handing(id)) else EndDrain(r, t)
    case BeginClear(t) => if !FreshTask(s, t) then s else Goto(s, t, Clearing)
    case DeleteRows(t) =>
      if !At(s, t) || !s.tasks[t].Clearing? then s else Goto(s.(table := map[]), t, RowsGone)
    case EmptyMirror(t) =>
      if !At(s, t) || !s.tasks[t].RowsGone? then s
      else Goto(s.(mirror := [], cleared := s.cleared + s.mirror), t, RemovingDirs(s.mirror))
    case RemoveClearedDir(t) =>
      if !At(s, t) || !s.tasks[t].RemovingDirs? then s
      else if s.tasks[t].dropped == [] then End(s, t)
      else Goto(s.(disk := s.disk - {s.tasks[t].dropped[0]}), t, RemovingDirs(s.tasks[t].dropped[1..]))
    case Schedule(t, eligible) =>
      if !FreshTask(s, t) || s.mirror == [] || !eligible || s.draining then s
      else Goto(s.(draining := true), t, DrainTop)
    case UnguardedDrain(t) => if !FreshTask(s, t) then s else Goto(s, t, DrainTop)
    case LoopTest(t) =>
      if !At(s, t) || !s.tasks[t].DrainTop? then s
      else if s.mirror == [] || s.busy then EndDrain(s, t)
      else Goto(s, t, Deleting(s.mirror[0], DrainPop))
    case Deliver(t, raised) =>
      if !At(s, t) || !s.tasks[t].Handing? then s
      else
        var r := s.(outcomes := s.outcomes + [Handed(s.tasks[t].id, s.tasks[t].id in s.disk)]);
        if raised then EndDrain(r, t) else Goto(r, t, DrainTop)
    case Fail(t) => if !At(s, t) then s else if IsDrain(s.tasks[t]) then EndDrain(s, t) else End(s, t)
    case DoneCallback(t) => if t in s.callbacks then s.(callbacks := s.callbacks - {t}, draining := false) else s
    case SetBusy(b) => s.(busy := b)
    case Crash => s.(mirror := [], tasks := map[], busy := false, draining := false, callbacks := {})
    case Sweep => if s.tasks == map[] then s.(disk := s.disk * s.table.Keys) else s
    case Load(order) =>
      if s.tasks == map[] && Distinct(order) && (set i | 0 <= i < |order| :: order[i]) == s.table.Keys
      then s.(mirror := order) else s
  }

  function Run(s: State, events: seq<Event>): State
    decreases events
  {
    if events == [] then s else Run(Step(s, events[0]), events[1..])
  }
}
