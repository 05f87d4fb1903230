// src/core/wakeup_store.py: the table of scheduled wakes beside its sorted mirror.
//
// Rows are stamped, never deleted; the mirror holds the pending ones by fire time.
module WakeStore {
  import opened Collections
  import opened SessionState

  datatype WakeRow = WakeRow(wake: ScheduledWake, firedAt: Option<int>, cancelledAt: Option<int>)

  predicate IsPending(r: WakeRow) {
    r.firedAt.None? && r.cancelledAt.None?
  }

  datatype WakeEvent =
    | WakeupScheduled(wakeId: string)
    | WakeupFired(wakeId: string)
    | WakeupCancelled(wakeId: string)

  /** One session's rows, mirror, and the wake events pushed to its buffer. */
  datatype Book = Book(rows: map<string, WakeRow>, wakes: seq<ScheduledWake>, events: seq<WakeEvent>)

  datatype Op =
    | Enqueue(wake: ScheduledWake)
    | MarkFired(wakeId: string, now: int)
    | Cancel(wakeId: string, now: int)
    | Restart(answer: seq<ScheduledWake>)

  // ---- Loading ---------------------------------------------------------------------------

  predicate DistinctIds(wakes: seq<ScheduledWake>) {
    forall i, j :: 0 <= i < j < |wakes| ==> wakes[i].wakeId != wakes[j].wakeId
  }

  /** The pending rows by fire time; rows with equal times may come in any order. */
  ghost predicate Answers(rows: map<string, WakeRow>, answer: seq<ScheduledWake>) {
    && SortedByKey(answer, FireAtOf)
    && DistinctIds(answer)
    && (forall w :: w in answer ==> w.wakeId in rows && rows[w.wakeId] == WakeRow(w, None, None))
    && (forall id :: id in rows && IsPending(rows[id]) ==> rows[id].wake in answer)
  }

  /** The mirror after adding the loaded wakes one by one. */
  function AddAll(wakes: seq<ScheduledWake>, answer: seq<ScheduledWake>): seq<ScheduledWake> {
    if answer == [] then wakes
    else InsertByKey(AddAll(wakes, answer[..|answer| - 1]), FireAtOf, answer[|answer| - 1])
  }

  // ---- Steps ---------------------------------------------------------------------------

  ghost predicate Enabled(b: Book, op: Op) {
    match op
    case Enqueue(wake) => wake.wakeId !in b.rows
    case MarkFired(_, _) => true
    case Cancel(_, _) => true
    case Restart(answer) => Answers(b.rows, answer)
  }

  function Stamped(rows: map<string, WakeRow>, op: Op): map<string, WakeRow> {
    match op
    case MarkFired(id, now) => if id in rows then rows[id := rows[id].(firedAt := Some(now))] else rows
    case Cancel(id, now) => if id in rows then rows[id := rows[id].(cancelledAt := Some(now))] else rows
    case _ => rows
  }

  /** Stamps the row; event and mirror follow only if the mirror still has the wake. */
  function Finish(b: Book, op: Op): Book
    requires op.MarkFired? || op.Cancel?
  {
    var i := FirstIndex(b.wakes, HasWakeId(op.wakeId));
    if i == |b.wakes| then b.(rows := Stamped(b.rows, op))
    else
      Book(Stamped(b.rows, op), Without(b.wakes, i),
           b.events + [if op.MarkFired? then WakeupFired(op.wakeId) else WakeupCancelled(op.wakeId)])
  }

  ghost function Step(b: Book, op: Op): Book {
    if !Enabled(b, op) then b
    else
      match op
      case Enqueue(wake) =>
        Book(b.rows[wake.wakeId := WakeRow(wake, None, None)], InsertByKey(b.wakes, FireAtOf, wake),
             b.events + [WakeupScheduled(wake.wakeId)])
      case MarkFired(_, _) => Finish(b, op)
      case Cancel(_, _) => Finish(b, op)
      case Restart(answer) => b.(wakes := AddAll([], answer))
  }

  ghost function Run(b: Book, ops: seq<Op>): Book
    decreases ops
  {
    if ops == [] then b else Step(Run(b, ops[..|ops| - 1]), ops[|ops| - 1])
  }

  const NO_WAKES := Book(map[], [], [])

  // ---- The invariant -------------------------------------------------------------------

  /** The mirror is exactly the pending rows, by fire time. */
  ghost predicate Agrees(b: Book) {
    Answers(b.rows, b.wakes) && forall id :: id in b.rows ==> b.rows[id].wake.wakeId == id
  }

  /** The events of one wake. */
  function Trace(events: seq<WakeEvent>, id: string): seq<WakeEvent> {
    if events == [] then []
    else
      var last := events[|events| - 1];
      Trace(events[..|events| - 1], id) + (if last.wakeId == id then [last] else [])
  }

  /** Scheduled first, then at most one of fired and cancelled; unfinished exactly while pending. */
  ghost predicate TraceFits(b: Book, id: string) {
    var t := Trace(b.events, id);
    if id !in b.rows then t == []
    else if IsPending(b.rows[id]) then t == [WakeupScheduled(id)]
    else
      && |t| == 2 && t[0] == WakeupScheduled(id)
      && (|| (t[1] == WakeupFired(id) && b.rows[id].firedAt.Some?)
          || (t[1] == WakeupCancelled(id) && b.rows[id].cancelledAt.Some?))
  }

  ghost predicate Inv(b: Book) {
    Agrees(b) && forall id :: TraceFits(b, id)
  }

  lemma InsertAgrees(b: Book, wake: ScheduledWake)
    requires Agrees(b) && wake.wakeId !in b.rows
    ensures Agrees(Step(b, Enqueue(wake)))
  {
    hide SortedByKey, DistinctIds, InsertByKey;
    InsertKeepsOrder(b.wakes, FireAtOf, wake);
    InsertDistinct(b.wakes, wake);
  }

  lemma InsertDistinct(wakes: seq<ScheduledWake>, wake: ScheduledWake)
    requires DistinctIds(wakes) && forall w :: w in wakes ==> w.wakeId != wake.wakeId
    ensures DistinctIds(InsertByKey(wakes, FireAtOf, wake))
    ensures forall w :: w in InsertByKey(wakes, FireAtOf, wake) <==> w in wakes || w == wake
  {
    var i := InsertionIndex(wakes, FireAtOf, FireAtOf(wake));
    assert InsertByKey(wakes, FireAtOf, wake) == wakes[..i] + [wake] + wakes[i..];
    hide InsertByKey, InsertionIndex;
    InsertDistinctAt(wakes, i, wake);
    InsertMembers(wakes, i, wake);
  }

  lemma InsertDistinctAt(wakes: seq<ScheduledWake>, i: nat, wake: ScheduledWake)
    requires DistinctIds(wakes) && i <= |wakes| && forall w :: w in wakes ==> w.wakeId != wake.wakeId
    ensures DistinctIds(wakes[..i] + [wake] + wakes[i..])
  {
    var after := wakes[..i] + [wake] + wakes[i..];
    assert forall k :: 0 <= k < |wakes| ==> wakes[k].wakeId != wake.wakeId;
    assert forall k :: 0 <= k < |after| ==> after[k] == if k < i then wakes[k] else if k == i then wake else wakes[k - 1];
  }

  lemma InsertMembers(wakes: seq<ScheduledWake>, i: nat, wake: ScheduledWake)
    requires i <= |wakes|
    ensures forall w :: w in wakes[..i] + [wake] + wakes[i..] <==> w in wakes || w == wake
  {
    assert wakes == wakes[..i] + wakes[i..];
  }

  lemma MirroredIffPending(b: Book, id: string)
    requires Agrees(b)
    ensures FirstIndex(b.wakes, HasWakeId(id)) < |b.wakes| <==> id in b.rows && IsPending(b.rows[id])
  {
    var i := FirstIndex(b.wakes, HasWakeId(id));
    hide SortedByKey, DistinctIds, FirstIndex;
    if i < |b.wakes| {
      assert b.wakes[i] in b.wakes;
    } else {
      assert forall k :: 0 <= k < |b.wakes| ==> !HasWakeId(id)(b.wakes[k]);
    }
  }

  lemma RemovedAnswers(rows: map<string, WakeRow>, wakes: seq<ScheduledWake>, op: Op, rest: seq<ScheduledWake>)
    requires (op.MarkFired? || op.Cancel?) && Answers(rows, wakes)
    requires forall id :: id in rows ==> rows[id].wake.wakeId == id
    requires SortedByKey(rest, FireAtOf) && DistinctIds(rest)
    requires forall w :: w in rest <==> w in wakes && w.wakeId != op.wakeId
    ensures Answers(Stamped(rows, op), rest)
  {
    StampedKeepsOthers(rows, op);
    hide SortedByKey, DistinctIds, Stamped;
    var rows' := Stamped(rows, op);
    forall w | w in rest
      ensures w.wakeId in rows' && rows'[w.wakeId] == WakeRow(w, None, None)
    {
      assert rows'[w.wakeId] == rows[w.wakeId];
    }
    forall id | id in rows' && IsPending(rows'[id])
      ensures rows'[id].wake in rest
    {
      assert rows'[id] == rows[id];
    }
  }

  lemma FinishAgrees(b: Book, op: Op)
    requires Agrees(b) && (op.MarkFired? || op.Cancel?)
    ensures Agrees(Finish(b, op))
  {
    var i := FirstIndex(b.wakes, HasWakeId(op.wakeId));
    StampedKeepsOthers(b.rows, op);
    hide Stamped, SortedByKey, DistinctIds;
    if i < |b.wakes| {
      WithoutKeepsTheRest(b.wakes, i);
      RemovedAnswers(b.rows, b.wakes, op, Without(b.wakes, i));
    } else {
      assert forall k :: 0 <= k < |b.wakes| ==> !HasWakeId(op.wakeId)(b.wakes[k]);
      RemovedAnswers(b.rows, b.wakes, op, b.wakes);
    }
    hide Answers, FirstIndex;
  }

  /** Only the named row changes, and it is then no longer pending. */
  lemma StampedKeepsOthers(rows: map<string, WakeRow>, op: Op)
    requires op.MarkFired? || op.Cancel?
    ensures Stamped(rows, op).Keys == rows.Keys
    ensures forall id :: id in rows ==> Stamped(rows, op)[id].wake == rows[id].wake
    ensures forall id :: id in rows && id != op.wakeId ==> Stamped(rows, op)[id] == rows[id]
    ensures op.wakeId in rows ==> !IsPending(Stamped(rows, op)[op.wakeId])
  {
  }

  lemma WithoutKeepsTheRest(wakes: seq<ScheduledWake>, i: nat)
    requires i < |wakes| && DistinctIds(wakes) && SortedByKey(wakes, FireAtOf)
    ensures DistinctIds(Without(wakes, i)) && SortedByKey(Without(wakes, i), FireAtOf)
    ensures forall w :: w in Without(wakes, i) <==> w in wakes && w.wakeId != wakes[i].wakeId
  {
    WithoutKeepsOrder(wakes, i);
    hide SortedByKey, DistinctIds, Without;
    forall w
      ensures w in Without(wakes, i) <==> w in wakes && w.wakeId != wakes[i].wakeId
    {
      WithoutMember(wakes, i, w);
    }
  }

  lemma WithoutMember(wakes: seq<ScheduledWake>, i: nat, w: ScheduledWake)
    requires i < |wakes| && DistinctIds(wakes)
    ensures w in Without(wakes, i) <==> w in wakes && w.wakeId != wakes[i].wakeId
  {
    var rest := Without(wakes, i);
    if w in rest {
      var k :| 0 <= k < |rest| && rest[k] == w;
      assert w == wakes[if k < i then k else k + 1];
    }
    if w in wakes && w.wakeId != wakes[i].wakeId {
      var k :| 0 <= k < |wakes| && wakes[k] == w;
      assert rest[if k < i then k else k - 1] == w;
    }
  }

  lemma WithoutKeepsOrder(wakes: seq<ScheduledWake>, i: nat)
    requires i < |wakes| && DistinctIds(wakes) && SortedByKey(wakes, FireAtOf)
    ensures DistinctIds(Without(wakes, i)) && SortedByKey(Without(wakes, i), FireAtOf)
  {
    var rest := Without(wakes, i);
    assert forall k :: 0 <= k < |rest| ==> rest[k] == wakes[if k < i then k else k + 1];
  }

  /** Adding wakes already in order to an empty mirror gives just those. */
  lemma {:induction false} AddAllToEmpty(answer: seq<ScheduledWake>)
    requires SortedByKey(answer, FireAtOf)
    ensures AddAll([], answer) == answer
  {
    if answer != [] {
      var init, last := answer[..|answer| - 1], answer[|answer| - 1];
      AddAllToEmpty(init);
      var i := InsertionIndex(init, FireAtOf, FireAtOf(last));
      assert i == |init|;
      assert init[..i] + [last] + init[i..] == answer;
    }
  }

  lemma TraceStep(events: seq<WakeEvent>, e: WakeEvent, id: string)
    ensures Trace(events + [e], id) == Trace(events, id) + (if e.wakeId == id then [e] else [])
  {
    assert (events + [e])[..|events + [e]| - 1] == events;
  }

  lemma StepKeepsInv(b: Book, op: Op)
    requires Inv(b)
    ensures Inv(Step(b, op))
  {
    var b' := Step(b, op);
    if Enabled(b, op) {
      match op {
        case Enqueue(wake) => InsertAgrees(b, wake);
        case MarkFired(_, _) => FinishAgrees(b, op);
        case Cancel(_, _) => FinishAgrees(b, op);
        case Restart(answer) => AddAllToEmpty(answer);
      }
      hide Agrees, TraceFits;
      forall id
        ensures TraceFits(b', id)
      {
        assert TraceFits(b, id);
        StepKeepsTrace(b, op, id);
      }
    }
  }

  lemma StepKeepsTrace(b: Book, op: Op, id: string)
    requires Agrees(b) && TraceFits(b, id) && Enabled(b, op)
    ensures TraceFits(Step(b, op), id)
  {
    hide Answers, Trace;
    match op
    case Enqueue(wake) => TraceStep(b.events, WakeupScheduled(wake.wakeId), id);
    case MarkFired(wakeId, _) =>
      MirroredIffPending(b, wakeId);
      TraceStep(b.events, WakeupFired(wakeId), id);
    case Cancel(wakeId, _) =>
      MirroredIffPending(b, wakeId);
      TraceStep(b.events, WakeupCancelled(wakeId), id);
    case Restart(_) =>
  }

  /**
   * After any run the mirror is the pending rows by fire time, and each wake's clients
   * saw "scheduled", then at most one of "fired" and "cancelled", whichever came first.
   */
  lemma {:induction false} MirrorAndEventsFit(ops: seq<Op>)
    ensures Inv(Run(NO_WAKES, ops))
    decreases ops
  {
    if ops != [] {
      MirrorAndEventsFit(ops[..|ops| - 1]);
      StepKeepsInv(Run(NO_WAKES, ops[..|ops| - 1]), ops[|ops| - 1]);
    }
  }

  /** When a wake was last marked fired, or cancelled, while its row was there. */
  ghost function LastStamp(ops: seq<Op>, id: string, fired: bool): Option<int> {
    if ops == [] then None
    else
      var init, last := ops[..|ops| - 1], ops[|ops| - 1];
      if Stamps(last, id, fired) && id in Run(NO_WAKES, init).rows
      then Some(TimeOf(last)) else LastStamp(init, id, fired)
  }

  /** What a wake was scheduled as: the first enqueue of its id. */
  function ScheduledAs(ops: seq<Op>, id: string): Option<ScheduledWake> {
    if ops == [] then None
    else
      var before, last := ScheduledAs(ops[..|ops| - 1], id), ops[|ops| - 1];
      if before.None? && last.Enqueue? && last.wake.wakeId == id then Some(last.wake) else before
  }

  predicate Stamps(op: Op, id: string, fired: bool) {
    if fired then op.MarkFired? && op.wakeId == id else op.Cancel? && op.wakeId == id
  }

  function TimeOf(op: Op): int {
    if op.MarkFired? || op.Cancel? then op.now else 0
  }

  lemma StepStamps(b: Book, op: Op, id: string)
    ensures
      var rows := Step(b, op).rows;
      if id !in b.rows then
        if op.Enqueue? && op.wake.wakeId == id then id in rows && rows[id] == WakeRow(op.wake, None, None) else id !in rows
      else
        && id in rows && rows[id].wake == b.rows[id].wake
        && rows[id].firedAt == (if Stamps(op, id, true) then Some(TimeOf(op)) else b.rows[id].firedAt)
        && rows[id].cancelledAt == (if Stamps(op, id, false) then Some(TimeOf(op)) else b.rows[id].cancelledAt)
  {
    hide Without, InsertByKey, AddAll, FirstIndex, Answers;
  }

  /**
   * After any run a row holds the wake as it was first scheduled, and the times of the
   * last firing and the last cancellation of it.
   */
  lemma {:induction false} RowsSayWhen(ops: seq<Op>, id: string)
    ensures
      var rows := Run(NO_WAKES, ops).rows;
      if id !in rows then ScheduledAs(ops, id).None? && LastStamp(ops, id, true).None? && LastStamp(ops, id, false).None?
      else
        && ScheduledAs(ops, id) == Some(rows[id].wake)
        && rows[id].firedAt == LastStamp(ops, id, true) && rows[id].cancelledAt == LastStamp(ops, id, false)
  {
    if ops != [] {
      RowsSayWhen(ops[..|ops| - 1], id);
      StepStamps(Run(NO_WAKES, ops[..|ops| - 1]), ops[|ops| - 1], id);
      hide Step, Stamps;
    }
  }

  /** Whatever the mirror holds, a restart replaces it by the database's answer. */
  lemma RestartLoads(b: Book, answer: seq<ScheduledWake>)
    requires Answers(b.rows, answer)
    ensures Step(b, Restart(answer)) == b.(wakes := answer)
  {
    AddAllToEmpty(answer);
  }

  // ---- Loading into a mirror that is not empty ------------------------------------------------

  lemma {:induction false} AddAllElements(wakes: seq<ScheduledWake>, answer: seq<ScheduledWake>)
    ensures multiset(AddAll(wakes, answer)) == multiset(wakes) + multiset(answer)
  {
    if answer == [] {
      assert multiset(wakes) + multiset(answer) == multiset(wakes);
    } else {
      var init, last := answer[..|answer| - 1], answer[|answer| - 1];
      AddAllElements(wakes, init);
      InsertKeepsElements(AddAll(wakes, init), FireAtOf, last);
      assert AddAll(wakes, answer) == InsertByKey(AddAll(wakes, init), FireAtOf, last);
      hide AddAll, InsertByKey;
      assert answer == init + [last];
    }
  }

  /**
   * Loading a session's wakes again, without a restart, leaves a mirror that agrees with
   * the table exactly when no wake was pending; otherwise every pending wake is doubled.
   */
  lemma LoadAgainAgreesIff(b: Book, answer: seq<ScheduledWake>)
    requires Agrees(b) && Answers(b.rows, answer)
    ensures Agrees(b.(wakes := AddAll(b.wakes, answer))) <==> b.wakes == []
    ensures forall w :: w in b.wakes ==> multiset(AddAll(b.wakes, answer))[w] >= 2
  {
    var after := AddAll(b.wakes, answer);
    AddAllElements(b.wakes, answer);
    if b.wakes == [] {
      AddAllToEmpty(answer);
    } else {
      forall w | w in b.wakes
        ensures w in answer && multiset(after)[w] >= 2
      {
        assert b.rows[w.wakeId].wake in answer;
        assert w in multiset(b.wakes) && w in multiset(answer);
      }
      assert b.wakes[0] in b.wakes;
      TwiceIsNotDistinct(after, b.wakes[0]);
    }
  }

  lemma TwiceIsNotDistinct(wakes: seq<ScheduledWake>, w: ScheduledWake)
    requires multiset(wakes)[w] >= 2
    ensures !DistinctIds(wakes)
  {
    assert w in multiset(wakes);
    var i :| 0 <= i < |wakes| && wakes[i] == w;
    assert wakes == wakes[..i] + [w] + wakes[i + 1..];
    assert multiset(wakes) == multiset(wakes[..i]) + multiset{w} + multiset(wakes[i + 1..]);
    if w in multiset(wakes[..i]) {
      var j :| 0 <= j < i && wakes[..i][j] == w;
      assert wakes[j] == w;
    } else {
      assert w in multiset(wakes[i + 1..]);
      var j :| 0 <= j < |wakes| - i - 1 && wakes[i + 1..][j] == w;
      assert wakes[i + 1 + j] == w;
    }
  }

  /** Nothing but some of the pending rows changed, which were cancelled at `now`. */
  predicate OnlyCancels(before: map<string, WakeRow>, rows: map<string, WakeRow>, now: int) {
    && rows.Keys == before.Keys
    && forall id :: id in before ==>
         || rows[id] == before[id]
         || (IsPending(before[id]) && rows[id] == before[id].(cancelledAt := Some(now)))
  }

  lemma CancelHead(b: Book, now: int)
    requires Agrees(b) && b.wakes != []
    ensures
      var op := Op.Cancel(b.wakes[0].wakeId, now);
      var b' := Step(b, op);
      && Agrees(b') && b'.wakes == b.wakes[1..] && b'.events == b.events + [CancelledEvent(b.wakes[0])]
      && FirstIndex(b.wakes, HasWakeId(op.wakeId)) == 0
  {
    FinishAgrees(b, Op.Cancel(b.wakes[0].wakeId, now));
    hide Agrees;
  }

  lemma CancelsOneMore(before: map<string, WakeRow>, b: Book, now: int)
    requires Agrees(b) && b.wakes != [] && OnlyCancels(before, b.rows, now)
    ensures OnlyCancels(before, Step(b, Op.Cancel(b.wakes[0].wakeId, now)).rows, now)
  {
    assert b.wakes[0] in b.wakes;
    hide SortedByKey, DistinctIds, FirstIndex, Without;
  }

  /** With nothing pending any more, all that was pending has been cancelled. */
  lemma NothingPending(before: map<string, WakeRow>, b: Book, now: int)
    requires Agrees(b) && b.wakes == [] && OnlyCancels(before, b.rows, now)
    ensures b.rows.Keys == before.Keys
    ensures forall id :: id in before ==>
      b.rows[id] == if IsPending(before[id]) then before[id].(cancelledAt := Some(now)) else before[id]
  {
    hide SortedByKey, DistinctIds;
    assert forall id :: id in b.rows && IsPending(b.rows[id]) ==> b.rows[id].wake in b.wakes;
  }

  lemma CancelledOneMore(events: seq<WakeEvent>, entries: seq<ScheduledWake>, i: nat)
    requires i < |entries|
    ensures entries[..i + 1] == entries[..i] + [entries[i]]
    ensures events + Map(entries[..i + 1], CancelledEvent)
         == events + Map(entries[..i], CancelledEvent) + [CancelledEvent(entries[i])]
  {
    assert entries[..i + 1] == entries[..i] + [entries[i]];
    MapAppend(entries[..i], [entries[i]], CancelledEvent);
    AppendAssociates(events, Map(entries[..i], CancelledEvent), [CancelledEvent(entries[i])]);
    assert Map([entries[i]], CancelledEvent) == [CancelledEvent(entries[i])];
  }

  // ---- The class -----------------------------------------------------------------------

  class SessionScheduledWakeStore {
    var rows: map<string, WakeRow>
    const mirror: SessionWakeMirror
    var events: seq<WakeEvent>

    ghost function Now(): Book
      reads this, mirror
    {
      Book(rows, mirror.wakes, events)
    }

    constructor ()
      ensures fresh(mirror) && Now() == NO_WAKES
    {
      rows, events := map[], [];
      mirror := new SessionWakeMirror();
    }

    /** The caller passes an entry with a newly generated id. */
    method Enqueue(entry: ScheduledWake)
      requires entry.wakeId !in rows
      modifies this, mirror
      ensures Now() == Step(old(Now()), Op.Enqueue(entry))
    {
      rows := rows[entry.wakeId := WakeRow(entry, None, None)];
      mirror.Add(entry);
      events := events + [WakeupScheduled(entry.wakeId)];
    }

    method MarkFired(wakeId: string, now: int) returns (removed: Option<ScheduledWake>)
      modifies this, mirror
      ensures Now() == Step(old(Now()), Op.MarkFired(wakeId, now))
      ensures removed.Some? <==> exists w :: w in old(mirror.wakes) && w.wakeId == wakeId
    {
      if wakeId in rows {
        rows := rows[wakeId := rows[wakeId].(firedAt := Some(now))];
      }
      removed := mirror.Remove(wakeId);
      if removed.Some? {
        events := events + [WakeupFired(wakeId)];
      }
    }

    method Cancel(wakeId: string, now: int) returns (removed: Option<ScheduledWake>)
      modifies this, mirror
      ensures Now() == Step(old(Now()), Op.Cancel(wakeId, now))
      ensures removed == (var i := FirstIndex(old(mirror.wakes), HasWakeId(wakeId));
                          if i == |old(mirror.wakes)| then None else Some(old(mirror.wakes)[i]))
    {
      if wakeId in rows {
        rows := rows[wakeId := rows[wakeId].(cancelledAt := Some(now))];
      }
      removed := mirror.Remove(wakeId);
      if removed.Some? {
        events := events + [WakeupCancelled(wakeId)];
      }
    }

    /** Cancels everything pending, in mirror order. */
    method CancelAllForSession(now: int) returns (cancelled: seq<ScheduledWake>)
      requires Agrees(Now())
      modifies this, mirror
      ensures Agrees(Now()) && mirror.wakes == []
      ensures cancelled == old(mirror.wakes)
      ensures events == old(events) + Map(old(mirror.wakes), CancelledEvent)
      ensures rows.Keys == old(rows).Keys
      ensures forall id :: id in old(rows) ==>
        rows[id] == if IsPending(old(rows)[id]) then old(rows)[id].(cancelledAt := Some(now)) else old(rows)[id]
    {
      cancelled := [];
      var entries := mirror.wakes;
      assert OnlyCancels(old(rows), rows, now);
      for i := 0 to |entries|
        invariant Agrees(Now())
        invariant mirror.wakes == entries[i..]
        invariant cancelled == entries[..i]
        invariant events == old(events) + Map(entries[..i], CancelledEvent)
        invariant OnlyCancels(old(rows), rows, now)
      {
        hide Agrees, Finish, FirstIndex, Map, OnlyCancels;
        CancelHead(Now(), now);
        CancelsOneMore(old(rows), Now(), now);
        assert mirror.wakes[0] == entries[i];
        var removed := Cancel(entries[i].wakeId, now);
        if removed.Some? {
          cancelled := cancelled + [removed.value];
        }
        CancelledOneMore(old(events), entries, i);
      }
      assert entries[..|entries|] == entries;
      hide Agrees, Map;
      NothingPending(old(rows), Now(), now);
    }

    /** Adds the database's answer to whatever the mirror holds. */
    method LoadForSession(answer: seq<ScheduledWake>) returns (restored: seq<ScheduledWake>)
      requires Answers(rows, answer)
      modifies mirror
      ensures Now() == old(Now()).(wakes := AddAll(old(mirror.wakes), answer))
      ensures restored == answer
    {
      restored := [];
      for i := 0 to |answer|
        invariant mirror.wakes == AddAll(old(mirror.wakes), answer[..i])
        invariant restored == answer[..i]
      {
        hide InsertByKey;
        mirror.Add(answer[i]);
        restored := restored + [answer[i]];
        AddAllStep(old(mirror.wakes), answer, i);
        hide AddAll;
      }
      assert answer[..|answer|] == answer;
    }
  }

  lemma AddAllStep(wakes: seq<ScheduledWake>, answer: seq<ScheduledWake>, i: nat)
    requires i < |answer|
    ensures AddAll(wakes, answer[..i + 1]) == InsertByKey(AddAll(wakes, answer[..i]), FireAtOf, answer[i])
    ensures answer[..i + 1] == answer[..i] + [answer[i]]
  {
    assert answer[..i + 1][..i] == answer[..i];
  }

  function CancelledEvent(w: ScheduledWake): WakeEvent {
    WakeupCancelled(w.wakeId)
  }
}
