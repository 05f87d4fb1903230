// src/core/pending_store.py: the queue of one session's user messages, operation by operation.
// Each operation is one atomic step over the table, the in-memory mirror, the attachment
// directories and the events pushed to subscribers.
module PendingStore {
  import opened Collections
  import opened SessionState

  datatype Reason = Delivered | Cancelled | Cleared

  datatype QueueEvent = Queued(queuedId: string) | Updated(queuedId: string) | Dequeued(queuedId: string, reason: Reason)

  datatype Request = Request(
    content: string, displayContent: string, hasAttachments: bool, projectName: Option<string>,
    selectedWorktreePath: Option<string>, taskId: Option<string>, at: int)

  datatype Queue = Queue(
    table: seq<PendingMessage>, mirror: seq<PendingMessage>, directories: set<string>, events: seq<QueueEvent>)

  const EMPTY_QUEUE := Queue([], [], {}, [])

  // ---- The operations on values -----------------------------------------------

  /** SELECT ... ORDER BY position ASC */
  function ByPosition(table: seq<PendingMessage>): seq<PendingMessage> {
    if table == [] then [] else InsertByKey(ByPosition(table[..|table| - 1]), PositionOf, table[|table| - 1])
  }

  /** One past the largest position, 0 for an empty queue. */
  function NextPosition(table: seq<PendingMessage>): nat {
    if table == [] then 0
    else
      var rest := NextPosition(table[..|table| - 1]);
      if table[|table| - 1].position < rest then rest else table[|table| - 1].position + 1
  }

  function Entry(id: string, r: Request, position: nat): PendingMessage {
    PendingMessage(id, position, r.content, r.displayContent, if r.hasAttachments then Some(id) else None,
                   r.projectName, r.selectedWorktreePath, r.taskId, r.at, r.at)
  }

  function Ids(s: seq<PendingMessage>): seq<string> {
    Map(s, (m: PendingMessage) => m.queuedId)
  }

  function IdSet(s: seq<PendingMessage>): set<string> {
    set i | 0 <= i < |s| :: s[i].queuedId
  }

  function AfterEnqueue(q: Queue, id: string, r: Request): Queue {
    var e := Entry(id, r, NextPosition(q.table));
    Queue(q.table + [e], InsertByKey(q.mirror, PositionOf, e),
          q.directories + (if r.hasAttachments then {id} else {}), q.events + [Queued(id)])
  }

  function EditIn(s: seq<PendingMessage>, id: string, content: string, displayContent: string, at: int): seq<PendingMessage> {
    var i := FirstIndex(s, HasQueuedId(id));
    if i == |s| then s else s[i := Edited(s[i], content, displayContent, at)]
  }

  function AfterEdit(q: Queue, id: string, content: string, displayContent: string, at: int): Queue {
    if FirstIndex(q.table, HasQueuedId(id)) == |q.table| then q
    else Queue(EditIn(q.table, id, content, displayContent, at), EditIn(q.mirror, id, content, displayContent, at),
               q.directories, q.events + [Updated(id)])
  }

  function RemoveRow(table: seq<PendingMessage>, id: string): seq<PendingMessage> {
    Renumbered(ByPosition(Without(table, FirstIndex(table, HasQueuedId(id)))))
  }

  function RemoveMirrored(mirror: seq<PendingMessage>, id: string): seq<PendingMessage> {
    var i := FirstIndex(mirror, HasQueuedId(id));
    if i == |mirror| then mirror else Renumbered(Without(mirror, i))
  }

  /** What a delete returns: the mirrored entry, if both the row and the entry were there. */
  function DeleteResult(q: Queue, id: string): Option<PendingMessage> {
    var i := FirstIndex(q.mirror, HasQueuedId(id));
    if FirstIndex(q.table, HasQueuedId(id)) == |q.table| || i == |q.mirror| then None else Some(q.mirror[i])
  }

  function AfterDelete(q: Queue, id: string, reason: Reason): Queue {
    if FirstIndex(q.table, HasQueuedId(id)) == |q.table| then q
    else Queue(RemoveRow(q.table, id), RemoveMirrored(q.mirror, id),
               q.directories - {id}, q.events + [Dequeued(id, reason)])
  }

  function AfterPop(q: Queue): Queue {
    if q.mirror == [] then q else AfterDelete(q, q.mirror[0].queuedId, Delivered)
  }

  function ClearedEvent(m: PendingMessage): QueueEvent {
    Dequeued(m.queuedId, Cleared)
  }

  function AfterClear(q: Queue): Queue {
    Queue([], [], q.directories - IdSet(q.mirror),
          q.events + Map(q.mirror, ClearedEvent))
  }

  /** A backend restart: orphan sweep, then the mirror is rebuilt from the table. */
  function AfterRestart(q: Queue): Queue {
    Queue(q.table, ByPosition(q.table), q.directories * IdSet(q.table), q.events)
  }

  datatype Op =
    | Enqueue(id: string, request: Request)
    | Edit(id: string, content: string, displayContent: string, at: int)
    | Cancel(id: string)
    | Pop
    | Clear
    | Restart

  function QueuedIds(events: seq<QueueEvent>): seq<string> {
    if events == [] then []
    else QueuedIds(events[..|events| - 1]) +
         (if events[|events| - 1].Queued? then [events[|events| - 1].queuedId] else [])
  }

  function DequeuedIds(events: seq<QueueEvent>, reason: Reason): seq<string> {
    if events == [] then []
    else DequeuedIds(events[..|events| - 1], reason) +
         (if events[|events| - 1].Dequeued? && events[|events| - 1].reason == reason
          then [events[|events| - 1].queuedId] else [])
  }

  /** Ids are fresh UUIDs: an enqueue with a used id cannot happen and is a stutter here. */
  function Step(q: Queue, op: Op): Queue {
    match op
    case Enqueue(id, r) => if id in QueuedIds(q.events) then q else AfterEnqueue(q, id, r)
    case Edit(id, c, d, at) => AfterEdit(q, id, c, d, at)
    case Cancel(id) => AfterDelete(q, id, Cancelled)
    case Pop => AfterPop(q)
    case Clear => AfterClear(q)
    case Restart => AfterRestart(q)
  }

  function Run(q: Queue, ops: seq<Op>): Queue
    decreases ops
  {
    if ops == [] then q else Run(Step(q, ops[0]), ops[1..])
  }

  // ---- Table and mirror agree ---------------------------------------------------

  ghost predicate Dense(s: seq<PendingMessage>) {
    forall i :: 0 <= i < |s| ==> s[i].position == i
  }

  /** Exactly the messages with attachments have a directory. */
  ghost predicate DirectoriesMatch(directories: set<string>, s: seq<PendingMessage>) {
    && (forall i :: 0 <= i < |s| ==> (s[i].queuedId in directories <==> s[i].attachmentsPath.Some?))
    && (forall id :: id in directories ==> id in IdSet(s))
  }

  ghost predicate Agree(q: Queue) {
    && q.table == q.mirror && Dense(q.mirror)
    && Distinct(Ids(q.mirror))
    && DirectoriesMatch(q.directories, q.mirror)
  }

  lemma {:induction false} DenseSorted(s: seq<PendingMessage>)
    requires Dense(s)
    ensures ByPosition(s) == s && NextPosition(s) == |s|
  {
    if s != [] {
      var init, last := s[..|s| - 1], s[|s| - 1];
      DenseSorted(init);
      assert NextPosition(s) == |s|;
      DenseInsert(init, last);
      assert ByPosition(s) == InsertByKey(ByPosition(init), PositionOf, last);
      hide ByPosition, InsertByKey, NextPosition;
      assert s == init + [last];
    }
  }

  /** The next position is past every row's, and one past some row's, in any table. */
  lemma {:induction false} NextPositionMeans(table: seq<PendingMessage>)
    ensures forall i :: 0 <= i < |table| ==> table[i].position < NextPosition(table)
    ensures if table == [] then NextPosition(table) == 0
            else exists i :: 0 <= i < |table| && NextPosition(table) == table[i].position + 1
  {
    if table != [] {
      var init, last := table[..|table| - 1], table[|table| - 1];
      NextPositionMeans(init);
      assert NextPosition(table) == if last.position < NextPosition(init) then NextPosition(init) else last.position + 1;
      hide NextPosition;
      if last.position < NextPosition(init) && init != [] {
        var i :| 0 <= i < |init| && NextPosition(init) == init[i].position + 1;
        assert table[i] == init[i];
      }
    }
  }

  lemma InsertAtEnd(s: seq<PendingMessage>, e: PendingMessage)
    requires forall j :: 0 <= j < |s| ==> s[j].position <= e.position
    ensures InsertByKey(s, PositionOf, e) == s + [e]
  {
    assert forall j :: 0 <= j < |s| ==> PositionOf(s[j]) <= e.position;
    assert s[..|s|] == s && s[|s|..] == [];
  }

  lemma DenseInsert(s: seq<PendingMessage>, e: PendingMessage)
    requires Dense(s) && e.position == |s|
    ensures InsertByKey(s, PositionOf, e) == s + [e]
  {
    InsertAtEnd(s, e);
  }

  lemma {:induction false} SortMember(s: seq<PendingMessage>)
    ensures multiset(ByPosition(s)) == multiset(s)
    ensures SortedByKey(ByPosition(s), PositionOf)
  {
    if s != [] {
      var init, last := s[..|s| - 1], s[|s| - 1];
      SortMember(init);
      InsertKeepsOrder(ByPosition(init), PositionOf, last);
      InsertKeepsElements(ByPosition(init), PositionOf, last);
      assert ByPosition(s) == InsertByKey(ByPosition(init), PositionOf, last);
      hide ByPosition, InsertByKey, SortedByKey;
      assert s == init + [last];
    }
  }

  /** Removing one entry from an ordered list with gaps keeps the order; renumbering makes it dense again. */
  lemma {:induction false} SortedStays(s: seq<PendingMessage>)
    requires forall i, j :: 0 <= i < j < |s| ==> s[i].position < s[j].position
    ensures ByPosition(s) == s
  {
    if s != [] {
      var init, last := s[..|s| - 1], s[|s| - 1];
      SortedStays(init);
      InsertAtEnd(init, last);
      assert s == init + [last];
    }
  }

  // ---- What every operation keeps ------------------------------------------------

  /** Every queued id is in exactly one place, and pops follow the queueing order. */
  ghost predicate Balanced(queued: seq<string>, popped: seq<string>, cancelled: seq<string>, cleared: seq<string>,
                           waiting: seq<string>)
  {
    && Distinct(queued)
    && SubsequenceOf(popped + waiting, queued)
    && multiset(queued) == multiset(popped) + multiset(cancelled) + multiset(cleared) + multiset(waiting)
  }

  ghost predicate Accounted(q: Queue) {
    Balanced(QueuedIds(q.events), DequeuedIds(q.events, Delivered), DequeuedIds(q.events, Cancelled),
             DequeuedIds(q.events, Cleared), Ids(q.mirror))
  }

  ghost predicate Inv(q: Queue) {
    Agree(q) && Accounted(q)
  }

  lemma BalancedMember(queued: seq<string>, popped: seq<string>, cancelled: seq<string>, cleared: seq<string>,
                       waiting: seq<string>, id: string)
    requires Balanced(queued, popped, cancelled, cleared, waiting) && id in waiting
    ensures id in queued
  {
    assert id in multiset(waiting);
    assert id in multiset(queued);
  }

  lemma BalancedEnqueue(queued: seq<string>, popped: seq<string>, cancelled: seq<string>, cleared: seq<string>,
                        waiting: seq<string>, id: string)
    requires Balanced(queued, popped, cancelled, cleared, waiting) && id !in queued
    ensures Balanced(queued + [id], popped, cancelled, cleared, waiting + [id])
  {
    SubsequenceGrowBoth(popped + waiting, queued, id);
    AppendAssociates(popped, waiting, [id]);
  }

  /** Popping the head moves the border between popped and waiting. */
  lemma BalancedPop(queued: seq<string>, popped: seq<string>, cancelled: seq<string>, cleared: seq<string>,
                    waiting: seq<string>)
    requires Balanced(queued, popped, cancelled, cleared, waiting) && waiting != []
    ensures Balanced(queued, popped + [waiting[0]], cancelled, cleared, waiting[1..])
  {
    assert waiting == [waiting[0]] + waiting[1..];
    AppendAssociates(popped, [waiting[0]], waiting[1..]);
  }

  lemma BalancedCancel(queued: seq<string>, popped: seq<string>, cancelled: seq<string>, cleared: seq<string>,
                       waiting: seq<string>, i: nat)
    requires Balanced(queued, popped, cancelled, cleared, waiting) && i < |waiting|
    ensures Balanced(queued, popped, cancelled + [waiting[i]], cleared, waiting[..i] + waiting[i + 1..])
  {
    var k := |popped| + i;
    SubsequenceRemove(popped + waiting, queued, k);
    assert (popped + waiting)[..k] == popped + waiting[..i];
    assert (popped + waiting)[k + 1..] == waiting[i + 1..];
    AppendAssociates(popped, waiting[..i], waiting[i + 1..]);
    assert waiting == waiting[..i] + ([waiting[i]] + waiting[i + 1..]);
  }

  lemma BalancedClear(queued: seq<string>, popped: seq<string>, cancelled: seq<string>, cleared: seq<string>,
                      waiting: seq<string>)
    requires Balanced(queued, popped, cancelled, cleared, waiting)
    ensures Balanced(queued, popped, cancelled, cleared + waiting, [])
  {
    SubsequencePrefix(popped + waiting, queued, |popped|);
    assert (popped + waiting)[..|popped|] == popped + [];
  }

  lemma EventAppended(events: seq<QueueEvent>, e: QueueEvent, reason: Reason)
    ensures QueuedIds(events + [e]) == QueuedIds(events) + (if e.Queued? then [e.queuedId] else [])
    ensures DequeuedIds(events + [e], reason)
         == DequeuedIds(events, reason) + (if e.Dequeued? && e.reason == reason then [e.queuedId] else [])
  {
    assert (events + [e])[..|events|] == events;
  }

  function PlusDequeued(ids: seq<string>, e: QueueEvent, reason: Reason): seq<string> {
    if e.Dequeued? && e.reason == reason then ids + [e.queuedId] else ids
  }

  lemma EventsAppended(events: seq<QueueEvent>, e: QueueEvent)
    ensures QueuedIds(events + [e]) == if e.Queued? then QueuedIds(events) + [e.queuedId] else QueuedIds(events)
    ensures forall r :: DequeuedIds(events + [e], r) == PlusDequeued(DequeuedIds(events, r), e, r)
  {
    assert QueuedIds(events) + [] == QueuedIds(events);
    forall r
      ensures DequeuedIds(events + [e], r) == PlusDequeued(DequeuedIds(events, r), e, r)
    {
      EventAppended(events, e, r);
    }
    EventAppended(events, e, Delivered);
  }

  lemma EnqueueMirror(q: Queue, id: string, r: Request)
    requires Agree(q)
    ensures AfterEnqueue(q, id, r).table == AfterEnqueue(q, id, r).mirror == q.mirror + [Entry(id, r, |q.mirror|)]
  {
    DenseSorted(q.mirror);
    DenseInsert(q.mirror, Entry(id, r, |q.mirror|));
  }

  lemma EnqueueAgrees(q: Queue, id: string, r: Request)
    requires Agree(q) && id !in Ids(q.mirror)
    ensures Agree(AfterEnqueue(q, id, r))
  {
    EnqueueMirror(q, id, r);
    var t := AfterEnqueue(q, id, r);
    forall i | 0 <= i < |q.mirror|
      ensures q.mirror[i].queuedId != id
    {
      assert Ids(q.mirror)[i] == q.mirror[i].queuedId;
    }
    assert t.mirror[|q.mirror|].queuedId == id;
    assert forall x :: x in IdSet(q.mirror) ==> x in IdSet(t.mirror) by {
      assert forall i :: 0 <= i < |q.mirror| ==> t.mirror[i] == q.mirror[i];
    }
  }

  lemma EnqueueAccounted(q: Queue, id: string, r: Request)
    requires Inv(q) && id !in QueuedIds(q.events)
    ensures Accounted(AfterEnqueue(q, id, r))
  {
    hide Balanced, Agree, InsertByKey;
    EnqueueMirror(q, id, r);
    EventsAppended(q.events, Queued(id));
    assert Ids(AfterEnqueue(q, id, r).mirror) == Ids(q.mirror) + [id];
    BalancedEnqueue(QueuedIds(q.events), DequeuedIds(q.events, Delivered), DequeuedIds(q.events, Cancelled),
                    DequeuedIds(q.events, Cleared), Ids(q.mirror), id);
  }

  lemma EnqueueKeeps(q: Queue, id: string, r: Request)
    requires Inv(q) && id !in QueuedIds(q.events)
    ensures Inv(AfterEnqueue(q, id, r))
  {
    if id in Ids(q.mirror) {
      BalancedMember(QueuedIds(q.events), DequeuedIds(q.events, Delivered), DequeuedIds(q.events, Cancelled),
                     DequeuedIds(q.events, Cleared), Ids(q.mirror), id);
    }
    EnqueueAgrees(q, id, r);
    EnqueueAccounted(q, id, r);
  }

  /** Deleting an id that is there removes that one entry from both sides and closes the gap. */
  lemma DeleteMirror(q: Queue, i: nat, reason: Reason)
    requires Agree(q) && i < |q.mirror|
    ensures FirstIndex(q.mirror, HasQueuedId(q.mirror[i].queuedId)) == i
    ensures DeleteResult(q, q.mirror[i].queuedId) == Some(q.mirror[i])
    ensures AfterDelete(q, q.mirror[i].queuedId, reason)
         == Queue(Renumbered(Without(q.mirror, i)), Renumbered(Without(q.mirror, i)),
                  q.directories - {q.mirror[i].queuedId}, q.events + [Dequeued(q.mirror[i].queuedId, reason)])
  {
    var id := q.mirror[i].queuedId;
    var j := FirstIndex(q.mirror, HasQueuedId(id));
    assert HasQueuedId(id)(q.mirror[i]);
    assert Ids(q.mirror)[j] == Ids(q.mirror)[i];
    SortedStays(Without(q.mirror, i));
  }

  lemma WithoutIds(s: seq<PendingMessage>, i: nat)
    requires i < |s| && Distinct(Ids(s))
    ensures Ids(Renumbered(Without(s, i))) == Ids(s)[..i] + Ids(s)[i + 1..]
    ensures Distinct(Ids(Renumbered(Without(s, i))))
    ensures IdSet(Renumbered(Without(s, i))) == IdSet(s) - {s[i].queuedId}
  {
    var r := Renumbered(Without(s, i));
    forall k | 0 <= k < |r|
      ensures r[k].queuedId == s[if k < i then k else k + 1].queuedId
      ensures r[k].queuedId != s[i].queuedId
    {
      assert Ids(s)[if k < i then k else k + 1] != Ids(s)[i];
    }
    forall id | id in IdSet(s) && id != s[i].queuedId
      ensures id in IdSet(r)
    {
      var k :| 0 <= k < |s| && s[k].queuedId == id;
      assert r[if k < i then k else k - 1].queuedId == id;
    }
  }

  lemma DirectoriesAfterDelete(directories: set<string>, s: seq<PendingMessage>, i: nat)
    requires i < |s| && Distinct(Ids(s)) && DirectoriesMatch(directories, s)
    ensures DirectoriesMatch(directories - {s[i].queuedId}, Renumbered(Without(s, i)))
  {
    WithoutIds(s, i);
    var r := Renumbered(Without(s, i));
    forall k | 0 <= k < |r|
      ensures r[k].queuedId in directories - {s[i].queuedId} <==> r[k].attachmentsPath.Some?
    {
      var m := s[if k < i then k else k + 1];
      assert r[k].queuedId == m.queuedId && r[k].attachmentsPath == m.attachmentsPath;
      assert r[k].queuedId in IdSet(r);
    }
  }

  lemma DeleteAgrees(q: Queue, i: nat, reason: Reason)
    requires Agree(q) && i < |q.mirror|
    ensures Agree(AfterDelete(q, q.mirror[i].queuedId, reason))
  {
    var id := q.mirror[i].queuedId;
    DeleteMirror(q, i, reason);
    WithoutIds(q.mirror, i);
    var r := Renumbered(Without(q.mirror, i));
    hide AfterDelete, Distinct, ByPosition, FirstIndex;
    DirectoriesAfterDelete(q.directories, q.mirror, i);
  }

  lemma DeleteKeeps(q: Queue, i: nat, reason: Reason)
    requires Inv(q) && i < |q.mirror|
    requires reason == Cancelled || (reason == Delivered && i == 0)
    ensures Inv(AfterDelete(q, q.mirror[i].queuedId, reason))
  {
    DeleteAgrees(q, i, reason);
    DeleteMirror(q, i, reason);
    WithoutIds(q.mirror, i);
    var waiting := Ids(q.mirror);
    var queued, popped := QueuedIds(q.events), DequeuedIds(q.events, Delivered);
    var cancelled, cleared := DequeuedIds(q.events, Cancelled), DequeuedIds(q.events, Cleared);
    EventsAppended(q.events, Dequeued(q.mirror[i].queuedId, reason));
    if reason == Delivered {
      assert waiting[..0] + waiting[1..] == waiting[1..];
      BalancedPop(queued, popped, cancelled, cleared, waiting);
    } else {
      BalancedCancel(queued, popped, cancelled, cleared, waiting, i);
    }
  }

  lemma EditAgrees(q: Queue, id: string, content: string, displayContent: string, at: int)
    requires Agree(q)
    ensures Agree(AfterEdit(q, id, content, displayContent, at))
    ensures Ids(AfterEdit(q, id, content, displayContent, at).mirror) == Ids(q.mirror)
  {
    var t := AfterEdit(q, id, content, displayContent, at);
    assert Ids(t.mirror) == Ids(q.mirror);
    assert forall k :: 0 <= k < |q.mirror| ==>
      t.mirror[k].queuedId == q.mirror[k].queuedId && t.mirror[k].attachmentsPath == q.mirror[k].attachmentsPath;
    assert IdSet(t.mirror) == IdSet(q.mirror);
  }

  lemma EditKeeps(q: Queue, id: string, content: string, displayContent: string, at: int)
    requires Inv(q)
    ensures Inv(AfterEdit(q, id, content, displayContent, at))
  {
    EditAgrees(q, id, content, displayContent, at);
    EventsAppended(q.events, Updated(id));
  }

  lemma {:induction false} ClearedEvents(events: seq<QueueEvent>, s: seq<PendingMessage>, reason: Reason)
    ensures QueuedIds(events + Map(s, ClearedEvent)) == QueuedIds(events)
    ensures DequeuedIds(events + Map(s, ClearedEvent), reason)
         == DequeuedIds(events, reason) + (if reason == Cleared then Ids(s) else [])
  {
    hide QueuedIds, DequeuedIds;
    var before := DequeuedIds(events, reason);
    if s == [] {
      assert events + Map(s, ClearedEvent) == events;
      assert before + [] == before;
    } else {
      var init, last := s[..|s| - 1], s[|s| - 1];
      ClearedEvents(events, init, reason);
      ClearedSplit(events, init, last);
      assert s == init + [last];
      hide Ids;
      EventsAppended(events + Map(init, ClearedEvent), ClearedEvent(last));
      AppendAssociates(before, Ids(init), [last.queuedId]);
      assert before + [] == before;
    }
  }

  lemma ClearedSplit(events: seq<QueueEvent>, init: seq<PendingMessage>, last: PendingMessage)
    ensures events + Map(init + [last], ClearedEvent) == events + Map(init, ClearedEvent) + [ClearedEvent(last)]
    ensures Ids(init + [last]) == Ids(init) + [last.queuedId]
  {
    MapAppend(init, [last], ClearedEvent);
  }

  lemma ClearKeeps(q: Queue)
    requires Inv(q)
    ensures Inv(AfterClear(q))
    ensures AfterClear(q).directories == {}
  {
    var popped, cancelled := DequeuedIds(q.events, Delivered), DequeuedIds(q.events, Cancelled);
    ClearedEvents(q.events, q.mirror, Delivered);
    ClearedEvents(q.events, q.mirror, Cancelled);
    ClearedEvents(q.events, q.mirror, Cleared);
    assert popped + [] == popped && cancelled + [] == cancelled;
    BalancedClear(QueuedIds(q.events), popped, cancelled, DequeuedIds(q.events, Cleared), Ids(q.mirror));
  }

  /** Between operations a restart changes nothing: the mirror and the directories were already right. */
  lemma RestartIsIdentity(q: Queue)
    requires Agree(q)
    ensures AfterRestart(q) == q
  {
    DenseSorted(q.mirror);
  }

  lemma CancelKeeps(q: Queue, id: string)
    requires Inv(q)
    ensures Inv(AfterDelete(q, id, Cancelled))
  {
    var i := FirstIndex(q.table, HasQueuedId(id));
    assert q.table == q.mirror;
    assert i < |q.table| ==> q.mirror[i].queuedId == id;
    assert i == |q.table| ==> AfterDelete(q, id, Cancelled) == q;
    hide Inv, AfterDelete, FirstIndex;
    if i < |q.table| {
      DeleteKeeps(q, i, Cancelled);
    }
  }

  lemma PopKeeps(q: Queue)
    requires Inv(q)
    ensures Inv(AfterPop(q))
  {
    hide Inv, AfterDelete;
    if q.mirror != [] {
      DeleteKeeps(q, 0, Delivered);
    }
  }

  lemma RestartKeeps(q: Queue)
    requires Inv(q)
    ensures Inv(AfterRestart(q))
  {
    RestartIsIdentity(q);
  }

  lemma StepKeeps(q: Queue, op: Op)
    requires Inv(q)
    ensures Inv(Step(q, op))
  {
    hide Inv, AfterEnqueue, AfterEdit, AfterDelete, AfterPop, AfterClear, AfterRestart, QueuedIds;
    match op
    case Enqueue(id, r) =>
      if id !in QueuedIds(q.events) {
        EnqueueKeeps(q, id, r);
      }
    case Edit(id, c, d, at) => EditKeeps(q, id, c, d, at);
    case Cancel(id) => CancelKeeps(q, id);
    case Pop => PopKeeps(q);
    case Clear => ClearKeeps(q);
    case Restart => RestartKeeps(q);
  }

  lemma {:induction false} RunKeeps(q: Queue, ops: seq<Op>)
    requires Inv(q)
    ensures Inv(Run(q, ops))
    decreases ops
  {
    if ops != [] {
      StepKeeps(q, ops[0]);
      RunKeeps(Step(q, ops[0]), ops[1..]);
    }
  }

  /**
   * After any run of enqueue, edit, cancel, pop, clear and restart: positions are
   * 0..n-1, the mirror is the table in position order, exactly the waiting messages
   * with attachments have a directory, pops came in queueing order and precede what
   * waits, and every queued message is popped, cancelled, cleared or waiting, once.
   */
  lemma QueueGuarantees(ops: seq<Op>) returns (q: Queue)
    ensures q == Run(EMPTY_QUEUE, ops)
    ensures Dense(q.mirror) && ByPosition(q.table) == q.mirror
    ensures DirectoriesMatch(q.directories, q.mirror)
    ensures SubsequenceOf(DequeuedIds(q.events, Delivered) + Ids(q.mirror), QueuedIds(q.events))
    ensures Distinct(QueuedIds(q.events))
    ensures multiset(QueuedIds(q.events))
         == multiset(DequeuedIds(q.events, Delivered)) + multiset(DequeuedIds(q.events, Cancelled))
          + multiset(DequeuedIds(q.events, Cleared)) + multiset(Ids(q.mirror))
  {
    q := Run(EMPTY_QUEUE, ops);
    RunKeeps(EMPTY_QUEUE, ops);
    DenseSorted(q.mirror);
  }

  // ---- What a waiting message says -------------------------------------------------

  /** The request that queued a message: the first enqueue of its id. */
  function QueuedBy(ops: seq<Op>, id: string): Option<Request> {
    if ops == [] then None
    else
      var before, last := QueuedBy(ops[..|ops| - 1], id), ops[|ops| - 1];
      if before.None? && last.Enqueue? && last.id == id then Some(last.request) else before
  }

  /** The last edit of a message after it was queued. */
  function LastEdit(ops: seq<Op>, id: string): Option<Op> {
    if ops == [] then None
    else
      var init, last := ops[..|ops| - 1], ops[|ops| - 1];
      if last.Edit? && last.id == id && QueuedBy(init, id).Some? then Some(last) else LastEdit(init, id)
  }

  /** Where and when it was submitted stays as requested; its texts are those last written. */
  predicate SaysWhatWasWritten(ops: seq<Op>, m: PendingMessage) {
    var queued, edit := QueuedBy(ops, m.queuedId), LastEdit(ops, m.queuedId);
    && queued.Some?
    && m.projectName == queued.value.projectName && m.taskId == queued.value.taskId
    && m.selectedWorktreePath == queued.value.selectedWorktreePath
    && m.submittedAt == queued.value.at
    && m.attachmentsPath == (if queued.value.hasAttachments then Some(m.queuedId) else None)
    && match edit
       case None =>
         && m.content == queued.value.content && m.displayContent == queued.value.displayContent
         && m.updatedAt == queued.value.at
       case Some(e) =>
         e.Edit? && m.content == e.content && m.displayContent == e.displayContent && m.updatedAt == e.at
  }

  lemma RunLast(q: Queue, ops: seq<Op>, op: Op)
    ensures Run(q, ops + [op]) == Step(Run(q, ops), op)
    decreases ops
  {
    hide Step;
    if ops == [] {
      assert [op][1..] == [];
    } else {
      assert (ops + [op])[1..] == ops[1..] + [op];
      RunLast(Step(q, ops[0]), ops[1..], op);
    }
  }

  lemma StepQueues(q: Queue, op: Op)
    ensures QueuedIds(Step(q, op).events) ==
      if op.Enqueue? && op.id !in QueuedIds(q.events) then QueuedIds(q.events) + [op.id] else QueuedIds(q.events)
  {
    hide QueuedIds, RemoveRow, RemoveMirrored, InsertByKey, EditIn, FirstIndex;
    match op
    case Enqueue(id, _) => EventsAppended(q.events, Queued(id));
    case Edit(id, _, _, _) => EventsAppended(q.events, Updated(id));
    case Cancel(id) => EventsAppended(q.events, Dequeued(id, Cancelled));
    case Pop =>
      if q.mirror != [] {
        EventsAppended(q.events, Dequeued(q.mirror[0].queuedId, Delivered));
      }
    case Clear => ClearedEvents(q.events, q.mirror, Cleared);
    case Restart =>
  }

  lemma WrittenStep(ops: seq<Op>, op: Op, id: string)
    ensures QueuedBy(ops + [op], id) ==
      if QueuedBy(ops, id).None? && op.Enqueue? && op.id == id then Some(op.request) else QueuedBy(ops, id)
    ensures LastEdit(ops + [op], id) ==
      if op.Edit? && op.id == id && QueuedBy(ops, id).Some? then Some(op) else LastEdit(ops, id)
  {
    assert (ops + [op])[..|ops + [op]| - 1] == ops;
  }

  lemma NothingQueued(id: string)
    ensures id !in QueuedIds(Run(EMPTY_QUEUE, []).events) && QueuedBy([], id).None?
  {
  }

  lemma QueuesOneMore(q: Queue, op: Op, id: string)
    ensures id in QueuedIds(Step(q, op).events) <==> id in QueuedIds(q.events) || (op.Enqueue? && op.id == id)
  {
    hide Step, QueuedIds;
    StepQueues(q, op);
  }

  lemma {:induction false} QueuedByMeans(ops: seq<Op>, id: string)
    ensures QueuedBy(ops, id).Some? <==> id in QueuedIds(Run(EMPTY_QUEUE, ops).events)
  {
    hide Run, Step, QueuedIds, QueuedBy, LastEdit;
    if ops == [] {
      NothingQueued(id);
    } else {
      var init, last := ops[..|ops| - 1], ops[|ops| - 1];
      QueuedByMeans(init, id);
      WrittenStep(init, last, id);
      RunLast(EMPTY_QUEUE, init, last);
      QueuesOneMore(Run(EMPTY_QUEUE, init), last, id);
      assert ops == init + [last];
    }
  }

  /** Where an entry after a step comes from: an entry before it, edited if the step says so, or the enqueue. */
  ghost predicate ComesFrom(q: Queue, op: Op, m: PendingMessage) {
    || (op.Enqueue? && op.id == m.queuedId && op.id !in QueuedIds(q.events) && m == Entry(op.id, op.request, m.position))
    || (exists k :: 0 <= k < |q.mirror| && q.mirror[k].queuedId == m.queuedId
          && !(op.Enqueue? && op.id == m.queuedId && op.id !in QueuedIds(q.events))
          && m == (if op.Edit? && op.id == m.queuedId
                   then Edited(q.mirror[k], op.content, op.displayContent, op.at)
                   else q.mirror[k]).(position := m.position))
  }

  lemma WaitingWasQueued(q: Queue, k: nat)
    requires Inv(q) && k < |q.mirror|
    ensures q.mirror[k].queuedId in QueuedIds(q.events)
  {
    assert Ids(q.mirror)[k] == q.mirror[k].queuedId;
    BalancedMember(QueuedIds(q.events), DequeuedIds(q.events, Delivered), DequeuedIds(q.events, Cancelled),
                   DequeuedIds(q.events, Cleared), Ids(q.mirror), q.mirror[k].queuedId);
  }

  lemma KeptOrigin(q: Queue, op: Op, k: nat)
    requires Inv(q) && op.Enqueue? && k < |q.mirror|
    ensures ComesFrom(q, op, q.mirror[k])
  {
    WaitingWasQueued(q, k);
    hide Inv, QueuedIds;
  }

  lemma NewOrigin(q: Queue, op: Op)
    requires Agree(q) && op.Enqueue? && op.id !in QueuedIds(q.events)
    ensures Step(q, op).mirror == q.mirror + [Entry(op.id, op.request, |q.mirror|)]
    ensures ComesFrom(q, op, Entry(op.id, op.request, |q.mirror|))
  {
    hide QueuedIds, InsertByKey;
    EnqueueMirror(q, op.id, op.request);
  }

  lemma EnqueueOrigin(q: Queue, op: Op)
    requires Inv(q) && op.Enqueue?
    ensures forall m :: m in Step(q, op).mirror ==> ComesFrom(q, op, m)
  {
    if op.id !in QueuedIds(q.events) {
      NewOrigin(q, op);
    } else {
      assert Step(q, op) == q;
    }
    hide Inv, Step, ComesFrom, QueuedIds, Entry;
    forall k | 0 <= k < |q.mirror|
      ensures ComesFrom(q, op, q.mirror[k])
    {
      KeptOrigin(q, op, k);
    }
  }

  lemma EditOrigin(q: Queue, op: Op)
    requires Agree(q) && op.Edit?
    ensures forall m :: m in Step(q, op).mirror ==> ComesFrom(q, op, m)
  {
    var t := Step(q, op);
    var i := FirstIndex(q.mirror, HasQueuedId(op.id));
    forall m | m in t.mirror
      ensures ComesFrom(q, op, m)
    {
      var k :| 0 <= k < |t.mirror| && t.mirror[k] == m;
      assert q.mirror[k].queuedId == m.queuedId;
      if q.mirror[k].queuedId == op.id {
        assert HasQueuedId(op.id)(q.mirror[k]);
        assert Ids(q.mirror)[k] == Ids(q.mirror)[i];
      }
    }
  }

  lemma DeleteOrigin(q: Queue, op: Op, i: nat, reason: Reason)
    requires Agree(q) && i < |q.mirror| && !op.Edit? && !op.Enqueue?
    ensures forall m :: m in AfterDelete(q, q.mirror[i].queuedId, reason).mirror ==> ComesFrom(q, op, m)
  {
    hide Agree, AfterDelete, DeleteResult, FirstIndex, ComesFrom, Renumbered;
    DeleteMirror(q, i, reason);
    RenumberedOrigin(q, op, i);
  }

  lemma RenumberedOrigin(q: Queue, op: Op, i: nat)
    requires i < |q.mirror| && !op.Edit? && !op.Enqueue?
    ensures forall m :: m in Renumbered(Without(q.mirror, i)) ==> ComesFrom(q, op, m)
  {
    hide ComesFrom, Renumbered;
    var rest := Without(q.mirror, i);
    forall k | 0 <= k < |rest|
      ensures ComesFrom(q, op, Renumbered(rest)[k])
    {
      MovedOrigin(q, op, if k < i then k else k + 1, k);
    }
  }

  lemma MovedOrigin(q: Queue, op: Op, k: nat, position: nat)
    requires k < |q.mirror| && !op.Edit? && !op.Enqueue?
    ensures ComesFrom(q, op, q.mirror[k].(position := position))
  {
  }

  lemma SameOrigin(q: Queue, op: Op)
    requires !op.Edit? && !op.Enqueue?
    ensures forall m :: m in q.mirror ==> ComesFrom(q, op, m)
  {
  }

  lemma StepOrigin(q: Queue, op: Op)
    requires Inv(q)
    ensures forall m :: m in Step(q, op).mirror ==> ComesFrom(q, op, m)
  {
    hide ComesFrom, AfterDelete, AfterEnqueue, AfterEdit, Accounted;
    match op
    case Enqueue(_, _) => EnqueueOrigin(q, op);
    case Edit(_, _, _, _) => EditOrigin(q, op);
    case Cancel(id) =>
      var i := FirstIndex(q.mirror, HasQueuedId(id));
      SameOrigin(q, op);
      if i < |q.mirror| {
        DeleteOrigin(q, op, i, Cancelled);
      } else {
        NothingToDelete(q, id, Cancelled);
      }
    case Pop =>
      if q.mirror != [] {
        DeleteOrigin(q, op, 0, Delivered);
      }
    case Clear =>
    case Restart =>
      RestartIsIdentity(q);
      SameOrigin(q, op);
  }

  lemma NothingToDelete(q: Queue, id: string, reason: Reason)
    requires q.table == q.mirror && FirstIndex(q.mirror, HasQueuedId(id)) == |q.mirror|
    ensures AfterDelete(q, id, reason) == q
  {
  }

  lemma OriginSays(ops: seq<Op>, op: Op, m: PendingMessage)
    requires ComesFrom(Run(EMPTY_QUEUE, ops), op, m)
    requires forall k :: 0 <= k < |Run(EMPTY_QUEUE, ops).mirror| ==> SaysWhatWasWritten(ops, Run(EMPTY_QUEUE, ops).mirror[k])
    ensures SaysWhatWasWritten(ops + [op], m)
  {
    hide Run, QueuedIds, QueuedBy, LastEdit, SaysWhatWasWritten;
    var q := Run(EMPTY_QUEUE, ops);
    QueuedByMeans(ops, m.queuedId);
    if op.Enqueue? && op.id == m.queuedId && op.id !in QueuedIds(q.events) {
      NewSays(ops, op, m);
    } else {
      var k :| 0 <= k < |q.mirror| && q.mirror[k].queuedId == m.queuedId
        && m == (if op.Edit? && op.id == m.queuedId
                 then Edited(q.mirror[k], op.content, op.displayContent, op.at)
                 else q.mirror[k]).(position := m.position);
      OldSays(ops, op, q.mirror[k], m);
    }
  }

  lemma NewSays(ops: seq<Op>, op: Op, m: PendingMessage)
    requires op.Enqueue? && QueuedBy(ops, op.id).None? && m == Entry(op.id, op.request, m.position)
    ensures SaysWhatWasWritten(ops + [op], m)
  {
    WrittenStep(ops, op, m.queuedId);
    NeverEdited(ops, m.queuedId);
    hide QueuedBy, LastEdit;
  }

  lemma OldSays(ops: seq<Op>, op: Op, before: PendingMessage, m: PendingMessage)
    requires SaysWhatWasWritten(ops, before) && before.queuedId == m.queuedId
    requires m == (if op.Edit? && op.id == m.queuedId then Edited(before, op.content, op.displayContent, op.at)
                   else before).(position := m.position)
    ensures SaysWhatWasWritten(ops + [op], m)
  {
    WrittenStep(ops, op, m.queuedId);
    hide QueuedBy, LastEdit;
  }

  lemma {:induction false} NeverEdited(ops: seq<Op>, id: string)
    requires QueuedBy(ops, id).None?
    ensures LastEdit(ops, id).None?
  {
    if ops != [] {
      NeverEdited(ops[..|ops| - 1], id);
    }
  }

  lemma HeadIsHandedOver(q: Queue)
    requires Inv(q)
    ensures q.mirror != [] ==> DeleteResult(q, q.mirror[0].queuedId) == Some(q.mirror[0])
  {
    if q.mirror != [] {
      DeleteMirror(q, 0, Delivered);
    }
  }

  /**
   * After any run every waiting message carries its own request's project, worktree, task,
   * attachments and submission time, and the texts and time of the last edit made since.
   * A pop hands over the first of them.
   */
  lemma {:induction false} WaitingSaysWhatWasWritten(ops: seq<Op>)
    ensures
      var q := Run(EMPTY_QUEUE, ops);
      && (forall k :: 0 <= k < |q.mirror| ==> SaysWhatWasWritten(ops, q.mirror[k]))
      && (q.mirror != [] ==> DeleteResult(q, q.mirror[0].queuedId) == Some(q.mirror[0]))
  {
    hide Inv, Step, SaysWhatWasWritten, ComesFrom;
    RunKeeps(EMPTY_QUEUE, ops);
    HeadIsHandedOver(Run(EMPTY_QUEUE, ops));
    hide DeleteResult;
    if ops != [] {
      var init, last := ops[..|ops| - 1], ops[|ops| - 1];
      WaitingSaysWhatWasWritten(init);
      RunLast(EMPTY_QUEUE, init, last);
      RunKeeps(EMPTY_QUEUE, init);
      hide Run;
      assert ops == init + [last];
      StepOrigin(Run(EMPTY_QUEUE, init), last);
      forall k | 0 <= k < |Run(EMPTY_QUEUE, ops).mirror|
        ensures SaysWhatWasWritten(ops, Run(EMPTY_QUEUE, ops).mirror[k])
      {
        OriginSays(init, last, Run(EMPTY_QUEUE, ops).mirror[k]);
      }
    }
  }

  // ---- Edits are announced -----------------------------------------------------------

  function UpdatedIds(events: seq<QueueEvent>): seq<string> {
    if events == [] then []
    else
      var last := events[|events| - 1];
      UpdatedIds(events[..|events| - 1]) + (if last.Updated? then [last.queuedId] else [])
  }

  /** The edits that came while their message waited. */
  function EditsOfWaiting(ops: seq<Op>): seq<string> {
    if ops == [] then []
    else
      var init, last := ops[..|ops| - 1], ops[|ops| - 1];
      EditsOfWaiting(init) + (if last.Edit? && last.id in IdSet(Run(EMPTY_QUEUE, init).mirror) then [last.id] else [])
  }

  lemma UpdatesStep(events: seq<QueueEvent>, e: QueueEvent)
    ensures UpdatedIds(events + [e]) == UpdatedIds(events) + (if e.Updated? then [e.queuedId] else [])
  {
    assert (events + [e])[..|events + [e]| - 1] == events;
  }

  lemma {:induction false} ClearingUpdatesNothing(events: seq<QueueEvent>, s: seq<PendingMessage>)
    ensures UpdatedIds(events + Map(s, ClearedEvent)) == UpdatedIds(events)
  {
    hide UpdatedIds;
    if s == [] {
      assert events + Map(s, ClearedEvent) == events;
    } else {
      var init, last := s[..|s| - 1], s[|s| - 1];
      ClearingUpdatesNothing(events, init);
      ClearedSplit(events, init, last);
      assert s == init + [last];
      UpdatesStep(events + Map(init, ClearedEvent), ClearedEvent(last));
    }
  }

  lemma MirroredIff(q: Queue, id: string)
    ensures id in IdSet(q.mirror) <==> FirstIndex(q.mirror, HasQueuedId(id)) < |q.mirror|
  {
    var i := FirstIndex(q.mirror, HasQueuedId(id));
    if id in IdSet(q.mirror) {
      var k :| 0 <= k < |q.mirror| && q.mirror[k].queuedId == id;
      assert HasQueuedId(id)(q.mirror[k]);
    }
  }

  lemma StepUpdates(q: Queue, op: Op)
    requires q.table == q.mirror
    ensures UpdatedIds(Step(q, op).events)
         == UpdatedIds(q.events) + if op.Edit? && op.id in IdSet(q.mirror) then [op.id] else []
  {
    hide UpdatedIds, QueuedIds, RemoveRow, RemoveMirrored, InsertByKey, EditIn, FirstIndex, IdSet;
    match op
    case Enqueue(id, _) => UpdatesStep(q.events, Queued(id));
    case Edit(id, _, _, _) =>
      MirroredIff(q, id);
      UpdatesStep(q.events, Updated(id));
    case Cancel(id) => UpdatesStep(q.events, Dequeued(id, Cancelled));
    case Pop =>
      if q.mirror != [] {
        UpdatesStep(q.events, Dequeued(q.mirror[0].queuedId, Delivered));
      }
    case Clear => ClearingUpdatesNothing(q.events, q.mirror);
    case Restart =>
  }

  lemma EditsStep(ops: seq<Op>, op: Op)
    ensures EditsOfWaiting(ops + [op]) == EditsOfWaiting(ops)
         + if op.Edit? && op.id in IdSet(Run(EMPTY_QUEUE, ops).mirror) then [op.id] else []
  {
    hide Run, IdSet;
    assert (ops + [op])[..|ops + [op]| - 1] == ops;
  }

  lemma NothingUpdated()
    ensures UpdatedIds(Run(EMPTY_QUEUE, []).events) == EditsOfWaiting([]) == []
  {
  }

  /** Over any run, subscribers are told of exactly the edits of waiting messages, in order. */
  lemma {:induction false} EditsAreAnnounced(ops: seq<Op>)
    ensures UpdatedIds(Run(EMPTY_QUEUE, ops).events) == EditsOfWaiting(ops)
  {
    hide Run, Step, Inv, IdSet, UpdatedIds, EditsOfWaiting;
    if ops == [] {
      NothingUpdated();
    } else {
      var init, last := ops[..|ops| - 1], ops[|ops| - 1];
      EditsAreAnnounced(init);
      assert ops == init + [last];
      RunLast(EMPTY_QUEUE, init, last);
      EditsStep(init, last);
      UpdatesAfter(Run(EMPTY_QUEUE, init), init, last);
    }
  }

  lemma UpdatesAfter(q: Queue, ops: seq<Op>, op: Op)
    requires q == Run(EMPTY_QUEUE, ops)
    ensures UpdatedIds(Step(q, op).events)
         == UpdatedIds(q.events) + if op.Edit? && op.id in IdSet(q.mirror) then [op.id] else []
  {
    RunKeeps(EMPTY_QUEUE, ops);
    hide Run, Step, UpdatedIds, IdSet, Accounted;
    StepUpdates(q, op);
  }

  // ---- What a cancel and a restart do ----------------------------------------------------

  lemma CancelWaiting(q: Queue, i: nat)
    requires Agree(q) && i < |q.mirror|
    ensures
      var id := q.mirror[i].queuedId;
      var t := Step(q, Cancel(id));
      Ids(t.mirror) == Filter(Ids(q.mirror), Not(id)) && t.events == q.events + [Dequeued(id, Cancelled)]
  {
    DeleteMirror(q, i, Cancelled);
    WithoutIds(q.mirror, i);
    FilterOut(Ids(q.mirror), i);
    hide Filter, AfterDelete;
  }

  lemma UnmirroredId(s: seq<PendingMessage>, id: string)
    requires FirstIndex(s, HasQueuedId(id)) == |s|
    ensures id !in Ids(s)
  {
    hide FirstIndex;
    forall k | 0 <= k < |s|
      ensures Ids(s)[k] != id
    {
      assert !HasQueuedId(id)(s[k]);
    }
  }

  lemma OthersStay(ids: seq<string>, id: string)
    requires id !in ids
    ensures Filter(ids, Not(id)) == ids
  {
    hide Filter;
    FilterAll(ids, Not(id));
  }

  lemma CancelOther(q: Queue, id: string)
    requires q.table == q.mirror && FirstIndex(q.mirror, HasQueuedId(id)) == |q.mirror|
    ensures Step(q, Cancel(id)) == q
  {
    hide FirstIndex;
    NothingToDelete(q, id, Cancelled);
    hide AfterDelete;
  }

  /** A cancel takes the message out, if it waits, leaves all others in their order, and says so. */
  lemma CancelTakesOut(q: Queue, id: string)
    requires Agree(q)
    ensures
      var t := Step(q, Cancel(id));
      && Ids(t.mirror) == Filter(Ids(q.mirror), Not(id))
      && t.events == (if id in Ids(q.mirror) then q.events + [Dequeued(id, Cancelled)] else q.events)
  {
    assert q.table == q.mirror;
    hide Agree, Step, Filter, FirstIndex;
    var i := FirstIndex(q.mirror, HasQueuedId(id));
    if i < |q.mirror| {
      assert Ids(q.mirror)[i] == id;
      CancelWaiting(q, i);
    } else {
      UnmirroredId(q.mirror, id);
      CancelOther(q, id);
      OthersStay(Ids(q.mirror), id);
    }
  }

  /** Whatever mirror and directories are left over, a restart sorts the rows and keeps their directories. */
  lemma RestartRebuilds(q: Queue)
    ensures
      var t := Step(q, Restart);
      && t.table == q.table && t.events == q.events
      && multiset(t.mirror) == multiset(q.table) && SortedByKey(t.mirror, PositionOf)
      && forall id :: id in t.directories <==> id in q.directories && id in IdSet(q.table)
  {
    SortMember(q.table);
    hide ByPosition, SortedByKey, IdSet;
  }
}
