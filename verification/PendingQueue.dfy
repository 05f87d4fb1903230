// The store of PendingStore as the source writes it, and the drain loop of
// src/core/prompt_router.py over it.
//
// The class holds the table, the directories and the events, and changes them and its
// mirror in the order of the source's writes; each method is proved equal to the step
// of the same name.
module PendingQueue {
  import opened Collections
  import opened SessionState
  import opened PendingStore

  function PopTimes(q: Queue, n: nat): Queue {
    if n == 0 then q else AfterPop(PopTimes(q, n - 1))
  }

  /** On an agreeing queue a pop returns the head and leaves the rest, in step. */
  lemma PopOne(q: Queue)
    requires Agree(q) && q.mirror != []
    ensures Agree(AfterPop(q))
    ensures Ids(AfterPop(q).mirror) == Ids(q.mirror)[1..]
    ensures DeleteResult(q, q.mirror[0].queuedId) == Some(q.mirror[0])
  {
    DeleteAgrees(q, 0, Delivered);
    DeleteMirror(q, 0, Delivered);
    WithoutIds(q.mirror, 0);
    assert Ids(q.mirror)[..0] + Ids(q.mirror)[1..] == Ids(q.mirror)[1..];
  }

  lemma IndexFinds(messages: seq<PendingMessage>, queuedId: string)
    ensures FirstIndex(messages, HasQueuedId(queuedId)) < |messages| <==>
      exists m :: m in messages && m.queuedId == queuedId
  {
    var i := FirstIndex(messages, HasQueuedId(queuedId));
    if i < |messages| {
      assert messages[i] in messages && HasQueuedId(queuedId)(messages[i]);
    } else {
      forall k | 0 <= k < |messages|
        ensures messages[k].queuedId != queuedId
      {
        assert !HasQueuedId(queuedId)(messages[k]);
      }
    }
  }

  /** An edited entry is still the first of its id. */
  lemma EditedIndex(messages: seq<PendingMessage>, queuedId: string, content: string, displayContent: string, now: int)
    ensures
      var i := FirstIndex(messages, HasQueuedId(queuedId));
      i < |messages| ==>
        FirstIndex(messages[i := Edited(messages[i], content, displayContent, now)], HasQueuedId(queuedId)) == i
  {
    var i := FirstIndex(messages, HasQueuedId(queuedId));
    if i < |messages| {
      var after := messages[i := Edited(messages[i], content, displayContent, now)];
      assert HasQueuedId(queuedId)(messages[i]) && HasQueuedId(queuedId)(after[i]);
      assert forall j :: 0 <= j < i ==> !HasQueuedId(queuedId)(messages[j]) && after[j] == messages[j];
    }
  }

  /** How one delivery through `handle_prompt` ends. */
  datatype Attempt = Accepted(thenBusy: bool) | Raised

  /** The first `n` deliveries succeed and leave the session idle. */
  predicate QuietUpTo(attempts: seq<Attempt>, n: nat)
    requires n <= |attempts|
  {
    n == 0 || (attempts[n - 1] == Accepted(false) && QuietUpTo(attempts, n - 1))
  }

  class SessionPendingMessageStore {
    const mirror: SessionPendingState
    var table: seq<PendingMessage>
    var directories: set<string>
    var events: seq<QueueEvent>

    ghost function Abs(): Queue
      reads this, mirror
    {
      Queue(table, mirror.messages, directories, events)
    }

    constructor ()
      ensures Abs() == EMPTY_QUEUE && fresh(mirror)
    {
      mirror := new SessionPendingState();
      table, directories, events := [], {}, [];
    }

    method TopPosition() returns (position: nat)
      ensures position == NextPosition(table)
    {
      position := 0;
      for i := 0 to |table|
        invariant position == NextPosition(table[..i])
      {
        assert table[..i + 1][..i] == table[..i];
        if table[i].position >= position {
          position := table[i].position + 1;
        }
      }
      assert table[..|table|] == table;
    }

    /** Spill, insert, mirror, notify; `queuedId` is the fresh UUID. */
    method Enqueue(queuedId: string, r: Request) returns (entry: PendingMessage)
      modifies this, mirror
      ensures Abs() == AfterEnqueue(old(Abs()), queuedId, r)
      ensures entry == Entry(queuedId, r, NextPosition(old(table)))
    {
      if r.hasAttachments {
        directories := directories + {queuedId};
      }
      var position := TopPosition();
      entry := Entry(queuedId, r, position);
      table := table + [entry];
      mirror.Add(entry);
      events := events + [Queued(queuedId)];
    }

    method RowIndex(queuedId: string) returns (idx: nat)
      ensures idx == FirstIndex(table, HasQueuedId(queuedId))
    {
      idx := 0;
      while idx < |table| && table[idx].queuedId != queuedId
        invariant idx <= |table|
        invariant FirstIndex(table, HasQueuedId(queuedId)) == idx + FirstIndex(table[idx..], HasQueuedId(queuedId))
      {
        assert table[idx..][1..] == table[idx + 1..];
        idx := idx + 1;
      }
    }

    /** The edited entry as mirrored, or nothing without a row or without an entry. */
    method Edit(queuedId: string, content: string, displayContent: string, now: int) returns (edited: Option<PendingMessage>)
      modifies this, mirror
      ensures Abs() == AfterEdit(old(Abs()), queuedId, content, displayContent, now)
      ensures edited.Some? <==>
        (exists r :: r in old(table) && r.queuedId == queuedId) && exists m :: m in mirror.messages && m.queuedId == queuedId
      ensures edited.Some? ==>
        && edited.value in mirror.messages
        && edited.value.queuedId == queuedId
        && edited.value.content == content && edited.value.displayContent == displayContent
    {
      var idx := RowIndex(queuedId);
      IndexFinds(table, queuedId);
      EditedIndex(mirror.messages, queuedId, content, displayContent, now);
      hide FirstIndex;
      if idx == |table| {
        return None;
      }
      table := table[idx := Edited(table[idx], content, displayContent, now)];
      mirror.Update(queuedId, content, displayContent, now);
      events := events + [Updated(queuedId)];
      var at := mirror.FindIndex(queuedId);
      IndexFinds(mirror.messages, queuedId);
      edited := if at == |mirror.messages| then None else Some(mirror.messages[at]);
    }

    /** Densely renumbers the remaining rows, given in position order. */
    method RenumberRows(remaining: seq<PendingMessage>)
      modifies this`table
      ensures table == Renumbered(remaining)
    {
      table := remaining;
      for newPosition := 0 to |remaining|
        invariant |table| == |remaining|
        invariant forall i :: 0 <= i < |remaining| ==>
          table[i] == if i < newPosition then remaining[i].(position := i) else remaining[i]
      {
        table := table[newPosition := table[newPosition].(position := newPosition)];
      }
    }

    method DeleteOne(queuedId: string, reason: Reason) returns (removed: Option<PendingMessage>)
      modifies this, mirror
      ensures Abs() == AfterDelete(old(Abs()), queuedId, reason)
      ensures removed == DeleteResult(old(Abs()), queuedId)
    {
      var idx := RowIndex(queuedId);
      if idx == |table| {
        return None;
      }
      RenumberRows(ByPosition(table[..idx] + table[idx + 1..]));
      removed := mirror.Remove(queuedId);
      directories := directories - {queuedId};
      events := events + [Dequeued(queuedId, reason)];
    }

    method Cancel(queuedId: string) returns (removed: Option<PendingMessage>)
      modifies this, mirror
      ensures Abs() == AfterDelete(old(Abs()), queuedId, Cancelled)
      ensures removed == DeleteResult(old(Abs()), queuedId)
    {
      removed := DeleteOne(queuedId, Cancelled);
    }

    method PopHead() returns (head: Option<PendingMessage>)
      modifies this, mirror
      ensures Abs() == AfterPop(old(Abs()))
      ensures head == if old(mirror.messages) == [] then None
                      else DeleteResult(old(Abs()), old(mirror.messages)[0].queuedId)
    {
      if mirror.messages == [] {
        return None;
      }
      head := DeleteOne(mirror.messages[0].queuedId, Delivered);
    }

    method ClearSession() returns (dropped: seq<PendingMessage>)
      modifies this, mirror
      ensures Abs() == AfterClear(old(Abs()))
      ensures dropped == old(mirror.messages)
    {
      table := [];
      dropped := mirror.Clear();
      for i := 0 to |dropped|
        modifies this`directories, this`events
        invariant directories == old(directories) - IdSet(dropped[..i])
        invariant events == old(events) + Map(dropped[..i], ClearedEvent)
      {
        assert IdSet(dropped[..i + 1]) == IdSet(dropped[..i]) + {dropped[i].queuedId};
        assert Map(dropped[..i + 1], ClearedEvent) == Map(dropped[..i], ClearedEvent) + [ClearedEvent(dropped[i])];
        directories := directories - {dropped[i].queuedId};
        events := events + [Dequeued(dropped[i].queuedId, Cleared)];
      }
      assert dropped[..|dropped|] == dropped;
    }

    /** Startup sweep: drops every directory whose id has no row. */
    method SweepOrphans() returns (removed: nat)
      modifies this`directories
      ensures directories == old(directories) * IdSet(table)
      ensures removed == |old(directories)| - |directories|
    {
      var liveIds := IdSet(table);
      var rest := directories;
      removed := 0;
      while rest != {}
        modifies this`directories
        invariant rest <= directories <= old(directories)
        invariant forall d :: d in old(directories) && d !in directories ==> d !in liveIds
        invariant forall d :: d in directories && d !in rest ==> d in liveIds
        invariant removed + |directories| == |old(directories)|
        decreases rest
      {
        var dir :| dir in rest;
        rest := rest - {dir};
        if dir !in liveIds {
          directories := directories - {dir};
          removed := removed + 1;
        }
      }
    }

    method LoadForSession()
      modifies mirror
      ensures mirror.messages == ByPosition(table)
    {
      var rows := ByPosition(table);
      mirror.messages := [];
      for i := 0 to |rows|
        modifies mirror
        invariant mirror.messages == rows[..i]
      {
        mirror.messages := mirror.messages + [rows[i]];
      }
    }

    /** A pop from a non-empty agreeing queue. */
    method PopWaiting() returns (head: Option<PendingMessage>)
      requires Agree(Abs()) && mirror.messages != []
      modifies this, mirror
      ensures Abs() == AfterPop(old(Abs())) && Agree(Abs())
      ensures head == Some(old(mirror.messages)[0])
      ensures [old(mirror.messages)[0].queuedId] + Ids(mirror.messages) == Ids(old(mirror.messages))
    {
      PopOne(Abs());
      head := PopHead();
    }

    /**
     * The drain loop. `busy` is the session's state on entry and `attempts[k]` how the
     * k-th delivery ends. It hands over the longest queue prefix that keeps the session
     * idle, in order, each message once, and stops at the first failure.
     */
    method DrainOne(busy: bool, attempts: seq<Attempt>) returns (pops: nat, handed: seq<string>, failed: bool)
      requires Agree(Abs()) && |attempts| >= |mirror.messages|
      modifies this, mirror
      ensures Abs() == PopTimes(old(Abs()), pops) && Agree(Abs())
      ensures |handed| == pops <= |attempts| && handed + Ids(mirror.messages) == Ids(old(mirror.messages))
      ensures busy ==> pops == 0
      ensures pops > 0 ==> QuietUpTo(attempts, pops - 1)
      ensures mirror.messages != [] ==> busy || (pops > 0 && attempts[pops - 1] != Accepted(false))
      ensures failed <==> pops > 0 && attempts[pops - 1].Raised?
    {
      hide AfterPop, Agree;
      pops, handed, failed := 0, [], false;
      var nowBusy := busy;
      ghost var q := Abs();
      while mirror.messages != [] && !nowBusy
        invariant Abs() == PopTimes(q, pops) && Agree(Abs())
        invariant |handed| == pops <= |q.mirror| && handed + Ids(mirror.messages) == Ids(q.mirror)
        invariant nowBusy <==> busy || (pops > 0 && attempts[pops - 1] != Accepted(false))
        invariant busy ==> pops == 0
        invariant pops > 0 ==> QuietUpTo(attempts, pops - 1)
        invariant failed <==> pops > 0 && attempts[pops - 1].Raised?
        decreases |mirror.messages|
      {
        var head := PopWaiting();
        if head == None {
          break;
        }
        assert |handed + Ids(mirror.messages)| < |Ids(q.mirror)|;
        AppendAssociates(handed, [head.value.queuedId], Ids(mirror.messages));
        handed := handed + [head.value.queuedId];
        nowBusy := attempts[pops] != Accepted(false);
        failed := attempts[pops].Raised?;
        pops := pops + 1;
      }
    }
  }
}
