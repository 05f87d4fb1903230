// src/core/session_state.py: the sorted in-memory mirrors of a session's queued
// messages and scheduled wakes.
//
// Both are lists kept in the order of a key (the position, the fire time) by the same
// insertion loop; both find their entries by id from the front. The classes here change
// the lists in place; the functions before them say what a list is afterwards, and the
// two stores use those functions in their own steps.
module SessionState {
  import opened Collections

  datatype PendingMessage = PendingMessage(
    queuedId: string,
    position: nat,
    content: string,
    displayContent: string,
    attachmentsPath: Option<string>,
    projectName: Option<string>,
    selectedWorktreePath: Option<string>,
    taskId: Option<string>,
    submittedAt: int,
    updatedAt: int)

  datatype ScheduledWake = ScheduledWake(wakeId: string, prompt: string, reason: string, fireAt: int, createdAt: int)

  // ---- Lists kept in key order --------------------------------------------------

  /** The index the insertion loops stop at: the first element with a larger key. */
  function InsertionIndex<T>(s: seq<T>, key: T -> int, k: int): (i: nat)
    ensures i <= |s|
    ensures forall j :: 0 <= j < i ==> key(s[j]) <= k
    ensures i < |s| ==> key(s[i]) > k
  {
    if s == [] || key(s[0]) > k then 0 else 1 + InsertionIndex(s[1..], key, k)
  }

  function InsertByKey<T>(s: seq<T>, key: T -> int, e: T): seq<T> {
    var i := InsertionIndex(s, key, key(e));
    s[..i] + [e] + s[i..]
  }

  /** The first index satisfying `p`, or the length when there is none. */
  function FirstIndex<T>(s: seq<T>, p: T -> bool): (i: nat)
    ensures i <= |s|
    ensures forall j :: 0 <= j < i ==> !p(s[j])
    ensures i < |s| ==> p(s[i])
  {
    if s == [] || p(s[0]) then 0 else 1 + FirstIndex(s[1..], p)
  }

  function Without<T>(s: seq<T>, i: nat): seq<T>
    requires i <= |s|
  {
    if i == |s| then s else s[..i] + s[i + 1..]
  }

  ghost predicate SortedByKey<T>(s: seq<T>, key: T -> int) {
    forall i, j :: 0 <= i < j < |s| ==> key(s[i]) <= key(s[j])
  }

  /** Insertion keeps the order, puts the new element after its equals and keeps everything else. */
  lemma InsertKeepsOrder<T>(s: seq<T>, key: T -> int, e: T)
    requires SortedByKey(s, key)
    ensures SortedByKey(InsertByKey(s, key, e), key)
    ensures forall i :: 0 <= i < |s| && key(s[i]) <= key(e) ==> InsertByKey(s, key, e)[i] == s[i]
  {
    var i := InsertionIndex(s, key, key(e));
    if i < |s| {
      assert forall j :: i <= j < |s| ==> key(s[i]) <= key(s[j]);
    }
  }

  lemma InsertKeepsElements<T>(s: seq<T>, key: T -> int, e: T)
    ensures multiset(InsertByKey(s, key, e)) == multiset(s) + multiset{e}
  {
    var i := InsertionIndex(s, key, key(e));
    assert s == s[..i] + s[i..];
  }

  // ---- Queued messages ---------------------------------------------------------

  function PositionOf(m: PendingMessage): int {
    m.position
  }

  function HasQueuedId(id: string): PendingMessage -> bool {
    (m: PendingMessage) => m.queuedId == id
  }

  function Renumbered(s: seq<PendingMessage>): (r: seq<PendingMessage>)
    ensures |r| == |s| && forall i :: 0 <= i < |s| ==> r[i] == s[i].(position := i)
  {
    seq(|s|, i requires 0 <= i < |s| => s[i].(position := i))
  }

  function Edited(m: PendingMessage, content: string, displayContent: string, updatedAt: int): PendingMessage {
    m.(content := content, displayContent := displayContent, updatedAt := updatedAt)
  }

  class SessionPendingState {
    var messages: seq<PendingMessage>

    constructor ()
      ensures messages == []
    {
      messages := [];
    }

    method FindIndex(queuedId: string) returns (idx: nat)
      ensures idx == FirstIndex(messages, HasQueuedId(queuedId))
    {
      idx := 0;
      while idx < |messages| && messages[idx].queuedId != queuedId
        invariant idx <= |messages|
        invariant FirstIndex(messages, HasQueuedId(queuedId)) == idx + FirstIndex(messages[idx..], HasQueuedId(queuedId))
      {
        assert messages[idx..][1..] == messages[idx + 1..];
        idx := idx + 1;
      }
    }

    method Add(entry: PendingMessage)
      modifies this
      ensures messages == InsertByKey(old(messages), PositionOf, entry)
    {
      var idx := 0;
      while idx < |messages| && messages[idx].position <= entry.position
        invariant idx <= |messages|
        invariant InsertionIndex(messages, PositionOf, entry.position)
               == idx + InsertionIndex(messages[idx..], PositionOf, entry.position)
      {
        assert messages[idx..][1..] == messages[idx + 1..];
        idx := idx + 1;
      }
      messages := messages[..idx] + [entry] + messages[idx..];
    }

    method Update(queuedId: string, content: string, displayContent: string, updatedAt: int)
      modifies this
      ensures
        var i := FirstIndex(old(messages), HasQueuedId(queuedId));
        messages == if i == |old(messages)| then old(messages)
                    else old(messages)[i := Edited(old(messages)[i], content, displayContent, updatedAt)]
    {
      var idx := FindIndex(queuedId);
      if idx < |messages| {
        messages := messages[idx := Edited(messages[idx], content, displayContent, updatedAt)];
      }
    }

    method Remove(queuedId: string) returns (removed: Option<PendingMessage>)
      modifies this
      ensures
        var i := FirstIndex(old(messages), HasQueuedId(queuedId));
        if i == |old(messages)| then removed == None && messages == old(messages)
        else removed == Some(old(messages)[i]) && messages == Renumbered(Without(old(messages), i))
    {
      var idx := FindIndex(queuedId);
      if idx == |messages| {
        return None;
      }
      removed := Some(messages[idx]);
      var rest := messages[..idx] + messages[idx + 1..];
      messages := rest;
      for newPosition := 0 to |messages|
        invariant |messages| == |rest|
        invariant forall i :: 0 <= i < |rest| ==>
          messages[i] == if i < newPosition then rest[i].(position := i) else rest[i]
      {
        messages := messages[newPosition := messages[newPosition].(position := newPosition)];
      }
    }

    method Clear() returns (dropped: seq<PendingMessage>)
      modifies this
      ensures dropped == old(messages) && messages == []
    {
      dropped := messages;
      messages := [];
    }
  }

  // ---- Scheduled wakes ------------------------------------------------------------

  function FireAtOf(w: ScheduledWake): int {
    w.fireAt
  }

  function HasWakeId(id: string): ScheduledWake -> bool {
    (w: ScheduledWake) => w.wakeId == id
  }

  class SessionWakeMirror {
    var wakes: seq<ScheduledWake>

    constructor ()
      ensures wakes == []
    {
      wakes := [];
    }

    method Add(entry: ScheduledWake)
      modifies this
      ensures wakes == InsertByKey(old(wakes), FireAtOf, entry)
    {
      var idx := 0;
      while idx < |wakes| && wakes[idx].fireAt <= entry.fireAt
        invariant idx <= |wakes|
        invariant InsertionIndex(wakes, FireAtOf, entry.fireAt)
               == idx + InsertionIndex(wakes[idx..], FireAtOf, entry.fireAt)
      {
        assert wakes[idx..][1..] == wakes[idx + 1..];
        idx := idx + 1;
      }
      wakes := wakes[..idx] + [entry] + wakes[idx..];
    }

    method Remove(wakeId: string) returns (removed: Option<ScheduledWake>)
      modifies this
      ensures
        var i := FirstIndex(old(wakes), HasWakeId(wakeId));
        if i == |old(wakes)| then removed == None && wakes == old(wakes)
        else removed == Some(old(wakes)[i]) && wakes == Without(old(wakes), i)
    {
      var idx := 0;
      while idx < |wakes| && wakes[idx].wakeId != wakeId
        invariant idx <= |wakes|
        invariant FirstIndex(wakes, HasWakeId(wakeId)) == idx + FirstIndex(wakes[idx..], HasWakeId(wakeId))
      {
        assert wakes[idx..][1..] == wakes[idx + 1..];
        idx := idx + 1;
      }
      if idx == |wakes| {
        return None;
      }
      removed := Some(wakes[idx]);
      wakes := wakes[..idx] + wakes[idx + 1..];
    }
  }
}
