// Pushes that fall between a flush's awaits.
module FlushWindow {
  // And the two whole-table rewrites, archive and the shutdown save, seen from the flush's side.

  import opened Collections
  import opened Buffer
  import opened Persistence
  import opened Durability

  predicate OnlyPushes(ops: seq<Op>) {
    forall i :: 0 <= i < |ops| ==> ops[i].Text? || ops[i].Ephemeral?
  }

  /** The text messages `ops` push, numbered from `counter`. */
  function PushedTexts(ops: seq<Op>, counter: nat): seq<Message>
    decreases ops
  {
    if ops == [] then []
    else if ops[0].Text? then
      [Message(counter + 1, ops[0].messageType, ops[0].data)] + PushedTexts(ops[1..], counter + 1)
    else PushedTexts(ops[1..], if ops[0].Ephemeral? then counter + 1 else counter)
  }

  lemma {:induction false} PushedTextsAbove(ops: seq<Op>, counter: nat)
    ensures forall i :: 0 <= i < |PushedTexts(ops, counter)| ==> counter < PushedTexts(ops, counter)[i].sequence
    decreases ops
  {
    if ops != [] {
      PushedTextsAbove(ops[1..], if ops[0].Text? || ops[0].Ephemeral? then counter + 1 else counter);
    }
  }

  /** Pushes only touch the history and the counter. */
  lemma {:induction false} PushesRun(table: seq<Row>, l: Live, ops: seq<Op>)
    requires OnlyPushes(ops) && |l.history| <= MAX_BUFFER_MESSAGES
    ensures Run(Session(table, Some(l)), ops) == Session(table, Some(l.(
        history := LastN(l.history + PushedTexts(ops, l.counter), MAX_BUFFER_MESSAGES),
        counter := l.counter + |ops|)))
    decreases ops
  {
    if ops == [] {
      assert l.history + [] == l.history;
    } else {
      var next := LiveStep(table, l, ops[0]).live.value;
      PushesRun(table, next, ops[1..]);
      if ops[0].Text? {
        LastNShift(l.history, Message(l.counter + 1, ops[0].messageType, ops[0].data),
                   PushedTexts(ops[1..], l.counter + 1), MAX_BUFFER_MESSAGES);
      }
    }
  }

  lemma {:induction false} PushedTextsAppend(xs: seq<Op>, ys: seq<Op>, counter: nat)
    requires OnlyPushes(xs)
    ensures PushedTexts(xs + ys, counter) == PushedTexts(xs, counter) + PushedTexts(ys, counter + |xs|)
    decreases xs
  {
    if xs == [] {
      assert xs + ys == ys;
    } else {
      assert (xs + ys)[1..] == xs[1..] + ys;
      PushedTextsAppend(xs[1..], ys, counter + 1);
    }
  }

  lemma PushesTwice(table: seq<Row>, l: Live, xs: seq<Op>, ys: seq<Op>)
    requires OnlyPushes(xs) && OnlyPushes(ys)
    ensures LastN(LastN(l.history + PushedTexts(xs, l.counter), MAX_BUFFER_MESSAGES)
                  + PushedTexts(ys, l.counter + |xs|), MAX_BUFFER_MESSAGES)
         == LastN(l.history + PushedTexts(xs + ys, l.counter), MAX_BUFFER_MESSAGES)
  {
    PushedTextsAppend(xs, ys, l.counter);
    var tx, ty := PushedTexts(xs, l.counter), PushedTexts(ys, l.counter + |xs|);
    LastNAppend(l.history + tx, ty, MAX_BUFFER_MESSAGES);
    AppendAssociates(l.history, tx, ty);
  }

  // ---- A flush with pushes in its three windows --------------------------------

  function WindowedFlush(s: Session, a: seq<Op>, b: seq<Op>, c: seq<Op>): Session {
    var snapshot := Step(Run(Step(s, FlushStart), a), FlushSnapshot);
    Step(Run(Step(Run(snapshot, b), FlushCommit), c), FlushEnd)
  }

  /** Every storable message of the history at or below the watermark has its row. */
  ghost predicate Synced(table: seq<Row>, l: Live) {
    forall i :: 0 <= i < |l.history| && Archivable(l.history[i]) && l.history[i].sequence <= l.watermark ==>
      ToRow(l.history[i]) in table
  }

  function SnapshotBatch(l: Live, a: seq<Op>): seq<Row> {
    if l.counter > l.watermark
    then Rows(Fresh(LastN(l.history + PushedTexts(a, l.counter), MAX_BUFFER_MESSAGES), l.watermark))
    else []
  }

  /** The in-memory session when the snapshot has been taken. */
  function AtSnapshot(l: Live, a: seq<Op>): Live {
    l.(history := LastN(l.history + PushedTexts(a, l.counter), MAX_BUFFER_MESSAGES),
       counter := l.counter + |a|,
       phase := Snapshotted(SnapshotBatch(l, a)))
  }

  lemma StartResult(s: Session, l: Live)
    requires Inv(s) && s.live == Some(l) && l.phase.Idle? && (l.dirty || l.counter > l.watermark)
    ensures Step(s, FlushStart) == Session(s.table, Some(l.(phase := Started(l.counter > l.watermark))))
    ensures Inv(Step(s, FlushStart)) && |l.history| <= MAX_BUFFER_MESSAGES
  {
    StepInv(s, FlushStart);
  }

  lemma SnapshotTaken(table: seq<Row>, l: Live)
    requires l.phase.Started?
    ensures Step(Session(table, Some(l)), FlushSnapshot)
         == Session(table, Some(l.(phase := Snapshotted(if l.phase.hasNew then Rows(Fresh(l.history, l.watermark)) else []))))
  {
  }

  lemma SnapshotResult(s: Session, l: Live, a: seq<Op>)
    requires Inv(s) && s.live == Some(l) && l.phase.Idle? && (l.dirty || l.counter > l.watermark)
    requires OnlyPushes(a)
    ensures Step(Run(Step(s, FlushStart), a), FlushSnapshot) == Session(s.table, Some(AtSnapshot(l, a)))
    ensures Inv(Session(s.table, Some(AtSnapshot(l, a))))
  {
    hide Run, Step, Inv, OnlyPushes, PushedTexts, Fresh, Rows;
    StartResult(s, l);
    var s1 := Step(s, FlushStart);
    PushesRun(s.table, s1.live.value, a);
    RunInv(s1, a);
    StepInv(Run(s1, a), FlushSnapshot);
    SnapshotTaken(s.table, Run(s1, a).live.value);
  }

  /** The in-memory session at the end, `l` being the one at the snapshot. */
  function AtEnd(l: Live, b: seq<Op>, c: seq<Op>): Live {
    Live(LastN(l.history + PushedTexts(b + c, l.counter), MAX_BUFFER_MESSAGES),
         l.counter + |b| + |c|, l.counter + |b| + |c|, false, Idle)
  }

  function AtCommit(l: Live, b: seq<Op>): Live {
    l.(history := LastN(l.history + PushedTexts(b, l.counter), MAX_BUFFER_MESSAGES),
       counter := l.counter + |b|,
       phase := Committed)
  }

  lemma CommitSucceeds(table: seq<Row>, l: Live, b: seq<Op>)
    requires Inv(Session(table, Some(l))) && l.phase.Snapshotted? && OnlyPushes(b)
    ensures Step(Run(Session(table, Some(l)), b), FlushCommit)
         == Session(table + l.phase.batch, Some(AtCommit(l, b)))
  {
    var s := Session(table, Some(l));
    PushesRun(table, l, b);
    RunInv(s, b);
    NoConflict(table, Run(s, b).live.value);
  }

  lemma EndResult(table: seq<Row>, l: Live, b: seq<Op>, c: seq<Op>)
    requires |l.history| <= MAX_BUFFER_MESSAGES && OnlyPushes(b) && OnlyPushes(c)
    ensures Step(Run(Session(table, Some(AtCommit(l, b))), c), FlushEnd) == Session(table, Some(AtEnd(l, b, c)))
  {
    hide Run, Step;
    PushesRun(table, AtCommit(l, b), c);
    PushesTwice(table, l, b, c);
    hide PushedTexts;
    EndOfFlush(table, AtCommit(l, b + c));
  }

  lemma EndOfFlush(table: seq<Row>, l: Live)
    requires l.phase.Committed?
    ensures Step(Session(table, Some(l)), FlushEnd)
         == Session(table, Some(l.(watermark := l.counter, dirty := false, phase := Idle)))
  {
  }

  /** From the snapshot to the end: the batch is appended and the watermark jumps over the late pushes. */
  lemma CommitResult(table: seq<Row>, l: Live, b: seq<Op>, c: seq<Op>)
    requires Inv(Session(table, Some(l))) && l.phase.Snapshotted?
    requires OnlyPushes(b) && OnlyPushes(c)
    ensures Step(Run(Step(Run(Session(table, Some(l)), b), FlushCommit), c), FlushEnd)
         == Session(table + l.phase.batch, Some(AtEnd(l, b, c)))
  {
    CommitSucceeds(table, l, b);
    EndResult(table + l.phase.batch, l, b, c);
  }

  lemma LateInHistory(history: seq<Message>, late: seq<Message>, cut: nat, i: nat)
    requires forall k :: 0 <= k < |history| ==> history[k].sequence <= cut
    requires forall k :: 0 <= k < |late| ==> cut < late[k].sequence
    requires i < |LastN(history + late, MAX_BUFFER_MESSAGES)|
    ensures
      var m := LastN(history + late, MAX_BUFFER_MESSAGES)[i];
      if m.sequence > cut then m in LastN(late, MAX_BUFFER_MESSAGES) else m in history
  {
  }

  lemma LateStays(history: seq<Message>, late: seq<Message>, m: Message)
    requires m in LastN(late, MAX_BUFFER_MESSAGES)
    ensures m in LastN(history + late, MAX_BUFFER_MESSAGES)
  {
    var kept := LastN(late, MAX_BUFFER_MESSAGES);
    var all := LastN(history + late, MAX_BUFFER_MESSAGES);
    var i :| 0 <= i < |kept| && kept[i] == m;
    assert all[|all| - |kept| + i] == m;
  }

  lemma SyncedIffNoLate(table: seq<Row>, history: seq<Message>, late: seq<Message>, cut: nat, l: Live)
    requires forall k :: 0 <= k < |history| ==> history[k].sequence <= cut
    requires forall k :: 0 <= k < |late| ==> cut < late[k].sequence
    requires AllAtMost(table, cut)
    requires forall k :: 0 <= k < |history| && Archivable(history[k]) ==> ToRow(history[k]) in table
    requires l.history == LastN(history + late, MAX_BUFFER_MESSAGES)
    requires forall k :: 0 <= k < |l.history| ==> l.history[k].sequence <= l.watermark
    ensures Synced(table, l) <==> forall m :: m in LastN(late, MAX_BUFFER_MESSAGES) ==> !Archivable(m)
  {
    forall i | 0 <= i < |l.history| && Archivable(l.history[i])
      ensures ToRow(l.history[i]) in table <==> l.history[i].sequence <= cut
    {
      LateInHistory(history, late, cut, i);
    }
    if m :| m in LastN(late, MAX_BUFFER_MESSAGES) && Archivable(m) {
      LateStays(history, late, m);
      var i :| 0 <= i < |l.history| && l.history[i] == m;
      assert m in late;
      assert ToRow(l.history[i]) !in table;
    } else {
      forall i | 0 <= i < |l.history| && Archivable(l.history[i])
        ensures ToRow(l.history[i]) in table
      {
        LateInHistory(history, late, cut, i);
      }
    }
  }

  lemma FreshMember(history: seq<Message>, watermark: nat, m: Message)
    requires m in history && Archivable(m) && m.sequence > watermark
    ensures ToRow(m) in Rows(Fresh(history, watermark))
  {
    var i :| 0 <= i < |history| && history[i] == m;
    assert NewStorable(watermark)(history[i]);
    var recent := Fresh(history, watermark);
    FilterMembers(history, NewStorable(watermark));
    assert m in recent;
    var j :| 0 <= j < |recent| && recent[j] == m;
    assert Rows(recent)[j] == ToRow(m);
  }

  /** At the snapshot, everything storable in the history is stored or in the batch. */
  lemma SnapshotCovers(table: seq<Row>, l: Live, a: seq<Op>)
    requires Inv(Session(table, Some(l))) && Synced(table, l) && l.counter > l.watermark
    ensures
      var h := AtSnapshot(l, a).history;
      forall k :: 0 <= k < |h| && Archivable(h[k]) ==> ToRow(h[k]) in table + SnapshotBatch(l, a)
  {
    var h := AtSnapshot(l, a).history;
    PushedTextsAbove(a, l.counter);
    forall k | 0 <= k < |h| && Archivable(h[k])
      ensures ToRow(h[k]) in table + SnapshotBatch(l, a)
    {
      if h[k].sequence > l.watermark {
        FreshMember(h, l.watermark, h[k]);
      } else {
        LateInHistory(l.history, PushedTexts(a, l.counter), l.counter, k);
        var i :| 0 <= i < |l.history| && l.history[i] == h[k];
        assert ToRow(l.history[i]) in table;
      }
    }
  }

  /** The late texts the bounded history still holds. */
  function LateTexts(l: Live, a: seq<Op>, b: seq<Op>, c: seq<Op>): seq<Message> {
    LastN(if l.counter > l.watermark then PushedTexts(b + c, l.counter + |a|) else PushedTexts(a + b + c, l.counter),
          MAX_BUFFER_MESSAGES)
  }

  lemma WindowedFlushResult(s: Session, l: Live, a: seq<Op>, b: seq<Op>, c: seq<Op>)
    requires Inv(s) && s.live == Some(l) && l.phase.Idle? && (l.dirty || l.counter > l.watermark)
    requires OnlyPushes(a) && OnlyPushes(b) && OnlyPushes(c)
    ensures WindowedFlush(s, a, b, c)
         == Session(s.table + SnapshotBatch(l, a), Some(AtEnd(AtSnapshot(l, a), b, c)))
    ensures Inv(Session(s.table, Some(AtSnapshot(l, a))))
    ensures Inv(WindowedFlush(s, a, b, c))
  {
    SnapshotResult(s, l, a);
    CommitResult(s.table, AtSnapshot(l, a), b, c);
    WindowedFlushInv(s, a, b, c);
  }

  lemma SnapshotBounds(table: seq<Row>, l: Live, a: seq<Op>, b: seq<Op>, c: seq<Op>)
    requires Inv(Session(table, Some(l))) && l.counter > l.watermark
    requires Inv(Session(table, Some(AtSnapshot(l, a))))
    requires Inv(Session(table + SnapshotBatch(l, a), Some(AtEnd(AtSnapshot(l, a), b, c))))
    ensures
      var snapshot, end := AtSnapshot(l, a), AtEnd(AtSnapshot(l, a), b, c);
      && (forall k :: 0 <= k < |snapshot.history| ==> snapshot.history[k].sequence <= snapshot.counter)
      && AllAtMost(table + SnapshotBatch(l, a), snapshot.counter)
      && (forall k :: 0 <= k < |end.history| ==> end.history[k].sequence <= end.watermark)
  {
    hide Fresh, Rows, PushedTexts, Ordered, ToRow;
  }

  lemma CompleteWithMessages(table: seq<Row>, l: Live, a: seq<Op>, b: seq<Op>, c: seq<Op>)
    requires Inv(Session(table, Some(l))) && l.counter > l.watermark && Synced(table, l)
    requires Inv(Session(table, Some(AtSnapshot(l, a))))
    requires Inv(Session(table + SnapshotBatch(l, a), Some(AtEnd(AtSnapshot(l, a), b, c))))
    ensures Synced(table + SnapshotBatch(l, a), AtEnd(AtSnapshot(l, a), b, c))
            <==> forall m :: m in LateTexts(l, a, b, c) ==> !Archivable(m)
  {
    hide Fresh, Rows, PushedTexts, SnapshotBatch, Ordered, ToRow, Inv;
    var snapshot := AtSnapshot(l, a);
    SnapshotCovers(table, l, a);
    PushedTextsAbove(b + c, snapshot.counter);
    SnapshotBounds(table, l, a, b, c);
    SyncedIffNoLate(table + SnapshotBatch(l, a), snapshot.history, PushedTexts(b + c, snapshot.counter),
                    snapshot.counter, AtEnd(snapshot, b, c));
  }

  lemma CompleteMetadataOnly(table: seq<Row>, l: Live, a: seq<Op>, b: seq<Op>, c: seq<Op>)
    requires Inv(Session(table, Some(l))) && l.phase.Idle? && l.counter <= l.watermark && Synced(table, l)
    requires OnlyPushes(a) && OnlyPushes(b) && OnlyPushes(c)
    requires Inv(Session(table, Some(AtEnd(AtSnapshot(l, a), b, c))))
    ensures Synced(table, AtEnd(AtSnapshot(l, a), b, c))
            <==> forall m :: m in LateTexts(l, a, b, c) ==> !Archivable(m)
  {
    PushesTwice(table, l, a, b + c);
    AppendAssociates(a, b, c);
    PushedTextsAbove(a + b + c, l.counter);
    SyncedIffNoLate(table, l.history, PushedTexts(a + b + c, l.counter), l.counter, AtEnd(AtSnapshot(l, a), b, c));
  }

  /**
   * Exactly when a flush leaves nothing behind: starting from a synced session, with
   * any pushes between its awaits, it ends synced if and only if none of the texts
   * pushed too late (after the snapshot; or, when only metadata was dirty, after the
   * start) that are still retained is storable. The watermark is read after the
   * commit, so those messages are skipped although they were never written.
   */
  lemma FlushCompleteIffNothingPushedLate(s: Session, l: Live, a: seq<Op>, b: seq<Op>, c: seq<Op>)
    requires Inv(s) && s.live == Some(l) && l.phase.Idle? && (l.dirty || l.counter > l.watermark)
    requires OnlyPushes(a) && OnlyPushes(b) && OnlyPushes(c)
    requires Synced(s.table, l)
    ensures WindowedFlush(s, a, b, c).live.Some?
    ensures Synced(WindowedFlush(s, a, b, c).table, WindowedFlush(s, a, b, c).live.value)
            <==> forall m :: m in LateTexts(l, a, b, c) ==> !Archivable(m)
  {
    WindowedFlushResult(s, l, a, b, c);
    if l.counter > l.watermark {
      CompleteWithMessages(s.table, l, a, b, c);
    } else {
      assert s.table + [] == s.table;
      CompleteMetadataOnly(s.table, l, a, b, c);
    }
  }

  lemma WindowedFlushInv(s: Session, a: seq<Op>, b: seq<Op>, c: seq<Op>)
    requires Inv(s)
    ensures Inv(WindowedFlush(s, a, b, c))
  {
    StepInv(s, FlushStart);
    var s1 := Step(s, FlushStart);
    RunInv(s1, a);
    StepInv(Run(s1, a), FlushSnapshot);
    var s3 := Step(Run(s1, a), FlushSnapshot);
    RunInv(s3, b);
    StepInv(Run(s3, b), FlushCommit);
    var s5 := Step(Run(s3, b), FlushCommit);
    RunInv(s5, c);
    StepInv(Run(s5, c), FlushEnd);
  }

  // ---- Skipped messages stay skipped -----------------------------------------

  ghost predicate Skipped(s: Session, sequence: nat) {
    && Inv(s) && s.live.Some? && sequence <= s.live.value.watermark
    && (forall i :: 0 <= i < |s.table| ==> s.table[i].sequence != sequence)
  }

  /** As long as the session stays in memory, no later flush ever stores a skipped message. */
  lemma {:induction false} SkippedForever(s: Session, sequence: nat, ops: seq<Op>)
    requires Skipped(s, sequence)
    requires forall i :: 0 <= i < |ops| ==> !(ops[i].Crash? || ops[i].Archive? || ops[i].Shutdown?)
    ensures Skipped(Run(s, ops), sequence)
    decreases ops
  {
    if ops != [] {
      StepInv(s, ops[0]);
      SkippedForever(Step(s, ops[0]), sequence, ops[1..]);
    }
  }

  // ---- Rewriting the whole table ------------------------------------------------

  /** What an archive writes reads back as it was. */
  lemma RowsReadBack(messages: seq<Message>)
    ensures Map(Rows(messages), FromRow) == messages
    ensures forall i :: 0 <= i < |messages| ==> ToRow(FromRow(Rows(messages)[i])) == Rows(messages)[i]
  {
    forall i | 0 <= i < |messages|
      ensures FromRow(Rows(messages)[i]) == messages[i]
    {
      RowRoundTrip(messages[i]);
    }
  }

  lemma AllArchivable(history: seq<Message>)
    ensures Filter(history, Archivable) == history <==> forall i :: 0 <= i < |history| ==> Archivable(history[i])
  {
    FilterMembers(history, Archivable);
    if forall i :: 0 <= i < |history| ==> Archivable(history[i]) {
      FilterAll(history, Archivable);
    }
  }

  lemma ReloadedSynced(table: seq<Row>)
    requires Ordered(table)
    requires forall i :: 0 <= i < |table| ==> ToRow(FromRow(table[i])) == table[i]
    ensures Synced(table, Reloaded(table))
  {
    OrderedSelect(table);
    var all := Map(table, FromRow);
    forall i | 0 <= i < |LastN(all, MAX_BUFFER_MESSAGES)|
      ensures ToRow(LastN(all, MAX_BUFFER_MESSAGES)[i]) in table
    {
      var k := |all| - |LastN(all, MAX_BUFFER_MESSAGES)| + i;
      assert LastN(all, MAX_BUFFER_MESSAGES)[i] == FromRow(table[k]);
    }
  }

  /**
   * Archive then restore (and shutdown then reload) is the identity on the history
   * up to TURN_COMPLETE messages, leaves the session synced, and every later push
   * gets a number no stored row has.
   */
  lemma ArchiveThenRestore(s: Session, l: Live, op: Op) returns (back: Live)
    requires Inv(s) && s.live == Some(l) && l.phase.Idle? && (op.Archive? || op.Shutdown?)
    ensures Step(Step(s, op), Reload) == Session(ArchivedRows(l.history), Some(back))
    ensures back.history == Filter(l.history, Archivable)
    ensures back.history == l.history <==> forall i :: 0 <= i < |l.history| ==> Archivable(l.history[i])
    ensures back.counter == back.watermark <= l.counter
    ensures AllAtMost(ArchivedRows(l.history), back.counter)
    ensures Synced(ArchivedRows(l.history), back)
  {
    RowsOfHistory(l.history, l.counter, Archivable);
    AllArchivable(l.history);
    FilterSize(l.history, Archivable);
    back := ReloadedFromRows(Filter(l.history, Archivable), l.counter);
    RewriteThenReload(s, l, op);
  }

  lemma RewriteThenReload(s: Session, l: Live, op: Op)
    requires s.live == Some(l) && l.phase.Idle? && (op.Archive? || op.Shutdown?)
    ensures Step(Step(s, op), Reload) == Session(ArchivedRows(l.history), Some(Reloaded(ArchivedRows(l.history))))
  {
    assert Step(s, op) == Session(ArchivedRows(l.history), None);
  }

  lemma ReloadedFromRows(kept: seq<Message>, counter: nat) returns (back: Live)
    requires |kept| <= MAX_BUFFER_MESSAGES && Ordered(Rows(kept)) && AllAtMost(Rows(kept), counter)
    ensures back == Reloaded(Rows(kept))
    ensures back.history == kept
    ensures back.counter == back.watermark <= counter
    ensures AllAtMost(Rows(kept), back.counter)
    ensures Synced(Rows(kept), back)
  {
    back := Reloaded(Rows(kept));
    RowsReadBack(kept);
    ReloadedInv(Rows(kept));
    OrderedSelect(Rows(kept));
    OrderedMax(Rows(kept));
    ReloadedSynced(Rows(kept));
  }

  /** `save_all_sessions` while the process keeps running: the table is rewritten, the watermark is not moved. */
  function AfterSaveAll(l: Live): Session {
    Session(ArchivedRows(l.history), Some(l))
  }

  lemma SaveAllConflict(l: Live)
    requires ValidHistory(l.history, l.counter)
    ensures Conflicts(ArchivedRows(l.history), Rows(Fresh(l.history, l.watermark)))
            <==> Fresh(l.history, l.watermark) != []
  {
    var recent, kept := Fresh(l.history, l.watermark), Filter(l.history, Archivable);
    FilterMembers(l.history, NewStorable(l.watermark));
    FilterMembers(l.history, Archivable);
    if recent != [] {
      var i :| 0 <= i < |l.history| && l.history[i] == recent[0];
      assert Archivable(l.history[i]);
      var j :| 0 <= j < |kept| && kept[j] == recent[0];
      assert Rows(kept)[j].sequence == Rows(recent)[0].sequence;
    }
  }

  /**
   * A flush after such a save fails on the uniqueness constraint, changing nothing, if
   * and only if a retained storable message was above the watermark; otherwise it succeeds.
   */
  lemma FlushAfterSaveAll(s: Session, l: Live)
    requires Inv(s) && s.live == Some(l) && l.phase.Idle?
    ensures Run(AfterSaveAll(l), [FlushStart, FlushSnapshot, FlushCommit, FlushEnd])
         == (if Fresh(l.history, l.watermark) == []
             then Session(ArchivedRows(l.history), Some(l.(watermark := l.counter, dirty := false)))
             else AfterSaveAll(l))
  {
    var v := AfterSaveAll(l);
    RunFour(v, FlushStart, FlushSnapshot, FlushCommit, FlushEnd);
    if l.counter <= l.watermark {
      NothingFresh(l);
    }
    SaveAllConflict(l);
    assert v.table + [] == v.table;
  }
}
