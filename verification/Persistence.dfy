// src/core/session.py: copying a session's buffer into the message table, and rebuilding it.
module Persistence {
  // One session. A flush is modelled with its awaits exposed (start, snapshot, commit,
  // end), so pushes, crashes and failures can fall between them. A shutdown waits for the
  // flush loop to end. Archives fall between flushes here, and inside one in ArchiveWindow.

  import opened Collections
  import opened Buffer

  // ---- Rows ---------------------------------------------------------------

  datatype Row = Row(sequence: nat, messageType: MessageType, content: Json, metadata: Data)

  /** TURN_COMPLETE is the one buffered type that is never stored. */
  predicate Archivable(m: Message) {
    m.messageType != TurnComplete
  }

  function ToRow(m: Message): Row {
    Row(m.sequence, m.messageType, if "content" in m.data then m.data["content"] else JString(""), m.data)
  }

  function FromRow(r: Row): Message {
    Message(r.sequence, r.messageType,
            if "content" !in r.metadata && Truthy(r.content) then r.metadata["content" := r.content] else r.metadata)
  }

  /** A stored message is read back unchanged, content field included. */
  lemma RowRoundTrip(m: Message)
    ensures FromRow(ToRow(m)) == m
  {
  }

  /**
   * The content column by itself restores the content field: with that field taken out of
   * the metadata, the row still reads back as the message exactly if the field was absent
   * or has a truth value.
   */
  lemma ContentColumnRestores(m: Message)
    ensures FromRow(ToRow(m).(metadata := m.data - {"content"})) == m <==> "content" !in m.data || Truthy(m.data["content"])
    ensures "content" !in m.data ==> ToRow(m).content == JString("")
  {
    var rest := m.data - {"content"};
    if "content" in m.data {
      assert rest["content" := m.data["content"]] == m.data;
      assert rest != m.data;
    } else {
      assert rest == m.data;
    }
  }

  // ---- The table ------------------------------------------------------------

  /** Inserting `batch` would break the (session, sequence) uniqueness constraint. */
  predicate Conflicts(table: seq<Row>, batch: seq<Row>) {
    || (exists i, j :: 0 <= i < |table| && 0 <= j < |batch| && table[i].sequence == batch[j].sequence)
    || (exists i, j :: 0 <= i < j < |batch| && batch[i].sequence == batch[j].sequence)
  }

  function Insert(r: Row, rows: seq<Row>): seq<Row> {
    if rows == [] then [r]
    else if rows[|rows| - 1].sequence <= r.sequence then rows + [r]
    else Insert(r, rows[..|rows| - 1]) + [rows[|rows| - 1]]
  }

  /** SELECT ... ORDER BY sequence */
  function SelectOrdered(table: seq<Row>): seq<Row> {
    if table == [] then [] else Insert(table[|table| - 1], SelectOrdered(table[..|table| - 1]))
  }

  function MaxSequence(rows: seq<Row>): nat {
    if rows == [] then 0
    else
      var rest := MaxSequence(rows[..|rows| - 1]);
      if rest < rows[|rows| - 1].sequence then rows[|rows| - 1].sequence else rest
  }

  ghost predicate Ordered(rows: seq<Row>) {
    && (forall i, j :: 0 <= i < j < |rows| ==> rows[i].sequence < rows[j].sequence)
    && (forall i :: 0 <= i < |rows| ==> 0 < rows[i].sequence)
  }

  ghost predicate AllAtMost(rows: seq<Row>, bound: nat) {
    forall i :: 0 <= i < |rows| ==> rows[i].sequence <= bound
  }

  // ---- States and steps -------------------------------------------------------

  datatype Phase = Idle | Started(hasNew: bool) | Snapshotted(batch: seq<Row>) | Committed

  datatype Live = Live(history: seq<Message>, counter: nat, watermark: nat, dirty: bool, phase: Phase)

  /** `live` is the in-memory session; the table outlives it. */
  datatype Session = Session(table: seq<Row>, live: Option<Live>)

  const NEW_SESSION := Session([], Some(Live([], 0, 0, false, Idle)))

  function NewStorable(watermark: nat): Message -> bool {
    (m: Message) => m.sequence > watermark && Archivable(m)
  }

  function Fresh(history: seq<Message>, watermark: nat): seq<Message> {
    Filter(history, NewStorable(watermark))
  }

  function Rows(messages: seq<Message>): seq<Row> {
    Map(messages, ToRow)
  }

  function ArchivedRows(history: seq<Message>): seq<Row> {
    Rows(Filter(history, Archivable))
  }

  function Reloaded(table: seq<Row>): Live {
    var rows := SelectOrdered(table);
    Live(LastN(Map(rows, FromRow), MAX_BUFFER_MESSAGES), MaxSequence(rows), MaxSequence(rows), false, Idle)
  }

  datatype Op =
    | Text(messageType: MessageType, data: Data)
    | Ephemeral
    | MarkDirty
    | FlushStart
    | FlushSnapshot
    | FlushCommit
    | FlushAbort
    | FlushEnd
    | Crash
    | Reload
    | Archive
    | Shutdown

  function LiveStep(table: seq<Row>, l: Live, op: Op): Session {
    match op
    case Text(t, d) =>
      Session(table, Some(l.(history := Retain(l.history, Message(l.counter + 1, t, d)), counter := l.counter + 1)))
    case Ephemeral => Session(table, Some(l.(counter := l.counter + 1)))
    case MarkDirty => Session(table, Some(l.(dirty := true)))
    case FlushStart =>
      if l.phase.Idle? && (l.dirty || l.counter > l.watermark)
      then Session(table, Some(l.(phase := Started(l.counter > l.watermark))))
      else Session(table, Some(l))
    case FlushSnapshot =>
      if l.phase.Started?
      then Session(table, Some(l.(phase := Snapshotted(
        if l.phase.hasNew then Rows(Fresh(l.history, l.watermark)) else []))))
      else Session(table, Some(l))
    case FlushCommit =>
      if !l.phase.Snapshotted? then Session(table, Some(l))
      else if Conflicts(table, l.phase.batch) then Session(table, Some(l.(phase := Idle)))
      else Session(table + l.phase.batch, Some(l.(phase := Committed)))
    case FlushAbort =>
      if l.phase.Started? || l.phase.Snapshotted?
      then Session(table, Some(l.(phase := Idle)))
      else Session(table, Some(l))
    case FlushEnd =>
      if l.phase.Committed?
      then Session(table, Some(l.(watermark := l.counter, dirty := false, phase := Idle)))
      else Session(table, Some(l))
    case Crash => Session(table, None)
    case Reload => Session(table, Some(l))
    case Archive => if l.phase.Idle? then Session(ArchivedRows(l.history), None) else Session(table, Some(l))
    case Shutdown => if l.phase.Idle? then Session(ArchivedRows(l.history), None) else Session(table, Some(l))
  }

  function Step(s: Session, op: Op): Session {
    match s.live
    case Some(l) => LiveStep(s.table, l, op)
    case None => if op.Reload? then Session(s.table, Some(Reloaded(s.table))) else s
  }

  function Run(s: Session, ops: seq<Op>): Session
    decreases ops
  {
    if ops == [] then s else Run(Step(s, ops[0]), ops[1..])
  }

  // ---- Safety of every interleaving --------------------------------------------

  ghost predicate InvPhase(table: seq<Row>, l: Live) {
    match l.phase
    case Idle => AllAtMost(table, l.watermark)
    case Started(_) => AllAtMost(table, l.watermark)
    case Snapshotted(batch) =>
      && AllAtMost(table, l.watermark)
      && Ordered(batch) && AllAtMost(batch, l.counter)
      && (forall i :: 0 <= i < |batch| ==> l.watermark < batch[i].sequence)
    case Committed => AllAtMost(table, l.counter)
  }

  ghost predicate Inv(s: Session) {
    && Ordered(s.table)
    && (s.live.Some? ==>
         && ValidHistory(s.live.value.history, s.live.value.counter)
         && s.live.value.watermark <= s.live.value.counter
         && InvPhase(s.table, s.live.value))
  }

  lemma {:induction false} FilterKeepsOrder(history: seq<Message>, p: Message -> bool)
    requires Increasing(history)
    ensures Increasing(Filter(history, p))
  {
    if history != [] {
      FilterKeepsOrder(history[..|history| - 1], p);
      FilterMembers(history[..|history| - 1], p);
    }
  }

  lemma RowsOfHistory(history: seq<Message>, counter: nat, p: Message -> bool)
    requires ValidHistory(history, counter)
    ensures Ordered(Rows(Filter(history, p))) && AllAtMost(Rows(Filter(history, p)), counter)
  {
    FilterKeepsOrder(history, p);
  }

  lemma {:induction false} OrderedSelect(table: seq<Row>)
    requires Ordered(table)
    ensures SelectOrdered(table) == table
  {
    if table != [] {
      OrderedSelect(table[..|table| - 1]);
      assert table == table[..|table| - 1] + [table[|table| - 1]];
    }
  }

  lemma {:induction false} OrderedMax(table: seq<Row>)
    requires Ordered(table)
    ensures AllAtMost(table, MaxSequence(table))
    ensures MaxSequence(table) == if table == [] then 0 else table[|table| - 1].sequence
  {
    if table != [] {
      OrderedMax(table[..|table| - 1]);
      assert |table| > 1 ==> table[..|table| - 1][|table| - 2] == table[|table| - 2];
    }
  }

  lemma ReloadedInv(table: seq<Row>)
    requires Ordered(table)
    ensures Inv(Session(table, Some(Reloaded(table))))
    ensures Reloaded(table).history == LastN(Map(table, FromRow), MAX_BUFFER_MESSAGES)
  {
    OrderedSelect(table);
    OrderedMax(table);
    RowsAsHistory(table, MaxSequence(table));
  }

  lemma RowsAsHistory(table: seq<Row>, bound: nat)
    requires Ordered(table) && AllAtMost(table, bound)
    ensures ValidHistory(LastN(Map(table, FromRow), MAX_BUFFER_MESSAGES), bound)
  {
    var all := Map(table, FromRow);
    assert forall i :: 0 <= i < |all| ==> all[i].sequence == table[i].sequence;
    assert Increasing(all);
  }

  lemma FreshBatch(l: Live)
    requires ValidHistory(l.history, l.counter)
    ensures Ordered(Rows(Fresh(l.history, l.watermark)))
    ensures AllAtMost(Rows(Fresh(l.history, l.watermark)), l.counter)
    ensures forall i :: 0 <= i < |Rows(Fresh(l.history, l.watermark))| ==>
      l.watermark < Rows(Fresh(l.history, l.watermark))[i].sequence
  {
    RowsOfHistory(l.history, l.counter, NewStorable(l.watermark));
    FilterMembers(l.history, NewStorable(l.watermark));
  }

  /** In a reachable state a commit never hits the uniqueness constraint. */
  lemma NoConflict(table: seq<Row>, l: Live)
    requires Ordered(table) && InvPhase(table, l) && l.phase.Snapshotted?
    ensures !Conflicts(table, l.phase.batch) && Ordered(table + l.phase.batch)
  {
  }

  lemma LiveStepInv(table: seq<Row>, l: Live, op: Op)
    requires Inv(Session(table, Some(l)))
    ensures Inv(LiveStep(table, l, op))
  {
    match op
    case Text(t, d) =>
      HistoryGrows(l.history, l.counter, Message(l.counter + 1, t, d));
      hide ValidHistory, Ordered, Retain;
    case FlushSnapshot =>
      FreshBatch(l);
      hide ValidHistory, Ordered, Fresh, Rows;
    case FlushCommit =>
      if l.phase.Snapshotted? {
        NoConflict(table, l);
      }
      hide ValidHistory, Ordered, Conflicts;
    case Archive => RowsOfHistory(l.history, l.counter, Archivable);
    case Shutdown => RowsOfHistory(l.history, l.counter, Archivable);
    case _ =>
      hide ValidHistory, Ordered;
  }

  lemma StepInv(s: Session, op: Op)
    requires Inv(s)
    ensures Inv(Step(s, op))
  {
    match s.live
    case Some(l) => LiveStepInv(s.table, l, op);
    case None => ReloadedInv(s.table);
  }

  lemma {:induction false} RunInv(s: Session, ops: seq<Op>)
    requires Inv(s)
    ensures Inv(Run(s, ops))
    decreases ops
  {
    if ops != [] {
      StepInv(s, ops[0]);
      RunInv(Step(s, ops[0]), ops[1..]);
    }
  }

  /**
   * Every run of pushes, flush steps with pushes, failures and crashes between them,
   * reloads, and archives and shutdowns between flushes: stored sequences are strictly
   * increasing, hence unique; between flushes they are at or below the watermark, which is
   * at or below the counter; and a commit about to happen cannot violate uniqueness.
   */
  lemma {:induction false} StoredSequencesUnique(ops: seq<Op>)
    ensures
      var s := Run(NEW_SESSION, ops);
      && Ordered(s.table)
      && (s.live.Some? ==>
           var l := s.live.value;
           && l.watermark <= l.counter
           && AllAtMost(s.table, l.counter)
           && (!l.phase.Committed? ==> AllAtMost(s.table, l.watermark))
           && (l.phase.Snapshotted? ==> !Conflicts(s.table, l.phase.batch)))
  {
    RunInv(NEW_SESSION, ops);
    var s := Run(NEW_SESSION, ops);
    if s.live.Some? && s.live.value.phase.Snapshotted? {
      NoConflict(s.table, s.live.value);
    }
  }

  /** The four flush steps with nothing in between. */
  function FlushOnce(s: Session): Session {
    Step(Step(Step(Step(s, FlushStart), FlushSnapshot), FlushCommit), FlushEnd)
  }

  /** The uninterrupted flush in one step. */
  lemma FlushOnceForm(table: seq<Row>, l: Live)
    requires l.phase.Idle?
    ensures
      var batch := if l.counter > l.watermark then Rows(Fresh(l.history, l.watermark)) else [];
      FlushOnce(Session(table, Some(l))) ==
        if (!l.dirty && l.counter <= l.watermark) || Conflicts(table, batch) then Session(table, Some(l))
        else Session(table + batch, Some(l.(watermark := l.counter, dirty := false)))
  {
  }

  // ---- When a flush is due, and when it fails ------------------------------------------------

  predicate LiveAt(ops: seq<Op>, i: nat)
    requires i <= |ops|
  {
    Run(NEW_SESSION, ops[..i]).live.Some?
  }

  /** Step `i` completes a flush, or drops the session from memory. */
  predicate Settles(ops: seq<Op>, i: nat) {
    && i < |ops| && LiveAt(ops, i)
    && var phase := Run(NEW_SESSION, ops[..i]).live.value.phase;
       ops[i].Crash? || (ops[i].FlushEnd? && phase.Committed?) || ((ops[i].Archive? || ops[i].Shutdown?) && phase.Idle?)
  }

  /** The session was marked dirty at step `i`, and nothing has settled that since. */
  predicate MarkedSince(ops: seq<Op>, i: nat) {
    && i < |ops| && ops[i].MarkDirty? && LiveAt(ops, i)
    && forall j: nat :: i < j < |ops| ==> !Settles(ops, j)
  }

  lemma {:induction false} RunOneMore(s: Session, ops: seq<Op>, op: Op)
    ensures Run(s, ops + [op]) == Step(Run(s, ops), op)
    decreases ops
  {
    hide Step;
    if ops == [] {
      assert [op][1..] == [];
      assert Run(s, [op]) == Run(Step(s, op), []);
    } else {
      assert (ops + [op])[1..] == ops[1..] + [op];
      RunOneMore(Step(s, ops[0]), ops[1..], op);
    }
  }

  lemma SettlesEarlier(ops: seq<Op>, op: Op, i: nat)
    requires i < |ops|
    ensures (ops + [op])[i] == ops[i] && Settles(ops + [op], i) == Settles(ops, i) && LiveAt(ops + [op], i) == LiveAt(ops, i)
  {
    assert (ops + [op])[..i] == ops[..i];
    hide Run;
  }

  lemma SettlesLast(ops: seq<Op>, op: Op)
    ensures
      var s := Run(NEW_SESSION, ops);
      && (ops + [op])[|ops|] == op
      && (LiveAt(ops + [op], |ops|) <==> s.live.Some?)
      && (Settles(ops + [op], |ops|) <==>
            s.live.Some? && (|| op.Crash? || (op.FlushEnd? && s.live.value.phase.Committed?)
                             || ((op.Archive? || op.Shutdown?) && s.live.value.phase.Idle?)))
  {
    assert (ops + [op])[..|ops|] == ops;
    hide Run;
  }

  lemma MarkedStep(ops: seq<Op>, op: Op, i: nat)
    requires i < |ops|
    ensures MarkedSince(ops + [op], i) <==> MarkedSince(ops, i) && !Settles(ops + [op], |ops|)
  {
    hide Settles, LiveAt;
    var more := ops + [op];
    SettlesEarlier(ops, op, i);
    forall j: nat | j < |ops|
      ensures Settles(more, j) == Settles(ops, j)
    {
      SettlesEarlier(ops, op, j);
    }
    if MarkedSince(more, i) {
      forall j: nat | i < j < |ops|
        ensures !Settles(ops, j)
      {
        assert !Settles(more, j);
      }
      assert !Settles(more, |ops|);
    }
  }

  lemma MarkedInside(ops: seq<Op>)
    ensures forall i: nat :: MarkedSince(ops, i) ==> i < |ops|
  {
  }

  lemma DirtyStep(s: Session, op: Op, settles: bool)
    requires settles <==>
      s.live.Some? && (|| op.Crash? || (op.FlushEnd? && s.live.value.phase.Committed?)
                       || ((op.Archive? || op.Shutdown?) && s.live.value.phase.Idle?))
    ensures
      var t := Step(s, op);
      t.live.Some? && t.live.value.dirty <==> s.live.Some? && (op.MarkDirty? || (s.live.value.dirty && !settles))
  {
    hide Conflicts, Retain, Fresh, Rows, SelectOrdered, MaxSequence, LastN, Map;
  }

  lemma {:induction false} DirtyMeans(ops: seq<Op>) returns (i: nat)
    ensures
      var s := Run(NEW_SESSION, ops);
      if s.live.Some? && s.live.value.dirty then MarkedSince(ops, i) else forall k: nat :: !MarkedSince(ops, k)
  {
    i := 0;
    if ops != [] {
      var init, last := ops[..|ops| - 1], ops[|ops| - 1];
      i := DirtyMeans(init);
      RunOneMore(NEW_SESSION, init, last);
      assert ops == init + [last];
      SettlesLast(init, last);
      DirtyStep(Run(NEW_SESSION, init), last, Settles(ops, |init|));
      hide Run, Step, Settles, LiveAt;
      forall k: nat | k < |init|
        ensures MarkedSince(ops, k) <==> MarkedSince(init, k) && !Settles(ops, |init|)
      {
        MarkedStep(init, last, k);
      }
      MarkedInside(ops);
      MarkedInside(init);
      if last.MarkDirty? && Run(NEW_SESSION, init).live.Some? {
        i := |init|;
      }
    }
  }

  /**
   * At every point of every run a flush starts exactly if none is under way and either
   * something was pushed past the watermark, or the session was marked dirty since its
   * last completed flush.
   */
  lemma FlushStartsIff(ops: seq<Op>)
    requires Run(NEW_SESSION, ops).live.Some?
    ensures
      var l := Run(NEW_SESSION, ops).live.value;
      Step(Run(NEW_SESSION, ops), FlushStart) != Run(NEW_SESSION, ops) <==>
        l.phase.Idle? && (l.counter > l.watermark || exists i: nat :: MarkedSince(ops, i))
  {
    var i := DirtyMeans(ops);
    hide Run, MarkedSince;
  }

  /** A flush that fails before its commit leaves no trace: the next one stores what it would have. */
  lemma FailedFlushIsRetried(table: seq<Row>, l: Live)
    requires l.phase.Started? || l.phase.Snapshotted?
    ensures
      FlushOnce(Step(Session(table, Some(l)), FlushAbort)) == FlushOnce(Session(table, Some(l.(phase := Idle))))
  {
    hide Conflicts, Fresh, Rows;
  }

  /** Archiving and shutting down wait for a flush under way, and otherwise store exactly what can be stored. */
  lemma EndsBetweenFlushes(table: seq<Row>, l: Live, op: Op)
    requires op.Archive? || op.Shutdown?
    ensures
      Step(Session(table, Some(l)), op) ==
        if l.phase.Idle? then Session(Rows(Filter(l.history, Archivable)), None) else Session(table, Some(l))
  {
  }
}
