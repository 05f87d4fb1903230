// src/core/session.py: an archive while the periodic flush has the session in hand.
module ArchiveWindow {
  // The archive runs as a task of its own: it rewrites the rows and drops the session from
  // memory, but a flush pass that has listed the session goes on with the dropped object.
  // The session may be restored, as a new object, before that flush is over.

  import opened Collections
  import opened Buffer
  import opened Persistence

  /**
   * A dropped object the flush pass has listed, its turn under way or, while idle, to come;
   * and the history the latest archive wrote.
   */
  datatype Held = Held(session: Live, kept: seq<Message>)

  /**
   * `base` is the table and the object registered in memory; `strays` are the rows stored
   * for held objects since the registered one was reloaded.
   */
  datatype World = World(base: Session, held: Option<Held>, strays: seq<Row>)

  const NEW_WORLD := World(NEW_SESSION, None, [])

  /** A step of the registered object or of the table, or a step of the held object. */
  datatype Event = Registered(op: Op) | OnHeld(op: Op)

  /** The flush pass is at work on the dropped object. */
  predicate InHand(w: World) {
    w.held.Some? && !w.held.value.session.phase.Idle?
  }

  function Archived(w: World): World {
    match w.base.live
    case None => w
    case Some(l) =>
      World(Session(ArchivedRows(l.history), None),
            Some(Held(if w.held.Some? then w.held.value.session else l, l.history)), w.strays)
  }

  predicate HeldOp(op: Op) {
    !(op.Crash? || op.Reload? || op.Archive? || op.Shutdown?)
  }

  /** The held object takes the flush's steps and late pushes; it is let go when its flush is over. */
  function HeldStep(w: World, h: Held, op: Op): World
    requires HeldOp(op)
  {
    var r := LiveStep(w.base.table, h.session, op);
    var over := !h.session.phase.Idle? && r.live.value.phase.Idle?;
    World(w.base.(table := r.table),
          if over then None else Some(h.(session := r.live.value)),
          if w.base.live.Some? then w.strays + r.table[|w.base.table|..] else w.strays)
  }

  /** There is one flush loop: a pass over the registered object begins after the last is over. */
  function WorldStep(w: World, e: Event): World {
    match e
    case OnHeld(op) => if w.held.Some? && HeldOp(op) then HeldStep(w, w.held.value, op) else w
    case Registered(op) =>
      if op.Archive? then Archived(w)
      else if op.Crash? then World(Step(w.base, op), None, w.strays)
      else if op.FlushStart? || op.Shutdown? then if InHand(w) then w else World(Step(w.base, op), None, w.strays)
      else if op.Reload? && w.base.live.None? then w.(base := Step(w.base, op), strays := [])
      else w.(base := Step(w.base, op))
  }

  function WorldRun(w: World, events: seq<Event>): World
    decreases events
  {
    if events == [] then w else WorldRun(WorldStep(w, events[0]), events[1..])
  }

  // ---- Reading a table that is not in order -------------------------------------------------------

  ghost predicate UniqueRows(table: seq<Row>) {
    && (forall i, j :: 0 <= i < j < |table| ==> table[i].sequence != table[j].sequence)
    && (forall i :: 0 <= i < |table| ==> 0 < table[i].sequence)
  }

  lemma {:induction false} InsertInOrder(r: Row, rows: seq<Row>)
    requires Ordered(rows) && 0 < r.sequence && forall i :: 0 <= i < |rows| ==> rows[i].sequence != r.sequence
    ensures Ordered(Insert(r, rows))
    ensures forall x :: x in Insert(r, rows) <==> x == r || x in rows
  {
    if rows != [] && r.sequence < rows[|rows| - 1].sequence {
      var init, last := rows[..|rows| - 1], rows[|rows| - 1];
      InsertInOrder(r, init);
      assert rows == init + [last];
      assert Insert(r, rows) == Insert(r, init) + [last];
      hide Insert;
      forall i | 0 <= i < |Insert(r, init)|
        ensures Insert(r, init)[i].sequence < last.sequence
      {
        assert Insert(r, init)[i] == r || Insert(r, init)[i] in init;
      }
    }
  }

  /** Whatever order the rows were stored in, they are read back in order. */
  lemma {:induction false} SelectSorts(table: seq<Row>)
    requires UniqueRows(table)
    ensures Ordered(SelectOrdered(table))
    ensures forall x :: x in SelectOrdered(table) <==> x in table
  {
    if table != [] {
      var init, last := table[..|table| - 1], table[|table| - 1];
      SelectSorts(init);
      assert table == init + [last];
      forall i | 0 <= i < |SelectOrdered(init)|
        ensures SelectOrdered(init)[i].sequence != last.sequence
      {
        assert SelectOrdered(init)[i] in init;
      }
      InsertInOrder(last, SelectOrdered(init));
    }
  }

  // ---- What every step keeps --------------------------------------------------------------------------

  ghost predicate Sound(l: Live) {
    && ValidHistory(l.history, l.counter) && l.watermark <= l.counter
    && (l.phase.Snapshotted? ==>
         && Ordered(l.phase.batch) && AllAtMost(l.phase.batch, l.counter)
         && forall i :: 0 <= i < |l.phase.batch| ==> l.watermark < l.phase.batch[i].sequence)
  }

  ghost predicate WorldInv(w: World) {
    && UniqueRows(w.base.table)
    && (w.base.live.Some? ==> Sound(w.base.live.value))
    && (w.held.Some? ==>
         && Sound(w.held.value.session)
         && (w.base.live.Some? ==> w.base.live.value.phase.Idle?)
         && (!w.held.value.session.phase.Committed? ==> w.base.table == ArchivedRows(w.held.value.kept)))
  }

  lemma ReloadedSound(table: seq<Row>)
    requires UniqueRows(table)
    ensures Sound(Reloaded(table)) && AllAtMost(table, Reloaded(table).watermark) && Reloaded(table).phase.Idle?
  {
    SelectSorts(table);
    var rows := SelectOrdered(table);
    OrderedMax(rows);
    RowsAsHistory(rows, MaxSequence(rows));
    forall i | 0 <= i < |table|
      ensures table[i].sequence <= MaxSequence(rows)
    {
      assert table[i] in rows;
    }
  }

  lemma HeldOpSound(table: seq<Row>, l: Live, op: Op)
    requires Sound(l) && HeldOp(op)
    ensures Sound(LiveStep(table, l, op).live.value)
  {
    match op
    case Text(t, d) =>
      HistoryGrows(l.history, l.counter, Message(l.counter + 1, t, d));
      hide ValidHistory, Ordered, AllAtMost, Retain;
    case FlushSnapshot =>
      FreshBatch(l);
      hide ValidHistory, Ordered, AllAtMost, Fresh, Rows;
    case _ =>
      hide ValidHistory, Ordered, AllAtMost, Conflicts;
  }

  /** The only flush step that writes is a commit, which the constraint keeps unique. */
  lemma HeldOpTable(table: seq<Row>, l: Live, op: Op)
    requires Sound(l) && HeldOp(op) && UniqueRows(table)
    ensures UniqueRows(LiveStep(table, l, op).table)
    ensures LiveStep(table, l, op).table != table ==> op.FlushCommit? && LiveStep(table, l, op).live.value.phase.Committed?
  {
  }

  lemma ArchivedRowsUnique(l: Live)
    requires Sound(l)
    ensures UniqueRows(ArchivedRows(l.history))
  {
    RowsOfHistory(l.history, l.counter, Archivable);
  }

  lemma StepKeepsWorldInv(w: World, e: Event)
    requires WorldInv(w)
    ensures WorldInv(WorldStep(w, e))
  {
    hide UniqueRows, Sound, ArchivedRows, Reloaded;
    if e.OnHeld? && w.held.Some? && HeldOp(e.op) {
      HeldOpSound(w.base.table, w.held.value.session, e.op);
      HeldOpTable(w.base.table, w.held.value.session, e.op);
    } else if e.Registered? && w.base.live.Some? {
      var l := w.base.live.value;
      ArchivedRowsUnique(l);
      if HeldOp(e.op) {
        HeldOpSound(w.base.table, l, e.op);
        HeldOpTable(w.base.table, l, e.op);
      }
    } else {
      ReloadedSound(w.base.table);
    }
  }

  lemma {:induction false} RunKeepsWorldInv(w: World, events: seq<Event>)
    requires WorldInv(w)
    ensures WorldInv(WorldRun(w, events))
    decreases events
  {
    if events != [] {
      hide WorldInv, WorldStep;
      StepKeepsWorldInv(w, events[0]);
      RunKeepsWorldInv(WorldStep(w, events[0]), events[1..]);
    }
  }

  /**
   * Archives at any point of a flush, restores, late pushes onto the dropped object,
   * crashes and failures: no two stored rows ever share a sequence, and reading the table
   * gives its rows in increasing order.
   */
  lemma NeverStoredTwice(events: seq<Event>)
    ensures
      var table := WorldRun(NEW_WORLD, events).base.table;
      && UniqueRows(table)
      && Ordered(SelectOrdered(table)) && forall x :: x in SelectOrdered(table) <==> x in table
  {
    RunKeepsWorldInv(NEW_WORLD, events);
    SelectSorts(WorldRun(NEW_WORLD, events).base.table);
  }

  /**
   * A flush under way on a dropped object goes on with that object, whatever happens to the
   * registered one: pushes, archives, restores, attempts to flush or shut down. A crash ends it.
   */
  lemma {:induction false} HeldFlushGoesOn(w: World, ops: seq<Op>)
    requires InHand(w) && Crash !in ops
    ensures
      var r := WorldRun(w, Map(ops, OnRegistered));
      && InHand(r) && r.held.value.session == w.held.value.session
      && WorldStep(r, Registered(Crash)).held.None?
    decreases ops
  {
    if ops != [] {
      var r := WorldStep(w, Registered(ops[0]));
      assert InHand(r) && r.held.value.session == w.held.value.session by {
        hide ArchivedRows, LiveStep, Reloaded;
      }
      assert Map(ops, OnRegistered)[1..] == Map(ops[1..], OnRegistered);
      hide WorldStep;
      HeldFlushGoesOn(r, ops[1..]);
    }
  }

  function OnRegistered(op: Op): Event {
    Registered(op)
  }

  /** One still to come goes on, too, unless a new pass begins over the registered object. */
  lemma HeldTurnComes(w: World, op: Op)
    requires w.held.Some? && !InHand(w)
    ensures
      var r := WorldStep(w, Registered(op));
      if op.Crash? || op.FlushStart? || op.Shutdown? then r.held.None?
      else r.held.Some? && r.held.value.session == w.held.value.session
  {
    hide ArchivedRows, LiveStep, Reloaded;
  }

  // ---- The held flush's commit ------------------------------------------------------------------------

  /** A message of the batch was among those the archive stored. */
  ghost predicate StoredByArchive(batch: seq<Row>, kept: seq<Message>) {
    exists m, r :: m in kept && Archivable(m) && r in batch && m.sequence == r.sequence
  }

  lemma ArchivedAre(kept: seq<Message>)
    ensures
      var messages, table := Filter(kept, Archivable), ArchivedRows(kept);
      && |table| == |messages| && (forall i :: 0 <= i < |messages| ==> table[i].sequence == messages[i].sequence)
      && (forall i :: 0 <= i < |messages| ==> messages[i] in kept && Archivable(messages[i]))
      && (forall k :: 0 <= k < |kept| && Archivable(kept[k]) ==> kept[k] in messages)
  {
    FilterMembers(kept, Archivable);
    hide Filter;
  }

  lemma ConflictMeans(kept: seq<Message>, batch: seq<Row>)
    requires Ordered(batch)
    ensures Conflicts(ArchivedRows(kept), batch) <==> StoredByArchive(batch, kept)
  {
    var messages, table := Filter(kept, Archivable), ArchivedRows(kept);
    ArchivedAre(kept);
    hide Filter, ArchivedRows;
    if Conflicts(table, batch) {
      var i, j :| 0 <= i < |table| && 0 <= j < |batch| && table[i].sequence == batch[j].sequence;
      assert messages[i] in kept && batch[j] in batch;
    }
    if StoredByArchive(batch, kept) {
      var m, r :| m in kept && Archivable(m) && r in batch && m.sequence == r.sequence;
      var k :| 0 <= k < |kept| && kept[k] == m;
      assert kept[k] in messages;
      var i :| 0 <= i < |messages| && messages[i] == m;
      var j :| 0 <= j < |batch| && batch[j] == r;
      assert table[i].sequence == batch[j].sequence;
    }
  }

  /**
   * In every run, the commit of a flush whose session was archived under it fails on the
   * uniqueness constraint exactly if the archive had stored a sequence of its batch. It
   * then leaves the archived rows as they are; otherwise it adds its batch to them.
   */
  lemma HeldCommitFailsIff(events: seq<Event>)
    requires
      var w := WorldRun(NEW_WORLD, events);
      w.held.Some? && w.held.value.session.phase.Snapshotted?
    ensures
      var w := WorldRun(NEW_WORLD, events);
      var h := w.held.value;
      var r := WorldStep(w, OnHeld(FlushCommit));
      && w.base.table == ArchivedRows(h.kept)
      && (StoredByArchive(h.session.phase.batch, h.kept) ==> r == World(w.base, None, w.strays))
      && (!StoredByArchive(h.session.phase.batch, h.kept) ==>
            r.base.table == ArchivedRows(h.kept) + h.session.phase.batch && InHand(r))
  {
    RunKeepsWorldInv(NEW_WORLD, events);
    var h := WorldRun(NEW_WORLD, events).held.value;
    hide WorldRun;
    ConflictMeans(h.kept, h.session.phase.batch);
    hide Conflicts, StoredByArchive, ArchivedRows, UniqueRows;
  }

  // ---- The registered session's flushes -----------------------------------------------------------------

  /** Above the watermark the table holds strays only, or, during the last flush step, the flush's own rows. */
  ghost predicate StraysExplain(table: seq<Row>, l: Live, strays: seq<Row>) {
    && (forall r :: r in strays ==> r in table)
    && (forall r :: r in table ==> r in strays || r.sequence <= Top(l))
  }

  function Top(l: Live): nat {
    if l.phase.Committed? then l.counter else l.watermark
  }

  ghost predicate Explained(w: World) {
    w.base.live.Some? ==> StraysExplain(w.base.table, w.base.live.value, w.strays)
  }

  lemma HeldExplained(w: World, op: Op)
    requires WorldInv(w) && Explained(w) && w.held.Some? && HeldOp(op)
    ensures Explained(HeldStep(w, w.held.value, op))
  {
    hide UniqueRows, ArchivedRows, Sound, Conflicts;
    var r := LiveStep(w.base.table, w.held.value.session, op).table;
    assert w.base.table <= r;
    assert r == w.base.table + r[|w.base.table|..];
  }

  lemma LiveOpExplained(table: seq<Row>, l: Live, strays: seq<Row>, op: Op)
    requires Sound(l) && StraysExplain(table, l, strays) && (HeldOp(op) || op.Reload?)
    ensures var r := LiveStep(table, l, op); StraysExplain(r.table, r.live.value, strays)
  {
    hide Retain, Rows, Fresh, Conflicts, ValidHistory;
    match op
    case FlushCommit =>
      if l.phase.Snapshotted? {
        assert forall r :: r in l.phase.batch ==> r.sequence <= l.counter;
      }
    case _ =>
  }

  lemma RegisteredExplained(w: World, op: Op)
    requires WorldInv(w) && Explained(w)
    ensures Explained(WorldStep(w, Registered(op)))
  {
    hide UniqueRows, Sound, ArchivedRows;
    if w.base.live.None? {
      ReloadedSound(w.base.table);
      hide Reloaded;
    } else if HeldOp(op) || op.Reload? {
      LiveOpExplained(w.base.table, w.base.live.value, w.strays, op);
      hide StraysExplain, LiveStep;
    }
  }

  lemma {:induction false} RunExplained(w: World, events: seq<Event>)
    requires WorldInv(w) && Explained(w)
    ensures Explained(WorldRun(w, events))
    decreases events
  {
    if events != [] {
      StepKeepsWorldInv(w, events[0]);
      match events[0] {
        case Registered(op) => RegisteredExplained(w, op);
        case OnHeld(op) => if w.held.Some? && HeldOp(op) { HeldExplained(w, op); }
      }
      hide WorldInv, Explained, WorldStep;
      RunExplained(WorldStep(w, events[0]), events[1..]);
    }
  }

  lemma NewWorldSound()
    ensures WorldInv(NEW_WORLD) && Explained(NEW_WORLD)
  {
  }

  /** A row stored for a held object has the sequence of a message of the batch. */
  ghost predicate StrayInTheWay(strays: seq<Row>, batch: seq<Row>) {
    exists x, r :: x in strays && r in batch && x.sequence == r.sequence
  }

  lemma StraysMean(table: seq<Row>, l: Live, strays: seq<Row>)
    requires StraysExplain(table, l, strays) && Sound(l) && l.phase.Snapshotted?
    ensures Conflicts(table, l.phase.batch) <==> StrayInTheWay(strays, l.phase.batch)
  {
    var batch := l.phase.batch;
    if Conflicts(table, batch) {
      var i, j :| 0 <= i < |table| && 0 <= j < |batch| && table[i].sequence == batch[j].sequence;
      assert table[i] in table && batch[j] in batch;
    }
    if StrayInTheWay(strays, batch) {
      var x, r :| x in strays && r in batch && x.sequence == r.sequence;
      var i :| 0 <= i < |table| && table[i] == x;
      var j :| 0 <= j < |batch| && batch[j] == r;
      assert table[i].sequence == batch[j].sequence;
    }
  }

  /**
   * In every run, the commit of the registered session's flush fails on the uniqueness
   * constraint exactly if a row stored for a held object since the session was reloaded has
   * the sequence of a message of the batch. It then changes no row; otherwise it adds its
   * batch.
   */
  lemma RegisteredFlushFailsIff(events: seq<Event>)
    requires
      var live := WorldRun(NEW_WORLD, events).base.live;
      live.Some? && live.value.phase.Snapshotted?
    ensures
      var w := WorldRun(NEW_WORLD, events);
      var batch := w.base.live.value.phase.batch;
      var r := WorldStep(w, Registered(FlushCommit));
      && (Conflicts(w.base.table, batch) <==> StrayInTheWay(w.strays, batch))
      && r.base.table == (if StrayInTheWay(w.strays, batch) then w.base.table else w.base.table + batch)
  {
    hide StraysExplain, StrayInTheWay, Conflicts, Sound, UniqueRows, ArchivedRows, WorldRun;
    NewWorldSound();
    RunKeepsWorldInv(NEW_WORLD, events);
    RunExplained(NEW_WORLD, events);
    var w := WorldRun(NEW_WORLD, events);
    StraysMean(w.base.table, w.base.live.value, w.strays);
  }

  // ---- How far the watermark covers the table -----------------------------------------------------------

  /** Stored sequences are at most the registered session's watermark, its counter during the last flush step. */
  ghost predicate Level(w: World) {
    w.base.live.Some? ==>
      var l := w.base.live.value;
      AllAtMost(w.base.table, Top(l))
  }

  /** The held flush commits a row above the watermark of a session restored meanwhile. */
  ghost predicate Overshoots(w: World, e: Event) {
    && e == OnHeld(FlushCommit) && w.held.Some? && w.held.value.session.phase.Snapshotted? && w.base.live.Some?
    && !Conflicts(w.base.table, w.held.value.session.phase.batch)
    && !AllAtMost(w.held.value.session.phase.batch, w.base.live.value.watermark)
  }

  ghost predicate AlwaysLevel(w: World, events: seq<Event>)
    decreases events
  {
    Level(w) && (events == [] || AlwaysLevel(WorldStep(w, events[0]), events[1..]))
  }

  ghost predicate NeverOvershoots(w: World, events: seq<Event>)
    decreases events
  {
    events == [] || (!Overshoots(w, events[0]) && NeverOvershoots(WorldStep(w, events[0]), events[1..]))
  }

  lemma HeldLevel(w: World, op: Op)
    requires WorldInv(w) && Level(w) && w.held.Some? && HeldOp(op)
    ensures Level(HeldStep(w, w.held.value, op)) <==> !Overshoots(w, OnHeld(op))
  {
    hide UniqueRows, ArchivedRows, Sound, Conflicts;
    var table, l := w.base.table, w.held.value.session;
    if op.FlushCommit? && l.phase.Snapshotted? && !Conflicts(table, l.phase.batch) && w.base.live.Some? {
      AllAtMostAppend(table, l.phase.batch, w.base.live.value.watermark);
      hide AllAtMost;
    }
  }

  lemma AllAtMostAppend(table: seq<Row>, batch: seq<Row>, bound: nat)
    ensures AllAtMost(table + batch, bound) <==> AllAtMost(table, bound) && AllAtMost(batch, bound)
  {
    if AllAtMost(table + batch, bound) {
      assert forall i :: 0 <= i < |table| ==> (table + batch)[i] == table[i];
      assert forall i :: 0 <= i < |batch| ==> (table + batch)[|table| + i] == batch[i];
    }
  }

  lemma RegisteredLevel(w: World, op: Op)
    requires WorldInv(w) && Level(w)
    ensures Level(WorldStep(w, Registered(op)))
  {
    if w.base.live.None? {
      ReloadedSound(w.base.table);
    } else {
      var l := w.base.live.value;
      if op.FlushCommit? && l.phase.Snapshotted? {
        AllAtMostAppend(w.base.table, l.phase.batch, l.counter);
      }
      hide UniqueRows, ArchivedRows, Conflicts;
    }
  }

  lemma {:induction false} LevelIff(w: World, events: seq<Event>)
    requires WorldInv(w) && Level(w)
    ensures AlwaysLevel(w, events) <==> NeverOvershoots(w, events)
    decreases events
  {
    if events != [] {
      var r := WorldStep(w, events[0]);
      StepKeepsWorldInv(w, events[0]);
      match events[0] {
        case Registered(op) => RegisteredLevel(w, op);
        case OnHeld(op) => if w.held.Some? && HeldOp(op) { HeldLevel(w, op); }
      }
      assert Level(r) <==> !Overshoots(w, events[0]);
      hide WorldInv, Level, WorldStep, Overshoots;
      if Level(r) {
        LevelIff(r, events[1..]);
      }
    }
  }

  /**
   * In every run: the stored sequences stay at or below the registered session's
   * watermark at every point exactly if no held flush commits, after a restore, a row
   * above the restored watermark. As long as they do, no flush of the registered session
   * can fail; whether one does is RegisteredFlushFailsIff.
   */
  lemma LevelKeptIff(events: seq<Event>)
    ensures AlwaysLevel(NEW_WORLD, events) <==> NeverOvershoots(NEW_WORLD, events)
    ensures
      var w := WorldRun(NEW_WORLD, events);
      Level(w) && w.base.live.Some? && w.base.live.value.phase.Snapshotted? ==>
        !Conflicts(w.base.table, w.base.live.value.phase.batch)
  {
    LevelIff(NEW_WORLD, events);
    RunKeepsWorldInv(NEW_WORLD, events);
  }

  // ---- A run in which a flush of the restored session fails -----------------------------------------------

  lemma RunAppend(w: World, xs: seq<Event>, e: Event)
    ensures WorldRun(w, xs + [e]) == WorldStep(WorldRun(w, xs), e)
    decreases xs
  {
    if xs == [] {
      assert [e][1..] == [];
    } else {
      assert (xs + [e])[1..] == xs[1..] + [e];
      RunAppend(WorldStep(w, xs[0]), xs[1..], e);
    }
  }

  /** One more event of a run under construction. */
  lemma Next(events: seq<Event>, w: World, e: Event) returns (longer: seq<Event>, r: World)
    requires WorldRun(NEW_WORLD, events) == w
    ensures longer == events + [e] && r == WorldStep(w, e) && WorldRun(NEW_WORLD, longer) == r
  {
    longer, r := events + [e], WorldStep(w, e);
    RunAppend(NEW_WORLD, events, e);
  }

  function TurnEnd(): Message {
    Message(1, TurnComplete, map[])
  }

  function Chunk(sequence: nat): Message {
    Message(sequence, TextChunk, map[])
  }

  /** A flush has started over a turn's end. */
  function Begun(): World {
    World(Session([], Some(Live([TurnEnd()], 1, 0, false, Started(true)))), None, [])
  }

  /** The session was then archived and restored. */
  function Restored(): World {
    World(Session([], Some(Live([], 0, 0, false, Idle))), Some(Held(Live([TurnEnd()], 1, 0, false, Started(true)), [TurnEnd()])), [])
  }

  /** A late push onto the dropped object, numbered 2, is in the batch. */
  function LateBatch(): World {
    World(Session([], Some(Live([], 0, 0, false, Idle))),
          Some(Held(Live([TurnEnd(), Chunk(2)], 2, 0, false, Snapshotted([ToRow(Chunk(2))])), [TurnEnd()])), [])
  }

  /** The batch is stored and the restored session has pushed two messages of its own. */
  function SecondTwo(): World {
    World(Session([ToRow(Chunk(2))], Some(Live([Chunk(1), Chunk(2)], 2, 0, false, Idle))), None, [ToRow(Chunk(2))])
  }

  lemma RetainOne(m: Message)
    ensures Retain([], m) == [m]
  {
    assert [] + [m] == [m];
  }

  lemma RetainTwo(a: Message, b: Message)
    ensures Retain([a], b) == [a, b]
  {
    assert [a] + [b] == [a, b];
  }

  lemma FilterOne(m: Message, p: Message -> bool)
    ensures Filter([m], p) == if p(m) then [m] else []
  {
    assert [m][..0] == [];
  }

  lemma FreshOfTwo(a: Message, b: Message)
    requires a.sequence > 0 && b.sequence > 0 && Archivable(b)
    ensures Rows(Fresh([a, b], 0)) == if Archivable(a) then [ToRow(a), ToRow(b)] else [ToRow(b)]
  {
    assert [a, b] == [a] + [b];
    FilterAppend([a], [b], NewStorable(0));
    FilterOne(a, NewStorable(0));
    FilterOne(b, NewStorable(0));
    hide Filter, ToRow;
    assert Fresh([a, b], 0) == if Archivable(a) then [a, b] else [b];
    hide Fresh, Archivable;
  }

  lemma Begin()
    ensures WorldStep(WorldStep(NEW_WORLD, Registered(Text(TurnComplete, map[]))), Registered(FlushStart)) == Begun()
  {
    RetainOne(TurnEnd());
    hide Retain;
  }

  lemma ArchiveAndRestore()
    ensures WorldStep(WorldStep(Begun(), Registered(Archive)), Registered(Reload)) == Restored()
  {
    FilterOne(TurnEnd(), Archivable);
    assert ArchivedRows([TurnEnd()]) == [];
    assert Reloaded([]) == Live([], 0, 0, false, Idle);
    hide ArchivedRows, Reloaded, Filter;
  }

  lemma PushLate()
    ensures WorldStep(WorldStep(Restored(), OnHeld(Text(TextChunk, map[]))), OnHeld(FlushSnapshot)) == LateBatch()
  {
    RetainTwo(TurnEnd(), Chunk(2));
    FreshOfTwo(TurnEnd(), Chunk(2));
    hide Retain, Fresh, Rows;
    var pushed := WorldStep(Restored(), OnHeld(Text(TextChunk, map[])));
    assert pushed == Restored().(held := Some(Held(Live([TurnEnd(), Chunk(2)], 2, 0, false, Started(true)), [TurnEnd()])));
    hide Restored;
  }

  /** The batch is stored, and is stray. */
  function Stored(): World {
    World(Session([ToRow(Chunk(2))], Some(Live([], 0, 0, false, Idle))), None, [ToRow(Chunk(2))])
  }

  lemma AloneFits(r: Row)
    ensures !Conflicts([], [r]) && [] + [r] == [r] && [r][0..] == [r]
  {
  }

  lemma CommitLate()
    ensures WorldStep(LateBatch(), OnHeld(FlushCommit)) ==
      World(Session([ToRow(Chunk(2))], Some(Live([], 0, 0, false, Idle))),
            Some(Held(Live([TurnEnd(), Chunk(2)], 2, 0, false, Committed), [TurnEnd()])), [ToRow(Chunk(2))])
  {
    AloneFits(ToRow(Chunk(2)));
    hide Conflicts, ToRow, TurnEnd, Chunk;
    var w, h := LateBatch(), LateBatch().held.value;
    assert LiveStep([], h.session, FlushCommit) == Session([ToRow(Chunk(2))], Some(h.session.(phase := Committed)));
    assert WorldStep(w, OnHeld(FlushCommit)) == HeldStep(w, h, FlushCommit);
    hide LiveStep, WorldStep;
  }

  lemma StoreLate()
    ensures WorldStep(WorldStep(LateBatch(), OnHeld(FlushCommit)), OnHeld(FlushEnd)) == Stored()
  {
    CommitLate();
    hide LateBatch, ToRow, TurnEnd, Chunk, Conflicts;
    assert [ToRow(Chunk(2))][1..] == [];
    assert [ToRow(Chunk(2))] + [] == [ToRow(Chunk(2))];
  }

  lemma PushTwo()
    ensures WorldStep(WorldStep(Stored(), Registered(Text(TextChunk, map[]))), Registered(Text(TextChunk, map[]))) == SecondTwo()
  {
    RetainOne(Chunk(1));
    RetainTwo(Chunk(1), Chunk(2));
    hide Retain, ToRow;
  }

  lemma FlushSecond()
    ensures
      var l := WorldStep(WorldStep(SecondTwo(), Registered(FlushStart)), Registered(FlushSnapshot)).base.live;
      l.Some? && l.value.phase == Snapshotted([ToRow(Chunk(1)), ToRow(Chunk(2))])
    ensures
      WorldStep(WorldStep(SecondTwo(), Registered(FlushStart)), Registered(FlushSnapshot)).base.table == [ToRow(Chunk(2))]
  {
    FreshOfTwo(Chunk(1), Chunk(2));
    hide Fresh, Rows;
  }

  /**
   * A flush starts over a turn's end; the session is archived and restored; the dropped
   * object gets a late push, numbered 2, which the flush then stores. The restored session
   * numbers its second message 2 as well, and its own flush fails.
   */
  lemma RestoredFlushFails() returns (events: seq<Event>, w: World)
    ensures w == WorldRun(NEW_WORLD, events)
    ensures w.base.live.Some? && w.base.live.value.phase.Snapshotted?
    ensures Conflicts(w.base.table, w.base.live.value.phase.batch)
  {
    events, w := [], NEW_WORLD;
    assert WorldRun(NEW_WORLD, events) == w;
    hide WorldRun;
    Begin();
    ArchiveAndRestore();
    PushLate();
    StoreLate();
    PushTwo();
    FlushSecond();
    assert [ToRow(Chunk(2))][0].sequence == [ToRow(Chunk(1)), ToRow(Chunk(2))][1].sequence;
    assert Conflicts([ToRow(Chunk(2))], [ToRow(Chunk(1)), ToRow(Chunk(2))]);
    hide WorldStep, Conflicts, Begun, Restored, LateBatch, Stored, SecondTwo;
    events, w := Next(events, w, Registered(Text(TurnComplete, map[])));
    events, w := Next(events, w, Registered(FlushStart));
    events, w := Next(events, w, Registered(Archive));
    events, w := Next(events, w, Registered(Reload));
    events, w := Next(events, w, OnHeld(Text(TextChunk, map[])));
    events, w := Next(events, w, OnHeld(FlushSnapshot));
    events, w := Next(events, w, OnHeld(FlushCommit));
    events, w := Next(events, w, OnHeld(FlushEnd));
    events, w := Next(events, w, Registered(Text(TextChunk, map[])));
    events, w := Next(events, w, Registered(Text(TextChunk, map[])));
    events, w := Next(events, w, Registered(FlushStart));
    events, w := Next(events, w, Registered(FlushSnapshot));
  }
}
