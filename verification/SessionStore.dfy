// src/core/session.py: one managed session and its message rows as the source handles them.
//
// The loops collect rows and rebuild the buffer; each operation is proved equal to the
// steps of Persistence, taken with nothing in between.
module SessionStore {
  import opened Collections
  import opened Buffer
  import opened Persistence

  lemma FilterPrefix(history: seq<Message>, i: nat, p: Message -> bool)
    requires i < |history|
    ensures Filter(history[..i + 1], p) == Filter(history[..i], p) + (if p(history[i]) then [history[i]] else [])
  {
    assert history[..i + 1][..i] == history[..i];
  }

  lemma RebuildStep(rows: seq<Row>, i: nat)
    requires i < |rows|
    ensures LastN(Map(rows[..i + 1], FromRow), MAX_BUFFER_MESSAGES)
         == Retain(LastN(Map(rows[..i], FromRow), MAX_BUFFER_MESSAGES), FromRow(rows[i]))
    ensures MaxSequence(rows[..i + 1])
         == if MaxSequence(rows[..i]) < rows[i].sequence then rows[i].sequence else MaxSequence(rows[..i])
  {
    assert rows[..i + 1][..i] == rows[..i];
    LastNAppend(Map(rows[..i], FromRow), [FromRow(rows[i])], MAX_BUFFER_MESSAGES);
    assert Map(rows[..i + 1], FromRow) == Map(rows[..i], FromRow) + [FromRow(rows[i])];
  }

  /** How the archive's transaction ends; a cancelled one may complete on the database's thread. */
  datatype Commit = Completes | Fails | CancelledBefore | CancelledAfter

  datatype RestoreAnswer = Restored | AlreadyInMemory | NotFound | NotRestorable

  class ManagedSession {
    var table: seq<Row>
    var buffer: SessionBuffer?
    var lastFlush: nat
    var dirty: bool

    ghost predicate Valid()
      reads this, buffer, if buffer != null then buffer.created else []
    {
      buffer != null ==> buffer.Valid()
    }

    ghost function Abs(): Session
      reads this, buffer
    {
      Session(table, if buffer == null then None
                     else Some(Live(buffer.messages, buffer.sequence, lastFlush, dirty, Idle)))
    }

    constructor ()
      ensures Valid() && Abs() == NEW_SESSION && fresh(buffer)
    {
      table, lastFlush, dirty := [], 0, false;
      buffer := new SessionBuffer();
    }

    /** Rows of the storable messages above the watermark. */
    method FreshRows() returns (rows: seq<Row>)
      requires buffer != null
      ensures rows == Rows(Fresh(buffer.messages, lastFlush))
    {
      rows := [];
      for i := 0 to |buffer.messages|
        invariant rows == Rows(Fresh(buffer.messages[..i], lastFlush))
      {
        var m := buffer.messages[i];
        FilterPrefix(buffer.messages, i, NewStorable(lastFlush));
        if m.sequence > lastFlush && Archivable(m) {
          rows := rows + [ToRow(m)];
        }
      }
      assert buffer.messages[..|buffer.messages|] == buffer.messages;
    }

    /** One session's turn in the periodic flush; `commitFails` is any database error. */
    method FlushDirty(commitFails: bool) returns (flushed: bool)
      modifies this`table, this`lastFlush, this`dirty
      ensures Abs() == if commitFails then old(Abs()) else FlushOnce(old(Abs()))
      ensures flushed ==> buffer != null && lastFlush == buffer.sequence && !dirty
    {
      if buffer == null {
        return false;
      }
      var hasNewMessages := buffer.sequence > lastFlush;
      if !dirty && !hasNewMessages {
        return false;
      }
      var staged := [];
      if hasNewMessages {
        staged := FreshRows();
      }
      FlushOnceForm(table, Live(buffer.messages, buffer.sequence, lastFlush, dirty, Idle));
      if commitFails || Conflicts(table, staged) {
        return false;
      }
      table := table + staged;
      lastFlush := buffer.sequence;
      dirty := false;
      return true;
    }

    /** Rows of the storable part of the live history. */
    method StorableRows() returns (rows: seq<Row>)
      requires buffer != null
      ensures rows == ArchivedRows(buffer.messages)
    {
      rows := [];
      for i := 0 to |buffer.messages|
        invariant rows == ArchivedRows(buffer.messages[..i])
      {
        FilterPrefix(buffer.messages, i, Archivable);
        if Archivable(buffer.messages[i]) {
          rows := rows + [ToRow(buffer.messages[i])];
        }
      }
      assert buffer.messages[..|buffer.messages|] == buffer.messages;
    }

    /**
     * Refused for a session that is missing or not terminal. A failing transaction changes
     * nothing; one whose task is cancelled may have been committed or not, and the session
     * is dropped from memory either way.
     */
    method ArchiveSession(terminal: bool, commit: Commit) returns (archived: bool)
      modifies this`table, this`buffer
      ensures archived == (old(buffer) != null && terminal && commit == Completes)
      ensures
        var refused := old(buffer) == null || !terminal || commit == Fails;
        && (refused ==> Abs() == old(Abs()))
        && (!refused && commit != CancelledBefore ==> Abs() == Step(old(Abs()), Archive))
        && (!refused && commit == CancelledBefore ==> table == old(table) && buffer == null)
    {
      if buffer == null || !terminal {
        return false;
      }
      var rows := StorableRows();
      match commit {
        case Fails => return false;
        case CancelledBefore =>
        case _ => table := rows;
      }
      buffer := null;
      archived := commit == Completes;
    }

    /** A failing transaction leaves the rows as they were; the session stays in memory either way. */
    method SaveAll(fails: bool)
      modifies this`table
      ensures buffer == null || fails ==> table == old(table)
      ensures buffer != null && !fails ==> table == ArchivedRows(buffer.messages)
    {
      if buffer != null {
        var rows := StorableRows();
        if !fails {
          table := rows;
        }
      }
    }

    static method Rebuild(rows: seq<Row>) returns (rebuilt: SessionBuffer)
      ensures fresh(rebuilt) && rebuilt.Valid() && rebuilt.created == []
      ensures rebuilt.messages == LastN(Map(rows, FromRow), MAX_BUFFER_MESSAGES)
      ensures rebuilt.sequence == MaxSequence(rows)
    {
      rebuilt := new SessionBuffer();
      for i := 0 to |rows|
        modifies rebuilt
        invariant rebuilt.Valid() && rebuilt.created == []
        invariant rebuilt.messages == LastN(Map(rows[..i], FromRow), MAX_BUFFER_MESSAGES)
        invariant rebuilt.sequence == MaxSequence(rows[..i])
      {
        RebuildStep(rows, i);
        rebuilt.AppendRestored(FromRow(rows[i]));
      }
      assert rows[..|rows|] == rows;
    }

    /** Refused when the session is in memory, has no row, or its row has another status. */
    method RestoreSession(found: bool, restorable: bool) returns (answer: RestoreAnswer)
      modifies this`buffer, this`lastFlush, this`dirty
      ensures answer.AlreadyInMemory? <==> old(buffer) != null
      ensures answer.NotFound? <==> old(buffer) == null && !found
      ensures answer.NotRestorable? <==> old(buffer) == null && found && !restorable
      ensures Abs() == if answer.Restored? then Step(old(Abs()), Reload) else old(Abs())
      ensures answer.Restored? ==> Valid() && fresh(buffer)
    {
      if buffer != null {
        return AlreadyInMemory;
      }
      if !found {
        return NotFound;
      }
      if !restorable {
        return NotRestorable;
      }
      var rebuilt := Rebuild(SelectOrdered(table));
      buffer := rebuilt;
      lastFlush := rebuilt.sequence;
      dirty := false;
      return Restored;
    }
  }
}
