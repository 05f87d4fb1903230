// What the message table is guaranteed to hold after any run of atomic flushes and restarts.
module Durability {
  import opened Collections
  import opened Buffer
  import opened Persistence

  /** A message's content without its number. */
  datatype Payload = Payload(messageType: MessageType, data: Data)

  function OfMessage(m: Message): Payload {
    Payload(m.messageType, m.data)
  }

  function OfRow(r: Row): Payload {
    Payload(r.messageType, r.metadata)
  }

  function Payloads(messages: seq<Message>): seq<Payload> {
    Map(messages, OfMessage)
  }

  function RowPayloads(rows: seq<Row>): seq<Payload> {
    Map(rows, OfRow)
  }

  predicate Storable(p: Payload) {
    p.messageType != TurnComplete
  }

  function Kept(window: seq<Payload>): seq<Payload> {
    Filter(window, Storable)
  }

  // ---- Runs whose flushes are not interleaved with anything -------------------

  datatype Event = Push(messageType: MessageType, data: Data) | PushEphemeral | Touch | Flush | Restart

  function Expand(e: Event): seq<Op> {
    match e
    case Push(t, d) => [Text(t, d)]
    case PushEphemeral => [Ephemeral]
    case Touch => [MarkDirty]
    case Flush => [FlushStart, FlushSnapshot, FlushCommit, FlushEnd]
    case Restart => [Crash, Reload]
  }

  function RunEvents(s: Session, events: seq<Event>): Session
    decreases events
  {
    if events == [] then s else RunEvents(Run(s, Expand(events[0])), events[1..])
  }

  /**
   * What reaches the table, said about the events alone: each flush stores the
   * storable ones among the last 2000 texts pushed since the previous flush or
   * restart; a restart forgets what was not flushed.
   */
  function Stored(events: seq<Event>, window: seq<Payload>): seq<Payload>
    decreases events
  {
    if events == [] then []
    else match events[0]
      case Push(t, d) => Stored(events[1..], window + [Payload(t, d)])
      case Flush => Kept(LastN(window, MAX_BUFFER_MESSAGES)) + Stored(events[1..], [])
      case Restart => Stored(events[1..], [])
      case _ => Stored(events[1..], window)
  }

  /** The same without the 2000 limit: every storable text a flush followed. */
  function Flushed(events: seq<Event>, window: seq<Payload>): seq<Payload>
    decreases events
  {
    if events == [] then []
    else match events[0]
      case Push(t, d) => Flushed(events[1..], window + [Payload(t, d)])
      case Flush => Kept(window) + Flushed(events[1..], [])
      case Restart => Flushed(events[1..], [])
      case _ => Flushed(events[1..], window)
  }

  function Overflow(window: seq<Payload>): seq<Payload> {
    if |window| <= MAX_BUFFER_MESSAGES then [] else window[..|window| - MAX_BUFFER_MESSAGES]
  }

  /** At every flush, whatever was evicted since the previous one was TURN_COMPLETE. */
  ghost predicate NoFlushTooLate(events: seq<Event>, window: seq<Payload>)
    decreases events
  {
    if events == [] then true
    else match events[0]
      case Push(t, d) => NoFlushTooLate(events[1..], window + [Payload(t, d)])
      case Flush =>
        && (forall i :: 0 <= i < |Overflow(window)| ==> !Storable(Overflow(window)[i]))
        && NoFlushTooLate(events[1..], [])
      case Restart => NoFlushTooLate(events[1..], [])
      case _ => NoFlushTooLate(events[1..], window)
  }

  // ---- One flush ------------------------------------------------------------

  lemma {:induction false} FilterTwice<T>(s: seq<T>, p: T -> bool, q: T -> bool, both: T -> bool)
    requires forall i :: 0 <= i < |s| ==> both(s[i]) == (p(s[i]) && q(s[i]))
    ensures Filter(s, both) == Filter(Filter(s, p), q)
  {
    if s != [] {
      FilterTwice(s[..|s| - 1], p, q, both);
      var kept := Filter(s[..|s| - 1], p);
      FilterAppend(kept, [s[|s| - 1]], q);
      assert kept + [] == kept;
    }
  }

  lemma {:induction false} FilterSize<T>(s: seq<T>, p: T -> bool)
    ensures |Filter(s, p)| <= |s|
  {
    if s != [] {
      FilterSize(s[..|s| - 1], p);
    }
  }

  function Newer(watermark: nat): Message -> bool {
    (m: Message) => m.sequence > watermark
  }

  function Unsaved(history: seq<Message>, watermark: nat): seq<Message> {
    Filter(history, Newer(watermark))
  }

  lemma {:induction false} MapOfFilter<T, U>(s: seq<T>, p: T -> bool, f: T -> U, q: U -> bool)
    requires forall i :: 0 <= i < |s| ==> p(s[i]) == q(f(s[i]))
    ensures Map(Filter(s, p), f) == Filter(Map(s, f), q)
  {
    if s != [] {
      var init, last := s[..|s| - 1], s[|s| - 1];
      var more := if p(last) then [last] else [];
      MapOfFilter(init, p, f, q);
      MapAppend(Filter(init, p), more, f);
      assert Map(s, f)[..|s| - 1] == Map(init, f);
      assert Filter(s, p) == Filter(init, p) + more;
      assert Filter(Map(s, f), q) == Filter(Map(init, f), q) + Map(more, f);
      hide Filter, Map;
    }
  }

  lemma PayloadsOfArchivable(messages: seq<Message>)
    ensures RowPayloads(Rows(Filter(messages, Archivable))) == Kept(Payloads(messages))
  {
    MapOfFilter(messages, Archivable, OfMessage, Storable);
    var kept := Filter(messages, Archivable);
    assert RowPayloads(Rows(kept)) == Payloads(kept);
  }

  lemma FreshPayloads(history: seq<Message>, watermark: nat)
    ensures RowPayloads(Rows(Fresh(history, watermark))) == Kept(Payloads(Unsaved(history, watermark)))
  {
    FilterTwice(history, Newer(watermark), Archivable,
                NewStorable(watermark));
    PayloadsOfArchivable(Unsaved(history, watermark));
  }

  function AfterFlush(s: Session, l: Live): Session {
    Session(s.table + Rows(Fresh(l.history, l.watermark)), Some(l.(watermark := l.counter, dirty := false)))
  }

  lemma NothingFresh(l: Live)
    requires ValidHistory(l.history, l.counter) && l.counter <= l.watermark
    ensures Fresh(l.history, l.watermark) == [] && Unsaved(l.history, l.watermark) == []
  {
    FilterNone(l.history, NewStorable(l.watermark));
    FilterNone(l.history, Newer(l.watermark));
  }

  /** An uninterrupted flush appends exactly the new storable messages and moves the watermark to the counter. */
  lemma FlushEffect(s: Session, l: Live)
    requires Inv(s) && s.live == Some(l) && l.phase.Idle?
    ensures Run(s, [FlushStart, FlushSnapshot, FlushCommit, FlushEnd]) == AfterFlush(s, l)
  {
    FlushDoesNotConflict(s.table, l);
    hide Step, LiveStep, Run, Inv, Fresh, Conflicts;
    RunFour(s, FlushStart, FlushSnapshot, FlushCommit, FlushEnd);
    FlushOnceForm(s.table, l);
    assert Rows([]) == [] && s.table + [] == s.table;
  }

  lemma FlushDoesNotConflict(table: seq<Row>, l: Live)
    requires Inv(Session(table, Some(l))) && l.phase.Idle?
    ensures l.watermark <= l.counter
    ensures l.counter <= l.watermark ==> Fresh(l.history, l.watermark) == []
    ensures !Conflicts(table, Rows(Fresh(l.history, l.watermark))) && !Conflicts(table, [])
  {
    if l.counter <= l.watermark {
      NothingFresh(l);
    }
    FreshBatch(l);
    var batch := Rows(Fresh(l.history, l.watermark));
    hide Fresh, Rows;
    NoConflict(table, l.(phase := Snapshotted(batch)));
  }

  lemma RunFour(s: Session, a: Op, b: Op, c: Op, d: Op)
    ensures Run(s, [a, b, c, d]) == Step(Step(Step(Step(s, a), b), c), d)
  {
    hide Step, Run;
    RunTwo(s, a, b);
    RunTwo(Step(Step(s, a), b), c, d);
    RunAppend(s, [a, b], [c, d]);
    assert [a, b] + [c, d] == [a, b, c, d];
  }

  lemma RunOne(s: Session, a: Op)
    ensures Run(s, [a]) == Step(s, a)
  {
    assert [a][1..] == [];
  }

  lemma RunTwo(s: Session, a: Op, b: Op)
    ensures Run(s, [a, b]) == Step(Step(s, a), b)
  {
    assert [a, b][1..] == [b];
    assert Run(Step(s, a), [b]) == Step(Step(s, a), b);
  }

  lemma {:induction false} RunAppend(s: Session, xs: seq<Op>, ys: seq<Op>)
    ensures Run(s, xs + ys) == Run(Run(s, xs), ys)
    decreases xs
  {
    if xs == [] {
      assert xs + ys == ys;
    } else {
      assert (xs + ys)[1..] == xs[1..] + ys;
      RunAppend(Step(s, xs[0]), xs[1..], ys);
    }
  }

  // ---- Exact contents of the table --------------------------------------------

  /** The unsaved part of the bounded history is the last 2000 texts since the watermark. */
  lemma UnsavedGrows(history: seq<Message>, counter: nat, watermark: nat, m: Message, window: seq<Payload>)
    requires ValidHistory(history, counter) && watermark <= counter < m.sequence
    requires Payloads(Unsaved(history, watermark)) == LastN(window, MAX_BUFFER_MESSAGES)
    ensures Payloads(Unsaved(Retain(history, m), watermark)) == LastN(window + [OfMessage(m)], MAX_BUFFER_MESSAGES)
  {
    var unsaved := Unsaved(history, watermark);
    LastNAppend(window, [OfMessage(m)], MAX_BUFFER_MESSAGES);
    MapAppend(unsaved, [m], OfMessage);
    assert Payloads(unsaved + [m]) == LastN(window, MAX_BUFFER_MESSAGES) + [OfMessage(m)];
    UnsavedRetained(history, counter, watermark, m);
    LastNOfMap(unsaved + [m]);
  }

  lemma LastNOfMap(messages: seq<Message>)
    ensures Payloads(LastN(messages, MAX_BUFFER_MESSAGES)) == LastN(Payloads(messages), MAX_BUFFER_MESSAGES)
  {
  }

  lemma UnsavedRetained(history: seq<Message>, counter: nat, watermark: nat, m: Message)
    requires ValidHistory(history, counter) && watermark <= counter < m.sequence
    ensures Unsaved(Retain(history, m), watermark) == LastN(Unsaved(history, watermark) + [m], MAX_BUFFER_MESSAGES)
  {
    UnsavedAppend(history, watermark, m);
    FilterSize(history, Newer(watermark));
    if |history| == MAX_BUFFER_MESSAGES {
      assert history + [m] == history[..1] + (history[1..] + [m]);
      assert Retain(history, m) == (history + [m])[1..] == history[1..] + [m];
      UnsavedAppend(history[1..], watermark, m);
      UnsavedTail(history, watermark);
    }
  }

  lemma UnsavedAppend(history: seq<Message>, watermark: nat, m: Message)
    requires watermark < m.sequence
    ensures Unsaved(history + [m], watermark) == Unsaved(history, watermark) + [m]
  {
    FilterAppend(history, [m], Newer(watermark));
    FilterAll([m], Newer(watermark));
  }

  /** Dropping the oldest message drops the oldest unsaved one only when all are unsaved. */
  lemma UnsavedTail(history: seq<Message>, watermark: nat)
    requires Increasing(history) && history != []
    ensures history[0].sequence > watermark ==>
      Unsaved(history, watermark) == history && Unsaved(history[1..], watermark) == history[1..]
    ensures history[0].sequence <= watermark ==>
      Unsaved(history, watermark) == Unsaved(history[1..], watermark) && |Unsaved(history, watermark)| < |history|
  {
    var p := Newer(watermark);
    if history[0].sequence > watermark {
      FilterAll(history, p);
      FilterAll(history[1..], p);
    } else {
      FilterNone(history[..1], p);
      FilterAppend(history[..1], history[1..], p);
      assert history == history[..1] + history[1..];
      assert [] + Unsaved(history[1..], watermark) == Unsaved(history[1..], watermark);
      FilterSize(history[1..], p);
    }
  }

  ghost predicate Matches(s: Session, stored: seq<Payload>, window: seq<Payload>) {
    && Inv(s) && s.live.Some? && s.live.value.phase.Idle?
    && RowPayloads(s.table) == stored
    && Payloads(Unsaved(s.live.value.history, s.live.value.watermark)) == LastN(window, MAX_BUFFER_MESSAGES)
  }

  lemma MatchesPush(s: Session, stored: seq<Payload>, window: seq<Payload>, t: MessageType, d: Data)
    requires Matches(s, stored, window)
    ensures Matches(Run(s, [Text(t, d)]), stored, window + [Payload(t, d)])
  {
    var l := s.live.value;
    StepInv(s, Text(t, d));
    UnsavedGrows(l.history, l.counter, l.watermark, Message(l.counter + 1, t, d), window);
    assert Run(s, [Text(t, d)]) == Step(s, Text(t, d));
  }

  lemma MatchesFlush(s: Session, stored: seq<Payload>, window: seq<Payload>)
    requires Matches(s, stored, window)
    ensures Matches(Run(s, Expand(Flush)), stored + Kept(LastN(window, MAX_BUFFER_MESSAGES)), [])
  {
    var l := s.live.value;
    FlushEffect(s, l);
    RunInv(s, Expand(Flush));
    FreshPayloads(l.history, l.watermark);
    MapAppend(s.table, Rows(Fresh(l.history, l.watermark)), OfRow);
    NothingFresh(l.(watermark := l.counter));
    hide Run, Inv, Fresh, Unsaved, Kept;
  }

  lemma MatchesRestart(s: Session, stored: seq<Payload>, window: seq<Payload>)
    requires Matches(s, stored, window)
    ensures Matches(Run(s, Expand(Restart)), stored, [])
    ensures Run(s, Expand(Restart)).live.value.history == LastN(Map(s.table, FromRow), MAX_BUFFER_MESSAGES)
  {
    RunTwo(s, Crash, Reload);
    ReloadedInv(s.table);
    NothingFresh(Reloaded(s.table));
    hide Run, Inv, Unsaved;
    RestartReloads(s);
  }

  lemma RestartReloads(s: Session)
    requires s.live.Some?
    ensures Step(Step(s, Crash), Reload) == Session(s.table, Some(Reloaded(s.table)))
  {
  }

  lemma MatchesQuiet(s: Session, stored: seq<Payload>, window: seq<Payload>, op: Op)
    requires Matches(s, stored, window) && (op.Ephemeral? || op.MarkDirty?)
    ensures Matches(Run(s, [op]), stored, window)
  {
    RunOne(s, op);
    StepInv(s, op);
  }

  function NextWindow(e: Event, window: seq<Payload>): seq<Payload> {
    match e
    case Push(t, d) => window + [Payload(t, d)]
    case Flush => []
    case Restart => []
    case _ => window
  }

  function Written(e: Event, window: seq<Payload>): seq<Payload> {
    if e.Flush? then Kept(LastN(window, MAX_BUFFER_MESSAGES)) else []
  }

  lemma MatchesEvent(s: Session, stored: seq<Payload>, window: seq<Payload>, e: Event)
    requires Matches(s, stored, window)
    ensures Matches(Run(s, Expand(e)), stored + Written(e, window), NextWindow(e, window))
  {
    assert stored + [] == stored;
    match e
    case Push(t, d) => MatchesPush(s, stored, window, t, d);
    case Flush => MatchesFlush(s, stored, window);
    case Restart => MatchesRestart(s, stored, window);
    case Touch => MatchesQuiet(s, stored, window, MarkDirty);
    case PushEphemeral => MatchesQuiet(s, stored, window, Ephemeral);
  }

  lemma StoredStep(events: seq<Event>, window: seq<Payload>)
    requires events != []
    ensures Stored(events, window) == Written(events[0], window) + Stored(events[1..], NextWindow(events[0], window))
  {
  }

  lemma {:induction false} RunMatches(s: Session, stored: seq<Payload>, window: seq<Payload>, events: seq<Event>)
    requires Matches(s, stored, window)
    ensures RunEvents(s, events).live.Some?
    ensures RowPayloads(RunEvents(s, events).table) == stored + Stored(events, window)
    decreases events
  {
    if events == [] {
      assert stored + [] == stored;
    } else {
      var e := events[0];
      var next := NextWindow(e, window);
      MatchesEvent(s, stored, window, e);
      RunMatches(Run(s, Expand(e)), stored + Written(e, window), next, events[1..]);
      StoredStep(events, window);
      AppendAssociates(stored, Written(e, window), Stored(events[1..], next));
    }
  }

  lemma {:induction false} StoredVersusFlushed(events: seq<Event>, window: seq<Payload>)
    ensures |Stored(events, window)| <= |Flushed(events, window)|
    ensures Stored(events, window) == Flushed(events, window) <==> NoFlushTooLate(events, window)
    decreases events
  {
    if events != [] {
      match events[0] {
        case Push(t, d) => StoredVersusFlushed(events[1..], window + [Payload(t, d)]);
        case Flush =>
          StoredVersusFlushed(events[1..], []);
          var p := Storable;
          var late, tail := Overflow(window), LastN(window, MAX_BUFFER_MESSAGES);
          assert window == late + tail;
          FilterAppend(late, tail, p);
          if forall i :: 0 <= i < |late| ==> !Storable(late[i]) {
            FilterNone(late, p);
            assert Kept(window) == Kept(tail);
            SameHeadSameTail(Kept(tail), Stored(events[1..], []), Flushed(events[1..], []));
          } else {
            var i :| 0 <= i < |late| && Storable(late[i]);
            FilterMembers(late, p);
            assert late[i] in Filter(late, p);
          }
        case Restart => StoredVersusFlushed(events[1..], []);
        case _ => StoredVersusFlushed(events[1..], window);
      }
    }
  }

  lemma SameHeadSameTail(head: seq<Payload>, a: seq<Payload>, b: seq<Payload>)
    ensures head + a == head + b <==> a == b
  {
    if head + a == head + b {
      assert a == (head + a)[|head|..] && b == (head + b)[|head|..];
    }
  }

  /**
   * Durability, for every run of pushes of both kinds, flushes, metadata changes and
   * crash+reloads: the rows, in sequence order, are exactly what the events say was
   * stored; they are every flushed storable text, once each and in order, if and only
   * if no flush came after 2000 later texts had already evicted a storable one; and
   * a further crash+reload rebuilds the last 2000 rows as the history.
   */
  lemma TableIsWhatWasFlushed(events: seq<Event>)
    ensures SelectOrdered(RunEvents(NEW_SESSION, events).table) == RunEvents(NEW_SESSION, events).table
    ensures RowPayloads(RunEvents(NEW_SESSION, events).table) == Stored(events, [])
    ensures RowPayloads(RunEvents(NEW_SESSION, events).table) == Flushed(events, []) <==> NoFlushTooLate(events, [])
    ensures Run(RunEvents(NEW_SESSION, events), [Crash, Reload]).live.Some?
    ensures Run(RunEvents(NEW_SESSION, events), [Crash, Reload]).live.value.history
         == LastN(Map(RunEvents(NEW_SESSION, events).table, FromRow), MAX_BUFFER_MESSAGES)
  {
    var s := RunEvents(NEW_SESSION, events);
    RunMatches(NEW_SESSION, [], [], events);
    assert [] + Stored(events, []) == Stored(events, []);
    StoredVersusFlushed(events, []);
    RunEventsInv(NEW_SESSION, events);
    RestartHistory(s);
  }

  lemma RestartHistory(s: Session)
    requires Inv(s) && s.live.Some?
    ensures SelectOrdered(s.table) == s.table
    ensures Run(s, [Crash, Reload]).live.Some?
    ensures Run(s, [Crash, Reload]).live.value.history == LastN(Map(s.table, FromRow), MAX_BUFFER_MESSAGES)
  {
    OrderedSelect(s.table);
    RestartReloads(s);
    ReloadedInv(s.table);
    hide Step, Run, Inv, SelectOrdered, Reloaded;
    RunTwo(s, Crash, Reload);
  }

  lemma {:induction false} RunEventsInv(s: Session, events: seq<Event>)
    requires Inv(s)
    ensures Inv(RunEvents(s, events))
    decreases events
  {
    if events != [] {
      RunInv(s, Expand(events[0]));
      RunEventsInv(Run(s, Expand(events[0])), events[1..]);
    }
  }
}
