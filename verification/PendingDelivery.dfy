// The order in which the drain loop pops queued messages, while enqueues and deletions overlap it.
module PendingDelivery {
  // src/core/pending_store.py:192-197 and src/core/prompt_router.py:1239-1242: the loop reads
  // the mirror's head and then, in a transaction, deletes its row; others run in between. A
  // popped message is handed over next, or dropped, if its entry has gone or the loop fails.

  import opened Collections
  import opened SessionState
  import opened PendingOrder

  /** `picked` is the head that the one drain loop has read and not deleted yet. */
  datatype World = World(store: State, picked: Option<Id>)

  const NOTHING_QUEUED := World(EMPTY_TABLE, None)

  /** A step of the store, or one of the drain loop; it drops its pick when it fails or is cancelled. */
  datatype Event = Store(op: Op) | PickHead | PopRow | DropPick

  predicate Pops(w: World, e: Event) {
    e.PopRow? && w.picked.Some? && w.picked.value in w.store.table
  }

  function Next(w: World, e: Event): World {
    match e
    case Store(op) => World(Step(w.store, op), if op.Restart? then None else w.picked)
    case PickHead => if w.picked.None? && w.store.mirror != [] then w.(picked := Some(w.store.mirror[0].id)) else w
    case PopRow => if Pops(w, e) then World(Step(w.store, DeleteRow(w.picked.value)), None) else w.(picked := None)
    case DropPick => w.(picked := None)
  }

  /** The messages popped along the run, in that order. */
  function Popped(w: World, events: seq<Event>): seq<Id>
    decreases events
  {
    if events == [] then []
    else (if Pops(w, events[0]) then [w.picked.value] else []) + Popped(Next(w, events[0]), events[1..])
  }

  /** Those popped before the next restart. */
  function PoppedSoon(w: World, events: seq<Event>): seq<Id>
    decreases events
  {
    if events == [] || events[0] == Store(Restart) then []
    else (if Pops(w, events[0]) then [w.picked.value] else []) + PoppedSoon(Next(w, events[0]), events[1..])
  }

  // ---- When an entry is filed, and when the head is read ---------------------------------------

  /** `f` is popped before the next restart and `g` some time, but not next, as if it were picked already. */
  predicate BothPopped(w: World, events: seq<Event>, f: Id, g: Id) {
    f in PoppedSoon(w, events) && g in Popped(w, events) && PoppedSoon(w, events)[0] != g
  }

  /** The entry filed separates the older mirrored messages from the newer ones, as far as both are popped. */
  ghost predicate SeparatesPopped(w: World, e: Entry, r: World, rest: seq<Event>) {
    forall k :: 0 <= k < |w.store.mirror| ==> RightSide(w.store.mirror[k], e, r, rest)
  }

  predicate RightSide(x: Entry, e: Entry, r: World, rest: seq<Event>) {
    && (x.id < e.id && e.position < x.position ==> !BothPopped(r, rest, e.id, x.id))
    && (e.id < x.id && x.position <= e.position ==> !BothPopped(r, rest, x.id, e.id))
  }

  /** If the head read is popped next, every older message popped later is mirrored behind it. */
  ghost predicate OlderAreMirrored(w: World, rest: seq<Event>, head: Id) {
    PoppedSoon(Next(w, PickHead), rest) != [] && PoppedSoon(Next(w, PickHead), rest)[0] == head ==>
      forall a :: a in Popped(Next(w, PickHead), rest) && a < head ==> a in Shown(w.store.mirror)
  }

  predicate Files(w: World, e: Event) {
    e.Store? && e.op.AddEntry? && e.op.id in w.store.adding
  }

  predicate Picks(w: World, e: Event) {
    e.PickHead? && w.picked.None? && w.store.mirror != []
  }

  ghost predicate StepInOrder(w: World, e: Event, rest: seq<Event>) {
    && (Files(w, e) ==> SeparatesPopped(w, Entry(e.op.id, w.store.adding[e.op.id]), Next(w, e), rest))
    && (Picks(w, e) ==> OlderAreMirrored(w, rest, w.store.mirror[0].id))
  }

  ghost predicate AlwaysInTurn(w: World, events: seq<Event>)
    decreases events
  {
    events == [] || (StepInOrder(w, events[0], events[1..]) && AlwaysInTurn(Next(w, events[0]), events[1..]))
  }

  // ---- What every step keeps ---------------------------------------------------------------------

  ghost predicate OncePerId(mirror: seq<Entry>) {
    forall i, j :: 0 <= i < j < |mirror| ==> mirror[i].id != mirror[j].id
  }

  lemma FiledOncePerId(mirror: seq<Entry>, e: Entry)
    requires SortedByKey(mirror, EntryPosition) && OncePerId(mirror) && e.id !in Shown(mirror)
    ensures OncePerId(InsertByKey(mirror, EntryPosition, e))
  {
    assert forall k :: 0 <= k < |mirror| ==> mirror[k].id in Shown(mirror);
    hide InsertByKey, SortedByKey, Shown;
    var at := InsertedShape(mirror, e);
  }

  lemma RemovedOncePerId(mirror: seq<Entry>, i: nat)
    requires OncePerId(mirror) && i < |mirror|
    ensures OncePerId(Renumber(Without(mirror, i)))
  {
    var after := Renumber(Without(mirror, i));
    assert forall k :: 0 <= k < |after| ==> after[k].id == mirror[if k < i then k else k + 1].id;
    hide Renumber, Without;
  }

  lemma StaysOncePerId(s: State, op: Op)
    requires Sound(s) && OncePerId(s.mirror)
    ensures OncePerId(Step(s, op).mirror)
  {
    hide InsertByKey, SortedByKey, Shown, Rows, Renumber, Without, FirstIndex;
    match op
    case AddEntry(id) =>
      if id in s.adding {
        FiledOncePerId(s.mirror, Entry(id, s.adding[id]));
      }
    case RemoveEntry(id) =>
      var i := FirstIndex(s.mirror, HasEntryId(id));
      if i < |s.mirror| {
        RemovedOncePerId(s.mirror, i);
      }
    case Restart => assert forall k :: 0 <= k < |s.table| ==> Listing(s.table)[k].id == s.table[k];
    case _ =>
  }

  ghost predicate Valid(w: World) {
    Sound(w.store) && OncePerId(w.store.mirror) && (w.picked.Some? ==> w.picked.value < w.store.next)
  }

  lemma NextValid(w: World, e: Event)
    requires Valid(w)
    ensures Valid(Next(w, e)) && w.store.next <= Next(w, e).store.next
  {
    if e.Store? {
      StepSound(w.store, e.op);
      StaysOncePerId(w.store, e.op);
      hide Sound, OncePerId;
    } else if Pops(w, e) {
      StepSound(w.store, DeleteRow(w.picked.value));
      StaysOncePerId(w.store, DeleteRow(w.picked.value));
      hide Sound, OncePerId;
    } else if Picks(w, e) {
      assert w.store.mirror[0].id in Shown(w.store.mirror);
    }
  }

  /** A message without a row never gets one again. */
  lemma StaysAway(w: World, e: Event, id: Id)
    requires Valid(w) && id < w.store.next && id !in w.store.table
    ensures id !in Next(w, e).store.table
  {
  }

  lemma {:induction false} NeverPopped(w: World, events: seq<Event>, id: Id)
    requires Valid(w) && id < w.store.next && id !in w.store.table
    ensures id !in Popped(w, events)
    decreases events
  {
    if events != [] {
      NextValid(w, events[0]);
      StaysAway(w, events[0], id);
      NeverPopped(Next(w, events[0]), events[1..], id);
    }
  }

  lemma {:induction false} SoonIsFirst(w: World, events: seq<Event>)
    ensures PoppedSoon(w, events) <= Popped(w, events)
    decreases events
  {
    if events != [] && events[0] != Store(Restart) {
      SoonIsFirst(Next(w, events[0]), events[1..]);
    }
  }

  /** Neither mirrored, nor to be filed, nor picked. */
  ghost predicate OutOfSight(w: World, id: Id) {
    id < w.store.next && id !in Shown(w.store.mirror) && id !in w.store.adding && w.picked != Some(id)
  }

  lemma StaysHidden(s: State, op: Op, id: Id)
    requires Sound(s) && id < s.next && id !in Shown(s.mirror) && id !in s.adding && !op.Restart?
    ensures id !in Shown(Step(s, op).mirror) && id !in Step(s, op).adding
  {
    assert Shown([]) == {};
    hide InsertByKey, SortedByKey, Ascending, Rows, Shown, FirstIndex, Without, Renumber;
    match op
    case AddEntry(x) =>
      if x in s.adding {
        InsertEntry(s.mirror, Entry(x, s.adding[x]), s.table);
      }
    case RemoveEntry(x) =>
      var at := FirstIndex(s.mirror, HasEntryId(x));
      if at < |s.mirror| {
        RenumberingForgets(s.mirror, at);
      }
    case _ =>
  }

  lemma StaysOutOfSight(w: World, e: Event, id: Id)
    requires Valid(w) && OutOfSight(w, id) && e != Store(Restart)
    ensures OutOfSight(Next(w, e), id)
  {
    NextValid(w, e);
    if e.Store? {
      StaysHidden(w.store, e.op, id);
      hide Step, Sound, OncePerId, Shown;
    } else if Pops(w, e) {
      StaysHidden(w.store, DeleteRow(w.picked.value), id);
      hide Step, Sound, OncePerId, Shown;
    } else if Picks(w, e) {
      assert w.store.mirror[0].id in Shown(w.store.mirror);
    }
  }

  lemma {:induction false} NotSoon(w: World, events: seq<Event>, id: Id)
    requires Valid(w) && OutOfSight(w, id)
    ensures id !in PoppedSoon(w, events)
    decreases events
  {
    if events != [] && events[0] != Store(Restart) {
      NextValid(w, events[0]);
      StaysOutOfSight(w, events[0], id);
      NotSoon(Next(w, events[0]), events[1..], id);
    }
  }

  // ---- The mirror decides the order ----------------------------------------------------------------

  ghost predicate Before(ids: seq<Id>, f: Id, g: Id) {
    exists i, j :: 0 <= i < j < |ids| && ids[i] == f && ids[j] == g
  }

  lemma BeforeMore(ids: seq<Id>, f: Id, g: Id, x: Id)
    ensures Before(ids, f, g) ==> Before([x] + ids, f, g)
    ensures x == f && g in ids ==> Before([x] + ids, f, g)
  {
    var more := [x] + ids;
    if Before(ids, f, g) {
      var i, j :| 0 <= i < j < |ids| && ids[i] == f && ids[j] == g;
      assert more[i + 1] == f && more[j + 1] == g;
    }
    if x == f && g in ids {
      var j :| 0 <= j < |ids| && ids[j] == g;
      assert more[0] == f && more[j + 1] == g;
    }
  }

  /** One of the two is popped before the restart, the other only after it. */
  lemma SoonBeforeLater(soon: seq<Id>, all: seq<Id>, f: Id, g: Id)
    requires soon <= all && f in soon && g !in soon && g in all
    ensures Before(all, f, g)
  {
    var i :| 0 <= i < |soon| && soon[i] == f;
    var j :| 0 <= j < |all| && all[j] == g;
    assert all[i] == f && forall k :: 0 <= k < |soon| ==> all[k] == soon[k] != g;
  }

  /** Entries keep their order until one of them leaves the mirror. */
  lemma KeepsFront(s: State, op: Op, f: Id, g: Id)
    requires Sound(s) && FrontOf(s.mirror, f, g)
    requires !op.Restart? && !op.EmptyMirror? && (op.RemoveEntry? ==> op.id != f && op.id != g)
    ensures FrontOf(Step(s, op).mirror, f, g)
  {
    var i, j :| 0 <= i < j < |s.mirror| && s.mirror[i].id == f && s.mirror[j].id == g;
    match op
    case AddEntry(id) =>
      if id in s.adding {
        hide InsertByKey, FrontOf, SortedByKey, Shown, Rows, Ascending;
        FilingKeepsFront(s.mirror, Entry(id, s.adding[id]), i, j);
      }
    case RemoveEntry(id) =>
      RemovalKeepsFront(s.mirror, id, i, j);
      hide FrontOf, FirstIndex, Without, Renumber;
    case _ =>
  }

  lemma FilingKeepsFront(mirror: seq<Entry>, e: Entry, i: nat, j: nat)
    requires SortedByKey(mirror, EntryPosition) && i < j < |mirror|
    ensures FrontOf(InsertByKey(mirror, EntryPosition, e), mirror[i].id, mirror[j].id)
  {
    hide InsertByKey, SortedByKey;
    var at := InsertedShape(mirror, e);
    var after := InsertByKey(mirror, EntryPosition, e);
    var x, y := if i < at then i else i + 1, if j < at then j else j + 1;
    assert after[x] == mirror[i] && after[y] == mirror[j];
  }

  lemma RemovedShape(mirror: seq<Entry>, at: nat)
    requires at < |mirror|
    ensures
      var after := Renumber(Without(mirror, at));
      && |after| == |mirror| - 1
      && (forall n :: 0 <= n < at ==> after[n].id == mirror[n].id)
      && (forall n :: at <= n < |after| ==> after[n].id == mirror[n + 1].id)
  {
    hide Renumber;
    var rest := Without(mirror, at);
    assert rest == mirror[..at] + mirror[at + 1..];
    hide Without;
    assert forall n :: at <= n < |rest| ==> rest[n] == mirror[n + 1];
  }

  lemma RemovalKeepsFront(mirror: seq<Entry>, id: Id, i: nat, j: nat)
    requires i < j < |mirror| && mirror[i].id != id && mirror[j].id != id
    ensures
      var at := FirstIndex(mirror, HasEntryId(id));
      FrontOf(if at == |mirror| then mirror else Renumber(Without(mirror, at)), mirror[i].id, mirror[j].id)
  {
    hide FirstIndex, Renumber, Without;
    var at := FirstIndex(mirror, HasEntryId(id));
    if at < |mirror| {
      RemovedShape(mirror, at);
      assert HasEntryId(id)(mirror[at]);
      var after := Renumber(Without(mirror, at));
      var x, y := if i < at then i else i - 1, if j < at then j else j - 1;
      assert after[x].id == mirror[i].id && after[y].id == mirror[j].id;
    }
  }

  lemma FrontIsShown(s: State, f: Id, g: Id)
    requires Sound(s) && FrontOf(s.mirror, f, g)
    ensures f in Shown(s.mirror) && g in Shown(s.mirror) && f < s.next && g < s.next
    ensures f !in s.adding && g !in s.adding
  {
  }

  /** The run after its first event. */
  lemma PoppedFirst(w: World, events: seq<Event>)
    requires events != []
    ensures
      var r, rest := Next(w, events[0]), events[1..];
      && Popped(w, events) == (if Pops(w, events[0]) then [w.picked.value] + Popped(r, rest) else Popped(r, rest))
      && (events[0] != Store(Restart) ==>
            PoppedSoon(w, events)
              == if Pops(w, events[0]) then [w.picked.value] + PoppedSoon(r, rest) else PoppedSoon(r, rest))
  {
    var r, rest := Next(w, events[0]), events[1..];
    assert [] + Popped(r, rest) == Popped(r, rest) && [] + PoppedSoon(r, rest) == PoppedSoon(r, rest);
  }

  lemma FrontStep(w: World, e: Event, f: Id, g: Id)
    requires Valid(w) && FrontOf(w.store.mirror, f, g) && e != Store(Restart)
    requires e.Store? && e.op.RemoveEntry? && e.op.id in w.store.removing ==> e.op.id != f && e.op.id != g
    requires e.Store? && e.op.EmptyMirror? ==> w.store.clearing == 0
    ensures FrontOf(Next(w, e).store.mirror, f, g)
    ensures Next(w, e).picked == Some(g) ==> w.picked == Some(g)
  {
    if e.Store? && !(e.op.EmptyMirror? || (e.op.RemoveEntry? && e.op.id !in w.store.removing)) {
      KeepsFront(w.store, e.op, f, g);
    }
  }

  lemma {:induction false} FrontFirst(w: World, events: seq<Event>, f: Id, g: Id)
    requires Valid(w) && FrontOf(w.store.mirror, f, g)
    requires f in PoppedSoon(w, events) && g in Popped(w, events)
    requires w.picked == Some(g) ==> PoppedSoon(w, events)[0] != g
    ensures Before(Popped(w, events), f, g)
    decreases events
  {
    var e, r, rest := events[0], Next(w, events[0]), events[1..];
    PoppedFirst(w, events);
    NextValid(w, e);
    FrontIsShown(w.store, f, g);
    FrontDiffers(w.store.mirror, f, g);
    if e == Store(EmptyMirror) && w.store.clearing > 0 {
      MirrorEmptied(w, events, f, g);
    } else {
      if e.Store? && e.op.RemoveEntry? && e.op.id in w.store.removing {
        RemovedIsGone(w.store, e.op.id);
        NeverPopped(w, events, e.op.id);
        SoonIsFirst(w, events);
      }
      if e.PopRow? && w.picked == Some(g) && g !in w.store.table {
        NeverPopped(w, events, g);
      }
      FrontStep(w, e, f, g);
      hide Valid, FrontOf, Popped, PoppedSoon, Next;
      if !(Pops(w, e) && w.picked == Some(f)) {
        FrontFirst(r, rest, f, g);
      }
      if Pops(w, e) {
        BeforeMore(Popped(r, rest), f, g, w.picked.value);
      }
    }
  }

  lemma RemovedIsGone(s: State, id: Id)
    requires Sound(s) && id in s.removing
    ensures id !in s.table && id < s.next
  {
  }

  lemma EmptiedOutOfSight(w: World, id: Id)
    requires Valid(w) && id in Shown(w.store.mirror) && w.store.clearing > 0 && w.picked != Some(id)
    ensures OutOfSight(Next(w, Store(EmptyMirror)), id)
  {
    assert Shown([]) == {};
  }

  /** Once a clear has emptied the mirror, only the picked one of the two is popped before a restart. */
  lemma {:induction false} MirrorEmptied(w: World, events: seq<Event>, f: Id, g: Id)
    requires Valid(w) && FrontOf(w.store.mirror, f, g) && events != []
    requires events[0] == Store(EmptyMirror) && w.store.clearing > 0
    requires f in PoppedSoon(w, events) && g in Popped(w, events)
    ensures Before(Popped(w, events), f, g)
  {
    var r, rest := Next(w, events[0]), events[1..];
    PoppedFirst(w, events);
    NextValid(w, events[0]);
    FrontIsShown(w.store, f, g);
    FrontDiffers(w.store.mirror, f, g);
    hide Valid, FrontOf, Shown, Next, Popped, PoppedSoon, OutOfSight, Before;
    if w.picked != Some(f) {
      EmptiedOutOfSight(w, f);
      NotSoon(r, rest, f);
    } else {
      EmptiedOutOfSight(w, g);
      NotSoon(r, rest, g);
      SoonIsFirst(r, rest);
      SoonBeforeLater(PoppedSoon(r, rest), Popped(r, rest), f, g);
    }
  }

  lemma FrontDiffers(mirror: seq<Entry>, f: Id, g: Id)
    requires OncePerId(mirror) && FrontOf(mirror, f, g)
    ensures f != g && mirror[0].id != g
  {
  }

  // ---- In order exactly if every step was in turn ------------------------------------------------

  lemma BothPoppedInOrder(w: World, events: seq<Event>, f: Id, g: Id)
    requires Valid(w) && FrontOf(w.store.mirror, f, g) && Ascending(Popped(w, events))
    ensures BothPopped(w, events, f, g) ==> f < g
  {
    if BothPopped(w, events, f, g) {
      FrontFirst(w, events, f, g);
      hide Popped, PoppedSoon, Valid, FrontOf;
    }
  }

  lemma FiledInOrder(w: World, id: Id, rest: seq<Event>)
    requires Valid(w) && id in w.store.adding
    requires Ascending(Popped(Next(w, Store(AddEntry(id))), rest))
    ensures SeparatesPopped(w, Entry(id, w.store.adding[id]), Next(w, Store(AddEntry(id))), rest)
  {
    var e, r, mirror := Entry(id, w.store.adding[id]), Next(w, Store(AddEntry(id))), w.store.mirror;
    NextValid(w, Store(AddEntry(id)));
    assert r.store.mirror == InsertByKey(mirror, EntryPosition, e);
    hide Ascending, Popped, PoppedSoon, FrontOf, InsertByKey, BothPopped, Next, SortedByKey;
    forall k | 0 <= k < |mirror|
      ensures RightSide(mirror[k], e, r, rest)
    {
      FiledFront(mirror, e, k);
      if e.position < mirror[k].position {
        BothPoppedInOrder(r, rest, id, mirror[k].id);
      } else {
        BothPoppedInOrder(r, rest, mirror[k].id, id);
      }
    }
  }

  lemma PickedInOrder(w: World, rest: seq<Event>, head: Id)
    requires Ascending(Popped(Next(w, PickHead), rest))
    ensures OlderAreMirrored(w, rest, head)
  {
    var r := Next(w, PickHead);
    SoonIsFirst(r, rest);
    hide Next, Popped, PoppedSoon;
    forall a | PoppedSoon(r, rest) != [] && PoppedSoon(r, rest)[0] == head && a in Popped(r, rest)
      ensures head <= a
    {
      var j :| 0 <= j < |Popped(r, rest)| && Popped(r, rest)[j] == a;
      assert Popped(r, rest)[0] == head;
    }
  }

  lemma AscendingSplits(x: Id, ids: seq<Id>)
    requires Ascending([x] + ids)
    ensures Ascending(ids) && forall a :: a in ids ==> x < a
  {
    var all := [x] + ids;
    assert ids == all[1..];
    forall a | a in ids
      ensures x < a
    {
      var k :| 0 <= k < |ids| && ids[k] == a;
      assert all[0] < all[k + 1];
    }
    forall i, j | 0 <= i < j < |ids|
      ensures ids[i] < ids[j]
    {
      assert all[i + 1] < all[j + 1];
    }
  }

  lemma AscendingJoins(x: Id, ids: seq<Id>)
    requires Ascending(ids) && forall a :: a in ids ==> x < a
    ensures Ascending([x] + ids)
  {
    var all := [x] + ids;
    forall i, j | 0 <= i < j < |all|
      ensures all[i] < all[j]
    {
      assert all[j] == ids[j - 1] && ids[j - 1] in ids;
      assert i > 0 ==> all[i] == ids[i - 1];
    }
  }

  lemma {:induction false} InOrderIsInTurn(w: World, events: seq<Event>)
    requires Valid(w) && Ascending(Popped(w, events))
    ensures AlwaysInTurn(w, events)
    decreases events
  {
    if events != [] {
      var e, r, rest := events[0], Next(w, events[0]), events[1..];
      PoppedFirst(w, events);
      NextValid(w, e);
      if Pops(w, e) {
        AscendingSplits(w.picked.value, Popped(r, rest));
      }
      hide Valid, Ascending, Popped, PoppedSoon, SeparatesPopped, OlderAreMirrored, Next;
      if Files(w, e) {
        FiledInOrder(w, e.op.id, rest);
      } else if Picks(w, e) {
        PickedInOrder(w, rest, w.store.mirror[0].id);
      }
      InOrderIsInTurn(r, rest);
    }
  }

  /** No two mirrored messages stand in the wrong order for what is still to be popped. */
  ghost predicate MirrorReady(w: World, events: seq<Event>) {
    forall f, g :: FrontOf(w.store.mirror, f, g) && g < f ==> !BothPopped(w, events, f, g)
  }

  /** If the pick is popped next, nothing older is popped after it. */
  ghost predicate PickReady(w: World, events: seq<Event>) {
    w.picked.Some? && PoppedSoon(w, events) != [] && PoppedSoon(w, events)[0] == w.picked.value ==>
      forall a :: a in Popped(w, events) ==> w.picked.value <= a
  }

  lemma FiledReady(w: World, e: Entry, r: World, rest: seq<Event>, f: Id, g: Id)
    requires SortedByKey(w.store.mirror, EntryPosition) && r.store.mirror == InsertByKey(w.store.mirror, EntryPosition, e)
    requires SeparatesPopped(w, e, r, rest) && FrontOf(r.store.mirror, f, g) && g < f
    ensures FrontOf(w.store.mirror, f, g) || !BothPopped(r, rest, f, g)
  {
    hide FrontOf, InsertByKey, BothPopped, SortedByKey;
    var mirror := w.store.mirror;
    FiledOnly(mirror, e, f, g);
    if f == e.id && exists k :: 0 <= k < |mirror| && mirror[k].id == g && mirror[k].position > e.position {
      var k :| 0 <= k < |mirror| && mirror[k].id == g && mirror[k].position > e.position;
      assert RightSide(mirror[k], e, r, rest);
    } else if g == e.id && exists k :: 0 <= k < |mirror| && mirror[k].id == f && mirror[k].position <= e.position {
      var k :| 0 <= k < |mirror| && mirror[k].id == f && mirror[k].position <= e.position;
      assert RightSide(mirror[k], e, r, rest);
    }
  }

  lemma FilingReady(w: World, events: seq<Event>)
    requires Valid(w) && MirrorReady(w, events) && events != [] && Files(w, events[0])
    requires StepInOrder(w, events[0], events[1..])
    ensures MirrorReady(Next(w, events[0]), events[1..])
  {
    var e, r, rest := Entry(events[0].op.id, w.store.adding[events[0].op.id]), Next(w, events[0]), events[1..];
    assert r.store.mirror == InsertByKey(w.store.mirror, EntryPosition, e);
    hide Popped, PoppedSoon, FrontOf, InsertByKey, BothPopped, Next, SortedByKey, SeparatesPopped;
    forall f, g | FrontOf(r.store.mirror, f, g) && g < f
      ensures !BothPopped(r, rest, f, g)
    {
      FiledReady(w, e, r, rest, f, g);
      if BothPopped(r, rest, f, g) {
        BothPoppedEarlier(w, events, f, g);
      }
    }
  }

  lemma RemovalNoNewFront(mirror: seq<Entry>, at: nat, f: Id, g: Id)
    requires at < |mirror| && FrontOf(Renumber(Without(mirror, at)), f, g)
    ensures FrontOf(mirror, f, g)
  {
    RemovedShape(mirror, at);
    hide Renumber, Without;
    var after := Renumber(Without(mirror, at));
    var i, j :| 0 <= i < j < |after| && after[i].id == f && after[j].id == g;
    var x, y := if i < at then i else i + 1, if j < at then j else j + 1;
    assert mirror[x].id == f && mirror[y].id == g;
  }

  lemma ListingFront(table: seq<Id>, f: Id, g: Id)
    requires Ascending(table) && FrontOf(Listing(table), f, g)
    ensures f < g
  {
  }

  /** Nothing but filing puts one entry in front of another; a restart puts all in order. */
  lemma NoNewFront(s: State, op: Op, f: Id, g: Id)
    requires Sound(s) && !(op.AddEntry? && op.id in s.adding) && FrontOf(Step(s, op).mirror, f, g)
    ensures if op.Restart? then f < g else FrontOf(s.mirror, f, g)
  {
    assert !FrontOf([], f, g);
    hide FrontOf, SortedByKey, Ascending, Rows, Shown, FirstIndex, Without, Renumber, Listing;
    match op
    case RemoveEntry(id) =>
      var at := FirstIndex(s.mirror, HasEntryId(id));
      if id in s.removing && at < |s.mirror| {
        RemovalNoNewFront(s.mirror, at, f, g);
      }
    case Restart => ListingFront(s.table, f, g);
    case _ =>
  }

  lemma PopIsLast(w: World, events: seq<Event>)
    requires Valid(w) && events != [] && Pops(w, events[0])
    ensures w.picked.value !in Popped(Next(w, events[0]), events[1..])
  {
    var id := w.picked.value;
    NextValid(w, events[0]);
    var i := FirstIndex(w.store.table, IsId(id));
    assert i < |w.store.table| by {
      var k :| 0 <= k < |w.store.table| && w.store.table[k] == id;
      assert IsId(id)(w.store.table[k]);
    }
    assert w.store.table[i] == id;
    AscendingWithout(w.store.table, i);
    InRows(Without(w.store.table, i), id);
    hide Valid, FirstIndex, Without, Rows, Popped;
    NeverPopped(Next(w, events[0]), events[1..], id);
  }

  lemma BothPoppedEarlier(w: World, events: seq<Event>, f: Id, g: Id)
    requires Valid(w) && events != [] && events[0] != Store(Restart)
    requires BothPopped(Next(w, events[0]), events[1..], f, g)
    ensures BothPopped(w, events, f, g)
  {
    PoppedFirst(w, events);
    hide Popped, PoppedSoon, Next, Valid;
    if Pops(w, events[0]) {
      PopIsLast(w, events);
    }
  }

  lemma MirrorStaysReady(w: World, events: seq<Event>)
    requires Valid(w) && MirrorReady(w, events) && events != [] && StepInOrder(w, events[0], events[1..])
    ensures MirrorReady(Next(w, events[0]), events[1..])
  {
    var e, r, rest := events[0], Next(w, events[0]), events[1..];
    if Files(w, e) {
      FilingReady(w, events);
    } else {
      var op := if e.Store? then e.op else if Pops(w, e) then DeleteRow(w.picked.value) else EmptyMirror;
      assert e.Store? || Pops(w, e) ==> r.store == Step(w.store, op);
      assert !e.Store? ==> r.store.mirror == w.store.mirror;
      hide Popped, PoppedSoon, FrontOf, BothPopped, Next, Step;
      forall f, g | FrontOf(r.store.mirror, f, g) && g < f
        ensures !BothPopped(r, rest, f, g)
      {
        if e.Store? {
          NoNewFront(w.store, op, f, g);
        }
        if BothPopped(r, rest, f, g) {
          BothPoppedEarlier(w, events, f, g);
        }
      }
    }
  }

  lemma PickedReady(w: World, events: seq<Event>)
    requires Valid(w) && MirrorReady(w, events) && events != [] && Picks(w, events[0])
    requires StepInOrder(w, events[0], events[1..])
    ensures PickReady(Next(w, events[0]), events[1..])
  {
    var r, rest, mirror := Next(w, PickHead), events[1..], w.store.mirror;
    var head := mirror[0].id;
    PoppedFirst(w, events);
    assert r.picked == Some(head);
    hide Popped, PoppedSoon, Next;
    forall a | PoppedSoon(r, rest) != [] && PoppedSoon(r, rest)[0] == head && a in Popped(r, rest)
      ensures head <= a
    {
      if a != head && a in Shown(mirror) {
        var j :| 0 <= j < |mirror| && mirror[j].id == a;
        assert FrontOf(mirror, head, a);
        assert a < head ==> !BothPopped(w, events, head, a);
      }
    }
  }

  lemma PickStaysReady(w: World, events: seq<Event>)
    requires Valid(w) && MirrorReady(w, events) && PickReady(w, events) && events != []
    requires StepInOrder(w, events[0], events[1..])
    ensures PickReady(Next(w, events[0]), events[1..])
  {
    if Picks(w, events[0]) {
      PickedReady(w, events);
    } else {
      PoppedFirst(w, events);
      hide Popped, PoppedSoon, Valid, MirrorReady;
    }
  }

  lemma PoppedIsLeast(w: World, events: seq<Event>)
    requires Valid(w) && PickReady(w, events) && events != [] && Pops(w, events[0])
    ensures forall a :: a in Popped(Next(w, events[0]), events[1..]) ==> w.picked.value < a
  {
    PoppedFirst(w, events);
    PopIsLast(w, events);
    hide Popped, PoppedSoon, Valid, Next;
    var tail := Popped(Next(w, events[0]), events[1..]);
    forall a | a in tail
      ensures w.picked.value < a
    {
      assert a in [w.picked.value] + tail;
    }
  }

  lemma {:induction false} InTurnIsInOrder(w: World, events: seq<Event>)
    requires Valid(w) && MirrorReady(w, events) && PickReady(w, events) && AlwaysInTurn(w, events)
    ensures Ascending(Popped(w, events))
    decreases events
  {
    if events != [] {
      var e, r, rest := events[0], Next(w, events[0]), events[1..];
      NextValid(w, e);
      MirrorStaysReady(w, events);
      PickStaysReady(w, events);
      PoppedFirst(w, events);
      if Pops(w, e) {
        PoppedIsLeast(w, events);
        hide Popped, PoppedSoon, Valid, MirrorReady, PickReady, Ascending, StepInOrder, Next;
        InTurnIsInOrder(r, rest);
        AscendingJoins(w.picked.value, Popped(r, rest));
      } else {
        hide Popped, PoppedSoon, Valid, MirrorReady, PickReady, Ascending, StepInOrder, Next;
        InTurnIsInOrder(r, rest);
      }
    }
  }

  lemma StartIsReady(events: seq<Event>)
    ensures Valid(NOTHING_QUEUED) && MirrorReady(NOTHING_QUEUED, events) && PickReady(NOTHING_QUEUED, events)
  {
  }

  /**
   * In every run of enqueues, cancels, clears, restarts and a drain loop that may fail at
   * any step, however they overlap: messages are popped in the order in which their rows
   * were inserted, exactly if
   *   - every entry filed separates the older mirrored messages from the newer ones, as far
   *     as both are popped, the one in front before the next restart, and the one behind is
   *     not the next; and
   *   - whenever the head is read and popped next, every older message popped later is
   *     mirrored by then: none is still to be filed, or lost its entry to a clear.
   */
  lemma PoppedInOrderIff(events: seq<Event>)
    ensures Ascending(Popped(NOTHING_QUEUED, events)) <==> AlwaysInTurn(NOTHING_QUEUED, events)
  {
    StartIsReady(events);
    if AlwaysInTurn(NOTHING_QUEUED, events) {
      InTurnIsInOrder(NOTHING_QUEUED, events);
    }
    if Ascending(Popped(NOTHING_QUEUED, events)) {
      InOrderIsInTurn(NOTHING_QUEUED, events);
    }
  }

  // ---- Without looking ahead -----------------------------------------------------------------------

  /** Every entry filed along the run separates the older mirrored messages from the newer ones. */
  ghost predicate FilesSeparate(w: World, events: seq<Event>)
    decreases events
  {
    events == [] ||
    (&& (Files(w, events[0]) ==> Separates(w.store.mirror, Entry(events[0].op.id, w.store.adding[events[0].op.id])))
     && FilesSeparate(Next(w, events[0]), events[1..]))
  }

  /** Whenever the head is read, every older row is mirrored. */
  ghost predicate PicksSeeAll(w: World, events: seq<Event>)
    decreases events
  {
    events == [] ||
    (&& (Picks(w, events[0]) ==> OlderShown(w.store, w.store.mirror[0].id))
     && PicksSeeAll(Next(w, events[0]), events[1..]))
  }

  ghost predicate OlderShown(s: State, head: Id) {
    forall a :: a in s.table && a < head ==> a in Shown(s.mirror)
  }

  lemma OlderShownSuffices(w: World, rest: seq<Event>)
    requires Valid(w) && Picks(w, PickHead) && OlderShown(w.store, w.store.mirror[0].id)
    ensures OlderAreMirrored(w, rest, w.store.mirror[0].id)
  {
    var r, head := Next(w, PickHead), w.store.mirror[0].id;
    NextValid(w, PickHead);
    assert head in Shown(w.store.mirror) && head < w.store.next && r.store == w.store;
    hide Popped, PoppedSoon, Valid, Shown, Next;
    forall a | a in Popped(r, rest) && a < head
      ensures a in Shown(w.store.mirror)
    {
      if a !in w.store.table {
        NeverPopped(r, rest, a);
      }
    }
  }

  /** Both together are enough for every run. */
  lemma {:induction false} SeparatingIsInTurn(w: World, events: seq<Event>)
    requires Valid(w) && FilesSeparate(w, events) && PicksSeeAll(w, events)
    ensures AlwaysInTurn(w, events)
    decreases events
  {
    if events != [] {
      NextValid(w, events[0]);
      if Picks(w, events[0]) {
        OlderShownSuffices(w, events[1..]);
      }
      hide Valid, Popped, PoppedSoon, BothPopped, Next, OlderShown, OlderAreMirrored;
      SeparatingIsInTurn(Next(w, events[0]), events[1..]);
    }
  }

  lemma SeparatingRunsPopInOrder(events: seq<Event>)
    requires FilesSeparate(NOTHING_QUEUED, events) && PicksSeeAll(NOTHING_QUEUED, events)
    ensures Ascending(Popped(NOTHING_QUEUED, events))
  {
    StartIsReady(events);
    SeparatingIsInTurn(NOTHING_QUEUED, events);
    PoppedInOrderIff(events);
  }

  // ---- Two enqueues and a pop --------------------------------------------------------------------------

  function TwoInserted(): World {
    World(State([0, 1], [], map[0 := 0, 1 := 1], {}, 0, 2), None)
  }

  function NewerPicked(): World {
    World(State([0, 1], [Entry(1, 1)], map[0 := 0], {}, 0, 2), Some(1))
  }

  function OlderWaiting(): World {
    World(State([0], [], map[0 := 0], {}, 0, 2), None)
  }

  function OlderPicked(): World {
    World(State([0], [Entry(0, 0)], map[], {}, 0, 2), Some(0))
  }

  lemma InsertTwo()
    ensures Next(Next(NOTHING_QUEUED, Store(InsertRow)), Store(InsertRow)) == TwoInserted()
  {
    assert [] + [0] == [0] && [0] + [1] == [0, 1];
  }

  lemma FileAndPickNewer()
    ensures Next(Next(TwoInserted(), Store(AddEntry(1))), PickHead) == NewerPicked()
  {
    assert InsertByKey([], EntryPosition, Entry(1, 1)) == [Entry(1, 1)];
    assert map[0 := 0, 1 := 1] - {1} == map[0 := 0];
    hide InsertByKey;
  }

  lemma PopNewer()
    ensures Next(Next(NewerPicked(), PopRow), Store(RemoveEntry(1))) == OlderWaiting()
  {
    var table: seq<Id> := [0, 1];
    var mirror := [Entry(1, 1)];
    assert IsId(1)(table[1]) && !IsId(1)(table[0]) && HasEntryId(1)(mirror[0]);
    assert FirstIndex(table, IsId(1)) == 1 && FirstIndex(mirror, HasEntryId(1)) == 0;
    assert Without(table, 1) == [0] && Renumber(Without(mirror, 0)) == [];
    hide FirstIndex, Without, Renumber;
    assert {} + {1} - {1} == {};
  }

  lemma FileAndPickOlder()
    ensures Next(Next(OlderWaiting(), Store(AddEntry(0))), PickHead) == OlderPicked()
  {
    assert InsertByKey([], EntryPosition, Entry(0, 0)) == [Entry(0, 0)];
    assert map[0 := 0] - {0} == map[];
    hide InsertByKey;
  }

  lemma TwoSteps(w: World, a: Event, b: Event, rest: seq<Event>)
    ensures
      var u := Next(w, a);
      var r := Next(u, b);
      && Popped(w, [a, b] + rest)
         == (if Pops(w, a) then [w.picked.value] else []) + ((if Pops(u, b) then [u.picked.value] else []) + Popped(r, rest))
      && ((Files(w, a) ==> w.store.mirror == []) && !Files(u, b) ==> (FilesSeparate(w, [a, b] + rest) <==> FilesSeparate(r, rest)))
  {
    var events := [a, b] + rest;
    assert events[1..][0] == b && events[1..][1..] == rest;
  }

  lemma PopOlder()
    ensures Popped(OlderPicked(), [PopRow]) == [0] && FilesSeparate(OlderPicked(), [PopRow])
  {
    assert [PopRow][1..] == [];
    assert 0 in OlderPicked().store.table;
    hide Next;
  }

  /**
   * A newer message filed and popped before the older one is filed: every entry separates,
   * the mirror is always in order, and yet the newer message goes first.
   */
  lemma OvertakenBeforeFiling()
    ensures
      var events := [Store(InsertRow), Store(InsertRow)] + ([Store(AddEntry(1)), PickHead]
        + ([PopRow, Store(RemoveEntry(1))] + ([Store(AddEntry(0)), PickHead] + [PopRow])));
      FilesSeparate(NOTHING_QUEUED, events) && Popped(NOTHING_QUEUED, events) == [1, 0]
  {
    InsertTwo();
    FileAndPickNewer();
    PopNewer();
    FileAndPickOlder();
    PopOlder();
    hide Popped, FilesSeparate, Next;
    TwoSteps(OlderWaiting(), Store(AddEntry(0)), PickHead, [PopRow]);
    var last := [Store(AddEntry(0)), PickHead] + [PopRow];
    TwoSteps(NewerPicked(), PopRow, Store(RemoveEntry(1)), last);
    var third := [PopRow, Store(RemoveEntry(1))] + last;
    TwoSteps(TwoInserted(), Store(AddEntry(1)), PickHead, third);
    TwoSteps(NOTHING_QUEUED, Store(InsertRow), Store(InsertRow), [Store(AddEntry(1)), PickHead] + third);
  }

  // ---- A pick is what the next pop pops ------------------------------------------------------

  function StoreStep(op: Op): Event {
    Store(op)
  }

  function After(w: World, ops: seq<Op>): World
    decreases ops
  {
    if ops == [] then w else After(Next(w, Store(ops[0])), ops[1..])
  }

  /**
   * The head read is what the next pop deletes, whatever steps of the store come in between,
   * short of a restart; if its row has gone meanwhile, nothing is popped.
   */
  lemma {:induction false} PickIsPopped(w: World, id: Id, ops: seq<Op>)
    requires w.picked == Some(id) && Restart !in ops
    ensures
      var r := After(w, ops);
      && Popped(w, Map(ops, StoreStep) + [PopRow]) == (if id in r.store.table then [id] else [])
      && Next(r, PopRow).picked.None?
    decreases ops
  {
    hide Step;
    if ops == [] {
      assert Map(ops, StoreStep) + [PopRow] == [PopRow];
      assert [PopRow][1..] == [];
    } else {
      var events := Map(ops, StoreStep) + [PopRow];
      assert events[0] == Store(ops[0]) && events[1..] == Map(ops[1..], StoreStep) + [PopRow];
      PickIsPopped(Next(w, Store(ops[0])), id, ops[1..]);
    }
  }

  /** A pop, a failure or a restart uses the pick up: nothing is popped until the head is read again. */
  lemma NothingPoppedUnpicked(w: World, e: Event, events: seq<Event>)
    requires e == PopRow || e == DropPick || e == Store(Restart)
    requires PickHead !in events
    ensures Popped(Next(w, e), events) == []
  {
    hide Step;
    UnpickedPopsNothing(Next(w, e), events);
  }

  lemma {:induction false} UnpickedPopsNothing(w: World, events: seq<Event>)
    requires w.picked.None? && PickHead !in events
    ensures Popped(w, events) == []
    decreases events
  {
    hide Step;
    if events != [] {
      assert events[0] != PickHead;
      UnpickedPopsNothing(Next(w, events[0]), events[1..]);
    }
  }

  lemma {:induction false} GoneIsNotPopped(w: World, id: Id, events: seq<Event>)
    requires id !in w.store.table && id < w.store.next
    ensures id !in Popped(w, events)
    decreases events
  {
    if events != [] {
      StaysGone(w, id, events[0]);
      hide Next;
      GoneIsNotPopped(Next(w, events[0]), id, events[1..]);
    }
  }

  lemma StaysGone(w: World, id: Id, e: Event)
    requires id !in w.store.table && id < w.store.next
    ensures id !in Next(w, e).store.table && id < Next(w, e).store.next
    ensures Pops(w, e) ==> w.picked.value != id
  {
  }

  /** Once the rows are cleared, no message inserted before is popped, picked already or not. */
  lemma ClearedIsNotPopped(w: World, id: Id, events: seq<Event>)
    requires id < w.store.next
    ensures id !in Popped(Next(w, Store(ClearRows)), events)
  {
    GoneIsNotPopped(Next(w, Store(ClearRows)), id, events);
  }
}
