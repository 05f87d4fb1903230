// src/core/pending_store.py: queue positions when enqueues and deletions overlap.
module PendingOrder {
  // An enqueue reads its position in one transaction and files its mirror entry later; a
  // deletion renumbers the rows first and the mirror later; a clear deletes the rows first
  // and empties the mirror later. A restart loses what is under way and reloads the mirror.

  import opened Collections
  import opened SessionState

  /** A message is named by its place in the order of row insertions. */
  type Id = nat

  datatype Entry = Entry(id: Id, position: nat)

  /**
   * `table` lists the rows by position, which are dense; `adding` are rows not mirrored
   * yet, with the position read at insertion; `removing` are deleted rows whose entry is
   * still to be removed; `clearing` counts the clears that have only deleted the rows.
   */
  datatype State = State(table: seq<Id>, mirror: seq<Entry>, adding: map<Id, nat>, removing: set<Id>,
                         clearing: nat, next: Id)

  const EMPTY_TABLE := State([], [], map[], {}, 0, 0)

  datatype Op =
    | InsertRow
    | AddEntry(id: Id)
    | DeleteRow(id: Id)
    | RemoveEntry(id: Id)
    | ClearRows
    | EmptyMirror
    | Restart

  function EntryPosition(e: Entry): int {
    e.position
  }

  function HasEntryId(id: Id): Entry -> bool {
    (e: Entry) => e.id == id
  }

  function IsId(id: Id): Id -> bool {
    (x: Id) => x == id
  }

  function Renumber(mirror: seq<Entry>): (r: seq<Entry>)
    ensures |r| == |mirror| && forall i :: 0 <= i < |mirror| ==> r[i] == Entry(mirror[i].id, i)
  {
    seq(|mirror|, i requires 0 <= i < |mirror| => Entry(mirror[i].id, i))
  }

  /** The rows as reloading mirrors them. */
  function Listing(table: seq<Id>): (r: seq<Entry>)
    ensures |r| == |table| && forall i :: 0 <= i < |table| ==> r[i] == Entry(table[i], i)
  {
    seq(|table|, i requires 0 <= i < |table| => Entry(table[i], i))
  }

  function Step(s: State, op: Op): State {
    match op
    case InsertRow => s.(table := s.table + [s.next], adding := s.adding[s.next := |s.table|], next := s.next + 1)
    case AddEntry(id) =>
      if id !in s.adding then s
      else s.(mirror := InsertByKey(s.mirror, EntryPosition, Entry(id, s.adding[id])), adding := s.adding - {id})
    case DeleteRow(id) =>
      var i := FirstIndex(s.table, IsId(id));
      if i == |s.table| then s else s.(table := Without(s.table, i), removing := s.removing + {id})
    case RemoveEntry(id) =>
      var i := FirstIndex(s.mirror, HasEntryId(id));
      if id !in s.removing then s
      else s.(mirror := if i == |s.mirror| then s.mirror else Renumber(Without(s.mirror, i)), removing := s.removing - {id})
    case ClearRows => s.(table := [], clearing := s.clearing + 1)
    case EmptyMirror => if s.clearing == 0 then s else s.(mirror := [], clearing := s.clearing - 1)
    case Restart => s.(mirror := Listing(s.table), adding := map[], removing := {}, clearing := 0)
  }

  function Run(s: State, ops: seq<Op>): State
    decreases ops
  {
    if ops == [] then s else Run(Step(s, ops[0]), ops[1..])
  }

  // ---- What is under way --------------------------------------------------------------------

  /** The second halves: filing an entry, taking one out, emptying the mirror. */
  predicate Completes(op: Op) {
    op.AddEntry? || op.RemoveEntry? || op.EmptyMirror?
  }

  /** A restart forgets what was under way: nothing begun before it is completed after it. */
  lemma {:induction false} RestartForgets(s: State, ops: seq<Op>)
    requires forall i :: 0 <= i < |ops| ==> Completes(ops[i])
    ensures Run(Step(s, Restart), ops) == Step(s, Restart)
    decreases ops
  {
    if ops != [] {
      assert Completes(ops[0]);
      assert Step(Step(s, Restart), ops[0]) == Step(s, Restart);
      hide Step;
      RestartForgets(s, ops[1..]);
    }
  }

  /** How often the mirror is emptied along a run, and how often the rows are cleared. */
  function Emptyings(s: State, ops: seq<Op>): nat
    decreases ops
  {
    if ops == [] then 0
    else (if ops[0].EmptyMirror? && Step(s, ops[0]) != s then 1 else 0) + Emptyings(Step(s, ops[0]), ops[1..])
  }

  function Clearings(ops: seq<Op>): nat {
    if ops == [] then 0 else (if ops[0].ClearRows? then 1 else 0) + Clearings(ops[1..])
  }

  /** Each clear empties the mirror at most once. */
  lemma {:induction false} OneEmptyingPerClear(s: State, ops: seq<Op>)
    ensures Emptyings(s, ops) + Run(s, ops).clearing <= s.clearing + Clearings(ops)
    decreases ops
  {
    if ops != [] {
      OneEmptyingPerClear(Step(s, ops[0]), ops[1..]);
    }
  }

  // ---- First in, first out ------------------------------------------------------------------

  ghost predicate Ascending(ids: seq<Id>) {
    forall i, j :: 0 <= i < j < |ids| ==> ids[i] < ids[j]
  }

  function IdOf(e: Entry): Id {
    e.id
  }

  /** The mirror lists its messages in the order of their rows; what is popped is in PendingDelivery. */
  ghost predicate InOrder(mirror: seq<Entry>) {
    Ascending(Map(mirror, IdOf))
  }

  lemma InsertAscendingIff(ids: seq<Id>, i: nat, id: Id)
    requires Ascending(ids) && i <= |ids| && id !in ids
    ensures Ascending(ids[..i] + [id] + ids[i..]) <==> forall k :: 0 <= k < |ids| ==> (k < i <==> ids[k] < id)
  {
    var after := ids[..i] + [id] + ids[i..];
    assert forall k :: 0 <= k < |after| ==> after[k] == if k < i then ids[k] else if k == i then id else ids[k - 1];
    if Ascending(after) {
      forall k | 0 <= k < |ids|
        ensures k < i <==> ids[k] < id
      {
        assert k < i ==> after[k] < after[i];
        assert k >= i ==> after[i] < after[k + 1];
      }
    }
  }

  /** Insertion goes after the equal and smaller positions. */
  lemma InsertionSplits(mirror: seq<Entry>, e: Entry) returns (i: nat)
    requires SortedByKey(mirror, EntryPosition)
    ensures i <= |mirror| && forall k :: 0 <= k < |mirror| ==> (k < i <==> mirror[k].position <= e.position)
    ensures Map(InsertByKey(mirror, EntryPosition, e), IdOf) == Map(mirror, IdOf)[..i] + [e.id] + Map(mirror, IdOf)[i..]
  {
    i := InsertionIndex(mirror, EntryPosition, e.position);
    assert i < |mirror| ==> forall k :: i <= k < |mirror| ==> EntryPosition(mirror[i]) <= EntryPosition(mirror[k]);
    assert InsertByKey(mirror, EntryPosition, e) == mirror[..i] + [e] + mirror[i..];
    hide InsertionIndex, InsertByKey, SortedByKey;
    IdsAroundInsertion(mirror, i, e);
  }

  lemma IdsAroundInsertion(mirror: seq<Entry>, i: nat, e: Entry)
    requires i <= |mirror|
    ensures Map(mirror[..i] + [e] + mirror[i..], IdOf) == Map(mirror, IdOf)[..i] + [e.id] + Map(mirror, IdOf)[i..]
  {
  }

  /**
   * Filing an entry keeps the order exactly when its position separates the older
   * mirrored messages from the newer ones.
   */
  lemma AddKeepsOrderIff(mirror: seq<Entry>, e: Entry)
    requires InOrder(mirror) && SortedByKey(mirror, EntryPosition) && e.id !in Map(mirror, IdOf)
    ensures InOrder(InsertByKey(mirror, EntryPosition, e)) <==>
      forall k :: 0 <= k < |mirror| ==> (mirror[k].position <= e.position <==> mirror[k].id < e.id)
  {
    var i := InsertionSplits(mirror, e);
    InsertAscendingIff(Map(mirror, IdOf), i, e.id);
    assert forall k :: 0 <= k < |mirror| ==> Map(mirror, IdOf)[k] == mirror[k].id;
    hide InsertByKey, SortedByKey, Ascending, Map;
  }

  // ---- Every run ------------------------------------------------------------------------------

  /** The entry's position separates the older mirrored messages from the newer ones. */
  ghost predicate Separates(mirror: seq<Entry>, e: Entry) {
    forall k :: 0 <= k < |mirror| ==> (mirror[k].position <= e.position <==> mirror[k].id < e.id)
  }

  /** The mirror is in order now and after every step. */
  ghost predicate AlwaysInOrder(s: State, ops: seq<Op>)
    decreases ops
  {
    InOrder(s.mirror) && (ops == [] || AlwaysInOrder(Step(s, ops[0]), ops[1..]))
  }

  /** Every entry filed along the run separates the mirror it is filed into. */
  ghost predicate AlwaysSeparates(s: State, ops: seq<Op>)
    decreases ops
  {
    ops == [] ||
    (&& (ops[0].AddEntry? && ops[0].id in s.adding ==> Separates(s.mirror, Entry(ops[0].id, s.adding[ops[0].id])))
     && AlwaysSeparates(Step(s, ops[0]), ops[1..]))
  }

  ghost predicate Below(ids: set<Id>, next: Id) {
    forall id :: id in ids ==> id < next
  }

  /** Ids are given once, and the mirror is sorted by position, whatever the positions are worth. */
  ghost predicate Sound(s: State) {
    && SortedByKey(s.mirror, EntryPosition)
    && Ascending(s.table)
    && Below(Rows(s.table), s.next) && Below(s.adding.Keys, s.next) && Below(Shown(s.mirror), s.next)
    && s.adding.Keys !! Shown(s.mirror)
    && s.removing !! Rows(s.table) && Below(s.removing, s.next)
  }

  lemma ListingInOrder(table: seq<Id>)
    requires Ascending(table)
    ensures InOrder(Listing(table)) && SortedByKey(Listing(table), EntryPosition)
    ensures Shown(Listing(table)) == Rows(table) && AllAccurate(table, Listing(table))
  {
    assert Map(Listing(table), IdOf) == table;
    ShownIsRows(Listing(table));
  }

  lemma InRows(ids: seq<Id>, id: Id)
    ensures id in Rows(ids) <==> id in ids
  {
  }

  lemma AddSound(s: State, id: Id)
    requires Sound(s) && id in s.adding
    ensures Sound(Step(s, AddEntry(id)))
    ensures InOrder(s.mirror) ==> (InOrder(Step(s, AddEntry(id)).mirror) <==> Separates(s.mirror, Entry(id, s.adding[id])))
  {
    hide InsertByKey, InOrder, SortedByKey, Rows, Shown, Map, Ascending;
    var e := Entry(id, s.adding[id]);
    ShownIsRows(s.mirror);
    assert e.id in Shown(s.mirror) <==> e.id in Map(s.mirror, IdOf) by { InRows(Map(s.mirror, IdOf), e.id); }
    InsertKeepsOrder(s.mirror, EntryPosition, e);
    InsertEntry(s.mirror, e, s.table);
    if InOrder(s.mirror) {
      assert e.id !in Map(s.mirror, IdOf);
      AddKeepsOrderIff(s.mirror, e);
    }
  }

  lemma RemoveSound(s: State, id: Id)
    requires Sound(s)
    ensures Sound(Step(s, RemoveEntry(id)))
    ensures InOrder(s.mirror) ==> InOrder(Step(s, RemoveEntry(id)).mirror)
  {
    var i := FirstIndex(s.mirror, HasEntryId(id));
    if i < |s.mirror| {
      RenumberingForgets(s.mirror, i);
      hide Ascending, InOrder, SortedByKey, Rows, Shown, FirstIndex, Without, Renumber;
    }
  }

  lemma RenumberingForgets(mirror: seq<Entry>, i: nat)
    requires i < |mirror|
    ensures
      var after := Renumber(Without(mirror, i));
      && SortedByKey(after, EntryPosition) && Shown(after) <= Shown(mirror)
      && (InOrder(mirror) ==> InOrder(after))
  {
    var after, ids := Renumber(Without(mirror, i)), Map(mirror, IdOf);
    assert Map(after, IdOf) == Without(ids, i);
    assert forall k :: 0 <= k < |after| ==> after[k].id == mirror[if k < i then k else k + 1].id;
    if InOrder(mirror) {
      AscendingWithout(ids, i);
    }
  }

  lemma DeleteSound(s: State, id: Id)
    requires Sound(s)
    ensures Sound(Step(s, DeleteRow(id))) && Step(s, DeleteRow(id)).mirror == s.mirror
  {
    var i := FirstIndex(s.table, IsId(id));
    if i < |s.table| {
      assert s.table[i] == id && id in Rows(s.table);
      AscendingWithout(s.table, i);
      hide Ascending, SortedByKey, Rows, Shown, FirstIndex, Without;
    }
  }

  lemma InsertSound(s: State)
    requires Sound(s)
    ensures Sound(Step(s, InsertRow)) && Step(s, InsertRow).mirror == s.mirror
  {
    AppendRow(s.table, s.mirror, s.adding, s.next);
    hide Ascending, SortedByKey, Rows, Shown;
    assert s.adding[s.next := |s.table|].Keys == s.adding.Keys + {s.next};
  }

  /** Only filing an entry can break the order, and it does exactly when it does not separate. */
  lemma StepSound(s: State, op: Op)
    requires Sound(s)
    ensures Sound(Step(s, op))
    ensures InOrder(s.mirror) ==>
      (InOrder(Step(s, op).mirror) <==>
        (op.AddEntry? && op.id in s.adding ==> Separates(s.mirror, Entry(op.id, s.adding[op.id]))))
  {
    match op
    case InsertRow => InsertSound(s);
    case AddEntry(id) =>
      if id in s.adding {
        AddSound(s, id);
      }
    case DeleteRow(id) => DeleteSound(s, id);
    case RemoveEntry(id) => RemoveSound(s, id);
    case ClearRows =>
    case EmptyMirror =>
    case Restart => ListingInOrder(s.table);
  }

  lemma {:induction false} OrderIff(s: State, ops: seq<Op>)
    requires Sound(s) && InOrder(s.mirror)
    ensures AlwaysInOrder(s, ops) <==> AlwaysSeparates(s, ops)
    decreases ops
  {
    if ops != [] {
      StepSound(s, ops[0]);
      hide Sound, InOrder, Separates, Step;
      if InOrder(Step(s, ops[0]).mirror) {
        OrderIff(Step(s, ops[0]), ops[1..]);
      }
    }
  }

  lemma {:induction false} RunSound(s: State, ops: seq<Op>)
    requires Sound(s)
    ensures Sound(Run(s, ops))
    decreases ops
  {
    if ops != [] {
      StepSound(s, ops[0]);
      RunSound(Step(s, ops[0]), ops[1..]);
    }
  }

  /**
   * In every run of enqueues, deletions, clears and restarts, however they overlap: the
   * mirror is sorted by position, and it is in the order of row insertion at every point
   * of the run exactly if every entry filed on the way separated the older mirrored
   * messages from the newer ones.
   */
  lemma OrderKeptIff(ops: seq<Op>)
    ensures SortedByKey(Run(EMPTY_TABLE, ops).mirror, EntryPosition)
    ensures AlwaysInOrder(EMPTY_TABLE, ops) <==> AlwaysSeparates(EMPTY_TABLE, ops)
  {
    RunSound(EMPTY_TABLE, ops);
    OrderIff(EMPTY_TABLE, ops);
  }

  // ---- Positions and deletions ------------------------------------------------------------------

  /** The rows that were inserted and are gone. */
  function Deleted(s: State): int {
    s.next - |s.table|
  }

  lemma {:induction false} PositionStays(s: State, ops: seq<Op>, id: Id)
    requires id < s.next && id in Run(s, ops).adding
    ensures id in s.adding && Run(s, ops).adding[id] == s.adding[id]
    decreases ops
  {
    if ops != [] {
      PositionStays(Step(s, ops[0]), ops[1..], id);
    }
  }

  lemma {:induction false} NextGrows(s: State, ops: seq<Op>)
    ensures s.next <= Run(s, ops).next
    decreases ops
  {
    if ops != [] {
      NextGrows(Step(s, ops[0]), ops[1..]);
    }
  }

  /** `f` is mirrored somewhere in front of `g`. */
  ghost predicate FrontOf(mirror: seq<Entry>, f: Id, g: Id) {
    exists i, j :: 0 <= i < j < |mirror| && mirror[i].id == f && mirror[j].id == g
  }

  lemma SliceShape(mirror: seq<Entry>, i: nat, e: Entry)
    requires i <= |mirror|
    ensures
      var after := mirror[..i] + [e] + mirror[i..];
      && |after| == |mirror| + 1 && after[i] == e
      && (forall n :: 0 <= n < i ==> after[n] == mirror[n]) && (forall n :: i < n < |after| ==> after[n] == mirror[n - 1])
  {
  }

  lemma InsertedShape(mirror: seq<Entry>, e: Entry) returns (i: nat)
    requires SortedByKey(mirror, EntryPosition)
    ensures i <= |mirror| && forall k :: 0 <= k < |mirror| ==> (k < i <==> mirror[k].position <= e.position)
    ensures
      var after := InsertByKey(mirror, EntryPosition, e);
      && |after| == |mirror| + 1 && after[i] == e
      && (forall n :: 0 <= n < i ==> after[n] == mirror[n]) && (forall n :: i < n < |after| ==> after[n] == mirror[n - 1])
  {
    i := InsertionIndex(mirror, EntryPosition, e.position);
    hide InsertionIndex;
    assert i < |mirror| ==> forall k :: i <= k < |mirror| ==> EntryPosition(mirror[i]) <= EntryPosition(mirror[k]);
    hide SortedByKey;
    assert InsertByKey(mirror, EntryPosition, e) == mirror[..i] + [e] + mirror[i..];
    hide InsertByKey;
    SliceShape(mirror, i, e);
  }

  /** A filed entry goes behind the positions up to its own and in front of the others. */
  lemma FiledFront(mirror: seq<Entry>, e: Entry, k: nat)
    requires SortedByKey(mirror, EntryPosition) && k < |mirror|
    ensures
      var after := InsertByKey(mirror, EntryPosition, e);
      if mirror[k].position <= e.position then FrontOf(after, mirror[k].id, e.id) else FrontOf(after, e.id, mirror[k].id)
  {
    hide InsertByKey, SortedByKey;
    var i := InsertedShape(mirror, e);
    var after := InsertByKey(mirror, EntryPosition, e);
    assert if k < i then after[k] == mirror[k] else after[k + 1] == mirror[k];
  }

  /** Apart from that, filing changes no order. */
  lemma FiledOnly(mirror: seq<Entry>, e: Entry, f: Id, g: Id)
    requires SortedByKey(mirror, EntryPosition) && FrontOf(InsertByKey(mirror, EntryPosition, e), f, g)
    ensures
      || FrontOf(mirror, f, g)
      || (f == e.id && exists k :: 0 <= k < |mirror| && mirror[k].id == g && mirror[k].position > e.position)
      || (g == e.id && exists k :: 0 <= k < |mirror| && mirror[k].id == f && mirror[k].position <= e.position)
  {
    hide InsertByKey, SortedByKey;
    var i := InsertedShape(mirror, e);
    var after := InsertByKey(mirror, EntryPosition, e);
    var x, y :| 0 <= x < y < |after| && after[x].id == f && after[y].id == g;
    if x == i {
      assert mirror[y - 1].id == g;
    } else if y == i {
      assert mirror[x].id == f;
    } else {
      var u, v := if x < i then x else x - 1, if y < i then y else y - 1;
      assert mirror[u].id == f && mirror[v].id == g;
    }
  }

  lemma FiledOnce(mirror: seq<Entry>, e: Entry) returns (i: nat)
    requires SortedByKey(mirror, EntryPosition) && e.id !in Shown(mirror)
    ensures
      var after := InsertByKey(mirror, EntryPosition, e);
      && i < |after| && after[i] == e && SortedByKey(after, EntryPosition)
      && forall n :: 0 <= n < |after| && n != i ==> after[n].id != e.id && after[n].id in Shown(mirror)
  {
    InsertKeepsOrder(mirror, EntryPosition, e);
    assert forall n :: 0 <= n < |mirror| ==> mirror[n].id in Shown(mirror);
    hide InsertByKey, SortedByKey, Shown;
    i := InsertedShape(mirror, e);
  }

  /** Filing `b` and right after it `a` puts `a` in front exactly if its position is smaller. */
  lemma FiledInTurn(mirror: seq<Entry>, a: Entry, b: Entry)
    requires SortedByKey(mirror, EntryPosition) && a.id != b.id && {a.id, b.id} !! Shown(mirror)
    ensures
      FrontOf(InsertByKey(InsertByKey(mirror, EntryPosition, b), EntryPosition, a), a.id, b.id) <==> a.position < b.position
  {
    hide InsertByKey, SortedByKey, Shown, FrontOf;
    var one := InsertByKey(mirror, EntryPosition, b);
    var i := FiledOnce(mirror, b);
    FiledFront(one, a, i);
    if FrontOf(InsertByKey(one, EntryPosition, a), a.id, b.id) {
      FiledOnly(one, a, a.id, b.id);
      NotMirroredInFront(one, a.id, b.id);
    }
  }

  lemma NotMirroredInFront(mirror: seq<Entry>, f: Id, g: Id)
    requires forall n :: 0 <= n < |mirror| ==> mirror[n].id != f
    ensures !FrontOf(mirror, f, g)
  {
  }

  /**
   * Two enqueues under way, `a` and then `b`, of which `b` is filed first and `a` right
   * after it: `a` goes in front of `b` exactly if fewer rows were deleted between their
   * insertions than were inserted, `a` included. Otherwise the newer message is in front.
   */
  lemma FiledInReverseIff(before: seq<Op>, between: seq<Op>, after: seq<Op>)
    requires
      var s := Run(EMPTY_TABLE, before);
      var second := Run(Step(s, InsertRow), between);
      var t := Run(Step(second, InsertRow), after);
      s.next in t.adding && second.next in t.adding
    ensures
      var s := Run(EMPTY_TABLE, before);
      var second := Run(Step(s, InsertRow), between);
      var t := Run(Step(second, InsertRow), after);
      var a, b := s.next, second.next;
      && t.adding[a] == |s.table| && t.adding[b] == |second.table|
      && (FrontOf(Step(Step(t, AddEntry(b)), AddEntry(a)).mirror, a, b) <==> Deleted(second) - Deleted(s) < b - a)
  {
    var s := Run(EMPTY_TABLE, before);
    var first := Step(s, InsertRow);
    var second := Run(first, between);
    var third := Step(second, InsertRow);
    var t := Run(third, after);
    var a, b := s.next, second.next;
    NextGrows(first, between);
    PositionStays(third, after, a);
    PositionStays(third, after, b);
    assert a in second.adding && third.adding[a] == second.adding[a];
    PositionStays(first, between, a);
    assert first.adding[a] == |s.table| && third.adding[b] == |second.table|;
    RunSound(EMPTY_TABLE, before);
    StepSound(s, InsertRow);
    RunSound(first, between);
    StepSound(second, InsertRow);
    RunSound(third, after);
    hide Run;
    assert Step(Step(t, AddEntry(b)), AddEntry(a)).mirror ==
      InsertByKey(InsertByKey(t.mirror, EntryPosition, Entry(b, t.adding[b])), EntryPosition, Entry(a, t.adding[a]));
    FiledInTurn(t.mirror, Entry(a, t.adding[a]), Entry(b, t.adding[b]));
    hide Step, FrontOf, InsertByKey;
  }

  // ---- Runs in which enqueues and deletions do not overlap -------------------------------------

  /** A row is inserted only with no deletion or clear under way, and deleted only with no enqueue under way. */
  predicate Apart(s: State, ops: seq<Op>)
    decreases ops
  {
    if ops == [] then true
    else
      && (ops[0].InsertRow? ==> s.removing == {} && s.clearing == 0)
      && (ops[0].DeleteRow? || ops[0].ClearRows? ==> s.adding == map[])
      && Apart(Step(s, ops[0]), ops[1..])
  }

  /** The entry's position is its row's. */
  predicate Accurate(table: seq<Id>, e: Entry) {
    e.position < |table| && table[e.position] == e.id
  }

  ghost predicate AllAccurate(table: seq<Id>, mirror: seq<Entry>) {
    forall k :: 0 <= k < |mirror| ==> Accurate(table, mirror[k])
  }

  ghost predicate AddingAccurate(table: seq<Id>, adding: map<Id, nat>) {
    forall id :: id in adding ==> Accurate(table, Entry(id, adding[id]))
  }

  function Rows(table: seq<Id>): set<Id> {
    set x | x in table
  }

  function Shown(mirror: seq<Entry>): set<Id> {
    set k | 0 <= k < |mirror| :: mirror[k].id
  }

  /** Every row is being added or mirrored; what is mirrored beyond that is being removed or cleared. */
  ghost predicate Membership(rows: set<Id>, adding: set<Id>, shown: set<Id>, removing: set<Id>, clearing: nat) {
    && removing !! rows && adding !! shown
    && if clearing == 0 then rows == adding + (shown - removing) else rows == {} && adding == {}
  }

  ghost predicate Inv(s: State) {
    && Ascending(s.table)
    && (forall id :: id in Rows(s.table) ==> id < s.next)
    && InOrder(s.mirror) && SortedByKey(s.mirror, EntryPosition)
    && (s.adding != map[] ==> s.removing == {})
    && (s.clearing == 0 && s.removing !! Shown(s.mirror) ==> AllAccurate(s.table, s.mirror))
    && AddingAccurate(s.table, s.adding)
    && Membership(Rows(s.table), s.adding.Keys, Shown(s.mirror), s.removing, s.clearing)
  }

  lemma AppendRow(table: seq<Id>, mirror: seq<Entry>, adding: map<Id, nat>, id: Id)
    requires Ascending(table) && forall x :: x in Rows(table) ==> x < id
    ensures Ascending(table + [id]) && Rows(table + [id]) == Rows(table) + {id}
    ensures AllAccurate(table, mirror) ==> AllAccurate(table + [id], mirror)
    ensures AddingAccurate(table, adding) ==> AddingAccurate(table + [id], adding[id := |table|])
  {
    assert forall k :: 0 <= k < |table| ==> table[k] in Rows(table);
  }

  lemma InsertKeepsInv(s: State)
    requires Inv(s) && s.removing == {} && s.clearing == 0
    ensures Inv(Step(s, InsertRow))
  {
    AppendRow(s.table, s.mirror, s.adding, s.next);
    hide Ascending, InOrder, SortedByKey, AllAccurate, AddingAccurate, Rows, Shown;
    assert s.next !in Shown(s.mirror);
    assert s.adding[s.next := |s.table|].Keys == s.adding.Keys + {s.next};
  }

  lemma InsertEntry(mirror: seq<Entry>, e: Entry, table: seq<Id>)
    requires SortedByKey(mirror, EntryPosition)
    ensures Shown(InsertByKey(mirror, EntryPosition, e)) == Shown(mirror) + {e.id}
    ensures AllAccurate(table, mirror) && Accurate(table, e) ==> AllAccurate(table, InsertByKey(mirror, EntryPosition, e))
  {
    hide InsertByKey, SortedByKey, Accurate;
    var i := InsertedShape(mirror, e);
    var after := InsertByKey(mirror, EntryPosition, e);
    forall id | id in Shown(mirror) + {e.id}
      ensures id in Shown(after)
    {
      if id == e.id {
        assert after[i].id == id;
      } else {
        var k :| 0 <= k < |mirror| && mirror[k].id == id;
        assert after[if k < i then k else k + 1].id == id;
      }
    }
  }

  lemma PositionsSeparate(table: seq<Id>, mirror: seq<Entry>, e: Entry)
    requires Ascending(table) && AllAccurate(table, mirror) && Accurate(table, e) && e.id !in Shown(mirror)
    ensures forall k :: 0 <= k < |mirror| ==> (mirror[k].position <= e.position <==> mirror[k].id < e.id)
    ensures e.id !in Map(mirror, IdOf)
  {
    forall k | 0 <= k < |mirror|
      ensures mirror[k].position <= e.position <==> mirror[k].id < e.id
      ensures mirror[k].id != e.id
    {
      assert mirror[k].id in Shown(mirror);
      assert Accurate(table, mirror[k]);
    }
  }

  lemma AddKeepsInv(s: State, id: Id)
    requires Inv(s) && id in s.adding
    ensures Inv(Step(s, AddEntry(id)))
  {
    var e := Entry(id, s.adding[id]);
    assert AddingAccurate(s.table, s.adding - {id});
    hide InsertByKey, InOrder, SortedByKey, Rows, Shown, Map;
    PositionsSeparate(s.table, s.mirror, e);
    AddKeepsOrderIff(s.mirror, e);
    InsertKeepsOrder(s.mirror, EntryPosition, e);
    InsertEntry(s.mirror, e, s.table);
    hide Ascending, AllAccurate, AddingAccurate, Accurate;
    assert (s.adding - {id}).Keys == s.adding.Keys - {id};
    assert s.removing == {} && s.clearing == 0;
  }

  lemma AscendingWithout(ids: seq<Id>, i: nat)
    requires Ascending(ids) && i < |ids|
    ensures Ascending(Without(ids, i))
    ensures Rows(Without(ids, i)) == Rows(ids) - {ids[i]}
  {
    var rest := Without(ids, i);
    assert forall k :: 0 <= k < |rest| ==> rest[k] == ids[if k < i then k else k + 1];
    forall x | x in ids && x != ids[i]
      ensures x in rest
    {
      var k :| 0 <= k < |ids| && ids[k] == x;
      assert rest[if k < i then k else k - 1] == x;
    }
  }

  lemma DeleteKeepsInv(s: State, id: Id)
    requires Inv(s) && s.adding == map[] && id in s.table
    ensures Inv(Step(s, DeleteRow(id)))
  {
    var i := FirstIndex(s.table, IsId(id));
    assert i < |s.table| by {
      var k :| 0 <= k < |s.table| && s.table[k] == id;
      assert IsId(id)(s.table[k]);
    }
    assert s.table[i] == id && id in Rows(s.table);
    AscendingWithout(s.table, i);
    hide Ascending, InOrder, SortedByKey, AllAccurate, Rows, Shown, FirstIndex, Without;
  }

  lemma HeadIsLeast(ids: seq<Id>)
    requires Ascending(ids) && ids != []
    ensures ids[0] in Rows(ids) && forall x :: x in Rows(ids) ==> ids[0] <= x
    ensures Ascending(ids[1..]) && Rows(ids[1..]) == Rows(ids) - {ids[0]}
  {
    AscendingWithout(ids, 0);
    assert Without(ids, 0) == ids[1..];
  }

  lemma {:induction false} AscendingSameElements(a: seq<Id>, b: seq<Id>)
    requires Ascending(a) && Ascending(b) && Rows(a) == Rows(b)
    ensures a == b
    decreases |a|
  {
    EmptyRows(a);
    EmptyRows(b);
    if a != [] {
      HeadIsLeast(a);
      HeadIsLeast(b);
      hide Ascending, Rows;
      AscendingSameElements(a[1..], b[1..]);
      assert a == [a[0]] + a[1..] && b == [b[0]] + b[1..];
    }
  }

  lemma EmptyRows(ids: seq<Id>)
    ensures Rows(ids) == {} <==> ids == []
  {
    assert ids != [] ==> ids[0] in Rows(ids);
  }

  lemma ShownIsRows(mirror: seq<Entry>)
    ensures Shown(mirror) == Rows(Map(mirror, IdOf))
  {
    assert forall k :: 0 <= k < |mirror| ==> Map(mirror, IdOf)[k] == mirror[k].id;
  }

  /** Removing an entry renumbers the rest: positions count from 0. */
  lemma RenumberedEntries(mirror: seq<Entry>, i: nat, table: seq<Id>)
    requires i < |mirror| && InOrder(mirror) && Ascending(table)
    ensures
      var after := Renumber(Without(mirror, i));
      && InOrder(after) && SortedByKey(after, EntryPosition)
      && Shown(after) == Shown(mirror) - {mirror[i].id}
      && (Rows(table) == Shown(after) ==> AllAccurate(table, after))
  {
    var after, ids := Renumber(Without(mirror, i)), Map(mirror, IdOf);
    assert Map(after, IdOf) == Without(ids, i);
    AscendingWithout(ids, i);
    ShownIsRows(mirror);
    ShownIsRows(after);
    if Rows(table) == Shown(after) {
      AscendingSameElements(table, Map(after, IdOf));
    }
  }

  lemma RemoveKeepsInv(s: State, id: Id)
    requires Inv(s) && id in s.removing
    ensures Inv(Step(s, RemoveEntry(id)))
  {
    var i := FirstIndex(s.mirror, HasEntryId(id));
    hide Ascending, InOrder, SortedByKey, AllAccurate, AddingAccurate, Rows, Shown, FirstIndex, Without, Renumber;
    if i < |s.mirror| {
      assert s.mirror[i].id == id;
      RenumberedEntries(s.mirror, i, s.table);
    } else {
      NotShown(s.mirror, id);
    }
  }

  lemma NotShown(mirror: seq<Entry>, id: Id)
    requires FirstIndex(mirror, HasEntryId(id)) == |mirror|
    ensures id !in Shown(mirror)
  {
    forall k | 0 <= k < |mirror|
      ensures mirror[k].id != id
    {
      assert !HasEntryId(id)(mirror[k]);
    }
  }

  lemma RestartKeepsInv(s: State)
    requires Inv(s)
    ensures Inv(Step(s, Restart))
  {
    var none: map<Id, nat> := map[];
    assert AddingAccurate(s.table, none) && none.Keys == {};
    hide Ascending, InOrder, SortedByKey, AllAccurate, AddingAccurate, Rows, Shown, Listing;
    ListingInOrder(s.table);
  }

  lemma ClearKeepsInv(s: State, op: Op)
    requires Inv(s) && s.adding == map[] && (op.ClearRows? || op.EmptyMirror?)
    ensures Inv(Step(s, op))
  {
    assert Rows([]) == {} && Shown([]) == {};
    hide Rows, Shown;
  }

  lemma StepKeepsInv(s: State, op: Op)
    requires Inv(s) && (op.InsertRow? ==> s.removing == {} && s.clearing == 0)
    requires op.DeleteRow? || op.ClearRows? ==> s.adding == map[]
    ensures Inv(Step(s, op))
  {
    match op
    case InsertRow => InsertKeepsInv(s);
    case AddEntry(id) =>
      if id in s.adding {
        AddKeepsInv(s, id);
      }
    case DeleteRow(id) =>
      if id in s.table {
        DeleteKeepsInv(s, id);
      }
    case RemoveEntry(id) =>
      if id in s.removing {
        RemoveKeepsInv(s, id);
      }
    case ClearRows => ClearKeepsInv(s, op);
    case EmptyMirror =>
      if s.clearing > 0 {
        ClearKeepsInv(s, op);
      }
    case Restart => RestartKeepsInv(s);
  }

  lemma {:induction false} RunKeepsInv(s: State, ops: seq<Op>)
    requires Inv(s) && Apart(s, ops)
    ensures Inv(Run(s, ops))
    decreases ops
  {
    if ops != [] {
      StepKeepsInv(s, ops[0]);
      RunKeepsInv(Step(s, ops[0]), ops[1..]);
    }
  }

  /**
   * While enqueues do not overlap deletions and clears, though each may overlap its own
   * kind, the mirror stays in the order of the rows, and once nothing is under way it lists exactly
   * the rows, each at its row's position.
   */
  lemma ApartKeepsOrder(ops: seq<Op>)
    requires Apart(EMPTY_TABLE, ops)
    ensures
      var s := Run(EMPTY_TABLE, ops);
      && InOrder(s.mirror)
      && (s.adding == map[] && s.removing == {} && s.clearing == 0 ==>
            Map(s.mirror, IdOf) == s.table && forall k :: 0 <= k < |s.mirror| ==> s.mirror[k].position == k)
  {
    RunKeepsInv(EMPTY_TABLE, ops);
    var s := Run(EMPTY_TABLE, ops);
    hide Run;
    if s.adding == map[] && s.removing == {} && s.clearing == 0 {
      ShownIsRows(s.mirror);
      AscendingSameElements(Map(s.mirror, IdOf), s.table);
      forall k | 0 <= k < |s.mirror|
        ensures s.mirror[k].position == k
      {
        assert Accurate(s.table, s.mirror[k]) && s.table[k] == Map(s.mirror, IdOf)[k] == s.mirror[k].id;
        SamePlace(s.table, s.mirror[k].position, k);
      }
    }
  }

  lemma SamePlace(ids: seq<Id>, i: nat, j: nat)
    requires Ascending(ids) && i < |ids| && j < |ids| && ids[i] == ids[j]
    ensures i == j
  {
  }

  // ---- Runs in which they do ---------------------------------------------------------------------

  const ONE_FILED := State([0], [Entry(0, 0)], map[], {}, 0, 1)
  const ROW_DELETED := State([1], [Entry(0, 0)], map[1 := 1], {0}, 0, 2)
  const TWO_WAITING := State([1, 2], [], map[1 := 1, 2 := 1], {}, 0, 3)
  const OVERTAKEN := State([1, 2], [Entry(2, 1), Entry(1, 1)], map[], {}, 0, 3)

  lemma FileOne()
    ensures Step(Step(EMPTY_TABLE, InsertRow), AddEntry(0)) == ONE_FILED
  {
    assert InsertByKey([], EntryPosition, Entry(0, 0)) == [Entry(0, 0)];
    assert map[0 := 0] - {0} == map[];
  }

  /** Row 1 is inserted at position 1 while row 0 is about to be deleted. */
  lemma DeleteDuringEnqueue()
    ensures Step(Step(ONE_FILED, InsertRow), DeleteRow(0)) == ROW_DELETED
  {
    var s := Step(ONE_FILED, InsertRow);
    assert s.table == [0, 1] && IsId(0)(s.table[0]);
    assert Without([0, 1], 0) == [1];
  }

  /** Row 2 is inserted at position 1 as well, the rows having been renumbered. */
  lemma InsertAfterRenumbering()
    ensures Step(Step(ROW_DELETED, RemoveEntry(0)), InsertRow) == TWO_WAITING
  {
    var s := Step(ROW_DELETED, RemoveEntry(0));
    assert HasEntryId(0)(ROW_DELETED.mirror[0]);
    assert Without([Entry(0, 0)], 0) == [] && {0} - {0} == {};
    assert s.mirror == [] && s.table == [1] && s.adding == map[1 := 1];
  }

  lemma FileNewerFirst()
    ensures Step(Step(TWO_WAITING, AddEntry(2)), AddEntry(1)) == OVERTAKEN
  {
    var s := Step(TWO_WAITING, AddEntry(2));
    assert s.mirror == [Entry(2, 1)];
    assert s.adding == map[1 := 1];
    assert InsertionIndex([Entry(2, 1)], EntryPosition, 1) == 1;
    assert InsertByKey([Entry(2, 1)], EntryPosition, Entry(1, 1)) == [Entry(2, 1), Entry(1, 1)];
    assert map[1 := 1] - {1} == map[];
  }

  lemma RunPair(s: State, a: Op, b: Op, rest: seq<Op>)
    ensures Run(s, [a, b] + rest) == Run(Step(Step(s, a), b), rest)
  {
    var ops := [a, b] + rest;
    assert ops[1..][0] == b && ops[1..][1..] == rest;
  }

  /** A deletion during an enqueue: the message enqueued after it overtakes it. */
  lemma OvertakenByStalePosition()
    ensures
      Run(EMPTY_TABLE,
          [InsertRow, AddEntry(0)] + ([InsertRow, DeleteRow(0)] + ([RemoveEntry(0), InsertRow] + ([AddEntry(2), AddEntry(1)] + []))))
        == OVERTAKEN
    ensures !InOrder(OVERTAKEN.mirror)
  {
    FileOne();
    DeleteDuringEnqueue();
    InsertAfterRenumbering();
    FileNewerFirst();
    assert Map(OVERTAKEN.mirror, IdOf)[0] == 2 && Map(OVERTAKEN.mirror, IdOf)[1] == 1;
    hide Step, InOrder, Map, Run;
    var last: seq<Op> := [];
    var fourth := [AddEntry(2), AddEntry(1)] + last;
    var third := [RemoveEntry(0), InsertRow] + fourth;
    var second := [InsertRow, DeleteRow(0)] + third;
    RunPair(EMPTY_TABLE, InsertRow, AddEntry(0), second);
    RunPair(ONE_FILED, InsertRow, DeleteRow(0), third);
    RunPair(ROW_DELETED, RemoveEntry(0), InsertRow, fourth);
    RunPair(TWO_WAITING, AddEntry(2), AddEntry(1), last);
    RunNothing(OVERTAKEN);
  }

  lemma RunNothing(s: State)
    ensures Run(s, []) == s
  {
  }
}
