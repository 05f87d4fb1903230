// src/core/buffer.py: the per-session history with its sequence counter,
// its bounded deque and its live subscriber queues.
//
// Queues are named by numbers in the model, and are objects of their own in the class.
module Buffer {
  import opened Collections

  const MAX_BUFFER_MESSAGES: nat := 2000

  datatype MessageType =
    | TextChunk | ToolStart | ToolOutput | Error | SessionEnd | Summary | Notification
    | AgentSessionStart | AgentGroupStart | AgentGroupEnd | SessionPaused | SessionResumed
    | PlanModeAsk | PlanReviewAsk | PermissionRequest | SessionRestored | TodoUpdate | Thinking
    | AgentLog | SessionUpdate | SubprocessStatus | TurnComplete
    | MessageQueued | MessageDequeued | MessageQueuedUpdated
    | MonitorStart | MonitorEvent | MonitorEnd
    | WakeupScheduled | WakeupFired | WakeupCancelled

  type Data = map<string, Json>

  datatype Message = Message(sequence: nat, messageType: MessageType, data: Data)

  /** What a subscriber's queue carries: messages, then possibly the end sentinel. */
  datatype Item = Msg(message: Message) | EndMarker

  /** `queues` lists every queue ever handed out; `live` maps a subscriber id to its queue's index. */
  datatype State = State(
    history: seq<Message>, counter: nat, queues: seq<seq<Item>>, live: map<string, nat>, closed: bool)

  const EMPTY := State([], 0, [], map[], false)

  // ---- The operations on values -------------------------------------------

  predicate Listening(live: map<string, nat>, k: nat) {
    exists id :: id in live && live[id] == k
  }

  /** Puts `item` into every queue some live id refers to. */
  function Deliver(queues: seq<seq<Item>>, live: map<string, nat>, item: Item): (r: seq<seq<Item>>)
    ensures |r| == |queues|
    ensures forall k :: 0 <= k < |queues| ==> r[k] == if Listening(live, k) then queues[k] + [item] else queues[k]
  {
    seq(|queues|, k requires 0 <= k < |queues| => if Listening(live, k) then queues[k] + [item] else queues[k])
  }

  function NextMessage(s: State, messageType: MessageType, data: Data): Message {
    Message(s.counter + 1, messageType, data)
  }

  /** A `deque(maxlen=2000)` append: the oldest entry is evicted at the limit. */
  function Retain(history: seq<Message>, m: Message): seq<Message> {
    LastN(history + [m], MAX_BUFFER_MESSAGES)
  }

  function AfterText(s: State, messageType: MessageType, data: Data): State {
    var m := NextMessage(s, messageType, data);
    s.(history := Retain(s.history, m),
       counter := s.counter + 1,
       queues := Deliver(s.queues, s.live, Msg(m)))
  }

  function AfterEphemeral(s: State, messageType: MessageType, data: Data): State {
    s.(counter := s.counter + 1, queues := Deliver(s.queues, s.live, Msg(NextMessage(s, messageType, data))))
  }

  function AsItem(m: Message): Item {
    Msg(m)
  }

  function Replay(history: seq<Message>): seq<Item> {
    Map(history, AsItem)
  }

  function AfterSubscribe(s: State, id: string): State {
    if s.closed then s.(queues := s.queues + [Replay(s.history) + [EndMarker]])
    else s.(queues := s.queues + [Replay(s.history)], live := s.live[id := |s.queues|])
  }

  function AfterUnsubscribe(s: State, id: string): State {
    if id !in s.live then s
    else s.(queues := Deliver(s.queues, map[id := s.live[id]], EndMarker), live := s.live - {id})
  }

  function AfterClose(s: State): State {
    s.(queues := Deliver(s.queues, s.live, EndMarker), live := map[], closed := true)
  }

  datatype BufferOp =
    | OpText(messageType: MessageType, data: Data)
    | OpEphemeral(messageType: MessageType, data: Data)
    | OpSubscribe(id: string)
    | OpUnsubscribe(id: string)
    | OpClose

  function BufferStep(s: State, op: BufferOp): State {
    match op
    case OpText(t, d) => AfterText(s, t, d)
    case OpEphemeral(t, d) => AfterEphemeral(s, t, d)
    case OpSubscribe(id) => AfterSubscribe(s, id)
    case OpUnsubscribe(id) => AfterUnsubscribe(s, id)
    case OpClose => AfterClose(s)
  }

  function RunBuffer(s: State, ops: seq<BufferOp>): State
    decreases ops
  {
    if ops == [] then s else RunBuffer(BufferStep(s, ops[0]), ops[1..])
  }

  // ---- What a run means, said without queues, deques or dictionaries --------

  /** Every text message of a run, numbered by the count of pushes of both kinds. */
  function Texts(ops: seq<BufferOp>, counter: nat): seq<Message>
    decreases ops
  {
    if ops == [] then []
    else match ops[0]
      case OpText(t, d) => [Message(counter + 1, t, d)] + Texts(ops[1..], counter + 1)
      case OpEphemeral(_, _) => Texts(ops[1..], counter + 1)
      case _ => Texts(ops[1..], counter)
  }

  /** What a subscriber registered as `id` still receives when `ops` happen. */
  function Stream(id: string, counter: nat, ops: seq<BufferOp>): seq<Item>
    decreases ops
  {
    if ops == [] then []
    else match ops[0]
      case OpText(t, d) => [Msg(Message(counter + 1, t, d))] + Stream(id, counter + 1, ops[1..])
      case OpEphemeral(t, d) => [Msg(Message(counter + 1, t, d))] + Stream(id, counter + 1, ops[1..])
      case OpSubscribe(other) => if other == id then [] else Stream(id, counter, ops[1..])
      case OpUnsubscribe(other) => if other == id then [EndMarker] else Stream(id, counter, ops[1..])
      case OpClose => [EndMarker]
  }

  /** An unsubscribe of `id` or a close comes before any reuse of the id. */
  predicate Ends(id: string, ops: seq<BufferOp>) {
    ops != [] &&
    match ops[0]
    case OpSubscribe(other) => other != id && Ends(id, ops[1..])
    case OpUnsubscribe(other) => other == id || Ends(id, ops[1..])
    case OpClose => true
    case _ => Ends(id, ops[1..])
  }

  ghost predicate Increasing(history: seq<Message>) {
    forall i, j :: 0 <= i < j < |history| ==> history[i].sequence < history[j].sequence
  }

  predicate Precedes(a: Item, b: Item) {
    a.Msg? && (b.Msg? ==> a.message.sequence < b.message.sequence)
  }

  /** Messages in strictly increasing sequence, with at most one end marker and nothing after it. */
  ghost predicate WellFormedQueue(q: seq<Item>) {
    forall i, j :: 0 <= i < j < |q| ==> Precedes(q[i], q[j])
  }

  /** Live ids name distinct queues, and a closed buffer has none. */
  ghost predicate ValidLive(queues: nat, live: map<string, nat>, closed: bool) {
    && (forall id :: id in live ==> live[id] < queues)
    && (forall a, b :: a in live && b in live && a != b ==> live[a] != live[b])
    && (closed ==> live == map[])
  }

  ghost predicate ValidHistory(history: seq<Message>, counter: nat) {
    && Increasing(history)
    && (forall i :: 0 <= i < |history| ==> 0 < history[i].sequence <= counter)
    && |history| <= MAX_BUFFER_MESSAGES
  }

  ghost predicate Valid(s: State) {
    ValidLive(|s.queues|, s.live, s.closed) && ValidHistory(s.history, s.counter)
  }

  // ---- Proofs ------------------------------------------------------------

  lemma HistoryGrows(history: seq<Message>, counter: nat, m: Message)
    requires ValidHistory(history, counter) && m.sequence > counter
    ensures ValidHistory(Retain(history, m), m.sequence)
  {
  }

  lemma StepValid(s: State, op: BufferOp)
    requires Valid(s)
    ensures Valid(BufferStep(s, op))
  {
    if op.OpText? {
      HistoryGrows(s.history, s.counter, NextMessage(s, op.messageType, op.data));
    }
  }

  lemma {:induction false} RunValid(s: State, ops: seq<BufferOp>)
    requires Valid(s)
    ensures Valid(RunBuffer(s, ops))
    decreases ops
  {
    if ops != [] {
      StepValid(s, ops[0]);
      RunValid(BufferStep(s, ops[0]), ops[1..]);
    }
  }

  lemma LastNShift(history: seq<Message>, m: Message, rest: seq<Message>, n: nat)
    ensures LastN(LastN(history + [m], n) + rest, n) == LastN(history + ([m] + rest), n)
  {
    LastNAppend(history + [m], rest, n);
    assert history + [m] + rest == history + ([m] + rest);
  }

  lemma TextsStep(s: State, ops: seq<BufferOp>)
    requires ops != []
    ensures
      var t, op := BufferStep(s, ops[0]), ops[0];
      var pushed := if op.OpText? then [NextMessage(s, op.messageType, op.data)] else [];
      && Texts(ops, s.counter) == pushed + Texts(ops[1..], t.counter)
      && t.history == if op.OpText? then Retain(s.history, pushed[0]) else s.history
  {
  }

  /** The history is the last 2000 text pushes, whatever else happened in between. */
  lemma {:induction false} HistoryIsLastTexts(s: State, ops: seq<BufferOp>)
    requires |s.history| <= MAX_BUFFER_MESSAGES
    ensures RunBuffer(s, ops).history == LastN(s.history + Texts(ops, s.counter), MAX_BUFFER_MESSAGES)
    decreases ops
  {
    if ops == [] {
      assert s.history + [] == s.history;
    } else {
      var t := BufferStep(s, ops[0]);
      var rest := Texts(ops[1..], t.counter);
      RunStep(s, ops);
      TextsStep(s, ops);
      assert |t.history| <= MAX_BUFFER_MESSAGES;
      hide RunBuffer, Texts, BufferStep, LastN;
      HistoryIsLastTexts(t, ops[1..]);
      if ops[0].OpText? {
        LastNShift(s.history, NextMessage(s, ops[0].messageType, ops[0].data), rest, MAX_BUFFER_MESSAGES);
      } else {
        assert [] + rest == rest;
      }
    }
  }

  /** A queue nobody is registered for never changes again. */
  lemma {:induction false} DetachedQueueFrozen(s: State, k: nat, ops: seq<BufferOp>)
    requires Valid(s) && k < |s.queues| && !Listening(s.live, k)
    ensures k < |RunBuffer(s, ops).queues| && RunBuffer(s, ops).queues[k] == s.queues[k]
    decreases ops
  {
    if ops != [] {
      StepValid(s, ops[0]);
      DetachedQueueFrozen(BufferStep(s, ops[0]), k, ops[1..]);
    }
  }

  /** What one operation adds to the queue of `id`. */
  function Next(id: string, counter: nat, op: BufferOp): seq<Item> {
    match op
    case OpText(t, d) => [Msg(Message(counter + 1, t, d))]
    case OpEphemeral(t, d) => [Msg(Message(counter + 1, t, d))]
    case OpSubscribe(_) => []
    case OpUnsubscribe(other) => if other == id then [EndMarker] else []
    case OpClose => [EndMarker]
  }

  /** The operation leaves `id` with its queue. */
  predicate Keeps(id: string, op: BufferOp) {
    !op.OpClose? && (op.OpUnsubscribe? || op.OpSubscribe? ==> op.id != id)
  }

  lemma QueueStep(s: State, id: string, op: BufferOp)
    requires Valid(s) && id in s.live
    ensures
      var t, k := BufferStep(s, op), s.live[id];
      && k < |t.queues| && t.queues[k] == s.queues[k] + Next(id, s.counter, op)
      && (if Keeps(id, op) then id in t.live && t.live[id] == k else !Listening(t.live, k))
  {
    assert Listening(s.live, s.live[id]);
    if op.OpUnsubscribe? && op.id in s.live {
      assert map[op.id := s.live[op.id]][op.id] == s.live[op.id];
    }
  }

  lemma StreamStep(id: string, counter: nat, ops: seq<BufferOp>)
    requires ops != []
    ensures
      var after := if ops[0].OpText? || ops[0].OpEphemeral? then counter + 1 else counter;
      Stream(id, counter, ops) ==
        Next(id, counter, ops[0]) + if Keeps(id, ops[0]) then Stream(id, after, ops[1..]) else []
  {
  }

  lemma RunStep(s: State, ops: seq<BufferOp>)
    requires ops != []
    ensures RunBuffer(s, ops) == RunBuffer(BufferStep(s, ops[0]), ops[1..])
    ensures BufferStep(s, ops[0]).counter == if ops[0].OpText? || ops[0].OpEphemeral? then s.counter + 1 else s.counter
  {
  }

  lemma {:induction false} QueueReceivesStream(s: State, id: string, ops: seq<BufferOp>)
    requires Valid(s) && id in s.live
    ensures s.live[id] < |RunBuffer(s, ops).queues|
    ensures RunBuffer(s, ops).queues[s.live[id]] == s.queues[s.live[id]] + Stream(id, s.counter, ops)
    decreases ops
  {
    var k := s.live[id];
    if ops == [] {
      assert s.queues[k] + [] == s.queues[k];
    } else {
      var t := BufferStep(s, ops[0]);
      StepValid(s, ops[0]);
      QueueStep(s, id, ops[0]);
      var now, later := Next(id, s.counter, ops[0]), Stream(id, t.counter, ops[1..]);
      if id in t.live && t.live[id] == k {
        QueueReceivesStream(t, id, ops[1..]);
        AppendAssociates(s.queues[k], now, later);
      } else {
        DetachedQueueFrozen(t, k, ops[1..]);
      }
      StreamStep(id, s.counter, ops);
      hide RunBuffer, Stream, BufferStep, Valid, Next;
      RunStep(s, ops);
    }
  }

  predicate EndsIn(q: seq<Item>, item: Item) {
    q != [] && q[|q| - 1] == item
  }

  ghost predicate Above(q: seq<Item>, counter: nat) {
    forall i :: 0 <= i < |q| ==> q[i].Msg? ==> q[i].message.sequence > counter
  }

  lemma OneBefore(m: Message, later: seq<Item>, counter: nat)
    requires m.sequence == counter + 1 && WellFormedQueue(later) && Above(later, counter + 1)
    ensures WellFormedQueue([Msg(m)] + later) && Above([Msg(m)] + later, counter)
    ensures EndsIn([Msg(m)] + later, EndMarker) <==> EndsIn(later, EndMarker)
  {
    var q := [Msg(m)] + later;
    assert forall i :: 0 <= i < |q| ==> q[i] == if i == 0 then Msg(m) else later[i - 1];
  }

  lemma {:induction false} StreamShape(id: string, counter: nat, ops: seq<BufferOp>)
    ensures WellFormedQueue(Stream(id, counter, ops)) && Above(Stream(id, counter, ops), counter)
    ensures Ends(id, ops) <==> EndsIn(Stream(id, counter, ops), EndMarker)
    decreases ops
  {
    if ops != [] {
      var after := if ops[0].OpText? || ops[0].OpEphemeral? then counter + 1 else counter;
      var now, later := Next(id, counter, ops[0]), Stream(id, after, ops[1..]);
      StreamShape(id, after, ops[1..]);
      StreamStep(id, counter, ops);
      assert Ends(id, ops) <==> if Keeps(id, ops[0]) then Ends(id, ops[1..]) else !ops[0].OpSubscribe?;
      hide Stream, Ends;
      if after == counter + 1 {
        hide WellFormedQueue, Above, EndsIn;
        OneBefore(now[0].message, later, counter);
      } else if Keeps(id, ops[0]) {
        hide WellFormedQueue, Above, EndsIn;
        assert [] + later == later;
      }
    }
  }

  lemma ReplayThenRest(history: seq<Message>, counter: nat, rest: seq<Item>)
    requires ValidHistory(history, counter) && WellFormedQueue(rest)
    requires forall i :: 0 <= i < |rest| ==> rest[i].Msg? ==> rest[i].message.sequence > counter
    ensures WellFormedQueue(Replay(history) + rest)
    ensures EndMarker in Replay(history) + rest <==> rest != [] && rest[|rest| - 1] == EndMarker
  {
    var replayed := Replay(history);
    var q := replayed + rest;
    assert |replayed| == |history| && forall i :: 0 <= i < |history| ==> replayed[i] == Msg(history[i]);
    hide Replay;
    forall i, j | 0 <= i < j < |q|
      ensures Precedes(q[i], q[j])
    {
      var n := |history|;
      assert i < n ==> q[i] == replayed[i];
      assert j < n ==> q[j] == replayed[j];
      assert i >= n ==> q[i] == rest[i - n];
      assert j >= n ==> q[j] == rest[j - n];
    }
    assert forall i :: 0 <= i < |q| - 1 ==> Precedes(q[i], q[|q| - 1]);
    if rest != [] {
      assert q[|q| - 1] == rest[|rest| - 1];
    }
  }

  lemma SubscriberSeesFrom(s: State, id: string, after: seq<BufferOp>)
    requires Valid(s)
    ensures |s.queues| < |RunBuffer(AfterSubscribe(s, id), after).queues|
    ensures RunBuffer(AfterSubscribe(s, id), after).queues[|s.queues|]
         == Replay(s.history) + (if s.closed then [EndMarker] else Stream(id, s.counter, after))
  {
    var u := AfterSubscribe(s, id);
    StepValid(s, OpSubscribe(id));
    if s.closed {
      assert !Listening(u.live, |s.queues|);
      DetachedQueueFrozen(u, |s.queues|, after);
    } else {
      QueueReceivesStream(u, id, after);
    }
  }

  lemma SubscriberQueueShape(s: State, id: string, after: seq<BufferOp>)
    requires Valid(s)
    ensures WellFormedQueue(Replay(s.history) + (if s.closed then [EndMarker] else Stream(id, s.counter, after)))
    ensures EndMarker in Replay(s.history) + (if s.closed then [EndMarker] else Stream(id, s.counter, after))
            <==> s.closed || Ends(id, after)
  {
    if s.closed {
      ReplayThenRest(s.history, s.counter, [EndMarker]);
    } else {
      StreamShape(id, s.counter, after);
      ReplayThenRest(s.history, s.counter, Stream(id, s.counter, after));
    }
  }

  /** A buffer is closed by a close and by nothing else. */
  lemma {:induction false} ClosedIff(s: State, ops: seq<BufferOp>)
    ensures RunBuffer(s, ops).closed <==> s.closed || OpClose in ops
    decreases ops
  {
    if ops != [] {
      ClosedIff(BufferStep(s, ops[0]), ops[1..]);
      assert OpClose in ops <==> ops[0] == OpClose || OpClose in ops[1..];
    }
  }

  function Pushes(ops: seq<BufferOp>): nat
    decreases ops
  {
    if ops == [] then 0 else (if ops[0].OpText? || ops[0].OpEphemeral? then 1 else 0) + Pushes(ops[1..])
  }

  /** Every push of either kind takes one sequence, and nothing else does. */
  lemma {:induction false} CounterCountsPushes(s: State, ops: seq<BufferOp>)
    ensures RunBuffer(s, ops).counter == s.counter + Pushes(ops)
    decreases ops
  {
    if ops != [] {
      CounterCountsPushes(BufferStep(s, ops[0]), ops[1..]);
    }
  }

  /**
   * The subscription guarantee, for every run before and after the subscription:
   * the queue is the retained history (the last 2000 texts pushed so far) followed
   * by every later push of either kind, numbered on from the pushes before; it carries
   * one end marker, in last place, exactly when an unsubscribe of this id or a close
   * happened before the id was reused, or a close had happened before.
   */
  lemma SubscriberSees(before: seq<BufferOp>, id: string, after: seq<BufferOp>) returns (queue: seq<Item>)
    ensures |RunBuffer(EMPTY, before).queues| < |RunBuffer(AfterSubscribe(RunBuffer(EMPTY, before), id), after).queues|
    ensures queue == RunBuffer(AfterSubscribe(RunBuffer(EMPTY, before), id), after).queues[|RunBuffer(EMPTY, before).queues|]
    ensures queue == Replay(LastN(Texts(before, 0), MAX_BUFFER_MESSAGES))
      + (if OpClose in before then [EndMarker] else Stream(id, Pushes(before), after))
    ensures WellFormedQueue(queue)
    ensures EndMarker in queue <==> OpClose in before || Ends(id, after)
  {
    var s := RunBuffer(EMPTY, before);
    RunValid(EMPTY, before);
    HistoryIsLastTexts(EMPTY, before);
    ClosedIff(EMPTY, before);
    CounterCountsPushes(EMPTY, before);
    assert EMPTY.history + Texts(before, 0) == Texts(before, 0);
    SubscriberSeesFrom(s, id, after);
    SubscriberQueueShape(s, id, after);
    queue := RunBuffer(AfterSubscribe(s, id), after).queues[|s.queues|];
  }

  // ---- The buffer as the source writes it -----------------------------------

  /** One subscriber's queue; `items` is everything ever put into it. */
  class TextQueue {
    var items: seq<Item>

    constructor ()
      ensures items == []
    {
      items := [];
    }

    method Put(item: Item)
      modifies this
      ensures items == old(items) + [item]
    {
      items := items + [item];
    }
  }

  class SessionBuffer {
    var messages: seq<Message>
    var sequence: nat
    var subscribers: map<string, TextQueue>
    var closed: bool
    ghost var created: seq<TextQueue>
    ghost var model: State

    /** The created queues hold what the model says, and the subscribers are its live ids. */
    static ghost predicate Links(queues: seq<seq<Item>>, live: map<string, nat>,
                                 subscribers: map<string, TextQueue>, created: seq<TextQueue>)
      reads created
    {
      && live.Keys == subscribers.Keys
      && |queues| == |created|
      && (forall i, j :: 0 <= i < j < |created| ==> created[i] != created[j])
      && (forall k :: 0 <= k < |created| ==> created[k].items == queues[k])
      && (forall id :: id in subscribers ==> live[id] < |created| && created[live[id]] == subscribers[id])
      && (forall a, b :: a in subscribers && b in subscribers && a != b ==> subscribers[a] != subscribers[b])
    }

    ghost predicate Linked()
      reads this, created
    {
      Links(model.queues, model.live, subscribers, created)
    }

    ghost predicate Valid()
      reads this, created
    {
      && model.history == messages && model.counter == sequence && model.closed == closed
      && |messages| <= MAX_BUFFER_MESSAGES
      && Linked()
    }

    constructor ()
      ensures Valid() && model == EMPTY
    {
      messages, sequence, subscribers, closed := [], 0, map[], false;
      created, model := [], EMPTY;
    }

    /** `for queue in subscribers.values(): queue.put_nowait(item)` */
    method PutAll(item: Item)
      requires forall a, b :: a in subscribers && b in subscribers && a != b ==> subscribers[a] != subscribers[b]
      modifies subscribers.Values
      ensures forall id :: id in subscribers ==> subscribers[id].items == old(subscribers[id].items) + [item]
    {
      var pending := subscribers.Keys;
      while pending != {}
        invariant pending <= subscribers.Keys
        invariant forall id :: id in subscribers ==>
          subscribers[id].items == old(subscribers[id].items) + (if id in pending then [] else [item])
        decreases pending
      {
        var id :| id in pending;
        subscribers[id].Put(item);
        pending := pending - {id};
      }
    }

    /** Puts the item into every live queue, in the model as well. */
    method Broadcast(item: Item)
      requires Linked()
      modifies this`model, created
      ensures Linked()
      ensures model == old(model).(queues := Deliver(old(model).queues, old(model).live, item))
    {
      PutAll(item);
      ghost var queues := Deliver(model.queues, model.live, item);
      forall k | 0 <= k < |created|
        ensures created[k].items == queues[k]
      {
        if id :| id in model.live && model.live[id] == k {
          assert created[k] == subscribers[id];
        }
      }
      hide Deliver;
      model := model.(queues := queues);
    }

    /** `deque.append` on the bounded history. */
    method Append(m: Message)
      requires |messages| <= MAX_BUFFER_MESSAGES
      modifies this`messages
      ensures messages == Retain(old(messages), m)
    {
      messages := messages + [m];
      if |messages| > MAX_BUFFER_MESSAGES {
        messages := messages[1..];
      }
    }

    method PushText(messageType: MessageType, data: Data) returns (msg: Message)
      requires Valid()
      modifies this, created
      ensures Valid() && created == old(created)
      ensures model == AfterText(old(model), messageType, data)
      ensures msg == NextMessage(old(model), messageType, data)
    {
      hide Deliver, Links;
      sequence := sequence + 1;
      msg := Message(sequence, messageType, data);
      Append(msg);
      assert |messages| <= MAX_BUFFER_MESSAGES;
      hide Retain;
      Broadcast(Msg(msg));
      model := model.(history := messages, counter := sequence);
    }

    method PushEphemeral(messageType: MessageType, data: Data)
      requires Valid()
      modifies this, created
      ensures Valid() && created == old(created)
      ensures model == AfterEphemeral(old(model), messageType, data)
    {
      hide Deliver, Links;
      sequence := sequence + 1;
      Broadcast(Msg(Message(sequence, messageType, data)));
      model := model.(counter := sequence);
    }

    method SubscribeText(id: string) returns (queue: TextQueue)
      requires Valid()
      modifies this
      ensures Valid() && fresh(queue) && created == old(created) + [queue]
      ensures model == AfterSubscribe(old(model), id)
    {
      queue := new TextQueue();
      for i := 0 to |messages|
        modifies queue
        invariant queue.items == Replay(messages[..i])
      {
        queue.Put(Msg(messages[i]));
      }
      assert messages[..|messages|] == messages;
      if closed {
        queue.Put(EndMarker);
      } else {
        subscribers := subscribers[id := queue];
      }
      created := created + [queue];
      model := AfterSubscribe(model, id);
    }

    method UnsubscribeText(id: string)
      requires Valid()
      modifies this, created
      ensures Valid() && created == old(created)
      ensures model == AfterUnsubscribe(old(model), id)
    {
      if id in subscribers {
        var queue := subscribers[id];
        subscribers := subscribers - {id};
        queue.Put(EndMarker);
        assert map[id := model.live[id]][id] == model.live[id];
        model := AfterUnsubscribe(model, id);
      }
    }

    /** Rebuilding from stored rows writes the deque and the counter directly. */
    method AppendRestored(m: Message)
      requires Valid()
      modifies this
      ensures Valid() && created == old(created)
      ensures messages == Retain(old(messages), m)
      ensures sequence == if old(sequence) < m.sequence then m.sequence else old(sequence)
    {
      Append(m);
      sequence := if sequence < m.sequence then m.sequence else sequence;
      model := model.(history := messages, counter := sequence);
    }

    method Close()
      requires Valid()
      modifies this, created
      ensures Valid() && created == old(created)
      ensures model == AfterClose(old(model))
    {
      closed := true;
      PutAll(EndMarker);
      subscribers := map[];
      model := AfterClose(model);
    }
  }
}
