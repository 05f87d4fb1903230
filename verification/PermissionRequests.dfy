// src/core/permissions.py: permission requests with their waiters, over every run, and the
// manager that holds them and the rules.
module PermissionRequests {
  import opened Collections
  import opened Paths
  import opened Permissions

  datatype Request = Request(toolName: string, decision: Option<Decision>, scope: Scope, signalled: bool, timedOut: bool)

  /**
   * Every request made, those still registered, what each waiter was told, and the waiters
   * that were cancelled before they were told anything.
   */
  datatype Desk = Desk(cache: State, requests: map<string, Request>, pending: set<string>,
                       told: map<string, Decision>, left: set<string>)

  const NO_REQUESTS := Desk(NO_RULES, map[], {}, map[], {})

  /** A wait that times out may do so before or after its answer came. */
  datatype Event =
    | Ask(id: string, toolName: string)
    | Answer(id: string, decision: Decision, scope: Scope, pathPrefix: Option<string>)
    | CancelAll
    | Wake(id: string, timedOut: bool)
    | Abandon(id: string)

  predicate Waits(s: Desk, id: string) {
    id in s.requests && id !in s.told && id !in s.left
  }

  predicate CanWake(s: Desk, id: string, timedOut: bool) {
    Waits(s, id) && (timedOut || s.requests[id].signalled)
  }

  predicate Open(s: Desk, id: string) {
    id in s.pending && id in s.requests
  }

  function Answered(r: Request, decision: Decision, scope: Scope): Request {
    r.(decision := Some(decision), scope := scope, signalled := true)
  }

  function Cancelled(r: Request): Request {
    if r.decision.None? then r.(decision := Some(Deny), timedOut := true, signalled := true) else r.(signalled := true)
  }

  function Woken(r: Request, timedOut: bool): Request {
    if timedOut then r.(timedOut := true, decision := Some(Deny)) else r
  }

  /** What `wait_for_response`'s caller makes of the request it gets back. */
  function Verdict(r: Request): Decision {
    if r.decision.Some? then r.decision.value else Deny
  }

  function TakenRule(s: Desk, e: Event): Rule
    requires e.Answer? && Open(s, e.id)
  {
    Rule(s.requests[e.id].toolName, e.decision, e.scope, e.pathPrefix)
  }

  function DeskStep(s: Desk, e: Event): Desk {
    match e
    case Ask(id, toolName) =>
      if id in s.requests then s
      else s.(requests := s.requests[id := Request(toolName, None, Once, false, false)], pending := s.pending + {id})
    case Answer(id, decision, scope, _) =>
      if !Open(s, id) then s
      else
        s.(cache := Resolved(s.cache, TakenRule(s, e)),
           requests := s.requests[id := Answered(s.requests[id], decision, scope)])
    case CancelAll =>
      s.(requests := map id | id in s.requests :: if id in s.pending then Cancelled(s.requests[id]) else s.requests[id],
         pending := {})
    case Wake(id, timedOut) =>
      if !CanWake(s, id, timedOut) then s
      else
        var r := Woken(s.requests[id], timedOut);
        s.(requests := s.requests[id := r], pending := s.pending - {id}, told := s.told[id := Verdict(r)])
    case Abandon(id) => if Waits(s, id) then s.(left := s.left + {id}) else s
  }

  function Init(events: seq<Event>): seq<Event>
    requires events != []
  {
    events[..|events| - 1]
  }

  function Last(events: seq<Event>): Event
    requires events != []
  {
    events[|events| - 1]
  }

  function DeskRun(events: seq<Event>): Desk {
    if events == [] then NO_REQUESTS else DeskStep(DeskRun(Init(events)), Last(events))
  }

  // ---- What a waiter is told ------------------------------------------------------------------

  /** The user's last answer to the request while it was open. */
  function LastAnswer(events: seq<Event>, id: string): Option<Decision> {
    if events == [] then None
    else if Last(events).Answer? && Last(events).id == id && Open(DeskRun(Init(events)), id) then Some(Last(events).decision)
    else LastAnswer(Init(events), id)
  }

  /** Its waiter woke because its time was up. */
  predicate WokeLate(events: seq<Event>, id: string) {
    events != [] &&
    (WokeLate(Init(events), id) || (Last(events) == Wake(id, true) && Waits(DeskRun(Init(events)), id)))
  }

  /** What the history of `id` says of its request. */
  ghost predicate Consistent(s: Desk, id: string, answer: Option<Decision>, late: bool) {
    && (id in s.told || id in s.left || id in s.pending ==> id in s.requests)
    && (id in s.told ==> id !in s.pending && id !in s.left)
    && (late ==> id in s.told)
    && (answer.Some? ==> id in s.requests)
    && (id in s.requests && id !in s.told ==>
         var r := s.requests[id];
         && (answer.Some? ==> r.decision == answer && r.signalled)
         && (answer.None? && id in s.pending ==> r.decision.None? && !r.signalled)
         && (answer.None? && r.decision.Some? ==> r.decision.value.Deny?))
    && (id in s.told ==> s.told[id] == if late || answer.None? then Deny else answer.value)
  }

  lemma StepConsistent(s: Desk, e: Event, id: string, answer: Option<Decision>, late: bool)
    requires Consistent(s, id, answer, late)
    ensures Consistent(DeskStep(s, e), id,
                       if e.Answer? && e.id == id && Open(s, id) then Some(e.decision) else answer,
                       late || (e == Wake(id, true) && Waits(s, id)))
  {
  }

  lemma {:induction false} RunConsistent(events: seq<Event>, id: string)
    ensures Consistent(DeskRun(events), id, LastAnswer(events, id), WokeLate(events, id))
  {
    if events != [] {
      RunConsistent(Init(events), id);
      StepConsistent(DeskRun(Init(events)), Last(events), id, LastAnswer(Init(events), id), WokeLate(Init(events), id));
      hide Consistent, DeskStep;
    }
  }

  /**
   * In every run of questions, answers, timeouts and cancellations, of any number of
   * requests at once: a waiter that is told something is told the last answer its own
   * request got while open, or to deny if there was none or its time was up. So it is
   * denied against an answer that allowed, and was accepted, exactly if it woke late.
   */
  lemma WaiterIsTold(events: seq<Event>, id: string)
    requires id in DeskRun(events).told
    ensures
      var told, answer := DeskRun(events).told[id], LastAnswer(events, id);
      && told == (if WokeLate(events, id) || answer.None? then Deny else answer.value)
      && (answer == Some(Allow) ==> (told.Deny? <==> WokeLate(events, id)))
  {
    RunConsistent(events, id);
  }

  lemma DeskRunMore(events: seq<Event>, e: Event)
    ensures DeskRun(events + [e]) == DeskStep(DeskRun(events), e)
  {
    assert Init(events + [e]) == events;
  }

  lemma StepKeepsClosed(s: Desk, e: Event, id: string)
    requires id in s.requests && id !in s.pending
    ensures
      var t := DeskStep(s, e);
      && id in t.requests && id !in t.pending
      && (id in s.told ==> id in t.told && t.told[id] == s.told[id])
  {
    hide Resolved;
  }

  /**
   * A request whose waiter was told, or that was cancelled with all others, stays closed in
   * every continuation: what its waiter was told does not change, and an answer to it
   * stores no rule and changes nothing.
   */
  lemma {:induction false} ClosedStaysClosed(before: seq<Event>, after: seq<Event>, id: string)
    requires id in DeskRun(before).requests && id !in DeskRun(before).pending
    ensures
      var s, t := DeskRun(before), DeskRun(before + after);
      && id in t.requests && id !in t.pending
      && (id in s.told ==> id in t.told && t.told[id] == s.told[id])
      && forall e: Event :: e.Answer? && e.id == id ==> DeskStep(t, e) == t
  {
    hide DeskRun;
    if after == [] {
      assert before + after == before;
    } else {
      ClosedStaysClosed(before, Init(after), id);
      assert before + after == before + Init(after) + [Last(after)];
      DeskRunMore(before + Init(after), Last(after));
      StepKeepsClosed(DeskRun(before + Init(after)), Last(after), id);
    }
  }

  /** What the history of `id` leaves on the request object its waiter gets back. */
  predicate Recorded(s: Desk, id: string, answer: Option<Decision>, late: bool) {
    id in s.requests ==>
      var r := s.requests[id];
      && (r.signalled ==> r.decision.Some?)
      && (id !in s.pending && id !in s.told ==> r.signalled)
      && (id in s.told ==> r.decision == Some(s.told[id]))
      && (r.timedOut <==> if id in s.told then late || answer.None? else answer.None? && id !in s.pending)
  }

  lemma StepRecorded(s: Desk, e: Event, id: string, answer: Option<Decision>, late: bool)
    requires Consistent(s, id, answer, late) && Recorded(s, id, answer, late)
    ensures Recorded(DeskStep(s, e), id,
                     if e.Answer? && e.id == id && Open(s, id) then Some(e.decision) else answer,
                     late || (e == Wake(id, true) && Waits(s, id)))
  {
    hide Resolved;
  }

  lemma {:induction false} RunRecorded(events: seq<Event>, id: string)
    ensures Recorded(DeskRun(events), id, LastAnswer(events, id), WokeLate(events, id))
  {
    if events != [] {
      RunRecorded(Init(events), id);
      RunConsistent(Init(events), id);
      StepRecorded(DeskRun(Init(events)), Last(events), id, LastAnswer(Init(events), id), WokeLate(Init(events), id));
      hide Consistent, Recorded, DeskStep;
    }
  }

  /**
   * In every run: the request a waiter gets back carries the decision it was told, and is
   * marked timed out exactly if it got no answer while open or its waiter woke late; and
   * a waiter whose request was cancelled with all others can wake at once.
   */
  lemma RequestSaysWhatWasTold(events: seq<Event>, id: string)
    requires id in DeskRun(events).requests
    ensures
      var s := DeskRun(events);
      && (id in s.told ==>
            && s.requests[id].decision == Some(s.told[id])
            && (s.requests[id].timedOut <==> WokeLate(events, id) || LastAnswer(events, id).None?))
      && (Waits(s, id) && id !in s.pending ==> CanWake(s, id, false))
      && (Waits(s, id) ==> CanWake(DeskStep(s, CancelAll), id, false))
  {
    RunRecorded(events, id);
    RunRecorded(events + [CancelAll], id);
    DeskRunMore(events, CancelAll);
    hide DeskRun, LastAnswer, WokeLate;
  }

  /** The scope of the user's last answer to the request while it was open. */
  function LastScope(events: seq<Event>, id: string): Scope {
    if events == [] then Once
    else if Last(events).Answer? && Last(events).id == id && Open(DeskRun(Init(events)), id) then Last(events).scope
    else LastScope(Init(events), id)
  }

  /** The request keeps its tool, and the scope of the last answer it got while open. */
  lemma {:induction false} RequestKeepsScope(events: seq<Event>, id: string)
    ensures if id in DeskRun(events).requests then DeskRun(events).requests[id].scope == LastScope(events, id)
            else LastScope(events, id) == Once && id !in DeskRun(events).pending
  {
    if events != [] {
      RequestKeepsScope(Init(events), id);
      hide Resolved;
    }
  }

  /** A waiter that was cancelled while it waited is never told anything. */
  lemma {:induction false} AbandonedIsNeverTold(before: seq<Event>, after: seq<Event>, id: string)
    requires Waits(DeskRun(before), id)
    ensures
      var s := DeskRun(before + [Abandon(id)] + after);
      id in s.left && id !in s.told
  {
    if after == [] {
      assert before + [Abandon(id)] + after == before + [Abandon(id)];
      DeskRunMore(before, Abandon(id));
    } else {
      hide DeskRun;
      AbandonedIsNeverTold(before, Init(after), id);
      var events := before + [Abandon(id)] + Init(after);
      assert before + [Abandon(id)] + after == events + [Last(after)];
      DeskRunMore(events, Last(after));
      StepKeepsLeft(DeskRun(events), Last(after), id);
    }
  }

  lemma StepKeepsLeft(s: Desk, e: Event, id: string)
    requires id in s.left && id !in s.told
    ensures id in DeskStep(s, e).left && id !in DeskStep(s, e).told
  {
  }

  // ---- What the answers leave in the cache -----------------------------------------------------

  /** The answers that found their request open, for that request's tool. */
  function TakenAnswers(events: seq<Event>): seq<Rule> {
    if events == [] then []
    else
      var rest, s := TakenAnswers(Init(events)), DeskRun(Init(events));
      if Last(events).Answer? && Open(s, Last(events).id) then rest + [TakenRule(s, Last(events))] else rest
  }

  /** The cache is what the taken answers make of it, so CacheAnswers says what it decides. */
  lemma {:induction false} CacheOfTaken(events: seq<Event>)
    ensures DeskRun(events).cache == Run(NO_RULES, Map(TakenAnswers(events), ResolveOf))
  {
    if events != [] {
      CacheOfTaken(Init(events));
      var rest, e, s := TakenAnswers(Init(events)), Last(events), DeskRun(Init(events));
      if e.Answer? && Open(s, e.id) {
        var r := TakenRule(s, e);
        assert Map(rest + [r], ResolveOf) == Map(rest, ResolveOf) + [Resolve(r)];
        RunMore(Map(rest, ResolveOf), Resolve(r));
      }
      hide Run, Map;
    }
  }

  lemma RunMore(ops: seq<Op>, op: Op)
    ensures Run(NO_RULES, ops + [op]) == Step(Run(NO_RULES, ops), op)
  {
    assert (ops + [op])[..|ops|] == ops;
  }

  /**
   * What a later call of any tool is answered without asking depends on the taken answers
   * only, whatever their waiters were told: one that came as its waiter's time ran out
   * still counts.
   */
  lemma LaterCallsAreAnswered(expand: Expand, events: seq<Event>, toolName: string, input: Input)
    ensures
      var answers := TakenAnswers(events);
      Check(expand, DeskRun(events).cache, toolName, input) ==
        if exists i :: 0 <= i < |answers| && ForAll(answers[i], Allow) then Some(Allow)
        else if exists i :: 0 <= i < |answers| && ForAll(answers[i], Deny) then Some(Deny)
        else Newest(expand, Filter(answers, Narrow), toolName, input)
  {
    CacheOfTaken(events);
    CacheAnswers(expand, TakenAnswers(events), toolName, input);
  }

  /**
   * An answer to an open request decides later calls of the request's tool, with the
   * decision, scope and path the user gave, unless everything was decided already.
   */
  lemma AnswerIsRemembered(expand: Expand, s: Desk, id: string, decision: Decision, scope: Scope,
                           pathPrefix: Option<string>, toolName: string, input: Input)
    requires Open(s, id) && !s.cache.blanketAllow && !s.cache.blanketDeny
    ensures
      var before := Check(expand, s.cache, toolName, input);
      var after := Check(expand, DeskStep(s, Answer(id, decision, scope, pathPrefix)).cache, toolName, input);
      after ==
        match scope
        case AllSession => Some(decision)
        case Once => before
        case ToolSession => if toolName == s.requests[id].toolName then Some(decision) else before
        case ToolPath =>
          if toolName == s.requests[id].toolName && Below(expand, toolName, input, pathPrefix) then Some(decision) else before
  {
    AnswerDecides(expand, s.cache, Rule(s.requests[id].toolName, decision, scope, pathPrefix), toolName, input);
    hide Check, Below, Resolved;
  }

  /** The user allows everything as the time runs out: the waiter denies, later calls are allowed. */
  lemma AllowedButDenied(expand: Expand, id: string, toolName: string, input: Input)
    ensures
      var s := DeskRun([Ask(id, toolName), Answer(id, Allow, AllSession, None), Wake(id, true)]);
      id in s.told && s.told[id] == Deny && Check(expand, s.cache, toolName, input) == Some(Allow)
  {
    var one := [Ask(id, toolName)];
    var two := one + [Answer(id, Allow, AllSession, None)];
    assert DeskRun(one) == DeskStep(NO_REQUESTS, one[0]) by {
      assert Init(one) == [];
    }
    DeskRunMore(one, Answer(id, Allow, AllSession, None));
    DeskRunMore(two, Wake(id, true));
    hide DeskRun;
    assert two + [Wake(id, true)] == [Ask(id, toolName), Answer(id, Allow, AllSession, None), Wake(id, true)];
  }

  // ---- The manager ---------------------------------------------------------------------------

  lemma OneUpdated(a: map<string, Request>, b: map<string, Request>, id: string, r: Request)
    requires b.Keys == a.Keys + {id} && b[id] == r && forall x :: x in a && x != id ==> b[x] == a[x]
    ensures b == a[id := r]
  {
  }

  lemma AllCancelled(s: Desk, t: Desk)
    requires t.requests.Keys == s.requests.Keys && t == s.(requests := t.requests, pending := {})
    requires forall id :: id in s.requests ==>
      t.requests[id] == if id in s.pending then Cancelled(s.requests[id]) else s.requests[id]
    ensures t == DeskStep(s, CancelAll)
  {
    hide Cancelled;
  }

  /** The waiter and the manager share this object. */
  class PendingPermission {
    const requestId: string
    const toolName: string
    const toolInput: Input
    var decision: Option<Decision>
    var scope: Scope
    var signalled: bool
    var timedOut: bool

    constructor (requestId: string, toolName: string, toolInput: Input)
      ensures this.requestId == requestId && this.toolName == toolName && this.toolInput == toolInput
      ensures Now() == Request(toolName, None, Once, false, false)
    {
      this.requestId, this.toolName, this.toolInput := requestId, toolName, toolInput;
      decision, scope, signalled, timedOut := None, Once, false, false;
    }

    ghost function Now(): Request
      reads this
    {
      Request(toolName, decision, scope, signalled, timedOut)
    }

    /** Denied unless answered, and signalled. */
    method Deny()
      modifies this
      ensures Now() == Cancelled(old(Now()))
    {
      if decision.None? {
        decision, timedOut := Some(Decision.Deny), true;
      }
      signalled := true;
    }
  }

  class PermissionManager {
    const expand: Expand
    var rules: seq<Rule>
    var pending: map<string, PendingPermission>
    var blanketAllow: bool
    var blanketDeny: bool
    ghost var requests: map<string, PendingPermission>
    ghost var told: map<string, Decision>
    ghost var left: set<string>

    /** Each request is an object of its own, and the registered ones are among them. */
    static ghost predicate Links(pending: map<string, PendingPermission>, requests: map<string, PendingPermission>) {
      && (forall id :: id in requests ==> requests[id].requestId == id)
      && (forall id :: id in pending ==> id in requests && requests[id] == pending[id])
    }

    ghost predicate Valid()
      reads this
    {
      Links(pending, requests)
    }

    ghost function Cache(): State
      reads this
    {
      State(rules, blanketAllow, blanketDeny)
    }

    ghost function Now(): Desk
      reads this, requests.Values
    {
      Desk(Cache(), map id | id in requests :: requests[id].Now(), pending.Keys, told, left)
    }

    constructor (expand: Expand)
      ensures Valid() && Now() == NO_REQUESTS && this.expand == expand
    {
      this.expand := expand;
      rules, pending, blanketAllow, blanketDeny := [], map[], false, false;
      requests, told, left := map[], map[], {};
    }

    method CheckCached(toolName: string, input: Input) returns (decision: Option<Decision>)
      ensures decision == Check(expand, Cache(), toolName, input)
    {
      if blanketAllow {
        return Some(Allow);
      }
      if blanketDeny {
        return Some(Deny);
      }
      var i := |rules|;
      assert rules[..i] == rules;
      while i > 0
        invariant 0 <= i <= |rules|
        invariant Newest(expand, rules[..i], toolName, input) == Newest(expand, rules, toolName, input)
      {
        i := i - 1;
        var rule := rules[i];
        assert rules[..i + 1][..i] == rules[..i];
        if rule.scope.ToolSession? && rule.toolName == toolName {
          return Some(rule.decision);
        }
        if rule.scope.ToolPath? && rule.toolName == toolName {
          var path := ExtractPath(toolName, input);
          if path != "" && rule.pathPrefix.Some? && rule.pathPrefix.value != ""
             && PathWithin(expand(path), expand(rule.pathPrefix.value)) {
            return Some(rule.decision);
          }
        }
      }
      decision := None;
    }

    /** The caller passes a newly generated id. */
    method CreateRequest(requestId: string, toolName: string, toolInput: Input) returns (p: PendingPermission)
      requires Valid() && requestId !in requests
      modifies this`pending, this`requests
      ensures Valid() && fresh(p) && requests == old(requests)[requestId := p]
      ensures Now() == DeskStep(old(Now()), Ask(requestId, toolName))
    {
      p := new PendingPermission(requestId, toolName, toolInput);
      pending := pending[requestId := p];
      requests := requests[requestId := p];
      OneUpdated(old(Now()).requests, Now().requests, requestId, p.Now());
    }

    /** Stores the rule when the scope is broader than once. */
    method StoreRule(r: Rule)
      modifies this`rules, this`blanketAllow, this`blanketDeny
      ensures Cache() == Resolved(old(Cache()), r)
    {
      if r.scope.AllSession? {
        if r.decision.Allow? {
          blanketAllow := true;
        } else {
          blanketDeny := true;
        }
      } else if !r.scope.Once? {
        rules := rules + [r];
      }
    }

    /** The request stays registered until its waiter wakes, so a second answer is taken as well. */
    method ResolveRequest(requestId: string, decision: Decision, scope: Scope, pathPrefix: Option<string>)
      returns (found: bool)
      requires Valid()
      modifies this`rules, this`blanketAllow, this`blanketDeny, pending.Values
      ensures Valid() && found == (requestId in pending)
      ensures Now() == DeskStep(old(Now()), Answer(requestId, decision, scope, pathPrefix))
    {
      if requestId !in pending {
        return false;
      }
      var p := pending[requestId];
      StoreRule(Rule(p.toolName, decision, scope, pathPrefix));
      p.decision, p.scope := Some(decision), scope;
      p.signalled := true;
      found := true;
      hide Resolved;
      assert forall id :: id in requests && id != requestId ==> requests[id] != p;
      assert p.Now() == Answered(old(p.Now()), decision, scope);
      OneUpdated(old(Now()).requests, Now().requests, requestId, p.Now());
    }

    /** The waiter, which holds `p`, is woken by its signal or by its timeout. */
    method FinishWait(p: PendingPermission, timedOut: bool) returns (decision: Decision)
      requires Valid() && p.requestId in requests && requests[p.requestId] == p
      requires CanWake(Now(), p.requestId, timedOut)
      modifies this`pending, this`told, p
      ensures Valid() && p.requestId in told && told[p.requestId] == decision
      ensures Now() == DeskStep(old(Now()), Wake(p.requestId, timedOut))
    {
      if timedOut {
        p.timedOut, p.decision := true, Some(Deny);
      }
      pending := pending - {p.requestId};
      decision := if p.decision.Some? then p.decision.value else Deny;
      told := told[p.requestId := decision];
      OneUpdated(old(Now()).requests, Now().requests, p.requestId, p.Now());
    }

    /** Denies the registered requests without an answer and wakes all their waiters. */
    method DenyPending()
      requires Valid()
      modifies pending.Values
      ensures forall id :: id in requests && id !in pending ==> requests[id].Now() == old(requests[id].Now())
      ensures forall id :: id in pending ==> requests[id].Now() == Cancelled(old(requests[id].Now()))
    {
      hide Cancelled;
      var ids := pending.Keys;
      while ids != {}
        invariant ids <= pending.Keys
        invariant forall id :: id in requests && (id in ids || id !in pending) ==>
          requests[id].Now() == old(requests[id].Now())
        invariant forall id :: id in pending && id !in ids ==> requests[id].Now() == Cancelled(old(requests[id].Now()))
      {
        var id :| id in ids;
        pending[id].Deny();
        ids := ids - {id};
      }
    }

    method CancelAllPending()
      requires Valid()
      modifies this`pending, pending.Values
      ensures Valid() && Now() == DeskStep(old(Now()), CancelAll)
    {
      hide Cancelled, DeskStep;
      DenyPending();
      pending := map[];
      AllCancelled(old(Now()), Now());
    }

    method GetRulesSnapshot() returns (snapshot: seq<Rule>)
      ensures snapshot == Snapshot(Cache())
    {
      snapshot := rules;
      if blanketAllow {
        snapshot := snapshot + [Rule("*", Allow, AllSession, None)];
      } else if blanketDeny {
        snapshot := snapshot + [Rule("*", Deny, AllSession, None)];
      }
    }

    method RestoreRules(snapshot: seq<Rule>)
      modifies this`rules, this`blanketAllow, this`blanketDeny
      ensures Cache() == RestoreAll(old(Cache()), snapshot)
    {
      for i := 0 to |snapshot|
        invariant Cache() == RestoreAll(old(Cache()), snapshot[..i])
      {
        var r := snapshot[i];
        assert snapshot[..i + 1][..i] == snapshot[..i];
        if r.toolName == "*" && r.scope.AllSession? {
          if r.decision.Allow? {
            blanketAllow := true;
          } else {
            blanketDeny := true;
          }
        } else {
          rules := rules + [r];
        }
      }
      assert snapshot[..|snapshot|] == snapshot;
    }
  }
}
