// src/core/permissions.py: cached permission decisions, their snapshot and restore.
module Permissions {
  // Also the rule list that src/core/prompt_router.py seeds for plan sessions.

  import opened Collections
  import opened Paths

  datatype Decision = Allow | Deny

  datatype Scope = Once | ToolSession | ToolPath | AllSession

  datatype Rule = Rule(toolName: string, decision: Decision, scope: Scope, pathPrefix: Option<string>)

  /** The string-valued arguments of a tool call. */
  type Input = map<string, string>

  /** Home-directory expansion of a path. */
  type Expand = string -> string

  // ---- What a rule covers -----------------------------------------------------------------

  function Lookup(input: Input, key: string): string {
    if key in input then input[key] else ""
  }

  /** The path a tool call is about; the empty string when there is none. */
  function ExtractPath(toolName: string, input: Input): string {
    if toolName == "Read" || toolName == "Glob" || toolName == "Grep" then
      if Lookup(input, "path") != "" then Lookup(input, "path") else Lookup(input, "file_path")
    else if toolName == "Write" || toolName == "Edit" then Lookup(input, "file_path")
    else if toolName == "NotebookEdit" then Lookup(input, "notebook_path")
    else ""
  }

  predicate Covers(expand: Expand, r: Rule, toolName: string, input: Input) {
    || (r.scope.ToolSession? && r.toolName == toolName)
    || (r.scope.ToolPath? && r.toolName == toolName
        && ExtractPath(toolName, input) != "" && r.pathPrefix.Some? && r.pathPrefix.value != ""
        && PathWithin(expand(ExtractPath(toolName, input)), expand(r.pathPrefix.value)))
  }

  /** The decision of the newest covering rule. */
  function Newest(expand: Expand, rules: seq<Rule>, toolName: string, input: Input): Option<Decision> {
    if rules == [] then None
    else if Covers(expand, rules[|rules| - 1], toolName, input) then Some(rules[|rules| - 1].decision)
    else Newest(expand, rules[..|rules| - 1], toolName, input)
  }

  predicate IsNewest(expand: Expand, rules: seq<Rule>, toolName: string, input: Input, i: nat) {
    && i < |rules| && Covers(expand, rules[i], toolName, input)
    && forall j :: i < j < |rules| ==> !Covers(expand, rules[j], toolName, input)
  }

  /** The decision is that of the covering rule no later covering rule follows. */
  lemma {:induction false} NewestMeans(expand: Expand, rules: seq<Rule>, toolName: string, input: Input, i: nat)
    ensures IsNewest(expand, rules, toolName, input, i) ==> Newest(expand, rules, toolName, input) == Some(rules[i].decision)
    ensures Newest(expand, rules, toolName, input).None? <==>
      forall k :: 0 <= k < |rules| ==> !Covers(expand, rules[k], toolName, input)
  {
    hide Covers;
    if rules != [] {
      var n := |rules| - 1;
      var init := rules[..n];
      NewestMeans(expand, init, toolName, input, i);
      assert forall k :: 0 <= k < n ==> rules[k] == init[k];
      assert Covers(expand, rules[n], toolName, input) && IsNewest(expand, rules, toolName, input, i) ==> i == n;
      assert !Covers(expand, rules[n], toolName, input) && IsNewest(expand, rules, toolName, input, i)
        ==> i < n && IsNewest(expand, init, toolName, input, i);
    }
  }

  // ---- The state of a manager ----------------------------------------------------------------

  datatype State = State(rules: seq<Rule>, blanketAllow: bool, blanketDeny: bool)

  const NO_RULES := State([], false, false)

  function Check(expand: Expand, s: State, toolName: string, input: Input): Option<Decision> {
    if s.blanketAllow then Some(Allow)
    else if s.blanketDeny then Some(Deny)
    else Newest(expand, s.rules, toolName, input)
  }

  function Blanket(s: State, decision: Decision): State {
    if decision.Allow? then s.(blanketAllow := true) else s.(blanketDeny := true)
  }

  /** A user's answer to a request for `r.toolName`. */
  function Resolved(s: State, r: Rule): State {
    match r.scope
    case AllSession => Blanket(s, r.decision)
    case Once => s
    case _ => s.(rules := s.rules + [r])
  }

  function Restored(s: State, r: Rule): State {
    if r.toolName == "*" && r.scope.AllSession? then Blanket(s, r.decision) else s.(rules := s.rules + [r])
  }

  function RestoreAll(s: State, snapshot: seq<Rule>): State {
    if snapshot == [] then s else Restored(RestoreAll(s, snapshot[..|snapshot| - 1]), snapshot[|snapshot| - 1])
  }

  function Snapshot(s: State): seq<Rule> {
    s.rules
    + (if s.blanketAllow then [Rule("*", Allow, AllSession, None)]
       else if s.blanketDeny then [Rule("*", Deny, AllSession, None)]
       else [])
  }

  datatype Op = Resolve(rule: Rule) | Restore(snapshot: seq<Rule>)

  function Step(s: State, op: Op): State {
    match op
    case Resolve(rule) => Resolved(s, rule)
    case Restore(snapshot) => RestoreAll(s, snapshot)
  }

  function Run(s: State, ops: seq<Op>): State
    decreases ops
  {
    if ops == [] then s else Step(Run(s, ops[..|ops| - 1]), ops[|ops| - 1])
  }

  // ---- What the cache answers ------------------------------------------------------------------

  /** The rules a history of answers leaves, and whether it ever decided for the whole session. */
  predicate Narrow(r: Rule) {
    r.scope.ToolSession? || r.scope.ToolPath?
  }

  predicate ForAll(r: Rule, decision: Decision) {
    r.scope.AllSession? && r.decision == decision
  }

  function ResolveOf(r: Rule): Op {
    Resolve(r)
  }

  lemma {:induction false} RunOfAnswers(answers: seq<Rule>)
    ensures
      var s := Run(NO_RULES, Map(answers, ResolveOf));
      && s.rules == Filter(answers, Narrow)
      && (s.blanketAllow <==> exists i :: 0 <= i < |answers| && ForAll(answers[i], Allow))
      && (s.blanketDeny <==> exists i :: 0 <= i < |answers| && ForAll(answers[i], Deny))
  {
    if answers != [] {
      var init, last := answers[..|answers| - 1], answers[|answers| - 1];
      RunOfAnswers(init);
      var ops := Map(answers, ResolveOf);
      assert ops[..|ops| - 1] == Map(init, ResolveOf);
      assert Run(NO_RULES, ops) == Resolved(Run(NO_RULES, Map(init, ResolveOf)), last);
      hide Run, Map;
      assert answers == init + [last];
      AnyOfLast(init, last, Allow);
      AnyOfLast(init, last, Deny);
    }
  }

  lemma AnyOfLast(init: seq<Rule>, last: Rule, decision: Decision)
    ensures (exists i :: 0 <= i < |init + [last]| && ForAll((init + [last])[i], decision))
       <==> ForAll(last, decision) || exists i :: 0 <= i < |init| && ForAll(init[i], decision)
  {
    if ForAll(last, decision) {
      assert (init + [last])[|init|] == last;
    }
    if i :| 0 <= i < |init| && ForAll(init[i], decision) {
      assert (init + [last])[i] == init[i];
    }
  }

  /**
   * After any history of the user's answers: an "allow everything" ever given wins, then a
   * "deny everything" ever given, whatever came later; otherwise the newest narrower
   * answer covering the call decides, and without one the user is asked.
   */
  lemma CacheAnswers(expand: Expand, answers: seq<Rule>, toolName: string, input: Input)
    ensures
      Check(expand, Run(NO_RULES, Map(answers, ResolveOf)), toolName, input) ==
        if exists i :: 0 <= i < |answers| && ForAll(answers[i], Allow) then Some(Allow)
        else if exists i :: 0 <= i < |answers| && ForAll(answers[i], Deny) then Some(Deny)
        else Newest(expand, Filter(answers, Narrow), toolName, input)
  {
    RunOfAnswers(answers);
  }

  /**
   * A last answer for the whole session takes effect exactly unless it denies everything
   * after everything was allowed.
   */
  lemma LastBlanketWinsIff(expand: Expand, answers: seq<Rule>, last: Rule, toolName: string, input: Input)
    requires last.scope.AllSession?
    ensures
      Check(expand, Run(NO_RULES, Map(answers + [last], ResolveOf)), toolName, input) == Some(last.decision) <==>
        !(last.decision.Deny? && exists i :: 0 <= i < |answers| && ForAll(answers[i], Allow))
  {
    RunOfAnswers(answers + [last]);
    AnyOfLast(answers, last, Allow);
    AnyOfLast(answers, last, Deny);
    hide Run, Map, Filter;
  }

  // ---- What one answer decides -----------------------------------------------------------------

  /** The arguments that name a tool's path, the first that is given. */
  function PathKeys(toolName: string): seq<string> {
    match toolName
    case "Read" => ["path", "file_path"]
    case "Glob" => ["path", "file_path"]
    case "Grep" => ["path", "file_path"]
    case "Write" => ["file_path"]
    case "Edit" => ["file_path"]
    case "NotebookEdit" => ["notebook_path"]
    case _ => []
  }

  function FirstGiven(input: Input, keys: seq<string>): string {
    if keys == [] then ""
    else if keys[0] in input && input[keys[0]] != "" then input[keys[0]]
    else FirstGiven(input, keys[1..])
  }

  lemma PathOfCall(toolName: string, input: Input)
    ensures ExtractPath(toolName, input) == FirstGiven(input, PathKeys(toolName))
  {
    var two, one, notebook := ["path", "file_path"], ["file_path"], ["notebook_path"];
    assert two[1..] == ["file_path"] && one[1..] == [] && notebook[1..] == [];
    assert FirstGiven(input, []) == "";
    assert FirstGiven(input, one) == if "file_path" in input && input["file_path"] != "" then input["file_path"] else "";
    assert FirstGiven(input, notebook) == if "notebook_path" in input && input["notebook_path"] != "" then input["notebook_path"] else "";
    assert FirstGiven(input, two) == if "path" in input && input["path"] != "" then input["path"] else FirstGiven(input, one);
  }

  /** The path the call names is the prefix or below it, component by component. */
  predicate Below(expand: Expand, toolName: string, input: Input, pathPrefix: Option<string>) {
    var path := FirstGiven(input, PathKeys(toolName));
    && path != "" && pathPrefix.Some? && pathPrefix.value != ""
    && Inside(ParseOrDot(expand(path)), ParseOrDot(expand(pathPrefix.value)))
  }

  /**
   * What the answer `r`, given last, decides of a call: for the whole session, everything,
   * but for a denial after everything was allowed; for the session and one tool, every call
   * of it; for a path, the calls of its tool at or below the path; given once, and about
   * calls of other tools, nothing.
   */
  lemma AnswerDecides(expand: Expand, s: State, r: Rule, toolName: string, input: Input)
    ensures
      var before, after := Check(expand, s, toolName, input), Check(expand, Resolved(s, r), toolName, input);
      && (r.scope.AllSession? ==> after == if s.blanketAllow then Some(Allow) else Some(r.decision))
      && (r.scope.Once? ==> after == before)
      && (!r.scope.AllSession? && (toolName != r.toolName || s.blanketAllow || s.blanketDeny) ==> after == before)
      && (!s.blanketAllow && !s.blanketDeny && toolName == r.toolName ==>
            && (r.scope.ToolSession? ==> after == Some(r.decision))
            && (r.scope.ToolPath? ==>
                  after == if Below(expand, toolName, input, r.pathPrefix) then Some(r.decision) else before))
  {
    PathOfCall(toolName, input);
    if r.pathPrefix.Some? {
      PathWithinIsInside(expand(ExtractPath(toolName, input)), expand(r.pathPrefix.value));
    }
    assert (s.rules + [r])[..|s.rules + [r]| - 1] == s.rules;
    hide PathWithin, Inside, ExtractPath, FirstGiven, PathKeys;
  }

  /** An answer the cached decision can rest on: for the whole session, or for that tool and later calls. */
  predicate Grounds(r: Rule, toolName: string, decision: Decision) {
    && r.decision == decision
    && (r.scope.AllSession? || (r.toolName == toolName && (r.scope.ToolSession? || r.scope.ToolPath?)))
  }

  /** No decision without an answer: a cached one goes back to an answer for everything, or for that tool. */
  lemma {:induction false} DecisionsHaveGrounds(expand: Expand, answers: seq<Rule>, toolName: string, input: Input)
    ensures
      var decision := Check(expand, Run(NO_RULES, Map(answers, ResolveOf)), toolName, input);
      decision.Some? ==> exists i :: 0 <= i < |answers| && Grounds(answers[i], toolName, decision.value)
  {
    if answers != [] {
      var init, last := answers[..|answers| - 1], answers[|answers| - 1];
      var ops := Map(answers, ResolveOf);
      var s := Run(NO_RULES, Map(init, ResolveOf));
      assert ops[..|ops| - 1] == Map(init, ResolveOf) && Run(NO_RULES, ops) == Resolved(s, last);
      DecisionsHaveGrounds(expand, init, toolName, input);
      AnswerDecides(expand, s, last, toolName, input);
      var before, after := Check(expand, s, toolName, input), Check(expand, Resolved(s, last), toolName, input);
      assert s.blanketAllow ==> before == Some(Allow);
      hide Check, Run, Map, Below, Resolved;
      if after.Some? && after == before {
        var i :| 0 <= i < |init| && Grounds(init[i], toolName, before.value);
        assert answers[i] == init[i];
      } else if after.Some? {
        assert Grounds(answers[|answers| - 1], toolName, after.value);
      }
    }
  }

  // ---- Snapshot and restore ------------------------------------------------------------------

  predicate IsBlanketRule(r: Rule) {
    r.toolName == "*" && r.scope.AllSession?
  }

  /** No stored rule is one that restoring would turn into a blanket decision. */
  predicate Inv(s: State) {
    forall i :: 0 <= i < |s.rules| ==> !IsBlanketRule(s.rules[i])
  }

  lemma {:induction false} RestoreAllKeepsInv(s: State, snapshot: seq<Rule>)
    requires Inv(s)
    ensures Inv(RestoreAll(s, snapshot))
  {
    if snapshot != [] {
      RestoreAllKeepsInv(s, snapshot[..|snapshot| - 1]);
    }
  }

  lemma {:induction false} RunKeepsInv(s: State, ops: seq<Op>)
    requires Inv(s)
    ensures Inv(Run(s, ops))
    decreases ops
  {
    if ops != [] {
      RunKeepsInv(s, ops[..|ops| - 1]);
      if ops[|ops| - 1].Restore? {
        RestoreAllKeepsInv(Run(s, ops[..|ops| - 1]), ops[|ops| - 1].snapshot);
      }
    }
  }

  lemma {:induction false} RestoreNarrow(s: State, rules: seq<Rule>)
    requires forall i :: 0 <= i < |rules| ==> !IsBlanketRule(rules[i])
    ensures RestoreAll(s, rules) == s.(rules := s.rules + rules)
  {
    if rules == [] {
      assert s.rules + rules == s.rules;
    } else {
      RestoreNarrow(s, rules[..|rules| - 1]);
      assert s.rules + rules[..|rules| - 1] + [rules[|rules| - 1]] == s.rules + rules;
    }
  }

  lemma RestoreSnapshot(s: State)
    requires Inv(s)
    ensures RestoreAll(NO_RULES, Snapshot(s)) == s.(blanketDeny := !s.blanketAllow && s.blanketDeny)
  {
    RestoreNarrow(NO_RULES, s.rules);
    assert [] + s.rules == s.rules;
    hide Inv;
    if s.blanketAllow {
      RestoreLast(NO_RULES, s.rules, Rule("*", Allow, AllSession, None));
    } else if s.blanketDeny {
      RestoreLast(NO_RULES, s.rules, Rule("*", Deny, AllSession, None));
    } else {
      assert Snapshot(s) == s.rules;
    }
  }

  lemma RestoreLast(s: State, rules: seq<Rule>, r: Rule)
    ensures RestoreAll(s, rules + [r]) == Restored(RestoreAll(s, rules), r)
  {
    assert (rules + [r])[..|rules + [r]| - 1] == rules;
  }

  /** Two managers nobody can tell apart, now or later. */
  predicate SameAnswers(a: State, b: State) {
    a.rules == b.rules && a.blanketAllow == b.blanketAllow && (a.blanketAllow || a.blanketDeny == b.blanketDeny)
  }

  lemma {:induction false} RestoreAllKeepsSame(a: State, b: State, snapshot: seq<Rule>)
    requires SameAnswers(a, b)
    ensures SameAnswers(RestoreAll(a, snapshot), RestoreAll(b, snapshot))
  {
    if snapshot != [] {
      RestoreAllKeepsSame(a, b, snapshot[..|snapshot| - 1]);
    }
  }

  lemma {:induction false} RunKeepsSame(a: State, b: State, ops: seq<Op>)
    requires SameAnswers(a, b)
    ensures SameAnswers(Run(a, ops), Run(b, ops))
    decreases ops
  {
    if ops != [] {
      RunKeepsSame(a, b, ops[..|ops| - 1]);
      if ops[|ops| - 1].Restore? {
        RestoreAllKeepsSame(Run(a, ops[..|ops| - 1]), Run(b, ops[..|ops| - 1]), ops[|ops| - 1].snapshot);
      }
    }
  }

  /**
   * After any history, a manager restored from the snapshot answers every call as the
   * original would, and keeps doing so whatever both are told from then on.
   */
  lemma SnapshotPreservesAnswers(expand: Expand, before: seq<Op>, after: seq<Op>, toolName: string, input: Input)
    ensures
      var s := Run(NO_RULES, before);
      Check(expand, Run(Step(NO_RULES, Restore(Snapshot(s))), after), toolName, input)
        == Check(expand, Run(s, after), toolName, input)
  {
    var s := Run(NO_RULES, before);
    RunKeepsInv(NO_RULES, before);
    RestoreSnapshot(s);
    RunKeepsSame(RestoreAll(NO_RULES, Snapshot(s)), s, after);
  }

  // ---- Plan sessions -----------------------------------------------------------------------------

  function PlanRules(planDir: string): seq<Rule> {
    [ Rule("Bash", Deny, ToolSession, None),
      Rule("Edit", Deny, ToolSession, None),
      Rule("Agent", Deny, ToolSession, None),
      Rule("Write", Deny, ToolSession, None),
      Rule("Write", Allow, ToolPath, Some(planDir)) ]
  }

  function PlanState(planDir: string): State {
    RestoreAll(NO_RULES, PlanRules(planDir))
  }

  lemma PlanStateRules(planDir: string)
    ensures PlanState(planDir) == State(PlanRules(planDir), false, false)
  {
    RestoreNarrow(NO_RULES, PlanRules(planDir));
    assert [] + PlanRules(planDir) == PlanRules(planDir);
  }

  lemma NewestOfPlan(expand: Expand, planDir: string, toolName: string, input: Input)
    ensures
      var rules := PlanRules(planDir);
      Newest(expand, rules, toolName, input) ==
        if Covers(expand, rules[4], toolName, input) then Some(Allow)
        else if toolName == "Write" || toolName == "Agent" || toolName == "Edit" || toolName == "Bash" then Some(Deny)
        else None
  {
    var rules := PlanRules(planDir);
    hide PathWithin, ExtractPath;
    assert Newest(expand, [], toolName, input) == None;
    assert rules[..1][..0] == [] && rules[..2][..1] == rules[..1] && rules[..3][..2] == rules[..2];
    assert rules[..4][..3] == rules[..3];
    assert Newest(expand, rules[..1], toolName, input) == if toolName == "Bash" then Some(Deny) else None;
    assert Newest(expand, rules[..2], toolName, input) ==
      if toolName == "Edit" || toolName == "Bash" then Some(Deny) else None;
    assert Newest(expand, rules[..3], toolName, input) ==
      if toolName == "Agent" || toolName == "Edit" || toolName == "Bash" then Some(Deny) else None;
  }

  /**
   * A plan session writes exactly inside its plan directory, runs no command, edits no
   * file and launches no agent; about every other tool the user is asked.
   */
  lemma PlanSessionDecides(expand: Expand, planDir: string, toolName: string, input: Input)
    requires planDir != ""
    ensures
      Check(expand, PlanState(planDir), toolName, input) ==
        if toolName == "Write" then
          if Lookup(input, "file_path") != "" && PathWithin(expand(Lookup(input, "file_path")), expand(planDir))
          then Some(Allow) else Some(Deny)
        else if toolName == "Bash" || toolName == "Edit" || toolName == "Agent" then Some(Deny)
        else None
  {
    PlanStateRules(planDir);
    NewestOfPlan(expand, planDir, toolName, input);
    hide PathWithin, Newest, PlanState;
  }

  /** For absolute paths without a home prefix: inside by components, so ".." cannot leave. */
  lemma PlanSessionWritesInside(planDir: string, filePath: string)
    requires SingleRoot(planDir) && SingleRoot(filePath)
    ensures
      Check(p => p, PlanState(planDir), "Write", map["file_path" := filePath]) ==
        Some(if Parse(planDir).comps <= Parse(filePath).comps then Allow else Deny)
  {
    PlanSessionDecides(p => p, planDir, "Write", map["file_path" := filePath]);
    AbsolutePathWithin(filePath, planDir);
    hide PathWithin, Check, PlanState, Parse;
  }
}
