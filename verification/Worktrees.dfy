// src/core/cwd_tracking.py: which worktree a directory belongs to, and which one a set of
// touched files points at.
//
// The loops are proved equal to a running best and to a vote.
module Worktrees {
  import opened Collections
  import opened Paths

  datatype Worktree = Worktree(repoPath: string, path: string, branch: string, base: string)

  // ---- Containment ---------------------------------------------------------------------------

  predicate EndsWithSlash(s: string) {
    s != "" && s[|s| - 1] == '/'
  }

  function Anchor(wtPath: string): string {
    if EndsWithSlash(wtPath) then wtPath else wtPath + "/"
  }

  /** The string test of the resolver, on normalised paths. */
  predicate Contains(wt: Worktree, cwd: string) {
    NormPath(cwd) == NormPath(wt.path) || StartsWith(NormPath(cwd), Anchor(NormPath(wt.path)))
  }

  function Depth(wt: Worktree): nat {
    |NormPath(wt.path)|
  }

  /** For absolute paths: the worktree's components lead the directory's. */
  lemma ContainsIsPrefix(wt: Worktree, cwd: string)
    requires SingleRoot(cwd) && SingleRoot(wt.path)
    ensures Contains(wt, cwd) <==> Parse(wt.path).comps <= Parse(cwd).comps
  {
    var p, q := Parse(cwd), Parse(wt.path);
    ParseSettles(cwd);
    ParseSettles(wt.path);
    RenderStarts(p);
    RenderStarts(q);
    assert Slashes(1) == "/";
    if q.comps == [] {
      assert Render(q) == "/";
    } else {
      PrefixedIsDeeper(p, q);
      LastIsNoSlash(q);
      hide Parse;
      if Render(p) == Render(q) {
        RenderInjective(p, q);
      }
      assert q.comps <= p.comps && |q.comps| == |p.comps| ==> q.comps == p.comps;
    }
  }

  lemma LastIsNoSlash(q: Path)
    requires q.comps != [] && forall c :: c in q.comps ==> Clean(c)
    ensures !EndsWithSlash(Render(q))
  {
    JoinEnds(q.comps);
  }

  // ---- resolve_worktree_for_cwd -------------------------------------------------------------

  /** The index of the first deepest containing worktree. */
  function Best(worktrees: seq<Worktree>, cwd: string): (b: Option<nat>)
    ensures b.Some? ==> b.value < |worktrees|
  {
    if worktrees == [] then None
    else
      var n := |worktrees| - 1;
      var before := Best(worktrees[..n], cwd);
      if Contains(worktrees[n], cwd) && (before.None? || Depth(worktrees[n]) > Depth(worktrees[before.value]))
      then Some(n) else before
  }

  lemma BestStep(worktrees: seq<Worktree>, i: nat, cwd: string)
    requires i < |worktrees|
    ensures
      var before := Best(worktrees[..i], cwd);
      Best(worktrees[..i + 1], cwd) ==
        if Contains(worktrees[i], cwd) && (before.None? || Depth(worktrees[i]) > Depth(worktrees[before.value]))
        then Some(i) else before
  {
    assert worktrees[..i + 1][..i] == worktrees[..i];
  }

  predicate IsBest(worktrees: seq<Worktree>, cwd: string, b: nat) {
    && b < |worktrees| && Contains(worktrees[b], cwd)
    && forall i :: 0 <= i < |worktrees| && Contains(worktrees[i], cwd) ==>
         Depth(worktrees[i]) <= Depth(worktrees[b]) && (i < b ==> Depth(worktrees[i]) < Depth(worktrees[b]))
  }

  lemma {:induction false} BestMeans(worktrees: seq<Worktree>, cwd: string)
    ensures Best(worktrees, cwd).Some? ==> IsBest(worktrees, cwd, Best(worktrees, cwd).value)
    ensures Best(worktrees, cwd).None? <==> forall i :: 0 <= i < |worktrees| ==> !Contains(worktrees[i], cwd)
  {
    hide Contains, Depth;
    if worktrees != [] {
      var init := worktrees[..|worktrees| - 1];
      BestMeans(init, cwd);
      assert worktrees == init + [worktrees[|worktrees| - 1]];
    }
  }

  function Resolve(cwd: string, repoPath: string, worktrees: seq<Worktree>): Option<Worktree> {
    if cwd == "" || repoPath == "" then None
    else
      match Best(worktrees, cwd)
      case None => None
      case Some(b) => Some(worktrees[b])
  }

  /** `worktrees` is the listing of `repoPath`. */
  method ResolveWorktreeForCwd(cwd: string, repoPath: string, worktrees: seq<Worktree>) returns (best: Option<Worktree>)
    ensures best == Resolve(cwd, repoPath, worktrees)
  {
    best := None;
    if cwd == "" || repoPath == "" {
      return;
    }
    var normCwd := NormPath(cwd);
    var bestLen := -1;
    for i := 0 to |worktrees|
      invariant bestLen == if best.None? then -1 else Depth(best.value)
      invariant best == match Best(worktrees[..i], cwd) case None => None case Some(b) => Some(worktrees[b])
    {
      var wt := worktrees[i];
      var wtPath := NormPath(wt.path);
      var anchor := if EndsWithSlash(wtPath) then wtPath else wtPath + "/";
      var contains := normCwd == wtPath || StartsWith(normCwd, anchor);
      assert contains == Contains(wt, cwd) && |wtPath| == Depth(wt);
      hide Contains, Depth, NormPath, StartsWith, EndsWithSlash;
      BestStep(worktrees, i, cwd);
      if contains && |wtPath| > bestLen {
        best := Some(worktrees[i]);
        bestLen := |wtPath|;
      }
    }
    assert worktrees[..|worktrees|] == worktrees;
    hide Best;
  }

  // ---- The deepest worktree wins ---------------------------------------------------------------

  lemma {:induction false} JoinGrows(a: seq<string>, b: seq<string>)
    requires a < b && forall c :: c in b ==> c != ""
    ensures |Join(a)| < |Join(b)|
  {
    assert b[0] in b;
    if |a| > 1 {
      assert a[1..] < b[1..] && a[0] == b[0];
      assert forall c :: c in b[1..] ==> c in b;
      JoinGrows(a[1..], b[1..]);
    } else if |a| == 1 {
      assert a[0] == b[0];
    } else if |b| > 1 {
      assert Join(b) == b[0] + "/" + Join(b[1..]);
    }
  }

  lemma DeeperIsLonger(p: Path, q: Path)
    requires p.slashes == 1 && q.slashes == 1 && p.comps < q.comps && forall c :: c in q.comps ==> c != ""
    ensures |Render(p)| < |Render(q)|
  {
    JoinGrows(p.comps, q.comps);
    assert Slashes(1) == "/";
  }

  /**
   * Among absolute worktrees containing the directory, each one's path is an ancestor of
   * the resolved one's: nested worktrees resolve to the innermost.
   */
  lemma ResolvedIsInnermost(worktrees: seq<Worktree>, cwd: string, repoPath: string, other: nat)
    requires cwd != "" && repoPath != "" && SingleRoot(cwd)
    requires forall i :: 0 <= i < |worktrees| ==> SingleRoot(worktrees[i].path)
    requires other < |worktrees| && Contains(worktrees[other], cwd)
    ensures Resolve(cwd, repoPath, worktrees).Some?
    ensures
      var best := Resolve(cwd, repoPath, worktrees).value;
      Parse(worktrees[other].path).comps <= Parse(best.path).comps <= Parse(cwd).comps
  {
    BestMeans(worktrees, cwd);
    var b := Best(worktrees, cwd).value;
    var p, q := Parse(worktrees[other].path), Parse(worktrees[b].path);
    ContainsIsPrefix(worktrees[other], cwd);
    ContainsIsPrefix(worktrees[b], cwd);
    ParseSettles(worktrees[other].path);
    assert p.slashes == 1 && q.slashes == 1;
    assert Depth(worktrees[other]) == |Render(p)| && Depth(worktrees[b]) == |Render(q)|;
    hide Parse, Best, Contains, Depth;
    if !(p.comps <= q.comps) {
      PrefixesNest(q.comps, p.comps, Parse(cwd).comps);
      assert forall c :: c in p.comps ==> Clean(c);
      DeeperIsLonger(q, p);
    }
  }

  lemma PrefixesNest(a: seq<string>, b: seq<string>, whole: seq<string>)
    requires a <= whole && b <= whole
    ensures a < b || b <= a
  {
  }

  /** A directory resolves exactly if it and the repository are named and some worktree contains it. */
  lemma ResolvesIff(cwd: string, repoPath: string, worktrees: seq<Worktree>)
    ensures Resolve(cwd, repoPath, worktrees).Some? <==>
      cwd != "" && repoPath != "" && exists i :: 0 <= i < |worktrees| && Contains(worktrees[i], cwd)
  {
    BestMeans(worktrees, cwd);
    hide Best, Contains;
  }

  // ---- infer_cwd_from_tool_paths -------------------------------------------------------------

  function Absolute(base: string, path: string): string {
    if IsAbs(path) then path else if EndsWithSlash(base) then base + path else base + "/" + path
  }

  lemma {:induction false} CollapseContinues(a: seq<string>, b: seq<string>, rooted: bool)
    requires forall c :: c in a ==> NoSlash(c)
    ensures Collapse(a + b, rooted) == Collapse(Collapse(a, rooted) + b, rooted)
  {
    if b == [] {
      CollapseSettles(a, rooted);
      SettledIsFixed(Collapse(a, rooted), rooted);
      assert a + b == a && Collapse(a, rooted) + b == Collapse(a, rooted);
    } else {
      var init := b[..|b| - 1];
      CollapseContinues(a, init, rooted);
      assert (a + b)[..|a + b| - 1] == a + init;
      assert (Collapse(a, rooted) + b)[..|Collapse(a, rooted) + b| - 1] == Collapse(a, rooted) + init;
    }
  }

  lemma JoinedSplits(base: string, path: string)
    requires IsAbs(base) && !IsAbs(path)
    ensures Collapse(Split(Absolute(base, path)), true) == Collapse(Split(base) + Split(path), true)
  {
    if EndsWithSlash(base) {
      var stem := base[..|base| - 1];
      assert base == stem + "/" + "" && base + path == stem + "/" + path;
      SplitAtSlash(stem, "");
      SplitAtSlash(stem, path);
      SplitHasNoSlash(stem);
      SplitHasNoSlash(base);
      CollapseContinues(Split(stem), Split(path), true);
      CollapseContinues(Split(base), Split(path), true);
      assert Split(base)[..|Split(base)| - 1] == Split(stem);
      hide Split;
    } else {
      SplitAtSlash(base, path);
    }
  }

  lemma NamesStaySettled(comps: seq<string>, names: seq<string>)
    requires Settled(comps, true) && forall c :: c in names ==> Clean(c) && c != ".."
    ensures Settled(comps + names, true)
  {
    hide Clean;
    assert forall c :: c in comps + names ==> c in comps || c in names;
  }

  /**
   * A relative path is followed from the base, component by component; one of plain names
   * is that much below it. The base does not matter for an absolute path.
   */
  lemma RelativeFromBase(base: string, path: string)
    requires IsAbs(base)
    ensures IsAbs(path) ==> Absolute(base, path) == path
    ensures !IsAbs(path) ==> Parse(Absolute(base, path)).comps == Collapse(Parse(base).comps + Split(path), true)
    ensures !IsAbs(path) && (forall c :: c in Split(path) ==> Clean(c) && c != "..") ==>
      Parse(Absolute(base, path)).comps == Parse(base).comps + Split(path)
  {
    if !IsAbs(path) {
      JoinedSplits(base, path);
      SplitHasNoSlash(base);
      CollapseContinues(Split(base), Split(path), true);
      assert IsAbs(Absolute(base, path));
      ParseSettles(base);
      hide Split, Collapse, Absolute, Settled;
      if forall c :: c in Split(path) ==> Clean(c) && c != ".." {
        NamesStaySettled(Parse(base).comps, Split(path));
        SettledIsFixed(Parse(base).comps + Split(path), true);
      }
    }
  }

  /** The worktree path one touched file votes for. */
  function Ballot(raw: string, expand: string -> string, base: string, repoPath: string, worktrees: seq<Worktree>): Option<string> {
    match Resolve(NormPath(Absolute(base, expand(raw))), repoPath, worktrees)
    case None => None
    case Some(wt) => Some(wt.path)
  }

  function Ballots(paths: seq<string>, expand: string -> string, base: string, repoPath: string, worktrees: seq<Worktree>): seq<string> {
    if paths == [] then []
    else
      Ballots(paths[..|paths| - 1], expand, base, repoPath, worktrees)
      + match Ballot(paths[|paths| - 1], expand, base, repoPath, worktrees)
        case None => []
        case Some(w) => [w]
  }

  /** The candidates, by first vote. */
  function Candidates(ballots: seq<string>): (r: seq<string>)
    ensures Distinct(r)
    ensures forall w :: w in r <==> w in ballots
  {
    if ballots == [] then []
    else
      var init, last := ballots[..|ballots| - 1], ballots[|ballots| - 1];
      assert ballots == init + [last];
      if last in Candidates(init) then Candidates(init) else Candidates(init) + [last]
  }

  /** More votes, or as many for a longer path. */
  predicate Beats(ballots: seq<string>, w: string, v: string) {
    || multiset(ballots)[w] > multiset(ballots)[v]
    || (multiset(ballots)[w] == multiset(ballots)[v] && |w| > |v|)
  }

  /** The winner beats every earlier candidate and is beaten by no later one. */
  predicate Wins(ballots: seq<string>, k: nat) {
    var c := Candidates(ballots);
    && k < |c|
    && (forall j :: 0 <= j < k ==> Beats(ballots, c[k], c[j]))
    && (forall j :: k < j < |c| ==> !Beats(ballots, c[j], c[k]))
  }

  lemma WinnerIsUnique(ballots: seq<string>, k: nat, l: nat)
    requires Wins(ballots, k) && l != k
    ensures !Wins(ballots, l)
  {
    var c := Candidates(ballots);
    hide Candidates, Beats;
    if k < l < |c| {
      assert !Beats(ballots, c[l], c[k]);
    } else if l < k {
      assert Beats(ballots, c[k], c[l]);
    }
  }

  /** The dictionary of votes: keys in insertion order, and counts. */
  ghost predicate Counted(order: seq<string>, counts: map<string, nat>, ballots: seq<string>) {
    && order == Candidates(ballots)
    && (forall w :: w in counts <==> w in ballots)
    && (forall w :: w in ballots ==> counts[w] == multiset(ballots)[w])
  }

  lemma NothingCounted()
    ensures Counted([], map[], [])
  {
  }

  lemma NoCandidates(order: seq<string>, counts: map<string, nat>, ballots: seq<string>)
    requires Counted(order, counts, ballots)
    ensures order == [] <==> ballots == []
  {
    if ballots != [] {
      assert ballots[0] in order;
    }
  }

  lemma CountOne(order: seq<string>, counts: map<string, nat>, ballots: seq<string>, w: string)
    requires Counted(order, counts, ballots)
    ensures Counted(if w in counts then order else order + [w],
                    counts[w := (if w in counts then counts[w] else 0) + 1], ballots + [w])
  {
    CandidatesStep(ballots, w);
    hide Candidates;
    assert multiset(ballots + [w]) == multiset(ballots) + multiset{w};
    assert w !in ballots ==> multiset(ballots)[w] == 0;
  }

  lemma CandidatesStep(ballots: seq<string>, w: string)
    ensures Candidates(ballots + [w]) == if w in ballots then Candidates(ballots) else Candidates(ballots) + [w]
  {
    assert (ballots + [w])[..|ballots + [w]| - 1] == ballots;
  }

  lemma BallotsStep(paths: seq<string>, i: nat, expand: string -> string, base: string, repoPath: string, worktrees: seq<Worktree>)
    requires i < |paths|
    ensures
      var cast := Ballot(paths[i], expand, base, repoPath, worktrees);
      Ballots(paths[..i + 1], expand, base, repoPath, worktrees) ==
        Ballots(paths[..i], expand, base, repoPath, worktrees) + if cast.None? then [] else [cast.value]
  {
    assert paths[..i + 1][..i] == paths[..i];
  }

  /** `base` is the agent's start directory, or the worker's own when that is unset. */
  method InferCwdFromToolPaths(paths: seq<string>, expand: string -> string, base: string,
                               repoPath: string, worktrees: seq<Worktree>)
    returns (winner: Option<string>)
    ensures
      var ballots := if repoPath == "" then [] else Ballots(paths, expand, base, repoPath, worktrees);
      if ballots == [] then winner == None
      else exists k: nat :: Wins(ballots, k) && winner == Some(Candidates(ballots)[k])
  {
    if paths == [] || repoPath == "" {
      return None;
    }
    hide Counted, Resolve, NormPath, Absolute, Ballots, Candidates, Wins;
    var order: seq<string>, counts: map<string, nat> := [], map[];
    ghost var ballots := [];
    NothingCounted();
    for i := 0 to |paths|
      invariant ballots == Ballots(paths[..i], expand, base, repoPath, worktrees)
      invariant Counted(order, counts, ballots)
    {
      BallotsStep(paths, i, expand, base, repoPath, worktrees);
      var wt := ResolveWorktreeForCwd(NormPath(Absolute(base, expand(paths[i]))), repoPath, worktrees);
      if wt.None? {
        assert ballots + [] == ballots;
        continue;
      }
      CountOne(order, counts, ballots, wt.value.path);
      order, counts := AddVote(order, counts, wt.value.path);
      ballots := ballots + [wt.value.path];
    }
    assert paths[..|paths|] == paths;
    NoCandidates(order, counts, ballots);
    if order == [] {
      return None;
    }
    winner := MostVoted(order, counts, ballots);
  }

  method AddVote(order: seq<string>, counts: map<string, nat>, w: string) returns (order': seq<string>, counts': map<string, nat>)
    ensures order' == if w in counts then order else order + [w]
    ensures counts' == counts[w := (if w in counts then counts[w] else 0) + 1]
  {
    if w in counts {
      return order, counts[w := counts[w] + 1];
    }
    return order + [w], counts[w := 1];
  }

  /** The first maximum by votes, then length. */
  method MostVoted(order: seq<string>, counts: map<string, nat>, ghost ballots: seq<string>) returns (winner: Option<string>)
    requires order != [] && Counted(order, counts, ballots)
    ensures exists k: nat :: Wins(ballots, k) && winner == Some(Candidates(ballots)[k])
  {
    var best := 0;
    for i := 1 to |order|
      invariant best < i
      invariant forall j :: 0 <= j < best ==> Beats(ballots, order[best], order[j])
      invariant forall j :: best < j < i ==> !Beats(ballots, order[j], order[best])
    {
      assert order[i] in ballots && order[best] in ballots;
      if counts[order[i]] > counts[order[best]]
         || (counts[order[i]] == counts[order[best]] && |order[i]| > |order[best]|) {
        best := i;
      }
    }
    assert Wins(ballots, best);
    winner := Some(order[best]);
  }
}
