// src/core/permissions.py and src/core/cwd_tracking.py: POSIX path normalisation and
// containment, as strings and as lists of components.
//
// Both agree for all strings: that is what makes a prefix test a containment test.
module Paths {
  import opened Collections

  // ---- Strings and components ---------------------------------------------------------

  /** `s.split('/')`. */
  function Split(s: string): (r: seq<string>)
    ensures r != []
  {
    if s == "" then [""]
    else
      var rest := Split(s[1..]);
      if s[0] == '/' then [""] + rest else [[s[0]] + rest[0]] + rest[1..]
  }

  /** `'/'.join(comps)`. */
  function Join(comps: seq<string>): string {
    if comps == [] then "" else if |comps| == 1 then comps[0] else comps[0] + "/" + Join(comps[1..])
  }

  predicate NoSlash(s: string) {
    '/' !in s
  }

  lemma {:induction false} SplitNoSlash(s: string)
    requires NoSlash(s)
    ensures Split(s) == [s]
  {
    if s != "" {
      SplitNoSlash(s[1..]);
      assert [s[0]] + s[1..] == s;
    }
  }

  lemma SplitStep(s: string)
    requires s != ""
    ensures
      var rest := Split(s[1..]);
      Split(s) == if s[0] == '/' then [""] + rest else [[s[0]] + rest[0]] + rest[1..]
  {
  }

  lemma {:induction false} SplitAtSlash(a: string, b: string)
    ensures Split(a + "/" + b) == Split(a) + Split(b)
  {
    var s := a + "/" + b;
    SplitStep(s);
    if a == "" {
      assert s[1..] == b;
    } else {
      SplitStep(a);
      SplitAtSlash(a[1..], b);
      hide Split;
      assert s[0] == a[0] && s[1..] == a[1..] + "/" + b;
      ConcatParts(Split(a[1..]), Split(b));
    }
  }

  lemma ConcatParts(a: seq<string>, b: seq<string>)
    requires a != []
    ensures (a + b)[0] == a[0] && (a + b)[1..] == a[1..] + b
  {
  }

  lemma {:induction false} SplitHasNoSlash(s: string)
    ensures forall c :: c in Split(s) ==> NoSlash(c)
  {
    if s != "" {
      SplitHasNoSlash(s[1..]);
      assert Split(s[1..])[0] in Split(s[1..]);
    }
  }

  lemma {:induction false} SplitJoin(comps: seq<string>)
    requires comps != [] && forall c :: c in comps ==> NoSlash(c)
    ensures Split(Join(comps)) == comps
  {
    SplitNoSlash(comps[0]);
    if |comps| > 1 {
      SplitAtSlash(comps[0], Join(comps[1..]));
      SplitJoin(comps[1..]);
      assert [comps[0]] + comps[1..] == comps;
    }
  }

  lemma {:induction false} JoinAppend(a: seq<string>, b: seq<string>)
    requires a != [] && b != []
    ensures Join(a + b) == Join(a) + "/" + Join(b)
  {
    if |a| == 1 {
      assert (a + b)[1..] == b;
    } else {
      JoinAppend(a[1..], b);
      assert (a + b)[1..] == a[1..] + b;
    }
  }

  // ---- normpath ---------------------------------------------------------------------------

  /** Two initial slashes are kept, any other number counts as at most one. */
  function InitialSlashes(path: string): (k: nat)
    ensures k <= 2
  {
    if |path| == 0 || path[0] != '/' then 0
    else if |path| > 1 && path[1] == '/' && (|path| == 2 || path[2] != '/') then 2
    else 1
  }

  function Push(stack: seq<string>, comp: string, rooted: bool): seq<string> {
    if comp == "" || comp == "." then stack
    else if comp != ".." || (!rooted && stack == []) || (stack != [] && stack[|stack| - 1] == "..") then stack + [comp]
    else if stack != [] then stack[..|stack| - 1]
    else stack
  }

  function Collapse(comps: seq<string>, rooted: bool): seq<string> {
    if comps == [] then [] else Push(Collapse(comps[..|comps| - 1], rooted), comps[|comps| - 1], rooted)
  }

  /** A path as its number of initial slashes and its components. */
  datatype Path = Path(slashes: nat, comps: seq<string>)

  function Parse(path: string): Path {
    var k := InitialSlashes(path);
    Path(k, Collapse(Split(path), k > 0))
  }

  function Slashes(k: nat): string {
    if k == 0 then "" else "/" + Slashes(k - 1)
  }

  function Render(p: Path): string {
    var s := Slashes(p.slashes) + Join(p.comps);
    if s == "" then "." else s
  }

  function NormPath(path: string): string {
    if path == "" then "." else Render(Parse(path))
  }

  // ---- Collapsed components -----------------------------------------------------------------

  predicate Clean(c: string) {
    c != "" && c != "." && NoSlash(c)
  }

  /** No component to drop: parents of the start only, and none at all below the root. */
  predicate Settled(comps: seq<string>, rooted: bool) {
    && (forall c :: c in comps ==> Clean(c))
    && (rooted ==> ".." !in comps)
    && (forall i, j :: 0 <= i < j < |comps| && comps[j] == ".." ==> comps[i] == "..")
  }

  lemma {:induction false} CollapseSettles(comps: seq<string>, rooted: bool)
    requires forall c :: c in comps ==> NoSlash(c)
    ensures Settled(Collapse(comps, rooted), rooted)
  {
    if comps != [] {
      CollapseSettles(comps[..|comps| - 1], rooted);
    }
  }

  lemma {:induction false} SettledIsFixed(comps: seq<string>, rooted: bool)
    requires Settled(comps, rooted)
    ensures Collapse(comps, rooted) == comps
  {
    if comps != [] {
      var init, last := comps[..|comps| - 1], comps[|comps| - 1];
      assert Collapse(comps, rooted) == Push(Collapse(init, rooted), last, rooted);
      assert last in comps && Clean(last) && (rooted ==> last != "..");
      assert last == ".." && init != [] ==> comps[|init| - 1] == "..";
      assert Settled(init, rooted);
      hide Collapse, Settled;
      SettledIsFixed(init, rooted);
      assert comps == init + [last];
    }
  }

  lemma ParseSettles(path: string)
    ensures Settled(Parse(path).comps, Parse(path).slashes > 0)
  {
    SplitHasNoSlash(path);
    CollapseSettles(Split(path), InitialSlashes(path) > 0);
  }

  // ---- Rendering keeps everything -----------------------------------------------------------

  function Empties(k: nat): (r: seq<string>)
    ensures |r| == k && forall i :: 0 <= i < k ==> r[i] == ""
  {
    if k == 0 then [] else [""] + Empties(k - 1)
  }

  lemma EmptiesEnd(k: nat)
    requires k > 0
    ensures Empties(k) == Empties(k - 1) + [""]
  {
  }

  lemma {:induction false} SplitSlashes(k: nat, s: string)
    ensures Split(Slashes(k) + s) == Empties(k) + Split(s)
  {
    hide Split;
    if k == 0 {
      assert Slashes(k) + s == s;
      assert Empties(k) + Split(s) == Split(s);
    } else {
      SplitSlashes(k - 1, s);
      assert Slashes(k) == "/" + Slashes(k - 1) && Empties(k) == [""] + Empties(k - 1);
      hide Slashes, Empties;
      AppendAssociates("/", Slashes(k - 1), s);
      SplitLeadingSlash(Slashes(k - 1) + s);
      AppendAssociates([""], Empties(k - 1), Split(s));
    }
  }

  lemma SplitLeadingSlash(s: string)
    ensures Split("/" + s) == [""] + Split(s)
  {
    assert ("/" + s)[1..] == s;
  }

  /** What splitting a rendered path gives. */
  function Pieces(p: Path): seq<string> {
    if p.comps != [] then Empties(p.slashes) + p.comps
    else if p.slashes > 0 then Empties(p.slashes + 1)
    else ["."]
  }

  lemma SplitRender(p: Path)
    requires forall c :: c in p.comps ==> Clean(c)
    ensures Split(Render(p)) == Pieces(p)
  {
    SplitSlashes(p.slashes, Join(p.comps));
    if p.comps != [] {
      SplitJoin(p.comps);
      JoinEnds(p.comps);
    } else if p.slashes > 0 {
      assert Empties(p.slashes) + [""] == Empties(p.slashes + 1);
    } else {
      SplitNoSlash(".");
    }
  }

  lemma PiecesInjective(p: Path, q: Path)
    requires forall c :: c in p.comps + q.comps ==> Clean(c)
    requires Pieces(p) == Pieces(q)
    ensures p == q
  {
    assert forall c :: c in p.comps ==> c in p.comps + q.comps;
    assert forall c :: c in q.comps ==> c in p.comps + q.comps;
    assert p.comps != [] ==> Clean(p.comps[0]);
    assert q.comps != [] ==> Clean(q.comps[0]);
    assert p.comps != [] ==> Pieces(p)[p.slashes] == p.comps[0];
    assert q.comps != [] ==> Pieces(q)[q.slashes] == q.comps[0];
    if p.comps != [] && q.comps != [] {
      LeadingEmpties(p.slashes, p.comps, q.slashes, q.comps);
    }
  }

  lemma RenderInjective(p: Path, q: Path)
    requires forall c :: c in p.comps + q.comps ==> Clean(c)
    requires Render(p) == Render(q)
    ensures p == q
  {
    assert forall c :: c in p.comps ==> c in p.comps + q.comps;
    assert forall c :: c in q.comps ==> c in p.comps + q.comps;
    SplitRender(p);
    SplitRender(q);
    PiecesInjective(p, q);
  }

  lemma RenderedSlashes(p: Path)
    requires p.slashes <= 2 && forall c :: c in p.comps ==> Clean(c)
    ensures InitialSlashes(Render(p)) == p.slashes
  {
    var s := Render(p);
    assert Slashes(1) == "/" && Slashes(2) == "//";
    if p.comps == [] {
      assert Slashes(p.slashes) + Join(p.comps) == Slashes(p.slashes);
    } else {
      assert Clean(p.comps[0]);
      var j := Join(p.comps);
      assert j != "" && j[0] == p.comps[0][0] != '/';
      assert s == Slashes(p.slashes) + j;
    }
  }

  lemma {:induction false} CollapseEmpties(k: nat, comps: seq<string>, rooted: bool)
    ensures Collapse(Empties(k) + comps, rooted) == Collapse(comps, rooted)
    decreases |comps|, k
  {
    if comps != [] {
      CollapseEmpties(k, comps[..|comps| - 1], rooted);
      hide Empties, Push;
      assert (Empties(k) + comps)[..k + |comps| - 1] == Empties(k) + comps[..|comps| - 1];
    } else if k > 0 {
      CollapseEmpties(k - 1, comps, rooted);
      EmptiesEnd(k);
      hide Empties;
      assert (Empties(k) + comps)[..k - 1] == Empties(k - 1) + comps;
    }
  }

  /** Normalising loses nothing: the result parses to the same path, so it is a fixed point. */
  lemma NormPathIsFixed(path: string)
    requires path != ""
    ensures Parse(NormPath(path)) == Parse(path)
    ensures NormPath(NormPath(path)) == NormPath(path)
  {
    var p := Parse(path);
    ParseSettles(path);
    RenderedSlashes(p);
    SplitRender(p);
    if p.comps != [] {
      CollapseEmpties(p.slashes, p.comps, p.slashes > 0);
      SettledIsFixed(p.comps, p.slashes > 0);
    } else if p.slashes > 0 {
      CollapseEmpties(p.slashes + 1, [], true);
      assert Empties(p.slashes + 1) + [] == Empties(p.slashes + 1);
    } else {
      assert Collapse(["."], false) == [] by {
        assert ["."][..0] == [];
      }
    }
  }

  // ---- _path_within -----------------------------------------------------------------------

  predicate StartsWith(s: string, prefix: string) {
    prefix <= s
  }

  function RStripSlashes(s: string): string {
    if s != "" && s[|s| - 1] == '/' then RStripSlashes(s[..|s| - 1]) else s
  }

  predicate IsAbs(path: string) {
    path != "" && path[0] == '/'
  }

  /** The string test, on paths whose home directory is already expanded. */
  predicate PathWithin(path: string, prefix: string) {
    var normPath, normPrefix := NormPath(path), NormPath(prefix);
    IsAbs(normPath) == IsAbs(normPrefix)
    && (normPath == normPrefix || StartsWith(normPath, RStripSlashes(normPrefix) + "/"))
  }

  /** What it decides, on components. */
  predicate Inside(p: Path, q: Path) {
    (p.slashes > 0) == (q.slashes > 0)
    && (p == q
        || (q.slashes > 0 && q.comps == [])
        || (p.slashes == q.slashes && q.comps != [] && q.comps <= p.comps))
  }

  lemma RenderStarts(p: Path)
    requires forall c :: c in p.comps ==> Clean(c)
    ensures IsAbs(Render(p)) <==> p.slashes > 0
    ensures p.comps != [] ==> RStripSlashes(Render(p)) == Render(p)
    ensures p.comps == [] && p.slashes > 0 ==> RStripSlashes(Render(p)) == ""
    ensures p.comps == [] && p.slashes == 0 ==> Render(p) == "." && RStripSlashes(Render(p)) == "."
  {
    if p.comps != [] {
      assert Clean(p.comps[0]);
      JoinEnds(p.comps);
      assert Join(p.comps)[0] == p.comps[0][0];
    } else {
      assert Slashes(p.slashes) + Join(p.comps) == Slashes(p.slashes);
      StripAll(p.slashes);
    }
  }

  lemma {:induction false} JoinEnds(comps: seq<string>)
    requires comps != [] && forall c :: c in comps ==> Clean(c)
    ensures Join(comps) != "" && Join(comps)[|Join(comps)| - 1] != '/'
  {
    assert Clean(comps[0]);
    if |comps| > 1 {
      JoinEnds(comps[1..]);
    }
  }

  lemma {:induction false} StripAll(k: nat)
    ensures RStripSlashes(Slashes(k)) == ""
  {
    if k > 0 {
      SlashesEnd(k);
      StripAll(k - 1);
    }
  }

  lemma {:induction false} SlashesEnd(k: nat)
    requires k > 0
    ensures Slashes(k) == Slashes(k - 1) + "/"
  {
    if k > 1 {
      SlashesEnd(k - 1);
    }
  }

  /** A path that starts with a rendered prefix and a slash continues its components. */
  lemma PrefixedIsDeeper(p: Path, q: Path)
    requires forall c :: c in p.comps + q.comps ==> Clean(c)
    requires q.comps != []
    ensures StartsWith(Render(p), Render(q) + "/") <==>
      p.slashes == q.slashes && q.comps < p.comps
  {
    assert forall c :: c in p.comps ==> c in p.comps + q.comps;
    assert forall c :: c in q.comps ==> c in p.comps + q.comps;
    assert Clean(q.comps[0]);
    assert p.comps != [] ==> Clean(p.comps[0]);
    if StartsWith(Render(p), Render(q) + "/") {
      DeeperPieces(p, q);
    }
    if p.slashes == q.slashes && q.comps < p.comps {
      DeeperStarts(p, q);
    }
  }

  lemma DeeperStarts(p: Path, q: Path)
    requires forall c :: c in p.comps ==> Clean(c)
    requires q.comps != [] && p.slashes == q.slashes && q.comps < p.comps
    ensures StartsWith(Render(p), Render(q) + "/")
  {
    var rest := p.comps[|q.comps|..];
    assert p.comps == q.comps + rest;
    JoinAppend(q.comps, rest);
    JoinEnds(p.comps);
    assert forall c :: c in q.comps ==> c in p.comps;
    JoinEnds(q.comps);
    hide Join;
    assert Render(p) == Render(q) + "/" + Join(rest);
  }

  lemma DeeperPieces(p: Path, q: Path)
    requires forall c :: c in p.comps ==> Clean(c)
    requires q.comps != [] && forall c :: c in q.comps ==> Clean(c)
    requires StartsWith(Render(p), Render(q) + "/")
    ensures p.slashes == q.slashes && q.comps < p.comps
  {
    var rest := Render(p)[|Render(q)| + 1..];
    assert Render(p) == Render(q) + "/" + rest;
    SplitAtSlash(Render(q), rest);
    SplitRender(p);
    SplitRender(q);
    AppendAssociates(Empties(q.slashes), q.comps, Split(rest));
    hide Split, Render, Join;
    assert Clean(q.comps[0]) && |Split(rest)| > 0;
    assert (Empties(q.slashes) + (q.comps + Split(rest)))[q.slashes] == q.comps[0];
    if p.comps != [] {
      assert Clean(p.comps[0]);
      LeadingEmpties(p.slashes, p.comps, q.slashes, q.comps + Split(rest));
    }
  }

  /** Empty components, then none: the split is where the first non-empty one stands. */
  lemma LeadingEmpties(k: nat, a: seq<string>, l: nat, b: seq<string>)
    requires a != [] && a[0] != "" && b != [] && b[0] != "" && Empties(k) + a == Empties(l) + b
    ensures k == l && a == b
  {
    assert (Empties(k) + a)[k] == a[0] && (Empties(l) + b)[l] == b[0];
    assert k == l;
    assert a == (Empties(k) + a)[k..] && b == (Empties(l) + b)[l..];
  }

  lemma DotSlashSplits(s: string)
    requires StartsWith(s, "./")
    ensures Split(s)[0] == "." && |Split(s)| >= 2
  {
    assert s == "." + "/" + s[2..];
    SplitAtSlash(".", s[2..]);
    SplitNoSlash(".");
  }

  /** Components never start with a lone dot, so nothing is inside "." but itself. */
  lemma NothingUnderDot(p: Path)
    requires p.slashes == 0 && forall c :: c in p.comps ==> Clean(c)
    ensures !StartsWith(Render(p), "./")
  {
    SplitRender(p);
    assert p.comps != [] ==> Clean(p.comps[0]) && Pieces(p)[0] != ".";
    if StartsWith(Render(p), "./") {
      DotSlashSplits(Render(p));
    }
  }

  function ParseOrDot(path: string): Path {
    if path == "" then Path(0, []) else Parse(path)
  }

  lemma NormPathRenders(path: string)
    ensures NormPath(path) == Render(ParseOrDot(path))
    ensures ParseOrDot(path).slashes <= 2
    ensures Settled(ParseOrDot(path).comps, ParseOrDot(path).slashes > 0)
  {
    ParseSettles(path);
  }

  /**
   * For all strings, the string test is containment of component lists after "." and ".."
   * are collapsed: everything absolute is inside the root, and nothing else than itself
   * inside the empty relative path.
   */
  lemma PathWithinIsInside(path: string, prefix: string)
    ensures PathWithin(path, prefix) <==> Inside(ParseOrDot(path), ParseOrDot(prefix))
  {
    var p, q := ParseOrDot(path), ParseOrDot(prefix);
    NormPathRenders(path);
    NormPathRenders(prefix);
    RenderStarts(p);
    RenderStarts(q);
    assert PathWithin(path, prefix) <==>
      IsAbs(Render(p)) == IsAbs(Render(q))
      && (Render(p) == Render(q) || StartsWith(Render(p), RStripSlashes(Render(q)) + "/"));
    hide ParseOrDot, Parse, NormPath, RStripSlashes, PathWithin;
    assert Render(p) == Render(q) ==> p == q by {
      if Render(p) == Render(q) {
        RenderInjective(p, q);
      }
    }
    if q.comps != [] {
      PrefixedIsDeeper(p, q);
      assert q.comps <= p.comps && |q.comps| == |p.comps| ==> q.comps == p.comps;
    } else if q.slashes > 0 {
      assert IsAbs(Render(p)) ==> StartsWith(Render(p), "/");
      assert "" + "/" == "/";
    } else if p.slashes == 0 {
      NothingUnderDot(p);
      assert "." + "/" == "./";
    }
  }

  predicate SingleRoot(path: string) {
    InitialSlashes(path) == 1
  }

  /** Absolute paths: inside means the prefix's components lead the path's. */
  lemma AbsolutePathWithin(path: string, prefix: string)
    requires SingleRoot(path) && SingleRoot(prefix)
    ensures PathWithin(path, prefix) <==> Parse(prefix).comps <= Parse(path).comps
    ensures ".." !in Parse(path).comps
  {
    PathWithinIsInside(path, prefix);
    ParseSettles(path);
    hide Collapse, NormPath;
  }

  lemma PathWithinReflexive(path: string)
    ensures PathWithin(path, path)
  {
  }

  lemma PathWithinTransitive(a: string, b: string, c: string)
    requires PathWithin(a, b) && PathWithin(b, c)
    ensures PathWithin(a, c)
  {
    PathWithinIsInside(a, b);
    PathWithinIsInside(b, c);
    PathWithinIsInside(a, c);
    hide PathWithin, ParseOrDot;
  }

  /** A sibling whose name extends the prefix's last component is outside. */
  lemma SiblingIsOutside(dir: string, name: string, suffix: string)
    requires IsAbs(dir) && InitialSlashes(dir) == 1
    requires Clean(name) && name != ".." && suffix != "" && NoSlash(suffix)
    ensures !PathWithin(dir + "/" + (name + suffix), dir + "/" + name)
  {
    var path, prefix := dir + "/" + (name + suffix), dir + "/" + name;
    var longer := name + suffix;
    assert Clean(longer);
    assert |name| == 1 && name[0] == '.' ==> name == ".";
    assert longer[0] == name[0] && |longer| == |name| + |suffix|;
    ChildParses(dir, name);
    ChildParses(dir, longer);
    PathWithinIsInside(path, prefix);
    var n := |Parse(dir).comps|;
    hide Parse, PathWithin;
    assert Parse(path).comps[n] == longer && Parse(prefix).comps[n] == name;
  }

  lemma ChildParses(dir: string, name: string)
    requires InitialSlashes(dir) == 1 && Clean(name) && name != ".."
    ensures dir + "/" + name != "" && InitialSlashes(dir + "/" + name) > 0 && Parse(dir + "/" + name).slashes > 0
    ensures Parse(dir + "/" + name).comps == Parse(dir).comps + [name]
  {
    ParseSettles(dir);
    PieceParses(dir, name);
  }

  lemma PieceParses(dir: string, piece: string)
    requires InitialSlashes(dir) == 1 && NoSlash(piece)
    ensures InitialSlashes(dir + "/" + piece) > 0
    ensures Parse(dir + "/" + piece).comps == Push(Parse(dir).comps, piece, true)
  {
    SplitAtSlash(dir, piece);
    SplitNoSlash(piece);
    assert (Split(dir) + [piece])[..|Split(dir)|] == Split(dir);
  }

  /**
   * What each further piece of an absolute path means: nothing for an empty one or ".",
   * the parent (of the root, the root) for "..", and one component more for a name.
   */
  lemma PiecesMean(dir: string, piece: string)
    requires InitialSlashes(dir) == 1 && NoSlash(piece)
    ensures
      var before, after := Parse(dir).comps, Parse(dir + "/" + piece).comps;
      if piece == "" || piece == "." then after == before
      else if piece == ".." then after == if before == [] then [] else before[..|before| - 1]
      else after == before + [piece]
  {
    ParseSettles(dir);
    PieceParses(dir, piece);
    var before := Parse(dir).comps;
    assert before != [] ==> before[|before| - 1] in before;
    hide Parse;
  }
}
