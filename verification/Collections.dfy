// Helpers shared by the models; nothing here is about one of them in particular.
//
//   Option, Json       an optional value, and a decoded JSON value with its truth value
//   LastN              the window a bounded queue keeps
//   Filter, Map        over sequences, with the facts the proofs need about them
//   Distinct           no element twice
//   SubsequenceOf      what is left of a sequence when elements are dropped
//
// The lemmas about these are proved by going through the sequences from the end, the
// way the modelled code extends them.
module Collections {

  datatype Option<+T> = None | Some(value: T)

  /** A decoded JSON value, as carried in message payloads and tool inputs. */
  datatype Json =
    | JNull
    | JBool(b: bool)
    | JNumber(n: real)
    | JString(s: string)
    | JArray(elements: seq<Json>)
    | JObject(fields: map<string, Json>)

  /** Python truthiness of a decoded value. */
  predicate Truthy(v: Json) {
    match v
    case JNull => false
    case JBool(b) => b
    case JNumber(n) => n != 0.0
    case JString(s) => s != ""
    case JArray(elements) => elements != []
    case JObject(fields) => fields != map[]
  }

  /** The last `n` elements of `s`, or all of them when there are fewer. */
  function LastN<T>(s: seq<T>, n: nat): seq<T> {
    if |s| <= n then s else s[|s| - n..]
  }

  /** A bounded queue that appends and drops keeps the last `n` of everything appended. */
  lemma LastNAppend<T>(s: seq<T>, t: seq<T>, n: nat)
    ensures LastN(LastN(s, n) + t, n) == LastN(s + t, n)
  {
  }

  function Filter<T>(s: seq<T>, p: T -> bool): seq<T> {
    if s == [] then [] else Filter(s[..|s| - 1], p) + (if p(s[|s| - 1]) then [s[|s| - 1]] else [])
  }

  lemma {:induction false} FilterMembers<T>(s: seq<T>, p: T -> bool)
    ensures forall i :: 0 <= i < |Filter(s, p)| ==> Filter(s, p)[i] in s && p(Filter(s, p)[i])
    ensures forall i :: 0 <= i < |s| && p(s[i]) ==> s[i] in Filter(s, p)
  {
    if s != [] {
      var init, last := s[..|s| - 1], s[|s| - 1];
      FilterMembers(init, p);
      assert Filter(s, p) == Filter(init, p) + if p(last) then [last] else [];
      hide Filter;
      assert s == init + [last];
    }
  }

  lemma {:induction false} FilterAppend<T>(s: seq<T>, t: seq<T>, p: T -> bool)
    ensures Filter(s + t, p) == Filter(s, p) + Filter(t, p)
  {
    if t == [] {
      assert s + t == s;
    } else {
      assert (s + t)[..|s + t| - 1] == s + t[..|t| - 1];
      FilterAppend(s, t[..|t| - 1], p);
    }
  }

  lemma {:induction false} FilterAll<T>(s: seq<T>, p: T -> bool)
    requires forall i :: 0 <= i < |s| ==> p(s[i])
    ensures Filter(s, p) == s
  {
    if s != [] {
      var init, last := s[..|s| - 1], s[|s| - 1];
      FilterAll(init, p);
      assert Filter(s, p) == Filter(init, p) + [last];
      hide Filter;
      assert init + [last] == s;
    }
  }

  lemma {:induction false} FilterNone<T>(s: seq<T>, p: T -> bool)
    requires forall i :: 0 <= i < |s| ==> !p(s[i])
    ensures Filter(s, p) == []
  {
    if s != [] {
      FilterNone(s[..|s| - 1], p);
    }
  }

  function Not<T(==)>(x: T): T -> bool {
    (y: T) => y != x
  }

  /** Taking one element out of a sequence without repetitions keeps just the others. */
  lemma {:induction false} FilterOut<T>(s: seq<T>, i: nat)
    requires Distinct(s) && i < |s|
    ensures Filter(s, Not(s[i])) == s[..i] + s[i + 1..]
  {
    var n := |s| - 1;
    var init := s[..n];
    if i == n {
      FilterAll(init, Not(s[i]));
      assert s[..i] + s[i + 1..] == init;
      assert Filter(s, Not(s[i])) == init + [];
    } else {
      FilterOut(init, i);
      assert Filter(s, Not(s[i])) == Filter(init, Not(s[i])) + [s[n]];
      hide Filter;
      assert init[..i] == s[..i] && init[i + 1..] + [s[n]] == s[i + 1..];
      AppendAssociates(init[..i], init[i + 1..], [s[n]]);
    }
  }

  function Map<T, U>(s: seq<T>, f: T -> U): (r: seq<U>)
    ensures |r| == |s| && forall i :: 0 <= i < |s| ==> r[i] == f(s[i])
  {
    seq(|s|, i requires 0 <= i < |s| => f(s[i]))
  }

  lemma MapAppend<T, U>(s: seq<T>, t: seq<T>, f: T -> U)
    ensures Map(s + t, f) == Map(s, f) + Map(t, f)
  {
  }

  lemma AppendAssociates<T>(a: seq<T>, b: seq<T>, c: seq<T>)
    ensures a + b + c == a + (b + c)
  {
  }

  predicate Distinct<T(==)>(s: seq<T>) {
    forall i, j :: 0 <= i < j < |s| ==> s[i] != s[j]
  }

  /** `a` is obtained from `b` by dropping elements, keeping the order. */
  predicate SubsequenceOf<T(==)>(a: seq<T>, b: seq<T>) {
    if a == [] then true
    else if b == [] then false
    else if a[|a| - 1] == b[|b| - 1] then SubsequenceOf(a[..|a| - 1], b[..|b| - 1])
    else SubsequenceOf(a, b[..|b| - 1])
  }

  lemma SubsequenceGrowBoth<T>(a: seq<T>, b: seq<T>, x: T)
    requires SubsequenceOf(a, b)
    ensures SubsequenceOf(a + [x], b + [x])
  {
    assert (a + [x])[..|a|] == a;
    assert (b + [x])[..|b|] == b;
  }

  lemma {:induction false} SubsequenceDropLast<T>(a: seq<T>, b: seq<T>)
    requires SubsequenceOf(a, b) && a != []
    ensures SubsequenceOf(a[..|a| - 1], b)
    decreases |b|, 0
  {
    var init := b[..|b| - 1];
    if a[|a| - 1] == b[|b| - 1] {
      SubsequenceExtend(a[..|a| - 1], init, b[|b| - 1]);
      assert init + [b[|b| - 1]] == b;
    } else {
      SubsequenceDropLast(a, init);
      SubsequenceExtend(a[..|a| - 1], init, b[|b| - 1]);
      assert init + [b[|b| - 1]] == b;
    }
  }

  lemma {:induction false} SubsequenceExtend<T>(a: seq<T>, b: seq<T>, x: T)
    requires SubsequenceOf(a, b)
    ensures SubsequenceOf(a, b + [x])
    decreases |b|, 1
  {
    assert (b + [x])[..|b|] == b;
    if a != [] && a[|a| - 1] == x {
      SubsequenceDropLast(a, b);
    }
  }

  /** Removing any element of a subsequence leaves a subsequence. */
  lemma {:induction false} SubsequenceRemove<T>(a: seq<T>, b: seq<T>, i: nat)
    requires SubsequenceOf(a, b) && i < |a|
    ensures SubsequenceOf(a[..i] + a[i + 1..], b)
    decreases |b|
  {
    if i == |a| - 1 {
      SubsequenceDropLast(a, b);
      assert a[..i] + a[i + 1..] == a[..|a| - 1];
    } else {
      var init := b[..|b| - 1];
      var shorter := a[..i] + a[i + 1..];
      if a[|a| - 1] == b[|b| - 1] {
        SubsequenceRemove(a[..|a| - 1], init, i);
        assert shorter[..|shorter| - 1] == a[..|a| - 1][..i] + a[..|a| - 1][i + 1..];
      } else {
        SubsequenceRemove(a, init, i);
      }
    }
  }

  lemma {:induction false} SubsequencePrefix<T>(a: seq<T>, b: seq<T>, n: nat)
    requires SubsequenceOf(a, b) && n <= |a|
    ensures SubsequenceOf(a[..n], b)
    decreases |a|
  {
    if n == |a| {
      assert a[..n] == a;
    } else {
      SubsequenceDropLast(a, b);
      SubsequencePrefix(a[..|a| - 1], b, n);
      assert a[..|a| - 1][..n] == a[..n];
    }
  }
}
