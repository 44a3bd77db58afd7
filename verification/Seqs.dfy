/** Order-preserving facts about sequences: subsequences, projections and last-n windows. */
module Seqs {

  /** `at` places every element of `a` in `b`, keeping the order and using no place twice. */
  ghost predicate Embeds<T>(a: seq<T>, b: seq<T>, at: seq<nat>) {
    && |at| == |a|
    && (forall i :: 0 <= i < |a| ==> at[i] < |b| && b[at[i]] == a[i])
    && (forall i, j :: 0 <= i < j < |a| ==> at[i] < at[j])
  }

  ghost predicate Subsequence<T>(a: seq<T>, b: seq<T>) {
    exists at: seq<nat> :: Embeds(a, b, at)
  }

  lemma SubsequenceRefl<T>(a: seq<T>)
    ensures Subsequence(a, a)
  {
    assert Embeds(a, a, seq(|a|, i requires 0 <= i < |a| => i));
  }

  lemma SubsequenceTrans<T>(a: seq<T>, b: seq<T>, c: seq<T>)
    requires Subsequence(a, b) && Subsequence(b, c)
    ensures Subsequence(a, c)
  {
    var f: seq<nat> :| Embeds(a, b, f);
    var g: seq<nat> :| Embeds(b, c, g);
    assert Embeds(a, c, seq(|a|, i requires 0 <= i < |a| => g[f[i]]));
  }

  /** Both may grow by the same element. */
  lemma SubsequenceTake<T>(a: seq<T>, b: seq<T>, x: T)
    requires Subsequence(a, b)
    ensures Subsequence(a + [x], b + [x])
  {
    var f: seq<nat> :| Embeds(a, b, f);
    assert Embeds(a + [x], b + [x], f + [|b|]);
  }

  lemma SubsequenceTakeAll<T>(a: seq<T>, b: seq<T>, c: seq<T>)
    requires Subsequence(a, b)
    ensures Subsequence(a + c, b + c)
  {
    var f: seq<nat> :| Embeds(a, b, f);
    var g := f + seq(|c|, i requires 0 <= i < |c| => |b| + i);
    assert Embeds(a + c, b + c, g);
  }

  /** Losing any contiguous part of the shorter sequence keeps it a subsequence. */
  lemma SubsequenceLose<T>(a: seq<T>, lost: seq<T>, c: seq<T>, b: seq<T>)
    requires Subsequence(a + lost + c, b)
    ensures Subsequence(a + c, b)
  {
    var f: seq<nat> :| Embeds(a + lost + c, b, f);
    var g := f[..|a|] + f[|a| + |lost|..];
    forall i | 0 <= i < |a + c|
      ensures g[i] < |b| && b[g[i]] == (a + c)[i]
    {
      var j := if i < |a| then i else i + |lost|;
      assert (a + c)[i] == (a + lost + c)[j];
    }
    assert Embeds(a + c, b, g);
  }

  lemma SubsequencePrefix<T>(a: seq<T>, b: seq<T>, c: seq<T>)
    requires Subsequence(a + b, c)
    ensures Subsequence(a, c)
  {
    assert a + b == a + b + [] && a + [] == a;
    SubsequenceLose(a, b, [], c);
  }

  lemma SubsequenceExtend<T>(a: seq<T>, b: seq<T>, c: seq<T>)
    requires Subsequence(a, b)
    ensures Subsequence(a, b + c)
  {
    var f: seq<nat> :| Embeds(a, b, f);
    assert Embeds(a, b + c, f);
  }

  lemma SubsequenceIn<T>(a: seq<T>, b: seq<T>)
    requires Subsequence(a, b)
    ensures forall x :: x in a ==> x in b
  {
    var f: seq<nat> :| Embeds(a, b, f);
    forall i | 0 <= i < |a| ensures a[i] in b {
      assert b[f[i]] == a[i];
    }
  }

  lemma Regroup<T>(a: seq<T>, b: seq<T>, x: seq<T>, rest: seq<T>)
    ensures a + (b + x) + rest == a + b + (x + rest) == (a + b) + x + rest
  {}

  /** Of three stages in a row, the head of the last moves to the end of the middle one, or is lost. */
  lemma HandOverLast<T>(a: seq<T>, b: seq<T>, x: seq<T>, rest: seq<T>, all: seq<T>)
    requires Subsequence(a + b + (x + rest), all)
    ensures Subsequence(a + (b + x) + rest, all) && Subsequence(a + b + rest, all)
  {
    assert a + b + (x + rest) == a + (b + x) + rest;
    assert a + b + (x + rest) == (a + b) + x + rest;
    SubsequenceLose(a + b, x, rest, all);
  }

  /** The head of the middle stage moves to the end of the first one, or is lost. */
  lemma HandOverMiddle<T>(a: seq<T>, x: seq<T>, b: seq<T>, rest: seq<T>, all: seq<T>)
    requires Subsequence(a + (x + b) + rest, all)
    ensures Subsequence((a + x) + b + rest, all) && Subsequence(a + b + rest, all)
  {
    assert a + (x + b) + rest == (a + x) + b + rest;
    assert a + (x + b) + rest == a + x + (b + rest);
    assert a + b + rest == a + (b + rest);
    SubsequenceLose(a, x, b + rest, all);
  }

  /** The last `n` elements, or all of them when there are fewer. */
  function Last<T>(s: seq<T>, n: nat): (r: seq<T>) {
    if |s| <= n then s else s[|s| - n..]
  }

  /** The elements `f` extracts from `s`, in order; `f` yields at most one for each. */
  function Pick<T, U>(s: seq<T>, f: T -> seq<U>): (r: seq<U>) {
    if s == [] then [] else Pick(s[..|s| - 1], f) + f(s[|s| - 1])
  }

  lemma PickSnoc<T, U>(s: seq<T>, x: T, f: T -> seq<U>)
    ensures Pick(s + [x], f) == Pick(s, f) + f(x)
  {}

  lemma PickOne<T, U>(x: T, f: T -> seq<U>)
    ensures Pick([x], f) == f(x)
  {}

  lemma {:induction false} PickConcat<T, U>(s: seq<T>, t: seq<T>, f: T -> seq<U>)
    ensures Pick(s + t, f) == Pick(s, f) + Pick(t, f)
  {
    if t == [] {
      assert s + t == s;
    } else {
      var n := |t| - 1;
      assert s + t == (s + t[..n]) + [t[n]];
      PickSnoc(s + t[..n], t[n], f);
      PickConcat(s, t[..n], f);
    }
  }

  lemma PickHead<T, U>(s: seq<T>, f: T -> seq<U>)
    requires s != []
    ensures Pick(s, f) == f(s[0]) + Pick(s[1..], f)
  {
    assert s == [s[0]] + s[1..];
    PickConcat([s[0]], s[1..], f);
    PickOne(s[0], f);
  }

  ghost function Count<T>(s: seq<T>, x: T): (n: nat) {
    multiset(s)[x]
  }

  lemma CountConcat<T>(a: seq<T>, b: seq<T>, x: T)
    ensures Count(a + b, x) == Count(a, x) + Count(b, x)
  {}

  lemma {:induction false} SubsequenceCounts<T>(a: seq<T>, b: seq<T>, x: T)
    requires Subsequence(a, b)
    ensures Count(a, x) <= Count(b, x)
  {
    if a != [] {
      var n := |a| - 1;
      var f: seq<nat> :| Embeds(a, b, f);
      var j := f[n];
      assert Embeds(a[..n], b[..j], f[..n]);
      SubsequenceCounts(a[..n], b[..j], x);
      CountSplit(a, n, x);
      CountSplit(b, j, x);
    }
  }

  lemma CountSplit<T>(s: seq<T>, i: nat, x: T)
    requires i < |s|
    ensures Count(s, x) == Count(s[..i], x) + Count([s[i]], x) + Count(s[i + 1..], x)
  {
    SplitAt(s, i, x);
    CountConcat(s[..i] + [s[i]], s[i + 1..], x);
    CountConcat(s[..i], [s[i]], x);
  }

  /** Elements that yield the same, followed by some that yield nothing. */
  lemma {:induction false} PickSame<T, U>(s: seq<T>, t: seq<T>, f: T -> seq<U>)
    requires |s| <= |t| && (forall i :: 0 <= i < |s| ==> f(t[i]) == f(s[i]))
    requires forall i :: |s| <= i < |t| ==> f(t[i]) == []
    ensures Pick(t, f) == Pick(s, f)
  {
    if t != [] {
      var n := |t| - 1;
      if |s| == |t| {
        PickSame(s[..n], t[..n], f);
      } else {
        PickSame(s, t[..n], f);
      }
    }
  }

  /** Elements that yield no more. */
  lemma {:induction false} PickLess<T, U>(s: seq<T>, f: T -> seq<U>, g: T -> seq<U>, u: U)
    requires forall i :: 0 <= i < |s| ==> Count(f(s[i]), u) <= Count(g(s[i]), u)
    ensures Count(Pick(s, f), u) <= Count(Pick(s, g), u)
  {
    if s != [] {
      var n := |s| - 1;
      PickLess(s[..n], f, g, u);
      CountConcat(Pick(s[..n], f), f(s[n]), u);
      CountConcat(Pick(s[..n], g), g(s[n]), u);
    }
  }

  /** Replacing one element exchanges what it yields. */
  lemma PickUpdate<T, U>(s: seq<T>, i: nat, x: T, f: T -> seq<U>, u: U)
    requires i < |s|
    ensures Count(Pick(s[i := x], f), u) + Count(f(s[i]), u) == Count(Pick(s, f), u) + Count(f(x), u)
  {
    var a, b := s[..i], s[i + 1..];
    SplitAt(s, i, x);
    PickMiddle(a, s[i], b, f, u);
    PickMiddle(a, x, b, f, u);
  }

  lemma SplitAt<T>(s: seq<T>, i: nat, x: T)
    requires i < |s|
    ensures s == s[..i] + [s[i]] + s[i + 1..] && s[i := x] == s[..i] + [x] + s[i + 1..]
  {}

  lemma PickMiddle<T, U>(a: seq<T>, x: T, b: seq<T>, f: T -> seq<U>, u: U)
    ensures Count(Pick(a + [x] + b, f), u) == Count(Pick(a, f), u) + Count(f(x), u) + Count(Pick(b, f), u)
  {
    PickConcat(a + [x], b, f);
    PickSnoc(a, x, f);
    CountConcat(Pick(a, f), f(x), u);
    CountConcat(Pick(a + [x], f), Pick(b, f), u);
  }
}
