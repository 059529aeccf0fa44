/**
 * Lists without repeats: what the preference code does with them. Finding,
 * swapping, keeping and dropping elements.
 */
module Lists {
  import opened Prelude

  predicate Distinct<T(==)>(s: seq<T>) { forall i, j :: 0 <= i < j < |s| ==> s[i] != s[j] }

  /** The same elements, each once, in any order. */
  ghost predicate Permutes<T>(s: seq<T>, defaults: seq<T>) {
    && Distinct(s)
    && (forall x :: x in s ==> x in defaults)
    && (forall x :: x in defaults ==> x in s)
  }

  /** The first position of `x`, or -1. */
  function IndexOf<T(==)>(s: seq<T>, x: T): (i: int)
    ensures -1 <= i < |s|
    ensures i >= 0 ==> s[i] == x && forall k :: 0 <= k < i ==> s[k] != x
    ensures i < 0 <==> x !in s
  {
    if s == [] then -1 else if s[0] == x then 0 else
    var i := IndexOf(s[1..], x);
    if i < 0 then -1 else i + 1
  }

  function Keep<T>(s: seq<T>, p: T -> bool): seq<T> {
    if s == [] then [] else if p(s[0]) then [s[0]] + Keep(s[1..], p) else Keep(s[1..], p)
  }

  /** What is kept is what the test accepts. */
  lemma {:induction false} KeepHolds<T>(s: seq<T>, p: T -> bool, x: T)
    ensures x in Keep(s, p) <==> x in s && p(x)
  {
    if s != [] {
      KeepHolds(s[1..], p, x);
      assert s == [s[0]] + s[1..];
    }
  }

  lemma {:induction false} KeepJoins<T>(a: seq<T>, b: seq<T>, p: T -> bool)
    ensures Keep(a + b, p) == Keep(a, p) + Keep(b, p)
  {
    if a == [] {
      assert a + b == b;
    } else {
      KeepJoins(a[1..], b, p);
      assert (a + b)[0] == a[0] && (a + b)[1..] == a[1..] + b;
      var rest := Keep(a[1..], p);
      assert ([a[0]] + rest) + Keep(b, p) == [a[0]] + (rest + Keep(b, p));
    }
  }

  lemma KeepDrops<T>(a: seq<T>, x: T, b: seq<T>, p: T -> bool)
    requires !p(x)
    ensures Keep(a + ([x] + b), p) == Keep(a + b, p)
  {
    KeepJoins(a, [x] + b, p);
    KeepJoins(a, b, p);
    assert ([x] + b)[1..] == b;
  }

  lemma {:induction false} KeepAll<T>(s: seq<T>, p: T -> bool)
    requires forall i :: 0 <= i < |s| ==> p(s[i])
    ensures Keep(s, p) == s
  {
    if s != [] {
      KeepAll(s[1..], p);
    }
  }

  lemma {:induction false} KeepNone<T>(s: seq<T>, p: T -> bool)
    requires forall i :: 0 <= i < |s| ==> !p(s[i])
    ensures Keep(s, p) == []
  {
    if s != [] {
      KeepNone(s[1..], p);
    }
  }

  lemma {:induction false} KeepDistinct<T>(s: seq<T>, p: T -> bool)
    requires Distinct(s)
    ensures Distinct(Keep(s, p))
  {
    if s != [] {
      KeepDistinct(s[1..], p);
      KeepHolds(s[1..], p, s[0]);
    }
  }

  function Without<T(==)>(s: seq<T>, x: T): seq<T> { Keep(s, y => y != x) }

  lemma WithoutHolds<T>(s: seq<T>, x: T, y: T)
    ensures y in Without(s, x) <==> y in s && y != x
  {
    KeepHolds(s, z => z != x, y);
  }

  lemma WithoutDistinct<T>(s: seq<T>, x: T)
    requires Distinct(s)
    ensures Distinct(Without(s, x))
  {
    KeepDistinct(s, y => y != x);
  }

  lemma WithoutNothing<T>(s: seq<T>, x: T)
    requires x !in s
    ensures Without(s, x) == s
  {
    KeepAll(s, y => y != x);
  }

  lemma WithoutLast<T>(s: seq<T>, x: T)
    requires x !in s
    ensures Without(s + [x], x) == s
  {
    KeepJoins(s, [x], y => y != x);
    WithoutNothing(s, x);
    assert Keep([x], y => y != x) == [];
  }

  lemma {:induction false} KeepShorter<T>(s: seq<T>, p: T -> bool)
    ensures |Keep(s, p)| <= |s|
  {
    if s != [] {
      KeepShorter(s[1..], p);
    }
  }

  lemma WithoutShorter<T>(s: seq<T>, x: T)
    ensures |Without(s, x)| <= |s|
  {
    KeepShorter(s, y => y != x);
  }

  function Swap<T>(s: seq<T>, i: int, j: int): seq<T>
    requires 0 <= i < |s| && 0 <= j < |s|
  {
    s[i := s[j]][j := s[i]]
  }

  lemma SwapPermutes<T>(s: seq<T>, i: int, j: int, defaults: seq<T>)
    requires 0 <= i < |s| && 0 <= j < |s| && Permutes(s, defaults)
    ensures Permutes(Swap(s, i, j), defaults)
  {
    var r := Swap(s, i, j);
    forall k | 0 <= k < |defaults|
      ensures defaults[k] in r
    {
      assert defaults[k] in s;
      var at :| 0 <= at < |s| && s[at] == defaults[k];
      assert r[if at == i then j else if at == j then i else at] == defaults[k];
    }
  }

  /** Two lists of distinct elements, the first within the second, are equally long only when they hold the same. */
  lemma {:induction false} WithinLength<T>(s: seq<T>, t: seq<T>)
    requires Distinct(s) && forall i :: 0 <= i < |s| ==> s[i] in t
    ensures |s| <= |t|
    decreases |s|
  {
    if s != [] {
      var at :| 0 <= at < |t| && t[at] == s[0];
      var u := t[..at] + t[at + 1..];
      forall i | 0 <= i < |s| - 1
        ensures s[1..][i] in u
      {
        var k :| 0 <= k < |t| && t[k] == s[i + 1];
        assert k != at;
        assert u[if k < at then k else k - 1] == t[k];
      }
      WithinLength(s[1..], u);
    }
  }

  lemma PermutesLength<T>(s: seq<T>, defaults: seq<T>)
    requires Permutes(s, defaults) && Distinct(defaults)
    ensures |s| == |defaults|
  {
    WithinLength(s, defaults);
    WithinLength(defaults, s);
  }

  /** A list around two of its elements. */
  function Around<T>(a: seq<T>, x: T, b: seq<T>, y: T, c: seq<T>): seq<T> { a + ([x] + (b + ([y] + c))) }

  lemma SwapAround<T>(s: seq<T>, i: nat, j: nat)
    requires i < j < |s|
    ensures s == Around(s[..i], s[i], s[i + 1..j], s[j], s[j + 1..])
    ensures Swap(s, i, j) == Around(s[..i], s[j], s[i + 1..j], s[i], s[j + 1..])
    ensures Swap(s, j, i) == Swap(s, i, j)
  {
  }

  lemma KeepAround<T>(a: seq<T>, x: T, b: seq<T>, y: T, c: seq<T>, p: T -> bool)
    ensures p(x) && p(y) ==> Keep(Around(a, x, b, y, c), p) == Around(Keep(a, p), x, Keep(b, p), y, Keep(c, p))
    ensures !p(x) && !p(y) ==> Keep(Around(a, x, b, y, c), p) == Keep(a, p) + (Keep(b, p) + Keep(c, p))
  {
    KeepJoins(a, [x] + (b + ([y] + c)), p);
    KeepJoins([x], b + ([y] + c), p);
    KeepJoins(b, [y] + c, p);
    KeepJoins([y], c, p);
    assert Keep([x], p) == if p(x) then [x] else [];
    assert Keep([y], p) == if p(y) then [y] else [];
    if !p(x) && !p(y) {
      assert [] + Keep(c, p) == Keep(c, p);
      assert [] + (Keep(b, p) + Keep(c, p)) == Keep(b, p) + Keep(c, p);
    }
  }

  lemma IndexAround<T>(a: seq<T>, x: T, b: seq<T>, y: T, c: seq<T>)
    requires Distinct(Around(a, x, b, y, c))
    ensures IndexOf(Around(a, x, b, y, c), x) == |a|
    ensures IndexOf(Around(a, x, b, y, c), y) == |a| + 1 + |b|
  {
    var s := Around(a, x, b, y, c);
    assert s[|a|] == x && s[|a| + 1 + |b|] == y;
    OnlyIndex(s, |a|);
    OnlyIndex(s, |a| + 1 + |b|);
  }

  lemma OnlyIndex<T>(s: seq<T>, i: nat)
    requires Distinct(s) && i < |s|
    ensures IndexOf(s, s[i]) == i
  {
  }

  lemma SwapInAround<T>(a: seq<T>, x: T, b: seq<T>, y: T, c: seq<T>)
    requires Distinct(Around(a, x, b, y, c))
    ensures var s := Around(a, x, b, y, c);
            && x in s && y in s
            && Swap(s, IndexOf(s, x), IndexOf(s, y)) == Around(a, y, b, x, c)
  {
    var s := Around(a, x, b, y, c);
    IndexAround(a, x, b, y, c);
    assert s[|a|] == x && s[|a| + 1 + |b|] == y;
  }

  lemma KeepSwapInOrder<T>(s: seq<T>, i: nat, j: nat, p: T -> bool)
    requires Distinct(s) && i < j < |s| && p(s[i]) && p(s[j])
    ensures var kept := Keep(s, p);
            && s[i] in kept && s[j] in kept
            && Keep(Swap(s, i, j), p) == Swap(kept, IndexOf(kept, s[i]), IndexOf(kept, s[j]))
  {
    var a, b, c := s[..i], s[i + 1..j], s[j + 1..];
    var x, y := s[i], s[j];
    SwapAround(s, i, j);
    KeepDistinct(s, p);
    KeepAround(a, x, b, y, c, p);
    KeepAround(a, y, b, x, c, p);
    SwapInAround(Keep(a, p), x, Keep(b, p), y, Keep(c, p));
  }

  lemma SwapEitherWay<T>(s: seq<T>, i: nat, j: nat)
    requires i < |s| && j < |s|
    ensures Swap(s, i, j) == Swap(s, j, i)
  {
  }

  /** Swapping two kept elements swaps them in what is kept. */
  lemma KeepSwap<T>(s: seq<T>, i: nat, j: nat, p: T -> bool)
    requires Distinct(s) && i < |s| && j < |s| && i != j && p(s[i]) && p(s[j])
    ensures var kept := Keep(s, p);
            && s[i] in kept && s[j] in kept
            && Keep(Swap(s, i, j), p) == Swap(kept, IndexOf(kept, s[i]), IndexOf(kept, s[j]))
  {
    if i < j {
      KeepSwapInOrder(s, i, j, p);
    } else {
      KeepSwapInOrder(s, j, i, p);
      SwapEitherWay(s, i, j);
      SwapEitherWay(Keep(s, p), IndexOf(Keep(s, p), s[i]), IndexOf(Keep(s, p), s[j]));
    }
  }

  lemma KeepOthersInOrder<T>(s: seq<T>, i: nat, j: nat, p: T -> bool)
    requires i < j < |s| && !p(s[i]) && !p(s[j])
    ensures Keep(Swap(s, i, j), p) == Keep(s, p)
  {
    SwapAround(s, i, j);
    KeepAround(s[..i], s[i], s[i + 1..j], s[j], s[j + 1..], p);
    KeepAround(s[..i], s[j], s[i + 1..j], s[i], s[j + 1..], p);
  }

  lemma KeepOthers<T>(s: seq<T>, i: nat, j: nat, p: T -> bool)
    requires i < |s| && j < |s| && i != j && !p(s[i]) && !p(s[j])
    ensures Keep(Swap(s, i, j), p) == Keep(s, p)
  {
    SwapEitherWay(s, i, j);
    if i < j {
      KeepOthersInOrder(s, i, j, p);
    } else {
      KeepOthersInOrder(s, j, i, p);
    }
  }

  predicate DistinctBy<T, K(==)>(s: seq<T>, key: T -> K) { forall i, j :: 0 <= i < j < |s| ==> key(s[i]) != key(s[j]) }

  lemma CountTwice<T>(a: seq<T>, i: nat, j: nat)
    requires i < j < |a| && a[i] == a[j]
    ensures multiset(a)[a[i]] >= 2
  {
    assert a == a[..i] + [a[i]] + a[i + 1..j] + [a[j]] + a[j + 1..];
  }

  lemma CountOnce<T, K>(b: seq<T>, p: nat, key: T -> K)
    requires p < |b| && DistinctBy(b, key)
    ensures multiset(b)[b[p]] == 1
  {
    assert b == b[..p] + [b[p]] + b[p + 1..];
    assert b[p] !in b[..p];
    assert b[p] !in b[p + 1..];
  }

  /** A rearrangement of elements with distinct keys has distinct keys. */
  lemma SameBagDistinct<T, K>(a: seq<T>, b: seq<T>, key: T -> K)
    requires multiset(a) == multiset(b) && DistinctBy(b, key)
    ensures DistinctBy(a, key)
  {
    forall i, j | 0 <= i < j < |a|
      ensures key(a[i]) != key(a[j])
    {
      if key(a[i]) == key(a[j]) {
        assert a[i] in multiset(a) && a[j] in multiset(a);
        var p :| 0 <= p < |b| && b[p] == a[i];
        var q :| 0 <= q < |b| && b[q] == a[j];
        assert p == q;
        CountTwice(a, i, j);
        CountOnce(b, p, key);
      }
    }
  }

  /** A list as it is stored, every element known. */
  function Somes<T>(s: seq<T>): (r: seq<Option<T>>)
    ensures |r| == |s| && forall i :: 0 <= i < |s| ==> r[i] == Some(s[i])
  {
    seq(|s|, i requires 0 <= i < |s| => Some(s[i]))
  }
}
