/**
 * Stable sorting by a strict weak order: sorted, a permutation, and the only
 * such list where no two different elements are equal. And the order of texts.
 */
module Sorting {
  // ----- Texts, character by character -----

  predicate LexLess(s: string, t: string) {
    t != "" && (s == "" || s[0] < t[0] || (s[0] == t[0] && LexLess(s[1..], t[1..])))
  }

  lemma {:induction false} LexTransitive(s: string, t: string, u: string)
    ensures LexLess(s, t) && LexLess(t, u) ==> LexLess(s, u)
    ensures !LexLess(s, s)
    decreases |s| + |t| + |u|
  {
    if s != "" {
      LexTransitive(s[1..], if t != "" then t[1..] else "", if u != "" then u[1..] else "");
    }
  }

  lemma {:induction false} LexTotal(s: string, t: string)
    ensures s == t || LexLess(s, t) || LexLess(t, s)
  {
    if s != "" && t != "" {
      LexTotal(s[1..], t[1..]);
      assert s == [s[0]] + s[1..] && t == [t[0]] + t[1..];
    }
  }

  // ----- Sorting -----

  /** Irreflexive, and "not less" can be chained. */
  ghost predicate Order<T(!new)>(less: (T, T) -> bool) {
    && (forall a :: !less(a, a))
    && (forall a, b, c :: less(a, b) && less(b, c) ==> less(a, c))
    && (forall a, b, c :: !less(b, a) && !less(c, b) ==> !less(c, a))
  }

  /** Puts an element behind those that are not greater. */
  function Insert<T>(less: (T, T) -> bool, s: seq<T>, x: T): seq<T> {
    if s == [] then [x] else if less(x, s[0]) then [x] + s else [s[0]] + Insert(less, s[1..], x)
  }

  function Sort<T>(less: (T, T) -> bool, s: seq<T>): seq<T> {
    if s == [] then [] else Insert(less, Sort(less, s[..|s| - 1]), s[|s| - 1])
  }

  ghost predicate Sorted<T>(less: (T, T) -> bool, s: seq<T>) { forall i, j :: 0 <= i < j < |s| ==> !less(s[j], s[i]) }

  lemma {:induction false} InsertHolds<T>(less: (T, T) -> bool, s: seq<T>, x: T)
    ensures multiset(Insert(less, s, x)) == multiset(s) + multiset{x}
  {
    if s != [] {
      assert s == [s[0]] + s[1..];
      InsertHolds(less, s[1..], x);
    }
  }

  lemma {:induction false} InsertSorts<T(!new)>(less: (T, T) -> bool, s: seq<T>, x: T)
    requires Order(less) && Sorted(less, s)
    ensures Sorted(less, Insert(less, s, x))
  {
    if s != [] {
      if less(x, s[0]) {
        forall j | 0 <= j < |s|
          ensures !less(s[j], x)
        {
          assert !less(s[0], x);
          assert j > 0 ==> !less(s[j], s[0]);
        }
      } else {
        var r := Insert(less, s[1..], x);
        InsertSorts(less, s[1..], x);
        InsertHolds(less, s[1..], x);
        forall j | 0 <= j < |r|
          ensures !less(r[j], s[0])
        {
          assert r[j] in multiset(r);
          assert r[j] == x || r[j] in s[1..];
        }
      }
    }
  }

  lemma {:induction false} SortHolds<T>(less: (T, T) -> bool, s: seq<T>)
    ensures multiset(Sort(less, s)) == multiset(s)
    decreases |s|
  {
    if s != [] {
      var n := |s| - 1;
      SortHolds(less, s[..n]);
      InsertHolds(less, Sort(less, s[..n]), s[n]);
      assert s == s[..n] + [s[n]];
    }
  }

  lemma {:induction false} SortSorts<T(!new)>(less: (T, T) -> bool, s: seq<T>)
    requires Order(less)
    ensures Sorted(less, Sort(less, s))
    decreases |s|
  {
    if s != [] {
      SortSorts(less, s[..|s| - 1]);
      InsertSorts(less, Sort(less, s[..|s| - 1]), s[|s| - 1]);
    }
  }

  // ----- Sorted lists of the same elements -----

  /** Elements that neither is less than the other are the same. */
  ghost predicate Antisymmetric<T(!new)>(less: (T, T) -> bool, s: seq<T>) {
    forall x, y :: x in s && y in s && !less(x, y) && !less(y, x) ==> x == y
  }

  lemma SameFirst<T(!new)>(less: (T, T) -> bool, s: seq<T>, t: seq<T>)
    requires Order(less) && Sorted(less, s) && Sorted(less, t) && multiset(s) == multiset(t) && Antisymmetric(less, s)
    requires s != [] && t != []
    ensures s[0] == t[0]
  {
    assert s[0] in multiset(t) && t[0] in multiset(s);
    var i :| 0 <= i < |s| && s[i] == t[0];
    var j :| 0 <= j < |t| && t[j] == s[0];
    assert !less(s[i], s[0]) && !less(t[j], t[0]);
  }

  lemma WithoutFirst<T>(s: seq<T>, t: seq<T>)
    requires s != [] && t != [] && s[0] == t[0] && multiset(s) == multiset(t)
    ensures multiset(s[1..]) == multiset(t[1..])
  {
    assert s == [s[0]] + s[1..] && t == [t[0]] + t[1..];
    assert multiset(s[1..]) == multiset(s) - multiset{s[0]};
    assert multiset(t[1..]) == multiset(t) - multiset{s[0]};
  }

  lemma {:induction false} SortedUnique<T(!new)>(less: (T, T) -> bool, s: seq<T>, t: seq<T>)
    requires Order(less) && Sorted(less, s) && Sorted(less, t) && multiset(s) == multiset(t) && Antisymmetric(less, s)
    ensures s == t
    decreases |s|
  {
    assert |multiset(s)| == |s| && |multiset(t)| == |t|;
    if s != [] {
      SameFirst(less, s, t);
      WithoutFirst(s, t);
      SortedUnique(less, s[1..], t[1..]);
    }
  }

  // ----- Sorting around an element -----

  lemma {:induction false} InsertAtPlace<T>(less: (T, T) -> bool, s: seq<T>, c: T) returns (u: seq<T>, v: seq<T>)
    ensures Insert(less, s, c) == u + ([c] + v) && s == u + v
  {
    if s == [] || less(c, s[0]) {
      u, v := [], s;
      assert [] + s == s && [] + ([c] + s) == [c] + s;
    } else {
      var u0, v0 := InsertAtPlace(less, s[1..], c);
      u, v := [s[0]] + u0, v0;
      assert s == [s[0]] + s[1..];
    }
  }

  lemma InsertAtHead<T(!new)>(less: (T, T) -> bool, c: T, v: seq<T>, e: T) returns (u': seq<T>, v': seq<T>)
    requires Order(less) && Sorted(less, [c] + v)
    ensures Insert(less, [c] + v, e) == u' + ([c] + v') && Insert(less, v, e) == u' + v'
  {
    assert ([c] + v)[1..] == v;
    if less(e, c) {
      u', v' := [e], v;
      if v != [] {
        var s := [c] + v;
        assert s[0] == c && s[1] == v[0] && !less(s[1], s[0]);
      }
    } else {
      u', v' := [], Insert(less, v, e);
      assert [] + v' == v' && [] + ([c] + v') == [c] + v';
    }
  }

  /** Inserting goes on around an element of a sorted list. */
  lemma {:induction false} InsertAround<T(!new)>(less: (T, T) -> bool, u: seq<T>, c: T, v: seq<T>, e: T)
    returns (u': seq<T>, v': seq<T>)
    requires Order(less) && Sorted(less, u + ([c] + v))
    ensures Insert(less, u + ([c] + v), e) == u' + ([c] + v') && Insert(less, u + v, e) == u' + v'
    decreases |u|
  {
    if u == [] {
      assert [] + ([c] + v) == [c] + v && [] + v == v;
      u', v' := InsertAtHead(less, c, v, e);
    } else {
      var w := [c] + v;
      assert (u + w)[0] == u[0] && (u + w)[1..] == u[1..] + w && (u + v)[1..] == u[1..] + v;
      if less(e, u[0]) {
        u', v' := [e] + u, v;
        assert [e] + (u + w) == ([e] + u) + w && [e] + (u + v) == ([e] + u) + v;
      } else {
        var u'', v'' := InsertAround(less, u[1..], c, v, e);
        u', v' := [u[0]] + u'', v'';
        assert [u[0]] + (u'' + ([c] + v'')) == u' + ([c] + v');
        assert [u[0]] + (u'' + v'') == u' + v';
      }
    }
  }

  lemma LastOf<T>(p: seq<T>, c: T, q: seq<T>)
    requires q != []
    ensures var s, t, n := p + ([c] + q), p + q, |q| - 1;
            && s[..|s| - 1] == p + ([c] + q[..n]) && s[|s| - 1] == q[n]
            && t[..|t| - 1] == p + q[..n] && t[|t| - 1] == q[n]
  {
  }

  /** Sorting with one element more gives the same list with that one somewhere in it. */
  lemma {:induction false} SortAround<T(!new)>(less: (T, T) -> bool, p: seq<T>, c: T, q: seq<T>) returns (u: seq<T>, v: seq<T>)
    requires Order(less)
    ensures Sort(less, p + ([c] + q)) == u + ([c] + v) && Sort(less, p + q) == u + v
    decreases |q|
  {
    if q == [] {
      assert (p + ([c] + q))[..|p|] == p && p + q == p;
      u, v := InsertAtPlace(less, Sort(less, p), c);
    } else {
      var n := |q| - 1;
      var u0, v0 := SortAround(less, p, c, q[..n]);
      LastOf(p, c, q);
      SortSorts(less, p + ([c] + q[..n]));
      u, v := InsertAround(less, u0, c, v0, q[n]);
    }
  }

  // ----- Sorting in parts -----

  /** Inserts all elements, one after the other. */
  function InsertAll<T>(less: (T, T) -> bool, s: seq<T>, more: seq<T>): seq<T>
    decreases |more|
  {
    if more == [] then s else InsertAll(less, Insert(less, s, more[0]), more[1..])
  }

  lemma {:induction false} SortIsInsertAll<T>(less: (T, T) -> bool, s: seq<T>, more: seq<T>)
    ensures Sort(less, s + more) == InsertAll(less, Sort(less, s), more)
    decreases |more|
  {
    if more == [] {
      assert s + more == s;
    } else {
      var s' := s + [more[0]];
      assert s'[..|s'| - 1] == s;
      assert s + more == s' + more[1..];
      SortIsInsertAll(less, s', more[1..]);
    }
  }

  lemma {:induction false} InsertLast<T(!new)>(less: (T, T) -> bool, s: seq<T>, x: T)
    requires Sorted(less, s + [x])
    ensures Insert(less, s, x) == s + [x]
  {
    if s != [] {
      assert (s + [x])[|s|] == x && (s + [x])[0] == s[0];
      assert (s + [x])[1..] == s[1..] + [x];
      InsertLast(less, s[1..], x);
    }
  }

  lemma {:induction false} SortSorted<T(!new)>(less: (T, T) -> bool, s: seq<T>)
    requires Sorted(less, s)
    ensures Sort(less, s) == s
    decreases |s|
  {
    if s != [] {
      var n := |s| - 1;
      SortSorted(less, s[..n]);
      assert s == s[..n] + [s[n]];
      InsertLast(less, s[..n], s[n]);
    }
  }

  /** The lesser of two elements may be inserted first or second. */
  lemma {:induction false} InsertCommutes<T(!new)>(less: (T, T) -> bool, s: seq<T>, e: T, b: T)
    requires Order(less) && less(e, b)
    ensures Insert(less, Insert(less, s, e), b) == Insert(less, Insert(less, s, b), e)
  {
    if s != [] {
      assert ([e] + s)[1..] == s && ([b] + s)[1..] == s;
      InsertCommutes(less, s[1..], e, b);
      var te, tb := Insert(less, s[1..], e), Insert(less, s[1..], b);
      assert ([s[0]] + te)[1..] == te && ([s[0]] + tb)[1..] == tb;
    } else {
      assert [e][1..] == [] && [b][1..] == [];
    }
  }

  lemma {:induction false} InsertBefore<T(!new)>(less: (T, T) -> bool, s: seq<T>, e: T, more: seq<T>)
    requires Order(less) && forall i :: 0 <= i < |more| ==> less(e, more[i])
    ensures InsertAll(less, Insert(less, s, e), more) == Insert(less, InsertAll(less, s, more), e)
    decreases |more|
  {
    if more != [] {
      InsertCommutes(less, s, e, more[0]);
      InsertBefore(less, Insert(less, s, more[0]), e, more[1..]);
    }
  }

  lemma {:induction false} InsertAllInserted<T(!new)>(less: (T, T) -> bool, s: seq<T>, more: seq<T>, e: T)
    requires Order(less) && Sorted(less, more)
    ensures InsertAll(less, s, Insert(less, more, e)) == Insert(less, InsertAll(less, s, more), e)
    decreases |more|
  {
    if more == [] {
      assert [e][1..] == [];
    } else if less(e, more[0]) {
      forall i | 0 <= i < |more|
        ensures less(e, more[i])
      {
        assert i > 0 ==> !less(more[i], more[0]);
      }
      assert ([e] + more)[1..] == more;
      InsertBefore(less, s, e, more);
    } else {
      var rest := Insert(less, more[1..], e);
      assert ([more[0]] + rest)[1..] == rest;
      InsertAllInserted(less, Insert(less, s, more[0]), more[1..], e);
    }
  }

  lemma {:induction false} InsertAllSorted<T(!new)>(less: (T, T) -> bool, s: seq<T>, more: seq<T>)
    requires Order(less)
    ensures InsertAll(less, s, Sort(less, more)) == InsertAll(less, s, more)
    decreases |more|
  {
    if more != [] {
      var n := |more| - 1;
      InsertAllSorted(less, s, more[..n]);
      SortSorts(less, more[..n]);
      InsertAllInserted(less, s, Sort(less, more[..n]), more[n]);
      InsertAllLast(less, s, more[..n], more[n]);
      assert more == more[..n] + [more[n]];
    }
  }

  lemma {:induction false} InsertAllLast<T>(less: (T, T) -> bool, s: seq<T>, more: seq<T>, e: T)
    ensures InsertAll(less, s, more + [e]) == Insert(less, InsertAll(less, s, more), e)
    decreases |more|
  {
    if more == [] {
      assert more + [e] == [e] && [e][1..] == [];
    } else {
      InsertAllLast(less, Insert(less, s, more[0]), more[1..], e);
      assert (more + [e])[1..] == more[1..] + [e];
    }
  }

  /** Sorting two parts and then the whole is sorting the whole. */
  lemma SortInParts<T(!new)>(less: (T, T) -> bool, a: seq<T>, b: seq<T>)
    requires Order(less)
    ensures Sort(less, Sort(less, a) + Sort(less, b)) == Sort(less, a + b)
  {
    SortSorts(less, a);
    SortSorted(less, Sort(less, a));
    SortIsInsertAll(less, Sort(less, a), Sort(less, b));
    InsertAllSorted(less, Sort(less, a), b);
    SortIsInsertAll(less, a, b);
  }
}
