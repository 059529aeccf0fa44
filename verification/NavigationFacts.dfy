/** Any run of sidebar changes keeps the preferences in their normal form, which storing and loading leave as they are. */
module NavigationFacts {
  import opened Prelude
  import opened Lists
  import opened Navigation

  // ----- Merging -----

  ghost predicate Within<T>(kept: seq<T>, defaults: seq<T>) { Distinct(kept) && forall x :: x in kept ==> x in defaults }

  /** The known stored ids, each once. */
  lemma {:induction false} KeptFacts<T>(stored: seq<Option<T>>, defaults: seq<T>)
    ensures Within(Kept(stored, defaults), defaults)
    ensures forall x :: x in Kept(stored, defaults) <==> Some(x) in stored && x in defaults
  {
    if stored != [] {
      var n := |stored| - 1;
      KeptFacts(stored[..n], defaults);
      assert stored == stored[..n] + [stored[n]];
    }
  }

  /** No repeats, only defaults, and all that was kept or comes before `n`. */
  ghost predicate Covers<T>(out: seq<T>, kept: seq<T>, defaults: seq<T>, n: nat)
    requires n <= |defaults|
  {
    && Within(out, defaults)
    && (forall x :: x in kept ==> x in out)
    && (forall x :: x in defaults[..n] ==> x in out)
  }

  lemma {:induction false} FillCovers<T>(kept: seq<T>, defaults: seq<T>, n: nat)
    requires n <= |defaults| && Within(kept, defaults)
    ensures Covers(Fill(kept, defaults, n), kept, defaults, n)
    decreases n
  {
    if n > 0 {
      FillCovers(kept, defaults, n - 1);
      var out := Fill(kept, defaults, n - 1);
      assert defaults[..n] == defaults[..n - 1] + [defaults[n - 1]];
      if defaults[n - 1] !in out {
        InsertCovers(out, kept, defaults, n - 1, if n == 1 then 0 else IndexOf(out, defaults[n - 2]) + 1);
      }
    }
  }

  lemma InsertCovers<T>(out: seq<T>, kept: seq<T>, defaults: seq<T>, n: nat, i: int)
    requires n < |defaults| && 0 <= i <= |out| && Covers(out, kept, defaults, n) && defaults[n] !in out
    ensures Covers(InsertAt(out, i, defaults[n]), kept, defaults, n + 1)
  {
    InsertFacts(out, i, defaults[n]);
    assert defaults[..n + 1] == defaults[..n] + [defaults[n]];
  }

  lemma {:induction false} InsertFacts<T>(s: seq<T>, i: int, x: T)
    requires 0 <= i <= |s| && Distinct(s) && x !in s
    ensures Distinct(InsertAt(s, i, x)) && x in InsertAt(s, i, x)
    ensures forall y :: y in s ==> y in InsertAt(s, i, x)
    ensures forall y :: y in InsertAt(s, i, x) ==> y == x || y in s
  {
    assert InsertAt(s, i, x)[i] == x;
    forall k | 0 <= k < |s|
      ensures s[k] in InsertAt(s, i, x)
    {
      assert InsertAt(s, i, x)[if k < i then k else k + 1] == s[k];
    }
  }

  /** What is merged is a permutation of the defaults. */
  lemma MergePermutes<T>(stored: seq<Option<T>>, defaults: seq<T>)
    ensures Permutes(MergeFn(stored, defaults), defaults)
  {
    KeptFacts(stored, defaults);
    FillCovers(Kept(stored, defaults), defaults, |defaults|);
  }

  function AmongKept<T(==)>(out: seq<T>, kept: seq<T>): seq<T> { Keep(out, x => x in kept) }

  lemma InsertOther<T>(out: seq<T>, kept: seq<T>, i: int, x: T)
    requires 0 <= i <= |out| && x !in kept
    ensures AmongKept(InsertAt(out, i, x), kept) == AmongKept(out, kept)
  {
    KeepDrops(out[..i], x, out[i..], y => y in kept);
    assert out[..i] + out[i..] == out;
    assert InsertAt(out, i, x) == out[..i] + ([x] + out[i..]);
  }

  /** The stored ids keep their order. */
  lemma {:induction false} FillKeepsOrder<T>(kept: seq<T>, defaults: seq<T>, n: nat)
    requires n <= |defaults| && Within(kept, defaults)
    ensures AmongKept(Fill(kept, defaults, n), kept) == kept
    decreases n
  {
    if n == 0 {
      KeepAll(kept, x => x in kept);
    } else {
      FillKeepsOrder(kept, defaults, n - 1);
      FillCovers(kept, defaults, n - 1);
      var out := Fill(kept, defaults, n - 1);
      if defaults[n - 1] !in out {
        InsertOther(out, kept, if n == 1 then 0 else IndexOf(out, defaults[n - 2]) + 1, defaults[n - 1]);
      }
    }
  }

  predicate NextTo<T(==)>(s: seq<T>, a: T, b: T) { exists i :: 0 <= i < |s| - 1 && s[i] == a && s[i + 1] == b }

  /** Each default up to `n` that was not stored sits right after its default predecessor, the first one in front. */
  predicate MissingInPlace<T(==)>(out: seq<T>, kept: seq<T>, defaults: seq<T>, n: nat)
    requires n <= |defaults|
  {
    && (n > 0 && defaults[0] !in kept ==> out != [] && out[0] == defaults[0])
    && (forall k :: 0 < k < n && defaults[k] !in kept ==> NextTo(out, defaults[k - 1], defaults[k]))
  }

  lemma InsertKeepsNext<T>(s: seq<T>, p: int, x: T, a: T, b: T)
    requires 0 <= p < |s| && Distinct(s) && NextTo(s, a, b) && s[p] != a
    ensures NextTo(InsertAt(s, p + 1, x), a, b)
  {
    var i :| 0 <= i < |s| - 1 && s[i] == a && s[i + 1] == b;
    var r := InsertAt(s, p + 1, x);
    if i < p {
      assert r[i] == a && r[i + 1] == b;
    } else {
      assert r[i + 1] == a && r[i + 2] == b;
    }
  }

  lemma {:induction false} FillPlaces<T>(kept: seq<T>, defaults: seq<T>, n: nat)
    requires n <= |defaults| && Distinct(defaults) && Within(kept, defaults)
    ensures MissingInPlace(Fill(kept, defaults, n), kept, defaults, n)
    decreases n
  {
    if n > 0 {
      FillPlaces(kept, defaults, n - 1);
      FillCovers(kept, defaults, n - 1);
      var out := Fill(kept, defaults, n - 1);
      if defaults[n - 1] in out {
        StillAbsent(kept, defaults, n - 1);
      } else if n > 1 {
        PlaceNext(out, kept, defaults, n - 1);
      }
    }
  }

  lemma PlaceNext<T>(out: seq<T>, kept: seq<T>, defaults: seq<T>, n: nat)
    requires 0 < n < |defaults| && Distinct(defaults) && Covers(out, kept, defaults, n)
    requires MissingInPlace(out, kept, defaults, n)
    ensures MissingInPlace(InsertAt(out, IndexOf(out, defaults[n - 1]) + 1, defaults[n]), kept, defaults, n + 1)
  {
    var p := IndexOf(out, defaults[n - 1]);
    var r := InsertAt(out, p + 1, defaults[n]);
    forall k | 0 < k < n && defaults[k] !in kept
      ensures NextTo(r, defaults[k - 1], defaults[k])
    {
      InsertKeepsNext(out, p, defaults[n], defaults[k - 1], defaults[k]);
    }
    assert r[p] == defaults[n - 1] && r[p + 1] == defaults[n];
  }

  /** What is put in is a default before `n`, or was kept. */
  lemma StillAbsent<T>(kept: seq<T>, defaults: seq<T>, n: nat)
    requires n < |defaults| && Distinct(defaults)
    ensures defaults[n] in Fill(kept, defaults, n) ==> defaults[n] in kept
  {
    FillOnly(kept, defaults, n);
  }

  lemma {:induction false} FillOnly<T>(kept: seq<T>, defaults: seq<T>, n: nat)
    requires n <= |defaults|
    ensures forall x :: x in Fill(kept, defaults, n) ==> x in kept || x in defaults[..n]
    decreases n
  {
    if n > 0 {
      FillOnly(kept, defaults, n - 1);
      assert forall x :: x in defaults[..n - 1] ==> x in defaults[..n];
      assert defaults[..n][n - 1] == defaults[n - 1];
    }
  }

  /**
   * Merging: the defaults, each once; the known stored ids in their stored
   * order; every other id right after its default predecessor.
   */
  lemma MergeRepairs<T>(stored: seq<Option<T>>, defaults: seq<T>)
    requires Distinct(defaults)
    ensures var kept, out := Kept(stored, defaults), MergeFn(stored, defaults);
            && Permutes(out, defaults)
            && AmongKept(out, kept) == kept
            && MissingInPlace(out, kept, defaults, |defaults|)
  {
    KeptFacts(stored, defaults);
    MergePermutes(stored, defaults);
    FillKeepsOrder(Kept(stored, defaults), defaults, |defaults|);
    FillPlaces(Kept(stored, defaults), defaults, |defaults|);
  }

  lemma {:induction false} KeptAll<T>(s: seq<T>, defaults: seq<T>)
    requires Distinct(s) && forall i :: 0 <= i < |s| ==> s[i] in defaults
    ensures Kept(Somes(s), defaults) == s
  {
    if s != [] {
      var n := |s| - 1;
      KeptAll(s[..n], defaults);
      assert Somes(s)[..n] == Somes(s[..n]);
    }
  }

  lemma {:induction false} NothingToFill<T>(kept: seq<T>, defaults: seq<T>, n: nat)
    requires n <= |defaults| && forall x :: x in defaults ==> x in kept
    ensures Fill(kept, defaults, n) == kept
    decreases n
  {
    if n > 0 {
      NothingToFill(kept, defaults, n - 1);
      assert defaults[n - 1] in defaults;
    }
  }

  lemma MergeFixed<T>(s: seq<T>, defaults: seq<T>)
    requires Permutes(s, defaults)
    ensures MergeFn(Somes(s), defaults) == s
  {
    KeptAll(s, defaults);
    NothingToFill(s, defaults, |defaults|);
  }

  // ----- The normal form -----

  ghost predicate GroupOk(lay: Layout, g: seq<View>, s: SectionId) {
    Permutes(g, Own(lay, s)) && (PINNED_VIEW in Own(lay, s) ==> g != [] && g[0] == PINNED_VIEW)
  }

  /** Section by section, each with its own items. */
  ghost predicate Grouped(lay: Layout, order: seq<View>, sections: seq<SectionId>)
    decreases |sections|
  {
    if sections == [] then order == [] else
    var n := |sections| - 1;
    var k := |order| - |Own(lay, sections[n])|;
    k >= 0 && GroupOk(lay, order[k..], sections[n]) && Grouped(lay, order[..k], sections[..n])
  }

  ghost predicate HiddenOk(lay: Layout, hidden: seq<View>) { Hideable(lay, hidden) && !AllHidden(lay, hidden) }

  ghost predicate SectionsOk(lay: Layout, sections: seq<SectionId>) {
    Permutes(sections, lay.sections) && sections != [] && sections[0] == PINNED_SECTION
  }

  ghost predicate Normal(lay: Layout, p: NavPrefs) { SectionsOk(lay, p.sections) && Grouped(lay, p.order, lay.sections) && HiddenOk(lay, p.hidden) }

  lemma PinFirst<T>(items: seq<T>, x: T, defaults: seq<T>)
    requires Permutes(items, defaults) && x in defaults
    ensures Permutes(PinnedFirst(items, x), defaults)
  {
    var rest := Without(items, x);
    var r := PinnedFirst(items, x);
    WithoutDistinct(items, x);
    WithoutHolds(items, x, x);
    assert r[0] == x && r[1..] == rest;
    forall y
      ensures y in r <==> y == x || y in rest
      ensures y in rest <==> y in items && y != x
    {
      WithoutHolds(items, x, y);
      assert r == [x] + rest;
    }
    forall y | y in r
      ensures y in defaults
    {
      WithoutHolds(items, x, y);
      assert y == x || y in rest;
    }
    forall y | y in defaults
      ensures y in r
    {
      assert y in items;
    }
    forall i, j | 0 <= i < j < |r|
      ensures r[i] != r[j]
    {
      assert r[j] == rest[j - 1];
      assert r[j] in rest;
    }
  }

  lemma GroupIsOk(lay: Layout, order: seq<Option<View>>, s: SectionId)
    requires Valid(lay)
    ensures GroupOk(lay, GroupFn(lay, order, s), s) && |GroupFn(lay, order, s)| == |Own(lay, s)|
  {
    var merged := MergeFn(OwnOf(lay, order, s), Own(lay, s));
    MergePermutes(OwnOf(lay, order, s), Own(lay, s));
    if PINNED_VIEW in Own(lay, s) {
      PinFirst(merged, PINNED_VIEW, Own(lay, s));
    } else {
      WithoutNothing(merged, PINNED_VIEW);
    }
    PermutesLength(GroupFn(lay, order, s), Own(lay, s));
  }

  lemma {:induction false} ConcatIsGrouped(lay: Layout, items: SectionId -> seq<View>, sections: seq<SectionId>)
    requires forall s :: GroupOk(lay, items(s), s) && |items(s)| == |Own(lay, s)|
    ensures Grouped(lay, Concat(items, sections), sections)
    decreases |sections|
  {
    if sections != [] {
      var n := |sections| - 1;
      ConcatIsGrouped(lay, items, sections[..n]);
      var before, all := Concat(items, sections[..n]), Concat(items, sections);
      assert all[|before|..] == items(sections[n]) && all[..|before|] == before;
    }
  }

  lemma OrderIsGrouped(lay: Layout, order: seq<Option<View>>)
    requires Valid(lay)
    ensures Grouped(lay, OrderFn(lay, order), lay.sections)
  {
    forall s
      ensures GroupOk(lay, Groups(lay, order)(s), s) && |Groups(lay, order)(s)| == |Own(lay, s)|
    {
      GroupIsOk(lay, order, s);
    }
    ConcatIsGrouped(lay, Groups(lay, order), lay.sections);
  }

  /** Items besides the pinned one, each once. */
  ghost predicate Hideable(lay: Layout, hidden: seq<View>) {
    Distinct(hidden) && forall v :: v in hidden ==> IsItem(lay, v) && v != PINNED_VIEW
  }

  lemma {:induction false} HiddenFacts(lay: Layout, hidden: seq<Option<View>>, n: nat)
    requires n <= |hidden|
    ensures Hideable(lay, HiddenFn(lay, hidden, n))
    ensures forall v :: v in HiddenFn(lay, hidden, n) ==> Some(v) in hidden[..n]
    decreases n
  {
    if n > 0 {
      HiddenFacts(lay, hidden, n - 1);
      assert hidden[..n] == hidden[..n - 1] + [hidden[n - 1]];
      if IndexOf(hidden, hidden[n - 1]) == n - 1 {
        assert hidden[n - 1] !in hidden[..n - 1];
      }
    }
  }

  lemma LastOneShows(lay: Layout, hidden: seq<View>)
    requires (exists v :: IsItem(lay, v) && v != PINNED_VIEW) && Hideable(lay, hidden)
    ensures HiddenOk(lay, LeaveOne(lay, hidden))
  {
    if hidden == [] {
      var v :| IsItem(lay, v) && v != PINNED_VIEW;
      assert v !in hidden;
    } else if AllHidden(lay, hidden) {
      var n := |hidden| - 1;
      assert hidden == hidden[..n] + [hidden[n]];
      assert hidden[n] in hidden && hidden[n] !in hidden[..n];
      forall v | v in hidden[..n]
        ensures v in hidden
      {
      }
      ShowsAll(lay, hidden[..n], hidden[n]);
      assert LeaveOne(lay, hidden) == hidden[..n];
      assert Hideable(lay, hidden[..n]);
    }
  }

  lemma ShowsAll(lay: Layout, hidden: seq<View>, v: View)
    requires IsItem(lay, v) && v != PINNED_VIEW && v !in hidden
    ensures !AllHidden(lay, hidden)
  {
  }

  lemma SectionsAreOk(lay: Layout, stored: seq<Option<SectionId>>)
    requires Distinct(lay.sections) && PINNED_SECTION in lay.sections
    ensures SectionsOk(lay, PinnedFirst(MergeFn(stored, lay.sections), PINNED_SECTION))
  {
    MergePermutes(stored, lay.sections);
    PinFirst(MergeFn(stored, lay.sections), PINNED_SECTION, lay.sections);
  }

  /** Whatever was stored is repaired to the normal form. */
  lemma NormalizeIsNormal(lay: Layout, raw: Stored)
    requires Valid(lay)
    ensures Normal(lay, NormalizeFn(lay, raw))
  {
    HasHome(lay, PINNED_VIEW);
    SectionsAreOk(lay, raw.sections);
    OrderIsGrouped(lay, raw.order);
    HiddenIsOk(lay, raw.hidden);
  }

  lemma {:induction false} HiddenIsOk(lay: Layout, stored: seq<Option<View>>)
    requires Valid(lay)
    ensures HiddenOk(lay, LeaveOne(lay, HiddenFn(lay, stored, |stored|)))
  {
    HiddenFacts(lay, stored, |stored|);
    LastOneShows(lay, HiddenFn(lay, stored, |stored|));
  }

  // ----- The normal form is a fixed point -----

  function StoredOf(p: NavPrefs): Stored { Stored(Somes(p.sections), Somes(p.order), Somes(p.hidden)) }

  lemma {:induction false} OwnOfSomes(lay: Layout, order: seq<View>, s: SectionId)
    ensures OwnOf(lay, Somes(order), s) == Somes(ItemsOf(lay, order, s))
  {
    if order != [] {
      OwnOfSomes(lay, order[1..], s);
      assert Somes(order)[1..] == Somes(order[1..]);
      var p := (v: Option<View>) => v.Some? && v.value in Own(lay, s);
      assert OwnOf(lay, Somes(order), s) == Keep(Somes(order), p);
      assert Somes([order[0]] + ItemsOf(lay, order[1..], s)) == [Some(order[0])] + Somes(ItemsOf(lay, order[1..], s));
    }
  }

  /** Where the last section's group starts. */
  function Start(lay: Layout, order: seq<View>, sections: seq<SectionId>): int
    requires sections != []
  {
    |order| - |Own(lay, sections[|sections| - 1])|
  }

  lemma GroupedParts(lay: Layout, order: seq<View>, sections: seq<SectionId>)
    requires sections != [] && Grouped(lay, order, sections)
    ensures var k := Start(lay, order, sections);
            0 <= k <= |order| && GroupOk(lay, order[k..], sections[|sections| - 1]) && Grouped(lay, order[..k], sections[..|sections| - 1])
  {
  }

  lemma GroupHome(lay: Layout, g: seq<View>, s: SectionId, i: nat)
    requires Valid(lay) && GroupOk(lay, g, s) && i < |g|
    ensures Home(lay, g[i]) == Some(s)
  {
    assert g[i] in Own(lay, s);
  }

  /** An order in groups holds only items of its sections. */
  lemma {:induction false} GroupedHomes(lay: Layout, order: seq<View>, sections: seq<SectionId>, i: nat)
    requires Valid(lay)
    requires Grouped(lay, order, sections) && i < |order|
    decreases |sections|
    ensures Home(lay, order[i]).Some? && Home(lay, order[i]).value in sections
  {
    var n := |sections| - 1;
    var k := Start(lay, order, sections);
    GroupedParts(lay, order, sections);
    if i < k {
      GroupedHomes(lay, order[..k], sections[..n], i);
    } else {
      GroupHome(lay, order[k..], sections[n], i - k);
    }
  }

  lemma ItemsJoin(lay: Layout, a: seq<View>, b: seq<View>, s: SectionId)
    ensures ItemsOf(lay, a + b, s) == ItemsOf(lay, a, s) + ItemsOf(lay, b, s)
  {
    KeepJoins(a, b, v => v in Own(lay, s));
  }

  lemma ItemsInside(lay: Layout, group: seq<View>, s: SectionId, t: SectionId)
    requires Valid(lay)
    requires forall i :: 0 <= i < |group| ==> group[i] in Own(lay, s)
    ensures ItemsOf(lay, group, t) == if s == t then group else []
  {
    if s == t {
      KeepAll(group, v => v in Own(lay, t));
    } else {
      forall j | 0 <= j < |group|
        ensures group[j] !in Own(lay, t)
      {
        HasHome(lay, group[j]);
      }
      KeepNone(group, v => v in Own(lay, t));
    }
  }

  lemma ItemsElsewhere(lay: Layout, order: seq<View>, sections: seq<SectionId>, s: SectionId)
    requires Valid(lay)
    requires Grouped(lay, order, sections) && s !in sections
    ensures ItemsOf(lay, order, s) == []
  {
    forall j | 0 <= j < |order|
      ensures order[j] !in Own(lay, s)
    {
      GroupedHomes(lay, order, sections, j);
      HasHome(lay, order[j]);
    }
    KeepNone(order, v => v in Own(lay, s));
  }

  lemma ItemsInParts(lay: Layout, a: seq<View>, b: seq<View>, sections: seq<SectionId>, last: SectionId, s: SectionId)
    requires Valid(lay) && last !in sections && Grouped(lay, a, sections) && GroupOk(lay, b, last)
    ensures ItemsOf(lay, a + b, s) == if s == last then b else ItemsOf(lay, a, s)
  {
    ItemsJoin(lay, a, b, s);
    ItemsInside(lay, b, last, s);
    if s == last {
      ItemsElsewhere(lay, a, sections, s);
    }
  }

  /** Of an order in groups, the items of the last section are its group, and the rest is before it. */
  lemma ItemsLast(lay: Layout, order: seq<View>, sections: seq<SectionId>, s: SectionId)
    requires Valid(lay)
    requires sections != [] && Distinct(sections) && Grouped(lay, order, sections)
    ensures var k := Start(lay, order, sections);
            ItemsOf(lay, order, s) == if s == sections[|sections| - 1] then order[k..] else ItemsOf(lay, order[..k], s)
  {
    var n := |sections| - 1;
    var k := Start(lay, order, sections);
    assert order == order[..k] + order[k..];
    ItemsInParts(lay, order[..k], order[k..], sections[..n], sections[n], s);
  }

  lemma GroupFixed(lay: Layout, order: seq<View>, g: seq<View>, s: SectionId)
    requires ItemsOf(lay, order, s) == g && GroupOk(lay, g, s)
    ensures GroupFn(lay, Somes(order), s) == g
  {
    OwnOfSomes(lay, order, s);
    MergeFixed(g, Own(lay, s));
    if PINNED_VIEW in Own(lay, s) {
      assert g == [PINNED_VIEW] + g[1..];
      WithoutNothing(g[1..], PINNED_VIEW);
    } else {
      WithoutNothing(g, PINNED_VIEW);
    }
  }

  /** Every item is in an order in groups, once. */
  lemma {:induction false} GroupedHolds(lay: Layout, order: seq<View>, sections: seq<SectionId>, s: SectionId)
    requires Valid(lay)
    requires Distinct(sections) && Grouped(lay, order, sections) && s in sections
    ensures GroupOk(lay, ItemsOf(lay, order, s), s)
    decreases |sections|
  {
    var n := |sections| - 1;
    ItemsLast(lay, order, sections, s);
    if s != sections[n] {
      assert s in sections[..n];
      GroupedHolds(lay, order[..Start(lay, order, sections)], sections[..n], s);
    }
  }

  ghost predicate GroupsMatch(lay: Layout, order: seq<View>, items: SectionId -> seq<View>, sections: seq<SectionId>) {
    forall s :: s in sections ==> items(s) == ItemsOf(lay, order, s)
  }

  lemma GroupsMatchBefore(lay: Layout, order: seq<View>, items: SectionId -> seq<View>, sections: seq<SectionId>)
    requires Valid(lay) && sections != [] && Distinct(sections) && Grouped(lay, order, sections)
    requires GroupsMatch(lay, order, items, sections)
    ensures var n, k := |sections| - 1, Start(lay, order, sections);
            GroupsMatch(lay, order[..k], items, sections[..n]) && items(sections[n]) == order[k..]
  {
    var n, k := |sections| - 1, Start(lay, order, sections);
    forall s | s in sections[..n]
      ensures items(s) == ItemsOf(lay, order[..k], s)
    {
      ItemsLast(lay, order, sections, s);
    }
    assert sections[n] in sections;
    ItemsLast(lay, order, sections, sections[n]);
  }

  /** The items of the last section end the order, and so on before them. */
  ghost predicate InParts(order: seq<View>, items: SectionId -> seq<View>, sections: seq<SectionId>)
    decreases |sections|
  {
    if sections == [] then order == [] else
    var n := |sections| - 1;
    var k := |order| - |items(sections[n])|;
    k >= 0 && order[k..] == items(sections[n]) && InParts(order[..k], items, sections[..n])
  }

  lemma AddPart(order: seq<View>, items: SectionId -> seq<View>, sections: seq<SectionId>, k: nat)
    requires sections != [] && k <= |order| && order[k..] == items(sections[|sections| - 1])
    requires InParts(order[..k], items, sections[..|sections| - 1])
    ensures InParts(order, items, sections)
  {
  }

  lemma {:induction false} GroupedInParts(lay: Layout, order: seq<View>, items: SectionId -> seq<View>, sections: seq<SectionId>)
    requires Valid(lay) && Distinct(sections) && Grouped(lay, order, sections) && GroupsMatch(lay, order, items, sections)
    ensures InParts(order, items, sections)
    decreases |sections|
  {
    if sections != [] {
      var k := Start(lay, order, sections);
      GroupsMatchBefore(lay, order, items, sections);
      GroupedParts(lay, order, sections);
      GroupedInParts(lay, order[..k], items, sections[..|sections| - 1]);
      AddPart(order, items, sections, k);
    }
  }

  lemma {:induction false} ConcatInParts(order: seq<View>, items: SectionId -> seq<View>, sections: seq<SectionId>)
    requires InParts(order, items, sections)
    ensures Concat(items, sections) == order
    decreases |sections|
  {
    if sections != [] {
      var k := |order| - |items(sections[|sections| - 1])|;
      ConcatInParts(order[..k], items, sections[..|sections| - 1]);
      assert order == order[..k] + order[k..];
    }
  }

  lemma OrderFixed(lay: Layout, order: seq<View>)
    requires Valid(lay) && Grouped(lay, order, lay.sections)
    ensures OrderFn(lay, Somes(order)) == order
  {
    var items := Groups(lay, Somes(order));
    forall s | s in lay.sections
      ensures items(s) == ItemsOf(lay, order, s)
    {
      GroupedHolds(lay, order, lay.sections, s);
      GroupFixed(lay, order, ItemsOf(lay, order, s), s);
    }
    GroupedInParts(lay, order, items, lay.sections);
    ConcatInParts(order, items, lay.sections);
  }

  lemma {:induction false} HiddenFixed(lay: Layout, hidden: seq<View>, n: nat)
    requires n <= |hidden| && Hideable(lay, hidden)
    ensures HiddenFn(lay, Somes(hidden), n) == hidden[..n]
    decreases n
  {
    if n > 0 {
      HiddenFixed(lay, hidden, n - 1);
      assert hidden[n - 1] in hidden;
    }
  }

  lemma SectionsFixed(lay: Layout, sections: seq<SectionId>)
    requires SectionsOk(lay, sections)
    ensures PinnedFirst(MergeFn(Somes(sections), lay.sections), PINNED_SECTION) == sections
  {
    MergeFixed(sections, lay.sections);
    assert sections == [PINNED_SECTION] + sections[1..];
    WithoutNothing(sections[1..], PINNED_SECTION);
  }

  /** Loading changes nothing exactly when the preferences are in their normal form. */
  lemma NormalIsFixed(lay: Layout, p: NavPrefs)
    requires Valid(lay)
    ensures Normal(lay, p) <==> NormalizeFn(lay, StoredOf(p)) == p
  {
    NormalizeIsNormal(lay, StoredOf(p));
    if Normal(lay, p) {
      NormalLoads(lay, p);
    }
  }

  lemma {:induction false} NormalLoads(lay: Layout, p: NavPrefs)
    requires Valid(lay) && Normal(lay, p)
    ensures NormalizeFn(lay, StoredOf(p)) == p
  {
    SectionsFixed(lay, p.sections);
    OrderFixed(lay, p.order);
    HiddenLoads(lay, p.hidden);
  }

  lemma HiddenLoads(lay: Layout, hidden: seq<View>)
    requires HiddenOk(lay, hidden)
    ensures LeaveOne(lay, HiddenFn(lay, Somes(hidden), |hidden|)) == hidden
  {
    HiddenFixed(lay, hidden, |hidden|);
    assert hidden[..|hidden|] == hidden;
  }

  // ----- Changes -----

  lemma SectionsSwapped(lay: Layout, sections: seq<SectionId>, i: int, j: int)
    requires SectionsOk(lay, sections) && 1 <= i < |sections| && 1 <= j < |sections|
    ensures SectionsOk(lay, Swap(sections, i, j))
  {
    SwapPermutes(sections, i, j, lay.sections);
  }

  /** A move permutes the sections, and leaves everything else as it is. */
  lemma MoveSectionKeeps(lay: Layout, p: NavPrefs, id: SectionId, delta: Delta)
    requires SectionsOk(lay, p.sections)
    ensures var q := MoveSection(p, id, delta); SectionsOk(lay, q.sections) && q == p.(sections := q.sections)
  {
    var i := IndexOf(p.sections, id);
    if id != PINNED_SECTION && i >= 0 && 1 <= i + delta < |p.sections| {
      SectionsSwapped(lay, p.sections, i, i + delta);
    }
  }

  lemma MoveSectionIsNormal(lay: Layout, p: NavPrefs, id: SectionId, delta: Delta)
    requires Normal(lay, p)
    ensures Normal(lay, MoveSection(p, id, delta))
  {
    MoveSectionKeeps(lay, p, id, delta);
  }

  lemma SwapBack<T>(s: seq<T>, i: int, j: int)
    requires Distinct(s) && 0 <= i < |s| && 0 <= j < |s|
    ensures IndexOf(Swap(s, i, j), s[i]) == j
    ensures Swap(Swap(s, i, j), j, i) == s
  {
    var r := Swap(s, i, j);
    assert r[j] == s[i];
    forall k | 0 <= k < |r| && k != j
      ensures r[k] != s[i]
    {
      assert r[k] == s[if k == i then j else k];
    }
  }

  /** Moving back a section that moved gives what there was. */
  lemma MoveSectionBack(lay: Layout, p: NavPrefs, id: SectionId, delta: Delta)
    requires SectionsOk(lay, p.sections) && MoveSection(p, id, delta) != p
    ensures MoveSection(MoveSection(p, id, delta), id, Opposite(delta)) == p
  {
    var i := IndexOf(p.sections, id);
    assert i >= 1;
    SwapBack(p.sections, i, i + delta);
  }

  lemma GroupedFromParts(lay: Layout, order: seq<View>, sections: seq<SectionId>, k: nat)
    requires sections != [] && k <= |order| && k == Start(lay, order, sections)
    requires GroupOk(lay, order[k..], sections[|sections| - 1]) && Grouped(lay, order[..k], sections[..|sections| - 1])
    ensures Grouped(lay, order, sections)
  {
  }

  lemma {:induction false} GroupedSwap(lay: Layout, order: seq<View>, sections: seq<SectionId>, s: SectionId, i: nat, j: nat)
    requires Valid(lay)
    requires Grouped(lay, order, sections) && Distinct(sections) && i < |order| && j < |order|
    requires order[i] in Own(lay, s) && order[j] in Own(lay, s) && order[i] != PINNED_VIEW && order[j] != PINNED_VIEW
    ensures Grouped(lay, Swap(order, i, j), sections)
    decreases |sections|
  {
    var n := |sections| - 1;
    var k := Start(lay, order, sections);
    GroupedParts(lay, order, sections);
    SameSide(lay, order, sections, s, i);
    SameSide(lay, order, sections, s, j);
    if i < k {
      GroupedSwap(lay, order[..k], sections[..n], s, i, j);
      SwapBefore(order, k, i, j);
    } else {
      LastGroupSwap(lay, order[k..], sections[n], i - k, j - k);
      SwapAfter(order, k, i, j);
    }
    GroupedFromParts(lay, Swap(order, i, j), sections, k);
  }

  lemma SwapBefore(order: seq<View>, k: nat, i: nat, j: nat)
    requires i < k <= |order| && j < k
    ensures Swap(order, i, j)[..k] == Swap(order[..k], i, j) && Swap(order, i, j)[k..] == order[k..]
  {
  }

  lemma SwapAfter(order: seq<View>, k: nat, i: nat, j: nat)
    requires k <= i < |order| && k <= j < |order|
    ensures Swap(order, i, j)[k..] == Swap(order[k..], i - k, j - k) && Swap(order, i, j)[..k] == order[..k]
  {
  }

  lemma LastGroupSwap(lay: Layout, g: seq<View>, s: SectionId, i: nat, j: nat)
    requires GroupOk(lay, g, s) && i < |g| && j < |g| && g[i] != PINNED_VIEW && g[j] != PINNED_VIEW
    ensures GroupOk(lay, Swap(g, i, j), s)
  {
    SwapPermutes(g, i, j, Own(lay, s));
  }

  lemma {:induction false} SameSide(lay: Layout, order: seq<View>, sections: seq<SectionId>, s: SectionId, i: nat)
    requires Valid(lay)
    requires sections != [] && Grouped(lay, order, sections) && Distinct(sections) && i < |order| && order[i] in Own(lay, s)
    ensures i >= Start(lay, order, sections) <==> s == sections[|sections| - 1]
  {
    var n := |sections| - 1;
    var k := Start(lay, order, sections);
    HasHome(lay, order[i]);
    if i < k {
      GroupedHomes(lay, order[..k], sections[..n], i);
    } else {
      assert order[k..][i - k] in Own(lay, sections[n]);
    }
  }

  /** A move keeps the order grouped, and everything else as it is. */
  lemma MoveItemGrouped(lay: Layout, p: NavPrefs, v: View, delta: Delta)
    requires Valid(lay) && Grouped(lay, p.order, lay.sections) && (IsItem(lay, v) ==> v in p.order)
    ensures var q := MoveItem(lay, p, v, delta); Grouped(lay, q.order, lay.sections) && q == p.(order := q.order)
  {
    if MoveTarget(lay, p, v, delta).Some? {
      TargetIsSibling(lay, p, v, delta);
      HasHome(lay, v);
      var w := MoveTarget(lay, p, v, delta).value;
      GroupedSwap(lay, p.order, lay.sections, Home(lay, v).value, IndexOf(p.order, v), IndexOf(p.order, w));
    }
  }

  lemma MoveItemIsNormal(lay: Layout, p: NavPrefs, v: View, delta: Delta)
    requires Valid(lay)
    requires Normal(lay, p) && (IsItem(lay, v) ==> v in p.order)
    ensures Normal(lay, MoveItem(lay, p, v, delta))
  {
    MoveItemGrouped(lay, p, v, delta);
  }

  /** In the normal form every item has its place in the order. */
  lemma NormalHolds(lay: Layout, p: NavPrefs, v: View)
    requires Valid(lay)
    requires Grouped(lay, p.order, lay.sections) && IsItem(lay, v)
    ensures v in p.order
  {
    HasHome(lay, v);
    GroupedHolds(lay, p.order, lay.sections, Home(lay, v).value);
    ItemsHold(lay, p.order, Home(lay, v).value, v);
  }

  lemma ShowIsOk(lay: Layout, hidden: seq<View>, v: View)
    requires HiddenOk(lay, hidden)
    ensures HiddenOk(lay, Without(hidden, v))
  {
    WithoutDistinct(hidden, v);
    forall u | u in Without(hidden, v)
      ensures u in hidden
    {
      WithoutHolds(hidden, v, u);
    }
    var w :| IsItem(lay, w) && w != PINNED_VIEW && w !in hidden;
    WithoutHolds(hidden, v, w);
  }

  lemma {:induction false} HideIsOk(lay: Layout, hidden: seq<View>, v: View)
    requires HiddenOk(lay, hidden) && v != PINNED_VIEW && v !in hidden
    requires exists w :: IsItem(lay, w) && w != PINNED_VIEW && w != v && w !in hidden
    ensures HiddenOk(lay, hidden + [v]) <==> IsItem(lay, v)
  {
    var r := hidden + [v];
    assert r[|r| - 1] == v;
    var w :| IsItem(lay, w) && w != PINNED_VIEW && w != v && w !in hidden;
    assert w !in r;
  }

  lemma {:induction false} OthersCanHide(lay: Layout, p: NavPrefs, v: View)
    requires Valid(lay) && HiddenOk(lay, p.hidden) && !IsItem(lay, v)
    ensures CanHide(lay, p, v)
  {
    var w :| IsItem(lay, w) && w != PINNED_VIEW && w !in p.hidden;
    assert w != v;
  }

  /** Hiding or showing keeps the normal form, unless it hides a view that is no sidebar item. */
  lemma SetHiddenIsNormal(lay: Layout, p: NavPrefs, v: View, hidden: bool)
    requires Valid(lay) && Normal(lay, p)
    ensures Normal(lay, SetHidden(lay, p, v, hidden)) <==> !hidden || IsItem(lay, v)
  {
    if !hidden {
      ShowIsOk(lay, p.hidden, v);
    } else {
      if !IsItem(lay, v) {
        OthersCanHide(lay, p, v);
      }
      if CanHide(lay, p, v) {
        HideIsOk(lay, p.hidden, v);
      }
    }
  }

  /** Showing what was just hidden gives what there was. */
  lemma HideThenShow(lay: Layout, p: NavPrefs, v: View)
    requires CanHide(lay, p, v)
    ensures SetHidden(lay, SetHidden(lay, p, v, true), v, false) == p
  {
    WithoutLast(p.hidden, v);
  }

  // ----- Runs -----

  datatype Change = Section(id: SectionId, delta: Delta) | Item(view: View, delta: Delta) | Hide(view: View, hidden: bool)

  function Apply(lay: Layout, p: NavPrefs, c: Change): NavPrefs {
    match c
    case Section(id, delta) => MoveSection(p, id, delta)
    case Item(v, delta) => if IsItem(lay, v) && v !in p.order then p else MoveItem(lay, p, v, delta)
    case Hide(v, hidden) => SetHidden(lay, p, v, hidden)
  }

  function ApplyAll(lay: Layout, p: NavPrefs, cs: seq<Change>): NavPrefs {
    if cs == [] then p else Apply(lay, ApplyAll(lay, p, cs[..|cs| - 1]), cs[|cs| - 1])
  }

  /** The normal form, but that a view which is no item may be hidden. */
  ghost predicate Shaped(lay: Layout, p: NavPrefs) {
    SectionsOk(lay, p.sections) && Grouped(lay, p.order, lay.sections) && LeavesOne(lay, p.hidden)
  }

  ghost predicate LeavesOne(lay: Layout, hidden: seq<View>) {
    Distinct(hidden) && PINNED_VIEW !in hidden && !AllHidden(lay, hidden)
  }

  /** The last change of `v` hides it. */
  predicate EndsHidden(cs: seq<Change>, v: View) {
    if cs == [] then false else
    var c := cs[|cs| - 1];
    if c.Hide? && c.view == v then c.hidden else EndsHidden(cs[..|cs| - 1], v)
  }

  /** Moves do not look at what is hidden. */
  lemma MoveKeepsShape(lay: Layout, p: NavPrefs, c: Change)
    requires Valid(lay) && Shaped(lay, p) && !c.Hide?
    ensures Shaped(lay, Apply(lay, p, c)) && Apply(lay, p, c).hidden == p.hidden
  {
    match c {
      case Section(id, delta) => MoveSectionKeeps(lay, p, id, delta);
      case Item(v, delta) =>
        if IsItem(lay, v) ==> v in p.order {
          MoveItemGrouped(lay, p, v, delta);
        }
    }
  }

  lemma ShowLeavesOne(lay: Layout, hidden: seq<View>, v: View)
    requires LeavesOne(lay, hidden)
    ensures LeavesOne(lay, Without(hidden, v))
  {
    var w :| IsItem(lay, w) && w != PINNED_VIEW && w !in hidden;
    WithoutDistinct(hidden, v);
    WithoutHolds(hidden, v, PINNED_VIEW);
    WithoutHolds(hidden, v, w);
  }

  lemma HideLeavesOne(lay: Layout, hidden: seq<View>, v: View)
    requires LeavesOne(lay, hidden) && v != PINNED_VIEW && v !in hidden
    requires exists w :: IsItem(lay, w) && w != PINNED_VIEW && w != v && w !in hidden
    ensures LeavesOne(lay, hidden + [v])
  {
    var w :| IsItem(lay, w) && w != PINNED_VIEW && w != v && w !in hidden;
    assert w !in hidden + [v];
  }

  lemma NoItemCanHide(lay: Layout, p: NavPrefs, v: View)
    requires IsItem(lay, PINNED_VIEW) && LeavesOne(lay, p.hidden) && !IsItem(lay, v) && v !in p.hidden
    ensures CanHide(lay, p, v)
  {
    var w :| IsItem(lay, w) && w != PINNED_VIEW && w !in p.hidden;
    assert w != v;
  }

  lemma SetHiddenLeavesOne(lay: Layout, p: NavPrefs, u: View, hidden: bool)
    requires LeavesOne(lay, p.hidden)
    ensures LeavesOne(lay, SetHidden(lay, p, u, hidden).hidden)
  {
    if !hidden {
      ShowLeavesOne(lay, p.hidden, u);
    } else if CanHide(lay, p, u) {
      HideLeavesOne(lay, p.hidden, u);
    }
  }

  /** Of a view that is no item, the last change decides. */
  lemma HideDecides(lay: Layout, p: NavPrefs, u: View, hidden: bool, v: View)
    requires IsItem(lay, PINNED_VIEW) && LeavesOne(lay, p.hidden) && !IsItem(lay, v)
    ensures v in SetHidden(lay, p, u, hidden).hidden <==> if u == v then hidden else v in p.hidden
  {
    if !hidden {
      WithoutHolds(p.hidden, u, v);
    } else if u == v && v !in p.hidden {
      NoItemCanHide(lay, p, v);
    }
  }

  lemma StepIsShaped(lay: Layout, p: NavPrefs, c: Change, v: View)
    requires Valid(lay) && Shaped(lay, p)
    ensures Shaped(lay, Apply(lay, p, c))
    ensures !IsItem(lay, v) ==> (v in Apply(lay, p, c).hidden <==> if c.Hide? && c.view == v then c.hidden else v in p.hidden)
  {
    if !c.Hide? {
      MoveKeepsShape(lay, p, c);
    } else {
      SetHiddenLeavesOne(lay, p, c.view, c.hidden);
      if !IsItem(lay, v) {
        HasHome(lay, PINNED_VIEW);
        HideDecides(lay, p, c.view, c.hidden, v);
      }
    }
  }

  lemma {:induction false} RunIsShaped(lay: Layout, p: NavPrefs, cs: seq<Change>, v: View)
    requires Valid(lay) && Normal(lay, p)
    ensures Shaped(lay, ApplyAll(lay, p, cs))
    ensures !IsItem(lay, v) ==> (v in ApplyAll(lay, p, cs).hidden <==> EndsHidden(cs, v))
    decreases |cs|
  {
    if cs != [] {
      RunIsShaped(lay, p, cs[..|cs| - 1], v);
      StepIsShaped(lay, ApplyAll(lay, p, cs[..|cs| - 1]), cs[|cs| - 1], v);
    }
  }

  lemma ShapedIsNormal(lay: Layout, p: NavPrefs, cs: seq<Change>)
    requires Shaped(lay, p) && forall v :: !IsItem(lay, v) ==> (v in p.hidden <==> EndsHidden(cs, v))
    ensures Normal(lay, p) <==> forall v :: EndsHidden(cs, v) ==> IsItem(lay, v)
  {
  }

  /**
   * Whatever was stored, and whatever is then moved, hidden and shown: the
   * preferences end in their normal form, and storing and loading them changes
   * nothing, exactly when no view that is no sidebar item was last hidden.
   */
  lemma {:induction false} RunsStayNormal(lay: Layout, raw: Stored, cs: seq<Change>)
    requires Valid(lay)
    ensures var p := ApplyAll(lay, NormalizeFn(lay, raw), cs);
            && (Normal(lay, p) <==> forall v :: EndsHidden(cs, v) ==> IsItem(lay, v))
            && (NormalizeFn(lay, StoredOf(p)) == p <==> forall v :: EndsHidden(cs, v) ==> IsItem(lay, v))
  {
    var p := ApplyAll(lay, NormalizeFn(lay, raw), cs);
    NormalizeIsNormal(lay, raw);
    RunIsShaped(lay, NormalizeFn(lay, raw), cs, PINNED_VIEW);
    forall v
      ensures !IsItem(lay, v) ==> (v in p.hidden <==> EndsHidden(cs, v))
    {
      RunIsShaped(lay, NormalizeFn(lay, raw), cs, v);
    }
    ShapedIsNormal(lay, p, cs);
    NormalIsFixed(lay, p);
  }
}
