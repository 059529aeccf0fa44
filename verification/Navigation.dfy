/** The sidebar's preferences: which sections and items, in which order, which of them hidden. */
module Navigation {
  import opened Prelude
  import opened Lists

  datatype SectionId = Cluster | Workloads | Network | Storage | Config | Access | Observe

  datatype View =
    | Overview | Nodes | Namespaces
    | Pods | Deployments | StatefulSets | DaemonSets | ReplicaSets | Jobs | CronJobs | Hpas | Helm
    | Services | Ingresses | IngressClasses | EndpointSlices | NetworkPolicies
    | Pvcs | Pvs | StorageClasses
    | ConfigMaps | Secrets | ResourceQuotas | LimitRanges | Pdbs | PriorityClasses
    | ServiceAccounts | Roles | RoleBindings | ClusterRoles | ClusterRoleBindings
    | Events | Logs
    | Dashboard

  const PINNED_VIEW := Overview
  const PINNED_SECTION := Cluster

  /** The default sections and, for each, its items, in their default order. */
  datatype Layout = Layout(sections: seq<SectionId>, items: map<SectionId, seq<View>>)

  function Own(lay: Layout, s: SectionId): seq<View> { if s in lay.items then lay.items[s] else [] }

  /** The section that lists `v`, found by going through the sections. */
  function HomeIn(lay: Layout, sections: seq<SectionId>, v: View): Option<SectionId> {
    if sections == [] then None else if v in Own(lay, sections[0]) then Some(sections[0]) else HomeIn(lay, sections[1..], v)
  }

  function Home(lay: Layout, v: View): Option<SectionId> { HomeIn(lay, lay.sections, v) }

  predicate IsItem(lay: Layout, v: View) { Home(lay, v).Some? }

  /** Sections and items without repeats, the pinned ones among them, and something besides the pinned view. */
  ghost predicate Valid(lay: Layout) {
    && Distinct(lay.sections)
    && (forall s :: s in lay.items <==> s in lay.sections)
    && (forall s :: Distinct(Own(lay, s)))
    && (forall s, v :: v in Own(lay, s) ==> Home(lay, v) == Some(s))
    && Home(lay, PINNED_VIEW) == Some(PINNED_SECTION)
    && (exists v :: IsItem(lay, v) && v != PINNED_VIEW)
  }

  datatype NavPrefs = NavPrefs(sections: seq<SectionId>, order: seq<View>, hidden: seq<View>)

  /** What is stored: a known id, or anything else. */
  datatype Stored = Stored(sections: seq<Option<SectionId>>, order: seq<Option<View>>, hidden: seq<Option<View>>)

  // ----- Merging a stored order with the defaults -----

  /** The known ids of the stored list, each once. */
  function Kept<T(==)>(stored: seq<Option<T>>, defaults: seq<T>): seq<T> {
    if stored == [] then [] else
    var n := |stored| - 1;
    var before := Kept(stored[..n], defaults);
    if stored[n].Some? && stored[n].value in defaults && stored[n].value !in before then before + [stored[n].value] else before
  }

  function InsertAt<T>(s: seq<T>, i: int, x: T): seq<T>
    requires 0 <= i <= |s|
  {
    s[..i] + [x] + s[i..]
  }

  /** Every missing default up to `n`, put after its default predecessor. */
  function Fill<T(==)>(kept: seq<T>, defaults: seq<T>, n: nat): seq<T>
    requires n <= |defaults|
  {
    if n == 0 then kept else
    var out := Fill(kept, defaults, n - 1);
    if defaults[n - 1] in out then out else
    InsertAt(out, if n == 1 then 0 else IndexOf(out, defaults[n - 2]) + 1, defaults[n - 1])
  }

  function MergeFn<T(==)>(stored: seq<Option<T>>, defaults: seq<T>): seq<T> {
    Fill(Kept(stored, defaults), defaults, |defaults|)
  }

  method Merge<T(==)>(stored: seq<Option<T>>, defaults: seq<T>) returns (out: seq<T>)
    ensures out == MergeFn(stored, defaults)
  {
    out := [];
    for i := 0 to |stored|
      invariant out == Kept(stored[..i], defaults)
    {
      assert stored[..i + 1][..i] == stored[..i];
      if stored[i].Some? && stored[i].value in defaults && stored[i].value !in out {
        out := out + [stored[i].value];
      }
    }
    assert stored[..|stored|] == stored;
    for i := 0 to |defaults|
      invariant out == Fill(Kept(stored, defaults), defaults, i)
    {
      if defaults[i] in out {
        continue;
      }
      var before := if i == 0 then -1 else IndexOf(out, defaults[i - 1]);
      out := InsertAt(out, before + 1, defaults[i]);
    }
  }

  // ----- Normalising -----

  /** The stored items of one section. */
  function OwnOf(lay: Layout, order: seq<Option<View>>, s: SectionId): seq<Option<View>> {
    Keep(order, (v: Option<View>) => v.Some? && v.value in Own(lay, s))
  }

  function GroupFn(lay: Layout, order: seq<Option<View>>, s: SectionId): seq<View> {
    var items := Without(MergeFn(OwnOf(lay, order, s), Own(lay, s)), PINNED_VIEW);
    if PINNED_VIEW in Own(lay, s) then [PINNED_VIEW] + items else items
  }

  /** The sections' items, one section after the other. */
  function Concat(items: SectionId -> seq<View>, sections: seq<SectionId>): seq<View> {
    if sections == [] then [] else Concat(items, sections[..|sections| - 1]) + items(sections[|sections| - 1])
  }

  function Groups(lay: Layout, order: seq<Option<View>>): SectionId -> seq<View> { s => GroupFn(lay, order, s) }

  function OrderFn(lay: Layout, order: seq<Option<View>>): seq<View> { Concat(Groups(lay, order), lay.sections) }

  /** Items other than the pinned one, each at its first position. */
  function HiddenFn(lay: Layout, hidden: seq<Option<View>>, n: nat): seq<View>
    requires n <= |hidden|
  {
    if n == 0 then [] else
    var before := HiddenFn(lay, hidden, n - 1);
    var v := hidden[n - 1];
    if v.Some? && IsItem(lay, v.value) && v.value != PINNED_VIEW && IndexOf(hidden, v) == n - 1 then before + [v.value] else before
  }

  /** All items besides the pinned one are hidden. */
  predicate AllHidden(lay: Layout, hidden: seq<View>) { forall v: View :: IsItem(lay, v) && v != PINNED_VIEW ==> v in hidden }

  /** At least one item besides the pinned one stays visible. */
  function LeaveOne(lay: Layout, hidden: seq<View>): seq<View> {
    if AllHidden(lay, hidden) && hidden != [] then hidden[..|hidden| - 1] else hidden
  }

  function PinnedFirst<T(==)>(s: seq<T>, x: T): seq<T> { [x] + Without(s, x) }

  function NormalizeFn(lay: Layout, raw: Stored): NavPrefs {
    NavPrefs(PinnedFirst(MergeFn(raw.sections, lay.sections), PINNED_SECTION),
             OrderFn(lay, raw.order),
             LeaveOne(lay, HiddenFn(lay, raw.hidden, |raw.hidden|)))
  }

  lemma ConcatStep(items: SectionId -> seq<View>, sections: seq<SectionId>, i: nat)
    requires i < |sections|
    ensures Concat(items, sections[..i + 1]) == Concat(items, sections[..i]) + items(sections[i])
  {
    assert sections[..i + 1][..i] == sections[..i];
  }

  method MergeGroup(lay: Layout, order: seq<Option<View>>, s: SectionId) returns (items: seq<View>)
    ensures items == GroupFn(lay, order, s)
  {
    items := Merge(OwnOf(lay, order, s), Own(lay, s));
    items := Without(items, PINNED_VIEW);
    if PINNED_VIEW in Own(lay, s) {
      items := [PINNED_VIEW] + items;
    }
  }

  method HiddenItems(lay: Layout, stored: seq<Option<View>>) returns (hidden: seq<View>)
    ensures hidden == LeaveOne(lay, HiddenFn(lay, stored, |stored|))
  {
    hidden := [];
    for i := 0 to |stored|
      invariant hidden == HiddenFn(lay, stored, i)
    {
      var v := stored[i];
      if v.Some? && IsItem(lay, v.value) && v.value != PINNED_VIEW && IndexOf(stored, v) == i {
        hidden := hidden + [v.value];
      }
    }
    if AllHidden(lay, hidden) && hidden != [] {
      hidden := hidden[..|hidden| - 1];
    }
  }

  method Normalize(lay: Layout, raw: Stored) returns (prefs: NavPrefs)
    ensures prefs == NormalizeFn(lay, raw)
  {
    var merged := Merge(raw.sections, lay.sections);
    var order: seq<View> := [];
    for i := 0 to |lay.sections|
      invariant order == Concat(Groups(lay, raw.order), lay.sections[..i])
    {
      var items := MergeGroup(lay, raw.order, lay.sections[i]);
      ConcatStep(Groups(lay, raw.order), lay.sections, i);
      order := order + items;
    }
    assert lay.sections[..|lay.sections|] == lay.sections;
    var hidden := HiddenItems(lay, raw.hidden);
    prefs := NavPrefs([PINNED_SECTION] + Without(merged, PINNED_SECTION), order, hidden);
  }

  // ----- What the sidebar shows -----

  function ItemsOf(lay: Layout, order: seq<View>, s: SectionId): seq<View> { Keep(order, v => v in Own(lay, s)) }

  lemma ItemsHold(lay: Layout, order: seq<View>, s: SectionId, v: View)
    ensures v in ItemsOf(lay, order, s) <==> v in order && v in Own(lay, s)
  {
    KeepHolds(order, u => u in Own(lay, s), v);
  }

  datatype Shown = Shown(id: SectionId, items: seq<View>)

  function Arrange(lay: Layout, prefs: NavPrefs): (r: seq<Shown>)
    ensures |r| == |prefs.sections|
  {
    seq(|prefs.sections|, i requires 0 <= i < |prefs.sections| =>
      Shown(prefs.sections[i], ItemsOf(lay, prefs.order, prefs.sections[i])))
  }

  function VisibleSections(lay: Layout, prefs: NavPrefs): seq<Shown> {
    var arranged := Arrange(lay, prefs);
    var visible := seq(|arranged|, i requires 0 <= i < |arranged| =>
      Shown(arranged[i].id, Keep(arranged[i].items, v => v !in prefs.hidden)));
    Keep(visible, (s: Shown) => s.items != [])
  }

  // ----- Changing it -----

  type Delta = d: int | d == 1 || d == -1 witness 1

  function Opposite(d: Delta): Delta { if d == 1 then -1 else 1 }

  function MoveSection(prefs: NavPrefs, id: SectionId, delta: Delta): NavPrefs {
    var i := IndexOf(prefs.sections, id);
    var j := i + delta;
    if id == PINNED_SECTION || i < 0 || j < 1 || j >= |prefs.sections| then prefs else
    prefs.(sections := Swap(prefs.sections, i, j))
  }

  /** The item that `v` changes places with, if any. */
  function MoveTarget(lay: Layout, prefs: NavPrefs, v: View, delta: Delta): Option<View> {
    if v == PINNED_VIEW || Home(lay, v).None? then None else
    var siblings := ItemsOf(lay, prefs.order, Home(lay, v).value);
    var k := IndexOf(siblings, v) + delta;
    if k < 0 || k >= |siblings| || siblings[k] == PINNED_VIEW then None else Some(siblings[k])
  }

  lemma TargetIsSibling(lay: Layout, p: NavPrefs, v: View, delta: Delta)
    requires MoveTarget(lay, p, v, delta).Some?
    ensures var w := MoveTarget(lay, p, v, delta).value;
            w in p.order && Home(lay, v).Some? && w in Own(lay, Home(lay, v).value) && w != PINNED_VIEW && v != PINNED_VIEW
  {
    var w := MoveTarget(lay, p, v, delta).value;
    var siblings := ItemsOf(lay, p.order, Home(lay, v).value);
    assert w == siblings[IndexOf(siblings, v) + delta];
    ItemsHold(lay, p.order, Home(lay, v).value, w);
  }

  function MoveItem(lay: Layout, prefs: NavPrefs, v: View, delta: Delta): NavPrefs
    requires IsItem(lay, v) ==> v in prefs.order
  {
    var target := MoveTarget(lay, prefs, v, delta);
    if target.None? then prefs else
    TargetIsSibling(lay, prefs, v, delta);
    prefs.(order := Swap(prefs.order, IndexOf(prefs.order, v), IndexOf(prefs.order, target.value)))
  }

  predicate CanHide(lay: Layout, prefs: NavPrefs, v: View) {
    v != PINNED_VIEW && v !in prefs.hidden && exists w: View :: IsItem(lay, w) && w != PINNED_VIEW && w != v && w !in prefs.hidden
  }

  function SetHidden(lay: Layout, prefs: NavPrefs, v: View, hidden: bool): NavPrefs {
    if !hidden then prefs.(hidden := Without(prefs.hidden, v)) else
    if CanHide(lay, prefs, v) then prefs.(hidden := prefs.hidden + [v]) else prefs
  }

  lemma {:induction false} HomeInFinds(lay: Layout, sections: seq<SectionId>, v: View)
    ensures HomeIn(lay, sections, v).Some? ==> v in Own(lay, HomeIn(lay, sections, v).value)
    ensures HomeIn(lay, sections, v).None? ==> forall i :: 0 <= i < |sections| ==> v !in Own(lay, sections[i])
  {
    if sections != [] {
      HomeInFinds(lay, sections[1..], v);
    }
  }

  /** Each item is listed in one section. */
  lemma HasHome(lay: Layout, v: View)
    requires Valid(lay)
    ensures forall s :: v in Own(lay, s) <==> Home(lay, v) == Some(s)
    ensures IsItem(lay, v) ==> Home(lay, v).value in lay.sections
  {
    HomeInFinds(lay, lay.sections, v);
  }
}
