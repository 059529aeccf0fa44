/** What the sidebar shows, what a move changes in it and what moving back undoes, and the default layout. */
module NavigationShown {
  import opened Prelude
  import opened Lists
  import opened Navigation
  import opened NavigationFacts

  lemma {:induction false} GroupedIsDistinct(lay: Layout, order: seq<View>, sections: seq<SectionId>)
    requires Valid(lay) && Grouped(lay, order, sections) && Distinct(sections)
    ensures Distinct(order)
    decreases |sections|
  {
    if sections != [] {
      var n, k := |sections| - 1, Start(lay, order, sections);
      GroupedIsDistinct(lay, order[..k], sections[..n]);
      forall i, j | 0 <= i < k <= j < |order|
        ensures order[i] != order[j]
      {
        GroupedHomes(lay, order[..k], sections[..n], i);
        assert order[k..][j - k] in Own(lay, sections[n]);
        HasHome(lay, order[i]);
      }
      forall i, j | 0 <= i < j < |order|
        ensures order[i] != order[j]
      {
        if j < k {
          assert order[..k][i] != order[..k][j];
        } else if i >= k {
          assert order[k..][i - k] != order[k..][j - k];
        }
      }
    }
  }

  /** The items that a move swaps. */
  lemma {:induction false} MovePositions(lay: Layout, p: NavPrefs, v: View, delta: Delta)
    requires Valid(lay) && Normal(lay, p) && MoveTarget(lay, p, v, delta).Some?
    ensures var w := MoveTarget(lay, p, v, delta).value;
            && Distinct(p.order) && v in p.order && w in p.order && v != w
            && v in Own(lay, Home(lay, v).value) && w in Own(lay, Home(lay, v).value) && w != PINNED_VIEW
  {
    TargetIsSibling(lay, p, v, delta);
    GroupedIsDistinct(lay, p.order, lay.sections);
    NormalHolds(lay, p, v);
    HasHome(lay, v);
    var siblings := ItemsOf(lay, p.order, Home(lay, v).value);
    KeepDistinct(p.order, u => u in Own(lay, Home(lay, v).value));
    ItemsHold(lay, p.order, Home(lay, v).value, v);
    assert siblings[IndexOf(siblings, v)] == v;
  }

  /** Swapping two items of a section in the order swaps them in that section only. */
  lemma SwapItems(lay: Layout, order: seq<View>, v: View, w: View, s: SectionId)
    requires Distinct(order) && v in order && w in order && v != w
    ensures var items, after := ItemsOf(lay, order, s), ItemsOf(lay, Swap(order, IndexOf(order, v), IndexOf(order, w)), s);
            && Distinct(items)
            && (v in Own(lay, s) && w in Own(lay, s) ==>
                  v in items && w in items && after == Swap(items, IndexOf(items, v), IndexOf(items, w)))
            && (v !in Own(lay, s) && w !in Own(lay, s) ==> after == items)
  {
    var p := (u: View) => u in Own(lay, s);
    KeepDistinct(order, p);
    if v in Own(lay, s) && w in Own(lay, s) {
      KeepSwap(order, IndexOf(order, v), IndexOf(order, w), p);
    } else if v !in Own(lay, s) && w !in Own(lay, s) {
      KeepOthers(order, IndexOf(order, v), IndexOf(order, w), p);
    }
  }

  lemma {:induction false} TargetIsNext(lay: Layout, p: NavPrefs, v: View, delta: Delta)
    requires MoveTarget(lay, p, v, delta).Some? && Distinct(ItemsOf(lay, p.order, Home(lay, v).value))
    ensures var items := ItemsOf(lay, p.order, Home(lay, v).value);
            0 <= IndexOf(items, v) + delta < |items|
            && IndexOf(items, MoveTarget(lay, p, v, delta).value) == IndexOf(items, v) + delta
  {
    var items := ItemsOf(lay, p.order, Home(lay, v).value);
    OnlyIndex(items, IndexOf(items, v) + delta);
  }

  /** A move swaps the item with its neighbour in its own section. */
  lemma {:induction false} MoveItemSwapsNeighbours(lay: Layout, p: NavPrefs, v: View, delta: Delta)
    requires Valid(lay) && Normal(lay, p) && MoveTarget(lay, p, v, delta).Some?
    ensures v in p.order
    ensures var before := ItemsOf(lay, p.order, Home(lay, v).value);
            var k := IndexOf(before, v);
            && k >= 0 && 0 <= k + delta < |before|
            && ItemsOf(lay, MoveItem(lay, p, v, delta).order, Home(lay, v).value) == Swap(before, k, k + delta)
  {
    MovePositions(lay, p, v, delta);
    SwapNext(lay, p, v, delta);
  }

  lemma SwapNext(lay: Layout, p: NavPrefs, v: View, delta: Delta)
    requires MoveTarget(lay, p, v, delta).Some? && Distinct(p.order) && v in p.order && v in Own(lay, Home(lay, v).value)
    requires var w := MoveTarget(lay, p, v, delta).value; w in p.order && v != w && w in Own(lay, Home(lay, v).value)
    ensures var before := ItemsOf(lay, p.order, Home(lay, v).value);
            var k := IndexOf(before, v);
            && k >= 0 && 0 <= k + delta < |before|
            && ItemsOf(lay, MoveItem(lay, p, v, delta).order, Home(lay, v).value) == Swap(before, k, k + delta)
  {
    SwapItems(lay, p.order, v, MoveTarget(lay, p, v, delta).value, Home(lay, v).value);
    TargetIsNext(lay, p, v, delta);
  }

  /** A move changes no other section. */
  lemma {:induction false} MoveItemKeepsOthers(lay: Layout, p: NavPrefs, v: View, delta: Delta, s: SectionId)
    requires Valid(lay) && Normal(lay, p) && MoveTarget(lay, p, v, delta).Some? && Home(lay, v) != Some(s)
    ensures v in p.order
    ensures ItemsOf(lay, MoveItem(lay, p, v, delta).order, s) == ItemsOf(lay, p.order, s)
  {
    MovePositions(lay, p, v, delta);
    var w := MoveTarget(lay, p, v, delta).value;
    HasHome(lay, v);
    HasHome(lay, w);
    SwapItems(lay, p.order, v, w, s);
  }

  /** Moving back an item that moved gives what there was. */
  lemma {:induction false} MoveItemBack(lay: Layout, p: NavPrefs, v: View, delta: Delta)
    requires Valid(lay) && Normal(lay, p) && MoveTarget(lay, p, v, delta).Some?
    ensures v in p.order && v in MoveItem(lay, p, v, delta).order
    ensures MoveItem(lay, MoveItem(lay, p, v, delta), v, Opposite(delta)) == p
  {
    MovePositions(lay, p, v, delta);
    var w := MoveTarget(lay, p, v, delta).value;
    SwapBack(p.order, IndexOf(p.order, v), IndexOf(p.order, w));
    SwapBack(p.order, IndexOf(p.order, w), IndexOf(p.order, v));
    SwapEitherWay(p.order, IndexOf(p.order, v), IndexOf(p.order, w));
    TargetOnTheWayBack(lay, p, v, delta);
  }

  lemma {:induction false} TargetOnTheWayBack(lay: Layout, p: NavPrefs, v: View, delta: Delta)
    requires Valid(lay) && Normal(lay, p) && MoveTarget(lay, p, v, delta).Some?
    ensures v in p.order
    ensures MoveTarget(lay, MoveItem(lay, p, v, delta), v, Opposite(delta)) == Some(MoveTarget(lay, p, v, delta).value)
  {
    MovePositions(lay, p, v, delta);
    KeepDistinct(p.order, u => u in Own(lay, Home(lay, v).value));
    MoveItemSwapsNeighbours(lay, p, v, delta);
    TargetBack(lay, p, MoveItem(lay, p, v, delta), v, delta);
  }

  lemma TargetBack(lay: Layout, p: NavPrefs, moved: NavPrefs, v: View, delta: Delta)
    requires MoveTarget(lay, p, v, delta).Some? && Distinct(ItemsOf(lay, p.order, Home(lay, v).value))
    requires var items := ItemsOf(lay, p.order, Home(lay, v).value);
             var k := IndexOf(items, v);
             k >= 0 && 0 <= k + delta < |items| && ItemsOf(lay, moved.order, Home(lay, v).value) == Swap(items, k, k + delta)
    ensures MoveTarget(lay, moved, v, Opposite(delta)) == Some(MoveTarget(lay, p, v, delta).value)
  {
    var items := ItemsOf(lay, p.order, Home(lay, v).value);
    var k := IndexOf(items, v);
    SwapBack(items, k, k + delta);
    assert Swap(items, k, k + delta)[k] == items[k + delta];
  }

  // ----- The sidebar -----

  predicate ShownIn(shown: seq<Shown>, v: View) { exists i :: 0 <= i < |shown| && v in shown[i].items }

  function NotHidden(items: seq<View>, hidden: seq<View>): seq<View> { Keep(items, v => v !in hidden) }

  /** The sections of the sidebar before the empty ones are dropped. */
  function AllSections(lay: Layout, p: NavPrefs): (r: seq<Shown>)
    ensures |r| == |p.sections|
    ensures forall i :: 0 <= i < |r| ==> r[i] == Shown(p.sections[i], NotHidden(ItemsOf(lay, p.order, p.sections[i]), p.hidden))
    ensures VisibleSections(lay, p) == Keep(r, (s: Shown) => s.items != [])
  {
    var arranged := Arrange(lay, p);
    seq(|arranged|, i requires 0 <= i < |arranged| => Shown(arranged[i].id, Keep(arranged[i].items, v => v !in p.hidden)))
  }

  lemma InVisible(lay: Layout, p: NavPrefs, s: Shown)
    ensures s in VisibleSections(lay, p) <==> s in AllSections(lay, p) && s.items != []
  {
    KeepHolds(AllSections(lay, p), (t: Shown) => t.items != [], s);
  }

  lemma ShownItem(lay: Layout, p: NavPrefs, s: SectionId, v: View)
    ensures v in NotHidden(ItemsOf(lay, p.order, s), p.hidden) <==> v in p.order && v in Own(lay, s) && v !in p.hidden
  {
    KeepHolds(ItemsOf(lay, p.order, s), u => u !in p.hidden, v);
    ItemsHold(lay, p.order, s, v);
  }

  lemma ShownIsRight(lay: Layout, p: NavPrefs, i: nat, v: View)
    requires Valid(lay) && i < |VisibleSections(lay, p)| && v in VisibleSections(lay, p)[i].items
    ensures Home(lay, v) == Some(VisibleSections(lay, p)[i].id) && v !in p.hidden
  {
    var all, shown := AllSections(lay, p), VisibleSections(lay, p)[i];
    InVisible(lay, p, shown);
    var j :| 0 <= j < |all| && all[j] == shown;
    ShownItem(lay, p, p.sections[j], v);
    HasHome(lay, v);
  }

  lemma {:induction false} NotHiddenIsShown(lay: Layout, p: NavPrefs, v: View)
    requires Valid(lay) && Normal(lay, p) && IsItem(lay, v) && v !in p.hidden
    ensures ShownIn(VisibleSections(lay, p), v)
  {
    HasHome(lay, v);
    NormalHolds(lay, p, v);
    var s := Home(lay, v).value;
    assert s in p.sections;
    var j :| 0 <= j < |p.sections| && p.sections[j] == s;
    var shown := AllSections(lay, p)[j];
    ShownItem(lay, p, s, v);
    assert v in shown.items;
    InVisible(lay, p, shown);
  }

  lemma NoEmptySection(lay: Layout, p: NavPrefs, i: nat)
    requires i < |VisibleSections(lay, p)|
    ensures VisibleSections(lay, p)[i].items != []
  {
    InVisible(lay, p, VisibleSections(lay, p)[i]);
  }

  /** The sidebar shows exactly the items that are not hidden. */
  lemma SidebarShowsTheRest(lay: Layout, p: NavPrefs, v: View)
    requires Valid(lay) && Normal(lay, p)
    ensures ShownIn(VisibleSections(lay, p), v) <==> IsItem(lay, v) && v !in p.hidden
  {
    if ShownIn(VisibleSections(lay, p), v) {
      var i :| 0 <= i < |VisibleSections(lay, p)| && v in VisibleSections(lay, p)[i].items;
      ShownIsRight(lay, p, i, v);
    }
    if IsItem(lay, v) && v !in p.hidden {
      NotHiddenIsShown(lay, p, v);
    }
  }

  /** Overview leads the sidebar. */
  lemma {:induction false} OverviewLeads(lay: Layout, p: NavPrefs)
    requires Valid(lay) && Normal(lay, p)
    ensures var shown := VisibleSections(lay, p);
            shown != [] && shown[0].id == PINNED_SECTION && shown[0].items != [] && shown[0].items[0] == PINNED_VIEW
  {
    HasHome(lay, PINNED_VIEW);
    GroupedHolds(lay, p.order, lay.sections, PINNED_SECTION);
    var group := ItemsOf(lay, p.order, PINNED_SECTION);
    assert group[0] == PINNED_VIEW;
    var all := AllSections(lay, p);
    assert all[0].items[0] == PINNED_VIEW;
  }

  // ----- The default layout -----

  function DefaultItems(s: SectionId): seq<View> {
    match s
    case Cluster => [Overview, Nodes, Namespaces]
    case Workloads => [Pods, Deployments, StatefulSets, DaemonSets, ReplicaSets, Jobs, CronJobs, Hpas, Helm]
    case Network => [Services, Ingresses, IngressClasses, EndpointSlices, NetworkPolicies]
    case Storage => [Pvcs, Pvs, StorageClasses]
    case Config => [ConfigMaps, Secrets, ResourceQuotas, LimitRanges, Pdbs, PriorityClasses]
    case Access => [ServiceAccounts, Roles, RoleBindings, ClusterRoles, ClusterRoleBindings]
    case Observe => [Events, Logs]
  }

  const DEFAULT_SECTIONS := Layout(
    [Cluster, Workloads, Network, Storage, Config, Access, Observe], map s: SectionId | true :: DefaultItems(s))

  /** A view's section and its position there. */
  ghost function Listed(v: View): Option<(SectionId, nat)> {
    match v
    case Overview => Some((Cluster, 0)) case Nodes => Some((Cluster, 1)) case Namespaces => Some((Cluster, 2))
    case Pods => Some((Workloads, 0)) case Deployments => Some((Workloads, 1)) case StatefulSets => Some((Workloads, 2))
    case DaemonSets => Some((Workloads, 3)) case ReplicaSets => Some((Workloads, 4)) case Jobs => Some((Workloads, 5))
    case CronJobs => Some((Workloads, 6)) case Hpas => Some((Workloads, 7)) case Helm => Some((Workloads, 8))
    case Services => Some((Network, 0)) case Ingresses => Some((Network, 1)) case IngressClasses => Some((Network, 2))
    case EndpointSlices => Some((Network, 3)) case NetworkPolicies => Some((Network, 4))
    case Pvcs => Some((Storage, 0)) case Pvs => Some((Storage, 1)) case StorageClasses => Some((Storage, 2))
    case ConfigMaps => Some((Config, 0)) case Secrets => Some((Config, 1)) case ResourceQuotas => Some((Config, 2))
    case LimitRanges => Some((Config, 3)) case Pdbs => Some((Config, 4)) case PriorityClasses => Some((Config, 5))
    case ServiceAccounts => Some((Access, 0)) case Roles => Some((Access, 1)) case RoleBindings => Some((Access, 2))
    case ClusterRoles => Some((Access, 3)) case ClusterRoleBindings => Some((Access, 4))
    case Events => Some((Observe, 0)) case Logs => Some((Observe, 1))
    case Dashboard => None
  }

  lemma ListedAt(s: SectionId, i: nat)
    requires i < |DefaultItems(s)|
    ensures Listed(DefaultItems(s)[i]) == Some((s, i))
  {
  }

  lemma {:induction false} SectionsListed(s: SectionId)
    ensures s in DEFAULT_SECTIONS.sections && s in DEFAULT_SECTIONS.items && Distinct(DEFAULT_SECTIONS.sections)
  {
    var all := DEFAULT_SECTIONS.sections;
    assert all[0] == Cluster && all[1] == Workloads && all[2] == Network && all[3] == Storage;
    assert all[4] == Config && all[5] == Access && all[6] == Observe;
  }

  lemma FoundWhereListed(lay: Layout, s: SectionId, v: View)
    requires forall t, i: nat :: i < |Own(lay, t)| ==> Listed(Own(lay, t)[i]) == Some((t, i))
    requires s in lay.sections && v in Own(lay, s)
    ensures Home(lay, v) == Some(s)
  {
    HomeInFinds(lay, lay.sections, v);
    var j :| 0 <= j < |lay.sections| && lay.sections[j] == s;
    var i :| 0 <= i < |Own(lay, s)| && Own(lay, s)[i] == v;
    var t := Home(lay, v).value;
    var k :| 0 <= k < |Own(lay, t)| && Own(lay, t)[k] == v;
    assert Listed(Own(lay, s)[i]) == Listed(Own(lay, t)[k]);
  }

  /** The default layout lists every view but the dashboard, once. */
  lemma {:induction false} DefaultIsValid()
    ensures Valid(DEFAULT_SECTIONS)
  {
    var lay := DEFAULT_SECTIONS;
    forall t, i: nat | i < |Own(lay, t)|
      ensures Listed(Own(lay, t)[i]) == Some((t, i))
    {
      ListedAt(t, i);
    }
    forall s: SectionId
      ensures s in lay.sections && s in lay.items && Distinct(lay.sections)
      ensures Distinct(Own(lay, s))
    {
      SectionsListed(s);
    }
    forall s, v | v in Own(lay, s)
      ensures Home(lay, v) == Some(s)
    {
      FoundWhereListed(lay, s, v);
    }
    assert Own(lay, Cluster)[0] == Overview && Own(lay, Cluster)[1] == Nodes;
    assert Overview in Own(lay, Cluster) && Nodes in Own(lay, Cluster);
    assert IsItem(lay, Nodes);
  }

  /** Hiding a view that is no sidebar item is dropped on the next load. */
  lemma {:induction false} HidingNoItemIsLost(lay: Layout, raw: Stored, v: View)
    requires Valid(lay) && !IsItem(lay, v)
    ensures var p := SetHidden(lay, NormalizeFn(lay, raw), v, true);
            v in p.hidden && NormalizeFn(lay, StoredOf(p)) != p
  {
    var before := NormalizeFn(lay, raw);
    NormalizeIsNormal(lay, raw);
    OthersCanHide(lay, before, v);
    SetHiddenIsNormal(lay, before, v, true);
    NormalIsFixed(lay, SetHidden(lay, before, v, true));
    assert (before.hidden + [v])[|before.hidden|] == v;
  }

  lemma {:induction false} NotListed(s: SectionId)
    ensures Dashboard !in DefaultItems(s)
  {
    forall i | 0 <= i < |DefaultItems(s)|
      ensures DefaultItems(s)[i] != Dashboard
    {
      ListedAt(s, i);
    }
  }

  /** The dashboard is a view and no item of the default layout. */
  lemma DashboardIsNoItem()
    ensures Valid(DEFAULT_SECTIONS) && !IsItem(DEFAULT_SECTIONS, Dashboard)
  {
    DefaultIsValid();
    forall s
      ensures Dashboard !in Own(DEFAULT_SECTIONS, s)
    {
      NotListed(s);
    }
    NoSectionNoItem(DEFAULT_SECTIONS, Dashboard);
  }

  lemma NoSectionNoItem(lay: Layout, v: View)
    requires forall s :: v !in Own(lay, s)
    ensures !IsItem(lay, v)
  {
    HomeInFinds(lay, lay.sections, v);
  }
}
