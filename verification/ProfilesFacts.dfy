/** Any run of changes to the profiles keeps them in the form that loading gives, so that loading changes nothing. */
module ProfilesFacts {
  import opened Prelude
  import opened Lists
  import opened Profiles
  import Navigation

  // ----- The normal form -----

  ghost predicate ProfileOk(loc: Locale, ship: BuiltIns, p: Profile) {
    && PinsOk(p.pins)
    && (p.builtIn <==> IsBuiltInId(p.id))
    && (if p.builtIn then p.name == ship.name(p.id) else
          loc.trim(p.name) == p.name && 1 <= |p.name| <= NAME_MAX && !UsesBuiltInName(loc, ship, Fold(loc, p.name)))
  }

  /** Ids and names (however they are written) tell the profiles apart. */
  ghost predicate ListOk(loc: Locale, ship: BuiltIns, ps: seq<Profile>) {
    && (forall i :: 0 <= i < |ps| ==> ProfileOk(loc, ship, ps[i]))
    && (forall i, j :: 0 <= i < j < |ps| ==> Differ(loc, ps[i], ps[j]))
  }

  predicate Differ(loc: Locale, p: Profile, q: Profile) { p.id != q.id && Fold(loc, p.name) != Fold(loc, q.name) }

  ghost predicate HasBuiltIns(ps: seq<Profile>) { forall id :: IsBuiltInId(id) ==> HasId(ps, id) }

  ghost predicate Normal(loc: Locale, ship: BuiltIns, p: ProfilesPrefs) {
    ListOk(loc, ship, p.profiles) && HasBuiltIns(p.profiles) && |p.profiles| <= MAX_PROFILES && HasId(p.profiles, p.active)
  }

  // ----- Loading gives the normal form -----

  lemma {:induction false} CleanIsOk(raw: seq<Option<View>>)
    ensures PinsOk(CleanFn(raw))
  {
    if raw != [] {
      CleanIsOk(raw[..|raw| - 1]);
    }
  }

  lemma {:induction false} AddOk(loc: Locale, ship: BuiltIns, ps: seq<Profile>, p: Profile)
    requires ListOk(loc, ship, ps) && ProfileOk(loc, ship, p) && !HasId(ps, p.id) && !HasName(loc, ps, Fold(loc, p.name))
    ensures ListOk(loc, ship, ps + [p])
  {
    forall i | 0 <= i < |ps|
      ensures Differ(loc, ps[i], p)
    {
    }
  }

  /** A built-in profile that is not there has a name that is not there. */
  lemma {:induction false} BuiltInNameIsFree(loc: Locale, ship: BuiltIns, ps: seq<Profile>, id: string)
    requires Valid(loc, ship) && ListOk(loc, ship, ps) && IsBuiltInId(id) && !HasId(ps, id)
    ensures !HasName(loc, ps, Fold(loc, ship.name(id)))
  {
    var at :| 0 <= at < |BUILT_IN_IDS| && BUILT_IN_IDS[at] == id;
    forall i | 0 <= i < |ps|
      ensures Fold(loc, ps[i].name) != Fold(loc, ship.name(id))
    {
      assert ProfileOk(loc, ship, ps[i]);
      assert ps[i].id != id;
    }
  }

  lemma TakeEntryOk(loc: Locale, ship: BuiltIns, ps: seq<Profile>, e: StoredProfile)
    requires Valid(loc, ship) && ListOk(loc, ship, ps)
    ensures ListOk(loc, ship, TakeEntry(loc, ship, ps, e))
  {
    var after := TakeEntry(loc, ship, ps, e);
    if after != ps {
      if e.pins.Some? {
        CleanIsOk(e.pins.value);
      }
      if IsBuiltInId(e.id.value) {
        BuiltInNameIsFree(loc, ship, ps, e.id.value);
      }
      AddOk(loc, ship, ps, after[|ps|]);
    }
  }

  lemma {:induction false} TakeAllOk(loc: Locale, ship: BuiltIns, stored: seq<StoredProfile>)
    requires Valid(loc, ship)
    ensures ListOk(loc, ship, TakeAll(loc, ship, stored))
  {
    if stored != [] {
      TakeAllOk(loc, ship, stored[..|stored| - 1]);
      TakeEntryOk(loc, ship, TakeAll(loc, ship, stored[..|stored| - 1]), stored[|stored| - 1]);
    }
  }

  lemma {:induction false} AddMissingOk(loc: Locale, ship: BuiltIns, ps: seq<Profile>, n: nat)
    requires Valid(loc, ship) && ListOk(loc, ship, ps) && n <= |BUILT_IN_IDS|
    ensures ListOk(loc, ship, AddMissing(ship, ps, n))
    ensures forall k :: 0 <= k < n ==> HasId(AddMissing(ship, ps, n), BUILT_IN_IDS[k])
    decreases n
  {
    if n > 0 {
      AddMissingOk(loc, ship, ps, n - 1);
      var before := AddMissing(ship, ps, n - 1);
      var id := BUILT_IN_IDS[n - 1];
      if !HasId(before, id) {
        BuiltInNameIsFree(loc, ship, before, id);
        AddOk(loc, ship, before, BuiltIn(ship, id, ship.pins(id)));
        AddedIds(before, BuiltIn(ship, id, ship.pins(id)));
      }
    }
  }

  lemma AddedIds(ps: seq<Profile>, p: Profile)
    ensures HasId(ps + [p], p.id)
    ensures forall id :: HasId(ps, id) ==> HasId(ps + [p], id)
  {
    assert (ps + [p])[|ps|] == p;
    forall id | HasId(ps, id)
      ensures HasId(ps + [p], id)
    {
      var i :| 0 <= i < |ps| && ps[i].id == id;
      assert (ps + [p])[i].id == id;
    }
  }

  function Ids(ps: seq<Profile>): (r: seq<string>)
    ensures |r| == |ps| && forall i :: 0 <= i < |ps| ==> r[i] == ps[i].id
  {
    seq(|ps|, i requires 0 <= i < |ps| => ps[i].id)
  }

  /** Over the cap there is a profile of the user's. */
  lemma SomeUser(loc: Locale, ship: BuiltIns, ps: seq<Profile>)
    requires ListOk(loc, ship, ps) && |ps| > MAX_PROFILES
    ensures LastUser(ps) >= 0
  {
    if LastUser(ps) < 0 {
      forall i | 0 <= i < |ps|
        ensures Ids(ps)[i] in BUILT_IN_IDS
      {
        assert ProfileOk(loc, ship, ps[i]);
      }
      forall i, j | 0 <= i < j < |ps|
        ensures Ids(ps)[i] != Ids(ps)[j]
      {
        assert Differ(loc, ps[i], ps[j]);
      }
      WithinLength(Ids(ps), BUILT_IN_IDS);
    }
  }

  lemma DropOk(loc: Locale, ship: BuiltIns, ps: seq<Profile>, last: nat)
    requires ListOk(loc, ship, ps) && HasBuiltIns(ps) && last < |ps| && !ps[last].builtIn
    ensures ListOk(loc, ship, ps[..last] + ps[last + 1..]) && HasBuiltIns(ps[..last] + ps[last + 1..])
  {
    var r := ps[..last] + ps[last + 1..];
    forall i, j | 0 <= i < j < |r|
      ensures Differ(loc, r[i], r[j])
    {
      assert r[i] == ps[if i < last then i else i + 1] && r[j] == ps[if j < last then j else j + 1];
    }
    forall id | IsBuiltInId(id)
      ensures HasId(r, id)
    {
      assert ProfileOk(loc, ship, ps[last]);
      StillThere(ps, last, id);
    }
  }

  lemma StillThere(ps: seq<Profile>, last: nat, id: string)
    requires last < |ps| && ps[last].id != id && HasId(ps, id)
    ensures HasId(ps[..last] + ps[last + 1..], id)
  {
    var i :| 0 <= i < |ps| && ps[i].id == id;
    assert (ps[..last] + ps[last + 1..])[if i < last then i else i - 1] == ps[i];
  }

  /** What is left after one round over the cap. */
  function Shorter(ps: seq<Profile>): (r: seq<Profile>)
    requires |ps| > MAX_PROFILES
    ensures |r| == |ps| - 1 && Cap(ps) == Cap(r)
  {
    var last := if LastUser(ps) < 0 then |ps| - 1 else LastUser(ps);
    ps[..last] + ps[last + 1..]
  }

  lemma ShorterOk(loc: Locale, ship: BuiltIns, ps: seq<Profile>)
    requires ListOk(loc, ship, ps) && HasBuiltIns(ps) && |ps| > MAX_PROFILES
    ensures ListOk(loc, ship, Shorter(ps)) && HasBuiltIns(Shorter(ps))
  {
    SomeUser(loc, ship, ps);
    DropOk(loc, ship, ps, LastUser(ps));
  }

  lemma {:induction false} CapOk(loc: Locale, ship: BuiltIns, ps: seq<Profile>)
    requires ListOk(loc, ship, ps) && HasBuiltIns(ps)
    ensures ListOk(loc, ship, Cap(ps)) && HasBuiltIns(Cap(ps)) && |Cap(ps)| <= MAX_PROFILES
    decreases |ps|
  {
    if |ps| > MAX_PROFILES {
      ShorterOk(loc, ship, ps);
      CapOk(loc, ship, Shorter(ps));
    }
  }

  lemma {:induction false} DefaultIsBuiltIn()
    ensures IsBuiltInId(DEFAULT_ACTIVE)
  {
    assert BUILT_IN_IDS[0] == DEFAULT_ACTIVE;
  }

  /** Whatever was stored is repaired to the normal form. */
  lemma NormalizeIsNormal(loc: Locale, ship: BuiltIns, raw: Stored)
    requires Valid(loc, ship)
    ensures Normal(loc, ship, NormalizeFn(loc, ship, raw))
  {
    TakeAllOk(loc, ship, raw.profiles);
    var n := |BUILT_IN_IDS|;
    var all := AddMissing(ship, TakeAll(loc, ship, raw.profiles), n);
    AddMissingOk(loc, ship, TakeAll(loc, ship, raw.profiles), n);
    forall id | IsBuiltInId(id)
      ensures HasId(all, id)
    {
      var k :| 0 <= k < n && BUILT_IN_IDS[k] == id;
    }
    CapOk(loc, ship, all);
    DefaultIsBuiltIn();
  }

  // ----- Loading the normal form changes nothing -----

  function StoredProfileOf(p: Profile): StoredProfile {
    StoredProfile(Some(p.id), Some(p.name), Some(Somes(p.pins)))
  }

  function StoredList(ps: seq<Profile>): (r: seq<StoredProfile>)
    ensures |r| == |ps| && forall i :: 0 <= i < |ps| ==> r[i] == StoredProfileOf(ps[i])
  {
    seq(|ps|, i requires 0 <= i < |ps| => StoredProfileOf(ps[i]))
  }

  function StoredOf(p: ProfilesPrefs): Stored { Stored(StoredList(p.profiles), Some(p.active)) }

  lemma {:induction false} CleanFixed(pins: seq<View>)
    requires PinsOk(pins)
    ensures CleanFn(Somes(pins)) == pins
  {
    if pins != [] {
      var n := |pins| - 1;
      CleanFixed(pins[..n]);
      assert Somes(pins)[..n] == Somes(pins[..n]);
    }
  }

  lemma EntryFixed(loc: Locale, ship: BuiltIns, ps: seq<Profile>, p: Profile)
    requires ListOk(loc, ship, ps + [p])
    ensures TakeEntry(loc, ship, ps, StoredProfileOf(p)) == ps + [p]
  {
    var all := ps + [p];
    assert all[|ps|] == p;
    assert ProfileOk(loc, ship, p);
    forall i | 0 <= i < |ps|
      ensures Differ(loc, ps[i], p)
    {
      assert Differ(loc, all[i], all[|ps|]);
    }
    CleanFixed(p.pins);
  }

  lemma {:induction false} ListFixed(loc: Locale, ship: BuiltIns, ps: seq<Profile>)
    requires ListOk(loc, ship, ps)
    ensures TakeAll(loc, ship, StoredList(ps)) == ps
  {
    if ps != [] {
      var n := |ps| - 1;
      assert StoredList(ps)[..n] == StoredList(ps[..n]);
      ListFixed(loc, ship, ps[..n]);
      assert ps == ps[..n] + [ps[n]];
      EntryFixed(loc, ship, ps[..n], ps[n]);
    }
  }

  lemma {:induction false} NothingMissing(ship: BuiltIns, ps: seq<Profile>, n: nat)
    requires HasBuiltIns(ps) && n <= |BUILT_IN_IDS|
    ensures AddMissing(ship, ps, n) == ps
    decreases n
  {
    if n > 0 {
      NothingMissing(ship, ps, n - 1);
      assert IsBuiltInId(BUILT_IN_IDS[n - 1]);
    }
  }

  /** Loading changes nothing exactly when the profiles are in their normal form. */
  lemma NormalIsFixed(loc: Locale, ship: BuiltIns, p: ProfilesPrefs)
    requires Valid(loc, ship)
    ensures Normal(loc, ship, p) <==> NormalizeFn(loc, ship, StoredOf(p)) == p
  {
    NormalizeIsNormal(loc, ship, StoredOf(p));
    if Normal(loc, ship, p) {
      ListFixed(loc, ship, p.profiles);
      NothingMissing(ship, p.profiles, |BUILT_IN_IDS|);
    }
  }

  // ----- Changes -----

  /** A change of one profile that keeps it apart from the others. */
  ghost predicate KeepsOk(loc: Locale, ship: BuiltIns, ps: seq<Profile>, id: string, change: Profile -> Profile) {
    forall i :: 0 <= i < |ps| && ps[i].id == id ==>
      && change(ps[i]).id == id && ProfileOk(loc, ship, change(ps[i]))
      && forall j :: 0 <= j < |ps| && j != i ==> Fold(loc, change(ps[i]).name) != Fold(loc, ps[j].name)
  }

  lemma UpdateIsNormal(loc: Locale, ship: BuiltIns, p: ProfilesPrefs, id: string, change: Profile -> Profile)
    requires Normal(loc, ship, p) && KeepsOk(loc, ship, p.profiles, id, change)
    ensures Normal(loc, ship, Update(p, id, change))
  {
    var ps, r := p.profiles, Update(p, id, change).profiles;
    forall i | 0 <= i < |ps|
      ensures r[i].id == ps[i].id && ProfileOk(loc, ship, r[i])
    {
      assert ProfileOk(loc, ship, ps[i]);
    }
    forall i, j | 0 <= i < j < |r|
      ensures Differ(loc, r[i], r[j])
    {
      assert Differ(loc, ps[i], ps[j]);
    }
    SameIds(ps, r);
  }

  lemma {:induction false} SameIds(ps: seq<Profile>, r: seq<Profile>)
    requires |r| == |ps| && forall i :: 0 <= i < |ps| ==> r[i].id == ps[i].id
    ensures forall id :: HasId(r, id) <==> HasId(ps, id)
  {
    forall id
      ensures HasId(r, id) <==> HasId(ps, id)
    {
      if HasId(ps, id) {
        var i :| 0 <= i < |ps| && ps[i].id == id;
        assert r[i].id == id;
      }
    }
  }

  /** A change that keeps ids, names and kind, and gives proper pins. */
  lemma PinsUpdateIsNormal(loc: Locale, ship: BuiltIns, p: ProfilesPrefs, id: string, change: Profile -> Profile)
    requires Normal(loc, ship, p)
    requires forall i :: 0 <= i < |p.profiles| && p.profiles[i].id == id ==>
               change(p.profiles[i]) == p.profiles[i].(pins := change(p.profiles[i]).pins) && PinsOk(change(p.profiles[i]).pins)
    ensures Normal(loc, ship, Update(p, id, change))
  {
    forall i | 0 <= i < |p.profiles| && p.profiles[i].id == id
      ensures change(p.profiles[i]).id == id && ProfileOk(loc, ship, change(p.profiles[i]))
      ensures forall j :: 0 <= j < |p.profiles| && j != i ==> Fold(loc, change(p.profiles[i]).name) != Fold(loc, p.profiles[j].name)
    {
      assert ProfileOk(loc, ship, p.profiles[i]);
      forall j | 0 <= j < |p.profiles| && j != i
        ensures Fold(loc, p.profiles[i].name) != Fold(loc, p.profiles[j].name)
      {
        assert if i < j then Differ(loc, p.profiles[i], p.profiles[j]) else Differ(loc, p.profiles[j], p.profiles[i]);
      }
    }
    UpdateIsNormal(loc, ship, p, id, change);
  }

  /** An id is one profile's. */
  lemma {:induction false} OneOf(loc: Locale, ship: BuiltIns, p: ProfilesPrefs, id: string, i: nat)
    requires Normal(loc, ship, p) && i < |p.profiles| && p.profiles[i].id == id
    ensures Find(p.profiles, id) == i && ProfileOk(loc, ship, p.profiles[i])
  {
    forall a | 0 <= a < i
      ensures p.profiles[a].id != id
    {
      assert Differ(loc, p.profiles[a], p.profiles[i]);
    }
  }

  lemma PinIsNormal(loc: Locale, ship: BuiltIns, p: ProfilesPrefs, view: View, hidden: seq<View>)
    requires Normal(loc, ship, p) && p.profiles != [] && Pin(p, view, hidden).Ok?
    ensures Normal(loc, ship, Pin(p, view, hidden).value)
  {
    var profile := ActiveProfile(p);
    if view !in profile.pins {
      forall i | 0 <= i < |p.profiles| && p.profiles[i].id == profile.id
        ensures p.profiles[i] == profile && PinsOk(p.profiles[i].pins + [view])
      {
        OneOf(loc, ship, p, profile.id, i);
      }
      PinsUpdateIsNormal(loc, ship, p, profile.id, AddPin(view));
    }
  }

  lemma WithoutIsOk(pins: seq<View>, view: View)
    requires PinsOk(pins)
    ensures PinsOk(Without(pins, view))
  {
    WithoutDistinct(pins, view);
    WithoutShorter(pins, view);
  }

  lemma UnpinIsNormal(loc: Locale, ship: BuiltIns, p: ProfilesPrefs, view: View, id: string)
    requires Normal(loc, ship, p)
    ensures Normal(loc, ship, Unpin(p, view, id))
  {
    var k := Find(p.profiles, id);
    if k >= 0 && view in p.profiles[k].pins {
      forall i | 0 <= i < |p.profiles| && p.profiles[i].id == id
        ensures PinsOk(Without(p.profiles[i].pins, view))
      {
        OneOf(loc, ship, p, id, i);
        WithoutIsOk(p.profiles[i].pins, view);
      }
      PinsUpdateIsNormal(loc, ship, p, id, RemovePin(view));
    }
  }

  lemma {:induction false} SwapIsDistinct<T>(s: seq<T>, i: int, j: int)
    requires Distinct(s) && 0 <= i < |s| && 0 <= j < |s|
    ensures Distinct(Swap(s, i, j))
  {
    var r := Swap(s, i, j);
    forall a, b | 0 <= a < b < |r|
      ensures r[a] != r[b]
    {
      assert r[a] == s[if a == i then j else if a == j then i else a];
      assert r[b] == s[if b == i then j else if b == j then i else b];
    }
  }

  lemma MovePinIsNormal(loc: Locale, ship: BuiltIns, p: ProfilesPrefs, id: string, view: View, delta: Navigation.Delta)
    requires Normal(loc, ship, p)
    ensures Normal(loc, ship, MovePin(p, id, view, delta))
  {
    var k := Find(p.profiles, id);
    if k >= 0 {
      var pins := p.profiles[k].pins;
      OneOf(loc, ship, p, id, k);
      var moved := Swapped(pins, IndexOf(pins, view), delta);
      if moved.Some? {
        SwapIsDistinct(pins, IndexOf(pins, view), IndexOf(pins, view) + delta);
        PinsUpdateIsNormal(loc, ship, p, id, (q: Profile) => q.(pins := moved.value));
      }
    }
  }

  /** A name that is free for `id` and proper is not a built-in one. */
  lemma NameIsFree(loc: Locale, ship: BuiltIns, p: ProfilesPrefs, name: string, except: Option<string>)
    requires Valid(loc, ship) && Normal(loc, ship, p) && ValidateName(loc, p, name, except).None?
    requires except.Some? ==> !IsBuiltInId(except.value)
    ensures !UsesBuiltInName(loc, ship, Fold(loc, loc.trim(name)))
    ensures forall i :: 0 <= i < |p.profiles| && Some(p.profiles[i].id) != except ==> Fold(loc, p.profiles[i].name) != Fold(loc, loc.trim(name))
  {
    forall b | 0 <= b < |BUILT_IN_IDS|
      ensures Fold(loc, ship.name(BUILT_IN_IDS[b])) != Fold(loc, loc.trim(name))
    {
      assert IsBuiltInId(BUILT_IN_IDS[b]);
      assert HasId(p.profiles, BUILT_IN_IDS[b]);
      var i :| 0 <= i < |p.profiles| && p.profiles[i].id == BUILT_IN_IDS[b];
      assert ProfileOk(loc, ship, p.profiles[i]);
    }
  }

  /** A new profile keeps the normal form exactly when its id is not in use. */
  lemma CreateIsNormal(loc: Locale, ship: BuiltIns, p: ProfilesPrefs, name: string, fromActive: bool, id: string)
    requires Valid(loc, ship) && Normal(loc, ship, p) && p.profiles != [] && Create(loc, p, name, fromActive, id).Ok?
    ensures Normal(loc, ship, Create(loc, p, name, fromActive, id).value) <==> !HasId(p.profiles, id)
  {
    var r := Create(loc, p, name, fromActive, id).value;
    var added := r.profiles[|p.profiles|];
    NameIsFree(loc, ship, p, name, None);
    OneOf(loc, ship, p, ActiveProfile(p).id, Find(p.profiles, p.active));
    AddedIds(p.profiles, added);
    if HasId(p.profiles, id) {
      var i :| 0 <= i < |p.profiles| && p.profiles[i].id == id;
      assert !Differ(loc, r.profiles[i], r.profiles[|p.profiles|]);
    } else {
      AddOk(loc, ship, p.profiles, added);
    }
  }

  lemma RenameIsNormal(loc: Locale, ship: BuiltIns, p: ProfilesPrefs, id: string, name: string)
    requires Valid(loc, ship) && Normal(loc, ship, p) && Rename(loc, p, id, name).Ok?
    ensures Normal(loc, ship, Rename(loc, p, id, name).value)
  {
    var k := Find(p.profiles, id);
    if k >= 0 {
      OneOf(loc, ship, p, id, k);
      NameIsFree(loc, ship, p, name, Some(id));
      forall i | 0 <= i < |p.profiles| && p.profiles[i].id == id
        ensures ProfileOk(loc, ship, p.profiles[i].(name := loc.trim(name)))
        ensures forall j :: 0 <= j < |p.profiles| && j != i ==> Fold(loc, loc.trim(name)) != Fold(loc, p.profiles[j].name)
      {
        OneOf(loc, ship, p, id, i);
        forall j | 0 <= j < |p.profiles| && j != i
          ensures p.profiles[j].id != id
        {
          if p.profiles[j].id == id {
            OneOf(loc, ship, p, id, j);
          }
        }
      }
      UpdateIsNormal(loc, ship, p, id, (q: Profile) => q.(name := loc.trim(name)));
    }
  }

  lemma DeleteIsNormal(loc: Locale, ship: BuiltIns, p: ProfilesPrefs, id: string)
    requires Normal(loc, ship, p)
    ensures Normal(loc, ship, Delete(p, id))
  {
    var k := Find(p.profiles, id);
    if k >= 0 && !p.profiles[k].builtIn {
      OneOf(loc, ship, p, id, k);
      DeletedIs(loc, ship, p, id, k);
      DropOk(loc, ship, p.profiles, k);
      DefaultIsBuiltIn();
      if p.active != id {
        StillThere(p.profiles, k, p.active);
      }
    }
  }

  /** What is left is the list without that one profile. */
  lemma DeletedIs(loc: Locale, ship: BuiltIns, p: ProfilesPrefs, id: string, k: nat)
    requires Normal(loc, ship, p) && k < |p.profiles| && p.profiles[k].id == id
    ensures Keep(p.profiles, (q: Profile) => q.id != id) == p.profiles[..k] + p.profiles[k + 1..]
  {
    var keep := (q: Profile) => q.id != id;
    forall i | 0 <= i < |p.profiles| && i != k
      ensures p.profiles[i].id != id
    {
      if p.profiles[i].id == id {
        OneOf(loc, ship, p, id, i);
        OneOf(loc, ship, p, id, k);
      }
    }
    var a, b := p.profiles[..k], p.profiles[k + 1..];
    assert p.profiles == (a + [p.profiles[k]]) + b;
    KeepJoins(a + [p.profiles[k]], b, keep);
    KeepJoins(a, [p.profiles[k]], keep);
    KeepAll(a, keep);
    KeepAll(b, keep);
    assert Keep([p.profiles[k]], keep) == [];
    assert a + [] == a;
  }

  /** Where a swapped position comes from. */
  function Back(i: int, a: int, b: int): int { if i == a then b else if i == b then a else i }

  lemma {:induction false} SwapOk(loc: Locale, ship: BuiltIns, ps: seq<Profile>, a: int, b: int)
    requires ListOk(loc, ship, ps) && 0 <= a < |ps| && 0 <= b < |ps|
    ensures ListOk(loc, ship, Swap(ps, a, b))
  {
    var r := Swap(ps, a, b);
    forall i, j | 0 <= i < j < |r|
      ensures Differ(loc, r[i], r[j])
    {
      var x, y := Back(i, a, b), Back(j, a, b);
      assert r[i] == ps[x] && r[j] == ps[y];
      assert if x < y then Differ(loc, ps[x], ps[y]) else Differ(loc, ps[y], ps[x]);
    }
  }

  lemma SwapIds(ps: seq<Profile>, a: int, b: int)
    requires 0 <= a < |ps| && 0 <= b < |ps|
    ensures forall id :: HasId(ps, id) ==> HasId(Swap(ps, a, b), id)
  {
    forall id | HasId(ps, id)
      ensures HasId(Swap(ps, a, b), id)
    {
      var i :| 0 <= i < |ps| && ps[i].id == id;
      assert Swap(ps, a, b)[Back(i, a, b)] == ps[i];
    }
  }

  lemma MoveProfileIsNormal(loc: Locale, ship: BuiltIns, p: ProfilesPrefs, id: string, delta: Navigation.Delta)
    requires Normal(loc, ship, p)
    ensures Normal(loc, ship, MoveProfile(p, id, delta))
  {
    var k := Find(p.profiles, id);
    if 0 <= k && 0 <= k + delta < |p.profiles| {
      SwapOk(loc, ship, p.profiles, k, k + delta);
      SwapIds(p.profiles, k, k + delta);
    }
  }

  lemma ResetPinsIsNormal(loc: Locale, ship: BuiltIns, p: ProfilesPrefs, id: string)
    requires Valid(loc, ship) && Normal(loc, ship, p) && IsBuiltInId(id)
    ensures Normal(loc, ship, ResetPins(ship, p, id))
  {
    forall i | 0 <= i < |p.profiles| && p.profiles[i].id == id
      ensures BuiltIn(ship, id, ship.pins(id)) == p.profiles[i].(pins := ship.pins(id))
    {
      assert ProfileOk(loc, ship, p.profiles[i]);
    }
    PinsUpdateIsNormal(loc, ship, p, id, (q: Profile) => BuiltIn(ship, id, ship.pins(id)));
  }

  // ----- What one call undoes -----

  predicate OnlyAt(ps: seq<Profile>, id: string, k: nat) {
    k < |ps| && ps[k].id == id && forall i :: 0 <= i < |ps| && i != k ==> ps[i].id != id
  }

  lemma {:induction false} ActiveIsOne(loc: Locale, ship: BuiltIns, p: ProfilesPrefs)
    requires Normal(loc, ship, p)
    ensures Find(p.profiles, p.active) >= 0 && OnlyAt(p.profiles, p.active, Find(p.profiles, p.active))
  {
    var k := Find(p.profiles, p.active);
    forall i | 0 <= i < |p.profiles| && i != k
      ensures p.profiles[i].id != p.active
    {
      if p.profiles[i].id == p.active {
        OneOf(loc, ship, p, p.active, i);
      }
    }
  }

  /** A change of one profile, undone. */
  lemma {:induction false} UpdateBack(p: ProfilesPrefs, id: string, k: nat, change: Profile -> Profile, back: Profile -> Profile)
    requires OnlyAt(p.profiles, id, k)
    requires change(p.profiles[k]).id == id && back(change(p.profiles[k])) == p.profiles[k]
    ensures Find(Update(p, id, change).profiles, id) == k
    ensures Update(p, id, change).profiles[k] == change(p.profiles[k])
    ensures Update(Update(p, id, change), id, back) == p
  {
    var r := Update(p, id, change);
    assert forall i :: 0 <= i < |p.profiles| && i != k ==> r.profiles[i] == p.profiles[i];
    assert Update(r, id, back).profiles == p.profiles;
  }

  /** Unpinning what was just pinned gives what there was. */
  lemma UnpinAfterPin(loc: Locale, ship: BuiltIns, p: ProfilesPrefs, view: View, hidden: seq<View>)
    requires Normal(loc, ship, p) && p.profiles != [] && Pin(p, view, hidden).Ok? && view !in ActiveProfile(p).pins
    ensures Unpin(Pin(p, view, hidden).value, view, p.active) == p
  {
    ActiveIsOne(loc, ship, p);
    UnpinPinned(p, view, hidden, Find(p.profiles, p.active));
  }

  lemma PinIsUpdate(p: ProfilesPrefs, view: View, hidden: seq<View>)
    requires p.profiles != [] && Find(p.profiles, p.active) >= 0 && Pin(p, view, hidden).Ok? && view !in ActiveProfile(p).pins
    ensures Pin(p, view, hidden).value == Update(p, p.active, AddPin(view))
  {
  }

  lemma UnpinIsUpdate(p: ProfilesPrefs, view: View, id: string, k: nat)
    requires Find(p.profiles, id) == k && view in p.profiles[k].pins
    ensures Unpin(p, view, id) == Update(p, id, RemovePin(view))
  {
  }

  lemma UnpinPinned(p: ProfilesPrefs, view: View, hidden: seq<View>, k: nat)
    requires OnlyAt(p.profiles, p.active, k) && k == Find(p.profiles, p.active)
    requires Pin(p, view, hidden).Ok? && view !in p.profiles[k].pins
    ensures Unpin(Pin(p, view, hidden).value, view, p.active) == p
  {
    PinIsUpdate(p, view, hidden);
    PinnedBack(p.profiles[k], view);
    UpdateBack(p, p.active, k, AddPin(view), RemovePin(view));
    UnpinIsUpdate(Update(p, p.active, AddPin(view)), view, p.active, k);
  }

  lemma PinnedBack(p: Profile, view: View)
    requires view !in p.pins
    ensures AddPin(view)(p).id == p.id && view in AddPin(view)(p).pins
    ensures RemovePin(view)(AddPin(view)(p)) == p
  {
    WithoutLast(p.pins, view);
    assert (p.pins + [view])[|p.pins|] == view;
  }

  /** Deleting the profile just created gives the list there was, with On-call active. */
  lemma DeleteAfterCreate(loc: Locale, ship: BuiltIns, p: ProfilesPrefs, name: string, fromActive: bool, id: string)
    requires Valid(loc, ship) && Normal(loc, ship, p) && p.profiles != [] && !HasId(p.profiles, id)
    requires Create(loc, p, name, fromActive, id).Ok?
    ensures Delete(Create(loc, p, name, fromActive, id).value, id) == ProfilesPrefs(p.profiles, DEFAULT_ACTIVE)
  {
    var r := Create(loc, p, name, fromActive, id).value;
    CreateIsNormal(loc, ship, p, name, fromActive, id);
    var n := |p.profiles|;
    assert r.profiles[n].id == id;
    OneOf(loc, ship, r, id, n);
    DeletedIs(loc, ship, r, id, n);
    assert r.profiles[..n] + r.profiles[n + 1..] == p.profiles;
  }

  // ----- Runs -----

  datatype Change =
    | Activate(id: string)
    | PinView(view: View, hidden: seq<View>)
    | UnpinView(view: View, id: string)
    | MoveView(id: string, view: View, delta: Navigation.Delta)
    | CreateOne(name: string, fromActive: bool, id: string)
    | RenameOne(id: string, name: string)
    | DeleteOne(id: string)
    | MoveOne(id: string, delta: Navigation.Delta)
    | ResetOne(id: string)

  /** A refused change leaves the preferences as they are. */
  function Settle(p: ProfilesPrefs, r: Result<ProfilesPrefs, Refusal>): ProfilesPrefs { if r.Ok? then r.value else p }

  function Apply(loc: Locale, ship: BuiltIns, p: ProfilesPrefs, c: Change): ProfilesPrefs
    requires p.profiles != []
  {
    match c
    case Activate(id) => SetActive(p, id)
    case PinView(view, hidden) => Settle(p, Pin(p, view, hidden))
    case UnpinView(view, id) => Unpin(p, view, id)
    case MoveView(id, view, delta) => MovePin(p, id, view, delta)
    case CreateOne(name, fromActive, id) => Settle(p, Create(loc, p, name, fromActive, id))
    case RenameOne(id, name) => Settle(p, Rename(loc, p, id, name))
    case DeleteOne(id) => Delete(p, id)
    case MoveOne(id, delta) => MoveProfile(p, id, delta)
    case ResetOne(id) => ResetPins(ship, p, id)
  }

  /** Ids given to new profiles are not in use, and only built-in profiles are reset. */
  predicate Allowed(p: ProfilesPrefs, c: Change) {
    (c.CreateOne? ==> !HasId(p.profiles, c.id)) && (c.ResetOne? ==> IsBuiltInId(c.id))
  }

  lemma ApplyIsNormal(loc: Locale, ship: BuiltIns, p: ProfilesPrefs, c: Change)
    requires Valid(loc, ship) && Normal(loc, ship, p) && p.profiles != [] && Allowed(p, c)
    ensures Normal(loc, ship, Apply(loc, ship, p, c))
  {
    match c
    case Activate(id) =>
    case PinView(view, hidden) =>
      if Pin(p, view, hidden).Ok? {
        PinIsNormal(loc, ship, p, view, hidden);
      }
    case UnpinView(view, id) => UnpinIsNormal(loc, ship, p, view, id);
    case MoveView(id, view, delta) => MovePinIsNormal(loc, ship, p, id, view, delta);
    case CreateOne(name, fromActive, id) =>
      if Create(loc, p, name, fromActive, id).Ok? {
        CreateIsNormal(loc, ship, p, name, fromActive, id);
      }
    case RenameOne(id, name) =>
      if Rename(loc, p, id, name).Ok? {
        RenameIsNormal(loc, ship, p, id, name);
      }
    case DeleteOne(id) => DeleteIsNormal(loc, ship, p, id);
    case MoveOne(id, delta) => MoveProfileIsNormal(loc, ship, p, id, delta);
    case ResetOne(id) => ResetPinsIsNormal(loc, ship, p, id);
  }

  /** A run of changes: the states it goes through. */
  ghost predicate IsRun(loc: Locale, ship: BuiltIns, states: seq<ProfilesPrefs>, cs: seq<Change>) {
    && |states| == |cs| + 1
    && forall i :: 0 <= i < |cs| ==>
         Allowed(states[i], cs[i]) && states[i].profiles != [] && states[i + 1] == Apply(loc, ship, states[i], cs[i])
  }

  /**
   * Whatever was stored and whatever is then pinned, moved, created, renamed and
   * deleted: at most twelve profiles with at most nine pins each, all built-ins
   * among them, told apart by id and by name, one of them active; and storing and
   * loading them changes nothing.
   */
  lemma {:induction false} RunsStayNormal(loc: Locale, ship: BuiltIns, raw: Stored, states: seq<ProfilesPrefs>, cs: seq<Change>)
    requires Valid(loc, ship) && IsRun(loc, ship, states, cs) && states[0] == NormalizeFn(loc, ship, raw)
    ensures Normal(loc, ship, states[|cs|]) && NormalizeFn(loc, ship, StoredOf(states[|cs|])) == states[|cs|]
    decreases |cs|
  {
    if cs == [] {
      NormalizeIsNormal(loc, ship, raw);
    } else {
      var n := |cs| - 1;
      RunsStayNormal(loc, ship, raw, states[..n + 1], cs[..n]);
      ApplyIsNormal(loc, ship, states[n], cs[n]);
    }
    NormalIsFixed(loc, ship, states[|cs|]);
  }

  // ----- The profiles that ship -----

  function ShippedName(id: string): string {
    if id == "oncall" then "On-call" else if id == "developer" then "Developer" else if id == "security" then "Security" else "All"
  }

  function ShippedPins(id: string): seq<View> {
    if id == "oncall" then
      [Navigation.Overview, Navigation.Nodes, Navigation.Pods, Navigation.Deployments, Navigation.Jobs, Navigation.Events, Navigation.Logs]
    else if id == "developer" then
      [Navigation.Pods, Navigation.Deployments, Navigation.Services, Navigation.Ingresses, Navigation.ConfigMaps, Navigation.Secrets, Navigation.Logs]
    else if id == "security" then
      [Navigation.ServiceAccounts, Navigation.Roles, Navigation.RoleBindings, Navigation.ClusterRoles, Navigation.Secrets, Navigation.NetworkPolicies]
    else
      [Navigation.Overview, Navigation.Pods, Navigation.Deployments, Navigation.Services, Navigation.Events]
  }

  const SHIPPED := BuiltIns(ShippedName, ShippedPins)

  lemma ShippedPinsAreOk(id: string)
    ensures PinsOk(ShippedPins(id))
  {
  }

  /** What ships fits any text operations that tell the four names apart. */
  lemma {:induction false} ShippedIsValid(loc: Locale)
    requires forall s :: loc.trim(loc.trim(s)) == loc.trim(s)
    requires forall i, j :: 0 <= i < j < |BUILT_IN_IDS| ==> Fold(loc, ShippedName(BUILT_IN_IDS[i])) != Fold(loc, ShippedName(BUILT_IN_IDS[j]))
    ensures Valid(loc, SHIPPED)
  {
    forall id, other | IsBuiltInId(id) && IsBuiltInId(other) && Fold(loc, SHIPPED.name(id)) == Fold(loc, SHIPPED.name(other))
      ensures id == other
    {
      var i :| 0 <= i < |BUILT_IN_IDS| && BUILT_IN_IDS[i] == id;
      var j :| 0 <= j < |BUILT_IN_IDS| && BUILT_IN_IDS[j] == other;
    }
    forall id | IsBuiltInId(id)
      ensures PinsOk(SHIPPED.pins(id))
    {
      ShippedPinsAreOk(id);
    }
  }
}
