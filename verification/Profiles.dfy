/** Viewing profiles: a name and an ordered pin list each, four of them built in, at most twelve. */
module Profiles {
  import opened Prelude
  import opened Lists
  import Navigation

  type View = Navigation.View

  const MAX_PINS := 9
  const MAX_PROFILES := 12
  const NAME_MAX := 24
  const DEFAULT_ACTIVE := "oncall"
  const BUILT_IN_IDS: seq<string> := ["oncall", "developer", "security", "all"]

  datatype Profile = Profile(id: string, name: string, builtIn: bool, pins: seq<View>)

  datatype ProfilesPrefs = ProfilesPrefs(profiles: seq<Profile>, active: string)

  datatype Refusal = Hidden | PinLimit | NameLength | NameTaken | ProfileLimit | BuiltInName

  /** What the text operations of the platform do: removing outer white space, lower case. */
  datatype Locale = Locale(trim: string -> string, lower: string -> string)

  function Fold(loc: Locale, name: string): string { loc.lower(loc.trim(name)) }

  /** The built-in profiles: names by id, and pins. */
  datatype BuiltIns = BuiltIns(name: string -> string, pins: string -> seq<View>)

  /** Trimming twice is trimming once; the built-in names differ however they are written. */
  ghost predicate Valid(loc: Locale, ship: BuiltIns) {
    && (forall s :: loc.trim(loc.trim(s)) == loc.trim(s))
    && (forall id, other :: IsBuiltInId(id) && IsBuiltInId(other) && Fold(loc, ship.name(id)) == Fold(loc, ship.name(other)) ==> id == other)
    && (forall id :: IsBuiltInId(id) ==> PinsOk(ship.pins(id)))
  }

  predicate IsBuiltInId(id: string) { id in BUILT_IN_IDS }

  function BuiltIn(ship: BuiltIns, id: string, pins: seq<View>): Profile { Profile(id, ship.name(id), true, pins) }

  predicate PinsOk(pins: seq<View>) { |pins| <= MAX_PINS && Distinct(pins) }

  // ----- Loading -----

  /** A stored profile: anything may be missing, and unknown views may be pinned. */
  datatype StoredProfile = NoObject | StoredProfile(id: Option<string>, name: Option<string>, pins: Option<seq<Option<View>>>)

  datatype Stored = Stored(profiles: seq<StoredProfile>, active: Option<string>)

  /** Known views, no duplicates, at most nine. */
  function CleanFn(raw: seq<Option<View>>): seq<View> {
    if raw == [] then [] else
    var n := |raw| - 1;
    var before := CleanFn(raw[..n]);
    if raw[n].Some? && raw[n].value !in before && |before| < MAX_PINS then before + [raw[n].value] else before
  }

  function CleanPins(raw: Option<seq<Option<View>>>): seq<View> { if raw.None? then [] else CleanFn(raw.value) }

  method Clean(raw: Option<seq<Option<View>>>) returns (out: seq<View>)
    ensures out == CleanPins(raw)
  {
    out := [];
    if raw.None? {
      return;
    }
    for i := 0 to |raw.value|
      invariant out == CleanFn(raw.value[..i])
    {
      assert raw.value[..i + 1][..i] == raw.value[..i];
      if raw.value[i].Some? && raw.value[i].value !in out && |out| < MAX_PINS {
        out := out + [raw.value[i].value];
      }
    }
    assert raw.value[..|raw.value|] == raw.value;
  }

  predicate HasId(ps: seq<Profile>, id: string) { exists i :: 0 <= i < |ps| && ps[i].id == id }

  predicate HasName(loc: Locale, ps: seq<Profile>, fold: string) { exists i :: 0 <= i < |ps| && Fold(loc, ps[i].name) == fold }

  predicate UsesBuiltInName(loc: Locale, ship: BuiltIns, fold: string) {
    exists i :: 0 <= i < |BUILT_IN_IDS| && Fold(loc, ship.name(BUILT_IN_IDS[i])) == fold
  }

  function TakeEntry(loc: Locale, ship: BuiltIns, ps: seq<Profile>, e: StoredProfile): seq<Profile> {
    if e.NoObject? || e.id.None? || HasId(ps, e.id.value) then ps else
    if IsBuiltInId(e.id.value) then ps + [BuiltIn(ship, e.id.value, CleanPins(e.pins))] else
    var name := if e.name.Some? then loc.trim(e.name.value) else "";
    if |name| < 1 || |name| > NAME_MAX || HasName(loc, ps, Fold(loc, name)) || UsesBuiltInName(loc, ship, Fold(loc, name)) then ps else
    ps + [Profile(e.id.value, name, false, CleanPins(e.pins))]
  }

  function TakeAll(loc: Locale, ship: BuiltIns, stored: seq<StoredProfile>): seq<Profile> {
    if stored == [] then [] else TakeEntry(loc, ship, TakeAll(loc, ship, stored[..|stored| - 1]), stored[|stored| - 1])
  }

  function AddMissing(ship: BuiltIns, ps: seq<Profile>, n: nat): seq<Profile>
    requires n <= |BUILT_IN_IDS|
  {
    if n == 0 then ps else
    var before := AddMissing(ship, ps, n - 1);
    var id := BUILT_IN_IDS[n - 1];
    if HasId(before, id) then before else before + [BuiltIn(ship, id, ship.pins(id))]
  }

  /** Position of the last profile of the user, or -1. */
  function LastUser(ps: seq<Profile>): (i: int)
    ensures -1 <= i < |ps|
    ensures i >= 0 ==> !ps[i].builtIn
    ensures i < 0 ==> forall k :: 0 <= k < |ps| ==> ps[k].builtIn
  {
    if ps == [] then -1 else if !ps[|ps| - 1].builtIn then |ps| - 1 else LastUser(ps[..|ps| - 1])
  }

  /** Drops users' profiles from the end until the cap is met; without any, the last one. */
  function Cap(ps: seq<Profile>): seq<Profile>
    decreases |ps|
  {
    if |ps| <= MAX_PROFILES then ps else
    var last := if LastUser(ps) < 0 then |ps| - 1 else LastUser(ps);
    Cap(ps[..last] + ps[last + 1..])
  }

  function NormalizeFn(loc: Locale, ship: BuiltIns, raw: Stored): ProfilesPrefs {
    var ps := Cap(AddMissing(ship, TakeAll(loc, ship, raw.profiles), |BUILT_IN_IDS|));
    ProfilesPrefs(ps, if raw.active.Some? && HasId(ps, raw.active.value) then raw.active.value else DEFAULT_ACTIVE)
  }

  /** The folded names of the profiles. */
  ghost predicate NamesOf(loc: Locale, names: set<string>, ps: seq<Profile>) {
    forall fold :: fold in names <==> HasName(loc, ps, fold)
  }

  method NormalizeProfiles(loc: Locale, ship: BuiltIns, raw: Stored) returns (prefs: ProfilesPrefs)
    ensures prefs == NormalizeFn(loc, ship, raw)
  {
    var profiles: seq<Profile> := [];
    var names: set<string> := {};
    for i := 0 to |raw.profiles|
      invariant profiles == TakeAll(loc, ship, raw.profiles[..i])
      invariant NamesOf(loc, names, profiles)
    {
      assert raw.profiles[..i + 1][..i] == raw.profiles[..i];
      var e := raw.profiles[i];
      if e.NoObject? || e.id.None? || HasId(profiles, e.id.value) {
        continue;
      }
      var pins := Clean(e.pins);
      if IsBuiltInId(e.id.value) {
        NameAdded(loc, names, profiles, BuiltIn(ship, e.id.value, pins));
        profiles := profiles + [BuiltIn(ship, e.id.value, pins)];
        names := names + {Fold(loc, ship.name(e.id.value))};
        continue;
      }
      var name := if e.name.Some? then loc.trim(e.name.value) else "";
      if |name| < 1 || |name| > NAME_MAX || Fold(loc, name) in names {
        continue;
      }
      if UsesBuiltInName(loc, ship, Fold(loc, name)) {
        continue;
      }
      NameAdded(loc, names, profiles, Profile(e.id.value, name, false, pins));
      names := names + {Fold(loc, name)};
      profiles := profiles + [Profile(e.id.value, name, false, pins)];
    }
    assert raw.profiles[..|raw.profiles|] == raw.profiles;
    for i := 0 to |BUILT_IN_IDS|
      invariant profiles == AddMissing(ship, TakeAll(loc, ship, raw.profiles), i)
    {
      if !HasId(profiles, BUILT_IN_IDS[i]) {
        profiles := profiles + [BuiltIn(ship, BUILT_IN_IDS[i], ship.pins(BUILT_IN_IDS[i]))];
      }
    }
    ghost var all := profiles;
    while |profiles| > MAX_PROFILES
      invariant Cap(profiles) == Cap(all)
      decreases |profiles|
    {
      var last := LastUser(profiles);
      if last < 0 {
        last := |profiles| - 1;
      }
      profiles := profiles[..last] + profiles[last + 1..];
    }
    prefs := ProfilesPrefs(profiles, if raw.active.Some? && HasId(profiles, raw.active.value) then raw.active.value else DEFAULT_ACTIVE);
  }

  lemma NameAdded(loc: Locale, names: set<string>, ps: seq<Profile>, p: Profile)
    requires NamesOf(loc, names, ps)
    ensures NamesOf(loc, names + {Fold(loc, p.name)}, ps + [p])
  {
    var all := ps + [p];
    forall fold
      ensures fold in names + {Fold(loc, p.name)} <==> HasName(loc, all, fold)
    {
      if HasName(loc, ps, fold) {
        var i :| 0 <= i < |ps| && Fold(loc, ps[i].name) == fold;
        assert all[i] == ps[i];
      }
      if fold == Fold(loc, p.name) {
        assert all[|ps|] == p;
      }
      if HasName(loc, all, fold) && fold !in names {
        var i :| 0 <= i < |all| && Fold(loc, all[i].name) == fold;
        assert i == |ps|;
      }
    }
  }

  // ----- Changes -----

  /** Position of the profile `id`, or -1. */
  function Find(ps: seq<Profile>, id: string): (i: int)
    ensures -1 <= i < |ps|
    ensures i >= 0 ==> ps[i].id == id && forall k :: 0 <= k < i ==> ps[k].id != id
    ensures i < 0 <==> !HasId(ps, id)
  {
    if ps == [] then -1 else if ps[0].id == id then 0 else
    var i := Find(ps[1..], id);
    assert i >= 0 ==> ps[i + 1].id == id;
    assert HasId(ps, id) ==> HasId(ps[1..], id) by {
      if HasId(ps, id) {
        var k :| 0 <= k < |ps| && ps[k].id == id;
        assert ps[1..][k - 1].id == id;
      }
    }
    if i < 0 then -1 else i + 1
  }

  function ActiveProfile(prefs: ProfilesPrefs): Profile
    requires prefs.profiles != []
  {
    var i := Find(prefs.profiles, prefs.active);
    if i >= 0 then prefs.profiles[i] else prefs.profiles[0]
  }

  function SetActive(prefs: ProfilesPrefs, id: string): ProfilesPrefs {
    if id == prefs.active || !HasId(prefs.profiles, id) then prefs else prefs.(active := id)
  }

  function Update(prefs: ProfilesPrefs, id: string, change: Profile -> Profile): ProfilesPrefs {
    prefs.(profiles := seq(|prefs.profiles|, i requires 0 <= i < |prefs.profiles| =>
      if prefs.profiles[i].id == id then change(prefs.profiles[i]) else prefs.profiles[i]))
  }

  function AddPin(view: View): Profile -> Profile { (p: Profile) => p.(pins := p.pins + [view]) }

  function RemovePin(view: View): Profile -> Profile { (p: Profile) => p.(pins := Without(p.pins, view)) }

  function Pin(prefs: ProfilesPrefs, view: View, hidden: seq<View>): Result<ProfilesPrefs, Refusal>
    requires prefs.profiles != []
  {
    var profile := ActiveProfile(prefs);
    if view in profile.pins then Ok(prefs) else
    if view in hidden then Err(Hidden) else
    if |profile.pins| >= MAX_PINS then Err(PinLimit) else
    Ok(Update(prefs, profile.id, AddPin(view)))
  }

  function Unpin(prefs: ProfilesPrefs, view: View, id: string): ProfilesPrefs {
    var i := Find(prefs.profiles, id);
    if i < 0 || view !in prefs.profiles[i].pins then prefs else
    Update(prefs, id, RemovePin(view))
  }

  function Swapped<T>(list: seq<T>, i: int, delta: Navigation.Delta): Option<seq<T>> {
    if 0 <= i < |list| && 0 <= i + delta < |list| then Some(Swap(list, i, i + delta)) else None
  }

  function MovePin(prefs: ProfilesPrefs, id: string, view: View, delta: Navigation.Delta): ProfilesPrefs {
    var i := Find(prefs.profiles, id);
    if i < 0 then prefs else
    var pins := Swapped(prefs.profiles[i].pins, IndexOf(prefs.profiles[i].pins, view), delta);
    if pins.None? then prefs else Update(prefs, id, (p: Profile) => p.(pins := pins.value))
  }

  /** A profile other than `except` has this name. */
  predicate Taken(loc: Locale, ps: seq<Profile>, name: string, except: Option<string>) {
    exists i :: 0 <= i < |ps| && Some(ps[i].id) != except && Fold(loc, ps[i].name) == Fold(loc, name)
  }

  function ValidateName(loc: Locale, prefs: ProfilesPrefs, name: string, except: Option<string>): Option<Refusal> {
    var trimmed := loc.trim(name);
    if |trimmed| < 1 || |trimmed| > NAME_MAX then Some(NameLength) else
    if Taken(loc, prefs.profiles, trimmed, except) then Some(NameTaken) else None
  }

  function Create(loc: Locale, prefs: ProfilesPrefs, name: string, fromActive: bool, id: string): Result<ProfilesPrefs, Refusal>
    requires prefs.profiles != []
  {
    if |prefs.profiles| >= MAX_PROFILES then Err(ProfileLimit) else
    var error := ValidateName(loc, prefs, name, None);
    if error.Some? then Err(error.value) else
    var pins := if fromActive then ActiveProfile(prefs).pins else [];
    Ok(ProfilesPrefs(prefs.profiles + [Profile(id, loc.trim(name), false, pins)], id))
  }

  function Rename(loc: Locale, prefs: ProfilesPrefs, id: string, name: string): Result<ProfilesPrefs, Refusal> {
    var i := Find(prefs.profiles, id);
    if i < 0 then Ok(prefs) else
    if prefs.profiles[i].builtIn then Err(BuiltInName) else
    var error := ValidateName(loc, prefs, name, Some(id));
    if error.Some? then Err(error.value) else
    Ok(Update(prefs, id, (p: Profile) => p.(name := loc.trim(name))))
  }

  function Delete(prefs: ProfilesPrefs, id: string): ProfilesPrefs {
    var i := Find(prefs.profiles, id);
    if i < 0 || prefs.profiles[i].builtIn then prefs else
    ProfilesPrefs(Keep(prefs.profiles, (p: Profile) => p.id != id), if prefs.active == id then DEFAULT_ACTIVE else prefs.active)
  }

  function MoveProfile(prefs: ProfilesPrefs, id: string, delta: Navigation.Delta): ProfilesPrefs {
    var profiles := Swapped(prefs.profiles, Find(prefs.profiles, id), delta);
    if profiles.None? then prefs else prefs.(profiles := profiles.value)
  }

  function ResetPins(ship: BuiltIns, prefs: ProfilesPrefs, id: string): ProfilesPrefs {
    Update(prefs, id, (p: Profile) => BuiltIn(ship, id, ship.pins(id)))
  }
}
