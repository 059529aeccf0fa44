/** Flattening an object and nesting the result gives the object, in its order. */
module EcsRebuild {
  import opened Prelude
  import opened Ecs
  import opened EcsFacts

  /** An object whose keys are non-empty and dot-free, at every level. */
  predicate Clean(fs: Fields)
    decreases fs
  {
    fs.Field? ==> Plain(fs.key) && Get(fs.rest, fs.key).None? && CleanValue(fs.value) && Clean(fs.rest)
  }

  predicate CleanValue(v: Json)
    decreases v
  {
    v.Obj? ==> Clean(v.fields)
  }

  // ----- Leaves by their path -----

  type Path = (seq<string>, Json)

  predicate Paved(ps: seq<Path>) { forall i :: 0 <= i < |ps| ==> |ps[i].0| >= 1 && AllPlain(ps[i].0) }

  function Under(key: string, ps: seq<Path>): (r: seq<Path>)
    ensures |r| == |ps| && forall i :: 0 <= i < |ps| ==> r[i] == ([key] + ps[i].0, ps[i].1)
  {
    seq(|ps|, i requires 0 <= i < |ps| => ([key] + ps[i].0, ps[i].1))
  }

  function Paths(fs: Fields): seq<Path>
    decreases fs
  {
    if fs.Nil? then [] else PathsAt(fs.key, fs.value) + Paths(fs.rest)
  }

  function PathsAt(key: string, value: Json): seq<Path>
    decreases value
  {
    if Walked(value) then Under(key, Paths(value.fields)) else [([key], value)]
  }

  lemma {:induction false} PathsArePaved(fs: Fields)
    requires Clean(fs)
    ensures Paved(Paths(fs))
    ensures fs.Field? ==> Paths(fs) != []
    ensures forall i :: 0 <= i < |Paths(fs)| ==> Get(fs, Paths(fs)[i].0[0]).Some?
    decreases fs
  {
    if fs.Field? {
      PathsArePaved(fs.rest);
      if Walked(fs.value) {
        PathsArePaved(fs.value.fields);
      }
    }
  }

  predicate DistinctPaths(ps: seq<Path>) { forall i, j :: 0 <= i < j < |ps| ==> ps[i].0 != ps[j].0 }

  lemma {:induction false} PathsAreDistinct(fs: Fields)
    requires Clean(fs)
    ensures DistinctPaths(Paths(fs))
    decreases fs
  {
    if fs.Field? {
      PathsAreDistinct(fs.rest);
      PathsArePaved(fs.rest);
      var at := PathsAt(fs.key, fs.value);
      if Walked(fs.value) {
        PathsAreDistinct(fs.value.fields);
        UnderIsDistinct(fs.key, Paths(fs.value.fields));
      }
      forall i, j | 0 <= i < |at| && 0 <= j < |Paths(fs.rest)|
        ensures at[i].0 != Paths(fs.rest)[j].0
      {
        assert at[i].0[0] == fs.key;
      }
    }
  }

  lemma UnderIsDistinct(key: string, ps: seq<Path>)
    requires DistinctPaths(ps)
    ensures DistinctPaths(Under(key, ps))
  {
    forall i, j | 0 <= i < j < |ps|
      ensures [key] + ps[i].0 != [key] + ps[j].0
    {
      assert ([key] + ps[i].0)[1..] == ps[i].0 && ([key] + ps[j].0)[1..] == ps[j].0;
    }
  }

  function Keyed(ps: seq<Path>, prefix: string): (out: seq<Entry>)
    requires Paved(ps)
    ensures |out| == |ps| && forall i :: 0 <= i < |ps| ==> out[i] == (Dotted(prefix, Join(ps[i].0)), ps[i].1)
  {
    seq(|ps|, i requires 0 <= i < |ps| => (Dotted(prefix, Join(ps[i].0)), ps[i].1))
  }

  lemma KeyedJoins(a: seq<Path>, b: seq<Path>, prefix: string)
    requires Paved(a) && Paved(b)
    ensures Paved(a + b) && Keyed(a + b, prefix) == Keyed(a, prefix) + Keyed(b, prefix)
  {
  }

  /** The flattened keys are the paths, joined. */
  lemma {:induction false} LeavesAreKeyed(fs: Fields, prefix: string)
    requires Clean(fs)
    ensures Paved(Paths(fs)) && Pairs(Leaves(fs, prefix)) == Keyed(Paths(fs), prefix)
    decreases fs
  {
    PathsArePaved(fs);
    if fs.Field? {
      LeavesAtAreKeyed(fs.key, fs.value, prefix);
      LeavesAreKeyed(fs.rest, prefix);
      PairsJoin(LeavesAt(fs.key, fs.value, prefix), Leaves(fs.rest, prefix));
      KeyedJoins(PathsAt(fs.key, fs.value), Paths(fs.rest), prefix);
    }
  }

  lemma LeavesAtAreKeyed(key: string, value: Json, prefix: string)
    requires Plain(key) && CleanValue(value)
    ensures Paved(PathsAt(key, value)) && Pairs(LeavesAt(key, value, prefix)) == Keyed(PathsAt(key, value), prefix)
    decreases value
  {
    if Walked(value) {
      var ps := Paths(value.fields);
      LeavesAreKeyed(value.fields, Dotted(prefix, key));
      forall i | 0 <= i < |ps|
        ensures Dotted(prefix, Join([key] + ps[i].0)) == Dotted(Dotted(prefix, key), Join(ps[i].0))
      {
        assert ([key] + ps[i].0)[1..] == ps[i].0;
        DottedJoin(prefix, [key] + ps[i].0);
      }
      assert Pairs(LeavesAt(key, value, prefix)) == Keyed(Under(key, ps), prefix);
    } else {
      assert Pairs(LeavesAt(key, value, prefix)) == [(Dotted(prefix, key), value)];
      assert Join([key]) == key;
    }
  }

  lemma KeysAreDistinct(ps: seq<Path>)
    requires Paved(ps) && DistinctPaths(ps)
    ensures DistinctKeys(Keyed(ps, ""))
  {
    forall i, j | 0 <= i < j < |ps|
      ensures Join(ps[i].0) != Join(ps[j].0)
    {
      SplitJoin(ps[i].0);
      SplitJoin(ps[j].0);
    }
  }

  // ----- Placing all the paths again -----

  function PlaceAll(node: Fields, ps: seq<Path>): Option<Fields>
    requires Paved(ps)
    decreases |ps|
  {
    if ps == [] then Some(node) else
    var before := PlaceAll(node, ps[..|ps| - 1]);
    if before.None? then None else Place(before.value, ps[|ps| - 1].0, ps[|ps| - 1].1)
  }

  lemma {:induction false} PlaceAllJoins(node: Fields, a: seq<Path>, b: seq<Path>)
    requires Paved(a) && Paved(b) && PlaceAll(node, a).Some?
    ensures Paved(a + b) && PlaceAll(node, a + b) == PlaceAll(PlaceAll(node, a).value, b)
    decreases |b|
  {
    if b == [] {
      assert a + b == a;
    } else {
      PlaceAllJoins(node, a, b[..|b| - 1]);
      assert (a + b)[..|a + b| - 1] == a + b[..|b| - 1];
    }
  }

  function Append(fs: Fields, more: Fields): Fields {
    if fs.Nil? then more else Field(fs.key, fs.value, Append(fs.rest, more))
  }

  lemma {:induction false} AssignNew(fs: Fields, key: string, value: Json)
    requires Get(fs, key).None?
    ensures Assign(fs, key, value) == Append(fs, Field(key, value, Nil))
  {
    if fs.Field? {
      AssignNew(fs.rest, key, value);
    }
  }

  lemma {:induction false} AppendJoins(a: Fields, b: Fields, c: Fields)
    ensures Append(Append(a, b), c) == Append(a, Append(b, c))
  {
    if a.Field? {
      AppendJoins(a.rest, b, c);
    }
  }

  lemma {:induction false} GetAppend(a: Fields, b: Fields, key: string)
    ensures Get(Append(a, b), key) == if Get(a, key).Some? then Get(a, key) else Get(b, key)
  {
    if a.Field? {
      GetAppend(a.rest, b, key);
    }
  }

  lemma {:induction false} AssignTwice(fs: Fields, key: string, first: Json, second: Json)
    ensures Get(Assign(fs, key, first), key) == Some(first)
    ensures Assign(Assign(fs, key, first), key, second) == Assign(fs, key, second)
  {
    if fs.Field? {
      AssignTwice(fs.rest, key, first, second);
    }
  }

  lemma {:induction false} PlaceInObject(node: Fields, key: string, child: Fields, p: Path)
    requires Plain(key) && Get(node, key) == Some(Obj(child)) && |p.0| >= 1 && Place(child, p.0, p.1).Some?
    ensures Place(node, [key] + p.0, p.1) == Some(Assign(node, key, Obj(Place(child, p.0, p.1).value)))
  {
    assert ([key] + p.0)[1..] == p.0;
  }

  lemma {:induction false} PlaceInNew(node: Fields, key: string, p: Path)
    requires Plain(key) && Get(node, key).None? && |p.0| >= 1 && Place(Nil, p.0, p.1).Some?
    ensures Place(node, [key] + p.0, p.1) == Some(Assign(node, key, Obj(Place(Nil, p.0, p.1).value)))
  {
    assert ([key] + p.0)[1..] == p.0;
  }

  /** Paths under a new key build their object there. */
  lemma {:induction false} PlaceUnder(node: Fields, key: string, ps: seq<Path>)
    requires Plain(key) && Get(node, key).None? && Paved(ps) && ps != [] && PlaceAll(Nil, ps).Some?
    ensures Paved(Under(key, ps)) && PlaceAll(node, Under(key, ps)) == Some(Assign(node, key, Obj(PlaceAll(Nil, ps).value)))
    decreases |ps|
  {
    var n := |ps| - 1;
    assert Under(key, ps)[..n] == Under(key, ps[..n]);
    if n == 0 {
      assert ps[..n] == [] && Under(key, ps)[..n] == [];
      PlaceInNew(node, key, ps[n]);
    } else {
      var child := PlaceAll(Nil, ps[..n]).value;
      PlaceUnder(node, key, ps[..n]);
      AssignTwice(node, key, Obj(child), Obj(PlaceAll(Nil, ps).value));
      PlaceInObject(Assign(node, key, Obj(child)), key, child, ps[n]);
    }
  }

  predicate NewKeys(node: Fields, fs: Fields) {
    fs.Field? ==> Get(node, fs.key).None? && NewKeys(node, fs.rest)
  }

  lemma {:induction false} StillNew(node: Fields, key: string, value: Json, fs: Fields)
    requires NewKeys(node, fs) && Get(fs, key).None?
    ensures NewKeys(Append(node, Field(key, value, Nil)), fs)
  {
    if fs.Field? {
      GetAppend(node, Field(key, value, Nil), fs.key);
      StillNew(node, key, value, fs.rest);
    }
  }

  /** Placing the paths of an object adds its properties, in order. */
  lemma {:induction false} Rebuild(node: Fields, fs: Fields)
    requires Clean(fs) && NewKeys(node, fs)
    ensures Paved(Paths(fs)) && PlaceAll(node, Paths(fs)) == Some(Append(node, fs))
    decreases fs
  {
    PathsArePaved(fs);
    if fs.Nil? {
      AppendNil(node);
    } else {
      RebuildAt(node, fs.key, fs.value);
      AssignNew(node, fs.key, fs.value);
      StillNew(node, fs.key, fs.value, fs.rest);
      Rebuild(Append(node, Field(fs.key, fs.value, Nil)), fs.rest);
      PlaceAllJoins(node, PathsAt(fs.key, fs.value), Paths(fs.rest));
      AppendJoins(node, Field(fs.key, fs.value, Nil), fs.rest);
    }
  }

  lemma RebuildAt(node: Fields, key: string, value: Json)
    requires Plain(key) && Get(node, key).None? && CleanValue(value)
    ensures Paved(PathsAt(key, value)) && PlaceAll(node, PathsAt(key, value)) == Some(Assign(node, key, value))
    decreases value
  {
    if Walked(value) {
      NewInNil(value.fields);
      Rebuild(Nil, value.fields);
      PathsArePaved(value.fields);
      PlaceUnder(node, key, Paths(value.fields));
    } else {
      assert [([key], value)][..0] == [];
    }
  }

  lemma {:induction false} NewInNil(fs: Fields)
    ensures NewKeys(Nil, fs)
  {
    if fs.Field? {
      NewInNil(fs.rest);
    }
  }

  lemma {:induction false} AppendNil(fs: Fields)
    ensures Append(fs, Nil) == fs
  {
    if fs.Field? {
      AppendNil(fs.rest);
    }
  }

  /** Inserting by key is placing by path. */
  lemma {:induction false} NestedIsPlaceAll(ps: seq<Path>)
    requires Paved(ps) && PlaceAll(Nil, ps).Some?
    ensures NestedFn(Keyed(ps, "")) == PlaceAll(Nil, ps).value
    decreases |ps|
  {
    if ps != [] {
      var n := |ps| - 1;
      NestedIsPlaceAll(ps[..n]);
      SplitJoin(ps[n].0);
      assert Keyed(ps, "")[..n] == Keyed(ps[..n], "");
    }
  }

  /** Flattening an object and nesting the result gives the object, in its own order. */
  lemma FlattenThenNest(o: Fields)
    requires Clean(o)
    ensures NestedFn(FlattenFn(o)) == o
  {
    LeavesAreKeyed(o, "");
    PathsAreDistinct(o);
    KeysAreDistinct(Paths(o));
    var flat := Pairs(Leaves(o, ""));
    assert [] + flat == flat;
    PutDistinct(Flat([], {}), Leaves(o, ""));
    NewInNil(o);
    Rebuild(Nil, o);
    NestedIsPlaceAll(Paths(o));
  }

  lemma {:induction false} NestedStep(doc: seq<Entry>, e: Entry)
    ensures NestedFn(doc + [e]) == Insert(NestedFn(doc), e.0, e.1)
  {
    assert (doc + [e])[..|doc + [e]| - 1] == doc;
  }

  /** A key of two parts whose first is not there makes an object. */
  lemma InsertTwo(root: Fields, key: string, first: string, last: string, value: Json)
    requires Plain(first) && Plain(last) && key == first + ("." + last) && Get(root, first).None?
    ensures Insert(root, key, value) == Assign(root, first, Obj(Field(last, value, Nil)))
  {
    assert [first, last][1..] == [last];
    SplitJoin([first, last]);
    assert Place(Nil, [last], value) == Some(Field(last, value, Nil));
  }

  /**
   * A key that comes after a longer key through it is renamed, and its new name
   * may take the place of another field: here `a_.x` is lost.
   */
  lemma RenamingCanLoseAField(x: int, y: int, z: int)
    ensures var doc := [("a_.x", Scalar(x)), ("a.y", Scalar(y)), ("a", Scalar(z))];
            NestedFn(doc) == Field("a_", Scalar(z), Field("a", Obj(Field("y", Scalar(y), Nil)), Nil))
  {
    var doc := [("a_.x", Scalar(x)), ("a.y", Scalar(y)), ("a", Scalar(z))];
    NestedStep([], doc[0]);
    NestedStep([doc[0]], doc[1]);
    NestedStep([doc[0], doc[1]], doc[2]);
    assert [] + [doc[0]] == [doc[0]] && [doc[0]] + [doc[1]] == [doc[0], doc[1]] && [doc[0], doc[1]] + [doc[2]] == doc;
    InsertTwo(Nil, "a_.x", "a_", "x", Scalar(x));
    var one := Field("a_", Obj(Field("x", Scalar(x), Nil)), Nil);
    assert NestedFn([doc[0]]) == one;
    assert Get(one, "a").None?;
    InsertTwo(one, "a.y", "a", "y", Scalar(y));
    var two := NestedFn([doc[0], doc[1]]);
    assert two == Field("a_", one.value, Field("a", Obj(Field("y", Scalar(y), Nil)), Nil));
    assert Split("a") == ["a"] by { SplitPlain("a"); }
    assert two.key != "a" && Get(two.rest, "a") == Some(two.rest.value);
    assert Place(two, ["a"], Scalar(z)).None?;
    assert Insert(two, "a", Scalar(z)) == Assign(two, "a" + "_", Scalar(z));
    assert "a" + "_" == "a_";
  }
}
