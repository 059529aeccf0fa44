/** What one inserted field does to the fields an object holds. */
module EcsFacts {
  import opened Prelude
  import opened Ecs

  // ----- What an object holds, whatever the order -----

  /** The flattened fields one property stands for. */
  ghost function Part(key: string, value: Json, prefix: string): multiset<Entry>
    decreases value
  {
    if Walked(value) then Bag(value.fields, Dotted(prefix, key)) else multiset{(Dotted(prefix, key), value)}
  }

  ghost function Bag(fs: Fields, prefix: string): multiset<Entry>
    decreases fs
  {
    if fs.Nil? then multiset{} else Part(fs.key, fs.value, prefix) + Bag(fs.rest, prefix)
  }

  lemma {:induction false} AssignAdds(fs: Fields, key: string, value: Json, prefix: string)
    ensures Get(fs, key).None? ==> Bag(Assign(fs, key, value), prefix) == Bag(fs, prefix) + Part(key, value, prefix)
    ensures Get(fs, key).Some? ==>
      Bag(Assign(fs, key, value), prefix) + Part(key, Get(fs, key).value, prefix) == Bag(fs, prefix) + Part(key, value, prefix)
  {
    if fs.Field? && fs.key != key {
      AssignAdds(fs.rest, key, value, prefix);
    }
  }

  lemma {:induction false} GetInBag(fs: Fields, key: string, prefix: string)
    requires Get(fs, key).Some?
    ensures Part(key, Get(fs, key).value, prefix) <= Bag(fs, prefix)
  {
    if fs.key != key {
      GetInBag(fs.rest, key, prefix);
    }
  }

  /** Objects sit under plain keys only, at every level. */
  predicate TreeOk(fs: Fields)
    decreases fs
  {
    fs.Field? ==> ValueOk(fs.key, fs.value) && TreeOk(fs.rest)
  }

  predicate ValueOk(key: string, value: Json)
    decreases value
  {
    Walked(value) ==> Plain(key) && TreeOk(value.fields)
  }

  lemma {:induction false} AssignOk(fs: Fields, key: string, value: Json)
    requires TreeOk(fs) && ValueOk(key, value)
    ensures TreeOk(Assign(fs, key, value))
  {
    if fs.Field? && fs.key != key {
      AssignOk(fs.rest, key, value);
    }
  }

  lemma {:induction false} GetOk(fs: Fields, key: string)
    requires TreeOk(fs) && Get(fs, key).Some?
    ensures ValueOk(key, Get(fs, key).value)
  {
    if fs.key != key {
      GetOk(fs.rest, key);
    }
  }

  // ----- Adding one field -----

  /** No field has this key. */
  ghost predicate Fresh(bag: multiset<Entry>, key: string) { forall e :: e in bag ==> e.0 != key }

  /** An empty object stands where the path goes on. */
  predicate EmptyOnPath(node: Fields, parts: seq<string>)
    requires |parts| >= 1
    decreases |parts|
  {
    && |parts| > 1
    && var next := Get(node, parts[0]);
       next.Some? && next.value.Obj? && (next.value.fields.Nil? || EmptyOnPath(next.value.fields, parts[1..]))
  }

  lemma {:induction false} DottedJoin(prefix: string, parts: seq<string>)
    requires |parts| > 1 && parts[0] != ""
    ensures Dotted(prefix, Join(parts)) == Dotted(Dotted(prefix, parts[0]), Join(parts[1..]))
    ensures Dotted(prefix, parts[0]) + "." <= Dotted(prefix, Join(parts))
  {
    var rest := "." + Join(parts[1..]);
    assert (parts[0] + ".") + Join(parts[1..]) == parts[0] + rest;
    if prefix != "" {
      var head := prefix + ("." + parts[0]);
      assert prefix + ("." + (parts[0] + rest)) == head + rest;
      assert (head + ".") + Join(parts[1..]) == head + rest;
    }
  }

  lemma {:induction false} JoinHasDot(parts: seq<string>)
    requires |parts| > 1
    ensures '.' in Join(parts)
  {
    assert Join(parts)[|parts[0]|] == '.';
  }

  lemma {:induction false} LeafInBag(fs: Fields, key: string, prefix: string)
    requires Get(fs, key).Some? && Leaf(Get(fs, key).value)
    ensures (Dotted(prefix, key), Get(fs, key).value) in Bag(fs, prefix)
  {
    GetInBag(fs, key, prefix);
    var e := (Dotted(prefix, key), Get(fs, key).value);
    assert Part(key, Get(fs, key).value, prefix) == multiset{e};
  }

  /** A key that is not in the bag holds no leaf, and no object unless it is plain. */
  lemma NoProperty(fs: Fields, key: string, prefix: string)
    requires TreeOk(fs) && !Plain(key) && forall e :: e in Bag(fs, prefix) ==> e.0 != Dotted(prefix, key)
    ensures Get(fs, key).None?
  {
    if Get(fs, key).Some? {
      GetOk(fs, key);
      LeafInBag(fs, key, prefix);
    }
  }

  ghost predicate Added(before: Fields, after: Fields, prefix: string, e: Entry) {
    TreeOk(after) && Bag(after, prefix) == Bag(before, prefix) + multiset{e}
  }

  /** Some field was lost: there are no more of them than before. */
  ghost predicate NotMore(before: Fields, after: Fields, prefix: string) {
    TreeOk(after) && |Bag(after, prefix)| <= |Bag(before, prefix)|
  }

  predicate AllPlain(parts: seq<string>) { forall i :: 0 <= i < |parts| ==> Plain(parts[i]) }

  lemma {:induction false} PartsAreSome(fs: Fields, prefix: string)
    requires fs.Field?
    ensures |Bag(fs, prefix)| >= 1
    decreases fs
  {
    if Walked(fs.value) {
      PartsAreSome(fs.value.fields, Dotted(prefix, fs.key));
    }
  }

  /** Assigning a leaf adds it, or takes the place of what was there. */
  lemma AssignOutcome(fs: Fields, key: string, value: Json, prefix: string)
    requires TreeOk(fs) && Leaf(value)
    ensures Get(fs, key).None? ==> Added(fs, Assign(fs, key, value), prefix, (Dotted(prefix, key), value))
    ensures Get(fs, key).Some? ==> NotMore(fs, Assign(fs, key, value), prefix)
  {
    AssignAdds(fs, key, value, prefix);
    AssignOk(fs, key, value);
    if Get(fs, key).Some? && Walked(Get(fs, key).value) {
      PartsAreSome(Get(fs, key).value.fields, Dotted(prefix, key));
    }
  }

  /**
   * A field that finds its place is added under its key; or it takes another's
   * place, when its key is there already or an empty object is on its path.
   */
  ghost predicate Placed(node: Fields, after: Fields, parts: seq<string>, value: Json, prefix: string)
    requires |parts| >= 1
  {
    var key := Dotted(prefix, Join(parts));
    && after.Field?
    && (if EmptyOnPath(node, parts) then NotMore(node, after, prefix)
        else Added(node, after, prefix, (key, value)) || (NotMore(node, after, prefix) && !Fresh(Bag(node, prefix), key)))
  }

  lemma {:induction false} PlaceOutcome(node: Fields, parts: seq<string>, value: Json, prefix: string)
    requires |parts| >= 1 && AllPlain(parts) && Leaf(value) && TreeOk(node)
    ensures Place(node, parts, value).Some? ==> Placed(node, Place(node, parts, value).value, parts, value, prefix)
    decreases |parts|
  {
    var next := Get(node, parts[0]);
    if |parts| == 1 {
      AssignOutcome(node, parts[0], value, prefix);
      if next.Some? && Leaf(next.value) {
        LeafInBag(node, parts[0], prefix);
      }
    } else {
      DottedJoin(prefix, parts);
      if next.Some? && next.value.Scalar? {
        JoinHasDot(parts);
        AssignOutcome(node, Join(parts), value, prefix);
        if Fresh(Bag(node, prefix), Dotted(prefix, Join(parts))) {
          NoProperty(node, Join(parts), prefix);
        }
      } else {
        PlaceBelow(node, parts, value, prefix);
      }
    }
  }

  function Inner(node: Fields, key: string): Fields
    requires Get(node, key).Some? ==> Get(node, key).value.Obj?
  {
    if Get(node, key).None? then Nil else Get(node, key).value.fields
  }

  /** What changes below a key changes in the whole. */
  lemma ChangeBelow(node: Fields, key: string, child: Fields, prefix: string)
    requires Plain(key) && TreeOk(node) && TreeOk(child) && child.Field?
    requires Get(node, key).Some? ==> Get(node, key).value.Obj?
    ensures var after, below := Assign(node, key, Obj(child)), Dotted(prefix, key);
            && TreeOk(after)
            && var empty := if Get(node, key) == Some(Obj(Nil)) then multiset{(below, Obj(Nil))} else multiset{};
               Bag(after, prefix) + Bag(Inner(node, key), below) + empty == Bag(node, prefix) + Bag(child, below)
  {
    AssignAdds(node, key, Obj(child), prefix);
    AssignOk(node, key, Obj(child));
  }

  lemma {:induction false} PlaceBelow(node: Fields, parts: seq<string>, value: Json, prefix: string)
    requires |parts| > 1 && AllPlain(parts) && Leaf(value) && TreeOk(node)
    requires Get(node, parts[0]).Some? ==> Get(node, parts[0]).value.Obj?
    ensures Place(node, parts, value).Some? ==> Placed(node, Place(node, parts, value).value, parts, value, prefix)
    decreases |parts|, 0
  {
    var inner, below := Inner(node, parts[0]), Dotted(prefix, parts[0]);
    DottedJoin(prefix, parts);
    if Get(node, parts[0]).Some? {
      GetOk(node, parts[0]);
      GetInBag(node, parts[0], prefix);
    }
    PlaceOutcome(inner, parts[1..], value, below);
    var child := Place(inner, parts[1..], value);
    if child.Some? {
      ChangeBelow(node, parts[0], child.value, prefix);
      PlacedBelow(node, Assign(node, parts[0], Obj(child.value)), parts, child.value, value, prefix);
    }
  }

  lemma Cancel(a: multiset<Entry>, b: multiset<Entry>, c: multiset<Entry>, d: multiset<Entry>)
    requires a + b == c + (b + d)
    ensures a == c + d
  {
    assert a == (a + b) - b && c + d == (c + (b + d)) - b;
  }

  lemma CountBelow(after: multiset<Entry>, inner: multiset<Entry>, empty: multiset<Entry>, node: multiset<Entry>, child: multiset<Entry>)
    requires after + inner + empty == node + child && |child| <= |inner| + |empty|
    ensures |after| <= |node|
  {
    assert |after + inner + empty| == |node + child|;
  }

  /** What a path's outcome below its first part is for the whole. */
  lemma {:induction false} PlacedBelow(node: Fields, after: Fields, parts: seq<string>, child: Fields, value: Json, prefix: string)
    requires |parts| > 1 && (Get(node, parts[0]).Some? ==> Get(node, parts[0]).value.Obj?) && TreeOk(after) && after.Field?
    requires var below := Dotted(prefix, parts[0]);
             && Placed(Inner(node, parts[0]), child, parts[1..], value, below)
             && Dotted(prefix, Join(parts)) == Dotted(below, Join(parts[1..]))
             && var empty := if Get(node, parts[0]) == Some(Obj(Nil)) then multiset{(below, Obj(Nil))} else multiset{};
                Bag(after, prefix) + Bag(Inner(node, parts[0]), below) + empty == Bag(node, prefix) + Bag(child, below)
    requires Get(node, parts[0]).Some? && Get(node, parts[0]) != Some(Obj(Nil)) ==>
               Bag(Inner(node, parts[0]), Dotted(prefix, parts[0])) <= Bag(node, prefix)
    ensures Placed(node, after, parts, value, prefix)
  {
    var inner, below := Inner(node, parts[0]), Dotted(prefix, parts[0]);
    var e := (Dotted(prefix, Join(parts)), value);
    if Get(node, parts[0]) == Some(Obj(Nil)) {
      assert |Bag(child, below)| <= 1;
      CountBelow(Bag(after, prefix), Bag(inner, below), multiset{(below, Obj(Nil))}, Bag(node, prefix), Bag(child, below));
    } else if Bag(child, below) == Bag(inner, below) + multiset{e} {
      Cancel(Bag(after, prefix), Bag(inner, below), Bag(node, prefix), multiset{e});
    } else {
      CountBelow(Bag(after, prefix), Bag(inner, below), multiset{}, Bag(node, prefix), Bag(child, below));
    }
  }

  // ----- Keys and parts -----

  lemma {:induction false} JoinSplit(key: string)
    ensures Join(Split(key)) == key
    ensures forall i :: 0 <= i < |Split(key)| ==> '.' !in Split(key)[i]
  {
    if key != "" {
      JoinSplit(key[1..]);
      var parts := Split(key[1..]);
      assert key == [key[0]] + key[1..];
      if key[0] != '.' {
        var first := [key[0]] + parts[0];
        assert Split(key)[1..] == parts[1..];
        if |parts| > 1 {
          assert ([key[0]] + parts[0]) + ("." + Join(parts[1..])) == [key[0]] + (parts[0] + ("." + Join(parts[1..])));
        }
      } else {
        assert Split(key)[1..] == parts;
        assert "" + ("." + Join(parts)) == [key[0]] + Join(parts);
      }
    }
  }

  lemma {:induction false} SplitPlain(key: string)
    requires '.' !in key
    ensures Split(key) == [key]
  {
    if key != "" {
      SplitPlain(key[1..]);
      assert [key[0]] + key[1..] == key;
    }
  }

  lemma RegularParts(key: string)
    ensures Regular(key) ==> AllPlain(Split(key))
    ensures Plain(key) ==> Split(key) == [key]
    ensures !Regular(key) || |Split(key)| > 1 ==> !Plain(key)
    ensures |Split(key)| == 1 ==> Split(key)[0] == key
  {
    JoinSplit(key);
    if Plain(key) {
      SplitPlain(key);
    }
  }

  lemma {:induction false} SplitAt(part: string, rest: string)
    requires '.' !in part
    ensures Split(part + ("." + rest)) == [part] + Split(rest)
  {
    var key := part + ("." + rest);
    if part == "" {
      assert key == "." + rest && key[1..] == rest;
    } else {
      SplitAt(part[1..], rest);
      assert key[1..] == part[1..] + ("." + rest);
      assert [part[0]] + part[1..] == part;
      assert ([part[1..]] + Split(rest))[1..] == Split(rest);
    }
  }

  /** A path of plain parts is read back from its key. */
  lemma {:induction false} SplitJoin(parts: seq<string>)
    requires |parts| >= 1 && AllPlain(parts)
    ensures Split(Join(parts)) == parts
  {
    if |parts| == 1 {
      SplitPlain(parts[0]);
    } else {
      SplitJoin(parts[1..]);
      SplitAt(parts[0], Join(parts[1..]));
    }
  }

  // ----- One inserted field -----

  /** The slot of a key without dots holds an object. */
  predicate SlotTaken(root: Fields, key: string) {
    Plain(key) && Get(root, key).Some? && Get(root, key).value.Obj?
  }

  predicate EmptyBefore(root: Fields, key: string) { Regular(key) && EmptyOnPath(root, Split(key)) }

  ghost predicate Undisturbed(root: Fields, key: string) {
    Fresh(Bag(root, ""), key) && !SlotTaken(root, key) && !EmptyBefore(root, key)
  }

  /**
   * A field that disturbs no other is added under its key. One whose slot holds
   * an object is added under another key, and any other takes a field's place.
   */
  lemma {:induction false} InsertOutcome(root: Fields, key: string, value: Json)
    requires TreeOk(root) && Leaf(value)
    ensures var after := Insert(root, key, value);
            if Undisturbed(root, key) then Added(root, after, "", (key, value))
            else if SlotTaken(root, key) then Added(root, after, "", (key + "_", value)) || NotMore(root, after, "")
            else if EmptyBefore(root, key) then NotMore(root, after, "")
            else Added(root, after, "", (key, value)) || NotMore(root, after, "")
  {
    var parts := Split(key);
    JoinSplit(key);
    RegularParts(key);
    if !Plain(key) {
      PutAtRoot(root, key, value);
    }
    if Regular(key) {
      PlaceOutcome(root, parts, value, "");
      if |parts| > 1 && EmptyOnPath(root, parts) {
        PlacedThroughEmpty(root, parts, value);
      }
      if Plain(key) {
        AssignOutcome(root, key + "_", value, "");
      }
    }
  }

  /** An empty object on the path is gone through. */
  lemma {:induction false} PlacedThroughEmpty(node: Fields, parts: seq<string>, value: Json)
    requires |parts| >= 1 && EmptyOnPath(node, parts)
    ensures Place(node, parts, value).Some?
    decreases |parts|
  {
    var inner := Get(node, parts[0]).value.fields;
    if inner.Field? {
      PlacedThroughEmpty(inner, parts[1..], value);
    } else {
      PlacedInNil(parts[1..], value);
    }
  }

  lemma {:induction false} PlacedInNil(parts: seq<string>, value: Json)
    requires |parts| >= 1
    ensures Place(Nil, parts, value).Some?
    decreases |parts|
  {
    if |parts| > 1 {
      PlacedInNil(parts[1..], value);
    }
  }

  lemma PutAtRoot(root: Fields, key: string, value: Json)
    requires TreeOk(root) && Leaf(value) && !Plain(key)
    ensures var after := Assign(root, key, value);
            Added(root, after, "", (key, value)) || (NotMore(root, after, "") && !Fresh(Bag(root, ""), key))
  {
    AssignOutcome(root, key, value, "");
    if Fresh(Bag(root, ""), key) {
      NoProperty(root, key, "");
    }
  }

  // ----- Flattening without collisions -----

  predicate DistinctKeys(out: seq<Entry>) { forall i, j :: 0 <= i < j < |out| ==> out[i].0 != out[j].0 }

  function Pairs(ps: seq<Put>): (out: seq<Entry>)
    ensures |out| == |ps| && forall i :: 0 <= i < |ps| ==> out[i] == (ps[i].key, ps[i].value)
  {
    seq(|ps|, i requires 0 <= i < |ps| => (ps[i].key, ps[i].value))
  }

  lemma {:induction false} SetNew(out: seq<Entry>, key: string, value: Json)
    requires !HasKey(out, key)
    ensures MapSet(out, key, value) == out + [(key, value)]
  {
    if out != [] {
      assert out[0].0 != key;
      forall i | 0 <= i < |out| - 1
        ensures out[1..][i].0 != key
      {
        assert out[i + 1].0 != key;
      }
      SetNew(out[1..], key, value);
    }
  }

  lemma {:induction false} PutDistinct(f: Flat, ps: seq<Put>)
    requires DistinctKeys(f.out + Pairs(ps))
    ensures PutAll(f, ps).out == f.out + Pairs(ps)
    decreases |ps|
  {
    if ps != [] {
      var all := f.out + Pairs(ps);
      forall i | 0 <= i < |f.out|
        ensures f.out[i].0 != ps[0].key
      {
        assert all[i].0 != all[|f.out|].0;
      }
      SetNew(f.out, ps[0].key, ps[0].value);
      assert PutFn(f, ps[0]).out + Pairs(ps[1..]) == all;
      PutDistinct(PutFn(f, ps[0]), ps[1..]);
    }
  }

  lemma PairsJoin(a: seq<Put>, b: seq<Put>)
    ensures Pairs(a + b) == Pairs(a) + Pairs(b)
  {
  }

  lemma {:induction false} LeavesAreBag(fs: Fields, prefix: string)
    ensures multiset(Pairs(Leaves(fs, prefix))) == Bag(fs, prefix)
    decreases fs
  {
    if fs.Field? {
      LeavesAtArePart(fs.key, fs.value, prefix);
      LeavesAreBag(fs.rest, prefix);
      PairsJoin(LeavesAt(fs.key, fs.value, prefix), Leaves(fs.rest, prefix));
    }
  }

  lemma {:induction false} LeavesAtArePart(key: string, value: Json, prefix: string)
    ensures multiset(Pairs(LeavesAt(key, value, prefix))) == Part(key, value, prefix)
    decreases value
  {
    if Walked(value) {
      LeavesAreBag(value.fields, Dotted(prefix, key));
    } else {
      assert Pairs(LeavesAt(key, value, prefix)) == [(Dotted(prefix, key), value)];
    }
  }
}
