module EcsExact {
  // Which documents come back from nesting and flattening: where the fields of a
  // document go, when each finds its place, and that otherwise something is lost
  // for good (fewer fields, or longer keys).

  import opened Prelude
  import opened Lists
  import opened Ecs
  import opened EcsFacts

  // ----- Where a path leads in an object -----

  /** Nowhere, to a scalar before its end, to a leaf, or to an object with fields. */
  datatype Found = Missing | Stuck | At(leaf: Json) | Through

  function Find(node: Fields, parts: seq<string>): Found
    requires |parts| >= 1
    decreases |parts|
  {
    var next := Get(node, parts[0]);
    if next.None? then Missing else
    if |parts| == 1 then if Walked(next.value) then Through else At(next.value) else
    if next.value.Scalar? then Stuck else Find(next.value.fields, parts[1..])
  }

  /** `p` is a proper beginning of `q`. */
  predicate Starts(p: seq<string>, q: seq<string>) { |p| < |q| && p == q[..|p|] }

  lemma {:induction false} GetAssign(fs: Fields, key: string, value: Json, other: string)
    ensures Get(Assign(fs, key, value), other) == if other == key then Some(value) else Get(fs, other)
  {
    if fs.Field? && fs.key != key {
      GetAssign(fs.rest, key, value, other);
    }
  }

  /** A key that is not plain is on no path. */
  lemma FindBesideLiteral(node: Fields, key: string, value: Json, q: seq<string>)
    requires !Plain(key) && |q| >= 1 && AllPlain(q)
    ensures Find(Assign(node, key, value), q) == Find(node, q)
  {
    GetAssign(node, key, value, q[0]);
  }

  /** What path `q` finds before and after `value` went to the missing path `parts`. */
  predicate FoundAfter(before: Found, after: Found, parts: seq<string>, value: Json, q: seq<string>) {
    if q == parts then after == At(value) else
    if Starts(q, parts) then after == Through else
    if Starts(parts, q) then after == (if value.Scalar? then Stuck else Missing) else
    after == before
  }

  lemma TailStarts(p: seq<string>, q: seq<string>)
    requires |p| >= 1 && |q| >= 1 && p[0] == q[0]
    ensures p == q <==> p[1..] == q[1..]
    ensures Starts(p, q) <==> Starts(p[1..], q[1..])
  {
    assert p == [p[0]] + p[1..] && q == [q[0]] + q[1..];
    if |p| < |q| {
      assert q[..|p|] == [q[0]] + q[1..][..|p| - 1];
    }
  }

  lemma HeadStarts(p: seq<string>, q: seq<string>)
    requires |p| >= 1 && |q| >= 1 && p[0] != q[0]
    ensures p != q && !Starts(p, q) && !Starts(q, p)
  {
  }

  lemma {:induction false} PlacedIsField(node: Fields, parts: seq<string>, value: Json)
    requires |parts| >= 1 && Place(node, parts, value).Some?
    ensures Place(node, parts, value).value.Field?
  {
  }

  lemma {:induction false} PlaceMissing(node: Fields, parts: seq<string>, value: Json, q: seq<string>)
    requires |parts| >= 1 && |q| >= 1 && AllPlain(parts) && AllPlain(q) && Leaf(value)
    requires Find(node, parts) == Missing && !EmptyOnPath(node, parts)
    ensures Place(node, parts, value).Some?
    ensures FoundAfter(Find(node, q), Find(Place(node, parts, value).value, q), parts, value, q)
    decreases |parts|
  {
    if q[0] == parts[0] {
      TailStarts(q, parts);
      TailStarts(parts, q);
    } else {
      HeadStarts(q, parts);
    }
    if |parts| == 1 {
      GetAssign(node, parts[0], value, q[0]);
    } else {
      var inner := Inner(node, parts[0]);
      PlaceMissing(inner, parts[1..], value, if |q| > 1 then q[1..] else parts[1..]);
      PlacedIsField(inner, parts[1..], value);
      GetAssign(node, parts[0], Obj(Place(inner, parts[1..], value).value), q[0]);
    }
  }

  lemma {:induction false} PlaceStuck(node: Fields, parts: seq<string>, value: Json, q: seq<string>)
    requires |parts| >= 1 && |q| >= 1 && AllPlain(parts) && AllPlain(q)
    requires Find(node, parts) == Stuck
    ensures Place(node, parts, value).Some?
    ensures Find(Place(node, parts, value).value, q) == Find(node, q)
    decreases |parts|
  {
    var next := Get(node, parts[0]).value;
    if next.Scalar? {
      JoinHasDot(parts);
      FindBesideLiteral(node, Join(parts), value, q);
    } else {
      PlaceStuck(next.fields, parts[1..], value, if |q| > 1 then q[1..] else parts[1..]);
      PlacedIsField(next.fields, parts[1..], value);
      GetAssign(node, parts[0], Obj(Place(next.fields, parts[1..], value).value), q[0]);
    }
  }

  lemma {:induction false} PlaceThrough(node: Fields, parts: seq<string>, value: Json)
    requires |parts| >= 1 && Find(node, parts) == Through
    ensures Place(node, parts, value).None?
    decreases |parts|
  {
    if |parts| > 1 {
      PlaceThrough(Get(node, parts[0]).value.fields, parts[1..], value);
    }
  }

  // ----- Keys on the way to other keys -----

  /** The first character of a key, and the parts of the rest. */
  function Attach(c: char, parts: seq<string>): seq<string>
    requires |parts| >= 1
  {
    if c == '.' then [""] + parts else [[c] + parts[0]] + parts[1..]
  }

  lemma AttachFirst(c: char, a: seq<string>, b: seq<string>)
    requires |a| >= 1
    ensures Attach(c, a + b) == Attach(c, a) + b
  {
    assert (a + b)[0] == a[0] && (a + b)[1..] == a[1..] + b;
  }

  lemma SplitAttaches(c: char, key: string)
    ensures Split([c] + key) == Attach(c, Split(key))
  {
    assert ([c] + key)[1..] == key;
  }

  lemma {:induction false} SplitCat(a: string, c: string)
    ensures Split(a + ("." + c)) == Split(a) + Split(c)
  {
    if a == "" {
      SplitAttaches('.', c);
      assert a + ("." + c) == ['.'] + c;
    } else {
      SplitCat(a[1..], c);
      SplitAttaches(a[0], a[1..]);
      SplitAttaches(a[0], a[1..] + ("." + c));
      AttachFirst(a[0], Split(a[1..]), Split(c));
      assert a == [a[0]] + a[1..] && a + ("." + c) == [a[0]] + (a[1..] + ("." + c));
    }
  }

  lemma {:induction false} JoinCat(a: seq<string>, b: seq<string>)
    requires |a| >= 1 && |b| >= 1
    ensures Join(a + b) == Join(a) + ("." + Join(b))
  {
    if |a| > 1 {
      JoinCat(a[1..], b);
      assert (a + b)[1..] == a[1..] + b;
      var x, y := a[0], Join(a[1..]);
      assert (x + ("." + y)) + ("." + Join(b)) == x + ("." + (y + ("." + Join(b))));
    } else {
      assert (a + b)[1..] == b;
    }
  }

  /** `longer` has only non-empty parts and goes on after `key`. */
  predicate GoesThrough(longer: string, key: string) { Regular(longer) && key + "." <= longer }

  lemma ThroughKeys(longer: string, key: string)
    requires GoesThrough(longer, key)
    ensures Regular(key) && Starts(Split(key), Split(longer))
  {
    var rest := longer[|key| + 1..];
    assert longer == key + ("." + rest);
    SplitCat(key, rest);
    forall part | part in Split(key)
      ensures part in Split(longer)
    {
    }
    assert Split(longer)[..|Split(key)|] == Split(key);
  }

  lemma KeysThrough(longer: string, key: string)
    requires Regular(longer) && Starts(Split(key), Split(longer))
    ensures GoesThrough(longer, key)
  {
    var p, q := Split(key), Split(longer);
    var rest := q[|p|..];
    assert q == p + rest;
    JoinCat(p, rest);
    JoinSplit(key);
    JoinSplit(longer);
    assert longer == (key + ".") + Join(rest);
  }

  // ----- Documents -----

  /** Nothing went through the field's key before it. */
  predicate OwnSlot(doc: seq<Entry>, i: nat)
    requires i < |doc|
  {
    forall k :: 0 <= k < i ==> !GoesThrough(doc[k].0, doc[i].0)
  }

  /** A scalar in its own slot stands before the end of `key`. */
  predicate Blocked(doc: seq<Entry>, key: string) {
    exists i :: 0 <= i < |doc| && doc[i].1.Scalar? && doc[i].0 + "." <= key && OwnSlot(doc, i)
  }

  /** An empty object in its own slot stands before the end of `key`. */
  predicate EmptyAbove(doc: seq<Entry>, key: string) {
    exists i :: 0 <= i < |doc| && doc[i].1 == Obj(Nil) && doc[i].0 + "." <= key && OwnSlot(doc, i)
  }

  predicate KeyFree(doc: seq<Entry>, key: string) { forall i :: 0 <= i < |doc| ==> doc[i].0 != key }

  /** An earlier key goes through this key, which has no dots. */
  predicate SlotGone(doc: seq<Entry>, key: string) {
    Plain(key) && exists i :: 0 <= i < |doc| && GoesThrough(doc[i].0, key)
  }

  /**
   * A field that finds its place after the fields of `doc`: a leaf under a new
   * key; a key without dots comes before the keys through it, and no empty
   * object is on the way, unless a scalar stops the way before.
   */
  predicate Fits(doc: seq<Entry>, e: Entry) {
    && Leaf(e.1) && KeyFree(doc, e.0) && !SlotGone(doc, e.0)
    && (Regular(e.0) && EmptyAbove(doc, e.0) ==> Blocked(doc, e.0))
  }

  predicate Separable(doc: seq<Entry>) { forall n :: 0 <= n < |doc| ==> Fits(doc[..n], doc[n]) }

  lemma SeparableStep(doc: seq<Entry>)
    requires doc != []
    ensures Separable(doc) <==> Separable(doc[..|doc| - 1]) && Fits(doc[..|doc| - 1], doc[|doc| - 1])
  {
    var m := |doc| - 1;
    forall n | 0 <= n < m
      ensures doc[..m][..n] == doc[..n] && doc[..m][n] == doc[n]
    {
    }
    if Separable(doc[..m]) && Fits(doc[..m], doc[m]) {
      forall n | 0 <= n < |doc|
        ensures Fits(doc[..n], doc[n])
      {
        if n < m {
          assert Fits(doc[..m][..n], doc[..m][n]);
        }
      }
    }
    if Separable(doc) {
      forall n | 0 <= n < m
        ensures Fits(doc[..m][..n], doc[..m][n])
      {
        assert Fits(doc[..n], doc[n]);
      }
    }
  }

  // ----- Where the fields of a document are -----

  ghost predicate LeavesLaid(root: Fields, doc: seq<Entry>) {
    forall key :: Regular(key) && Find(root, Split(key)).At? ==>
      exists i :: 0 <= i < |doc| && doc[i] == (key, Find(root, Split(key)).leaf) && OwnSlot(doc, i)
  }

  ghost predicate ObjectsLaid(root: Fields, doc: seq<Entry>) {
    forall key :: Regular(key) && Find(root, Split(key)) == Through ==>
      exists i :: 0 <= i < |doc| && GoesThrough(doc[i].0, key)
  }

  /** A field is where its key leads; in its own slot, unless a scalar stops the way. */
  predicate FieldLaid(root: Fields, doc: seq<Entry>, i: nat)
    requires i < |doc|
  {
    Regular(doc[i].0) ==>
      var found := Find(root, Split(doc[i].0));
      found != Missing && (OwnSlot(doc, i) ==> found == Stuck || found == At(doc[i].1))
  }

  ghost predicate Laid(root: Fields, doc: seq<Entry>) {
    && LeavesLaid(root, doc) && ObjectsLaid(root, doc)
    && (forall i :: 0 <= i < |doc| ==> FieldLaid(root, doc, i))
  }

  lemma {:induction false} EmptyFound(node: Fields, parts: seq<string>) returns (m: nat)
    requires |parts| >= 1 && EmptyOnPath(node, parts)
    ensures 1 <= m < |parts| && Find(node, parts[..m]) == At(Obj(Nil))
    decreases |parts|
  {
    var inner := Get(node, parts[0]).value.fields;
    m := 1;
    if inner.Field? {
      var k := EmptyFound(inner, parts[1..]);
      m := k + 1;
      assert parts[..m][1..] == parts[1..][..k];
    }
  }

  lemma {:induction false} FoundEmpty(node: Fields, parts: seq<string>, p: seq<string>)
    requires |p| >= 1 && Starts(p, parts) && Find(node, p) == At(Obj(Nil))
    ensures EmptyOnPath(node, parts)
    decreases |parts|
  {
    if |p| > 1 {
      TailStarts(p, parts);
      FoundEmpty(Get(node, parts[0]).value.fields, parts[1..], p[1..]);
    }
  }

  /** No scalar is on a path that meets an empty object. */
  lemma {:induction false} NoScalarBefore(node: Fields, parts: seq<string>, p: seq<string>)
    requires |p| >= 1 && Starts(p, parts) && EmptyOnPath(node, parts)
    ensures Find(node, p) != Stuck && !(Find(node, p).At? && Find(node, p).leaf.Scalar?)
    decreases |parts|
  {
    var inner := Get(node, parts[0]).value.fields;
    if |p| > 1 && inner.Field? {
      TailStarts(p, parts);
      NoScalarBefore(inner, parts[1..], p[1..]);
    }
  }

  lemma {:induction false} StuckAt(node: Fields, parts: seq<string>) returns (m: nat)
    requires |parts| >= 1 && Find(node, parts) == Stuck
    ensures 1 <= m < |parts| && Find(node, parts[..m]).At? && Find(node, parts[..m]).leaf.Scalar?
    decreases |parts|
  {
    var next := Get(node, parts[0]).value;
    m := 1;
    if next.Obj? {
      var k := StuckAt(next.fields, parts[1..]);
      m := k + 1;
      assert parts[..m][1..] == parts[1..][..k];
    }
  }

  lemma RegularPlain(key: string)
    requires Regular(key)
    ensures AllPlain(Split(key))
  {
    RegularParts(key);
  }

  /** The key of a beginning of a path. */
  lemma KeyOfStart(key: string, m: nat) returns (start: string)
    requires Regular(key) && 1 <= m < |Split(key)|
    ensures Regular(start) && Split(start) == Split(key)[..m] && GoesThrough(key, start)
  {
    RegularPlain(key);
    var p := Split(key)[..m];
    start := Join(p);
    SplitJoin(p);
    KeysThrough(key, start);
  }

  // ----- The conditions on the object are those on the document -----

  lemma SlotTakenIs(root: Fields, doc: seq<Entry>, key: string)
    requires Laid(root, doc) && KeyFree(doc, key)
    ensures SlotTaken(root, key) <==> SlotGone(doc, key)
  {
    if Plain(key) {
      RegularParts(key);
      assert Split(key) == [key];
      if SlotTaken(root, key) {
        assert Find(root, Split(key)) == Through;
      }
      if SlotGone(doc, key) {
        var i :| 0 <= i < |doc| && GoesThrough(doc[i].0, key);
        ThroughKeys(doc[i].0, key);
        assert FieldLaid(root, doc, i);
        assert Split(doc[i].0)[0] == key;
        assert Get(root, key).Some?;
      }
    }
  }

  lemma EmptyBeforeIs(root: Fields, doc: seq<Entry>, key: string)
    requires Laid(root, doc)
    ensures EmptyBefore(root, key) <==> Regular(key) && EmptyAbove(doc, key) && !Blocked(doc, key)
  {
    if Regular(key) {
      if EmptyBefore(root, key) {
        EmptyIsAbove(root, doc, key);
        EmptyIsNotBlocked(root, doc, key);
      }
      if EmptyAbove(doc, key) && !Blocked(doc, key) {
        AboveIsEmpty(root, doc, key);
      }
    }
  }

  lemma EmptyIsAbove(root: Fields, doc: seq<Entry>, key: string)
    requires Laid(root, doc) && EmptyBefore(root, key)
    ensures EmptyAbove(doc, key)
  {
    var m := EmptyFound(root, Split(key));
    var start := KeyOfStart(key, m);
    assert Find(root, Split(start)) == At(Obj(Nil));
  }

  lemma EmptyIsNotBlocked(root: Fields, doc: seq<Entry>, key: string)
    requires Laid(root, doc) && EmptyBefore(root, key)
    ensures !Blocked(doc, key)
  {
    forall i | 0 <= i < |doc| && doc[i].1.Scalar? && doc[i].0 + "." <= key && OwnSlot(doc, i)
      ensures false
    {
      ThroughKeys(key, doc[i].0);
      assert FieldLaid(root, doc, i);
      NoScalarBefore(root, Split(key), Split(doc[i].0));
    }
  }

  lemma AboveIsEmpty(root: Fields, doc: seq<Entry>, key: string)
    requires Laid(root, doc) && Regular(key) && EmptyAbove(doc, key) && !Blocked(doc, key)
    ensures EmptyBefore(root, key)
  {
    var i :| 0 <= i < |doc| && doc[i].1 == Obj(Nil) && doc[i].0 + "." <= key && OwnSlot(doc, i);
    var above := doc[i].0;
    ThroughKeys(key, above);
    assert FieldLaid(root, doc, i);
    if Find(root, Split(above)) == Stuck {
      StuckIsBlocked(root, doc, key, above);
    }
    FoundEmpty(root, Split(key), Split(above));
  }

  lemma StuckIsBlocked(root: Fields, doc: seq<Entry>, key: string, above: string)
    requires Laid(root, doc) && Regular(above) && above + "." <= key && Find(root, Split(above)) == Stuck
    ensures Blocked(doc, key)
  {
    var m := StuckAt(root, Split(above));
    var start := KeyOfStart(above, m);
    var j :| 0 <= j < |doc| && doc[j] == (start, Find(root, Split(start)).leaf) && OwnSlot(doc, j);
    assert start + "." <= above <= key;
  }

  // ----- A field that finds its place -----

  /** What the paths find after a field went to its place. */
  lemma InsertFinds(root: Fields, key: string, value: Json, other: string)
    requires Leaf(value) && Regular(other) && !SlotTaken(root, key) && !EmptyBefore(root, key)
    requires Regular(key) ==> !Find(root, Split(key)).At?
    ensures var before, after := Find(root, Split(other)), Find(Insert(root, key, value), Split(other));
            if Regular(key) && Find(root, Split(key)) == Missing then FoundAfter(before, after, Split(key), value, Split(other))
            else after == before
  {
    RegularPlain(other);
    RegularParts(key);
    if !Regular(key) {
      FindBesideLiteral(root, key, value, Split(other));
    } else if Find(root, Split(key)) == Missing {
      PlaceMissing(root, Split(key), value, Split(other));
    } else if Find(root, Split(key)) == Stuck {
      PlaceStuck(root, Split(key), value, Split(other));
    } else {
      PlaceThrough(root, Split(key), value);
      if |Split(key)| > 1 {
        FindBesideLiteral(root, key, value, Split(other));
      }
    }
  }

  lemma OwnSlotStays(doc: seq<Entry>, e: Entry, i: nat)
    requires i < |doc|
    ensures OwnSlot(doc + [e], i) <==> OwnSlot(doc, i)
  {
    assert forall k :: 0 <= k <= i ==> (doc + [e])[k] == doc[k];
  }

  /** The key of a missing path is in no field's way, so its field gets its own slot. */
  lemma MissingIsOwn(root: Fields, doc: seq<Entry>, e: Entry)
    requires Laid(root, doc) && Regular(e.0) && Find(root, Split(e.0)) == Missing
    ensures OwnSlot(doc + [e], |doc|)
  {
    forall k | 0 <= k < |doc|
      ensures !GoesThrough(doc[k].0, e.0)
    {
      if GoesThrough(doc[k].0, e.0) {
        ThroughKeys(doc[k].0, e.0);
        assert FieldLaid(root, doc, k);
        MissingBelow(root, Split(e.0), Split(doc[k].0));
      }
    }
  }

  lemma {:induction false} MissingBelow(node: Fields, p: seq<string>, q: seq<string>)
    requires |p| >= 1 && Starts(p, q) && Find(node, p) == Missing
    ensures Find(node, q) == Missing
    decreases |p|
  {
    if |p| > 1 && Get(node, p[0]).Some? {
      TailStarts(p, q);
      MissingBelow(Get(node, p[0]).value.fields, p[1..], q[1..]);
    }
  }

  /** What leads on to a missing path is an object, empty or not. */
  lemma {:induction false} AboveMissing(node: Fields, p: seq<string>, q: seq<string>)
    requires |p| >= 1 && Starts(p, q) && Find(node, q) == Missing && !EmptyOnPath(node, q)
    ensures Find(node, p) == Missing || Find(node, p) == Through
    decreases |p|
  {
    if |p| > 1 && Get(node, p[0]).Some? {
      TailStarts(p, q);
      AboveMissing(Get(node, p[0]).value.fields, p[1..], q[1..]);
    }
  }

  ghost predicate Room(root: Fields, doc: seq<Entry>, e: Entry) {
    Laid(root, doc) && Leaf(e.1) && KeyFree(doc, e.0) && !SlotTaken(root, e.0) && !EmptyBefore(root, e.0)
  }

  lemma KeyIsNowhere(root: Fields, doc: seq<Entry>, e: Entry)
    requires Room(root, doc, e)
    ensures Regular(e.0) ==> !Find(root, Split(e.0)).At?
  {
  }

  lemma LeavesStay(root: Fields, doc: seq<Entry>, e: Entry)
    requires Room(root, doc, e)
    ensures LeavesLaid(Insert(root, e.0, e.1), doc + [e])
  {
    KeyIsNowhere(root, doc, e);
    var after, all := Insert(root, e.0, e.1), doc + [e];
    forall key | Regular(key) && Find(after, Split(key)).At?
      ensures exists i :: 0 <= i < |all| && all[i] == (key, Find(after, Split(key)).leaf) && OwnSlot(all, i)
    {
      InsertFinds(root, e.0, e.1, key);
      if Find(root, Split(key)) == Find(after, Split(key)) {
        var i :| 0 <= i < |doc| && doc[i] == (key, Find(root, Split(key)).leaf) && OwnSlot(doc, i);
        OwnSlotStays(doc, e, i);
        assert all[i] == doc[i];
      } else {
        MissingIsOwn(root, doc, e);
        JoinSplit(key);
        JoinSplit(e.0);
        assert all[|doc|] == e;
      }
    }
  }

  lemma ObjectsStay(root: Fields, doc: seq<Entry>, e: Entry)
    requires Room(root, doc, e)
    ensures ObjectsLaid(Insert(root, e.0, e.1), doc + [e])
  {
    KeyIsNowhere(root, doc, e);
    var after, all := Insert(root, e.0, e.1), doc + [e];
    forall key | Regular(key) && Find(after, Split(key)) == Through
      ensures exists i :: 0 <= i < |all| && GoesThrough(all[i].0, key)
    {
      InsertFinds(root, e.0, e.1, key);
      if Find(root, Split(key)) == Through {
        var i :| 0 <= i < |doc| && GoesThrough(doc[i].0, key);
        assert all[i] == doc[i];
      } else {
        KeysThrough(e.0, key);
        assert all[|doc|] == e;
      }
    }
  }

  lemma FieldStays(root: Fields, doc: seq<Entry>, e: Entry, i: nat)
    requires Room(root, doc, e) && i < |doc|
    ensures FieldLaid(Insert(root, e.0, e.1), doc + [e], i)
  {
    var key := doc[i].0;
    assert (doc + [e])[i] == doc[i];
    if Regular(key) {
      KeyIsNowhere(root, doc, e);
      OwnSlotStays(doc, e, i);
      assert FieldLaid(root, doc, i);
      InsertFinds(root, e.0, e.1, key);
      JoinSplit(key);
      JoinSplit(e.0);
      if Regular(e.0) && Find(root, Split(e.0)) == Missing {
        if Starts(Split(key), Split(e.0)) {
          AboveMissing(root, Split(key), Split(e.0));
        } else if Starts(Split(e.0), Split(key)) {
          MissingBelow(root, Split(e.0), Split(key));
        }
      }
    }
  }

  lemma NewFieldLaid(root: Fields, doc: seq<Entry>, e: Entry)
    requires Room(root, doc, e)
    ensures FieldLaid(Insert(root, e.0, e.1), doc + [e], |doc|)
  {
    assert (doc + [e])[|doc|] == e;
    if Regular(e.0) {
      KeyIsNowhere(root, doc, e);
      InsertFinds(root, e.0, e.1, e.0);
      if Find(root, Split(e.0)) == Through {
        var k :| 0 <= k < |doc| && GoesThrough(doc[k].0, e.0);
        assert (doc + [e])[k] == doc[k];
      }
    }
  }

  lemma LaidStep(root: Fields, doc: seq<Entry>, e: Entry)
    requires Room(root, doc, e)
    ensures Laid(Insert(root, e.0, e.1), doc + [e])
  {
    LeavesStay(root, doc, e);
    ObjectsStay(root, doc, e);
    forall i | 0 <= i < |doc + [e]|
      ensures FieldLaid(Insert(root, e.0, e.1), doc + [e], i)
    {
      if i < |doc| {
        FieldStays(root, doc, e, i);
      } else {
        NewFieldLaid(root, doc, e);
      }
    }
  }

  // ----- Separable documents come back -----

  ghost predicate Holds(root: Fields, doc: seq<Entry>) { TreeOk(root) && Bag(root, "") == multiset(doc) }

  lemma FitsIs(root: Fields, doc: seq<Entry>, e: Entry)
    requires Holds(root, doc) && Laid(root, doc) && Leaf(e.1) && KeyFree(doc, e.0)
    ensures Fits(doc, e) <==> !SlotTaken(root, e.0) && !EmptyBefore(root, e.0)
    ensures Fresh(Bag(root, ""), e.0)
  {
    SlotTakenIs(root, doc, e.0);
    EmptyBeforeIs(root, doc, e.0);
    forall x | x in Bag(root, "")
      ensures x.0 != e.0
    {
      assert x in doc;
    }
  }

  lemma {:induction false} NestedHolds(doc: seq<Entry>)
    requires Separable(doc)
    ensures Holds(NestedFn(doc), doc) && Laid(NestedFn(doc), doc)
    decreases |doc|
  {
    if doc != [] {
      var before, e := doc[..|doc| - 1], doc[|doc| - 1];
      SeparableStep(doc);
      NestedHolds(before);
      FitsIs(NestedFn(before), before, e);
      InsertOutcome(NestedFn(before), e.0, e.1);
      LaidStep(NestedFn(before), before, e);
      assert doc == before + [e];
    }
  }

  lemma {:induction false} SeparableIsDistinct(doc: seq<Entry>)
    requires Separable(doc)
    ensures DistinctKeys(doc)
  {
    forall i, j | 0 <= i < j < |doc|
      ensures doc[i].0 != doc[j].0
    {
      assert Fits(doc[..j], doc[j]);
      assert doc[..j][i] == doc[i];
    }
  }

  lemma SeparableComesBack(doc: seq<Entry>)
    requires Separable(doc)
    ensures multiset(FlattenFn(NestedFn(doc))) == multiset(doc)
  {
    NestedHolds(doc);
    SeparableIsDistinct(doc);
    var root := NestedFn(doc);
    LeavesAreBag(root, "");
    SameBagDistinct(Pairs(Leaves(root, "")), doc, (e: Entry) => e.0);
    assert [] + Pairs(Leaves(root, "")) == Pairs(Leaves(root, ""));
    PutDistinct(Flat([], {}), Leaves(root, ""));
  }

  // ----- No other document does -----

  function KeyLength(es: seq<Entry>): nat { if es == [] then 0 else |es[0].0| + KeyLength(es[1..]) }

  lemma {:induction false} KeyLengthJoins(a: seq<Entry>, b: seq<Entry>)
    ensures KeyLength(a + b) == KeyLength(a) + KeyLength(b)
  {
    if a == [] {
      assert a + b == b;
    } else {
      KeyLengthJoins(a[1..], b);
      assert (a + b)[1..] == a[1..] + b;
    }
  }

  lemma {:induction false} KeyLengthOfBag(a: seq<Entry>, b: seq<Entry>)
    requires multiset(a) == multiset(b)
    ensures |a| == |b| && KeyLength(a) == KeyLength(b)
    decreases |a|
  {
    assert |a| == |multiset(a)| && |b| == |multiset(b)|;
    if a != [] {
      assert a[0] in multiset(b);
      var j :| 0 <= j < |b| && b[j] == a[0];
      TakeOut(a, 0);
      TakeOut(b, j);
      KeyLengthOfBag(a[..0] + a[1..], b[..j] + b[j + 1..]);
    }
  }

  lemma TakeOut(a: seq<Entry>, j: nat)
    requires j < |a|
    ensures multiset(a[..j] + a[j + 1..]) == multiset(a) - multiset{a[j]}
    ensures KeyLength(a) == |a[j].0| + KeyLength(a[..j] + a[j + 1..])
  {
    var x, y := a[..j], a[j + 1..];
    assert a == x + [a[j]] + y;
    KeyLengthJoins(x, y);
    KeyLengthJoins(x + [a[j]], y);
    KeyLengthJoins(x, [a[j]]);
  }

  /** Fields are missing, or under longer keys. */
  predicate Worse(es: seq<Entry>, doc: seq<Entry>) {
    |es| < |doc| || (|es| == |doc| && KeyLength(es) > KeyLength(doc))
  }

  function Flattened(root: Fields): seq<Entry> { Pairs(Leaves(root, "")) }

  ghost predicate LosesIn(root: Fields, doc: seq<Entry>) { TreeOk(root) && Worse(Flattened(root), doc) }

  lemma AddedLength(before: Fields, after: Fields, e: Entry)
    requires Added(before, after, "", e)
    ensures |Flattened(after)| == |Flattened(before)| + 1
    ensures KeyLength(Flattened(after)) == KeyLength(Flattened(before)) + |e.0|
  {
    LeavesAreBag(before, "");
    LeavesAreBag(after, "");
    KeyLengthOfBag(Flattened(after), Flattened(before) + [e]);
    KeyLengthJoins(Flattened(before), [e]);
  }

  lemma NotMoreLength(before: Fields, after: Fields)
    requires NotMore(before, after, "")
    ensures |Flattened(after)| <= |Flattened(before)|
  {
    LeavesAreBag(before, "");
    LeavesAreBag(after, "");
    assert |multiset(Flattened(after))| == |Flattened(after)| && |multiset(Flattened(before))| == |Flattened(before)|;
  }

  /** One more field cannot make up for a loss. */
  lemma StaysWorse(root: Fields, doc: seq<Entry>, e: Entry)
    requires LosesIn(root, doc) && Leaf(e.1)
    ensures LosesIn(Insert(root, e.0, e.1), doc + [e])
  {
    var after := Insert(root, e.0, e.1);
    InsertOutcome(root, e.0, e.1);
    KeyLengthJoins(doc, [e]);
    if Added(root, after, "", e) {
      AddedLength(root, after, e);
    } else if Added(root, after, "", (e.0 + "_", e.1)) {
      AddedLength(root, after, (e.0 + "_", e.1));
    } else {
      NotMoreLength(root, after);
    }
  }

  lemma TurnsWorse(root: Fields, doc: seq<Entry>, e: Entry)
    requires Holds(root, doc) && Leaf(e.1) && (SlotTaken(root, e.0) || EmptyBefore(root, e.0))
    ensures LosesIn(Insert(root, e.0, e.1), doc + [e])
  {
    var after := Insert(root, e.0, e.1);
    InsertOutcome(root, e.0, e.1);
    LeavesAreBag(root, "");
    KeyLengthOfBag(Flattened(root), doc);
    KeyLengthJoins(doc, [e]);
    if NotMore(root, after, "") {
      NotMoreLength(root, after);
    } else {
      AddedLength(root, after, (e.0 + "_", e.1));
    }
  }

  predicate AllLeaves(doc: seq<Entry>) { forall i :: 0 <= i < |doc| ==> Leaf(doc[i].1) }

  lemma {:induction false} OthersLose(doc: seq<Entry>)
    requires AllLeaves(doc) && DistinctKeys(doc) && !Separable(doc)
    ensures LosesIn(NestedFn(doc), doc)
    decreases |doc|
  {
    var before, e := doc[..|doc| - 1], doc[|doc| - 1];
    SeparableStep(doc);
    assert doc == before + [e];
    if Separable(before) {
      NestedHolds(before);
      assert KeyFree(before, e.0);
      FitsIs(NestedFn(before), before, e);
      TurnsWorse(NestedFn(before), before, e);
    } else {
      OthersLose(before);
      StaysWorse(NestedFn(before), before, e);
    }
  }

  lemma {:induction false} SetLength(out: seq<Entry>, key: string, value: Json)
    ensures var set' := MapSet(out, key, value);
            if HasKey(out, key) then |set'| == |out| && KeyLength(set') == KeyLength(out)
            else |set'| == |out| + 1 && KeyLength(set') == KeyLength(out) + |key|
    ensures HasKey(MapSet(out, key, value), key)
    ensures forall k :: HasKey(out, k) ==> HasKey(MapSet(out, key, value), k)
    ensures DistinctKeys(out) ==> DistinctKeys(MapSet(out, key, value))
  {
    if HasKey(out, key) {
      SetInPlace(out, key, value);
    } else {
      SetNew(out, key, value);
      KeyLengthJoins(out, [(key, value)]);
      var set' := out + [(key, value)];
      assert set'[|out|].0 == key;
      forall k | HasKey(out, k)
        ensures HasKey(set', k)
      {
        var i :| 0 <= i < |out| && out[i].0 == k;
        assert set'[i].0 == k;
      }
    }
  }

  lemma {:induction false} SetInPlace(out: seq<Entry>, key: string, value: Json)
    requires HasKey(out, key)
    ensures var set' := MapSet(out, key, value);
            && |set'| == |out| && KeyLength(set') == KeyLength(out)
            && (forall i :: 0 <= i < |out| ==> set'[i].0 == out[i].0)
            && HasKey(set', key) && (forall k :: HasKey(out, k) ==> HasKey(set', k))
  {
    if out[0].0 != key {
      var i :| 0 <= i < |out| && out[i].0 == key;
      assert out[1..][i - 1].0 == key;
      SetInPlace(out[1..], key, value);
    }
    var set' := MapSet(out, key, value);
    assert forall i :: 0 <= i < |out| ==> set'[i].0 == out[i].0;
    forall k | HasKey(out, k)
      ensures HasKey(set', k)
    {
      var i :| 0 <= i < |out| && out[i].0 == k;
      assert set'[i].0 == k;
    }
  }

  /** A field put into the map adds at most one, under a key that is no shorter. */
  lemma PutLength(f: Flat, p: Put)
    requires DistinctKeys(f.out)
    ensures var g := PutFn(f, p);
            && DistinctKeys(g.out)
            && |g.out| <= |f.out| + 1
            && (|g.out| == |f.out| + 1 ==> KeyLength(g.out) >= KeyLength(f.out) + |p.key|)
  {
    SetLength(f.out, p.key, p.value);
    SetLength(f.out, p.key + "_", p.value);
    if HasKey(f.out, p.key) {
      var moved := MapSet(f.out, p.key + "_", MapGet(f.out, p.key));
      SetLength(f.out, p.key + "_", MapGet(f.out, p.key));
      SetLength(moved, p.key, p.value);
    }
  }

  lemma {:induction false} PutAllLength(f: Flat, ps: seq<Put>)
    requires DistinctKeys(f.out)
    ensures var g := PutAll(f, ps);
            && DistinctKeys(g.out)
            && |g.out| <= |f.out| + |ps|
            && (|g.out| == |f.out| + |ps| ==> KeyLength(g.out) >= KeyLength(f.out) + KeyLength(Pairs(ps)))
    decreases |ps|
  {
    if ps != [] {
      PutLength(f, ps[0]);
      PutAllLength(PutFn(f, ps[0]), ps[1..]);
      assert Pairs(ps)[1..] == Pairs(ps[1..]);
    }
  }

  // ----- Only leaves come back -----

  lemma {:induction false} SetLeaves(out: seq<Entry>, key: string, value: Json)
    requires AllLeaves(out) && Leaf(value)
    ensures AllLeaves(MapSet(out, key, value))
  {
    if out != [] {
      SetLeaves(out[1..], key, value);
    }
  }

  lemma {:induction false} GetLeaf(out: seq<Entry>, key: string)
    requires AllLeaves(out) && HasKey(out, key)
    ensures Leaf(MapGet(out, key))
  {
    if out[0].0 != key {
      var i :| 0 <= i < |out| && out[i].0 == key;
      assert out[1..][i - 1].0 == key;
      GetLeaf(out[1..], key);
    }
  }

  lemma {:induction false} PutAllLeaves(f: Flat, ps: seq<Put>)
    requires AllLeaves(f.out) && forall i :: 0 <= i < |ps| ==> Leaf(ps[i].value)
    ensures AllLeaves(PutAll(f, ps).out)
    decreases |ps|
  {
    if ps != [] {
      var p := ps[0];
      SetLeaves(f.out, p.key, p.value);
      SetLeaves(f.out, p.key + "_", p.value);
      if HasKey(f.out, p.key) {
        GetLeaf(f.out, p.key);
        var moved := MapSet(f.out, p.key + "_", MapGet(f.out, p.key));
        SetLeaves(f.out, p.key + "_", MapGet(f.out, p.key));
        SetLeaves(moved, p.key, p.value);
      }
      PutAllLeaves(PutFn(f, p), ps[1..]);
    }
  }

  lemma {:induction false} LeavesAreLeaves(fs: Fields, prefix: string)
    ensures forall p :: p in Leaves(fs, prefix) ==> Leaf(p.value)
    decreases fs
  {
    if fs.Field? {
      LeavesAreLeaves(fs.rest, prefix);
      if Walked(fs.value) {
        LeavesAreLeaves(fs.value.fields, Dotted(prefix, fs.key));
      }
    }
  }

  /** What flattening gives: leaves, each under its own key. */
  lemma FlattenGivesLeaves(o: Fields)
    ensures AllLeaves(FlattenFn(o)) && DistinctKeys(FlattenFn(o))
    ensures |FlattenFn(o)| <= |Flattened(o)|
    ensures |FlattenFn(o)| == |Flattened(o)| ==> KeyLength(FlattenFn(o)) >= KeyLength(Flattened(o))
  {
    LeavesAreLeaves(o, "");
    PutAllLeaves(Flat([], {}), Leaves(o, ""));
    PutAllLength(Flat([], {}), Leaves(o, ""));
  }

  lemma SameFields(out: seq<Entry>, doc: seq<Entry>)
    requires multiset(out) == multiset(doc) && AllLeaves(out) && DistinctKeys(out)
    ensures AllLeaves(doc) && DistinctKeys(doc)
  {
    SameBagDistinct(doc, out, (e: Entry) => e.0);
    forall i | 0 <= i < |doc|
      ensures Leaf(doc[i].1)
    {
      assert doc[i] in multiset(out);
    }
  }

  /**
   * Nesting a document and flattening the result gives its fields, no more and
   * no less, if and only if every field finds its place.
   */
  lemma NestThenFlatten(doc: seq<Entry>)
    ensures multiset(FlattenFn(NestedFn(doc))) == multiset(doc) <==> Separable(doc)
  {
    if Separable(doc) {
      SeparableComesBack(doc);
    } else if multiset(FlattenFn(NestedFn(doc))) == multiset(doc) {
      var root := NestedFn(doc);
      FlattenGivesLeaves(root);
      SameFields(FlattenFn(root), doc);
      OthersLose(doc);
      KeyLengthOfBag(FlattenFn(root), doc);
    }
  }

  // ----- Prefix-free documents -----

  /** No key goes on where another one ends. */
  predicate PrefixFree(doc: seq<Entry>) {
    forall i, j :: 0 <= i < |doc| && 0 <= j < |doc| && i != j ==> doc[i].0 != doc[j].0 && !(doc[i].0 + "." <= doc[j].0)
  }

  /** Prefix-free documents of leaves always come back. */
  lemma PrefixFreeComesBack(doc: seq<Entry>)
    requires PrefixFree(doc) && AllLeaves(doc)
    ensures multiset(FlattenFn(NestedFn(doc))) == multiset(doc)
  {
    forall n | 0 <= n < |doc|
      ensures Fits(doc[..n], doc[n])
    {
      assert forall i :: 0 <= i < n ==> doc[..n][i] == doc[i];
    }
    NestThenFlatten(doc);
  }
}
