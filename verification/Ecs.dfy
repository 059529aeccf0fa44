module Ecs {
  // ECS documents: nested objects flattened to dotted keys, and nested again.
  //
  // An object is its own properties in the order they were added; arrays count
  // as scalars, as they do for the code.

  import opened Prelude

  datatype Json = Scalar(id: int) | Obj(fields: Fields)

  datatype Fields = Nil | Field(key: string, value: Json, rest: Fields)

  type Entry = (string, Json)

  function Get(fs: Fields, key: string): Option<Json> {
    if fs.Nil? then None else if fs.key == key then Some(fs.value) else Get(fs.rest, key)
  }

  /** Assigns a property: in place when the object has it, else at the end. */
  function Assign(fs: Fields, key: string, value: Json): Fields {
    if fs.Nil? then Field(key, value, Nil) else
    if fs.key == key then Field(key, value, fs.rest) else Field(fs.key, fs.value, Assign(fs.rest, key, value))
  }

  predicate Walked(v: Json) { v.Obj? && v.fields.Field? }

  predicate Leaf(v: Json) { !Walked(v) }

  function Dotted(prefix: string, key: string): string { if prefix == "" then key else prefix + ("." + key) }

  // ----- Flattening -----

  datatype Put = Put(key: string, value: Json, nested: bool)

  /** The leaves of an object in order, with their dotted keys. */
  function Leaves(fs: Fields, prefix: string): seq<Put>
    decreases fs
  {
    if fs.Nil? then [] else LeavesAt(fs.key, fs.value, prefix) + Leaves(fs.rest, prefix)
  }

  function LeavesAt(key: string, value: Json, prefix: string): seq<Put>
    decreases value
  {
    if Walked(value) then Leaves(value.fields, Dotted(prefix, key)) else [Put(Dotted(prefix, key), value, prefix != "")]
  }

  /** An insertion-ordered map, and which of its keys came from nesting. */
  datatype Flat = Flat(out: seq<Entry>, nested: set<string>)

  predicate HasKey(out: seq<Entry>, key: string) { exists i :: 0 <= i < |out| && out[i].0 == key }

  function MapGet(out: seq<Entry>, key: string): Json
    requires HasKey(out, key)
  {
    if out[0].0 == key then out[0].1 else MapGet(out[1..], key)
  }

  function MapSet(out: seq<Entry>, key: string, value: Json): seq<Entry> {
    if out == [] then [(key, value)] else
    if out[0].0 == key then [(key, value)] + out[1..] else [out[0]] + MapSet(out[1..], key, value)
  }

  /** A nested value wins over a literal dotted key, which moves to `<key>_`. */
  function PutFn(f: Flat, p: Put): Flat {
    if !HasKey(f.out, p.key) then
      Flat(MapSet(f.out, p.key, p.value), if p.nested then f.nested + {p.key} else f.nested)
    else if p.nested && p.key !in f.nested then
      Flat(MapSet(MapSet(f.out, p.key + "_", MapGet(f.out, p.key)), p.key, p.value), f.nested + {p.key})
    else
      Flat(MapSet(f.out, p.key + "_", p.value), f.nested)
  }

  function PutAll(f: Flat, ps: seq<Put>): Flat
    decreases |ps|
  {
    if ps == [] then f else PutAll(PutFn(f, ps[0]), ps[1..])
  }

  function FlattenFn(o: Fields): seq<Entry> { PutAll(Flat([], {}), Leaves(o, "")).out }

  lemma {:induction false} PutAllJoins(f: Flat, a: seq<Put>, b: seq<Put>)
    ensures PutAll(f, a + b) == PutAll(PutAll(f, a), b)
    decreases |a|
  {
    if a == [] {
      assert a + b == b;
    } else {
      PutAllJoins(PutFn(f, a[0]), a[1..], b);
      assert (a + b)[1..] == a[1..] + b;
    }
  }

  class Flattener {
    var out: seq<Entry>
    var nested: set<string>

    constructor ()
      ensures out == [] && nested == {}
    {
      out, nested := [], {};
    }

    ghost function State(): Flat
      reads this
    {
      Flat(out, nested)
    }

    method Add(key: string, value: Json, fromNesting: bool)
      modifies this
      ensures State() == PutFn(old(State()), Put(key, value, fromNesting))
    {
      if HasKey(out, key) {
        if fromNesting && key !in nested {
          out := MapSet(out, key + "_", MapGet(out, key));
        } else {
          out := MapSet(out, key + "_", value);
          return;
        }
      }
      out := MapSet(out, key, value);
      if fromNesting {
        nested := nested + {key};
      }
    }

    method Walk(value: Fields, prefix: string)
      modifies this
      ensures State() == PutAll(old(State()), Leaves(value, prefix))
      decreases Size(value)
    {
      ghost var start := State();
      var todo := value;
      ghost var done: seq<Put> := [];
      while todo.Field?
        invariant Size(todo) <= Size(value)
        invariant Leaves(value, prefix) == done + Leaves(todo, prefix)
        invariant State() == PutAll(start, done)
        decreases Size(todo)
      {
        var key := if prefix == "" then todo.key else prefix + ("." + todo.key);
        ghost var step := LeavesAt(todo.key, todo.value, prefix);
        PutAllJoins(start, done, step);
        ghost var f := State();
        if todo.value.Obj? && todo.value.fields.Field? {
          Walk(todo.value.fields, key);
        } else {
          Add(key, todo.value, prefix != "");
          PutOne(f, Put(key, todo.value, prefix != ""));
        }
        JoinStep(done, step, Leaves(todo.rest, prefix));
        done := done + step;
        todo := todo.rest;
      }
      assert done + [] == done;
    }
  }

  lemma {:induction false} PutOne(f: Flat, p: Put)
    ensures PutAll(f, [p]) == PutFn(f, p)
  {
    assert [p][1..] == [];
  }

  lemma JoinStep(a: seq<Put>, b: seq<Put>, c: seq<Put>)
    ensures a + (b + c) == (a + b) + c
  {
  }

  function Size(fs: Fields): nat {
    if fs.Nil? then 0 else 1 + (if fs.value.Obj? then Size(fs.value.fields) else 0) + Size(fs.rest)
  }

  method Flatten(o: Fields) returns (out: seq<Entry>)
    ensures out == FlattenFn(o)
  {
    var flattener := new Flattener();
    flattener.Walk(o, "");
    out := flattener.out;
  }

  // ----- Nesting -----

  /** The parts between the dots. */
  function Split(key: string): (parts: seq<string>)
    ensures |parts| >= 1
  {
    if key == "" then [""] else
    var parts := Split(key[1..]);
    if key[0] == '.' then [""] + parts else [[key[0]] + parts[0]] + parts[1..]
  }

  function Join(parts: seq<string>): string
    requires |parts| >= 1
  {
    if |parts| == 1 then parts[0] else parts[0] + ("." + Join(parts[1..]))
  }

  /** Walks down the parts, making objects, and sets the value; none when an object holds the last slot. */
  function Place(node: Fields, parts: seq<string>, value: Json): Option<Fields>
    requires |parts| >= 1
    decreases |parts|
  {
    var next := Get(node, parts[0]);
    if |parts| == 1 then
      if next.Some? && next.value.Obj? then None else Some(Assign(node, parts[0], value))
    else if next.Some? && next.value.Scalar? then
      // A scalar sits on the path: the rest of the key stays dotted.
      Some(Assign(node, Join(parts), value))
    else
      var child := Place(if next.None? then Nil else next.value.fields, parts[1..], value);
      if child.None? then None else Some(Assign(node, parts[0], Obj(child.value)))
  }

  predicate Plain(part: string) { part != "" && '.' !in part }

  predicate Regular(key: string) { "" !in Split(key) }

  function Insert(root: Fields, key: string, value: Json): Fields {
    var parts := Split(key);
    if "" in parts then Assign(root, key, value) else
    var placed := Place(root, parts, value);
    if placed.Some? then placed.value else Assign(root, if |parts| > 1 then key else key + "_", value)
  }

  function NestedFn(doc: seq<Entry>): Fields {
    if doc == [] then Nil else
    var (key, value) := doc[|doc| - 1];
    Insert(NestedFn(doc[..|doc| - 1]), key, value)
  }

  method EcsNested(doc: seq<Entry>) returns (root: Fields)
    ensures root == NestedFn(doc)
  {
    root := Nil;
    for i := 0 to |doc|
      invariant root == NestedFn(doc[..i])
    {
      var (key, value) := doc[i];
      var parts := Split(key);
      assert doc[..i + 1][..i] == doc[..i];
      if "" in parts {
        root := Assign(root, key, value);
        continue;
      }
      var placed := Place(root, parts, value);
      match placed
      case Some(tree) => root := tree;
      case None => root := Assign(root, if |parts| > 1 then key else key + "_", value);
    }
    assert doc[..|doc|] == doc;
  }
}
