/** The field-map stage of a parser: fields copied, constants set, integers coerced. The source takes copies and
    constants in the order of a map, which is any. */
module FieldMap {
  import opened Text
  import opened Wrappers
  import opened FieldStore
  import Sorting

  datatype Mapping = Copy(target: string, source: string) | Constant(target: string, value: Value)

  function Mapped(f: Fields, m: Mapping): Option<Value> {
    match m
    case Copy(_, source) => Get(f, source)
    case Constant(_, v) => Some(v)
  }

  function MapOne(f: Fields, m: Mapping): Fields {
    var v := Mapped(f, m);
    if v.None? then f else Set(f, m.target, v.value)
  }

  /** The mappings in some order; the source takes them in the order of a map, which is any. */
  function MapFields(f: Fields, ms: seq<Mapping>): Fields
    decreases |ms|
  {
    if ms == [] then f else MapFields(MapOne(f, ms[0]), ms[1..])
  }

  /** Neither writes where the other reads or writes. */
  ghost predicate Independent(a: Mapping, b: Mapping) {
    && Incomparable(a.target, b.target)
    && (b.Copy? ==> Incomparable(a.target, b.source)) && (a.Copy? ==> Incomparable(b.target, a.source))
  }

  function PutValue(c: Fields, a: seq<string>, v: Value): Value
    requires a != []
  {
    if |a| == 1 then v else Obj(Put(c, a[1..], v))
  }

  lemma PutIsUpdate(f: Fields, a: seq<string>, v: Value)
    requires a != []
    ensures Put(f, a, v) == f[a[0] := PutValue(Child(f, a[0]), a, v)]
  {
  }

  lemma ChildOfUpdate(f: Fields, k: string, v: Value, l: string)
    ensures Child(f[k := v], l) == if k != l then Child(f, l) else if v.Obj? then v.fields else map[]
  {
  }

  lemma {:induction false} PutCommutes(f: Fields, a: seq<string>, v: Value, b: seq<string>, w: Value)
    requires a != [] && b != [] && Diverge(a, b)
    ensures Put(Put(f, a, v), b, w) == Put(Put(f, b, w), a, v)
    decreases |a|
  {
    hide Put, Child, Diverge;
    var k, l := a[0], b[0];
    PutIsUpdate(f, a, v);
    PutIsUpdate(f, b, w);
    PutIsUpdate(Put(f, a, v), b, w);
    PutIsUpdate(Put(f, b, w), a, v);
    ChildOfUpdate(f, k, PutValue(Child(f, k), a, v), l);
    ChildOfUpdate(f, l, PutValue(Child(f, l), b, w), k);
    if k == l {
      DivergeTail(a, b);
      PutCommutes(Child(f, k), a[1..], v, b[1..], w);
    }
  }

  lemma MappedElsewhere(f: Fields, m: Mapping, path: string, v: Value)
    requires m.Copy? ==> Incomparable(path, m.source)
    ensures Mapped(Set(f, path, v), m) == Mapped(f, m)
  {
    hide Get, Set, Incomparable;
    if m.Copy? { SetLeavesOthers(f, path, v, m.source); }
  }

  lemma SetsCommute(f: Fields, p: string, v: Value, q: string, w: Value)
    requires Incomparable(p, q)
    ensures Set(Set(f, p, v), q, w) == Set(Set(f, q, w), p, v)
  {
    hide Trim, Split, Put, Diverge;
    if Trim(p) != "" && Trim(q) != "" { PutCommutes(f, Parts(p), v, Parts(q), w); }
  }

  lemma MapsCommute(f: Fields, a: Mapping, b: Mapping)
    requires Independent(a, b)
    ensures MapOne(MapOne(f, a), b) == MapOne(MapOne(f, b), a)
  {
    hide Mapped, Set, Incomparable;
    var v, w := Mapped(f, a), Mapped(f, b);
    if v.Some? { MappedElsewhere(f, b, a.target, v.value); }
    if w.Some? { MappedElsewhere(f, a, b.target, w.value); }
    if v.Some? && w.Some? { SetsCommute(f, a.target, v.value, b.target, w.value); }
  }

  /** In whichever order the two are taken, the fields end up the same. */
  ghost predicate Commute(a: Mapping, b: Mapping) {
    forall f: Fields :: MapOne(MapOne(f, a), b) == MapOne(MapOne(f, b), a)
  }

  lemma {:induction false} PullForward(f: Fields, ms: seq<Mapping>, i: nat)
    requires i < |ms| && forall k :: 0 <= k < i ==> Commute(ms[k], ms[i])
    ensures MapFields(f, ms) == MapFields(MapOne(f, ms[i]), ms[..i] + ms[i + 1..])
    decreases |ms|
  {
    hide MapOne;
    if i == 0 {
      assert ms[..0] + ms[1..] == ms[1..];
    } else {
      PullForward(MapOne(f, ms[0]), ms[1..], i - 1);
      assert Commute(ms[0], ms[i]);
      var rest := ms[..i] + ms[i + 1..];
      assert rest[1..] == ms[1..][..i - 1] + ms[1..][i..];
    }
  }

  ghost predicate AllCommute(ms: seq<Mapping>) {
    forall a, b :: a in ms && b in ms ==> Commute(a, b)
  }

  /** Mappings that commute two by two give one result, whatever the order. */
  lemma {:induction false} FieldMapOrderIrrelevant(f: Fields, s: seq<Mapping>, t: seq<Mapping>)
    requires multiset(s) == multiset(t) && AllCommute(s)
    ensures MapFields(f, s) == MapFields(f, t)
    decreases |s|
  {
    hide MapOne, Commute;
    if s == [] {
      Sorting.SameLength(s, t);
    } else {
      var i := Sorting.RemoveHead(s, t);
      forall k | 0 <= k < i ensures Commute(t[k], t[i]) {
        Sorting.SameMembers(s, t, t[k]);
      }
      PullForward(f, t, i);
      FieldMapOrderIrrelevant(MapOne(f, s[0]), s[1..], t[..i] + t[i + 1..]);
    }
  }

  /** The mappings of a stage in some order, one for each target. */
  ghost predicate Listing(ms: seq<Mapping>, mappings: map<string, string>) {
    && (forall i, j :: 0 <= i < j < |ms| ==> ms[i].target != ms[j].target)
    && (forall m :: m in ms ==> m.Copy? && m.target in mappings && mappings[m.target] == m.source)
    && (forall t :: t in mappings ==> Copy(t, mappings[t]) in ms)
  }

  /** The loop over the mappings takes them in the order the map gives them. */
  method CopyMappings(f: Fields, mappings: map<string, string>) returns (r: Fields, ghost order: seq<Mapping>)
    ensures Listing(order, mappings) && r == MapFields(f, order)
  {
    hide Get, Set, MapFields;
    r, order := f, [];
    NoMappings(f);
    var left := mappings.Keys;
    while left != {}
      invariant left <= mappings.Keys && r == MapFields(f, order)
      invariant forall i, j :: 0 <= i < j < |order| ==> order[i].target != order[j].target
      invariant forall m :: m in order ==> m.Copy? && m.target in mappings && m.target !in left && mappings[m.target] == m.source
      invariant forall t :: t in mappings && t !in left ==> Copy(t, mappings[t]) in order
      decreases |left|
    {
      var target :| target in left;
      left := left - {target};
      var value := GetField(r, mappings[target]);
      MapSnoc(f, order, Copy(target, mappings[target]));
      if value.Some? {
        r := SetField(r, target, value.value);
      }
      order := order + [Copy(target, mappings[target])];
    }
  }

  lemma NoMappings(f: Fields)
    ensures MapFields(f, []) == f
  {
  }

  lemma {:induction false} MapSnoc(f: Fields, ms: seq<Mapping>, m: Mapping)
    ensures MapFields(f, ms + [m]) == MapOne(MapFields(f, ms), m)
    decreases |ms|
  {
    hide MapOne;
    if ms == [] {
      assert [] + [m] == [m] && [m][1..] == [];
      NoMappings(MapOne(f, m));
    } else {
      assert (ms + [m])[1..] == ms[1..] + [m];
      MapSnoc(MapOne(f, ms[0]), ms[1..], m);
    }
  }

  /** Integers coerced in the order configured; a value that is no integer stops the stage. */
  function Coerce(f: Fields, names: seq<string>, sprint: Value -> string): (Fields, bool)
    decreases |names|
  {
    if names == [] then (f, true) else
    var v := Get(f, names[0]);
    if v.None? then Coerce(f, names[1..], sprint) else
    match Atoi(Trim(sprint(v.value)))
    case Err(_) => (f, false)
    case Ok(n) => Coerce(Set(f, names[0], Int(n)), names[1..], sprint)
  }

  /** The stage: mappings, then constants, then coercions. */
  function FieldMapStage(f: Fields, ms: seq<Mapping>, constants: seq<Mapping>, names: seq<string>,
                         sprint: Value -> string): (Fields, bool)
  {
    Coerce(MapFields(MapFields(f, ms), constants), names, sprint)
  }

  /** The outcome of the whole stage, and whether it fails, does not depend on the order in which its mappings
      and its constants are taken, when the entries of either list commute two by two. */
  lemma FieldMapStageOrderIrrelevant(f: Fields, ms: seq<Mapping>, ns: seq<Mapping>, cs: seq<Mapping>, ds: seq<Mapping>,
                                     names: seq<string>, sprint: Value -> string)
    requires multiset(ms) == multiset(ns) && AllCommute(ms)
    requires multiset(cs) == multiset(ds) && AllCommute(cs)
    ensures FieldMapStage(f, ms, cs, names, sprint) == FieldMapStage(f, ns, ds, names, sprint)
  {
    hide MapFields, Coerce, AllCommute;
    FieldMapOrderIrrelevant(f, ms, ns);
    FieldMapOrderIrrelevant(MapFields(f, ms), cs, ds);
  }

  lemma {:induction false} MapLeaves(f: Fields, ms: seq<Mapping>, path: string)
    requires forall m :: m in ms ==> Incomparable(m.target, path)
    ensures Get(MapFields(f, ms), path) == Get(f, path)
    decreases |ms|
  {
    hide Get, Set, Incomparable;
    if ms != [] {
      var v := Mapped(f, ms[0]);
      if v.Some? { SetLeavesOthers(f, ms[0].target, v.value, path); }
      MapLeaves(MapOne(f, ms[0]), ms[1..], path);
    }
  }

  lemma {:induction false} CoerceLeaves(f: Fields, names: seq<string>, sprint: Value -> string, path: string)
    requires forall n :: n in names ==> Incomparable(n, path)
    ensures Get(Coerce(f, names, sprint).0, path) == Get(f, path)
    decreases |names|
  {
    hide Get, Set, Incomparable, Trim, Atoi;
    if names != [] && Get(f, names[0]).Some? && Atoi(Trim(sprint(Get(f, names[0]).value))).Ok? {
      var n := Atoi(Trim(sprint(Get(f, names[0]).value))).value;
      SetLeavesOthers(f, names[0], Int(n), path);
      CoerceLeaves(Set(f, names[0], Int(n)), names[1..], sprint, path);
    } else if names != [] && Get(f, names[0]).None? {
      CoerceLeaves(f, names[1..], sprint, path);
    }
  }

  lemma {:induction false} MapKeepsDottedKeys(f: Fields, ms: seq<Mapping>, key: string)
    requires '.' in key
    ensures key in MapFields(f, ms) <==> key in f
    decreases |ms|
  {
    hide Get, Set;
    if ms != [] {
      var v := Mapped(f, ms[0]);
      if v.Some? { SetKeepsDottedKeys(f, ms[0].target, v.value, key); }
      MapKeepsDottedKeys(MapOne(f, ms[0]), ms[1..], key);
    }
  }

  lemma {:induction false} ConstantSet(f: Fields, cs: seq<Mapping>, i: nat)
    requires i < |cs| && cs[i].Constant? && !Blank(cs[i].target)
    requires forall j :: i < j < |cs| ==> Incomparable(cs[j].target, cs[i].target)
    requires var p := Trim(cs[i].target); '.' !in p || p !in f
    ensures Get(MapFields(f, cs), cs[i].target) == Some(cs[i].value)
    decreases |cs|
  {
    hide Get, Set, Incomparable, Trim;
    if i == 0 {
      GetAfterSet(f, cs[0].target, cs[0].value);
      MapLeaves(MapOne(f, cs[0]), cs[1..], cs[0].target);
    } else {
      var p, v := Trim(cs[i].target), Mapped(f, cs[0]);
      if '.' in p && v.Some? { SetKeepsDottedKeys(f, cs[0].target, v.value, p); }
      ConstantSet(MapOne(f, cs[0]), cs[1..], i - 1);
    }
  }

  /** After the stage each constant holds, whatever the mappings copied to its path before it, unless another constant
      or a coercion touches the path, or a top-level key of the event spells it. */
  lemma ConstantsWin(f: Fields, ms: seq<Mapping>, constants: seq<Mapping>, names: seq<string>, sprint: Value -> string, i: nat)
    requires i < |constants| && constants[i].Constant? && !Blank(constants[i].target)
    requires forall j :: 0 <= j < |constants| && j != i ==> Incomparable(constants[j].target, constants[i].target)
    requires forall n :: n in names ==> Incomparable(n, constants[i].target)
    requires var p := Trim(constants[i].target); '.' !in p || p !in f
    ensures Get(FieldMapStage(f, ms, constants, names, sprint).0, constants[i].target) == Some(constants[i].value)
  {
    hide Get, MapFields, Coerce, Incomparable, Trim;
    var p := Trim(constants[i].target);
    if '.' in p { MapKeepsDottedKeys(f, ms, p); }
    ConstantSet(MapFields(f, ms), constants, i);
    CoerceLeaves(MapFields(MapFields(f, ms), constants), names, sprint, constants[i].target);
  }

  /** An event on which the order of two mappings decides: one reads what the other writes. */
  lemma FieldMapOrderMatters(v: Value)
    ensures var f: Fields := map["y" := v];
            var a, b := Copy("x", "y"), Copy("z", "x");
            MapFields(f, [a, b]) != MapFields(f, [b, a])
  {
    hide Trim, Split;
    var f: Fields := map["y" := v];
    var a, b := Copy("x", "y"), Copy("z", "x");
    Simple("x");
    Simple("y");
    Simple("z");
    assert MapOne(f, b) == f && MapOne(f, a) == f["x" := v];
    assert MapOne(f["x" := v], b) == f["x" := v]["z" := v];
    hide MapOne;
    MapTwo(f, a, b);
    MapTwo(f, b, a);
    assert "z" in MapFields(f, [a, b]) && "z" !in MapFields(f, [b, a]);
  }

  lemma MapTwo(f: Fields, a: Mapping, b: Mapping)
    ensures MapFields(f, [a, b]) == MapOne(MapOne(f, a), b)
  {
    hide MapOne;
    NoMappings(f);
    assert [] + [a] == [a] && [a] + [b] == [a, b];
    MapSnoc(f, [], a);
    MapSnoc(f, [a], b);
  }

  lemma Simple(key: string)
    requires |key| == 1 && 'a' <= key[0] <= 'z'
    ensures Trim(key) == key && Split(key, '.') == [key]
  {
    TrimFixed(key);
    SinglePart(key);
  }
}
