/** Copies of a field map at work: what they leave where it stood, what they move, and the orders of a list of them. */
module FieldMapRuns {
  import opened Text
  import opened Wrappers
  import opened FieldStore
  import opened FieldMap

  // ---- Kinds of copies ----

  /** A copy without effect on any event: a blank path, or a plain field copied to itself. */
  predicate Idle(m: Mapping)
    requires m.Copy?
  {
    Blank(m.target) || Blank(m.source) || (Trim(m.target) == Trim(m.source) && '.' !in Trim(m.target))
  }

  predicate Same(a: Mapping, b: Mapping)
    requires a.Copy? && b.Copy?
  {
    Trim(a.target) == Trim(b.target) && Trim(a.source) == Trim(b.source)
  }

  /** A copy that writes a path back to itself. A dotted one still has an effect when a top-level key spells the path. */
  predicate WritesBack(m: Mapping)
    requires m.Copy?
  {
    Trim(m.target) == Trim(m.source)
  }

  predicate AllCopy(ms: seq<Mapping>) {
    forall m :: m in ms ==> m.Copy?
  }

  // ---- Copies without an effect, and with the same ----

  lemma IdleChangesNothing(f: Fields, m: Mapping)
    requires m.Copy? && Idle(m)
    ensures MapOne(f, m) == f
  {
    hide Trim, Split;
    var t := Trim(m.target);
    if t != "" && Trim(m.source) != "" && t in f {
      SinglePart(t);
      assert f[t := f[t]] == f;
    } else if t != "" && Trim(m.source) != "" {
      SinglePart(t);
    }
  }

  lemma SameEffect(f: Fields, a: Mapping, b: Mapping)
    requires a.Copy? && b.Copy? && Same(a, b)
    ensures MapOne(f, a) == MapOne(f, b)
  {
    hide Trim, Split, Find, Put;
  }

  // ---- Places in nested objects ----

  lemma {:induction false} FindUnder(f: Fields, a: seq<string>, b: seq<string>)
    requires a != [] && b != []
    ensures Find(f, a + b) ==
            var v := Find(f, a); if v.Some? && v.value.Obj? then Find(v.value.fields, b) else None
    decreases |a|
  {
    var ab := a + b;
    assert ab[0] == a[0] && ab[1..] == a[1..] + b;
    if |a| > 1 {
      if a[0] in f && f[a[0]].Obj? { FindUnder(f[a[0]].fields, a[1..], b); }
    } else {
      assert ab[1..] == b;
    }
  }

  /** What was read at `s` and everything below it stands at `p` once written there. */
  lemma CopyMoves(f: Fields, s: seq<string>, p: seq<string>, b: seq<string>)
    requires s != [] && p != [] && Find(f, s).Some?
    ensures Find(Put(f, p, Find(f, s).value), p + b) == Find(f, s + b)
  {
    hide Find, Put;
    var v := Find(f, s).value;
    FindPut(f, p, v);
    if b == [] {
      assert p + b == p && s + b == s;
    } else {
      FindUnder(Put(f, p, v), p, b);
      FindUnder(f, s, b);
    }
  }

  lemma {:induction false} PutMakesObjects(f: Fields, a: seq<string>, b: seq<string>, v: Value)
    requires a != [] && b != []
    ensures var w := Find(Put(f, a + b, v), a);
            w.Some? && w.value.Obj?
    decreases |a|
  {
    var ab := a + b;
    assert ab[0] == a[0] && ab[1..] == a[1..] + b;
    if |a| > 1 { PutMakesObjects(Child(f, a[0]), a[1..], b, v); }
  }

  lemma DivergeBelow(a: seq<string>, b: seq<string>, c: seq<string>)
    requires Diverge(a, b)
    ensures Diverge(a, b + c) && Diverge(a + c, b) && Diverge(b, a)
  {
    var i :| 0 <= i < |a| && i < |b| && a[i] != b[i];
    assert a[i] != (b + c)[i] && (a + c)[i] != b[i] && b[i] != a[i];
  }

  /** Different places stay apart with the same end below them, if it has a name that occurs in neither. */
  lemma FreshDiverge(s: seq<string>, p: seq<string>, r: seq<string>, c: string)
    requires s != p && c !in s + r && c !in p + r
    ensures Diverge(s + r + [c], p + r + [c])
  {
    var x, y := s + r + [c], p + r + [c];
    if |s| == |p| {
      var i :| 0 <= i < |s| && s[i] != p[i];
      assert x[i] != y[i];
    } else {
      var i := if |s| < |p| then |s| + |r| else |p| + |r|;
      if |s| < |p| { assert x[i] == c && y[i] == (p + r)[i]; } else { assert y[i] == c && x[i] == (s + r)[i]; }
      assert x[i] != y[i];
    }
  }

  lemma {:induction false} Fresh(parts: seq<string>) returns (c: string)
    ensures forall p :: p in parts ==> |p| < |c|
  {
    if parts == [] {
      c := "";
    } else {
      c := Fresh(parts[1..]);
      c := c + parts[0] + "x";
    }
  }

  lemma {:induction false} JoinSplit(s: string)
    ensures Join(Split(s, '.'), ".") == s
    decreases |s|
  {
    var i := IndexOf(s, '.');
    if i == |s| {
    } else {
      JoinSplit(s[i + 1..]);
      assert s == s[..i] + "." + s[i + 1..];
      assert Split(s, '.')[1..] == Split(s[i + 1..], '.');
    }
  }

  lemma PartsTell(p: string, q: string)
    ensures Parts(p) == Parts(q) ==> Trim(p) == Trim(q)
  {
    hide Trim, Split, Join;
    JoinSplit(Trim(p));
    JoinSplit(Trim(q));
  }

  // ---- Runs of copies ----

  lemma {:induction false} MapConcat(f: Fields, s: seq<Mapping>, t: seq<Mapping>)
    ensures MapFields(f, s + t) == MapFields(MapFields(f, s), t)
    decreases |s|
  {
    hide MapOne;
    if s == [] {
      assert s + t == t;
    } else {
      assert (s + t)[1..] == s[1..] + t;
      MapConcat(MapOne(f, s[0]), s[1..], t);
    }
  }

  /** A copy that cannot change what stands at a place. */
  ghost predicate Leaves(m: Mapping, w: seq<string>) {
    m.Copy? && (Idle(m) || Diverge(Parts(m.target), w))
  }

  lemma StepLeaves(f: Fields, m: Mapping, w: seq<string>)
    requires w != [] && Leaves(m, w)
    ensures Find(MapOne(f, m), w) == Find(f, w)
  {
    hide Trim, Split, Find, Put, Get;
    if Idle(m) {
      IdleChangesNothing(f, m);
    } else {
      var v := Get(f, m.source);
      if v.Some? { FindElsewhere(f, Parts(m.target), v.value, w); }
    }
  }

  lemma {:induction false} RunLeaves(f: Fields, ms: seq<Mapping>, w: seq<string>)
    requires w != [] && forall m :: m in ms ==> Leaves(m, w)
    ensures Find(MapFields(f, ms), w) == Find(f, w)
    decreases |ms|
  {
    hide MapOne, Find, Leaves;
    if ms != [] {
      StepLeaves(f, ms[0], w);
      RunLeaves(MapOne(f, ms[0]), ms[1..], w);
    }
  }

  lemma StepKeepsDotted(f: Fields, m: Mapping, key: string)
    requires m.Copy? && '.' in key
    ensures (key in MapOne(f, m) <==> key in f) && (key in f ==> MapOne(f, m)[key] == f[key])
  {
    hide Get, Set;
    var v := Get(f, m.source);
    if v.Some? { SetKeepsDottedKeys(f, m.target, v.value, key); }
  }

  // ---- Orders ----

  /** Every order of the copies gives the same fields, for every event. */
  ghost predicate OrderIrrelevant(ms: seq<Mapping>) {
    forall f, s, t :: multiset(s) == multiset(ms) && multiset(t) == multiset(ms) ==> MapFields(f, s) == MapFields(f, t)
  }

  /** The copies that are of a kind, or those that are not. */
  function Those(ms: seq<Mapping>, kind: Mapping -> bool, of: bool): (r: seq<Mapping>)
    ensures forall m :: m in r <==> m in ms && kind(m) == of
  {
    if ms == [] then [] else (if kind(ms[0]) == of then [ms[0]] else []) + Those(ms[1..], kind, of)
  }

  lemma {:induction false} TwoKinds(ms: seq<Mapping>, kind: Mapping -> bool)
    ensures multiset(ms) == multiset(Those(ms, kind, true)) + multiset(Those(ms, kind, false))
  {
    if ms != [] {
      TwoKinds(ms[1..], kind);
      assert ms == [ms[0]] + ms[1..];
    }
  }

  function Without(ms: seq<Mapping>, m: Mapping): (r: seq<Mapping>)
    requires m in ms
    ensures multiset(ms) == multiset(r) + multiset{m}
    ensures forall x :: x in r ==> x in ms
    ensures forall x :: x in ms && x != m ==> x in r
  {
    assert ms == [ms[0]] + ms[1..];
    if ms[0] == m then ms[1..] else [ms[0]] + Without(ms[1..], m)
  }

  lemma Reorder(ms: seq<Mapping>, f: Fields, s: seq<Mapping>, t: seq<Mapping>)
    requires multiset(s) == multiset(ms) && multiset(t) == multiset(ms) && MapFields(f, s) != MapFields(f, t)
    ensures !OrderIrrelevant(ms)
  {
  }
}
