/** The ways in which two copies of a field map make its outcome depend on the order, whatever the other copies are. */
module FieldMapClash {
  import opened Text
  import opened Wrappers
  import opened FieldStore
  import opened FieldMap
  import opened FieldMapRuns

  // ---- One copy reads where another writes ----

  predicate IsSame(m: Mapping, b: Mapping) {
    m.Copy? && b.Copy? && Same(m, b)
  }

  lemma NestedRead(f: Fields, m: Mapping)
    requires m.Copy? && !Blank(m.source) && ('.' in Trim(m.source) ==> Trim(m.source) !in f)
    ensures Get(f, m.source) == Find(f, Parts(m.source))
  {
    hide Trim, Split, Find, Get;
    FlatIsPart(f, m.source);
  }

  lemma StepCopies(f: Fields, m: Mapping, s: seq<string>, end: seq<string>)
    requires m.Copy? && !Idle(m) && s != [] && Get(f, m.source) == Find(f, s) && Find(f, s + end).Some?
    ensures Find(MapOne(f, m), Parts(m.target) + end) == Find(f, s + end)
  {
    hide Trim, Split, Find, Put, Get;
    if end == [] { assert s + end == s; } else { FindUnder(f, s, end); }
    CopyMoves(f, s, Parts(m.target), end);
  }

  /** Any number of the same copy carries what stands below its source, when it does not write there. */
  lemma {:induction false} RunCopies(f: Fields, bs: seq<Mapping>, b: Mapping, end: seq<string>, v: Value)
    requires b.Copy? && !Idle(b) && forall m :: m in bs ==> IsSame(m, b)
    requires '.' in Trim(b.source) ==> Trim(b.source) !in f
    requires Find(f, Parts(b.source) + end) == Some(v) && Diverge(Parts(b.target), Parts(b.source) + end)
    ensures Find(MapFields(f, bs), Parts(b.source) + end) == Some(v)
    ensures bs != [] ==> Find(MapFields(f, bs), Parts(b.target) + end) == Some(v)
    decreases |bs|
  {
    hide Trim, Split, Find, MapOne, Diverge, Get;
    if bs == [] {
      NoMappings(f);
    } else {
      assert bs[0] in bs && IsSame(bs[0], b);
      SameEffect(f, bs[0], b);
      NestedRead(f, b);
      StepCopies(f, b, Parts(b.source), end);
      StepLeaves(f, b, Parts(b.source) + end);
      if '.' in Trim(b.source) { StepKeepsDotted(f, b, Trim(b.source)); }
      RunCopies(MapOne(f, b), bs[1..], b, end, v);
      if bs[1..] == [] { NoMappings(MapOne(f, b)); }
    }
  }

  lemma PutKeys(f: Fields, parts: seq<string>, v: Value)
    requires parts != []
    ensures forall k :: k in Put(f, parts, v) <==> k in f || k == parts[0]
  {
  }

  lemma SharedEnd(p: seq<string>, q: seq<string>) returns (r: seq<string>, e: seq<string>)
    requires !Diverge(p, q)
    ensures p + r == q + e && (r == [] || e == [])
    ensures forall x :: x in r ==> x in q
  {
    r := if |p| <= |q| then q[|p|..] else [];
    e := if |q| <= |p| then p[|q|..] else [];
    var x, y := p + r, q + e;
    forall i | 0 <= i < |x| ensures x[i] == y[i] {
      if i < |p| && i < |q| { assert p[i] == q[i]; }
    }
  }

  /** An event that holds one value where `a` reads and another where `b` reads what `a` writes. */
  lemma TwoValues(s: seq<string>, w: seq<string>, one: Value, two: Value) returns (f: Fields)
    requires s != [] && w != [] && Diverge(s, w)
    ensures Find(f, s) == Some(one) && Find(f, w) == Some(two)
    ensures forall k :: k in f ==> k == s[0] || k == w[0]
  {
    hide Find, Put;
    var f1 := Put(map[], s, one);
    f := Put(f1, w, two);
    FindPut(map[], s, one);
    FindPut(f1, w, two);
    DivergeBelow(s, w, []);
    FindElsewhere(f1, w, two, s);
    PutKeys(map[], s, one);
    PutKeys(f1, w, two);
  }

  /** Where a copy can be made to read: the parts of its source, or the top-level key that spells it. */
  function Origin(a: Mapping): seq<string>
    requires a.Copy?
  {
    if WritesBack(a) then [Trim(a.source)] else Parts(a.source)
  }

  lemma OriginIsElsewhere(a: Mapping)
    requires a.Copy? && !Idle(a)
    ensures Origin(a) != [] && Origin(a) != Parts(a.target)
    ensures '.' !in Parts(a.target)[0]
    ensures if WritesBack(a) then '.' in Trim(a.source) else '.' !in Origin(a)[0]
  {
    hide Trim, Split;
    PartsTell(a.target, a.source);
    SinglePart(Trim(a.target));
    PartsHaveNoDot(Trim(a.target), 0);
    PartsHaveNoDot(Trim(a.source), 0);
  }

  lemma OriginIsRead(f: Fields, a: Mapping)
    requires a.Copy? && !Idle(a) && (if WritesBack(a) then Trim(a.source) in f else '.' in Trim(a.source) ==> Trim(a.source) !in f)
    ensures Get(f, a.source) == Find(f, Origin(a))
  {
    hide Trim, Split;
    if !WritesBack(a) { hide Find, Get; NestedRead(f, a); }
  }

  /** `b` reads what `a` writes; no other copy writes near `b`'s target unless it is `b` again. */
  ghost predicate Reader(ms: seq<Mapping>, a: Mapping, b: Mapping)
  {
    && AllCopy(ms) && a in ms && b in ms && !Idle(a) && !Idle(b) && !Same(a, b)
    && Incomparable(a.target, b.target) && !Incomparable(a.target, b.source)
    && !(WritesBack(a) && Trim(a.source) == Trim(b.source))
    && forall m :: m in ms ==> Idle(m) || Same(m, b) || Incomparable(m.target, b.target)
  }

  lemma ReaderOrders(ms: seq<Mapping>, a: Mapping, b: Mapping) returns (bs: seq<Mapping>, rest: seq<Mapping>)
    requires a in ms && b in ms && a.Copy? && b.Copy? && !Same(a, b)
    ensures multiset([a] + bs + rest) == multiset(ms) && multiset(bs + [a] + rest) == multiset(ms)
    ensures bs != [] && forall m :: m in bs ==> IsSame(m, b)
    ensures forall m :: m in rest ==> m in ms && !IsSame(m, b)
  {
    hide Same;
    var others := Without(ms, a);
    var kind := (m: Mapping) => IsSame(m, b);
    bs, rest := Those(others, kind, true), Those(others, kind, false);
    TwoKinds(others, kind);
    assert b in others && IsSame(b, b) by { SameAsItself(b); }
    assert b in bs;
  }

  lemma SameAsItself(m: Mapping)
    requires m.Copy?
    ensures Same(m, m)
  {
  }

  lemma OthersLeave(ms: seq<Mapping>, a: Mapping, b: Mapping, rest: seq<Mapping>, end: seq<string>)
    requires Reader(ms, a, b) && forall m :: m in rest ==> m in ms && !IsSame(m, b)
    ensures forall m :: m in rest ==> Leaves(m, Parts(b.target) + end)
  {
    hide Trim, Split, Diverge, Idle;
    forall m | m in rest ensures Leaves(m, Parts(b.target) + end) {
      if !Idle(m) { DivergeBelow(Parts(m.target), Parts(b.target), end); }
    }
  }

  lemma ReaderDisagrees(ms: seq<Mapping>, a: Mapping, b: Mapping)
    requires Reader(ms, a, b)
    ensures !OrderIrrelevant(ms)
  {
    hide Trim, Split, Find, MapOne, Get, OrderIrrelevant;
    var one, two := Str("1"), Str("2");
    var p, q, s := Parts(a.target), Parts(b.source), Origin(a);
    OriginIsElsewhere(a);
    var r, e := SharedEnd(p, q);
    var c := Fresh(s + p + q);
    assert c !in s && c !in p && c !in q by { assert forall x :: x in s || x in p || x in q ==> x in s + p + q; }
    var start, w, end := s + r + [c], p + r + [c], e + [c];
    FreshDiverge(s, p, r, c);
    var f := TwoValues(start, w, one, two);
    assert start == s + (r + [c]) && w == p + (r + [c]) && w == q + end;
    if WritesBack(a) { FindTop(f, start); }
    assert '.' in Trim(b.source) ==> Trim(b.source) !in f;
    OriginIsRead(f, a);
    StepCopies(f, a, s, r + [c]);
    var g := MapOne(f, a);
    if '.' in Trim(b.source) { StepKeepsDotted(f, a, Trim(b.source)); }
    DivergeBelow(p, Parts(b.target), end);
    DivergeBelow(Parts(b.target), p, r + [c]);
    hide Diverge;
    var bs, rest := ReaderOrders(ms, a, b);
    OthersLeave(ms, a, b, rest, end);
    var u := Parts(b.target) + end;
    RunCopies(g, bs, b, end, one);
    RunCopies(f, bs, b, end, two);
    StepLeaves(MapFields(f, bs), a, u);
    RunLeaves(MapFields(g, bs), rest, u);
    RunLeaves(MapOne(MapFields(f, bs), a), rest, u);
    ThreeRuns(f, [a], bs, rest);
    ThreeRuns(f, bs, [a], rest);
    OneRun(f, a);
    OneRun(MapFields(f, bs), a);
    Reorder(ms, f, [a] + bs + rest, bs + [a] + rest);
  }

  lemma FindTop(f: Fields, w: seq<string>)
    requires w != [] && Find(f, w).Some?
    ensures w[0] in f
  {
  }

  lemma OneRun(f: Fields, m: Mapping)
    ensures MapFields(f, [m]) == MapOne(f, m)
  {
    hide MapOne;
    assert [m][1..] == [];
    NoMappings(MapOne(f, m));
  }

  lemma ThreeRuns(f: Fields, s: seq<Mapping>, t: seq<Mapping>, u: seq<Mapping>)
    ensures MapFields(f, s + t + u) == MapFields(MapFields(MapFields(f, s), t), u)
  {
    hide MapFields;
    MapConcat(f, s + t, u);
    MapConcat(f, s, t);
  }

  // ---- One target at or above another: the outer copy reads outside the object it writes to ----

  function Key(m: Mapping): string
    requires m.Copy?
  {
    Trim(m.source)
  }

  function Root(m: Mapping): string
    requires m.Copy?
  {
    Parts(m.target)[0]
  }

  /** A copy with an effect, under one top-level key. */
  predicate Under(m: Mapping, x: string) {
    m.Copy? && !Idle(m) && Root(m) == x
  }

  lemma StepByKey(f: Fields, m: Mapping)
    requires m.Copy? && !Idle(m) && Key(m) in f
    ensures MapOne(f, m) == Put(f, Parts(m.target), f[Key(m)])
  {
    hide Trim, Split, Put;
  }

  lemma KeyStays(f: Fields, m: Mapping, k: string)
    requires m.Copy? && k in f
    ensures k in MapOne(f, m)
  {
    hide Trim, Split, Put, Get;
    var v := Get(f, m.source);
    if v.Some? && Trim(m.target) != "" { PutKeys(f, Parts(m.target), v.value); }
  }

  lemma {:induction false} KeysStay(f: Fields, ms: seq<Mapping>, k: string)
    requires AllCopy(ms) && k in f
    ensures k in MapFields(f, ms)
    decreases |ms|
  {
    hide MapOne;
    if ms != [] {
      KeyStays(f, ms[0], k);
      KeysStay(MapOne(f, ms[0]), ms[1..], k);
    }
  }

  lemma UnderLeaves(m: Mapping, x: string, w: seq<string>)
    requires w != [] && m.Copy? && (Under(m, x) <==> w[0] != x)
    ensures Leaves(m, w)
  {
    hide Trim, Split, Idle;
    if !Idle(m) { assert Parts(m.target)[0] != w[0]; }
  }

  lemma AllUnderLeave(ms: seq<Mapping>, x: string, under: bool, w: seq<string>)
    requires w != [] && AllCopy(ms) && (under <==> w[0] != x) && forall m :: m in ms ==> Under(m, x) == under
    ensures forall m :: m in ms ==> Leaves(m, w)
  {
    hide Under, Leaves;
    forall m | m in ms ensures Leaves(m, w) { UnderLeaves(m, x, w); }
  }

  /** `a` and `b`, the others under their top-level key, and the rest. */
  lemma PairOrders(ms: seq<Mapping>, a: Mapping, b: Mapping, x: string) returns (group: seq<Mapping>, rest: seq<Mapping>)
    requires AllCopy(ms) && a in ms && b in ms && a != b
    ensures multiset(group) + multiset(rest) + multiset{a, b} == multiset(ms)
    ensures AllCopy(group) && AllCopy(rest)
    ensures forall m :: m in group ==> m in ms && Under(m, x)
    ensures forall m :: m in rest ==> m in ms && !Under(m, x)
  {
    hide Under;
    var kind := (m: Mapping) => Under(m, x);
    var others := Without(Without(ms, a), b);
    group, rest := Those(others, kind, true), Those(others, kind, false);
    TwoKinds(others, kind);
  }

  lemma FindKey(f: Fields, k: string)
    ensures Find(f, [k]) == if k in f then Some(f[k]) else None
  {
  }

  lemma ObjectAtRoot(f: Fields, m: Mapping, x: string)
    requires Under(m, x) && Key(m) in f && |Parts(m.target)| > 1
    ensures x in MapOne(f, m) && MapOne(f, m)[x].Obj?
  {
    hide Trim, Split;
    StepByKey(f, m);
  }

  /** Both write, and the place of the outer target shows which came last. */
  lemma OuterAfter(f: Fields, a: Mapping, b: Mapping, x: string)
    requires Under(a, x) && Under(b, x) && Key(a) != x && Key(a) in f && Key(b) in f && f[Key(a)] == Str(Key(a))
    ensures Find(MapOne(MapOne(f, b), a), Parts(a.target)) == Some(Str(Key(a)))
  {
    hide Trim, Split, Find, Put, MapOne, Idle;
    KeyStays(f, b, Key(a));
    UnderLeaves(b, x, [Key(a)]);
    StepLeaves(f, b, [Key(a)]);
    FindKey(f, Key(a));
    FindKey(MapOne(f, b), Key(a));
    StepByKey(MapOne(f, b), a);
    FindPut(MapOne(f, b), Parts(a.target), Str(Key(a)));
  }

  lemma LongTarget(m: Mapping)
    requires m.Copy? && !Idle(m) && Key(m) == Root(m)
    ensures |Parts(m.target)| > 1
  {
    hide Trim, Split;
    SinglePart(Trim(m.target));
  }

  lemma InnerAfter(f: Fields, a: Mapping, b: Mapping, x: string)
    requires Under(a, x) && Under(b, x) && Key(a) in f && Key(b) in f && (Key(b) != x ==> f[Key(b)] == Str(Key(b)))
    requires !Diverge(Parts(a.target), Parts(b.target)) && |Parts(a.target)| <= |Parts(b.target)| && !Same(a, b)
    ensures Find(MapOne(MapOne(f, a), b), Parts(a.target)) != Some(Str(Key(a)))
  {
    hide Trim, Split, Find, Put, MapOne, Idle, Diverge;
    var p, q := Parts(a.target), Parts(b.target);
    var g := MapOne(f, a);
    KeyStays(f, a, Key(b));
    StepByKey(g, b);
    var r, e := SharedEnd(p, q);
    if |p| < |q| {
      assert e == [] && q + e == q;
      PutMakesObjects(g, p, r, g[Key(b)]);
    } else {
      assert r == [] && e == [] && p + r == p && q + e == q;
      FindPut(g, p, g[Key(b)]);
      PartsTell(a.target, b.target);
      if Key(b) != x {
        UnderLeaves(a, x, [Key(b)]);
        StepLeaves(f, a, [Key(b)]);
        FindKey(f, Key(b));
        FindKey(g, Key(b));
      } else {
        LongTarget(b);
        ObjectAtRoot(f, a, x);
      }
    }
  }

  /** What copies under `x` do to a source outside it. */
  lemma GroupKeepsKey(f: Fields, group: seq<Mapping>, x: string, k: string)
    requires AllCopy(group) && k in f && forall m :: m in group ==> Under(m, x)
    ensures var h := MapFields(f, group);
            k in h && (k != x ==> h[k] == f[k])
  {
    hide Trim, Split, Find, MapOne, Under;
    KeysStay(f, group, k);
    if k != x {
      AllUnderLeave(group, x, true, [k]);
      RunLeaves(f, group, [k]);
      FindKey(f, k);
      FindKey(MapFields(f, group), k);
    }
  }

  lemma OuterDisagrees(ms: seq<Mapping>, a: Mapping, b: Mapping, x: string)
    requires AllCopy(ms) && a in ms && b in ms && Under(a, x) && Under(b, x) && !Same(a, b) && Key(a) != x
    requires !Diverge(Parts(a.target), Parts(b.target)) && |Parts(a.target)| <= |Parts(b.target)|
    ensures !OrderIrrelevant(ms)
  {
    hide Trim, Split, Find, MapFields, MapOne, Under, Diverge, Same, OrderIrrelevant;
    SameAsItself(a);
    var group, rest := PairOrders(ms, a, b, x);
    var f: Fields := map[Key(a) := Str(Key(a)), Key(b) := Str(Key(b))];
    var h := MapFields(f, group);
    GroupKeepsKey(f, group, x, Key(a));
    GroupKeepsKey(f, group, x, Key(b));
    OuterAfter(h, a, b, x);
    InnerAfter(h, a, b, x);
    assert Parts(a.target)[0] == x by { UnderRoot(a, x); }
    AllUnderLeave(rest, x, false, Parts(a.target));
    RunLeaves(MapOne(MapOne(h, b), a), rest, Parts(a.target));
    RunLeaves(MapOne(MapOne(h, a), b), rest, Parts(a.target));
    ThreeRuns(f, group, [b, a], rest);
    ThreeRuns(f, group, [a, b], rest);
    MapTwo(h, b, a);
    MapTwo(h, a, b);
    Reorder(ms, f, group + [b, a] + rest, group + [a, b] + rest);
  }

  lemma UnderRoot(m: Mapping, x: string)
    requires Under(m, x)
    ensures Parts(m.target)[0] == x
  {
  }

  // ---- A copy that reads the object it writes to, beside one that does not ----

  /** Copies as they meet an event whose fields are plain texts, one for each source. */
  function Texts(ms: seq<Mapping>): (f: Fields)
    requires AllCopy(ms)
    ensures forall m :: m in ms ==> Key(m) in f
    ensures forall k :: k in f ==> f[k].Str?
  {
    if ms == [] then map[] else
    assert forall m :: m in ms[1..] ==> m in ms;
    Texts(ms[1..])[Key(ms[0]) := Str("")]
  }

  /** No place under `x` lies deeper than `d`. */
  ghost predicate Shallow(f: Fields, x: string, d: nat) {
    forall u :: u != [] && u[0] == x && Find(f, u).Some? ==> |u| <= d
  }

  /** Outside `x`, sources are texts. */
  ghost predicate Ready(f: Fields, x: string, m: Mapping) {
    m.Copy? && Key(m) in f && (Key(m) != x ==> f[Key(m)].Str?)
  }

  function Max(a: nat, b: nat): nat {
    if a <= b then b else a
  }

  lemma PutDepth(f: Fields, p: seq<string>, v: Value, u: seq<string>, d: nat, e: nat)
    requires p != [] && u != [] && Find(Put(f, p, v), u).Some?
    requires Find(f, u).Some? ==> |u| <= d
    requires forall b :: b != [] && v.Obj? && Find(v.fields, b).Some? ==> |b| <= e
    ensures |u| <= Max(d, |p| + e)
  {
    hide Find, Put;
    if Diverge(p, u) {
      FindElsewhere(f, p, v, u);
    } else if |u| > |p| {
      var r, t := SharedEnd(p, u);
      assert t == [] && u + t == u;
      FindPut(f, p, v);
      FindUnder(Put(f, p, v), p, r);
    }
  }

  lemma ReadyStays(f: Fields, x: string, m: Mapping, n: Mapping)
    requires Under(m, x) && Ready(f, x, m) && Ready(f, x, n)
    ensures Ready(MapOne(f, m), x, n)
  {
    hide Trim, Split, Idle;
    StepByKey(f, m);
  }

  lemma ShallowStep(f: Fields, x: string, m: Mapping, d: nat)
    requires Under(m, x) && Ready(f, x, m) && Shallow(f, x, d) && d > 0
    ensures Shallow(MapOne(f, m), x, if Key(m) == x then d + |Parts(m.target)| - 1 else Max(d, |Parts(m.target)|))
  {
    hide Trim, Split, Find, Put, MapOne, Idle;
    var p, v := Parts(m.target), f[Key(m)];
    StepByKey(f, m);
    var e := if Key(m) == x then d - 1 else 0;
    forall b | b != [] && v.Obj? && Find(v.fields, b).Some? ensures |b| <= e {
      FindUnder(f, [x], b);
      FindKey(f, x);
      assert |[x] + b| == |b| + 1;
    }
    forall u | u != [] && u[0] == x && Find(MapOne(f, m), u).Some? ensures |u| <= Max(d, |p| + e) {
      PutDepth(f, p, v, u, d, e);
    }
  }

  ghost predicate AllReady(f: Fields, x: string, ms: seq<Mapping>) {
    forall m :: m in ms ==> Ready(f, x, m)
  }

  lemma AllReadyStay(f: Fields, x: string, m: Mapping, ns: seq<Mapping>)
    requires Under(m, x) && Ready(f, x, m) && AllReady(f, x, ns)
    ensures AllReady(MapOne(f, m), x, ns)
  {
    hide Under, Ready, MapOne;
    forall n | n in ns ensures Ready(MapOne(f, m), x, n) { ReadyStays(f, x, m, n); }
  }

  predicate SelfReader(m: Mapping, x: string) {
    Under(m, x) && Key(m) == x
  }

  predicate Outsider(m: Mapping, x: string) {
    Under(m, x) && Key(m) != x
  }

  /** How much deeper copies of an object into itself make it. */
  function Growth(ms: seq<Mapping>): nat
    requires AllCopy(ms)
  {
    if ms == [] then 0 else
    assert forall m :: m in ms[1..] ==> m in ms;
    |Parts(ms[0].target)| - 1 + Growth(ms[1..])
  }

  lemma {:induction false} SelfReadersDeepen(f: Fields, x: string, ms: seq<Mapping>, ns: seq<Mapping>, d: nat)
    requires AllCopy(ms) && (forall m :: m in ms ==> SelfReader(m, x)) && AllReady(f, x, ms) && AllReady(f, x, ns)
    requires Shallow(f, x, d) && d > 0
    ensures Shallow(MapFields(f, ms), x, d + Growth(ms)) && AllReady(MapFields(f, ms), x, ns)
    decreases |ms|
  {
    hide Trim, Split, MapOne, Shallow, Under, Ready;
    if ms != [] {
      var m := ms[0];
      assert m in ms && SelfReader(m, x) && Ready(f, x, m);
      ShallowStep(f, x, m, d);
      AllReadyStay(f, x, m, ms[1..]);
      AllReadyStay(f, x, m, ns);
      SelfReadersDeepen(MapOne(f, m), x, ms[1..], ns, d + |Parts(m.target)| - 1);
    }
  }

  lemma {:induction false} OutsidersStayShallow(f: Fields, x: string, ms: seq<Mapping>, d: nat)
    requires AllCopy(ms) && (forall m :: m in ms ==> Outsider(m, x) && |Parts(m.target)| <= d) && AllReady(f, x, ms)
    requires Shallow(f, x, d) && d > 0
    ensures Shallow(MapFields(f, ms), x, d)
    decreases |ms|
  {
    hide Trim, Split, MapOne, Shallow, Under, Ready;
    if ms != [] {
      var m := ms[0];
      assert m in ms && Outsider(m, x) && Ready(f, x, m);
      ShallowStep(f, x, m, d);
      AllReadyStay(f, x, m, ms[1..]);
      OutsidersStayShallow(MapOne(f, m), x, ms[1..], d);
    }
  }

  /** Each copy of an object into itself takes a place in it one target deeper. */
  lemma {:induction false} PlaceSinks(f: Fields, x: string, ms: seq<Mapping>, u: seq<string>) returns (w: seq<string>)
    requires AllCopy(ms) && forall m :: m in ms ==> SelfReader(m, x)
    requires u != [] && u[0] == x && Find(f, u).Some?
    ensures |w| == |u| + Growth(ms) && w != [] && w[0] == x && Find(MapFields(f, ms), w).Some?
    decreases |ms|
  {
    hide Trim, Split, Find, MapOne, Idle;
    if ms == [] {
      w := u;
    } else {
      var m := ms[0];
      assert m in ms && SelfReader(m, x);
      FindTop(f, u);
      FindKey(f, x);
      var b := u[1..];
      assert [x] + b == u;
      var v := Parts(m.target) + b;
      StepByKey(f, m);
      CopyMoves(f, [x], Parts(m.target), b);
      w := PlaceSinks(MapOne(f, m), x, ms[1..], v);
    }
  }

  lemma {:induction false} Longest(ms: seq<Mapping>) returns (n: Mapping)
    requires ms != [] && AllCopy(ms)
    ensures n in ms && forall m :: m in ms ==> |Parts(m.target)| <= |Parts(n.target)|
  {
    hide Trim, Split;
    n := ms[0];
    if |ms| > 1 {
      var k := Longest(ms[1..]);
      if |Parts(k.target)| > |Parts(n.target)| { n := k; }
    }
  }

  lemma ThreeKinds(ms: seq<Mapping>, x: string) returns (ns: seq<Mapping>, selves: seq<Mapping>, rest: seq<Mapping>)
    requires AllCopy(ms)
    ensures multiset(ms) == multiset(ns) + multiset(selves) + multiset(rest)
    ensures AllCopy(ns) && AllCopy(selves) && AllCopy(rest)
    ensures forall m :: m in ns <==> m in ms && Outsider(m, x)
    ensures forall m :: m in selves <==> m in ms && SelfReader(m, x)
    ensures forall m :: m in rest ==> m in ms && !Under(m, x)
  {
    hide Under;
    var outer := (m: Mapping) => Outsider(m, x);
    var inner := (m: Mapping) => SelfReader(m, x);
    ns := Those(ms, outer, true);
    var others := Those(ms, outer, false);
    selves, rest := Those(others, inner, true), Those(others, inner, false);
    TwoKinds(ms, outer);
    TwoKinds(others, inner);
  }

  lemma TextsAreShallow(f: Fields, x: string)
    requires forall k :: k in f ==> f[k].Str?
    ensures Shallow(f, x, 1)
  {
  }

  lemma ShallowGrows(f: Fields, x: string, d: nat, e: nat)
    requires Shallow(f, x, d) && d <= e
    ensures Shallow(f, x, e)
  {
    hide Find;
  }

  lemma TextsAreReady(ms: seq<Mapping>, f: Fields, x: string, ns: seq<Mapping>)
    requires AllCopy(ms) && f == Texts(ms) && forall m :: m in ns ==> m in ms
    ensures AllReady(f, x, ns)
  {
    hide Texts;
  }

  /** With the outsiders first, the longest last among them, there is a place this deep. */
  lemma OutsidersFirst(f: Fields, x: string, ns: seq<Mapping>, n: Mapping, selves: seq<Mapping>) returns (w: seq<string>)
    requires AllCopy(ns) && AllCopy(selves) && Outsider(n, x) && Key(n) in f
    requires forall m :: m in selves ==> SelfReader(m, x)
    ensures |w| == |Parts(n.target)| + Growth(selves) && w != [] && w[0] == x
    ensures Find(MapFields(MapFields(f, ns + [n]), selves), w).Some?
  {
    hide Trim, Split, Find, Put, MapOne, Idle;
    var h := MapFields(f, ns);
    KeysStay(f, ns, Key(n));
    MapSnoc(f, ns, n);
    StepByKey(h, n);
    FindPut(h, Parts(n.target), h[Key(n)]);
    w := PlaceSinks(MapOne(h, n), x, selves, Parts(n.target));
  }

  /** With the outsiders last, there is none. */
  lemma OutsidersLast(f: Fields, x: string, ns: seq<Mapping>, selves: seq<Mapping>, d: nat, w: seq<string>)
    requires AllCopy(ns) && AllCopy(selves)
    requires forall m :: m in selves ==> SelfReader(m, x)
    requires forall m :: m in ns ==> Outsider(m, x) && |Parts(m.target)| <= d
    requires Shallow(f, x, 1) && AllReady(f, x, ns) && AllReady(f, x, selves)
    requires w != [] && w[0] == x && |w| > Max(1 + Growth(selves), d)
    ensures Find(MapFields(MapFields(f, selves), ns), w).None?
  {
    hide Trim, Split, Find, MapOne, Under, Ready;
    SelfReadersDeepen(f, x, selves, ns, 1);
    var h, e := MapFields(f, selves), Max(1 + Growth(selves), d);
    ShallowGrows(h, x, 1 + Growth(selves), e);
    OutsidersStayShallow(h, x, ns, e);
  }

  lemma GrowthIsPositive(ms: seq<Mapping>, x: string)
    requires ms != [] && AllCopy(ms) && forall m :: m in ms ==> SelfReader(m, x)
    ensures Growth(ms) > 0
  {
    hide Trim, Split, Idle;
    assert SelfReader(ms[0], x) by { assert ms[0] in ms; }
    LongTarget(ms[0]);
  }

  lemma MixedOrders(ms: seq<Mapping>, ns: seq<Mapping>, n: Mapping, selves: seq<Mapping>, rest: seq<Mapping>)
    requires n in ns && multiset(ms) == multiset(ns) + multiset(selves) + multiset(rest)
    ensures multiset((Without(ns, n) + [n]) + selves + rest) == multiset(ms)
    ensures multiset(selves + ns + rest) == multiset(ms)
  {
    hide Without;
  }

  lemma MixedDisagrees(ms: seq<Mapping>, a: Mapping, b: Mapping, x: string)
    requires AllCopy(ms) && a in ms && b in ms && SelfReader(a, x) && Outsider(b, x)
    ensures !OrderIrrelevant(ms)
  {
    hide Trim, Split, Find, MapOne, Under, Ready, OrderIrrelevant, Shallow, Texts, Growth, Without;
    var ns, selves, rest := ThreeKinds(ms, x);
    assert b in ns && a in selves;
    var n := Longest(ns);
    assert Outsider(n, x);
    if |Parts(n.target)| == 1 {
      OneAbove(n, a, x);
      OuterDisagrees(ms, n, a, x);
    } else {
      var f := Texts(ms);
      TextsAreShallow(f, x);
      TextsAreReady(ms, f, x, ns);
      TextsAreReady(ms, f, x, selves);
      GrowthIsPositive(selves, x);
      var front := Without(ns, n);
      assert AllCopy(front);
      var w := OutsidersFirst(f, x, front, n, selves);
      OutsidersLast(f, x, ns, selves, |Parts(n.target)|, w);
      AllUnderLeave(rest, x, false, w);
      RunLeaves(MapFields(MapFields(f, front + [n]), selves), rest, w);
      RunLeaves(MapFields(MapFields(f, selves), ns), rest, w);
      ThreeRuns(f, front + [n], selves, rest);
      ThreeRuns(f, selves, ns, rest);
      MixedOrders(ms, ns, n, selves, rest);
      Reorder(ms, f, (front + [n]) + selves + rest, selves + ns + rest);
    }
  }

  lemma OneAbove(n: Mapping, a: Mapping, x: string)
    requires Outsider(n, x) && SelfReader(a, x) && |Parts(n.target)| == 1
    ensures !Diverge(Parts(n.target), Parts(a.target)) && !Same(n, a)
  {
    hide Trim, Split, Idle;
  }

  // ---- Copies of one object into itself ----

  lemma FindByRoot(f: Fields, g: Fields, w: seq<string>)
    requires w != [] && w[0] in f && w[0] in g && f[w[0]] == g[w[0]]
    ensures Find(f, w) == Find(g, w)
  {
  }

  /** Such copies lose nothing: different objects stay different. */
  lemma {:induction false} SelfReadersTell(f: Fields, g: Fields, ms: seq<Mapping>, x: string)
    requires AllCopy(ms) && forall m :: m in ms ==> SelfReader(m, x)
    requires x in f && x in g && f[x] != g[x]
    ensures var r, s := MapFields(f, ms), MapFields(g, ms);
            x in r && x in s && r[x] != s[x]
    decreases |ms|
  {
    hide Trim, Split, Find, Put, MapOne, Idle;
    if ms != [] {
      var m := ms[0];
      assert m in ms && SelfReader(m, x);
      var p := Parts(m.target);
      StepByKey(f, m);
      StepByKey(g, m);
      FindPut(f, p, f[x]);
      FindPut(g, p, g[x]);
      PutKeys(f, p, f[x]);
      PutKeys(g, p, g[x]);
      if MapOne(f, m)[x] == MapOne(g, m)[x] { FindByRoot(MapOne(f, m), MapOne(g, m), p); }
      SelfReadersTell(MapOne(f, m), MapOne(g, m), ms[1..], x);
    }
  }

  /** An object copied into itself at two places, one below the other, shows the order. */
  lemma SelfPair(a: Mapping, b: Mapping, x: string) returns (f: Fields)
    requires SelfReader(a, x) && SelfReader(b, x)
    requires !Diverge(Parts(a.target), Parts(b.target)) && |Parts(a.target)| < |Parts(b.target)|
    ensures x in f
    ensures var g, h := MapOne(MapOne(f, a), b), MapOne(MapOne(f, b), a);
            x in g && x in h && g[x] != h[x]
  {
    hide Trim, Split, Find, Put, MapOne, Idle, Diverge;
    var p, q := Parts(a.target), Parts(b.target);
    var r, e := SharedEnd(p, q);
    assert e == [] && q + e == q;
    var c := Fresh(q);
    assert c !in q;
    f := map[x := Obj(map[c := Str("")])];
    LongTarget(a);
    var f1, f2 := MapOne(f, a), MapOne(f, b);
    StepByKey(f, a);
    StepByKey(f, b);
    KeyStays(f, a, x);
    KeyStays(f, b, x);
    StepByKey(f1, b);
    StepByKey(f2, a);
    KeyStays(f1, b, x);
    KeyStays(f2, a, x);
    OnlyEntry(f, x, c, r);
    FindKey(f1, x);
    FindKey(f2, x);
    CopyMoves(f1, [x], q, [c]);
    CopyMoves(f2, [x], p, r + [c]);
    assert p + (r + [c]) == q + [c] && [x] + (r + [c]) == [x] + r + [c];
    assert Diverge(p, [x] + [c]) by { assert p[1] in q by { assert q[1] == p[1]; } NamesDiffer(p, [x] + [c]); }
    FindElsewhere(f, p, f[x], [x] + [c]);
    assert Diverge(q, [x] + r + [c]) by { FreshInside(q, [x] + r, c); }
    FindElsewhere(f, q, f[x], [x] + r + [c]);
    if MapOne(f1, b)[x] == MapOne(f2, a)[x] { FindByRoot(MapOne(f1, b), MapOne(f2, a), q + [c]); }
  }

  lemma OnlyEntry(f: Fields, x: string, c: string, r: seq<string>)
    requires f == map[x := Obj(map[c := Str("")])] && r != [] && c !in r
    ensures Find(f, [x] + [c]) == Some(Str("")) && Find(f, [x] + r + [c]).None?
  {
    var g := f[x].fields;
    assert ([x] + [c])[1..] == [c] && ([x] + r + [c])[1..] == r + [c];
    assert r[0] !in g;
  }

  lemma NamesDiffer(p: seq<string>, w: seq<string>)
    requires |p| > 1 && |w| > 1 && p[1] != w[1]
    ensures Diverge(p, w)
  {
  }

  lemma FreshInside(q: seq<string>, s: seq<string>, c: string)
    requires c !in q && |s| < |q|
    ensures Diverge(q, s + [c])
  {
    assert q[|s|] != (s + [c])[|s|];
  }

  lemma SelvesDisagree(ms: seq<Mapping>, a: Mapping, b: Mapping, x: string)
    requires AllCopy(ms) && a in ms && b in ms && SelfReader(a, x) && SelfReader(b, x)
    requires forall m :: m in ms && Under(m, x) ==> SelfReader(m, x)
    requires !Diverge(Parts(a.target), Parts(b.target)) && |Parts(a.target)| < |Parts(b.target)|
    ensures !OrderIrrelevant(ms)
  {
    hide Trim, Split, Find, Put, MapOne, Under, OrderIrrelevant, Diverge;
    var group, rest := PairOrders(ms, a, b, x);
    var f := SelfPair(a, b, x);
    var g, h := MapOne(MapOne(f, a), b), MapOne(MapOne(f, b), a);
    SelfReadersTell(g, h, group, x);
    var r, s := MapFields(g, group), MapFields(h, group);
    AllUnderLeave(rest, x, false, [x]);
    RunLeaves(r, rest, [x]);
    RunLeaves(s, rest, [x]);
    FindKey(r, x);
    FindKey(s, x);
    MapTwo(f, a, b);
    MapTwo(f, b, a);
    ThreeRuns(f, [a, b], group, rest);
    ThreeRuns(f, [b, a], group, rest);
    Reorder(ms, f, [a, b] + group + rest, [b, a] + group + rest);
  }
}
