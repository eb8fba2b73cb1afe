/** When the entries of a field map may be taken in any order: for two copies and for a whole list, over every
    event and every dotted path, the exact condition on their paths; and the same for constants. */
module FieldMapOrder {
  import opened Text
  import opened Wrappers
  import opened FieldStore
  import opened FieldMap
  import opened FieldMapRuns
  import opened FieldMapClash
  import Sorting

  // ---- The condition ----

  /** Two copies that may trade places: one has no effect, they are the same, neither writes where the other reads
      or writes, or they read one path, write to paths apart, and one of them writes that path back. */
  ghost predicate Commuting(a: Mapping, b: Mapping)
    requires a.Copy? && b.Copy?
  {
    || Idle(a) || Idle(b) || Same(a, b) || Independent(a, b)
    || (Incomparable(a.target, b.target) && Trim(a.source) == Trim(b.source) && (WritesBack(a) || WritesBack(b)))
  }

  // ---- The condition suffices ----

  /** Writing what is there already changes nothing. */
  lemma {:induction false} PutFound(f: Fields, parts: seq<string>)
    requires parts != [] && Find(f, parts).Some?
    ensures Put(f, parts, Find(f, parts).value) == f
    decreases |parts|
  {
    if |parts| > 1 { PutFound(f[parts[0]].fields, parts[1..]); }
    assert f[parts[0] := f[parts[0]]] == f;
  }

  lemma WriteBackIsNothing(f: Fields, m: Mapping)
    requires m.Copy? && WritesBack(m) && Trim(m.target) !in f
    ensures MapOne(f, m) == f
  {
    hide Trim, Split, Find, Put;
    if Trim(m.target) != "" && Find(f, Parts(m.target)).Some? { PutFound(f, Parts(m.target)); }
  }

  lemma SharedSourceCommutes(f: Fields, a: Mapping, b: Mapping)
    requires a.Copy? && b.Copy? && !Blank(a.source)
    requires Incomparable(a.target, b.target) && Trim(a.source) == Trim(b.source) && WritesBack(a) && '.' in Trim(a.source)
    ensures MapOne(MapOne(f, a), b) == MapOne(MapOne(f, b), a)
  {
    hide Trim, Split, Find, Set, Incomparable;
    var q := Trim(a.source);
    if q in f {
      SetKeepsDottedKeys(f, a.target, f[q], q);
      SetKeepsDottedKeys(f, b.target, f[q], q);
      SetsCommute(f, a.target, f[q], b.target, f[q]);
    } else {
      WriteBackIsNothing(f, a);
      var v := Mapped(f, b);
      if v.Some? { SetKeepsDottedKeys(f, b.target, v.value, q); }
      WriteBackIsNothing(MapOne(f, b), a);
    }
  }

  lemma IncomparableSymmetric(p: string, q: string)
    requires Incomparable(p, q)
    ensures Incomparable(q, p)
  {
    hide Trim, Split;
    var a, b := Parts(p), Parts(q);
    var i :| 0 <= i < |a| && i < |b| && a[i] != b[i];
    assert b[i] != a[i];
  }

  lemma CommutingSuffices(a: Mapping, b: Mapping)
    requires a.Copy? && b.Copy? && Commuting(a, b)
    ensures Commute(a, b)
  {
    hide MapOne, Independent, Incomparable, Trim;
    forall f: Fields ensures MapOne(MapOne(f, a), b) == MapOne(MapOne(f, b), a) {
      if Idle(a) {
        IdleChangesNothing(f, a);
        IdleChangesNothing(MapOne(f, b), a);
      } else if Idle(b) {
        IdleChangesNothing(f, b);
        IdleChangesNothing(MapOne(f, a), b);
      } else if Same(a, b) {
        SameEffect(f, a, b);
        SameEffect(MapOne(f, a), a, b);
      } else if Independent(a, b) {
        MapsCommute(f, a, b);
      } else if WritesBack(a) {
        SharedSourceCommutes(f, a, b);
      } else {
        IncomparableSymmetric(a.target, b.target);
        SharedSourceCommutes(f, b, a);
      }
    }
  }

  // ---- The results ----

  lemma NestedDisagrees(ms: seq<Mapping>, a: Mapping, b: Mapping)
    requires AllCopy(ms) && a in ms && b in ms && !Idle(a) && !Idle(b) && !Same(a, b)
    requires !Incomparable(a.target, b.target) && |Parts(a.target)| <= |Parts(b.target)|
    ensures !OrderIrrelevant(ms)
  {
    hide Trim, Split, Diverge, Idle, OrderIrrelevant;
    var x := Root(a);
    SameRoot(a, b);
    if Key(a) != x {
      OuterDisagrees(ms, a, b, x);
    } else if n :| n in ms && Outsider(n, x) {
      MixedDisagrees(ms, a, n, x);
    } else {
      assert !Outsider(b, x);
      if |Parts(a.target)| == |Parts(b.target)| {
        var r, e := SharedEnd(Parts(a.target), Parts(b.target));
        assert r == [] && e == [] && Parts(a.target) + r == Parts(a.target) && Parts(b.target) + e == Parts(b.target);
        PartsTell(a.target, b.target);
      }
      SelvesDisagree(ms, a, b, x);
    }
  }

  lemma SameRoot(a: Mapping, b: Mapping)
    requires a.Copy? && b.Copy? && !Incomparable(a.target, b.target)
    ensures Root(a) == Root(b)
  {
    hide Trim, Split;
  }

  ghost predicate Nested(a: Mapping, b: Mapping) {
    a.Copy? && b.Copy? && !Idle(a) && !Idle(b) && !Same(a, b) && !Incomparable(a.target, b.target)
  }

  lemma ConflictDisagrees(ms: seq<Mapping>, a: Mapping, b: Mapping)
    requires AllCopy(ms) && a in ms && b in ms && !Commuting(a, b)
    ensures !OrderIrrelevant(ms)
  {
    hide Trim, Incomparable, Idle, OrderIrrelevant;
    if c, d :| c in ms && d in ms && Nested(c, d) {
      if |Parts(c.target)| <= |Parts(d.target)| {
        NestedDisagrees(ms, c, d);
      } else {
        NestedSymmetric(c, d);
        NestedDisagrees(ms, d, c);
      }
    } else {
      assert !Idle(a) && !Idle(b) && !Nested(a, b) && !Nested(b, a);
      forall m | m in ms ensures Idle(m) || Same(m, b) || Incomparable(m.target, b.target) { assert !Nested(m, b); }
      forall m | m in ms ensures Idle(m) || Same(m, a) || Incomparable(m.target, a.target) { assert !Nested(m, a); }
      SameSymmetric(a, b);
      if !Incomparable(a.target, b.source) {
        ReaderDisagrees(ms, a, b);
      } else {
        ReaderDisagrees(ms, b, a);
      }
    }
  }

  lemma SameSymmetric(a: Mapping, b: Mapping)
    requires a.Copy? && b.Copy?
    ensures Same(a, b) <==> Same(b, a)
  {
    hide Trim;
  }

  lemma NestedSymmetric(a: Mapping, b: Mapping)
    requires Nested(a, b)
    ensures Nested(b, a)
  {
    hide Trim, Incomparable, Idle;
    if Incomparable(b.target, a.target) { IncomparableSymmetric(b.target, a.target); }
  }

  /** All orders of the copies of a field map give one result, on every event, exactly when any two of them
      may trade places. */
  lemma FieldMapOrderIff(ms: seq<Mapping>)
    requires AllCopy(ms)
    ensures OrderIrrelevant(ms)
            <==> (forall a, b :: a in ms && b in ms ==> Commuting(a, b))
  {
    hide MapFields, Commuting, Commute;
    if a, b :| a in ms && b in ms && !Commuting(a, b) {
      ConflictDisagrees(ms, a, b);
    } else {
      forall f, s, t | multiset(s) == multiset(ms) && multiset(t) == multiset(ms) ensures MapFields(f, s) == MapFields(f, t) {
        forall a, b | a in s && b in s ensures Commute(a, b) {
          Sorting.SameMembers(s, ms, a);
          Sorting.SameMembers(s, ms, b);
          CommutingSuffices(a, b);
        }
        FieldMapOrderIrrelevant(f, s, t);
      }
    }
  }

  /** Two copies give one result in either order, on every event, exactly when they may trade places. */
  lemma TwoCopiesIff(a: Mapping, b: Mapping)
    requires a.Copy? && b.Copy?
    ensures Commute(a, b) <==> Commuting(a, b)
  {
    hide MapFields, Commuting, MapOne;
    if Commuting(a, b) {
      CommutingSuffices(a, b);
    } else {
      ConflictDisagrees([a, b], a, b);
      if Commute(a, b) {
        var f, s, t :| multiset(s) == multiset([a, b]) && multiset(t) == multiset([a, b]) && MapFields(f, s) != MapFields(f, t);
        forall x, y | x in s && y in s ensures Commute(x, y) {
          Sorting.SameMembers(s, [a, b], x);
          Sorting.SameMembers(s, [a, b], y);
        }
        FieldMapOrderIrrelevant(f, s, t);
        assert false;
      }
    }
  }

  /** A field name that is its own path. */
  predicate Plain(s: string) {
    s != "" && Trimmed(s) && '.' !in s
  }

  lemma PlainPath(s: string)
    requires Plain(s)
    ensures Trim(s) == s && Parts(s) == [s]
  {
    hide IsSpace, Split;
    TrimFixed(s);
    SinglePart(s);
  }

  lemma PlainCommuting(a: Mapping, b: Mapping)
    requires a.Copy? && b.Copy? && a.target != b.target
    requires Plain(a.target) && Plain(a.source) && Plain(b.target) && Plain(b.source)
    ensures Commuting(a, b)
            <==> a.target == a.source || b.target == b.source || (a.target != b.source && b.target != a.source)
  {
    hide Trim, Split, IsSpace, Diverge;
    PlainPath(a.target);
    PlainPath(a.source);
    PlainPath(b.target);
    PlainPath(b.source);
    PlainDiverge(a.target, b.target);
    PlainDiverge(a.target, b.source);
    PlainDiverge(b.target, a.source);
  }

  lemma PlainDiverge(s: string, t: string)
    ensures Diverge([s], [t]) <==> s != t
  {
    if s != t { assert [s][0] != [t][0]; }
  }

  /** `b` reads the target of `a`, and both have an effect. */
  predicate ReadsTarget(a: Mapping, b: Mapping)
    requires a.Copy? && b.Copy?
  {
    a.target != a.source && b.target != b.source && b.source == a.target
  }

  /** So with plain fields and one copy for each target: the order is irrelevant exactly when no copy reads the
      target of another, those from a field to itself apart. */
  lemma PlainFieldMapOrderIff(ms: seq<Mapping>)
    requires AllCopy(ms) && forall m :: m in ms ==> Plain(m.target) && Plain(m.source)
    requires forall a, b :: a in ms && b in ms && a.target == b.target ==> a == b
    ensures OrderIrrelevant(ms) <==> (forall a, b :: a in ms && b in ms ==> !ReadsTarget(a, b))
  {
    hide OrderIrrelevant, Commuting, Plain;
    FieldMapOrderIff(ms);
    forall a, b | a in ms && b in ms ensures Commuting(a, b) <==> !ReadsTarget(a, b) && !ReadsTarget(b, a) {
      if a == b { ItselfCommuting(a); } else { PlainCommuting(a, b); }
    }
  }

  lemma ItselfCommuting(a: Mapping)
    requires a.Copy?
    ensures Commuting(a, a)
  {
    hide Trim, Incomparable;
  }

  // ---- Constants ----

  predicate AllConstant(ms: seq<Mapping>) {
    forall m :: m in ms ==> m.Constant?
  }

  /** What a value holds at a place inside it. */
  function At(v: Value, place: seq<string>): Option<Value> {
    if place == [] then Some(v) else if v.Obj? then Find(v.fields, place) else None
  }

  /** The target of `b` lies at or below that of `a`, whose value already holds `b`'s there. */
  ghost predicate Holds(a: Mapping, b: Mapping)
    requires a.Constant? && b.Constant?
  {
    exists r :: Parts(b.target) == Parts(a.target) + r && At(a.value, r) == Some(b.value)
  }

  ghost predicate Agreeing(a: Mapping, b: Mapping)
    requires a.Constant? && b.Constant?
  {
    Blank(a.target) || Blank(b.target) || Incomparable(a.target, b.target) || Holds(a, b) || Holds(b, a)
  }

  lemma {:induction false} PutAbove(f: Fields, a: seq<string>, r: seq<string>, v: Value, w: Value)
    requires a != []
    ensures Put(Put(f, a + r, w), a, v) == Put(f, a, v)
    decreases |a|
  {
    hide Put, Child;
    var ar, k := a + r, a[0];
    assert ar[0] == k && ar[1..] == a[1..] + r;
    var inner := PutValue(Child(f, k), ar, w);
    PutIsUpdate(f, ar, w);
    PutIsUpdate(f, a, v);
    PutIsUpdate(f[k := inner], a, v);
    ChildOfUpdate(f, k, inner, k);
    if |a| > 1 { PutAbove(Child(f, k), a[1..], r, v, w); }
  }

  lemma FindAt(f: Fields, a: seq<string>, r: seq<string>, v: Value)
    requires a != []
    ensures Find(Put(f, a, v), a + r) == At(v, r)
  {
    hide Find, Put;
    FindPut(f, a, v);
    if r == [] { assert a + r == a; } else { FindUnder(Put(f, a, v), a, r); }
  }

  lemma HoldingCommutes(f: Fields, a: Mapping, b: Mapping)
    requires a.Constant? && b.Constant? && !Blank(a.target) && !Blank(b.target) && Holds(a, b)
    ensures MapOne(MapOne(f, a), b) == MapOne(f, a) == MapOne(MapOne(f, b), a)
  {
    hide Trim, Split, Find, Put, At;
    var p := Parts(a.target);
    var r :| Parts(b.target) == p + r && At(a.value, r) == Some(b.value);
    FindAt(f, p, r, a.value);
    PutFound(Put(f, p, a.value), p + r);
    PutAbove(f, p, r, a.value, b.value);
  }

  lemma AgreeingSuffices(a: Mapping, b: Mapping)
    requires a.Constant? && b.Constant? && Agreeing(a, b)
    ensures Commute(a, b)
  {
    hide Trim, Split, Put, Incomparable, Holds;
    forall f: Fields ensures MapOne(MapOne(f, a), b) == MapOne(MapOne(f, b), a) {
      if Blank(a.target) || Blank(b.target) {
      } else if Incomparable(a.target, b.target) {
        SetsCommute(f, a.target, a.value, b.target, b.value);
      } else if Holds(a, b) {
        HoldingCommutes(f, a, b);
      } else {
        HoldingCommutes(f, b, a);
      }
    }
  }

  lemma OthersFirst(ms: seq<Mapping>, a: Mapping, b: Mapping) returns (others: seq<Mapping>)
    requires a in ms && b in ms && a != b
    ensures multiset(others + [a, b]) == multiset(ms) && multiset(others + [b, a]) == multiset(ms)
  {
    others := Without(Without(ms, a), b);
  }

  lemma SettingsDisagree(ms: seq<Mapping>, a: Mapping, b: Mapping)
    requires AllConstant(ms) && a in ms && b in ms && !Agreeing(a, b) && |Parts(a.target)| <= |Parts(b.target)|
    ensures !OrderIrrelevant(ms)
  {
    hide Trim, Split, Find, Put, At, Diverge, OrderIrrelevant;
    var p, q := Parts(a.target), Parts(b.target);
    var r, e := SharedEnd(p, q);
    assert e == [] && q + e == q;
    if a == b { assert p + [] == p; AtItself(a.value); }
    var others := OthersFirst(ms, a, b);
    var h := MapFields(map[], others);
    FindAt(MapOne(h, b), p, r, a.value);
    FindPut(MapOne(h, a), q, b.value);
    MapConcat(map[], others, [a, b]);
    MapConcat(map[], others, [b, a]);
    MapTwo(h, a, b);
    MapTwo(h, b, a);
    Reorder(ms, map[], others + [a, b], others + [b, a]);
  }

  lemma AtItself(v: Value)
    ensures At(v, []) == Some(v)
  {
  }

  lemma AgreeingSymmetric(a: Mapping, b: Mapping)
    requires a.Constant? && b.Constant? && Agreeing(a, b)
    ensures Agreeing(b, a)
  {
    hide Trim, Incomparable, Holds;
    if Incomparable(a.target, b.target) { IncomparableSymmetric(a.target, b.target); }
  }

  /** All orders of the constants give one result exactly when of any two, the targets lie apart or the outer value
      already holds the inner one. */
  lemma SettingsOrderIff(ms: seq<Mapping>)
    requires AllConstant(ms)
    ensures OrderIrrelevant(ms) <==> (forall a, b :: a in ms && b in ms ==> Agreeing(a, b))
  {
    hide MapFields, Agreeing, Commute;
    if a, b :| a in ms && b in ms && !Agreeing(a, b) {
      if |Parts(a.target)| <= |Parts(b.target)| {
        SettingsDisagree(ms, a, b);
      } else {
        if Agreeing(b, a) { AgreeingSymmetric(b, a); }
        SettingsDisagree(ms, b, a);
      }
    } else {
      forall f, s, t | multiset(s) == multiset(ms) && multiset(t) == multiset(ms) ensures MapFields(f, s) == MapFields(f, t) {
        forall a, b | a in s && b in s ensures Commute(a, b) {
          Sorting.SameMembers(s, ms, a);
          Sorting.SameMembers(s, ms, b);
          AgreeingSuffices(a, b);
        }
        FieldMapOrderIrrelevant(f, s, t);
      }
    }
  }
}
