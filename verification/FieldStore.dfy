/** The event field store: values addressed by dotted paths in nested objects, where a top-level key
    equal to the whole path is looked up first. */
module FieldStore {
  import opened Text
  import opened Wrappers

  datatype Value = Nil | Str(text: string) | Int(number: int) | Obj(fields: Fields) | Other(id: int)

  type Fields = map<string, Value>

  /** The parts of a path, after trimming. */
  function Parts(path: string): seq<string> {
    Split(Trim(path), '.')
  }

  function Find(f: Fields, parts: seq<string>): Option<Value>
    requires parts != []
    decreases |parts|
  {
    if parts[0] !in f then None
    else if |parts| == 1 then Some(f[parts[0]])
    else if f[parts[0]].Obj? then Find(f[parts[0]].fields, parts[1..]) else None
  }

  function Get(f: Fields, path: string): Option<Value> {
    var p := Trim(path);
    if p == "" then None
    else if p in f then Some(f[p])
    else Find(f, Parts(path))
  }

  function Child(f: Fields, key: string): Fields {
    if key in f && f[key].Obj? then f[key].fields else map[]
  }

  function Put(f: Fields, parts: seq<string>, v: Value): Fields
    requires parts != []
    decreases |parts|
  {
    if |parts| == 1 then f[parts[0] := v]
    else f[parts[0] := Obj(Put(Child(f, parts[0]), parts[1..], v))]
  }

  function Set(f: Fields, path: string, v: Value): Fields {
    if Trim(path) == "" then f else Put(f, Parts(path), v)
  }

  // ---- The lookup as written: a walk over the parts ----

  method GetField(f: Fields, path: string) returns (found: Option<Value>)
    ensures found == Get(f, path)
  {
    hide Trim, Split;
    var p := Trim(path);
    if p == "" {
      return None;
    }
    if p in f {
      return Some(f[p]);
    }
    var parts := Split(p, '.');
    var current := Obj(f);
    for i := 0 to |parts|
      invariant i < |parts| ==>
                  Find(f, parts) == if current.Obj? then Find(current.fields, parts[i..]) else None
      invariant i == |parts| ==> Find(f, parts) == Some(current)
    {
      if !current.Obj? || parts[i] !in current.fields {
        return None;
      }
      assert parts[i..][1..] == parts[i + 1..];
      current := current.fields[parts[i]];
    }
    return Some(current);
  }

  /** The walk of the setter goes down creating objects where there are none; here the objects passed
      on the way are kept on a stack and put back on the way up. */
  method SetField(f: Fields, path: string, v: Value) returns (r: Fields)
    ensures r == Set(f, path, v)
  {
    hide Trim, Split;
    var p := Trim(path);
    if p == "" {
      return f;
    }
    var parts := Split(p, '.');
    if |parts| == 1 {
      return f[parts[0] := v];
    }
    var passed, current := Descend(f, parts, v);
    current := current[parts[|parts| - 1] := v];
    var i := |parts| - 1;
    while i > 0
      invariant 0 <= i < |parts| && i <= |passed|
      invariant Put(f, parts, v) == Rebuild(passed[..i], parts[..i], current)
    {
      i := i - 1;
      assert passed[..i + 1] == passed[..i] + [passed[i]] && parts[..i + 1] == parts[..i] + [parts[i]];
      RebuildSnoc(passed[..i], passed[i], parts[..i], parts[i], current);
      current := passed[i][parts[i] := Obj(current)];
    }
    return current;
  }

  method Descend(f: Fields, parts: seq<string>, ghost v: Value) returns (passed: seq<Fields>, current: Fields)
    requires |parts| > 1
    ensures |passed| == |parts| - 1
    ensures Put(f, parts, v) == Rebuild(passed[..|passed|], parts[..|passed|], current[parts[|parts| - 1] := v])
  {
    current, passed := f, [];
    ghost var keys, rest := [], parts;
    var i := 0;
    while i < |parts| - 1
      invariant 0 <= i < |parts| && |passed| == i && keys == parts[..i] && rest == parts[i..]
      invariant Put(f, parts, v) == Rebuild(passed, keys, Put(current, rest, v))
    {
      RebuildSnoc(passed, current, keys, parts[i], Put(Child(current, parts[i]), rest[1..], v));
      keys := keys + [parts[i]];
      rest := rest[1..];
      passed := passed + [current];
      current := Child(current, parts[i]);
      i := i + 1;
    }
    assert passed[..|passed|] == passed;
  }

  /** Puts `inner` back under the objects passed on the way down. */
  function Rebuild(passed: seq<Fields>, keys: seq<string>, inner: Fields): Fields
    requires |passed| == |keys|
    decreases |passed|
  {
    if passed == [] then inner else passed[0][keys[0] := Obj(Rebuild(passed[1..], keys[1..], inner))]
  }

  lemma {:induction false} RebuildSnoc(passed: seq<Fields>, last: Fields, keys: seq<string>, key: string, inner: Fields)
    requires |passed| == |keys|
    ensures Rebuild(passed + [last], keys + [key], inner) == Rebuild(passed, keys, last[key := Obj(inner)])
    decreases |passed|
  {
    if passed != [] {
      RebuildSnoc(passed[1..], last, keys[1..], key, inner);
      assert (passed + [last])[1..] == passed[1..] + [last] && (keys + [key])[1..] == keys[1..] + [key];
    }
  }

  // ---- Get after set ----

  lemma {:induction false} FindPut(f: Fields, parts: seq<string>, v: Value)
    requires parts != []
    ensures Find(Put(f, parts, v), parts) == Some(v)
    decreases |parts|
  {
    if |parts| > 1 { FindPut(Child(f, parts[0]), parts[1..], v); }
  }

  lemma SinglePart(s: string)
    ensures |Split(s, '.')| == 1 <==> '.' !in s
    ensures '.' !in s ==> Split(s, '.') == [s]
  {
    var i := IndexOf(s, '.');
    assert i == |s| ==> s[..i] == s;
  }

  lemma {:induction false} PartsHaveNoDot(s: string, i: nat)
    requires i < |Split(s, '.')|
    ensures '.' !in Split(s, '.')[i]
    decreases |s|
  {
    var k := IndexOf(s, '.');
    if k == |s| {
      assert s[..k] == s;
    } else if i > 0 {
      PartsHaveNoDot(s[k + 1..], i - 1);
    }
  }

  /** A value just set is read back exactly when the path has one part, or no other value sits under a
      top-level key that spells the whole dotted path. */
  lemma GetAfterSet(f: Fields, path: string, v: Value)
    requires !Blank(path)
    ensures var p := Trim(path);
            Get(Set(f, path, v), path) == Some(v) <==> '.' !in p || p !in f || f[p] == v
  {
    hide Trim, Split, Find;
    var p := Trim(path);
    SinglePart(p);
    PartsHaveNoDot(p, 0);
    FindPut(f, Parts(path), v);
  }

  // ---- Independence ----

  ghost predicate Diverge(a: seq<string>, b: seq<string>) {
    exists i :: 0 <= i < |a| && i < |b| && a[i] != b[i]
  }

  ghost predicate Incomparable(p: string, q: string) {
    Diverge(Parts(p), Parts(q))
  }

  lemma DivergeTail(a: seq<string>, b: seq<string>)
    requires a != [] && b != [] && Diverge(a, b) && a[0] == b[0]
    ensures |a| > 1 && |b| > 1 && Diverge(a[1..], b[1..])
  {
    var i :| 0 <= i < |a| && i < |b| && a[i] != b[i];
    assert a[1..][i - 1] != b[1..][i - 1];
  }

  lemma {:induction false} FindElsewhere(f: Fields, a: seq<string>, v: Value, b: seq<string>)
    requires a != [] && b != [] && Diverge(a, b)
    ensures Find(Put(f, a, v), b) == Find(f, b)
    decreases |a|
  {
    if a[0] == b[0] {
      DivergeTail(a, b);
      FindElsewhere(Child(f, a[0]), a[1..], v, b[1..]);
    }
  }

  /** Setting one path leaves every path that is neither above nor below it as it was. */
  lemma SetLeavesOthers(f: Fields, p: string, v: Value, q: string)
    requires Incomparable(p, q)
    ensures Get(Set(f, p, v), q) == Get(f, q)
  {
    hide Trim, Split, Find, Diverge;
    FindElsewhere(f, Parts(p), v, Parts(q));
    var t := Trim(q);
    SinglePart(t);
    PartsHaveNoDot(Trim(p), 0);
    if t == Parts(p)[0] { OnePart(Parts(p), Parts(q)); }
  }

  lemma OnePart(a: seq<string>, b: seq<string>)
    requires a != [] && |b| == 1 && a[0] == b[0]
    ensures !Diverge(a, b)
  {
  }

  lemma {:induction false} PutPut(f: Fields, a: seq<string>, v: Value, w: Value)
    requires a != []
    ensures Put(Put(f, a, v), a, w) == Put(f, a, w)
    decreases |a|
  {
    if |a| > 1 {
      PutPut(Child(f, a[0]), a[1..], v, w);
    }
  }

  /** The last write wins. */
  lemma SetSet(f: Fields, p: string, v: Value, w: Value)
    ensures Set(Set(f, p, v), p, w) == Set(f, p, w)
  {
    hide Trim, Split;
    if Trim(p) != "" { PutPut(f, Parts(p), v, w); }
  }

  // ---- Setting only what is absent ----

  function SetIfAbsent(f: Fields, path: string, v: Value): Fields {
    if Get(f, path).Some? then f else Set(f, path, v)
  }

  /** Setting an absent path always takes effect, and a present one keeps its value. */
  lemma SetIfAbsentSettles(f: Fields, path: string, v: Value)
    requires !Blank(path)
    ensures Get(SetIfAbsent(f, path, v), path) == if Get(f, path).Some? then Get(f, path) else Some(v)
  {
    hide Trim, Split, Find, Put;
    if Get(f, path).None? { GetAfterSet(f, path, v); }
  }

  // ---- Redaction ----

  function Redact(f: Fields, fields: seq<string>, replacement: string): Fields {
    if fields == [] then f else
    var g := Redact(f, fields[..|fields| - 1], replacement);
    var last := fields[|fields| - 1];
    if Get(g, last).Some? then Set(g, last, Str(replacement)) else g
  }

  method RedactFields(f: Fields, fields: seq<string>, replacement: string) returns (r: Fields)
    ensures r == Redact(f, fields, replacement)
  {
    hide Get, Set;
    r := f;
    for i := 0 to |fields|
      invariant r == Redact(f, fields[..i], replacement)
    {
      assert fields[..i + 1][..i] == fields[..i];
      var found := GetField(r, fields[i]);
      if found.Some? {
        r := SetField(r, fields[i], Str(replacement));
      }
    }
    assert fields[..|fields|] == fields;
  }

  /** Nothing but the replacement is left in the value. */
  ghost predicate Redacted(v: Value, text: string)
    decreases v
  {
    v == Str(text) || (v.Obj? && forall k :: k in v.fields ==> Redacted(v.fields[k], text))
  }

  ghost predicate CleanAt(found: Option<Value>, text: string) {
    found.Some? ==> Redacted(found.value, text)
  }

  ghost predicate Clean(f: Fields, path: string, text: string) {
    CleanAt(Get(f, path), text)
  }

  /** A top-level key spells the whole dotted path and holds something unredacted. */
  ghost predicate Shadowed(f: Fields, path: string, text: string) {
    var p := Trim(path);
    '.' in p && p in f && !Redacted(f[p], text)
  }

  lemma SetKeepsDottedKeys(f: Fields, path: string, v: Value, key: string)
    requires '.' in key
    ensures key in Set(f, path, v) <==> key in f
    ensures key in f ==> Set(f, path, v)[key] == f[key]
  {
    hide Trim, Split;
    PartsHaveNoDot(Trim(path), 0);
  }

  lemma {:induction false} RedactKeepsDottedKeys(f: Fields, fields: seq<string>, replacement: string, key: string)
    requires '.' in key
    ensures key in Redact(f, fields, replacement) <==> key in f
    ensures key in f ==> Redact(f, fields, replacement)[key] == f[key]
  {
    hide Get, Set;
    if fields != [] {
      var front, last := fields[..|fields| - 1], fields[|fields| - 1];
      RedactKeepsDottedKeys(f, front, replacement, key);
      SetKeepsDottedKeys(Redact(f, front, replacement), last, Str(replacement), key);
    }
  }

  lemma {:induction false} PutAmongRedacted(f: Fields, a: seq<string>, text: string)
    requires a != [] && forall k :: k in f ==> Redacted(f[k], text)
    ensures forall k :: k in Put(f, a, Str(text)) ==> Redacted(Put(f, a, Str(text))[k], text)
    decreases |a|
  {
    if |a| > 1 { PutAmongRedacted(Child(f, a[0]), a[1..], text); }
  }

  /** Of two paths one of which lies above the other: redacting one keeps the other clean. */
  lemma {:induction false} PutKeepsClean(f: Fields, a: seq<string>, text: string, b: seq<string>)
    requires a != [] && b != [] && !Diverge(a, b) && CleanAt(Find(f, b), text)
    ensures CleanAt(Find(Put(f, a, Str(text)), b), text)
    decreases |a|
  {
    hide Redacted;
    assert a[0] == b[0];
    assert Redacted(Str(text), text) by { RedactedText(text); }
    if |a| > 1 {
      if |b| == 1 {
        ChildOfRedacted(f, a[0], text);
        PutAmongRedacted(Child(f, a[0]), a[1..], text);
        RedactedObject(Put(Child(f, a[0]), a[1..], Str(text)), text);
      } else {
        DivergeStep(a, b);
        PutKeepsClean(Child(f, a[0]), a[1..], text, b[1..]);
      }
    }
  }

  lemma RedactedText(text: string)
    ensures Redacted(Str(text), text)
  {
  }

  lemma RedactedObject(f: Fields, text: string)
    requires forall k :: k in f ==> Redacted(f[k], text)
    ensures Redacted(Obj(f), text)
  {
  }

  lemma ChildOfRedacted(f: Fields, key: string, text: string)
    requires key in f ==> Redacted(f[key], text)
    ensures forall k :: k in Child(f, key) ==> Redacted(Child(f, key)[k], text)
  {
  }

  lemma DivergeStep(a: seq<string>, b: seq<string>)
    requires a != [] && b != [] && !Diverge(a, b)
    ensures !Diverge(a[1..], b[1..])
  {
    forall i | 0 <= i < |a| - 1 && i < |b| - 1 ensures a[1..][i] == b[1..][i] {
      assert a[i + 1] == b[i + 1];
    }
  }

  lemma FlatIsPart(f: Fields, path: string)
    requires !Blank(path) && ('.' !in Trim(path) || Trim(path) !in f)
    ensures Get(f, path) == Find(f, Parts(path))
  {
    hide Trim, Split;
    SinglePart(Trim(path));
  }

  /** Redacting one path keeps every other clean path clean. */
  lemma RedactOneKeeps(f: Fields, path: string, other: string, text: string)
    requires Clean(f, other, text)
    ensures Clean(Set(f, path, Str(text)), other, text)
  {
    hide Trim, Split, Find, Put, Diverge, Redacted;
    var g, q := Set(f, path, Str(text)), Trim(other);
    if Trim(path) == "" || q == "" {
    } else if '.' in q && q in f {
      SetKeepsDottedKeys(f, path, Str(text), q);
    } else if Diverge(Parts(path), Parts(other)) {
      SetLeavesOthers(f, path, Str(text), other);
    } else {
      FlatIsPart(f, other);
      if '.' in q { SetKeepsDottedKeys(f, path, Str(text), q); }
      FlatIsPart(g, other);
      PutKeepsClean(f, Parts(path), text, Parts(other));
    }
  }

  lemma RedactedOneIsClean(f: Fields, path: string, text: string)
    requires !Shadowed(f, path, text)
    ensures Clean(if Get(f, path).Some? then Set(f, path, Str(text)) else f, path, text)
  {
    hide Trim, Split, Find, Put;
    if Get(f, path).Some? {
      var g, p := Set(f, path, Str(text)), Trim(path);
      if '.' in p && p in f {
        SetKeepsDottedKeys(f, path, Str(text), p);
      } else {
        GetAfterSet(f, path, Str(text));
        RedactedText(text);
      }
    }
  }

  lemma {:induction false} RedactionCleans(f: Fields, fields: seq<string>, text: string, i: nat)
    requires i < |fields|
    requires forall k :: 0 <= k < |fields| ==> !Shadowed(f, fields[k], text)
    ensures Clean(Redact(f, fields, text), fields[i], text)
    decreases |fields|
  {
    hide Trim, Split, Find, Put, Get, Set, Clean, Redacted;
    var front, last := fields[..|fields| - 1], fields[|fields| - 1];
    var g := Redact(f, front, text);
    if i < |front| {
      RedactionCleans(f, front, text, i);
      RedactOneKeeps(g, last, fields[i], text);
    } else {
      if '.' in Trim(last) { RedactKeepsDottedKeys(f, front, text, Trim(last)); }
      assert Shadowed(g, last, text) == Shadowed(f, last, text);
      RedactedOneIsClean(g, last, text);
    }
  }

  /** Redaction leaves nothing but the replacement readable under any listed field, exactly when no
      listed dotted field is also spelled by a top-level key. */
  lemma RedactionIff(f: Fields, fields: seq<string>, text: string)
    ensures (forall i :: 0 <= i < |fields| ==> Clean(Redact(f, fields, text), fields[i], text))
            <==> (forall i :: 0 <= i < |fields| ==> !Shadowed(f, fields[i], text))
  {
    hide Trim, Split, Find, Put, Redact, Set, Redacted;
    var r := Redact(f, fields, text);
    forall i | 0 <= i < |fields| && Shadowed(f, fields[i], text) ensures !Clean(r, fields[i], text) {
      RedactKeepsDottedKeys(f, fields, text, Trim(fields[i]));
      assert Trim(fields[i]) in r;
    }
    if forall i :: 0 <= i < |fields| ==> !Shadowed(f, fields[i], text) {
      forall i | 0 <= i < |fields| ensures Clean(r, fields[i], text) {
        RedactionCleans(f, fields, text, i);
      }
    }
  }
}
