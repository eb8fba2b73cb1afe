/** The carrier normalisers: CEF, LEEF and Windows events copied into common fields. Each is a list of
    steps that set a target field if it is absent, from what the event already holds. */
module Normalizers {
  import opened Text
  import opened Wrappers
  import opened FieldStore

  /** How values that are not text print, and the name an object-valued provider carries. */
  datatype Printer = Printer(sprint: Value -> string, scalar: Value -> string, provider: Fields -> string)

  datatype Source =
    | Const(text: string)
    | Copy(path: seq<string>)
    | CopyInt(path: seq<string>)
    | Plain(path: seq<string>)
    | First(keys: seq<string>)
    | FirstInt(keys: seq<string>)
    | ProviderName
    | VendorProduct
    | Outcome
    | Meaning(field: MeaningField)

  datatype MeaningField = Category | Action | Result

  datatype Step = Step(target: seq<string>, source: Source)

  function Path(parts: seq<string>): string {
    Join(parts, ".")
  }

  function EventData(key: string): seq<string> {
    ["windows", "event_data", key]
  }

  const PROVIDER := ["windows", "system", "provider"]
  const VENDOR := ["observer", "vendor"]
  const PRODUCT := ["observer", "product"]
  const ACTION := ["event", "action"]
  const CODE := ["event", "code"]
  const CATEGORY := ["event", "category"]
  const OUTCOME := ["event", "outcome"]

  // ---- Values ----

  function SPrint(x: Printer, v: Value): string {
    Trim(if v.Str? then v.text else x.sprint(v))
  }

  function Scalar(x: Printer, v: Value): string {
    match v
    case Nil => ""
    case Str(t) => Trim(t)
    case _ => Trim(x.scalar(v))
  }

  function TextAt(x: Printer, f: Fields, parts: seq<string>): string {
    var v := Get(f, Path(parts));
    if v.Some? then Scalar(x, v.value) else ""
  }

  function FirstText(x: Printer, f: Fields, keys: seq<string>): string {
    if keys == [] then "" else
    var t := TextAt(x, f, EventData(keys[0]));
    if t != "" then t else FirstText(x, f, keys[1..])
  }

  predicate Informative(t: string) {
    t != "" && t != "-"
  }

  function Number(t: string): Option<Value> {
    match Atoi(Trim(t))
    case Ok(n) => Some(Int(n))
    case Err(_) => None
  }

  function Provider(x: Printer, f: Fields): string {
    match Get(f, Path(PROVIDER))
    case Some(Str(t)) => Trim(t)
    case Some(Obj(m)) => Trim(x.provider(m))
    case _ => ""
  }

  predicate Mentions(s: string, words: seq<string>) {
    words != [] && (Contains(s, words[0]) || Mentions(s, words[1..]))
  }

  function OutcomeOf(x: Printer, action: Value): Option<Value> {
    var a := Lower(SPrint(x, action));
    if a == "" then None
    else if Mentions(a, ["allow", "accept", "permit", "success"]) then Some(Str("success"))
    else if Mentions(a, ["deny", "denied", "block", "drop", "fail", "reject", "reset"]) then Some(Str("failure"))
    else None
  }

  /** Category, action and outcome of the Windows events the agent knows. */
  function Known(code: string, provider: string): Option<(string, string, string)> {
    var sysmon := Contains(Lower(Trim(provider)), "sysmon");
    var shell := Contains(Lower(Trim(provider)), "powershell");
    match code
    case "4624" => Some(("authentication", "logon_success", "success"))
    case "4625" => Some(("authentication", "logon_failure", "failure"))
    case "4634" => Some(("authentication", "logoff", "success"))
    case "4647" => Some(("authentication", "logoff", "success"))
    case "4688" => Some(("process", "process_start", "success"))
    case "4689" => Some(("process", "process_end", "success"))
    case "1" => if sysmon then Some(("process", "process_start", "success")) else None
    case "3" => if sysmon then Some(("network", "network_connection", "success")) else None
    case "4103" => if shell then Some(("process", "powershell_pipeline", "success")) else None
    case "4104" => if shell then Some(("process", "powershell_script_block", "success")) else None
    case _ => None
  }

  function Eval(x: Printer, f: Fields, s: Source): Option<Value> {
    match s
    case Const(t) => Some(Str(t))
    case Copy(p) =>
      var v := Get(f, Path(p));
      if v.Some? && Informative(SPrint(x, v.value)) then Some(Str(SPrint(x, v.value))) else None
    case CopyInt(p) =>
      var v := Get(f, Path(p));
      if v.Some? && Informative(SPrint(x, v.value)) then Number(SPrint(x, v.value)) else None
    case Plain(p) =>
      var t := TextAt(x, f, p);
      if t != "" then Some(Str(t)) else None
    case First(keys) =>
      var t := FirstText(x, f, keys);
      if Informative(t) then Some(Str(t)) else None
    case FirstInt(keys) =>
      var t := FirstText(x, f, keys);
      if Informative(t) then Number(t) else None
    case ProviderName =>
      var t := Provider(x, f);
      if t != "" then Some(Str(t)) else None
    case VendorProduct =>
      var v, p := Get(f, Path(VENDOR)), Get(f, Path(PRODUCT));
      if v.Some? && p.Some? then Some(Str(SPrint(x, v.value) + "/" + SPrint(x, p.value))) else None
    case Outcome =>
      var v := Get(f, Path(ACTION));
      if v.Some? then OutcomeOf(x, v.value) else None
    case Meaning(field) =>
      var k := Known(TextAt(x, f, CODE), Provider(x, f));
      if k.None? then None else
      Some(Str(match field case Category => k.value.0 case Action => k.value.1 case Result => k.value.2))
  }

  function Apply(x: Printer, f: Fields, s: Step): Fields {
    var v := Eval(x, f, s.source);
    if v.None? then f else SetIfAbsent(f, Path(s.target), v.value)
  }

  function Run(x: Printer, steps: seq<Step>, f: Fields): Fields {
    if steps == [] then f else Apply(x, Run(x, steps[..|steps| - 1], f), steps[|steps| - 1])
  }

  // ---- What a program of steps may read and write ----

  ghost predicate Reads(s: Source, r: seq<string>) {
    match s
    case Const(_) => false
    case Copy(p) => r == p
    case CopyInt(p) => r == p
    case Plain(p) => r == p
    case First(keys) => ReadsKey(keys, r)
    case FirstInt(keys) => ReadsKey(keys, r)
    case ProviderName => r == PROVIDER
    case VendorProduct => r == VENDOR || r == PRODUCT
    case Outcome => r == ACTION
    case Meaning(_) => r == CODE || r == PROVIDER
  }

  ghost predicate ReadsKey(keys: seq<string>, r: seq<string>) {
    exists k :: k in keys && r == EventData(k)
  }

  /** Parts that join to a path which splits back into them. */
  predicate Proper(parts: seq<string>) {
    && parts != [] && (forall i :: 0 <= i < |parts| ==> '.' !in parts[i])
    && parts[0] != "" && !IsSpace(parts[0][0])
    && var last := parts[|parts| - 1]; last != "" && !IsSpace(last[|last| - 1])
  }

  predicate Root(s: string) {
    s in ["event", "source", "destination", "network", "user", "host", "process"]
  }

  predicate Inner(s: string) {
    s == "user" || s == "parent"
  }

  /** The fields a normaliser may set: two parts, or three through an inner object. */
  predicate Target(parts: seq<string>) {
    && Proper(parts) && Root(parts[0])
    && ((|parts| == 2 && !Inner(parts[1])) || (|parts| == 3 && Inner(parts[1])))
  }

  /** Fields outside the common schema, which no step sets. */
  predicate Foreign(parts: seq<string>) {
    Proper(parts) && !Root(parts[0])
  }

  ghost predicate WellTyped(s: Step) {
    Target(s.target) && forall r :: Reads(s.source, r) ==> Foreign(r) || Target(r)
  }

  ghost predicate ReadsOutside(s: Step) {
    Target(s.target) && forall r :: Reads(s.source, r) ==> Foreign(r)
  }

  /** No step reads what it or a later step sets. */
  ghost predicate Ordered(steps: seq<Step>) {
    && (forall i :: 0 <= i < |steps| ==> WellTyped(steps[i]))
    && (forall i, j, r :: 0 <= i <= j < |steps| && Reads(steps[i].source, r) ==> steps[j].target != r)
  }

  // ---- Paths ----

  lemma {:induction false} SplitJoin(parts: seq<string>)
    requires parts != [] && forall i :: 0 <= i < |parts| ==> '.' !in parts[i]
    ensures Split(Join(parts, "."), '.') == parts
  {
    var s := Join(parts, ".");
    var k := IndexOf(s, '.');
    if |parts| == 1 {
      assert s[..k] == s;
    } else {
      var rest := Join(parts[1..], ".");
      var n := |parts[0]|;
      assert s == parts[0] + "." + rest;
      assert s[..n] == parts[0];
      FirstOccurrence(s, '.', n);
      assert s[..n] == parts[0] && s[n + 1..] == rest;
      SplitJoin(parts[1..]);
    }
  }

  lemma {:induction false} JoinEnds(parts: seq<string>)
    requires parts != [] && parts[0] != "" && parts[|parts| - 1] != ""
    ensures var s := Join(parts, ".");
            var last := parts[|parts| - 1];
            s != "" && s[0] == parts[0][0] && s[|s| - 1] == last[|last| - 1]
  {
    if |parts| > 1 {
      var rest := parts[1..];
      if rest[0] != "" {
        JoinEnds(rest);
      } else {
        JoinLast(rest);
      }
    }
  }

  lemma {:induction false} JoinLast(parts: seq<string>)
    requires parts != [] && parts[|parts| - 1] != ""
    ensures var s := Join(parts, ".");
            var last := parts[|parts| - 1];
            s != "" && s[|s| - 1] == last[|last| - 1]
  {
    if |parts| > 1 { JoinLast(parts[1..]); }
  }

  lemma PathParts(parts: seq<string>)
    requires Proper(parts)
    ensures Parts(Path(parts)) == parts && !Blank(Path(parts))
  {
    hide IsSpace, Split;
    SplitJoin(parts);
    JoinEnds(parts);
    TrimFixed(Path(parts));
  }

  lemma Apart(a: seq<string>, b: seq<string>)
    requires Target(a) && (Foreign(b) || (Target(b) && a != b))
    ensures Incomparable(Path(a), Path(b))
  {
    hide Root, Inner, Split, Trim, Proper;
    assert Proper(a) && Proper(b) by { assert Target(a); }
    PathParts(a);
    PathParts(b);
    if a[0] == b[0] && a[1] == b[1] {
      assert a[2] != b[2];
    }
  }

  // ---- A target keeps its value, once it has one ----

  lemma ApplyElsewhere(x: Printer, f: Fields, s: Step, r: seq<string>)
    requires Target(s.target) && (Foreign(r) || Target(r)) && r != s.target
    ensures Get(Apply(x, f, s), Path(r)) == Get(f, Path(r))
  {
    hide Eval, Path, Get, Set, Incomparable, Root, Inner, Proper;
    Apart(s.target, r);
    var v := Eval(x, f, s.source);
    if v.Some? { SetLeavesOthers(f, Path(s.target), v.value, Path(r)); }
  }

  lemma ForeignIsNoTarget(r: seq<string>, t: seq<string>)
    requires Foreign(r) && Target(t)
    ensures r != t
  {
  }

  lemma ApplyKeeps(x: Printer, f: Fields, s: Step, r: seq<string>)
    requires Target(s.target) && (Foreign(r) || Target(r))
    requires Get(f, Path(r)).Some? || Foreign(r)
    ensures Get(Apply(x, f, s), Path(r)) == Get(f, Path(r))
  {
    hide Eval, Path, Get, Set, Target, Foreign;
    if r == s.target {
      if Foreign(r) { ForeignIsNoTarget(r, r); }
    } else {
      ApplyElsewhere(x, f, s, r);
    }
  }

  lemma {:induction false} RunKeeps(x: Printer, steps: seq<Step>, f: Fields, r: seq<string>)
    requires forall i :: 0 <= i < |steps| ==> Target(steps[i].target)
    requires Foreign(r) || Target(r)
    requires Get(f, Path(r)).Some? || Foreign(r)
    ensures Get(Run(x, steps, f), Path(r)) == Get(f, Path(r))
  {
    hide Apply, Path, Get, Target, Foreign;
    if steps != [] {
      var front, last := steps[..|steps| - 1], steps[|steps| - 1];
      RunKeeps(x, front, f, r);
      ApplyKeeps(x, Run(x, front, f), last, r);
    }
  }

  lemma {:induction false} RunLeaves(x: Printer, steps: seq<Step>, f: Fields, r: seq<string>)
    requires forall i :: 0 <= i < |steps| ==> Target(steps[i].target) && steps[i].target != r
    requires Foreign(r) || Target(r)
    ensures Get(Run(x, steps, f), Path(r)) == Get(f, Path(r))
  {
    hide Apply, Path, Get, Target, Foreign;
    if steps != [] {
      var front, last := steps[..|steps| - 1], steps[|steps| - 1];
      RunLeaves(x, front, f, r);
      ApplyElsewhere(x, Run(x, front, f), last, r);
    }
  }

  /** A program never overwrites a target field that was present before it ran, nor any field outside the schema. */
  lemma NeverOverwrites(x: Printer, steps: seq<Step>, f: Fields, r: seq<string>)
    requires Ordered(steps)
    requires Foreign(r) || (Target(r) && Get(f, Path(r)).Some?)
    ensures Get(Run(x, steps, f), Path(r)) == Get(f, Path(r))
  {
    hide Path, Get, Target, Foreign, Run;
    RunKeeps(x, steps, f, r);
  }

  // ---- Idempotence ----

  lemma {:induction false} FirstAgrees(x: Printer, f: Fields, g: Fields, keys: seq<string>)
    requires forall k :: k in keys ==> Get(f, Path(EventData(k))) == Get(g, Path(EventData(k)))
    ensures FirstText(x, f, keys) == FirstText(x, g, keys)
  {
    hide Get, Path, EventData, Scalar;
    if keys != [] {
      assert keys[0] in keys;
      FirstAgrees(x, f, g, keys[1..]);
    }
  }

  lemma EvalAgrees(x: Printer, f: Fields, g: Fields, s: Source)
    requires forall r :: Reads(s, r) ==> Get(f, Path(r)) == Get(g, Path(r))
    ensures Eval(x, f, s) == Eval(x, g, s)
  {
    hide Get, Path, Scalar, SPrint, Known, Number, OutcomeOf, EventData, FirstText, Informative;
    match s
    case First(keys) =>
      forall k | k in keys ensures Get(f, Path(EventData(k))) == Get(g, Path(EventData(k))) { assert Reads(s, EventData(k)); }
      FirstAgrees(x, f, g, keys);
    case FirstInt(keys) =>
      forall k | k in keys ensures Get(f, Path(EventData(k))) == Get(g, Path(EventData(k))) { assert Reads(s, EventData(k)); }
      FirstAgrees(x, f, g, keys);
    case Const(_) =>
    case Copy(p) => assert Reads(s, p);
    case CopyInt(p) => assert Reads(s, p);
    case Plain(p) => assert Reads(s, p);
    case ProviderName => assert Reads(s, PROVIDER);
    case VendorProduct => assert Reads(s, VENDOR) && Reads(s, PRODUCT);
    case Outcome => assert Reads(s, ACTION);
    case Meaning(_) => assert Reads(s, CODE) && Reads(s, PROVIDER);
  }

  lemma AppliedOrAbsent(x: Printer, f: Fields, s: Step)
    requires Target(s.target)
    ensures Get(Apply(x, f, s), Path(s.target)).Some? || Eval(x, f, s.source).None?
  {
    hide Eval, Get, Path, Split, Trim, Set, Root, Inner;
    PathParts(s.target);
    var v := Eval(x, f, s.source);
    if v.Some? { SetIfAbsentSettles(f, Path(s.target), v.value); }
  }

  lemma {:induction false} RunSplit(x: Printer, a: seq<Step>, b: seq<Step>, f: Fields)
    ensures Run(x, a + b, f) == Run(x, b, Run(x, a, f))
  {
    hide Apply;
    if b == [] {
      assert a + b == a;
    } else {
      assert (a + b)[..|a + b| - 1] == a + b[..|b| - 1];
      RunSplit(x, a, b[..|b| - 1], f);
    }
  }

  /** On a state the program has produced, each of its steps changes nothing. */
  lemma StepSettled(x: Printer, steps: seq<Step>, f: Fields, i: nat)
    requires Ordered(steps) && i < |steps|
    ensures var g := Run(x, steps, f);
            Apply(x, g, steps[i]) == g
  {
    hide Apply, Path, Get, Target, Foreign, Run, Eval, Reads;
    var g, s := Run(x, steps, f), steps[i];
    var before, rest := Run(x, steps[..i], f), steps[i..];
    assert steps == steps[..i] + rest;
    RunSplit(x, steps[..i], rest, f);
    forall r | Reads(s.source, r) ensures Get(g, Path(r)) == Get(before, Path(r)) {
      forall k | 0 <= k < |rest| ensures Target(rest[k].target) && rest[k].target != r {
        assert rest[k] == steps[i + k];
      }
      RunLeaves(x, rest, before, r);
    }
    EvalAgrees(x, g, before, s.source);
    var after := Apply(x, before, s);
    AppliedOrAbsent(x, before, s);
    assert rest == [s] + rest[1..];
    RunSplit(x, [s], rest[1..], before);
    RunOne(x, s, before);
    if Get(after, Path(s.target)).Some? {
      forall k | 0 <= k < |rest[1..]| ensures Target(rest[1..][k].target) { assert rest[1..][k] == steps[i + 1 + k]; }
      RunKeeps(x, rest[1..], after, s.target);
      PresentStays(x, g, s);
    } else {
      NothingToSet(x, g, s);
    }
  }

  lemma RunOne(x: Printer, s: Step, f: Fields)
    ensures Run(x, [s], f) == Apply(x, f, s)
  {
    hide Apply;
    assert [s][..0] == [];
    assert Run(x, [s][..0], f) == f;
  }

  lemma PresentStays(x: Printer, f: Fields, s: Step)
    requires Get(f, Path(s.target)).Some?
    ensures Apply(x, f, s) == f
  {
    hide Eval, Get, Path;
  }

  lemma NothingToSet(x: Printer, f: Fields, s: Step)
    requires Eval(x, f, s.source).None?
    ensures Apply(x, f, s) == f
  {
    hide Eval, Get, Path;
  }

  lemma {:induction false} SettledRun(x: Printer, steps: seq<Step>, g: Fields)
    requires forall i :: 0 <= i < |steps| ==> Apply(x, g, steps[i]) == g
    ensures Run(x, steps, g) == g
  {
    hide Apply;
    if steps != [] { SettledRun(x, steps[..|steps| - 1], g); }
  }

  /** Running an ordered program a second time changes nothing. */
  lemma Idempotent(x: Printer, steps: seq<Step>, f: Fields)
    requires Ordered(steps)
    ensures Run(x, steps, Run(x, steps, f)) == Run(x, steps, f)
  {
    hide Apply, Run, Ordered;
    forall i | 0 <= i < |steps| ensures Apply(x, Run(x, steps, f), steps[i]) == Run(x, steps, f) {
      StepSettled(x, steps, f, i);
    }
    SettledRun(x, steps, Run(x, steps, f));
  }

  lemma OrderedAfterOutside(a: seq<Step>, b: seq<Step>)
    requires forall i :: 0 <= i < |a| ==> ReadsOutside(a[i])
    requires Ordered(b)
    ensures Ordered(a + b)
  {
    hide Reads, Target, Foreign;
    var c := a + b;
    forall i | 0 <= i < |c| ensures WellTyped(c[i]) {
      if i < |a| { assert ReadsOutside(a[i]); } else { assert c[i] == b[i - |a|]; }
    }
    forall i, j, r | 0 <= i <= j < |c| && Reads(c[i].source, r) ensures c[j].target != r {
      if i < |a| {
        assert ReadsOutside(a[i]) && WellTyped(c[j]);
        ForeignIsNoTarget(r, c[j].target);
      } else {
        assert c[i] == b[i - |a|] && c[j] == b[j - |a|];
      }
    }
  }

  // ---- What lies above a target ----

  /** Setting a field below a top-level key leaves an object there, whatever was there before. */
  lemma SetMakesObject(f: Fields, parts: seq<string>, v: Value, key: string)
    requires Target(parts)
    ensures var g := Set(f, Path(parts), v);
            && parts[0] in g && g[parts[0]].Obj?
            && (key != parts[0] ==> (key in g <==> key in f) && (key in f ==> g[key] == f[key]))
  {
    hide Root, Inner, Path, Trim, Split;
    PathParts(parts);
  }

  lemma ApplyKeepsObject(x: Printer, f: Fields, s: Step, key: string)
    requires Target(s.target) && key in f && f[key].Obj?
    ensures key in Apply(x, f, s) && Apply(x, f, s)[key].Obj?
  {
    hide Eval, Get, Set, Path, Target, Root;
    var v := Eval(x, f, s.source);
    if v.Some? { SetMakesObject(f, s.target, v.value, key); }
  }

  /** An object at a top-level key stays an object. */
  lemma {:induction false} RunKeepsObject(x: Printer, steps: seq<Step>, f: Fields, key: string)
    requires forall i :: 0 <= i < |steps| ==> Target(steps[i].target)
    requires key in f && f[key].Obj?
    ensures key in Run(x, steps, f) && Run(x, steps, f)[key].Obj?
  {
    hide Apply, Target;
    if steps != [] {
      RunKeepsObject(x, steps[..|steps| - 1], f, key);
      ApplyKeepsObject(x, Run(x, steps[..|steps| - 1], f), steps[|steps| - 1], key);
    }
  }

  /** A step that reads fields outside the schema, or under the root it writes to. */
  ghost predicate ReadsNear(s: Step) {
    Target(s.target) && forall r :: Reads(s.source, r) ==> Foreign(r) || (Target(r) && r[0] == s.target[0])
  }

  /** A step with nothing to write on this event: a top-level key spells its target, or its source yields no value. */
  predicate Silent(x: Printer, f: Fields, s: Step) {
    Path(s.target) in f || Eval(x, f, s.source).None?
  }

  predicate WritesUnder(s: Step, key: string) {
    s.target != [] && s.target[0] == key
  }

  ghost predicate SilentUnder(x: Printer, f: Fields, steps: seq<Step>, key: string) {
    forall i :: 0 <= i < |steps| && WritesUnder(steps[i], key) ==> Silent(x, f, steps[i])
  }

  lemma TargetFacts(parts: seq<string>)
    requires Target(parts)
    ensures |parts| > 1 && '.' in Path(parts) && Trim(Path(parts)) == Path(parts) != "" && Parts(Path(parts)) == parts
    ensures '.' !in parts[0]
  {
    hide Split, Root, Inner, IsSpace;
    PathParts(parts);
    JoinEnds(parts);
    TrimFixed(Path(parts));
    SinglePart(Path(parts));
  }

  lemma ApplyKeepsDotted(x: Printer, f: Fields, s: Step, key: string)
    requires '.' in key
    ensures (key in Apply(x, f, s) <==> key in f) && (key in f ==> Apply(x, f, s)[key] == f[key])
  {
    hide Eval, Get, Set, Path;
    var v := Eval(x, f, s.source);
    if v.Some? { SetKeepsDottedKeys(f, Path(s.target), v.value, key); }
  }

  lemma {:induction false} RunKeepsDotted(x: Printer, steps: seq<Step>, f: Fields, key: string)
    requires '.' in key
    ensures (key in Run(x, steps, f) <==> key in f) && (key in f ==> Run(x, steps, f)[key] == f[key])
  {
    hide Apply;
    if steps != [] {
      var front, last := steps[..|steps| - 1], steps[|steps| - 1];
      RunKeepsDotted(x, front, f, key);
      ApplyKeepsDotted(x, Run(x, front, f), last, key);
    }
  }

  /** Under a value that is no object a field is found only if a top-level key spells its path. */
  lemma NothingUnderValue(f: Fields, r: seq<string>)
    requires Target(r) && r[0] in f && !f[r[0]].Obj?
    ensures Get(f, Path(r)) == if Path(r) in f then Some(f[Path(r)]) else None
  {
    hide Path, Trim, Split, Root, Inner, Proper;
    TargetFacts(r);
  }

  /** As long as the value under a root stands, the steps that write there evaluate as they would at the start. */
  lemma EvalStands(x: Printer, steps: seq<Step>, f: Fields, s: Step, key: string)
    requires (forall i :: 0 <= i < |steps| ==> Target(steps[i].target)) && ReadsNear(s) && s.target[0] == key
    requires key in f && !f[key].Obj? && key in Run(x, steps, f) && Run(x, steps, f)[key] == f[key]
    ensures Eval(x, Run(x, steps, f), s.source) == Eval(x, f, s.source)
  {
    hide Eval, Run, Get, Path, Target, Foreign, Reads;
    var g := Run(x, steps, f);
    forall r | Reads(s.source, r) ensures Get(g, Path(r)) == Get(f, Path(r)) {
      if Foreign(r) {
        RunKeeps(x, steps, f, r);
      } else {
        NothingUnderValue(f, r);
        NothingUnderValue(g, r);
        TargetFacts(r);
        RunKeepsDotted(x, steps, f, Path(r));
      }
    }
    EvalAgrees(x, g, f, s.source);
  }

  lemma StepUnderValue(x: Printer, f: Fields, s: Step, key: string)
    requires Target(s.target) && key in f && !f[key].Obj?
    ensures var g := Apply(x, f, s);
            && key in g
            && (s.target[0] != key || Silent(x, f, s) ==> g[key] == f[key])
            && (s.target[0] == key && !Silent(x, f, s) ==> g[key].Obj?)
  {
    hide Eval, Get, Set, Path, Target;
    TargetFacts(s.target);
    var v := Eval(x, f, s.source);
    if v.Some? { SetMakesObject(f, s.target, v.value, key); }
    if s.target[0] == key { NothingUnderValue(f, s.target); }
  }

  /** A value that is no object under a root of the schema outlives a program exactly when every step that writes
      under that root is silent on the event; otherwise an object takes its place. */
  lemma {:induction false} RootValueStands(x: Printer, steps: seq<Step>, f: Fields, key: string)
    requires forall i :: 0 <= i < |steps| ==> ReadsNear(steps[i])
    requires key in f && !f[key].Obj?
    ensures var g := Run(x, steps, f);
            key in g && (if SilentUnder(x, f, steps, key) then g[key] == f[key] else g[key].Obj?)
  {
    hide Apply, Target, Foreign, Reads, Silent;
    if steps != [] {
      var front, last := steps[..|steps| - 1], steps[|steps| - 1];
      RootValueStands(x, front, f, key);
      var g := Run(x, front, f);
      assert ReadsNear(last) && forall i :: 0 <= i < |front| ==> ReadsNear(front[i]);
      TargetFacts(last.target);
      SilentSplits(x, f, steps, key);
      if SilentUnder(x, f, front, key) {
        StepUnderValue(x, g, last, key);
        if last.target[0] == key { SilentStands(x, front, f, last, key); }
      } else {
        ApplyKeepsObject(x, g, last, key);
      }
    }
  }

  lemma SilentSplits(x: Printer, f: Fields, steps: seq<Step>, key: string)
    requires steps != []
    ensures var n := |steps| - 1;
            SilentUnder(x, f, steps, key)
            <==> SilentUnder(x, f, steps[..n], key) && (WritesUnder(steps[n], key) ==> Silent(x, f, steps[n]))
  {
    hide Silent;
  }

  lemma SilentStands(x: Printer, steps: seq<Step>, f: Fields, s: Step, key: string)
    requires (forall i :: 0 <= i < |steps| ==> ReadsNear(steps[i])) && ReadsNear(s) && s.target[0] == key
    requires key in f && !f[key].Obj? && key in Run(x, steps, f) && Run(x, steps, f)[key] == f[key]
    ensures Silent(x, Run(x, steps, f), s) <==> Silent(x, f, s)
  {
    hide Eval, Run, Path, Target, Foreign, Reads;
    EvalStands(x, steps, f, s, key);
    TargetFacts(s.target);
    RunKeepsDotted(x, steps, f, Path(s.target));
  }
}
