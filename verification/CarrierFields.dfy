/** Which field of a CEF, LEEF or Windows event ends up in which common field, path by path. */
module CarrierFields {
  import opened Text
  import opened Wrappers
  import opened FieldStore
  import opened Normalizers
  import opened Carriers

  // ---- The step that decides a target ----

  /** Nothing before step `i` that writes its target has anything to write. */
  ghost predicate FirstToWrite(x: Printer, steps: seq<Step>, f: Fields, i: nat)
    requires i < |steps|
  {
    && (forall j :: 0 <= j < |steps| ==> Target(steps[j].target))
    && (forall j :: 0 <= j <= i && steps[j].target == steps[i].target ==> ReadsOutside(steps[j]))
    && (forall j :: 0 <= j < i && steps[j].target == steps[i].target ==> Eval(x, f, steps[j].source).None?)
  }

  lemma EvalOutside(x: Printer, steps: seq<Step>, f: Fields, s: Step)
    requires (forall j :: 0 <= j < |steps| ==> Target(steps[j].target)) && ReadsOutside(s)
    ensures Eval(x, Run(x, steps, f), s.source) == Eval(x, f, s.source)
  {
    hide Eval, Run, Get, Path, Target, Foreign, Reads;
    forall r | Reads(s.source, r) ensures Get(Run(x, steps, f), Path(r)) == Get(f, Path(r)) { RunKeeps(x, steps, f, r); }
    EvalAgrees(x, Run(x, steps, f), f, s.source);
  }

  lemma {:induction false} StaysAbsent(x: Printer, steps: seq<Step>, f: Fields, i: nat, n: nat)
    requires i < |steps| && n <= i && FirstToWrite(x, steps, f, i) && Get(f, Path(steps[i].target)).None?
    ensures Get(Run(x, steps[..n], f), Path(steps[i].target)).None?
    decreases n
  {
    hide Eval, Apply, Get, Path, Target, Foreign, ReadsOutside;
    if n > 0 {
      StaysAbsent(x, steps, f, i, n - 1);
      var front, s := steps[..n - 1], steps[n - 1];
      assert steps[..n][..n - 1] == front;
      if s.target == steps[i].target {
        EvalOutside(x, front, f, s);
        NothingToSet(x, Run(x, front, f), s);
      } else {
        ApplyElsewhere(x, Run(x, front, f), s, steps[i].target);
      }
    }
  }

  /** An absent target takes the value of the first step that has one for it. */
  lemma TargetTakes(x: Printer, steps: seq<Step>, f: Fields, i: nat)
    requires i < |steps| && FirstToWrite(x, steps, f, i) && Get(f, Path(steps[i].target)).None?
    requires Eval(x, f, steps[i].source).Some?
    ensures Get(Run(x, steps, f), Path(steps[i].target)) == Eval(x, f, steps[i].source)
  {
    hide Eval, Run, Get, Path, Target, Foreign, ReadsOutside;
    var s, front, rest := steps[i], steps[..i], steps[i + 1..];
    StaysAbsent(x, steps, f, i, i);
    EvalOutside(x, front, f, s);
    var before := Run(x, front, f);
    AppliedValue(x, before, s);
    assert steps == front + ([s] + rest);
    RunSplit(x, front, [s] + rest, f);
    RunSplit(x, [s], rest, before);
    RunOne(x, s, before);
    forall k | 0 <= k < |rest| ensures Target(rest[k].target) { assert rest[k] == steps[i + 1 + k]; }
    RunKeeps(x, rest, Apply(x, before, s), s.target);
  }

  lemma AppliedValue(x: Printer, f: Fields, s: Step)
    requires Target(s.target) && Get(f, Path(s.target)).None? && Eval(x, f, s.source).Some?
    ensures Get(Apply(x, f, s), Path(s.target)) == Eval(x, f, s.source)
  {
    hide Eval, Get, Path, Split, Trim, Set, Root, Inner;
    PathParts(s.target);
    SetIfAbsentSettles(f, Path(s.target), Eval(x, f, s.source).value);
  }

  // ---- Fields that arrive ----

  /** A text that says something, stored at `from`, is found trimmed at `to` afterwards, if nothing was there. */
  ghost predicate TextArrives(x: Printer, steps: seq<Step>, f: Fields, from: seq<string>, to: seq<string>) {
    forall t :: Get(f, Path(from)) == Some(Str(t)) && Trim(t) != "" && Trim(t) != "-" && Get(f, Path(to)).None?
                ==> Get(Run(x, steps, f), Path(to)) == Some(Str(Trim(t)))
  }

  /** And a numeral arrives as its number. */
  ghost predicate NumberArrives(x: Printer, steps: seq<Step>, f: Fields, from: seq<string>, to: seq<string>) {
    forall t, n :: Get(f, Path(from)) == Some(Str(t)) && Trim(t) != "-" && Atoi(Trim(t)) == Ok(n) && Get(f, Path(to)).None?
                   ==> Get(Run(x, steps, f), Path(to)) == Some(Int(n))
  }

  lemma NumeralNotEmpty(t: string)
    requires Atoi(t).Ok?
    ensures t != ""
  {
  }

  /** A step that reads the field `from` as it stands, whatever kind of copy it is. */
  predicate ReadsText(s: Source, from: seq<string>) {
    match s
    case Copy(p) => p == from
    case Plain(p) => p == from
    case First(keys) => keys != [] && EventData(keys[0]) == from
    case _ => false
  }

  predicate ReadsNumber(s: Source, from: seq<string>) {
    match s
    case CopyInt(p) => p == from
    case FirstInt(keys) => keys != [] && EventData(keys[0]) == from
    case _ => false
  }

  lemma EvalText(x: Printer, f: Fields, s: Source, from: seq<string>, t: string)
    requires ReadsText(s, from) && Get(f, Path(from)) == Some(Str(t)) && Trim(t) != "" && Trim(t) != "-"
    ensures Eval(x, f, s) == Some(Str(Trim(t)))
  {
    hide Get, Path, Trim;
    TrimIdempotent(t);
  }

  lemma EvalNumber(x: Printer, f: Fields, s: Source, from: seq<string>, t: string, n: int)
    requires ReadsNumber(s, from) && Get(f, Path(from)) == Some(Str(t)) && Trim(t) != "-" && Atoi(Trim(t)) == Ok(n)
    ensures Eval(x, f, s) == Some(Int(n))
  {
    hide Get, Path, Trim, Atoi;
    TrimIdempotent(t);
    NumeralNotEmpty(Trim(t));
  }

  /** Step `i` is the first of the program to write its target, and reads outside the schema. */
  ghost predicate Opens(steps: seq<Step>, i: nat, to: seq<string>) {
    && i < |steps| && (forall j :: 0 <= j < |steps| ==> Target(steps[j].target)) && ReadsOutside(steps[i])
    && (forall j :: 0 <= j < i ==> steps[j].target != steps[i].target) && steps[i].target == to
  }

  lemma TextTaken(x: Printer, steps: seq<Step>, f: Fields, i: nat, from: seq<string>, to: seq<string>)
    requires Opens(steps, i, to) && ReadsText(steps[i].source, from)
    ensures TextArrives(x, steps, f, from, to)
  {
    hide Eval, Run, Get, Path, Target, ReadsOutside, ReadsText, Trim;
    forall t | Get(f, Path(from)) == Some(Str(t)) && Trim(t) != "" && Trim(t) != "-" && Get(f, Path(to)).None?
      ensures Get(Run(x, steps, f), Path(to)) == Some(Str(Trim(t)))
    {
      EvalText(x, f, steps[i].source, from, t);
      TargetTakes(x, steps, f, i);
    }
  }

  lemma NumberTaken(x: Printer, steps: seq<Step>, f: Fields, i: nat, from: seq<string>, to: seq<string>)
    requires Opens(steps, i, to) && ReadsNumber(steps[i].source, from)
    ensures NumberArrives(x, steps, f, from, to)
  {
    hide Eval, Run, Get, Path, Target, ReadsOutside, ReadsNumber, Trim, Atoi;
    forall t, n | Get(f, Path(from)) == Some(Str(t)) && Trim(t) != "-" && Atoi(Trim(t)) == Ok(n) && Get(f, Path(to)).None?
      ensures Get(Run(x, steps, f), Path(to)) == Some(Int(n))
    {
      EvalNumber(x, f, steps[i].source, from, t, n);
      TargetTakes(x, steps, f, i);
    }
  }

  // ---- Tables of fields ----

  /** A field read, the field it becomes, and whether it becomes a number. */
  datatype Field = Field(from: seq<string>, to: seq<string>, numeric: bool)

  predicate Carries(s: Step, field: Field) {
    s.target == field.to && if field.numeric then ReadsNumber(s.source, field.from) else ReadsText(s.source, field.from)
  }

  ghost predicate Arrives(x: Printer, steps: seq<Step>, f: Fields, field: Field) {
    if field.numeric then NumberArrives(x, steps, f, field.from, field.to) else TextArrives(x, steps, f, field.from, field.to)
  }

  /** Enough of a path to tell the targets of a carrier apart. */
  type Mark = (nat, nat, nat, char, char)

  predicate Is(parts: seq<string>, mark: Mark) {
    && |parts| > 1 && parts[|parts| - 1] != ""
    && var last := parts[|parts| - 1]; (|parts|, |parts[0]|, |last|, last[0], last[|last| - 1]) == mark
  }

  /** A program whose first steps, one for each mark, have targets of their own and read outside the schema. */
  ghost predicate Tabled(steps: seq<Step>, marks: seq<Mark>) {
    && |marks| <= |steps| && (forall j :: 0 <= j < |steps| ==> Target(steps[j].target))
    && (forall j :: 0 <= j < |marks| ==> ReadsOutside(steps[j]) && Is(steps[j].target, marks[j]))
    && (forall i, j :: 0 <= i < j < |marks| ==> marks[i] != marks[j])
  }

  lemma FieldArrives(x: Printer, steps: seq<Step>, f: Fields, marks: seq<Mark>, i: nat, field: Field)
    requires Tabled(steps, marks) && i < |marks| && Carries(steps[i], field)
    ensures Arrives(x, steps, f, field)
  {
    hide Eval, Run, Get, Path, Target, ReadsOutside, TextArrives, NumberArrives, ReadsText, ReadsNumber;
    forall j | 0 <= j < i ensures steps[j].target != steps[i].target {
      if steps[j].target == steps[i].target { SameMark(steps[i].target, marks[i], marks[j]); }
    }
    if field.numeric {
      NumberTaken(x, steps, f, i, field.from, field.to);
    } else {
      TextTaken(x, steps, f, i, field.from, field.to);
    }
  }

  lemma SameMark(parts: seq<string>, a: Mark, b: Mark)
    requires Is(parts, a) && Is(parts, b)
    ensures a == b
  {
  }

  lemma TableOf(front: seq<Step>, rest: seq<Step>, marks: seq<Mark>)
    requires CarrierSteps(front + rest) && AllOutside(front) && |marks| <= |front|
    requires forall j :: 0 <= j < |marks| ==> Is(front[j].target, marks[j])
    requires forall i, j :: 0 <= i < j < |marks| ==> marks[i] != marks[j]
    ensures Tabled(front + rest, marks)
  {
    hide Target, ReadsOutside, Is;
    OrderedTargets(front + rest);
    assert forall j :: 0 <= j < |front| ==> (front + rest)[j] == front[j];
  }

  /** From step `k` on, one step of the program for each of the fields. */
  predicate Table(steps: seq<Step>, k: nat, fields: seq<Field>) {
    k + |fields| <= |steps| && forall j :: 0 <= j < |fields| ==> Carries(steps[k + j], fields[j])
  }

  lemma TableArrives(x: Printer, steps: seq<Step>, f: Fields, marks: seq<Mark>, k: nat, fields: seq<Field>)
    requires Tabled(steps, marks) && Table(steps, k, fields) && k + |fields| <= |marks|
    ensures forall j :: 0 <= j < |fields| ==> Arrives(x, steps, f, fields[j])
  {
    hide Tabled, Carries, Arrives;
    forall j | 0 <= j < |fields| ensures Arrives(x, steps, f, fields[j]) {
      FieldArrives(x, steps, f, marks, k + j, fields[j]);
    }
  }

  // ---- CEF ----

  const CEF_FIELDS := [
    Field(Cef("src"), ["source", "ip"], false),
    Field(Cef("dst"), ["destination", "ip"], false),
    Field(Cef("spt"), ["source", "port"], true),
    Field(Cef("dpt"), ["destination", "port"], true),
    Field(Cef("proto"), ["network", "protocol"], false),
    Field(Cef("act"), ["event", "action"], false),
    Field(Cef("cat"), ["event", "category"], false),
    Field(Cef("suser"), ["user", "name"], false),
    Field(Cef("duser"), ["destination", "user", "name"], false)
  ]

  const CEF_MARKS: seq<Mark> := [
    (2, 5, 4, 'k', 'd'), (2, 6, 2, 'i', 'p'), (2, 11, 2, 'i', 'p'), (2, 6, 4, 'p', 't'), (2, 11, 4, 'p', 't'),
    (2, 7, 8, 'p', 'l'), (2, 5, 6, 'a', 'n'), (2, 5, 8, 'c', 'y'), (2, 4, 4, 'n', 'e'), (3, 11, 4, 'n', 'e')
  ]

  lemma CefMarksDiffer()
    ensures |CEF_MARKS| == 10 && forall i, j :: 0 <= i < j < |CEF_MARKS| ==> CEF_MARKS[i] != CEF_MARKS[j]
  {
  }

  lemma CefMarks1()
    ensures Is(CEF_COPIES[0].target, CEF_MARKS[0])
    ensures Is(CEF_COPIES[1].target, CEF_MARKS[1])
    ensures Is(CEF_COPIES[2].target, CEF_MARKS[2])
    ensures Is(CEF_COPIES[3].target, CEF_MARKS[3])
    ensures Is(CEF_COPIES[4].target, CEF_MARKS[4])
  {
  }

  lemma CefMarks2()
    ensures Is(CEF_COPIES[5].target, CEF_MARKS[5])
    ensures Is(CEF_COPIES[6].target, CEF_MARKS[6])
    ensures Is(CEF_COPIES[7].target, CEF_MARKS[7])
    ensures Is(CEF_COPIES[8].target, CEF_MARKS[8])
    ensures Is(CEF_COPIES[9].target, CEF_MARKS[9])
  {
  }

  lemma CefTabled()
    ensures Tabled(CEF_STEPS, CEF_MARKS) && |CEF_MARKS| == 10
  {
    hide *;
    CefParts();
    CefFits();
    CefMarksDiffer();
    CefMarks1();
    CefMarks2();
    CefIsCarrier();
    TableOf(CEF_COPIES, DERIVED, CEF_MARKS);
  }

  lemma CefParts()
    ensures |CEF_COPIES| >= 10 && CEF_STEPS == CEF_COPIES + DERIVED
  {
  }

  lemma CefIsCarrier()
    ensures CarrierSteps(CEF_STEPS)
  {
  }

  lemma CefTable()
    ensures Table(CEF_STEPS, 1, CEF_FIELDS) && |CEF_FIELDS| == 9
  {
    assert |CEF_COPIES| > 9 && CEF_STEPS[1..10] == CEF_COPIES[1..10];
  }

  /** Each extension of a CEF event that says something ends up in its common field, when that was absent. */
  lemma CefFieldsArrive(x: Printer, f: Fields)
    ensures forall k :: 0 <= k < |CEF_FIELDS| ==> Arrives(x, CEF_STEPS, f, CEF_FIELDS[k])
  {
    hide *;
    CefTabled();
    CefTable();
    TableArrives(x, CEF_STEPS, f, CEF_MARKS, 1, CEF_FIELDS);
  }

  // ---- LEEF ----

  const LEEF_FIELDS := [
    Field(Leef("src"), ["source", "ip"], false),
    Field(Leef("dst"), ["destination", "ip"], false),
    Field(Leef("srcPort"), ["source", "port"], true),
    Field(Leef("dstPort"), ["destination", "port"], true),
    Field(Leef("proto"), ["network", "protocol"], false),
    Field(Leef("usrName"), ["user", "name"], false),
    Field(Leef("cat"), ["event", "category"], false),
    Field(Leef("sev"), ["event", "severity"], false),
    Field(Leef("action"), ["event", "action"], false)
  ]

  const LEEF_MARKS: seq<Mark> := [
    (2, 5, 4, 'k', 'd'), (2, 6, 2, 'i', 'p'), (2, 11, 2, 'i', 'p'), (2, 6, 4, 'p', 't'), (2, 11, 4, 'p', 't'),
    (2, 7, 8, 'p', 'l'), (2, 4, 4, 'n', 'e'), (2, 5, 8, 'c', 'y'), (2, 5, 8, 's', 'y'), (2, 5, 6, 'a', 'n')
  ]

  lemma LeefMarksDiffer()
    ensures |LEEF_MARKS| == 10 && forall i, j :: 0 <= i < j < |LEEF_MARKS| ==> LEEF_MARKS[i] != LEEF_MARKS[j]
  {
  }

  lemma LeefMarks1()
    ensures Is(LEEF_COPIES[0].target, LEEF_MARKS[0])
    ensures Is(LEEF_COPIES[1].target, LEEF_MARKS[1])
    ensures Is(LEEF_COPIES[2].target, LEEF_MARKS[2])
    ensures Is(LEEF_COPIES[3].target, LEEF_MARKS[3])
    ensures Is(LEEF_COPIES[4].target, LEEF_MARKS[4])
  {
  }

  lemma LeefMarks2()
    ensures Is(LEEF_COPIES[5].target, LEEF_MARKS[5])
    ensures Is(LEEF_COPIES[6].target, LEEF_MARKS[6])
    ensures Is(LEEF_COPIES[7].target, LEEF_MARKS[7])
    ensures Is(LEEF_COPIES[8].target, LEEF_MARKS[8])
    ensures Is(LEEF_COPIES[9].target, LEEF_MARKS[9])
  {
  }

  lemma LeefTabled()
    ensures Tabled(LEEF_STEPS, LEEF_MARKS) && |LEEF_MARKS| == 10
  {
    hide *;
    LeefParts();
    LeefFits();
    LeefMarksDiffer();
    LeefMarks1();
    LeefMarks2();
    LeefIsCarrier();
    TableOf(LEEF_COPIES, ([LEEF_FALLBACK] + DERIVED), LEEF_MARKS);
  }

  lemma LeefParts()
    ensures |LEEF_COPIES| >= 10 && LEEF_STEPS == LEEF_COPIES + ([LEEF_FALLBACK] + DERIVED)
  {
  }

  lemma LeefIsCarrier()
    ensures CarrierSteps(LEEF_STEPS)
  {
  }

  lemma LeefTable()
    ensures Table(LEEF_STEPS, 1, LEEF_FIELDS) && |LEEF_FIELDS| == 9
  {
    assert |LEEF_COPIES| > 9 && LEEF_STEPS[1..10] == LEEF_COPIES[1..10];
  }

  /** And each extension of a LEEF event. */
  lemma LeefFieldsArrive(x: Printer, f: Fields)
    ensures forall k :: 0 <= k < |LEEF_FIELDS| ==> Arrives(x, LEEF_STEPS, f, LEEF_FIELDS[k])
  {
    hide *;
    LeefTabled();
    LeefTable();
    TableArrives(x, LEEF_STEPS, f, LEEF_MARKS, 1, LEEF_FIELDS);
  }
  // ---- Windows ----

  const SYSTEM_FIELDS := [
    Field(["windows", "system", "eventid"], ["event", "code"], false),
    Field(["windows", "system", "computer"], ["host", "hostname"], false)
  ]

  const DATASET_FIELDS := [
    Field(["windows", "system", "channel"], ["event", "dataset"], false)
  ]

  const ACCOUNT_FIELDS := [
    Field(EventData("TargetUserName"), ["user", "name"], false),
    Field(EventData("TargetDomainName"), ["user", "domain"], false),
    Field(EventData("SubjectUserName"), ["source", "user", "name"], false),
    Field(EventData("SubjectDomainName"), ["source", "user", "domain"], false)
  ]

  const PROCESS_FIELDS := [
    Field(EventData("NewProcessName"), ["process", "executable"], false),
    Field(EventData("CommandLine"), ["process", "command_line"], false),
    Field(EventData("ParentProcessName"), ["process", "parent", "executable"], false),
    Field(EventData("NewProcessId"), ["process", "pid"], false)
  ]

  const NETWORK_FIELDS := [
    Field(EventData("IpAddress"), ["source", "ip"], false),
    Field(EventData("IpPort"), ["source", "port"], true),
    Field(EventData("DestinationIp"), ["destination", "ip"], false),
    Field(EventData("DestinationPort"), ["destination", "port"], true),
    Field(EventData("WorkstationName"), ["source", "hostname"], false)
  ]

  const WINDOWS_MARKS: seq<Mark> := [
    (2, 5, 4, 'k', 'd'), (2, 5, 6, 'm', 'e'), (2, 5, 4, 'c', 'e'), (2, 4, 8, 'h', 'e'), (2, 5, 8, 'p', 'r'),
    (2, 5, 7, 'd', 't'), (2, 4, 4, 'n', 'e'), (2, 4, 6, 'd', 'n'), (3, 6, 4, 'n', 'e'), (3, 6, 6, 'd', 'n'),
    (2, 7, 10, 'e', 'e'), (2, 7, 12, 'c', 'e'), (3, 7, 10, 'e', 'e'), (2, 7, 3, 'p', 'd'), (2, 6, 2, 'i', 'p'),
    (2, 6, 4, 'p', 't'), (2, 11, 2, 'i', 'p'), (2, 11, 4, 'p', 't'), (2, 6, 8, 'h', 'e')
  ]

  lemma WindowsMarksDiffer()
    ensures |WINDOWS_MARKS| == 19 && forall i, j :: 0 <= i < j < |WINDOWS_MARKS| ==> WINDOWS_MARKS[i] != WINDOWS_MARKS[j]
  {
  }

  lemma SystemMarks()
    ensures |WINDOWS_SYSTEM| == 4
    ensures Is(WINDOWS_SYSTEM[0].target, WINDOWS_MARKS[0])
    ensures Is(WINDOWS_SYSTEM[1].target, WINDOWS_MARKS[1])
    ensures Is(WINDOWS_SYSTEM[2].target, WINDOWS_MARKS[2])
    ensures Is(WINDOWS_SYSTEM[3].target, WINDOWS_MARKS[3])
  {
  }

  lemma ProviderMarks()
    ensures |WINDOWS_PROVIDER| == 1
    ensures Is(WINDOWS_PROVIDER[0].target, WINDOWS_MARKS[4])
  {
  }

  lemma DatasetMarks()
    ensures |WINDOWS_DATASET| == 1
    ensures Is(WINDOWS_DATASET[0].target, WINDOWS_MARKS[5])
  {
  }

  lemma AccountMarks()
    ensures |WINDOWS_ACCOUNT| == 4
    ensures Is(WINDOWS_ACCOUNT[0].target, WINDOWS_MARKS[6])
    ensures Is(WINDOWS_ACCOUNT[1].target, WINDOWS_MARKS[7])
    ensures Is(WINDOWS_ACCOUNT[2].target, WINDOWS_MARKS[8])
    ensures Is(WINDOWS_ACCOUNT[3].target, WINDOWS_MARKS[9])
  {
  }

  lemma ProcessMarks()
    ensures |WINDOWS_PROCESS| == 4
    ensures Is(WINDOWS_PROCESS[0].target, WINDOWS_MARKS[10])
    ensures Is(WINDOWS_PROCESS[1].target, WINDOWS_MARKS[11])
    ensures Is(WINDOWS_PROCESS[2].target, WINDOWS_MARKS[12])
    ensures Is(WINDOWS_PROCESS[3].target, WINDOWS_MARKS[13])
  {
  }

  lemma NetworkMarks()
    ensures |WINDOWS_NETWORK| == 5
    ensures Is(WINDOWS_NETWORK[0].target, WINDOWS_MARKS[14])
    ensures Is(WINDOWS_NETWORK[1].target, WINDOWS_MARKS[15])
    ensures Is(WINDOWS_NETWORK[2].target, WINDOWS_MARKS[16])
    ensures Is(WINDOWS_NETWORK[3].target, WINDOWS_MARKS[17])
    ensures Is(WINDOWS_NETWORK[4].target, WINDOWS_MARKS[18])
  {
  }

  /** `block` stands at place `k` of the program. */
  predicate At(steps: seq<Step>, k: nat, block: seq<Step>) {
    k + |block| <= |steps| && steps[k..k + |block|] == block
  }

  lemma AtFront(a: seq<Step>, b: seq<Step>, k: nat, block: seq<Step>)
    requires At(a, k, block)
    ensures At(a + b, k, block)
  {
  }

  lemma BlocksAt()
    ensures At(WINDOWS_COPIES, 0, WINDOWS_SYSTEM) && At(WINDOWS_COPIES, 4, WINDOWS_PROVIDER) && At(WINDOWS_COPIES, 5, WINDOWS_DATASET)
    ensures At(WINDOWS_COPIES, 6, WINDOWS_ACCOUNT) && At(WINDOWS_COPIES, 10, WINDOWS_PROCESS) && At(WINDOWS_COPIES, 14, WINDOWS_NETWORK)
  {
    SystemMarks();
    ProviderMarks();
    DatasetMarks();
    AccountMarks();
    ProcessMarks();
    NetworkMarks();
    WindowsJoins();
    hide WINDOWS_SYSTEM, WINDOWS_PROVIDER, WINDOWS_DATASET, WINDOWS_ACCOUNT, WINDOWS_PROCESS, WINDOWS_NETWORK, WINDOWS_SHELL,
      WINDOWS_ALIASES, WINDOWS_COPIES, WINDOWS_MARKS, Is;
  }

  lemma WindowsJoins()
    ensures WINDOWS_COPIES == (WINDOWS_SYSTEM + WINDOWS_PROVIDER)
                              + (WINDOWS_DATASET + WINDOWS_ACCOUNT + WINDOWS_PROCESS + WINDOWS_NETWORK + WINDOWS_SHELL)
    ensures WINDOWS_STEPS == WINDOWS_COPIES + WINDOWS_MEANING
  {
    hide WINDOWS_SYSTEM, WINDOWS_PROVIDER, WINDOWS_DATASET, WINDOWS_ACCOUNT, WINDOWS_PROCESS, WINDOWS_NETWORK, WINDOWS_SHELL,
      WINDOWS_MEANING;
  }

  lemma MarkedAt(steps: seq<Step>, k: nat, block: seq<Step>, j: nat)
    requires At(steps, k, block) && j < |block|
    ensures steps[k + j] == block[j]
  {
    assert steps[k..k + |block|][j] == block[j];
  }

  lemma WindowsMarked()
    ensures |WINDOWS_COPIES| >= 19 && forall j :: 0 <= j < 19 ==> Is(WINDOWS_COPIES[j].target, WINDOWS_MARKS[j])
  {
    WindowsMarksDiffer();
    SystemMarks();
    ProviderMarks();
    DatasetMarks();
    AccountMarks();
    ProcessMarks();
    NetworkMarks();
    hide *;
    BlocksAt();
    MarkedBlock(WINDOWS_COPIES, 0, WINDOWS_SYSTEM, 0);
    MarkedBlock(WINDOWS_COPIES, 4, WINDOWS_PROVIDER, 4);
    MarkedBlock(WINDOWS_COPIES, 5, WINDOWS_DATASET, 5);
    MarkedBlock(WINDOWS_COPIES, 6, WINDOWS_ACCOUNT, 6);
    MarkedBlock(WINDOWS_COPIES, 10, WINDOWS_PROCESS, 10);
    MarkedBlock(WINDOWS_COPIES, 14, WINDOWS_NETWORK, 14);
  }

  lemma MarkedBlock(steps: seq<Step>, k: nat, block: seq<Step>, m: nat)
    requires At(steps, k, block) && m + |block| <= |WINDOWS_MARKS| && m == k
    requires forall j :: 0 <= j < |block| ==> Is(block[j].target, WINDOWS_MARKS[m + j])
    ensures k + |block| <= |steps| && forall j :: k <= j < k + |block| ==> Is(steps[j].target, WINDOWS_MARKS[j])
  {
    hide Is, WINDOWS_MARKS;
    forall j | k <= j < k + |block| ensures Is(steps[j].target, WINDOWS_MARKS[j]) {
      MarkedAt(steps, k, block, j - k);
      assert Is(block[j - k].target, WINDOWS_MARKS[m + (j - k)]);
    }
  }

  lemma WindowsTabled()
    ensures Tabled(WINDOWS_STEPS, WINDOWS_MARKS) && |WINDOWS_MARKS| == 19
  {
    hide *;
    WindowsJoins();
    WindowsCopiesFit();
    WindowsMarksDiffer();
    WindowsMarked();
    WindowsIsCarrier();
    TableOf(WINDOWS_COPIES, WINDOWS_MEANING, WINDOWS_MARKS);
  }

  lemma WindowsIsCarrier()
    ensures CarrierSteps(WINDOWS_STEPS)
  {
  }

  lemma BlockArrives(x: Printer, f: Fields, k: nat, block: seq<Step>, from: nat, fields: seq<Field>)
    requires At(WINDOWS_COPIES, k, block) && Table(block, from, fields) && k + |block| <= 19
    ensures forall j :: 0 <= j < |fields| ==> Arrives(x, WINDOWS_STEPS, f, fields[j])
  {
    hide Tabled, Carries, Arrives, WINDOWS_COPIES, WINDOWS_STEPS, WINDOWS_MEANING, WINDOWS_MARKS;
    WindowsTabled();
    WindowsJoins();
    AtFront(WINDOWS_COPIES, WINDOWS_MEANING, k, block);
    forall j | 0 <= j < |fields| ensures Arrives(x, WINDOWS_STEPS, f, fields[j]) {
      MarkedAt(WINDOWS_STEPS, k, block, from + j);
      FieldArrives(x, WINDOWS_STEPS, f, WINDOWS_MARKS, k + from + j, fields[j]);
    }
  }

  lemma SystemTable()
    ensures Table(WINDOWS_SYSTEM, 2, SYSTEM_FIELDS)
  {
  }

  lemma DatasetTable()
    ensures Table(WINDOWS_DATASET, 0, DATASET_FIELDS)
  {
  }

  lemma AccountTable()
    ensures Table(WINDOWS_ACCOUNT, 0, ACCOUNT_FIELDS)
  {
  }

  lemma ProcessTable()
    ensures Table(WINDOWS_PROCESS, 0, PROCESS_FIELDS)
  {
  }

  lemma NetworkTable()
    ensures Table(WINDOWS_NETWORK, 0, NETWORK_FIELDS)
  {
  }

  /** And the system fields of a Windows event, and the first event-data field for each common one. */
  lemma WindowsFieldsArrive(x: Printer, f: Fields, fields: seq<Field>)
    requires fields in [SYSTEM_FIELDS, DATASET_FIELDS, ACCOUNT_FIELDS, PROCESS_FIELDS, NETWORK_FIELDS]
    ensures forall k :: 0 <= k < |fields| ==> Arrives(x, WINDOWS_STEPS, f, fields[k])
  {
    hide *;
    BlocksAt();
    SystemTable();
    DatasetTable();
    AccountTable();
    ProcessTable();
    NetworkTable();
    SystemMarks();
    DatasetMarks();
    AccountMarks();
    ProcessMarks();
    NetworkMarks();
    BlockArrives(x, f, 0, WINDOWS_SYSTEM, 2, SYSTEM_FIELDS);
    BlockArrives(x, f, 5, WINDOWS_DATASET, 0, DATASET_FIELDS);
    BlockArrives(x, f, 6, WINDOWS_ACCOUNT, 0, ACCOUNT_FIELDS);
    BlockArrives(x, f, 10, WINDOWS_PROCESS, 0, PROCESS_FIELDS);
    BlockArrives(x, f, 14, WINDOWS_NETWORK, 0, NETWORK_FIELDS);
  }

  // ---- The outcome an action implies ----

  predicate SaysSuccess(action: string) {
    Contains(action, "allow") || Contains(action, "accept") || Contains(action, "permit") || Contains(action, "success")
  }

  predicate SaysFailure(action: string) {
    || Contains(action, "deny") || Contains(action, "denied") || Contains(action, "block") || Contains(action, "drop")
    || Contains(action, "fail") || Contains(action, "reject") || Contains(action, "reset")
  }

  /** What an action says, in whatever letter case: success comes before failure, and most actions say neither. */
  function Implied(x: Printer, action: Value): Option<Value> {
    var a := Lower(SPrint(x, action));
    if SaysSuccess(a) then Some(Str("success")) else if SaysFailure(a) then Some(Str("failure")) else None
  }

  lemma SuccessWords(a: string)
    ensures Mentions(a, ["allow", "accept", "permit", "success"]) <==> SaysSuccess(a)
  {
    hide Contains;
    var w := ["allow", "accept", "permit", "success"];
    assert w[1..] == ["accept", "permit", "success"] && w[1..][1..] == ["permit", "success"];
    assert ["permit", "success"][1..] == ["success"] && ["success"][1..] == [];
    assert !Mentions(a, []) && (Mentions(a, ["success"]) <==> Contains(a, "success"));
    assert Mentions(a, ["permit", "success"]) <==> Contains(a, "permit") || Contains(a, "success");
  }

  lemma FailureWords(a: string)
    ensures Mentions(a, ["deny", "denied", "block", "drop", "fail", "reject", "reset"]) <==> SaysFailure(a)
  {
    hide Contains;
    var w := ["deny", "denied", "block", "drop", "fail", "reject", "reset"];
    assert w[1..] == ["denied", "block", "drop", "fail", "reject", "reset"];
    assert ["denied", "block", "drop", "fail", "reject", "reset"][1..] == ["block", "drop", "fail", "reject", "reset"];
    assert ["block", "drop", "fail", "reject", "reset"][1..] == ["drop", "fail", "reject", "reset"];
    assert ["drop", "fail", "reject", "reset"][1..] == ["fail", "reject", "reset"];
    assert ["fail", "reject", "reset"][1..] == ["reject", "reset"] && ["reject", "reset"][1..] == ["reset"] && ["reset"][1..] == [];
    assert !Mentions(a, []) && (Mentions(a, ["reset"]) <==> Contains(a, "reset"));
    assert Mentions(a, ["reject", "reset"]) <==> Contains(a, "reject") || Contains(a, "reset");
    assert Mentions(a, ["fail", "reject", "reset"]) <==> Contains(a, "fail") || Mentions(a, ["reject", "reset"]);
    assert Mentions(a, ["drop", "fail", "reject", "reset"]) <==> Contains(a, "drop") || Mentions(a, ["fail", "reject", "reset"]);
    var four := ["block", "drop", "fail", "reject", "reset"];
    assert Mentions(a, four) <==> Contains(a, "block") || Mentions(a, ["drop", "fail", "reject", "reset"]);
    assert Mentions(a, ["denied"] + four) <==> Contains(a, "denied") || Mentions(a, four) by { assert (["denied"] + four)[1..] == four; }
    assert w[1..] == ["denied"] + four;
  }

  lemma OutcomeIsImplied(x: Printer, action: Value)
    ensures OutcomeOf(x, action) == Implied(x, action)
  {
    hide Contains, SPrint, Mentions, SaysSuccess, SaysFailure;
    var a := Lower(SPrint(x, action));
    SuccessWords(a);
    FailureWords(a);
    if a == "" { NothingSaid(); }
  }

  lemma NothingSaid()
    ensures !SaysSuccess("") && !SaysFailure("")
  {
  }

  /** The outcome a run leaves, where there was none, is what the action it leaves implies. */
  ghost predicate OutcomeFollows(x: Printer, steps: seq<Step>, f: Fields) {
    var g := Run(x, steps, f);
    Get(f, Path(OUTCOME)).None? ==>
      Get(g, Path(OUTCOME)) == match Get(g, Path(ACTION)) case Some(v) => Implied(x, v) case None => None
  }

  lemma OutcomeDerived(x: Printer, front: seq<Step>, f: Fields)
    requires forall j :: 0 <= j < |front| ==> Target(front[j].target) && front[j].target != OUTCOME
    ensures OutcomeFollows(x, front + DERIVED, f)
  {
    SchemaFits();
    EventTargets();
    ActionIsNotOutcome();
    hide Eval, Run, Get, Path, Target, Apply, OutcomeOf, Implied;
    var g := Run(x, front, f);
    RunLeaves(x, front, f, OUTCOME);
    RunSplit(x, front, DERIVED, f);
    RunTwo(x, DERIVED[0], DERIVED[1], g);
    var h := Apply(x, g, DERIVED[0]);
    if Get(g, Path(OUTCOME)).None? { OutcomeStep(x, g); }
    assert DERIVED[0].target == OUTCOME && DERIVED[1].target == ["event", "provider"];
    ApplyElsewhere(x, g, DERIVED[0], ACTION);
    ApplyElsewhere(x, h, DERIVED[1], OUTCOME);
    ApplyElsewhere(x, h, DERIVED[1], ACTION);
  }

  lemma ActionIsNotOutcome()
    ensures ACTION != OUTCOME && ["event", "provider"] != OUTCOME && ["event", "provider"] != ACTION
  {
    assert ACTION[1][0] == 'a' && OUTCOME[1][0] == 'o' && ["event", "provider"][1][0] == 'p';
  }

  lemma OutcomeStep(x: Printer, f: Fields)
    requires Target(OUTCOME) && Get(f, Path(OUTCOME)).None?
    ensures Get(Apply(x, f, Step(OUTCOME, Outcome)), Path(OUTCOME))
         == match Get(f, Path(ACTION)) case Some(v) => Implied(x, v) case None => None
  {
    hide Get, Path, Target, OutcomeOf, Implied, Apply;
    var v := Get(f, Path(ACTION));
    if v.Some? { OutcomeIsImplied(x, v.value); }
    if Eval(x, f, Outcome).Some? {
      AppliedValue(x, f, Step(OUTCOME, Outcome));
    } else {
      NothingToSet(x, f, Step(OUTCOME, Outcome));
    }
  }

  lemma FrontLeavesOutcome(front: seq<Step>, marks: seq<Mark>)
    requires |marks| == 10 && |front| == 11 && front[10].target == ACTION && AllOutside(front[..10])
    requires forall j :: 0 <= j < 10 ==> Is(front[j].target, marks[j]) && marks[j] != (2, 5, 7, 'o', 'e')
    ensures forall j :: 0 <= j < |front| ==> Target(front[j].target) && front[j].target != OUTCOME
  {
    SchemaFits();
    ActionIsNotOutcome();
    OutcomeMark();
    hide Target, Foreign, Is;
    forall j | 0 <= j < |front| ensures Target(front[j].target) && front[j].target != OUTCOME {
      if j < 10 {
        assert ReadsOutside(front[..10][j]);
        if front[j].target == OUTCOME { SameMark(OUTCOME, marks[j], (2, 5, 7, 'o', 'e')); }
      }
    }
  }

  lemma OutcomeMark()
    ensures Is(OUTCOME, (2, 5, 7, 'o', 'e'))
  {
  }

  lemma CefFront()
    ensures |CEF_COPIES| == 11 && CEF_COPIES[10].target == ACTION
    ensures forall j :: 0 <= j < |CEF_MARKS| ==> CEF_MARKS[j] != (2, 5, 7, 'o', 'e')
  {
  }

  lemma LeefFront()
    ensures |LEEF_COPIES| == 10 && LEEF_FALLBACK.target == ACTION
    ensures forall j :: 0 <= j < |LEEF_MARKS| ==> LEEF_MARKS[j] != (2, 5, 7, 'o', 'e')
  {
  }

  /** After the CEF and the LEEF normaliser the outcome, where there was none, is what the action says. */
  lemma OutcomesFollow(x: Printer, f: Fields)
    ensures OutcomeFollows(x, CEF_STEPS, f) && OutcomeFollows(x, LEEF_STEPS, f)
  {
    hide *;
    CefFront();
    LeefFront();
    CefFits();
    LeefFits();
    CefParts();
    LeefParts();
    CefMarksDiffer();
    LeefMarksDiffer();
    CefMarks1();
    CefMarks2();
    LeefMarks1();
    LeefMarks2();
    OutsideFront(CEF_COPIES);
    FrontLeavesOutcome(CEF_COPIES, CEF_MARKS);
    OutcomeDerived(x, CEF_COPIES, f);
    var front := LEEF_COPIES + [LEEF_FALLBACK];
    assert front[..10] == LEEF_COPIES && LEEF_STEPS == front + DERIVED;
    assert forall j :: 0 <= j < 10 ==> front[j] == LEEF_COPIES[j];
    FrontLeavesOutcome(front, LEEF_MARKS);
    OutcomeDerived(x, front, f);
  }

  lemma OutsideFront(steps: seq<Step>)
    requires AllOutside(steps) && |steps| >= 10
    ensures AllOutside(steps[..10])
  {
    hide ReadsOutside;
  }
}
