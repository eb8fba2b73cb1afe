/** What the Windows events that the agent knows mean: the category, action and outcome they end with. */
module WindowsMeanings {
  import opened Text
  import opened Wrappers
  import opened FieldStore
  import opened Normalizers
  import opened Carriers
  import opened CarrierFields

  /** An event: its code, a word its provider must hold, and what it means. */
  datatype Meant = Meant(code: string, maker: string, category: string, action: string, outcome: string)

  const EVENTS := [
    Meant("4624", "", "authentication", "logon_success", "success"),
    Meant("4625", "", "authentication", "logon_failure", "failure"),
    Meant("4634", "", "authentication", "logoff", "success"),
    Meant("4647", "", "authentication", "logoff", "success"),
    Meant("4688", "", "process", "process_start", "success"),
    Meant("4689", "", "process", "process_end", "success"),
    Meant("1", "sysmon", "process", "process_start", "success"),
    Meant("3", "sysmon", "network", "network_connection", "success"),
    Meant("4103", "powershell", "process", "powershell_pipeline", "success"),
    Meant("4104", "powershell", "process", "powershell_script_block", "success")
  ]

  /** In whatever letter case. */
  predicate Holds(provider: string, word: string) {
    word == "" || Contains(Lower(Trim(provider)), word)
  }

  /** An event of the code and provider is `e`. */
  predicate Fits(code: string, provider: string, e: Meant) {
    code == e.code && Holds(provider, e.maker)
  }

  lemma EventIsKnown(code: string, provider: string, i: nat)
    requires i < |EVENTS| && Fits(code, provider, EVENTS[i])
    ensures var e := EVENTS[i]; Known(code, provider) == Some((e.category, e.action, e.outcome))
  {
    hide Contains, Lower, Trim;
  }

  lemma KnownIsEvent(code: string, provider: string)
    requires Known(code, provider).Some?
    ensures exists i :: 0 <= i < |EVENTS| && Fits(code, provider, EVENTS[i])
  {
    hide Contains, Lower, Trim;
    assert |EVENTS| == 10;
    if code == "4624" { assert Fits(code, provider, EVENTS[0]); }
    else if code == "4625" { assert Fits(code, provider, EVENTS[1]); }
    else if code == "4634" { assert Fits(code, provider, EVENTS[2]); }
    else if code == "4647" { assert Fits(code, provider, EVENTS[3]); }
    else if code == "4688" { assert Fits(code, provider, EVENTS[4]); }
    else if code == "4689" { assert Fits(code, provider, EVENTS[5]); }
    else if code == "1" { assert Fits(code, provider, EVENTS[6]); }
    else if code == "3" { assert Fits(code, provider, EVENTS[7]); }
    else if code == "4103" { assert Fits(code, provider, EVENTS[8]); }
    else if code == "4104" { assert Fits(code, provider, EVENTS[9]); }
  }

  // ---- The three fields ----

  /** The field at `r` is what it was, or the text given where it was missing. */
  ghost predicate Became(f: Fields, g: Fields, r: seq<string>, t: string) {
    Get(g, Path(r)) == if Get(f, Path(r)).Some? then Get(f, Path(r)) else Some(Str(t))
  }

  ghost predicate Stayed(f: Fields, g: Fields, r: seq<string>) {
    Get(g, Path(r)) == Get(f, Path(r))
  }

  const FIELDS := [CATEGORY, ACTION, OUTCOME]

  lemma FieldsApart()
    ensures |FIELDS| == 3 && FIELDS[0] == CATEGORY && FIELDS[1] == ACTION && FIELDS[2] == OUTCOME
    ensures CATEGORY != ACTION && CATEGORY != OUTCOME && ACTION != OUTCOME
    ensures CODE != CATEGORY && CODE != ACTION && CODE != OUTCOME
    ensures Is(CATEGORY, (2, 5, 8, 'c', 'y')) && Is(ACTION, (2, 5, 6, 'a', 'n')) && Is(OUTCOME, (2, 5, 7, 'o', 'e'))
  {
    assert CATEGORY[1][0] == 'c' && ACTION[1][0] == 'a' && OUTCOME[1][0] == 'o' && CODE[1][1] == 'o' && CATEGORY[1][1] == 'a';
    assert CODE[1][0] == 'c' && |CODE[1]| == 4;
  }

  lemma MarksApart()
    ensures forall j :: 0 <= j < |WINDOWS_MARKS| ==>
      WINDOWS_MARKS[j] != (2, 5, 8, 'c', 'y') && WINDOWS_MARKS[j] != (2, 5, 6, 'a', 'n') && WINDOWS_MARKS[j] != (2, 5, 7, 'o', 'e')
  {
  }

  lemma LastCopy()
    ensures |WINDOWS_COPIES| == 20 && Is(WINDOWS_COPIES[19].target, (2, 7, 12, 'c', 'e'))
  {
    SystemMarks();
    ProviderMarks();
    DatasetMarks();
    AccountMarks();
    ProcessMarks();
    NetworkMarks();
    ShellMark();
    WindowsJoins();
    hide WINDOWS_SYSTEM, WINDOWS_PROVIDER, WINDOWS_DATASET, WINDOWS_ACCOUNT, WINDOWS_PROCESS, WINDOWS_NETWORK, WINDOWS_SHELL,
      WINDOWS_ALIASES, WINDOWS_COPIES, WINDOWS_MARKS, Is;
  }

  lemma ShellMark()
    ensures |WINDOWS_SHELL| == 1 && Is(WINDOWS_SHELL[0].target, (2, 7, 12, 'c', 'e'))
  {
  }

  lemma CopiesElsewhere(r: seq<string>)
    requires r in FIELDS
    ensures forall j :: 0 <= j < |WINDOWS_COPIES| ==> Target(WINDOWS_COPIES[j].target) && WINDOWS_COPIES[j].target != r
  {
    MarksApart();
    FieldsApart();
    WindowsMarksDiffer();
    hide *;
    WindowsMarked();
    LastCopy();
    CopiesTarget();
    forall j | 0 <= j < |WINDOWS_COPIES| ensures WINDOWS_COPIES[j].target != r {
      if WINDOWS_COPIES[j].target == r { MarkOfField(r, if j < 19 then WINDOWS_MARKS[j] else (2, 7, 12, 'c', 'e')); }
    }
  }

  lemma CopiesTarget()
    ensures forall j :: 0 <= j < |WINDOWS_COPIES| ==> Target(WINDOWS_COPIES[j].target)
  {
    hide Target, Foreign, Reads;
    WindowsCopiesFit();
    forall j | 0 <= j < |WINDOWS_COPIES| ensures Target(WINDOWS_COPIES[j].target) { assert ReadsOutside(WINDOWS_COPIES[j]); }
  }

  lemma MarkOfField(r: seq<string>, m: Mark)
    requires r in FIELDS && Is(r, m)
    ensures m in [(2, 5, 8, 'c', 'y'), (2, 5, 6, 'a', 'n'), (2, 5, 7, 'o', 'e')]
  {
    FieldsApart();
    hide Is, FIELDS, CATEGORY, ACTION, OUTCOME, CODE;
    if r == CATEGORY { SameMark(r, m, (2, 5, 8, 'c', 'y')); }
    else if r == ACTION { SameMark(r, m, (2, 5, 6, 'a', 'n')); }
    else { SameMark(r, m, (2, 5, 7, 'o', 'e')); }
  }

  lemma StepBecomes(x: Printer, f: Fields, s: Step, t: string)
    requires Target(s.target) && Eval(x, f, s.source) == Some(Str(t))
    ensures Became(f, Apply(x, f, s), s.target, t)
  {
    hide Eval, Get, Path, Target, Set;
    if Get(f, Path(s.target)).None? { AppliedValue(x, f, s); }
  }

  /** The last three steps give the three fields the meaning of the event, and leave its code alone. */
  lemma MeaningBecomes(x: Printer, f: Fields)
    ensures var g := Run(x, WINDOWS_MEANING, f);
            && Stayed(f, g, CODE)
            && match Known(TextAt(x, f, CODE), Provider(x, f))
               case Some((category, action, outcome)) =>
                 Became(f, g, CATEGORY, category) && Became(f, g, ACTION, action) && Became(f, g, OUTCOME, outcome)
               case None => g == f
  {
    hide Run, Target, Foreign, Get, Path, Known, Scalar, Apply, CATEGORY, ACTION, OUTCOME, CODE, FIELDS, Provider, TextAt;
    var a, b, c := WINDOWS_MEANING[0], WINDOWS_MEANING[1], WINDOWS_MEANING[2];
    RunThree(x, a, b, c, f);
    FieldList();
    var g := Apply(x, f, a);
    MeaningAgrees(x, f, a);
    MeaningAgrees(x, g, b);
    MeaningAgrees(x, Apply(x, g, b), c);
    if Known(TextAt(x, f, CODE), Provider(x, f)).Some? {
      ThreeBecome(x, f, a, b, c, Known(TextAt(x, f, CODE), Provider(x, f)).value);
    } else {
      NothingToSet(x, f, a);
      NothingToSet(x, f, b);
      NothingToSet(x, f, c);
    }
  }

  /** A field of the meaning that is set changes neither the code nor the provider. */
  lemma MeaningAgrees(x: Printer, f: Fields, s: Step)
    requires s.target in FIELDS
    ensures var g := Apply(x, f, s);
            Stayed(f, g, CODE) && TextAt(x, g, CODE) == TextAt(x, f, CODE) && Provider(x, g) == Provider(x, f)
  {
    SchemaFits();
    FieldsApart();
    hide Apply, Target, Foreign, Get, Path, Scalar, CATEGORY, ACTION, OUTCOME, CODE, PROVIDER, Is;
    ForeignIsNoTarget(PROVIDER, s.target);
    ApplyElsewhere(x, f, s, CODE);
    ApplyElsewhere(x, f, s, PROVIDER);
  }

  lemma FieldList()
    ensures CATEGORY in FIELDS && ACTION in FIELDS && OUTCOME in FIELDS
  {
    FieldsApart();
    hide FIELDS, CATEGORY, ACTION, OUTCOME, CODE, Is;
  }

  lemma ThreeBecome(x: Printer, f: Fields, a: Step, b: Step, c: Step, k: (string, string, string))
    requires a == Step(CATEGORY, Meaning(Category)) && b == Step(ACTION, Meaning(Action)) && c == Step(OUTCOME, Meaning(Result))
    requires Known(TextAt(x, f, CODE), Provider(x, f)) == Some(k)
    ensures var g := Apply(x, Apply(x, Apply(x, f, a), b), c);
            Became(f, g, CATEGORY, k.0) && Became(f, g, ACTION, k.1) && Became(f, g, OUTCOME, k.2)
  {
    SchemaFits();
    FieldsApart();
    hide Target, Foreign, Get, Path, Known, Scalar, Apply, CATEGORY, ACTION, OUTCOME, CODE, PROVIDER, Is, FIELDS, Provider, TextAt;
    var g := Apply(x, f, a);
    var h := Apply(x, g, b);
    assert CATEGORY in FIELDS && ACTION in FIELDS by { FieldList(); }
    MeaningAgrees(x, f, a);
    MeaningAgrees(x, g, b);
    StepBecomes(x, f, a, k.0);
    StepBecomes(x, g, b, k.1);
    StepBecomes(x, h, c, k.2);
    ApplyElsewhere(x, f, a, ACTION);
    ApplyElsewhere(x, f, a, OUTCOME);
    ApplyElsewhere(x, g, b, CATEGORY);
    ApplyElsewhere(x, g, b, OUTCOME);
    ApplyElsewhere(x, h, c, CATEGORY);
    ApplyElsewhere(x, h, c, ACTION);
  }

  // ---- The whole program ----

  lemma CopiesLeave(x: Printer, f: Fields)
    ensures var h := Run(x, WINDOWS_COPIES, f);
            Stayed(f, h, CATEGORY) && Stayed(f, h, ACTION) && Stayed(f, h, OUTCOME) && Provider(x, h) == Provider(x, f)
  {
    SchemaFits();
    FieldList();
    hide Run, Get, Path, Target, Foreign, CATEGORY, ACTION, OUTCOME, PROVIDER, CODE, FIELDS, WINDOWS_COPIES;
    CopiesElsewhere(CATEGORY);
    CopiesElsewhere(ACTION);
    CopiesElsewhere(OUTCOME);
    RunLeaves(x, WINDOWS_COPIES, f, CATEGORY);
    RunLeaves(x, WINDOWS_COPIES, f, ACTION);
    RunLeaves(x, WINDOWS_COPIES, f, OUTCOME);
    RunKeeps(x, WINDOWS_COPIES, f, PROVIDER);
  }

  /** After the Windows normaliser an event that the agent knows, by the code it has then and its provider, has the
      category, action and outcome of that event where it had none. */
  lemma KnownEventMeans(x: Printer, f: Fields, i: nat)
    requires i < |EVENTS|
    requires Fits(TextAt(x, Run(x, WINDOWS_STEPS, f), CODE), Provider(x, f), EVENTS[i])
    ensures var g, e := Run(x, WINDOWS_STEPS, f), EVENTS[i];
            Became(f, g, CATEGORY, e.category) && Became(f, g, ACTION, e.action) && Became(f, g, OUTCOME, e.outcome)
  {
    hide Run, Get, Path, Known, Scalar, Provider, Fits, EVENTS, CATEGORY, ACTION, OUTCOME, CODE, WINDOWS_COPIES,
      WINDOWS_MEANING, WINDOWS_STEPS;
    WindowsJoins();
    RunSplit(x, WINDOWS_COPIES, WINDOWS_MEANING, f);
    var h := Run(x, WINDOWS_COPIES, f);
    CopiesLeave(x, f);
    MeaningBecomes(x, h);
    EventIsKnown(TextAt(x, h, CODE), Provider(x, f), i);
  }

  /** Any other event keeps the three as they are. */
  lemma OtherEventStays(x: Printer, f: Fields)
    requires forall i :: 0 <= i < |EVENTS| ==> !Fits(TextAt(x, Run(x, WINDOWS_STEPS, f), CODE), Provider(x, f), EVENTS[i])
    ensures var g := Run(x, WINDOWS_STEPS, f);
            Stayed(f, g, CATEGORY) && Stayed(f, g, ACTION) && Stayed(f, g, OUTCOME)
  {
    hide Run, Get, Path, Known, Scalar, Provider, Fits, EVENTS, CATEGORY, ACTION, OUTCOME, CODE, WINDOWS_COPIES,
      WINDOWS_MEANING, WINDOWS_STEPS;
    WindowsJoins();
    RunSplit(x, WINDOWS_COPIES, WINDOWS_MEANING, f);
    var h := Run(x, WINDOWS_COPIES, f);
    CopiesLeave(x, f);
    MeaningBecomes(x, h);
    if Known(TextAt(x, h, CODE), Provider(x, f)).Some? { KnownIsEvent(TextAt(x, h, CODE), Provider(x, f)); }
  }
}
