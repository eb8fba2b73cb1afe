/** The three carriers: their normalisers as written, the programs of steps they amount to, and what
    follows for each of them. */
module Carriers {
  import opened Text
  import opened FieldStore
  import opened Normalizers

  function Cef(key: string): seq<string> {
    ["cef", "extensions", key]
  }

  function Leef(key: string): seq<string> {
    ["leef", "extensions", key]
  }

  const CEF_COPIES := [
    Step(["event", "kind"], Const("event")),
    Step(["source", "ip"], Copy(Cef("src"))),
    Step(["destination", "ip"], Copy(Cef("dst"))),
    Step(["source", "port"], CopyInt(Cef("spt"))),
    Step(["destination", "port"], CopyInt(Cef("dpt"))),
    Step(["network", "protocol"], Copy(Cef("proto"))),
    Step(ACTION, Copy(Cef("act"))),
    Step(CATEGORY, Copy(Cef("cat"))),
    Step(["user", "name"], Copy(Cef("suser"))),
    Step(["destination", "user", "name"], Copy(Cef("duser"))),
    Step(ACTION, Copy(["rule", "name"]))
  ]

  const LEEF_COPIES := [
    Step(["event", "kind"], Const("event")),
    Step(["source", "ip"], Copy(Leef("src"))),
    Step(["destination", "ip"], Copy(Leef("dst"))),
    Step(["source", "port"], CopyInt(Leef("srcPort"))),
    Step(["destination", "port"], CopyInt(Leef("dstPort"))),
    Step(["network", "protocol"], Copy(Leef("proto"))),
    Step(["user", "name"], Copy(Leef("usrName"))),
    Step(CATEGORY, Copy(Leef("cat"))),
    Step(["event", "severity"], Copy(Leef("sev"))),
    Step(ACTION, Copy(Leef("action")))
  ]

  const LEEF_FALLBACK := Step(ACTION, Copy(CODE))

  /** Both end by deriving an outcome from the action and naming the provider. */
  const DERIVED := [
    Step(OUTCOME, Outcome),
    Step(["event", "provider"], VendorProduct)
  ]

  const CEF_STEPS := CEF_COPIES + DERIVED

  const LEEF_STEPS := LEEF_COPIES + ([LEEF_FALLBACK] + DERIVED)

  const WINDOWS_SYSTEM := [
    Step(["event", "kind"], Const("event")),
    Step(["event", "module"], Const("windows")),
    Step(CODE, Plain(["windows", "system", "eventid"])),
    Step(["host", "hostname"], Plain(["windows", "system", "computer"]))
  ]

  const WINDOWS_PROVIDER := [
    Step(["event", "provider"], ProviderName)
  ]

  const WINDOWS_DATASET := [
    Step(["event", "dataset"], Plain(["windows", "system", "channel"]))
  ]

  const WINDOWS_ACCOUNT := [
    Step(["user", "name"], First(["TargetUserName", "AccountName", "User"])),
    Step(["user", "domain"], First(["TargetDomainName", "AccountDomain"])),
    Step(["source", "user", "name"], First(["SubjectUserName"])),
    Step(["source", "user", "domain"], First(["SubjectDomainName"]))
  ]

  const WINDOWS_PROCESS := [
    Step(["process", "executable"], First(["NewProcessName", "ProcessName", "Image"])),
    Step(["process", "command_line"], First(["CommandLine", "ProcessCommandLine"])),
    Step(["process", "parent", "executable"], First(["ParentProcessName", "ParentImage"])),
    Step(["process", "pid"], First(["NewProcessId", "ProcessId", "ProcessID"]))
  ]

  const WINDOWS_NETWORK := [
    Step(["source", "ip"], First(["IpAddress", "SourceIp", "SourceAddress", "SourceIP"])),
    Step(["source", "port"], FirstInt(["IpPort", "SourcePort"])),
    Step(["destination", "ip"], First(["DestinationIp", "DestinationIP", "DestIp", "DestIP"])),
    Step(["destination", "port"], FirstInt(["DestinationPort", "DestPort"])),
    Step(["source", "hostname"], First(["WorkstationName", "SourceHostname"]))
  ]

  const WINDOWS_SHELL := [
    Step(["process", "command_line"], First(["ScriptBlockText", "Command"]))
  ]

  const WINDOWS_MEANING := [
    Step(CATEGORY, Meaning(Category)),
    Step(ACTION, Meaning(Action)),
    Step(OUTCOME, Meaning(Result))
  ]

  const WINDOWS_ALIASES := WINDOWS_DATASET + WINDOWS_ACCOUNT + WINDOWS_PROCESS + WINDOWS_NETWORK + WINDOWS_SHELL

  const WINDOWS_COPIES := (WINDOWS_SYSTEM + WINDOWS_PROVIDER) + WINDOWS_ALIASES

  const WINDOWS_STEPS := WINDOWS_COPIES + WINDOWS_MEANING

  predicate AllCopy(steps: seq<Step>) {
    forall i :: 0 <= i < |steps| ==>
      var s := steps[i].source;
      s.Const? || s.Copy? || s.CopyInt? || s.Plain? || s.First? || s.FirstInt?
  }

  // ---- The normalisers as written ----

  class Event {
    var fields: Fields

    constructor (fields: Fields)
      ensures this.fields == fields
    {
      this.fields := fields;
    }

    method SetIfMissing(path: seq<string>, v: Value)
      modifies this
      ensures fields == SetIfAbsent(old(fields), Path(path), v)
    {
      hide Get, Set, Path;
      var found := GetField(fields, Path(path));
      if found.None? {
        fields := SetField(fields, Path(path), v);
      }
    }

    method CopyString(x: Printer, source: seq<string>, target: seq<string>)
      modifies this
      ensures fields == Apply(x, old(fields), Step(target, Copy(source)))
    {
      hide Get, Set, Path, SetIfAbsent;
      var found := GetField(fields, Path(source));
      if found.None? {
        return;
      }
      var text := SPrint(x, found.value);
      if text == "" || text == "-" {
        return;
      }
      SetIfMissing(target, Str(text));
    }

    method CopyNumber(x: Printer, source: seq<string>, target: seq<string>)
      modifies this
      ensures fields == Apply(x, old(fields), Step(target, CopyInt(source)))
    {
      hide Get, Set, Path, SetIfAbsent, Atoi, Trim;
      var found := GetField(fields, Path(source));
      if found.None? {
        return;
      }
      var raw := SPrint(x, found.value);
      if raw == "" || raw == "-" {
        return;
      }
      TrimIdempotent(if found.value.Str? then found.value.text else x.sprint(found.value));
      var parsed := Atoi(raw);
      if parsed.Err? {
        return;
      }
      SetIfMissing(target, Int(parsed.value));
    }

    method SetOutcome(x: Printer)
      modifies this
      ensures fields == Apply(x, old(fields), Step(OUTCOME, Outcome))
    {
      hide Get, Set, Path, SPrint, Lower, Mentions;
      var present := GetField(fields, Path(OUTCOME));
      if present.Some? {
        return;
      }
      var found := GetField(fields, Path(ACTION));
      if found.None? {
        return;
      }
      var action := Lower(SPrint(x, found.value));
      if action == "" {
        return;
      }
      if Mentions(action, ["allow", "accept", "permit", "success"]) {
        SetIfMissing(OUTCOME, Str("success"));
      } else if Mentions(action, ["deny", "denied", "block", "drop", "fail", "reject", "reset"]) {
        SetIfMissing(OUTCOME, Str("failure"));
      }
    }

    method SetProvider(x: Printer)
      modifies this
      ensures fields == Apply(x, old(fields), Step(["event", "provider"], VendorProduct))
    {
      hide Get, Set, Path, SPrint, SetIfAbsent;
      var vendor := GetField(fields, Path(VENDOR));
      if vendor.Some? {
        var product := GetField(fields, Path(PRODUCT));
        if product.Some? {
          SetIfMissing(["event", "provider"], Str(SPrint(x, vendor.value) + "/" + SPrint(x, product.value)));
        }
      }
    }

    method Derive(x: Printer)
      modifies this
      ensures fields == Run(x, DERIVED, old(fields))
    {
      hide Apply;
      SetOutcome(x);
      SetProvider(x);
      RunTwo(x, DERIVED[0], DERIVED[1], old(fields));
    }

    method SetConstant(x: Printer, target: seq<string>, text: string)
      modifies this
      ensures fields == Apply(x, old(fields), Step(target, Const(text)))
    {
      hide Path, Get, Set;
      SetIfMissing(target, Str(text));
    }

    method FieldText(x: Printer, path: seq<string>) returns (text: string)
      ensures text == TextAt(x, fields, path)
    {
      hide Get, Path, Scalar;
      var found := GetField(fields, Path(path));
      text := if found.None? then "" else Scalar(x, found.value);
    }

    method EventDataText(x: Printer, keys: seq<string>) returns (text: string)
      ensures text == FirstText(x, fields, keys)
    {
      hide TextAt, EventData;
      for i := 0 to |keys|
        invariant FirstText(x, fields, keys) == FirstText(x, fields, keys[i..])
      {
        var value := FieldText(x, EventData(keys[i]));
        if value != "" {
          return value;
        }
        assert keys[i..][1..] == keys[i + 1..];
      }
      text := "";
    }

    method CopyText(x: Printer, path: seq<string>, target: seq<string>)
      modifies this
      ensures fields == Apply(x, old(fields), Step(target, Plain(path)))
    {
      hide TextAt, Path, SetIfAbsent;
      var text := FieldText(x, path);
      if text != "" {
        SetIfMissing(target, Str(text));
      }
    }

    method CopyEventData(x: Printer, keys: seq<string>, target: seq<string>)
      modifies this
      ensures fields == Apply(x, old(fields), Step(target, First(keys)))
    {
      hide FirstText, Path, SetIfAbsent;
      var text := EventDataText(x, keys);
      if text != "" && text != "-" {
        SetIfMissing(target, Str(text));
      }
    }

    method CopyEventNumber(x: Printer, keys: seq<string>, target: seq<string>)
      modifies this
      ensures fields == Apply(x, old(fields), Step(target, FirstInt(keys)))
    {
      hide FirstText, Path, SetIfAbsent, Atoi, Trim;
      var text := EventDataText(x, keys);
      if text != "" && text != "-" {
        var parsed := Atoi(Trim(text));
        if parsed.Ok? {
          SetIfMissing(target, Int(parsed.value));
        }
      }
    }

    /** The copying calls of a normaliser, in order. */
    method CopyAll(x: Printer, steps: seq<Step>)
      requires AllCopy(steps)
      modifies this
      ensures fields == Run(x, steps, old(fields))
    {
      hide Apply;
      for i := 0 to |steps|
        invariant fields == Run(x, steps[..i], old(fields))
      {
        assert steps[..i + 1][..i] == steps[..i];
        match steps[i].source {
          case Const(t) => SetConstant(x, steps[i].target, t);
          case Copy(p) => CopyString(x, p, steps[i].target);
          case CopyInt(p) => CopyNumber(x, p, steps[i].target);
          case Plain(p) => CopyText(x, p, steps[i].target);
          case First(keys) => CopyEventData(x, keys, steps[i].target);
          case FirstInt(keys) => CopyEventNumber(x, keys, steps[i].target);
        }
      }
      assert steps[..|steps|] == steps;
    }

    method NormalizeCEF(x: Printer)
      modifies this
      ensures fields == Run(x, CEF_STEPS, old(fields))
    {
      hide Run;
      CopyAll(x, CEF_COPIES);
      Derive(x);
      RunSplit(x, CEF_COPIES, DERIVED, old(fields));
    }

    method NormalizeLEEF(x: Printer)
      modifies this
      ensures fields == Run(x, LEEF_STEPS, old(fields))
    {
      hide Run, Apply;
      CopyAll(x, LEEF_COPIES);
      label copied:
      CopyString(x, CODE, ACTION);
      RunOne(x, LEEF_FALLBACK, old@copied(fields));
      Derive(x);
      RunSplit(x, [LEEF_FALLBACK], DERIVED, old@copied(fields));
      RunSplit(x, LEEF_COPIES, [LEEF_FALLBACK] + DERIVED, old(fields));
    }

    method ProviderText(x: Printer) returns (provider: string)
      ensures provider == Provider(x, fields)
    {
      hide Get, Path, Trim;
      var raw := GetField(fields, Path(PROVIDER));
      provider := "";
      if raw.Some? {
        match raw.value
        case Str(t) => provider := Trim(t);
        case Obj(m) => provider := Trim(x.provider(m));
        case _ =>
      }
    }

    /** Category, action and outcome by event code; the code and the provider were read before any is set. */
    method SetMeaning(x: Printer, provider: string)
      requires provider == Provider(x, fields)
      modifies this
      ensures fields == Run(x, WINDOWS_MEANING, old(fields))
    {
      hide Get, Path, Known, Provider, TextAt, SetIfAbsent;
      var code := FieldText(x, CODE);
      var known := Known(code, provider);
      MeaningsStand(x, fields);
      if known.Some? {
        SetIfMissing(CATEGORY, Str(known.value.0));
        SetIfMissing(ACTION, Str(known.value.1));
        SetIfMissing(OUTCOME, Str(known.value.2));
      }
    }

    method NameProvider(x: Printer) returns (provider: string)
      modifies this
      ensures provider == Provider(x, old(fields)) == Provider(x, fields)
      ensures fields == Run(x, WINDOWS_PROVIDER, old(fields))
    {
      hide Run, Apply, Provider, SetIfAbsent, AllOutside, Path;
      provider := ProviderText(x);
      if provider != "" {
        SetIfMissing(["event", "provider"], Str(provider));
      }
      ProviderStep(x, old(fields));
      ProviderFits();
      ProviderStands(x, old(fields), WINDOWS_PROVIDER);
    }

    method CopyAliases(x: Printer)
      modifies this
      ensures fields == Run(x, WINDOWS_ALIASES, old(fields))
      ensures Provider(x, fields) == Provider(x, old(fields))
    {
      hide Run, Apply, Provider, AllOutside, AllCopy;
      AliasesCopy();
      CopyAll(x, WINDOWS_ALIASES);
      AliasesFit();
      ProviderStands(x, old(fields), WINDOWS_ALIASES);
    }

    method NormalizeWindows(x: Printer)
      modifies this
      ensures fields == Run(x, WINDOWS_STEPS, old(fields))
    {
      hide Run, Apply, Provider, AllOutside, AllCopy;
      SystemCopies();
      CopyAll(x, WINDOWS_SYSTEM);
      var provider := NameProvider(x);
      RunSplit(x, WINDOWS_SYSTEM, WINDOWS_PROVIDER, old(fields));
      CopyAliases(x);
      RunSplit(x, WINDOWS_SYSTEM + WINDOWS_PROVIDER, WINDOWS_ALIASES, old(fields));
      SetMeaning(x, provider);
      RunSplit(x, WINDOWS_COPIES, WINDOWS_MEANING, old(fields));
    }
  }

  lemma SystemCopies()
    ensures AllCopy(WINDOWS_SYSTEM)
  {
  }

  lemma CopyConcat(a: seq<Step>, b: seq<Step>)
    requires AllCopy(a) && AllCopy(b)
    ensures AllCopy(a + b)
  {
  }

  lemma AliasesCopy()
    ensures AllCopy(WINDOWS_ALIASES)
  {
    assert AllCopy(WINDOWS_DATASET) && AllCopy(WINDOWS_ACCOUNT) && AllCopy(WINDOWS_PROCESS);
    assert AllCopy(WINDOWS_NETWORK) && AllCopy(WINDOWS_SHELL);
    hide AllCopy;
    CopyConcat(WINDOWS_DATASET, WINDOWS_ACCOUNT);
    CopyConcat(WINDOWS_DATASET + WINDOWS_ACCOUNT, WINDOWS_PROCESS);
    CopyConcat(WINDOWS_DATASET + WINDOWS_ACCOUNT + WINDOWS_PROCESS, WINDOWS_NETWORK);
    CopyConcat(WINDOWS_DATASET + WINDOWS_ACCOUNT + WINDOWS_PROCESS + WINDOWS_NETWORK, WINDOWS_SHELL);
  }

  lemma RunTwo(x: Printer, a: Step, b: Step, f: Fields)
    ensures Run(x, [a, b], f) == Apply(x, Apply(x, f, a), b)
  {
    hide Apply;
    RunOne(x, a, f);
    assert [a, b][..1] == [a];
  }

  lemma RunThree(x: Printer, a: Step, b: Step, c: Step, f: Fields)
    ensures Run(x, [a, b, c], f) == Apply(x, Apply(x, Apply(x, f, a), b), c)
  {
    hide Apply;
    RunTwo(x, a, b, f);
    assert [a, b, c][..2] == [a, b];
  }

  lemma ProviderStep(x: Printer, f: Fields)
    ensures var p := Provider(x, f);
            Run(x, WINDOWS_PROVIDER, f) == if p == "" then f else SetIfAbsent(f, Path(["event", "provider"]), Str(p))
  {
    hide Provider, SetIfAbsent, Path, Run;
    RunOne(x, WINDOWS_PROVIDER[0], f);
  }

  lemma ProviderStands(x: Printer, f: Fields, steps: seq<Step>)
    requires AllOutside(steps)
    ensures Provider(x, Run(x, steps, f)) == Provider(x, f)
  {
    hide Run, Target, Foreign, Get, Path;
    SchemaFits();
    forall i | 0 <= i < |steps| ensures Target(steps[i].target) { assert ReadsOutside(steps[i]); }
    RunKeeps(x, steps, f, PROVIDER);
  }

  /** The three meanings are derived from fields that setting them does not touch. */
  lemma MeaningsStand(x: Printer, f: Fields)
    ensures var k := Known(TextAt(x, f, CODE), Provider(x, f));
            Run(x, WINDOWS_MEANING, f) ==
            if k.None? then f else
            SetIfAbsent(SetIfAbsent(SetIfAbsent(f, Path(CATEGORY), Str(k.value.0)), Path(ACTION), Str(k.value.1)),
                        Path(OUTCOME), Str(k.value.2))
  {
    hide Run, Target, Foreign, Get, Path, Known, SetIfAbsent, Scalar;
    var a, b, c := WINDOWS_MEANING[0], WINDOWS_MEANING[1], WINDOWS_MEANING[2];
    SchemaFits();
    RunThree(x, a, b, c, f);
    var g := Apply(x, f, a);
    ApplyElsewhere(x, f, a, CODE);
    ApplyElsewhere(x, f, a, PROVIDER);
    ApplyElsewhere(x, g, b, CODE);
    ApplyElsewhere(x, g, b, PROVIDER);
  }

  ghost predicate AllOutside(steps: seq<Step>) {
    forall i :: 0 <= i < |steps| ==> ReadsOutside(steps[i])
  }

  // ---- Names ----

  /** A single part of a path. */
  predicate Word(s: string) {
    s != "" && '.' !in s && !IsSpace(s[0]) && !IsSpace(s[|s| - 1])
  }

  lemma Roots1()
    ensures Word("event") && Word("source") && Word("destination") && Word("network") && Word("user") && Word("host")
  {
  }

  lemma Roots2()
    ensures Word("process") && Word("parent")
  {
  }

  lemma Leaves1()
    ensures Word("kind") && Word("module") && Word("code") && Word("provider") && Word("dataset") && Word("category")
  {
  }

  lemma Leaves2()
    ensures Word("action") && Word("outcome") && Word("severity") && Word("ip") && Word("port") && Word("hostname")
  {
  }

  lemma Leaves3()
    ensures Word("protocol") && Word("name") && Word("domain") && Word("executable") && Word("command_line")
    ensures Word("pid")
  {
  }

  lemma CarrierNames1()
    ensures Word("cef") && Word("leef") && Word("extensions") && Word("windows") && Word("event_data")
    ensures Word("system")
  {
  }

  lemma CarrierNames2()
    ensures Word("observer") && Word("rule") && Word("vendor") && Word("product")
  {
  }

  lemma CefKeys1()
    ensures Word("src") && Word("dst") && Word("spt") && Word("dpt") && Word("proto") && Word("act")
  {
  }

  lemma CefKeys2()
    ensures Word("cat") && Word("suser") && Word("duser")
  {
  }

  lemma LeefKeys()
    ensures Word("srcPort") && Word("dstPort") && Word("usrName") && Word("sev")
  {
  }

  lemma WindowsKeys1()
    ensures Word("TargetUserName") && Word("AccountName") && Word("User") && Word("TargetDomainName")
    ensures Word("AccountDomain") && Word("SubjectUserName")
  {
  }

  lemma WindowsKeys2()
    ensures Word("SubjectDomainName") && Word("NewProcessName") && Word("ProcessName") && Word("Image")
    ensures Word("CommandLine") && Word("ProcessCommandLine")
  {
  }

  lemma WindowsKeys3()
    ensures Word("ParentProcessName") && Word("ParentImage") && Word("NewProcessId") && Word("ProcessId")
    ensures Word("ProcessID") && Word("IpAddress")
  {
  }

  lemma WindowsKeys4()
    ensures Word("SourceIp") && Word("SourceAddress") && Word("SourceIP") && Word("IpPort") && Word("SourcePort")
    ensures Word("DestinationIp")
  {
  }

  lemma WindowsKeys5()
    ensures Word("DestinationIP") && Word("DestIp") && Word("DestIP") && Word("DestinationPort") && Word("DestPort")
    ensures Word("WorkstationName")
  {
  }

  lemma WindowsKeys6()
    ensures Word("SourceHostname") && Word("ScriptBlockText") && Word("Command")
  {
  }

  lemma SchemaRoots()
    ensures Root("event") && Root("source") && Root("destination") && Root("network") && Root("user") && Root("host") && Root("process")
    ensures !Root("cef") && !Root("leef") && !Root("windows") && !Root("observer") && !Root("rule")
  {
    CarrierRoots();
  }

  lemma CarrierRoots()
    ensures !Root("cef") && !Root("leef") && !Root("windows") && !Root("observer") && !Root("rule")
  {
  }

  lemma TwoParts(a: string, b: string)
    requires Word(a) && Word(b)
    ensures Root(a) && !Inner(b) ==> Target([a, b])
    ensures !Root(a) ==> Foreign([a, b])
  {
    hide Root, Inner, IsSpace;
  }

  lemma ThreeParts(a: string, b: string, c: string)
    requires Word(a) && Word(b) && Word(c)
    ensures Root(a) && Inner(b) ==> Target([a, b, c])
    ensures !Root(a) ==> Foreign([a, b, c])
  {
    hide Root, Inner, IsSpace;
  }

  lemma EventTargets()
    ensures Target(["event", "kind"])
    ensures Target(["event", "module"])
    ensures Target(["event", "code"])
    ensures Target(["event", "provider"])
    ensures Target(["event", "dataset"])
    ensures Target(["event", "category"])
    ensures Target(["event", "action"])
    ensures Target(["event", "outcome"])
    ensures Target(["event", "severity"])
  {
    hide Word, Root, Target, Foreign;
    SchemaRoots();
    Roots1();
    Roots2();
    Leaves1();
    Leaves2();
    Leaves3();
    TwoParts("event", "kind");
    TwoParts("event", "module");
    TwoParts("event", "code");
    TwoParts("event", "provider");
    TwoParts("event", "dataset");
    TwoParts("event", "category");
    TwoParts("event", "action");
    TwoParts("event", "outcome");
    TwoParts("event", "severity");
  }

  lemma PeerTargets()
    ensures Target(["source", "ip"])
    ensures Target(["source", "port"])
    ensures Target(["source", "hostname"])
    ensures Target(["destination", "ip"])
    ensures Target(["destination", "port"])
    ensures Target(["network", "protocol"])
    ensures Target(["host", "hostname"])
  {
    hide Word, Root, Target, Foreign;
    SchemaRoots();
    Roots1();
    Roots2();
    Leaves1();
    Leaves2();
    Leaves3();
    TwoParts("source", "ip");
    TwoParts("source", "port");
    TwoParts("source", "hostname");
    TwoParts("destination", "ip");
    TwoParts("destination", "port");
    TwoParts("network", "protocol");
    TwoParts("host", "hostname");
  }

  lemma ActorTargets()
    ensures Target(["user", "name"])
    ensures Target(["user", "domain"])
    ensures Target(["process", "executable"])
    ensures Target(["process", "command_line"])
    ensures Target(["process", "pid"])
    ensures Target(["destination", "user", "name"])
    ensures Target(["source", "user", "name"])
    ensures Target(["source", "user", "domain"])
    ensures Target(["process", "parent", "executable"])
  {
    hide Word, Root, Target, Foreign;
    SchemaRoots();
    Roots1();
    Roots2();
    Leaves1();
    Leaves2();
    Leaves3();
    TwoParts("user", "name");
    TwoParts("user", "domain");
    TwoParts("process", "executable");
    TwoParts("process", "command_line");
    TwoParts("process", "pid");
    ThreeParts("destination", "user", "name");
    ThreeParts("source", "user", "name");
    ThreeParts("source", "user", "domain");
    ThreeParts("process", "parent", "executable");
  }

  lemma CarrierSources()
    ensures Foreign(PROVIDER) && Foreign(VENDOR) && Foreign(PRODUCT) && Foreign(["rule", "name"])
    ensures Foreign(["windows", "system", "eventid"]) && Foreign(["windows", "system", "computer"])
    ensures Foreign(["windows", "system", "channel"])
  {
    hide Word, Root, Target, Foreign;
    SchemaRoots();
    CarrierNames1();
    CarrierNames2();
    Leaves1();
    Leaves2();
    Leaves3();
    SystemKeys();
    ThreeParts("windows", "system", "provider");
    ThreeParts("windows", "system", "eventid");
    ThreeParts("windows", "system", "computer");
    ThreeParts("windows", "system", "channel");
    TwoParts("observer", "vendor");
    TwoParts("observer", "product");
    TwoParts("rule", "name");
  }

  lemma SystemKeys()
    ensures Word("eventid") && Word("computer") && Word("channel")
  {
  }

  lemma SchemaFits()
    ensures Target(ACTION) && Target(CATEGORY) && Target(OUTCOME) && Target(CODE) && Target(["event", "provider"])
    ensures Foreign(PROVIDER) && Foreign(VENDOR) && Foreign(PRODUCT)
  {
    hide Target, Foreign;
    EventTargets();
    CarrierSources();
  }

  lemma CefSource(key: string)
    requires Word(key)
    ensures Foreign(Cef(key))
  {
    hide Word, Root, Target, Foreign;
    SchemaRoots();
    CarrierNames1();
    CarrierNames2();
    ThreeParts("cef", "extensions", key);
  }

  lemma LeefSource(key: string)
    requires Word(key)
    ensures Foreign(Leef(key))
  {
    hide Word, Root, Target, Foreign;
    SchemaRoots();
    CarrierNames1();
    CarrierNames2();
    ThreeParts("leef", "extensions", key);
  }

  lemma EventDataSource(key: string)
    requires Word(key)
    ensures Foreign(EventData(key))
  {
    hide Word, Root, Target, Foreign;
    SchemaRoots();
    CarrierNames1();
    CarrierNames2();
    ThreeParts("windows", "event_data", key);
  }

  // ---- The steps of each carrier ----

  lemma ConstFits(target: seq<string>, text: string)
    requires Target(target)
    ensures ReadsOutside(Step(target, Const(text)))
  {
    hide Target, Foreign;
  }

  lemma CopyFits(target: seq<string>, p: seq<string>)
    requires Target(target) && Foreign(p)
    ensures ReadsOutside(Step(target, Copy(p))) && ReadsOutside(Step(target, CopyInt(p))) && ReadsOutside(Step(target, Plain(p)))
  {
    hide Target, Foreign;
  }

  lemma FirstFits(target: seq<string>, keys: seq<string>)
    requires Target(target) && forall k :: k in keys ==> Word(k)
    ensures ReadsOutside(Step(target, First(keys))) && ReadsOutside(Step(target, FirstInt(keys)))
  {
    hide Target, Foreign, Word;
    forall r | ReadsKey(keys, r) ensures Foreign(r) {
      var k :| k in keys && r == EventData(k);
      EventDataSource(k);
    }
  }

  lemma CefFits()
    ensures AllOutside(CEF_COPIES)
  {
    hide Target, Foreign, Word, ReadsOutside;
    EventTargets();
    PeerTargets();
    ActorTargets();
    CarrierSources();
    CefKeys1();
    CefKeys2();
    ConstFits(["event", "kind"], "event");
    CefSource("src");
    CopyFits(["source", "ip"], Cef("src"));
    CefSource("dst");
    CopyFits(["destination", "ip"], Cef("dst"));
    CefSource("spt");
    CopyFits(["source", "port"], Cef("spt"));
    CefSource("dpt");
    CopyFits(["destination", "port"], Cef("dpt"));
    CefSource("proto");
    CopyFits(["network", "protocol"], Cef("proto"));
    CefSource("act");
    CopyFits(["event", "action"], Cef("act"));
    CefSource("cat");
    CopyFits(["event", "category"], Cef("cat"));
    CefSource("suser");
    CopyFits(["user", "name"], Cef("suser"));
    CefSource("duser");
    CopyFits(["destination", "user", "name"], Cef("duser"));
    CopyFits(["event", "action"], ["rule", "name"]);
  }

  lemma LeefFits()
    ensures AllOutside(LEEF_COPIES)
  {
    hide Target, Foreign, Word, ReadsOutside;
    EventTargets();
    PeerTargets();
    ActorTargets();
    CefKeys1();
    CefKeys2();
    LeefKeys();
    Leaves1();
    Leaves2();
    Leaves3();
    ConstFits(["event", "kind"], "event");
    LeefSource("src");
    CopyFits(["source", "ip"], Leef("src"));
    LeefSource("dst");
    CopyFits(["destination", "ip"], Leef("dst"));
    LeefSource("srcPort");
    CopyFits(["source", "port"], Leef("srcPort"));
    LeefSource("dstPort");
    CopyFits(["destination", "port"], Leef("dstPort"));
    LeefSource("proto");
    CopyFits(["network", "protocol"], Leef("proto"));
    LeefSource("usrName");
    CopyFits(["user", "name"], Leef("usrName"));
    LeefSource("cat");
    CopyFits(["event", "category"], Leef("cat"));
    LeefSource("sev");
    CopyFits(["event", "severity"], Leef("sev"));
    LeefSource("action");
    CopyFits(["event", "action"], Leef("action"));
  }

  lemma SystemFits()
    ensures AllOutside(WINDOWS_SYSTEM)
  {
    hide Target, Foreign, Word, ReadsOutside;
    EventTargets();
    PeerTargets();
    CarrierSources();
    ConstFits(["event", "kind"], "event");
    ConstFits(["event", "module"], "windows");
    CopyFits(["event", "code"], ["windows", "system", "eventid"]);
    CopyFits(["host", "hostname"], ["windows", "system", "computer"]);
  }

  lemma DatasetFits()
    ensures AllOutside(WINDOWS_DATASET)
  {
    hide Target, Foreign, Word, ReadsOutside;
    EventTargets();
    CarrierSources();
    CopyFits(["event", "dataset"], ["windows", "system", "channel"]);
  }

  lemma AccountFits()
    ensures AllOutside(WINDOWS_ACCOUNT)
  {
    hide Target, Foreign, Word, ReadsOutside;
    PeerTargets();
    ActorTargets();
    WindowsKeys1();
    WindowsKeys2();
    FirstFits(["user", "name"], ["TargetUserName", "AccountName", "User"]);
    FirstFits(["user", "domain"], ["TargetDomainName", "AccountDomain"]);
    FirstFits(["source", "user", "name"], ["SubjectUserName"]);
    FirstFits(["source", "user", "domain"], ["SubjectDomainName"]);
  }

  lemma ProcessFits()
    ensures AllOutside(WINDOWS_PROCESS)
  {
    hide Target, Foreign, Word, ReadsOutside;
    PeerTargets();
    ActorTargets();
    WindowsKeys2();
    WindowsKeys3();
    FirstFits(["process", "executable"], ["NewProcessName", "ProcessName", "Image"]);
    FirstFits(["process", "command_line"], ["CommandLine", "ProcessCommandLine"]);
    FirstFits(["process", "parent", "executable"], ["ParentProcessName", "ParentImage"]);
    FirstFits(["process", "pid"], ["NewProcessId", "ProcessId", "ProcessID"]);
  }

  lemma NetworkFits()
    ensures AllOutside(WINDOWS_NETWORK)
  {
    hide Target, Foreign, Word, ReadsOutside;
    PeerTargets();
    ActorTargets();
    WindowsKeys3();
    WindowsKeys4();
    WindowsKeys5();
    WindowsKeys6();
    FirstFits(["source", "ip"], ["IpAddress", "SourceIp", "SourceAddress", "SourceIP"]);
    FirstFits(["source", "port"], ["IpPort", "SourcePort"]);
    FirstFits(["destination", "ip"], ["DestinationIp", "DestinationIP", "DestIp", "DestIP"]);
    FirstFits(["destination", "port"], ["DestinationPort", "DestPort"]);
    FirstFits(["source", "hostname"], ["WorkstationName", "SourceHostname"]);
  }

  lemma ShellFits()
    ensures AllOutside(WINDOWS_SHELL)
  {
    hide Target, Foreign, Word, ReadsOutside;
    PeerTargets();
    ActorTargets();
    WindowsKeys6();
    FirstFits(["process", "command_line"], ["ScriptBlockText", "Command"]);
  }

  lemma ProviderFits()
    ensures AllOutside(WINDOWS_PROVIDER)
  {
    hide Target, Foreign;
    SchemaFits();
  }

  lemma OutsideConcat(a: seq<Step>, b: seq<Step>)
    requires AllOutside(a) && AllOutside(b)
    ensures AllOutside(a + b)
  {
    hide ReadsOutside;
  }

  lemma AliasesFit()
    ensures AllOutside(WINDOWS_ALIASES)
  {
    hide ReadsOutside;
    DatasetFits();
    AccountFits();
    ProcessFits();
    NetworkFits();
    ShellFits();
    OutsideConcat(WINDOWS_DATASET, WINDOWS_ACCOUNT);
    OutsideConcat(WINDOWS_DATASET + WINDOWS_ACCOUNT, WINDOWS_PROCESS);
    OutsideConcat(WINDOWS_DATASET + WINDOWS_ACCOUNT + WINDOWS_PROCESS, WINDOWS_NETWORK);
    OutsideConcat(WINDOWS_DATASET + WINDOWS_ACCOUNT + WINDOWS_PROCESS + WINDOWS_NETWORK, WINDOWS_SHELL);
  }

  lemma WindowsCopiesFit()
    ensures AllOutside(WINDOWS_COPIES)
  {
    hide ReadsOutside;
    SystemFits();
    ProviderFits();
    AliasesFit();
    OutsideConcat(WINDOWS_SYSTEM, WINDOWS_PROVIDER);
    OutsideConcat(WINDOWS_SYSTEM + WINDOWS_PROVIDER, WINDOWS_ALIASES);
  }

  lemma DerivedOrdered()
    ensures Ordered(DERIVED)
    ensures Ordered([LEEF_FALLBACK] + DERIVED)
  {
    hide Target, Foreign;
    SchemaFits();
  }

  lemma MeaningOrdered()
    ensures Ordered(WINDOWS_MEANING)
  {
    hide Target, Foreign;
    SchemaFits();
    ForeignIsNoTarget(PROVIDER, CATEGORY);
    ForeignIsNoTarget(PROVIDER, ACTION);
    ForeignIsNoTarget(PROVIDER, OUTCOME);
  }

  /** No step of a carrier's normaliser reads what it or a later step sets. */
  lemma CarriersOrdered()
    ensures Ordered(CEF_STEPS) && Ordered(LEEF_STEPS) && Ordered(WINDOWS_STEPS)
  {
    hide ReadsOutside, Ordered;
    CefFits();
    LeefFits();
    WindowsCopiesFit();
    DerivedOrdered();
    MeaningOrdered();
    OrderedAfterOutside(CEF_COPIES, DERIVED);
    OrderedAfterOutside(LEEF_COPIES, [LEEF_FALLBACK] + DERIVED);
    OrderedAfterOutside(WINDOWS_COPIES, WINDOWS_MEANING);
  }

  predicate CarrierSteps(steps: seq<Step>) {
    steps == CEF_STEPS || steps == LEEF_STEPS || steps == WINDOWS_STEPS
  }

  /** Normalising twice is normalising once, and no field present at a target path is overwritten. */
  lemma CarriersNormalize(x: Printer, steps: seq<Step>, f: Fields, r: seq<string>)
    requires CarrierSteps(steps)
    ensures Run(x, steps, Run(x, steps, f)) == Run(x, steps, f)
    ensures Foreign(r) || (Target(r) && Get(f, Path(r)).Some?) ==> Get(Run(x, steps, f), Path(r)) == Get(f, Path(r))
  {
    hide Ordered, Run, Get, Path, Target, Foreign;
    CarriersOrdered();
    Idempotent(x, steps, f);
    if Foreign(r) || (Target(r) && Get(f, Path(r)).Some?) { NeverOverwrites(x, steps, f, r); }
  }

  // ---- What lies above a target ----

  lemma OutsideIsNear(steps: seq<Step>)
    requires AllOutside(steps)
    ensures AllNear(steps)
  {
    hide Target, Foreign, Reads;
    forall i | 0 <= i < |steps| ensures ReadsNear(steps[i]) { assert ReadsOutside(steps[i]); }
  }

  ghost predicate AllNear(steps: seq<Step>) {
    forall i :: 0 <= i < |steps| ==> ReadsNear(steps[i])
  }

  lemma NearConcat(a: seq<Step>, b: seq<Step>)
    requires AllNear(a) && AllNear(b)
    ensures AllNear(a + b)
  {
    hide ReadsNear;
  }

  lemma DerivedNear()
    ensures AllNear([LEEF_FALLBACK]) && AllNear(DERIVED) && AllNear(WINDOWS_MEANING)
  {
    hide Target, Foreign;
    SchemaFits();
  }

  /** No step reads under another root of the schema than the one it writes under. */
  lemma CarriersNear(steps: seq<Step>)
    requires CarrierSteps(steps)
    ensures AllNear(steps)
  {
    hide ReadsOutside, ReadsNear, AllNear, AllOutside;
    CefFits();
    LeefFits();
    WindowsCopiesFit();
    OutsideIsNear(CEF_COPIES);
    OutsideIsNear(LEEF_COPIES);
    OutsideIsNear(WINDOWS_COPIES);
    DerivedNear();
    NearConcat(CEF_COPIES, DERIVED);
    NearConcat([LEEF_FALLBACK], DERIVED);
    NearConcat(LEEF_COPIES, [LEEF_FALLBACK] + DERIVED);
    NearConcat(WINDOWS_COPIES, WINDOWS_MEANING);
  }

  /** A value that is no object under one of the seven roots of the schema is lost to a normaliser, and an object takes
      its place, unless every step that writes under the root is silent on the event: a top-level key spells its
      target, or its source yields nothing. Then the value stands as it was. */
  lemma RootValueKeptIff(x: Printer, steps: seq<Step>, f: Fields, key: string)
    requires CarrierSteps(steps) && Root(key) && key in f && !f[key].Obj?
    ensures var g := Run(x, steps, f);
            && key in g
            && (g[key] == f[key] <==> SilentUnder(x, f, steps, key))
            && (g[key] != f[key] ==> g[key].Obj?)
  {
    hide Run, ReadsNear, SilentUnder;
    CarriersNear(steps);
    RootValueStands(x, steps, f, key);
  }

  lemma CarriersStartWithKind(steps: seq<Step>)
    requires CarrierSteps(steps)
    ensures steps != [] && steps[0] == Step(["event", "kind"], Const("event"))
  {
    assert CEF_STEPS[0] == CEF_COPIES[0];
    assert LEEF_STEPS[0] == LEEF_COPIES[0];
    assert WINDOWS_STEPS[0] == WINDOWS_COPIES[0] == WINDOWS_SYSTEM[0];
  }

  /** Every normaliser sets the event's kind, so a value under `event` is lost unless a top-level key spells
      `event.kind`. With such a key it is lost all the same if a later step under `event` writes. */
  lemma EventValueReplaced(x: Printer, steps: seq<Step>, f: Fields)
    requires CarrierSteps(steps) && "event" in f && (f["event"].Obj? || "event.kind" !in f)
    ensures "event" in Run(x, steps, f) && Run(x, steps, f)["event"].Obj?
  {
    hide Run, Target, Foreign, Ordered, Silent, WritesUnder;
    if f["event"].Obj? {
      OrderedTargets(steps);
      RunKeepsObject(x, steps, f, "event");
    } else {
      RootValueKeptIff(x, steps, f, "event");
      CarriersStartWithKind(steps);
      KindSpeaks(x, f);
      assert WritesUnder(steps[0], "event") && !Silent(x, f, steps[0]);
    }
  }

  lemma KindSpeaks(x: Printer, f: Fields)
    requires "event.kind" !in f
    ensures var s := Step(["event", "kind"], Const("event"));
            WritesUnder(s, "event") && !Silent(x, f, s)
  {
    TwoPartPath("event", "kind");
    assert "event" + "." + "kind" == "event.kind";
  }

  lemma TwoPartPath(a: string, b: string)
    ensures Path([a, b]) == a + "." + b
  {
    assert [a, b][1..] == [b] && Join([b], ".") == b;
  }

  lemma OrderedTargets(steps: seq<Step>)
    requires CarrierSteps(steps)
    ensures forall i :: 0 <= i < |steps| ==> Target(steps[i].target)
  {
    hide Target, Foreign;
    CarriersOrdered();
    assert Ordered(steps);
    forall i | 0 <= i < |steps| ensures Target(steps[i].target) { assert WellTyped(steps[i]); }
  }
}
