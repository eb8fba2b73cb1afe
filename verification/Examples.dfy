/** Concrete inputs on which a guarantee one might expect of the code fails, and inputs that show the
    conditions of the general results can be met. */
module Examples {
  import opened Text
  import opened Wrappers
  import Carriers
  import FieldMap
  import FieldMapOrder
  import FieldStore
  import Manifests
  import ManifestResolution
  import Normalizers
  import OtelModel
  import OtelCompiler
  import OtelProperties
  import OtelClosure
  import Registries
  import RegistryAnswers
  import Semver
  import Tokenizers

  // ---- Field store ----

  /** A text stored under a dotted top-level key outlives both a write to its path and its redaction. */
  lemma FlatKeyOutlives(text: string)
    requires text != "[redacted]"
    ensures var f: FieldStore.Fields := map["user.name" := FieldStore.Str(text)];
            && FieldStore.Get(FieldStore.Set(f, "user.name", FieldStore.Str("[redacted]")), "user.name")
               == Some(FieldStore.Str(text))
            && !FieldStore.Clean(FieldStore.Redact(f, ["user.name"], "[redacted]"), "user.name", "[redacted]")
  {
    hide Trim, FieldStore.Find, FieldStore.Set;
    var f: FieldStore.Fields := map["user.name" := FieldStore.Str(text)];
    var path := "user.name";
    assert Trim(path) == path by { assert !IsSpace('u') && !IsSpace('e'); TrimFixed(path); }
    assert '.' in path by { assert path[4] == '.'; }
    FieldStore.SetKeepsDottedKeys(f, path, FieldStore.Str("[redacted]"), path);
    FieldStore.RedactKeepsDottedKeys(f, [path], "[redacted]", path);
    assert FieldStore.Get(FieldStore.Redact(f, [path], "[redacted]"), path) == Some(FieldStore.Str(text));
    assert !FieldStore.Redacted(FieldStore.Str(text), "[redacted]");
  }

  // ---- Normalisers ----

  lemma Plain(s: string)
    requires s != "" && forall i :: 0 <= i < |s| ==> 'a' <= s[i] <= 'z'
    ensures Trim(s) == s
  {
    TrimFixed(s);
  }

  lemma CefPath(key: string)
    ensures Normalizers.Path(Carriers.Cef(key)) == "cef.extensions." + key
  {
    JoinThree("cef", "extensions", key);
    assert "cef" + "." + ("extensions" + "." + key) == "cef.extensions." + key;
  }

  /** A copy from a CEF extension that a top-level key spells has something to write. */
  lemma CefCopyWrites(x: Normalizers.Printer, f: FieldStore.Fields, target: seq<string>, key: string, text: string)
    requires |key| > 0 && |text| > 1 && (forall i :: 0 <= i < |key| ==> 'a' <= key[i] <= 'z')
    requires forall i :: 0 <= i < |text| ==> 'a' <= text[i] <= 'z'
    requires "cef.extensions." + key in f && f["cef.extensions." + key] == FieldStore.Str(text)
    requires Normalizers.Path(target) !in f
    ensures !Normalizers.Silent(x, f, Normalizers.Step(target, Normalizers.Copy(Carriers.Cef(key))))
  {
    hide FieldStore.Find, Trim, Split, Normalizers.Path;
    var path := "cef.extensions." + key;
    CefPath(key);
    assert Trim(path) == path by { assert path[0] == 'c' && path[|path| - 1] == key[|key| - 1]; TrimFixed(path); }
    Plain(text);
  }

  const ALICE: FieldStore.Fields := map["user" := FieldStore.Str("alice"), "cef.extensions.suser" := FieldStore.Str("bob")]

  /** A CEF event with a text under `user` and a source user loses the text. */
  lemma UserLost(x: Normalizers.Printer)
    ensures var g := Normalizers.Run(x, Carriers.CEF_STEPS, ALICE);
            "user" in g && g["user"].Obj?
  {
    hide Normalizers.Run, Normalizers.Silent, Normalizers.Path;
    Carriers.RootValueKeptIff(x, Carriers.CEF_STEPS, ALICE, "user");
    assert Carriers.CEF_STEPS[8] == Carriers.CEF_COPIES[8];
    Carriers.TwoPartPath("user", "name");
    assert ("user" + "." + "name")[4] == '.' && |"user" + "." + "name"| == 9 && |"cef.extensions.suser"| == 20;
    assert "cef.extensions." + "suser" == "cef.extensions.suser";
    CefCopyWrites(x, ALICE, ["user", "name"], "suser", "bob");
    assert Normalizers.WritesUnder(Carriers.CEF_STEPS[8], "user");
  }

  const DENIED: FieldStore.Fields :=
    map["event" := FieldStore.Str("x"), "event.kind" := FieldStore.Str("event"), "cef.extensions.act" := FieldStore.Str("deny")]

  /** A text under `event` is lost even where a top-level key spells `event.kind`, since the action is set below it. */
  lemma EventLost(x: Normalizers.Printer)
    ensures var g := Normalizers.Run(x, Carriers.CEF_STEPS, DENIED);
            "event" in g && g["event"].Obj?
  {
    hide Normalizers.Run, Normalizers.Silent, Normalizers.Path;
    Carriers.RootValueKeptIff(x, Carriers.CEF_STEPS, DENIED, "event");
    assert Carriers.CEF_STEPS[6] == Carriers.CEF_COPIES[6];
    Carriers.TwoPartPath("event", "action");
    assert |"event" + "." + "action"| == 12 && |"event.kind"| == 10 && |"cef.extensions.act"| == 18;
    assert "cef.extensions." + "act" == "cef.extensions.act";
    CefCopyWrites(x, DENIED, ["event", "action"], "act", "deny");
    assert Normalizers.WritesUnder(Carriers.CEF_STEPS[6], "event");
  }

  // ---- Field maps ----

  /** Dependent copies that commute: one writes the path they both read back to itself. */
  lemma WriteBackCommutes()
    ensures var a, b := FieldMap.Copy("x.y", "x.y"), FieldMap.Copy("z", "x.y");
            FieldMap.Commute(a, b) && !FieldMap.Independent(a, b)
  {
    hide Trim, Split;
    var a, b := FieldMap.Copy("x.y", "x.y"), FieldMap.Copy("z", "x.y");
    TrimFixed("x.y");
    TrimFixed("z");
    FieldStore.SinglePart("z");
    TwoPartSplit();
    assert FieldStore.Parts("x.y")[0] != FieldStore.Parts("z")[0];
    FieldMapOrder.TwoCopiesIff(a, b);
  }

  lemma TwoPartSplit()
    ensures Split("x.y", '.') == ["x", "y"]
  {
    Carriers.TwoPartPath("x", "y");
    assert "x" + "." + "y" == "x.y";
    Normalizers.SplitJoin(["x", "y"]);
  }

  // ---- CEF version ----

  /** A CEF version that holds a bar comes back with its escape. */
  lemma EscapedVersion(h: Tokenizers.CefHeader)
    requires h.version == "0|1"
    ensures Tokenizers.ParseHeader(Tokenizers.PrintHeader(h)) != Some(h)
  {
    hide Tokenizers.ParseHeader, Tokenizers.PrintHeader;
    Tokenizers.HeaderRoundTrip(h);
    assert "0|1"[1] == '|';
  }

  // ---- Versions ----

  lemma {:induction false} DecimalReads(n: nat)
    ensures Semver.Numeral(Decimal(n)) && Semver.NumeralValue(Decimal(n)) == n
  {
    if n >= 10 { DecimalReads(n / 10); }
    var s := Decimal(n);
    var c := s[|s| - 1];
    assert Digit(c) && DigitValue(c) == n % 10;
    assert s == s[..|s| - 1] + [c];
    if n >= 10 {
      assert s[..|s| - 1] == Decimal(n / 10);
    } else {
      assert s[..|s| - 1] == "";
    }
  }

  /** Two core numbers that differ and read as one. */
  lemma LargeNumbersTie() returns (s: string, t: string)
    ensures Semver.Numeral(s) && Semver.Numeral(t) && Semver.NumeralValue(s) < Semver.NumeralValue(t)
    ensures Semver.PartNumber(s) == Semver.PartNumber(t)
  {
    hide Decimal, Semver.NumeralValue, Semver.PartNumber;
    s, t := Decimal(MAX_INT64), Decimal(MAX_INT64 + 1);
    DecimalReads(MAX_INT64);
    DecimalReads(MAX_INT64 + 1);
    Semver.NumbersAgreeIff(s, t);
    Semver.NumeralReads(s);
    Semver.NumeralReads(t);
  }

  /** A version without a prerelease whose build holds a dash: the comparison takes "b" for a prerelease. */
  lemma DashedBuild()
    ensures Semver.SemverText("1.0.0+a-b") && Semver.DashInBuild("1.0.0+a-b")
    ensures Semver.Prerelease("1.0.0+a-b") != Semver.PatternPrerelease("1.0.0+a-b")
  {
    hide Split, Semver.Prerelease, Semver.PatternPrerelease;
    var s := "1.0.0+a-b";
    assert Semver.CoreEnd(s) == 5 && s[..5] == "1.0.0" && s[5..] == "+a-b" by { CoreEndsAt(s, 5); }
    FirstVersionParts();
    FirstOccurrence("+a-b", '-', 2);
    DashedIdentifiers();
    Semver.PrereleaseAgreesIff(s);
  }

  lemma {:induction false} CoreEndsAt(s: string, n: nat)
    requires n < |s| && s[n] == '+' && forall k :: 0 <= k < n ==> s[k] != '-' && s[k] != '+'
    ensures Semver.CoreEnd(s) == n
  {
    if n > 0 { CoreEndsAt(s[1..], n - 1); }
  }

  lemma DashedIdentifiers()
    ensures Semver.Identifiers("a-b")
  {
    assert "+a-b"[1..] == "a-b";
  }

  // ---- Manifests ----

  lemma Word(s: string)
    requires 2 <= |s| <= 128 && forall i :: 0 <= i < |s| ==> 'a' <= s[i] <= 'z'
    ensures Trim(s) == s && Manifests.GoodID(s) && !Blank(s)
  {
    TrimFixed(s);
  }

  lemma FirstVersion()
    ensures Trim("1.0.0") == "1.0.0" && Semver.SemverText("1.0.0")
  {
    hide Split, Join, Trim;
    var s := "1.0.0";
    TrimFixed(s);
    assert Semver.CoreEnd(s) == 5 && s[..5] == s && s[5..] == "";
    FirstVersionParts();
  }

  lemma JoinThree(a: string, b: string, c: string)
    ensures Join([a, b, c], ".") == a + "." + (b + "." + c)
  {
    assert [a, b, c][1..] == [b, c] && [b, c][1..] == [c];
    assert Join([c], ".") == c;
    assert Join([b, c], ".") == b + "." + c;
  }

  lemma FirstVersionParts()
    ensures Split("1.0.0", '.') == ["1", "0", "0"]
  {
    hide Split, Join;
    JoinThree("1", "0", "0");
    assert "1" + "." + ("0" + "." + "0") == "1.0.0";
    Normalizers.SplitJoin(["1", "0", "0"]);
  }

  const PARSER := Manifests.Parser("parser", "parser", "", "", [Manifests.Stage("", "json", "")])

  const DETECTION := Manifests.Detection("detection", "controlone", "", 50, true)

  const SAMPLE := Manifests.Sample("sample", "source", "parser", "input", "golden")

  function Packaged(detection: string): Manifests.Manifest {
    Manifests.Manifest(1, "pack", "1.0.0", "", "pack", "license", "", "author", "",
      [Manifests.Source("source", "source", "product", "class", "low", "low", false, ["syslog"], [], ["parser"],
                        [detection], ["sample"], Manifests.Schemas("ecs", [], "", ""), 0, 0)],
      [PARSER], [DETECTION], [SAMPLE])
  }

  lemma WordsAreGood()
    ensures Manifests.GoodID("pack") && Manifests.GoodID("parser") && Manifests.GoodID("detection")
    ensures Manifests.GoodID("sample") && Manifests.GoodID("source")
    ensures Trim("pack") == "pack" && Trim("parser") == "parser" && Trim("detection") == "detection"
    ensures Trim("sample") == "sample" && Trim("source") == "source"
  {
    hide Manifests.GoodID, Trim;
    Word("pack");
    Word("parser");
    Word("detection");
    Word("sample");
    Word("source");
  }

  lemma ValuesAreTrimmed()
    ensures Trim("low") == "low" && Trim("syslog") == "syslog" && Trim("ecs") == "ecs" && Trim("json") == "json"
    ensures Trim("controlone") == "controlone" && Trim("product") == "product" && Trim("class") == "class"
    ensures Trim("author") == "author" && Trim("license") == "license" && Trim("") == ""
  {
    hide Manifests.GoodID, Trim;
    Word("low");
    Word("syslog");
    Word("ecs");
    Word("json");
    Word("controlone");
    Word("product");
    Word("class");
    Word("author");
    Word("license");
    TrimFixed("");
  }

  lemma PathsAreGood()
    ensures Manifests.SampleFields(SAMPLE)
  {
    hide Trim;
    Word("input");
    Word("golden");
  }

  lemma PartsAccepted()
    ensures var m := Packaged("detection");
            Manifests.HeaderOk(m) && Manifests.ParsersOk(m) && Manifests.DetectionsOk(m)
  {
    hide Trim, Manifests.GoodID, Semver.SemverText;
    WordsAreGood();
    ValuesAreTrimmed();
    FirstVersion();
  }

  lemma SourceAccepted()
    ensures var m := Packaged("detection");
            Manifests.SourcesOk(m)
  {
    hide Trim, Manifests.GoodID;
    WordsAreGood();
    ValuesAreTrimmed();
    var m := Packaged("detection");
    assert Manifests.ParserIDs(m)[0] == "parser" && Manifests.DetectionIDs(m)[0] == "detection";
    assert Manifests.SourceOk(m, m.sources[0]);
  }

  lemma SampleAccepted()
    ensures var m := Packaged("detection");
            Manifests.SamplesOk(m) && Manifests.Owns(m, m.sources[0]) && Manifests.Covered(m, m.sources[0])
  {
    hide Trim, Manifests.GoodID, Manifests.SampleFields;
    WordsAreGood();
    PathsAreGood();
    var m := Packaged("detection");
    assert m.samples[0] == SAMPLE;
    assert Manifests.SourceIDs(m)[0] == "source" && Manifests.ParserIDs(m)[0] == "parser";
    assert Manifests.Exercises(m.samples[0], m.sources[0], "parser");
  }

  /** An accepted manifest. */
  lemma AcceptedManifest()
    ensures Manifests.Accepts(Packaged("detection"))
  {
    hide Trim, Manifests.HeaderOk, Manifests.ParsersOk, Manifests.DetectionsOk, Manifests.SourcesOk, Manifests.SamplesOk;
    PartsAccepted();
    SourceAccepted();
    SampleAccepted();
  }

  /** A version of three digits. */
  function Digits(a: char, b: char, c: char): string {
    [a] + "." + ([b] + "." + [c])
  }

  lemma DigitsParts(a: char, b: char, c: char)
    requires Digit(a) && Digit(b) && Digit(c)
    ensures Split(Digits(a, b, c), '.') == [[a], [b], [c]]
  {
    hide Split, Join;
    JoinThree([a], [b], [c]);
    Normalizers.SplitJoin([[a], [b], [c]]);
  }

  lemma {:induction false} NoEnd(s: string)
    requires forall i :: 0 <= i < |s| ==> s[i] != '-' && s[i] != '+'
    ensures Semver.CoreEnd(s) == |s|
  {
    if s != "" { NoEnd(s[1..]); }
  }

  lemma OneDigit(c: char)
    requires Digit(c)
    ensures Semver.CoreNumber([c]) && Semver.NumeralValue([c]) == DigitValue(c)
  {
    assert [c][..0] == "";
  }

  lemma DigitsRead(a: char, b: char, c: char)
    requires Digit(a) && Digit(b) && Digit(c)
    ensures var s := Digits(a, b, c);
            && Trim(s) == s && !Blank(s) && Semver.SemverText(s)
            && Semver.CoreOf(s) == Semver.Core(DigitValue(a), DigitValue(b), DigitValue(c))
  {
    hide Split, Trim, Semver.CoreOf, Semver.CoreNumber, Semver.NumeralValue;
    var s := Digits(a, b, c);
    NoEnd(s);
    DigitsParts(a, b, c);
    assert s[..|s|] == s;
    OneDigit(a);
    OneDigit(b);
    OneDigit(c);
    assert Semver.SuffixOk(s[|s|..]);
    Semver.SemverIsTrimmed(s);
    Semver.ReadsExactly(s);
  }

  const OLD := "0.9.0"
  const LEAST := "1.0.0"
  const NEW := "2.0.0"

  lemma ThreeVersions()
    ensures OLD == Digits('0', '9', '0') && LEAST == Digits('1', '0', '0') && NEW == Digits('2', '0', '0')
  {
  }

  lemma VersionsCompare()
    ensures Semver.CompareSemver(OLD, LEAST) < 0 && Semver.CompareSemver(NEW, LEAST) > 0
    ensures Semver.SemverText(OLD) && Semver.SemverText(LEAST) && Semver.SemverText(NEW)
    ensures Trim(OLD) == OLD && Trim(LEAST) == LEAST && Trim(NEW) == NEW && !Blank(LEAST)
  {
    hide Digits, Trim, Semver.SemverText, Semver.CoreOf, Semver.ComparePrereleases, OLD, LEAST, NEW;
    ThreeVersions();
    DigitsRead('0', '9', '0');
    DigitsRead('1', '0', '0');
    DigitsRead('2', '0', '0');
  }

  function Needing(least: string): Manifests.Manifest {
    Packaged("detection").(minVersion := least)
  }

  lemma MinimumRefs(m: Manifests.Manifest, least: string)
    requires Manifests.SourcesOk(m) && Manifests.SamplesOk(m)
    ensures var n := m.(minVersion := least);
            Manifests.SourcesOk(n) && Manifests.SamplesOk(n)
  {
    hide Trim, Manifests.GoodID, Manifests.IDsOk, Manifests.SourceFields, Manifests.SampleFields, Manifests.TrimSet, Manifests.RefsOk;
    var n := m.(minVersion := least);
    forall i | 0 <= i < |n.sources| ensures Manifests.SourceOk(n, n.sources[i]) {
      assert Manifests.SourceOk(m, m.sources[i]);
    }
    forall i | 0 <= i < |n.samples| ensures Manifests.SampleOk(n, n.samples[i]) {
      assert Manifests.SampleOk(m, m.samples[i]);
    }
  }

  lemma MinimumTables(m: Manifests.Manifest, least: string, s: Manifests.Source)
    requires Manifests.Owns(m, s) && Manifests.Covered(m, s)
    ensures var n := m.(minVersion := least);
            Manifests.Owns(n, s) && Manifests.Covered(n, s)
  {
    hide Trim;
  }

  lemma NeedingAccepted()
    ensures Manifests.Accepts(Needing(LEAST))
  {
    hide Trim, Packaged, Semver.SemverText, Manifests.SourcesOk, Manifests.SamplesOk, Manifests.ParserFields,
      Manifests.DetectionFields, Manifests.IDsOk, Manifests.GoodID, Manifests.Owns, Manifests.Covered, LEAST;
    VersionsCompare();
    AcceptedManifest();
    var m, n := Packaged("detection"), Needing(LEAST);
    MinimumRefs(m, LEAST);
    forall i | 0 <= i < |n.sources| ensures Manifests.Owns(n, n.sources[i]) && Manifests.Covered(n, n.sources[i]) {
      MinimumTables(m, LEAST, m.sources[i]);
    }
  }

  /** A pack that needs version 1.0.0 installs on version 2.0.0, and is refused as too new for version 0.9.0. */
  lemma VersionGate(at: int)
    ensures Registries.InstallIn(map[], NEW, Needing(LEAST), at).Ok?
    ensures Registries.InstallIn(map[], OLD, Needing(LEAST), at) == Err(Registries.Incompatible(Registries.TooOld))
  {
    hide Trim, Manifests.Accepts, Semver.SemverText, Semver.CompareSemver, Registries.CheckCompatibility, OLD, LEAST, NEW;
    var m := Needing(LEAST);
    VersionsCompare();
    NeedingAccepted();
    RegistryAnswers.InstallIff(map[], NEW, m, at);
    RegistryAnswers.CompatibleIff(m, OLD);
  }

  /** The same manifest with its detection reference padded is accepted too, and loses the detection. */
  lemma PaddedDetectionDropped()
    ensures Manifests.Accepts(Packaged(" detection"))
    ensures ManifestResolution.Resolve(Packaged(" detection"), Packaged(" detection").sources[0]).detections == []
  {
    hide Trim, Manifests.Accepts;
    AcceptedManifest();
    WordsAreGood();
    var m, n := Packaged("detection"), Packaged(" detection");
    assert Trim(" detection") == "detection" by { assert " " + "detection" == " detection"; TrimPadded("detection"); }
    ManifestResolution.PaddedDetectionAccepted(m, 0, 0, " detection");
    assert ["detection"][0 := " detection"] == [" detection"];
    assert m.sources[0].(detections := [" detection"]) == n.sources[0];
    assert ManifestResolution.Repad(m, 0, 0, " detection").sources == n.sources;
    assert ManifestResolution.Repad(m, 0, 0, " detection") == n;
    assert " detection"[0] != "detection"[0];
    NothingPicked([" detection"]);
  }

  lemma NothingPicked(refs: seq<string>)
    requires "detection" !in refs
    ensures ManifestResolution.PickDetections([DETECTION], refs) == []
  {
    hide Trim;
    WordsAreGood();
    assert [DETECTION][..0] == [];
    assert ManifestResolution.PickDetections([], refs) == [];
  }

  function Sampled(sample: string): Manifests.Manifest {
    var m := Packaged("detection");
    m.(sources := [m.sources[0].(samples := [sample])])
  }

  /** With its sample reference padded the manifest is accepted too, and loses the sample. */
  lemma PaddedSampleDropped()
    ensures Manifests.Accepts(Sampled(" sample"))
    ensures ManifestResolution.Resolve(Sampled(" sample"), Sampled(" sample").sources[0]).samples == []
  {
    hide Trim, Manifests.Accepts;
    AcceptedManifest();
    WordsAreGood();
    var m, n := Packaged("detection"), Sampled(" sample");
    assert Trim(" sample") == "sample" by { assert " " + "sample" == " sample"; TrimPadded("sample"); }
    ManifestResolution.PaddedSampleAccepted(m, 0, 0, " sample");
    assert ["sample"][0 := " sample"] == [" sample"];
    assert m.sources[0].(samples := [" sample"]) == n.sources[0];
    assert ManifestResolution.RepadSample(m, 0, 0, " sample").sources == n.sources;
    assert ManifestResolution.RepadSample(m, 0, 0, " sample") == n;
    assert " sample"[0] != "sample"[0];
    NoSamplePicked([" sample"]);
  }

  lemma NoSamplePicked(refs: seq<string>)
    requires "sample" !in refs
    ensures ManifestResolution.PickSamples([SAMPLE], refs) == []
  {
    hide Trim;
    WordsAreGood();
    assert [SAMPLE][..0] == [];
    assert ManifestResolution.PickSamples([], refs) == [];
  }

  lemma TrimPadded(s: string)
    requires s != "" && Trimmed(s)
    ensures Trim(" " + s) == s
  {
    assert (" " + s)[1..] == s;
    assert TrimLeft(s) == s && TrimLeft(" " + s) == s;
    TrimFixed(s);
  }

  // ---- Collector configuration ----

  const FLOW_SOURCE := OtelModel.Source("flows", "pack", "1.0.0", "low", "low", false, ["netflow"], [], map[], [])

  const FLOW_REQUEST := OtelModel.Request(FLOW_SOURCE, "", "", "")

  const FLOW_OPTIONS := OtelModel.Options("collector:4317", "https://logs", "", map[], true, "", map[])

  const FLOW_RECIPE := OtelModel.Recipe("netflow", "netflow", map[])

  lemma FlowNames()
    ensures Trim("netflow") == "netflow" && Lower("netflow") == "netflow" && Trim("") == "" && !Blank("netflow") && Blank("")
  {
    hide Trim, Lower;
    Word("netflow");
    TrimFixed("");
    LowerWord("netflow");
  }

  lemma LowerWord(s: string)
    requires forall i :: 0 <= i < |s| ==> 'a' <= s[i] <= 'z'
    ensures Lower(s) == s
  {
  }

  lemma FlowReceiver()
    ensures OtelModel.Renderable("netflow") && OtelModel.DefaultReceiver("netflow") == "netflow"
    ensures OtelModel.ReceiverType("netflow")
  {
    hide Trim;
    FlowNames();
  }

  lemma FlowNormalizes()
    ensures OtelModel.NormalizeRecipe(OtelModel.Recipe("netflow", "", map[])) == Ok(FLOW_RECIPE)
  {
    hide Trim, Lower, OtelModel.Renderable, OtelModel.DefaultReceiver, OtelModel.ReceiverType;
    FlowNames();
    FlowReceiver();
  }

  lemma FlowRecipe()
    ensures OtelModel.SelectRecipe(FLOW_SOURCE, "") == Ok(FLOW_RECIPE)
  {
    hide Trim, Lower, OtelModel.Renderable, OtelModel.NormalizeRecipe;
    FlowNames();
    FlowReceiver();
    FlowNormalizes();
    assert OtelModel.FirstRenderableRecipe([]).None?;
    assert OtelModel.FirstRenderableMode(["netflow"]) == Some("netflow");
  }

  lemma FlowBuild()
    ensures OtelModel.Flow(FLOW_SOURCE, FLOW_RECIPE).Ok? && |OtelModel.Flow(FLOW_SOURCE, FLOW_RECIPE).value| == 1
  {
    hide Trim, OtelModel.Default, OtelModel.ReceiverID;
    FlowNames();
  }

  lemma FlowReceivers(x: OtelModel.Renderer)
    ensures OtelModel.BuildReceivers(x, FLOW_SOURCE, FLOW_RECIPE, "") == OtelModel.Flow(FLOW_SOURCE, FLOW_RECIPE)
  {
    hide Trim, OtelModel.Flow;
    FlowNames();
  }

  lemma FlowNeedsNoApproval()
    ensures !OtelModel.RequiresApproval(FLOW_SOURCE) && Trim("flows") == "flows"
    ensures OtelModel.NormalizeCollectMode("") == Some("collect_raw") && OtelModel.StorageID(FLOW_OPTIONS) == ""
  {
    hide Trim;
    Word("flows");
    Word("low");
    TrimFixed("");
  }

  lemma FlowCompiles(x: OtelModel.Renderer)
    ensures OtelCompiler.CompileSource(FLOW_OPTIONS, x, FLOW_REQUEST).Ok?
    ensures var p := OtelCompiler.CompileSource(FLOW_OPTIONS, x, FLOW_REQUEST).value;
            |p.builds| == 1 && p.recipe.mode == "netflow"
  {
    hide Trim, OtelModel.SelectRecipe, OtelModel.ComponentName, OtelCompiler.SourceAttributes, OtelModel.BuildReceivers,
      OtelModel.Flow, OtelModel.RequiresApproval, OtelModel.NormalizeCollectMode, OtelModel.StorageID, OtelModel.ApprovalRef;
    FlowRecipe();
    FlowBuild();
    FlowReceivers(x);
    FlowNeedsNoApproval();
  }

  /** A netflow source compiles to a pipeline that does not end in the common batch processor. */
  lemma NetworkPipeline(x: OtelModel.Renderer) returns (plan: OtelModel.Plan)
    ensures OtelCompiler.BuildPlan(FLOW_OPTIONS, x, [FLOW_REQUEST]) == Ok(plan) && |plan.sources| == 1
    ensures plan.sources[0].pipelineID in plan.pipelines
    ensures var c := plan.pipelines[plan.sources[0].pipelineID].processors;
            |c| > 0 && c[|c| - 1] == OtelModel.NETWORK_BATCH != OtelModel.BATCH
  {
    hide OtelCompiler.BuildPlan, OtelCompiler.CompileSource, Trim;
    FlowCompiles(x);
    assert !Blank("collector:4317") by { BlankIff("collector:4317"); assert !IsSpace("collector:4317"[0]); }
    OneSource(x);
    OtelProperties.BuildSucceedsIff(FLOW_OPTIONS, x, [FLOW_REQUEST]);
    plan := OtelCompiler.BuildPlan(FLOW_OPTIONS, x, [FLOW_REQUEST]).value;
    OnlySource(x, plan);
    OtelClosure.PipelineStages(FLOW_OPTIONS, x, [FLOW_REQUEST], plan, 0);
    assert OtelModel.NETWORK_BATCH[0..5] == OtelModel.BATCH && |OtelModel.NETWORK_BATCH| > 5;
  }

  lemma OneSource(x: OtelModel.Renderer)
    ensures OtelProperties.AllCompile(FLOW_OPTIONS, x, [FLOW_REQUEST])
    ensures OtelProperties.IDsDistinct(OtelProperties.Pieces(FLOW_OPTIONS, x, [FLOW_REQUEST]))
  {
    hide OtelCompiler.CompileSource;
    FlowCompiles(x);
    var ps := OtelProperties.Pieces(FLOW_OPTIONS, x, [FLOW_REQUEST]);
    assert ps[..0] == [];
    assert OtelProperties.Flat(ps[..0], OtelProperties.NameOf) == [] && OtelProperties.Flat(ps[..0], OtelProperties.IDsOf) == [];
    assert |OtelProperties.Flat(ps, OtelProperties.NameOf)| == 1;
    assert |OtelProperties.Flat(ps, OtelProperties.IDsOf)| == 1;
  }

  lemma OnlySource(x: OtelModel.Renderer, plan: OtelModel.Plan)
    requires OtelCompiler.BuildPlan(FLOW_OPTIONS, x, [FLOW_REQUEST]) == Ok(plan)
    ensures |plan.sources| == 1 && plan.sources[0].mode == "netflow"
  {
    hide OtelCompiler.BuildPlan, OtelCompiler.CompileSource, Trim, OtelProperties.Receives, OtelProperties.Processes,
      OtelProperties.Pipes;
    FlowCompiles(x);
    Word("netflow");
    var ps, sorted := OtelClosure.BuiltPlan(FLOW_OPTIONS, x, [FLOW_REQUEST], plan);
    assert sorted == [FLOW_REQUEST] by { assert |sorted| == |multiset(sorted)| == 1; assert sorted[0] in multiset(sorted); }
  }
}
