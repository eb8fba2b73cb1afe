/** Content-pack manifests: what the validator accepts, the validator as written, and what acceptance
    means for resolving a source. */
module Manifests {
  import opened Text
  import opened Semver

  datatype Stage = Stage(stageID: string, kind: string, onError: string)

  datatype Parser = Parser(parserID: string, displayName: string, version: string, entrypoint: string, stages: seq<Stage>)

  /** `temporalOk` stands for the checks on a detection's temporal rule. */
  datatype Detection = Detection(detectionID: string, kind: string, path: string, riskScore: int, temporalOk: bool)

  datatype Recipe = Recipe(mode: string, receiver: string, exporter: string)

  datatype Schemas = Schemas(primary: string, aliases: seq<string>, category: string, class_: string)

  datatype Source = Source(sourceID: string, displayName: string, product: string, sourceClass: string,
                           riskClass: string, sensitivity: string, approvalRequired: bool, modes: seq<string>,
                           recipes: seq<Recipe>, parsers: seq<string>, detections: seq<string>, samples: seq<string>,
                           schemas: Schemas, eventsPerSecond: int, bytesPerSecond: int)

  datatype Sample = Sample(caseID: string, sourceID: string, parserID: string, inputPath: string, goldenPath: string)

  datatype Manifest = Manifest(schemaVersion: int, packID: string, packVersion: string, minVersion: string,
                               displayName: string, spdx: string, license: string, author: string, repository: string,
                               sources: seq<Source>, parsers: seq<Parser>, detections: seq<Detection>, samples: seq<Sample>)

  const SCHEMA_VERSION := 1
  const RISKS := ["low", "medium", "high", "critical"]
  const SENSITIVITIES := ["low", "moderate", "high", "restricted"]
  const SCHEMAS := ["ocsf", "ecs"]
  const DETECTION_KINDS := ["sigma", "controlone"]
  const ON_ERROR := ["fail", "keep_raw", "drop"]
  const MODES := ["node_filelog", "otel_filelog", "syslog", "netflow", "windows_eventlog", "splunk_hec", "kafka", "otlp",
                  "vendor_api", "wef", "archive", "prometheus", "database", "private_access", "controlone_node"]
  const STAGES := ["json", "syslog_rfc3164", "syslog_rfc5424", "cef", "leef", "regex", "grok", "kv", "logfmt", "xml",
                   "windows_eventdata", "timestamp", "field_map", "redact", "drop", "enrich", "ocsf_map", "ecs_alias"]

  // ---- Single fields ----

  predicate LowerOrDigit(c: char) {
    'a' <= c <= 'z' || Digit(c)
  }

  /** The pattern of identifiers, two to 128 characters. */
  predicate IDText(t: string) {
    && 2 <= |t| <= 128 && LowerOrDigit(t[0])
    && forall i :: 0 <= i < |t| ==> LowerOrDigit(t[i]) || t[i] == '_' || t[i] == '.' || t[i] == '-'
  }

  predicate GoodID(value: string) {
    IDText(Trim(value))
  }

  predicate PathText(s: string) {
    && s != "" && LetterOrDigit(s[0])
    && forall i :: 0 <= i < |s| ==> LetterOrDigit(s[i]) || s[i] in "_.@/+:-"
  }

  predicate Allowed(value: string, allowed: seq<string>) {
    Trim(value) in allowed
  }

  predicate NeedsApproval(s: Source) {
    Allowed(s.riskClass, ["high", "critical"]) || Allowed(s.sensitivity, ["high", "restricted"])
  }

  predicate HeaderOk(m: Manifest) {
    && m.schemaVersion == SCHEMA_VERSION && GoodID(m.packID) && SemverText(Trim(m.packVersion))
    && (Blank(m.minVersion) || SemverText(Trim(m.minVersion)))
    && !Blank(m.displayName) && !(Blank(m.spdx) && Blank(m.license)) && !(Blank(m.author) && Blank(m.repository))
    && m.sources != [] && m.parsers != [] && m.samples != []
  }

  predicate StageFields(s: Stage) {
    && (Blank(s.stageID) || GoodID(s.stageID)) && Allowed(s.kind, STAGES) && (Blank(s.onError) || Allowed(s.onError, ON_ERROR))
  }

  predicate ParserFields(p: Parser) {
    && !Blank(p.displayName) && (Blank(p.version) || SemverText(Trim(p.version)))
    && (Blank(p.entrypoint) || PathText(p.entrypoint)) && p.stages != []
    && (forall i :: 0 <= i < |p.stages| ==> StageFields(p.stages[i]))
    && (forall i, j :: 0 <= i < j < |p.stages| && !Blank(p.stages[i].stageID) ==>
          Trim(p.stages[i].stageID) != Trim(p.stages[j].stageID))
  }

  predicate DetectionFields(d: Detection) {
    && Allowed(d.kind, DETECTION_KINDS) && !(d.kind == "sigma" && Blank(d.path))
    && (Blank(d.path) || PathText(d.path)) && 0 <= d.riskScore <= 100 && d.temporalOk
  }

  predicate SchemasOk(s: Schemas) {
    && Allowed(s.primary, SCHEMAS) && (forall i :: 0 <= i < |s.aliases| ==> Allowed(s.aliases[i], SCHEMAS))
    && (forall i, j :: 0 <= i < j < |s.aliases| ==> Trim(s.aliases[i]) != Trim(s.aliases[j]))
    && (Trim(s.primary) == "ocsf" ==> !Blank(s.category) && !Blank(s.class_))
  }

  predicate SourceFields(s: Source) {
    && !Blank(s.displayName) && !Blank(s.product) && !Blank(s.sourceClass)
    && Allowed(s.riskClass, RISKS) && Allowed(s.sensitivity, SENSITIVITIES) && s.modes != []
    && (forall i :: 0 <= i < |s.modes| ==> Allowed(s.modes[i], MODES))
    && (forall i, j :: 0 <= i < j < |s.modes| ==> Trim(s.modes[i]) != Trim(s.modes[j]))
    && (forall i :: 0 <= i < |s.recipes| ==>
          Allowed(s.recipes[i].mode, MODES) && !(Blank(s.recipes[i].receiver) && Blank(s.recipes[i].exporter)))
    && (NeedsApproval(s) ==> s.approvalRequired)
    && s.parsers != [] && s.samples != [] && (forall i :: 0 <= i < |s.samples| ==> GoodID(s.samples[i]))
    && SchemasOk(s.schemas) && s.eventsPerSecond >= 0 && s.bytesPerSecond >= 0
  }

  predicate SampleFields(s: Sample) {
    PathText(s.inputPath) && PathText(s.goldenPath) && !Blank(s.inputPath) && !Blank(s.goldenPath)
  }

  // ---- Identifiers and references ----

  predicate DistinctTrims(ids: seq<string>) {
    forall i, j :: 0 <= i < j < |ids| ==> Trim(ids[i]) != Trim(ids[j])
  }

  /** Well-formed identifiers, no two the same. */
  predicate IDsOk(ids: seq<string>) {
    (forall i :: 0 <= i < |ids| ==> GoodID(ids[i])) && DistinctTrims(ids)
  }

  /** Well-formed references to known identifiers, no two the same. */
  predicate RefsOk(refs: seq<string>, known: set<string>) {
    IDsOk(refs) && forall i :: 0 <= i < |refs| ==> Trim(refs[i]) in known
  }

  function TrimSet(ids: seq<string>): set<string> {
    set i | 0 <= i < |ids| :: Trim(ids[i])
  }

  function ParserIDs(m: Manifest): (r: seq<string>)
    ensures |r| == |m.parsers| && forall i :: 0 <= i < |r| ==> r[i] == m.parsers[i].parserID
  {
    seq(|m.parsers|, i requires 0 <= i < |m.parsers| => m.parsers[i].parserID)
  }

  function DetectionIDs(m: Manifest): (r: seq<string>)
    ensures |r| == |m.detections| && forall i :: 0 <= i < |r| ==> r[i] == m.detections[i].detectionID
  {
    seq(|m.detections|, i requires 0 <= i < |m.detections| => m.detections[i].detectionID)
  }

  function SourceIDs(m: Manifest): (r: seq<string>)
    ensures |r| == |m.sources| && forall i :: 0 <= i < |r| ==> r[i] == m.sources[i].sourceID
  {
    seq(|m.sources|, i requires 0 <= i < |m.sources| => m.sources[i].sourceID)
  }

  function CaseIDs(m: Manifest): (r: seq<string>)
    ensures |r| == |m.samples| && forall i :: 0 <= i < |r| ==> r[i] == m.samples[i].caseID
  {
    seq(|m.samples|, i requires 0 <= i < |m.samples| => m.samples[i].caseID)
  }

  predicate ParsersOk(m: Manifest) {
    IDsOk(ParserIDs(m)) && forall i :: 0 <= i < |m.parsers| ==> ParserFields(m.parsers[i])
  }

  predicate DetectionsOk(m: Manifest) {
    IDsOk(DetectionIDs(m)) && forall i :: 0 <= i < |m.detections| ==> DetectionFields(m.detections[i])
  }

  predicate SourceOk(m: Manifest, s: Source) {
    && SourceFields(s) && RefsOk(s.parsers, TrimSet(ParserIDs(m))) && RefsOk(s.detections, TrimSet(DetectionIDs(m)))
  }

  predicate SourcesOk(m: Manifest) {
    IDsOk(SourceIDs(m)) && forall i :: 0 <= i < |m.sources| ==> SourceOk(m, m.sources[i])
  }

  /** A source whose id, as spelled, is the sample's must list the sample's parser as spelled. */
  predicate Listed(m: Manifest, p: Sample) {
    forall i :: 0 <= i < |m.sources| && m.sources[i].sourceID == Trim(p.sourceID) && m.sources[i].parsers != [] ==>
      Trim(p.parserID) in m.sources[i].parsers
  }

  predicate SampleOk(m: Manifest, p: Sample) {
    && SampleFields(p) && GoodID(p.sourceID) && Trim(p.sourceID) in TrimSet(SourceIDs(m))
    && GoodID(p.parserID) && Trim(p.parserID) in TrimSet(ParserIDs(m)) && Listed(m, p)
  }

  predicate SamplesOk(m: Manifest) {
    IDsOk(CaseIDs(m)) && forall i :: 0 <= i < |m.samples| ==> SampleOk(m, m.samples[i])
  }

  /** Every sample a source names exists and belongs to it. */
  predicate Owns(m: Manifest, s: Source) {
    forall k :: 0 <= k < |s.samples| && !Blank(s.samples[k]) ==>
      exists j :: 0 <= j < |m.samples| && Trim(m.samples[j].caseID) == Trim(s.samples[k])
                  && Trim(m.samples[j].sourceID) == s.sourceID
  }

  /** Every parser a source names is exercised by one of its samples. */
  predicate Covered(m: Manifest, s: Source) {
    forall k :: 0 <= k < |s.parsers| && !Blank(s.parsers[k]) ==>
      exists j :: 0 <= j < |m.samples| && Exercises(m.samples[j], s, s.parsers[k])
  }

  predicate Exercises(p: Sample, s: Source, parser: string) {
    Trim(p.sourceID) == s.sourceID && !Blank(p.sourceID) && Trim(p.parserID) == Trim(parser) && !Blank(p.parserID)
  }

  /** What the validator accepts. */
  predicate Accepts(m: Manifest) {
    && HeaderOk(m) && ParsersOk(m) && DetectionsOk(m) && SourcesOk(m) && SamplesOk(m)
    && (forall i :: 0 <= i < |m.sources| ==> Owns(m, m.sources[i]))
    && (forall i :: 0 <= i < |m.sources| ==> Covered(m, m.sources[i]))
  }
}
