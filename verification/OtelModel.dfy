/** Content-pack sources, their OTel receivers, and the collector configuration compiled from them. */
module OtelModel {
  import opened Text
  import opened Wrappers
  import Sorting

  const MEMORY_LIMITER := "memory_limiter"
  const BATCH := "batch"
  const NETWORK_BATCH := "batch/controlone.network"
  const COMMON_RESOURCE := "resource/controlone"
  const EXPORTER := "otlp/controlone"
  const NETWORK_EXPORTER := "otlphttp/controlone.network"
  const HEALTH_CHECK := "health_check"
  const FILE_STORAGE := "file_storage/controlone"
  const COLLECT_RAW := "collect_raw"
  const COLLECT_PARSED := "collect_parsed"

  datatype Value =
    | Flag(flag: bool)
    | Number(number: int)
    | Str(text: string)
    | Strs(texts: seq<string>)
    | Pairs(pairs: map<string, string>)
    | Table(table: map<string, Value>)

  type Config = map<string, Value>

  datatype Recipe = Recipe(mode: string, receiver: string, config: Config)

  datatype Source = Source(sourceID: string, packID: string, packVersion: string, riskClass: string,
                           sensitivity: string, approvalRequired: bool, modes: seq<string>,
                           recipes: seq<Recipe>, metadata: map<string, string>, parserIDs: seq<string>)

  datatype Request = Request(source: Source, mode: string, collectMode: string, approvalRef: string)

  /** `attributes` are the common resource attributes after trimming. */
  datatype Options = Options(endpoint: string, networkLogsEndpoint: string, compression: string,
                             attributes: map<string, string>, noStorage: bool, storageExtensionID: string,
                             approvalRefs: map<string, string>)

  datatype Error =
    | NoSources | NoEndpoint | NoSourceID | NeedsApproval(id: string) | BadCollectMode(id: string)
    | NoRecipe(id: string) | NotRenderable(mode: string) | BadReceiver(receiver: string)
    | BadConfig(id: string, why: string) | DuplicateReceiver(receiver: string)
    | DuplicateProcessor(processor: string) | DuplicatePipeline(pipeline: string)

  datatype Build = Build(id: string, kind: string, config: Config, warnings: seq<string>)

  datatype Pipeline = Pipeline(receivers: seq<string>, processors: seq<string>, exporters: seq<string>)

  datatype SourcePlan = SourcePlan(sourceID: string, packID: string, packVersion: string, mode: string,
                                   receiver: string, receiverIDs: seq<string>, pipelineID: string,
                                   processorID: string, collectMode: string, approvalRef: string,
                                   warnings: seq<string>)

  datatype Plan = Plan(sources: seq<SourcePlan>, warnings: seq<string>, extensions: map<string, Config>,
                       receivers: map<string, Config>, processors: map<string, Config>,
                       exporters: map<string, Config>, serviceExtensions: seq<string>,
                       pipelines: map<string, Pipeline>)

  /** The syslog receiver's own configuration: any function of source and recipe. */
  datatype Renderer = Renderer(syslog: (Source, Recipe) -> Result<(Config, seq<string>), string>)

  // ---- Component names ----

  predicate NameChar(c: char) {
    'a' <= c <= 'z' || '0' <= c <= '9' || c == '.' || c == '-' || c == '_'
  }

  predicate Separator(c: char) {
    IsSpace(c) || c == '/' || c == '\\' || c == ':'
  }

  /** Keeps name characters, turns each run of separators into one underscore, drops the rest. */
  function Squeeze(s: string): string {
    if s == "" then "" else
    var out := Squeeze(s[..|s| - 1]);
    var c := s[|s| - 1];
    if NameChar(c) then out + [c]
    else if Separator(c) && !EndsInUnderscore(out) then out + "_"
    else out
  }

  predicate EndsInUnderscore(s: string) {
    s != "" && s[|s| - 1] == '_'
  }

  predicate Edge(c: char) {
    c == '.' || c == '_' || c == '-'
  }

  function TrimEdges(s: string): string {
    if s != "" && Edge(s[0]) then TrimEdges(s[1..])
    else if s != "" && Edge(s[|s| - 1]) then TrimEdges(s[..|s| - 1])
    else s
  }

  function ComponentName(value: string): string {
    var out := TrimEdges(Squeeze(Trim(Lower(value))));
    if out == "" then "source" else out
  }

  method MakeComponentName(value: string) returns (name: string)
    ensures name == ComponentName(value)
  {
    hide IsSpace, Trim, Lower, TrimEdges;
    var v := Trim(Lower(value));
    var b := "";
    var lastUnderscore := false;
    for i := 0 to |v|
      invariant b == Squeeze(v[..i]) && lastUnderscore == EndsInUnderscore(b)
    {
      assert v[..i + 1][..i] == v[..i];
      var r := v[i];
      if NameChar(r) {
        b := b + [r];
        lastUnderscore := r == '_';
        continue;
      }
      if Separator(r) {
        if !lastUnderscore {
          b := b + "_";
          lastUnderscore := true;
        }
      }
    }
    assert v[..|v|] == v;
    name := TrimEdges(b);
    if name == "" {
      name := "source";
    }
  }

  // ---- Recipes ----

  predicate Renderable(mode: string) {
    Trim(mode) in ["otel_filelog", "syslog", "netflow", "windows_eventlog", "wef", "splunk_hec", "kafka", "otlp", "prometheus"]
  }

  function DefaultReceiver(mode: string): string {
    match Trim(mode)
    case "otel_filelog" => "filelog"
    case "syslog" => "syslog"
    case "netflow" => "netflow"
    case "windows_eventlog" => "windows_event_log"
    case "wef" => "windows_event_log"
    case "splunk_hec" => "splunk_hec"
    case "kafka" => "kafka"
    case "otlp" => "otlp"
    case "prometheus" => "prometheus"
    case _ => ""
  }

  predicate ReceiverType(s: string) {
    s != "" && forall i :: 0 <= i < |s| ==> 'a' <= s[i] <= 'z' || '0' <= s[i] <= '9' || s[i] == '_'
  }

  function NormalizeRecipe(r: Recipe): Result<Recipe, Error> {
    var mode := Trim(r.mode);
    if !Renderable(mode) then Err(NotRenderable(mode)) else
    var named := if Trim(r.receiver) == "" then DefaultReceiver(mode) else Trim(r.receiver);
    var lower := Lower(Trim(named));
    var receiver := if mode == "windows_eventlog" && lower == "windowseventlog" then "windows_event_log" else lower;
    if !ReceiverType(receiver) then Err(BadReceiver(receiver)) else Ok(Recipe(mode, receiver, r.config))
  }

  function FindRecipe(recipes: seq<Recipe>, mode: string): Option<Recipe> {
    if recipes == [] then None
    else if Trim(recipes[0].mode) == mode then Some(recipes[0]) else FindRecipe(recipes[1..], mode)
  }

  function FirstRenderableRecipe(recipes: seq<Recipe>): Option<Recipe> {
    if recipes == [] then None
    else if Renderable(recipes[0].mode) then Some(recipes[0]) else FirstRenderableRecipe(recipes[1..])
  }

  function FirstRenderableMode(modes: seq<string>): Option<string> {
    if modes == [] then None
    else if Renderable(modes[0]) then Some(modes[0]) else FirstRenderableMode(modes[1..])
  }

  function SelectRecipe(s: Source, requested: string): Result<Recipe, Error> {
    var mode := Trim(requested);
    if mode != "" then
      var found := FindRecipe(s.recipes, mode);
      if found.Some? then NormalizeRecipe(found.value)
      else if exists i :: 0 <= i < |s.modes| && Trim(s.modes[i]) == mode then NormalizeRecipe(Recipe(mode, "", map[]))
      else Err(NoRecipe(s.sourceID))
    else
      var found := FirstRenderableRecipe(s.recipes);
      if found.Some? then NormalizeRecipe(found.value) else
      var first := FirstRenderableMode(s.modes);
      if first.Some? then NormalizeRecipe(Recipe(first.value, "", map[])) else Err(NoRecipe(s.sourceID))
  }

  // ---- Receivers ----

  function ReceiverID(receiver: string, sourceID: string): string {
    Trim(receiver) + "/controlone." + ComponentName(sourceID)
  }

  function Strings(c: Config, key: string): seq<string> {
    if key !in c then [] else
    match c[key]
    case Strs(v) => v
    case Str(t) => if Blank(t) then [] else [Trim(t)]
    case _ => []
  }

  function NonBlank(s: seq<string>): seq<string> {
    if s == [] then [] else (if Blank(s[0]) then [] else [Trim(s[0])]) + NonBlank(s[1..])
  }

  /** Splits at commas, semicolons, newlines and tabs. */
  function SplitFields(s: string): seq<string> {
    if s == "" then [""] else
    var rest := SplitFields(s[1..]);
    if s[0] in ",;\n\t" then [""] + rest else [[s[0]] + (if rest == [] then "" else rest[0])] + (if rest == [] then [] else rest[1..])
  }

  function MetadataStrings(m: map<string, string>, keys: seq<string>): seq<string> {
    if keys == [] then [] else
    (if keys[0] in m then NonBlank(SplitFields(m[keys[0]])) else []) + MetadataStrings(m, keys[1..])
  }

  function Dedupe(s: seq<string>): seq<string> {
    if s == [] then [] else
    var rest := Dedupe(s[1..]);
    if s[0] in rest then rest else [s[0]] + rest
  }

  /** Trimmed, without blanks and repeats, in order. */
  function DedupeSorted(s: seq<string>): seq<string> {
    Sorting.SortStrings(Dedupe(NonBlank(s)))
  }

  function Without(c: Config, keys: set<string>): Config {
    c - keys
  }

  function Default(c: Config, key: string, v: Value): Config {
    if key in c then c else c[key := v]
  }

  const RETRY := Table(map["enabled" := Flag(true), "initial_interval" := Str("1s"), "max_interval" := Str("30s"),
                           "max_elapsed_time" := Str("0s")])

  /** Points a receiver at the storage extension unless its recipe names one. */
  function WithStorage(c: Config, storageID: string): Config {
    if c == map[] || Blank(storageID) then c else Default(c, "storage", Str(storageID))
  }

  function WithRetry(c: Config): Config {
    if c == map[] then c else Default(c, "retry_on_failure", RETRY)
  }

  function FileLog(s: Source, r: Recipe, storageID: string): Result<seq<Build>, Error> {
    var own := Strings(r.config, "include");
    var paths := DedupeSorted(if own != [] then own
                                else MetadataStrings(s.metadata, ["include", "path", "paths", "log_path", "log_paths"]));
    if paths == [] then Err(BadConfig(s.sourceID, "include paths")) else
    var c := Without(r.config["include" := Strs(paths)], {"path", "paths", "log_path", "log_paths"});
    var c := Default(Default(Default(c, "start_at", Str("end")), "include_file_path", Flag(true)),
                     "include_file_name", Flag(true));
    Ok([Build(ReceiverID(r.receiver, s.sourceID), r.receiver, WithRetry(WithStorage(c, storageID)), [])])
  }

  method BuildFileLog(s: Source, r: Recipe, storageID: string) returns (result: Result<seq<Build>, Error>)
    ensures result == FileLog(s, r, storageID)
  {
    hide Strings, MetadataStrings, DedupeSorted, ReceiverID, Trim;
    var config := r.config;
    var paths := Strings(config, "include");
    if |paths| == 0 {
      paths := MetadataStrings(s.metadata, ["include", "path", "paths", "log_path", "log_paths"]);
    }
    paths := DedupeSorted(paths);
    if |paths| == 0 {
      return Err(BadConfig(s.sourceID, "include paths"));
    }
    config := config["include" := Strs(paths)];
    config := (((config - {"path"}) - {"paths"}) - {"log_path"}) - {"log_paths"};
    assert config == Without(r.config["include" := Strs(paths)], {"path", "paths", "log_path", "log_paths"});
    if "start_at" !in config {
      config := config["start_at" := Str("end")];
    }
    if "include_file_path" !in config {
      config := config["include_file_path" := Flag(true)];
    }
    if "include_file_name" !in config {
      config := config["include_file_name" := Flag(true)];
    }
    hide Without;
    config := WithRetry(WithStorage(config, storageID));
    result := Ok([Build(ReceiverID(r.receiver, s.sourceID), r.receiver, config, [])]);
  }

  function Channels(s: Source, r: Recipe): seq<string> {
    var a := Strings(r.config, "channels");
    var b := if a != [] then a else Strings(r.config, "channel");
    var c := if b != [] then b
             else MetadataStrings(s.metadata, ["channels", "channel", "event_channels", "event_channel"]);
    DedupeSorted(if c == [] && Trim(r.mode) == "wef" then ["ForwardedEvents"] else c)
  }

  function ChannelBuild(s: Source, r: Recipe, storageID: string, channel: string, many: bool): Build {
    var c := Without(r.config, {"channels", "event_channels"})["channel" := Str(channel)];
    var id := ReceiverID(r.receiver, s.sourceID) + if many then "." + ComponentName(channel) else "";
    Build(id, r.receiver, WithRetry(WithStorage(Default(c, "start_at", Str("end")), storageID)), [])
  }

  function ChannelBuilds(s: Source, r: Recipe, storageID: string, channels: seq<string>, many: bool): seq<Build> {
    if channels == [] then [] else
    ChannelBuilds(s, r, storageID, channels[..|channels| - 1], many)
    + [ChannelBuild(s, r, storageID, channels[|channels| - 1], many)]
  }

  function WindowsEvents(s: Source, r: Recipe, storageID: string): Result<seq<Build>, Error> {
    var channels := Channels(s, r);
    if channels == [] then Err(BadConfig(s.sourceID, "channels"))
    else Ok(ChannelBuilds(s, r, storageID, channels, |channels| > 1))
  }

  method BuildWindowsEvents(s: Source, r: Recipe, storageID: string) returns (result: Result<seq<Build>, Error>)
    ensures result == WindowsEvents(s, r, storageID)
  {
    hide Channels, ChannelBuild;
    var channels := Channels(s, r);
    if |channels| == 0 {
      return Err(BadConfig(s.sourceID, "channels"));
    }
    var builds := [];
    for i := 0 to |channels|
      invariant builds == ChannelBuilds(s, r, storageID, channels[..i], |channels| > 1)
    {
      assert channels[..i + 1][..i] == channels[..i];
      builds := builds + [ChannelBuild(s, r, storageID, channels[i], |channels| > 1)];
    }
    assert channels[..|channels|] == channels;
    result := Ok(builds);
  }

  const DEFAULT_PROTOCOLS := Table(map["grpc" := Table(map["endpoint" := Str("0.0.0.0:4317")]),
                                       "http" := Table(map["endpoint" := Str("0.0.0.0:4318")])])

  function Otlp(s: Source, r: Recipe): seq<Build> {
    [Build(ReceiverID(r.receiver, s.sourceID), r.receiver, Default(r.config, "protocols", DEFAULT_PROTOCOLS), [])]
  }

  function Explicit(s: Source, r: Recipe): Result<seq<Build>, Error> {
    if r.config == map[] then Err(BadConfig(s.sourceID, "explicit receiver config"))
    else Ok([Build(ReceiverID(r.receiver, s.sourceID), r.receiver, r.config, [])])
  }

  const FLOW_WARNING := "Restrict UDP listeners to the site's exporter IPs; transport sender bindings resolve target identity. "
                        + "sFlow counter samples and custom fields are not supported by the upstream receiver."

  /** A scheme that is not text prints as neither of the two that are known. */
  function Flow(s: Source, r: Recipe): Result<seq<Build>, Error> {
    var named := if "scheme" !in r.config then "" else if r.config["scheme"].Str? then Trim(r.config["scheme"].text) else "unknown";
    var scheme := if named == "" then "netflow" else named;
    if scheme != "netflow" && scheme != "sflow" then Err(BadConfig(s.sourceID, "scheme"))
    else if "send_raw" in r.config && r.config["send_raw"] != Flag(false) then Err(BadConfig(s.sourceID, "send_raw"))
    else
      var c := r.config["scheme" := Str(scheme)];
      var c := Default(c, "port", Number(if scheme == "sflow" then 6343 else 2055));
      var c := Default(Default(c, "sockets", Number(1)), "workers", Number(2));
      Ok([Build(ReceiverID("netflow", s.sourceID), "netflow", c, [FLOW_WARNING])])
  }

  function Syslog(x: Renderer, s: Source, r: Recipe): Result<seq<Build>, Error> {
    match x.syslog(s, r)
    case Err(why) => Err(BadConfig(s.sourceID, why))
    case Ok(parts) => Ok([Build(ReceiverID(r.receiver, s.sourceID), r.receiver, WithRetry(parts.0), parts.1)])
  }

  function BuildReceivers(x: Renderer, s: Source, r: Recipe, storageID: string): Result<seq<Build>, Error> {
    match Trim(r.mode)
    case "otel_filelog" => FileLog(s, r, storageID)
    case "syslog" => Syslog(x, s, r)
    case "netflow" => Flow(s, r)
    case "windows_eventlog" => WindowsEvents(s, r, storageID)
    case "wef" => WindowsEvents(s, r, storageID)
    case "otlp" => Ok(Otlp(s, r))
    case "splunk_hec" => Explicit(s, r)
    case "kafka" => Explicit(s, r)
    case "prometheus" => Explicit(s, r)
    case _ => Err(NotRenderable(r.mode))
  }

  function PipelineType(mode: string): string {
    if mode == "prometheus" then "metrics" else "logs"
  }

  // ---- Modes and approvals ----

  function NormalizeCollectMode(v: string): Option<string> {
    var m := Lower(Trim(v));
    if m == "" || m == COLLECT_RAW then Some(COLLECT_RAW) else if m == COLLECT_PARSED then Some(COLLECT_PARSED) else None
  }

  predicate RequiresApproval(s: Source) {
    s.approvalRequired || Trim(s.riskClass) in ["high", "critical"] || Trim(s.sensitivity) in ["high", "restricted"]
  }

  function ApprovalRef(o: Options, r: Request): string {
    var own := Trim(r.approvalRef);
    var id := Trim(r.source.sourceID);
    if own != "" then own else if id in o.approvalRefs then Trim(o.approvalRefs[id]) else ""
  }

  // ---- Extensions and exporters ----

  function StorageID(o: Options): string {
    if o.noStorage then "" else if Blank(o.storageExtensionID) then FILE_STORAGE else Trim(o.storageExtensionID)
  }

  function ExporterConfig(o: Options): Config {
    var queue: Config := map["enabled" := Flag(true), "num_consumers" := Number(4), "queue_size" := Number(10000)];
    var queue := if !Blank(o.storageExtensionID) && !o.noStorage then queue["storage" := Str(Trim(o.storageExtensionID))]
                 else if !o.noStorage then queue["storage" := Str(FILE_STORAGE)] else queue;
    var c: Config := map["endpoint" := Str(Trim(o.endpoint)), "retry_on_failure" := RETRY, "sending_queue" := Table(queue)];
    if Blank(o.compression) then c else c["compression" := Str(Trim(o.compression))]
  }

  function BasePlan(o: Options): Plan {
    var ext := StorageID(o);
    var processors: map<string, Config> := map[MEMORY_LIMITER := map[], BATCH := map[]];
    var processors := if o.attributes == map[] then processors
                      else processors[COMMON_RESOURCE := map["attributes" := Pairs(o.attributes)]];
    var processors := if o.networkLogsEndpoint == "" then processors else processors[NETWORK_BATCH := map[]];
    var exporters: map<string, Config> := map[EXPORTER := ExporterConfig(o)];
    var exporters := if o.networkLogsEndpoint == "" then exporters else
                     exporters[NETWORK_EXPORTER := Without(ExporterConfig(o.(compression := "none")), {"endpoint"})
                                                   ["logs_endpoint" := Str(o.networkLogsEndpoint)]];
    var extensions: map<string, Config> := map[HEALTH_CHECK := map[]];
    Plan([], [], if ext == "" then extensions else extensions[ext := map["create_directory" := Flag(true)]],
         map[], processors, exporters,
         if ext == "" || ext == HEALTH_CHECK then [HEALTH_CHECK] else Sorting.SortStrings([HEALTH_CHECK, ext]), map[])
  }
}
