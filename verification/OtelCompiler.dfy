/** The compiler from content-pack sources to one collector configuration. Sources are sorted,
    compiled one by one, and merged into the plan under identifiers that must not repeat. */
module OtelCompiler {
  import opened OtelModel
  import opened Text
  import opened Wrappers
  import Sorting

  // ---- Order of the sources ----

  function OrderKey(r: Request): seq<string> {
    var mode := NormalizeCollectMode(r.collectMode);
    [r.source.sourceID, r.source.packID, r.source.packVersion, r.mode, if mode.Some? then mode.value else ""]
  }

  predicate KeysLeq(a: seq<string>, b: seq<string>) {
    a == [] || (b != [] && (if a[0] == b[0] then KeysLeq(a[1..], b[1..]) else Leq(a[0], b[0])))
  }

  predicate RequestLeq(x: Request, y: Request) {
    KeysLeq(OrderKey(x), OrderKey(y))
  }

  // ---- One source on its own ----

  /** What one source contributes, before it meets the others. */
  datatype Piece = Piece(name: string, sourceID: string, packID: string, packVersion: string, recipe: Recipe,
                         kind: string, collectMode: string, approvalRef: string, builds: seq<Build>,
                         attributes: map<string, string>)

  function ParserIDs(ids: seq<string>): string {
    Join(Sorting.SortStrings(NonBlank(ids)), ",")
  }

  function SourceAttributes(s: Source, mode: string, collectMode: string, ref: string): map<string, string> {
    var a := map["c1.source_id" := Trim(s.sourceID), "c1.collector_mode" := Trim(mode), "c1.collect_mode" := collectMode];
    var a := if collectMode == COLLECT_PARSED then a["c1.raw_message_retained" := "false"] else a;
    var a := if Blank(s.packID) then a else a["c1.pack_id" := Trim(s.packID)];
    var a := if Blank(s.packVersion) then a else a["c1.pack_version" := Trim(s.packVersion)];
    var a := if NonBlank(s.parserIDs) == [] then a else a["c1.parser_ids" := ParserIDs(s.parserIDs)];
    if ref == "" then a else a["c1.approval_ref" := ref]
  }

  function CompileSource(o: Options, x: Renderer, r: Request): Result<Piece, Error> {
    var id := Trim(r.source.sourceID);
    var ref := ApprovalRef(o, r);
    if id == "" then Err(NoSourceID)
    else if RequiresApproval(r.source) && ref == "" then Err(NeedsApproval(id)) else
    var collect := NormalizeCollectMode(r.collectMode);
    if collect.None? then Err(BadCollectMode(id)) else
    match SelectRecipe(r.source, r.mode)
    case Err(e) => Err(e)
    case Ok(recipe) =>
      match BuildReceivers(x, r.source, recipe, StorageID(o))
      case Err(e) => Err(e)
      case Ok(builds) =>
        Ok(Piece(ComponentName(id), id, Trim(r.source.packID), Trim(r.source.packVersion), recipe,
                 PipelineType(recipe.mode), collect.value, ref, builds,
                 SourceAttributes(r.source, recipe.mode, collect.value, ref)))
  }

  // ---- Merging ----

  function SourceProcessor(name: string): string {
    "resource/controlone.source." + name
  }

  function RedactProcessor(name: string): string {
    "transform/controlone.source." + name + ".redact_raw"
  }

  function PipelineID(p: Piece): string {
    p.kind + "/controlone." + p.name
  }

  function IDs(builds: seq<Build>): seq<string> {
    seq(|builds|, i requires 0 <= i < |builds| => builds[i].id)
  }

  predicate Networked(o: Options, p: Piece) {
    o.networkLogsEndpoint != "" && (p.recipe.mode == "syslog" || p.recipe.mode == "netflow")
  }

  function PipelineProcessors(o: Options, p: Piece): seq<string> {
    [MEMORY_LIMITER] + (if o.attributes == map[] then [] else [COMMON_RESOURCE]) + [SourceProcessor(p.name)]
    + (if p.collectMode == COLLECT_PARSED then [RedactProcessor(p.name)] else [])
    + [if Networked(o, p) then NETWORK_BATCH else BATCH]
  }

  function PipelineOf(o: Options, p: Piece): Pipeline {
    Pipeline(Sorting.SortStrings(IDs(p.builds)), PipelineProcessors(o, p),
             [if Networked(o, p) then NETWORK_EXPORTER else EXPORTER])
  }

  function BuildWarnings(builds: seq<Build>): seq<string> {
    if builds == [] then [] else BuildWarnings(builds[..|builds| - 1]) + builds[|builds| - 1].warnings
  }

  function RedactWarning(sourceID: string): string {
    "source " + sourceID + " collect_parsed uses the OTel transform processor to overwrite log body before export; "
    + "ensure the receiver recipe extracts required fields first"
  }

  function Warnings(p: Piece): seq<string> {
    BuildWarnings(p.builds) + if p.collectMode == COLLECT_PARSED then [RedactWarning(p.sourceID)] else []
  }

  function SourcePlanOf(p: Piece): SourcePlan {
    SourcePlan(p.sourceID, p.packID, p.packVersion, Trim(p.recipe.mode), if p.builds == [] then "" else p.builds[0].kind,
               Sorting.SortStrings(IDs(p.builds)), PipelineID(p), SourceProcessor(p.name), p.collectMode,
               p.approvalRef, Warnings(p))
  }

  function AddReceivers(known: map<string, Config>, builds: seq<Build>): Result<map<string, Config>, Error> {
    if builds == [] then Ok(known) else
    match AddReceivers(known, builds[..|builds| - 1])
    case Err(e) => Err(e)
    case Ok(m) =>
      var b := builds[|builds| - 1];
      if b.id in m then Err(DuplicateReceiver(b.id)) else Ok(m[b.id := b.config])
  }

  const REDACTION: Config := map["error_mode" := Str("ignore")]

  function AddProcessors(known: map<string, Config>, p: Piece): Result<map<string, Config>, Error> {
    if SourceProcessor(p.name) in known then Err(DuplicateProcessor(SourceProcessor(p.name))) else
    var m := known[SourceProcessor(p.name) := map["attributes" := Pairs(p.attributes)]];
    if p.collectMode != COLLECT_PARSED then Ok(m)
    else if RedactProcessor(p.name) in m then Err(DuplicateProcessor(RedactProcessor(p.name)))
    else Ok(m[RedactProcessor(p.name) := REDACTION])
  }

  function Merge(o: Options, plan: Plan, p: Piece): Result<Plan, Error> {
    match AddReceivers(plan.receivers, p.builds)
    case Err(e) => Err(e)
    case Ok(receivers) =>
      match AddProcessors(plan.processors, p)
      case Err(e) => Err(e)
      case Ok(processors) =>
        if PipelineID(p) in plan.pipelines then Err(DuplicatePipeline(PipelineID(p))) else
        Ok(plan.(receivers := receivers, processors := processors,
                 pipelines := plan.pipelines[PipelineID(p) := PipelineOf(o, p)],
                 sources := plan.sources + [SourcePlanOf(p)], warnings := plan.warnings + Warnings(p)))
  }

  function AddSource(o: Options, x: Renderer, plan: Plan, r: Request): Result<Plan, Error> {
    match CompileSource(o, x, r)
    case Err(e) => Err(e)
    case Ok(p) => Merge(o, plan, p)
  }

  function AddSources(o: Options, x: Renderer, rs: seq<Request>): Result<Plan, Error> {
    if rs == [] then Ok(BasePlan(o)) else
    match AddSources(o, x, rs[..|rs| - 1])
    case Err(e) => Err(e)
    case Ok(plan) => AddSource(o, x, plan, rs[|rs| - 1])
  }

  function SortWarnings(plan: Plan): Plan {
    plan.(warnings := Sorting.SortStrings(plan.warnings))
  }

  function BuildPlan(o: Options, x: Renderer, rs: seq<Request>): Result<Plan, Error> {
    if rs == [] then Err(NoSources)
    else if Blank(o.endpoint) then Err(NoEndpoint) else
    match AddSources(o, x, Sorting.Sort(rs, RequestLeq))
    case Err(e) => Err(e)
    case Ok(plan) => Ok(SortWarnings(plan))
  }

  // ---- The compiler as written: one loop over the sources, filling the plan's maps in place ----

  class Compiler {
    var plan: Plan

    constructor (o: Options)
      ensures plan == BasePlan(o)
    {
      plan := BasePlan(o);
    }

    method PlugReceivers(builds: seq<Build>)
      returns (error: Option<Error>, ids: seq<string>, warnings: seq<string>)
      modifies this
      ensures AddReceivers(old(plan.receivers), builds) == (if error.Some? then Err(error.value) else Ok(plan.receivers))
      ensures error.None? ==> ids == IDs(builds) && warnings == BuildWarnings(builds)
      ensures plan == old(plan).(receivers := plan.receivers)
    {
      error, ids, warnings := None, [], [];
      for i := 0 to |builds|
        invariant error.None? && ids == IDs(builds[..i]) && warnings == BuildWarnings(builds[..i])
        invariant plan == old(plan).(receivers := plan.receivers)
        invariant AddReceivers(old(plan.receivers), builds[..i]) == Ok(plan.receivers)
      {
        var b := builds[i];
        assert builds[..i + 1][..i] == builds[..i];
        if b.id in plan.receivers {
          error := Some(DuplicateReceiver(b.id));
          FirstErrorStands(old(plan.receivers), builds, i + 1);
          return;
        }
        plan := plan.(receivers := plan.receivers[b.id := b.config]);
        ids := ids + [b.id];
        warnings := warnings + b.warnings;
      }
      assert builds[..|builds|] == builds;
    }

    method PlugProcessors(p: Piece) returns (error: Option<Error>, redact: string)
      modifies this
      ensures AddProcessors(old(plan.processors), p) == (if error.Some? then Err(error.value) else Ok(plan.processors))
      ensures redact == if p.collectMode == COLLECT_PARSED then RedactProcessor(p.name) else ""
      ensures plan == old(plan).(processors := plan.processors)
    {
      hide SourceProcessor;
      redact := if p.collectMode == COLLECT_PARSED then RedactProcessor(p.name) else "";
      var source := SourceProcessor(p.name);
      if source in plan.processors {
        return Some(DuplicateProcessor(source)), redact;
      }
      plan := plan.(processors := plan.processors[source := map["attributes" := Pairs(p.attributes)]]);
      if redact != "" {
        if redact in plan.processors {
          return Some(DuplicateProcessor(redact)), redact;
        }
        plan := plan.(processors := plan.processors[redact := REDACTION]);
      }
      error := None;
    }

    method Wire(o: Options, p: Piece, redact: string, ids: seq<string>) returns (pipeline: Pipeline)
      requires redact == if p.collectMode == COLLECT_PARSED then RedactProcessor(p.name) else ""
      requires ids == Sorting.SortStrings(IDs(p.builds))
      ensures pipeline == PipelineOf(o, p)
    {
      hide Sorting.SortStrings, SourceProcessor, IDs, Networked;
      var processors := [MEMORY_LIMITER];
      if o.attributes != map[] {
        processors := processors + [COMMON_RESOURCE];
      }
      processors := processors + [SourceProcessor(p.name)];
      if redact != "" {
        processors := processors + [redact];
      }
      processors := processors + [BATCH];
      var exporter := EXPORTER;
      if Networked(o, p) {
        exporter := NETWORK_EXPORTER;
        processors := processors[|processors| - 1 := NETWORK_BATCH];
      }
      pipeline := Pipeline(ids, processors, [exporter]);
    }

    method Plug(o: Options, p: Piece) returns (error: Option<Error>)
      modifies this
      ensures Merge(o, old(plan), p) == (if error.Some? then Err(error.value) else Ok(plan))
    {
      hide AddReceivers, AddProcessors, BuildWarnings, Sorting.SortStrings, SourceProcessor, IDs, PipelineID, PipelineOf;
      var ids, warnings, redact;
      error, ids, warnings := PlugReceivers(p.builds);
      if error.Some? {
        return;
      }
      ids := Sorting.SortStrings(ids);
      error, redact := PlugProcessors(p);
      if error.Some? {
        return;
      }
      if redact != "" {
        warnings := warnings + [RedactWarning(p.sourceID)];
      }
      assert warnings == Warnings(p);
      hide Warnings, RedactProcessor, SourcePlanOf;
      if PipelineID(p) in plan.pipelines {
        return Some(DuplicatePipeline(PipelineID(p)));
      }
      var pipeline := Wire(o, p, redact, ids);
      plan := plan.(pipelines := plan.pipelines[PipelineID(p) := pipeline]);
      plan := plan.(sources := plan.sources + [SourcePlanOf(p)], warnings := plan.warnings + warnings);
    }
  }

  lemma {:induction false} FirstErrorStands(known: map<string, Config>, builds: seq<Build>, i: nat)
    requires i <= |builds| && AddReceivers(known, builds[..i]).Err?
    ensures AddReceivers(known, builds) == AddReceivers(known, builds[..i])
    decreases |builds|
  {
    if i == |builds| {
      assert builds[..i] == builds;
    } else {
      var front := builds[..|builds| - 1];
      assert front[..i] == builds[..i];
      FirstErrorStands(known, front, i);
    }
  }

  lemma {:induction false} FirstFailureStands(o: Options, x: Renderer, rs: seq<Request>, i: nat)
    requires i <= |rs| && AddSources(o, x, rs[..i]).Err?
    ensures AddSources(o, x, rs) == AddSources(o, x, rs[..i])
    decreases |rs|
  {
    hide CompileSource, Merge, BasePlan;
    if i == |rs| {
      assert rs[..i] == rs;
    } else {
      var front := rs[..|rs| - 1];
      assert front[..i] == rs[..i];
      FirstFailureStands(o, x, front, i);
    }
  }

  method BuildCollectorConfig(o: Options, x: Renderer, sources: seq<Request>) returns (r: Result<Plan, Error>)
    ensures r == BuildPlan(o, x, sources)
  {
    hide CompileSource, Merge, BasePlan, Sorting.Sort, RequestLeq;
    if |sources| == 0 {
      return Err(NoSources);
    }
    if Trim(o.endpoint) == "" {
      return Err(NoEndpoint);
    }
    var ordered := Sorting.Sort(sources, RequestLeq);
    var c := new Compiler(o);
    for i := 0 to |ordered|
      invariant AddSources(o, x, ordered[..i]) == Ok(c.plan)
    {
      assert ordered[..i + 1][..i] == ordered[..i];
      var piece := CompileSource(o, x, ordered[i]);
      if piece.Err? {
        FirstFailureStands(o, x, ordered, i + 1);
        return Err(piece.error);
      }
      var error := c.Plug(o, piece.value);
      if error.Some? {
        FirstFailureStands(o, x, ordered, i + 1);
        return Err(error.value);
      }
    }
    assert ordered[..|ordered|] == ordered;
    r := Ok(SortWarnings(c.plan));
  }
}
