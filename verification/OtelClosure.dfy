/** The shape of a compiled plan: its references resolve, every receiver feeds one pipeline, and
    each pipeline has the stages its source asks for. */
module OtelClosure {
  import opened OtelModel
  import opened OtelCompiler
  import opened OtelProperties
  import opened Text
  import opened Wrappers
  import Sorting

  ghost predicate Closed(plan: Plan) {
    && (forall id :: id in plan.pipelines ==> Resolves(plan, plan.pipelines[id]))
    && (forall id :: id in plan.serviceExtensions ==> id in plan.extensions)
  }

  ghost predicate Resolves(plan: Plan, p: Pipeline) {
    && p.receivers != [] && (forall id :: id in p.receivers ==> id in plan.receivers)
    && (forall id :: id in p.processors ==> id in plan.processors)
    && (forall id :: id in p.exporters ==> id in plan.exporters)
  }

  lemma ReceiverOrder(p: Piece, id: string)
    ensures id in Sorting.SortStrings(IDs(p.builds)) <==> id in IDs(p.builds)
    ensures p.builds != [] ==> Sorting.SortStrings(IDs(p.builds)) != []
  {
    hide Sorting.SortStrings;
    Sorting.SortStringsSorts(IDs(p.builds));
    Sorting.SameMembers(Sorting.SortStrings(IDs(p.builds)), IDs(p.builds), id);
    Sorting.SameLength(Sorting.SortStrings(IDs(p.builds)), IDs(p.builds));
  }

  lemma StagesAreOwn(o: Options, p: Piece, id: string)
    requires id in PipelineProcessors(o, p)
    ensures id in BasePlan(o).processors || Owns(p, id)
  {
    hide ExporterConfig, StorageID, Sorting.SortStrings;
  }

  lemma ExportersAreBase(o: Options, p: Piece)
    ensures (if Networked(o, p) then NETWORK_EXPORTER else EXPORTER) in BasePlan(o).exporters
  {
    hide ExporterConfig, StorageID, Sorting.SortStrings;
  }

  lemma PieceResolves(o: Options, plan: Plan, ps: seq<Piece>, i: nat)
    requires Represents(o, plan, ps) && i < |ps|
    ensures Resolves(plan, PipelineOf(o, ps[i]))
  {
    hide BasePlan, PipelineProcessors, Networked, Flat, Owns, Sorting.SortStrings, Pipes, SourcePlanOf;
    var p := ps[i];
    ReceiverOrder(p, "");
    forall id | id in Sorting.SortStrings(IDs(p.builds)) ensures id in plan.receivers {
      ReceiverOrder(p, id);
      var k :| 0 <= k < |p.builds| && p.builds[k].id == id;
    }
    forall id | id in PipelineProcessors(o, p) ensures id in plan.processors {
      StagesAreOwn(o, p, id);
    }
    ExportersAreBase(o, p);
  }

  lemma ServiceExtensionsDefined(o: Options, id: string)
    ensures id in BasePlan(o).serviceExtensions ==> id in BasePlan(o).extensions
    ensures StorageID(o) != "" ==> StorageID(o) in BasePlan(o).extensions && StorageID(o) in BasePlan(o).serviceExtensions
  {
    hide ExporterConfig, Sorting.SortStrings, StorageID;
    var all := [HEALTH_CHECK, StorageID(o)];
    Sorting.SortStringsSorts(all);
    Sorting.SameMembers(Sorting.SortStrings(all), all, id);
    Sorting.SameMembers(Sorting.SortStrings(all), all, StorageID(o));
  }

  lemma BuiltPlan(o: Options, x: Renderer, rs: seq<Request>, plan: Plan) returns (ps: seq<Piece>, sorted: seq<Request>)
    requires BuildPlan(o, x, rs) == Ok(plan)
    ensures sorted == Sorting.Sort(rs, RequestLeq) && multiset(sorted) == multiset(rs)
    ensures AllCompile(o, x, sorted) && ps == Pieces(o, x, sorted) && IDsDistinct(ps)
    ensures Represents(o, plan, ps)
  {
    hide AddSources, RequestLeq, CompileSource, Sorting.SortStrings, Sorting.Sort, IDsDistinct, Represents;
    OrderIsTotal();
    sorted := Sorting.Sort(rs, RequestLeq);
    Sorting.SortSorts(rs, RequestLeq);
    AddSourcesIff(o, x, sorted);
    ps := Pieces(o, x, sorted);
    WarningsDoNotMatter(o, AddSources(o, x, sorted).value, ps);
  }

  lemma WarningsDoNotMatter(o: Options, plan: Plan, ps: seq<Piece>)
    requires Represents(o, plan, ps)
    ensures Represents(o, SortWarnings(plan), ps)
  {
    hide BasePlan, Owns, PipelineID, PipelineOf, SourcePlanOf, Flat, IDsOf, Proper, Sorting.SortStrings;
  }

  lemma PiecesClose(o: Options, plan: Plan, ps: seq<Piece>)
    requires Represents(o, plan, ps)
    ensures Closed(plan)
  {
    hide Resolves, PipelineOf, PipelineID, BasePlan, Receives, Processes, SourcePlanOf, Proper;
    forall id | id in plan.pipelines ensures Resolves(plan, plan.pipelines[id]) {
      var i :| 0 <= i < |ps| && PipelineID(ps[i]) == id;
      PieceResolves(o, plan, ps, i);
    }
    forall id | id in plan.serviceExtensions ensures id in plan.extensions {
      ServiceExtensionsDefined(o, id);
    }
  }

  /** Every component a pipeline or the service names is defined in the plan. */
  lemma PlanIsClosed(o: Options, x: Renderer, rs: seq<Request>, plan: Plan)
    requires BuildPlan(o, x, rs) == Ok(plan)
    ensures Closed(plan)
  {
    hide BuildPlan, Closed, Represents;
    var ps, _ := BuiltPlan(o, x, rs, plan);
    PiecesClose(o, plan, ps);
  }

  lemma {:induction false} SharedReceiver(ps: seq<Piece>, i: nat, j: nat, id: string)
    requires i < j < |ps| && id in IDs(ps[i].builds) && id in IDs(ps[j].builds)
    ensures !Distinct(Flat(ps, IDsOf))
    decreases |ps|
  {
    hide IDs, Distinct;
    var front, last := ps[..|ps| - 1], ps[|ps| - 1];
    DistinctConcat(Flat(front, IDsOf), IDsOf(last));
    if j == |ps| - 1 {
      MemberOfFlat(front, IDsOf, i, id);
    } else {
      SharedReceiver(front, i, j, id);
    }
  }

  lemma PiecesFeedOnePipeline(o: Options, plan: Plan, ps: seq<Piece>, id: string, a: string, b: string)
    requires Represents(o, plan, ps) && IDsDistinct(ps)
    requires a in plan.pipelines && b in plan.pipelines
    requires id in plan.pipelines[a].receivers && id in plan.pipelines[b].receivers
    ensures a == b
  {
    hide PipelineProcessors, PipelineID, BasePlan, Sorting.SortStrings, IDs, Distinct, Flat, Processes, Receives, SourcePlanOf, Proper;
    var i :| 0 <= i < |ps| && PipelineID(ps[i]) == a;
    var j :| 0 <= j < |ps| && PipelineID(ps[j]) == b;
    ReceiverOrder(ps[i], id);
    ReceiverOrder(ps[j], id);
    if i < j { SharedReceiver(ps, i, j, id); } else if j < i { SharedReceiver(ps, j, i, id); }
  }

  /** Every receiver of the plan feeds a pipeline. */
  lemma ReceiverFeedsPipeline(o: Options, x: Renderer, rs: seq<Request>, plan: Plan, id: string)
    returns (k: string)
    requires BuildPlan(o, x, rs) == Ok(plan) && id in plan.receivers
    ensures k in plan.pipelines && id in plan.pipelines[k].receivers
  {
    hide BuildPlan, PipelineProcessors, PipelineID, BasePlan, Sorting.SortStrings, IDs, IDsDistinct, Flat, Processes,
      SourcePlanOf, Proper;
    var ps, _ := BuiltPlan(o, x, rs, plan);
    var i := OriginInFlat(ps, IDsOf, id);
    ReceiverOrder(ps[i], id);
    k := PipelineID(ps[i]);
  }

  /** No receiver feeds two pipelines. */
  lemma ReceiverFeedsOnePipeline(o: Options, x: Renderer, rs: seq<Request>, plan: Plan, id: string, a: string, b: string)
    requires BuildPlan(o, x, rs) == Ok(plan)
    requires a in plan.pipelines && b in plan.pipelines
    requires id in plan.pipelines[a].receivers && id in plan.pipelines[b].receivers
    ensures a == b
  {
    hide BuildPlan, Represents, IDsDistinct;
    var ps, _ := BuiltPlan(o, x, rs, plan);
    PiecesFeedOnePipeline(o, plan, ps, id, a, b);
  }

  // ---- Stages ----

  lemma NormalizedMode(r: Recipe)
    requires NormalizeRecipe(r).Ok?
    ensures Trim(NormalizeRecipe(r).value.mode) == NormalizeRecipe(r).value.mode
  {
    hide Trim, Lower, DefaultReceiver, Renderable, ReceiverType;
    TrimIdempotent(r.mode);
  }

  lemma SelectedMode(s: Source, mode: string)
    requires SelectRecipe(s, mode).Ok?
    ensures Trim(SelectRecipe(s, mode).value.mode) == SelectRecipe(s, mode).value.mode
  {
    hide Trim, NormalizeRecipe, Renderable, FirstRenderableMode, FirstRenderableRecipe, FindRecipe;
    forall r: Recipe | NormalizeRecipe(r).Ok? ensures Trim(NormalizeRecipe(r).value.mode) == NormalizeRecipe(r).value.mode {
      NormalizedMode(r);
    }
  }

  ghost predicate Faithful(o: Options, r: Request, sp: SourcePlan) {
    && sp.sourceID == Trim(r.source.sourceID) != ""
    && sp.packID == Trim(r.source.packID) && sp.packVersion == Trim(r.source.packVersion)
    && NormalizeCollectMode(r.collectMode) == Some(sp.collectMode)
    && sp.processorID == SourceProcessor(ComponentName(Trim(r.source.sourceID)))
    && sp.approvalRef == ApprovalRef(o, r)
    && (RequiresApproval(r.source) ==> sp.approvalRef != "")
  }

  lemma PieceFaithful(o: Options, x: Renderer, r: Request)
    requires CompileSource(o, x, r).Ok?
    ensures Faithful(o, r, SourcePlanOf(CompileSource(o, x, r).value))
    ensures Trim(CompileSource(o, x, r).value.recipe.mode) == CompileSource(o, x, r).value.recipe.mode
  {
    hide SelectRecipe, BuildReceivers, SourceAttributes, ComponentName, ApprovalRef, RequiresApproval, Trim,
      Sorting.SortStrings, IDs, SourceProcessor, PipelineID, NormalizeCollectMode, Warnings, StorageID;
    SelectedMode(r.source, r.mode);
  }

  /** Each given source has its own entry in the plan, and a source that needs approval carries a reference. */
  lemma SourceIsPlanned(o: Options, x: Renderer, rs: seq<Request>, plan: Plan, k: nat) returns (i: nat)
    requires BuildPlan(o, x, rs) == Ok(plan) && k < |rs|
    ensures |plan.sources| == |rs| && i < |rs|
    ensures Faithful(o, rs[k], plan.sources[i])
  {
    hide BuildPlan, CompileSource, Faithful, SourcePlanOf, Sorting.Sort, BasePlan, Receives, Processes, Pipes, Proper, IDsDistinct;
    var ps, sorted := BuiltPlan(o, x, rs, plan);
    Sorting.SameLength(sorted, rs);
    Sorting.SameMembers(sorted, rs, rs[k]);
    i :| 0 <= i < |sorted| && sorted[i] == rs[k];
    PieceFaithful(o, x, rs[k]);
  }

  lemma PiecesDiffer(ps: seq<Piece>, i: nat, j: nat)
    requires i < j < |ps| && IDsDistinct(ps) && Proper(ps[i]) && Proper(ps[j])
    ensures PipelineID(ps[i]) != PipelineID(ps[j])
    ensures SourceProcessor(ps[i].name) != SourceProcessor(ps[j].name)
  {
    hide PipelineID, SourceProcessor, Proper, Distinct, Flat;
    if ps[i].name == ps[j].name { SharedName(ps, i, j); }
    if PipelineID(ps[i]) == PipelineID(ps[j]) { PipelineIDFacts(ps[i], ps[j]); }
    if SourceProcessor(ps[i].name) == SourceProcessor(ps[j].name) { OwnName(ps[i], ps[j]); }
  }

  /** Two entries of a plan never share a pipeline or a processor. */
  lemma SourcesMapInjectively(o: Options, x: Renderer, rs: seq<Request>, plan: Plan, i: nat, j: nat)
    requires BuildPlan(o, x, rs) == Ok(plan) && i < j < |plan.sources|
    ensures plan.sources[i].pipelineID != plan.sources[j].pipelineID
    ensures plan.sources[i].processorID != plan.sources[j].processorID
  {
    hide BuildPlan, IDsDistinct, Receives, Processes, Pipes, Framed, Proper, PipelineID, SourceProcessor, Warnings,
      Sorting.SortStrings;
    var ps, _ := BuiltPlan(o, x, rs, plan);
    PiecesDiffer(ps, i, j);
  }

  lemma OwnName(p: Piece, q: Piece)
    requires SourceProcessor(p.name) == SourceProcessor(q.name)
    ensures p.name == q.name
  {
    assert SourceProcessor(p.name)[27..] == p.name;
    assert SourceProcessor(q.name)[27..] == q.name;
  }

  ghost predicate Staged(o: Options, sp: SourcePlan, p: Pipeline) {
    var c := p.processors;
    var parsed := sp.collectMode == COLLECT_PARSED;
    var network := o.networkLogsEndpoint != "" && sp.mode in ["syslog", "netflow"];
    var n := |c| - 1;
    && n >= (if parsed then 3 else 2)
    && c[0] == MEMORY_LIMITER
    && c[n] == (if network then NETWORK_BATCH else BATCH)
    && p.exporters == [if network then NETWORK_EXPORTER else EXPORTER]
    && sp.processorID in c
    && (parsed ==> IsRedaction(c[n - 1]) && c[n - 2] == sp.processorID)
    && (!parsed ==> c[n - 1] == sp.processorID && forall i :: 0 <= i < |c| ==> !IsRedaction(c[i]))
  }

  predicate IsRedaction(id: string) {
    HasPrefix(id, "transform/")
  }

  lemma RedactionNames(name: string)
    ensures IsRedaction(RedactProcessor(name)) && !IsRedaction(SourceProcessor(name))
    ensures !IsRedaction(MEMORY_LIMITER) && !IsRedaction(BATCH) && !IsRedaction(NETWORK_BATCH) && !IsRedaction(COMMON_RESOURCE)
  {
    assert RedactProcessor(name)[..10] == "transform/";
    assert SourceProcessor(name)[..10][0] == 'r' && "transform/"[0] == 't';
    assert MEMORY_LIMITER[..10][0] == 'm' && COMMON_RESOURCE[..10][0] == 'r' && NETWORK_BATCH[..10][0] == 'b';
  }

  lemma PieceStaged(o: Options, p: Piece)
    requires Trim(p.recipe.mode) == p.recipe.mode
    ensures Staged(o, SourcePlanOf(p), PipelineOf(o, p))
  {
    RedactionNames(p.name);
    hide IsRedaction, Trim, Sorting.SortStrings, IDs, SourceProcessor, RedactProcessor, PipelineID, Warnings;
    var c := PipelineProcessors(o, p);
    var k := if o.attributes == map[] then 1 else 2;
    assert c[k] == SourceProcessor(p.name);
  }

  /** Each pipeline limits memory first, redacts exactly when its source is collected parsed, and batches
      last: through the network batch when the source is a network one and a network endpoint is set,
      through the common batch otherwise. */
  lemma PipelineStages(o: Options, x: Renderer, rs: seq<Request>, plan: Plan, i: nat)
    requires BuildPlan(o, x, rs) == Ok(plan) && i < |plan.sources|
    ensures plan.sources[i].pipelineID in plan.pipelines
    ensures Staged(o, plan.sources[i], plan.pipelines[plan.sources[i].pipelineID])
    ensures plan.pipelines[plan.sources[i].pipelineID].receivers == plan.sources[i].receiverIDs
  {
    hide BuildPlan, CompileSource, Faithful, BasePlan, Staged, Sorting.SortStrings, PipelineProcessors, Warnings, PipelineID,
      IDsDistinct, Receives, Processes, Framed, Proper;
    var ps, sorted := BuiltPlan(o, x, rs, plan);
    PieceFaithful(o, x, sorted[i]);
    PieceStaged(o, ps[i]);
  }

  /** A plan has no pipelines but those of its sources. */
  lemma PipelineHasSource(o: Options, x: Renderer, rs: seq<Request>, plan: Plan, id: string) returns (i: nat)
    requires BuildPlan(o, x, rs) == Ok(plan) && id in plan.pipelines
    ensures i < |plan.sources| && plan.sources[i].pipelineID == id
  {
    hide BuildPlan, PipelineID, Sorting.SortStrings, Warnings, IDsDistinct, Receives, Processes, Framed, Proper;
    var ps, _ := BuiltPlan(o, x, rs, plan);
    i :| 0 <= i < |ps| && PipelineID(ps[i]) == id;
  }

  // ---- Persistent storage ----

  ghost predicate StorageInserted(given: Config, built: Config, storageID: string) {
    "storage" in built && "storage" !in given ==> built["storage"] == Str(storageID) && storageID != ""
  }

  lemma BlankEmpty()
    ensures Blank("")
  {
  }

  lemma FileLogStorage(s: Source, r: Recipe, storageID: string)
    requires FileLog(s, r, storageID).Ok?
    ensures StorageInserted(r.config, FileLog(s, r, storageID).value[0].config, storageID)
  {
    hide Strings, MetadataStrings, DedupeSorted, ReceiverID, Trim;
    BlankEmpty();
  }

  lemma ChannelStorage(s: Source, r: Recipe, storageID: string, channel: string, many: bool)
    ensures StorageInserted(r.config, ChannelBuild(s, r, storageID, channel, many).config, storageID)
  {
    hide ReceiverID, ComponentName, Trim;
    BlankEmpty();
  }

  lemma {:induction false} ChannelsStorage(s: Source, r: Recipe, storageID: string, channels: seq<string>, many: bool, b: Build)
    requires b in ChannelBuilds(s, r, storageID, channels, many)
    ensures StorageInserted(r.config, b.config, storageID)
  {
    hide ChannelBuild, StorageInserted;
    var n := |channels| - 1;
    if b in ChannelBuilds(s, r, storageID, channels[..n], many) {
      ChannelsStorage(s, r, storageID, channels[..n], many, b);
    } else {
      ChannelStorage(s, r, storageID, channels[n], many);
    }
  }

  /** The syslog section of a source names storage only when its recipe does. */
  ghost predicate KeepsStorage(x: Renderer) {
    forall s: Source, r: Recipe :: x.syslog(s, r).Ok? && "storage" in x.syslog(s, r).value.0 ==> "storage" in r.config
  }

  lemma OtlpStorage(s: Source, r: Recipe)
    ensures "storage" in Otlp(s, r)[0].config <==> "storage" in r.config
  {
    hide ReceiverID;
    NamesDiffer();
  }

  lemma NamesDiffer()
    ensures "protocols" != "storage" && "scheme" != "storage" && "port" != "storage" && "sockets" != "storage"
    ensures "workers" != "storage" && "retry_on_failure" != "storage"
  {
    assert "protocols"[0] == 'p' && "storage"[0] == 's' && "scheme"[1] == 'c' && "storage"[1] == 't';
    assert "port"[0] == 'p' && "sockets"[1] == 'o' && "workers"[0] == 'w' && "retry_on_failure"[0] == 'r';
  }

  lemma FlowStorage(s: Source, r: Recipe)
    requires Flow(s, r).Ok?
    ensures "storage" in Flow(s, r).value[0].config <==> "storage" in r.config
  {
    hide ReceiverID, Trim;
    NamesDiffer();
  }

  lemma SyslogStorage(x: Renderer, s: Source, r: Recipe)
    requires Syslog(x, s, r).Ok? && KeepsStorage(x)
    ensures "storage" in Syslog(x, s, r).value[0].config ==> "storage" in r.config
  {
    hide ReceiverID;
    NamesDiffer();
  }

  /** Storage that is not the recipe's own is the storage extension the receivers were built for. */
  lemma BuildStorage(x: Renderer, s: Source, r: Recipe, storageID: string, b: Build)
    requires BuildReceivers(x, s, r, storageID).Ok? && b in BuildReceivers(x, s, r, storageID).value
    requires Trim(r.mode) == "syslog" ==> KeepsStorage(x)
    ensures StorageInserted(r.config, b.config, storageID)
  {
    hide FileLog, Syslog, Flow, Channels, ChannelBuilds, Explicit, Otlp, Trim;
    match Trim(r.mode)
    case "otel_filelog" => FileLogStorage(s, r, storageID); FileLogBuilds(s, r, storageID);
    case "syslog" => SyslogStorage(x, s, r); SyslogBuilds(x, s, r);
    case "netflow" => FlowStorage(s, r); FlowBuilds(s, r);
    case "windows_eventlog" => ChannelsStorage(s, r, storageID, Channels(s, r), |Channels(s, r)| > 1, b);
    case "wef" => ChannelsStorage(s, r, storageID, Channels(s, r), |Channels(s, r)| > 1, b);
    case "otlp" => OtlpStorage(s, r); OtlpBuilds(s, r);
    case _ => ExplicitStorage(s, r);
  }

  lemma OtlpBuilds(s: Source, r: Recipe)
    ensures |Otlp(s, r)| == 1
  {
  }

  lemma ExplicitStorage(s: Source, r: Recipe)
    ensures Explicit(s, r).Ok? ==> |Explicit(s, r).value| == 1 && Explicit(s, r).value[0].config == r.config
  {
  }

  lemma PieceBuilds(o: Options, x: Renderer, r: Request)
    requires CompileSource(o, x, r).Ok?
    ensures var p := CompileSource(o, x, r).value;
            BuildReceivers(x, r.source, p.recipe, StorageID(o)) == Ok(p.builds)
  {
    hide SelectRecipe, BuildReceivers, SourceAttributes, ComponentName, ApprovalRef, RequiresApproval, Trim, StorageID,
      NormalizeCollectMode;
  }

  lemma PieceStorage(o: Options, x: Renderer, r: Request, b: Build)
    requires CompileSource(o, x, r).Ok? && b in CompileSource(o, x, r).value.builds
    requires CompileSource(o, x, r).value.recipe.mode == "syslog" ==> KeepsStorage(x)
    ensures StorageInserted(CompileSource(o, x, r).value.recipe.config, b.config, StorageID(o))
  {
    hide *;
    PieceFaithful(o, x, r);
    PieceBuilds(o, x, r);
    BuildStorage(x, r.source, CompileSource(o, x, r).value.recipe, StorageID(o), b);
  }

  lemma StorageStarted(o: Options, plan: Plan)
    requires Framed(o, plan) && StorageID(o) != ""
    ensures StorageID(o) in plan.extensions && StorageID(o) in plan.serviceExtensions
  {
    hide BasePlan, StorageID;
    ServiceExtensionsDefined(o, "");
  }

  /** In a compiled plan every receiver a source contributes is entered under its id, and when it names storage
      its recipe does not, that is the plan's storage extension, defined and started. */
  lemma ReceiverStorageIsDefined(o: Options, x: Renderer, rs: seq<Request>, plan: Plan, r: Request, b: Build)
    requires BuildPlan(o, x, rs) == Ok(plan) && r in rs && CompileSource(o, x, r).Ok?
    requires b in CompileSource(o, x, r).value.builds
    requires CompileSource(o, x, r).value.recipe.mode == "syslog" ==> KeepsStorage(x)
    ensures b.id in plan.receivers && plan.receivers[b.id] == b.config
    ensures "storage" in plan.receivers[b.id] && "storage" !in CompileSource(o, x, r).value.recipe.config ==>
              plan.receivers[b.id]["storage"] == Str(StorageID(o))
              && StorageID(o) in plan.extensions && StorageID(o) in plan.serviceExtensions
  {
    hide BuildPlan, CompileSource, BasePlan, StorageID, KeepsStorage, IDsDistinct, Flat, Processes, Pipes, Framed, SourcePlanOf, Proper;
    var ps, sorted := BuiltPlan(o, x, rs, plan);
    Sorting.SameMembers(sorted, rs, r);
    var i :| 0 <= i < |sorted| && sorted[i] == r;
    var k :| 0 <= k < |ps[i].builds| && ps[i].builds[k] == b;
    PieceStorage(o, x, r, b);
    if StorageID(o) != "" { StorageStarted(o, plan); }
  }

  lemma QueueStorage(o: Options)
    ensures "sending_queue" in ExporterConfig(o) && ExporterConfig(o)["sending_queue"].Table?
    ensures var queue := ExporterConfig(o)["sending_queue"].table;
            && ("storage" in queue <==> StorageID(o) != "")
            && ("storage" in queue ==> queue["storage"] == Str(StorageID(o)))
  {
    hide Trim;
    BlankEmpty();
  }

  lemma BaseExporters(o: Options, id: string)
    requires id in BasePlan(o).exporters
    ensures "sending_queue" in BasePlan(o).exporters[id]
    ensures BasePlan(o).exporters[id]["sending_queue"] == ExporterConfig(o)["sending_queue"]
            || BasePlan(o).exporters[id]["sending_queue"] == ExporterConfig(o.(compression := "none"))["sending_queue"]
  {
    hide ExporterConfig, Sorting.SortStrings, StorageID;
    QueueStorage(o);
    QueueStorage(o.(compression := "none"));
    assert "endpoint"[0] == 'e' && "sending_queue"[0] == 's' && "logs_endpoint"[0] == 'l';
  }

  lemma SameStorageID(o: Options)
    ensures StorageID(o.(compression := "none")) == StorageID(o)
  {
  }

  /** In a compiled plan the queue of every exporter persists to the plan's storage extension, defined and
      started, when there is one, and to nothing otherwise. */
  lemma QueueStorageIsDefined(o: Options, x: Renderer, rs: seq<Request>, plan: Plan, id: string)
    requires BuildPlan(o, x, rs) == Ok(plan) && id in plan.exporters
    ensures "sending_queue" in plan.exporters[id] && plan.exporters[id]["sending_queue"].Table?
    ensures var queue := plan.exporters[id]["sending_queue"].table;
            && ("storage" in queue <==> StorageID(o) != "")
            && ("storage" in queue ==> queue["storage"] == Str(StorageID(o))
                                       && StorageID(o) in plan.extensions && StorageID(o) in plan.serviceExtensions)
  {
    hide BuildPlan, BasePlan, ExporterConfig, StorageID, IDsDistinct, Receives, Processes, Pipes, SourcePlanOf, Proper;
    var ps, _ := BuiltPlan(o, x, rs, plan);
    BaseExporters(o, id);
    QueueStorage(o);
    QueueStorage(o.(compression := "none"));
    SameStorageID(o);
    if StorageID(o) != "" { StorageStarted(o, plan); }
  }
}
