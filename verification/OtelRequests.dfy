/** What a collector plan makes of each request, read off the request's own text: redaction, approval, the mode chosen,
    the attributes its records carry, and where they are sent. */
module OtelRequests {
  import opened OtelModel
  import opened OtelCompiler
  import opened OtelProperties
  import opened OtelClosure
  import OtelAttributes
  import opened Text
  import opened Wrappers
  import Sorting

  // ---- A request, its piece and its entry ----

  lemma PieceOf(o: Options, x: Renderer, rs: seq<Request>, plan: Plan, k: nat) returns (i: nat, p: Piece)
    requires BuildPlan(o, x, rs) == Ok(plan) && k < |rs|
    ensures i < |plan.sources| && CompileSource(o, x, rs[k]) == Ok(p) && plan.sources[i] == SourcePlanOf(p)
    ensures PipelineID(p) in plan.pipelines && plan.pipelines[PipelineID(p)] == PipelineOf(o, p)
    ensures RedactProcessor(p.name) in plan.processors <==> p.collectMode == COLLECT_PARSED
  {
    hide BuildPlan, CompileSource, SourcePlanOf, Sorting.Sort, BasePlan, Receives, Proper, IDsDistinct, PipelineOf, PipelineID,
      RedactProcessor, SourceProcessor, Framed;
    var ps, sorted := BuiltPlan(o, x, rs, plan);
    Sorting.SameMembers(sorted, rs, rs[k]);
    i :| 0 <= i < |sorted| && sorted[i] == rs[k];
    p := ps[i];
    RedactionOwned(o, plan, ps, i);
  }

  lemma RedactionOwned(o: Options, plan: Plan, ps: seq<Piece>, i: nat)
    requires i < |ps| && Processes(o, plan, ps) && IDsDistinct(ps)
    ensures RedactProcessor(ps[i].name) in plan.processors <==> ps[i].collectMode == COLLECT_PARSED
  {
    hide BasePlan, RedactProcessor, SourceProcessor, Flat, Distinct;
    var p := ps[i];
    RedactProcessorFacts(o, p, p);
    if RedactProcessor(p.name) in plan.processors {
      var j :| 0 <= j < |ps| && Owns(ps[j], RedactProcessor(p.name));
      RedactProcessorFacts(o, p, ps[j]);
      if j != i { SharedName(ps, i, j); }
    } else {
      assert !Owns(p, RedactProcessor(p.name));
    }
  }

  // ---- Redaction ----

  function ModeText(r: Request): string {
    Lower(Trim(r.collectMode))
  }

  predicate ModeKnown(r: Request) {
    ModeText(r) in ["", "collect_raw", "collect_parsed"]
  }

  lemma ModeDecides(r: Request)
    ensures NormalizeCollectMode(r.collectMode).Some? <==> ModeKnown(r)
    ensures NormalizeCollectMode(r.collectMode) == Some(COLLECT_PARSED) <==> ModeText(r) == "collect_parsed"
  {
    hide Lower, Trim;
    assert COLLECT_RAW[8] == 'r' && COLLECT_PARSED[8] == 'p';
  }

  lemma PieceMode(o: Options, x: Renderer, r: Request)
    requires CompileSource(o, x, r).Ok?
    ensures ModeKnown(r) && (CompileSource(o, x, r).value.collectMode == COLLECT_PARSED <==> ModeText(r) == "collect_parsed")
  {
    hide SelectRecipe, BuildReceivers, SourceAttributes, ComponentName, ApprovalRef, RequiresApproval, NormalizeCollectMode,
      Lower, Trim, StorageID;
    ModeDecides(r);
  }

  /** In a compiled plan the records of a request pass a redaction exactly when its collect mode reads "collect_parsed",
      up to letter case and padding: then the plan defines a redaction for it, which comes right before the batch. Any
      other mode that compiles is "collect_raw" or blank. */
  lemma RedactedIff(o: Options, x: Renderer, rs: seq<Request>, plan: Plan, k: nat) returns (i: nat)
    requires BuildPlan(o, x, rs) == Ok(plan) && k < |rs|
    ensures i < |plan.sources| && plan.sources[i].sourceID == Trim(rs[k].source.sourceID) && ModeKnown(rs[k])
    ensures plan.sources[i].pipelineID in plan.pipelines
    ensures var c := plan.pipelines[plan.sources[i].pipelineID].processors;
            && ((exists j :: 0 <= j < |c| && IsRedaction(c[j])) <==> Lower(Trim(rs[k].collectMode)) == "collect_parsed")
            && (Lower(Trim(rs[k].collectMode)) == "collect_parsed" ==>
                  |c| > 1 && IsRedaction(c[|c| - 2]) && c[|c| - 2] in plan.processors)
  {
    hide BuildPlan, CompileSource, BasePlan, Staged, Trim, Lower, IsRedaction, PipelineProcessors, RedactProcessor, PipelineID,
      Sorting.SortStrings, Warnings;
    var p;
    i, p := PieceOf(o, x, rs, plan, k);
    PieceMode(o, x, rs[k]);
    PieceID(o, x, rs[k]);
    PieceFaithful(o, x, rs[k]);
    Redacts(o, p);
  }

  lemma PieceID(o: Options, x: Renderer, r: Request)
    requires CompileSource(o, x, r).Ok?
    ensures SourcePlanOf(CompileSource(o, x, r).value).sourceID == Trim(r.source.sourceID)
  {
    hide SelectRecipe, BuildReceivers, SourceAttributes, ComponentName, ApprovalRef, RequiresApproval, NormalizeCollectMode,
      Trim, StorageID, Sorting.SortStrings, IDs, PipelineID, SourceProcessor, Warnings;
  }

  lemma Redacts(o: Options, p: Piece)
    ensures var c := PipelineProcessors(o, p);
            && ((exists j :: 0 <= j < |c| && IsRedaction(c[j])) <==> p.collectMode == COLLECT_PARSED)
            && (p.collectMode == COLLECT_PARSED ==> |c| > 1 && c[|c| - 2] == RedactProcessor(p.name) && IsRedaction(c[|c| - 2]))
  {
    RedactionNames(p.name);
    hide IsRedaction, SourceProcessor, RedactProcessor;
    var c := PipelineProcessors(o, p);
    if p.collectMode == COLLECT_PARSED { assert c[|c| - 2] == RedactProcessor(p.name); }
  }

  /** A request with any other collect mode makes the whole build fail. */
  lemma UnknownModeFails(o: Options, x: Renderer, rs: seq<Request>, k: nat)
    requires k < |rs| && Lower(Trim(rs[k].collectMode)) !in ["", "collect_raw", "collect_parsed"]
    ensures BuildPlan(o, x, rs).Err?
  {
    hide BuildPlan, CompileSource, Lower, Trim;
    if BuildPlan(o, x, rs).Ok? {
      var _, p := PieceOf(o, x, rs, BuildPlan(o, x, rs).value, k);
      PieceMode(o, x, rs[k]);
      assert false;
    }
  }

  // ---- Approval ----

  predicate Sensitive(s: Source) {
    s.approvalRequired || Trim(s.riskClass) == "high" || Trim(s.riskClass) == "critical"
    || Trim(s.sensitivity) == "high" || Trim(s.sensitivity) == "restricted"
  }

  /** The request itself, or the options for its source, name an approval. */
  predicate Approved(o: Options, r: Request) {
    !Blank(r.approvalRef)
    || (Trim(r.source.sourceID) in o.approvalRefs && !Blank(o.approvalRefs[Trim(r.source.sourceID)]))
  }

  lemma ApprovalDecides(o: Options, r: Request)
    ensures RequiresApproval(r.source) <==> Sensitive(r.source)
    ensures ApprovalRef(o, r) != "" <==> Approved(o, r)
    ensures !Blank(r.approvalRef) ==> ApprovalRef(o, r) == Trim(r.approvalRef)
  {
    hide Trim;
  }

  lemma PieceApproved(o: Options, x: Renderer, r: Request)
    requires CompileSource(o, x, r).Ok?
    ensures Sensitive(r.source) ==> Approved(o, r)
    ensures SourcePlanOf(CompileSource(o, x, r).value).approvalRef == ApprovalRef(o, r)
  {
    hide SelectRecipe, BuildReceivers, SourceAttributes, ComponentName, ApprovalRef, RequiresApproval, NormalizeCollectMode,
      Trim, StorageID, Sorting.SortStrings, IDs, PipelineID, SourceProcessor, Warnings, Sensitive, Approved;
    ApprovalDecides(o, r);
  }

  /** In a compiled plan every source that asks for approval, or is of high or critical risk or of high or restricted
      sensitivity, was approved, and its entry carries the reference, the request's own before that of the options. */
  lemma SensitiveIsApproved(o: Options, x: Renderer, rs: seq<Request>, plan: Plan, k: nat) returns (i: nat)
    requires BuildPlan(o, x, rs) == Ok(plan) && k < |rs|
    ensures i < |plan.sources| && plan.sources[i].sourceID == Trim(rs[k].source.sourceID)
    ensures Sensitive(rs[k].source) ==> Approved(o, rs[k]) && plan.sources[i].approvalRef != ""
    ensures !Blank(rs[k].approvalRef) ==> plan.sources[i].approvalRef == Trim(rs[k].approvalRef)
  {
    hide BuildPlan, CompileSource, BasePlan, Trim, PipelineID, Sorting.SortStrings, Warnings, Sensitive, Approved, ApprovalRef,
      SourcePlanOf, PipelineOf, RedactProcessor;
    var p;
    i, p := PieceOf(o, x, rs, plan, k);
    PieceID(o, x, rs[k]);
    PieceApproved(o, x, rs[k]);
    ApprovalDecides(o, rs[k]);
  }

  /** So a sensitive source without an approval makes the whole build fail. */
  lemma UnapprovedFails(o: Options, x: Renderer, rs: seq<Request>, k: nat)
    requires k < |rs| && Sensitive(rs[k].source) && !Approved(o, rs[k])
    ensures BuildPlan(o, x, rs).Err?
  {
    hide BuildPlan, Trim, Sensitive, Approved;
    if BuildPlan(o, x, rs).Ok? {
      var i := SensitiveIsApproved(o, x, rs, BuildPlan(o, x, rs).value, k);
      assert false;
    }
  }

  // ---- The mode a request is collected by ----

  /** The modes the compiler can render. */
  predicate Renders(mode: string) {
    var m := Trim(mode);
    m == "otel_filelog" || m == "syslog" || m == "netflow" || m == "windows_eventlog" || m == "wef" || m == "splunk_hec"
    || m == "kafka" || m == "otlp" || m == "prometheus"
  }

  lemma {:induction false} FirstRecipe(recipes: seq<Recipe>) returns (i: nat)
    ensures i <= |recipes| && forall j :: 0 <= j < i ==> !Renders(recipes[j].mode)
    ensures i < |recipes| ==> Renders(recipes[i].mode) && FirstRenderableRecipe(recipes) == Some(recipes[i])
    ensures i == |recipes| ==> FirstRenderableRecipe(recipes) == None
  {
    hide Trim;
    if recipes == [] || Renders(recipes[0].mode) {
      i := 0;
    } else {
      i := FirstRecipe(recipes[1..]);
      i := i + 1;
    }
  }

  lemma {:induction false} FirstMode(modes: seq<string>) returns (i: nat)
    ensures i <= |modes| && forall j :: 0 <= j < i ==> !Renders(modes[j])
    ensures i < |modes| ==> Renders(modes[i]) && FirstRenderableMode(modes) == Some(modes[i])
    ensures i == |modes| ==> FirstRenderableMode(modes) == None
  {
    hide Trim;
    if modes == [] || Renders(modes[0]) {
      i := 0;
    } else {
      i := FirstMode(modes[1..]);
      i := i + 1;
    }
  }

  lemma {:induction false} FoundRecipe(recipes: seq<Recipe>, mode: string)
    ensures var r := FindRecipe(recipes, mode);
            && (r.Some? ==> Trim(r.value.mode) == mode && r.value in recipes)
            && (r.None? <==> forall i :: 0 <= i < |recipes| ==> Trim(recipes[i].mode) != mode)
  {
    hide Trim;
    if recipes != [] && Trim(recipes[0].mode) != mode { FoundRecipe(recipes[1..], mode); }
  }

  /** A normal recipe keeps its mode, trimmed, and its configuration. */
  lemma NormalKeeps(r: Recipe)
    ensures NormalizeRecipe(r).Ok? ==>
              Renders(r.mode) && NormalizeRecipe(r).value.mode == Trim(r.mode) && NormalizeRecipe(r).value.config == r.config
  {
    hide Trim, Lower, DefaultReceiver, ReceiverType;
    TrimIdempotent(r.mode);
  }

  /** A source is collected by the mode asked for, if one is; else by the first of its recipes that renders; else by the
      first of its modes that does. The recipe's own configuration is used, and a mode alone has none. */
  ghost predicate Chosen(s: Source, requested: string, r: Recipe) {
    if !Blank(requested) then
      && r.mode == Trim(requested)
      && ((exists i :: 0 <= i < |s.recipes| && Trim(s.recipes[i].mode) == r.mode && s.recipes[i].config == r.config)
          || (r.config == map[] && exists i :: 0 <= i < |s.modes| && Trim(s.modes[i]) == r.mode))
    else
      || (exists i :: 0 <= i < |s.recipes| && r.mode == Trim(s.recipes[i].mode) && r.config == s.recipes[i].config
                      && forall j :: 0 <= j < i ==> !Renders(s.recipes[j].mode))
      || (&& (forall j :: 0 <= j < |s.recipes| ==> !Renders(s.recipes[j].mode)) && r.config == map[]
          && exists i :: 0 <= i < |s.modes| && r.mode == Trim(s.modes[i]) && forall j :: 0 <= j < i ==> !Renders(s.modes[j]))
  }

  lemma SelectedIsChosen(s: Source, requested: string)
    requires SelectRecipe(s, requested).Ok?
    ensures Chosen(s, requested, SelectRecipe(s, requested).value) && Renders(SelectRecipe(s, requested).value.mode)
  {
    hide Trim, NormalizeRecipe, FindRecipe, FirstRenderableRecipe, FirstRenderableMode, Renders;
    forall r: Recipe
      ensures NormalizeRecipe(r).Ok? ==>
                Renders(r.mode) && NormalizeRecipe(r).value.mode == Trim(r.mode) && NormalizeRecipe(r).value.config == r.config
    {
      NormalKeeps(r);
    }
    forall m ensures Renders(Trim(m)) == Renders(m) && Trim(Trim(m)) == Trim(m) { RendersTrimmed(m); }
    FoundRecipe(s.recipes, Trim(requested));
    var i := FirstRecipe(s.recipes);
    var j := FirstMode(s.modes);
  }

  lemma RendersTrimmed(m: string)
    ensures Renders(Trim(m)) == Renders(m) && Trim(Trim(m)) == Trim(m)
  {
    hide Trim;
    TrimIdempotent(m);
  }

  lemma PieceChosen(o: Options, x: Renderer, r: Request)
    requires CompileSource(o, x, r).Ok?
    ensures var p := CompileSource(o, x, r).value;
            && Chosen(r.source, r.mode, p.recipe) && Trim(p.recipe.mode) == p.recipe.mode
            && SourcePlanOf(p).mode == p.recipe.mode && SourcePlanOf(p).pipelineID == PipelineID(p)
            && p.kind == (if p.recipe.mode == "prometheus" then "metrics" else "logs")
  {
    hide SelectRecipe, BuildReceivers, SourceAttributes, ComponentName, ApprovalRef, RequiresApproval, NormalizeCollectMode,
      Trim, StorageID, Sorting.SortStrings, IDs, PipelineID, SourceProcessor, Warnings, Chosen, Renders;
    SelectedIsChosen(r.source, r.mode);
    SelectedMode(r.source, r.mode);
  }

  /** In a compiled plan each request is collected by the mode chosen for it, in a pipeline of metrics for prometheus and
      of logs for any other. */
  lemma RequestMode(o: Options, x: Renderer, rs: seq<Request>, plan: Plan, k: nat) returns (i: nat, r: Recipe)
    requires BuildPlan(o, x, rs) == Ok(plan) && k < |rs|
    ensures i < |plan.sources| && plan.sources[i].sourceID == Trim(rs[k].source.sourceID)
    ensures Chosen(rs[k].source, rs[k].mode, r) && plan.sources[i].mode == r.mode
    ensures HasPrefix(plan.sources[i].pipelineID, if r.mode == "prometheus" then "metrics/" else "logs/")
  {
    hide BuildPlan, CompileSource, BasePlan, Trim, PipelineID, Sorting.SortStrings, Warnings, Chosen, SourcePlanOf, PipelineOf,
      RedactProcessor;
    var p;
    i, p := PieceOf(o, x, rs, plan, k);
    PieceID(o, x, rs[k]);
    PieceChosen(o, x, rs[k]);
    r := p.recipe;
    PipelinePrefix(p);
  }

  lemma PipelinePrefix(p: Piece)
    ensures HasPrefix(PipelineID(p), p.kind + "/")
  {
    assert PipelineID(p) == (p.kind + "/") + ("controlone." + p.name);
  }

  // ---- The attributes its records carry ----

  /** A key holds a value exactly when it is worth one. */
  predicate HoldsWhen(a: map<string, string>, key: string, present: bool, value: string) {
    (key in a <==> present) && (present ==> a[key] == value)
  }

  /** The attributes say where a record comes from and under which approval it was collected. */
  predicate Labels(s: Source, mode: string, collectMode: string, ref: string, a: map<string, string>) {
    && HoldsWhen(a, "c1.source_id", true, Trim(s.sourceID))
    && HoldsWhen(a, "c1.collector_mode", true, Trim(mode))
    && HoldsWhen(a, "c1.collect_mode", true, collectMode)
    && HoldsWhen(a, "c1.raw_message_retained", collectMode == "collect_parsed", "false")
    && HoldsWhen(a, "c1.pack_id", !Blank(s.packID), Trim(s.packID))
    && HoldsWhen(a, "c1.pack_version", !Blank(s.packVersion), Trim(s.packVersion))
    && HoldsWhen(a, "c1.parser_ids", NonBlank(s.parserIDs) != [], ParserIDs(s.parserIDs))
    && HoldsWhen(a, "c1.approval_ref", ref != "", ref)
  }

  function PutWhen(a: map<string, string>, key: string, present: bool, value: string): map<string, string> {
    if present then a[key := value] else a
  }

  lemma PutHolds(a: map<string, string>, key: string, present: bool, value: string, other: string, there: bool, held: string)
    requires other != key && HoldsWhen(a, other, there, held)
    ensures HoldsWhen(PutWhen(a, key, present, value), other, there, held)
  {
  }

  const KEYS := ["c1.source_id", "c1.collector_mode", "c1.collect_mode", "c1.raw_message_retained", "c1.pack_id",
                 "c1.pack_version", "c1.parser_ids", "c1.approval_ref"]

  lemma KeysDiffer()
    ensures Distinct(KEYS)
  {
    forall i, j | 0 <= i < j < |KEYS| ensures KEYS[i] != KEYS[j] {
      assert KEYS[0][3] == 's' && KEYS[1][3] == 'c' && KEYS[2][3] == 'c' && KEYS[3][3] == 'r' && KEYS[7][3] == 'a';
      assert KEYS[4][3] == 'p' && KEYS[5][3] == 'p' && KEYS[6][3] == 'p' && KEYS[4][5] == 'c' && KEYS[5][5] == 'c' && KEYS[6][5] == 'r';
      assert |KEYS[1]| == 17 && |KEYS[2]| == 15 && |KEYS[4]| == 10 && |KEYS[5]| == 15;
    }
  }

  /** Entries put one after the other under different keys, those that are absent skipped. */
  function Entries(keys: seq<string>, present: seq<bool>, values: seq<string>): map<string, string>
    requires |keys| == |present| == |values|
  {
    if keys == [] then map[] else
    var n := |keys| - 1;
    PutWhen(Entries(keys[..n], present[..n], values[..n]), keys[n], present[n], values[n])
  }

  lemma {:induction false} EntriesHold(keys: seq<string>, present: seq<bool>, values: seq<string>)
    requires |keys| == |present| == |values| && Distinct(keys)
    ensures forall i :: 0 <= i < |keys| ==> HoldsWhen(Entries(keys, present, values), keys[i], present[i], values[i])
    ensures forall k :: k in Entries(keys, present, values) ==> k in keys
  {
    hide PutWhen, HoldsWhen;
    if keys != [] {
      var n := |keys| - 1;
      var front := Entries(keys[..n], present[..n], values[..n]);
      EntriesHold(keys[..n], present[..n], values[..n]);
      PutLast(front, keys[..n], keys[n], present[n], values[n]);
      forall i | 0 <= i < n ensures HoldsWhen(Entries(keys, present, values), keys[i], present[i], values[i]) {
        PutHolds(front, keys[n], present[n], values[n], keys[i], present[i], values[i]);
      }
    }
  }

  lemma PutLast(a: map<string, string>, keys: seq<string>, key: string, present: bool, value: string)
    requires key !in keys && forall k :: k in a ==> k in keys
    ensures HoldsWhen(PutWhen(a, key, present, value), key, present, value)
    ensures forall k :: k in PutWhen(a, key, present, value) ==> k in keys + [key]
  {
  }

  lemma AttributesAreEntries(s: Source, mode: string, collectMode: string, ref: string)
    ensures SourceAttributes(s, mode, collectMode, ref)
         == Entries(KEYS, [true, true, true, collectMode == COLLECT_PARSED, !Blank(s.packID), !Blank(s.packVersion),
                           NonBlank(s.parserIDs) != [], ref != ""],
                    [Trim(s.sourceID), Trim(mode), collectMode, "false", Trim(s.packID), Trim(s.packVersion),
                     ParserIDs(s.parserIDs), ref])
  {
    hide Trim, NonBlank, ParserIDs, Blank;
    var present := [true, true, true, collectMode == COLLECT_PARSED, !Blank(s.packID), !Blank(s.packVersion),
                    NonBlank(s.parserIDs) != [], ref != ""];
    var values := [Trim(s.sourceID), Trim(mode), collectMode, "false", Trim(s.packID), Trim(s.packVersion),
                   ParserIDs(s.parserIDs), ref];
    EntriesUpTo(present, values, 3);
    EntriesUpTo(present, values, 4);
    EntriesUpTo(present, values, 5);
    EntriesUpTo(present, values, 6);
    EntriesUpTo(present, values, 7);
    EntriesUpTo(present, values, 8);
    EntriesUpTo(present, values, 2);
    EntriesUpTo(present, values, 1);
    hide Entries;
    NoEntries();
    assert KEYS[..8] == KEYS && present[..8] == present && values[..8] == values;
  }

  lemma NoEntries()
    ensures Entries([], [], []) == map[]
  {
  }

  lemma EntriesUpTo(present: seq<bool>, values: seq<string>, n: nat)
    requires |present| == |values| == 8 && 0 < n <= 8
    ensures Entries(KEYS[..n], present[..n], values[..n])
         == PutWhen(Entries(KEYS[..n - 1], present[..n - 1], values[..n - 1]), KEYS[n - 1], present[n - 1], values[n - 1])
  {
    hide PutWhen;
    assert KEYS[..n][..n - 1] == KEYS[..n - 1] && present[..n][..n - 1] == present[..n - 1] && values[..n][..n - 1] == values[..n - 1];
  }

  lemma AttributesLabel(s: Source, mode: string, collectMode: string, ref: string)
    ensures Labels(s, mode, collectMode, ref, SourceAttributes(s, mode, collectMode, ref))
  {
    hide Trim, NonBlank, ParserIDs, Blank, HoldsWhen, SourceAttributes, Entries;
    KeysDiffer();
    var present := [true, true, true, collectMode == COLLECT_PARSED, !Blank(s.packID), !Blank(s.packVersion),
                    NonBlank(s.parserIDs) != [], ref != ""];
    var values := [Trim(s.sourceID), Trim(mode), collectMode, "false", Trim(s.packID), Trim(s.packVersion),
                   ParserIDs(s.parserIDs), ref];
    AttributesAreEntries(s, mode, collectMode, ref);
    EntriesHold(KEYS, present, values);
    var a := SourceAttributes(s, mode, collectMode, ref);
    assert forall i :: 0 <= i < 8 ==> HoldsWhen(a, KEYS[i], present[i], values[i]);
    assert HoldsWhen(a, KEYS[0], present[0], values[0]) && HoldsWhen(a, KEYS[1], present[1], values[1]);
    assert HoldsWhen(a, KEYS[2], present[2], values[2]) && HoldsWhen(a, KEYS[3], present[3], values[3]);
    assert HoldsWhen(a, KEYS[4], present[4], values[4]) && HoldsWhen(a, KEYS[5], present[5], values[5]);
    assert HoldsWhen(a, KEYS[6], present[6], values[6]) && HoldsWhen(a, KEYS[7], present[7], values[7]);
  }

  lemma MergeAdds(o: Options, plan: Plan, p: Piece)
    requires Merge(o, plan, p).Ok?
    ensures var id := SourceProcessor(p.name);
            var m := Merge(o, plan, p).value.processors;
            id in m && m[id] == map["attributes" := Pairs(p.attributes)]
  {
    hide AddReceivers, PipelineID, PipelineOf, SourcePlanOf, Warnings;
    RedactProcessorFacts(o, p, p);
  }

  lemma {:induction false} LabelsStay(o: Options, x: Renderer, rs: seq<Request>, i: nat)
    requires AddSources(o, x, rs).Ok? && i < |rs|
    ensures CompileSource(o, x, rs[i]).Ok?
    ensures var p, m := CompileSource(o, x, rs[i]).value, AddSources(o, x, rs).value.processors;
            SourceProcessor(p.name) in m && m[SourceProcessor(p.name)] == map["attributes" := Pairs(p.attributes)]
  {
    hide CompileSource, Merge, SourceProcessor;
    var n := |rs| - 1;
    var plan := AddSources(o, x, rs[..n]).value;
    var last := CompileSource(o, x, rs[n]).value;
    if i < n {
      LabelsStay(o, x, rs[..n], i);
      OtelAttributes.MergeKeepsProcessor(o, plan, last, SourceProcessor(CompileSource(o, x, rs[i]).value.name));
    } else {
      MergeAdds(o, plan, last);
    }
  }

  lemma PieceLabels(o: Options, x: Renderer, r: Request)
    requires CompileSource(o, x, r).Ok?
    ensures var p := CompileSource(o, x, r).value;
            var sp := SourcePlanOf(p);
            && Labels(r.source, sp.mode, sp.collectMode, sp.approvalRef, p.attributes)
            && sp.processorID == SourceProcessor(p.name)
  {
    hide SelectRecipe, BuildReceivers, SourceAttributes, ComponentName, ApprovalRef, RequiresApproval, NormalizeCollectMode,
      Trim, StorageID, Sorting.SortStrings, IDs, PipelineID, SourceProcessor, Warnings, Labels;
    var recipe := SelectRecipe(r.source, r.mode).value;
    SelectedMode(r.source, r.mode);
    AttributesLabel(r.source, recipe.mode, CompileSource(o, x, r).value.collectMode, ApprovalRef(o, r));
  }

  /** In a compiled plan the processor of each request labels its records with source, pack, modes, parsers and approval. */
  lemma RequestIsLabelled(o: Options, x: Renderer, rs: seq<Request>, plan: Plan, k: nat) returns (i: nat, a: map<string, string>)
    requires BuildPlan(o, x, rs) == Ok(plan) && k < |rs|
    ensures i < |plan.sources| && plan.sources[i].processorID in plan.processors
    ensures plan.processors[plan.sources[i].processorID] == map["attributes" := Pairs(a)]
    ensures Labels(rs[k].source, plan.sources[i].mode, plan.sources[i].collectMode, plan.sources[i].approvalRef, a)
  {
    hide AddSources, CompileSource, BasePlan, Trim, PipelineID, Sorting.SortStrings, Sorting.Sort, RequestLeq, SourcePlanOf,
      PipelineOf, RedactProcessor, Labels, Blank;
    var p;
    i, p := PieceOf(o, x, rs, plan, k);
    PieceLabels(o, x, rs[k]);
    a := p.attributes;
    OrderIsTotal();
    var sorted := Sorting.Sort(rs, RequestLeq);
    Sorting.SortSorts(rs, RequestLeq);
    Sorting.SameMembers(sorted, rs, rs[k]);
    var j :| 0 <= j < |sorted| && sorted[j] == rs[k];
    LabelsStay(o, x, sorted, j);
  }

  // ---- Where they are sent ----

  /** The exporters of a compiled plan: records go to the endpoint given, and those of network pipelines to the network
      endpoint when there is one. */
  lemma ExportersReach(o: Options, x: Renderer, rs: seq<Request>, plan: Plan)
    requires BuildPlan(o, x, rs) == Ok(plan)
    ensures EXPORTER in plan.exporters && "endpoint" in plan.exporters[EXPORTER]
    ensures plan.exporters[EXPORTER]["endpoint"] == Str(Trim(o.endpoint)) && !Blank(o.endpoint)
    ensures NETWORK_EXPORTER in plan.exporters <==> o.networkLogsEndpoint != ""
    ensures o.networkLogsEndpoint != "" ==>
              && "logs_endpoint" in plan.exporters[NETWORK_EXPORTER] && "endpoint" !in plan.exporters[NETWORK_EXPORTER]
              && plan.exporters[NETWORK_EXPORTER]["logs_endpoint"] == Str(o.networkLogsEndpoint)
  {
    hide AddSources, Sorting.Sort, RequestLeq, BasePlan, CompileSource, Trim;
    var ps, _ := BuiltPlan(o, x, rs, plan);
    BaseExportersReach(o);
  }

  lemma BaseExportersReach(o: Options)
    ensures var e := BasePlan(o).exporters;
            && EXPORTER in e && "endpoint" in e[EXPORTER] && e[EXPORTER]["endpoint"] == Str(Trim(o.endpoint))
            && (NETWORK_EXPORTER in e <==> o.networkLogsEndpoint != "")
            && (o.networkLogsEndpoint != "" ==>
                  "logs_endpoint" in e[NETWORK_EXPORTER] && "endpoint" !in e[NETWORK_EXPORTER]
                  && e[NETWORK_EXPORTER]["logs_endpoint"] == Str(o.networkLogsEndpoint))
  {
    hide Sorting.SortStrings, StorageID, Trim;
    ExporterNames();
    ConfigEndpoint(o);
    hide ExporterConfig;
  }

  lemma ConfigEndpoint(o: Options)
    ensures "endpoint" in ExporterConfig(o) && ExporterConfig(o)["endpoint"] == Str(Trim(o.endpoint))
  {
    hide Trim;
    assert "endpoint"[0] == 'e' && "retry_on_failure"[0] == 'r' && "sending_queue"[0] == 's' && "compression"[0] == 'c';
  }

  lemma ExporterNames()
    ensures EXPORTER != NETWORK_EXPORTER && "logs_endpoint" != "endpoint"
  {
    assert |EXPORTER| != |NETWORK_EXPORTER|;
    assert |"logs_endpoint"| != |"endpoint"|;
  }
}
