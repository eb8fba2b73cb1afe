/** The common resource attributes of a plan: tenant, collector, and a map of further ones that is trimmed key by
    key. When two keys trim alike, the plan can depend on the order in which the map is taken. */
module OtelAttributes {
  import opened OtelModel
  import opened OtelCompiler
  import opened OtelProperties
  import opened Text
  import opened Wrappers
  import opened TrimmedMaps
  import Sorting

  function Identity(tenant: string, collector: string): Table {
    var a: Table := if Trim(tenant) == "" then map[] else map["c1.tenant_id" := Trim(tenant)];
    if Trim(collector) == "" then a else a["c1.collector_id" := Trim(collector)]
  }

  method CommonAttributes(tenant: string, collector: string, raw: Table) returns (attributes: Table, ghost order: seq<Entry>)
    ensures Enumerates(order, raw) && attributes == AddAll(Identity(tenant, collector), order)
  {
    hide Trim, AddAll, Enumerates;
    attributes := map[];
    if Trim(tenant) != "" {
      attributes := attributes["c1.tenant_id" := Trim(tenant)];
    }
    if Trim(collector) != "" {
      attributes := attributes["c1.collector_id" := Trim(collector)];
    }
    attributes, order := TrimEntries(attributes, raw);
  }

  /** The options with the further attributes taken in the given order. */
  function Labelled(o: Options, base: Table, order: seq<Entry>): Options {
    o.(attributes := AddAll(base, order))
  }

  lemma AttributesDoNotCompile(o: Options, a: Table, x: Renderer, r: Request)
    ensures CompileSource(o.(attributes := a), x, r) == CompileSource(o, x, r)
  {
    hide Trim, SelectRecipe, BuildReceivers, RequiresApproval, NormalizeCollectMode, ComponentName, SourceAttributes;
  }

  /** Whether a plan is built does not depend on the attributes. */
  lemma AttributesDoNotDecide(o: Options, a: Table, x: Renderer, rs: seq<Request>)
    ensures BuildPlan(o.(attributes := a), x, rs).Ok? <==> BuildPlan(o, x, rs).Ok?
  {
    hide CompileSource, IDsDistinct, Sorting.Sort, RequestLeq, Represents, AddSources, Sorting.SortStrings, Blank;
    var sorted, p := Sorting.Sort(rs, RequestLeq), o.(attributes := a);
    forall r ensures CompileSource(p, x, r) == CompileSource(o, x, r) { AttributesDoNotCompile(o, a, x, r); }
    AddSourcesIff(o, x, sorted);
    AddSourcesIff(p, x, sorted);
    if AllCompile(o, x, sorted) { assert Pieces(o, x, sorted) == Pieces(p, x, sorted); }
  }

  lemma MergeKeepsProcessor(o: Options, plan: Plan, p: Piece, id: string)
    requires Merge(o, plan, p).Ok? && id in plan.processors
    ensures id in Merge(o, plan, p).value.processors && Merge(o, plan, p).value.processors[id] == plan.processors[id]
  {
    hide AddReceivers, SourceProcessor, RedactProcessor, PipelineID, PipelineOf, SourcePlanOf, Warnings;
  }

  lemma {:induction false} ProcessorStays(o: Options, x: Renderer, rs: seq<Request>, id: string)
    requires AddSources(o, x, rs).Ok? && id in BasePlan(o).processors
    ensures var plan := AddSources(o, x, rs).value;
            id in plan.processors && plan.processors[id] == BasePlan(o).processors[id]
  {
    hide CompileSource, Merge, BasePlan;
    if rs != [] {
      var front, last := rs[..|rs| - 1], rs[|rs| - 1];
      ProcessorStays(o, x, front, id);
      MergeKeepsProcessor(o, AddSources(o, x, front).value, CompileSource(o, x, last).value, id);
    }
  }

  /** The common processor of a plan carries the attributes as they are. */
  lemma AttributesShow(o: Options, x: Renderer, rs: seq<Request>, plan: Plan)
    requires BuildPlan(o, x, rs) == Ok(plan) && o.attributes != map[]
    ensures COMMON_RESOURCE in plan.processors && plan.processors[COMMON_RESOURCE] == map["attributes" := Pairs(o.attributes)]
  {
    hide AddSources, Sorting.Sort, RequestLeq, ExporterConfig, Sorting.SortStrings, StorageID;
    CommonInBase(o);
    hide BasePlan;
    ProcessorStays(o, x, Sorting.Sort(rs, RequestLeq), COMMON_RESOURCE);
  }

  lemma CommonInBase(o: Options)
    requires o.attributes != map[]
    ensures COMMON_RESOURCE in BasePlan(o).processors
    ensures BasePlan(o).processors[COMMON_RESOURCE] == map["attributes" := Pairs(o.attributes)]
  {
    hide ExporterConfig, Sorting.SortStrings, StorageID;
    assert COMMON_RESOURCE[0] == 'r' && NETWORK_BATCH[0] == 'b';
  }

  lemma PlansDiffer(o: Options, x: Renderer, rs: seq<Request>, a: Table, b: Table)
    requires BuildPlan(o, x, rs).Ok? && a != map[] && b != map[] && a != b
    ensures BuildPlan(o.(attributes := a), x, rs) != BuildPlan(o.(attributes := b), x, rs)
  {
    hide BuildPlan;
    var p, q := o.(attributes := a), o.(attributes := b);
    AttributesDoNotDecide(o, a, x, rs);
    AttributesDoNotDecide(o, b, x, rs);
    AttributesShow(p, x, rs, BuildPlan(p, x, rs).value);
    AttributesShow(q, x, rs, BuildPlan(q, x, rs).value);
    OneEntryTells(a, b);
  }

  lemma OneEntryTells(a: Table, b: Table)
    requires a != b
    ensures map["attributes" := Pairs(a)] != map["attributes" := Pairs(b)]
  {
    var m, n := map["attributes" := Pairs(a)], map["attributes" := Pairs(b)];
    assert m["attributes"] != n["attributes"];
  }

  /** For sources that compile, the plan is the same for every order of the attribute map exactly when no two of its
      keys trim alike and keep values that do not. */
  lemma AttributesOrderIff(o: Options, x: Renderer, rs: seq<Request>, base: Table, raw: Table)
    requires BuildPlan(o, x, rs).Ok?
    ensures (forall s, t :: Enumerates(s, raw) && Enumerates(t, raw)
                            ==> BuildPlan(Labelled(o, base, s), x, rs) == BuildPlan(Labelled(o, base, t), x, rs))
            <==> (forall d, e :: InMap(d, raw) && InMap(e, raw) ==> !Collide(d, e))
  {
    hide BuildPlan, AddAll, Enumerates, Collide;
    TrimOrderIff(base, raw);
    if d, e :| InMap(d, raw) && InMap(e, raw) && Collide(d, e) {
      var s, t := TwoTables(base, raw, d, e);
      PlansDiffer(o, x, rs, AddAll(base, s), AddAll(base, t));
    }
  }

  lemma TwoTables(base: Table, raw: Table, d: Entry, e: Entry) returns (s: seq<Entry>, t: seq<Entry>)
    requires InMap(d, raw) && InMap(e, raw) && Collide(d, e)
    ensures Enumerates(s, raw) && Enumerates(t, raw)
    ensures AddAll(base, s) != map[] && AddAll(base, t) != map[] && AddAll(base, s) != AddAll(base, t)
  {
    hide AddAll, Trim, Enumerates;
    var es := ListingEnds(raw, d, e);
    LastWins(base, es, d, e);
    LastWins(base, es, e, d);
    s, t := es + [d, e], es + [e, d];
  }
}
