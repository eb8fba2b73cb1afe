/** When compilation of a collector configuration succeeds, what the plan then represents, and that the
    result does not depend on the order of the sources. */
module OtelProperties {
  import opened OtelModel
  import opened OtelCompiler
  import opened Text
  import opened Wrappers
  import Sorting

  // ---- Lists of identifiers ----

  predicate Distinct<T(==)>(s: seq<T>) {
    forall i, j :: 0 <= i < j < |s| ==> s[i] != s[j]
  }

  function Flat<T>(s: seq<T>, f: T -> seq<string>): seq<string> {
    if s == [] then [] else Flat(s[..|s| - 1], f) + f(s[|s| - 1])
  }

  lemma {:induction false} FlatConcat<T>(s: seq<T>, t: seq<T>, f: T -> seq<string>)
    ensures Flat(s + t, f) == Flat(s, f) + Flat(t, f)
  {
    if t == [] {
      assert s + t == s;
    } else {
      assert (s + t)[..|s + t| - 1] == s + t[..|t| - 1];
      FlatConcat(s, t[..|t| - 1], f);
    }
  }

  lemma FlatHead<T>(s: seq<T>, f: T -> seq<string>)
    requires s != []
    ensures Flat(s, f) == f(s[0]) + Flat(s[1..], f)
  {
    assert s == [s[0]] + s[1..];
    FlatConcat([s[0]], s[1..], f);
    assert [s[0]][..0] == [];
  }

  lemma FlatWithout<T>(t: seq<T>, i: nat, f: T -> seq<string>)
    requires i < |t|
    ensures multiset(Flat(t, f)) == multiset(f(t[i])) + multiset(Flat(t[..i] + t[i + 1..], f))
  {
    assert t == t[..i] + t[i..];
    FlatConcat(t[..i], t[i..], f);
    FlatHead(t[i..], f);
    assert t[i..][1..] == t[i + 1..];
    FlatConcat(t[..i], t[i + 1..], f);
  }

  lemma {:induction false} FlatPermutation<T(!new)>(s: seq<T>, t: seq<T>, f: T -> seq<string>)
    requires multiset(s) == multiset(t)
    ensures multiset(Flat(s, f)) == multiset(Flat(t, f))
  {
    if s == [] {
      Sorting.SameLength(s, t);
    } else {
      var i := Sorting.RemoveHead(s, t);
      FlatPermutation(s[1..], t[..i] + t[i + 1..], f);
      FlatHead(s, f);
      FlatWithout(t, i, f);
    }
  }

  lemma MemberOfFlat<T>(s: seq<T>, f: T -> seq<string>, i: nat, id: string)
    requires i < |s| && id in f(s[i])
    ensures id in Flat(s, f)
    decreases |s|
  {
    if i < |s| - 1 { MemberOfFlat(s[..|s| - 1], f, i, id); }
  }

  lemma {:induction false} OriginInFlat<T>(s: seq<T>, f: T -> seq<string>, id: string) returns (i: nat)
    requires id in Flat(s, f)
    ensures i < |s| && id in f(s[i])
  {
    if id in f(s[|s| - 1]) { i := |s| - 1; } else { i := OriginInFlat(s[..|s| - 1], f, id); }
  }

  lemma DistinctConcat<T>(s: seq<T>, t: seq<T>)
    ensures Distinct(s + t) <==> Distinct(s) && Distinct(t) && forall x :: x in t ==> x !in s
  {
    var u := s + t;
    if Distinct(u) {
      forall i, j | 0 <= i < j < |s| ensures s[i] != s[j] { assert u[i] != u[j]; }
      forall i, j | 0 <= i < j < |t| ensures t[i] != t[j] { assert u[|s| + i] != u[|s| + j]; }
      forall x | x in t ensures x !in s {
        var j :| 0 <= j < |t| && t[j] == x;
        forall i | 0 <= i < |s| ensures s[i] != x { assert u[i] != u[|s| + j]; }
      }
    } else {
      var i, j :| 0 <= i < j < |u| && u[i] == u[j];
      if j >= |s| { assert t[j - |s|] in t; }
      if i >= |s| { assert t[i - |s|] == t[j - |s|]; }
    }
  }

  lemma {:induction false} DistinctCounts<T>(s: seq<T>)
    ensures Distinct(s) <==> forall x :: multiset(s)[x] <= 1
  {
    if s != [] {
      var front, last := s[..|s| - 1], s[|s| - 1];
      assert s == front + [last];
      DistinctCounts(front);
      DistinctConcat(front, [last]);
      assert last in front <==> last in multiset(front);
      if forall x :: multiset(s)[x] <= 1 {
        forall x ensures multiset(front)[x] <= 1 { assert multiset(s)[x] <= 1; }
        assert multiset(s)[last] <= 1;
      }
    }
  }

  lemma DistinctPermutation<T>(s: seq<T>, t: seq<T>)
    requires multiset(s) == multiset(t)
    ensures Distinct(s) <==> Distinct(t)
  {
    DistinctCounts(s);
    DistinctCounts(t);
  }

  // ---- The plan as a function of its pieces ----

  function NameOf(p: Piece): seq<string> {
    [p.name]
  }

  function IDsOf(p: Piece): seq<string> {
    IDs(p.builds)
  }

  predicate Owns(p: Piece, id: string) {
    id == SourceProcessor(p.name) || (p.collectMode == COLLECT_PARSED && id == RedactProcessor(p.name))
  }

  predicate Proper(p: Piece) {
    p.builds != [] && p.kind == PipelineType(p.recipe.mode)
  }

  ghost predicate Receives(plan: Plan, ps: seq<Piece>) {
    && (forall id :: id in plan.receivers <==> id in Flat(ps, IDsOf))
    && (forall i, k :: 0 <= i < |ps| && 0 <= k < |ps[i].builds| ==>
          ps[i].builds[k].id in plan.receivers && plan.receivers[ps[i].builds[k].id] == ps[i].builds[k].config)
  }

  ghost predicate Processes(o: Options, plan: Plan, ps: seq<Piece>) {
    && (forall id :: id in plan.processors ==>
          id in BasePlan(o).processors || exists i :: 0 <= i < |ps| && Owns(ps[i], id))
    && (forall id :: id in BasePlan(o).processors ==> id in plan.processors)
    && (forall i, id :: 0 <= i < |ps| && Owns(ps[i], id) ==> id in plan.processors)
  }

  ghost predicate Pipes(o: Options, plan: Plan, ps: seq<Piece>) {
    && (forall id :: id in plan.pipelines ==> exists i :: 0 <= i < |ps| && PipelineID(ps[i]) == id)
    && (forall i :: 0 <= i < |ps| ==>
          PipelineID(ps[i]) in plan.pipelines && plan.pipelines[PipelineID(ps[i])] == PipelineOf(o, ps[i]))
  }

  ghost predicate Lists(plan: Plan, ps: seq<Piece>) {
    |plan.sources| == |ps| && forall i :: 0 <= i < |ps| ==> plan.sources[i] == SourcePlanOf(ps[i])
  }

  ghost predicate Framed(o: Options, plan: Plan) {
    var base := BasePlan(o);
    plan.extensions == base.extensions && plan.exporters == base.exporters && plan.serviceExtensions == base.serviceExtensions
  }

  ghost predicate Represents(o: Options, plan: Plan, ps: seq<Piece>) {
    && (forall i :: 0 <= i < |ps| ==> Proper(ps[i]))
    && Receives(plan, ps) && Processes(o, plan, ps) && Pipes(o, plan, ps) && Lists(plan, ps) && Framed(o, plan)
  }

  ghost predicate Fresh(ps: seq<Piece>, p: Piece) {
    && Distinct(IDs(p.builds))
    && (forall id :: id in IDs(p.builds) ==> id !in Flat(ps, IDsOf))
    && p.name !in Flat(ps, NameOf)
  }

  lemma {:induction false} AddReceiversIff(known: map<string, Config>, builds: seq<Build>)
    ensures AddReceivers(known, builds).Ok? <==>
            Distinct(IDs(builds)) && forall id :: id in IDs(builds) ==> id !in known
    ensures AddReceivers(known, builds).Ok? ==>
              var m := AddReceivers(known, builds).value;
              && (forall id :: id in m <==> id in known || id in IDs(builds))
              && (forall id :: id in known ==> id in m && m[id] == known[id])
              && (forall k :: 0 <= k < |builds| ==> builds[k].id in m && m[builds[k].id] == builds[k].config)
  {
    if builds != [] {
      var front, last := builds[..|builds| - 1], builds[|builds| - 1];
      AddReceiversIff(known, front);
      assert IDs(builds) == IDs(front) + [last.id];
      DistinctConcat(IDs(front), [last.id]);
      hide IDs, Distinct;
      if AddReceivers(known, front).Ok? && last.id !in AddReceivers(known, front).value {
        var m := AddReceivers(known, builds).value;
        forall k | 0 <= k < |builds| ensures builds[k].id in m && m[builds[k].id] == builds[k].config {
          if k < |front| { assert builds[k] == front[k]; }
        }
      }
    }
  }

  lemma SourceProcessorFacts(o: Options, p: Piece, q: Piece)
    ensures SourceProcessor(p.name) !in BasePlan(o).processors
    ensures Owns(q, SourceProcessor(p.name)) ==> p.name == q.name
  {
    hide Sorting.SortStrings, ExporterConfig, StorageID;
    var id := SourceProcessor(p.name);
    assert id[0] == 'r' && RedactProcessor(q.name)[0] == 't';
    assert MEMORY_LIMITER[0] == 'm' && BATCH[0] == 'b' && NETWORK_BATCH[0] == 'b' && |COMMON_RESOURCE| < |id|;
    assert id[27..] == p.name;
    assert SourceProcessor(q.name)[27..] == q.name;
  }

  lemma RedactProcessorFacts(o: Options, p: Piece, q: Piece)
    ensures RedactProcessor(p.name) !in BasePlan(o).processors
    ensures RedactProcessor(p.name) != SourceProcessor(q.name)
    ensures Owns(q, RedactProcessor(p.name)) ==> p.name == q.name
  {
    hide Sorting.SortStrings, ExporterConfig, StorageID;
    var id := RedactProcessor(p.name);
    assert id[0] == 't' && SourceProcessor(q.name)[0] == 'r';
    assert MEMORY_LIMITER[0] == 'm' && BATCH[0] == 'b' && NETWORK_BATCH[0] == 'b' && COMMON_RESOURCE[0] == 'r';
    assert id[28..|id| - 11] == p.name;
    var other := RedactProcessor(q.name);
    assert other[28..|other| - 11] == q.name;
  }

  lemma PipelineIDFacts(p: Piece, q: Piece)
    requires Proper(p) && Proper(q) && PipelineID(p) == PipelineID(q)
    ensures p.name == q.name
  {
    var a, b := PipelineID(p), PipelineID(q);
    assert a[0] == p.kind[0] && b[0] == q.kind[0];
    assert p.kind == q.kind;
    assert a[|p.kind| + 12..] == p.name && b[|q.kind| + 12..] == q.name;
  }

  lemma AddProcessorsIff(o: Options, plan: Plan, ps: seq<Piece>, p: Piece)
    requires Processes(o, plan, ps)
    ensures AddProcessors(plan.processors, p).Ok? <==> p.name !in Flat(ps, NameOf)
    ensures AddProcessors(plan.processors, p).Ok? ==>
              Processes(o, plan.(processors := AddProcessors(plan.processors, p).value), ps + [p])
  {
    hide BasePlan, Flat, SourceProcessor, RedactProcessor;
    var id := SourceProcessor(p.name);
    SourceProcessorFacts(o, p, p);
    RedactProcessorFacts(o, p, p);
    if p.name in Flat(ps, NameOf) {
      var i := OriginInFlat(ps, NameOf, p.name);
      assert Owns(ps[i], id);
    } else {
      forall i, key | 0 <= i < |ps| && Owns(ps[i], key) ensures key != id && key != RedactProcessor(p.name) {
        SourceProcessorFacts(o, p, ps[i]);
        RedactProcessorFacts(o, p, ps[i]);
        if ps[i].name == p.name { MemberOfFlat(ps, NameOf, i, p.name); }
      }
      assert AddProcessors(plan.processors, p).Ok?;
      ProcessesExtends(o, plan, ps, p);
    }
  }

  lemma ProcessesExtends(o: Options, plan: Plan, ps: seq<Piece>, p: Piece)
    requires Processes(o, plan, ps) && AddProcessors(plan.processors, p).Ok?
    ensures Processes(o, plan.(processors := AddProcessors(plan.processors, p).value), ps + [p])
  {
    hide BasePlan, SourceProcessor, RedactProcessor;
    var m, qs := AddProcessors(plan.processors, p).value, ps + [p];
    assert forall id :: id in m <==> id in plan.processors || Owns(p, id);
    forall id | id in m ensures id in BasePlan(o).processors || exists i :: 0 <= i < |qs| && Owns(qs[i], id) {
      if Owns(p, id) {
        assert Owns(qs[|ps|], id);
      } else if id !in BasePlan(o).processors {
        var i :| 0 <= i < |ps| && Owns(ps[i], id);
        assert Owns(qs[i], id);
      }
    }
  }

  lemma ReceivesExtends(plan: Plan, ps: seq<Piece>, p: Piece)
    requires Receives(plan, ps) && AddReceivers(plan.receivers, p.builds).Ok?
    ensures Receives(plan.(receivers := AddReceivers(plan.receivers, p.builds).value), ps + [p])
  {
    hide AddReceivers, IDs;
    AddReceiversIff(plan.receivers, p.builds);
    var qs, m := ps + [p], AddReceivers(plan.receivers, p.builds).value;
    assert qs[..|ps|] == ps;
    assert Flat(qs, IDsOf) == Flat(ps, IDsOf) + IDs(p.builds);
    hide Flat;
    forall i, k | 0 <= i < |qs| && 0 <= k < |qs[i].builds|
      ensures qs[i].builds[k].id in m && m[qs[i].builds[k].id] == qs[i].builds[k].config
    {
      var b := qs[i].builds[k];
      if i < |ps| { assert ps[i].builds[k] == b; }
    }
  }

  lemma PipesExtends(o: Options, plan: Plan, ps: seq<Piece>, p: Piece)
    requires Pipes(o, plan, ps) && PipelineID(p) !in plan.pipelines
    ensures Pipes(o, plan.(pipelines := plan.pipelines[PipelineID(p) := PipelineOf(o, p)]), ps + [p])
  {
    hide PipelineID, PipelineOf;
    var qs := ps + [p];
    var m := plan.pipelines[PipelineID(p) := PipelineOf(o, p)];
    forall id | id in m ensures exists i :: 0 <= i < |qs| && PipelineID(qs[i]) == id {
      if id == PipelineID(p) {
        assert PipelineID(qs[|ps|]) == id;
      } else {
        var i :| 0 <= i < |ps| && PipelineID(ps[i]) == id;
        assert PipelineID(qs[i]) == id;
      }
    }
  }

  lemma PipelineFresh(o: Options, plan: Plan, ps: seq<Piece>, p: Piece)
    requires Pipes(o, plan, ps) && Proper(p) && (forall i :: 0 <= i < |ps| ==> Proper(ps[i]))
    requires p.name !in Flat(ps, NameOf)
    ensures PipelineID(p) !in plan.pipelines
  {
    hide PipelineID, PipelineOf, Proper, Flat;
    if PipelineID(p) in plan.pipelines {
      var i :| 0 <= i < |ps| && PipelineID(ps[i]) == PipelineID(p);
      PipelineIDFacts(ps[i], p);
      MemberOfFlat(ps, NameOf, i, p.name);
    }
  }

  /** A piece merges exactly when none of its identifiers is taken. */
  lemma MergeIff(o: Options, plan: Plan, ps: seq<Piece>, p: Piece)
    requires Represents(o, plan, ps) && Proper(p)
    ensures Merge(o, plan, p).Ok? <==> Fresh(ps, p)
    ensures Merge(o, plan, p).Ok? ==> Represents(o, Merge(o, plan, p).value, ps + [p])
  {
    hide AddReceivers, AddProcessors, PipelineID, PipelineOf, SourcePlanOf, Warnings, Proper, Flat, BasePlan, Distinct, IDs;
    AddReceiversIff(plan.receivers, p.builds);
    AddProcessorsIff(o, plan, ps, p);
    if p.name !in Flat(ps, NameOf) { PipelineFresh(o, plan, ps, p); }
    if Merge(o, plan, p).Ok? {
      MergeKeeps(o, plan, ps, p);
    }
  }

  lemma SameParts(o: Options, r: Plan, c: Plan, l: Plan, plan: Plan, ps: seq<Piece>)
    requires r.receivers == plan.receivers && c.processors == plan.processors && l.pipelines == plan.pipelines
    requires Receives(r, ps) && Processes(o, c, ps) && Pipes(o, l, ps)
    ensures Receives(plan, ps) && Processes(o, plan, ps) && Pipes(o, plan, ps)
  {
    hide BasePlan, Owns, PipelineID, PipelineOf, Flat, IDsOf;
  }

  lemma MergeKeeps(o: Options, plan: Plan, ps: seq<Piece>, p: Piece)
    requires Represents(o, plan, ps) && Proper(p) && Merge(o, plan, p).Ok?
    ensures Represents(o, Merge(o, plan, p).value, ps + [p])
  {
    hide AddReceivers, AddProcessors, PipelineID, PipelineOf, SourcePlanOf, Warnings, Proper, Flat, BasePlan, IDs, IDsOf, Owns;
    var merged := Merge(o, plan, p).value;
    ReceivesExtends(plan, ps, p);
    ProcessesExtends(o, plan, ps, p);
    PipesExtends(o, plan, ps, p);
    assert Lists(merged, ps + [p]);
    assert Framed(o, merged);
    SameParts(o, plan.(receivers := merged.receivers), plan.(processors := merged.processors),
              plan.(pipelines := merged.pipelines), merged, ps + [p]);
  }

  // ---- When compilation succeeds ----

  ghost predicate AllCompile(o: Options, x: Renderer, rs: seq<Request>) {
    forall r :: r in rs ==> CompileSource(o, x, r).Ok?
  }

  ghost function Pieces(o: Options, x: Renderer, rs: seq<Request>): (ps: seq<Piece>)
    requires AllCompile(o, x, rs)
    ensures |ps| == |rs| && forall i :: 0 <= i < |rs| ==> CompileSource(o, x, rs[i]) == Ok(ps[i])
  {
    seq(|rs|, i requires 0 <= i < |rs| => assert rs[i] in rs; CompileSource(o, x, rs[i]).value)
  }

  lemma BuildsExist(x: Renderer, s: Source, r: Recipe, storageID: string)
    requires BuildReceivers(x, s, r, storageID).Ok?
    ensures BuildReceivers(x, s, r, storageID).value != []
  {
    hide FileLog, Syslog, Flow, Channels, Explicit;
    match Trim(r.mode)
    case "otel_filelog" => FileLogBuilds(s, r, storageID);
    case "syslog" => SyslogBuilds(x, s, r);
    case "netflow" => FlowBuilds(s, r);
    case "splunk_hec" => ExplicitBuilds(s, r);
    case "kafka" => ExplicitBuilds(s, r);
    case "prometheus" => ExplicitBuilds(s, r);
    case _ =>
  }

  lemma FileLogBuilds(s: Source, r: Recipe, storageID: string)
    ensures FileLog(s, r, storageID).Ok? ==> |FileLog(s, r, storageID).value| == 1
  {
    hide Strings, MetadataStrings, DedupeSorted, Default, WithRetry, WithStorage, ReceiverID;
  }

  lemma SyslogBuilds(x: Renderer, s: Source, r: Recipe)
    ensures Syslog(x, s, r).Ok? ==> |Syslog(x, s, r).value| == 1
  {
  }

  lemma FlowBuilds(s: Source, r: Recipe)
    ensures Flow(s, r).Ok? ==> |Flow(s, r).value| == 1
  {
    hide Default, ReceiverID;
  }

  lemma ExplicitBuilds(s: Source, r: Recipe)
    ensures Explicit(s, r).Ok? ==> |Explicit(s, r).value| == 1
  {
  }

  lemma CompiledIsProper(o: Options, x: Renderer, r: Request)
    requires CompileSource(o, x, r).Ok?
    ensures Proper(CompileSource(o, x, r).value)
  {
    hide SelectRecipe, BuildReceivers, SourceAttributes, ComponentName, ApprovalRef, RequiresApproval;
    var recipe := SelectRecipe(r.source, r.mode).value;
    BuildsExist(x, r.source, recipe, StorageID(o));
  }

  lemma EmptyRepresents(o: Options)
    ensures Represents(o, BasePlan(o), [])
  {
    hide Sorting.SortStrings, ExporterConfig, StorageID;
  }

  ghost predicate IDsDistinct(ps: seq<Piece>) {
    Distinct(Flat(ps, NameOf)) && Distinct(Flat(ps, IDsOf))
  }

  lemma DistinctExtends(ps: seq<Piece>, p: Piece)
    ensures IDsDistinct(ps + [p]) <==> IDsDistinct(ps) && Fresh(ps, p)
  {
    assert (ps + [p])[..|ps|] == ps;
    assert Flat(ps + [p], NameOf) == Flat(ps, NameOf) + [p.name];
    assert Flat(ps + [p], IDsOf) == Flat(ps, IDsOf) + IDs(p.builds);
    DistinctConcat(Flat(ps, NameOf), [p.name]);
    DistinctConcat(Flat(ps, IDsOf), IDs(p.builds));
  }

  /** The sources of a list merge exactly when each compiles alone and no identifier repeats. */
  lemma {:induction false} AddSourcesIff(o: Options, x: Renderer, rs: seq<Request>)
    ensures AddSources(o, x, rs).Ok? <==> AllCompile(o, x, rs) && IDsDistinct(Pieces(o, x, rs))
    ensures AddSources(o, x, rs).Ok? ==> Represents(o, AddSources(o, x, rs).value, Pieces(o, x, rs))
  {
    hide CompileSource, Merge, BasePlan, Represents, Distinct, Flat, IDsDistinct, Fresh, Proper;
    if rs == [] {
      EmptyRepresents(o);
      EmptyDistinct();
    } else {
      var front, last := rs[..|rs| - 1], rs[|rs| - 1];
      AddSourcesIff(o, x, front);
      if AllCompile(o, x, rs) {
        var ps, qs := Pieces(o, x, front), Pieces(o, x, rs);
        var p := qs[|front|];
        assert qs == ps + [p];
        DistinctExtends(ps, p);
        CompiledIsProper(o, x, last);
        if AddSources(o, x, front).Ok? {
          MergeIff(o, AddSources(o, x, front).value, ps, p);
        }
      }
    }
  }

  lemma EmptyDistinct()
    ensures IDsDistinct([])
  {
  }

  // ---- Independence of input order ----

  lemma OrderIsTotal()
    ensures Sorting.TotalPreorder(RequestLeq)
  {
    hide OrderKey;
    forall a: Request, b: Request ensures RequestLeq(a, b) || RequestLeq(b, a) { KeysTotal(OrderKey(a), OrderKey(b)); }
    forall a: Request, b: Request, c: Request | RequestLeq(a, b) && RequestLeq(b, c) ensures RequestLeq(a, c) {
      KeysTransitive(OrderKey(a), OrderKey(b), OrderKey(c));
    }
  }

  lemma {:induction false} KeysTotal(a: seq<string>, b: seq<string>)
    ensures KeysLeq(a, b) || KeysLeq(b, a)
  {
    if a != [] && b != [] {
      if a[0] == b[0] { KeysTotal(a[1..], b[1..]); } else { LeqTotal(a[0], b[0]); }
    }
  }

  lemma {:induction false} KeysTransitive(a: seq<string>, b: seq<string>, c: seq<string>)
    requires KeysLeq(a, b) && KeysLeq(b, c)
    ensures KeysLeq(a, c)
  {
    hide Leq;
    if a != [] {
      if a[0] == b[0] == c[0] {
        KeysTransitive(a[1..], b[1..], c[1..]);
      } else {
        if a[0] == b[0] { LeqReflexive(a[0]); }
        if b[0] == c[0] { LeqReflexive(c[0]); }
        LeqTransitive(a[0], b[0], c[0]);
        if a[0] == c[0] { LeqAntisymmetric(a[0], b[0]); }
      }
    }
  }

  lemma {:induction false} KeysAntisymmetric(a: seq<string>, b: seq<string>)
    requires KeysLeq(a, b) && KeysLeq(b, a)
    ensures a == b
  {
    hide Leq;
    if a != [] {
      if a[0] == b[0] {
        KeysAntisymmetric(a[1..], b[1..]);
        assert a == [a[0]] + a[1..] && b == [b[0]] + b[1..];
      } else {
        LeqAntisymmetric(a[0], b[0]);
        assert false;
      }
    }
  }

  /** Sources that tie under the order share a source id. */
  lemma TieSharesSource(a: Request, b: Request)
    requires RequestLeq(a, b) && RequestLeq(b, a)
    ensures a.source.sourceID == b.source.sourceID
  {
    hide KeysLeq;
    KeysAntisymmetric(OrderKey(a), OrderKey(b));
    assert OrderKey(a)[0] == OrderKey(b)[0];
  }

  lemma CompiledName(o: Options, x: Renderer, r: Request)
    requires CompileSource(o, x, r).Ok?
    ensures CompileSource(o, x, r).value.name == ComponentName(Trim(r.source.sourceID))
  {
    hide SelectRecipe, BuildReceivers, SourceAttributes, ComponentName, ApprovalRef, RequiresApproval;
  }

  lemma FlatNamesAt(ps: seq<Piece>)
    ensures |Flat(ps, NameOf)| == |ps| && forall i :: 0 <= i < |ps| ==> Flat(ps, NameOf)[i] == ps[i].name
  {
    if ps != [] { FlatNamesAt(ps[..|ps| - 1]); }
  }

  lemma SharedName(ps: seq<Piece>, i: nat, j: nat)
    requires i < |ps| && j < |ps| && i != j && ps[i].name == ps[j].name
    ensures !Distinct(Flat(ps, NameOf))
  {
    FlatNamesAt(ps);
    var names := Flat(ps, NameOf);
    assert names[i] == names[j];
  }

  /** If two unequal sources tie, compilation fails: they share an identifier. */
  lemma TieFails(o: Options, x: Renderer, rs: seq<Request>)
    requires !Sorting.TiesAreEqual(rs, RequestLeq)
    ensures AddSources(o, x, rs).Err?
  {
    hide CompileSource, Represents, RequestLeq, ComponentName, AddSources, Flat;
    var a, b :| a in rs && b in rs && RequestLeq(a, b) && RequestLeq(b, a) && a != b;
    TieSharesSource(a, b);
    AddSourcesIff(o, x, rs);
    if AddSources(o, x, rs).Ok? {
      var ps := Pieces(o, x, rs);
      var i :| 0 <= i < |rs| && rs[i] == a;
      var j :| 0 <= j < |rs| && rs[j] == b;
      CompiledName(o, x, a);
      CompiledName(o, x, b);
      SharedName(ps, i, j);
    }
  }

  /** The plan does not depend on the order in which the sources are given. */
  lemma OrderIndependent(o: Options, x: Renderer, s: seq<Request>, t: seq<Request>)
    requires multiset(s) == multiset(t)
    ensures BuildPlan(o, x, s) == BuildPlan(o, x, t) || (BuildPlan(o, x, s).Err? && BuildPlan(o, x, t).Err?)
  {
    hide AddSources, RequestLeq, Sorting.Sort;
    OrderIsTotal();
    Sorting.SameLength(s, t);
    if Sorting.TiesAreEqual(s, RequestLeq) {
      Sorting.SortPermutation(s, t, RequestLeq);
    } else {
      Sorting.SortSorts(s, RequestLeq);
      Sorting.SortSorts(t, RequestLeq);
      TiesSurvive(s, Sorting.Sort(s, RequestLeq));
      TiesSurvive(s, Sorting.Sort(t, RequestLeq));
      TieFails(o, x, Sorting.Sort(s, RequestLeq));
      TieFails(o, x, Sorting.Sort(t, RequestLeq));
    }
  }

  lemma TiesSurvive(s: seq<Request>, t: seq<Request>)
    requires multiset(s) == multiset(t) && !Sorting.TiesAreEqual(s, RequestLeq)
    ensures !Sorting.TiesAreEqual(t, RequestLeq)
  {
    hide RequestLeq;
    if Sorting.TiesAreEqual(t, RequestLeq) { Sorting.TiesTransfer(t, s, RequestLeq); }
  }

  lemma {:induction false} PiecesPermutation(o: Options, x: Renderer, s: seq<Request>, t: seq<Request>)
    requires multiset(s) == multiset(t) && AllCompile(o, x, s) && AllCompile(o, x, t)
    ensures multiset(Pieces(o, x, s)) == multiset(Pieces(o, x, t))
  {
    hide CompileSource;
    if s == [] {
      Sorting.SameLength(s, t);
    } else {
      var i := Sorting.RemoveHead(s, t);
      var rest := t[..i] + t[i + 1..];
      assert forall r :: r in rest ==> r in t;
      PiecesPermutation(o, x, s[1..], rest);
      var p, q := Pieces(o, x, s), Pieces(o, x, t);
      assert p == [p[0]] + Pieces(o, x, s[1..]);
      assert q[..i] + q[i + 1..] == Pieces(o, x, rest);
      Sorting.RemoveAt(q, i);
    }
  }

  /** Compilation succeeds exactly when there is a source and an endpoint, each source compiles alone,
      and neither a component name nor a receiver id occurs twice. */
  lemma BuildSucceedsIff(o: Options, x: Renderer, rs: seq<Request>)
    ensures BuildPlan(o, x, rs).Ok? <==>
            rs != [] && !Blank(o.endpoint) && AllCompile(o, x, rs) && IDsDistinct(Pieces(o, x, rs))
  {
    hide AddSources, RequestLeq, Sorting.Sort, CompileSource, Flat, Distinct;
    OrderIsTotal();
    Sorting.SortSorts(rs, RequestLeq);
    var sorted := Sorting.Sort(rs, RequestLeq);
    AddSourcesIff(o, x, sorted);
    assert AllCompile(o, x, rs) <==> AllCompile(o, x, sorted) by {
      forall r ensures r in rs <==> r in sorted { Sorting.SameMembers(rs, sorted, r); }
    }
    if AllCompile(o, x, rs) {
      PiecesPermutation(o, x, rs, sorted);
      var a, b := Pieces(o, x, rs), Pieces(o, x, sorted);
      FlatPermutation(a, b, NameOf);
      FlatPermutation(a, b, IDsOf);
      DistinctPermutation(Flat(a, NameOf), Flat(b, NameOf));
      DistinctPermutation(Flat(a, IDsOf), Flat(b, IDsOf));
    }
  }
}
