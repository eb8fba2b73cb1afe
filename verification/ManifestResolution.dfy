/** Resolving a source of an accepted manifest: which parsers, detections and samples it gets. */
module ManifestResolution {
  import opened Text
  import opened Manifests

  /** Members whose trimmed id is among the references as spelled. */
  function PickParsers(ps: seq<Parser>, refs: seq<string>): seq<Parser> {
    if ps == [] then [] else
    PickParsers(ps[..|ps| - 1], refs) + if Trim(ps[|ps| - 1].parserID) in refs then [ps[|ps| - 1]] else []
  }

  function PickDetections(ds: seq<Detection>, refs: seq<string>): seq<Detection> {
    if ds == [] then [] else
    PickDetections(ds[..|ds| - 1], refs) + if Trim(ds[|ds| - 1].detectionID) in refs then [ds[|ds| - 1]] else []
  }

  function PickSamples(ss: seq<Sample>, refs: seq<string>): seq<Sample> {
    if ss == [] then [] else
    PickSamples(ss[..|ss| - 1], refs) + if Trim(ss[|ss| - 1].caseID) in refs then [ss[|ss| - 1]] else []
  }

  datatype Resolved = Resolved(source: Source, parsers: seq<Parser>, detections: seq<Detection>, samples: seq<Sample>)

  function Resolve(m: Manifest, s: Source): Resolved {
    Resolved(s, PickParsers(m.parsers, s.parsers), PickDetections(m.detections, s.detections), PickSamples(m.samples, s.samples))
  }

  method ResolveFromRecord(m: Manifest, s: Source) returns (r: Resolved)
    ensures r == Resolve(m, s)
  {
    hide Trim;
    var parserIDs := set x | x in s.parsers;
    var detectionIDs := set x | x in s.detections;
    var sampleIDs := set x | x in s.samples;
    var parsers, detections, samples := [], [], [];
    for i := 0 to |m.parsers|
      invariant parsers == PickParsers(m.parsers[..i], s.parsers)
    {
      assert m.parsers[..i + 1][..i] == m.parsers[..i];
      if Trim(m.parsers[i].parserID) in parserIDs { parsers := parsers + [m.parsers[i]]; }
    }
    for i := 0 to |m.detections|
      invariant detections == PickDetections(m.detections[..i], s.detections)
    {
      assert m.detections[..i + 1][..i] == m.detections[..i];
      if Trim(m.detections[i].detectionID) in detectionIDs { detections := detections + [m.detections[i]]; }
    }
    for i := 0 to |m.samples|
      invariant samples == PickSamples(m.samples[..i], s.samples)
    {
      assert m.samples[..i + 1][..i] == m.samples[..i];
      if Trim(m.samples[i].caseID) in sampleIDs { samples := samples + [m.samples[i]]; }
    }
    assert m.parsers[..|m.parsers|] == m.parsers && m.detections[..|m.detections|] == m.detections;
    assert m.samples[..|m.samples|] == m.samples;
    r := Resolved(s, parsers, detections, samples);
  }

  // ---- Padding ----

  /** In an accepted manifest every source is spelled without padding, and so is each of its parser references. */
  lemma AcceptedIsUnpadded(m: Manifest, i: nat, k: nat)
    requires Accepts(m) && i < |m.sources| && k < |m.sources[i].parsers|
    ensures m.sources[i].sourceID == Trim(m.sources[i].sourceID)
    ensures m.sources[i].parsers[k] == Trim(m.sources[i].parsers[k])
  {
    hide Trim, GoodID, HeaderOk, ParsersOk, DetectionsOk, Owns, SampleFields, SourceFields, TrimSet;
    var s := m.sources[i];
    var ref := s.parsers[k];
    assert SourceOk(m, s) && Covered(m, s);
    GoodRef(ref);
    var j :| 0 <= j < |m.samples| && Exercises(m.samples[j], s, ref);
    var p := m.samples[j];
    TrimIdempotent(p.sourceID);
    assert SampleOk(m, p);
    assert Trim(ref) in s.parsers;
    var n :| 0 <= n < |s.parsers| && s.parsers[n] == Trim(ref);
    TrimIdempotent(ref);
    assert Trim(s.parsers[n]) == Trim(s.parsers[k]);
    assert n == k;
  }

  lemma GoodRef(ref: string)
    ensures GoodID(ref) ==> !Blank(ref)
  {
  }

  /** A manifest with a padded parser reference, or a padded source id, is always rejected. */
  lemma PaddingRejected(m: Manifest, i: nat, k: nat)
    requires i < |m.sources| && k < |m.sources[i].parsers|
    requires m.sources[i].parsers[k] != Trim(m.sources[i].parsers[k]) || m.sources[i].sourceID != Trim(m.sources[i].sourceID)
    ensures !Accepts(m)
  {
    hide Accepts, Trim;
    if Accepts(m) { AcceptedIsUnpadded(m, i, k); }
  }

  // ---- Parsers ----

  /** How many of the parsers carry an id. */
  function Occurrences(ps: seq<Parser>, id: string): nat {
    if ps == [] then 0 else Occurrences(ps[..|ps| - 1], id) + if Trim(ps[|ps| - 1].parserID) == id then 1 else 0
  }

  lemma OccurrencesSnoc(ps: seq<Parser>, p: Parser, id: string)
    ensures Occurrences(ps + [p], id) == Occurrences(ps, id) + if Trim(p.parserID) == id then 1 else 0
  {
    hide Trim;
    assert (ps + [p])[..|ps + [p]| - 1] == ps;
  }

  lemma PickLast(ps: seq<Parser>, p: Parser, refs: seq<string>)
    ensures PickParsers(ps + [p], refs) == if Trim(p.parserID) in refs then PickParsers(ps, refs) + [p] else PickParsers(ps, refs)
  {
    hide Trim;
    assert (ps + [p])[..|ps + [p]| - 1] == ps;
    assert PickParsers(ps, refs) + [] == PickParsers(ps, refs);
  }

  lemma {:induction false} PickCounts(ps: seq<Parser>, refs: seq<string>, id: string)
    ensures Occurrences(PickParsers(ps, refs), id) == if id in refs then Occurrences(ps, id) else 0
  {
    if ps != [] {
      var front, last := ps[..|ps| - 1], ps[|ps| - 1];
      hide *;
      PickCounts(front, refs, id);
      assert ps == front + [last];
      PickLast(front, last, refs);
      OccurrencesSnoc(front, last, id);
      OccurrencesSnoc(PickParsers(front, refs), last, id);
    }
  }

  lemma {:induction false} OccursAtMostOnce(ps: seq<Parser>, id: string)
    requires forall i, j :: 0 <= i < j < |ps| ==> Trim(ps[i].parserID) != Trim(ps[j].parserID)
    ensures Occurrences(ps, id) == if exists i :: 0 <= i < |ps| && Trim(ps[i].parserID) == id then 1 else 0
  {
    hide Trim;
    if ps != [] {
      var front := ps[..|ps| - 1];
      OccursAtMostOnce(front, id);
      if exists i :: 0 <= i < |ps| && Trim(ps[i].parserID) == id {
        var i :| 0 <= i < |ps| && Trim(ps[i].parserID) == id;
        if i < |front| { assert Trim(front[i].parserID) == id; }
      }
      if exists i :: 0 <= i < |front| && Trim(front[i].parserID) == id {
        var i :| 0 <= i < |front| && Trim(front[i].parserID) == id;
        assert Trim(ps[i].parserID) == id;
      }
    }
  }

  lemma KnownParser(m: Manifest, id: string)
    requires id in TrimSet(ParserIDs(m))
    ensures exists i :: 0 <= i < |m.parsers| && Trim(m.parsers[i].parserID) == id
  {
    hide Trim;
    var i :| 0 <= i < |ParserIDs(m)| && id == Trim(ParserIDs(m)[i]);
    assert Trim(m.parsers[i].parserID) == id;
  }

  /** Every source of an accepted manifest resolves to exactly the parsers it lists, each once. */
  lemma ResolvesToItsParsers(m: Manifest, i: nat, id: string)
    requires Accepts(m) && i < |m.sources|
    ensures Occurrences(Resolve(m, m.sources[i]).parsers, id) == if id in m.sources[i].parsers then 1 else 0
  {
    hide Trim, GoodID, HeaderOk, ParserFields, DetectionsOk, SamplesOk, Owns, Covered, SourceFields, TrimSet;
    var s := m.sources[i];
    assert SourceOk(m, s);
    PickCounts(m.parsers, s.parsers, id);
    forall a, b | 0 <= a < b < |m.parsers| ensures Trim(m.parsers[a].parserID) != Trim(m.parsers[b].parserID) {
      assert Trim(ParserIDs(m)[a]) != Trim(ParserIDs(m)[b]);
    }
    OccursAtMostOnce(m.parsers, id);
    if id in s.parsers {
      var k :| 0 <= k < |s.parsers| && s.parsers[k] == id;
      AcceptedIsUnpadded(m, i, k);
      KnownParser(m, id);
    }
  }

  // ---- Detections and samples ----

  lemma {:induction false} PickedDetections(ds: seq<Detection>, refs: seq<string>, id: string)
    ensures (exists d :: d in PickDetections(ds, refs) && Trim(d.detectionID) == id)
            <==> id in refs && exists d :: d in ds && Trim(d.detectionID) == id
  {
    hide Trim;
    if ds != [] {
      var front, last := ds[..|ds| - 1], ds[|ds| - 1];
      PickedDetections(front, refs, id);
      assert forall d :: d in ds <==> d in front || d == last;
    }
  }

  lemma {:induction false} PickedSamples(ss: seq<Sample>, refs: seq<string>, id: string)
    ensures (exists p :: p in PickSamples(ss, refs) && Trim(p.caseID) == id)
            <==> id in refs && exists p :: p in ss && Trim(p.caseID) == id
  {
    hide Trim;
    if ss != [] {
      var front, last := ss[..|ss| - 1], ss[|ss| - 1];
      PickedSamples(front, refs, id);
      assert forall p :: p in ss <==> p in front || p == last;
    }
  }

  /** A detection an accepted source refers to is resolved exactly when the reference carries no padding. */
  lemma DetectionResolvedIff(m: Manifest, i: nat, k: nat)
    requires Accepts(m) && i < |m.sources| && k < |m.sources[i].detections|
    ensures var s := m.sources[i];
            (exists d :: d in Resolve(m, s).detections && Trim(d.detectionID) == Trim(s.detections[k]))
            <==> s.detections[k] == Trim(s.detections[k])
  {
    hide Trim, GoodID, HeaderOk, ParsersOk, DetectionFields, SamplesOk, Owns, Covered, SourceFields, PickDetections,
      PickParsers, PickSamples;
    var s := m.sources[i];
    var ref := s.detections[k];
    assert SourceOk(m, s);
    PickedDetections(m.detections, s.detections, Trim(ref));
    assert Trim(ref) in TrimSet(DetectionIDs(m));
    var j :| 0 <= j < |DetectionIDs(m)| && Trim(ref) == Trim(DetectionIDs(m)[j]);
    assert m.detections[j] in m.detections && Trim(m.detections[j].detectionID) == Trim(ref);
    if Trim(ref) in s.detections {
      var n :| 0 <= n < |s.detections| && s.detections[n] == Trim(ref);
      TrimIdempotent(ref);
      assert Trim(s.detections[n]) == Trim(s.detections[k]);
      assert n == k;
    }
  }

  /** A sample an accepted source refers to is resolved exactly when its unpadded id is listed. */
  lemma SampleResolvedIff(m: Manifest, i: nat, k: nat)
    requires Accepts(m) && i < |m.sources| && k < |m.sources[i].samples|
    ensures var s := m.sources[i];
            (exists p :: p in Resolve(m, s).samples && Trim(p.caseID) == Trim(s.samples[k]))
            <==> Trim(s.samples[k]) in s.samples
  {
    hide Trim, GoodID, HeaderOk, ParsersOk, DetectionsOk, SampleOk, Covered, PickDetections, PickParsers, PickSamples;
    var s := m.sources[i];
    var ref := s.samples[k];
    assert SourceFields(s) && Owns(m, s) by { assert SourceOk(m, s); }
    GoodRef(ref);
    PickedSamples(m.samples, s.samples, Trim(ref));
    var j :| 0 <= j < |m.samples| && Trim(m.samples[j].caseID) == Trim(ref) && Trim(m.samples[j].sourceID) == s.sourceID;
    assert m.samples[j] in m.samples;
  }

  // ---- Padding a detection reference goes unnoticed ----

  function Repad(m: Manifest, i: nat, k: nat, padded: string): Manifest
    requires i < |m.sources| && k < |m.sources[i].detections|
  {
    var s := m.sources[i];
    m.(sources := m.sources[i := s.(detections := s.detections[k := padded])])
  }

  /** Padding a detection reference of an accepted manifest leaves it accepted. */
  lemma PaddedDetectionAccepted(m: Manifest, i: nat, k: nat, padded: string)
    requires i < |m.sources| && k < |m.sources[i].detections|
    requires Accepts(m) && Trim(padded) == Trim(m.sources[i].detections[k])
    ensures Accepts(Repad(m, i, k, padded))
  {
    hide Trim, IDText, ParserFields, DetectionFields, SampleFields, SourceFields, TrimSet;
    var n := Repad(m, i, k, padded);
    assert ParserIDs(n) == ParserIDs(m) && DetectionIDs(n) == DetectionIDs(m);
    assert SourceIDs(n) == SourceIDs(m) && CaseIDs(n) == CaseIDs(m);
    RepadSources(m, i, k, padded);
    forall j | 0 <= j < |n.sources| ensures Owns(n, n.sources[j]) && Covered(n, n.sources[j]) {
      assert Owns(m, m.sources[j]) && Covered(m, m.sources[j]);
      RepadCross(m, i, k, padded, j);
    }
    forall j | 0 <= j < |n.samples| ensures SampleOk(n, n.samples[j]) {
      assert SampleOk(m, m.samples[j]);
      RepadListed(m, i, k, padded, m.samples[j]);
    }
  }

  lemma RepadCross(m: Manifest, i: nat, k: nat, padded: string, j: nat)
    requires i < |m.sources| && k < |m.sources[i].detections| && j < |m.sources|
    ensures var n := Repad(m, i, k, padded);
            Owns(n, n.sources[j]) == Owns(m, m.sources[j]) && Covered(n, n.sources[j]) == Covered(m, m.sources[j])
  {
    hide Trim;
    var n := Repad(m, i, k, padded);
    assert n.sources[j].samples == m.sources[j].samples && n.sources[j].parsers == m.sources[j].parsers;
    assert forall p, ref :: Exercises(p, n.sources[j], ref) == Exercises(p, m.sources[j], ref);
  }

  lemma RepadListed(m: Manifest, i: nat, k: nat, padded: string, p: Sample)
    requires i < |m.sources| && k < |m.sources[i].detections| && Listed(m, p)
    ensures Listed(Repad(m, i, k, padded), p)
  {
    hide Trim;
    var n := Repad(m, i, k, padded);
    forall j | 0 <= j < |n.sources| && n.sources[j].sourceID == Trim(p.sourceID) && n.sources[j].parsers != []
      ensures Trim(p.parserID) in n.sources[j].parsers
    {
      assert m.sources[j].sourceID == n.sources[j].sourceID && m.sources[j].parsers == n.sources[j].parsers;
    }
  }

  lemma RepadRefs(refs: seq<string>, k: nat, padded: string, known: set<string>)
    requires k < |refs| && RefsOk(refs, known) && Trim(padded) == Trim(refs[k])
    ensures RefsOk(refs[k := padded], known)
  {
    hide Trim, IDText;
    var r := refs[k := padded];
    forall a ensures 0 <= a < |r| ==> Trim(r[a]) == Trim(refs[a]) {}
    forall a | 0 <= a < |r| ensures GoodID(r[a]) && Trim(r[a]) in known { assert GoodID(refs[a]); }
    forall a, b | 0 <= a < b < |r| ensures Trim(r[a]) != Trim(r[b]) { assert Trim(refs[a]) != Trim(refs[b]); }
  }

  lemma RepadSources(m: Manifest, i: nat, k: nat, padded: string)
    requires i < |m.sources| && k < |m.sources[i].detections|
    requires SourcesOk(m) && Trim(padded) == Trim(m.sources[i].detections[k])
    ensures SourcesOk(Repad(m, i, k, padded))
  {
    hide Trim, GoodID, TrimSet, RefsOk;
    var n := Repad(m, i, k, padded);
    assert ParserIDs(n) == ParserIDs(m) && DetectionIDs(n) == DetectionIDs(m) && SourceIDs(n) == SourceIDs(m);
    forall j | 0 <= j < |n.sources| ensures SourceOk(n, n.sources[j]) {
      assert SourceOk(m, m.sources[j]);
      if j == i { RepadRefs(m.sources[i].detections, k, padded, TrimSet(DetectionIDs(m))); }
      FieldsIgnoreDetections(m.sources[j], n.sources[j].detections);
    }
  }

  lemma FieldsIgnoreDetections(s: Source, detections: seq<string>)
    ensures SourceFields(s.(detections := detections)) == SourceFields(s)
  {
    hide Trim, Allowed, SchemasOk, GoodID, Blank;
  }

  // ---- So does padding a sample reference ----

  function RepadSample(m: Manifest, i: nat, k: nat, padded: string): Manifest
    requires i < |m.sources| && k < |m.sources[i].samples|
  {
    var s := m.sources[i];
    m.(sources := m.sources[i := s.(samples := s.samples[k := padded])])
  }

  /** Padding a sample reference of an accepted manifest leaves it accepted. */
  lemma PaddedSampleAccepted(m: Manifest, i: nat, k: nat, padded: string)
    requires i < |m.sources| && k < |m.sources[i].samples|
    requires Accepts(m) && Trim(padded) == Trim(m.sources[i].samples[k])
    ensures Accepts(RepadSample(m, i, k, padded))
  {
    hide Trim, IDText, ParserFields, DetectionFields, SampleFields, SourceFields, TrimSet;
    var n := RepadSample(m, i, k, padded);
    assert ParserIDs(n) == ParserIDs(m) && DetectionIDs(n) == DetectionIDs(m);
    assert SourceIDs(n) == SourceIDs(m) && CaseIDs(n) == CaseIDs(m);
    RepadSampleSources(m, i, k, padded);
    forall j | 0 <= j < |n.sources| ensures Owns(n, n.sources[j]) && Covered(n, n.sources[j]) {
      assert Owns(m, m.sources[j]) && Covered(m, m.sources[j]);
      RepadSampleCross(m, i, k, padded, j);
    }
    forall j | 0 <= j < |n.samples| ensures SampleOk(n, n.samples[j]) {
      assert SampleOk(m, m.samples[j]);
      RepadSampleListed(m, i, k, padded, m.samples[j]);
    }
  }

  lemma RepadSampleCross(m: Manifest, i: nat, k: nat, padded: string, j: nat)
    requires i < |m.sources| && k < |m.sources[i].samples| && j < |m.sources|
    requires Trim(padded) == Trim(m.sources[i].samples[k])
    requires Owns(m, m.sources[j]) && Covered(m, m.sources[j])
    ensures var n := RepadSample(m, i, k, padded);
            Owns(n, n.sources[j]) && Covered(n, n.sources[j])
  {
    hide Trim;
    var n := RepadSample(m, i, k, padded);
    assert n.sources[j].parsers == m.sources[j].parsers;
    assert forall p, ref :: Exercises(p, n.sources[j], ref) == Exercises(p, m.sources[j], ref);
    forall a | 0 <= a < |n.sources[j].samples| ensures Trim(n.sources[j].samples[a]) == Trim(m.sources[j].samples[a]) {}
  }

  lemma RepadSampleListed(m: Manifest, i: nat, k: nat, padded: string, p: Sample)
    requires i < |m.sources| && k < |m.sources[i].samples| && Listed(m, p)
    ensures Listed(RepadSample(m, i, k, padded), p)
  {
    hide Trim;
    var n := RepadSample(m, i, k, padded);
    forall j | 0 <= j < |n.sources| && n.sources[j].sourceID == Trim(p.sourceID) && n.sources[j].parsers != []
      ensures Trim(p.parserID) in n.sources[j].parsers
    {
      assert m.sources[j].sourceID == n.sources[j].sourceID && m.sources[j].parsers == n.sources[j].parsers;
    }
  }

  lemma RepadSampleSources(m: Manifest, i: nat, k: nat, padded: string)
    requires i < |m.sources| && k < |m.sources[i].samples|
    requires SourcesOk(m) && Trim(padded) == Trim(m.sources[i].samples[k])
    ensures SourcesOk(RepadSample(m, i, k, padded))
  {
    hide Trim, GoodID, TrimSet, RefsOk, SourceFields;
    var n := RepadSample(m, i, k, padded);
    assert ParserIDs(n) == ParserIDs(m) && DetectionIDs(n) == DetectionIDs(m) && SourceIDs(n) == SourceIDs(m);
    forall j | 0 <= j < |n.sources| ensures SourceOk(n, n.sources[j]) {
      assert SourceOk(m, m.sources[j]);
      if j == i { FieldsOfPaddedSample(m.sources[i], k, padded); }
    }
  }

  lemma FieldsOfPaddedSample(s: Source, k: nat, padded: string)
    requires k < |s.samples| && Trim(padded) == Trim(s.samples[k]) && SourceFields(s)
    ensures SourceFields(s.(samples := s.samples[k := padded]))
  {
    hide Trim, Allowed, SchemasOk, IDText, Blank;
    var r := s.samples[k := padded];
    forall a | 0 <= a < |r| ensures GoodID(r[a]) { assert GoodID(s.samples[a]); }
  }
}
