/** The validator as written: loops that collect identifiers, references and coverage, and note issues. */
module ManifestValidator {
  import opened Text
  import opened Manifests

  datatype Issue = Header | Identifier | Duplicate | Fields | UnknownReference | NotListed | NotOwned | NotCovered

  lemma TrimSetSnoc(ids: seq<string>, i: nat)
    requires i < |ids|
    ensures TrimSet(ids[..i + 1]) == TrimSet(ids[..i]) + {Trim(ids[i])}
  {
    hide Trim;
    var a, b := ids[..i], ids[..i + 1];
    forall x | x in TrimSet(b) ensures x in TrimSet(a) + {Trim(ids[i])} {
      var k :| 0 <= k < |b| && x == Trim(b[k]);
      if k < i { assert a[k] == b[k]; }
    }
    forall x | x in TrimSet(a) + {Trim(ids[i])} ensures x in TrimSet(b) {
      if x in TrimSet(a) {
        var k :| 0 <= k < |a| && x == Trim(a[k]);
        assert b[k] == a[k];
      } else {
        assert b[i] == ids[i];
      }
    }
  }

  lemma IDsOkSnoc(ids: seq<string>, i: nat)
    requires i < |ids|
    ensures IDsOk(ids[..i + 1]) <==> IDsOk(ids[..i]) && GoodID(ids[i]) && Trim(ids[i]) !in TrimSet(ids[..i])
  {
    hide Trim, GoodID;
    var a, b := ids[..i], ids[..i + 1];
    assert b == a + [ids[i]];
    if Trim(ids[i]) in TrimSet(a) {
      var k :| 0 <= k < |a| && Trim(ids[i]) == Trim(a[k]);
      assert Trim(b[k]) == Trim(b[i]);
    }
    if IDsOk(b) {
      forall k | 0 <= k < i ensures GoodID(a[k]) { assert b[k] == a[k]; }
      forall j, k | 0 <= j < k < i ensures Trim(a[j]) != Trim(a[k]) { assert b[j] == a[j] && b[k] == a[k]; }
      assert GoodID(b[i]);
    }
  }

  lemma GoodIsNotBlank(v: string)
    ensures GoodID(v) ==> !Blank(v)
  {
  }

  class Validator {
    var issues: seq<Issue>

    predicate Clean()
      reads this
    {
      issues == []
    }

    constructor ()
      ensures Clean()
    {
      issues := [];
    }

    method Require(ok: bool, issue: Issue)
      modifies this
      ensures Clean() <==> old(Clean()) && ok
    {
      if !ok { issues := issues + [issue]; }
    }

    /** `requireUnique`: a blank value is let pass and not remembered. */
    method RequireUnique(seen: set<string>, value: string) returns (r: set<string>)
      modifies this
      ensures Clean() <==> old(Clean()) && (Blank(value) || Trim(value) !in seen)
      ensures r == if Blank(value) then seen else seen + {Trim(value)}
    {
      var key := Trim(value);
      if key == "" {
        return seen;
      }
      Require(key !in seen, Duplicate);
      r := seen + {key};
    }

    method CheckID(seen: set<string>, value: string) returns (r: set<string>)
      modifies this
      ensures Clean() <==> old(Clean()) && GoodID(value) && Trim(value) !in seen
      ensures GoodID(value) ==> r == seen + {Trim(value)}
    {
      hide GoodID, Trim;
      GoodIsNotBlank(value);
      Require(GoodID(value), Identifier);
      r := seen;
      if GoodID(value) {
        r := RequireUnique(seen, value);
      }
    }

    method CheckRefs(refs: seq<string>, known: set<string>)
      modifies this
      ensures Clean() <==> old(Clean()) && RefsOk(refs, known)
    {
      hide GoodID, Trim, IDsOk, TrimSet;
      var seen: set<string> := {};
      EmptyTrims();
      for i := 0 to |refs|
        invariant Clean() <==> old(Clean()) && RefsOk(refs[..i], known)
        invariant Clean() ==> seen == TrimSet(refs[..i])
      {
        GoodIsNotBlank(refs[i]);
        IDsOkSnoc(refs, i);
        TrimSetSnoc(refs, i);
        Require(GoodID(refs[i]), Identifier);
        if GoodID(refs[i]) {
          Require(Trim(refs[i]) in known, UnknownReference);
        }
        seen := RequireUnique(seen, refs[i]);
      }
      assert refs[..|refs|] == refs;
    }

    method ValidateParsers(m: Manifest) returns (ids: set<string>)
      modifies this
      ensures Clean() <==> old(Clean()) && ParsersOk(m)
      ensures Clean() ==> ids == TrimSet(ParserIDs(m))
    {
      hide GoodID, Trim, IDsOk, TrimSet, ParserFields;
      var all := ParserIDs(m);
      ids := {};
      EmptyTrims();
      for i := 0 to |m.parsers|
        invariant Clean() <==> old(Clean()) && IDsOk(all[..i]) && forall k :: 0 <= k < i ==> ParserFields(m.parsers[k])
        invariant Clean() ==> ids == TrimSet(all[..i])
      {
        IDsOkSnoc(all, i);
        TrimSetSnoc(all, i);
        ids := CheckID(ids, m.parsers[i].parserID);
        Require(ParserFields(m.parsers[i]), Fields);
      }
      assert all[..|all|] == all;
    }

    method ValidateDetections(m: Manifest) returns (ids: set<string>)
      modifies this
      ensures Clean() <==> old(Clean()) && DetectionsOk(m)
      ensures Clean() ==> ids == TrimSet(DetectionIDs(m))
    {
      hide GoodID, Trim, IDsOk, TrimSet, DetectionFields;
      var all := DetectionIDs(m);
      ids := {};
      EmptyTrims();
      for i := 0 to |m.detections|
        invariant Clean() <==> old(Clean()) && IDsOk(all[..i]) && forall k :: 0 <= k < i ==> DetectionFields(m.detections[k])
        invariant Clean() ==> ids == TrimSet(all[..i])
      {
        IDsOkSnoc(all, i);
        TrimSetSnoc(all, i);
        ids := CheckID(ids, m.detections[i].detectionID);
        Require(DetectionFields(m.detections[i]), Fields);
      }
      assert all[..|all|] == all;
    }

    method ValidateSource(m: Manifest, s: Source, parserIDs: set<string>, detectionIDs: set<string>)
      requires Clean() ==> parserIDs == TrimSet(ParserIDs(m)) && detectionIDs == TrimSet(DetectionIDs(m))
      modifies this
      ensures Clean() <==> old(Clean()) && SourceOk(m, s)
    {
      hide SourceFields, RefsOk, TrimSet;
      Require(SourceFields(s), Fields);
      CheckRefs(s.parsers, parserIDs);
      CheckRefs(s.detections, detectionIDs);
    }

    /** The parsers and samples of each source, under its id as spelled. */
    method ValidateSources(m: Manifest, parserIDs: set<string>, detectionIDs: set<string>)
      returns (ids: set<string>, parsers: map<string, seq<string>>, samples: map<string, seq<string>>)
      requires Clean() ==> parserIDs == TrimSet(ParserIDs(m)) && detectionIDs == TrimSet(DetectionIDs(m))
      modifies this
      ensures Clean() <==> old(Clean()) && SourcesOk(m)
      ensures Clean() ==> ids == TrimSet(SourceIDs(m)) && Tables(m, parsers, samples)
    {
      hide GoodID, Trim, IDsOk, TrimSet, SourceOk;
      var all := SourceIDs(m);
      ids, parsers, samples := {}, map[], map[];
      EmptyTrims();
      for i := 0 to |m.sources|
        invariant Clean() <==> old(Clean()) && IDsOk(all[..i]) && forall k :: 0 <= k < i ==> SourceOk(m, m.sources[k])
        invariant Clean() ==> ids == TrimSet(all[..i])
        invariant Clean() ==> TablesTo(m, i, parsers, samples)
      {
        var s := m.sources[i];
        IDsOkSnoc(all, i);
        TrimSetSnoc(all, i);
        ids := CheckID(ids, s.sourceID);
        ValidateSource(m, s, parserIDs, detectionIDs);
        if Clean() { TablesSnoc(m, i, parsers, samples); }
        parsers := parsers[s.sourceID := s.parsers];
        samples := samples[s.sourceID := s.samples];
      }
      assert all[..|all|] == all;
    }

    method ValidateSample(m: Manifest, p: Sample, sourceIDs: set<string>, parserIDs: set<string>,
                          parsers: map<string, seq<string>>)
      requires Clean() ==> sourceIDs == TrimSet(SourceIDs(m)) && parserIDs == TrimSet(ParserIDs(m))
      requires Clean() ==>
                 KeysAre(m, parsers.Keys)
                 && forall i :: 0 <= i < |m.sources| ==> parsers[m.sources[i].sourceID] == m.sources[i].parsers
      modifies this
      ensures Clean() <==> old(Clean()) && SampleOk(m, p)
    {
      hide GoodID, Trim, TrimSet, SampleFields;
      Require(GoodID(p.sourceID), Identifier);
      if GoodID(p.sourceID) {
        Require(Trim(p.sourceID) in sourceIDs, UnknownReference);
      }
      Require(GoodID(p.parserID), Identifier);
      if GoodID(p.parserID) {
        Require(Trim(p.parserID) in parserIDs, UnknownReference);
      }
      var key := Trim(p.sourceID);
      if key in parsers && |parsers[key]| > 0 {
        Require(Trim(p.parserID) in parsers[key], NotListed);
      }
      Require(SampleFields(p), Fields);
    }

    method ValidateSamples(m: Manifest, sourceIDs: set<string>, parserIDs: set<string>, parsers: map<string, seq<string>>)
      returns (owners: map<string, string>, coverage: set<(string, string)>)
      requires Clean() ==> sourceIDs == TrimSet(SourceIDs(m)) && parserIDs == TrimSet(ParserIDs(m))
      requires Clean() ==>
                 KeysAre(m, parsers.Keys)
                 && forall i :: 0 <= i < |m.sources| ==> parsers[m.sources[i].sourceID] == m.sources[i].parsers
      modifies this
      ensures Clean() <==> old(Clean()) && SamplesOk(m)
      ensures Clean() ==> OwnersAre(m, |m.samples|, owners)
      ensures CoverageIs(m, |m.samples|, coverage)
    {
      hide GoodID, Trim, TrimSet, SampleOk, IDsOk;
      var all := CaseIDs(m);
      var ids: set<string> := {};
      owners, coverage := map[], {};
      EmptyTrims();
      for i := 0 to |m.samples|
        invariant Clean() ==> old(Clean())
        invariant Clean() <==> old(Clean()) && IDsOk(all[..i]) && forall k :: 0 <= k < i ==> SampleOk(m, m.samples[k])
        invariant Clean() ==> ids == TrimSet(all[..i]) && OwnersAre(m, i, owners)
        invariant CoverageIs(m, i, coverage)
      {
        var p := m.samples[i];
        IDsOkSnoc(all, i);
        TrimSetSnoc(all, i);
        ids := CheckID(ids, p.caseID);
        ValidateSample(m, p, sourceIDs, parserIDs, parsers);
        if Clean() { OwnersSnoc(m, i, owners); }
        CoverageSnoc(m, i, coverage);
        owners := owners[Trim(p.caseID) := Trim(p.sourceID)];
        if Trim(p.sourceID) != "" && Trim(p.parserID) != "" {
          coverage := coverage + {(Trim(p.sourceID), Trim(p.parserID))};
        }
      }
      assert all[..|all|] == all;
    }

    method ValidateSampleRefs(m: Manifest, parsers: map<string, seq<string>>, samples: map<string, seq<string>>,
                              owners: map<string, string>)
      requires Clean() ==> Tables(m, parsers, samples) && OwnersAre(m, |m.samples|, owners)
      modifies this
      ensures Clean() <==> old(Clean()) && forall i :: 0 <= i < |m.sources| ==> Owns(m, m.sources[i])
    {
      hide Trim, Owns, RefsOwned, OwnersAre;
      var left := samples.Keys;
      while left != {}
        invariant left <= samples.Keys
        invariant Clean() <==> old(Clean()) && forall k :: k in samples && k !in left ==> RefsOwned(owners, k, samples[k])
        decreases |left|
      {
        var key :| key in left;
        CheckOwned(owners, key, samples[key]);
        left := left - {key};
      }
      if old(Clean()) {
        forall i | 0 <= i < |m.sources|
          ensures RefsOwned(owners, m.sources[i].sourceID, samples[m.sources[i].sourceID]) <==> Owns(m, m.sources[i])
        {
          OwnsIff(m, owners, m.sources[i]);
        }
      }
    }

    method CheckOwned(owners: map<string, string>, key: string, refs: seq<string>)
      modifies this
      ensures Clean() <==> old(Clean()) && RefsOwned(owners, key, refs)
    {
      hide Trim;
      for i := 0 to |refs|
        invariant Clean() <==> old(Clean()) && RefsOwned(owners, key, refs[..i])
      {
        assert refs[..i + 1] == refs[..i] + [refs[i]];
        var ref := Trim(refs[i]);
        if ref != "" {
          Require(ref in owners, UnknownReference);
          if ref in owners {
            Require(owners[ref] == key, NotOwned);
          }
        }
        RefsOwnedSnoc(owners, key, refs, i);
      }
      assert refs[..|refs|] == refs;
    }

    method ValidateCoverage(m: Manifest, parsers: map<string, seq<string>>, samples: map<string, seq<string>>,
                            coverage: set<(string, string)>)
      requires Clean() ==> Tables(m, parsers, samples) && CoverageIs(m, |m.samples|, coverage)
      modifies this
      ensures Clean() <==> old(Clean()) && forall i :: 0 <= i < |m.sources| ==> Covered(m, m.sources[i])
    {
      hide Trim, Covered, RefsCovered, CoverageIs;
      var left := parsers.Keys;
      while left != {}
        invariant left <= parsers.Keys
        invariant Clean() <==> old(Clean()) && forall k :: k in parsers && k !in left ==> RefsCovered(coverage, k, parsers[k])
        decreases |left|
      {
        var key :| key in left;
        CheckCovered(coverage, key, parsers[key]);
        left := left - {key};
      }
      if old(Clean()) {
        forall i | 0 <= i < |m.sources|
          ensures RefsCovered(coverage, m.sources[i].sourceID, parsers[m.sources[i].sourceID]) <==> Covered(m, m.sources[i])
        {
          CoveredIff(m, coverage, m.sources[i]);
        }
      }
    }

    method CheckCovered(coverage: set<(string, string)>, key: string, refs: seq<string>)
      modifies this
      ensures Clean() <==> old(Clean()) && RefsCovered(coverage, key, refs)
    {
      hide Trim;
      for i := 0 to |refs|
        invariant Clean() <==> old(Clean()) && RefsCovered(coverage, key, refs[..i])
      {
        var ref := Trim(refs[i]);
        if ref != "" {
          Require((key, ref) in coverage, NotCovered);
        }
        RefsCoveredSnoc(coverage, key, refs, i);
      }
      assert refs[..|refs|] == refs;
    }
  }

  lemma RefsOwnedSnoc(owners: map<string, string>, key: string, refs: seq<string>, i: nat)
    requires i < |refs|
    ensures RefsOwned(owners, key, refs[..i + 1])
            <==> (RefsOwned(owners, key, refs[..i])
                  && (!Blank(refs[i]) ==> Trim(refs[i]) in owners && owners[Trim(refs[i])] == key))
  {
    hide Trim, Blank;
    var a, b := refs[..i], refs[..i + 1];
    assert forall k :: 0 <= k < i ==> a[k] == b[k];
    assert b[i] == refs[i];
  }

  lemma RefsCoveredSnoc(coverage: set<(string, string)>, key: string, refs: seq<string>, i: nat)
    requires i < |refs|
    ensures RefsCovered(coverage, key, refs[..i + 1])
            <==> (RefsCovered(coverage, key, refs[..i]) && (!Blank(refs[i]) ==> (key, Trim(refs[i])) in coverage))
  {
    hide Trim, Blank;
    var a, b := refs[..i], refs[..i + 1];
    assert forall k :: 0 <= k < i ==> a[k] == b[k];
    assert b[i] == refs[i];
  }

  method Validate(m: Manifest) returns (ok: bool)
    ensures ok <==> Accepts(m)
  {
    hide HeaderOk, ParsersOk, DetectionsOk, SourcesOk, SamplesOk, Owns, Covered, TablesTo, OwnersAre, CoverageIs, TrimSet;
    var v := new Validator();
    v.Require(HeaderOk(m), Header);
    var parserIDs := v.ValidateParsers(m);
    var detectionIDs := v.ValidateDetections(m);
    var sourceIDs, parsers, samples := v.ValidateSources(m, parserIDs, detectionIDs);
    if v.Clean() { TablesGive(m, parsers, samples); }
    var owners, coverage := v.ValidateSamples(m, sourceIDs, parserIDs, parsers);
    v.ValidateSampleRefs(m, parsers, samples, owners);
    v.ValidateCoverage(m, parsers, samples, coverage);
    ok := v.Clean();
  }

  lemma TablesGive(m: Manifest, parsers: map<string, seq<string>>, samples: map<string, seq<string>>)
    requires Tables(m, parsers, samples)
    ensures KeysAre(m, parsers.Keys)
    ensures forall i :: 0 <= i < |m.sources| ==> parsers[m.sources[i].sourceID] == m.sources[i].parsers
  {
  }

  // ---- The checks across tables ----

  ghost predicate RefsOwned(owners: map<string, string>, key: string, refs: seq<string>) {
    forall k :: 0 <= k < |refs| && !Blank(refs[k]) ==> Trim(refs[k]) in owners && owners[Trim(refs[k])] == key
  }

  ghost predicate RefsCovered(coverage: set<(string, string)>, key: string, refs: seq<string>) {
    forall k :: 0 <= k < |refs| && !Blank(refs[k]) ==> (key, Trim(refs[k])) in coverage
  }

  lemma OwnsIff(m: Manifest, owners: map<string, string>, s: Source)
    requires OwnersAre(m, |m.samples|, owners)
    ensures RefsOwned(owners, s.sourceID, s.samples) <==> Owns(m, s)
  {
    hide Trim;
    forall k | 0 <= k < |s.samples| && !Blank(s.samples[k])
      ensures Trim(s.samples[k]) in owners && owners[Trim(s.samples[k])] == s.sourceID
              <==> exists j :: 0 <= j < |m.samples| && Trim(m.samples[j].caseID) == Trim(s.samples[k])
                               && Trim(m.samples[j].sourceID) == s.sourceID
    {
      if Trim(s.samples[k]) in owners && owners[Trim(s.samples[k])] == s.sourceID {
        var j :| 0 <= j < |m.samples| && Trim(m.samples[j].caseID) == Trim(s.samples[k]);
        assert Trim(m.samples[j].sourceID) == s.sourceID;
      }
    }
  }

  lemma CoveredIff(m: Manifest, coverage: set<(string, string)>, s: Source)
    requires CoverageIs(m, |m.samples|, coverage)
    ensures RefsCovered(coverage, s.sourceID, s.parsers) <==> Covered(m, s)
  {
    hide Trim, Blank;
    forall k | 0 <= k < |s.parsers| && !Blank(s.parsers[k])
      ensures (s.sourceID, Trim(s.parsers[k])) in coverage
              <==> exists j :: 0 <= j < |m.samples| && Exercises(m.samples[j], s, s.parsers[k])
    {
      var c := (s.sourceID, Trim(s.parsers[k]));
      if c in coverage {
        var j :| 0 <= j < |m.samples| && CoveredBy(m.samples[j], c);
        assert Exercises(m.samples[j], s, s.parsers[k]);
      }
      if exists j :: 0 <= j < |m.samples| && Exercises(m.samples[j], s, s.parsers[k]) {
        var j :| 0 <= j < |m.samples| && Exercises(m.samples[j], s, s.parsers[k]);
        assert (Trim(m.samples[j].sourceID), Trim(m.samples[j].parserID)) in coverage;
      }
    }
  }

  lemma EmptyTrims()
    ensures IDsOk([]) && TrimSet([]) == {}
  {
  }

  // ---- What the tables hold ----

  ghost predicate KeysAre(m: Manifest, keys: set<string>) {
    && (forall i :: 0 <= i < |m.sources| ==> m.sources[i].sourceID in keys)
    && (forall k :: k in keys ==> exists i :: 0 <= i < |m.sources| && m.sources[i].sourceID == k)
  }

  ghost predicate TablesTo(m: Manifest, n: nat, parsers: map<string, seq<string>>, samples: map<string, seq<string>>)
    requires n <= |m.sources|
  {
    && parsers.Keys == samples.Keys
    && (forall i :: 0 <= i < n ==> m.sources[i].sourceID in parsers && parsers[m.sources[i].sourceID] == m.sources[i].parsers
                                   && samples[m.sources[i].sourceID] == m.sources[i].samples)
    && (forall k :: k in parsers ==> exists i :: 0 <= i < n && m.sources[i].sourceID == k)
  }

  ghost predicate Tables(m: Manifest, parsers: map<string, seq<string>>, samples: map<string, seq<string>>) {
    TablesTo(m, |m.sources|, parsers, samples)
  }

  lemma TablesSnoc(m: Manifest, i: nat, parsers: map<string, seq<string>>, samples: map<string, seq<string>>)
    requires i < |m.sources| && TablesTo(m, i, parsers, samples) && IDsOk(SourceIDs(m)[..i + 1])
    ensures var s := m.sources[i];
            TablesTo(m, i + 1, parsers[s.sourceID := s.parsers], samples[s.sourceID := s.samples])
  {
    hide Trim, GoodID;
    var s, ids := m.sources[i], SourceIDs(m)[..i + 1];
    forall k | 0 <= k < i ensures m.sources[k].sourceID != s.sourceID {
      assert Trim(ids[k]) != Trim(ids[i]);
    }
  }

  ghost predicate OwnersAre(m: Manifest, n: nat, owners: map<string, string>)
    requires n <= |m.samples|
  {
    && (forall j :: 0 <= j < n ==> Trim(m.samples[j].caseID) in owners
                                   && owners[Trim(m.samples[j].caseID)] == Trim(m.samples[j].sourceID))
    && (forall k :: k in owners ==> exists j :: 0 <= j < n && Trim(m.samples[j].caseID) == k)
  }

  lemma OwnersSnoc(m: Manifest, i: nat, owners: map<string, string>)
    requires i < |m.samples| && OwnersAre(m, i, owners) && IDsOk(CaseIDs(m)[..i + 1])
    ensures OwnersAre(m, i + 1, owners[Trim(m.samples[i].caseID) := Trim(m.samples[i].sourceID)])
  {
    hide Trim, GoodID;
    var ids := CaseIDs(m)[..i + 1];
    forall k | 0 <= k < i ensures Trim(m.samples[k].caseID) != Trim(m.samples[i].caseID) {
      assert Trim(ids[k]) != Trim(ids[i]);
    }
  }

  ghost predicate CoverageIs(m: Manifest, n: nat, coverage: set<(string, string)>)
    requires n <= |m.samples|
  {
    && (forall j :: 0 <= j < n && !Blank(m.samples[j].sourceID) && !Blank(m.samples[j].parserID) ==>
          (Trim(m.samples[j].sourceID), Trim(m.samples[j].parserID)) in coverage)
    && (forall c :: c in coverage ==> exists j :: 0 <= j < n && CoveredBy(m.samples[j], c))
  }

  ghost predicate CoveredBy(p: Sample, c: (string, string)) {
    !Blank(p.sourceID) && !Blank(p.parserID) && c == (Trim(p.sourceID), Trim(p.parserID))
  }

  lemma CoverageSnoc(m: Manifest, i: nat, coverage: set<(string, string)>)
    requires i < |m.samples| && CoverageIs(m, i, coverage)
    ensures var p := m.samples[i];
            CoverageIs(m, i + 1, if !Blank(p.sourceID) && !Blank(p.parserID)
                                 then coverage + {(Trim(p.sourceID), Trim(p.parserID))} else coverage)
  {
    hide Trim;
    var p := m.samples[i];
    if !Blank(p.sourceID) && !Blank(p.parserID) { assert CoveredBy(m.samples[i], (Trim(p.sourceID), Trim(p.parserID))); }
  }
}
