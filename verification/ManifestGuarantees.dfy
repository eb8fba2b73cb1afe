/** What acceptance guarantees of a manifest, in the words of its fields. */
module ManifestGuarantees {
  import opened Text
  import opened Manifests

  /** A source of high or critical risk, or of high or restricted sensitivity, says that it needs approval. */
  lemma RiskyNeedsApproval(m: Manifest, i: nat)
    requires Accepts(m) && i < |m.sources|
    ensures var s := m.sources[i];
            var risk, sensitivity := Trim(s.riskClass), Trim(s.sensitivity);
            && (risk == "high" || risk == "critical" || sensitivity == "high" || sensitivity == "restricted" ==> s.approvalRequired)
            && (risk == "low" || risk == "medium" || risk == "high" || risk == "critical")
            && (sensitivity == "low" || sensitivity == "moderate" || sensitivity == "high" || sensitivity == "restricted")
  {
    hide Trim, HeaderOk, ParsersOk, DetectionsOk, SamplesOk, Owns, Covered, GoodID, SchemasOk, RefsOk;
    assert SourceOk(m, m.sources[i]);
  }

  /** A text that a path may be: it starts with a letter or digit, so it is neither absolute nor hidden, and holds no
      space, backslash or quote. */
  predicate PlainPath(s: string) {
    && s != "" && s[0] != '/' && s[0] != '.'
    && forall i :: 0 <= i < |s| ==> s[i] != ' ' && s[i] != '\\' && s[i] != '"' && s[i] != '\n'
  }

  lemma PathIsPlain(s: string)
    requires PathText(s)
    ensures PlainPath(s)
  {
    assert "_.@/+:-" == ['_', '.', '@', '/', '+', ':', '-'];
  }

  /** So are all the paths a pack is read from. */
  lemma PathsArePlain(m: Manifest)
    requires Accepts(m)
    ensures forall i :: 0 <= i < |m.samples| ==> PlainPath(m.samples[i].inputPath) && PlainPath(m.samples[i].goldenPath)
    ensures forall i :: 0 <= i < |m.parsers| && !Blank(m.parsers[i].entrypoint) ==> PlainPath(m.parsers[i].entrypoint)
    ensures forall i :: 0 <= i < |m.detections| && !Blank(m.detections[i].path) ==> PlainPath(m.detections[i].path)
    ensures forall i :: 0 <= i < |m.detections| && m.detections[i].kind == "sigma" ==> PlainPath(m.detections[i].path)
  {
    hide Trim, HeaderOk, SourcesOk, Owns, Covered, GoodID, IDsOk, PathText, PlainPath, TrimSet, StageFields;
    forall i | 0 <= i < |m.samples| ensures PlainPath(m.samples[i].inputPath) && PlainPath(m.samples[i].goldenPath) {
      assert SampleOk(m, m.samples[i]);
      PathIsPlain(m.samples[i].inputPath);
      PathIsPlain(m.samples[i].goldenPath);
    }
    forall i | 0 <= i < |m.parsers| && !Blank(m.parsers[i].entrypoint) ensures PlainPath(m.parsers[i].entrypoint) {
      PathIsPlain(m.parsers[i].entrypoint);
    }
    forall i | 0 <= i < |m.detections| && !Blank(m.detections[i].path) ensures PlainPath(m.detections[i].path) {
      PathIsPlain(m.detections[i].path);
    }
  }

  /** The sample exercises the parser for the source. */
  predicate Exercised(p: Sample, source: string, parser: string) {
    Trim(p.sourceID) == Trim(source) && Trim(p.parserID) == Trim(parser)
  }

  /** Every parser a source lists is in the pack, and some sample of the pack exercises it for that source. */
  lemma ParsersAreExercised(m: Manifest, i: nat, k: nat)
    requires Accepts(m) && i < |m.sources| && k < |m.sources[i].parsers|
    ensures var s := m.sources[i];
            && (exists j :: 0 <= j < |m.parsers| && Trim(m.parsers[j].parserID) == Trim(s.parsers[k]))
            && exists j :: 0 <= j < |m.samples| && Exercised(m.samples[j], s.sourceID, s.parsers[k])
  {
    hide Trim, HeaderOk, ParsersOk, DetectionsOk, SamplesOk, Owns, GoodID, SourceFields;
    var s := m.sources[i];
    assert SourceOk(m, s) && Covered(m, s);
    assert Trim(s.parsers[k]) in TrimSet(ParserIDs(m)) && GoodID(s.parsers[k]);
    GoodIsNotBlank(s.parsers[k]);
    var j :| 0 <= j < |m.samples| && Exercises(m.samples[j], s, s.parsers[k]);
    TrimIdempotent(m.samples[j].sourceID);
    assert Exercised(m.samples[j], s.sourceID, s.parsers[k]);
    var l :| 0 <= l < |ParserIDs(m)| && Trim(ParserIDs(m)[l]) == Trim(s.parsers[k]);
    assert Trim(m.parsers[l].parserID) == Trim(s.parsers[k]);
  }

  lemma GoodIsNotBlank(s: string)
    requires GoodID(s)
    ensures !Blank(s)
  {
    hide Trim;
  }

  /** Sample `j` and no other has the name. */
  predicate Named(m: Manifest, j: nat, name: string)
    requires j < |m.samples|
  {
    forall n :: 0 <= n < |m.samples| ==> (Trim(m.samples[n].caseID) == Trim(name) <==> n == j)
  }

  lemma SampleRefIsGood(m: Manifest, i: nat, k: nat)
    requires SourcesOk(m) && i < |m.sources| && k < |m.sources[i].samples|
    ensures GoodID(m.sources[i].samples[k])
  {
    hide Trim, GoodID, SchemasOk, NeedsApproval, Allowed, RefsOk;
    assert SourceOk(m, m.sources[i]);
  }

  lemma NamedOnce(m: Manifest, j: nat, name: string)
    requires SamplesOk(m) && j < |m.samples| && Trim(m.samples[j].caseID) == Trim(name)
    ensures Named(m, j, name)
  {
    hide Trim, GoodID, SampleOk;
    var ids := CaseIDs(m);
    assert DistinctTrims(ids);
    forall n | 0 <= n < |m.samples| && n != j ensures Trim(m.samples[n].caseID) != Trim(name) {
      assert ids[n] == m.samples[n].caseID && ids[j] == m.samples[j].caseID;
    }
  }

  /** Every sample a source lists is in the pack, once, belongs to that source, and exercises a parser of the pack. */
  lemma SamplesAreOwned(m: Manifest, i: nat, k: nat)
    requires Accepts(m) && i < |m.sources| && k < |m.sources[i].samples|
    ensures var s := m.sources[i];
            exists j :: 0 <= j < |m.samples| && Named(m, j, s.samples[k])
                        && Trim(m.samples[j].sourceID) == Trim(s.sourceID)
                        && exists l :: 0 <= l < |m.parsers| && Trim(m.parsers[l].parserID) == Trim(m.samples[j].parserID)
  {
    hide Trim, HeaderOk, ParsersOk, DetectionsOk, Covered, GoodID, SampleFields, SourceFields, Listed, IDsOk, Named;
    var s := m.sources[i];
    assert Owns(m, s);
    SampleRefIsGood(m, i, k);
    GoodIsNotBlank(s.samples[k]);
    var j :| 0 <= j < |m.samples| && Trim(m.samples[j].caseID) == Trim(s.samples[k]) && Trim(m.samples[j].sourceID) == s.sourceID;
    TrimIdempotent(m.samples[j].sourceID);
    assert SampleOk(m, m.samples[j]);
    var l :| 0 <= l < |ParserIDs(m)| && Trim(ParserIDs(m)[l]) == Trim(m.samples[j].parserID);
    assert Trim(m.parsers[l].parserID) == Trim(m.samples[j].parserID);
    NamedOnce(m, j, s.samples[k]);
  }
}
