/** What every run of registry operations keeps, and what follows for resolution and for snapshots. */
module RegistryLaws {
  import opened Text
  import opened Wrappers
  import opened Semver
  import opened Manifests
  import opened ManifestResolution
  import opened Registries

  // ---- Restoring, as written ----

  ghost predicate Recorded(owners: map<string, string>, p: Packs, k: Key) {
    k in p && forall i :: 0 <= i < |p[k].manifest.sources| && !Blank(p[k].manifest.sources[i].sourceID) ==>
      var id := Trim(p[k].manifest.sources[i].sourceID);
      id in owners && owners[id] == Owner(p[k])
  }

  ghost predicate Owned(owners: map<string, string>, p: Packs, id: string, k: Key) {
    id in owners && k in p && p[k].status == Enabled && owners[id] == Owner(p[k]) && Declares(p[k].manifest, id)
  }

  method SnapshotConflict(p: Packs) returns (found: bool)
    ensures found <==> SharedSource(p)
  {
    hide Trim, Owner, Declares, Recorded, Owned, SharesNamed;
    var owners: map<string, string> := map[];
    var left := p.Keys;
    while left != {}
      invariant left <= p.Keys
      invariant forall k :: k in p && k !in left && p[k].status == Enabled ==> Recorded(owners, p, k)
      invariant forall id :: id in owners ==> exists k :: Owned(owners, p, id, k)
      decreases |left|
    {
      var k :| k in left;
      left := left - {k};
      if p[k].status != Enabled {
        continue;
      }
      var updated;
      found, updated := RecordSources(p, k, owners);
      if found {
        return;
      }
      forall l | l in p && l !in left && p[l].status == Enabled ensures Recorded(updated, p, l) {
        if l != k { StillRecorded(owners, updated, p, l); }
      }
      forall id | id in updated ensures exists l :: Owned(updated, p, id, l) {
        if id in owners {
          var l :| Owned(owners, p, id, l);
          StillOwned(owners, updated, p, id, l);
        }
      }
      owners := updated;
    }
    found := false;
    AllRecorded(owners, p);
  }

  method RecordSources(p: Packs, k: Key, owners: map<string, string>) returns (found: bool, updated: map<string, string>)
    requires k in p && p[k].status == Enabled
    requires forall id :: id in owners ==> exists l :: Owned(owners, p, id, l)
    ensures found ==> SharedSource(p)
    ensures !found ==> Recorded(updated, p, k)
    ensures !found ==> forall id :: id in owners ==> id in updated && updated[id] == owners[id]
    ensures !found ==> forall id :: id in updated && id !in owners ==> Owned(updated, p, id, k)
  {
    hide Trim, Owner, SharedSource;
    found, updated := false, owners;
    var sources := p[k].manifest.sources;
    for i := 0 to |sources|
      invariant !found
      invariant forall id :: id in owners ==> id in updated && updated[id] == owners[id]
      invariant forall id :: id in updated && id !in owners ==> Owned(updated, p, id, k)
      invariant forall j :: 0 <= j < i && !Blank(sources[j].sourceID) ==>
                  Trim(sources[j].sourceID) in updated && updated[Trim(sources[j].sourceID)] == Owner(p[k])
    {
      var id := Trim(sources[i].sourceID);
      if id == "" {
        continue;
      }
      assert Declares(p[k].manifest, id);
      if id in updated && updated[id] != Owner(p[k]) {
        ConflictFound(owners, p, k, i);
        return true, updated;
      }
      updated := updated[id := Owner(p[k])];
    }
  }

  lemma ConflictFound(owners: map<string, string>, p: Packs, k: Key, i: nat)
    requires k in p && p[k].status == Enabled && i < |p[k].manifest.sources| && !Blank(p[k].manifest.sources[i].sourceID)
    requires Trim(p[k].manifest.sources[i].sourceID) in owners && owners[Trim(p[k].manifest.sources[i].sourceID)] != Owner(p[k])
    requires exists l :: Owned(owners, p, Trim(p[k].manifest.sources[i].sourceID), l)
    ensures SharedSource(p)
  {
    hide Trim, Owner, Declares;
    var l :| Owned(owners, p, Trim(p[k].manifest.sources[i].sourceID), l);
    assert SharesNamed(p[k].manifest, p[l].manifest);
  }

  lemma StillRecorded(owners: map<string, string>, updated: map<string, string>, p: Packs, k: Key)
    requires Recorded(owners, p, k) && forall id :: id in owners ==> id in updated && updated[id] == owners[id]
    ensures Recorded(updated, p, k)
  {
    hide Trim, Owner;
  }

  lemma StillOwned(owners: map<string, string>, updated: map<string, string>, p: Packs, id: string, k: Key)
    requires Owned(owners, p, id, k) && id in updated && updated[id] == owners[id]
    ensures Owned(updated, p, id, k)
  {
    hide Trim, Owner, Declares;
  }

  lemma AllRecorded(owners: map<string, string>, p: Packs)
    requires forall k :: k in p && p[k].status == Enabled ==> Recorded(owners, p, k)
    ensures !SharedSource(p)
  {
    hide Trim, Owner;
    forall k, l | k in p && l in p && p[k].status == Enabled && p[l].status == Enabled
                  && SharesNamed(p[k].manifest, p[l].manifest)
      ensures Owner(p[k]) == Owner(p[l])
    {
      var i :| 0 <= i < |p[k].manifest.sources| && !Blank(p[k].manifest.sources[i].sourceID)
               && Declares(p[l].manifest, Trim(p[k].manifest.sources[i].sourceID));
      var id := Trim(p[k].manifest.sources[i].sourceID);
      var j :| 0 <= j < |p[l].manifest.sources| && Trim(p[l].manifest.sources[j].sourceID) == id;
      assert Recorded(owners, p, k) && Recorded(owners, p, l);
    }
  }

  method RegistryFromSnapshot(schema: int, rs: seq<Record>, recorded: string, given: string) returns (r: Result<Packs, Failure>)
    ensures r == Restore(schema, rs, recorded, given)
  {
    hide Trim, RestoreRecord, SharedSource, KeyFor;
    if schema != SCHEMA_VERSION {
      return Err(Invalid);
    }
    var version := Trim(given);
    if version == "" {
      version := Trim(recorded);
    }
    var packs: Packs := map[];
    for i := 0 to |rs|
      invariant RestoreRecords(rs[..i], version) == Ok(packs)
    {
      assert rs[..i + 1][..i] == rs[..i];
      var restored := RestoreRecord(rs[i], version);
      if restored.Err? {
        FirstFailureStands(rs, version, i + 1);
        return Err(restored.error);
      }
      var key := KeyFor(restored.value.packID, restored.value.packVersion);
      if key in packs {
        FirstFailureStands(rs, version, i + 1);
        return Err(DuplicateRecord);
      }
      packs := packs[key := restored.value];
    }
    assert rs[..|rs|] == rs;
    var conflict := SnapshotConflict(packs);
    r := if conflict then Err(Conflicts) else Ok(packs);
  }

  lemma {:induction false} FirstFailureStands(rs: seq<Record>, version: string, i: nat)
    requires i <= |rs| && RestoreRecords(rs[..i], version).Err?
    ensures RestoreRecords(rs, version) == RestoreRecords(rs[..i], version)
    decreases |rs|
  {
    hide RestoreRecord, KeyFor;
    if i == |rs| {
      assert rs[..i] == rs;
    } else {
      var front := rs[..|rs| - 1];
      assert front[..i] == rs[..i];
      FirstFailureStands(front, version, i);
    }
  }

  // ---- Runs ----

  datatype State = State(packs: Packs, version: string)

  datatype Step =
    | DoInstall(manifest: Manifest, at: int)
    | DoEnable(key: Key, at: int)
    | DoDisable(key: Key, at: int)
    | DoQuarantine(key: Key, reason: string, at: int)
    | DoDeprecate(key: Key, at: int)
    | DoRestore(schema: int, records: seq<Record>, recorded: string, given: string)

  /** An operation that fails leaves the registry as the operation left it; a restore that fails leaves the old one in use. */
  function Next(s: State, step: Step): State {
    match step
    case DoInstall(m, at) =>
      var r := InstallIn(s.packs, s.version, m, at);
      if r.Ok? then s.(packs := r.value) else s
    case DoEnable(key, at) => s.(packs := EnableIn(s.packs, s.version, key, at).0)
    case DoDisable(key, at) => s.(packs := DisableIn(s.packs, key, at).0)
    case DoQuarantine(key, reason, at) => s.(packs := QuarantineIn(s.packs, key, reason, at).0)
    case DoDeprecate(key, at) => s.(packs := DeprecateIn(s.packs, key, at).0)
    case DoRestore(schema, rs, recorded, given) =>
      var r := Restore(schema, rs, recorded, given);
      if r.Ok? then State(r.value, RestoreVersion(given, recorded)) else s
  }

  function Run(s: State, steps: seq<Step>): State {
    if steps == [] then s else Next(Run(s, steps[..|steps| - 1]), steps[|steps| - 1])
  }

  function Empty(version: string): State {
    State(map[], Trim(version))
  }

  ghost predicate RecordOk(k: Key, r: Record, version: string) {
    && Accepts(r.manifest) && k == KeyFor(r.manifest.packID, r.manifest.packVersion)
    && r.packID == k.id && r.packVersion == k.version && r.displayName == Trim(r.manifest.displayName)
    && !r.status.Unknown? && r.incompatibility == CheckCompatibility(r.manifest, version)
  }

  /** Each source id is declared by at most one enabled record. */
  ghost predicate OneOwner(p: Packs) {
    forall k, l, id ::
      (k in p && l in p && p[k].status == Enabled && p[l].status == Enabled
       && Declares(p[k].manifest, id) && Declares(p[l].manifest, id)) ==> k == l
  }

  ghost predicate Inv(s: State) {
    && (forall k :: k in s.packs ==> RecordOk(k, s.packs[k], s.version))
    && OneOwner(s.packs) && Trim(s.version) == s.version
  }

  lemma TrimmedKey(k: Key, r: Record, version: string)
    requires RecordOk(k, r, version)
    ensures KeyFor(r.packID, r.packVersion) == k == Key(Trim(r.packID), Trim(r.packVersion))
  {
    hide Trim, Accepts, CheckCompatibility;
    TrimIdempotent(r.manifest.packID);
    TrimIdempotent(r.manifest.packVersion);
  }

  lemma InstallKeeps(s: State, m: Manifest, at: int)
    requires Inv(s)
    ensures Inv(Next(s, DoInstall(m, at)))
  {
    hide Trim, Accepts, CheckCompatibility, Declares;
  }

  lemma SharesIff(a: Manifest, b: Manifest, id: string)
    requires Declares(a, id) && Declares(b, id)
    ensures Shares(a, b)
  {
    hide Trim;
    var i :| 0 <= i < |a.sources| && Trim(a.sources[i].sourceID) == id;
    assert Declares(b, Trim(a.sources[i].sourceID));
  }

  lemma EnabledAfter(p: Packs, version: string, key: Key, at: int, k: Key)
    requires key in p && RecordOk(key, p[key], version) && EnableIn(p, version, key, at).1.None?
    ensures var q := EnableIn(p, version, key, at).0;
            && q.Keys == p.Keys
            && (k in p ==> q[k].manifest == p[k].manifest && q[k].packID == p[k].packID)
            && (k in p && q[k].status == Enabled && k != key ==> p[k].status == Enabled && k.id != key.id)
  {
    hide Trim, Accepts, CheckCompatibility, Clashes;
    TrimmedKey(key, p[key], version);
  }

  lemma EnableOwners(p: Packs, version: string, key: Key, at: int)
    requires OneOwner(p) && (forall k :: k in p ==> RecordOk(k, p[k], version))
    requires key in p && EnableIn(p, version, key, at).1.None?
    ensures OneOwner(EnableIn(p, version, key, at).0)
  {
    hide Accepts, CheckCompatibility, Declares, Shares, Trim;
    assert !Clashes(p, p[key].packID, p[key].manifest);
    var q := EnableIn(p, version, key, at).0;
    hide EnableIn;
    forall k, l, id | k in q && l in q && q[k].status == Enabled && q[l].status == Enabled
                      && Declares(q[k].manifest, id) && Declares(q[l].manifest, id) ensures k == l
    {
      EnabledAfter(p, version, key, at, k);
      EnabledAfter(p, version, key, at, l);
      if k == key && l != key {
        NoClash(p, version, key, l, id);
      } else if l == key && k != key {
        NoClash(p, version, key, k, id);
      }
    }
  }

  lemma NoClash(p: Packs, version: string, key: Key, l: Key, id: string)
    requires key in p && l in p && RecordOk(key, p[key], version) && RecordOk(l, p[l], version)
    requires p[l].status == Enabled && l.id != key.id && !Clashes(p, p[key].packID, p[key].manifest)
    ensures !(Declares(p[key].manifest, id) && Declares(p[l].manifest, id))
  {
    hide Trim, Accepts, CheckCompatibility, Declares, Shares;
    if Declares(p[key].manifest, id) && Declares(p[l].manifest, id) {
      SharesIff(p[l].manifest, p[key].manifest, id);
    }
  }

  lemma EnableRecords(p: Packs, version: string, key: Key, at: int, k: Key)
    requires k in p && RecordOk(k, p[k], version)
    ensures var q := EnableIn(p, version, key, at).0;
            k in q && RecordOk(k, q[k], version)
  {
    hide Trim, Accepts, CheckCompatibility, Clashes;
  }

  lemma EnableKeeps(s: State, key: Key, at: int)
    requires Inv(s)
    ensures Inv(Next(s, DoEnable(key, at)))
  {
    hide RecordOk, Trim, Clashes, CheckCompatibility;
    var t := Next(s, DoEnable(key, at));
    assert t.packs.Keys == s.packs.Keys;
    forall k | k in t.packs ensures RecordOk(k, t.packs[k], s.version) { EnableRecords(s.packs, s.version, key, at, k); }
    if key in s.packs {
      if EnableIn(s.packs, s.version, key, at).1.None? {
        EnableOwners(s.packs, s.version, key, at);
      } else {
        SameEnabled(s.packs, t.packs);
      }
    }
  }

  /** Nothing newly enabled means nothing newly shared. */
  lemma SameEnabled(p: Packs, q: Packs)
    requires OneOwner(p) && q.Keys == p.Keys
    requires forall k :: k in q ==> q[k].manifest == p[k].manifest && (q[k].status == Enabled ==> p[k].status == Enabled)
    ensures OneOwner(q)
  {
    hide Declares;
  }

  lemma DisableKeeps(s: State, key: Key, at: int)
    requires Inv(s)
    ensures Inv(Next(s, DoDisable(key, at)))
  {
    hide Trim, Accepts, CheckCompatibility, KeyFor, OneOwner;
    SameEnabled(s.packs, DisableIn(s.packs, key, at).0);
  }

  lemma QuarantineKeeps(s: State, key: Key, reason: string, at: int)
    requires Inv(s)
    ensures Inv(Next(s, DoQuarantine(key, reason, at)))
  {
    hide Trim, Accepts, CheckCompatibility, KeyFor, OneOwner;
    SameEnabled(s.packs, QuarantineIn(s.packs, key, reason, at).0);
  }

  lemma DeprecateKeeps(s: State, key: Key, at: int)
    requires Inv(s)
    ensures Inv(Next(s, DoDeprecate(key, at)))
  {
    hide Trim, Accepts, CheckCompatibility, KeyFor, OneOwner;
    SameEnabled(s.packs, DeprecateIn(s.packs, key, at).0);
  }

  lemma OwnersDiffer(k: Key, a: Record, l: Key, b: Record, version: string)
    requires RecordOk(k, a, version) && RecordOk(l, b, version) && Owner(a) == Owner(b)
    ensures k == l
  {
    hide Trim, CheckCompatibility, ParsersOk, DetectionsOk, SourcesOk, SamplesOk, Owns, Covered;
    NoAt(a.packID, b.packID);
    FirstOccurrence(Owner(a), '@', |a.packID|);
    FirstOccurrence(Owner(b), '@', |b.packID|);
    assert Owner(a)[|a.packID| + 1..] == a.packVersion && Owner(b)[|b.packID| + 1..] == b.packVersion;
    assert Owner(a)[..|a.packID|] == a.packID && Owner(b)[..|b.packID|] == b.packID;
  }

  lemma NoAt(a: string, b: string)
    requires IDText(a) && IDText(b)
    ensures '@' !in a && '@' !in b
  {
  }

  lemma {:induction false} RestoredRecords(rs: seq<Record>, version: string)
    requires RestoreRecords(rs, version).Ok?
    ensures forall k :: k in RestoreRecords(rs, version).value ==> RecordOk(k, RestoreRecords(rs, version).value[k], version)
  {
    hide Trim, Accepts, CheckCompatibility;
    if rs != [] {
      RestoredRecords(rs[..|rs| - 1], version);
      var last := rs[|rs| - 1];
      TrimIdempotent(last.manifest.packID);
      TrimIdempotent(last.manifest.packVersion);
    }
  }

  lemma AcceptedSourceNotBlank(m: Manifest, i: nat)
    requires Accepts(m) && i < |m.sources|
    ensures !Blank(m.sources[i].sourceID)
  {
    hide Trim, IDText, HeaderOk, ParsersOk, DetectionsOk, SamplesOk, Owns, Covered, SourceOk;
    assert GoodID(SourceIDs(m)[i]);
    GoodRef(m.sources[i].sourceID);
  }

  lemma RestoreKeeps(s: State, step: Step)
    requires Inv(s) && step.DoRestore?
    ensures Inv(Next(s, step))
  {
    hide Trim, Accepts, CheckCompatibility, RestoreRecords, Declares, Owner, SharesNamed, RecordOk;
    var version := RestoreVersion(step.given, step.recorded);
    TrimIdempotent(step.given);
    TrimIdempotent(step.recorded);
    if Next(s, step) != s {
      var p := Restore(step.schema, step.records, step.recorded, step.given).value;
      RestoredRecords(step.records, version);
      forall k, l, id | k in p && l in p && p[k].status == Enabled && p[l].status == Enabled
                        && Declares(p[k].manifest, id) && Declares(p[l].manifest, id) ensures k == l
      {
        NamedShare(k, p[k], p[l].manifest, version, id);
        OwnersDiffer(k, p[k], l, p[l], version);
      }
    }
  }

  lemma NamedShare(k: Key, a: Record, b: Manifest, version: string, id: string)
    requires RecordOk(k, a, version) && Declares(a.manifest, id) && Declares(b, id)
    ensures SharesNamed(a.manifest, b)
  {
    hide Trim, Accepts, CheckCompatibility;
    var i :| 0 <= i < |a.manifest.sources| && Trim(a.manifest.sources[i].sourceID) == id;
    AcceptedSourceNotBlank(a.manifest, i);
    assert Declares(b, Trim(a.manifest.sources[i].sourceID));
  }

  /** Every operation and every accepted restore keeps the invariant. */
  lemma NextKeeps(s: State, step: Step)
    requires Inv(s)
    ensures Inv(Next(s, step))
  {
    hide Inv, Next;
    match step
    case DoInstall(m, at) => InstallKeeps(s, m, at);
    case DoEnable(key, at) => EnableKeeps(s, key, at);
    case DoRestore(_, _, _, _) => RestoreKeeps(s, step);
    case DoDisable(key, at) => DisableKeeps(s, key, at);
    case DoQuarantine(key, reason, at) => QuarantineKeeps(s, key, reason, at);
    case DoDeprecate(key, at) => DeprecateKeeps(s, key, at);
  }

  lemma EmptyInv(version: string)
    ensures Inv(Empty(version))
  {
    hide Trim;
    TrimIdempotent(version);
  }

  lemma {:induction false} RunKeeps(version: string, steps: seq<Step>)
    ensures Inv(Run(Empty(version), steps))
  {
    hide Inv, Next;
    if steps == [] {
      EmptyInv(version);
    } else {
      RunKeeps(version, steps[..|steps| - 1]);
      NextKeeps(Run(Empty(version), steps[..|steps| - 1]), steps[|steps| - 1]);
    }
  }

  // ---- Resolution ----

  lemma {:induction false} FoundIsDeclared(sources: seq<Source>, m: Manifest, id: string)
    requires FirstSource(sources, id).Some? && forall s :: s in sources ==> s in m.sources
    ensures Declares(m, id)
  {
    hide Trim;
    if Trim(sources[0].sourceID) == id {
      assert sources[0] in m.sources;
    } else {
      FoundIsDeclared(sources[1..], m, id);
    }
  }

  /** In any run each source id has at most one enabled owner, so resolving it gives one answer whatever
      order the records are visited in. */
  lemma ResolutionUnique(version: string, steps: seq<Step>, id: string, k: Key, l: Key)
    requires Best(Run(Empty(version), steps).packs, id, k) && Best(Run(Empty(version), steps).packs, id, l)
    ensures k == l
  {
    hide Run, Declares, FirstSource, RecordOk, CompareSemver;
    RunKeeps(version, steps);
    var p := Run(Empty(version), steps).packs;
    FoundIsDeclared(p[k].manifest.sources, p[k].manifest, id);
    FoundIsDeclared(p[l].manifest.sources, p[l].manifest, id);
  }

  lemma {:induction false} DeclaredIsFound(sources: seq<Source>, i: nat)
    requires i < |sources|
    ensures FirstSource(sources, Trim(sources[i].sourceID)).Some?
  {
    hide Trim;
    if Trim(sources[0].sourceID) != Trim(sources[i].sourceID) { DeclaredIsFound(sources[1..], i - 1); }
  }

  /** Once a record is enabled, each source it declares resolves to it. */
  lemma EnabledResolves(version: string, steps: seq<Step>, key: Key, at: int, i: nat)
    requires var s := Run(Empty(version), steps);
             key in s.packs && i < |s.packs[key].manifest.sources|
             && EnableIn(s.packs, s.version, key, at).1.None?
    ensures var s := Run(Empty(version), steps);
            Best(Next(s, DoEnable(key, at)).packs, Trim(s.packs[key].manifest.sources[i].sourceID), key)
  {
    hide Run, Trim, CompareSemver, Clashes, Accepts, CheckCompatibility;
    var s := Run(Empty(version), steps);
    RunKeeps(version, steps);
    NextKeeps(s, DoEnable(key, at));
    var q, id := Next(s, DoEnable(key, at)).packs, Trim(s.packs[key].manifest.sources[i].sourceID);
    EnabledAfter(s.packs, s.version, key, at, key);
    assert q[key].status == Enabled;
    DeclaredIsFound(q[key].manifest.sources, i);
    OnlyOwner(q, key, id);
  }

  lemma OnlyOwner(p: Packs, key: Key, id: string)
    requires OneOwner(p) && key in p && p[key].status == Enabled && FirstSource(p[key].manifest.sources, id).Some?
    ensures Best(p, id, key)
  {
    hide FirstSource, Declares, CompareSemver;
    FoundIsDeclared(p[key].manifest.sources, p[key].manifest, id);
    forall l | l in p && p[l].status == Enabled && FirstSource(p[l].manifest.sources, id).Some?
      ensures CompareSemver(p[l].packVersion, p[key].packVersion) <= 0
    {
      FoundIsDeclared(p[l].manifest.sources, p[l].manifest, id);
      assert l == key;
      CompareIsPreorder(p[key].packVersion, p[key].packVersion, p[key].packVersion);
    }
  }

  /** Once the enabled owner of a source is disabled, quarantined or deprecated, the source resolves to nothing. */
  lemma RetiredResolvesToNothing(s: State, step: Step, key: Key, id: string, l: Key)
    requires Inv(s) && key in s.packs && s.packs[key].status == Enabled && Declares(s.packs[key].manifest, id)
    requires match step
             case DoDisable(k, _) => k == key
             case DoQuarantine(k, _, _) => k == key
             case DoDeprecate(k, _) => k == key
             case _ => false
    ensures !Best(Next(s, step).packs, id, l)
  {
    hide Declares, FirstSource, RecordOk, CompareSemver, Trim;
    var q := Next(s, step).packs;
    if l in q && l != key && q[l].status == Enabled && FirstSource(q[l].manifest.sources, id).Some? {
      FoundIsDeclared(q[l].manifest.sources, q[l].manifest, id);
      assert false;
    }
  }

  // ---- One enabled version per pack ----

  ghost predicate OneVersion(p: Packs) {
    forall k, l :: k in p && l in p && p[k].status == Enabled && p[l].status == Enabled && k.id == l.id ==> k == l
  }

  lemma NextOneVersion(s: State, step: Step)
    requires Inv(s) && OneVersion(s.packs) && !step.DoRestore?
    ensures OneVersion(Next(s, step).packs)
  {
    hide Trim, Accepts, CheckCompatibility, Clashes, OneOwner, Demote;
    if step.DoEnable? && step.key in s.packs && EnableIn(s.packs, s.version, step.key, step.at).1.None? {
      var q := Next(s, step).packs;
      forall k, l | k in q && l in q && q[k].status == Enabled && q[l].status == Enabled && k.id == l.id ensures k == l {
        EnabledAfter(s.packs, s.version, step.key, step.at, k);
        EnabledAfter(s.packs, s.version, step.key, step.at, l);
      }
    }
  }

  /** From an empty registry, operations enable at most one version of each pack. */
  lemma {:induction false} RunOneVersion(version: string, steps: seq<Step>)
    requires forall i :: 0 <= i < |steps| ==> !steps[i].DoRestore?
    ensures OneVersion(Run(Empty(version), steps).packs)
  {
    hide Inv, Next, OneVersion;
    if steps == [] {
      NoVersions(version);
    } else {
      var front := steps[..|steps| - 1];
      RunKeeps(version, front);
      RunOneVersion(version, front);
      NextOneVersion(Run(Empty(version), front), steps[|steps| - 1]);
    }
  }

  lemma NoVersions(version: string)
    ensures OneVersion(Empty(version).packs)
  {
  }

  // ---- Snapshots ----

  lemma RestoresToItself(k: Key, r: Record, version: string)
    requires RecordOk(k, r, version)
    ensures RestoreRecord(r, version) == Ok(r) && KeyFor(r.packID, r.packVersion) == k
  {
    hide Trim, Accepts, CheckCompatibility;
    TrimmedKey(k, r, version);
  }

  lemma {:induction false} ListedRestores(rs: seq<Record>, p: Packs, version: string)
    requires forall k :: k in p ==> RecordOk(k, p[k], version)
    requires forall i :: 0 <= i < |rs| ==> KeyFor(rs[i].packID, rs[i].packVersion) in p
                                           && p[KeyFor(rs[i].packID, rs[i].packVersion)] == rs[i]
    requires forall i, j :: 0 <= i < j < |rs| ==>
               KeyFor(rs[i].packID, rs[i].packVersion) != KeyFor(rs[j].packID, rs[j].packVersion)
    ensures RestoreRecords(rs, version).Ok?
    ensures var q := RestoreRecords(rs, version).value;
            && (forall k :: k in q ==> exists i :: 0 <= i < |rs| && KeyFor(rs[i].packID, rs[i].packVersion) == k)
            && (forall i :: 0 <= i < |rs| ==> KeyFor(rs[i].packID, rs[i].packVersion) in q
                                              && q[KeyFor(rs[i].packID, rs[i].packVersion)] == rs[i])
  {
    hide RecordOk, RestoreRecord, KeyFor;
    if rs != [] {
      var front, last := rs[..|rs| - 1], rs[|rs| - 1];
      ListedRestores(front, p, version);
      var key := KeyFor(last.packID, last.packVersion);
      RestoresToItself(key, last, version);
      var q, t := RestoreRecords(front, version).value, RestoreRecords(rs, version);
      forall i | 0 <= i < |front| ensures KeyFor(front[i].packID, front[i].packVersion) != key {
        assert rs[i] == front[i];
      }
      forall k | k in t.value ensures exists i :: 0 <= i < |rs| && KeyFor(rs[i].packID, rs[i].packVersion) == k {
        if k == key {
          assert KeyFor(rs[|rs| - 1].packID, rs[|rs| - 1].packVersion) == k;
        } else {
          var i :| 0 <= i < |front| && KeyFor(front[i].packID, front[i].packVersion) == k;
          assert KeyFor(rs[i].packID, rs[i].packVersion) == k;
        }
      }
      forall i | 0 <= i < |rs| ensures KeyFor(rs[i].packID, rs[i].packVersion) in t.value
                                       && t.value[KeyFor(rs[i].packID, rs[i].packVersion)] == rs[i]
      {
        if i < |front| { assert rs[i] == front[i]; }
      }
    }
  }

  lemma NothingShared(s: State)
    requires Inv(s)
    ensures !SharedSource(s.packs)
  {
    hide Trim, RecordOk, Owner;
    var p := s.packs;
    forall k, l | k in p && l in p && p[k].status == Enabled && p[l].status == Enabled
                  && SharesNamed(p[k].manifest, p[l].manifest) ensures k == l
    {
      var i :| 0 <= i < |p[k].manifest.sources| && Declares(p[l].manifest, Trim(p[k].manifest.sources[i].sourceID));
      assert Declares(p[k].manifest, Trim(p[k].manifest.sources[i].sourceID));
    }
  }

  /** Restoring a snapshot of any registry a run can reach, under the same version, gives an equal registry. */
  lemma SnapshotRoundTrip(version: string, steps: seq<Step>, rs: seq<Record>, given: string)
    requires Lists(rs, Run(Empty(version), steps).packs)
    requires Blank(given) || Trim(given) == Run(Empty(version), steps).version
    ensures Restore(SCHEMA_VERSION, rs, Run(Empty(version), steps).version, given) == Ok(Run(Empty(version), steps).packs)
  {
    hide Run, Trim, RecordOk, OneOwner, RestoreRecords, SharedSource, KeyFor;
    RunKeeps(version, steps);
    var s := Run(Empty(version), steps);
    ListedRestores(rs, s.packs, s.version);
    NothingShared(s);
    var q := RestoreRecords(rs, s.version).value;
    forall k ensures k in q <==> k in s.packs {}
    forall k | k in q ensures q[k] == s.packs[k] {
      var i :| 0 <= i < |rs| && KeyFor(rs[i].packID, rs[i].packVersion) == k;
    }
    assert q == s.packs;
  }
}
