/** The content-pack registry: records by pack and version, their lifecycle, source resolution, and
    snapshots. */
module Registries {
  import opened Text
  import opened Wrappers
  import opened Semver
  import opened Manifests
  import opened ManifestResolution
  import opened ManifestValidator

  datatype Status = Available | Installed | Enabled | Disabled | Quarantined | Deprecated | RollbackAvailable | Unknown(name: string)

  datatype Incompatibility = InvalidMinimum | VersionUnknown | VersionInvalid | TooOld

  datatype Key = Key(id: string, version: string)

  datatype Record = Record(packID: string, packVersion: string, displayName: string, status: Status,
                           incompatibility: Option<Incompatibility>, installedAt: int, enabledAt: Option<int>,
                           disabledAt: Option<int>, quarantinedAt: Option<int>, reason: string, manifest: Manifest)

  datatype Failure =
    | Invalid | Incompatible(why: Incompatibility) | AlreadyInstalled | NotInstalled | IsQuarantined | IsDeprecated
    | Conflicts | BadStatus | DuplicateRecord

  type Packs = map<Key, Record>

  function KeyFor(id: string, version: string): Key {
    Key(Trim(id), Trim(version))
  }

  /** Why a manifest cannot run on a version, if it cannot. */
  function CheckCompatibility(m: Manifest, version: string): Option<Incompatibility> {
    var least := Trim(m.minVersion);
    var current := Trim(version);
    if least == "" then None
    else if !SemverText(least) then Some(InvalidMinimum)
    else if current == "" then Some(VersionUnknown)
    else if !SemverText(current) then Some(VersionInvalid)
    else if CompareSemver(current, least) < 0 then Some(TooOld)
    else None
  }

  // ---- Sources ----

  predicate Declares(m: Manifest, sourceID: string) {
    exists i :: 0 <= i < |m.sources| && Trim(m.sources[i].sourceID) == sourceID
  }

  predicate Shares(a: Manifest, b: Manifest) {
    exists i :: 0 <= i < |a.sources| && Declares(b, Trim(a.sources[i].sourceID))
  }

  /** An enabled record of another pack declares one of the manifest's sources. */
  predicate Clashes(p: Packs, packID: string, m: Manifest) {
    exists k :: k in p && p[k].status == Enabled && p[k].packID != packID && Shares(p[k].manifest, m)
  }

  function FirstSource(sources: seq<Source>, sourceID: string): Option<Source> {
    if sources == [] then None
    else if Trim(sources[0].sourceID) == sourceID then Some(sources[0]) else FirstSource(sources[1..], sourceID)
  }

  // ---- Lifecycle, as functions of the records ----

  function NewRecord(m: Manifest, at: int): Record {
    Record(Trim(m.packID), Trim(m.packVersion), Trim(m.displayName), Installed, None, at, None, None, None, "", m)
  }

  function InstallIn(p: Packs, version: string, m: Manifest, at: int): Result<Packs, Failure> {
    var why := CheckCompatibility(m, version);
    var key := KeyFor(m.packID, m.packVersion);
    if !Accepts(m) then Err(Invalid)
    else if why.Some? then Err(Incompatible(why.value))
    else if key in p then Err(AlreadyInstalled)
    else Ok(p[key := NewRecord(m, at)])
  }

  /** Another version of the same pack, enabled. */
  predicate Superseded(k: Key, r: Record, key: Key) {
    k.id == key.id && k.version != key.version && r.status == Enabled
  }

  function Demote(r: Record, at: int): Record {
    r.(status := RollbackAvailable, disabledAt := Some(at))
  }

  function Demoted(p: Packs, key: Key, at: int): Packs {
    map k | k in p :: if Superseded(k, p[k], key) then Demote(p[k], at) else p[k]
  }

  function Promote(r: Record, at: int): Record {
    r.(status := Enabled, enabledAt := Some(at), disabledAt := None, incompatibility := None)
  }

  /** The records after an attempt to enable one, and why it failed if it did. */
  function EnableIn(p: Packs, version: string, key: Key, at: int): (Packs, Option<Failure>) {
    if key !in p then (p, Some(NotInstalled)) else
    var r := p[key];
    var why := CheckCompatibility(r.manifest, version);
    if r.status == Quarantined then (p, Some(IsQuarantined))
    else if r.status == Deprecated then (p, Some(IsDeprecated))
    else if why.Some? then (p[key := r.(incompatibility := why)], Some(Incompatible(why.value)))
    else if Clashes(p, r.packID, r.manifest) then (p, Some(Conflicts))
    else (Demoted(p, Key(Trim(r.packID), Trim(r.packVersion)), at)[key := Promote(r, at)], None)
  }

  function DisableIn(p: Packs, key: Key, at: int): (Packs, Option<Failure>) {
    if key !in p then (p, Some(NotInstalled))
    else if p[key].status == Quarantined then (p, Some(IsQuarantined))
    else (p[key := p[key].(status := Disabled, disabledAt := Some(at))], None)
  }

  function QuarantineIn(p: Packs, key: Key, reason: string, at: int): (Packs, Option<Failure>) {
    if key !in p then (p, Some(NotInstalled))
    else (p[key := p[key].(status := Quarantined, quarantinedAt := Some(at), reason := Trim(reason), enabledAt := None)], None)
  }

  function DeprecateIn(p: Packs, key: Key, at: int): (Packs, Option<Failure>) {
    if key !in p then (p, Some(NotInstalled))
    else (p[key := p[key].(status := Deprecated, disabledAt := Some(at))], None)
  }

  // ---- Snapshots ----

  /** A record as restored: everything the manifest determines is taken from the manifest again. */
  function RestoreRecord(r: Record, version: string): Result<Record, Failure> {
    if !Accepts(r.manifest) then Err(Invalid)
    else if r.status.Unknown? then Err(BadStatus)
    else Ok(r.(packID := Trim(r.manifest.packID), packVersion := Trim(r.manifest.packVersion),
               displayName := Trim(r.manifest.displayName), incompatibility := CheckCompatibility(r.manifest, version)))
  }

  function RestoreRecords(rs: seq<Record>, version: string): Result<Packs, Failure> {
    if rs == [] then Ok(map[]) else
    match RestoreRecords(rs[..|rs| - 1], version)
    case Err(e) => Err(e)
    case Ok(p) =>
      match RestoreRecord(rs[|rs| - 1], version)
      case Err(e) => Err(e)
      case Ok(r) =>
        var key := KeyFor(r.packID, r.packVersion);
        if key in p then Err(DuplicateRecord) else Ok(p[key := r])
  }

  function Owner(r: Record): string {
    r.packID + "@" + r.packVersion
  }

  /** Two enabled records of different owners declare a source that is not blank. */
  predicate SharedSource(p: Packs) {
    exists k, l :: k in p && l in p && p[k].status == Enabled && p[l].status == Enabled && Owner(p[k]) != Owner(p[l])
                   && SharesNamed(p[k].manifest, p[l].manifest)
  }

  predicate SharesNamed(a: Manifest, b: Manifest) {
    exists i :: 0 <= i < |a.sources| && !Blank(a.sources[i].sourceID) && Declares(b, Trim(a.sources[i].sourceID))
  }

  function RestoreVersion(given: string, recorded: string): string {
    if Blank(given) then Trim(recorded) else Trim(given)
  }

  function Restore(schema: int, rs: seq<Record>, recorded: string, given: string): Result<Packs, Failure> {
    if schema != SCHEMA_VERSION then Err(Invalid) else
    match RestoreRecords(rs, RestoreVersion(given, recorded))
    case Err(e) => Err(e)
    case Ok(p) => if SharedSource(p) then Err(Conflicts) else Ok(p)
  }

  /** A listing of the records: each of them once. */
  ghost predicate Lists(rs: seq<Record>, p: Packs) {
    && (forall i :: 0 <= i < |rs| ==> KeyFor(rs[i].packID, rs[i].packVersion) in p
                                      && p[KeyFor(rs[i].packID, rs[i].packVersion)] == rs[i])
    && (forall i, j :: 0 <= i < j < |rs| ==>
          KeyFor(rs[i].packID, rs[i].packVersion) != KeyFor(rs[j].packID, rs[j].packVersion))
    && (forall k :: k in p ==> exists i :: 0 <= i < |rs| && KeyFor(rs[i].packID, rs[i].packVersion) == k)
  }

  // ---- Resolution ----

  /** The record a source resolves to: an enabled one that declares it, of no lower version than any other. */
  ghost predicate Best(p: Packs, sourceID: string, k: Key) {
    && k in p && p[k].status == Enabled && FirstSource(p[k].manifest.sources, sourceID).Some?
    && forall l :: l in p && p[l].status == Enabled && FirstSource(p[l].manifest.sources, sourceID).Some? ==>
         CompareSemver(p[l].packVersion, p[k].packVersion) <= 0
  }

  datatype ResolvedSource = ResolvedSource(packID: string, packVersion: string, content: Resolved)

  function ResolvedFrom(p: Packs, sourceID: string, k: Key): ResolvedSource
    requires k in p && FirstSource(p[k].manifest.sources, sourceID).Some?
  {
    var s := FirstSource(p[k].manifest.sources, sourceID).value;
    ResolvedSource(p[k].packID, p[k].packVersion, Resolve(p[k].manifest, s))
  }

  class Registry {
    const version: string
    var packs: Packs

    constructor (version: string)
      ensures this.version == Trim(version) && packs == map[]
    {
      this.version := Trim(version);
      packs := map[];
    }

    method Install(m: Manifest, at: int) returns (r: Result<Record, Failure>)
      modifies this
      ensures match InstallIn(old(packs), version, m, at)
              case Err(e) => r == Err(e) && packs == old(packs)
              case Ok(p) => r == Ok(NewRecord(m, at)) && packs == p
    {
      hide Accepts, CheckCompatibility;
      var valid := Validate(m);
      if !valid {
        return Err(Invalid);
      }
      var why := CheckCompatibility(m, version);
      if why.Some? {
        return Err(Incompatible(why.value));
      }
      var key := KeyFor(m.packID, m.packVersion);
      if key in packs {
        return Err(AlreadyInstalled);
      }
      packs := packs[key := NewRecord(m, at)];
      r := Ok(packs[key]);
    }

    method SourceConflict(packID: string, m: Manifest) returns (found: bool)
      ensures found <==> Clashes(packs, packID, m)
    {
      hide Trim, Shares;
      found := false;
      var left := packs.Keys;
      while left != {}
        invariant left <= packs.Keys && !found
        invariant forall k :: k in packs && k !in left && packs[k].status == Enabled && packs[k].packID != packID ==>
                    !Shares(packs[k].manifest, m)
        decreases |left|
      {
        var k :| k in left;
        left := left - {k};
        if packs[k].status != Enabled || packs[k].packID == packID {
          continue;
        }
        found := AnyShared(packs[k].manifest, m);
        if found {
          return;
        }
      }
    }

    static method AnyShared(a: Manifest, b: Manifest) returns (found: bool)
      ensures found <==> Shares(a, b)
    {
      hide Trim;
      var targets := set i | 0 <= i < |b.sources| :: Trim(b.sources[i].sourceID);
      for i := 0 to |a.sources|
        invariant forall k :: 0 <= k < i ==> !Declares(b, Trim(a.sources[k].sourceID))
      {
        if Trim(a.sources[i].sourceID) in targets {
          return true;
        }
      }
      return false;
    }

    method Enable(packID: string, packVersion: string, at: int) returns (error: Option<Failure>)
      modifies this
      ensures (packs, error) == EnableIn(old(packs), version, KeyFor(packID, packVersion), at)
    {
      hide Trim, CheckCompatibility, Clashes, Promote, Demote, Superseded;
      var key := KeyFor(packID, packVersion);
      if key !in packs {
        return Some(NotInstalled);
      }
      var record := packs[key];
      if record.status == Quarantined {
        return Some(IsQuarantined);
      }
      if record.status == Deprecated {
        return Some(IsDeprecated);
      }
      var why := CheckCompatibility(record.manifest, version);
      if why.Some? {
        packs := packs[key := record.(incompatibility := why)];
        return Some(Incompatible(why.value));
      }
      var conflict := SourceConflict(record.packID, record.manifest);
      if conflict {
        return Some(Conflicts);
      }
      DemoteOthers(Key(Trim(record.packID), Trim(record.packVersion)), at);
      packs := packs[key := Promote(record, at)];
      error := None;
    }

    method DemoteOthers(key: Key, at: int)
      modifies this
      ensures packs == Demoted(old(packs), key, at)
    {
      hide Demote;
      var left := packs.Keys;
      while left != {}
        invariant left <= old(packs).Keys
        invariant packs.Keys == old(packs).Keys
        invariant forall k :: k in packs ==>
                    packs[k] == if k !in left && Superseded(k, old(packs)[k], key) then Demote(old(packs)[k], at) else old(packs)[k]
        decreases |left|
      {
        var k :| k in left;
        var existing := packs[k];
        left := left - {k};
        if k.id != key.id || k.version == key.version {
          continue;
        }
        if existing.status == Enabled {
          packs := packs[k := Demote(existing, at)];
        }
      }
    }

    method Disable(packID: string, packVersion: string, at: int) returns (error: Option<Failure>)
      modifies this
      ensures (packs, error) == DisableIn(old(packs), KeyFor(packID, packVersion), at)
    {
      var key := KeyFor(packID, packVersion);
      if key !in packs {
        return Some(NotInstalled);
      }
      if packs[key].status == Quarantined {
        return Some(IsQuarantined);
      }
      packs := packs[key := packs[key].(status := Disabled, disabledAt := Some(at))];
      error := None;
    }

    method Quarantine(packID: string, packVersion: string, reason: string, at: int) returns (error: Option<Failure>)
      modifies this
      ensures (packs, error) == QuarantineIn(old(packs), KeyFor(packID, packVersion), reason, at)
    {
      var key := KeyFor(packID, packVersion);
      if key !in packs {
        return Some(NotInstalled);
      }
      packs := packs[key := packs[key].(status := Quarantined, quarantinedAt := Some(at), reason := Trim(reason), enabledAt := None)];
      error := None;
    }

    method Deprecate(packID: string, packVersion: string, at: int) returns (error: Option<Failure>)
      modifies this
      ensures (packs, error) == DeprecateIn(old(packs), KeyFor(packID, packVersion), at)
    {
      var key := KeyFor(packID, packVersion);
      if key !in packs {
        return Some(NotInstalled);
      }
      packs := packs[key := packs[key].(status := Deprecated, disabledAt := Some(at))];
      error := None;
    }

    /** The records are visited in whatever order the map gives them. */
    method ResolveSource(id: string) returns (r: Option<ResolvedSource>)
      ensures r.None? <==> Blank(id) || !exists k :: k in packs && packs[k].status == Enabled
                                                     && FirstSource(packs[k].manifest.sources, Trim(id)).Some?
      ensures r.Some? ==> exists k :: Best(packs, Trim(id), k) && r.value == ResolvedFrom(packs, Trim(id), k)
    {
      hide Trim, FirstSource, CompareSemver, Resolve;
      var sourceID := Trim(id);
      if sourceID == "" {
        return None;
      }
      var best: Option<Key> := None;
      var left := packs.Keys;
      while left != {}
        invariant left <= packs.Keys
        invariant best.None? ==> forall l :: l in packs && l !in left ==>
                                   packs[l].status != Enabled || FirstSource(packs[l].manifest.sources, sourceID).None?
        invariant best.Some? ==> BestAmong(packs, sourceID, packs.Keys - left, best.value)
        decreases |left|
      {
        var k :| k in left;
        var record := packs[k];
        var source := FirstSource(record.manifest.sources, sourceID);
        if record.status == Enabled && source.Some? {
          if best.None? || CompareSemver(record.packVersion, packs[best.value].packVersion) > 0 {
            BestReplaced(packs, sourceID, packs.Keys - left, best, k);
            best := Some(k);
          } else {
            BestStays(packs, sourceID, packs.Keys - left, best.value, k);
          }
        }
        left := left - {k};
      }
      if best.None? {
        return None;
      }
      assert packs.Keys - {} == packs.Keys;
      r := Some(ResolvedFrom(packs, sourceID, best.value));
    }
  }

  ghost predicate BestAmong(p: Packs, sourceID: string, seen: set<Key>, k: Key) {
    && k in p && p[k].status == Enabled && FirstSource(p[k].manifest.sources, sourceID).Some?
    && forall l :: l in seen && l in p && p[l].status == Enabled && FirstSource(p[l].manifest.sources, sourceID).Some? ==>
         CompareSemver(p[l].packVersion, p[k].packVersion) <= 0
  }

  lemma BestReplaced(p: Packs, sourceID: string, seen: set<Key>, best: Option<Key>, k: Key)
    requires k in p && p[k].status == Enabled && FirstSource(p[k].manifest.sources, sourceID).Some?
    requires best.None? ==> forall l :: l in seen && l in p ==>
                              p[l].status != Enabled || FirstSource(p[l].manifest.sources, sourceID).None?
    requires best.Some? ==> BestAmong(p, sourceID, seen, best.value)
                            && CompareSemver(p[k].packVersion, p[best.value].packVersion) > 0
    ensures BestAmong(p, sourceID, seen + {k}, k)
  {
    hide FirstSource, CompareSemver;
    forall l | l in seen + {k} && l in p && p[l].status == Enabled && FirstSource(p[l].manifest.sources, sourceID).Some?
      ensures CompareSemver(p[l].packVersion, p[k].packVersion) <= 0
    {
      if l == k {
        CompareIsPreorder(p[k].packVersion, p[k].packVersion, p[k].packVersion);
      } else {
        CompareIsPreorder(p[l].packVersion, p[best.value].packVersion, p[k].packVersion);
        CompareIsPreorder(p[best.value].packVersion, p[k].packVersion, p[k].packVersion);
      }
    }
  }

  lemma BestStays(p: Packs, sourceID: string, seen: set<Key>, best: Key, k: Key)
    requires k in p && BestAmong(p, sourceID, seen, best)
    requires CompareSemver(p[k].packVersion, p[best].packVersion) <= 0
    ensures BestAmong(p, sourceID, seen + {k}, best)
  {
    hide FirstSource, CompareSemver;
  }
}
