/** The exact answers of the registry: which packs it installs and enables, what a rollback brings back, and how long a
    quarantine holds. */
module RegistryAnswers {
  import opened Text
  import opened Wrappers
  import opened Semver
  import opened Manifests
  import opened Registries
  import opened RegistryLaws

  /** No minimum, or two versions of the pattern of which the present one is not below. */
  predicate VersionAllows(m: Manifest, version: string) {
    Blank(m.minVersion)
    || (SemverText(Trim(m.minVersion)) && SemverText(Trim(version)) && CompareSemver(Trim(version), Trim(m.minVersion)) >= 0)
  }

  lemma CompatibleIff(m: Manifest, version: string)
    ensures CheckCompatibility(m, version).None? <==> VersionAllows(m, version)
    ensures CheckCompatibility(m, version) == Some(TooOld)
            <==> !Blank(m.minVersion) && SemverText(Trim(m.minVersion)) && SemverText(Trim(version))
                 && CompareSemver(Trim(version), Trim(m.minVersion)) < 0
  {
    hide Trim, SemverText, CompareSemver;
    EmptyIsNoVersion();
  }

  lemma EmptyIsNoVersion()
    ensures !SemverText("")
  {
    assert Split("", '.') == [""];
  }

  /** A manifest installs exactly when it is accepted, its version and key are new, and the present version allows it;
      it is then the one record that differs, installed and not enabled. */
  lemma InstallIff(p: Packs, version: string, m: Manifest, at: int)
    ensures var r := InstallIn(p, version, m, at);
            var key := Key(Trim(m.packID), Trim(m.packVersion));
            && (r.Ok? <==> Accepts(m) && VersionAllows(m, version) && key !in p)
            && (r.Ok? ==> r.value.Keys == p.Keys + {key} && r.value[key].status == Installed && r.value[key].manifest == m
                          && r.value[key].installedAt == at && forall k :: k in p ==> r.value[k] == p[k])
  {
    hide Trim, Accepts, CheckCompatibility, VersionAllows;
    CompatibleIff(m, version);
  }

  /** No other pack that is enabled declares a source of `m`. */
  ghost predicate Unclaimed(p: Packs, packID: string, m: Manifest) {
    forall k, id :: k in p && p[k].status == Enabled && p[k].packID != packID && Declares(p[k].manifest, id) ==> !Declares(m, id)
  }

  lemma ClashesIff(p: Packs, packID: string, m: Manifest)
    ensures Clashes(p, packID, m) <==> !Unclaimed(p, packID, m)
  {
    hide Trim;
    if !Unclaimed(p, packID, m) {
      var k, id :| k in p && p[k].status == Enabled && p[k].packID != packID && Declares(p[k].manifest, id) && Declares(m, id);
      SharesIff(p[k].manifest, m, id);
    }
  }

  ghost predicate MayEnable(p: Packs, version: string, key: Key) {
    && key in p && p[key].status != Quarantined && p[key].status != Deprecated
    && VersionAllows(p[key].manifest, version) && Unclaimed(p, p[key].packID, p[key].manifest)
  }

  /** A record is enabled exactly when it exists, is neither quarantined nor deprecated, the present version allows it
      and no other enabled pack declares one of its sources. A refusal changes no status. */
  lemma EnableIff(p: Packs, version: string, key: Key, at: int)
    ensures var (q, failure) := EnableIn(p, version, key, at);
            && (failure.None? <==> MayEnable(p, version, key))
            && q.Keys == p.Keys
            && (failure.Some? ==> forall k :: k in p ==> q[k].status == p[k].status && q[k].manifest == p[k].manifest)
  {
    hide Trim, CheckCompatibility, Clashes, VersionAllows, Unclaimed;
    if key in p {
      CompatibleIff(p[key].manifest, version);
      ClashesIff(p, p[key].packID, p[key].manifest);
    }
  }

  /** What enabling does: the record is enabled, the enabled version of the same pack, if any, stands by for a rollback,
      and no other record changes. */
  lemma EnableEffect(p: Packs, version: string, key: Key, at: int, k: Key)
    requires MayEnable(p, version, key) && RecordOk(key, p[key], version) && k in p
    ensures var q := EnableIn(p, version, key, at).0;
            && k in q && q[k].manifest == p[k].manifest
            && (k == key ==> q[k].status == Enabled && q[k].enabledAt == Some(at) && q[k].disabledAt == None)
            && (k != key && k.id == key.id && p[k].status == Enabled ==>
                  q[k].status == RollbackAvailable && q[k].disabledAt == Some(at))
            && (k != key && (k.id != key.id || p[k].status != Enabled) ==> q[k] == p[k])
  {
    hide Trim, Accepts, CheckCompatibility, Clashes, VersionAllows, Unclaimed;
    EnableIff(p, version, key, at);
    TrimmedKey(key, p[key], version);
  }

  predicate HasStatus(s: State, key: Key, status: Status) {
    key in s.packs && s.packs[key].status == status
  }

  /** Enabling another version of a pack and then the former one again brings the former one back: it is enabled, and the
      other stands by. */
  lemma RollbackReturns(s: State, older: Key, newer: Key, at: int, later: int)
    requires Inv(s) && HasStatus(s, older, Enabled) && older.id == newer.id && older != newer
    requires MayEnable(s.packs, s.version, newer) && VersionAllows(s.packs[older].manifest, s.version)
    ensures var t := Next(s, DoEnable(newer, at));
            var u := Next(t, DoEnable(older, later));
            && HasStatus(t, newer, Enabled) && HasStatus(t, older, RollbackAvailable)
            && MayEnable(t.packs, t.version, older)
            && HasStatus(u, older, Enabled) && HasStatus(u, newer, RollbackAvailable)
  {
    hide RecordOk, VersionAllows, MayEnable, EnableIn;
    assert newer in s.packs by { MayEnableIn(s.packs, s.version, newer); }
    assert RecordOk(newer, s.packs[newer], s.version) && RecordOk(older, s.packs[older], s.version);
    EnableEffect(s.packs, s.version, newer, at, newer);
    EnableEffect(s.packs, s.version, newer, at, older);
    EnableIff(s.packs, s.version, newer, at);
    NextKeeps(s, DoEnable(newer, at));
    var t := Next(s, DoEnable(newer, at));
    StillUnclaimed(s, t, older, newer, at);
    MayEnableAgain(t.packs, t.version, older);
    EnableEffect(t.packs, t.version, older, later, older);
    EnableEffect(t.packs, t.version, older, later, newer);
  }

  lemma MayEnableIn(p: Packs, version: string, key: Key)
    requires MayEnable(p, version, key)
    ensures key in p
  {
  }

  lemma MayEnableAgain(p: Packs, version: string, key: Key)
    requires key in p && p[key].status == RollbackAvailable && VersionAllows(p[key].manifest, version)
    requires Unclaimed(p, p[key].packID, p[key].manifest)
    ensures MayEnable(p, version, key)
  {
  }

  lemma StillUnclaimed(s: State, t: State, older: Key, newer: Key, at: int)
    requires Inv(s) && older in s.packs && s.packs[older].status == Enabled && older.id == newer.id && older != newer
    requires MayEnable(s.packs, s.version, newer) && t == Next(s, DoEnable(newer, at)) && Inv(t)
    ensures older in t.packs && Unclaimed(t.packs, t.packs[older].packID, t.packs[older].manifest)
  {
    hide VersionAllows, Declares, EnableIn, Unclaimed, OneOwner;
    var p, q := s.packs, t.packs;
    assert RecordOk(newer, p[newer], s.version);
    EnableIff(p, s.version, newer, at);
    EnableEffect(p, s.version, newer, at, older);
    forall k | k in q ensures k in p && RecordOk(k, p[k], s.version) && RecordOk(k, q[k], t.version) {}
    forall k, id | k in q && q[k].status == Enabled && q[k].packID != q[older].packID && Declares(q[k].manifest, id)
      ensures !Declares(q[older].manifest, id)
    {
      EnableEffect(p, s.version, newer, at, k);
      SamePackID(older, q[older], newer, p[newer], k, q[k], t.version);
      OwnedOnce(p, k, older, id);
    }
    UnclaimedWhen(q, q[older].packID, q[older].manifest);
  }

  lemma UnclaimedWhen(p: Packs, packID: string, m: Manifest)
    requires forall k, id :: k in p && p[k].status == Enabled && p[k].packID != packID && Declares(p[k].manifest, id) ==> !Declares(m, id)
    ensures Unclaimed(p, packID, m)
  {
  }

  lemma SamePackID(older: Key, a: Record, newer: Key, b: Record, k: Key, r: Record, version: string)
    requires RecordOk(older, a, version) && RecordOk(newer, b, version) && RecordOk(k, r, version)
    requires older.id == newer.id && r.packID != a.packID
    ensures k != newer && k != older && k.id != older.id
  {
  }

  lemma OwnedOnce(p: Packs, k: Key, l: Key, id: string)
    requires OneOwner(p) && k in p && l in p && k != l && p[k].status == Enabled && p[l].status == Enabled
    ensures !(Declares(p[k].manifest, id) && Declares(p[l].manifest, id))
  {
  }

  // ---- Quarantine ----

  /** Short of a restore, one operation alone takes a record out of quarantine: to deprecate it. */
  lemma QuarantineStandsIff(s: State, step: Step, key: Key)
    requires HasStatus(s, key, Quarantined) && !step.DoRestore? && Inv(s)
    ensures HasStatus(Next(s, step), key, Quarantined) <==> !(step.DoDeprecate? && step.key == key)
  {
    hide Trim, Accepts, CheckCompatibility, Clashes, OneOwner, RecordOk;
    if step.DoEnable? && step.key in s.packs { assert RecordOk(step.key, s.packs[step.key], s.version); }
  }

  lemma {:induction false} QuarantineHolds(version: string, steps: seq<Step>, more: seq<Step>, key: Key)
    requires HasStatus(Run(Empty(version), steps), key, Quarantined)
    requires forall i :: 0 <= i < |more| ==> !more[i].DoRestore? && !(more[i].DoDeprecate? && more[i].key == key)
    ensures HasStatus(Run(Empty(version), steps + more), key, Quarantined)
  {
    hide Inv, Next, HasStatus;
    if more == [] {
      assert steps + more == steps;
    } else {
      var front, last := more[..|more| - 1], more[|more| - 1];
      QuarantineHolds(version, steps, front, key);
      assert (steps + more)[..|steps + more| - 1] == steps + front;
      RunKeeps(version, steps + front);
      QuarantineStandsIff(Run(Empty(version), steps + front), last, key);
    }
  }

  /** A quarantined record whose version is allowed and whose sources are free is enabled again by way of deprecation: it
      is deprecated, disabled, and then enabled, and none of the three is refused. */
  lemma QuarantineEscapes(s: State, key: Key, at: int)
    requires Inv(s) && HasStatus(s, key, Quarantined)
    requires VersionAllows(s.packs[key].manifest, s.version) && Unclaimed(s.packs, s.packs[key].packID, s.packs[key].manifest)
    ensures EnableIn(s.packs, s.version, key, at).1 == Some(IsQuarantined)
    ensures var t := Next(Next(Next(s, DoDeprecate(key, at)), DoDisable(key, at)), DoEnable(key, at));
            HasStatus(t, key, Enabled)
  {
    hide RecordOk, VersionAllows, Declares, CheckCompatibility, Clashes, Trim, OneOwner;
    var t := Next(Next(s, DoDeprecate(key, at)), DoDisable(key, at));
    NextKeeps(s, DoDeprecate(key, at));
    NextKeeps(Next(s, DoDeprecate(key, at)), DoDisable(key, at));
    assert RecordOk(key, t.packs[key], t.version);
    hide Unclaimed;
    assert t.packs[key].status == Disabled && t.packs[key].manifest == s.packs[key].manifest;
    FewerClaims(s.packs, t.packs, key);
    EnableEffect(t.packs, t.version, key, at, key);
  }

  lemma FewerClaims(p: Packs, q: Packs, key: Key)
    requires key in p && key in q && q.Keys == p.Keys && q[key].packID == p[key].packID && q[key].manifest == p[key].manifest
    requires forall k :: k in q && q[k].status == Enabled ==> p[k] == q[k]
    requires Unclaimed(p, p[key].packID, p[key].manifest)
    ensures Unclaimed(q, q[key].packID, q[key].manifest)
  {
    hide Declares;
  }
}
