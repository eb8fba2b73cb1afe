/** The check that decides whether the planned rules are already in the host firewall. Some
    backends list rules as structured entries, others only as text lines, so a rule is looked for
    by identity first and by fingerprint second. */
module NetworkPresence {
  import opened Text
  import opened NetworkPlan

  const MISSING_PREFIX := "missing_network_policy_rule:"

  /** What a listed rule adds to the text that is searched for fingerprints. */
  function RuleText(r: Rule): string {
    (if r.comment != "" then "\n" + r.comment else "") + (if r.tag != "" then "\n" + r.tag else "")
  }

  function ListingText(existing: seq<Rule>): string {
    if existing == [] then "" else ListingText(existing[..|existing| - 1]) + RuleText(existing[|existing| - 1])
  }

  function Count(rules: seq<Rule>, key: string): nat {
    if rules == [] then 0 else
    Count(rules[..|rules| - 1], key) + (if Identity(rules[|rules| - 1]) == key then 1 else 0)
  }

  predicate Named(h: Hash, existing: seq<Rule>, r: Rule) {
    Contains(ListingText(existing), FINGERPRINT_KEY + Fingerprint(h, r))
  }

  /** A planned rule is present when its fingerprint is in the listing's text or when the listing
      holds at least as many rules of its identity as the plan does. */
  predicate RulePresent(h: Hash, planned: seq<Rule>, existing: seq<Rule>, r: Rule) {
    Named(h, existing, r)
    || (Identity(r) != "" && Count(planned, Identity(r)) <= Count(existing, Identity(r)))
  }

  function AppendUnique(values: seq<string>, value: string): seq<string> {
    var v := Trim(value);
    if v == "" || exists i :: 0 <= i < |values| && EqualFold(values[i], v) then values else values + [v]
  }

  function Missing(h: Hash, r: Rule): string {
    MISSING_PREFIX + Fingerprint(h, r)
  }

  /** The scan rejects planned rule `i`: the listing's rules of its identity are used up by earlier
      planned rules, and its fingerprint is nowhere in the text. */
  predicate RejectedAt(h: Hash, planned: seq<Rule>, existing: seq<Rule>, i: nat)
    requires i < |planned|
  {
    var key := Identity(planned[i]);
    !Named(h, existing, planned[i]) && (key == "" || Count(planned[..i], key) >= Count(existing, key))
  }

  /** The drift reported for the first `n` planned rules. */
  function Drift(h: Hash, planned: seq<Rule>, existing: seq<Rule>, n: nat): seq<string>
    requires n <= |planned|
  {
    if n == 0 then [] else
    var d := Drift(h, planned, existing, n - 1);
    if RejectedAt(h, planned, existing, n - 1) then AppendUnique(d, Missing(h, planned[n - 1])) else d
  }

  function Budget(structured: map<string, nat>, key: string): nat {
    if key in structured then structured[key] else 0
  }

  method PlannedRulesPresent(h: Hash, planned: seq<Rule>, existing: seq<Rule>)
    returns (ok: bool, drift: seq<string>)
    ensures drift == Drift(h, planned, existing, |planned|)
    ensures ok <==> drift == []
  {
    hide Identity, Fingerprint, Contains, AppendUnique, Missing, ListingText, Count, Drift;
    drift := [];
    DriftStart(h, planned, existing);
    if |planned| == 0 {
      return true, [];
    }
    var structured: map<string, nat> := map[];
    var text := "";
    ListingStart(existing);
    for i := 0 to |existing|
      invariant text == ListingText(existing[..i])
      invariant "" !in structured
      invariant forall key :: key != "" ==> Budget(structured, key) == Count(existing[..i], key)
    {
      var rule := existing[i];
      ListingStep(existing, i);
      var key := Identity(rule);
      ghost var before := structured;
      if key != "" {
        structured := structured[key := Budget(structured, key) + 1];
      }
      assert forall k :: k != "" ==> Budget(structured, k) == Budget(before, k) + if k == key then 1 else 0;
      assert forall k :: k != "" ==> Budget(before, k) == Count(existing[..i], k);
      assert forall k :: Count(existing[..i + 1], k) == Count(existing[..i], k) + if k == key then 1 else 0;
      if rule.comment != "" {
        text := text + "\n" + rule.comment;
      }
      if rule.tag != "" {
        text := text + "\n" + rule.tag;
      }
      assert text == ListingText(existing[..i]) + RuleText(rule);
    }
    assert existing[..|existing|] == existing;
    ListingStart(planned);
    for j := 0 to |planned|
      invariant "" !in structured
      invariant forall key :: key != "" ==>
        Budget(structured, key) == if Count(planned[..j], key) <= Count(existing, key)
                                   then Count(existing, key) - Count(planned[..j], key) else 0
      invariant drift == Drift(h, planned, existing, j)
    {
      var rule := planned[j];
      ListingStep(planned, j);
      DriftStep(h, planned, existing, j);
      var key := Identity(rule);
      if Budget(structured, key) > 0 {
        structured := structured[key := structured[key] - 1];
        continue;
      }
      if Contains(text, FINGERPRINT_KEY + Fingerprint(h, rule)) {
        continue;
      }
      drift := AppendUnique(drift, Missing(h, rule));
    }
    ok := drift == [];
  }

  lemma ListingStart(rules: seq<Rule>)
    ensures ListingText(rules[..0]) == "" && forall key :: Count(rules[..0], key) == 0
  {
  }

  lemma ListingStep(rules: seq<Rule>, i: nat)
    requires i < |rules|
    ensures ListingText(rules[..i + 1]) == ListingText(rules[..i]) + RuleText(rules[i])
    ensures forall key :: Count(rules[..i + 1], key)
                          == Count(rules[..i], key) + if Identity(rules[i]) == key then 1 else 0
  {
    hide Identity, RuleText;
    assert rules[..i + 1][..i] == rules[..i];
  }

  lemma DriftStart(h: Hash, planned: seq<Rule>, existing: seq<Rule>)
    ensures Drift(h, planned, existing, 0) == []
  {
  }

  lemma DriftStep(h: Hash, planned: seq<Rule>, existing: seq<Rule>, j: nat)
    requires j < |planned|
    ensures Drift(h, planned, existing, j + 1)
            == var d := Drift(h, planned, existing, j);
               if RejectedAt(h, planned, existing, j) then AppendUnique(d, Missing(h, planned[j])) else d
  {
    hide RejectedAt, AppendUnique, Missing;
  }

  // ---- What the check decides ----

  lemma {:induction false} CountSplits(planned: seq<Rule>, key: string, limit: nat)
    ensures Count(planned, key) > limit
            <==> exists i :: 0 <= i < |planned| && Identity(planned[i]) == key && Count(planned[..i], key) == limit
    ensures forall i :: 0 <= i < |planned| && Identity(planned[i]) == key && Count(planned[..i], key) >= limit
                        ==> Count(planned, key) > limit
  {
    hide Identity;
    if planned != [] {
      var n := |planned| - 1;
      var front := planned[..n];
      CountSplits(front, key, limit);
      assert forall i :: 0 <= i <= n ==> front[..i] == planned[..i];
      if Count(planned, key) > limit {
        if Count(front, key) > limit {
          var i :| 0 <= i < n && Identity(front[i]) == key && Count(front[..i], key) == limit;
          assert Identity(planned[i]) == key && Count(planned[..i], key) == limit;
        } else {
          assert Identity(planned[n]) == key && Count(planned[..n], key) == limit;
        }
      }
    }
  }

  lemma MissingIsNotBlank(h: Hash, r: Rule)
    ensures Trim(Missing(h, r)) != ""
  {
    BlankIff(Missing(h, r));
    assert Missing(h, r)[0] == 'm';
  }

  /** The scan rejects some planned rule of an identity exactly when rules of that identity are not present. */
  lemma RejectedIffAbsent(h: Hash, planned: seq<Rule>, existing: seq<Rule>, r: Rule)
    requires r in planned
    ensures (exists i :: 0 <= i < |planned| && Identity(planned[i]) == Identity(r) && RejectedAt(h, planned, existing, i))
            <==> !RulePresent(h, planned, existing, r)
  {
    hide Identity, Contains;
    var key := Identity(r);
    CountSplits(planned, key, Count(existing, key));
    if !RulePresent(h, planned, existing, r) {
      if key == "" {
        var i :| 0 <= i < |planned| && planned[i] == r;
        assert RejectedAt(h, planned, existing, i);
      } else {
        var i :| 0 <= i < |planned| && Identity(planned[i]) == key && Count(planned[..i], key) == Count(existing, key);
        assert RejectedAt(h, planned, existing, i);
      }
    }
  }

  /** The drift holds message `m`, letter case aside. */
  predicate Reported(drift: seq<string>, m: string) {
    exists i :: 0 <= i < |drift| && EqualFold(drift[i], m)
  }

  function Message(h: Hash, r: Rule): string {
    Trim(Missing(h, r))
  }

  lemma AppendReports(drift: seq<string>, m: string)
    requires Trim(m) != ""
    ensures Reported(AppendUnique(drift, m), Trim(m))
    ensures forall v :: Reported(drift, v) ==> Reported(AppendUnique(drift, m), v)
    ensures AppendUnique(drift, m) == drift || AppendUnique(drift, m) == drift + [Trim(m)]
  {
    var after := AppendUnique(drift, m);
    hide Trim, EqualFold;
    if after != drift {
      assert after[|drift|] == Trim(m);
      EqualFoldReflexive(Trim(m));
    }
    forall v | Reported(drift, v) ensures Reported(after, v) {
      var i :| 0 <= i < |drift| && EqualFold(drift[i], v);
      assert after[i] == drift[i];
    }
  }

  lemma EqualFoldReflexive(a: string)
    ensures EqualFold(a, a)
  {
  }

  lemma {:induction false} RejectedAreReported(h: Hash, planned: seq<Rule>, existing: seq<Rule>, n: nat, i: nat)
    requires i < n <= |planned| && RejectedAt(h, planned, existing, i)
    ensures Reported(Drift(h, planned, existing, n), Message(h, planned[i]))
  {
    hide Drift, Reported, AppendUnique, RejectedAt, Missing, Trim;
    DriftStep(h, planned, existing, n - 1);
    MissingIsNotBlank(h, planned[n - 1]);
    AppendReports(Drift(h, planned, existing, n - 1), Missing(h, planned[n - 1]));
    if i < n - 1 {
      RejectedAreReported(h, planned, existing, n - 1, i);
    }
  }

  lemma {:induction false} ReportedAreRejected(h: Hash, planned: seq<Rule>, existing: seq<Rule>, n: nat, k: nat)
    returns (i: nat)
    requires n <= |planned| && k < |Drift(h, planned, existing, n)|
    ensures i < n && RejectedAt(h, planned, existing, i)
    ensures Drift(h, planned, existing, n)[k] == Message(h, planned[i])
  {
    hide Drift, Reported, AppendUnique, RejectedAt, Missing, Trim;
    DriftStart(h, planned, existing);
    DriftStep(h, planned, existing, n - 1);
    MissingIsNotBlank(h, planned[n - 1]);
    AppendReports(Drift(h, planned, existing, n - 1), Missing(h, planned[n - 1]));
    if k < |Drift(h, planned, existing, n - 1)| {
      i := ReportedAreRejected(h, planned, existing, n - 1, k);
    } else {
      i := n - 1;
    }
  }

  /** The check accepts exactly when every planned rule is present, and the drift names exactly the
      fingerprints of the rules that are not (letter case aside). */
  lemma DriftIsExact(h: Hash, planned: seq<Rule>, existing: seq<Rule>)
    ensures Drift(h, planned, existing, |planned|) == []
            <==> forall r :: r in planned ==> RulePresent(h, planned, existing, r)
    ensures forall r :: r in planned && !RulePresent(h, planned, existing, r)
                        ==> Reported(Drift(h, planned, existing, |planned|), Message(h, r))
    ensures forall d :: d in Drift(h, planned, existing, |planned|)
                        ==> exists r :: r in planned && !RulePresent(h, planned, existing, r) && d == Message(h, r)
  {
    hide RejectedAt, RulePresent, EqualFold, Identity, Trim, Drift, Missing;
    var drift := Drift(h, planned, existing, |planned|);
    forall r | r in planned && !RulePresent(h, planned, existing, r) ensures Reported(drift, Message(h, r)) {
      RejectedIffAbsent(h, planned, existing, r);
      var i :| 0 <= i < |planned| && Identity(planned[i]) == Identity(r) && RejectedAt(h, planned, existing, i);
      RejectedAreReported(h, planned, existing, |planned|, i);
      SameIdentitySameMessage(h, planned[i], r);
    }
    forall d | d in drift
      ensures exists r :: r in planned && !RulePresent(h, planned, existing, r) && d == Message(h, r)
    {
      var k :| 0 <= k < |drift| && drift[k] == d;
      var i := ReportedAreRejected(h, planned, existing, |planned|, k);
      RejectedIffAbsent(h, planned, existing, planned[i]);
    }
    if drift != [] { assert drift[0] in drift; }
  }

  lemma SameIdentitySameMessage(h: Hash, r: Rule, s: Rule)
    requires Identity(r) == Identity(s)
    ensures Message(h, r) == Message(h, s)
  {
  }

  // ---- The check against listings that hold a policy's own rules ----

  lemma {:induction false} TextHolds(existing: seq<Rule>, r: Rule, sub: string)
    requires r in existing && r.comment != "" && Contains(r.comment, sub)
    ensures Contains(ListingText(existing), sub)
  {
    hide Identity;
    var n := |existing| - 1;
    var front, last := ListingText(existing[..n]), RuleText(existing[n]);
    if existing[n] == r {
      var i :| 0 <= i <= |r.comment| && OccursAt(r.comment, sub, i);
      var at := |front| + 1 + i;
      assert (front + last)[at..at + |sub|] == r.comment[i..i + |sub|];
      assert OccursAt(front + last, sub, at);
    } else {
      assert r in existing[..n];
      TextHolds(existing[..n], r, sub);
      var i :| 0 <= i <= |front| && OccursAt(front, sub, i);
      assert (front + last)[i..i + |sub|] == front[i..i + |sub|];
      assert OccursAt(front + last, sub, i);
    }
  }

  /** A listing that holds every planned rule passes the check. */
  lemma FullListingPasses(h: Hash, p: Policy, existing: seq<Rule>)
    requires forall r :: r in Planned(h, p) ==> r in existing
    ensures Drift(h, Planned(h, p), existing, |Planned(h, p)|) == []
  {
    hide Drift, Planned, Identity, RuleTag;
    forall r | r in Planned(h, p) ensures RulePresent(h, Planned(h, p), existing, r) {
      PlannedRuleShape(h, p, r);
      var sub := FINGERPRINT_KEY + Fingerprint(h, r);
      CommentNamesFingerprint(h, p.id, r);
      TextHolds(existing, r, sub);
    }
    DriftIsExact(h, Planned(h, p), existing);
  }

  lemma CommentNamesFingerprint(h: Hash, id: string, r: Rule)
    requires r == Commented(h, id, r)
    ensures r.comment != "" && Contains(r.comment, FINGERPRINT_KEY + Fingerprint(h, r))
  {
    hide Identity;
    var head, sub := "control one network policy " + id + " ", FINGERPRINT_KEY + Fingerprint(h, r);
    assert r.comment == head + sub;
    assert r.comment[|head|..|head| + |sub|] == sub;
    assert OccursAt(r.comment, sub, |head|);
  }

  /** Fingerprints are sixteen characters without '=', as the hexadecimal form of eight bytes is,
      the id holds no '=', and the plan's rules have different fingerprints. */
  ghost predicate Distinguishable(h: Hash, p: Policy) {
    && '=' !in p.id
    && (forall r :: r in Planned(h, p) ==> |Fingerprint(h, r)| == 16 && '=' !in Fingerprint(h, r))
    && (forall r, s :: r in Planned(h, p) && s in Planned(h, p) && Fingerprint(h, r) == Fingerprint(h, s) ==> r == s)
  }

  /** Every '=' in the text starts the sixteen characters of a listed rule's fingerprint. */
  ghost predicate EqualsMarkFingerprints(h: Hash, text: string, rules: seq<Rule>) {
    forall j :: 0 <= j < |text| && text[j] == '=' ==>
      j + 17 <= |text| && exists r :: r in rules && text[j + 1..j + 17] == Fingerprint(h, r)
  }

  lemma TagHasNoEquals(id: string)
    requires '=' !in id
    ensures '=' !in RuleTag(id)
  {
    hide IsSpace, TrimLeft, TrimRight;
    var a, b := TrimProps(id);
    assert forall i :: 0 <= i < |Trim(id)| ==> Trim(id)[i] == id[a + i];
    assert '=' !in RULE_TAG_PREFIX && '=' !in "unknown";
  }

  lemma CommentText(h: Hash, id: string, r: Rule)
    requires r == Commented(h, id, r)
    ensures r.comment == "control one network policy " + id + " " + FINGERPRINT_KEY + Fingerprint(h, r)
  {
    hide Fingerprint;
  }

  lemma MarkInRuleText(h: Hash, p: Policy, r: Rule)
    requires Distinguishable(h, p) && r in Planned(h, p)
    ensures EqualsMarkFingerprints(h, RuleText(r), [r])
  {
    PlannedRuleShape(h, p, r);
    TagHasNoEquals(p.id);
    CommentText(h, p.id, r);
    CommentSplits(p.id, Fingerprint(h, r));
    var fp := Fingerprint(h, r);
    var tail := if r.tag != "" then "\n" + r.tag else "";
    TextOfCommented(r, MarkedHead(p.id) + "=" + fp);
    assert |fp| == 16 && '=' !in fp;
    hide Identity, RuleTag, Planned, IsPolicyRule, Commented, Fingerprint, MarkedHead, RuleText;
    MarkedText(p.id, fp, tail);
    assert r in [r];
  }

  lemma CommentSplits(id: string, fp: string)
    ensures "\n" + ("control one network policy " + id + " " + FINGERPRINT_KEY + fp) == MarkedHead(id) + "=" + fp
  {
    assert FINGERPRINT_KEY == "controlone_rule_fp" + "=";
  }

  lemma TextOfCommented(r: Rule, text: string)
    requires r.comment != "" && "\n" + r.comment == text
    ensures RuleText(r) == text + if r.tag != "" then "\n" + r.tag else ""
  {
  }

  function MarkedHead(id: string): string {
    "\n" + "control one network policy " + id + " " + "controlone_rule_fp"
  }

  lemma MarkedText(id: string, fp: string, tail: string)
    requires '=' !in id && '=' !in fp && '=' !in tail && |fp| == 16
    ensures var t := MarkedHead(id) + "=" + fp + tail;
            forall j :: 0 <= j < |t| && t[j] == '=' ==> j + 17 <= |t| && t[j + 1..j + 17] == fp
  {
    var head := MarkedHead(id);
    assert '=' !in head;
    hide MarkedHead;
    var t := head + "=" + fp + tail;
    var n := |head|;
    assert t[n + 1..n + 17] == fp;
    forall j | 0 <= j < |t| && j != n ensures t[j] != '=' {
      assert t[j] == if j < n then head[j] else if j < n + 17 then fp[j - n - 1] else tail[j - n - 17];
    }
  }

  lemma {:induction false} MarkInListing(h: Hash, p: Policy, existing: seq<Rule>)
    requires Distinguishable(h, p) && forall r :: r in existing ==> r in Planned(h, p)
    ensures EqualsMarkFingerprints(h, ListingText(existing), existing)
  {
    hide Distinguishable, Planned, RuleText, Fingerprint;
    if existing != [] {
      var n := |existing| - 1;
      var front := existing[..n];
      MarkInListing(h, p, front);
      MarkInRuleText(h, p, existing[n]);
      var a, b := ListingText(front), RuleText(existing[n]);
      forall j | 0 <= j < |a + b| && (a + b)[j] == '='
        ensures j + 17 <= |a + b| && exists r :: r in existing && (a + b)[j + 1..j + 17] == Fingerprint(h, r)
      {
        if j < |a| {
          var r :| r in front && a[j + 1..j + 17] == Fingerprint(h, r);
          assert (a + b)[j + 1..j + 17] == a[j + 1..j + 17];
          assert r in existing;
        } else {
          var k := j - |a|;
          assert b[k] == '=';
          var r :| r in [existing[n]] && b[k + 1..k + 17] == Fingerprint(h, r);
          assert (a + b)[j + 1..j + 17] == b[k + 1..k + 17];
          assert r in existing;
        }
      }
    }
  }

  /** With distinguishable fingerprints, a listing drawn from the plan that passes the check holds
      every planned rule. */
  lemma PassingListingIsFull(h: Hash, p: Policy, existing: seq<Rule>, r: Rule)
    requires Distinguishable(h, p) && forall s :: s in existing ==> s in Planned(h, p)
    requires Drift(h, Planned(h, p), existing, |Planned(h, p)|) == [] && r in Planned(h, p)
    ensures r in existing
  {
    hide Drift, Planned, Identity;
    DriftIsExact(h, Planned(h, p), existing);
    assert RulePresent(h, Planned(h, p), existing, r);
    if Named(h, existing, r) {
      MarkInListing(h, p, existing);
      var text, fp := ListingText(existing), Fingerprint(h, r);
      var sub := FINGERPRINT_KEY + fp;
      var i :| 0 <= i <= |text| && OccursAt(text, sub, i);
      assert |fp| == 16 && |FINGERPRINT_KEY| == 19 && sub[18] == '=';
      assert text[i + 18] == text[i..i + |sub|][18] == '=';
      var s :| s in existing && text[i + 19..i + 35] == Fingerprint(h, s);
      assert text[i + 19..i + 35] == sub[19..] == fp;
    } else {
      CountPositive(Planned(h, p), r);
      var s := CountFound(existing, Identity(r));
      assert Fingerprint(h, s) == Fingerprint(h, r);
    }
  }

  lemma {:induction false} CountPositive(rules: seq<Rule>, r: Rule)
    requires r in rules
    ensures Count(rules, Identity(r)) > 0
  {
    hide Identity;
    if rules[|rules| - 1] != r {
      assert r in rules[..|rules| - 1];
      CountPositive(rules[..|rules| - 1], r);
    }
  }

  lemma {:induction false} CountFound(rules: seq<Rule>, key: string) returns (r: Rule)
    requires Count(rules, key) > 0
    ensures r in rules && Identity(r) == key
  {
    hide Identity;
    if Identity(rules[|rules| - 1]) == key {
      r := rules[|rules| - 1];
    } else {
      r := CountFound(rules[..|rules| - 1], key);
    }
  }
}
