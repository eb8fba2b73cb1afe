/** The autoblock pipeline: a sliding-window rate limiter, a per-target cooldown and a bounded audit
    log, each updated in a critical section under one mutex. Time is counted in nanoseconds. */
module Autoblock {
  import opened Wrappers

  const HOUR := 3_600_000_000_000
  const SECOND := 1_000_000_000
  const AUDIT_LIMIT := 1000

  datatype Candidate = Candidate(ip: string, cidr: string, source: string, score: int, reason: string)
  datatype Entry = Entry(ip: string, decision: string, reason: string, source: string, at: int)

  /** The configured policy; the allowlist test stands for CIDR parsing and containment. */
  datatype Policy = Policy(minScore: int, cooldownSeconds: int, maxBlocksPerHour: int, allowlisted: string -> bool)

  function WithDefaults(p: Policy): Policy {
    p.(minScore := if p.minScore <= 0 then 75 else p.minScore,
       cooldownSeconds := if p.cooldownSeconds <= 0 then 300 else p.cooldownSeconds,
       maxBlocksPerHour := if p.maxBlocksPerHour <= 0 then 1000 else p.maxBlocksPerHour)
  }

  /** Signed 64-bit wrap-around, as a Go duration multiplies. */
  function Wrap64(n: int): int {
    (n + 0x8000_0000_0000_0000) % 0x1_0000_0000_0000_0000 - 0x8000_0000_0000_0000
  }

  function Cooldown(p: Policy): int {
    Wrap64(p.cooldownSeconds * SECOND)
  }

  /** The cooldown in force is the configured one exactly up to 9223372036 seconds; above, it is shorter. */
  lemma CooldownExactIff(p: Policy)
    requires p.cooldownSeconds > 0
    ensures Cooldown(p) == p.cooldownSeconds * SECOND <==> p.cooldownSeconds <= 9_223_372_036
    ensures p.cooldownSeconds > 9_223_372_036 ==> Cooldown(p) < p.cooldownSeconds * SECOND
  {
    var n := p.cooldownSeconds * SECOND;
    if p.cooldownSeconds <= 9_223_372_036 {
      assert 0 <= n + 0x8000_0000_0000_0000 < 0x1_0000_0000_0000_0000;
    } else {
      assert n >= 0x8000_0000_0000_0000;
    }
  }

  /** The readings one decision takes of the clock: at the cooldown test, at the window test, and when
      the admission is stamped for the cooldown and for the window. */
  datatype Clock = Clock(tested: int, windowed: int, stamped: int, admitted: int)

  predicate Monotone(c: Clock) {
    c.tested <= c.windowed <= c.stamped <= c.admitted
  }

  datatype Decision = Suppressed | RateLimited | Admitted

  datatype Limits = Limits(cooldown: map<string, int>, hourly: seq<int>)

  function After(times: seq<int>, cutoff: int): seq<int> {
    if times == [] then [] else
    After(times[..|times| - 1], cutoff) + (if times[|times| - 1] > cutoff then [times[|times| - 1]] else [])
  }

  /** The critical section that admits or refuses a target. */
  function Decide(p: Policy, s: Limits, target: string, c: Clock): (Limits, Decision) {
    if target in s.cooldown && c.tested - s.cooldown[target] < Cooldown(p) then (s, Suppressed) else
    var recent := After(s.hourly, c.windowed - HOUR);
    if |recent| >= p.maxBlocksPerHour then (Limits(s.cooldown, recent), RateLimited)
    else (Limits(s.cooldown[target := c.stamped], recent + [c.admitted]), Admitted)
  }

  function Last(entries: seq<Entry>, n: nat): (r: seq<Entry>)
    ensures |r| <= n && |r| <= |entries| && (|r| == n || |r| == |entries|)
    ensures r == entries[|entries| - |r|..]
  {
    if |entries| > n then entries[|entries| - n..] else entries
  }

  // ---- The pipeline as an object ----

  class Pipeline {
    const policy: Policy
    var cooldown: map<string, int>
    var hourly: array<int>  // the first hourlyLen cells hold the admissions of the last hour
    var hourlyLen: nat
    var audit: seq<Entry>

    ghost predicate Valid()
      reads this
    {
      hourlyLen <= hourly.Length
    }

    ghost function State(): Limits
      requires Valid()
      reads this, hourly
    {
      Limits(cooldown, hourly[..hourlyLen])
    }

    constructor (p: Policy)
      ensures Valid() && fresh(hourly) && State() == Limits(map[], []) && audit == [] && policy == WithDefaults(p)
    {
      policy := WithDefaults(p);
      cooldown := map[];
      hourly := new int[4];
      hourlyLen := 0;
      audit := [];
    }

    /** Drops, in place, the admissions that are an hour old or older. */
    method CanBlockNow(now: int) returns (ok: bool)
      requires Valid()
      modifies this`hourlyLen, hourly
      ensures Valid() && hourly[..hourlyLen] == After(old(hourly[..hourlyLen]), now - HOUR)
      ensures ok == (hourlyLen < policy.maxBlocksPerHour)
    {
      var cutoff := now - HOUR;
      ghost var was := hourly[..hourlyLen];
      var kept := 0;
      for i := 0 to hourlyLen
        invariant kept <= i && hourlyLen == old(hourlyLen)
        invariant hourly[..kept] == After(was[..i], cutoff)
        invariant hourly[i..hourlyLen] == was[i..]
      {
        var t := hourly[i];
        assert t == was[i] && was[..i + 1][..i] == was[..i];
        if t > cutoff {
          hourly[kept] := t;
          kept := kept + 1;
          assert hourly[..kept] == After(was[..i], cutoff) + [t];
        }
        assert hourly[i + 1..hourlyLen] == was[i + 1..];
      }
      assert was[..hourlyLen] == was;
      hourlyLen := kept;
      ok := hourlyLen < policy.maxBlocksPerHour;
    }

    method AppendHourly(t: int)
      requires Valid()
      modifies this`hourly, this`hourlyLen, hourly
      ensures Valid() && hourly[..hourlyLen] == old(hourly[..hourlyLen]) + [t]
      ensures hourly == old(hourly) || fresh(hourly)
    {
      if hourlyLen == hourly.Length {
        var grown := new int[2 * hourly.Length + 1];
        for i := 0 to hourlyLen
          invariant hourly == old(hourly) && hourlyLen == old(hourlyLen) && Valid()
          invariant hourly[..hourlyLen] == old(hourly[..hourlyLen])
          invariant grown[..i] == hourly[..i]
        {
          grown[i] := hourly[i];
        }
        hourly := grown;
      }
      assert hourly[..hourlyLen] == old(hourly[..hourlyLen]);
      hourly[hourlyLen] := t;
      hourlyLen := hourlyLen + 1;
    }

    /** The critical section of Process. */
    method DecideLocked(target: string, c: Clock) returns (d: Decision)
      requires Valid()
      modifies this`cooldown, this`hourly, this`hourlyLen, hourly
      ensures Valid() && (State(), d) == Decide(policy, old(State()), target, c)
      ensures hourly == old(hourly) || fresh(hourly)
    {
      if target in cooldown && c.tested - cooldown[target] < Cooldown(policy) {
        return Suppressed;
      }
      var ok := CanBlockNow(c.windowed);
      if !ok {
        return RateLimited;
      }
      cooldown := cooldown[target := c.stamped];
      AppendHourly(c.admitted);
      d := Admitted;
    }

    method Record(e: Entry)
      requires Valid()
      modifies this`audit
      ensures audit == Last(old(audit) + [e], AUDIT_LIMIT)
    {
      audit := audit + [e];
      if |audit| > AUDIT_LIMIT {
        audit := audit[|audit| - AUDIT_LIMIT..];
      }
    }

    /** One candidate from intake to audit entry; `applyError` is the firewall's answer. */
    method Process(c: Candidate, at: int, clock: Clock, applyError: Option<string>) returns (entry: Entry)
      requires Valid()
      modifies this, hourly
      ensures Valid() && audit == Last(old(audit) + [entry], AUDIT_LIMIT)
      ensures entry.ip == c.ip && entry.source == c.source && entry.at == at
      ensures var target := if c.ip == "" then c.cidr else c.ip;
              var refused := target == "" || policy.allowlisted(target) || c.score < policy.minScore;
              && (refused ==> entry.decision == "skipped" && State() == old(State())
                              && entry.reason == if target == "" then "empty target"
                                                 else if policy.allowlisted(target) then "allowlisted"
                                                 else "below score threshold")
              && (!refused ==>
                    var (s, d) := Decide(policy, old(State()), target, clock);
                    && State() == s
                    && (entry.decision, entry.reason) == (
                       match d case Suppressed => ("suppressed", "cooldown") case RateLimited => ("rate-limited", "hourly cap reached")
                       case Admitted => if applyError.Some? then ("error", applyError.value) else ("blocked", c.reason)))
    {
      entry := Entry(c.ip, "", c.reason, c.source, at);
      var target := c.ip;
      if target == "" {
        target := c.cidr;
      }
      if target == "" {
        entry := entry.(decision := "skipped", reason := "empty target");
      } else if policy.allowlisted(target) {
        entry := entry.(decision := "skipped", reason := "allowlisted");
      } else if c.score < policy.minScore {
        entry := entry.(decision := "skipped", reason := "below score threshold");
      } else {
        var d := DecideLocked(target, clock);
        match d
        case Suppressed => entry := entry.(decision := "suppressed", reason := "cooldown");
        case RateLimited => entry := entry.(decision := "rate-limited", reason := "hourly cap reached");
        case Admitted =>
          if applyError.Some? {
            entry := entry.(decision := "error", reason := applyError.value);
          } else {
            entry := entry.(decision := "blocked");
          }
      }
      Record(entry);
    }
  }

  // ---- Runs: critical sections of any number of concurrent calls, in any order ----

  datatype Event = Decided(target: string, clock: Clock) | Recorded(entry: Entry)

  datatype World = World(limits: Limits, audit: seq<Entry>)

  function Next(p: Policy, w: World, e: Event): World {
    match e
    case Decided(target, clock) => w.(limits := Decide(p, w.limits, target, clock).0)
    case Recorded(entry) => w.(audit := Last(w.audit + [entry], AUDIT_LIMIT))
  }

  function RunAll(p: Policy, events: seq<Event>): World {
    if events == [] then World(Limits(map[], []), [])
    else Next(p, RunAll(p, events[..|events| - 1]), events[|events| - 1])
  }

  datatype Admission = Admission(target: string, clock: Clock)

  /** The admissions of a run, in order. */
  function Admissions(p: Policy, events: seq<Event>): seq<Admission> {
    if events == [] then [] else
    var n := |events| - 1;
    var e := events[n];
    Admissions(p, events[..n])
    + (if e.Decided? && Decide(p, RunAll(p, events[..n]).limits, e.target, e.clock).1 == Admitted
       then [Admission(e.target, e.clock)] else [])
  }

  function Records(events: seq<Event>): seq<Entry> {
    if events == [] then [] else
    var n := |events| - 1;
    Records(events[..n]) + (if events[n].Recorded? then [events[n].entry] else [])
  }

  /** The mutex orders the decisions, and the clock does not run backwards. */
  ghost predicate ClockMonotone(events: seq<Event>) {
    && (forall e :: e in events && e.Decided? ==> Monotone(e.clock))
    && (forall i, j :: 0 <= i < j < |events| && events[i].Decided? && events[j].Decided?
                       ==> events[i].clock.admitted <= events[j].clock.tested)
  }

  lemma {:induction false} AuditIsLastRecords(p: Policy, events: seq<Event>)
    ensures RunAll(p, events).audit == Last(Records(events), AUDIT_LIMIT)
    ensures var audit, all := RunAll(p, events).audit, Records(events);
            |audit| == (if |all| < 1000 then |all| else 1000) && audit == all[|all| - |audit|..]
  {
    if events != [] {
      hide Decide;
      var n := |events| - 1;
      AuditIsLastRecords(p, events[..n]);
    }
  }

  /** Nothing after `now` has been admitted yet. */
  ghost predicate InThePast(adm: seq<Admission>, now: int) {
    forall i :: 0 <= i < |adm| ==> Monotone(adm[i].clock) && adm[i].clock.admitted <= now
  }

  ghost predicate Ordered(adm: seq<Admission>) {
    forall i, j :: 0 <= i < j < |adm| ==> adm[i].clock.admitted <= adm[j].clock.tested
  }

  /** Any admission and the one `limit` places later are at least an hour apart. */
  ghost predicate Spaced(adm: seq<Admission>, limit: int) {
    forall i, j :: 0 <= i < j < |adm| && j - i >= limit ==> adm[i].clock.admitted + HOUR <= adm[j].clock.admitted
  }

  /** Any two admissions of one target are at least the cooldown apart. */
  ghost predicate CooledDown(adm: seq<Admission>, cooldown: int) {
    forall i, j :: 0 <= i < j < |adm| && adm[i].target == adm[j].target
                   ==> adm[i].clock.stamped + cooldown <= adm[j].clock.tested
  }

  function Times(adm: seq<Admission>): (r: seq<int>)
    ensures |r| == |adm| && forall i :: 0 <= i < |adm| ==> r[i] == adm[i].clock.admitted
  {
    seq(|adm|, i requires 0 <= i < |adm| => adm[i].clock.admitted)
  }

  /** The limiter keeps the times of all admissions but the first `k`, which are an hour old or older. */
  ghost predicate Keeps(hourly: seq<int>, adm: seq<Admission>, now: int, k: nat) {
    k <= |adm| && hourly == Times(adm)[k..] && forall i :: 0 <= i < k ==> adm[i].clock.admitted + HOUR <= now
  }

  /** The cooldown map holds the stamp of each target's last admission. */
  ghost predicate Stamped(cooldown: map<string, int>, adm: seq<Admission>) {
    forall i :: 0 <= i < |adm| ==> adm[i].target in cooldown && adm[i].clock.stamped <= cooldown[adm[i].target]
  }

  ghost predicate Remembers(s: Limits, adm: seq<Admission>, now: int) {
    (exists k: nat :: Keeps(s.hourly, adm, now, k)) && Stamped(s.cooldown, adm)
    && forall t :: t in s.cooldown ==> s.cooldown[t] <= now
  }

  lemma {:induction false} AfterAppend(a: seq<int>, b: seq<int>, cutoff: int)
    ensures After(a + b, cutoff) == After(a, cutoff) + After(b, cutoff)
  {
    if b == [] {
      assert a + b == a;
    } else {
      var n := |b| - 1;
      AfterAppend(a, b[..n], cutoff);
      assert (a + b)[..|a| + n] == a + b[..n];
    }
  }

  lemma {:induction false} AfterUniform(times: seq<int>, cutoff: int)
    ensures (forall i :: 0 <= i < |times| ==> times[i] <= cutoff) ==> After(times, cutoff) == []
    ensures (forall i :: 0 <= i < |times| ==> times[i] > cutoff) ==> After(times, cutoff) == times
  {
    if times != [] {
      AfterUniform(times[..|times| - 1], cutoff);
    }
  }

  lemma {:induction false} FirstAbove(times: seq<int>, cutoff: int) returns (k: nat)
    requires forall i, j :: 0 <= i < j < |times| ==> times[i] <= times[j]
    ensures k <= |times|
    ensures forall i :: 0 <= i < |times| ==> (times[i] > cutoff <==> i >= k)
  {
    if times == [] || times[|times| - 1] <= cutoff {
      k := |times|;
    } else {
      k := FirstAbove(times[..|times| - 1], cutoff);
    }
  }

  /** Filtering ordered times keeps a suffix. */
  lemma AfterIsSuffix(times: seq<int>, cutoff: int) returns (k: nat)
    requires forall i, j :: 0 <= i < j < |times| ==> times[i] <= times[j]
    ensures k <= |times| && After(times, cutoff) == times[k..] && forall i :: 0 <= i < k ==> times[i] <= cutoff
  {
    k := FirstAbove(times, cutoff);
    hide After;
    assert times == times[..k] + times[k..];
    AfterAppend(times[..k], times[k..], cutoff);
    AfterUniform(times[..k], cutoff);
    AfterUniform(times[k..], cutoff);
  }

  lemma OrderedTimes(adm: seq<Admission>, now: int)
    requires Ordered(adm) && InThePast(adm, now)
    ensures forall i, j :: 0 <= i < j < |adm| ==> Times(adm)[i] <= Times(adm)[j]
  {
  }

  /** Pruning keeps exactly the admissions after the cutoff. */
  lemma PruneKeeps(hourly: seq<int>, adm: seq<Admission>, now: int, at: int, k0: nat) returns (k: nat)
    requires Keeps(hourly, adm, now, k0) && Ordered(adm) && InThePast(adm, now) && now <= at
    ensures Keeps(After(hourly, at - HOUR), adm, at, k)
  {
    OrderedTimes(adm, now);
    var k1 := AfterIsSuffix(hourly, at - HOUR);
    k := k0 + k1;
    assert hourly[k1..] == Times(adm)[k..];
    forall i | 0 <= i < k ensures adm[i].clock.admitted + HOUR <= at {
      if i >= k0 { assert hourly[i - k0] == Times(adm)[i]; }
    }
  }

  lemma AdmitKeepsSpacing(limit: int, recent: seq<int>, adm: seq<Admission>, k: nat, target: string, c: Clock)
    requires Spaced(adm, limit) && Monotone(c) && Keeps(recent, adm, c.windowed, k) && |recent| < limit
    ensures Spaced(adm + [Admission(target, c)], limit)
  {
    assert |adm| - k < limit;
    forall i | 0 <= i < |adm| && |adm| - i >= limit ensures adm[i].clock.admitted + HOUR <= c.admitted {
      assert i < k;
    }
  }

  lemma AdmitKeepsCooldown(p: Policy, s: Limits, adm: seq<Admission>, now: int, target: string, c: Clock)
    requires Remembers(s, adm, now) && CooledDown(adm, Cooldown(p))
    requires Decide(p, s, target, c).1 == Admitted
    ensures CooledDown(adm + [Admission(target, c)], Cooldown(p))
  {
    hide Cooldown, After, Keeps;
  }

  lemma AdmitKeepsStamps(cooldown: map<string, int>, adm: seq<Admission>, now: int, target: string, c: Clock)
    requires Stamped(cooldown, adm) && Monotone(c) && now <= c.tested
    requires forall t :: t in cooldown ==> cooldown[t] <= now
    ensures Stamped(cooldown[target := c.stamped], adm + [Admission(target, c)])
  {
  }

  lemma AdmitKeepsTimes(recent: seq<int>, adm: seq<Admission>, k: nat, target: string, c: Clock)
    requires Keeps(recent, adm, c.windowed, k) && Monotone(c)
    ensures Keeps(recent + [c.admitted], adm + [Admission(target, c)], c.admitted, k)
  {
    assert Times(adm + [Admission(target, c)])[k..] == Times(adm)[k..] + [c.admitted];
  }

  lemma KeepsLater(hourly: seq<int>, adm: seq<Admission>, now: int, later: int, k: nat)
    requires Keeps(hourly, adm, now, k) && now <= later
    ensures Keeps(hourly, adm, later, k)
  {
  }

  lemma DecideKeepsInv(p: Policy, s: Limits, adm: seq<Admission>, now: int, target: string, c: Clock)
    requires Remembers(s, adm, now) && Ordered(adm) && InThePast(adm, now)
    requires Spaced(adm, p.maxBlocksPerHour) && CooledDown(adm, Cooldown(p))
    requires Monotone(c) && now <= c.tested
    ensures var (s', d) := Decide(p, s, target, c);
            var adm' := if d == Admitted then adm + [Admission(target, c)] else adm;
            Remembers(s', adm', c.admitted) && Spaced(adm', p.maxBlocksPerHour) && CooledDown(adm', Cooldown(p))
  {
    hide After, Cooldown, InThePast, Ordered, Stamped, Keeps, Spaced, CooledDown;
    var k0: nat :| Keeps(s.hourly, adm, now, k0);
    var k := PruneKeeps(s.hourly, adm, now, c.windowed, k0);
    var recent := After(s.hourly, c.windowed - HOUR);
    KeepsLater(s.hourly, adm, now, c.admitted, k0);
    KeepsLater(recent, adm, c.windowed, c.admitted, k);
    var d := Decide(p, s, target, c).1;
    if d == Admitted {
      AdmitKeepsTimes(recent, adm, k, target, c);
      AdmitKeepsSpacing(p.maxBlocksPerHour, recent, adm, k, target, c);
      AdmitKeepsStamps(s.cooldown, adm, now, target, c);
      AdmitKeepsCooldown(p, s, adm, now, target, c);
    }
  }

  /** The latest reading of the clock in a run, or `start` when no decision was made. */
  function Now(events: seq<Event>, start: int): int {
    if events == [] then start else
    var n := |events| - 1;
    if events[n].Decided? then events[n].clock.admitted else Now(events[..n], start)
  }

  /** The first reading of the clock in a run. */
  function Start(events: seq<Event>): int {
    if events == [] then 0 else if events[0].Decided? then events[0].clock.tested else Start(events[1..])
  }

  ghost predicate Inv(p: Policy, w: World, adm: seq<Admission>, now: int) {
    && Remembers(w.limits, adm, now) && Ordered(adm) && InThePast(adm, now)
    && Spaced(adm, p.maxBlocksPerHour) && CooledDown(adm, Cooldown(p))
  }

  lemma NextKeepsInv(p: Policy, w: World, adm: seq<Admission>, now: int, e: Event)
    requires Inv(p, w, adm, now) && (e.Decided? ==> Monotone(e.clock) && now <= e.clock.tested)
    ensures var admitted := e.Decided? && Decide(p, w.limits, e.target, e.clock).1 == Admitted;
            Inv(p, Next(p, w, e), adm + (if admitted then [Admission(e.target, e.clock)] else []),
                if e.Decided? then e.clock.admitted else now)
  {
    hide Remembers, Spaced, CooledDown, Decide;
    if e.Decided? {
      DecideKeepsInv(p, w.limits, adm, now, e.target, e.clock);
    }
    assert adm + [] == adm;
  }

  lemma {:induction false} NowBounds(events: seq<Event>, start: int, later: int)
    requires start <= later && forall i :: 0 <= i < |events| && events[i].Decided? ==> events[i].clock.admitted <= later
    ensures Now(events, start) <= later
  {
    if events != [] { NowBounds(events[..|events| - 1], start, later); }
  }

  lemma {:induction false} RunKeepsInv(p: Policy, events: seq<Event>, start: int)
    requires ClockMonotone(events) && forall e :: e in events && e.Decided? ==> start <= e.clock.tested
    ensures Inv(p, RunAll(p, events), Admissions(p, events), Now(events, start))
  {
    if events == [] {
      var s := Limits(map[], []);
      assert Keeps(s.hourly, [], start, 0);
      assert Remembers(s, [], start);
    } else {
      var n := |events| - 1;
      var front := events[..n];
      RunKeepsInv(p, front, start);
      if events[n].Decided? {
        NowBounds(front, start, events[n].clock.tested);
      }
      hide Inv, Decide, ClockMonotone;
      NextKeepsInv(p, RunAll(p, front), Admissions(p, front), Now(front, start), events[n]);
    }
  }

  lemma {:induction false} StartIsFirst(events: seq<Event>)
    requires ClockMonotone(events)
    ensures forall e :: e in events && e.Decided? ==> Start(events) <= e.clock.tested
  {
    if events != [] {
      StartIsFirst(events[1..]);
      forall e | e in events && e.Decided? ensures Start(events) <= e.clock.tested {
        var i :| 0 <= i < |events| && events[i] == e;
        if i > 0 { assert events[1..][i - 1] == e; }
      }
    }
  }

  /** How many of the times fall in the hour that starts at `from`. */
  function InHour(times: seq<int>, from: int): nat {
    if times == [] then 0 else
    InHour(times[..|times| - 1], from) + (if from <= times[|times| - 1] < from + HOUR then 1 else 0)
  }

  lemma {:induction false} InHourSkips(times: seq<int>, from: int, k: nat)
    requires k <= |times| && forall i :: 0 <= i < k ==> times[i] < from
    ensures InHour(times, from) <= |times| - k
  {
    var n := |times| - 1;
    if k <= n { InHourSkips(times[..n], from, k); }
    else if times != [] {
      InHourSkips(times[..n], from, n);
    }
  }

  lemma {:induction false} SpacedBoundsWindow(adm: seq<Admission>, limit: int, from: int)
    requires limit > 0 && Spaced(adm, limit)
    ensures InHour(Times(adm), from) <= limit
  {
    if adm != [] {
      var n := |adm| - 1;
      var times := Times(adm);
      assert times[..n] == Times(adm[..n]);
      SpacedBoundsWindow(adm[..n], limit, from);
      if from <= times[n] < from + HOUR && n >= limit {
        InHourSkips(times, from, n - limit + 1);
      } else if n < limit {
        InHourSkips(times, from, 0);
      }
    }
  }

  /** Over any run, in any interleaving, at most the hourly cap of admissions falls in any window of one
      hour, and two admissions of one target are at least the cooldown apart. */
  lemma RunsRespectLimits(p: Policy, events: seq<Event>, from: int)
    requires ClockMonotone(events) && p.maxBlocksPerHour > 0
    ensures InHour(Times(Admissions(p, events)), from) <= p.maxBlocksPerHour
    ensures CooledDown(Admissions(p, events), Cooldown(p))
  {
    StartIsFirst(events);
    RunKeepsInv(p, events, Start(events));
    hide Spaced, CooledDown, Remembers, Ordered, InThePast;
    SpacedBoundsWindow(Admissions(p, events), p.maxBlocksPerHour, from);
  }

  // ---- The configured cooldown ----

  function At(t: int): Clock {
    Clock(t, t, t, t)
  }

  lemma AdmittedWhen(p: Policy, s: Limits, target: string, t: int)
    requires target in s.cooldown ==> t - s.cooldown[target] >= Cooldown(p)
    requires |After(s.hourly, t - HOUR)| < p.maxBlocksPerHour
    ensures Decide(p, s, target, At(t)).1 == Admitted && Decide(p, s, target, At(t)).0.cooldown == s.cooldown[target := t]
    ensures Decide(p, s, target, At(t)).0.hourly == After(s.hourly, t - HOUR) + [t]
  {
    hide After, Cooldown;
  }

  lemma OldTimeDropped(t: int)
    requires t >= HOUR
    ensures After([0], t - HOUR) == [] && After([], -HOUR) == []
  {
    assert [0][..0] == [];
    assert After([], t - HOUR) == [];
  }

  /** With a cooldown that does not fit, one target is admitted twice within it. */
  lemma ShortCooldown(p: Policy) returns (events: seq<Event>)
    requires p.cooldownSeconds > 9_223_372_036 && p.maxBlocksPerHour > 0
    ensures ClockMonotone(events) && !CooledDown(Admissions(p, events), p.cooldownSeconds * SECOND)
  {
    CooldownExactIff(p);
    hide After, Cooldown, Decide;
    var t := if Cooldown(p) > HOUR then Cooldown(p) else HOUR;
    var first, second := Decided("target", At(0)), Decided("target", At(t));
    events := [first, second];
    OldTimeDropped(t);
    var start := Limits(map[], []);
    AdmittedWhen(p, start, "target", 0);
    var after := Decide(p, start, "target", At(0)).0;
    assert after.hourly == [0];
    AdmittedWhen(p, after, "target", t);
    assert events[..1] == [first] && events[..1][..0] == [];
    assert RunAll(p, []).limits == start && RunAll(p, [first]).limits == after;
    assert Admissions(p, []) == [];
    assert Admissions(p, [first]) == [Admission("target", At(0))];
    var adm := Admissions(p, events);
    assert adm == [Admission("target", At(0)), Admission("target", At(t))];
    assert adm[0].clock.stamped + p.cooldownSeconds * SECOND > adm[1].clock.tested;
  }

  /** Every run with a monotone clock keeps the admissions of one target as far apart as configured exactly when
      the cooldown is at most 9223372036 seconds. */
  lemma CooldownKeptIff(p: Policy)
    requires p.cooldownSeconds > 0 && p.maxBlocksPerHour > 0
    ensures (forall events :: ClockMonotone(events) ==> CooledDown(Admissions(p, events), p.cooldownSeconds * SECOND))
            <==> p.cooldownSeconds <= 9_223_372_036
  {
    CooldownExactIff(p);
    hide CooledDown, ClockMonotone, Cooldown, Admissions;
    if p.cooldownSeconds <= 9_223_372_036 {
      forall events | ClockMonotone(events) ensures CooledDown(Admissions(p, events), p.cooldownSeconds * SECOND) {
        RunsRespectLimits(p, events, 0);
      }
    } else {
      var events := ShortCooldown(p);
    }
  }
}
