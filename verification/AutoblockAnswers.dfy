/** The exact answer of the autoblock pipeline to a candidate, from the admissions before it. */
module AutoblockAnswers {
  import opened Autoblock

  // ---- What the limiter remembers ----

  /** The cooldown map holds, for each target ever admitted, the stamp of its last admission, and nothing else. */
  ghost predicate LastStamps(cooldown: map<string, int>, adm: seq<Admission>) {
    && (forall i :: 0 <= i < |adm| ==> adm[i].target in cooldown && adm[i].clock.stamped <= cooldown[adm[i].target])
    && (forall t :: t in cooldown ==> exists i :: 0 <= i < |adm| && adm[i].target == t && adm[i].clock.stamped == cooldown[t])
  }

  lemma StampsExtend(cooldown: map<string, int>, adm: seq<Admission>, target: string, c: Clock)
    requires LastStamps(cooldown, adm) && forall i :: 0 <= i < |adm| ==> adm[i].clock.stamped <= c.stamped
    ensures LastStamps(cooldown[target := c.stamped], adm + [Admission(target, c)])
  {
    var m, all := cooldown[target := c.stamped], adm + [Admission(target, c)];
    forall t | t in m ensures exists i :: 0 <= i < |all| && all[i].target == t && all[i].clock.stamped == m[t] {
      if t == target {
        assert all[|adm|].target == t;
      } else {
        var i :| 0 <= i < |adm| && adm[i].target == t && adm[i].clock.stamped == cooldown[t];
        assert all[i] == adm[i];
      }
    }
  }

  lemma DecideKeepsStamps(p: Policy, s: Limits, adm: seq<Admission>, target: string, c: Clock)
    requires LastStamps(s.cooldown, adm) && forall i :: 0 <= i < |adm| ==> adm[i].clock.stamped <= c.stamped
    ensures var (s', d) := Decide(p, s, target, c);
            LastStamps(s'.cooldown, if d == Admitted then adm + [Admission(target, c)] else adm)
  {
    hide LastStamps, Cooldown, After;
    StampsExtend(s.cooldown, adm, target, c);
  }

  /** Every admission was one of the run's decisions. */
  lemma {:induction false} AdmissionIsDecision(p: Policy, events: seq<Event>, i: nat) returns (j: nat)
    requires i < |Admissions(p, events)|
    ensures j < |events| && events[j].Decided? && events[j].clock == Admissions(p, events)[i].clock
  {
    hide Decide, RunAll;
    var n := |events| - 1;
    if i < |Admissions(p, events[..n])| { j := AdmissionIsDecision(p, events[..n], i); } else { j := n; }
  }

  lemma StampedBefore(p: Policy, events: seq<Event>, c: Clock)
    requires ClockMonotone(events) && Monotone(c)
    requires forall j :: 0 <= j < |events| && events[j].Decided? ==> events[j].clock.admitted <= c.tested
    ensures forall i :: 0 <= i < |Admissions(p, events)| ==> Admissions(p, events)[i].clock.stamped <= c.stamped
  {
    hide Admissions;
    forall i | 0 <= i < |Admissions(p, events)| ensures Admissions(p, events)[i].clock.stamped <= c.stamped {
      var j := AdmissionIsDecision(p, events, i);
      assert events[j] in events;
    }
  }

  lemma FrontMonotone(events: seq<Event>, e: Event)
    requires ClockMonotone(events + [e])
    ensures ClockMonotone(events) && (e.Decided? ==> Monotone(e.clock))
    ensures forall i :: 0 <= i < |events| && events[i].Decided? && e.Decided? ==> events[i].clock.admitted <= e.clock.tested
  {
    var all := events + [e];
    assert all[|events|] == e && e in all;
    forall b | b in events && b.Decided? ensures Monotone(b.clock) { assert b in all; }
    forall i, j | 0 <= i < j < |events| && events[i].Decided? && events[j].Decided?
      ensures events[i].clock.admitted <= events[j].clock.tested
    {
      assert all[i] == events[i] && all[j] == events[j];
    }
    forall i | 0 <= i < |events| && events[i].Decided? && e.Decided? ensures events[i].clock.admitted <= e.clock.tested {
      assert all[i] == events[i];
    }
  }

  lemma AdmissionsExtend(p: Policy, front: seq<Event>, e: Event)
    ensures Admissions(p, front + [e])
            == if e.Decided? && Decide(p, RunAll(p, front).limits, e.target, e.clock).1 == Admitted
               then Admissions(p, front) + [Admission(e.target, e.clock)] else Admissions(p, front)
    ensures RunAll(p, front + [e]) == Next(p, RunAll(p, front), e)
  {
    hide Decide, Next;
    assert (front + [e])[..|front|] == front;
  }

  lemma {:induction false} RunKeepsStamps(p: Policy, events: seq<Event>)
    requires ClockMonotone(events)
    ensures LastStamps(RunAll(p, events).limits.cooldown, Admissions(p, events))
  {
    if events != [] {
      hide LastStamps, Decide, ClockMonotone, RunAll, Admissions;
      var n := |events| - 1;
      var front, e := events[..n], events[n];
      assert events == front + [e];
      FrontMonotone(front, e);
      RunKeepsStamps(p, front);
      AdmissionsExtend(p, front, e);
      if e.Decided? {
        StampedBefore(p, front, e.clock);
        DecideKeepsStamps(p, RunAll(p, front).limits, Admissions(p, front), e.target, e.clock);
      }
    }
  }

  // ---- The answer ----

  /** Some admission of the target was stamped less than the cooldown ago. */
  ghost predicate InCooldown(p: Policy, adm: seq<Admission>, target: string, now: int) {
    exists i :: 0 <= i < |adm| && adm[i].target == target && now - adm[i].clock.stamped < Cooldown(p)
  }

  /** The admissions of the last hour, by their place in the run. */
  ghost function LastHour(adm: seq<Admission>, now: int): set<int> {
    set i | 0 <= i < |adm| && adm[i].clock.admitted > now - HOUR
  }

  lemma CooldownAnswers(p: Policy, cooldown: map<string, int>, adm: seq<Admission>, target: string, now: int)
    requires LastStamps(cooldown, adm)
    ensures target in cooldown && now - cooldown[target] < Cooldown(p) <==> InCooldown(p, adm, target, now)
  {
    hide Cooldown;
  }

  function Range(k: int, n: int): (r: set<int>)
    requires k <= n
    ensures |r| == n - k && forall i :: i in r <==> k <= i < n
    decreases n - k
  {
    if k == n then {} else Range(k, n - 1) + {n - 1}
  }

  lemma HourAnswers(hourly: seq<int>, adm: seq<Admission>, now: int, at: int)
    requires (exists k: nat :: Keeps(hourly, adm, now, k)) && Ordered(adm) && InThePast(adm, now) && now <= at
    ensures |After(hourly, at - HOUR)| == |LastHour(adm, at)|
  {
    var k0: nat :| Keeps(hourly, adm, now, k0);
    var k := PruneKeeps(hourly, adm, now, at, k0);
    var recent := After(hourly, at - HOUR);
    AfterIsLater(hourly, at - HOUR);
    forall i | k <= i < |adm| ensures adm[i].clock.admitted > at - HOUR { assert recent[i - k] == Times(adm)[i]; }
    assert LastHour(adm, at) == Range(k, |adm|);
  }

  lemma {:induction false} AfterIsLater(times: seq<int>, cutoff: int)
    ensures forall i :: 0 <= i < |After(times, cutoff)| ==> After(times, cutoff)[i] > cutoff
  {
    if times != [] { AfterIsLater(times[..|times| - 1], cutoff); }
  }

  /** After any run with a monotone clock: a target is suppressed exactly when one of its admissions was stamped less
      than the cooldown before the test; otherwise it is refused for the rate exactly when at least the cap of admissions
      fall in the last hour; otherwise it is admitted. Refusals leave no trace in later answers. */
  lemma DecisionIs(p: Policy, events: seq<Event>, target: string, c: Clock)
    requires ClockMonotone(events + [Decided(target, c)])
    ensures var adm := Admissions(p, events);
            Decide(p, RunAll(p, events).limits, target, c).1
            == if InCooldown(p, adm, target, c.tested) then Suppressed
               else if |LastHour(adm, c.windowed)| >= p.maxBlocksPerHour then RateLimited else Admitted
  {
    hide ClockMonotone, InCooldown, After, Cooldown, RunAll, Admissions, LastStamps, LastHour, Keeps, Ordered, InThePast;
    FrontMonotone(events, Decided(target, c));
    RunKeepsStamps(p, events);
    var now := RunRemembers(p, events, target, c);
    var s, adm := RunAll(p, events).limits, Admissions(p, events);
    CooldownAnswers(p, s.cooldown, adm, target, c.tested);
    HourAnswers(s.hourly, adm, now, c.windowed);
  }

  lemma RunRemembers(p: Policy, events: seq<Event>, target: string, c: Clock) returns (now: int)
    requires ClockMonotone(events + [Decided(target, c)])
    ensures var adm := Admissions(p, events);
            && (exists k: nat :: Keeps(RunAll(p, events).limits.hourly, adm, now, k))
            && Ordered(adm) && InThePast(adm, now) && now <= c.tested
  {
    var all := events + [Decided(target, c)];
    assert all[|events|] == Decided(target, c) && Decided(target, c) in all;
    StartIsFirst(all);
    forall e | e in events ensures e in all {}
    FrontMonotone(events, Decided(target, c));
    hide ClockMonotone, Keeps, RunAll, Admissions;
    var start := Start(all);
    RunKeepsInv(p, events, start);
    NowBounds(events, start, c.tested);
    now := Now(events, start);
  }
}
