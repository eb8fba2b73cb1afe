/** The scraper's report: metric lines folded into counters per receiver and into collector-wide figures,
    then combined. Counters are 64-bit and wrap. */
module MetricsReport {
  import opened Text
  import opened Wrappers
  import Sorting

  datatype Counter = Received | Parsed | Discarded | QueueDepth | Retries

  /** A parsed metric line. */
  datatype Line = Line(name: string, labels: map<string, string>, value: int)

  datatype Item = Item(counters: map<Counter, int>, lastError: Option<string>)

  datatype Totals = Totals(receivers: map<string, Item>, queue: int, retry: int, dropped: int, errors: int)

  datatype Effect =
    | Nothing
    | Count(receiver: string, counter: Counter, amount: int, failing: bool)
    | Queue(amount: int)
    | Retry(amount: int)
    | Drop(amount: int)
    | Fault(amount: int)

  const VECTOR_ERROR := "vector component errors reported"
  const OUTPUT_ERROR := "collector output errors or retries reported"
  const TWO64 := 0x1_0000_0000_0000_0000
  const TWO63 := 0x8000_0000_0000_0000

  /** Two's complement wrap-around of a 64-bit sum. */
  function Wrap(n: int): int {
    (n + TWO63) % TWO64 - TWO63
  }

  // ---- Whose figure a line is ----

  function FirstLabel(labels: map<string, string>, keys: seq<string>): string {
    if keys == [] then ""
    else if keys[0] in labels && !Blank(labels[keys[0]]) then Trim(labels[keys[0]])
    else FirstLabel(labels, keys[1..])
  }

  function Qualified(prefix: string, id: string): string {
    if id == "" || '/' in id then id else prefix + id
  }

  function CollectorReceiver(l: Line): string {
    FirstLabel(l.labels, ["receiver", "scraper"])
  }

  function VectorReceiver(l: Line): string {
    Qualified("vector/", FirstLabel(l.labels, ["component_id", "component_name", "component"]))
  }

  function FluentBitReceiver(l: Line): string {
    Qualified("fluentbit/", FirstLabel(l.labels, ["name", "input", "plugin"]))
  }

  function CountFor(receiver: string, c: Counter, v: int, failing: bool): (e: Effect)
    ensures e.Count? ==> e.receiver != ""
  {
    if receiver == "" then Nothing else Count(receiver, c, v, failing)
  }

  predicate Total(name: string, base: string) {
    name == base || name == base + "_total"
  }

  predicate AnySignal(name: string, prefix: string) {
    Total(name, prefix + "log_records") || Total(name, prefix + "metric_points") || Total(name, prefix + "spans")
  }

  /** What a metric of the given name figures in. */
  datatype Role =
    | Unused
    | OfCollector(c: Counter)
    | OfVector(c: Counter, failing: bool)
    | OfFluentBit(c: Counter)
    | QueueFigure
    | RetryFigure
    | DropFigure
    | FaultFigure

  function RoleOf(name: string): Role {
    if AnySignal(name, "otelcol_receiver_accepted_") || Total(name, "otelcol_scraper_scraped_metric_points") then
      OfCollector(Received)
    else if AnySignal(name, "otelcol_receiver_refused_") || Total(name, "otelcol_scraper_errored_metric_points") then
      OfCollector(Discarded)
    else if name == "otelcol_exporter_queue_size" || name == "otelcol_exporter_queue_capacity" then QueueFigure
    else if AnySignal(name, "otelcol_exporter_send_failed_") then RetryFigure
    else if name == "component_received_events_total" then OfVector(Received, false)
    else if name == "component_sent_events_total" then OfVector(Parsed, false)
    else if name == "component_discarded_events_total" then OfVector(Discarded, false)
    else if name == "component_errors_total" then OfVector(Retries, true)
    else if name == "source_buffer_utilization_level" || name == "source_buffer_utilization_mean" then
      OfVector(QueueDepth, false)
    else if name == "fluentbit_input_records_total" then OfFluentBit(Received)
    else if name == "fluentbit_input_ring_buffer_retries_total"
            || name == "fluentbit_input_ring_buffer_retry_failures_total" then OfFluentBit(Retries)
    else if name == "fluentbit_output_dropped_records_total" then DropFigure
    else if name == "fluentbit_output_errors_total" || name == "fluentbit_output_retries_total"
            || name == "fluentbit_output_retries_failed_total" || name == "fluentbit_output_retried_records_total" then
      FaultFigure
    else Unused
  }

  function EffectOf(l: Line): (e: Effect)
    ensures e.Count? ==> e.receiver != ""
  {
    match RoleOf(l.name)
    case Unused => Nothing
    case OfCollector(c) => CountFor(CollectorReceiver(l), c, l.value, false)
    case OfVector(c, failing) => CountFor(VectorReceiver(l), c, l.value, failing)
    case OfFluentBit(c) => CountFor(FluentBitReceiver(l), c, l.value, false)
    case QueueFigure => Queue(l.value)
    case RetryFigure => Retry(l.value)
    case DropFigure => Drop(l.value)
    case FaultFigure => Fault(l.value)
  }

  // ---- Folding ----

  const EMPTY_ITEM := Item(map[], None)

  function Held(i: Item, c: Counter): int {
    if c in i.counters then i.counters[c] else 0
  }

  function ItemOf(t: Totals, r: string): Item {
    if r in t.receivers then t.receivers[r] else EMPTY_ITEM
  }

  function Bump(i: Item, c: Counter, v: int, failing: bool): Item {
    Item(i.counters[c := Wrap(Held(i, c) + v)], if failing then Some(VECTOR_ERROR) else i.lastError)
  }

  function Max(a: int, b: int): int {
    if b > a then b else a
  }

  function Absorb(t: Totals, e: Effect): Totals {
    match e
    case Nothing => t
    case Count(r, c, v, failing) => t.(receivers := t.receivers[r := Bump(ItemOf(t, r), c, v, failing)])
    case Queue(v) => t.(queue := Max(t.queue, v))
    case Retry(v) => t.(retry := Max(t.retry, v))
    case Drop(v) => t.(dropped := Wrap(t.dropped + v))
    case Fault(v) => t.(errors := Wrap(t.errors + v))
  }

  const NO_TOTALS := Totals(map[], 0, 0, 0, 0)

  function Fold(ls: seq<Line>): Totals {
    if ls == [] then NO_TOTALS else Absorb(Fold(ls[..|ls| - 1]), EffectOf(ls[|ls| - 1]))
  }

  // ---- The report ----

  datatype State = Backpressured | Collecting | Deployed

  function Combined(t: Totals, i: Item): Item {
    var c := i.counters;
    var c := if t.queue > 0 then c[QueueDepth := t.queue] else c;
    var c := if t.retry > 0 then c[Retries := t.retry] else c;
    var c := if t.dropped > 0 then c[Discarded := Wrap(Held(Item(c, None), Discarded) + t.dropped)] else c;
    if t.errors > 0 then
      Item(c[Retries := Wrap(Held(Item(c, None), Retries) + t.errors)],
           if i.lastError.None? then Some(OUTPUT_ERROR) else i.lastError)
    else Item(c, i.lastError)
  }

  function StateOf(i: Item): State {
    if Held(i, Discarded) > 0 || Held(i, QueueDepth) > 0 || Held(i, Retries) > 0 then Backpressured
    else if Held(i, Received) > 0 then Collecting else Deployed
  }

  datatype Report = Report(receivers: map<string, (Item, State)>, ok: bool)

  function ReportOf(t: Totals): Report {
    Report(map r | r in t.receivers :: (Combined(t, t.receivers[r]), StateOf(Combined(t, t.receivers[r]))),
           forall r :: r in t.receivers ==> StateOf(Combined(t, t.receivers[r])) != Backpressured)
  }

  class Scrape {
    var totals: Totals

    constructor ()
      ensures totals == NO_TOTALS
    {
      totals := NO_TOTALS;
    }

    method AddReceiverMetric(receiver: string, counter: Counter, value: int, failing: bool)
      modifies this
      ensures totals == Absorb(old(totals), CountFor(receiver, counter, value, failing))
    {
      if receiver == "" {
        return;
      }
      var item := ItemOf(totals, receiver);
      item := item.(counters := item.counters[counter := Wrap(Held(item, counter) + value)]);
      if failing {
        item := item.(lastError := Some(VECTOR_ERROR));
      }
      totals := totals.(receivers := totals.receivers[receiver := item]);
    }

    method Observe(l: Line)
      modifies this
      ensures totals == Absorb(old(totals), EffectOf(l))
    {
      hide EffectOf, Bump;
      match EffectOf(l) {
        case Nothing =>
        case Count(r, c, v, failing) =>
          AddReceiverMetric(r, c, v, failing);
        case Queue(v) =>
          if v > totals.queue { totals := totals.(queue := v); }
        case Retry(v) =>
          if v > totals.retry { totals := totals.(retry := v); }
        case Drop(v) => totals := totals.(dropped := Wrap(totals.dropped + v));
        case Fault(v) => totals := totals.(errors := Wrap(totals.errors + v));
      }
    }

    /** The receivers are visited in whatever order the map gives them. */
    method Finish() returns (report: Report)
      ensures report == ReportOf(totals)
    {
      hide Combined, StateOf;
      var out: map<string, (Item, State)> := map[];
      var ok := true;
      var left := totals.receivers.Keys;
      while left != {}
        invariant left <= totals.receivers.Keys
        invariant out == map r | r in totals.receivers && r !in left ::
                           (Combined(totals, totals.receivers[r]), StateOf(Combined(totals, totals.receivers[r])))
        invariant ok <==> forall r :: r in totals.receivers && r !in left ==>
                                 StateOf(Combined(totals, totals.receivers[r])) != Backpressured
        decreases |left|
      {
        var r :| r in left;
        var values := Combined(totals, totals.receivers[r]);
        if StateOf(values) == Backpressured {
          ok := false;
        }
        out := out[r := (values, StateOf(values))];
        left := left - {r};
      }
      report := Report(out, ok);
    }
  }

  method ParseMetrics(lines: seq<Line>) returns (report: Report)
    ensures report == ReportOf(Fold(lines))
  {
    hide EffectOf, Absorb, ReportOf;
    var s := new Scrape();
    for i := 0 to |lines|
      invariant s.totals == Fold(lines[..i])
    {
      assert lines[..i + 1][..i] == lines[..i];
      s.Observe(lines[i]);
    }
    assert lines[..|lines|] == lines;
    report := s.Finish();
  }

  // ---- The order of the lines does not matter ----

  lemma WrapAdds(a: int, b: int)
    ensures Wrap(Wrap(a) + b) == Wrap(a + b)
  {
    var q := (a + TWO63) / TWO64;
    assert Wrap(a) + b + TWO63 == a + b + TWO63 - q * TWO64;
    ModShift(a + b + TWO63, q);
  }

  lemma ModShift(x: int, q: int)
    ensures (x - q * TWO64) % TWO64 == x % TWO64
  {
    var r, k := x % TWO64, x / TWO64;
    assert x - q * TWO64 == (k - q) * TWO64 + r;
    Uniqueness(x - q * TWO64, k - q, r);
  }

  lemma Uniqueness(x: int, k: int, r: int)
    requires x == k * TWO64 + r && 0 <= r < TWO64
    ensures x % TWO64 == r
  {
    var d := x / TWO64 - k;
    assert x % TWO64 == r - d * TWO64;
  }

  lemma BumpsCommute(i: Item, c: Counter, v: int, f: bool, d: Counter, w: int, g: bool)
    ensures Bump(Bump(i, c, v, f), d, w, g) == Bump(Bump(i, d, w, g), c, v, f)
  {
    hide Wrap;
    if c == d {
      WrapAdds(Held(i, c) + v, w);
      WrapAdds(Held(i, c) + w, v);
    }
  }

  lemma CountsCommute(t: Totals, a: Effect, b: Effect)
    requires a.Count? && b.Count?
    ensures Absorb(Absorb(t, a), b) == Absorb(Absorb(t, b), a)
  {
    hide Bump;
    if a.receiver == b.receiver {
      BumpsCommute(ItemOf(t, a.receiver), a.counter, a.amount, a.failing, b.counter, b.amount, b.failing);
    }
  }

  lemma AbsorbCommutes(t: Totals, a: Effect, b: Effect)
    ensures Absorb(Absorb(t, a), b) == Absorb(Absorb(t, b), a)
  {
    hide Wrap, Bump;
    if a.Count? && b.Count? {
      CountsCommute(t, a, b);
    } else if a.Drop? && b.Drop? {
      WrapAdds(t.dropped + a.amount, b.amount);
      WrapAdds(t.dropped + b.amount, a.amount);
    } else if a.Fault? && b.Fault? {
      WrapAdds(t.errors + a.amount, b.amount);
      WrapAdds(t.errors + b.amount, a.amount);
    }
  }

  lemma {:induction false} PullToEnd(ls: seq<Line>, i: nat)
    requires i < |ls|
    ensures Fold(ls) == Absorb(Fold(ls[..i] + ls[i + 1..]), EffectOf(ls[i]))
  {
    hide Absorb, EffectOf;
    var n := |ls| - 1;
    var rest := ls[..i] + ls[i + 1..];
    if i == n {
      assert rest == ls[..n];
    } else {
      PullToEnd(ls[..n], i);
      assert rest[..n - 1] == ls[..n][..i] + ls[..n][i + 1..];
      assert rest[n - 1] == ls[n];
      AbsorbCommutes(Fold(rest[..n - 1]), EffectOf(ls[i]), EffectOf(ls[n]));
    }
  }

  /** The figures do not depend on the order of the metric lines. */
  lemma {:induction false} FoldOrderIrrelevant(s: seq<Line>, t: seq<Line>)
    requires multiset(s) == multiset(t)
    ensures Fold(s) == Fold(t)
  {
    hide Absorb, EffectOf;
    Sorting.SameLength(s, t);
    if s != [] {
      var n := |s| - 1;
      Sorting.SameMembers(s, t, s[n]);
      var i :| 0 <= i < |t| && t[i] == s[n];
      PullToEnd(t, i);
      assert s == s[..n] + [s[n]];
      Sorting.RemoveAt(t, i);
      Sorting.CancelOne(multiset(s[..n]), multiset(t[..i] + t[i + 1..]), s[n]);
      FoldOrderIrrelevant(s[..n], t[..i] + t[i + 1..]);
    }
  }

  /** Neither does the report. */
  lemma ReportOrderIrrelevant(s: seq<Line>, t: seq<Line>)
    requires multiset(s) == multiset(t)
    ensures ReportOf(Fold(s)) == ReportOf(Fold(t))
  {
    FoldOrderIrrelevant(s, t);
  }

  // ---- What the figures are ----

  predicate Feeds(l: Line, r: string, c: Counter) {
    var e := EffectOf(l);
    e.Count? && e.receiver == r && e.counter == c
  }

  /** The sum of the values of the lines that feed one counter. */
  function Sum(ls: seq<Line>, r: string, c: Counter): int {
    if ls == [] then 0 else
    Sum(ls[..|ls| - 1], r, c) + if Feeds(ls[|ls| - 1], r, c) then EffectOf(ls[|ls| - 1]).amount else 0
  }

  predicate Fed(ls: seq<Line>, r: string, c: Counter) {
    exists i :: 0 <= i < |ls| && Feeds(ls[i], r, c)
  }

  lemma FedSnoc(ls: seq<Line>, r: string, c: Counter)
    requires ls != []
    ensures Fed(ls, r, c) <==> Fed(ls[..|ls| - 1], r, c) || Feeds(ls[|ls| - 1], r, c)
  {
    hide Feeds;
    var front := ls[..|ls| - 1];
    if Fed(front, r, c) {
      var i :| 0 <= i < |front| && Feeds(front[i], r, c);
      assert Feeds(ls[i], r, c);
    }
  }

  lemma AbsorbCounter(t: Totals, l: Line, r: string, c: Counter)
    ensures var u := Absorb(t, EffectOf(l));
            && (r in u.receivers && c in u.receivers[r].counters
                <==> (r in t.receivers && c in t.receivers[r].counters) || Feeds(l, r, c))
            && Held(ItemOf(u, r), c)
               == if Feeds(l, r, c) then Wrap(Held(ItemOf(t, r), c) + EffectOf(l).amount) else Held(ItemOf(t, r), c)
  {
    hide EffectOf, Wrap;
  }

  /** A receiver's counter is the wrapped sum of the lines that feed it, and is present when some line does. */
  lemma {:induction false} CountersAreSums(ls: seq<Line>, r: string, c: Counter)
    ensures var t := Fold(ls);
            && (r in t.receivers && c in t.receivers[r].counters <==> Fed(ls, r, c))
            && Held(ItemOf(t, r), c) == Wrap(Sum(ls, r, c))
  {
    hide EffectOf, Absorb, Wrap, Fed;
    if ls == [] {
      NothingFed(r, c);
    } else {
      var front, last := ls[..|ls| - 1], ls[|ls| - 1];
      CountersAreSums(front, r, c);
      FedSnoc(ls, r, c);
      AbsorbCounter(Fold(front), last, r, c);
      if Feeds(last, r, c) { WrapAdds(Sum(front, r, c), EffectOf(last).amount); }
    }
  }

  lemma NothingFed(r: string, c: Counter)
    ensures !Fed([], r, c) && Wrap(0) == 0
  {
  }

  predicate Failing(l: Line, r: string) {
    EffectOf(l).Count? && EffectOf(l).receiver == r && EffectOf(l).failing
  }

  lemma {:induction false} ErrorsAre(ls: seq<Line>, r: string)
    ensures ItemOf(Fold(ls), r).lastError
         == if exists i :: 0 <= i < |ls| && Failing(ls[i], r) then Some(VECTOR_ERROR) else None
  {
    hide EffectOf, Wrap;
    if ls != [] {
      var front, last := ls[..|ls| - 1], ls[|ls| - 1];
      ErrorsAre(front, r);
      assert Failing(last, r) ==> Failing(ls[|ls| - 1], r);
      if exists i :: 0 <= i < |front| && Failing(front[i], r) {
        var i :| 0 <= i < |front| && Failing(front[i], r);
        assert Failing(ls[i], r);
      }
    }
  }

  predicate FailingAmong(ls: seq<Line>, r: string) {
    exists i :: 0 <= i < |ls| && Failing(ls[i], r)
  }

  /** In the report a receiver shows its own error exactly when a failing line is its own, the collector's when
      it has none and output errors were seen, and no error otherwise. */
  lemma ReportedErrorIs(ls: seq<Line>, r: string)
    requires r in Fold(ls).receivers
    ensures var t := Fold(ls);
            r in ReportOf(t).receivers
            && ReportOf(t).receivers[r].0.lastError == if FailingAmong(ls, r) then Some(VECTOR_ERROR)
                                                       else if t.errors > 0 then Some(OUTPUT_ERROR) else None
  {
    hide Fold, Failing;
    ErrorsAre(ls, r);
  }

  ghost predicate QueueLine(l: Line, v: int) { EffectOf(l) == Queue(v) }
  ghost predicate RetryLine(l: Line, v: int) { EffectOf(l) == Retry(v) }

  function SumDrops(ls: seq<Line>): int {
    if ls == [] then 0 else
    SumDrops(ls[..|ls| - 1]) + if EffectOf(ls[|ls| - 1]).Drop? then EffectOf(ls[|ls| - 1]).amount else 0
  }

  function SumFaults(ls: seq<Line>): int {
    if ls == [] then 0 else
    SumFaults(ls[..|ls| - 1]) + if EffectOf(ls[|ls| - 1]).Fault? then EffectOf(ls[|ls| - 1]).amount else 0
  }

  /** The collector-wide queue depth and retry count are the largest values seen, and at least zero; drops and
      output errors are wrapped sums. */
  lemma {:induction false} GlobalsAre(ls: seq<Line>)
    ensures var t := Fold(ls);
            && (forall i, v :: 0 <= i < |ls| && QueueLine(ls[i], v) ==> v <= t.queue)
            && (t.queue == 0 || exists i :: 0 <= i < |ls| && QueueLine(ls[i], t.queue))
            && (forall i, v :: 0 <= i < |ls| && RetryLine(ls[i], v) ==> v <= t.retry)
            && (t.retry == 0 || exists i :: 0 <= i < |ls| && RetryLine(ls[i], t.retry))
            && t.queue >= 0 && t.retry >= 0
            && t.dropped == Wrap(SumDrops(ls)) && t.errors == Wrap(SumFaults(ls))
  {
    hide EffectOf, Wrap, Bump;
    if ls == [] {
      NothingFed("", Received);
    } else {
      var front, last := ls[..|ls| - 1], ls[|ls| - 1];
      var t, u, e := Fold(front), Fold(ls), EffectOf(ls[|ls| - 1]);
      GlobalsAre(front);
      assert forall i :: 0 <= i < |front| ==> ls[i] == front[i];
      if u.queue != t.queue { assert QueueLine(ls[|ls| - 1], u.queue); }
      if u.retry != t.retry { assert RetryLine(ls[|ls| - 1], u.retry); }
      if e.Drop? { WrapAdds(SumDrops(front), e.amount); }
      if e.Fault? { WrapAdds(SumFaults(front), e.amount); }
    }
  }

  // ---- When a report is not ok ----

  lemma {:induction false} ReceiverIffFed(ls: seq<Line>, r: string)
    ensures r in Fold(ls).receivers <==> exists c :: Fed(ls, r, c)
  {
    hide EffectOf;
    if ls != [] {
      var front, last := ls[..|ls| - 1], ls[|ls| - 1];
      ReceiverIffFed(front, r);
      forall c ensures Fed(ls, r, c) <==> Fed(front, r, c) || Feeds(last, r, c) { FedSnoc(ls, r, c); }
      hide Fed;
      var e := EffectOf(last);
      if e.Count? && e.receiver == r {
        assert Feeds(last, r, e.counter);
        assert Fed(ls, r, e.counter);
      } else {
        assert forall c :: !Feeds(last, r, c);
      }
    } else {
      forall c ensures !Fed(ls, r, c) { NothingFed(r, c); }
    }
  }

  /** What puts a receiver with the given drops, queue depth and retries of its own under back-pressure. */
  predicate Presses(t: Totals, drops: int, queue: int, retries: int) {
    var base := if t.retry > 0 then t.retry else retries;
    || (if t.dropped > 0 then Wrap(drops + t.dropped) else drops) > 0
    || t.queue > 0 || queue > 0
    || (if t.errors > 0 then Wrap(base + t.errors) else base) > 0
  }

  lemma PressedIff(t: Totals, i: Item)
    ensures StateOf(Combined(t, i)) == Backpressured
            <==> Presses(t, Held(i, Discarded), Held(i, QueueDepth), Held(i, Retries))
  {
    hide Wrap;
  }

  /** A report is not ok exactly when some line feeds a receiver whose drops, queue depth or retries, as sums of
      its lines combined with the collector's figures, are positive. */
  lemma NotOkIff(ls: seq<Line>)
    ensures !ReportOf(Fold(ls)).ok <==>
            exists r, c :: Fed(ls, r, c)
                           && Presses(Fold(ls), Wrap(Sum(ls, r, Discarded)), Wrap(Sum(ls, r, QueueDepth)), Wrap(Sum(ls, r, Retries)))
  {
    hide Wrap, EffectOf, Fold, Sum, Combined, StateOf, Fed, Presses;
    var t := Fold(ls);
    forall r
      ensures r in t.receivers <==> exists c :: Fed(ls, r, c)
      ensures r in t.receivers ==>
                (StateOf(Combined(t, t.receivers[r])) == Backpressured
                 <==> Presses(t, Wrap(Sum(ls, r, Discarded)), Wrap(Sum(ls, r, QueueDepth)), Wrap(Sum(ls, r, Retries))))
    {
      ReceiverIffFed(ls, r);
      CountersAreSums(ls, r, Discarded);
      CountersAreSums(ls, r, QueueDepth);
      CountersAreSums(ls, r, Retries);
      if r in t.receivers { PressedIff(t, t.receivers[r]); }
    }
  }

  /** As long as the 64-bit sums do not wrap, that is as soon as any of the figures is positive. */
  lemma PressesWithoutWrap(t: Totals, drops: int, queue: int, retries: int)
    requires 0 <= drops && 0 <= queue && 0 <= retries && drops + t.dropped < TWO63
    requires (if t.retry > 0 then t.retry else retries) + t.errors < TWO63
    ensures Presses(t, drops, queue, retries)
            <==> t.queue > 0 || t.retry > 0 || t.dropped > 0 || t.errors > 0 || drops > 0 || queue > 0 || retries > 0
  {
    if t.dropped > 0 { Uniqueness(drops + t.dropped + TWO63, 0, drops + t.dropped + TWO63); }
    var base := if t.retry > 0 then t.retry else retries;
    if t.errors > 0 { Uniqueness(base + t.errors + TWO63, 0, base + t.errors + TWO63); }
  }
}
