/** Which metric, by its full name and labels, feeds which figure of the report. */
module MetricNames {
  import opened Text
  import opened Wrappers
  import opened MetricsReport

  const ACCEPTED := [
    "otelcol_receiver_accepted_log_records", "otelcol_receiver_accepted_metric_points", "otelcol_receiver_accepted_spans",
    "otelcol_receiver_accepted_log_records_total", "otelcol_receiver_accepted_metric_points_total",
    "otelcol_receiver_accepted_spans_total", "otelcol_scraper_scraped_metric_points",
    "otelcol_scraper_scraped_metric_points_total"
  ]

  const REFUSED := [
    "otelcol_receiver_refused_log_records", "otelcol_receiver_refused_metric_points", "otelcol_receiver_refused_spans",
    "otelcol_receiver_refused_log_records_total", "otelcol_receiver_refused_metric_points_total",
    "otelcol_receiver_refused_spans_total", "otelcol_scraper_errored_metric_points",
    "otelcol_scraper_errored_metric_points_total"
  ]

  const SEND_FAILED := [
    "otelcol_exporter_send_failed_log_records", "otelcol_exporter_send_failed_metric_points",
    "otelcol_exporter_send_failed_spans", "otelcol_exporter_send_failed_log_records_total",
    "otelcol_exporter_send_failed_metric_points_total", "otelcol_exporter_send_failed_spans_total"
  ]

  /** The receivers a metric can be about. */
  datatype Origin = Collector | Vector | FluentBit

  /** The label of a receiver: the first of its names that is not blank, trimmed, with the prefix of its origin unless it
      has one of its own. */
  ghost predicate IsReceiver(origin: Origin, labels: map<string, string>, r: string) {
    match origin
    case Collector => r == Picked(labels, "receiver", "scraper", "scraper")
    case Vector => r == Prefixed("vector/", Picked(labels, "component_id", "component_name", "component"))
    case FluentBit => r == Prefixed("fluentbit/", Picked(labels, "name", "input", "plugin"))
  }

  predicate Given(labels: map<string, string>, key: string) {
    key in labels && !Blank(labels[key])
  }

  function Picked(labels: map<string, string>, a: string, b: string, c: string): string {
    if Given(labels, a) then Trim(labels[a])
    else if Given(labels, b) then Trim(labels[b])
    else if Given(labels, c) then Trim(labels[c]) else ""
  }

  function Prefixed(prefix: string, id: string): string {
    if id == "" || '/' in id then id else prefix + id
  }

  lemma FirstOfThree(labels: map<string, string>, a: string, b: string, c: string)
    ensures FirstLabel(labels, [a, b, c]) == Picked(labels, a, b, c)
  {
    hide Trim;
    assert [a, b, c][1..] == [b, c] && [b, c][1..] == [c] && [c][1..] == [];
    assert FirstLabel(labels, []) == "";
    assert FirstLabel(labels, [c]) == if Given(labels, c) then Trim(labels[c]) else "";
    assert FirstLabel(labels, [b, c]) == if Given(labels, b) then Trim(labels[b]) else FirstLabel(labels, [c]);
  }

  lemma FirstOfTwo(labels: map<string, string>, a: string, b: string)
    ensures FirstLabel(labels, [a, b]) == Picked(labels, a, b, b)
  {
    hide Trim;
    assert [a, b][1..] == [b] && [b][1..] == [];
    assert FirstLabel(labels, []) == "";
    assert FirstLabel(labels, [b]) == if Given(labels, b) then Trim(labels[b]) else "";
  }

  /** A line adds its value to one counter of one receiver, unless no label names the receiver. */
  ghost predicate Feeds(l: Line, origin: Origin, counter: Counter, failing: bool) {
    forall r :: IsReceiver(origin, l.labels, r) ==>
      EffectOf(l) == if r == "" then Nothing else Count(r, counter, l.value, failing)
  }

  lemma FeedsCollector(l: Line, c: Counter)
    requires RoleOf(l.name) == OfCollector(c)
    ensures Feeds(l, Collector, c, false)
  {
    hide RoleOf, Picked, FirstLabel;
    FirstOfTwo(l.labels, "receiver", "scraper");
  }

  lemma FeedsVector(l: Line, c: Counter, failing: bool)
    requires RoleOf(l.name) == OfVector(c, failing)
    ensures Feeds(l, Vector, c, failing)
  {
    hide RoleOf, Picked, FirstLabel;
    FirstOfThree(l.labels, "component_id", "component_name", "component");
  }

  lemma FeedsFluentBit(l: Line, c: Counter)
    requires RoleOf(l.name) == OfFluentBit(c)
    ensures Feeds(l, FluentBit, c, false)
  {
    hide RoleOf, Picked, FirstLabel;
    FirstOfThree(l.labels, "name", "input", "plugin");
  }

  // ---- Names ----

  lemma SignalNames(name: string, prefix: string)
    ensures AnySignal(name, prefix)
            <==> name in [prefix + "log_records", prefix + "metric_points", prefix + "spans", prefix + "log_records" + "_total",
                          prefix + "metric_points" + "_total", prefix + "spans" + "_total"]
  {
  }

  lemma AcceptedNames(name: string)
    ensures AnySignal(name, "otelcol_receiver_accepted_") || Total(name, "otelcol_scraper_scraped_metric_points") <==> name in ACCEPTED
  {
    SignalNames(name, "otelcol_receiver_accepted_");
    hide AnySignal;
    assert "otelcol_receiver_accepted_" + "log_records" == ACCEPTED[0] && "otelcol_receiver_accepted_" + "metric_points" == ACCEPTED[1];
    assert "otelcol_receiver_accepted_" + "spans" == ACCEPTED[2] && ACCEPTED[0] + "_total" == ACCEPTED[3];
    assert ACCEPTED[1] + "_total" == ACCEPTED[4] && ACCEPTED[2] + "_total" == ACCEPTED[5] && ACCEPTED[6] + "_total" == ACCEPTED[7];
  }

  lemma RefusedNames(name: string)
    ensures AnySignal(name, "otelcol_receiver_refused_") || Total(name, "otelcol_scraper_errored_metric_points") <==> name in REFUSED
  {
    SignalNames(name, "otelcol_receiver_refused_");
    hide AnySignal;
    assert "otelcol_receiver_refused_" + "log_records" == REFUSED[0] && "otelcol_receiver_refused_" + "metric_points" == REFUSED[1];
    assert "otelcol_receiver_refused_" + "spans" == REFUSED[2] && REFUSED[0] + "_total" == REFUSED[3];
    assert REFUSED[1] + "_total" == REFUSED[4] && REFUSED[2] + "_total" == REFUSED[5] && REFUSED[6] + "_total" == REFUSED[7];
  }

  lemma SendFailedNames(name: string)
    ensures AnySignal(name, "otelcol_exporter_send_failed_") <==> name in SEND_FAILED
  {
    SignalNames(name, "otelcol_exporter_send_failed_");
    hide AnySignal;
    assert "otelcol_exporter_send_failed_" + "log_records" == SEND_FAILED[0];
    assert "otelcol_exporter_send_failed_" + "metric_points" == SEND_FAILED[1];
    assert "otelcol_exporter_send_failed_" + "spans" == SEND_FAILED[2] && SEND_FAILED[0] + "_total" == SEND_FAILED[3];
    assert SEND_FAILED[1] + "_total" == SEND_FAILED[4] && SEND_FAILED[2] + "_total" == SEND_FAILED[5];
  }

  // ---- The table ----

  const V_RECEIVED := "component_received_events_total"
  const V_SENT := "component_sent_events_total"
  const V_DISCARDED := "component_discarded_events_total"
  const V_ERRORS := "component_errors_total"
  const F_RECORDS := "fluentbit_input_records_total"
  const F_DROPPED := "fluentbit_output_dropped_records_total"

  predicate LooksAccepted(n: string) {
    |n| > 20 && n[0] == 'o' && ((n[8] == 'r' && n[17] == 'a') || (n[8] == 's' && n[16] == 's'))
  }

  lemma AcceptedThird1()
    ensures |ACCEPTED| == 8
    ensures LooksAccepted(ACCEPTED[0])
    ensures LooksAccepted(ACCEPTED[1])
    ensures LooksAccepted(ACCEPTED[2])
    ensures LooksAccepted(ACCEPTED[3])
  {
  }

  lemma AcceptedThird2()
    ensures |ACCEPTED| == 8
    ensures LooksAccepted(ACCEPTED[4])
    ensures LooksAccepted(ACCEPTED[5])
  {
    AcceptedThird1();
    assert ACCEPTED[4] == ACCEPTED[1] + "_total" && ACCEPTED[5] == ACCEPTED[2] + "_total";
  }

  lemma AcceptedThird3()
    ensures |ACCEPTED| == 8
    ensures LooksAccepted(ACCEPTED[6])
    ensures LooksAccepted(ACCEPTED[7])
  {
    assert ACCEPTED[6][0] == 'o' && ACCEPTED[6][8] == 's' && ACCEPTED[6][16] == 's' && |ACCEPTED[6]| > 20;
    assert ACCEPTED[7][0] == 'o' && ACCEPTED[7][8] == 's' && ACCEPTED[7][16] == 's' && |ACCEPTED[7]| > 20;
  }

  lemma AcceptedLook()
    ensures forall n :: n in ACCEPTED ==> LooksAccepted(n)
  {
    hide ACCEPTED, LooksAccepted;
    AcceptedThird1();
    AcceptedThird2();
    AcceptedThird3();
  }

  predicate LooksRefused(n: string) {
    |n| > 20 && n[0] == 'o' && ((n[8] == 'r' && n[17] == 'r') || (n[8] == 's' && n[16] == 'e'))
  }

  lemma RefusedThird1()
    ensures |REFUSED| == 8
    ensures LooksRefused(REFUSED[0])
    ensures LooksRefused(REFUSED[1])
    ensures LooksRefused(REFUSED[2])
    ensures LooksRefused(REFUSED[3])
  {
  }

  lemma RefusedThird2()
    ensures |REFUSED| == 8
    ensures LooksRefused(REFUSED[4])
    ensures LooksRefused(REFUSED[5])
  {
    RefusedThird1();
    assert REFUSED[4] == REFUSED[1] + "_total" && REFUSED[5] == REFUSED[2] + "_total";
  }

  lemma RefusedThird3()
    ensures |REFUSED| == 8
    ensures LooksRefused(REFUSED[6])
    ensures LooksRefused(REFUSED[7])
  {
    assert REFUSED[6][0] == 'o' && REFUSED[6][8] == 's' && REFUSED[6][16] == 'e' && |REFUSED[6]| > 20;
    assert REFUSED[7][0] == 'o' && REFUSED[7][8] == 's' && REFUSED[7][16] == 'e' && |REFUSED[7]| > 20;
  }

  lemma RefusedLook()
    ensures forall n :: n in REFUSED ==> LooksRefused(n)
  {
    hide REFUSED, LooksRefused;
    RefusedThird1();
    RefusedThird2();
    RefusedThird3();
  }

  lemma SendFailedLook()
    ensures forall n :: n in SEND_FAILED ==> |n| > 20 && n[0] == 'o' && n[8] == 'e' && n[17] == 's'
  {
    assert SEND_FAILED[0][0] == 'o' && SEND_FAILED[0][8] == 'e' && SEND_FAILED[0][17] == 's' && |SEND_FAILED[0]| > 20;
    assert SEND_FAILED[1][0] == 'o' && SEND_FAILED[1][8] == 'e' && SEND_FAILED[1][17] == 's' && |SEND_FAILED[1]| > 20;
    assert SEND_FAILED[2][0] == 'o' && SEND_FAILED[2][8] == 'e' && SEND_FAILED[2][17] == 's' && |SEND_FAILED[2]| > 20;
    assert SEND_FAILED[3][0] == 'o' && SEND_FAILED[3][8] == 'e' && SEND_FAILED[3][17] == 's' && |SEND_FAILED[3]| > 20;
    assert SEND_FAILED[4][0] == 'o' && SEND_FAILED[4][8] == 'e' && SEND_FAILED[4][17] == 's' && |SEND_FAILED[4]| > 20;
    assert SEND_FAILED[5][0] == 'o' && SEND_FAILED[5][8] == 'e' && SEND_FAILED[5][17] == 's' && |SEND_FAILED[5]| > 20;
  }

  const QUEUES := ["otelcol_exporter_queue_size", "otelcol_exporter_queue_capacity"]

  lemma QueueLook()
    ensures forall n :: n in QUEUES ==> |n| > 20 && n[0] == 'o' && n[8] == 'e' && n[17] == 'q'
  {
    assert QUEUES[0][0] == 'o' && QUEUES[0][8] == 'e' && QUEUES[0][17] == 'q' && |QUEUES[0]| > 20;
    assert QUEUES[1][0] == 'o' && QUEUES[1][8] == 'e' && QUEUES[1][17] == 'q' && |QUEUES[1]| > 20;
  }

  const UTILIZATIONS := ["source_buffer_utilization_level", "source_buffer_utilization_mean"]

  const RING_RETRIES := ["fluentbit_input_ring_buffer_retries_total", "fluentbit_input_ring_buffer_retry_failures_total"]

  const FAULTS := ["fluentbit_output_errors_total", "fluentbit_output_retries_total", "fluentbit_output_retries_failed_total",
                   "fluentbit_output_retried_records_total"]

  /** The names of the collector itself. */
  predicate OfOtel(name: string) {
    name in ACCEPTED || name in REFUSED || name in QUEUES || name in SEND_FAILED
  }

  lemma OtelLook(name: string)
    ensures OfOtel(name) ==> name != "" && name[0] == 'o'
  {
    AcceptedLook();
    RefusedLook();
    SendFailedLook();
    QueueLook();
    hide ACCEPTED, REFUSED, SEND_FAILED, QUEUES;
  }

  lemma OtelApart(name: string)
    ensures name in REFUSED ==> name !in ACCEPTED
    ensures name in QUEUES ==> name !in ACCEPTED && name !in REFUSED
    ensures name in SEND_FAILED ==> name !in ACCEPTED && name !in REFUSED && name !in QUEUES
  {
    AcceptedLook();
    RefusedLook();
    SendFailedLook();
    QueueLook();
    hide ACCEPTED, REFUSED, SEND_FAILED, QUEUES;
  }

  lemma QueueNames(name: string)
    ensures name in QUEUES <==> name == "otelcol_exporter_queue_size" || name == "otelcol_exporter_queue_capacity"
  {
  }

  lemma OtelRoles(name: string)
    ensures name in ACCEPTED ==> RoleOf(name) == OfCollector(Received)
    ensures name in REFUSED ==> RoleOf(name) == OfCollector(Discarded)
    ensures name in QUEUES ==> RoleOf(name) == QueueFigure
    ensures name in SEND_FAILED ==> RoleOf(name) == RetryFigure
  {
    hide ACCEPTED, REFUSED, SEND_FAILED, QUEUES, AnySignal, Total;
    AcceptedNames(name);
    RefusedNames(name);
    SendFailedNames(name);
    OtelApart(name);
    QueueNames(name);
  }

  /** What the other names figure in. */
  lemma OtherRoles(name: string)
    requires !OfOtel(name)
    ensures RoleOf(name) == SideRole(name)
  {
    hide ACCEPTED, REFUSED, SEND_FAILED, QUEUES, AnySignal, Total, UTILIZATIONS, RING_RETRIES, FAULTS;
    AcceptedNames(name);
    RefusedNames(name);
    SendFailedNames(name);
    QueueNames(name);
    SideNames(name);
  }

  lemma SideNames(name: string)
    ensures name in UTILIZATIONS <==> name == "source_buffer_utilization_level" || name == "source_buffer_utilization_mean"
    ensures name in RING_RETRIES <==> name == "fluentbit_input_ring_buffer_retries_total"
                                      || name == "fluentbit_input_ring_buffer_retry_failures_total"
    ensures name in FAULTS <==> name == "fluentbit_output_errors_total" || name == "fluentbit_output_retries_total"
                                || name == "fluentbit_output_retries_failed_total" || name == "fluentbit_output_retried_records_total"
  {
  }

  function SideRole(name: string): Role {
    if name == V_RECEIVED then OfVector(Received, false)
    else if name == V_SENT then OfVector(Parsed, false)
    else if name == V_DISCARDED then OfVector(Discarded, false)
    else if name == V_ERRORS then OfVector(Retries, true)
    else if name in UTILIZATIONS then OfVector(QueueDepth, false)
    else if name == F_RECORDS then OfFluentBit(Received)
    else if name in RING_RETRIES then OfFluentBit(Retries)
    else if name == F_DROPPED then DropFigure
    else if name in FAULTS then FaultFigure
    else Unused
  }

  lemma SideIsNoOtel(name: string)
    ensures SideRole(name) != Unused ==> !OfOtel(name)
  {
    OtelLook(name);
    SideLook();
    hide OfOtel;
  }

  lemma SideLook()
    ensures forall n :: n in UTILIZATIONS ==> n != "" && n[0] == 's'
    ensures forall n :: n in RING_RETRIES || n in FAULTS ==> n != "" && n[0] == 'f'
  {
    UtilizationLook();
    RingLook();
    FaultLook();
    hide UTILIZATIONS, RING_RETRIES, FAULTS;
  }

  lemma UtilizationLook()
    ensures forall n :: n in UTILIZATIONS ==> |n| > 17 && n[0] == 's'
  {
    assert |UTILIZATIONS[0]| > 17 && UTILIZATIONS[0][0] == 's';
    assert |UTILIZATIONS[1]| > 17 && UTILIZATIONS[1][0] == 's';
  }

  lemma RingLook()
    ensures forall n :: n in RING_RETRIES ==> |n| > 17 && n[0] == 'f' && n[10] == 'i' && n[17] == 'i'
  {
    assert |RING_RETRIES[0]| > 17 && RING_RETRIES[0][0] == 'f' && RING_RETRIES[0][10] == 'i' && RING_RETRIES[0][17] == 'i';
    assert |RING_RETRIES[1]| > 17 && RING_RETRIES[1][0] == 'f' && RING_RETRIES[1][10] == 'i' && RING_RETRIES[1][17] == 'i';
  }

  lemma FaultLook()
    ensures forall n :: n in FAULTS ==> |n| > 17 && n[0] == 'f' && n[10] == 'o' && n[17] != 'd'
  {
    forall i | 0 <= i < |FAULTS| ensures |FAULTS[i]| > 17 && FAULTS[i][0] == 'f' && FAULTS[i][10] == 'o' && FAULTS[i][17] != 'd' {
      FaultAt(i);
    }
    hide FAULTS;
  }

  lemma FaultAt(i: nat)
    requires i < |FAULTS|
    ensures |FAULTS[i]| > 17 && FAULTS[i][0] == 'f' && FAULTS[i][10] == 'o' && FAULTS[i][17] != 'd'
  {
    assert |FAULTS[0]| > 17 && FAULTS[0][0] == 'f' && FAULTS[0][10] == 'o' && FAULTS[0][17] == 'e';
    assert |FAULTS[1]| > 17 && FAULTS[1][0] == 'f' && FAULTS[1][10] == 'o' && FAULTS[1][17] == 'r';
    assert |FAULTS[2]| > 17 && FAULTS[2][0] == 'f' && FAULTS[2][10] == 'o' && FAULTS[2][17] == 'r';
    assert |FAULTS[3]| > 17 && FAULTS[3][0] == 'f' && FAULTS[3][10] == 'o' && FAULTS[3][17] == 'r';
  }

  /** Each metric of the collector itself feeds one figure. */
  lemma CollectorLineFeeds(l: Line)
    ensures l.name in ACCEPTED ==> Feeds(l, Collector, Received, false)
    ensures l.name in REFUSED ==> Feeds(l, Collector, Discarded, false)
    ensures l.name in QUEUES ==> EffectOf(l) == Queue(l.value)
    ensures l.name in SEND_FAILED ==> EffectOf(l) == Retry(l.value)
  {
    hide RoleOf, Feeds, ACCEPTED, REFUSED, SEND_FAILED, QUEUES;
    OtelRoles(l.name);
    if RoleOf(l.name) == OfCollector(Received) { FeedsCollector(l, Received); }
    if RoleOf(l.name) == OfCollector(Discarded) { FeedsCollector(l, Discarded); }
  }

  /** Where the metrics of the agents it supervises go, by role. */
  lemma SideLine(l: Line)
    requires SideRole(l.name) != Unused
    ensures match SideRole(l.name)
            case OfVector(c, failing) => Feeds(l, Vector, c, failing)
            case OfFluentBit(c) => Feeds(l, FluentBit, c, false)
            case DropFigure => EffectOf(l) == Drop(l.value)
            case FaultFigure => EffectOf(l) == Fault(l.value)
            case _ => true
  {
    hide RoleOf, Feeds, OfOtel, SideRole;
    SideIsNoOtel(l.name);
    OtherRoles(l.name);
    match SideRole(l.name)
    case OfVector(c, failing) => FeedsVector(l, c, failing);
    case OfFluentBit(c) => FeedsFluentBit(l, c);
    case _ =>
  }

  lemma SideHeads(name: string)
    ensures name in UTILIZATIONS ==> SideRole(name) == OfVector(QueueDepth, false)
    ensures name in RING_RETRIES ==> SideRole(name) == OfFluentBit(Retries)
    ensures name in FAULTS ==> SideRole(name) == FaultFigure
  {
    hide UTILIZATIONS, RING_RETRIES, FAULTS, V_RECEIVED, V_SENT, V_DISCARDED, V_ERRORS, F_RECORDS, F_DROPPED;
    UtilizationLook();
    RingLook();
    FaultLook();
    SingleLook();
  }

  lemma SingleLook()
    ensures |V_RECEIVED| > 17 && V_RECEIVED[0] == 'c' && V_RECEIVED[10] == 'r' && |V_SENT| > 17 && V_SENT[0] == 'c' && V_SENT[10] == 's'
    ensures |V_DISCARDED| > 17 && V_DISCARDED[0] == 'c' && V_DISCARDED[10] == 'd'
    ensures |V_ERRORS| > 17 && V_ERRORS[0] == 'c' && V_ERRORS[10] == 'e'
    ensures |F_RECORDS| > 17 && F_RECORDS[0] == 'f' && F_RECORDS[10] == 'i' && F_RECORDS[17] == 'e'
    ensures |F_DROPPED| > 17 && F_DROPPED[0] == 'f' && F_DROPPED[10] == 'o' && F_DROPPED[17] == 'd'
  {
  }

  /** And each of the agents it supervises. */
  lemma AgentLineFeeds(l: Line)
    ensures l.name == V_RECEIVED ==> Feeds(l, Vector, Received, false)
    ensures l.name == V_SENT ==> Feeds(l, Vector, Parsed, false)
    ensures l.name == V_DISCARDED ==> Feeds(l, Vector, Discarded, false)
    ensures l.name == V_ERRORS ==> Feeds(l, Vector, Retries, true)
    ensures l.name in UTILIZATIONS ==> Feeds(l, Vector, QueueDepth, false)
    ensures l.name == F_RECORDS ==> Feeds(l, FluentBit, Received, false)
    ensures l.name in RING_RETRIES ==> Feeds(l, FluentBit, Retries, false)
    ensures l.name == F_DROPPED ==> EffectOf(l) == Drop(l.value)
    ensures l.name in FAULTS ==> EffectOf(l) == Fault(l.value)
  {
    hide EffectOf, Feeds, SideRole, UTILIZATIONS, RING_RETRIES, FAULTS,
      V_RECEIVED, V_SENT, V_DISCARDED, V_ERRORS, F_RECORDS, F_DROPPED;
    SingleHeads(l.name);
    SideHeads(l.name);
    if SideRole(l.name) != Unused { SideLine(l); }
  }

  lemma SingleHeads(name: string)
    ensures name == V_RECEIVED ==> SideRole(name) == OfVector(Received, false)
    ensures name == V_SENT ==> SideRole(name) == OfVector(Parsed, false)
    ensures name == V_DISCARDED ==> SideRole(name) == OfVector(Discarded, false)
    ensures name == V_ERRORS ==> SideRole(name) == OfVector(Retries, true)
    ensures name == F_RECORDS ==> SideRole(name) == OfFluentBit(Received)
    ensures name == F_DROPPED ==> SideRole(name) == DropFigure
  {
    hide UTILIZATIONS, RING_RETRIES, FAULTS, V_RECEIVED, V_SENT, V_DISCARDED, V_ERRORS, F_RECORDS, F_DROPPED;
    UtilizationLook();
    RingLook();
    FaultLook();
    SingleLook();
  }

  /** No other metric feeds anything. */
  lemma OtherLineFeedsNothing(l: Line)
    requires !OfOtel(l.name) && SideRole(l.name) == Unused
    ensures EffectOf(l) == Nothing
  {
    hide RoleOf, OfOtel, SideRole;
    OtherRoles(l.name);
  }

  // ---- What the report shows ----

  /** A receiver shows its own counts of events received and parsed; the collector's queue instead of its own where there
      is one; its discarded events and those the collector dropped; its retries, or the collector's where there are any,
      and the collector's faults. */
  ghost predicate Shows(t: Totals, own: Item, shown: Item) {
    var retries := if t.retry > 0 then t.retry else Held(own, Retries);
    && Held(shown, Received) == Held(own, Received) && Held(shown, Parsed) == Held(own, Parsed)
    && Held(shown, QueueDepth) == (if t.queue > 0 then t.queue else Held(own, QueueDepth))
    && Held(shown, Discarded) == (if t.dropped > 0 then Wrap(Held(own, Discarded) + t.dropped) else Held(own, Discarded))
    && Held(shown, Retries) == (if t.errors > 0 then Wrap(retries + t.errors) else retries)
  }

  /** It is backpressured when it shows a discarded event, a queue or a retry, collecting when it shows none of them and
      some event received, and else merely deployed. */
  ghost predicate InState(shown: Item, state: State) {
    var pressed := Held(shown, Discarded) > 0 || Held(shown, QueueDepth) > 0 || Held(shown, Retries) > 0;
    (state == Backpressured <==> pressed) && (state == Collecting <==> !pressed && Held(shown, Received) > 0)
  }

  /** The figures of the collector put over a receiver's own. */
  function Over(t: Totals, c: map<Counter, int>): map<Counter, int> {
    var c := if t.queue > 0 then c[QueueDepth := t.queue] else c;
    if t.retry > 0 then c[Retries := t.retry] else c
  }

  /** And the collector's counts added to them. */
  function Plus(c: map<Counter, int>, counter: Counter, n: int): map<Counter, int> {
    if n > 0 then c[counter := Wrap(Held(Item(c, None), counter) + n)] else c
  }

  lemma CombinedIs(t: Totals, own: Item)
    ensures Combined(t, own).counters == Plus(Plus(Over(t, own.counters), Discarded, t.dropped), Retries, t.errors)
  {
    hide Wrap, Held;
  }

  lemma CombinedShows(t: Totals, own: Item)
    ensures Shows(t, own, Combined(t, own))
  {
    CombinedIs(t, own);
    hide Wrap, Combined;
  }

  /** What the report shows of each receiver. */
  lemma ReportShows(t: Totals, r: string)
    requires r in t.receivers
    ensures r in ReportOf(t).receivers
    ensures var (shown, state) := ReportOf(t).receivers[r];
            Shows(t, t.receivers[r], shown) && InState(shown, state)
  {
    hide Wrap, Combined, Shows;
    CombinedShows(t, t.receivers[r]);
  }

  /** A line that states the capacity of the collector's queue puts every receiver under back-pressure, however empty the
      queue is: its value counts as queue depth. */
  lemma CapacityPresses(ls: seq<Line>, i: nat, r: string, c: Counter)
    requires i < |ls| && ls[i].name == "otelcol_exporter_queue_capacity" && ls[i].value > 0 && Fed(ls, r, c)
    ensures var report := ReportOf(Fold(ls));
            !report.ok && r in report.receivers && report.receivers[r].1 == Backpressured
  {
    hide EffectOf, Fold, Fed, Combined, Shows, OfOtel, SideRole, ACCEPTED, REFUSED, SEND_FAILED, QUEUES;
    QueueNames(ls[i].name);
    CollectorLineFeeds(ls[i]);
    assert QueueLine(ls[i], ls[i].value);
    GlobalsAre(ls);
    ReceiverIffFed(ls, r);
    ReportShows(Fold(ls), r);
    QueueShows(Fold(ls), r);
  }

  lemma QueueShows(t: Totals, r: string)
    requires t.queue > 0 && r in t.receivers
    ensures StateOf(Combined(t, t.receivers[r])) == Backpressured
  {
    hide Combined;
    CombinedShows(t, t.receivers[r]);
  }
}
