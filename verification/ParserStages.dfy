/** Running a compiled parser: its stages in order, with the error policy of each. */
module ParserStages {
  import opened Text
  import opened Wrappers
  import opened FieldStore

  datatype Event = Event(raw: string, fields: Fields, dropped: bool)

  /** A compiled stage rewrites the event and may fail; `onError` is its error policy as configured. */
  datatype Stage = Stage(id: string, kind: string, onError: string, apply: Event -> (Event, Option<string>))

  datatype StageError = StageError(id: string, kind: string, error: string)

  datatype Status = Parsed | Partial | Dropped | Failed

  datatype Output = Output(status: Status, event: Event, errors: seq<StageError>)

  predicate Stopped(o: Output) {
    o.status == Dropped || o.status == Failed
  }

  function ErrorOf(s: Stage, why: string): StageError {
    StageError(Trim(s.id), Trim(s.kind), why)
  }

  /** One stage on an output that has not stopped. */
  function RunStage(s: Stage, o: Output): Output {
    var r := s.apply(o.event);
    if r.1.Some? then
      var errors := o.errors + [ErrorOf(s, r.1.value)];
      match Trim(s.onError)
      case "keep_raw" => Output(Partial, r.0, errors)
      case "drop" => Output(Dropped, r.0.(dropped := true), errors)
      case _ => Output(Failed, r.0, errors)
    else if r.0.dropped then Output(Dropped, r.0, o.errors)
    else o.(event := r.0)
  }

  function RunStages(stages: seq<Stage>, o: Output): Output {
    if stages == [] then o else
    var before := RunStages(stages[..|stages| - 1], o);
    if Stopped(before) then before else RunStage(stages[|stages| - 1], before)
  }

  function Start(raw: string, fields: Fields): Output {
    Output(Parsed, Event(raw, fields, false), [])
  }

  method Parse(stages: seq<Stage>, raw: string, fields: Fields) returns (output: Output, error: Option<string>)
    ensures output == RunStages(stages, Start(raw, fields))
    ensures error.Some? <==> output.status == Failed
    ensures error.Some? ==> output.errors != [] && output.errors[|output.errors| - 1].error == error.value
  {
    hide Trim;
    output, error := Output(Parsed, Event(raw, fields, false), []), None;
    for i := 0 to |stages|
      invariant error.None? && !Stopped(output)
      invariant output == RunStages(stages[..i], Start(raw, fields))
    {
      var stage := stages[i];
      assert stages[..i + 1][..i] == stages[..i];
      var applied := stage.apply(output.event);
      output := output.(event := applied.0);
      if applied.1.Some? {
        output := output.(errors := output.errors + [ErrorOf(stage, applied.1.value)]);
        match Trim(stage.onError) {
          case "keep_raw" =>
            output := output.(status := Partial);
            continue;
          case "drop" =>
            output := output.(event := output.event.(dropped := true), status := Dropped);
            StopsForGood(stages[..i + 1], stages[i + 1..], Start(raw, fields));
            assert stages[..i + 1] + stages[i + 1..] == stages;
            return;
          case _ =>
            output := output.(status := Failed);
            StopsForGood(stages[..i + 1], stages[i + 1..], Start(raw, fields));
            assert stages[..i + 1] + stages[i + 1..] == stages;
            return output, applied.1;
        }
      }
      if output.event.dropped {
        output := output.(status := Dropped);
        StopsForGood(stages[..i + 1], stages[i + 1..], Start(raw, fields));
        assert stages[..i + 1] + stages[i + 1..] == stages;
        return;
      }
    }
    assert stages[..|stages|] == stages;
  }

  /** Once an event is dropped or has failed, no later stage touches it. */
  lemma {:induction false} StopsForGood(a: seq<Stage>, b: seq<Stage>, o: Output)
    requires Stopped(RunStages(a, o))
    ensures RunStages(a + b, o) == RunStages(a, o)
  {
    hide RunStage, Stopped;
    if b == [] {
      assert a + b == a;
    } else {
      assert (a + b)[..|a + b| - 1] == a + b[..|b| - 1];
      StopsForGood(a, b[..|b| - 1], o);
    }
  }

  predicate From(s: Stage, e: StageError) {
    e.id == Trim(s.id) && e.kind == Trim(s.kind)
  }

  /** The error comes from a stage told to keep the raw event. */
  ghost predicate Tolerant(stages: seq<Stage>, e: StageError) {
    exists i :: 0 <= i < |stages| && Trim(stages[i].onError) == "keep_raw" && From(stages[i], e)
  }

  /** It comes from a stage told to drop the event. */
  ghost predicate Dropping(stages: seq<Stage>, e: StageError) {
    exists i :: 0 <= i < |stages| && Trim(stages[i].onError) == "drop" && From(stages[i], e)
  }

  /** It comes from a stage told neither. */
  ghost predicate Failing(stages: seq<Stage>, e: StageError) {
    exists i :: 0 <= i < |stages| && Trim(stages[i].onError) !in ["keep_raw", "drop"] && From(stages[i], e)
  }

  lemma PoliciesGrow(stages: seq<Stage>, e: StageError)
    requires stages != []
    ensures Tolerant(stages[..|stages| - 1], e) ==> Tolerant(stages, e)
    ensures Dropping(stages[..|stages| - 1], e) ==> Dropping(stages, e)
    ensures Failing(stages[..|stages| - 1], e) ==> Failing(stages, e)
  {
    hide Trim, From;
    forall i | 0 <= i < |stages| - 1 ensures stages[..|stages| - 1][i] == stages[i] {}
  }

  /** What the status of a parse says: parsed means no stage failed and the event was kept; partial means
      some stage failed and each that did was told to keep the raw event; a dropped status means a dropped
      event, whose last error, if any, comes from a stage told to keep the raw event or to drop the event;
      failed means the last error comes from a stage told neither. All errors but the last come from stages
      told to keep the raw event. */
  lemma {:induction false} StatusMeaning(stages: seq<Stage>, raw: string, fields: Fields)
    ensures var o := RunStages(stages, Start(raw, fields));
            && (o.status == Parsed <==> o.errors == [] && !o.event.dropped)
            && (o.status == Partial ==> o.errors != [] && forall i :: 0 <= i < |o.errors| ==> Tolerant(stages, o.errors[i]))
            && (o.status == Dropped ==>
                  && o.event.dropped
                  && (o.errors != [] ==>
                        Tolerant(stages, o.errors[|o.errors| - 1]) || Dropping(stages, o.errors[|o.errors| - 1])))
            && (o.status == Failed ==> o.errors != [] && Failing(stages, o.errors[|o.errors| - 1]))
            && (forall i :: 0 <= i < |o.errors| - 1 ==> Tolerant(stages, o.errors[i]))
            && |o.errors| <= |stages|
  {
    hide Trim, Tolerant, Dropping, Failing, From;
    if stages != [] {
      var front, last := stages[..|stages| - 1], stages[|stages| - 1];
      StatusMeaning(front, raw, fields);
      var b, o := RunStages(front, Start(raw, fields)), RunStages(stages, Start(raw, fields));
      forall i | 0 <= i < |b.errors|
        ensures Tolerant(front, b.errors[i]) ==> Tolerant(stages, b.errors[i])
        ensures Dropping(front, b.errors[i]) ==> Dropping(stages, b.errors[i])
        ensures Failing(front, b.errors[i]) ==> Failing(stages, b.errors[i])
      {
        PoliciesGrow(stages, b.errors[i]);
      }
      if !Stopped(b) && |o.errors| > |b.errors| {
        LastPolicy(stages, o.errors[|b.errors|]);
      }
    }
  }

  lemma LastPolicy(stages: seq<Stage>, e: StageError)
    requires stages != []
    requires var s := stages[|stages| - 1]; e.id == Trim(s.id) && e.kind == Trim(s.kind)
    ensures match Trim(stages[|stages| - 1].onError)
            case "keep_raw" => Tolerant(stages, e)
            case "drop" => Dropping(stages, e)
            case _ => Failing(stages, e)
  {
    hide Trim;
    assert From(stages[|stages| - 1], e);
  }
}
