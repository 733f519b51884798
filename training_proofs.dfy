/** What the reference run of `train_model` (mrclass_resnet/train_model.py) amounts to,
    stated over the sequence of validation accuracies: the accuracy returned, the
    weights returned, the epoch at which training stops, the calls made to the optimizer
    and the scheduler, and the exception raised when a phase cannot be divided. */
module TrainingProofs {
  import opened Statistics
  import opened Tracking
  import opened Training

  /** The live weights when epoch `k` begins: the initial ones, trained by every train
      phase before it (a val phase leaves them alone). */
  function Weights<W>(cfg: Config<W>, w0: W, k: nat): W
  {
    if k == 0 then w0
    else Trained(Weights(cfg, w0, k - 1), k - 1, |cfg.loaders(k - 1).train|, cfg.update)
  }

  /** The weights seen by the val phases of epochs 0 .. k-1. */
  function Snaps<W>(cfg: Config<W>, w0: W, k: nat): (s: seq<W>)
    ensures |s| == k
  {
    if k == 0 then [] else Snaps(cfg, w0, k - 1) + [Weights(cfg, w0, k)]
  }

  /** The validation accuracy of epoch `e`. */
  function ValAcc<W>(cfg: Config<W>, e: nat): real
    requires cfg.sizes.val > 0
  {
    Accuracy(Sum(cfg.loaders(e).val), cfg.sizes.val)
  }

  /** The validation accuracies of epochs 0 .. k-1. */
  function Accs<W>(cfg: Config<W>, k: nat): (s: seq<real>)
    requires k == 0 || cfg.sizes.val > 0
    ensures |s| == k
  {
    if k == 0 then [] else Accs(cfg, k - 1) + [ValAcc(cfg, k - 1)]
  }

  /** The loop variables after the val phases of epochs 0 .. k-1. */
  function Record<W>(cfg: Config<W>, w0: W, k: nat): Tracker<W>
    requires k == 0 || cfg.sizes.val > 0
  {
    if k == 0 then Start(w0) else Observe(Record(cfg, w0, k - 1), ValAcc(cfg, k - 1), Weights(cfg, w0, k))
  }

  /** Both phases of epoch `e` end with a statistic rather than an exception. */
  predicate Completes<W>(cfg: Config<W>, e: nat)
  {
    PhaseAccuracy(Train, cfg.loaders(e).train, cfg.sizes.train).Ok? &&
    PhaseAccuracy(Val, cfg.loaders(e).val, cfg.sizes.val).Ok?
  }

  /** The exception raised in epoch `e`: the train phase's if it has one, else the val
      phase's. */
  function FailureAt<W>(cfg: Config<W>, e: nat): Failure
    requires !Completes(cfg, e)
  {
    var train := PhaseAccuracy(Train, cfg.loaders(e).train, cfg.sizes.train);
    if train.Err? then train.error else PhaseAccuracy(Val, cfg.loaders(e).val, cfg.sizes.val).error
  }

  /** The number of train batches of epochs from .. to-1. */
  function TrainSteps<W>(cfg: Config<W>, from: nat, to: nat): nat
    decreases if from < to then to - from else 0
  {
    if from >= to then 0 else |cfg.loaders(from).train| + TrainSteps(cfg, from + 1, to)
  }

  /** The validation accuracies of epochs from .. to-1, as percentages. */
  function Percentages<W>(cfg: Config<W>, from: nat, to: nat): seq<real>
    requires from >= to || cfg.sizes.val > 0
    decreases if from < to then to - from else 0
  {
    if from >= to then [] else [ValAcc(cfg, from) * 100.0] + Percentages(cfg, from + 1, to)
  }

  /** Every validation accuracy is at least 0. */
  lemma {:induction false} AccsNonnegative<W>(cfg: Config<W>, k: nat)
    requires k == 0 || cfg.sizes.val > 0
    ensures forall i :: 0 <= i < k ==> Accs(cfg, k)[i] >= 0.0
  {
    if k > 0 {
      AccsNonnegative(cfg, k - 1);
      AccuracyMeaning(Sum(cfg.loaders(k - 1).val), cfg.sizes.val);
      assert forall i :: 0 <= i < k - 1 ==> Accs(cfg, k)[i] == Accs(cfg, k - 1)[i];
    }
  }

  /** The loop variables after epoch k are the fold of `Observe` over the accuracies and
      snapshots of epochs 0 .. k-1. */
  lemma {:induction false} RecordIsTrack<W>(cfg: Config<W>, w0: W, k: nat)
    requires k == 0 || cfg.sizes.val > 0
    ensures Record(cfg, w0, k) == Track(Accs(cfg, k), Snaps(cfg, w0, k), w0)
  {
    if k > 0 {
      RecordIsTrack(cfg, w0, k - 1);
      assert Accs(cfg, k)[..k - 1] == Accs(cfg, k - 1);
      assert Snaps(cfg, w0, k)[..k - 1] == Snaps(cfg, w0, k - 1);
    }
  }

  /** Whoever enters epoch `e` through the loop: epoch e-1 completed without stopping. */
  predicate Entered<W>(cfg: Config<W>, w0: W, e: nat)
  {
    e > 0 ==> cfg.sizes.val > 0 && !ShouldStop(Record(cfg, w0, e), e - 1)
  }

  /** The stopping test after the train phase of an entered epoch never fires: the
      counter was already tested, with the same value, after the previous val phase. */
  lemma {:induction false} TrainPhaseNeverStops<W>(cfg: Config<W>, w0: W, e: nat)
    requires Entered(cfg, w0, e)
    ensures e == 0 || cfg.sizes.val > 0
    ensures !ShouldStop(Record(cfg, w0, e), e)
  {
    if e > 0 {
      AccsNonnegative(cfg, e);
      RecordIsTrack(cfg, w0, e);
      CounterBound(Accs(cfg, e), Snaps(cfg, w0, e), w0);
    }
  }

  /** The calls a completed epoch makes: its train phase, its val phase, and the
      scheduler step with its validation accuracy as a percentage. */
  function EpochEvents<W>(cfg: Config<W>, e: nat): seq<Event>
    requires cfg.sizes.val > 0
  {
    var data := cfg.loaders(e);
    PhaseEvents(Train, |data.train|) + PhaseEvents(Val, |data.val|) + [SchedulerStep(ValAcc(cfg, e) * 100.0)]
  }

  /** An epoch that hands on to the next one completed both phases, moved the tracker by
      its validation accuracy and the trained weights, and did not stop. */
  lemma EpochNextFrom<W>(cfg: Config<W>, e: nat, t: Tracker<W>, w: W)
    requires Epoch(cfg, e, t, w).Next?
    ensures Completes(cfg, e) && cfg.sizes.val > 0
    ensures var s := Epoch(cfg, e, t, w);
      var w1 := Trained(w, e, |cfg.loaders(e).train|, cfg.update);
      s.tracker == Observe(t, ValAcc(cfg, e), w1) && s.weights == w1 &&
      !ShouldStop(s.tracker, e) && s.events == EpochEvents(cfg, e)
  {
  }

  /** An epoch entered with a tracker that does not stop returns normally only when the
      test after its val phase fires, with the moved tracker's accuracy and snapshot. */
  lemma EpochStopFrom<W>(cfg: Config<W>, e: nat, t: Tracker<W>, w: W)
    requires !ShouldStop(t, e)
    requires Epoch(cfg, e, t, w).Halt? && Epoch(cfg, e, t, w).result.outcome.Ok?
    ensures Completes(cfg, e) && cfg.sizes.val > 0
    ensures var t1 := Observe(t, ValAcc(cfg, e), Trained(w, e, |cfg.loaders(e).train|, cfg.update));
      ShouldStop(t1, e) &&
      Epoch(cfg, e, t, w).result == RunResult(Ok(t1.bestAcc), t1.bestWts, false, EpochEvents(cfg, e), e + 1)
  {
  }

  /** An epoch that raises raises its first failing phase's exception and leaves the
      trained weights in the model. */
  lemma EpochFailFrom<W>(cfg: Config<W>, e: nat, t: Tracker<W>, w: W)
    requires Epoch(cfg, e, t, w).Halt? && Epoch(cfg, e, t, w).result.outcome.Err?
    ensures var r := Epoch(cfg, e, t, w).result;
      !Completes(cfg, e) && r.started == e + 1 && r.outcome.error == FailureAt(cfg, e) &&
      r.weights == Trained(w, e, |cfg.loaders(e).train|, cfg.update)
  {
  }

  /** The calls of a completed epoch: one optimizer step per train batch, and one
      scheduler step with the epoch's validation accuracy as a percentage. */
  lemma EpochCallsHold<W>(cfg: Config<W>, e: nat)
    requires cfg.sizes.val > 0
    ensures OptimizerSteps(EpochEvents(cfg, e)) == |cfg.loaders(e).train|
    ensures SchedulerMetrics(EpochEvents(cfg, e)) == [ValAcc(cfg, e) * 100.0]
  {
    var data := cfg.loaders(e);
    var trainEvents, valEvents := PhaseEvents(Train, |data.train|), PhaseEvents(Val, |data.val|);
    var tail := [SchedulerStep(ValAcc(cfg, e) * 100.0)];
    PhaseEventsCount(Train, |data.train|);
    PhaseEventsCount(Val, |data.val|);
    OptimizerStepsAppend(trainEvents, valEvents);
    OptimizerStepsAppend(trainEvents + valEvents, tail);
    SchedulerMetricsAppend(trainEvents, valEvents);
    SchedulerMetricsAppend(trainEvents + valEvents, tail);
    assert OptimizerSteps(tail) == 0 && SchedulerMetrics(tail) == [ValAcc(cfg, e) * 100.0];
  }

  /** An entered epoch that completes without stopping hands the run on to the next
      epoch, with the moved tracker and the trained weights. */
  lemma RunStepNext<W>(cfg: Config<W>, w0: W, e: nat, training: bool)
    requires Entered(cfg, w0, e) && e < cfg.numEpochs && Completes(cfg, e)
    requires !ShouldStop(Record(cfg, w0, e + 1), e)
    ensures Entered(cfg, w0, e + 1)
    ensures Run(cfg, e, Record(cfg, w0, e), Weights(cfg, w0, e), training) ==
      Prepend(EpochEvents(cfg, e), Run(cfg, e + 1, Record(cfg, w0, e + 1), Weights(cfg, w0, e + 1), false))
  {
    var t, w := Record(cfg, w0, e), Weights(cfg, w0, e);
    RunUnfold(cfg, e, t, w, training);
    TrainPhaseNeverStops(cfg, w0, e);
    var s := Epoch(cfg, e, t, w);
    assert Record(cfg, w0, e + 1) == Observe(t, ValAcc(cfg, e), Weights(cfg, w0, e + 1));
    assert s.Next?;
    EpochNextFrom(cfg, e, t, w);
  }

  /** An entered epoch that completes and then stops returns the moved tracker's accuracy
      and snapshot, in eval mode. */
  lemma RunStepStop<W>(cfg: Config<W>, w0: W, e: nat, training: bool)
    requires Entered(cfg, w0, e) && e < cfg.numEpochs && Completes(cfg, e)
    requires ShouldStop(Record(cfg, w0, e + 1), e)
    ensures Run(cfg, e, Record(cfg, w0, e), Weights(cfg, w0, e), training) ==
      RunResult(Ok(Record(cfg, w0, e + 1).bestAcc), Record(cfg, w0, e + 1).bestWts, false, EpochEvents(cfg, e), e + 1)
  {
    var t, w := Record(cfg, w0, e), Weights(cfg, w0, e);
    RunUnfold(cfg, e, t, w, training);
    TrainPhaseNeverStops(cfg, w0, e);
    var s := Epoch(cfg, e, t, w);
    assert Record(cfg, w0, e + 1) == Observe(t, ValAcc(cfg, e), Weights(cfg, w0, e + 1));
    assert s.Halt? && s.result.outcome.Ok?;
    EpochStopFrom(cfg, e, t, w);
  }

  /** An entered epoch that does not complete raises its exception, with the trained
      weights left in the model. */
  lemma RunStepFail<W>(cfg: Config<W>, w0: W, e: nat, training: bool)
    requires Entered(cfg, w0, e) && e < cfg.numEpochs && !Completes(cfg, e)
    ensures var r := Run(cfg, e, Record(cfg, w0, e), Weights(cfg, w0, e), training);
      r.started == e + 1 && r.outcome == Err(FailureAt(cfg, e)) && r.weights == Weights(cfg, w0, e + 1)
  {
    var t, w := Record(cfg, w0, e), Weights(cfg, w0, e);
    RunUnfold(cfg, e, t, w, training);
    TrainPhaseNeverStops(cfg, w0, e);
    var s := Epoch(cfg, e, t, w);
    assert s.Halt? && s.result.outcome.Err?;
    EpochFailFrom(cfg, e, t, w);
  }

  /** How far a run from epoch `e` got, as `r` reports it: every epoch before the last
      one begun completed without stopping; a normal return before `numEpochs` is a stop
      after the last val phase; an exception is the last epoch's, and leaves that epoch's
      trained weights in the model. */
  ghost predicate Shape<W>(cfg: Config<W>, w0: W, e: nat, r: RunResult<W>)
  {
    && e <= r.started
    && (e < cfg.numEpochs ==> e < r.started <= cfg.numEpochs)
    && (e >= cfg.numEpochs ==> r.started == e)
    && (forall k :: e <= k < r.started - 1 ==> Completes(cfg, k) && !ShouldStop(Record(cfg, w0, k + 1), k))
    && (r.outcome.Ok? ==> r.started == e || Completes(cfg, r.started - 1))
    && (r.outcome.Ok? && r.started < cfg.numEpochs ==> cfg.sizes.val > 0 && ShouldStop(Record(cfg, w0, r.started), r.started - 1))
    && (r.outcome.Err? ==> e < r.started && !Completes(cfg, r.started - 1) && r.outcome.error == FailureAt(cfg, r.started - 1))
    && (r.outcome.Err? ==> r.weights == Weights(cfg, w0, r.started))
  }

  /** What a normal return from epoch `e` (entered in mode `training`) hands back: the
      tracker's best accuracy and snapshot as of the last epoch begun, and the mode that
      epoch's last phase set. */
  ghost predicate Returns<W>(cfg: Config<W>, w0: W, e: nat, training: bool, r: RunResult<W>)
  {
    r.outcome.Ok? ==>
      e <= r.started && (r.started == 0 || cfg.sizes.val > 0) &&
      r.outcome.value == Record(cfg, w0, r.started).bestAcc &&
      r.weights == Record(cfg, w0, r.started).bestWts &&
      r.training == (if r.started == e then training else false)
  }

  /** The calls of a normal return from epoch `e`: one optimizer step per train batch and
      one scheduler step per epoch begun. */
  predicate Calls<W>(cfg: Config<W>, e: nat, r: RunResult<W>)
  {
    r.outcome.Ok? ==>
      e <= r.started && (r.started <= e || cfg.sizes.val > 0) &&
      OptimizerSteps(r.events) == TrainSteps(cfg, e, r.started) &&
      SchedulerMetrics(r.events) == Percentages(cfg, e, r.started)
  }

  /** A run that went on past epoch `e` has the shape of the rest of the run, with epoch
      `e` completed without stopping in front. */
  lemma ShapeNext<W>(cfg: Config<W>, w0: W, e: nat, events: seq<Event>, r: RunResult<W>, rest: RunResult<W>)
    requires e < cfg.numEpochs && Completes(cfg, e) && !ShouldStop(Record(cfg, w0, e + 1), e)
    requires r == Prepend(events, rest) && Shape(cfg, w0, e + 1, rest)
    ensures Shape(cfg, w0, e, r)
  {
    forall k | e <= k < r.started - 1
      ensures Completes(cfg, k) && !ShouldStop(Record(cfg, w0, k + 1), k)
    {
    }
  }

  /** A run that stopped in epoch `e`, after its val phase. */
  lemma ShapeStop<W>(cfg: Config<W>, w0: W, e: nat, r: RunResult<W>)
    requires e < cfg.numEpochs && Completes(cfg, e) && ShouldStop(Record(cfg, w0, e + 1), e)
    requires r.started == e + 1 && r.outcome.Ok?
    ensures Shape(cfg, w0, e, r)
  {
  }

  /** A run that raised in epoch `e`. */
  lemma ShapeFail<W>(cfg: Config<W>, w0: W, e: nat, r: RunResult<W>)
    requires e < cfg.numEpochs && !Completes(cfg, e)
    requires r.started == e + 1 && r.outcome == Err(FailureAt(cfg, e)) && r.weights == Weights(cfg, w0, e + 1)
    ensures Shape(cfg, w0, e, r)
  {
  }

  /** A run that went on past epoch `e` returns what the rest of the run returns. */
  lemma ReturnsNext<W>(cfg: Config<W>, w0: W, e: nat, training: bool, events: seq<Event>, r: RunResult<W>, rest: RunResult<W>)
    requires r == Prepend(events, rest) && Returns(cfg, w0, e + 1, false, rest)
    ensures Returns(cfg, w0, e, training, r)
  {
  }

  /** A run that stopped in epoch `e` returns the tracker as of that epoch. */
  lemma ReturnsStop<W>(cfg: Config<W>, w0: W, e: nat, training: bool, r: RunResult<W>)
    requires cfg.sizes.val > 0 && r.started == e + 1 && !r.training
    requires r.outcome == Ok(Record(cfg, w0, e + 1).bestAcc) && r.weights == Record(cfg, w0, e + 1).bestWts
    ensures Returns(cfg, w0, e, training, r)
  {
  }

  /** A run that went on past epoch `e` made epoch `e`'s calls, then the rest of the run's. */
  lemma CallsNext<W>(cfg: Config<W>, e: nat, events: seq<Event>, r: RunResult<W>, rest: RunResult<W>)
    requires Completes(cfg, e) && OptimizerSteps(events) == |cfg.loaders(e).train|
    requires SchedulerMetrics(events) == [ValAcc(cfg, e) * 100.0]
    requires r == Prepend(events, rest) && Calls(cfg, e + 1, rest)
    ensures Calls(cfg, e, r)
  {
    OptimizerStepsAppend(events, rest.events);
    SchedulerMetricsAppend(events, rest.events);
  }

  /** A run that stopped in epoch `e` made that epoch's calls only. */
  lemma CallsStop<W>(cfg: Config<W>, e: nat, r: RunResult<W>)
    requires Completes(cfg, e) && r.started == e + 1
    requires OptimizerSteps(r.events) == |cfg.loaders(e).train| && SchedulerMetrics(r.events) == [ValAcc(cfg, e) * 100.0]
    ensures Calls(cfg, e, r)
  {
    assert TrainSteps(cfg, e + 1, e + 1) == 0 && Percentages(cfg, e + 1, e + 1) == [];
  }

  /** The reference run from an entered epoch `e` has the shape `Shape` describes. */
  lemma {:induction false} RunShape<W>(cfg: Config<W>, w0: W, e: nat, training: bool)
    requires Entered(cfg, w0, e)
    decreases if e < cfg.numEpochs then cfg.numEpochs - e else 0
    ensures Shape(cfg, w0, e, Run(cfg, e, Record(cfg, w0, e), Weights(cfg, w0, e), training))
  {
    if e < cfg.numEpochs {
      if !Completes(cfg, e) {
        ShapeFailCase(cfg, w0, e, training);
      } else if ShouldStop(Record(cfg, w0, e + 1), e) {
        ShapeStopCase(cfg, w0, e, training);
      } else {
        RunShape(cfg, w0, e + 1, false);
        ShapeNextCase(cfg, w0, e, training);
      }
    }
  }

  /** The three cases of one epoch of `RunShape`. Each case is a lemma of its own, as are
      those of `RunReturns` and `RunCalls` below, so that every proof obligation carries
      the unfolding of one case of `Epoch` only and stays small for the solver. */
  lemma ShapeFailCase<W>(cfg: Config<W>, w0: W, e: nat, training: bool)
    requires Entered(cfg, w0, e) && e < cfg.numEpochs && !Completes(cfg, e)
    ensures Shape(cfg, w0, e, Run(cfg, e, Record(cfg, w0, e), Weights(cfg, w0, e), training))
  {
    RunStepFail(cfg, w0, e, training);
    ShapeFail(cfg, w0, e, Run(cfg, e, Record(cfg, w0, e), Weights(cfg, w0, e), training));
  }

  lemma ShapeStopCase<W>(cfg: Config<W>, w0: W, e: nat, training: bool)
    requires Entered(cfg, w0, e) && e < cfg.numEpochs && Completes(cfg, e)
    requires ShouldStop(Record(cfg, w0, e + 1), e)
    ensures Shape(cfg, w0, e, Run(cfg, e, Record(cfg, w0, e), Weights(cfg, w0, e), training))
  {
    RunStepStop(cfg, w0, e, training);
    ShapeStop(cfg, w0, e, Run(cfg, e, Record(cfg, w0, e), Weights(cfg, w0, e), training));
  }

  lemma ShapeNextCase<W>(cfg: Config<W>, w0: W, e: nat, training: bool)
    requires Entered(cfg, w0, e) && e < cfg.numEpochs && Completes(cfg, e)
    requires !ShouldStop(Record(cfg, w0, e + 1), e)
    requires Shape(cfg, w0, e + 1, Run(cfg, e + 1, Record(cfg, w0, e + 1), Weights(cfg, w0, e + 1), false))
    ensures Shape(cfg, w0, e, Run(cfg, e, Record(cfg, w0, e), Weights(cfg, w0, e), training))
  {
    RunStepNext(cfg, w0, e, training);
    ShapeNext(cfg, w0, e, EpochEvents(cfg, e), Run(cfg, e, Record(cfg, w0, e), Weights(cfg, w0, e), training),
      Run(cfg, e + 1, Record(cfg, w0, e + 1), Weights(cfg, w0, e + 1), false));
  }

  /** A normal return of the reference run from an entered epoch `e` hands back what
      `Returns` describes. */
  lemma {:induction false} RunReturns<W>(cfg: Config<W>, w0: W, e: nat, training: bool)
    requires Entered(cfg, w0, e)
    decreases if e < cfg.numEpochs then cfg.numEpochs - e else 0
    ensures Returns(cfg, w0, e, training, Run(cfg, e, Record(cfg, w0, e), Weights(cfg, w0, e), training))
  {
    if e < cfg.numEpochs {
      if !Completes(cfg, e) {
        ReturnsFailCase(cfg, w0, e, training);
      } else if ShouldStop(Record(cfg, w0, e + 1), e) {
        ReturnsStopCase(cfg, w0, e, training);
      } else {
        RunReturns(cfg, w0, e + 1, false);
        ReturnsNextCase(cfg, w0, e, training);
      }
    }
  }

  /** The three cases of one epoch of `RunReturns`. */
  lemma ReturnsFailCase<W>(cfg: Config<W>, w0: W, e: nat, training: bool)
    requires Entered(cfg, w0, e) && e < cfg.numEpochs && !Completes(cfg, e)
    ensures Returns(cfg, w0, e, training, Run(cfg, e, Record(cfg, w0, e), Weights(cfg, w0, e), training))
  {
    RunStepFail(cfg, w0, e, training);
  }

  lemma ReturnsStopCase<W>(cfg: Config<W>, w0: W, e: nat, training: bool)
    requires Entered(cfg, w0, e) && e < cfg.numEpochs && Completes(cfg, e)
    requires ShouldStop(Record(cfg, w0, e + 1), e)
    ensures Returns(cfg, w0, e, training, Run(cfg, e, Record(cfg, w0, e), Weights(cfg, w0, e), training))
  {
    RunStepStop(cfg, w0, e, training);
    ReturnsStop(cfg, w0, e, training, Run(cfg, e, Record(cfg, w0, e), Weights(cfg, w0, e), training));
  }

  lemma ReturnsNextCase<W>(cfg: Config<W>, w0: W, e: nat, training: bool)
    requires Entered(cfg, w0, e) && e < cfg.numEpochs && Completes(cfg, e)
    requires !ShouldStop(Record(cfg, w0, e + 1), e)
    requires Returns(cfg, w0, e + 1, false, Run(cfg, e + 1, Record(cfg, w0, e + 1), Weights(cfg, w0, e + 1), false))
    ensures Returns(cfg, w0, e, training, Run(cfg, e, Record(cfg, w0, e), Weights(cfg, w0, e), training))
  {
    RunStepNext(cfg, w0, e, training);
    ReturnsNext(cfg, w0, e, training, EpochEvents(cfg, e), Run(cfg, e, Record(cfg, w0, e), Weights(cfg, w0, e), training),
      Run(cfg, e + 1, Record(cfg, w0, e + 1), Weights(cfg, w0, e + 1), false));
  }

  /** A normal return of the reference run from an entered epoch `e` made the calls
      `Calls` describes. */
  lemma {:induction false} RunCalls<W>(cfg: Config<W>, w0: W, e: nat, training: bool)
    requires Entered(cfg, w0, e)
    decreases if e < cfg.numEpochs then cfg.numEpochs - e else 0
    ensures Calls(cfg, e, Run(cfg, e, Record(cfg, w0, e), Weights(cfg, w0, e), training))
  {
    if e < cfg.numEpochs {
      if !Completes(cfg, e) {
        CallsFailCase(cfg, w0, e, training);
      } else if ShouldStop(Record(cfg, w0, e + 1), e) {
        CallsStopCase(cfg, w0, e, training);
      } else {
        RunCalls(cfg, w0, e + 1, false);
        CallsNextCase(cfg, w0, e, training);
      }
    }
  }

  /** The three cases of one epoch of `RunCalls`. */
  lemma CallsFailCase<W>(cfg: Config<W>, w0: W, e: nat, training: bool)
    requires Entered(cfg, w0, e) && e < cfg.numEpochs && !Completes(cfg, e)
    ensures Calls(cfg, e, Run(cfg, e, Record(cfg, w0, e), Weights(cfg, w0, e), training))
  {
    RunStepFail(cfg, w0, e, training);
  }

  lemma CallsStopCase<W>(cfg: Config<W>, w0: W, e: nat, training: bool)
    requires Entered(cfg, w0, e) && e < cfg.numEpochs && Completes(cfg, e)
    requires ShouldStop(Record(cfg, w0, e + 1), e)
    ensures Calls(cfg, e, Run(cfg, e, Record(cfg, w0, e), Weights(cfg, w0, e), training))
  {
    RunStepStop(cfg, w0, e, training);
    EpochCallsHold(cfg, e);
    CallsStop(cfg, e, Run(cfg, e, Record(cfg, w0, e), Weights(cfg, w0, e), training));
  }

  lemma CallsNextCase<W>(cfg: Config<W>, w0: W, e: nat, training: bool)
    requires Entered(cfg, w0, e) && e < cfg.numEpochs && Completes(cfg, e)
    requires !ShouldStop(Record(cfg, w0, e + 1), e)
    requires Calls(cfg, e + 1, Run(cfg, e + 1, Record(cfg, w0, e + 1), Weights(cfg, w0, e + 1), false))
    ensures Calls(cfg, e, Run(cfg, e, Record(cfg, w0, e), Weights(cfg, w0, e), training))
  {
    RunStepNext(cfg, w0, e, training);
    EpochCallsHold(cfg, e);
    CallsNext(cfg, e, EpochEvents(cfg, e), Run(cfg, e, Record(cfg, w0, e), Weights(cfg, w0, e), training),
      Run(cfg, e + 1, Record(cfg, w0, e + 1), Weights(cfg, w0, e + 1), false));
  }

  /** The reference run from the start is the run from epoch 0 entered with the initial
      tracker and weights. */
  lemma RunFromStart<W>(cfg: Config<W>, w0: W, training: bool)
    ensures Run(cfg, 0, Start(w0), w0, training) == Run(cfg, 0, Record(cfg, w0, 0), Weights(cfg, w0, 0), training)
  {
  }

  /** On a normal return `train_model` gives the largest of 0 and every validation
      accuracy of the epochs it ran, and loads the weights seen by the first val phase
      that reached it, or the initial weights when no accuracy exceeded 0. */
  lemma TrainModelReturnsBest<W>(cfg: Config<W>, w0: W, training: bool)
    ensures var r := Run(cfg, 0, Start(w0), w0, training);
      r.outcome.Ok? ==>
        (r.started == 0 || cfg.sizes.val > 0) &&
        r.outcome.value == Best(Accs(cfg, r.started)) &&
        (r.outcome.value > 0.0 ==>
           FirstIndex(Accs(cfg, r.started), r.outcome.value) < r.started &&
           r.weights == Weights(cfg, w0, FirstIndex(Accs(cfg, r.started), r.outcome.value) + 1)) &&
        (r.outcome.value == 0.0 ==> r.weights == w0)
  {
    var r := Run(cfg, 0, Start(w0), w0, training);
    RunFromStart(cfg, w0, training);
    RunReturns(cfg, w0, 0, training);
    BestOf(cfg, w0, training, r);
  }

  /** The accuracy and weights of a normal return described by `Returns`. */
  lemma BestOf<W>(cfg: Config<W>, w0: W, training: bool, r: RunResult<W>)
    requires Returns(cfg, w0, 0, training, r)
    ensures r.outcome.Ok? ==>
      (r.started == 0 || cfg.sizes.val > 0) &&
      r.outcome.value == Best(Accs(cfg, r.started)) &&
      (r.outcome.value > 0.0 ==>
         FirstIndex(Accs(cfg, r.started), r.outcome.value) < r.started &&
         r.weights == Weights(cfg, w0, FirstIndex(Accs(cfg, r.started), r.outcome.value) + 1)) &&
      (r.outcome.value == 0.0 ==> r.weights == w0)
  {
    if r.outcome.Ok? {
      var accs, snaps := Accs(cfg, r.started), Snaps(cfg, w0, r.started);
      RecordIsTrack(cfg, w0, r.started);
      TrackBest(accs, snaps, w0);
      TrackSnapshot(accs, snaps, w0);
      if Best(accs) > 0.0 {
        SnapsAt(cfg, w0, r.started, FirstIndex(accs, Best(accs)));
      }
    }
  }

  /** The snapshot of epoch `i` is the weights after its train phase. */
  lemma {:induction false} SnapsAt<W>(cfg: Config<W>, w0: W, k: nat, i: nat)
    requires i < k
    ensures Snaps(cfg, w0, k)[i] == Weights(cfg, w0, i + 1)
  {
    if i < k - 1 {
      SnapsAt(cfg, w0, k - 1, i);
    }
  }

  /** `train_model` runs exactly `numEpochs` epochs (none when it is not positive) unless
      the stopping test fires after the val phase of an earlier epoch, which it cannot do
      before epoch index 8; no epoch before the last one run stopped or raised. */
  lemma TrainModelStops<W>(cfg: Config<W>, w0: W, training: bool)
    ensures var r := Run(cfg, 0, Start(w0), w0, training);
      && (r.outcome.Ok? ==>
            (r.started == (if cfg.numEpochs > 0 then cfg.numEpochs else 0) ||
             (Patience < r.started < cfg.numEpochs && ShouldStop(Record(cfg, w0, r.started), r.started - 1))))
      && (forall k :: 0 <= k < r.started - 1 ==> Completes(cfg, k) && !ShouldStop(Record(cfg, w0, k + 1), k))
  {
    var r := Run(cfg, 0, Start(w0), w0, training);
    RunFromStart(cfg, w0, training);
    RunShape(cfg, w0, 0, training);
    StopsOf(cfg, w0, r);
  }

  /** The stopping epoch of a run of shape `Shape`. */
  lemma StopsOf<W>(cfg: Config<W>, w0: W, r: RunResult<W>)
    requires Shape(cfg, w0, 0, r)
    ensures r.outcome.Ok? ==>
      (r.started == (if cfg.numEpochs > 0 then cfg.numEpochs else 0) ||
       (Patience < r.started < cfg.numEpochs && ShouldStop(Record(cfg, w0, r.started), r.started - 1)))
  {
    if r.outcome.Ok? && 0 < r.started < cfg.numEpochs {
      AccsNonnegative(cfg, r.started);
      RecordIsTrack(cfg, w0, r.started);
      NoStopBeforePatience(Accs(cfg, r.started), Snaps(cfg, w0, r.started), w0);
    }
  }

  /** The optimizer steps once per train batch of every epoch run and the scheduler once
      per epoch, with that epoch's validation accuracy times 100. */
  lemma TrainModelCalls<W>(cfg: Config<W>, w0: W, training: bool)
    ensures var r := Run(cfg, 0, Start(w0), w0, training);
      r.outcome.Ok? ==>
        (r.started == 0 || cfg.sizes.val > 0) &&
        OptimizerSteps(r.events) == TrainSteps(cfg, 0, r.started) &&
        SchedulerMetrics(r.events) == Percentages(cfg, 0, r.started) &&
        |SchedulerMetrics(r.events)| == r.started
  {
    var r := Run(cfg, 0, Start(w0), w0, training);
    RunFromStart(cfg, w0, training);
    RunCalls(cfg, w0, 0, training);
    if r.outcome.Ok? {
      PercentagesLength(cfg, 0, r.started);
    }
  }

  /** One percentage per epoch. */
  lemma {:induction false} PercentagesLength<W>(cfg: Config<W>, from: nat, to: nat)
    requires from >= to || cfg.sizes.val > 0
    decreases if from < to then to - from else 0
    ensures |Percentages(cfg, from, to)| == if from >= to then 0 else to - from
  {
    if from < to {
      PercentagesLength(cfg, from + 1, to);
    }
  }

  /** When a phase raises, `train_model` raises the exception of the first epoch that
      cannot divide, and the model keeps its last trained weights: the best snapshot is
      not loaded back. */
  lemma TrainModelFailure<W>(cfg: Config<W>, w0: W, training: bool)
    ensures var r := Run(cfg, 0, Start(w0), w0, training);
      r.outcome.Err? ==>
        0 < r.started <= cfg.numEpochs &&
        (forall k :: 0 <= k < r.started - 1 ==> Completes(cfg, k)) &&
        !Completes(cfg, r.started - 1) && r.outcome.error == FailureAt(cfg, r.started - 1) &&
        r.weights == Weights(cfg, w0, r.started)
  {
    RunFromStart(cfg, w0, training);
    RunShape(cfg, w0, 0, training);
  }

  /** With a zero-sized partition the very first epoch raises: the train partition's
      division by zero before anything else; otherwise a train phase without batches
      fails first, and else the val partition's division by zero after one train phase. */
  lemma ZeroSizedPartition<W>(cfg: Config<W>, w0: W, training: bool)
    requires cfg.numEpochs > 0 && (cfg.sizes.train == 0 || cfg.sizes.val == 0)
    ensures var r := Run(cfg, 0, Start(w0), w0, training);
      r.started == 1 &&
      r.outcome == Err(
        if cfg.sizes.train == 0 then ZeroPartitionSize(Train)
        else if cfg.loaders(0).train == [] then NoBatches(Train)
        else ZeroPartitionSize(Val))
  {
    var r := Run(cfg, 0, Start(w0), w0, training);
    RunFromStart(cfg, w0, training);
    RunShape(cfg, w0, 0, training);
    ZeroSizedOf(cfg, w0, r);
  }

  /** The exception of a run of shape `Shape` when a partition has size 0. */
  lemma ZeroSizedOf<W>(cfg: Config<W>, w0: W, r: RunResult<W>)
    requires cfg.numEpochs > 0 && (cfg.sizes.train == 0 || cfg.sizes.val == 0)
    requires Shape(cfg, w0, 0, r)
    ensures r.started == 1
    ensures r.outcome == Err(
      if cfg.sizes.train == 0 then ZeroPartitionSize(Train)
      else if cfg.loaders(0).train == [] then NoBatches(Train)
      else ZeroPartitionSize(Val))
  {
    assert !Completes(cfg, 0) && !Completes(cfg, r.started - 1);
  }

  /** A single epoch that completes returns its own validation accuracy, with the
      counter at 0. */
  lemma OneEpoch<W>(cfg: Config<W>, w0: W, training: bool)
    requires cfg.numEpochs == 1 && Completes(cfg, 0)
    ensures var r := Run(cfg, 0, Start(w0), w0, training);
      cfg.sizes.val > 0 && r.outcome == Ok(ValAcc(cfg, 0)) && r.started == 1 &&
      Record(cfg, w0, 1).noImprove == 0
  {
    var r := Run(cfg, 0, Start(w0), w0, training);
    RunFromStart(cfg, w0, training);
    RunShape(cfg, w0, 0, training);
    RunReturns(cfg, w0, 0, training);
    OneEpochOf(cfg, w0, training, r);
  }

  /** The result of a one-epoch run described by `Shape` and `Returns`. */
  lemma OneEpochOf<W>(cfg: Config<W>, w0: W, training: bool, r: RunResult<W>)
    requires cfg.numEpochs == 1 && Completes(cfg, 0)
    requires Shape(cfg, w0, 0, r) && Returns(cfg, w0, 0, training, r)
    ensures cfg.sizes.val > 0 && r.outcome == Ok(ValAcc(cfg, 0)) && r.started == 1
    ensures Record(cfg, w0, 1).noImprove == 0
  {
    assert r.started == 1;
    assert r.outcome.Ok?;
    AccuracyMeaning(Sum(cfg.loaders(0).val), cfg.sizes.val);
    assert Record(cfg, w0, 1) == Observe(Start(w0), ValAcc(cfg, 0), Weights(cfg, w0, 1));
  }
}
