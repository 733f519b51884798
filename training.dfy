/** The training-loop driver `train_model` of mrclass_resnet/train_model.py, with the
    network, the loss and the optimizer's update rule abstracted: each batch contributes
    its number of correct predictions, and each optimizer step is an opaque function of
    the current weights, the epoch and the step index. */
module Training {
  import opened Statistics
  import opened Tracking

  /** `dataset_sizes`: the cardinality of each partition. */
  datatype Sizes = Sizes(train: nat, val: nat)

  /** What the two loaders yield in one epoch: the number of correct predictions of
      every batch, in order. */
  datatype Loaders = Loaders(train: seq<nat>, val: seq<nat>)

  /** The inputs of `train_model` other than the model: the batches of every epoch, the
      optimizer's update rule, `num_epochs` and `dataset_sizes`. */
  datatype Config<!W> = Config(loaders: nat -> Loaders, update: (W, nat, nat) -> W, numEpochs: int, sizes: Sizes)

  /** How a run ends: the returned accuracy or the exception raised, the model's weights
      and mode at that point, the optimizer and scheduler calls made, and how many epochs
      were begun. */
  datatype RunResult<W> = RunResult(outcome: Result<real>, weights: W, training: bool, events: seq<Event>, started: nat)

  /** What one epoch does: either the run ends in it, or it hands the next epoch the
      tracker, the weights and the calls made so far. */
  datatype EpochStep<W> = Halt(result: RunResult<W>) | Next(tracker: Tracker<W>, weights: W, events: seq<Event>)

  /** The model: its weights, updated in place, and its train/eval mode. */
  class Model<W> {
    var weights: W
    var training: bool

    constructor (w: W)
      ensures weights == w && training
    {
      weights := w;
      training := true;
    }
  }

  /** The weights after the first `steps` optimizer steps of the train phase of `epoch`. */
  function Trained<W>(w: W, epoch: nat, steps: nat, update: (W, nat, nat) -> W): W
  {
    if steps == 0 then w else update(Trained(w, epoch, steps - 1, update), epoch, steps - 1)
  }

  function Prepend<W>(events: seq<Event>, r: RunResult<W>): RunResult<W>
  {
    r.(events := events + r.events)
  }

  lemma PrependTwice<W>(a: seq<Event>, b: seq<Event>, r: RunResult<W>)
    ensures Prepend(a, Prepend(b, r)) == Prepend(a + b, r)
  {
    assert a + (b + r.events) == (a + b) + r.events;
  }

  /** Epoch `e` of the reference run, entered with tracker `t` and live weights `w`. */
  function Epoch<W>(cfg: Config<W>, e: nat, t: Tracker<W>, w: W): EpochStep<W>
  {
    var data := cfg.loaders(e);
    var w1 := Trained(w, e, |data.train|, cfg.update);
    var trainEvents := PhaseEvents(Train, |data.train|);
    match PhaseAccuracy(Train, data.train, cfg.sizes.train)
    case Err(f) => Halt(RunResult(Err(f), w1, true, trainEvents, e + 1))
    case Ok(_) =>
      if ShouldStop(t, e) then Halt(RunResult(Ok(t.bestAcc), t.bestWts, true, trainEvents, e + 1))
      else
        var phaseEvents := trainEvents + PhaseEvents(Val, |data.val|);
        match PhaseAccuracy(Val, data.val, cfg.sizes.val)
        case Err(f) => Halt(RunResult(Err(f), w1, false, phaseEvents, e + 1))
        case Ok(acc) =>
          var t1 := Observe(t, acc, w1);
          var events := phaseEvents + [SchedulerStep(acc * 100.0)];
          if ShouldStop(t1, e) then Halt(RunResult(Ok(t1.bestAcc), t1.bestWts, false, events, e + 1))
          else Next(t1, w1, events)
  }

  /** The reference run from epoch `e` on, entered with tracker `t`, live weights `w` and
      mode `training`. */
  function Run<W>(cfg: Config<W>, e: nat, t: Tracker<W>, w: W, training: bool): RunResult<W>
    decreases if e < cfg.numEpochs then cfg.numEpochs - e else 0
  {
    if e >= cfg.numEpochs then RunResult(Ok(t.bestAcc), t.bestWts, training, [], e)
    else
      match Epoch(cfg, e, t, w)
      case Halt(r) => r
      case Next(t1, w1, events) => Prepend(events, Run(cfg, e + 1, t1, w1, false))
  }

  lemma RunUnfold<W>(cfg: Config<W>, e: nat, t: Tracker<W>, w: W, training: bool)
    requires e < cfg.numEpochs
    ensures var step := Epoch(cfg, e, t, w);
            Run(cfg, e, t, w, training) ==
              if step.Halt? then step.result else Prepend(step.events, Run(cfg, e + 1, step.tracker, step.weights, false))
  {
  }

  /** One phase: set the mode, run every batch (clearing the gradients, and in the train
      phase stepping the optimizer), sum the correct counts, and divide by the partition
      size. */
  method RunPhase<W>(model: Model<W>, phase: Phase, epoch: nat, batches: seq<nat>, size: nat, update: (W, nat, nat) -> W)
    returns (acc: Result<real>, events: seq<Event>)
    modifies model
    ensures model.training == (phase == Train)
    ensures model.weights == if phase == Train then Trained(old(model.weights), epoch, |batches|, update) else old(model.weights)
    ensures events == PhaseEvents(phase, |batches|)
    ensures acc == PhaseAccuracy(phase, batches, size)
  {
    model.training := phase == Train;
    var corrects: nat := 0;
    events := [];
    var step := 0;
    while step < |batches|
      invariant 0 <= step <= |batches|
      invariant model.training == (phase == Train)
      invariant corrects == Sum(batches[..step])
      invariant events == PhaseEvents(phase, step)
      invariant model.weights == if phase == Train then Trained(old(model.weights), epoch, step, update) else old(model.weights)
    {
      events := events + [ZeroGrad];
      if phase == Train {
        model.weights := update(model.weights, epoch, step);
        events := events + [OptimizerStep];
      }
      assert batches[..step + 1][..step] == batches[..step];
      corrects := corrects + batches[step];
      step := step + 1;
    }
    assert batches[..step] == batches;
    if size == 0 {
      acc := Err(ZeroPartitionSize(phase));
    } else if step == 0 {
      acc := Err(NoBatches(phase));
    } else {
      acc := Ok(corrects as real / size as real);
    }
  }

  /** One pass of the `for epoch` loop of `train_model`: the train phase, the stopping
      test, the val phase with the scheduler step and best-model tracking, and the
      stopping test again. On an exception or a stop the run ends here, with the best
      snapshot loaded back into the model on a stop. */
  method TrainEpoch<W>(model: Model<W>, cfg: Config<W>, epoch: nat, t: Tracker<W>) returns (step: EpochStep<W>)
    modifies model
    ensures step == Epoch(cfg, epoch, t, old(model.weights))
    ensures step.Halt? ==> model.weights == step.result.weights && model.training == step.result.training
    ensures step.Next? ==> model.weights == step.weights && !model.training
  {
    var bestAcc, noImprove, bestWts := t.bestAcc, t.noImprove, t.bestWts;
    var data := cfg.loaders(epoch);

    var trainAcc, trainEvents := RunPhase(model, Train, epoch, data.train, cfg.sizes.train, cfg.update);
    if trainAcc.Err? {
      return Halt(RunResult(Err(trainAcc.error), model.weights, true, trainEvents, epoch + 1));
    }
    if noImprove >= Patience && epoch > WarmupEpoch {
      model.weights := bestWts;
      return Halt(RunResult(Ok(bestAcc), model.weights, true, trainEvents, epoch + 1));
    }

    var valAcc, valEvents := RunPhase(model, Val, epoch, data.val, cfg.sizes.val, cfg.update);
    var events := trainEvents + valEvents;
    if valAcc.Err? {
      return Halt(RunResult(Err(valAcc.error), model.weights, false, events, epoch + 1));
    }
    var acc := valAcc.value;
    events := events + [SchedulerStep(acc * 100.0)];
    if acc > bestAcc {
      bestAcc := acc;
      noImprove := 0;
      bestWts := model.weights;
    } else if acc < bestAcc {
      noImprove := noImprove + 1;
    }
    if noImprove >= Patience && epoch > WarmupEpoch {
      model.weights := bestWts;
      return Halt(RunResult(Ok(bestAcc), model.weights, false, events, epoch + 1));
    }
    step := Next(Tracker(bestAcc, noImprove, bestWts), model.weights, events);
  }

  /** `train_model`: at most `numEpochs` epochs of a train phase and a val phase, with
      best-model tracking after every val phase and the early-stopping test after every
      phase; on either normal exit the best snapshot is loaded back into the model. */
  method TrainModel<W>(model: Model<W>, cfg: Config<W>) returns (outcome: Result<real>, events: seq<Event>, ghost started: nat)
    modifies model
    ensures var r := Run(cfg, 0, Start(old(model.weights)), old(model.weights), old(model.training));
            outcome == r.outcome && events == r.events && started == r.started &&
            model.weights == r.weights && model.training == r.training
  {
    ghost var expected := Run(cfg, 0, Start(model.weights), model.weights, model.training);
    var tracker := Start(model.weights);
    events := [];
    var epoch: nat := 0;
    while epoch < cfg.numEpochs
      invariant expected == Prepend(events, Run(cfg, epoch, tracker, model.weights, model.training))
      decreases cfg.numEpochs - epoch
    {
      RunUnfold(cfg, epoch, tracker, model.weights, model.training);
      var step := TrainEpoch(model, cfg, epoch, tracker);
      if step.Halt? {
        outcome, started := step.result.outcome, step.result.started;
        events := events + step.result.events;
        return;
      }
      PrependTwice(events, step.events, Run(cfg, epoch + 1, step.tracker, step.weights, false));
      events := events + step.events;
      tracker := step.tracker;
      epoch := epoch + 1;
    }
    model.weights := tracker.bestWts;
    outcome, started := Ok(tracker.bestAcc), epoch;
  }
}
