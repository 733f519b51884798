/** The per-phase statistics of the training loop in mrclass_resnet/train_model.py:
    the phases, the failures the division at the end of a phase can raise, the calls
    made to the optimizer and the scheduler, and the accuracy of one phase. */
module Statistics {

  /** The two phases of every epoch, run in this order. */
  datatype Phase = Train | Val

  /** What ends a phase with an exception instead of a statistic.
      ZeroPartitionSize: `dataset_sizes[phase]` is 0, so `running_loss / 0` raises.
      NoBatches: the loader produced no batch, so `running_corrects` is still the plain
      integer 0 and has no `double()` conversion. */
  datatype Failure = ZeroPartitionSize(phase: Phase) | NoBatches(phase: Phase)

  datatype Result<T> = Ok(value: T) | Err(error: Failure)

  /** Calls into the optimizer and the scheduler, in the order they are made. */
  datatype Event = ZeroGrad | OptimizerStep | SchedulerStep(metric: real)

  /** Sum of the per-batch correct counts. */
  function Sum(s: seq<nat>): nat
  {
    if s == [] then 0 else Sum(s[..|s| - 1]) + s[|s| - 1]
  }

  /** The accuracy of a phase: correct predictions over the size of the partition. */
  function Accuracy(corrects: nat, size: nat): real
    requires size > 0
  {
    corrects as real / size as real
  }

  /** The accuracy times the partition size gives back the correct count; it is at least
      0, and at most 1 when the correct count does not exceed the partition size. */
  lemma AccuracyMeaning(corrects: nat, size: nat)
    requires size > 0
    ensures Accuracy(corrects, size) * size as real == corrects as real
    ensures 0.0 <= Accuracy(corrects, size)
    ensures corrects <= size ==> Accuracy(corrects, size) <= 1.0
  {
    var acc, n := Accuracy(corrects, size), size as real;
    if corrects <= size {
      assert (1.0 - acc) * n == n - corrects as real >= 0.0;
    }
  }

  /** With one partition size, accuracies compare exactly as correct counts do. */
  lemma AccuracyOrder(a: nat, b: nat, size: nat)
    requires size > 0
    ensures Accuracy(a, size) < Accuracy(b, size) <==> a < b
    ensures Accuracy(a, size) == Accuracy(b, size) <==> a == b
  {
    AccuracyMeaning(a, size);
    AccuracyMeaning(b, size);
    var x, y, n := Accuracy(a, size), Accuracy(b, size), size as real;
    assert (y - x) * n == (b - a) as real;
    if x < y {
      assert (y - x) * n > 0.0;
    } else if y < x {
      assert (x - y) * n > 0.0;
    }
  }

  /** The accuracy a phase reports once all its batches are counted, or the exception
      raised by the divisions at the end of the phase (the loss is divided first). */
  function PhaseAccuracy(phase: Phase, batches: seq<nat>, size: nat): (r: Result<real>)
    ensures r.Err? <==> size == 0 || batches == []
    ensures r.Err? ==> r.error.phase == phase && (r.error.ZeroPartitionSize? <==> size == 0)
    ensures r.Ok? ==> r.value == Accuracy(Sum(batches), size)
  {
    if size == 0 then Err(ZeroPartitionSize(phase))
    else if batches == [] then Err(NoBatches(phase))
    else Ok(Accuracy(Sum(batches), size))
  }

  /** The correct counts of consecutive batches add up. */
  lemma {:induction false} SumAppend(a: seq<nat>, b: seq<nat>)
    ensures Sum(a + b) == Sum(a) + Sum(b)
    decreases |b|
  {
    if b == [] {
      assert a + b == a;
    } else {
      var n := |b| - 1;
      assert (a + b)[..|a + b| - 1] == a + b[..n];
      SumAppend(a, b[..n]);
    }
  }

  /** A phase that succeeds reports an accuracy that, times the partition size, gives
      back the correct predictions of all its batches; it is at least 0, and at most 1
      when those do not outnumber the partition. */
  lemma PhaseAccuracyMeaning(phase: Phase, batches: seq<nat>, size: nat)
    ensures var r := PhaseAccuracy(phase, batches, size);
            r.Ok? ==> r.value * size as real == Sum(batches) as real && 0.0 <= r.value
                      && (Sum(batches) <= size ==> r.value <= 1.0)
  {
    if size > 0 {
      AccuracyMeaning(Sum(batches), size);
    }
  }

  /** How the partition is cut into batches does not matter: batches `a` and the
      concatenation of batches `b` and `c`, with the same total of correct
      predictions, give the same phase result. */
  lemma PhaseAccuracySplit(phase: Phase, a: seq<nat>, b: seq<nat>, c: seq<nat>, size: nat)
    requires a != [] && b + c != []
    requires Sum(a) == Sum(b) + Sum(c)
    ensures PhaseAccuracy(phase, a, size) == PhaseAccuracy(phase, b + c, size)
  {
    SumAppend(b, c);
  }

  /** Uneven batches of 3, 5 and 2 correct predictions over a partition of 20 give 0.5,
      and so does one batch of 10. */
  lemma UnevenBatches()
    ensures PhaseAccuracy(Val, [3, 5, 2], 20) == Ok(0.5)
    ensures PhaseAccuracy(Val, [3, 5, 2], 20) == PhaseAccuracy(Val, [10], 20)
  {
    assert Sum([3, 5, 2]) == 10 by {
      assert [3, 5, 2][..2] == [3, 5];
      assert [3, 5][..1] == [3];
      assert [3][..0] == [];
    }
  }

  /** The calls one phase of `steps` batches makes: every batch clears the gradients,
      and only a training batch is followed by an optimizer step. */
  function PhaseEvents(phase: Phase, steps: nat): seq<Event>
  {
    if steps == 0 then []
    else PhaseEvents(phase, steps - 1) + (if phase == Train then [ZeroGrad, OptimizerStep] else [ZeroGrad])
  }

  /** Number of optimizer steps in a sequence of calls. */
  function OptimizerSteps(events: seq<Event>): nat
  {
    if events == [] then 0
    else OptimizerSteps(events[..|events| - 1]) + (if events[|events| - 1] == OptimizerStep then 1 else 0)
  }

  /** The metrics handed to the scheduler, in order. */
  function SchedulerMetrics(events: seq<Event>): seq<real>
  {
    if events == [] then []
    else
      var last := events[|events| - 1];
      SchedulerMetrics(events[..|events| - 1]) + (if last.SchedulerStep? then [last.metric] else [])
  }

  lemma {:induction false} OptimizerStepsAppend(a: seq<Event>, b: seq<Event>)
    ensures OptimizerSteps(a + b) == OptimizerSteps(a) + OptimizerSteps(b)
    decreases |b|
  {
    if b != [] {
      var n := |b| - 1;
      assert (a + b)[..|a + b| - 1] == a + b[..n];
      OptimizerStepsAppend(a, b[..n]);
    } else {
      assert a + b == a;
    }
  }

  lemma {:induction false} SchedulerMetricsAppend(a: seq<Event>, b: seq<Event>)
    ensures SchedulerMetrics(a + b) == SchedulerMetrics(a) + SchedulerMetrics(b)
    decreases |b|
  {
    if b != [] {
      var n := |b| - 1;
      assert (a + b)[..|a + b| - 1] == a + b[..n];
      SchedulerMetricsAppend(a, b[..n]);
    } else {
      assert a + b == a;
    }
  }

  /** A phase of `steps` batches steps the optimizer once per batch in the train phase,
      never in the val phase, and never calls the scheduler. */
  lemma {:induction false} PhaseEventsCount(phase: Phase, steps: nat)
    ensures OptimizerSteps(PhaseEvents(phase, steps)) == (if phase == Train then steps else 0)
    ensures SchedulerMetrics(PhaseEvents(phase, steps)) == []
  {
    if steps > 0 {
      PhaseEventsCount(phase, steps - 1);
      var tail := if phase == Train then [ZeroGrad, OptimizerStep] else [ZeroGrad];
      OptimizerStepsAppend(PhaseEvents(phase, steps - 1), tail);
      SchedulerMetricsAppend(PhaseEvents(phase, steps - 1), tail);
      assert [ZeroGrad, OptimizerStep][..1] == [ZeroGrad];
      assert OptimizerSteps(tail) == (if phase == Train then 1 else 0);
      assert SchedulerMetrics(tail) == [];
    }
  }
}
