# train_model: a verified model of the MR-class training loop

`train_model` (mrclass_resnet/train_model.py) trains a classifier for at most
`num_epochs` epochs. Each epoch runs a train phase and then a val phase. The
function keeps three loop variables: `best_acc`, `epochs_no_improve` and
`best_model_wts`. After the val phase it moves them by a fixed rule. After every
phase it tests the early-stopping condition `epochs_no_improve >= 8 and epoch > 5`.
On either exit it loads the best snapshot back into the model and returns `best_acc`.

This project models that loop with the network abstracted away:

- The weights are an opaque type `W`.
- One optimizer step is a given function `update(weights, epoch, step)`.
- Each batch contributes only its number of correct predictions; the loaders of
  epoch `e` are `cfg.loaders(e)`.
- Calls to the optimizer and the scheduler are recorded as a trace of events.

The modules are:

- `Statistics` (statistics.dfy): phases, the exceptions a phase can raise, the
  event trace, and the accuracy of one phase.
- `Tracking` (tracking.dfy): the three loop variables as a `Tracker`, the update
  rule `Observe`, the stopping test, and what the rule amounts to over a whole
  sequence of validation accuracies.
- `Training` (training.dfy): the model as a class with mutable `weights` and
  `training` mode. The loop itself is written as the methods `RunPhase`,
  `TrainEpoch` and `TrainModel`. `RunPhase` is proved to compute `PhaseAccuracy`,
  `PhaseEvents` and `Trained`; `TrainEpoch` is proved equal to the reference function
  `Epoch`, and `TrainModel` to the reference function `Run`.
- `TrainingProofs` (training_proofs.dfy): what `Run` amounts to. This covers the
  accuracy and weights returned, the exact stopping epoch, the optimizer and
  scheduler calls, and the exceptions.

Three behaviours of the code are worth stating explicitly:

- **Zero-sized partition.** When `dataset_sizes[phase]` is 0, `running_loss / dataset_sizes[phase]`
  divides a Python float by the int 0 and raises `ZeroDivisionError` (line 59). No
  NaN is produced. When a loader yields no batch, `running_corrects` is still the int 0,
  and `0.double()` raises `AttributeError` (line 60). The model returns these as
  `Err(ZeroPartitionSize(phase))` and `Err(NoBatches(phase))`, checked in that order.
  After an exception, the model keeps its last trained weights; no snapshot is restored.
- **Stopping test.** The test at line 85 is inside the `for phase` loop, so it runs
  after both the train and the val phase, and the model does the same.
  `TrainPhaseNeverStops` proves that the test after a train phase can never fire.
- **Ties and worse epochs.** Line 77 compares each accuracy with `best_acc`, not with
  the previous epoch. On the trace 0.5, 0.6, 0.55, 0.55, 0.4, 0.3, 0.2, 0.1, 0.05, 0.01
  the second 0.55 is compared with 0.6 and counts as worse. The counter is 7 after
  epoch 8 and reaches 8 after epoch 9, where training stops (`StalledTrace`).

## Model

| member | source | states |
|---|---|---|
| Statistics.AccuracyMeaning | mrclass_resnet/train_model.py:60 | The phase accuracy times the partition size gives back the summed correct count. It is at least 0, and at most 1 when the correct count does not exceed the partition size. |
| Statistics.AccuracyOrder | mrclass_resnet/train_model.py:60 | With one partition size, accuracies compare (`<` and `==`) exactly as the integer correct counts do. |
| Statistics.PhaseAccuracy | mrclass_resnet/train_model.py:29-60 | A phase raises exactly when its partition size is 0 or its loader is empty, and the exception names the phase. A zero size is reported first, as the loss is divided before the accuracy. Otherwise the result is the accuracy of the summed correct counts over the partition size. |
| Statistics.SumAppend | mrclass_resnet/train_model.py:57 | The running correct count of consecutive runs of batches is the sum of their counts. |
| Statistics.PhaseAccuracyMeaning | mrclass_resnet/train_model.py:29-60 | A phase that returns a value reports one that, times the partition size, gives back the correct predictions of all its batches. It is at least 0, and at most 1 when those do not exceed the partition size. |
| Statistics.PhaseAccuracySplit | mrclass_resnet/train_model.py:33-60 | The split into batches does not matter. Any two non-empty batchings with the same total correct count, one of them concatenated from two parts, give the same phase result, because the division is by the partition size and not by the batch count. |
| Statistics.UnevenBatches | mrclass_resnet/train_model.py:56-60 | Uneven batches of 3, 5 and 2 correct predictions over a partition of 20 give 0.5, the same as one batch of 10. |
| Statistics.PhaseEvents | mrclass_resnet/train_model.py:41-53 | Definition without a contract: the calls one phase makes, namely one gradient clearing per batch, followed in the train phase by one optimizer step. Its counts are stated by `PhaseEventsCount`. |
| Statistics.PhaseEventsCount | mrclass_resnet/train_model.py:41-53 | A train phase of n batches steps the optimizer exactly n times. A val phase never steps it. Neither phase calls the scheduler. |
| Tracking.Start | mrclass_resnet/train_model.py:9-11 | Definition without a contract: the loop variables before the first epoch, namely `best_acc` 0, `epochs_no_improve` 0 and the initial weights as the snapshot. `TrackBest`, `TrackSnapshot` and `TrackCounter` cover it as the empty case. |
| Tracking.Observe | mrclass_resnet/train_model.py:73-78 | `best_acc` becomes the larger of itself and the accuracy, and grows exactly on strict improvement. Strict improvement resets the counter and takes the snapshot. Otherwise the snapshot is kept. The counter grows by one exactly on a strictly worse accuracy. A tie changes nothing, and only a tie leaves the tracker unchanged. |
| Tracking.ShouldStop | mrclass_resnet/train_model.py:85 | Definition without a contract: the stopping test `epochs_no_improve >= 8 and epoch > 5`. `NoStopBeforePatience` and `TrainPhaseNeverStops` state when it can fire. |
| Tracking.Best | mrclass_resnet/train_model.py:10 | The reference maximum is at least 0, at least every accuracy, and is either 0 or one of the accuracies. |
| Tracking.TrackBest | mrclass_resnet/train_model.py:73-74 | After any sequence of val phases, `best_acc` is the maximum of 0 and every accuracy seen. |
| Tracking.BestMonotone | mrclass_resnet/train_model.py:73-74 | `best_acc` never decreases from one val phase to a later one. |
| Tracking.TrackSnapshot | mrclass_resnet/train_model.py:73-76 | `best_model_wts` holds the weights seen by the first val phase that reached the maximum. If no accuracy ever exceeded 0, it holds the initial weights. |
| Tracking.TrackCounter | mrclass_resnet/train_model.py:73-78 | `epochs_no_improve` counts the val phases after the first one that reached the maximum whose accuracy fell strictly below it. |
| Tracking.CounterBound | mrclass_resnet/train_model.py:77-78 | With non-negative accuracies, the counter after the val phase of epoch e is at most e. |
| Tracking.NoStopBeforePatience | mrclass_resnet/train_model.py:85 | The stopping test cannot fire in the val phase of an epoch with index below 8. |
| Tracking.StalledTrace | mrclass_resnet/train_model.py:73-85 | On the trace 0.5, 0.6, 0.55, 0.55, 0.4, 0.3, 0.2, 0.1, 0.05, 0.01, the tracker is (0.6, 7, snapshot of epoch 1) after epoch 8, which does not stop. It is (0.6, 8, the same snapshot) after epoch 9, where training stops. |
| Training.Trained | mrclass_resnet/train_model.py:41-53 | Definition without a contract: the weights after the optimizer steps of one train phase, one step per batch, each applied to the result of the previous one. `RunPhase` is proved to leave the model with these weights. |
| Training.Epoch | mrclass_resnet/train_model.py:21-98 | Definition without a contract: one epoch of the reference loop. The train phase runs, then the test after it; the val phase runs, then the scheduler step, the update rule and the test after it. It ends with an exception, a stop with the snapshot restored, or a hand-on to the next epoch. `EpochNextFrom`, `EpochStopFrom`, `EpochFailFrom` and the `RunStep` lemmas characterise it. |
| Training.Run | mrclass_resnet/train_model.py:13-108 | Definition without a contract: the reference loop over `range(num_epochs)`. When the epochs run out, it restores the snapshot and returns `best_acc`. `RunShape`, `RunReturns`, `RunCalls` and the `TrainModel` theorems characterise it. |
| Training.RunPhase | mrclass_resnet/train_model.py:21-60 | One phase sets the mode (train or eval). It clears the gradients once per batch and, only in the train phase, steps the optimizer once per batch. It returns the phase accuracy of that phase's own batches, or its exception. |
| Training.TrainEpoch | mrclass_resnet/train_model.py:21-98 | One pass of the epoch loop equals the reference `Epoch`. On a stop the best snapshot is loaded into the model. On an exception the trained weights stay. Otherwise the new tracker and weights are handed on. |
| Training.TrainModel | mrclass_resnet/train_model.py:6-108 | The whole loop returns exactly what the reference `Run` from the initial tracker returns. This covers the outcome, the call trace, the epochs begun, and the model's final weights and mode. |
| TrainingProofs.RecordIsTrack | mrclass_resnet/train_model.py:71-78 | The tracker after k epochs is the fold of the update rule over those epochs' validation accuracies and trained weights. |
| TrainingProofs.AccsNonnegative | mrclass_resnet/train_model.py:60 | Every validation accuracy is at least 0. |
| TrainingProofs.TrainPhaseNeverStops | mrclass_resnet/train_model.py:85 | The stopping test after the train phase of an epoch reached through the loop never fires. |
| TrainingProofs.EpochCallsHold | mrclass_resnet/train_model.py:41-72 | A completed epoch steps the optimizer once per train batch. It steps the scheduler once, with the validation accuracy times 100. |
| TrainingProofs.RunStepNext | mrclass_resnet/train_model.py:21-85 | An epoch that completes without stopping hands the run on to the next epoch, with the moved tracker and the trained weights, after its own calls. |
| TrainingProofs.RunStepStop | mrclass_resnet/train_model.py:85-98 | An epoch that completes and stops returns the moved tracker's accuracy and snapshot, in eval mode. |
| TrainingProofs.RunStepFail | mrclass_resnet/train_model.py:59-60 | An epoch that does not complete raises its first failing phase's exception and leaves the trained weights in the model. |
| TrainingProofs.RunShape | mrclass_resnet/train_model.py:13-98 | Every epoch before the last one begun completed without stopping. A normal return before `num_epochs` is a stop after the last val phase. An exception is the last epoch's. |
| TrainingProofs.RunReturns | mrclass_resnet/train_model.py:97-108 | A normal return hands back the tracker's accuracy and snapshot as of the last epoch begun. |
| TrainingProofs.RunCalls | mrclass_resnet/train_model.py:41-72 | A normal return made one optimizer step per train batch and one scheduler step per epoch begun. |
| TrainingProofs.TrainModelReturnsBest | mrclass_resnet/train_model.py:97-108 | On either normal exit the returned accuracy is the maximum of 0 and every validation accuracy of the epochs run. The model's weights are those after the train phase of the first epoch that reached it, or the initial weights when none exceeded 0. |
| TrainingProofs.TrainModelStops | mrclass_resnet/train_model.py:13-98 | A normal return ran exactly `max(num_epochs, 0)` epochs, or stopped after the val phase of an epoch with index at least 8 where the stopping test holds. No earlier epoch stopped or raised. |
| TrainingProofs.TrainModelCalls | mrclass_resnet/train_model.py:41-72 | On a normal return the optimizer stepped once per train batch of every epoch run. The scheduler stepped once per epoch, with that epoch's accuracy times 100, in epoch order. |
| TrainingProofs.TrainModelFailure | mrclass_resnet/train_model.py:59-60 | An exception is raised by the first epoch that cannot divide, every earlier epoch having completed. The model keeps that epoch's trained weights, not the best snapshot. |
| TrainingProofs.ZeroSizedPartition | mrclass_resnet/train_model.py:59-60 | With a partition of size 0 the first epoch raises. The error is `ZeroDivisionError` for a zero train size; otherwise `AttributeError` for an empty train loader; otherwise `ZeroDivisionError` for the val size. |
| TrainingProofs.OneEpoch | mrclass_resnet/train_model.py:13-108 | With `num_epochs == 1` and a completing epoch, the returned accuracy is that epoch's validation accuracy and the counter is 0. |

## Left out

- The forward pass, `criterion`, `loss.backward()`, `.to(device)` and `torch.max`/`torch.sum` are calls into torch. Each batch is reduced to its number of correct predictions.
- The loss values `running_loss` and `epoch_loss` are left out, since no decision depends on them. Only their division by zero (line 59) is modelled, as `ZeroPartitionSize`.
- Accuracy is an exact real ratio. Float rounding of `running_corrects.double() / dataset_sizes[phase]` is not modelled.
- `dataset_sizes` is taken to hold Python ints, for example from `len()` of the datasets. The code that builds it is not part of this model. With a numpy or torch number as the size, `0.0 / size` would give inf or NaN instead of raising `ZeroDivisionError`.
- `running_corrects` is an unbounded natural number. The 64-bit width of the torch counter is not modelled.
- The optimizer's update rule is an opaque parameter `update(weights, epoch, step)`. The scheduler's learning-rate policy is left out; its calls are only recorded as `SchedulerStep(metric)` events.
- The loaders are given as a function from the epoch index to that epoch's batch counts. How the data is shuffled or read is not modelled.
- Timing (`time.time()`), the console output and `save_log` are I/O and are left out.
- Exceptions raised inside torch (shape mismatches, out-of-memory) are left out. Only the two exceptions raised by the division at the end of a phase are modelled.
- `model.state_dict()` and `copy.deepcopy` are modelled as taking the value of `weights`. Aliasing between the snapshot and the live model does not arise.
- The number of epochs begun is not returned by the source; `TrainModel` reports it only as a ghost out-parameter, for use in the proofs.
- scripts/run_inference.py is not part of this model. It only parses a command line and calls code that is not shown.
