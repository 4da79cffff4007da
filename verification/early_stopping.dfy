/** The epoch loop of `Forecaster._run_training` and its early-stopping rule.

    The loss each epoch produces (the validation loss, or the last training
    batch's loss when there is no validation set) comes from training
    arithmetic outside this model, so it is an input: `losses[e]` is the
    `current_loss` of epoch `e`. The mutable `best_loss` / `trigger_times`
    pair is an immutable `State` threaded through a step function. */
module EarlyStopping {
  import opened Outcomes

  /** The initial `best_loss`, 1e7. */
  const Sentinel: real := 10000000.0

  /** `min_epochs`: no early stop before this epoch index. */
  const MinEpochs: nat := 10

  /** One entry of the returned history: `{"epoch": epoch, "loss": loss}`. */
  datatype Record = Record(epoch: nat, loss: real)

  /** `best_loss` and `trigger_times`; the latter is `None` while the Python
      local is still unbound. */
  datatype State = State(bestLoss: real, triggerTimes: Option<nat>)

  /** The state before the first epoch: `best_loss = 1e7`, no `trigger_times`. */
  const Initial: State := State(Sentinel, None)

  /** What the early-stopping check decides after one epoch. */
  datatype Decision = Continue(next: State) | Stop

  /** The history the loop returns, together with how the loop ended: by
      the early-stopping `return` or by running out of epochs. */
  datatype Outcome = Outcome(history: seq<Record>, stoppedEarly: bool)

  /** The smaller of two reals. */
  function Min(a: real, b: real): real {
    if a <= b then a else b
  }

  /** The history records of the first n epochs. */
  function Records(losses: seq<real>, n: nat): (h: seq<Record>)
    requires n <= |losses|
    ensures |h| == n
  {
    seq(n, i requires 0 <= i < n => Record(i, losses[i]))
  }

  /** The best-loss bookkeeping of one epoch: a strictly smaller loss
      becomes the best and resets the trigger count, any other loss
      increments it, which fails while the count is still unbound. */
  function Update(s: State, loss: real): (r: Result<State>)
    ensures r.Err? <==> loss >= s.bestLoss && s.triggerTimes.None?
    ensures r.Err? ==> r.error == UnboundTriggerTimes
    ensures r.Ok? ==> r.value.bestLoss == Min(s.bestLoss, loss)
    ensures r.Ok? ==> r.value.triggerTimes.Some?
    ensures r.Ok? ==> (r.value.triggerTimes.value == 0 <==> loss < s.bestLoss)
    ensures r.Ok? && loss >= s.bestLoss ==> r.value.triggerTimes.value == s.triggerTimes.value + 1
  {
    if loss < s.bestLoss then Ok(State(loss, Some(0)))
    else if s.triggerTimes.None? then Err(UnboundTriggerTimes)
    else Ok(State(s.bestLoss, Some(s.triggerTimes.value + 1)))
  }

  /** One early-stopping decision: stop only on a non-improving epoch whose
      trigger count has reached the patience, at epoch index 10 or later. */
  function Step(s: State, epoch: nat, loss: real, patience: int): (r: Result<Decision>)
    ensures r.Err? <==> Update(s, loss).Err?
    ensures r.Err? ==> r.error == UnboundTriggerTimes
    ensures loss < s.bestLoss ==> r == Ok(Continue(State(loss, Some(0))))
    ensures r == Ok(Stop) <==>
      && loss >= s.bestLoss
      && s.triggerTimes.Some?
      && s.triggerTimes.value + 1 >= patience
      && epoch >= MinEpochs
    ensures r.Ok? && r.value.Continue? ==> Ok(r.value.next) == Update(s, loss)
  {
    var next :- Update(s, loss);
    if loss >= s.bestLoss && next.triggerTimes.value >= patience && epoch >= MinEpochs then Ok(Stop)
    else Ok(Continue(next))
  }

  /** The epoch loop from `epoch` on, with the state and history so far. */
  function RunFrom(losses: seq<real>, maxEpochs: nat, useEarlyStopping: bool, patience: int,
                   epoch: nat, s: State, history: seq<Record>): (r: Result<Outcome>)
    requires epoch <= maxEpochs <= |losses|
    requires history == Records(losses, epoch)
    ensures r.Ok? ==> epoch <= |r.value.history| <= maxEpochs
    ensures r.Ok? ==> r.value.history == Records(losses, |r.value.history|)
    ensures r.Ok? && !r.value.stoppedEarly ==> |r.value.history| == maxEpochs
    ensures r.Err? ==> r.error == UnboundTriggerTimes
    decreases maxEpochs - epoch
  {
    if epoch == maxEpochs then
      Ok(Outcome(history, false))
    else
      var loss := losses[epoch];
      var history' := history + [Record(epoch, loss)];
      assert history' == Records(losses, epoch + 1);
      if !useEarlyStopping then
        RunFrom(losses, maxEpochs, useEarlyStopping, patience, epoch + 1, s, history')
      else
        var decision :- Step(s, epoch, loss, patience);
        match decision
        case Stop => Ok(Outcome(history', true))
        case Continue(s') => RunFrom(losses, maxEpochs, useEarlyStopping, patience, epoch + 1, s', history')
  }

  /** The epoch loop of `_run_training` over the per-epoch losses. */
  function Run(losses: seq<real>, maxEpochs: nat, useEarlyStopping: bool, patience: int): (r: Result<Outcome>)
    requires maxEpochs <= |losses|
    ensures r.Ok? ==> |r.value.history| <= maxEpochs
    ensures r.Ok? ==> r.value.history == Records(losses, |r.value.history|)
    ensures r.Ok? && !r.value.stoppedEarly ==> |r.value.history| == maxEpochs
    ensures r.Err? ==> r.error == UnboundTriggerTimes
  {
    RunFrom(losses, maxEpochs, useEarlyStopping, patience, 0, Initial, [])
  }

  // ---------------------------------------------------------------------
  // A reference description of the run, independent of the loop.

  /** The best loss before epoch n: the minimum of 1e7 and the first n losses. */
  function RunningMin(losses: seq<real>, n: nat): (m: real)
    requires n <= |losses|
    ensures m <= Sentinel
    ensures forall i :: 0 <= i < n ==> m <= losses[i]
    ensures m == Sentinel || exists i :: 0 <= i < n && m == losses[i]
  {
    if n == 0 then Sentinel else Min(RunningMin(losses, n - 1), losses[n - 1])
  }

  /** Epoch e improves when its loss is strictly below every earlier loss
      and below 1e7. */
  predicate Improves(losses: seq<real>, e: nat)
    requires e < |losses|
  {
    losses[e] < RunningMin(losses, e)
  }

  /** The last improving epoch up to e, or -1 when there is none. */
  function LastImprovement(losses: seq<real>, e: nat): (j: int)
    requires e < |losses|
    ensures -1 <= j <= e
    ensures j >= 0 ==> Improves(losses, j)
    ensures forall i :: j < i <= e ==> !Improves(losses, i)
    ensures losses[0] < Sentinel ==> j >= 0
  {
    if Improves(losses, e) then e
    else if e == 0 then -1
    else LastImprovement(losses, e - 1)
  }

  /** The early-stopping state once epochs 0 .. n-1 have been processed:
      the running minimum, and the number of epochs since the last
      improvement. Defined when the first epoch improved or nothing ran. */
  function SpecState(losses: seq<real>, n: nat): State
    requires n <= |losses|
    requires n == 0 || losses[0] < Sentinel
  {
    if n == 0 then Initial
    else State(RunningMin(losses, n), Some(n - 1 - LastImprovement(losses, n - 1)))
  }

  /** The stop condition at epoch e in terms of the losses alone. */
  predicate ShouldStop(losses: seq<real>, patience: int, e: nat)
    requires e < |losses|
  {
    && e >= MinEpochs
    && !Improves(losses, e)
    && e - LastImprovement(losses, e) >= patience
  }

  /** Each epoch keeps the state equal to the reference state: `best_loss`
      is always the minimum of 1e7 and the losses seen so far, and
      `trigger_times` the number of epochs since the last improvement. The
      step stops exactly when `ShouldStop` holds, and it fails exactly at
      epoch 0 when the first loss is not below 1e7. */
  lemma StepTracksSpecState(losses: seq<real>, patience: int, e: nat)
    requires e < |losses|
    requires e == 0 || losses[0] < Sentinel
    ensures e == 0 && losses[0] >= Sentinel ==>
      Step(SpecState(losses, e), e, losses[e], patience) == Err(UnboundTriggerTimes)
    ensures losses[0] < Sentinel ==>
      && Update(SpecState(losses, e), losses[e]) == Ok(SpecState(losses, e + 1))
      && Step(SpecState(losses, e), e, losses[e], patience)
         == if ShouldStop(losses, patience, e) then Ok(Stop) else Ok(Continue(SpecState(losses, e + 1)))
  {
  }

  /** The reference description holds of a finished run `o`: the records
      are epochs 0 .. n-1 with their losses, no epoch before the last met
      the stop condition, the run stopped early exactly when the last epoch
      met it, and otherwise it ran all `maxEpochs` epochs. */
  predicate Characterised(losses: seq<real>, maxEpochs: nat, patience: int, o: Outcome)
    requires maxEpochs <= |losses|
  {
    var n := |o.history|;
    && n <= maxEpochs
    && o.history == Records(losses, n)
    && (forall j :: 0 <= j < n - 1 ==> !ShouldStop(losses, patience, j))
    && (o.stoppedEarly <==> n > 0 && ShouldStop(losses, patience, n - 1))
    && (!o.stoppedEarly ==> n == maxEpochs)
  }

  /** One epoch of the loop in the reference state, once the first epoch
      has improved: it stops with the records so far when `ShouldStop`
      holds, and otherwise continues from the next reference state. */
  lemma RunFromReferenceStep(losses: seq<real>, maxEpochs: nat, patience: int, e: nat)
    requires e < maxEpochs <= |losses|
    requires losses[0] < Sentinel
    ensures RunFrom(losses, maxEpochs, true, patience, e, SpecState(losses, e), Records(losses, e))
         == if ShouldStop(losses, patience, e) then Ok(Outcome(Records(losses, e + 1), true))
            else RunFrom(losses, maxEpochs, true, patience, e + 1, SpecState(losses, e + 1), Records(losses, e + 1))
  {
    StepTracksSpecState(losses, patience, e);
    assert Records(losses, e) + [Record(e, losses[e])] == Records(losses, e + 1);
  }

  /** The loop from epoch e, entered in the reference state, fails exactly
      when it starts at epoch 0 with a first loss not below 1e7. */
  lemma {:induction false} RunFromFails(losses: seq<real>, maxEpochs: nat, patience: int, e: nat)
    requires e <= maxEpochs <= |losses|
    requires e == 0 || losses[0] < Sentinel
    ensures RunFrom(losses, maxEpochs, true, patience, e, SpecState(losses, e), Records(losses, e)).Err?
        <==> e < maxEpochs && e == 0 && losses[0] >= Sentinel
    decreases maxEpochs - e
  {
    if e < maxEpochs {
      if e == 0 && losses[0] >= Sentinel {
        StepTracksSpecState(losses, patience, e);
      } else {
        RunFromReferenceStep(losses, maxEpochs, patience, e);
        if !ShouldStop(losses, patience, e) {
          RunFromFails(losses, maxEpochs, patience, e + 1);
        }
      }
    }
  }

  /** The loop from epoch e, entered in the reference state after epochs
      that did not meet the stop condition, ends as the reference
      description says whenever it succeeds. */
  lemma {:induction false} RunFromCharacterised(losses: seq<real>, maxEpochs: nat, patience: int, e: nat)
    requires e <= maxEpochs <= |losses|
    requires e == 0 || losses[0] < Sentinel
    requires forall j :: 0 <= j < e ==> !ShouldStop(losses, patience, j)
    ensures var r := RunFrom(losses, maxEpochs, true, patience, e, SpecState(losses, e), Records(losses, e));
      r.Ok? ==> Characterised(losses, maxEpochs, patience, r.value)
    decreases maxEpochs - e
  {
    if e < maxEpochs {
      if e == 0 && losses[0] >= Sentinel {
        StepTracksSpecState(losses, patience, e);
      } else {
        RunFromReferenceStep(losses, maxEpochs, patience, e);
        if !ShouldStop(losses, patience, e) {
          RunFromCharacterised(losses, maxEpochs, patience, e + 1);
        }
      }
    }
  }

  /** The early-stopping run, described without the loop: it fails (the
      unbound `trigger_times`) exactly when the first epoch's loss is not
      below 1e7, and otherwise it stops at the first epoch meeting the stop
      condition, or after `maxEpochs` epochs. An early stop happens only on a
      non-improving epoch at index 10 or later, so an early-stopped history
      holds at least 11 records. */
  lemma RunCharacterised(losses: seq<real>, maxEpochs: nat, patience: int)
    requires maxEpochs <= |losses|
    ensures Run(losses, maxEpochs, true, patience).Err? <==> maxEpochs > 0 && losses[0] >= Sentinel
    ensures Run(losses, maxEpochs, true, patience).Err? ==>
      Run(losses, maxEpochs, true, patience).error == UnboundTriggerTimes
    ensures Run(losses, maxEpochs, true, patience).Ok? ==>
      Characterised(losses, maxEpochs, patience, Run(losses, maxEpochs, true, patience).value)
    ensures Run(losses, maxEpochs, true, patience).Ok? && Run(losses, maxEpochs, true, patience).value.stoppedEarly ==>
      var n := |Run(losses, maxEpochs, true, patience).value.history|;
      n >= MinEpochs + 1 && !Improves(losses, n - 1)
  {
    RunFromFails(losses, maxEpochs, patience, 0);
    RunFromCharacterised(losses, maxEpochs, patience, 0);
  }

  /** Without early stopping every epoch is recorded and the loop runs
      exactly `maxEpochs` times, whatever the losses. */
  lemma {:induction false} RunWithoutEarlyStopping(losses: seq<real>, maxEpochs: nat, patience: int, e: nat, s: State)
    requires e <= maxEpochs <= |losses|
    ensures RunFrom(losses, maxEpochs, false, patience, e, s, Records(losses, e))
         == Ok(Outcome(Records(losses, maxEpochs), false))
    decreases maxEpochs - e
  {
    if e < maxEpochs {
      assert Records(losses, e) + [Record(e, losses[e])] == Records(losses, e + 1);
      RunWithoutEarlyStopping(losses, maxEpochs, patience, e + 1, s);
    }
  }

  /** After an improving epoch k that no later loss undercuts, the best loss
      stays `losses[k]`, no later epoch improves, and k stays the last
      improvement. */
  lemma PlateauAfter(losses: seq<real>, k: nat, e: nat)
    requires k < e <= |losses|
    requires Improves(losses, k)
    requires forall i :: k < i < e ==> losses[i] >= losses[k]
    ensures RunningMin(losses, e) == losses[k]
    ensures e < |losses| && losses[e] >= losses[k] ==> !Improves(losses, e) && LastImprovement(losses, e) == k
  {
  }

  /** The exact stop epoch. Let the run reach an epoch k whose loss strictly
      improves, with no later loss below it, and let the patience be at
      least 1. Then the history has min(max(k + patience, 10) + 1, maxEpochs)
      records. */
  lemma ExactStopEpoch(losses: seq<real>, maxEpochs: nat, patience: int, k: nat)
    requires maxEpochs <= |losses|
    requires patience >= 1
    requires Run(losses, maxEpochs, true, patience).Ok?
    requires |Run(losses, maxEpochs, true, patience).value.history| > k
    requires Improves(losses, k)
    requires forall e :: k < e < maxEpochs ==> losses[e] >= losses[k]
    ensures |Run(losses, maxEpochs, true, patience).value.history|
         == if k + patience >= MinEpochs then
              (if k + patience + 1 <= maxEpochs then k + patience + 1 else maxEpochs)
            else
              (if MinEpochs + 1 <= maxEpochs then MinEpochs + 1 else maxEpochs)
  {
    var o := Run(losses, maxEpochs, true, patience).value;
    var n := |o.history|;
    RunCharacterised(losses, maxEpochs, patience);
    var stop: int := if k + patience >= MinEpochs then k + patience else MinEpochs;
    assert k < stop;
    forall e | k < e < maxEpochs
      ensures !Improves(losses, e) && LastImprovement(losses, e) == k
      ensures ShouldStop(losses, patience, e) <==> e >= stop
    {
      PlateauAfter(losses, k, e);
    }
    assert k == n - 1 ==> !ShouldStop(losses, patience, n - 1);
    if stop < maxEpochs {
      assert ShouldStop(losses, patience, stop);
      assert n == stop + 1;
    } else {
      assert !o.stoppedEarly;
    }
  }

  // ---------------------------------------------------------------------
  // The loop with `trigger_times` bound from the start.

  /** The state before the first epoch when `trigger_times = 0` is set next
      to `best_loss = 1e7`. */
  const InitialBound: State := State(Sentinel, Some(0))

  /** The epoch loop started from `InitialBound`. */
  function RunCorrected(losses: seq<real>, maxEpochs: nat, useEarlyStopping: bool, patience: int): (r: Result<Outcome>)
    requires maxEpochs <= |losses|
    ensures r.Ok? ==> |r.value.history| <= maxEpochs
    ensures r.Ok? ==> r.value.history == Records(losses, |r.value.history|)
  {
    RunFrom(losses, maxEpochs, useEarlyStopping, patience, 0, InitialBound, [])
  }

  /** Once `trigger_times` is bound the loop cannot fail: every update
      keeps it bound. */
  lemma {:induction false} BoundRunNeverFails(losses: seq<real>, maxEpochs: nat, useEarlyStopping: bool, patience: int,
                                              e: nat, s: State)
    requires e <= maxEpochs <= |losses|
    requires s.triggerTimes.Some?
    ensures RunFrom(losses, maxEpochs, useEarlyStopping, patience, e, s, Records(losses, e)).Ok?
    decreases maxEpochs - e
  {
    if e < maxEpochs {
      assert Records(losses, e) + [Record(e, losses[e])] == Records(losses, e + 1);
      var d := Step(s, e, losses[e], patience);
      if useEarlyStopping {
        if d.value.Continue? {
          BoundRunNeverFails(losses, maxEpochs, useEarlyStopping, patience, e + 1, d.value.next);
        }
      } else {
        BoundRunNeverFails(losses, maxEpochs, useEarlyStopping, patience, e + 1, s);
      }
    }
  }

  /** The loop started with `trigger_times` bound never fails, and wherever
      the loop as written succeeds it returns the same outcome: the two
      differ only on a first loss of 1e7 or more. */
  lemma RunCorrectedNeverFails(losses: seq<real>, maxEpochs: nat, useEarlyStopping: bool, patience: int)
    requires maxEpochs <= |losses|
    ensures RunCorrected(losses, maxEpochs, useEarlyStopping, patience).Ok?
    ensures Run(losses, maxEpochs, useEarlyStopping, patience).Ok? ==>
      RunCorrected(losses, maxEpochs, useEarlyStopping, patience) == Run(losses, maxEpochs, useEarlyStopping, patience)
  {
    BoundRunNeverFails(losses, maxEpochs, useEarlyStopping, patience, 0, InitialBound);
    if !useEarlyStopping {
      RunWithoutEarlyStopping(losses, maxEpochs, patience, 0, Initial);
      RunWithoutEarlyStopping(losses, maxEpochs, patience, 0, InitialBound);
    } else if maxEpochs > 0 && losses[0] < Sentinel {
      assert Records(losses, 0) + [Record(0, losses[0])] == Records(losses, 1);
      assert Step(Initial, 0, losses[0], patience) == Step(InitialBound, 0, losses[0], patience);
    }
  }
}
