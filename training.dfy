/** The bookkeeping of `train`: epochs over a training stream and an
    evaluation stream, the step counter, the loss and step-time accumulators,
    the perplexity cap and the lines written to the two log files. */
module Training {
  import opened Common
  import opened Graph
  import opened Model

  // ---------------------------------------------------------------------
  // Values

  /** A reported perplexity: exp(exponent), or infinity. */
  datatype Perplexity = Exp(exponent: real) | Infinite

  /** `math.exp(loss) if loss < 300 else float("inf")`. */
  function PerplexityOf(loss: real): (p: Perplexity)
    ensures p.Infinite? <==> loss >= 300.0
    ensures p.Exp? ==> p.exponent == loss
  {
    if loss < 300.0 then Exp(loss) else Infinite
  }

  /** A line of the training log (epoch markers and checkpoint lines) or of
      the test log (epoch markers and evaluation lines). */
  datatype LogLine =
    | EpochLine(epoch: nat)
    | TrainLine(globalStep: nat, perplexity: Perplexity, loss: real, learningRate: real, stepTime: real)
    | EvalLine(bucketId: nat, perplexity: Perplexity, loss: real)

  /** One item of a generator (the training and the test generator are the
      same configured function on different arguments): a batch (None ends
      the epoch) and its bucket, with the loss the session reports for the
      step on it and the time that step takes. Only training reads the time. */
  datatype Item = Item(batch: Option<seq<seq<nat>>>, bucketId: nat, loss: real, elapsed: real)

  /** The loop variables of `train`, the session's global step and the two
      logs. */
  datatype LoopState = LoopState(
    currentStep: nat,
    globalStep: nat,
    loss: real,
    stepTime: real,
    trainLog: seq<LogLine>,
    testLog: seq<LogLine>)

  /** Where a run ends: its last state, and the ValueError that ended it. */
  datatype Outcome = Outcome(state: LoopState, error: Option<ShapeError>)

  /** The state before the first epoch; `globalStep` is the session's global
      step after the model is created (0, or the restored checkpoint's). */
  function Start(globalStep: nat): LoopState
  {
    LoopState(0, globalStep, 0.0, 0.0, [], [])
  }

  /** Every item names a bucket of the configuration. */
  predicate BucketsValid(cfg: Config, items: seq<Item>)
  {
    forall k :: 0 <= k < |items| ==> items[k].bucketId < |cfg.buckets|
  }

  /** One training stream and one test stream per epoch, naming buckets of
      the configuration. */
  predicate StreamsValid(cfg: Config, trainStreams: seq<seq<Item>>, evalStreams: seq<seq<Item>>)
  {
    && |trainStreams| == |evalStreams|
    && (forall e :: 0 <= e < |trainStreams| ==> BucketsValid(cfg, trainStreams[e]))
    && (forall e :: 0 <= e < |evalStreams| ==> BucketsValid(cfg, evalStreams[e]))
  }

  /** The ValueError `step` raises on a batch built by get_batch for this
      bucket (see Model.StepAcceptsBatch). */
  function BatchError(bucket: Bucket): Option<ShapeError>
  {
    if bucket.encoderSize != bucket.decoderSize
    then Some(WeightsLength(bucket.encoderSize, bucket.decoderSize))
    else None
  }

  // ---------------------------------------------------------------------
  // The reference definition of the loop

  /** The bookkeeping after one successful training step. */
  function TrainStep(cfg: Config, s: LoopState, stepLoss: real, elapsed: real): (r: LoopState)
    requires cfg.stepsPerCheckpoint > 0
    ensures r.currentStep == s.currentStep + 1 && r.globalStep == s.globalStep + 1
    ensures r.testLog == s.testLog
    ensures |r.trainLog| == |s.trainLog| + (if r.currentStep % cfg.stepsPerCheckpoint == 0 then 1 else 0)
    ensures r.trainLog[..|s.trainLog|] == s.trainLog
    ensures r.currentStep % cfg.stepsPerCheckpoint == 0 ==>
              && r.loss == 0.0 && r.stepTime == 0.0
              && r.trainLog[|s.trainLog|].TrainLine?
              && r.trainLog[|s.trainLog|].globalStep == r.globalStep
    ensures r.currentStep % cfg.stepsPerCheckpoint != 0 ==>
              && r.trainLog == s.trainLog
              && r.loss == s.loss + stepLoss / cfg.stepsPerCheckpoint as real
              && r.stepTime == s.stepTime + elapsed / cfg.stepsPerCheckpoint as real
  {
    var spc := cfg.stepsPerCheckpoint as real;
    var stepTime := s.stepTime + elapsed / spc;
    var loss := s.loss + stepLoss / spc;
    var current := s.currentStep + 1;
    var global := s.globalStep + 1;
    if current % cfg.stepsPerCheckpoint == 0 then
      s.(currentStep := current, globalStep := global, loss := 0.0, stepTime := 0.0,
         trainLog := s.trainLog + [TrainLine(global, PerplexityOf(loss), loss, cfg.learningRate, stepTime)])
    else
      s.(currentStep := current, globalStep := global, loss := loss, stepTime := stepTime)
  }

  /** The training part of an epoch: step through the items until the first
      None batch, the end of the stream, or a step that raises. */
  function TrainItems(cfg: Config, s: LoopState, items: seq<Item>): (o: Outcome)
    requires cfg.stepsPerCheckpoint > 0 && BucketsValid(cfg, items)
    ensures o.state.testLog == s.testLog
    ensures o.state.currentStep >= s.currentStep
    ensures o.state.globalStep - o.state.currentStep == s.globalStep - s.currentStep
    ensures |o.state.trainLog| >= |s.trainLog| && o.state.trainLog[..|s.trainLog|] == s.trainLog
    decreases |items|
  {
    if items == [] || items[0].batch.None? then Outcome(s, None)
    else
      var bucket := cfg.buckets[items[0].bucketId];
      if BatchError(bucket).Some? then Outcome(s, BatchError(bucket))
      else TrainItems(cfg, TrainStep(cfg, s, items[0].loss, items[0].elapsed), items[1..])
  }

  /** The evaluation part of an epoch: one test-log line per batch until the
      first None batch, the end of the stream, or a step that raises. */
  function EvalItems(cfg: Config, s: LoopState, items: seq<Item>): (o: Outcome)
    requires BucketsValid(cfg, items)
    ensures o.state.currentStep == s.currentStep && o.state.globalStep == s.globalStep
    ensures o.state.loss == s.loss && o.state.stepTime == s.stepTime
    ensures o.state.trainLog == s.trainLog
    ensures |o.state.testLog| >= |s.testLog| && o.state.testLog[..|s.testLog|] == s.testLog
    ensures forall i :: |s.testLog| <= i < |o.state.testLog| ==> o.state.testLog[i].EvalLine?
    decreases |items|
  {
    if items == [] || items[0].batch.None? then Outcome(s, None)
    else
      var bucketId := items[0].bucketId;
      var bucket := cfg.buckets[bucketId];
      if BatchError(bucket).Some? then Outcome(s, BatchError(bucket))
      else
        var loss := items[0].loss;
        EvalItems(cfg, s.(testLog := s.testLog + [EvalLine(bucketId, PerplexityOf(loss), loss)]), items[1..])
  }

  /** One epoch: the epoch markers, the training items, the evaluation items,
      and the reset of both accumulators. */
  function Epoch(cfg: Config, s: LoopState, epoch: nat, trainItems: seq<Item>, evalItems: seq<Item>): (o: Outcome)
    requires cfg.stepsPerCheckpoint > 0 && BucketsValid(cfg, trainItems) && BucketsValid(cfg, evalItems)
    ensures o.error.None? ==> o.state.loss == 0.0 && o.state.stepTime == 0.0
    ensures o.state.currentStep >= s.currentStep
    ensures o.state.globalStep - o.state.currentStep == s.globalStep - s.currentStep
    ensures |o.state.trainLog| > |s.trainLog| && o.state.trainLog[..|s.trainLog|] == s.trainLog
    ensures |o.state.testLog| > |s.testLog| && o.state.testLog[..|s.testLog|] == s.testLog
    ensures o.state.trainLog[|s.trainLog|] == EpochLine(epoch) && o.state.testLog[|s.testLog|] == EpochLine(epoch)
  {
    var started := s.(trainLog := s.trainLog + [EpochLine(epoch)], testLog := s.testLog + [EpochLine(epoch)]);
    var trained := TrainItems(cfg, started, trainItems);
    if trained.error.Some? then trained
    else
      var evaluated := EvalItems(cfg, trained.state, evalItems);
      if evaluated.error.Some? then evaluated
      else Outcome(evaluated.state.(loss := 0.0, stepTime := 0.0), None)
  }

  /** The epochs `from` onwards. */
  function Epochs(cfg: Config, s: LoopState, from: nat,
                  trainStreams: seq<seq<Item>>, evalStreams: seq<seq<Item>>): (o: Outcome)
    requires cfg.stepsPerCheckpoint > 0 && StreamsValid(cfg, trainStreams, evalStreams)
    requires from <= |trainStreams|
    ensures o.state.currentStep >= s.currentStep
    ensures o.state.globalStep - o.state.currentStep == s.globalStep - s.currentStep
    ensures |o.state.trainLog| >= |s.trainLog| && o.state.trainLog[..|s.trainLog|] == s.trainLog
    ensures |o.state.testLog| >= |s.testLog| && o.state.testLog[..|s.testLog|] == s.testLog
    decreases |trainStreams| - from
  {
    if from == |trainStreams| then Outcome(s, None)
    else
      var o := Epoch(cfg, s, from, trainStreams[from], evalStreams[from]);
      if o.error.Some? then o else Epochs(cfg, o.state, from + 1, trainStreams, evalStreams)
  }

  // ---------------------------------------------------------------------
  // Where an epoch's training stops

  /** The training or the evaluation loop stops at this item: the generator
      is exhausted, or `step` raises on the item's bucket. */
  predicate Stops(cfg: Config, item: Item)
    requires item.bucketId < |cfg.buckets|
  {
    item.batch.None? || BatchError(cfg.buckets[item.bucketId]).Some?
  }

  /** The number of items before the first one a loop stops at. */
  function FirstStop(cfg: Config, items: seq<Item>): (n: nat)
    requires BucketsValid(cfg, items)
    ensures n <= |items|
    ensures forall k :: 0 <= k < n ==> !Stops(cfg, items[k])
    ensures n < |items| ==> Stops(cfg, items[n])
    decreases |items|
  {
    if items == [] || Stops(cfg, items[0]) then 0 else 1 + FirstStop(cfg, items[1..])
  }

  /** An epoch's training runs exactly the steps before the first stop, each
      advancing both counters by one, and ends in an error exactly when it
      stops at a batch rather than at the end of the stream or at None. */
  lemma {:induction false} TrainProgress(cfg: Config, s: LoopState, items: seq<Item>)
    requires cfg.stepsPerCheckpoint > 0 && BucketsValid(cfg, items)
    ensures var o := TrainItems(cfg, s, items);
            var n := FirstStop(cfg, items);
            && o.state.currentStep == s.currentStep + n
            && o.state.globalStep == s.globalStep + n
            && (o.error.Some? <==> n < |items| && items[n].batch.Some?)
            && (o.error.Some? ==> o.error == BatchError(cfg.buckets[items[n].bucketId]))
    decreases |items|
  {
    if items != [] && !Stops(cfg, items[0]) {
      TrainProgress(cfg, TrainStep(cfg, s, items[0].loss, items[0].elapsed), items[1..]);
    }
  }

  /** Nothing after the first None batch is read: the epoch's training is
      that of the items before it. */
  lemma {:induction false} StopsAtNone(cfg: Config, s: LoopState, items: seq<Item>, k: nat)
    requires cfg.stepsPerCheckpoint > 0 && BucketsValid(cfg, items)
    requires k < |items| && items[k].batch.None?
    ensures TrainItems(cfg, s, items) == TrainItems(cfg, s, items[..k])
    decreases k
  {
    if k > 0 {
      assert items[..k][0] == items[0];
      if !Stops(cfg, items[0]) {
        assert items[..k][1..] == items[1..][..k - 1];
        StopsAtNone(cfg, TrainStep(cfg, s, items[0].loss, items[0].elapsed), items[1..], k - 1);
      }
    }
  }

  /** Evaluation writes one test-log line per batch before the first stop,
      with the batch's bucket, perplexity and loss, in order, and ends in an
      error exactly when it stops at a batch. */
  lemma {:induction false} EvalProgress(cfg: Config, s: LoopState, items: seq<Item>)
    requires BucketsValid(cfg, items)
    ensures var o := EvalItems(cfg, s, items);
            var n := FirstStop(cfg, items);
            && |o.state.testLog| == |s.testLog| + n
            && (forall k :: 0 <= k < n ==>
                  o.state.testLog[|s.testLog| + k] == EvalLine(items[k].bucketId, PerplexityOf(items[k].loss), items[k].loss))
            && (o.error.Some? <==> n < |items| && items[n].batch.Some?)
            && (o.error.Some? ==> o.error == BatchError(cfg.buckets[items[n].bucketId]))
    decreases |items|
  {
    if items != [] && !Stops(cfg, items[0]) {
      var line := EvalLine(items[0].bucketId, PerplexityOf(items[0].loss), items[0].loss);
      var t := s.(testLog := s.testLog + [line]);
      EvalProgress(cfg, t, items[1..]);
      var o := EvalItems(cfg, s, items);
      assert o == EvalItems(cfg, t, items[1..]);
      var n := FirstStop(cfg, items);
      assert n == 1 + FirstStop(cfg, items[1..]);
      if n < |items| {
        assert items[1..][n - 1] == items[n];
      }
      forall k | 0 <= k < n
        ensures o.state.testLog[|s.testLog| + k] == EvalLine(items[k].bucketId, PerplexityOf(items[k].loss), items[k].loss)
      {
        if k == 0 {
          assert o.state.testLog[..|t.testLog|] == t.testLog;
          assert o.state.testLog[|s.testLog|] == o.state.testLog[..|t.testLog|][|s.testLog|] == line;
        } else {
          assert items[1..][k - 1] == items[k];
          assert |t.testLog| + (k - 1) == |s.testLog| + k;
        }
      }
    }
  }

  // ---------------------------------------------------------------------
  // Checkpoint lines

  /** Stepping a counter by one: the remainder wraps to 0 exactly when the
      quotient grows by one. */
  lemma CounterStep(c: nat, m: nat)
    requires m > 0
    ensures c % m + 1 < m ==> (c + 1) % m == c % m + 1 && (c + 1) / m == c / m
    ensures c % m + 1 == m ==> (c + 1) % m == 0 && (c + 1) / m == c / m + 1
  {
    var q, r := c / m, c % m;
    if r + 1 < m {
      assert c + 1 == q * m + (r + 1);
      DivModUnique(c + 1, m, q, r + 1);
    } else {
      assert c + 1 == (q + 1) * m;
      DivModUnique(c + 1, m, q + 1, 0);
    }
  }

  lemma DivModUnique(x: nat, m: nat, q: int, r: int)
    requires m > 0 && x == q * m + r && 0 <= r < m
    ensures x / m == q && x % m == r
  {
    var d := x / m - q;
    assert d * m == r - x % m;
    assert d >= 1 ==> d * m >= m;
    assert d <= -1 ==> d * m <= -(m as int);
  }

  /** The sum of the losses the session reports for some items. */
  function LossSum(items: seq<Item>): real
    decreases |items|
  {
    if items == [] then 0.0 else items[0].loss + LossSum(items[1..])
  }

  /** The sum of the times some items' steps take. */
  function ElapsedSum(items: seq<Item>): real
    decreases |items|
  {
    if items == [] then 0.0 else items[0].elapsed + ElapsedSum(items[1..])
  }

  /** The next checkpoint line. From state s the next checkpoint comes after
      m = stepsPerCheckpoint - currentStep % stepsPerCheckpoint steps; when
      the loop gets that far, the line it writes next carries the global step
      reached, and the loss and step time accumulated in s plus the sums over
      those m items divided by stepsPerCheckpoint. Right after a checkpoint
      (or at the start of the run) m is stepsPerCheckpoint and the
      accumulators are zero, so the line reports the mean loss and the mean
      step time of the last stepsPerCheckpoint steps. */
  lemma {:induction false} NextCheckpoint(cfg: Config, s: LoopState, items: seq<Item>)
    requires cfg.stepsPerCheckpoint > 0 && BucketsValid(cfg, items)
    requires FirstStop(cfg, items) >= cfg.stepsPerCheckpoint - s.currentStep % cfg.stepsPerCheckpoint
    ensures var m := cfg.stepsPerCheckpoint - s.currentStep % cfg.stepsPerCheckpoint;
            var spc := cfg.stepsPerCheckpoint as real;
            var o := TrainItems(cfg, s, items);
            var loss := s.loss + LossSum(items[..m]) / spc;
            && |o.state.trainLog| > |s.trainLog|
            && o.state.trainLog[|s.trainLog|]
               == TrainLine(s.globalStep + m, PerplexityOf(loss), loss, cfg.learningRate,
                            s.stepTime + ElapsedSum(items[..m]) / spc)
    decreases |items|
  {
    var m := cfg.stepsPerCheckpoint - s.currentStep % cfg.stepsPerCheckpoint;
    var spc := cfg.stepsPerCheckpoint as real;
    var t := TrainStep(cfg, s, items[0].loss, items[0].elapsed);
    assert TrainItems(cfg, s, items) == TrainItems(cfg, t, items[1..]);
    if m == 1 {
      assert items[..m] == [items[0]];
      PeriodEnd(cfg, s, items[0]);
    } else {
      MidPeriod(cfg, s, items[0]);
      assert FirstStop(cfg, items[1..]) == FirstStop(cfg, items) - 1;
      NextCheckpoint(cfg, t, items[1..]);
      SumsSplit(items, m, spc);
      var rest := items[1..][..m - 1];
      var loss := s.loss + LossSum(items[..m]) / spc;
      assert t.loss + LossSum(rest) / spc == loss;
      assert t.stepTime + ElapsedSum(rest) / spc == s.stepTime + ElapsedSum(items[..m]) / spc;
      assert t.globalStep + (m - 1) == s.globalStep + m;
    }
  }

  /** Splitting off the first of the m items of a period in both sums. */
  lemma SumsSplit(items: seq<Item>, m: nat, spc: real)
    requires 0 < m <= |items| && spc > 0.0
    ensures LossSum(items[..m]) / spc == items[0].loss / spc + LossSum(items[1..][..m - 1]) / spc
    ensures ElapsedSum(items[..m]) / spc == items[0].elapsed / spc + ElapsedSum(items[1..][..m - 1]) / spc
  {
    var rest := items[1..][..m - 1];
    assert items[..m] == [items[0]] + rest;
    assert items[..m][1..] == rest;
    DivAdd(items[0].loss, LossSum(rest), spc);
    DivAdd(items[0].elapsed, ElapsedSum(rest), spc);
  }

  /** A step inside a period writes nothing, grows the accumulators by its
      share and brings the next checkpoint one step closer. */
  lemma MidPeriod(cfg: Config, s: LoopState, item: Item)
    requires cfg.stepsPerCheckpoint > 0 && s.currentStep % cfg.stepsPerCheckpoint != cfg.stepsPerCheckpoint - 1
    ensures var spc := cfg.stepsPerCheckpoint as real;
            var t := TrainStep(cfg, s, item.loss, item.elapsed);
            && t.trainLog == s.trainLog
            && t.loss == s.loss + item.loss / spc && t.stepTime == s.stepTime + item.elapsed / spc
            && cfg.stepsPerCheckpoint - t.currentStep % cfg.stepsPerCheckpoint
               == cfg.stepsPerCheckpoint - s.currentStep % cfg.stepsPerCheckpoint - 1
  {
    CounterStep(s.currentStep, cfg.stepsPerCheckpoint);
  }

  /** The step that completes a period writes its line right after the
      current log. */
  lemma PeriodEnd(cfg: Config, s: LoopState, item: Item)
    requires cfg.stepsPerCheckpoint > 0 && s.currentStep % cfg.stepsPerCheckpoint == cfg.stepsPerCheckpoint - 1
    ensures var spc := cfg.stepsPerCheckpoint as real;
            var t := TrainStep(cfg, s, item.loss, item.elapsed);
            && |t.trainLog| > |s.trainLog|
            && t.trainLog[|s.trainLog|]
               == TrainLine(s.globalStep + 1, PerplexityOf(s.loss + item.loss / spc), s.loss + item.loss / spc,
                            cfg.learningRate, s.stepTime + item.elapsed / spc)
  {
    CounterStep(s.currentStep, cfg.stepsPerCheckpoint);
  }

  lemma DivAdd(a: real, b: real, c: real)
    requires c > 0.0
    ensures (a + b) / c == a / c + b / c
  {
  }

  /** The number of checkpoint lines in a log. */
  function CountTrainLines(log: seq<LogLine>): nat
    decreases |log|
  {
    if log == [] then 0
    else CountTrainLines(log[..|log| - 1]) + (if log[|log| - 1].TrainLine? then 1 else 0)
  }

  lemma CountAppend(log: seq<LogLine>, line: LogLine)
    ensures CountTrainLines(log + [line]) == CountTrainLines(log) + (if line.TrainLine? then 1 else 0)
  {
  }

  /** The bookkeeping invariant of the run, for a session whose global step
      was `base` when training started: the global step is `base` plus the
      step counter, one checkpoint line has been written per completed
      multiple of `stepsPerCheckpoint` steps, and each checkpoint line
      carries a global step `base` plus a positive multiple of
      `stepsPerCheckpoint`. */
  ghost predicate Checkpointed(cfg: Config, base: nat, s: LoopState)
    requires cfg.stepsPerCheckpoint > 0
  {
    && s.globalStep == base + s.currentStep
    && CountTrainLines(s.trainLog) == s.currentStep / cfg.stepsPerCheckpoint
    && (forall i :: 0 <= i < |s.trainLog| && s.trainLog[i].TrainLine? ==>
          && s.trainLog[i].globalStep > base
          && (s.trainLog[i].globalStep - base) % cfg.stepsPerCheckpoint == 0)
  }

  lemma TrainStepCheckpointed(cfg: Config, base: nat, s: LoopState, stepLoss: real, elapsed: real)
    requires cfg.stepsPerCheckpoint > 0 && Checkpointed(cfg, base, s)
    ensures Checkpointed(cfg, base, TrainStep(cfg, s, stepLoss, elapsed))
  {
    var r := TrainStep(cfg, s, stepLoss, elapsed);
    CounterStep(s.currentStep, cfg.stepsPerCheckpoint);
    if r.currentStep % cfg.stepsPerCheckpoint == 0 {
      assert r.trainLog == s.trainLog + [r.trainLog[|s.trainLog|]];
      CountAppend(s.trainLog, r.trainLog[|s.trainLog|]);
    } else {
      assert r.trainLog == s.trainLog;
    }
  }

  lemma {:induction false} TrainItemsCheckpointed(cfg: Config, base: nat, s: LoopState, items: seq<Item>)
    requires cfg.stepsPerCheckpoint > 0 && BucketsValid(cfg, items) && Checkpointed(cfg, base, s)
    ensures Checkpointed(cfg, base, TrainItems(cfg, s, items).state)
    decreases |items|
  {
    if items != [] && !Stops(cfg, items[0]) {
      TrainStepCheckpointed(cfg, base, s, items[0].loss, items[0].elapsed);
      TrainItemsCheckpointed(cfg, base, TrainStep(cfg, s, items[0].loss, items[0].elapsed), items[1..]);
    }
  }

  lemma EpochCheckpointed(cfg: Config, base: nat, s: LoopState, epoch: nat,
                          trainItems: seq<Item>, evalItems: seq<Item>)
    requires cfg.stepsPerCheckpoint > 0 && BucketsValid(cfg, trainItems) && BucketsValid(cfg, evalItems)
    requires Checkpointed(cfg, base, s)
    ensures Checkpointed(cfg, base, Epoch(cfg, s, epoch, trainItems, evalItems).state)
  {
    var started := s.(trainLog := s.trainLog + [EpochLine(epoch)], testLog := s.testLog + [EpochLine(epoch)]);
    CountAppend(s.trainLog, EpochLine(epoch));
    assert Checkpointed(cfg, base, started) by {
      forall i | 0 <= i < |started.trainLog| && started.trainLog[i].TrainLine?
        ensures started.trainLog[i] == s.trainLog[i]
      {
      }
    }
    TrainItemsCheckpointed(cfg, base, started, trainItems);
    var trained := TrainItems(cfg, started, trainItems);
    var o := Epoch(cfg, s, epoch, trainItems, evalItems);
    if trained.error.None? {
      var evaluated := EvalItems(cfg, trained.state, evalItems);
      assert o.state.trainLog == trained.state.trainLog;
      assert o.state.currentStep == trained.state.currentStep && o.state.globalStep == trained.state.globalStep;
      CheckpointedKept(cfg, base, trained.state, o.state);
    }
  }

  /** The invariant depends only on the counters and the training log. */
  lemma CheckpointedKept(cfg: Config, base: nat, a: LoopState, b: LoopState)
    requires cfg.stepsPerCheckpoint > 0 && Checkpointed(cfg, base, a)
    requires b.currentStep == a.currentStep && b.globalStep == a.globalStep && b.trainLog == a.trainLog
    ensures Checkpointed(cfg, base, b)
  {
  }

  lemma {:induction false} EpochsCheckpointed(cfg: Config, base: nat, s: LoopState, from: nat,
                                              trainStreams: seq<seq<Item>>, evalStreams: seq<seq<Item>>)
    requires cfg.stepsPerCheckpoint > 0 && StreamsValid(cfg, trainStreams, evalStreams)
    requires from <= |trainStreams| && Checkpointed(cfg, base, s)
    ensures Checkpointed(cfg, base, Epochs(cfg, s, from, trainStreams, evalStreams).state)
    decreases |trainStreams| - from
  {
    if from < |trainStreams| {
      EpochCheckpointed(cfg, base, s, from, trainStreams[from], evalStreams[from]);
      var o := Epoch(cfg, s, from, trainStreams[from], evalStreams[from]);
      if o.error.None? {
        EpochsCheckpointed(cfg, base, o.state, from + 1, trainStreams, evalStreams);
      }
    }
  }

  /** Over a whole run, however it ends: the session's global step is the
      starting one plus the step counter, which no epoch resets; the training
      log holds exactly current_step / steps_per_checkpoint checkpoint lines;
      and every checkpoint line is written at a global step that is the
      starting one plus a positive multiple of steps_per_checkpoint. */
  lemma RunCheckpoints(cfg: Config, globalStep: nat,
                       trainStreams: seq<seq<Item>>, evalStreams: seq<seq<Item>>)
    requires cfg.stepsPerCheckpoint > 0 && StreamsValid(cfg, trainStreams, evalStreams)
    ensures var s := Epochs(cfg, Start(globalStep), 0, trainStreams, evalStreams).state;
            && s.globalStep == globalStep + s.currentStep
            && CountTrainLines(s.trainLog) == s.currentStep / cfg.stepsPerCheckpoint
            && forall i :: 0 <= i < |s.trainLog| && s.trainLog[i].TrainLine? ==>
                 && s.trainLog[i].globalStep > globalStep
                 && (s.trainLog[i].globalStep - globalStep) % cfg.stepsPerCheckpoint == 0
  {
    EpochsCheckpointed(cfg, globalStep, Start(globalStep), 0, trainStreams, evalStreams);
  }

  // ---------------------------------------------------------------------
  // The loop itself

  /** get_batch followed by `step` on a session that reports `loss`: the
      step raises exactly when the bucket's sizes differ, and otherwise
      returns that loss. */
  method StepOnBatch(model: Seq2SeqModel, batch: seq<seq<nat>>, bucketId: nat, loss: real, forwardOnly: bool)
    returns (r: StepResult<real>)
    requires model.Valid() && bucketId < |model.config.buckets|
    ensures r.ValueError? <==> BatchError(model.config.buckets[bucketId]).Some?
    ensures r.ValueError? || r.Ran?
    ensures r.ValueError? ==> BatchError(model.config.buckets[bucketId]) == Some(r.error)
    ensures r.Ran? ==> r.loss == loss
  {
    var inputs, weights := model.GetBatch(batch, bucketId);
    r := model.Step((feed: Feed, fetch: Fetch) => loss, inputs, weights, bucketId, forwardOnly);
    StepAcceptsBatch(model, (feed: Feed, fetch: Fetch) => loss, batch, bucketId, forwardOnly);
  }

  /** The training loop of one epoch: a training step per batch until the
      generator yields None, logging and resetting the accumulators every
      `stepsPerCheckpoint` steps. */
  method TrainEpoch(model: Seq2SeqModel, s0: LoopState, items: seq<Item>) returns (o: Outcome)
    requires model.Valid() && model.config.stepsPerCheckpoint > 0
    requires BucketsValid(model.config, items)
    ensures o == TrainItems(model.config, s0, items)
  {
    var cfg := model.config;
    var spc := cfg.stepsPerCheckpoint as real;
    var s := s0;
    var k := 0;
    while k < |items|
      invariant k <= |items|
      invariant TrainItems(cfg, s0, items) == TrainItems(cfg, s, items[k..])
    {
      var item := items[k];
      assert items[k..][0] == item && items[k..][1..] == items[k + 1..];
      if item.batch.None? {
        break;
      }
      var step := StepOnBatch(model, item.batch.value, item.bucketId, item.loss, false);
      if step.ValueError? {
        return Outcome(s, Some(step.error));
      }
      ghost var before := s;
      s := s.(globalStep := s.globalStep + 1);  // the update op advances the global step
      s := s.(stepTime := s.stepTime + item.elapsed / spc);
      s := s.(loss := s.loss + step.loss / spc);
      s := s.(currentStep := s.currentStep + 1);
      if s.currentStep % cfg.stepsPerCheckpoint == 0 {
        var perplexity := PerplexityOf(s.loss);
        s := s.(trainLog := s.trainLog + [TrainLine(s.globalStep, perplexity, s.loss, cfg.learningRate, s.stepTime)]);
        s := s.(stepTime := 0.0, loss := 0.0);
      }
      assert s == TrainStep(cfg, before, item.loss, item.elapsed);
      k := k + 1;
    }
    o := Outcome(s, None);
  }

  /** The evaluation loop of one epoch: a forward-only step per test batch
      until the generator yields None, one test-log line each. */
  method EvalEpoch(model: Seq2SeqModel, s0: LoopState, items: seq<Item>) returns (o: Outcome)
    requires model.Valid()
    requires BucketsValid(model.config, items)
    ensures o == EvalItems(model.config, s0, items)
  {
    var cfg := model.config;
    var s := s0;
    var k := 0;
    while k < |items|
      invariant k <= |items|
      invariant EvalItems(cfg, s0, items) == EvalItems(cfg, s, items[k..])
    {
      var item := items[k];
      assert items[k..][0] == item && items[k..][1..] == items[k + 1..];
      if item.batch.None? {
        break;
      }
      var step := StepOnBatch(model, item.batch.value, item.bucketId, item.loss, true);
      if step.ValueError? {
        return Outcome(s, Some(step.error));
      }
      var evalPerplexity := PerplexityOf(step.loss);
      s := s.(testLog := s.testLog + [EvalLine(item.bucketId, evalPerplexity, step.loss)]);
      k := k + 1;
    }
    o := Outcome(s, None);
  }

  /** train: for each epoch, log the epoch, run its training loop and its
      evaluation loop, then reset the accumulators. `globalStep` is the
      session's global step at the start. */
  method Train(model: Seq2SeqModel, globalStep: nat,
               trainStreams: seq<seq<Item>>, evalStreams: seq<seq<Item>>) returns (o: Outcome)
    requires model.Valid() && model.config.stepsPerCheckpoint > 0
    requires |trainStreams| == model.config.epochSize
    requires StreamsValid(model.config, trainStreams, evalStreams)
    ensures o == Epochs(model.config, Start(globalStep), 0, trainStreams, evalStreams)
  {
    var cfg := model.config;
    var s := Start(globalStep);
    var epoch := 0;
    while epoch < cfg.epochSize
      invariant epoch <= |trainStreams|
      invariant Epochs(cfg, Start(globalStep), 0, trainStreams, evalStreams)
             == Epochs(cfg, s, epoch, trainStreams, evalStreams)
    {
      ghost var atEpoch := s;
      s := s.(trainLog := s.trainLog + [EpochLine(epoch)], testLog := s.testLog + [EpochLine(epoch)]);
      var trained := TrainEpoch(model, s, trainStreams[epoch]);
      if trained.error.Some? {
        return trained;
      }
      var evaluated := EvalEpoch(model, trained.state, evalStreams[epoch]);
      if evaluated.error.Some? {
        return evaluated;
      }
      s := evaluated.state.(stepTime := 0.0, loss := 0.0);
      assert Epoch(cfg, atEpoch, epoch, trainStreams[epoch], evalStreams[epoch]) == Outcome(s, None);
      epoch := epoch + 1;
    }
    o := Outcome(s, None);
  }

  // ---------------------------------------------------------------------
  // The session `train` runs in

  /** The session `train` opens with `with tf.Session(...) as sess`: open
      inside the block, closed once the block ends. */
  datatype SessionState = Open | Closed

  /** The RuntimeError every call on a closed session raises. */
  datatype SessionError = ClosedSession

  /** create_model and the epochs in a session in the given state. The first
      session call (restoring the checkpoint or running the variable
      initializer in create_model) raises on a closed session, before any
      line is logged; in an open session the epochs run. */
  method TrainInSession(model: Seq2SeqModel, sess: SessionState, globalStep: nat,
                        trainStreams: seq<seq<Item>>, evalStreams: seq<seq<Item>>)
    returns (r: Result<Outcome, SessionError>)
    requires model.Valid() && model.config.stepsPerCheckpoint > 0
    requires |trainStreams| == model.config.epochSize
    requires StreamsValid(model.config, trainStreams, evalStreams)
    ensures sess == Closed ==> r == Failure(ClosedSession)
    ensures sess == Open ==> r == Success(Epochs(model.config, Start(globalStep), 0, trainStreams, evalStreams))
  {
    if sess == Closed {
      return Failure(ClosedSession);
    }
    var o := Train(model, globalStep, trainStreams, evalStreams);
    return Success(o);
  }

  /** `train` as written: the `with` block that opens the session holds only
      the first prints, and model creation and the loop follow it, so they
      run on the closed session and fail at once. */
  method TrainAsWritten(model: Seq2SeqModel, globalStep: nat,
                        trainStreams: seq<seq<Item>>, evalStreams: seq<seq<Item>>)
    returns (r: Result<Outcome, SessionError>)
    requires model.Valid() && model.config.stepsPerCheckpoint > 0
    requires |trainStreams| == model.config.epochSize
    requires StreamsValid(model.config, trainStreams, evalStreams)
    ensures r == Failure(ClosedSession)
  {
    var sess := Open;  // with tf.Session(config=sess_config) as sess:
    sess := Closed;    // the block ends before create_model is called
    r := TrainInSession(model, sess, globalStep, trainStreams, evalStreams);
  }

  /** `train` with model creation and the loop inside the session block:
      the run is that of Train. */
  method TrainInOpenSession(model: Seq2SeqModel, globalStep: nat,
                            trainStreams: seq<seq<Item>>, evalStreams: seq<seq<Item>>)
    returns (r: Result<Outcome, SessionError>)
    requires model.Valid() && model.config.stepsPerCheckpoint > 0
    requires |trainStreams| == model.config.epochSize
    requires StreamsValid(model.config, trainStreams, evalStreams)
    ensures r == Success(Epochs(model.config, Start(globalStep), 0, trainStreams, evalStreams))
  {
    var sess := Open;
    r := TrainInSession(model, sess, globalStep, trainStreams, evalStreams);
  }

  /** A run of at least one epoch in an open session writes the marker of
      epoch 0 first to both logs, whatever happens afterwards; the run on the
      closed session writes nothing. */
  lemma FirstEpochLogged(cfg: Config, globalStep: nat,
                         trainStreams: seq<seq<Item>>, evalStreams: seq<seq<Item>>)
    requires cfg.stepsPerCheckpoint > 0 && StreamsValid(cfg, trainStreams, evalStreams)
    requires |trainStreams| > 0
    ensures var s := Epochs(cfg, Start(globalStep), 0, trainStreams, evalStreams).state;
            && |s.trainLog| > 0 && s.trainLog[0] == EpochLine(0)
            && |s.testLog| > 0 && s.testLog[0] == EpochLine(0)
  {
    var first := Epoch(cfg, Start(globalStep), 0, trainStreams[0], evalStreams[0]);
    if first.error.None? {
      var s := Epochs(cfg, first.state, 1, trainStreams, evalStreams).state;
      assert s.trainLog[..|first.state.trainLog|] == first.state.trainLog;
      assert s.testLog[..|first.state.testLog|] == first.state.testLog;
    }
  }
}
