/** Seq2SeqModel: the per-bucket lists its constructor assembles, the batch
    builder `get_batch` and the shape check and feed routing of `step`. */
module Model {
  import opened Common
  import opened Graph

  /** The id at time `t` of batch slot `b`: the example's token while the
      example has one there, PAD for padding and for the synthetic rows. */
  function BatchEntry(data: seq<seq<nat>>, t: nat, b: nat): nat
  {
    if b < |data| && t < |data[b]| then data[b][t] else PadId
  }

  /** The loss weight of one id: 0.0 for PAD, 1.0 otherwise. */
  function WeightOf(id: nat): real
  {
    if id == PadId then 0.0 else 1.0
  }

  /** The time-major batch: `encoderSize` vectors of width `batchSize`. */
  function BatchInputs(data: seq<seq<nat>>, encoderSize: nat, batchSize: nat): seq<seq<nat>>
  {
    seq(encoderSize, t requires 0 <= t => seq(batchSize, b requires 0 <= b => BatchEntry(data, t, b)))
  }

  /** The weight mask parallel to a batch. */
  function WeightMask(inputs: seq<seq<nat>>): seq<seq<real>>
  {
    seq(|inputs|, t requires 0 <= t < |inputs| =>
      seq(|inputs[t]|, b requires 0 <= b < |inputs[t]| => WeightOf(inputs[t][b])))
  }

  /** Row k of the padded example list holds at least `encoderSize` ids, and
      its first `encoderSize` are the entries of batch slot k. */
  ghost predicate PaddedRow(row: seq<nat>, data: seq<seq<nat>>, k: nat, encoderSize: nat)
  {
    |row| >= encoderSize && forall t :: 0 <= t < encoderSize ==> row[t] == BatchEntry(data, t, k)
  }

  class Seq2SeqModel {
    const config: Config
    /** self.targets[i][j]: the target-id placeholder j of bucket i. */
    const targets: seq<seq<Slot>>
    /** self.target_weights[i][j]: the weight placeholder j of bucket i. */
    const targetWeights: seq<seq<Slot>>
    /** self.encoder_inputs[i]: the embedded encoder inputs of bucket i. */
    const encoderInputs: seq<seq<Embedded>>
    /** self.decoder_inputs[i]: the embedded decoder inputs of bucket i. */
    const decoderInputs: seq<seq<Embedded>>
    /** self.outputs[i]: one output tensor per decoder input of bucket i. */
    const outputs: seq<seq<Fetch>>

    ghost predicate Valid()
    {
      && |targets| == |config.buckets|
      && |targetWeights| == |config.buckets|
      && |encoderInputs| == |config.buckets|
      && |decoderInputs| == |config.buckets|
      && |outputs| == |config.buckets|
      && forall i :: 0 <= i < |config.buckets| ==>
           BucketWiring(i, config.buckets[i].encoderSize, config.batchSize, targets[i], targetWeights[i],
                        encoderInputs[i], decoderInputs[i], outputs[i])
    }

    /** The list assembly of __init__: for every bucket, bucket[0] target
        placeholders and bucket[0] weight placeholders; then for every bucket
        its encoder inputs (the targets' lookups, reversed) and decoder inputs
        (GO, then the targets' lookups but the last). */
    constructor (config: Config)
      ensures this.config == config && Valid()
    {
      this.config := config;
      var n := |config.buckets|;
      var ts: seq<seq<Slot>>, ws: seq<seq<Slot>> := [], [];
      var i := 0;
      while i < n
        invariant i <= n && |ts| == i && |ws| == i
        invariant forall k :: 0 <= k < i ==> SlotsWired(k, config.buckets[k].encoderSize, ts[k], ws[k])
      {
        var targetsJ, weightsJ := AssembleSlots(i, config.buckets[i].encoderSize);
        assert SlotsWired(i, config.buckets[i].encoderSize, targetsJ, weightsJ);
        ts, ws := ts + [targetsJ], ws + [weightsJ];
        i := i + 1;
      }
      var encs: seq<seq<Embedded>>, decs: seq<seq<Embedded>> := [], [];
      i := 0;
      while i < n
        invariant i <= n && |encs| == i && |decs| == i
        invariant forall k :: 0 <= k < i ==> InputsWired(|ts[k]|, config.batchSize, ts[k], encs[k], decs[k])
      {
        var enc, dec := AssembleInputs(ts[i], config.batchSize);
        assert InputsWired(|ts[i]|, config.batchSize, ts[i], enc, dec);
        encs, decs := encs + [enc], decs + [dec];
        i := i + 1;
      }
      var outs := seq(n, b requires 0 <= b < n => seq(|decs[b]|, l requires 0 <= l => Output(b, l)));
      forall b | 0 <= b < n
        ensures BucketWiring(b, config.buckets[b].encoderSize, config.batchSize, ts[b], ws[b], encs[b], decs[b], outs[b])
      {
        assert SlotsWired(b, config.buckets[b].encoderSize, ts[b], ws[b]);
        assert InputsWired(|ts[b]|, config.batchSize, ts[b], encs[b], decs[b]);
      }
      targets, targetWeights := ts, ws;
      encoderInputs, decoderInputs, outputs := encs, decs, outs;
    }

    /** get_batch: pad every example with PAD up to the bucket's encoder
        size, add all-PAD rows up to the batch size, transpose into
        time-major vectors and build the parallel weight mask. */
    method GetBatch(data: seq<seq<nat>>, bucketId: nat) returns (batchInputs: seq<seq<nat>>, batchWeights: seq<seq<real>>)
      requires bucketId < |config.buckets|
      ensures |batchInputs| == config.buckets[bucketId].encoderSize
      ensures |batchWeights| == config.buckets[bucketId].encoderSize
      ensures forall t :: 0 <= t < |batchInputs| ==>
                |batchInputs[t]| == config.batchSize && |batchWeights[t]| == config.batchSize
      ensures forall t, b :: 0 <= t < |batchInputs| && 0 <= b < config.batchSize ==>
                batchInputs[t][b] == BatchEntry(data, t, b)
      ensures forall t, b :: 0 <= t < |batchInputs| && 0 <= b < config.batchSize ==>
                (batchWeights[t][b] == 0.0 <==> batchInputs[t][b] == PadId) &&
                (batchWeights[t][b] == 1.0 <==> batchInputs[t][b] != PadId)
      ensures batchInputs == BatchInputs(data, config.buckets[bucketId].encoderSize, config.batchSize)
      ensures batchWeights == WeightMask(batchInputs)
    {
      var encoderSize := config.buckets[bucketId].encoderSize;
      var batchSize := config.batchSize;
      // Pad every example; a negative pad length gives no padding at all.
      var rows: seq<seq<nat>> := [];
      var i := 0;
      while i < |data|
        invariant i <= |data| && |rows| == i
        invariant forall k :: 0 <= k < i ==> PaddedRow(rows[k], data, k, encoderSize)
      {
        var pad := if encoderSize > |data[i]| then encoderSize - |data[i]| else 0;
        rows := rows + [data[i] + Repeat(PadId, pad)];
        i := i + 1;
      }
      while |rows| < batchSize
        invariant |rows| >= |data|
        invariant forall k :: 0 <= k < |rows| ==> PaddedRow(rows[k], data, k, encoderSize)
        decreases batchSize - |rows|
      {
        rows := rows + [Repeat(PadId, encoderSize)];
      }
      // Re-index into time-major vectors, with the weight of every slot.
      batchInputs, batchWeights := [], [];
      var t := 0;
      while t < encoderSize
        invariant t <= encoderSize && |batchInputs| == t && |batchWeights| == t
        invariant forall u :: 0 <= u < t ==> batchInputs[u] == seq(batchSize, b requires 0 <= b => BatchEntry(data, u, b))
        invariant forall u :: 0 <= u < t ==> batchWeights[u] == seq(batchSize, b requires 0 <= b => WeightOf(BatchEntry(data, u, b)))
      {
        var column: seq<nat> := [];
        var b := 0;
        while b < batchSize
          invariant b <= batchSize && |column| == b
          invariant forall c :: 0 <= c < b ==> column[c] == BatchEntry(data, t, c)
        {
          column := column + [rows[b][t]];
          b := b + 1;
        }
        var weight := new real[batchSize](_ => 1.0);
        b := 0;
        while b < batchSize
          invariant b <= batchSize
          invariant forall c :: 0 <= c < batchSize ==>
                      weight[c] == if c < b && rows[c][t] == PadId then 0.0 else 1.0
        {
          if rows[b][t] == PadId {
            weight[b] := 0.0;
          }
          b := b + 1;
        }
        batchInputs := batchInputs + [column];
        batchWeights := batchWeights + [weight[..]];
        t := t + 1;
      }
      forall u | 0 <= u < encoderSize ensures batchWeights[u] == WeightMask(batchInputs)[u] {
        assert |batchInputs[u]| == batchSize;
      }
    }

    /** step: check the lengths against the bucket, feed input vector l to
        target slot l and weight vector l to weight slot l, fetch
        (update, norm, loss) when training or (loss, outputs) otherwise, and
        return what the session computes. */
    method Step<V>(session: (Feed, Fetch) -> V, inputs: seq<seq<nat>>, weights: seq<seq<real>>,
                   bucketId: nat, forwardOnly: bool) returns (r: StepResult<V>)
      requires Valid() && bucketId < |config.buckets|
      ensures r == StepSpec(config.buckets[bucketId], bucketId, targets[bucketId], targetWeights[bucketId],
                            outputs[bucketId], session, inputs, weights, forwardOnly)
    {
      var encoderSize, decoderSize := config.buckets[bucketId].encoderSize, config.buckets[bucketId].decoderSize;
      if |inputs| != encoderSize {
        return ValueError(EncoderLength(|inputs|, encoderSize));
      }
      if |weights| != decoderSize {
        return ValueError(WeightsLength(|weights|, decoderSize));
      }
      var targetSlots, weightSlots := targets[bucketId], targetWeights[bucketId];
      assert |targetSlots| == encoderSize && |weightSlots| == encoderSize;
      var feed := FeedTargets(targetSlots, inputs);
      var inRange;
      feed, inRange := FeedWeights(feed, weightSlots, weights);
      if !inRange {
        return IndexError;
      }
      var fetches := OutputFetches(bucketId, outputs[bucketId], decoderSize, forwardOnly);
      if !(LossReads(targetSlots, weightSlots) <= feed.Keys) {
        // session.run raises on a placeholder the loss reads but the feed lacks
        return MissingFeed;
      }
      var values := Run(session, fetches, feed);
      if !forwardOnly {
        r := Ran(Some(values[1]), values[2], None);
      } else {
        r := Ran(None, values[0], Some(values[1..]));
      }
    }
  }

  /** A batch from get_batch always passes the encoder-length check of
      `step`; it passes the weights-length check, and then runs, exactly when
      the bucket's encoder and decoder sizes agree (the mask has one vector
      per encoder position). */
  lemma StepAcceptsBatch<V>(model: Seq2SeqModel, session: (Feed, Fetch) -> V, data: seq<seq<nat>>,
                            bucketId: nat, forwardOnly: bool)
    requires model.Valid() && bucketId < |model.config.buckets|
    ensures var bucket := model.config.buckets[bucketId];
            var inputs := BatchInputs(data, bucket.encoderSize, model.config.batchSize);
            var r := StepSpec(bucket, bucketId, model.targets[bucketId], model.targetWeights[bucketId],
                              model.outputs[bucketId], session, inputs, WeightMask(inputs), forwardOnly);
            && (r.Ran? <==> bucket.encoderSize == bucket.decoderSize)
            && (!r.Ran? ==> r == ValueError(WeightsLength(bucket.encoderSize, bucket.decoderSize)))
  {
    var bucket := model.config.buckets[bucketId];
    var inputs := BatchInputs(data, bucket.encoderSize, model.config.batchSize);
    StepMissingFeed(model, session, inputs, WeightMask(inputs), bucketId, forwardOnly);
  }

  /** On a built model, `step` raises IndexError exactly when the lengths
      pass the ValueError checks but the decoder size exceeds the encoder
      size: a bucket has only bucket[0] weight placeholders. */
  lemma StepIndexError<V>(model: Seq2SeqModel, session: (Feed, Fetch) -> V, inputs: seq<seq<nat>>,
                          weights: seq<seq<real>>, bucketId: nat, forwardOnly: bool)
    requires model.Valid() && bucketId < |model.config.buckets|
    ensures var bucket := model.config.buckets[bucketId];
            var r := StepSpec(bucket, bucketId, model.targets[bucketId], model.targetWeights[bucketId],
                              model.outputs[bucketId], session, inputs, weights, forwardOnly);
            r.IndexError? <==> |inputs| == bucket.encoderSize && |weights| == bucket.decoderSize &&
                               bucket.decoderSize > bucket.encoderSize
  {
  }

  /** On a built model, session.run raises for an unfed placeholder exactly
      when the lengths pass the checks and the decoder size is below the
      encoder size: weight placeholders decoder_size .. encoder_size - 1 of
      the bucket stay unfed, and its loss reads all of them. */
  lemma StepMissingFeed<V>(model: Seq2SeqModel, session: (Feed, Fetch) -> V, inputs: seq<seq<nat>>,
                           weights: seq<seq<real>>, bucketId: nat, forwardOnly: bool)
    requires model.Valid() && bucketId < |model.config.buckets|
    ensures var bucket := model.config.buckets[bucketId];
            var r := StepSpec(bucket, bucketId, model.targets[bucketId], model.targetWeights[bucketId],
                              model.outputs[bucketId], session, inputs, weights, forwardOnly);
            r.MissingFeed? <==> |inputs| == bucket.encoderSize && |weights| == bucket.decoderSize &&
                                bucket.decoderSize < bucket.encoderSize
  {
    var bucket := model.config.buckets[bucketId];
    var n := bucket.encoderSize;
    var ts, ws := model.targets[bucketId], model.targetWeights[bucketId];
    assert BucketWiring(bucketId, n, model.config.batchSize, ts, ws, model.encoderInputs[bucketId],
                        model.decoderInputs[bucketId], model.outputs[bucketId]);
    if |inputs| == n && |weights| == bucket.decoderSize && bucket.decoderSize <= n {
      ModelFeedRouting(model, bucketId, inputs, weights);
      var feed := FeedFor(ts, ws, inputs, weights);
      if bucket.decoderSize < n {
        assert ws[bucket.decoderSize] in LossReads(ts, ws);
        assert ws[bucket.decoderSize] !in feed.Keys;
      } else {
        forall s | s in LossReads(ts, ws) ensures s in feed.Keys {
          if s in ts {
            var l :| 0 <= l < n && ts[l] == s;
          } else {
            var l :| 0 <= l < n && ws[l] == s;
          }
        }
      }
    }
  }

  /** On a built model, the feed of `step` for bucket b holds exactly the
      placeholders TargetSlot(b, l) for l < |inputs| and WeightSlot(b, l) for
      l < |weights|, holding inputs[l] and weights[l]. */
  lemma ModelFeedRouting(model: Seq2SeqModel, bucketId: nat, inputs: seq<seq<nat>>, weights: seq<seq<real>>)
    requires model.Valid() && bucketId < |model.config.buckets|
    requires |inputs| <= model.config.buckets[bucketId].encoderSize
    requires |weights| <= model.config.buckets[bucketId].encoderSize
    ensures var feed := FeedFor(model.targets[bucketId], model.targetWeights[bucketId], inputs, weights);
            && feed.Keys == (set l | 0 <= l < |inputs| :: TargetSlot(bucketId, l))
                          + (set l | 0 <= l < |weights| :: WeightSlot(bucketId, l))
            && (forall l :: 0 <= l < |inputs| ==> feed[TargetSlot(bucketId, l)] == Ids(inputs[l]))
            && (forall l :: 0 <= l < |weights| ==> feed[WeightSlot(bucketId, l)] == Weights(weights[l]))
  {
    var bucket := model.config.buckets[bucketId];
    var ts, ws := model.targets[bucketId], model.targetWeights[bucketId];
    assert BucketWiring(bucketId, bucket.encoderSize, model.config.batchSize, ts, ws,
                        model.encoderInputs[bucketId], model.decoderInputs[bucketId], model.outputs[bucketId]);
    forall s | s in ts ensures s.TargetSlot? {
      var i :| 0 <= i < |ts| && ts[i] == s;
    }
    forall s | s in ws ensures s.WeightSlot? {
      var i :| 0 <= i < |ws| && ws[i] == s;
    }
    FeedRouting(ts, ws, inputs, weights);
    assert (set l | 0 <= l < |inputs| :: ts[l]) == (set l | 0 <= l < |inputs| :: TargetSlot(bucketId, l));
    assert (set l | 0 <= l < |weights| :: ws[l]) == (set l | 0 <= l < |weights| :: WeightSlot(bucketId, l));
  }
}
