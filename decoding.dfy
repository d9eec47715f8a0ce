/** The list logic of `decode`: choosing a bucket for one sentence, cutting
    the greedy output at the first EOS, and mapping ids back to words. */
module Decoding {
  import opened Common
  import opened Graph
  import opened Model

  // ---------------------------------------------------------------------
  // Bucket choice

  /** The first bucket from `from` on whose encoder size is at least
      `length`, or the last bucket when none is. */
  function FirstFit(buckets: seq<Bucket>, length: nat, from: nat): (i: nat)
    requires from < |buckets|
    ensures from <= i < |buckets|
    ensures forall j :: from <= j < i ==> buckets[j].encoderSize < length
    ensures buckets[i].encoderSize >= length || i == |buckets| - 1
    decreases |buckets| - from
  {
    if buckets[from].encoderSize >= length || from == |buckets| - 1 then from
    else FirstFit(buckets, length, from + 1)
  }

  /** The bucket `decode` feeds a sentence of `length` ids to: the first one
      whose encoder size covers it, and the last one when none does. */
  function BucketFor(buckets: seq<Bucket>, length: nat): (i: nat)
    requires |buckets| > 0
    ensures i < |buckets|
    ensures forall j :: 0 <= j < i ==> buckets[j].encoderSize < length
    ensures (exists j :: 0 <= j < |buckets| && buckets[j].encoderSize >= length) <==> buckets[i].encoderSize >= length
    ensures buckets[i].encoderSize < length ==> i == |buckets| - 1
  {
    FirstFit(buckets, length, 0)
  }

  /** The bucket list is sorted by encoder size. */
  ghost predicate SortedBuckets(buckets: seq<Bucket>)
  {
    forall i :: 0 < i < |buckets| ==> buckets[i - 1].encoderSize <= buckets[i].encoderSize
  }

  /** In a sorted bucket list, encoder sizes never decrease. */
  lemma {:induction false} SortedMonotone(buckets: seq<Bucket>, i: nat, j: nat)
    requires SortedBuckets(buckets) && i <= j < |buckets|
    ensures buckets[i].encoderSize <= buckets[j].encoderSize
    decreases j - i
  {
    if i < j {
      SortedMonotone(buckets, i, j - 1);
    }
  }

  /** Bucket assignment is monotonic: a sentence that fits bucket i of a
      sorted list fits every later bucket. */
  lemma FitsLater(buckets: seq<Bucket>, length: nat, i: nat, j: nat)
    requires SortedBuckets(buckets) && i <= j < |buckets| && buckets[i].encoderSize >= length
    ensures buckets[j].encoderSize >= length
  {
    SortedMonotone(buckets, i, j);
  }

  /** With a sorted list the chosen bucket is a smallest one that fits. */
  lemma BucketForSmallest(buckets: seq<Bucket>, length: nat, j: nat)
    requires |buckets| > 0 && SortedBuckets(buckets)
    requires j < |buckets| && buckets[j].encoderSize >= length
    ensures buckets[BucketFor(buckets, length)].encoderSize >= length
    ensures buckets[BucketFor(buckets, length)].encoderSize <= buckets[j].encoderSize
  {
    var i := BucketFor(buckets, length);
    SortedMonotone(buckets, i, j);
  }

  // ---------------------------------------------------------------------
  // EOS truncation

  /** outputs.index(x): the position of the first x. */
  function IndexOf(s: seq<nat>, x: nat): (i: nat)
    requires x in s
    ensures i < |s| && s[i] == x && x !in s[..i]
  {
    if s[0] == x then 0
    else
      assert x in s[1..];
      var i := IndexOf(s[1..], x);
      assert s[..i + 1] == [s[0]] + s[1..][..i];
      i + 1
  }

  /** `outputs[:outputs.index(EOS_ID)]` when EOS occurs, the outputs unchanged
      otherwise. */
  function TruncateAtEos(outputs: seq<nat>): (r: seq<nat>)
    ensures r <= outputs
    ensures EosId !in r
    ensures EosId in outputs ==> |r| < |outputs| && outputs[|r|] == EosId
    ensures EosId !in outputs ==> r == outputs
  {
    if EosId in outputs then outputs[..IndexOf(outputs, EosId)] else outputs
  }

  // ---------------------------------------------------------------------
  // Id to word mapping

  /** The printed string: each id that indexes the vocabulary contributes its
      word and a space; ids past its end raise IndexError, which is swallowed. */
  function Words(vocab: seq<string>, ids: seq<nat>): string
    decreases |ids|
  {
    if ids == [] then ""
    else
      var last := ids[|ids| - 1];
      Words(vocab, ids[..|ids| - 1]) + (if last < |vocab| then vocab[last] + " " else "")
  }

  /** The ids that index the vocabulary, in order. */
  function Known(vocab: seq<string>, ids: seq<nat>): (r: seq<nat>)
    ensures forall i :: 0 <= i < |r| ==> r[i] < |vocab|
    decreases |ids|
  {
    if ids == [] then []
    else
      var last := ids[|ids| - 1];
      Known(vocab, ids[..|ids| - 1]) + (if last < |vocab| then [last] else [])
  }

  /** The loop with its try/except around each lookup. */
  method IdsToText(vocab: seq<string>, ids: seq<nat>) returns (text: string)
    ensures text == Words(vocab, ids)
  {
    text := "";
    var i := 0;
    while i < |ids|
      invariant i <= |ids| && text == Words(vocab, ids[..i])
    {
      assert ids[..i + 1][..i] == ids[..i];
      if ids[i] < |vocab| {
        text := text + vocab[ids[i]] + " ";
      }
      i := i + 1;
    }
    assert ids[..|ids|] == ids;
  }

  /** The words of a concatenation are the concatenation of the words. */
  lemma {:induction false} WordsAppend(vocab: seq<string>, a: seq<nat>, b: seq<nat>)
    ensures Words(vocab, a + b) == Words(vocab, a) + Words(vocab, b)
    decreases |b|
  {
    if b != [] {
      var n := |b| - 1;
      assert (a + b)[..|a + b| - 1] == a + b[..n];
      WordsAppend(vocab, a, b[..n]);
    } else {
      assert a + b == a;
    }
  }

  /** Unknown ids are skipped silently: the printed string is that of the
      known ids alone. */
  lemma {:induction false} WordsSkipUnknown(vocab: seq<string>, ids: seq<nat>)
    ensures Words(vocab, ids) == Words(vocab, Known(vocab, ids))
    decreases |ids|
  {
    if ids != [] {
      var n := |ids| - 1;
      var last := ids[n];
      WordsSkipUnknown(vocab, ids[..n]);
      var front := Known(vocab, ids[..n]);
      var tail := if last < |vocab| then [last] else [];
      WordsAppend(vocab, front, tail);
      if last < |vocab| {
        assert ([] + tail)[..0] == [];
      }
    }
  }

  /** No id is skipped exactly when every id indexes the vocabulary. */
  lemma {:induction false} KnownAll(vocab: seq<string>, ids: seq<nat>)
    ensures Known(vocab, ids) == ids <==> forall i :: 0 <= i < |ids| ==> ids[i] < |vocab|
    decreases |ids|
  {
    if ids != [] {
      var n := |ids| - 1;
      KnownAll(vocab, ids[..n]);
      KnownShorter(vocab, ids[..n]);
      if Known(vocab, ids) == ids {
        assert Known(vocab, ids[..n]) == ids[..n];
      }
    }
  }

  lemma {:induction false} KnownShorter(vocab: seq<string>, ids: seq<nat>)
    ensures |Known(vocab, ids)| <= |ids|
    decreases |ids|
  {
    if ids != [] {
      KnownShorter(vocab, ids[..|ids| - 1]);
    }
  }

  // ---------------------------------------------------------------------
  // One sentence

  /** The ids the greedy decoder reads off a one-sentence step: the argmax
      of batch row 0 of every output of the chosen bucket. */
  function GreedyIds<V>(model: Seq2SeqModel, session: (Feed, Fetch) -> V, argmax: V -> nat,
                        tokenIds: seq<nat>): seq<nat>
    requires model.Valid() && |model.config.buckets| > 0
  {
    var b := BucketFor(model.config.buckets, |tokenIds|);
    var bucket := model.config.buckets[b];
    var inputs := BatchInputs([tokenIds], bucket.encoderSize, model.config.batchSize);
    assert BucketWiring(b, bucket.encoderSize, model.config.batchSize, model.targets[b], model.targetWeights[b],
                        model.encoderInputs[b], model.decoderInputs[b], model.outputs[b]);
    var feed := FeedFor(model.targets[b], model.targetWeights[b], inputs, WeightMask(inputs));
    seq(bucket.decoderSize, l requires 0 <= l => argmax(session(feed, Output(b, l))))
  }

  /** One pass of the decode loop: choose the bucket, build a one-sentence
      batch, run a forward-only step, take the argmax ids, cut at EOS and
      map the ids to words. `step` raises ValueError when the bucket's
      encoder and decoder sizes differ. */
  method DecodeSentence<V>(model: Seq2SeqModel, session: (Feed, Fetch) -> V, argmax: V -> nat,
                           vocab: seq<string>, tokenIds: seq<nat>) returns (r: Result<string, ShapeError>)
    requires model.Valid() && |model.config.buckets| > 0
    ensures var bucket := model.config.buckets[BucketFor(model.config.buckets, |tokenIds|)];
            && (r.Failure? <==> bucket.encoderSize != bucket.decoderSize)
            && (r.Failure? ==> r.error == WeightsLength(bucket.encoderSize, bucket.decoderSize))
    ensures r.Success? ==> r.value == Words(vocab, TruncateAtEos(GreedyIds(model, session, argmax, tokenIds)))
  {
    var bucketId := BucketFor(model.config.buckets, |tokenIds|);
    var inputs, weights := model.GetBatch([tokenIds], bucketId);
    var step := model.Step(session, inputs, weights, bucketId, true);
    StepAcceptsBatch(model, session, [tokenIds], bucketId, true);
    if step.ValueError? {
      return Failure(step.error);
    }
    var logits := step.outputs.value;
    var outputs := seq(|logits|, l requires 0 <= l < |logits| => argmax(logits[l]));
    GreedyIdsOfStep(model, session, argmax, tokenIds, step, outputs);
    var text := IdsToText(vocab, TruncateAtEos(outputs));
    return Success(text);
  }

  /** The argmax ids of a successful forward-only step on the batch built
      for the sentence are GreedyIds. */
  lemma GreedyIdsOfStep<V>(model: Seq2SeqModel, session: (Feed, Fetch) -> V, argmax: V -> nat,
                           tokenIds: seq<nat>, step: StepResult<V>, outputs: seq<nat>)
    requires model.Valid() && |model.config.buckets| > 0
    requires var b := BucketFor(model.config.buckets, |tokenIds|);
             var bucket := model.config.buckets[b];
             var inputs := BatchInputs([tokenIds], bucket.encoderSize, model.config.batchSize);
             step == StepSpec(bucket, b, model.targets[b], model.targetWeights[b], model.outputs[b],
                              session, inputs, WeightMask(inputs), true)
    requires step.Ran?
    requires |outputs| == |step.outputs.value|
    requires forall l :: 0 <= l < |outputs| ==> outputs[l] == argmax(step.outputs.value[l])
    ensures outputs == GreedyIds(model, session, argmax, tokenIds)
  {
  }
}
