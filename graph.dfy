/** The per-bucket graph wiring of Seq2SeqModel, seen as plain values: the
    placeholders of each bucket, the symbolic embedding lookups built from
    them, the tensors `step` can fetch, the input feed it builds, and what
    one call of `step` returns. The tensor computations themselves are not
    modelled: a session is a function from (feed, fetched tensor) to a value. */
module Graph {
  import opened Common

  /** A placeholder of bucket `bucket`: the id vector of target position
      `pos`, or the weight vector of position `pos`. */
  datatype Slot = TargetSlot(bucket: nat, pos: nat) | WeightSlot(bucket: nat, pos: nat)

  /** The embedding lookup of a placeholder, or of a constant id vector. */
  datatype Embedded = LookupSlot(slot: Slot) | LookupIds(ids: seq<nat>)

  /** The tensors of bucket `bucket` that `step` can fetch. */
  datatype Fetch =
    | Update(bucket: nat)
    | GradientNorm(bucket: nat)
    | Loss(bucket: nat)
    | Output(bucket: nat, pos: nat)

  datatype FeedValue = Ids(ids: seq<nat>) | Weights(weights: seq<real>)

  /** The input feed of session.run, keyed by placeholder. */
  type Feed = map<Slot, FeedValue>

  /** The two ValueErrors `step` raises on a shape mismatch. */
  datatype ShapeError = EncoderLength(got: nat, want: nat) | WeightsLength(got: nat, want: nat)

  /** What `step` does: raise ValueError, raise IndexError, have session.run
      raise because a placeholder the fetched loss reads is not fed, or
      return the triple (gradient norm, loss, outputs). */
  datatype StepResult<V> =
    | ValueError(error: ShapeError)
    | IndexError
    | MissingFeed
    | Ran(norm: Option<V>, loss: V, outputs: Option<seq<V>>)

  // ---------------------------------------------------------------------
  // Assembly of the per-bucket lists in the model's constructor

  /** The inner loop over `xrange(bucket[0])`: one target placeholder and one
      weight placeholder per encoder position of bucket `i`. */
  method AssembleSlots(i: nat, n: nat) returns (targetsJ: seq<Slot>, weightsJ: seq<Slot>)
    ensures |targetsJ| == n && |weightsJ| == n
    ensures forall j :: 0 <= j < n ==> targetsJ[j] == TargetSlot(i, j)
    ensures forall j :: 0 <= j < n ==> weightsJ[j] == WeightSlot(i, j)
  {
    targetsJ, weightsJ := [], [];
    var j := 0;
    while j < n
      invariant j <= n && |targetsJ| == j && |weightsJ| == j
      invariant forall k :: 0 <= k < j ==> targetsJ[k] == TargetSlot(i, k)
      invariant forall k :: 0 <= k < j ==> weightsJ[k] == WeightSlot(i, k)
    {
      targetsJ := targetsJ + [TargetSlot(i, j)];
      weightsJ := weightsJ + [WeightSlot(i, j)];
      j := j + 1;
    }
  }

  /** The encoder and decoder input lists of one bucket: every target is
      looked up once; the lookup is inserted at the front of the encoder list
      and, unless it is the last target, appended to the decoder list; the
      lookup of a batch of GO ids is then inserted at the front of the
      decoder list. */
  method AssembleInputs(targetsJ: seq<Slot>, batchSize: nat) returns (enc: seq<Embedded>, dec: seq<Embedded>)
    ensures |enc| == |targetsJ|
    ensures forall k :: 0 <= k < |enc| ==> enc[k] == LookupSlot(targetsJ[|targetsJ| - 1 - k])
    ensures |dec| == if |targetsJ| == 0 then 1 else |targetsJ|
    ensures dec[0] == LookupIds(Repeat(GoId, batchSize))
    ensures forall k :: 0 < k < |dec| ==> dec[k] == LookupSlot(targetsJ[k - 1])
    ensures forall k :: 0 < k < |targetsJ| ==> dec[k] == enc[|targetsJ| - k]
  {
    var n := |targetsJ|;
    enc, dec := [], [];
    var j := 0;
    while j < n
      invariant j <= n && |enc| == j
      invariant forall k :: 0 <= k < j ==> enc[k] == LookupSlot(targetsJ[j - 1 - k])
      invariant |dec| == if j == n && j > 0 then j - 1 else j
      invariant forall k :: 0 <= k < |dec| ==> dec[k] == LookupSlot(targetsJ[k])
    {
      var lookup := LookupSlot(targetsJ[j]);
      enc := [lookup] + enc;
      if j != n - 1 {
        dec := dec + [lookup];
      }
      j := j + 1;
    }
    dec := [LookupIds(Repeat(GoId, batchSize))] + dec;
  }

  /** The placeholders of bucket `i` of encoder size `n`. */
  ghost predicate SlotsWired(i: nat, n: nat, targetsJ: seq<Slot>, weightsJ: seq<Slot>)
  {
    && |targetsJ| == n && |weightsJ| == n
    && (forall j :: 0 <= j < n ==> targetsJ[j] == TargetSlot(i, j))
    && (forall j :: 0 <= j < n ==> weightsJ[j] == WeightSlot(i, j))
  }

  /** The encoder and decoder inputs built from `n` target placeholders. */
  ghost predicate InputsWired(n: nat, batchSize: nat, targetsJ: seq<Slot>, enc: seq<Embedded>, dec: seq<Embedded>)
    requires |targetsJ| == n
  {
    && |enc| == n
    && (forall k :: 0 <= k < n ==> enc[k] == LookupSlot(targetsJ[n - 1 - k]))
    && |dec| == (if n == 0 then 1 else n)
    && dec[0] == LookupIds(Repeat(GoId, batchSize))
    && (forall k :: 0 < k < |dec| ==> dec[k] == LookupSlot(targetsJ[k - 1]))
  }

  /** Everything the constructor wires up for bucket `i` of encoder size `n`. */
  ghost predicate BucketWiring(i: nat, n: nat, batchSize: nat, targetsJ: seq<Slot>, weightsJ: seq<Slot>,
                               enc: seq<Embedded>, dec: seq<Embedded>, outs: seq<Fetch>)
  {
    && SlotsWired(i, n, targetsJ, weightsJ)
    && InputsWired(n, batchSize, targetsJ, enc, dec)
    && |outs| == |dec|
    && (forall l :: 0 <= l < |outs| ==> outs[l] == Output(i, l))
  }

  // ---------------------------------------------------------------------
  // The input feed of `step`

  ghost predicate Distinct(keys: seq<Slot>)
  {
    forall i, j :: 0 <= i < j < |keys| ==> keys[i] != keys[j]
  }

  /** The feed after `feed[keys[l]] = values[l]` for l = 0, 1, ... in order. */
  function Put(m: Feed, keys: seq<Slot>, values: seq<FeedValue>): Feed
    requires |keys| == |values|
    decreases |keys|
  {
    if keys == [] then m
    else Put(m, keys[..|keys| - 1], values[..|values| - 1])[keys[|keys| - 1] := values[|values| - 1]]
  }

  lemma {:induction false} PutKeys(m: Feed, keys: seq<Slot>, values: seq<FeedValue>)
    requires |keys| == |values|
    ensures Put(m, keys, values).Keys == m.Keys + (set k | k in keys)
    decreases |keys|
  {
    if keys != [] {
      var n := |keys| - 1;
      PutKeys(m, keys[..n], values[..n]);
      assert keys == keys[..n] + [keys[n]];
    }
  }

  lemma {:induction false} PutAt(m: Feed, keys: seq<Slot>, values: seq<FeedValue>, l: nat)
    requires |keys| == |values| && Distinct(keys) && l < |keys|
    ensures keys[l] in Put(m, keys, values) && Put(m, keys, values)[keys[l]] == values[l]
    decreases |keys|
  {
    var n := |keys| - 1;
    if l < n {
      assert keys[l] == keys[..n][l] && values[l] == values[..n][l];
      PutAt(m, keys[..n], values[..n], l);
    }
  }

  lemma {:induction false} PutElsewhere(m: Feed, keys: seq<Slot>, values: seq<FeedValue>, k: Slot)
    requires |keys| == |values| && k !in keys
    ensures (k in Put(m, keys, values)) == (k in m)
    ensures k in m ==> Put(m, keys, values)[k] == m[k]
    decreases |keys|
  {
    if keys != [] {
      var n := |keys| - 1;
      PutElsewhere(m, keys[..n], values[..n], k);
    }
  }

  function IdsValues(inputs: seq<seq<nat>>): (r: seq<FeedValue>)
    ensures |r| == |inputs| && forall i :: 0 <= i < |inputs| ==> r[i] == Ids(inputs[i])
  {
    seq(|inputs|, i requires 0 <= i < |inputs| => Ids(inputs[i]))
  }

  function WeightValues(weights: seq<seq<real>>): (r: seq<FeedValue>)
    ensures |r| == |weights| && forall i :: 0 <= i < |weights| ==> r[i] == Weights(weights[i])
  {
    seq(|weights|, i requires 0 <= i < |weights| => Weights(weights[i]))
  }

  /** The input feed `step` builds: input vector l goes to the bucket's target
      slot l, then weight vector l to its weight slot l. */
  function FeedFor(targetSlots: seq<Slot>, weightSlots: seq<Slot>,
                   inputs: seq<seq<nat>>, weights: seq<seq<real>>): Feed
    requires |inputs| <= |targetSlots| && |weights| <= |weightSlots|
  {
    Put(Put(map[], targetSlots[..|inputs|], IdsValues(inputs)), weightSlots[..|weights|], WeightValues(weights))
  }

  /** Feed routing: with distinct target slots and distinct weight slots, the
      feed holds exactly the first |inputs| target slots and the first
      |weights| weight slots, and slot l holds inputs[l] / weights[l]. */
  lemma FeedRouting(targetSlots: seq<Slot>, weightSlots: seq<Slot>,
                    inputs: seq<seq<nat>>, weights: seq<seq<real>>)
    requires |inputs| <= |targetSlots| && |weights| <= |weightSlots|
    requires Distinct(targetSlots) && Distinct(weightSlots)
    requires forall s :: s in targetSlots ==> s.TargetSlot?
    requires forall s :: s in weightSlots ==> s.WeightSlot?
    ensures FeedFor(targetSlots, weightSlots, inputs, weights).Keys
         == (set l | 0 <= l < |inputs| :: targetSlots[l]) + (set l | 0 <= l < |weights| :: weightSlots[l])
    ensures forall l :: 0 <= l < |inputs| ==>
              FeedFor(targetSlots, weightSlots, inputs, weights)[targetSlots[l]] == Ids(inputs[l])
    ensures forall l :: 0 <= l < |weights| ==>
              FeedFor(targetSlots, weightSlots, inputs, weights)[weightSlots[l]] == Weights(weights[l])
  {
    var ts, ws := targetSlots[..|inputs|], weightSlots[..|weights|];
    var first := Put(map[], ts, IdsValues(inputs));
    PrefixSlots(targetSlots, |inputs|);
    PrefixSlots(weightSlots, |weights|);
    PutKeys(map[], ts, IdsValues(inputs));
    PutKeys(first, ws, WeightValues(weights));
    forall l | 0 <= l < |inputs|
      ensures FeedFor(targetSlots, weightSlots, inputs, weights)[targetSlots[l]] == Ids(inputs[l])
    {
      assert ts[l] == targetSlots[l];
      PutAt(map[], ts, IdsValues(inputs), l);
      assert targetSlots[l] in targetSlots;
      PutElsewhere(first, ws, WeightValues(weights), targetSlots[l]);
    }
    forall l | 0 <= l < |weights|
      ensures FeedFor(targetSlots, weightSlots, inputs, weights)[weightSlots[l]] == Weights(weights[l])
    {
      assert ws[l] == weightSlots[l];
      PutAt(first, ws, WeightValues(weights), l);
    }
  }

  /** The first n slots of a list, as a set and as a list. */
  lemma PrefixSlots(keys: seq<Slot>, n: nat)
    requires n <= |keys|
    ensures (set k | k in keys[..n]) == (set l | 0 <= l < n :: keys[l])
    ensures forall k :: k in keys[..n] ==> k in keys
    ensures Distinct(keys) ==> Distinct(keys[..n])
  {
  }

  // ---------------------------------------------------------------------
  // One call of `step`

  /** session.run(fetches, feed): the value of every fetched tensor, in order. */
  function Run<V>(session: (Feed, Fetch) -> V, fetches: seq<Fetch>, feed: Feed): (values: seq<V>)
    ensures |values| == |fetches|
    ensures forall i :: 0 <= i < |fetches| ==> values[i] == session(feed, fetches[i])
  {
    seq(|fetches|, i requires 0 <= i < |fetches| => session(feed, fetches[i]))
  }

  /** The output feed: the update op, the gradient norm and the loss when
      training; the loss and the first `decoderSize` outputs otherwise. */
  function OutputFeed(b: nat, outputFetches: seq<Fetch>, decoderSize: nat, forwardOnly: bool): seq<Fetch>
    requires forwardOnly ==> decoderSize <= |outputFetches|
  {
    if !forwardOnly then [Update(b), GradientNorm(b), Loss(b)]
    else [Loss(b)] + outputFetches[..decoderSize]
  }

  /** The first input-feed loop of `step`: input vector l goes to target
      slot l. */
  method FeedTargets(targetSlots: seq<Slot>, inputs: seq<seq<nat>>) returns (feed: Feed)
    requires |inputs| <= |targetSlots|
    ensures feed == Put(map[], targetSlots[..|inputs|], IdsValues(inputs))
  {
    feed := map[];
    var l := 0;
    while l < |inputs|
      invariant l <= |inputs|
      invariant feed == Put(map[], targetSlots[..l], IdsValues(inputs[..l]))
    {
      assert targetSlots[..l + 1][..l] == targetSlots[..l];
      assert IdsValues(inputs[..l + 1])[..l] == IdsValues(inputs[..l]);
      feed := feed[targetSlots[l] := Ids(inputs[l])];
      l := l + 1;
    }
    assert inputs[..|inputs|] == inputs;
  }

  /** The second input-feed loop of `step`: weight vector l goes to weight
      slot l. Indexing past the weight slots raises IndexError, reported as
      `inRange` being false. */
  method FeedWeights(base: Feed, weightSlots: seq<Slot>, weights: seq<seq<real>>)
    returns (feed: Feed, inRange: bool)
    ensures inRange <==> |weights| <= |weightSlots|
    ensures inRange ==> feed == Put(base, weightSlots[..|weights|], WeightValues(weights))
  {
    feed := base;
    var l := 0;
    while l < |weights|
      invariant l <= |weights| && l <= |weightSlots|
      invariant feed == Put(base, weightSlots[..l], WeightValues(weights[..l]))
    {
      if l == |weightSlots| {
        return feed, false;
      }
      assert weightSlots[..l + 1][..l] == weightSlots[..l];
      assert WeightValues(weights[..l + 1])[..l] == WeightValues(weights[..l]);
      feed := feed[weightSlots[l] := Weights(weights[l])];
      l := l + 1;
    }
    assert weights[..|weights|] == weights;
    inRange := true;
  }

  /** The output-feed construction of `step`, with its loop over the output
      tensors in forward-only mode. */
  method OutputFetches(b: nat, outputFetches: seq<Fetch>, decoderSize: nat, forwardOnly: bool)
    returns (fetches: seq<Fetch>)
    requires forwardOnly ==> decoderSize <= |outputFetches|
    ensures fetches == OutputFeed(b, outputFetches, decoderSize, forwardOnly)
  {
    if !forwardOnly {
      fetches := [Update(b), GradientNorm(b), Loss(b)];
    } else {
      fetches := [Loss(b)];
      var l := 0;
      while l < decoderSize
        invariant l <= decoderSize && fetches == [Loss(b)] + outputFetches[..l]
      {
        assert outputFetches[..l + 1] == outputFetches[..l] + [outputFetches[l]];
        fetches := fetches + [outputFetches[l]];
        l := l + 1;
      }
    }
  }

  /** The placeholders the loss of a bucket reads: the sequence loss over its
      targets and its weights. The loss is fetched in both modes, and the
      gradient norm and the update op are computed from it. */
  function LossReads(targetSlots: seq<Slot>, weightSlots: seq<Slot>): set<Slot>
  {
    (set s | s in targetSlots) + (set s | s in weightSlots)
  }

  /** What `step` does for bucket `b` of the given shape, whose target
      placeholders, weight placeholders and output tensors are given. */
  function StepSpec<V>(bucket: Bucket, b: nat, targetSlots: seq<Slot>, weightSlots: seq<Slot>,
                       outputFetches: seq<Fetch>, session: (Feed, Fetch) -> V,
                       inputs: seq<seq<nat>>, weights: seq<seq<real>>, forwardOnly: bool): (r: StepResult<V>)
    ensures r.ValueError? <==> |inputs| != bucket.encoderSize || |weights| != bucket.decoderSize
    ensures r.ValueError? ==> r.error == if |inputs| != bucket.encoderSize
                                         then EncoderLength(|inputs|, bucket.encoderSize)
                                         else WeightsLength(|weights|, bucket.decoderSize)
    ensures r.IndexError? <==>
              !r.ValueError? &&
              (|inputs| > |targetSlots| || |weights| > |weightSlots| || (forwardOnly && |weights| > |outputFetches|))
    ensures r.MissingFeed? <==>
              && !r.ValueError? && !r.IndexError?
              && |inputs| <= |targetSlots| && |weights| <= |weightSlots|
              && !(LossReads(targetSlots, weightSlots) <= FeedFor(targetSlots, weightSlots, inputs, weights).Keys)
    ensures r.Ran? ==> (r.norm.Some? <==> !forwardOnly) && (r.outputs.Some? <==> forwardOnly)
    ensures r.Ran? ==> r.loss == session(FeedFor(targetSlots, weightSlots, inputs, weights), Loss(b))
    ensures r.Ran? && !forwardOnly ==>
              r.norm.value == session(FeedFor(targetSlots, weightSlots, inputs, weights), GradientNorm(b))
    ensures r.Ran? && forwardOnly ==>
              |r.outputs.value| == bucket.decoderSize &&
              forall l :: 0 <= l < bucket.decoderSize ==>
                r.outputs.value[l] == session(FeedFor(targetSlots, weightSlots, inputs, weights), outputFetches[l])
  {
    var encoderSize, decoderSize := bucket.encoderSize, bucket.decoderSize;
    if |inputs| != encoderSize then ValueError(EncoderLength(|inputs|, encoderSize))
    else if |weights| != decoderSize then ValueError(WeightsLength(|weights|, decoderSize))
    else if encoderSize > |targetSlots| || decoderSize > |weightSlots| then IndexError
    else if forwardOnly && decoderSize > |outputFetches| then IndexError
    else
      var feed := FeedFor(targetSlots, weightSlots, inputs, weights);
      if !(LossReads(targetSlots, weightSlots) <= feed.Keys) then MissingFeed
      else
        var values := Run(session, OutputFeed(b, outputFetches, decoderSize, forwardOnly), feed);
        if !forwardOnly then Ran(Some(values[1]), values[2], None)
        else Ran(None, values[0], Some(values[1..]))
  }
}
