/** Shared vocabulary of the seq2seq model: reserved token ids, buckets and
    the configuration object every other module reads. */
module Common {

  datatype Option<+T> = None | Some(value: T)

  /** A value, or the exception the Python code raises instead. */
  datatype Result<+T, +E> = Success(value: T) | Failure(error: E)

  /** Reserved ids of the tokenizer (data_utils.PAD_ID, GO_ID and EOS_ID). */
  const PadId: nat := 0
  const GoId: nat := 1
  const EosId: nat := 2

  /** A bucket (I, O): the encoder length I and the decoder length O of the
      sub-graph built for it. */
  datatype Bucket = Bucket(encoderSize: nat, decoderSize: nat)

  /** The fields of the configuration object that the modelled code reads. */
  datatype Config = Config(
    buckets: seq<Bucket>,
    batchSize: nat,
    learningRate: real,
    stepsPerCheckpoint: nat,
    epochSize: nat)

  function Repeat<T>(x: T, n: nat): (r: seq<T>)
    ensures |r| == n
    ensures forall i :: 0 <= i < n ==> r[i] == x
  {
    seq(n, _ => x)
  }
}
