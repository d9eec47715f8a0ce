# A verified model of the seq2seq bookkeeping in RNN2RNN.py

`RNN2RNN.py` trains and runs a bucketed sequence-to-sequence model. Most of
the file wires up a TensorFlow graph. Around that graph sits ordinary
sequential code that works on lists of token ids, and that code is what this
project models and proves things about:

- **Per-bucket list assembly in `Seq2SeqModel.__init__`** (module `Graph`,
  class `Model.Seq2SeqModel`). For every bucket `(I, O)` the constructor
  creates `I` target placeholders and `I` weight placeholders. The encoder
  inputs are the targets' embedding lookups in reverse order, built with
  `insert(0, …)`. The decoder inputs are the lookup of a batch of GO ids
  followed by the lookups of every target except the last. Placeholders are
  the values `TargetSlot(i, j)` and `WeightSlot(i, j)`; the framework makes
  placeholder names unique, so two different slots are never the same feed
  key. An embedding lookup is a symbolic value.
- **`get_batch`** (`Model.Seq2SeqModel.GetBatch`). Pads each example with PAD
  to the encoder size, adds all-PAD rows up to the batch size, transposes
  into time-major vectors and builds the 0.0/1.0 PAD mask. Python's
  `[PAD] * negative == []` is modelled, so over-long examples and surplus
  rows are cut off by the indexing.
- **`step`** (`Model.Seq2SeqModel.Step`, specified by `Graph.StepSpec`). Two
  shape checks raise `ValueError`. Then input vector `l` is fed to target slot
  `l` and weight vector `l` to weight slot `l`. The fetch list depends on the
  mode, and the returned triple is routed back. `session.run` is a function
  parameter from (feed, fetched tensor) to a value. The one error of
  `session.run` that the model keeps is the one it raises when the loss
  reads a placeholder the feed lacks (`Graph.LossReads`).
- **`decode`** (module `Decoding`). Chooses the first bucket whose encoder
  size covers the sentence, falling back to the last one. Runs a forward-only
  step on a one-sentence batch, takes the argmax ids, cuts them at the first
  EOS and maps them to words, skipping ids outside the vocabulary.
- **`train`** (module `Training`). The epoch loop with its step counter, the
  session's global step, the loss and step-time accumulators, the perplexity
  cap and the lines appended to the training and test logs. Each generator is
  a finite sequence of items. Each item holds a batch (or None), a bucket id,
  the loss the session reports for that batch and the time its step takes.
  `Training.Train` is the loop itself. It is proved equal to the functional
  definition `Training.Epochs`, about which the lemmas are stated. As
  written, `train` creates the model and runs the loop after the `with`
  block that opened the session has closed it, so it fails at once (see
  "## Findings"). `Training.Train` and the lemmas about `Epochs` describe the
  loop as it runs in an open session, which is what
  `Training.TrainInOpenSession` does.

Some consequences of the modelled code, all proved. The training-loop
properties among them assume the loop runs in an open session:

- `get_batch` returns one weight vector per *encoder* position. `step`
  checks the weights against the *decoder* size, so a batch built by
  `get_batch` passes `step` exactly when the bucket's two sizes are equal
  (`Model.StepAcceptsBatch`).
- When the decoder size exceeds the encoder size, `step` given inputs of
  encoder length and weights of decoder length raises `IndexError`. A bucket
  has only encoder-size-many weight placeholders (`Model.StepIndexError`).
- When the decoder size is below the encoder size, `step` given inputs of
  encoder length and weights of decoder length leaves some weight
  placeholders unfed. The loss reads every weight placeholder of the bucket,
  so `session.run` raises (`Model.StepMissingFeed`).
- `current_step` is never reset, but both accumulators are reset after each
  epoch's evaluation. Suppose the previous epoch ended with
  `current_step % steps_per_checkpoint != 0`. Then the first checkpoint line
  of the next epoch divides fewer than `steps_per_checkpoint` step losses by
  `steps_per_checkpoint`. When the previous epoch ended exactly on a
  checkpoint, that line is a full mean. `Training.NextCheckpoint` states the
  general case.

The reserved ids PAD, GO and EOS come from the tokenizer module the program
imports, which is not part of this model. The model assumes the values
PAD = 0, GO = 1 and EOS = 2.

## Model

| member | source | states |
|---|---|---|
| Graph.AssembleSlots | RNN2RNN.py:225-235 | bucket `i` gets exactly `bucket[0]` target placeholders and `bucket[0]` weight placeholders, the `j`-th being slot `(i, j)` |
| Graph.AssembleInputs | RNN2RNN.py:237-250 | the encoder list is the targets' lookups in reverse order; the decoder list is the GO lookup followed by the lookups of all targets but the last, so it has `n` entries when `n ≥ 1` (one when `n = 0`), and decoder entry `k` is encoder entry `n - k` |
| Model.Seq2SeqModel.constructor | RNN2RNN.py:220-250 | every bucket of the configuration is wired as above (the model's `Valid` invariant), with one output tensor per decoder input |
| Model.Seq2SeqModel.GetBatch | RNN2RNN.py:437-491 | exactly `encoder_size` input vectors and `encoder_size` weight vectors, each `batch_size` wide, for any input; entry `[t][b]` is `data[b][t]` when both indices exist and PAD otherwise; weight `[t][b]` is 0.0 exactly when the entry is PAD and 1.0 otherwise |
| Graph.StepSpec | RNN2RNN.py:397-434 | `ValueError` exactly when the input count differs from the encoder size or the weight count from the decoder size (encoder error first); `IndexError` exactly when the lengths pass but a slot or output index runs past the bucket's lists; otherwise a missing-feed error from `session.run` exactly when the built feed lacks a placeholder the bucket's loss reads; otherwise a norm exactly when training, outputs exactly when forward-only, `decoder_size` outputs each fetched from the session on the built feed, and the loss fetched likewise |
| Model.Seq2SeqModel.Step | RNN2RNN.py:376-434 | the shape checks, the feed loops and the session call compute exactly `Graph.StepSpec` for the bucket's own placeholders and outputs |
| Graph.FeedTargets | RNN2RNN.py:409-411 | the first feed loop puts input vector `l` under target slot `l`, for every `l` below the input count, into an empty dictionary |
| Graph.FeedWeights | RNN2RNN.py:412-414 | the second feed loop reaches the end exactly when there are no more weight vectors than weight slots (it raises `IndexError` otherwise), and then has added weight vector `l` under weight slot `l` for every `l` |
| Graph.OutputFetches | RNN2RNN.py:420-428 | the fetch list is (update, norm, loss) when training and the loss followed by the first `decoder_size` output tensors when forward-only |
| Graph.FeedRouting | RNN2RNN.py:408-414 | the feed holds exactly the first `|inputs|` target slots and the first `|weights|` weight slots, slot `l` holding `inputs[l]` or `weights[l]` |
| Graph.PutAt | RNN2RNN.py:410-414 | after assigning distinct keys in order, key `keys[l]` holds `values[l]` |
| Graph.PutElsewhere | RNN2RNN.py:410-414 | assigning a list of keys leaves every other key of the dictionary unchanged |
| Model.ModelFeedRouting | RNN2RNN.py:408-414 | on a built model the feed for bucket `b` holds exactly `TargetSlot(b, l)` for `l < |inputs|` and `WeightSlot(b, l)` for `l < |weights|`, with those vectors |
| Model.StepAcceptsBatch | RNN2RNN.py:397-406 | a batch from `get_batch` never fails the encoder check, and `step` runs on it (no index error, every placeholder the loss reads fed) exactly when the bucket's encoder and decoder sizes are equal, otherwise raising the weights-length `ValueError` |
| Model.StepIndexError | RNN2RNN.py:412-414 | on a built model `step` raises `IndexError` exactly when the inputs have encoder length, the weights have decoder length and the decoder size exceeds the encoder size |
| Model.StepMissingFeed | RNN2RNN.py:556-569 | the loss of bucket `b` reads its targets and all its weight placeholders, so on a built model `session.run` in `step` raises for an unfed placeholder exactly when the inputs have encoder length, the weights have decoder length and the decoder size is below the encoder size |
| Decoding.FirstFit | RNN2RNN.py:757-761 | the search from position `from` returns the first bucket from there whose encoder size covers the length, or the last bucket |
| Decoding.BucketFor | RNN2RNN.py:757-761 | always a valid index; every earlier bucket is too short; the chosen bucket fits exactly when some bucket fits; when it does not fit it is the last bucket |
| Decoding.FitsLater | RNN2RNN.py:757-761 | with buckets sorted by encoder size, a sentence that fits bucket `i` fits every later bucket |
| Decoding.BucketForSmallest | RNN2RNN.py:757-761 | with sorted buckets and some bucket that fits, the chosen bucket fits and is no larger than any bucket that fits |
| Decoding.IndexOf | RNN2RNN.py:774 | `list.index`: the position of the first occurrence |
| Decoding.TruncateAtEos | RNN2RNN.py:773-774 | a prefix of the outputs with no EOS, followed in the outputs by EOS when EOS occurs, and the outputs unchanged when it does not |
| Decoding.IdsToText | RNN2RNN.py:777-782 | the loop with its swallowed `IndexError` builds `Words(vocab, ids)`: each id inside the vocabulary adds its word and a space |
| Decoding.WordsAppend | RNN2RNN.py:777-782 | the text of a concatenation of id lists is the concatenation of their texts |
| Decoding.WordsSkipUnknown | RNN2RNN.py:777-782 | out-of-range ids are skipped silently: the text equals that of the in-range ids alone |
| Decoding.KnownAll | RNN2RNN.py:777-782 | no id is skipped exactly when every id is inside the vocabulary |
| Decoding.KnownShorter | RNN2RNN.py:777-782 | skipping never adds ids |
| Decoding.DecodeSentence | RNN2RNN.py:753-782 | decoding one sentence fails exactly when the chosen bucket's encoder and decoder sizes differ (with that `ValueError`); otherwise it prints the words of the greedy ids cut at the first EOS |
| Decoding.GreedyIdsOfStep | RNN2RNN.py:767-771 | the argmax of each output of a successful forward-only step on the sentence's batch are the greedy ids |
| Training.PerplexityOf | RNN2RNN.py:708 | perplexity is infinite exactly when the loss is at least 300, and `exp(loss)` otherwise |
| Training.TrainStep | RNN2RNN.py:663-717 | each step advances `current_step` and the global step by one; a line carrying the new global step is appended and both accumulators are reset exactly when `current_step % steps_per_checkpoint == 0`, and otherwise the log is unchanged and the accumulators grow by the step's share |
| Training.TrainItems | RNN2RNN.py:656-717 | training leaves the test log alone, only appends to the training log, and keeps the global step minus `current_step` constant |
| Training.EvalItems | RNN2RNN.py:728-737 | evaluation leaves both counters, both accumulators and the training log unchanged, and only appends evaluation lines to the test log |
| Training.Epoch | RNN2RNN.py:641-739 | an epoch appends the epoch marker first to both logs and keeps their earlier lines; one that does not raise ends with both accumulators at zero; it never decreases the step counter |
| Training.Epochs | RNN2RNN.py:641-739 | over the epochs both logs only grow at the end, the step counter never decreases and the global step moves in step with it |
| Training.FirstStop | RNN2RNN.py:656-658 | the number of items before the first None batch or the first batch on which `step` raises; the training loop and the test loop (lines 729-730) stop at the same place |
| Training.TrainProgress | RNN2RNN.py:656-671 | an epoch's training runs exactly `FirstStop` steps, raising both counters by that much, and raises exactly when it stops at a batch rather than at None or the end |
| Training.StopsAtNone | RNN2RNN.py:658 | nothing after the first None batch is read |
| Training.EvalProgress | RNN2RNN.py:728-737 | evaluation appends exactly one line per test batch before the first stop, in order, with that batch's bucket, perplexity and loss, and raises exactly when it stops at a batch |
| Training.CounterStep | RNN2RNN.py:706 | helper for the checkpoint test: one more step wraps `current_step % steps_per_checkpoint` to zero exactly when the number of completed checkpoint periods grows by one |
| Training.NextCheckpoint | RNN2RNN.py:667-717 | when the loop reaches the next checkpoint, the line written there has the global step reached, and the current accumulators plus the summed losses and step times of the steps up to it, divided by `steps_per_checkpoint`; from a zeroed accumulator at a checkpoint boundary that is the mean over the last `steps_per_checkpoint` steps |
| Training.PeriodEnd | RNN2RNN.py:667-717 | the step that completes a period appends, right after the current log, the line with the new global step and the accumulators plus this step's share |
| Training.MidPeriod | RNN2RNN.py:667-717 | a step inside a period writes nothing, grows both accumulators by this step's share and brings the next checkpoint one step closer |
| Training.CountAppend | RNN2RNN.py:716 | appending a line adds one to the checkpoint-line count exactly when it is a checkpoint line |
| Training.TrainStepCheckpointed | RNN2RNN.py:660-717 | one training step preserves the checkpoint invariant: global step = start + `current_step`, one line per completed period, and every line at a start-plus-positive-multiple global step |
| Training.TrainItemsCheckpointed | RNN2RNN.py:656-717 | an epoch's training preserves the checkpoint invariant |
| Training.EpochCheckpointed | RNN2RNN.py:641-739 | a whole epoch, with its epoch marker, evaluation and reset, preserves the checkpoint invariant |
| Training.EpochsCheckpointed | RNN2RNN.py:641-739 | every remaining epoch preserves the checkpoint invariant |
| Training.RunCheckpoints | RNN2RNN.py:637-739 | over a whole run, however it ends, the global step is the starting one plus `current_step` (never reset across epochs), the training log holds exactly `current_step / steps_per_checkpoint` checkpoint lines, and each is written at the starting global step plus a positive multiple of `steps_per_checkpoint` |
| Training.StepOnBatch | RNN2RNN.py:663-666 | `get_batch` then `step` raises `ValueError` exactly when the bucket's sizes differ, never raises `IndexError` or meets an unfed placeholder, and otherwise returns the session's loss |
| Training.TrainEpoch | RNN2RNN.py:656-717 | the training loop of one epoch, with its `break` on None, computes exactly `TrainItems` |
| Training.EvalEpoch | RNN2RNN.py:728-737 | the evaluation loop of one epoch computes exactly `EvalItems` |
| Training.Train | RNN2RNN.py:636-739 | the whole loop computes exactly `Epochs` from a zero counter, zero accumulators, empty logs and the session's starting global step |
| Training.TrainInSession | RNN2RNN.py:574-622 | on a closed session the first session call of `create_model` raises `RuntimeError` and nothing is logged; on an open session the run is exactly `Epochs` |
| Training.TrainAsWritten | RNN2RNN.py:603-619 | `train` as written, creating the model after the session block has closed, always fails with the closed-session `RuntimeError` |
| Training.TrainInOpenSession | RNN2RNN.py:603-739 | `train` with model creation and the loop inside the session block runs exactly `Epochs` |
| Training.FirstEpochLogged | RNN2RNN.py:641-644 | a run of at least one epoch in an open session writes the epoch-0 marker first to both logs, whatever happens afterwards |

## Left out

- TensorFlow graph construction (cells, the seq2seq decoder, sampled loss, projections, the embedding variable, the optimizer and gradient clipping) and the tensor computations of `session.run`. A session is an arbitrary function from (feed, fetched tensor) to a value, and an embedding lookup is a symbolic value. A bucket of encoder size 0 makes the real graph construction raise, because the seq2seq graph receives an empty encoder list (RNN2RNN.py:210-217, 553). The constructor's list assembly does not model that failure and accepts such a bucket.
- Checkpoint saving and restoring (`create_model`, the saver in `train`): file I/O. The global step restored from a checkpoint is a parameter of `Training.Train`.
- Training.TrainStep: logs the configured learning rate. The code logs the value of the learning-rate variable (RNN2RNN.py:716). No decay op runs (713-714 are commented out), so that value is constant within a run. A checkpoint restore may still have set it to a value other than the configured one, and the model does not capture that case.
- `ParallelGenerator` and the data generators: concurrency and data loading. A generator is a finite sequence of items, and a None batch ends it. Every item is assumed to name a bucket of the configuration (`Training.BucketsValid`, and the `bucketId` requirement of `Model.Seq2SeqModel.GetBatch`). The generators are not part of this model, and for an id outside the list the code would index from the end or raise `IndexError` at line 453.
- The log-file writer, stdout, stdin and the `__main__` directory sweep: I/O. The logs are sequences of structured lines rather than formatted text.
- `time.time()`: each training item carries the time its step takes.
- `math.exp` and `np.argmax`: floating-point numerics. Perplexity is `Exp(loss)` or `Infinite`. The argmax is a function parameter of `Decoding.DecodeSentence`. Losses are exact reals, with no float rounding.
- The tokenizer module (`sentence_to_token_ids` and the PAD/GO/EOS constants) is not part of this model. Token ids are natural numbers, and the constants are assumed to be 0, 1 and 2.
- The `np.int32` cast in `get_batch`: ids are unbounded naturals.
- `single_step_time` and `single_step_loss` in `train`: they are accumulated but never read.
- `decode` setting `model.batch_size = 1`: `get_batch` reads the configuration's batch size, so the assignment has no effect on the model.
- The `forward_only` flag of model creation: the modelled per-bucket list assembly of the constructor does not depend on it.
- Model.Seq2SeqModel.Step: a training-mode call (`forward_only` false) assumes a model created with `forward_only=False`. Only such a model has the update ops and gradient norms (RNN2RNN.py:290-301). On a model created forward-only, as `decode` creates it (line 746), the source raises `AttributeError` at line 422, and the model does not capture that error. `Training.Train` models `train(config, False, …)`, the only call the program makes (line 821). `train` with `forward_only` true would fail at its first training step.
- Training.Train: runs the loop in an open session. The code as written runs it on the closed session and fails before the first epoch; `Training.TrainAsWritten` models that failure (see "## Findings").
- Training.Train requires `steps_per_checkpoint > 0`. With 0, the Python code raises `ZeroDivisionError` on the first step, and that error is not modelled.
- Decoding.DecodeSentence requires a non-empty bucket list. With no buckets, the Python code picks bucket id -1, and `get_batch` then raises `IndexError` on the empty list; that error is not modelled.

## Findings

| source | as written | input that shows it | evidently intended | confidence | as-written member | corrected member |
|---|---|---|---|---|---|---|
| RNN2RNN.py:603-619 | the `with tf.Session(...) as sess` block ends after the first prints; `create_model(sess, ...)` at line 619, the `sess.run` at 622 and the whole loop come after it, on the closed session | any configuration: the first session call in `create_model` (the restore at 583 or the initializer at 586) raises `RuntimeError` before `Epoch: 0` is logged | model creation and the training loop inside the `with` block, where the run logs the epoch-0 marker to both logs first and then trains | not executed | Training.TrainAsWritten | Training.TrainInOpenSession |
