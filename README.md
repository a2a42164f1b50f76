# DeePray training decisions, modelled in Dafny

DeePray's `BaseTrainable` configures a Keras fit loop from command-line flags,
and its `NeuralFactorizationMachine` subclass stacks two prebuilt layers. The
framework does all the computing. What is left to the repository itself are a
few decision rules, and this project models and proves them:

- the learning-rate table `LR_SCHEDULE` and the `lr_schedule` lookup, which
  `train` hands to the LearningRateScheduler callback;
- `build_optimizer`, which maps the `optimizer` flag to one of seven optimizer
  kinds or raises `ValueError`;
- `build_loss` and `build_metrics`, which pick the binary or the multi-class
  loss and metrics from the label's vocabulary size;
- the callback list `train` hands to `model.fit`: three fixed callbacks, then
  up to four more, each gated by a flag;
- the parse of the `deep_layers` flag (such as `"64,32"`) into hidden-layer
  sizes in `NeuralFactorizationMachine.build`, and the order in which
  `build_network` applies its two layers.

The files are:

- `wrappers.dfy`: `Option` and `Result`.
- `py_str.dfy` (module `PyStr`): the Python builtins the parse uses, and the
  two that its round-trip property needs. The parse uses `str.split` with a
  one-character separator and `int(str)` in base 10. The round trip needs
  `str.join` and `str(int)`.
- `base_trainable.dfy` (module `BaseTrainable`): the class's decision rules.
- `model_nfm.dfy` (module `ModelNfm`): the hidden-layer parse and the
  network's composition.

Framework objects are tags. Each tag carries the arguments it is constructed
with, for example `EarlyStopping("val_loss", patience, "min", true)`.
Exceptions are `Failure` values: `KeyError(label)`, `ValueError(message)` and
`InvalidLiteral(piece)`. Flags are fields of a `Flags` record. A flag left at
a `None` default is `None`. Truthiness is Python's: a string is true when it is
present and non-empty, and an integer when it is present and non-zero (so a
negative patience is true). Learning rates are `real` constants. They are only
ever returned, never computed on.

`lr_schedule` is a loop over the table, so it is modelled as a method with the
source's guard and its indexed loop. The method is proved equal to
`ScheduledRate`, a first-match lookup over the table, and the schedule's
properties are lemmas about that function. `build_metrics` and the callback
construction build a list one `append` at a time, so they are methods too.
`BuildCallbacks` is proved equal to `CallbackList`, which is the fixed
callbacks followed by a filter over the gated candidates. The lemmas state
that list's shape, order and membership.

## Model

| member | source | states |
|---|---|---|
| `BaseTrainable.LrSchedule` | deepray/base/base_trainable.py:199-206 | The guarded loop returns exactly what a first-match lookup of the epoch in `LR_SCHEDULE` gives, and the input rate when no entry starts at that epoch. |
| `BaseTrainable.ScheduleOutsideRange` | deepray/base/base_trainable.py:201-202 | For an epoch below 3 or above 12, the input rate is returned unchanged. |
| `BaseTrainable.ScheduleAtBoundaries` | deepray/base/base_trainable.py:56-59 | Epochs 3, 6, 9 and 12 give 0.05, 0.01, 0.005 and 0.001, whatever the input rate. |
| `BaseTrainable.ScheduleOffBoundary` | deepray/base/base_trainable.py:203-206 | Any epoch other than 3, 6, 9 and 12 keeps the input rate, including epochs inside the range such as 4, 7 and 11. |
| `BaseTrainable.ScheduleRange` | deepray/base/base_trainable.py:199-206 | The result is always either the input rate or one of the four table rates. |
| `BaseTrainable.BuildOptimizer` | deepray/base/base_trainable.py:180-197 | It succeeds exactly when the name is one of the flag's seven choices. On success the optimizer's kind is the one whose name is exactly the input, built with the given learning rate. Otherwise it raises ValueError("--optimizer NAME was not found."). |
| `BaseTrainable.BuildOptimizerByName` | deepray/base/base_trainable.py:181-194 | Each of the seven kinds is built from its own name, and no two kinds share a name. |
| `BaseTrainable.ValidatedChoicesBuild` | deepray/base/base_trainable.py:38-40 | Every value in the `optimizer` flag's enum builds an optimizer, so a validated flag never reaches the error branch. |
| `BaseTrainable.LowercaseRmspropFails` | deepray/base/base_trainable.py:193-196 | Matching is case-sensitive: "rmsprop" raises the ValueError that names it. |
| `BaseTrainable.BuildLoss` | deepray/base/base_trainable.py:93-97 | A label missing from VOC_SIZE raises KeyError. Otherwise the loss is binary cross-entropy exactly when the label has two values. |
| `BaseTrainable.BuildMetrics` | deepray/base/base_trainable.py:104-111 | It fails exactly when `build_loss` fails, with the same KeyError. A two-valued label gives exactly [AUC, BinaryAccuracy] in that order, and any other label gives [SparseCategoricalAccuracy]. Every metric suits the loss `build_loss` picks for the same label. |
| `BaseTrainable.BuildCallbacks` | deepray/base/base_trainable.py:148-172 | The appended list equals `CallbackList(f)`: the fixed callbacks, then the candidates whose flags are truthy. |
| `BaseTrainable.CallbackListLength` | deepray/base/base_trainable.py:148-152 | The list begins with TensorBoard(summaries_dir), CSVLogger(summaries_dir + "/log.csv", append, ",") and the loss-and-error printer. Its length is 3, plus one for each of `profile_batch`, `patient_valid_passes`, `checkpoint_path` and `lr_schedule` that is truthy. |
| `BaseTrainable.CallbackListOrder` | deepray/base/base_trainable.py:148-172 | The callbacks appear in the order the source writes them, with none repeated. |
| `BaseTrainable.ProfilingCallback` | deepray/base/base_trainable.py:153-156 | The profiling TensorBoard is present exactly when `profile_batch` is truthy, and it carries that value. An empty or absent profile batch adds nothing. |
| `BaseTrainable.EarlyStoppingCallback` | deepray/base/base_trainable.py:157-162 | EarlyStopping(monitor "val_loss", the patience, mode "min", restore best weights) is present exactly when `patient_valid_passes` is truthy. A patience of 0 adds nothing. |
| `BaseTrainable.CheckpointCallback` | deepray/base/base_trainable.py:163-170 | ModelCheckpoint(the path, weights only, "val_loss", "auto", best only) is present exactly when `checkpoint_path` is truthy. An empty path adds nothing. |
| `BaseTrainable.SchedulerCallback` | deepray/base/base_trainable.py:171-172 | The learning-rate scheduler is present exactly when `lr_schedule` is set. |
| `BaseTrainable.Train` | deepray/base/base_trainable.py:142-175 | An unknown optimizer name raises before anything is fitted. Otherwise the fit gets the named optimizer with the flag's learning rate, the given loss and metrics, `CallbackList(f)` and the flag's epoch count. |
| `ModelNfm.ParseEach` | deepray/model/model_nfm.py:25 | The comprehension succeeds exactly when every piece parses. It then yields one value per piece, in order. Otherwise it fails naming the first piece that is rejected, and no partial list is produced. |
| `ModelNfm.ParseDeepLayers` | deepray/model/model_nfm.py:25 | On success there are (number of commas + 1) sizes, and the i-th is the value of the i-th comma-separated piece. On failure it names a piece that `int` rejects. |
| `ModelNfm.SingleLayer` | deepray/model/model_nfm.py:25 | A flag without a comma gives a one-element list, or the error for that whole string. |
| `ModelNfm.EmptyPieceFails` | deepray/model/model_nfm.py:25 | An empty flag, a leading or trailing comma, or two adjacent commas make the whole parse fail. |
| `ModelNfm.NonNumericFails` | deepray/model/model_nfm.py:25 | A character that is not a digit, a sign, whitespace or a comma makes the whole parse fail. |
| `ModelNfm.NonLiteralFails` | deepray/model/model_nfm.py:25 | A comma-separated piece that is not a literal of the modelled grammar makes the whole parse fail, wherever it stands. |
| `ModelNfm.DeepLayersRoundTrip` | deepray/model/model_nfm.py:25 | Joining the decimal forms of a non-empty list of ints with "," and parsing the result gives the list back. |
| `ModelNfm.NetworkLayerOrder` | deepray/model/model_nfm.py:29-38 | For any bi-interaction layer and any hidden layers, each wrapped to append its tag to a trace, `BuildNetwork` returns the hidden layers' output on the interaction layer's output on the features. The trace gains the interaction tag and then the hidden tag, so each layer is applied exactly once, the interaction layer first. |
| `PyStr.Split` | deepray/model/model_nfm.py:25 | `split(',')` gives one more piece than there are commas, and no piece contains a comma. |
| `PyStr.SplitJoin` | deepray/model/model_nfm.py:25 | Splitting undoes joining, for a non-empty list of comma-free pieces. |
| `PyStr.JoinSplit` | deepray/model/model_nfm.py:25 | Joining the pieces with the separator gives back the original string. |
| `PyStr.ParseInt` | deepray/model/model_nfm.py:25 | A piece that `int` accepts is a literal of the modelled grammar: whitespace, an optional `+` or `-`, one or more digits, then whitespace. So `"6 4"`, `"- 5"`, `"1-2"`, `"+-1"`, an empty piece, a blank piece and a bare sign are all rejected. |
| `PyStr.ParseIntAccepts` | deepray/model/model_nfm.py:25 | Conversely, every literal of the modelled grammar is accepted: whitespace, an optional `+` or `-`, one or more digits, then whitespace. Its value is the digits' decimal value, negated after `-`, so a piece such as `" 32"` reads as 32. |
| `PyStr.ParseIntExactly` | deepray/model/model_nfm.py:25 | `int` accepts a piece if and only if it is a literal of the modelled grammar. |
| `PyStr.LiteralChars` | deepray/model/model_nfm.py:25 | A literal holds at least one digit, and nothing but digits, signs and whitespace. |
| `PyStr.ParseIntToString` | deepray/model/model_nfm.py:25 | `int(str(n)) == n` for every integer, negative ones included. Python's digit limit is not modelled; see "## Left out". |

## Left out

- `tfrecord_pipeline` and `create_train_data_iterator` (base_trainable.py:118-140): streaming, parallel parsing, shuffling and prefetching belong to tf.data's runtime. `Train` therefore does not model the datasets it passes to `fit`.
- `model.compile`, `model.fit` and the real optimizer, loss, metric and callback objects: these are foreign library calls. They appear only as tags and as the `FitCall` record.
- `__init__`, `seed_everything`, directory creation and absl logging (base_trainable.py:63-91): file-system, logging and global random-seed side effects. `build_loss` and `build_metrics` take VOC_SIZE and LABEL as parameters instead of reading them from fields that `__init__` sets.
- `get_summary` and `parser` (base_trainable.py:99-116): stubs that raise NotImplementedError, with no behaviour to model. VOC_SIZE is taken to be a dictionary keyed by feature name with integer values.
- `_mylog` (base_trainable.py:177-178): floating-point TensorFlow math.
- The learning rates are exact decimal `real` values, not binary floats. `flags.learning_rate` is defined in a file that is not part of this model, and it is an opaque `real` input.
- The Keras default `profile_batch` of the first TensorBoard callback is written as `None` in its tag. The schedule callback's tag does not carry the function: it is the one `LrSchedule` models.
- `build_fm`, `build_deep` and the `FactorizationMachine` superclass are defined in files that are not part of this model. The layers are opaque functions, and the `B_Interaction_Layer` and `Hidden_Layers` field assignments in `build` are not modelled. `build_network`'s unused `is_training` argument is dropped.
- `PyStr.ParseInt`: only part of Python's `int()` literal grammar is modelled: surrounding ASCII whitespace (the space and tab through carriage return), an optional sign, and ASCII digits. Underscore separators (`"1_0"`), non-ASCII digits and non-ASCII whitespace are rejected here, though Python accepts them. CPython's default limit of 4300 decimal digits on `int(str)` and `str(int)` is not modelled either, so the model accepts literals of any length.
- `ModelNfm.ParseEach`: a rejected piece is reported as `InvalidLiteral(piece)`. The text of Python's ValueError message is not modelled.
