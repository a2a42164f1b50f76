/** The decision rules of DeePray's `BaseTrainable`: the learning-rate table
    and its lookup, the choice of optimizer by flag value, the choice of loss
    and metrics by label cardinality, and the list of callbacks `train` hands
    to the fit loop. Framework objects appear only as tags that carry the
    arguments they are constructed with. */
module BaseTrainable {
  import opened Wrappers

  /** The exceptions the modelled code raises. */
  datatype Error =
    | KeyError(key: string)        // the label has no vocabulary size
    | ValueError(message: string)  // the optimizer name is not known

  // ---------------------------------------------------------------------------
  // Learning-rate schedule

  datatype ScheduleEntry = ScheduleEntry(start: int, rate: real)

  /** (epoch to start, learning rate), in increasing epoch order. */
  const LR_SCHEDULE: seq<ScheduleEntry> := [
    ScheduleEntry(3, 0.05), ScheduleEntry(6, 0.01),
    ScheduleEntry(9, 0.005), ScheduleEntry(12, 0.001)
  ]

  /** The rate of the first entry of `table` that starts at `epoch`. */
  function Lookup(table: seq<ScheduleEntry>, epoch: int): Option<real>
  {
    if table == [] then None
    else if table[0].start == epoch then Some(table[0].rate)
    else Lookup(table[1..], epoch)
  }

  /** The rate the schedule sets at `epoch` when the current rate is `lr`:
      the table's rate at a table epoch, `lr` everywhere else. */
  function ScheduledRate(epoch: int, lr: real): real
  {
    match Lookup(LR_SCHEDULE, epoch)
    case Some(rate) => rate
    case None => lr
  }

  /** Entries that do not start at `epoch` do not affect the lookup. */
  lemma {:induction false} LookupSkips(table: seq<ScheduleEntry>, epoch: int, i: int)
    requires 0 <= i <= |table|
    requires forall j :: 0 <= j < i ==> table[j].start != epoch
    ensures Lookup(table, epoch) == Lookup(table[i..], epoch)
  {
    if i > 0 {
      assert table[1..][i - 1..] == table[i..];
      LookupSkips(table[1..], epoch, i - 1);
    }
  }

  /** `lr_schedule(epoch, lr)`: outside the table's epoch range the rate passes
      through; inside it, the first entry starting at `epoch` gives the rate. */
  method LrSchedule(epoch: int, lr: real) returns (rate: real)
    ensures rate == ScheduledRate(epoch, lr)
  {
    if epoch < LR_SCHEDULE[0].start || epoch > LR_SCHEDULE[|LR_SCHEDULE| - 1].start {
      LookupSkips(LR_SCHEDULE, epoch, |LR_SCHEDULE|);
      return lr;
    }
    for i := 0 to |LR_SCHEDULE|
      invariant forall j :: 0 <= j < i ==> LR_SCHEDULE[j].start != epoch
    {
      if epoch == LR_SCHEDULE[i].start {
        LookupSkips(LR_SCHEDULE, epoch, i);
        return LR_SCHEDULE[i].rate;
      }
    }
    LookupSkips(LR_SCHEDULE, epoch, |LR_SCHEDULE|);
    return lr;
  }

  /** Before the first and after the last table epoch the rate is unchanged. */
  lemma ScheduleOutsideRange(epoch: int, lr: real)
    requires epoch < 3 || epoch > 12
    ensures ScheduledRate(epoch, lr) == lr
  {
    LookupSkips(LR_SCHEDULE, epoch, |LR_SCHEDULE|);
  }

  /** At each table epoch the table's rate replaces the current one. */
  lemma ScheduleAtBoundaries(lr: real)
    ensures ScheduledRate(3, lr) == 0.05
    ensures ScheduledRate(6, lr) == 0.01
    ensures ScheduledRate(9, lr) == 0.005
    ensures ScheduledRate(12, lr) == 0.001
  {
  }

  /** An epoch that no entry starts at, inside the range or not, keeps the rate. */
  lemma ScheduleOffBoundary(epoch: int, lr: real)
    requires epoch != 3 && epoch != 6 && epoch != 9 && epoch != 12
    ensures ScheduledRate(epoch, lr) == lr
  {
    LookupSkips(LR_SCHEDULE, epoch, |LR_SCHEDULE|);
  }

  /** The schedule only ever yields the current rate or one of the table's. */
  lemma ScheduleRange(epoch: int, lr: real)
    ensures ScheduledRate(epoch, lr) == lr
         || ScheduledRate(epoch, lr) in {0.05, 0.01, 0.005, 0.001}
  {
    if epoch != 3 && epoch != 6 && epoch != 9 && epoch != 12 {
      ScheduleOffBoundary(epoch, lr);
    }
  }

  // ---------------------------------------------------------------------------
  // Optimizer

  datatype OptimizerKind = Adam | Adadelta | Adagrad | LazyAdam | Ftrl | SGD | RMSprop

  /** An optimizer constructed with the `learning_rate` flag's value. */
  datatype Optimizer = Optimizer(kind: OptimizerKind, learningRate: real)

  /** The values the `optimizer` flag accepts; the default is "lazyadam". */
  const OPTIMIZER_CHOICES: seq<string> :=
    ["adam", "adagrad", "adadelta", "lazyadam", "sgd", "RMSprop", "ftrl"]

  /** The flag value that selects each kind. */
  function OptimizerName(kind: OptimizerKind): string
  {
    match kind
    case Adam => "adam"
    case Adadelta => "adadelta"
    case Adagrad => "adagrad"
    case LazyAdam => "lazyadam"
    case Ftrl => "ftrl"
    case SGD => "sgd"
    case RMSprop => "RMSprop"
  }

  /** `build_optimizer`: the kind whose name is exactly `name`, or the
      ValueError that names the unknown choice. */
  function BuildOptimizer(name: string, learningRate: real): (r: Result<Optimizer, Error>)
    ensures r.Success? <==> name in OPTIMIZER_CHOICES
    ensures r.Success? ==> OptimizerName(r.value.kind) == name && r.value.learningRate == learningRate
    ensures r.Failure? ==> r.error == ValueError("--optimizer " + name + " was not found.")
  {
    if name == "adam" then Success(Optimizer(Adam, learningRate))
    else if name == "adadelta" then Success(Optimizer(Adadelta, learningRate))
    else if name == "adagrad" then Success(Optimizer(Adagrad, learningRate))
    else if name == "lazyadam" then Success(Optimizer(LazyAdam, learningRate))
    else if name == "ftrl" then Success(Optimizer(Ftrl, learningRate))
    else if name == "sgd" then Success(Optimizer(SGD, learningRate))
    else if name == "RMSprop" then Success(Optimizer(RMSprop, learningRate))
    else Failure(ValueError("--optimizer " + name + " was not found."))
  }

  /** Each kind is built from its own name, and from no other. */
  lemma BuildOptimizerByName(kind: OptimizerKind, other: OptimizerKind, learningRate: real)
    ensures BuildOptimizer(OptimizerName(kind), learningRate) == Success(Optimizer(kind, learningRate))
    ensures OptimizerName(kind) == OptimizerName(other) ==> kind == other
  {
  }

  /** Every value the flag validates builds an optimizer, so the error is
      unreachable from a validated flag. */
  lemma ValidatedChoicesBuild(learningRate: real)
    ensures forall i :: 0 <= i < |OPTIMIZER_CHOICES| ==>
      BuildOptimizer(OPTIMIZER_CHOICES[i], learningRate).Success?
  {
  }

  /** Matching is case-sensitive. */
  lemma LowercaseRmspropFails(learningRate: real)
    ensures BuildOptimizer("rmsprop", learningRate) == Failure(ValueError("--optimizer rmsprop was not found."))
  {
    assert "rmsprop" !in OPTIMIZER_CHOICES;
    assert "--optimizer " + "rmsprop" + " was not found." == "--optimizer rmsprop was not found.";
  }

  // ---------------------------------------------------------------------------
  // Loss and metrics

  /** The learning problem a label defines: two classes, or more. */
  datatype Task = Binary | MultiClass

  datatype Loss = BinaryCrossentropy | SparseCategoricalCrossentropy

  datatype Metric = AUC | BinaryAccuracy | SparseCategoricalAccuracy

  function LossTask(loss: Loss): Task
  {
    match loss
    case BinaryCrossentropy => Binary
    case SparseCategoricalCrossentropy => MultiClass
  }

  function MetricTask(metric: Metric): Task
  {
    match metric
    case AUC => Binary
    case BinaryAccuracy => Binary
    case SparseCategoricalAccuracy => MultiClass
  }

  /** `build_loss`: a binary loss exactly when the label has two values; a
      label without a vocabulary size raises KeyError. */
  function BuildLoss(vocSize: map<string, int>, labelKey: string): (r: Result<Loss, Error>)
    ensures r.Failure? <==> labelKey !in vocSize
    ensures r.Failure? ==> r.error == KeyError(labelKey)
    ensures r.Success? ==> (LossTask(r.value) == Binary <==> vocSize[labelKey] == 2)
  {
    if labelKey !in vocSize then Failure(KeyError(labelKey))
    else if vocSize[labelKey] == 2 then Success(BinaryCrossentropy)
    else Success(SparseCategoricalCrossentropy)
  }

  /** `build_metrics`: AUC then binary accuracy for a two-valued label, sparse
      categorical accuracy otherwise; every metric suits the loss `build_loss`
      picks for the same label, and both fail on the same labels. */
  method BuildMetrics(vocSize: map<string, int>, labelKey: string) returns (r: Result<seq<Metric>, Error>)
    ensures r.Failure? <==> BuildLoss(vocSize, labelKey).Failure?
    ensures r.Failure? ==> r.error == KeyError(labelKey)
    ensures r.Success? && vocSize[labelKey] == 2 ==> r.value == [AUC, BinaryAccuracy]
    ensures r.Success? && vocSize[labelKey] != 2 ==> r.value == [SparseCategoricalAccuracy]
    ensures r.Success? ==> forall i :: 0 <= i < |r.value| ==>
      MetricTask(r.value[i]) == LossTask(BuildLoss(vocSize, labelKey).value)
  {
    if labelKey !in vocSize {
      return Failure(KeyError(labelKey));
    }
    var metrics: seq<Metric> := [];
    if vocSize[labelKey] == 2 {
      metrics := metrics + [AUC];
      metrics := metrics + [BinaryAccuracy];
    } else {
      metrics := metrics + [SparseCategoricalAccuracy];
    }
    return Success(metrics);
  }

  // ---------------------------------------------------------------------------
  // Callbacks

  /** The flag values `train` reads. `None` is a flag left at a `None` default. */
  datatype Flags = Flags(
    optimizer: string,
    learningRate: real,
    summariesDir: string,
    profileBatch: Option<string>,
    patientValidPasses: Option<int>,
    checkpointPath: Option<string>,
    lrSchedule: bool,
    epochs: int)

  datatype Callback =
    | TensorBoard(logDir: string, profileBatch: Option<string>)
    | CSVLogger(filename: string, append: bool, separator: string)
    | LossAndErrorPrinting
    | EarlyStopping(monitor: string, patience: int, mode: string, restoreBestWeights: bool)
    | ModelCheckpoint(filepath: string, saveWeightsOnly: bool, monitor: string, mode: string, saveBestOnly: bool)
    | LearningRateScheduler  // driven by LrSchedule

  /** Python truthiness of an optional string and of an optional integer. */
  predicate StrTruthy(o: Option<string>)
  {
    o.Some? && o.value != ""
  }

  predicate IntTruthy(o: Option<int>)
  {
    o.Some? && o.value != 0
  }

  /** The position each callback has in the order `train` writes them. */
  function Slot(c: Callback): nat
  {
    match c
    case TensorBoard(_, profileBatch) => if profileBatch.None? then 0 else 3
    case CSVLogger(_, _, _) => 1
    case LossAndErrorPrinting => 2
    case EarlyStopping(_, _, _, _) => 4
    case ModelCheckpoint(_, _, _, _, _) => 5
    case LearningRateScheduler => 6
  }

  /** The three callbacks every run has. */
  function FixedCallbacks(summariesDir: string): seq<Callback>
  {
    [TensorBoard(summariesDir, None), CSVLogger(summariesDir + "/log.csv", true, ","), LossAndErrorPrinting]
  }

  /** Each optional callback, paired with whether its flag admits it. */
  function OptionalCallbacks(f: Flags): seq<(bool, Callback)>
  {
    [ (StrTruthy(f.profileBatch), TensorBoard(f.summariesDir, Some(f.profileBatch.GetOr("")))),
      (IntTruthy(f.patientValidPasses), EarlyStopping("val_loss", f.patientValidPasses.GetOr(0), "min", true)),
      (StrTruthy(f.checkpointPath), ModelCheckpoint(f.checkpointPath.GetOr(""), true, "val_loss", "auto", true)),
      (f.lrSchedule, LearningRateScheduler) ]
  }

  /** What one candidate contributes: its callback if admitted, else nothing. */
  function Pick(g: (bool, Callback)): seq<Callback>
  {
    if g.0 then [g.1] else []
  }

  /** The admitted callbacks, in order. */
  function Selected(gated: seq<(bool, Callback)>): seq<Callback>
  {
    if gated == [] then [] else Pick(gated[0]) + Selected(gated[1..])
  }

  /** The callback list of a run with flags `f`. */
  function CallbackList(f: Flags): seq<Callback>
  {
    FixedCallbacks(f.summariesDir) + Selected(OptionalCallbacks(f))
  }

  predicate SlotsIncrease(cbs: seq<Callback>)
  {
    forall p, q :: 0 <= p < q < |cbs| ==> Slot(cbs[p]) < Slot(cbs[q])
  }

  /** Selection keeps the candidates' order, and adds only what is above `low`. */
  lemma {:induction false} SelectedOrdered(gated: seq<(bool, Callback)>, low: int)
    requires forall p :: 0 <= p < |gated| ==> low < Slot(gated[p].1)
    requires forall p, q :: 0 <= p < q < |gated| ==> Slot(gated[p].1) < Slot(gated[q].1)
    ensures SlotsIncrease(Selected(gated))
    ensures forall p :: 0 <= p < |Selected(gated)| ==> low < Slot(Selected(gated)[p])
  {
    if gated != [] {
      var head := Pick(gated[0]);
      var rest := Selected(gated[1..]);
      var all := Selected(gated);
      assert all == head + rest;
      SelectedOrdered(gated[1..], Slot(gated[0].1));
      forall p, q | 0 <= p < q < |all| ensures Slot(all[p]) < Slot(all[q]) {
        if p >= |head| {
          assert all[p] == rest[p - |head|] && all[q] == rest[q - |head|];
        } else {
          assert all[p] == gated[0].1 && all[q] == rest[q - 1];
        }
      }
      forall p | 0 <= p < |all| ensures low < Slot(all[p]) {
        if p >= |head| {
          assert all[p] == rest[p - |head|];
        }
      }
    }
  }

  lemma SelectedOfFour(a: (bool, Callback), b: (bool, Callback), c: (bool, Callback), d: (bool, Callback))
    ensures Selected([a, b, c, d]) == Pick(a) + Pick(b) + Pick(c) + Pick(d)
  {
    assert [a, b, c, d][1..] == [b, c, d];
    assert [b, c, d][1..] == [c, d];
    assert [c, d][1..] == [d];
    assert [d][1..] == [];
    assert Selected([d]) == Pick(d);
    assert Selected([c, d]) == Pick(c) + Pick(d);
    assert Selected([b, c, d]) == Pick(b) + (Pick(c) + Pick(d));
  }

  /** The three fixed callbacks come first, and each truthy flag adds one. */
  lemma CallbackListLength(f: Flags)
    ensures |CallbackList(f)| >= 3 && CallbackList(f)[..3] == FixedCallbacks(f.summariesDir)
    ensures |CallbackList(f)| == 3 + (if StrTruthy(f.profileBatch) then 1 else 0)
      + (if IntTruthy(f.patientValidPasses) then 1 else 0)
      + (if StrTruthy(f.checkpointPath) then 1 else 0)
      + (if f.lrSchedule then 1 else 0)
  {
    CallbackListUnfolded(f);
  }

  /** The callbacks appear in the order `train` writes them, none twice. */
  lemma CallbackListOrder(f: Flags)
    ensures SlotsIncrease(CallbackList(f))
  {
    var fixed := FixedCallbacks(f.summariesDir);
    var rest := Selected(OptionalCallbacks(f));
    SelectedOrdered(OptionalCallbacks(f), 2);
    assert SlotsIncrease(fixed);
    forall p, q | 0 <= p < q < |fixed + rest|
      ensures Slot((fixed + rest)[p]) < Slot((fixed + rest)[q])
    {
      if q >= 3 && p >= 3 {
        assert (fixed + rest)[p] == rest[p - 3] && (fixed + rest)[q] == rest[q - 3];
      } else if q >= 3 {
        assert (fixed + rest)[q] == rest[q - 3];
      }
    }
  }

  /** The callback list with its four candidates laid out. */
  lemma CallbackListUnfolded(f: Flags)
    ensures CallbackList(f) == FixedCallbacks(f.summariesDir)
      + Pick(OptionalCallbacks(f)[0]) + Pick(OptionalCallbacks(f)[1])
      + Pick(OptionalCallbacks(f)[2]) + Pick(OptionalCallbacks(f)[3])
  {
    var g := OptionalCallbacks(f);
    SelectedOfFour(g[0], g[1], g[2], g[3]);
    assert g == [g[0], g[1], g[2], g[3]];
  }

  /** The profiling TensorBoard is present exactly when `profile_batch` is
      truthy, and carries its value. */
  lemma ProfilingCallback(f: Flags, c: Callback)
    requires Slot(c) == 3
    ensures c in CallbackList(f) <==> StrTruthy(f.profileBatch) && c == TensorBoard(f.summariesDir, f.profileBatch)
  {
    CallbackListUnfolded(f);
  }

  /** EarlyStopping is present exactly when `patient_valid_passes` is truthy,
      so a patience of 0 adds nothing, and it carries that patience. */
  lemma EarlyStoppingCallback(f: Flags, c: Callback)
    requires Slot(c) == 4
    ensures c in CallbackList(f) <==>
      IntTruthy(f.patientValidPasses) && c == EarlyStopping("val_loss", f.patientValidPasses.value, "min", true)
  {
    CallbackListUnfolded(f);
  }

  /** ModelCheckpoint is present exactly when `checkpoint_path` is truthy, so
      an empty path adds nothing, and it saves to that path. */
  lemma CheckpointCallback(f: Flags, c: Callback)
    requires Slot(c) == 5
    ensures c in CallbackList(f) <==>
      StrTruthy(f.checkpointPath) && c == ModelCheckpoint(f.checkpointPath.value, true, "val_loss", "auto", true)
  {
    CallbackListUnfolded(f);
  }

  /** The learning-rate scheduler is present exactly when `lr_schedule` is set. */
  lemma SchedulerCallback(f: Flags, c: Callback)
    requires Slot(c) == 6
    ensures c in CallbackList(f) <==> f.lrSchedule
  {
    CallbackListUnfolded(f);
  }

  /** The callback list `train` builds for flags `f`: the fixed three, then
      one append per truthy flag. */
  method BuildCallbacks(f: Flags) returns (callbacks: seq<Callback>)
    ensures callbacks == CallbackList(f)
  {
    callbacks := [
      TensorBoard(f.summariesDir, None),
      CSVLogger(f.summariesDir + "/log.csv", true, ","),
      LossAndErrorPrinting
    ];
    if StrTruthy(f.profileBatch) {
      callbacks := callbacks + [TensorBoard(f.summariesDir, f.profileBatch)];
    }
    if IntTruthy(f.patientValidPasses) {
      callbacks := callbacks + [EarlyStopping("val_loss", f.patientValidPasses.value, "min", true)];
    }
    if StrTruthy(f.checkpointPath) {
      callbacks := callbacks + [ModelCheckpoint(f.checkpointPath.value, true, "val_loss", "auto", true)];
    }
    if f.lrSchedule {
      callbacks := callbacks + [LearningRateScheduler];
    }
    CallbackListUnfolded(f);
  }

  // ---------------------------------------------------------------------------
  // Training

  /** The arguments `train` passes to compile and fit. */
  datatype FitCall = FitCall(
    optimizer: Optimizer,
    loss: Loss,
    metrics: seq<Metric>,
    callbacks: seq<Callback>,
    epochs: int)

  /** `train`, with the loss and metrics built at construction: an unknown
      optimizer name raises before anything is fitted; otherwise the fit
      receives the named optimizer, the loss, the metrics, the callback list
      and the epoch count. */
  method Train(f: Flags, loss: Loss, metrics: seq<Metric>) returns (r: Result<FitCall, Error>)
    ensures r.Failure? <==> f.optimizer !in OPTIMIZER_CHOICES
    ensures r.Failure? ==> r.error == ValueError("--optimizer " + f.optimizer + " was not found.")
    ensures r.Success? ==> OptimizerName(r.value.optimizer.kind) == f.optimizer
    ensures r.Success? ==> r.value.optimizer.learningRate == f.learningRate
    ensures r.Success? ==> r.value.loss == loss && r.value.metrics == metrics
    ensures r.Success? ==> r.value.callbacks == CallbackList(f) && r.value.epochs == f.epochs
  {
    var optimizer := BuildOptimizer(f.optimizer, f.learningRate);
    if optimizer.Failure? {
      return Failure(optimizer.error);
    }
    var callbacks := BuildCallbacks(f);
    return Success(FitCall(optimizer.value, loss, metrics, callbacks, f.epochs));
  }
}
