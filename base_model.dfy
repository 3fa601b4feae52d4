/** The training wrapper `VeryBasicModel` -> `BasicModel` -> `BasicClassifier`:
    per-split step counters, per-split metric accumulators, the weight
    merge of `load_weights`, `load_pretrained`'s path resolution and the
    optimizer configuration. The network, the loss value and the metric
    values are foreign and stay abstract. */
module BaseModel {
  import opened Common
  import opened Paths
  import opened Checkpoints
  import opened StateDicts
  import opened Training

  /** The most derived class of the object. Only `BasicClassifier`
      overrides `_step` and `_epoch_end`. */
  datatype Level = VeryBasicModel | BasicModel | BasicClassifier

  /** A batch as the data loader hands it over; `target` has one class
      label per sample, so its length is the batch size. */
  datatype Batch = Batch(source: Tensor, target: seq<int>)

  /** `compute_loss(pred, target)`: the configured loss function applied to
      the prediction and the targets. Its value is not modelled. */
  datatype Loss = Loss(pred: Tensor, target: seq<int>)

  /** One metric `_epoch_end` computes and logs under `tag`, over the
      observations its accumulator held. */
  datatype Report = Report(tag: string, observations: seq<Observation>)

  /** The two metrics, in the order `_epoch_end` visits them. */
  datatype Metric = Acc | AucRoc {
    function Name(): string {
      match this
      case Acc => "ACC"
      case AucRoc => "AUC_ROC"
    }
  }

  /** `f"{state}/{name}"`: the split's name, a slash, the metric's name. */
  function Tag(s: Split, m: Metric): (t: string)
    ensures |t| == |s.Name()| + 1 + |m.Name()|
    ensures t[..|s.Name()|] == s.Name() && t[|s.Name()|] == '/' && t[|s.Name()| + 1..] == m.Name()
  {
    var t := s.Name() + "/" + m.Name();
    assert t[|s.Name()| + 1..] == m.Name();
    t
  }

  /** Every (split, metric) pair is logged under a tag of its own. */
  lemma TagsDistinct(s: Split, m: Metric, s': Split, m': Metric)
    ensures Tag(s, m) == Tag(s', m') <==> s == s' && m == m'
  {
  }

  lemma ResetFresh(s: Split)
    ensures WellKeyed(Fresh) && Reset(Fresh, s) == Fresh
  {
    FreshWellKeyed();
    var r := Reset(Fresh, s);
    forall t: Split ensures r[t.Key()] == Fresh[t.Key()] {
      if t == s {
        match s
        case Train =>
        case Val =>
        case Test =>
      }
    }
    assert r.Keys == Fresh.Keys;
  }

  class Model {
    const level: Level
    var stepTrain: int
    var stepVal: int
    var stepTest: int
    /** `self.acc` and `self.auc_roc`, keyed by `state + "_"`. */
    var acc: Accumulators
    var aucRoc: Accumulators
    /** `self.batch_size`: absent until some `_step` has run. */
    var batchSize: Option<nat>
    /** The model's own `state_dict()`. */
    var stateDict: StateDict

    /** Both metric dictionaries hold the three splits, and before any
        classifier step they are still as constructed. */
    ghost predicate Valid()
      reads this
    {
      WellKeyed(acc) && WellKeyed(aucRoc) &&
      (batchSize.None? ==> acc == Fresh && aucRoc == Fresh)
    }

    function Steps(): Counters
      reads this
    {
      Counters(stepTrain, stepVal, stepTest)
    }

    constructor (level: Level, weights: StateDict)
      ensures Valid()
      ensures this.level == level && Steps() == Initial
      ensures acc == Fresh && aucRoc == Fresh && batchSize == None
      ensures stateDict == weights
    {
      this.level := level;
      stepTrain, stepVal, stepTest := -1, -1, -1;
      acc, aucRoc := Fresh, Fresh;
      batchSize := None;
      stateDict := weights;
      FreshWellKeyed();
    }

    /** The effect of one `_step(batch, batch_idx, state, step)` call on the
        accumulators, the batch size and the result. */
    twostate predicate Stepped(s: Split, batch: Batch, pred: Tensor, new r: Result<Loss>)
      reads this
    {
      if level == BasicClassifier then
        var o := Observation(pred, batch.target);
        old(WellKeyed(acc)) && old(WellKeyed(aucRoc)) &&
        r == Ok(Loss(pred, batch.target)) &&
        acc == Record(old(acc), s, o) && aucRoc == Record(old(aucRoc), s, o) &&
        batchSize == Some(|batch.target|)
      else
        r == Err(NotImplementedError) &&
        acc == old(acc) && aucRoc == old(aucRoc) && batchSize == old(batchSize)
    }

    /** `_step`: the base classes raise `NotImplementedError`; the classifier
        feeds `(pred, target)` to both metrics of its split only. `pred` is
        the output of the forward pass, which is not modelled. */
    method Step(batch: Batch, pred: Tensor, s: Split, step: int) returns (r: Result<Loss>)
      requires Valid()
      modifies this`acc, this`aucRoc, this`batchSize
      ensures Valid()
      ensures Stepped(s, batch, pred, r)
    {
      if level != BasicClassifier {
        return Err(NotImplementedError);
      }
      batchSize := Some(|batch.target|);
      var o := Observation(pred, batch.target);
      acc := Record(acc, s, o);
      aucRoc := Record(aucRoc, s, o);
      r := Ok(Loss(pred, batch.target));
    }

    /** `training_step`: bumps only the train counter, then hands its new
        value to `_step` as `step`. */
    method TrainingStep(batch: Batch, pred: Tensor) returns (step: int, r: Result<Loss>)
      requires Valid()
      modifies this`stepTrain, this`acc, this`aucRoc, this`batchSize
      ensures Valid()
      ensures Steps() == old(Steps()).Bump(Train)
      ensures step == old(stepTrain) + 1 && step == stepTrain
      ensures Stepped(Train, batch, pred, r)
    {
      stepTrain := stepTrain + 1;
      step := stepTrain;
      r := Step(batch, pred, Train, step);
    }

    /** `validation_step`: bumps only the val counter. */
    method ValidationStep(batch: Batch, pred: Tensor) returns (step: int, r: Result<Loss>)
      requires Valid()
      modifies this`stepVal, this`acc, this`aucRoc, this`batchSize
      ensures Valid()
      ensures Steps() == old(Steps()).Bump(Val)
      ensures step == old(stepVal) + 1 && step == stepVal
      ensures Stepped(Val, batch, pred, r)
    {
      stepVal := stepVal + 1;
      step := stepVal;
      r := Step(batch, pred, Val, step);
    }

    /** `test_step`: bumps only the test counter. */
    method TestStep(batch: Batch, pred: Tensor) returns (step: int, r: Result<Loss>)
      requires Valid()
      modifies this`stepTest, this`acc, this`aucRoc, this`batchSize
      ensures Valid()
      ensures Steps() == old(Steps()).Bump(Test)
      ensures step == old(stepTest) + 1 && step == stepTest
      ensures Stepped(Test, batch, pred, r)
    {
      stepTest := stepTest + 1;
      step := stepTest;
      r := Step(batch, pred, Test, step);
    }

    /** `_epoch_end(state)`, called with "train" by `on_train_epoch_end`
        and with "val" by `on_validation_epoch_end`. `on_test_epoch_end`
        calls it with "test" but declares a required `outputs` parameter,
        so whether a hook call without arguments reaches it depends on the
        framework version; the model takes the call as made. The classifier
        visits ACC then AUC_ROC, computing each over what its split
        accumulated and then resetting it. Reading `self.batch_size` before
        any `_step` has set it raises before the first reset. */
    method EpochEnd(s: Split) returns (r: Result<seq<Report>>)
      requires Valid()
      modifies this`acc, this`aucRoc
      ensures Valid()
      ensures level != BasicClassifier ==> r == Ok([]) && acc == old(acc) && aucRoc == old(aucRoc)
      ensures level == BasicClassifier ==> acc == Reset(old(acc), s) && aucRoc == Reset(old(aucRoc), s)
      ensures level == BasicClassifier && batchSize.None? ==>
        r == Err(AttributeError("batch_size")) && acc == old(acc) && aucRoc == old(aucRoc)
      ensures level == BasicClassifier && batchSize.Some? ==>
        r == Ok([Report(Tag(s, Acc), old(acc)[s.Key()]), Report(Tag(s, AucRoc), old(aucRoc)[s.Key()])])
    {
      if level != BasicClassifier {
        return Ok([]);
      }
      if batchSize.None? {
        ResetFresh(s);
        return Err(AttributeError("batch_size"));
      }
      var metrics := [Acc, AucRoc];
      ghost var expected := [Report(Tag(s, Acc), acc[s.Key()]), Report(Tag(s, AucRoc), aucRoc[s.Key()])];
      var reports: seq<Report> := [];
      for i := 0 to |metrics|
        invariant WellKeyed(acc) && WellKeyed(aucRoc)
        invariant reports == expected[..i]
        invariant acc == if i > 0 then Reset(old(acc), s) else old(acc)
        invariant aucRoc == if i > 1 then Reset(old(aucRoc), s) else old(aucRoc)
      {
        match metrics[i]
        case Acc =>
          reports := reports + [Report(Tag(s, Acc), acc[s.Key()])];
          acc := Reset(acc, s);
        case AucRoc =>
          reports := reports + [Report(Tag(s, AucRoc), aucRoc[s.Key()])];
          aucRoc := Reset(aucRoc, s);
      }
      assert reports == expected;
      r := Ok(reports);
    }

    /** `load_weights(pretrained, filter=...)`: builds the merged state dict
        and loads it; the model keeps exactly its own keys. Returns the
        merged dict that is handed to `load_state_dict`. */
    method LoadWeights(pretrained: StateDict, filter: Option<string -> bool>) returns (merged: StateDict)
      modifies this`stateDict
      ensures merged == Merge(old(stateDict), pretrained, filter)
      ensures stateDict == Loaded(old(stateDict), merged)
    {
      var initWeights := stateDict;
      var admitted := Admitted(pretrained, filter);
      initWeights := initWeights + admitted;
      merged := initWeights;
      stateDict := Loaded(stateDict, merged);
    }

    /** `load_pretrained(path)`: a directory is resolved through its pointer
        file; `checkpoints` gives the "state_dict" each checkpoint file on
        disk holds. A missing file fails and changes nothing. */
    method LoadPretrained(path: Path, isDir: bool, pointers: PointerStore,
                          checkpoints: map<Path, StateDict>, filter: Option<string -> bool>)
      returns (r: Result<StateDict>)
      modifies this`stateDict
      ensures var file := PretrainedCheckpointPath(pointers, path, isDir);
        if file.Err? then r == Err(file.error) && stateDict == old(stateDict)
        else if file.value !in checkpoints then r == Err(FileNotFoundError) && stateDict == old(stateDict)
        else r == Ok(Merge(old(stateDict), checkpoints[file.value], filter)) &&
             stateDict == Loaded(old(stateDict), r.value)
    {
      var file := PretrainedCheckpointPath(pointers, path, isDir);
      if file.Err? {
        return Err(file.error);
      }
      if file.value !in checkpoints {
        return Err(FileNotFoundError);
      }
      var merged := LoadWeights(checkpoints[file.value], filter);
      r := Ok(merged);
    }
  }

  /** A class reference passed as a constructor argument, such as
      `torch.optim.AdamW`, and the keyword arguments it is called with. */
  datatype Factory = Factory(qualifiedName: string)
  type Kwargs = map<string, real>

  /** The optimizer fields of `BasicModel`. */
  datatype OptimizerSettings = OptimizerSettings(
    optimizer: Factory, optimizerKwargs: Kwargs,
    lrScheduler: Option<Factory>, lrSchedulerKwargs: Kwargs)

  /** `BasicModel`'s defaults. */
  const BasicModelDefaults: OptimizerSettings :=
    OptimizerSettings(Factory("torch.optim.Adam"), map["lr" := 0.001, "weight_decay" := 0.01], None, map[])

  /** `BasicClassifier`'s defaults. */
  const BasicClassifierDefaults: OptimizerSettings :=
    OptimizerSettings(Factory("torch.optim.AdamW"), map["lr" := 0.0001, "weight_decay" := 0.01], None, map[])

  /** An optimizer built over the model's parameters, and a scheduler built
      over an optimizer. */
  datatype Optimizer = Optimizer(factory: Factory, kwargs: Kwargs)
  datatype Scheduler = Scheduler(factory: Factory, optimizer: Optimizer, kwargs: Kwargs)
  datatype SchedulerConfig = SchedulerConfig(scheduler: Scheduler, interval: string, frequency: int)

  /** The two return shapes: `[optimizer]`, or `[optimizer], [config]`. */
  datatype OptimizerSetup =
    | Optimizers(optimizers: seq<Optimizer>)
    | OptimizersAndSchedulers(optimizers: seq<Optimizer>, schedulers: seq<SchedulerConfig>)

  /** `configure_optimizers`: always exactly the one configured optimizer;
      a scheduler only when one is configured, stepped every step. */
  function ConfigureOptimizers(s: OptimizerSettings): (r: OptimizerSetup)
    ensures r.optimizers == [Optimizer(s.optimizer, s.optimizerKwargs)]
    ensures r.Optimizers? <==> s.lrScheduler.None?
    ensures r.OptimizersAndSchedulers? ==>
      |r.schedulers| == 1 &&
      r.schedulers[0].scheduler == Scheduler(s.lrScheduler.value, r.optimizers[0], s.lrSchedulerKwargs) &&
      r.schedulers[0].interval == "step" && r.schedulers[0].frequency == 1
  {
    var optimizer := Optimizer(s.optimizer, s.optimizerKwargs);
    if s.lrScheduler.Some? then
      var config := SchedulerConfig(Scheduler(s.lrScheduler.value, optimizer, s.lrSchedulerKwargs), "step", 1);
      OptimizersAndSchedulers([optimizer], [config])
    else
      Optimizers([optimizer])
  }

  /** With their default arguments, both classes configure a single
      optimizer and no scheduler: Adam at lr 1e-3 for `BasicModel`, AdamW at
      lr 1e-4 for `BasicClassifier`, both with weight decay 1e-2. */
  lemma DefaultsConfigureSingleOptimizer()
    ensures ConfigureOptimizers(BasicModelDefaults)
         == Optimizers([Optimizer(Factory("torch.optim.Adam"), map["lr" := 0.001, "weight_decay" := 0.01])])
    ensures ConfigureOptimizers(BasicClassifierDefaults)
         == Optimizers([Optimizer(Factory("torch.optim.AdamW"), map["lr" := 0.0001, "weight_decay" := 0.01])])
  {
  }
}
