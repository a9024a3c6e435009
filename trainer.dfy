/**
 * The lifecycle guards of the California Housing regression model: which
 * model types exist and their default hyper-parameters, the fitted and
 * unfitted states, the metric keys `train` records, the input-shape checks
 * of `predict`, and what `save` writes and `load` reads back.
 *
 * The estimator is opaque: it is recorded as the type and parameters it was
 * built from. Fitting, predicting and the metric values themselves come from
 * the estimator library and are parameters here.
 */
module Trainer {
  import opened Wrappers

  /** The three supported estimators. */
  datatype ModelType = RandomForest | GradientBoosting | LinearRegression

  /** The key under which each estimator is registered. */
  function KeyOf(t: ModelType): string
  {
    match t
    case RandomForest => "random_forest"
    case GradientBoosting => "gradient_boosting"
    case LinearRegression => "linear_regression"
  }

  /** The registered keys. */
  const SupportedKeys: seq<string> := ["random_forest", "gradient_boosting", "linear_regression"]

  /** Looks a key up among the supported estimators. */
  function ParseModelType(key: string): (r: Option<ModelType>)
    ensures r.Some? <==> key in SupportedKeys
    ensures r.Some? ==> KeyOf(r.value) == key
  {
    if key == "random_forest" then Some(RandomForest)
    else if key == "gradient_boosting" then Some(GradientBoosting)
    else if key == "linear_regression" then Some(LinearRegression)
    else None
  }

  /** Every estimator's key parses back to it. */
  lemma ParseKeyOf(t: ModelType)
    ensures ParseModelType(KeyOf(t)) == Some(t)
  {
  }

  /** A hyper-parameter value. */
  datatype ParamValue = IntParam(i: int) | RealParam(x: real) | TextParam(s: string) | BoolParam(b: bool)

  type Params = map<string, ParamValue>

  /**
   * `_get_default_params`: both tree ensembles use 100 estimators and seed
   * 42, the forest is deeper than the boosted trees and uses every core, only
   * boosting has a learning rate (0.1), each ensemble has exactly its four
   * keys, and linear regression (like any unknown key) has no parameters.
   */
  function DefaultParams(key: string): (p: Params)
    ensures p == map[] <==> key != "random_forest" && key != "gradient_boosting"
    ensures key == "random_forest" || key == "gradient_boosting" ==>
      && "n_estimators" in p && p["n_estimators"] == IntParam(100)
      && "random_state" in p && p["random_state"] == IntParam(42)
      && "max_depth" in p && p["max_depth"].IntParam?
    ensures key == "random_forest" ==> p["max_depth"].i == 10 && "n_jobs" in p && p["n_jobs"] == IntParam(-1)
    ensures key == "gradient_boosting" ==> p["max_depth"].i == 5
    ensures "learning_rate" in p <==> key == "gradient_boosting"
    ensures key == "random_forest" ==> p.Keys == {"n_estimators", "max_depth", "random_state", "n_jobs"}
    ensures key == "gradient_boosting" ==>
      && p.Keys == {"n_estimators", "max_depth", "learning_rate", "random_state"}
      && p["learning_rate"] == RealParam(0.1)
  {
    if key == "random_forest" then
      var p := map["n_estimators" := IntParam(100), "max_depth" := IntParam(10), "random_state" := IntParam(42), "n_jobs" := IntParam(-1)];
      assert "n_estimators" in p;
      p
    else if key == "gradient_boosting" then
      var p := map["n_estimators" := IntParam(100), "max_depth" := IntParam(5), "learning_rate" := RealParam(0.1), "random_state" := IntParam(42)];
      assert "n_estimators" in p;
      p
    else
      map[]
  }

  /** `model_params or defaults`: absent or empty parameters fall back to the defaults. */
  function ChooseParams(given: Option<Params>, key: string): (p: Params)
    ensures given.Some? && given.value != map[] ==> p == given.value
    ensures given.None? || given.value == map[] ==> p == DefaultParams(key)
  {
    if given.Some? && given.value != map[] then given.value else DefaultParams(key)
  }

  /** Whatever was given, a forest or a boosted model never ends up without parameters. */
  lemma ChooseParamsNonEmpty(given: Option<Params>, t: ModelType)
    ensures ChooseParams(given, KeyOf(t)) == map[] ==> t == LinearRegression
  {
  }

  /** Parameters a model can hold are kept as they are when passed back in, as `load` does. */
  lemma ChooseParamsStable(p: Params, t: ModelType)
    requires p != map[] || t == LinearRegression
    ensures ChooseParams(Some(p), KeyOf(t)) == p
  {
  }

  /** The features the model expects, in order. */
  const FeatureNames: seq<string> := ["MedInc", "HouseAge", "AveRooms", "AveBedrms", "Population", "AveOccup", "Latitude", "Longitude"]

  /** The estimator object, as built from its type and parameters. */
  datatype Estimator = Estimator(modelType: ModelType, params: Params)

  /** The three regression metrics the library computes for a set of predictions. */
  datatype Scores = Scores(mae: real, mse: real, r2: real)

  /** The errors the model raises. */
  datatype TrainerError =
    | UnsupportedModelType(key: string)
    | NotFitted
    | FeatureCountMismatch(expected: nat, got: nat)

  /** What `predict` receives: a single sample, or a matrix of `width` columns. */
  datatype Features = Sample(values: seq<real>) | Batch(rows: seq<seq<real>>, width: nat)

  /** The column count `predict` checks: a sample becomes one row of its own length. */
  function ColumnCount(x: Features): nat
  {
    match x
    case Sample(values) => |values|
    case Batch(_, width) => width
  }

  /** The rows `predict` hands to the estimator after reshaping. */
  function Rows(x: Features): seq<seq<real>>
  {
    match x
    case Sample(values) => [values]
    case Batch(rows, _) => rows
  }

  /** A matrix whose every row has its declared width. */
  predicate WellShaped(x: Features)
  {
    x.Batch? ==> forall i :: 0 <= i < |x.rows| ==> |x.rows[i]| == x.width
  }

  /** The metrics `train` records: the training scores always, the validation scores when given. */
  function RecordTraining(metrics: map<string, real>, train: Scores, validation: Option<Scores>): (m: map<string, real>)
    ensures m.Keys == metrics.Keys + {"train_mae", "train_mse", "train_r2"}
                      + (if validation.Some? then {"val_mae", "val_mse", "val_r2"} else {})
    ensures m["train_mae"] == train.mae && m["train_mse"] == train.mse && m["train_r2"] == train.r2
    ensures validation.Some? ==>
      m["val_mae"] == validation.value.mae && m["val_mse"] == validation.value.mse && m["val_r2"] == validation.value.r2
    ensures forall k :: (k in metrics && k !in {"train_mae", "train_mse", "train_r2"} &&
      (validation.None? || k !in {"val_mae", "val_mse", "val_r2"})) ==> m[k] == metrics[k]
  {
    var withTrain := metrics["train_mae" := train.mae]["train_mse" := train.mse]["train_r2" := train.r2];
    if validation.Some? then
      withTrain["val_mae" := validation.value.mae]["val_mse" := validation.value.mse]["val_r2" := validation.value.r2]
    else withTrain
  }

  /** What `save` writes; a file written otherwise may lack the metrics entry. */
  datatype SavedModel = SavedModel(model: Option<Estimator>, modelType: string, modelParams: Params, metrics: Option<map<string, real>>)

  /** `CaliforniaHousingModel`: a model type, its parameters, and the fitted state. */
  class CaliforniaHousingModel {
    const modelType: ModelType
    const modelParams: Params
    var model: Option<Estimator>
    var isFitted: bool
    var metrics: map<string, real>

    /** Only linear regression can have empty parameters. */
    predicate Valid()
      reads this
    {
      modelParams != map[] || modelType == LinearRegression
    }

    /** The part of `__init__` after the type check: no estimator, not fitted, no metrics. */
    constructor (modelType: ModelType, modelParams: Params)
      requires modelParams != map[] || modelType == LinearRegression
      ensures Valid()
      ensures this.modelType == modelType && this.modelParams == modelParams
      ensures model == None && !isFitted && metrics == map[]
    {
      this.modelType := modelType;
      this.modelParams := modelParams;
      model := None;
      isFitted := false;
      metrics := map[];
    }

    /**
     * `train`: builds the estimator from the type and parameters, marks the
     * model fitted and records the metrics. The library's scores are
     * parameters; validation scores are recorded only when both validation
     * inputs are present.
     */
    method Train(train: Scores, xVal: Option<seq<seq<real>>>, yVal: Option<seq<real>>, validation: Scores)
      returns (m: map<string, real>)
      requires Valid()
      modifies this
      ensures Valid()
      ensures model == Some(Estimator(modelType, modelParams)) && isFitted
      ensures metrics == RecordTraining(old(metrics), train, if xVal.Some? && yVal.Some? then Some(validation) else None)
      ensures m == metrics
    {
      model := Some(Estimator(modelType, modelParams));
      isFitted := true;
      metrics := metrics["train_mae" := train.mae];
      metrics := metrics["train_mse" := train.mse];
      metrics := metrics["train_r2" := train.r2];
      if xVal.Some? && yVal.Some? {
        metrics := metrics["val_mae" := validation.mae];
        metrics := metrics["val_mse" := validation.mse];
        metrics := metrics["val_r2" := validation.r2];
      }
      m := metrics;
    }

    /**
     * The checks of `predict`, in order: the model must be fitted; a single
     * sample is reshaped into one row; the column count must be eight. The
     * result is the batch handed to the estimator.
     */
    function CheckPredictInput(x: Features): (r: Result<seq<seq<real>>, TrainerError>)
      reads this
      ensures !isFitted ==> r == Err(NotFitted)
      ensures isFitted && ColumnCount(x) != |FeatureNames| ==> r == Err(FeatureCountMismatch(8, ColumnCount(x)))
      ensures r.Ok? <==> isFitted && ColumnCount(x) == |FeatureNames|
      ensures r.Ok? && x.Sample? ==> r.value == [x.values]
      ensures r.Ok? && WellShaped(x) ==> forall i :: 0 <= i < |r.value| ==> |r.value[i]| == |FeatureNames|
    {
      if !isFitted then Err(NotFitted)
      else
        var rows := Rows(x);
        var columns := ColumnCount(x);
        if columns != |FeatureNames| then Err(FeatureCountMismatch(|FeatureNames|, columns))
        else Ok(rows)
    }

    /** `save`: refuses an unfitted model; otherwise writes the estimator, type, parameters and metrics. */
    function Save(): (r: Result<SavedModel, TrainerError>)
      reads this
      ensures r.Err? <==> !isFitted
      ensures r.Err? ==> r.error == NotFitted
      ensures r.Ok? ==> ParseModelType(r.value.modelType) == Some(modelType)
      ensures r.Ok? ==> r.value.model == model && r.value.modelParams == modelParams && r.value.metrics == Some(metrics)
    {
      if !isFitted then Err(NotFitted)
      else Ok(SavedModel(model, KeyOf(modelType), modelParams, Some(metrics)))
    }
  }

  /**
   * `__init__`: an unsupported key is refused; otherwise a new, unfitted
   * model with the given parameters, or the defaults when none or empty.
   */
  method NewModel(key: string, modelParams: Option<Params>) returns (r: Result<CaliforniaHousingModel, TrainerError>)
    ensures r.Err? <==> key !in SupportedKeys
    ensures r.Err? ==> r.error == UnsupportedModelType(key)
    ensures r.Ok? ==>
      && fresh(r.value) && r.value.Valid()
      && KeyOf(r.value.modelType) == key
      && r.value.modelParams == ChooseParams(modelParams, key)
      && r.value.model == None && !r.value.isFitted && r.value.metrics == map[]
  {
    var t := ParseModelType(key);
    if t.None? {
      return Err(UnsupportedModelType(key));
    }
    ChooseParamsNonEmpty(modelParams, t.value);
    var instance := new CaliforniaHousingModel(t.value, ChooseParams(modelParams, key));
    return Ok(instance);
  }

  /**
   * `load`: rebuilds a model from what `save` wrote, through the same type
   * check and parameter choice as `__init__`, then restores the estimator
   * and the metrics (`data.get("metrics", {})`: none when the entry is
   * missing) and marks it fitted.
   */
  method Load(saved: SavedModel) returns (r: Result<CaliforniaHousingModel, TrainerError>)
    ensures r.Err? <==> saved.modelType !in SupportedKeys
    ensures r.Err? ==> r.error == UnsupportedModelType(saved.modelType)
    ensures r.Ok? ==>
      && fresh(r.value) && r.value.Valid()
      && KeyOf(r.value.modelType) == saved.modelType
      && r.value.modelParams == ChooseParams(Some(saved.modelParams), saved.modelType)
      && r.value.model == saved.model && r.value.isFitted
      && r.value.metrics == (if saved.metrics.Some? then saved.metrics.value else map[])
  {
    r := NewModel(saved.modelType, Some(saved.modelParams));
    if r.Ok? {
      var instance := r.value;
      instance.model := saved.model;
      instance.metrics := if saved.metrics.Some? then saved.metrics.value else map[];
      instance.isFitted := true;
    }
  }

  /** Saving a fitted model and loading the file gives back the same type, parameters, estimator and metrics. */
  method SaveThenLoad(m: CaliforniaHousingModel) returns (loaded: CaliforniaHousingModel)
    requires m.Valid() && m.isFitted
    ensures loaded.modelType == m.modelType && loaded.modelParams == m.modelParams
    ensures loaded.model == m.model && loaded.metrics == m.metrics && loaded.isFitted
  {
    var saved := m.Save();
    ParseKeyOf(m.modelType);
    ChooseParamsStable(m.modelParams, m.modelType);
    var r := Load(saved.value);
    loaded := r.value;
    ParseKeyOf(loaded.modelType);
  }
}
