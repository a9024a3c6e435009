/**
 * Serving bookkeeping: a model server that counts successful requests,
 * failed requests and accumulated latency, and the request-shape validator.
 *
 * The model's own prediction and the wall clock are outside the model: each
 * call to `Predict` receives what the model did (its predictions and the
 * measured latency, or a failure) as a parameter.
 */
module Serving {
  import opened Wrappers
  import opened Ratio

  /** Number of features every instance must carry (the California Housing features). */
  const ExpectedFeatures: nat := 8

  /** What calling the loaded model produced for one request. */
  datatype ModelOutcome =
    | Predicted(predictions: seq<real>, latencyMs: real)
    | ModelFailed(message: string)

  /** The response of a successful prediction. */
  datatype PredictionResponse = PredictionResponse(predictions: seq<real>, modelVersion: string, latencyMs: real)

  /** The errors `predict` raises: no model loaded, or the model call failed (re-raised). */
  datatype ServingError = ModelNotLoaded | PredictionFailed(message: string)

  /** The health endpoint's answer. */
  datatype HealthResponse = HealthResponse(status: string, modelLoaded: bool, version: string)

  /** The metrics endpoint's answer. */
  datatype ServerMetrics = ServerMetrics(
    requestCount: nat,
    errorCount: nat,
    errorRate: real,
    avgLatencyMs: real,
    modelVersion: string,
    modelLoaded: bool)

  /** A model server over an opaque model type `M`. */
  class ModelServer<M> {
    const model: Option<M>
    const modelVersion: string
    var requestCount: nat
    var errorCount: nat
    var totalLatency: real

    constructor (model: Option<M>, modelVersion: string)
      ensures this.model == model && this.modelVersion == modelVersion
      ensures requestCount == 0 && errorCount == 0 && totalLatency == 0.0
      ensures IsReady() <==> model.Some?
    {
      this.model := model;
      this.modelVersion := modelVersion;
      requestCount := 0;
      errorCount := 0;
      totalLatency := 0.0;
    }

    /** A model is loaded. */
    predicate IsReady()
      reads this
    {
      model.Some?
    }

    /**
     * `predict`: refuses before touching any counter when no model is
     * loaded; a successful call counts one request and its latency; a model
     * failure counts one error and is re-raised.
     */
    method Predict(instances: seq<seq<real>>, outcome: ModelOutcome) returns (r: Result<PredictionResponse, ServingError>)
      modifies this
      ensures !IsReady() ==>
        r == Err(ModelNotLoaded) &&
        requestCount == old(requestCount) && errorCount == old(errorCount) && totalLatency == old(totalLatency)
      ensures IsReady() && outcome.Predicted? ==>
        && r == Ok(PredictionResponse(outcome.predictions, modelVersion, outcome.latencyMs))
        && requestCount == old(requestCount) + 1
        && totalLatency == old(totalLatency) + outcome.latencyMs
        && errorCount == old(errorCount)
      ensures IsReady() && outcome.ModelFailed? ==>
        && r == Err(PredictionFailed(outcome.message))
        && errorCount == old(errorCount) + 1
        && requestCount == old(requestCount)
        && totalLatency == old(totalLatency)
    {
      if !IsReady() {
        return Err(ModelNotLoaded);
      }
      match outcome {
        case Predicted(predictions, latencyMs) =>
          requestCount := requestCount + 1;
          totalLatency := totalLatency + latencyMs;
          return Ok(PredictionResponse(predictions, modelVersion, latencyMs));
        case ModelFailed(message) =>
          errorCount := errorCount + 1;
          return Err(PredictionFailed(message));
      }
    }

    /** `health_check`: "healthy" exactly when a model is loaded, else "not_ready". */
    function HealthCheck(): (h: HealthResponse)
      reads this
      ensures h.status == "healthy" <==> IsReady()
      ensures h.status == "healthy" || h.status == "not_ready"
      ensures h.modelLoaded <==> h.status == "healthy"
      ensures h.version == modelVersion
    {
      HealthResponse(if IsReady() then "healthy" else "not_ready", IsReady(), modelVersion)
    }

    /** `get_metrics`: the counters with the average latency and the error rate. */
    function GetMetrics(): (m: ServerMetrics)
      reads this
      ensures m.requestCount == requestCount && m.errorCount == errorCount
      ensures m == MetricsOf(requestCount, errorCount, totalLatency, modelVersion, IsReady())
    {
      MetricsOf(requestCount, errorCount, totalLatency, modelVersion, IsReady())
    }
  }

  /**
   * The server metrics for given counters: the average latency (0 without
   * successful requests) and the error rate over all attempts (0 without any),
   * which always lies in [0, 1].
   */
  function MetricsOf(requests: nat, errors: nat, totalLatency: real, version: string, loaded: bool): (m: ServerMetrics)
    ensures m.requestCount == requests && m.errorCount == errors
    ensures m.modelVersion == version && m.modelLoaded == loaded
    ensures requests == 0 ==> m.avgLatencyMs == 0.0
    ensures requests > 0 ==> m.avgLatencyMs == totalLatency / requests as real
    ensures requests + errors > 0 ==> m.errorRate == errors as real / (requests + errors) as real
    ensures requests + errors == 0 ==> m.errorRate == 0.0
    ensures 0.0 <= m.errorRate <= 1.0
    ensures m.errorRate == 0.0 <==> errors == 0
    ensures m.errorRate == 1.0 <==> errors > 0 && requests == 0
  {
    var attempts := requests + errors;
    var rate := if attempts > 0 then errors as real / attempts as real else 0.0;
    if attempts > 0 then
      FractionInUnit(errors, attempts);
      ServerMetrics(requests, errors, rate, if requests > 0 then totalLatency / requests as real else 0.0, version, loaded)
    else
      ServerMetrics(requests, errors, rate, 0.0, version, loaded)
  }

  /** One JSON value of a request instance, as Python sees it after parsing. */
  datatype JsonValue =
    | IntValue(i: int)
    | FloatValue(x: real)
    | BoolValue(b: bool)
    | StringValue(s: string)
    | NullValue

  /** `isinstance(x, (int, float))`; Python's `bool` is a subclass of `int`, so booleans pass. */
  predicate IsNumeric(v: JsonValue)
  {
    v.IntValue? || v.FloatValue? || v.BoolValue?
  }

  /** One instance has exactly eight entries, all numeric. */
  predicate WellFormedInstance(instance: seq<JsonValue>)
  {
    |instance| == ExpectedFeatures && forall j :: 0 <= j < |instance| ==> IsNumeric(instance[j])
  }

  /** `validate_input`: a non-empty list whose every instance has eight numeric entries. */
  method ValidateInput(instances: seq<seq<JsonValue>>) returns (valid: bool)
    ensures valid <==> |instances| > 0 && forall i :: 0 <= i < |instances| ==> WellFormedInstance(instances[i])
  {
    if |instances| == 0 {
      return false;
    }
    var i := 0;
    while i < |instances|
      invariant 0 <= i <= |instances|
      invariant forall k :: 0 <= k < i ==> WellFormedInstance(instances[k])
    {
      var instance := instances[i];
      if |instance| != ExpectedFeatures {
        return false;
      }
      var j := 0;
      while j < |instance|
        invariant 0 <= j <= |instance|
        invariant forall k :: 0 <= k < j ==> IsNumeric(instance[k])
      {
        if !IsNumeric(instance[j]) {
          return false;
        }
        j := j + 1;
      }
      i := i + 1;
    }
    return true;
  }
}
