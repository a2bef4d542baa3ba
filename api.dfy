/** The prediction service: the `models` registry filled at startup and cleared
    at shutdown, the health check, and the gating and error structure of
    `/predict`. The loaded pipeline is an opaque oracle: its probabilities and
    labels are whatever it returns, or the message of the exception it raises. */
module Api {
  import opened Wrappers
  import opened Json
  import opened Frames
  import opened Schemas

  /** What `/predict` can see of a loaded pipeline. */
  datatype Model = Model(
    namedSteps: set<string>,
    /** `pipeline.predict_proba(input_df)[:, 1][0]` */
    predictProba: Frame -> Result<real, string>,
    /** `int(pipeline.predict(input_df)[0])` */
    predict: Frame -> Result<int, string>,
    /** `named_steps['preprocessor'].transform(input_df)` */
    transform: Frame -> Result<(), string>,
    /** None when the classifier has no `get_booster`; otherwise the outcome of
        calling it. */
    booster: Option<Result<(), string>>)

  /** A refused request: an HTTP error raised by the handler, or a body that
      fails validation before the handler runs. */
  datatype Rejection = HttpError(status: int, detail: string) | Unprocessable(fields: seq<string>)

  const PipelineKey := "pipeline"

  /** `health_check()` as a function of the registry. */
  function Health(models: map<string, Model>, version: string): (h: HealthCheck)
    ensures h.status == "healthy" <==> PipelineKey in models
    ensures h.status == "healthy" || h.status == "degraded"
    ensures h.version == version
  {
    HealthCheck(if PipelineKey in models then "healthy" else "degraded", version)
  }

  /** The explanation block: the classifier and preprocessor steps, the
      transform, and the booster lookup. Its outcome, success or the message of
      the exception caught, does not reach the response. */
  function Explain(m: Model, input: Frame): Result<(), string> {
    if "classifier" !in m.namedSteps then Failure("'classifier'")
    else if "preprocessor" !in m.namedSteps then Failure("'preprocessor'")
    else match m.transform(input)
      case Failure(e) => Failure(e)
      case Success(_) =>
        match m.booster
        case Some(Failure(e)) => Failure(e)
        case _ => Success(())
  }

  /** `predict(request)` as a function of the registry. */
  function PredictOutcome(models: map<string, Model>, req: PredictionRequest): Result<PredictionResponse, Rejection> {
    if PipelineKey !in models then Failure(HttpError(503, "Model not loaded"))
    else
      var m := models[PipelineKey];
      var input := RequestFrame(req);
      match m.predictProba(input)
      case Failure(e) => Failure(HttpError(500, e))
      case Success(prob) =>
        match m.predict(input)
        case Failure(e) => Failure(HttpError(500, e))
        case Success(predicted) =>
          var _ := Explain(m, input);
          Success(PredictionResponse(prob, predicted, Some(map[]), Some([])))
  }

  /** A POST to `/predict`: the body is validated first, then the handler runs. */
  function PostPredictOutcome(models: map<string, Model>, body: map<string, Json>): Result<PredictionResponse, Rejection> {
    match Validate(body)
    case Failure(fields) => Failure(Unprocessable(fields))
    case Success(req) => PredictOutcome(models, req)
  }

  /** The running service and its model registry. */
  class RiskService {
    var models: map<string, Model>
    const version: string

    constructor (version: string)
      ensures this.models == map[] && this.version == version
    {
      this.models := map[];
      this.version := version;
    }

    /** Startup: a loaded pipeline is registered; a failed load is logged and
        swallowed, so the service runs without it. */
    method Startup(load: Result<Model, string>)
      modifies this
      ensures load.Success? ==> models == old(models)[PipelineKey := load.value]
      ensures load.Failure? ==> models == old(models)
    {
      if load.Success? {
        models := models[PipelineKey := load.value];
      }
    }

    /** Shutdown: `models.clear()`. */
    method Shutdown()
      modifies this
      ensures models == map[]
    {
      models := map[];
    }

    method HealthCheck() returns (h: Schemas.HealthCheck)
      ensures h == Health(models, version)
    {
      var status := if PipelineKey in models then "healthy" else "degraded";
      h := Schemas.HealthCheck(status, version);
    }

    method Predict(req: PredictionRequest) returns (r: Result<PredictionResponse, Rejection>)
      ensures r == PredictOutcome(models, req)
    {
      if PipelineKey !in models {
        return Failure(HttpError(503, "Model not loaded"));
      }
      var pipeline := models[PipelineKey];
      var inputDf := RequestFrame(req);
      var prob := pipeline.predictProba(inputDf);
      if prob.Failure? {
        return Failure(HttpError(500, prob.error));
      }
      var predicted := pipeline.predict(inputDf);
      if predicted.Failure? {
        return Failure(HttpError(500, predicted.error));
      }
      var shapDict: map<string, real> := map[];
      var topFeats: seq<string> := [];
      var explained := Explain(pipeline, inputDf);
      if explained.Failure? {
        shapDict := map[];
        topFeats := [];
      }
      return Success(PredictionResponse(prob.value, predicted.value, Some(shapDict), Some(topFeats)));
    }

    method PostPredict(body: map<string, Json>) returns (r: Result<PredictionResponse, Rejection>)
      ensures r == PostPredictOutcome(models, body)
    {
      var request := Validate(body);
      if request.Failure? {
        return Failure(Unprocessable(request.error));
      }
      r := Predict(request.value);
    }
  }

  // ---------------------------------------------------------------------------
  // Properties

  /** Without a loaded pipeline every prediction is a 503 "Model not loaded",
      whatever the request. */
  lemma PredictWithoutModel(models: map<string, Model>, req: PredictionRequest)
    requires PipelineKey !in models
    ensures PredictOutcome(models, req) == Failure(HttpError(503, "Model not loaded"))
  {
  }

  /** With a loaded pipeline the outcome depends on that pipeline alone, and
      not on anything else in the registry. */
  lemma PredictConsultsOnlyPipeline(m1: map<string, Model>, m2: map<string, Model>, req: PredictionRequest)
    requires PipelineKey in m1 && PipelineKey in m2 && m1[PipelineKey] == m2[PipelineKey]
    ensures PredictOutcome(m1, req) == PredictOutcome(m2, req)
  {
  }

  /** A prediction succeeds exactly when both oracle calls do; it then carries
      their results, an empty explanation map and an empty feature list (not
      None). A failing call becomes a 500 carrying its message, the
      probability call being made first. */
  lemma PredictSpec(m: Model, models: map<string, Model>, req: PredictionRequest)
    requires PipelineKey in models && models[PipelineKey] == m
    ensures var input := RequestFrame(req);
      && (PredictOutcome(models, req).Success? <==> m.predictProba(input).Success? && m.predict(input).Success?)
      && (PredictOutcome(models, req).Success? ==>
            PredictOutcome(models, req).value ==
              PredictionResponse(m.predictProba(input).value, m.predict(input).value, Some(map[]), Some([])))
      && (m.predictProba(input).Failure? ==>
            PredictOutcome(models, req) == Failure(HttpError(500, m.predictProba(input).error)))
      && (m.predictProba(input).Success? && m.predict(input).Failure? ==>
            PredictOutcome(models, req) == Failure(HttpError(500, m.predict(input).error)))
  {
  }

  /** A failure in the explanation block does not change the outcome: two
      pipelines that predict alike but differ in their steps, transform or
      booster give the same response. */
  lemma ExplanationFailureIgnored(models: map<string, Model>, m: Model, other: Model, req: PredictionRequest)
    requires PipelineKey in models && models[PipelineKey] == m
    requires other.predictProba == m.predictProba && other.predict == m.predict
    ensures PredictOutcome(models[PipelineKey := other], req) == PredictOutcome(models, req)
  {
  }

  /** The response never carries the None defaults of the response type. */
  lemma ResponseFieldsNeverNone(models: map<string, Model>, req: PredictionRequest)
    requires PredictOutcome(models, req).Success?
    ensures PredictOutcome(models, req).value.shapValues == Some(map[])
    ensures PredictOutcome(models, req).value.topFeatures == Some([])
    ensures PredictOutcome(models, req).value != NewResponse(
      PredictOutcome(models, req).value.defaultProbability, PredictOutcome(models, req).value.isDefault)
  {
  }

  /** A body is validated before the registry is consulted: an invalid body is
      a 422 naming its faulty fields even when no model is loaded, and a valid
      body is handled as its request. */
  lemma PostPredictSpec(models: map<string, Model>, body: map<string, Json>)
    ensures Validate(body).Failure? ==>
      PostPredictOutcome(models, body) == Failure(Unprocessable(Validate(body).error))
    ensures Validate(body).Success? ==>
      PostPredictOutcome(models, body) == PredictOutcome(models, Validate(body).value)
    ensures !Conforms(body) ==>
      && PostPredictOutcome(models, body).Failure?
      && PostPredictOutcome(models, body).error.Unprocessable?
      && PostPredictOutcome(models, body).error.fields != []
  {
    ValidateSpec(body);
  }

  /** A client's own request body is handled as that request. */
  lemma PostPredictAsBody(models: map<string, Model>, req: PredictionRequest)
    ensures PostPredictOutcome(models, AsBody(req)) == PredictOutcome(models, req)
  {
    ValidateAsBody(req);
  }

  /** One run of the service: start with a load outcome, check health, make a
      prediction, shut down, check health again. Health is healthy exactly when
      the load succeeded, a failed load makes the prediction a 503, and after
      shutdown the service is degraded. */
  method Lifecycle(load: Result<Model, string>, version: string, req: PredictionRequest)
    returns (before: Schemas.HealthCheck, prediction: Result<PredictionResponse, Rejection>, after: Schemas.HealthCheck)
    ensures before.status == "healthy" <==> load.Success?
    ensures load.Failure? ==> prediction == Failure(HttpError(503, "Model not loaded"))
    ensures load.Success? ==> prediction == PredictOutcome(map[PipelineKey := load.value], req)
    ensures after.status == "degraded" && before.version == version && after.version == version
  {
    var service := new RiskService(version);
    service.Startup(load);
    before := service.HealthCheck();
    prediction := service.Predict(req);
    service.Shutdown();
    after := service.HealthCheck();
  }
}
