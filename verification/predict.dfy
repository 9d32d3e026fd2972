/** The `POST /predict` handler (main.py:136-186): readiness gate, vector
    assembly, one call to the classifier, risk tiering and response
    assembly, with the classifier passed in as abstract functions. */
module Predictor {
  import opened Wrappers
  import opened FeatureVector
  import opened RiskLevel

  /** The loaded model artifact, seen only through its two capabilities, and
      the `int(...)` conversion of its labels. `predict` yields the raw label
      (of type `L`) of one vector; the optional `predictProba` yields the
      class probabilities of one vector; `toInt` is `int(...)` applied to a
      raw label. Each may raise, which is a `Failure` carrying the exception
      text. */
  datatype Classifier<!L> = Classifier(
    predict: seq<real> -> Result<L, string>,
    predictProba: Option<seq<real> -> Result<seq<real>, string>>,
    toInt: L -> Result<int, string>)

  /** The process-wide state fixed once at start-up: `MODEL_LOADED` and `MODEL`. */
  datatype Service<!L> = Service(loaded: bool, model: Option<Classifier<L>>)

  /** The body of a successful `PredictionResponse`. */
  datatype Response = Response(
    prediction: int,
    probability: Option<real>,
    riskLevel: string,
    message: string)

  /** An `HTTPException`: status code and detail text. */
  datatype HttpError = HttpError(status: int, detail: string)

  const ServiceUnavailable: int := 503
  const InternalError: int := 500

  const NotLoadedDetail: string := "Model henüz yüklenmedi. Lütfen model dosyasını kontrol edin."
  const InferencePrefix: string := "Tahmin sırasında hata: "
  /** What numpy raises for `.max()` of an empty probability row. */
  const EmptyMaxMessage: string := "zero-size array to reduction operation maximum which has no identity"

  /** Requests may reach the classifier only when the model both loaded and
      is present. */
  predicate Ready<L>(svc: Service<L>) {
    svc.loaded && svc.model.Some?
  }

  /** The largest entry of a nonempty row: numpy's `.max()`. */
  function Max(s: seq<real>): (m: real)
    requires |s| > 0
    ensures m in s
    ensures forall i :: 0 <= i < |s| ==> s[i] <= m
  {
    if |s| == 1 then s[0]
    else
      var rest := Max(s[1..]);
      if s[0] >= rest then s[0] else rest
  }

  /** The confidence of one vector: `None` without `predict_proba`, else the
      maximum class probability; the exception text when it raises. */
  function Confidence<L>(m: Classifier<L>, v: seq<real>): (r: Result<Option<real>, string>)
    ensures m.predictProba.None? ==> r == Success(None)
    ensures r.Success? && r.value.Some? ==>
      m.predictProba.Some? && m.predictProba.value(v).Success?
      && r.value.value in m.predictProba.value(v).value
      && forall x :: x in m.predictProba.value(v).value ==> x <= r.value.value
    ensures m.predictProba.Some? && m.predictProba.value(v).Failure? ==>
      r == Failure(m.predictProba.value(v).error)
    ensures m.predictProba.Some? && m.predictProba.value(v).Success? ==>
      (r.Success? <==> |m.predictProba.value(v).value| > 0)
      && (r.Failure? ==> r.error == EmptyMaxMessage)
      && (r.Success? ==> r.value.Some?)
  {
    match m.predictProba
    case None => Success(None)
    case Some(proba) =>
      match proba(v)
      case Failure(e) => Failure(e)
      case Success(row) =>
        if |row| == 0 then Failure(EmptyMaxMessage) else Success(Some(Max(row)))
  }

  /** `predict`: the 503 gate, then inference in source order (label,
      confidence, `int(...)` of the label), then the response. Any exception
      during inference becomes a 500 whose detail carries its text. */
  function Predict<L>(svc: Service<L>, f: Features): (r: Result<Response, HttpError>)
    ensures !Ready(svc) ==> r == Failure(HttpError(ServiceUnavailable, NotLoadedDetail))
    ensures r.Failure? ==> r.error.status == ServiceUnavailable || r.error.status == InternalError
    ensures r.Failure? ==> (r.error.status == ServiceUnavailable <==> !Ready(svc))
    ensures Ready(svc) && svc.model.value.predict(Assemble(f)).Failure? ==>
      r == Failure(HttpError(InternalError, InferencePrefix + svc.model.value.predict(Assemble(f)).error))
    ensures (Ready(svc) && svc.model.value.predict(Assemble(f)).Success?
             && Confidence(svc.model.value, Assemble(f)).Failure?) ==>
      r == Failure(HttpError(InternalError, InferencePrefix + Confidence(svc.model.value, Assemble(f)).error))
    ensures (Ready(svc) && svc.model.value.predict(Assemble(f)).Success?
             && Confidence(svc.model.value, Assemble(f)).Success?
             && svc.model.value.toInt(svc.model.value.predict(Assemble(f)).value).Failure?) ==>
      r == Failure(HttpError(InternalError,
        InferencePrefix + svc.model.value.toInt(svc.model.value.predict(Assemble(f)).value).error))
    ensures r.Success? ==>
      && Ready(svc)
      && svc.model.value.predict(Assemble(f)).Success?
      && svc.model.value.toInt(svc.model.value.predict(Assemble(f)).value) == Success(r.value.prediction)
      && Confidence(svc.model.value, Assemble(f)) == Success(r.value.probability)
      && (r.value.riskLevel, r.value.message) == GetRiskLevel(r.value.prediction, r.value.probability)
  {
    if !svc.loaded || svc.model.None? then
      Failure(HttpError(ServiceUnavailable, NotLoadedDetail))
    else
      var m := svc.model.value;
      var v := Assemble(f);
      match m.predict(v)
      case Failure(e) => Failure(HttpError(InternalError, InferencePrefix + e))
      case Success(raw) =>
        match Confidence(m, v)
        case Failure(e) => Failure(HttpError(InternalError, InferencePrefix + e))
        case Success(prob) =>
          match m.toInt(raw)
          case Failure(e) => Failure(HttpError(InternalError, InferencePrefix + e))
          case Success(predicted) =>
            var (level, message) := GetRiskLevel(predicted, prob);
            Success(Response(predicted, prob, level, message))
  }

  /** A request succeeds exactly when the model is ready and nothing raises
      on the assembled vector: neither capability nor the label conversion. */
  lemma SuccessIffInferenceSucceeds<L>(svc: Service<L>, f: Features)
    ensures Predict(svc, f).Success? <==>
      Ready(svc)
      && svc.model.value.predict(Assemble(f)).Success?
      && Confidence(svc.model.value, Assemble(f)).Success?
      && svc.model.value.toInt(svc.model.value.predict(Assemble(f)).value).Success?
  {
  }

  /** Without a ready model the answer is the same 503 whatever the
      classifier and whatever the record: the classifier is never consulted. */
  lemma NotReadyIgnoresClassifier<L, L'>(svc: Service<L>, svc': Service<L'>, f: Features, g: Features)
    requires !Ready(svc) && !Ready(svc')
    ensures Predict(svc, f) == Predict(svc', g)
    ensures Predict(svc, f).Failure? && Predict(svc, f).error.status == ServiceUnavailable
  {
  }

  /** Two classifiers that answer alike on one vector, and convert the label
      they give there alike. */
  ghost predicate AgreeAt<L>(m: Classifier<L>, m': Classifier<L>, v: seq<real>) {
    && m.predict(v) == m'.predict(v)
    && m.predictProba.Some? == m'.predictProba.Some?
    && (m.predictProba.Some? ==> m.predictProba.value(v) == m'.predictProba.value(v))
    && (m.predict(v).Success? ==> m.toInt(m.predict(v).value) == m'.toInt(m.predict(v).value))
  }

  /** The classifier is consulted only on the assembled vector of the
      request: classifiers that agree there give the same answer. */
  lemma OnlyAssembledVectorConsulted<L>(m: Classifier<L>, m': Classifier<L>, f: Features)
    requires AgreeAt(m, m', Assemble(f))
    ensures Predict(Service(true, Some(m)), f) == Predict(Service(true, Some(m')), f)
  {
  }

  /** When every class probability lies in [0, 1], so does the reported
      confidence. */
  lemma ProbabilityInUnitInterval<L>(svc: Service<L>, f: Features)
    requires Ready(svc) && svc.model.value.predictProba.Some?
    requires svc.model.value.predictProba.value(Assemble(f)).Success?
    requires forall x :: x in svc.model.value.predictProba.value(Assemble(f)).value ==> 0.0 <= x <= 1.0
    ensures Predict(svc, f).Success? ==>
      Predict(svc, f).value.probability.Some?
      && 0.0 <= Predict(svc, f).value.probability.value <= 1.0
  {
  }

  /** An all-default request is answered with whatever the classifier says
      about the vector of 21 zeros. */
  lemma DefaultRequestUsesZeroVector<L>(svc: Service<L>)
    requires Predict(svc, Default()).Success?
    ensures svc.model.value.predict(seq(Width, _ => 0.0)).Success?
    ensures svc.model.value.toInt(svc.model.value.predict(seq(Width, _ => 0.0)).value)
      == Success(Predict(svc, Default()).value.prediction)
  {
    DefaultIsZeros();
  }
}
