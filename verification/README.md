# Immune-deficiency risk predictor — Dafny model

A model of the request core of the immune-deficiency risk API (`main.py`). A
`POST /predict` request carries a record of 21 clinical answers. The record is
flattened into a fixed-order vector and given to a pre-trained binary
classifier. The predicted label and the classifier's top class probability
are then mapped to one of five risk tiers, each with a fixed advisory message.

Modules, one per file:

- `Wrappers` (`wrappers.dfy`): `Option` (Python's `Optional`/`None`) and `Result` (a value or a raised exception).
- `FeatureVector` (`features.dfy`): the `Features` record with its defaults, the `Field` identifiers, the declared column order `Schema`, and `Assemble`, which builds the vector.
- `RiskLevel` (`risk.dfy`): `get_risk_level` as `GetRiskLevel`, plus the five `Tier`s with their names and messages. It also gives an independent description of the decision table: five disjoint regions of (label, confidence), written `InRegion`.
- `Predictor` (`predict.dfy`): the `predict` handler. It checks readiness (503), runs inference (500 on any exception) and assembles the response.

Modelling choices:

- A confidence is an `Option<real>`. The source's guard `probability and probability >= …` uses Python truthiness, so it is modelled as `Truthy(p)`: present and not `0.0`. So an absent confidence and a confidence of exactly `0.0` behave the same.
- The classifier is a set of functions. `predict` maps one vector to a raw label of an arbitrary type `L`. The optional `predictProba` maps one vector to a row of class probabilities. `toInt` is `int(...)` applied to a raw label. Each returns a `Result`: a `Failure` is an exception, and its string is the exception text. As in the source, the label is converted only after the confidence has been computed, so when both steps would raise, the detail names the probability step's exception. The confidence is `Max` of the row, as numpy's `.max()` computes it. An empty row makes `.max()` raise, so it also becomes a 500.
- The start-up state (`MODEL_LOADED`, `MODEL`) is the immutable `Service(loaded, model)`. The gate refuses a request when either the flag is false or the model is absent.
- Every vector entry is a `real`. The twenty integer fields are converted with `as real`, and the age (`yas`) is already a real.

## Behaviour of the code worth knowing

- The record has 21 fields: 20 `int` fields and one `float`. None of them is checked to be 0 or 1.
- The negative branch of `get_risk_level` covers every label other than `1`, not only `0`.
- A confidence of `0.0` counts as absent, because the guards rely on Python truthiness.

## Model

| member | source | states |
|---|---|---|
| FeatureVector.Index | main.py:144-164 | each field's vector position is below 21 and the schema holds that field at that position |
| FeatureVector.Assemble | main.py:143-165 | the vector has exactly 21 entries, and entry i is the value of the i-th declared field |
| FeatureVector.SchemaIsBijection | main.py:144-164 | the declared order lists 21 different fields, and reading a position back gives that position |
| FeatureVector.FieldAtIndex | main.py:144-164 | every field is found at its schema position; age is at index 11 and the umbilical-cord day at index 15 |
| FeatureVector.DefaultIsZeros | main.py:14-34 | a record built entirely from the declared defaults flattens to 21 zeros |
| FeatureVector.AssembleInjective | main.py:143-165 | no field is lost or merged: equal vectors come only from equal records |
| RiskLevel.GetRiskLevel | main.py:77-90 | the result is the (name, message) pair of a tier whose region contains the input, so it is always one of the five fixed pairs |
| RiskLevel.NamesDistinct | main.py:79-90 | the five tier names are pairwise different, so a name determines its tier and message |
| RiskLevel.RegionsPartition | main.py:79-90 | every (label, confidence) lies in exactly one tier's region, so the table is total and unambiguous |
| RiskLevel.GetRiskLevelCharacterised | main.py:77-90 | both directions: the result is a tier's pair exactly when the input lies in that tier's region (label 1 with confidence at least 0.8, from 0.6 up to 0.8, otherwise; other labels with confidence up to 0.2, otherwise) |
| RiskLevel.PositiveTierIffLabelOne | main.py:79-90 | one of the three positive tiers is chosen exactly when the label is 1 |
| RiskLevel.FalsyConfidenceIsCoarse | main.py:80-90 | an absent or zero confidence gives "Orta Risk" for label 1 and "Düşük-Orta Risk" otherwise, and never one of the two highest tiers |
| RiskLevel.OtherLabelsActAsZero | main.py:86-90 | every label other than 1 is tiered exactly like label 0 |
| RiskLevel.SeverityMonotone | main.py:79-90 | for a fixed label, a larger present nonzero confidence never gives a less severe tier |
| Predictor.Max | main.py:171 | the confidence is an entry of the probability row and no entry exceeds it |
| Predictor.Confidence | main.py:169-171 | with no `predict_proba` the confidence is absent. Otherwise it is the row's maximum. An exception from `predict_proba`, or an empty row, is a failure |
| Predictor.Predict | main.py:136-186 | every error is a 503 or a 500, and it is a 503 exactly when the model is not ready. When it is ready, a failure of the label call, of the probability step (an exception or an empty row), or of `int(...)` on the label is a 500. Its detail is the fixed prefix followed by that step's exception text, and the steps are checked in source order. On success, `prediction` is `int(...)` of the classifier's label for the assembled vector, `probability` is its confidence, and `risk_level`/`message` are `get_risk_level` of the two |
| Predictor.SuccessIffInferenceSucceeds | main.py:167-186 | a request succeeds exactly when the model is ready and neither capability nor the label conversion fails on the assembled vector; there is no partial response |
| Predictor.NotReadyIgnoresClassifier | main.py:136-140 | without a ready model, every record and every classifier get the same 503 answer, so the classifier is never consulted |
| Predictor.OnlyAssembledVectorConsulted | main.py:167-171 | two classifiers that answer alike on the request's assembled vector give the same response |
| Predictor.ProbabilityInUnitInterval | main.py:171 | if every class probability lies in [0, 1], the reported confidence does too |
| Predictor.DefaultRequestUsesZeroVector | main.py:143-168 | the label for an all-default request is `int(...)` of the classifier's label for the vector of 21 zeros |

## Left out

- Loading the pickled model, and checking that its file exists (main.py:67-74, 93-103). These are file I/O. Only their outcome is modelled, as the `Service` readiness flag and model.
- FastAPI routing, the pydantic aliases and `populate_by_name`, type coercion of incoming values, and JSON serialisation (main.py:7-9, 36-37, 126). These are framework behaviour. The model starts from an already validated `Features` record.
- CORS configuration, app metadata, the start-up `print`s, and the `/` and `/health` endpoints (main.py:47-64, 106-123). These are constant wiring with no logic.
- The training script `create_mock_model.py`. It fits a random forest on random data, which is foreign-library numerics with no contract to state.
- Classifier internals. The one-row batch calls `MODEL.predict([vector])[0]` and `predict_proba([vector])[0]` are folded into the abstract `predict` and `predictProba` functions, and `int(...)` into `toInt`. The `.item()` after `.max()` only turns a numpy scalar into a Python float, so it has no counterpart for reals.
- IEEE floating point: NaN, rounding, and the binary values of the thresholds 0.8, 0.6 and 0.2. Confidences and features are mathematical reals.
- Predictor.Confidence: the failure text for an empty probability row is fixed to numpy's message. Exception texts are otherwise opaque strings.
