/**
 * One evaluation of app.py's `main` with the presentation stripped away:
 * encode the inputs, scale the vector, predict, classify the prediction
 * and derive the recommendations from the raw inputs (lines 33-83).  The
 * fitted scaler and the regressor are loaded from files the model cannot
 * see, so they are parameters: `scale` stands for `scaler.transform` and
 * `regress` for `model.predict(...)[0]`.
 */
module Pipeline {
  import opened Wrappers
  import opened Features
  import Severity
  import Recommendations

  /** What the page reports for one set of inputs. */
  datatype Assessment = Assessment(
    features: seq<real>,
    prediction: real,
    level: Severity.Level,
    recommendations: seq<string>)

  function Evaluate(x: RawInputs, scale: seq<real> -> seq<real>, regress: seq<real> -> real)
    : (r: Result<Assessment, EncodeError>)
    ensures r.Failure? <==> x.dayOfWeek !in Weekdays.Names
    ensures r.Success? ==>
      Encode(x).Success? && r.value.features == Encode(x).value &&
      r.value.prediction == regress(scale(r.value.features)) &&
      r.value.level == Severity.Classify(r.value.prediction) &&
      r.value.recommendations == Recommendations.Advisories(x)
  {
    match Encode(x)
    case Failure(e) => Failure(e)
    case Success(v) =>
      var prediction := regress(scale(v));
      Success(Assessment(v, prediction, Severity.Classify(prediction), Recommendations.Advisories(x)))
  }

  /**
   * The recommendations are a function of the raw inputs alone: whatever
   * scaler and regressor are loaded, the same advisories are reported.
   */
  lemma RecommendationsIgnoreModel(
    x: RawInputs,
    scale1: seq<real> -> seq<real>, regress1: seq<real> -> real,
    scale2: seq<real> -> seq<real>, regress2: seq<real> -> real)
    requires x.dayOfWeek in Weekdays.Names
    ensures Evaluate(x, scale1, regress1).Success? && Evaluate(x, scale2, regress2).Success?
    ensures Evaluate(x, scale1, regress1).value.recommendations ==
            Evaluate(x, scale2, regress2).value.recommendations
    ensures Evaluate(x, scale1, regress1).value.features ==
            Evaluate(x, scale2, regress2).value.features
  {
  }

  /** The default inputs: vector [22, 50, 12, 0, 2, 5], and the "optimized" message whatever the prediction. */
  lemma EvaluateDefaults(scale: seq<real> -> seq<real>, regress: seq<real> -> real)
    ensures Evaluate(Defaults, scale, regress) ==
      Success(Assessment([22.0, 50.0, 12.0, 0.0, 2.0, 5.0],
                         regress(scale([22.0, 50.0, 12.0, 0.0, 2.0, 5.0])),
                         Severity.Classify(regress(scale([22.0, 50.0, 12.0, 0.0, 2.0, 5.0]))),
                         []))
  {
    EncodeDefaults();
    Recommendations.DefaultsAreOptimized();
  }
}
