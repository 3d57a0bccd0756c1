/**
 * The three bands the predicted consumption (kWh) is reported in
 * (app.py, lines 58-66): above 7 is high, above 4 is moderate, anything
 * else, zero and negative predictions included, is efficient.
 */
module Severity {

  datatype Level = Efficient | Moderate | High

  /** The thresholds of the `if`/`elif`, lowest first; each is strict. */
  const Thresholds: seq<real> := [4.0, 7.0]

  /** The `if prediction > 7` / `elif prediction > 4` / `else` decision. */
  function Classify(prediction: real): (level: Level)
    ensures level == High <==> prediction > 7.0
    ensures level == Moderate <==> 4.0 < prediction <= 7.0
    ensures level == Efficient <==> prediction <= 4.0
  {
    if prediction > 7.0 then High
    else if prediction > 4.0 then Moderate
    else Efficient
  }

  /** The ordering Efficient < Moderate < High of the bands. */
  function Rank(level: Level): (rank: nat) {
    match level
    case Efficient => 0
    case Moderate => 1
    case High => 2
  }

  /** How many of `thresholds` the prediction lies strictly above. */
  function Exceeded(prediction: real, thresholds: seq<real>): (n: nat)
    ensures n <= |thresholds|
  {
    if thresholds == [] then 0
    else (if prediction > thresholds[0] then 1 else 0) + Exceeded(prediction, thresholds[1..])
  }

  /** A band's rank is the number of thresholds the prediction exceeds. */
  lemma ClassifyCountsThresholds(prediction: real)
    ensures Rank(Classify(prediction)) == Exceeded(prediction, Thresholds)
  {
    assert Thresholds[1..] == [7.0];
    assert Thresholds[1..][1..] == [];
  }

  /** A larger prediction is never put in a lower band. */
  lemma ClassifyMonotone(p: real, q: real)
    requires p <= q
    ensures Rank(Classify(p)) <= Rank(Classify(q))
  {
  }

  /** The boundary values fall in the lower band. */
  lemma ClassifyBoundaries()
    ensures Classify(7.0) == Moderate
    ensures Classify(7.01) == High
    ensures Classify(4.0) == Efficient
    ensures Classify(4.01) == Moderate
    ensures Classify(0.0) == Efficient
  {
  }
}
