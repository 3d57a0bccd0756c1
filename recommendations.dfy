/**
 * The recommendation rules of app.py (lines 70-83): three independent tests
 * over the raw inputs, each adding a fixed advisory, in a fixed order; an
 * empty list is shown as a single "optimized" message instead.
 */
module Recommendations {
  import opened Features

  const TemperatureAdvice := "Adjust temperature to between 20-24°C for optimal efficiency."
  const SpreadUsageAdvice := "Consider spreading out appliance usage throughout the day."
  const StandbyAdvice := "Reduce standby power consumption when home is unoccupied."
  const OptimizedMessage := "Your current settings are optimized for energy efficiency!"

  /** The three rules, one per `if` of app.py. */
  datatype Rule = TemperatureBand | SpreadUsage | StandbyPower

  /** The rules in the order app.py tests them. */
  const RuleOrder: seq<Rule> := [TemperatureBand, SpreadUsage, StandbyPower]

  /** A rule's position in RuleOrder. */
  function Priority(r: Rule): (p: nat) {
    match r
    case TemperatureBand => 0
    case SpreadUsage => 1
    case StandbyPower => 2
  }

  function Message(r: Rule): (m: string) {
    match r
    case TemperatureBand => TemperatureAdvice
    case SpreadUsage => SpreadUsageAdvice
    case StandbyPower => StandbyAdvice
  }

  /** The condition under which a rule fires. */
  predicate Fires(r: Rule, x: RawInputs): (fires: bool)
    ensures r == TemperatureBand ==> (fires <==> !(20.0 <= x.temperature <= 24.0))
    ensures r == SpreadUsage ==> (fires <==> x.applianceUsage > 7.0)
    ensures r == StandbyPower ==> (fires <==> x.occupancy == 0 && x.applianceUsage > 2.0)
  {
    match r
    case TemperatureBand => x.temperature < 20.0 || x.temperature > 24.0
    case SpreadUsage => x.applianceUsage > 7.0
    case StandbyPower => x.occupancy == 0 && x.applianceUsage > 2.0
  }

  /** Rules whose priorities strictly increase along the sequence. */
  predicate InPriorityOrder(rules: seq<Rule>) {
    forall i, j :: 0 <= i < j < |rules| ==> Priority(rules[i]) < Priority(rules[j])
  }

  /** The rules of `rules` that fire on `x`, in the order of `rules`. */
  function Fired(rules: seq<Rule>, x: RawInputs): (fired: seq<Rule>)
    ensures |fired| <= |rules|
    ensures forall r :: r in fired <==> r in rules && Fires(r, x)
  {
    if rules == [] then []
    else (if Fires(rules[0], x) then [rules[0]] else []) + Fired(rules[1..], x)
  }

  lemma {:induction false} FiredKeepsOrder(rules: seq<Rule>, x: RawInputs)
    requires InPriorityOrder(rules)
    ensures InPriorityOrder(Fired(rules, x))
  {
    if rules != [] {
      var rest := Fired(rules[1..], x);
      FiredKeepsOrder(rules[1..], x);
      forall r | r in rest
        ensures Priority(rules[0]) < Priority(r)
      {
        var k :| 1 <= k < |rules| && rules[k] == r;
      }
    }
  }

  function Messages(rules: seq<Rule>): (ms: seq<string>)
    ensures |ms| == |rules|
    ensures forall i :: 0 <= i < |rules| ==> ms[i] == Message(rules[i])
  {
    if rules == [] then [] else [Message(rules[0])] + Messages(rules[1..])
  }

  /** The rule table read top to bottom: the advisories of the rules that fire. */
  function Advisories(x: RawInputs): (advice: seq<string>)
    ensures |advice| <= |RuleOrder|
    ensures forall i :: 0 <= i < |advice| ==>
      advice[i] == TemperatureAdvice || advice[i] == SpreadUsageAdvice || advice[i] == StandbyAdvice
  {
    Messages(Fired(RuleOrder, x))
  }

  /** The list app.py builds: three `append`s under independent `if`s. */
  method Recommend(x: RawInputs) returns (recs: seq<string>)
    ensures recs == Advisories(x)
    ensures |recs| <= 3
    ensures recs == [] <==> forall r :: !Fires(r, x)
  {
    recs := [];
    if x.temperature < 20.0 || x.temperature > 24.0 {
      recs := recs + [TemperatureAdvice];
    }
    assert recs == Contribution(TemperatureBand, x);
    if x.applianceUsage > 7.0 {
      recs := recs + [SpreadUsageAdvice];
    }
    assert recs == Contribution(TemperatureBand, x) + Contribution(SpreadUsage, x);
    if x.occupancy == 0 && x.applianceUsage > 2.0 {
      recs := recs + [StandbyAdvice];
    }
    assert recs == Contribution(TemperatureBand, x) + Contribution(SpreadUsage, x) + Contribution(StandbyPower, x);
    RecommendationsByRule(x);
    RecommendationsEmpty(x);
  }

  /** The rules of a table that fire on `x`, when the table is the one rule `r`. */
  function FiredOne(r: Rule, x: RawInputs): (fired: seq<Rule>) {
    if Fires(r, x) then [r] else []
  }

  /** The advisory a single rule contributes. */
  function Contribution(r: Rule, x: RawInputs): (advice: seq<string>) {
    Messages(FiredOne(r, x))
  }

  lemma FiredRuleOrder(x: RawInputs)
    ensures Fired(RuleOrder, x) ==
      FiredOne(TemperatureBand, x) + FiredOne(SpreadUsage, x) + FiredOne(StandbyPower, x)
  {
    var u, s := SpreadUsage, StandbyPower;
    assert [s][1..] == [];
    assert Fired([s], x) == FiredOne(s, x) + Fired([], x);
    assert [u, s][1..] == [s];
    assert Fired([u, s], x) == FiredOne(u, x) + Fired([s], x);
    assert RuleOrder[1..] == [u, s];
  }

  lemma MessagesAppend(a: seq<Rule>, b: seq<Rule>)
    ensures Messages(a + b) == Messages(a) + Messages(b)
  {
    var joined, parts := Messages(a + b), Messages(a) + Messages(b);
    forall i | 0 <= i < |joined|
      ensures joined[i] == parts[i]
    {
      if i < |a| {
        assert (a + b)[i] == a[i];
      } else {
        assert (a + b)[i] == b[i - |a|];
      }
    }
  }

  /** Reading the rule table row by row gives the three contributions in order. */
  lemma RecommendationsByRule(x: RawInputs)
    ensures Advisories(x) ==
      Contribution(TemperatureBand, x) + Contribution(SpreadUsage, x) + Contribution(StandbyPower, x)
  {
    var ft, fu, fs := FiredOne(TemperatureBand, x), FiredOne(SpreadUsage, x), FiredOne(StandbyPower, x);
    FiredRuleOrder(x);
    MessagesAppend(ft + fu, fs);
    MessagesAppend(ft, fu);
    assert Messages(ft) == Contribution(TemperatureBand, x);
    assert Messages(fu) == Contribution(SpreadUsage, x);
    assert Messages(fs) == Contribution(StandbyPower, x);
  }

  /** Each advisory is in the list exactly when its rule fires. */
  lemma RecommendationMembership(x: RawInputs, r: Rule)
    ensures Message(r) in Advisories(x) <==> Fires(r, x)
  {
    var fired := Fired(RuleOrder, x);
    var ms := Advisories(x);
    if Message(r) in ms {
      var i :| 0 <= i < |ms| && ms[i] == Message(r);
      assert fired[i] == r;
    }
    if Fires(r, x) {
      assert r in RuleOrder;
      assert r in fired;
      var i :| 0 <= i < |fired| && fired[i] == r;
      assert ms[i] == Message(r);
    }
  }

  /** The list is empty exactly when no rule fires. */
  lemma RecommendationsEmpty(x: RawInputs)
    ensures Advisories(x) == [] <==> forall r :: !Fires(r, x)
  {
    if Advisories(x) != [] {
      RecommendationMembership(x, Fired(RuleOrder, x)[0]);
    } else {
      forall r ensures !Fires(r, x) {
        RecommendationMembership(x, r);
      }
    }
  }

  /**
   * At most three advisories, in rule order (temperature, then usage, then
   * standby), none of them twice.
   */
  lemma RecommendationsOrdered(x: RawInputs)
    ensures |Advisories(x)| <= 3
    ensures exists fired :: InPriorityOrder(fired) && Advisories(x) == Messages(fired)
    ensures forall i, j :: 0 <= i < j < |Advisories(x)| ==> Advisories(x)[i] != Advisories(x)[j]
  {
    var fired := Fired(RuleOrder, x);
    FiredKeepsOrder(RuleOrder, x);
  }

  /** What the page shows: the advisories, or the "optimized" message when there are none. */
  function Displayed(recs: seq<string>): (shown: seq<string>)
    ensures shown != []
    ensures recs != [] ==> shown == recs
    ensures recs == [] ==> shown == [OptimizedMessage]
  {
    if recs != [] then recs else [OptimizedMessage]
  }

  /** The "optimized" message is shown exactly when no rule fires. */
  lemma OptimizedShownIff(x: RawInputs)
    ensures Displayed(Advisories(x)) == [OptimizedMessage] <==> forall r :: !Fires(r, x)
  {
    RecommendationsEmpty(x);
  }

  /** 18 °C, usage 8 and nobody at home: all three advisories, in rule order. */
  lemma AllThreeRules(x: RawInputs)
    requires x.temperature == 18.0 && x.applianceUsage == 8.0 && x.occupancy == 0
    ensures Advisories(x) == [TemperatureAdvice, SpreadUsageAdvice, StandbyAdvice]
  {
    FiredRuleOrder(x);
    assert FiredOne(TemperatureBand, x) == [TemperatureBand];
    assert FiredOne(SpreadUsage, x) == [SpreadUsage];
    assert FiredOne(StandbyPower, x) == [StandbyPower];
    assert Fired(RuleOrder, x) == RuleOrder;
    var ms := Messages(RuleOrder);
    assert ms[0] == TemperatureAdvice && ms[1] == SpreadUsageAdvice && ms[2] == StandbyAdvice;
  }

  /** The widget defaults fire no rule. */
  lemma DefaultsAreOptimized()
    ensures Advisories(Defaults) == []
    ensures Displayed(Advisories(Defaults)) == [OptimizedMessage]
  {
    RecommendationsEmpty(Defaults);
  }

  /** The comfort band is closed: 20 °C and 24 °C do not trigger the temperature advisory. */
  lemma TemperatureBandBoundaries(x: RawInputs)
    requires x.temperature == 20.0 || x.temperature == 24.0
    ensures TemperatureAdvice !in Advisories(x)
  {
    RecommendationMembership(x, TemperatureBand);
  }
}
