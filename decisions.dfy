/** The three-stage decision wizard of src/components/simulation/Decisions.jsx:
    a per-stage score table, magnitudes from fixed telefono bases, and the
    stage progression after each decision is saved. */
module Decisions {
  import opened Common

  const BaseCO2 := 150
  const BaseAgua := 100
  const BaseResiduos := 10

  /** The score the switch assigns; a decision it does not recognise leaves 100. */
  function StageScore(stage: int, decision: string): (s: real)
    ensures 40.0 <= s <= 100.0
    ensures stage == 1 ==> (s == 100.0 <==> decision !in {"1 año", "2 años", "3+ años"})
    ensures stage == 2 ==> (s == 100.0 <==> decision !in {"reparar", "reciclar", "desechar"})
    ensures stage == 3 ==> s == 50.0
    ensures stage !in {1, 2, 3} ==> s == 100.0
  {
    if stage == 1 then
      if decision == "1 año" then 60.0
      else if decision == "2 años" then 75.0
      else if decision == "3+ años" then 90.0
      else 100.0
    else if stage == 2 then
      if decision == "reparar" then 85.0
      else if decision == "reciclar" then 95.0
      else if decision == "desechar" then 40.0
      else 100.0
    else if stage == 3 then
      100.0 - (BaseCO2 as real / 150.0) * 50.0
    else 100.0
  }

  /** Math.round(base * (100 - score) / 50) */
  function Magnitude(base: int, score: real): real {
    base as real * (100.0 - score) / 50.0
  }

  /** The impact the effect stores; None when the decision is empty and the effect returns early. */
  function StageImpact(stage: int, decision: string): (r: Option<Impact>)
    ensures r.None? <==> decision == ""
  {
    if decision == "" then None
    else
      var s := StageScore(stage, decision);
      Some(Impact(Round(Magnitude(BaseCO2, s)), Round(Magnitude(BaseAgua, s)), Round(Magnitude(BaseResiduos, s)), Round(s)))
  }

  /** The useEffect body: `let score = 100` overwritten inside the switch on the stage. */
  method ComputeStageImpact(stage: int, decision: string) returns (r: Option<Impact>)
    ensures r == StageImpact(stage, decision)
  {
    if decision == "" {
      return None;
    }
    var baseCO2 := 150.0;
    var baseAgua := 100.0;
    var baseResiduos := 10.0;
    var score := 100.0;
    if stage == 1 {
      if decision == "1 año" {
        score := 60.0;
      } else if decision == "2 años" {
        score := 75.0;
      } else if decision == "3+ años" {
        score := 90.0;
      }
    } else if stage == 2 {
      if decision == "reparar" {
        score := 85.0;
      } else if decision == "reciclar" {
        score := 95.0;
      } else if decision == "desechar" {
        score := 40.0;
      }
    } else if stage == 3 {
      score := 100.0 - (baseCO2 / 150.0) * 50.0;
    }
    r := Some(Impact(Round(baseCO2 * (100.0 - score) / 50.0),
                     Round(baseAgua * (100.0 - score) / 50.0),
                     Round(baseResiduos * (100.0 - score) / 50.0),
                     Round(score)));
  }

  /** Every score the table can produce gives non-negative magnitudes, and a
      score of 100 gives zero for all three. */
  lemma StageImpactNonNegative(stage: int, decision: string)
    requires decision != ""
    ensures var imp := StageImpact(stage, decision).value;
            40 <= imp.score <= 100 &&
            0 <= imp.co2 <= 180 && 0 <= imp.agua <= 120 && 0 <= imp.residuos <= 12 &&
            (imp.score == 100 ==> imp.co2 == 0 && imp.agua == 0 && imp.residuos == 0)
  {
    var s := StageScore(stage, decision);
    assert s in {40.0, 50.0, 60.0, 75.0, 85.0, 90.0, 95.0, 100.0};
  }

  /** "1 año" at stage 1: score 60 and 120 / 80 / 8. */
  lemma WorkedExampleOneYear()
    ensures StageImpact(1, "1 año") == Some(Impact(120, 80, 8, 60))
  {
    assert Magnitude(150, 60.0) == 120.0;
    assert Magnitude(100, 60.0) == 80.0;
    assert Magnitude(10, 60.0) == 8.0;
    RoundOfInteger(120);
    RoundOfInteger(80);
    RoundOfInteger(8);
    RoundOfInteger(60);
  }

  /** "reciclar" at stage 2: score 95 and 15 / 10 / 1. */
  lemma ReciclarImpact()
    ensures StageImpact(2, "reciclar") == Some(Impact(15, 10, 1, 95))
  {
    assert Magnitude(150, 95.0) == 15.0;
    assert Magnitude(100, 95.0) == 10.0;
    assert Magnitude(10, 95.0) == 1.0;
    RoundOfInteger(15);
    RoundOfInteger(10);
    RoundOfInteger(1);
    RoundOfInteger(95);
  }

  /** The option buttons of each stage; stage 3 has none. */
  function StageOptions(stage: int): (opts: seq<string>)
    ensures stage !in {1, 2} ==> opts == []
    ensures forall i :: 0 <= i < |opts| ==> opts[i] != ""
  {
    if stage == 1 then ["1 año", "2 años", "3+ años"]
    else if stage == 2 then ["reparar", "reciclar", "desechar"]
    else []
  }

  /** `disabled={!decision}`: Next is enabled exactly when a decision is chosen. */
  function NextEnabledAsWritten(stage: int, decision: string): (enabled: bool)
    ensures enabled ==> NextEnabled(stage, decision)
    ensures stage != 3 ==> (enabled <==> NextEnabled(stage, decision))
    ensures StageOptions(stage) == [] && decision == "" ==> !enabled
  {
    decision != ""
  }

  /** The evidently intended guard: at stage 3, which has no options to choose,
      the "Ver resultados" button is enabled. */
  predicate NextEnabled(stage: int, decision: string) {
    decision != "" || stage == 3
  }

  /** The component state: the stage, the chosen decision and the impact the
      effect last stored. The effect runs when the stage or the decision changes
      and returns early on an empty decision, so the impact then keeps the
      previous stage's values. */
  class DecisionWizard {
    var stage: int
    var decision: string
    var impact: Impact

    /** The stage stays within 1..3, stage 3, having no options, always has an
        empty decision, and a chosen decision is always reflected in the impact. */
    ghost predicate Valid()
      reads this
    {
      1 <= stage <= 3 && (stage == 3 ==> decision == "") &&
      (decision != "" ==> impact == StageImpact(stage, decision).value)
    }

    constructor ()
      ensures Valid() && stage == 1 && decision == "" && impact == Impact(0, 0, 0, 0)
    {
      stage := 1;
      decision := "";
      impact := Impact(0, 0, 0, 0);
    }

    /** Clicking an option button of the current stage. */
    method ChooseOption(value: string)
      requires Valid() && value in StageOptions(stage)
      modifies this
      ensures Valid()
      ensures stage == old(stage) && decision == value
      ensures impact == StageImpact(old(stage), value).value
    {
      decision := value;
      impact := StageImpact(stage, value).value;
    }

    /** handleNext: save the decision; on success, advance and clear below stage 3,
        or go to the results at stage 3; on failure change nothing. */
    method HandleNext(saveOk: bool) returns (toResults: bool)
      requires Valid() && CanPressNext()
      modifies this
      ensures Valid()
      ensures toResults <==> saveOk && old(stage) == 3
      ensures saveOk && old(stage) < 3 ==> stage == old(stage) + 1 && decision == ""
      ensures !saveOk || old(stage) == 3 ==> stage == old(stage) && decision == old(decision)
      ensures impact == old(impact)
    {
      toResults := false;
      if saveOk {
        if stage < 3 {
          stage := stage + 1;
          decision := "";
        } else {
          toResults := true;
        }
      }
    }

    predicate CanPressNext()
      reads this
    {
      NextEnabled(stage, decision)
    }
  }

  /** As written, no state the wizard can be in at stage 3 lets the user press
      "Ver resultados": the results branch of handleNext is unreachable. */
  lemma ResultsUnreachableAsWritten(stage: int, decision: string)
    requires 1 <= stage <= 3 && (stage == 3 ==> decision == "")
    ensures stage == 3 ==> !NextEnabledAsWritten(stage, decision)
    ensures StageOptions(3) == []
  {
  }

  /** Concrete trace: choosing "1 año", saving, choosing "reciclar" and saving
      again leaves the wizard at stage 3 with an empty decision, where the
      as-written button is disabled and the corrected one is enabled; the chart
      still shows the stage-2 "reciclar" impact. */
  method StageThreeDeadEnd() returns (stage: int, decision: string, impact: Impact)
    ensures stage == 3 && decision == ""
    ensures !NextEnabledAsWritten(stage, decision) && NextEnabled(stage, decision)
    ensures impact == Impact(15, 10, 1, 95)
  {
    var w := new DecisionWizard();
    w.ChooseOption("1 año");
    var toResults := w.HandleNext(true);
    w.ChooseOption("reciclar");
    toResults := w.HandleNext(true);
    stage, decision, impact := w.stage, w.decision, w.impact;
    ReciclarImpact();
  }

  /** With the corrected guard the button is enabled exactly when a decision is
      chosen or the stage is the final one, so from every valid state the
      wizard can move forward. */
  lemma NextAlwaysReachable(stage: int, decision: string)
    requires 1 <= stage <= 3 && (stage == 3 ==> decision == "")
    ensures stage < 3 ==> (NextEnabled(stage, decision) <==> NextEnabledAsWritten(stage, decision))
    ensures stage < 3 ==> exists v :: v in StageOptions(stage) && NextEnabled(stage, v)
    ensures stage == 3 ==> NextEnabled(stage, decision)
  {
    if stage < 3 {
      assert StageOptions(stage)[0] in StageOptions(stage);
    }
  }
}
