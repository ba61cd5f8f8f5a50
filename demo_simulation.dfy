/** The five-stage demo wizard of src/components/demo/DemoSimulation.jsx:
    a flat base score of 70 adjusted by the two decisions, magnitudes derived
    from the score, and a stage counter bounded by 1 and 5. */
module DemoSimulation {
  import opened Common

  /** The demo device table; an unknown type falls back to the telefono entry. */
  datatype DemoDevice = DemoDevice(name: string, baseCO2: int, baseAgua: int, baseResiduos: int)

  const DemoTelefono := DemoDevice("Samsung Galaxy A14", 150, 100, 10)
  const DemoLaptop := DemoDevice("MacBook Air M2", 300, 200, 20)

  /** deviceData[type] || deviceData.telefono */
  function DeviceFor(deviceType: string): (d: DemoDevice)
    ensures deviceType == "laptop" ==> d == DemoLaptop
    ensures deviceType != "laptop" ==> d == DemoTelefono
    ensures d.baseCO2 > 0 && d.baseAgua > 0 && d.baseResiduos > 0
  {
    if deviceType == "laptop" then DemoLaptop else DemoTelefono
  }

  /** The score of the impact effect: 70, −20 for "1 año", +10 for "3+ años",
      +15 for reciclar, −30 for desechar, clamped to [20, 100]. */
  function DemoScore(decisionUso: string, decisionFin: string): (s: int)
    ensures 20 <= s <= 95
  {
    var uso := if decisionUso == "1 año" then -20 else if decisionUso == "3+ años" then 10 else 0;
    var fin := if decisionFin == "reciclar" then 15 else if decisionFin == "desechar" then -30 else 0;
    Clamp(20, 100, 70 + uso + fin)
  }

  /** Math.round(base * (120 - finalScore) / 70) */
  function Magnitude(base: int, score: int): real {
    base as real * (120 - score) as real / 70.0
  }

  /** The impact shown for a device type and the two decisions: a score in
      [20, 95] and three strictly positive magnitudes, each the base of the
      type's entry scaled by (120 - score) / 70 and rounded. */
  function DemoImpact(deviceType: string, decisionUso: string, decisionFin: string): (imp: Impact)
    ensures 20 <= imp.score <= 95
    ensures imp.co2 > 0 && imp.agua > 0 && imp.residuos > 0
    ensures imp.co2 == Round(Magnitude(DeviceFor(deviceType).baseCO2, imp.score))
    ensures imp.agua == Round(Magnitude(DeviceFor(deviceType).baseAgua, imp.score))
    ensures imp.residuos == Round(Magnitude(DeviceFor(deviceType).baseResiduos, imp.score))
  {
    var d := DeviceFor(deviceType);
    var s := DemoScore(decisionUso, decisionFin);
    MagnitudesAboveFloor(d, s);
    Impact(Round(Magnitude(d.baseCO2, s)), Round(Magnitude(d.baseAgua, s)), Round(Magnitude(d.baseResiduos, s)), s)
  }

  /** At the highest reachable score, 95, both devices still give positive
      rounded magnitudes; lower scores only give larger ones. */
  lemma MagnitudesAboveFloor(d: DemoDevice, s: int)
    requires d == DemoTelefono || d == DemoLaptop
    requires s <= 95
    ensures Round(Magnitude(d.baseCO2, s)) > 0
    ensures Round(Magnitude(d.baseAgua, s)) > 0
    ensures Round(Magnitude(d.baseResiduos, s)) > 0
  {
    MagnitudeNonIncreasing(d.baseResiduos, s, 95);
    MagnitudeNonIncreasing(d.baseAgua, s, 95);
    MagnitudeNonIncreasing(d.baseCO2, s, 95);
    assert Magnitude(10, 95) == 250.0 / 70.0;
    assert Round(Magnitude(10, 95)) == 4;
    assert Round(Magnitude(20, 95)) == 7;
    assert Round(Magnitude(100, 95)) == 36;
    assert Round(Magnitude(200, 95)) == 71;
    assert Round(Magnitude(150, 95)) == 54;
    assert Round(Magnitude(300, 95)) == 107;
  }

  /** The useEffect body: `let score = 70` adjusted with -= and += before the clamp. */
  method ComputeDemoImpact(deviceType: string, decisionUso: string, decisionFin: string) returns (imp: Impact)
    ensures imp == DemoImpact(deviceType, decisionUso, decisionFin)
  {
    var device := DeviceFor(deviceType);
    var score := 70;
    if decisionUso == "1 año" {
      score := score - 20;
    } else if decisionUso == "3+ años" {
      score := score + 10;
    }
    if decisionFin == "reciclar" {
      score := score + 15;
    } else if decisionFin == "desechar" {
      score := score - 30;
    }
    var finalScore := Clamp(20, 100, score);
    assert finalScore == DemoScore(decisionUso, decisionFin);
    imp := Impact(Round(Magnitude(device.baseCO2, finalScore)),
                  Round(Magnitude(device.baseAgua, finalScore)),
                  Round(Magnitude(device.baseResiduos, finalScore)),
                  finalScore);
  }

  /** Both extremes are reached: "1 año" with desechar gives 20, "3+ años" with reciclar gives 95. */
  lemma DemoScoreExtremes()
    ensures DemoScore("1 año", "desechar") == 20
    ensures DemoScore("3+ años", "reciclar") == 95
  {
  }

  /** A higher score never gives a larger magnitude. */
  lemma MagnitudeNonIncreasing(base: int, s1: int, s2: int)
    requires base >= 0 && s1 <= s2
    ensures Round(Magnitude(base, s2)) <= Round(Magnitude(base, s1))
  {
    assert base as real * (120 - s2) as real <= base as real * (120 - s1) as real by {
      ScaleMonotone(base as real, (120 - s2) as real, (120 - s1) as real);
    }
    RoundMonotone(Magnitude(base, s2), Magnitude(base, s1));
  }


  /** The initial decisions ("2 años", reciclar) give 85 and, for telefono, 75 / 50 / 5. */
  lemma DefaultDecisionsTelefono()
    ensures DemoImpact("telefono", "2 años", "reciclar") == Impact(75, 50, 5, 85)
  {
    assert Magnitude(150, 85) == 75.0;
    assert Magnitude(100, 85) == 50.0;
    assert Magnitude(10, 85) == 5.0;
    RoundOfInteger(75);
    RoundOfInteger(50);
    RoundOfInteger(5);
  }

  /** An unknown type is simulated exactly as a telefono. */
  lemma UnknownTypeIsTelefono(deviceType: string, decisionUso: string, decisionFin: string)
    requires deviceType != "laptop"
    ensures DemoImpact(deviceType, decisionUso, decisionFin) == DemoImpact("telefono", decisionUso, decisionFin)
  {
  }

  const DesecharTips: seq<string> := [
    "💡 Considera donar tu dispositivo. ¡Puede seguir siendo útil!",
    "♻️ Busca puntos de reciclaje autorizados en tu ciudad.",
    "🔋 Retira la batería antes de desechar. Es un residuo peligroso."]
  const ReciclarTips: seq<string> := [
    "✅ ¡Excelente decisión! El reciclaje reduce el 80% de emisiones.",
    "📱 Guarda tus datos en la nube antes de entregar el dispositivo.",
    "🌍 Comparte esta acción en redes para inspirar a otros."]
  const DonarTips: seq<string> := [
    "🤝 La donación extiende la vida útil del dispositivo.",
    "📦 Asegúrate de borrar todos tus datos personales antes de donar.",
    "❤️ Muchas organizaciones aceptan dispositivos usados para educación."]

  /** getRecommendations: three tips in every case; anything but desechar and reciclar gets the donation tips. */
  function Recommendations(decisionFin: string): (r: seq<string>)
    ensures |r| == 3
    ensures decisionFin == "desechar" ==> r == DesecharTips
    ensures decisionFin == "reciclar" ==> r == ReciclarTips
    ensures decisionFin != "desechar" && decisionFin != "reciclar" ==> r == DonarTips
  {
    if decisionFin == "desechar" then DesecharTips
    else if decisionFin == "reciclar" then ReciclarTips
    else DonarTips
  }

  /** The component state: the stage counter and the two decisions. */
  class DemoWizard {
    const deviceType: string
    var currentStage: int
    var decisionUso: string
    var decisionFin: string

    ghost predicate Valid()
      reads this
    {
      1 <= currentStage <= 5
    }

    constructor (deviceType: string)
      ensures Valid()
      ensures this.deviceType == deviceType
      ensures currentStage == 1 && decisionUso == "2 años" && decisionFin == "reciclar"
    {
      this.deviceType := deviceType;
      currentStage := 1;
      decisionUso := "2 años";
      decisionFin := "reciclar";
    }

    /** handlePrev: step back unless already at stage 1. */
    method HandlePrev()
      requires Valid()
      modifies this
      ensures Valid()
      ensures currentStage == if old(currentStage) > 1 then old(currentStage) - 1 else old(currentStage)
      ensures old(PrevDisabled()) <==> currentStage == old(currentStage)
      ensures decisionUso == old(decisionUso) && decisionFin == old(decisionFin)
    {
      if currentStage > 1 {
        currentStage := currentStage - 1;
      }
    }

    /** handleNext: step forward below stage 5; at stage 5 the stage stays and the
        completion alert is shown (`completed`). */
    method HandleNext() returns (completed: bool)
      requires Valid()
      modifies this
      ensures Valid()
      ensures completed <==> old(currentStage) == 5
      ensures currentStage == if old(currentStage) < 5 then old(currentStage) + 1 else old(currentStage)
      ensures decisionUso == old(decisionUso) && decisionFin == old(decisionFin)
    {
      if currentStage < 5 {
        currentStage := currentStage + 1;
        completed := false;
      } else {
        completed := true;
      }
    }

    /** The usage buttons (rendered at stage 3) set decisionUso. */
    method ChooseUso(option: string)
      requires Valid()
      modifies this
      ensures Valid()
      ensures decisionUso == option
      ensures currentStage == old(currentStage) && decisionFin == old(decisionFin)
    {
      decisionUso := option;
    }

    /** The end-of-life buttons (rendered at stage 5) set decisionFin. */
    method ChooseFin(option: string)
      requires Valid()
      modifies this
      ensures Valid()
      ensures decisionFin == option
      ensures currentStage == old(currentStage) && decisionUso == old(decisionUso)
    {
      decisionFin := option;
    }

    /** The impact the effect keeps in state for the current decisions. */
    function CurrentImpact(): (imp: Impact)
      reads this
      ensures 20 <= imp.score <= 95
    {
      DemoImpact(deviceType, decisionUso, decisionFin)
    }

    /** The "← Anterior" button is disabled at stage 1. */
    predicate PrevDisabled()
      reads this
    {
      currentStage == 1
    }

    /** The impact panel shows from stage 3 on, the recommendations only at stage 5. */
    predicate ShowsImpactPanel()
      reads this
    {
      currentStage >= 3
    }

    predicate ShowsRecommendations()
      reads this
    {
      currentStage == 5
    }
  }

  /** Whenever the recommendations show, the impact panel shows too. */
  lemma RecommendationsInsideImpactPanel(w: DemoWizard)
    requires w.ShowsRecommendations()
    ensures w.ShowsImpactPanel()
  {
  }
}
