/** The final-results screen of the registered simulation
    (src/components/simulation/Results.jsx): the stored decisions are looked up
    by stage, the impact is computed from fixed per-type bases, and
    recommendations depend on the end-of-life decision. */
module Results {
  import opened Common

  /** One stored decision, as /devices/:id/decisions returns it. `decision` is
      None when the field is null or absent. */
  datatype DecisionRecord = DecisionRecord(stage: int, decision: Option<string>)

  /** decisions.findIndex(d => d.stage === stage), as an option. */
  function FindStage(ds: seq<DecisionRecord>, stage: int): (r: Option<nat>)
    ensures r.None? ==> forall i :: 0 <= i < |ds| ==> ds[i].stage != stage
    ensures r.Some? ==> r.value < |ds| && ds[r.value].stage == stage
    ensures r.Some? ==> forall i :: 0 <= i < r.value ==> ds[i].stage != stage
    decreases |ds|
  {
    if ds == [] then None
    else if ds[0].stage == stage then Some(0)
    else match FindStage(ds[1..], stage)
      case None => None
      case Some(k) => Some(k + 1)
  }

  /** decisions.find(d => d.stage === stage)?.decision */
  function DecisionAt(ds: seq<DecisionRecord>, stage: int): (r: Option<string>)
    ensures r.Some? ==> exists i :: 0 <= i < |ds| && ds[i].stage == stage && ds[i].decision == r
    ensures (forall i :: 0 <= i < |ds| ==> ds[i].stage != stage) ==> r.None?
    ensures forall i :: 0 <= i < |ds| && ds[i].stage == stage && (forall j :: 0 <= j < i ==> ds[j].stage != stage) ==> r == ds[i].decision
  {
    match FindStage(ds, stage)
    case None => None
    case Some(i) => ds[i].decision
  }

  /** The base magnitudes: 150/100/10 for "telefono", 300/200/20 for every other type. */
  datatype Base = Base(co2: int, agua: int, residuos: int)

  function BaseFor(deviceType: string): (b: Base)
    ensures deviceType == "telefono" ==> b == Base(150, 100, 10)
    ensures deviceType != "telefono" ==> b == Base(300, 200, 20)
  {
    if deviceType == "telefono" then Base(150, 100, 10) else Base(300, 200, 20)
  }

  /** Multiplier and score delta of the usage (stage 1) decision. */
  function UsageMultiplier(uso: Option<string>): real {
    if uso == Some("1 año") then 1.2 else if uso == Some("2 años") then 1.1 else 1.0
  }

  function UsageDelta(uso: Option<string>): int {
    if uso == Some("1 año") then -20 else if uso == Some("2 años") then -10 else 0
  }

  /** Multiplier and score delta of the end-of-life (stage 2) decision. */
  function EndOfLifeMultiplier(fin: Option<string>): real {
    if fin == Some("desechar") then 1.3
    else if fin == Some("reparar") then 0.9
    else if fin == Some("reciclar") then 0.8
    else 1.0
  }

  function EndOfLifeDelta(fin: Option<string>): int {
    if fin == Some("desechar") then -30
    else if fin == Some("reparar") then 10
    else if fin == Some("reciclar") then 15
    else 0
  }

  /** The final impact: every magnitude scaled by the one product of the two
      multipliers, and the score 100 plus both deltas, clamped to [20, 100]. */
  function FinalImpact(deviceType: string, ds: seq<DecisionRecord>): (imp: Impact)
    ensures 50 <= imp.score <= 100
  {
    var b := BaseFor(deviceType);
    var uso := DecisionAt(ds, 1);
    var fin := DecisionAt(ds, 2);
    var m := UsageMultiplier(uso) * EndOfLifeMultiplier(fin);
    Impact(Round(b.co2 as real * m), Round(b.agua as real * m), Round(b.residuos as real * m),
           Clamp(20, 100, Round((100 + UsageDelta(uso) + EndOfLifeDelta(fin)) as real)))
  }

  /** The computation inside loadData: the locals are multiplied (*=) and the
      score adjusted (-=, +=) one decision at a time. */
  method ComputeFinalImpact(deviceType: string, ds: seq<DecisionRecord>) returns (imp: Impact)
    ensures imp == FinalImpact(deviceType, ds)
  {
    var baseCO2: real := if deviceType == "telefono" then 150.0 else 300.0;
    var baseAgua: real := if deviceType == "telefono" then 100.0 else 200.0;
    var baseResiduos: real := if deviceType == "telefono" then 10.0 else 20.0;

    var co2, agua, residuos := baseCO2, baseAgua, baseResiduos;
    var score := 100;

    var uso := match FindStage(ds, 1) case None => None case Some(i) => ds[i].decision;
    if uso == Some("1 año") {
      co2, agua, residuos := co2 * 1.2, agua * 1.2, residuos * 1.2;
      score := score - 20;
    } else if uso == Some("2 años") {
      co2, agua, residuos := co2 * 1.1, agua * 1.1, residuos * 1.1;
      score := score - 10;
    }

    var fin := match FindStage(ds, 2) case None => None case Some(i) => ds[i].decision;
    if fin == Some("desechar") {
      co2, agua, residuos := co2 * 1.3, agua * 1.3, residuos * 1.3;
      score := score - 30;
    } else if fin == Some("reparar") {
      co2, agua, residuos := co2 * 0.9, agua * 0.9, residuos * 0.9;
      score := score + 10;
    } else if fin == Some("reciclar") {
      co2, agua, residuos := co2 * 0.8, agua * 0.8, residuos * 0.8;
      score := score + 15;
    }

    imp := Impact(Round(co2), Round(agua), Round(residuos), Clamp(20, 100, Round(score as real)));
  }

  /** No recognised decision for either stage: the base magnitudes and a score of 100. */
  lemma NoDecisionIsBaseline(deviceType: string, ds: seq<DecisionRecord>)
    requires DecisionAt(ds, 1) != Some("1 año") && DecisionAt(ds, 1) != Some("2 años")
    requires DecisionAt(ds, 2) != Some("desechar") && DecisionAt(ds, 2) != Some("reparar")
             && DecisionAt(ds, 2) != Some("reciclar")
    ensures var b := BaseFor(deviceType);
            FinalImpact(deviceType, ds) == Impact(b.co2, b.agua, b.residuos, 100)
  {
    var b := BaseFor(deviceType);
    RoundOfInteger(b.co2);
    RoundOfInteger(b.agua);
    RoundOfInteger(b.residuos);
    RoundOfInteger(100);
  }

  /** An empty decision list gives exactly the baseline. */
  lemma EmptyDecisionsIsBaseline(deviceType: string)
    ensures var b := BaseFor(deviceType);
            FinalImpact(deviceType, []) == Impact(b.co2, b.agua, b.residuos, 100)
  {
    NoDecisionIsBaseline(deviceType, []);
  }

  /** Only the first record of a stage counts: a later one for the same stage is ignored. */
  lemma FirstRecordWins(ds: seq<DecisionRecord>, later: DecisionRecord, stage: int)
    requires FindStage(ds, stage).Some?
    ensures DecisionAt(ds + [later], stage) == DecisionAt(ds, stage)
  {
    var i := FindStage(ds, stage).value;
    var ds' := ds + [later];
    assert ds'[i] == ds[i];
    assert forall j :: 0 <= j < i ==> ds'[j] == ds[j];
  }

  /** telefono, "1 año", "desechar": 150·1.2·1.3 = 234, 156, 15.6 → 16, score 100 − 20 − 30 = 50. */
  lemma WorkedExampleTelefono()
    ensures FinalImpact("telefono", [DecisionRecord(1, Some("1 año")), DecisionRecord(2, Some("desechar"))])
         == Impact(234, 156, 16, 50)
  {
    var ds := [DecisionRecord(1, Some("1 año")), DecisionRecord(2, Some("desechar"))];
    assert DecisionAt(ds, 1) == Some("1 año");
    assert DecisionAt(ds, 2) == Some("desechar");
    RoundOfInteger(234);
    RoundOfInteger(156);
    RoundOfInteger(50);
  }

  /** Every magnitude is strictly positive. */
  lemma MagnitudesPositive(deviceType: string, ds: seq<DecisionRecord>)
    ensures var imp := FinalImpact(deviceType, ds);
            imp.co2 > 0 && imp.agua > 0 && imp.residuos > 0
  {
    var b := BaseFor(deviceType);
    var m := UsageMultiplier(DecisionAt(ds, 1)) * EndOfLifeMultiplier(DecisionAt(ds, 2));
    assert m >= 0.8;
    ScaleMonotone(b.residuos as real, 0.8, m);
    ScaleMonotone(b.agua as real, 0.8, m);
    ScaleMonotone(b.co2 as real, 0.8, m);
  }


  const DesecharTips: seq<string> := [
    "💡 Considera donar tu dispositivo. ¡Puede seguir siendo útil!",
    "♻️ Busca puntos de reciclaje autorizados en tu ciudad.",
    "🔋 Retira la batería antes de desechar. Es un residuo peligroso."]
  const ReciclarTips: seq<string> := [
    "✅ ¡Excelente decisión! El reciclaje reduce hasta el 80% de emisiones.",
    "📱 Guarda tus datos en la nube antes de entregar el dispositivo.",
    "🌍 Comparte esta acción en redes para inspirar a otros."]
  const RepararTips: seq<string> := [
    "🛠️ Reparar extiende la vida útil y reduce la demanda de nuevos recursos.",
    "🔧 Busca técnicos certificados para una reparación segura.",
    "❤️ Cada reparación evita ~50 kg de residuos electrónicos."]

  /** getRecommendations: three tips for desechar, reciclar and reparar; none otherwise. */
  function Recommendations(ds: seq<DecisionRecord>): (r: seq<string>)
    ensures DecisionAt(ds, 2) == Some("desechar") ==> r == DesecharTips
    ensures DecisionAt(ds, 2) == Some("reciclar") ==> r == ReciclarTips
    ensures DecisionAt(ds, 2) == Some("reparar") ==> r == RepararTips
    ensures DecisionAt(ds, 2) !in {Some("desechar"), Some("reciclar"), Some("reparar")} ==> r == []
  {
    var fin := DecisionAt(ds, 2);
    if fin.None? || fin.value == "" then []
    else if fin.value == "desechar" then DesecharTips
    else if fin.value == "reciclar" then ReciclarTips
    else if fin.value == "reparar" then RepararTips
    else []
  }

  /** Each recognised end-of-life decision gets exactly three tips. */
  lemma RecommendationCounts(ds: seq<DecisionRecord>)
    ensures |Recommendations(ds)| == (if DecisionAt(ds, 2) in {Some("desechar"), Some("reciclar"), Some("reparar")} then 3 else 0)
  {
  }

  /** The decision shown on the page: `?.decision || "No registrada"`. */
  function DisplayedDecision(ds: seq<DecisionRecord>, stage: int): (r: string)
    ensures r != ""
    ensures DecisionAt(ds, stage) in {None, Some("")} ==> r == "No registrada"
    ensures forall v :: DecisionAt(ds, stage) == Some(v) && v != "" ==> r == v
  {
    match DecisionAt(ds, stage)
    case Some(v) => if v == "" then "No registrada" else v
    case None => "No registrada"
  }
}
