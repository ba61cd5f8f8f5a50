/** The reference table of per-type baseline magnitudes and the age-adjusted
    impact estimate of src/data/deviceData.js. */
module DeviceData {
  import opened Common

  /** One entry of BASE_DATA. */
  datatype BaseRecord = BaseRecord(
    name: string,
    baseCO2: int,
    baseAgua: int,
    baseResiduos: int,
    extraction: string,
    manufacturing: string,
    transport: string)

  /** The age-adjusted magnitudes { CO2, agua, residuos }. */
  datatype Magnitudes = Magnitudes(co2: int, agua: int, residuos: int)

  /** The object getAdjustedImpact returns: the spread base record (absent when
      BASE_DATA has no entry for the type, since spreading undefined adds no
      fields), the adjusted magnitudes (absent on the early return) and the score. */
  datatype AdjustedImpact = AdjustedImpact(base: Option<BaseRecord>, adjusted: Option<Magnitudes>, score: int)

  const Telefono := BaseRecord("Teléfono promedio", 150, 100, 10,
    "50 kg de minerales extraídos", "80 L de agua usados en fábrica", "12,000 km de transporte global")
  const Laptop := BaseRecord("Laptop promedio", 300, 200, 20,
    "200 kg de minerales extraídos", "300 L de agua usados en fábrica", "15,000 km de transporte global")

  /** BASE_DATA[type]. */
  function BaseData(deviceType: string): (b: Option<BaseRecord>)
    ensures b.Some? <==> deviceType == "telefono" || deviceType == "laptop"
    ensures b.Some? ==> b.value.baseCO2 > 0 && b.value.baseAgua > 0 && b.value.baseResiduos > 0
  {
    if deviceType == "telefono" then Some(Telefono)
    else if deviceType == "laptop" then Some(Laptop)
    else None
  }

  /** `!year` is false: the year is present and not 0 (a year of 0 is falsy in JavaScript). */
  predicate Truthy(year: Option<int>) {
    year.Some? && year.value != 0
  }

  /** 1.0 + Math.min(0.5, (now - year) * 0.05): a 5% penalty per year of age, capped at +50%. */
  function EfficiencyFactor(now: int, year: int): (f: real)
    ensures f <= 1.5
    ensures now - year >= 10 ==> f == 1.5
    ensures now - year <= 10 ==> f == 1.0 + (now - year) as real * 0.05
    ensures year <= now ==> 1.0 <= f
    ensures now < year ==> f < 1.0
  {
    var penalty := (now - year) as real * 0.05;
    1.0 + (if penalty < 0.5 then penalty else 0.5)
  }

  /** Older devices (a smaller year) never get a smaller factor. */
  lemma EfficiencyFactorMonotone(now: int, older: int, newer: int)
    requires older <= newer
    ensures EfficiencyFactor(now, older) >= EfficiencyFactor(now, newer)
  {
  }

  /** getAdjustedImpact(type, year) with the current year passed in as `now`. */
  function GetAdjustedImpact(deviceType: string, year: Option<int>, now: int): (r: AdjustedImpact)
    ensures r.base == BaseData(deviceType)
    ensures r.adjusted.None? <==> BaseData(deviceType).None? || !Truthy(year)
    ensures r.adjusted.None? ==> r.score == 70
    ensures 20 <= r.score <= 100
  {
    var base := BaseData(deviceType);
    if base.None? || !Truthy(year) then
      AdjustedImpact(base, None, 70)
    else
      Estimate(base.value, EfficiencyFactor(now, year.value))
  }

  /** The estimate for a known record and a factor: the scaled magnitudes and
      Math.round of 100 - 50·(CO2 / baseCO2) clamped to [20, 100]. Since the
      bounds are integers, rounding the clamped value equals clamping the
      rounded one (RoundAfterClamp). */
  function Estimate(b: BaseRecord, f: real): (r: AdjustedImpact)
    requires b.baseCO2 > 0
    ensures r.base == Some(b) && r.adjusted == Some(Scaled(b, f))
    ensures 20 <= r.score <= 100
  {
    var m := Scaled(b, f);
    AdjustedImpact(Some(b), Some(m), Clamp(20, 100, Round(100.0 - (m.co2 as real / b.baseCO2 as real) * 50.0)))
  }

  /** `Math.round(Math.max(20, Math.min(100, x)))` is `Clamp(20, 100, Math.round(x))`. */
  lemma RoundAfterClamp(x: real)
    ensures Round(if x < 20.0 then 20.0 else if 100.0 < x then 100.0 else x) == Clamp(20, 100, Round(x))
  {
    RoundOfInteger(20);
    RoundOfInteger(100);
    if x < 20.0 {
      RoundMonotone(x, 20.0);
    } else if 100.0 < x {
      RoundMonotone(100.0, x);
    } else {
      RoundMonotone(20.0, x);
      RoundMonotone(x, 100.0);
    }
  }

  /** The three base magnitudes times one factor, each rounded on its own. */
  function Scaled(b: BaseRecord, f: real): Magnitudes {
    Magnitudes(Round(b.baseCO2 as real * f), Round(b.baseAgua as real * f), Round(b.baseResiduos as real * f))
  }

  /** A larger factor never gives a smaller magnitude. */
  lemma ScaledMonotone(b: BaseRecord, f: real, g: real)
    requires b.baseCO2 >= 0 && b.baseAgua >= 0 && b.baseResiduos >= 0 && f <= g
    ensures Scaled(b, f).co2 <= Scaled(b, g).co2
    ensures Scaled(b, f).agua <= Scaled(b, g).agua
    ensures Scaled(b, f).residuos <= Scaled(b, g).residuos
  {
    assert Scaled(b, f).co2 <= Scaled(b, g).co2 by {
      RoundScaleMonotone(b.baseCO2, f, g);
    }
    assert Scaled(b, f).agua <= Scaled(b, g).agua by {
      RoundScaleMonotone(b.baseAgua, f, g);
    }
    assert Scaled(b, f).residuos <= Scaled(b, g).residuos by {
      RoundScaleMonotone(b.baseResiduos, f, g);
    }
  }

  lemma RoundScaleMonotone(base: int, f: real, g: real)
    requires base >= 0 && f <= g
    ensures Round(base as real * f) <= Round(base as real * g)
  {
    ScaleMonotone(base as real, f, g);
    RoundMonotone(base as real * f, base as real * g);
  }

  /** Each magnitude is its own base value times the one shared factor, rounded on its own. */
  lemma SameFactorForAllMagnitudes(deviceType: string, year: Option<int>, now: int)
    requires BaseData(deviceType).Some? && Truthy(year)
    ensures var b := BaseData(deviceType).value;
            var f := EfficiencyFactor(now, year.value);
            var m := GetAdjustedImpact(deviceType, year, now).adjusted;
            m.Some? &&
            m.value.co2 as real - 0.5 <= b.baseCO2 as real * f < m.value.co2 as real + 0.5 &&
            m.value.agua as real - 0.5 <= b.baseAgua as real * f < m.value.agua as real + 0.5 &&
            m.value.residuos as real - 0.5 <= b.baseResiduos as real * f < m.value.residuos as real + 0.5
  {
    var b := BaseData(deviceType).value;
    var f := EfficiencyFactor(now, year.value);
    assert GetAdjustedImpact(deviceType, year, now).adjusted == Some(Scaled(b, f));
  }

  /** The penalty is capped: from ten years of age on, the magnitudes are 1.5 times the base. */
  lemma CappedAtTenYears(year: int, now: int)
    requires year != 0 && year <= now - 10
    ensures GetAdjustedImpact("telefono", Some(year), now).adjusted == Some(Magnitudes(225, 150, 15))
    ensures GetAdjustedImpact("laptop", Some(year), now).adjusted == Some(Magnitudes(450, 300, 30))
  {
    assert EfficiencyFactor(now, year) == 1.5;
    RoundOfInteger(225);
    RoundOfInteger(150);
    RoundOfInteger(15);
    RoundOfInteger(450);
    RoundOfInteger(300);
    RoundOfInteger(30);
  }

  /** A device made this year keeps its base CO2 and scores exactly 50. */
  lemma CurrentYearIsBaseline(deviceType: string, now: int)
    requires BaseData(deviceType).Some? && now != 0
    ensures var r := GetAdjustedImpact(deviceType, Some(now), now);
            r.adjusted.Some? && r.adjusted.value.co2 == BaseData(deviceType).value.baseCO2 && r.score == 50
  {
    var b := BaseData(deviceType).value;
    assert EfficiencyFactor(now, now) == 1.0;
    RoundOfInteger(b.baseCO2);
    RoundOfInteger(50);
  }

  /** There is no lower cap: a year in the future gives less than the base CO2. */
  lemma FutureYearBelowBaseline(deviceType: string, year: int, now: int)
    requires BaseData(deviceType).Some? && year != 0 && now < year
    ensures var r := GetAdjustedImpact(deviceType, Some(year), now);
            r.adjusted.Some? && r.adjusted.value.co2 <= BaseData(deviceType).value.baseCO2
  {
    var b := BaseData(deviceType).value;
    var f := EfficiencyFactor(now, year);
    ScaleMonotone(b.baseCO2 as real, f, 1.0);
    RoundMonotone(b.baseCO2 as real * f, b.baseCO2 as real);
    RoundOfInteger(b.baseCO2);
  }


  /** Holding the type fixed, an older device never has smaller CO2, agua or residuos. */
  lemma OlderDeviceNoSmallerImpact(deviceType: string, older: int, newer: int, now: int)
    requires BaseData(deviceType).Some? && older != 0 && newer != 0 && older <= newer
    ensures var o := GetAdjustedImpact(deviceType, Some(older), now).adjusted;
            var n := GetAdjustedImpact(deviceType, Some(newer), now).adjusted;
            o.Some? && n.Some? &&
            o.value.co2 >= n.value.co2 && o.value.agua >= n.value.agua && o.value.residuos >= n.value.residuos
  {
    var b := BaseData(deviceType).value;
    var fo := EfficiencyFactor(now, older);
    var fn := EfficiencyFactor(now, newer);
    assert GetAdjustedImpact(deviceType, Some(older), now).adjusted == Some(Scaled(b, fo));
    assert GetAdjustedImpact(deviceType, Some(newer), now).adjusted == Some(Scaled(b, fn));
    EfficiencyFactorMonotone(now, older, newer);
    ScaledMonotone(b, fn, fo);
  }

  /** A non-negative factor gives non-negative magnitudes. */
  lemma ScaledNonNegative(b: BaseRecord, f: real)
    requires b.baseCO2 >= 0 && b.baseAgua >= 0 && b.baseResiduos >= 0 && f >= 0.0
    ensures Scaled(b, f).co2 >= 0 && Scaled(b, f).agua >= 0 && Scaled(b, f).residuos >= 0
  {
    RoundOfInteger(0);
    assert Scaled(b, 0.0) == Magnitudes(0, 0, 0);
    ScaledMonotone(b, 0.0, f);
  }

  /** Up to twenty years ahead the factor 1 + 0.05·age is still at least 0, so
      the adjusted CO2, agua and residuos are non-negative. */
  lemma AdjustedNonNegative(deviceType: string, year: int, now: int)
    requires BaseData(deviceType).Some? && year != 0 && year <= now + 20
    ensures var m := GetAdjustedImpact(deviceType, Some(year), now).adjusted;
            m.Some? && m.value.co2 >= 0 && m.value.agua >= 0 && m.value.residuos >= 0
  {
    ScaledNonNegative(BaseData(deviceType).value, EfficiencyFactor(now, year));
  }

  /** Twenty-one years ahead the factor is -0.05: the telefono estimate is
      Math.round(-7.5) = -7 kg of CO2 and Math.round(-5) = -5 L of agua. */
  lemma FarFutureYearNegative(now: int)
    requires now + 21 != 0
    ensures GetAdjustedImpact("telefono", Some(now + 21), now).adjusted == Some(Magnitudes(-7, -5, 0))
  {
    assert EfficiencyFactor(now, now + 21) == -0.05;
    assert Scaled(Telefono, -0.05) == Magnitudes(-7, -5, 0);
  }

  /** The evidently intended factor: a year after `now` counts as age 0, so the
      factor stays within [1, 1.5]. */
  function CorrectedFactor(now: int, year: int): (f: real)
    ensures 1.0 <= f <= 1.5
    ensures year <= now ==> f == EfficiencyFactor(now, year)
  {
    if now < year then 1.0 else EfficiencyFactor(now, year)
  }

  /** getAdjustedImpact with the corrected factor: it agrees with the source for
      every year up to `now` and never gives a negative magnitude. */
  function GetCorrectedImpact(deviceType: string, year: Option<int>, now: int): (r: AdjustedImpact)
    ensures r.base == BaseData(deviceType)
    ensures r.adjusted.None? <==> BaseData(deviceType).None? || !Truthy(year)
    ensures r.adjusted.Some? ==> r.adjusted.value.co2 >= 0 && r.adjusted.value.agua >= 0 && r.adjusted.value.residuos >= 0
    ensures !Truthy(year) || year.value <= now ==> r == GetAdjustedImpact(deviceType, year, now)
    ensures 20 <= r.score <= 100
  {
    var base := BaseData(deviceType);
    if base.None? || !Truthy(year) then
      AdjustedImpact(base, None, 70)
    else
      ScaledNonNegative(base.value, CorrectedFactor(now, year.value));
      Estimate(base.value, CorrectedFactor(now, year.value))
  }
}
