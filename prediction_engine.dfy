/** `SolarPredictionEngine` (solar_prediction_engine.py, and its identical copy under
    main/function/): a simpler rooftop estimate with 400 W panels of 2 m², efficiency 0.20,
    15% system losses, 300 $ per panel plus 1.5 $/W installation and 0.12 $/kWh. The engine's
    parameter dictionaries are never changed, so they are constants here. */
module PredictionEngine {
  import opened Wrappers
  import opened Numeric
  import opened Polygon

  // ---------------------------------------------------------------- irradiance

  /** `calculate_solar_irradiance`'s dictionary. */
  datatype EngineIrradiance = EngineIrradiance(ghi: real, dni: real, elevationAngle: real,
                                               airMass: real, seasonalFactor: real)

  /** Solar elevation (radians) at solar noon: the hour angle is fixed at 0. */
  function NoonElevation(m: MathLib, lat: real, dayOfYear: int): real
  {
    var declination := 23.45 * m.sin(Radians(360.0 * (284 + dayOfYear) as real / 365.0));
    m.asin(m.sin(Radians(lat)) * m.sin(Radians(declination))
           + m.cos(Radians(lat)) * m.cos(Radians(declination)) * m.cos(Radians(0.0)))
  }

  /** `calculate_solar_irradiance` for the day of the year the source takes from the date
      (the current date when none is given). Below the horizon there is no air mass and no
      direct or global irradiance; the seasonal factor stays within 10% of 1. */
  function SolarIrradiance(m: MathLib, lat: real, lon: real, dayOfYear: int): (r: EngineIrradiance)
    requires m.InverseRanges() && m.SinPositive()
    ensures r.ghi >= 0.0 && r.dni >= 0.0
    ensures NoonElevation(m, lat, dayOfYear) <= 0.0 ==> r.airMass == 0.0 && r.dni == 0.0 && r.ghi == 0.0
    ensures m.TrigBounded() ==> 0.9 <= r.seasonalFactor <= 1.1
    ensures m.TrigBounded() && m.ExpFacts() && NoonElevation(m, lat, dayOfYear) > 0.0 ==>
      r.airMass >= 1.0 && 0.0 < r.dni <= 900.0
  {
    var elevation := NoonElevation(m, lat, dayOfYear);
    var airMass := if elevation > 0.0 then 1.0 / m.sin(elevation) else 0.0;
    var dni := if airMass > 0.0 then 900.0 * m.exp(-0.357 * airMass) else 0.0;
    var ghi := if elevation > 0.0 then dni * m.sin(elevation) else 0.0;
    var seasonalFactor := 1.0 + 0.1 * m.cos(2.0 * PI * (dayOfYear - 172) as real / 365.0);
    assert m.TrigBounded() && m.ExpFacts() && elevation > 0.0 ==> airMass >= 1.0 && 0.0 < dni <= 900.0 by {
      if m.TrigBounded() && m.ExpFacts() && elevation > 0.0 {
        AirMassAtLeastOne(m.sin(elevation));
        assert m.exp(-0.357 * airMass) <= 1.0;
      }
    }
    EngineIrradiance(Max(0.0, ghi * seasonalFactor), Max(0.0, dni), Degrees(elevation), airMass, seasonalFactor)
  }

  /** 1 / sin(e) >= 1 for 0 < sin(e) <= 1. */
  lemma AirMassAtLeastOne(s: real)
    requires 0.0 < s <= 1.0
    ensures 1.0 / s >= 1.0
  {
    var q := 1.0 / s;
    assert q * s == 1.0;
    if q < 1.0 { MulLt(q, 1.0, s); }
  }

  /** The hour angle is fixed at noon, so the longitude does not enter the result. */
  lemma IrradianceIgnoresLongitude(m: MathLib, lat: real, lon1: real, lon2: real, dayOfYear: int)
    requires m.InverseRanges() && m.SinPositive()
    ensures SolarIrradiance(m, lat, lon1, dayOfYear) == SolarIrradiance(m, lat, lon2, dayOfYear)
  {
  }

  // ---------------------------------------------------------------- roof area

  /** `calculate_roof_area`: the cyclic shoelace sum over the vertices scaled to metres
      (111320 m per degree of the first coordinate, 110540 m per degree of the second). */
  function RoofArea(coords: seq<Point>): real
  {
    Abs(CyclicSum(Scale(coords, 111320.0, 110540.0))) / 2.0
  }

  /** One shoelace term in metres is the term in degrees times both scale factors. */
  lemma CrossInMetres(p: Point, q: Point)
    ensures Cross(Point(p.x * 111320.0, p.y * 110540.0), Point(q.x * 111320.0, q.y * 110540.0))
         == 111320.0 * 110540.0 * Cross(p, q)
  {
  }

  /** The open-path shoelace sum in metres is the sum in degrees times both scale factors. */
  lemma {:induction false} PathSumInMetres(s: seq<Point>)
    ensures PathSum(Scale(s, 111320.0, 110540.0)) == 111320.0 * 110540.0 * PathSum(s)
  {
    if |s| >= 2 {
      var n := |s|;
      var t := Scale(s, 111320.0, 110540.0);
      assert t[..n - 1] == Scale(s[..n - 1], 111320.0, 110540.0);
      PathSumInMetres(s[..n - 1]);
      CrossInMetres(s[n - 2], s[n - 1]);
    }
  }

  /** The cyclic shoelace sum in metres is the sum in degrees times both scale factors. */
  lemma CyclicSumInMetres(s: seq<Point>)
    ensures CyclicSum(Scale(s, 111320.0, 110540.0)) == 111320.0 * 110540.0 * CyclicSum(s)
  {
    if s != [] {
      PathSumInMetres(s);
      CrossInMetres(s[|s| - 1], s[0]);
    }
  }

  /** The area is the square-degree shoelace area times the two scale factors; it is not
      negative and it vanishes for fewer than three vertices. */
  lemma RoofAreaInDegrees(coords: seq<Point>)
    ensures RoofArea(coords) == 111320.0 * 110540.0 * Abs(CyclicSum(coords)) / 2.0
    ensures RoofArea(coords) >= 0.0
    ensures |coords| < 3 ==> RoofArea(coords) == 0.0
  {
    CyclicSumInMetres(coords);
    if |coords| < 3 {
      DegenerateCyclicSum(coords);
    }
  }

  /** Closing the ring does not change the area. */
  lemma RoofAreaClosedCopy(coords: seq<Point>)
    requires coords != []
    ensures RoofArea(coords + [coords[0]]) == RoofArea(coords)
  {
    RoofAreaInDegrees(coords);
    RoofAreaInDegrees(coords + [coords[0]]);
    CyclicSumClosedCopy(coords);
  }

  /** Starting the ring at its second vertex (one rotation step) does not change the area;
      repeating the step reaches every other starting vertex. */
  lemma RoofAreaRotate(coords: seq<Point>)
    ensures RoofArea(Rotate(coords)) == RoofArea(coords)
  {
    RoofAreaInDegrees(coords);
    RoofAreaInDegrees(Rotate(coords));
    CyclicSumRotate(coords);
  }

  /** Running the ring the other way round does not change the area. */
  lemma RoofAreaReverse(coords: seq<Point>)
    ensures RoofArea(Reverse(coords)) == RoofArea(coords)
  {
    RoofAreaInDegrees(coords);
    RoofAreaInDegrees(Reverse(coords));
    CyclicSumReverse(coords);
  }

  /** `calculate_roof_area`, with the accumulating loop over the scaled vertices. */
  method CalculateRoofArea(coords: seq<Point>) returns (area: real)
    ensures area == RoofArea(coords)
  {
    area := CyclicShoelace(Scale(coords, 111320.0, 110540.0));
    area := Abs(area) / 2.0;
  }

  // ---------------------------------------------------------------- panels

  /** `optimize_panel_placement`'s dictionary. */
  datatype PanelPlacement = PanelPlacement(roofArea: real, usableArea: real, panelCount: int,
                                           totalPowerKw: real, coverageRatio: real)

  /** Panels that fit on the usable part of the roof, less 10% for spacing. */
  function PanelCount(roofArea: real, usableFactor: real): int
  {
    Trunc(Trunc(roofArea * usableFactor / 2.0) as real * 0.9)
  }

  /** `optimize_panel_placement`: the coverage ratio divides by the roof area, so an empty
      roof raises. On a real roof the count lies between 0 and the whole panels that fit, and
      the panels cover at most 90% of the usable share. */
  function OptimizePanelPlacement(roofArea: real, usableFactor: real): (r: Result<PanelPlacement>)
    ensures r.Err? <==> roofArea == 0.0
    ensures r.Err? ==> r.error == ZeroDivision
    ensures r.Ok? ==>
      r.value.panelCount == PanelCount(roofArea, usableFactor) && r.value.totalPowerKw == 0.4 * r.value.panelCount as real
    ensures r.Ok? && roofArea > 0.0 && usableFactor >= 0.0 ==>
      && 0 <= r.value.panelCount <= Trunc(roofArea * usableFactor / 2.0)
      && r.value.panelCount as real * 2.0 <= 0.9 * r.value.usableArea
      && 0.0 <= r.value.coverageRatio <= 0.9 * usableFactor
  {
    var usableArea := roofArea * usableFactor;
    var maxPanels := Trunc(usableArea / 2.0);
    var optimalPanels := Trunc(maxPanels as real * 0.9);
    if roofArea == 0.0 then Err(ZeroDivision)
    else
      var coverage := (optimalPanels as real * 2.0) / roofArea;
      assert roofArea > 0.0 && usableFactor >= 0.0 ==>
        && 0 <= optimalPanels <= maxPanels
        && optimalPanels as real * 2.0 <= 0.9 * usableArea
        && 0.0 <= coverage <= 0.9 * usableFactor by {
        if roofArea > 0.0 && usableFactor >= 0.0 {
          CoverageBound(roofArea, usableFactor, maxPanels, optimalPanels, coverage);
        }
      }
      Ok(PanelPlacement(roofArea, usableArea, optimalPanels, (optimalPanels * 400) as real / 1000.0, coverage))
  }

  lemma CoverageBound(roofArea: real, usableFactor: real, maxPanels: int, optimalPanels: int, coverage: real)
    requires roofArea > 0.0 && usableFactor >= 0.0
    requires maxPanels == Trunc(roofArea * usableFactor / 2.0)
    requires optimalPanels == Trunc(maxPanels as real * 0.9)
    requires coverage == (optimalPanels as real * 2.0) / roofArea
    ensures 0 <= optimalPanels <= maxPanels
    ensures optimalPanels as real * 2.0 <= 0.9 * (roofArea * usableFactor)
    ensures 0.0 <= coverage <= 0.9 * usableFactor
  {
    MulLe(0.0, usableFactor, roofArea);
    assert 0.0 <= maxPanels as real * 2.0 <= roofArea * usableFactor;
    assert optimalPanels as real <= maxPanels as real * 0.9;
    var bound := 0.9 * usableFactor;
    assert coverage * roofArea == optimalPanels as real * 2.0;
    assert optimalPanels as real * 2.0 <= bound * roofArea;
    if coverage > bound { MulLt(bound, coverage, roofArea); }
    if coverage < 0.0 { MulLt(coverage, 0.0, roofArea); }
  }

  // ---------------------------------------------------------------- energy

  /** `calculate_energy_production`'s dictionary. */
  datatype EnergyEstimate = EnergyEstimate(dailyEnergy: real, monthlyEnergy: real, yearlyEnergy: real,
                                           systemEfficiency: real, temperatureFactor: real)

  /** `calculate_energy_production`: irradiance in kWh/m² times panel area, efficiency after
      losses and temperature derating, and 5.5 peak sun hours. */
  function EnergyProduction(panelCount: int, ghi: real, temperature: real): (e: EnergyEstimate)
    ensures temperature == 25.0 ==> e.temperatureFactor == 1.0 && e.systemEfficiency == 0.17
    ensures e.systemEfficiency == 0.17 * e.temperatureFactor
    ensures e.dailyEnergy == 0.00187 * e.temperatureFactor * ghi * panelCount as real
    ensures e.monthlyEnergy == 30.0 * e.dailyEnergy && e.yearlyEnergy == 365.0 * e.dailyEnergy
  {
    var tempFactor := 1.0 + (-0.004) * (temperature - 25.0);
    var systemEfficiency := 0.20 * (1.0 - 0.15) * tempFactor;
    var panelAreaTotal := panelCount as real * 2.0;
    var daily := (ghi / 1000.0) * panelAreaTotal * systemEfficiency * 5.5;
    EnergyEstimate(daily, daily * 30.0, daily * 365.0, systemEfficiency, tempFactor)
  }

  /** Daily energy is additive in the panel count and in the irradiance. */
  lemma EnergyLinear(n1: int, n2: int, ghi1: real, ghi2: real, temperature: real)
    ensures EnergyProduction(n1 + n2, ghi1, temperature).dailyEnergy
            == EnergyProduction(n1, ghi1, temperature).dailyEnergy + EnergyProduction(n2, ghi1, temperature).dailyEnergy
    ensures EnergyProduction(n1, ghi1 + ghi2, temperature).dailyEnergy
            == EnergyProduction(n1, ghi1, temperature).dailyEnergy + EnergyProduction(n1, ghi2, temperature).dailyEnergy
  {
    var f := 1.0 + (-0.004) * (temperature - 25.0);
    var k := 0.00187 * f;
    assert EnergyProduction(n1 + n2, ghi1, temperature).dailyEnergy == k * ghi1 * (n1 as real + n2 as real);
    assert EnergyProduction(n1, ghi1 + ghi2, temperature).dailyEnergy == k * (ghi1 + ghi2) * n1 as real;
  }

  // ---------------------------------------------------------------- economics

  /** A payback period, or `float('inf')` when the system never pays back. */
  datatype Payback = Years(years: real) | Never

  /** `calculate_economic_analysis`'s dictionary. */
  datatype EngineEconomics = EngineEconomics(
    totalSystemCost: real, equipmentCost: real, installationCost: real,
    annualEnergyValue: real, annualMaintenance: real, netAnnualSavings: real,
    monthlyEnergyValue: real, monthlyBillReduction: real, payback: Payback, roiPercentage: real)

  /** The monthly bill reduction under net metering: consumption is offset at the retail rate
      and any excess is sold at 80% of it. */
  function BillReduction(production: real, consumption: real): (b: real)
    ensures b <= 0.12 * production
    ensures production <= consumption ==> b == 0.12 * production
    ensures production >= 0.0 && consumption >= 0.0 ==> b >= 0.0
  {
    if production > consumption then consumption * 0.12 + (production - consumption) * 0.12 * 0.8
    else production * 0.12
  }

  /** `calculate_economic_analysis`: 900 $ per panel; the return on investment divides by the
      system cost, so a system without panels raises. */
  function EconomicAnalysis(yearlyEnergy: real, panelCount: int, monthlyConsumption: real)
    : (r: Result<EngineEconomics>)
    ensures r.Err? <==> panelCount == 0
    ensures r.Err? ==> r.error == ZeroDivision
    ensures r.Ok? ==>
      && r.value.totalSystemCost == 900.0 * panelCount as real
      && r.value.netAnnualSavings == 0.12 * yearlyEnergy - 9.0 * panelCount as real
      && (r.value.payback.Never? <==> r.value.netAnnualSavings <= 0.0)
      && (r.value.payback.Years? ==> r.value.payback.years * r.value.netAnnualSavings == r.value.totalSystemCost)
      && r.value.roiPercentage * r.value.totalSystemCost == r.value.netAnnualSavings * 100.0
      && r.value.monthlyBillReduction == BillReduction(yearlyEnergy / 12.0, monthlyConsumption)
      && r.value.monthlyBillReduction <= r.value.monthlyEnergyValue
  {
    var totalPowerKw := (panelCount * 400) as real / 1000.0;
    var equipmentCost := (panelCount * 300) as real;
    var installationCost := totalPowerKw * 1000.0 * 1.5;
    var totalSystemCost := equipmentCost + installationCost;
    var annualEnergyValue := yearlyEnergy * 0.12;
    var annualMaintenance := totalSystemCost * 0.01;
    var netAnnualSavings := annualEnergyValue - annualMaintenance;
    var monthlyEnergyProduction := yearlyEnergy / 12.0;
    var monthlyEnergyValue := monthlyEnergyProduction * 0.12;
    var monthlyBillReduction := BillReduction(monthlyEnergyProduction, monthlyConsumption);
    var payback := if netAnnualSavings > 0.0 then Years(totalSystemCost / netAnnualSavings) else Never;
    if totalSystemCost == 0.0 then Err(ZeroDivision)
    else
      Ok(EngineEconomics(totalSystemCost, equipmentCost, installationCost, annualEnergyValue,
                         annualMaintenance, netAnnualSavings, monthlyEnergyValue, monthlyBillReduction,
                         payback, (netAnnualSavings / totalSystemCost) * 100.0))
  }

  // ---------------------------------------------------------------- palette and analysis

  /** `get_color_palette_for_value`: orange to white whatever the value. */
  function PaletteForValue(value: real, minVal: real, maxVal: real): (p: (string, string))
    ensures p.0 == "#FF8C00" && p.1 == "#FFFFFF"
  {
    ("#FF8C00", "#FFFFFF")
  }

  /** `analyze_rooftop`'s dictionary. */
  datatype RooftopAnalysis = RooftopAnalysis(
    areaM2: real, coordinates: seq<Point>, irradiance: EngineIrradiance, panels: PanelPlacement,
    energy: EnergyEstimate, economics: EngineEconomics, solarPotentialScore: real,
    palette: (string, string))

  /** `analyze_rooftop`: the first vertex (longitude, latitude) locates the roof, the score is
      the irradiance as a percentage of 1200 W/m². An empty list fails at the first vertex;
      a roof too small for one panel fails in the coverage ratio or the return on investment. */
  function AnalyzeRooftop(m: MathLib, coords: seq<Point>, monthlyConsumption: real, dayOfYear: int)
    : (r: Result<RooftopAnalysis>)
    requires m.InverseRanges() && m.SinPositive()
    ensures r.Err? <==> coords == [] || PanelCount(RoofArea(coords), 0.75) == 0
    ensures r.Err? ==> r.error == (if coords == [] then IndexError else ZeroDivision)
    ensures r.Ok? ==>
      && r.value.areaM2 == RoofArea(coords)
      && r.value.irradiance == SolarIrradiance(m, coords[0].y, coords[0].x, dayOfYear)
      && r.value.solarPotentialScore * 12.0 == r.value.irradiance.ghi
      && r.value.solarPotentialScore >= 0.0
      && r.value.energy.systemEfficiency == 0.17
      && r.value.economics.totalSystemCost == 900.0 * r.value.panels.panelCount as real
  {
    var roofArea := RoofArea(coords);
    RoofAreaInDegrees(coords);
    if coords == [] then Err(IndexError)
    else
      var irradiance := SolarIrradiance(m, coords[0].y, coords[0].x, dayOfYear);
      var panels := OptimizePanelPlacement(roofArea, 0.75);
      if panels.Err? then Err(panels.error)
      else
        var energy := EnergyProduction(panels.value.panelCount, irradiance.ghi, 25.0);
        var economics := EconomicAnalysis(energy.yearlyEnergy, panels.value.panelCount, monthlyConsumption);
        if economics.Err? then Err(economics.error)
        else
          var score := (irradiance.ghi / 1200.0) * 100.0;
          Ok(RooftopAnalysis(roofArea, coords, irradiance, panels.value, energy, economics.value, score,
                             PaletteForValue(score, 0.0, 100.0)))
  }
}
