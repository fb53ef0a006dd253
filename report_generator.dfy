/** The report arithmetic of `EnhancedSolarReportGenerator` (enhanced_report_generator.py):
    roof area, panel layout, energy, economics, the composite score and its colour band, one
    report per rooftop, and the summary over many rooftops. The irradiance record of each
    rooftop, which the source builds from the live system and the current time, is an input. */
module ReportGenerator {
  import opened Wrappers
  import opened Numeric
  import opened Polygon
  import opened Text

  // ---------------------------------------------------------------- roof area

  /** `calculate_polygon_area_shoelace`: the shoelace area of the closed ring, scaled at the
      mean latitude of the ring without its closing vertex. */
  function ReportArea(m: MathLib, coords: seq<Point>): (area: real)
    ensures |coords| < 3 ==> area == 0.0
  {
    if |coords| < 3 then 0.0
    else
      var ring := Close(coords);
      Abs(PathSum(ring)) / 2.0 * 111320.0 * LongitudeScale(m, Mean(Ys(ring[..|ring| - 1])))
  }

  /** The latitude is the plain vertex mean: of the vertices as given for an open ring, and
      without the repeated vertex for a closed one. The square-degree part is the cyclic
      shoelace sum of the vertices as given. */
  lemma ReportAreaLatitude(m: MathLib, coords: seq<Point>)
    requires |coords| >= 3
    ensures coords[0] != coords[|coords| - 1] ==>
      ReportArea(m, coords) == Abs(CyclicSum(coords)) / 2.0 * 111320.0 * LongitudeScale(m, Centroid(coords).y)
    ensures coords[0] == coords[|coords| - 1] ==>
      ReportArea(m, coords)
        == Abs(CyclicSum(coords)) / 2.0 * 111320.0 * LongitudeScale(m, Centroid(coords[..|coords| - 1]).y)
  {
    var ring := Close(coords);
    assert PathSum(ring) == CyclicSum(coords) by {
      ClosedPathIsCyclic(coords);
    }
    var open := ring[..|ring| - 1];
    if coords[0] != coords[|coords| - 1] {
      assert open == coords;
    } else {
      assert open == coords[..|coords| - 1];
    }
    assert Mean(Ys(open)) == Centroid(open).y;
  }

  /** With latitudes within [-90, 90] the area is not negative. */
  lemma ReportAreaNonNegative(m: MathLib, coords: seq<Point>)
    requires m.CosPositive()
    requires forall i :: 0 <= i < |coords| ==> -90.0 <= coords[i].y <= 90.0
    ensures ReportArea(m, coords) >= 0.0
  {
    if |coords| >= 3 {
      var ring := Close(coords);
      CloseKeepsLatitudes(coords);
      var open := ring[..|ring| - 1];
      assert forall i :: 0 <= i < |open| ==> -90.0 <= open[i].y <= 90.0 by {
        forall i | 0 <= i < |open| ensures -90.0 <= open[i].y <= 90.0 {
          assert open[i] == ring[i];
        }
      }
      MeanLatitudeInRange(open);
      ScaledAreaNonNegative(m, PathSum(ring), Mean(Ys(open)));
    }
  }

  /** `calculate_polygon_area_shoelace`, with the shoelace loop. */
  method CalculatePolygonAreaShoelace(m: MathLib, coords: seq<Point>) returns (areaM2: real)
    ensures areaM2 == ReportArea(m, coords)
  {
    if |coords| < 3 {
      return 0.0;
    }
    var ring := Close(coords);
    var areaDeg2 := PathShoelace(ring);
    areaDeg2 := Abs(areaDeg2) / 2.0;
    var avgLat := Mean(Ys(ring[..|ring| - 1]));
    areaM2 := areaDeg2 * 111320.0 * LongitudeScale(m, avgLat);
  }

  // ---------------------------------------------------------------- panels

  /** `calculate_panel_optimization`'s dictionary (400 W panels of 2.23 m², efficiency 0.17). */
  datatype PanelConfig = PanelConfig(roofArea: real, usableArea: real, panelCount: int,
                                     totalPowerKw: real, coverageRatio: real)

  /** `calculate_panel_optimization`: as many whole panels as fit on 75% of the roof; the
      coverage ratio divides by the roof area, so a zero area raises. */
  function PanelOptimization(roofArea: real): (r: Result<PanelConfig>)
    ensures r.Err? <==> roofArea == 0.0
    ensures r.Err? ==> r.error == ZeroDivision
    ensures r.Ok? ==>
      && r.value.panelCount == Trunc(0.75 * roofArea / 2.23)
      && r.value.totalPowerKw == 0.4 * r.value.panelCount as real
      && r.value.roofArea == roofArea && r.value.usableArea == 0.75 * roofArea
    ensures r.Ok? && roofArea > 0.0 ==>
      && r.value.panelCount >= 0
      && r.value.panelCount as real * 2.23 <= r.value.usableArea < (r.value.panelCount + 1) as real * 2.23
      && 0.0 <= r.value.coverageRatio <= 0.75
  {
    var usableArea := roofArea * 0.75;
    var panelsByArea := Trunc(usableArea / 2.23);
    var totalPowerKw := (panelsByArea * 400) as real / 1000.0;
    if roofArea == 0.0 then Err(ZeroDivision)
    else
      var coverage := (panelsByArea as real * 2.23) / roofArea;
      assert roofArea > 0.0 ==> 0.0 <= coverage <= 0.75 by {
        if roofArea > 0.0 {
          var n := panelsByArea as real;
          assert n * 2.23 <= usableArea;
          assert coverage * roofArea == n * 2.23;
          if coverage > 0.75 { MulLt(0.75, coverage, roofArea); }
          if coverage < 0.0 { MulLt(coverage, 0.0, roofArea); }
        }
      }
      Ok(PanelConfig(roofArea, usableArea, panelsByArea, totalPowerKw, coverage))
  }

  // ---------------------------------------------------------------- energy

  /** `calculate_energy_production`'s dictionary. */
  datatype ReportEnergy = ReportEnergy(dailyEnergy: real, monthlyEnergy: real, yearlyEnergy: real,
                                       irradianceFactor: real, systemFactor: real)

  /** `calculate_energy_production`: 5 peak sun hours at efficiency 0.17, inverter 0.96 and
      temperature factor 0.95; the irradiance enters only the reported irradiance factor. */
  function ReportEnergyOf(config: PanelConfig, ghi: real): (e: ReportEnergy)
    ensures e.dailyEnergy == 0.7752 * config.totalPowerKw
    ensures e.monthlyEnergy == 30.44 * e.dailyEnergy && e.yearlyEnergy == 365.0 * e.dailyEnergy
    ensures e.irradianceFactor <= 1.0 && (ghi >= 0.0 ==> e.irradianceFactor >= 0.0)
  {
    var daily := config.totalPowerKw * 5.0 * 0.17 * 0.96 * 0.95;
    ReportEnergy(daily, daily * 30.44, daily * 365.0, Min(1.0, ghi / 1000.0), 0.17 * 0.96)
  }

  /** The energy estimate does not depend on the irradiance. */
  lemma EnergyIgnoresIrradiance(config: PanelConfig, ghi1: real, ghi2: real)
    ensures ReportEnergyOf(config, ghi1).dailyEnergy == ReportEnergyOf(config, ghi2).dailyEnergy
    ensures ReportEnergyOf(config, ghi1).yearlyEnergy == ReportEnergyOf(config, ghi2).yearlyEnergy
  {
  }

  // ---------------------------------------------------------------- economics

  /** `calculate_economic_analysis`'s dictionary. */
  datatype ReportEconomics = ReportEconomics(
    totalSystemCost: real, equipmentCost: real, installationCost: real,
    annualEnergyValue: real, annualMaintenance: real, netAnnualSavings: real,
    monthlyEnergyValue: real, monthlyBillReduction: real, paybackYears: real, roiPercentage: real)

  /** `calculate_economic_analysis` at 30 THB/W, installation twice the equipment, 1% yearly
      maintenance and 4.5 THB/kWh; the return on investment divides by the system cost. */
  function ReportEconomicsOf(energy: ReportEnergy, config: PanelConfig): (e: Result<ReportEconomics>)
    ensures e.Err? <==> config.totalPowerKw == 0.0
    ensures e.Err? ==> e.error == ZeroDivision
    ensures e.Ok? ==>
      && e.value.equipmentCost == 30000.0 * config.totalPowerKw
      && e.value.installationCost == 2.0 * e.value.equipmentCost
      && e.value.totalSystemCost == 3.0 * e.value.equipmentCost
      && e.value.annualMaintenance == 0.01 * e.value.totalSystemCost
      && e.value.netAnnualSavings == 4.5 * energy.yearlyEnergy - e.value.annualMaintenance
      && e.value.paybackYears * Max(e.value.netAnnualSavings, 1.0) == e.value.totalSystemCost
      && e.value.roiPercentage * e.value.totalSystemCost == e.value.netAnnualSavings * 100.0
      && e.value.monthlyBillReduction == 0.8 * 4.5 * energy.monthlyEnergy
  {
    var equipmentCost := config.totalPowerKw * 1000.0 * 30.0;
    var installationCost := equipmentCost * 2.0;
    var totalSystemCost := equipmentCost + installationCost;
    var annualEnergyValue := energy.yearlyEnergy * 4.5;
    var monthlyEnergyValue := energy.monthlyEnergy * 4.5;
    var annualMaintenance := totalSystemCost * 0.01;
    var netAnnualSavings := annualEnergyValue - annualMaintenance;
    var paybackYears := totalSystemCost / Max(netAnnualSavings, 1.0);
    if totalSystemCost == 0.0 then Err(ZeroDivision)
    else
      Ok(ReportEconomics(totalSystemCost, equipmentCost, installationCost, annualEnergyValue,
                         annualMaintenance, netAnnualSavings, monthlyEnergyValue, monthlyEnergyValue * 0.8,
                         paybackYears, (netAnnualSavings / totalSystemCost) * 100.0))
  }

  /** With the energy of `ReportEnergyOf`, every system with panels has the same return
      (0.41474%) and the same payback (90000 / 373.266 years): both scale with the power. */
  lemma ReturnIsIndependentOfSize(config: PanelConfig, ghi: real)
    requires config.totalPowerKw >= 0.4
    ensures var e := ReportEconomicsOf(ReportEnergyOf(config, ghi), config);
      && e.Ok?
      && e.value.netAnnualSavings == 373.266 * config.totalPowerKw
      && e.value.roiPercentage == 0.41474
      && e.value.paybackYears == 90000.0 / 373.266
  {
    var kw := config.totalPowerKw;
    var e := ReportEconomicsOf(ReportEnergyOf(config, ghi), config).value;
    assert e.totalSystemCost == 90000.0 * kw;
    assert e.netAnnualSavings == 373.266 * kw;
    assert e.roiPercentage == (373.266 * kw) / (90000.0 * kw) * 100.0;
    assert (373.266 * kw) / (90000.0 * kw) == 373.266 / 90000.0;
    assert e.paybackYears == (90000.0 * kw) / (373.266 * kw);
    assert (90000.0 * kw) / (373.266 * kw) == 90000.0 / 373.266;
  }

  // ---------------------------------------------------------------- score and colour

  /** Energy points: 40 at 100 MWh a year, proportional below. */
  function EnergyScore(yearlyEnergy: real): (s: real)
    ensures s <= 40.0 && (yearlyEnergy >= 0.0 ==> s >= 0.0)
    ensures s == 40.0 <==> yearlyEnergy >= 100000.0
  {
    Min(40.0, (yearlyEnergy / 100000.0) * 40.0)
  }

  /** Economic points: 15 per 10% of return plus 0.6 per year of payback under 25, clamped to
      [0, 30]. */
  function EconomicScore(roi: real, payback: real): (s: real)
    ensures 0.0 <= s <= 30.0
  {
    Min(30.0, Max(0.0, (roi / 10.0) * 15.0 + (25.0 - payback) * 0.6))
  }

  /** Technical points: 20 at 1000 W/m², proportional below. */
  function TechnicalScore(ghi: real): (s: real)
    ensures s <= 20.0 && (ghi >= 0.0 ==> s >= 0.0)
    ensures s == 20.0 <==> ghi >= 1000.0
  {
    Min(20.0, (ghi / 1000.0) * 20.0)
  }

  /** Data-quality points: 10 for satellite data, otherwise 8, 6 or 4 by validity. */
  function QualityScore(satelliteDataUsed: bool, scientificValidity: string): (s: real)
    ensures s == 10.0 <==> satelliteDataUsed
    ensures !satelliteDataUsed ==>
      s == (if scientificValidity == "High" then 8.0 else if scientificValidity == "Medium" then 6.0 else 4.0)
  {
    if satelliteDataUsed then 10.0
    else if scientificValidity == "High" then 8.0
    else if scientificValidity == "Medium" then 6.0
    else 4.0
  }

  /** `calculate_solar_potential_score`: the four parts, clamped to [0, 100]. The clamp bites
      only for a negative energy or irradiance, since the parts' caps add up to 100. */
  function SolarPotentialScore(yearlyEnergy: real, roi: real, payback: real, ghi: real,
                               satelliteDataUsed: bool, scientificValidity: string): (s: real)
    ensures 0.0 <= s <= 100.0
    ensures yearlyEnergy >= 0.0 && ghi >= 0.0 ==>
      s == EnergyScore(yearlyEnergy) + EconomicScore(roi, payback) + TechnicalScore(ghi)
           + QualityScore(satelliteDataUsed, scientificValidity)
  {
    var total := EnergyScore(yearlyEnergy) + EconomicScore(roi, payback) + TechnicalScore(ghi)
                 + QualityScore(satelliteDataUsed, scientificValidity);
    Min(100.0, Max(0.0, total))
  }

  /** With the fixed economics every system with panels earns no economic points: the payback
      of about 241 years outweighs the return. */
  lemma EconomicPointsAreZero(config: PanelConfig, ghi: real)
    requires config.totalPowerKw >= 0.4
    ensures var e := ReportEconomicsOf(ReportEnergyOf(config, ghi), config);
      e.Ok? && EconomicScore(e.value.roiPercentage, e.value.paybackYears) == 0.0
  {
    ReturnIsIndependentOfSize(config, ghi);
  }

  /** The four colour bands of `get_color_palette`. */
  datatype Band = Excellent | Good | Moderate | Poor
  {
    /** `self.color_palettes[...]` */
    function Palette(): seq<string>
    {
      match this
      case Excellent => ["#00FF00", "#FFFFFF"]
      case Good => ["#FFFF00", "#FFFFFF"]
      case Moderate => ["#FF8C00", "#FFFFFF"]
      case Poor => ["#FF0000", "#FFFFFF"]
    }

    /** The bands from worst (0) to best (3). */
    function Rank(): nat
    {
      match this
      case Poor => 0
      case Moderate => 1
      case Good => 2
      case Excellent => 3
    }
  }

  /** `get_color_palette`'s band choice: at least 80, 60 or 40. */
  function ScoreBand(score: real): (b: Band)
    ensures b == Excellent <==> score >= 80.0
    ensures b == Good <==> 60.0 <= score < 80.0
    ensures b == Moderate <==> 40.0 <= score < 60.0
    ensures b == Poor <==> score < 40.0
  {
    if score >= 80.0 then Excellent
    else if score >= 60.0 then Good
    else if score >= 40.0 then Moderate
    else Poor
  }

  /** A higher score never gets a worse band. */
  lemma ScoreBandMonotone(s1: real, s2: real)
    requires s1 <= s2
    ensures ScoreBand(s1).Rank() <= ScoreBand(s2).Rank()
  {
  }

  // ---------------------------------------------------------------- one rooftop

  /** The irradiance record `calculate_solar_irradiance_enhanced` returns. It has no
      `method_used` key. */
  datatype ReportIrradiance = ReportIrradiance(
    ghi: real, dni: real, dhi: real, elevationAngle: real, azimuthAngle: real, airMass: real,
    seasonalFactor: real, dataSource: string, scientificValidity: string, satelliteDataUsed: bool)

  /** `analyze_single_rooftop`'s dictionary (without the time stamp). */
  datatype RooftopReport = RooftopReport(
    areaM2: real, coords: seq<Point>, irradiance: ReportIrradiance,
    panels: PanelConfig, energy: ReportEnergy, economics: ReportEconomics,
    solarPotentialScore: real, colorPalette: seq<string>, dataSource: string,
    geeIntegration: bool, dataPreference: string, scientificValidity: string,
    adaptiveBufferingUsed: bool)

  /** `f"GEE_ERA5_{data_source}"` for satellite data, otherwise "Enhanced_Calculation". */
  function DataSourceTag(irradiance: ReportIrradiance): (tag: string)
    ensures Contains(tag, "GEE") <==> irradiance.satelliteDataUsed
  {
    if irradiance.satelliteDataUsed then
      var tag := "GEE_ERA5_" + irradiance.dataSource;
      assert tag[..3] == "GEE";
      tag
    else
      NotContainsWithoutFirst("Enhanced_Calculation", "GEE");
      "Enhanced_Calculation"
  }

  /** `analyze_single_rooftop`: area, panels, energy, economics, score and band. A rooftop on
      which not even one panel fits raises, in the coverage ratio (zero area) or in the return
      on investment (zero power). */
  function RooftopReportOf(m: MathLib, coords: seq<Point>, irradiance: ReportIrradiance,
                           useSatelliteData: bool): (r: Result<RooftopReport>)
    ensures r.Err? <==> Trunc(0.75 * ReportArea(m, coords) / 2.23) == 0
    ensures r.Err? ==> r.error == ZeroDivision
    ensures r.Ok? ==>
      && r.value.areaM2 == ReportArea(m, coords)
      && 0.0 <= r.value.solarPotentialScore <= 100.0
      && r.value.colorPalette == ScoreBand(r.value.solarPotentialScore).Palette()
      && (Contains(r.value.dataSource, "GEE") <==> irradiance.satelliteDataUsed)
      && !r.value.adaptiveBufferingUsed
  {
    var area := ReportArea(m, coords);
    var panels := PanelOptimization(area);
    if panels.Err? then Err(panels.error)
    else
      var energy := ReportEnergyOf(panels.value, irradiance.ghi);
      var economics := ReportEconomicsOf(energy, panels.value);
      if economics.Err? then Err(economics.error)
      else
        var score := SolarPotentialScore(energy.yearlyEnergy, economics.value.roiPercentage,
                                         economics.value.paybackYears, irradiance.ghi,
                                         irradiance.satelliteDataUsed, irradiance.scientificValidity);
        Ok(RooftopReport(area, coords, irradiance, panels.value, energy, economics.value, score,
                         ScoreBand(score).Palette(), DataSourceTag(irradiance), useSatelliteData,
                         if irradiance.satelliteDataUsed then "Satellite" else "Enhanced",
                         irradiance.scientificValidity,
                         false))   // `irradiance.get('method_used')` is always None
  }

  // ---------------------------------------------------------------- many rooftops

  /** `analyze_single_rooftop` of every rooftop, in order. */
  function RooftopResults(m: MathLib, coordsList: seq<seq<Point>>, irradiances: seq<ReportIrradiance>,
                          useSatelliteData: bool): (rs: seq<Result<RooftopReport>>)
    requires |irradiances| == |coordsList|
    ensures |rs| == |coordsList|
  {
    seq(|coordsList|, i requires 0 <= i < |coordsList| => RooftopReportOf(m, coordsList[i], irradiances[i], useSatelliteData))
  }

  /** Count of scores at least `t`. */
  function CountAtLeast(xs: seq<real>, t: real): (n: nat)
    ensures n <= |xs|
  {
    if xs == [] then 0 else CountAtLeast(xs[..|xs| - 1], t) + (if xs[|xs| - 1] >= t then 1 else 0)
  }

  /** Count of scores in [lo, hi). */
  function CountBetween(xs: seq<real>, lo: real, hi: real): (n: nat)
    ensures n <= |xs|
  {
    if xs == [] then 0 else CountBetween(xs[..|xs| - 1], lo, hi) + (if lo <= xs[|xs| - 1] < hi then 1 else 0)
  }

  /** Count of scores below `t`. */
  function CountBelow(xs: seq<real>, t: real): (n: nat)
    ensures n <= |xs|
  {
    if xs == [] then 0 else CountBelow(xs[..|xs| - 1], t) + (if xs[|xs| - 1] < t then 1 else 0)
  }

  /** High (>= 70), medium ([40, 70)) and low (< 40) split the scores. */
  lemma {:induction false} QualityCountsPartition(xs: seq<real>)
    ensures CountAtLeast(xs, 70.0) + CountBetween(xs, 40.0, 70.0) + CountBelow(xs, 40.0) == |xs|
  {
    if xs != [] {
      QualityCountsPartition(xs[..|xs| - 1]);
    }
  }

  /** Number of reports whose data source mentions "GEE". */
  function GeeCount(rs: seq<RooftopReport>): (n: nat)
    ensures n <= |rs|
  {
    if rs == [] then 0 else GeeCount(rs[..|rs| - 1]) + (if Contains(rs[|rs| - 1].dataSource, "GEE") then 1 else 0)
  }

  /** Number of irradiance records from satellite data. */
  function SatelliteCount(irradiances: seq<ReportIrradiance>): (n: nat)
    ensures n <= |irradiances|
  {
    if irradiances == [] then 0
    else SatelliteCount(irradiances[..|irradiances| - 1]) + (if irradiances[|irradiances| - 1].satelliteDataUsed then 1 else 0)
  }

  function Scores(rs: seq<RooftopReport>): (xs: seq<real>)
    ensures |xs| == |rs| && forall i :: 0 <= i < |rs| ==> xs[i] == rs[i].solarPotentialScore
  {
    seq(|rs|, i requires 0 <= i < |rs| => rs[i].solarPotentialScore)
  }

  /** `process_solar_analysis`'s `summary_statistics`. */
  datatype Summary = Summary(
    totalRoofArea: real, totalPanels: int, totalPowerKw: real, totalYearlyEnergy: real,
    totalMonthlySavings: real, averageSolarScore: real, solarScoreStd: real,
    geeCount: nat, enhancedCount: int, geeUsagePercentage: real,
    highQuality: nat, mediumQuality: nat, lowQuality: nat)

  function PanelTotal(rs: seq<RooftopReport>): int
  {
    if rs == [] then 0 else PanelTotal(rs[..|rs| - 1]) + rs[|rs| - 1].panels.panelCount
  }

  /** A count out of a non-zero total, as a percentage, lies in [0, 100]. */
  lemma PercentageBounds(k: nat, n: nat)
    requires 0 < n && k <= n
    ensures 0.0 <= (k as real / n as real) * 100.0 <= 100.0
  {
    var q := k as real / n as real;
    assert q * n as real == k as real;
    if q > 1.0 { MulLt(1.0, q, n as real); }
    if q < 0.0 { MulLt(q, 0.0, n as real); }
  }

  /** The summary of a non-empty list of reports; an empty list divides by zero in the GEE
      percentage. */
  function SummaryOf(m: MathLib, rs: seq<RooftopReport>): (r: Result<Summary>)
    ensures r.Err? <==> rs == []
    ensures r.Ok? ==>
      && r.value.geeCount + r.value.enhancedCount == |rs|
      && r.value.highQuality + r.value.mediumQuality + r.value.lowQuality == |rs|
      && 0.0 <= r.value.geeUsagePercentage <= 100.0
  {
    if rs == [] then Err(ZeroDivision)
    else
      var scores := Scores(rs);
      var gee := GeeCount(rs);
      QualityCountsPartition(scores);
      PercentageBounds(gee, |rs|);
      Ok(Summary(
        Sum(seq(|rs|, i requires 0 <= i < |rs| => rs[i].areaM2)),
        PanelTotal(rs),
        Sum(seq(|rs|, i requires 0 <= i < |rs| => rs[i].panels.totalPowerKw)),
        Sum(seq(|rs|, i requires 0 <= i < |rs| => rs[i].energy.yearlyEnergy)),
        Sum(seq(|rs|, i requires 0 <= i < |rs| => rs[i].economics.monthlyBillReduction)),
        Mean(scores), PopStd(m, scores),
        gee, |rs| - gee, (gee as real / |rs| as real) * 100.0,
        CountAtLeast(scores, 70.0), CountBetween(scores, 40.0, 70.0), CountBelow(scores, 40.0)))
  }

  /** When each report mentions "GEE" exactly for a satellite record, the two counts agree. */
  lemma {:induction false} GeeCountMatches(rs: seq<RooftopReport>, irradiances: seq<ReportIrradiance>)
    requires |rs| == |irradiances|
    requires forall i :: 0 <= i < |rs| ==> (Contains(rs[i].dataSource, "GEE") <==> irradiances[i].satelliteDataUsed)
    ensures GeeCount(rs) == SatelliteCount(irradiances)
  {
    if rs != [] {
      var n := |rs| - 1;
      assert forall i :: 0 <= i < n ==> rs[..n][i] == rs[i] && irradiances[..n][i] == irradiances[i];
      GeeCountMatches(rs[..n], irradiances[..n]);
    }
  }

  /** The summary's GEE count is the number of rooftops analysed with satellite data. */
  lemma GeeCountIsSatelliteCount(m: MathLib, coordsList: seq<seq<Point>>,
                                 irradiances: seq<ReportIrradiance>, useSatelliteData: bool)
    requires |irradiances| == |coordsList|
    requires Collect(RooftopResults(m, coordsList, irradiances, useSatelliteData)).Ok?
    ensures GeeCount(Collect(RooftopResults(m, coordsList, irradiances, useSatelliteData)).value)
            == SatelliteCount(irradiances)
  {
    var results := RooftopResults(m, coordsList, irradiances, useSatelliteData);
    CollectEntries(results);
    var rs := Collect(results).value;
    forall i | 0 <= i < |rs|
      ensures Contains(rs[i].dataSource, "GEE") <==> irradiances[i].satelliteDataUsed
    {
      assert results[i] == RooftopReportOf(m, coordsList[i], irradiances[i], useSatelliteData);
    }
    GeeCountMatches(rs, irradiances);
  }

  /** `process_solar_analysis`'s report (without the time stamp and the fixed metadata). */
  datatype Report = Report(totalRooftops: nat, geeAvailable: bool, monthlyConsumption: real,
                           thailandOptimized: bool, analyses: seq<RooftopReport>, summary: Summary)

  /** The report over a list of rooftops: the first failing rooftop's error, the empty-list
      error, or the analyses with their summary. */
  function ReportOf(m: MathLib, coordsList: seq<seq<Point>>, irradiances: seq<ReportIrradiance>,
                    monthlyConsumption: real, useSatelliteData: bool, thailandOptimized: bool)
    : (r: Result<Report>)
    requires |irradiances| == |coordsList|
    ensures r.Ok? ==> r.value.totalRooftops == |r.value.analyses| == |coordsList|
  {
    var analyses := Collect(RooftopResults(m, coordsList, irradiances, useSatelliteData));
    if analyses.Err? then Err(analyses.error)
    else
      var summary := SummaryOf(m, analyses.value);
      if summary.Err? then Err(summary.error)
      else Ok(Report(|coordsList|, useSatelliteData, monthlyConsumption, thailandOptimized,
                     analyses.value, summary.value))
  }

  /** `process_solar_analysis`, with the loop over the rooftops. */
  method ProcessSolarAnalysis(m: MathLib, coordsList: seq<seq<Point>>, irradiances: seq<ReportIrradiance>,
                              monthlyConsumption: real, useSatelliteData: bool, thailandOptimized: bool)
    returns (r: Result<Report>)
    requires |irradiances| == |coordsList|
    ensures r == ReportOf(m, coordsList, irradiances, monthlyConsumption, useSatelliteData, thailandOptimized)
  {
    ghost var results := RooftopResults(m, coordsList, irradiances, useSatelliteData);
    var rooftopAnalyses: seq<RooftopReport> := [];
    var i := 0;
    while i < |coordsList|
      invariant 0 <= i <= |coordsList|
      invariant Collect(results[..i]) == Ok(rooftopAnalyses)
    {
      var analysis := RooftopReportOf(m, coordsList[i], irradiances[i], useSatelliteData);
      assert results[..i + 1][..i] == results[..i] && results[i] == analysis;
      if analysis.Err? {
        CollectEntries(results[..i]);
        assert forall j :: 0 <= j < i ==> results[..i][j] == results[j];
        CollectFirstError(results, i);
        return Err(analysis.error);
      }
      rooftopAnalyses := rooftopAnalyses + [analysis.value];
      i := i + 1;
    }
    assert results[..i] == results;
    var summary := SummaryOf(m, rooftopAnalyses);
    if summary.Err? {
      return Err(summary.error);
    }
    r := Ok(Report(|coordsList|, useSatelliteData, monthlyConsumption, thailandOptimized,
                   rooftopAnalyses, summary.value));
  }
}
