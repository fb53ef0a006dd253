/** `EnhancedSolarRooftopSystem` (enhanced_solsat_system.py): runs the prediction engine over
    a list of rooftops, keeps the analyses in its `analysis_results` dict, picks a palette per
    rooftop and totals the stored analyses for the text report. The map rendering, the overlay
    images and the pop-up HTML are not part of this model. */
module SolsatSystem {
  import opened Wrappers
  import opened Numeric
  import opened Polygon
  import opened PredictionEngine

  /** An engine analysis with the `polygon_id` key the system adds. */
  datatype StoredAnalysis = StoredAnalysis(polygonId: int, analysis: RooftopAnalysis)

  // ---------------------------------------------------------------- a Python dict

  /** The value under key k of a dict kept as its (key, value) pairs in insertion order. */
  function Lookup<V>(d: seq<(int, V)>, k: int): Option<V>
  {
    if d == [] then None else if d[0].0 == k then Some(d[0].1) else Lookup(d[1..], k)
  }

  predicate DistinctKeys<V>(d: seq<(int, V)>)
  {
    forall i, j :: 0 <= i < j < |d| ==> d[i].0 != d[j].0
  }

  /** `d[k] = v`: an existing key keeps its place, a new key goes at the end. */
  function DictSet<V>(d: seq<(int, V)>, k: int, v: V): (r: seq<(int, V)>)
    ensures Lookup(r, k) == Some(v)
    ensures forall k' :: k' != k ==> Lookup(r, k') == Lookup(d, k')
    ensures forall e :: e in r ==> e in d || e == (k, v)
    ensures Lookup(d, k).None? ==> r == d + [(k, v)]
  {
    if d == [] then [(k, v)]
    else if d[0].0 == k then [(k, v)] + d[1..]
    else [d[0]] + DictSet(d[1..], k, v)
  }

  /** A key that is neither in the dictionary nor the one assigned is not in the result. */
  lemma {:induction false} DictSetAvoids<V>(d: seq<(int, V)>, k: int, v: V, x: int)
    requires x != k && forall i :: 0 <= i < |d| ==> d[i].0 != x
    ensures forall i :: 0 <= i < |DictSet(d, k, v)| ==> DictSet(d, k, v)[i].0 != x
  {
    if d != [] && d[0].0 != k {
      DictSetAvoids(d[1..], k, v, x);
    }
  }

  /** Assigning a key never makes two entries share a key. */
  lemma {:induction false} DictSetDistinct<V>(d: seq<(int, V)>, k: int, v: V)
    requires DistinctKeys(d)
    ensures DistinctKeys(DictSet(d, k, v))
  {
    if d != [] && d[0].0 == k {
      var r := DictSet(d, k, v);
      assert forall i :: 0 <= i < |r| ==> r[i].0 == d[i].0;
    } else if d != [] {
      assert DistinctKeys(d[1..]);
      DictSetDistinct(d[1..], k, v);
      DictSetAvoids(d[1..], k, v, d[0].0);
    }
  }

  /** `self.analysis_results[i] = analysis` for the analyses of rooftops 0, 1, ... in turn. */
  function StoreAll<V>(d: seq<(int, V)>, vs: seq<V>): seq<(int, V)>
  {
    if vs == [] then d else DictSet(StoreAll(d, vs[..|vs| - 1]), |vs| - 1, vs[|vs| - 1])
  }

  /** Storing the results keeps the keys distinct. */
  lemma {:induction false} StoreAllDistinct<V>(d: seq<(int, V)>, vs: seq<V>)
    requires DistinctKeys(d)
    ensures DistinctKeys(StoreAll(d, vs))
  {
    if vs != [] {
      StoreAllDistinct(d, vs[..|vs| - 1]);
      DictSetDistinct(StoreAll(d, vs[..|vs| - 1]), |vs| - 1, vs[|vs| - 1]);
    }
  }

  /** After storing, key i < |vs| holds vs[i] and every other key keeps its old value. */
  lemma {:induction false} StoreAllLookup<V>(d: seq<(int, V)>, vs: seq<V>, k: int)
    ensures Lookup(StoreAll(d, vs), k) == if 0 <= k < |vs| then Some(vs[k]) else Lookup(d, k)
  {
    if vs != [] {
      StoreAllLookup(d, vs[..|vs| - 1], k);
    }
  }

  /** Every stored pair was in the dict before or is one of the new values. */
  lemma {:induction false} StoreAllEntries<V>(d: seq<(int, V)>, vs: seq<V>)
    ensures forall e :: e in StoreAll(d, vs) ==> e in d || (0 <= e.0 < |vs| && e.1 == vs[e.0])
  {
    if vs != [] {
      var n := |vs| - 1;
      StoreAllEntries(d, vs[..n]);
    }
  }

  /** Storing an engine-made analysis keeps the keys distinct and every entry engine-made. */
  lemma DictSetKeepsCosted(d: seq<(int, StoredAnalysis)>, k: int, v: StoredAnalysis)
    requires DistinctKeys(d) && forall e :: e in d ==> EngineCosted(e.1)
    requires EngineCosted(v)
    ensures DistinctKeys(DictSet(d, k, v)) && forall e :: e in DictSet(d, k, v) ==> EngineCosted(e.1)
  {
    DictSetDistinct(d, k, v);
  }

  // ---------------------------------------------------------------- the report totals

  /** The running totals of `generate_report`. */
  datatype Totals = Totals(area: real, panels: int, yearlyEnergy: real, cost: real, savings: real)

  /** The totals over the stored analyses, in the dict's order. */
  function TotalsOf(d: seq<(int, StoredAnalysis)>): Totals
  {
    if d == [] then Totals(0.0, 0, 0.0, 0.0, 0.0)
    else
      var t := TotalsOf(d[..|d| - 1]);
      var a := d[|d| - 1].1.analysis;
      Totals(t.area + a.areaM2, t.panels + a.panels.panelCount, t.yearlyEnergy + a.energy.yearlyEnergy,
             t.cost + a.economics.totalSystemCost, t.savings + a.economics.monthlyBillReduction)
  }

  /** An analysis as the engine produces it: 900 $ of system per panel. */
  predicate EngineCosted(s: StoredAnalysis)
  {
    s.analysis.economics.totalSystemCost == 900.0 * s.analysis.panels.panelCount as real
  }

  /** When every stored analysis comes from the engine, the total cost is 900 $ per panel. */
  lemma {:induction false} TotalCostIsPanelPrice(d: seq<(int, StoredAnalysis)>)
    requires forall e :: e in d ==> EngineCosted(e.1)
    ensures TotalsOf(d).cost == 900.0 * TotalsOf(d).panels as real
  {
    if d != [] {
      var n := |d| - 1;
      assert forall e :: e in d[..n] ==> e in d;
      assert d[n] in d;
      TotalCostIsPanelPrice(d[..n]);
    }
  }

  const NO_DATA_MESSAGE: string := "No analysis data available. Please run the analysis first."

  /** What `generate_report` computes (the per-rooftop lines and the number formatting are
      left out). */
  datatype ReportSummary =
    | NoData(message: string)
    | Summary(totals: Totals, annualSavings: real, overallPayback: real)

  /** `generate_report`: the fixed message for an empty dict; otherwise the totals, and the
      overall payback, which divides by the annual savings. */
  function ReportSummaryOf(d: seq<(int, StoredAnalysis)>): (r: Result<ReportSummary>)
    ensures d == [] <==> r == Ok(NoData(NO_DATA_MESSAGE))
    ensures r.Err? <==> d != [] && TotalsOf(d).savings == 0.0
    ensures r.Err? ==> r.error == ZeroDivision
    ensures r.Ok? && r.value.Summary? ==>
      && r.value.totals == TotalsOf(d)
      && r.value.annualSavings == 12.0 * TotalsOf(d).savings
      && r.value.overallPayback * r.value.annualSavings == TotalsOf(d).cost
  {
    if d == [] then Ok(NoData(NO_DATA_MESSAGE))
    else
      var t := TotalsOf(d);
      if t.savings * 12.0 == 0.0 then Err(ZeroDivision)
      else Ok(Summary(t, t.savings * 12.0, t.cost / (t.savings * 12.0)))
  }

  // ---------------------------------------------------------------- the system

  /** `analyze_rooftop` of rooftop i, tagged with its index. */
  function StoredResults(m: MathLib, coordsList: seq<seq<Point>>, monthlyConsumption: real, dayOfYear: int)
    : (rs: seq<Result<StoredAnalysis>>)
    requires m.InverseRanges() && m.SinPositive()
    ensures |rs| == |coordsList|
    ensures forall i :: 0 <= i < |rs| && rs[i].Ok? ==> rs[i].value.polygonId == i && EngineCosted(rs[i].value)
  {
    seq(|coordsList|, i requires 0 <= i < |coordsList| =>
      var a := AnalyzeRooftop(m, coordsList[i], monthlyConsumption, dayOfYear);
      if a.Err? then Err(a.error) else Ok(StoredAnalysis(i, a.value)))
  }

  /** `analyze_all_rooftops` returns one result per rooftop, in order: result i carries
      polygon id i and is costed as the engine costs it. */
  lemma AnalyzedResults(m: MathLib, coordsList: seq<seq<Point>>, monthlyConsumption: real, dayOfYear: int)
    requires m.InverseRanges() && m.SinPositive()
    ensures var r := Collect(StoredResults(m, coordsList, monthlyConsumption, dayOfYear));
      r.Ok? ==> |r.value| == |coordsList| && forall i :: 0 <= i < |r.value| ==> r.value[i].polygonId == i && EngineCosted(r.value[i])
  {
    var rs := StoredResults(m, coordsList, monthlyConsumption, dayOfYear);
    CollectEntries(rs);
  }

  /** `get_optimized_palettes`: one palette per result; the minimum and maximum score of an
      empty list raise ValueError. */
  function OptimizedPalettes(results: seq<StoredAnalysis>): (r: Result<seq<(string, string)>>)
    ensures r.Err? <==> results == []
    ensures r.Err? ==> r.error == ValueError
    ensures r.Ok? ==> |r.value| == |results| && forall i :: 0 <= i < |results| ==> r.value[i] == ("#FF8C00", "#FFFFFF")
  {
    if results == [] then Err(ValueError)
    else
      var scores := seq(|results|, i requires 0 <= i < |results| => results[i].analysis.solarPotentialScore);
      var minScore, maxScore := SeqMin(scores), SeqMax(scores);
      Ok(seq(|results|, i requires 0 <= i < |results| =>
        PaletteForValue(results[i].analysis.solarPotentialScore, minScore, maxScore)))
  }

  class SolarRooftopSystem {
    /** `self.analysis_results`, in insertion order. */
    var analysisResults: seq<(int, StoredAnalysis)>

    /** Every key once, and every stored analysis as the engine made it. */
    predicate Valid()
      reads this
    {
      DistinctKeys(analysisResults) && forall e :: e in analysisResults ==> EngineCosted(e.1)
    }

    constructor()
      ensures Valid() && analysisResults == []
    {
      analysisResults := [];
    }

    /** `analyze_all_rooftops`: analyses every rooftop in order, storing analysis i under key
        i as it goes. The first rooftop that raises ends the call; the analyses stored before
        it stay in the dict. */
    method AnalyzeAllRooftops(m: MathLib, coordsList: seq<seq<Point>>, monthlyConsumption: real, dayOfYear: int)
      returns (r: Result<seq<StoredAnalysis>>)
      requires m.InverseRanges() && m.SinPositive()
      requires Valid()
      modifies this
      ensures Valid()
      ensures r == Collect(StoredResults(m, coordsList, monthlyConsumption, dayOfYear))
      ensures analysisResults
        == StoreAll(old(analysisResults), OkPrefix(StoredResults(m, coordsList, monthlyConsumption, dayOfYear)))
    {
      ghost var rs := StoredResults(m, coordsList, monthlyConsumption, dayOfYear);
      ghost var before := analysisResults;
      var results: seq<StoredAnalysis> := [];
      var i := 0;
      while i < |coordsList|
        invariant 0 <= i <= |coordsList|
        invariant Collect(rs[..i]) == Ok(results)
        invariant analysisResults == StoreAll(before, results)
        invariant Valid()
      {
        var analysis := AnalyzeRooftop(m, coordsList[i], monthlyConsumption, dayOfYear);
        CollectStep(rs, i, results);
        if analysis.Err? {
          assert rs[i] == Err(analysis.error);
          return Err(analysis.error);
        }
        var stored := StoredAnalysis(i, analysis.value);
        assert rs[i] == Ok(stored);
        DictSetKeepsCosted(analysisResults, i, stored);
        analysisResults := DictSet(analysisResults, i, stored);
        results := results + [stored];
        i := i + 1;
      }
      CollectDone(rs, results);
      r := Ok(results);
    }

    /** `get_optimized_palettes`, with its loop. */
    method GetOptimizedPalettes(results: seq<StoredAnalysis>) returns (r: Result<seq<(string, string)>>)
      ensures r == OptimizedPalettes(results)
    {
      if results == [] {
        return Err(ValueError);
      }
      var scores := seq(|results|, i requires 0 <= i < |results| => results[i].analysis.solarPotentialScore);
      var minScore, maxScore := SeqMin(scores), SeqMax(scores);
      var palettes: seq<(string, string)> := [];
      var i := 0;
      while i < |results|
        invariant 0 <= i <= |results|
        invariant palettes == seq(i, j requires 0 <= j < i =>
          PaletteForValue(results[j].analysis.solarPotentialScore, minScore, maxScore))
      {
        palettes := palettes + [PaletteForValue(results[i].analysis.solarPotentialScore, minScore, maxScore)];
        i := i + 1;
      }
      r := Ok(palettes);
    }

    /** `generate_report`, with its accumulating loop over the stored analyses. */
    method GenerateReport() returns (r: Result<ReportSummary>)
      ensures r == ReportSummaryOf(analysisResults)
    {
      if analysisResults == [] {
        return Ok(NoData(NO_DATA_MESSAGE));
      }
      var totalArea, totalPanels, totalYearlyEnergy, totalCost, totalSavings := 0.0, 0, 0.0, 0.0, 0.0;
      var i := 0;
      while i < |analysisResults|
        invariant 0 <= i <= |analysisResults|
        invariant Totals(totalArea, totalPanels, totalYearlyEnergy, totalCost, totalSavings)
                  == TotalsOf(analysisResults[..i])
      {
        var analysis := analysisResults[i].1.analysis;
        assert analysisResults[..i + 1][..i] == analysisResults[..i];
        totalArea := totalArea + analysis.areaM2;
        totalPanels := totalPanels + analysis.panels.panelCount;
        totalYearlyEnergy := totalYearlyEnergy + analysis.energy.yearlyEnergy;
        totalCost := totalCost + analysis.economics.totalSystemCost;
        totalSavings := totalSavings + analysis.economics.monthlyBillReduction;
        i := i + 1;
      }
      assert analysisResults[..i] == analysisResults;
      if totalSavings * 12.0 == 0.0 {
        return Err(ZeroDivision);
      }
      var totals := Totals(totalArea, totalPanels, totalYearlyEnergy, totalCost, totalSavings);
      r := Ok(Summary(totals, totalSavings * 12.0, totalCost / (totalSavings * 12.0)));
    }
  }

  /** In a valid system, the report's total cost is 900 $ per panel. */
  lemma ReportCostIsPanelPrice(s: SolarRooftopSystem)
    requires s.Valid()
    requires ReportSummaryOf(s.analysisResults).Ok? && ReportSummaryOf(s.analysisResults).value.Summary?
    ensures var t := ReportSummaryOf(s.analysisResults).value.totals; t.cost == 900.0 * t.panels as real
  {
    TotalCostIsPanelPrice(s.analysisResults);
  }
}
