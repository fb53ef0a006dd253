/** The original ERA5 retriever (`GEESolarDataRetriever`): the mean daily radiation over a
    polygon converted to kWh/m²/day, the weather summary with its defaults for missing bands,
    the twelve monthly fetches of one year with their annual average, and the comparison with
    a mock value. Each fetch is an oracle answer; an exception inside a fetch makes the whole
    call return `None`. */
module GeeSolarData {
  import opened Wrappers
  import opened Numeric
  import opened Text
  import opened EarthEngine

  // ---------------------------------------------------------------- get_solar_irradiance_data

  datatype Irradiance = Irradiance(
    ghi: real,                  // kWh/m²/day
    clearSkyGhi: real,
    diffuseFraction: real,
    cloudImpactFactor: real,
    dataSource: string,
    dateRange: string)

  /** `get_solar_irradiance_data` once the date range is fixed: a truthy radiation value (present
      and non-zero) is converted from J/m², anything else gives 0; clear sky is 20% above it. */
  function SolarIrradiance(raw: Query, startDate: string, endDate: string): (r: Option<Irradiance>)
    ensures r.None? <==> raw.Raised?
    ensures r.Some? ==> r.value.ghi == (if raw.Value? && raw.v != 0.0 then raw.v / JOULES_PER_KWH else 0.0)
    ensures r.Some? ==> r.value.clearSkyGhi == 1.2 * r.value.ghi && r.value.diffuseFraction == 0.3
    ensures r.Some? ==> r.value.cloudImpactFactor == r.value.ghi / Max(r.value.clearSkyGhi, 0.1)
    ensures r.Some? ==> r.value.dataSource == "ERA5" && r.value.dateRange == startDate + " to " + endDate
  {
    if raw.Raised? then None
    else
      var ghi := if raw.Value? && raw.v != 0.0 then raw.v / JOULES_PER_KWH else 0.0;
      var clear := ghi * 1.2;
      Some(Irradiance(ghi, clear, 0.3, ghi / Max(clear, 0.1), "ERA5", startDate + " to " + endDate))
  }

  /** For non-negative radiation the cloud impact factor never exceeds 1/1.2, and reaches it
      exactly once the clear-sky value is at least the 0.1 floor. */
  lemma CloudImpactBound(raw: Query, startDate: string, endDate: string)
    requires !raw.Raised?
    requires raw.Value? ==> raw.v >= 0.0
    ensures var d := SolarIrradiance(raw, startDate, endDate).value;
      && 0.0 <= d.cloudImpactFactor * 1.2 <= 1.0
      && (d.clearSkyGhi >= 0.1 ==> d.cloudImpactFactor * 1.2 == 1.0)
  {
    var d := SolarIrradiance(raw, startDate, endDate).value;
    var ghi := d.ghi;
    assert ghi >= 0.0;
    if d.clearSkyGhi >= 0.1 {
      assert d.cloudImpactFactor == ghi / (ghi * 1.2);
    } else {
      assert d.cloudImpactFactor == ghi / 0.1;
      assert ghi * 1.2 < 0.1;
    }
  }

  // ---------------------------------------------------------------- get_weather_data

  /** The three band means of a weather reduction (each possibly missing), or an exception. */
  datatype WeatherQuery =
    | WeatherValues(temperatureK: Option<real>, precipitationM: Option<real>, radiationJ: Option<real>)
    | WeatherRaised

  datatype Weather = Weather(
    averageTemperatureCelsius: real,
    totalPrecipitationMm: real,
    solarRadiationKwhPerM2: real,
    dataSource: string,
    dateRange: string)

  const KELVIN_OFFSET: real := 273.15
  const DEFAULT_TEMPERATURE_C: real := 25.0

  /** `get_weather_data` once the date range is fixed, with its defaults for missing bands. */
  function WeatherData(q: WeatherQuery, startDate: string, endDate: string): (r: Option<Weather>)
    ensures r.None? <==> q.WeatherRaised?
    ensures r.Some? && q.temperatureK.None? ==> r.value.averageTemperatureCelsius == DEFAULT_TEMPERATURE_C
    ensures r.Some? && q.precipitationM.None? ==> r.value.totalPrecipitationMm == 0.0
    ensures r.Some? && q.radiationJ.None? ==> r.value.solarRadiationKwhPerM2 == 0.0
  {
    if q.WeatherRaised? then None
    else
      var t := if q.temperatureK.Some? then q.temperatureK.value - KELVIN_OFFSET else DEFAULT_TEMPERATURE_C;
      var p := if q.precipitationM.Some? then q.precipitationM.value * 1000.0 else 0.0;
      var s := if q.radiationJ.Some? then q.radiationJ.value / JOULES_PER_KWH else 0.0;
      Some(Weather(t, p, s, "ERA5", startDate + " to " + endDate))
  }

  /** The missing-temperature default is what a reading of 298.15 K would give. */
  lemma DefaultTemperatureIsRoomTemperature(p: Option<real>, s: Option<real>, startDate: string, endDate: string)
    ensures WeatherData(WeatherValues(None, p, s), startDate, endDate).value.averageTemperatureCelsius
         == WeatherData(WeatherValues(Some(298.15), p, s), startDate, endDate).value.averageTemperatureCelsius
  {
  }

  /** The weather summary and the irradiance fetch convert the same radiation band identically,
      whether it is present, zero or missing. */
  lemma WeatherRadiationMatchesIrradiance(t: Option<real>, p: Option<real>, s: Option<real>, startDate: string, endDate: string)
    ensures WeatherData(WeatherValues(t, p, s), startDate, endDate).value.solarRadiationKwhPerM2
         == SolarIrradiance(if s.Some? then Value(s.value) else Null, startDate, endDate).value.ghi
  {
  }

  // ---------------------------------------------------------------- get_monthly_solar_data

  /** The `[start, end)` date strings of month m of year y: the first of the month and the first
      of the next month, December ending on 1 January of the next year. */
  function MonthRange(year: int, month: nat): (r: (string, string))
    requires 1 <= month <= 12
  {
    var start := IntToString(year) + "-" + Pad2(month) + "-01";
    var end := if month == 12 then IntToString(year + 1) + "-01-01"
               else IntToString(year) + "-" + Pad2(month + 1) + "-01";
    (start, end)
  }

  /** The twelve ranges tile the year and run on into the next: each ends where the next
      begins. */
  lemma MonthRangesAreConsecutive(year: int, month: nat)
    requires 1 <= month <= 12
    ensures month < 12 ==> MonthRange(year, month).1 == MonthRange(year, month + 1).0
    ensures month == 12 ==> MonthRange(year, month).1 == MonthRange(year + 1, 1).0
  {
    var y := IntToString(year);
    if month < 12 {
      assert MonthRange(year, month).1 == y + "-" + Pad2(month + 1) + "-01";
      assert MonthRange(year, month + 1).0 == y + "-" + Pad2(month + 1) + "-01";
    } else {
      var y1 := IntToString(year + 1);
      assert MonthRange(year, month).1 == y1 + "-01-01";
      assert Pad2(1) == "01";
      assert MonthRange(year + 1, 1).0 == y1 + "-" + Pad2(1) + "-01";
    }
  }

  /** The month of a range can be read back from its start string: characters after "YYYY-". */
  lemma MonthRangeNamesItsMonth(year: nat, month: nat)
    requires 1 <= month <= 12
    ensures var start := MonthRange(year, month).0;
      var k := |IntToString(year)|;
      |start| == k + 6 && ParseDigits(start[k + 1..k + 3]) == month
  {
    var start := MonthRange(year, month).0;
    var k := |IntToString(year)|;
    assert start[k + 1..k + 3] == Pad2(month);
    Pad2RoundTrip(month);
  }

  /** `f"month_{month:02d}"` */
  function MonthKey(month: nat): string
    requires 1 <= month <= 12
  {
    "month_" + Pad2(month)
  }

  /** The year a call uses: `year` unless it is falsy (None or 0), then last year. */
  function EffectiveYear(year: Option<int>, currentYear: int): int
  {
    if year.None? || year.value == 0 then currentYear - 1 else year.value
  }

  /** The `monthly_data` entries after months 1..k, in insertion order. `fetch(start, end)` is
      the radiation reduction for that date range. */
  function MonthEntries(fetch: (string, string) -> Query, year: int, k: nat): (r: seq<(string, Irradiance)>)
    requires k <= 12
    ensures |r| <= k
  {
    if k == 0 then []
    else
      var range := MonthRange(year, k);
      var d := SolarIrradiance(fetch(range.0, range.1), range.0, range.1);
      MonthEntries(fetch, year, k - 1) + (if d.Some? then [(MonthKey(k), d.value)] else [])
  }

  /** The GHIs that `if data.get('ghi_kwh_per_m2_day')` keeps: the non-zero ones. */
  function TruthyGhis(entries: seq<(string, Irradiance)>): (r: seq<real>)
    ensures |r| <= |entries|
    ensures forall i :: 0 <= i < |r| ==> r[i] != 0.0
  {
    if entries == [] then []
    else
      var g := entries[|entries| - 1].1.ghi;
      TruthyGhis(entries[..|entries| - 1]) + (if g != 0.0 then [g] else [])
  }

  /** `annual_average_ghi`: 0 without any month, otherwise `np.mean` of the truthy GHIs, which
      is NaN (here `None`) when every month that answered reported 0. */
  function AnnualAverage(entries: seq<(string, Irradiance)>): Option<real>
  {
    if entries == [] then Some(0.0)
    else
      var g := TruthyGhis(entries);
      if g == [] then None else Some(Mean(g))
  }

  datatype MonthlyData = MonthlyData(year: int, monthlyData: seq<(string, Irradiance)>, annualAverageGhi: Option<real>)

  /** `get_monthly_solar_data`: one fetch per month, keeping the months whose fetch did not
      fail, then their average. */
  method GetMonthlySolarData(fetch: (string, string) -> Query, year: Option<int>, currentYear: int)
    returns (r: MonthlyData)
    ensures r.year == EffectiveYear(year, currentYear)
    ensures r.monthlyData == MonthEntries(fetch, r.year, 12)
    ensures r.annualAverageGhi == AnnualAverage(r.monthlyData)
  {
    var y := EffectiveYear(year, currentYear);
    var monthly: seq<(string, Irradiance)> := [];
    var month := 1;
    while month < 13
      invariant 1 <= month <= 13
      invariant monthly == MonthEntries(fetch, y, month - 1)
    {
      var range := MonthRange(y, month);
      var monthData := SolarIrradiance(fetch(range.0, range.1), range.0, range.1);
      if monthData.Some? {
        monthly := monthly + [(MonthKey(month), monthData.value)];
      }
      month := month + 1;
    }
    var avg: Option<real>;
    if monthly == [] {
      avg := Some(0.0);
    } else {
      var ghis := TruthyGhis(monthly);
      avg := if ghis == [] then None else Some(Mean(ghis));
    }
    r := MonthlyData(y, monthly, avg);
  }

  /** The keys of a dict's entries, in insertion order. */
  function Keys<T>(entries: seq<(string, T)>): (r: seq<string>)
    ensures |r| == |entries|
  {
    if entries == [] then [] else Keys(entries[..|entries| - 1]) + [entries[|entries| - 1].0]
  }

  /** Inserting a new key appends it to the keys. */
  lemma KeysSnoc<T>(entries: seq<(string, T)>, key: string, v: T)
    ensures Keys(entries + [(key, v)]) == Keys(entries) + [key]
  {
    assert (entries + [(key, v)])[..|entries|] == entries;
  }

  /** `month_01`, ..., the keys of the first k months. */
  function MonthKeys(k: nat): (r: seq<string>)
    requires k <= 12
    ensures |r| == k
  {
    if k == 0 then [] else MonthKeys(k - 1) + [MonthKey(k)]
  }

  /** A month whose fetch does not raise adds its own key after the earlier months' keys. */
  lemma MonthEntriesStep(fetch: (string, string) -> Query, year: int, k: nat)
    requires 1 <= k <= 12
    requires !fetch(MonthRange(year, k).0, MonthRange(year, k).1).Raised?
    ensures Keys(MonthEntries(fetch, year, k)) == Keys(MonthEntries(fetch, year, k - 1)) + [MonthKey(k)]
  {
    var range := MonthRange(year, k);
    var raw := fetch(range.0, range.1);
    var d := SolarIrradiance(raw, range.0, range.1);
    var prev := MonthEntries(fetch, year, k - 1);
    assert MonthEntries(fetch, year, k) == prev + [(MonthKey(k), d.value)];
    KeysSnoc(prev, MonthKey(k), d.value);
  }

  /** When no fetch raises, every month appears once, under its own key, in calendar order. */
  lemma {:induction false} MonthEntriesKeys(fetch: (string, string) -> Query, year: int, k: nat)
    requires k <= 12
    requires forall m :: 1 <= m <= k ==> !fetch(MonthRange(year, m).0, MonthRange(year, m).1).Raised?
    ensures Keys(MonthEntries(fetch, year, k)) == MonthKeys(k)
  {
    if k > 0 {
      MonthEntriesKeys(fetch, year, k - 1);
      MonthEntriesStep(fetch, year, k);
    }
  }

  /** When every fetch raises there is no month and the average is 0. */
  lemma {:induction false} NoMonthFetched(fetch: (string, string) -> Query, year: int, k: nat)
    requires k <= 12
    requires forall m :: 1 <= m <= k ==> fetch(MonthRange(year, m).0, MonthRange(year, m).1).Raised?
    ensures MonthEntries(fetch, year, k) == []
    ensures AnnualAverage(MonthEntries(fetch, year, k)) == Some(0.0)
  {
    if k > 0 {
      NoMonthFetched(fetch, year, k - 1);
    }
  }

  /** Filtering keeps every bound the entries' GHIs satisfy. */
  lemma {:induction false} TruthyGhisBounds(entries: seq<(string, Irradiance)>, lo: real, hi: real)
    requires forall i :: 0 <= i < |entries| ==> lo <= entries[i].1.ghi <= hi
    ensures forall i :: 0 <= i < |TruthyGhis(entries)| ==> lo <= TruthyGhis(entries)[i] <= hi
  {
    if entries != [] {
      TruthyGhisBounds(entries[..|entries| - 1], lo, hi);
    }
  }

  /** The annual average lies between the lowest and the highest monthly GHI. */
  lemma AnnualAverageBounds(entries: seq<(string, Irradiance)>, lo: real, hi: real)
    requires forall i :: 0 <= i < |entries| ==> lo <= entries[i].1.ghi <= hi
    requires AnnualAverage(entries).Some? && entries != []
    ensures lo <= AnnualAverage(entries).value <= hi
  {
    TruthyGhisBounds(entries, lo, hi);
    MeanBounds(TruthyGhis(entries), lo, hi);
  }

  // ---------------------------------------------------------------- compare_with_mock_data

  datatype MockComparison = MockComparison(
    geeGhi: real,
    mockGhi: real,
    difference: real,
    percentageDifference: real,
    accuracyAssessment: string,
    dataQuality: string)

  /** `compare_with_mock_data` given the fetch result; `None` when the fetch failed. */
  function CompareWithMock(gee: Option<Irradiance>, mockGhi: real): (r: Option<MockComparison>)
    ensures r.None? <==> gee.None?
    ensures r.Some? ==> r.value.difference == gee.value.ghi - mockGhi
  {
    if gee.None? then None
    else
      var g := gee.value.ghi;
      var diff := g - mockGhi;
      Some(MockComparison(g, mockGhi, diff, diff / Max(mockGhi, 0.1) * 100.0,
                          if g > mockGhi then "GEE Higher" else "Mock Higher",
                          if Abs(diff) < 1.0 then "Good" else "Significant Difference"))
  }

  /** The percentage has the sign of the difference (its divisor is at least 0.1), the
      assessment says "GEE Higher" exactly when the difference is positive, and the quality is
      "Good" exactly when the two values are less than 1 kWh/m²/day apart. */
  lemma ComparisonAgreesWithDifference(gee: Irradiance, mockGhi: real)
    ensures var c := CompareWithMock(Some(gee), mockGhi).value;
      && (c.percentageDifference > 0.0 <==> c.difference > 0.0)
      && (c.percentageDifference == 0.0 <==> c.difference == 0.0)
      && (c.accuracyAssessment == "GEE Higher" <==> c.difference > 0.0)
      && (c.dataQuality == "Good" <==> -1.0 < c.difference < 1.0)
  {
    var c := CompareWithMock(Some(gee), mockGhi).value;
    var d := Max(mockGhi, 0.1);
    assert d > 0.0;
    assert c.percentageDifference == c.difference / d * 100.0;
    assert "GEE Higher" != "Mock Higher";
    assert "Good" != "Significant Difference";
  }
}
