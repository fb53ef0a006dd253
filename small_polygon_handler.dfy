/** The ERA5 retrieval for polygons smaller than an ERA5 pixel: four strategies (adaptive
    buffering, multi-scale sampling, bilinear interpolation, nearest-pixel sampling) are tried in
    an order chosen from a preferred strategy, every attempt is logged, and the first strictly
    positive value wins. Earth Engine itself is an oracle: every remote reduction is a `Query`
    that yields a value, yields null, or raises. */
module SmallPolygonHandler {
  import opened Wrappers
  import opened Numeric
  import opened Polygon
  import opened EarthEngine

  /** ERA5 native resolution in metres, and the buffer cap. */
  const ERA5_RESOLUTION: int := 11132
  const MAX_BUFFER_DISTANCE: real := 15000.0

  /** `era5_native_resolution ** 2` and the quarter pixel that buffering aims for. */
  const PIXEL_AREA: real := (ERA5_RESOLUTION * ERA5_RESOLUTION) as real
  const TARGET_AREA: real := PIXEL_AREA * 0.25

  // ---------------------------------------------------------------- the oracle

  /** The nearest-pixel sample: a feature with properties (whose value may be null), no usable
      feature, or an exception. */
  datatype Sample = Properties(value: Option<real>) | NoProperties | SampleRaised

  datatype Reducer = MeanReducer | MedianReducer | ModeReducer
  {
    /** `reducer.getInfo()['type']` */
    function TypeName(): string
    {
      match this
      case MeanReducer => "mean"
      case MedianReducer => "median"
      case ModeReducer => "mode"
    }
  }

  /** Everything the strategies ask Earth Engine about one polygon and date range.
      `adaptive(d)` is the mean over the polygon buffered by d metres (the polygon itself for
      d = 0); `polygonArea` and `bufferedArea(d)` are `calculate_polygon_area`, which already
      turns a failure into 0.0. */
  datatype Dataset = Dataset(
    polygonArea: real,
    adaptive: real -> Query,
    bufferedArea: real -> real,
    multiScale: (int, Reducer) -> Query,
    interpolated: Query,
    nearest: Sample)

  // ---------------------------------------------------------------- strategies and the try-order

  datatype Strategy = AdaptiveBuffering | MultiScale | Interpolation | NearestNeighbor
  {
    /** The try-order tag, which is also what `method_used` reports. */
    function Tag(): string
    {
      match this
      case AdaptiveBuffering => "adaptive_buffering"
      case MultiScale => "multi_scale"
      case Interpolation => "interpolation"
      case NearestNeighbor => "nearest_neighbor"
    }

    /** The position in `CANONICAL`. */
    function Index(): (i: nat)
      ensures i < 4
    {
      match this
      case AdaptiveBuffering => 0
      case MultiScale => 1
      case Interpolation => 2
      case NearestNeighbor => 3
    }
  }

  /** The order `compare_methods` walks, and the order of the remaining strategies after the
      preferred one. */
  const CANONICAL: seq<Strategy> := [AdaptiveBuffering, MultiScale, Interpolation, NearestNeighbor]

  function Without(s: seq<Strategy>, x: Strategy): (r: seq<Strategy>)
    ensures forall y :: y in r <==> y in s && y != x
  {
    if s == [] then [] else (if s[0] == x then [] else [s[0]]) + Without(s[1..], x)
  }

  /** The strategy a preferred-method string selects; any unrecognised string selects nearest
      neighbour. */
  function Preferred(preferred: string): (s: Strategy)
    ensures s.Tag() == preferred <==>
      preferred in {"adaptive_buffering", "multi_scale", "interpolation", "nearest_neighbor"}
    ensures s.Tag() != preferred ==> s == NearestNeighbor
  {
    if preferred == "adaptive_buffering" then AdaptiveBuffering
    else if preferred == "multi_scale" then MultiScale
    else if preferred == "interpolation" then Interpolation
    else NearestNeighbor
  }

  /** `methods_to_try`, as the if/elif chain writes it out. */
  function TryOrder(preferred: string): (order: seq<Strategy>)
    ensures |order| == 4
  {
    if preferred == "adaptive_buffering" then [AdaptiveBuffering, MultiScale, Interpolation, NearestNeighbor]
    else if preferred == "multi_scale" then [MultiScale, AdaptiveBuffering, Interpolation, NearestNeighbor]
    else if preferred == "interpolation" then [Interpolation, AdaptiveBuffering, MultiScale, NearestNeighbor]
    else [NearestNeighbor, AdaptiveBuffering, MultiScale, Interpolation]
  }

  /** Whatever the preference, the try-order is the preferred strategy (nearest neighbour for
      an unrecognised string) followed by the other three in canonical order. */
  lemma TryOrderIsPreferredFirst(preferred: string)
    ensures TryOrder(preferred) == [Preferred(preferred)] + Without(CANONICAL, Preferred(preferred))
  {
    WithoutCanonical(Preferred(preferred));
  }

  /** The canonical order with one strategy taken out, written out. */
  lemma WithoutCanonical(p: Strategy)
    ensures Without(CANONICAL, p) == match p
      case AdaptiveBuffering => [MultiScale, Interpolation, NearestNeighbor]
      case MultiScale => [AdaptiveBuffering, Interpolation, NearestNeighbor]
      case Interpolation => [AdaptiveBuffering, MultiScale, NearestNeighbor]
      case NearestNeighbor => [AdaptiveBuffering, MultiScale, Interpolation]
  {
    var c := CANONICAL;
    assert c[p.Index()] == p;
    WithoutAt(c, p.Index());
    match p
    case AdaptiveBuffering =>
      assert c[..0] + c[1..] == [MultiScale, Interpolation, NearestNeighbor];
    case MultiScale =>
      assert c[..1] + c[2..] == [AdaptiveBuffering, Interpolation, NearestNeighbor];
    case Interpolation =>
      assert c[..2] + c[3..] == [AdaptiveBuffering, MultiScale, NearestNeighbor];
    case NearestNeighbor =>
      assert c[..3] + c[4..] == [AdaptiveBuffering, MultiScale, Interpolation];
  }

  /** Every strategy is tried, and none twice. */
  lemma TryOrderIsPermutation(preferred: string)
    ensures forall s: Strategy :: s in TryOrder(preferred)
    ensures forall i, j :: 0 <= i < j < 4 ==> TryOrder(preferred)[i] != TryOrder(preferred)[j]
  {
    var p := Preferred(preferred);
    TryOrderIsPreferredFirst(preferred);
    forall s: Strategy
      ensures s in TryOrder(preferred)
    {
      assert CANONICAL[s.Index()] == s;
      if s != p {
        assert s in Without(CANONICAL, p);
      }
    }
  }

  /** Removing the element at p from a list without duplicates leaves the rest in order. */
  lemma {:induction false} WithoutAt(s: seq<Strategy>, p: nat)
    requires p < |s|
    requires forall i, j :: 0 <= i < j < |s| ==> s[i] != s[j]
    ensures Without(s, s[p]) == s[..p] + s[p + 1..]
  {
    if p == 0 {
      WithoutAbsent(s[1..], s[0]);
    } else {
      WithoutAt(s[1..], p - 1);
      assert s[1..][p - 1] == s[p];
      assert s[..p] == [s[0]] + s[1..][..p - 1];
      assert s[p + 1..] == s[1..][p..];
    }
  }

  lemma {:induction false} WithoutAbsent(s: seq<Strategy>, x: Strategy)
    requires x !in s
    ensures Without(s, x) == s
  {
    if s != [] {
      WithoutAbsent(s[1..], x);
    }
  }

  // ---------------------------------------------------------------- the log entries

  datatype Validity = High | MediumHigh | Medium | NotApplicable
  {
    /** The `'scientific_validity'` string. */
    function Name(): string
    {
      match this
      case High => "High"
      case MediumHigh => "Medium-High"
      case Medium => "Medium"
      case NotApplicable => "N/A"
    }
  }

  datatype SampleStats = SampleStats(mean: real, std: real, min: real, max: real, count: nat, cv: real)

  /** One `method_info` dictionary. */
  datatype MethodInfo =
    | BufferedInfo(bufferDistance: real, originalArea: real, bufferedArea: real, result: Option<real>)
    | UnbufferedInfo(originalArea: real, result: Option<real>)
    | MultiScaleInfo(validValues: seq<real>)   // reports Stats(m, validValues)
    | InterpolationInfo(originalScale: int, interpolatedScale: int)
    | NearestInfo
    | FailedInfo(name: string)   // {'method': ..., 'status': 'failed', 'scientific_validity': 'N/A'}
    | RaisedInfo(name: string)   // {'method': <tag>, 'status': 'failed', 'error': ...}
  {
    /** The entry's `'method'` field. */
    function Method(): string
    {
      match this
      case BufferedInfo(_, _, _, _) => "adaptive_buffering"
      case UnbufferedInfo(_, _) => "no_buffering_needed"
      case MultiScaleInfo(_) => "multi_scale_sampling"
      case InterpolationInfo(_, _) => "spatial_interpolation"
      case NearestInfo => "nearest_neighbor_sampling"
      case FailedInfo(name) => name
      case RaisedInfo(name) => name
    }

    /** `entry.get('status') == 'failed'` */
    predicate Failed() { FailedInfo? || RaisedInfo? }

    function Validity(): Validity
    {
      match this
      case BufferedInfo(_, _, _, _) => High
      case UnbufferedInfo(_, _) => High
      case MultiScaleInfo(_) => High
      case InterpolationInfo(_, _) => MediumHigh
      case NearestInfo => Medium
      case FailedInfo(_) => NotApplicable
      case RaisedInfo(_) => NotApplicable
    }
  }

  /** What one strategy leaves behind: its log entry and the value it read (if any). */
  datatype Attempt = Attempt(info: MethodInfo, value: Option<real>)
  {
    /** The chain stops at a non-null, strictly positive value. */
    predicate Succeeded() { value.Some? && value.value > 0.0 }
  }

  // ---------------------------------------------------------------- strategy 1: adaptive buffering

  /** `calculate_optimal_buffer_distance`: no buffer once the polygon covers a quarter pixel,
      otherwise the radius of a circle covering the missing area, capped at 15 km. */
  function BufferDistance(m: MathLib, area: real): real
  {
    if area >= TARGET_AREA then 0.0
    else Min(m.sqrt((TARGET_AREA - area) / PI), MAX_BUFFER_DISTANCE)
  }

  /** The buffer is zero exactly when the polygon already covers a quarter pixel; otherwise it
      is positive; it never exceeds the cap. */
  lemma BufferDistanceRange(m: MathLib, area: real)
    requires m.SqrtExact()
    ensures 0.0 <= BufferDistance(m, area) <= MAX_BUFFER_DISTANCE
    ensures BufferDistance(m, area) == 0.0 <==> area >= TARGET_AREA
  {
    if area < TARGET_AREA {
      var x := (TARGET_AREA - area) / PI;
      assert m.sqrt(x) * m.sqrt(x) == x;
    }
  }

  /** For a real (non-negative) area the buffer stays below the cap: its square is at most a
      quarter pixel over pi (about 3140 m), so the 15 km cap never binds. */
  lemma BufferCapNeverBinds(m: MathLib, area: real)
    requires m.SqrtExact() && area >= 0.0
    ensures BufferDistance(m, area) * BufferDistance(m, area) <= TARGET_AREA / PI
    ensures BufferDistance(m, area) < MAX_BUFFER_DISTANCE
  {
    if area < TARGET_AREA {
      var x := (TARGET_AREA - area) / PI;
      var s := m.sqrt(x);
      assert x <= TARGET_AREA / PI < MAX_BUFFER_DISTANCE * MAX_BUFFER_DISTANCE;
      if s >= MAX_BUFFER_DISTANCE {
        MulLe(MAX_BUFFER_DISTANCE, s, MAX_BUFFER_DISTANCE);
        MulLe(MAX_BUFFER_DISTANCE, s, s);
        assert false;
      }
    }
  }

  /** A larger polygon never gets a larger buffer. */
  lemma BufferNonIncreasing(m: MathLib, a1: real, a2: real)
    requires m.SqrtExact() && a1 <= a2
    ensures BufferDistance(m, a2) <= BufferDistance(m, a1)
  {
    if a2 < TARGET_AREA {
      SqrtMonotone(m, (TARGET_AREA - a2) / PI, (TARGET_AREA - a1) / PI);
    }
  }

  /** `method_1_adaptive_buffering` followed by the mean reduction over the (buffered) geometry,
      whose exception is caught by the loop and logged under the tag. */
  function AdaptiveAttempt(ds: Dataset, m: MathLib, area: real): (a: Attempt)
  {
    var d := BufferDistance(m, area);
    var q := ds.adaptive(d);
    if q.Raised? then Attempt(RaisedInfo(AdaptiveBuffering.Tag()), None)
    else if d > 0.0 then Attempt(BufferedInfo(d, area, ds.bufferedArea(d), ValueOf(q)), ValueOf(q))
    else Attempt(UnbufferedInfo(area, ValueOf(q)), ValueOf(q))
  }

  // ---------------------------------------------------------------- strategy 2: multi-scale sampling

  /** `scales`: native, half and double resolution (`//` on positive ints). */
  const SCALES: seq<int> := [ERA5_RESOLUTION, ERA5_RESOLUTION / 2, ERA5_RESOLUTION * 2]
  const REDUCERS: seq<Reducer> := [MeanReducer, MedianReducer, ModeReducer]

  /** `f"scale_{scale}_reducer_{type}"` */
  datatype SampleKey = SampleKey(scale: int, reducer: Reducer)

  function Row(scale: int): seq<SampleKey>
  {
    [SampleKey(scale, REDUCERS[0]), SampleKey(scale, REDUCERS[1]), SampleKey(scale, REDUCERS[2])]
  }

  /** The keys in the order the nested loops visit them. */
  function Rows(scales: seq<int>): (keys: seq<SampleKey>)
    ensures |keys| == 3 * |scales|
  {
    if scales == [] then [] else Rows(scales[..|scales| - 1]) + Row(scales[|scales| - 1])
  }

  /** The `results` dictionary after visiting `keys`: one entry per query that did not raise,
      in insertion order. */
  function Recorded(ds: Dataset, keys: seq<SampleKey>): (r: seq<(SampleKey, Option<real>)>)
    ensures |r| <= |keys|
  {
    if keys == [] then []
    else
      var k := keys[|keys| - 1];
      var q := ds.multiScale(k.scale, k.reducer);
      Recorded(ds, keys[..|keys| - 1]) + (if q.Raised? then [] else [(k, ValueOf(q))])
  }

  /** The i-th recorded value is present and positive. */
  predicate PositiveAt(results: seq<(SampleKey, Option<real>)>, i: int)
    requires 0 <= i < |results|
  {
    results[i].1.Some? && results[i].1.value > 0.0
  }

  /** `[v for v in results.values() if v is not None and v > 0]` */
  function ValidValues(results: seq<(SampleKey, Option<real>)>): (vs: seq<real>)
    ensures |vs| <= |results|
    ensures forall i :: 0 <= i < |vs| ==> vs[i] > 0.0
  {
    if results == [] then []
    else
      var v := results[|results| - 1].1;
      ValidValues(results[..|results| - 1]) + (if v.Some? && v.value > 0.0 then [v.value] else [])
  }

  /** No value survives the filter exactly when no recorded value is present and positive. */
  lemma {:induction false} ValidValuesEmptyIff(results: seq<(SampleKey, Option<real>)>)
    ensures ValidValues(results) == [] <==> forall i :: 0 <= i < |results| ==> !PositiveAt(results, i)
  {
    if results != [] {
      var n := |results|;
      var init := results[..n - 1];
      ValidValuesEmptyIff(init);
      assert forall i :: 0 <= i < n - 1 ==> PositiveAt(init, i) == PositiveAt(results, i);
      var tail := if PositiveAt(results, n - 1) then [results[n - 1].1.value] else [];
      assert ValidValues(results) == ValidValues(init) + tail;
      assert ValidValues(results) == [] <==> ValidValues(init) == [] && tail == [];
    }
  }

  /** A recorded value is kept exactly when it is present and positive. */
  lemma {:induction false} ValidValuesComplete(results: seq<(SampleKey, Option<real>)>)
    ensures forall x :: x in ValidValues(results) <==>
      exists i :: 0 <= i < |results| && results[i].1 == Some(x) && x > 0.0
  {
    if results != [] {
      var init := results[..|results| - 1];
      ValidValuesComplete(init);
      forall x | x in ValidValues(results)
        ensures exists i :: 0 <= i < |results| && results[i].1 == Some(x) && x > 0.0
      {
        if x in ValidValues(init) {
          var i :| 0 <= i < |init| && init[i].1 == Some(x) && x > 0.0;
          assert results[i] == init[i];
        } else {
          assert results[|results| - 1].1 == Some(x);
        }
      }
      forall x | exists i :: 0 <= i < |results| && results[i].1 == Some(x) && x > 0.0
        ensures x in ValidValues(results)
      {
        var i :| 0 <= i < |results| && results[i].1 == Some(x) && x > 0.0;
        if i < |init| {
          assert init[i] == results[i];
        }
      }
    }
  }

  /** The statistics the multi-scale entry reports about the valid values: `np.mean`,
      `np.std`, `np.min`, `np.max`, the count and the coefficient of variation. */
  function Stats(m: MathLib, vs: seq<real>): (s: SampleStats)
    requires vs != [] && forall i :: 0 <= i < |vs| ==> vs[i] > 0.0
    ensures s.mean > 0.0 && s.count == |vs|
    ensures s.min <= s.mean <= s.max
  {
    MeanPositive(vs);
    MeanBounds(vs, SeqMin(vs), SeqMax(vs));
    var mean := Mean(vs);
    var std := PopStd(m, vs);
    SampleStats(mean, std, SeqMin(vs), SeqMax(vs), |vs|, if mean > 0.0 then std / mean else 0.0)
  }

  /** `method_2_multi_scale_sampling`: nine queries, the raised ones skipped; the mean of the
      positive values, or a failed entry and no value. */
  function MultiScaleAttempt(ds: Dataset, m: MathLib): Attempt
  {
    MultiScaleOutcome(m, Recorded(ds, Rows(SCALES)))
  }

  /** What the strategy reports once its `results` dictionary is filled. */
  function MultiScaleOutcome(m: MathLib, results: seq<(SampleKey, Option<real>)>): Attempt
  {
    var vs := ValidValues(results);
    if vs != [] then Attempt(MultiScaleInfo(vs), Some(Mean(vs)))
    else Attempt(FailedInfo("multi_scale_sampling"), None)
  }

  /** Nine keys are visited, so at most nine values are recorded. */
  lemma NineQueries(ds: Dataset)
    ensures |Rows(SCALES)| == 9 && |Recorded(ds, Rows(SCALES))| <= 9
  {
  }

  /** Multi-scale sampling stops the chain exactly when some recorded value is positive, and
      then reports the mean of the positive values. */
  lemma MultiScaleSucceedsIff(m: MathLib, results: seq<(SampleKey, Option<real>)>)
    ensures MultiScaleOutcome(m, results).Succeeded() <==>
      exists i :: 0 <= i < |results| && PositiveAt(results, i)
    ensures MultiScaleOutcome(m, results).Succeeded() ==>
      MultiScaleOutcome(m, results).value == Some(Mean(ValidValues(results)))
  {
    var vs := ValidValues(results);
    ValidValuesEmptyIff(results);
    if vs != [] {
      MeanPositive(vs);
    }
  }

  /** The nested loops of `method_2_multi_scale_sampling`, filling `results` in visiting
      order and skipping the queries that raise. */
  method MultiScaleSampling(ds: Dataset, m: MathLib) returns (a: Attempt)
    ensures a == MultiScaleAttempt(ds, m)
  {
    var results: seq<(SampleKey, Option<real>)> := [];
    var si := 0;
    while si < |SCALES|
      invariant 0 <= si <= |SCALES|
      invariant results == Recorded(ds, Rows(SCALES[..si]))
    {
      var scale := SCALES[si];
      var ri := 0;
      assert Rows(SCALES[..si]) + Row(scale)[..0] == Rows(SCALES[..si]);
      while ri < |REDUCERS|
        invariant 0 <= ri <= |REDUCERS|
        invariant results == Recorded(ds, Rows(SCALES[..si]) + Row(scale)[..ri])
      {
        var reducer := REDUCERS[ri];
        var q := ds.multiScale(scale, reducer);
        ghost var visited := Rows(SCALES[..si]) + Row(scale)[..ri];
        assert Rows(SCALES[..si]) + Row(scale)[..ri + 1] == visited + [SampleKey(scale, reducer)];
        assert (visited + [SampleKey(scale, reducer)])[..|visited|] == visited;
        if !q.Raised? {
          results := results + [(SampleKey(scale, reducer), ValueOf(q))];
        }
        ri := ri + 1;
      }
      assert Row(scale)[..3] == Row(scale);
      assert SCALES[..si + 1][..si] == SCALES[..si];
      si := si + 1;
    }
    assert SCALES[..3] == SCALES;
    assert results == Recorded(ds, Rows(SCALES));
    var vs := ValidValues(results);
    if vs != [] {
      a := Attempt(MultiScaleInfo(vs), Some(Mean(vs)));
    } else {
      a := Attempt(FailedInfo("multi_scale_sampling"), None);
    }
  }

  // ---------------------------------------------------------------- strategies 3 and 4

  /** `method_3_spatial_interpolation`: bilinear resampling sampled at a quarter of the native
      resolution; an exception gives a failed entry. */
  function InterpolationAttempt(ds: Dataset): Attempt
  {
    if ds.interpolated.Raised? then Attempt(FailedInfo("spatial_interpolation"), None)
    else Attempt(InterpolationInfo(ERA5_RESOLUTION, ERA5_RESOLUTION / 4), ValueOf(ds.interpolated))
  }

  /** `method_4_nearest_neighbor_sampling`: the sampled pixel's property, which may be null;
      no feature, or an exception, gives a failed entry. */
  function NearestAttempt(ds: Dataset): Attempt
  {
    match ds.nearest
    case Properties(v) => Attempt(NearestInfo, v)
    case NoProperties => Attempt(FailedInfo("nearest_neighbor_sampling"), None)
    case SampleRaised => Attempt(FailedInfo("nearest_neighbor_sampling"), None)
  }

  /** One pass of the loop body for strategy `s`. */
  function RunStrategy(ds: Dataset, m: MathLib, area: real, s: Strategy): Attempt
  {
    match s
    case AdaptiveBuffering => AdaptiveAttempt(ds, m, area)
    case MultiScale => MultiScaleAttempt(ds, m)
    case Interpolation => InterpolationAttempt(ds)
    case NearestNeighbor => NearestAttempt(ds)
  }

  method TryStrategy(ds: Dataset, m: MathLib, area: real, s: Strategy) returns (a: Attempt)
    ensures a == RunStrategy(ds, m, area, s)
  {
    match s
    case AdaptiveBuffering => a := AdaptiveAttempt(ds, m, area);
    case MultiScale => a := MultiScaleSampling(ds, m);
    case Interpolation => a := InterpolationAttempt(ds);
    case NearestNeighbor => a := NearestAttempt(ds);
  }

  // ---------------------------------------------------------------- the chain

  datatype Winner = Winner(strategy: Strategy, value: real, info: MethodInfo)

  /** The log and the winner (if any) of trying an order from the front. */
  datatype ChainOutcome = ChainOutcome(log: seq<MethodInfo>, winner: Option<Winner>)

  /** What each strategy of `order` yields against the oracle, in order. */
  function Attempts(ds: Dataset, m: MathLib, area: real, order: seq<Strategy>): (r: seq<Attempt>)
    ensures |r| == |order|
    ensures forall j :: 0 <= j < |order| ==> r[j] == RunStrategy(ds, m, area, order[j])
  {
    seq(|order|, j requires 0 <= j < |order| => RunStrategy(ds, m, area, order[j]))
  }

  /** The fallback loop as a state machine over the ordered strategies and what each yields:
      every attempt is logged, and the first success ends the run. */
  function RunChain(order: seq<Strategy>, attempts: seq<Attempt>): (out: ChainOutcome)
    requires |attempts| == |order|
    ensures out.winner.Some? ==> out.winner.value.value > 0.0
  {
    if order == [] then ChainOutcome([], None)
    else if attempts[0].Succeeded() then
      ChainOutcome([attempts[0].info], Some(Winner(order[0], attempts[0].value.value, attempts[0].info)))
    else
      var rest := RunChain(order[1..], attempts[1..]);
      ChainOutcome([attempts[0].info] + rest.log, rest.winner)
  }

  /** The chain halts at the first strategy that succeeds: the log holds one entry per strategy
      tried, the winner is the last one tried and every earlier one gave no positive value;
      without a winner every strategy was tried and none succeeded. */
  lemma {:induction false} ChainHaltsAtFirstSuccess(order: seq<Strategy>, attempts: seq<Attempt>)
    requires |attempts| == |order|
    ensures var out := RunChain(order, attempts);
      && |out.log| <= |order|
      && (forall j :: 0 <= j < |out.log| ==> out.log[j] == attempts[j].info)
      && (forall j :: 0 <= j < |out.log| - 1 ==> !attempts[j].Succeeded())
      && (out.winner.Some? ==>
            var k := |out.log| - 1;
            k >= 0 && attempts[k].Succeeded() &&
            out.winner.value == Winner(order[k], attempts[k].value.value, attempts[k].info))
      && (out.winner.None? ==>
            |out.log| == |order| && forall j :: 0 <= j < |order| ==> !attempts[j].Succeeded())
  {
    if order != [] {
      ChainHaltsAtFirstSuccess(order[1..], attempts[1..]);
    }
  }

  /** A winner exists exactly when some strategy in the order succeeds. */
  lemma ChainSucceedsIff(order: seq<Strategy>, attempts: seq<Attempt>)
    requires |attempts| == |order|
    ensures RunChain(order, attempts).winner.Some? <==>
      exists j :: 0 <= j < |order| && attempts[j].Succeeded()
  {
    ChainHaltsAtFirstSuccess(order, attempts);
    var out := RunChain(order, attempts);
    if out.winner.Some? {
      assert attempts[|out.log| - 1].Succeeded();
    }
  }

  // ---------------------------------------------------------------- records and recommendations

  const CHECK_COORDINATES := "Check polygon coordinates"
  const VERIFY_DATES := "Verify date range"
  const CHECK_AUTH := "Check GEE authentication"

  const VERY_SMALL := "Polygon is very small (<100 m\U{00B2}). Consider using a representative point instead."
  const BELOW_ONE_PERCENT := "Polygon is <1% of ERA5 pixel size. Results may not be spatially representative."
  const ALL_FAILED := "All methods failed. Check GEE authentication and data availability."
  const AVERAGE_NEARBY := "Consider using multiple nearby points and averaging results."
  const VALIDATE_GROUND := "Validate results against ground measurements if available."

  /** The result dictionary of `get_enhanced_era5_data`. */
  datatype Era5Result =
    | Retrieved(ghi: real, clearSkyGhi: real, cloudImpactFactor: real, diffuseFraction: real,
                dateRange: string, polygonArea: real, methodUsed: string, methodInfo: MethodInfo,
                allMethodsTried: seq<MethodInfo>, rawJ: real)
    | NoValidData(polygonArea: real, methodsTried: seq<MethodInfo>, recommendations: seq<string>)
    | RetrievalFailed(recommendations: seq<string>)
  {
    /** `result.get('success', False)` */
    predicate Success() { Retrieved? }
  }

  /** `create_polygon_geometry`: at least three vertices, and the ring is closed by repeating
      the first vertex unless it already ends there. */
  function CreatePolygonGeometry(coords: seq<Point>): (r: Result<seq<Point>>)
    ensures r.Err? <==> |coords| < 3
    ensures r.Ok? ==> r.value == Close(coords) && CyclicSum(coords) == PathSum(r.value)
  {
    if |coords| < 3 then Err(ValueError)
    else
      ClosedPathIsCyclic(coords);
      Ok(Close(coords))
  }

  /** `[r for r in method_results if r.get('status') == 'failed']` */
  function FailedEntries(log: seq<MethodInfo>): (r: seq<MethodInfo>)
    ensures |r| <= |log|
    ensures |r| == |log| <==> forall i :: 0 <= i < |log| ==> log[i].Failed()
  {
    if log == [] then []
    else
      var init := FailedEntries(log[..|log| - 1]);
      assert forall i :: 0 <= i < |log| - 1 ==> log[..|log| - 1][i] == log[i];
      init + (if log[|log| - 1].Failed() then [log[|log| - 1]] else [])
  }

  /** `_generate_recommendations`: the two size warnings, the all-failed line and the two
      generic lines, in that order. */
  function Recommendations(area: real, log: seq<MethodInfo>): (r: seq<string>)
    ensures VERY_SMALL in r <==> area < 100.0
    ensures BELOW_ONE_PERCENT in r <==> area < PIXEL_AREA * 0.01
    ensures ALL_FAILED in r <==> forall i :: 0 <= i < |log| ==> log[i].Failed()
    ensures |r| >= 2 && r[|r| - 2] == AVERAGE_NEARBY && r[|r| - 1] == VALIDATE_GROUND
  {
    (if area < 100.0 then [VERY_SMALL] else [])
    + (if area < PIXEL_AREA * 0.01 then [BELOW_ONE_PERCENT] else [])
    + (if |FailedEntries(log)| == |log| then [ALL_FAILED] else [])
    + [AVERAGE_NEARBY, VALIDATE_GROUND]
  }

  /** A polygon under 100 m² is also under 1% of a pixel, so the first warning never comes
      alone. */
  lemma VerySmallImpliesBelowOnePercent(area: real, log: seq<MethodInfo>)
    ensures VERY_SMALL in Recommendations(area, log) ==> BELOW_ONE_PERCENT in Recommendations(area, log)
  {
  }

  /** The success record: GHI in kWh/m²/day, a clear sky 25% above it, and the winner's tag as
      `method_used`; otherwise the failure record with its recommendations. */
  function Finish(out: ChainOutcome, area: real, startDate: string, endDate: string): Era5Result
    requires out.winner.Some? ==> out.winner.value.value > 0.0
  {
    match out.winner
    case Some(w) =>
      var ghi := w.value / JOULES_PER_KWH;
      var clear := ghi * 1.25;
      Retrieved(ghi, clear, ghi / clear, 0.3, startDate + " to " + endDate, area,
                w.strategy.Tag(), w.info, out.log, w.value)
    case None => NoValidData(area, out.log, Recommendations(area, out.log))
  }

  /** A success always reports a cloud factor of exactly 0.8 and a diffuse fraction of 0.3. */
  lemma FinishFacts(out: ChainOutcome, area: real, startDate: string, endDate: string)
    requires out.winner.Some? ==> out.winner.value.value > 0.0
    ensures var r := Finish(out, area, startDate, endDate);
      && (r.Retrieved? <==> out.winner.Some?)
      && (r.Retrieved? ==>
            && r.ghi == r.rawJ / 3600000.0 && r.ghi > 0.0
            && r.clearSkyGhi == 1.25 * r.ghi
            && r.cloudImpactFactor == 0.8
            && r.diffuseFraction == 0.3
            && r.methodUsed == out.winner.value.strategy.Tag()
            && r.allMethodsTried == out.log)
      && (r.NoValidData? ==> r.methodsTried == out.log && r.recommendations == Recommendations(area, out.log))
  {
    var r := Finish(out, area, startDate, endDate);
    if r.Retrieved? {
      var ghi := r.ghi;
      assert ghi > 0.0;
      calc {
        r.cloudImpactFactor;
      ==
        ghi / (ghi * 1.25);
      ==
        1.0 / 1.25;
      }
    }
  }

  /** `get_enhanced_era5_data` as a function of the oracle. */
  function Era5(ds: Dataset, m: MathLib, coords: seq<Point>, startDate: string, endDate: string, preferred: string): Era5Result
  {
    if CreatePolygonGeometry(coords).Err? then RetrievalFailed([CHECK_COORDINATES, VERIFY_DATES, CHECK_AUTH])
    else
      var order := TryOrder(preferred);
      Finish(RunChain(order, Attempts(ds, m, ds.polygonArea, order)), ds.polygonArea, startDate, endDate)
  }

  /** The retrieval loop: tries the strategies in order, appends every attempt's entry to the
      log and stops at the first positive value. */
  method RunStrategies(ds: Dataset, m: MathLib, area: real, methodsToTry: seq<Strategy>) returns (out: ChainOutcome)
    ensures out == RunChain(methodsToTry, Attempts(ds, m, area, methodsToTry))
  {
    ghost var attempts := Attempts(ds, m, area, methodsToTry);
    var log: seq<MethodInfo> := [];
    var i := 0;
    while i < |methodsToTry|
      invariant 0 <= i <= |methodsToTry|
      invariant RunChain(methodsToTry, attempts) ==
        var rest := RunChain(methodsToTry[i..], attempts[i..]); ChainOutcome(log + rest.log, rest.winner)
    {
      var a := TryStrategy(ds, m, area, methodsToTry[i]);
      assert a == attempts[i];
      log := log + [a.info];
      assert methodsToTry[i..][1..] == methodsToTry[i + 1..];
      assert attempts[i..][1..] == attempts[i + 1..];
      if a.Succeeded() {
        return ChainOutcome(log, Some(Winner(methodsToTry[i], a.value.value, a.info)));
      }
      i := i + 1;
    }
    assert log + [] == log;
    out := ChainOutcome(log, None);
  }

  /** `get_enhanced_era5_data`: the geometry check, the try-order of the preferred method, the
      retrieval loop and the record built from its outcome. */
  method GetEnhancedEra5Data(ds: Dataset, m: MathLib, coords: seq<Point>, startDate: string, endDate: string, preferred: string)
    returns (r: Era5Result)
    ensures r == Era5(ds, m, coords, startDate, endDate, preferred)
  {
    var geometry := CreatePolygonGeometry(coords);
    if geometry.Err? {
      return RetrievalFailed([CHECK_COORDINATES, VERIFY_DATES, CHECK_AUTH]);
    }
    var area := ds.polygonArea;
    var methodsToTry := TryOrder(preferred);
    var out := RunStrategies(ds, m, area, methodsToTry);
    r := Finish(out, area, startDate, endDate);
  }

  /** Too few vertices never escape as an exception: they give the failure record with the
      three fixed recommendations. */
  lemma ShortPolygonIsReportedNotRaised(ds: Dataset, m: MathLib, coords: seq<Point>, startDate: string, endDate: string, preferred: string)
    requires |coords| < 3
    ensures Era5(ds, m, coords, startDate, endDate, preferred) ==
      RetrievalFailed(["Check polygon coordinates", "Verify date range", "Check GEE authentication"])
  {
  }

  /** A success reports GHI = J / 3.6e6, clear sky = 1.25 GHI and a cloud factor of 0.8; its
      `method_used` is the try-order tag of the strategy that succeeded, which is the last one
      logged, and every strategy logged before it gave no positive value. */
  lemma SuccessRecordFacts(ds: Dataset, m: MathLib, coords: seq<Point>, startDate: string, endDate: string, preferred: string)
    ensures var r := Era5(ds, m, coords, startDate, endDate, preferred);
      var order := TryOrder(preferred);
      var attempts := Attempts(ds, m, ds.polygonArea, order);
      r.Retrieved? ==>
        && r.ghi == r.rawJ / 3600000.0 && r.ghi > 0.0
        && r.clearSkyGhi == 1.25 * r.ghi
        && r.cloudImpactFactor == 0.8
        && 1 <= |r.allMethodsTried| <= 4
        && r.methodUsed == order[|r.allMethodsTried| - 1].Tag()
        && r.methodInfo == r.allMethodsTried[|r.allMethodsTried| - 1]
        && attempts[|r.allMethodsTried| - 1].Succeeded()
        && (forall j :: 0 <= j < |r.allMethodsTried| - 1 ==> !attempts[j].Succeeded())
  {
    if |coords| >= 3 {
      var order := TryOrder(preferred);
      var attempts := Attempts(ds, m, ds.polygonArea, order);
      var out := RunChain(order, attempts);
      ChainHaltsAtFirstSuccess(order, attempts);
      FinishFacts(out, ds.polygonArea, startDate, endDate);
    }
  }

  /** Without a positive value from any strategy, all four were tried and logged, and the
      recommendations are generated from that log. */
  lemma NoValidDataFacts(ds: Dataset, m: MathLib, coords: seq<Point>, startDate: string, endDate: string, preferred: string)
    ensures var r := Era5(ds, m, coords, startDate, endDate, preferred);
      var attempts := Attempts(ds, m, ds.polygonArea, TryOrder(preferred));
      r.NoValidData? ==>
        && |r.methodsTried| == 4
        && (forall j :: 0 <= j < 4 ==> !attempts[j].Succeeded() && r.methodsTried[j] == attempts[j].info)
        && r.recommendations == Recommendations(ds.polygonArea, r.methodsTried)
  {
    if |coords| >= 3 {
      var order := TryOrder(preferred);
      var attempts := Attempts(ds, m, ds.polygonArea, order);
      ChainHaltsAtFirstSuccess(order, attempts);
      FinishFacts(RunChain(order, attempts), ds.polygonArea, startDate, endDate);
    }
  }

  /** Preferring adaptive buffering when only interpolation yields data: three attempts are
      logged and `method_used` is the tag 'interpolation', while the winning entry's own
      method name is 'spatial_interpolation'. */
  lemma OnlyInterpolationSucceeds(ds: Dataset, m: MathLib, coords: seq<Point>, startDate: string, endDate: string)
    requires |coords| >= 3
    requires !AdaptiveAttempt(ds, m, ds.polygonArea).Succeeded()
    requires !MultiScaleAttempt(ds, m).Succeeded()
    requires ds.interpolated.Value? && ds.interpolated.v > 0.0
    ensures var r := Era5(ds, m, coords, startDate, endDate, "adaptive_buffering");
      && r.Retrieved?
      && r.methodUsed == "interpolation"
      && r.methodInfo.Method() == "spatial_interpolation"
      && |r.allMethodsTried| == 3
  {
    var order := TryOrder("adaptive_buffering");
    var attempts := Attempts(ds, m, ds.polygonArea, order);
    assert order == [AdaptiveBuffering, MultiScale, Interpolation, NearestNeighbor];
    assert attempts[0] == AdaptiveAttempt(ds, m, ds.polygonArea);
    assert attempts[1] == MultiScaleAttempt(ds, m);
    assert attempts[2] == InterpolationAttempt(ds);
    assert attempts[2].Succeeded();
    ChainHaltsAtFirstSuccess(order, attempts);
    var out := RunChain(order, attempts);
    FinishFacts(out, ds.polygonArea, startDate, endDate);
    if out.winner.None? {
      assert false;
    }
    var k := |out.log| - 1;
    assert k != 0 && k != 1;
    assert k == 2;
  }

  // ---------------------------------------------------------------- comparing the preferences

  datatype Rating = HighConsistency | MediumConsistency | LowConsistency
  {
    function Name(): string
    {
      match this
      case HighConsistency => "High"
      case MediumConsistency => "Medium"
      case LowConsistency => "Low"
    }
  }

  datatype ConsistencyAnalysis =
    | Analysis(meanGhi: real, stdGhi: real, cv: real, minGhi: real, maxGhi: real, rangeGhi: real, rating: Rating)
    | InsufficientData

  /** The consistency analysis of the GHIs of the successful runs, rated by the coefficient of
      variation std/mean against 0.1 and 0.2. */
  function Consistency(m: MathLib, ghis: seq<real>): (c: ConsistencyAnalysis)
    requires forall i :: 0 <= i < |ghis| ==> ghis[i] > 0.0
    ensures c.Analysis? <==> |ghis| > 1
    ensures c.Analysis? ==> c.minGhi <= c.meanGhi <= c.maxGhi && c.rangeGhi >= 0.0
    ensures c.Analysis? ==> c.meanGhi == Mean(ghis) > 0.0 && c.stdGhi == PopStd(m, ghis)
    ensures c.Analysis? ==> c.cv == c.stdGhi / c.meanGhi && c.rating == RateCv(c.cv)
  {
    if |ghis| > 1 then
      MeanPositive(ghis);
      MeanBounds(ghis, SeqMin(ghis), SeqMax(ghis));
      var mean := Mean(ghis);
      var std := PopStd(m, ghis);
      var cv := std / mean;
      Analysis(mean, std, cv, SeqMin(ghis), SeqMax(ghis), SeqMax(ghis) - SeqMin(ghis),
               RateCv(cv))
    else InsufficientData
  }

  /** The consistency rating of a coefficient of variation: below 0.1 High, below 0.2 Medium,
      otherwise Low. */
  function RateCv(cv: real): (r: Rating)
    ensures r == HighConsistency <==> cv < 0.1
    ensures r == LowConsistency <==> cv >= 0.2
  {
    if cv < 0.1 then HighConsistency else if cv < 0.2 then MediumConsistency else LowConsistency
  }

  lemma CvBelowIff(m: MathLib, ghis: seq<real>, bound: real)
    requires m.SqrtExact() && ghis != [] && bound > 0.0
    requires forall i :: 0 <= i < |ghis| ==> ghis[i] > 0.0
    ensures Mean(ghis) > 0.0 && (PopStd(m, ghis) / Mean(ghis) < bound <==> PopVariance(ghis) < (bound * bound) * (Mean(ghis) * Mean(ghis)))
  {
    MeanPositive(ghis);
    var mean := Mean(ghis);
    var std := PopStd(m, ghis);
    SqrtLessIff(m, PopVariance(ghis), bound * mean);
    assert std / mean < bound <==> std < bound * mean;
    assert (bound * mean) * (bound * mean) == (bound * bound) * (mean * mean);
  }

  /** The rating restated without the square root: the variance against 1% and 4% of the
      squared mean. */
  function RateVariance(v: real, meanSquared: real): Rating
  {
    if v < 0.01 * meanSquared then HighConsistency
    else if v < 0.04 * meanSquared then MediumConsistency
    else LowConsistency
  }

  /** With an exact square root, rating std/mean against 0.1 and 0.2 is the same as rating the
      population variance against 0.01 and 0.04 times the squared mean. */
  lemma RatingByVariance(m: MathLib, ghis: seq<real>)
    requires m.SqrtExact() && ghis != []
    requires forall i :: 0 <= i < |ghis| ==> ghis[i] > 0.0
    ensures Mean(ghis) > 0.0
    ensures RateCv(PopStd(m, ghis) / Mean(ghis)) == RateVariance(PopVariance(ghis), Mean(ghis) * Mean(ghis))
  {
    CvBelowIff(m, ghis, 0.1);
    assert 0.1 * 0.1 == 0.01;
    CvBelowIff(m, ghis, 0.2);
    assert 0.2 * 0.2 == 0.04;
  }

  /** With two or more positive GHIs the rating is High exactly when the population variance is
      below 1% of the squared mean, and Low exactly when it is at least 4% of it. */
  lemma ConsistencyRatedByVariance(m: MathLib, ghis: seq<real>)
    requires m.SqrtExact() && |ghis| > 1
    requires forall i :: 0 <= i < |ghis| ==> ghis[i] > 0.0
    ensures Consistency(m, ghis).rating == HighConsistency <==>
      PopVariance(ghis) < 0.01 * (Mean(ghis) * Mean(ghis))
    ensures Consistency(m, ghis).rating == LowConsistency <==>
      PopVariance(ghis) >= 0.04 * (Mean(ghis) * Mean(ghis))
  {
    RatingByVariance(m, ghis);
  }

  const NO_METHOD_SUCCEEDED := "No methods succeeded. Check polygon size and location."
  const HIGH_RELIABLE := "High consistency between methods. Results are reliable."
  const HIGH_USE_ADAPTIVE := "Recommend using adaptive_buffering for best scientific validity."
  const MEDIUM_AVERAGE := "Medium consistency between methods. Consider averaging results."
  const LOW_INVESTIGATE := "Low consistency between methods. Investigate polygon characteristics."
  const LOW_GROUND_TRUTH := "Consider using ground truth data for validation."

  /** `_generate_method_recommendations` */
  function MethodRecommendations(succeeded: seq<string>, c: ConsistencyAnalysis): (r: seq<string>)
    ensures |succeeded| == 0 ==> r == [NO_METHOD_SUCCEEDED]
    ensures |succeeded| == 1 ==> r == ["Only " + succeeded[0] + " succeeded. Use this method but validate results."]
    ensures |succeeded| > 1 ==> |r| == (if c.Analysis? && c.rating == MediumConsistency then 1 else 2)
    ensures |succeeded| > 1 && c.Analysis? && c.rating == HighConsistency ==> r[0] == HIGH_RELIABLE
    ensures |succeeded| > 1 && !(c.Analysis? && c.rating in {HighConsistency, MediumConsistency}) ==> r[0] == LOW_INVESTIGATE
  {
    if |succeeded| == 0 then [NO_METHOD_SUCCEEDED]
    else if |succeeded| == 1 then ["Only " + succeeded[0] + " succeeded. Use this method but validate results."]
    else if c.Analysis? && c.rating == HighConsistency then [HIGH_RELIABLE, HIGH_USE_ADAPTIVE]
    else if c.Analysis? && c.rating == MediumConsistency then [MEDIUM_AVERAGE]
    else [LOW_INVESTIGATE, LOW_GROUND_TRUTH]
  }

  datatype Comparison = Comparison(
    individual: seq<(Strategy, Era5Result)>,
    consistency: ConsistencyAnalysis,
    recommendations: seq<string>)

  /** The tags of the successful runs, in `results` order. */
  function SucceededTags(runs: seq<(Strategy, Era5Result)>): (r: seq<string>)
    ensures |r| <= |runs|
  {
    if runs == [] then []
    else SucceededTags(runs[..|runs| - 1]) + (if runs[|runs| - 1].1.Success() then [runs[|runs| - 1].0.Tag()] else [])
  }

  /** `[r['ghi_kwh_per_m2_day'] for r in successful_results.values()]` */
  function SucceededGhis(runs: seq<(Strategy, Era5Result)>): (r: seq<real>)
    requires forall i :: 0 <= i < |runs| ==> runs[i].1.Retrieved? ==> runs[i].1.ghi > 0.0
    ensures |r| == |SucceededTags(runs)|
    ensures forall i :: 0 <= i < |r| ==> r[i] > 0.0
  {
    if runs == [] then []
    else SucceededGhis(runs[..|runs| - 1]) + (if runs[|runs| - 1].1.Success() then [runs[|runs| - 1].1.ghi] else [])
  }

  /** One entry of `results`: the strategy and the record of a run preferring it; a retrieved
      record always reports a positive GHI. */
  function Run(ds: Dataset, m: MathLib, coords: seq<Point>, startDate: string, endDate: string, s: Strategy)
    : (r: (Strategy, Era5Result))
    ensures r.0 == s
    ensures r.1.Retrieved? ==> r.1.ghi > 0.0
  {
    SuccessRecordFacts(ds, m, coords, startDate, endDate, s.Tag());
    (s, Era5(ds, m, coords, startDate, endDate, s.Tag()))
  }

  /** One pass of `compare_methods`' loop: the chain run with the strategy's tag preferred. */
  method RunPreferring(ds: Dataset, m: MathLib, coords: seq<Point>, startDate: string, endDate: string, strategy: Strategy)
    returns (run: (Strategy, Era5Result))
    ensures run == Run(ds, m, coords, startDate, endDate, strategy)
  {
    var r := GetEnhancedEra5Data(ds, m, coords, startDate, endDate, strategy.Tag());
    run := (strategy, r);
  }

  /** `compare_methods`: the whole chain once per preferred tag, in canonical order, then the
      consistency of the successful runs and the recommendations drawn from it. */
  method CompareMethods(ds: Dataset, m: MathLib, coords: seq<Point>, startDate: string, endDate: string)
    returns (c: Comparison)
    ensures |c.individual| == 4
    ensures forall i :: 0 <= i < 4 ==> c.individual[i] == Run(ds, m, coords, startDate, endDate, CANONICAL[i])
    ensures forall i :: 0 <= i < 4 ==> c.individual[i].1.Retrieved? ==> c.individual[i].1.ghi > 0.0
    ensures c.consistency == Consistency(m, SucceededGhis(c.individual))
    ensures c.recommendations == MethodRecommendations(SucceededTags(c.individual), c.consistency)
  {
    var results: seq<(Strategy, Era5Result)> := [];
    var i := 0;
    while i < |CANONICAL|
      invariant 0 <= i <= |CANONICAL|
      invariant |results| == i
      invariant forall j :: 0 <= j < i ==> results[j] == Run(ds, m, coords, startDate, endDate, CANONICAL[j])
    {
      var run := RunPreferring(ds, m, coords, startDate, endDate, CANONICAL[i]);
      results := results + [run];
      i := i + 1;
    }
    var ghis := SucceededGhis(results);
    var consistency := Consistency(m, ghis);
    c := Comparison(results, consistency, MethodRecommendations(SucceededTags(results), consistency));
  }
}
