# SolSat rooftop solar model in Dafny

SolSat estimates how much solar energy a building's roof in Thailand can collect. It takes the
roof outline as a polygon of longitude/latitude vertices. From the polygon it computes the roof
area and the solar irradiance at the site, either from ERA5 satellite reanalysis fetched through
Google Earth Engine or from a physical clear-sky model. From those it derives a panel layout, the
expected energy, the economics, a 0-100 solar-potential score and a colour palette for the map.
This project models that pipeline as Dafny definitions and proves what each step promises.

## Modules

| module | file | what it models |
|---|---|---|
| `Wrappers` | wrappers.dfy | `Option`, `Result` and the Python exceptions that escape (`ZeroDivisionError`, `IndexError`, `ValueError`, `TypeError`); collecting a list of per-item results |
| `Numeric` | numeric.dfy | Python's float `%` and `int()` truncation, sums, means and population variance, and the math library as a record of functions with the facts the proofs use |
| `Polygon` | polygon.dfy | the shoelace sums in their two loop forms, the invariances of the area, the centroid, the first strictly longest edge |
| `Text` | text.dfy | `str(n)` and the two-digit month format used in date strings |
| `EarthEngine` | earth_engine.dfy | one Earth Engine reduction as an oracle answer |
| `SmallPolygonHandler` | small_polygon_handler.dfy | the ERA5 fallback chain for polygons smaller than one ERA5 pixel |
| `RooftopCalculator` | rooftop_calculator.dfy | the Julian day, solar position, air mass, clear-sky and plane-of-array irradiance, shading, satellite substitution and the orientation search |
| `SolarSystem` | solar_system.dfy | the orchestrator `EnhancedSolarSystem`: location, irradiance fallback order, roof heuristics, energy and economics |
| `GeeSolarData` | gee_solar_data.dfy | the ERA5 retriever: unit conversions, defaults for missing bands, monthly fetches, comparison with a mock value |
| `ReportGenerator` | report_generator.dfy | the per-rooftop report and the multi-rooftop summary |
| `PredictionEngine` | prediction_engine.dfy | the simpler `SolarPredictionEngine` |
| `SolsatSystem` | solsat_system.dfy | `EnhancedSolarRooftopSystem`, which runs the engine over many rooftops and keeps the results |
| `Colors` | colors.dfy | `hex_to_rgb` and `interpolate_colors` |
| `Helpers` | helpers.dfy | `convert_numpy_types`, `validate_coordinates`, `calculate_polygon_area`, `format_energy` |

solar_prediction_engine.py and main/function/solar_prediction_engine.py are identical, and so are
poc_solsat_data_layer.py and main/function/compute_color/poc_solsat_data_layer.py. Each pair is
one module here, and the table below cites both copies across its rows. `EnhancedSolarRooftopSystem`
defines `hex_to_rgb` and `interpolate_colors` twice (lines 27-40 and 154-167), with the same
code; the later definition is the one Python keeps. `Colors` models that code.

## How the Python is represented

- An exception that reaches the caller is an `Err` value of a `Result`. A `None` return is an
  `Option`. A `try` that turns failures into a fallback record is a function that returns that
  record.
- Floats are `real`. Where Python's operators differ from Dafny's, the model spells them out:
  `Numeric.PyMod` is Python's float `%`, and `Numeric.Trunc` is `int()`, which truncates toward
  zero. A `numpy.uint8` cast of a float is modelled as truncation followed by reduction mod 256.
- `math.sin`, `cos`, `asin`, `acos`, `atan2`, `exp`, `sqrt` and `**` cannot be computed over the
  reals. They are fields of a `MathLib` record passed in as a parameter. Predicates on the record
  state the facts the proofs need: the bounds of sine and cosine, the ranges of the inverse
  functions, positivity of `exp`, and `sqrt` being exact. Each result therefore holds for any
  functions with those properties.
- Each Earth Engine reduction is an oracle answer, `Value(v) | Null | Raised`. The answers are
  parameters of the functions that use them.
- The calculation date, which the source takes from the clock, is a parameter.
- Classes whose methods change their fields are Dafny classes: `RooftopCalculator.Calculator`,
  `SolarSystem.EnhancedSolarSystem` and `SolsatSystem.SolarRooftopSystem`. Each loop in the source
  is a method with a loop. The method is proved equal to a specification function, and the
  properties are proved about that function.

## Consequences of the code as written

The following behaviour follows from the constants and control flow of the source. Each point
is stated and proved by the lemma named with it.

- The report generator's economics do not depend on the system's size. A system with at least
  one panel always earns 373.266 THB per kW a year, an ROI of 0.41474 % and a payback of
  90000 / 373.266 ≈ 241 years (`ReportGenerator.ReturnIsIndependentOfSize`). So the economic
  part of the score is always 0 (`ReportGenerator.EconomicPointsAreZero`).
- The report generator's energy ignores the measured irradiance
  (`ReportGenerator.EnergyIgnoresIrradiance`).
- A rooftop report never says adaptive buffering was used. The irradiance record it reads has no
  `method_used` key (`ReportGenerator.RooftopReportOf`).
- In the orchestrator, satellite use always ends up off. The module imports `GEESolarData`, but
  the retriever class is named `GEESolarDataRetriever`, so the import never succeeds
  (`SolarSystem.InitializeComponents`).
- The orchestrator's area uses the mean latitude of the closed ring. For an open ring that counts
  the first vertex twice (`SolarSystem.AreaLatitudeCountsFirstVertexTwice`).
- The monthly breakdown adds up to 347.95 times the daily energy, not 365 times
  (`SolarSystem.MonthlyBreakdownTotal`).
- In the small-polygon chain, interpolation reports the tag `interpolation` as its method,
  although its method description is named `spatial_interpolation`
  (`SmallPolygonHandler.OnlyInterpolationSucceeds`).
- The 15 km buffer cap is reached only for a negative area (`SmallPolygonHandler.BufferCapNeverBinds`).
- Satellite data in the rooftop calculator replaces only the GHI, DNI and DHI inputs. The
  plane-of-array transposition and shading still apply to them
  (`RooftopCalculator.Calculator.CalculateEnhancedIrradiance`).

## Model

| member | source | states |
|---|---|---|
| SmallPolygonHandler.Preferred | main/function/compute_attribute/enhanced_gee_small_polygon_handler.py:360-369 | the selected strategy carries the preferred tag exactly when the preference is one of adaptive_buffering, multi_scale, interpolation, nearest_neighbor; any other string selects nearest_neighbor |
| SmallPolygonHandler.TryOrder | main/function/compute_attribute/enhanced_gee_small_polygon_handler.py:360-369 | the try-order always has four entries |
| SmallPolygonHandler.TryOrderIsPreferredFirst | main/function/compute_attribute/enhanced_gee_small_polygon_handler.py:360-369 | the try-order is the preferred strategy followed by the other three in canonical order |
| SmallPolygonHandler.WithoutCanonical | main/function/compute_attribute/enhanced_gee_small_polygon_handler.py:360-369 | taking any one strategy out of the canonical order leaves the other three in their canonical order |
| SmallPolygonHandler.TryOrderIsPermutation | main/function/compute_attribute/enhanced_gee_small_polygon_handler.py:360-369 | every strategy occurs in the try-order and no strategy occurs twice |
| SmallPolygonHandler.BufferDistanceRange | main/function/compute_attribute/enhanced_gee_small_polygon_handler.py:125-149 | the buffer distance lies in [0, 15000] and is 0 exactly when the area reaches a quarter of an ERA5 pixel |
| SmallPolygonHandler.BufferCapNeverBinds | main/function/compute_attribute/enhanced_gee_small_polygon_handler.py:125-149 | for a non-negative area the squared distance is at most the target area over pi, so the 15 km cap is never reached |
| SmallPolygonHandler.BufferNonIncreasing | main/function/compute_attribute/enhanced_gee_small_polygon_handler.py:125-149 | a larger polygon never gets a larger buffer |
| SmallPolygonHandler.Rows | main/function/compute_attribute/enhanced_gee_small_polygon_handler.py:194-208 | multi-scale sampling issues three reducer queries per scale |
| SmallPolygonHandler.Recorded | main/function/compute_attribute/enhanced_gee_small_polygon_handler.py:206-226 | a query that raises is skipped, so at most one entry is recorded per query |
| SmallPolygonHandler.ValidValues | main/function/compute_attribute/enhanced_gee_small_polygon_handler.py:228-229 | only strictly positive values are kept |
| SmallPolygonHandler.ValidValuesEmptyIff | main/function/compute_attribute/enhanced_gee_small_polygon_handler.py:228-231 | no value is kept exactly when no recorded value is non-null and positive |
| SmallPolygonHandler.ValidValuesComplete | main/function/compute_attribute/enhanced_gee_small_polygon_handler.py:228-229 | a value is kept exactly when some recorded query returned it and it is positive |
| SmallPolygonHandler.Stats | main/function/compute_attribute/enhanced_gee_small_polygon_handler.py:231-241 | the statistics of the kept values have a positive mean between their minimum and maximum and count every value |
| SmallPolygonHandler.NineQueries | main/function/compute_attribute/enhanced_gee_small_polygon_handler.py:194-226 | three scales times three reducers give nine queries and at most nine recorded results |
| SmallPolygonHandler.MultiScaleSucceedsIff | main/function/compute_attribute/enhanced_gee_small_polygon_handler.py:228-245 | multi-scale succeeds exactly when some recorded value is positive, and then returns the mean of the kept values |
| SmallPolygonHandler.MultiScaleSampling | main/function/compute_attribute/enhanced_gee_small_polygon_handler.py:184-245 | the nested scale and reducer loops compute the multi-scale attempt |
| SmallPolygonHandler.TryStrategy | main/function/compute_attribute/enhanced_gee_small_polygon_handler.py:376-401 | one tried strategy yields that strategy's attempt, a raised query becoming a failed log entry |
| SmallPolygonHandler.Attempts | main/function/compute_attribute/enhanced_gee_small_polygon_handler.py:374-423 | one attempt per strategy of the try-order, in order |
| SmallPolygonHandler.RunChain | main/function/compute_attribute/enhanced_gee_small_polygon_handler.py:374-423 | a winner always carries a strictly positive value |
| SmallPolygonHandler.ChainHaltsAtFirstSuccess | main/function/compute_attribute/enhanced_gee_small_polygon_handler.py:374-423 | the log holds one entry per tried strategy; every strategy before the last logged one failed; the winner is the last logged strategy with its value; with no winner all four were tried and failed |
| SmallPolygonHandler.ChainSucceedsIff | main/function/compute_attribute/enhanced_gee_small_polygon_handler.py:374-423 | the chain has a winner exactly when some strategy yields a positive value |
| SmallPolygonHandler.CreatePolygonGeometry | main/function/compute_attribute/enhanced_gee_small_polygon_handler.py:103-115 | fewer than three vertices fail; otherwise the ring is closed and its path shoelace sum equals the cyclic sum of the input |
| SmallPolygonHandler.FailedEntries | main/function/compute_attribute/enhanced_gee_small_polygon_handler.py:477 | every log entry is kept exactly when every entry has status failed |
| SmallPolygonHandler.Recommendations | main/function/compute_attribute/enhanced_gee_small_polygon_handler.py:466-483 | the very-small line appears iff area < 100, the one-percent line iff area < 0.01 of a pixel, the all-failed line iff every entry failed, and the two generic lines come last |
| SmallPolygonHandler.VerySmallImpliesBelowOnePercent | main/function/compute_attribute/enhanced_gee_small_polygon_handler.py:469-473 | the very-small recommendation always comes with the one-percent recommendation |
| SmallPolygonHandler.FinishFacts | main/function/compute_attribute/enhanced_gee_small_polygon_handler.py:425-457 | a winner yields a success record with ghi = J/3,600,000 > 0, clear-sky 1.25 ghi, cloud factor 0.8, diffuse fraction 0.3, the try-order tag and the full log; otherwise a failure record with the log and its recommendations |
| SmallPolygonHandler.GetEnhancedEra5Data | main/function/compute_attribute/enhanced_gee_small_polygon_handler.py:326-464 | the loop over the try-order computes the retrieval result |
| SmallPolygonHandler.RunStrategies | main/function/compute_attribute/enhanced_gee_small_polygon_handler.py:373-423 | the loop logs every attempt in try-order and stops at the first positive value, so its outcome is the fallback chain's |
| SmallPolygonHandler.ShortPolygonIsReportedNotRaised | main/function/compute_attribute/enhanced_gee_small_polygon_handler.py:105-106 | fewer than three vertices give a failure record with the three fixed recommendations, not an exception |
| SmallPolygonHandler.SuccessRecordFacts | main/function/compute_attribute/enhanced_gee_small_polygon_handler.py:374-457 | on success the log has one to four entries, the method used is the try-order tag of the last one, which succeeded, and every earlier strategy failed |
| SmallPolygonHandler.NoValidDataFacts | main/function/compute_attribute/enhanced_gee_small_polygon_handler.py:450-457 | with no valid data all four strategies were tried and failed, the log holds their entries in order, and the recommendations are generated from it |
| SmallPolygonHandler.OnlyInterpolationSucceeds | main/function/compute_attribute/enhanced_gee_small_polygon_handler.py:396-443 | when only interpolation yields data, the method used is the tag interpolation while its info names spatial_interpolation, after three attempts |
| SmallPolygonHandler.Consistency | main/function/compute_attribute/enhanced_gee_small_polygon_handler.py:499-513 | a consistency analysis exists iff more than one run succeeded, with population mean, std, cv = std/mean and the cv-based rating |
| SmallPolygonHandler.RateCv | main/function/compute_attribute/enhanced_gee_small_polygon_handler.py:509 | High iff cv < 0.10 and Low iff cv >= 0.20 |
| SmallPolygonHandler.CvBelowIff | main/function/compute_attribute/enhanced_gee_small_polygon_handler.py:503-509 | std/mean < b holds exactly when the variance is below b squared times the squared mean |
| SmallPolygonHandler.RatingByVariance | main/function/compute_attribute/enhanced_gee_small_polygon_handler.py:509 | the cv-based rating equals the rating computed from variance and squared mean without a square root |
| SmallPolygonHandler.ConsistencyRatedByVariance | main/function/compute_attribute/enhanced_gee_small_polygon_handler.py:501-510 | for two or more positive GHIs the rating is High exactly when the variance is below 1% of the squared mean, and Low exactly when it is at least 4% of it |
| SmallPolygonHandler.MethodRecommendations | main/function/compute_attribute/enhanced_gee_small_polygon_handler.py:521-540 | no success gives one line; one success gives the line naming it; otherwise High gives two lines, Medium one, anything else two starting with the investigate line |
| SmallPolygonHandler.SucceededGhis | main/function/compute_attribute/enhanced_gee_small_polygon_handler.py:497-500 | one positive GHI per successful run |
| SmallPolygonHandler.Run | main/function/compute_attribute/enhanced_gee_small_polygon_handler.py:493-495 | each comparison run reruns the whole chain with that preference, and a success has a positive GHI |
| SmallPolygonHandler.CompareMethods | main/function/compute_attribute/enhanced_gee_small_polygon_handler.py:485-519 | four runs in canonical order, each the full chain, then the consistency analysis and recommendations of their successes |
| SmallPolygonHandler.RunPreferring | main/function/compute_attribute/enhanced_gee_small_polygon_handler.py:493-496 | one pass of the comparison loop is the full chain run with that strategy's tag preferred |
| RooftopCalculator.JulianDayEpoch | main/function/compute_attribute/enhanced_rooftop_calculator.py:88-93 | 2000-01-01 maps to 2451545, the epoch that solar_position_michalsky subtracts at line 110 |
| RooftopCalculator.JulianDayConsecutive | main/function/compute_attribute/enhanced_rooftop_calculator.py:88-93 | consecutive valid calendar days, including across month ends, February and year ends, map to consecutive day numbers |
| RooftopCalculator.SolarPositionMichalsky | main/function/compute_attribute/enhanced_rooftop_calculator.py:95-151 | zenith = 90 - elevation, azimuth in [0, 360), and the Julian day is returned unchanged |
| RooftopCalculator.SolarPositionRanges | main/function/compute_attribute/enhanced_rooftop_calculator.py:126-151 | elevation and declination lie in [-90, 90] and zenith in [0, 180] |
| RooftopCalculator.Extraterrestrial | main/function/compute_attribute/enhanced_rooftop_calculator.py:153-163 | the irradiance lies in [0.963813, 1.036407] times the solar constant 1361 |
| RooftopCalculator.ExtraterrestrialAtDayOne | main/function/compute_attribute/enhanced_rooftop_calculator.py:153-163 | day 1, the date clear-sky always uses, gives 1361 x 1.03505 (the clear-sky model calls it with day 1 at line 200) |
| RooftopCalculator.AirMass | main/function/compute_attribute/enhanced_rooftop_calculator.py:165-185 | zenith >= 90 gives exactly 40; otherwise the air mass is at least 1.0; a zero Kasten-Young denominator is the only error |
| RooftopCalculator.AirMassDefined | main/function/compute_attribute/enhanced_rooftop_calculator.py:176-185 | above the horizon the Kasten-Young denominator is positive, so the formula never divides by zero |
| RooftopCalculator.RayleighPolynomialPositive | main/function/compute_attribute/enhanced_rooftop_calculator.py:203-204 | for a non-negative air mass the Rayleigh polynomial is at least 117.2594 |
| RooftopCalculator.RayleighDepth | main/function/compute_attribute/enhanced_rooftop_calculator.py:203-204 | the Rayleigh optical depth is positive |
| RooftopCalculator.WaterVaporDepth | main/function/compute_attribute/enhanced_rooftop_calculator.py:207-208 | the water-vapour depth is non-negative |
| RooftopCalculator.OzoneDepth | main/function/compute_attribute/enhanced_rooftop_calculator.py:211-213 | the ozone depth is non-negative |
| RooftopCalculator.OpticalDepth | main/function/compute_attribute/enhanced_rooftop_calculator.py:203-219 | the total optical depth is positive for a non-negative aerosol depth |
| RooftopCalculator.Transmittance | main/function/compute_attribute/enhanced_rooftop_calculator.py:219 | the transmittance exp(-depth) lies in (0, 1] |
| RooftopCalculator.ClearSkyIrradiance | main/function/compute_attribute/enhanced_rooftop_calculator.py:187-236 | zenith >= 90 gives the all-zero record; every returned component is non-negative |
| RooftopCalculator.ClearComponents | main/function/compute_attribute/enhanced_rooftop_calculator.py:221-236 | the returned ghi, dni and dhi are clamped at 0 |
| RooftopCalculator.ClearComponentsUnclamped | main/function/compute_attribute/enhanced_rooftop_calculator.py:221-234 | with I0 > 0, T in (0, 1] and cos z >= 0 no clamp is active: dni = I0 T, dhi = I0 cos z (1 - T)/2, ghi = dni cos z + dhi |
| RooftopCalculator.ClearSkyPhysical | main/function/compute_attribute/enhanced_rooftop_calculator.py:196-234 | above the horizon clear-sky uses I0 of day 1 and the atmosphere's transmittance, with I0 > 0 and T in (0, 1] |
| RooftopCalculator.PoaComponents | main/function/compute_attribute/enhanced_rooftop_calculator.py:256-278 | every plane-of-array component is clamped at 0 and the incidence angle is reported |
| RooftopCalculator.PlaneOfArray | main/function/compute_attribute/enhanced_rooftop_calculator.py:238-278 | zenith >= 90 gives four zero components and no angle key; otherwise all components are non-negative |
| RooftopCalculator.PoaAngleRange | main/function/compute_attribute/enhanced_rooftop_calculator.py:277 | the angle of incidence lies in [0, 90] degrees because its cosine is clamped to [0, 1] before acos |
| RooftopCalculator.PoaComponentsUnclamped | main/function/compute_attribute/enhanced_rooftop_calculator.py:259-269 | for non-negative inputs direct = dni max(0, cos i), diffuse = dhi (1 + cos tilt)/2, reflected = ghi albedo (1 - cos tilt)/2 and global is their sum |
| RooftopCalculator.PoaHorizontalSurface | main/function/compute_attribute/enhanced_rooftop_calculator.py:252-278 | on a flat surface the incidence cosine is cos z |
| RooftopCalculator.FlatRoofReceivesGhi | main/function/compute_attribute/enhanced_rooftop_calculator.py:221-228 | a flat roof under the clear sky receives exactly the clear-sky GHI (through the plane-of-array sum at lines 259-269) |
| RooftopCalculator.RoofAzimuth | main/function/compute_attribute/enhanced_rooftop_calculator.py:291-303 | the roof azimuth lies in [0, 360) and stays 180 when no edge has positive length |
| RooftopCalculator.AzimuthDifference | main/function/compute_attribute/enhanced_rooftop_calculator.py:306-308 | the azimuth difference is the absolute difference or its complement to 360, in [0, 180] |
| RooftopCalculator.ShadingOf | main/function/compute_attribute/enhanced_rooftop_calculator.py:281-324 | a non-negative base factor gives a non-negative shading factor |
| RooftopCalculator.ShadingAt | main/function/compute_attribute/enhanced_rooftop_calculator.py:305-324 | for an outline of three or more points, the shading factor is never below the 70% floor |
| RooftopCalculator.ShadingProductBound | main/function/compute_attribute/enhanced_rooftop_calculator.py:310-320 | clamping the product of base, orientation and elevation factors gives a value in [0.7, max(0.7, base)] |
| RooftopCalculator.ShadingBounds | main/function/compute_attribute/enhanced_rooftop_calculator.py:288-324 | fewer than three vertices give only the base factor; otherwise the alignment is in [0, 180] and the factor in [0.7, max(0.7, base)] |
| RooftopCalculator.LongestEdgeAzimuth | main/function/compute_attribute/enhanced_rooftop_calculator.py:291-303 | the edge loop with its strict comparison computes the roof azimuth of the first longest edge |
| RooftopCalculator.FromDaily | main/function/compute_attribute/enhanced_rooftop_calculator.py:340-352 | a daily kWh total becomes ghi = daily x 1000/8 W/m², dni = 0.8 ghi, dhi = 0.2 ghi, quality High iff daily > 3 (the same conversion is repeated at lines 361-372) |
| RooftopCalculator.SatelliteIntegration | main/function/compute_attribute/enhanced_rooftop_calculator.py:326-378 | satellite data exists iff it is enabled and the enhanced handler succeeded or the original retriever gave a positive GHI; the source tag and daily total follow the branch taken |
| RooftopCalculator.SatelliteDataPositive | main/function/compute_attribute/enhanced_rooftop_calculator.py:337-373 | any satellite data the calculator uses has a positive daily total and GHI |
| RooftopCalculator.FinalPoa | main/function/compute_attribute/enhanced_rooftop_calculator.py:436-440 | the final irradiance is non-negative for non-negative factors and zero when the plane-of-array global is zero |
| RooftopCalculator.ClearSkyAt | main/function/compute_attribute/enhanced_rooftop_calculator.py:410-424 | the clear-sky model uses the air mass of the zenith and is below the horizon exactly when zenith >= 90 |
| RooftopCalculator.Horizontal | main/function/compute_attribute/enhanced_rooftop_calculator.py:403-426 | satellite data replaces ghi, dni and dhi, tagged Satellite_Enhanced; otherwise the clear-sky values are used, tagged Enhanced_Clear_Sky |
| RooftopCalculator.EnhancedIrradianceOf | main/function/compute_attribute/enhanced_rooftop_calculator.py:380-473 | daily energy = final x 8/1000; final and daily energy are non-negative for valid rooftop factors; zenith >= 90 gives zero energy and angle 0 |
| RooftopCalculator.EnhancedIrradianceSource | main/function/compute_attribute/enhanced_rooftop_calculator.py:380-448 | tilt and azimuth default from the rooftop parameters; satellite data only replaces the horizontal values and plane-of-array transposition and shading still apply |
| RooftopCalculator.Calculator.constructor | main/function/compute_attribute/enhanced_rooftop_calculator.py:45-86 | satellite use is on iff requested, Earth Engine is available and the retrievers start; the Thailand atmosphere and rooftop defaults are set |
| RooftopCalculator.Calculator.ShadingAnalysis | main/function/compute_attribute/enhanced_rooftop_calculator.py:281-324 | the method computes the shading record with the calculator's base shading factor |
| RooftopCalculator.Calculator.CalculateEnhancedIrradiance | main/function/compute_attribute/enhanced_rooftop_calculator.py:380-473 | the method computes the enhanced irradiance with the satellite integration's answer |
| RooftopCalculator.Calculator.OrientationEnergy | main/function/compute_attribute/enhanced_rooftop_calculator.py:493-500 | one grid point's annual energy is 365 times the summer-solstice daily energy |
| RooftopCalculator.GridPoint | main/function/compute_attribute/enhanced_rooftop_calculator.py:486-491 | grid point k has a tilt in 0..60 in steps of 5 and an azimuth in 90..270 in steps of 15 |
| RooftopCalculator.GridCovers | main/function/compute_attribute/enhanced_rooftop_calculator.py:486-491 | every tilt and azimuth of the two ranges is some grid point |
| RooftopCalculator.GridOrder | main/function/compute_attribute/enhanced_rooftop_calculator.py:490-491 | the grid runs tilt-major, then azimuth, in increasing order |
| RooftopCalculator.GridResults | main/function/compute_attribute/enhanced_rooftop_calculator.py:490-503 | the search produces 169 results |
| RooftopCalculator.GridResultsEntries | main/function/compute_attribute/enhanced_rooftop_calculator.py:490-503 | result k is grid point k with its annual energy |
| RooftopCalculator.GridPrefixDetermined | main/function/compute_attribute/enhanced_rooftop_calculator.py:490-503 | the results do not depend on which representation of the annual-energy function is used |
| RooftopCalculator.Improvement | main/function/compute_attribute/enhanced_rooftop_calculator.py:514-515 | the improvement is (best/(default tilt x 365) - 1) x 100, and a zero default tilt divides by zero |
| RooftopCalculator.OptimumIsBest | main/function/compute_attribute/enhanced_rooftop_calculator.py:480-516 | the best energy bounds every result; all-zero energies keep tilt 0 and azimuth 180; otherwise the optimum is the first result reaching the maximum |
| RooftopCalculator.ScanStep | main/function/compute_attribute/enhanced_rooftop_calculator.py:506-509 | one more result replaces the running best exactly when its energy is strictly larger, so the running best stays the first strict maximum |
| RooftopCalculator.Calculator.OptimizeRooftopOrientation | main/function/compute_attribute/enhanced_rooftop_calculator.py:475-518 | the nested tilt and azimuth loops compute the optimisation of the 169 grid results |
| RooftopCalculator.Calculator.ScanAzimuths | main/function/compute_attribute/enhanced_rooftop_calculator.py:491-509 | one pass of the inner loop appends the 13 azimuth results of one tilt in grid order and keeps the first strict maximum seen so far |
| SolarSystem.InitializeComponents | main/function/compute_attribute/main_solar_calculator.py:75-98 | satellite use always ends off because the GEESolarData import never binds; the calculator exists iff its module imports; the handler only with the calculator, its import and buffering requested; buffering stays on only when the handler exists and satellite use was not requested (the imports it depends on are at lines 31-36) |
| SolarSystem.PolygonArea | main/function/compute_attribute/main_solar_calculator.py:433-436 | fewer than three points give area 0 |
| SolarSystem.PolygonAreaShoelace | main/function/compute_attribute/main_solar_calculator.py:438-458 | from three points on, the area is the absolute cyclic shoelace sum over 2, times 111320, times 111320 cos(lat) with lat the mean latitude of the closed ring |
| SolarSystem.PolygonAreaClosed | main/function/compute_attribute/main_solar_calculator.py:438-440 | closing the ring beforehand does not change the area |
| SolarSystem.PolygonAreaNonNegative | main/function/compute_attribute/main_solar_calculator.py:433-458 | for latitudes in [-90, 90] the area is non-negative |
| SolarSystem.AreaLatitudeCountsFirstVertexTwice | main/function/compute_attribute/main_solar_calculator.py:439-440 | for an open ring the latitude used is the mean over the closed list, which counts the first vertex twice (the ring closed there is what the centroid at line 451 averages) |
| SolarSystem.CalculatePolygonArea | main/function/compute_attribute/main_solar_calculator.py:433-458 | the shoelace loop over the closed ring computes the polygon area |
| SolarSystem.EdgeOrientation | main/function/compute_attribute/main_solar_calculator.py:479-485 | an edge's solar azimuth lies in [0, 360) |
| SolarSystem.EdgeOrientationIsQuarterTurn | main/function/compute_attribute/main_solar_calculator.py:479-485 | an edge's solar azimuth is its bearing plus 90, reduced modulo 360 |
| SolarSystem.RoofOrientation | main/function/compute_attribute/main_solar_calculator.py:460-489 | the orientation lies in [0, 360) and is 180 for fewer than three points or when no edge has positive length |
| SolarSystem.RoofOrientationIsPerpendicular | main/function/compute_attribute/main_solar_calculator.py:460-489 | the orchestrator's roof orientation is the calculator's roof azimuth turned by 90 degrees (compare main/function/compute_attribute/enhanced_rooftop_calculator.py:291-303) |
| SolarSystem.EstimateRoofOrientation | main/function/compute_attribute/main_solar_calculator.py:460-489 | the edge loop with its strict comparison computes the roof orientation of the first longest edge |
| SolarSystem.OrientationScanStep | main/function/compute_attribute/main_solar_calculator.py:468-486 | one more edge replaces the best edge exactly when it is strictly longer than every earlier edge |
| SolarSystem.SouthDeviation | main/function/compute_attribute/main_solar_calculator.py:493-495 | for an azimuth in [0, 360) the deviation from south lies in [0, 180]; it is 0 exactly at 180, 540 or -180 |
| SolarSystem.OrientationShading | main/function/compute_attribute/main_solar_calculator.py:491-504 | the shading factor is 0.95 iff the deviation is at most 45, 0.70 iff it exceeds 90, and 0.85 otherwise |
| SolarSystem.OrientationShadingMonotone | main/function/compute_attribute/main_solar_calculator.py:491-504 | the shading factor never increases with the deviation from south |
| SolarSystem.OrientationScore | main/function/compute_attribute/main_solar_calculator.py:506-512 | the orientation score is at least 0.5, at most 1 for azimuths in [0, 360), and 1 exactly when facing south |
| SolarSystem.TiltScore | main/function/compute_attribute/main_solar_calculator.py:514-519 | the tilt score lies in [0.7, 1] and is 1 exactly when the tilt equals the absolute latitude |
| SolarSystem.OptimalTilt | main/function/compute_attribute/main_solar_calculator.py:278 | the optimal tilt is min(abs(lat), 30) |
| SolarSystem.OptimalTiltScore | main/function/compute_attribute/main_solar_calculator.py:514-519 | the optimal tilt scores 1 exactly when abs(lat) <= 30, otherwise max(0.7, 1 - (abs(lat) - 30)/45) (scoring the tilt chosen at line 278) |
| SolarSystem.RoofAnalysisOf | main/function/compute_attribute/main_solar_calculator.py:269-294 | the roof is Good iff its deviation from south is at most 45 (shading factor > 0.9), else Moderate; scores lie in their ranges; shading in [0.7, 0.95], soiling 0.98, spectral 1.02 |
| SolarSystem.AnalyzeRooftopCharacteristics | main/function/compute_attribute/main_solar_calculator.py:269-294 | the method computes the roof analysis |
| SolarSystem.BasicSolarCalculation | main/function/compute_attribute/main_solar_calculator.py:253-267 | the fallback is fixed: 4.5 kWh/m² a day, 562.5 W/m², no satellite data, basic_calculation, validity Low |
| SolarSystem.BufferedIrradiance | main/function/compute_attribute/main_solar_calculator.py:228-245 | a successful buffering retrieval becomes a record with the daily value, that value x 1000/24 W/m², satellite data used and the handler's method tag |
| SolarSystem.MonthlyBreakdown | main/function/compute_attribute/main_solar_calculator.py:521-541 | the breakdown has twelve entries |
| SolarSystem.DaysPerMonthTotal | main/function/compute_attribute/main_solar_calculator.py:538 | the month lengths sum to 365 |
| SolarSystem.MonthlyBreakdownTotal | main/function/compute_attribute/main_solar_calculator.py:521-541 | the twelve monthly values sum to 347.95 times the daily energy, not 365 times |
| SolarSystem.EnergyProduction | main/function/compute_attribute/main_solar_calculator.py:311-367 | annual = 365 x daily system energy, monthly = 30.44 x daily, usable area = 0.8 x area, and the breakdown sums to 347.95 x daily |
| SolarSystem.EnergyNonNegative | main/function/compute_attribute/main_solar_calculator.py:320-345 | non-negative inputs and losses at most 1 give non-negative energies |
| SolarSystem.EnergyProportionalToArea | main/function/compute_attribute/main_solar_calculator.py:331-339 | the daily system energy is proportional to the roof area |
| SolarSystem.EconomicsOf | main/function/compute_attribute/main_solar_calculator.py:377-419 | consumption 0 gives the error record with score 0; otherwise savings + excess = production, savings <= consumption, excess >= 0, annual savings = 54 x monthly savings, coverage and score <= 100, cost = 50 x annual energy, payback x max(savings, 1) = cost |
| SolarSystem.EconomicsCoverage | main/function/compute_attribute/main_solar_calculator.py:386-394 | coverage is 100 iff production covers consumption, else production/consumption x 100; excess is positive iff production exceeds consumption; a non-negative production gives a score in [20, 100] |
| SolarSystem.PotentialScoreBounds | main/function/compute_attribute/main_solar_calculator.py:395-396 | with a positive consumption and valid latitudes the overall score lies in [20, 100] (the score of the analysis at lines 127-201) |
| SolarSystem.EnhancedSolarSystem.constructor | main/function/compute_attribute/main_solar_calculator.py:52-73 | the switches and components are those of the initialisation, and an existing calculator holds the Thailand parameters |
| SolarSystem.EnhancedSolarSystem.SetupThailandParameters | main/function/compute_attribute/main_solar_calculator.py:100-125 | both parameter dictionaries end equal to the Thailand values and the satellite switch is unchanged |
| SolarSystem.EnhancedSolarSystem.IrradianceFor | main/function/compute_attribute/main_solar_calculator.py:215-251 | the calculator's record is taken whenever a calculator exists, since it has no success key; otherwise the basic fallback; the daily energy is never negative |
| SolarSystem.EnhancedSolarSystem.GetEnhancedIrradiance | main/function/compute_attribute/main_solar_calculator.py:215-251 | the method computes the irradiance record at the given location |
| SolarSystem.EnhancedSolarSystem.AnalyzeRooftopPotential | main/function/compute_attribute/main_solar_calculator.py:127-201 | the analysis is the record built from the irradiance at the centroid, with the system's adaptive-buffering and satellite flags in its methodology |
| SolarSystem.AnalyzeWithIrradiance | main/function/compute_attribute/main_solar_calculator.py:148-197 | once the irradiance is known, the area, roof analysis, energy, economics and methodology are those of the analysis record |
| GeeSolarData.SolarIrradiance | main/function/compute_attribute/gee_solar_data.py:78-139 | a raised query gives None; otherwise ghi = J/3,600,000 for a truthy value and 0 for a null or zero one, clear sky = 1.2 × ghi, diffuse fraction 0.3, cloud impact = ghi / max(clear sky, 0.1), source "ERA5" and date range "start to end" |
| GeeSolarData.CloudImpactBound | main/function/compute_attribute/gee_solar_data.py:121-133 | for a non-negative value 1.2 x cloud impact lies in [0, 1] and equals 1 once the clear-sky GHI reaches 0.1 |
| GeeSolarData.WeatherData | main/function/compute_attribute/gee_solar_data.py:141-196 | a raised query gives None; a missing temperature becomes 25.0 °C, missing precipitation and radiation become 0 |
| GeeSolarData.DefaultTemperatureIsRoomTemperature | main/function/compute_attribute/gee_solar_data.py:180-181 | the missing-temperature default equals a reading of 298.15 K |
| GeeSolarData.WeatherRadiationMatchesIrradiance | main/function/compute_attribute/gee_solar_data.py:186-187 | the weather record's radiation equals the irradiance record's GHI for the same raw value (the irradiance record converts the same value at lines 124-125) |
| GeeSolarData.MonthRangesAreConsecutive | main/function/compute_attribute/gee_solar_data.py:212-216 | each month's range ends where the next one starts, and December ends on January 1 of the next year |
| GeeSolarData.MonthRangeNamesItsMonth | main/function/compute_attribute/gee_solar_data.py:213 | the start date is the year, a dash, the month as two digits and -01 |
| GeeSolarData.MonthEntries | main/function/compute_attribute/gee_solar_data.py:210-224 | at most one entry per month fetched |
| GeeSolarData.TruthyGhis | main/function/compute_attribute/gee_solar_data.py:229-232 | only non-zero monthly GHIs are averaged |
| GeeSolarData.GetMonthlySolarData | main/function/compute_attribute/gee_solar_data.py:198-233 | the loop over the twelve months computes the year, the entries of the months that returned data, in order, and their annual average |
| GeeSolarData.MonthEntriesKeys | main/function/compute_attribute/gee_solar_data.py:210-224 | when no month's fetch fails there is one entry per month, keyed month_01, month_02, ... in order |
| GeeSolarData.MonthEntriesStep | main/function/compute_attribute/gee_solar_data.py:212-224 | a month whose fetch does not raise adds its own key after the keys of the earlier months |
| GeeSolarData.NoMonthFetched | main/function/compute_attribute/gee_solar_data.py:223-233 | when every fetch fails the dict is empty and the annual average is 0 |
| GeeSolarData.TruthyGhisBounds | main/function/compute_attribute/gee_solar_data.py:229-232 | the averaged values stay within any bounds of the monthly GHIs |
| GeeSolarData.AnnualAverageBounds | main/function/compute_attribute/gee_solar_data.py:228-233 | the annual average lies within any bounds of the monthly GHIs |
| GeeSolarData.CompareWithMock | main/function/compute_attribute/gee_solar_data.py:235-254 | no GEE data gives None; otherwise the difference is gee - mock |
| GeeSolarData.ComparisonAgreesWithDifference | main/function/compute_attribute/gee_solar_data.py:248-254 | the percentage has the sign of the difference; GEE Higher iff gee > mock; Good iff the absolute difference is below 1.0 |
| ReportGenerator.ReportArea | main/function/compute_attribute/enhanced_report_generator.py:88-102 | fewer than three vertices give area 0 |
| ReportGenerator.ReportAreaLatitude | main/function/compute_attribute/enhanced_report_generator.py:99-119 | the area is half the absolute shoelace sum times 111320 times the longitude scale at the mean latitude, taken over the ring without its closing copy when the ring is closed |
| ReportGenerator.ReportAreaNonNegative | main/function/compute_attribute/enhanced_report_generator.py:88-119 | for latitudes within [-90, 90] the reported area is never negative |
| ReportGenerator.CalculatePolygonAreaShoelace | main/function/compute_attribute/enhanced_report_generator.py:88-119 | the loop-computed area equals the closed-form area of the ring |
| ReportGenerator.PanelOptimization | main/function/compute_attribute/enhanced_report_generator.py:190-226 | a zero roof area raises ZeroDivision; otherwise the panel count is the truncated number of 2.23 m² panels in 75 % of the roof, panels fit in the usable area, and the coverage ratio lies in [0, 0.75] |
| ReportGenerator.ReportEnergyOf | main/function/compute_attribute/enhanced_report_generator.py:228-268 | daily energy is 0.7752 kWh per installed kW, monthly is 30.44 and yearly 365 days of it, and the irradiance factor is at most 1 |
| ReportGenerator.EnergyIgnoresIrradiance | main/function/compute_attribute/enhanced_report_generator.py:244-259 | daily and yearly energy do not depend on the measured irradiance |
| ReportGenerator.ReportEconomicsOf | main/function/compute_attribute/enhanced_report_generator.py:270-320 | a zero-power system raises ZeroDivision; otherwise installation is twice the equipment cost, maintenance 1 % of the total, payback times max(savings, 1) is the cost, ROI times cost is 100 times savings, and the bill reduction is 80 % of the monthly value |
| ReportGenerator.ReturnIsIndependentOfSize | main/function/compute_attribute/enhanced_report_generator.py:270-320 | for any system of at least one panel the savings are 373.266 THB per kW, the ROI is 0.41474 % and the payback 90000/373.266 years, whatever its size |
| ReportGenerator.EnergyScore | main/function/compute_attribute/enhanced_report_generator.py:335 | the energy points lie in [0, 40] and reach 40 exactly from 100000 kWh a year |
| ReportGenerator.EconomicScore | main/function/compute_attribute/enhanced_report_generator.py:338-341 | the economic points lie in [0, 30] |
| ReportGenerator.TechnicalScore | main/function/compute_attribute/enhanced_report_generator.py:343-345 | the technical points lie in [0, 20] and reach 20 exactly from 1000 W/m² |
| ReportGenerator.QualityScore | main/function/compute_attribute/enhanced_report_generator.py:347-354 | satellite data gives exactly 10 points; otherwise High, Medium and other validity give 8, 6 and 4 |
| ReportGenerator.SolarPotentialScore | main/function/compute_attribute/enhanced_report_generator.py:322-357 | the score lies in [0, 100] and for non-negative inputs is the sum of the four components |
| ReportGenerator.EconomicPointsAreZero | main/function/compute_attribute/enhanced_report_generator.py:338-341 | with the fixed economics every system of at least one panel earns no economic points |
| ReportGenerator.ScoreBand | main/function/compute_attribute/enhanced_report_generator.py:359-376 | the bands split the score at 80, 60 and 40, each band exactly its interval |
| ReportGenerator.ScoreBandMonotone | main/function/compute_attribute/enhanced_report_generator.py:359-376 | a higher score never gets a worse band |
| ReportGenerator.DataSourceTag | main/function/compute_attribute/enhanced_report_generator.py:408-411 | the data-source tag names GEE exactly when satellite data was used |
| ReportGenerator.RooftopReportOf | main/function/compute_attribute/enhanced_report_generator.py:378-439 | the rooftop fails with ZeroDivision exactly when no panel fits; otherwise its area is the polygon area, its score lies in [0, 100], its palette is the score band's, its tag names GEE exactly when satellite data was used, and adaptive buffering is never reported |
| ReportGenerator.RooftopResults | main/function/compute_attribute/enhanced_report_generator.py:467-471 | one result per rooftop |
| ReportGenerator.QualityCountsPartition | main/function/compute_attribute/enhanced_report_generator.py:505-509 | high, medium and low quality counts add up to the number of rooftops |
| ReportGenerator.SummaryOf | main/function/compute_attribute/enhanced_report_generator.py:473-510 | an empty analysis list raises ZeroDivision; otherwise GEE and enhanced counts and the three quality counts each partition the rooftops and the GEE percentage lies in [0, 100] |
| ReportGenerator.GeeCountMatches | main/function/compute_attribute/enhanced_report_generator.py:485-486 | the GEE-tagged count equals the number of irradiance records that used satellite data |
| ReportGenerator.GeeCountIsSatelliteCount | main/function/compute_attribute/enhanced_report_generator.py:467-486 | after a successful run the summary's GEE count is the number of satellite-backed irradiance records |
| ReportGenerator.ReportOf | main/function/compute_attribute/enhanced_report_generator.py:441-546 | a successful report lists one analysis per rooftop and counts them all |
| ReportGenerator.ProcessSolarAnalysis | main/function/compute_attribute/enhanced_report_generator.py:441-546 | the loop-built report equals the functional report |
| PredictionEngine.SolarIrradiance | solar_prediction_engine.py:40-79 | GHI and DNI are never negative; with the sun at or below the horizon at noon the air mass, DNI and GHI are all 0; the seasonal factor lies in [0.9, 1.1]; with the sun up the air mass is at least 1 and DNI lies in (0, 900] |
| PredictionEngine.AirMassAtLeastOne | solar_prediction_engine.py:61 | the reciprocal of a sine in (0, 1] is at least 1, so the air mass of a risen sun is at least 1 |
| PredictionEngine.IrradianceIgnoresLongitude | main/function/solar_prediction_engine.py:40-79 | the irradiance record is the same for every longitude at a given latitude and day |
| PredictionEngine.RoofAreaInDegrees | solar_prediction_engine.py:81-95 | the roof area is 111320 · 110540 times half the absolute cyclic shoelace sum of the degree coordinates, never negative, and 0 below three vertices |
| PredictionEngine.PathSumInMetres | solar_prediction_engine.py:86-93 | the shoelace terms over vertices scaled to metres add up to the sum in square degrees times 111320 · 110540 |
| PredictionEngine.CyclicSumInMetres | main/function/solar_prediction_engine.py:86-95 | with the wrap-around edge included, the metre sum is still the degree sum times 111320 · 110540 |
| PredictionEngine.RoofAreaClosedCopy | solar_prediction_engine.py:81-95 | repeating the first vertex at the end does not change the area |
| PredictionEngine.RoofAreaRotate | main/function/solar_prediction_engine.py:81-95 | starting the ring at its second vertex (one rotation step) does not change the area |
| PredictionEngine.RoofAreaReverse | main/function/solar_prediction_engine.py:81-95 | walking the ring the other way does not change the area |
| PredictionEngine.CalculateRoofArea | solar_prediction_engine.py:81-95 | the loop over the vertices computes exactly the closed-form roof area |
| PredictionEngine.OptimizePanelPlacement | solar_prediction_engine.py:97-118 | a zero roof area raises ZeroDivision; otherwise power is 0.4 kW per panel, the panel count is 90 % of the panels that fit, never above them, panels cover at most 90 % of the usable area and the coverage ratio lies in [0, 0.9 · usable factor] |
| PredictionEngine.CoverageBound | main/function/solar_prediction_engine.py:103-117 | the spacing reduction keeps the panel count between 0 and the number that fits and bounds the coverage ratio |
| PredictionEngine.EnergyProduction | solar_prediction_engine.py:120-144 | at 25 °C there is no derating and efficiency is 0.17; daily energy is 0.00187 kWh per panel per W/m² scaled by the temperature factor; monthly is 30 and yearly 365 days of it |
| PredictionEngine.EnergyLinear | main/function/solar_prediction_engine.py:120-144 | daily energy is additive in the panel count and in the irradiance |
| PredictionEngine.BillReduction | solar_prediction_engine.py:166-174 | the monthly bill reduction never exceeds the full retail value of the production, equals it when production does not exceed consumption, and is not negative for non-negative inputs |
| PredictionEngine.EconomicAnalysis | solar_prediction_engine.py:146-190 | zero panels raise ZeroDivision; otherwise the system costs 900 per panel, savings are the energy value less 1 % maintenance, payback is infinite exactly when savings are not positive and otherwise times savings gives the cost, ROI times cost is 100 times savings, and the bill reduction never exceeds the monthly energy value |
| PredictionEngine.PaletteForValue | solar_prediction_engine.py:192-197 | every value gets the orange-to-white palette |
| PredictionEngine.AnalyzeRooftop | solar_prediction_engine.py:199-244 | an empty polygon raises IndexError and a roof where no panel fits raises ZeroDivision, and only those; otherwise the area is the roof area, the irradiance is taken at the first vertex, the score is GHI / 12 and non-negative, efficiency is 0.17 and the system costs 900 per panel |
| Colors.HexDigitChar | poc_solsat_data_layer.py:13 | the digit written for a value in [0, 16) is a hexadecimal digit that reads back as that value |
| Colors.ParseHex | poc_solsat_data_layer.py:13 | base-16 parsing of a two-character slice fails only with ValueError, fails on the empty slice, and reads two hexadecimal digits as 16 times the first plus the second |
| Colors.StripHashes | poc_solsat_data_layer.py:12 | stripping leading '#' characters leaves no '#' at the front |
| Colors.HexToRgb | enhanced_solsat_system.py:154-156 | conversion fails only with ValueError, always fails when at most four characters remain after the '#', and yields three channels in [0, 255] when six hexadecimal digits follow |
| Colors.HexToRgbRoundTrip | main/function/compute_color/poc_solsat_data_layer.py:11-13 | reading back the '#rrggbb' text of any byte colour yields that colour |
| Colors.HexByteRoundTrip | main/function/compute_color/poc_solsat_data_layer.py:11-13 | reading the two hex digits of a byte back as a base-16 integer gives the byte |
| Colors.Ratio | poc_solsat_data_layer.py:21 | each linspace ratio lies in [0, 1], the first is 0 and the last of two or more is 1 |
| Colors.CastUint8 | poc_solsat_data_layer.py:22 | the uint8 cast always yields a byte and truncates values already in [0, 256) |
| Colors.InterpolateColors | enhanced_solsat_system.py:158-167 | interpolation fails with ValueError exactly when either colour text is malformed or the row count is negative, and otherwise yields one row per requested step |
| Colors.BlendChannelBetween | poc_solsat_data_layer.py:22 | a blended channel lies between its two end channels |
| Colors.BlendChannelEnds | main/function/compute_color/poc_solsat_data_layer.py:22 | ratio 0 gives the start channel and ratio 1 the end channel |
| Colors.InterpolateColorsRows | poc_solsat_data_layer.py:15-22 | for byte colours the first row is the start colour, the last of two or more is the end colour, and every channel of every row lies between the end channels |
| Helpers.Convert | src/utils/helpers.py:9-26 | native and other values pass through unchanged; a numpy value converts to its single element or fails with ValueError; lists and dicts keep their length and dict keys |
| Helpers.ConvertShape | src/utils/helpers.py:19-26 | conversion succeeds exactly on values whose numpy parts are all single-element, and converts each list item and dict value to the matching converted element |
| Helpers.ConvertRemovesNumpy | src/utils/helpers.py:9-26 | a successful conversion leaves no numpy value anywhere inside |
| Helpers.ConvertKeepsNumpyFree | src/utils/helpers.py:9-26 | a value with no numpy parts converts to itself |
| Helpers.ConvertIdempotent | src/utils/helpers.py:9-26 | converting a converted value changes nothing |
| Helpers.CheckEntriesIff | src/utils/helpers.py:43-52 | the entry scan accepts exactly when every entry is a pair of float-convertible components, and raises TypeError exactly when an unsized entry is reached before any rejected one |
| Helpers.ValidCoordinatesIff | src/utils/helpers.py:29-52 | validation accepts exactly at least three entries that are all float-convertible pairs, and raises TypeError exactly when there are at least three entries and an unsized one is reached first |
| Helpers.ValidateCoordinates | src/utils/helpers.py:29-52 | the loop-based validation returns exactly the specified verdict |
| Helpers.PolygonAreaIsShoelace | src/utils/helpers.py:55-80 | the area is half the absolute cyclic shoelace sum and never negative |
| Helpers.PolygonAreaInvariance | src/utils/helpers.py:55-80 | repeating the first vertex, rotating the ring or reversing it leaves the area unchanged |
| Helpers.CalculatePolygonArea | src/utils/helpers.py:65-80 | the loop computes exactly the specified area |
| Helpers.FormatEnergy | src/utils/helpers.py:96-109 | the label uses MWh exactly from 1000 kWh and kWh otherwise |
| Helpers.FormatEnergyKeepsAmount | src/utils/helpers.py:106-109 | the labelled amount converted back to kWh is the input |
| SolsatSystem.DictSet | enhanced_solsat_system.py:52 | assigning a key makes it map to the new value, leaves every other key as it was, adds no other entry and appends a new key at the end |
| SolsatSystem.DictSetDistinct | enhanced_solsat_system.py:52 | assigning a key never makes two entries share a key |
| SolsatSystem.DictSetAvoids | enhanced_solsat_system.py:52 | assigning a key adds no key other than the one assigned |
| SolsatSystem.StoreAllDistinct | enhanced_solsat_system.py:48-52 | storing results under their indices keeps keys distinct |
| SolsatSystem.StoreAllLookup | enhanced_solsat_system.py:48-52 | after storing, key k in [0, n) maps to the k-th result and every other key keeps its old value |
| SolsatSystem.StoreAllEntries | enhanced_solsat_system.py:48-52 | every stored entry is either an old one or a result under its own index |
| SolsatSystem.DictSetKeepsCosted | enhanced_solsat_system.py:52 | storing a costed analysis keeps keys distinct and every stored analysis costed |
| SolsatSystem.TotalCostIsPanelPrice | enhanced_solsat_system.py:344-348 | the total system cost of stored analyses is 900 per panel |
| SolsatSystem.ReportSummaryOf | enhanced_solsat_system.py:333-384 | the report is the no-data message exactly when nothing is stored, fails with ZeroDivision exactly when the stored savings total 0, and otherwise carries the totals, twelve months of savings and a payback that times annual savings is the total cost |
| SolsatSystem.StoredResults | enhanced_solsat_system.py:47-51 | one result per polygon, each successful one tagged with its polygon index and costed at 900 per panel |
| SolsatSystem.AnalyzedResults | enhanced_solsat_system.py:47-53 | a successful run returns one analysis per polygon, each tagged with its index and costed at 900 per panel |
| SolsatSystem.OptimizedPalettes | enhanced_solsat_system.py:55-69 | an empty result list raises ValueError (min of nothing); otherwise every result gets the orange-to-white palette |
| SolsatSystem.SolarRooftopSystem.constructor | enhanced_solsat_system.py:19-25 | a new system has no stored analysis |
| SolsatSystem.SolarRooftopSystem.AnalyzeAllRooftops | enhanced_solsat_system.py:42-53 | the run returns the collected per-polygon results or the first error, and the stored analyses gain exactly the results computed before that error, under their indices |
| SolsatSystem.SolarRooftopSystem.GetOptimizedPalettes | enhanced_solsat_system.py:55-69 | the loop returns exactly the specified palettes |
| SolsatSystem.SolarRooftopSystem.GenerateReport | enhanced_solsat_system.py:333-384 | the loop-built report is exactly the specified summary of the stored analyses |
| SolsatSystem.ReportCostIsPanelPrice | enhanced_solsat_system.py:344-348 | in every report of a valid system the total cost is 900 per panel |
| Polygon.Centroid | main/function/compute_attribute/main_solar_calculator.py:422-431 | the centroid of no vertices is the origin; otherwise it is the mean longitude and the mean latitude |
| Polygon.CentroidInBox | main/function/compute_attribute/main_solar_calculator.py:422-431 | the centroid lies in every box containing all vertices |
| Polygon.Close | main/function/compute_attribute/main_solar_calculator.py:438-440 | closing a ring adds the first vertex at the end exactly when it is not already there, and keeps the original vertices in front |
| Polygon.ClosedPathIsCyclic | main/function/compute_attribute/main_solar_calculator.py:438-446 | the open-path shoelace sum over the closed ring equals the cyclic sum over the original vertices |
| Polygon.DegenerateCyclicSum | src/utils/helpers.py:65-66 | fewer than three vertices have cyclic shoelace sum 0 |
| Polygon.CyclicSumClosedCopy | src/utils/helpers.py:75-78 | a trailing copy of the first vertex does not change the cyclic sum |
| Polygon.CyclicSumRotate | src/utils/helpers.py:75-78 | starting the ring at its second vertex does not change the cyclic sum |
| Polygon.CyclicSumReverse | src/utils/helpers.py:75-78 | reversing the ring negates the cyclic sum |
| Polygon.CyclicShoelace | src/utils/helpers.py:72-78 | the wrap-around loop computes the cyclic shoelace sum |
| Polygon.PathShoelace | main/function/compute_attribute/main_solar_calculator.py:443-446 | the loop over consecutive pairs computes the open-path shoelace sum |

## Left out

- Earth Engine itself: initialisation, authentication, geometry construction on the server, image collections and the transport of `getInfo()`. Each reduction is an oracle answer instead.
- The clock: every `datetime.now()` default is a date parameter, and timestamps in the returned records are not modelled.
- Exact floating-point values: rounding is not modelled, and the transcendental functions are only known through the facts listed above.
- numpy `mean` and `std` are taken over the reals. The mean of an empty list, NaN in numpy, is `None` here.
- The Python grammar of float literals: `validate_coordinates` takes the set of strings that `float()` accepts as a parameter, and `int()` of non-ASCII digits is not modelled.
- `calculate_solar_irradiance_enhanced` of the report generator: it needs the clock and a fully constructed live system. The irradiance record it returns is an input of `ReportGenerator.RooftopReportOf`.
- Visualisation: overlay images, masked overlays, pop-up HTML, folium maps and their rendering, including the random noise of the overlay image.
- The HTTP API, its request models and configuration, the command-line scripts, the demo and the setup script.
- Text output: the f-string report lines, `format_currency`, logging and printing. `format_energy` is modelled as its unit choice and amount, not its digits.
- SolsatSystem.AnalyzedResults: states the length, the polygon ids and the cost rule of a successful run, but not that each entry is the engine's analysis of that polygon, which `SolsatSystem.SolarRooftopSystem.AnalyzeAllRooftops` states through `SolsatSystem.StoredResults`.
- RooftopCalculator.ClearSkyIrradiance: above the horizon it requires non-negative air mass, water vapour and ozone, because `**` of a negative base gives a complex number in Python, which the model has no value for.
- RooftopCalculator.Calculator.OptimizeRooftopOrientation: its objective is a ghost parameter that is required to agree with the annual energy of each orientation, rather than the energy function itself.
- Colors.CastUint8: the cast of a value outside [0, 256) assumes the wrap-around of the x86 conversion; numpy leaves that case undefined.
- `except` handlers around code that cannot raise on the modelled inputs (for example around pure arithmetic on finite reals) are not modelled as separate paths.
