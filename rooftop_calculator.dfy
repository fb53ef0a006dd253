/** The physical clear-sky pipeline of the rooftop calculator: the Julian day number, the solar
    position, extraterrestrial irradiance, the Kasten-Young air mass, the clear-sky model, the
    transposition to the plane of the roof, the longest-edge shading estimate, the optional
    substitution of satellite data, and the grid search over roof orientations. The formulas
    are the ones the code evaluates; the trigonometric and exponential functions come from the
    math-library record, so each result is stated for whatever values those functions take,
    together with the facts that follow from their ranges. */
module RooftopCalculator {
  import opened Wrappers
  import opened Numeric
  import opened Polygon
  import opened GeeSolarData
  import opened SmallPolygonHandler

  // ---------------------------------------------------------------- calendar

  /** A `datetime`; Python guarantees 1 <= month <= 12 and a day that exists in that month. */
  datatype DateTime = DateTime(year: int, month: int, day: int, hour: int, minute: int, second: int)

  predicate IsLeapYear(y: int)
  {
    y % 4 == 0 && (y % 100 != 0 || y % 400 == 0)
  }

  function DaysInMonth(y: int, month: int): int
  {
    if month == 2 then (if IsLeapYear(y) then 29 else 28)
    else if month in {4, 6, 9, 11} then 30
    else 31
  }

  predicate IsValidDate(d: DateTime)
  {
    1 <= d.month <= 12 && 1 <= d.day <= DaysInMonth(d.year, d.month)
  }

  /** The next calendar day, at the same time of day. */
  function NextDay(d: DateTime): (r: DateTime)
    requires IsValidDate(d)
    ensures IsValidDate(r)
  {
    if d.day < DaysInMonth(d.year, d.month) then d.(day := d.day + 1)
    else if d.month < 12 then d.(month := d.month + 1, day := 1)
    else d.(year := d.year + 1, month := 1, day := 1)
  }

  /** `julian_day`: the integer Julian day number of a Gregorian date (Python's `//` is the
      floor, which is Dafny's `/` for a positive divisor). */
  function JulianDay(d: DateTime): int
  {
    var a := (14 - d.month) / 12;
    var y := d.year + 4800 - a;
    var m := d.month + 12 * a - 3;
    d.day + (153 * m + 2) / 5 + 365 * y + y / 4 - y / 100 + y / 400 - 32045
  }

  /** 1 January 2000 is day 2451545, the epoch the solar position measures time from. */
  lemma JulianDayEpoch()
    ensures JulianDay(DateTime(2000, 1, 1, 12, 0, 0)) == 2451545
  {
  }

  /** Days before each month of the March-based year that the formula counts in. */
  lemma MonthOffsets(month: int)
    requires 3 <= month < 12 || month == 1
    ensures var m := month + 12 * ((14 - month) / 12) - 3;
      (153 * (m + 1) + 2) / 5 - (153 * m + 2) / 5 == DaysInMonth(0, month)
  {
  }

  /** Floor division by one of the calendar's cycle lengths steps up by one exactly when the
      numerator reaches a multiple of it. */
  lemma DivStep(y: int, k: int)
    requires k == 4 || k == 100 || k == 400
    ensures (y + 1) / k - y / k == if (y + 1) % k == 0 then 1 else 0
  {
    if k == 4 {
    } else if k == 100 {
    } else {
    }
  }

  /** Shifting a year by 4800 keeps its position in the 4-, 100- and 400-year cycles. */
  lemma ShiftedCycles(year: int)
    ensures (year + 4800) % 4 == year % 4
    ensures (year + 4800) % 100 == year % 100
    ensures (year + 4800) % 400 == year % 400
  {
    assert year + 4800 == year + 1200 * 4;
    assert year + 4800 == year + 48 * 100;
    assert year + 4800 == year + 12 * 400;
  }

  /** A multiple of 400 is a multiple of 100, and a multiple of 100 a multiple of 4. */
  lemma CycleDivides(year: int)
    ensures year % 400 == 0 ==> year % 100 == 0
    ensures year % 100 == 0 ==> year % 4 == 0
  {
    if year % 400 == 0 {
      var k := 4 * (year / 400);
      assert year == 100 * k;
    }
    if year % 100 == 0 {
      var k := 25 * (year / 100);
      assert year == 4 * k;
    }
  }

  /** Going from the last day of February to 1 March adds one shifted year, whose leap-day
      terms change by one exactly in a leap year. */
  lemma LeapTerms(year: int)
    ensures var y0 := year + 4799;
      var y1 := year + 4800;
      365 + (y1 / 4 - y0 / 4) - (y1 / 100 - y0 / 100) + (y1 / 400 - y0 / 400)
        == (if IsLeapYear(year) then 366 else 365)
  {
    var y0, y1 := year + 4799, year + 4800;
    DivStep(y0, 4);
    DivStep(y0, 100);
    DivStep(y0, 400);
    ShiftedCycles(year);
    var a, b, c := y1 / 4 - y0 / 4, y1 / 100 - y0 / 100, y1 / 400 - y0 / 400;
    assert a == if year % 4 == 0 then 1 else 0;
    assert b == if year % 100 == 0 then 1 else 0;
    assert c == if year % 400 == 0 then 1 else 0;
    if year % 400 == 0 {
      CycleDivides(year);
      assert a == 1 && b == 1 && c == 1 && IsLeapYear(year);
    } else if year % 100 == 0 {
      CycleDivides(year);
      assert a == 1 && b == 1 && c == 0 && !IsLeapYear(year);
    } else if year % 4 == 0 {
      assert a == 1 && b == 0 && c == 0 && IsLeapYear(year);
    } else {
      assert a == 0 && b == 0 && c == 0 && !IsLeapYear(year);
    }
  }

  /** The last day of a month other than February and December is followed by day 1 of the
      next month in the same shifted year. */
  lemma MonthEndStep(d: DateTime)
    requires IsValidDate(d) && d.day == DaysInMonth(d.year, d.month) && d.month != 2 && d.month != 12
    ensures JulianDay(d.(month := d.month + 1, day := 1)) == JulianDay(d) + 1
  {
    MonthOffsets(d.month);
    assert DaysInMonth(d.year, d.month) == DaysInMonth(0, d.month);
  }

  lemma FebruaryEndStep(d: DateTime)
    requires IsValidDate(d) && d.day == DaysInMonth(d.year, d.month) && d.month == 2
    ensures JulianDay(d.(month := 3, day := 1)) == JulianDay(d) + 1
  {
    LeapTerms(d.year);
  }

  /** Consecutive calendar days, across month and year ends and 29 February, have consecutive
      Julian day numbers. */
  lemma JulianDayConsecutive(d: DateTime)
    requires IsValidDate(d)
    ensures JulianDay(NextDay(d)) == JulianDay(d) + 1
  {
    if d.day == DaysInMonth(d.year, d.month) {
      if d.month == 2 {
        FebruaryEndStep(d);
      } else if d.month != 12 {
        MonthEndStep(d);
      }
    }
  }

  // ---------------------------------------------------------------- solar position

  /** The solar position dictionary; angles in degrees. */
  datatype SolarPosition = SolarPosition(
    elevation: real, azimuth: real, zenith: real, declination: real, hourAngle: real, julianDay: int)

  /** The declination and the hour angle (radians) of `solar_position_michalsky`: mean
      longitude and anomaly, ecliptic longitude, obliquity and right ascension, counted in days
      from the 2451545 epoch. */
  function SunAngles(m: MathLib, lon: real, date: DateTime): (r: (real, real))
    ensures m.InverseRanges() ==> -PI / 2.0 <= r.0 <= PI / 2.0
  {
    var n := JulianDay(date) as real - 2451545.0;
    var hour := date.hour as real + date.minute as real / 60.0 + date.second as real / 3600.0;
    var meanLongitude := PyMod(280.460 + 0.9856474 * n, 360.0);
    var g := Radians(PyMod(357.528 + 0.9856003 * n, 360.0));
    var lambdaSun := Radians(meanLongitude + 1.915 * m.sin(g) + 0.020 * m.sin(2.0 * g));
    var epsilon := Radians(23.439 - 0.0000004 * n);
    var alpha := m.atan2(m.cos(epsilon) * m.sin(lambdaSun), m.cos(lambdaSun));
    var delta := m.asin(m.sin(epsilon) * m.sin(lambdaSun));
    (delta, Radians(15.0 * (hour - 12.0) + lon - Degrees(alpha)))
  }

  /** `solar_position_michalsky`: elevation from the declination and hour angle, the azimuth
      shifted by 180 degrees and reduced modulo 360, and the zenith angle. */
  function SolarPositionMichalsky(m: MathLib, lat: real, lon: real, date: DateTime): (p: SolarPosition)
    ensures p.julianDay == JulianDay(date)
    ensures p.zenith == 90.0 - p.elevation
    ensures 0.0 <= p.azimuth < 360.0
  {
    var (delta, h) := SunAngles(m, lon, date);
    var latRad := Radians(lat);
    var elevation := m.asin(m.sin(latRad) * m.sin(delta) + m.cos(latRad) * m.cos(delta) * m.cos(h));
    var azimuth := m.atan2(m.sin(h), m.cos(h) * m.sin(latRad) - m.tan(delta) * m.cos(latRad));
    var elevationDeg := Degrees(elevation);
    SolarPosition(elevationDeg, PyMod(Degrees(azimuth) + 180.0, 360.0), 90.0 - elevationDeg,
                  Degrees(delta), Degrees(h), JulianDay(date))
  }

  /** Degrees of an angle in [-pi/2, pi/2] lie in [-90, 90]. */
  lemma DegreesOfHalfTurn(x: real)
    requires -PI / 2.0 <= x <= PI / 2.0
    ensures -90.0 <= Degrees(x) <= 90.0
  {
  }

  /** Elevation comes from `asin`, so it lies in [-90, 90] and the zenith angle in [0, 180]. */
  lemma SolarPositionRanges(m: MathLib, lat: real, lon: real, date: DateTime)
    requires m.InverseRanges()
    ensures var p := SolarPositionMichalsky(m, lat, lon, date);
      -90.0 <= p.elevation <= 90.0 && 0.0 <= p.zenith <= 180.0 && -90.0 <= p.declination <= 90.0
  {
    var (delta, h) := SunAngles(m, lon, date);
    var latRad := Radians(lat);
    var elevation := m.asin(m.sin(latRad) * m.sin(delta) + m.cos(latRad) * m.cos(delta) * m.cos(h));
    DegreesOfHalfTurn(delta);
    DegreesOfHalfTurn(elevation);
  }

  // ---------------------------------------------------------------- extraterrestrial irradiance

  /** `SOLAR_CONSTANT`, W/m² at the top of the atmosphere. */
  const SOLAR_CONSTANT: real := 1361.0

  /** The Earth-Sun distance correction (a short Fourier series in the day angle). */
  function DistanceFactor(m: MathLib, julianDay: real): real
  {
    var dayAngle := 2.0 * PI * (julianDay - 1.0) / 365.25;
    1.000110 + 0.034221 * m.cos(dayAngle) + 0.001280 * m.sin(dayAngle)
      + 0.000719 * m.cos(2.0 * dayAngle) + 0.000077 * m.sin(2.0 * dayAngle)
  }

  /** `extraterrestrial_irradiance` */
  function Extraterrestrial(m: MathLib, julianDay: real): (r: real)
    requires m.TrigBounded()
    ensures 0.963813 * SOLAR_CONSTANT <= r <= 1.036407 * SOLAR_CONSTANT
  {
    var dayAngle := 2.0 * PI * (julianDay - 1.0) / 365.25;
    assert -1.0 <= m.cos(dayAngle) <= 1.0 && -1.0 <= m.sin(dayAngle) <= 1.0;
    assert -1.0 <= m.cos(2.0 * dayAngle) <= 1.0 && -1.0 <= m.sin(2.0 * dayAngle) <= 1.0;
    SOLAR_CONSTANT * DistanceFactor(m, julianDay)
  }

  /** The clear-sky model evaluates it at day 1, where the day angle is 0; the value is then
      1361 * 1.03505, whatever the date being modelled. */
  lemma ExtraterrestrialAtDayOne(m: MathLib)
    requires m.TrigBounded() && m.TrigAtZero()
    ensures Extraterrestrial(m, 1.0) == SOLAR_CONSTANT * 1.03505
  {
    assert 2.0 * PI * (1.0 - 1.0) / 365.25 == 0.0;
    assert 2.0 * 0.0 == 0.0;
  }

  // ---------------------------------------------------------------- air mass

  /** The air mass returned for a sun on or below the horizon. */
  const BELOW_HORIZON_AIR_MASS: real := 40.0

  /** The Kasten-Young denominator `cos(z) + 0.50572 (96.07995 - z)^-1.6364`. */
  function KastenYoungDenominator(m: MathLib, zenithDeg: real): real
  {
    m.cos(Radians(zenithDeg)) + 0.50572 * m.pow(96.07995 - zenithDeg, -1.6364)
  }

  /** `air_mass_kasten_young`: 40 on or below the horizon; otherwise the pressure-corrected
      Kasten-Young air mass, floored at 1. A zero denominator is Python's ZeroDivisionError. */
  function AirMass(m: MathLib, zenithDeg: real, altitude: real): (r: Result<real>)
    ensures zenithDeg >= 90.0 ==> r == Ok(BELOW_HORIZON_AIR_MASS)
    ensures r.Ok? ==> r.value >= 1.0
    ensures r.Err? <==> zenithDeg < 90.0 && KastenYoungDenominator(m, zenithDeg) == 0.0
  {
    if zenithDeg >= 90.0 then Ok(BELOW_HORIZON_AIR_MASS)
    else
      var denominator := KastenYoungDenominator(m, zenithDeg);
      if denominator == 0.0 then Err(ZeroDivision)
      else Ok(Max(1.0, m.exp(-altitude / 8400.0) / denominator))
  }

  /** Above the horizon and not below the nadir-side limit the denominator is positive, so the
      formula never divides by zero for a zenith angle from the solar position. */
  lemma AirMassDefined(m: MathLib, zenithDeg: real, altitude: real)
    requires m.CosPositive() && m.PowFacts()
    requires -90.0 < zenithDeg
    ensures AirMass(m, zenithDeg, altitude).Ok?
  {
    if zenithDeg < 90.0 {
      assert -PI / 2.0 < Radians(zenithDeg) < PI / 2.0;
      assert m.cos(Radians(zenithDeg)) > 0.0;
      assert m.pow(96.07995 - zenithDeg, -1.6364) > 0.0;
    }
  }

  // ---------------------------------------------------------------- clear sky

  /** `clear_sky_ineichen_perez`'s dictionary: zeros on or below the horizon. */
  datatype ClearSky =
    | BelowHorizon
    | Clear(ghi: real, dni: real, dhi: real, transmittance: real, airMass: real)
  {
    function Ghi(): real { if BelowHorizon? then 0.0 else ghi }
    function Dni(): real { if BelowHorizon? then 0.0 else dni }
    function Dhi(): real { if BelowHorizon? then 0.0 else dhi }
  }

  /** The cubic fit `117.2594 + 1.8169 a - 0.033454 a² + 0.00053513 a³` whose reciprocal is the
      Rayleigh optical depth. */
  function RayleighPolynomial(a: real): real
  {
    117.2594 + 1.8169 * a - 0.033454 * (a * a) + 0.00053513 * (a * a * a)
  }

  /** The quadratic factor has no real root, so the cubic is at least its constant term for a
      non-negative air mass. */
  lemma RayleighPolynomialPositive(a: real)
    requires a >= 0.0
    ensures RayleighPolynomial(a) >= 117.2594
  {
    var q := 1.8169 - 0.033454 * a + 0.00053513 * (a * a);
    if a <= 54.0 {
      assert 0.033454 * a <= 1.81652;
    } else if a <= 62.6 {
      MulLe(54.0, a, a);
      assert 0.00053513 * (a * a) >= 0.00053513 * (54.0 * a);
    } else {
      MulLe(62.6, a, a);
      assert 0.00053513 * (a * a) >= 0.00053513 * (62.6 * a);
    }
    assert q > 0.0;
    MulLe(0.0, q, a);
    assert RayleighPolynomial(a) == 117.2594 + a * q;
  }

  /** The Rayleigh optical depth `1 / polynomial`. */
  function RayleighDepth(airMass: real): (d: real)
    requires airMass >= 0.0
    ensures d > 0.0
  {
    RayleighPolynomialPositive(airMass);
    1.0 / RayleighPolynomial(airMass)
  }

  /** The water-vapour absorption `0.2385 w m / (1 + 20.07 w m)^0.45`. */
  function WaterVaporDepth(m: MathLib, waterVapor: real, airMass: real): (d: real)
    requires m.PowFacts() && airMass >= 0.0 && waterVapor >= 0.0
    ensures d >= 0.0
  {
    MulLe(0.0, waterVapor, airMass);
    var base := 1.0 + 20.07 * waterVapor * airMass;
    assert m.pow(base, 0.45) > 0.0;
    0.2385 * waterVapor * airMass / m.pow(base, 0.45)
  }

  /** The ozone absorption `u m (1 + u m)^-3 + 0.0003 (u m)² / (1 + (u m)^1.5)`. */
  function OzoneDepth(m: MathLib, ozone: real, airMass: real): (d: real)
    requires m.PowFacts() && airMass >= 0.0 && ozone >= 0.0
    ensures d >= 0.0
  {
    var uo := ozone * airMass;
    MulLe(0.0, ozone, airMass);
    var b := 1.0 + uo;
    assert b * b * b >= 1.0 by {
      MulLe(1.0, b, b);
      MulLe(1.0, b * b, b);
    }
    assert m.pow(uo, 1.5) >= 0.0;
    assert uo / (b * b * b) >= 0.0 by {
      DivNonNegative(uo, b * b * b);
    }
    assert 0.0003 * (uo * uo) / (1.0 + m.pow(uo, 1.5)) >= 0.0 by {
      MulLe(0.0, uo, uo);
      DivNonNegative(0.0003 * (uo * uo), 1.0 + m.pow(uo, 1.5));
    }
    uo / (b * b * b) + 0.0003 * (uo * uo) / (1.0 + m.pow(uo, 1.5))
  }

  /** The sum of the Rayleigh, water-vapour, ozone and aerosol optical depths. */
  function OpticalDepth(m: MathLib, airMass: real, waterVapor: real, aerosol: real, ozone: real): (d: real)
    requires m.PowFacts() && airMass >= 0.0 && waterVapor >= 0.0 && ozone >= 0.0
    ensures aerosol >= 0.0 ==> d > 0.0
  {
    assert aerosol >= 0.0 ==> aerosol * airMass >= 0.0 by {
      if aerosol >= 0.0 {
        MulLe(0.0, aerosol, airMass);
      }
    }
    RayleighDepth(airMass) + WaterVaporDepth(m, waterVapor, airMass) + OzoneDepth(m, ozone, airMass)
      + aerosol * airMass
  }

  /** The total transmittance `exp(-depth)`. */
  function Transmittance(m: MathLib, airMass: real, waterVapor: real, aerosol: real, ozone: real): (t: real)
    requires m.PowFacts() && airMass >= 0.0 && waterVapor >= 0.0 && ozone >= 0.0
    ensures m.ExpFacts() && aerosol >= 0.0 ==> 0.0 < t <= 1.0
  {
    m.exp(-OpticalDepth(m, airMass, waterVapor, aerosol, ozone))
  }

  /** `clear_sky_ineichen_perez`. Python raises or goes complex for a negative air mass, water
      vapour column or ozone column, so the model asks for non-negative ones above the horizon. */
  function ClearSkyIrradiance(m: MathLib, zenithDeg: real, airMass: real, altitude: real,
                              waterVapor: real, aerosol: real, ozone: real): (c: ClearSky)
    requires m.TrigBounded() && m.PowFacts()
    requires zenithDeg < 90.0 ==> airMass >= 0.0 && waterVapor >= 0.0 && ozone >= 0.0
    ensures zenithDeg >= 90.0 <==> c.BelowHorizon?
    ensures c.Ghi() >= 0.0 && c.Dni() >= 0.0 && c.Dhi() >= 0.0
  {
    if zenithDeg >= 90.0 then BelowHorizon
    else
      var i0 := Extraterrestrial(m, 1.0);
      var t := Transmittance(m, airMass, waterVapor, aerosol, ozone);
      ClearComponents(i0, t, m.cos(Radians(zenithDeg)), airMass)
  }

  /** The components from I0, the transmittance and cos z: DNI = I0 T, DHI = I0 cos z (1 - T) / 2
      and GHI = DNI cos z + DHI, each floored at 0. */
  function ClearComponents(i0: real, t: real, cosZ: real, airMass: real): (c: ClearSky)
    ensures c.Clear? && c.ghi >= 0.0 && c.dni >= 0.0 && c.dhi >= 0.0
  {
    var dni := i0 * t;
    var dhi := i0 * cosZ * (1.0 - t) * 0.5;
    var ghi := dni * cosZ + dhi;
    Clear(Max(0.0, ghi), Max(0.0, dni), Max(0.0, dhi), t, airMass)
  }

  /** For a positive I0, a transmittance in (0, 1] and a sun above the horizon the floors are
      inactive. */
  lemma ClearComponentsUnclamped(i0: real, t: real, cosZ: real, airMass: real)
    requires i0 > 0.0 && 0.0 < t <= 1.0 && cosZ >= 0.0
    ensures var c := ClearComponents(i0, t, cosZ, airMass);
      && c.transmittance == t
      && c.dni == i0 * t && c.dni > 0.0
      && c.dhi == i0 * cosZ * (1.0 - t) * 0.5
      && c.ghi == c.dni * cosZ + c.dhi
  {
    MulLt(0.0, i0, t);
    MulLe(0.0, cosZ, i0);
    MulLe(0.0, i0 * cosZ, 1.0 - t);
    MulLe(0.0, i0 * t, cosZ);
  }

  /** Above the horizon the clear-sky result is the component formula applied to a positive I0
      (day 1), a transmittance in (0, 1] and a non-negative cos z, which is where
      `ClearComponentsUnclamped` shows that the floors change nothing. */
  lemma ClearSkyPhysical(m: MathLib, zenithDeg: real, airMass: real, waterVapor: real, aerosol: real, ozone: real)
    requires m.TrigBounded() && m.PowFacts() && m.ExpFacts() && m.CosPositive()
    requires 0.0 <= zenithDeg < 90.0
    requires airMass >= 0.0 && waterVapor >= 0.0 && ozone >= 0.0 && aerosol >= 0.0
    ensures var i0 := Extraterrestrial(m, 1.0);
      var t := Transmittance(m, airMass, waterVapor, aerosol, ozone);
      var cosZ := m.cos(Radians(zenithDeg));
      && ClearSkyIrradiance(m, zenithDeg, airMass, 0.0, waterVapor, aerosol, ozone)
           == ClearComponents(i0, t, cosZ, airMass)
      && i0 > 0.0 && 0.0 < t <= 1.0 && cosZ >= 0.0
  {
    assert -PI / 2.0 <= Radians(zenithDeg) <= PI / 2.0;
  }

  // ---------------------------------------------------------------- plane of array

  /** `plane_of_array_irradiance`'s dictionary; below the horizon it has no angle entry. */
  datatype Poa = Poa(global: real, direct: real, diffuse: real, reflected: real, angleOfIncidence: Option<real>)

  /** The cosine of the angle of incidence on a surface with the given tilt and azimuth. */
  function CosIncidence(m: MathLib, zenithDeg: real, azimuthDeg: real, tilt: real, surfaceAzimuth: real): real
  {
    var zenith := Radians(zenithDeg);
    var tiltRad := Radians(tilt);
    m.sin(zenith) * m.sin(tiltRad) * m.cos(Radians(azimuthDeg) - Radians(surfaceAzimuth))
      + m.cos(zenith) * m.cos(tiltRad)
  }

  /** The isotropic transposition: beam times the clipped incidence cosine, sky diffuse times
      (1 + cos tilt) / 2, ground reflection times albedo (1 - cos tilt) / 2, each floored at 0. */
  function PoaComponents(ghi: real, dni: real, dhi: real, cosIncidence: real, cosTilt: real,
                         albedo: real, angle: real): (p: Poa)
    ensures p.global >= 0.0 && p.direct >= 0.0 && p.diffuse >= 0.0 && p.reflected >= 0.0
    ensures p.angleOfIncidence == Some(angle)
  {
    var direct := dni * Max(0.0, cosIncidence);
    var diffuse := dhi * (1.0 + cosTilt) / 2.0;
    var reflected := ghi * albedo * (1.0 - cosTilt) / 2.0;
    Poa(Max(0.0, direct + diffuse + reflected), Max(0.0, direct), Max(0.0, diffuse), Max(0.0, reflected),
        Some(angle))
  }

  /** `plane_of_array_irradiance`: all zeros and no angle on or below the horizon. */
  function PlaneOfArray(m: MathLib, ghi: real, dni: real, dhi: real, zenithDeg: real, azimuthDeg: real,
                        tilt: real, surfaceAzimuth: real, albedo: real): (p: Poa)
    ensures zenithDeg >= 90.0 <==> p.angleOfIncidence.None?
    ensures zenithDeg >= 90.0 ==> p == Poa(0.0, 0.0, 0.0, 0.0, None)
    ensures p.global >= 0.0 && p.direct >= 0.0 && p.diffuse >= 0.0 && p.reflected >= 0.0
  {
    if zenithDeg >= 90.0 then Poa(0.0, 0.0, 0.0, 0.0, None)
    else
      var cosIncidence := CosIncidence(m, zenithDeg, azimuthDeg, tilt, surfaceAzimuth);
      PoaComponents(ghi, dni, dhi, cosIncidence, m.cos(Radians(tilt)), albedo,
                    Degrees(m.acos(Max(0.0, Min(1.0, cosIncidence)))))
  }

  /** The incidence cosine is clipped to [0, 1] before `acos`, so the angle lies in [0, 90]. */
  lemma PoaAngleRange(m: MathLib, ghi: real, dni: real, dhi: real, zenithDeg: real, azimuthDeg: real,
                      tilt: real, surfaceAzimuth: real, albedo: real)
    requires m.InverseRanges()
    ensures var p := PlaneOfArray(m, ghi, dni, dhi, zenithDeg, azimuthDeg, tilt, surfaceAzimuth, albedo);
      p.angleOfIncidence.Some? ==> 0.0 <= p.angleOfIncidence.value <= 90.0
  {
    if zenithDeg < 90.0 {
      var x := Max(0.0, Min(1.0, CosIncidence(m, zenithDeg, azimuthDeg, tilt, surfaceAzimuth)));
      assert 0.0 <= m.acos(x) <= PI / 2.0;
    }
  }

  /** For non-negative irradiances, albedo and |cos tilt| <= 1 the floors change nothing: the
      global value is exactly the sum of the three parts. */
  lemma PoaComponentsUnclamped(ghi: real, dni: real, dhi: real, cosIncidence: real, cosTilt: real,
                               albedo: real, angle: real)
    requires ghi >= 0.0 && dni >= 0.0 && dhi >= 0.0 && albedo >= 0.0 && -1.0 <= cosTilt <= 1.0
    ensures var p := PoaComponents(ghi, dni, dhi, cosIncidence, cosTilt, albedo, angle);
      && p.direct == dni * Max(0.0, cosIncidence)
      && p.diffuse == dhi * (1.0 + cosTilt) / 2.0
      && p.reflected == ghi * albedo * (1.0 - cosTilt) / 2.0
      && p.global == p.direct + p.diffuse + p.reflected
  {
    MulLe(0.0, Max(0.0, cosIncidence), dni);
    MulLe(0.0, 1.0 + cosTilt, dhi);
    MulLe(0.0, albedo, ghi);
    MulLe(0.0, 1.0 - cosTilt, ghi * albedo);
  }

  /** A horizontal surface (tilt 0) sees cos(incidence) = cos(zenith), the whole sky diffuse and
      no ground reflection. */
  lemma PoaHorizontalSurface(m: MathLib, ghi: real, dni: real, dhi: real, zenithDeg: real,
                             azimuthDeg: real, surfaceAzimuth: real, albedo: real)
    requires m.TrigAtZero() && zenithDeg < 90.0
    ensures var p := PlaneOfArray(m, ghi, dni, dhi, zenithDeg, azimuthDeg, 0.0, surfaceAzimuth, albedo);
      p == PoaComponents(ghi, dni, dhi, m.cos(Radians(zenithDeg)), 1.0, albedo,
                         Degrees(m.acos(Max(0.0, Min(1.0, m.cos(Radians(zenithDeg)))))))
  {
    assert Radians(0.0) == 0.0;
    assert CosIncidence(m, zenithDeg, azimuthDeg, 0.0, surfaceAzimuth) == m.cos(Radians(zenithDeg));
  }

  /** On a horizontal surface the clear-sky components transpose back to the horizontal GHI. */
  lemma FlatRoofReceivesGhi(i0: real, t: real, cosZ: real, airMass: real, albedo: real, angle: real)
    requires i0 > 0.0 && 0.0 < t <= 1.0 && cosZ >= 0.0 && albedo >= 0.0
    ensures var c := ClearComponents(i0, t, cosZ, airMass);
      PoaComponents(c.ghi, c.dni, c.dhi, cosZ, 1.0, albedo, angle).global == c.ghi
  {
    ClearComponentsUnclamped(i0, t, cosZ, airMass);
    var c := ClearComponents(i0, t, cosZ, airMass);
    PoaComponentsUnclamped(c.ghi, c.dni, c.dhi, cosZ, 1.0, albedo, angle);
  }

  // ---------------------------------------------------------------- calculator parameters

  /** `atmospheric_params` */
  datatype AtmosphericParams = AtmosphericParams(
    altitude: real, pressure: real, waterVapor: real, aerosolOpticalDepth: real, ozone: real, albedo: real)
  {
    /** The physically meaningful ranges the clear-sky model needs. */
    predicate Valid() { waterVapor >= 0.0 && aerosolOpticalDepth >= 0.0 && ozone >= 0.0 && albedo >= 0.0 }
  }

  /** `rooftop_params` */
  datatype RooftopParams = RooftopParams(
    defaultTilt: real, defaultAzimuth: real, shadingFactor: real, soilingFactor: real, spectralFactor: real)
  {
    predicate Valid() { shadingFactor >= 0.0 && soilingFactor >= 0.0 && spectralFactor >= 0.0 }
  }

  /** The tropical (Bangkok) values the calculator starts with. */
  const THAILAND_ATMOSPHERE: AtmosphericParams := AtmosphericParams(0.0, 101325.0, 2.5, 0.15, 0.3, 0.2)

  /** A 15-degree south-facing roof with 5% shading and 2% soiling losses. */
  const DEFAULT_ROOFTOP: RooftopParams := RooftopParams(15.0, 180.0, 0.95, 0.98, 1.02)

  // ---------------------------------------------------------------- shading

  /** `shading_analysis`'s dictionary: fewer than three vertices give only the default factor. */
  datatype Shading =
    | DefaultShading(factor: real)
    | Shading(factor: real, roofAzimuth: real, azimuthAlignment: real, elevationFactor: real)

  /** The roof azimuth: the bearing of the first strictly longest edge, reduced modulo 360;
      south (180) when no edge has positive length. */
  function RoofAzimuth(m: MathLib, coords: seq<Point>): (r: real)
    ensures 0.0 <= r < 360.0
    ensures FirstMax(EdgeLengths(m, coords)) < 0 ==> r == 180.0
  {
    var k := FirstMax(EdgeLengths(m, coords));
    if k < 0 then 180.0 else PyMod(EdgeBearing(m, coords, k), 360.0)
  }

  /** The absolute azimuth difference, folded into [0, 180] for azimuths in [0, 360). */
  function AzimuthDifference(a: real, b: real): (d: real)
    requires 0.0 <= a < 360.0 && 0.0 <= b < 360.0
    ensures 0.0 <= d <= 180.0
    ensures d == Abs(a - b) || d == 360.0 - Abs(a - b)
  {
    var d := Abs(a - b);
    if d > 180.0 then 360.0 - d else d
  }

  /** The shading record of an outline of at least three points whose roof faces roofAzimuth. */
  function ShadingAt(roofAzimuth: real, sunElevation: real, sunAzimuth: real, base: real): (s: Shading)
    ensures s.Shading? && s.factor >= 0.7
  {
    var d := Abs(sunAzimuth - roofAzimuth);
    var diff := if d > 180.0 then 360.0 - d else d;
    var orientationFactor := 1.0 - 0.1 * (diff / 90.0);
    var elevationFactor := Min(1.0, sunElevation / 30.0);
    Shading(Max(0.7, base * orientationFactor * elevationFactor), roofAzimuth, diff, elevationFactor)
  }

  /** The shading record for given sun angles and base factor. */
  function ShadingOf(m: MathLib, coords: seq<Point>, sunElevation: real, sunAzimuth: real, base: real): (s: Shading)
    ensures base >= 0.0 ==> s.factor >= 0.0
  {
    if |coords| < 3 then DefaultShading(base)
    else ShadingAt(RoofAzimuth(m, coords), sunElevation, sunAzimuth, base)
  }

  /** The product `base * orientation * elevation` never exceeds the base: the orientation factor
      is at most 1, and a non-positive elevation factor makes it non-positive. */
  lemma ShadingProductBound(base: real, orientationFactor: real, elevationFactor: real)
    requires base >= 0.0 && 0.0 <= orientationFactor <= 1.0 && elevationFactor <= 1.0
    ensures 0.7 <= Max(0.7, base * orientationFactor * elevationFactor) <= Max(0.7, base)
  {
    var bo := base * orientationFactor;
    MulLe(orientationFactor, 1.0, base);
    assert 0.0 <= bo <= base;
    assert base * orientationFactor * elevationFactor == elevationFactor * bo;
    if elevationFactor <= 0.0 {
      MulLe(elevationFactor, 0.0, bo);
    } else {
      MulLe(elevationFactor, 1.0, bo);
      assert elevationFactor * bo <= base;
    }
  }

  /** For a sun azimuth in [0, 360) the alignment lies in [0, 180] and the factor in
      [0.7, max(0.7, base)] -- [0.7, 0.95] for the default base; short outlines keep the base. */
  lemma ShadingBounds(m: MathLib, coords: seq<Point>, sunElevation: real, sunAzimuth: real, base: real)
    requires 0.0 <= sunAzimuth < 360.0 && base >= 0.0
    ensures var s := ShadingOf(m, coords, sunElevation, sunAzimuth, base);
      && (s.DefaultShading? <==> |coords| < 3)
      && (s.DefaultShading? ==> s.factor == base)
      && (s.Shading? ==> 0.0 <= s.azimuthAlignment <= 180.0 && 0.7 <= s.factor <= Max(0.7, base))
  {
    if |coords| >= 3 {
      var diff := AzimuthDifference(sunAzimuth, RoofAzimuth(m, coords));
      ShadingProductBound(base, 1.0 - 0.1 * (diff / 90.0), Min(1.0, sunElevation / 30.0));
    }
  }

  // ---------------------------------------------------------------- satellite data

  /** The dictionary `satellite_data_integration` returns. */
  datatype SatelliteData = SatelliteData(
    ghi: real, dni: real, dhi: real, dataSource: string, dailyTotal: real, cloudFactor: real,
    quality: string, scientificValidity: string)

  /** Daily kWh/m² spread over 8 peak hours, as W/m², split 80/20 into direct and diffuse. */
  function FromDaily(daily: real, source: string, cloud: real, validity: string): (d: SatelliteData)
    ensures d.ghi * 8.0 / 1000.0 == daily
    ensures d.dni == 0.8 * d.ghi && d.dhi == 0.2 * d.ghi
    ensures d.quality == if daily > 3.0 then "High" else "Medium"
  {
    var watts := daily * 1000.0 / 8.0;
    SatelliteData(watts, watts * 0.8, watts * 0.2, source, daily, cloud, if daily > 3.0 then "High" else "Medium", validity)
  }

  /** `method_info.get('scientific_validity', 'Unknown')`: an entry of a strategy that raised
      carries no validity. */
  function ScientificValidity(info: MethodInfo): string
  {
    if info.RaisedInfo? then "Unknown" else info.Validity().Name()
  }

  /** `satellite_data_integration`: nothing when satellite data is switched off; the
      small-polygon handler's value when it succeeded; otherwise the plain retriever's value when
      it is positive; otherwise nothing. */
  function SatelliteIntegration(useSatelliteData: bool, enhanced: Era5Result, original: Option<Irradiance>)
    : (r: Option<SatelliteData>)
    ensures r.Some? <==> useSatelliteData && (enhanced.Retrieved? || (original.Some? && original.value.ghi > 0.0))
    ensures r.Some? && enhanced.Retrieved? ==>
      r.value.dailyTotal == enhanced.ghi && r.value.dataSource == "ERA5_Enhanced_" + enhanced.methodUsed
    ensures r.Some? && !enhanced.Retrieved? ==>
      r.value.dailyTotal == original.value.ghi && r.value.dataSource == "ERA5_Original"
      && r.value.scientificValidity == "Standard"
  {
    if !useSatelliteData then None
    else if enhanced.Retrieved? then
      Some(FromDaily(enhanced.ghi, "ERA5_Enhanced_" + enhanced.methodUsed, enhanced.cloudImpactFactor,
                     ScientificValidity(enhanced.methodInfo)))
    else if original.Some? && original.value.ghi > 0.0 then
      Some(FromDaily(original.value.ghi, "ERA5_Original", original.value.cloudImpactFactor, "Standard"))
    else None
  }

  /** Satellite data used in the calculator comes from a positive daily value, whichever path
      produced it, since a successful handler result always has a positive GHI. */
  lemma SatelliteDataPositive(ds: Dataset, m: MathLib, coords: seq<Point>, startDate: string, endDate: string,
                              useSatelliteData: bool, original: Option<Irradiance>)
    ensures var r := SatelliteIntegration(useSatelliteData, Era5(ds, m, coords, startDate, endDate, "adaptive_buffering"), original);
      r.Some? ==> r.value.dailyTotal > 0.0 && r.value.ghi > 0.0
  {
    SuccessRecordFacts(ds, m, coords, startDate, endDate, "adaptive_buffering");
  }

  // ---------------------------------------------------------------- enhanced irradiance

  /** `calculate_enhanced_irradiance`'s dictionary. */
  datatype EnhancedIrradiance = EnhancedIrradiance(
    solarPosition: SolarPosition,
    ghi: real, dni: real, dhi: real,
    planeOfArray: Poa,
    finalPoa: real,
    dailyEnergy: real,             // kWh/m²
    shading: Shading,
    tilt: real, azimuth: real, angleOfIncidence: real,
    dataSource: string,
    soilingFactor: real, spectralFactor: real,
    satellite: Option<SatelliteData>)

  /** `poa_global * shading * soiling * spectral` */
  function FinalPoa(global: real, shading: real, soiling: real, spectral: real): (r: real)
    ensures global >= 0.0 && shading >= 0.0 && soiling >= 0.0 && spectral >= 0.0 ==> r >= 0.0
    ensures global == 0.0 ==> r == 0.0
  {
    assert global >= 0.0 && shading >= 0.0 && soiling >= 0.0 && spectral >= 0.0 ==>
      global * shading * soiling * spectral >= 0.0 by {
      if global >= 0.0 && shading >= 0.0 && soiling >= 0.0 && spectral >= 0.0 {
        MulLe(0.0, shading, global);
        MulLe(0.0, soiling, global * shading);
        MulLe(0.0, spectral, global * shading * soiling);
      }
    }
    global * shading * soiling * spectral
  }

  /** The clear-sky model at the calculator's atmosphere for a zenith angle from the solar
      position. */
  function ClearSkyAt(m: MathLib, atm: AtmosphericParams, zenithDeg: real): (c: ClearSky)
    requires m.TrigBounded() && m.CosPositive() && m.PowFacts() && atm.Valid()
    requires zenithDeg >= 0.0
    ensures zenithDeg >= 90.0 <==> c.BelowHorizon?
  {
    AirMassDefined(m, zenithDeg, atm.altitude);
    var airMass := AirMass(m, zenithDeg, atm.altitude).value;
    ClearSkyIrradiance(m, zenithDeg, airMass, atm.altitude, atm.waterVapor, atm.aerosolOpticalDepth, atm.ozone)
  }

  /** The horizontal GHI, DNI, DHI and the data-source tag: the satellite values when there
      are any, otherwise the clear-sky model. */
  function Horizontal(m: MathLib, atm: AtmosphericParams, zenithDeg: real, satellite: Option<SatelliteData>)
    : (h: (real, real, real, string))
    requires m.TrigBounded() && m.CosPositive() && m.PowFacts() && atm.Valid() && zenithDeg >= 0.0
    ensures satellite.Some? ==> h == (satellite.value.ghi, satellite.value.dni, satellite.value.dhi, "Satellite_Enhanced")
    ensures satellite.None? ==>
      var c := ClearSkyAt(m, atm, zenithDeg);
      h == (c.Ghi(), c.Dni(), c.Dhi(), "Enhanced_Clear_Sky")
  {
    if satellite.Some? then (satellite.value.ghi, satellite.value.dni, satellite.value.dhi, "Satellite_Enhanced")
    else
      var c := ClearSkyAt(m, atm, zenithDeg);
      (c.Ghi(), c.Dni(), c.Dhi(), "Enhanced_Clear_Sky")
  }

  /** `calculate_enhanced_irradiance` for given sun, roof and satellite answer: satellite values
      replace only the horizontal irradiance; transposition, shading, soiling and the spectral
      factor apply either way, and the day is 8 hours at the final plane-of-array value. */
  function EnhancedIrradianceOf(m: MathLib, atm: AtmosphericParams, roof: RooftopParams,
                                lat: real, lon: real, coords: seq<Point>, date: DateTime,
                                surfaceTilt: Option<real>, surfaceAzimuth: Option<real>,
                                satellite: Option<SatelliteData>): (r: EnhancedIrradiance)
    requires m.TrigBounded() && m.InverseRanges() && m.CosPositive() && m.PowFacts() && atm.Valid()
    ensures r.dailyEnergy * 1000.0 / 8.0 == r.finalPoa
    ensures roof.Valid() ==> r.finalPoa >= 0.0 && r.dailyEnergy >= 0.0
    ensures r.solarPosition.zenith >= 90.0 ==> r.finalPoa == 0.0 && r.dailyEnergy == 0.0 && r.angleOfIncidence == 0.0
  {
    var tilt := if surfaceTilt.Some? then surfaceTilt.value else roof.defaultTilt;
    var azimuth := if surfaceAzimuth.Some? then surfaceAzimuth.value else roof.defaultAzimuth;
    var pos := SolarPositionMichalsky(m, lat, lon, date);
    SolarPositionRanges(m, lat, lon, date);
    var (ghi, dni, dhi, source) := Horizontal(m, atm, pos.zenith, satellite);
    var poa := PlaneOfArray(m, ghi, dni, dhi, pos.zenith, pos.azimuth, tilt, azimuth, atm.albedo);
    var shading := ShadingOf(m, coords, pos.elevation, pos.azimuth, roof.shadingFactor);
    var finalPoa := FinalPoa(poa.global, shading.factor, roof.soilingFactor, roof.spectralFactor);
    EnhancedIrradiance(pos, ghi, dni, dhi, poa, finalPoa, finalPoa * 8.0 / 1000.0, shading, tilt, azimuth,
                       if poa.angleOfIncidence.Some? then poa.angleOfIncidence.value else 0.0,
                       source, roof.soilingFactor, roof.spectralFactor, satellite)
  }

  /** Where the horizontal irradiance comes from: the satellite values when there are any,
      otherwise the clear-sky model; the sun's position is used either way. */
  lemma EnhancedIrradianceSource(m: MathLib, atm: AtmosphericParams, roof: RooftopParams,
                                 lat: real, lon: real, coords: seq<Point>, date: DateTime,
                                 surfaceTilt: Option<real>, surfaceAzimuth: Option<real>,
                                 satellite: Option<SatelliteData>)
    requires m.TrigBounded() && m.InverseRanges() && m.CosPositive() && m.PowFacts() && atm.Valid()
    ensures var r := EnhancedIrradianceOf(m, atm, roof, lat, lon, coords, date, surfaceTilt, surfaceAzimuth, satellite);
      && r.solarPosition == SolarPositionMichalsky(m, lat, lon, date)
      && (satellite.Some? ==>
            && r.dataSource == "Satellite_Enhanced"
            && r.ghi == satellite.value.ghi && r.dni == satellite.value.dni && r.dhi == satellite.value.dhi)
      && (satellite.None? ==>
            && r.dataSource == "Enhanced_Clear_Sky"
            && r.ghi == ClearSkyAt(m, atm, r.solarPosition.zenith).Ghi()
            && r.dni == ClearSkyAt(m, atm, r.solarPosition.zenith).Dni()
            && r.dhi == ClearSkyAt(m, atm, r.solarPosition.zenith).Dhi())
      && (surfaceTilt.None? ==> r.tilt == roof.defaultTilt)
      && (surfaceAzimuth.None? ==> r.azimuth == roof.defaultAzimuth)
  {
  }

  // ---------------------------------------------------------------- orientation search

  /** One entry of `all_results`. */
  datatype OrientationResult = OrientationResult(tilt: int, azimuth: int, annualEnergy: real)

  /** `optimize_rooftop_orientation`'s dictionary. */
  datatype Optimization = Optimization(
    optimalTilt: int, optimalAzimuth: int, maxAnnualEnergy: real,
    improvementOverDefault: Result<real>, allResults: seq<OrientationResult>)

  /** The date every orientation is evaluated at: 21 June 2024, noon. */
  const SUMMER_SOLSTICE: DateTime := DateTime(2024, 6, 21, 12, 0, 0)

  /** The k-th orientation tried: `range(0, 61, 5)` gives 13 tilts in the outer loop and
      `range(90, 271, 15)` 13 azimuths in the inner one. */
  function GridPoint(k: nat): (p: (int, int))
    requires k < 169
    ensures 0 <= p.0 <= 60 && p.0 % 5 == 0
    ensures 90 <= p.1 <= 270 && (p.1 - 90) % 15 == 0
  {
    (5 * (k / 13), 90 + 15 * (k % 13))
  }

  /** Every tilt 0, 5, ..., 60 is tried with every azimuth 90, 105, ..., 270. */
  lemma GridCovers(tilt: int, azimuth: int)
    requires 0 <= tilt <= 60 && tilt % 5 == 0 && 90 <= azimuth <= 270 && (azimuth - 90) % 15 == 0
    ensures GridPoint(13 * (tilt / 5) + (azimuth - 90) / 15) == (tilt, azimuth)
  {
    var t, a := tilt / 5, (azimuth - 90) / 15;
    assert tilt == 5 * t && azimuth == 90 + 15 * a;
    GridPointAt(t, a);
  }

  /** The grid is visited in lexicographic (tilt, azimuth) order, so no orientation is tried twice. */
  lemma GridOrder(i: nat, j: nat)
    requires i < j < 169
    ensures GridPoint(i).0 < GridPoint(j).0 || (GridPoint(i).0 == GridPoint(j).0 && GridPoint(i).1 < GridPoint(j).1)
  {
  }

  /** The annual energy of `all_results`: the summer-solstice noon value times 365. */
  function AnnualEnergy(m: MathLib, atm: AtmosphericParams, roof: RooftopParams, lat: real, lon: real,
                        coords: seq<Point>, satellite: Option<SatelliteData>, tilt: int, azimuth: int): real
    requires m.TrigBounded() && m.InverseRanges() && m.CosPositive() && m.PowFacts() && atm.Valid()
  {
    EnhancedIrradianceOf(m, atm, roof, lat, lon, coords, SUMMER_SOLSTICE, Some(tilt as real),
                         Some(azimuth as real), satellite).dailyEnergy * 365.0
  }

  /** The objective of the search as a function of tilt and azimuth. */
  ghost function AnnualEnergyOf(m: MathLib, atm: AtmosphericParams, roof: RooftopParams, lat: real, lon: real,
                                coords: seq<Point>, satellite: Option<SatelliteData>): (energy: (int, int) -> real)
    requires m.TrigBounded() && m.InverseRanges() && m.CosPositive() && m.PowFacts() && atm.Valid()
    ensures IsAnnualEnergy(energy, m, atm, roof, lat, lon, coords, satellite)
  {
    (tilt: int, azimuth: int) => AnnualEnergy(m, atm, roof, lat, lon, coords, satellite, tilt, azimuth)
  }

  /** `energy` agrees with `AnnualEnergy` at every orientation. The trigger keeps the fact
      dormant until an `AnnualEnergy` term is about. */
  ghost predicate IsAnnualEnergy(energy: (int, int) -> real, m: MathLib, atm: AtmosphericParams, roof: RooftopParams,
                                 lat: real, lon: real, coords: seq<Point>, satellite: Option<SatelliteData>)
    requires m.TrigBounded() && m.InverseRanges() && m.CosPositive() && m.PowFacts() && atm.Valid()
  {
    forall tilt: int, azimuth: int {:trigger AnnualEnergy(m, atm, roof, lat, lon, coords, satellite, tilt, azimuth)} ::
      energy(tilt, azimuth) == AnnualEnergy(m, atm, roof, lat, lon, coords, satellite, tilt, azimuth)
  }

  /** The result for the k-th orientation of the grid. */
  function GridAt(energy: (int, int) -> real, k: nat): (r: OrientationResult)
    requires k < 169
    ensures (r.tilt, r.azimuth) == GridPoint(k) && r.annualEnergy == energy(r.tilt, r.azimuth)
  {
    OrientationResult(GridPoint(k).0, GridPoint(k).1, energy(GridPoint(k).0, GridPoint(k).1))
  }

  /** The first n results in the order the loops produce them. */
  function GridPrefix(energy: (int, int) -> real, n: nat): (rs: seq<OrientationResult>)
    requires n <= 169
    ensures |rs| == n
  {
    if n == 0 then [] else GridPrefix(energy, n - 1) + [GridAt(energy, n - 1)]
  }

  /** Appending the result for tilt 5 t and azimuth 90 + 15 a to the first 13 t + a results
      gives the first 13 t + a + 1. */
  lemma GridPrefixSnoc(energy: (int, int) -> real, t: nat, a: nat, results: seq<OrientationResult>)
    requires t < 13 && a < 13 && |results| == 13 * t + a && results == GridPrefix(energy, |results|)
    ensures var r := OrientationResult(5 * t, 90 + 15 * a, energy(5 * t, 90 + 15 * a));
      results + [r] == GridPrefix(energy, |results + [r]|)
  {
    GridPointAt(t, a);
  }

  /** All 169 results. */
  function GridResults(energy: (int, int) -> real): (rs: seq<OrientationResult>)
    ensures |rs| == 169
  {
    GridPrefix(energy, 169)
  }

  /** Position k of any prefix holds the k-th orientation of the grid. */
  lemma {:induction false} GridPrefixEntry(energy: (int, int) -> real, n: nat, k: nat)
    requires k < n <= 169
    ensures GridPrefix(energy, n)[k] == GridAt(energy, k)
    decreases n
  {
    if k < n - 1 {
      GridPrefixEntry(energy, n - 1, k);
    }
  }

  /** Every one of the 169 results is the grid orientation at its position with its energy. */
  lemma GridResultsEntries(energy: (int, int) -> real)
    ensures var rs := GridResults(energy);
      forall k :: 0 <= k < 169 ==>
        (rs[k].tilt, rs[k].azimuth) == GridPoint(k) && rs[k].annualEnergy == energy(GridPoint(k).0, GridPoint(k).1)
  {
    forall k | 0 <= k < 169
      ensures GridResults(energy)[k] == GridAt(energy, k)
    {
      GridPrefixEntry(energy, 169, k);
    }
  }

  /** The grid depends only on the values of the objective: any two functions that agree with
      `AnnualEnergy` give the same 169 results. */
  lemma {:induction false} GridPrefixDetermined(e1: (int, int) -> real, e2: (int, int) -> real,
                                                m: MathLib, atm: AtmosphericParams, roof: RooftopParams, lat: real, lon: real,
                                                coords: seq<Point>, satellite: Option<SatelliteData>, n: nat)
    requires m.TrigBounded() && m.InverseRanges() && m.CosPositive() && m.PowFacts() && atm.Valid()
    requires IsAnnualEnergy(e1, m, atm, roof, lat, lon, coords, satellite)
    requires IsAnnualEnergy(e2, m, atm, roof, lat, lon, coords, satellite)
    requires n <= 169
    ensures GridPrefix(e1, n) == GridPrefix(e2, n)
  {
    if n > 0 {
      GridPrefixDetermined(e1, e2, m, atm, roof, lat, lon, coords, satellite, n - 1);
      var p := GridPoint(n - 1);
      assert e1(p.0, p.1) == AnnualEnergy(m, atm, roof, lat, lon, coords, satellite, p.0, p.1) == e2(p.0, p.1);
    }
  }

  function Energies(rs: seq<OrientationResult>): (es: seq<real>)
    ensures |es| == |rs| && forall i :: 0 <= i < |rs| ==> es[i] == rs[i].annualEnergy
  {
    seq(|rs|, i requires 0 <= i < |rs| => rs[i].annualEnergy)
  }

  /** The outcome of the search over `results`: the first strict maximum, or tilt 0 facing
      south with energy 0 when no energy is positive; the improvement divides by the default
      tilt times 365. */
  function OptimizationOf(results: seq<OrientationResult>, defaultTilt: real): Optimization
  {
    var k := FirstMax(Energies(results));
    var best := if k < 0 then OrientationResult(0, 180, 0.0) else results[k];
    Optimization(best.tilt, best.azimuth, best.annualEnergy, Improvement(best.annualEnergy, defaultTilt), results)
  }

  /** Percentage gain of the best annual energy over `defaultTilt * 365`; dividing by zero is an error. */
  function Improvement(bestEnergy: real, defaultTilt: real): (r: Result<real>)
    ensures r.Err? <==> defaultTilt == 0.0
    ensures r.Ok? ==> r.value == (bestEnergy / (defaultTilt * 365.0) - 1.0) * 100.0
  {
    var divisor := defaultTilt * 365.0;
    if divisor == 0.0 then Err(ZeroDivision) else Ok((bestEnergy / divisor - 1.0) * 100.0)
  }

  /** The reported optimum is at least every energy tried and never negative; when some energy
      is positive it is the first orientation reaching the maximum, otherwise tilt 0 / azimuth 180. */
  lemma OptimumIsBest(results: seq<OrientationResult>, defaultTilt: real)
    ensures var o := OptimizationOf(results, defaultTilt);
      && o.maxAnnualEnergy >= 0.0
      && (forall i :: 0 <= i < |results| ==> results[i].annualEnergy <= o.maxAnnualEnergy)
      && ((forall i :: 0 <= i < |results| ==> results[i].annualEnergy <= 0.0) ==>
            o.optimalTilt == 0 && o.optimalAzimuth == 180 && o.maxAnnualEnergy == 0.0)
      && ((exists i :: 0 <= i < |results| && results[i].annualEnergy > 0.0) ==>
            exists k :: 0 <= k < |results| && results[k] == OrientationResult(o.optimalTilt, o.optimalAzimuth, o.maxAnnualEnergy)
              && forall j :: 0 <= j < k ==> results[j].annualEnergy < o.maxAnnualEnergy)
  {
    var es := Energies(results);
    var k := FirstMax(es);
    if k >= 0 {
      assert results[k].annualEnergy == es[k];
    } else {
      assert forall i :: 0 <= i < |results| ==> results[i].annualEnergy == es[i];
    }
  }

  /** The state of the `best_*` variables after the results seen so far: the first strict
      maximum, or the initial (0, 0, 180). */
  ghost predicate ScanState(seen: seq<OrientationResult>, bestEnergy: real, bestTilt: int, bestAzimuth: int)
  {
    var k := FirstMax(Energies(seen));
    if k < 0 then bestEnergy == 0.0 && bestTilt == 0 && bestAzimuth == 180
    else bestEnergy == seen[k].annualEnergy && bestTilt == seen[k].tilt && bestAzimuth == seen[k].azimuth
  }

  /** Looking at one more result updates the best values exactly as the loop body does. */
  lemma ScanStep(seen: seq<OrientationResult>, r: OrientationResult, bestEnergy: real, bestTilt: int, bestAzimuth: int)
    requires ScanState(seen, bestEnergy, bestTilt, bestAzimuth)
    ensures if r.annualEnergy > bestEnergy then ScanState(seen + [r], r.annualEnergy, r.tilt, r.azimuth)
      else ScanState(seen + [r], bestEnergy, bestTilt, bestAzimuth)
  {
    var es := Energies(seen + [r]);
    assert es[..|seen|] == Energies(seen);
    assert es[..|seen| + 1] == es;
    FirstMaxStep(es, |seen|);
  }

  /** After the whole grid the best values are those of `OptimizationOf`. */
  lemma ScanDone(seen: seq<OrientationResult>, bestEnergy: real, bestTilt: int, bestAzimuth: int, defaultTilt: real)
    requires ScanState(seen, bestEnergy, bestTilt, bestAzimuth)
    ensures OptimizationOf(seen, defaultTilt)
      == Optimization(bestTilt, bestAzimuth, bestEnergy, Improvement(bestEnergy, defaultTilt), seen)
  {
  }

  /** Position 13 t + a of the grid holds tilt 5 t and azimuth 90 + 15 a. */
  lemma GridPointAt(t: nat, a: nat)
    requires t < 13 && a < 13
    ensures GridPoint(13 * t + a) == (5 * t, 90 + 15 * a)
  {
    var k := 13 * t + a;
    assert k / 13 == t && k % 13 == a;
  }

  /** The scan over edge lengths in `shading_analysis`: the bearing of the first strictly
      longest edge, modulo 360, or 180 when no edge is longer than 0. */
  method LongestEdgeAzimuth(m: MathLib, coords: seq<Point>) returns (roofAzimuth: real)
    ensures roofAzimuth == RoofAzimuth(m, coords)
  {
    var n := |coords|;
    ghost var lengths := EdgeLengths(m, coords);
    var maxLength := 0.0;
    roofAzimuth := 180.0;
    var i := 0;
    while i < n
      invariant 0 <= i <= n
      invariant var k := FirstMax(lengths[..i]);
        && maxLength == (if k < 0 then 0.0 else lengths[k])
        && roofAzimuth == (if k < 0 then 180.0 else PyMod(EdgeBearing(m, coords, k), 360.0))
    {
      var length := EdgeLength(m, coords, i);
      FirstMaxStep(lengths, i);
      if length > maxLength {
        maxLength := length;
        roofAzimuth := PyMod(EdgeBearing(m, coords, i), 360.0);
      }
      i := i + 1;
    }
    assert lengths[..n] == lengths;
  }

  // ---------------------------------------------------------------- the calculator object

  /** `EnhancedRooftopCalculator`: the satellite switch and the two parameter dictionaries. */
  class Calculator {
    var useSatelliteData: bool
    var atmospheric: AtmosphericParams
    var rooftop: RooftopParams

    ghost predicate Valid()
      reads this
    {
      atmospheric.Valid() && rooftop.Valid()
    }

    /** Satellite data is used only when asked for, when the Earth Engine modules import, and
        when both retrievers start without raising. */
    constructor(useSatelliteData: bool, geeAvailable: bool, retrieversStart: bool)
      ensures Valid()
      ensures this.useSatelliteData == (useSatelliteData && geeAvailable && retrieversStart)
      ensures atmospheric == THAILAND_ATMOSPHERE && rooftop == DEFAULT_ROOFTOP
    {
      this.useSatelliteData := useSatelliteData && geeAvailable && retrieversStart;
      atmospheric := THAILAND_ATMOSPHERE;
      rooftop := DEFAULT_ROOFTOP;
    }

    /** `shading_analysis`: the longest-edge scan, then the orientation and elevation factors. */
    method ShadingAnalysis(m: MathLib, coords: seq<Point>, sunElevation: real, sunAzimuth: real)
      returns (s: Shading)
      ensures s == ShadingOf(m, coords, sunElevation, sunAzimuth, rooftop.shadingFactor)
    {
      if |coords| < 3 {
        return DefaultShading(rooftop.shadingFactor);
      }
      var roofAzimuth := LongestEdgeAzimuth(m, coords);
      s := ShadingAt(roofAzimuth, sunElevation, sunAzimuth, rooftop.shadingFactor);
    }

    /** `calculate_enhanced_irradiance`, given the answers of the two satellite retrievers. */
    method CalculateEnhancedIrradiance(m: MathLib, lat: real, lon: real, coords: seq<Point>, date: DateTime,
                                       surfaceTilt: Option<real>, surfaceAzimuth: Option<real>,
                                       enhanced: Era5Result, original: Option<Irradiance>)
      returns (r: EnhancedIrradiance)
      requires Valid() && m.TrigBounded() && m.InverseRanges() && m.CosPositive() && m.PowFacts()
      ensures r == EnhancedIrradianceOf(m, atmospheric, rooftop, lat, lon, coords, date, surfaceTilt, surfaceAzimuth,
                                        SatelliteIntegration(useSatelliteData, enhanced, original))
    {
      var satellite := SatelliteIntegration(useSatelliteData, enhanced, original);
      var pos := SolarPositionMichalsky(m, lat, lon, date);
      var shading := ShadingAnalysis(m, coords, pos.elevation, pos.azimuth);
      r := EnhancedIrradianceOf(m, atmospheric, rooftop, lat, lon, coords, date, surfaceTilt, surfaceAzimuth, satellite);
      assert r.shading == shading;
    }

    /** The body of the orientation search: the daily energy at the summer solstice for one
        orientation, times 365. */
    method OrientationEnergy(ghost energy: (int, int) -> real, m: MathLib, lat: real, lon: real, coords: seq<Point>,
                             tilt: int, azimuth: int, enhanced: Era5Result, original: Option<Irradiance>)
      returns (annualEnergy: real)
      requires Valid() && m.TrigBounded() && m.InverseRanges() && m.CosPositive() && m.PowFacts()
      requires IsAnnualEnergy(energy, m, atmospheric, rooftop, lat, lon, coords,
                              SatelliteIntegration(useSatelliteData, enhanced, original))
      ensures annualEnergy == energy(tilt, azimuth)
    {
      var irradiance := CalculateEnhancedIrradiance(m, lat, lon, coords, SUMMER_SOLSTICE,
                                                    Some(tilt as real), Some(azimuth as real), enhanced, original);
      annualEnergy := irradiance.dailyEnergy * 365.0;
      assert annualEnergy == AnnualEnergy(m, atmospheric, rooftop, lat, lon, coords,
                                          SatelliteIntegration(useSatelliteData, enhanced, original), tilt, azimuth);
    }

    /** The inner loop of `optimize_rooftop_orientation`: the 13 azimuths at tilt 5 t, each
        result appended and the best values updated on a strictly larger energy. */
    method ScanAzimuths(ghost energy: (int, int) -> real, m: MathLib, lat: real, lon: real, coords: seq<Point>,
                        enhanced: Era5Result, original: Option<Irradiance>, tilt: int, ghost t: nat,
                        results0: seq<OrientationResult>, bestEnergy0: real, bestTilt0: int, bestAzimuth0: int)
      returns (results: seq<OrientationResult>, bestEnergy: real, bestTilt: int, bestAzimuth: int)
      requires Valid() && m.TrigBounded() && m.InverseRanges() && m.CosPositive() && m.PowFacts()
      requires IsAnnualEnergy(energy, m, atmospheric, rooftop, lat, lon, coords,
                              SatelliteIntegration(useSatelliteData, enhanced, original))
      requires t < 13 && tilt == 5 * t && |results0| == 13 * t && results0 == GridPrefix(energy, |results0|)
      requires ScanState(results0, bestEnergy0, bestTilt0, bestAzimuth0)
      ensures |results| == 13 * (t + 1) && results == GridPrefix(energy, |results|)
      ensures ScanState(results, bestEnergy, bestTilt, bestAzimuth)
    {
      results, bestEnergy, bestTilt, bestAzimuth := results0, bestEnergy0, bestTilt0, bestAzimuth0;
      var azimuth := 90;
      ghost var a := 0;
      while azimuth <= 270
        invariant 0 <= a <= 13 && azimuth == 90 + 15 * a
        invariant |results| == 13 * t + a
        invariant results == GridPrefix(energy, |results|)
        invariant ScanState(results, bestEnergy, bestTilt, bestAzimuth)
      {
        var annualEnergy := OrientationEnergy(energy, m, lat, lon, coords, tilt, azimuth, enhanced, original);
        var result := OrientationResult(tilt, azimuth, annualEnergy);
        GridPrefixSnoc(energy, t, a, results);
        ScanStep(results, result, bestEnergy, bestTilt, bestAzimuth);
        results := results + [result];
        if annualEnergy > bestEnergy {
          bestEnergy := annualEnergy;
          bestTilt := tilt;
          bestAzimuth := azimuth;
        }
        azimuth := azimuth + 15;
        a := a + 1;
      }
    }

    /** `optimize_rooftop_orientation`: 13 tilts by 13 azimuths at the summer solstice, keeping
        the first strict maximum of the annual energy. `energy` names the objective: any function
        that agrees with `AnnualEnergy` (such as `AnnualEnergyOf`) gives the same grid. */
    method OptimizeRooftopOrientation(ghost energy: (int, int) -> real, m: MathLib, lat: real, lon: real,
                                      coords: seq<Point>, enhanced: Era5Result, original: Option<Irradiance>)
      returns (o: Optimization)
      requires Valid() && m.TrigBounded() && m.InverseRanges() && m.CosPositive() && m.PowFacts()
      requires IsAnnualEnergy(energy, m, atmospheric, rooftop, lat, lon, coords,
                              SatelliteIntegration(useSatelliteData, enhanced, original))
      ensures o == OptimizationOf(GridResults(energy), rooftop.defaultTilt)
    {
      var bestEnergy := 0.0;
      var bestTilt := 0;
      var bestAzimuth := 180;
      var results: seq<OrientationResult> := [];
      var tilt := 0;
      ghost var t := 0;
      while tilt <= 60
        invariant 0 <= t <= 13 && tilt == 5 * t
        invariant |results| == 13 * t
        invariant results == GridPrefix(energy, |results|)
        invariant ScanState(results, bestEnergy, bestTilt, bestAzimuth)
      {
        results, bestEnergy, bestTilt, bestAzimuth :=
          ScanAzimuths(energy, m, lat, lon, coords, enhanced, original, tilt, t, results, bestEnergy, bestTilt, bestAzimuth);
        tilt := tilt + 5;
        t := t + 1;
      }
      assert t == 13 && |results| == 169;
      assert results == GridResults(energy);
      ScanDone(results, bestEnergy, bestTilt, bestAzimuth, rooftop.defaultTilt);
      o := Optimization(bestTilt, bestAzimuth, bestEnergy, Improvement(bestEnergy, rooftop.defaultTilt), results);
    }
  }
}
