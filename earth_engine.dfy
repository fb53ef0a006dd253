/** Earth Engine as the model sees it: every remote reduction (`reduceRegion(...).getInfo()`,
    `sample(...)`) is an oracle answer that yields a value, yields a null or missing value, or
    raises. Transport and authentication are not part of this model. */
module EarthEngine {
  import opened Wrappers

  /** ERA5 radiation is in J/m²; dividing by this gives kWh/m². */
  const JOULES_PER_KWH: real := 3600000.0

  /** The value of `surface_solar_radiation_downwards_sum` in one reduction: present, null or
      missing, or an exception. */
  datatype Query = Value(v: real) | Null | Raised

  function ValueOf(q: Query): (r: Option<real>)
    ensures r.Some? <==> q.Value?
    ensures q.Value? ==> r.value == q.v
  {
    if q.Value? then Some(q.v) else None
  }
}
