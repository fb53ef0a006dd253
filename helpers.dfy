/** The application helpers of src/utils/helpers.py: JSON-safe conversion of numpy values,
    coordinate validation, the square-degree polygon area and the energy unit choice. */
module Helpers {
  import opened Wrappers
  import opened Numeric
  import opened Polygon

  // ---------------------------------------------------------------- convert_numpy_types

  /** A native Python scalar. */
  datatype Atom = IntAtom(i: int) | FloatAtom(f: real) | StrAtom(s: string) | BoolAtom(b: bool) | NoneAtom

  /** A Python value as far as `convert_numpy_types` can tell: anything with a `dtype` (a numpy
      scalar is an array of one element), dicts and lists, which it walks, and everything else
      (tuples, sets, other objects), which it returns as it is. */
  datatype PyValue =
    | Native(atom: Atom)
    | Numpy(elements: seq<Atom>)
    | List(items: seq<PyValue>)
    | Dict(entries: seq<(Atom, PyValue)>)
    | Other(children: seq<PyValue>)

  /** `convert_numpy_types`: `.item()` of a numpy value (a ValueError unless it holds exactly
      one element), the same keys with converted values for a dict, the converted items for a
      list, and anything else unchanged. The comprehensions stop at the first exception. */
  function Convert(v: PyValue): (r: Result<PyValue>)
    ensures v.Native? || v.Other? ==> r == Ok(v)
    ensures v.Numpy? ==> r == if |v.elements| == 1 then Ok(Native(v.elements[0])) else Err(ValueError)
    ensures v.List? && r.Ok? ==> r.value.List? && |r.value.items| == |v.items|
    ensures v.Dict? && r.Ok? ==>
      r.value.Dict? && |r.value.entries| == |v.entries|
      && forall i :: 0 <= i < |v.entries| ==> r.value.entries[i].0 == v.entries[i].0
    decreases v
  {
    match v
    case Numpy(elements) => if |elements| == 1 then Ok(Native(elements[0])) else Err(ValueError)
    case List(items) =>
      var rs := Collect(seq(|items|, i requires 0 <= i < |items| => Convert(items[i])));
      if rs.Err? then Err(rs.error) else Ok(List(rs.value))
    case Dict(entries) =>
      var rs := Collect(seq(|entries|, i requires 0 <= i < |entries| => Convert(entries[i].1)));
      if rs.Err? then Err(rs.error)
      else Ok(Dict(seq(|entries|, i requires 0 <= i < |entries| => (entries[i].0, rs.value[i]))))
    case _ => Ok(v)
  }

  /** No numpy array of a size other than one is reachable through dicts and lists. */
  predicate Convertible(v: PyValue)
    decreases v
  {
    match v
    case Numpy(elements) => |elements| == 1
    case List(items) => forall i :: 0 <= i < |items| ==> Convertible(items[i])
    case Dict(entries) => forall i :: 0 <= i < |entries| ==> Convertible(entries[i].1)
    case _ => true
  }

  /** No numpy value at all is reachable through dicts and lists. */
  predicate NumpyFree(v: PyValue)
    decreases v
  {
    match v
    case Numpy(_) => false
    case List(items) => forall i :: 0 <= i < |items| ==> NumpyFree(items[i])
    case Dict(entries) => forall i :: 0 <= i < |entries| ==> NumpyFree(entries[i].1)
    case _ => true
  }

  /** Conversion fails exactly on a reachable array that is not a single element; on success
      it keeps every list item and every dict value in place, converted. */
  lemma {:induction false} ConvertShape(v: PyValue)
    ensures Convert(v).Ok? <==> Convertible(v)
    ensures v.List? && Convert(v).Ok? ==>
      forall i :: 0 <= i < |v.items| ==> Convert(v.items[i]) == Ok(Convert(v).value.items[i])
    ensures v.Dict? && Convert(v).Ok? ==>
      forall i :: 0 <= i < |v.entries| ==> Convert(v.entries[i].1) == Ok(Convert(v).value.entries[i].1)
    decreases v
  {
    match v
    case List(items) =>
      var rs := seq(|items|, i requires 0 <= i < |items| => Convert(items[i]));
      assert Convert(v).Ok? <==> Collect(rs).Ok?;
      CollectEntries(rs);
      forall i | 0 <= i < |items| ensures rs[i].Ok? <==> Convertible(items[i]) {
        ConvertShape(items[i]);
      }
      assert Convertible(v) <==> forall i :: 0 <= i < |items| ==> Convertible(items[i]);
    case Dict(entries) =>
      var rs := seq(|entries|, i requires 0 <= i < |entries| => Convert(entries[i].1));
      assert Convert(v).Ok? <==> Collect(rs).Ok?;
      CollectEntries(rs);
      forall i | 0 <= i < |entries| ensures Convert(entries[i].1).Ok? <==> Convertible(entries[i].1) {
        ConvertShape(entries[i].1);
      }
    case _ =>
  }

  /** A converted value holds no numpy value any more. */
  lemma {:induction false} ConvertRemovesNumpy(v: PyValue)
    requires Convert(v).Ok?
    ensures NumpyFree(Convert(v).value)
    decreases v
  {
    ConvertShape(v);
    match v
    case List(items) =>
      forall i | 0 <= i < |items| ensures NumpyFree(Convert(v).value.items[i]) {
        ConvertShape(items[i]);
        ConvertRemovesNumpy(items[i]);
      }
    case Dict(entries) =>
      forall i | 0 <= i < |entries| ensures NumpyFree(Convert(v).value.entries[i].1) {
        ConvertShape(entries[i].1);
        ConvertRemovesNumpy(entries[i].1);
      }
    case _ =>
  }

  /** A value without numpy values is returned as it is. */
  lemma {:induction false} ConvertKeepsNumpyFree(v: PyValue)
    requires NumpyFree(v)
    ensures Convert(v) == Ok(v)
    decreases v
  {
    match v
    case List(items) =>
      var rs := seq(|items|, i requires 0 <= i < |items| => Convert(items[i]));
      forall i | 0 <= i < |items| ensures rs[i] == Ok(items[i]) {
        ConvertKeepsNumpyFree(items[i]);
      }
      CollectEntries(rs);
      assert Collect(rs).value == items;
    case Dict(entries) =>
      var rs := seq(|entries|, i requires 0 <= i < |entries| => Convert(entries[i].1));
      forall i | 0 <= i < |entries| ensures rs[i] == Ok(entries[i].1) {
        ConvertKeepsNumpyFree(entries[i].1);
      }
      CollectEntries(rs);
      assert Convert(v).value.entries == entries;
    case Other(_) =>
    case Native(_) =>
  }

  /** Converting twice is converting once. */
  lemma ConvertIdempotent(v: PyValue)
    requires Convert(v).Ok?
    ensures Convert(Convert(v).value) == Convert(v)
  {
    ConvertRemovesNumpy(v);
    ConvertKeepsNumpyFree(Convert(v).value);
  }

  // ---------------------------------------------------------------- validate_coordinates

  /** One element of a coordinate entry. */
  datatype Component =
    | Num(value: real)     // int, float or bool: `float()` accepts it
    | Str(text: string)    // `float()` accepts it when the text is a float literal
    | NoneValue            // `float(None)` is a TypeError, which is caught
    | Opaque               // any other object without `__float__`: caught as well

  /** A coordinate entry: anything with a length (tuple, list, string), or an object without
      one, on which `len()` raises TypeError. */
  datatype Entry = Sized(parts: seq<Component>) | Unsized

  /** `float(c)` succeeds; Python's float-literal grammar is the parameter `floatSyntax`. */
  predicate FloatConvertible(c: Component, floatSyntax: string -> bool)
  {
    match c
    case Num(_) => true
    case Str(text) => floatSyntax(text)
    case _ => false
  }

  /** An entry that passes the check: a pair of float-convertible values. */
  predicate GoodEntry(e: Entry, floatSyntax: string -> bool)
  {
    e.Sized? && |e.parts| == 2 && FloatConvertible(e.parts[0], floatSyntax) && FloatConvertible(e.parts[1], floatSyntax)
  }

  /** The loop of `validate_coordinates`, entry by entry from the front. */
  function CheckEntries(coords: seq<Entry>, floatSyntax: string -> bool): Result<bool>
  {
    if coords == [] then Ok(true)
    else if coords[0].Unsized? then Err(TypeError)
    else if !GoodEntry(coords[0], floatSyntax) then Ok(false)
    else CheckEntries(coords[1..], floatSyntax)
  }

  /** `validate_coordinates` */
  function ValidCoordinates(coords: seq<Entry>, floatSyntax: string -> bool): Result<bool>
  {
    if |coords| < 3 then Ok(false) else CheckEntries(coords, floatSyntax)
  }

  /** The entries before k all pass and entry k has no length. */
  predicate FirstUnsized(coords: seq<Entry>, k: int, floatSyntax: string -> bool)
  {
    0 <= k < |coords| && coords[k].Unsized? && forall j :: 0 <= j < k ==> GoodEntry(coords[j], floatSyntax)
  }

  lemma {:induction false} CheckEntriesIff(coords: seq<Entry>, floatSyntax: string -> bool)
    ensures CheckEntries(coords, floatSyntax) == Ok(true) <==> forall i :: 0 <= i < |coords| ==> GoodEntry(coords[i], floatSyntax)
    ensures CheckEntries(coords, floatSyntax).Err? <==> exists k :: FirstUnsized(coords, k, floatSyntax)
    ensures CheckEntries(coords, floatSyntax).Err? ==> CheckEntries(coords, floatSyntax).error == TypeError
  {
    if coords != [] {
      var rest := coords[1..];
      CheckEntriesIff(rest, floatSyntax);
      assert forall i :: 0 <= i < |rest| ==> rest[i] == coords[i + 1];
      if CheckEntries(coords, floatSyntax).Err? {
        if coords[0].Unsized? {
          assert FirstUnsized(coords, 0, floatSyntax);
        } else {
          var k :| FirstUnsized(rest, k, floatSyntax);
          assert FirstUnsized(coords, k + 1, floatSyntax);
        }
      }
      if k :| FirstUnsized(coords, k, floatSyntax) {
        if k > 0 {
          assert FirstUnsized(rest, k - 1, floatSyntax);
        }
      }
    }
  }

  /** The result is True exactly for at least three good entries; the check raises exactly
      when an entry without a length comes before any bad entry. */
  lemma ValidCoordinatesIff(coords: seq<Entry>, floatSyntax: string -> bool)
    ensures ValidCoordinates(coords, floatSyntax) == Ok(true) <==>
      |coords| >= 3 && forall i :: 0 <= i < |coords| ==> GoodEntry(coords[i], floatSyntax)
    ensures ValidCoordinates(coords, floatSyntax).Err? <==>
      |coords| >= 3 && exists k :: FirstUnsized(coords, k, floatSyntax)
    ensures ValidCoordinates(coords, floatSyntax).Err? ==> ValidCoordinates(coords, floatSyntax).error == TypeError
  {
    CheckEntriesIff(coords, floatSyntax);
  }

  /** `validate_coordinates`, with its loop and early returns. */
  method ValidateCoordinates(coords: seq<Entry>, floatSyntax: string -> bool) returns (r: Result<bool>)
    ensures r == ValidCoordinates(coords, floatSyntax)
  {
    if |coords| < 3 {
      return Ok(false);
    }
    var i := 0;
    while i < |coords|
      invariant 0 <= i <= |coords|
      invariant CheckEntries(coords, floatSyntax) == CheckEntries(coords[i..], floatSyntax)
    {
      var coord := coords[i];
      assert coords[i..][1..] == coords[i + 1..];
      if coord.Unsized? {
        return Err(TypeError);
      }
      if |coord.parts| != 2 {
        return Ok(false);
      }
      if !FloatConvertible(coord.parts[0], floatSyntax) || !FloatConvertible(coord.parts[1], floatSyntax) {
        return Ok(false);
      }
      i := i + 1;
    }
    return Ok(true);
  }

  // ---------------------------------------------------------------- calculate_polygon_area

  /** `calculate_polygon_area`: the shoelace area in square degrees. */
  function PolygonArea(coords: seq<Point>): real
  {
    if |coords| < 3 then 0.0 else Abs(CyclicSum(coords)) / 2.0
  }

  /** The area is half the absolute cyclic shoelace sum for every list (fewer than three
      points give 0 either way), so it is never negative. */
  lemma PolygonAreaIsShoelace(coords: seq<Point>)
    ensures PolygonArea(coords) == Abs(CyclicSum(coords)) / 2.0
    ensures PolygonArea(coords) >= 0.0
  {
    if |coords| < 3 {
      DegenerateCyclicSum(coords);
    }
  }

  /** Appending the first vertex again, starting at another vertex or reversing the order
      leaves the area as it is. */
  lemma PolygonAreaInvariance(coords: seq<Point>)
    requires coords != []
    ensures PolygonArea(coords + [coords[0]]) == PolygonArea(coords)
    ensures PolygonArea(Rotate(coords)) == PolygonArea(coords)
    ensures PolygonArea(Reverse(coords)) == PolygonArea(coords)
  {
    PolygonAreaIsShoelace(coords);
    PolygonAreaIsShoelace(coords + [coords[0]]);
    PolygonAreaIsShoelace(Rotate(coords));
    PolygonAreaIsShoelace(Reverse(coords));
    CyclicSumClosedCopy(coords);
    CyclicSumRotate(coords);
    CyclicSumReverse(coords);
  }

  /** `calculate_polygon_area`, with its accumulating loop. */
  method CalculatePolygonArea(coords: seq<Point>) returns (area: real)
    ensures area == PolygonArea(coords)
  {
    if |coords| < 3 {
      return 0.0;
    }
    area := CyclicShoelace(coords);
    area := Abs(area) / 2.0;
  }

  // ---------------------------------------------------------------- format_energy

  /** The number `format_energy` shows (with one decimal) and its unit. */
  datatype EnergyLabel = EnergyLabel(amount: real, unit: string)

  /** `format_energy`: megawatt-hours from 1000 kWh on, kilowatt-hours below. */
  function FormatEnergy(kwh: real): (l: EnergyLabel)
    ensures l.unit == "MWh" <==> kwh >= 1000.0
    ensures l.unit == "MWh" || l.unit == "kWh"
  {
    if kwh >= 1000.0 then EnergyLabel(kwh / 1000.0, "MWh") else EnergyLabel(kwh, "kWh")
  }

  /** The label's amount in kWh. */
  function LabelKwh(l: EnergyLabel): real
  {
    if l.unit == "MWh" then l.amount * 1000.0 else l.amount
  }

  /** The label states the same energy it was given. */
  lemma FormatEnergyKeepsAmount(kwh: real)
    ensures LabelKwh(FormatEnergy(kwh)) == kwh
  {
  }
}
