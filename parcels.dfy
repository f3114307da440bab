/**
 * `transform_row_to_parcel`: maps one result row onto the parcel record the
 * API returns, with column fallbacks, numeric coercions, a required
 * geometry and a fallback explanation; any failure drops the row.
 */
module Parcels {
  import opened Wrappers
  import opened PyValues
  import opened Geometry

  datatype Parcel = Parcel(
    address: string,
    county: string,
    acreage: Float,
    municipality: string,
    ownerName: string,
    totalValue: Float,
    capacity: Float,
    explanation: string,
    geometry: Value)

  /**
   * The Python conversions the transform relies on: `float()` of text,
   * bytes or a foreign object such as a `Decimal`, and the record validator's coercion of a non-text value into a
   * text field (absent: the value is rejected).
   */
  datatype Coercions = Coercions(parseFloat: Value -> Option<Float>, toText: Value -> Option<string>)

  const DefaultExplanation: string := "Found parcel matching your criteria"

  /** Validation of a text field: text passes unchanged. */
  function TextField(v: Value, c: Coercions): Option<string> {
    if v.VStr? then Some(v.s) else c.toText(v)
  }

  /** `row.get(primary) or row.get(fallback) or ''`. */
  function Column(row: Row, primary: string, fallback: string): Value {
    Or(Or(Get(row, primary), Get(row, fallback)), VStr(""))
  }

  /** `float(row.get('area_acres') or row.get('acreage') or 0)`, unguarded: absent means it raised. */
  function Acreage(row: Row, c: Coercions): Option<Float> {
    PyFloat(Or(Or(Get(row, "area_acres"), Get(row, "acreage")), VInt(0)), c.parseFloat)
  }

  /** `float(v) if v is not None else 0.0`, guarded: a failed conversion also gives 0.0. */
  function FloatOrZero(v: Value, c: Coercions): (f: Float)
    ensures v == VNone ==> f == Zero
    ensures PyFloat(v, c.parseFloat).None? ==> f == Zero
    ensures v != VNone && PyFloat(v, c.parseFloat).Some? ==> f == PyFloat(v, c.parseFloat).value
  {
    if v == VNone then Zero else PyFloat(v, c.parseFloat).GetOr(Zero)
  }

  /** `explanation or DefaultExplanation`. */
  function ExplanationText(explanation: Option<string>): (e: string)
    ensures e != ""
    ensures explanation.Some? && explanation.value != "" ==> e == explanation.value
  {
    if explanation.Some? && explanation.value != "" then explanation.value else DefaultExplanation
  }

  /** Whether every text field of the row passes validation. */
  predicate TextFieldsValid(row: Row, c: Coercions) {
    TextField(Column(row, "full_address", "address"), c).Some?
    && TextField(Column(row, "county_name", "county"), c).Some?
    && TextField(Column(row, "municipality_name", "municipality"), c).Some?
    && TextField(Or(Get(row, "owner_name"), VStr("")), c).Some?
  }

  function TransformRow(row: Row, explanation: Option<string>, d: Decoders, c: Coercions): (r: Option<Parcel>)
    ensures Get(row, "geometry") == VNone ==> r.None?
    ensures r.Some? <==>
              Acreage(row, c).Some? && Get(row, "geometry") != VNone
              && ConvertGeometry(Get(row, "geometry"), d).GeoJson? && TextFieldsValid(row, c)
    ensures r.Some? ==> r.value.geometry == ConvertGeometry(Get(row, "geometry"), d).geometry
    ensures r.Some? ==> IsGeoJsonDict(r.value.geometry)
    ensures r.Some? ==> r.value.acreage == Acreage(row, c).value
    ensures r.Some? ==> r.value.totalValue == FloatOrZero(Get(row, "total_value"), c)
    ensures r.Some? ==> r.value.capacity == FloatOrZero(Or(Get(row, "ground_mounted_capacity_kw"), Get(row, "capacity")), c)
    ensures r.Some? ==> Some(r.value.address) == TextField(Column(row, "full_address", "address"), c)
    ensures r.Some? ==> Some(r.value.county) == TextField(Column(row, "county_name", "county"), c)
    ensures r.Some? ==> Some(r.value.municipality) == TextField(Column(row, "municipality_name", "municipality"), c)
    ensures r.Some? ==> Some(r.value.ownerName) == TextField(Or(Get(row, "owner_name"), VStr("")), c)
    ensures r.Some? ==> r.value.explanation == ExplanationText(explanation)
  {
    var address := TextField(Column(row, "full_address", "address"), c);
    var county := TextField(Column(row, "county_name", "county"), c);
    var acreage := Acreage(row, c);
    var municipality := TextField(Column(row, "municipality_name", "municipality"), c);
    var owner := TextField(Or(Get(row, "owner_name"), VStr("")), c);
    var totalValue := FloatOrZero(Get(row, "total_value"), c);
    var capacity := FloatOrZero(Or(Get(row, "ground_mounted_capacity_kw"), Get(row, "capacity")), c);
    var geometry := Get(row, "geometry");
    if acreage.None? || geometry == VNone then None
    else
      match ConvertGeometry(geometry, d)
      case GeoJson(g) =>
        if address.Some? && county.Some? && municipality.Some? && owner.Some? then
          Some(Parcel(address.value, county.value, acreage.value, municipality.value, owner.value,
                      totalValue, capacity, ExplanationText(explanation), g))
        else None
      case _ => None
  }

  /** A row with non-empty text columns, a non-zero float acreage and a GeoJSON dict geometry is always kept. */
  lemma {:induction false} WellFormedRowKept(row: Row, explanation: Option<string>, d: Decoders, c: Coercions)
    requires Get(row, "full_address").VStr? && Get(row, "full_address").s != ""
    requires Get(row, "county_name").VStr? && Get(row, "county_name").s != ""
    requires Get(row, "municipality_name").VStr? && Get(row, "municipality_name").s != ""
    requires Get(row, "owner_name").VStr? && Get(row, "owner_name").s != ""
    requires Get(row, "area_acres").VFloat? && Truthy(Get(row, "area_acres"))
    requires IsGeoJsonDict(Get(row, "geometry")) && IsJson(Get(row, "geometry"))
    ensures TransformRow(row, explanation, d, c).Some?
    ensures TransformRow(row, explanation, d, c).value.geometry == Get(row, "geometry")
  {
    var g := Get(row, "geometry");
    JsonCopyCanonical(g);
    assert ConvertGeometry(g, d) == GeoJson(g);
    assert TextFieldsValid(row, c);
  }

  /** A truthy foreign acreage object that `float()` converts (a non-zero `Decimal`) keeps the row, with the converted value. */
  lemma {:induction false} ObjectAcreageKept(row: Row, explanation: Option<string>, d: Decoders, c: Coercions)
    requires Get(row, "area_acres").VObject? && Truthy(Get(row, "area_acres"))
    requires c.parseFloat(Get(row, "area_acres")).Some?
    requires TextFieldsValid(row, c)
    requires IsGeoJsonDict(Get(row, "geometry")) && IsJson(Get(row, "geometry"))
    ensures TransformRow(row, explanation, d, c).Some?
    ensures TransformRow(row, explanation, d, c).value.acreage == c.parseFloat(Get(row, "area_acres")).value
  {
    JsonCopyCanonical(Get(row, "geometry"));
  }
}
