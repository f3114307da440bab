/**
 * `run_query` of the current agent's database helpers: executes one SQL
 * statement and turns every PostGIS geometry object in the fetched rows
 * into a GeoJSON mapping, leaving text geometries and rows whose
 * conversion fails untouched.  A failing statement yields no rows and the
 * database's error text.
 */
module DbUtils {
  import opened Wrappers
  import opened PyValues

  /** What the database driver does with a statement: the fetched rows, or an exception with its text. */
  datatype DbOutcome = Fetched(rows: seq<Row>) | Raised(message: string)

  /** The rows are missing or empty: the outcome the validator treats as a failure. */
  predicate NoRows(o: DbOutcome) {
    o.Raised? || |o.rows| == 0
  }

  /**
   * One row after geometry conversion.  `toGeoJson` stands for
   * `json.loads(json.dumps(mapping(to_shape(g))))`; an absent result is an
   * exception, after which the original value is kept.
   */
  function ConvertRow(row: Row, toGeoJson: Value -> Option<Value>): (r: Row)
    ensures r.Keys == row.Keys
    ensures forall key :: key in row && key != "geometry" ==> r[key] == row[key]
    ensures "geometry" in row && (row["geometry"].VNone? || row["geometry"].VStr?) ==> r == row
    ensures "geometry" in row && !row["geometry"].VNone? && !row["geometry"].VStr? ==>
              r["geometry"] == toGeoJson(row["geometry"]).GetOr(row["geometry"])
  {
    if "geometry" in row && !row["geometry"].VNone? && !row["geometry"].VStr? then
      match toGeoJson(row["geometry"])
      case Some(g) => row["geometry" := g]
      case None => row
    else row
  }

  /** Every fetched row, converted, in order. */
  function ConvertedRows(rows: seq<Row>, toGeoJson: Value -> Option<Value>): (r: seq<Row>)
    ensures |r| == |rows|
    ensures forall k :: 0 <= k < |rows| ==> r[k] == ConvertRow(rows[k], toGeoJson)
  {
    seq(|rows|, k requires 0 <= k < |rows| => ConvertRow(rows[k], toGeoJson))
  }

  /** Converting a row whose geometry already is a JSON GeoJSON mapping changes nothing when the conversion is the JSON round-trip. */
  lemma {:induction false} ConvertRowKeepsJson(row: Row)
    requires "geometry" in row && IsGeoJsonDict(row["geometry"]) && IsJson(row["geometry"])
    ensures ConvertRow(row, JsonCopy) == row
  {
    JsonCopyCanonical(row["geometry"]);
    assert row["geometry" := row["geometry"]] == row;
  }

  /**
   * `run_query(sql, con)`: the first result is the converted rows, the
   * second the error text; exactly one of them is present.
   */
  method RunQuery(outcome: DbOutcome, toGeoJson: Value -> Option<Value>)
    returns (rows: Option<seq<Row>>, error: Option<string>)
    ensures rows.Some? <==> error.None?
    ensures outcome.Raised? ==> rows.None? && error == Some(outcome.message)
    ensures outcome.Fetched? ==> rows == Some(ConvertedRows(outcome.rows, toGeoJson))
  {
    if outcome.Raised? {
      return None, Some(outcome.message);
    }
    var fetched := outcome.rows;
    var converted: seq<Row> := [];
    var i := 0;
    while i < |fetched|
      invariant 0 <= i <= |fetched|
      invariant |converted| == i
      invariant forall k :: 0 <= k < i ==> converted[k] == ConvertRow(fetched[k], toGeoJson)
    {
      var rowDict := fetched[i];
      if "geometry" in rowDict && !rowDict["geometry"].VNone? {
        var geom := rowDict["geometry"];
        if !geom.VStr? {
          var geoJson := toGeoJson(geom);
          if geoJson.Some? {
            rowDict := rowDict["geometry" := geoJson.value];
          }
        }
      }
      converted := converted + [rowDict];
      i := i + 1;
    }
    assert converted == ConvertedRows(fetched, toGeoJson);
    return Some(converted), None;
  }
}
