/**
 * `convert_geometry_to_geojson`: normalises whatever the database returned
 * in a geometry column (a mapping, GeoJSON text, WKB text, a PostGIS element,
 * a shape, raw WKB bytes) into a GeoJSON geometry dict, trying the decoders
 * in a fixed order and giving up with `None`.
 */
module Geometry {
  import opened Wrappers
  import opened Strings
  import opened PyValues

  /**
   * The foreign decoders, each composed with `shapely_mapping` where the
   * source does so; an absent result means the call raised.
   */
  datatype Decoders = Decoders(
    parseJson: string -> Option<Value>,    // json.loads
    wkbHex: string -> Option<Value>,       // mapping(wkb.loads(text, hex=True))
    wkbText: string -> Option<Value>,      // mapping(wkb.loads(text))
    toShape: Value -> Option<Value>,       // mapping(to_shape(element))
    geoInterface: Value -> Option<Value>,  // element.__geo_interface__, absent when missing
    wkbBytes: seq<bv8> -> Option<Value>)   // mapping(wkb.loads(bytes))

  /** The function's outcome: a geometry dict, `None`, or an exception escaping it. */
  datatype Conversion = GeoJson(geometry: Value) | NoGeometry | Raised

  /** One guarded decoding attempt: it returns, finishes its `try` without returning, or raises. */
  datatype Attempt = Returned(geometry: Value) | FellThrough | Excepted

  /** Accept a decoded value when it is a dict with both geometry keys, returning its JSON copy. */
  function Try(decoded: Option<Value>): (r: Attempt)
    ensures r.Returned? ==> IsGeoJsonDict(r.geometry) && IsJson(r.geometry)
    ensures r.Returned? <==> decoded.Some? && IsGeoJsonDict(decoded.value) && JsonCopy(decoded.value).Some?
  {
    match decoded
    case None => Excepted
    case Some(m) =>
      if IsGeoJsonDict(m) then
        match JsonCopy(m)
        case Some(c) =>
          JsonCopyCanonical(m);
          CopyKeepsKeys(m);
          Returned(c)
        case None => Excepted
      else FellThrough
  }

  /** The text stages: GeoJSON text first, then hex WKB and plain WKB text for strings longer than 20 characters. */
  function FromText(t: string, d: Decoders): (r: Option<Value>)
    ensures r.Some? ==> IsGeoJsonDict(r.value) && IsJson(r.value)
  {
    match Try(d.parseJson(t))
    case Returned(c) => Some(c)
    case _ =>
      if |t| > 20 then
        match Try(d.wkbHex(t))
        case Returned(c) => Some(c)
        case FellThrough => None
        case Excepted =>
          (match Try(d.wkbText(t)) case Returned(c) => Some(c) case _ => None)
      else None
  }

  /** The object stages: `to_shape`, then `__geo_interface__`, then WKB bytes. */
  function FromObject(g: Value, d: Decoders): (r: Conversion)
    ensures !r.Raised?
    ensures r.GeoJson? ==> IsGeoJsonDict(r.geometry) && IsJson(r.geometry)
  {
    match Try(d.toShape(g))
    case Returned(c) => GeoJson(c)
    case FellThrough => NoGeometry
    case Excepted =>
      match Try(d.geoInterface(g))
      case Returned(c) => GeoJson(c)
      case _ =>
        if g.VBytes? then
          (match Try(d.wkbBytes(g.bytes)) case Returned(c) => GeoJson(c) case _ => NoGeometry)
        else NoGeometry
  }

  function ConvertGeometry(g: Value, d: Decoders): (r: Conversion)
    ensures g == VNone ==> r == NoGeometry
    ensures g.VDict? && !IsGeoJsonDict(g) ==> r == NoGeometry
    ensures g.VDict? && IsGeoJsonDict(g) ==> r == (match JsonCopy(g) case Some(c) => GeoJson(c) case None => Raised)
    ensures g.VStr? && Strip(g.s) == "" ==> r == NoGeometry
    ensures r.Raised? ==> g.VDict?
    ensures r.GeoJson? ==> IsGeoJsonDict(r.geometry) && IsJson(r.geometry)
  {
    match g
    case VNone => NoGeometry
    case VDict(_) =>
      if IsGeoJsonDict(g) then
        (match JsonCopy(g)
         case Some(c) =>
           JsonCopyCanonical(g);
           CopyKeepsKeys(g);
           GeoJson(c)
         case None => Raised)
      else NoGeometry
    case VStr(s) =>
      var t := Strip(s);
      if t == "" then NoGeometry
      else
        (match FromText(t, d)
         case Some(c) => GeoJson(c)
         case None => FromObject(VStr(t), d))
    case _ => FromObject(g, d)
  }

  /** Normalising an already normalised geometry gives it back unchanged, whatever the decoders. */
  lemma {:induction false} ConvertIdempotent(g: Value, d: Decoders, d': Decoders)
    requires ConvertGeometry(g, d).GeoJson?
    ensures ConvertGeometry(ConvertGeometry(g, d).geometry, d') == ConvertGeometry(g, d)
  {
    JsonCopyCanonical(ConvertGeometry(g, d).geometry);
  }

  /** Text of at most 20 characters after trimming never reaches the WKB decoders. */
  lemma {:induction false} ShortTextSkipsWkb(s: string, d: Decoders, hex: string -> Option<Value>, text: string -> Option<Value>)
    requires |Strip(s)| <= 20
    ensures ConvertGeometry(VStr(s), d) == ConvertGeometry(VStr(s), d.(wkbHex := hex, wkbText := text))
  {
  }

  /** GeoJSON text is taken as it parses, before any WKB decoding is tried. */
  lemma {:induction false} GeoJsonTextFirst(s: string, d: Decoders, m: Value)
    requires Strip(s) != "" && d.parseJson(Strip(s)) == Some(m) && IsGeoJsonDict(m) && JsonCopy(m).Some?
    ensures ConvertGeometry(VStr(s), d) == GeoJson(JsonCopy(m).value)
  {
  }
}
