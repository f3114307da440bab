/**
 * The map view of the front end: converting a parcel's GeoJSON
 * coordinates into Leaflet positions, collecting the points that frame
 * the map, building the list of parcel polygons, and centring on a
 * selected parcel.  Values arrive as parsed JSON, so every coordinate is
 * an arbitrary JSON value; JavaScript's `Array.isArray`, `typeof`,
 * `isNaN`, destructuring and `map` are modelled by what they do on each
 * kind of value, and a `TypeError` inside the converter's `try` yields
 * no positions.
 */
module MapView {
  import opened Wrappers
  import opened Strings
  import opened Indices

  /** A JavaScript number as JSON can carry it, plus NaN. */
  datatype Number = Finite(value: real) | NaN

  /** A parsed JSON value; an absent property reads as `JNull` (both are falsy and not arrays). */
  datatype Js = JNull | JBool(b: bool) | JNum(n: Number) | JStr(s: string) | JArr(elems: seq<Js>) | JObj(fields: map<string, Js>)

  /** A Leaflet position `[lat, lng]`. */
  datatype LatLng = LatLng(lat: real, lng: real)

  type Ring = seq<LatLng>

  /** JavaScript truthiness of a JSON value. */
  predicate Truthy(v: Js) {
    match v
    case JNull => false
    case JBool(b) => b
    case JNum(n) => n.Finite? && n.value != 0.0
    case JStr(s) => s != ""
    case JArr(_) => true
    case JObj(_) => true
  }

  predicate IsArray(v: Js) {
    v.JArr?
  }

  /** `v[0]`: the first element of an array, the property "0" of an object, the first character of a string, otherwise undefined. */
  function First(v: Js): Js {
    match v
    case JArr(e) => if |e| > 0 then e[0] else JNull
    case JObj(f) => if "0" in f then f["0"] else JNull
    case JStr(s) => if |s| > 0 then JStr([s[0]]) else JNull
    case _ => JNull
  }

  /** A number `typeof` reports as a number and `isNaN` rejects. */
  predicate IsFiniteNumber(v: Js) {
    v.JNum? && v.n.Finite?
  }

  /** What `const [lng, lat] = coord` followed by the number test does with one coordinate. */
  datatype PointResult = Kept(p: LatLng) | Dropped | Throws

  /** The component at `i` of a destructured array, `undefined` when missing. */
  function Component(e: seq<Js>, i: nat): Js {
    if i < |e| then e[i] else JNull
  }

  /**
   * One coordinate: an array whose first two entries are numbers becomes
   * `[lat, lng]` (the entries swapped); any other array, and a string
   * (strings are iterable), is dropped; destructuring any other value
   * throws.
   */
  function ConvertPoint(coord: Js): (r: PointResult)
    ensures r.Kept? <==> coord.JArr? && IsFiniteNumber(Component(coord.elems, 0)) && IsFiniteNumber(Component(coord.elems, 1))
    ensures r.Kept? ==> r.p == LatLng(coord.elems[1].n.value, coord.elems[0].n.value)
    ensures r.Throws? <==> !coord.JArr? && !coord.JStr?
  {
    match coord
    case JArr(e) =>
      var lng := Component(e, 0);
      var lat := Component(e, 1);
      if IsFiniteNumber(lng) && IsFiniteNumber(lat) then Kept(LatLng(lat.n.value, lng.n.value)) else Dropped
    case JStr(_) => Dropped
    case _ => Throws
  }

  /** Two all-or-nothing results joined: both present, concatenated. */
  function Both<T>(x: Option<seq<T>>, y: Option<seq<T>>): (r: Option<seq<T>>)
    ensures r.Some? <==> x.Some? && y.Some?
    ensures r.Some? ==> r.value == x.value + y.value
  {
    if x.Some? && y.Some? then Some(x.value + y.value) else None
  }

  lemma {:induction false} BothAssociative<T>(x: Option<seq<T>>, y: Option<seq<T>>, z: Option<seq<T>>)
    ensures Both(Both(x, y), z) == Both(x, Both(y, z))
  {
    if x.Some? && y.Some? && z.Some? {
      assert x.value + y.value + z.value == x.value + (y.value + z.value);
    }
  }

  lemma {:induction false} BothEmptyLeft<T>(y: Option<seq<T>>)
    ensures Both(Some([]), y) == y
  {
    if y.Some? {
      assert [] + y.value == y.value;
    }
  }

  lemma {:induction false} BothEmptyRight<T>(x: Option<seq<T>>)
    ensures Both(x, Some([])) == x
  {
    if x.Some? {
      assert x.value + [] == x.value;
    }
  }

  function PointSeq(r: PointResult): Option<Ring> {
    match r
    case Kept(p) => Some([p])
    case Dropped => Some([])
    case Throws => None
  }

  /** `ring.map(convert).filter(non-null)`: the kept points in order; `None` when one coordinate throws. */
  function ConvertPoints(coords: seq<Js>): (r: Option<Ring>)
    ensures r.Some? <==> forall k :: 0 <= k < |coords| ==> !ConvertPoint(coords[k]).Throws?
    ensures r.Some? ==> |r.value| <= |coords|
    decreases |coords|
  {
    if |coords| == 0 then Some([])
    else
      var prefix := coords[..|coords| - 1];
      assert forall k :: 0 <= k < |prefix| ==> prefix[k] == coords[k];
      Both(ConvertPoints(prefix), PointSeq(ConvertPoint(coords[|coords| - 1])))
  }

  /** Converting a ring is a homomorphism: the points of a concatenation are the concatenated points. */
  lemma {:induction false} ConvertPointsAppend(a: seq<Js>, b: seq<Js>)
    ensures ConvertPoints(a + b) == Both(ConvertPoints(a), ConvertPoints(b))
    decreases |b|
  {
    if |b| == 0 {
      assert a + b == a;
      BothEmptyRight(ConvertPoints(a));
    } else {
      var b' := b[..|b| - 1];
      var last := PointSeq(ConvertPoint(b[|b| - 1]));
      assert (a + b)[..|a + b| - 1] == a + b';
      assert (a + b)[|a + b| - 1] == b[|b| - 1];
      calc {
        ConvertPoints(a + b);
        Both(ConvertPoints(a + b'), last);
        { ConvertPointsAppend(a, b'); }
        Both(Both(ConvertPoints(a), ConvertPoints(b')), last);
        { BothAssociative(ConvertPoints(a), ConvertPoints(b'), last); }
        Both(ConvertPoints(a), Both(ConvertPoints(b'), last));
      }
    }
  }

  /** One coordinate alone: kept as its swapped point, dropped, or throwing. */
  lemma {:induction false} ConvertSinglePoint(coord: Js)
    ensures ConvertPoints([coord]) == PointSeq(ConvertPoint(coord))
  {
    assert [coord][..0] == [];
    BothEmptyLeft(PointSeq(ConvertPoint(coord)));
  }

  /** A valid coordinate `[lng, lat, ...]`. */
  predicate ValidPoint(coord: Js) {
    coord.JArr? && IsFiniteNumber(Component(coord.elems, 0)) && IsFiniteNumber(Component(coord.elems, 1))
  }

  function Swap(coord: Js): LatLng
    requires ValidPoint(coord)
  {
    LatLng(coord.elems[1].n.value, coord.elems[0].n.value)
  }

  /** When every coordinate is valid, the ring keeps every point, in order, each with latitude and longitude swapped. */
  lemma {:induction false} ValidRingSwapsEveryPoint(coords: seq<Js>)
    requires forall k :: 0 <= k < |coords| ==> ValidPoint(coords[k])
    ensures ConvertPoints(coords).Some? && |ConvertPoints(coords).value| == |coords|
    ensures forall k :: 0 <= k < |coords| ==> ConvertPoints(coords).value[k] == Swap(coords[k])
    decreases |coords|
  {
    if |coords| > 0 {
      var n := |coords|;
      var prefix := coords[..n - 1];
      assert forall k :: 0 <= k < |prefix| ==> prefix[k] == coords[k];
      ValidRingSwapsEveryPoint(prefix);
      assert ConvertPoint(coords[n - 1]) == Kept(Swap(coords[n - 1]));
    }
  }

  /** A ring: an array maps its coordinates; calling `map` on anything else throws. */
  function ConvertRing(ring: Js): Option<Ring> {
    if ring.JArr? then ConvertPoints(ring.elems) else None
  }

  /** `polygon.map(ring => ...)`: one converted ring per input ring, or `None` when one throws. */
  function ConvertRings(rings: seq<Js>): (r: Option<seq<Ring>>)
    ensures r.Some? <==> forall k :: 0 <= k < |rings| ==> ConvertRing(rings[k]).Some?
    ensures r.Some? ==> |r.value| == |rings| && forall k :: 0 <= k < |rings| ==> r.value[k] == ConvertRing(rings[k]).value
    decreases |rings|
  {
    if |rings| == 0 then Some([])
    else
      var prefix := rings[..|rings| - 1];
      assert forall k :: 0 <= k < |prefix| ==> prefix[k] == rings[k];
      var last := ConvertRing(rings[|rings| - 1]);
      Both(ConvertRings(prefix), if last.Some? then Some([last.value]) else None)
  }

  /** `multiPolygon.flatMap(polygon => polygon.map(...))`: the rings of all polygons, concatenated in order. */
  function ConvertPolygons(polygons: seq<Js>): (r: Option<seq<Ring>>)
    ensures r.Some? <==> forall k :: 0 <= k < |polygons| ==> polygons[k].JArr? && ConvertRings(polygons[k].elems).Some?
    decreases |polygons|
  {
    if |polygons| == 0 then Some([])
    else
      var prefix := polygons[..|polygons| - 1];
      assert forall k :: 0 <= k < |prefix| ==> prefix[k] == polygons[k];
      var last := polygons[|polygons| - 1];
      Both(ConvertPolygons(prefix), if last.JArr? then ConvertRings(last.elems) else None)
  }

  /** Flattening polygons distributes over concatenation. */
  lemma {:induction false} ConvertPolygonsAppend(a: seq<Js>, b: seq<Js>)
    ensures ConvertPolygons(a + b) == Both(ConvertPolygons(a), ConvertPolygons(b))
    decreases |b|
  {
    if |b| == 0 {
      assert a + b == a;
      BothEmptyRight(ConvertPolygons(a));
    } else {
      var b' := b[..|b| - 1];
      var p := b[|b| - 1];
      var last := if p.JArr? then ConvertRings(p.elems) else None;
      assert (a + b)[..|a + b| - 1] == a + b';
      assert (a + b)[|a + b| - 1] == p;
      calc {
        ConvertPolygons(a + b);
        Both(ConvertPolygons(a + b'), last);
        { ConvertPolygonsAppend(a, b'); }
        Both(Both(ConvertPolygons(a), ConvertPolygons(b')), last);
        { BothAssociative(ConvertPolygons(a), ConvertPolygons(b'), last); }
        Both(ConvertPolygons(a), Both(ConvertPolygons(b'), last));
      }
    }
  }

  /** A single polygon contributes exactly its own rings. */
  lemma {:induction false} SinglePolygonRings(polygon: Js)
    requires polygon.JArr?
    ensures ConvertPolygons([polygon]) == ConvertRings(polygon.elems)
  {
    assert [polygon][..0] == [];
    BothEmptyLeft(ConvertRings(polygon.elems));
  }

  /** The MultiPolygon test: `coordinates[0][0][0]` is an array. */
  predicate MultiPolygonShape(cs: seq<Js>) {
    |cs| > 0 && IsArray(cs[0]) && IsArray(First(cs[0])) && IsArray(First(First(cs[0])))
  }

  /** The Polygon test: `coordinates[0][0]` is an array. */
  predicate PolygonShape(cs: seq<Js>) {
    |cs| > 0 && IsArray(cs[0]) && IsArray(First(cs[0]))
  }

  /**
   * `geoJsonToLeaflet`.  Reading `length` of `null` throws before the
   * `try`, and every caller tests the coordinates for truthiness first,
   * so `null` is excluded.  Any other value that is not an array either
   * has no elements to convert or makes `map`/`flatMap` throw, and
   * yields `[]`.
   */
  function GeoJsonToLeaflet(coordinates: Js): (r: seq<Ring>)
    requires !coordinates.JNull?
    ensures coordinates == JArr([]) ==> r == []
    ensures !coordinates.JArr? ==> r == []
    ensures coordinates.JArr? && MultiPolygonShape(coordinates.elems) ==> r == ConvertPolygons(coordinates.elems).GetOr([])
    ensures coordinates.JArr? && !MultiPolygonShape(coordinates.elems) && PolygonShape(coordinates.elems) ==>
              r == ConvertRings(coordinates.elems).GetOr([])
    ensures coordinates.JArr? && !PolygonShape(coordinates.elems) ==> r == []
  {
    match coordinates
    case JArr(cs) =>
      if |cs| == 0 then []
      else if MultiPolygonShape(cs) then ConvertPolygons(cs).GetOr([])
      else if PolygonShape(cs) then ConvertRings(cs).GetOr([])
      else []
    case _ => []
  }

  /** A Polygon whose rings all convert keeps its ring count. */
  lemma {:induction false} PolygonKeepsRingCount(cs: seq<Js>)
    requires PolygonShape(cs) && !MultiPolygonShape(cs)
    requires forall k :: 0 <= k < |cs| ==> ConvertRing(cs[k]).Some?
    ensures |GeoJsonToLeaflet(JArr(cs))| == |cs|
  {
  }

  /** A MultiPolygon of two parts yields the first part's rings followed by the second's. */
  lemma {:induction false} MultiPolygonConcatenates(a: seq<Js>, b: seq<Js>)
    requires MultiPolygonShape(a)
    requires ConvertPolygons(a).Some? && ConvertPolygons(b).Some?
    ensures GeoJsonToLeaflet(JArr(a + b)) == ConvertPolygons(a).value + ConvertPolygons(b).value
  {
    assert (a + b)[0] == a[0];
    ConvertPolygonsAppend(a, b);
  }

  /** A parcel as the map view reads it: its address and its `geometry` (JSON `null` when absent). */
  datatype MapParcel = MapParcel(address: string, geometry: Js)

  /** `parcel.geometry && parcel.geometry.coordinates`: the coordinates when both are truthy. */
  function Coordinates(p: MapParcel): (r: Option<Js>)
    ensures r.Some? ==> Truthy(r.value) && !r.value.JNull?
  {
    if Truthy(p.geometry) && p.geometry.JObj? && "coordinates" in p.geometry.fields && Truthy(p.geometry.fields["coordinates"]) then
      Some(p.geometry.fields["coordinates"])
    else None
  }

  /** The Leaflet positions of a parcel with coordinates. */
  function Positions(p: MapParcel): Option<seq<Ring>> {
    match Coordinates(p)
    case Some(c) => Some(GeoJsonToLeaflet(c))
    case None => None
  }

  // ---------------------------------------------------------------------
  // Framing the map on all parcels.
  // ---------------------------------------------------------------------

  /** The bounds filter: latitude within [-90, 90] and longitude within [-180, 180]. */
  predicate InBounds(p: LatLng) {
    -90.0 <= p.lat <= 90.0 && -180.0 <= p.lng <= 180.0
  }

  /** The points of one ring that pass the bounds filter, in order. */
  function RingBounds(ring: Ring): (r: seq<LatLng>)
    ensures forall k :: 0 <= k < |r| ==> InBounds(r[k]) && r[k] in ring
    decreases |ring|
  {
    if |ring| == 0 then []
    else
      var prefix := ring[..|ring| - 1];
      assert forall k :: 0 <= k < |prefix| ==> prefix[k] in ring;
      RingBounds(prefix) + (if InBounds(ring[|ring| - 1]) then [ring[|ring| - 1]] else [])
  }

  /** Every point of a ring that passes the filter is collected. */
  lemma {:induction false} RingBoundsComplete(ring: Ring, p: LatLng)
    requires p in ring && InBounds(p)
    ensures p in RingBounds(ring)
    decreases |ring|
  {
    var n := |ring|;
    if ring[n - 1] != p {
      var prefix := ring[..n - 1];
      var k :| 0 <= k < n && ring[k] == p;
      assert prefix[k] == p;
      RingBoundsComplete(prefix, p);
    }
  }

  /** The filtered points of all rings, in order. */
  function RingsBounds(rings: seq<Ring>): (r: seq<LatLng>)
    ensures forall k :: 0 <= k < |r| ==> InBounds(r[k])
    decreases |rings|
  {
    if |rings| == 0 then [] else RingsBounds(rings[..|rings| - 1]) + RingBounds(rings[|rings| - 1])
  }

  /** The filtered points of one parcel; a parcel without coordinates contributes none. */
  function ParcelBounds(p: MapParcel): (r: seq<LatLng>)
    ensures forall k :: 0 <= k < |r| ==> InBounds(r[k])
  {
    match Positions(p)
    case Some(rings) => RingsBounds(rings)
    case None => []
  }

  /** The points `allCoordinates` holds after the nested `forEach`. */
  function BoundsPoints(parcels: seq<MapParcel>): (r: seq<LatLng>)
    ensures forall k :: 0 <= k < |r| ==> InBounds(r[k])
    decreases |parcels|
  {
    if |parcels| == 0 then [] else BoundsPoints(parcels[..|parcels| - 1]) + ParcelBounds(parcels[|parcels| - 1])
  }

  /** The innermost `ring.forEach`: pushes the in-range positions of one ring. */
  method PushRing(allCoordinates: seq<LatLng>, ring: Ring) returns (pushed: seq<LatLng>)
    ensures pushed == allCoordinates + RingBounds(ring)
  {
    pushed := allCoordinates;
    var j := 0;
    while j < |ring|
      invariant 0 <= j <= |ring|
      invariant pushed == allCoordinates + RingBounds(ring[..j])
    {
      var pos := ring[j];
      assert ring[..j + 1][..j] == ring[..j];
      if InBounds(pos) {
        pushed := pushed + [pos];
      }
      j := j + 1;
    }
    assert ring[..j] == ring;
  }

  /** `positions.forEach`: pushes the in-range positions of every ring. */
  method PushRings(allCoordinates: seq<LatLng>, positions: seq<Ring>) returns (pushed: seq<LatLng>)
    ensures pushed == allCoordinates + RingsBounds(positions)
  {
    pushed := allCoordinates;
    var r := 0;
    while r < |positions|
      invariant 0 <= r <= |positions|
      invariant pushed == allCoordinates + RingsBounds(positions[..r])
    {
      assert positions[..r + 1][..r] == positions[..r];
      pushed := PushRing(pushed, positions[r]);
      r := r + 1;
    }
    assert positions[..r] == positions;
  }

  /** The nested loops of `MapUpdater` that push every in-range position of every parcel. */
  method CollectBounds(parcels: seq<MapParcel>) returns (allCoordinates: seq<LatLng>)
    ensures allCoordinates == BoundsPoints(parcels)
  {
    allCoordinates := [];
    var i := 0;
    assert parcels[..0] == [];
    while i < |parcels|
      invariant 0 <= i <= |parcels|
      invariant allCoordinates == BoundsPoints(parcels[..i])
    {
      var parcel := parcels[i];
      assert parcels[..i + 1][..i] == parcels[..i];
      var coordinates := Coordinates(parcel);
      if coordinates.Some? {
        allCoordinates := PushRings(allCoordinates, GeoJsonToLeaflet(coordinates.value));
      }
      assert allCoordinates == BoundsPoints(parcels[..i]) + ParcelBounds(parcel);
      assert BoundsPoints(parcels[..i + 1]) == BoundsPoints(parcels[..i]) + ParcelBounds(parcel);
      i := i + 1;
    }
    assert parcels[..i] == parcels;
  }

  /** What an effect asks of the map. */
  datatype ViewAction = NoChange | FitBounds(points: seq<LatLng>) | SetView(center: LatLng, zoom: nat)

  /** The default view: the middle of Massachusetts at zoom 8. */
  const DefaultCenter: LatLng := LatLng(42.2373, -71.5314)
  const DefaultZoom: nat := 8
  const SelectedZoom: nat := 14

  /** The first effect of `MapUpdater`: nothing while a parcel is selected, the default view without parcels, otherwise fit the collected points if there are any. */
  function OverviewAction(parcels: seq<MapParcel>, hasSelection: bool): (r: ViewAction)
    ensures hasSelection ==> r == NoChange
    ensures !hasSelection && |parcels| == 0 ==> r == SetView(DefaultCenter, DefaultZoom)
    ensures !hasSelection && |parcels| > 0 ==>
              r == (if |BoundsPoints(parcels)| > 0 then FitBounds(BoundsPoints(parcels)) else NoChange)
    ensures r.FitBounds? ==> |r.points| > 0 && forall k :: 0 <= k < |r.points| ==> InBounds(r.points[k])
  {
    if hasSelection then NoChange
    else if |parcels| == 0 then SetView(DefaultCenter, DefaultZoom)
    else
      var points := BoundsPoints(parcels);
      if |points| > 0 then FitBounds(points) else NoChange
  }

  /** The second effect: centre on the first point of the first ring, only when that ring has a point. */
  function SelectedCenter(selected: MapParcel): (r: Option<LatLng>)
    ensures r.Some? <==> Positions(selected).Some? && |Positions(selected).value| > 0 && |Positions(selected).value[0]| > 0
    ensures r.Some? ==> r.value == Positions(selected).value[0][0]
  {
    match Positions(selected)
    case Some(positions) => if |positions| > 0 && |positions[0]| > 0 then Some(positions[0][0]) else None
    case None => None
  }

  /** For a Polygon whose rings all convert and whose first vertex is valid, the centre is that vertex with its components swapped. */
  lemma {:induction false} SelectedCenterIsFirstVertex(selected: MapParcel, cs: seq<Js>)
    requires Coordinates(selected) == Some(JArr(cs))
    requires |cs| > 0 && cs[0].JArr? && |cs[0].elems| > 0 && ValidPoint(cs[0].elems[0])
    requires forall k :: 0 <= k < |cs| ==> ConvertRing(cs[k]).Some?
    ensures SelectedCenter(selected) == Some(Swap(cs[0].elems[0]))
  {
    var ring := cs[0].elems;
    assert !MultiPolygonShape(cs);
    assert ring == [ring[0]] + ring[1..];
    ConvertPointsAppend([ring[0]], ring[1..]);
    ConvertSinglePoint(ring[0]);
  }

  // ---------------------------------------------------------------------
  // The parcel polygons.
  // ---------------------------------------------------------------------

  /** One polygon to draw. */
  datatype PolygonEntry = PolygonEntry(key: string, parcel: MapParcel, positions: seq<Ring>, isSelected: bool)

  /** The stable key: the address (or "parcel-<index>" when it is empty), then "-<index>". */
  function Key(address: string, index: nat): (r: string)
    ensures |r| > |NatToString(index)| && r[|r| - |NatToString(index)| - 1] == '-'
    ensures r[|r| - |NatToString(index)|..] == NatToString(index)
  {
    var head := if address != "" then address else "parcel-" + NatToString(index);
    var r := head + "-" + NatToString(index);
    assert r[|r| - |NatToString(index)|..] == NatToString(index);
    r
  }

  /** Keys of different indices differ, whatever the addresses are. */
  lemma {:induction false} KeysDiffer(a: string, i: nat, b: string, j: nat)
    requires i != j
    ensures Key(a, i) != Key(b, j)
  {
    var x, y := Key(a, i), Key(b, j);
    var di, dj := NatToString(i), NatToString(j);
    if |di| == |dj| {
      if di == dj {
        NatToStringInjective(i, j);
      }
    } else if |di| < |dj| {
      assert y[|y| - |di| - 1] == dj[|dj| - |di| - 1];
      assert IsDigit(y[|y| - |di| - 1]);
    } else {
      assert x[|x| - |dj| - 1] == di[|di| - |dj| - 1];
      assert IsDigit(x[|x| - |dj| - 1]);
    }
  }

  /**
   * The entry for the parcel at `index`, if it gets one: it needs
   * coordinates, at least one ring after conversion and at least three
   * points in the first ring.  Selection is the identity of the selected
   * parcel, here its index.
   */
  function Entry(parcel: MapParcel, index: nat, selected: Option<nat>): (r: Option<PolygonEntry>)
    ensures r.Some? <==> Positions(parcel).Some? && |Positions(parcel).value| > 0 && |Positions(parcel).value[0]| >= 3
    ensures r.Some? ==> r.value.key == Key(parcel.address, index) && r.value.parcel == parcel
                        && r.value.positions == Positions(parcel).value && (r.value.isSelected <==> selected == Some(index))
  {
    match Positions(parcel)
    case None => None
    case Some(positions) =>
      if |positions| == 0 || |positions[0]| < 3 then None
      else Some(PolygonEntry(Key(parcel.address, index), parcel, positions, selected == Some(index)))
  }

  function EntrySeq(e: Option<PolygonEntry>): seq<PolygonEntry> {
    if e.Some? then [e.value] else []
  }

  /** The entries of all parcels, in parcel order. */
  function Polygons(parcels: seq<MapParcel>, selected: Option<nat>): seq<PolygonEntry>
    decreases |parcels|
  {
    if |parcels| == 0 then []
    else Polygons(parcels[..|parcels| - 1], selected) + EntrySeq(Entry(parcels[|parcels| - 1], |parcels| - 1, selected))
  }

  /**
   * The polygons correspond, in order, to exactly the parcels that get an
   * entry: `idx` lists their indices, strictly increasing.
   */
  lemma {:induction false} PolygonIndices(parcels: seq<MapParcel>, selected: Option<nat>) returns (idx: seq<nat>)
    ensures DrawnFrom(parcels, selected, Polygons(parcels, selected), idx)
    decreases |parcels|
  {
    if |parcels| == 0 {
      idx := [];
    } else {
      var n := |parcels|;
      var before := PolygonIndices(parcels[..n - 1], selected);
      if Entry(parcels[n - 1], n - 1, selected).Some? {
        idx := DrawnKeep(parcels, selected, Polygons(parcels[..n - 1], selected), before);
      } else {
        DrawnSkip(parcels, selected, Polygons(parcels[..n - 1], selected), before);
        idx := before;
      }
    }
  }

  /**
   * `idx` lists, strictly increasing, the indices of the parcels that get a
   * polygon, and `ps` holds their entries in that order.
   */
  ghost predicate DrawnFrom(parcels: seq<MapParcel>, selected: Option<nat>, ps: seq<PolygonEntry>, idx: seq<nat>) {
    && |idx| == |ps|
    && (forall k, l :: 0 <= k < l < |idx| ==> idx[k] < idx[l])
    && (forall k :: 0 <= k < |idx| ==> idx[k] < |parcels| && Entry(parcels[idx[k]], idx[k], selected) == Some(ps[k]))
    && (forall i :: 0 <= i < |parcels| && Entry(parcels[i], i, selected).Some? ==> i in idx)
  }

  lemma {:induction false} DrawnKeep(parcels: seq<MapParcel>, selected: Option<nat>, ps: seq<PolygonEntry>, before: seq<nat>)
    returns (idx: seq<nat>)
    requires |parcels| > 0 && Entry(parcels[|parcels| - 1], |parcels| - 1, selected).Some?
    requires ps == Polygons(parcels[..|parcels| - 1], selected)
    requires DrawnFrom(parcels[..|parcels| - 1], selected, ps, before)
    ensures DrawnFrom(parcels, selected, Polygons(parcels, selected), idx)
  {
    var n := |parcels|;
    var last := Entry(parcels[n - 1], n - 1, selected).value;
    PolygonsSnoc(parcels, selected);
    idx := before + [n - 1];
    IncreasingSnoc(before, n - 1);
    DrawnKeepSound(parcels, selected, ps, before, last);
    DrawnKeepComplete(parcels, selected, ps, before);
  }

  lemma {:induction false} PolygonsSnoc(parcels: seq<MapParcel>, selected: Option<nat>)
    requires |parcels| > 0 && Entry(parcels[|parcels| - 1], |parcels| - 1, selected).Some?
    ensures Polygons(parcels, selected)
            == Polygons(parcels[..|parcels| - 1], selected) + [Entry(parcels[|parcels| - 1], |parcels| - 1, selected).value]
  {
  }

  lemma {:induction false} DrawnKeepSound(parcels: seq<MapParcel>, selected: Option<nat>, ps: seq<PolygonEntry>, before: seq<nat>, last: PolygonEntry)
    requires |parcels| > 0 && Entry(parcels[|parcels| - 1], |parcels| - 1, selected) == Some(last)
    requires |before| == |ps|
    requires forall k :: 0 <= k < |before| ==>
               before[k] < |parcels| - 1 && Entry(parcels[..|parcels| - 1][before[k]], before[k], selected) == Some(ps[k])
    ensures forall k :: 0 <= k < |before| + 1 ==>
              (before + [|parcels| - 1])[k] < |parcels|
              && Entry(parcels[(before + [|parcels| - 1])[k]], (before + [|parcels| - 1])[k], selected) == Some((ps + [last])[k])
  {
    var n := |parcels|;
    var idx := before + [n - 1];
    forall k | 0 <= k < |idx|
      ensures idx[k] < n && Entry(parcels[idx[k]], idx[k], selected) == Some((ps + [last])[k])
    {
      if k < |before| {
        assert idx[k] == before[k];
        assert parcels[..n - 1][before[k]] == parcels[before[k]];
      }
    }
  }

  lemma {:induction false} DrawnKeepComplete(parcels: seq<MapParcel>, selected: Option<nat>, ps: seq<PolygonEntry>, before: seq<nat>)
    requires |parcels| > 0
    requires forall i :: 0 <= i < |parcels| - 1 && Entry(parcels[..|parcels| - 1][i], i, selected).Some? ==> i in before
    ensures forall i :: 0 <= i < |parcels| && Entry(parcels[i], i, selected).Some? ==> i in before + [|parcels| - 1]
  {
    var n := |parcels|;
    forall i | 0 <= i < n && Entry(parcels[i], i, selected).Some?
      ensures i in before + [n - 1]
    {
      if i < n - 1 {
        assert parcels[..n - 1][i] == parcels[i];
        assert i in before;
      } else {
        assert (before + [n - 1])[|before|] == i;
      }
    }
  }

  lemma {:induction false} DrawnSkip(parcels: seq<MapParcel>, selected: Option<nat>, ps: seq<PolygonEntry>, before: seq<nat>)
    requires |parcels| > 0 && Entry(parcels[|parcels| - 1], |parcels| - 1, selected).None?
    requires ps == Polygons(parcels[..|parcels| - 1], selected)
    requires DrawnFrom(parcels[..|parcels| - 1], selected, ps, before)
    ensures DrawnFrom(parcels, selected, Polygons(parcels, selected), before)
  {
    var n := |parcels|;
    assert Polygons(parcels, selected) == ps + EntrySeq(None);
    assert Polygons(parcels, selected) == ps;
    forall k | 0 <= k < |before|
      ensures Entry(parcels[before[k]], before[k], selected) == Some(ps[k])
    {
      assert parcels[..n - 1][before[k]] == parcels[before[k]];
    }
    forall i | 0 <= i < n && Entry(parcels[i], i, selected).Some?
      ensures i in before
    {
      assert i < n - 1;
      assert parcels[..n - 1][i] == parcels[i];
    }
  }

  /** No two polygons share a key. */
  lemma {:induction false} KeysUnique(parcels: seq<MapParcel>, selected: Option<nat>)
    ensures var ps := Polygons(parcels, selected);
            forall k, l :: 0 <= k < l < |ps| ==> ps[k].key != ps[l].key
  {
    var ps := Polygons(parcels, selected);
    var idx := PolygonIndices(parcels, selected);
    forall k, l | 0 <= k < l < |ps|
      ensures ps[k].key != ps[l].key
    {
      KeysDiffer(parcels[idx[k]].address, idx[k], parcels[idx[l]].address, idx[l]);
    }
  }

  /** At most one polygon is drawn as selected. */
  lemma {:induction false} AtMostOneSelected(parcels: seq<MapParcel>, selected: Option<nat>)
    ensures var ps := Polygons(parcels, selected);
            forall k, l :: 0 <= k < l < |ps| ==> !(ps[k].isSelected && ps[l].isSelected)
  {
    var idx := PolygonIndices(parcels, selected);
  }

  /** The `forEach` of `parcelPolygons` that pushes one entry per drawable parcel. */
  method ParcelPolygons(parcels: seq<MapParcel>, selected: Option<nat>) returns (polygons: seq<PolygonEntry>)
    ensures polygons == Polygons(parcels, selected)
  {
    polygons := [];
    var index := 0;
    while index < |parcels|
      invariant 0 <= index <= |parcels|
      invariant polygons == Polygons(parcels[..index], selected)
    {
      var parcel := parcels[index];
      assert parcels[..index + 1][..index] == parcels[..index];
      var coordinates := Coordinates(parcel);
      if coordinates.Some? {
        var positions := GeoJsonToLeaflet(coordinates.value);
        if |positions| > 0 {
          var firstRing := positions[0];
          if |firstRing| >= 3 {
            var parcelKey := if parcel.address != "" then parcel.address else "parcel-" + NatToString(index);
            polygons := polygons + [PolygonEntry(parcelKey + "-" + NatToString(index), parcel, positions, selected == Some(index))];
          }
        }
      }
      index := index + 1;
    }
    assert parcels[..index] == parcels;
  }
}
