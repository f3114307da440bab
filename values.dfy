/**
 * The Python values that flow through the server: database rows, parsed
 * JSON, geometry mappings.  Lists and tuples are told apart because a JSON
 * round-trip turns tuples into lists; foreign objects (PostGIS elements,
 * shapely shapes, `Decimal` numbers) are opaque apart from their truthiness.
 */
module PyValues {
  import opened Wrappers

  /** A Python float: a finite real, NaN, or an infinity. */
  datatype Float = Finite(r: real) | NaN | Inf(negative: bool)

  const Zero: Float := Finite(0.0)

  datatype Value =
    | VNone
    | VBool(b: bool)
    | VInt(i: int)
    | VFloat(f: Float)
    | VStr(s: string)
    | VBytes(bytes: seq<bv8>)
    | VList(items: seq<Value>)
    | VTuple(items: seq<Value>)
    | VDict(entries: map<string, Value>)
    | VObject(tag: nat, truthy: bool)  // a foreign object and its `bool()`: false for `Decimal('0')`

  /** A database row as `dict(row)` gives it. */
  type Row = map<string, Value>

  /** Python truthiness. */
  predicate Truthy(v: Value) {
    match v
    case VNone => false
    case VBool(b) => b
    case VInt(i) => i != 0
    case VFloat(f) => f != Zero
    case VStr(s) => s != ""
    case VBytes(b) => |b| > 0
    case VList(items) => |items| > 0
    case VTuple(items) => |items| > 0
    case VDict(m) => |m| > 0
    case VObject(_, t) => t
  }

  /** `row.get(key)`. */
  function Get(row: Row, key: string): (v: Value)
    ensures key !in row ==> v == VNone
  {
    if key in row then row[key] else VNone
  }

  /** Python's `a or b`: the first operand when it is truthy, otherwise the second. */
  function Or(a: Value, b: Value): (r: Value)
    ensures Truthy(a) ==> r == a
    ensures !Truthy(a) ==> r == b
  {
    if Truthy(a) then a else b
  }

  /**
   * `float(v)`: numbers and booleans convert directly; text and bytes go
   * through the parser `parse` (absent result: `ValueError`), and so does a
   * foreign object, which converts when it has `__float__` (a `Decimal`
   * from a NUMERIC column) and raises `TypeError` otherwise (absent result);
   * `None`, containers and dicts always raise `TypeError`.
   */
  function PyFloat(v: Value, parse: Value -> Option<Float>): Option<Float> {
    match v
    case VBool(b) => Some(if b then Finite(1.0) else Zero)
    case VInt(i) => Some(Finite(i as real))
    case VFloat(f) => Some(f)
    case VStr(_) => parse(v)
    case VBytes(_) => parse(v)
    case VObject(_, _) => parse(v)
    case _ => None
  }

  /** A value that `json.dumps` accepts and that `json.loads` gives back unchanged. */
  predicate IsJson(v: Value) {
    match v
    case VBytes(_) => false
    case VObject(_, _) => false
    case VTuple(_) => false
    case VList(items) => forall k :: 0 <= k < |items| ==> IsJson(items[k])
    case VDict(m) => forall key :: key in m ==> IsJson(m[key])
    case _ => true
  }

  /** `json.loads(json.dumps(v))`; absent when `json.dumps` raises. */
  function JsonCopy(v: Value): Option<Value> {
    match v
    case VBytes(_) => None
    case VObject(_, _) => None
    case VList(items) =>
      (match CopyItems(items) case Some(c) => Some(VList(c)) case None => None)
    case VTuple(items) =>
      (match CopyItems(items) case Some(c) => Some(VList(c)) case None => None)
    case VDict(m) =>
      if forall key :: key in m ==> JsonCopy(m[key]).Some? then
        Some(VDict(map key | key in m :: JsonCopy(m[key]).value))
      else None
    case _ => Some(v)
  }

  function CopyItems(items: seq<Value>): Option<seq<Value>>
    decreases items
  {
    if |items| == 0 then Some([])
    else match (JsonCopy(items[0]), CopyItems(items[1..]))
      case (Some(h), Some(t)) => Some([h] + t)
      case _ => None
  }

  /** The copy is a JSON value, and copying a JSON value gives it back: the round-trip is idempotent. */
  lemma {:induction false} JsonCopyCanonical(v: Value)
    ensures JsonCopy(v).Some? ==> IsJson(JsonCopy(v).value)
    ensures IsJson(v) ==> JsonCopy(v) == Some(v)
    decreases v, 1
  {
    match v
    case VList(items) => CopyItemsCanonical(items);
    case VTuple(items) => CopyItemsCanonical(items);
    case VDict(m) =>
      forall key | key in m
        ensures JsonCopy(m[key]).Some? ==> IsJson(JsonCopy(m[key]).value)
        ensures IsJson(m[key]) ==> JsonCopy(m[key]) == Some(m[key])
      {
        JsonCopyCanonical(m[key]);
      }
      DictCopyCanonical(m);
    case _ =>
  }

  /** The dict case: canonical entries make a canonical dict. */
  lemma {:induction false} DictCopyCanonical(m: map<string, Value>)
    requires forall key :: key in m ==> JsonCopy(m[key]).Some? ==> IsJson(JsonCopy(m[key]).value)
    requires forall key :: key in m ==> IsJson(m[key]) ==> JsonCopy(m[key]) == Some(m[key])
    ensures JsonCopy(VDict(m)).Some? ==> IsJson(JsonCopy(VDict(m)).value)
    ensures IsJson(VDict(m)) ==> JsonCopy(VDict(m)) == Some(VDict(m))
  {
    if JsonCopy(VDict(m)).Some? {
      var c := map key | key in m :: JsonCopy(m[key]).value;
      assert JsonCopy(VDict(m)) == Some(VDict(c));
      assert forall key :: key in c ==> IsJson(c[key]);
    }
    if IsJson(VDict(m)) {
      var c := map key | key in m :: JsonCopy(m[key]).value;
      assert forall key :: key in m ==> c[key] == m[key];
      assert c == m;
    }
  }

  lemma {:induction false} CopyItemsCanonical(items: seq<Value>)
    ensures CopyItems(items).Some? ==>
              |CopyItems(items).value| == |items|
              && forall k :: 0 <= k < |items| ==> IsJson(CopyItems(items).value[k])
    ensures (forall k :: 0 <= k < |items| ==> IsJson(items[k])) ==> CopyItems(items) == Some(items)
    decreases items, 0
  {
    if |items| > 0 {
      JsonCopyCanonical(items[0]);
      CopyItemsCanonical(items[1..]);
      if CopyItems(items).Some? {
        var c := CopyItems(items).value;
        assert c == [JsonCopy(items[0]).value] + CopyItems(items[1..]).value;
        forall k | 0 <= k < |items|
          ensures IsJson(c[k])
        {
          if k > 0 {
            assert c[k] == CopyItems(items[1..]).value[k - 1];
          }
        }
      }
      if forall k :: 0 <= k < |items| ==> IsJson(items[k]) {
        assert forall k :: 0 <= k < |items| - 1 ==> items[1..][k] == items[k + 1];
        assert items == [items[0]] + items[1..];
      }
    }
  }

  /** A dict carrying both GeoJSON geometry keys. */
  predicate IsGeoJsonDict(v: Value) {
    v.VDict? && "type" in v.entries && "coordinates" in v.entries
  }

  /** The JSON copy of a dict keeps its keys, so it stays GeoJSON-shaped. */
  lemma {:induction false} CopyKeepsKeys(v: Value)
    requires v.VDict? && JsonCopy(v).Some?
    ensures JsonCopy(v).value.VDict? && JsonCopy(v).value.entries.Keys == v.entries.Keys
  {
  }
}
