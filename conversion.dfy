/**
 * Default-on-missing field getters over a decoded JSON object
 * (internal/utils/conversion.go). A JSON value carries the dynamic type Go's
 * decoder gave it; every getter answers the typed value or a zero default and
 * never fails.
 */
module Conversion {
  import opened Wrappers

  /** A value held in a map[string]interface{}; the numeric cases keep their Go type. */
  datatype JsonValue =
    | JString(s: string)
    | JFloat64(f: real)
    | JFloat32(f: real)
    | JInt(i: int)
    | JInt64(i: int)
    | JBool(b: bool)
    | JNull
    | JArray(items: seq<JsonValue>)
    | JObject(fields: map<string, JsonValue>)

  type JsonObject = map<string, JsonValue>

  /** A parsed instant, counted from the zero time.Time (January 1, year 1, UTC). */
  datatype Time = Time(sinceZero: int)

  const ZeroTime := Time(0)

  predicate IsNumber(v: JsonValue) {
    v.JFloat64? || v.JFloat32? || v.JInt? || v.JInt64?
  }

  function GetString(m: JsonObject, key: string): (r: string)
    ensures key in m && m[key].JString? ==> r == m[key].s
    ensures !(key in m && m[key].JString?) ==> r == ""
  {
    if key in m then
      match m[key]
      case JString(s) => s
      case _ => ""
    else ""
  }

  /** A float64 or float32 is returned as it is; an int or int64 is converted (rounding above 2^53 is not modelled). */
  function GetFloat64(m: JsonObject, key: string): (r: real)
    ensures key in m && (m[key].JFloat64? || m[key].JFloat32?) ==> r == m[key].f
    ensures key in m && (m[key].JInt? || m[key].JInt64?) ==> r == m[key].i as real
    ensures !(key in m && IsNumber(m[key])) ==> r == 0.0
  {
    if key in m then
      match m[key]
      case JFloat64(f) => f
      case JFloat32(f) => f
      case JInt(i) => i as real
      case JInt64(i) => i as real
      case _ => 0.0
    else 0.0
  }

  /** Go's conversion of a float to an integer: the fraction is dropped, toward zero. */
  function TruncateTowardZero(f: real): (r: int)
    ensures 0.0 <= f ==> r as real <= f < r as real + 1.0
    ensures f < 0.0 ==> r as real - 1.0 < f <= r as real
  {
    if f >= 0.0 then f.Floor else -((-f).Floor)
  }

  /** Integers are returned unchanged, floats truncated toward zero (out-of-range floats are not modelled). */
  function GetInt64(m: JsonObject, key: string): (r: int)
    ensures key in m && (m[key].JInt? || m[key].JInt64?) ==> r == m[key].i
    ensures key in m && (m[key].JFloat64? || m[key].JFloat32?) ==> r == TruncateTowardZero(m[key].f)
    ensures !(key in m && IsNumber(m[key])) ==> r == 0
  {
    if key in m then
      match m[key]
      case JInt64(i) => i
      case JInt(i) => i
      case JFloat64(f) => TruncateTowardZero(f)
      case JFloat32(f) => TruncateTowardZero(f)
      case _ => 0
    else 0
  }

  /**
   * `parse` stands for trying RFC 3339 and the three fallback layouts in
   * turn; it answers None when no layout accepts the text.
   */
  function GetTime(m: JsonObject, key: string, parse: string -> Option<Time>): (r: Time)
    ensures key in m && m[key].JString? && parse(m[key].s).Some? ==> r == parse(m[key].s).value
    ensures !(key in m && m[key].JString?) ==> r == ZeroTime
    ensures key in m && m[key].JString? && parse(m[key].s).None? ==> r == ZeroTime
  {
    if key in m && m[key].JString? then
      match parse(m[key].s)
      case Some(t) => t
      case None => ZeroTime
    else ZeroTime
  }
}
