/**
 * The JSON values both Qt clients read (QJsonValue, QJsonObject, QJsonArray)
 * and the conversions they call on them. What QJsonDocument::fromJson parses
 * out of a reply body is an input to the models, not modelled itself.
 */
module QtJson {
  import opened Wrappers

  /** A JSON value; objects are maps, as QJsonObject keeps one value per key. */
  datatype Json =
    | JNull
    | JBool(b: bool)
    | JNumber(n: real)
    | JString(s: string)
    | JArray(items: seq<Json>)
    | JObject(fields: map<string, Json>)

  type JsonObject = map<string, Json>

  /** QJsonValue::toInt(default): the integer a number holds, or the default. */
  function ToInt(v: Json, default: int): int
  {
    if v.JNumber? && v.n.Floor as real == v.n then v.n.Floor else default
  }

  /** jsonObj.value(key).toInt(default), with a missing key reading as undefined. */
  function IntField(o: JsonObject, key: string, default: int): int
  {
    if key in o then ToInt(o[key], default) else default
  }

  /** The field's text when it holds a string. */
  function StringField(o: JsonObject, key: string): Option<string>
  {
    if key in o && o[key].JString? then Some(o[key].s) else None
  }

  /** obj.value(key).toString() on a QJsonObject: a string field's text, and the empty string otherwise. */
  function FieldText(o: JsonObject, key: string): string
  {
    if key in o then ToText(o[key]) else ""
  }

  /**
   * QVariant::toString of a value that came through toVariantList or
   * toVariantMap: a string's text, "true" or "false" for a boolean, a number
   * as number renders it (Qt's shortest decimal form, a parameter here), and
   * the empty string for null, arrays and objects.
   */
  function VariantText(v: Json, number: real -> string): (t: string)
    ensures !v.JNumber? && !v.JBool? ==> t == ToText(v)
    ensures v.JNumber? ==> t == number(v.n)
    ensures v.JBool? ==> t != ToText(v) && (t == "true" <==> v.b) && (t == "false" <==> !v.b)
  {
    match v
    case JString(s) => s
    case JBool(b) => if b then "true" else "false"
    case JNumber(n) => number(n)
    case _ => ""
  }

  /** map.value(key).toString() on a QVariantMap: the field's QVariant text, or the empty string when it is missing. */
  function VariantField(o: JsonObject, key: string, number: real -> string): string
  {
    if key in o then VariantText(o[key], number) else ""
  }

  /** QVariant::toMap: an object's fields, an empty map for anything else. */
  function AsObject(v: Json): JsonObject
  {
    if v.JObject? then v.fields else map[]
  }

  /** QJsonValue::toArray: an array's items, nothing for anything else. */
  function AsArray(v: Json): seq<Json>
  {
    if v.JArray? then v.items else []
  }

  /** QJsonValue::toString: a string's text, and the empty string for anything else. */
  function ToText(v: Json): string
  {
    if v.JString? then v.s else ""
  }

  /** obj[key].toBool(): true only for a field holding the boolean true. */
  function BoolField(o: JsonObject, key: string): bool
  {
    key in o && o[key].JBool? && o[key].b
  }

  /** obj[key].toDouble(): a number field's value, and 0 otherwise. */
  function NumberField(o: JsonObject, key: string): real
  {
    if key in o && o[key].JNumber? then o[key].n else 0.0
  }
}
