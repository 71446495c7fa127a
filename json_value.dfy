/**
 * The untyped values the card schema receives (`unknown` in the source): the
 * JSON shapes plus `undefined` and the non-finite numbers.  Numbers are
 * modelled as integers; NaN and the infinities are one constructor, which
 * `typeof` calls 'number' but `Number.isFinite` rejects.
 */
module JsonValue {

  datatype Json =
    | Undefined
    | Null
    | Bool(b: bool)
    | Num(n: int)
    | NonFinite
    | Str(s: string)
    | Arr(items: seq<Json>)
    | Obj(fields: map<string, Json>)

  /** `value.key`: a missing property reads as `undefined`; arrays carry no named properties. */
  function Get(v: Json, key: string): (r: Json)
    ensures !v.Obj? ==> r == Undefined
    ensures v.Obj? && key !in v.fields ==> r == Undefined
  {
    if v.Obj? && key in v.fields then v.fields[key] else Undefined
  }

  /** `typeof value === 'object' && value !== null`: true for arrays too. */
  predicate IsObject(v: Json)
  {
    v.Obj? || v.Arr?
  }

  /** `typeof value === 'number' && Number.isFinite(value)`. */
  predicate IsNumber(v: Json)
  {
    v.Num?
  }

  predicate IsString(v: Json)
  {
    v.Str?
  }

  /** The `typeof` name of a value, with 'array' and 'null' split out. */
  function GetType(v: Json): string
  {
    match v
    case Undefined => "undefined"
    case Null => "null"
    case Bool(_) => "boolean"
    case Num(_) => "number"
    case NonFinite => "number"
    case Str(_) => "string"
    case Arr(_) => "array"
    case Obj(_) => "object"
  }

  /** `getType` names one of seven types and tells arrays, objects and numbers apart. */
  lemma GetTypeNames(v: Json)
    ensures GetType(v) in {"undefined", "null", "boolean", "number", "string", "array", "object"}
    ensures GetType(v) == "array" <==> v.Arr?
    ensures GetType(v) == "object" <==> v.Obj?
    ensures GetType(v) == "number" <==> v.Num? || v.NonFinite?
  {
  }
}
