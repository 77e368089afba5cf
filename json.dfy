/**
  JSON values as the platform's org.json library holds them, and the accessors
  the adapters call on a JSONObject. Each accessor follows the library's
  documented behaviour: `get…` throws when the key is missing or the value has
  the wrong type, `opt…` returns a fallback instead, and a value asked for as a
  string is converted to its text.
*/
module Json {
  import opened Wrappers

  /** A JSON value. Numbers are the integral ones the core reads (counts). */
  datatype Value =
    | Null
    | Bool(b: bool)
    | Num(n: int)
    | Str(s: string)
    | Arr(elems: seq<Value>)
    | Obj(fields: map<string, Value>)

  /** A JSONObject: its keys and their values. */
  type Record = map<string, Value>

  /** Why an org.json accessor threw a JSONException. */
  datatype JsonError =
    | Missing(key: string)
    | TypeMismatch(key: string)

  type Outcome<T> = Result<T, JsonError>

  /** The decimal text of a natural number. */
  function NatText(n: nat): (t: string)
    ensures |t| > 0
    ensures forall i :: 0 <= i < |t| ==> '0' <= t[i] <= '9'
  {
    var d := ['0' + (n % 10) as char];
    if n < 10 then d else NatText(n / 10) + d
  }

  /** The decimal text of an integer, with a leading '-' when negative. */
  function IntText(n: int): (t: string)
    ensures |t| > 0
    ensures t[0] == '-' <==> n < 0
  {
    if n < 0 then "-" + NatText(-n) else NatText(n)
  }

  /**
    The text a value yields when it is read as a string: a string is itself,
    JSON null is "null", booleans and numbers are their literals. A nested
    object or array yields a non-empty marker in place of its serialization.
  */
  function AsText(v: Value): (t: string)
    ensures v.Str? ==> t == v.s
    ensures !v.Str? ==> |t| > 0
  {
    match v
    case Null => "null"
    case Bool(b) => if b then "true" else "false"
    case Num(n) => IntText(n)
    case Str(s) => s
    case Arr(_) => "[...]"
    case Obj(_) => "{...}"
  }

  const IntMin: int := -0x8000_0000
  const IntMax: int := 0x7FFF_FFFF
  const LongMin: int := -0x8000_0000_0000_0000
  const LongMax: int := 0x7FFF_FFFF_FFFF_FFFF

  /**
    Number.intValue() of a parsed JSON number: an integer that fits a Java long
    keeps its low 32 bits (two's complement); a larger one is parsed as a double,
    whose intValue saturates.
  */
  function ToJavaInt(n: int): (r: int)
    ensures IntMin <= r <= IntMax
    ensures IntMin <= n <= IntMax ==> r == n
  {
    if n < LongMin then IntMin
    else if n > LongMax then IntMax
    else
      var low := n % 0x1_0000_0000;
      if low > IntMax then low - 0x1_0000_0000 else low
  }

  /** JSONObject.has: the key is present, whatever its value. */
  predicate Has(o: Record, key: string) {
    key in o
  }

  /** JSONObject.isNull: the key is missing or its value is JSON null. */
  predicate IsNull(o: Record, key: string) {
    key !in o || o[key] == Null
  }

  /** JSONObject.optJSONObject: the value when it is an object, otherwise null. */
  function OptObject(o: Record, key: string): Option<Record> {
    if key in o && o[key].Obj? then Some(o[key].fields) else None
  }

  /** JSONObject.optJSONArray: the value when it is an array, otherwise null. */
  function OptArray(o: Record, key: string): Option<seq<Value>> {
    if key in o && o[key].Arr? then Some(o[key].elems) else None
  }

  /** JSONObject.getJSONObject: the value when it is an object; throws otherwise. */
  function GetObject(o: Record, key: string): Outcome<Record> {
    if key !in o then Err(Missing(key))
    else if o[key].Obj? then Ok(o[key].fields)
    else Err(TypeMismatch(key))
  }

  /** JSONObject.getString: the value's text; throws when the key is missing. */
  function GetString(o: Record, key: string): Outcome<string> {
    if key in o then Ok(AsText(o[key])) else Err(Missing(key))
  }

  /** JSONObject.optString(key, fallback): the value's text, or the fallback when missing. */
  function OptString(o: Record, key: string, fallback: string): string {
    if key in o then AsText(o[key]) else fallback
  }

  /** The library's number coercion: a JSON number gives its Java int; nothing else does. */
  function ToInteger(v: Value): Option<int> {
    if v.Num? then Some(ToJavaInt(v.n)) else None
  }

  /** JSONObject.optInt(key, fallback). */
  function OptInt(o: Record, key: string, fallback: int): int {
    if key in o && ToInteger(o[key]).Some? then ToInteger(o[key]).value else fallback
  }

  /** JSONObject.getInt: throws when the key is missing or the value is not a number. */
  function GetInt(o: Record, key: string): Outcome<int> {
    if key !in o then Err(Missing(key))
    else if ToInteger(o[key]).Some? then Ok(ToInteger(o[key]).value)
    else Err(TypeMismatch(key))
  }
}
