/**
 * The values `json.loads` produces, and the few Python operations the code
 * applies to them: `dict.get` with a default, truthiness, `== 0`, the type
 * name Python puts in its error messages, and "list of str" validation.
 * `json.loads` itself is a foreign call: callers receive it as a function
 * `Loads` whose `Err` carries the text of the `JSONDecodeError`.
 */
module Json {
  import opened Wrappers
  import Text

  datatype Json =
    | JNull
    | JBool(b: bool)
    | JInt(i: int)
    | JFloat(f: real)
    | JStr(s: string)
    | JArr(items: seq<Json>)
    | JObj(fields: map<string, Json>)

  /** `json.loads`: decoded value, or the decode error's message. */
  type Loads = string -> Result<Json, string>

  /** `d.get(key)`. */
  function Get(m: map<string, Json>, key: string): (r: Option<Json>)
    ensures r.Some? <==> key in m
    ensures r.Some? ==> r.value == m[key]
  {
    if key in m then Some(m[key]) else None
  }

  /** `d.get(key, default)`. */
  function GetOr(m: map<string, Json>, key: string, default: Json): (r: Json)
    ensures key in m ==> r == m[key]
    ensures key !in m ==> r == default
  {
    if key in m then m[key] else default
  }

  /** Python's `bool(v)` for a decoded JSON value. */
  predicate Truthy(v: Json)
  {
    match v
    case JNull => false
    case JBool(b) => b
    case JInt(i) => i != 0
    case JFloat(f) => f != 0.0
    case JStr(s) => s != ""
    case JArr(a) => a != []
    case JObj(m) => m != map[]
  }

  /** Python's `v == 0` (`False == 0` and `0.0 == 0` hold in Python). */
  predicate EqualsZero(v: Json)
  {
    v == JInt(0) || v == JFloat(0.0) || v == JBool(false)
  }

  /** `type(v).__name__`, as Python prints it in error messages. */
  function TypeName(v: Json): string
  {
    match v
    case JNull => "NoneType"
    case JBool(_) => "bool"
    case JInt(_) => "int"
    case JFloat(_) => "float"
    case JStr(_) => "str"
    case JArr(_) => "list"
    case JObj(_) => "dict"
  }

  /** The message of the AttributeError raised by `v.get(...)` on a non-dict. */
  function NoGetMessage(v: Json): string
  {
    "'" + TypeName(v) + "' object has no attribute 'get'"
  }

  /** The elements of a JSON array all of whose elements are strings (pydantic's `List[str]`). */
  function StringList(v: Json): (r: Option<seq<string>>)
    ensures r.Some? <==> v.JArr? && forall i :: 0 <= i < |v.items| ==> v.items[i].JStr?
    ensures r.Some? ==> |r.value| == |v.items| && forall i :: 0 <= i < |r.value| ==> v.items[i] == JStr(r.value[i])
  {
    if v.JArr? && forall i :: 0 <= i < |v.items| ==> v.items[i].JStr?
    then Some(seq(|v.items|, i requires 0 <= i < |v.items| => v.items[i].s))
    else None
  }

  /** The JSON array holding exactly the given strings, in order. */
  function StrArray(xs: seq<string>): (v: Json)
    ensures v.JArr? && |v.items| == |xs|
  {
    JArr(seq(|xs|, i requires 0 <= i < |xs| => JStr(xs[i])))
  }

  /** `StringList` undoes `StrArray`. */
  lemma StringListOfStrArray(xs: seq<string>)
    ensures StringList(StrArray(xs)) == Some(xs)
  {
    var v := StrArray(xs);
    assert forall i :: 0 <= i < |v.items| ==> v.items[i] == JStr(xs[i]);
    var r := StringList(v);
    assert r.Some?;
    assert forall i :: 0 <= i < |xs| ==> r.value[i] == v.items[i].s == xs[i];
    assert r.value == xs;
  }

  /**
   * Whether Python's `str(v)` contains `t`, for a `t` made only of characters
   * that `repr` never escapes or inserts (letters outside ASCII, say): exactly
   * when some string inside `v`, key or value, contains it.
   */
  predicate Mentions(v: Json, t: string)
    decreases v
  {
    match v
    case JStr(s) => Text.Contains(s, t)
    case JArr(a) => exists i :: 0 <= i < |a| && Mentions(a[i], t)
    case JObj(m) => exists k :: k in m && (Text.Contains(k, t) || Mentions(m[k], t))
    case _ => false
  }

  /**
   * Python's `str(v)`: exact for None, booleans, integers and strings; a
   * float, list or dict is rendered by a stand-in naming its type.
   */
  function Show(v: Json): string
  {
    match v
    case JNull => "None"
    case JBool(b) => if b then "True" else "False"
    case JInt(i) => Text.IntToString(i)
    case JStr(s) => s
    case _ => "<" + TypeName(v) + ">"
  }

  /** The message of the KeyError raised by a missing key. */
  function KeyMessage(key: string): string
  {
    "'" + key + "'"
  }

  /** `v[key]` for a string key, or the message of the exception Python raises. */
  function Index(v: Json, key: string): (r: Result<Json, string>)
    ensures r.Ok? <==> v.JObj? && key in v.fields
    ensures r.Ok? ==> r.value == v.fields[key]
  {
    match v
    case JObj(m) => if key in m then Ok(m[key]) else Err(KeyMessage(key))
    case JArr(_) => Err("list indices must be integers or slices, not str")
    case JStr(_) => Err("string indices must be integers, not 'str'")
    case _ => Err("'" + TypeName(v) + "' object is not subscriptable")
  }
}
