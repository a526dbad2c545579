/** JSON values as `json.load` / `JSON.parse` produce them, with the two
    languages' notions of truthiness and the Python operators (`in`,
    subscription) and JavaScript property access the configuration and
    credential code applies to them. */
module JsonValues {
  import opened Wrappers
  import Strings

  /** A parsed JSON document. Numbers are integers in this model. */
  datatype Json =
    | JNull
    | JBool(b: bool)
    | JNum(n: int)
    | JStr(s: string)
    | JArr(items: seq<Json>)
    | JObj(fields: map<string, Json>)

  /** Python truth value: `None`, `False`, `0`, `''`, `[]` and `{}` are false. */
  predicate TruthyPy(v: Json) {
    match v
    case JNull => false
    case JBool(b) => b
    case JNum(n) => n != 0
    case JStr(s) => s != ""
    case JArr(xs) => |xs| > 0
    case JObj(m) => |m| > 0
  }

  /** JavaScript truth value: `null`, `false`, `0` and `''` are false; every
      array and object, empty or not, is true. */
  predicate TruthyJs(v: Json) {
    match v
    case JNull => false
    case JBool(b) => b
    case JNum(n) => n != 0
    case JStr(s) => s != ""
    case JArr(_) => true
    case JObj(_) => true
  }

  /** A JavaScript property read that may yield `undefined` (None). */
  predicate TruthyJsOpt(v: Option<Json>) {
    v.Some? && TruthyJs(v.value)
  }

  /** The two languages disagree exactly on the empty array and the empty object. */
  lemma TruthinessDiffers(v: Json)
    ensures TruthyPy(v) != TruthyJs(v) <==> v == JArr([]) || v == JObj(map[])
  {
    match v
    case JArr(xs) => assert |xs| == 0 ==> xs == [];
    case JObj(m) => assert |m| == 0 ==> m == map[];
    case _ =>
  }

  /** The exceptions Python raises on the operations below. */
  datatype PyError = TypeError | KeyError(key: string)

  /** Python `key in v` for a string `key`: key membership for a dict,
      element membership for a list, substring test for a str, and a
      TypeError for numbers, booleans and None. */
  function PyContains(v: Json, key: string): (r: Result<bool, PyError>)
    ensures r.Failure? <==> !(v.JObj? || v.JArr? || v.JStr?)
    ensures v.JObj? ==> r == Success(key in v.fields)
  {
    match v
    case JObj(m) => Success(key in m)
    case JArr(xs) => Success(JStr(key) in xs)
    case JStr(s) => Success(Strings.Find(s, key).Some?)
    case _ => Failure(TypeError)
  }

  /** Python `v[key]` for a string `key`: only a dict holding the key yields
      a value; a list or str raises TypeError, a dict without the key raises
      KeyError. */
  function PyIndex(v: Json, key: string): (r: Result<Json, PyError>)
    ensures r.Success? <==> v.JObj? && key in v.fields
    ensures r.Success? ==> r.value == v.fields[key]
  {
    match v
    case JObj(m) => if key in m then Success(m[key]) else Failure(KeyError(key))
    case _ => Failure(TypeError)
  }
}
