/**
 * The values `json.loads` hands back. The parser itself is not modelled: it
 * is an injected partial function from text to a value.
 */
module Json {
  import opened Wrappers

  /** A decoded JSON document. Numbers keep the literal text they were
      written as; no arithmetic is done on them. */
  datatype Value =
    | Null
    | Bool(b: bool)
    | Number(literal: string)
    | Str(s: string)
    | Array(items: seq<Value>)
    | Object(fields: map<string, Value>)

  /** `json.loads`: `None` where it raises. */
  type Parser = string -> Option<Value>

  /** `v[key]` with a string key: only an object that holds `key` answers;
      a missing key raises KeyError and any non-object raises TypeError. */
  function Get(v: Value, key: string): Option<Value> {
    if v.Object? && key in v.fields then Some(v.fields[key]) else None
  }

  /** `v[key]` succeeds for every key in `keys`. */
  predicate HasKeys(v: Value, keys: set<string>) {
    v.Object? && keys <= v.fields.Keys
  }

  /** `for x in v` does not raise: strings, lists and dicts can be iterated;
      `None`, booleans and numbers raise TypeError. */
  predicate Iterable(v: Value) {
    v.Str? || v.Array? || v.Object?
  }
}
