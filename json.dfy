/** The JavaScript values that a parsed JSON request body or a database row can
    hold, and the truthiness test (`!value`) that every handler of the system
    uses to decide that a required field is missing. */
module Json {
  /** A JSON value. Numbers are exact reals: NaN and floating-point rounding are
      not modelled. */
  datatype Value = Null | Bool(b: bool) | Num(n: real) | Str(s: string) | Arr(items: seq<Value>)

  /** A JSON object: a request body, an update payload or a database row.
      A key that is absent reads as `undefined`. */
  type Row = map<string, Value>

  /** `!!v` for the values JSON can carry. */
  predicate Truthy(v: Value) {
    match v
    case Null => false
    case Bool(b) => b
    case Num(n) => n != 0.0
    case Str(s) => s != ""
    case Arr(_) => true
  }

  /** `!!row[key]`; `undefined` is falsy. */
  predicate IsTruthy(row: Row, key: string) {
    key in row && Truthy(row[key])
  }

  /** `row[key] || fallback` */
  function OrElse(row: Row, key: string, fallback: Value): Value {
    if IsTruthy(row, key) then row[key] else fallback
  }

  /** `a` occurs in `b` in the same order, possibly with gaps. */
  predicate IsSubsequence<T(==)>(a: seq<T>, b: seq<T>)
    decreases |b|
  {
    if a == [] then true
    else if b == [] then false
    else if a[0] == b[0] then IsSubsequence(a[1..], b[1..])
    else IsSubsequence(a, b[1..])
  }

  /** `required.filter(field => !data[field])`: the required keys whose value is
      falsy, in the order they are listed. A coordinate of 0, an empty string,
      `false` and `null` all count as missing. */
  function MissingFields(required: seq<string>, data: Row): (missing: seq<string>)
    ensures forall f :: f in missing <==> f in required && !IsTruthy(data, f)
    ensures IsSubsequence(missing, required)
  {
    if required == [] then []
    else
      var rest := MissingFields(required[1..], data);
      if IsTruthy(data, required[0]) then
        assert rest != [] ==> rest[0] in rest && rest[0] != required[0];
        rest
      else [required[0]] + rest
  }

  /** The object literal that copies `keys` from `data`; a key that `data` lacks
      stays absent, as `JSON.stringify` drops `undefined`. */
  function Pick(data: Row, keys: set<string>): (r: Row)
    ensures r.Keys == data.Keys * keys
    ensures forall k :: k in r ==> r[k] == data[k]
  {
    map k | k in data && k in keys :: data[k]
  }

  /** The row after `update(changes)`: changed keys take the new value, all
      other keys keep theirs. */
  function Merge(row: Row, changes: Row): (r: Row)
    ensures r.Keys == row.Keys + changes.Keys
    ensures forall k :: k in changes ==> r[k] == changes[k]
    ensures forall k :: k in row && k !in changes ==> r[k] == row[k]
  {
    row + changes
  }

  /** `row[key] === value` on a row, with `undefined` never equal. */
  predicate FieldIs(row: Row, key: string, value: Value) {
    key in row && row[key] == value
  }

  /** `.eq('id', id)` as a row test. */
  function HasId(id: string): Row -> bool {
    (row: Row) => FieldIs(row, "id", Str(id))
  }

  /** `update(changes)` as a function on rows. */
  function MergeWith(changes: Row): Row -> Row {
    (row: Row) => Merge(row, changes)
  }

  /** `created_at`, held as milliseconds; a row without one sorts as 0. */
  function CreatedAt(row: Row): real {
    if "created_at" in row && row["created_at"].Num? then row["created_at"].n else 0.0
  }
}
