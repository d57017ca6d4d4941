/** The loosely typed values that scanners put into a profile's `metadata`
    dictionary (`dict[str, Any]`), with the Python operations the core applies
    to them: `dict.get`, truthiness, `a or b` and `str()`. */
module Values {
  import opened PyText

  /** A metadata value. `VOther` stands for any other Python object (a float, a
      datetime, ...), carrying what `str()` prints for it and its truthiness. */
  datatype Value =
    | VNone
    | VBool(b: bool)
    | VInt(i: int)
    | VStr(s: string)
    | VList(items: seq<Value>)
    | VDict(entries: map<string, Value>)
    | VOther(text: string, truthy: bool)

  type Metadata = map<string, Value>

  /** `bool(v)`. */
  predicate Truthy(v: Value) {
    match v
    case VNone => false
    case VBool(b) => b
    case VInt(i) => i != 0
    case VStr(s) => s != ""
    case VList(items) => items != []
    case VDict(entries) => entries != map[]
    case VOther(_, t) => t
  }

  /** `m.get(key)`: a missing key reads as `None`. */
  function Get(m: Metadata, key: string): (r: Value)
    ensures key !in m ==> r == VNone
    ensures key in m ==> r == m[key]
  {
    if key in m then m[key] else VNone
  }

  /** Python's `a or b`. */
  function Or(a: Value, b: Value): (r: Value)
    ensures Truthy(r) <==> Truthy(a) || Truthy(b)
    ensures Truthy(a) ==> r == a
  {
    if Truthy(a) then a else b
  }

  /** `str(v)`. Containers are rendered as a placeholder (their element order
      is not part of the model). */
  function Str(v: Value): string {
    match v
    case VNone => "None"
    case VBool(b) => if b then "True" else "False"
    case VInt(i) => IntToString(i)
    case VStr(s) => s
    case VList(_) => "[...]"
    case VDict(_) => "{...}"
    case VOther(text, _) => text
  }

  /** The strings among the items of a list value (`[v for v in val if isinstance(v, str)]`). */
  function StringItems(items: seq<Value>): (r: set<string>)
    ensures forall s :: s in r <==> VStr(s) in items
  {
    if items == [] then {}
    else
      var rest := StringItems(items[1..]);
      assert forall v :: v in items <==> v == items[0] || v in items[1..];
      if items[0].VStr? then {items[0].s} + rest else rest
  }
}
