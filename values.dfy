// Untyped object trees: what unstructured.Unstructured holds, what a decoded
// YAML document is, and what a JSON object is.
module Values {
  import opened Wrappers

  datatype Value =
    | Null
    | Bool(b: bool)
    | Int(i: int)
    | Str(s: string)
    | List(items: seq<Value>)
    | Object(fields: map<string, Value>)

  /** The member key of an object, if the value is an object that has it. */
  function Field(v: Value, key: string): (r: Option<Value>)
    ensures r.Some? <==> v.Object? && key in v.fields
    ensures r.Some? ==> r.value == v.fields[key]
  {
    if v.Object? && key in v.fields then Some(v.fields[key]) else None
  }

  /** The value reached by following a path of member keys. */
  function At(v: Value, path: seq<string>): Option<Value>
    decreases |path|
  {
    if |path| == 0 then Some(v)
    else
      match Field(v, path[0])
      case None => None
      case Some(child) => At(child, path[1..])
  }

  /** Following p + q is following p, then q from where p led. */
  lemma {:induction false} AtAppend(v: Value, p: seq<string>, q: seq<string>)
    ensures At(v, p + q) == (match At(v, p) case None => None case Some(w) => At(w, q))
    decreases |p|
  {
    if |p| == 0 {
      assert p + q == q;
    } else {
      assert (p + q)[0] == p[0];
      assert (p + q)[1..] == p[1..] + q;
      match Field(v, p[0])
      case None =>
      case Some(child) => AtAppend(child, p[1..], q);
    }
  }

  /** A map of strings as an object of string values. */
  function StringMap(m: map<string, string>): (v: Value)
    ensures v.Object? && v.fields.Keys == m.Keys
    ensures forall k :: k in m ==> v.fields[k] == Str(m[k])
  {
    Object(map k | k in m :: Str(m[k]))
  }
}
