/** The values that travel as call arguments and signal payloads: the
    documents a JSON encoder accepts, plus `Opaque`, standing for any other
    Python object (a set, a class instance, ...) that the encoder refuses. */
module Values {

  datatype Value =
    | Null
    | Bool(b: bool)
    | Int(i: int)
    | Str(s: string)
    | List(items: seq<Value>)
    | Obj(fields: map<string, Value>)
    | Opaque(tag: string)

  datatype Option<T> = None | Some(value: T)

  datatype Result<T, E> = Ok(value: T) | Err(error: E)

  /** True when a JSON encoder accepts `v` (nothing `Opaque` anywhere inside). */
  predicate Serializable(v: Value)
  {
    match v
    case Opaque(_) => false
    case List(items) => forall i :: 0 <= i < |items| ==> Serializable(items[i])
    case Obj(fields) => forall k :: k in fields ==> Serializable(fields[k])
    case _ => true
  }

  /** Every argument of a keyword-argument map can be encoded. */
  predicate AllSerializable(kwargs: map<string, Value>)
  {
    forall k :: k in kwargs ==> Serializable(kwargs[k])
  }

  /** Booleans take part in arithmetic as 0 and 1, as in Python. */
  predicate Numeric(v: Value)
  {
    v.Bool? || v.Int?
  }

  function AsInt(v: Value): int
    requires Numeric(v)
  {
    if v.Int? then v.i else if v.b then 1 else 0
  }

  /** Python's binary `+` on these values: numeric addition, string and
      list concatenation; every other pairing raises TypeError (`None`). */
  function Plus(a: Value, b: Value): (r: Option<Value>)
    ensures r.Some? <==> (Numeric(a) && Numeric(b)) || (a.Str? && b.Str?) || (a.List? && b.List?)
    ensures Numeric(a) && Numeric(b) ==> r == Some(Int(AsInt(a) + AsInt(b)))
    ensures a.Str? && b.Str? ==> r.Some? && r.value.Str? && |r.value.s| == |a.s| + |b.s|
                                 && r.value.s[..|a.s|] == a.s && r.value.s[|a.s|..] == b.s
    ensures a.List? && b.List? ==> r.Some? && r.value.List? && |r.value.items| == |a.items| + |b.items|
                                   && r.value.items[..|a.items|] == a.items
                                   && r.value.items[|a.items|..] == b.items
  {
    if Numeric(a) && Numeric(b) then Some(Int(AsInt(a) + AsInt(b)))
    else if a.Str? && b.Str? then Some(Str(a.s + b.s))
    else if a.List? && b.List? then Some(List(a.items + b.items))
    else None
  }

  /** The sum of two encodable values is encodable, so a result computed
      from decoded arguments can always be sent back. */
  lemma PlusPreservesSerializable(a: Value, b: Value)
    requires Serializable(a) && Serializable(b) && Plus(a, b).Some?
    ensures Serializable(Plus(a, b).value)
  {
    if a.List? && b.List? {
      var r := a.items + b.items;
      forall i | 0 <= i < |r| ensures Serializable(r[i]) {
        if i < |a.items| { assert r[i] == a.items[i]; } else { assert r[i] == b.items[i - |a.items|]; }
      }
    }
  }
}
