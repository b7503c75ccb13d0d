/** Values, optional values, results and a map helper shared by the hook machinery. */
module Common {

  /** A JavaScript value as the hooks see it: what handlers, hooked methods and stores pass around. */
  datatype Value =
    | Undefined
    | Num(n: int)
    | Str(s: string)
    | List(items: seq<Value>)
    | Record(fields: map<string, Value>)

  datatype Option<+T> = None | Some(value: T)

  /** An exception that the code lets escape to its caller. */
  datatype Failure = TypeError(message: string)

  datatype Result<+T> = Ok(value: T) | Err(error: Failure)

  /** The lazy getters' `if (!m[k]) m[k] = {}`: give `k` an empty entry unless it has one. */
  function EnsureKey<K, J, V>(m: map<K, map<J, V>>, k: K): (r: map<K, map<J, V>>)
    ensures r.Keys == m.Keys + {k}
    ensures forall x :: x in m ==> r[x] == m[x]
    ensures k !in m ==> r[k] == map[]
  {
    if k in m then m else m[k := map[]]
  }
}
