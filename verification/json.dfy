/** An already-parsed JSON document, as both the Python generators and the
    C reader (cJSON) see it. */
module Json {
  import opened Wrappers

  /** Numbers are integers. The generators write only integers; the base
      section may carry other numbers, which the reader truncates to `int`
      and which this model does not represent (see `JsonIO.ReqInt` under
      "Left out" in the README). */
  datatype Json =
    | JNull
    | JBool(b: bool)
    | JNum(n: int)
    | JStr(s: string)
    | JArr(items: seq<Json>)
    | JObj(fields: map<string, Json>)

  /** Case-sensitive member lookup; a value that is not an object has no
      members (cJSON returns NULL). */
  function Get(j: Json, key: string): Option<Json>
  {
    if j.JObj? && key in j.fields then Some(j.fields[key]) else None
  }

  /** Lookup along a path of member names. */
  function At(j: Json, path: seq<string>): Option<Json>
    decreases |path|
  {
    if |path| == 0 then Some(j)
    else
      match Get(j, path[0])
      case None => None
      case Some(c) => At(c, path[1..])
  }

  predicate IsObj(o: Option<Json>) { o.Some? && o.value.JObj? }
  predicate IsNum(o: Option<Json>) { o.Some? && o.value.JNum? }
  predicate IsStr(o: Option<Json>) { o.Some? && o.value.JStr? }
  predicate IsArr(o: Option<Json>) { o.Some? && o.value.JArr? }
}
