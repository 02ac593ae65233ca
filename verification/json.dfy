/** A JSON object (`Json<T>`, `{ [key: string]: T }`): its values by key, and
    the order in which `Object.keys` lists the keys. */
module Json {
  import opened Wrappers

  datatype Json<V> = Json(keys: seq<string>, values: map<string, V>)
  {
    /** Each key listed once, and exactly the keys that have a value. */
    predicate Wf() {
      (forall i, j | 0 <= i < j < |keys| :: keys[i] != keys[j])
      && (forall k | k in values :: k in keys)
      && (forall i | 0 <= i < |keys| :: keys[i] in values)
    }

    /** `json[key]`, `undefined` when the key is absent. */
    function Get(key: string): (r: Option<V>)
      ensures r.Some? <==> key in values
      ensures r.Some? ==> r.value == values[key]
    {
      if key in values then Some(values[key]) else None
    }
  }

  /** `{}`. */
  function Empty<V>(): (j: Json<V>)
    ensures j.Wf() && |j.keys| == 0
  {
    Json([], map[])
  }
}
