/** A value as `response.json()` produces it. Numbers are integral here;
    an object keeps its properties in `Object.keys` order. */
module JsonValues {
  import opened Wrappers

  datatype Json =
    | JNull
    | JBool(b: bool)
    | JNum(n: int)
    | JStr(s: string)
    | JArr(elems: seq<Json>)
    | JObj(props: seq<(string, Json)>)

  /** JavaScript truthiness: `false`, `0`, `""` and `null` are falsy, everything else truthy. */
  predicate Truthy(v: Json) {
    match v
    case JNull => false
    case JBool(b) => b
    case JNum(n) => n != 0
    case JStr(s) => s != ""
    case _ => true
  }

  /** The property read `obj[key]`: None (undefined) when the object has no such
      property; when a name occurs twice the later value wins, as in `JSON.parse`. */
  function Get(props: seq<(string, Json)>, key: string): Option<Json>
  {
    if props == [] then None
    else if props[|props| - 1].0 == key then Some(props[|props| - 1].1)
    else Get(props[..|props| - 1], key)
  }

  /** The read finds nothing exactly when no property has that name, and
      otherwise gives the value of the last property with that name. */
  lemma {:induction false} GetFindsLast(props: seq<(string, Json)>, key: string)
    ensures Get(props, key).None? <==> forall i :: 0 <= i < |props| ==> props[i].0 != key
    ensures Get(props, key).Some? ==>
              exists i :: 0 <= i < |props| && props[i] == (key, Get(props, key).value)
                          && forall j :: i < j < |props| ==> props[j].0 != key
  {
    if props != [] {
      var n := |props| - 1;
      if props[n].0 != key {
        GetFindsLast(props[..n], key);
        assert forall i :: 0 <= i < n ==> props[..n][i] == props[i];
      }
    }
  }
}
