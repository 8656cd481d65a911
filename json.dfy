/** The JSON values that `json.load` produces and `json.dump` writes, and the
    two Python operations the server store applies to them. */
module Json {
  import opened Wrappers

  /** An object keeps its members in file order; floats are not modelled. */
  datatype Json =
    | JNull
    | JBool(b: bool)
    | JInt(i: int)
    | JStr(s: string)
    | JArr(items: seq<Json>)
    | JObj(fields: seq<(string, Json)>)

  /** The value `json.load` keeps for `key`: when a key repeats, the last one wins. */
  function Get(fields: seq<(string, Json)>, key: string): Option<Json> {
    if fields == [] then None
    else if fields[|fields| - 1].0 == key then Some(fields[|fields| - 1].1)
    else Get(fields[..|fields| - 1], key)
  }

  /** A key is found exactly when some field carries it, and the value found is
      that of the last field carrying it. */
  lemma {:induction false} GetFound(fields: seq<(string, Json)>, key: string)
    ensures Get(fields, key).None? <==> forall i :: 0 <= i < |fields| ==> fields[i].0 != key
    ensures Get(fields, key).Some? ==>
      exists i :: 0 <= i < |fields| && fields[i] == (key, Get(fields, key).value) &&
                  forall j :: i < j < |fields| ==> fields[j].0 != key
  {
    if fields != [] && fields[|fields| - 1].0 != key {
      var init := fields[..|fields| - 1];
      GetFound(init, key);
      assert forall i :: 0 <= i < |init| ==> init[i] == fields[i];
    }
  }

  /** `Get` returns the value at the last index that carries the key. */
  lemma {:induction false} GetLast(fields: seq<(string, Json)>, key: string, k: int)
    requires 0 <= k < |fields| && fields[k].0 == key
    requires forall j :: k < j < |fields| ==> fields[j].0 != key
    ensures Get(fields, key) == Some(fields[k].1)
  {
    if k < |fields| - 1 {
      GetLast(fields[..|fields| - 1], key, k);
    }
  }

  /** Python's `value[key]` on a decoded JSON value: a dict without the key
      raises KeyError; a list, a string, a number, a boolean or None raises TypeError. */
  function Subscript(v: Json, key: string): (r: Result<Json>)
    ensures r.Ok? <==> v.JObj? && Get(v.fields, key).Some?
    ensures r.Ok? ==> r.value == Get(v.fields, key).value
    ensures r == Raised(KeyError) <==> v.JObj? && Get(v.fields, key).None?
    ensures r == Raised(TypeError) <==> !v.JObj?
  {
    match v
    case JObj(fields) =>
      (match Get(fields, key)
       case Some(x) => Ok(x)
       case None => Raised(KeyError))
    case _ => Raised(TypeError)
  }
}
