/** The query parameters of the signature link (`URLSearchParams` as a list of
    name-value pairs) and the lookup `get`, which the session's `urlParams`
    proxy forwards every property read to. */
module Query {
  import opened Values

  datatype QueryParam = QueryParam(name: string, value: string)

  /** `searchParams.get(name)`: the value of the first pair with that name, or `null`. */
  function Get(params: seq<QueryParam>, name: string): (r: Option<string>)
    ensures r.None? <==> forall i :: 0 <= i < |params| ==> params[i].name != name
    ensures r.Some? ==> exists i :: 0 <= i < |params| && params[i] == QueryParam(name, r.value)
                                  && forall j :: 0 <= j < i ==> params[j].name != name
  {
    if params == [] then None
    else if params[0].name == name then Some(params[0].value)
    else
      var r := Get(params[1..], name);
      assert forall i :: 1 <= i < |params| ==> params[i] == params[1..][i - 1];
      if r.Some? then
        var i :| 0 <= i < |params[1..]| && params[1..][i] == QueryParam(name, r.value)
                 && forall j :: 0 <= j < i ==> params[1..][j].name != name;
        assert params[i + 1] == QueryParam(name, r.value);
        assert forall j :: 0 <= j < i + 1 ==> params[j].name != name by {
          forall j | 0 <= j < i + 1 ensures params[j].name != name {
            if j > 0 { assert params[j] == params[1..][j - 1]; }
          }
        }
        r
      else r
  }

  /** `searchParams.append(name, value)`. */
  function Append(params: seq<QueryParam>, name: string, value: string): (r: seq<QueryParam>)
    ensures |r| == |params| + 1 && r[..|params|] == params && r[|params|] == QueryParam(name, value)
  {
    params + [QueryParam(name, value)]
  }

  /** Appending a pair with another name does not change what `get` returns. */
  lemma GetAfterAppendOther(params: seq<QueryParam>, other: string, value: string, name: string)
    requires other != name
    ensures Get(Append(params, other, value), name) == Get(params, name)
  {
  }
}
