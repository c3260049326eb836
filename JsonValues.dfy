/** JSON values as JSON.parse produces them (RFC 8259). */
module JsonValues {
  import opened Wrappers

  /** A JSON value. A number keeps its literal text: floating point is not modelled.
      An object keeps its members in insertion order. */
  datatype Json =
    | JNull
    | JBool(b: bool)
    | JNumber(literal: string)
    | JString(s: string)
    | JArray(items: seq<Json>)
    | JObject(members: seq<(string, Json)>)

  /** Property access `o[k]` on an object built by JSON.parse: when a key is repeated the last
      member wins, and a missing key is `undefined`. */
  function Get(members: seq<(string, Json)>, k: string): (r: Option<Json>)
    ensures r.None? <==> forall i :: 0 <= i < |members| ==> members[i].0 != k
    ensures r.Some? ==> exists i :: 0 <= i < |members| && members[i] == (k, r.value)
  {
    if |members| == 0 then None
    else if members[|members| - 1].0 == k then Some(members[|members| - 1].1)
    else Get(members[..|members| - 1], k)
  }

  /** A repeated key is read as the value of its last member. */
  lemma {:induction false} GetLastWins(members: seq<(string, Json)>, i: nat)
    requires i < |members|
    requires forall j :: i < j < |members| ==> members[j].0 != members[i].0
    ensures Get(members, members[i].0) == Some(members[i].1)
    decreases |members|
  {
    if i != |members| - 1 {
      GetLastWins(members[..|members| - 1], i);
    }
  }

  /** A key that occurs once is read as the value it is paired with. */
  lemma GetUnique(members: seq<(string, Json)>, i: nat)
    requires i < |members|
    requires forall j :: 0 <= j < |members| && j != i ==> members[j].0 != members[i].0
    ensures Get(members, members[i].0) == Some(members[i].1)
  {
    GetLastWins(members, i);
  }
}
