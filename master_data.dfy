/** Reference data the client receives from the server's "all" endpoints and
    reads but never changes. */
module MasterData {
  import opened Wrappers

  /** A party with the kapan (lot-group) numbers it owns. */
  datatype Party = Party(id: string, name: string, kapanNumbers: seq<string>)

  /** `parties.find(p => p._id === id)`: the first party with that id. */
  function FindParty(parties: seq<Party>, id: string): (r: Option<Party>)
    ensures r.None? <==> forall i :: 0 <= i < |parties| ==> parties[i].id != id
    ensures r.Some? ==> exists i :: 0 <= i < |parties| && parties[i] == r.value
                          && r.value.id == id
                          && forall j :: 0 <= j < i ==> parties[j].id != id
  {
    if parties == [] then None
    else if parties[0].id == id then Some(parties[0])
    else
      var r := FindParty(parties[1..], id);
      assert forall j :: 0 < j < |parties| ==> parties[j] == parties[1..][j - 1];
      r
  }
}
