/** The Palm Store lookup (api/palm_store.py). The game list that the source
    loads from its JSON file is a parameter here. */
module PalmStore {
  import opened Wrappers

  /** A store entry: its id and name (the other fields are carried through
      unchanged by the lookup and are not modelled). */
  datatype PalmGame = PalmGame(id: int, name: string)

  /** `get_game_by_id`: a linear search that returns the first game whose id
      is `gameId`, and `None` when no game has it. */
  method GetGameById(games: seq<PalmGame>, gameId: int) returns (r: Option<PalmGame>)
    ensures r.None? <==> forall g :: g in games ==> g.id != gameId
    ensures r.Some? ==> r.value in games && r.value.id == gameId
    ensures r.Some? ==> exists i :: 0 <= i < |games| && games[i] == r.value &&
                                    (forall j :: 0 <= j < i ==> games[j].id != gameId)
  {
    for i := 0 to |games|
      invariant forall j :: 0 <= j < i ==> games[j].id != gameId
    {
      if games[i].id == gameId {
        return Some(games[i]);
      }
    }
    return None;
  }
}
