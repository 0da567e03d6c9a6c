/** The game catalogue endpoints, the API-key check and the mocked chat
    assistant of the web application (api/main.py). The JSON file the
    endpoints read and rewrite is the `games` field of a `GameCatalogue`;
    the key file is a map passed in. */
module MainApi {
  import opened Wrappers
  import opened Text
  import opened Sequences

  /** A catalogue entry (the `Game` request/response model). */
  datatype Game = Game(
    name: string,
    category: string,
    link: string,
    description: string,
    rating: real,
    playerCount: int)

  /** What an endpoint answers: its value, or the status code and detail of
      the HTTPException it raises. */
  datatype Response<+T> = Ok(value: T) | HttpError(status: int, detail: string)

  // ---------------------------------------------------------------------
  // API-key authentication
  // ---------------------------------------------------------------------

  /** The key map used when the key file does not exist. */
  const DefaultApiKeys: map<string, string> := map["test-key" := "test-api-key"]

  /** `get_api_key`: the header value is accepted iff it is one of the VALUES
      of the key map (the names under which the keys are stored are not keys). */
  function GetApiKey(apiKeys: map<string, string>, header: string): (r: Response<string>)
    ensures r.Ok? <==> exists name :: name in apiKeys && apiKeys[name] == header
    ensures r.Ok? ==> r.value == header
    ensures r.HttpError? ==> r.status == 401 && r.detail == "Invalid or missing API Key"
  {
    if header in apiKeys.Values then Ok(header)
    else HttpError(401, "Invalid or missing API Key")
  }

  /** With the fallback key map, the stored value is accepted and the name it
      is stored under is refused. */
  lemma DefaultKeysAcceptValuesOnly()
    ensures GetApiKey(DefaultApiKeys, "test-api-key") == Ok("test-api-key")
    ensures GetApiKey(DefaultApiKeys, "test-key") == HttpError(401, "Invalid or missing API Key")
  {
    assert DefaultApiKeys["test-key"] == "test-api-key";
  }

  // ---------------------------------------------------------------------
  // Search
  // ---------------------------------------------------------------------

  /** A game matches an already lower-cased query when the query occurs in
      its lower-cased name or lower-cased category. */
  predicate MatchesQuery(g: Game, lowerQuery: string)
  {
    Contains(Lower(g.name), lowerQuery) || Contains(Lower(g.category), lowerQuery)
  }

  /** `search_games`: the empty query returns the whole catalogue; any other
      query returns, in catalogue order and with their multiplicities, exactly
      the games that match the lower-cased query. */
  function SearchGames(games: seq<Game>, q: string): (r: seq<Game>)
    ensures q == [] ==> r == games
    ensures q != [] ==> forall g :: g in r <==> g in games && MatchesQuery(g, Lower(q))
    ensures q != [] ==> forall g :: MatchesQuery(g, Lower(q)) ==> multiset(r)[g] == multiset(games)[g]
    ensures IsSubsequence(r, games)
  {
    if q == [] then
      SubsequenceReflexive(games);
      games
    else
      var lq := Lower(q);
      var p := (g: Game) => MatchesQuery(g, lq);
      assert forall g :: p(g) == MatchesQuery(g, lq);
      Filter(games, p)
  }

  /** Search is case-insensitive: queries equal up to letter case give the
      same result. */
  lemma SearchIgnoresCase(games: seq<Game>, q1: string, q2: string)
    requires Lower(q1) == Lower(q2)
    ensures SearchGames(games, q1) == SearchGames(games, q2)
  {
    assert |q1| == |Lower(q1)| == |Lower(q2)| == |q2|;
  }

  // ---------------------------------------------------------------------
  // The catalogue and its updates
  // ---------------------------------------------------------------------

  /** `any(g["name"] == name for g in games)` */
  predicate HasName(games: seq<Game>, name: string)
  {
    exists g :: g in games && g.name == name
  }

  /** No two entries share a name (what the duplicate check in
      `create_game` protects). */
  predicate NamesUnique(games: seq<Game>)
  {
    forall i, j :: 0 <= i < j < |games| ==> games[i].name != games[j].name
  }

  /** The position of the first entry called `name`, the one `update_game`
      and `delete_game` act on. */
  function FirstWithName(games: seq<Game>, name: string): (r: Option<nat>)
    ensures r.None? <==> !HasName(games, name)
    ensures r.Some? ==> r.value < |games| && games[r.value].name == name
    ensures r.Some? ==> forall j :: 0 <= j < r.value ==> games[j].name != name
  {
    if games == [] then None
    else if games[0].name == name then Some(0)
    else
      assert forall g :: g in games ==> g == games[0] || g in games[1..];
      match FirstWithName(games[1..], name)
      case None => None
      case Some(k) => Some(k + 1)
  }

  /** The catalogue file, held as state. */
  class GameCatalogue {
    var games: seq<Game>

    constructor (initial: seq<Game>)
      ensures games == initial
    {
      games := initial;
    }

    /** `create_game`: a name already present is a 409 conflict and nothing
        changes; otherwise the game is appended at the end. */
    method Create(game: Game) returns (r: Response<Game>)
      modifies this
      ensures HasName(old(games), game.name) ==>
        r == HttpError(409, "Game with this name already exists.") && games == old(games)
      ensures !HasName(old(games), game.name) ==>
        r == Ok(game) && games == old(games) + [game]
      ensures NamesUnique(old(games)) ==> NamesUnique(games)
    {
      if HasName(games, game.name) {
        return HttpError(409, "Game with this name already exists.");
      }
      games := games + [game];
      r := Ok(game);
    }

    /** `update_game`: the first entry called `gameName` is replaced by
        `updated` and every other entry is kept; with no such entry the
        answer is 404 and nothing changes. */
    method Update(gameName: string, updated: Game) returns (r: Response<Game>)
      modifies this
      ensures match FirstWithName(old(games), gameName)
        case Some(i) => r == Ok(updated) && games == old(games)[i := updated]
        case None => r == HttpError(404, "Game not found.") && games == old(games)
    {
      var i := 0;
      while i < |games|
        invariant 0 <= i <= |games|
        invariant games == old(games)
        invariant forall j :: 0 <= j < i ==> games[j].name != gameName
      {
        if games[i].name == gameName {
          games := games[i := updated];
          return Ok(updated);
        }
        i := i + 1;
      }
      r := HttpError(404, "Game not found.");
    }

    /** `delete_game`: finds the first entry called `gameName`, then removes
        it with `list.remove`; the rest keeps its order. With no such entry
        the answer is 404 and nothing changes. */
    method Delete(gameName: string) returns (r: Response<()>)
      modifies this
      ensures match FirstWithName(old(games), gameName)
        case Some(i) => r == Ok(()) && games == old(games)[..i] + old(games)[i + 1..]
        case None => r == HttpError(404, "Game not found.") && games == old(games)
    {
      var toDelete: Option<Game> := None;
      var i := 0;
      while i < |games|
        invariant 0 <= i <= |games|
        invariant forall j :: 0 <= j < i ==> games[j].name != gameName
        invariant toDelete == None
      {
        if games[i].name == gameName {
          toDelete := Some(games[i]);
          break;
        }
        i := i + 1;
      }
      if toDelete.None? {
        return HttpError(404, "Game not found.");
      }
      RemoveFirstAt(games, i);
      games := RemoveFirst(games, toDelete.value);
      r := Ok(());
    }
  }

  /** Deleting an entry keeps a name-unique catalogue name-unique and drops
      exactly one entry. */
  lemma DeleteKeepsNamesUnique(games: seq<Game>, i: nat)
    requires i < |games| && NamesUnique(games)
    ensures NamesUnique(games[..i] + games[i + 1..])
    ensures |games[..i] + games[i + 1..]| == |games| - 1
  {
    var r := games[..i] + games[i + 1..];
    forall a, b | 0 <= a < b < |r|
      ensures r[a].name != r[b].name
    {
      var a' := if a < i then a else a + 1;
      var b' := if b < i then b else b + 1;
      assert r[a] == games[a'] && r[b] == games[b'] && a' < b';
    }
  }

  /** `update_game` does not check the new name: the catalogue stays
      name-unique exactly when the replacement keeps the old name or takes
      one no other entry has. */
  lemma UpdateKeepsNamesUnique(games: seq<Game>, i: nat, updated: Game)
    requires i < |games| && NamesUnique(games)
    ensures NamesUnique(games[i := updated]) <==>
      forall j :: 0 <= j < |games| && j != i ==> games[j].name != updated.name
  {
    var r := games[i := updated];
    if forall j :: 0 <= j < |games| && j != i ==> games[j].name != updated.name {
      forall a, b | 0 <= a < b < |r|
        ensures r[a].name != r[b].name
      {
      }
    } else {
      var j :| 0 <= j < |games| && j != i && games[j].name == updated.name;
      if j < i {
        assert r[j].name == r[i].name;
      } else {
        assert r[i].name == r[j].name;
      }
    }
  }

  // ---------------------------------------------------------------------
  // The mocked chat assistant
  // ---------------------------------------------------------------------

  const GameIdeaReply := "How about a puzzle game where you play as a time-traveling detective who has to solve crimes by manipulating events in the past? Each level could be a different case with unique paradoxes to resolve."
  const PythonCodeReply := "Sure, here is a simple Python code snippet to get you started with our API:\n\nimport requests\n\nAPI_KEY = \"test-api-key\"\nBASE_URL = \"http://localhost:8000\"\n\ndef search_games(query):\n    headers = {\"X-API-Key\": API_KEY}\n    response = requests.get(f\"{BASE_URL}/api/games/search?q={query}\", headers=headers)\n    return response.json()\n\nprint(search_games(\"AI\"))\n"
  const MonetizationReply := "There are many ways to monetize a game. Some popular options include in-app purchases for cosmetic items, a subscription model for access to exclusive content, or a one-time purchase on an app store. The best model depends on your game's genre and target audience."
  const DefaultReply := "I am a powerful AI assistant, ready to help you with your game development journey. Ask me for game ideas, code snippets, or anything else you need to bring your vision to life!"

  /** `mock_llm_call`: the keywords are looked for in the lower-cased prompt
      in priority order -- 'game idea', 'python code', 'monetization' -- and
      the first one found picks the canned reply; otherwise the default. */
  function MockLlmCall(prompt: string): (r: string)
    ensures r in {GameIdeaReply, PythonCodeReply, MonetizationReply, DefaultReply}
    ensures r == GameIdeaReply <==> Contains(Lower(prompt), "game idea")
    ensures r == PythonCodeReply <==>
      !Contains(Lower(prompt), "game idea") && Contains(Lower(prompt), "python code")
    ensures r == MonetizationReply <==>
      !Contains(Lower(prompt), "game idea") && !Contains(Lower(prompt), "python code") &&
      Contains(Lower(prompt), "monetization")
  {
    var p := Lower(prompt);
    if Contains(p, "game idea") then GameIdeaReply
    else if Contains(p, "python code") then PythonCodeReply
    else if Contains(p, "monetization") then MonetizationReply
    else DefaultReply
  }

  /** `get_bot_response` hands the user's message to the mocked model. */
  function GetBotResponse(userInput: string): (r: string)
    ensures r == MockLlmCall(userInput)
    ensures r in {GameIdeaReply, PythonCodeReply, MonetizationReply, DefaultReply}
  {
    MockLlmCall(userInput)
  }

  /** The keyword test ignores case: a prompt containing any spelling of
      'game idea' in upper or lower case gets the game-idea reply. */
  lemma GameIdeaInAnyCase(prompt: string, keyword: string)
    requires Lower(keyword) == "game idea" && Contains(prompt, keyword)
    ensures MockLlmCall(prompt) == GameIdeaReply
  {
    ContainsLower(prompt, keyword);
  }

  /** The same for 'python code', when no 'game idea' is present. */
  lemma PythonCodeInAnyCase(prompt: string, keyword: string)
    requires Lower(keyword) == "python code" && Contains(prompt, keyword)
    requires !Contains(Lower(prompt), "game idea")
    ensures MockLlmCall(prompt) == PythonCodeReply
  {
    ContainsLower(prompt, keyword);
  }

  /** The same for 'monetization', when neither earlier keyword is present. */
  lemma MonetizationInAnyCase(prompt: string, keyword: string)
    requires Lower(keyword) == "monetization" && Contains(prompt, keyword)
    requires !Contains(Lower(prompt), "game idea") && !Contains(Lower(prompt), "python code")
    ensures MockLlmCall(prompt) == MonetizationReply
  {
    ContainsLower(prompt, keyword);
  }
}
