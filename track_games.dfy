/** The GitHub game-repository tracker (api/track_games.py): which
    repositories count as games, and the record written for each of them.
    Fetching the repositories and writing the JSON file are left out; the
    repository list is a parameter and the records are the result. */
module TrackGames {
  import opened Wrappers
  import opened Text
  import opened Sequences

  /** The fields of a repository object that the tracker reads. */
  datatype Repo = Repo(
    name: string,
    description: Option<string>,
    topics: seq<string>,
    htmlUrl: string,
    stargazersCount: int,
    forksCount: int)

  /** The record written for a game repository. */
  datatype TrackedGame = TrackedGame(
    name: string,
    category: string,
    link: string,
    description: Option<string>,
    rating: int,
    playerCount: int)

  /** The words that mark a game repository, in the source's order. */
  const GameKeywords: seq<string> := ["game", "games", "gaming", "gamedev"]

  /** `any(keyword in s for keyword in game_keywords)`. */
  predicate HasKeyword(s: string)
  {
    exists k :: k in GameKeywords && Contains(s, k)
  }

  /** The description as searched: lower-cased, and "" when absent, null or
      empty. */
  function DescriptionText(r: Repo): (d: string)
    ensures r.description.None? ==> d == []
    ensures r.description.Some? ==> d == Lower(r.description.value)
  {
    match r.description
    case None => ""
    case Some(text) => Lower(text)
  }

  /** `is_game_repo`: a keyword occurs in the lower-cased name, in the
      lower-cased description, or in one of the topics as they are (topics
      are not lower-cased). */
  predicate IsGameRepo(r: Repo)
  {
    || HasKeyword(Lower(r.name))
    || HasKeyword(DescriptionText(r))
    || exists t :: t in r.topics && HasKeyword(t)
  }

  /** Of the keywords only "game" and "gaming" matter: "games" and "gamedev"
      both contain "game" ("gaming" does not). */
  lemma HasKeywordIffGameOrGaming(s: string)
    ensures HasKeyword(s) <==> Contains(s, "game") || Contains(s, "gaming")
  {
    if Contains(s, "games") {
      ContainedAsPrefix("game", "s");
      ContainsTransitive(s, "games", "game");
    }
    if Contains(s, "gamedev") {
      ContainedAsPrefix("game", "dev");
      ContainsTransitive(s, "gamedev", "game");
    }
    if Contains(s, "game") {
      assert GameKeywords[0] == "game";
    }
    if Contains(s, "gaming") {
      assert GameKeywords[2] == "gaming";
    }
  }

  /** Hence the classification only looks for "game" and "gaming". */
  lemma IsGameRepoIffGameOrGaming(r: Repo)
    ensures IsGameRepo(r) <==>
      || Contains(Lower(r.name), "game") || Contains(Lower(r.name), "gaming")
      || Contains(DescriptionText(r), "game") || Contains(DescriptionText(r), "gaming")
      || exists t :: t in r.topics && (Contains(t, "game") || Contains(t, "gaming"))
  {
    HasKeywordIffGameOrGaming(Lower(r.name));
    HasKeywordIffGameOrGaming(DescriptionText(r));
    forall t | t in r.topics {
      HasKeywordIffGameOrGaming(t);
    }
  }

  /** No keyword occurs in a string without a `g`. */
  lemma NoKeywordWithoutG(s: string)
    requires 'g' !in s
    ensures !HasKeyword(s)
  {
    forall k | k in GameKeywords
      ensures !Contains(s, k)
    {
      NotContainedMissingChar(s, k, 'g');
    }
  }

  /** Topics are matched case-sensitively, unlike names: a repository whose
      only mention is the topic "Game" is not a game repository, while one
      named "Game" is. */
  lemma TopicsAreCaseSensitive()
    ensures !IsGameRepo(Repo("x", None, ["Game"], "", 0, 0))
    ensures IsGameRepo(Repo("Game", None, [], "", 0, 0))
  {
    assert Lower("x") == "x";
    NoKeywordWithoutG("x");
    NoKeywordWithoutG("");
    NoKeywordWithoutG("Game");
    assert Lower("Game") == "game";
    ContainedAsPrefix("game", "");
    assert "game" + "" == "game";
    assert GameKeywords[0] == "game";
  }

  /** The record written for one repository. */
  function ToRecord(r: Repo): TrackedGame
  {
    TrackedGame(r.name, "GitHub Games", r.htmlUrl, r.description, r.stargazersCount, r.forksCount)
  }

  /** `track_games` without its I/O: the game repositories, kept in input
      order, are mapped one by one to their records by an append loop. */
  method TrackGames(repos: seq<Repo>) returns (gamesData: seq<TrackedGame>)
    ensures |gamesData| == |Filter(repos, IsGameRepo)| <= |repos|
    ensures forall i :: 0 <= i < |gamesData| ==>
      gamesData[i] == ToRecord(Filter(repos, IsGameRepo)[i])
    ensures forall r :: r in repos && IsGameRepo(r) ==> ToRecord(r) in gamesData
    ensures forall g :: g in gamesData ==> g.category == "GitHub Games"
    ensures forall g :: g in gamesData ==>
      (exists r :: r in repos && IsGameRepo(r) && g == ToRecord(r))
  {
    var gameRepos := Filter(repos, IsGameRepo);
    gamesData := [];
    for i := 0 to |gameRepos|
      invariant |gamesData| == i
      invariant forall j :: 0 <= j < i ==> gamesData[j] == ToRecord(gameRepos[j])
    {
      gamesData := gamesData + [ToRecord(gameRepos[i])];
    }
    forall r | r in repos && IsGameRepo(r)
      ensures ToRecord(r) in gamesData
    {
      var j :| 0 <= j < |gameRepos| && gameRepos[j] == r;
      assert gamesData[j] == ToRecord(r);
    }
    forall g | g in gamesData
      ensures exists r :: r in repos && IsGameRepo(r) && g == ToRecord(r)
    {
      var j :| 0 <= j < |gamesData| && gamesData[j] == g;
      assert gameRepos[j] in gameRepos;
    }
  }
}
