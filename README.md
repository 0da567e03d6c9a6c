# AI-GAMES core logic in Dafny

This project models the small pieces of decision logic in the AI-GAMES web
application and proves what they promise:

- **Game catalogue and chat assistant** (`MainApi`, `api/main.py`):
  - the API-key check;
  - the catalogue search;
  - create, update and delete on the catalogue list, held as a class field;
  - the keyword-driven mock language-model reply.
- **Sales & marketing simulation** (`SalesMarketingGame`,
  `frontend/data/sales_marketing_game.js`):
  - the browser script's module-level variables become the fields of a `SalesGame` class;
  - the three actions and `advanceTurn`, with its churn loop, are methods;
  - each method is proved against functions of the segment counts, and lemmas
    state conservation of users, bounds on churn and the win/lose verdict.
- **Hockey AI** (`AiEngine`, `api/ai_engine.py`): the `HockeyAI` state machine
  and its disjoint action sets.
- **Kickstarter search** (`Kickstarter`, `api/kickstarter.py`):
  - the case-insensitive filter over loaded or built-in projects;
  - the facts the unit tests rely on about the built-in list and the test data.
- **Xcode snippet generator** (`Xcode`, `api/xcode.py`,
  `api/xcode_templates.py`): the first-match search over the ordered template
  table.
- **GitHub game tracker** (`TrackGames`, `api/track_games.py`): the
  game-repository test and the loop that builds the output records.
- **Palm store** (`PalmStore`, `api/palm_store.py`): lookup of a game by id.
- **Blockchain mock** (`Blockchain`, `api/blockchain.py`): the mocked NFT table
  and its lookup.

Three helper modules support the rest:

- `Wrappers` holds `Option`.
- `Text` holds ASCII lower-casing and substring search, the Python `in` on
  strings. Both come with lemmas about case and concatenation.
- `Sequences` holds order-preserving filtering, subsequences, and
  `list.remove` as removal of the first equal element.

Modelling choices:

- Files the source reads (JSON data, the key file) are parameters or class
  fields.
- `random.choice` and `Math.random` become a choice the model leaves open
  inside the stated range.
- Floating-point rates are exact integer floor divisions.

On `is_game_repo`: every keyword contains "gam", but "gaming" does not contain
"game". The test is therefore equivalent to "game" or "gaming" occurring in
one of the three fields, not to "game" alone. `IsGameRepoIffGameOrGaming`
proves this.

## Model

| member | source | states |
|---|---|---|
| MainApi.GetApiKey | api/main.py:115-122 | a header is accepted iff it equals one of the key map's values (not its keys), and is returned unchanged; otherwise the result is 401 "Invalid or missing API Key" |
| MainApi.DefaultKeysAcceptValuesOnly | api/main.py:113 | with the fallback key map, "test-api-key" is accepted and the map's key "test-key" is rejected with 401 |
| MainApi.SearchGames | api/main.py:134-149 | an empty query returns the catalogue unchanged; otherwise a game is in the result iff its lower-cased name or category contains the lower-cased query, matching games keep their multiplicity, and the result is a subsequence of the catalogue (original order) |
| MainApi.SearchIgnoresCase | api/main.py:144 | queries that lower-case to the same string give the same result |
| MainApi.MatchesQuery | api/main.py:147 | the search condition: the lower-cased query occurs in the lower-cased name or in the lower-cased category |
| MainApi.FirstWithName | api/main.py:170-171 | the index of the first game with the given name, or None iff no game has it |
| MainApi.HasName | api/main.py:157 | the duplicate test of `create_game`: some entry has exactly the given name |
| MainApi.GameCatalogue.constructor | api/main.py:126-128 | the catalogue holds the loaded list |
| MainApi.GameCatalogue.Create | api/main.py:151-162 | an existing name gives 409 and no change; otherwise the game is appended at the end and returned; a name-unique catalogue stays name-unique |
| MainApi.GameCatalogue.Update | api/main.py:164-175 | only the first entry with the name is replaced and the updated game returned; with no such entry, 404 and no change |
| MainApi.GameCatalogue.Delete | api/main.py:177-194 | exactly the first entry with the name is removed, the rest keeping their order; with no such entry, 404 and no change |
| MainApi.DeleteKeepsNamesUnique | api/main.py:192 | removing one entry from a name-unique catalogue leaves it name-unique and one shorter |
| MainApi.UpdateKeepsNamesUnique | api/main.py:172 | replacing entry i keeps the catalogue name-unique iff no other entry has the new name |
| MainApi.MockLlmCall | api/main.py:196-223 | the reply is one of four fixed strings, chosen by the first of 'game idea', 'python code', 'monetization' found in the lower-cased prompt, the default reply otherwise (each as an iff) |
| MainApi.GetBotResponse | api/main.py:225-229 | the chatbot answers with the mock model's reply, one of the four fixed strings |
| MainApi.GameIdeaInAnyCase | api/main.py:201-204 | a prompt containing 'game idea' in any letter case gets the game-idea reply |
| MainApi.PythonCodeInAnyCase | api/main.py:201-219 | a prompt containing 'python code' in any case, and not 'game idea', gets the code reply |
| MainApi.MonetizationInAnyCase | api/main.py:201-221 | a prompt containing 'monetization' in any case, and neither earlier keyword, gets the monetization reply |
| SalesMarketingGame.InitialSegmentsComplete | frontend/data/sales_marketing_game.js:4-11 | the starting counts cover all six segments, are non-negative and total 4110 |
| SalesMarketingGame.Converted | frontend/data/sales_marketing_game.js:59-60 | the converted grinders are floor(grinders / 10): between 0 and the grinders |
| SalesMarketingGame.DiscountRevenue | frontend/data/sales_marketing_game.js:70-72 | the discount revenue is non-negative and at most 12.5 per dolphin |
| SalesMarketingGame.SubscriptionRevenue | frontend/data/sales_marketing_game.js:80-82 | the subscription revenue is non-negative and at most 12 per whale |
| SalesMarketingGame.Churn | frontend/data/sales_marketing_game.js:123-126 | for retention up to 100 the churn lies between 0 and the segment size; above 100 it is negative |
| SalesMarketingGame.Verdict | frontend/data/sales_marketing_game.js:148-154 | won iff revenue >= 1,000,000; lost iff at most 100 users and negative revenue (the win check first); playing otherwise |
| SalesMarketingGame.TotalUsers | frontend/data/sales_marketing_game.js:33-35 | the number of users: the sum of the six segment counts |
| SalesMarketingGame.Campaign | frontend/data/sales_marketing_game.js:59-62 | the conversion step: floor(grinders/10) grinders become minnows; its properties are CampaignConservesUsers and CampaignKeepsCountsNonNegative |
| SalesMarketingGame.ChurnStep | frontend/data/sales_marketing_game.js:125-129 | one iteration of the churn loop: a segment other than the lapsed players loses its churn to the lapsed players; the lapsed players are skipped; every segment keeps a count |
| SalesMarketingGame.ChurnFirst | frontend/data/sales_marketing_game.js:124-130 | the counts after the loop has visited the first k segments of the key order; its properties are ChurnFirstConservesUsers and ChurnFirstAt |
| SalesMarketingGame.AfterChurn | frontend/data/sales_marketing_game.js:123-130 | the counts after the whole churn loop; its properties are ChurnMovesUsersToLapsed and ChurnKeepsCountsNonNegative |
| SalesMarketingGame.AfterTurn | frontend/data/sales_marketing_game.js:123-135 | churn followed by the organic growth of the new players; its properties are TurnAddsGrowth and TurnKeepsCountsNonNegative |
| SalesMarketingGame.ChurnFirstConservesUsers | frontend/data/sales_marketing_game.js:124-130 | any prefix of the churn loop keeps the total number of users |
| SalesMarketingGame.ChurnFirstAt | frontend/data/sales_marketing_game.js:124-130 | after k iterations a non-lapsed segment has lost its churn iff the loop has visited it, and is untouched otherwise |
| SalesMarketingGame.ChurnMovesUsersToLapsed | frontend/data/sales_marketing_game.js:123-130 | churn takes each non-lapsed segment's own churn from it, gives the sum to the lapsed players and conserves the total |
| SalesMarketingGame.ChurnKeepsCountsNonNegative | frontend/data/sales_marketing_game.js:123-130 | with retention between 80 and 100, churn keeps every count non-negative, shrinks the other segments and grows the lapsed players |
| SalesMarketingGame.RetentionAboveHundredDrivesLapsedNegative | frontend/data/sales_marketing_game.js:84 | once retention exceeds 100, churn can drive the lapsed players negative (shown on a constructed state: the starting counts with no lapsed players, at retention 101) |
| SalesMarketingGame.CampaignConservesUsers | frontend/data/sales_marketing_game.js:59-62 | the campaign moves floor(grinders/10) grinders to the minnows, changes no other segment and conserves the total |
| SalesMarketingGame.CampaignKeepsCountsNonNegative | frontend/data/sales_marketing_game.js:59-62 | the campaign converts at most all of the grinders, so non-negative counts stay non-negative |
| SalesMarketingGame.TurnAddsGrowth | frontend/data/sales_marketing_game.js:123-135 | a turn changes the total number of users by exactly the organic growth |
| SalesMarketingGame.TurnKeepsCountsNonNegative | frontend/data/sales_marketing_game.js:123-135 | a turn with retention at most 100 keeps every count non-negative |
| SalesMarketingGame.SalesGame.constructor | frontend/data/sales_marketing_game.js:2-13 | the initial revenue 10000, retention 80, starting segments, total 4110 after the first dashboard update, turn 1, actions enabled; every count non-negative |
| SalesMarketingGame.SalesGame.UpdateTotalUsers | frontend/data/sales_marketing_game.js:33-35 | the total becomes the sum of the six segment counts |
| SalesMarketingGame.SalesGame.SimulateChurn | frontend/data/sales_marketing_game.js:122-130 | the segment counts become the result of the churn loop over the key order |
| SalesMarketingGame.SalesGame.AdvanceTurn | frontend/data/sales_marketing_game.js:119-155 | churn then 50 to 249 new players; the turn advances by one; the total is recomputed; revenue and retention are unchanged; actions are disabled once the game is won or lost; while retention is at most 100 no segment count is negative, before and after |
| SalesMarketingGame.SalesGame.RunMarketingCampaign | frontend/data/sales_marketing_game.js:56-66 | campaign then turn; revenue falls by exactly 5000; total users change by exactly the growth; turn advances by one |
| SalesMarketingGame.SalesGame.OfferDiscounts | frontend/data/sales_marketing_game.js:68-76 | revenue rises by 25 * floor(dolphins/2); no segment changes before the turn; total users change by exactly the growth |
| SalesMarketingGame.SalesGame.SubscriptionDrive | frontend/data/sales_marketing_game.js:78-87 | revenue rises by 15 * floor(whales * 0.8); retention rises by exactly 1 before the churn; total users change by exactly the growth |
| AiEngine.ActionsIn | api/ai_engine.py:27-35 | every state offers at least two actions |
| AiEngine.StateFor | api/ai_engine.py:12-19 | defending iff puck_owner is "player", attacking iff it is "ai", idle otherwise including a missing key |
| AiEngine.StateOfAction | api/ai_engine.py:28-34 | an action recognised as belonging to a state is in that state's action list |
| AiEngine.ActionDeterminesState | api/ai_engine.py:28-34 | the action lists are pairwise disjoint, so an action determines the state it came from |
| AiEngine.HockeyAI.constructor | api/ai_engine.py:4-5 | a new AI is idle |
| AiEngine.HockeyAI.GetActionInState | api/ai_engine.py:23-35 | the action is one of the current state's actions |
| AiEngine.HockeyAI.DecideAction | api/ai_engine.py:7-21 | the new state depends only on the game state, and the action is one of that state's actions |
| AiEngine.PuckOwnerSelectsActions | api/test_main.py:14-26 | with puck_owner "player" the action is a defending one, with "ai" an attacking one |
| Kickstarter.GetProjects | api/kickstarter.py:13-39 | the loaded list or, when loading failed, the built-in list; an empty query returns it unchanged; otherwise a project is in the result iff its lower-cased title or blurb contains the lower-cased query, matching projects keep their multiplicity, and the result is a subsequence |
| Kickstarter.Source | api/kickstarter.py:13-29 | the records searched: the loaded file's contents, or the two built-in projects when loading failed |
| Kickstarter.Matches | api/kickstarter.py:38 | the filter condition: the lower-cased query occurs in the lower-cased title or in the lower-cased blurb |
| Kickstarter.GetProjectsIgnoresCase | api/kickstarter.py:35 | queries that lower-case to the same string give the same result |
| Kickstarter.DefaultAwesome | api/test_kickstarter.py:22-27 | on the built-in list, "awesome" returns exactly the "Awesome Game Project" record |
| Kickstarter.DefaultNonExistent | api/test_kickstarter.py:29-31 | on the built-in list, "non-existent" returns nothing |
| Kickstarter.TestDataQuery | api/test_kickstarter.py:8-16 | on the two test projects, "test" returns exactly the first |
| Xcode.FirstMatch | api/xcode.py:13-15 | the index of the first table key contained in the prompt, or None iff no key is contained |
| Xcode.GenerateCode | api/xcode.py:8-17 | the result is one of the four templates: the first of default, network, ui, table whose key occurs in the lower-cased prompt, the default template when none does |
| Xcode.GenerateCodeIgnoresCase | api/xcode.py:12 | prompts that lower-case to the same string give the same template |
| Xcode.NetworkPrompt | api/test_main.py:50-56 | the prompt "network" gives the network template, and the reply contains "URLSession" |
| Xcode.UnknownPrompt | api/xcode.py:17 | the prompt "unknown" contains no key and gives the default template |
| Xcode.DefaultKeyWins | api/xcode_templates.py:2-8 | a prompt containing both "default" and "network" gives the default template, which differs from the network one |
| Xcode.DefaultTemplateGreets | api/xcode_templates.py:2-7 | the default template contains "Hello, World!" |
| TrackGames.DescriptionText | api/track_games.py:20 | a missing description reads as the empty string, a present one is lower-cased |
| TrackGames.IsGameRepo | api/track_games.py:14-30 | a keyword occurs in the lower-cased name, in the lower-cased description, or in a topic as written; characterised by IsGameRepoIffGameOrGaming |
| TrackGames.HasKeywordIffGameOrGaming | api/track_games.py:18 | one of the four keywords occurs iff "game" or "gaming" occurs |
| TrackGames.IsGameRepoIffGameOrGaming | api/track_games.py:18-30 | a repo is a game repo iff "game" or "gaming" occurs in its lower-cased name, its lower-cased description, or one of its topics as written |
| TrackGames.NoKeywordWithoutG | api/track_games.py:18 | a string without the letter g holds no keyword |
| TrackGames.TopicsAreCaseSensitive | api/track_games.py:19-27 | a topic "Game" does not make a game repo, but a name "Game" does |
| TrackGames.ToRecord | api/track_games.py:42-49 | the record written for a repository: its name, category "GitHub Games", its URL as link, its description, stars as rating, forks as player count |
| TrackGames.TrackGames | api/track_games.py:38-49 | one record per game repo, in input order, never more records than repos; each record is the repo's record with category "GitHub Games"; every record comes from a game repo |
| PalmStore.GetGameById | api/palm_store.py:16-24 | None iff no game has the id; otherwise a listed game with that id, and the first one |
| Blockchain.BlockchainManager.constructor | api/blockchain.py:33-42 | a fresh manager holds the two mocked tokens |
| Blockchain.BlockchainManager.GetNftDetails | api/blockchain.py:44-58 | the stored record iff the token id is a key of the map, None otherwise; the lookup reads the map and changes nothing |
| Blockchain.MockedTokens | api/blockchain.py:39-42 | the mocked tokens are exactly 1 and 2, each with a non-empty owner and uri, and 999 is not among them |
| Blockchain.ExampleUsage | api/blockchain.py:60-68 | token 1 gives its mocked owner and uri, token 3 gives None |

## Left out

- Lower-casing covers ASCII letters only. Python's `str.lower` and JavaScript's `toLowerCase` also fold non-ASCII letters.
- File and network I/O is outside the model:
  - reading and writing `games.json`;
  - reading the key file and the Kickstarter and Palm Store JSON files;
  - writing the tracked games;
  - the GitHub request in `get_repos`.
  Their contents are parameters or class fields. A failed load of the Kickstarter file is `None`.
- FastAPI routing, Pydantic validation and the endpoint wrappers are not modelled. That includes the 403 for a missing key header and the 404 that endpoints return for a missing NFT or Palm Store game. Status codes appear only where the modelled functions raise them.
- The sales game's DOM output is not modelled: `log`, the dashboard text and `getAIRecommendation`. Only the disabling of the action buttons is kept, as a field.
- The sales game's rates are exact integer floor divisions, not floating-point products. `Math.round` on the displayed revenue is display only.
- SalesMarketingGame.SalesGame.RunMarketingCampaign, OfferDiscounts and SubscriptionDrive require the actions to be enabled. Disabled buttons cannot be clicked in the page.
- AiEngine.HockeyAI.DecideAction: `puck_owner` is a string-valued map entry. A non-string value counts as idle in the source as well, because it equals neither "player" nor "ai".
- TrackGames.TrackGames: repos are well-formed records. A repo missing "name" (a `KeyError` in the source) is not modelled.
- Fields of repos and Palm Store games that the code does not read are not modelled.
- `BlockchainManager.mint_reward` and the `PadelAI`, `InvestigativeAI`, `ShovelMasterAI`, `AnimalRunningAI` and `TreePlantingAI` classes are not part of this model: their code is not in the repository files modelled here.
- `random.choice` and `Math.random` are nondeterministic choices. No distribution is modelled.
