# Dino Quiz Adventure — a Dafny model of the game rules

Dino Quiz Adventure is a browser quiz game. The player works through stage
quizzes, an endless mode and a time attack whose clock starts at sixty
seconds, earns coins, spends
them on a gacha, dresses an avatar, unlocks titles, and plays four-seat quiz
battles against the CPU or online. This project models the rules and
bookkeeping behind those screens, together with one backend module:

- **Battle scoring** (`BattleLogic`, from `backend/battleLogic.js`):
  - speed-ranked awards of 3/2/1 points;
  - accumulating each question into the run;
  - final standings with the four-level tie-break (points, correct answers, time, seat);
  - the coin table by rank, and win/lose, where only rank 1 wins.
- **Online battle client** (`BattleQuiz`, `BattleLobby`, `BattleResult`):
  - de-duplicating players and padding them to four seats;
  - the local speed award;
  - scoring each question index at most once, and sending at most one answer per render;
  - the lobby's player normalisation, four slots, question pick and online run;
  - the one-time application of a battle result to the save.
- **Progression and economy**:
  - title unlock conditions (`TitleManager`);
  - save validation, backfilling of the battle record, and import (`SaveManager`);
  - stage unlock, starting a run and the question screen (`StageQuiz`);
  - stage progress and reward (`StageResult`);
  - the weighted gacha draw and pull accounting (`Gacha`);
  - default avatar ownership, grouping, and equip guards (`Avatar`).
- **Single-player run state machines**: endless mode (`Endless`), which ends
  at three misses, and time attack (`TimeAttack`), which counts answers and
  gives its reward once. Each render of the time-attack screen starts one
  more frame loop on the same clock, so after k answers the clock runs
  k + 1 times as fast (see Findings).
- **The hash router** (`Router`): splitting `location.hash` into path parts
  and query parameters, and choosing the screen.

The save that gameplay screens update in place is the class `SaveModel.Save`.
Each method names exactly the fields it writes in its `modifies` clause.
Runs and screens whose fields change step by step are classes as well:
`BattleLogic.BattleRun`, `BattleQuiz.OnlineRun`, `BattleQuiz.QuestionRender`,
`StageQuiz.StageRun`, `StageQuiz.QuestionScreen`, `Endless.EndlessRun` and
`TimeAttack.TimeAttackRun`. Pure helpers are functions. The loops of the
source are methods proved against specification functions, whose
properties are proved as lemmas. There are two exceptions, both modelled
as recursive functions:
- the scan of `pickWeighted` is `Gacha.ScanAsWritten` (as written) and
  `Gacha.Scan` (corrected);
- the ownership loop of `ensureDefaultAvatarOwned` is the fold
  `Common.AddAll`, used by `Avatar.OwnedAfterDefaults`.

JavaScript's `null`/`undefined` is `Common.Option`. `??` and truthiness are
written out. `Number()` is `Common.ToNumber`, where `None` stands for NaN.
`Math.random()`, `Date.now()`, `performance.now()` and ISO timestamps are
parameters:
- a shuffle takes its swap indices as `choose`;
- the gacha takes its draw as `r`;
- timestamps are given as `now`.

## Model

| member | source | states |
|---|---|---|
| BattleLogic.CoinRewardTable | backend/battleLogic.js:10 | the coin reward is 30 exactly for rank 1, positive exactly for ranks 1 to 3, and never above 30 |
| BattleLogic.SortByTimeStable | backend/battleLogic.js:14 | the answers sorted by time are ascending, and answers with equal times keep their original order |
| BattleLogic.AwardedOnlyFastest | backend/battleLogic.js:16-18 | only seats among the k fastest answers get points, and every award is between 1 and 3 |
| BattleLogic.AwardedBySpeed | backend/battleLogic.js:16-18 | with one answer per seat, the i-th fastest of the first k gets 3 - i points and the map has k entries |
| BattleLogic.AwardPointsBySpeed | backend/battleLogic.js:13-20 | the result is a sorted permutation of the answers; the points map awards 3, 2, 1 to the three fastest (min(3, n) entries for distinct seats) and nothing to anyone else |
| BattleLogic.CorrectListOf | backend/battleLogic.js:36-41 | the ranked list is never longer than the entries |
| BattleLogic.CollectCorrect | backend/battleLogic.js:36-41 | the first loop keeps exactly the answered, correct entries with a numeric time, in entry order |
| BattleLogic.ApplyEntriesPerSeat | backend/battleLogic.js:45-54 | with one entry per seat, a seat's points grow by exactly its award and its correct count and time sum by its own qualifying answer; a seat without an entry is untouched |
| BattleLogic.QuestionAwardsAtMostSix | backend/battleLogic.js:9-18 | one question adds at most 3 + 2 + 1 = 6 points over all seats |
| BattleLogic.BattleRun.AddAward | backend/battleLogic.js:46-53 | one round of the second loop adds the seat's award and, for a qualifying answer, one correct answer and its time |
| BattleLogic.BattleRun.AddAwards | backend/battleLogic.js:45-54 | the run's tallies become the second loop's fold over the entries |
| BattleLogic.BattleRun.ApplyQuestionResult | backend/battleLogic.js:22-65 | the tallies are updated as above and exactly one answer record, carrying the awards, is appended |
| BattleLogic.InsertRow | backend/battleLogic.js:77-82 | inserting a row adds exactly that row (multiset) |
| BattleLogic.SortRows | backend/battleLogic.js:77-82 | sorting the rows is a permutation |
| BattleLogic.InsertRowRanked | backend/battleLogic.js:77-82 | inserting into strictly ranked rows with distinct seats keeps them strictly ranked |
| BattleLogic.SortRowsRanked | backend/battleLogic.js:77-82 | the sorted rows are strictly ordered by points (desc), correct count (desc), time sum (asc), seat (asc) |
| BattleLogic.BuildRows | backend/battleLogic.js:68-74 | one row per player, the i-th for seat i |
| BattleLogic.WithRanks | backend/battleLogic.js:84 | row i gets rank i + 1 and is otherwise unchanged |
| BattleLogic.SortedRowsRanked | backend/battleLogic.js:68-82 | the standings of a run are strictly ranked with distinct seats |
| BattleLogic.SortedRowsFromTally | backend/battleLogic.js:68-74 | every standing row is a real seat carrying that seat's own tallies |
| BattleLogic.SortedRowsCoverSeats | backend/battleLogic.js:68-74 | every seat has a row in the standings |
| BattleLogic.AssignRanks | backend/battleLogic.js:84 | the rank loop gives rank i + 1 to row i and keeps order and seats |
| BattleLogic.CoinMapOfDistinct | backend/battleLogic.js:86-89 | with one row per seat, the coin map has exactly the seats of the rows and each gets the reward of its rank |
| BattleLogic.CoinRewards | backend/battleLogic.js:86-89 | the coin loop builds that map |
| BattleLogic.FinalStandings | backend/battleLogic.js:67-92 | one row per player with rank i + 1 at position i, strictly ranked, seats distinct, own tallies; the coin map covers exactly the seats and gives row i the reward of rank i + 1 |
| BattleLogic.FinalStandingsFacts | backend/battleLogic.js:67-92 | the ranked rows of a run and their coin map have every property FinalStandings promises |
| BattleLogic.CoinKeysAreSeats | backend/battleLogic.js:86-89 | the coin map's keys are exactly the seats 0..n-1 |
| BattleLogic.BattleRun.CalcFinalStandings | backend/battleLogic.js:67-92 | the same as FinalStandings, on the run's current tallies |
| BattleLogic.WinLoseOfDistinct | backend/battleLogic.js:94-101 | with one row per seat, the map has exactly the rows' seats, and a seat wins if and only if its rank is 1 |
| BattleLogic.WinLoseFromStandings | backend/battleLogic.js:94-101 | the loop builds that map, with the same if-and-only-if |
| BattleLogic.ExactlyOneWinner | backend/battleLogic.js:94-101 | on standings ranked 1..n, exactly the first row wins |
| BattleQuiz.CidOf | js/screens/battleQuizScreen.js:22 | a player's id is its own `clientId` when present, and nothing for a null player |
| BattleQuiz.KeptIds | js/screens/battleQuizScreen.js:21-26 | the first loop keeps exactly the distinct truthy client ids, first occurrences in input order, each seat with an id |
| BattleQuiz.PadToFour | js/screens/battleQuizScreen.js:27-28 | the padded list has exactly four seats: the kept ones first, then empty seats |
| BattleQuiz.DedupedPlayersSeats | js/screens/battleQuizScreen.js:18-29 | exactly four seats; seat i holds the i-th distinct client id or is empty, and no client id appears twice |
| BattleQuiz.DedupePlayers | js/screens/battleQuizScreen.js:18-29 | the two loops compute those four seats |
| BattleQuiz.SeatIndexLastWins | js/screens/battleQuizScreen.js:92-93 | every truthy client id maps to the last seat that holds it, and only such ids are keys |
| BattleQuiz.AwardedSumIsAwardOf | js/screens/battleQuizScreen.js:36-38 | a client's points are the sum of the awards of its answers among the three fastest; only those clients are keys |
| BattleQuiz.AwardOfDistinct | js/screens/battleQuizScreen.js:32-40 | with distinct client ids, the i-th fastest gets 3 - i |
| BattleQuiz.AwardOfAbsent | js/screens/battleQuizScreen.js:32-40 | a client with no answer among the fastest gets nothing |
| BattleQuiz.LocalAwardPointsBySpeed | js/screens/battleQuizScreen.js:32-40 | the points map sums 3/2/1 over the three fastest answers by timeMs per client; with distinct clients the i-th fastest gets 3 - i |
| BattleQuiz.SumFastest | js/screens/battleQuizScreen.js:36-38 | the loop over the three fastest answers builds exactly the awarded-sum map of the sorted list |
| BattleQuiz.AwardOfFastest | js/screens/battleQuizScreen.js:32-39 | with distinct client ids, the i-th fastest answer's client is awarded 3 - i |
| BattleQuiz.QuestionAward | js/screens/battleQuizScreen.js:222-231 | the award map of a question is the speed award of its correct, non-timeout answers |
| BattleQuiz.CorrectListFromAnswers | js/screens/battleQuizScreen.js:223-230 | every ranked answer comes from a non-timeout answer of the same client |
| BattleQuiz.CorrectListSkipsTimedOut | js/screens/battleQuizScreen.js:223-229 | a client whose every answer is the timeout choice -1 never enters the ranked list |
| BattleQuiz.CollectCorrect | js/screens/battleQuizScreen.js:223-230 | the first loop of the handler collects exactly the correct non-timeout answers in order |
| BattleQuiz.TimeoutEarnsNothing | js/screens/battleQuizScreen.js:227 | a client whose answer is the timeout choice -1 gets no award |
| BattleQuiz.GainForSnoc | js/screens/battleQuizScreen.js:234-247 | one more answer adds its award to its own seat only, and only if it is not a timeout and its client has a seat |
| BattleQuiz.ApplyAwardsGain | js/screens/battleQuizScreen.js:234-247 | a seat's points rise by exactly the awards of the non-timeout answers seated there |
| BattleQuiz.OnlineRun.AddAwards | js/screens/battleQuizScreen.js:234-247 | the marks-and-points loop updates the points as that fold |
| BattleQuiz.QuestionEnd | js/screens/battleQuizScreen.js:211-250 | an event for another (or a non-finite) index, or for an already scored one, changes nothing; otherwise the index becomes scored |
| BattleQuiz.QuestionEndOnce | js/screens/battleQuizScreen.js:215-217 | a second `game:questionEnd` for the same index changes nothing, whatever its answers |
| BattleQuiz.OnlineRun.OnQuestionEnd | js/screens/battleQuizScreen.js:211-250 | the corrected handler, judged by the render of question `idx` with that render's correct index and seats: it changes the run exactly as QuestionEnd says |
| BattleQuiz.OnlineRun.OnAnswerPing | js/screens/battleQuizScreen.js:200-208 | the corrected handler for the render of question `idx`: a ping for another index changes nothing; otherwise the client joins the index's answered set |
| BattleQuiz.OnlineRun.Subscribe | js/screens/battleQuizScreen.js:185-188 | only the first render subscribes: it binds its question index, correct index, seat map and render; later renders leave them bound |
| BattleQuiz.OnlineRun.HandleQuestionEnd | js/screens/battleQuizScreen.js:211-250 | as written: every `game:questionEnd` is judged against the subscribing render's index, correct index and seats |
| BattleQuiz.OnlineRun.HandleAnswerPing | js/screens/battleQuizScreen.js:200-203 | as written: only pings for the subscribing render's index are kept |
| BattleQuiz.OnlineRun.HandleNext | js/screens/battleQuizScreen.js:253-259 | a numeric index becomes the run's index and ends the subscribing render, not the render on screen; a non-numeric one changes nothing |
| BattleQuiz.OnlineRun.HandleFinished | js/screens/battleQuizScreen.js:263-266 | `game:finished` ends the subscribing render |
| BattleQuiz.PerRenderScoresEvery | js/screens/battleQuizScreen.js:211-217 | judged per render, the scored set after a run is the old set plus every question played |
| BattleQuiz.SubscribedScoresOnlyFirst | js/screens/battleQuizScreen.js:185-188 | judged by the one subscribed handler, at most the subscribing render's question is ever scored, and events for other questions leave the scoreboard as it was |
| BattleQuiz.SecondQuestionUnscored | js/screens/battleQuizScreen.js:213 | over questions 0 and 1 per render scores both; the subscribed handler leaves the board after question 1's end exactly as question 0 left it, with only 0 scored |
| BattleQuiz.OnlineRun.OnBegin | js/screens/battleQuizScreen.js:192-197 | array payload players replace the seats (deduplicated); array question ids replace the list; otherwise both are kept |
| BattleQuiz.QuestionRender.constructor | js/screens/battleQuizScreen.js:147-148 | a render starts not ended, not answered, with nothing sent |
| BattleQuiz.QuestionRender.Click | js/screens/battleQuizScreen.js:157-166 | after an end or an answer a click sends nothing; otherwise it sends exactly one answer with time max(0, now - start) |
| BattleQuiz.QuestionRender.Tick | js/screens/battleQuizScreen.js:277-294 | before 20 s nothing changes; at 20 s the timer stops and, if nothing was sent, exactly one timeout answer (-1, 20000 ms) is sent |
| BattleQuiz.QuestionRender.End | js/screens/battleQuizScreen.js:253-266 | `game:next`, `game:finished` or retiring end the render; what was answered and sent, and the timer, are unchanged, so at most one answer stays sent |
| BattleLobby.ResolveEquippedFromAny | js/screens/battleRoomLobbyScreen.js:64-71 | a result is always an object reached from the input through `avatar`/`profile` links; a missing or non-object input gives nothing |
| BattleLobby.ResolveEquippedFindsParts | js/screens/battleRoomLobbyScreen.js:64-71 | a found object has a body or head part or is an `equipped` object on the path; an object with none of the fields gives nothing |
| BattleLobby.FindByKey | js/screens/battleRoomLobbyScreen.js:43-49 | the first item whose key (`item_id ?? id`) equals the string, or nothing when no item has that key |
| BattleLobby.GetItemById | js/screens/battleRoomLobbyScreen.js:46-50 | a missing or empty id or a missing list gives nothing; a found item is the first in the list with that key; nothing found means no item has it |
| BattleLobby.OrTruthy | js/screens/battleRoomLobbyScreen.js:77 | `a \|\| b \|\| null`: the result is never empty, and it is missing exactly when both inputs are missing or empty |
| BattleLobby.CountOf | js/screens/battleRoomLobbyScreen.js:81-82 | `Number(x ?? 0)`: a missing or null count is 0, a number stays itself |
| BattleLobby.NullIsNone | js/screens/battleRoomLobbyScreen.js:83-84 | `x ?? null`: null and missing both become missing, anything else is kept |
| BattleLobby.NormalizePlayer | js/screens/battleRoomLobbyScreen.js:73-87 | a missing player gives nothing, any other gives a player whose client id is missing or non-empty |
| BattleLobby.NormalizePlayerDefaults | js/screens/battleRoomLobbyScreen.js:75-85 | the profile defaults: name "PLAYER", title name from `titleName`, then `title`, then "—", wins 0, and the player's own truthy client id first |
| BattleLobby.NormalizeAll | js/screens/battleRoomLobbyScreen.js:264 | `map(normalizePlayer).filter(Boolean)` never yields more players than it was given |
| BattleLobby.NormalizeAllAppend | js/screens/battleRoomLobbyScreen.js:264 | the list is normalized in order: two parts normalize to the two normalized parts, one after the other |
| BattleLobby.NormalizeAllMembers | js/screens/battleRoomLobbyScreen.js:264 | the players kept are exactly the normalized non-null entries |
| BattleLobby.NormalizeAllKeepsPlayers | js/screens/battleRoomLobbyScreen.js:264 | with no missing entries every player is kept, in order, each normalized |
| BattleLobby.LobbySlots | js/screens/battleRoomLobbyScreen.js:263-267 | exactly four slots: the i-th normalized player, or empty past the end |
| BattleLobby.ClientIds | js/screens/battleRoomLobbyScreen.js:115-117 | the client id of each player, in seat order |
| BattleLobby.BuildOnlineRun | js/screens/battleRoomLobbyScreen.js:89-119 | a run at question 0 with zero points and counts, host exactly when the host id is mine, and each truthy client id mapped to the last seat holding it |
| BattleLobby.OnGameBegin | js/screens/battleRoomLobbyScreen.js:301-316 | the run built from a `game:begin` has the payload's players normalized, its question ids (or none), the payload's room and host, and is `BuildOnlineRun`'s fresh run on them: question 0, zero points, counts and time sums, the initial sync, host exactly when the host id is mine, and each truthy client id mapped to the last seat holding it |
| BattleLobby.PickRandomQuestionIds | js/screens/battleRoomLobbyScreen.js:7-15 | `min(n, keys)` distinct question ids, each one of the keys |
| BattleResult.Safe | js/screens/battleResultScreen.js:8-11 | a number stays itself; missing or null reads as 0 |
| BattleResult.FindRec | js/screens/battleResultScreen.js:18-22 | the first title whose id or name equals the value, or nothing when none does |
| BattleResult.ResolveTitleJa | js/screens/battleResultScreen.js:13-33 | the result is the input text (default "—") or the non-empty display name of a matching title; with no list or no match it is the input text |
| BattleResult.ResolveTitleJaFirstName | js/screens/battleResultScreen.js:24-32 | the first matching title's non-empty `name` is the result |
| BattleResult.CoinRewardByRank | js/screens/battleResultScreen.js:35-40 | 30, 20, 10 coins exactly for ranks 1, 2, 3, and 0 for every other rank |
| BattleResult.CoinRewardTablesAgree | js/screens/battleResultScreen.js:35-40 | the screen's reward and the server's reward table agree on every rank |
| BattleResult.MyPi | js/screens/battleResultScreen.js:100-105 | online with a mapped client id, my seat is that mapping; in every other case it is seat 0 |
| BattleResult.MyRank | js/screens/battleResultScreen.js:107-109 | the rank of the first row for my seat, or 99 when no row has it |
| BattleResult.MyRankOnStandings | js/screens/battleResultScreen.js:107-110 | on final standings the i-th seat's rank is i + 1 and its reward is the table's; only the first row wins |
| BattleResult.VisibleRows | js/screens/battleResultScreen.js:195-196 | the shown rows are the first min(4, players, rows) rows |
| BattleResult.InitBattle | js/screens/battleResultScreen.js:92-94 | both cpu and pvp records exist afterwards, and existing ones are kept |
| BattleResult.ApplyOutcome | js/screens/battleResultScreen.js:112-118 | both records still exist after the outcome |
| BattleResult.ApplyOutcomeCountsOneGame | js/screens/battleResultScreen.js:112-118 | one game is counted on the mode's record, as a win exactly for rank 1; the other record is unchanged |
| BattleResult.ApplyResult | js/screens/battleResultScreen.js:114-123 | the rank's coins are added, the game is counted in the mode's record, the titles become exactly `TitleManager.TitlesAfterUnlock` of the old titles (old ids kept, satisfied ones unlocked, nothing else, an equipped title kept), and the save is stamped |
| BattleResult.ResultRun.constructor | js/screens/battleResultScreen.js:77 | a run holds its mode, seats and rows, with the result not yet applied |
| BattleResult.RenderBattleResult | js/screens/battleResultScreen.js:76-123 | no result changes nothing; the first render adds the rank's coins, counts the game, sets the titles to exactly `TitleManager.TitlesAfterUnlock` of the old titles, and stamps the save; later renders add nothing |
| TitleManager.TitleIdOf | js/systems/titleManager.js:108 | a title's id is its `title_id`, or its `id` when that is missing |
| TitleManager.ParseModeScoreValue | js/systems/titleManager.js:22-28 | a parsed value always has a non-empty mode without ':' |
| TitleManager.ParseModeScoreRoundTrip | js/systems/titleManager.js:22-28 | "mode:n" parses back to (mode, n), and anything after a second ':' is ignored |
| TitleManager.ParseModeScoreRejects | js/systems/titleManager.js:24-26 | a value without ':' (no score) or with an empty mode is rejected; "mode:" reads as score 0 (`Number("")`) |
| TitleManager.CountClearedStages | js/systems/titleManager.js:30-37 | the count is the number of stage entries with a truthy `cleared`, never more than the entries |
| TitleManager.IsAllStagesCleared | js/systems/titleManager.js:39-45 | true exactly when the stage list is non-empty and every listed stage has `cleared === true` |
| TitleManager.AllCleared | js/systems/titleManager.js:44 | `every` over the list is the universal statement over its stages |
| TitleManager.BestScoreForStage | js/systems/titleManager.js:47-51 | the stage's best score when it has one, otherwise 0 |
| TitleManager.CheckConditionFacts | js/systems/titleManager.js:53-96 | an unknown type or a missing threshold gives false, and the coin, pull and owned-item thresholds are monotone `>=` comparisons |
| TitleManager.ClearedCountOneIsAny | js/systems/titleManager.js:55-61 | "stage_cleared_count_at_least" with 1 is the same condition as "any_stage_cleared" |
| TitleManager.UnlockScan | js/systems/titleManager.js:104-117 | the scan only ever appends to the unlocked list it started from |
| TitleManager.UnlockScanSound | js/systems/titleManager.js:107-117 | the list stays duplicate-free, and each appended id was not unlocked before and belongs to a title with an id whose condition holds |
| TitleManager.UnlockScanComplete | js/systems/titleManager.js:107-117 | every title with an id whose condition holds ends up unlocked |
| TitleManager.UnlockedListCovers | js/systems/titleManager.js:104-121 | every satisfied title and every old id is unlocked afterwards; with nothing new the ids are the old ones |
| TitleManager.ScanTitles | js/systems/titleManager.js:104-117 | the loop computes that scan, and the newly unlocked ids are exactly what it appended |
| TitleManager.UnlockTitlesIfAny | js/systems/titleManager.js:98-129 | the titles record exists afterwards; the list is replaced only when something new unlocked; the first new id is equipped only if none was; the unlocked set only grows and covers every satisfied title; the record is `TitlesAfterUnlock` of the old one |
| TitleManager.UnlockAddsSatisfied | js/systems/titleManager.js:104-121 | the scan adds only new, non-empty ids of satisfied titles, and adds something whenever a satisfied title is not yet unlocked |
| TitleManager.TitlesAfterUnlock | js/systems/titleManager.js:98-129 | the record after unlocking: old ids kept, every satisfied id unlocked, no other id; a non-empty equipped id kept; the equipped id changes only from nothing to a newly unlocked satisfied id, and with nothing equipped one is equipped whenever a satisfied title was not yet unlocked; with nothing new the record is the old list and equipped id |
| TitleManager.GetTitleById | js/systems/titleManager.js:14-20 | a missing or empty id gives nothing; otherwise the first title with that id, or nothing when no title has it |
| TitleManager.FindTitle | js/systems/titleManager.js:19 | `find` returns the first title of the list with that id (no earlier title has it), or nothing when none has it |
| TitleManager.GetEquippedTitle | js/systems/titleManager.js:131-134 | a found title has the equipped id |
| TitleManager.GetUnlockedTitles | js/systems/titleManager.js:136-139 | at most one title per unlocked id, each a title of the list whose id is unlocked |
| TitleManager.GetUnlockedTitlesComplete | js/systems/titleManager.js:136-139 | every unlocked id with a known title has that title in the result |
| SaveManager.Field | js/systems/saveManager.js:50 | a field is present exactly when the value is an object that has that key |
| SaveManager.CreateDefaultSave | js/systems/saveManager.js:14-43 | the default save is an object with version 1 |
| SaveManager.ValidateSaveV1 | js/systems/saveManager.js:45-70 | valid exactly for a well-formed v1 save; each rejection reason holds exactly when its check is the first to fail |
| SaveManager.MissingKeyRejected | js/systems/saveManager.js:50-54 | a version-1 save missing any of the eight top-level keys is rejected with "missing_top_level_keys" |
| SaveManager.TopLevelKeysChecked | js/systems/saveManager.js:52 | the key check holds exactly when all eight keys are present |
| SaveManager.NormCounts | js/systems/saveManager.js:88-89 | afterwards wins and losses are numbers, numeric ones are kept, and other fields are untouched |
| SaveManager.NormalizedSaveShaped | js/systems/saveManager.js:72-102 | the normalized save has cpu and pvp records with numeric wins and losses, and every other key is unchanged |
| SaveManager.NormalizedSaveKeepsNumbers | js/systems/saveManager.js:88-97 | an existing numeric win or loss count is preserved |
| SaveManager.NormalizedSaveNoop | js/systems/saveManager.js:72-102 | a save whose battle records are already shaped is left as it is |
| SaveManager.NormalizedSaveIdempotent | js/systems/saveManager.js:72-102 | normalizing twice is the same as normalizing once |
| SaveManager.SaveDoc.constructor | js/systems/saveManager.js:72 | the document holds the given fields |
| SaveManager.SaveDoc.Normalize | js/systems/saveManager.js:72-102 | the in-place normalization leaves the normalized save and reports a change exactly when the fields changed |
| SaveManager.NormalizeBucket | js/systems/saveManager.js:84-98 | one battle bucket is backfilled, other keys kept, and the change flag is set exactly when the bucket changed |
| SaveManager.DefaultSaveValid | js/systems/saveManager.js:14-70 | the default save passes validation and normalization leaves it unchanged |
| SaveManager.ImportSaveJson | js/systems/saveManager.js:148-164 | a parse failure gives "json_parse_error", invalid data the validator's reason, and otherwise the normalized save |
| StageQuiz.Clamp | js/screens/quizScreen.js:22-24 | the result lies in [lo, hi]; a value inside is kept, one below becomes lo and one above hi |
| StageQuiz.Nullish | js/screens/quizScreen.js:68 | `a ?? b`: a non-null present value is kept, otherwise the fallback is taken |
| StageQuiz.SafeLimit | js/screens/quizScreen.js:144-145 | the time limit always lies in [3, 60]; a missing, null or non-numeric limit gives 10, and a limit already in range is kept |
| StageQuiz.GetCorrectIndex | js/screens/quizScreen.js:67-71 | a numeric `correct_choice_index` wins; with no index field at all there is no correct index |
| StageQuiz.GetCorrectIndexFallbacks | js/screens/quizScreen.js:68 | the fields are tried in order `correct_choice_index`, `correct_index`, `answer_index`, `correct`, and a null last field reads as 0 |
| StageQuiz.Shuffle | js/screens/quizScreen.js:26-33 | the shuffled list is a permutation of the input, whatever the random draws |
| StageQuiz.Indices | js/screens/quizScreen.js:181 | `choices.map((_, i) => i)`: the list 0 … n-1 |
| StageQuiz.ChoiceOrder | js/screens/quizScreen.js:181 | the choice order is a permutation of 0 … n-1 |
| StageQuiz.IsStageUnlocked | js/screens/quizScreen.js:36-44 | a missing or "always" condition unlocks; "stage_clear" unlocks exactly when the named stage is cleared; any other condition locks |
| StageQuiz.CorrectCount | js/screens/quizScreen.js:331 | a log never has more correct entries than entries |
| StageQuiz.StageRun.constructor | js/screens/quizScreen.js:52-62 | a fresh stage run: cursor 0, no correct answers, empty log, total = number of question ids |
| StageQuiz.StageRun.Other | js/screens/quizScreen.js:50 | a run of another mode or stage, with an empty log |
| StageQuiz.AppState.constructor | js/screens/quizScreen.js:46-47 | the state starts with no current run |
| StageQuiz.EnsureRun | js/screens/quizScreen.js:46-65 | a locked stage gives "locked" and keeps the current run; a run of the same stage in mode "stage" is kept; otherwise a fresh run at cursor 0 with the stage's question ids |
| StageQuiz.QuestionScreen.constructor | js/screens/quizScreen.js:225 | a question starts unanswered, unpaused, with the clamped time limit and its correct index |
| StageQuiz.QuestionScreen.FinishByTimeout | js/screens/quizScreen.js:271-299 | once answered nothing changes; otherwise exactly one timeout entry (no choice, not correct) is logged and the cursor moves on by one |
| StageQuiz.QuestionScreen.FinishByAnswer | js/screens/quizScreen.js:301-338 | answered or paused: nothing changes; otherwise exactly one entry is logged, the cursor moves on by one, and the correct count rises exactly when the choice equals a known correct index |
| StageQuiz.QuestionScreen.Click | js/screens/quizScreen.js:355-362 | a click while answered or paused changes nothing; otherwise exactly one "answer" entry is logged, with the chosen index, the correct index and whether they are equal; the cursor moves on by one and the correct count rises exactly when correct |
| StageQuiz.QuestionScreen.Tick | js/screens/quizScreen.js:231-241 | answered or paused: nothing changes; otherwise one second passes (never below 0), and at 0 exactly one timeout is logged |
| StageQuiz.QuestionScreen.OpenPause | js/screens/quizScreen.js:244-248 | the question is paused |
| StageQuiz.QuestionScreen.ClosePause | js/screens/quizScreen.js:250-254 | the question is no longer paused |
| StageQuiz.Max0 | js/screens/quizScreen.js:235 | `Math.max(0, x)`: never negative, never below x, and one of the two |
| StageQuiz.Retire | js/screens/quizScreen.js:343-349 | retiring drops the current run |
| StageQuiz.ConsistentCounts | js/screens/quizScreen.js:331-333 | on a run whose log matches its counters, the correct count never exceeds the cursor |
| StageResult.NewBest | js/screens/resultScreen.js:33 | the score when there was no best, otherwise the larger of the two, so the best never decreases |
| StageResult.Progressed | js/screens/resultScreen.js:31-34 | the played stage is cleared with a best of at least the score and of the old best; no other stage entry changes |
| StageResult.ProgressedIdempotent | js/screens/resultScreen.js:31-34 | applying the same result twice is the same as applying it once |
| StageResult.PlayAllBest | js/screens/resultScreen.js:31-34 | after any series of plays the stage is cleared and its best is at least every score and the old best |
| StageResult.RenderResult | js/screens/resultScreen.js:9-42 | with no run nothing changes; otherwise score and total are shown, the stage progresses, coins rise by `reward_coin ?? 0`, and the save is stamped |
| SaveModel.Save.SaveNow | js/systems/saveManager.js:132-133 | the save's last-played time becomes the given time |
| SaveModel.CoinsOf | js/screens/resultScreen.js:38 | `coins ?? 0` |
| SaveModel.OwnedIds | js/screens/avatarScreen.js:8-15 | the owned id list, or none when the avatar or its list is missing |
| Endless.AsWrittenMissingIndexIsZero | js/screens/endlessScreen.js:7-11 | as written, a question with no index field has choice 0 correct (`Number(null)` is 0) |
| Endless.EndlessCorrectIndex | js/screens/endlessScreen.js:7-11 | with no index field there is no correct index; otherwise the same number as written, led by `correct_index` |
| Endless.CorrectIndexAgrees | js/screens/endlessScreen.js:7-11 | the corrected and as-written readings agree on every question with a non-null index field |
| Endless.EndlessRun.constructor | js/screens/endlessScreen.js:63-73 | a fresh run: zero counters, not paused, not finished |
| Endless.EndlessRun.CurrentQid | js/screens/endlessScreen.js:77 | the current question is `order[cursor mod len]`, always in the order |
| Endless.EndlessRun.Answer | js/screens/endlessScreen.js:219-233 | finished or paused: nothing changes; otherwise one more answer and exactly one more correct or miss, keeping answered = correct + miss; judged with the corrected `Endless.EndlessCorrectIndex` (see Findings) |
| Endless.EndlessRun.AfterVerdict | js/screens/endlessScreen.js:238-241 | at three misses the run finishes and the save is stamped; otherwise the cursor moves on by one |
| Endless.EndlessRun.Finish | js/screens/endlessScreen.js:160-171 | the run is finished and the save stamped; coins are not touched |
| Endless.EndlessRun.OpenPause | js/screens/endlessScreen.js:149-152 | pause opens only when the run is not finished |
| Endless.EndlessRun.ClosePause | js/screens/endlessScreen.js:155-158 | the run is no longer paused |
| Endless.EndlessState.constructor | js/screens/endlessScreen.js:63 | no endless run at first |
| Endless.EndlessState.Render | js/screens/endlessScreen.js:44-78 | no questions: no run starts; an existing run is kept; otherwise a fresh run over a permutation of the ids, with zero counters, not paused and not finished; the current id is the run's current question |
| Endless.EndlessState.Drop | js/screens/endlessScreen.js:184-196 | retiring or closing the result drops the run |
| Endless.FinishedNeedsThreeMisses | js/screens/endlessScreen.js:60 | a finished run has at least three misses and three answers |
| TimeAttack.TimeAttackRun.constructor | js/screens/timeAttackScreen.js:67-78 | a fresh run: zero counters, 60000 ms left, no reward given |
| TimeAttack.TimeAttackRun.CurrentQid | js/screens/timeAttackScreen.js:82 | the current question is `order[cursor mod len]`, always in the order |
| TimeAttack.TimeAttackRun.Answer | js/screens/timeAttackScreen.js:255-277 | rewarded or paused: nothing changes; otherwise one more answer, and one more correct exactly when correct, so correct never exceeds answered; judged with the corrected `Endless.EndlessCorrectIndex` (see Findings) |
| TimeAttack.TimeAttackRun.NextQuestion | js/screens/timeAttackScreen.js:249-252 | the cursor moves on by exactly one |
| TimeAttack.TimeAttackRun.Finish | js/screens/timeAttackScreen.js:169-182 | the first call adds five coins per correct answer and stamps the save; later calls change nothing |
| TimeAttack.TimeAttackRun.Tick | js/screens/timeAttackScreen.js:189-204 | one loop's step: paused or rewarded: nothing changes; otherwise the time drops by the frame's length with the coins and stamp kept, and at or below 0 it is set to 0, correct × 5 coins are added and the save is stamped |
| TimeAttack.TimeAttackRun.StartTickLoop | js/screens/timeAttackScreen.js:188-205 | a render adds exactly one frame loop |
| TimeAttack.TimeAttackRun.Frame | js/screens/timeAttackScreen.js:188-205 | one frame as written: every running loop ticks, so the clock follows Countdown with `tickLoops` loops; the reward (correct × 5 coins and the stamp) is given exactly when some loop ran it to 0, and otherwise the coins and stamp are kept |
| TimeAttack.CountdownClosedForm | js/screens/timeAttackScreen.js:193-199 | with L loops the time left after frames totalling S is max(0, start - L * S) |
| TimeAttack.OneAnswerHalvesTheMinute | js/screens/timeAttackScreen.js:249-252 | after one answer (two loops), thirty seconds of frames use up the sixty-second clock |
| TimeAttack.OneLoopFollowsTime | js/screens/timeAttackScreen.js:193-201 | with one loop, less than sixty seconds of frames leave exactly 60000 ms minus the time passed |
| TimeAttack.TimeAttackRun.OpenPause | js/screens/timeAttackScreen.js:208-211 | pause opens only before the reward is given |
| TimeAttack.TimeAttackRun.ClosePause | js/screens/timeAttackScreen.js:164-167 | the run is no longer paused |
| TimeAttack.TimeAttackState.constructor | js/screens/timeAttackScreen.js:67 | no time-attack run at first |
| TimeAttack.TimeAttackState.Render | js/screens/timeAttackScreen.js:45-83 | no questions: nothing changes; an existing run is kept with its counters and gains one frame loop; otherwise a fresh run over a permutation of the ids with zero counters, 60000 ms, not paused, no reward and one loop; the current id is the run's current question |
| TimeAttack.TimeAttackState.Drop | js/screens/timeAttackScreen.js:213-227 | retiring or closing the result drops the run |
| Avatar.ItemsOfTypeMembers | js/screens/avatarScreen.js:25-28 | an item is in a type's bucket exactly when it is in the list, has a type, and that type is the bucket's |
| Avatar.GroupItemsByType | js/screens/avatarScreen.js:23-31 | the map has exactly the four default buckets and every type that occurs, and each bucket is the list's items of that type in their original order |
| Avatar.GroupFoldGrouped | js/screens/avatarScreen.js:23-31 | the map the grouping loop builds puts every item in its type's bucket, in order, with nothing else |
| Avatar.PushToBucket | js/screens/avatarScreen.js:26-28 | an untyped item changes nothing; a typed one is appended to its type's bucket, which is created empty if missing |
| Avatar.GroupedBuckets | js/screens/avatarScreen.js:23-31 | every typed item sits in exactly its own type's bucket, and buckets hold only typed items of the list |
| Avatar.GetItemById | js/screens/avatarScreen.js:33-35 | nothing exactly when no item has the id; otherwise the first item that has it |
| Avatar.IdsOf | js/screens/avatarScreen.js:11-13 | the ids collected are exactly the truthy `item_id`s of the items |
| Avatar.OwnedAfterDefaults | js/screens/avatarScreen.js:8-15 | afterwards there are no duplicates, every old id is kept, every body id is owned, and nothing else is |
| Avatar.EquipFirstBody | js/screens/avatarScreen.js:17-20 | other slots are kept; an equipped body is kept; an empty body slot gets the first body's id; with no truthy first body id the map is unchanged |
| Avatar.EnsureDefaultAvatarOwned | js/screens/avatarScreen.js:3-21 | a missing or empty item list changes nothing; otherwise the owned ids and equipped slots become the two results above |
| Avatar.EnsureDefaultsIdempotent | js/screens/avatarScreen.js:3-21 | running the defaults a second time changes nothing |
| Avatar.Equip | js/screens/avatarScreen.js:106-119 | an empty slot or id, or an id not owned, changes nothing; otherwise exactly that slot gets the id, ownership is kept, and the save is stamped |
| Avatar.ClearHead | js/screens/avatarScreen.js:123-127 | only the head slot is emptied; ownership is kept and the save is stamped |
| Gacha.WeightOf | js/screens/gachaDrawScreen.js:10 | a weight is never negative: a positive weight is kept, a missing or non-positive one counts as 0 |
| Gacha.TotalWeight | js/screens/gachaDrawScreen.js:5 | the total weight is never negative |
| Gacha.CumStep | js/screens/gachaDrawScreen.js:9-11 | the cumulative weight grows by each entry's weight in turn |
| Gacha.PickWeightedAsWrittenDrawsZeroWeight | js/screens/gachaDrawScreen.js:8-13 | as written, a draw of 0 over [weight 0, weight 5] picks the weight-0 entry |
| Gacha.ScanFinds | js/screens/gachaDrawScreen.js:9-13 | for a draw below the total, the scan from any entry on returns the entry whose cumulative interval holds the draw, which has positive weight |
| Gacha.ScanFromStart | js/screens/gachaDrawScreen.js:8-13 | the scan from the first entry finds that entry |
| Gacha.PickWeighted | js/screens/gachaDrawScreen.js:3-15 | nothing exactly when the total weight is 0; otherwise an entry of the pool with positive weight whose cumulative interval [Cum(k), Cum(k+1)) holds the draw |
| Gacha.ScansAgreeOffBoundary | js/screens/gachaDrawScreen.js:8-13 | the as-written and corrected scans agree on every draw that is not a cumulative boundary |
| Gacha.PackFor | js/screens/gachaDrawScreen.js:29-30 | with a requested id, the first pack carrying it; with none, or when no pack carries it, the first pack; nothing when there are no packs |
| Gacha.FirstPack | js/screens/gachaDrawScreen.js:30 | `findIndex`: the first position whose pack carries the requested id (never a match when no id is requested), or the length when none does |
| Gacha.CostOf | js/screens/gachaDrawScreen.js:43 | `cost_coin ?? 100` |
| Gacha.Pull | js/screens/gachaDrawScreen.js:134-169 | too few coins, no drawn id, or an unknown item each change nothing; a pull lowers coins by exactly the cost (never below 0), adds the item only if not owned (so ownership stays duplicate-free), reports whether it was owned, adds one pull and stamps the time; the entry is drawn by the corrected `Gacha.PickWeighted` (see Findings) |
| Router.HashOrTop | js/main.js:34 | an empty hash is treated as "#top"; any other is kept |
| Router.StripHash | js/main.js:35 | one leading '#' is removed, nothing else |
| Router.NonEmpty | js/main.js:36 | `filter(Boolean)`: a part is kept exactly when it is non-empty, and no more parts than given |
| Router.NonEmptySingle | js/main.js:36 | one part is kept exactly when it is non-empty |
| Router.NonEmptyAppend | js/main.js:36 | filtering keeps the order: the parts of `a + b` are the kept parts of `a` followed by those of `b` |
| Router.QueryParams | js/main.js:38-39 | a missing or empty query gives no parameters |
| Router.FillParams | js/main.js:38-44 | the loop builds the parameter map of the query's '&'-separated pairs |
| Router.ParseHash | js/main.js:33-46 | `parseHash` returns the route the hash denotes |
| Router.ParamsKeys | js/main.js:40-43 | a key is a parameter exactly when some pair has it |
| Router.ParamsLastWins | js/main.js:40-43 | a key's value comes from the last pair with that key: later duplicates overwrite earlier ones |
| Router.PairWithoutValue | js/main.js:41-42 | a pair without '=' is its own key with the value "" |
| Router.PairRoundTrip | js/main.js:41-42 | `k=v` gives back k and v |
| Router.HashRoundTrip | js/main.js:33-46 | `#name` parses to ([name], no parameters) and `#name?k=v` to ([name], {k: v}) |
| Router.EmptyHashIsTop | js/main.js:34-70 | an empty hash and "#top" both route to the top screen |
| Router.Dispatch | js/main.js:64-139 | no parts or "top" is the top screen, each known name its screen, "battle" the placeholder, anything else a redirect to "#top" |
| Common.ParseNumber | js/systems/titleManager.js:25 | `Number(s)` on digit strings: "" is 0 and a digit string its value |
| Common.ParseNumberRoundTrip | js/systems/titleManager.js:25 | a natural number written out parses back to itself |
| Common.ToNumber | js/screens/quizScreen.js:69-70 | `Number(v)`: null is 0, a number stays itself, and a missing value is not finite |
| Common.Split | js/main.js:35-36 | `split` always gives at least one piece |
| Common.SplitPartsFree | js/main.js:35-36 | no piece contains the separator |
| Common.JoinSplit | js/main.js:35-36 | joining the pieces with the separator gives back the string |
| Common.SplitJoin | js/main.js:35-36 | splitting a join of separator-free pieces gives back the pieces |
| Common.AddAllProperties | js/screens/avatarScreen.js:8-15 | adding to a `Set` in order leaves no duplicates and holds exactly the old and new elements |
| Common.DedupProperties | js/systems/titleManager.js:4-6 | `new Set(arr)` holds each element of the list once |
| Common.SortByKey | backend/battleLogic.js:14 | sorting by a key is a permutation |
| Common.SortByKeyAscending | backend/battleLogic.js:14 | the sorted list is ascending by the key |
| Common.SortByKeyStable | backend/battleLogic.js:14 | elements with equal keys keep their original order (`Array.prototype.sort` is stable) |
| Common.ShuffleInPlace | js/screens/battleRoomLobbyScreen.js:10-13 | the in-place swaps leave a permutation of the array |

## Left out

- **Not modelled:**
  - Browser I/O: DOM rendering, HTML templates, event wiring, CSS, audio, video playback and typewriter timers.
  - `localStorage` and the JSON text: `ensureSaveLoaded`, `exportSaveJson` and `writeSaveToStorage`. A parsed save is an input.
  - The socket transport in `js/systems/battleClient.js` and the connectivity stub in `backend/server.js`.
  - The master-data lookups (`getTitlesFromMasters`, `getAvatarItems`, `questionById`) and asset paths. Lists and items are inputs.
- **Not-a-number values:** JavaScript `Number()` is modelled for the empty string, optionally signed decimal integers, booleans and null. Every other string, and any `undefined`, is NaN. Non-numeric weights, costs and coin counts that would turn a computation into NaN are not modelled: the save's coins, pulls and best scores are integers.
- **Router:** `decodeURIComponent` in `parseHash` is the identity, so percent-escapes are not decoded.
- **Avatar:**
  - Entries of the item list that are `null` are not modelled: every entry is a record.
  - A non-array `ownedItemIds` reads as missing.
- **Time:** timer intervals are the explicit events `Tick`, `AfterVerdict` and `NextQuestion`. How the browser schedules them, including a second click during the 420 ms verdict delay of endless and time attack, is not modelled beyond each event's own guard.
- **Battle:** the `getCorrectIndex` of `js/screens/battleQuizScreen.js:12-16` is not modelled. The battle screen's correct index is a parameter of the question-end handler and of `BattleQuiz.OnlineRun.Subscribe`.
- BattleQuiz.OnlineRun.HandleNext: takes the `game:next` index as an integer or nothing. A finite non-integer `Number(ev.index)` is not modelled.
- BattleQuiz.OnlineRun.Subscribe: requires that a subscribed run has its subscribing render; the source sets the flag and the handler in one step.
- **Stage result:** `js/screens/resultScreen.js` has no applied-once flag, so rendering the result again adds the reward again. The model states this as it is: `StageResult.RenderResult` applies the result on each call, and `StageResult.ProgressedIdempotent` shows that only the coins, not the stage progress, grow on a repeat.
- Gacha.Pull: requires coins to be present or the cost to be positive. Otherwise the source subtracts from a missing `save.economy`, which throws or leaves NaN.
- Gacha.Pull: requires a draw in `[0, total)`, the range `Math.random() * total` has.
- Gacha.Pull: draws with the corrected `Gacha.PickWeighted`, not the scan as written. The two differ only on a draw that lands exactly on a cumulative boundary. For weights [2, 3] and `r` = 2 the source draws entry 0 and the model draws entry 1 (`Gacha.ScansAgreeOffBoundary`, Findings).
- Gacha.PackFor: a pack whose `gacha_id` is literally `null` is not told apart from a pack without `gacha_id`; both are `None`. With no requested id the source would match the former (`null === null`), and the model matches neither.
- Endless.EndlessRun.Answer: judges with the corrected `Endless.EndlessCorrectIndex`. For a question with no index field the source judges choice 0 correct, and the model counts every choice as a miss (Findings).
- TimeAttack.TimeAttackRun.Answer: judges with the corrected `Endless.EndlessCorrectIndex`, as for Endless.EndlessRun.Answer.
- Gacha.PickWeighted: leaves out the `list[list.length - 1]` fallback. With exact arithmetic and a draw below the total it is unreachable; only floating-point rounding reaches it.
- Avatar.EnsureDefaultAvatarOwned: requires an avatar record when there are items. The source writes `save.avatar.ownedItemIds` and throws without one.
- Avatar.Equip: requires an equipped map when the guard passes. The source writes `save.avatar.equipped[type]` and throws without one.
- Avatar.ClearHead: requires an avatar and an equipped map, for the same reason.
- TimeAttack.TimeAttackRun.Tick: requires a non-negative frame length, since `performance.now()` never goes back.
- TimeAttack.TimeAttackRun.Finish: requires the time to be up, because the source calls `finish()` only from the frame loop at 0.
- BattleLobby.NormalizeAllKeepsPlayers: is stated for a room list without `null` entries. The general case is `BattleLobby.NormalizeAllMembers` and `BattleLobby.NormalizeAllAppend`: the non-null entries, normalized, in order.
- BattleLogic.AnswerRecord: keeps a question's awards as a map from seat to points. The source's `awarded` array lists the same pairs in the order they were set, fastest first, and that order is not kept.
- **Save manager:** `normalizeSaveV1` treats an array-valued `battle`, `cpu` or `pvp` as an object and adds properties to the array. The model's `Json` keeps arrays apart from objects and replaces such a value with the default record.

## Findings

| source | as written | input that shows it | evidently intended | confidence | as-written member | corrected member |
|---|---|---|---|---|---|---|
| js/screens/gachaDrawScreen.js:8-13 | the scan subtracts each weight from `r` and returns the first entry where `r <= 0`, so a draw that lands exactly on a cumulative boundary goes to the earlier entry, even a weight-0 one | pool `[{item_id:"a", weight:0}, {item_id:"b", weight:5}]` with `Math.random()` returning 0: `r` is 0, 0 - 0 <= 0, and "a" is drawn although its weight is 0 | entries are drawn with probability proportional to weight, so a zero-weight entry is never drawn (`r < 0`, the interval [Cum(k), Cum(k+1))) | low: needs `Math.random()` to return exactly 0 or a boundary value; not executed | Gacha.PickWeightedAsWrittenDrawsZeroWeight | Gacha.PickWeighted |
| js/screens/endlessScreen.js:7-11 | `getCorrectIndex` ends its chain in `?? null` and then takes `Number(v)`. `Number(null)` is 0, so a question without any index field gets correct index 0 rather than `null`. `js/screens/timeAttackScreen.js:7-12` is the same | a question with none of `correct_index`, `correct_choice_index` or `answer_index`: choice 0 is judged correct | no index means no correct choice, which is what the caller's `correctIdx != null` test expects | medium: the master data may always carry an index; not executed | Endless.AsWrittenMissingIndexIsZero | Endless.EndlessCorrectIndex |
| js/screens/battleQuizScreen.js:185-269 | the `game:event` handler is subscribed only once per run (`if (!run.__quizSubscribed)`). It closes over the first render's `idx`, `correctIdx`, `clientIdToPi` and `ended`, and later renders never replace it | an online run with two questions: question 1's `game:questionEnd` fails `qIndex !== idx` (idx is 0) and scores nothing, its `game:answer` pings are dropped, and `game:next` ends only question 0's render | every question's events are handled with that question's index, correct index and seats, so each question played is scored | high: follows from the subscription guard and `run` outliving the render; not executed | BattleQuiz.SecondQuestionUnscored | BattleQuiz.PerRenderScoresEvery |
| js/screens/timeAttackScreen.js:188-205 | every render starts another `requestAnimationFrame(tick)` loop, and a loop stops only when the time is up. `nextQuestion` re-renders through `goto("#timeAttack")` (lines 249-252), which calls `route()` directly (`js/main.js:48-50`) | after k answers, k + 1 loops each subtract the frame interval, so after one answer thirty seconds of play use up the sixty-second clock | one loop per run, so the clock follows the time that passes | high: follows from the render path; not executed | TimeAttack.OneAnswerHalvesTheMinute | TimeAttack.OneLoopFollowsTime |
