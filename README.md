# LoL Jungle Assistant backend, modelled in Dafny

This project models the core of the backend of a League of Legends jungle
assistant. The backend answers a small set of routes:

- standard objective timers;
- objective timers stored per game session;
- pathing suggestions, coming either from a language-model assistant or from
  a canned fallback text;
- live-game tracking;
- per-champion jungle statistics;
- thin wrappers around the game-statistics provider (account, summoner, rank
  entries, recent matches, match details).

It also models:

- the service that builds the assistant's requests and reads its replies;
- the one-off script that creates or refreshes the "Not Alet" user row;
- the CORS origin list parsed from the settings.

The modules follow the program's files:

| module | file | flavour |
|---|---|---|
| `Common` | shared shapes | optional JSON fields, the exceptions a route raises, `//` on minutes |
| `Text` | shared helpers | the Python string operations the core relies on (`strip`, `split`, `join`, `lower`, `replace`, `str(int)`) and their inverses |
| `RiotData` | provider replies | the JSON shapes the handlers read, and the "first solo-queue entry" search |
| `Config` | `backend/app/core/config.py` | pure |
| `ClaudeService` | `backend/app/services/claude_service.py` | methods with the participant loop; request and reply as values |
| `RiotApi` | `backend/app/api/endpoints/riot_api.py` | route functions; the rank loop as a method |
| `JungleSpecific` | `backend/app/api/endpoints/jungle_specific.py` | the timer store as a class; the loops as methods; the rest pure |
| `SetupUser` | `backend/setup_user.py` | the users table as a class; the rank loop as a method |

Replies from the provider and from the assistant are parameters of the
operations:

- an absent value or an empty JSON object is `None`, while an empty list stays an empty list;
- an assistant reply is an HTTP status plus the parsed body, or a transport
  failure.

A route that ends in an exception returns `Err` with the exception's shape:

- `HttpError(status, detail)`;
- `KeyError`;
- `ZeroDivisionError`;
- `Wrapped(500, context, cause)` for a `raise HTTPException(500, f"...: {e}")`
  inside an `except Exception`.

## Model

| member | source | states |
|---|---|---|
| Common.FloorMinutes | backend/app/api/endpoints/jungle_specific.py:224 | `seconds // 60` is the floor: `m*60 <= seconds < m*60 + 60` for every integer |
| Text.LeadingSpaceCount | backend/app/core/config.py:39 | the count covers whitespace only (Python's whitespace set) and stops at the first other character |
| Text.TrailingSpaceCount | backend/app/core/config.py:39 | the count covers whitespace only and stops at the last other character |
| Text.Strip | backend/app/core/config.py:39 | `str.strip()` is the slice of the input after its leading whitespace; what follows the slice is whitespace only, and the slice neither starts nor ends with whitespace, so it is empty exactly for an all-whitespace input |
| Text.StripKeepsUnpadded | backend/app/core/config.py:39 | `strip` leaves an unpadded string unchanged |
| Text.StripSpacePrefixed | backend/app/services/claude_service.py:128 | `strip` removes the blank that `", ".join` puts before a name |
| Text.Split | backend/app/core/config.py:39 | `split(',')` gives one more piece than there are commas, and no piece holds a comma |
| Text.SplitThenJoin | backend/app/core/config.py:39 | joining the pieces of `split(c)` with `c` gives back the input |
| Text.SplitAfterPiece | backend/app/core/config.py:39 | splitting `piece + c + rest` gives `piece` followed by the pieces of `rest`, when `piece` has no `c` |
| Text.SplitWithoutSeparator | backend/app/core/config.py:39 | a string without the separator splits into itself alone |
| Text.Join | backend/app/services/claude_service.py:113 | `sep.join` of no parts is empty and of one part is that part; with `Split` it is inverted by `SplitThenJoin` and `JoinThenSplit` |
| Text.JoinThenSplit | backend/app/core/config.py:39 | splitting a `c`-join of pieces that have no `c` gives back the pieces |
| Text.Lower | backend/app/api/endpoints/jungle_specific.py:270 | `lower()` keeps the length, turns each upper-case ASCII letter into its lower-case form, and keeps every other character |
| Text.LowerConcat | backend/app/api/endpoints/jungle_specific.py:270 | `lower()` works piece by piece over a concatenation |
| Text.RemoveAll | backend/app/api/endpoints/jungle_specific.py:270 | `replace(c, "")` leaves no `c`, shortens by the number of `c`s, adds no character, and is the identity without a `c` |
| Text.RemoveAllSingle | backend/app/api/endpoints/jungle_specific.py:270 | on one character `replace(c, "")` drops it exactly when it is `c`; with `RemoveAllConcat` this fixes the whole result, in order |
| Text.RemoveAllConcat | backend/app/api/endpoints/jungle_specific.py:270 | `replace(c, "")` distributes over concatenation |
| Text.RemoveOnlyOccurrence | backend/app/api/endpoints/jungle_specific.py:270 | removing a character that occurs once joins the text on either side of it |
| Text.NatToString | backend/app/services/claude_service.py:62 | a natural number prints as a non-empty run of digits without a leading zero (except 0 itself) |
| Text.IntToString | backend/app/services/claude_service.py:62 | `str(i)` is non-empty and made of digits and `-`; it starts with `-` exactly for a negative number, and has no leading zero (none after the sign, and none before another digit) |
| Text.ParseNatToString | backend/app/services/claude_service.py:62 | parsing the digits of `n` gives back `n` |
| Text.IntToStringRoundTrip | backend/app/services/claude_service.py:62 | `str(i)` is a numeral that parses back to `i`, negative numbers included |
| RiotData.MatchParticipants | backend/app/services/claude_service.py:46 | the match's participant list, or none when the info or the list is missing |
| RiotData.FirstSoloQueue | backend/app/api/endpoints/riot_api.py:55-67 | the first entry whose `queueType` is `RANKED_SOLO_5x5`, or None exactly when there is none |
| Config.AllowedOriginsList | backend/app/core/config.py:37-39 | one origin per comma-separated piece, in input order (commas + 1 of them); each is the piece stripped, unpadded, and holds no comma |
| Config.UnpaddedOriginsRoundTrip | backend/app/core/config.py:37-39 | when no piece has whitespace at its ends, joining the list with `,` gives back the setting |
| Config.OriginsListRoundTrip | backend/app/core/config.py:37-39 | a non-empty list of unpadded, comma-free origins survives a join with `,` followed by parsing |
| Config.EmptySettingGivesOneEmptyOrigin | backend/app/core/config.py:37-39 | the empty setting gives a single empty origin |
| Config.DefaultOrigins | backend/app/core/config.py:29 | the default setting gives `http://localhost:3000` and `http://127.0.0.1:3000` |
| ClaudeService.RequestBodyFor | backend/app/services/claude_service.py:19-26 | the body names the model and the 1000-token cap, carries the messages, and has a `system` entry, holding the prompt, exactly when the system prompt is truthy |
| ClaudeService.BuildRequestBody | backend/app/services/claude_service.py:19-26 | the body names the model and the 1000-token cap, carries the messages, and has a `system` entry exactly when the system prompt is truthy |
| ClaudeService.ReplyText | backend/app/services/claude_service.py:28-41 | the first content block's text is returned exactly when the status is 2xx, the body parses and the block and its text exist; any failure gives None |
| ClaudeService.MakeRequest | backend/app/services/claude_service.py:17-41 | sends the body built from the messages and the system prompt, and returns the reply's text or None |
| ClaudeService.GameResult | backend/app/services/claude_service.py:61 | "Victoria" exactly when `win` is true, "Derrota" otherwise (missing included) |
| ClaudeService.NoSlashInNumber | backend/app/services/claude_service.py:62 | a printed integer holds no `/` |
| ClaudeService.Kda | backend/app/services/claude_service.py:62 | the KDA text splits on `/` into exactly the printed kills, deaths and assists, 0 for a missing count |
| ClaudeService.KdaRoundTrip | backend/app/services/claude_service.py:62 | the KDA text splits on `/` into exactly three numerals that parse back to kills, deaths and assists (0 when missing) |
| ClaudeService.Summarize | backend/app/services/claude_service.py:58-70 | the summary carries the champion and position, the result `GameResult(win)`, the KDA text of the three counts, the CS, jungle CS, vision score, dragons, barons and stolen objectives with 0 for a missing count, and the match duration floored to minutes |
| ClaudeService.GameDurationSeconds | backend/app/services/claude_service.py:66 | the match's duration, 0 when the info or the duration is missing |
| ClaudeService.FirstParticipant | backend/app/services/claude_service.py:45-49 | the first participant whose puuid equals the user's, or None exactly when there is none |
| ClaudeService.FindPlayer | backend/app/services/claude_service.py:45-52 | the loop with `break` returns that first participant, and None exactly when none matches |
| ClaudeService.PerformanceFields | backend/app/services/claude_service.py:75-93 | the performance prompt holds exactly the nine summary entries the template formats: champion, result, KDA text, CS, jungle CS, vision score, minutes, dragons and barons |
| ClaudeService.PerformanceFieldsIgnorePositionAndStolen | backend/app/services/claude_service.py:58-93 | two players who differ only in position and stolen objectives get the same performance prompt, since the template formats neither |
| ClaudeService.AnalyzeJunglePerformance | backend/app/services/claude_service.py:43-97 | no request when the user is absent; otherwise one request whose user message holds the performance fields of the first matching participant's summary, with the performance system prompt, and the reply's text |
| ClaudeService.SuggestionFields | backend/app/services/claude_service.py:109-114 | each field of the game state, or its template default (0, "Desconocido", 1, 0, no objectives, "Neutro"); the objectives joined with ", " |
| ClaudeService.GetJungleSuggestions | backend/app/services/claude_service.py:99-121 | one request carrying the state's fields with the template defaults and the suggestions system prompt; returns the reply's text |
| ClaudeService.EnemyInfo | backend/app/services/claude_service.py:128 | empty exactly when the enemy team is missing or empty; otherwise the label followed by the names joined with ", " |
| ClaudeService.SpacePrefixed | backend/app/services/claude_service.py:128 | each name with one blank in front, same count and order |
| ClaudeService.JoinCommaSpace | backend/app/services/claude_service.py:128 | a ", " join is a "," join of the first name and the blank-prefixed rest |
| ClaudeService.SplitCommaSpaceJoin | backend/app/services/claude_service.py:128 | splitting a ", " join of comma-free names on "," gives the first name and the blank-prefixed rest |
| ClaudeService.EnemyInfoListsNames | backend/app/services/claude_service.py:128 | the enemy line lists exactly the given names, in order, recoverable by split and strip |
| ClaudeService.RecommendationFields | backend/app/services/claude_service.py:128-138 | each preference, or its template default ("Balanceado", "Ninguno especificado", "No especificado", "Mejorar en general"); the enemy line is `EnemyInfo` of the team, so empty exactly without enemies |
| ClaudeService.RecommendJungleChampions | backend/app/services/claude_service.py:123-149 | one request carrying the preferences with their defaults, the enemy line and the recommendation system prompt; returns the reply's text |
| ClaudeService.AnalyzeJunglePathing | backend/app/services/claude_service.py:151-187 | no request when the user is absent; ZeroDivisionError and no request when the match states a zero duration; otherwise one request with the champion, jungle CS, floored minutes and level, and the reply's text |
| RiotApi.WinRate | backend/app/api/endpoints/riot_api.py:64-65 | wins over `max(wins + losses, 1)` times 100: the exact ratio when any game was played, 0 without wins, within [0, 100] for non-negative counts |
| RiotApi.ToRankInfo | backend/app/api/endpoints/riot_api.py:58-65 | the entry's tier and division, its LP, wins and losses with 0 for a missing count, and the win rate of those counts |
| RiotApi.SoloRankInfo | backend/app/api/endpoints/riot_api.py:53-67 | None exactly when the list is missing or has no solo-queue entry; otherwise the rank object of the first such entry |
| RiotApi.SelectRankInfo | backend/app/api/endpoints/riot_api.py:53-67 | None exactly when the list is missing or has no solo-queue entry; otherwise the first such entry's tier, division, LP, wins and losses (0 when missing) and their win rate |
| RiotApi.GetCompleteSummonerInfo | backend/app/api/endpoints/riot_api.py:36-84 | missing data is a 404 re-raised as 500; every failure is a 500; success exactly when account and puuid are present (and level and icon when a summoner is); level and icon are None exactly without a summoner; rank is the solo-queue search; the match count is the full count and the ids are the first min(10, n) |
| RiotApi.NotFoundUnlessPresent | backend/app/api/endpoints/riot_api.py:11-19 | an absent reply is a 404 with the route's detail, a present one is passed through unchanged |
| RiotApi.NotFoundUnlessNonEmpty | backend/app/api/endpoints/riot_api.py:90-98 | an absent or empty list is a 404 with the route's detail, any other is passed through unchanged |
| RiotApi.GetSummoner | backend/app/api/endpoints/riot_api.py:8-19 | 404 exactly when the account lookup returns nothing, the account otherwise |
| RiotApi.GetSummonerByPuuid | backend/app/api/endpoints/riot_api.py:22-33 | 404 exactly when the summoner lookup returns nothing, the summoner otherwise |
| RiotApi.GetRankInfo | backend/app/api/endpoints/riot_api.py:87-98 | 404 exactly when the entry list is missing or empty, the list otherwise |
| RiotApi.GetRecentMatches | backend/app/api/endpoints/riot_api.py:101-112 | 404 exactly when the id list is missing or empty, the list otherwise |
| RiotApi.GetMatchDetails | backend/app/api/endpoints/riot_api.py:115-126 | 404 exactly when the match lookup returns nothing, the match otherwise |
| JungleSpecific.ObjectiveTimers | backend/app/api/endpoints/jungle_specific.py:38-62 | six distinct dragon kinds; seven camps respawning after 135 to 300 s; first dragon before herald, herald despawning before Baron's first spawn |
| JungleSpecific.GetObjectiveTimers | backend/app/api/endpoints/jungle_specific.py:33-69 | the standard table for season "14", patch "14.24" |
| JungleSpecific.MinutesTruncated | backend/app/api/endpoints/jungle_specific.py:97 | `int(seconds / 60)` truncates toward zero: whole minutes of the magnitude, with the sign of the input |
| JungleSpecific.TruncationExamples | backend/app/api/endpoints/jungle_specific.py:97 | 59 s gives 0, 60 s gives 1, −30 s gives 0, where flooring would give −1 |
| JungleSpecific.NewTimer | backend/app/api/endpoints/jungle_specific.py:88-99 | the new row belongs to the session, copies the request's objective type and name, has no notes, respawns `respawn_seconds` after its spawn, records the truncated minute since the session start, and is active and not secured |
| JungleSpecific.TeamSideNotStored | backend/app/api/endpoints/jungle_specific.py:21 | the request's team side does not affect the stored row |
| JungleSpecific.JungleDatabase.constructor | backend/app/models/jungle_timer.py:10 | an empty timer table over the given sessions satisfies the foreign key |
| JungleSpecific.JungleDatabase.StartObjectiveTimer | backend/app/api/endpoints/jungle_specific.py:71-109 | unknown session: 404 and no row added; otherwise exactly one row appended, the sessions untouched, the foreign key kept, and the response carries the row, the message and the respawn time |
| JungleSpecific.PathTextOpenings | backend/app/api/endpoints/jungle_specific.py:291-296 | each canned text opens with its phase's label, and the early and mid texts hold the champion's name at a fixed offset |
| JungleSpecific.BasicJunglePath | backend/app/api/endpoints/jungle_specific.py:288-296 | "Early game" text exactly up to minute 5, "Mid game" exactly for minutes 6 to 15, "Late game" exactly after 15; the early and mid texts name the champion |
| JungleSpecific.PathBoundaries | backend/app/api/endpoints/jungle_specific.py:291-296 | minutes 0 and 5 are early, 6 and 15 mid, 16 late |
| JungleSpecific.LateTextIgnoresChampion | backend/app/api/endpoints/jungle_specific.py:295-296 | after minute 15 the text is the same for every champion |
| JungleSpecific.GetJunglePathSuggestions | backend/app/api/endpoints/jungle_specific.py:111-147 | the assistant gets the game time, champion and team state; the fallback text is used exactly when its reply is missing or empty; the context echoes the request |
| JungleSpecific.LastMatch | backend/app/api/endpoints/jungle_specific.py:205-212 | the last participant whose puuid equals the player's, None exactly when none does |
| JungleSpecific.LastPlayerInfo | backend/app/api/endpoints/jungle_specific.py:204-212 | None exactly when no participant has the player's puuid; otherwise the info of a participant with it after which none has it |
| JungleSpecific.MarkParticipants | backend/app/api/endpoints/jungle_specific.py:204-218 | one marked entry per participant, in order, flagged exactly where the puuid matches; the player's info comes from the last match, None exactly when none matches |
| JungleSpecific.TrackLiveGame | backend/app/api/endpoints/jungle_specific.py:164-232 | the route's own 404s come back as 500s; without an active game, "not in game" with the account; otherwise the game's id, mode and length, the marked participants, the player's info and `gameLength // 60` (0 when missing) |
| JungleSpecific.ChampionKey | backend/app/api/endpoints/jungle_specific.py:270 | the key has no apostrophe, no space and no upper-case letter, and is no longer than the name |
| JungleSpecific.ChampionKeyConcat | backend/app/api/endpoints/jungle_specific.py:270 | the key of a concatenation is the concatenation of the keys |
| JungleSpecific.ChampionKeySingle | backend/app/api/endpoints/jungle_specific.py:270 | an apostrophe or a space contributes nothing to the key, any other character its lower-case form; with `ChampionKeyConcat` this fixes the key of every name |
| JungleSpecific.ChampionKeyIdempotent | backend/app/api/endpoints/jungle_specific.py:270 | normalising a key again changes nothing |
| JungleSpecific.ChampionStats | backend/app/api/endpoints/jungle_specific.py:270-278 | the looked-up record is the Graves, the Kindred or the "Unknown" one, never the "kha'zix" one |
| JungleSpecific.ChampionStatsLookup | backend/app/api/endpoints/jungle_specific.py:243-278 | "graves" and "kindred" find their records; any other key gets the "Unknown" record with an empty build; the "kha'zix" record is never returned |
| JungleSpecific.KhazixLowered | backend/app/api/endpoints/jungle_specific.py:270 | lowercasing "Kha'Zix" gives "kha'zix" |
| JungleSpecific.KhazixApostropheRemoved | backend/app/api/endpoints/jungle_specific.py:270 | removing the apostrophe from "kha'zix" gives "khazix" |
| JungleSpecific.KhazixKey | backend/app/api/endpoints/jungle_specific.py:270 | "Kha'Zix" normalises to "khazix" |
| JungleSpecific.KhazixFallsBack | backend/app/api/endpoints/jungle_specific.py:260-278 | "Kha'Zix" gets the default record, not the "kha'zix" one |
| JungleSpecific.GetJungleChampionStats | backend/app/api/endpoints/jungle_specific.py:234-286 | the response echoes the name and region, has meta tier "A", and carries the looked-up record, never the "kha'zix" one |
| SetupUser.RankFor | backend/setup_user.py:22-45 | with no summoner PLATINUM / IV / 91; with one, the first solo-queue entry's tier, division and LP (0 when missing), or None / None / 0 when there is none |
| SetupUser.ChooseRank | backend/setup_user.py:22-45 | with no summoner: PLATINUM / IV / 91 and level 271; with one: the first solo-queue entry's tier, division and LP (0 when missing), or None / None / 0 when there is none, and the summoner's own level |
| SetupUser.RankIgnoresSummonerFields | backend/setup_user.py:27-31 | only the presence of the summoner matters to the stored rank, not its level, id or icon |
| SetupUser.IndexOfRiotId | backend/setup_user.py:50 | the first row with the riot id, None exactly when there is none |
| SetupUser.Refreshed | backend/setup_user.py:52-58 | the existing row gets the new name, tag, rank and champion list and keeps its riot id, region and active flag |
| SetupUser.NewUser | backend/setup_user.py:63-72 | the new row is "Not Alet" in region "las", active, with the new name, tag, rank and champion list |
| SetupUser.Upserted | backend/setup_user.py:50-76 | the table grows by one exactly when no "Not Alet" row existed, and rows with another riot id are unchanged |
| SetupUser.UpsertKeepsUnique | backend/setup_user.py:50-76 | refreshing or inserting the "Not Alet" row keeps `riot_id` unique |
| SetupUser.UpsertedTargetRow | backend/setup_user.py:50-76 | exactly one "Not Alet" row afterwards, holding the new name, tag, rank and champion list; an existing row keeps its region and active flag, a new one is active in region "las"; the table grows by one exactly when no such row existed, and every other row is unchanged |
| SetupUser.UserTable.constructor | backend/app/models/user.py:9 | the table starts with the given rows, `riot_id` unique |
| SetupUser.UserTable.SetupNotAletUser | backend/setup_user.py:8-81 | no account: table untouched, no rollback; missing name or tag: rollback, table untouched; otherwise the row is upserted with the chosen rank and committed; the session is closed on every path, and the summoner level and match count never reach the table |

## Left out

- HTTP, database and clock I/O: provider and assistant replies, and the stored tables, are parameters or fields. Time stamps are whole seconds. `datetime.now()` stamps (`last_updated`, `generated_at`, `tracking_started`) and the rows' `created_at`/`updated_at` are not modelled.
- backend/app/services/riot_service.py is not part of this model. It defines neither `get_complete_summoner_info` nor `get_current_game`, so as written the complete-summoner route and the live-game route always end in their `except` with a 500. `RiotApi.GetCompleteSummonerInfo` and `JungleSpecific.TrackLiveGame` model what the routes do with the replies those calls would return.
- Exceptions raised by the provider or assistant transport inside a route (network errors, a failing commit) are not modelled. Only the exceptions the handlers themselves raise are.
- Floating point: `cs_per_min` appears only in the prompt text. The win rate is the exact rational ratio, without the one-decimal `round`.
- `RiotApi.WinRate`: stated on the exact ratio rather than the rounded float the route returns, because float rounding is not modelled.
- `Text.Lower`: lowercases the ASCII letters only, because no Unicode case table is modelled. The champion name of the statistics route is free text from the URL path (backend/app/api/endpoints/jungle_specific.py:235), so a name with a non-ASCII capital gets a different key in the model: Python lowercases the KELVIN SIGN (U+212A) of "\u212Aindred" to "k" and finds the Kindred record, while the model keeps the sign and returns the "Unknown" record.
- The prompt wording beyond the formatted fields is not modelled. Each prompt is a datatype carrying the values that the f-string interpolates. The system prompts are kept verbatim.
- A JSON field that is present but null is folded into "missing" (`Option.None`). `get(key, default)` returns the null, not the default, so the model differs from the code wherever a default or a key lookup meets an explicit null:
  - `leaguePoints` (backend/app/api/endpoints/riot_api.py:61, backend/setup_user.py:38): the code keeps `None`, the model gives 0;
  - the kills, deaths, assists, CS, jungle CS, vision score, dragons and barons of the match summary (backend/app/services/claude_service.py:62-68): the code prints "None" into the prompt, the model prints 0. A null position or stolen-objectives count never reaches the prompt (lines 75-93 do not format them), so there the two agree;
  - `gameDuration` in both match analyses (backend/app/services/claude_service.py:66 and 165-166): the code raises `TypeError`, while the model sends a request with 0 minutes;
  - `gameLength // 60` in the live-game route (backend/app/api/endpoints/jungle_specific.py:224): the code raises `TypeError` (a 500), the model gives 0 minutes;
  - `wins`/`losses` in the complete-summoner route (backend/app/api/endpoints/riot_api.py:62-65): the code raises `TypeError` (a 500), the model succeeds with 0;
  - `puuid`, `summonerLevel`, `profileIconId` in that route (backend/app/api/endpoints/riot_api.py:72-74): the code returns `None`, the model answers 500 as for a missing key;
  - `recent_matches` in that route (backend/app/api/endpoints/riot_api.py:76): `len(None)` raises (a 500), the model counts 0;
  - `info` in both match analyses (backend/app/services/claude_service.py:46, 66, 157, 166 and 176): `.get` on the null raises `AttributeError`, which escapes, while the model sees no participants and returns None without a request;
  - `neutralMinionsKilled` in the pathing analysis (backend/app/services/claude_service.py:165): dividing the null raises `TypeError`, while the model sends a request with jungle CS 0;
  - `champLevel` in the pathing analysis (backend/app/services/claude_service.py:177): the code prints "None" into the prompt, the model prints 0;
  - `participants` in both match analyses and the live-game route (backend/app/services/claude_service.py:46 and 157, backend/app/api/endpoints/jungle_specific.py:205): iterating the null raises `TypeError`, the model sees no participants;
  - a null `gameName`/`tagLine` in the set-up script would fail at commit (the columns are NOT NULL) rather than with `KeyError`; either way the session rolls back.
- Empty JSON objects returned by the provider are falsy in Python and are represented as `None`.
- The autoincrement `id` of new rows, and `db.refresh`, are not modelled.
- `init_db()` in the set-up script (table creation) is not modelled.
- The puuid and summoner id that the set-up script and the live-game route pass from one lookup to the next are not modelled. Each lookup's reply is a separate parameter.
- The `except Exception` of `get_jungle_path_suggestions` cannot be reached once the assistant call is modelled as returning None on failure, so that route has no error path in the model.
- The region values and the `region` parameters of the routes are passed through or not used. There is no region table.
