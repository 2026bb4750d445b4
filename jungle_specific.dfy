/** The jungle-specific routes: the standard objective timings, creating an
    objective timer in the store, the pathing suggestions with their canned
    fallback, live-game tracking, and the per-champion jungle statistics. */
module JungleSpecific {
  import opened Common
  import opened Text
  import opened RiotData
  import opened ClaudeService

  // ---------------------------------------------------------------- standard timers

  datatype CampTimer = CampTimer(camp: string, respawn: nat)

  /** Spawn and respawn timings in seconds of game time. */
  datatype StandardTimers = StandardTimers(
    dragonFirstSpawn: nat, dragonRespawn: nat, dragonTypes: seq<string>,
    baronFirstSpawn: nat, baronRespawn: nat,
    heraldFirstSpawn: nat, heraldDespawn: nat, heraldRespawn: nat,
    camps: seq<CampTimer>)

  /** The reference table of `get_objective_timers`: six distinct dragon kinds,
      seven camps respawning after 135 to 300 seconds, the dragon before the
      herald, and the herald gone before Baron's first spawn. */
  function ObjectiveTimers(): (t: StandardTimers)
    ensures |t.dragonTypes| == 6
    ensures forall i, j :: 0 <= i < j < |t.dragonTypes| ==> t.dragonTypes[i] != t.dragonTypes[j]
    ensures |t.camps| == 7 && forall i :: 0 <= i < |t.camps| ==> 135 <= t.camps[i].respawn <= 300
    ensures t.dragonFirstSpawn < t.heraldFirstSpawn < t.heraldDespawn < t.baronFirstSpawn
  {
    StandardTimers(
      300, 300, ["Ocean", "Mountain", "Cloud", "Infernal", "Hextech", "Chemtech"],
      1200, 360,
      480, 1140, 360,
      [CampTimer("krugs", 135), CampTimer("gromp", 135), CampTimer("wolves", 135),
       CampTimer("raptors", 135), CampTimer("red_buff", 300), CampTimer("blue_buff", 300),
       CampTimer("scuttle", 150)])
  }

  datatype TimersResponse = TimersResponse(timers: StandardTimers, season: string, patch: string)

  /** `get_objective_timers`: the fixed table, for season 14, patch 14.24. */
  function GetObjectiveTimers(): (r: TimersResponse)
    ensures r.timers == ObjectiveTimers() && r.season == "14" && r.patch == "14.24"
  {
    TimersResponse(ObjectiveTimers(), "14", "14.24")
  }

  // ---------------------------------------------------------------- objective timers in the store

  /** A `game_sessions` row; `startedAt` in whole seconds. */
  datatype GameSessionRow = GameSessionRow(userId: int, matchId: string, championName: string, startedAt: int)

  /** A `jungle_timers` row; times in whole seconds. */
  datatype TimerRow = TimerRow(
    gameSessionId: int, objectiveType: string, objectiveName: string,
    spawnTime: int, respawnTime: int, isSecured: bool, securedByTeam: Option<string>,
    gameTimeMinutes: int, isActive: bool, notes: Option<string>)

  /** The request body of `start_objective_timer`. */
  datatype ObjectiveTimer = ObjectiveTimer(
    objectiveType: string, objectiveName: string, spawnTime: int, respawnSeconds: int, teamSide: string)

  datatype TimerStarted = TimerStarted(timer: TimerRow, message: string, respawnAt: int)

  /** Python's `int(seconds / 60)`: the quotient truncated toward zero, so
      its magnitude is the whole minutes in |seconds| and its sign that of seconds. */
  function MinutesTruncated(seconds: int): (m: int)
    ensures seconds >= 0 ==> 0 <= m && m * 60 <= seconds < m * 60 + 60
    ensures seconds < 0 ==> m <= 0 && seconds <= m * 60 && m * 60 - 60 < seconds
  {
    if seconds >= 0 then seconds / 60 else -((-seconds) / 60)
  }

  /** 59 s is minute 0, 60 s minute 1, and 30 s before the session start is
      minute 0, where the flooring `//` of the live-game route would give -1. */
  lemma TruncationExamples()
    ensures MinutesTruncated(59) == 0 && MinutesTruncated(60) == 1
    ensures MinutesTruncated(-30) == 0 && FloorMinutes(-30) == -1
  {
  }

  /** The row `start_objective_timer` inserts for a session that started at `startedAt`. */
  function NewTimer(req: ObjectiveTimer, sessionId: int, startedAt: int): (t: TimerRow)
    ensures t.gameSessionId == sessionId && t.spawnTime == req.spawnTime
    ensures t.objectiveType == req.objectiveType && t.objectiveName == req.objectiveName && t.notes.None?
    ensures t.respawnTime - t.spawnTime == req.respawnSeconds
    ensures t.gameTimeMinutes == MinutesTruncated(req.spawnTime - startedAt)
    ensures t.isActive && !t.isSecured && t.securedByTeam.None?
  {
    TimerRow(sessionId, req.objectiveType, req.objectiveName, req.spawnTime,
      req.spawnTime + req.respawnSeconds, false, None,
      MinutesTruncated(req.spawnTime - startedAt), true, None)
  }

  /** The request's team side is not stored. */
  lemma TeamSideNotStored(req: ObjectiveTimer, side: string, sessionId: int, startedAt: int)
    ensures NewTimer(req.(teamSide := side), sessionId, startedAt) == NewTimer(req, sessionId, startedAt)
  {
  }

  /** The two tables the timer route touches. */
  class JungleDatabase {
    var sessions: map<int, GameSessionRow>
    var timers: seq<TimerRow>

    /** Every timer belongs to a stored session (the foreign key). */
    ghost predicate Valid()
      reads this
    {
      forall i :: 0 <= i < |timers| ==> timers[i].gameSessionId in sessions
    }

    constructor (sessions: map<int, GameSessionRow>)
      ensures Valid() && this.sessions == sessions && timers == []
    {
      this.sessions := sessions;
      timers := [];
    }

    /** `start_objective_timer`: 404 and no row for an unknown session;
        otherwise exactly one new row, nothing else changed. */
    method StartObjectiveTimer(req: ObjectiveTimer, sessionId: int) returns (r: Result<TimerStarted>)
      requires Valid()
      modifies this
      ensures Valid() && sessions == old(sessions)
      ensures sessionId !in sessions ==>
        r == Err(HttpError(404, "Game session not found")) && timers == old(timers)
      ensures sessionId in sessions ==>
        && timers == old(timers) + [NewTimer(req, sessionId, sessions[sessionId].startedAt)]
        && r == Ok(TimerStarted(timers[|timers| - 1], "Timer iniciado para " + req.objectiveName,
                                req.spawnTime + req.respawnSeconds))
    {
      if sessionId !in sessions {
        return Err(HttpError(404, "Game session not found"));
      }
      var session := sessions[sessionId];
      var respawnTime := req.spawnTime + req.respawnSeconds;
      var timer := TimerRow(sessionId, req.objectiveType, req.objectiveName, req.spawnTime,
        respawnTime, false, None, MinutesTruncated(req.spawnTime - session.startedAt), true, None);
      timers := timers + [timer];
      r := Ok(TimerStarted(timer, "Timer iniciado para " + req.objectiveName, respawnTime));
    }
  }

  // ---------------------------------------------------------------- pathing suggestions

  predicate StartsWith(s: string, prefix: string) {
    |prefix| <= |s| && s[..|prefix|] == prefix
  }

  /** `sub` stands in `s` at index `k`. */
  predicate OccursAt(sub: string, s: string, k: nat) {
    k + |sub| <= |s| && s[k..k + |sub|] == sub
  }

  const EarlyLabel: string := "Early game"
  const MidLabel: string := "Mid game"
  const LateLabel: string := "Late game"
  const EarlyOpening: string := EarlyLabel + " con "
  const EarlyClosing: string := ": Inicia en el buff de tu lado → campamentos pequeños → Scuttle crab a los 3:15"
  const MidOpening: string := MidLabel + ": Prioriza objetivos y gankeos. Con "
  const MidClosing: string := " busca oportunidades de counterjungle"
  const LateText: string := LateLabel + ": Acompaña al equipo y controla visión alrededor de Baron/Dragon"

  /** How each canned text opens, and where the champion stands in it. */
  lemma PathTextOpenings(champion: string)
    ensures StartsWith(EarlyOpening + champion + EarlyClosing, EarlyLabel)
    ensures OccursAt(champion, EarlyOpening + champion + EarlyClosing, |EarlyOpening|)
    ensures StartsWith(MidOpening + champion + MidClosing, MidLabel)
    ensures OccursAt(champion, MidOpening + champion + MidClosing, |MidOpening|)
    ensures StartsWith(LateText, LateLabel)
  {
    var early := EarlyOpening + champion + EarlyClosing;
    assert early[..|EarlyLabel|] == EarlyLabel;
    assert early[|EarlyOpening|..|EarlyOpening| + |champion|] == champion;
    var mid := MidOpening + champion + MidClosing;
    assert mid[..|MidLabel|] == MidLabel;
    assert mid[|MidOpening|..|MidOpening| + |champion|] == champion;
  }

  /** `get_basic_jungle_path`: the early text up to minute 5, the mid text up
      to minute 15, the late text after; the early and mid texts name the
      champion. */
  function BasicJunglePath(champion: string, gameTime: int): (text: string)
    ensures gameTime <= 5 <==> StartsWith(text, EarlyLabel)
    ensures 5 < gameTime <= 15 <==> StartsWith(text, MidLabel)
    ensures 15 < gameTime <==> StartsWith(text, LateLabel)
    ensures gameTime <= 5 ==> OccursAt(champion, text, |EarlyOpening|)
    ensures 5 < gameTime <= 15 ==> OccursAt(champion, text, |MidOpening|)
  {
    PathTextOpenings(champion);
    var text := if gameTime <= 5 then EarlyOpening + champion + EarlyClosing
      else if gameTime <= 15 then MidOpening + champion + MidClosing
      else LateText;
    assert StartsWith(text, EarlyLabel) ==> text[0] == 'E';
    assert StartsWith(text, MidLabel) ==> text[0] == 'M';
    assert StartsWith(text, LateLabel) ==> text[0] == 'L';
    assert gameTime <= 5 ==> text[0] == EarlyLabel[0];
    assert 5 < gameTime <= 15 ==> text[0] == MidLabel[0];
    assert 15 < gameTime ==> text[0] == LateLabel[0];
    text
  }

  /** Minutes 0 and 5 are early, 6 and 15 mid, 16 late. */
  lemma PathBoundaries(champion: string)
    ensures StartsWith(BasicJunglePath(champion, 0), EarlyLabel)
    ensures StartsWith(BasicJunglePath(champion, 5), EarlyLabel)
    ensures StartsWith(BasicJunglePath(champion, 6), MidLabel)
    ensures StartsWith(BasicJunglePath(champion, 15), MidLabel)
    ensures StartsWith(BasicJunglePath(champion, 16), LateLabel)
  {
  }

  /** The late text is the same for every champion. */
  lemma LateTextIgnoresChampion(a: string, b: string, gameTime: int)
    requires gameTime > 15
    ensures BasicJunglePath(a, gameTime) == BasicJunglePath(b, gameTime)
  {
  }

  datatype PathContext = PathContext(champion: string, enemyJungle: Option<string>, gameTime: int, teamState: string)
  datatype PathSource = BasicAlgorithm | ClaudeAi
  datatype PathSuggestions = PathSuggestions(suggestions: string, source: PathSource, context: PathContext)

  /** `get_jungle_path_suggestions`: asks the assistant with the context's
      game time, champion and team state (the enemy jungler is not passed on),
      and falls back to the canned text exactly when the reply is absent or empty. */
  method GetJunglePathSuggestions(
    champion: string, gameTime: int, enemyJungle: Option<string>, teamState: string, reply: HttpReply)
    returns (sent: RequestBody, r: PathSuggestions)
    ensures sent == RequestBodyFor(
      [Message("user", SuggestionPrompt(gameTime, champion, 1, 0, "", teamState))], Some(SuggestionsSystemPrompt))
    ensures r.context == PathContext(champion, enemyJungle, gameTime, teamState)
    ensures r.source == BasicAlgorithm <==> ReplyText(reply).None? || ReplyText(reply).value == ""
    ensures r.source == BasicAlgorithm ==> r.suggestions == BasicJunglePath(champion, gameTime)
    ensures r.source == ClaudeAi ==> ReplyText(reply) == Some(r.suggestions)
  {
    var context := PathContext(champion, enemyJungle, gameTime, teamState);
    var state := GameState(Some(gameTime), Some(champion), None, None, None, Some(teamState));
    var suggestions;
    sent, suggestions := GetJungleSuggestions(state, reply);
    assert Join([], ", ") == "";
    if suggestions.None? || suggestions.value == "" {
      r := PathSuggestions(BasicJunglePath(champion, gameTime), BasicAlgorithm, context);
    } else {
      r := PathSuggestions(suggestions.value, ClaudeAi, context);
    }
  }

  // ---------------------------------------------------------------- live game

  datatype PlayerInfo = PlayerInfo(championId: Option<int>, spell1Id: Option<int>, spell2Id: Option<int>, teamId: Option<int>)
  datatype MarkedParticipant = MarkedParticipant(championId: Option<int>, teamId: Option<int>, isPlayer: bool)

  /** The `track_live_game` response. */
  datatype LiveGame =
    | NotInGame(summoner: Account)
    | InGame(gameId: Option<int>, gameMode: Option<string>, gameLength: Option<int>,
             participants: seq<MarkedParticipant>, player: Option<PlayerInfo>, gameTimeMinutes: int)

  function InfoOf(p: LiveParticipant): PlayerInfo {
    PlayerInfo(p.championId, p.spell1Id, p.spell2Id, p.teamId)
  }

  /** The last participant whose puuid equals the player's (a missing puuid
      on both sides also compares equal, as `None == None` does). */
  function LastMatch(ps: seq<LiveParticipant>, puuid: Option<string>): (k: Option<nat>)
    ensures k.None? <==> forall i :: 0 <= i < |ps| ==> ps[i].puuid != puuid
    ensures k.Some? ==>
      && k.value < |ps| && ps[k.value].puuid == puuid
      && forall i :: k.value < i < |ps| ==> ps[i].puuid != puuid
  {
    if |ps| == 0 then None
    else if ps[|ps| - 1].puuid == puuid then Some(|ps| - 1)
    else LastMatch(ps[..|ps| - 1], puuid)
  }

  /** The info of the last participant with the player's puuid, if any. */
  function LastPlayerInfo(ps: seq<LiveParticipant>, puuid: Option<string>): (info: Option<PlayerInfo>)
    ensures info.None? <==> forall i :: 0 <= i < |ps| ==> ps[i].puuid != puuid
    ensures info.Some? ==>
      exists k ::
        && 0 <= k < |ps| && ps[k].puuid == puuid && info.value == InfoOf(ps[k])
        && forall i :: k < i < |ps| ==> ps[i].puuid != puuid
  {
    match LastMatch(ps, puuid)
    case None => None
    case Some(k) => Some(InfoOf(ps[k]))
  }

  /** The participant loop of `track_live_game`: one marked entry per
      participant, in order, flagged exactly where the puuid matches; the
      player's info is overwritten at every match (there is no break), so it
      comes from the last match. */
  method MarkParticipants(ps: seq<LiveParticipant>, puuid: Option<string>)
    returns (marked: seq<MarkedParticipant>, player: Option<PlayerInfo>)
    ensures |marked| == |ps|
    ensures forall i :: 0 <= i < |ps| ==>
      marked[i] == MarkedParticipant(ps[i].championId, ps[i].teamId, ps[i].puuid == puuid)
    ensures player.None? <==> forall i :: 0 <= i < |ps| ==> ps[i].puuid != puuid
    ensures player == LastPlayerInfo(ps, puuid)
  {
    marked, player := [], None;
    for i := 0 to |ps|
      invariant |marked| == i
      invariant forall j :: 0 <= j < i ==>
        marked[j] == MarkedParticipant(ps[j].championId, ps[j].teamId, ps[j].puuid == puuid)
      invariant player == LastPlayerInfo(ps[..i], puuid)
    {
      assert ps[..i + 1][..i] == ps[..i];
      if ps[i].puuid == puuid {
        player := Some(InfoOf(ps[i]));
      }
      marked := marked + [MarkedParticipant(ps[i].championId, ps[i].teamId, ps[i].puuid == puuid)];
    }
    assert ps[..|ps|] == ps;
  }

  const LiveGameContext: string := "Error tracking live game"

  /** `track_live_game` after the three upstream lookups (account, summoner
      details, active game). Its own "not found" 404s are raised inside the
      try and come back as 500s. Without an active game the response says so;
      with one, it lists the marked participants, the player's info and the
      game length floored to minutes (0 when missing). */
  method TrackLiveGame(account: Option<Account>, details: Option<Summoner>, game: Option<CurrentGame>)
    returns (r: Result<LiveGame>)
    ensures account.None? ==>
      r == Err(Wrapped(500, LiveGameContext, HttpError(404, "Summoner not found")))
    ensures account.Some? && details.None? ==>
      r == Err(Wrapped(500, LiveGameContext, HttpError(404, "Summoner details not found")))
    ensures r.Err? ==> StatusOf(r.error) == 500
    ensures account.Some? && details.Some? && game.None? ==> r == Ok(NotInGame(account.value))
    ensures account.Some? && details.Some? && game.Some? ==>
      var g := game.value;
      var ps := g.participants.GetOr([]);
      var puuid := account.value.puuid;
      && r.Ok? && r.value.InGame?
      && r.value.gameId == g.gameId && r.value.gameMode == g.gameMode && r.value.gameLength == g.gameLength
      && |r.value.participants| == |ps|
      && (forall i :: 0 <= i < |ps| ==>
            r.value.participants[i] == MarkedParticipant(ps[i].championId, ps[i].teamId, ps[i].puuid == puuid))
      && r.value.player == LastPlayerInfo(ps, puuid)
      && r.value.gameTimeMinutes == FloorMinutes(g.gameLength.GetOr(0))
  {
    if account.None? {
      return Err(Wrapped(500, LiveGameContext, HttpError(404, "Summoner not found")));
    }
    var puuid := account.value.puuid;
    if details.None? {
      return Err(Wrapped(500, LiveGameContext, HttpError(404, "Summoner details not found")));
    }
    if game.None? {
      return Ok(NotInGame(account.value));
    }
    var g := game.value;
    var marked, player := MarkParticipants(g.participants.GetOr([]), puuid);
    r := Ok(InGame(g.gameId, g.gameMode, g.gameLength, marked, player, FloorMinutes(g.gameLength.GetOr(0))));
  }

  // ---------------------------------------------------------------- champion statistics

  datatype JungleStats = JungleStats(
    clearSpeed: string, gankPotential: string, scaling: string, difficulty: string,
    recommendedBuild: seq<string>, optimalRunes: string)

  const UnknownStats: JungleStats := JungleStats("Unknown", "Unknown", "Unknown", "Unknown", [], "Unknown")
  const GravesStats: JungleStats :=
    JungleStats("A+", "B", "A", "Medium", ["Warrior", "Berserker's Greaves", "The Collector"], "Fleet Footwork")
  const KindredStats: JungleStats :=
    JungleStats("B+", "A", "S", "Hard", ["Kraken Slayer", "Berserker's Greaves", "Runaan's Hurricane"], "Press the Attack")
  const KhazixStats: JungleStats :=
    JungleStats("B", "A+", "A", "Medium", ["Duskblade", "Ionian Boots", "Youmuu's Ghostblade"], "Dark Harvest")

  const JungleStatsTable: map<string, JungleStats> :=
    map["graves" := GravesStats, "kindred" := KindredStats, "kha'zix" := KhazixStats]

  /** `name.lower().replace("'", "").replace(" ", "")`: lowercase, with no
      apostrophe and no space left. */
  function ChampionKey(name: string): (key: string)
    ensures '\'' !in key && ' ' !in key
    ensures forall i :: 0 <= i < |key| ==> !IsUpper(key[i])
    ensures |key| <= |name|
  {
    var lowered := Lower(name);
    var key := RemoveAll(RemoveAll(lowered, '\''), ' ');
    forall i | 0 <= i < |key| ensures !IsUpper(key[i]) {
      assert key[i] in lowered;
    }
    key
  }

  /** Normalising a key again changes nothing. */
  lemma ChampionKeyIdempotent(name: string)
    ensures ChampionKey(ChampionKey(name)) == ChampionKey(name)
  {
    var key := ChampionKey(name);
    assert Lower(key) == key;
  }

  /** `jungle_stats.get(key, default)`: the record stored under the name's key,
      or the "Unknown" record; since no key holds an apostrophe, the result is
      never the "kha'zix" record. */
  function ChampionStats(name: string): (stats: JungleStats)
    ensures stats == UnknownStats || stats == GravesStats || stats == KindredStats
  {
    var key := ChampionKey(name);
    assert key != "kha'zix" by {
      assert "kha'zix"[3] == '\'';
    }
    if key in JungleStatsTable then JungleStatsTable[key] else UnknownStats
  }

  /** A name is looked up by its key: known keys give their record, any other
      gives the "Unknown" record with an empty build. Because the key never
      holds an apostrophe, the "kha'zix" record can never be returned. */
  lemma ChampionStatsLookup(name: string)
    ensures ChampionKey(name) == "graves" ==> ChampionStats(name) == GravesStats
    ensures ChampionKey(name) == "kindred" ==> ChampionStats(name) == KindredStats
    ensures ChampionKey(name) != "graves" && ChampionKey(name) != "kindred" ==>
      ChampionStats(name) == UnknownStats && ChampionStats(name).recommendedBuild == []
    ensures ChampionStats(name) != KhazixStats
  {
  }

  /** The key of a concatenation is the concatenation of the keys, so a key
      is formed character by character. */
  lemma ChampionKeyConcat(a: string, b: string)
    ensures ChampionKey(a + b) == ChampionKey(a) + ChampionKey(b)
  {
    LowerConcat(a, b);
    RemoveAllConcat(Lower(a), Lower(b), '\'');
    RemoveAllConcat(RemoveAll(Lower(a), '\''), RemoveAll(Lower(b), '\''), ' ');
  }

  /** The key of one character: an apostrophe or a space is dropped, any
      other character is lowercased. */
  lemma ChampionKeySingle(x: char)
    ensures ChampionKey([x]) == if x == '\'' || x == ' ' then "" else [LowerChar(x)]
  {
    var lowered := Lower([x]);
    assert lowered == [LowerChar(x)];
    RemoveAllSingle(LowerChar(x), '\'');
    if LowerChar(x) != '\'' {
      RemoveAllSingle(LowerChar(x), ' ');
    } else {
      assert RemoveAll("", ' ') == "";
    }
  }

  // The Kha'Zix lemmas take the name as a parameter fixed by their precondition,
  // so that the verifier works on the literal only where a step needs it.

  /** Lowercasing "Kha'Zix" changes only its two capitals. */
  lemma KhazixLowered(name: string)
    requires name == "Kha'Zix"
    ensures Lower(name) == "kha'zix"
  {
    var lowered := Lower(name);
    assert LowerChar('K') == 'k' && LowerChar('Z') == 'z';
    assert lowered[0] == 'k' && lowered[4] == 'z';
  }

  /** Removing the apostrophe from "kha'zix" leaves "khazix". */
  lemma KhazixApostropheRemoved(lowered: string)
    requires lowered == "kha'zix"
    ensures RemoveAll(lowered, '\'') == "khazix"
  {
    var kha, zix := "kha", "zix";
    calc {
      RemoveAll(lowered, '\'');
      { assert lowered == kha + ['\''] + zix; }
      RemoveAll(kha + ['\''] + zix, '\'');
      { RemoveOnlyOccurrence(kha, zix, '\''); }
      kha + zix;
    }
  }

  /** "Kha'Zix", written as the game writes it, normalises to "khazix". */
  lemma KhazixKey(name: string)
    requires name == "Kha'Zix"
    ensures ChampionKey(name) == "khazix"
  {
    KhazixLowered(name);
    KhazixApostropheRemoved(Lower(name));
    var apostropheFree := RemoveAll(Lower(name), '\'');
    assert ' ' !in apostropheFree;
  }

  /** Hence "Kha'Zix" gets the default record, not the "kha'zix" one. */
  lemma KhazixFallsBack(name: string)
    requires name == "Kha'Zix"
    ensures ChampionStats(name) == UnknownStats
  {
    KhazixKey(name);
    ChampionStatsLookup(name);
  }

  datatype ChampionStatsResponse = ChampionStatsResponse(
    champion: string, stats: JungleStats, region: string, metaTier: string)

  /** `get_jungle_champion_stats`: echoes the name as given, never the "kha'zix" record. */
  function GetJungleChampionStats(championName: string, region: string): (r: ChampionStatsResponse)
    ensures r.champion == championName && r.region == region && r.metaTier == "A"
    ensures r.stats == ChampionStats(championName) && r.stats != KhazixStats
  {
    ChampionStatsLookup(championName);
    ChampionStatsResponse(championName, ChampionStats(championName), region, "A")
  }
}
