/** The language-model client: it finds the player in a match, derives a
    summary of the player's game, assembles the request body for one of four
    analysis templates, and turns every failure of the call into "absent".
    The HTTP exchange is a parameter: `reply` is what the endpoint answered. */
module ClaudeService {
  import opened Common
  import opened Text
  import opened RiotData

  const Model: string := "claude-3-5-sonnet-20241022"
  const MaxTokens: int := 1000

  const PerformanceSystemPrompt: string :=
    "Eres un coach experto de League of Legends especializado en jungla. \n"
    + "        Analiza el rendimiento del jungler basándote en los datos de la partida y proporciona \n"
    + "        consejos específicos y constructivos en español."
  const SuggestionsSystemPrompt: string :=
    "Eres un asistente de jungla experto que da consejos en tiempo real. \n"
    + "        Proporciona sugerencias específicas y accionables basadas en el estado actual del juego."
  const RecommendationSystemPrompt: string :=
    "Eres un experto en meta de League of Legends y selección de campeones. \n"
    + "        Recomienda campeones de jungla basándote en las preferencias del usuario y la composición enemiga."
  const PathingSystemPrompt: string :=
    "Eres un coach experto en pathing de jungla. Analiza la eficiencia \n"
    + "        del recorrido de jungla y proporciona consejos específicos para optimizar el claro."

  /** The per-match figures the performance template formats. */
  datatype MatchSummary = MatchSummary(
    champion: Option<string>, position: Option<string>, gameResult: string, kda: string,
    cs: int, jungleCS: int, visionScore: int, gameDuration: int,
    dragons: int, barons: int, objectives: int)

  /** The fields each user-message template formats; the fixed wording around them is not modelled.
      The performance template formats nine of the summary's eleven entries: not the position
      and not the stolen objectives. */
  datatype Prompt =
    | PerformancePrompt(
        championName: Option<string>, gameResult: string, kda: string, cs: int, jungleCS: int,
        visionScore: int, durationMinutes: int, dragons: int, barons: int)
    | SuggestionPrompt(gameTime: int, champion: string, level: int, gold: int, objectives: string, teamState: string)
    | RecommendationPrompt(playstyle: string, favoriteChampions: string, rank: string, goal: string, enemyInfo: string)
    | PathingPrompt(championName: Option<string>, jungleCS: int, durationMinutes: int, champLevel: int)

  datatype Message = Message(role: string, content: Prompt)

  /** The JSON body posted to the messages endpoint. */
  datatype RequestBody = RequestBody(model: string, maxTokens: int, messages: seq<Message>, system: Option<string>)

  datatype ContentBlock = ContentBlock(text: Option<string>)
  datatype ReplyJson = ReplyJson(content: Option<seq<ContentBlock>>)

  /** What the POST produced: a transport failure (timeout, connection error),
      or a status code with a body that did or did not parse as JSON. */
  datatype HttpReply = TransportFailure | Response(status: int, json: Option<ReplyJson>)

  /** The real-time game state handed to the suggestions template. */
  datatype GameState = GameState(
    gameTime: Option<int>, champion: Option<string>, level: Option<int>, gold: Option<int>,
    availableObjectives: Option<seq<string>>, teamState: Option<string>)

  /** The user preferences handed to the recommendation template. */
  datatype UserPreferences = UserPreferences(
    playstyle: Option<string>, favoriteChampions: Option<string>, rank: Option<string>, goal: Option<string>)

  // ---------------------------------------------------------------- request

  /** The request body of `_make_request`: fixed model and token limit, the
      given messages, and a "system" entry, holding the system prompt, exactly
      when that prompt is truthy (present and non-empty). */
  function RequestBodyFor(messages: seq<Message>, systemPrompt: Option<string>): (body: RequestBody)
    ensures body.model == "claude-3-5-sonnet-20241022" && body.maxTokens == 1000
    ensures body.messages == messages
    ensures body.system.Some? <==> systemPrompt.Some? && systemPrompt.value != ""
    ensures body.system.Some? ==> body.system == systemPrompt
  {
    RequestBody(Model, MaxTokens, messages,
      if systemPrompt.Some? && systemPrompt.value != "" then systemPrompt else None)
  }

  /** The dictionary `_make_request` builds, "system" added only for a truthy prompt. */
  method BuildRequestBody(messages: seq<Message>, systemPrompt: Option<string>) returns (body: RequestBody)
    ensures body == RequestBodyFor(messages, systemPrompt)
    ensures body.model == "claude-3-5-sonnet-20241022" && body.maxTokens == 1000
    ensures body.messages == messages
    ensures body.system.Some? <==> systemPrompt.Some? && systemPrompt.value != ""
    ensures body.system.Some? ==> body.system == systemPrompt
  {
    body := RequestBody(Model, MaxTokens, messages, None);
    if systemPrompt.Some? && systemPrompt.value != "" {
      body := body.(system := systemPrompt);
    }
  }

  /** `result["content"][0]["text"]` inside a try whose every exception
      (a non-2xx status, a transport failure, a body that is not JSON, a
      missing key or index) yields None: the text is present exactly when
      every step succeeds. */
  function ReplyText(reply: HttpReply): (text: Option<string>)
    ensures text.Some? <==>
      && reply.Response? && 200 <= reply.status < 300
      && reply.json.Some? && reply.json.value.content.Some?
      && |reply.json.value.content.value| > 0 && reply.json.value.content.value[0].text.Some?
    ensures text.Some? ==> text == reply.json.value.content.value[0].text
    ensures reply.TransportFailure? || !(200 <= reply.status < 300) ==> text.None?
  {
    match reply
    case TransportFailure => None
    case Response(status, json) =>
      if !(200 <= status < 300) then None
      else if json.None? || json.value.content.None? then None
      else
        var content := json.value.content.value;
        if |content| == 0 then None else content[0].text
  }

  /** `_make_request`: posts the body and never raises. */
  method MakeRequest(messages: seq<Message>, systemPrompt: Option<string>, reply: HttpReply)
    returns (sent: RequestBody, text: Option<string>)
    ensures sent == RequestBodyFor(messages, systemPrompt)
    ensures text == ReplyText(reply)
  {
    sent := BuildRequestBody(messages, systemPrompt);
    text := ReplyText(reply);
  }

  // ---------------------------------------------------------------- match summary

  /** The outcome label: "Victoria" exactly when `win` is true, "Derrota" otherwise
      (a missing `win` counts as a defeat). */
  function GameResult(win: Option<bool>): (outcome: string)
    ensures outcome == "Victoria" <==> win == Some(true)
    ensures outcome != "Victoria" ==> outcome == "Derrota"
  {
    if win == Some(true) then "Victoria" else "Derrota"
  }

  /** `f"{kills}/{deaths}/{assists}"` with each missing count rendered as 0:
      split on "/", it falls apart into exactly the three printed counts. */
  function Kda(kills: Option<int>, deaths: Option<int>, assists: Option<int>): (s: string)
    ensures Split(s, '/') == [IntToString(kills.GetOr(0)), IntToString(deaths.GetOr(0)), IntToString(assists.GetOr(0))]
  {
    var k, d, a := IntToString(kills.GetOr(0)), IntToString(deaths.GetOr(0)), IntToString(assists.GetOr(0));
    NoSlashInNumber(kills.GetOr(0));
    NoSlashInNumber(deaths.GetOr(0));
    NoSlashInNumber(assists.GetOr(0));
    assert [k, d, a][1..] == [d, a] && [d, a][1..] == [a];
    assert Join([d, a], "/") == d + "/" + a;
    assert Join([k, d, a], "/") == k + "/" + d + "/" + a by {
      assert Join([k, d, a], "/") == k + "/" + Join([d, a], "/");
    }
    JoinThenSplit([k, d, a], '/');
    k + "/" + d + "/" + a
  }

  lemma NoSlashInNumber(i: int)
    ensures '/' !in IntToString(i)
  {
    var s := IntToString(i);
    forall k | 0 <= k < |s| ensures s[k] != '/' { }
  }

  /** The kda string splits on "/" into exactly three numerals that read back
      as the kills, deaths and assists (0 where missing). */
  lemma KdaRoundTrip(kills: Option<int>, deaths: Option<int>, assists: Option<int>)
    ensures var parts := Split(Kda(kills, deaths, assists), '/');
      && |parts| == 3
      && IsNumeral(parts[0]) && ParseInt(parts[0]) == kills.GetOr(0)
      && IsNumeral(parts[1]) && ParseInt(parts[1]) == deaths.GetOr(0)
      && IsNumeral(parts[2]) && ParseInt(parts[2]) == assists.GetOr(0)
  {
    IntToStringRoundTrip(kills.GetOr(0));
    IntToStringRoundTrip(deaths.GetOr(0));
    IntToStringRoundTrip(assists.GetOr(0));
  }

  /** `match_summary` for the player `p` of a match whose info is `info`. */
  function Summarize(p: MatchParticipant, info: Option<MatchInfo>): (s: MatchSummary)
    ensures s.champion == p.championName && s.position == p.teamPosition
    ensures s.gameResult == GameResult(p.win)
    ensures s.kda == Kda(p.kills, p.deaths, p.assists)
    ensures s.cs == p.totalMinionsKilled.GetOr(0) && s.jungleCS == p.neutralMinionsKilled.GetOr(0)
    ensures s.visionScore == p.visionScore.GetOr(0)
    ensures s.dragons == p.dragonKills.GetOr(0) && s.barons == p.baronKills.GetOr(0)
    ensures s.objectives == p.objectivesStolen.GetOr(0)
    ensures s.gameDuration * 60 <= GameDurationSeconds(info) < s.gameDuration * 60 + 60
  {
    MatchSummary(
      p.championName, p.teamPosition, GameResult(p.win), Kda(p.kills, p.deaths, p.assists),
      p.totalMinionsKilled.GetOr(0), p.neutralMinionsKilled.GetOr(0), p.visionScore.GetOr(0),
      FloorMinutes(GameDurationSeconds(info)),
      p.dragonKills.GetOr(0), p.baronKills.GetOr(0), p.objectivesStolen.GetOr(0))
  }

  /** The performance template's fields: the summary's champion, result, KDA,
      minion and jungle CS, vision score, duration in minutes, dragons and barons. */
  function PerformanceFields(s: MatchSummary): (p: Prompt)
    ensures p.PerformancePrompt?
    ensures p.championName == s.champion && p.gameResult == s.gameResult && p.kda == s.kda
    ensures p.cs == s.cs && p.jungleCS == s.jungleCS && p.visionScore == s.visionScore
    ensures p.durationMinutes == s.gameDuration && p.dragons == s.dragons && p.barons == s.barons
  {
    PerformancePrompt(s.champion, s.gameResult, s.kda, s.cs, s.jungleCS, s.visionScore,
      s.gameDuration, s.dragons, s.barons)
  }

  /** The performance prompt does not depend on the player's position or on
      the objectives they stole, though the summary records both. */
  lemma PerformanceFieldsIgnorePositionAndStolen(
    p: MatchParticipant, info: Option<MatchInfo>, position: Option<string>, stolen: Option<int>)
    ensures PerformanceFields(Summarize(p.(teamPosition := position, objectivesStolen := stolen), info))
         == PerformanceFields(Summarize(p, info))
  {
  }

  /** `match_data.get("info", {}).get("gameDuration", 0)`. */
  function GameDurationSeconds(info: Option<MatchInfo>): (seconds: int)
    ensures info.None? || info.value.gameDuration.None? ==> seconds == 0
    ensures info.Some? && info.value.gameDuration.Some? ==> seconds == info.value.gameDuration.value
  {
    if info.None? then 0 else info.value.gameDuration.GetOr(0)
  }

  // ---------------------------------------------------------------- participant lookup

  /** The first participant whose puuid equals the user's, if any. */
  function FirstParticipant(ps: seq<MatchParticipant>, puuid: string): (k: Option<nat>)
    ensures k.None? <==> forall i :: 0 <= i < |ps| ==> ps[i].puuid != Some(puuid)
    ensures k.Some? ==>
      && k.value < |ps| && ps[k.value].puuid == Some(puuid)
      && forall i :: 0 <= i < k.value ==> ps[i].puuid != Some(puuid)
  {
    if |ps| == 0 then None
    else if ps[0].puuid == Some(puuid) then Some(0)
    else match FirstParticipant(ps[1..], puuid)
      case None => None
      case Some(k) => Some(k + 1)
  }

  /** The `for participant in ...: if ...: player_data = participant; break` search. */
  method FindPlayer(ps: seq<MatchParticipant>, puuid: string) returns (player: Option<MatchParticipant>)
    ensures player.None? <==> forall i :: 0 <= i < |ps| ==> ps[i].puuid != Some(puuid)
    ensures player.Some? ==> player.value == ps[FirstParticipant(ps, puuid).value]
  {
    player := None;
    var i := 0;
    while i < |ps|
      invariant 0 <= i <= |ps|
      invariant forall j :: 0 <= j < i ==> ps[j].puuid != Some(puuid)
      invariant player.None?
    {
      if ps[i].puuid == Some(puuid) {
        player := Some(ps[i]);
        break;
      }
      i := i + 1;
    }
  }

  // ---------------------------------------------------------------- the four operations

  /** `analyze_jungle_performance`: no request at all when the user is not
      among the participants; otherwise one request carrying the performance
      fields of the first matching participant's summary, and the reply's text or None. */
  method AnalyzeJunglePerformance(matchData: MatchData, userPuuid: string, reply: HttpReply)
    returns (sent: Option<RequestBody>, analysis: Option<string>)
    ensures var ps := MatchParticipants(matchData);
      var k := FirstParticipant(ps, userPuuid);
      && (k.None? ==> sent.None? && analysis.None?)
      && (k.Some? ==>
        && sent == Some(RequestBodyFor(
             [Message("user", PerformanceFields(Summarize(ps[k.value], matchData.info)))],
             Some(PerformanceSystemPrompt)))
        && analysis == ReplyText(reply))
  {
    var player := FindPlayer(MatchParticipants(matchData), userPuuid);
    if player.None? {
      return None, None;
    }
    var summary := Summarize(player.value, matchData.info);
    var body;
    body, analysis := MakeRequest([Message("user", PerformanceFields(summary))], Some(PerformanceSystemPrompt), reply);
    sent := Some(body);
  }

  /** The suggestions template's fields, with the template's defaults for
      missing entries: time 0, "Desconocido", level 1, gold 0, no objectives
      (an empty list) and "Neutro"; the objectives are joined with ", ". */
  function SuggestionFields(state: GameState): (p: Prompt)
    ensures p.SuggestionPrompt?
    ensures state.gameTime.None? ==> p.gameTime == 0
    ensures state.gameTime.Some? ==> p.gameTime == state.gameTime.value
    ensures state.champion.None? ==> p.champion == "Desconocido"
    ensures state.champion.Some? ==> p.champion == state.champion.value
    ensures state.level.None? ==> p.level == 1
    ensures state.level.Some? ==> p.level == state.level.value
    ensures state.gold.None? ==> p.gold == 0
    ensures state.gold.Some? ==> p.gold == state.gold.value
    ensures state.availableObjectives.None? ==> p.objectives == ""
    ensures state.availableObjectives.Some? ==> p.objectives == Join(state.availableObjectives.value, ", ")
    ensures state.teamState.None? ==> p.teamState == "Neutro"
    ensures state.teamState.Some? ==> p.teamState == state.teamState.value
  {
    SuggestionPrompt(
      state.gameTime.GetOr(0), state.champion.GetOr("Desconocido"), state.level.GetOr(1),
      state.gold.GetOr(0), Join(state.availableObjectives.GetOr([]), ", "), state.teamState.GetOr("Neutro"))
  }

  /** `get_jungle_suggestions`: always one request; the reply's text or None. */
  method GetJungleSuggestions(state: GameState, reply: HttpReply)
    returns (sent: RequestBody, suggestions: Option<string>)
    ensures sent == RequestBodyFor([Message("user", SuggestionFields(state))], Some(SuggestionsSystemPrompt))
    ensures sent.system.Some?
    ensures suggestions == ReplyText(reply)
  {
    sent, suggestions := MakeRequest([Message("user", SuggestionFields(state))], Some(SuggestionsSystemPrompt), reply);
  }

  const EnemyTeamLabel: string := "\nEquipo enemigo: "

  /** `enemy_info`: empty without an enemy team, otherwise the label and the
      names joined with ", ". */
  function EnemyInfo(enemyTeam: Option<seq<string>>): (info: string)
    ensures info == "" <==> enemyTeam.None? || |enemyTeam.value| == 0
    ensures info != "" ==> info == EnemyTeamLabel + Join(enemyTeam.value, ", ")
  {
    if enemyTeam.None? || |enemyTeam.value| == 0 then "" else EnemyTeamLabel + Join(enemyTeam.value, ", ")
  }

  /** The names after the first joined with ", " equal all of them, each
      but the first prefixed with a space, joined with ",". */
  lemma {:induction false} JoinCommaSpace(names: seq<string>)
    requires |names| >= 1
    ensures Join(names, ", ") == Join([names[0]] + SpacePrefixed(names[1..]), ",")
  {
    if |names| > 1 {
      JoinCommaSpace(names[1..]);
      var tail := SpacePrefixed(names[2..]);
      assert SpacePrefixed(names[1..]) == [" " + names[1]] + tail;
      assert ([names[0]] + SpacePrefixed(names[1..]))[1..] == [" " + names[1]] + tail;
      assert ([names[1]] + tail)[1..] == tail;
      assert ([" " + names[1]] + tail)[1..] == tail;
      if |names| == 2 {
        assert tail == [];
      }
    }
  }

  function SpacePrefixed(names: seq<string>): (r: seq<string>)
    ensures |r| == |names| && forall i :: 0 <= i < |r| ==> r[i] == " " + names[i]
  {
    seq(|names|, i requires 0 <= i < |names| => " " + names[i])
  }

  /** Comma-free names joined with ", " split on "," into the names, each but
      the first with one leading space. */
  lemma SplitCommaSpaceJoin(names: seq<string>)
    requires |names| >= 1
    requires forall i :: 0 <= i < |names| ==> ',' !in names[i]
    ensures Split(Join(names, ", "), ',') == [names[0]] + SpacePrefixed(names[1..])
  {
    var parts := [names[0]] + SpacePrefixed(names[1..]);
    JoinCommaSpace(names);
    forall i | 0 <= i < |parts| ensures ',' !in parts[i] {
      if i > 0 {
        assert parts[i] == " " + names[i];
      }
    }
    JoinThenSplit(parts, ',');
  }

  /** The enemy roster is recoverable from `enemy_info`: cutting the label and
      reading the rest as a comma-separated, stripped list gives back the names,
      provided no name holds a comma or outer whitespace. */
  lemma EnemyInfoListsNames(names: seq<string>)
    requires |names| >= 1
    requires forall i :: 0 <= i < |names| ==> ',' !in names[i] && Unpadded(names[i])
    ensures var listed := Split(EnemyInfo(Some(names))[|EnemyTeamLabel|..], ',');
      |listed| == |names| && forall i :: 0 <= i < |names| ==> Strip(listed[i]) == names[i]
  {
    var joined := Join(names, ", ");
    assert EnemyInfo(Some(names)) == EnemyTeamLabel + joined;
    assert EnemyInfo(Some(names))[|EnemyTeamLabel|..] == joined;
    SplitCommaSpaceJoin(names);
    var listed := Split(joined, ',');
    forall i | 0 <= i < |names| ensures Strip(listed[i]) == names[i] {
      if i == 0 {
        StripKeepsUnpadded(names[0]);
      } else {
        assert listed[i] == " " + names[i];
        StripSpacePrefixed(names[i]);
      }
    }
  }

  /** The recommendation template's fields, with the template's defaults:
      "Balanceado", "Ninguno especificado", "No especificado" and
      "Mejorar en general", and the enemy line only when there are enemies. */
  function RecommendationFields(prefs: UserPreferences, enemyTeam: Option<seq<string>>): (p: Prompt)
    ensures p.RecommendationPrompt?
    ensures prefs.playstyle.None? ==> p.playstyle == "Balanceado"
    ensures prefs.playstyle.Some? ==> p.playstyle == prefs.playstyle.value
    ensures prefs.favoriteChampions.None? ==> p.favoriteChampions == "Ninguno especificado"
    ensures prefs.favoriteChampions.Some? ==> p.favoriteChampions == prefs.favoriteChampions.value
    ensures prefs.rank.None? ==> p.rank == "No especificado"
    ensures prefs.rank.Some? ==> p.rank == prefs.rank.value
    ensures prefs.goal.None? ==> p.goal == "Mejorar en general"
    ensures prefs.goal.Some? ==> p.goal == prefs.goal.value
    ensures p.enemyInfo == "" <==> enemyTeam.None? || |enemyTeam.value| == 0
    ensures p.enemyInfo == EnemyInfo(enemyTeam)
  {
    RecommendationPrompt(
      prefs.playstyle.GetOr("Balanceado"), prefs.favoriteChampions.GetOr("Ninguno especificado"),
      prefs.rank.GetOr("No especificado"), prefs.goal.GetOr("Mejorar en general"), EnemyInfo(enemyTeam))
  }

  /** `recommend_jungle_champions`: always one request; the reply's text or None. */
  method RecommendJungleChampions(prefs: UserPreferences, enemyTeam: Option<seq<string>>, reply: HttpReply)
    returns (sent: RequestBody, recommendation: Option<string>)
    ensures sent == RequestBodyFor([Message("user", RecommendationFields(prefs, enemyTeam))], Some(RecommendationSystemPrompt))
    ensures recommendation == ReplyText(reply)
  {
    sent, recommendation := MakeRequest(
      [Message("user", RecommendationFields(prefs, enemyTeam))], Some(RecommendationSystemPrompt), reply);
  }

  /** `analyze_jungle_pathing`: None without a request when the user is not
      among the participants; a ZeroDivisionError, which escapes, when the
      match reports a zero duration (the creep-per-minute quotient divides by
      it); otherwise one request and the reply's text or None. */
  method AnalyzeJunglePathing(matchData: MatchData, userPuuid: string, reply: HttpReply)
    returns (r: Result<Option<string>>, sent: Option<RequestBody>)
    ensures var ps := MatchParticipants(matchData);
      var k := FirstParticipant(ps, userPuuid);
      && (k.None? ==> r == Ok(None) && sent.None?)
      && (k.Some? && matchData.info.Some? && matchData.info.value.gameDuration == Some(0) ==>
            r == Err(ZeroDivisionError) && sent.None?)
      && (k.Some? && !(matchData.info.Some? && matchData.info.value.gameDuration == Some(0)) ==>
            var p := ps[k.value];
            && sent == Some(RequestBodyFor(
                 [Message("user", PathingPrompt(p.championName, p.neutralMinionsKilled.GetOr(0),
                   FloorMinutes(GameDurationSeconds(matchData.info)), p.champLevel.GetOr(0)))],
                 Some(PathingSystemPrompt)))
            && r == Ok(ReplyText(reply)))
  {
    var player := FindPlayer(MatchParticipants(matchData), userPuuid);
    if player.None? {
      return Ok(None), None;
    }
    var p := player.value;
    // cs_per_min divides by gameDuration / 60, with 1 for a missing duration
    var durationForRate := if matchData.info.None? then 1 else matchData.info.value.gameDuration.GetOr(1);
    if durationForRate == 0 {
      return Err(ZeroDivisionError), None;
    }
    var prompt := PathingPrompt(p.championName, p.neutralMinionsKilled.GetOr(0),
      FloorMinutes(GameDurationSeconds(matchData.info)), p.champLevel.GetOr(0));
    var body, text := MakeRequest([Message("user", prompt)], Some(PathingSystemPrompt), reply);
    r, sent := Ok(text), Some(body);
  }
}
