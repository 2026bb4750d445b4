/** The shapes of the game-statistics provider's replies, as the handlers
    read them: every field may be missing, so each is an `Option`. An empty
    JSON object, which Python treats as false, is represented by `None` one
    level up. */
module RiotData {
  import opened Common

  /** Account-by-riot-id reply. */
  datatype Account = Account(puuid: Option<string>, gameName: Option<string>, tagLine: Option<string>)

  /** Summoner-by-puuid reply. */
  datatype Summoner = Summoner(
    id: Option<string>, puuid: Option<string>, summonerLevel: Option<int>, profileIconId: Option<int>)

  /** One entry of the rank-entries reply, one per competitive queue. */
  datatype RankEntry = RankEntry(
    queueType: Option<string>, tier: Option<string>, rank: Option<string>,
    leaguePoints: Option<int>, wins: Option<int>, losses: Option<int>)

  const SoloQueue: string := "RANKED_SOLO_5x5"

  predicate IsSoloQueue(e: RankEntry) {
    e.queueType == Some(SoloQueue)
  }

  /** Where a `for queue in entries: if queue.get("queueType") == "RANKED_SOLO_5x5": ...; break`
      loop stops: the first solo-queue entry, or None when there is none. */
  function FirstSoloQueue(entries: seq<RankEntry>): (k: Option<nat>)
    ensures k.None? <==> forall i :: 0 <= i < |entries| ==> !IsSoloQueue(entries[i])
    ensures k.Some? ==>
      && k.value < |entries| && IsSoloQueue(entries[k.value])
      && forall i :: 0 <= i < k.value ==> !IsSoloQueue(entries[i])
  {
    if |entries| == 0 then None
    else if IsSoloQueue(entries[0]) then Some(0)
    else match FirstSoloQueue(entries[1..])
      case None => None
      case Some(k) => Some(k + 1)
  }

  /** One participant of the active-game (spectator) reply. */
  datatype LiveParticipant = LiveParticipant(
    puuid: Option<string>, championId: Option<int>, spell1Id: Option<int>, spell2Id: Option<int>,
    teamId: Option<int>)

  /** Active-game reply; `gameLength` is in seconds. */
  datatype CurrentGame = CurrentGame(
    gameId: Option<int>, gameMode: Option<string>, gameLength: Option<int>,
    participants: Option<seq<LiveParticipant>>)

  /** One entry of a match's `info.participants`. */
  datatype MatchParticipant = MatchParticipant(
    puuid: Option<string>, championName: Option<string>, teamPosition: Option<string>,
    win: Option<bool>, kills: Option<int>, deaths: Option<int>, assists: Option<int>,
    totalMinionsKilled: Option<int>, neutralMinionsKilled: Option<int>, visionScore: Option<int>,
    dragonKills: Option<int>, baronKills: Option<int>, objectivesStolen: Option<int>,
    champLevel: Option<int>)

  /** A match's `info` object; `gameDuration` is in seconds. */
  datatype MatchInfo = MatchInfo(participants: Option<seq<MatchParticipant>>, gameDuration: Option<int>)

  /** Match-details reply. */
  datatype MatchData = MatchData(info: Option<MatchInfo>)

  /** `match_data.get("info", {}).get("participants", [])`: the participant
      list, or no participants when either level is missing. */
  function MatchParticipants(m: MatchData): (ps: seq<MatchParticipant>)
    ensures m.info.None? || m.info.value.participants.None? ==> ps == []
    ensures m.info.Some? && m.info.value.participants.Some? ==> ps == m.info.value.participants.value
  {
    match m.info
    case None => []
    case Some(info) => info.participants.GetOr([])
  }
}
