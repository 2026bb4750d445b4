/** The game-statistics routes: post-processing of the merged summoner record
    (solo-queue rank, win rate, recent-match truncation) and the rule that an
    empty upstream result becomes a 404. */
module RiotApi {
  import opened Common
  import opened RiotData

  /** Win rate in percent before rounding: wins / max(wins + losses, 1) * 100.
      The guarded denominator makes zero games give 0 instead of a division by zero. */
  function WinRate(wins: int, losses: int): (rate: real)
    ensures wins + losses >= 1 ==> rate * (wins + losses) as real == 100.0 * wins as real
    ensures wins + losses < 1 ==> rate == 100.0 * wins as real
    ensures wins == 0 ==> rate == 0.0
    ensures 0 <= wins && 0 <= losses ==> 0.0 <= rate <= 100.0
  {
    var games := if wins + losses > 1 then wins + losses else 1;
    var share := wins as real / games as real;
    assert share * games as real == wins as real;
    share * 100.0
  }

  /** The `rank` object of the complete-summoner response. */
  datatype RankInfo = RankInfo(
    tier: Option<string>, rank: Option<string>, leaguePoints: int, wins: int, losses: int, winRate: real)

  /** The rank object of one queue entry: its tier and division, and its
      league points, wins and losses with 0 for a missing count, with the win
      rate of those counts. */
  function ToRankInfo(e: RankEntry): (info: RankInfo)
    ensures info.tier == e.tier && info.rank == e.rank
    ensures info.leaguePoints == e.leaguePoints.GetOr(0)
    ensures info.wins == e.wins.GetOr(0) && info.losses == e.losses.GetOr(0)
    ensures info.winRate == WinRate(info.wins, info.losses)
  {
    var wins := e.wins.GetOr(0);
    var losses := e.losses.GetOr(0);
    RankInfo(e.tier, e.rank, e.leaguePoints.GetOr(0), wins, losses, WinRate(wins, losses))
  }

  /** The rank object built from the first solo-queue entry, if there is one. */
  function SoloRankInfo(rank: Option<seq<RankEntry>>): (info: Option<RankInfo>)
    ensures info.None? <==> rank.None? || forall i :: 0 <= i < |rank.value| ==> !IsSoloQueue(rank.value[i])
    ensures info.Some? ==> info == Some(ToRankInfo(rank.value[FirstSoloQueue(rank.value).value]))
  {
    if rank.None? then None
    else match FirstSoloQueue(rank.value)
      case None => None
      case Some(k) => Some(ToRankInfo(rank.value[k]))
  }

  /** The rank search of the complete-summoner route: None when the rank list
      is missing, empty or has no solo-queue entry; otherwise the first
      solo-queue entry's tier and division, its league points, wins and losses
      with 0 for a missing count, and the win rate of those counts. */
  method SelectRankInfo(rank: Option<seq<RankEntry>>) returns (info: Option<RankInfo>)
    ensures info == SoloRankInfo(rank)
    ensures info.None? <==> rank.None? || forall i :: 0 <= i < |rank.value| ==> !IsSoloQueue(rank.value[i])
    ensures info.Some? ==>
      var e := rank.value[FirstSoloQueue(rank.value).value];
      && info.value.tier == e.tier && info.value.rank == e.rank
      && info.value.leaguePoints == e.leaguePoints.GetOr(0)
      && info.value.wins == e.wins.GetOr(0) && info.value.losses == e.losses.GetOr(0)
      && info.value.winRate == WinRate(info.value.wins, info.value.losses)
  {
    info := None;
    if rank.Some? && |rank.value| > 0 {
      var entries := rank.value;
      var i := 0;
      while i < |entries|
        invariant 0 <= i <= |entries|
        invariant forall j :: 0 <= j < i ==> !IsSoloQueue(entries[j])
        invariant info.None?
      {
        if IsSoloQueue(entries[i]) {
          info := Some(ToRankInfo(entries[i]));
          break;
        }
        i := i + 1;
      }
    }
  }

  /** The merged record the route reads: account, summoner, rank entries and recent match ids. */
  datatype CompleteData = CompleteData(
    account: Option<Account>, summoner: Option<Summoner>,
    rank: Option<seq<RankEntry>>, recentMatches: Option<seq<string>>)

  /** The complete-summoner response body. */
  datatype CompleteSummoner = CompleteSummoner(
    riotId: string, tagLine: string, puuid: string,
    summonerLevel: Option<int>, profileIconId: Option<int>, rank: Option<RankInfo>,
    recentMatchesCount: nat, recentMatchIds: seq<string>)

  const CompleteInfoContext: string := "Error getting complete summoner info"
  const MatchIdLimit: nat := 10

  /** The subscripts the response needs succeed: an account with a puuid, and,
      when a summoner is present, its level and icon. */
  predicate HasRequiredKeys(d: CompleteData) {
    && d.account.Some? && d.account.value.puuid.Some?
    && (d.summoner.Some? ==> d.summoner.value.summonerLevel.Some? && d.summoner.value.profileIconId.Some?)
  }

  /** `get_complete_summoner_info` after the upstream call. Every failure,
      the route's own "not found" 404 included, is raised inside the try and
      re-raised as a 500. On success: the puuid of the account, level and icon
      absent exactly when the summoner is, the solo-queue rank, the full count
      of recent matches and the first min(10, n) ids in order. */
  method GetCompleteSummonerInfo(riotId: string, tagLine: string, data: Option<CompleteData>)
    returns (r: Result<CompleteSummoner>)
    ensures data.None? ==>
      r == Err(Wrapped(500, CompleteInfoContext, HttpError(404, "Summoner not found or incomplete data")))
    ensures r.Err? ==> StatusOf(r.error) == 500
    ensures r.Ok? <==> data.Some? && HasRequiredKeys(data.value)
    ensures r.Ok? ==>
      var d := data.value;
      var out := r.value;
      var matches := d.recentMatches.GetOr([]);
      && out.riotId == riotId && out.tagLine == tagLine && out.puuid == d.account.value.puuid.value
      && (out.summonerLevel.None? <==> d.summoner.None?)
      && (out.profileIconId.None? <==> d.summoner.None?)
      && (d.summoner.Some? ==>
            out.summonerLevel == d.summoner.value.summonerLevel && out.profileIconId == d.summoner.value.profileIconId)
      && out.rank == SoloRankInfo(d.rank)
      && out.recentMatchesCount == |matches|
      && |out.recentMatchIds| == (if |matches| < MatchIdLimit then |matches| else MatchIdLimit)
      && out.recentMatchIds == matches[..|out.recentMatchIds|]
  {
    if data.None? {
      var notFound := HttpError(404, "Summoner not found or incomplete data");
      return Err(Wrapped(500, CompleteInfoContext, notFound));
    }
    var d := data.value;
    var rankInfo := SelectRankInfo(d.rank);
    if d.account.None? {
      return Err(Wrapped(500, CompleteInfoContext, KeyError("account")));
    }
    if d.account.value.puuid.None? {
      return Err(Wrapped(500, CompleteInfoContext, KeyError("puuid")));
    }
    var level, icon := None, None;
    if d.summoner.Some? {
      if d.summoner.value.summonerLevel.None? {
        return Err(Wrapped(500, CompleteInfoContext, KeyError("summonerLevel")));
      }
      if d.summoner.value.profileIconId.None? {
        return Err(Wrapped(500, CompleteInfoContext, KeyError("profileIconId")));
      }
      level, icon := d.summoner.value.summonerLevel, d.summoner.value.profileIconId;
    }
    var matches := d.recentMatches.GetOr([]);
    var shown := if |matches| < MatchIdLimit then matches else matches[..MatchIdLimit];
    r := Ok(CompleteSummoner(riotId, tagLine, d.account.value.puuid.value, level, icon, rankInfo, |matches|, shown));
  }

  /** A route without a try: a missing upstream object is a 404, anything else passes through. */
  function NotFoundUnlessPresent<T>(found: Option<T>, detail: string): (r: Result<T>)
    ensures r.Ok? <==> found.Some?
    ensures r.Ok? ==> r.value == found.value
    ensures r.Err? ==> r.error == HttpError(404, detail)
  {
    if found.None? then Err(HttpError(404, detail)) else Ok(found.value)
  }

  /** The same for a list, where an empty list is as falsy as a missing one. */
  function NotFoundUnlessNonEmpty<T>(found: Option<seq<T>>, detail: string): (r: Result<seq<T>>)
    ensures r.Ok? <==> found.Some? && |found.value| > 0
    ensures r.Ok? ==> r.value == found.value
    ensures r.Err? ==> r.error == HttpError(404, detail)
  {
    if found.None? || |found.value| == 0 then Err(HttpError(404, detail)) else Ok(found.value)
  }

  /** `get_summoner`: the account, or 404 when the lookup found nothing. */
  function GetSummoner(account: Option<Account>): (r: Result<Account>)
    ensures r.Err? <==> account.None?
    ensures r.Err? ==> StatusOf(r.error) == 404
    ensures r.Ok? ==> r.value == account.value
  {
    NotFoundUnlessPresent(account, "Summoner not found")
  }

  /** `get_summoner_by_puuid`: the summoner, or 404 when the lookup found nothing. */
  function GetSummonerByPuuid(summoner: Option<Summoner>): (r: Result<Summoner>)
    ensures r.Err? <==> summoner.None?
    ensures r.Err? ==> StatusOf(r.error) == 404
    ensures r.Ok? ==> r.value == summoner.value
  {
    NotFoundUnlessPresent(summoner, "Summoner not found")
  }

  /** `get_rank_info`: the entries, or 404 when there are none (unranked players included). */
  function GetRankInfo(entries: Option<seq<RankEntry>>): (r: Result<seq<RankEntry>>)
    ensures r.Err? <==> entries.None? || |entries.value| == 0
    ensures r.Err? ==> StatusOf(r.error) == 404
    ensures r.Ok? ==> r.value == entries.value
  {
    NotFoundUnlessNonEmpty(entries, "Rank information not found")
  }

  /** `get_recent_matches`: the ids, or 404 when there are none. */
  function GetRecentMatches(ids: Option<seq<string>>): (r: Result<seq<string>>)
    ensures r.Err? <==> ids.None? || |ids.value| == 0
    ensures r.Err? ==> StatusOf(r.error) == 404
    ensures r.Ok? ==> r.value == ids.value
  {
    NotFoundUnlessNonEmpty(ids, "No matches found")
  }

  /** `get_match_details`: the match, or 404 when the lookup found nothing. */
  function GetMatchDetails(matchData: Option<MatchData>): (r: Result<MatchData>)
    ensures r.Err? <==> matchData.None?
    ensures r.Err? ==> StatusOf(r.error) == 404
    ensures r.Ok? ==> r.value == matchData.value
  {
    NotFoundUnlessPresent(matchData, "Match not found")
  }
}
