/** The one-off set-up script that creates or refreshes the row of the
    "Not Alet" player in the users table. The three provider replies and the
    recent-match list are inputs; the table is a sequence of rows that the
    script updates in place or extends, and the session's end (rolled back,
    committed, closed) is returned. */
module SetupUser {
  import opened Common
  import opened RiotData

  const TargetRiotId: string := "Not Alet"
  const TargetRegion: string := "las"
  const PreferredChampions: string :=
    "[\"Graves\", \"Kindred\", " + "\"Kha'Zix\", \"Nidalee\", " + "\"Hecarim\", \"Viego\"]"

  /** A row of the users table; `id` and the time stamps are not modelled. */
  datatype UserRow = UserRow(
    riotId: string, summonerName: string, tagLine: string, region: string,
    rankTier: Option<string>, rankDivision: Option<string>, leaguePoints: int,
    preferredJungleChampions: Option<string>, isActive: bool)

  /** The column `riot_id` is declared unique. */
  predicate UniqueRiotIds(users: seq<UserRow>) {
    forall i, j :: 0 <= i < j < |users| ==> users[i].riotId != users[j].riotId
  }

  /** The rank the script stores. */
  datatype RankValues = RankValues(tier: Option<string>, division: Option<string>, leaguePoints: int)

  /** Known values used when the summoner lookup returns nothing. */
  const FallbackRank: RankValues := RankValues(Some("PLATINUM"), Some("IV"), 91)
  const FallbackLevel: int := 271

  /** The rank to store: the fallback without a summoner; with one, the first
      solo-queue entry's tier, division and league points (0 when missing),
      or no rank at all when there is no such entry. */
  function RankFor(summoner: Option<Summoner>, rankInfo: Option<seq<RankEntry>>): (rank: RankValues)
    ensures summoner.None? ==> rank == FallbackRank
    ensures summoner.Some? && (rankInfo.None? || forall i :: 0 <= i < |rankInfo.value| ==> !IsSoloQueue(rankInfo.value[i])) ==>
      rank == RankValues(None, None, 0)
    ensures summoner.Some? && rankInfo.Some? && FirstSoloQueue(rankInfo.value).Some? ==>
      var e := rankInfo.value[FirstSoloQueue(rankInfo.value).value];
      rank == RankValues(e.tier, e.rank, e.leaguePoints.GetOr(0))
  {
    if summoner.None? then FallbackRank
    else if rankInfo.None? then RankValues(None, None, 0)
    else match FirstSoloQueue(rankInfo.value)
      case None => RankValues(None, None, 0)
      case Some(k) =>
        var e := rankInfo.value[k];
        RankValues(e.tier, e.rank, e.leaguePoints.GetOr(0))
  }

  /** The rank search of the script, with the summoner level it computes
      alongside (which is never written anywhere). */
  method ChooseRank(summoner: Option<Summoner>, rankInfo: Option<seq<RankEntry>>)
    returns (rank: RankValues, summonerLevel: Option<int>)
    ensures rank == RankFor(summoner, rankInfo)
    ensures summoner.None? ==> rank == FallbackRank && summonerLevel == Some(FallbackLevel)
    ensures summoner.Some? ==> summonerLevel == summoner.value.summonerLevel
    ensures summoner.Some? && (rankInfo.None? || forall i :: 0 <= i < |rankInfo.value| ==> !IsSoloQueue(rankInfo.value[i])) ==>
      rank == RankValues(None, None, 0)
    ensures summoner.Some? && rankInfo.Some? && FirstSoloQueue(rankInfo.value).Some? ==>
      var e := rankInfo.value[FirstSoloQueue(rankInfo.value).value];
      rank == RankValues(e.tier, e.rank, e.leaguePoints.GetOr(0))
  {
    rank := RankValues(None, None, 0);
    summonerLevel := None;
    if summoner.Some? {
      summonerLevel := summoner.value.summonerLevel;
      if rankInfo.Some? && |rankInfo.value| > 0 {
        var entries := rankInfo.value;
        var i := 0;
        while i < |entries|
          invariant 0 <= i <= |entries|
          invariant forall j :: 0 <= j < i ==> !IsSoloQueue(entries[j])
          invariant rank == RankValues(None, None, 0)
        {
          if IsSoloQueue(entries[i]) {
            rank := RankValues(entries[i].tier, entries[i].rank, entries[i].leaguePoints.GetOr(0));
            break;
          }
          i := i + 1;
        }
      }
    } else {
      summonerLevel := Some(FallbackLevel);
      rank := FallbackRank;
    }
  }

  /** Only the presence of the summoner matters to the stored rank: its level,
      id and icon never reach the row. */
  lemma RankIgnoresSummonerFields(s1: Summoner, s2: Summoner, rankInfo: Option<seq<RankEntry>>)
    ensures RankFor(Some(s1), rankInfo) == RankFor(Some(s2), rankInfo)
  {
  }

  /** `query(User).filter(User.riot_id == id).first()`: the first row with that riot id. */
  function IndexOfRiotId(users: seq<UserRow>, id: string): (k: Option<nat>)
    ensures k.None? <==> forall i :: 0 <= i < |users| ==> users[i].riotId != id
    ensures k.Some? ==>
      && k.value < |users| && users[k.value].riotId == id
      && forall i :: 0 <= i < k.value ==> users[i].riotId != id
  {
    if |users| == 0 then None
    else if users[0].riotId == id then Some(0)
    else match IndexOfRiotId(users[1..], id)
      case None => None
      case Some(k) => Some(k + 1)
  }

  /** The existing row after the script's in-place assignments: new name,
      tag, rank and champion list; same riot id, region and active flag. */
  function Refreshed(row: UserRow, name: string, tag: string, rank: RankValues): (r: UserRow)
    ensures r.riotId == row.riotId && r.region == row.region && r.isActive == row.isActive
    ensures r.summonerName == name && r.tagLine == tag
    ensures r.rankTier == rank.tier && r.rankDivision == rank.division && r.leaguePoints == rank.leaguePoints
    ensures r.preferredJungleChampions == Some(PreferredChampions)
  {
    row.(summonerName := name, tagLine := tag, rankTier := rank.tier, rankDivision := rank.division,
         leaguePoints := rank.leaguePoints, preferredJungleChampions := Some(PreferredChampions))
  }

  /** The row the script inserts when none exists: the "Not Alet" riot id in
      region "las", active, with the new name, tag, rank and champion list. */
  function NewUser(name: string, tag: string, rank: RankValues): (r: UserRow)
    ensures r.riotId == TargetRiotId && r.region == TargetRegion && r.isActive
    ensures r.summonerName == name && r.tagLine == tag
    ensures r.rankTier == rank.tier && r.rankDivision == rank.division && r.leaguePoints == rank.leaguePoints
    ensures r.preferredJungleChampions == Some(PreferredChampions)
  {
    UserRow(TargetRiotId, name, tag, TargetRegion, rank.tier, rank.division, rank.leaguePoints,
            Some(PreferredChampions), true)
  }

  /** The table after a successful run: one row longer exactly when no
      "Not Alet" row existed, and every row with another riot id unchanged. */
  function Upserted(users: seq<UserRow>, name: string, tag: string, rank: RankValues): (r: seq<UserRow>)
    ensures |r| == if IndexOfRiotId(users, TargetRiotId).None? then |users| + 1 else |users|
    ensures forall i :: 0 <= i < |users| && users[i].riotId != TargetRiotId ==> r[i] == users[i]
  {
    match IndexOfRiotId(users, TargetRiotId)
    case Some(k) => users[k := Refreshed(users[k], name, tag, rank)]
    case None => users + [NewUser(name, tag, rank)]
  }

  /** The upsert keeps `riot_id` unique. */
  lemma UpsertKeepsUnique(users: seq<UserRow>, name: string, tag: string, rank: RankValues)
    requires UniqueRiotIds(users)
    ensures UniqueRiotIds(Upserted(users, name, tag, rank))
  {
    var r := Upserted(users, name, tag, rank);
    var k := IndexOfRiotId(users, TargetRiotId);
    forall i, j | 0 <= i < j < |r| ensures r[i].riotId != r[j].riotId {
      if k.None? {
        assert j < |users| || r[j].riotId == TargetRiotId;
      } else {
        assert r[i].riotId == users[i].riotId && r[j].riotId == users[j].riotId;
      }
    }
  }

  /** After the upsert there is exactly one "Not Alet" row, it holds the new
      name, tag, rank and champion list; a row that existed keeps its region
      and active flag, a new one is active and in region "las". The table
      grows by one exactly when no such row existed, and every other row is
      unchanged. */
  lemma UpsertedTargetRow(users: seq<UserRow>, name: string, tag: string, rank: RankValues)
    requires UniqueRiotIds(users)
    ensures var r := Upserted(users, name, tag, rank);
      exists j :: 0 <= j < |r| && r[j].riotId == TargetRiotId
        && r[j].summonerName == name && r[j].tagLine == tag
        && r[j].rankTier == rank.tier && r[j].rankDivision == rank.division
        && r[j].leaguePoints == rank.leaguePoints
        && r[j].preferredJungleChampions == Some(PreferredChampions)
        && (j < |users| ==> r[j].region == users[j].region && r[j].isActive == users[j].isActive)
        && (j == |users| ==> r[j].region == TargetRegion && r[j].isActive)
        && forall i :: 0 <= i < |r| && i != j ==> r[i].riotId != TargetRiotId
    ensures var r := Upserted(users, name, tag, rank);
      && |r| == (if forall i :: 0 <= i < |users| ==> users[i].riotId != TargetRiotId then |users| + 1 else |users|)
      && forall i :: 0 <= i < |users| && users[i].riotId != TargetRiotId ==> r[i] == users[i]
  {
    var r := Upserted(users, name, tag, rank);
    UpsertKeepsUnique(users, name, tag, rank);
    match IndexOfRiotId(users, TargetRiotId)
    case Some(k) =>
      assert r[k].riotId == TargetRiotId;
    case None =>
      assert r[|users|].riotId == TargetRiotId;
  }

  /** How the script's database session ended. */
  datatype SessionEnd = SessionEnd(committed: bool, rolledBack: bool, closed: bool)

  class UserTable {
    var users: seq<UserRow>

    ghost predicate Valid()
      reads this
    {
      UniqueRiotIds(users)
    }

    constructor(rows: seq<UserRow>)
      requires UniqueRiotIds(rows)
      ensures Valid() && users == rows
    {
      users := rows;
    }

    /** `setup_not_alet_user`: nothing happens without an account; a missing
        `gameName` or `tagLine` raises and rolls the session back, leaving
        the table as it was; otherwise the "Not Alet" row is refreshed in
        place or inserted, with the rank chosen by `ChooseRank`. The session
        is closed on every path, and neither the summoner level nor the
        number of recent matches reaches the table. */
    method SetupNotAletUser(account: Option<Account>, summoner: Option<Summoner>,
                            rankInfo: Option<seq<RankEntry>>, recentMatches: Option<seq<string>>)
      returns (session: SessionEnd)
      requires Valid()
      modifies this
      ensures Valid() && session.closed
      ensures account.None? ==> users == old(users) && !session.committed && !session.rolledBack
      ensures account.Some? && (account.value.gameName.None? || account.value.tagLine.None?) ==>
        users == old(users) && !session.committed && session.rolledBack
      ensures account.Some? && account.value.gameName.Some? && account.value.tagLine.Some? ==>
        && users == Upserted(old(users), account.value.gameName.value, account.value.tagLine.value,
                             RankFor(summoner, rankInfo))
        && session.committed && !session.rolledBack
    {
      if account.None? {
        return SessionEnd(false, false, true);
      }
      var rank, summonerLevel := ChooseRank(summoner, rankInfo);
      var matchesCount := if recentMatches.Some? then |recentMatches.value| else 0;
      var existing := IndexOfRiotId(users, TargetRiotId);
      if account.value.gameName.None? || account.value.tagLine.None? {
        return SessionEnd(false, true, true);
      }
      var name, tag := account.value.gameName.value, account.value.tagLine.value;
      UpsertKeepsUnique(users, name, tag, rank);
      if existing.Some? {
        var k := existing.value;
        users := users[k := Refreshed(users[k], name, tag, rank)];
      } else {
        users := users + [NewUser(name, tag, rank)];
      }
      session := SessionEnd(true, false, true);
    }
  }
}
