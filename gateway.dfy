/**
 * What the bot reads from the outside world, as plain data. The Riot API
 * client, the Discord channel and direct messages are not called: their
 * answers for one poll tick are fields of a `World` value.
 */
module Gateway {
  import opened Common

  /** One entry of a live game's `participants` list. Absent keys are `None`; `bot` defaults to false. */
  datatype Participant = Participant(
    puuid: Option<string>,
    teamId: Option<int>,
    summonerId: Option<string>,
    summonerName: Option<string>,
    bot: bool)

  /** A live game as the spectator endpoint returns it; `gameId` is already `str(game['gameId'])`. */
  datatype LiveGame = LiveGame(gameId: string, gameMode: Option<string>, participants: seq<Participant>)

  /** One league entry of a summoner. */
  datatype LeagueEntry = LeagueEntry(queueType: string, tier: string, rank: string, wins: nat, losses: nat)

  /** One participant of a finished match (`match['info']['participants']`). */
  datatype MatchParticipant = MatchParticipant(
    puuid: string,
    win: bool,
    kills: nat,
    deaths: nat,
    assists: nat,
    championName: string)

  /** A match-detail document. */
  datatype MatchDetail = MatchDetail(participants: seq<MatchParticipant>)

  /** The shared `league-feed` channel: missing, present and accepting, or present and raising on send. */
  datatype Channel = NoChannel | ChannelUp | ChannelDown

  /**
   * The answers of the outside world during one tick.
   * - `activeGame(puuid)`: `get_active_game`; a 404 is `NotFound`.
   * - `matchHistory(puuid)`: `get_match_history(puuid, count=1)`; every error raises.
   * - `matchDetail(matchId)`: `get_match_details`; every error raises.
   * - `leagueEntries(summonerId)`: `get_league_entries`; every error raises.
   * - `channel`: the `league-feed` channel.
   * - `deliver(userId)`: whether resolving and direct-messaging that subscriber succeeds.
   */
  datatype World = World(
    activeGame: string -> Answer<LiveGame>,
    matchHistory: string -> Answer<seq<string>>,
    matchDetail: string -> Answer<MatchDetail>,
    leagueEntries: string -> Answer<seq<LeagueEntry>>,
    channel: Channel,
    deliver: string -> bool)
}
