/**
 * Notification composition: what the "Match Started!" and "Match Ended"
 * embeds carry, as payload records. Colours, emoji and Markdown layout are
 * not modelled; the fields and their values are.
 */
module Compose {
  import opened Common
  import opened Gateway

  /** The queue whose entry gives an opponent's rank. */
  const SoloQueue := "RANKED_SOLO_5x5"
  /** How many opponents (bots included) are looked at. */
  const MaxOpponents := 5

  /** One line of the "Opponents" field. */
  datatype OpponentLine =
    | Ranked(name: string, tier: string, division: string, winRate: nat)  // "name: TIER RANK (w% WR)"
    | Unranked(name: string)                                              // "name: Unranked"
    | UnknownSummoner(name: string)                                       // "name: Unknown"
    | Errored(name: string)                                               // "name: (Error)"

  /** The start embed: who, the game mode, and the "Opponents" lines (the field is absent when empty). */
  datatype StartPayload = StartPayload(riotId: string, mode: string, opponents: seq<OpponentLine>)

  /** The end embed: who, which champion, the K/D/A and the result. */
  datatype EndPayload = EndPayload(
    riotId: string,
    champion: string,
    kills: nat,
    deaths: nat,
    assists: nat,
    victory: bool)

  /** A composed notification of either kind. */
  datatype Payload = Started(start: StartPayload) | Ended(result: EndPayload)

  /** The start embed has an "Opponents" field exactly when there is at least one line. */
  predicate HasOpponentsField(p: StartPayload) {
    p.opponents != []
  }

  // ---------------------------------------------------------------- rank and win rate

  /**
   * Win rate as a whole percentage: 0 without games, otherwise the floor of
   * `100 * wins / (wins + losses)`.
   */
  function WinRate(wins: nat, losses: nat): (r: nat)
    ensures r <= 100
    ensures wins + losses == 0 ==> r == 0
    ensures wins + losses > 0 ==> r * (wins + losses) <= 100 * wins < (r + 1) * (wins + losses)
  {
    if wins + losses == 0 then 0
    else
      var total := wins + losses;
      var r := (100 * wins) / total;
      assert r * total <= 100 * wins < (r + 1) * total;
      assert r * total <= 100 * total;
      r
  }

  /** Position `i` holds the first solo-queue entry. */
  predicate IsFirstSolo(entries: seq<LeagueEntry>, i: int) {
    && 0 <= i < |entries|
    && entries[i].queueType == SoloQueue
    && forall j :: 0 <= j < i ==> entries[j].queueType != SoloQueue
  }

  /** The first `RANKED_SOLO_5x5` entry, if any. */
  function SoloEntry(entries: seq<LeagueEntry>): (r: Option<LeagueEntry>)
    ensures r.None? <==> forall i :: 0 <= i < |entries| ==> entries[i].queueType != SoloQueue
    ensures r.Some? ==> exists i :: IsFirstSolo(entries, i) && entries[i] == r.value
  {
    if entries == [] then None
    else if entries[0].queueType == SoloQueue then
      assert IsFirstSolo(entries, 0);
      Some(entries[0])
    else
      var r := SoloEntry(entries[1..]);
      if r.Some? then
        var i :| IsFirstSolo(entries[1..], i) && entries[1..][i] == r.value;
        assert IsFirstSolo(entries, i + 1);
        r
      else
        r
  }

  /** The line for an opponent whose league entries were fetched. */
  function RankLine(name: string, entries: seq<LeagueEntry>): (line: OpponentLine)
    ensures line.name == name
    ensures line.Unranked? || line.Ranked?
    ensures line.Unranked? <==> forall i :: 0 <= i < |entries| ==> entries[i].queueType != SoloQueue
    ensures line.Ranked? ==> line.winRate <= 100
    ensures line.Ranked? ==>
      (exists i :: IsFirstSolo(entries, i) &&
        line == Ranked(name, entries[i].tier, entries[i].rank, WinRate(entries[i].wins, entries[i].losses)))
  {
    match SoloEntry(entries)
    case None => Unranked(name)
    case Some(e) => Ranked(name, e.tier, e.rank, WinRate(e.wins, e.losses))
  }

  // ---------------------------------------------------------------- opponents

  /** The display name of a participant, "Unknown" when absent. */
  function NameOf(op: Participant): string {
    op.summonerName.GetOr("Unknown")
  }

  /**
   * The line for one non-bot opponent. Without a (truthy) summoner id it is
   * "Unknown"; a league lookup that raises degrades to "(Error)" for this
   * opponent alone (the client raises on a 404 here too).
   */
  function Describe(op: Participant, league: string -> Answer<seq<LeagueEntry>>): (line: OpponentLine)
    ensures line.name == NameOf(op)
    ensures line.UnknownSummoner? <==> !Truthy(op.summonerId)
    ensures line.Errored? <==> Truthy(op.summonerId) && !league(op.summonerId.value).Found?
    ensures Truthy(op.summonerId) && league(op.summonerId.value).Found? ==>
      line == RankLine(NameOf(op), league(op.summonerId.value).value)
    ensures line.Ranked? ==> line.winRate <= 100
  {
    if Truthy(op.summonerId) then
      match league(op.summonerId.value)
      case Found(entries) => RankLine(NameOf(op), entries)
      case _ => Errored(NameOf(op))
    else
      UnknownSummoner(NameOf(op))
  }

  /** Position `i` holds the first participant with this puuid. */
  predicate IsFirstOf(ps: seq<Participant>, puuid: string, i: int) {
    && 0 <= i < |ps|
    && ps[i].puuid == Some(puuid)
    && forall j :: 0 <= j < i ==> ps[j].puuid != Some(puuid)
  }

  /** The `teamId` of the first participant with this puuid (`None` if there is none, or it has no team). */
  function UserTeam(ps: seq<Participant>, puuid: string): (t: Option<int>)
    ensures (forall i :: 0 <= i < |ps| ==> ps[i].puuid != Some(puuid)) ==> t.None?
    ensures t.Some? ==> exists i :: IsFirstOf(ps, puuid, i) && ps[i].teamId == t
    ensures forall i :: IsFirstOf(ps, puuid, i) ==> t == ps[i].teamId
  {
    if ps == [] then None
    else if ps[0].puuid == Some(puuid) then
      assert IsFirstOf(ps, puuid, 0);
      ps[0].teamId
    else
      var t := UserTeam(ps[1..], puuid);
      if t.Some? then
        var i :| IsFirstOf(ps[1..], puuid, i) && ps[1..][i].teamId == t;
        assert IsFirstOf(ps, puuid, i + 1);
        t
      else
        t
  }

  /** Python truthiness of the team id: present and non-zero. */
  predicate TeamKnown(t: Option<int>) {
    t.Some? && t.value != 0
  }

  /** `[p for p in participants if p.get('teamId') != user_team]`. */
  function OpponentsOf(ps: seq<Participant>, team: int): (r: seq<Participant>)
    ensures |r| <= |ps|
    ensures forall q :: q in r <==> q in ps && q.teamId != Some(team)
  {
    if ps == [] then []
    else
      var rest := OpponentsOf(ps[1..], team);
      assert forall q :: q in ps <==> q == ps[0] || q in ps[1..];
      if ps[0].teamId != Some(team) then [ps[0]] + rest else rest
  }

  /** Python's `s[:n]`. */
  function Take<T>(s: seq<T>, n: nat): (r: seq<T>)
    ensures r <= s
    ensures |r| == if |s| <= n then |s| else n
  {
    if |s| <= n then s else s[..n]
  }

  /** Filtering a sequence that starts with `q`: `q` is kept exactly when it is off the team. */
  lemma OpponentsOfCons(q: Participant, s: seq<Participant>, team: int)
    ensures OpponentsOf([q] + s, team) == (if q.teamId != Some(team) then [q] else []) + OpponentsOf(s, team)
  {
    assert ([q] + s)[0] == q && ([q] + s)[1..] == s;
  }

  /**
   * The filter keeps order and multiplicity: filtering a concatenation is
   * the concatenation of the filtered parts (with `OpponentsOfCons`, which
   * says what happens to one participant, this fixes the result).
   */
  lemma {:induction false} OpponentsOfAppend(a: seq<Participant>, b: seq<Participant>, team: int)
    ensures OpponentsOf(a + b, team) == OpponentsOf(a, team) + OpponentsOf(b, team)
  {
    if a == [] {
      assert a + b == b;
    } else {
      var head := if a[0].teamId != Some(team) then [a[0]] else [];
      calc {
        OpponentsOf(a + b, team);
        { assert a + b == [a[0]] + (a[1..] + b); OpponentsOfCons(a[0], a[1..] + b, team); }
        head + OpponentsOf(a[1..] + b, team);
        { OpponentsOfAppend(a[1..], b, team); }
        head + (OpponentsOf(a[1..], team) + OpponentsOf(b, team));
        { assert a == [a[0]] + a[1..]; OpponentsOfCons(a[0], a[1..], team); }
        OpponentsOf(a, team) + OpponentsOf(b, team);
      }
    }
  }

  /** The non-bot participants of `ops`, in order. */
  function NonBots(ops: seq<Participant>): (r: seq<Participant>)
    ensures |r| <= |ops|
    ensures forall q :: q in r <==> q in ops && !q.bot
  {
    if ops == [] then []
    else
      var rest := NonBots(ops[1..]);
      assert forall q :: q in ops <==> q == ops[0] || q in ops[1..];
      if ops[0].bot then rest else [ops[0]] + rest
  }

  /** `NonBots` of a sequence that starts with `q`: `q` is kept exactly when it is no bot. */
  lemma NonBotsCons(q: Participant, s: seq<Participant>)
    ensures NonBots([q] + s) == (if q.bot then [] else [q]) + NonBots(s)
  {
    assert ([q] + s)[0] == q && ([q] + s)[1..] == s;
  }

  /**
   * `NonBots` keeps order and multiplicity: it distributes over
   * concatenation (with `NonBotsCons`, this fixes the result).
   */
  lemma {:induction false} NonBotsAppend(a: seq<Participant>, b: seq<Participant>)
    ensures NonBots(a + b) == NonBots(a) + NonBots(b)
  {
    if a == [] {
      assert a + b == b;
    } else {
      var head := if a[0].bot then [] else [a[0]];
      calc {
        NonBots(a + b);
        { assert a + b == [a[0]] + (a[1..] + b); NonBotsCons(a[0], a[1..] + b); }
        head + NonBots(a[1..] + b);
        { NonBotsAppend(a[1..], b); }
        head + (NonBots(a[1..]) + NonBots(b));
        { assert a == [a[0]] + a[1..]; NonBotsCons(a[0], a[1..]); }
        NonBots(a) + NonBots(b);
      }
    }
  }

  /** The lines for the opponents `ops`: one per non-bot, in order; a bot is skipped but was counted in `ops`. */
  function OpponentLines(ops: seq<Participant>, league: string -> Answer<seq<LeagueEntry>>): (lines: seq<OpponentLine>)
    ensures |lines| <= |ops|
  {
    if ops == [] then []
    else if ops[0].bot then OpponentLines(ops[1..], league)
    else [Describe(ops[0], league)] + OpponentLines(ops[1..], league)
  }

  /**
   * Line `i` describes the `i`-th non-bot opponent and nothing else: each line
   * depends only on its own opponent, so one failed lookup spoils no other line.
   */
  lemma {:induction false} OpponentLinesDescribeNonBots(ops: seq<Participant>, league: string -> Answer<seq<LeagueEntry>>)
    ensures |OpponentLines(ops, league)| == |NonBots(ops)|
    ensures forall i :: 0 <= i < |NonBots(ops)| ==> OpponentLines(ops, league)[i] == Describe(NonBots(ops)[i], league)
  {
    if ops != [] {
      var rest := ops[1..];
      OpponentLinesDescribeNonBots(rest, league);
      var lines, nonBots := OpponentLines(ops, league), NonBots(ops);
      if ops[0].bot {
        assert lines == OpponentLines(rest, league) && nonBots == NonBots(rest);
      } else {
        assert lines == [Describe(ops[0], league)] + OpponentLines(rest, league);
        assert nonBots == [ops[0]] + NonBots(rest);
        forall i | 0 <= i < |nonBots| ensures lines[i] == Describe(nonBots[i], league) {
          if i > 0 {
            assert lines[i] == OpponentLines(rest, league)[i - 1];
            assert nonBots[i] == NonBots(rest)[i - 1];
          }
        }
      }
    }
  }

  /** The lines of the start embed: empty when the tracked player's team is unknown. */
  function StartLines(game: LiveGame, puuid: string, league: string -> Answer<seq<LeagueEntry>>): seq<OpponentLine> {
    var team := UserTeam(game.participants, puuid);
    if TeamKnown(team) then
      OpponentLines(Take(OpponentsOf(game.participants, team.value), MaxOpponents), league)
    else []
  }

  /**
   * The start payload. At most five lines, and none when the tracked
   * player's team is not found; `StartLinesFromOtherTeam` says whom the
   * lines describe.
   */
  function StartPayloadOf(riotId: string, game: LiveGame, puuid: string, league: string -> Answer<seq<LeagueEntry>>): (p: StartPayload)
    ensures p.riotId == riotId && p.mode == game.gameMode.GetOr("Unknown")
    ensures |p.opponents| <= MaxOpponents
    ensures !TeamKnown(UserTeam(game.participants, puuid)) ==> p.opponents == []
    ensures HasOpponentsField(p) ==> TeamKnown(UserTeam(game.participants, puuid))
    ensures p.opponents == StartLines(game, puuid, league)
  {
    StartPayload(riotId, game.gameMode.GetOr("Unknown"), StartLines(game, puuid, league))
  }

  /** Every start line describes a non-bot participant that is not on the tracked player's team. */
  lemma StartLinesFromOtherTeam(game: LiveGame, puuid: string, league: string -> Answer<seq<LeagueEntry>>)
    ensures forall i :: 0 <= i < |StartLines(game, puuid, league)| ==>
      exists q :: q in game.participants && !q.bot && q.teamId != UserTeam(game.participants, puuid) &&
        StartLines(game, puuid, league)[i] == Describe(q, league)
  {
    var lines := StartLines(game, puuid, league);
    var team := UserTeam(game.participants, puuid);
    if TeamKnown(team) {
      var ops := Take(OpponentsOf(game.participants, team.value), MaxOpponents);
      OpponentLinesDescribeNonBots(ops, league);
      forall i | 0 <= i < |lines|
        ensures exists q :: q in game.participants && !q.bot && q.teamId != team && lines[i] == Describe(q, league)
      {
        var q := NonBots(ops)[i];
        assert q in NonBots(ops);
        assert q in ops;
      }
    }
  }

  /** The inner `for entry in entries` search, stopping at the first solo-queue entry. */
  method FindRank(name: string, entries: seq<LeagueEntry>) returns (line: OpponentLine)
    ensures line == RankLine(name, entries)
  {
    line := Unranked(name);
    var k := 0;
    while k < |entries|
      invariant 0 <= k <= |entries|
      invariant SoloEntry(entries) == SoloEntry(entries[k..])
    {
      var entry := entries[k];
      assert entries[k..][1..] == entries[k + 1..];
      if entry.queueType == SoloQueue {
        line := Ranked(name, entry.tier, entry.rank, WinRate(entry.wins, entry.losses));
        return;
      }
      k := k + 1;
    }
  }

  /** The `try` body for one non-bot opponent, with the "(Error)" fallback. */
  method DescribeOpponent(op: Participant, league: string -> Answer<seq<LeagueEntry>>) returns (line: OpponentLine)
    requires !op.bot
    ensures line == Describe(op, league)
  {
    var name := NameOf(op);
    if Truthy(op.summonerId) {
      var answer := league(op.summonerId.value);
      if answer.Found? {
        line := FindRank(name, answer.value);
      } else {
        line := Errored(name);
      }
    } else {
      line := UnknownSummoner(name);
    }
  }

  /** The search for the tracked player's `teamId`, stopping at the first participant with its puuid. */
  method FindTeam(ps: seq<Participant>, puuid: string) returns (team: Option<int>)
    ensures team == UserTeam(ps, puuid)
  {
    team := None;
    var i := 0;
    while i < |ps|
      invariant 0 <= i <= |ps|
      invariant UserTeam(ps, puuid) == UserTeam(ps[i..], puuid)
    {
      assert ps[i..][1..] == ps[i + 1..];
      if ps[i].puuid == Some(puuid) {
        team := ps[i].teamId;
        return;
      }
      i := i + 1;
    }
  }

  /** The `for op in opponents[:5]` loop: bots are skipped, every other opponent gets one line. */
  method DescribeOpponents(ops: seq<Participant>, league: string -> Answer<seq<LeagueEntry>>)
    returns (lines: seq<OpponentLine>)
    ensures lines == OpponentLines(ops, league)
  {
    lines := [];
    var k := 0;
    while k < |ops|
      invariant 0 <= k <= |ops|
      invariant lines + OpponentLines(ops[k..], league) == OpponentLines(ops, league)
    {
      var op := ops[k];
      assert ops[k..][1..] == ops[k + 1..];
      if op.bot {
        k := k + 1;
        continue;
      }
      var line := DescribeOpponent(op, league);
      lines := lines + [line];
      k := k + 1;
    }
  }

  /** `create_game_start_embed`: the mode, then the opponents' lines when the player's team is known. */
  method ComposeStart(riotId: string, game: LiveGame, puuid: string, league: string -> Answer<seq<LeagueEntry>>)
    returns (p: StartPayload)
    ensures p == StartPayloadOf(riotId, game, puuid, league)
  {
    var mode := game.gameMode.GetOr("Unknown");
    var team := FindTeam(game.participants, puuid);
    var lines: seq<OpponentLine> := [];
    if TeamKnown(team) {
      var opponents := OpponentsOf(game.participants, team.value);
      lines := DescribeOpponents(Take(opponents, MaxOpponents), league);
    }
    p := StartPayload(riotId, mode, lines);
  }

  // ---------------------------------------------------------------- end of match

  /** Position `i` holds the first match participant with this puuid. */
  predicate IsFirstPlayer(ps: seq<MatchParticipant>, puuid: string, i: int) {
    && 0 <= i < |ps|
    && ps[i].puuid == puuid
    && forall j :: 0 <= j < i ==> ps[j].puuid != puuid
  }

  /** `next((p for p in participants if p['puuid'] == puuid), None)`. */
  function FirstPlayer(ps: seq<MatchParticipant>, puuid: string): (r: Option<MatchParticipant>)
    ensures r.None? <==> forall i :: 0 <= i < |ps| ==> ps[i].puuid != puuid
    ensures r.Some? ==> exists i :: IsFirstPlayer(ps, puuid, i) && ps[i] == r.value
  {
    if ps == [] then None
    else if ps[0].puuid == puuid then
      assert IsFirstPlayer(ps, puuid, 0);
      Some(ps[0])
    else
      var r := FirstPlayer(ps[1..], puuid);
      if r.Some? then
        var i :| IsFirstPlayer(ps[1..], puuid, i) && ps[1..][i] == r.value;
        assert IsFirstPlayer(ps, puuid, i + 1);
        r
      else
        r
  }

  /**
   * `create_game_end_embed`: the tracked player's own line of the match;
   * no payload at all when the puuid is not among the participants.
   */
  function ComposeEnd(riotId: string, m: MatchDetail, puuid: string): (r: Option<EndPayload>)
    ensures r.None? <==> forall i :: 0 <= i < |m.participants| ==> m.participants[i].puuid != puuid
    ensures r.Some? ==>
      (exists i :: IsFirstPlayer(m.participants, puuid, i) &&
        r.value == EndPayload(riotId, m.participants[i].championName, m.participants[i].kills,
                              m.participants[i].deaths, m.participants[i].assists, m.participants[i].win))
  {
    match FirstPlayer(m.participants, puuid)
    case None => None
    case Some(q) => Some(EndPayload(riotId, q.championName, q.kills, q.deaths, q.assists, q.win))
  }

  /** The "Result" field: "Victory" exactly when the player won, "Defeat" otherwise. */
  function ResultLabel(p: EndPayload): (s: string)
    ensures s == "Victory" <==> p.victory
    ensures s == "Defeat" <==> !p.victory
  {
    if p.victory then "Victory" else "Defeat"
  }
}
