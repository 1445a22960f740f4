/**
 * `check_active_games`, the body of the one-minute polling loop: snapshot
 * the subscribers and the tracked players, then run the match-state machine
 * for each player inside its own `try`, persisting transitions and handing
 * notifications to `notify_subscribers`. The timer and the ten-second settle
 * delay are not modelled; the delay sits between clearing the stored id and
 * the history lookup, where it changes nothing in this model.
 */
module Poller {
  import opened Common
  import opened Database
  import opened Gateway
  import opened Compose
  import opened Tracker
  import opened Dispatcher

  /** The probe as the state machine sees it (`None`: no live game); undefined for a failed probe. */
  function LiveId(answer: Answer<LiveGame>): Option<string>
    requires !answer.Failed?
  {
    if answer.Found? then Some(answer.value.gameId) else None
  }

  /** The player's `last_game_id` after its step of the tick; a failed probe writes nothing. */
  function NextLastGame(r: UserRecord, world: World): Option<string> {
    var answer := world.activeGame(r.puuid);
    if answer.Failed? then r.lastGameId
    else Stored(r.lastGameId, Decide(r.lastGameId, LiveId(answer)))
  }

  /** The notices handed out during the player's step of the tick. */
  function StepNotices(r: UserRecord, subs: seq<string>, world: World): (ns: seq<Notice>)
    ensures |ns| <= 1
  {
    var answer := world.activeGame(r.puuid);
    if answer.Failed? then []
    else
      match Decide(r.lastGameId, LiveId(answer))
      case NoOp => []
      case Begin(_) => NoticesOf(subs, r.riotId, StartEvent(answer.value), r.puuid, world)
      case Finish(previous) =>
        match CorrelateMatch(world.matchHistory(r.puuid), world.matchDetail, previous)
        case None => []
        case Some(m) => NoticesOf(subs, r.riotId, EndEvent(m), r.puuid, world)
  }

  /** The table after a tick: each row's `last_game_id` advanced by its own probe, keys and puuids untouched. */
  function TickedUsers(users: map<string, Row>, world: World): (r: map<string, Row>)
    ensures r.Keys == users.Keys
    ensures forall k :: k in r ==> r[k].puuid == users[k].puuid
  {
    map k | k in users :: Row(users[k].puuid, NextLastGame(UserRecord(k, users[k].puuid, users[k].lastGameId), world))
  }

  /** The notices of a whole tick, player by player in snapshot order. */
  function TickLog(rows: seq<UserRecord>, subs: seq<string>, world: World): seq<Notice> {
    if rows == [] then []
    else TickLog(rows[..|rows| - 1], subs, world) + StepNotices(rows[|rows| - 1], subs, world)
  }

  /** One player's step: the `try` body, with a failed probe caught before any write. */
  method CheckPlayer(store: TrackedStore, user: UserRecord, subs: seq<string>, world: World)
    returns (sent: seq<Notice>)
    requires RecordOf(store.users, user)
    modifies store
    ensures store.users == old(store.users)[user.riotId := Row(user.puuid, NextLastGame(user, world))]
    ensures store.subscribers == old(store.subscribers)
    ensures sent == StepNotices(user, subs, world)
  {
    sent := [];
    var game := world.activeGame(user.puuid);
    if game.Failed? {
      // the exception is caught and logged; nothing was written
      assert store.users == old(store.users)[user.riotId := Row(user.puuid, NextLastGame(user, world))];
      return;
    }
    if game.Found? {
      var gameId := game.value.gameId;
      if user.lastGameId != Some(gameId) {
        store.UpdateLastGame(user.riotId, Some(gameId));
        sent := NotifySubscribers(subs, user.riotId, StartEvent(game.value), user.puuid, world);
      }
    } else if Truthy(user.lastGameId) {
      store.UpdateLastGame(user.riotId, None);
      var m := CorrelateMatch(world.matchHistory(user.puuid), world.matchDetail, user.lastGameId.value);
      if m.Some? {
        sent := NotifySubscribers(subs, user.riotId, EndEvent(m.value), user.puuid, world);
      }
    }
  }

  /**
   * `check_active_games`. Returns the snapshots it worked from and the
   * notices it handed out; the new table is the old one with every row
   * advanced by its own probe.
   */
  method Tick(store: TrackedStore, world: World) returns (rows: seq<UserRecord>, subs: seq<string>, log: seq<Notice>)
    modifies store
    ensures ListsSet(subs, old(store.subscribers))
    ensures ListsTable(rows, old(store.users))
    ensures store.subscribers == old(store.subscribers)
    ensures store.users == TickedUsers(old(store.users), world)
    ensures log == TickLog(rows, subs, world)
  {
    subs := store.GetSubscribers();
    if |subs| == 0 {
      var anyone := store.GetAllUsers();
      if |anyone| == 0 {
        // nobody to tell and nobody to watch
        ListsTableSize(anyone, store.users);
        rows, log := anyone, [];
        assert store.users == TickedUsers(store.users, world);
        return;
      }
    }
    rows := store.GetAllUsers();
    log := CheckPlayers(store, rows, subs, world);
  }

  /** The `for user in users` loop over the snapshot, each player in its own `try`. */
  method CheckPlayers(store: TrackedStore, rows: seq<UserRecord>, subs: seq<string>, world: World)
    returns (log: seq<Notice>)
    requires ListsTable(rows, store.users)
    modifies store
    ensures store.subscribers == old(store.subscribers)
    ensures store.users == TickedUsers(old(store.users), world)
    ensures log == TickLog(rows, subs, world)
  {
    log := [];
    var i := 0;
    while i < |rows|
      invariant AdvancedUpTo(old(store.users), store.users, rows, i, world)
      invariant store.subscribers == old(store.subscribers)
      invariant log == TickLog(rows[..i], subs, world)
    {
      var user := rows[i];
      AdvanceOne(old(store.users), store.users, rows, i, world);
      var sent := CheckPlayer(store, user, subs, world);
      assert rows[..i + 1][..i] == rows[..i];
      log := log + sent;
      i := i + 1;
    }
    assert rows[..i] == rows;
    AllRowsAdvanced(old(store.users), store.users, rows, world);
  }

  /** The first `i` listed rows of `before` have been advanced in `now`; the rest are as they were. */
  ghost predicate AdvancedUpTo(before: map<string, Row>, now: map<string, Row>, rows: seq<UserRecord>, i: int, world: World) {
    && 0 <= i <= |rows|
    && now.Keys == before.Keys
    && (forall j :: 0 <= j < i ==> rows[j].riotId in now && now[rows[j].riotId] == Row(rows[j].puuid, NextLastGame(rows[j], world)))
    && (forall j :: i <= j < |rows| ==> rows[j].riotId in now && now[rows[j].riotId] == before[rows[j].riotId])
  }

  /** Advancing the next listed row keeps the others as they were. */
  lemma AdvanceOne(before: map<string, Row>, now: map<string, Row>, rows: seq<UserRecord>, i: int, world: World)
    requires ListsTable(rows, before)
    requires AdvancedUpTo(before, now, rows, i, world) && i < |rows|
    ensures RecordOf(now, rows[i])
    ensures AdvancedUpTo(before, now[rows[i].riotId := Row(rows[i].puuid, NextLastGame(rows[i], world))], rows, i + 1, world)
  {
    assert RecordOf(before, rows[i]);
  }

  /** A table whose every listed row has been advanced is the ticked table. */
  lemma AllRowsAdvanced(before: map<string, Row>, after: map<string, Row>, rows: seq<UserRecord>, world: World)
    requires ListsTable(rows, before)
    requires AdvancedUpTo(before, after, rows, |rows|, world)
    ensures after == TickedUsers(before, world)
  {
    forall k | k in after
      ensures after[k] == TickedUsers(before, world)[k]
    {
      var j :| 0 <= j < |rows| && rows[j].riotId == k;
      assert RecordOf(before, rows[j]);
    }
  }

  // ---------------------------------------------------------------- properties of one step

  /** A probe error happens before any write: the row is unchanged and nothing is sent. */
  lemma ProbeErrorChangesNothing(r: UserRecord, subs: seq<string>, world: World)
    requires world.activeGame(r.puuid).Failed?
    ensures NextLastGame(r, world) == r.lastGameId
    ensures StepNotices(r, subs, world) == []
  {
  }

  /**
   * Start: a live game whose id differs from the stored one (or none is
   * stored) is persisted and announced exactly once, as a start.
   */
  lemma StartPersistsAndAnnouncesOnce(r: UserRecord, subs: seq<string>, world: World)
    requires world.activeGame(r.puuid).Found?
    requires r.lastGameId != Some(world.activeGame(r.puuid).value.gameId)
    ensures NextLastGame(r, world) == Some(world.activeGame(r.puuid).value.gameId)
    ensures StepNotices(r, subs, world) ==
      [Notice(r.riotId, Started(StartPayloadOf(r.riotId, world.activeGame(r.puuid).value, r.puuid, world.leagueEntries)),
              DeliveryOf(subs, world.channel, world.deliver))]
  {
  }

  /** The same live game again: nothing is written and nothing is sent. */
  lemma SameGameIsQuiet(r: UserRecord, subs: seq<string>, world: World)
    requires world.activeGame(r.puuid).Found?
    requires r.lastGameId == Some(world.activeGame(r.puuid).value.gameId)
    ensures NextLastGame(r, world) == r.lastGameId
    ensures StepNotices(r, subs, world) == []
  {
  }

  /**
   * End: no live game while a (truthy) id is stored clears it whatever the
   * correlation gives; an end notice goes out only when the latest match
   * contains the old id, its details were fetched and the player is in it.
   */
  lemma EndClearsThenMaybeAnnounces(r: UserRecord, subs: seq<string>, world: World)
    requires world.activeGame(r.puuid).NotFound?
    requires Truthy(r.lastGameId)
    ensures NextLastGame(r, world) == None
    ensures var m := CorrelateMatch(world.matchHistory(r.puuid), world.matchDetail, r.lastGameId.value);
      StepNotices(r, subs, world) != [] <==> m.Some? && ComposeEnd(r.riotId, m.value, r.puuid).Some?
    ensures forall n :: n in StepNotices(r, subs, world) ==> n.payload.Ended?
    ensures var m := CorrelateMatch(world.matchHistory(r.puuid), world.matchDetail, r.lastGameId.value);
      StepNotices(r, subs, world) != [] ==>
        StepNotices(r, subs, world) ==
          [Notice(r.riotId, Ended(ComposeEnd(r.riotId, m.value, r.puuid).value), DeliveryOf(subs, world.channel, world.deliver))]
  {
  }

  /** No live game and nothing (truthy) stored: a no-op. */
  lemma IdleIsQuiet(r: UserRecord, subs: seq<string>, world: World)
    requires world.activeGame(r.puuid).NotFound?
    requires !Truthy(r.lastGameId)
    ensures NextLastGame(r, world) == r.lastGameId
    ensures StepNotices(r, subs, world) == []
  {
  }

  /** A step run again with the same answers, on the row it produced, writes nothing and sends nothing. */
  lemma StepIdempotent(r: UserRecord, subs: seq<string>, world: World)
    ensures var r' := r.(lastGameId := NextLastGame(r, world));
      NextLastGame(r', world) == r'.lastGameId && StepNotices(r', subs, world) == []
  {
    var answer := world.activeGame(r.puuid);
    if !answer.Failed? {
      DecideIdempotent(r.lastGameId, LiveId(answer));
    }
  }

  // ---------------------------------------------------------------- properties of a tick

  /** Each player contributes at most one notice per tick. */
  lemma {:induction false} AtMostOneNoticePerPlayer(rows: seq<UserRecord>, subs: seq<string>, world: World)
    ensures |TickLog(rows, subs, world)| <= |rows|
  {
    if rows != [] {
      AtMostOneNoticePerPlayer(rows[..|rows| - 1], subs, world);
    }
  }

  /** With nobody tracked, a tick changes nothing and sends nothing. */
  lemma EmptyTickIsQuiet(rows: seq<UserRecord>, subs: seq<string>, world: World)
    requires ListsTable(rows, map[])
    ensures TickedUsers(map[], world) == map[]
    ensures TickLog(rows, subs, world) == []
  {
    ListsTableSize(rows, map[]);
  }

  /**
   * Isolation: a player's new row depends only on that player's own probe,
   * so an error for one player does not disturb any other.
   */
  lemma RowDependsOnOwnProbe(users: map<string, Row>, w1: World, w2: World, k: string)
    requires k in users
    requires w1.activeGame(users[k].puuid) == w2.activeGame(users[k].puuid)
    ensures TickedUsers(users, w1)[k] == TickedUsers(users, w2)[k]
  {
  }

  /**
   * Idempotence of ticks: a second tick with unchanged answers leaves the
   * table as it is and sends no notification at all.
   */
  lemma {:induction false} SecondTickIsQuiet(users: map<string, Row>, rows: seq<UserRecord>, subs: seq<string>, world: World)
    requires ListsTable(rows, TickedUsers(users, world))
    ensures TickedUsers(TickedUsers(users, world), world) == TickedUsers(users, world)
    ensures TickLog(rows, subs, world) == []
  {
    var after := TickedUsers(users, world);
    forall k | k in after
      ensures TickedUsers(after, world)[k] == after[k]
    {
      StepIdempotent(UserRecord(k, users[k].puuid, users[k].lastGameId), subs, world);
    }
    QuietRows(users, rows, subs, world);
  }

  /** Every prefix of a listing of the advanced table produces no notice. */
  lemma {:induction false} QuietRows(users: map<string, Row>, rows: seq<UserRecord>, subs: seq<string>, world: World)
    requires forall i :: 0 <= i < |rows| ==> RecordOf(TickedUsers(users, world), rows[i])
    ensures TickLog(rows, subs, world) == []
  {
    if rows != [] {
      var last := rows[|rows| - 1];
      assert RecordOf(TickedUsers(users, world), last);
      var k := last.riotId;
      StepIdempotent(UserRecord(k, users[k].puuid, users[k].lastGameId), subs, world);
      QuietRows(users, rows[..|rows| - 1], subs, world);
    }
  }
}
