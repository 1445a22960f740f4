/**
 * The persistent store: the `tracked_users` table (primary key `riot_id`)
 * and the `subscribers` table (primary key `discord_user_id`). A table keyed
 * by its primary key is a map; a one-column table is a set. Every operation
 * commits on its own; connections, durability and transactions are not part
 * of this model.
 */
module Database {
  import opened Common

  /** The non-key columns of one `tracked_users` row. */
  datatype Row = Row(puuid: string, lastGameId: Option<string>)

  /** One row as `get_all_users` returns it: the key with its columns. */
  datatype UserRecord = UserRecord(riotId: string, puuid: string, lastGameId: Option<string>)

  /** The row `r` agrees with the table entry under its key. */
  predicate RecordOf(users: map<string, Row>, r: UserRecord) {
    r.riotId in users && users[r.riotId] == Row(r.puuid, r.lastGameId)
  }

  /** No key appears twice in `rows`. */
  predicate DistinctKeys(rows: seq<UserRecord>) {
    forall i, j :: 0 <= i < j < |rows| ==> rows[i].riotId != rows[j].riotId
  }

  /** `rows` lists every row of `users` exactly once, in some order. */
  predicate ListsTable(rows: seq<UserRecord>, users: map<string, Row>) {
    && (forall i :: 0 <= i < |rows| ==> RecordOf(users, rows[i]))
    && DistinctKeys(rows)
    && (forall k :: k in users ==> exists i :: 0 <= i < |rows| && rows[i].riotId == k)
  }

  /** `ids` lists every element of `set` exactly once, in some order. */
  predicate ListsSet(ids: seq<string>, s: set<string>) {
    && (forall i :: 0 <= i < |ids| ==> ids[i] in s)
    && (forall i, j :: 0 <= i < j < |ids| ==> ids[i] != ids[j])
    && (forall x :: x in s ==> x in ids)
  }

  /** A listing of a table has exactly as many entries as the table has keys. */
  lemma {:induction false} ListsTableSize(rows: seq<UserRecord>, users: map<string, Row>)
    requires ListsTable(rows, users)
    ensures |rows| == |users|
  {
    var keys := set i | 0 <= i < |rows| :: rows[i].riotId;
    assert keys == users.Keys;
    KeysOfDistinctRows(rows);
  }

  /** Distinct keys: the set of keys of `rows` has `|rows|` elements. */
  lemma {:induction false} KeysOfDistinctRows(rows: seq<UserRecord>)
    requires DistinctKeys(rows)
    ensures |set i | 0 <= i < |rows| :: rows[i].riotId| == |rows|
  {
    if rows != [] {
      var last := |rows| - 1;
      KeysOfDistinctRows(rows[..last]);
      var front := set i | 0 <= i < last :: rows[..last][i].riotId;
      var all := set i | 0 <= i < |rows| :: rows[i].riotId;
      assert all == front + {rows[last].riotId};
      assert rows[last].riotId !in front;
    }
  }

  class TrackedStore {
    /** `tracked_users`, keyed by `riot_id`. */
    var users: map<string, Row>
    /** `subscribers`, the set of `discord_user_id`. */
    var subscribers: set<string>

    /** `init_db` on an empty database file: both tables exist and are empty. */
    constructor ()
      ensures users == map[] && subscribers == {}
    {
      users := map[];
      subscribers := {};
    }

    /**
     * `add_user`: the INSERT names only `riot_id` and `puuid`, so a new row
     * has no `last_game_id`; an existing key (compared exactly, as SQLite
     * compares TEXT) is an IntegrityError and changes nothing.
     */
    method AddUser(riotId: string, puuid: string) returns (added: bool)
      modifies this
      ensures added <==> riotId !in old(users)
      ensures users == if added then old(users)[riotId := Row(puuid, None)] else old(users)
      ensures subscribers == old(subscribers)
    {
      if riotId in users {
        added := false;
      } else {
        users := users[riotId := Row(puuid, None)];
        added := true;
      }
    }

    /** `remove_user`: deletes the row with that key; reports whether one was deleted. */
    method RemoveUser(riotId: string) returns (existed: bool)
      modifies this
      ensures existed <==> riotId in old(users)
      ensures users == old(users) - {riotId}
      ensures subscribers == old(subscribers)
    {
      existed := riotId in users;
      users := users - {riotId};
    }

    /** `add_subscriber`: set insertion that reports a duplicate instead of changing anything. */
    method AddSubscriber(id: string) returns (added: bool)
      modifies this
      ensures added <==> id !in old(subscribers)
      ensures subscribers == old(subscribers) + {id}
      ensures users == old(users)
    {
      added := id !in subscribers;
      subscribers := subscribers + {id};
    }

    /** `remove_subscriber`: set removal that reports whether the id was present. */
    method RemoveSubscriber(id: string) returns (existed: bool)
      modifies this
      ensures existed <==> id in old(subscribers)
      ensures subscribers == old(subscribers) - {id}
      ensures users == old(users)
    {
      existed := id in subscribers;
      subscribers := subscribers - {id};
    }

    /**
     * `update_last_game`: sets `last_game_id` of the row with that key and
     * nothing else; a missing key matches no row and changes nothing.
     */
    method UpdateLastGame(riotId: string, gameId: Option<string>)
      modifies this
      ensures riotId in old(users) ==>
        users == old(users)[riotId := Row(old(users)[riotId].puuid, gameId)]
      ensures riotId !in old(users) ==> users == old(users)
      ensures subscribers == old(subscribers)
    {
      if riotId in users {
        users := users[riotId := users[riotId].(lastGameId := gameId)];
      }
    }

    /** `get_subscribers`: every subscriber id once, in the order the table yields them. */
    method GetSubscribers() returns (ids: seq<string>)
      ensures ListsSet(ids, subscribers)
    {
      ids := [];
      var rest := subscribers;
      while rest != {}
        invariant rest <= subscribers
        invariant forall i :: 0 <= i < |ids| ==> ids[i] in subscribers - rest
        invariant forall i, j :: 0 <= i < j < |ids| ==> ids[i] != ids[j]
        invariant forall x :: x in subscribers - rest ==> x in ids
        decreases rest
      {
        var x :| x in rest;
        ids := ids + [x];
        rest := rest - {x};
      }
    }

    /** `get_all_users`: every row once, with its key, in the order the table yields them. */
    method GetAllUsers() returns (rows: seq<UserRecord>)
      ensures ListsTable(rows, users)
    {
      rows := [];
      var rest := users.Keys;
      while rest != {}
        invariant rest <= users.Keys
        invariant forall i :: 0 <= i < |rows| ==> RecordOf(users, rows[i]) && rows[i].riotId !in rest
        invariant DistinctKeys(rows)
        invariant forall k :: k in users && k !in rest ==> exists i :: 0 <= i < |rows| && rows[i].riotId == k
        decreases rest
      {
        var k :| k in rest;
        ghost var before := rows;
        rows := rows + [UserRecord(k, users[k].puuid, users[k].lastGameId)];
        assert rows[|before|].riotId == k;
        assert forall i :: 0 <= i < |before| ==> rows[i] == before[i];
        rest := rest - {k};
      }
    }
  }

  /** Deleting a key that was just inserted restores the table. */
  lemma RemoveAfterAddRestores(users: map<string, Row>, riotId: string, puuid: string)
    requires riotId !in users
    ensures users[riotId := Row(puuid, None)] - {riotId} == users
  {
  }
}
