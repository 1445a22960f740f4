/**
 * The chat commands `!track`, `!untrack`, `!subscribe` and `!unsubscribe`.
 * Each reply the bot posts is a constructor of a reply datatype; an
 * exception the handler does not catch is the reply `Unhandled` (the
 * framework logs it and the invoker sees nothing).
 */
module Commands {
  import opened Common
  import opened Text
  import opened Database

  /** The replies of `!track`. */
  datatype TrackReply =
    | BadFormat         // "Please provide Riot ID in format GameName#Tag"
    | Unhandled         // more than one '#': the two-name unpacking raises outside the try
    | AlreadyTracking   // "Already tracking ..."
    | UnknownPlayer     // "Could not find summoner ..."
    | LookupError       // "Error tracking user: ..."
    | NowTracking       // "Now tracking ..."
    | AddFailed         // "Error adding ... to database."

  /** Some tracked key equals `riotId` ignoring case. */
  predicate TrackedIgnoringCase(users: map<string, Row>, riotId: string) {
    exists k :: k in users && SameIgnoringCase(k, riotId)
  }

  /** `any(u['riot_id'].lower() == riot_id.lower() for u in existing)`. */
  predicate ListedIgnoringCase(rows: seq<UserRecord>, riotId: string) {
    exists i :: 0 <= i < |rows| && SameIgnoringCase(rows[i].riotId, riotId)
  }

  /** The invariant `!track` keeps: no two tracked ids differ only in case. */
  predicate CaseUnique(users: map<string, Row>) {
    forall a, b :: a in users && b in users && SameIgnoringCase(a, b) ==> a == b
  }

  /**
   * The reply of `!track riotId`, where `accounts(name, tag)` is the account
   * lookup (its value the account's puuid). An exact duplicate is always
   * caught by the case-insensitive check first, so the insert never fails.
   */
  function TrackReplyOf(users: map<string, Row>, riotId: string, accounts: (string, string) -> Answer<string>)
    : (reply: TrackReply)
    ensures reply == BadFormat <==> '#' !in riotId
    ensures reply == Unhandled <==> Occurrences(riotId, '#') > 1
    ensures reply == AlreadyTracking <==> Occurrences(riotId, '#') == 1 && TrackedIgnoringCase(users, riotId)
    ensures reply == UnknownPlayer <==>
      && Occurrences(riotId, '#') == 1
      && !TrackedIgnoringCase(users, riotId)
      && accounts(SplitOnce(riotId, '#').value.0, SplitOnce(riotId, '#').value.1).NotFound?
    ensures reply == LookupError <==>
      && Occurrences(riotId, '#') == 1
      && !TrackedIgnoringCase(users, riotId)
      && accounts(SplitOnce(riotId, '#').value.0, SplitOnce(riotId, '#').value.1).Failed?
    ensures reply == NowTracking <==>
      && Occurrences(riotId, '#') == 1
      && !TrackedIgnoringCase(users, riotId)
      && accounts(SplitOnce(riotId, '#').value.0, SplitOnce(riotId, '#').value.1).Found?
    ensures reply == NowTracking ==> riotId !in users
    ensures reply != AddFailed
  {
    if '#' !in riotId then BadFormat
    else
      match SplitOnce(riotId, '#')
      case None => Unhandled
      case Some((name, tag)) =>
        if TrackedIgnoringCase(users, riotId) then AlreadyTracking
        else
          assert SameIgnoringCase(riotId, riotId);
          match accounts(name, tag)
          case NotFound => UnknownPlayer
          case Failed => LookupError
          case Found(_) => if riotId in users then AddFailed else NowTracking
  }

  /** Inserting an id that matches no tracked id ignoring case keeps the table case-unique. */
  lemma InsertKeepsCaseUnique(users: map<string, Row>, riotId: string, row: Row)
    requires CaseUnique(users)
    requires !TrackedIgnoringCase(users, riotId)
    ensures CaseUnique(users[riotId := row])
  {
    assert forall k :: k in users ==> !SameIgnoringCase(k, riotId);
  }

  /**
   * "Ana#NA1" then "ana#na1" on an empty table: the first is tracked, the
   * second is reported as already tracked, so one record remains.
   */
  lemma TrackIsCaseInsensitive(accounts: (string, string) -> Answer<string>)
    requires accounts("Ana", "NA1").Found?
    ensures TrackReplyOf(map[], "Ana#NA1", accounts) == NowTracking
    ensures TrackReplyOf(map["Ana#NA1" := Row(accounts("Ana", "NA1").value, None)], "ana#na1", accounts) == AlreadyTracking
  {
    TrackAnaFirst(accounts);
    TrackAnaAgain(Row(accounts("Ana", "NA1").value, None), accounts);
  }

  /** "Ana#NA1" on an empty table is tracked once its account is found. */
  lemma TrackAnaFirst(accounts: (string, string) -> Answer<string>)
    requires accounts("Ana", "NA1").Found?
    ensures TrackReplyOf(map[], "Ana#NA1", accounts) == NowTracking
  {
    assert "Ana#NA1" == "Ana" + ['#'] + "NA1";
    SplitOnceJoin("Ana", "NA1", '#');
  }

  /** "ana#na1" with "Ana#NA1" tracked is a duplicate, whatever the account lookup would say. */
  lemma TrackAnaAgain(row: Row, accounts: (string, string) -> Answer<string>)
    ensures TrackReplyOf(map["Ana#NA1" := row], "ana#na1", accounts) == AlreadyTracking
  {
    assert "ana#na1" == "ana" + ['#'] + "na1";
    SplitOnceJoin("ana", "na1", '#');
    AnaTrackedIgnoringCase(row);
  }

  /** With "Ana#NA1" tracked, "ana#na1" is tracked ignoring case. */
  lemma AnaTrackedIgnoringCase(row: Row)
    ensures TrackedIgnoringCase(map["Ana#NA1" := row], "ana#na1")
  {
    SameIgnoringCaseByChars("Ana#NA1", "ana#na1");
    assert "Ana#NA1" in map["Ana#NA1" := row];
  }

  /** `!track riotId`. */
  method Track(store: TrackedStore, riotId: string, accounts: (string, string) -> Answer<string>)
    returns (reply: TrackReply)
    modifies store
    ensures reply == TrackReplyOf(old(store.users), riotId, accounts)
    ensures reply == NowTracking ==>
      var (name, tag) := SplitOnce(riotId, '#').value;
      store.users == old(store.users)[riotId := Row(accounts(name, tag).value, None)]
    ensures reply != NowTracking ==> store.users == old(store.users)
    ensures CaseUnique(old(store.users)) ==> CaseUnique(store.users)
    ensures store.subscribers == old(store.subscribers)
  {
    if '#' !in riotId {
      return BadFormat;
    }
    var parts := SplitOnce(riotId, '#');
    if parts.None? {
      return Unhandled;
    }
    var (name, tag) := parts.value;
    var existing := store.GetAllUsers();
    assert ListedIgnoringCase(existing, riotId) <==> TrackedIgnoringCase(store.users, riotId) by {
      if TrackedIgnoringCase(store.users, riotId) {
        var k :| k in store.users && SameIgnoringCase(k, riotId);
        var i :| 0 <= i < |existing| && existing[i].riotId == k;
      }
    }
    if ListedIgnoringCase(existing, riotId) {
      return AlreadyTracking;
    }
    var account := accounts(name, tag);
    if account.NotFound? {
      return UnknownPlayer;
    }
    if account.Failed? {
      return LookupError;
    }
    var added := store.AddUser(riotId, account.value);
    if added {
      reply := NowTracking;
      if CaseUnique(old(store.users)) {
        InsertKeepsCaseUnique(old(store.users), riotId, Row(account.value, None));
      }
    } else {
      reply := AddFailed;
    }
  }

  /** The replies of `!untrack`. */
  datatype UntrackReply = Stopped | NotTracked

  /** `!untrack riotId`: removes by the exact stored key. */
  method Untrack(store: TrackedStore, riotId: string) returns (reply: UntrackReply)
    modifies store
    ensures reply == Stopped <==> riotId in old(store.users)
    ensures store.users == old(store.users) - {riotId}
    ensures CaseUnique(old(store.users)) ==> CaseUnique(store.users)
    ensures store.subscribers == old(store.subscribers)
  {
    var existed := store.RemoveUser(riotId);
    reply := if existed then Stopped else NotTracked;
  }

  /** How the confirmation block of `!subscribe` ends. */
  datatype SendOutcome = Sent | Forbidden | OtherError

  /** The replies of `!subscribe`. */
  datatype SubscribeReply = CheckDms | CannotDm | AlreadySubscribed | SubscribeUnhandled

  /**
   * `!subscribe`: insert, then try the welcome DM and the channel
   * confirmation (`probe`). On a `Forbidden` from either, the apology is
   * posted (`apology`) and only once it has gone out is the insert rolled
   * back; an apology that raises escapes the handler before the rollback.
   * Any other error from the block escapes too, and the subscription stays.
   */
  method Subscribe(store: TrackedStore, userId: string, probe: SendOutcome, apology: SendOutcome)
    returns (reply: SubscribeReply)
    modifies store
    ensures reply == AlreadySubscribed <==> userId in old(store.subscribers)
    ensures reply == CannotDm <==> userId !in old(store.subscribers) && probe == Forbidden && apology == Sent
    ensures reply == CheckDms <==> userId !in old(store.subscribers) && probe == Sent
    ensures reply == SubscribeUnhandled <==>
      userId !in old(store.subscribers) && (probe == OtherError || (probe == Forbidden && apology != Sent))
    ensures store.subscribers ==
      if userId in old(store.subscribers) || reply == CannotDm then old(store.subscribers)
      else old(store.subscribers) + {userId}
    ensures store.users == old(store.users)
  {
    var added := store.AddSubscriber(userId);
    if !added {
      return AlreadySubscribed;
    }
    match probe {
      case Sent =>
        reply := CheckDms;
      case Forbidden =>
        if apology == Sent {
          reply := CannotDm;
          var _ := store.RemoveSubscriber(userId);
        } else {
          reply := SubscribeUnhandled;
        }
      case OtherError =>
        reply := SubscribeUnhandled;
    }
  }

  /** The replies of `!unsubscribe`. */
  datatype UnsubscribeReply = Unsubscribed | NotSubscribed

  /** `!unsubscribe`. */
  method Unsubscribe(store: TrackedStore, userId: string) returns (reply: UnsubscribeReply)
    modifies store
    ensures reply == Unsubscribed <==> userId in old(store.subscribers)
    ensures store.subscribers == old(store.subscribers) - {userId}
    ensures store.users == old(store.users)
  {
    var existed := store.RemoveSubscriber(userId);
    reply := if existed then Unsubscribed else NotSubscribed;
  }
}
