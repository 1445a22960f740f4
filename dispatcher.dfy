/**
 * `notify_subscribers`: compose the payload for an event, post it to the
 * shared `league-feed` channel when that channel exists, then direct-message
 * every subscriber of the tick's snapshot, each inside its own `try`.
 */
module Dispatcher {
  import opened Common
  import opened Gateway
  import opened Compose

  /**
   * The outcome of delivering one payload. A channel that raises on send
   * aborts the call before any direct message (that `send` is outside the
   * per-subscriber `try`); otherwise every subscriber is attempted.
   */
  datatype Delivery =
    | ChannelFailed
    | Delivered(toChannel: bool, reached: seq<string>, missed: seq<string>)

  /** The subscribers, in order, whose direct message goes through. */
  function Reached(subs: seq<string>, deliver: string -> bool): (r: seq<string>)
    ensures |r| <= |subs|
    ensures forall s :: s in r <==> s in subs && deliver(s)
  {
    if subs == [] then []
    else
      if deliver(subs[0]) then [subs[0]] + Reached(subs[1..], deliver)
      else Reached(subs[1..], deliver)
  }

  /** The subscribers, in order, whose direct message fails (logged and skipped). */
  function Missed(subs: seq<string>, deliver: string -> bool): (r: seq<string>)
    ensures |r| <= |subs|
    ensures forall s :: s in r <==> s in subs && !deliver(s)
  {
    if subs == [] then []
    else
      if deliver(subs[0]) then Missed(subs[1..], deliver)
      else [subs[0]] + Missed(subs[1..], deliver)
  }

  /**
   * Failure isolation: a subscriber is reached exactly when its own delivery
   * succeeds, whatever happens to the others, and every entry of the
   * snapshot is attempted exactly once (so no subscriber gets more messages
   * than its entries in the snapshot).
   */
  lemma {:induction false} DeliveryIsolation(subs: seq<string>, deliver: string -> bool)
    ensures forall s :: s in Reached(subs, deliver) <==> s in subs && deliver(s)
    ensures forall s :: s in Missed(subs, deliver) <==> s in subs && !deliver(s)
    ensures |Reached(subs, deliver)| + |Missed(subs, deliver)| == |subs|
    ensures multiset(Reached(subs, deliver)) + multiset(Missed(subs, deliver)) == multiset(subs)
  {
    if subs != [] {
      DeliveryIsolation(subs[1..], deliver);
      assert subs == [subs[0]] + subs[1..];
    }
  }

  /** What delivering one payload does, given the channel and each subscriber's outcome. */
  function DeliveryOf(subs: seq<string>, channel: Channel, deliver: string -> bool): (d: Delivery)
    ensures d.ChannelFailed? <==> channel == ChannelDown
    ensures d.Delivered? ==> d.toChannel == (channel == ChannelUp)
  {
    if channel == ChannelDown then ChannelFailed
    else Delivered(channel == ChannelUp, Reached(subs, deliver), Missed(subs, deliver))
  }

  /**
   * Unless the channel send raises, each subscriber of the snapshot is
   * reached exactly when its own direct message goes through, and no one
   * outside the snapshot is messaged.
   */
  lemma DispatchIsolation(subs: seq<string>, channel: Channel, deliver: string -> bool)
    ensures var d := DeliveryOf(subs, channel, deliver);
      d.Delivered? ==>
        && (forall s :: s in subs ==> (s in d.reached <==> deliver(s)) && (s in d.missed <==> !deliver(s)))
        && (forall s :: s in d.reached || s in d.missed ==> s in subs)
        && |d.reached| + |d.missed| == |subs|
  {
    DeliveryIsolation(subs, deliver);
  }

  /** Attempting the subscriber at `i` adds it to exactly one of the two lists. */
  lemma SplitStep(subs: seq<string>, i: nat, deliver: string -> bool)
    requires i < |subs|
    ensures Reached(subs[i..], deliver) == (if deliver(subs[i]) then [subs[i]] else []) + Reached(subs[i + 1..], deliver)
    ensures Missed(subs[i..], deliver) == (if deliver(subs[i]) then [] else [subs[i]]) + Missed(subs[i + 1..], deliver)
  {
    assert subs[i..][0] == subs[i] && subs[i..][1..] == subs[i + 1..];
  }

  /** The sending part of `notify_subscribers`. */
  method Dispatch(subs: seq<string>, channel: Channel, deliver: string -> bool) returns (d: Delivery)
    ensures d == DeliveryOf(subs, channel, deliver)
  {
    if channel == ChannelDown {
      return ChannelFailed;
    }
    var reached, missed := [], [];
    var i := 0;
    while i < |subs|
      invariant 0 <= i <= |subs|
      invariant reached + Reached(subs[i..], deliver) == Reached(subs, deliver)
      invariant missed + Missed(subs[i..], deliver) == Missed(subs, deliver)
    {
      SplitStep(subs, i, deliver);
      if deliver(subs[i]) {
        assert reached + Reached(subs[i..], deliver) == (reached + [subs[i]]) + Reached(subs[i + 1..], deliver);
        reached := reached + [subs[i]];
      } else {
        assert missed + Missed(subs[i..], deliver) == (missed + [subs[i]]) + Missed(subs[i + 1..], deliver);
        missed := missed + [subs[i]];
      }
      i := i + 1;
    }
    assert subs[i..] == [];
    d := Delivered(channel == ChannelUp, reached, missed);
  }

  /** The event a transition hands to `notify_subscribers`. */
  datatype Event = StartEvent(game: LiveGame) | EndEvent(detail: MatchDetail)

  /** One notification that was composed and handed out. */
  datatype Notice = Notice(riotId: string, payload: Payload, delivery: Delivery)

  /** The payload for an event; an end event whose match lacks the player composes nothing. */
  function PayloadOf(riotId: string, event: Event, puuid: string, league: string -> Answer<seq<LeagueEntry>>)
    : (p: Option<Payload>)
    ensures event.StartEvent? ==> p.Some? && p.value.Started?
    ensures event.EndEvent? ==> (p.Some? <==> ComposeEnd(riotId, event.detail, puuid).Some?)
    ensures p.Some? && p.value.Ended? ==> event.EndEvent? && p.value.result.riotId == riotId
    ensures event.StartEvent? ==> p == Some(Started(StartPayloadOf(riotId, event.game, puuid, league)))
    ensures event.EndEvent? && p.Some? ==> p.value.Ended? && ComposeEnd(riotId, event.detail, puuid) == Some(p.value.result)
  {
    match event
    case StartEvent(game) => Some(Started(StartPayloadOf(riotId, game, puuid, league)))
    case EndEvent(m) =>
      match ComposeEnd(riotId, m, puuid)
      case None => None
      case Some(e) => Some(Ended(e))
  }

  /** What one call of `notify_subscribers` hands out: nothing, or exactly one notice. */
  function NoticesOf(subs: seq<string>, riotId: string, event: Event, puuid: string, world: World): (ns: seq<Notice>)
    ensures |ns| <= 1
    ensures ns != [] <==> PayloadOf(riotId, event, puuid, world.leagueEntries).Some?
    ensures forall n :: n in ns ==>
      && n.riotId == riotId
      && Some(n.payload) == PayloadOf(riotId, event, puuid, world.leagueEntries)
      && n.delivery == DeliveryOf(subs, world.channel, world.deliver)
  {
    match PayloadOf(riotId, event, puuid, world.leagueEntries)
    case None => []
    case Some(p) => [Notice(riotId, p, DeliveryOf(subs, world.channel, world.deliver))]
  }

  /** `notify_subscribers`: compose, return early without a payload, otherwise deliver. */
  method NotifySubscribers(subs: seq<string>, riotId: string, event: Event, puuid: string, world: World)
    returns (sent: seq<Notice>)
    ensures sent == NoticesOf(subs, riotId, event, puuid, world)
  {
    var payload: Option<Payload> := None;
    match event {
      case StartEvent(game) =>
        var p := ComposeStart(riotId, game, puuid, world.leagueEntries);
        payload := Some(Started(p));
      case EndEvent(m) =>
        var e := ComposeEnd(riotId, m, puuid);
        if e.Some? {
          payload := Some(Ended(e.value));
        }
    }
    if payload.None? {
      return [];
    }
    var d := Dispatch(subs, world.channel, world.deliver);
    sent := [Notice(riotId, payload.value, d)];
  }
}
