/**
 * The per-player match-state machine of the polling loop: the stored
 * `last_game_id` against a fresh live-game probe, and the correlation of an
 * ended game with the player's latest match.
 */
module Tracker {
  import opened Common
  import opened Text
  import opened Gateway

  /** What one probe means for one tracked player. */
  datatype Transition =
    | NoOp
    | Begin(gameId: string)     // a live game not yet recorded: store its id, announce a start
    | Finish(previous: string)  // no live game while one was recorded: clear it, maybe announce an end

  /**
   * Compares the stored id with the probe (`None` when there is no live game).
   * A different live id is a start (no end is synthesised for the old game);
   * an absent probe ends a game only when the stored id is truthy.
   */
  function Decide(last: Option<string>, live: Option<string>): (t: Transition)
    ensures t.Begin? <==> live.Some? && last != live
    ensures t.Begin? ==> live == Some(t.gameId)
    ensures t.Finish? <==> live.None? && Truthy(last)
    ensures t.Finish? ==> last == Some(t.previous)
  {
    match live
    case Some(g) => if last != Some(g) then Begin(g) else NoOp
    case None => if Truthy(last) then Finish(last.value) else NoOp
  }

  /** The stored `last_game_id` after the transition has been persisted. */
  function Stored(last: Option<string>, t: Transition): Option<string> {
    match t
    case NoOp => last
    case Begin(g) => Some(g)
    case Finish(_) => None
  }

  /**
   * Deciding again on the same probe after persisting is a no-op: the
   * machine never reports the same start or end twice.
   */
  lemma DecideIdempotent(last: Option<string>, live: Option<string>)
    ensures Decide(Stored(last, Decide(last, live)), live) == NoOp
  {
  }

  /** After persisting, the stored id agrees with the probe, or the probe is absent and nothing truthy is stored. */
  lemma StoredFollowsProbe(last: Option<string>, live: Option<string>)
    ensures live.Some? ==> Stored(last, Decide(last, live)) == live
    ensures live.None? ==> !Truthy(Stored(last, Decide(last, live)))
  {
  }

  /**
   * `cleanup_and_get_match`: the latest match id (history of length 1) is
   * accepted when it contains the stored game id as a substring, and then its
   * details are fetched. Any error along the way, an empty history or no
   * correlation gives `None`.
   */
  function CorrelateMatch(history: Answer<seq<string>>, details: string -> Answer<MatchDetail>, gameId: string)
    : (r: Option<MatchDetail>)
    ensures r.Some? <==>
      && history.Found? && |history.value| > 0
      && (exists k: nat :: OccursAt(history.value[0], gameId, k))
      && details(history.value[0]).Found?
    ensures r.Some? ==> r == Some(details(history.value[0]).value)
  {
    if history.Found? && |history.value| > 0 then
      var latest := history.value[0];
      if Contains(latest, gameId) && details(latest).Found? then Some(details(latest).value) else None
    else None
  }
}
