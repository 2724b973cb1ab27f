/**
 * The single-player query hook (hooks/usePlayer.ts): when it polls, when it
 * subscribes to the event stream, how a stream event is folded into the
 * cached player, and the values it derives from the cache.
 */
module UsePlayer {
  import opened Wrappers
  import opened Types

  /** `!!username`: the query runs only for a non-empty username. */
  predicate QueryEnabled(username: Option<string>) {
    username.Some? && username.value != ""
  }

  /** `refetchInterval`: poll every 5000 ms while the cached player is `pending`, else not at all. */
  function RefetchInterval(data: Option<Player>): (r: Option<nat>)
    ensures r.Some? <==> IsAnalyzing(data)
    ensures r.Some? ==> r.value == 5000
  {
    if data.Some? && data.value.status == "pending" then Some(5000) else None
  }

  /**
   * The username handed to the stream hook: the username itself when it is
   * non-empty and the cached player is `pending`, else `null`.
   */
  function StreamUsername(username: Option<string>, data: Option<Player>): (r: Option<string>)
    ensures r.Some? <==> QueryEnabled(username) && IsAnalyzing(data)
    ensures r.Some? ==> r == username
  {
    if username.Some? && username.value != "" && data.Some? && data.value.status == "pending" then username
    else None
  }

  /** `isAnalyzing`: the cached player is `pending`. */
  predicate IsAnalyzing(data: Option<Player>) {
    data.Some? && data.value.status == "pending"
  }

  /** `progress`: the cached `analysis_progress`, or 0 when there is no player or no progress. */
  function Progress(data: Option<Player>): (r: real)
    ensures data.Some? && data.value.analysisProgress.Some? ==> r == data.value.analysisProgress.value
    ensures data.None? || data.value.analysisProgress.None? ==> r == 0.0
  {
    if data.Some? then data.value.analysisProgress.GetOr(0.0) else 0.0
  }

  /**
   * The `setQueryData` updater for a stream event received at time `now`.
   * No cached player stays none. Otherwise `updated_at` becomes `now`,
   * `progress` and `games_analyzed` are copied whenever defined, `status`
   * and `error` only when truthy, and the rest of the cache is kept.
   */
  function ApplyStreamEvent(cached: Option<Player>, ev: StreamEvent, now: string): (r: Option<Player>)
    ensures r.None? <==> cached.None?
    ensures r.Some? ==> r.value.updatedAt == Some(now) && r.value.username == cached.value.username
    ensures r.Some? ==> r.value.analysisProgress == if ev.data.progress.Some? then ev.data.progress else cached.value.analysisProgress
    ensures r.Some? ==> r.value.gamesCount == if ev.data.gamesAnalyzed.Some? then ev.data.gamesAnalyzed else cached.value.gamesCount
    ensures r.Some? && (ev.data.status.None? || ev.data.status.value == "") ==> r.value.status == cached.value.status
    ensures r.Some? && (ev.data.error.None? || ev.data.error.value == "") ==> r.value.error == cached.value.error
  {
    match cached
    case None => None
    case Some(p) =>
      var withProgress := if ev.data.progress.Some? then p.(analysisProgress := ev.data.progress) else p;
      var withStatus :=
        if ev.data.status.Some? && ev.data.status.value != "" then withProgress.(status := ev.data.status.value)
        else withProgress;
      var withError :=
        if ev.data.error.Some? && ev.data.error.value != "" then withStatus.(error := ev.data.error)
        else withStatus;
      var withGames := if ev.data.gamesAnalyzed.Some? then withError.(gamesCount := ev.data.gamesAnalyzed) else withError;
      Some(withGames.(updatedAt := Some(now)))
  }

  /** The cached player agrees with every property the event defines (truthy ones for `status` and `error`). */
  predicate Reflects(p: Player, ev: StreamEvent) {
    (ev.data.progress.Some? ==> p.analysisProgress == ev.data.progress) &&
    (ev.data.gamesAnalyzed.Some? ==> p.gamesCount == ev.data.gamesAnalyzed) &&
    (ev.data.status.Some? && ev.data.status.value != "" ==> p.status == ev.data.status.value) &&
    (ev.data.error.Some? && ev.data.error.value != "" ==> p.error == ev.data.error)
  }

  /** After the updater the cache reflects the event, and a cache that already did is only re-stamped. */
  lemma ApplyReflects(cached: Option<Player>, ev: StreamEvent, now: string)
    requires cached.Some?
    ensures Reflects(ApplyStreamEvent(cached, ev, now).value, ev)
    ensures Reflects(cached.value, ev) ==> ApplyStreamEvent(cached, ev, now) == Some(cached.value.(updatedAt := Some(now)))
  {
  }

  /** Folding the same event in twice is folding it in once. */
  lemma ApplyIdempotent(cached: Option<Player>, ev: StreamEvent, now: string)
    ensures ApplyStreamEvent(ApplyStreamEvent(cached, ev, now), ev, now) == ApplyStreamEvent(cached, ev, now)
  {
    if cached.Some? {
      ApplyReflects(cached, ev, now);
      ApplyReflects(ApplyStreamEvent(cached, ev, now), ev, now);
    }
  }

  /** What the effect does with the latest event: the new cache and whether it asks the query to refetch. */
  datatype EffectOutcome = EffectOutcome(cache: Option<Player>, refetch: bool)

  /**
   * The effect on `[lastEvent, username]`: without an event or a username
   * it does nothing; otherwise it folds the event into the cache and
   * refetches after a `completed` event.
   */
  function OnStreamEvent(username: Option<string>, lastEvent: Option<StreamEvent>, cached: Option<Player>, now: string): (r: EffectOutcome)
    ensures lastEvent.None? || !QueryEnabled(username) ==> r == EffectOutcome(cached, false)
    ensures lastEvent.Some? && QueryEnabled(username) ==>
      r.cache == ApplyStreamEvent(cached, lastEvent.value, now) && (r.refetch <==> lastEvent.value.kind == "completed")
  {
    if lastEvent.None? || !QueryEnabled(username) then EffectOutcome(cached, false)
    else EffectOutcome(ApplyStreamEvent(cached, lastEvent.value, now), lastEvent.value.kind == "completed")
  }

  /** While the stream is subscribed the query also polls every 5000 ms: the two run together. */
  lemma StreamImpliesPolling(username: Option<string>, data: Option<Player>)
    requires StreamUsername(username, data).Some?
    ensures RefetchInterval(data) == Some(5000)
  {
  }

  /**
   * An event whose truthy status is not `pending` ends both the polling and
   * the subscription once it is in the cache.
   */
  lemma LeavingPendingStopsUpdates(username: Option<string>, cached: Option<Player>, ev: StreamEvent, now: string)
    requires cached.Some?
    requires ev.data.status.Some? && ev.data.status.value != "" && ev.data.status.value != "pending"
    ensures RefetchInterval(ApplyStreamEvent(cached, ev, now)).None?
    ensures StreamUsername(username, ApplyStreamEvent(cached, ev, now)).None?
    ensures !IsAnalyzing(ApplyStreamEvent(cached, ev, now))
  {
  }
}
