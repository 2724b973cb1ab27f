/**
 * The polling hook behind the players list (hooks/useProgressPolling.ts):
 * every tick it fetches the record of each player that was `pending` in the
 * list the running interval was started with, and merges the answers into
 * the current list; it holds at most one interval, started while some
 * player is pending and stopped otherwise.
 */
module ProgressPolling {
  import opened Wrappers
  import opened Json
  import opened Http
  import opened Types
  import opened PlayersList

  /**
   * `fetchPlayerProgress`: the parsed body of an ok answer, and `null` for
   * anything else (a failed status, a body that is not JSON, a thrown error).
   */
  function FetchPlayerProgress(o: Outcome): (d: Json)
    ensures o.Answered? && IsOk(o.response) && o.response.body.Parsed? ==> d == o.response.body.json
    ensures !(o.Answered? && IsOk(o.response) && o.response.body.Parsed?) ==> d == JNull
  {
    match o
    case Threw(_) => JNull
    case Answered(resp) =>
      if !IsOk(resp) then JNull
      else
        match resp.body
        case Parsed(j) => j
        case NotJson(_) => JNull
  }

  datatype ProgressUpdate = ProgressUpdate(username: string, data: Json)

  /** One entry of `Promise.allSettled`. */
  datatype Settled = Fulfilled(value: ProgressUpdate) | Rejected

  /** The first fulfilled update for username `u`, if any. */
  function FindUpdate(updates: seq<Settled>, u: string): (r: Option<ProgressUpdate>)
    ensures r.Some? ==> r.value.username == u && Fulfilled(r.value) in updates
    ensures r.None? <==>
      forall k :: 0 <= k < |updates| ==> !(updates[k].Fulfilled? && updates[k].value.username == u)
    ensures r.Some? ==>
      exists k :: 0 <= k < |updates| && updates[k] == Fulfilled(r.value) &&
        (forall j :: 0 <= j < k ==> !(updates[j].Fulfilled? && updates[j].value.username == u))
  {
    if updates == [] then None
    else if updates[0].Fulfilled? && updates[0].value.username == u then
      assert updates[0] == Fulfilled(updates[0].value);
      Some(updates[0].value)
    else
      var r := FindUpdate(updates[1..], u);
      assert forall k :: 1 <= k < |updates| ==> updates[k] == updates[1..][k - 1];
      if r.Some? then
        var k :| 0 <= k < |updates[1..]| && updates[1..][k] == Fulfilled(r.value) &&
          (forall j :: 0 <= j < k ==> !(updates[1..][j].Fulfilled? && updates[1..][j].value.username == u));
        assert updates[k + 1] == Fulfilled(r.value);
        assert forall j :: 0 <= j < k + 1 ==> !(updates[j].Fulfilled? && updates[j].value.username == u) by {
          forall j | 0 <= j < k + 1
            ensures !(updates[j].Fulfilled? && updates[j].value.username == u)
          {
            if j > 0 {
              assert updates[j] == updates[1..][j - 1];
            }
          }
        }
        r
      else
        r
  }

  /**
   * The spread that refreshes a row from the fetched record `d`: `status`,
   * `total_games`, `done_games` and `finished_at` only when the incoming
   * value is truthy, `progress` whenever the property is present (a `null`
   * clears it). Every other property is the row's own.
   */
  function MergeFields(p: PlayerListItem, d: Json): (r: PlayerListItem)
    ensures r.username == p.username && r.id == p.id && r.createdAt == p.createdAt
    ensures r.riskScore == p.riskScore && r.requestedAt == p.requestedAt && r.updateId == p.updateId
    ensures TruthyString(d, "status").None? ==> r.status == p.status
    ensures TruthyString(d, "status").Some? ==> r.status == TruthyString(d, "status").value
    ensures Get(d, "progress").None? ==> r.progress == p.progress
    ensures Get(d, "progress").Some? ==> r.progress == GetNumber(d, "progress")
    ensures TruthyNumber(d, "total_games").None? ==> r.totalGames == p.totalGames
    ensures TruthyNumber(d, "total_games").Some? ==> r.totalGames == TruthyNumber(d, "total_games")
    ensures TruthyNumber(d, "done_games").None? ==> r.doneGames == p.doneGames
    ensures TruthyNumber(d, "done_games").Some? ==> r.doneGames == TruthyNumber(d, "done_games")
    ensures TruthyString(d, "finished_at").None? ==> r.finishedAt == p.finishedAt
    ensures TruthyString(d, "finished_at").Some? ==> r.finishedAt == TruthyString(d, "finished_at")
  {
    p.(
      status := TruthyString(d, "status").GetOr(p.status),
      progress := if Get(d, "progress").Some? then GetNumber(d, "progress") else p.progress,
      totalGames := if TruthyNumber(d, "total_games").Some? then TruthyNumber(d, "total_games") else p.totalGames,
      doneGames := if TruthyNumber(d, "done_games").Some? then TruthyNumber(d, "done_games") else p.doneGames,
      finishedAt := if TruthyString(d, "finished_at").Some? then TruthyString(d, "finished_at") else p.finishedAt)
  }

  /** Applying the same record twice is applying it once. */
  lemma MergeFieldsIdempotent(p: PlayerListItem, d: Json)
    ensures MergeFields(MergeFields(p, d), d) == MergeFields(p, d)
  {
  }

  /** A `done_games` or `total_games` of 0, or a missing one, never overwrites the row's count. */
  lemma ZeroCountsNeverOverwrite(p: PlayerListItem, d: Json)
    ensures GetNumber(d, "done_games") == Some(0.0) || Get(d, "done_games").None? ==>
      MergeFields(p, d).doneGames == p.doneGames
    ensures GetNumber(d, "total_games") == Some(0.0) || Get(d, "total_games").None? ==>
      MergeFields(p, d).totalGames == p.totalGames
  {
  }

  /** The merge takes a smaller progress as it comes: progress can go backwards. */
  lemma ProgressCanRewind()
    ensures exists p: PlayerListItem, d: Json ::
      p.progress.Some? && MergeFields(p, d).progress.Some? && MergeFields(p, d).progress.value < p.progress.value
  {
    var p := PlayerListItem(None, "magnus", "pending", None, None, None, Some(60.0), None, None, None, None);
    var d := JObject(map["progress" := JNumber(40.0)]);
    assert GetNumber(d, "progress") == Some(40.0);
    assert MergeFields(p, d).progress == Some(40.0);
  }

  /** How one row comes out of a tick: refreshed from its first fulfilled update with truthy data, else as it was. */
  function MergedRow(p: PlayerListItem, updates: seq<Settled>): (r: PlayerListItem)
    ensures r.username == p.username
    ensures FindUpdate(updates, p.username).None? ==> r == p
    ensures FindUpdate(updates, p.username).Some? && !Truthy(FindUpdate(updates, p.username).value.data) ==> r == p
    ensures FindUpdate(updates, p.username).Some? && Truthy(FindUpdate(updates, p.username).value.data) ==>
      r == MergeFields(p, FindUpdate(updates, p.username).value.data)
  {
    match FindUpdate(updates, p.username)
    case Some(up) => if Truthy(up.data) then MergeFields(p, up.data) else p
    case None => p
  }

  /**
   * The `setPlayers` updater of a tick: the current list, row by row, keeps
   * its length, its order and every username; each row comes out as its
   * own first update makes it, and a row with no update is unchanged.
   */
  function MergeProgress(current: seq<PlayerListItem>, updates: seq<Settled>): (r: seq<PlayerListItem>)
    ensures |r| == |current|
    ensures forall i :: 0 <= i < |r| ==> r[i] == MergedRow(current[i], updates)
    ensures forall i :: 0 <= i < |r| ==> r[i].username == current[i].username
    ensures forall i :: 0 <= i < |r| && FindUpdate(updates, current[i].username).None? ==> r[i] == current[i]
  {
    seq(|current|, i requires 0 <= i < |current| => MergedRow(current[i], updates))
  }

  /** Merging the same answers twice is merging them once. */
  lemma MergeProgressIdempotent(current: seq<PlayerListItem>, updates: seq<Settled>)
    ensures MergeProgress(MergeProgress(current, updates), updates) == MergeProgress(current, updates)
  {
    var r := MergeProgress(current, updates);
    forall i | 0 <= i < |r|
      ensures MergeProgress(r, updates)[i] == r[i]
    {
      match FindUpdate(updates, current[i].username)
      case Some(up) =>
        if Truthy(up.data) {
          MergeFieldsIdempotent(current[i], up.data);
        }
      case None =>
    }
  }

  /** Some row is `pending`. */
  predicate HasPending(players: seq<PlayerListItem>) {
    exists i :: 0 <= i < |players| && players[i].status == "pending"
  }

  /** `players.filter(p => p.status === "pending")`, by username, in list order. */
  function PendingUsernames(players: seq<PlayerListItem>): (r: seq<string>)
    ensures r == [] <==> !HasPending(players)
    ensures forall u :: u in r <==> exists i :: 0 <= i < |players| && players[i].status == "pending" && players[i].username == u
  {
    if players == [] then []
    else
      var rest := PendingUsernames(players[1..]);
      assert forall i :: 1 <= i < |players| ==> players[i] == players[1..][i - 1];
      assert HasPending(players[1..]) ==> HasPending(players) by {
        if HasPending(players[1..]) {
          var k :| 0 <= k < |players[1..]| && players[1..][k].status == "pending";
          assert players[k + 1].status == "pending";
        }
      }
      if players[0].status == "pending" then [players[0].username] + rest else rest
  }

  /** What `Promise.allSettled` yields for the pending usernames, in their order. */
  function PollResults(pending: seq<string>, fetch: string -> Outcome): (r: seq<Settled>)
    ensures |r| == |pending|
    ensures forall k :: 0 <= k < |r| ==> r[k] == Fulfilled(ProgressUpdate(pending[k], FetchPlayerProgress(fetch(pending[k]))))
  {
    seq(|pending|, k requires 0 <= k < |pending| => Fulfilled(ProgressUpdate(pending[k], FetchPlayerProgress(fetch(pending[k])))))
  }

  /** An answer is found for a username exactly when that username was polled. */
  lemma PollResultsFound(pending: seq<string>, fetch: string -> Outcome, u: string)
    ensures FindUpdate(PollResults(pending, fetch), u).Some? <==> u in pending
    ensures u in pending ==> FindUpdate(PollResults(pending, fetch), u).value.data == FetchPlayerProgress(fetch(u))
  {
    var r := PollResults(pending, fetch);
    if u in pending {
      var k :| 0 <= k < |pending| && pending[k] == u;
      assert r[k].Fulfilled? && r[k].value.username == u;
    }
  }

  /**
   * One tick of `updatePlayersProgress`. `polled` is the list the interval's
   * callback was created with, `current` the list when the answers arrive,
   * and `fetch` the outcome of the request for each username. With no
   * pending player in `polled` there is no update at all.
   */
  function PollTick(polled: seq<PlayerListItem>, current: seq<PlayerListItem>, fetch: string -> Outcome): (r: Option<seq<PlayerListItem>>)
    ensures r.None? <==> !HasPending(polled)
    ensures r.Some? ==> |r.value| == |current|
    ensures r.Some? ==> forall i :: 0 <= i < |current| ==> r.value[i].username == current[i].username
  {
    var pending := PendingUsernames(polled);
    if pending == [] then None else Some(MergeProgress(current, PollResults(pending, fetch)))
  }

  /**
   * A row whose username was not pending when the interval started comes
   * out of the tick unchanged; in particular a player added after polling
   * began is not refreshed by that interval.
   */
  lemma UnpolledRowsUnchanged(polled: seq<PlayerListItem>, current: seq<PlayerListItem>, fetch: string -> Outcome, i: int)
    requires HasPending(polled)
    requires 0 <= i < |current|
    requires current[i].username !in PendingUsernames(polled)
    ensures PollTick(polled, current, fetch).value[i] == current[i]
  {
    PollResultsFound(PendingUsernames(polled), fetch, current[i].username);
  }

  /** With unique usernames and an up-to-date list, only `pending` rows can change. */
  lemma OnlyPendingRowsChange(players: seq<PlayerListItem>, fetch: string -> Outcome, i: int)
    requires UniqueUsernames(players)
    requires HasPending(players)
    requires 0 <= i < |players| && players[i].status != "pending"
    ensures PollTick(players, players, fetch).value[i] == players[i]
  {
    forall j | 0 <= j < |players| && players[j].status == "pending"
      ensures players[j].username != players[i].username
    {
      assert i != j;
    }
    UnpolledRowsUnchanged(players, players, fetch, i);
  }

  /** A pending row whose record comes back ok with a numeric progress takes that progress. */
  lemma PolledProgressApplied(players: seq<PlayerListItem>, fetch: string -> Outcome, i: int)
    requires 0 <= i < |players| && players[i].status == "pending"
    requires var d := FetchPlayerProgress(fetch(players[i].username)); Truthy(d) && GetNumber(d, "progress").Some?
    ensures PollTick(players, players, fetch).Some?
    ensures PollTick(players, players, fetch).value[i].progress ==
      GetNumber(FetchPlayerProgress(fetch(players[i].username)), "progress")
  {
    PollResultsFound(PendingUsernames(players), fetch, players[i].username);
  }

  /**
   * A pending row whose record comes back ok with a non-empty `status`
   * takes that status; an answer `{status: "completed"}` moves the row out
   * of `pending`, so its stop button and progress bar go.
   */
  lemma PolledStatusApplied(players: seq<PlayerListItem>, fetch: string -> Outcome, i: int)
    requires 0 <= i < |players| && players[i].status == "pending"
    requires TruthyString(FetchPlayerProgress(fetch(players[i].username)), "status").Some?
    ensures PollTick(players, players, fetch).Some?
    ensures PollTick(players, players, fetch).value[i].status ==
      TruthyString(FetchPlayerProgress(fetch(players[i].username)), "status").value
    ensures TruthyString(FetchPlayerProgress(fetch(players[i].username)), "status").value != "pending" ==>
      !ShowsStopButton(PollTick(players, players, fetch).value[i]) &&
      !ShowsProgressBar(PollTick(players, players, fetch).value[i])
  {
    PollResultsFound(PendingUsernames(players), fetch, players[i].username);
  }

  const DefaultIntervalMs := 2000

  /**
   * The hook's state: the `isPolling` flag, the interval handle in
   * `intervalRef`, the intervals the timer system still runs, and the list
   * the running interval's callback closes over.
   */
  class Poller {
    var isPolling: bool
    var intervalRef: Option<nat>
    var liveIntervals: set<nat>
    var nextHandle: nat
    var polled: seq<PlayerListItem>
    const intervalMs: nat

    /** The flag mirrors the handle, and the only running interval is the one held. */
    predicate Valid()
      reads this
    {
      isPolling == intervalRef.Some? &&
      (intervalRef.None? ==> liveIntervals == {}) &&
      (intervalRef.Some? ==> liveIntervals == {intervalRef.value} && intervalRef.value < nextHandle) &&
      nextHandle > 0
    }

    constructor (intervalMs: nat)
      ensures Valid()
      ensures !isPolling && intervalRef == None && liveIntervals == {}
      ensures this.intervalMs == intervalMs
    {
      isPolling := false;
      intervalRef := None;
      liveIntervals := {};
      nextHandle := 1;
      polled := [];
      this.intervalMs := intervalMs;
    }

    /** `startPolling`: does nothing while an interval is held, else starts one over `players`. */
    method StartPolling(players: seq<PlayerListItem>)
      requires Valid()
      modifies this
      ensures Valid()
      ensures isPolling && intervalRef.Some? && |liveIntervals| == 1
      ensures old(intervalRef).Some? ==>
        intervalRef == old(intervalRef) && liveIntervals == old(liveIntervals) &&
        polled == old(polled) && nextHandle == old(nextHandle)
      ensures old(intervalRef).None? ==>
        intervalRef == Some(old(nextHandle)) && liveIntervals == {old(nextHandle)} &&
        polled == players && nextHandle == old(nextHandle) + 1
    {
      if intervalRef.Some? {
        return;
      }
      isPolling := true;
      intervalRef := Some(nextHandle);
      liveIntervals := liveIntervals + {nextHandle};
      polled := players;
      nextHandle := nextHandle + 1;
    }

    /** `stopPolling`: clears the held interval, if any, and the flag. */
    method StopPolling()
      requires Valid()
      modifies this
      ensures Valid()
      ensures !isPolling && intervalRef == None && liveIntervals == {}
      ensures polled == old(polled) && nextHandle == old(nextHandle)
    {
      if intervalRef.Some? {
        liveIntervals := liveIntervals - {intervalRef.value};
        intervalRef := None;
      }
      isPolling := false;
    }

    /**
     * The effect that runs after every render: afterwards the hook polls
     * exactly when some player is `pending`, and an interval already held
     * is kept (with the list it was started over).
     */
    method SyncWithPlayers(players: seq<PlayerListItem>)
      requires Valid()
      modifies this
      ensures Valid()
      ensures isPolling == HasPending(players)
      ensures HasPending(players) && old(intervalRef).Some? ==>
        intervalRef == old(intervalRef) && polled == old(polled)
      ensures HasPending(players) && old(intervalRef).None? ==>
        polled == players && intervalRef == Some(old(nextHandle))
      ensures !HasPending(players) ==> polled == old(polled)
    {
      var hasPending := exists i :: 0 <= i < |players| && players[i].status == "pending";
      if hasPending && !isPolling {
        StartPolling(players);
      } else if !hasPending && isPolling {
        StopPolling();
      }
    }

    /** Unmounting always stops. */
    method Unmount()
      requires Valid()
      modifies this
      ensures Valid()
      ensures !isPolling && intervalRef == None && liveIntervals == {}
    {
      StopPolling();
    }

    /** One firing of the held interval, given the list when the answers arrive. */
    method Tick(current: seq<PlayerListItem>, fetch: string -> Outcome) returns (r: Option<seq<PlayerListItem>>)
      requires Valid() && intervalRef.Some?
      ensures r == PollTick(polled, current, fetch)
      ensures r.None? <==> !HasPending(polled)
    {
      var pending := PendingUsernames(polled);
      if |pending| == 0 {
        return None;
      }
      var results := PollResults(pending, fetch);
      r := Some(MergeProgress(current, results));
    }
  }
}
