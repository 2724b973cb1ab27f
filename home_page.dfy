/**
 * The home page's analysis form (app/page.tsx): the username check, the
 * optimistic row and the ref call that throws on it, the `POST /api/players` request and
 * its error messages, and the `isAnalyzing` flag and input around it.
 */
module HomePage {
  import opened Wrappers
  import opened Text
  import opened Json
  import opened Http
  import opened Types
  import opened Toasts
  import opened PlayersList
  import opened ProgressPolling

  const UsernameRequiredToast := Toast("Username Required", "Please enter a Chess.com username to analyze", true)

  /**
   * The optimistic row for the typed username at time `now`: the trimmed
   * username, `pending`, progress 0, no games done yet, and no total or
   * finish time.
   */
  function NewPlayer(typed: string, now: string): (p: PlayerListItem)
    ensures p.username == Trim(typed) && p.status == "pending" && p.requestedAt == Some(now)
    ensures p.progress == Some(0.0) && p.doneGames == Some(0.0)
    ensures p.totalGames == None && p.finishedAt == None
  {
    PlayerListItem(None, Trim(typed), "pending", None, None, None, Some(0.0), None, Some(0.0), Some(now), None)
  }

  /** The properties the optimistic row's object literal has of its own (`total_games` and `finished_at` are present, set to `undefined`). */
  const NewPlayerKeys: set<Field> := {Username, Status, Progress, RequestedAt, TotalGames, DoneGames, FinishedAt}

  /**
   * Once the optimistic row is upserted, the list has a `pending` row for
   * the trimmed username with progress 0 and no total, whether the player
   * was new or already listed; a listed player keeps its id and creation
   * time. The row shows its progress bar, and the list now has a pending
   * row, so polling starts if no interval is held (a held interval keeps
   * polling the list it was started with).
   */
  lemma OptimisticRowIsPending(players: seq<PlayerListItem>, typed: string, now: string)
    ensures var r := UpsertPlayer(players, NewPlayer(typed, now), NewPlayerKeys);
      exists i :: 0 <= i < |r| && r[i].username == Trim(typed) && r[i].status == "pending" &&
        r[i].progress == Some(0.0) && r[i].totalGames == None && ShowsProgressBar(r[i])
    ensures HasPending(UpsertPlayer(players, NewPlayer(typed, now), NewPlayerKeys))
    ensures forall i :: 0 <= i < |players| && players[i].username == Trim(typed) ==>
      UpsertPlayer(players, NewPlayer(typed, now), NewPlayerKeys)[i].id == players[i].id &&
      UpsertPlayer(players, NewPlayer(typed, now), NewPlayerKeys)[i].createdAt == players[i].createdAt
  {
    var n := NewPlayer(typed, now);
    var r := UpsertPlayer(players, n, NewPlayerKeys);
    if HasPlayer(players, n.username) {
      var k :| 0 <= k < |players| && players[k].username == n.username;
      SpreadValue(players[k], n, NewPlayerKeys, Status);
      SpreadValue(players[k], n, NewPlayerKeys, Progress);
      SpreadValue(players[k], n, NewPlayerKeys, TotalGames);
      assert r[k].username == Trim(typed) && r[k].status == "pending";
      forall i | 0 <= i < |players| && players[i].username == Trim(typed)
        ensures r[i].id == players[i].id && r[i].createdAt == players[i].createdAt
      {
        SpreadValue(players[i], n, NewPlayerKeys, Id);
        SpreadValue(players[i], n, NewPlayerKeys, CreatedAt);
      }
    } else {
      assert r[0] == n;
    }
  }

  /** The body of the request: the trimmed username. */
  function RequestBody(typed: string): (j: Json)
    ensures GetString(j, "username") == Some(Trim(typed))
  {
    JObject(map["username" := JString(Trim(typed))])
  }

  /** The error the request ends with, None when the analysis started (an ok answer with a JSON body). */
  function AnalyzeError(o: Outcome): (r: Option<JsError>)
    ensures r.None? <==> o.Answered? && IsOk(o.response) && o.response.body.Parsed?
    ensures o.Threw? ==> r == Some(o.error)
    ensures o.Answered? && !IsOk(o.response) ==> r == Some(Error(NotOkMessage(o.response)))
    ensures o.Answered? && IsOk(o.response) && o.response.body.NotJson? ==> r == Some(ParseError(o.response.body))
  {
    match o
    case Threw(e) => Some(e)
    case Answered(resp) =>
      if !IsOk(resp) then Some(Error(NotOkMessage(resp)))
      else
        match resp.body
        case NotJson(_) => Some(ParseError(resp.body))
        case Parsed(_) => None
  }

  predicate MentionsDuplicate(e: JsError) {
    Contains(e.message, "already exists") || Contains(e.message, "already being analyzed")
  }

  predicate MentionsMissingUser(e: JsError) {
    Contains(e.message, "not found") || Contains(e.message, "does not exist")
  }

  /**
   * The message of a failed analysis, first match wins: a timeout, a
   * network failure, a duplicate analysis, an unknown Chess.com user, and
   * otherwise the error's own message or a default. The username shown is
   * the one typed, untrimmed.
   */
  function AnalyzeErrorMessage(e: JsError, typed: string): (m: string)
    ensures m != ""
    ensures IsTimeout(e) ==> m == "Request timed out - please try again"
    ensures !IsTimeout(e) && IsNetworkFailure(e) ==> m == NetworkErrorMessage
    ensures !IsTimeout(e) && !IsNetworkFailure(e) && MentionsDuplicate(e) ==>
      m == typed + " is already being analyzed or has been analyzed"
    ensures !IsTimeout(e) && !IsNetworkFailure(e) && !MentionsDuplicate(e) && MentionsMissingUser(e) ==>
      m == "Chess.com user \"" + typed + "\" not found"
    ensures !IsTimeout(e) && !IsNetworkFailure(e) && !MentionsDuplicate(e) && !MentionsMissingUser(e) ==>
      m == MessageOr(e, UnknownErrorMessage)
  {
    if IsTimeout(e) then "Request timed out - please try again"
    else if IsNetworkFailure(e) then NetworkErrorMessage
    else if MentionsDuplicate(e) then typed + " is already being analyzed or has been analyzed"
    else if MentionsMissingUser(e) then "Chess.com user \"" + typed + "\" not found"
    else MessageOr(e, UnknownErrorMessage)
  }

  /** The toast that ends an analysis request. */
  function AnalyzeToast(typed: string, err: Option<JsError>): (t: Toast)
    ensures t.destructive <==> err.Some?
    ensures err.Some? ==> t == Toast("Analysis Failed", AnalyzeErrorMessage(err.value, typed), true)
  {
    match err
    case None => Toast("Analysis Started", "Started analyzing " + typed + ". This may take a few minutes.", false)
    case Some(e) => Toast("Analysis Failed", AnalyzeErrorMessage(e, typed), true)
  }

  /**
   * The error of calling a set `addPlayerRef.current`. The ref is only ever
   * assigned the row that `PlayersList` passes to `onPlayerAdded`, an object
   * rather than a function, so the call throws a `TypeError`.
   */
  const RefCallError := JsError("TypeError", "addPlayerRef.current is not a function")

  /**
   * How `handleAnalyze` leaves its synchronous part: refused before the
   * flag is set, failed before any request (the handler's catch and finally
   * already ran), or waiting on the request with this body.
   */
  datatype AnalyzeStart =
    | Refused(toast: Toast)
    | FailedEarly(toast: Toast)
    | Requested(body: Json)

  /** The state of the home page's form. */
  class HomePageState {
    var username: string
    var isAnalyzing: bool

    constructor ()
      ensures username == "" && !isAnalyzing
    {
      username := "";
      isAnalyzing := false;
    }

    /** Typing into the input. */
    method Type(s: string)
      modifies this`username
      ensures username == s
    {
      username := s;
    }

    /** The analyse button is disabled while analysing or while the username is blank. */
    predicate ButtonDisabled()
      reads this
    {
      isAnalyzing || IsBlank(username)
    }

    /**
     * `handleAnalyze` up to its request, with `refSet` telling
     * whether `addPlayerRef.current` is set. A blank username is refused
     * with a toast and changes nothing. Otherwise, a set ref makes the call
     * with the optimistic row throw before the request: the failure toast is
     * shown and `isAnalyzing` is back to false. With the ref unset the page
     * is analysing and the request carries the trimmed username.
     */
    method BeginAnalyze(refSet: bool) returns (start: AnalyzeStart)
      modifies this`isAnalyzing
      ensures IsBlank(username) ==> start == Refused(UsernameRequiredToast) && isAnalyzing == old(isAnalyzing)
      ensures !IsBlank(username) && refSet ==>
        !isAnalyzing && start == FailedEarly(AnalyzeToast(username, Some(RefCallError)))
      ensures !IsBlank(username) && !refSet ==>
        isAnalyzing && start == Requested(RequestBody(username))
    {
      if IsBlank(username) {
        return Refused(UsernameRequiredToast);
      }
      isAnalyzing := true;
      if refSet {
        isAnalyzing := false;
        return FailedEarly(AnalyzeToast(username, Some(RefCallError)));
      }
      start := Requested(RequestBody(username));
    }

    /**
     * `handleAnalyze` after its request, where `typed` is the username the
     * handler started with: the toast, the input cleared only on success,
     * and `isAnalyzing` false on every path.
     */
    method FinishAnalyze(typed: string, o: Outcome) returns (t: Toast)
      modifies this
      ensures !isAnalyzing
      ensures t == AnalyzeToast(typed, AnalyzeError(o))
      ensures username == if AnalyzeError(o).None? then "" else old(username)
    {
      var err := AnalyzeError(o);
      t := AnalyzeToast(typed, err);
      if err.None? {
        username := "";
      }
      isAnalyzing := false;
    }

    /** `handleKeyPress`: Enter starts an analysis unless one is running; other keys do nothing. */
    method KeyPress(key: string, refSet: bool) returns (start: Option<AnalyzeStart>)
      modifies this`isAnalyzing
      ensures start.Some? <==> key == "Enter" && !old(isAnalyzing)
      ensures start.None? ==> isAnalyzing == old(isAnalyzing)
      ensures start.Some? && !IsBlank(username) && !refSet ==> isAnalyzing && start.value.Requested?
      ensures start.Some? && !IsBlank(username) && refSet ==> !isAnalyzing && start.value.FailedEarly?
      ensures start.Some? && IsBlank(username) ==> start.value.Refused? && isAnalyzing == old(isAnalyzing)
    {
      if key == "Enter" && !isAnalyzing {
        var s := BeginAnalyze(refSet);
        start := Some(s);
      } else {
        start := None;
      }
    }
  }
}
