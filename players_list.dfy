/**
 * The dashboard's list of analysed players (components/players-list.tsx):
 * the upsert that adds or refreshes a row, the filter that drops a stopped or
 * deleted player, how a `GET /api/players` outcome becomes the list or an
 * error, the error messages of each request, the row display rules, and the
 * component's state with the guards of its click, stop and delete handlers.
 */
module PlayersList {
  import opened Wrappers
  import opened Text
  import opened Json
  import opened Http
  import opened Types
  import opened Toasts

  // ------------------------------------------------------------------
  // The list and its two transforms
  // ------------------------------------------------------------------

  /** Some row of `players` has username `u`. */
  predicate HasPlayer(players: seq<PlayerListItem>, u: string) {
    exists i :: 0 <= i < |players| && players[i].username == u
  }

  /** No two rows share a username. */
  predicate UniqueUsernames(players: seq<PlayerListItem>) {
    forall i, j :: 0 <= i < j < |players| ==> players[i].username != players[j].username
  }

  /**
   * `{ ...p, ...n }`, where `keys` are the properties `n` has of its own:
   * each property comes from `n` when `n` has it and from `p` otherwise.
   */
  function Spread(p: PlayerListItem, n: PlayerListItem, keys: set<Field>): PlayerListItem {
    PlayerListItem(
      if Id in keys then n.id else p.id,
      if Username in keys then n.username else p.username,
      if Status in keys then n.status else p.status,
      if CreatedAt in keys then n.createdAt else p.createdAt,
      if FinishedAt in keys then n.finishedAt else p.finishedAt,
      if RiskScore in keys then n.riskScore else p.riskScore,
      if Progress in keys then n.progress else p.progress,
      if TotalGames in keys then n.totalGames else p.totalGames,
      if DoneGames in keys then n.doneGames else p.doneGames,
      if RequestedAt in keys then n.requestedAt else p.requestedAt,
      if UpdateId in keys then n.updateId else p.updateId)
  }

  /** Each property of the spread comes from `n` exactly when `n` has it. */
  lemma SpreadValue(p: PlayerListItem, n: PlayerListItem, keys: set<Field>, f: Field)
    ensures ValueOf(Spread(p, n, keys), f) == if f in keys then ValueOf(n, f) else ValueOf(p, f)
  {
  }

  /** Spreading the same record twice is spreading it once. */
  lemma SpreadIdempotent(p: PlayerListItem, n: PlayerListItem, keys: set<Field>)
    ensures Spread(Spread(p, n, keys), n, keys) == Spread(p, n, keys)
  {
    forall f
      ensures ValueOf(Spread(Spread(p, n, keys), n, keys), f) == ValueOf(Spread(p, n, keys), f)
    {
      SpreadValue(Spread(p, n, keys), n, keys, f);
      SpreadValue(p, n, keys, f);
    }
    RowExtensionality(Spread(Spread(p, n, keys), n, keys), Spread(p, n, keys));
  }

  /**
   * `addPlayer`'s updater: a player whose username is new goes to the front
   * and the old rows follow in their order; otherwise the list keeps its
   * length, every row with that username takes the new record's own
   * properties over its old ones, and every other row is left as it was.
   * Either way the username is in the list afterwards. `keys` names the
   * properties `n` has of its own; callers leave every other field of `n`
   * absent (None), as a JavaScript object literal lacks them, so a new row
   * `r[0] == n` carries only those properties.
   */
  function UpsertPlayer(players: seq<PlayerListItem>, n: PlayerListItem, keys: set<Field>): (r: seq<PlayerListItem>)
    ensures HasPlayer(r, n.username)
    ensures !HasPlayer(players, n.username) ==> |r| == |players| + 1 && r[0] == n && r[1..] == players
    ensures HasPlayer(players, n.username) ==> |r| == |players|
    ensures HasPlayer(players, n.username) ==>
      forall i :: 0 <= i < |players| ==>
        r[i].username == players[i].username &&
        (players[i].username != n.username ==> r[i] == players[i])
    ensures HasPlayer(players, n.username) ==>
      forall i, f :: 0 <= i < |players| && players[i].username == n.username ==>
        ValueOf(r[i], f) == if f in keys then ValueOf(n, f) else ValueOf(players[i], f)
  {
    if HasPlayer(players, n.username) then
      var r := seq(|players|, i requires 0 <= i < |players| =>
        if players[i].username == n.username then Spread(players[i], n, keys) else players[i]);
      assert HasPlayer(r, n.username) by {
        var k :| 0 <= k < |players| && players[k].username == n.username;
        assert r[k].username == n.username;
      }
      assert forall i, f :: 0 <= i < |players| && players[i].username == n.username ==>
        ValueOf(r[i], f) == if f in keys then ValueOf(n, f) else ValueOf(players[i], f) by {
        forall i, f | 0 <= i < |players| && players[i].username == n.username
          ensures ValueOf(r[i], f) == if f in keys then ValueOf(n, f) else ValueOf(players[i], f)
        {
          SpreadValue(players[i], n, keys, f);
        }
      }
      r
    else
      var r := [n] + players;
      assert r[0].username == n.username;
      r
  }

  /** `addPlayer` keeps usernames unique. */
  lemma UpsertKeepsUnique(players: seq<PlayerListItem>, n: PlayerListItem, keys: set<Field>)
    requires UniqueUsernames(players)
    ensures UniqueUsernames(UpsertPlayer(players, n, keys))
  {
    var r := UpsertPlayer(players, n, keys);
    if !HasPlayer(players, n.username) {
      forall i, j | 0 <= i < j < |r|
        ensures r[i].username != r[j].username
      {
        assert r[j] == players[j - 1];
        if i > 0 {
          assert r[i] == players[i - 1];
        }
      }
    }
  }

  /** Adding the same record twice leaves the list as adding it once. */
  lemma UpsertIdempotent(players: seq<PlayerListItem>, n: PlayerListItem, keys: set<Field>)
    ensures UpsertPlayer(UpsertPlayer(players, n, keys), n, keys) == UpsertPlayer(players, n, keys)
  {
    var r := UpsertPlayer(players, n, keys);
    var s := UpsertPlayer(r, n, keys);
    if HasPlayer(players, n.username) {
      forall i | 0 <= i < |r|
        ensures s[i] == r[i]
      {
        if r[i].username == n.username {
          SpreadIdempotent(players[i], n, keys);
        }
      }
    } else {
      forall i | 0 <= i < |r|
        ensures s[i] == r[i]
      {
        if i == 0 {
          forall f
            ensures ValueOf(s[0], f) == ValueOf(r[0], f)
          {
            SpreadValue(n, n, keys, f);
          }
          RowExtensionality(s[0], r[0]);
        } else {
          assert r[i] == players[i - 1];
        }
      }
    }
  }

  /**
   * `prevPlayers.filter(player => player.username !== u)`: the rows whose
   * username is not `u`, no others.
   */
  function WithoutPlayer(players: seq<PlayerListItem>, u: string): (r: seq<PlayerListItem>)
    ensures |r| <= |players|
    ensures forall p :: p in r <==> p in players && p.username != u
  {
    if players == [] then []
    else if players[0].username == u then WithoutPlayer(players[1..], u)
    else [players[0]] + WithoutPlayer(players[1..], u)
  }

  /** The filter works row by row: it keeps the surviving rows in their order. */
  lemma {:induction false} WithoutPlayerConcat(a: seq<PlayerListItem>, b: seq<PlayerListItem>, u: string)
    ensures WithoutPlayer(a + b, u) == WithoutPlayer(a, u) + WithoutPlayer(b, u)
  {
    if a == [] {
      assert a + b == b;
    } else {
      assert (a + b)[0] == a[0];
      assert (a + b)[1..] == a[1..] + b;
      WithoutPlayerConcat(a[1..], b, u);
    }
  }

  /** A list without username `u` passes the filter unchanged. */
  lemma {:induction false} WithoutAbsentPlayer(players: seq<PlayerListItem>, u: string)
    requires !HasPlayer(players, u)
    ensures WithoutPlayer(players, u) == players
  {
    if players != [] {
      assert players[0].username != u;
      forall k | 0 <= k < |players[1..]|
        ensures players[1..][k].username != u
      {
        assert players[1..][k] == players[k + 1];
      }
      WithoutAbsentPlayer(players[1..], u);
    }
  }

  /** Stopping or deleting the same player twice is doing it once. */
  lemma WithoutPlayerIdempotent(players: seq<PlayerListItem>, u: string)
    ensures WithoutPlayer(WithoutPlayer(players, u), u) == WithoutPlayer(players, u)
  {
    var r := WithoutPlayer(players, u);
    forall k | 0 <= k < |r|
      ensures r[k].username != u
    {
      assert r[k] in r;
    }
    WithoutAbsentPlayer(r, u);
  }

  /** Putting a row in front of a list keeps usernames unique when no row of the list shares its username. */
  lemma UniqueCons(x: PlayerListItem, w: seq<PlayerListItem>)
    requires UniqueUsernames(w)
    requires forall p :: p in w ==> p.username != x.username
    ensures UniqueUsernames([x] + w)
  {
    var r := [x] + w;
    forall i, j | 0 <= i < j < |r|
      ensures r[i].username != r[j].username
    {
      assert r[j] == w[j - 1];
      if i == 0 {
        assert w[j - 1] in w;
      } else {
        assert r[i] == w[i - 1];
      }
    }
  }

  /** The filter keeps usernames unique. */
  lemma {:induction false} WithoutPlayerKeepsUnique(players: seq<PlayerListItem>, u: string)
    requires UniqueUsernames(players)
    ensures UniqueUsernames(WithoutPlayer(players, u))
  {
    if players != [] {
      var rest := players[1..];
      assert UniqueUsernames(rest) by {
        forall i, j | 0 <= i < j < |rest|
          ensures rest[i].username != rest[j].username
        {
          assert rest[i] == players[i + 1] && rest[j] == players[j + 1];
        }
      }
      WithoutPlayerKeepsUnique(rest, u);
      if players[0].username != u {
        var w := WithoutPlayer(rest, u);
        forall p | p in w
          ensures p.username != players[0].username
        {
          var k :| 0 <= k < |rest| && rest[k] == p;
          assert players[k + 1] == p;
        }
        UniqueCons(players[0], w);
      }
    }
  }

  // ------------------------------------------------------------------
  // Loading the list: `fetchPlayers`
  // ------------------------------------------------------------------

  const InvalidFormatMessage := "Invalid response format: expected array"

  /** Which branch stored the list: an empty array, a list that passed the schema, or raw data that did not. */
  datatype LoadPath = EmptyList | Validated | Unvalidated

  datatype ListFetch = Loaded(items: seq<PlayerListItem>, path: LoadPath) | Failed(error: JsError)

  /**
   * What one `GET /api/players` outcome amounts to. The list is loaded
   * exactly when the answer is ok and its body is a JSON array; a body that
   * is JSON but not an array is the "expected array" error. An array that
   * fails the schema is still stored, row for row.
   */
  function ListFetchOf(o: Outcome): (r: ListFetch)
    ensures r.Loaded? <==>
      o.Answered? && IsOk(o.response) && o.response.body.Parsed? && o.response.body.json.JArray?
    ensures o.Threw? ==> r == Failed(o.error)
    ensures o.Answered? && !IsOk(o.response) ==> r == Failed(Error(NotOkMessage(o.response)))
    ensures o.Answered? && IsOk(o.response) && o.response.body.Parsed? && !o.response.body.json.JArray? ==>
      r == Failed(Error(InvalidFormatMessage))
    ensures o.Answered? && IsOk(o.response) && o.response.body.NotJson? ==> r == Failed(ParseError(o.response.body))
    ensures r.Loaded? ==>
      var data := o.response.body.json.items;
      |r.items| == |data| && (forall i :: 0 <= i < |data| ==> r.items[i] == ItemOfJson(data[i])) &&
      (r.path == EmptyList <==> data == []) &&
      (r.path == Validated <==> data != [] && IsPlayerListItemArray(o.response.body.json))
  {
    match o
    case Threw(e) => Failed(e)
    case Answered(resp) =>
      if !IsOk(resp) then Failed(Error(NotOkMessage(resp)))
      else
        match resp.body
        case NotJson(_) => Failed(ParseError(resp.body))
        case Parsed(data) =>
          if !data.JArray? then Failed(Error(InvalidFormatMessage))
          else if |data.items| == 0 then Loaded([], EmptyList)
          else
            var rows := seq(|data.items|, i requires 0 <= i < |data.items| => ItemOfJson(data.items[i]));
            Loaded(rows, if IsPlayerListItemArray(data) then Validated else Unvalidated)
  }

  const NetworkErrorMessage := "Network error - unable to connect to API"
  const UnknownErrorMessage := "Unknown error occurred"
  const ListTimeoutMessage := "Request timed out - backend may be slow or unavailable"

  /**
   * The message `fetchPlayers` shows for an error: a timeout first, then a
   * network failure, then the error's own message or a default. The branch
   * for messages mentioning "backend" picks the message itself, which the
   * last branch would pick anyway.
   */
  function FetchErrorMessage(e: JsError): (m: string)
    ensures m != ""
    ensures IsTimeout(e) ==> m == ListTimeoutMessage
    ensures !IsTimeout(e) && IsNetworkFailure(e) ==> m == NetworkErrorMessage
    ensures !IsTimeout(e) && !IsNetworkFailure(e) ==> m == MessageOr(e, UnknownErrorMessage)
  {
    if IsTimeout(e) then ListTimeoutMessage
    else if IsNetworkFailure(e) then NetworkErrorMessage
    else if Contains(e.message, "backend") then
      ContainsNonEmpty(e.message, "backend");
      e.message
    else MessageOr(e, UnknownErrorMessage)
  }

  const RestoredToast := Toast("Connection Restored", "Successfully loaded players", false)

  /** The toast for a failed load: destructive, titled "Error Loading Players", with the classified message. */
  function LoadErrorToast(e: JsError): (t: Toast)
    ensures t.title == "Error Loading Players" && t.destructive && t.description != ""
    ensures t.description == FetchErrorMessage(e)
  {
    Toast("Error Loading Players", FetchErrorMessage(e), true)
  }

  // ------------------------------------------------------------------
  // Clicking a row: `handlePlayerClick`
  // ------------------------------------------------------------------

  /** `players.find(p => p.username === u)`: the first row with that username. */
  function FindPlayer(players: seq<PlayerListItem>, u: string): (r: Option<PlayerListItem>)
    ensures r.Some? <==> HasPlayer(players, u)
    ensures r.Some? ==> r.value.username == u
    ensures r.Some? ==>
      exists i :: 0 <= i < |players| && players[i] == r.value && (forall j :: 0 <= j < i ==> players[j].username != u)
  {
    if players == [] then None
    else if players[0].username == u then
      assert players[0] == players[0];
      Some(players[0])
    else
      var r := FindPlayer(players[1..], u);
      assert HasPlayer(players, u) ==> HasPlayer(players[1..], u) by {
        if HasPlayer(players, u) {
          var k :| 0 <= k < |players| && players[k].username == u;
          assert players[1..][k - 1].username == u;
        }
      }
      assert HasPlayer(players[1..], u) ==> HasPlayer(players, u) by {
        if HasPlayer(players[1..], u) {
          var k :| 0 <= k < |players[1..]| && players[1..][k].username == u;
          assert players[k + 1].username == u;
        }
      }
      if r.Some? then
        var i :| 0 <= i < |players[1..]| && players[1..][i] == r.value &&
          (forall j :: 0 <= j < i ==> players[1..][j].username != u);
        assert players[i + 1] == r.value;
        assert forall j :: 0 <= j < i + 1 ==> players[j].username != u by {
          forall j | 0 <= j < i + 1
            ensures players[j].username != u
          {
            if j > 0 {
              assert players[j] == players[1..][j - 1];
            }
          }
        }
        r
      else
        r
  }

  datatype ClickStart =
    | AlreadyLoading
    | StillAnalyzing(username: string, progress: real)
    | MetricsRequested(path: string)

  /**
   * What a click on row `u` starts with: nothing while that player's
   * metrics are already loading; the "still analysing" toast (with the row's
   * progress, 0 when it has none) when the row is `pending`; otherwise the
   * request for its metrics.
   */
  function ClickStartOf(loadingPlayer: Option<string>, players: seq<PlayerListItem>, u: string): (r: ClickStart)
    ensures r.AlreadyLoading? <==> loadingPlayer == Some(u)
    ensures r.StillAnalyzing? <==>
      loadingPlayer != Some(u) && FindPlayer(players, u).Some? && FindPlayer(players, u).value.status == "pending"
    ensures r.MetricsRequested? <==>
      loadingPlayer != Some(u) &&
      !(FindPlayer(players, u).Some? && FindPlayer(players, u).value.status == "pending")
    ensures r.MetricsRequested? ==> r.path == "/api/metrics/player/" + u
    ensures r.StillAnalyzing? ==>
      r.username == u && HasPlayer(players, u) && r.progress == FindPlayer(players, u).value.progress.GetOr(0.0)
  {
    if loadingPlayer == Some(u) then AlreadyLoading
    else
      match FindPlayer(players, u)
      case Some(p) =>
        if p.status == "pending" then StillAnalyzing(u, if p.progress.Some? && p.progress.value != 0.0 then p.progress.value else 0.0)
        else MetricsRequested("/api/metrics/player/" + u)
      case None => MetricsRequested("/api/metrics/player/" + u)
  }

  const NotAnalyzedPhrase := "not found or not analyzed yet"

  /**
   * The error a metrics request ends with, None when the page navigates.
   * A 404 becomes the "not found or not analyzed yet" error; an ok answer
   * whose body is not JSON is the parser's error.
   */
  function ClickError(u: string, o: Outcome): (r: Option<JsError>)
    ensures r.None? <==> o.Answered? && IsOk(o.response) && o.response.body.Parsed?
    ensures o.Answered? && o.response.status == 404 ==>
      r == Some(Error("Player '" + u + "' " + NotAnalyzedPhrase))
    ensures o.Answered? && !IsOk(o.response) && o.response.status != 404 ==> r == Some(Error(NotOkMessage(o.response)))
    ensures o.Answered? && IsOk(o.response) && o.response.body.NotJson? ==> r == Some(ParseError(o.response.body))
    ensures o.Threw? ==> r == Some(o.error)
  {
    match o
    case Threw(e) => Some(e)
    case Answered(resp) =>
      if !IsOk(resp) then
        if resp.status == 404 then Some(Error("Player '" + u + "' " + NotAnalyzedPhrase))
        else Some(Error(NotOkMessage(resp)))
      else
        match resp.body
        case NotJson(_) => Some(ParseError(resp.body))
        case Parsed(_) => None
  }

  const ClickTimeoutMessage := "Request timed out - player data may be loading"

  /**
   * The toast for a failed metrics request. Only the "not analyzed yet"
   * case uses the gentle style; every toast is titled "Error Loading Player"
   * and says something.
   */
  function ClickErrorToast(u: string, e: JsError): (t: Toast)
    ensures t.title == "Error Loading Player" && t.description != ""
    ensures !t.destructive <==> !IsTimeout(e) && !IsNetworkFailure(e) && Contains(e.message, NotAnalyzedPhrase)
    ensures IsTimeout(e) ==> t.description == ClickTimeoutMessage
    ensures !IsTimeout(e) && IsNetworkFailure(e) ==> t.description == NetworkErrorMessage
    ensures !IsTimeout(e) && !IsNetworkFailure(e) && Contains(e.message, NotAnalyzedPhrase) ==>
      t.description == u + " has not been fully analyzed yet. Please try again later."
    ensures !IsTimeout(e) && !IsNetworkFailure(e) && !Contains(e.message, NotAnalyzedPhrase) ==>
      t.description == MessageOr(e, UnknownErrorMessage)
  {
    if IsTimeout(e) then Toast("Error Loading Player", ClickTimeoutMessage, true)
    else if IsNetworkFailure(e) then Toast("Error Loading Player", NetworkErrorMessage, true)
    else if Contains(e.message, NotAnalyzedPhrase) then
      Toast("Error Loading Player", u + " has not been fully analyzed yet. Please try again later.", false)
    else Toast("Error Loading Player", MessageOr(e, UnknownErrorMessage), true)
  }

  datatype ClickResult = Navigate(url: string) | ClickToast(toast: Toast)

  /** How a metrics request ends: the results page of `u`, or a toast. */
  function ClickResultOf(u: string, o: Outcome): (r: ClickResult)
    ensures r.Navigate? <==> ClickError(u, o).None?
    ensures r.Navigate? ==> r.url == "/results?user=" + u
    ensures r.ClickToast? ==> r.toast == ClickErrorToast(u, ClickError(u, o).value)
  {
    match ClickError(u, o)
    case None => Navigate("/results?user=" + u)
    case Some(e) => ClickToast(ClickErrorToast(u, e))
  }

  /**
   * A 404 for the metrics of `u` never navigates and ends with the gentle
   * "not fully analyzed" toast, unless the username itself makes the
   * message look like a network failure.
   */
  lemma NotFoundIsGentle(u: string, r: Response)
    requires r.status == 404
    ensures ClickResultOf(u, Answered(r)).ClickToast?
    ensures var t := ClickResultOf(u, Answered(r)).toast;
      t.description == NetworkErrorMessage ||
      t == Toast("Error Loading Player", u + " has not been fully analyzed yet. Please try again later.", false)
  {
    var m := "Player '" + u + "' " + NotAnalyzedPhrase;
    ContainsSuffix("Player '" + u + "' ", NotAnalyzedPhrase);
    assert Contains(m, NotAnalyzedPhrase);
  }

  // ------------------------------------------------------------------
  // Stopping and deleting: `handleStopAnalysis`, `handleDeletePlayer`
  // ------------------------------------------------------------------

  /** The message of a failed stop: timeout, then network, then the error's message or "Unknown error occurred". */
  function StopErrorMessage(e: JsError): (m: string)
    ensures m != ""
    ensures IsTimeout(e) ==> m == "Request timeout - server may be slow"
    ensures !IsTimeout(e) && IsNetworkFailure(e) ==> m == NetworkErrorMessage
    ensures !IsTimeout(e) && !IsNetworkFailure(e) ==> m == MessageOr(e, UnknownErrorMessage)
  {
    if IsTimeout(e) then "Request timeout - server may be slow"
    else if IsNetworkFailure(e) then NetworkErrorMessage
    else MessageOr(e, UnknownErrorMessage)
  }

  /** The toast after a stop request: a confirmation, or the error in the destructive style. */
  function StopToast(u: string, err: Option<JsError>): (t: Toast)
    ensures t.destructive <==> err.Some?
    ensures err.None? ==> t == Toast("Analysis Stopped", "Analysis for " + u + " has been stopped and removed", false)
    ensures err.Some? ==> t == Toast("Error Stopping Analysis", StopErrorMessage(err.value), true)
  {
    match err
    case None => Toast("Analysis Stopped", "Analysis for " + u + " has been stopped and removed", false)
    case Some(e) => Toast("Error Stopping Analysis", StopErrorMessage(e), true)
  }

  /** The message of a failed delete, in Spanish: timeout, then network, then the error's message or "Error desconocido". */
  function DeleteErrorMessage(e: JsError): (m: string)
    ensures m != ""
    ensures IsTimeout(e) ==> m == "Tiempo de espera agotado - el servidor puede estar lento"
    ensures !IsTimeout(e) && IsNetworkFailure(e) ==> m == "Error de red - no se pudo conectar a la API"
    ensures !IsTimeout(e) && !IsNetworkFailure(e) ==> m == MessageOr(e, "Error desconocido")
  {
    if IsTimeout(e) then "Tiempo de espera agotado - el servidor puede estar lento"
    else if IsNetworkFailure(e) then "Error de red - no se pudo conectar a la API"
    else MessageOr(e, "Error desconocido")
  }

  /** The toast after a delete request. */
  function DeleteToast(u: string, err: Option<JsError>): (t: Toast)
    ensures t.destructive <==> err.Some?
    ensures err.None? ==> t == Toast("Jugador eliminado", "El jugador " + u + " ha sido eliminado exitosamente", false)
    ensures err.Some? ==> t == Toast("Error al eliminar jugador", DeleteErrorMessage(err.value), true)
  {
    match err
    case None => Toast("Jugador eliminado", "El jugador " + u + " ha sido eliminado exitosamente", false)
    case Some(e) => Toast("Error al eliminar jugador", DeleteErrorMessage(e), true)
  }

  // ------------------------------------------------------------------
  // Row display rules
  // ------------------------------------------------------------------

  datatype Badge = PendingBadge | ReadyBadge | ErrorBadge | PlainBadge(caption: string)

  /** `getStatusBadge`: three coloured badges, and the status itself for anything else. */
  function StatusBadge(status: string): (b: Badge)
    ensures b.PlainBadge? <==> status != "pending" && status != "ready" && status != "error"
    ensures b.PlainBadge? ==> b.caption == status
  {
    if status == "pending" then PendingBadge
    else if status == "ready" then ReadyBadge
    else if status == "error" then ErrorBadge
    else PlainBadge(status)
  }

  /** `Math.max(0, Math.min(100, progress))`: the bar's value, always within [0, 100]. */
  function ShownProgress(p: real): (r: real)
    ensures 0.0 <= r <= 100.0
    ensures 0.0 <= p <= 100.0 ==> r == p
    ensures p < 0.0 ==> r == 0.0
    ensures p > 100.0 ==> r == 100.0
  {
    if p > 100.0 then 100.0 else if p < 0.0 then 0.0 else p
  }

  /** The clamp never reorders two progress values, and clamping twice is clamping once. */
  lemma ShownProgressMonotone(p: real, q: real)
    requires p <= q
    ensures ShownProgress(p) <= ShownProgress(q)
    ensures ShownProgress(ShownProgress(p)) == ShownProgress(p)
  {
  }

  /** The progress bar is drawn for a `pending` row whose progress is defined. */
  predicate ShowsProgressBar(item: PlayerListItem) {
    item.status == "pending" && item.progress.Some?
  }

  /** The stop button is drawn for `pending` rows only. */
  predicate ShowsStopButton(item: PlayerListItem) {
    item.status == "pending"
  }

  /** The delete button is drawn for `ready` and `error` rows only. */
  predicate ShowsDeleteButton(item: PlayerListItem) {
    item.status == "ready" || item.status == "error"
  }

  /** A row never offers both stop and delete, and a row with a bar offers stop. */
  lemma ButtonsExclusive(item: PlayerListItem)
    ensures !(ShowsStopButton(item) && ShowsDeleteButton(item))
    ensures ShowsProgressBar(item) ==> ShowsStopButton(item)
  {
  }

  /**
   * The list schema admits no `ready` or `error` status, so a list stored
   * through the validated branch never shows a delete button nor the green
   * or red badge: those appear only for rows that failed validation or were
   * added locally.
   */
  lemma ValidatedRowsNeverDeletable(o: Outcome, i: int)
    requires ListFetchOf(o).Loaded? && ListFetchOf(o).path == Validated
    requires 0 <= i < |ListFetchOf(o).items|
    ensures !ShowsDeleteButton(ListFetchOf(o).items[i])
    ensures StatusBadge(ListFetchOf(o).items[i].status) != ReadyBadge
    ensures StatusBadge(ListFetchOf(o).items[i].status) != ErrorBadge
  {
    var data := o.response.body.json;
    assert IsPlayerListItem(data.items[i]);
    ValidatedItemStatus(data.items[i]);
  }

  // ------------------------------------------------------------------
  // The component's state
  // ------------------------------------------------------------------

  /**
   * The state of the `PlayersList` component. Every asynchronous handler is
   * split at its `await`: a Begin method for what it does before the request
   * and a Finish method that takes the request's outcome.
   */
  class PlayersListState {
    var players: seq<PlayerListItem>
    var loading: bool
    var error: Option<string>
    var retryCount: nat
    var loadingPlayer: Option<string>
    var deletingPlayer: Option<string>
    var stoppingPlayer: Option<string>

    /** A shown error always says something. */
    predicate Valid()
      reads this
    {
      error.Some? ==> error.value != ""
    }

    /** The first render: empty list, loading, no error, no request in flight. */
    constructor ()
      ensures Valid()
      ensures players == [] && loading && error == None && retryCount == 0
      ensures loadingPlayer == None && deletingPlayer == None && stoppingPlayer == None
    {
      players := [];
      loading := true;
      error := None;
      retryCount := 0;
      loadingPlayer := None;
      deletingPlayer := None;
      stoppingPlayer := None;
    }

    /** `addPlayer(n)`, where `keys` are the properties `n` has of its own. */
    method AddPlayer(n: PlayerListItem, keys: set<Field>)
      requires Valid()
      modifies this`players
      ensures Valid()
      ensures players == UpsertPlayer(old(players), n, keys)
    {
      players := UpsertPlayer(players, n, keys);
    }

    /** `fetchPlayers` up to its request: loading, with the error cleared. */
    method BeginFetch()
      modifies this`loading, this`error
      ensures Valid()
      ensures loading && error == None
    {
      loading := true;
      error := None;
    }

    /**
     * `fetchPlayers` after its request, given the outcome, whether it was
     * asked to toast, and the retry count of the render that started it.
     * A loaded list replaces the rows with no error; a failure empties the
     * list and sets the error. The "Connection Restored" toast comes only
     * from the validated branch of a retried, toasting fetch.
     */
    method FinishFetch(o: Outcome, showToast: bool, seenRetryCount: nat) returns (toast: Option<Toast>)
      requires Valid()
      modifies this`players, this`loading, this`error
      ensures Valid()
      ensures !loading
      ensures ListFetchOf(o).Loaded? ==> players == ListFetchOf(o).items && error == None
      ensures ListFetchOf(o).Failed? ==>
        players == [] && error == Some(FetchErrorMessage(ListFetchOf(o).error))
      ensures toast.Some? <==>
        showToast && (ListFetchOf(o).Failed? || (ListFetchOf(o).path == Validated && seenRetryCount > 0))
      ensures toast.Some? && ListFetchOf(o).Failed? ==> toast.value == LoadErrorToast(ListFetchOf(o).error)
      ensures toast.Some? && ListFetchOf(o).Loaded? ==> toast.value == RestoredToast
    {
      toast := None;
      match ListFetchOf(o) {
        case Loaded(items, path) =>
          players := items;
          error := None;
          if path == Validated && showToast && seenRetryCount > 0 {
            toast := Some(RestoredToast);
          }
        case Failed(e) =>
          var m := FetchErrorMessage(e);
          error := Some(m);
          players := [];
          if showToast {
            toast := Some(LoadErrorToast(e));
          }
      }
      loading := false;
    }

    /**
     * `handleRetry` up to the request: the count goes up, and the fetch it
     * starts still sees the count of the render that was clicked.
     */
    method BeginRetry() returns (seenRetryCount: nat)
      modifies this`retryCount, this`loading, this`error
      ensures Valid()
      ensures seenRetryCount == old(retryCount) && retryCount == old(retryCount) + 1
      ensures loading && error == None
    {
      seenRetryCount := retryCount;
      retryCount := retryCount + 1;
      BeginFetch();
    }

    /** `handlePlayerClick(u)` up to its request: a metrics request marks `u` as loading. */
    method BeginPlayerClick(u: string) returns (r: ClickStart)
      modifies this`loadingPlayer
      ensures r == ClickStartOf(old(loadingPlayer), players, u)
      ensures loadingPlayer == if r.MetricsRequested? then Some(u) else old(loadingPlayer)
    {
      r := ClickStartOf(loadingPlayer, players, u);
      if r.MetricsRequested? {
        loadingPlayer := Some(u);
      }
    }

    /** `handlePlayerClick(u)` after its request: navigate or toast, and clear the loading mark. */
    method FinishPlayerClick(u: string, o: Outcome) returns (r: ClickResult)
      modifies this`loadingPlayer
      ensures r == ClickResultOf(u, o)
      ensures loadingPlayer == None
    {
      r := ClickResultOf(u, o);
      loadingPlayer := None;
    }

    /**
     * `handleStopAnalysis(u)` up to its request: a second click while `u`
     * is being stopped sends nothing. Either way `u` is marked as stopping.
     */
    method BeginStop(u: string) returns (started: bool)
      modifies this`stoppingPlayer
      ensures started <==> old(stoppingPlayer) != Some(u)
      ensures stoppingPlayer == Some(u)
    {
      started := stoppingPlayer != Some(u);
      stoppingPlayer := Some(u);
    }

    /** `handleStopAnalysis(u)` after its request: an ok answer drops the rows of `u`. */
    method FinishStop(u: string, o: Outcome) returns (t: Toast)
      requires Valid()
      modifies this`players, this`stoppingPlayer
      ensures Valid()
      ensures players == if CommandError(o).None? then WithoutPlayer(old(players), u) else old(players)
      ensures t == StopToast(u, CommandError(o))
      ensures stoppingPlayer == None
    {
      var err := CommandError(o);
      if err.None? {
        players := WithoutPlayer(players, u);
      }
      t := StopToast(u, err);
      stoppingPlayer := None;
    }

    /**
     * `handleDeletePlayer(u)` up to its request: a second click while `u`
     * is being deleted sends nothing. Either way `u` is marked as deleting.
     */
    method BeginDelete(u: string) returns (started: bool)
      modifies this`deletingPlayer
      ensures started <==> old(deletingPlayer) != Some(u)
      ensures deletingPlayer == Some(u)
    {
      started := deletingPlayer != Some(u);
      deletingPlayer := Some(u);
    }

    /** `handleDeletePlayer(u)` after its request: an ok answer drops the rows of `u`. */
    method FinishDelete(u: string, o: Outcome) returns (t: Toast)
      requires Valid()
      modifies this`players, this`deletingPlayer
      ensures Valid()
      ensures players == if CommandError(o).None? then WithoutPlayer(old(players), u) else old(players)
      ensures t == DeleteToast(u, CommandError(o))
      ensures deletingPlayer == None
    {
      var err := CommandError(o);
      if err.None? {
        players := WithoutPlayer(players, u);
      }
      t := DeleteToast(u, err);
      deletingPlayer := None;
    }
  }
}
