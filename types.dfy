/**
 * lib/types.ts: the record shapes the dashboard works with. The two zod
 * schemas become acceptance predicates over parsed JSON, written as tables
 * of which values each property accepts. Beside them: the players-list row
 * (with the fields the list code uses but the schema does not declare),
 * and the `Player` and `StreamEvent` shapes the single-player hooks use.
 */
module Types {
  import opened Wrappers
  import opened Json

  /** What a zod property validator accepts. */
  datatype FieldSchema =
    | Str                      // z.string()
    | Num                      // z.number()
    | Bool                     // z.boolean()
    | NullableNum              // z.number().nullable(): present, a number or null
    | OptionalNullableStr      // z.string().nullable().optional()
    | OptionalNullableNum      // z.number().nullable().optional()
    | Enum(values: set<string>) // z.enum([...])
    | NumRecord                // z.record(z.number())
    | NumArray                 // z.array(z.number())

  /** A map from strings to numbers. */
  predicate IsNumberRecord(v: Option<Json>) {
    v.Some? && v.value.JObject? && forall k :: k in v.value.fields ==> v.value.fields[k].JNumber?
  }

  /** A list of numbers. */
  predicate IsNumberList(v: Option<Json>) {
    v.Some? && v.value.JArray? && forall i :: 0 <= i < |v.value.items| ==> v.value.items[i].JNumber?
  }

  /** Property `v` (None when absent, i.e. `undefined`) passes validator `f`. */
  predicate Accepts(f: FieldSchema, v: Option<Json>) {
    match f
    case Str => v.Some? && v.value.JString?
    case Num => v.Some? && v.value.JNumber?
    case Bool => v.Some? && v.value.JBool?
    case NullableNum => v.Some? && (v.value.JNull? || v.value.JNumber?)
    case OptionalNullableStr => v.None? || v.value.JNull? || v.value.JString?
    case OptionalNullableNum => v.None? || v.value.JNull? || v.value.JNumber?
    case Enum(values) => v.Some? && v.value.JString? && v.value.s in values
    case NumRecord => IsNumberRecord(v)
    case NumArray => IsNumberList(v)
  }

  type ObjectSchema = map<string, FieldSchema>

  /** `z.object(schema)` accepts `j`: an object whose every declared property passes (others are ignored). */
  predicate Conforms(j: Json, schema: ObjectSchema) {
    j.JObject? && forall k :: k in schema ==> Accepts(schema[k], Get(j, k))
  }

  // ---------------------------------------------------------------- list items

  const ListItemStatuses: set<string> := {"pending", "in_progress", "completed", "failed"}

  const PlayerListItemSchema: ObjectSchema := map[
    "id" := Str,
    "username" := Str,
    "status" := Enum(ListItemStatuses),
    "created_at" := Str,
    "finished_at" := OptionalNullableStr,
    "risk_score" := OptionalNullableNum
  ]

  predicate IsPlayerListItem(j: Json) {
    Conforms(j, PlayerListItemSchema)
  }

  /** `PlayerListItemSchema.array().parse(data)` succeeds. */
  predicate IsPlayerListItemArray(j: Json) {
    j.JArray? && forall i :: 0 <= i < |j.items| ==> IsPlayerListItem(j.items[i])
  }

  /**
   * An accepted list item has string `id`, `username` and `created_at`, a
   * status among the four the schema declares, `finished_at` absent, null or
   * a string and `risk_score` absent, null or a number.
   */
  lemma ListItemShape(j: Json)
    requires IsPlayerListItem(j)
    ensures GetString(j, "id").Some? && GetString(j, "username").Some? && GetString(j, "created_at").Some?
    ensures GetString(j, "status").Some? && GetString(j, "status").value in ListItemStatuses
    ensures Get(j, "finished_at").None? || Get(j, "finished_at").value.JNull? || Get(j, "finished_at").value.JString?
    ensures Get(j, "risk_score").None? || Get(j, "risk_score").value.JNull? || Get(j, "risk_score").value.JNumber?
  {
    assert Accepts(PlayerListItemSchema["id"], Get(j, "id"));
    assert Accepts(PlayerListItemSchema["username"], Get(j, "username"));
    assert Accepts(PlayerListItemSchema["created_at"], Get(j, "created_at"));
    assert Accepts(PlayerListItemSchema["status"], Get(j, "status"));
    assert Accepts(PlayerListItemSchema["finished_at"], Get(j, "finished_at"));
    assert Accepts(PlayerListItemSchema["risk_score"], Get(j, "risk_score"));
  }

  /** The statuses "ready" and "error", which the list code keys its badges and buttons on, are rejected. */
  lemma ReadyAndErrorRejected(j: Json)
    requires GetString(j, "status") == Some("ready") || GetString(j, "status") == Some("error")
    ensures !IsPlayerListItem(j)
  {
    assert !Accepts(PlayerListItemSchema["status"], Get(j, "status"));
  }

  /** A list with one rejected item is rejected as a whole. */
  lemma OneBadItemRejectsArray(j: Json, i: int)
    requires j.JArray? && 0 <= i < |j.items| && !IsPlayerListItem(j.items[i])
    ensures !IsPlayerListItemArray(j)
  {
  }

  // ---------------------------------------------------------------- metrics detail

  const DetailScalars: ObjectSchema := map[
    "username" := Str,
    "analyzed_at" := Str,
    "games_analyzed" := Num,
    "first_game_date" := Str,
    "last_game_date" := Str,
    "avg_acpl" := Num,
    "std_acpl" := Num,
    "avg_match_rate" := Num,
    "std_match_rate" := Num,
    "avg_ipr" := Num,
    "step_function_detected" := Bool,
    "step_function_magnitude" := Num,
    "roi_mean" := Num,
    "roi_max" := Num,
    "roi_std" := Num,
    "longest_streak" := Num,
    "selectivity_score" := Num,
    "peer_delta_acpl" := Num,
    "peer_delta_match" := Num
  ]

  /** The nested objects of the metrics detail, each with its own schema. */
  const DetailGroups: map<string, ObjectSchema> := map[
    "risk" := map[
      "risk_score" := Num, "confidence_level" := Num, "suspicious_games_count" := Num,
      "risk_factors" := NumRecord],
    "performance" := map["roi_curve" := NumArray, "trend_acpl" := Num, "trend_match_rate" := Num],
    "opening_patterns" := map[
      "mean_entropy" := Num, "novelty_depth" := Num, "opening_breadth" := Num,
      "second_choice_rate" := Num],
    "phase_quality" := map[
      "opening_acpl" := Num, "middlegame_acpl" := Num, "endgame_acpl" := Num, "blunder_rate" := Num],
    "time_management" := map[
      "mean_move_time" := Num, "time_variance" := Num, "uniformity_score" := Num,
      "lag_spike_count" := Num],
    "clutch_accuracy" := map["avg_clutch_diff" := Num, "clutch_games_pct" := Num],
    "benchmark" := map["percentile_acpl" := Num, "percentile_entropy" := Num],
    "tactical" := map["precision_burst_count" := NullableNum, "second_choice_rate" := NullableNum],
    "endgame" := map[
      "conversion_efficiency" := Num, "tb_match_rate" := NullableNum, "dtz_deviation" := NullableNum]
  ]

  /** The four properties of the detail that may be null. */
  const NullableDetailFields: set<(string, string)> := {
    ("tactical", "precision_burst_count"), ("tactical", "second_choice_rate"),
    ("endgame", "tb_match_rate"), ("endgame", "dtz_deviation")
  }

  /** The nested group `g` of `j` is present and passes its schema. */
  predicate GroupConforms(j: Json, g: string)
    requires g in DetailGroups
  {
    Get(j, g).Some? && Conforms(Get(j, g).value, DetailGroups[g])
  }

  /** `PlayerMetricsDetailSchema.parse(j)` succeeds. */
  predicate IsPlayerMetricsDetail(j: Json) {
    Conforms(j, DetailScalars) && forall g :: g in DetailGroups ==> GroupConforms(j, g)
  }

  /** `j` with property `key` removed. */
  function WithoutKey(j: Json, key: string): (r: Json)
    requires j.JObject?
  {
    JObject(j.fields - {key})
  }

  /** `j` with property `key` set to `v`. */
  function WithKey(j: Json, key: string, v: Json): (r: Json)
    requires j.JObject?
  {
    JObject(j.fields[key := v])
  }

  /** Every nested group is required: dropping any one of them rejects the detail. */
  lemma MissingGroupRejected(j: Json, g: string)
    requires j.JObject? && g in DetailGroups
    ensures !IsPlayerMetricsDetail(WithoutKey(j, g))
  {
    assert Get(WithoutKey(j, g), g) == None;
    assert !GroupConforms(WithoutKey(j, g), g);
  }

  /**
   * Replacing one property of a conforming object leaves it conforming
   * exactly when the new value passes that property's validator.
   */
  lemma ConformsAfterUpdate(o: Json, schema: ObjectSchema, k: string, v: Json)
    requires Conforms(o, schema) && k in schema
    ensures Conforms(WithKey(o, k, v), schema) <==> Accepts(schema[k], Some(v))
  {
    var o' := WithKey(o, k, v);
    assert Get(o', k) == Some(v);
    forall k' | k' in schema && k' != k
      ensures Accepts(schema[k'], Get(o', k'))
    {
      assert Get(o', k') == Get(o, k');
    }
  }

  /** The properties of the detail's groups whose validator accepts null are exactly the four nullable ones. */
  lemma NullableGroupFields(g: string, f: string)
    requires g in DetailGroups && f in DetailGroups[g]
    ensures Accepts(DetailGroups[g][f], Some(JNull)) <==> (g, f) in NullableDetailFields
  {
  }

  /**
   * In an accepted detail, setting the property `f` of group `g` to null
   * keeps the detail accepted exactly when that property is one of the four
   * nullable ones (tactical.precision_burst_count,
   * tactical.second_choice_rate, endgame.tb_match_rate,
   * endgame.dtz_deviation).
   */
  lemma NullAcceptedOnlyWhereNullable(j: Json, g: string, f: string)
    requires IsPlayerMetricsDetail(j) && g in DetailGroups && f in DetailGroups[g]
    ensures IsPlayerMetricsDetail(WithKey(j, g, WithKey(Get(j, g).value, f, JNull)))
        <==> (g, f) in NullableDetailFields
  {
    assert GroupConforms(j, g);
    var group := Get(j, g).value;
    var group' := WithKey(group, f, JNull);
    var j' := WithKey(j, g, group');
    ConformsAfterUpdate(group, DetailGroups[g], f, JNull);
    NullableGroupFields(g, f);
    assert g !in DetailScalars;
    forall k | k in DetailScalars
      ensures Accepts(DetailScalars[k], Get(j', k))
    {
      assert Get(j', k) == Get(j, k);
    }
    forall g' | g' in DetailGroups && g' != g
      ensures GroupConforms(j', g')
    {
      assert Get(j', g') == Get(j, g');
      assert GroupConforms(j, g');
    }
    assert Get(j', g) == Some(group');
    if IsPlayerMetricsDetail(j') {
      assert GroupConforms(j', g);
    }
  }

  /** In an accepted detail, property `f` of group `g` passes its validator. */
  lemma GroupField(j: Json, g: string, f: string)
    requires IsPlayerMetricsDetail(j) && g in DetailGroups && f in DetailGroups[g]
    ensures Get(j, g).Some? && Accepts(DetailGroups[g][f], Get(Get(j, g).value, f))
  {
    assert GroupConforms(j, g);
  }

  /** In an accepted detail, `risk.risk_factors` maps strings to numbers and `performance.roi_curve` is a list of numbers. */
  lemma DetailCollections(j: Json)
    requires IsPlayerMetricsDetail(j)
    ensures Get(j, "risk").Some? && IsNumberRecord(Get(Get(j, "risk").value, "risk_factors"))
    ensures Get(j, "performance").Some? && IsNumberList(Get(Get(j, "performance").value, "roi_curve"))
  {
    GroupField(j, "risk", "risk_factors");
    assert DetailGroups["risk"]["risk_factors"] == NumRecord;
    GroupField(j, "performance", "roi_curve");
    assert DetailGroups["performance"]["roi_curve"] == NumArray;
  }

  // ---------------------------------------------------------------- the records the code handles

  /** The properties of a players-list row. */
  datatype Field =
    | Id | Username | Status | CreatedAt | FinishedAt | RiskScore
    | Progress | TotalGames | DoneGames | RequestedAt | UpdateId

  /**
   * A players-list row as the list, the poller and the submission form
   * handle it: the schema's properties plus `progress`, `total_games`,
   * `done_games`, `requested_at` and `_updateId`, which the schema does not
   * declare. Absent and `undefined` are both None.
   */
  datatype PlayerListItem = PlayerListItem(
    id: Option<string>,
    username: string,
    status: string,
    createdAt: Option<string>,
    finishedAt: Option<string>,
    riskScore: Option<real>,
    progress: Option<real>,
    totalGames: Option<real>,
    doneGames: Option<real>,
    requestedAt: Option<string>,
    updateId: Option<string>)

  /** The value of one property of a row. */
  datatype FieldValue = StrValue(s: string) | OptStrValue(t: Option<string>) | OptNumValue(x: Option<real>)

  /** `item[f]` */
  function ValueOf(item: PlayerListItem, f: Field): FieldValue {
    match f
    case Id => OptStrValue(item.id)
    case Username => StrValue(item.username)
    case Status => StrValue(item.status)
    case CreatedAt => OptStrValue(item.createdAt)
    case FinishedAt => OptStrValue(item.finishedAt)
    case RiskScore => OptNumValue(item.riskScore)
    case Progress => OptNumValue(item.progress)
    case TotalGames => OptNumValue(item.totalGames)
    case DoneGames => OptNumValue(item.doneGames)
    case RequestedAt => OptStrValue(item.requestedAt)
    case UpdateId => OptStrValue(item.updateId)
  }

  /** Two rows that agree on every property are the same row. */
  lemma RowExtensionality(a: PlayerListItem, b: PlayerListItem)
    requires forall f :: ValueOf(a, f) == ValueOf(b, f)
    ensures a == b
  {
    assert ValueOf(a, Id) == ValueOf(b, Id) && ValueOf(a, Username) == ValueOf(b, Username);
    assert ValueOf(a, Status) == ValueOf(b, Status) && ValueOf(a, CreatedAt) == ValueOf(b, CreatedAt);
    assert ValueOf(a, FinishedAt) == ValueOf(b, FinishedAt) && ValueOf(a, RiskScore) == ValueOf(b, RiskScore);
    assert ValueOf(a, Progress) == ValueOf(b, Progress) && ValueOf(a, TotalGames) == ValueOf(b, TotalGames);
    assert ValueOf(a, DoneGames) == ValueOf(b, DoneGames) && ValueOf(a, RequestedAt) == ValueOf(b, RequestedAt);
    assert ValueOf(a, UpdateId) == ValueOf(b, UpdateId);
  }

  /**
   * Reads a fetched list element as a row. Properties of the wrong type
   * read as absent; a missing `username` or `status` reads as "".
   */
  function ItemOfJson(j: Json): PlayerListItem {
    PlayerListItem(
      GetString(j, "id"),
      GetString(j, "username").GetOr(""),
      GetString(j, "status").GetOr(""),
      GetString(j, "created_at"),
      GetString(j, "finished_at"),
      GetNumber(j, "risk_score"),
      GetNumber(j, "progress"),
      GetNumber(j, "total_games"),
      GetNumber(j, "done_games"),
      GetString(j, "requested_at"),
      GetString(j, "_updateId"))
  }

  /** A row read from an accepted list item carries one of the schema's four statuses and its id and creation time. */
  lemma ValidatedItemStatus(j: Json)
    requires IsPlayerListItem(j)
    ensures ItemOfJson(j).status in ListItemStatuses
    ensures ItemOfJson(j).id.Some? && ItemOfJson(j).createdAt.Some?
  {
    ListItemShape(j);
  }

  /**
   * The cached single-player record (`Player`, which lib/types.ts does not
   * define): the properties hooks/usePlayer.ts reads and writes.
   */
  datatype Player = Player(
    username: string,
    status: string,
    analysisProgress: Option<real>,
    gamesCount: Option<real>,
    error: Option<string>,
    updatedAt: Option<string>)

  /** The payload of a server-sent event (`StreamEvent`, not defined in lib/types.ts). */
  datatype StreamEventData = StreamEventData(
    username: string,
    progress: Option<real>,
    status: Option<string>,
    error: Option<string>,
    gamesAnalyzed: Option<real>)

  datatype StreamEvent = StreamEvent(kind: string, data: StreamEventData, timestamp: string)
}
