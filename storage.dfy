/**
 * The SQLite ledger as an in-memory store: `seen_items` is a map from
 * `item_id` to its row, `run_logs` an append-only sequence.  Instants are UTC
 * seconds; the clock is a parameter.
 */
module Storage {
  import opened Wrappers
  import opened Text

  datatype SeenRow = SeenRow(canonicalUrl: string, seenAt: int)

  /** The JSON values the run metrics hold; `JObject` is the per-source error dict. */
  datatype JsonValue = JNull | JBool(b: bool) | JInt(i: int) | JStr(s: string) | JObject(fields: map<string, string>)

  /** Python truthiness of a decoded JSON value. */
  predicate Truthy(v: JsonValue) {
    match v
    case JNull => false
    case JBool(b) => b
    case JInt(i) => i != 0
    case JStr(s) => s != ""
    case JObject(fields) => |fields| > 0
  }

  /** A `run_logs` row; `metrics` is `None` when its text is not valid JSON. */
  datatype RunLog = RunLog(runAt: int, status: string, metrics: Option<map<string, JsonValue>>, errorMessage: Option<string>)

  /** `metrics.get(key)`, with JSON `null` standing for a missing key. */
  function Field(metrics: map<string, JsonValue>, key: string): JsonValue {
    if key in metrics then metrics[key] else JNull
  }

  /** `int(v or 0)`: a string that is not a signed decimal numeral raises `ValueError`. */
  function IntOf(v: JsonValue): (r: Result<int>)
    ensures v.JInt? ==> r == Ok(v.i)
    ensures !Truthy(v) ==> r == Ok(0)
  {
    if !Truthy(v) then Ok(0)
    else match v
      case JBool(_) => Ok(1)
      case JInt(i) => Ok(i)
      case JStr(s) => ParseInt(s)
      case JNull => Ok(0)
      case JObject(_) => Err("TypeError: int() argument must be a string or a number, not 'dict'")
  }

  // ---------------------------------------------------------------------------
  // Specifications on values

  /** `INSERT OR REPLACE` of every `(item_id, canonical_url)` row, stamped `now`, in order. */
  function Upsert(seen: map<string, SeenRow>, rows: seq<(string, string)>, now: int): map<string, SeenRow> {
    if rows == [] then seen
    else
      var last := rows[|rows| - 1];
      Upsert(seen, rows[..|rows| - 1], now)[last.0 := SeenRow(last.1, now)]
  }

  /** The position of the last row with id `id`, or -1. */
  function LastRowOf(rows: seq<(string, string)>, id: string): (k: int)
    ensures -1 <= k < |rows|
    ensures k >= 0 ==> rows[k].0 == id && forall j :: k < j < |rows| ==> rows[j].0 != id
    ensures k == -1 ==> forall j :: 0 <= j < |rows| ==> rows[j].0 != id
  {
    if rows == [] then -1
    else if rows[|rows| - 1].0 == id then |rows| - 1
    else LastRowOf(rows[..|rows| - 1], id)
  }

  /** After `mark_seen`, an id is stored iff it was before or is in the batch; the batch's last duplicate wins. */
  lemma {:induction false} UpsertRow(seen: map<string, SeenRow>, rows: seq<(string, string)>, now: int, id: string)
    ensures id in Upsert(seen, rows, now) <==> id in seen || LastRowOf(rows, id) >= 0
    ensures LastRowOf(rows, id) >= 0 ==> Upsert(seen, rows, now)[id] == SeenRow(rows[LastRowOf(rows, id)].1, now)
    ensures LastRowOf(rows, id) < 0 && id in seen ==> Upsert(seen, rows, now)[id] == seen[id]
  {
    if rows != [] {
      UpsertRow(seen, rows[..|rows| - 1], now, id);
    }
  }

  /** The ids `load_seen_item_ids` returns: those seen at or after `since`. */
  function SeenSince(seen: map<string, SeenRow>, since: int): (ids: set<string>)
    ensures forall id :: id in ids <==> id in seen && seen[id].seenAt >= since
  {
    set id | id in seen && seen[id].seenAt >= since
  }

  /** Ids just marked are loaded back by any window that reaches back to the marking. */
  lemma MarkedAreSeen(seen: map<string, SeenRow>, rows: seq<(string, string)>, now: int, since: int)
    requires since <= now
    ensures forall k :: 0 <= k < |rows| ==> rows[k].0 in SeenSince(Upsert(seen, rows, now), since)
  {
    forall k | 0 <= k < |rows| ensures rows[k].0 in SeenSince(Upsert(seen, rows, now), since) {
      UpsertRow(seen, rows, now, rows[k].0);
    }
  }

  /** A run that counts for `has_recent_successful_push_run`, once its metrics decode. */
  predicate PushedRun(metrics: map<string, JsonValue>) {
    && Truthy(Field(metrics, "push_enabled"))
    && IntOf(Field(metrics, "selected_count")).Ok?
    && IntOf(Field(metrics, "selected_count")).value > 0
  }

  /** The rows the query returns: successful runs at or after `since`. */
  predicate Eligible(run: RunLog, since: int) {
    run.status == "success" && run.runAt >= since
  }

  /**
   * The scan of `has_recent_successful_push_run`, newest row first: skip rows
   * whose metrics do not decode, stop at the first pushing run, and let a
   * failing `int()` escape.
   */
  function PushScan(runs: seq<RunLog>, since: int): Result<bool> {
    if runs == [] then Ok(false)
    else
      var run := runs[|runs| - 1];
      var rest := PushScan(runs[..|runs| - 1], since);
      if !Eligible(run, since) || run.metrics.None? then rest
      else if !Truthy(Field(run.metrics.value, "push_enabled")) then rest
      else match IntOf(Field(run.metrics.value, "selected_count"))
        case Err(e) => Err(e)
        case Ok(n) => if n > 0 then Ok(true) else rest
  }

  /** A row whose `selected_count` `int()` cannot convert, among the rows the scan may read. */
  predicate BadCount(run: RunLog, since: int) {
    Eligible(run, since) && run.metrics.Some? && Truthy(Field(run.metrics.value, "push_enabled"))
    && IntOf(Field(run.metrics.value, "selected_count")).Err?
  }

  /** Without unconvertible counts, the scan answers true exactly when some eligible run pushed items. */
  lemma {:induction false} PushScanFinds(runs: seq<RunLog>, since: int)
    requires forall k :: 0 <= k < |runs| ==> !BadCount(runs[k], since)
    ensures PushScan(runs, since) == Ok(true) <==>
      exists k :: 0 <= k < |runs| && Eligible(runs[k], since) && runs[k].metrics.Some? && PushedRun(runs[k].metrics.value)
    ensures PushScan(runs, since).Ok?
  {
    if runs != [] {
      var init := runs[..|runs| - 1];
      assert forall k :: 0 <= k < |init| ==> init[k] == runs[k];
      PushScanFinds(init, since);
      assert PushScan(runs, since) == Ok(true) <==>
        PushScan(init, since) == Ok(true) || (Eligible(runs[|init|], since) && runs[|init|].metrics.Some? && PushedRun(runs[|init|].metrics.value));
      if exists k :: 0 <= k < |init| && Eligible(init[k], since) && init[k].metrics.Some? && PushedRun(init[k].metrics.value) {
        var k :| 0 <= k < |init| && Eligible(init[k], since) && init[k].metrics.Some? && PushedRun(init[k].metrics.value);
        assert runs[k] == init[k];
      }
    }
  }

  /** Logging a successful run that pushed items makes the next check within the window answer true. */
  lemma LoggedPushIsFound(runs: seq<RunLog>, metrics: map<string, JsonValue>, now: int, since: int)
    requires since <= now
    requires Field(metrics, "push_enabled") == JBool(true)
    requires Field(metrics, "selected_count").JInt? && Field(metrics, "selected_count").i > 0
    ensures PushScan(runs + [RunLog(now, "success", Some(metrics), None)], since) == Ok(true)
  {
    var all := runs + [RunLog(now, "success", Some(metrics), None)];
    assert all[..|all| - 1] == runs;
  }

  /** The newest-first loop of `has_recent_successful_push_run` over the run rows. */
  method ScanPushes(runs: seq<RunLog>, since: int) returns (r: Result<bool>)
    ensures r == PushScan(runs, since)
  {
    var i := |runs|;
    assert runs[..i] == runs;
    while i > 0
      invariant 0 <= i <= |runs|
      invariant PushScan(runs, since) == PushScan(runs[..i], since)
    {
      var run := runs[i - 1];
      assert runs[..i][..i - 1] == runs[..i - 1];
      if Eligible(run, since) && run.metrics.Some? && Truthy(Field(run.metrics.value, "push_enabled")) {
        var count := IntOf(Field(run.metrics.value, "selected_count"));
        if count.Err? {
          return Err(count.error);
        }
        if count.value > 0 {
          return Ok(true);
        }
      }
      i := i - 1;
    }
    r := Ok(false);
  }

  // ---------------------------------------------------------------------------
  // The store

  class StateStore {
    var seenItems: map<string, SeenRow>
    var runLogs: seq<RunLog>
    /** Whether `init_db` has created the two tables. */
    var tablesReady: bool

    /** A store over a database file that already holds `seen`, `runs`, and perhaps the tables. */
    constructor(seen: map<string, SeenRow>, runs: seq<RunLog>, ready: bool)
      ensures seenItems == seen && runLogs == runs && tablesReady == ready
    {
      seenItems := seen;
      runLogs := runs;
      tablesReady := ready;
    }

    /** `init_db`: `CREATE TABLE IF NOT EXISTS` twice; existing rows are kept, so a second call changes nothing. */
    method InitDb()
      modifies this
      ensures tablesReady
      ensures seenItems == old(seenItems) && runLogs == old(runLogs)
    {
      tablesReady := true;
    }

    /** `load_seen_item_ids(days)`: the ids seen within the last `days` days. */
    method LoadSeenItemIds(days: int, now: int) returns (r: Result<set<string>>)
      ensures tablesReady ==> r == Ok(SeenSince(seenItems, now - days * 86400))
      ensures !tablesReady ==> r.Err?
    {
      if !tablesReady {
        return Err("no such table: seen_items");
      }
      r := Ok(SeenSince(seenItems, now - days * 86400));
    }

    /** `mark_seen`: upsert each row with one shared timestamp; the run log is untouched. */
    method MarkSeen(rows: seq<(string, string)>, now: int) returns (r: Result<()>)
      modifies this
      ensures tablesReady == old(tablesReady) && runLogs == old(runLogs)
      ensures tablesReady ==> r == Ok(()) && seenItems == Upsert(old(seenItems), rows, now)
      ensures !tablesReady ==> r.Err? && seenItems == old(seenItems)
    {
      if !tablesReady {
        return Err("no such table: seen_items");
      }
      var i := 0;
      while i < |rows|
        invariant 0 <= i <= |rows|
        invariant seenItems == Upsert(old(seenItems), rows[..i], now)
        invariant tablesReady && runLogs == old(runLogs)
      {
        assert rows[..i + 1][..i] == rows[..i];
        seenItems := seenItems[rows[i].0 := SeenRow(rows[i].1, now)];
        i := i + 1;
      }
      assert rows[..i] == rows;
      r := Ok(());
    }

    /** `has_recent_successful_push_run(hours)`: the newest-first scan over the last `hours` hours. */
    method HasRecentSuccessfulPushRun(hours: int, now: int) returns (r: Result<bool>)
      ensures tablesReady ==> r == PushScan(runLogs, now - hours * 3600)
      ensures !tablesReady ==> r.Err?
    {
      if !tablesReady {
        return Err("no such table: run_logs");
      }
      r := ScanPushes(runLogs, now - hours * 3600);
    }

    /** `log_run`: append exactly one record; the seen items are untouched. */
    method LogRun(status: string, metrics: map<string, JsonValue>, errorMessage: Option<string>, now: int)
      returns (r: Result<()>)
      modifies this
      ensures tablesReady == old(tablesReady) && seenItems == old(seenItems)
      ensures tablesReady ==> r == Ok(()) && runLogs == old(runLogs) + [RunLog(now, status, Some(metrics), errorMessage)]
      ensures !tablesReady ==> r.Err? && runLogs == old(runLogs)
    {
      if !tablesReady {
        return Err("no such table: run_logs");
      }
      runLogs := runLogs + [RunLog(now, status, Some(metrics), errorMessage)];
      r := Ok(());
    }
  }
}
