/** From a nested measurement document to flat rows and back (src/jarvis/model_measurement_repo.py). */
module MeasurementRows {
  import opened Json
  import opened Basics

  // ---------- columns ----------

  datatype Affinity = Number | Text

  /** The conversions SQLite applies to a value bound to a column of the other kind. */
  datatype Sqlite = Sqlite(asNumber: string -> Json, asText: real -> string)

  /** What a column gives back for the value bound to it; a list or an object cannot be bound. */
  function Store(db: Sqlite, aff: Affinity, j: Json): Option<Json> {
    match j
    case Null => Some(Null)
    case Bool(b) => Some(if aff.Number? then Num(AsNumber(b)) else Str(db.asText(AsNumber(b))))
    case Num(n) => Some(if aff.Number? then j else Str(db.asText(n)))
    case Str(s) => Some(if aff.Text? then j else db.asNumber(s))
    case _ => None
  }

  predicate Kept(db: Sqlite, aff: Affinity, j: Json) {
    Store(db, aff, j) == Some(j)
  }

  function StoreAll(db: Sqlite, aff: Affinity, js: seq<Json>): Option<seq<Json>> {
    if js == [] then Some([])
    else
      match (Store(db, aff, js[0]), StoreAll(db, aff, js[1..]))
      case (Some(c), Some(cs)) => Some([c] + cs)
      case _ => None
  }

  /** Element by element; None if any element raises. */
  function FlattenAll<T>(flatten: Json -> Option<T>, js: seq<Json>): Option<seq<T>> {
    if js == [] then Some([])
    else
      match (flatten(js[0]), FlattenAll(flatten, js[1..]))
      case (Some(x), Some(xs)) => Some([x] + xs)
      case _ => None
  }

  const STAT_KEYS: seq<string> := ["decode_tok_per_s", "prefill_tok_per_s", "latency_s"]
  const STAT_FIELDS: seq<string> := ["mean", "p50", "std", "min", "max"]
  const RUN_FIELDS: seq<string> := [
    "total_duration_ns", "load_duration_ns", "prompt_eval_count", "prompt_eval_duration_ns", "eval_count",
    "eval_duration_ns", "decode_tok_per_s", "prefill_tok_per_s", "latency_s"]

  /** `[d.get(k) for k in keys]`. */
  function Fields(d: Entry, keys: seq<string>): seq<Json> {
    if keys == [] then [] else [Get(d, keys[0])] + Fields(d, keys[1..])
  }

  /** `dict(zip(keys, cells))`. */
  function Zip(keys: seq<string>, cells: seq<Json>): Entry
    requires |keys| == |cells|
  {
    if keys == [] then map[] else Zip(keys[1..], cells[1..])[keys[0] := cells[0]]
  }

  // ---------- one run ----------

  datatype FlatRun = FlatRun(error: Json, cells: seq<Json>)

  const NO_CELLS: seq<Json> := [Null, Null, Null, Null, Null, Null, Null, Null, Null]

  function FlattenRun(db: Sqlite, run: Json): Option<FlatRun> {
    if !run.Obj? then None
    else if "error" in run.fields then
      match Store(db, Text, run.fields["error"])
      case Some(e) => Some(FlatRun(e, NO_CELLS))
      case None => None
    else
      match StoreAll(db, Number, Fields(run.fields, RUN_FIELDS))
      case Some(cells) => Some(FlatRun(Null, cells))
      case None => None
  }

  /** `_run_to_dict`. */
  function RunDoc(r: FlatRun): Json {
    if r.error != Null then Obj(map["error" := r.error])
    else if |r.cells| == |RUN_FIELDS| then Obj(Zip(RUN_FIELDS, r.cells)) else Null
  }

  function FlattenRuns(db: Sqlite, runs: seq<Json>): Option<seq<FlatRun>> {
    FlattenAll(RunFlattener(db), runs)
  }

  function RunFlattener(db: Sqlite): Json -> Option<FlatRun> {
    (run: Json) => FlattenRun(db, run)
  }

  function RunDocs(rs: seq<FlatRun>): seq<Json> {
    if rs == [] then [] else [RunDoc(rs[0])] + RunDocs(rs[1..])
  }

  // ---------- the statistics ----------

  /** `x or {}`, where anything but a dictionary fails at the next `.get`. */
  function OrEmpty(j: Json): Option<Entry> {
    if !Truthy(j) then Some(map[]) else if j.Obj? then Some(j.fields) else None
  }

  function StatCells(db: Sqlite, s: Entry, key: string): Option<seq<Json>> {
    match OrEmpty(Get(s, key))
    case Some(d) => StoreAll(db, Number, Fields(d, STAT_FIELDS))
    case None => None
  }

  /** `_stats_columns`, one group of five columns for each statistic. */
  datatype FlatStats = FlatStats(decode: seq<Json>, prefill: seq<Json>, latency: seq<Json>)

  function FlattenStats(db: Sqlite, stats: Json): Option<FlatStats> {
    match OrEmpty(stats)
    case None => None
    case Some(s) =>
      match (StatCells(db, s, STAT_KEYS[0]), StatCells(db, s, STAT_KEYS[1]), StatCells(db, s, STAT_KEYS[2]))
      case (Some(a), Some(b), Some(c)) => Some(FlatStats(a, b, c))
      case _ => None
  }

  function StatDoc(cells: seq<Json>): Json {
    if |cells| == |STAT_FIELDS| then Obj(Zip(STAT_FIELDS, cells)) else Null
  }

  /** `_stats_from_row`. */
  function StatsDoc(f: FlatStats): Json {
    Obj(Zip(STAT_KEYS, [StatDoc(f.decode), StatDoc(f.prefill), StatDoc(f.latency)]))
  }

  // ---------- one model ----------

  datatype Columns = Columns(name: Json, reason: Json, warmup: Json, nValid: Json, nTotal: Json)

  datatype FlatModel = FlatModel(cols: Columns, skipped: bool, stats: FlatStats, runs: seq<FlatRun>)

  /** What a `for` loop goes over; iterating anything else, or the characters or keys of a
      non-empty text or object, raises before anything is kept. */
  function Iterated(j: Json): Option<seq<Json>> {
    match j
    case Arr(items) => Some(items)
    case Str("") => Some([])
    case Obj(fields) => if fields == map[] then Some([]) else None
    case _ => None
  }

  /** The columns of the model's own row; the name may not be null. */
  function FlatColumns(db: Sqlite, m: Entry): Option<Columns> {
    match (Store(db, Text, Get(m, "model")), Store(db, Text, Get(m, "reason")))
    case (Some(name), Some(reason)) =>
      (match (Store(db, Number, Get(m, "warmup_s")), Store(db, Number, Get(m, "n_valid")), Store(db, Number, Get(m, "n_total")))
       case (Some(w), Some(v), Some(t)) => if name == Null then None else Some(Columns(name, reason, w, v, t))
       case _ => None)
    case _ => None
  }

  function FlatRunsOf(db: Sqlite, m: Entry): Option<seq<FlatRun>> {
    match Iterated(GetOr(m, "runs", Arr([])))
    case Some(runs) => FlattenRuns(db, runs)
    case None => None
  }

  /** `_insert_model`: the columns of the model's row and of its runs' rows. */
  function FlattenModel(db: Sqlite, m: Json): Option<FlatModel> {
    if !m.Obj? then None
    else
      match (FlatColumns(db, m.fields), FlattenStats(db, Get(m.fields, "stats")), FlatRunsOf(db, m.fields))
      case (Some(c), Some(stats), Some(rs)) => Some(FlatModel(c, Truthy(Get(m.fields, "skipped")), stats, rs))
      case _ => None
  }

  /** `_model_to_dict`. */
  function ModelDoc(f: FlatModel): Json {
    if f.skipped then
      var d := map["model" := f.cols.name, "skipped" := Bool(true), "reason" := f.cols.reason];
      Obj(if f.runs == [] then d else d["runs" := Arr(RunDocs(f.runs))])
    else
      var d := BossDoc(f);
      Obj(if f.cols.warmup == Null then d else d["warmup_s" := f.cols.warmup])
  }

  /** The document of a single-model session. */
  function BossDoc(f: FlatModel): Entry {
    map["model" := f.cols.name, "runs" := Arr(RunDocs(f.runs)), "stats" := StatsDoc(f.stats),
        "n_valid" := f.cols.nValid, "n_total" := f.cols.nTotal]
  }

  function FlattenModels(db: Sqlite, ms: seq<Json>): Option<seq<FlatModel>> {
    FlattenAll(ModelFlattener(db), ms)
  }

  function ModelFlattener(db: Sqlite): Json -> Option<FlatModel> {
    (m: Json) => FlattenModel(db, m)
  }

  function ModelDocs(fs: seq<FlatModel>): seq<Json> {
    if fs == [] then [] else [ModelDoc(fs[0])] + ModelDocs(fs[1..])
  }

  // ---------- one session ----------

  datatype Kind = Boss | Multi

  /** What a session's rows hold. */
  datatype FlatSession = FlatSession(kind: Kind, nRuns: Json, total: Json, ranking: Option<Json>, models: seq<FlatModel>)

  predicate ModelNamesDistinct(fs: seq<FlatModel>) {
    forall i, j :: 0 <= i < j < |fs| ==> fs[i].cols.name != fs[j].cols.name
  }

  /** The body of `append_session`'s transaction: None where it raises and is rolled back. */
  function FlattenSession(db: Sqlite, kind: Kind, doc: Json): Option<FlatSession> {
    if kind.Boss? then
      (match FlattenModel(db, doc)
       case Some(f) => Some(FlatSession(Boss, Null, Null, None, [f]))
       case None => None)
    else if !doc.Obj? then None
    else
      match (Store(db, Number, Get(doc.fields, "n_runs_per_model")), Store(db, Number, Get(doc.fields, "total_elapsed_s")),
             Iterated(GetOr(doc.fields, "models", Arr([]))))
      case (Some(n), Some(total), Some(ms)) =>
        (match FlattenModels(db, ms)
         case Some(fs) =>
           if ModelNamesDistinct(fs)
           then Some(FlatSession(Multi, n, total, if "ranking" in doc.fields then Some(doc.fields["ranking"]) else None, fs))
           else None
         case None => None)
      case _ => None
  }

  /** `latest_session`'s rebuilding of the document; a single-model session has one model row. */
  function SessionDoc(s: FlatSession): Json {
    if s.kind.Boss? then (if s.models == [] then Null else Obj(BossDoc(s.models[0])))
    else
      Obj(map["n_runs_per_model" := s.nRuns, "models" := Arr(ModelDocs(s.models)),
              "ranking" := if s.ranking.Some? then s.ranking.value else Null, "total_elapsed_s" := s.total])
  }

  // ---------- the documents that survive ----------

  function Elems(keys: seq<string>): set<string> {
    set k | k in keys
  }

  predicate FullRow(db: Sqlite, d: Entry, keys: seq<string>) {
    d.Keys == Elems(keys) && forall k :: k in keys ==> k in d && Kept(db, Number, d[k])
  }

  predicate WholeRun(db: Sqlite, run: Json) {
    run.Obj? &&
    if "error" in run.fields
    then run.fields.Keys == {"error"} && run.fields["error"] != Null && Kept(db, Text, run.fields["error"])
    else FullRow(db, run.fields, RUN_FIELDS)
  }

  predicate WholeStat(db: Sqlite, s: Json) {
    s.Obj? && FullRow(db, s.fields, STAT_FIELDS)
  }

  predicate FullStats(db: Sqlite, d: Entry, keys: seq<string>) {
    d.Keys == Elems(keys) && forall k :: k in keys ==> k in d && WholeStat(db, d[k])
  }

  predicate WholeStats(db: Sqlite, stats: Json) {
    stats.Obj? && FullStats(db, stats.fields, STAT_KEYS)
  }

  predicate WholeRuns(db: Sqlite, runs: Json) {
    runs.Arr? && forall i :: 0 <= i < |runs.items| ==> WholeRun(db, runs.items[i])
  }

  /** A measured model: every field there, and nothing else. */
  predicate WholeMeasured(db: Sqlite, d: Entry) {
    && d.Keys == {"model", "runs", "stats", "n_valid", "n_total"}
    && d["model"] != Null && Kept(db, Text, d["model"])
    && WholeRuns(db, d["runs"]) && WholeStats(db, d["stats"])
    && Kept(db, Number, d["n_valid"]) && Kept(db, Number, d["n_total"])
  }

  /** A skipped model: the runs, if listed, are not empty. */
  predicate WholeSkipped(db: Sqlite, d: Entry) {
    && (d.Keys == {"model", "skipped", "reason"} || d.Keys == {"model", "skipped", "reason", "runs"})
    && d["model"] != Null && Kept(db, Text, d["model"]) && d["skipped"] == Bool(true) && Kept(db, Text, d["reason"])
    && ("runs" in d ==> WholeRuns(db, d["runs"]) && d["runs"].items != [])
  }

  predicate WholeModel(db: Sqlite, m: Json) {
    m.Obj? &&
    if Truthy(Get(m.fields, "skipped")) then WholeSkipped(db, m.fields)
    else if "warmup_s" in m.fields
    then m.fields["warmup_s"] != Null && Kept(db, Number, m.fields["warmup_s"]) && WholeMeasured(db, m.fields - {"warmup_s"})
    else WholeMeasured(db, m.fields)
  }

  predicate WholeModels(db: Sqlite, ms: seq<Json>) {
    forall i :: 0 <= i < |ms| ==> WholeModel(db, ms[i])
  }

  predicate WholeSession(db: Sqlite, kind: Kind, doc: Json) {
    doc.Obj? &&
    if kind.Boss? then WholeMeasured(db, doc.fields)
    else
      && doc.fields.Keys == {"n_runs_per_model", "models", "ranking", "total_elapsed_s"}
      && Kept(db, Number, doc.fields["n_runs_per_model"]) && Kept(db, Number, doc.fields["total_elapsed_s"])
      && doc.fields["models"].Arr? && WholeModels(db, doc.fields["models"].items)
  }
}
