/** Which documents can be stored, and what each of them reads back as, field by field. */
module MeasurementReads {
  import opened Json
  import opened Basics
  import opened MeasurementRows
  import opened MeasurementExact

  // ---------- cells ----------

  /** What can be bound to a column. */
  predicate Bindable(v: Json) {
    !v.Arr? && !v.Obj?
  }

  /** A numeric column gives `c` back for `v`. */
  predicate NumberCell(db: Sqlite, v: Json, c: Json) {
    match v
    case Null => c == Null
    case Bool(b) => c == Num(if b then 1.0 else 0.0)
    case Num(n) => c == Num(n)
    case Str(s) => c == db.asNumber(s)
    case _ => false
  }

  /** A text column gives `c` back for `v`. */
  predicate TextCell(db: Sqlite, v: Json, c: Json) {
    match v
    case Null => c == Null
    case Bool(b) => c == Str(db.asText(if b then 1.0 else 0.0))
    case Num(n) => c == Str(db.asText(n))
    case Str(s) => c == Str(s)
    case _ => false
  }

  function Field(d: Entry, k: string): Json {
    if k in d then d[k] else Null
  }

  lemma StoreIs(db: Sqlite, v: Json)
    ensures Bindable(v) <==> Store(db, Number, v).Some?
    ensures Bindable(v) <==> Store(db, Text, v).Some?
    ensures Bindable(v) ==> NumberCell(db, v, Store(db, Number, v).value) && TextCell(db, v, Store(db, Text, v).value)
  {
  }

  predicate AllBindable(d: Entry, keys: set<string>) {
    forall k :: k in keys ==> Bindable(Field(d, k))
  }

  /** The dictionary `doc` has exactly the given keys, each with the cell of that field of `d`. */
  predicate NumberRow(db: Sqlite, d: Entry, keys: set<string>, doc: Json) {
    doc.Obj? && doc.fields.Keys == keys && forall k :: k in keys ==> k in doc.fields && NumberCell(db, Field(d, k), doc.fields[k])
  }

  lemma {:induction false} StoreAllIff(db: Sqlite, js: seq<Json>)
    ensures StoreAll(db, Number, js).Some? <==> forall i :: 0 <= i < |js| ==> Bindable(js[i])
  {
    if js != [] {
      StoreIs(db, js[0]);
      StoreAllIff(db, js[1..]);
      assert js == [js[0]] + js[1..];
    }
  }

  lemma RowReads(db: Sqlite, d: Entry, keys: seq<string>)
    requires Distinct(keys)
    ensures StoreAll(db, Number, Fields(d, keys)).Some? <==> AllBindable(d, Elems(keys))
    ensures StoreAll(db, Number, Fields(d, keys)).Some? ==>
              var cells := StoreAll(db, Number, Fields(d, keys)).value;
              |cells| == |keys| && NumberRow(db, d, Elems(keys), Obj(Zip(keys, cells)))
  {
    var js := Fields(d, keys);
    FieldsAre(d, keys);
    StoreAllIff(db, js);
    forall i | 0 <= i < |keys| ensures js[i] == Field(d, keys[i]) {}
    if StoreAll(db, Number, js).Some? {
      var cells := StoreAll(db, Number, js).value;
      StoredAre(db, Number, js);
      ZipIs(keys, cells);
      forall k | k in Elems(keys) ensures NumberCell(db, Field(d, k), Zip(keys, cells)[k]) {
        var i :| 0 <= i < |keys| && keys[i] == k;
        StoreIs(db, js[i]);
      }
    }
  }

  // ---------- one run ----------

  const RUN_KEYS: set<string> := {
    "total_duration_ns", "load_duration_ns", "prompt_eval_count", "prompt_eval_duration_ns", "eval_count",
    "eval_duration_ns", "decode_tok_per_s", "prefill_tok_per_s", "latency_s"}

  lemma RunKeys()
    ensures Elems(RUN_FIELDS) == RUN_KEYS
  {
    assert Elems(RUN_FIELDS) == set k | k in RUN_FIELDS;
  }

  predicate RunStorable(run: Json) {
    run.Obj? && if "error" in run.fields then Bindable(run.fields["error"]) else AllBindable(run.fields, RUN_KEYS)
  }

  /** A run with a non-null error reads back as its error alone; any other as its nine fields,
      all empty if it only had a null error. */
  predicate RunReads(db: Sqlite, run: Json, doc: Json) {
    run.Obj? && doc.Obj? &&
    if "error" in run.fields && run.fields["error"] != Null
    then doc.fields.Keys == {"error"} && TextCell(db, run.fields["error"], doc.fields["error"])
    else NumberRow(db, if "error" in run.fields then map[] else run.fields, RUN_KEYS, doc)
  }

  lemma NullRow(db: Sqlite, keys: seq<string>, cells: seq<Json>)
    requires Distinct(keys) && |cells| == |keys| && forall i :: 0 <= i < |cells| ==> cells[i] == Null
    ensures NumberRow(db, map[], Elems(keys), Obj(Zip(keys, cells)))
  {
    ZipIs(keys, cells);
    forall k | k in Elems(keys) ensures Zip(keys, cells)[k] == Null {
      var i :| 0 <= i < |keys| && keys[i] == k;
    }
  }

  lemma EmptyRow(db: Sqlite)
    ensures NumberRow(db, map[], RUN_KEYS, Obj(Zip(RUN_FIELDS, NO_CELLS)))
  {
    RunKeys();
    RunFieldsDistinct();
    NullRow(db, RUN_FIELDS, NO_CELLS);
  }

  lemma ErrorRunHolds(db: Sqlite, run: Json)
    requires run.Obj? && "error" in run.fields
    ensures FlattenRun(db, run).Some? <==> RunStorable(run)
    ensures FlattenRun(db, run).Some? ==> RunReads(db, run, RunDoc(FlattenRun(db, run).value))
  {
    StoreIs(db, run.fields["error"]);
    EmptyRow(db);
  }

  lemma RunHolds(db: Sqlite, run: Json)
    ensures FlattenRun(db, run).Some? <==> RunStorable(run)
    ensures FlattenRun(db, run).Some? ==> RunReads(db, run, RunDoc(FlattenRun(db, run).value))
  {
    if run.Obj? {
      if "error" in run.fields {
        ErrorRunHolds(db, run);
      } else {
        RunKeys();
        RunFieldsDistinct();
        RowReads(db, run.fields, RUN_FIELDS);
      }
    }
  }

  /** Element by element, `docs` is what `items` reads back as. */
  ghost predicate AllRead(rel: (Json, Json) -> bool, items: seq<Json>, docs: seq<Json>) {
    |docs| == |items| && forall i :: 0 <= i < |items| ==> rel(items[i], docs[i])
  }

  lemma AllReadMore(rel: (Json, Json) -> bool, items: seq<Json>, docs: seq<Json>)
    requires items != [] && docs != [] && rel(items[0], docs[0]) && AllRead(rel, items[1..], docs[1..])
    ensures AllRead(rel, items, docs)
  {
    forall i | 0 <= i < |items| ensures i < |docs| && rel(items[i], docs[i]) {
      if i > 0 { assert items[i] == items[1..][i - 1] && docs[i] == docs[1..][i - 1]; }
    }
  }

  function RunReader(db: Sqlite): (Json, Json) -> bool {
    (run: Json, doc: Json) => RunReads(db, run, doc)
  }

  ghost predicate RunsRead(db: Sqlite, runs: seq<Json>, docs: seq<Json>) {
    AllRead(RunReader(db), runs, docs)
  }

  lemma {:induction false} RunsHold(db: Sqlite, runs: seq<Json>)
    ensures FlattenRuns(db, runs).Some? <==> forall i :: 0 <= i < |runs| ==> RunStorable(runs[i])
    ensures FlattenRuns(db, runs).Some? ==> RunsRead(db, runs, RunDocs(FlattenRuns(db, runs).value))
    ensures FlattenRuns(db, runs).Some? ==> |FlattenRuns(db, runs).value| == |runs|
  {
    if runs != [] {
      RunHolds(db, runs[0]);
      RunsHold(db, runs[1..]);
      assert runs == [runs[0]] + runs[1..];
      if FlattenRuns(db, runs).Some? {
        var docs := RunDocs(FlattenRuns(db, runs).value);
        assert docs[1..] == RunDocs(FlattenRuns(db, runs[1..]).value);
        AllReadMore(RunReader(db), runs, docs);
      }
    }
  }

  // ---------- the statistics ----------

  const STATS: set<string> := {"decode_tok_per_s", "prefill_tok_per_s", "latency_s"}
  const FIGURES: set<string> := {"mean", "p50", "std", "min", "max"}

  lemma StatKeys()
    ensures Elems(STAT_KEYS) == STATS && Elems(STAT_FIELDS) == FIGURES
  {
    assert Elems(STAT_KEYS) == set k | k in STAT_KEYS;
    assert Elems(STAT_FIELDS) == set k | k in STAT_FIELDS;
  }

  /** Python's `j or {}`. */
  function Part(j: Json): Entry {
    if j.Obj? then j.fields else map[]
  }

  predicate PartOk(j: Json) {
    Truthy(j) ==> j.Obj?
  }

  predicate StatStorable(j: Json) {
    PartOk(j) && AllBindable(Part(j), FIGURES)
  }

  predicate StatsStorable(stats: Json) {
    PartOk(stats) && forall key :: key in STATS ==> StatStorable(Field(Part(stats), key))
  }

  /** All three statistics are read back, each with its five figures, empty where missing. */
  predicate StatsRead(db: Sqlite, stats: Json, doc: Json) {
    doc.Obj? && doc.fields.Keys == STATS &&
    forall key :: key in STATS ==> key in doc.fields && NumberRow(db, Part(Field(Part(stats), key)), FIGURES, doc.fields[key])
  }

  lemma OrEmptyIs(j: Json)
    ensures OrEmpty(j).Some? <==> PartOk(j)
    ensures OrEmpty(j).Some? ==> OrEmpty(j).value == Part(j)
  {
    if j.Obj? && !Truthy(j) { assert j.fields == map[]; }
  }

  lemma StatHolds(db: Sqlite, s: Entry, key: string)
    ensures StatCells(db, s, key).Some? <==> StatStorable(Field(s, key))
    ensures StatCells(db, s, key).Some? ==> NumberRow(db, Part(Field(s, key)), FIGURES, StatDoc(StatCells(db, s, key).value))
  {
    var j := Field(s, key);
    assert Get(s, key) == j;
    OrEmptyIs(j);
    StatKeys();
    RunFieldsDistinct();
    RowReads(db, Part(j), STAT_FIELDS);
  }

  lemma StatsStorableIff(db: Sqlite, stats: Json)
    ensures FlattenStats(db, stats).Some? <==> StatsStorable(stats)
  {
    var s := Part(stats);
    OrEmptyIs(stats);
    StatHolds(db, s, "decode_tok_per_s");
    StatHolds(db, s, "prefill_tok_per_s");
    StatHolds(db, s, "latency_s");
  }

  lemma StatsParts(db: Sqlite, stats: Json, f: FlatStats)
    requires FlattenStats(db, stats) == Some(f)
    ensures var s := Part(stats);
            && StatCells(db, s, "decode_tok_per_s") == Some(f.decode) && StatCells(db, s, "prefill_tok_per_s") == Some(f.prefill)
            && StatCells(db, s, "latency_s") == Some(f.latency)
  {
    OrEmptyIs(stats);
  }

  function StatReader(db: Sqlite, s: Entry): string -> Json -> bool {
    (key: string) => (v: Json) => NumberRow(db, Part(Field(s, key)), FIGURES, v)
  }

  lemma StatsHold(db: Sqlite, stats: Json)
    ensures FlattenStats(db, stats).Some? <==> StatsStorable(stats)
    ensures FlattenStats(db, stats).Some? ==> StatsRead(db, stats, StatsDoc(FlattenStats(db, stats).value))
  {
    StatsStorableIff(db, stats);
    if FlattenStats(db, stats).Some? {
      var f, s := FlattenStats(db, stats).value, Part(stats);
      StatsParts(db, stats, f);
      StatHolds(db, s, "decode_tok_per_s");
      StatHolds(db, s, "prefill_tok_per_s");
      StatHolds(db, s, "latency_s");
      ThreeRead(StatReader(db, s), StatDoc(f.decode), StatDoc(f.prefill), StatDoc(f.latency));
    }
  }

  lemma ThreeRead(rel: string -> Json -> bool, decode: Json, prefill: Json, latency: Json)
    requires rel("decode_tok_per_s")(decode) && rel("prefill_tok_per_s")(prefill) && rel("latency_s")(latency)
    ensures var d := Zip(STAT_KEYS, [decode, prefill, latency]);
            d.Keys == STATS && forall key :: key in STATS ==> key in d && rel(key)(d[key])
  {
    var docs := [decode, prefill, latency];
    StatKeys();
    RunFieldsDistinct();
    ZipIs(STAT_KEYS, docs);
    assert STAT_KEYS[0] == "decode_tok_per_s" && STAT_KEYS[1] == "prefill_tok_per_s" && STAT_KEYS[2] == "latency_s";
    var d := Zip(STAT_KEYS, docs);
    assert d["decode_tok_per_s"] == decode && d["prefill_tok_per_s"] == prefill && d["latency_s"] == latency;
  }

  // ---------- one model ----------

  /** What a loop over the value visits, if it visits anything that can be kept. */
  predicate Visits(j: Json, items: seq<Json>) {
    (j.Arr? && items == j.items) || (items == [] && (j == Str("") || j == Obj(map[])))
  }

  /** The runs of a model; a model without the field has none. */
  predicate RunsOf(m: Entry, runs: seq<Json>) {
    Visits(if "runs" in m then m["runs"] else Arr([]), runs)
  }

  ghost predicate ModelStorable(m: Json) {
    && m.Obj? && "model" in m.fields && m.fields["model"] != Null
    && AllBindable(m.fields, {"model", "reason", "warmup_s", "n_valid", "n_total"})
    && StatsStorable(Field(m.fields, "stats"))
    && exists runs :: RunsOf(m.fields, runs) && forall i :: 0 <= i < |runs| ==> RunStorable(runs[i])
  }

  /** The fields that every measured model is read back with. */
  ghost predicate MeasuredRead(db: Sqlite, m: Entry, runs: seq<Json>, doc: Entry) {
    && "model" in doc && TextCell(db, Field(m, "model"), doc["model"])
    && "runs" in doc && doc["runs"].Arr? && RunsRead(db, runs, doc["runs"].items)
    && "stats" in doc && StatsRead(db, Field(m, "stats"), doc["stats"])
    && "n_valid" in doc && NumberCell(db, Field(m, "n_valid"), doc["n_valid"])
    && "n_total" in doc && NumberCell(db, Field(m, "n_total"), doc["n_total"])
  }

  predicate MeasuredKeys(doc: Entry) {
    doc.Keys == {"model", "runs", "stats", "n_valid", "n_total"}
  }

  /** A model of a comparison: skipped ones keep name, reason and the runs they have; measured
      ones every field, and a warm-up time that is not null. */
  ghost predicate ModelReads(db: Sqlite, m: Entry, runs: seq<Json>, doc: Entry) {
    if Truthy(Field(m, "skipped")) then
      && doc.Keys == (if runs == [] then {"model", "skipped", "reason"} else {"model", "skipped", "reason", "runs"})
      && TextCell(db, Field(m, "model"), doc["model"]) && doc["skipped"] == Bool(true)
      && TextCell(db, Field(m, "reason"), doc["reason"])
      && ("runs" in doc ==> doc["runs"].Arr? && RunsRead(db, runs, doc["runs"].items))
    else
      && MeasuredRead(db, m, runs, doc) && MeasuredKeys(doc - {"warmup_s"})
      && (if "warmup_s" in doc then doc["warmup_s"] != Null && NumberCell(db, Field(m, "warmup_s"), doc["warmup_s"])
          else NumberCell(db, Field(m, "warmup_s"), Null))
  }

  lemma IteratedIs(j: Json)
    ensures Iterated(j).Some? ==> Visits(j, Iterated(j).value)
    ensures forall items :: Visits(j, items) ==> Iterated(j) == Some(items)
  {
  }

  lemma RunsFieldHolds(db: Sqlite, m: Entry)
    ensures FlatRunsOf(db, m).Some? <==> exists runs :: RunsOf(m, runs) && forall i :: 0 <= i < |runs| ==> RunStorable(runs[i])
    ensures FlatRunsOf(db, m).Some? ==>
              exists runs :: RunsOf(m, runs) && |runs| == |FlatRunsOf(db, m).value| && RunsRead(db, runs, RunDocs(FlatRunsOf(db, m).value))
  {
    var j := if "runs" in m then m["runs"] else Arr([]);
    assert GetOr(m, "runs", Arr([])) == j;
    IteratedIs(j);
    if Iterated(j).Some? { RunsHold(db, Iterated(j).value); }
  }

  lemma ColumnsHold(db: Sqlite, m: Entry)
    ensures FlatColumns(db, m).Some? <==>
              "model" in m && m["model"] != Null && AllBindable(m, {"model", "reason", "warmup_s", "n_valid", "n_total"})
    ensures FlatColumns(db, m).Some? ==>
              var c := FlatColumns(db, m).value;
              && TextCell(db, Field(m, "model"), c.name) && TextCell(db, Field(m, "reason"), c.reason)
              && NumberCell(db, Field(m, "warmup_s"), c.warmup) && NumberCell(db, Field(m, "n_valid"), c.nValid)
              && NumberCell(db, Field(m, "n_total"), c.nTotal)
  {
    StoreIs(db, Field(m, "model"));
    StoreIs(db, Field(m, "reason"));
    StoreIs(db, Field(m, "warmup_s"));
    StoreIs(db, Field(m, "n_valid"));
    StoreIs(db, Field(m, "n_total"));
    assert Get(m, "model") == Field(m, "model") && Get(m, "reason") == Field(m, "reason");
    assert Get(m, "warmup_s") == Field(m, "warmup_s") && Get(m, "n_valid") == Field(m, "n_valid");
    assert Get(m, "n_total") == Field(m, "n_total");
  }

  lemma ModelStorableIff(db: Sqlite, m: Json)
    ensures FlattenModel(db, m).Some? <==> ModelStorable(m)
  {
    if m.Obj? {
      ColumnsHold(db, m.fields);
      StatsHold(db, Field(m.fields, "stats"));
      RunsFieldHolds(db, m.fields);
      assert Get(m.fields, "stats") == Field(m.fields, "stats");
    }
  }

  lemma FiveFields(f: FlatModel)
    ensures var d := BossDoc(f);
            && MeasuredKeys(d) && d["model"] == f.cols.name && d["runs"] == Arr(RunDocs(f.runs)) && d["stats"] == StatsDoc(f.stats)
            && d["n_valid"] == f.cols.nValid && d["n_total"] == f.cols.nTotal
  {
  }

  lemma MeasuredFrom(db: Sqlite, m: Entry, runs: seq<Json>, d: Entry)
    requires MeasuredKeys(d)
    requires TextCell(db, Field(m, "model"), d["model"]) && d["runs"].Arr? && RunsRead(db, runs, d["runs"].items)
    requires StatsRead(db, Field(m, "stats"), d["stats"])
    requires NumberCell(db, Field(m, "n_valid"), d["n_valid"]) && NumberCell(db, Field(m, "n_total"), d["n_total"])
    ensures MeasuredRead(db, m, runs, d)
  {
  }

  lemma BossFields(db: Sqlite, m: Entry, runs: seq<Json>, f: FlatModel)
    requires TextCell(db, Field(m, "model"), f.cols.name) && RunsRead(db, runs, RunDocs(f.runs))
    requires StatsRead(db, Field(m, "stats"), StatsDoc(f.stats))
    requires NumberCell(db, Field(m, "n_valid"), f.cols.nValid) && NumberCell(db, Field(m, "n_total"), f.cols.nTotal)
    ensures MeasuredRead(db, m, runs, BossDoc(f)) && MeasuredKeys(BossDoc(f))
  {
    FiveFields(f);
    MeasuredFrom(db, m, runs, BossDoc(f));
  }

  /** What the flattened parts of a model are. */
  lemma Flattened(db: Sqlite, m: Json, f: FlatModel)
    requires FlattenModel(db, m) == Some(f)
    ensures FlatColumns(db, m.fields) == Some(f.cols) && FlattenStats(db, Field(m.fields, "stats")) == Some(f.stats)
    ensures FlatRunsOf(db, m.fields) == Some(f.runs) && f.skipped == Truthy(Field(m.fields, "skipped"))
  {
    assert Get(m.fields, "stats") == Field(m.fields, "stats") && Get(m.fields, "skipped") == Field(m.fields, "skipped");
  }

  lemma BossReads(db: Sqlite, m: Json, f: FlatModel) returns (runs: seq<Json>)
    requires FlattenModel(db, m) == Some(f)
    ensures RunsOf(m.fields, runs) && |runs| == |f.runs| && RunsRead(db, runs, RunDocs(f.runs))
    ensures MeasuredRead(db, m.fields, runs, BossDoc(f)) && MeasuredKeys(BossDoc(f))
  {
    Flattened(db, m, f);
    ColumnsHold(db, m.fields);
    StatsHold(db, Field(m.fields, "stats"));
    RunsFieldHolds(db, m.fields);
    runs :| RunsOf(m.fields, runs) && |runs| == |f.runs| && RunsRead(db, runs, RunDocs(f.runs));
    BossFields(db, m.fields, runs, f);
  }

  lemma WarmupRead(db: Sqlite, m: Entry, f: FlatModel)
    requires !f.skipped && NumberCell(db, Field(m, "warmup_s"), f.cols.warmup)
    ensures var doc := ModelDoc(f).fields;
            && doc - {"warmup_s"} == BossDoc(f)
            && (if "warmup_s" in doc then doc["warmup_s"] != Null && NumberCell(db, Field(m, "warmup_s"), doc["warmup_s"])
                else NumberCell(db, Field(m, "warmup_s"), Null))
  {
    var b := BossDoc(f);
    assert "warmup_s" !in b;
    assert b["warmup_s" := f.cols.warmup] - {"warmup_s"} == b && b - {"warmup_s"} == b;
  }

  lemma SkippedReads(db: Sqlite, m: Entry, runs: seq<Json>, f: FlatModel)
    requires f.skipped && Truthy(Field(m, "skipped")) && |runs| == |f.runs| && RunsRead(db, runs, RunDocs(f.runs))
    requires TextCell(db, Field(m, "model"), f.cols.name) && TextCell(db, Field(m, "reason"), f.cols.reason)
    ensures ModelReads(db, m, runs, ModelDoc(f).fields)
  {
  }

  lemma MeasuredMore(db: Sqlite, m: Entry, runs: seq<Json>, doc: Entry)
    requires MeasuredRead(db, m, runs, doc - {"warmup_s"})
    ensures MeasuredRead(db, m, runs, doc)
  {
  }

  /** What a model of a comparison reads back as. */
  lemma ModelHolds(db: Sqlite, m: Json, f: FlatModel) returns (runs: seq<Json>)
    requires FlattenModel(db, m) == Some(f)
    ensures ModelDoc(f).Obj? && RunsOf(m.fields, runs) && ModelReads(db, m.fields, runs, ModelDoc(f).fields)
  {
    runs := BossReads(db, m, f);
    Flattened(db, m, f);
    ColumnsHold(db, m.fields);
    if f.skipped {
      SkippedReads(db, m.fields, runs, f);
    } else {
      WarmupRead(db, m.fields, f);
      MeasuredMore(db, m.fields, runs, ModelDoc(f).fields);
    }
  }

  ghost predicate ModelReadAs(db: Sqlite, m: Json, doc: Json) {
    m.Obj? && doc.Obj? && exists runs :: RunsOf(m.fields, runs) && ModelReads(db, m.fields, runs, doc.fields)
  }

  ghost function ModelReader(db: Sqlite): (Json, Json) -> bool {
    (m: Json, doc: Json) => ModelReadAs(db, m, doc)
  }

  ghost predicate ModelsReadAs(db: Sqlite, ms: seq<Json>, docs: seq<Json>) {
    AllRead(ModelReader(db), ms, docs)
  }

  lemma ModelIsRead(db: Sqlite, m: Json, f: FlatModel)
    requires FlattenModel(db, m) == Some(f)
    ensures ModelReader(db)(m, ModelDoc(f))
  {
    var runs := ModelHolds(db, m, f);
  }

  lemma {:induction false} ModelsHold(db: Sqlite, ms: seq<Json>)
    ensures FlattenModels(db, ms).Some? <==> forall i :: 0 <= i < |ms| ==> ModelStorable(ms[i])
    ensures FlattenModels(db, ms).Some? ==> ModelsReadAs(db, ms, ModelDocs(FlattenModels(db, ms).value))
  {
    if ms != [] {
      ModelStorableIff(db, ms[0]);
      ModelsHold(db, ms[1..]);
      StorableSplit(ms);
      FlattenSplit(db, ms);
      if FlattenModels(db, ms).Some? {
        var docs := ModelDocs(FlattenModels(db, ms).value);
        ModelIsRead(db, ms[0], FlattenModel(db, ms[0]).value);
        AllReadMore(ModelReader(db), ms, docs);
      }
    }
  }

  lemma StorableSplit(ms: seq<Json>)
    requires ms != []
    ensures (forall i :: 0 <= i < |ms| ==> ModelStorable(ms[i])) <==>
            ModelStorable(ms[0]) && forall i :: 0 <= i < |ms[1..]| ==> ModelStorable(ms[1..][i])
  {
    assert ms == [ms[0]] + ms[1..];
  }

  lemma FlattenSplit(db: Sqlite, ms: seq<Json>)
    requires ms != []
    ensures FlattenModels(db, ms).Some? <==> FlattenModel(db, ms[0]).Some? && FlattenModels(db, ms[1..]).Some?
    ensures FlattenModels(db, ms).Some? ==>
              var docs := ModelDocs(FlattenModels(db, ms).value);
              && docs != [] && docs[0] == ModelDoc(FlattenModel(db, ms[0]).value)
              && docs[1..] == ModelDocs(FlattenModels(db, ms[1..]).value)
  {
  }

  // ---------- one session ----------

  /** No two models are stored under the same name. */
  ghost predicate NamesDiffer(db: Sqlite, ms: seq<Json>) {
    forall i, j, c :: 0 <= i < j < |ms| && ms[i].Obj? && ms[j].Obj? && TextCell(db, Field(ms[i].fields, "model"), c) ==>
      !TextCell(db, Field(ms[j].fields, "model"), c)
  }

  /** The models of a comparison; a document without the field has none. */
  predicate ModelsOf(doc: Entry, ms: seq<Json>) {
    Visits(if "models" in doc then doc["models"] else Arr([]), ms)
  }

  /** All of them can be stored, under different names. */
  ghost predicate ModelsStorable(db: Sqlite, d: Entry) {
    exists ms :: ModelsOf(d, ms) && NamesDiffer(db, ms) && forall i :: 0 <= i < |ms| ==> ModelStorable(ms[i])
  }

  /** What `append_session` can store. */
  ghost predicate SessionStorable(db: Sqlite, kind: Kind, doc: Json) {
    if kind.Boss? then ModelStorable(doc)
    else
      && doc.Obj? && AllBindable(doc.fields, {"n_runs_per_model", "total_elapsed_s"})
      && ModelsStorable(db, doc.fields)
  }

  /** What the stored document reads back as. */
  ghost predicate SessionReads(db: Sqlite, kind: Kind, doc: Entry, back: Entry) {
    if kind.Boss? then
      MeasuredKeys(back) && exists runs :: RunsOf(doc, runs) && MeasuredRead(db, doc, runs, back)
    else
      && back.Keys == {"n_runs_per_model", "models", "ranking", "total_elapsed_s"}
      && NumberCell(db, Field(doc, "n_runs_per_model"), back["n_runs_per_model"])
      && NumberCell(db, Field(doc, "total_elapsed_s"), back["total_elapsed_s"])
      && back["ranking"] == Field(doc, "ranking") && back["models"].Arr?
      && exists ms :: ModelsOf(doc, ms) && ModelsReadAs(db, ms, back["models"].items)
  }

  lemma NamesAre(db: Sqlite, ms: seq<Json>, fs: seq<FlatModel>)
    requires FlattenModels(db, ms) == Some(fs)
    ensures |fs| == |ms| && forall i :: 0 <= i < |ms| ==> ms[i].Obj? && NameIs(db, ms[i].fields, fs[i].cols.name)
  {
    if ms != [] {
      ColumnsHold(db, ms[0].fields);
      TextCellUnique(db, Field(ms[0].fields, "model"), fs[0].cols.name);
      NamesAre(db, ms[1..], fs[1..]);
      forall i | 0 <= i < |ms| ensures ms[i].Obj? && NameIs(db, ms[i].fields, fs[i].cols.name) {
        if i > 0 { assert ms[i] == ms[1..][i - 1] && fs[i] == fs[1..][i - 1]; }
      }
    }
  }

  ghost predicate NameIs(db: Sqlite, m: Entry, name: Json) {
    forall c :: TextCell(db, Field(m, "model"), c) <==> c == name
  }

  lemma TextCellUnique(db: Sqlite, v: Json, c: Json)
    requires TextCell(db, v, c)
    ensures forall d :: TextCell(db, v, d) <==> d == c
  {
  }

  lemma NamesIff(db: Sqlite, ms: seq<Json>, fs: seq<FlatModel>)
    requires FlattenModels(db, ms) == Some(fs)
    ensures ModelNamesDistinct(fs) <==> NamesDiffer(db, ms)
  {
    NamesAre(db, ms, fs);
    forall i, j | 0 <= i < j < |ms|
      ensures fs[i].cols.name != fs[j].cols.name <==>
              forall c :: TextCell(db, Field(ms[i].fields, "model"), c) ==> !TextCell(db, Field(ms[j].fields, "model"), c)
    {
      assert NameIs(db, ms[i].fields, fs[i].cols.name) && NameIs(db, ms[j].fields, fs[j].cols.name);
      assert TextCell(db, Field(ms[i].fields, "model"), fs[i].cols.name);
    }
  }

  /** The models of a comparison, flattened. */
  function FlatModelsOf(db: Sqlite, d: Entry): Option<seq<FlatModel>> {
    match Iterated(GetOr(d, "models", Arr([])))
    case Some(ms) => FlattenModels(db, ms)
    case None => None
  }

  lemma ModelsStorableIff(db: Sqlite, d: Entry)
    ensures ModelsStorable(db, d) <==> FlatModelsOf(db, d).Some? && ModelNamesDistinct(FlatModelsOf(db, d).value)
  {
    var j := if "models" in d then d["models"] else Arr([]);
    assert GetOr(d, "models", Arr([])) == j;
    IteratedIs(j);
    if Iterated(j).Some? {
      var ms := Iterated(j).value;
      ModelsHold(db, ms);
      if FlattenModels(db, ms).Some? { NamesIff(db, ms, FlattenModels(db, ms).value); }
    }
  }

  lemma MultiStorableIff(db: Sqlite, d: Entry)
    ensures FlattenSession(db, Multi, Obj(d)).Some? <==> SessionStorable(db, Multi, Obj(d))
  {
    assert Get(d, "n_runs_per_model") == Field(d, "n_runs_per_model") && Get(d, "total_elapsed_s") == Field(d, "total_elapsed_s");
    StoreIs(db, Field(d, "n_runs_per_model"));
    StoreIs(db, Field(d, "total_elapsed_s"));
    ModelsStorableIff(db, d);
    MultiSome(db, d);
  }

  lemma MultiSome(db: Sqlite, d: Entry)
    ensures FlattenSession(db, Multi, Obj(d)).Some? <==>
            && Store(db, Number, Get(d, "n_runs_per_model")).Some? && Store(db, Number, Get(d, "total_elapsed_s")).Some?
            && FlatModelsOf(db, d).Some? && ModelNamesDistinct(FlatModelsOf(db, d).value)
  {
  }

  /** A document can be stored exactly if all its parts can and its models have different names. */
  lemma StorableIff(db: Sqlite, kind: Kind, doc: Json)
    ensures FlattenSession(db, kind, doc).Some? <==> SessionStorable(db, kind, doc)
  {
    if kind.Boss? {
      ModelStorableIff(db, doc);
    } else if doc.Obj? {
      MultiStorableIff(db, doc.fields);
    }
  }

  lemma MultiReads(db: Sqlite, d: Entry, s: FlatSession)
    requires FlattenSession(db, Multi, Obj(d)) == Some(s)
    ensures SessionDoc(s).Obj? && SessionReads(db, Multi, d, SessionDoc(s).fields)
  {
    var j := if "models" in d then d["models"] else Arr([]);
    assert GetOr(d, "models", Arr([])) == j;
    assert Get(d, "n_runs_per_model") == Field(d, "n_runs_per_model") && Get(d, "total_elapsed_s") == Field(d, "total_elapsed_s");
    StoreIs(db, Field(d, "n_runs_per_model"));
    StoreIs(db, Field(d, "total_elapsed_s"));
    IteratedIs(j);
    ModelsHold(db, Iterated(j).value);
    var back := SessionDoc(s).fields;
    assert back["models"] == Arr(ModelDocs(s.models)) && back["n_runs_per_model"] == s.nRuns && back["total_elapsed_s"] == s.total;
  }

  /** Every stored document reads back field by field: a whole one as it was, any other with
      what it lacks left empty and what is no column left out. */
  lemma StoredReads(db: Sqlite, kind: Kind, doc: Json, s: FlatSession)
    requires FlattenSession(db, kind, doc) == Some(s)
    ensures SessionDoc(s).Obj? && SessionReads(db, kind, doc.fields, SessionDoc(s).fields)
  {
    if kind.Boss? {
      var runs := BossReads(db, doc, s.models[0]);
    } else {
      MultiReads(db, doc.fields, s);
    }
  }
}
