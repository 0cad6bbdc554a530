/** A document is rebuilt from its rows unchanged exactly when it is whole. */
module MeasurementExact {
  import opened Json
  import opened Basics
  import opened MeasurementRows

  // ---------- rows of cells ----------

  lemma {:induction false} FieldsAre(d: Entry, keys: seq<string>)
    ensures |Fields(d, keys)| == |keys| && forall i :: 0 <= i < |keys| ==> Fields(d, keys)[i] == Get(d, keys[i])
  {
    if keys != [] { FieldsAre(d, keys[1..]); }
  }

  lemma {:induction false} StoredAre(db: Sqlite, aff: Affinity, js: seq<Json>)
    requires StoreAll(db, aff, js).Some?
    ensures var cs := StoreAll(db, aff, js).value;
            |cs| == |js| && forall i :: 0 <= i < |js| ==> Store(db, aff, js[i]) == Some(cs[i])
  {
    if js != [] { StoredAre(db, aff, js[1..]); }
  }

  lemma {:induction false} ZipIs(keys: seq<string>, cells: seq<Json>)
    requires |keys| == |cells| && Distinct(keys)
    ensures Zip(keys, cells).Keys == Elems(keys)
    ensures forall i :: 0 <= i < |keys| ==> keys[i] in Zip(keys, cells) && Zip(keys, cells)[keys[i]] == cells[i]
  {
    if keys != [] {
      ZipIs(keys[1..], cells[1..]);
      var z := Zip(keys, cells);
      assert keys == [keys[0]] + keys[1..];
      forall i | 0 <= i < |keys| ensures keys[i] in z && z[keys[i]] == cells[i] {
        if i > 0 {
          assert keys[1..][i - 1] == keys[i] && cells[1..][i - 1] == cells[i];
          assert keys[0] != keys[i];
        }
      }
    }
  }

  ghost predicate Whole(good: Json -> bool, d: Entry, keys: seq<string>) {
    d.Keys == Elems(keys) && forall k :: k in keys ==> k in d && good(d[k])
  }

  /** Naming cells again gives a dictionary back exactly when it has those keys and each cell
      is as it was. */
  lemma ZipIff(good: Json -> bool, d: Entry, keys: seq<string>, cells: seq<Json>)
    requires Distinct(keys) && |cells| == |keys|
    requires forall i :: 0 <= i < |keys| ==> (cells[i] == Get(d, keys[i]) <==> good(Get(d, keys[i])))
    ensures Zip(keys, cells) == d <==> Whole(good, d, keys)
  {
    ZipIs(keys, cells);
    var z := Zip(keys, cells);
    if z == d {
      forall k | k in keys ensures k in d && good(d[k]) {
        var i :| 0 <= i < |keys| && keys[i] == k;
        assert z[keys[i]] == cells[i];
      }
    }
    if Whole(good, d, keys) {
      forall k | k in d ensures z[k] == d[k] {
        var i :| 0 <= i < |keys| && keys[i] == k;
        assert good(d[k]);
      }
    }
  }

  lemma RowIff(db: Sqlite, d: Entry, keys: seq<string>, cells: seq<Json>)
    requires Distinct(keys) && StoreAll(db, Number, Fields(d, keys)) == Some(cells)
    ensures |cells| == |keys| && (Zip(keys, cells) == d <==> FullRow(db, d, keys))
  {
    FieldsAre(d, keys);
    StoredAre(db, Number, Fields(d, keys));
    var good := (j: Json) => Kept(db, Number, j);
    ZipIff(good, d, keys, cells);
    assert Whole(good, d, keys) <==> FullRow(db, d, keys);
  }

  lemma RunFieldsDistinct()
    ensures Distinct(RUN_FIELDS) && Distinct(STAT_FIELDS) && Distinct(STAT_KEYS)
  {
  }

  // ---------- one run ----------

  lemma ErrorEntry(f: Entry, e: Json)
    requires "error" in f
    ensures map["error" := e] == f <==> f.Keys == {"error"} && f["error"] == e
  {
    if f.Keys == {"error"} { assert f == map["error" := f["error"]]; }
  }

  lemma ErrorIsNoField()
    ensures "error" !in RUN_FIELDS
  {
    forall i | 0 <= i < |RUN_FIELDS| ensures RUN_FIELDS[i] != "error" {
      assert |RUN_FIELDS[i]| > 5;
    }
  }

  lemma ZipLacks(keys: seq<string>, cells: seq<Json>, k: string, d: Entry)
    requires |keys| == |cells| && Distinct(keys) && k !in keys && k in d
    ensures Zip(keys, cells) != d
  {
    ZipIs(keys, cells);
    assert k !in Elems(keys);
  }

  /** An error row without its text reads as a run of nine empty fields. */
  lemma NoErrorLost(r: FlatRun, run: Json)
    requires run.Obj? && "error" in run.fields && r == FlatRun(Null, NO_CELLS)
    ensures RunDoc(r) != run
  {
    RunFieldsDistinct();
    ErrorIsNoField();
    ZipLacks(RUN_FIELDS, NO_CELLS, "error", run.fields);
  }

  lemma ErrorRunIff(db: Sqlite, run: Json, r: FlatRun)
    requires run.Obj? && "error" in run.fields && FlattenRun(db, run) == Some(r)
    ensures RunDoc(r) == run <==> WholeRun(db, run)
  {
    if r.error == Null {
      NoErrorLost(r, run);
    } else {
      ErrorEntry(run.fields, r.error);
    }
  }

  lemma RunIff(db: Sqlite, run: Json, r: FlatRun)
    requires FlattenRun(db, run) == Some(r)
    ensures RunDoc(r) == run <==> WholeRun(db, run)
  {
    if "error" in run.fields {
      ErrorRunIff(db, run, r);
    } else {
      RunFieldsDistinct();
      RowIff(db, run.fields, RUN_FIELDS, r.cells);
    }
  }

  lemma {:induction false} RunsIff(db: Sqlite, runs: seq<Json>, rs: seq<FlatRun>)
    requires FlattenRuns(db, runs) == Some(rs)
    ensures RunDocs(rs) == runs <==> WholeRuns(db, Arr(runs))
    ensures |rs| == |runs|
  {
    if runs != [] {
      RunIff(db, runs[0], rs[0]);
      RunsIff(db, runs[1..], rs[1..]);
      assert runs == [runs[0]] + runs[1..];
      WholeRunsSplit(db, runs);
      HeadAndTail(RunDocs(rs), runs, RunDoc(rs[0]), RunDocs(rs[1..]));
    }
  }

  lemma WholeRunsSplit(db: Sqlite, runs: seq<Json>)
    requires runs != []
    ensures WholeRuns(db, Arr(runs)) <==> WholeRun(db, runs[0]) && WholeRuns(db, Arr(runs[1..]))
  {
    if WholeRun(db, runs[0]) && WholeRuns(db, Arr(runs[1..])) {
      forall i | 0 <= i < |runs| ensures WholeRun(db, runs[i]) {
        if i > 0 { assert runs[i] == runs[1..][i - 1]; }
      }
    }
  }

  lemma HeadAndTail(a: seq<Json>, b: seq<Json>, head: Json, tail: seq<Json>)
    requires a == [head] + tail && b != []
    ensures a == b <==> head == b[0] && tail == b[1..]
  {
    assert b == [b[0]] + b[1..];
    if a == b { assert tail == a[1..]; }
  }

  // ---------- the statistics ----------

  lemma StatCellsIff(db: Sqlite, j: Json, d: Entry, keys: seq<string>, cells: seq<Json>)
    requires Distinct(keys) && keys != [] && OrEmpty(j) == Some(d) && StoreAll(db, Number, Fields(d, keys)) == Some(cells)
    ensures |cells| == |keys|
    ensures Obj(Zip(keys, cells)) == j <==> j.Obj? && FullRow(db, j.fields, keys)
  {
    RowIff(db, d, keys, cells);
    ZipIs(keys, cells);
    assert keys[0] in Zip(keys, cells);
  }

  lemma StatIff(db: Sqlite, s: Entry, key: string, cells: seq<Json>)
    requires StatCells(db, s, key) == Some(cells)
    ensures StatDoc(cells) == Get(s, key) <==> WholeStat(db, Get(s, key))
  {
    RunFieldsDistinct();
    StatCellsIff(db, Get(s, key), OrEmpty(Get(s, key)).value, STAT_FIELDS, cells);
  }

  lemma StatsZip(db: Sqlite, s: Entry, keys: seq<string>, docs: seq<Json>)
    requires |docs| == |keys| && Distinct(keys)
    requires forall i :: 0 <= i < |keys| ==> (docs[i] == Get(s, keys[i]) <==> WholeStat(db, Get(s, keys[i])))
    ensures Zip(keys, docs) == s <==> FullStats(db, s, keys)
  {
    var good := (j: Json) => WholeStat(db, j);
    ZipIff(good, s, keys, docs);
    assert Whole(good, s, keys) <==> FullStats(db, s, keys);
  }

  lemma StatsIff(db: Sqlite, stats: Json, f: FlatStats)
    requires FlattenStats(db, stats) == Some(f)
    ensures StatsDoc(f) == stats <==> WholeStats(db, stats)
  {
    RunFieldsDistinct();
    var s := OrEmpty(stats).value;
    var docs := [StatDoc(f.decode), StatDoc(f.prefill), StatDoc(f.latency)];
    StatIff(db, s, STAT_KEYS[0], f.decode);
    StatIff(db, s, STAT_KEYS[1], f.prefill);
    StatIff(db, s, STAT_KEYS[2], f.latency);
    StatsZip(db, s, STAT_KEYS, docs);
    StatsNotEmpty(docs);
  }

  lemma StatsNotEmpty(docs: seq<Json>)
    requires |docs| == |STAT_KEYS|
    ensures Zip(STAT_KEYS, docs) != map[]
  {
    RunFieldsDistinct();
    ZipIs(STAT_KEYS, docs);
    assert STAT_KEYS[0] in Zip(STAT_KEYS, docs);
  }

  // ---------- one model ----------

  /** The rows of `f` are those of the dictionary `d`, its warm-up time aside. */
  ghost predicate Measures(db: Sqlite, d: Entry, f: FlatModel) {
    && Store(db, Text, Get(d, "model")) == Some(f.cols.name) && f.cols.name != Null
    && Store(db, Number, Get(d, "n_valid")) == Some(f.cols.nValid)
    && Store(db, Number, Get(d, "n_total")) == Some(f.cols.nTotal)
    && FlattenStats(db, Get(d, "stats")) == Some(f.stats)
    && FlatRunsOf(db, d) == Some(f.runs)
  }

  lemma RunsFieldIff(db: Sqlite, d: Entry, rs: seq<FlatRun>)
    requires "runs" in d && FlatRunsOf(db, d) == Some(rs)
    ensures Arr(RunDocs(rs)) == d["runs"] <==> WholeRuns(db, d["runs"])
    ensures WholeRuns(db, d["runs"]) ==> (rs == [] <==> d["runs"].items == [])
  {
    if d["runs"].Arr? { RunsIff(db, d["runs"].items, rs); }
  }

  lemma FiveKeys(f: FlatModel, d: Entry)
    requires d.Keys == {"model", "runs", "stats", "n_valid", "n_total"}
    ensures BossDoc(f) == d <==>
            && d["model"] == f.cols.name && d["runs"] == Arr(RunDocs(f.runs)) && d["stats"] == StatsDoc(f.stats)
            && d["n_valid"] == f.cols.nValid && d["n_total"] == f.cols.nTotal
  {
    assert BossDoc(f).Keys == d.Keys;
  }

  lemma MeasuredIff(db: Sqlite, d: Entry, f: FlatModel)
    requires Measures(db, d, f)
    ensures BossDoc(f) == d <==> WholeMeasured(db, d)
  {
    if d.Keys == {"model", "runs", "stats", "n_valid", "n_total"} {
      FiveKeys(f, d);
      RunsFieldIff(db, d, f.runs);
      StatsIff(db, d["stats"], f.stats);
    } else {
      assert BossDoc(f).Keys == {"model", "runs", "stats", "n_valid", "n_total"};
    }
  }

  lemma SkippedKeys(f: FlatModel, d: Entry)
    requires f.skipped && ModelDoc(f) == Obj(d)
    ensures d.Keys == if f.runs == [] then {"model", "skipped", "reason"} else {"model", "skipped", "reason", "runs"}
    ensures d["model"] == f.cols.name && d["skipped"] == Bool(true) && d["reason"] == f.cols.reason
    ensures "runs" in d ==> d["runs"] == Arr(RunDocs(f.runs))
  {
  }

  lemma SkippedFrom(f: FlatModel, d: Entry)
    requires f.skipped
    requires d.Keys == if f.runs == [] then {"model", "skipped", "reason"} else {"model", "skipped", "reason", "runs"}
    requires d["model"] == f.cols.name && d["skipped"] == Bool(true) && d["reason"] == f.cols.reason
    requires "runs" in d ==> d["runs"] == Arr(RunDocs(f.runs))
    ensures ModelDoc(f) == Obj(d)
  {
    assert ModelDoc(f).fields == d;
  }

  lemma RunsThere(db: Sqlite, d: Entry, rs: seq<FlatRun>)
    requires FlatRunsOf(db, d) == Some(rs) && rs != []
    ensures "runs" in d
  {
  }

  lemma SkippedIff(db: Sqlite, d: Entry, f: FlatModel)
    requires FlattenModel(db, Obj(d)) == Some(f) && f.skipped
    ensures ModelDoc(f) == Obj(d) <==> WholeSkipped(db, d)
  {
    if "runs" in d { RunsFieldIff(db, d, f.runs); }
    if f.runs != [] { RunsThere(db, d, f.runs); }
    if ModelDoc(f) == Obj(d) { SkippedKeys(f, d); }
    if WholeSkipped(db, d) { SkippedFrom(f, d); }
  }

  lemma WarmupAside(db: Sqlite, d: Entry, f: FlatModel)
    requires Measures(db, d, f)
    ensures Measures(db, d - {"warmup_s"}, f)
  {
    var e := d - {"warmup_s"};
    assert Get(e, "model") == Get(d, "model") && Get(e, "stats") == Get(d, "stats");
    assert GetOr(e, "runs", Arr([])) == GetOr(d, "runs", Arr([]));
  }

  lemma WarmupDoc(f: FlatModel, d: Entry)
    requires !f.skipped && "warmup_s" in d
    ensures ModelDoc(f) == Obj(d) <==> f.cols.warmup != Null && d["warmup_s"] == f.cols.warmup && BossDoc(f) == d - {"warmup_s"}
  {
    var b := BossDoc(f);
    assert "warmup_s" !in b;
    if ModelDoc(f) == Obj(d) && f.cols.warmup != Null {
      assert d == b["warmup_s" := f.cols.warmup];
      assert b == d - {"warmup_s"};
    }
    if d["warmup_s"] == f.cols.warmup && b == d - {"warmup_s"} {
      assert d == b["warmup_s" := f.cols.warmup];
    }
  }

  /** A model is rebuilt unchanged exactly when it is whole. */
  lemma ModelIff(db: Sqlite, m: Json, f: FlatModel)
    requires FlattenModel(db, m) == Some(f)
    ensures ModelDoc(f) == m <==> WholeModel(db, m)
  {
    var d := m.fields;
    if f.skipped {
      SkippedIff(db, d, f);
    } else if "warmup_s" in d {
      WarmupAside(db, d, f);
      MeasuredIff(db, d - {"warmup_s"}, f);
      WarmupDoc(f, d);
    } else {
      MeasuredIff(db, d, f);
    }
  }

  lemma WholeModelsSplit(db: Sqlite, ms: seq<Json>)
    requires ms != []
    ensures WholeModels(db, ms) <==> WholeModel(db, ms[0]) && WholeModels(db, ms[1..])
  {
    if WholeModel(db, ms[0]) && WholeModels(db, ms[1..]) {
      forall i | 0 <= i < |ms| ensures WholeModel(db, ms[i]) {
        if i > 0 { assert ms[i] == ms[1..][i - 1]; }
      }
    }
  }

  lemma {:induction false} ModelsIff(db: Sqlite, ms: seq<Json>, fs: seq<FlatModel>)
    requires FlattenModels(db, ms) == Some(fs)
    ensures ModelDocs(fs) == ms <==> WholeModels(db, ms)
  {
    if ms != [] {
      ModelIff(db, ms[0], fs[0]);
      ModelsIff(db, ms[1..], fs[1..]);
      WholeModelsSplit(db, ms);
      HeadAndTail(ModelDocs(fs), ms, ModelDoc(fs[0]), ModelDocs(fs[1..]));
    }
  }

  // ---------- one session ----------

  /** A document that was stored is read back unchanged exactly when it is whole. */
  lemma SessionIff(db: Sqlite, kind: Kind, doc: Json, s: FlatSession)
    requires FlattenSession(db, kind, doc) == Some(s)
    ensures SessionDoc(s) == doc <==> WholeSession(db, kind, doc)
  {
    if kind.Boss? {
      assert Measures(db, doc.fields, s.models[0]);
      MeasuredIff(db, doc.fields, s.models[0]);
    } else {
      MultiIff(db, doc.fields, s);
    }
  }

  lemma FourKeys(d: Entry, n: Json, models: Json, ranking: Json, total: Json)
    ensures map["n_runs_per_model" := n, "models" := models, "ranking" := ranking, "total_elapsed_s" := total] == d <==>
            && d.Keys == {"n_runs_per_model", "models", "ranking", "total_elapsed_s"}
            && d["n_runs_per_model"] == n && d["models"] == models && d["ranking"] == ranking && d["total_elapsed_s"] == total
  {
  }

  lemma MultiIff(db: Sqlite, d: Entry, s: FlatSession)
    requires FlattenSession(db, Multi, Obj(d)) == Some(s)
    ensures SessionDoc(s) == Obj(d) <==> WholeSession(db, Multi, Obj(d))
  {
    FourKeys(d, s.nRuns, Arr(ModelDocs(s.models)), if s.ranking.Some? then s.ranking.value else Null, s.total);
    if "models" in d && d["models"].Arr? { ModelsIff(db, d["models"].items, s.models); }
  }
}
