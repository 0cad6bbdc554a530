/** The three tables of src/jarvis/model_measurement_repo.py and the histories of appends. */
module MeasurementTables {
  import opened Json
  import opened Basics
  import opened MeasurementRows
  import opened MeasurementExact

  datatype SessionRow = SessionRow(id: nat, source: Option<string>, kind: Kind, ts: int, nRuns: Json, total: Json,
                                   ranking: Option<Json>, created: int)
  datatype ModelRow = ModelRow(id: nat, sessionId: nat, cols: Columns, skipped: bool, stats: FlatStats)
  datatype RunRow = RunRow(id: nat, modelId: nat, idx: nat, run: FlatRun)

  /** The tables in order of their ids, with the next ids to be given out. */
  datatype Tables = Tables(sessions: seq<SessionRow>, models: seq<ModelRow>, runs: seq<RunRow>,
                           nextSession: nat, nextModel: nat, nextRun: nat)

  // ---------- inserting ----------

  function AddRun(t: Tables, modelId: nat, idx: nat, r: FlatRun): Tables {
    t.(runs := t.runs + [RunRow(t.nextRun, modelId, idx, r)], nextRun := t.nextRun + 1)
  }

  function AddRuns(t: Tables, modelId: nat, rs: seq<FlatRun>): Tables {
    if rs == [] then t else AddRun(AddRuns(t, modelId, rs[..|rs| - 1]), modelId, |rs| - 1, rs[|rs| - 1])
  }

  function AddModelRow(t: Tables, sessionId: nat, f: FlatModel): Tables {
    t.(models := t.models + [ModelRow(t.nextModel, sessionId, f.cols, f.skipped, f.stats)], nextModel := t.nextModel + 1)
  }

  function AddModel(t: Tables, sessionId: nat, f: FlatModel): Tables {
    AddRuns(AddModelRow(t, sessionId, f), t.nextModel, f.runs)
  }

  function AddModels(t: Tables, sessionId: nat, fs: seq<FlatModel>): Tables {
    if fs == [] then t else AddModel(AddModels(t, sessionId, fs[..|fs| - 1]), sessionId, fs[|fs| - 1])
  }

  function AddSessionRow(t: Tables, source: Option<string>, ts: int, now: int, s: FlatSession): Tables {
    t.(sessions := t.sessions + [SessionRow(t.nextSession, source, s.kind, ts, s.nRuns, s.total, s.ranking, now)],
       nextSession := t.nextSession + 1)
  }

  function AddSession(t: Tables, source: Option<string>, ts: int, now: int, s: FlatSession): Tables {
    AddModels(AddSessionRow(t, source, ts, now, s), t.nextSession, s.models)
  }

  function KindOf(kind: string): Option<Kind> {
    if kind == "boss" then Some(Boss) else if kind == "multi" then Some(Multi) else None
  }

  /** The session that already carries a source id. */
  function SourceRow(sessions: seq<SessionRow>, source: string): Option<nat> {
    if sessions == [] then None
    else if sessions[0].source == Some(source) then Some(sessions[0].id)
    else SourceRow(sessions[1..], source)
  }

  /** One call of `append_session`; a call without a time takes the clock's. */
  datatype Append = Append(doc: Json, kind: string, source: Option<string>, measured: Option<int>, now: int)

  function Found(t: Tables, source: Option<string>): Option<nat> {
    if source.Some? then SourceRow(t.sessions, source.value) else None
  }

  function TimeOf(a: Append): int {
    if a.measured.Some? then a.measured.value else a.now
  }

  /** What the call leaves and returns; None where it raises. */
  function Appended(db: Sqlite, t: Tables, a: Append): (Tables, Option<nat>) {
    match KindOf(a.kind)
    case None => (t, None)
    case Some(kind) =>
      if Found(t, a.source).Some? then (t, Found(t, a.source))
      else
        match FlattenSession(db, kind, a.doc)
        case None => (t, None)
        case Some(s) => (AddSession(t, a.source, TimeOf(a), a.now, s), Some(t.nextSession))
  }

  // ---------- reading ----------

  function RunsOf(runs: seq<RunRow>, modelId: nat): seq<FlatRun> {
    if runs == [] then []
    else
      var (front, r) := (runs[..|runs| - 1], runs[|runs| - 1]);
      if r.modelId == modelId then RunsOf(front, modelId) + [r.run] else RunsOf(front, modelId)
  }

  function ModelsOf(models: seq<ModelRow>, runs: seq<RunRow>, sessionId: nat): seq<FlatModel> {
    if models == [] then []
    else
      var (front, m) := (models[..|models| - 1], models[|models| - 1]);
      if m.sessionId == sessionId
      then ModelsOf(front, runs, sessionId) + [FlatModel(m.cols, m.skipped, m.stats, RunsOf(runs, m.id))]
      else ModelsOf(front, runs, sessionId)
  }

  function ReadSession(t: Tables, s: SessionRow): FlatSession {
    FlatSession(s.kind, s.nRuns, s.total, s.ranking, ModelsOf(t.models, t.runs, s.id))
  }

  /** `ORDER BY measured_ts DESC, id DESC LIMIT 1`. */
  predicate NotLater(a: SessionRow, b: SessionRow) {
    a.ts < b.ts || (a.ts == b.ts && a.id <= b.id)
  }

  function Latest(sessions: seq<SessionRow>, kind: Kind): Option<SessionRow> {
    if sessions == [] then None
    else
      var (best, s) := (Latest(sessions[..|sessions| - 1], kind), sessions[|sessions| - 1]);
      if s.kind == kind && (best.None? || NotLater(best.value, s)) then Some(s) else best
  }

  // ---------- sound tables ----------

  predicate RunSound(t: Tables, r: RunRow) {
    r.modelId < t.nextModel && exists i :: 0 <= i < |t.models| && t.models[i].id == r.modelId
  }

  predicate HasSession(t: Tables, sessionId: nat) {
    sessionId < t.nextSession && exists i :: 0 <= i < |t.sessions| && t.sessions[i].id == sessionId
  }

  predicate ModelSound(t: Tables, m: ModelRow) {
    m.id < t.nextModel && HasSession(t, m.sessionId)
  }

  /** Ids are given out once and in order, and no row points nowhere. */
  ghost predicate Sound(t: Tables) {
    && (forall i, j :: 0 <= i < j < |t.sessions| ==> t.sessions[i].id < t.sessions[j].id)
    && (forall i :: 0 <= i < |t.sessions| ==> t.sessions[i].id < t.nextSession)
    && (forall i {:trigger t.models[i]} :: 0 <= i < |t.models| ==> ModelSound(t, t.models[i]))
    && (forall i {:trigger t.runs[i]} :: 0 <= i < |t.runs| ==> RunSound(t, t.runs[i]))
  }

  // ---------- what an insertion does to what is read ----------

  lemma {:induction false} NoRunsYet(runs: seq<RunRow>, modelId: nat)
    requires forall i :: 0 <= i < |runs| ==> runs[i].modelId != modelId
    ensures RunsOf(runs, modelId) == []
  {
    if runs != [] { NoRunsYet(runs[..|runs| - 1], modelId); }
  }

  lemma RunAdded(t: Tables, modelId: nat, idx: nat, r: FlatRun, other: nat)
    ensures RunsOf(AddRun(t, modelId, idx, r).runs, other) ==
            if other == modelId then RunsOf(t.runs, other) + [r] else RunsOf(t.runs, other)
  {
    assert AddRun(t, modelId, idx, r).runs[..|t.runs|] == t.runs;
  }

  lemma AppendLast<T>(a: seq<T>, b: seq<T>)
    requires b != []
    ensures a + b[..|b| - 1] + [b[|b| - 1]] == a + b
  {
  }

  lemma {:induction false} RunsAdded(t: Tables, modelId: nat, rs: seq<FlatRun>, other: nat)
    ensures RunsOf(AddRuns(t, modelId, rs).runs, other) ==
            if other == modelId then RunsOf(t.runs, other) + rs else RunsOf(t.runs, other)
    ensures AddRuns(t, modelId, rs) == t.(runs := AddRuns(t, modelId, rs).runs, nextRun := AddRuns(t, modelId, rs).nextRun)
  {
    if rs == [] {
      assert RunsOf(t.runs, other) + rs == RunsOf(t.runs, other);
    } else {
      var n := |rs| - 1;
      RunsAdded(t, modelId, rs[..n], other);
      RunAdded(AddRuns(t, modelId, rs[..n]), modelId, n, rs[n], other);
      AppendLast(RunsOf(t.runs, other), rs);
    }
  }

  ghost predicate SameRuns(models: seq<ModelRow>, runs: seq<RunRow>, more: seq<RunRow>) {
    forall i :: 0 <= i < |models| ==> RunsOf(runs, models[i].id) == RunsOf(more, models[i].id)
  }

  lemma {:induction false} SameModels(models: seq<ModelRow>, runs: seq<RunRow>, more: seq<RunRow>, sessionId: nat)
    requires SameRuns(models, runs, more)
    ensures ModelsOf(models, runs, sessionId) == ModelsOf(models, more, sessionId)
  {
    if models != [] {
      var front := models[..|models| - 1];
      assert forall i :: 0 <= i < |front| ==> front[i] == models[i];
      SameModels(front, runs, more, sessionId);
    }
  }

  lemma ModelRowAdded(t: Tables, sessionId: nat, f: FlatModel, runs: seq<RunRow>, other: nat)
    ensures ModelsOf(AddModelRow(t, sessionId, f).models, runs, other) ==
            if other == sessionId
            then ModelsOf(t.models, runs, other) + [FlatModel(f.cols, f.skipped, f.stats, RunsOf(runs, t.nextModel))]
            else ModelsOf(t.models, runs, other)
  {
    assert AddModelRow(t, sessionId, f).models[..|t.models|] == t.models;
  }

  /** After a model is inserted its session reads one model more, exactly that one, and the
      others read as before. */
  lemma ModelAdded(t: Tables, sessionId: nat, f: FlatModel, other: nat)
    requires Sound(t)
    ensures var n := AddModel(t, sessionId, f);
            ModelsOf(n.models, n.runs, other) ==
            if other == sessionId then ModelsOf(t.models, t.runs, other) + [f] else ModelsOf(t.models, t.runs, other)
  {
    var n, mid := AddModel(t, sessionId, f), AddModelRow(t, sessionId, f);
    RunsAdded(mid, t.nextModel, f.runs, t.nextModel);
    FreshModel(t);
    assert [] + f.runs == f.runs;
    forall i | 0 <= i < |t.models| ensures RunsOf(t.runs, t.models[i].id) == RunsOf(n.runs, t.models[i].id) {
      assert ModelSound(t, t.models[i]);
      RunsAdded(mid, t.nextModel, f.runs, t.models[i].id);
    }
    SameModels(t.models, t.runs, n.runs, other);
    ModelRowAdded(t, sessionId, f, n.runs, other);
  }

  lemma FreshModel(t: Tables)
    requires Sound(t)
    ensures RunsOf(t.runs, t.nextModel) == []
  {
    forall i | 0 <= i < |t.runs| ensures t.runs[i].modelId != t.nextModel { assert RunSound(t, t.runs[i]); }
    NoRunsYet(t.runs, t.nextModel);
  }

  // ---------- insertions keep the tables sound ----------

  lemma RunKeepsSound(t: Tables, modelId: nat, idx: nat, r: FlatRun)
    requires Sound(t) && RunSound(t, RunRow(t.nextRun, modelId, idx, r))
    ensures Sound(AddRun(t, modelId, idx, r))
  {
    var n := AddRun(t, modelId, idx, r);
    forall i | 0 <= i < |n.runs| ensures RunSound(n, n.runs[i]) {
      if i < |t.runs| { assert RunSound(t, t.runs[i]); }
    }
    forall i | 0 <= i < |n.models| ensures ModelSound(n, n.models[i]) { assert ModelSound(t, t.models[i]); }
  }

  lemma {:induction false} RunsKeepSound(t: Tables, modelId: nat, rs: seq<FlatRun>)
    requires Sound(t) && modelId < t.nextModel && exists i :: 0 <= i < |t.models| && t.models[i].id == modelId
    ensures Sound(AddRuns(t, modelId, rs))
  {
    if rs != [] {
      var n := |rs| - 1;
      RunsKeepSound(t, modelId, rs[..n]);
      RunsAdded(t, modelId, rs[..n], modelId);
      RunKeepsSound(AddRuns(t, modelId, rs[..n]), modelId, n, rs[n]);
    }
  }

  lemma ModelRowKeepsSound(t: Tables, sessionId: nat, f: FlatModel)
    requires Sound(t) && HasSession(t, sessionId)
    ensures Sound(AddModelRow(t, sessionId, f))
  {
    var n := AddModelRow(t, sessionId, f);
    forall i | 0 <= i < |n.models| ensures ModelSound(n, n.models[i]) {
      if i < |t.models| { assert ModelSound(t, t.models[i]); }
    }
    forall i | 0 <= i < |n.runs| ensures RunSound(n, n.runs[i]) {
      assert RunSound(t, t.runs[i]);
      var k :| 0 <= k < |t.models| && t.models[k].id == t.runs[i].modelId;
      assert n.models[k].id == n.runs[i].modelId;
    }
  }

  lemma ModelKeepsSound(t: Tables, sessionId: nat, f: FlatModel)
    requires Sound(t) && HasSession(t, sessionId)
    ensures Sound(AddModel(t, sessionId, f))
    ensures AddModel(t, sessionId, f).sessions == t.sessions && AddModel(t, sessionId, f).nextSession == t.nextSession
  {
    ModelRowKeepsSound(t, sessionId, f);
    var n := AddModelRow(t, sessionId, f);
    assert n.models[|t.models|].id == t.nextModel;
    RunsKeepSound(n, t.nextModel, f.runs);
    RunsAdded(n, t.nextModel, f.runs, t.nextModel);
  }

  lemma {:induction false} ModelsKeepSound(t: Tables, sessionId: nat, fs: seq<FlatModel>)
    requires Sound(t) && HasSession(t, sessionId)
    ensures var n := AddModels(t, sessionId, fs);
            Sound(n) && n.sessions == t.sessions && n.nextSession == t.nextSession
  {
    if fs != [] {
      var n := |fs| - 1;
      ModelsKeepSound(t, sessionId, fs[..n]);
      ModelKeepsSound(AddModels(t, sessionId, fs[..n]), sessionId, fs[n]);
    }
  }

  function ReadModels(t: Tables, sessionId: nat): seq<FlatModel> {
    ModelsOf(t.models, t.runs, sessionId)
  }

  lemma {:induction false} ModelsAdded(t: Tables, sessionId: nat, fs: seq<FlatModel>, other: nat)
    requires Sound(t) && HasSession(t, sessionId)
    ensures ReadModels(AddModels(t, sessionId, fs), other) ==
            if other == sessionId then ReadModels(t, other) + fs else ReadModels(t, other)
  {
    if fs == [] {
      assert ReadModels(t, other) + fs == ReadModels(t, other);
    } else {
      var n := |fs| - 1;
      ModelsAdded(t, sessionId, fs[..n], other);
      ModelsKeepSound(t, sessionId, fs[..n]);
      ModelAdded(AddModels(t, sessionId, fs[..n]), sessionId, fs[n], other);
      AppendLast(ReadModels(t, other), fs);
    }
  }

  lemma SessionRowKeepsSound(t: Tables, source: Option<string>, ts: int, now: int, s: FlatSession)
    requires Sound(t)
    ensures Sound(AddSessionRow(t, source, ts, now, s))
  {
    var n := AddSessionRow(t, source, ts, now, s);
    forall i | 0 <= i < |n.models| ensures ModelSound(n, n.models[i]) {
      assert ModelSound(t, t.models[i]);
      var k :| 0 <= k < |t.sessions| && t.sessions[k].id == t.models[i].sessionId;
      assert n.sessions[k].id == n.models[i].sessionId;
    }
    forall i | 0 <= i < |n.runs| ensures RunSound(n, n.runs[i]) { assert RunSound(t, t.runs[i]); }
  }

  lemma {:induction false} NoModelsYet(models: seq<ModelRow>, runs: seq<RunRow>, sessionId: nat)
    requires forall i :: 0 <= i < |models| ==> models[i].sessionId != sessionId
    ensures ModelsOf(models, runs, sessionId) == []
  {
    if models != [] { NoModelsYet(models[..|models| - 1], runs, sessionId); }
  }

  lemma FreshSession(t: Tables)
    requires Sound(t)
    ensures ModelsOf(t.models, t.runs, t.nextSession) == []
  {
    forall i | 0 <= i < |t.models| ensures t.models[i].sessionId != t.nextSession { assert ModelSound(t, t.models[i]); }
    NoModelsYet(t.models, t.runs, t.nextSession);
  }

  /** After a session is inserted its rows read back what was inserted, every older session
      reads as before, and the tables stay sound. */
  lemma SessionAdded(t: Tables, source: Option<string>, ts: int, now: int, s: FlatSession)
    requires Sound(t)
    ensures var n := AddSession(t, source, ts, now, s);
            && Sound(n) && n.nextSession == t.nextSession + 1
            && n.sessions == t.sessions + [SessionRow(t.nextSession, source, s.kind, ts, s.nRuns, s.total, s.ranking, now)]
            && ReadSession(n, n.sessions[|t.sessions|]) == s
            && forall i :: 0 <= i < |t.sessions| ==> ReadSession(n, t.sessions[i]) == ReadSession(t, t.sessions[i])
  {
    var mid := AddSessionRow(t, source, ts, now, s);
    SessionRowKeepsSound(t, source, ts, now, s);
    assert mid.sessions[|t.sessions|].id == t.nextSession;
    ModelsKeepSound(mid, t.nextSession, s.models);
    ModelsAdded(mid, t.nextSession, s.models, t.nextSession);
    FreshSession(t);
    assert [] + s.models == s.models;
    forall i | 0 <= i < |t.sessions|
      ensures ReadSession(AddSession(t, source, ts, now, s), t.sessions[i]) == ReadSession(t, t.sessions[i]) {
      ModelsAdded(mid, t.nextSession, s.models, t.sessions[i].id);
    }
  }

  // ---------- the order of a model's runs ----------

  function IdxsOf(runs: seq<RunRow>, modelId: nat): seq<nat> {
    if runs == [] then []
    else
      var (front, r) := (runs[..|runs| - 1], runs[|runs| - 1]);
      if r.modelId == modelId then IdxsOf(front, modelId) + [r.idx] else IdxsOf(front, modelId)
  }

  predicate Numbered(idxs: seq<nat>) {
    forall k :: 0 <= k < |idxs| ==> idxs[k] == k
  }

  /** Reading a model's runs in table order is reading them `ORDER BY run_idx`. */
  ghost predicate InOrder(t: Tables) {
    forall m {:trigger IdxsOf(t.runs, m)} :: Numbered(IdxsOf(t.runs, m))
  }

  lemma {:induction false} NoIdxsYet(runs: seq<RunRow>, modelId: nat)
    requires forall i :: 0 <= i < |runs| ==> runs[i].modelId != modelId
    ensures IdxsOf(runs, modelId) == []
  {
    if runs != [] { NoIdxsYet(runs[..|runs| - 1], modelId); }
  }

  lemma {:induction false} IdxsAdded(t: Tables, modelId: nat, rs: seq<FlatRun>)
    requires InOrder(t) && IdxsOf(t.runs, modelId) == []
    ensures InOrder(AddRuns(t, modelId, rs)) && |IdxsOf(AddRuns(t, modelId, rs).runs, modelId)| == |rs|
  {
    if rs != [] {
      var n := |rs| - 1;
      IdxsAdded(t, modelId, rs[..n]);
      var mid, more := AddRuns(t, modelId, rs[..n]), AddRuns(t, modelId, rs);
      assert more.runs[..|mid.runs|] == mid.runs;
    }
  }

  lemma ModelInOrder(t: Tables, sessionId: nat, f: FlatModel)
    requires Sound(t) && InOrder(t)
    ensures InOrder(AddModel(t, sessionId, f))
  {
    forall i | 0 <= i < |t.runs| ensures t.runs[i].modelId != t.nextModel { assert RunSound(t, t.runs[i]); }
    NoIdxsYet(t.runs, t.nextModel);
    var n := AddModelRow(t, sessionId, f);
    assert InOrder(n);
    IdxsAdded(n, t.nextModel, f.runs);
  }

  lemma {:induction false} ModelsInOrder(t: Tables, sessionId: nat, fs: seq<FlatModel>)
    requires Sound(t) && InOrder(t) && HasSession(t, sessionId)
    ensures InOrder(AddModels(t, sessionId, fs))
  {
    if fs != [] {
      ModelsInOrder(t, sessionId, fs[..|fs| - 1]);
      ModelsKeepSound(t, sessionId, fs[..|fs| - 1]);
      ModelInOrder(AddModels(t, sessionId, fs[..|fs| - 1]), sessionId, fs[|fs| - 1]);
    }
  }

  lemma SessionInOrder(t: Tables, source: Option<string>, ts: int, now: int, s: FlatSession)
    requires Sound(t) && InOrder(t)
    ensures InOrder(AddSession(t, source, ts, now, s))
  {
    var mid := AddSessionRow(t, source, ts, now, s);
    SessionRowKeepsSound(t, source, ts, now, s);
    assert mid.sessions[|t.sessions|].id == t.nextSession;
    assert InOrder(mid);
    ModelsInOrder(mid, t.nextSession, s.models);
  }
}
