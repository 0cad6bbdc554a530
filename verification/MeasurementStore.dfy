/** The measurement store: every history of appends, and the repository object. */
module MeasurementStore {
  import opened Json
  import opened Basics
  import opened MeasurementRows
  import opened MeasurementExact
  import opened MeasurementTables
  import Reads = MeasurementReads

  // ---------- histories ----------

  function Empty(): Tables {
    Tables([], [], [], 0, 0, 0)
  }

  /** The tables after a series of calls. */
  function History(db: Sqlite, t: Tables, calls: seq<Append>): Tables
    decreases |calls|
  {
    if calls == [] then t else Appended(db, History(db, t, calls[..|calls| - 1]), calls[|calls| - 1]).0
  }

  /** The call adds a session. */
  predicate Adds(db: Sqlite, t: Tables, a: Append) {
    KindOf(a.kind).Some? && Found(t, a.source).None? && FlattenSession(db, KindOf(a.kind).value, a.doc).Some?
  }

  lemma AppendedStep(db: Sqlite, t: Tables, a: Append)
    requires Sound(t)
    ensures var (n, r) := Appended(db, t, a);
            && Sound(n) && t.sessions <= n.sessions
            && (!Adds(db, t, a) ==> n == t)
            && (Adds(db, t, a) ==> r == Some(t.nextSession) && |n.sessions| == |t.sessions| + 1)
            && forall i :: 0 <= i < |t.sessions| ==> ReadSession(n, t.sessions[i]) == ReadSession(t, t.sessions[i])
  {
    if Adds(db, t, a) {
      SessionAdded(t, a.source, TimeOf(a), a.now, FlattenSession(db, KindOf(a.kind).value, a.doc).value);
    }
  }

  /** At every moment no row dangles, ids are in order, and every model's runs are numbered
      from zero in the order they are read. */
  lemma {:induction false} TablesStaySound(db: Sqlite, calls: seq<Append>)
    ensures var t := History(db, Empty(), calls); Sound(t) && InOrder(t)
    decreases |calls|
  {
    if calls != [] {
      var t, a := History(db, Empty(), calls[..|calls| - 1]), calls[|calls| - 1];
      TablesStaySound(db, calls[..|calls| - 1]);
      AppendedStep(db, t, a);
      if Adds(db, t, a) {
        SessionInOrder(t, a.source, TimeOf(a), a.now, FlattenSession(db, KindOf(a.kind).value, a.doc).value);
      }
    }
  }

  lemma {:induction false} HistorySound(db: Sqlite, t: Tables, calls: seq<Append>)
    requires Sound(t)
    ensures Sound(History(db, t, calls))
    decreases |calls|
  {
    if calls != [] {
      HistorySound(db, t, calls[..|calls| - 1]);
      AppendedStep(db, History(db, t, calls[..|calls| - 1]), calls[|calls| - 1]);
    }
  }

  /** Later calls leave every session there, with the rows it had. */
  lemma {:induction false} HistoryKeeps(db: Sqlite, t: Tables, calls: seq<Append>, i: nat)
    requires Sound(t) && i < |t.sessions|
    ensures var n := History(db, t, calls);
            i < |n.sessions| && n.sessions[i] == t.sessions[i] && ReadSession(n, n.sessions[i]) == ReadSession(t, t.sessions[i])
    decreases |calls|
  {
    if calls != [] {
      var front := calls[..|calls| - 1];
      HistoryKeeps(db, t, front, i);
      HistorySound(db, t, front);
      AppendedStep(db, History(db, t, front), calls[|calls| - 1]);
    }
  }

  /** Whatever is appended afterwards, the session that a call added reads as the document of
      that call, unchanged exactly when the document was whole. */
  lemma StoredForever(db: Sqlite, before: seq<Append>, a: Append, after: seq<Append>)
    requires Adds(db, History(db, Empty(), before), a)
    ensures var t := History(db, Empty(), before);
            var n := History(db, Appended(db, t, a).0, after);
            var i := |t.sessions|;
            && i < |n.sessions| && n.sessions[i].id == t.nextSession && n.sessions[i].ts == TimeOf(a)
            && Some(n.sessions[i].kind) == KindOf(a.kind)
            && (SessionDoc(ReadSession(n, n.sessions[i])) == a.doc <==> WholeSession(db, n.sessions[i].kind, a.doc))
  {
    var t := History(db, Empty(), before);
    var kind := KindOf(a.kind).value;
    var s := FlattenSession(db, kind, a.doc).value;
    HistorySound(db, Empty(), before);
    SessionAdded(t, a.source, TimeOf(a), a.now, s);
    HistoryKeeps(db, AddSession(t, a.source, TimeOf(a), a.now, s), after, |t.sessions|);
    SessionIff(db, kind, a.doc, s);
  }

  /** A call that raises, or finds its source id, leaves the tables as they were; the second
      call with a source id finds it. */
  lemma SourceOnce(db: Sqlite, t: Tables, a: Append, again: Append)
    requires Sound(t) && a.source.Some? && again.source == a.source && Appended(db, t, a).1.Some? && KindOf(again.kind).Some?
    ensures Appended(db, Appended(db, t, a).0, again) == Appended(db, t, a)
  {
    if Adds(db, t, a) {
      var s := FlattenSession(db, KindOf(a.kind).value, a.doc).value;
      SessionAdded(t, a.source, TimeOf(a), a.now, s);
      SourceRowLast(t.sessions, SessionRow(t.nextSession, a.source, s.kind, TimeOf(a), s.nRuns, s.total, s.ranking, a.now),
                    a.source.value);
    }
  }

  lemma {:induction false} SourceRowLast(sessions: seq<SessionRow>, row: SessionRow, source: string)
    requires SourceRow(sessions, source).None? && row.source == Some(source)
    ensures SourceRow(sessions + [row], source) == Some(row.id)
  {
    if sessions != [] {
      assert (sessions + [row])[1..] == sessions[1..] + [row];
      SourceRowLast(sessions[1..], row, source);
    }
  }

  // ---------- the latest session ----------

  /** The session that `latest_session` reads is the one of its kind that is last by time, then
      by id; there is none only if the kind has none. */
  lemma {:induction false} LatestIsLast(sessions: seq<SessionRow>, kind: Kind)
    ensures match Latest(sessions, kind)
            case None => forall i :: 0 <= i < |sessions| ==> sessions[i].kind != kind
            case Some(r) => r in sessions && r.kind == kind
                            && forall i :: 0 <= i < |sessions| && sessions[i].kind == kind ==> NotLater(sessions[i], r)
  {
    if sessions != [] {
      var front := sessions[..|sessions| - 1];
      LatestIsLast(front, kind);
      assert forall i :: 0 <= i < |front| ==> sessions[i] == front[i];
      assert forall r :: r in front ==> r in sessions;
    }
  }

  function LatestDoc(t: Tables, kind: Kind): Option<Json> {
    match Latest(t.sessions, kind)
    case None => None
    case Some(r) => Some(SessionDoc(ReadSession(t, r)))
  }

  /** Read back the session just appended: if no session of its kind is later it is the latest,
      and a whole document comes back as it was. */
  lemma LatestAfterAppend(db: Sqlite, t: Tables, a: Append)
    requires Sound(t) && Adds(db, t, a) && WholeSession(db, KindOf(a.kind).value, a.doc)
    requires forall i :: 0 <= i < |t.sessions| && t.sessions[i].kind == KindOf(a.kind).value ==> t.sessions[i].ts <= TimeOf(a)
    ensures LatestDoc(Appended(db, t, a).0, KindOf(a.kind).value) == Some(a.doc)
  {
    var kind := KindOf(a.kind).value;
    var s := FlattenSession(db, kind, a.doc).value;
    SessionAdded(t, a.source, TimeOf(a), a.now, s);
    SessionIff(db, kind, a.doc, s);
    var n := AddSession(t, a.source, TimeOf(a), a.now, s);
    assert n.sessions[..|t.sessions|] == t.sessions;
    LatestIsLast(t.sessions, kind);
  }

  // ---------- the import of old snapshots ----------

  /** An old snapshot file: absent, unreadable, or a document with its digest and time. */
  datatype Snapshot = Absent | Unreadable | Snapshot(doc: Json, sha: string, mtime: int)

  datatype Report = Report(imported: nat, skipped: nat, errors: nat)

  function KindName(kind: Kind): string {
    if kind.Boss? then "boss" else "multi"
  }

  function SnapshotAppend(kind: Kind, s: Snapshot, now: int): Append
    requires s.Snapshot?
  {
    Append(s.doc, KindName(kind), Some("legacy:" + KindName(kind) + ":" + s.sha), Some(s.mtime), now)
  }

  predicate HasKind(t: Tables, kind: Kind) {
    exists i :: 0 <= i < |t.sessions| && t.sessions[i].kind == kind
  }

  /** One turn of the loop of `migrate_legacy`. */
  function Imported(db: Sqlite, t: Tables, kind: Kind, s: Snapshot, now: int): Tables {
    if s.Snapshot? && !HasKind(t, kind) then Appended(db, t, SnapshotAppend(kind, s, now)).0 else t
  }

  function Migrated(db: Sqlite, t: Tables, multi: Snapshot, boss: Snapshot, now: int): Tables {
    Imported(db, Imported(db, t, Multi, multi, now), Boss, boss, now)
  }

  function Count(sessions: seq<SessionRow>, kind: Kind): nat {
    if sessions == [] then 0 else Count(sessions[..|sessions| - 1], kind) + (if sessions[|sessions| - 1].kind == kind then 1 else 0)
  }

  lemma {:induction false} CountNone(sessions: seq<SessionRow>, kind: Kind)
    ensures Count(sessions, kind) == 0 <==> forall i :: 0 <= i < |sessions| ==> sessions[i].kind != kind
  {
    if sessions != [] {
      CountNone(sessions[..|sessions| - 1], kind);
      assert forall i :: 0 <= i < |sessions| - 1 ==> sessions[..|sessions| - 1][i] == sessions[i];
    }
  }

  lemma CountMore(sessions: seq<SessionRow>, row: SessionRow, kind: Kind)
    ensures Count(sessions + [row], kind) == Count(sessions, kind) + (if row.kind == kind then 1 else 0)
  {
    assert (sessions + [row])[..|sessions|] == sessions;
  }

  lemma KindNamed(kind: Kind)
    ensures KindOf(KindName(kind)) == Some(kind)
  {
  }

  lemma ImportedCount(db: Sqlite, t: Tables, kind: Kind, s: Snapshot, now: int, other: Kind)
    requires Sound(t)
    ensures var n := Imported(db, t, kind, s, now);
            && Sound(n)
            && Count(n.sessions, other) <= Count(t.sessions, other) + (if other == kind && Count(t.sessions, kind) == 0 then 1 else 0)
            && Count(t.sessions, other) <= Count(n.sessions, other)
  {
    CountNone(t.sessions, kind);
    if s.Snapshot? && !HasKind(t, kind) {
      KindNamed(kind);
      AddedCount(db, t, SnapshotAppend(kind, s, now), kind, other);
    }
  }

  lemma AddedCount(db: Sqlite, t: Tables, a: Append, kind: Kind, other: Kind)
    requires Sound(t) && KindOf(a.kind) == Some(kind)
    ensures var n := Appended(db, t, a).0;
            && Sound(n)
            && Count(t.sessions, other) <= Count(n.sessions, other)
            && Count(n.sessions, other) <= Count(t.sessions, other) + (if other == kind then 1 else 0)
  {
    AppendedStep(db, t, a);
    if Adds(db, t, a) {
      var s := FlattenSession(db, kind, a.doc).value;
      SessionAdded(t, a.source, TimeOf(a), a.now, s);
      KindKept(db, kind, a.doc, s);
      CountMore(t.sessions, SessionRow(t.nextSession, a.source, s.kind, TimeOf(a), s.nRuns, s.total, s.ranking, a.now), other);
    }
  }

  lemma KindKept(db: Sqlite, kind: Kind, doc: Json, s: FlatSession)
    requires FlattenSession(db, kind, doc) == Some(s)
    ensures s.kind == kind
  {
  }

  /** The import adds at most one session of each kind, and none to a kind that has one. */
  lemma MigrationBootstraps(db: Sqlite, t: Tables, multi: Snapshot, boss: Snapshot, now: int, kind: Kind)
    requires Sound(t)
    ensures var n := Migrated(db, t, multi, boss, now);
            && Count(t.sessions, kind) <= Count(n.sessions, kind)
            && Count(n.sessions, kind) <= Count(t.sessions, kind) + (if Count(t.sessions, kind) == 0 then 1 else 0)
            && Sound(n)
  {
    ImportedCount(db, t, Multi, multi, now, kind);
    ImportedCount(db, Imported(db, t, Multi, multi, now), Boss, boss, now, kind);
  }

  /** What a successful call adds: one session row, with the time measured or else the clock's,
      that reads back as the document does. */
  lemma AppendStores(db: Sqlite, t: Tables, a: Append) returns (row: SessionRow)
    requires Sound(t) && Adds(db, t, a)
    ensures var (n, r) := Appended(db, t, a);
            && r == Some(t.nextSession) && n.sessions == t.sessions + [row]
            && row.id == t.nextSession && row.source == a.source && a.kind == (if row.kind.Boss? then "boss" else "multi")
            && row.ts == (match a.measured case Some(at) => at case None => a.now) && row.created == a.now
            && SessionDoc(ReadSession(n, row)).Obj?
            && Reads.SessionReads(db, row.kind, a.doc.fields, SessionDoc(ReadSession(n, row)).fields)
  {
    var kind := KindOf(a.kind).value;
    var s := FlattenSession(db, kind, a.doc).value;
    SessionAdded(t, a.source, TimeOf(a), a.now, s);
    Reads.StoredReads(db, kind, a.doc, s);
    row := SessionRow(t.nextSession, a.source, s.kind, TimeOf(a), s.nRuns, s.total, s.ranking, a.now);
  }

  /** An old snapshot is imported into a kind without sessions under a source that names kind
      and digest, unless that source is there or the document cannot be stored. */
  lemma SnapshotStored(db: Sqlite, t: Tables, kind: Kind, s: Snapshot, now: int) returns (row: SessionRow)
    requires Sound(t) && s.Snapshot? && !HasKind(t, kind)
    ensures var n, source := Imported(db, t, kind, s, now), "legacy:" + (if kind.Boss? then "boss" else "multi") + ":" + s.sha;
            if (exists i :: 0 <= i < |t.sessions| && t.sessions[i].source == Some(source)) || !Reads.SessionStorable(db, kind, s.doc)
            then n == t
            else
              && n.sessions == t.sessions + [row] && row.source == Some(source) && row.kind == kind
              && row.ts == s.mtime && row.created == now
  {
    var a := SnapshotAppend(kind, s, now);
    SourceRowIff(t.sessions, a.source.value);
    Reads.StorableIff(db, kind, s.doc);
    if Adds(db, t, a) {
      row := AppendStores(db, t, a);
    } else {
      row := SessionRow(0, None, kind, 0, Null, Null, None, 0);
    }
  }

  lemma {:induction false} SourceRowIff(sessions: seq<SessionRow>, source: string)
    ensures SourceRow(sessions, source).Some? <==> exists i :: 0 <= i < |sessions| && sessions[i].source == Some(source)
  {
    if sessions != [] {
      SourceRowIff(sessions[1..], source);
      assert sessions == [sessions[0]] + sessions[1..];
    }
  }

  // ---------- the repository ----------

  lemma FlattenAllHead<T>(flatten: Json -> Option<T>, js: seq<Json>, k: nat)
    requires 0 < k <= |js|
    ensures FlattenAll(flatten, js[..k]) ==
            match (flatten(js[0]), FlattenAll(flatten, js[1..][..k - 1]))
            case (Some(x), Some(xs)) => Some([x] + xs)
            case _ => None
  {
    assert js[..k][1..] == js[1..][..k - 1];
  }

  lemma {:induction false} FlattenAllSplit<T>(flatten: Json -> Option<T>, js: seq<Json>, k: nat)
    requires k < |js|
    ensures FlattenAll(flatten, js[..k + 1]) ==
            match (FlattenAll(flatten, js[..k]), flatten(js[k]))
            case (Some(xs), Some(x)) => Some(xs + [x])
            case _ => None
  {
    if k == 0 {
      assert js[..1][1..] == [] && js[..0] == [];
      if flatten(js[0]).Some? { assert [flatten(js[0]).value] + [] == [] + [flatten(js[0]).value]; }
    } else {
      var rest := js[1..];
      assert js[..k + 1][1..] == rest[..k] && js[..k][1..] == rest[..k - 1] && rest[k - 1] == js[k];
      FlattenAllSplit(flatten, rest, k - 1);
      FlattenAllHead(flatten, js, k);
      FlattenAllHead(flatten, js, k + 1);
      if flatten(js[0]).Some? && flatten(js[k]).Some? && FlattenAll(flatten, rest[..k - 1]).Some? {
        var x0, xs, x := flatten(js[0]).value, FlattenAll(flatten, rest[..k - 1]).value, flatten(js[k]).value;
        assert [x0] + (xs + [x]) == [x0] + xs + [x];
      }
    }
  }

  lemma {:induction false} FlattenAllPrefix<T>(flatten: Json -> Option<T>, js: seq<Json>, k: nat)
    requires k <= |js| && FlattenAll(flatten, js).Some?
    ensures FlattenAll(flatten, js[..k]).Some? && FlattenAll(flatten, js[..k]).value <= FlattenAll(flatten, js).value
    decreases |js| - k
  {
    if k == |js| {
      assert js[..k] == js;
    } else {
      FlattenAllPrefix(flatten, js, k + 1);
      FlattenAllSplit(flatten, js, k);
    }
  }

  /** The names already stored under a session, as its UNIQUE constraint sees them. */
  predicate NameTaken(t: Tables, sessionId: nat, name: Json) {
    exists i :: 0 <= i < |t.models| && t.models[i].sessionId == sessionId && t.models[i].cols.name == name
  }

  lemma {:induction false} TakenIffRead(models: seq<ModelRow>, runs: seq<RunRow>, sessionId: nat, name: Json)
    ensures (exists i :: 0 <= i < |models| && models[i].sessionId == sessionId && models[i].cols.name == name)
            <==> exists k :: 0 <= k < |ModelsOf(models, runs, sessionId)| && ModelsOf(models, runs, sessionId)[k].cols.name == name
  {
    if models != [] {
      var n := |models| - 1;
      var front, m := models[..n], models[n];
      var before, all := ModelsOf(front, runs, sessionId), ModelsOf(models, runs, sessionId);
      TakenIffRead(front, runs, sessionId, name);
      if i :| 0 <= i < |models| && models[i].sessionId == sessionId && models[i].cols.name == name {
        if i < n {
          assert front[i] == models[i];
          var k :| 0 <= k < |before| && before[k].cols.name == name;
          assert all[k].cols.name == name;
        } else {
          assert all[|before|].cols.name == name;
        }
      }
      if k :| 0 <= k < |all| && all[k].cols.name == name {
        if k < |before| {
          assert before[k].cols.name == name;
          var i :| 0 <= i < |front| && front[i].sessionId == sessionId && front[i].cols.name == name;
          assert models[i].sessionId == sessionId && models[i].cols.name == name;
        } else {
          assert models[n].sessionId == sessionId && models[n].cols.name == name;
        }
      }
    }
  }

  lemma NameTakenIffRead(t: Tables, sessionId: nat, name: Json)
    ensures NameTaken(t, sessionId, name) <==>
            exists k :: 0 <= k < |ReadModels(t, sessionId)| && ReadModels(t, sessionId)[k].cols.name == name
  {
    TakenIffRead(t.models, t.runs, sessionId, name);
    assert ReadModels(t, sessionId) == ModelsOf(t.models, t.runs, sessionId);
  }

  /** The first loop over a model's runs: None as soon as one raises. */
  method InsertRuns(db: Sqlite, t: Tables, modelId: nat, runs: seq<Json>) returns (r: Option<Tables>)
    ensures r == match FlattenRuns(db, runs)
                 case None => None
                 case Some(rs) => Some(AddRuns(t, modelId, rs))
  {
    var work := t;
    var flat := RunFlattener(db);
    ghost var rs: seq<FlatRun> := [];
    for k := 0 to |runs|
      invariant FlattenAll(flat, runs[..k]) == Some(rs) && |rs| == k
      invariant work == AddRuns(t, modelId, rs)
    {
      FlattenAllSplit(flat, runs, k);
      match FlattenRun(db, runs[k]) {
        case None =>
          if FlattenAll(flat, runs).Some? { FlattenAllPrefix(flat, runs, k + 1); }
          return None;
        case Some(run) =>
          assert (rs + [run])[..k] == rs;
          work := AddRun(work, modelId, k, run);
          rs := rs + [run];
      }
    }
    assert runs[..|runs|] == runs;
    r := Some(work);
  }

  /** With the model's row in place, adding its runs adds the model. */
  lemma ModelInserted(db: Sqlite, t: Tables, sessionId: nat, m: Json, f: FlatModel, runs: seq<Json>, work: Tables)
    requires m.Obj? && FlatColumns(db, m.fields) == Some(f.cols) && f.skipped == Truthy(Get(m.fields, "skipped"))
    requires FlattenStats(db, Get(m.fields, "stats")) == Some(f.stats)
    requires Iterated(GetOr(m.fields, "runs", Arr([]))) == Some(runs) && work == AddModelRow(t, sessionId, f)
    ensures (match FlattenRuns(db, runs)
             case None => None
             case Some(rs) => Some(AddRuns(work, t.nextModel, rs))) ==
            (match FlattenModel(db, m)
             case None => None
             case Some(f) => Some(AddModel(t, sessionId, f)))
  {
  }

  /** `_insert_model`, in the transaction's tables. */
  method InsertModel(db: Sqlite, t: Tables, sessionId: nat, m: Json) returns (r: Option<Tables>)
    ensures r == match FlattenModel(db, m)
                 case None => None
                 case Some(f) => if NameTaken(t, sessionId, f.cols.name) then None else Some(AddModel(t, sessionId, f))
  {
    if !m.Obj? {
      return None;
    }
    var skipped := Truthy(Get(m.fields, "skipped"));
    var stats, cols := FlattenStats(db, Get(m.fields, "stats")), FlatColumns(db, m.fields);
    var runs := Iterated(GetOr(m.fields, "runs", Arr([])));
    if stats.None? || cols.None? || runs.None? || NameTaken(t, sessionId, cols.value.name) {
      return None;
    }
    var work := t.(models := t.models + [ModelRow(t.nextModel, sessionId, cols.value, skipped, stats.value)],
                   nextModel := t.nextModel + 1);
    ModelInserted(db, t, sessionId, m, FlatModel(cols.value, skipped, stats.value, []), runs.value, work);
    r := InsertRuns(db, work, t.nextModel, runs.value);
  }

  /** The transaction's loop over the models. */
  method InsertModels(db: Sqlite, t: Tables, sessionId: nat, ms: seq<Json>) returns (r: Option<Tables>)
    requires Sound(t) && HasSession(t, sessionId) && ReadModels(t, sessionId) == []
    ensures r == match FlattenModels(db, ms)
                 case None => None
                 case Some(fs) => if ModelNamesDistinct(fs) then Some(AddModels(t, sessionId, fs)) else None
  {
    var work := t;
    ghost var flat := ModelFlattener(db);
    ghost var fs: seq<FlatModel> := [];
    for k := 0 to |ms|
      invariant FlattenAll(flat, ms[..k]) == Some(fs) && |fs| == k && ModelNamesDistinct(fs)
      invariant work == AddModels(t, sessionId, fs)
    {
      FlattenAllSplit(flat, ms, k);
      ModelsAdded(t, sessionId, fs, sessionId);
      assert [] + fs == fs;
      var next := InsertModel(db, work, sessionId, ms[k]);
      if next.None? {
        RefusedModel(db, work, sessionId, ms, k, fs);
        return None;
      }
      var f := FlattenModel(db, ms[k]).value;
      NewName(work, sessionId, fs, f);
      assert (fs + [f])[..k] == fs;
      fs := fs + [f];
      work := next.value;
    }
    assert ms[..|ms|] == ms;
    r := Some(work);
  }

  lemma NewName(t: Tables, sessionId: nat, fs: seq<FlatModel>, f: FlatModel)
    requires ReadModels(t, sessionId) == fs && ModelNamesDistinct(fs) && !NameTaken(t, sessionId, f.cols.name)
    ensures ModelNamesDistinct(fs + [f])
  {
    NameTakenIffRead(t, sessionId, f.cols.name);
  }

  lemma RefusedModel(db: Sqlite, t: Tables, sessionId: nat, ms: seq<Json>, k: nat, fs: seq<FlatModel>)
    requires k < |ms| && FlattenModels(db, ms[..k]) == Some(fs) && |fs| == k && ReadModels(t, sessionId) == fs
    requires FlattenModel(db, ms[k]).None? || NameTaken(t, sessionId, FlattenModel(db, ms[k]).value.cols.name)
    ensures FlattenModels(db, ms).None? || !ModelNamesDistinct(FlattenModels(db, ms).value)
  {
    if FlattenModels(db, ms).Some? {
      var all := FlattenModels(db, ms).value;
      FlattenAllAt(ModelFlattener(db), ms, k, fs);
      NameTakenIffRead(t, sessionId, all[k].cols.name);
      var i :| 0 <= i < |fs| && fs[i].cols.name == all[k].cols.name;
      assert all[i] == fs[i];
    }
  }

  lemma FlattenAllAt<T>(flatten: Json -> Option<T>, js: seq<Json>, k: nat, xs: seq<T>)
    requires k < |js| && FlattenAll(flatten, js).Some? && FlattenAll(flatten, js[..k]) == Some(xs) && |xs| == k
    ensures var all := FlattenAll(flatten, js).value;
            k < |all| && xs <= all && flatten(js[k]) == Some(all[k])
  {
    FlattenAllPrefix(flatten, js, k + 1);
    FlattenAllSplit(flatten, js, k);
    var x := flatten(js[k]).value;
    assert (xs + [x])[k] == x && xs <= xs + [x];
  }

  /** The columns of a session's row and the models below it. */
  datatype Prepared = Prepared(nRuns: Json, total: Json, ranking: Option<Json>, models: seq<Json>)

  predicate PreparedFrom(db: Sqlite, kind: Kind, doc: Json, p: Prepared) {
    if kind.Boss? then p == Prepared(Null, Null, None, [doc])
    else
      && doc.Obj? && Store(db, Number, Get(doc.fields, "n_runs_per_model")) == Some(p.nRuns)
      && Store(db, Number, Get(doc.fields, "total_elapsed_s")) == Some(p.total)
      && Iterated(GetOr(doc.fields, "models", Arr([]))) == Some(p.models)
      && p.ranking == (if "ranking" in doc.fields then Some(doc.fields["ranking"]) else None)
  }

  /** The branch on the kind. */
  method Prepare(db: Sqlite, kind: Kind, doc: Json) returns (p: Option<Prepared>)
    ensures if p.Some? then PreparedFrom(db, kind, doc, p.value) else FlattenSession(db, kind, doc).None?
  {
    if kind.Boss? {
      return Some(Prepared(Null, Null, None, [doc]));
    }
    if !doc.Obj? {
      return None;
    }
    var n, total := Store(db, Number, Get(doc.fields, "n_runs_per_model")), Store(db, Number, Get(doc.fields, "total_elapsed_s"));
    var models := Iterated(GetOr(doc.fields, "models", Arr([])));
    if n.None? || total.None? || models.None? {
      return None;
    }
    p := Some(Prepared(n.value, total.value, if "ranking" in doc.fields then Some(doc.fields["ranking"]) else None, models.value));
  }

  /** The session row's columns and the models' rows together are the flattened session. */
  lemma SessionFlattened(db: Sqlite, kind: Kind, doc: Json, p: Prepared)
    requires PreparedFrom(db, kind, doc, p)
    ensures FlattenSession(db, kind, doc) ==
            match FlattenModels(db, p.models)
            case None => None
            case Some(fs) => if ModelNamesDistinct(fs) then Some(FlatSession(kind, p.nRuns, p.total, p.ranking, fs)) else None
  {
    if kind.Boss? {
      FlattenOne(ModelFlattener(db), doc);
    }
  }

  lemma FlattenOne<T>(flatten: Json -> Option<T>, j: Json)
    ensures FlattenAll(flatten, [j]) == match flatten(j) case None => None case Some(x) => Some([x])
  {
    assert [j][1..] == [] && FlattenAll(flatten, []) == Some([]);
    if flatten(j).Some? { assert [flatten(j).value] + [] == [flatten(j).value]; }
  }

  lemma ReadyForModels(t: Tables, a: Append, s: FlatSession)
    requires Sound(t)
    ensures var n := AddSessionRow(t, a.source, TimeOf(a), a.now, s);
            Sound(n) && HasSession(n, t.nextSession) && ReadModels(n, t.nextSession) == []
  {
    SessionRowKeepsSound(t, a.source, TimeOf(a), a.now, s);
    FreshSession(t);
    assert AddSessionRow(t, a.source, TimeOf(a), a.now, s).sessions[|t.sessions|].id == t.nextSession;
  }

  /** With the session's row in place, adding its models adds the session. */
  lemma SessionInserted(db: Sqlite, t: Tables, kind: Kind, a: Append, p: Prepared, work: Tables)
    requires Sound(t) && PreparedFrom(db, kind, a.doc, p)
    requires work == AddSessionRow(t, a.source, TimeOf(a), a.now, FlatSession(kind, p.nRuns, p.total, p.ranking, []))
    ensures Sound(work) && HasSession(work, t.nextSession) && ReadModels(work, t.nextSession) == []
    ensures (match FlattenModels(db, p.models)
             case None => None
             case Some(fs) => if ModelNamesDistinct(fs) then Some(AddModels(work, t.nextSession, fs)) else None) ==
            (match FlattenSession(db, kind, a.doc)
             case None => None
             case Some(s) => Some(AddSession(t, a.source, TimeOf(a), a.now, s)))
  {
    ReadyForModels(t, a, FlatSession(kind, p.nRuns, p.total, p.ranking, []));
    SessionFlattened(db, kind, a.doc, p);
  }

  /** The transaction: the session's row, then its models. */
  method InsertSession(db: Sqlite, t: Tables, kind: Kind, a: Append) returns (r: Option<Tables>)
    requires Sound(t)
    ensures r == match FlattenSession(db, kind, a.doc)
                 case None => None
                 case Some(s) => Some(AddSession(t, a.source, TimeOf(a), a.now, s))
  {
    var p := Prepare(db, kind, a.doc);
    if p.None? {
      return None;
    }
    var row := SessionRow(t.nextSession, a.source, kind, TimeOf(a), p.value.nRuns, p.value.total, p.value.ranking, a.now);
    var work := t.(sessions := t.sessions + [row], nextSession := t.nextSession + 1);
    SessionInserted(db, t, kind, a, p.value, work);
    r := InsertModels(db, work, t.nextSession, p.value.models);
  }

  class ModelMeasurementRepo {
    const db: Sqlite
    var tables: Tables

    ghost predicate Valid()
      reads this
    {
      Sound(tables)
    }

    constructor (db: Sqlite)
      ensures Valid() && this.db == db && tables == Empty()
    {
      this.db, tables := db, Empty();
    }

    method FindSource(source: string) returns (r: Option<nat>)
      ensures r == SourceRow(tables.sessions, source)
    {
      var i := 0;
      while i < |tables.sessions|
        invariant i <= |tables.sessions|
        invariant SourceRow(tables.sessions[i..], source) == SourceRow(tables.sessions, source)
      {
        if tables.sessions[i].source == Some(source) {
          return Some(tables.sessions[i].id);
        }
        assert tables.sessions[i..][1..] == tables.sessions[i + 1..];
        i := i + 1;
      }
      r := None;
    }

    /** `append_session`: all its rows in one transaction, or none. */
    method AppendSession(a: Append) returns (r: Option<nat>)
      requires Valid()
      modifies this
      ensures Valid() && (tables, r) == Appended(db, old(tables), a)
    {
      AppendedStep(db, tables, a);
      var kind := KindOf(a.kind);
      if kind.None? {
        return None;
      }
      if a.source.Some? {
        var existing := FindSource(a.source.value);
        if existing.Some? {
          return existing;
        }
      }
      var work := InsertSession(db, tables, kind.value, a);
      if work.None? {
        return None;
      }
      r := Some(tables.nextSession);
      tables := work.value;
    }

    /** `latest_session`. */
    method LatestSession(kind: Kind) returns (r: Option<Json>)
      ensures r == LatestDoc(tables, kind)
    {
      var best: Option<SessionRow> := None;
      for i := 0 to |tables.sessions|
        invariant best == Latest(tables.sessions[..i], kind)
      {
        assert tables.sessions[..i + 1][..i] == tables.sessions[..i];
        var s := tables.sessions[i];
        if s.kind == kind && (best.None? || NotLater(best.value, s)) {
          best := Some(s);
        }
      }
      assert tables.sessions[..|tables.sessions|] == tables.sessions;
      if best.None? {
        return None;
      }
      r := Some(SessionDoc(ReadSession(tables, best.value)));
    }

    /** One turn of `migrate_legacy`; a failed import is reported, not raised. */
    method ImportSnapshot(kind: Kind, s: Snapshot, now: int, report: Report) returns (r: Report)
      requires Valid()
      modifies this
      ensures Valid() && tables == Imported(db, old(tables), kind, s, now)
      ensures r == if s.Absent? then report
                   else if HasKind(old(tables), kind) then report.(skipped := report.skipped + 1)
                   else if s.Snapshot? && Appended(db, old(tables), SnapshotAppend(kind, s, now)).1.Some?
                   then report.(imported := report.imported + 1)
                   else report.(errors := report.errors + 1)
    {
      r := report;
      if s.Absent? {
        return;
      }
      if HasKind(tables, kind) {
        r := r.(skipped := r.skipped + 1);
      } else if s.Unreadable? {
        r := r.(errors := r.errors + 1);
      } else {
        var a := SnapshotAppend(kind, s, now);
        var id := AppendSession(a);
        if id.Some? {
          r := r.(imported := r.imported + 1);
        } else {
          r := r.(errors := r.errors + 1);
        }
      }
    }

    /** `migrate_legacy`. */
    method MigrateLegacy(multi: Snapshot, boss: Snapshot, now: int) returns (r: Report)
      requires Valid()
      modifies this
      ensures Valid() && tables == Migrated(db, old(tables), multi, boss, now)
      ensures r.imported + r.skipped + r.errors == (if multi.Absent? then 0 else 1) + (if boss.Absent? then 0 else 1)
    {
      r := ImportSnapshot(Multi, multi, now, Report(0, 0, 0));
      r := ImportSnapshot(Boss, boss, now, r);
    }
  }
}
