/** Every ended task shows how it ended, and why: the outcome of a run read off its steps. */
module TaskBoardOutcome {
  import opened Basics
  import opened Json
  import opened Ledger
  import opened TaskBoard
  import opened TaskBoardInv
  import opened TaskBoardSafety

  // ---------- the steps that decide how a task ends ----------

  /** How a task's dispatch can end: its approver returns true or false, its worker fails, or
      an exception is raised. */
  datatype Way = Accepted | Refused | WorkerFailed | Raised

  /** What step `a` makes of task `id`, if it decides anything. The approver returns false when
      its event is gone, when it is woken without an accepting decision, on a timeout and when
      it raises. */
  function WayOf(b: Board, a: Action, id: string): Option<Way> {
    match a
    case Ask(x) => if x == id && At(b, id, Asking) && id !in b.wired then Some(Refused) else None
    case Answer(x) =>
      if x == id && At(b, id, Waiting) && id in b.woken
      then Some(if id in b.decisions && b.decisions[id] then Accepted else Refused) else None
    case Refuse(x) =>
      if x == id && (At(b, id, Working) || At(b, id, Asking) || At(b, id, Waiting)) then Some(Refused) else None
    case WorkerFails(x) => if x == id && At(b, id, Working) then Some(WorkerFailed) else None
    case Crash(x) => if x == id && id in b.threads && !b.threads[id].Done? then Some(Raised) else None
    case _ => None
  }

  /** The last such step of a run, if there was one. */
  function LastWay(cfg: Config, log: seq<Event>, actions: seq<Action>, id: string): Option<Way>
    decreases |actions|
  {
    if actions == [] then None
    else
      var front := actions[..|actions| - 1];
      var way := WayOf(Run(cfg, Boot(log), front), actions[|actions| - 1], id);
      if way.Some? then way else LastWay(cfg, log, front, id)
  }

  predicate ShowsField(c: Card, k: string, v: Json) {
    k in c && c[k] == v
  }

  /** What a card shows of a task that ended in that way. */
  predicate Shows(c: Card, way: Way) {
    match way
    case Accepted =>
      ShowsField(c, "status", Str("applied")) && ShowsField(c, "status_label", Str("수락")) &&
      ShowsField(c, "decision", Bool(true)) && ShowsField(c, "error", Null)
    case Refused =>
      ShowsField(c, "status", Str("denied")) && ShowsField(c, "status_label", Str("거절")) &&
      ShowsField(c, "decision", Bool(false)) && ShowsField(c, "error", Null)
    case WorkerFailed =>
      ShowsField(c, "status", Str("failed")) && ShowsField(c, "status_label", Str("실패")) &&
      ShowsField(c, "decision", Bool(false)) && ShowsField(c, "error", Null)
    case Raised =>
      ShowsField(c, "status", Str("failed")) && ShowsField(c, "status_label", Str("실패")) &&
      ShowsField(c, "decision", Null) && "error" in c && c["error"].Str?
  }

  // ---------- the thread follows the last such step ----------

  function WayOfOutcome(o: Outcome): Way {
    match o
    case Applied => Accepted
    case Denied => Refused
    case Failed => WorkerFailed
  }

  predicate Returning(phase: Phase, way: Option<Way>) {
    match phase
    case Returned(o) => way == Some(WayOfOutcome(o))
    case Crashed => way == Some(Raised)
    case Done => true
    case _ => way == None
  }

  predicate IsRequest(a: Action) {
    a.Create? || a.Decide? || a.Cancel? || a.Proceed? || a.Dismiss?
  }

  lemma RequestMoves(cfg: Config, b: Board, a: Action, id: string, before: Option<Way>)
    requires id in b.threads && Returning(b.threads[id], before) && IsRequest(a)
    ensures id in Step(cfg, b, a).threads && Returning(Step(cfg, b, a).threads[id], before) && WayOf(b, a, id) == None
  {
  }

  lemma DecidingMoves(cfg: Config, b: Board, a: Action, id: string, before: Option<Way>)
    requires id in b.threads && Returning(b.threads[id], before)
    requires a.Ask? || a.Answer? || a.Refuse? || a.WorkerFails? || a.Crash?
    ensures var next, way := Step(cfg, b, a), WayOf(b, a, id);
            id in next.threads && Returning(next.threads[id], if way.Some? then way else before)
  {
  }

  lemma OtherMoves(cfg: Config, b: Board, a: Action, id: string, before: Option<Way>)
    requires id in b.threads && Returning(b.threads[id], before)
    requires a.Start? || a.Await? || a.Finish? || a.FinishCrash?
    ensures id in Step(cfg, b, a).threads && Returning(Step(cfg, b, a).threads[id], before) && WayOf(b, a, id) == None
  {
  }

  lemma WayMoves(cfg: Config, b: Board, a: Action, id: string, before: Option<Way>)
    requires id in b.threads && Returning(b.threads[id], before)
    ensures var next, way := Step(cfg, b, a), WayOf(b, a, id);
            id in next.threads && Returning(next.threads[id], if way.Some? then way else before)
  {
    if IsRequest(a) {
      RequestMoves(cfg, b, a, id, before);
    } else if a.Start? || a.Await? || a.Finish? || a.FinishCrash? {
      OtherMoves(cfg, b, a, id, before);
    } else {
      DecidingMoves(cfg, b, a, id, before);
    }
  }

  lemma WayOfNew(cfg: Config, b: Board, a: Action, id: string)
    requires id !in b.threads
    ensures WayOf(b, a, id) == None
    ensures id in Step(cfg, b, a).threads ==> Step(cfg, b, a).threads[id] == Phase.Created
  {
  }

  lemma {:induction false} ThreadFollows(cfg: Config, log: seq<Event>, actions: seq<Action>, id: string)
    ensures var b, way := Run(cfg, Boot(log), actions), LastWay(cfg, log, actions, id);
            if id in b.threads then Returning(b.threads[id], way) else way == None
    decreases |actions|
  {
    if actions != [] {
      var front, a := actions[..|actions| - 1], actions[|actions| - 1];
      var b := Run(cfg, Boot(log), front);
      ThreadFollows(cfg, log, front, id);
      if id in b.threads {
        WayMoves(cfg, b, a, id, LastWay(cfg, log, front, id));
      } else {
        WayOfNew(cfg, b, a, id);
      }
    }
  }

  // ---------- the card follows the thread ----------

  /** Before its thread ends an uncancelled task's card tells of no decision and no error. */
  predicate Undecided(c: Card) {
    ShowsField(c, "decision", Null) && ShowsField(c, "error", Null)
  }

  predicate Tells(b: Board, id: string, way: Option<Way>) {
    id in b.threads && id in b.cards ==>
      && (!b.threads[id].Done? && id !in b.signalled ==> Undecided(b.cards[id]))
      && (b.threads[id].Done? && Resolved(b.cards[id]) ==> way.Some? && Shows(b.cards[id], way.value))
  }

  lemma FinalShows(c: Card, o: Outcome, report: Report)
    requires Undecided(c)
    ensures Shows(Updated(c, FinalFields(o, report)), WayOfOutcome(o))
  {
    var d := Updated(c, FinalFields(o, report));
    assert d["status"] == Str(StatusOf(o)) && d["error"] == c["error"];
  }

  lemma CrashShows(c: Card, error: string)
    requires Undecided(c)
    ensures Shows(Updated(c, CrashFields(error)), Raised)
  {
  }

  lemma AwaitTells(c: Card, report: Report)
    requires Undecided(c)
    ensures Undecided(Updated(c, AwaitFields(report)))
  {
  }

  lemma NewTells(id: string, text: string, workerType: Json, now: string)
    ensures Undecided(Skeleton(id, First200(text), workerType, now))
  {
  }

  lemma FinalTells(b: Board, a: Action, id: string, fields: Entry, way: Way)
    requires Inv(b) && Ended(b, id) && Tells(b, id, Some(way)) && FinalStatus(fields)
    requires id in b.cards && Undecided(b.cards[id]) ==> Shows(Updated(b.cards[id], fields), way)
    ensures Tells(Final(b, id, fields), id, Some(way))
  {
    if id in b.cards {
      WiredWithCard(b, id);
      assert TaskSound(b, id);
    }
  }

  lemma FinishTells(cfg: Config, b: Board, a: Action, id: string, way: Option<Way>)
    requires Inv(b) && id in b.threads && Returning(b.threads[id], way) && Tells(b, id, way)
    requires a.Finish? && a.id == id
    ensures Tells(Step(cfg, b, a), id, way)
  {
    if b.threads[id].Returned? {
      var o := b.threads[id].outcome;
      if id in b.cards && Undecided(b.cards[id]) { FinalShows(b.cards[id], o, a.report); }
      FinalTells(b, a, id, FinalFields(o, a.report), WayOfOutcome(o));
    }
  }

  lemma FinishCrashTells(cfg: Config, b: Board, a: Action, id: string, way: Option<Way>)
    requires Inv(b) && id in b.threads && Returning(b.threads[id], way) && Tells(b, id, way)
    requires a.FinishCrash? && a.id == id
    ensures Tells(Step(cfg, b, a), id, way)
  {
    if b.threads[id].Crashed? {
      if id in b.cards && Undecided(b.cards[id]) { CrashShows(b.cards[id], a.error); }
      FinalTells(b, a, id, CrashFields(a.error), Raised);
    }
  }

  lemma AwaitKeepsTelling(cfg: Config, b: Board, a: Action, id: string, way: Option<Way>)
    requires Tells(b, id, way) && a.Await? && a.id == id
    ensures Tells(Step(cfg, b, a), id, way)
  {
    if id in b.cards && Undecided(b.cards[id]) { AwaitTells(b.cards[id], a.report); }
  }

  lemma ProceedTells(b: Board, client: nat, id: string, way: Option<Way>)
    requires Inv(b) && client in b.calls && Tells(b, id, way)
    ensures Tells(ProceedStep(b, client), id, way)
  {
    assert CallSound(b, b.calls[client]);
    if id in b.cards { StatusWritten(b.cards[id], CancelFields()); }
  }

  /** A step that leaves card, thread and signal of the task alone. */
  ghost predicate Untouched(b: Board, next: Board, id: string) {
    && (id in next.cards ==> id in b.cards && next.cards[id] == b.cards[id])
    && (id in next.threads <==> id in b.threads)
    && (id in b.threads ==> next.threads[id] == b.threads[id] || (!next.threads[id].Done? && !b.threads[id].Done?)
                            || (next.threads[id].Done? && id !in b.cards))
    && b.signalled <= next.signalled
  }

  lemma RequestUntouched(cfg: Config, b: Board, a: Action, id: string)
    requires (a.Create? && a.id != id) || a.Decide? || a.Cancel? || a.Dismiss?
    ensures Untouched(b, Step(cfg, b, a), id)
  {
  }

  lemma MoveUntouched(cfg: Config, b: Board, a: Action, id: string)
    requires a.Start? || a.Ask? || a.Answer? || a.Refuse? || a.WorkerFails? || a.Crash?
    ensures Untouched(b, Step(cfg, b, a), id)
  {
  }

  lemma WriteUntouched(b: Board, x: string, event: string, fields: Entry, phase: Phase, id: string)
    requires x != id
    ensures Untouched(b, Move(Write(b, x, event, fields), x, phase), id) && Untouched(b, Move(b, x, phase), id)
  {
  }

  lemma FinalUntouched(b: Board, x: string, fields: Entry, id: string)
    requires x != id && x in b.threads
    ensures Untouched(b, Final(b, x, fields), id)
  {
    WriteUntouched(b, x, "resolved", fields, Done, id);
  }

  lemma UntouchedSame(b: Board, id: string)
    ensures Untouched(b, b, id)
  {
  }

  lemma OtherFinishUntouched(cfg: Config, b: Board, a: Action, id: string)
    requires a.Finish? && a.id != id
    ensures Untouched(b, Step(cfg, b, a), id)
  {
    UntouchedSame(b, id);
    if Ended(b, a.id) && b.threads[a.id].Returned? {
      FinalUntouched(b, a.id, FinalFields(b.threads[a.id].outcome, a.report), id);
    }
  }

  lemma OtherCrashUntouched(cfg: Config, b: Board, a: Action, id: string)
    requires a.FinishCrash? && a.id != id
    ensures Untouched(b, Step(cfg, b, a), id)
  {
    UntouchedSame(b, id);
    if At(b, a.id, Crashed) { FinalUntouched(b, a.id, CrashFields(a.error), id); }
  }

  lemma OtherAwaitUntouched(cfg: Config, b: Board, a: Action, id: string)
    requires a.Await? && a.id != id
    ensures Untouched(b, Step(cfg, b, a), id)
  {
    UntouchedSame(b, id);
    WriteUntouched(b, a.id, "awaiting", AwaitFields(a.report), Asking, id);
  }

  lemma OtherStepUntouched(cfg: Config, b: Board, a: Action, id: string)
    requires !(a.Create? && a.id == id) && !a.Proceed?
    requires a.Await? || a.Finish? || a.FinishCrash? ==> a.id != id
    ensures Untouched(b, Step(cfg, b, a), id)
  {
    if IsRequest(a) {
      RequestUntouched(cfg, b, a, id);
    } else if a.Await? {
      OtherAwaitUntouched(cfg, b, a, id);
    } else if a.Finish? {
      OtherFinishUntouched(cfg, b, a, id);
    } else if a.FinishCrash? {
      OtherCrashUntouched(cfg, b, a, id);
    } else {
      MoveUntouched(cfg, b, a, id);
    }
  }

  lemma OtherTells(cfg: Config, b: Board, a: Action, id: string, way: Option<Way>)
    requires id in b.threads && Returning(b.threads[id], way) && Tells(b, id, way)
    requires !a.Proceed? && !(a.Create? && a.id == id)
    requires a.Await? || a.Finish? || a.FinishCrash? ==> a.id != id
    ensures var w := WayOf(b, a, id); Tells(Step(cfg, b, a), id, if w.Some? then w else way)
  {
    OtherStepUntouched(cfg, b, a, id);
    WayEnds(b, a, id);
  }

  lemma WayEnds(b: Board, a: Action, id: string)
    ensures WayOf(b, a, id).Some? ==> id in b.threads && !b.threads[id].Done?
  {
  }

  lemma NewTaskTells(cfg: Config, b: Board, a: Action, id: string)
    requires id !in b.threads
    ensures Tells(Step(cfg, b, a), id, None)
  {
    if a.Create? { NewTells(id, a.text, a.workerType, a.now); }
  }

  lemma TellsNext(cfg: Config, b: Board, a: Action, id: string, way: Option<Way>)
    requires Inv(b) && id in b.threads && Returning(b.threads[id], way) && Tells(b, id, way)
    ensures var w := WayOf(b, a, id); Tells(Step(cfg, b, a), id, if w.Some? then w else way)
  {
    if a.Proceed? {
      if a.client in b.calls { ProceedTells(b, a.client, id, way); }
    } else if a.Finish? && a.id == id {
      FinishTells(cfg, b, a, id, way);
    } else if a.FinishCrash? && a.id == id {
      FinishCrashTells(cfg, b, a, id, way);
    } else if a.Await? && a.id == id {
      AwaitKeepsTelling(cfg, b, a, id, way);
    } else if a.Create? && a.id == id {
      assert Step(cfg, b, a) == b;
    } else {
      OtherTells(cfg, b, a, id, way);
    }
  }

  lemma {:induction false} CardTells(cfg: Config, log: seq<Event>, actions: seq<Action>, id: string)
    ensures Tells(Run(cfg, Boot(log), actions), id, LastWay(cfg, log, actions, id))
    decreases |actions|
  {
    if actions != [] {
      var front, a := actions[..|actions| - 1], actions[|actions| - 1];
      var b := Run(cfg, Boot(log), front);
      CardTells(cfg, log, front, id);
      ThreadFollows(cfg, log, front, id);
      RunSound(cfg, log, front);
      if id in b.threads {
        TellsNext(cfg, b, a, id, LastWay(cfg, log, front, id));
      } else {
        WayOfNew(cfg, b, a, id);
        NewTaskTells(cfg, b, a, id);
      }
    }
  }

  // ---------- the outcome of a run ----------

  /** What the `i`-th action of the run decided. */
  function WayAt(cfg: Config, log: seq<Event>, actions: seq<Action>, i: nat, id: string): Option<Way>
    requires i < |actions|
  {
    WayOf(Run(cfg, Boot(log), actions[..i]), actions[i], id)
  }

  lemma WayAtFront(cfg: Config, log: seq<Event>, actions: seq<Action>, n: nat, i: nat, id: string)
    requires i < n <= |actions|
    ensures WayAt(cfg, log, actions[..n], i, id) == WayAt(cfg, log, actions, i, id)
  {
    assert actions[..n][..i] == actions[..i];
  }

  /** The `i`-th action decided in that way how the task ends, and none after it decided anything. */
  ghost predicate LastWentAt(cfg: Config, log: seq<Event>, actions: seq<Action>, i: nat, id: string, way: Way)
    requires i < |actions|
  {
    && WayAt(cfg, log, actions, i, id) == Some(way)
    && forall j: nat {:trigger WayAt(cfg, log, actions, j, id)} :: i < j < |actions| ==> WayAt(cfg, log, actions, j, id) == None
  }

  lemma LastWayNext(cfg: Config, log: seq<Event>, actions: seq<Action>, id: string, front: seq<Action>, way: Option<Way>)
    requires actions != [] && front == actions[..|actions| - 1] && way == WayAt(cfg, log, actions, |actions| - 1, id)
    ensures LastWay(cfg, log, actions, id) == if way.Some? then way else LastWay(cfg, log, front, id)
  {
  }

  lemma {:induction false} LastWayIs(cfg: Config, log: seq<Event>, actions: seq<Action>, id: string, last: Option<Way>) returns (i: nat)
    requires last == LastWay(cfg, log, actions, id) && last.Some?
    ensures i < |actions| && LastWentAt(cfg, log, actions, i, id, last.value)
    decreases |actions|
  {
    var n := |actions| - 1;
    var way := WayAt(cfg, log, actions, n, id);
    LastWayNext(cfg, log, actions, id, actions[..n], way);
    if way.Some? {
      i := n;
    } else {
      i := LastWayIs(cfg, log, actions[..n], id, last);
      LastWentLater(cfg, log, actions, i, id, last.value);
    }
  }

  lemma LastWentLater(cfg: Config, log: seq<Event>, actions: seq<Action>, i: nat, id: string, way: Way)
    requires var n := |actions| - 1;
             0 <= i < n && LastWentAt(cfg, log, actions[..n], i, id, way) && WayAt(cfg, log, actions, n, id) == None
    ensures LastWentAt(cfg, log, actions, i, id, way)
  {
    var n := |actions| - 1;
    forall j: nat | i <= j < n ensures WayAt(cfg, log, actions, j, id) == WayAt(cfg, log, actions[..n], j, id) {
      WayAtFront(cfg, log, actions, n, j, id);
    }
  }

  /** A task of this process that shows applied, denied or failed shows, with label, decision
      and error, exactly the last of its steps that decided anything. */
  lemma ResolvedShowsWhy(cfg: Config, log: seq<Event>, actions: seq<Action>, id: string) returns (i: nat, way: Way)
    requires var b := Run(cfg, Boot(log), actions); id in b.threads && id in b.cards && Resolved(b.cards[id])
    ensures i < |actions| && LastWentAt(cfg, log, actions, i, id, way)
    ensures Shows(Run(cfg, Boot(log), actions).cards[id], way)
  {
    RunSound(cfg, log, actions);
    assert TaskSound(Run(cfg, Boot(log), actions), id);
    CardTells(cfg, log, actions, id);
    way := LastWay(cfg, log, actions, id).value;
    i := LastWayIs(cfg, log, actions, id, Some(way));
  }

  /** Conversely a task whose thread has ended uncancelled shows it, and how. */
  lemma EndedShowsWhy(cfg: Config, log: seq<Event>, actions: seq<Action>, id: string, i: nat, way: Way)
    requires i < |actions| && LastWentAt(cfg, log, actions, i, id, way)
    requires var b := Run(cfg, Boot(log), actions); At(b, id, Done) && id in b.cards && id !in b.signalled
    ensures Shows(Run(cfg, Boot(log), actions).cards[id], way)
  {
    EndedTaskIsResolved(cfg, log, actions, id);
    var j, last := ResolvedShowsWhy(cfg, log, actions, id);
    assert WayAt(cfg, log, actions, i, id).Some? && WayAt(cfg, log, actions, j, id).Some?;
  }

  // ---------- a task can be accepted, and refused ----------

  /** The only task of its process, at that phase, uncancelled and with no request under way. */
  predicate Alone(b: Board, id: string, phase: Phase) {
    b.threads == map[id := phase] && id in b.cards && id in b.wired && b.signalled == {} && b.calls == map[]
  }

  lemma CreatedAlone(cfg: Config, id: string, text: string)
    requires cfg.maxConcurrent > 0 && text != ""
    ensures Alone(Step(cfg, Boot([]), Create(id, text, Null, "t")), id, Phase.Created)
  {
    assert Boot([]).cards == map[] && Live(Boot([])) == {};
  }

  lemma ShownAlone(cfg: Config, b: Board, id: string, r: Report)
    ensures Alone(b, id, Phase.Created) ==> Alone(Step(cfg, b, Start(id)), id, Working)
    ensures Alone(b, id, Working) ==> Alone(Step(cfg, b, Await(id, r)), id, Asking)
    ensures Alone(b, id, Asking) ==> Alone(Step(cfg, b, Ask(id)), id, Waiting)
  {
  }

  lemma DecidedAlone(cfg: Config, b: Board, id: string, accept: bool)
    requires Alone(b, id, Waiting)
    ensures Alone(Step(cfg, Step(cfg, Step(cfg, b, Decide(0, id, accept)), Proceed(0)), Answer(id)), id,
                  Returned(if accept then Applied else Denied))
  {
    assert map[0 := Wake(id)] - {0} == map[];
  }

  lemma FinishedAlone(cfg: Config, b: Board, id: string, o: Outcome, r: Report)
    requires Alone(b, id, Returned(o))
    ensures Alone(Step(cfg, b, Finish(id, r)), id, Done)
  {
  }

  /** A task created, shown for approval, decided and finished. */
  function DecidedRun(id: string, text: string, r: Report, accept: bool): seq<Action> {
    [Create(id, text, Null, "t"), Start(id), Await(id, r), Ask(id), Decide(0, id, accept), Proceed(0), Answer(id)]
  }

  lemma RunGrows(cfg: Config, log: seq<Event>, actions: seq<Action>, n: nat)
    requires n < |actions|
    ensures Run(cfg, Boot(log), actions[..n + 1]) == Step(cfg, Run(cfg, Boot(log), actions[..n]), actions[n])
  {
    assert actions[..n] + [actions[n]] == actions[..n + 1];
    RunStep(cfg, Boot(log), actions[..n], actions[n]);
  }

  lemma ReturnsAlone(cfg: Config, id: string, text: string, r: Report, accept: bool)
    requires cfg.maxConcurrent > 0 && text != ""
    ensures Alone(Run(cfg, Boot([]), DecidedRun(id, text, r, accept)), id, Returned(if accept then Applied else Denied))
  {
    var run := DecidedRun(id, text, r, accept);
    WaitsAlone(cfg, id, text, r, accept);
    RunGrows(cfg, [], run, 4);
    RunGrows(cfg, [], run, 5);
    RunGrows(cfg, [], run, 6);
    DecidedAlone(cfg, Run(cfg, Boot([]), run[..4]), id, accept);
    assert run[..7] == run;
  }

  lemma WaitsAlone(cfg: Config, id: string, text: string, r: Report, accept: bool)
    requires cfg.maxConcurrent > 0 && text != ""
    ensures Alone(Run(cfg, Boot([]), DecidedRun(id, text, r, accept)[..4]), id, Waiting)
  {
    var run := DecidedRun(id, text, r, accept);
    assert run[..0] == [];
    CreatedAlone(cfg, id, text);
    RunGrows(cfg, [], run, 0);
    RunGrows(cfg, [], run, 1);
    RunGrows(cfg, [], run, 2);
    RunGrows(cfg, [], run, 3);
    ShownAlone(cfg, Run(cfg, Boot([]), run[..1]), id, r);
    ShownAlone(cfg, Run(cfg, Boot([]), run[..2]), id, r);
    ShownAlone(cfg, Run(cfg, Boot([]), run[..3]), id, r);
  }

  lemma FinishShows(cfg: Config, log: seq<Event>, before: seq<Action>, run: seq<Action>, id: string, o: Outcome, r: Report)
    requires Alone(Run(cfg, Boot(log), before), id, Returned(o)) && run == before + [Finish(id, r)]
    ensures LastWay(cfg, log, run, id) == Some(WayOfOutcome(o)) && Alone(Run(cfg, Boot(log), run), id, Done)
  {
    RunStep(cfg, Boot(log), before, Finish(id, r));
    FinishedAlone(cfg, Run(cfg, Boot(log), before), id, o, r);
    ThreadFollows(cfg, log, before, id);
    assert run[..|run| - 1] == before;
  }

  /** Decided either way while it waits, a task ends showing the decision. */
  lemma DecidedShows(cfg: Config, id: string, text: string, r: Report, accept: bool)
    requires cfg.maxConcurrent > 0 && text != ""
    ensures var e := Run(cfg, Boot([]), DecidedRun(id, text, r, accept) + [Finish(id, r)]);
            id in e.cards && Shows(e.cards[id], if accept then Accepted else Refused)
  {
    var run := DecidedRun(id, text, r, accept) + [Finish(id, r)];
    ReturnsAlone(cfg, id, text, r, accept);
    FinishShows(cfg, [], DecidedRun(id, text, r, accept), run, id, if accept then Applied else Denied, r);
    CardTells(cfg, [], run, id);
    EndedTaskIsResolved(cfg, [], run, id);
  }
}
