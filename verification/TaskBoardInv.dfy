/** What every step of the task board keeps. */
module TaskBoardInv {
  import opened Json
  import opened Ledger
  import opened Basics
  import opened TaskBoard

  /** A card as a restart would leave it: an unfinished task becomes an interrupted one. */
  function Interrupted(c: Card): Card {
    if Terminal(c) then c else Updated(c, map["status" := Str("interrupted")])
  }

  function Look(c: Card, k: string): Option<Json> {
    if k in c then Some(c[k]) else None
  }

  ghost predicate SameAt(id: string, c: Card, m: Card, k: string) {
    Look(Interrupted(c), k) == Look(Restored(id, Orphaned(m)), k)
  }

  /** The live card `c` and the card rebuilt from the folded fields `m` agree; the ledger
      keeps the scrubbed prompt only, so the prompt is not compared. */
  ghost predicate Agrees(id: string, c: Card, m: Card) {
    forall k {:trigger SameAt(id, c, m, k)} :: k != "prompt" ==> SameAt(id, c, m, k)
  }

  predicate Resolved(c: Card) {
    Has(c, "applied") || Has(c, "denied") || Has(c, "failed")
  }

  /** A card of this process against its thread. */
  predicate InStep(s: Slot)
    requires s.card.Some? && s.thread.Some?
  {
    var c, phase := s.card.value, s.thread.value;
    && (Has(c, "running") || Has(c, "awaiting") || Has(c, "cancelled") || Resolved(c))
    && (Has(c, "applied") ==> s.accepted)
    && (Has(c, "awaiting") ==> !phase.Created? && !phase.Working?)
    && (Has(c, "cancelled") ==> s.signalled)
    && (Resolved(c) ==> phase.Done?)
    && (phase.Done? && !s.signalled ==> Resolved(c))
  }

  ghost predicate Sound(id: string, s: Slot) {
    && (s.card.Some? <==> s.seen && !s.dismissed)
    && (s.card.Some? ==> Agrees(id, s.card.value, s.merged))
    && (s.thread.None? ==> !s.wired && !s.signalled && (s.card.Some? ==> Terminal(s.card.value)))
    && (s.thread.Some? ==> s.seen && (s.wired <==> s.card.Some?))
    && (s.thread.Some? && s.card.Some? ==> InStep(s))
    && (s.decision == Some(true) || s.thread == Some(Returned(Applied)) ==> s.accepted)
    && (s.accepted ==> s.seen)
  }

  ghost predicate TaskSound(b: Board, id: string) {
    Sound(id, SlotOf(b, id))
  }

  ghost predicate AllSound(b: Board) {
    forall id {:trigger TaskSound(b, id)} :: TaskSound(b, id)
  }

  /** A request under way concerns a task of this process, and a cancel marks the card only
      after its signal is set. */
  predicate CallSound(b: Board, call: Call) {
    call.id in b.threads && (call.Release? || call.Mark? ==> call.id in b.signalled)
  }

  predicate AllCallsSound(b: Board) {
    forall c {:trigger b.calls[c]} :: c in b.calls ==> CallSound(b, b.calls[c])
  }

  ghost predicate Inv(b: Board) {
    AllSound(b) && AllCallsSound(b)
  }

  // ---------- the ledger and the card move together ----------

  function InterruptedStatus(status: Json): Json {
    if status.Str? && status.s in TERMINAL then status else Str("interrupted")
  }

  lemma InterruptedLook(c: Card, k: string)
    ensures Look(Interrupted(c), k) ==
            if k == "status" then Some(InterruptedStatus(Status(c)))
            else if k == "status_label" && !Terminal(c) then Some(Label(Str("interrupted")))
            else Look(c, k)
  {
  }

  lemma RestoredLook(id: string, m: Card, k: string)
    ensures Look(Restored(id, Orphaned(m)), k) ==
            if k == "status" then Some(InterruptedStatus(Status(m)))
            else if k == "status_label" then Some(Label(InterruptedStatus(Status(m))))
            else if k in m then Some(m[k])
            else Look(Skeleton(id, "", Str("ollama"), ""), k)
  {
    var o := Orphaned(m);
    assert Status(o) == InterruptedStatus(Status(m)) && "status" in o;
    assert Status(Skeleton(id, "", Str("ollama"), "") + o) == Status(o);
  }

  lemma UpdatedLook(c: Card, fields: Entry, k: string)
    requires "status" in fields
    ensures Look(Updated(c, fields), k) ==
            if k == "status_label" then Some(Label(fields["status"]))
            else if k in fields then Some(fields[k])
            else Look(c, k)
    ensures Status(Updated(c, fields)) == fields["status"]
  {
  }

  lemma SameAfterUpdate(id: string, c: Card, m: Card, fields: Entry, k: string)
    requires "status" in fields && (k == "status" || k == "status_label" || SameAt(id, c, m, k))
    ensures SameAt(id, Updated(c, fields), m + fields, k)
  {
    InterruptedLook(Updated(c, fields), k);
    UpdatedLook(c, fields, k);
    RestoredLook(id, m + fields, k);
    RestoredLook(id, m, k);
    InterruptedLook(c, k);
    assert Status(m + fields) == fields["status"];
  }

  /** A write that sets the status keeps the card and the ledger in agreement. */
  lemma AgreesAfterUpdate(id: string, c: Card, m: Card, fields: Entry)
    requires Agrees(id, c, m) && "status" in fields
    ensures Agrees(id, Updated(c, fields), m + fields)
  {
    forall k | k != "prompt" ensures SameAt(id, Updated(c, fields), m + fields, k) {
      assert SameAt(id, c, m, k);
      SameAfterUpdate(id, c, m, fields, k);
    }
  }

  lemma CreatedIsRunning(cfg: Config, id: string, text: string, workerType: Json, now: string)
    ensures Has(Skeleton(id, First200(text), workerType, now), "running")
    ensures OneOfOurs(CreatedFields(cfg, text, workerType, now))
  {
  }

  lemma SameAtCreation(cfg: Config, id: string, text: string, workerType: Json, now: string, k: string)
    requires k != "prompt"
    ensures SameAt(id, Skeleton(id, First200(text), workerType, now),
                   map["id" := Str(id)] + CreatedFields(cfg, text, workerType, now), k)
  {
    InterruptedLook(Skeleton(id, First200(text), workerType, now), k);
    RestoredLook(id, map["id" := Str(id)] + CreatedFields(cfg, text, workerType, now), k);
  }

  lemma AgreesAtCreation(cfg: Config, id: string, text: string, workerType: Json, now: string)
    ensures Agrees(id, Skeleton(id, First200(text), workerType, now),
                   map["id" := Str(id)] + CreatedFields(cfg, text, workerType, now))
  {
    var c := Skeleton(id, First200(text), workerType, now);
    var m := map["id" := Str(id)] + CreatedFields(cfg, text, workerType, now);
    forall k | k != "prompt" ensures SameAt(id, c, m, k) {
      SameAtCreation(cfg, id, text, workerType, now, k);
    }
  }

  lemma AgreesAtBoot(id: string, m: Card)
    ensures Agrees(id, Restored(id, Orphaned(m)), m) && Terminal(Restored(id, Orphaned(m)))
  {
    RestoredLook(id, m, "status");
  }

  // ---------- writes and moves, on one task ----------

  predicate OneOfOurs(fields: Entry) {
    "status" in fields && fields.Keys !! RESERVED
  }

  /** A write to a card of this process keeps it sound if the new status fits its thread. */
  lemma SoundWrite(id: string, s: Slot, fields: Entry, phase: Phase)
    requires Sound(id, s) && s.thread.Some? && OneOfOurs(fields)
    requires var t := Written(s, fields).(thread := Some(phase)); t.card.Some? ==> InStep(t)
    requires phase == Returned(Applied) ==> s.accepted
    ensures Sound(id, Written(s, fields).(thread := Some(phase)))
  {
    if s.card.Some? { AgreesAfterUpdate(id, s.card.value, s.merged, fields); }
  }

  lemma StatusWritten(c: Card, fields: Entry)
    requires "status" in fields
    ensures Status(Updated(c, fields)) == fields["status"]
  {
  }

  /** A step that touches one task leaves the others sound. */
  lemma OneTask(b: Board, next: Board, id: string)
    requires AllSound(b) && TaskSound(next, id)
    requires forall other {:trigger SlotOf(next, other)} :: other != id ==> SlotOf(next, other) == SlotOf(b, other)
    ensures AllSound(next)
  {
    forall other ensures TaskSound(next, other) {
      if other != id {
        assert TaskSound(b, other);
        assert SlotOf(next, other) == SlotOf(b, other);
      }
    }
  }

  lemma WriteKeeps(b: Board, id: string, event: string, fields: Entry, phase: Phase)
    requires AllSound(b) && id in b.threads && OneOfOurs(fields) && event != "dismissed"
    requires var t := Written(SlotOf(b, id), fields).(thread := Some(phase)); t.card.Some? ==> InStep(t)
    requires phase == Returned(Applied) ==> id in b.accepted
    ensures AllSound(Move(Write(b, id, event, fields), id, phase))
  {
    var next := Move(Write(b, id, event, fields), id, phase);
    assert TaskSound(b, id);
    SoundWrite(id, SlotOf(b, id), fields, phase);
    forall other ensures SlotOf(next, other) ==
        if other == id then Written(SlotOf(b, id), fields).(thread := Some(phase)) else SlotOf(b, other) {
      WriteSlots(b, id, event, fields, other);
    }
    OneTask(b, next, id);
  }

  lemma MoveKeeps(b: Board, id: string, phase: Phase)
    requires AllSound(b) && id in b.threads
    requires var t := SlotOf(b, id).(thread := Some(phase)); t.card.Some? ==> InStep(t)
    requires phase == Returned(Applied) ==> id in b.accepted
    ensures AllSound(Move(b, id, phase))
  {
    assert TaskSound(b, id);
    assert SlotOf(Move(b, id, phase), id) == SlotOf(b, id).(thread := Some(phase));
    OneTask(b, Move(b, id, phase), id);
  }

  // ---------- every action keeps the invariant ----------

  ghost predicate Adds(b: Board, next: Board, id: string, card: Card, fields: Entry) {
    next == b.(cards := b.cards[id := card], wired := b.wired + {id},
               log := b.log + [Record(id, "created", fields)], threads := b.threads[id := Created])
  }

  lemma CreateSlots(b: Board, next: Board, id: string, card: Card, fields: Entry, other: string)
    requires Fresh(b, id) && fields.Keys !! RESERVED && Adds(b, next, id, card, fields)
    ensures SlotOf(next, other) ==
            if other != id then SlotOf(b, other)
            else SlotOf(b, id).(card := Some(card), wired := true, thread := Some(Created), seen := true,
                                merged := map["id" := Str(id)] + fields)
  {
    MergedUnseen(b.log, id);
    LogNext(b.log, id, "created", fields, other);
  }

  lemma NewTaskKeeps(b: Board, next: Board, id: string, card: Card, fields: Entry)
    requires AllSound(b) && Fresh(b, id) && fields.Keys !! RESERVED && Adds(b, next, id, card, fields)
    requires Has(card, "running") && Agrees(id, card, map["id" := Str(id)] + fields)
    ensures AllSound(next)
  {
    assert TaskSound(b, id);
    forall other ensures other != id ==> SlotOf(next, other) == SlotOf(b, other) {
      CreateSlots(b, next, id, card, fields, other);
    }
    CreateSlots(b, next, id, card, fields, id);
    OneTask(b, next, id);
  }

  lemma CreateKeeps(cfg: Config, b: Board, id: string, text: string, workerType: Json, now: string)
    requires AllSound(b) && Fresh(b, id)
    ensures AllSound(CreateStep(cfg, b, id, text, workerType, now))
  {
    var card, fields := Skeleton(id, First200(text), workerType, now), CreatedFields(cfg, text, workerType, now);
    AgreesAtCreation(cfg, id, text, workerType, now);
    CreatedIsRunning(cfg, id, text, workerType, now);
    NewTaskKeeps(b, CreateStep(cfg, b, id, text, workerType, now), id, card, fields);
  }

  lemma DecideKeeps(b: Board, client: nat, id: string, accept: bool)
    requires AllSound(b) && id in b.cards
    ensures AllSound(DecideStep(b, client, id, accept))
  {
    assert TaskSound(b, id);
    OneTask(b, DecideStep(b, client, id, accept), id);
  }

  lemma CancelKeeps(b: Board, client: nat, id: string)
    requires AllSound(b)
    ensures AllSound(CancelStep(b, client, id))
  {
    assert TaskSound(b, id);
    OneTask(b, CancelStep(b, client, id), id);
  }

  lemma DismissSlots(b: Board, id: string, other: string)
    ensures SlotOf(DismissStep(b, id), other) ==
            if other != id then SlotOf(b, other)
            else SlotOf(b, id).(card := None, wired := false, decision := None, dismissed := true)
  {
    var e := Record(id, "dismissed", map[]);
    SeenNext(b.log, e);
    MergedNext(b.log, e, other);
  }

  lemma DismissKeeps(b: Board, id: string)
    requires AllSound(b) && MayDismiss(b, id)
    ensures AllSound(DismissStep(b, id))
  {
    var next := DismissStep(b, id);
    assert TaskSound(b, id);
    forall other ensures other != id ==> SlotOf(next, other) == SlotOf(b, other) {
      DismissSlots(b, id, other);
    }
    DismissSlots(b, id, id);
    OneTask(b, next, id);
  }

  lemma MarkedInStep(s: Slot, phase: Phase)
    requires s.card.Some? && s.signalled
    ensures InStep(Written(s, CancelFields()).(thread := Some(phase)))
  {
    StatusWritten(s.card.value, CancelFields());
  }

  lemma MoveInPlace(b: Board, id: string)
    requires id in b.threads
    ensures Move(b, id, b.threads[id]) == b
  {
    assert b.threads[id := b.threads[id]] == b.threads;
  }

  lemma MarkKeeps(b: Board, id: string)
    requires AllSound(b) && id in b.threads && id in b.signalled
    ensures AllSound(Write(b, id, "cancelled", CancelFields()))
  {
    var phase := b.threads[id];
    if id in b.cards { MarkedInStep(SlotOf(b, id), phase); }
    PhaseSound(b, id, phase);
    WriteKeeps(b, id, "cancelled", CancelFields(), phase);
    MoveInPlace(Write(b, id, "cancelled", CancelFields()), id);
  }

  lemma PhaseSound(b: Board, id: string, phase: Phase)
    requires AllSound(b) && id in b.threads && b.threads[id] == phase
    ensures phase == Returned(Applied) ==> id in b.accepted
  {
    assert TaskSound(b, id);
  }

  lemma SignalKeeps(b: Board, next: Board, id: string)
    requires AllSound(b) && id in b.threads
    requires next == b.(signalled := b.signalled + {id}) || next == b.(woken := b.woken + {id})
    ensures AllSound(next)
  {
    assert TaskSound(b, id);
    OneTask(b, next, id);
  }

  lemma ProceedKeeps(b: Board, client: nat)
    requires Inv(b) && client in b.calls
    ensures AllSound(ProceedStep(b, client))
  {
    var call := b.calls[client];
    assert CallSound(b, call);
    var next := ProceedStep(b, client).(calls := b.calls);
    if call.Mark? {
      MarkKeeps(b, call.id);
    } else {
      SignalKeeps(b, next, call.id);
    }
    SameSlots(next, ProceedStep(b, client));
  }

  lemma SameSlots(b: Board, next: Board)
    requires AllSound(b) && next == b.(calls := next.calls)
    ensures AllSound(next)
  {
    forall id ensures TaskSound(next, id) {
      assert TaskSound(b, id) && SlotOf(next, id) == SlotOf(b, id);
    }
  }

  predicate FinalStatus(fields: Entry) {
    "status" in fields && fields["status"] in {Str("applied"), Str("denied"), Str("failed")}
  }

  lemma ResolvedInStep(s: Slot, fields: Entry)
    requires s.card.Some? && FinalStatus(fields) && (fields["status"] == Str("applied") ==> s.accepted)
    ensures InStep(Written(s, fields).(thread := Some(Done)))
  {
    StatusWritten(s.card.value, fields);
  }

  lemma EndKeeps(b: Board, id: string)
    requires AllSound(b) && Ended(b, id) && IsCancelled(b, id)
    ensures AllSound(Move(b, id, Done))
  {
    assert TaskSound(b, id);
    MoveKeeps(b, id, Done);
  }

  lemma FinalKeeps(b: Board, id: string, fields: Entry)
    requires AllSound(b) && Ended(b, id) && OneOfOurs(fields) && FinalStatus(fields)
    requires fields["status"] == Str("applied") ==> id in b.accepted
    ensures AllSound(Final(b, id, fields))
  {
    if IsCancelled(b, id) {
      EndKeeps(b, id);
    } else {
      if id in b.cards { ResolvedInStep(SlotOf(b, id), fields); }
      WriteKeeps(b, id, "resolved", fields, Done);
    }
  }

  lemma StartKeeps(b: Board, id: string)
    requires AllSound(b) && At(b, id, Created)
    ensures AllSound(Move(b, id, if id in b.cards then Working else Done))
  {
    assert TaskSound(b, id);
    MoveKeeps(b, id, if id in b.cards then Working else Done);
  }

  lemma AwaitedInStep(s: Slot, report: Report)
    requires s.card.Some?
    ensures InStep(Written(s, AwaitFields(report)).(thread := Some(Asking)))
  {
    StatusWritten(s.card.value, AwaitFields(report));
  }

  lemma AwaitKeeps(b: Board, id: string, report: Report)
    requires AllSound(b) && At(b, id, Working)
    ensures AllSound(Move(Write(b, id, "awaiting", AwaitFields(report)), id, Asking))
  {
    if id in b.cards { AwaitedInStep(SlotOf(b, id), report); }
    WriteKeeps(b, id, "awaiting", AwaitFields(report), Asking);
  }

  /** A thread that has not ended may move on, provided it carries an acceptance if it says so. */
  lemma LateMoveKeeps(b: Board, id: string, phase: Phase)
    requires AllSound(b) && id in b.threads && !b.threads[id].Done?
    requires phase.Waiting? || phase.Returned? || phase.Crashed?
    requires phase == Returned(Applied) ==> id in b.accepted
    ensures AllSound(Move(b, id, phase))
  {
    assert TaskSound(b, id);
    MoveKeeps(b, id, phase);
  }

  lemma VerdictSound(b: Board, id: string)
    requires AllSound(b)
    ensures Verdict(b, id).Applied? ==> id in b.accepted
  {
    assert TaskSound(b, id);
  }

  lemma ThreadStepKeeps(cfg: Config, b: Board, a: Action)
    requires AllSound(b)
    requires a.Ask? || a.Answer? || a.Refuse? || a.WorkerFails? || a.Crash?
    ensures AllSound(Step(cfg, b, a))
  {
    if a.id in b.threads && !b.threads[a.id].Done? {
      VerdictSound(b, a.id);
      if a.Ask? { LateMoveKeeps(b, a.id, if a.id in b.wired then Waiting else Returned(Denied)); }
      if a.Answer? { LateMoveKeeps(b, a.id, Returned(Verdict(b, a.id))); }
      if a.Refuse? { LateMoveKeeps(b, a.id, Returned(Denied)); }
      if a.WorkerFails? { LateMoveKeeps(b, a.id, Returned(Failed)); }
      if a.Crash? { LateMoveKeeps(b, a.id, Crashed); }
    }
  }

  lemma FinishKeeps(b: Board, id: string, outcome: Outcome, report: Report)
    requires AllSound(b) && At(b, id, Returned(outcome))
    ensures AllSound(Final(b, id, FinalFields(outcome, report)))
  {
    PhaseSound(b, id, Returned(outcome));
    FinalKeeps(b, id, FinalFields(outcome, report));
  }

  lemma FinishCrashKeeps(b: Board, id: string, error: string)
    requires AllSound(b) && At(b, id, Crashed)
    ensures AllSound(Final(b, id, CrashFields(error)))
  {
    FinalKeeps(b, id, CrashFields(error));
  }

  lemma RequestKeeps(cfg: Config, b: Board, a: Action)
    requires Inv(b) && (a.Create? || a.Decide? || a.Cancel? || a.Proceed? || a.Dismiss?)
    ensures AllSound(Step(cfg, b, a))
  {
    match a
    case Create(id, text, workerType, now) => if Fresh(b, id) { CreateKeeps(cfg, b, id, text, workerType, now); }
    case Decide(client, id, accept) => if id in b.cards { DecideKeeps(b, client, id, accept); }
    case Cancel(client, id) => CancelKeeps(b, client, id);
    case Proceed(client) => if client in b.calls { ProceedKeeps(b, client); }
    case Dismiss(id) => if MayDismiss(b, id) { DismissKeeps(b, id); }
  }

  lemma NewCallSound(b: Board, next: Board, client: nat, call: Call)
    requires AllCallsSound(b) && CallSound(next, call) && b.threads.Keys <= next.threads.Keys && b.signalled <= next.signalled
    requires next.calls == b.calls[client := call]
    ensures AllCallsSound(next)
  {
    forall c | c in next.calls ensures CallSound(next, next.calls[c]) {
      if c != client { assert CallSound(b, b.calls[c]); }
    }
  }

  lemma OldCallsSound(b: Board, next: Board)
    requires AllCallsSound(b) && b.threads.Keys <= next.threads.Keys && b.signalled <= next.signalled
    requires next.calls.Keys <= b.calls.Keys && forall c :: c in next.calls ==> next.calls[c] == b.calls[c]
    ensures AllCallsSound(next)
  {
    forall c | c in next.calls ensures CallSound(next, next.calls[c]) {
      assert CallSound(b, b.calls[c]);
    }
  }

  lemma WiredIsOurs(b: Board, id: string)
    requires AllSound(b)
    ensures id in b.wired ==> id in b.threads
    ensures id in b.cards && !Terminal(b.cards[id]) ==> id in b.wired
  {
    assert TaskSound(b, id);
  }

  ghost predicate CallsFramed(b: Board, next: Board) {
    next.calls == b.calls && b.threads.Keys <= next.threads.Keys && next.signalled == b.signalled
  }

  lemma ThreadCallsUntouched(cfg: Config, b: Board, a: Action)
    requires !a.Decide? && !a.Cancel? && !a.Proceed? && !a.Create? && !a.Dismiss? && !a.Finish? && !a.FinishCrash?
    ensures CallsFramed(b, Step(cfg, b, a))
  {
  }

  lemma CallsUntouched(cfg: Config, b: Board, a: Action)
    requires !a.Decide? && !a.Cancel? && !a.Proceed?
    ensures CallsFramed(b, Step(cfg, b, a))
  {
    if !a.Create? && !a.Dismiss? && !a.Finish? && !a.FinishCrash? { ThreadCallsUntouched(cfg, b, a); }
  }

  lemma RequestCallsKept(b: Board, client: nat, id: string, accept: bool)
    requires AllCallsSound(b) && AllSound(b) && id in b.cards
    ensures AllCallsSound(DecideStep(b, client, id, accept))
    ensures MayCancel(b, id) ==> AllCallsSound(CancelStep(b, client, id))
  {
    WiredIsOurs(b, id);
    if id in b.wired {
      NewCallSound(b, DecideStep(b, client, id, accept), client, Wake(id));
      NewCallSound(b, CancelStep(b, client, id), client, Signal(id));
    } else {
      OldCallsSound(b, DecideStep(b, client, id, accept));
    }
  }

  lemma ProceedCallsKept(b: Board, client: nat)
    requires AllCallsSound(b) && client in b.calls
    ensures AllCallsSound(ProceedStep(b, client))
  {
    var next := ProceedStep(b, client);
    assert CallSound(b, b.calls[client]);
    if client in next.calls {
      NewCallSound(b, next, client, next.calls[client]);
    } else {
      OldCallsSound(b, next);
    }
  }

  lemma CallsKept(cfg: Config, b: Board, a: Action)
    requires AllCallsSound(b) && AllSound(b)
    ensures AllCallsSound(Step(cfg, b, a))
  {
    if a.Decide? {
      if a.id in b.cards { RequestCallsKept(b, a.client, a.id, a.accept); }
    } else if a.Cancel? {
      if a.id in b.cards { RequestCallsKept(b, a.client, a.id, false); }
    } else if a.Proceed? {
      if a.client in b.calls { ProceedCallsKept(b, a.client); }
    } else {
      CallsUntouched(cfg, b, a);
      OldCallsSound(b, Step(cfg, b, a));
    }
  }

  /** Every step of every thread keeps the invariant. */
  lemma StepKeeps(cfg: Config, b: Board, a: Action)
    requires Inv(b)
    ensures Inv(Step(cfg, b, a))
  {
    CallsKept(cfg, b, a);
    if a.Create? || a.Decide? || a.Cancel? || a.Proceed? || a.Dismiss? {
      RequestKeeps(cfg, b, a);
    } else if a.Start? {
      if At(b, a.id, Created) { StartKeeps(b, a.id); }
    } else if a.Await? {
      if At(b, a.id, Working) { AwaitKeeps(b, a.id, a.report); }
    } else if a.Finish? {
      if Ended(b, a.id) && b.threads[a.id].Returned? { FinishKeeps(b, a.id, b.threads[a.id].outcome, a.report); }
    } else if a.FinishCrash? {
      if At(b, a.id, Crashed) { FinishCrashKeeps(b, a.id, a.error); }
    } else {
      ThreadStepKeeps(cfg, b, a);
    }
  }

  /** A process that starts on any ledger starts sound. */
  lemma BootSound(log: seq<Event>)
    ensures Inv(Boot(log))
  {
    forall id ensures TaskSound(Boot(log), id) {
      AgreesAtBoot(id, Merged(log, id));
    }
  }

  /** Every state of every run of every process is sound. */
  lemma {:induction false} RunSound(cfg: Config, log: seq<Event>, actions: seq<Action>)
    ensures Inv(Run(cfg, Boot(log), actions))
    decreases |actions|
  {
    if actions == [] {
      BootSound(log);
    } else {
      RunSound(cfg, log, actions[..|actions| - 1]);
      StepKeeps(cfg, Run(cfg, Boot(log), actions[..|actions| - 1]), actions[|actions| - 1]);
    }
  }
}
