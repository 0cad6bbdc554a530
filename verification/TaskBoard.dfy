/** The task board of jarvis_hud/jarvis_tasks.py as a state machine. */
module TaskBoard {
  import opened Json
  import opened Ledger
  import opened Basics

  // ---------- cards ----------

  /** The label shown for a status; an unknown status shows itself. */
  function Label(status: Json): Json {
    match status
    case Str("running") => Str("진행중")
    case Str("awaiting") => Str("승인대기")
    case Str("applied") => Str("수락")
    case Str("denied") => Str("거절")
    case Str("failed") => Str("실패")
    case Str("cancelled") => Str("취소")
    case Str("interrupted") => Str("중단됨")
    case _ => status
  }

  function Skeleton(id: string, prompt: string, workerType: Json, now: string): Card {
    map["id" := Str(id), "prompt" := Str(prompt), "worker_type" := workerType,
        "status" := Str("running"), "status_label" := Label(Str("running")),
        "flags" := Arr([]), "advice" := Null, "redacted_output_preview" := Null,
        "raw_available" := Bool(false), "decision" := Null, "error" := Null, "created_at" := Str(now)]
  }

  function Status(c: Card): Json {
    Get(c, "status")
  }

  predicate Has(c: Card, status: string) {
    Status(c) == Str(status)
  }

  /** `card.update(fields)`, the label following the status. */
  function Updated(c: Card, fields: Entry): Card {
    if "status" in fields then c + fields + map["status_label" := Label(fields["status"])] else c + fields
  }

  /** A card as `_restore` shows it. */
  function Restored(id: string, folded: Card): Card {
    var merged := Skeleton(id, "", Str("ollama"), "") + folded;
    merged["status_label" := Label(Status(merged))]
  }

  // ---------- the state ----------

  datatype Outcome = Applied | Denied | Failed

  /** Where a background thread stands in `run_task`. */
  datatype Phase =
    | Created          // not started yet
    | Working          // worker or boss call in progress
    | Asking           // the card awaits; the approver has not fetched its event yet
    | Waiting          // blocked on the event
    | Returned(outcome: Outcome)  // dispatch has returned
    | Crashed          // an exception is being handled
    | Done

  /** A request that has released the lock and still has steps to do. */
  datatype Call =
    | Wake(id: string)     // decide: the event is still to be set
    | Signal(id: string)   // cancel: the cancel signal is still to be set
    | Release(id: string)  // cancel: the approver is still to be woken
    | Mark(id: string)     // cancel: the card is still to be marked

  datatype Board = Board(
    cards: map<string, Card>,
    wired: set<string>,             // tasks with their two events still registered
    woken: set<string>,             // tasks whose approval event is set
    signalled: set<string>,         // tasks whose cancel event is set
    decisions: map<string, bool>,
    log: seq<Event>,
    threads: map<string, Phase>,    // one per task created in this process
    calls: map<nat, Call>,          // requests under way, by client
    accepted: set<string>)          // tasks for which decide(accept) has returned true

  /** What a review step reports: flags, advice and preview, already scrubbed. */
  datatype Report = Report(flags: Json, advice: Json, preview: Json)

  datatype Config = Config(maxConcurrent: int, scrub: string -> string)

  datatype Action =
    | Create(id: string, text: string, workerType: Json, now: string)  // `text` is the stripped prompt
    | Decide(client: nat, id: string, accept: bool)
    | Cancel(client: nat, id: string)
    | Proceed(client: nat)                 // the next step of a request under way
    | Dismiss(id: string)
    | Start(id: string)
    | Await(id: string, report: Report)    // the approver shows the card
    | Ask(id: string)                      // the approver fetches its event
    | Answer(id: string)                   // the wait ends because the event is set
    | Refuse(id: string)                   // the wait times out, or the approver raises
    | WorkerFails(id: string)
    | Crash(id: string)
    | Finish(id: string, report: Report)   // the cancelled-check and the final write
    | FinishCrash(id: string, error: string)

  function ReportFields(r: Report): Entry {
    map["flags" := r.flags, "advice" := r.advice, "redacted_output_preview" := r.preview]
  }

  function AwaitFields(r: Report): Entry {
    ReportFields(r) + map["status" := Str("awaiting")]
  }

  function StatusOf(o: Outcome): string {
    match o
    case Applied => "applied"
    case Denied => "denied"
    case Failed => "failed"
  }

  function FinalFields(o: Outcome, r: Report): Entry {
    ReportFields(r) + map["status" := Str(StatusOf(o)), "decision" := Bool(o.Applied?)]
  }

  function CancelFields(): Entry {
    map["status" := Str("cancelled"), "decision" := Bool(false)]
  }

  function CrashFields(error: string): Entry {
    map["status" := Str("failed"), "error" := Str(error)]
  }

  function First200(s: string): string {
    if |s| <= 200 then s else s[..200]
  }

  function CreatedFields(cfg: Config, text: string, workerType: Json, now: string): Entry {
    map["prompt" := Str(cfg.scrub(First200(text))), "worker_type" := workerType,
        "status" := Str("running"), "created_at" := Str(now)]
  }

  // ---------- the steps ----------

  function Live(b: Board): set<string> {
    set id | id in b.cards && (Has(b.cards[id], "running") || Has(b.cards[id], "awaiting"))
  }

  /** `uuid4` gives an id used neither by a task of this process nor in the ledger. */
  predicate Fresh(b: Board, id: string) {
    id !in b.threads && id !in b.cards && id !in Seen(b.log) && id !in Dismissed(b.log)
  }

  predicate IsCancelled(b: Board, id: string) {
    id in b.wired && id in b.signalled
  }

  predicate At(b: Board, id: string, p: Phase) {
    id in b.threads && b.threads[id] == p
  }

  predicate Ended(b: Board, id: string) {
    id in b.threads && (b.threads[id].Returned? || b.threads[id].Crashed?)
  }

  function Move(b: Board, id: string, p: Phase): Board {
    b.(threads := b.threads[id := p])
  }

  /** `_update` and `_record`: the card changes only if it is still there, the ledger always. */
  function Write(b: Board, id: string, event: string, fields: Entry): Board {
    b.(cards := if id in b.cards then b.cards[id := Updated(b.cards[id], fields)] else b.cards,
       log := b.log + [Record(id, event, fields)])
  }

  predicate MayCreate(cfg: Config, b: Board, id: string, text: string) {
    Fresh(b, id) && text != "" && |Live(b)| < cfg.maxConcurrent
  }

  function CreateStep(cfg: Config, b: Board, id: string, text: string, workerType: Json, now: string): Board {
    b.(cards := b.cards[id := Skeleton(id, First200(text), workerType, now)],
       wired := b.wired + {id},
       log := b.log + [Record(id, "created", CreatedFields(cfg, text, workerType, now))],
       threads := b.threads[id := Created])
  }

  function DecideStep(b: Board, client: nat, id: string, accept: bool): Board {
    b.(decisions := b.decisions[id := accept],
       accepted := if accept then b.accepted + {id} else b.accepted,
       calls := if id in b.wired then b.calls[client := Wake(id)] else b.calls)
  }

  predicate MayCancel(b: Board, id: string) {
    id in b.cards && !Terminal(b.cards[id])
  }

  function CancelStep(b: Board, client: nat, id: string): Board {
    b.(decisions := b.decisions[id := false],
       calls := b.calls[client := if id in b.wired then Signal(id) else Mark(id)])
  }

  function ProceedStep(b: Board, client: nat): Board
    requires client in b.calls
  {
    match b.calls[client]
    case Wake(id) => b.(woken := b.woken + {id}, calls := b.calls - {client})
    case Signal(id) => b.(signalled := b.signalled + {id}, calls := b.calls[client := Release(id)])
    case Release(id) => b.(woken := b.woken + {id}, calls := b.calls[client := Mark(id)])
    case Mark(id) => Write(b, id, "cancelled", CancelFields()).(calls := b.calls - {client})
  }

  predicate MayDismiss(b: Board, id: string) {
    id in b.cards && Terminal(b.cards[id])
  }

  function DismissStep(b: Board, id: string): Board {
    b.(cards := b.cards - {id}, wired := b.wired - {id}, decisions := b.decisions - {id},
       log := b.log + [Record(id, "dismissed", map[])])
  }

  /** What the approver answers once its event is set. */
  function Verdict(b: Board, id: string): Outcome {
    if id in b.decisions && b.decisions[id] then Applied else Denied
  }

  function Final(b: Board, id: string, fields: Entry): Board {
    Move(if IsCancelled(b, id) then b else Write(b, id, "resolved", fields), id, Done)
  }

  /** One step; a step that is not possible changes nothing. */
  function Step(cfg: Config, b: Board, a: Action): Board {
    match a
    case Create(id, text, workerType, now) =>
      if MayCreate(cfg, b, id, text) then CreateStep(cfg, b, id, text, workerType, now) else b
    case Decide(client, id, accept) =>
      if client !in b.calls && id in b.cards then DecideStep(b, client, id, accept) else b
    case Cancel(client, id) =>
      if client !in b.calls && MayCancel(b, id) then CancelStep(b, client, id) else b
    case Proceed(client) =>
      if client in b.calls then ProceedStep(b, client) else b
    case Dismiss(id) =>
      if MayDismiss(b, id) then DismissStep(b, id) else b
    case Start(id) =>
      if At(b, id, Created) then Move(b, id, if id in b.cards then Working else Done) else b
    case Await(id, report) =>
      if At(b, id, Working) then Move(Write(b, id, "awaiting", AwaitFields(report)), id, Asking) else b
    case Ask(id) =>
      if At(b, id, Asking) then Move(b, id, if id in b.wired then Waiting else Returned(Denied)) else b
    case Answer(id) =>
      if At(b, id, Waiting) && id in b.woken then Move(b, id, Returned(Verdict(b, id))) else b
    case Refuse(id) =>
      if At(b, id, Working) || At(b, id, Asking) || At(b, id, Waiting) then Move(b, id, Returned(Denied)) else b
    case WorkerFails(id) =>
      if At(b, id, Working) then Move(b, id, Returned(Failed)) else b
    case Crash(id) =>
      if id in b.threads && !b.threads[id].Done? then Move(b, id, Crashed) else b
    case Finish(id, report) =>
      if Ended(b, id) && b.threads[id].Returned? then Final(b, id, FinalFields(b.threads[id].outcome, report)) else b
    case FinishCrash(id, error) =>
      if At(b, id, Crashed) then Final(b, id, CrashFields(error)) else b
  }

  function Run(cfg: Config, b: Board, actions: seq<Action>): Board
    decreases |actions|
  {
    if actions == [] then b
    else Step(cfg, Run(cfg, b, actions[..|actions| - 1]), actions[|actions| - 1])
  }

  lemma RunStep(cfg: Config, b: Board, actions: seq<Action>, a: Action)
    ensures Run(cfg, b, actions + [a]) == Step(cfg, Run(cfg, b, actions), a)
  {
    assert (actions + [a])[..|actions|] == actions;
  }

  lemma RunTwo(cfg: Config, b: Board, a: Action, c: Action)
    ensures Run(cfg, b, [a, c]) == Step(cfg, Step(cfg, b, a), c)
  {
    RunStep(cfg, b, [], a);
    RunStep(cfg, b, [a], c);
    assert [] + [a] == [a] && [a] + [c] == [a, c];
  }

  lemma RunFour(cfg: Config, b: Board, a: Action, p: Action)
    ensures Run(cfg, b, [a, p, p, p]) == Step(cfg, Step(cfg, Step(cfg, Step(cfg, b, a), p), p), p)
  {
    RunStep(cfg, b, [], a);
    assert [] + [a] == [a];
    RunStep(cfg, b, [a], p);
    RunStep(cfg, b, [a, p], p);
    RunStep(cfg, b, [a, p, p], p);
    assert [a] + [p] == [a, p] && [a, p] + [p] == [a, p, p] && [a, p, p] + [p] == [a, p, p, p];
  }

  /** The steps of one decide request. */
  function DecideRequest(client: nat, id: string, accept: bool): seq<Action> {
    [Decide(client, id, accept), Proceed(client)]
  }

  /** The steps of one cancel request. */
  function CancelRequest(client: nat, id: string): seq<Action> {
    [Cancel(client, id), Proceed(client), Proceed(client), Proceed(client)]
  }

  function RestoredCards(log: seq<Event>): map<string, Card> {
    map id | id in Fold(log) :: Restored(id, Fold(log)[id])
  }

  /** A process that starts on a ledger left by earlier ones. */
  function Boot(log: seq<Event>): Board {
    Board(RestoredCards(log), {}, {}, {}, map[], log, map[], map[], {})
  }

  // ---------- one task's share of the state ----------

  datatype Slot = Slot(
    card: Option<Card>, wired: bool, woken: bool, signalled: bool, decision: Option<bool>,
    thread: Option<Phase>, accepted: bool, seen: bool, dismissed: bool, merged: Card)

  function SlotOf(b: Board, id: string): Slot {
    Slot(if id in b.cards then Some(b.cards[id]) else None, id in b.wired, id in b.woken, id in b.signalled,
         if id in b.decisions then Some(b.decisions[id]) else None,
         if id in b.threads then Some(b.threads[id]) else None,
         id in b.accepted, id in Seen(b.log), id in Dismissed(b.log), Merged(b.log, id))
  }

  /** The slot after `Write`. */
  function Written(s: Slot, fields: Entry): Slot {
    s.(card := if s.card.Some? then Some(Updated(s.card.value, fields)) else None,
       seen := true, merged := s.merged + fields)
  }

  /** What one more event does to a task's share of the ledger. */
  lemma LogNext(log: seq<Event>, id: string, event: string, fields: Entry, other: string)
    requires event != "dismissed" && fields.Keys !! RESERVED
    ensures var next := log + [Record(id, event, fields)];
            && (other in Seen(next) <==> other in Seen(log) || other == id)
            && Dismissed(next) == Dismissed(log)
            && Merged(next, other) == if other == id then Merged(log, id) + fields else Merged(log, other)
  {
    var e := Record(id, event, fields);
    SeenNext(log, e);
    MergedNext(log, e, other);
    assert e - RESERVED == fields;
  }

  lemma WriteSlots(b: Board, id: string, event: string, fields: Entry, other: string)
    requires event != "dismissed" && fields.Keys !! RESERVED
    ensures SlotOf(Write(b, id, event, fields), other) == if other == id then Written(SlotOf(b, id), fields) else SlotOf(b, other)
  {
    LogNext(b.log, id, event, fields, other);
  }
}
