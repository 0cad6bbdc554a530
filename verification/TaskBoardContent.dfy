/** What the cards and the ledger of the task board say, word by word. */
module TaskBoardContent {
  import opened Basics
  import opened Json
  import opened Ledger
  import opened TaskBoard
  import opened TaskBoardInv
  import opened TaskBoardSafety

  // ---------- labels ----------

  const LABELS: map<string, string> :=
    map["running" := "진행중", "awaiting" := "승인대기", "applied" := "수락", "denied" := "거절", "failed" := "실패",
        "cancelled" := "취소", "interrupted" := "중단됨"]

  /** The label of a card is that of its status; an unknown status is its own label. */
  predicate Labelled(c: Card) {
    "status" in c && "status_label" in c &&
    c["status_label"] == if c["status"].Str? && c["status"].s in LABELS then Str(LABELS[c["status"].s]) else c["status"]
  }

  lemma LabelIs(v: Json)
    ensures Label(v) == if v.Str? && v.s in LABELS then Str(LABELS[v.s]) else v
  {
  }

  lemma UpdatedLabelled(c: Card, fields: Entry)
    requires "status" in fields
    ensures Labelled(Updated(c, fields))
  {
    LabelIs(fields["status"]);
  }

  lemma SkeletonLabelled(id: string, prompt: string, workerType: Json, now: string)
    ensures Labelled(Skeleton(id, prompt, workerType, now))
  {
  }

  lemma RestoredLabelled(id: string, folded: Card)
    ensures Labelled(Restored(id, folded))
  {
    var merged := Skeleton(id, "", Str("ollama"), "") + folded;
    LabelIs(Status(merged));
  }

  /** The card of `id` after a step is a new one, or one just written, or the one before. */
  ghost predicate CardFrom(b: Board, a: Action, id: string, c: Card) {
    || (id in b.cards && c == b.cards[id])
    || (a.Create? && a.id == id && id !in b.threads && c == Skeleton(id, First200(a.text), a.workerType, a.now))
    || (id in b.cards && !a.Create? && exists fields: Entry :: "status" in fields && "prompt" !in fields && c == Updated(b.cards[id], fields))
  }

  lemma WrittenFrom(b: Board, a: Action, x: string, event: string, fields: Entry, id: string)
    requires "status" in fields && "prompt" !in fields && !a.Create?
    ensures id in Write(b, x, event, fields).cards ==> CardFrom(b, a, id, Write(b, x, event, fields).cards[id])
  {
  }

  lemma FinalFrom(b: Board, a: Action, x: string, fields: Entry, id: string)
    requires "status" in fields && "prompt" !in fields && !a.Create? && x in b.threads
    ensures id in Final(b, x, fields).cards ==> CardFrom(b, a, id, Final(b, x, fields).cards[id])
  {
    WrittenFrom(b, a, x, "resolved", fields, id);
  }

  lemma WritingStep(cfg: Config, b: Board, a: Action, id: string)
    requires (a.Await? || a.Finish? || a.FinishCrash?) && id in Step(cfg, b, a).cards
    ensures CardFrom(b, a, id, Step(cfg, b, a).cards[id])
  {
    if a.Await? {
      WrittenFrom(b, a, a.id, "awaiting", AwaitFields(a.report), id);
    } else if a.Finish? {
      if Ended(b, a.id) && b.threads[a.id].Returned? {
        FinalFrom(b, a, a.id, FinalFields(b.threads[a.id].outcome, a.report), id);
      }
    } else if At(b, a.id, Crashed) {
      FinalFrom(b, a, a.id, CrashFields(a.error), id);
    }
  }

  lemma ProceedFrom(b: Board, a: Action, client: nat, id: string)
    requires client in b.calls && !a.Create? && id in ProceedStep(b, client).cards
    ensures CardFrom(b, a, id, ProceedStep(b, client).cards[id])
  {
    WrittenFrom(b, a, b.calls[client].id, "cancelled", CancelFields(), id);
  }

  lemma StepFrom(cfg: Config, b: Board, a: Action, id: string)
    requires id in Step(cfg, b, a).cards
    ensures CardFrom(b, a, id, Step(cfg, b, a).cards[id])
  {
    if a.Await? || a.Finish? || a.FinishCrash? {
      WritingStep(cfg, b, a, id);
    } else if a.Proceed? {
      if a.client in b.calls { ProceedFrom(b, a, a.client, id); }
    } else if id in b.cards {
      OtherStatusAfter(cfg, b, a, id);
    }
  }

  /** Every card on the board carries the label of its status, in every state of every run. */
  lemma {:induction false} LabelsFollow(cfg: Config, log: seq<Event>, actions: seq<Action>, id: string)
    requires id in Run(cfg, Boot(log), actions).cards
    ensures Labelled(Run(cfg, Boot(log), actions).cards[id])
    decreases |actions|
  {
    if actions == [] {
      RestoredLabelled(id, Fold(log)[id]);
    } else {
      var b, a := Run(cfg, Boot(log), actions[..|actions| - 1]), actions[|actions| - 1];
      var c := Run(cfg, Boot(log), actions).cards[id];
      StepFrom(cfg, b, a, id);
      if id in b.cards { LabelsFollow(cfg, log, actions[..|actions| - 1], id); }
      if a.Create? {
        SkeletonLabelled(id, First200(a.text), a.workerType, a.now);
      } else if fields: Entry :| id in b.cards && "status" in fields && c == Updated(b.cards[id], fields) {
        UpdatedLabelled(b.cards[id], fields);
      }
    }
  }

  // ---------- prompts ----------

  function Front200(text: string): string {
    if |text| > 200 then text[..200] else text
  }

  ghost predicate CreatedWith(actions: seq<Action>, i: nat, id: string, text: string) {
    i < |actions| && actions[i].Create? && actions[i].id == id && actions[i].text == text
  }

  /** The card of a task of this process shows the first 200 characters of its prompt, always. */
  lemma {:induction false} PromptShown(cfg: Config, log: seq<Event>, actions: seq<Action>, id: string) returns (i: nat, text: string)
    requires var b := Run(cfg, Boot(log), actions); id in b.threads && id in b.cards
    ensures CreatedWith(actions, i, id, text)
    ensures var c := Run(cfg, Boot(log), actions).cards[id]; "prompt" in c && c["prompt"] == Str(Front200(text))
    decreases |actions|
  {
    var n := |actions| - 1;
    var b, a := Run(cfg, Boot(log), actions[..n]), actions[n];
    StepFrom(cfg, b, a, id);
    if id in b.threads {
      if id !in b.cards { CardAppears(cfg, b, a, id); }
      i, text := PromptShown(cfg, log, actions[..n], id);
    } else {
      NewThread(cfg, b, a, id);
      i, text := n, a.text;
    }
  }

  lemma NewThread(cfg: Config, b: Board, a: Action, id: string)
    requires id !in b.threads && id in Step(cfg, b, a).threads
    ensures a.Create? && a.id == id && id !in b.cards
  {
  }

  // ---------- what is recorded ----------

  function CreatedRecord(cfg: Config, id: string, text: string, workerType: Json, now: string): Event {
    map["task_id" := Str(id), "event" := Str("created"), "prompt" := Str(cfg.scrub(Front200(text))),
        "worker_type" := workerType, "status" := Str("running"), "created_at" := Str(now)]
  }

  function AwaitingRecord(id: string, r: Report): Event {
    map["task_id" := Str(id), "event" := Str("awaiting"), "status" := Str("awaiting"),
        "flags" := r.flags, "advice" := r.advice, "redacted_output_preview" := r.preview]
  }

  function ResolvedRecord(id: string, status: string, decision: bool, r: Report): Event {
    map["task_id" := Str(id), "event" := Str("resolved"), "status" := Str(status), "decision" := Bool(decision),
        "flags" := r.flags, "advice" := r.advice, "redacted_output_preview" := r.preview]
  }

  function CrashedRecord(id: string, error: string): Event {
    map["task_id" := Str(id), "event" := Str("resolved"), "status" := Str("failed"), "error" := Str(error)]
  }

  function CancelledRecord(id: string): Event {
    map["task_id" := Str(id), "event" := Str("cancelled"), "status" := Str("cancelled"), "decision" := Bool(false)]
  }

  function DismissedRecord(id: string): Event {
    map["task_id" := Str(id), "event" := Str("dismissed")]
  }

  /** What the step records, if it records something. */
  predicate Records(cfg: Config, b: Board, a: Action, e: Event) {
    match a
    case Create(id, text, workerType, now) => e == CreatedRecord(cfg, id, text, workerType, now)
    case Await(id, r) => e == AwaitingRecord(id, r)
    case Finish(id, r) =>
      || (At(b, id, Returned(Applied)) && e == ResolvedRecord(id, "applied", true, r))
      || (At(b, id, Returned(Denied)) && e == ResolvedRecord(id, "denied", false, r))
      || (At(b, id, Returned(Failed)) && e == ResolvedRecord(id, "failed", false, r))
    case FinishCrash(id, error) => e == CrashedRecord(id, error)
    case Proceed(client) => client in b.calls && b.calls[client].Mark? && e == CancelledRecord(b.calls[client].id)
    case Dismiss(id) => e == DismissedRecord(id)
    case _ => false
  }

  lemma CreatedIs(cfg: Config, id: string, text: string, workerType: Json, now: string)
    ensures Record(id, "created", CreatedFields(cfg, text, workerType, now)) == CreatedRecord(cfg, id, text, workerType, now)
  {
  }

  lemma AwaitingIs(id: string, r: Report)
    ensures Record(id, "awaiting", AwaitFields(r)) == AwaitingRecord(id, r)
  {
  }

  lemma ResolvedIs(id: string, o: Outcome, status: string, decision: bool, r: Report)
    requires StatusOf(o) == status && o.Applied? == decision
    ensures Record(id, "resolved", FinalFields(o, r)) == ResolvedRecord(id, status, decision, r)
  {
  }

  lemma CrashedIs(id: string, error: string)
    ensures Record(id, "resolved", CrashFields(error)) == CrashedRecord(id, error)
  {
  }

  lemma CancelledIs(id: string)
    ensures Record(id, "cancelled", CancelFields()) == CancelledRecord(id)
    ensures Record(id, "dismissed", map[]) == DismissedRecord(id)
  {
  }

  lemma FinishLogs(cfg: Config, b: Board, a: Action)
    requires a.Finish?
    ensures var log := Step(cfg, b, a).log;
            log == b.log || (exists e {:trigger Records(cfg, b, a, e)} :: Records(cfg, b, a, e) && log == b.log + [e])
  {
    ResolvedIs(a.id, Applied, "applied", true, a.report);
    ResolvedIs(a.id, Denied, "denied", false, a.report);
    ResolvedIs(a.id, Failed, "failed", false, a.report);
    if Ended(b, a.id) && b.threads[a.id].Returned? && !IsCancelled(b, a.id) {
      var o := b.threads[a.id].outcome;
      var e := Record(a.id, "resolved", FinalFields(o, a.report));
      assert Step(cfg, b, a).log == b.log + [e];
      assert Records(cfg, b, a, e);
    }
  }

  /** A step appends nothing to the ledger, or exactly its own record; whatever changes a card
      is recorded. */
  lemma StepRecords(cfg: Config, b: Board, a: Action)
    ensures var log := Step(cfg, b, a).log;
            log == b.log || (exists e {:trigger Records(cfg, b, a, e)} :: Records(cfg, b, a, e) && log == b.log + [e])
    ensures Step(cfg, b, a).cards != b.cards ==> |Step(cfg, b, a).log| == |b.log| + 1
  {
    CardsLogged(cfg, b, a);
    if a.Create? {
      CreatedIs(cfg, a.id, a.text, a.workerType, a.now);
      assert Records(cfg, b, a, CreatedRecord(cfg, a.id, a.text, a.workerType, a.now));
    } else if a.Await? {
      AwaitingIs(a.id, a.report);
      assert Records(cfg, b, a, AwaitingRecord(a.id, a.report));
    } else if a.Finish? {
      FinishLogs(cfg, b, a);
    } else if a.FinishCrash? {
      CrashedIs(a.id, a.error);
      assert Records(cfg, b, a, CrashedRecord(a.id, a.error));
    } else if a.Proceed? {
      if a.client in b.calls {
        CancelledIs(b.calls[a.client].id);
        assert b.calls[a.client].Mark? ==> Records(cfg, b, a, CancelledRecord(b.calls[a.client].id));
      }
    } else if a.Dismiss? {
      CancelledIs(a.id);
      assert Records(cfg, b, a, DismissedRecord(a.id));
    }
  }

  lemma CardsLogged(cfg: Config, b: Board, a: Action)
    ensures Step(cfg, b, a).cards != b.cards ==> |Step(cfg, b, a).log| == |b.log| + 1
  {
  }

  lemma PromptRecorded(cfg: Config, b: Board, a: Action, e: Event)
    requires Records(cfg, b, a, e) && "prompt" in e
    ensures a.Create? && e["prompt"] == Str(cfg.scrub(Front200(a.text)))
  {
  }

  /** Every prompt that a run writes to the ledger is the scrubbed front of a task's prompt. */
  lemma {:induction false} PromptsScrubbed(cfg: Config, log: seq<Event>, actions: seq<Action>, j: nat) returns (i: nat)
    requires var after := Run(cfg, Boot(log), actions).log; |log| <= j < |after| && "prompt" in after[j]
    ensures i < |actions| && actions[i].Create?
    ensures Run(cfg, Boot(log), actions).log[j]["prompt"] == Str(cfg.scrub(Front200(actions[i].text)))
    decreases |actions|
  {
    var n := |actions| - 1;
    var b, a := Run(cfg, Boot(log), actions[..n]), actions[n];
    StepRecords(cfg, b, a);
    if j < |b.log| {
      i := PromptsScrubbed(cfg, log, actions[..n], j);
    } else {
      PromptRecorded(cfg, b, a, Step(cfg, b, a).log[j]);
      i := n;
    }
  }
}
