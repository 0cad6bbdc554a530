/** When a cancelled task stays cancelled, and when the cap on running tasks holds. */
module TaskBoardCancel {
  import opened Json
  import opened Ledger
  import opened Basics
  import opened TaskBoard
  import opened TaskBoardInv
  import opened TaskBoardSafety

  // ---------- is a cancel final? ----------

  /** The task's thread is still before its approval request. */
  predicate BeforeApproval(b: Board, id: string) {
    At(b, id, Created) || At(b, id, Working)
  }

  predicate CancelledIfShown(b: Board, id: string) {
    id in b.cards ==> Has(b.cards[id], "cancelled")
  }

  ghost predicate StaysCancelled(cfg: Config, b: Board, after: seq<Action>, id: string) {
    CancelledIfShown(Run(cfg, b, after), id)
  }

  predicate CancelIsSafe(b: Board, id: string) {
    CancelledIfShown(b, id) && !BeforeApproval(b, id) && id in Seen(b.log)
  }

  /** A thread never goes back before its approval request. */
  lemma PastApproval(cfg: Config, b: Board, a: Action, id: string)
    requires !BeforeApproval(b, id) && id in Seen(b.log)
    ensures !BeforeApproval(Step(cfg, b, a), id)
  {
  }

  lemma CancelledWaitsForSignal(b: Board, id: string)
    requires Inv(b) && id in b.cards && Has(b.cards[id], "cancelled") && id in b.threads
    ensures IsCancelled(b, id)
  {
    assert TaskSound(b, id);
  }

  lemma CancelSafeStep(cfg: Config, b: Board, a: Action, id: string)
    requires Inv(b) && CancelIsSafe(b, id)
    ensures CancelIsSafe(Step(cfg, b, a), id)
  {
    SeenAndDismissedGrow(cfg, b, a);
    PastApproval(cfg, b, a, id);
    if id in Step(cfg, b, a).cards {
      if id !in b.cards {
        CardAppears(cfg, b, a, id);
      } else {
        StatusAfter(cfg, b, a, id);
        if id in b.threads { CancelledWaitsForSignal(b, id); }
      }
    }
  }

  lemma {:induction false} CancelSafeRun(cfg: Config, b: Board, after: seq<Action>, id: string)
    requires Inv(b) && CancelIsSafe(b, id)
    ensures CancelIsSafe(Run(cfg, b, after), id)
    decreases |after|
  {
    if after != [] {
      var front := after[..|after| - 1];
      CancelSafeRun(cfg, b, front, id);
      RunSoundFrom(cfg, b, front);
      CancelSafeStep(cfg, Run(cfg, b, front), after[|after| - 1], id);
    }
  }

  /** The approver of a task that was cancelled while its worker ran puts the card back. */
  lemma CancelUndone(cfg: Config, b: Board, id: string, report: Report) returns (after: seq<Action>)
    requires id in b.cards && BeforeApproval(b, id)
    ensures id in Run(cfg, b, after).cards && Has(Run(cfg, b, after).cards[id], "awaiting")
  {
    var start := if At(b, id, Created) then [Start(id)] else [];
    after := start + [Await(id, report)];
    var mid := Run(cfg, b, start);
    RunStep(cfg, b, [], Start(id));
    assert [] + [Start(id)] == [Start(id)];
    assert At(mid, id, Working) && mid.cards == b.cards;
    RunStep(cfg, b, start, Await(id, report));
    StatusWritten(b.cards[id], AwaitFields(report));
  }

  /** A cancelled card stays cancelled in every continuation exactly when its thread is past
      its approval request (or there is none): a cancel that comes while the worker or the
      boss call is in progress can be undone by the approver. */
  lemma CancelFinalIff(cfg: Config, b: Board, id: string)
    requires Inv(b) && id in b.cards && Has(b.cards[id], "cancelled")
    ensures (forall after :: StaysCancelled(cfg, b, after, id)) <==> !BeforeApproval(b, id)
  {
    if BeforeApproval(b, id) {
      var after := CancelUndone(cfg, b, id, Report(Null, Null, Null));
      assert !StaysCancelled(cfg, b, after, id);
    } else {
      CardIsSeen(b, id);
      forall after ensures StaysCancelled(cfg, b, after, id) {
        CancelSafeRun(cfg, b, after, id);
      }
    }
  }

  lemma CardIsSeen(b: Board, id: string)
    requires Inv(b) && id in b.cards
    ensures id in Seen(b.log)
  {
    assert TaskSound(b, id);
  }

  // ---------- a cancelled task put back and left behind ----------

  /** Shown as awaiting, but its thread has ended and no cancel is under way. */
  predicate Stranded(b: Board, id: string) {
    && id in b.cards && Has(b.cards[id], "awaiting") && At(b, id, Done)
    && forall c {:trigger b.calls[c]} :: c in b.calls && b.calls[c].id == id ==> b.calls[c].Wake?
  }

  predicate NoCancelOf(after: seq<Action>, id: string) {
    forall i :: 0 <= i < |after| && after[i].Cancel? ==> after[i].id != id
  }

  lemma StrandedProceeds(b: Board, client: nat, id: string)
    requires Stranded(b, id) && client in b.calls
    ensures Stranded(ProceedStep(b, client), id)
  {
  }

  lemma StrandedStep(cfg: Config, b: Board, a: Action, id: string)
    requires Stranded(b, id) && (a.Cancel? ==> a.id != id)
    ensures Stranded(Step(cfg, b, a), id)
  {
    if a.Proceed? {
      if a.client in b.calls { StrandedProceeds(b, a.client, id); }
    } else {
      StrandedCard(cfg, b, a, id);
      StrandedCalls(cfg, b, a, id);
    }
  }

  lemma StrandedCard(cfg: Config, b: Board, a: Action, id: string)
    requires Stranded(b, id) && !a.Proceed?
    ensures var next := Step(cfg, b, a);
            id in next.cards && Has(next.cards[id], "awaiting") && At(next, id, Done)
  {
    DoneStays(cfg, b, a, id);
    if id !in Step(cfg, b, a).cards { LiveIsNeverRemoved(cfg, b, a, id); }
    StatusAfter(cfg, b, a, id);
  }

  lemma DoneStays(cfg: Config, b: Board, a: Action, id: string)
    requires At(b, id, Done)
    ensures At(Step(cfg, b, a), id, Done)
  {
  }

  lemma StrandedCalls(cfg: Config, b: Board, a: Action, id: string)
    requires Stranded(b, id) && !a.Proceed? && (a.Cancel? ==> a.id != id)
    ensures var next := Step(cfg, b, a);
            forall c {:trigger next.calls[c]} :: c in next.calls && next.calls[c].id == id ==> next.calls[c].Wake?
  {
  }

  lemma {:induction false} StrandedStays(cfg: Config, b: Board, after: seq<Action>, id: string)
    requires Stranded(b, id) && NoCancelOf(after, id)
    ensures Stranded(Run(cfg, b, after), id)
    decreases |after|
  {
    if after != [] {
      var front := after[..|after| - 1];
      StrandedStays(cfg, b, front, id);
      StrandedStep(cfg, Run(cfg, b, front), after[|after| - 1], id);
    }
  }

  /** Shown as awaiting although cancelled, its thread at `phase`, no request under way. */
  predicate PutBack(b: Board, id: string, phase: Phase) {
    id in b.cards && Has(b.cards[id], "awaiting") && IsCancelled(b, id) && At(b, id, phase) && b.calls == map[]
  }

  lemma ShownAgain(cfg: Config, b: Board, id: string, report: Report)
    requires Inv(b) && id in b.cards && Has(b.cards[id], "cancelled") && At(b, id, Working) && b.calls == map[]
    ensures PutBack(Step(cfg, b, Await(id, report)), id, Asking)
  {
    CancelledWaitsForSignal(b, id);
    StatusWritten(b.cards[id], AwaitFields(report));
  }

  lemma GivenUp(cfg: Config, b: Board, id: string)
    requires PutBack(b, id, Asking)
    ensures PutBack(Step(cfg, b, Refuse(id)), id, Returned(Denied))
  {
  }

  lemma LeftBehind(cfg: Config, b: Board, id: string, report: Report)
    requires PutBack(b, id, Returned(Denied))
    ensures Stranded(Step(cfg, b, Finish(id, report)), id)
  {
  }

  /** The worker of a cancelled task returns, its approver shows the card again and gives up,
      and the thread ends without a trace. */
  lemma PutBackStrands(cfg: Config, b: Board, id: string, report: Report)
    requires Inv(b) && id in b.cards && Has(b.cards[id], "cancelled") && At(b, id, Working) && b.calls == map[]
    ensures Stranded(Step(cfg, Step(cfg, Step(cfg, b, Await(id, report)), Refuse(id)), Finish(id, report)), id)
  {
    var b1 := Step(cfg, b, Await(id, report));
    ShownAgain(cfg, b, id, report);
    GivenUp(cfg, b1, id);
    LeftBehind(cfg, Step(cfg, b1, Refuse(id)), id, report);
  }

  /** Such a task stays on the board as awaiting for good: no decision ends it and it cannot be
      dismissed, until somebody cancels it again. */
  lemma PutBackIsStuck(cfg: Config, b: Board, id: string, report: Report, after: seq<Action>)
    requires Inv(b) && id in b.cards && Has(b.cards[id], "cancelled") && At(b, id, Working) && b.calls == map[]
    requires NoCancelOf(after, id)
    ensures var e := Run(cfg, Step(cfg, Step(cfg, Step(cfg, b, Await(id, report)), Refuse(id)), Finish(id, report)), after);
            id in e.cards && Has(e.cards[id], "awaiting") && !MayDismiss(e, id)
  {
    PutBackStrands(cfg, b, id, report);
    StrandedStays(cfg, Step(cfg, Step(cfg, Step(cfg, b, Await(id, report)), Refuse(id)), Finish(id, report)), after, id);
  }

  // ---------- the cap on running tasks ----------

  lemma LiveNow(b: Board, id: string)
    requires Inv(b) && id in b.cards && At(b, id, Working)
    ensures id in Live(b) <==> !Has(b.cards[id], "cancelled")
    ensures Has(b.cards[id], "cancelled") ==> IsCancelled(b, id)
  {
    assert TaskSound(b, id);
  }

  predicate ShownLive(b: Board, id: string) {
    id in b.cards && (Has(b.cards[id], "running") || Has(b.cards[id], "awaiting"))
  }

  /** Who joins the running tasks: a new task below the cap, or a cancelled task whose approver
      shows it again. */
  lemma LiveGrowth(cfg: Config, b: Board, a: Action, id: string)
    requires Inv(b) && ShownLive(Step(cfg, b, a), id) && !ShownLive(b, id)
    ensures (a.Create? && a.id == id && MayCreate(cfg, b, id, a.text))
            || (a.Await? && a.id == id && At(b, id, Working) && IsCancelled(b, id))
  {
    if id in b.cards {
      StatusAfter(cfg, b, a, id);
      if a.Await? && At(b, id, Working) { LiveNow(b, id); }
    } else {
      CardAppears(cfg, b, a, id);
    }
  }

  function Max0(n: int): nat {
    if n < 0 then 0 else n
  }

  /** The tasks shown as running that nobody has cancelled. */
  function Uncancelled(b: Board): set<string> {
    Live(b) - b.signalled
  }

  lemma UncancelledStep(cfg: Config, b: Board, a: Action)
    requires Inv(b)
    ensures var next := Uncancelled(Step(cfg, b, a));
            next <= Uncancelled(b) || (a.Create? && next <= Uncancelled(b) + {a.id} && |Live(b)| < cfg.maxConcurrent)
  {
    SignalsStay(cfg, b, a);
    forall id | id in Uncancelled(Step(cfg, b, a)) && id !in Uncancelled(b)
      ensures a.Create? && a.id == id && |Live(b)| < cfg.maxConcurrent
    {
      assert ShownLive(Step(cfg, b, a), id) && !ShownLive(b, id);
      LiveGrowth(cfg, b, a, id);
    }
  }

  /** At every moment the running tasks that nobody has cancelled fit under the cap. */
  lemma {:induction false} CapHoldsForUncancelled(cfg: Config, log: seq<Event>, actions: seq<Action>)
    ensures |Uncancelled(Run(cfg, Boot(log), actions))| <= Max0(cfg.maxConcurrent)
    decreases |actions|
  {
    if actions == [] {
      BootIdle(log);
    } else {
      var front, a := actions[..|actions| - 1], actions[|actions| - 1];
      var b := Run(cfg, Boot(log), front);
      CapHoldsForUncancelled(cfg, log, front);
      RunSound(cfg, log, front);
      UncancelledStep(cfg, b, a);
      if Uncancelled(Step(cfg, b, a)) <= Uncancelled(b) {
        SubsetSize(Uncancelled(Step(cfg, b, a)), Uncancelled(b));
      } else {
        SubsetSize(Uncancelled(Step(cfg, b, a)), Uncancelled(b) + {a.id});
        SubsetSize(Uncancelled(b), Live(b));
      }
    }
  }

  lemma BootTerminal(log: seq<Event>, id: string)
    requires id in Boot(log).cards
    ensures Terminal(Boot(log).cards[id])
  {
    AgreesAtBoot(id, Merged(log, id));
  }

  lemma TerminalIsNotLive(b: Board, id: string)
    requires id in b.cards && Terminal(b.cards[id])
    ensures id !in Live(b)
  {
  }

  lemma BootIdle(log: seq<Event>)
    ensures Live(Boot(log)) == {}
  {
    forall id ensures id !in Live(Boot(log)) {
      if id in Boot(log).cards {
        BootTerminal(log, id);
        TerminalIsNotLive(Boot(log), id);
      }
    }
  }

  /** The approver of a cancelled task adds it to the running tasks, whatever their number. */
  lemma CapExceeded(cfg: Config, b: Board, id: string, report: Report)
    requires Inv(b) && id in b.cards && Has(b.cards[id], "cancelled") && At(b, id, Working)
    ensures |Live(Step(cfg, b, Await(id, report)))| == |Live(b)| + 1
  {
    AwaitedIsLive(cfg, b, id, report);
    LiveNow(b, id);
    assert id !in Live(b);
  }

  lemma AwaitedIsLive(cfg: Config, b: Board, id: string, report: Report)
    requires id in b.cards && At(b, id, Working)
    ensures Live(Step(cfg, b, Await(id, report))) == Live(b) + {id}
  {
    StatusWritten(b.cards[id], AwaitFields(report));
  }

  predicate WithinCap(cfg: Config, b: Board) {
    |Live(b)| <= Max0(cfg.maxConcurrent)
  }

  /** The approver shows a cancelled task while the board is at its cap. */
  predicate Overruns(cfg: Config, b: Board, a: Action) {
    a.Await? && At(b, a.id, Working) && a.id in b.cards && Has(b.cards[a.id], "cancelled")
    && |Live(b)| == Max0(cfg.maxConcurrent)
  }

  lemma GrowthStaysWithin(cfg: Config, b: Board, a: Action)
    requires Inv(b) && WithinCap(cfg, b) && !Overruns(cfg, b, a)
    ensures WithinCap(cfg, Step(cfg, b, a))
  {
    var next := Live(Step(cfg, b, a));
    if next <= Live(b) {
      SubsetSize(next, Live(b));
    } else {
      forall id | id in next && id !in Live(b)
        ensures (a.Create? || a.Await?) && a.id == id && |Live(b)| < Max0(cfg.maxConcurrent)
      {
        assert ShownLive(Step(cfg, b, a), id) && !ShownLive(b, id);
        LiveGrowth(cfg, b, a, id);
        if a.Await? {
          if id !in b.cards { CardAppears(cfg, b, a, id); }
          LiveNow(b, id);
        }
      }
      SubsetSize(next, Live(b) + {a.id});
    }
  }

  /** From within the cap exactly one kind of step leads over it: the approver of a cancelled
      task, on a board that is at its cap. */
  lemma CapStepIff(cfg: Config, b: Board, a: Action)
    requires Inv(b) && WithinCap(cfg, b)
    ensures WithinCap(cfg, Step(cfg, b, a)) <==> !Overruns(cfg, b, a)
  {
    if Overruns(cfg, b, a) { CapExceeded(cfg, b, a.id, a.report); } else { GrowthStaysWithin(cfg, b, a); }
  }

  function StateAt(cfg: Config, log: seq<Event>, actions: seq<Action>, k: nat): Board
    requires k <= |actions|
  {
    Run(cfg, Boot(log), actions[..k])
  }

  predicate WithinAt(cfg: Config, log: seq<Event>, actions: seq<Action>, k: nat)
    requires k <= |actions|
  {
    WithinCap(cfg, StateAt(cfg, log, actions, k))
  }

  predicate OverrunsAt(cfg: Config, log: seq<Event>, actions: seq<Action>, k: nat)
    requires k < |actions|
  {
    Overruns(cfg, StateAt(cfg, log, actions, k), actions[k])
  }

  lemma StateNext(cfg: Config, log: seq<Event>, actions: seq<Action>, k: nat)
    requires k < |actions|
    ensures StateAt(cfg, log, actions, k + 1) == Step(cfg, StateAt(cfg, log, actions, k), actions[k])
  {
    RunStep(cfg, Boot(log), actions[..k], actions[k]);
    PrefixGrows(actions, k);
  }

  lemma PrefixGrows<T>(s: seq<T>, k: nat)
    requires k < |s|
    ensures s[..k] + [s[k]] == s[..k + 1]
  {
  }

  lemma CapTurnOf(cfg: Config, b: Board, a: Action, next: Board)
    requires Inv(b) && WithinCap(cfg, b) && next == Step(cfg, b, a)
    ensures WithinCap(cfg, next) <==> !Overruns(cfg, b, a)
  {
    CapStepIff(cfg, b, a);
  }

  lemma CapTurn(cfg: Config, log: seq<Event>, actions: seq<Action>, k: nat)
    requires k < |actions| && WithinAt(cfg, log, actions, k)
    ensures WithinAt(cfg, log, actions, k + 1) <==> !OverrunsAt(cfg, log, actions, k)
  {
    RunSound(cfg, log, actions[..k]);
    StateNext(cfg, log, actions, k);
    CapTurnOf(cfg, StateAt(cfg, log, actions, k), actions[k], StateAt(cfg, log, actions, k + 1));
  }

  lemma {:induction false} CapUpTo(cfg: Config, log: seq<Event>, actions: seq<Action>, k: nat)
    requires k <= |actions|
    requires forall j: nat {:trigger OverrunsAt(cfg, log, actions, j)} :: j < k ==> !OverrunsAt(cfg, log, actions, j)
    ensures WithinAt(cfg, log, actions, k)
  {
    if k == 0 {
      BootIdle(log);
      assert actions[..0] == [];
    } else {
      CapUpTo(cfg, log, actions, k - 1);
      CapTurn(cfg, log, actions, k - 1);
    }
  }

  /** A run keeps to the cap throughout exactly when no approver ever shows a cancelled task on
      a board at its cap. */
  lemma CapHoldsIff(cfg: Config, log: seq<Event>, actions: seq<Action>)
    ensures (forall k: nat {:trigger WithinAt(cfg, log, actions, k)} :: k <= |actions| ==> WithinAt(cfg, log, actions, k))
            <==> (forall k: nat {:trigger OverrunsAt(cfg, log, actions, k)} :: k < |actions| ==> !OverrunsAt(cfg, log, actions, k))
  {
    if forall k: nat {:trigger WithinAt(cfg, log, actions, k)} :: k <= |actions| ==> WithinAt(cfg, log, actions, k) {
      forall k: nat | k < |actions| ensures !OverrunsAt(cfg, log, actions, k) {
        assert WithinAt(cfg, log, actions, k) && WithinAt(cfg, log, actions, k + 1);
        CapTurn(cfg, log, actions, k);
      }
    }
    if forall k: nat {:trigger OverrunsAt(cfg, log, actions, k)} :: k < |actions| ==> !OverrunsAt(cfg, log, actions, k) {
      forall k: nat | k <= |actions| ensures WithinAt(cfg, log, actions, k) {
        CapUpTo(cfg, log, actions, k);
      }
    }
  }

  // ---------- a run over every cap ----------

  /** Task `id` is cancelled while its worker runs, nothing runs, and no request is under way. */
  ghost predicate Parked(b: Board, id: string) {
    && id in b.cards && Has(b.cards[id], "cancelled") && At(b, id, Working)
    && Live(b) == {} && b.calls == map[] && b.cards.Keys == b.threads.Keys == {id}
    && Seen(b.log) == {id} && Dismissed(b.log) == {}
  }

  /** Two boards with the same ids in use. */
  ghost predicate OnlyTask(b: Board, id: string, status: string, phase: Phase) {
    && b.cards.Keys == b.wired == b.threads.Keys == {id} && Has(b.cards[id], status) && b.threads[id] == phase
    && Seen(b.log) == {id} && Dismissed(b.log) == {}
  }

  function Empty(): Board {
    Board(map[], {}, {}, {}, map[], [], map[], map[], {})
  }

  lemma RecordedSeen(log: seq<Event>, id: string, event: string, fields: Entry)
    requires fields.Keys !! RESERVED && event != "dismissed"
    ensures var next := log + [Record(id, event, fields)];
            Seen(next) == Seen(log) + {id} && Dismissed(next) == Dismissed(log)
  {
    SeenNext(log, Record(id, event, fields));
  }

  lemma FirstTask(cfg: Config, id: string, text: string)
    requires cfg.maxConcurrent > 0 && text != ""
    ensures var b := Step(cfg, Boot([]), Create(id, text, Null, "t"));
            OnlyTask(b, id, "running", Created) && b.calls == map[]
  {
    assert Boot([]) == Empty();
    assert Live(Empty()) == {};
    CreatedIsRunning(cfg, id, text, Null, "t");
    RecordedSeen([], id, "created", CreatedFields(cfg, text, Null, "t"));
  }

  function Cancelled(b: Board, id: string): Board {
    Write(b.(signalled := b.signalled + {id}, woken := b.woken + {id}), id, "cancelled", CancelFields())
  }

  /** The three steps that a cancel request takes after its check. */
  lemma CancelSteps(cfg: Config, b: Board, client: nat, id: string)
    requires client in b.calls && b.calls[client] == Signal(id)
    ensures var p := Proceed(client);
            Step(cfg, Step(cfg, Step(cfg, b, p), p), p) == Cancelled(b, id).(calls := b.calls - {client})
  {
    var p := Proceed(client);
    var b1 := b.(signalled := b.signalled + {id}, calls := b.calls[client := Release(id)]);
    var b2 := b1.(woken := b.woken + {id}, calls := b1.calls[client := Mark(id)]);
    assert Step(cfg, b, p) == b1;
    assert Step(cfg, b1, p) == b2;
    assert b2.calls - {client} == b.calls - {client};
  }

  lemma NotLive(b: Board, id: string)
    requires b.cards.Keys == {id} && Has(b.cards[id], "cancelled")
    ensures Live(b) == {}
  {
  }

  lemma CancelledIsParked(b: Board, id: string)
    requires OnlyTask(b, id, "running", Working)
    ensures Parked(Cancelled(b, id).(calls := map[]), id)
  {
    var next := Cancelled(b, id).(calls := map[]);
    StatusWritten(b.cards[id], CancelFields());
    RecordedSeen(b.log, id, "cancelled", CancelFields());
    NotLive(next, id);
  }

  lemma CancelInFull(cfg: Config, b: Board, id: string)
    requires OnlyTask(b, id, "running", Working) && b.calls == map[]
    ensures Parked(Run(cfg, b, CancelRequest(0, id)), id)
  {
    var b1 := Step(cfg, b, Cancel(0, id));
    assert b1 == CancelStep(b, 0, id) && b1.calls == map[0 := Signal(id)];
    RunFour(cfg, b, Cancel(0, id), Proceed(0));
    CancelSteps(cfg, b1, 0, id);
    assert b1.calls - {0} == map[];
    CancelledIsParked(b1, id);
  }

  function Iterate<S, A>(step: (S, A) -> S, s: S, actions: seq<A>): S {
    if actions == [] then s else step(Iterate(step, s, actions[..|actions| - 1]), actions[|actions| - 1])
  }

  lemma {:induction false} IterateConcat<S, A>(step: (S, A) -> S, s: S, first: seq<A>, rest: seq<A>)
    ensures Iterate(step, s, first + rest) == Iterate(step, Iterate(step, s, first), rest)
  {
    if rest == [] {
      assert first + rest == first;
    } else {
      IterateConcat(step, s, first, rest[..|rest| - 1]);
      assert (first + rest)[..|first + rest| - 1] == first + rest[..|rest| - 1];
    }
  }

  function Stepper(cfg: Config): (Board, Action) -> Board {
    (b: Board, a: Action) => Step(cfg, b, a)
  }

  lemma {:induction false} RunIterates(cfg: Config, b: Board, actions: seq<Action>)
    ensures Run(cfg, b, actions) == Iterate(Stepper(cfg), b, actions)
  {
    if actions != [] { RunIterates(cfg, b, actions[..|actions| - 1]); }
  }

  lemma RunConcat(cfg: Config, b: Board, first: seq<Action>, rest: seq<Action>)
    ensures Run(cfg, b, first + rest) == Run(cfg, Run(cfg, b, first), rest)
  {
    RunIterates(cfg, b, first + rest);
    RunIterates(cfg, b, first);
    RunIterates(cfg, Run(cfg, b, first), rest);
    IterateConcat(Stepper(cfg), b, first, rest);
  }

  lemma Started(cfg: Config, b: Board, id: string)
    requires OnlyTask(b, id, "running", Created) && b.calls == map[]
    ensures var next := Step(cfg, b, Start(id)); OnlyTask(next, id, "running", Working) && next.calls == map[]
  {
  }

  ghost predicate AllDifferent(name: nat -> string) {
    forall i: nat, j: nat :: name(i) == name(j) ==> i == j
  }

  /** Task `name(0)` is cancelled while its worker runs, `n` others run, later names are free. */
  ghost predicate Filled(b: Board, name: nat -> string, n: nat) {
    && name(0) in b.cards && Has(b.cards[name(0)], "cancelled") && At(b, name(0), Working) && |Live(b)| == n
    && forall i: nat {:trigger name(i)} :: i > n ==> Fresh(b, name(i))
  }

  /** The requests that create tasks `name(1)` to `name(n)`. */
  function Creates(name: nat -> string, text: string, n: nat): seq<Action> {
    if n == 0 then [] else Creates(name, text, n - 1) + [Create(name(n), text, Null, "t")]
  }

  lemma NewIsLive(cfg: Config, b: Board, id: string, text: string)
    requires MayCreate(cfg, b, id, text)
    ensures Live(Step(cfg, b, Create(id, text, Null, "t"))) == Live(b) + {id}
  {
    CreatedIsRunning(cfg, id, text, Null, "t");
  }

  lemma OthersStayFresh(cfg: Config, b: Board, id: string, text: string, other: string)
    requires MayCreate(cfg, b, id, text) && Fresh(b, other) && other != id
    ensures Fresh(Step(cfg, b, Create(id, text, Null, "t")), other)
  {
    CreatedIsRunning(cfg, id, text, Null, "t");
    RecordedSeen(b.log, id, "created", CreatedFields(cfg, text, Null, "t"));
  }

  lemma FillOne(cfg: Config, b: Board, name: nat -> string, text: string, n: nat)
    requires AllDifferent(name) && Filled(b, name, n) && n < cfg.maxConcurrent && text != ""
    ensures Filled(Step(cfg, b, Create(name(n + 1), text, Null, "t")), name, n + 1)
  {
    var id := name(n + 1);
    NewIsLive(cfg, b, id, text);
    assert id !in Live(b);
    forall i: nat | i > n + 1 ensures Fresh(Step(cfg, b, Create(id, text, Null, "t")), name(i)) {
      OthersStayFresh(cfg, b, id, text, name(i));
    }
  }

  lemma {:induction false} FillUp(cfg: Config, b: Board, name: nat -> string, text: string, n: nat)
    requires AllDifferent(name) && Filled(b, name, 0) && n <= cfg.maxConcurrent && text != ""
    ensures Filled(Run(cfg, b, Creates(name, text, n)), name, n)
  {
    if n > 0 {
      FillUp(cfg, b, name, text, n - 1);
      FillOne(cfg, Run(cfg, b, Creates(name, text, n - 1)), name, text, n - 1);
      RunStep(cfg, b, Creates(name, text, n - 1), Create(name(n), text, Null, "t"));
    }
  }

  lemma ParkedIsFilled(b: Board, name: nat -> string)
    requires AllDifferent(name) && Parked(b, name(0))
    ensures Filled(b, name, 0)
  {
  }

  /** Task `name(0)` is created, started and cancelled. */
  lemma ParkedFirst(cfg: Config, id: string, text: string)
    requires cfg.maxConcurrent > 0 && text != ""
    ensures Parked(Run(cfg, Boot([]), [Create(id, text, Null, "t"), Start(id)] + CancelRequest(0, id)), id)
  {
    var first := [Create(id, text, Null, "t"), Start(id)];
    var b1 := Step(cfg, Boot([]), first[0]);
    FirstTask(cfg, id, text);
    Started(cfg, b1, id);
    RunTwo(cfg, Boot([]), first[0], first[1]);
    CancelInFull(cfg, Step(cfg, b1, first[1]), id);
    RunConcat(cfg, Boot([]), first, CancelRequest(0, id));
  }

  /** The cap is not a cap, however large: a task is started and cancelled, as many tasks are
      created as the cap allows, and then the first one's approver shows it again. */
  lemma CapIsExceeded(cfg: Config, name: nat -> string, text: string, report: Report)
    requires cfg.maxConcurrent > 0 && text != "" && AllDifferent(name)
    ensures var actions := [Create(name(0), text, Null, "t"), Start(name(0))] + CancelRequest(0, name(0))
                           + Creates(name, text, cfg.maxConcurrent) + [Await(name(0), report)];
            |Live(Run(cfg, Boot([]), actions))| == cfg.maxConcurrent + 1
  {
    var parked := [Create(name(0), text, Null, "t"), Start(name(0))] + CancelRequest(0, name(0));
    var creates := Creates(name, text, cfg.maxConcurrent);
    var b := Run(cfg, Boot([]), parked);
    ParkedFirst(cfg, name(0), text);
    ParkedIsFilled(b, name);
    FillUp(cfg, b, name, text, cfg.maxConcurrent);
    RunConcat(cfg, Boot([]), parked, creates);
    RunSound(cfg, [], parked + creates);
    CapExceeded(cfg, Run(cfg, Boot([]), parked + creates), name(0), report);
    RunStep(cfg, Boot([]), parked + creates, Await(name(0), report));
  }

  // ---------- a repaired approver ----------

  /** The approver checks the cancel signal before it shows the card. */
  predicate Guarded(b: Board, a: Action) {
    a.Await? ==> !IsCancelled(b, a.id)
  }

  predicate GuardedRun(cfg: Config, b: Board, actions: seq<Action>)
    decreases |actions|
  {
    actions == []
    || (GuardedRun(cfg, b, actions[..|actions| - 1])
        && Guarded(Run(cfg, b, actions[..|actions| - 1]), actions[|actions| - 1]))
  }

  lemma GuardedStep(cfg: Config, b: Board, a: Action)
    requires Inv(b) && Guarded(b, a)
    ensures var next := Live(Step(cfg, b, a));
            next <= Live(b) || (a.Create? && next <= Live(b) + {a.id} && |Live(b)| < cfg.maxConcurrent)
  {
    forall id | id in Live(Step(cfg, b, a)) && id !in Live(b)
      ensures a.Create? && a.id == id && |Live(b)| < cfg.maxConcurrent
    {
      assert ShownLive(Step(cfg, b, a), id) && !ShownLive(b, id);
      LiveGrowth(cfg, b, a, id);
    }
  }

  /** With that check the cap holds for all running tasks, always. */
  lemma {:induction false} GuardedCapHolds(cfg: Config, log: seq<Event>, actions: seq<Action>)
    requires GuardedRun(cfg, Boot(log), actions)
    ensures |Live(Run(cfg, Boot(log), actions))| <= Max0(cfg.maxConcurrent)
    decreases |actions|
  {
    if actions == [] {
      BootIdle(log);
    } else {
      var front, a := actions[..|actions| - 1], actions[|actions| - 1];
      var b := Run(cfg, Boot(log), front);
      GuardedCapHolds(cfg, log, front);
      RunSound(cfg, log, front);
      GuardedStep(cfg, b, a);
      SubsetSize(Live(Step(cfg, b, a)), if Live(Step(cfg, b, a)) <= Live(b) then Live(b) else Live(b) + {a.id});
    }
  }

  predicate CancelKept(b: Board, id: string) {
    CancelledIfShown(b, id) && id in Seen(b.log)
  }

  /** With that check a cancelled card stays cancelled until it is dismissed. */
  lemma {:induction false} GuardedCancelIsFinal(cfg: Config, b: Board, actions: seq<Action>, id: string)
    requires Inv(b) && CancelKept(b, id) && GuardedRun(cfg, b, actions)
    ensures CancelKept(Run(cfg, b, actions), id)
    decreases |actions|
  {
    if actions != [] {
      var front, a := actions[..|actions| - 1], actions[|actions| - 1];
      GuardedCancelIsFinal(cfg, b, front, id);
      RunSoundFrom(cfg, b, front);
      GuardedCancelStep(cfg, Run(cfg, b, front), a, id);
    }
  }

  lemma GuardedCancelStep(cfg: Config, b: Board, a: Action, id: string)
    requires Inv(b) && Guarded(b, a) && CancelKept(b, id)
    ensures CancelKept(Step(cfg, b, a), id)
  {
    SeenAndDismissedGrow(cfg, b, a);
    if id in Step(cfg, b, a).cards {
      if id !in b.cards {
        CardAppears(cfg, b, a, id);
      } else {
        StatusAfter(cfg, b, a, id);
        if id in b.threads { CancelledWaitsForSignal(b, id); }
      }
    }
  }
}
