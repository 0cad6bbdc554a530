/** What holds of every run of the task board, however its threads and requests interleave. */
module TaskBoardSafety {
  import opened Json
  import opened Ledger
  import opened TaskBoard
  import opened TaskBoardInv

  // ---------- runs ----------

  lemma {:induction false} RunSoundFrom(cfg: Config, b: Board, actions: seq<Action>)
    requires Inv(b)
    ensures Inv(Run(cfg, b, actions))
    decreases |actions|
  {
    if actions != [] {
      RunSoundFrom(cfg, b, actions[..|actions| - 1]);
      StepKeeps(cfg, Run(cfg, b, actions[..|actions| - 1]), actions[|actions| - 1]);
    }
  }

  // ---------- the restart ----------

  /** The two cards agree in every field but the prompt. */
  ghost predicate SameCard(c: Card, d: Card) {
    forall k :: k != "prompt" ==> Look(c, k) == Look(d, k)
  }

  /** Stop a process anywhere and start another one on its ledger: the same tasks are there,
      each with the same card, except that an unfinished one is now interrupted. */
  lemma RestartRefines(cfg: Config, log: seq<Event>, actions: seq<Action>)
    ensures var b := Run(cfg, Boot(log), actions);
            var again := Boot(b.log).cards;
            && again.Keys == b.cards.Keys
            && forall id :: id in b.cards ==> SameCard(Interrupted(b.cards[id]), again[id]) && Terminal(again[id])
  {
    RunSound(cfg, log, actions);
    var b := Run(cfg, Boot(log), actions);
    var again := Boot(b.log).cards;
    forall id ensures id in again <==> id in b.cards {
      assert TaskSound(b, id);
    }
    forall id | id in b.cards ensures SameCard(Interrupted(b.cards[id]), again[id]) && Terminal(again[id]) {
      assert TaskSound(b, id);
      AgreesAtBoot(id, Merged(b.log, id));
      forall k | k != "prompt" ensures Look(Interrupted(b.cards[id]), k) == Look(again[id], k) {
        assert SameAt(id, b.cards[id], Merged(b.log, id), k);
      }
    }
  }

  // ---------- dismissal ----------

  /** A step appends at most one event to the ledger. */
  lemma LogGrows(cfg: Config, b: Board, a: Action)
    ensures var log := Step(cfg, b, a).log;
            log == b.log || (|log| == |b.log| + 1 && log == b.log + [log[|b.log|]])
  {
  }

  lemma SeenAndDismissedGrow(cfg: Config, b: Board, a: Action)
    ensures Dismissed(b.log) <= Dismissed(Step(cfg, b, a).log)
    ensures Seen(b.log) <= Seen(Step(cfg, b, a).log)
  {
    LogGrows(cfg, b, a);
    var log := Step(cfg, b, a).log;
    if log != b.log { SeenNext(b.log, log[|b.log|]); }
  }

  lemma {:induction false} DismissedStays(cfg: Config, b: Board, actions: seq<Action>)
    ensures Dismissed(b.log) <= Dismissed(Run(cfg, b, actions).log)
    decreases |actions|
  {
    if actions != [] {
      DismissedStays(cfg, b, actions[..|actions| - 1]);
      SeenAndDismissedGrow(cfg, Run(cfg, b, actions[..|actions| - 1]), actions[|actions| - 1]);
    }
  }

  /** The ledger after a series of processes, each started on what the last one left. */
  function Lives(cfg: Config, log: seq<Event>, lives: seq<seq<Action>>): seq<Event>
    decreases |lives|
  {
    if lives == [] then log
    else Run(cfg, Boot(Lives(cfg, log, lives[..|lives| - 1])), lives[|lives| - 1]).log
  }

  lemma {:induction false} DismissedOutlives(cfg: Config, log: seq<Event>, lives: seq<seq<Action>>)
    ensures Dismissed(log) <= Dismissed(Lives(cfg, log, lives))
    decreases |lives|
  {
    if lives != [] {
      DismissedOutlives(cfg, log, lives[..|lives| - 1]);
      DismissedStays(cfg, Boot(Lives(cfg, log, lives[..|lives| - 1])), lives[|lives| - 1]);
    }
  }

  lemma DismissedIsGone(b: Board, id: string)
    requires Inv(b) && id in Dismissed(b.log)
    ensures id !in b.cards
  {
    assert TaskSound(b, id);
  }

  lemma GoneInThisProcess(cfg: Config, b: Board, id: string, after: seq<Action>)
    requires Inv(b) && MayDismiss(b, id)
    ensures var e := Run(cfg, Step(cfg, b, Dismiss(id)), after);
            id in Dismissed(e.log) && id !in e.cards
  {
    var next := Step(cfg, b, Dismiss(id));
    SeenNext(b.log, Record(id, "dismissed", map[]));
    StepKeeps(cfg, b, Dismiss(id));
    DismissedStays(cfg, next, after);
    RunSoundFrom(cfg, next, after);
    DismissedIsGone(Run(cfg, next, after), id);
  }

  lemma GoneInLaterOnes(cfg: Config, log: seq<Event>, lives: seq<seq<Action>>, later: seq<Action>, id: string)
    requires id in Dismissed(log)
    ensures id !in Run(cfg, Boot(Lives(cfg, log, lives)), later).cards
  {
    var start := Boot(Lives(cfg, log, lives));
    DismissedOutlives(cfg, log, lives);
    DismissedStays(cfg, start, later);
    RunSound(cfg, Lives(cfg, log, lives), later);
    DismissedIsGone(Run(cfg, start, later), id);
  }

  /** A dismissed task never returns: not in this process, whatever its thread still writes to
      the ledger, and not in any later one. */
  lemma DismissedNeverReturns(cfg: Config, log: seq<Event>, before: seq<Action>, id: string,
                              after: seq<Action>, lives: seq<seq<Action>>, later: seq<Action>)
    requires MayDismiss(Run(cfg, Boot(log), before), id)
    ensures var e := Run(cfg, Step(cfg, Run(cfg, Boot(log), before), Dismiss(id)), after);
            id !in e.cards && id !in Run(cfg, Boot(Lives(cfg, e.log, lives)), later).cards
  {
    RunSound(cfg, log, before);
    GoneInThisProcess(cfg, Run(cfg, Boot(log), before), id, after);
    GoneInLaterOnes(cfg, Run(cfg, Step(cfg, Run(cfg, Boot(log), before), Dismiss(id)), after).log, lives, later, id);
  }

  /** A card leaves the board only by being dismissed, and only when its task has ended. */
  lemma LiveIsNeverRemoved(cfg: Config, b: Board, a: Action, id: string)
    requires id in b.cards && id !in Step(cfg, b, a).cards
    ensures a == Dismiss(id) && Terminal(b.cards[id])
  {
  }

  // ---------- acceptance ----------

  /** The `i`-th action is an acceptance of task `id` that returned true. */
  ghost predicate AcceptedAt(cfg: Config, log: seq<Event>, actions: seq<Action>, i: nat, id: string)
    requires i < |actions|
  {
    actions[i].Decide? && actions[i].id == id && actions[i].accept && id in Run(cfg, Boot(log), actions[..i]).cards
  }

  lemma AcceptanceStep(cfg: Config, b: Board, a: Action, id: string)
    requires id in Step(cfg, b, a).accepted && id !in b.accepted
    ensures a.Decide? && a.id == id && a.accept && id in b.cards
  {
  }

  lemma {:induction false} AcceptedMeansDecided(cfg: Config, log: seq<Event>, actions: seq<Action>, id: string)
    requires id in Run(cfg, Boot(log), actions).accepted
    ensures exists i: nat :: i < |actions| && AcceptedAt(cfg, log, actions, i, id)
    decreases |actions|
  {
    if actions != [] {
      var n := |actions| - 1;
      var front := actions[..n];
      if id in Run(cfg, Boot(log), front).accepted {
        AcceptedMeansDecided(cfg, log, front, id);
        var i: nat :| i < |front| && AcceptedAt(cfg, log, front, i, id);
        assert front[..i] == actions[..i];
        assert AcceptedAt(cfg, log, actions, i, id);
      } else {
        AcceptanceStep(cfg, Run(cfg, Boot(log), front), actions[n], id);
        assert AcceptedAt(cfg, log, actions, n, id);
      }
    }
  }

  /** A task created in this process is shown as applied only after it was accepted. */
  lemma AppliedNeedsAcceptance(cfg: Config, log: seq<Event>, actions: seq<Action>, id: string)
    requires var b := Run(cfg, Boot(log), actions);
             id in b.threads && id in b.cards && Has(b.cards[id], "applied")
    ensures exists i: nat :: i < |actions| && AcceptedAt(cfg, log, actions, i, id)
  {
    RunSound(cfg, log, actions);
    assert TaskSound(Run(cfg, Boot(log), actions), id);
    AcceptedMeansDecided(cfg, log, actions, id);
  }

  // ---------- the cancel signal ----------

  predicate AwaitsNow(b: Board, a: Action, id: string, d: Card) {
    a.Await? && a.id == id && At(b, id, Working) && Has(d, "awaiting")
  }

  predicate ResolvesNow(b: Board, a: Action, id: string, d: Card) {
    && (a.Finish? || a.FinishCrash?) && a.id == id && Ended(b, id) && !IsCancelled(b, id) && Resolved(d)
    && (Has(d, "applied") ==> a.Finish? && b.threads[id] == Returned(Applied))
  }

  lemma FinalStatusAfter(b: Board, x: string, fields: Entry, id: string)
    requires id in b.cards && FinalStatus(fields) && x in b.threads
    ensures var next := Final(b, x, fields);
            && id in next.cards
            && (next.cards[id] == b.cards[id]
                || (x == id && !IsCancelled(b, id) && Status(next.cards[id]) == fields["status"]))
  {
    StatusWritten(b.cards[id], fields);
  }

  lemma FinishStatusAfter(cfg: Config, b: Board, a: Action, id: string)
    requires id in b.cards && a.Finish?
    ensures var next := Step(cfg, b, a);
            id in next.cards && (next.cards[id] == b.cards[id] || ResolvesNow(b, a, id, next.cards[id]))
  {
    if Ended(b, a.id) && b.threads[a.id].Returned? {
      FinalStatusAfter(b, a.id, FinalFields(b.threads[a.id].outcome, a.report), id);
    }
  }

  lemma CrashStatusAfter(cfg: Config, b: Board, a: Action, id: string)
    requires id in b.cards && a.FinishCrash?
    ensures var next := Step(cfg, b, a);
            id in next.cards && (next.cards[id] == b.cards[id] || ResolvesNow(b, a, id, next.cards[id]))
  {
    if At(b, a.id, Crashed) {
      FinalStatusAfter(b, a.id, CrashFields(a.error), id);
    }
  }

  lemma AwaitStatusAfter(cfg: Config, b: Board, a: Action, id: string)
    requires id in b.cards && a.Await?
    ensures var next := Step(cfg, b, a);
            id in next.cards && (b.cards[id] == next.cards[id] || AwaitsNow(b, a, id, next.cards[id]))
  {
    StatusWritten(b.cards[id], AwaitFields(a.report));
  }

  lemma ProceedStatusAfter(b: Board, client: nat, id: string)
    requires id in b.cards && client in b.calls
    ensures var next := ProceedStep(b, client);
            id in next.cards && (b.cards[id] == next.cards[id] || Has(next.cards[id], "cancelled"))
  {
    StatusWritten(b.cards[id], CancelFields());
  }

  lemma OtherStatusAfter(cfg: Config, b: Board, a: Action, id: string)
    requires id in b.cards && id in Step(cfg, b, a).cards
    requires !a.Finish? && !a.FinishCrash? && !a.Await? && !a.Proceed?
    ensures b.cards[id] == Step(cfg, b, a).cards[id]
  {
  }

  /** How a step may change a card that it finds and leaves on the board. */
  lemma StatusAfter(cfg: Config, b: Board, a: Action, id: string)
    requires id in b.cards && id in Step(cfg, b, a).cards
    ensures var d := Step(cfg, b, a).cards[id];
            || b.cards[id] == d
            || AwaitsNow(b, a, id, d)
            || (a.Proceed? && Has(d, "cancelled"))
            || ResolvesNow(b, a, id, d)
  {
    if a.Finish? {
      FinishStatusAfter(cfg, b, a, id);
    } else if a.FinishCrash? {
      CrashStatusAfter(cfg, b, a, id);
    } else if a.Await? {
      AwaitStatusAfter(cfg, b, a, id);
    } else if a.Proceed? {
      if a.client in b.calls { ProceedStatusAfter(b, a.client, id); }
    } else {
      OtherStatusAfter(cfg, b, a, id);
    }
  }

  /** The step that shows a task as applied is its own thread's last one; the task has been
      accepted and its cancel signal is not set. */
  lemma AppliedIsUnsignalled(cfg: Config, b: Board, a: Action, id: string)
    requires Inv(b) && id in b.threads && id in b.cards && !Has(b.cards[id], "applied")
    requires id in Step(cfg, b, a).cards && Has(Step(cfg, b, a).cards[id], "applied")
    ensures a.Finish? && a.id == id && id in b.accepted && id !in b.signalled
  {
    StatusAfter(cfg, b, a, id);
    WiredWithCard(b, id);
    assert TaskSound(b, id);
  }

  /** A card appears only under a new id. */
  lemma CardAppears(cfg: Config, b: Board, a: Action, id: string)
    requires id !in b.cards && id in Step(cfg, b, a).cards
    ensures a.Create? && a.id == id && Fresh(b, id)
  {
  }

  lemma SignalsStay(cfg: Config, b: Board, a: Action)
    ensures b.signalled <= Step(cfg, b, a).signalled
  {
  }

  lemma SignalledIsOurs(b: Board, id: string)
    requires Inv(b)
    ensures id in b.signalled ==> id in b.threads
  {
    assert TaskSound(b, id);
  }

  lemma WiredWithCard(b: Board, id: string)
    requires Inv(b) && id in b.cards && id in b.threads
    ensures id in b.wired
  {
    assert TaskSound(b, id);
  }

  lemma SignalledStep(cfg: Config, b: Board, a: Action, id: string)
    requires Inv(b) && id in b.signalled
    ensures id in Step(cfg, b, a).signalled
    ensures var d := Step(cfg, b, a).cards;
            id in d && Resolved(d[id]) ==> id in b.cards && b.cards[id] == d[id]
  {
    SignalsStay(cfg, b, a);
    SignalledIsOurs(b, id);
    if id in Step(cfg, b, a).cards {
      if id !in b.cards {
        CardAppears(cfg, b, a, id);
      } else {
        StatusAfter(cfg, b, a, id);
        WiredWithCard(b, id);
      }
    }
  }

  /** Once a task's cancel signal is set no step writes applied, denied or failed on its card:
      a card found so later was already so, unchanged, when the signal was set. */
  lemma {:induction false} SignalIsRespected(cfg: Config, b: Board, after: seq<Action>, id: string)
    requires Inv(b) && id in b.signalled
    ensures var e := Run(cfg, b, after);
            && id in e.signalled
            && (id in e.cards && Resolved(e.cards[id]) ==> id in b.cards && b.cards[id] == e.cards[id])
    decreases |after|
  {
    if after != [] {
      var front := after[..|after| - 1];
      SignalIsRespected(cfg, b, front, id);
      RunSoundFrom(cfg, b, front);
      SignalledStep(cfg, Run(cfg, b, front), after[|after| - 1], id);
    }
  }

  /** A task whose thread has ended without being cancelled shows how it ended. */
  lemma EndedTaskIsResolved(cfg: Config, log: seq<Event>, actions: seq<Action>, id: string)
    requires var b := Run(cfg, Boot(log), actions); At(b, id, Done) && id in b.cards && id !in b.signalled
    ensures Resolved(Run(cfg, Boot(log), actions).cards[id])
  {
    RunSound(cfg, log, actions);
    assert TaskSound(Run(cfg, Boot(log), actions), id);
  }
}
