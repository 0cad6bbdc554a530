/** `JarvisTaskBoard`: its methods, each run alone, take exactly the steps of the state machine. */
module TaskBoardObject {
  import opened Basics
  import opened Json
  import opened Ledger
  import opened PyText
  import opened TaskBoard

  datatype CreateResult = Task(id: string) | PromptRequired | TooMany

  function Completed(cards: map<string, Card>): set<string> {
    set id | id in cards && Terminal(cards[id])
  }

  /** The loop of `_restore`. */
  method RestoreAll(folded: map<string, Card>) returns (cards: map<string, Card>)
    ensures cards == map id | id in folded :: Restored(id, folded[id])
  {
    cards := map[];
    var left := folded.Keys;
    while left != {}
      invariant left <= folded.Keys
      invariant cards.Keys == folded.Keys - left
      invariant forall id :: id in cards ==> cards[id] == Restored(id, folded[id])
      decreases |left|
    {
      var id := PickOne(left);
      var merged := Skeleton(id, "", Str("ollama"), "") + folded[id];
      cards := cards[id := merged["status_label" := Label(Status(merged))]];
      left := left - {id};
    }
  }

  lemma StillCompleted(cards: map<string, Card>, id: string, targets: set<string>)
    requires id in targets && targets <= Completed(cards)
    ensures id in cards && Terminal(cards[id]) && targets - {id} <= Completed(cards - {id})
  {
  }

  lemma RemoveMore<V>(cards: map<string, V>, gone: set<string>, id: string, targets: set<string>)
    requires id in targets
    ensures cards - {id} - (targets - {id}) == cards - targets
    ensures gone + {id} + (targets - {id}) == gone + targets
    ensures |targets - {id}| == |targets| - 1
  {
  }

  /** `dismiss_completed` under way: `targets` are still to go, `count` are gone. */
  predicate Sweeping(before: map<string, Card>, gone: set<string>, cards: map<string, Card>, seen: set<string>,
                     targets: set<string>, count: nat) {
    && targets <= Completed(cards) && count + |targets| == |Completed(before)|
    && cards - targets == before - Completed(before)
    && seen + targets == gone + Completed(before)
  }

  lemma SweepOne(before: map<string, Card>, gone: set<string>, cards: map<string, Card>, seen: set<string>,
                 targets: set<string>, count: nat, id: string)
    requires Sweeping(before, gone, cards, seen, targets, count) && id in targets
    ensures id in cards && Terminal(cards[id]) && |targets - {id}| < |targets|
    ensures Sweeping(before, gone, cards - {id}, seen + {id}, targets - {id}, count + 1)
  {
    StillCompleted(cards, id, targets);
    RemoveMore(cards, seen, id, targets);
  }

  lemma SweepDone(before: map<string, Card>, gone: set<string>, cards: map<string, Card>, seen: set<string>, count: nat)
    requires Sweeping(before, gone, cards, seen, {}, count)
    ensures cards == before - Completed(before) && count == |Completed(before)| && seen == gone + Completed(before)
  {
    assert cards - {} == cards && seen + {} == seen;
  }

  class JarvisTaskBoard {
    const cfg: Config
    const ledger: LedgerLog
    var cards: map<string, Card>
    var wired: set<string>
    var woken: set<string>
    var signalled: set<string>
    var decisions: map<string, bool>
    ghost var threads: map<string, Phase>
    ghost var calls: map<nat, Call>
    ghost var accepted: set<string>

    ghost function View(): Board
      reads this, ledger
    {
      Board(cards, wired, woken, signalled, decisions, ledger.entries, threads, calls, accepted)
    }

    /** `__init__` with its `_restore`. */
    constructor (cfg: Config, ledger: LedgerLog)
      ensures this.cfg == cfg && this.ledger == ledger
      ensures View() == Boot(ledger.entries)
    {
      this.cfg, this.ledger := cfg, ledger;
      cards, wired, woken, signalled, decisions := map[], {}, {}, {}, map[];
      threads, calls, accepted := map[], map[], {};
      new;
      var folded := ledger.FoldCards();
      cards := RestoreAll(folded);
    }

    /** `_running_count`. */
    method RunningCount() returns (n: nat)
      ensures n == |Live(View())|
    {
      n := 0;
      var left := cards.Keys;
      ghost var counted: set<string> := {};
      while left != {}
        invariant left <= cards.Keys && n == |counted|
        invariant counted == Live(View()) - left
        decreases |left|
      {
        var id := PickOne(left);
        if Has(cards[id], "running") || Has(cards[id], "awaiting") {
          n := n + 1;
          counted := counted + {id};
        }
        left := left - {id};
      }
    }

    /** `create`, with the id that `uuid4` gave. */
    method Create(id: string, prompt: string, workerType: Json, now: string) returns (r: CreateResult)
      requires Fresh(View(), id)
      modifies this, ledger
      ensures View() == Step(cfg, old(View()), Action.Create(id, Strip(prompt), workerType, now))
      ensures r == if Strip(prompt) == "" then PromptRequired
                   else if |Live(old(View()))| >= cfg.maxConcurrent then TooMany else Task(id)
    {
      r := CreateStripped(id, Strip(prompt), workerType, now);
    }

    method CreateStripped(id: string, text: string, workerType: Json, now: string) returns (r: CreateResult)
      requires Fresh(View(), id)
      modifies this, ledger
      ensures View() == Step(cfg, old(View()), Action.Create(id, text, workerType, now))
      ensures r == if text == "" then PromptRequired
                   else if |Live(old(View()))| >= cfg.maxConcurrent then TooMany else Task(id)
    {
      if text == "" {
        return PromptRequired;
      }
      var n := RunningCount();
      if n >= cfg.maxConcurrent {
        return TooMany;
      }
      wired := wired + {id};
      cards := cards[id := Skeleton(id, First200(text), workerType, now)];
      threads := threads[id := Phase.Created];
      ledger.Append(id, "created", CreatedFields(cfg, text, workerType, now));
      r := Task(id);
    }

    /** `_update` and `_record`. */
    method UpdateAndRecord(id: string, event: string, fields: Entry)
      modifies this`cards, ledger
      ensures View() == Write(old(View()), id, event, fields)
    {
      if id in cards {
        var card := cards[id] + fields;
        if "status" in fields {
          card := card["status_label" := Label(fields["status"])];
        }
        cards := cards[id := card];
        assert card == Updated(old(cards[id]), fields);
      }
      ledger.Append(id, event, fields);
    }

    /** `decide`. */
    method Decide(ghost client: nat, id: string, accept: bool) returns (ok: bool)
      requires client !in calls
      modifies this
      ensures ok == (id in old(cards))
      ensures View() == Run(cfg, old(View()), DecideRequest(client, id, accept))
    {
      RunTwo(cfg, View(), Action.Decide(client, id, accept), Proceed(client));
      if id !in cards {
        return false;
      }
      decisions := decisions[id := accept];
      accepted := if accept then accepted + {id} else accepted;
      var ev := id in wired;
      if ev {
        woken := woken + {id};
        assert calls[client := Wake(id)] - {client} == calls;
      }
      ok := true;
    }

    /** `cancel`. */
    method Cancel(ghost client: nat, id: string) returns (ok: bool)
      requires client !in calls
      modifies this, ledger
      ensures ok == MayCancel(old(View()), id)
      ensures View() == Run(cfg, old(View()), CancelRequest(client, id))
    {
      if id !in cards || Terminal(cards[id]) {
        CancelRefused(cfg, View(), client, id);
        return false;
      }
      CancelAlone(cfg, View(), client, id);
      decisions := decisions[id := false];
      var ev := id in wired;
      if ev {
        signalled := signalled + {id};
        woken := woken + {id};
      }
      UpdateAndRecord(id, "cancelled", CancelFields());
      ok := true;
    }

    /** `dismiss`. */
    method Dismiss(id: string) returns (ok: bool)
      modifies this, ledger
      ensures ok == MayDismiss(old(View()), id)
      ensures View() == Step(cfg, old(View()), Action.Dismiss(id))
      ensures ok ==> cards == old(cards) - {id}
                     && ledger.entries == old(ledger.entries) + [Record(id, "dismissed", map[])]
    {
      if id !in cards || !Terminal(cards[id]) {
        return false;
      }
      cards := cards - {id};
      wired := wired - {id};
      decisions := decisions - {id};
      ledger.Append(id, "dismissed", map[]);
      ok := true;
    }

    method DismissOne(id: string)
      requires id in cards && Terminal(cards[id])
      modifies this, ledger
      ensures cards == old(cards) - {id} && Dismissed(ledger.entries) == Dismissed(old(ledger.entries)) + {id}
    {
      SeenNext(ledger.entries, Record(id, "dismissed", map[]));
      var ok := Dismiss(id);
    }

    /** `dismiss_completed`: the ended tasks go, the others stay as they are. */
    method DismissCompleted() returns (count: nat)
      modifies this, ledger
      ensures cards == old(cards) - Completed(old(cards)) && count == |Completed(old(cards))|
      ensures Dismissed(ledger.entries) == Dismissed(old(ledger.entries)) + Completed(old(cards))
    {
      ghost var before, gone := cards, Dismissed(ledger.entries);
      var targets := Completed(cards);
      count := 0;
      while targets != {}
        invariant Sweeping(before, gone, cards, Dismissed(ledger.entries), targets, count)
        decreases |targets|
      {
        var id := PickOne(targets);
        SweepOne(before, gone, cards, Dismissed(ledger.entries), targets, count, id);
        DismissOne(id);
        count := count + 1;
        targets := targets - {id};
      }
      SweepDone(before, gone, cards, Dismissed(ledger.entries), count);
    }

    // ---------- the steps of run_task ----------

    /** `run_task` up to the dispatch: false if the card is gone. */
    method Start(id: string) returns (found: bool)
      requires At(View(), id, Phase.Created)
      modifies this`threads
      ensures found == (id in cards)
      ensures View() == Step(cfg, old(View()), Action.Start(id))
    {
      found := id in cards;
      threads := threads[id := if found then Working else Done];
    }

    /** The approver up to its wait: false if its event is gone. */
    method ShowForApproval(id: string, report: Report) returns (waiting: bool)
      requires At(View(), id, Working)
      modifies this, ledger
      ensures waiting == (id in wired)
      ensures View() == Step(cfg, Step(cfg, old(View()), Await(id, report)), Ask(id))
    {
      UpdateAndRecord(id, "awaiting", AwaitFields(report));
      threads := threads[id := Asking];
      waiting := id in wired;
      assert threads[id := if waiting then Waiting else Returned(Denied)] == old(threads)[id := if waiting then Waiting else Returned(Denied)];
      threads := threads[id := if waiting then Waiting else Returned(Denied)];
    }

    /** The approver's answer after its wait; `woke` is what the wait returned. */
    method AnswerRequest(id: string, woke: bool) returns (approved: bool)
      requires At(View(), id, Waiting) && (woke ==> id in woken)
      modifies this`threads
      ensures approved == (woke && id in decisions && decisions[id])
      ensures View() == Step(cfg, old(View()), if woke then Answer(id) else Refuse(id))
    {
      approved := woke && id in decisions && decisions[id];
      threads := threads[id := Returned(if approved then Applied else Denied)];
    }

    /** The end of `run_task`: a cancelled task keeps its mark. */
    method Finish(id: string, outcome: Outcome, report: Report)
      requires At(View(), id, Returned(outcome))
      modifies this, ledger
      ensures View() == Step(cfg, old(View()), Action.Finish(id, report))
    {
      if !(id in wired && id in signalled) {
        UpdateAndRecord(id, "resolved", FinalFields(outcome, report));
      }
      threads := threads[id := Done];
    }

    /** The exception handler of `run_task`. */
    method FinishCrash(id: string, error: string)
      requires At(View(), id, Crashed)
      modifies this, ledger
      ensures View() == Step(cfg, old(View()), Action.FinishCrash(id, error))
    {
      if !(id in wired && id in signalled) {
        UpdateAndRecord(id, "resolved", CrashFields(error));
      }
      threads := threads[id := Done];
    }
  }

  lemma CancelWired(cfg: Config, b: Board, client: nat, id: string)
    requires client !in b.calls && MayCancel(b, id) && id in b.wired
    ensures var p := Proceed(client);
            var c := b.(decisions := b.decisions[id := false], signalled := b.signalled + {id}, woken := b.woken + {id});
            Step(cfg, Step(cfg, Step(cfg, Step(cfg, b, Action.Cancel(client, id)), p), p), p) ==
            Write(c, id, "cancelled", CancelFields())
  {
    var p := Proceed(client);
    var b1 := b.(decisions := b.decisions[id := false], calls := b.calls[client := Signal(id)]);
    var b2 := b1.(signalled := b.signalled + {id}, calls := b1.calls[client := Release(id)]);
    var b3 := b2.(woken := b.woken + {id}, calls := b2.calls[client := Mark(id)]);
    assert Step(cfg, b, Action.Cancel(client, id)) == b1;
    assert Step(cfg, b1, p) == b2;
    assert Step(cfg, b2, p) == b3;
    assert b3.calls - {client} == b.calls;
  }

  lemma CancelUnwired(cfg: Config, b: Board, client: nat, id: string)
    requires client !in b.calls && MayCancel(b, id) && id !in b.wired
    ensures var p := Proceed(client);
            Step(cfg, Step(cfg, Step(cfg, Step(cfg, b, Action.Cancel(client, id)), p), p), p) ==
            Write(b.(decisions := b.decisions[id := false]), id, "cancelled", CancelFields())
  {
    var p := Proceed(client);
    var b1 := Step(cfg, b, Action.Cancel(client, id));
    assert b1.calls - {client} == b.calls;
    var b2 := Step(cfg, b1, p);
    assert Step(cfg, b2, p) == b2;
  }

  /** A cancel request that nobody interrupts. */
  lemma CancelAlone(cfg: Config, b: Board, client: nat, id: string)
    requires client !in b.calls && MayCancel(b, id)
    ensures var c := b.(decisions := b.decisions[id := false]);
            Run(cfg, b, CancelRequest(client, id)) ==
            Write(if id in b.wired then c.(signalled := b.signalled + {id}, woken := b.woken + {id}) else c,
                  id, "cancelled", CancelFields())
  {
    RunFour(cfg, b, Action.Cancel(client, id), Proceed(client));
    if id in b.wired { CancelWired(cfg, b, client, id); } else { CancelUnwired(cfg, b, client, id); }
  }

  lemma CancelRefused(cfg: Config, b: Board, client: nat, id: string)
    requires client !in b.calls && !MayCancel(b, id)
    ensures Run(cfg, b, CancelRequest(client, id)) == b
  {
    RunFour(cfg, b, Action.Cancel(client, id), Proceed(client));
  }
}
