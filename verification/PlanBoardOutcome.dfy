/** How plans end: completed exactly when every subtask went well, failed exactly on a defect. */
module PlanBoardOutcome {
  import PlanController
  import opened PyText
  import opened PlanBoard
  import opened PlanBoardSafety

  // ---------- the steps that end a plan ----------

  /** No plan or an ill-formed one, an exception, or a report of a subtask that was not applied
      or left a blank artifact. */
  predicate Fails(b: Board, a: Action, p: string) {
    || (a == Reject(p) && At(b, p, InPlanner))
    || (a == Crash(p) && p in b.threads && !b.threads[p].phase.Ended? && !b.threads[p].phase.Done?)
    || (a.Report? && a.id == p && At(b, p, Working) && (!a.applied || a.blank))
  }

  /** These are exactly the steps that end a plan as failed. */
  lemma FailedOnlyByDefect(max: int, b: Board, a: Action, p: string)
    requires Inv(b) && !At(b, p, Ended(Failed))
    ensures At(Step(max, b, a), p, Ended(Failed)) <==> Fails(b, a, p)
  {
    assert PlanSound(b, p);
  }

  /** The report of the `k`-th subtask sent out: applied, and not blank. */
  predicate GoesWell(b: Board, a: Action, p: string, k: nat) {
    a == Report(p, true, false) && At(b, p, Working) && b.threads[p].sent == k + 1
  }

  /** A step ends a plan as completed exactly if it reports that its last subtask went well. */
  lemma CompletedOnlyByLast(max: int, b: Board, a: Action, p: string)
    requires Inv(b) && !At(b, p, Ended(Completed))
    ensures At(Step(max, b, a), p, Ended(Completed)) <==>
            p in b.threads && b.threads[p].order != [] && GoesWell(b, a, p, |b.threads[p].order| - 1)
  {
    assert PlanSound(b, p);
  }

  // ---------- counting the subtasks that went well ----------

  ghost predicate WentWellAt(max: int, actions: seq<Action>, i: nat, p: string, k: nat) {
    i < |actions| && GoesWell(Run(max, Empty(), actions[..i]), actions[i], p, k)
  }

  ghost predicate WentWell(max: int, actions: seq<Action>, p: string, k: nat) {
    exists i: nat {:trigger WentWellAt(max, actions, i, p, k)} :: WentWellAt(max, actions, i, p, k)
  }

  function Passed(b: Board, p: string): nat {
    if p in b.threads then b.threads[p].passed else 0
  }

  lemma WentWellNext(max: int, actions: seq<Action>, p: string, k: nat)
    requires actions != []
    ensures var n := |actions| - 1;
            WentWell(max, actions, p, k) <==>
            WentWell(max, actions[..n], p, k) || GoesWell(Run(max, Empty(), actions[..n]), actions[n], p, k)
  {
    var n := |actions| - 1;
    if i: nat :| WentWellAt(max, actions, i, p, k) {
      if i < n {
        assert actions[..n][..i] == actions[..i];
        assert WentWellAt(max, actions[..n], i, p, k);
      }
    }
    if i: nat :| WentWellAt(max, actions[..n], i, p, k) {
      assert actions[..n][..i] == actions[..i];
      assert WentWellAt(max, actions, i, p, k);
    }
    if GoesWell(Run(max, Empty(), actions[..n]), actions[n], p, k) { assert WentWellAt(max, actions, n, p, k); }
  }

  lemma PassedNext(max: int, b: Board, a: Action, p: string, k: nat)
    requires Inv(b)
    ensures k < Passed(Step(max, b, a), p) <==> k < Passed(b, p) || GoesWell(b, a, p, k)
  {
    assert PlanSound(b, p);
  }

  /** The subtasks counted as passed are exactly those reported to have gone well. */
  lemma {:induction false} PassedAre(max: int, actions: seq<Action>, p: string, k: nat)
    ensures k < Passed(Run(max, Empty(), actions), p) <==> WentWell(max, actions, p, k)
    decreases |actions|
  {
    if actions != [] {
      var front := actions[..|actions| - 1];
      PassedAre(max, front, p, k);
      RunSound(max, front);
      PassedNext(max, Run(max, Empty(), front), actions[|actions| - 1], p, k);
      WentWellNext(max, actions, p, k);
    } else {
      assert Passed(Empty(), p) == 0;
    }
  }

  // ---------- the order that was proposed ----------

  /** The approver shows the plan with a non-empty order that lists each of its subtasks once. */
  predicate Proposes(b: Board, a: Action, p: string, order: seq<nat>) {
    && a == Propose(p, order) && At(b, p, InPlanner) && order != []
    && (forall k :: k in order ==> k < |order|) && forall i, j :: 0 <= i < |order| && 0 <= j < |order| && i != j ==> order[i] != order[j]
  }

  lemma IsOrderIff(order: seq<nat>)
    ensures IsOrder(order) <==>
            && order != [] && (forall k :: k in order ==> k < |order|)
            && forall i, j :: 0 <= i < |order| && 0 <= j < |order| && i != j ==> order[i] != order[j]
  {
    forall i | 0 <= i < |order| ensures order[i] in order {}
  }

  ghost predicate ProposedAt(max: int, actions: seq<Action>, i: nat, p: string, order: seq<nat>) {
    i < |actions| && Proposes(Run(max, Empty(), actions[..i]), actions[i], p, order)
  }

  ghost predicate Proposed(max: int, actions: seq<Action>, p: string, order: seq<nat>) {
    exists i: nat {:trigger ProposedAt(max, actions, i, p, order)} :: ProposedAt(max, actions, i, p, order)
  }

  lemma ProposedNext(max: int, actions: seq<Action>, p: string, order: seq<nat>)
    requires actions != []
    ensures var n := |actions| - 1;
            Proposed(max, actions, p, order) <==>
            Proposed(max, actions[..n], p, order) || Proposes(Run(max, Empty(), actions[..n]), actions[n], p, order)
  {
    var n := |actions| - 1;
    if i: nat :| ProposedAt(max, actions, i, p, order) {
      if i < n {
        assert actions[..n][..i] == actions[..i];
        assert ProposedAt(max, actions[..n], i, p, order);
      }
    }
    if i: nat :| ProposedAt(max, actions[..n], i, p, order) {
      assert actions[..n][..i] == actions[..i];
      assert ProposedAt(max, actions, i, p, order);
    }
    if Proposes(Run(max, Empty(), actions[..n]), actions[n], p, order) { assert ProposedAt(max, actions, n, p, order); }
  }

  predicate Follows(b: Board, p: string, order: seq<nat>) {
    order != [] && p in b.threads && b.threads[p].order == order
  }

  lemma FollowsKept(max: int, b: Board, a: Action, p: string, order: seq<nat>)
    requires Inv(b) && !a.Propose?
    ensures Follows(Step(max, b, a), p, order) <==> Follows(b, p, order)
  {
    assert PlanSound(b, p);
  }

  lemma FollowsFrom(max: int, b: Board, a: Action, p: string, order: seq<nat>)
    requires Inv(b) && a.Propose?
    ensures Follows(Step(max, b, a), p, order) <==> Follows(b, p, order) || Proposes(b, a, p, order)
  {
    IsOrderIff(a.order);
    assert PlanSound(b, p);
  }

  lemma FollowsNext(max: int, b: Board, a: Action, p: string, order: seq<nat>)
    requires Inv(b)
    ensures Follows(Step(max, b, a), p, order) <==> Follows(b, p, order) || Proposes(b, a, p, order)
  {
    if a.Propose? { FollowsFrom(max, b, a, p, order); } else { FollowsKept(max, b, a, p, order); }
  }

  /** The order a plan's thread follows is the one it proposed. */
  lemma {:induction false} FollowsProposed(max: int, actions: seq<Action>, p: string, order: seq<nat>)
    ensures Follows(Run(max, Empty(), actions), p, order) <==> Proposed(max, actions, p, order)
    decreases |actions|
  {
    if actions != [] {
      var front := actions[..|actions| - 1];
      FollowsProposed(max, front, p, order);
      RunSound(max, front);
      FollowsNext(max, Run(max, Empty(), front), actions[|actions| - 1], p, order);
      ProposedNext(max, actions, p, order);
    }
  }

  // ---------- completed exactly when all went well ----------

  /** A plan whose subtasks all passed has ended as completed. */
  predicate PassedAll(b: Board, p: string) {
    p in b.threads && b.threads[p].order != [] && b.threads[p].passed == |b.threads[p].order|
  }

  predicate EndsCompleted(b: Board, p: string) {
    At(b, p, Ended(Completed)) || At(b, p, Done(Completed))
  }

  lemma PassedAllNext(max: int, b: Board, a: Action, p: string)
    requires Inv(b) && (PassedAll(b, p) ==> EndsCompleted(b, p))
    ensures var next := Step(max, b, a); PassedAll(next, p) ==> EndsCompleted(next, p)
  {
    assert PlanSound(b, p);
  }

  lemma {:induction false} PassedAllEnds(max: int, actions: seq<Action>, p: string)
    ensures var b := Run(max, Empty(), actions); PassedAll(b, p) ==> EndsCompleted(b, p)
    decreases |actions|
  {
    if actions != [] {
      var front := actions[..|actions| - 1];
      PassedAllEnds(max, front, p);
      RunSound(max, front);
      PassedAllNext(max, Run(max, Empty(), front), actions[|actions| - 1], p);
    }
  }

  /** Every subtask of the order was reported to have gone well. */
  ghost predicate AllWentWell(max: int, actions: seq<Action>, p: string, order: seq<nat>) {
    forall k: nat {:trigger WentWell(max, actions, p, k)} :: k < |order| ==> WentWell(max, actions, p, k)
  }

  lemma PassedAllIff(max: int, actions: seq<Action>, p: string, order: seq<nat>)
    requires Follows(Run(max, Empty(), actions), p, order)
    ensures PassedAll(Run(max, Empty(), actions), p) <==> AllWentWell(max, actions, p, order)
  {
    var b := Run(max, Empty(), actions);
    RunSound(max, actions);
    assert PlanSound(b, p);
    forall k: nat ensures k < b.threads[p].passed <==> WentWell(max, actions, p, k) { PassedAre(max, actions, p, k); }
    if b.threads[p].passed < |order| { assert !WentWell(max, actions, p, b.threads[p].passed); }
  }

  /** In every run, a plan whose thread has ended is completed exactly if an order was proposed
      and each of its subtasks was reported applied and not blank. */
  lemma CompletedIffAllWentWell(max: int, actions: seq<Action>, p: string)
    requires var b := Run(max, Empty(), actions); p in b.threads && b.threads[p].phase.Done?
    ensures p in Run(max, Empty(), actions).plans
    ensures Run(max, Empty(), actions).plans[p].status == Completed <==>
            exists order :: Proposed(max, actions, p, order) && AllWentWell(max, actions, p, order)
  {
    var b := Run(max, Empty(), actions);
    RunSound(max, actions);
    assert PlanSound(b, p);
    PassedAllEnds(max, actions, p);
    var order := b.threads[p].order;
    if order != [] {
      FollowsProposed(max, actions, p, order);
      PassedAllIff(max, actions, p, order);
    }
    forall other | Proposed(max, actions, p, other) ensures other == order != [] {
      FollowsProposed(max, actions, p, other);
    }
  }

  // ---------- what the cards of subtasks show ----------

  /** A report sets the card of the subtask just run, and only that one. */
  lemma ReportShows(max: int, b: Board, p: string, applied: bool, blank: bool)
    requires Inv(b) && At(b, p, Working)
    ensures var next, th := Step(max, b, Report(p, applied, blank)), b.threads[p];
            && 0 < th.sent <= |th.order|
            && var sub := p + "." + Decimal(th.order[th.sent - 1]);
               && next.subtasks.Keys == b.subtasks.Keys && sub in b.subtasks
               && next.subtasks[sub] == SubCard(p, if applied then Applied else NotApplied)
               && forall s :: s in b.subtasks && s != sub ==> next.subtasks[s] == b.subtasks[s]
  {
    assert PlanSound(b, p) && AllSent(b, p);
    assert SentSound(b, p, b.threads[p].sent - 1);
  }

  /** Sending out a subtask puts a new running card on the board and lists it last. */
  lemma DispatchShows(max: int, b: Board, p: string)
    requires Inv(b) && At(b, p, Dispatching)
    ensures var next, th := Step(max, b, Dispatch(p)), b.threads[p];
            && th.sent < |th.order| && p in b.plans
            && var sub := p + "." + Decimal(th.order[th.sent]);
               && sub !in b.plans[p].subtaskIds && next.plans[p].subtaskIds == b.plans[p].subtaskIds + [sub]
               && next.subtasks == b.subtasks[sub := SubCard(p, Running)]
               && At(next, p, Working)
  {
    assert PlanSound(b, p);
    NotSentYet(p, b.threads[p].order, b.threads[p].sent);
  }

  // ---------- a plan can be completed ----------

  /** Alone on an empty board: created, proposed, accepted. */
  function Accepting(p: string, text: string, order: seq<nat>): seq<Action> {
    [CreatePlan(p, text), Start(p), Propose(p, order), Ask(p), Decide(0, p, true), Wake(0), Answer(p)]
  }

  /** `n` subtasks are sent out and go well. */
  function GoodRounds(p: string, n: nat): seq<Action> {
    if n == 0 then [] else GoodRounds(p, n - 1) + [Dispatch(p), Report(p, true, false)]
  }

  predicate SentAndPassed(b: Board, p: string, order: seq<nat>, n: nat) {
    && p in b.plans && p in b.threads
    && b.threads[p] == Thread(if n == |order| then Ended(Completed) else Dispatching, order, n, n)
  }

  lemma {:induction false} RunConcat(max: int, b: Board, x: seq<Action>, y: seq<Action>)
    ensures Run(max, b, x + y) == Run(max, Run(max, b, x), y)
    decreases |y|
  {
    if y == [] {
      assert x + [] == x;
    } else {
      var n := |y| - 1;
      assert (x + y)[..|x + y| - 1] == x + y[..n] && (x + y)[|x + y| - 1] == y[n];
      RunConcat(max, b, x, y[..n]);
    }
  }

  lemma RunOne(max: int, b: Board, a: Action)
    ensures Run(max, b, [a]) == Step(max, b, a)
  {
    assert [a][..0] == [];
  }

  lemma RunMore(max: int, b: Board, x: seq<Action>, a: Action)
    ensures Run(max, b, x + [a]) == Step(max, Run(max, b, x), a)
  {
    RunConcat(max, b, x, [a]);
    RunOne(max, Run(max, b, x), a);
  }

  lemma CreatedFirst(max: int, p: string, text: string)
    requires max > 0 && '.' !in p && text != ""
    ensures Step(max, Empty(), CreatePlan(p, text)) ==
            Empty().(plans := map[p := PlanCard(Planning, [])], threads := map[p := Thread(Created, [], 0, 0)])
  {
    assert Open(Empty()) == {};
  }

  lemma StartedNext(max: int, p: string, order: seq<nat>, b: Board)
    requires IsOrder(order)
    requires b == Empty().(plans := map[p := PlanCard(Planning, [])], threads := map[p := Thread(Created, [], 0, 0)])
    ensures Step(max, Step(max, b, Start(p)), Propose(p, order)) ==
            Empty().(plans := map[p := PlanCard(Awaiting, [])], threads := map[p := Thread(Asking, order, 0, 0)])
  {
    var c := Step(max, b, Start(p));
    assert c.threads == map[p := Thread(InPlanner, [], 0, 0)] && c.plans == b.plans;
  }

  lemma ProposedFirst(max: int, p: string, text: string, order: seq<nat>)
    requires max > 0 && '.' !in p && text != "" && IsOrder(order)
    ensures var b := Run(max, Empty(), [CreatePlan(p, text), Start(p), Propose(p, order)]);
            b == Empty().(plans := map[p := PlanCard(Awaiting, [])], threads := map[p := Thread(Asking, order, 0, 0)])
  {
    CreatedFirst(max, p, text);
    StartedNext(max, p, order, Step(max, Empty(), CreatePlan(p, text)));
    RunThree(max, Empty(), CreatePlan(p, text), Start(p), Propose(p, order));
  }

  lemma RunThree(max: int, b: Board, x: Action, y: Action, z: Action)
    ensures Run(max, b, [x, y, z]) == Step(max, Step(max, Step(max, b, x), y), z)
  {
    RunOne(max, b, x);
    RunMore(max, b, [x], y);
    RunMore(max, b, [x, y], z);
    assert [x] + [y] == [x, y] && [x, y] + [z] == [x, y, z];
  }

  lemma AcceptedNext(max: int, p: string, order: seq<nat>, b: Board)
    requires order != []
    requires b == Empty().(plans := map[p := PlanCard(Awaiting, [])], threads := map[p := Thread(Asking, order, 0, 0)])
    ensures SentAndPassed(Run(max, b, [Ask(p), Decide(0, p, true), Wake(0), Answer(p)]), p, order, 0)
  {
    RunThree(max, b, Ask(p), Decide(0, p, true), Wake(0));
    RunMore(max, b, [Ask(p), Decide(0, p, true), Wake(0)], Answer(p));
    assert [Ask(p), Decide(0, p, true), Wake(0)] + [Answer(p)] == [Ask(p), Decide(0, p, true), Wake(0), Answer(p)];
  }

  lemma RoundNext(max: int, b: Board, p: string, order: seq<nat>, n: nat)
    requires n < |order| && SentAndPassed(b, p, order, n)
    ensures SentAndPassed(Step(max, Step(max, b, Dispatch(p)), Report(p, true, false)), p, order, n + 1)
  {
  }

  lemma {:induction false} RoundsPass(max: int, b: Board, p: string, order: seq<nat>, n: nat)
    requires n <= |order| && order != [] && SentAndPassed(b, p, order, 0)
    ensures SentAndPassed(Run(max, b, GoodRounds(p, n)), p, order, n)
  {
    if n > 0 {
      RoundsPass(max, b, p, order, n - 1);
      var before := GoodRounds(p, n - 1);
      RoundNext(max, Run(max, b, before), p, order, n - 1);
      RunMore(max, b, before, Dispatch(p));
      RunMore(max, b, before + [Dispatch(p)], Report(p, true, false));
      assert before + [Dispatch(p)] + [Report(p, true, false)] == GoodRounds(p, n);
    }
  }

  lemma FinishCompletes(max: int, b: Board, p: string, order: seq<nat>)
    requires SentAndPassed(b, p, order, |order|)
    ensures var e := Step(max, b, Finish(p));
            p in e.plans && e.plans[p].status == Completed && At(e, p, Done(Completed))
  {
  }

  lemma AcceptingRun(max: int, p: string, text: string, order: seq<nat>)
    requires max > 0 && '.' !in p && text != "" && IsOrder(order)
    ensures SentAndPassed(Run(max, Empty(), Accepting(p, text, order)), p, order, 0)
  {
    var asked := [CreatePlan(p, text), Start(p), Propose(p, order)];
    var answered := [Ask(p), Decide(0, p, true), Wake(0), Answer(p)];
    ProposedFirst(max, p, text, order);
    AcceptedNext(max, p, order, Run(max, Empty(), asked));
    RunConcat(max, Empty(), asked, answered);
    assert asked + answered == Accepting(p, text, order);
  }

  /** Every plan can be completed: accepted, and each of its subtasks going well. */
  lemma GoodRunCompletes(max: int, p: string, text: string, order: seq<nat>)
    requires max > 0 && '.' !in p && text != "" && IsOrder(order)
    ensures var e := Run(max, Empty(), Accepting(p, text, order) + GoodRounds(p, |order|) + [Finish(p)]);
            p in e.plans && e.plans[p].status == Completed && At(e, p, Done(Completed))
  {
    var first, rounds := Accepting(p, text, order), GoodRounds(p, |order|);
    AcceptingRun(max, p, text, order);
    RoundsPass(max, Run(max, Empty(), first), p, order, |order|);
    RunConcat(max, Empty(), first, rounds);
    RunMore(max, Empty(), first + rounds, Finish(p));
    FinishCompletes(max, Run(max, Empty(), first + rounds), p, order);
  }
}
