/** What holds of every run of the plan board, however its threads and decisions interleave. */
module PlanBoardSafety {
  import opened Basics
  import opened PlanBoard

  // ---------- every step keeps the invariant ----------

  ghost predicate SamePlan(b: Board, next: Board, q: string) {
    && (q in next.plans <==> q in b.plans) && (q in b.plans ==> next.plans[q] == b.plans[q])
    && (q in next.threads <==> q in b.threads) && (q in b.threads ==> next.threads[q] == b.threads[q])
    && (q in next.decisions <==> q in b.decisions) && (q in b.decisions ==> next.decisions[q] == b.decisions[q])
    && (q in next.accepted <==> q in b.accepted)
  }

  ghost predicate SameElsewhere(b: Board, next: Board, p: string) {
    forall q {:trigger SamePlan(b, next, q)} :: q != p ==> SamePlan(b, next, q)
  }

  lemma PlansKept(b: Board, next: Board, p: string)
    requires PlansSound(b) && SameElsewhere(b, next, p) && PlanSound(next, p)
    ensures PlansSound(next)
  {
    forall q ensures PlanSound(next, q) {
      if q != p { assert SamePlan(b, next, q) && PlanSound(b, q); }
    }
  }

  /** The plan `p` has sent out and passed what it had before. */
  ghost predicate SameSent(b: Board, next: Board, p: string) {
    p in b.threads ==>
      && p in next.threads && next.threads[p].sent == b.threads[p].sent && next.threads[p].passed == b.threads[p].passed
      && (next.threads[p].order == b.threads[p].order || b.threads[p].sent == 0)
  }

  lemma QuietStepKeeps(b: Board, next: Board, p: string)
    requires Inv(b) && SameElsewhere(b, next, p) && PlanSound(next, p) && next.subtasks == b.subtasks && SameSent(b, next, p)
    requires p !in b.threads && p in next.threads ==> next.threads[p].sent == 0
    ensures Inv(next)
  {
    PlansKept(b, next, p);
    forall q | q in next.threads ensures AllSent(next, q) {
      SentKept(b, next, p, q);
    }
    forall sub ensures SubSound(next, sub) {
      SubKept(b, next, p, sub);
    }
  }

  lemma SentKept(b: Board, next: Board, p: string, q: string)
    requires Inv(b) && SameElsewhere(b, next, p) && next.subtasks == b.subtasks && SameSent(b, next, p)
    requires p !in b.threads && p in next.threads ==> next.threads[p].sent == 0
    requires q in next.threads
    ensures AllSent(next, q)
  {
    assert q != p ==> SamePlan(b, next, q);
    if q in b.threads {
      assert AllSent(b, q);
      forall i: nat | i < next.threads[q].sent && i < |next.threads[q].order| ensures SentSound(next, q, i) {
        assert SentSound(b, q, i);
      }
    }
  }

  lemma SubKept(b: Board, next: Board, p: string, sub: string)
    requires Inv(b) && SameElsewhere(b, next, p) && next.subtasks == b.subtasks && SameSent(b, next, p)
    ensures SubSound(next, sub)
  {
    assert SubSound(b, sub);
    if sub in b.subtasks {
      var q := b.subtasks[sub].planId;
      assert q != p ==> SamePlan(b, next, q);
      var i: nat :| SentAs(b, sub, i);
      assert SentAs(next, sub, i);
    }
  }

  lemma CreateKeeps(b: Board, max: int, id: string, text: string)
    requires Inv(b) && FreshPlan(b, id)
    ensures Inv(Step(max, b, CreatePlan(id, text)))
  {
    var next := Step(max, b, CreatePlan(id, text));
    assert PlanSound(b, id);
    assert SentIds(id, [], 0) == [];
    QuietStepKeeps(b, next, id);
  }

  lemma DecideKeeps(b: Board, max: int, client: nat, id: string, accept: bool)
    requires Inv(b)
    ensures Inv(Step(max, b, Decide(client, id, accept)))
  {
    assert PlanSound(b, id);
    QuietStepKeeps(b, Step(max, b, Decide(client, id, accept)), id);
  }

  lemma WakeKeeps(b: Board, max: int, client: nat)
    requires Inv(b)
    ensures Inv(Step(max, b, Wake(client)))
  {
    assert PlanSound(b, "");
    QuietStepKeeps(b, Step(max, b, Wake(client)), "");
  }

  lemma ProposeKeeps(b: Board, max: int, id: string, order: seq<nat>)
    requires Inv(b)
    ensures Inv(Step(max, b, Propose(id, order)))
  {
    assert PlanSound(b, id);
    assert SentIds(id, order, 0) == [];
    QuietStepKeeps(b, Step(max, b, Propose(id, order)), id);
  }

  lemma FinishKeeps(b: Board, max: int, id: string)
    requires Inv(b)
    ensures Inv(Step(max, b, Finish(id)))
  {
    assert PlanSound(b, id);
    QuietStepKeeps(b, Step(max, b, Finish(id)), id);
  }

  predicate PhaseOnly(a: Action) {
    a.Start? || a.Reject? || a.Ask? || a.Answer? || a.Refuse? || a.Crash?
  }

  lemma MoveKeeps(b: Board, id: string, phase: Phase)
    requires Inv(b) && id in b.threads && !b.threads[id].phase.Done? && !phase.Done?
    requires ThreadSound(b.threads[id].(phase := phase))
    requires phase.Dispatching? ==> id in b.accepted
    ensures Inv(Move(b, id, phase))
  {
    assert PlanSound(b, id);
    QuietStepKeeps(b, Move(b, id, phase), id);
  }

  lemma VerdictSound(b: Board, id: string)
    requires Inv(b)
    ensures id in b.decisions && b.decisions[id] ==> id in b.accepted
    ensures id in b.threads ==> ThreadSound(b.threads[id])
  {
    assert PlanSound(b, id);
  }

  lemma PhaseKeeps(b: Board, max: int, a: Action)
    requires Inv(b) && PhaseOnly(a)
    ensures Inv(Step(max, b, a))
  {
    VerdictSound(b, a.id);
    var next := Step(max, b, a);
    if next != b { MoveKeeps(b, a.id, next.threads[a.id].phase); }
  }

  // ---------- sending out a subtask, and its report ----------

  lemma {:induction false} SentIdsAre(p: string, order: seq<nat>, n: nat)
    requires n <= |order|
    ensures |SentIds(p, order, n)| == n && forall k :: 0 <= k < n ==> SentIds(p, order, n)[k] == SubId(p, order[k])
  {
    if n > 0 { SentIdsAre(p, order, n - 1); }
  }

  lemma NotSentYet(p: string, order: seq<nat>, n: nat)
    requires IsOrder(order) && n < |order| && '.' !in p
    ensures SubId(p, order[n]) !in SentIds(p, order, n)
  {
    SentIdsAre(p, order, n);
    forall k | 0 <= k < n ensures SubId(p, order[k]) != SubId(p, order[n]) {
      if SubId(p, order[k]) == SubId(p, order[n]) { SubIdsDiffer(p, p, order[k], order[n]); }
    }
  }

  /** Plan `p` sent out its `n`-th subtask: only that card differs. */
  ghost predicate OneCard(b: Board, next: Board, sub: string, p: string) {
    next.subtasks.Keys == b.subtasks.Keys + {sub} && next.subtasks[sub].planId == p
    && forall s :: s in b.subtasks && s != sub ==> next.subtasks[s] == b.subtasks[s]
  }

  lemma OtherSent(b: Board, next: Board, p: string, idx: nat, q: string)
    requires Inv(b) && SameElsewhere(b, next, p) && q != p && q in next.threads && '.' !in p
    requires OneCard(b, next, SubId(p, idx), p)
    ensures AllSent(next, q)
  {
    assert SamePlan(b, next, q) && PlanSound(b, q) && AllSent(b, q);
    forall i: nat | i < next.threads[q].sent && i < |next.threads[q].order| ensures SentSound(next, q, i) {
      assert SentSound(b, q, i);
      if SubId(q, b.threads[q].order[i]) == SubId(p, idx) { SubIdsDiffer(q, p, b.threads[q].order[i], idx); }
    }
  }

  lemma OtherSub(b: Board, next: Board, p: string, sub: string, s: string)
    requires Inv(b) && SameElsewhere(b, next, p) && OneCard(b, next, sub, p) && s != sub && s in next.subtasks
    requires p in b.threads && p in next.threads
    requires next.threads[p].order == b.threads[p].order && next.threads[p].sent >= b.threads[p].sent
    ensures SubSound(next, s)
  {
    assert SubSound(b, s);
    var q := b.subtasks[s].planId;
    assert q != p ==> SamePlan(b, next, q);
    var i: nat :| SentAs(b, s, i);
    assert SentAs(next, s, i);
  }

  lemma WorkKeeps(b: Board, next: Board, p: string, n: nat)
    requires Inv(b) && SameElsewhere(b, next, p) && PlanSound(next, p) && p in b.threads && p in next.threads
    requires next.threads[p].order == b.threads[p].order && next.threads[p].sent >= b.threads[p].sent
    requires n < next.threads[p].sent && n < |b.threads[p].order| && '.' !in p
    requires OneCard(b, next, SubId(p, b.threads[p].order[n]), p) && AllSent(next, p)
    ensures Inv(next)
  {
    var sub := SubId(p, b.threads[p].order[n]);
    PlansKept(b, next, p);
    forall q | q in next.threads ensures AllSent(next, q) {
      if q != p { OtherSent(b, next, p, b.threads[p].order[n], q); }
    }
    forall s ensures SubSound(next, s) {
      if s == sub {
        assert SentAs(next, s, n);
      } else if s in next.subtasks {
        OtherSub(b, next, p, sub, s);
      }
    }
  }

  lemma DispatchKeeps(b: Board, p: string)
    requires Inv(b) && p in b.plans && At(b, p, Dispatching) && b.threads[p].sent < |b.threads[p].order|
    ensures Inv(DispatchStep(b, p))
  {
    var next, th := DispatchStep(b, p), b.threads[p];
    assert PlanSound(b, p) && AllSent(b, p);
    NotSentYet(p, th.order, th.sent);
    forall i: nat | i < next.threads[p].sent && i < |th.order| ensures SentSound(next, p, i) {
      if i < th.sent {
        assert SentSound(b, p, i);
        SubIdsDistinct(p, th.order, i, th.sent);
      }
    }
    WorkKeeps(b, next, p, th.sent);
  }

  lemma SubIdsDistinct(p: string, order: seq<nat>, i: nat, j: nat)
    requires IsOrder(order) && i < j < |order| && '.' !in p
    ensures SubId(p, order[i]) != SubId(p, order[j])
  {
    if SubId(p, order[i]) == SubId(p, order[j]) { SubIdsDiffer(p, p, order[i], order[j]); }
  }

  lemma ReportKeeps(b: Board, p: string, applied: bool, blank: bool)
    requires Inv(b) && At(b, p, Working) && 0 < b.threads[p].sent <= |b.threads[p].order|
    ensures Inv(ReportStep(b, p, applied, blank))
  {
    var next, th := ReportStep(b, p, applied, blank), b.threads[p];
    assert PlanSound(b, p) && AllSent(b, p);
    assert SentSound(b, p, th.sent - 1);
    forall i: nat | i < next.threads[p].sent && i < |th.order| ensures SentSound(next, p, i) {
      assert SentSound(b, p, i);
      if i < th.sent - 1 { SubIdsDistinct(p, th.order, i, th.sent - 1); }
    }
    WorkKeeps(b, next, p, th.sent - 1);
  }

  /** Every step of every thread keeps the invariant. */
  lemma StepKeeps(max: int, b: Board, a: Action)
    requires Inv(b)
    ensures Inv(Step(max, b, a))
  {
    match a
    case CreatePlan(id, text) => if FreshPlan(b, id) { CreateKeeps(b, max, id, text); }
    case Decide(client, id, accept) => DecideKeeps(b, max, client, id, accept);
    case Wake(client) => WakeKeeps(b, max, client);
    case Propose(id, order) => ProposeKeeps(b, max, id, order);
    case Dispatch(id) =>
      if At(b, id, Dispatching) && id in b.plans && b.threads[id].sent < |b.threads[id].order| { DispatchKeeps(b, id); }
    case Report(id, applied, blank) =>
      if At(b, id, Working) && 0 < b.threads[id].sent <= |b.threads[id].order| { ReportKeeps(b, id, applied, blank); }
    case Finish(id) => FinishKeeps(b, max, id);
    case _ => PhaseKeeps(b, max, a);
  }

  lemma {:induction false} RunSound(max: int, actions: seq<Action>)
    ensures Inv(Run(max, Empty(), actions))
    decreases |actions|
  {
    if actions == [] {
      assert forall p :: PlanSound(Empty(), p);
    } else {
      RunSound(max, actions[..|actions| - 1]);
      StepKeeps(max, Run(max, Empty(), actions[..|actions| - 1]), actions[|actions| - 1]);
    }
  }

  // ---------- safety ----------

  /** The `i`-th action is an acceptance of plan `p` that returned true. */
  ghost predicate AcceptedAt(max: int, actions: seq<Action>, i: nat, p: string)
    requires i < |actions|
  {
    var b := Run(max, Empty(), actions[..i]);
    actions[i].Decide? && actions[i].id == p && actions[i].accept && p in b.plans && b.plans[p].status.Awaiting?
  }

  lemma AcceptanceStep(max: int, b: Board, a: Action, p: string)
    requires p in Step(max, b, a).accepted && p !in b.accepted
    ensures a.Decide? && a.id == p && a.accept && p in b.plans && b.plans[p].status.Awaiting?
  {
  }

  lemma {:induction false} AcceptedMeansDecided(max: int, actions: seq<Action>, p: string)
    requires p in Run(max, Empty(), actions).accepted
    ensures exists i: nat :: i < |actions| && AcceptedAt(max, actions, i, p)
    decreases |actions|
  {
    if actions != [] {
      var n := |actions| - 1;
      var front := actions[..n];
      if p in Run(max, Empty(), front).accepted {
        AcceptedMeansDecided(max, front, p);
        var i: nat :| i < |front| && AcceptedAt(max, front, i, p);
        assert front[..i] == actions[..i];
        assert AcceptedAt(max, actions, i, p);
      } else {
        AcceptanceStep(max, Run(max, Empty(), front), actions[n], p);
        assert AcceptedAt(max, actions, n, p);
      }
    }
  }

  /** A subtask card exists only for a plan that the user accepted while it awaited approval. */
  lemma SubtaskNeedsAcceptance(max: int, actions: seq<Action>, sub: string)
    requires sub in Run(max, Empty(), actions).subtasks
    ensures var p := Run(max, Empty(), actions).subtasks[sub].planId;
            exists i: nat :: i < |actions| && AcceptedAt(max, actions, i, p)
  {
    var b := Run(max, Empty(), actions);
    RunSound(max, actions);
    assert SubSound(b, sub) && PlanSound(b, b.subtasks[sub].planId);
    AcceptedMeansDecided(max, actions, b.subtasks[sub].planId);
  }

  /** A denied plan has sent nothing out. */
  lemma DeniedHasNoSubtasks(max: int, actions: seq<Action>, p: string)
    requires var b := Run(max, Empty(), actions); p in b.plans && b.plans[p].status.Denied?
    ensures var b := Run(max, Empty(), actions);
            b.plans[p].subtaskIds == [] && forall s :: s in b.subtasks ==> b.subtasks[s].planId != p
  {
    var b := Run(max, Empty(), actions);
    RunSound(max, actions);
    assert PlanSound(b, p);
    forall s | s in b.subtasks ensures b.subtasks[s].planId != p {
      assert SubSound(b, s);
    }
  }

  /** A completed plan lists one card for each subtask of its order, all different, each its
      own and applied. */
  lemma CompletedIsApplied(max: int, actions: seq<Action>, p: string)
    requires var b := Run(max, Empty(), actions); p in b.plans && b.plans[p].status.Completed?
    ensures var b := Run(max, Empty(), actions);
            p in b.threads &&
            var order, ids := b.threads[p].order, b.plans[p].subtaskIds;
            && IsOrder(order) && |ids| == |order|
            && (forall k :: 0 <= k < |ids| ==>
                  ids[k] == SubId(p, order[k]) && ids[k] in b.subtasks && b.subtasks[ids[k]] == SubCard(p, Applied))
            && (forall i, j :: 0 <= i < j < |ids| ==> ids[i] != ids[j])
  {
    var b := Run(max, Empty(), actions);
    RunSound(max, actions);
    assert PlanSound(b, p) && AllSent(b, p);
    var order, ids := b.threads[p].order, b.plans[p].subtaskIds;
    SentIdsAre(p, order, |order|);
    forall k | 0 <= k < |ids| ensures ids[k] in b.subtasks && b.subtasks[ids[k]] == SubCard(p, Applied) {
      assert SentSound(b, p, k);
    }
    forall i, j | 0 <= i < j < |ids| ensures ids[i] != ids[j] {
      SubIdsDistinct(p, order, i, j);
    }
  }

  lemma {:induction false} RefusedStays(max: int, b: Board, after: seq<Action>, p: string)
    requires Inv(b) && p in b.threads && b.threads[p].phase in {Ended(Denied), Done(Denied)}
    ensures var e := Run(max, b, after);
            p in e.threads && e.threads[p].phase in {Ended(Denied), Done(Denied)} && Inv(e)
    decreases |after|
  {
    if after != [] {
      var front := after[..|after| - 1];
      RefusedStays(max, b, front, p);
      StepKeeps(max, Run(max, b, front), after[|after| - 1]);
      RefusedStep(max, Run(max, b, front), after[|after| - 1], p);
    }
  }

  /** The approver returns false: its event is set without an accepting decision, its wait times
      out, or it raises. */
  predicate ApproverDenies(b: Board, a: Action, p: string) {
    || (a == Answer(p) && At(b, p, Waiting) && p in b.woken && !(p in b.decisions && b.decisions[p]))
    || (a == Refuse(p) && (At(b, p, InPlanner) || At(b, p, Asking) || At(b, p, Waiting)))
  }

  /** These are exactly the steps that end a plan's run as denied. */
  lemma DeniedOnlyByApprover(max: int, b: Board, a: Action, p: string)
    requires Inv(b) && !At(b, p, Ended(Denied))
    ensures At(Step(max, b, a), p, Ended(Denied)) <==> ApproverDenies(b, a, p)
  {
    assert PlanSound(b, p);
  }

  lemma NothingOfDenied(b: Board, p: string)
    requires Inv(b) && p in b.threads && b.threads[p].phase in {Ended(Denied), Done(Denied)}
    ensures p in b.plans && b.plans[p].subtaskIds == [] && forall s :: s in b.subtasks ==> b.subtasks[s].planId != p
    ensures if At(b, p, Done(Denied)) then b.plans[p].status == Denied else b.plans[p].status in {Planning, Awaiting}
  {
    assert PlanSound(b, p);
    forall s | s in b.subtasks ensures b.subtasks[s].planId != p {
      assert SubSound(b, s);
    }
  }

  /** Once its approver has returned false, by a decision, a timeout or an exception, a plan
      sends nothing out and can only end denied, whatever is decided later. */
  lemma RefusedEndsDenied(max: int, before: seq<Action>, a: Action, p: string, after: seq<Action>)
    requires ApproverDenies(Run(max, Empty(), before), a, p)
    ensures var e := Run(max, Step(max, Run(max, Empty(), before), a), after);
            && p in e.plans && p in e.threads && e.threads[p].phase in {Ended(Denied), Done(Denied)}
            && (if At(e, p, Done(Denied)) then e.plans[p].status == Denied else e.plans[p].status in {Planning, Awaiting})
            && e.plans[p].subtaskIds == [] && forall s :: s in e.subtasks ==> e.subtasks[s].planId != p
  {
    var b := Run(max, Empty(), before);
    RunSound(max, before);
    StepKeeps(max, b, a);
    DeniedOnlyByApprover(max, b, a, p);
    RefusedStays(max, Step(max, b, a), after, p);
    NothingOfDenied(Run(max, Step(max, b, a), after), p);
  }

  lemma RefusedStep(max: int, b: Board, a: Action, p: string)
    requires Inv(b) && p in b.threads && b.threads[p].phase in {Ended(Denied), Done(Denied)}
    ensures p in Step(max, b, a).threads && Step(max, b, a).threads[p].phase in {Ended(Denied), Done(Denied)}
  {
    assert PlanSound(b, p);
  }

  /** The cap on open plans always holds: unlike a task, a plan that has ended stays ended. */
  lemma {:induction false} CapHolds(max: int, actions: seq<Action>)
    ensures |Open(Run(max, Empty(), actions))| <= if max < 0 then 0 else max
    decreases |actions|
  {
    if actions != [] {
      var b, a := Run(max, Empty(), actions[..|actions| - 1]), actions[|actions| - 1];
      CapHolds(max, actions[..|actions| - 1]);
      RunSound(max, actions[..|actions| - 1]);
      OpenStep(max, b, a);
      if Open(Step(max, b, a)) <= Open(b) {
        SubsetSize(Open(Step(max, b, a)), Open(b));
      } else {
        SubsetSize(Open(Step(max, b, a)), Open(b) + {a.id});
      }
    } else {
      assert Open(Empty()) == {};
    }
  }

  lemma OpenStep(max: int, b: Board, a: Action)
    requires Inv(b)
    ensures var next := Open(Step(max, b, a));
            next <= Open(b) || (a.CreatePlan? && next <= Open(b) + {a.id} && |Open(b)| < max)
  {
    forall p | p in Open(Step(max, b, a)) && p !in Open(b)
      ensures a.CreatePlan? && a.id == p && |Open(b)| < max {
      assert PlanSound(b, p);
    }
  }
}
