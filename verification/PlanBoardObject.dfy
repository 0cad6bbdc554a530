/** `JarvisPlanBoard`: its methods, each run alone, take exactly the steps of the state machine. */
module PlanBoardObject {
  import opened Basics
  import opened PlanBoard
  import opened PyText

  datatype Outcome = Plan(id: string) | PromptRequired | TooMany

  class JarvisPlanBoard {
    const maxConcurrent: int
    var plans: map<string, PlanCard>
    var subtasks: map<string, SubCard>
    var woken: set<string>
    var decisions: map<string, bool>
    ghost var threads: map<string, Thread>
    ghost var calls: map<nat, string>
    ghost var accepted: set<string>

    ghost function View(): Board
      reads this
    {
      Board(plans, subtasks, woken, decisions, threads, calls, accepted)
    }

    constructor (maxConcurrent: int)
      ensures this.maxConcurrent == maxConcurrent && View() == Empty()
    {
      this.maxConcurrent := maxConcurrent;
      plans, subtasks, woken, decisions := map[], map[], {}, map[];
      threads, calls, accepted := map[], map[], {};
    }

    /** `_running_count`. */
    method RunningCount() returns (n: nat)
      ensures n == |Open(View())|
    {
      n := 0;
      var left := plans.Keys;
      ghost var counted: set<string> := {};
      while left != {}
        invariant left <= plans.Keys && n == |counted|
        invariant counted == Open(View()) - left
        decreases |left|
      {
        var id := PickOne(left);
        if plans[id].status.Planning? || plans[id].status.Awaiting? {
          n := n + 1;
          counted := counted + {id};
        }
        left := left - {id};
      }
    }

    /** `create_plan`, with the id that `uuid4` gave. */
    method CreatePlan(id: string, prompt: string) returns (r: Outcome)
      requires FreshPlan(View(), id)
      modifies this
      ensures View() == Step(maxConcurrent, old(View()), Action.CreatePlan(id, Strip(prompt)))
      ensures r == if Strip(prompt) == "" then PromptRequired
                   else if |Open(old(View()))| >= maxConcurrent then TooMany else Plan(id)
    {
      if Strip(prompt) == "" {
        return PromptRequired;
      }
      var n := RunningCount();
      if n >= maxConcurrent {
        return TooMany;
      }
      plans := plans[id := PlanCard(Planning, [])];
      threads := threads[id := Thread(Created, [], 0, 0)];
      r := Plan(id);
    }

    /** `decide_plan`: only a plan that awaits can be decided. */
    method DecidePlan(ghost client: nat, id: string, accept: bool) returns (ok: bool)
      requires client !in calls
      modifies this
      ensures ok == (id in old(plans) && old(plans)[id].status.Awaiting?)
      ensures View() == Step(maxConcurrent, Step(maxConcurrent, old(View()), Decide(client, id, accept)), Wake(client))
    {
      if id !in plans || !plans[id].status.Awaiting? {
        return false;
      }
      decisions := decisions[id := accept];
      accepted := if accept then accepted + {id} else accepted;
      woken := woken + {id};
      assert calls[client := id] - {client} == calls;
      ok := true;
    }

    /** The approver up to its wait. */
    method ShowPlan(id: string, order: seq<nat>)
      requires At(View(), id, InPlanner) && id in plans && IsOrder(order)
      modifies this
      ensures View() == Step(maxConcurrent, Step(maxConcurrent, old(View()), Propose(id, order)), Ask(id))
    {
      plans := plans[id := plans[id].(status := Awaiting)];
      threads := threads[id := Thread(Asking, order, 0, 0)];
      threads := threads[id := Thread(Waiting, order, 0, 0)];
    }

    /** The approver's answer after its wait; `woke` is what the wait returned. */
    method AnswerPlan(id: string, woke: bool) returns (approved: bool)
      requires At(View(), id, Waiting) && (woke ==> id in woken)
      modifies this`threads
      ensures approved == (woke && id in decisions && decisions[id])
      ensures View() == Step(maxConcurrent, old(View()), if woke then Answer(id) else Refuse(id))
    {
      approved := woke && id in decisions && decisions[id];
      threads := threads[id := threads[id].(phase := if approved then Dispatching else Ended(Denied))];
    }

    /** `_dispatch_subtask` up to the call of the worker. */
    method StartSubtask(id: string, sub: string)
      requires At(View(), id, Dispatching) && id in plans && threads[id].sent < |threads[id].order|
      requires sub == NextId(View(), id)
      modifies this
      ensures View() == Step(maxConcurrent, old(View()), Dispatch(id))
    {
      subtasks := subtasks[sub := SubCard(id, Running)];
      if sub !in plans[id].subtaskIds {
        plans := plans[id := plans[id].(subtaskIds := plans[id].subtaskIds + [sub])];
      } else {
        assert plans[id := plans[id]] == plans;
      }
      threads := threads[id := threads[id].(phase := Working, sent := threads[id].sent + 1)];
    }

    /** `_dispatch_subtask` from the worker's report on; `blank` says whether the controller
        then finds an artifact it needs to be blank. */
    method EndSubtask(id: string, sub: string, applied: bool, ghost blank: bool)
      requires At(View(), id, Working) && 0 < threads[id].sent <= |threads[id].order|
      requires sub == SubId(id, threads[id].order[threads[id].sent - 1])
      modifies this
      ensures View() == Step(maxConcurrent, old(View()), Report(id, applied, blank))
    {
      if sub in subtasks {
        subtasks := subtasks[sub := subtasks[sub].(status := if applied then Applied else NotApplied)];
      }
      ghost var th := threads[id];
      if !applied || blank {
        threads := threads[id := th.(phase := Ended(Failed))];
      } else if th.sent == |th.order| {
        threads := threads[id := th.(phase := Ended(Completed), passed := th.passed + 1)];
      } else {
        threads := threads[id := th.(phase := Dispatching, passed := th.passed + 1)];
      }
    }

    /** The end of `run_plan`: the controller's outcome becomes the plan's status. */
    method FinishPlan(id: string, outcome: Status)
      requires At(View(), id, Ended(outcome)) && id in plans
      modifies this
      ensures View() == Step(maxConcurrent, old(View()), Finish(id))
    {
      plans := plans[id := plans[id].(status := outcome)];
      threads := threads[id := threads[id].(phase := Done(outcome))];
    }
  }
}
