/** The plan approval board of jarvis_hud/jarvis_plan.py as a state machine. */
module PlanBoard {
  import PlanController
  import opened PyText

  /** The id of a plan's `idx`-th subtask, as the controller derives it. */
  function SubId(planId: string, idx: nat): string {
    PlanController.SubId(planId, idx)
  }

  // ---------- the state ----------

  datatype Status = Planning | Awaiting | Completed | Denied | Failed

  datatype PlanCard = PlanCard(status: Status, subtaskIds: seq<string>)

  datatype SubStatus = Running | Applied | NotApplied

  datatype SubCard = SubCard(planId: string, status: SubStatus)

  /** Where the thread of `run_plan` stands. */
  datatype Phase =
    | Created
    | InPlanner          // the planner's call and the controller's checks
    | Asking             // the card awaits; the approver has not fetched its event yet
    | Waiting            // blocked on the event
    | Dispatching        // between two subtasks
    | Working            // a subtask's worker is running
    | Ended(outcome: Status)  // the controller has returned, or an exception is being handled
    | Done(outcome: Status)

  /** A thread: the approved order, how many subtasks it has sent out and how many of them
      were applied and passed. */
  datatype Thread = Thread(phase: Phase, order: seq<nat>, sent: nat, passed: nat)

  datatype Board = Board(
    plans: map<string, PlanCard>,
    subtasks: map<string, SubCard>,
    woken: set<string>,            // plans whose event is set
    decisions: map<string, bool>,
    threads: map<string, Thread>,
    calls: map<nat, string>,       // decide requests still to set the event
    accepted: set<string>)         // plans for which decide_plan(accept) has returned true

  datatype Action =
    | CreatePlan(id: string, text: string)  // `text` is the stripped prompt
    | Decide(client: nat, id: string, accept: bool)
    | Wake(client: nat)
    | Start(id: string)
    | Reject(id: string)                    // no plan, or the plan is not well-formed
    | Propose(id: string, order: seq<nat>)  // the approver shows the validated plan
    | Ask(id: string)
    | Answer(id: string)
    | Refuse(id: string)                    // the wait times out, or the approver raises
    | Dispatch(id: string)
    | Report(id: string, applied: bool, blank: bool)
    | Crash(id: string)
    | Finish(id: string)

  // ---------- the steps ----------

  function Open(b: Board): set<string> {
    set p | p in b.plans && (b.plans[p].status.Planning? || b.plans[p].status.Awaiting?)
  }

  /** `uuid4().hex[:8]`: unused, and without the dot that separates subtask numbers. */
  predicate FreshPlan(b: Board, id: string) {
    id !in b.plans && '.' !in id
  }

  predicate At(b: Board, id: string, phase: Phase) {
    id in b.threads && b.threads[id].phase == phase
  }

  function Move(b: Board, id: string, phase: Phase): Board
    requires id in b.threads
  {
    b.(threads := b.threads[id := b.threads[id].(phase := phase)])
  }

  function SetStatus(b: Board, id: string, status: Status): Board
    requires id in b.plans
  {
    b.(plans := b.plans[id := b.plans[id].(status := status)])
  }

  predicate IsOrder(order: seq<nat>) {
    && order != []
    && (forall i :: 0 <= i < |order| ==> order[i] < |order|)
    && (forall i, j :: 0 <= i < j < |order| ==> order[i] != order[j])
  }

  function NextId(b: Board, id: string): string
    requires id in b.threads && b.threads[id].sent < |b.threads[id].order|
  {
    SubId(id, b.threads[id].order[b.threads[id].sent])
  }

  /** The first half of `_dispatch_subtask`: the subtask's card, and its place in the plan's. */
  function DispatchStep(b: Board, id: string): Board
    requires id in b.plans && id in b.threads && b.threads[id].sent < |b.threads[id].order|
  {
    var sub, card, th := NextId(b, id), b.plans[id], b.threads[id];
    b.(subtasks := b.subtasks[sub := SubCard(id, Running)],
       plans := b.plans[id := card.(subtaskIds := if sub in card.subtaskIds then card.subtaskIds else card.subtaskIds + [sub])],
       threads := b.threads[id := th.(phase := Working, sent := th.sent + 1)])
  }

  /** The second half, and the controller's turn to the next subtask. */
  function ReportStep(b: Board, id: string, applied: bool, blank: bool): Board
    requires id in b.threads && 0 < b.threads[id].sent <= |b.threads[id].order|
  {
    var th := b.threads[id];
    var sub := SubId(id, th.order[th.sent - 1]);
    var passed := if applied && !blank then th.passed + 1 else th.passed;
    var phase := if !applied || blank then Ended(Failed) else if th.sent == |th.order| then Ended(Completed) else Dispatching;
    b.(subtasks := if sub in b.subtasks
                   then b.subtasks[sub := b.subtasks[sub].(status := if applied then Applied else NotApplied)] else b.subtasks,
       threads := b.threads[id := th.(phase := phase, passed := passed)])
  }

  /** One step; a step that is not possible changes nothing. */
  function Step(max: int, b: Board, a: Action): Board {
    match a
    case CreatePlan(id, text) =>
      if FreshPlan(b, id) && text != "" && |Open(b)| < max
      then b.(plans := b.plans[id := PlanCard(Planning, [])], threads := b.threads[id := Thread(Created, [], 0, 0)]) else b
    case Decide(client, id, accept) =>
      if client !in b.calls && id in b.plans && b.plans[id].status.Awaiting?
      then b.(decisions := b.decisions[id := accept], calls := b.calls[client := id],
              accepted := if accept then b.accepted + {id} else b.accepted) else b
    case Wake(client) =>
      if client in b.calls then b.(woken := b.woken + {b.calls[client]}, calls := b.calls - {client}) else b
    case Start(id) => if At(b, id, Created) then Move(b, id, InPlanner) else b
    case Reject(id) => if At(b, id, InPlanner) then Move(b, id, Ended(Failed)) else b
    case Propose(id, order) =>
      if At(b, id, InPlanner) && id in b.plans && IsOrder(order)
      then SetStatus(b, id, Awaiting).(threads := b.threads[id := Thread(Asking, order, 0, 0)]) else b
    case Ask(id) => if At(b, id, Asking) then Move(b, id, Waiting) else b
    case Answer(id) =>
      if At(b, id, Waiting) && id in b.woken
      then Move(b, id, if id in b.decisions && b.decisions[id] then Dispatching else Ended(Denied)) else b
    case Refuse(id) => if At(b, id, InPlanner) || At(b, id, Asking) || At(b, id, Waiting) then Move(b, id, Ended(Denied)) else b
    case Dispatch(id) =>
      if At(b, id, Dispatching) && id in b.plans && b.threads[id].sent < |b.threads[id].order| then DispatchStep(b, id) else b
    case Report(id, applied, blank) =>
      if At(b, id, Working) && 0 < b.threads[id].sent <= |b.threads[id].order| then ReportStep(b, id, applied, blank) else b
    case Crash(id) =>
      if id in b.threads && !b.threads[id].phase.Ended? && !b.threads[id].phase.Done? then Move(b, id, Ended(Failed)) else b
    case Finish(id) =>
      if id in b.threads && b.threads[id].phase.Ended? && id in b.plans
      then Move(SetStatus(b, id, b.threads[id].phase.outcome), id, Done(b.threads[id].phase.outcome)) else b
  }

  function Run(max: int, b: Board, actions: seq<Action>): Board
    decreases |actions|
  {
    if actions == [] then b
    else Step(max, Run(max, b, actions[..|actions| - 1]), actions[|actions| - 1])
  }

  function Empty(): Board {
    Board(map[], map[], {}, map[], map[], map[], {})
  }

  // ---------- subtask ids ----------

  /** Plans whose ids have no dot never share a subtask id. */
  lemma SubIdsDiffer(p: string, q: string, i: nat, j: nat)
    requires '.' !in p && '.' !in q && SubId(p, i) == SubId(q, j)
    ensures p == q && i == j
  {
    var s := SubId(p, i);
    assert s[|p|] == '.' && s[|q|] == '.';
    assert s[..|p|] == p && s[..|q|] == q;
    PlanController.SubIdInjective(p, i, j);
  }

  // ---------- what every step keeps ----------

  /** The ids of the first `n` subtasks of an order. */
  function SentIds(p: string, order: seq<nat>, n: nat): seq<string>
    requires n <= |order|
  {
    if n == 0 then [] else SentIds(p, order, n - 1) + [SubId(p, order[n - 1])]
  }

  predicate ThreadSound(th: Thread) {
    && th.passed <= th.sent <= |th.order|
    && (th.order == [] || IsOrder(th.order))
    && (th.phase.Created? || th.phase.InPlanner? ==> th.order == [])
    && (th.phase.Asking? || th.phase.Waiting? ==> th.sent == 0 && th.order != [])
    && (th.phase.Dispatching? ==> th.passed == th.sent < |th.order|)
    && (th.phase.Working? ==> th.sent == th.passed + 1)
    && (th.phase == Ended(Completed) || th.phase == Done(Completed) ==> th.passed == |th.order| > 0)
    && (th.phase == Ended(Denied) || th.phase == Done(Denied) ==> th.sent == 0)
    && (th.phase.Ended? || th.phase.Done? ==> th.phase.outcome in {Completed, Denied, Failed})
  }

  predicate CardSound(p: string, card: PlanCard, th: Thread) {
    && th.sent <= |th.order| && card.subtaskIds == SentIds(p, th.order, th.sent)
    && (card.status == if th.phase.Done? then th.phase.outcome else if th.order == [] then Planning else Awaiting)
  }

  ghost predicate PlanSound(b: Board, p: string) {
    && (p in b.plans <==> p in b.threads)
    && (p in b.plans ==>
          && '.' !in p && ThreadSound(b.threads[p]) && CardSound(p, b.plans[p], b.threads[p])
          && (b.threads[p].phase.Dispatching? || b.threads[p].sent > 0 ==> p in b.accepted))
    && (p in b.decisions && b.decisions[p] ==> p in b.accepted)
  }

  /** The `i`-th subtask that plan `p` sent out has its card, applied if it passed. */
  predicate SentSound(b: Board, p: string, i: nat)
    requires p in b.threads && i < |b.threads[p].order|
  {
    var sub := SubId(p, b.threads[p].order[i]);
    && sub in b.subtasks && b.subtasks[sub].planId == p
    && (i < b.threads[p].passed ==> b.subtasks[sub].status == Applied)
  }

  /** A subtask card belongs to a plan that sent it out. */
  ghost predicate SubSound(b: Board, sub: string) {
    sub in b.subtasks ==>
      && b.subtasks[sub].planId in b.threads
      && exists i: nat :: SentAs(b, sub, i)
  }

  predicate SentAs(b: Board, sub: string, i: nat)
    requires sub in b.subtasks && b.subtasks[sub].planId in b.threads
  {
    var th := b.threads[b.subtasks[sub].planId];
    i < th.sent && i < |th.order| && sub == SubId(b.subtasks[sub].planId, th.order[i])
  }

  ghost predicate PlansSound(b: Board) {
    forall p {:trigger PlanSound(b, p)} :: PlanSound(b, p)
  }

  ghost predicate AllSent(b: Board, p: string)
    requires p in b.threads
  {
    forall i: nat {:trigger SentSound(b, p, i)} :: i < b.threads[p].sent && i < |b.threads[p].order| ==> SentSound(b, p, i)
  }

  ghost predicate Inv(b: Board) {
    && PlansSound(b)
    && (forall p {:trigger AllSent(b, p)} :: p in b.threads ==> AllSent(b, p))
    && (forall sub {:trigger SubSound(b, sub)} :: SubSound(b, sub))
  }
}
