/** `PlanController.run` itself, proved against the declarative reading of plans. */
module PlanRun {
  import opened Basics
  import opened PyText
  import opened PlanGraph
  import opened PlanController

  // ---------- the checks, in the order `run` makes them ----------

  method CheckSchema(cfg: Config, plan: BossPlan) returns (fault: Option<Fault>)
    ensures fault.None? <==> SchemaOk(cfg, plan.subtasks)
    ensures fault.Some? ==> Present(cfg, plan, fault.value)
  {
    var s := plan.subtasks;
    if s == [] {
      return Some(EmptyPlan);
    }
    for i := 0 to |s|
      invariant forall j :: 0 <= j < i ==> !Blank(s[j].desc) && s[j].workerKind in cfg.kindTable
    {
      if Blank(s[i].desc) {
        return Some(BlankDesc(i));
      }
      if s[i].workerKind !in cfg.kindTable {
        return Some(UnknownKind(i));
      }
    }
    return if |s| > cfg.maxSteps then Some(TooManySteps) else None;
  }

  method CheckGraph(cfg: Config, plan: BossPlan) returns (fault: Option<Fault>, order: seq<int>)
    ensures fault.None? <==> InRange(DepGraph(plan.subtasks)) && Acyclic(DepGraph(plan.subtasks))
    ensures fault.Some? ==> Present(cfg, plan, fault.value)
    ensures fault.None? ==> IsTopological(DepGraph(plan.subtasks), order)
  {
    var s, g := plan.subtasks, DepGraph(plan.subtasks);
    order := [];
    for i := 0 to |s|
      invariant forall j, d :: 0 <= j < i && d in s[j].dependsOn ==> 0 <= d < |s|
    {
      for k := 0 to |s[i].dependsOn|
        invariant forall l :: 0 <= l < k ==> 0 <= s[i].dependsOn[l] < |s|
      {
        var d := s[i].dependsOn[k];
        if !(0 <= d < |s|) {
          assert d in g[i];
          return Some(DependencyOutOfRange(i, d)), [];
        }
        if d == i {
          DirectDependency(g, i, i);
          return Some(SelfDependency(i)), [];
        }
      }
    }
    assert forall j :: 0 <= j < |s| ==> g[j] == s[j].dependsOn;
    var sorted := StaticOrder(g);
    match sorted {
      case None => return Some(Cycle), [];
      case Some(o) => return None, o;
    }
  }

  method MapWorkers(cfg: Config, plan: BossPlan) returns (fault: Option<Fault>, aliases: seq<string>, warnings: seq<CapabilityWarning>)
    requires SchemaOk(cfg, plan.subtasks)
    ensures fault.None? <==> WorkersOk(cfg, plan.subtasks)
    ensures fault.Some? ==> Present(cfg, plan, fault.value)
    ensures fault.None? ==> |aliases| == |plan.subtasks|
    ensures fault.None? ==> forall i :: 0 <= i < |aliases| ==> aliases[i] == cfg.kindTable[plan.subtasks[i].workerKind]
    ensures fault.None? ==> warnings == CapabilityGaps(plan.subtasks, |plan.subtasks|)
  {
    var s := plan.subtasks;
    aliases, warnings := [], [];
    for i := 0 to |s|
      invariant |aliases| == i
      invariant forall j :: 0 <= j < i ==> aliases[j] == cfg.kindTable[s[j].workerKind] && aliases[j] in cfg.registered
    {
      var alias := cfg.kindTable[s[i].workerKind];
      if alias !in cfg.registered {
        return Some(UnregisteredAlias(i)), [], [];
      }
      aliases := aliases + [alias];
    }
    var needsExec := exists i :: 0 <= i < |s| && s[i].requiresExecution;
    if needsExec && cfg.kindTable.Keys * EXECUTING_KINDS == {} {
      return Some(NoExecutingWorker), [], [];
    }
    return None, aliases, CapabilityGaps(s, |s|);
  }

  /** Subtasks below `below` that need execution but are routed to a non-executing kind. */
  function CapabilityGaps(s: seq<PlanSubtask>, below: nat): seq<CapabilityWarning>
    requires below <= |s|
  {
    if below == 0 then []
    else
      CapabilityGaps(s, below - 1) +
      (if s[below - 1].requiresExecution && s[below - 1].workerKind !in EXECUTING_KINDS
       then [CapabilityWarning(below - 1, s[below - 1].workerKind)] else [])
  }

  // ---------- contracts and data flow ----------

  /** `consume_artifacts.get(c, [])`. */
  function Given(consumes: map<int, seq<Named>>, c: int): seq<Named> {
    if c in consumes then consumes[c] else []
  }

  /** Hand `item` to every target, in whatever order the set is iterated; stop at the first
      target of a kind that may not consume. */
  method Share(cfg: Config, s: seq<PlanSubtask>, item: Named, targets: set<int>, consumes0: map<int, seq<Named>>)
      returns (bad: Option<int>, consumes: map<int, seq<Named>>)
    requires forall c :: c in targets ==> 0 <= c < |s|
    ensures bad.Some? ==> bad.value in targets && !ConsumeOk(cfg, s[bad.value].workerKind)
    ensures bad.None? ==> forall c :: c in targets ==> ConsumeOk(cfg, s[c].workerKind)
    ensures bad.None? ==> forall c :: Given(consumes, c) == Given(consumes0, c) + (if c in targets then [item] else [])
  {
    consumes := consumes0;
    var left := targets;
    while left != {}
      invariant left <= targets
      invariant forall c :: c in targets - left ==> ConsumeOk(cfg, s[c].workerKind)
      invariant forall c :: Given(consumes, c) == Given(consumes0, c) + (if c in targets - left then [item] else [])
      decreases |left|
    {
      var c := PickOne(left);
      if !ConsumeOk(cfg, s[c].workerKind) {
        return Some(c), consumes0;
      }
      consumes := consumes[c := Given(consumes, c) + [item]];
      StrictSubsetSize(left, c);
      left := left - {c};
    }
    return None, consumes;
  }

  ghost function Names(contracts: seq<Contract>): set<string> {
    if contracts == [] then {}
    else Names(contracts[..|contracts| - 1]) + {contracts[|contracts| - 1].name}
  }

  lemma {:induction false} NameListed(contracts: seq<Contract>, k: nat)
    requires k < |contracts|
    ensures contracts[k].name in Names(contracts)
  {
    if k < |contracts| - 1 {
      NameListed(contracts[..|contracts| - 1], k);
    }
  }

  lemma {:induction false} NameIndex(contracts: seq<Contract>, n: string) returns (k: nat)
    requires n in Names(contracts)
    ensures k < |contracts| && contracts[k].name == n
  {
    k := |contracts| - 1;
    if contracts[k].name != n {
      k := NameIndex(contracts[..k], n);
    }
  }

  /** Nobody of a non-consuming kind depends on the producer of a contract. */
  ghost predicate ExplicitConsumersOk(cfg: Config, s: seq<PlanSubtask>, contracts: seq<Contract>) {
    forall k {:trigger DependentsMay(cfg, s, contracts[k].producedBy)} ::
      0 <= k < |contracts| ==> DependentsMay(cfg, s, contracts[k].producedBy)
  }

  /** What `c` has been assigned so far: all of `contracts`, and the synthesised inputs from
      producers below `below`. */
  ghost predicate HasInputs(consumes: map<int, seq<Named>>, g: Graph, contracts: seq<Contract>, c: int, below: nat) {
    Given(consumes, c) == ExplicitInputs(g, contracts, c) + ImplicitInputs(g, contracts, c, below)
  }

  /** What the explicit pass has computed for a prefix of the contracts. */
  ghost predicate ExplicitFlow(g: Graph, contracts: seq<Contract>,
                               consumes: map<int, seq<Named>>, produced: set<int>, pairs: set<(int, int)>)
  {
    && (forall c :: HasInputs(consumes, g, contracts, c, 0))
    && produced == Producers(contracts)
    && (forall p, c {:trigger (p, c) in pairs} :: (p, c) in pairs <==> HasContract(contracts, p) && DependsOn(g, c, p))
  }

  /** The facts the explicit pass establishes: the checks passed, the flow assigned. */
  ghost predicate ExplicitDone(cfg: Config, s: seq<PlanSubtask>, contracts: seq<Contract>,
                               consumes: map<int, seq<Named>>, produced: set<int>, pairs: set<(int, int)>)
  {
    && ContractsOk(contracts, |s|)
    && ExplicitConsumersOk(cfg, s, contracts)
    && ExplicitFlow(DepGraph(s), contracts, consumes, produced, pairs)
  }

  /** A genuine fault of the contracts. */
  ghost predicate ExplicitFault(cfg: Config, plan: BossPlan, f: Fault) {
    && Present(cfg, plan, f)
    && (f.ProducerOutOfRange? || f.BadContractName? || f.DuplicateContractName?
        || (f.ConsumeForbidden? && HasContract(plan.contracts, f.producer)))
  }

  /** The checks on one contract that need no graph. */
  method CheckContract(cfg: Config, plan: BossPlan, k: nat, seen: set<string>) returns (fault: Option<Fault>)
    requires k < |plan.contracts| && seen == Names(plan.contracts[..k])
    ensures fault.None? ==>
              && 0 <= plan.contracts[k].producedBy < |plan.subtasks| && ValidContractName(plan.contracts[k].name)
              && plan.contracts[k].name !in seen
    ensures fault.Some? ==> ExplicitFault(cfg, plan, fault.value)
  {
    var ct := plan.contracts[k];
    if !(0 <= ct.producedBy < |plan.subtasks|) {
      return Some(ProducerOutOfRange(k));
    }
    if !ValidContractName(ct.name) {
      return Some(BadContractName(k));
    }
    if ct.name in seen {
      ghost var j := NameIndex(plan.contracts[..k], ct.name);
      return Some(DuplicateContractName(k));
    }
    return None;
  }

  /** One contract: check it, hand its name to every subtask that depends on its producer. */
  method TakeContract(cfg: Config, plan: BossPlan, k: nat, ghost taken: seq<Contract>, consumes0: map<int, seq<Named>>, produced0: set<int>,
                      pairs0: set<(int, int)>, seen0: set<string>)
      returns (fault: Option<Fault>, consumes: map<int, seq<Named>>, produced: set<int>,
               pairs: set<(int, int)>, seen: set<string>)
    requires InRange(DepGraph(plan.subtasks)) && k < |plan.contracts| && taken == plan.contracts[..k]
    requires ExplicitDone(cfg, plan.subtasks, taken, consumes0, produced0, pairs0)
    requires seen0 == Names(taken)
    ensures fault.Some? ==> ExplicitFault(cfg, plan, fault.value)
    ensures fault.None? ==> ExplicitDone(cfg, plan.subtasks, taken + [plan.contracts[k]], consumes, produced, pairs)
    ensures fault.None? ==> seen == Names(taken + [plan.contracts[k]])
  {
    var s, ct := plan.subtasks, plan.contracts[k];
    consumes, produced, pairs, seen := consumes0, produced0, pairs0, seen0;
    fault := CheckContract(cfg, plan, k, seen0);
    if fault.Some? { return; }
    seen := seen0 + {ct.name};
    assert (taken + [ct])[..k] == taken;
    var consumers := TransitiveDependents(DepGraph(s), ct.producedBy);
    var bad;
    bad, consumes := Share(cfg, s, (ct.name, ct.producedBy), consumers, consumes0);
    if bad.Some? {
      ProducerListed(plan.contracts, k);
      return Some(ConsumeForbidden(ct.producedBy, bad.value)), consumes, produced, pairs, seen;
    }
    pairs := pairs0 + set c | c in consumers :: (ct.producedBy, c);
    produced := produced0 + {ct.producedBy};
    ConsumersExact(cfg, s, ct.producedBy, consumers);
    ExplicitStep(cfg, s, taken, ct, consumes0, produced0, pairs0, consumers, consumes, produced, pairs);
  }

  method AssignExplicit(cfg: Config, plan: BossPlan)
      returns (fault: Option<Fault>, consumes: map<int, seq<Named>>, produced: set<int>,
               pairs: set<(int, int)>, seen: set<string>)
    requires InRange(DepGraph(plan.subtasks))
    ensures fault.Some? ==> ExplicitFault(cfg, plan, fault.value)
    ensures fault.None? ==> ExplicitDone(cfg, plan.subtasks, plan.contracts, consumes, produced, pairs)
    ensures fault.None? ==> seen == Names(plan.contracts)
  {
    var cs := plan.contracts;
    fault, consumes, produced, pairs, seen := None, map[], {}, {}, {};
    ghost var taken: seq<Contract> := [];
    for k := 0 to |cs|
      invariant taken == cs[..k]
      invariant ExplicitDone(cfg, plan.subtasks, taken, consumes, produced, pairs)
      invariant seen == Names(taken)
    {
      fault, consumes, produced, pairs, seen := TakeContract(cfg, plan, k, taken, consumes, produced, pairs, seen);
      if fault.Some? { return; }
      taken := taken + [cs[k]];
    }
    assert taken == cs;
    fault := None;
  }

  lemma {:induction false} ContractsExtend(contracts: seq<Contract>, ct: Contract, n: nat)
    requires ContractsOk(contracts, n)
    requires 0 <= ct.producedBy < n && ValidContractName(ct.name) && ct.name !in Names(contracts)
    ensures ContractsOk(contracts + [ct], n)
  {
    var after := contracts + [ct];
    forall k | 0 <= k < |after| ensures ContractOk(after, k, n) {
      if k < |contracts| { assert ContractOk(contracts, k, n); }
    }
    forall j, k | 0 <= j < k < |after| ensures NamesDiffer(after, j, k) {
      if k < |contracts| { assert NamesDiffer(contracts, j, k); } else { NameListed(contracts, j); }
    }
  }

  lemma {:induction false} FlowExtends(
      g: Graph, contracts: seq<Contract>, ct: Contract,
      consumes0: map<int, seq<Named>>, produced0: set<int>, pairs0: set<(int, int)>, consumers: set<int>,
      consumes: map<int, seq<Named>>, produced: set<int>, pairs: set<(int, int)>)
    requires ExplicitFlow(g, contracts, consumes0, produced0, pairs0)
    requires forall i :: i in consumers <==> DependsOn(g, i, ct.producedBy)
    requires forall c :: Given(consumes, c) ==
                         Given(consumes0, c) + (if c in consumers then [(ct.name, ct.producedBy)] else [])
    requires produced == produced0 + {ct.producedBy}
    requires pairs == pairs0 + set c | c in consumers :: (ct.producedBy, c)
    ensures ExplicitFlow(g, contracts + [ct], consumes, produced, pairs)
  {
    assert (contracts + [ct])[..|contracts|] == contracts;
    forall c ensures HasInputs(consumes, g, contracts + [ct], c, 0) {
      assert HasInputs(consumes0, g, contracts, c, 0);
    }
  }

  lemma {:induction false} ConsumersExtend(cfg: Config, s: seq<PlanSubtask>, contracts: seq<Contract>, ct: Contract)
    requires ExplicitConsumersOk(cfg, s, contracts) && DependentsMay(cfg, s, ct.producedBy)
    ensures ExplicitConsumersOk(cfg, s, contracts + [ct])
  {
    var after := contracts + [ct];
    forall k | 0 <= k < |after| ensures DependentsMay(cfg, s, after[k].producedBy) {
      if k < |contracts| { assert DependentsMay(cfg, s, contracts[k].producedBy); }
    }
  }

  lemma {:induction false} ConsumersExact(cfg: Config, s: seq<PlanSubtask>, p: int, consumers: set<int>)
    requires InRange(DepGraph(s))
    requires forall i :: i in consumers <==> 0 <= i < |s| && DependsOn(DepGraph(s), i, p)
    requires forall c :: c in consumers ==> ConsumeOk(cfg, s[c].workerKind)
    ensures DependentsMay(cfg, s, p)
    ensures forall i :: i in consumers <==> DependsOn(DepGraph(s), i, p)
  {
    forall c ensures c in consumers <==> DependsOn(DepGraph(s), c, p) {
      if DependsOn(DepGraph(s), c, p) { DependencyInRange(DepGraph(s), c, p); }
    }
  }

  lemma {:induction false} ExplicitStep(
      cfg: Config, s: seq<PlanSubtask>, contracts: seq<Contract>, ct: Contract,
      consumes0: map<int, seq<Named>>, produced0: set<int>, pairs0: set<(int, int)>, consumers: set<int>,
      consumes: map<int, seq<Named>>, produced: set<int>, pairs: set<(int, int)>)
    requires ExplicitDone(cfg, s, contracts, consumes0, produced0, pairs0)
    requires 0 <= ct.producedBy < |s| && ValidContractName(ct.name)
    requires ct.name !in Names(contracts)
    requires DependentsMay(cfg, s, ct.producedBy)
    requires forall i :: i in consumers <==> DependsOn(DepGraph(s), i, ct.producedBy)
    requires forall c :: Given(consumes, c) ==
                         Given(consumes0, c) + (if c in consumers then [(ct.name, ct.producedBy)] else [])
    requires produced == produced0 + {ct.producedBy}
    requires pairs == pairs0 + set c | c in consumers :: (ct.producedBy, c)
    ensures ExplicitDone(cfg, s, contracts + [ct], consumes, produced, pairs)
  {
    ContractsExtend(contracts, ct, |s|);
    ConsumersExtend(cfg, s, contracts, ct);
    FlowExtends(DepGraph(s), contracts, ct, consumes0, produced0, pairs0, consumers, consumes, produced, pairs);
  }

  /** Which subtasks below `below` have a contract to fulfil, and the contracts made for them. */
  ghost predicate Assigned(g: Graph, cs: seq<Contract>, below: nat, produced: set<int>, synth: seq<Contract>) {
    && (forall q :: q in produced <==> HasContract(cs, q) || (0 <= q < below && HasDependent(g, q)))
    && synth == Synthesised(g, cs, below)
  }

  /** What the implicit pass has computed for the producers below `below`. */
  ghost predicate FlowDone(plan: BossPlan, below: nat, consumes: map<int, seq<Named>>, produced: set<int>, synth: seq<Contract>) {
    var cs, g := plan.contracts, DepGraph(plan.subtasks);
    && (forall c :: HasInputs(consumes, g, cs, c, below))
    && Assigned(g, cs, below, produced, synth)
  }

  /** What the implicit pass has checked for the producers below `below`. */
  ghost predicate ChecksDone(cfg: Config, plan: BossPlan, below: nat, seen: set<string>) {
    var s, cs, g := plan.subtasks, plan.contracts, DepGraph(plan.subtasks);
    && (forall n :: n in seen ==>
          n in Names(cs) || (exists q: nat :: q < below && n == ImplicitName(q)))
    && Names(cs) <= seen
    && (forall p: nat :: p < below && HasDependent(g, p) ==> ImplicitName(p) !in Names(cs))
    && (forall p: nat :: p < below ==> DependentsMay(cfg, s, p))
  }

  method AssignImplicit(cfg: Config, plan: BossPlan, consumes0: map<int, seq<Named>>, produced0: set<int>,
                        pairs: set<(int, int)>, seen0: set<string>)
      returns (fault: Option<Fault>, consumes: map<int, seq<Named>>, produced: set<int>, synth: seq<Contract>)
    requires InRange(DepGraph(plan.subtasks)) && cfg.implicitContracts
    requires ExplicitDone(cfg, plan.subtasks, plan.contracts, consumes0, produced0, pairs)
    requires seen0 == Names(plan.contracts)
    ensures fault.None? <==> ConsumersOk(cfg, plan) && NamesOk(cfg, plan)
    ensures fault.Some? ==> Present(cfg, plan, fault.value)
    ensures fault.None? ==> (forall c :: Given(consumes, c) == Inputs(cfg, plan, c))
    ensures fault.None? ==> (forall p :: p in produced <==> Produces(cfg, plan, p))
    ensures fault.None? ==> synth == Synthesised(DepGraph(plan.subtasks), plan.contracts, |plan.subtasks|)
  {
    var s, g := plan.subtasks, DepGraph(plan.subtasks);
    consumes, produced, synth := consumes0, produced0, [];
    var seen := seen0;
    var candidates := set i, d | 0 <= i < |s| && d in s[i].dependsOn :: d;
    CandidatesAre(s, candidates);
    for p := 0 to |s|
      invariant FlowDone(plan, p, consumes, produced, synth)
      invariant ChecksDone(cfg, plan, p, seen)
    {
      if p in candidates {
        var name := ImplicitName(p);
        if name in seen {
          ClashIsExplicit(cfg, plan, p, seen);
          return Some(ImplicitNameClash(p)), map[], {}, [];
        }
        var consumers := TransitiveDependents(g, p);
        var targets := set c | c in consumers && (p, c) !in pairs;
        var bad, after := Share(cfg, s, (name, p), targets, consumes);
        if bad.Some? {
          DependsIffListNonEmpty(g, bad.value);
          return Some(ConsumeForbidden(p, bad.value)), map[], {}, [];
        }
        TargetsUncovered(cfg, s, plan.contracts, p, consumers, targets, consumes0, produced0, pairs);
        TargetsMayConsume(cfg, s, plan.contracts, p, targets);
        FlowStep(plan, p, p + 1, consumes, produced, synth, targets, after);
        ChecksStep(cfg, plan, p, seen);
        consumes := after;
        if targets != {} {
          produced := produced + {p};
          synth := synth + [Contract(name, p)];
          seen := seen + {name};
        }
      } else {
        FlowSkip(plan, p, consumes, produced, synth);
        ChecksSkip(cfg, plan, p, seen);
      }
    }
    ImplicitFinish(cfg, plan, consumes, produced, synth, seen);
    fault := None;
  }

  /** The candidate producers, collected from the direct dependencies, are exactly the
      subtasks that something depends on. */
  lemma CandidatesAre(s: seq<PlanSubtask>, candidates: set<int>)
    requires candidates == set i, d | 0 <= i < |s| && d in s[i].dependsOn :: d
    ensures forall p :: p in candidates <==> HasDependent(DepGraph(s), p)
  {
    forall p ensures p in candidates <==> HasDependent(DepGraph(s), p) {
      DependentIffDirect(DepGraph(s), p);
      assert forall i :: 0 <= i < |s| ==> DepGraph(s)[i] == s[i].dependsOn;
    }
  }

  lemma ClashIsExplicit(cfg: Config, plan: BossPlan, p: nat, seen: set<string>)
    requires ChecksDone(cfg, plan, p, seen) && ImplicitName(p) in seen
    ensures exists k :: 0 <= k < |plan.contracts| && plan.contracts[k].name == ImplicitName(p)
  {
    forall q: nat | q < p ensures ImplicitName(p) != ImplicitName(q) {
      if ImplicitName(p) == ImplicitName(q) { ImplicitNameInjective(p, q); }
    }
    var k := NameIndex(plan.contracts, ImplicitName(p));
  }

  lemma {:induction false} FlowSkip(plan: BossPlan, p: nat, consumes: map<int, seq<Named>>, produced: set<int>, synth: seq<Contract>)
    requires FlowDone(plan, p, consumes, produced, synth) && !HasDependent(DepGraph(plan.subtasks), p)
    ensures FlowDone(plan, p + 1, consumes, produced, synth)
  {
    var cs, g, next := plan.contracts, DepGraph(plan.subtasks), p + 1;
    forall c ensures HasInputs(consumes, g, cs, c, next) {
      assert HasInputs(consumes, g, cs, c, p) && !DependsOn(g, c, p);
    }
    assert Synthesised(g, cs, p + 1) == Synthesised(g, cs, p);
  }

  lemma {:induction false} ChecksSkip(cfg: Config, plan: BossPlan, p: nat, seen: set<string>)
    requires ChecksDone(cfg, plan, p, seen) && !HasDependent(DepGraph(plan.subtasks), p)
    ensures ChecksDone(cfg, plan, p + 1, seen)
  {
    assert DependentsMay(cfg, plan.subtasks, p);
  }

  /** `targets` are the dependents of `p`, less those an explicit contract of `p` covers:
      all of them or none. */
  ghost predicate Uncovered(g: Graph, contracts: seq<Contract>, p: int, targets: set<int>) {
    forall c :: c in targets <==> DependsOn(g, c, p) && !HasContract(contracts, p)
  }

  lemma {:induction false} TargetsUncovered(cfg: Config, s: seq<PlanSubtask>, contracts: seq<Contract>, p: int,
      consumers: set<int>, targets: set<int>, consumes: map<int, seq<Named>>, produced: set<int>, pairs: set<(int, int)>)
    requires InRange(DepGraph(s)) && HasDependent(DepGraph(s), p)
    requires ExplicitDone(cfg, s, contracts, consumes, produced, pairs)
    requires forall i :: i in consumers <==> 0 <= i < |s| && DependsOn(DepGraph(s), i, p)
    requires forall c :: c in targets <==> c in consumers && (p, c) !in pairs
    ensures Uncovered(DepGraph(s), contracts, p, targets)
    ensures targets != {} <==> !HasContract(contracts, p)
  {
    var g := DepGraph(s);
    forall c ensures c in targets <==> DependsOn(g, c, p) && !HasContract(contracts, p) {
      if DependsOn(g, c, p) { DependencyInRange(g, c, p); }
    }
    var a :| DependsOn(g, a, p);
    assert a in targets <==> !HasContract(contracts, p);
    if targets != {} {
      var c := Member(targets);
      assert !HasContract(contracts, p);
    }
  }

  lemma {:induction false} TargetsMayConsume(cfg: Config, s: seq<PlanSubtask>, contracts: seq<Contract>, p: int,
                                             targets: set<int>)
    requires ExplicitConsumersOk(cfg, s, contracts) && Uncovered(DepGraph(s), contracts, p, targets)
    requires forall c :: c in targets ==> 0 <= c < |s| && ConsumeOk(cfg, s[c].workerKind)
    ensures DependentsMay(cfg, s, p)
  {
    if HasContract(contracts, p) {
      var k := ProducerIndex(contracts, p);
      assert DependentsMay(cfg, s, contracts[k].producedBy);
    }
  }

  lemma {:induction false} FlowStep(
      plan: BossPlan, p: nat, next: nat, consumes: map<int, seq<Named>>, produced: set<int>, synth: seq<Contract>,
      targets: set<int>, after: map<int, seq<Named>>)
    requires next == p + 1 && FlowDone(plan, p, consumes, produced, synth) && HasDependent(DepGraph(plan.subtasks), p)
    requires Uncovered(DepGraph(plan.subtasks), plan.contracts, p, targets)
    requires forall c :: Given(after, c) == Given(consumes, c) + (if c in targets then [(ImplicitName(p), p)] else [])
    ensures HasContract(plan.contracts, p) ==> FlowDone(plan, next, after, produced, synth)
    ensures !HasContract(plan.contracts, p) ==>
              FlowDone(plan, next, after, produced + {p}, synth + [Contract(ImplicitName(p), p)])
  {
    var cs, g := plan.contracts, DepGraph(plan.subtasks);
    AllInputsStep(g, cs, p, next, consumes, targets, after);
    if HasContract(cs, p) {
      CoveredStep(g, cs, p, next, produced);
    } else {
      UncoveredStep(g, cs, p, next, produced);
    }
  }

  lemma CoveredStep(g: Graph, cs: seq<Contract>, p: nat, next: nat, produced: set<int>)
    requires next == p + 1 && HasDependent(g, p) && HasContract(cs, p)
    requires Assigned(g, cs, p, produced, Synthesised(g, cs, p))
    ensures Assigned(g, cs, next, produced, Synthesised(g, cs, p))
  {
    assert Synthesised(g, cs, p) + [] == Synthesised(g, cs, p);
  }

  lemma UncoveredStep(g: Graph, cs: seq<Contract>, p: nat, next: nat, produced: set<int>)
    requires next == p + 1 && HasDependent(g, p) && !HasContract(cs, p)
    requires Assigned(g, cs, p, produced, Synthesised(g, cs, p))
    ensures Assigned(g, cs, next, produced + {p}, Synthesised(g, cs, p) + [Contract(ImplicitName(p), p)])
  {
  }

  lemma AllInputsStep(g: Graph, cs: seq<Contract>, p: nat, next: nat, consumes: map<int, seq<Named>>, targets: set<int>,
                      after: map<int, seq<Named>>)
    requires next == p + 1 && forall c :: HasInputs(consumes, g, cs, c, p)
    requires forall c :: Given(after, c) == Given(consumes, c) + (if c in targets then [(ImplicitName(p), p)] else [])
    requires Uncovered(g, cs, p, targets)
    ensures forall c :: HasInputs(after, g, cs, c, next)
  {
    forall c ensures HasInputs(after, g, cs, c, next) {
      assert HasInputs(consumes, g, cs, c, p);
      InputsStep(g, cs, p, consumes, targets, after, c);
    }
  }

  lemma InputsStep(g: Graph, cs: seq<Contract>, p: nat, consumes: map<int, seq<Named>>, targets: set<int>,
                   after: map<int, seq<Named>>, c: int)
    requires HasInputs(consumes, g, cs, c, p) && Uncovered(g, cs, p, targets)
    requires Given(after, c) == Given(consumes, c) + (if c in targets then [(ImplicitName(p), p)] else [])
    ensures HasInputs(after, g, cs, c, p + 1)
  {
  }

  lemma {:induction false} ChecksStep(cfg: Config, plan: BossPlan, p: nat, seen: set<string>)
    requires ChecksDone(cfg, plan, p, seen) && ImplicitName(p) !in seen
    requires DependentsMay(cfg, plan.subtasks, p)
    ensures ChecksDone(cfg, plan, p + 1, seen)
    ensures ChecksDone(cfg, plan, p + 1, seen + {ImplicitName(p)})
  {
  }

  lemma {:induction false} ImplicitFinish(cfg: Config, plan: BossPlan, consumes: map<int, seq<Named>>,
                                          produced: set<int>, synth: seq<Contract>, seen: set<string>)
    requires InRange(DepGraph(plan.subtasks)) && cfg.implicitContracts
    requires FlowDone(plan, |plan.subtasks|, consumes, produced, synth)
    requires ChecksDone(cfg, plan, |plan.subtasks|, seen)
    ensures ConsumersOk(cfg, plan) && NamesOk(cfg, plan)
    ensures forall c :: Given(consumes, c) == Inputs(cfg, plan, c)
    ensures forall p :: p in produced <==> Produces(cfg, plan, p)
  {
    var s, cs, g := plan.subtasks, plan.contracts, DepGraph(plan.subtasks);
    forall c ensures Given(consumes, c) == Inputs(cfg, plan, c) {
      assert HasInputs(consumes, g, cs, c, |s|);
    }
    forall c | 0 <= c < |s| && s[c].dependsOn != [] ensures ConsumeOk(cfg, s[c].workerKind) {
      var d := s[c].dependsOn[0];
      assert d in g[c];
      DirectDependency(g, c, d);
      assert DependentsMay(cfg, s, d);
    }
    forall p | HasDependent(g, p) ensures 0 <= p < |s| {
      var a :| DependsOn(g, a, p);
      DependencyInRange(g, a, p);
    }
    forall p: nat, k | HasDependent(g, p) && 0 <= k < |cs| ensures cs[k].name != ImplicitName(p) {
      NameListed(cs, k);
    }
  }
}
