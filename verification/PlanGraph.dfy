/** The dependency graph of a plan: paths, the reachability search, the topological order. */
module PlanGraph {
  import opened Basics

  /** `g[i]` is the `depends_on` list of subtask `i`. */
  type Graph = seq<seq<int>>

  function Elements(s: seq<int>): set<int> {
    set x | x in s
  }

  /** The distinct direct dependencies of `i`. */
  function Deps(g: Graph, i: int): set<int> {
    if 0 <= i < |g| then Elements(g[i]) else {}
  }

  predicate InRange(g: Graph) {
    forall i, d :: 0 <= i < |g| && d in g[i] ==> 0 <= d < |g|
  }

  /** A non-empty dependency path: each node lists its successor as a dependency. */
  ghost predicate IsPath(g: Graph, p: seq<int>) {
    && |p| >= 2
    && forall k :: 0 <= k < |p| - 1 ==> Linked(g, p, k)
  }

  ghost predicate Linked(g: Graph, p: seq<int>, k: nat)
    requires k < |p| - 1
  {
    0 <= p[k] < |g| && p[k + 1] in g[p[k]]
  }

  /** `a` depends on `b`, directly or through other subtasks. */
  ghost predicate DependsOn(g: Graph, a: int, b: int) {
    exists p {:trigger IsPath(g, p)} :: IsPath(g, p) && p[0] == a && p[|p| - 1] == b
  }

  ghost predicate HasDependent(g: Graph, b: int) {
    exists a :: DependsOn(g, a, b)
  }

  ghost predicate Acyclic(g: Graph) {
    forall a :: 0 <= a < |g| ==> !DependsOn(g, a, a)
  }

  /** The dependencies of the node at position `k` all stand before it. */
  ghost predicate StandsAfterDeps(g: Graph, o: seq<int>, k: nat)
    requires k < |o|
  {
    Deps(g, o[k]) <= Elements(o[..k])
  }

  /** `o` lists every node once, each after all its dependencies. */
  ghost predicate IsTopological(g: Graph, o: seq<int>) {
    && |o| == |g|
    && Distinct(o)
    && (forall k :: 0 <= k < |o| ==> 0 <= o[k] < |g|)
    && (forall k :: 0 <= k < |o| ==> StandsAfterDeps(g, o, k))
  }

  // ---------- paths ----------

  lemma DirectDependency(g: Graph, a: int, b: int)
    requires 0 <= a < |g| && b in g[a]
    ensures DependsOn(g, a, b)
  {
    assert IsPath(g, [a, b]);
  }

  lemma ExtendDependency(g: Graph, a: int, b: int, c: int)
    requires DependsOn(g, a, b) && 0 <= b < |g| && c in g[b]
    ensures DependsOn(g, a, c)
  {
    var p :| IsPath(g, p) && p[0] == a && p[|p| - 1] == b;
    var q := p + [c];
    forall k | 0 <= k < |q| - 1 ensures Linked(g, q, k) {
      if k < |p| - 1 { assert Linked(g, p, k); }
    }
    assert IsPath(g, q);
  }

  lemma DependencyTransitive(g: Graph, a: int, b: int, c: int)
    requires DependsOn(g, a, b) && DependsOn(g, b, c)
    ensures DependsOn(g, a, c)
  {
    var p :| IsPath(g, p) && p[0] == a && p[|p| - 1] == b;
    var q :| IsPath(g, q) && q[0] == b && q[|q| - 1] == c;
    var r := p + q[1..];
    forall k | 0 <= k < |r| - 1 ensures Linked(g, r, k) {
      if k < |p| - 1 {
        assert Linked(g, p, k);
      } else {
        assert Linked(g, q, k - (|p| - 1));
      }
    }
    assert IsPath(g, r);
  }

  /** Something depends on `b` exactly when some subtask lists `b` directly: the set of
      producers that `run` collects from the `depends_on` lists misses no producer. */
  lemma DependentIffDirect(g: Graph, b: int)
    ensures HasDependent(g, b) <==> (exists i :: 0 <= i < |g| && b in g[i])
  {
    if i :| 0 <= i < |g| && b in g[i] {
      DirectDependency(g, i, b);
    }
    if a :| DependsOn(g, a, b) {
      var p :| IsPath(g, p) && p[0] == a && p[|p| - 1] == b;
      assert Linked(g, p, |p| - 2);
    }
  }

  /** The dual: a subtask depends on something exactly when its own list is non-empty. */
  lemma DependsIffListNonEmpty(g: Graph, a: int)
    requires 0 <= a < |g|
    ensures (exists b :: DependsOn(g, a, b)) <==> g[a] != []
  {
    if g[a] != [] {
      DirectDependency(g, a, g[a][0]);
    }
    if b :| DependsOn(g, a, b) {
      var p :| IsPath(g, p) && p[0] == a && p[|p| - 1] == b;
      assert Linked(g, p, 0);
    }
  }

  lemma DependencyInRange(g: Graph, a: int, b: int)
    requires InRange(g) && DependsOn(g, a, b)
    ensures 0 <= a < |g| && 0 <= b < |g|
  {
    var p :| IsPath(g, p) && p[0] == a && p[|p| - 1] == b;
    assert Linked(g, p, 0) && Linked(g, p, |p| - 2);
  }

  /** A set that contains the dependencies of `a` and is closed under dependencies
      contains everything `a` depends on. */
  lemma {:induction false} ClosedContains(g: Graph, s: set<int>, p: seq<int>, k: nat)
    requires IsPath(g, p) && 1 <= k < |p|
    requires Deps(g, p[0]) <= s
    requires forall x :: x in s ==> Deps(g, x) <= s
    ensures p[k] in s
  {
    if k > 1 {
      ClosedContains(g, s, p, k - 1);
    }
    assert Linked(g, p, k - 1);
    assert p[k] in Deps(g, p[k - 1]);
  }

  // ---------- the reachability search ----------

  /** `Below(n)` is the set of the first `n` indices. */
  ghost function Below(n: nat): (s: set<int>)
    ensures forall i :: i in s <==> 0 <= i < n
    ensures |s| == n
  {
    if n == 0 then {} else Below(n - 1) + {n - 1}
  }

  ghost predicate Explored(g: Graph, x: int, found: set<int>) {
    Deps(g, x) <= found
  }

  /** The search has followed only dependencies of `start`, has not met `target`, and has
      left behind no dependency that is neither visited nor pending. */
  ghost predicate SearchState(g: Graph, start: int, target: int, pending: set<int>, seen: set<int>) {
    && 0 <= start < |g| && InRange(g)
    && target !in seen
    && (forall d {:trigger DependsOn(g, start, d)} :: d in pending || d in seen ==> DependsOn(g, start, d))
    && Explored(g, start, pending + seen)
    && (forall x {:trigger Explored(g, x, pending + seen)} :: x in seen ==> Explored(g, x, pending + seen))
  }

  lemma SearchExpands(g: Graph, start: int, target: int, pending: set<int>, seen: set<int>, d: int)
    requires SearchState(g, start, target, pending, seen)
    requires d in pending && d != target
    ensures 0 <= d < |g|
    ensures SearchState(g, start, target, (pending - {d}) + Elements(g[d]), seen + {d})
  {
    assert DependsOn(g, start, d);
    DependencyInRange(g, start, d);
    var pending', seen' := (pending - {d}) + Elements(g[d]), seen + {d};
    forall e | e in pending' || e in seen' ensures DependsOn(g, start, e) {
      if e in g[d] { ExtendDependency(g, start, d, e); }
    }
    assert pending + seen <= pending' + seen';
    forall x | x in seen' || x == start ensures Explored(g, x, pending' + seen') {
      assert x != d ==> Explored(g, x, pending + seen);
    }
  }

  lemma SearchExhausted(g: Graph, start: int, target: int, seen: set<int>)
    requires SearchState(g, start, target, {}, seen)
    ensures !DependsOn(g, start, target)
  {
    if DependsOn(g, start, target) {
      var p :| IsPath(g, p) && p[0] == start && p[|p| - 1] == target;
      assert {} + seen == seen && Explored(g, start, seen);
      forall x | x in seen ensures Deps(g, x) <= seen { assert Explored(g, x, seen); }
      ClosedContains(g, seen, p, |p| - 1);
      assert false;
    }
  }

  lemma UnseenShrinks(n: nat, seen: set<int>, d: int)
    requires 0 <= d < n && d !in seen
    ensures |Below(n) - (seen + {d})| < |Below(n) - seen|
  {
    assert Below(n) - (seen + {d}) == Below(n) - seen - {d};
    StrictSubsetSize(Below(n) - seen, d);
  }

  lemma StrictSubsetSize(a: set<int>, x: int)
    requires x in a
    ensures |a - {x}| < |a|
  {
  }

  lemma ElementsOfSum(a: seq<int>, b: seq<int>)
    ensures Elements(a + b) == Elements(a) + Elements(b)
  {
  }

  /** The state depends on the pending nodes only up to nodes already seen. */
  lemma SearchRegroups(g: Graph, start: int, target: int, pending: set<int>, rest: set<int>, seen: set<int>)
    requires SearchState(g, start, target, pending, seen)
    requires rest + seen == pending + seen
    ensures SearchState(g, start, target, rest, seen)
  {
    forall d | d in rest ensures DependsOn(g, start, d) {
      assert d in pending + seen;
      assert d in pending || d in seen;
    }
    forall x | x in seen ensures Explored(g, x, rest + seen) { assert Explored(g, x, pending + seen); }
  }

  lemma SearchStarts(g: Graph, start: int, target: int)
    requires InRange(g) && 0 <= start < |g|
    ensures SearchState(g, start, target, Elements(g[start]), {})
  {
    forall d | d in g[start] ensures DependsOn(g, start, d) { DirectDependency(g, start, d); }
  }

  lemma PopElements(stack: seq<int>)
    requires |stack| > 0
    ensures Elements(stack) == Elements(stack[..|stack| - 1]) + {stack[|stack| - 1]}
  {
    assert stack == stack[..|stack| - 1] + [stack[|stack| - 1]];
    ElementsOfSum(stack[..|stack| - 1], [stack[|stack| - 1]]);
  }

  /** Popping a node already seen. */
  lemma {:induction false} SearchSkips(g: Graph, start: int, target: int, stack: seq<int>, seen: set<int>)
    requires |stack| > 0 && SearchState(g, start, target, Elements(stack), seen)
    requires stack[|stack| - 1] in seen
    ensures SearchState(g, start, target, Elements(stack[..|stack| - 1]), seen)
  {
    PopElements(stack);
    SearchRegroups(g, start, target, Elements(stack), Elements(stack[..|stack| - 1]), seen);
  }

  /** Popping and expanding a new node. */
  lemma {:induction false} SearchTakes(g: Graph, start: int, target: int, stack: seq<int>, seen: set<int>, d: int)
    requires |stack| > 0 && SearchState(g, start, target, Elements(stack), seen)
    requires d == stack[|stack| - 1] && d != target
    ensures 0 <= d < |g|
    ensures SearchState(g, start, target, Elements(stack[..|stack| - 1] + g[d]), seen + {d})
  {
    PopElements(stack);
    SearchExpands(g, start, target, Elements(stack), seen, d);
    ElementsOfSum(stack[..|stack| - 1], g[d]);
    SearchRegroups(g, start, target, (Elements(stack) - {d}) + Elements(g[d]),
                   Elements(stack[..|stack| - 1] + g[d]), seen + {d});
  }

  lemma {:induction false} SearchFound(g: Graph, start: int, target: int, stack: seq<int>, seen: set<int>)
    requires |stack| > 0 && SearchState(g, start, target, Elements(stack), seen)
    ensures DependsOn(g, start, stack[|stack| - 1])
  {
    assert stack[|stack| - 1] in Elements(stack);
  }

  /** The depth-first search that decides whether `start` depends on `target`. */
  method Reaches(g: Graph, start: int, target: int) returns (found: bool)
    requires InRange(g) && 0 <= start < |g|
    ensures found <==> DependsOn(g, start, target)
  {
    var stack := g[start];
    var seen: set<int> := {};
    SearchStarts(g, start, target);
    while |stack| > 0
      invariant SearchState(g, start, target, Elements(stack), seen)
      decreases |Below(|g|) - seen|, |stack|
    {
      var d := stack[|stack| - 1];
      if d == target {
        SearchFound(g, start, target, stack, seen);
        return true;
      }
      if d in seen {
        SearchSkips(g, start, target, stack, seen);
        stack := stack[..|stack| - 1];
      } else {
        SearchTakes(g, start, target, stack, seen, d);
        UnseenShrinks(|g|, seen, d);
        stack := stack[..|stack| - 1];
        seen := seen + {d};
        stack := stack + g[d];
      }
    }
    SearchExhausted(g, start, target, seen);
    return false;
  }

  /** `_transitive_dependents`: all subtasks that depend on `produced`; cycles are allowed. */
  method TransitiveDependents(g: Graph, produced: int) returns (result: set<int>)
    requires InRange(g)
    ensures forall i :: i in result <==> 0 <= i < |g| && DependsOn(g, i, produced)
  {
    result := {};
    for i := 0 to |g|
      invariant forall j :: j in result <==> 0 <= j < i && DependsOn(g, j, produced)
    {
      var found := Reaches(g, i, produced);
      if found {
        result := result + {i};
      }
    }
  }

  // ---------- topological order ----------

  /** Along a path positions in a topological order strictly decrease. */
  lemma {:induction false} PathGoesBack(g: Graph, o: seq<int>, p: seq<int>, k: nat, at: nat)
    requires IsTopological(g, o) && IsPath(g, p)
    requires 1 <= k < |p| && at < |o| && o[at] == p[0]
    ensures p[k] in o[..at]
  {
    assert Linked(g, p, k - 1);
    assert p[k] in Deps(g, p[k - 1]);
    assert StandsAfterDeps(g, o, at);
    if k > 1 {
      PathGoesBack(g, o, p, k - 1, at);
      var j :| 0 <= j < at && o[..at][j] == p[k - 1];
      assert StandsAfterDeps(g, o, j);
      var i :| 0 <= i < j && o[..j][i] == p[k];
      assert o[..at][i] == p[k];
    }
  }

  /** In a topological order everything a node depends on stands before it. */
  lemma DependenciesComeFirst(g: Graph, o: seq<int>, at: nat, b: int)
    requires IsTopological(g, o) && at < |o| && DependsOn(g, o[at], b)
    ensures b in o[..at]
  {
    var p :| IsPath(g, p) && p[0] == o[at] && p[|p| - 1] == b;
    PathGoesBack(g, o, p, |p| - 1, at);
  }

  lemma DistinctLength(o: seq<int>, n: nat)
    requires Distinct(o)
    requires forall k :: 0 <= k < |o| ==> 0 <= o[k] < n
    ensures |o| <= n
    ensures |o| == n ==> forall i :: 0 <= i < n ==> i in o
  {
    DistinctSize(o);
    var gap := Below(n) - Elements(o);
    assert Below(n) == Elements(o) + gap;
    if |o| == n {
      forall i | 0 <= i < n ensures i in o { assert i in Below(n) && i !in gap; }
    }
  }

  lemma {:induction false} DistinctSize(o: seq<int>)
    requires Distinct(o)
    ensures |Elements(o)| == |o|
  {
    if |o| > 0 {
      var r := o[..|o| - 1];
      DistinctSize(r);
      assert Elements(o) == Elements(r) + {o[|o| - 1]};
    }
  }

  lemma TopologicalImpliesAcyclic(g: Graph, o: seq<int>)
    requires IsTopological(g, o)
    ensures Acyclic(g)
  {
    forall a | 0 <= a < |g| ensures !DependsOn(g, a, a) {
      DistinctLength(o, |g|);
      assert a in o;
      var at :| 0 <= at < |o| && o[at] == a;
      if DependsOn(g, a, a) {
        DependenciesComeFirst(g, o, at, a);
        assert false;
      }
    }
  }

  /** `x` lists a dependency inside `r`. */
  ghost predicate Keeps(g: Graph, r: set<int>, x: int) {
    0 <= x < |g| && exists d :: d in g[x] && d in r
  }

  ghost predicate AllKeep(g: Graph, r: set<int>) {
    forall x {:trigger Keeps(g, r, x)} :: x in r ==> Keeps(g, r, x)
  }

  /** If every node of a non-empty set keeps a dependency inside the set, the set holds a
      cycle.  `w` is the walk followed so far, newest node first. */
  lemma {:induction false} StuckSetHasCycle(g: Graph, r: set<int>, w: seq<int>)
    requires AllKeep(g, r)
    requires |w| > 0 && Distinct(w) && forall k :: 0 <= k < |w| ==> w[k] in r
    requires |w| >= 2 ==> IsPath(g, w)
    ensures !Acyclic(g)
    decreases |r| - |w|
  {
    var last := w[|w| - 1];
    assert Keeps(g, r, last);
    var d :| d in g[last] && d in r;
    if d in w {
      var k :| 0 <= k < |w| && w[k] == d;
      WalkExtends(g, w, d);
      var p := (w + [d])[k..];
      assert IsPath(g, p) && DependsOn(g, d, d);
      assert Keeps(g, r, d);
    } else {
      var v := w + [d];
      WalkFits(r, v);
      WalkExtends(g, w, d);
      StuckSetHasCycle(g, r, v);
    }
  }

  lemma WalkExtends(g: Graph, w: seq<int>, d: int)
    requires |w| > 0 && (|w| >= 2 ==> IsPath(g, w))
    requires 0 <= w[|w| - 1] < |g| && d in g[w[|w| - 1]]
    ensures forall k :: 0 <= k < |w| ==> IsPath(g, (w + [d])[k..])
    ensures IsPath(g, w + [d])
  {
    forall k | 0 <= k < |w| ensures IsPath(g, (w + [d])[k..]) {
      var v := (w + [d])[k..];
      forall j | 0 <= j < |v| - 1 ensures Linked(g, v, j) {
        if k + j < |w| - 1 { assert Linked(g, w, k + j); }
      }
    }
    assert (w + [d])[0..] == w + [d];
  }

  lemma WalkFits(r: set<int>, w: seq<int>)
    requires Distinct(w) && forall k :: 0 <= k < |w| ==> w[k] in r
    ensures |w| <= |r|
  {
    DistinctSize(w);
    assert r == Elements(w) + (r - Elements(w));
  }

  /** The insertion order of graphlib's node table: each subtask in turn, then its
      dependencies, each at its first mention. */
  method InsertionOrder(g: Graph) returns (nodes: seq<int>)
    requires InRange(g)
    ensures Distinct(nodes) && forall i :: i in nodes <==> 0 <= i < |g|
  {
    nodes := [];
    for i := 0 to |g|
      invariant Distinct(nodes)
      invariant forall j :: j in nodes ==> 0 <= j < |g|
      invariant forall j :: 0 <= j < i ==> j in nodes
    {
      var mentioned := [i] + g[i];
      for k := 0 to |mentioned|
        invariant Distinct(nodes)
        invariant forall j :: j in nodes ==> 0 <= j < |g|
        invariant forall j :: 0 <= j < i ==> j in nodes
        invariant k > 0 ==> i in nodes
      {
        if mentioned[k] !in nodes {
          assert mentioned[k] == i || mentioned[k] in g[i];
          nodes := nodes + [mentioned[k]];
        }
      }
    }
  }

  /** How many dependencies of `i` lie outside `emitted`. */
  function Missing(g: Graph, i: int, emitted: set<int>): nat {
    |Deps(g, i) - emitted|
  }

  /** Exactly the nodes without a missing dependency are emitted or ready. */
  ghost predicate Settled(g: Graph, emitted: set<int>, ready: set<int>) {
    forall i :: i in emitted || i in ready <==> 0 <= i < |g| && Missing(g, i, emitted) == 0
  }

  /** Each node of `done` stands after all its dependencies. */
  ghost predicate InOrder(g: Graph, done: seq<int>) {
    forall k :: 0 <= k < |done| ==> StandsAfterDeps(g, done, k)
  }

  /** The state of Kahn's algorithm: `done` lists the nodes already emitted, `ready` the
      nodes still to emit whose dependencies are all emitted. */
  ghost predicate KahnState(g: Graph, done: seq<int>, ready: seq<int>) {
    && InRange(g)
    && Distinct(done) && Distinct(ready) && Elements(done) !! Elements(ready)
    && Settled(g, Elements(done), Elements(ready))
    && InOrder(g, done)
  }

  /** `TopologicalSorter.static_order`: emit the ready nodes first in, first out; a shorter
      result means a cycle. */
  method StaticOrder(g: Graph) returns (order: Option<seq<int>>)
    requires InRange(g)
    ensures order.Some? <==> Acyclic(g)
    ensures order.Some? ==> IsTopological(g, order.value)
  {
    var nodes := InsertionOrder(g);
    var missing: seq<nat> := seq(|g|, i requires 0 <= i < |g| => |Deps(g, i)|);
    var ready := InitiallyReady(g, nodes, missing);
    var done: seq<int> := [];
    assert Elements(done) == {};
    assert forall i :: Deps(g, i) - {} == Deps(g, i);
    while |ready| > 0
      invariant KahnState(g, done, ready)
      invariant |missing| == |g| && forall i :: 0 <= i < |g| ==> missing[i] == Missing(g, i, Elements(done))
      decreases |g| - |done|
    {
      ghost var done0, ready0 := done, ready;
      var x := ready[0];
      EmitHead(g, done, ready);
      done := done + [x];
      missing, ready := Release(g, Elements(done0), x, missing, ready[1..]);
      EmittedElements(done0, x);
      KahnStep(g, done0, ready0, ready);
    }
    KahnFinish(g, done);
    order := if |done| == |g| then Some(done) else None;
  }

  /** The nodes with no dependency at all, in insertion order. */
  method InitiallyReady(g: Graph, nodes: seq<int>, missing: seq<nat>) returns (ready: seq<int>)
    requires InRange(g) && Distinct(nodes) && forall i :: i in nodes <==> 0 <= i < |g|
    requires |missing| == |g| && forall i :: 0 <= i < |g| ==> missing[i] == |Deps(g, i)|
    ensures KahnState(g, [], ready)
  {
    ready := [];
    for k := 0 to |nodes|
      invariant Distinct(ready)
      invariant forall i :: i in ready <==> 0 <= i < |g| && i in nodes[..k] && missing[i] == 0
    {
      assert nodes[k] in nodes;
      if missing[nodes[k]] == 0 {
        ready := ready + [nodes[k]];
      }
    }
    assert nodes[..|nodes|] == nodes;
    assert Elements([]) == {};
    assert forall i :: Deps(g, i) - {} == Deps(g, i);
  }

  /** The successors of `x` below `s` that wait for nothing else. */
  ghost function Freed(g: Graph, emitted: set<int>, x: int, s: int): set<int> {
    set i | 0 <= i < s && i < |g| && Missing(g, i, emitted) > 0 && Missing(g, i, emitted + {x}) == 0
  }

  lemma FreedNext(g: Graph, emitted: set<int>, x: int, s: int)
    requires x !in emitted && 0 <= s < |g|
    ensures Freed(g, emitted, x, s + 1) ==
            Freed(g, emitted, x, s) + (if x in g[s] && Missing(g, s, emitted) == 1 then {s} else {})
    ensures s !in Freed(g, emitted, x, s)
  {
    EmitOne(g, s, emitted, x);
  }

  /** `done(x)` under way: the successors of `x` below `s` have been visited. */
  ghost predicate Counting(g: Graph, emitted: set<int>, x: int, missing: seq<nat>, s: int) {
    && |missing| == |g|
    && (forall i :: 0 <= i < |g| ==> missing[i] == Missing(g, i, if i < s then emitted + {x} else emitted))
  }

  lemma CountOne(g: Graph, emitted: set<int>, x: int, missing: seq<nat>, s: int)
    requires x !in emitted && 0 <= s < |g| && Counting(g, emitted, x, missing, s)
    ensures missing[s] == Missing(g, s, emitted)
    ensures x !in g[s] ==> Counting(g, emitted, x, missing, s + 1)
    ensures x in g[s] ==> missing[s] > 0 && Counting(g, emitted, x, missing[s := missing[s] - 1], s + 1)
  {
    EmitOne(g, s, emitted, x);
  }

  lemma QueueOne(g: Graph, emitted: set<int>, x: int, ready0: set<int>, ready: seq<int>, s: int)
    requires x !in emitted && Settled(g, emitted, ready0 + {x}) && 0 <= s < |g|
    requires Distinct(ready) && Elements(ready) == ready0 + Freed(g, emitted, x, s)
    requires x in g[s] && Missing(g, s, emitted) == 1
    ensures Distinct(ready + [s]) && Elements(ready + [s]) == ready0 + Freed(g, emitted, x, s + 1)
  {
    FreedNext(g, emitted, x, s);
    EmittedElements(ready, s);
  }

  /** `done(x)`: lower the count of every successor of `x`, queueing those that reach zero. */
  method Release(g: Graph, ghost emitted: set<int>, x: int, missing0: seq<nat>, ready0: seq<int>)
      returns (missing: seq<nat>, ready: seq<int>)
    requires x !in emitted && x !in ready0 && Distinct(ready0)
    requires Settled(g, emitted, Elements(ready0) + {x}) && emitted !! Elements(ready0)
    requires |missing0| == |g| && forall i :: 0 <= i < |g| ==> missing0[i] == Missing(g, i, emitted)
    ensures |missing| == |g|
    ensures forall i :: 0 <= i < |g| ==> missing[i] == Missing(g, i, emitted + {x})
    ensures Distinct(ready) && Elements(ready) !! emitted + {x}
    ensures Settled(g, emitted + {x}, Elements(ready))
  {
    missing, ready := missing0, ready0;
    for s := 0 to |g|
      invariant Counting(g, emitted, x, missing, s)
      invariant Distinct(ready) && Elements(ready) == Elements(ready0) + Freed(g, emitted, x, s)
    {
      CountOne(g, emitted, x, missing, s);
      FreedNext(g, emitted, x, s);
      if x in g[s] {
        missing := missing[s := missing[s] - 1];
        if missing[s] == 0 {
          QueueOne(g, emitted, x, Elements(ready0), ready, s);
          ready := ready + [s];
        }
      }
    }
    ReleaseSettles(g, emitted, x, Elements(ready0));
  }

  lemma SettlesAt(g: Graph, emitted: set<int>, x: int, ready0: set<int>, i: int)
    requires x !in emitted
    requires i in emitted || i in ready0 + {x} <==> 0 <= i < |g| && Missing(g, i, emitted) == 0
    ensures i in emitted + {x} || i in ready0 + Freed(g, emitted, x, |g|) <==>
            0 <= i < |g| && Missing(g, i, emitted + {x}) == 0
  {
    if 0 <= i < |g| { EmitOne(g, i, emitted, x); }
  }

  lemma ReleaseSettles(g: Graph, emitted: set<int>, x: int, ready0: set<int>)
    requires x !in emitted && x !in ready0 && emitted !! ready0 && Settled(g, emitted, ready0 + {x})
    ensures Settled(g, emitted + {x}, ready0 + Freed(g, emitted, x, |g|))
    ensures ready0 + Freed(g, emitted, x, |g|) !! emitted + {x}
  {
    forall i ensures i in emitted + {x} || i in ready0 + Freed(g, emitted, x, |g|) <==>
                     0 <= i < |g| && Missing(g, i, emitted + {x}) == 0
    {
      SettlesAt(g, emitted, x, ready0, i);
    }
    assert forall i :: i in Freed(g, emitted, x, |g|) ==> Missing(g, i, emitted) > 0;
  }

  lemma EmittedElements(done: seq<int>, x: int)
    requires Distinct(done) && x !in Elements(done)
    ensures Elements(done + [x]) == Elements(done) + {x} && Distinct(done + [x])
  {
  }

  /** Emitting `x` lowers the count of `s` by one exactly when `s` lists `x`. */
  lemma EmitOne(g: Graph, s: int, emitted: set<int>, x: int)
    requires 0 <= s < |g| && x !in emitted
    ensures Missing(g, s, emitted + {x}) == Missing(g, s, emitted) - (if x in g[s] then 1 else 0)
  {
    var before, after := Deps(g, s) - emitted, Deps(g, s) - (emitted + {x});
    if x in g[s] {
      assert before == after + {x} && x !in after;
    } else {
      assert before == after;
    }
  }

  lemma EmitHead(g: Graph, done: seq<int>, ready: seq<int>)
    requires KahnState(g, done, ready) && |ready| > 0
    ensures ready[0] !in Elements(done) && ready[0] !in ready[1..] && Distinct(ready[1..])
    ensures Elements(ready) == Elements(ready[1..]) + {ready[0]}
    ensures |done| < |g|
  {
    assert ready[0] in Elements(ready);
    assert ready == [ready[0]] + ready[1..];
    var all := done + [ready[0]];
    EmittedElements(done, ready[0]);
    forall k | 0 <= k < |all| ensures 0 <= all[k] < |g| {
      assert all[k] in Elements(done) || all[k] in Elements(ready);
    }
    DistinctLength(all, |g|);
  }

  lemma {:induction false} KahnStep(g: Graph, done0: seq<int>, ready0: seq<int>, ready: seq<int>)
    requires KahnState(g, done0, ready0) && |ready0| > 0
    requires Distinct(ready) && Elements(done0 + [ready0[0]]) !! Elements(ready)
    requires Distinct(done0 + [ready0[0]])
    requires Settled(g, Elements(done0 + [ready0[0]]), Elements(ready))
    ensures KahnState(g, done0 + [ready0[0]], ready)
  {
    assert Missing(g, ready0[0], Elements(done0)) == 0 by { assert ready0[0] in Elements(ready0); }
    OrderExtends(g, done0, ready0[0]);
  }

  lemma MissingNone(g: Graph, x: int, emitted: set<int>)
    ensures Missing(g, x, emitted) == 0 <==> Deps(g, x) <= emitted
  {
    SubsetIffNoRest(Deps(g, x), emitted);
  }

  lemma {:induction false} OrderExtends(g: Graph, done: seq<int>, x: int)
    requires InOrder(g, done) && Missing(g, x, Elements(done)) == 0
    ensures InOrder(g, done + [x])
  {
    forall k | 0 <= k < |done + [x]| ensures StandsAfterDeps(g, done + [x], k) {
      if k == |done| {
        MissingNone(g, x, Elements(done));
        assert (done + [x])[..k] == done;
      } else {
        assert StandsAfterDeps(g, done, k) && (done + [x])[..k] == done[..k];
      }
    }
  }

  lemma SubsetIffNoRest(a: set<int>, b: set<int>)
    ensures a <= b <==> a - b == {}
  {
    if a - b == {} {
      forall x | x in a ensures x in b { assert x !in a - b; }
    }
  }

  lemma {:induction false} LeftNodeKeeps(g: Graph, emitted: set<int>, x: int)
    requires InRange(g) && Settled(g, emitted, {}) && 0 <= x < |g| && x !in emitted
    ensures Keeps(g, Below(|g|) - emitted, x)
  {
    MissingNone(g, x, emitted);
    SubsetIffNoRest(Deps(g, x), emitted);
    var d := Member(Deps(g, x) - emitted);
    assert d in g[x] && d in Below(|g|) - emitted;
  }

  lemma SmallerSetLeaves(a: set<int>, b: set<int>)
    requires |b| < |a|
    ensures a - b != {}
  {
    SubsetIffNoRest(a, b);
    assert a <= b ==> b == a + (b - a);
  }

  lemma {:induction false} KahnStuck(g: Graph, emitted: set<int>)
    requires InRange(g) && Settled(g, emitted, {}) && |emitted| < |g|
    ensures !Acyclic(g)
  {
    var r := Below(|g|) - emitted;
    SmallerSetLeaves(Below(|g|), emitted);
    AllLeftKeep(g, emitted);
    var x := Member(r);
    StuckSetHasCycle(g, r, [x]);
  }

  lemma {:induction false} AllLeftKeep(g: Graph, emitted: set<int>)
    requires InRange(g) && Settled(g, emitted, {})
    ensures AllKeep(g, Below(|g|) - emitted)
  {
    forall x | x in Below(|g|) - emitted ensures Keeps(g, Below(|g|) - emitted, x) {
      LeftNodeKeeps(g, emitted, x);
    }
  }

  lemma {:induction false} KahnFinish(g: Graph, done: seq<int>)
    requires KahnState(g, done, [])
    ensures |done| == |g| <==> Acyclic(g)
    ensures |done| == |g| ==> IsTopological(g, done)
  {
    assert Elements([]) == {};
    forall k | 0 <= k < |done| ensures 0 <= done[k] < |g| { assert done[k] in Elements(done); }
    DistinctLength(done, |g|);
    DistinctSize(done);
    if |done| == |g| {
      TopologicalImpliesAcyclic(g, done);
    } else {
      KahnStuck(g, Elements(done));
    }
  }
}
