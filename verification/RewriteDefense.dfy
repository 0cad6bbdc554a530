/** Append-only checks between a base and a head (tools/rewrite_defense_check.py). */
module RewriteDefense {
  import opened Basics
  import opened Json
  import opened HashChain
  import Anchor

  function Min(a: nat, b: nat): nat {
    if a < b then a else b
  }

  // ---------- ledger lines ----------

  datatype LineKind = LineDeletion | LineReorder | LineRewrite
  datatype LineFinding = LineFinding(line: nat, kind: LineKind)

  /** The first position at or after `from` whose entry carries `id`. */
  function FirstWithId(es: seq<Entry>, id: Json, from: nat): (r: Option<nat>)
    requires from <= |es|
    ensures r.Some? ==> from <= r.value < |es| && PyEq(Get(es[r.value], "id"), id)
    ensures forall j :: from <= j < (if r.Some? then r.value else |es|) ==> !PyEq(Get(es[j], "id"), id)
    decreases |es| - from
  {
    if from == |es| then None
    else if PyEq(Get(es[from], "id"), id) then Some(from)
    else FirstWithId(es, id, from + 1)
  }

  /** How a differing line is classified: moved from elsewhere in the base, or rewritten. */
  function DifferenceAt(base: seq<Entry>, head: seq<Entry>, i: nat): LineFinding
    requires i < |base| && i < |head|
  {
    var at := FirstWithId(base, Get(head[i], "id"), 0);
    LineFinding(i + 1, if at.Some? && at.value != i then LineReorder else LineRewrite)
  }

  /** The findings on the first `k` shared positions. */
  function LineDifferences(base: seq<Entry>, head: seq<Entry>, k: nat): seq<LineFinding>
    requires k <= |base| && k <= |head|
  {
    if k == 0 then []
    else
      LineDifferences(base, head, k - 1)
      + (if EntryEq(base[k - 1], head[k - 1]) then [] else [DifferenceAt(base, head, k - 1)])
  }

  function LineReport(base: seq<Entry>, head: seq<Entry>): seq<LineFinding> {
    (if |head| < |base| then [LineFinding(0, LineDeletion)] else [])
    + LineDifferences(base, head, Min(|base|, |head|))
  }

  /** `scan_line_regression`, on two ledgers that parsed. */
  method ScanLineRegression(base: seq<Entry>, head: seq<Entry>) returns (vios: seq<LineFinding>)
    ensures vios == LineReport(base, head)
  {
    vios := [];
    if |head| < |base| {
      vios := [LineFinding(0, LineDeletion)];
    }
    ghost var start := vios;
    for i := 0 to Min(|base|, |head|)
      invariant vios == start + LineDifferences(base, head, i)
    {
      if EntryEq(base[i], head[i]) {
        continue;
      }
      var other := FirstWithId(base, Get(head[i], "id"), 0);
      if other.Some? && other.value != i {
        vios := vios + [LineFinding(i + 1, LineReorder)];
      } else {
        vios := vios + [LineFinding(i + 1, LineRewrite)];
      }
    }
  }

  /** The base is a prefix of the head, entry by entry as Python compares them. */
  ghost predicate ExtendsInPython(base: seq<Entry>, head: seq<Entry>) {
    |base| <= |head| && forall i :: 0 <= i < |base| ==> EntryEq(base[i], head[i])
  }

  lemma {:induction false} LineDifferencesCount(base: seq<Entry>, head: seq<Entry>, k: nat)
    requires k <= |base| && k <= |head|
    ensures LineDifferences(base, head, k) == [] <==> forall i :: 0 <= i < k ==> EntryEq(base[i], head[i])
    ensures |LineDifferences(base, head, k)| == |DifferingBelow(base, head, k)|
  {
    if k > 0 {
      LineDifferencesCount(base, head, k - 1);
      DifferingStep(base, head, k - 1);
    }
  }

  lemma {:induction false} DifferenceListed(base: seq<Entry>, head: seq<Entry>, k: nat, i: nat)
    requires i < k <= |base| && k <= |head| && !EntryEq(base[i], head[i])
    ensures DifferenceAt(base, head, i) in LineDifferences(base, head, k)
  {
    if i < k - 1 {
      DifferenceListed(base, head, k - 1, i);
    }
  }

  /** The shared positions below `k` at which the ledgers differ. */
  ghost function DifferingBelow(base: seq<Entry>, head: seq<Entry>, k: nat): set<nat>
    requires k <= |base| && k <= |head|
  {
    set i: nat | i < k && !EntryEq(base[i], head[i])
  }

  lemma DifferingStep(base: seq<Entry>, head: seq<Entry>, k: nat)
    requires k < |base| && k < |head|
    ensures |DifferingBelow(base, head, k + 1)| ==
            |DifferingBelow(base, head, k)| + (if EntryEq(base[k], head[k]) then 0 else 1)
  {
    var before, after := DifferingBelow(base, head, k), DifferingBelow(base, head, k + 1);
    if EntryEq(base[k], head[k]) {
      assert after == before;
    } else {
      assert after == before + {k};
    }
  }

  /** The line check passes exactly if the base is a prefix of the head under Python's
      equality; otherwise it reports each differing shared position once, and a shortening
      once. */
  lemma LineReportExact(base: seq<Entry>, head: seq<Entry>)
    ensures LineReport(base, head) == [] <==> ExtendsInPython(base, head)
    ensures |LineReport(base, head)| ==
            |DifferingBelow(base, head, Min(|base|, |head|))| + (if |head| < |base| then 1 else 0)
    ensures forall i {:trigger DifferenceAt(base, head, i)} :: 0 <= i < Min(|base|, |head|) && !EntryEq(base[i], head[i]) ==>
              DifferenceAt(base, head, i) in LineReport(base, head)
  {
    LineDifferencesCount(base, head, Min(|base|, |head|));
    forall i {:trigger DifferenceAt(base, head, i)} | 0 <= i < Min(|base|, |head|) && !EntryEq(base[i], head[i])
      ensures DifferenceAt(base, head, i) in LineReport(base, head)
    {
      DifferenceListed(base, head, Min(|base|, |head|), i);
    }
  }

  /** Equality is stricter: `true` may be rewritten to `1` unnoticed. */
  lemma TrueRewrittenToOnePasses()
    ensures var base, head := [map["content" := Bool(true)]], [map["content" := Num(1.0)]];
            LineReport(base, head) == [] && !(base <= head)
  {
    var base: seq<Entry>, head: seq<Entry> := [map["content" := Bool(true)]], [map["content" := Num(1.0)]];
    LineReportExact(base, head);
    assert base[0]["content"] != head[0]["content"];
  }

  predicate AllPlain(base: seq<Entry>) {
    forall i, k :: 0 <= i < |base| && k in base[i] ==> Plain(base[i][k])
  }

  /** On this head the line check is the prefix test. */
  ghost predicate ExactOn(base: seq<Entry>, head: seq<Entry>) {
    LineReport(base, head) == [] <==> base <= head
  }

  /** The line check is the prefix test for every head exactly when the base holds only plain
      values: no boolean, no 0 and no 1, at any depth. */
  lemma LineReportExactIffPlain(base: seq<Entry>)
    ensures (forall head :: ExactOn(base, head)) <==> AllPlain(base)
  {
    if AllPlain(base) {
      forall head ensures ExactOn(base, head) { PlainBaseIsExact(base, head); }
    } else {
      var head := UnnoticedRewrite(base);
      assert !ExactOn(base, head);
    }
  }

  lemma PlainBaseIsExact(base: seq<Entry>, head: seq<Entry>)
    requires AllPlain(base)
    ensures ExactOn(base, head)
  {
    LineReportExact(base, head);
    if |base| <= |head| {
      forall i | 0 <= i < |base| ensures EntryEq(base[i], head[i]) <==> base[i] == head[i] {
        forall k | k in base[i] && k in head[i] ensures PyEq(base[i][k], head[i][k]) <==> base[i][k] == head[i][k] {
          PlainEqualsItself(base[i][k], head[i][k]);
        }
      }
    }
  }

  /** Wherever the base holds another value, that value can be rewritten unnoticed. */
  lemma UnnoticedRewrite(base: seq<Entry>) returns (head: seq<Entry>)
    requires !AllPlain(base)
    ensures LineReport(base, head) == [] && !(base <= head)
  {
    var i, k :| 0 <= i < |base| && k in base[i] && !Plain(base[i][k]);
    var other := LookAlike(base[i][k]);
    head := base[i := base[i][k := other]];
    forall j | 0 <= j < |base| ensures EntryEq(base[j], head[j]) {
      forall x | x in base[j] ensures PyEq(base[j][x], head[j][x]) { PyEqReflexive(base[j][x]); }
    }
    LineReportExact(base, head);
    assert head[i][k] != base[i][k];
  }

  predicate EntryBoolFree(e: Entry) {
    forall k :: k in e ==> BoolFree(e[k])
  }

  /** On ledgers without booleans the line check is exactly the prefix test. */
  lemma LineReportExactWithoutBooleans(base: seq<Entry>, head: seq<Entry>)
    requires forall e :: e in base ==> EntryBoolFree(e)
    requires forall e :: e in head ==> EntryBoolFree(e)
    ensures LineReport(base, head) == [] <==> base <= head
  {
    LineReportExact(base, head);
    if |base| <= |head| {
      forall i | 0 <= i < |base| ensures EntryEq(base[i], head[i]) <==> base[i] == head[i] {
        assert base[i] in base && head[i] in head;
        EntryEqIsEquality(base[i], head[i]);
      }
    }
  }

  predicate AllBoolFree(es: seq<Entry>) {
    forall e :: e in es ==> EntryBoolFree(e)
  }

  /** If heads are known to hold no booleans, the check is the prefix test for all of them
      exactly when the base holds none either. */
  lemma LineReportExactIffBoolFree(base: seq<Entry>)
    ensures (forall head :: AllBoolFree(head) ==> ExactOn(base, head)) <==> AllBoolFree(base)
  {
    if AllBoolFree(base) {
      forall head | AllBoolFree(head) ensures ExactOn(base, head) { LineReportExactWithoutBooleans(base, head); }
    } else {
      var head := NumbersLedger(base);
      assert AllBoolFree(head) && !ExactOn(base, head);
    }
  }

  lemma NumbersLedger(base: seq<Entry>) returns (head: seq<Entry>)
    requires !AllBoolFree(base)
    ensures AllBoolFree(head) && LineReport(base, head) == [] && !(base <= head)
  {
    head := seq(|base|, i requires 0 <= i < |base| => map k | k in base[i] :: AsNumbers(base[i][k]));
    forall i | 0 <= i < |base| ensures EntryEq(base[i], head[i]) && EntryBoolFree(head[i]) {
      forall k | k in base[i] ensures PyEq(base[i][k], head[i][k]) && BoolFree(head[i][k]) { AsNumbersEquals(base[i][k]); }
    }
    LineReportExact(base, head);
    var e :| e in base && !EntryBoolFree(e);
    var i :| 0 <= i < |base| && base[i] == e;
    assert EntryBoolFree(head[i]);
  }

  lemma EntryEqIsEquality(a: Entry, b: Entry)
    requires EntryBoolFree(a) && EntryBoolFree(b)
    ensures EntryEq(a, b) <==> a == b
  {
    forall k | k in a && k in b ensures PyEq(a[k], b[k]) <==> a[k] == b[k] {
      PyEqIsEquality(a[k], b[k]);
    }
  }

  lemma PrefixPasses(base: seq<Entry>, head: seq<Entry>)
    requires base <= head
    ensures LineReport(base, head) == []
  {
    LineReportExact(base, head);
    forall i | 0 <= i < |base| ensures EntryEq(base[i], head[i]) {
      forall k | k in base[i] ensures PyEq(base[i][k], head[i][k]) { PyEqReflexive(base[i][k]); }
    }
  }

  /** The anchor check is at least as strict: what passes it against the anchored ledger also
      passes the line check against that ledger. */
  lemma AnchorImpliesLines(env: Env, l: seq<Entry>, m: seq<Entry>)
    requires Faithful(env) && Clean(env, l) && l != []
    requires (forall s :: env.sha(s) != "") && CollisionFree(env, Texts(env, l) + Texts(env, m))
    requires Anchor.Verdict(env, Anchor.AnchorOf(env, l), m) == Ok([])
    ensures LineReport(l, m) == []
  {
    Anchor.AnchorExact(env, l, m);
    PrefixPasses(l, m);
  }

  // ---------- commit history ----------

  datatype Commit = Commit(sha: string, message: string)
  datatype CommitKind = NonFastForward | HistoryReorder
  datatype CommitFinding = CommitFinding(line: nat, kind: CommitKind)

  function FirstWithSha(cs: seq<Commit>, sha: string, from: nat): (r: Option<nat>)
    requires from <= |cs|
    ensures r.Some? ==> from <= r.value < |cs| && cs[r.value].sha == sha
    ensures forall j :: from <= j < (if r.Some? then r.value else |cs|) ==> cs[j].sha != sha
    decreases |cs| - from
  {
    if from == |cs| then None
    else if cs[from].sha == sha then Some(from)
    else FirstWithSha(cs, sha, from + 1)
  }

  /** The commit now at `i` used to be somewhere else. */
  predicate MovedAt(before: seq<Commit>, after: seq<Commit>, i: nat)
    requires i < |after|
  {
    var at := FirstWithSha(before, after[i].sha, 0);
    at.Some? && at.value != i
  }

  /** The findings on the first `k` shared positions; only the first move is reported. */
  function CommitDifferences(before: seq<Commit>, after: seq<Commit>, k: nat): (r: (seq<CommitFinding>, bool))
    requires k <= |before| && k <= |after|
  {
    if k == 0 then ([], false)
    else
      var (vios, seen) := CommitDifferences(before, after, k - 1);
      if after[k - 1].sha == before[k - 1].sha then (vios, seen)
      else if !MovedAt(before, after, k - 1) then (vios + [CommitFinding(k, NonFastForward)], seen)
      else if seen then (vios, seen)
      else (vios + [CommitFinding(k, HistoryReorder)], true)
  }

  function CommitReport(before: seq<Commit>, after: seq<Commit>): seq<CommitFinding> {
    (if |after| < |before| then [CommitFinding(0, NonFastForward)] else [])
    + CommitDifferences(before, after, Min(|before|, |after|)).0
  }

  /** `scan_append_only`, on two histories that were read. */
  method ScanAppendOnly(before: seq<Commit>, after: seq<Commit>) returns (vios: seq<CommitFinding>)
    ensures vios == CommitReport(before, after)
  {
    vios := [];
    if |after| < |before| {
      vios := [CommitFinding(0, NonFastForward)];
    }
    ghost var start := vios;
    var reorderSeen := false;
    for i := 0 to Min(|before|, |after|)
      invariant CommitDifferences(before, after, i).1 == reorderSeen
      invariant vios == start + CommitDifferences(before, after, i).0
    {
      if after[i].sha != before[i].sha {
        var other := FirstWithSha(before, after[i].sha, 0);
        if other.Some? && other.value != i {
          if !reorderSeen {
            vios := vios + [CommitFinding(i + 1, HistoryReorder)];
            reorderSeen := true;
          }
        } else {
          vios := vios + [CommitFinding(i + 1, NonFastForward)];
        }
      }
    }
  }

  lemma {:induction false} CommitDifferencesAre(before: seq<Commit>, after: seq<Commit>, k: nat)
    requires k <= |before| && k <= |after|
    ensures var (vios, seen) := CommitDifferences(before, after, k);
            && (vios == [] <==> forall i :: 0 <= i < k ==> before[i].sha == after[i].sha)
            && (seen <==> exists f :: f in vios && f.kind == HistoryReorder)
            && (forall i, j :: 0 <= i < j < |vios| ==> !(vios[i].kind == vios[j].kind == HistoryReorder))
  {
    if k > 0 {
      CommitDifferencesAre(before, after, k - 1);
    }
  }

  /** The history check passes exactly if the old hashes are a prefix of the new ones, and
      reports a reordering at most once. */
  lemma CommitReportExact(before: seq<Commit>, after: seq<Commit>)
    ensures CommitReport(before, after) == [] <==>
              |before| <= |after| && forall i :: 0 <= i < |before| ==> before[i].sha == after[i].sha
    ensures forall i, j :: 0 <= i < j < |CommitReport(before, after)| ==>
              !(CommitReport(before, after)[i].kind == CommitReport(before, after)[j].kind == HistoryReorder)
  {
    CommitDifferencesAre(before, after, Min(|before|, |after|));
  }
}
