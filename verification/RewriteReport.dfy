/** Exactly what the two append-only checks report. */
module RewriteReport {
  import opened Basics
  import opened Json
  import opened HashChain
  import opened RewriteDefense

  // ---------- ledger lines ----------

  /** The first entry of the base with the id now at position `i` stands elsewhere. */
  ghost predicate CameFromElsewhere(base: seq<Entry>, head: seq<Entry>, i: nat)
    requires i < |head|
  {
    exists j :: 0 <= j < |base| && j != i && PyEq(Get(base[j], "id"), Get(head[i], "id")) &&
                forall m :: 0 <= m < j ==> !PyEq(Get(base[m], "id"), Get(head[i], "id"))
  }

  /** The finding is really there: the head is shorter, or the line differs and its entry was
      moved there, or not. */
  ghost predicate LineBroken(base: seq<Entry>, head: seq<Entry>, f: LineFinding) {
    if f.line == 0 then f.kind == LineDeletion && |head| < |base|
    else
      && f.line <= |base| && f.line <= |head| && !EntryEq(base[f.line - 1], head[f.line - 1])
      && f.kind == if CameFromElsewhere(base, head, f.line - 1) then LineReorder else LineRewrite
  }

  lemma DifferenceIs(base: seq<Entry>, head: seq<Entry>, i: nat)
    requires i < |base| && i < |head|
    ensures DifferenceAt(base, head, i) == LineFinding(i + 1, if CameFromElsewhere(base, head, i) then LineReorder else LineRewrite)
  {
    var at := FirstWithId(base, Get(head[i], "id"), 0);
    if at.Some? {
      var j := at.value;
      assert PyEq(Get(base[j], "id"), Get(head[i], "id"));
    }
  }

  predicate LinesRise(fs: seq<LineFinding>) {
    forall a, b :: 0 <= a < b < |fs| ==> fs[a].line < fs[b].line
  }

  lemma {:induction false} DifferencesAre(base: seq<Entry>, head: seq<Entry>, k: nat)
    requires k <= |base| && k <= |head|
    ensures forall f :: f in LineDifferences(base, head, k) <==> 1 <= f.line <= k && LineBroken(base, head, f)
    ensures LinesRise(LineDifferences(base, head, k))
  {
    if k > 0 {
      var before := LineDifferences(base, head, k - 1);
      DifferencesAre(base, head, k - 1);
      DifferenceIs(base, head, k - 1);
      forall a | 0 <= a < |before| ensures before[a].line < k { assert before[a] in before; }
    }
  }

  /** The line check reports exactly the findings that are really there, each once, by line. */
  lemma LineReportIs(base: seq<Entry>, head: seq<Entry>)
    ensures forall f :: f in LineReport(base, head) <==> LineBroken(base, head, f)
    ensures LinesRise(LineReport(base, head))
  {
    var k := Min(|base|, |head|);
    var found := LineDifferences(base, head, k);
    DifferencesAre(base, head, k);
    forall a | 0 <= a < |found| ensures found[a].line >= 1 { assert found[a] in found; }
  }

  // ---------- commit history ----------

  /** The commit now at position `i` stood first elsewhere. */
  ghost predicate CommitMoved(before: seq<Commit>, after: seq<Commit>, i: nat)
    requires i < |after|
  {
    exists j :: 0 <= j < |before| && j != i && before[j].sha == after[i].sha &&
                forall m :: 0 <= m < j ==> before[m].sha != after[i].sha
  }

  ghost predicate Replaced(before: seq<Commit>, after: seq<Commit>, i: nat, moved: bool) {
    i < |before| && i < |after| && before[i].sha != after[i].sha && (CommitMoved(before, after, i) <==> moved)
  }

  /** The finding is really there; of several moved commits only the first is reported. */
  ghost predicate CommitBroken(before: seq<Commit>, after: seq<Commit>, f: CommitFinding) {
    if f.line == 0 then f.kind == NonFastForward && |after| < |before|
    else
      match f.kind
      case NonFastForward => Replaced(before, after, f.line - 1, false)
      case HistoryReorder =>
        Replaced(before, after, f.line - 1, true) && forall m :: 0 <= m < f.line - 1 ==> !Replaced(before, after, m, true)
  }

  lemma MovedIs(before: seq<Commit>, after: seq<Commit>, i: nat)
    requires i < |after|
    ensures MovedAt(before, after, i) <==> CommitMoved(before, after, i)
  {
    var at := FirstWithSha(before, after[i].sha, 0);
    if at.Some? { assert before[at.value].sha == after[i].sha; }
  }

  predicate CommitsRise(fs: seq<CommitFinding>) {
    forall a, b :: 0 <= a < b < |fs| ==> fs[a].line < fs[b].line
  }

  /** What the loop has found on the first `k` positions, and whether a move was among it. */
  ghost predicate FoundTo(before: seq<Commit>, after: seq<Commit>, k: nat, found: seq<CommitFinding>, seen: bool) {
    && (forall f {:trigger f in found} :: f in found <==> 1 <= f.line <= k && CommitBroken(before, after, f))
    && (seen <==> exists m :: 0 <= m < k && Replaced(before, after, m, true))
    && CommitsRise(found)
  }

  lemma NothingMore(before: seq<Commit>, after: seq<Commit>, k: nat, found: seq<CommitFinding>, seen: bool)
    requires k < |before| && k < |after| && FoundTo(before, after, k, found, seen)
    requires before[k].sha == after[k].sha || (CommitMoved(before, after, k) && seen)
    ensures FoundTo(before, after, k + 1, found, seen)
  {
    forall f: CommitFinding | f.line == k + 1 ensures !CommitBroken(before, after, f) {}
    assert before[k].sha == after[k].sha ==> !Replaced(before, after, k, true);
  }

  lemma CommitsRiseMore(found: seq<CommitFinding>, k: nat, f: CommitFinding)
    requires CommitsRise(found) && (forall g :: g in found ==> g.line <= k) && f.line == k + 1
    ensures CommitsRise(found + [f])
  {
    forall a | 0 <= a < |found| ensures found[a].line <= k { assert found[a] in found; }
  }

  lemma OneMore(before: seq<Commit>, after: seq<Commit>, k: nat, found: seq<CommitFinding>, seen: bool, f: CommitFinding)
    requires k < |before| && k < |after| && FoundTo(before, after, k, found, seen)
    requires before[k].sha != after[k].sha && (CommitMoved(before, after, k) ==> !seen)
    requires f == CommitFinding(k + 1, if CommitMoved(before, after, k) then HistoryReorder else NonFastForward)
    ensures FoundTo(before, after, k + 1, found + [f], seen || CommitMoved(before, after, k))
  {
    CommitsRiseMore(found, k, f);
    assert Replaced(before, after, k, CommitMoved(before, after, k));
    assert !CommitMoved(before, after, k) ==> !Replaced(before, after, k, true);
    forall g: CommitFinding | g.line == k + 1 ensures CommitBroken(before, after, g) <==> g == f {}
    forall g: CommitFinding ensures g in found + [f] <==> 1 <= g.line <= k + 1 && CommitBroken(before, after, g) {
      assert g in found + [f] <==> g in found || g == f;
    }
  }

  lemma {:induction false} CommitsAre(before: seq<Commit>, after: seq<Commit>, k: nat)
    requires k <= |before| && k <= |after|
    ensures FoundTo(before, after, k, CommitDifferences(before, after, k).0, CommitDifferences(before, after, k).1)
  {
    if k > 0 {
      CommitsAre(before, after, k - 1);
      MovedIs(before, after, k - 1);
      var (found, seen) := CommitDifferences(before, after, k - 1);
      if before[k - 1].sha == after[k - 1].sha || (CommitMoved(before, after, k - 1) && seen) {
        NothingMore(before, after, k - 1, found, seen);
      } else {
        OneMore(before, after, k - 1, found, seen,
                CommitFinding(k, if CommitMoved(before, after, k - 1) then HistoryReorder else NonFastForward));
      }
    }
  }

  /** The history check reports exactly the findings that are really there, each once, by line. */
  lemma CommitReportIs(before: seq<Commit>, after: seq<Commit>)
    ensures forall f :: f in CommitReport(before, after) <==> CommitBroken(before, after, f)
    ensures CommitsRise(CommitReport(before, after))
  {
    var k := Min(|before|, |after|);
    var found := CommitDifferences(before, after, k).0;
    CommitsAre(before, after, k);
    forall a | 0 <= a < |found| ensures found[a].line >= 1 { assert found[a] in found; }
  }
}
