/** The vendor projection of a ledger (tools/memory_skill_roundtrip.py). */
module Projection {
  import opened Basics
  import opened Json
  import opened HashChain
  import opened PyText
  import Tamper = ChainTamper

  const VENDOR_PREFIX := "_hermes_"

  predicate Vendor(k: string) {
    VENDOR_PREFIX <= k
  }

  /** `hermes_to_canonical`: the entry without its vendor fields. */
  function Canonicalised(e: Entry): Entry {
    map k | k in e && !Vendor(k) :: e[k]
  }

  function Project(es: seq<Entry>): seq<Entry> {
    seq(|es|, i requires 0 <= i < |es| => Canonicalised(es[i]))
  }

  predicate LosesField(e: Entry) {
    exists k :: k in e && Vendor(k)
  }

  /** One hash violation per flagged position. */
  function LossVios(flags: seq<bool>, k: nat): seq<Violation>
    requires k <= |flags|
  {
    if k == 0 then [] else LossVios(flags, k - 1) + LossAt(flags, k - 1)
  }

  function LossAt(flags: seq<bool>, i: nat): seq<Violation>
    requires i < |flags|
  {
    if flags[i] then [Violation(i, HashRecalculation)] else []
  }

  /** Which entries the projection changes. */
  ghost function Losses(es: seq<Entry>): seq<bool> {
    seq(|es|, i requires 0 <= i < |es| => LosesField(es[i]))
  }

  lemma LossVisible(e: Entry)
    ensures LosesField(e) <==> Payload(Canonicalised(e)) != Payload(e)
    ensures Get(Canonicalised(e), "hash") == Get(e, "hash")
  {
    if k :| k in e && Vendor(k) {
      assert k in Payload(e) && k !in Payload(Canonicalised(e));
    } else {
      assert Canonicalised(e) == e;
    }
  }

  /** The fields the chain check reads are untouched by the projection. */
  lemma ReadFieldsKept(e: Entry)
    ensures forall k :: k in {"hash", "prev_hash", "scope", "schema_version", "ts"} ==>
              (k in e <==> k in Canonicalised(e)) && (k in e ==> e[k] == Canonicalised(e)[k])
  {
    forall k | k in {"hash", "prev_hash", "scope", "schema_version", "ts"} ensures !Vendor(k) {
      assert VENDOR_PREFIX[0] == '_' && k[0] != '_';
    }
  }

  /** Only the hash check sees a lost field. */
  lemma ProjectedFlaws(env: Env, i: nat, e: Entry, p: Entry, st: ChainState)
    requires p == Canonicalised(e) && Readable(i, e) && LinkOk(env, i, e, st.prevHash)
    requires !GoesBack(env.stamp(e["ts"].s), st.prevTs) && Comparable(env.stamp(e["ts"].s), st.prevTs)
    requires env.canon(Payload(p)).Canonical?
    requires Get(e, "hash") == Str(env.sha(TextOf(env, e)))
    requires env.sha(TextOf(env, e)) == env.sha(TextOf(env, p)) <==> !LosesField(e)
    ensures Turn(env, i, p, st) ==
            Ok((if LosesField(e) then [Violation(i, HashRecalculation)] else [], NextState(env, e, st)))
  {
    ReadFieldsKept(e);
    Tamper.AloneBetweenEmpty([]);
    assert [Violation(i, HashRecalculation)] + [] + [] == [Violation(i, HashRecalculation)];
  }

  lemma ProjectedHash(env: Env, es: seq<Entry>, i: nat)
    requires Faithful(env) && Clean(env, es) && i < |es|
    requires env.canon(Payload(Canonicalised(es[i]))).Canonical?
    requires CollisionFree(env, Texts(env, es) + Texts(env, Project(es)))
    ensures env.sha(TextOf(env, es[i])) == env.sha(TextOf(env, Canonicalised(es[i]))) <==> !LosesField(es[i])
  {
    var e, p := es[i], Canonicalised(es[i]);
    CleanParts(env, es, i);
    LossVisible(e);
    assert Project(es)[i] == p;
    assert TextOf(env, e) in Texts(env, es) && TextOf(env, p) in Texts(env, Project(es));
    HashMovesWithText(env, e, p, Texts(env, es) + Texts(env, Project(es)));
  }

  lemma ProjectedTurn(env: Env, es: seq<Entry>, i: nat)
    requires Clean(env, es) && i < |es|
    requires env.canon(Payload(Canonicalised(es[i]))).Canonical?
    requires env.sha(TextOf(env, es[i])) == env.sha(TextOf(env, Canonicalised(es[i]))) <==> !LosesField(es[i])
    ensures TurnShowsLoss(env, Project(es), States(env, es), Losses(es), i)
  {
    CleanParts(env, es, i);
    ProjectedFlaws(env, i, es[i], Canonicalised(es[i]), StateAfter(env, es, i));
  }

  lemma HashMovesWithText(env: Env, e: Entry, p: Entry, texts: set<string>)
    requires Faithful(env) && CollisionFree(env, texts)
    requires env.canon(Payload(e)).Canonical? && env.canon(Payload(p)).Canonical?
    requires TextOf(env, e) in texts && TextOf(env, p) in texts
    ensures env.sha(TextOf(env, e)) == env.sha(TextOf(env, p)) <==> Payload(e) == Payload(p)
  {
    if env.sha(TextOf(env, e)) == env.sha(TextOf(env, p)) {
      assert SameHash(env, TextOf(env, e), TextOf(env, p));
      assert SameCanon(env, Payload(e), Payload(p));
    }
  }

  /** The turn on projected entry `i` reports the loss, if any, and leaves the usual state. */
  ghost predicate TurnShowsLoss(env: Env, projected: seq<Entry>, states: seq<ChainState>, flags: seq<bool>, i: nat)
    requires i < |projected| == |flags| && |states| == |flags| + 1
  {
    Turn(env, i, projected[i], states[i]) == Ok((LossAt(flags, i), states[i + 1]))
  }

  ghost predicate FoldShowsLosses(env: Env, projected: seq<Entry>, states: seq<ChainState>, flags: seq<bool>, k: nat)
    requires k <= |projected| == |flags| && |states| == |flags| + 1
  {
    Folded(env, projected, k) == Ok((LossVios(flags, k), states[k]))
  }

  lemma ProjectedStep(env: Env, projected: seq<Entry>, states: seq<ChainState>, flags: seq<bool>, k: nat)
    requires k < |projected| == |flags| && |states| == |flags| + 1
    requires TurnShowsLoss(env, projected, states, flags, k) && FoldShowsLosses(env, projected, states, flags, k)
    ensures FoldShowsLosses(env, projected, states, flags, k + 1)
  {
  }

  lemma {:induction false} ProjectedFold(env: Env, projected: seq<Entry>, states: seq<ChainState>, flags: seq<bool>, k: nat)
    requires k <= |projected| == |flags| && |states| == |flags| + 1 && states[0] == START
    requires forall i {:trigger TurnShowsLoss(env, projected, states, flags, i)} ::
               0 <= i < |flags| ==> TurnShowsLoss(env, projected, states, flags, i)
    ensures FoldShowsLosses(env, projected, states, flags, k)
  {
    if k > 0 {
      ProjectedFold(env, projected, states, flags, k - 1);
      ProjectedStep(env, projected, states, flags, k - 1);
    }
  }

  /** The states a chain passes through when it is checked. */
  function States(env: Env, es: seq<Entry>): seq<ChainState> {
    seq(|es| + 1, k requires 0 <= k <= |es| => StateAfter(env, es, k))
  }

  lemma {:induction false} LossViosAre(flags: seq<bool>, k: nat)
    requires k <= |flags|
    ensures forall v :: v in LossVios(flags, k) <==> v.index < k && flags[v.index] && v.kind == HashRecalculation
  {
    if k > 0 {
      LossViosAre(flags, k - 1);
    }
  }

  /** Re-checking a clean chain after projection reports a hash mismatch at exactly the
      entries that lost a field, and nothing else. */
  lemma ProjectionReport(env: Env, es: seq<Entry>)
    requires Faithful(env) && Clean(env, es)
    requires forall i :: 0 <= i < |es| ==> env.canon(Payload(Canonicalised(es[i]))).Canonical?
    requires CollisionFree(env, Texts(env, es) + Texts(env, Project(es)))
    ensures Report(env, Project(es)).Ok?
    ensures forall v :: v in Report(env, Project(es)).value <==>
              && v.index < |es| && v.kind == HashRecalculation
              && exists k :: k in es[v.index] && "_hermes_" <= k
  {
    var projected, states, flags := Project(es), States(env, es), Losses(es);
    forall i | 0 <= i < |es| ensures TurnShowsLoss(env, projected, states, flags, i) {
      ProjectedHash(env, es, i);
      ProjectedTurn(env, es, i);
    }
    ProjectedFold(env, projected, states, flags, |es|);
    LossViosAre(flags, |es|);
  }

  // ---------- the verdict ----------

  datatype Verdict = Pass | Lossy | Fail

  /** A field named in the report, with the index of its entry. */
  datatype Lost = Lost(entry: nat, field: string)

  /** A finding of `diff_lost_fields`; the text prints the field names in order. */
  datatype Diff = CountChanged | Removed(entry: nat, fields: set<string>) | Added(entry: nat, fields: set<string>)
                | TypeChanged(entry: nat, field: string) | ValueChanged(entry: nat, field: string)

  predicate SameType(a: Json, b: Json) {
    || (a.Null? && b.Null?) || (a.Bool? && b.Bool?) || (a.Num? && b.Num?)
    || (a.Str? && b.Str?) || (a.Arr? && b.Arr?) || (a.Obj? && b.Obj?)
  }

  predicate SameValues(a: Entry, b: Entry) {
    a.Keys == b.Keys && forall k :: k in a ==> TypeNo(a[k]) == TypeNo(b[k]) && PyEq(a[k], b[k])
  }

  /** The type of a value, by number. */
  function TypeNo(j: Json): nat {
    match j
    case Null => 0
    case Bool(_) => 1
    case Num(_) => 2
    case Str(_) => 3
    case Arr(_) => 4
    case Obj(_) => 5
  }

  /** `d` is a difference of the entries numbered `i`. */
  predicate IsDiffOf(i: nat, a: Entry, b: Entry, d: Diff) {
    match d
    case CountChanged => false
    case Removed(e, fields) => e == i && fields == a.Keys - b.Keys && fields != {}
    case Added(e, fields) => e == i && fields == b.Keys - a.Keys && fields != {}
    case TypeChanged(e, k) => e == i && k in a && k in b && TypeNo(a[k]) != TypeNo(b[k])
    case ValueChanged(e, k) => e == i && k in a && k in b && TypeNo(a[k]) == TypeNo(b[k]) && !PyEq(a[k], b[k])
  }

  /** `d` is a difference of two ledgers; of ledgers of different lengths only that is said. */
  predicate IsDiff(original: seq<Entry>, reparsed: seq<Entry>, d: Diff) {
    if |original| != |reparsed| then d.CountChanged?
    else !d.CountChanged? && d.entry < |original| && IsDiffOf(d.entry, original[d.entry], reparsed[d.entry], d)
  }

  predicate OnField(d: Diff, keys: set<string>) {
    (d.TypeChanged? || d.ValueChanged?) && d.field in keys
  }

  /** The differences found before the shared keys `left` are looked at. */
  ghost predicate Listed(diffs: seq<Diff>, i: nat, a: Entry, b: Entry, left: set<string>) {
    Distinct(diffs) && forall d :: d in diffs <==> IsDiffOf(i, a, b, d) && !OnField(d, left)
  }

  /** What one shared key adds. */
  function KeyDiff(i: nat, a: Entry, b: Entry, k: string): seq<Diff>
    requires k in a && k in b
  {
    if !SameType(a[k], b[k]) then [TypeChanged(i, k)] else if !PyEq(a[k], b[k]) then [ValueChanged(i, k)] else []
  }

  lemma ListOne(diffs: seq<Diff>, i: nat, a: Entry, b: Entry, left: set<string>, k: string)
    requires Listed(diffs, i, a, b, left) && k in left && left <= a.Keys * b.Keys
    ensures Listed(diffs + KeyDiff(i, a, b, k), i, a, b, left - {k})
  {
    var more := KeyDiff(i, a, b, k);
    DistinctConcat(diffs, more);
    forall d ensures d in diffs + more <==> IsDiffOf(i, a, b, d) && !OnField(d, left - {k}) {
      assert d in diffs + more <==> d in diffs || d in more;
    }
  }

  lemma ListKeys(i: nat, a: Entry, b: Entry)
    ensures Listed((if a.Keys - b.Keys != {} then [Removed(i, a.Keys - b.Keys)] else []) +
                   (if b.Keys - a.Keys != {} then [Added(i, b.Keys - a.Keys)] else []), i, a, b, a.Keys * b.Keys)
  {
  }

  /** The differences of one pair of entries; the shared keys come in any order. */
  method DiffEntry(i: nat, a: Entry, b: Entry) returns (diffs: seq<Diff>)
    ensures Distinct(diffs) && forall d :: d in diffs <==> IsDiffOf(i, a, b, d)
  {
    ListKeys(i, a, b);
    diffs := [];
    if a.Keys - b.Keys != {} {
      diffs := diffs + [Removed(i, a.Keys - b.Keys)];
    }
    if b.Keys - a.Keys != {} {
      diffs := diffs + [Added(i, b.Keys - a.Keys)];
    }
    var left := a.Keys * b.Keys;
    while left != {}
      invariant left <= a.Keys * b.Keys && Listed(diffs, i, a, b, left)
      decreases |left|
    {
      var k :| k in left;
      ListOne(diffs, i, a, b, left, k);
      diffs := diffs + KeyDiff(i, a, b, k);
      left := left - {k};
    }
  }

  /** Two entries without a difference have the same keys, types and values. */
  lemma NoDiffIff(i: nat, a: Entry, b: Entry)
    ensures (forall d :: !IsDiffOf(i, a, b, d)) <==> SameValues(a, b)
  {
    if forall d :: !IsDiffOf(i, a, b, d) {
      assert !IsDiffOf(i, a, b, Removed(i, a.Keys - b.Keys)) && !IsDiffOf(i, a, b, Added(i, b.Keys - a.Keys));
      KeysEqualIff(a.Keys, b.Keys);
      forall k | k in a ensures SameType(a[k], b[k]) && PyEq(a[k], b[k]) {
        assert !IsDiffOf(i, a, b, TypeChanged(i, k)) && !IsDiffOf(i, a, b, ValueChanged(i, k));
      }
    }
  }

  lemma KeysEqualIff<T>(a: set<T>, b: set<T>)
    ensures a == b <==> a - b == {} && b - a == {}
  {
    if a - b == {} && b - a == {} {
      forall x ensures x in a <==> x in b {
        assert x !in a - b && x !in b - a;
      }
    }
  }

  function EntryOf(d: Diff): nat {
    if d.CountChanged? then 0 else d.entry
  }

  predicate ByEntry(diffs: seq<Diff>) {
    forall x, y :: 0 <= x < y < |diffs| ==> EntryOf(diffs[x]) <= EntryOf(diffs[y])
  }

  /** The differences of the entries below `n` are listed. */
  ghost predicate ListedBefore(diffs: seq<Diff>, original: seq<Entry>, reparsed: seq<Entry>, n: nat) {
    Distinct(diffs) && ByEntry(diffs) && forall d :: d in diffs <==> IsDiff(original, reparsed, d) && EntryOf(d) < n
  }

  lemma ListEntry(diffs: seq<Diff>, original: seq<Entry>, reparsed: seq<Entry>, i: nat, more: seq<Diff>)
    requires |original| == |reparsed| && i < |original| && ListedBefore(diffs, original, reparsed, i)
    requires Distinct(more) && forall d :: d in more <==> IsDiffOf(i, original[i], reparsed[i], d)
    ensures ListedBefore(diffs + more, original, reparsed, i + 1)
  {
    DistinctConcat(diffs, more);
    forall d ensures d in diffs + more <==> IsDiff(original, reparsed, d) && EntryOf(d) < i + 1 {
      assert d in diffs + more <==> d in diffs || d in more;
    }
    forall x, y | 0 <= x < y < |diffs + more| ensures EntryOf((diffs + more)[x]) <= EntryOf((diffs + more)[y]) {
      assert x < |diffs| ==> diffs[x] in diffs;
      assert y >= |diffs| ==> more[y - |diffs|] in more;
      assert x >= |diffs| ==> more[x - |diffs|] in more;
    }
  }

  /** `diff_lost_fields`: exactly the differences, each once, in the order of the entries. */
  method DiffLostFields(original: seq<Entry>, reparsed: seq<Entry>) returns (diffs: seq<Diff>)
    ensures Distinct(diffs) && forall d :: d in diffs <==> IsDiff(original, reparsed, d)
    ensures ByEntry(diffs)
  {
    if |original| != |reparsed| {
      return [CountChanged];
    }
    diffs := [];
    for i := 0 to |original|
      invariant ListedBefore(diffs, original, reparsed, i)
    {
      var more := DiffEntry(i, original[i], reparsed[i]);
      ListEntry(diffs, original, reparsed, i, more);
      diffs := diffs + more;
    }
  }

  /** Nothing is listed exactly if the ledgers agree entry by entry. */
  lemma NothingListedIff(original: seq<Entry>, reparsed: seq<Entry>)
    ensures (forall d :: !IsDiff(original, reparsed, d)) <==>
            |original| == |reparsed| && forall i :: 0 <= i < |original| ==> SameValues(original[i], reparsed[i])
  {
    assert IsDiff(original, reparsed, CountChanged) <==> |original| != |reparsed|;
    if |original| == |reparsed| {
      forall i: nat | i < |original| && forall d :: !IsDiff(original, reparsed, d)
        ensures SameValues(original[i], reparsed[i])
      {
        NoDiffIff(i, original[i], reparsed[i]);
        assert forall d :: IsDiffOf(i, original[i], reparsed[i], d) ==> IsDiff(original, reparsed, d);
      }
      forall d: Diff | IsDiff(original, reparsed, d) ensures !SameValues(original[d.entry], reparsed[d.entry]) {
        NoDiffIff(d.entry, original[d.entry], reparsed[d.entry]);
      }
    }
  }

  lemma EmptyIff(diffs: seq<Diff>)
    ensures diffs == [] <==> forall d :: d !in diffs
  {
    if diffs != [] { assert diffs[0] in diffs; }
  }

  lemma SameValuesReflexive(e: Entry)
    ensures SameValues(e, e)
  {
    forall k | k in e ensures PyEq(e[k], e[k]) { PyEqReflexive(e[k]); }
  }

  /** The report lists fields by entry, then alphabetically. */
  predicate InOrder(lost: seq<Lost>) {
    forall i, j :: 0 <= i < j < |lost| ==>
      lost[i].entry < lost[j].entry || (lost[i].entry == lost[j].entry && Less(lost[i].field, lost[j].field))
  }

  /** `hermes_to_canonical`. */
  method HermesToCanonical(e: Entry) returns (canonical: Entry, dropped: seq<string>)
    ensures canonical.Keys <= e.Keys && forall k :: k in e ==> if "_hermes_" <= k then k !in canonical else k in canonical && canonical[k] == e[k]
    ensures canonical == Canonicalised(e)
    ensures Ascending(dropped) && forall k :: k in dropped <==> k in e && "_hermes_" <= k
  {
    canonical := map k | k in e && !Vendor(k) :: e[k];
    dropped := SortKeys(set k | k in e && Vendor(k));
  }

  method Labelled(i: nat, dropped: seq<string>) returns (r: seq<Lost>)
    requires Ascending(dropped)
    ensures InOrder(r) && forall l :: l in r <==> l.entry == i && l.field in dropped
  {
    r := seq(|dropped|, j requires 0 <= j < |dropped| => Lost(i, dropped[j]));
    forall l: Lost | l.entry == i && l.field in dropped ensures l in r {
      var j :| 0 <= j < |dropped| && dropped[j] == l.field;
      assert r[j] == l;
    }
  }

  /** `feasibility_hermes_to_claude`: never FAIL; PASS exactly if no entry has a vendor field;
      the report lists exactly the dropped fields, in order, each once. */
  method Feasibility(es: seq<Entry>) returns (verdict: Verdict, lost: seq<Lost>)
    ensures verdict != Fail
    ensures verdict == Pass <==> forall e, k :: e in es && k in e ==> !("_hermes_" <= k)
    ensures InOrder(lost)
    ensures forall l :: l in lost <==> l.entry < |es| && l.field in es[l.entry] && "_hermes_" <= l.field
  {
    lost := [];
    if es == [] {
      return Pass, [];
    }
    var canonicalEntries: seq<Entry> := [];
    for i := 0 to |es|
      invariant canonicalEntries == Project(es[..i])
      invariant InOrder(lost)
      invariant forall l :: l in lost <==> l.entry < i && l.field in es[l.entry] && Vendor(l.field)
    {
      var canonical, dropped := HermesToCanonical(es[i]);
      canonicalEntries := canonicalEntries + [canonical];
      var more := Labelled(i, dropped);
      lost := lost + more;
    }
    // Both directions of the toy mapping copy every entry.
    var claudeEntries := canonicalEntries;
    var finalCanonical := claudeEntries;
    var diffBack := DiffLostFields(canonicalEntries, finalCanonical);
    forall i | 0 <= i < |finalCanonical| ensures SameValues(canonicalEntries[i], finalCanonical[i]) {
      SameValuesReflexive(canonicalEntries[i]);
    }
    NothingListedIff(canonicalEntries, finalCanonical);
    LostIffLoses(es, lost);
    EmptyIff(diffBack);
    if diffBack != [] {
      return Fail, lost;
    }
    verdict := if lost != [] then Lossy else Pass;
  }

  lemma LostIffLoses(es: seq<Entry>, lost: seq<Lost>)
    requires forall l :: l in lost <==> l.entry < |es| && l.field in es[l.entry] && Vendor(l.field)
    ensures lost == [] <==> forall e :: e in es ==> !LosesField(e)
  {
    if lost != [] {
      assert lost[0] in lost;
      assert es[lost[0].entry] in es && LosesField(es[lost[0].entry]);
    }
    if e :| e in es && LosesField(e) {
      var i :| 0 <= i < |es| && es[i] == e;
      var k :| k in e && Vendor(k);
      assert Lost(i, k) in lost;
    }
  }
}
