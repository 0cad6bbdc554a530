/** What a change to a clean chain does to the report, and what appending a built entry does. */
module ChainTamper {
  import opened Basics
  import opened Json
  import opened HashChain

  /** The part of a valid schema the chain check relies on: the four fields it reads are
      present and the timestamp parses. */
  predicate Checkable(env: Env, e: Entry) {
    && "scope" in e && "schema_version" in e && "prev_hash" in e && "ts" in e
    && e["ts"].Str? && env.stamp(e["ts"].s).Some?
  }

  function StampOf(env: Env, e: Entry): Stamp
    requires Checkable(env, e)
  {
    env.stamp(e["ts"].s).value
  }

  ghost predicate AllCheckable(env: Env, es: seq<Entry>) {
    forall k {:trigger es[k]} :: 0 <= k < |es| ==> Checkable(env, es[k])
  }

  lemma LastStampIs(env: Env, es: seq<Entry>, k: nat)
    requires 0 < k <= |es| && Checkable(env, es[k - 1])
    ensures LastStamp(env, es, k) == Some(StampOf(env, es[k - 1]))
  {
  }

  lemma StampsRise(env: Env, es: seq<Entry>, i: nat)
    requires Clean(env, es) && 0 < i < |es| && Checkable(env, es[i]) && Checkable(env, es[i - 1])
    ensures StampOf(env, es[i]).aware == StampOf(env, es[i - 1]).aware
    ensures StampOf(env, es[i]).at >= StampOf(env, es[i - 1]).at
  {
    assert EntryClean(env, es, i);
    LastStampIs(env, es, i);
  }

  // ---------- folding a changed ledger ----------

  lemma {:induction false} FoldAgrees(env: Env, a: seq<Entry>, b: seq<Entry>, k: nat)
    requires k <= |a| && k <= |b| && forall j {:trigger a[j]} :: 0 <= j < k ==> a[j] == b[j]
    ensures Folded(env, a, k) == Folded(env, b, k)
  {
    if k > 0 {
      FoldAgrees(env, a, b, k - 1);
    }
  }

  lemma FoldStep(env: Env, es: seq<Entry>, k: nat, vios: seq<Violation>, st: ChainState,
                 more: seq<Violation>, next: ChainState)
    requires k < |es| && Folded(env, es, k) == Ok((vios, st)) && Turn(env, k, es[k], st) == Ok((more, next))
    ensures Folded(env, es, k + 1) == Ok((vios + more, next))
  {
  }

  lemma FoldQuiet(env: Env, es: seq<Entry>, k: nat, vios: seq<Violation>, st: ChainState, next: ChainState)
    requires k < |es| && Folded(env, es, k) == Ok((vios, st)) && Turn(env, k, es[k], st) == Ok(([], next))
    ensures Folded(env, es, k + 1) == Ok((vios, next))
  {
    assert vios + [] == vios;
  }

  lemma CleanState(env: Env, es: seq<Entry>, k: nat)
    requires Clean(env, es) && k <= |es|
    ensures Folded(env, es, k) == Ok(([], StateAfter(env, es, k)))
  {
    CleanFolds(env, es, k);
  }

  /** Past the first entry a turn looks only at the entry and the carried state. */
  lemma TurnShift(env: Env, es: seq<Entry>, m: nat, j: nat)
    requires Clean(env, es) && 0 < m < |es| && 0 < j
    ensures Turn(env, j, es[m], StateAfter(env, es, m)) == Ok(([], StateAfter(env, es, m + 1)))
  {
    assert EntryClean(env, es, m) && EntryClean(env, es, m - 1);
    TurnClean(env, es, m);
  }

  /** Once a changed ledger has caught up with the state of a clean chain and continues with
      its entries, nothing more is reported. */
  lemma {:induction false} TailQuiet(env: Env, es: seq<Entry>, m: nat, changed: seq<Entry>, j: nat, vios: seq<Violation>, t: nat)
    requires Clean(env, es) && 0 < m && 0 < j && m + t <= |es| && j + t <= |changed|
    requires Folded(env, changed, j) == Ok((vios, StateAfter(env, es, m)))
    requires forall p {:trigger changed[p]} :: j <= p < j + t ==> changed[p] == es[p - j + m]
    ensures Folded(env, changed, j + t) == Ok((vios, StateAfter(env, es, m + t)))
  {
    if t > 0 {
      TailQuiet(env, es, m, changed, j, vios, t - 1);
      TurnShift(env, es, m + (t - 1), j + (t - 1));
      FoldQuiet(env, changed, j + (t - 1), vios, StateAfter(env, es, m + (t - 1)), StateAfter(env, es, m + t));
    }
  }

  // ---------- replacing an entry ----------

  /** The state after a replaced entry, as far as the next turn can tell. */
  lemma ReplacedTurn(env: Env, es: seq<Entry>, i: nat, e: Entry) returns (vios: seq<Violation>, st: ChainState)
    requires Clean(env, es) && AllCheckable(env, es) && i < |es|
    requires Checkable(env, e) && StampOf(env, e).aware == StampOf(env, es[i]).aware
    requires !env.canon(Payload(e)).ForeignError?
    ensures Turn(env, i, e, StateAfter(env, es, i)) == Ok((vios, st))
    ensures forall v :: v in vios ==> v.index == i
    ensures st.prevTs.Some? ==> st.prevTs.value.aware == StampOf(env, es[i]).aware
  {
    if i > 0 {
      LastStampIs(env, es, i);
      StampsRise(env, es, i);
    }
    var turned := Turn(env, i, e, StateAfter(env, es, i));
    vios, st := turned.value.0, turned.value.1;
  }

  lemma TurnAfterReplaced(env: Env, es: seq<Entry>, i: nat, st: ChainState) returns (vios: seq<Violation>)
    requires Clean(env, es) && AllCheckable(env, es) && 0 < i < |es|
    requires st.prevTs.Some? ==> st.prevTs.value.aware == StampOf(env, es[i - 1]).aware
    ensures Turn(env, i, es[i], st) == Ok((vios, StateAfter(env, es, i + 1)))
    ensures forall v :: v in vios ==> v.index == i
  {
    StampsRise(env, es, i);
    assert EntryClean(env, es, i);
    LastStampIs(env, es, i + 1);
    vios := Turn(env, i, es[i], st).value.0;
  }

  /** Tamper locality: replacing one entry of a clean chain by any checkable entry is reported
      at that index and the next, nowhere else. */
  lemma ReplaceIsLocal(env: Env, es: seq<Entry>, i: nat, e: Entry)
    requires Clean(env, es) && AllCheckable(env, es) && i < |es|
    requires Checkable(env, e) && StampOf(env, e).aware == StampOf(env, es[i]).aware
    requires !env.canon(Payload(e)).ForeignError?
    ensures Report(env, es[i := e]).Ok?
    ensures forall v :: v in Report(env, es[i := e]).value ==> v.index == i || v.index == i + 1
  {
    var vios, st := FoldReplaced(env, es, i, e);
    if i + 1 < |es| {
      var all := FoldAfterReplaced(env, es, i, e, vios, st);
      QuietToTheEnd(env, es, i + 2, es[i := e], i + 2, all);
    }
  }

  lemma FoldAfterReplaced(env: Env, es: seq<Entry>, i: nat, e: Entry, at: seq<Violation>, st: ChainState) returns (all: seq<Violation>)
    requires Clean(env, es) && AllCheckable(env, es) && i + 1 < |es|
    requires Folded(env, es[i := e], i + 1) == Ok((at, st)) && forall v :: v in at ==> v.index == i
    requires st.prevTs.Some? ==> st.prevTs.value.aware == StampOf(env, es[i]).aware
    ensures Folded(env, es[i := e], i + 2) == Ok((all, StateAfter(env, es, i + 2)))
    ensures forall v :: v in all ==> v.index == i || v.index == i + 1
  {
    var next := TurnAfterReplaced(env, es, i + 1, st);
    FoldStep(env, es[i := e], i + 1, at, st, next, StateAfter(env, es, i + 2));
    all := at + next;
  }

  lemma QuietToTheEnd(env: Env, es: seq<Entry>, m: nat, changed: seq<Entry>, j: nat, vios: seq<Violation>)
    requires Clean(env, es) && 0 < m <= |es| && 0 < j && |changed| - j == |es| - m
    requires Folded(env, changed, j) == Ok((vios, StateAfter(env, es, m)))
    requires forall p {:trigger changed[p]} :: j <= p < |changed| ==> changed[p] == es[p - j + m]
    ensures Report(env, changed) == Ok(vios)
  {
    TailQuiet(env, es, m, changed, j, vios, |es| - m);
    assert j + (|es| - m) == |changed|;
  }

  lemma FoldReplaced(env: Env, es: seq<Entry>, i: nat, e: Entry) returns (vios: seq<Violation>, st: ChainState)
    requires Clean(env, es) && AllCheckable(env, es) && i < |es|
    requires Checkable(env, e) && StampOf(env, e).aware == StampOf(env, es[i]).aware
    requires !env.canon(Payload(e)).ForeignError?
    ensures Folded(env, es[i := e], i + 1) == Ok((vios, st))
    ensures forall v :: v in vios ==> v.index == i
    ensures st.prevTs.Some? ==> st.prevTs.value.aware == StampOf(env, es[i]).aware
  {
    FoldAgrees(env, es[i := e], es, i);
    CleanState(env, es, i);
    vios, st := ReplacedTurn(env, es, i, e);
    FoldStep(env, es[i := e], i, [], StateAfter(env, es, i), vios, st);
    assert [] + vios == vios;
  }

  /** A replaced entry that is not the last never goes unreported. */
  lemma ReplaceIsDetected(env: Env, es: seq<Entry>, i: nat, e: Entry)
    requires Faithful(env) && Clean(env, es) && i + 1 < |es| && e != es[i]
    requires CollisionFree(env, Texts(env, es) + Texts(env, es[i := e]))
    ensures Report(env, es[i := e]) != Ok([])
  {
    CleanIffNoViolation(env, es[i := e]);
    if Report(env, es[i := e]) == Ok([]) {
      ChainBinding(env, es, es[i := e]);
      assert false;
    }
  }

  // ---------- deleting an entry ----------

  /** What a missing entry leaves in the report: the link of its successor, now at `i`. */
  function GapViolation(i: nat): Violation {
    Violation(i, if i == 0 then GenesisMismatch else PrevHashMismatch)
  }

  /** Deleting any entry but the last is reported by exactly one violation, at the gap. */
  lemma DeleteIsOneViolation(env: Env, es: seq<Entry>, i: nat)
    requires Faithful(env) && Clean(env, es) && AllCheckable(env, es) && i + 1 < |es|
    requires CollisionFree(env, Texts(env, es) + Texts(env, es[..i] + es[i + 1..]))
    ensures Report(env, es[..i] + es[i + 1..]) == Ok([GapViolation(i)])
  {
    GapReported(env, es, i, es[..i] + es[i + 1..]);
    QuietAfterGap(env, es, i, es[..i] + es[i + 1..], [GapViolation(i)]);
  }

  lemma QuietAfterGap(env: Env, es: seq<Entry>, i: nat, changed: seq<Entry>, vios: seq<Violation>)
    requires Clean(env, es) && i + 1 < |es| && changed == es[..i] + es[i + 1..]
    requires Folded(env, changed, i + 1) == Ok((vios, StateAfter(env, es, i + 2)))
    ensures Report(env, changed) == Ok(vios)
  {
    QuietToTheEnd(env, es, i + 2, changed, i + 1, vios);
  }

  /** The fold up to and including the entry after the gap. */
  lemma GapReported(env: Env, es: seq<Entry>, i: nat, changed: seq<Entry>)
    requires Faithful(env) && Clean(env, es) && AllCheckable(env, es) && i + 1 < |es|
    requires changed == es[..i] + es[i + 1..] && CollisionFree(env, Texts(env, es) + Texts(env, changed))
    ensures Folded(env, changed, i + 1) == Ok(([GapViolation(i)], StateAfter(env, es, i + 2)))
  {
    var vio := GapViolation(i);
    FoldAgrees(env, changed, es, i);
    CleanState(env, es, i);
    assert changed[i] == es[i + 1];
    GapTurn(env, es, i, changed);
    FoldStep(env, changed, i, [], StateAfter(env, es, i), [vio], StateAfter(env, es, i + 2));
    assert [] + [vio] == [vio];
  }

  lemma AloneBetweenEmpty(v: seq<Violation>)
    ensures [] + v + [] == v
  {
  }

  lemma GapTurn(env: Env, es: seq<Entry>, i: nat, changed: seq<Entry>)
    requires Faithful(env) && Clean(env, es) && AllCheckable(env, es) && i + 1 < |es|
    requires changed == es[..i] + es[i + 1..] && CollisionFree(env, Texts(env, es) + Texts(env, changed))
    ensures Turn(env, i, es[i + 1], StateAfter(env, es, i)) ==
            Ok(([GapViolation(i)], StateAfter(env, es, i + 2)))
  {
    StampsRise(env, es, i + 1);
    LastStampIs(env, es, i + 2);
    LinkBack(env, es, i + 1);
    if i == 0 {
      assert Texts(env, es) + Texts(env, changed) == Texts(env, changed) + Texts(env, es);
      GenesisIsNoEntryHash(env, changed, es, 0);
      assert changed[0] == es[1];
    } else {
      StampsRise(env, es, i);
      LastStampIs(env, es, i);
      NeighboursDiffer(env, es, i, Texts(env, es) + Texts(env, changed));
    }
    assert EntryClean(env, es, i + 1);
    AloneBetweenEmpty([GapViolation(i)]);
  }

  lemma NeighboursDiffer(env: Env, es: seq<Entry>, i: nat, texts: set<string>)
    requires Faithful(env) && Clean(env, es) && 0 < i < |es|
    requires Texts(env, es) <= texts && CollisionFree(env, texts)
    ensures !PyEq(Get(es[i], "hash"), Get(es[i - 1], "hash"))
  {
    SmallerCollisionFree(env, Texts(env, es), texts);
    HashesDistinct(env, es, i - 1, i);
    assert EntryClean(env, es, i);
    PyEqString(Get(es[i], "hash").s, Get(es[i - 1], "hash"));
  }

  // ---------- appending a built entry ----------

  /** The entry all three builders make (chain violation, round trip, feasibility): they
      differ in id, event and content only. */
  function BuildEntry(env: Env, es: seq<Entry>, id: string, ts: string, event: string, content: Json): Entry {
    var payload := BuildPayload(env, es, id, ts, event, content);
    payload["hash" := Str(env.sha(TextOf(env, payload)))]
  }

  function BuildPayload(env: Env, es: seq<Entry>, id: string, ts: string, event: string, content: Json): Entry {
    var scope := if es == [] then Str("global") else GetOr(es[|es| - 1], "scope", Str("global"));
    var prevHash :=
      if es == [] then Str(GenesisHash(env, Str("global"), Str("0.1")))
      else
        var last := es[|es| - 1];
        GetOr(last, "hash",
              Str(GenesisHash(env, GetOr(last, "scope", Str("global")), GetOr(last, "schema_version", Str("0.1")))));
    map["type" := Str("meta"), "scope" := scope, "id" := Str(id), "schema_version" := Str("0.1"),
        "ts" := Str(ts), "agent" := Str("user"), "event" := Str(event), "content" := content,
        "evidence_refs" := Arr([]), "prev_hash" := prevHash]
  }

  lemma BuiltPayload(env: Env, es: seq<Entry>, id: string, ts: string, event: string, content: Json)
    ensures var e, p := BuildEntry(env, es, id, ts, event, content), BuildPayload(env, es, id, ts, event, content);
            && Payload(e) == p && Get(e, "hash") == Str(env.sha(TextOf(env, p)))
            && TextOf(env, p) == TextOf(env, e)
            && "scope" in e && "schema_version" in e && "prev_hash" in e && "ts" in e && e["ts"] == Str(ts)
            && e["prev_hash"] == p["prev_hash"]
            && (es == [] ==> e["prev_hash"] == Str(GenesisHash(env, e["scope"], e["schema_version"])))
  {
    var p := BuildPayload(env, es, id, ts, event, content);
    assert p - {"hash"} == p;
  }

  /** The new timestamp does not precede, and compares with, the last one seen. */
  predicate NotEarlier(env: Env, ts: string, last: Option<Stamp>) {
    env.stamp(ts).Some? && last.Some? ==>
      env.stamp(ts).value.aware == last.value.aware && env.stamp(ts).value.at >= last.value.at
  }

  /** The turn on a built entry reports at most the link to its predecessor. */
  lemma BuiltTurn(env: Env, es: seq<Entry>, id: string, ts: string, event: string, content: Json, st: ChainState)
    requires env.canon(BuildPayload(env, es, id, ts, event, content)).Canonical?
    requires NotEarlier(env, ts, st.prevTs)
    ensures var e := BuildEntry(env, es, id, ts, event, content);
            var turned := Turn(env, |es|, e, st);
            && turned.Ok?
            && turned.value.0 == if es == [] || PyEq(e["prev_hash"], st.prevHash) then [] else [Violation(|es|, PrevHashMismatch)]
  {
    BuiltPayload(env, es, id, ts, event, content);
    AloneBetweenEmpty([]);
    AloneBetweenEmpty([Violation(|es|, PrevHashMismatch)]);
  }

  /** One more entry adds what its own turn reports. */
  lemma AppendOne(env: Env, es: seq<Entry>, e: Entry, more: seq<Violation>)
    requires Folded(env, es, |es|).Ok?
    requires Turn(env, |es|, e, Folded(env, es, |es|).value.1).Ok?
    requires Turn(env, |es|, e, Folded(env, es, |es|).value.1).value.0 == more
    ensures Report(env, es + [e]) == Ok(Folded(env, es, |es|).value.0 + more)
  {
    FoldAgrees(env, es + [e], es, |es|);
  }

  /** Appending a built entry to any ledger whose check completes, broken or not, adds nothing
      to the report exactly if the link written is the hash that the check carries. */
  lemma AppendBuiltIff(env: Env, es: seq<Entry>, id: string, ts: string, event: string, content: Json)
    requires Report(env, es).Ok?
    requires env.canon(BuildPayload(env, es, id, ts, event, content)).Canonical?
    requires NotEarlier(env, ts, Folded(env, es, |es|).value.1.prevTs)
    ensures Report(env, es + [BuildEntry(env, es, id, ts, event, content)]) == Report(env, es) <==>
            es == [] || PyEq(BuildEntry(env, es, id, ts, event, content)["prev_hash"], Folded(env, es, |es|).value.1.prevHash)
    ensures Report(env, es + [BuildEntry(env, es, id, ts, event, content)]) == Report(env, es) ||
            Report(env, es + [BuildEntry(env, es, id, ts, event, content)]) ==
            Ok(Report(env, es).value + [Violation(|es|, PrevHashMismatch)])
  {
    var e, st := BuildEntry(env, es, id, ts, event, content), Folded(env, es, |es|).value.1;
    BuiltTurn(env, es, id, ts, event, content, st);
    AppendOne(env, es, e, Turn(env, |es|, e, st).value.0);
    OneMoreDiffers(Report(env, es).value, Violation(|es|, PrevHashMismatch));
  }

  lemma OneMoreDiffers(v: seq<Violation>, x: Violation)
    ensures v + [] == v && v + [x] != v
  {
    assert |v + [x]| == |v| + 1;
  }

  /** The carried hash is the hash field of the last entry, if that entry could be hashed. */
  lemma CarriedHash(env: Env, es: seq<Entry>)
    requires es != [] && Folded(env, es, |es|).Ok? && env.canon(Payload(es[|es| - 1])).Canonical?
    ensures Folded(env, es, |es|).value.1.prevHash == Get(es[|es| - 1], "hash")
  {
  }

  /** After a last entry that could be hashed and carries a hash field nothing is added. */
  lemma AppendBuiltAddsNothing(env: Env, es: seq<Entry>, id: string, ts: string, event: string, content: Json)
    requires Report(env, es).Ok?
    requires env.canon(BuildPayload(env, es, id, ts, event, content)).Canonical?
    requires es != [] ==> "hash" in es[|es| - 1] && env.canon(Payload(es[|es| - 1])).Canonical?
    requires NotEarlier(env, ts, Folded(env, es, |es|).value.1.prevTs)
    ensures Report(env, es + [BuildEntry(env, es, id, ts, event, content)]) == Report(env, es)
  {
    if es != [] {
      CarriedHash(env, es);
      PyEqReflexive(Get(es[|es| - 1], "hash"));
    }
    AppendBuiltIff(env, es, id, ts, event, content);
  }

  /** Without a hash field on the last entry the builders fall back to a genesis hash, which
      the check then reports. */
  lemma AppendAfterHashlessIsReported(env: Env, es: seq<Entry>, id: string, ts: string, event: string, content: Json)
    requires Report(env, es).Ok? && es != []
    requires env.canon(BuildPayload(env, es, id, ts, event, content)).Canonical?
    requires "hash" !in es[|es| - 1] && env.canon(Payload(es[|es| - 1])).Canonical?
    requires NotEarlier(env, ts, Folded(env, es, |es|).value.1.prevTs)
    ensures Report(env, es + [BuildEntry(env, es, id, ts, event, content)]) ==
            Ok(Report(env, es).value + [Violation(|es|, PrevHashMismatch)])
  {
    CarriedHash(env, es);
    AppendBuiltIff(env, es, id, ts, event, content);
  }
}
