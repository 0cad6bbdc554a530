/** The external anchor of a ledger (tools/history_anchor_verifier.py). */
module Anchor {
  import opened Basics
  import opened Json
  import opened HashChain

  /** An anchor that passed its schema check: the count is null or a positive integer. */
  datatype Anchor = Anchor(count: Option<nat>, tail: Json, genesis: Json)

  datatype Finding = ChainBroken | EntryCountMismatch | TailHashMismatch | GenesisHashMismatch | SelfInconsistent

  /** The anchor recorded for a non-empty ledger. */
  function AnchorOf(env: Env, es: seq<Entry>): Anchor
    requires es != []
  {
    Anchor(Some(|es|), Get(es[|es| - 1], "hash"),
           Str(GenesisHash(env, Get(es[0], "scope"), Get(es[0], "schema_version"))))
  }

  /** The entry whose hash the anchor pins: the last one, or, in a ledger that has grown, the
      one that was last when the anchor was taken. */
  function PinnedIndex(anchor: Anchor, es: seq<Entry>): nat
    requires es != [] && (anchor.count.Some? ==> anchor.count.value > 0)
  {
    if anchor.count.Some? && |es| > anchor.count.value then anchor.count.value - 1 else |es| - 1
  }

  predicate CountShort(anchor: Anchor, es: seq<Entry>) {
    anchor.count.Some? && |es| < anchor.count.value
  }

  predicate TailDiffers(anchor: Anchor, es: seq<Entry>)
    requires anchor.count.Some? ==> anchor.count.value > 0
  {
    Truthy(anchor.tail) && es != [] && !PyEq(Get(es[PinnedIndex(anchor, es)], "hash"), anchor.tail)
  }

  predicate GenesisDiffers(env: Env, anchor: Anchor, es: seq<Entry>) {
    Truthy(anchor.genesis) && es != [] &&
    !PyEq(Str(GenesisHash(env, GetOr(es[0], "scope", Str("global")), GetOr(es[0], "schema_version", Str("0.1")))),
          anchor.genesis)
  }

  predicate Blamed(anchor: Anchor, es: seq<Entry>, chain: seq<Violation>) {
    && Truthy(anchor.tail) && es != [] && chain == [] && anchor.count == Some(|es|)
    && Truthy(Get(es[|es| - 1], "hash")) && !PyEq(Get(es[|es| - 1], "hash"), anchor.tail)
  }

  /** What the verifier reports on a ledger whose chain check reported `chain`. */
  function Findings(env: Env, anchor: Anchor, es: seq<Entry>, chain: seq<Violation>): seq<Finding>
    requires anchor.count.Some? ==> anchor.count.value > 0
  {
    (if chain != [] then [ChainBroken] else [])
    + (if CountShort(anchor, es) then [EntryCountMismatch] else [])
    + (if TailDiffers(anchor, es) then [TailHashMismatch] else [])
    + (if GenesisDiffers(env, anchor, es) then [GenesisHashMismatch] else [])
    + (if Blamed(anchor, es, chain) then [SelfInconsistent] else [])
  }

  /** `verify_anchor`, from the parsed ledger on. */
  method VerifyAnchor(env: Env, anchor: Anchor, es: seq<Entry>) returns (r: Checked<seq<Finding>>)
    requires anchor.count.Some? ==> anchor.count.value > 0
    ensures r == Verdict(env, anchor, es)
  {
    var checked := ValidateChain(env, es);
    if checked.Raised? {
      return Raised;
    }
    var chainVios := checked.value;
    var vios: seq<Finding> := [];
    if chainVios != [] {
      vios := [ChainBroken];
    }
    ghost var broken := vios;
    var appendedOnly := false;
    if anchor.count.Some? && |es| != anchor.count.value {
      if |es| > anchor.count.value {
        appendedOnly := true;
      } else {
        vios := vios + [EntryCountMismatch];
      }
    }
    assert vios == broken + (if CountShort(anchor, es) then [EntryCountMismatch] else []);
    ghost var counted := vios;
    if Truthy(anchor.tail) && es != [] {
      if appendedOnly {
        var at := anchor.count.value - 1;
        if 0 <= at < |es| && !PyEq(Get(es[at], "hash"), anchor.tail) {
          vios := vios + [TailHashMismatch];
        }
      } else if !PyEq(Get(es[|es| - 1], "hash"), anchor.tail) {
        vios := vios + [TailHashMismatch];
      }
    }
    assert vios == counted + (if TailDiffers(anchor, es) then [TailHashMismatch] else []);
    ghost var tailed := vios;
    if Truthy(anchor.genesis) && es != [] {
      var scope := GetOr(es[0], "scope", Str("global"));
      var version := GetOr(es[0], "schema_version", Str("0.1"));
      if !PyEq(Str(GenesisHash(env, scope, version)), anchor.genesis) {
        vios := vios + [GenesisHashMismatch];
      }
    }
    assert vios == tailed + (if GenesisDiffers(env, anchor, es) then [GenesisHashMismatch] else []);
    ghost var rooted := vios;
    if Truthy(anchor.tail) && es != [] && chainVios == [] && !appendedOnly && anchor.count == Some(|es|) {
      var actual := Get(es[|es| - 1], "hash");
      if Truthy(actual) && !PyEq(actual, anchor.tail) {
        vios := vios + [SelfInconsistent];
      }
    }
    assert vios == rooted + (if Blamed(anchor, es, chainVios) then [SelfInconsistent] else []);
    r := Ok(vios);
  }

  /** What verify_anchor returns, as a function. */
  function Verdict(env: Env, anchor: Anchor, es: seq<Entry>): Checked<seq<Finding>>
    requires anchor.count.Some? ==> anchor.count.value > 0
  {
    match Report(env, es)
    case Raised => Raised
    case Ok(chain) => Ok(Findings(env, anchor, es, chain))
  }

  lemma FindingsEmptyIff(env: Env, anchor: Anchor, es: seq<Entry>, chain: seq<Violation>)
    requires anchor.count.Some? ==> anchor.count.value > 0
    ensures Findings(env, anchor, es, chain) == [] <==>
            && chain == [] && !CountShort(anchor, es) && !TailDiffers(anchor, es)
            && !GenesisDiffers(env, anchor, es) && !Blamed(anchor, es, chain)
  {
  }

  /** Blaming the anchor never comes without a tail mismatch. */
  lemma SelfInconsistentImpliesTail(env: Env, anchor: Anchor, es: seq<Entry>, chain: seq<Violation>)
    requires anchor.count.Some? ==> anchor.count.value > 0
    requires SelfInconsistent in Findings(env, anchor, es, chain)
    ensures TailHashMismatch in Findings(env, anchor, es, chain)
    ensures chain == [] && anchor.count == Some(|es|)
  {
    assert Blamed(anchor, es, chain);
    assert TailDiffers(anchor, es);
  }

  lemma CleanHashIsText(env: Env, es: seq<Entry>, i: nat)
    requires Clean(env, es) && i < |es|
    ensures Get(es[i], "hash").Str?
    ensures i == 0 ==> "scope" in es[0] && "schema_version" in es[0]
  {
    assert EntryClean(env, es, i);
  }

  /** An extension of the anchored ledger passes. */
  lemma ExtensionPasses(env: Env, l: seq<Entry>, m: seq<Entry>)
    requires Clean(env, l) && l != [] && Clean(env, m) && l <= m
    ensures Verdict(env, AnchorOf(env, l), m) == Ok([])
  {
    CleanIffNoViolation(env, m);
    CleanHashIsText(env, l, |l| - 1);
    CleanHashIsText(env, m, 0);
    PyEqReflexive(Get(l[|l| - 1], "hash"));
    assert m[|l| - 1] == l[|l| - 1] && m[0] == l[0];
    FindingsEmptyIff(env, AnchorOf(env, l), m, []);
  }

  lemma PassingTail(env: Env, l: seq<Entry>, m: seq<Entry>)
    requires Clean(env, l) && l != [] && (forall s :: env.sha(s) != "")
    requires !CountShort(AnchorOf(env, l), m) && !TailDiffers(AnchorOf(env, l), m)
    ensures |m| >= |l| && Get(m[|l| - 1], "hash") == Get(l[|l| - 1], "hash")
  {
    var anchor := AnchorOf(env, l);
    assert PinnedIndex(anchor, m) == |l| - 1;
    assert EntryClean(env, l, |l| - 1);
    PyEqString(anchor.tail.s, Get(m[|l| - 1], "hash"));
  }

  /** A ledger that passes extends the anchored one. */
  lemma PassingExtends(env: Env, l: seq<Entry>, m: seq<Entry>)
    requires Faithful(env) && Clean(env, l) && l != []
    requires (forall s :: env.sha(s) != "") && CollisionFree(env, Texts(env, l) + Texts(env, m))
    requires Verdict(env, AnchorOf(env, l), m) == Ok([])
    ensures Clean(env, m) && l <= m
  {
    FindingsEmptyIff(env, AnchorOf(env, l), m, Report(env, m).value);
    CleanIffNoViolation(env, m);
    PassingTail(env, l, m);
    PrefixClean(env, m, |l|);
    assert l[..|l|] == l;
    PrefixCollisionFree(env, l, |l|, m, |l|);
    assert SameEnd(env, l, m[..|l|]);
    ChainBinding(env, l, m[..|l|]);
  }

  /** Anchor exactness: against the anchor of a clean non-empty ledger, another ledger passes
      exactly if it is a clean chain that extends the anchored one. */
  lemma AnchorExact(env: Env, l: seq<Entry>, m: seq<Entry>)
    requires Faithful(env) && Clean(env, l) && l != []
    requires (forall s :: env.sha(s) != "") && CollisionFree(env, Texts(env, l) + Texts(env, m))
    ensures Verdict(env, AnchorOf(env, l), m) == Ok([]) <==> Clean(env, m) && l <= m
  {
    if Verdict(env, AnchorOf(env, l), m) == Ok([]) {
      PassingExtends(env, l, m);
    }
    if Clean(env, m) && l <= m {
      ExtensionPasses(env, l, m);
    }
  }

  // ---------- why an anchor is needed ----------

  /** Seal drafts into a chain: fill in each link and hash in turn. */
  function Seal(env: Env, drafts: seq<Entry>): seq<Entry> {
    if drafts == [] then []
    else
      var k := |drafts| - 1;
      var before := Seal(env, drafts[..k]);
      before + [SealOne(env, drafts[k], before)]
  }

  function SealOne(env: Env, draft: Entry, before: seq<Entry>): Entry {
    var link :=
      if before == [] then Str(GenesisHash(env, Get(draft, "scope"), Get(draft, "schema_version")))
      else Get(before[|before| - 1], "hash");
    var linked := draft["prev_hash" := link];
    linked["hash" := Str(env.sha(TextOf(env, linked)))]
  }

  lemma {:induction false} SealedFields(env: Env, drafts: seq<Entry>)
    ensures |Seal(env, drafts)| == |drafts|
    ensures forall i :: 0 <= i < |drafts| ==> SealedAt(env, drafts, Seal(env, drafts), i)
  {
    if drafts != [] {
      var k := |drafts| - 1;
      SealedFields(env, drafts[..k]);
      var before, all := Seal(env, drafts[..k]), Seal(env, drafts);
      forall i | 0 <= i < |drafts| ensures SealedAt(env, drafts, all, i) {
        if i < k {
          assert SealedAt(env, drafts[..k], before, i);
        } else {
          assert all[..k] == before;
        }
        assert i > 0 ==> all[..i][i - 1] == all[i - 1];
      }
    }
  }

  /** Entry `i` of a sealed ledger is its draft with link and hash filled in. */
  ghost predicate SealedAt(env: Env, drafts: seq<Entry>, sealed: seq<Entry>, i: nat)
    requires i < |drafts|
  {
    i < |sealed| && sealed[i] == SealOne(env, drafts[i], sealed[..i])
  }

  lemma {:induction false} SealedStamps(env: Env, drafts: seq<Entry>, k: nat)
    requires k <= |drafts|
    ensures |Seal(env, drafts)| == |drafts|
    ensures LastStamp(env, Seal(env, drafts), k) == LastStamp(env, drafts, k)
  {
    SealedFields(env, drafts);
    if k > 0 {
      SealedStamps(env, drafts, k - 1);
      assert SealedAt(env, drafts, Seal(env, drafts), k - 1);
    }
  }

  /** A draft with its own fields in place, not earlier than the drafts before it. */
  ghost predicate Orderly(env: Env, drafts: seq<Entry>, i: nat)
    requires i < |drafts|
  {
    var e := drafts[i];
    && "scope" in e && "schema_version" in e && "ts" in e && e["ts"].Str?
    && (var cur, last := env.stamp(e["ts"].s), LastStamp(env, drafts, i);
        cur.Some? && last.Some? ==> cur.value.aware == last.value.aware && cur.value.at >= last.value.at)
  }

  /** Any orderly drafts, sealed, are a clean chain: the chain check alone cannot tell a
      rewritten history from the original. */
  lemma SealedIsClean(env: Env, drafts: seq<Entry>)
    requires forall i :: 0 <= i < |drafts| ==> Orderly(env, drafts, i)
    requires forall i {:trigger Seal(env, drafts)[i]} ::
               0 <= i < |Seal(env, drafts)| ==> env.canon(Payload(Seal(env, drafts)[i])).Canonical?
    ensures Clean(env, Seal(env, drafts))
  {
    SealedFields(env, drafts);
    var all := Seal(env, drafts);
    forall i | 0 <= i < |all| ensures EntryClean(env, all, i) {
      assert Orderly(env, drafts, i) && SealedAt(env, drafts, all, i);
      SealedStamps(env, drafts, i);
      SealedEntryClean(env, drafts, all, i);
    }
  }

  lemma SealedEntryClean(env: Env, drafts: seq<Entry>, all: seq<Entry>, i: nat)
    requires i < |drafts| == |all| && Orderly(env, drafts, i) && SealedAt(env, drafts, all, i)
    requires LastStamp(env, all, i) == LastStamp(env, drafts, i)
    requires env.canon(Payload(all[i])).Canonical?
    ensures EntryClean(env, all, i)
  {
    var draft := drafts[i];
    var link :=
      if i == 0 then Str(GenesisHash(env, Get(draft, "scope"), Get(draft, "schema_version")))
      else Get(all[i - 1], "hash");
    var linked := draft["prev_hash" := link];
    assert all[i] == linked["hash" := Str(env.sha(TextOf(env, linked)))];
    assert Payload(all[i]) == Payload(linked);
  }

  /** The anchor does tell: a sealed rewrite that does not extend the anchored ledger passes
      the chain check and fails the anchor check. */
  lemma AnchorCatchesRewrite(env: Env, l: seq<Entry>, drafts: seq<Entry>)
    requires Faithful(env) && Clean(env, l) && l != []
    requires forall i :: 0 <= i < |drafts| ==> Orderly(env, drafts, i)
    requires forall i {:trigger Seal(env, drafts)[i]} ::
               0 <= i < |Seal(env, drafts)| ==> env.canon(Payload(Seal(env, drafts)[i])).Canonical?
    requires (forall s :: env.sha(s) != "") && CollisionFree(env, Texts(env, l) + Texts(env, Seal(env, drafts)))
    requires !(l <= Seal(env, drafts))
    ensures Report(env, Seal(env, drafts)) == Ok([])
    ensures Verdict(env, AnchorOf(env, l), Seal(env, drafts)) != Ok([])
  {
    SealedIsClean(env, drafts);
    CleanIffNoViolation(env, Seal(env, drafts));
    AnchorExact(env, l, Seal(env, drafts));
  }
}
