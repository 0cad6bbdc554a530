/** Exactly which violations the chain check reports, and exactly when it raises. */
module ChainReport {
  import opened Basics
  import opened Json
  import opened HashChain
  import opened Anchor
  import Tamper = ChainTamper

  // ---------- what the check remembers of the entries before ----------

  /** The entry, without its hash field, has canonical text; others are skipped. */
  predicate Hashed(env: Env, e: Entry) {
    env.canon(e - {"hash"}).Canonical?
  }

  /** The hash field of the last entry before `k` that was not skipped. */
  function LastHash(env: Env, es: seq<Entry>, k: nat): Json
    requires k <= |es|
  {
    if k == 0 then Null
    else if Hashed(env, es[k - 1]) then (if "hash" in es[k - 1] then es[k - 1]["hash"] else Null)
    else LastHash(env, es, k - 1)
  }

  /** The last timestamp before `k` that parses, of an entry that was not skipped. */
  function LastTime(env: Env, es: seq<Entry>, k: nat): Option<Stamp>
    requires k <= |es|
  {
    if k == 0 then None
    else
      var e := es[k - 1];
      if Hashed(env, e) && "ts" in e && e["ts"].Str? && env.stamp(e["ts"].s).Some? then env.stamp(e["ts"].s)
      else LastTime(env, es, k - 1)
  }

  lemma {:induction false} FoldedState(env: Env, es: seq<Entry>, k: nat)
    requires k <= |es| && Folded(env, es, k).Ok?
    ensures Folded(env, es, k).value.1 == ChainState(LastHash(env, es, k), LastTime(env, es, k))
  {
    if k > 0 { FoldedState(env, es, k - 1); }
  }

  // ---------- when it raises ----------

  /** Entry `i` raises: the JSON library fails in an unexpected way, a field read by subscript
      is missing, the timestamp is no text, or it does not compare with the last one. */
  predicate Raises(env: Env, es: seq<Entry>, i: nat)
    requires i < |es|
  {
    var e := es[i];
    || env.canon(e - {"hash"}).ForeignError?
    || (Hashed(env, e) &&
        (|| (i == 0 && ("scope" !in e || "schema_version" !in e))
         || "prev_hash" !in e || "ts" !in e || !e["ts"].Str?
         || (var cur, last := env.stamp(e["ts"].s), LastTime(env, es, i);
             cur.Some? && last.Some? && cur.value.aware != last.value.aware)))
  }

  lemma TurnRaises(env: Env, es: seq<Entry>, i: nat)
    requires i < |es| && Folded(env, es, i).Ok?
    ensures Turn(env, i, es[i], Folded(env, es, i).value.1).Raised? <==> Raises(env, es, i)
  {
    FoldedState(env, es, i);
  }

  lemma {:induction false} FoldedRaises(env: Env, es: seq<Entry>, k: nat)
    requires k <= |es|
    ensures Folded(env, es, k).Raised? <==> exists i :: 0 <= i < k && Raises(env, es, i)
  {
    if k > 0 {
      FoldedRaises(env, es, k - 1);
      if Folded(env, es, k - 1).Ok? { TurnRaises(env, es, k - 1); }
    }
  }

  /** The check raises exactly if some entry does. */
  lemma RaisedIff(env: Env, es: seq<Entry>)
    ensures Report(env, es).Raised? <==> exists i :: 0 <= i < |es| && Raises(env, es, i)
  {
    FoldedRaises(env, es, |es|);
  }

  // ---------- what it reports ----------

  /** The text of a field inside an f-string. */
  function Printed(env: Env, j: Json): string {
    match j
    case Str(s) => s
    case _ => env.show(j)
  }

  /** The link of entry `i` names neither the hash of `genesis:<scope>:<schema_version>`, for
      the first entry, nor the last hash field seen, for the others. */
  predicate LinkBroken(env: Env, es: seq<Entry>, i: nat)
    requires i < |es|
  {
    var e := es[i];
    if i == 0 then
      "scope" in e && "schema_version" in e && "prev_hash" in e &&
      e["prev_hash"] != Str(env.sha("genesis:" + Printed(env, e["scope"]) + ":" + Printed(env, e["schema_version"])))
    else "prev_hash" in e && !PyEq(e["prev_hash"], LastHash(env, es, i))
  }

  predicate TimeGoesBack(env: Env, es: seq<Entry>, i: nat)
    requires i < |es|
  {
    var e := es[i];
    "ts" in e && e["ts"].Str? &&
    (var cur, last := env.stamp(e["ts"].s), LastTime(env, es, i);
     cur.Some? && last.Some? && cur.value.at < last.value.at)
  }

  /** The violation `v` is really there. */
  predicate Broken(env: Env, es: seq<Entry>, v: Violation) {
    && v.index < |es|
    && var e := es[v.index];
       match v.kind
       case CanonicalFailed => env.canon(e - {"hash"}).CanonicalizationError?
       case HashRecalculation =>
         Hashed(env, e) && !("hash" in e && e["hash"] == Str(env.sha(env.canon(e - {"hash"}).text)))
       case GenesisMismatch => v.index == 0 && Hashed(env, e) && LinkBroken(env, es, 0)
       case PrevHashMismatch => v.index > 0 && Hashed(env, e) && LinkBroken(env, es, v.index)
       case MonotonicityViolation => Hashed(env, e) && TimeGoesBack(env, es, v.index)
  }

  lemma FlawsAre(env: Env, i: nat, e: Entry, text: string, st: ChainState, v: Violation)
    requires Readable(i, e)
    ensures v in Flaws(env, i, e, text, st) <==>
            && v.index == i
            && match v.kind
               case CanonicalFailed => false
               case HashRecalculation => Get(e, "hash") != Str(env.sha(text))
               case GenesisMismatch => i == 0 && !LinkOk(env, i, e, st.prevHash)
               case PrevHashMismatch => i > 0 && !LinkOk(env, i, e, st.prevHash)
               case MonotonicityViolation => GoesBack(env.stamp(e["ts"].s), st.prevTs)
    ensures InReportOrder(Flaws(env, i, e, text, st))
  {
  }

  lemma LinkIs(env: Env, es: seq<Entry>, i: nat)
    requires i < |es| && Readable(i, es[i])
    ensures LinkOk(env, i, es[i], LastHash(env, es, i)) <==> !LinkBroken(env, es, i)
  {
  }

  lemma TurnIs(env: Env, es: seq<Entry>, i: nat)
    requires i < |es| && Folded(env, es, i).Ok? && !Raises(env, es, i)
    ensures var st, canon := Folded(env, es, i).value.1, env.canon(es[i] - {"hash"});
            && st == ChainState(LastHash(env, es, i), LastTime(env, es, i))
            && Turn(env, i, es[i], st).Ok?
            && (if canon.Canonical?
                then Readable(i, es[i]) && Turn(env, i, es[i], st).value.0 == Flaws(env, i, es[i], canon.text, st)
                else canon.CanonicalizationError? && Turn(env, i, es[i], st).value.0 == [Violation(i, CanonicalFailed)])
  {
    FoldedState(env, es, i);
    TurnRaises(env, es, i);
  }

  lemma TurnReports(env: Env, es: seq<Entry>, i: nat, v: Violation)
    requires i < |es| && Folded(env, es, i).Ok? && !Raises(env, es, i)
    ensures var turn := Turn(env, i, es[i], Folded(env, es, i).value.1);
            turn.Ok? && (v in turn.value.0 <==> v.index == i && Broken(env, es, v))
  {
    TurnIs(env, es, i);
    var st, canon := Folded(env, es, i).value.1, env.canon(es[i] - {"hash"});
    if canon.Canonical? {
      FlawsAre(env, i, es[i], canon.text, st, v);
      LinkIs(env, es, i);
    }
  }

  /** The order of the report: by entry, and for one entry by kind. */
  function Rank(k: Kind): nat {
    match k
    case CanonicalFailed => 0
    case HashRecalculation => 1
    case GenesisMismatch => 2
    case PrevHashMismatch => 3
    case MonotonicityViolation => 4
  }

  predicate InReportOrder(vios: seq<Violation>) {
    forall a, b :: 0 <= a < b < |vios| ==>
      vios[a].index < vios[b].index || (vios[a].index == vios[b].index && Rank(vios[a].kind) < Rank(vios[b].kind))
  }

  lemma MoreInOrder(vios: seq<Violation>, more: seq<Violation>, i: nat)
    requires InReportOrder(vios) && InReportOrder(more)
    requires (forall v :: v in vios ==> v.index < i) && forall v :: v in more ==> v.index == i
    ensures InReportOrder(vios + more)
  {
    var all := vios + more;
    forall a, b | 0 <= a < b < |all|
      ensures all[a].index < all[b].index || (all[a].index == all[b].index && Rank(all[a].kind) < Rank(all[b].kind))
    {
      if a < |vios| <= b { assert all[a] in vios && all[b] in more; }
    }
  }

  lemma TurnInOrder(env: Env, es: seq<Entry>, i: nat)
    requires i < |es| && Folded(env, es, i).Ok? && !Raises(env, es, i)
    ensures var turn := Turn(env, i, es[i], Folded(env, es, i).value.1);
            turn.Ok? && InReportOrder(turn.value.0)
  {
    TurnIs(env, es, i);
    var st, canon := Folded(env, es, i).value.1, env.canon(es[i] - {"hash"});
    if canon.Canonical? { FlawsAre(env, i, es[i], canon.text, st, Violation(i, CanonicalFailed)); }
  }

  lemma {:induction false} FoldedInOrder(env: Env, es: seq<Entry>, k: nat)
    requires k <= |es| && Folded(env, es, k).Ok?
    ensures InReportOrder(Folded(env, es, k).value.0)
  {
    if k > 0 {
      FoldedInOrder(env, es, k - 1);
      FoldedRaises(env, es, k);
      TurnInOrder(env, es, k - 1);
      forall v ensures v in Folded(env, es, k - 1).value.0 ==> v.index < k - 1 { FoldedReports(env, es, k - 1, v); }
      forall v ensures v in Turn(env, k - 1, es[k - 1], Folded(env, es, k - 1).value.1).value.0 ==> v.index == k - 1 {
        TurnReports(env, es, k - 1, v);
      }
      MoreInOrder(Folded(env, es, k - 1).value.0,
                  Turn(env, k - 1, es[k - 1], Folded(env, es, k - 1).value.1).value.0, k - 1);
    }
  }

  lemma {:induction false} FoldedReports(env: Env, es: seq<Entry>, k: nat, v: Violation)
    requires k <= |es| && Folded(env, es, k).Ok?
    ensures v in Folded(env, es, k).value.0 <==> v.index < k && Broken(env, es, v)
  {
    if k > 0 {
      FoldedReports(env, es, k - 1, v);
      FoldedRaises(env, es, k);
      TurnReports(env, es, k - 1, v);
    }
  }

  /** Exact report: the check reports exactly the violations that are really there, each once,
      entry by entry. */
  lemma ReportExact(env: Env, es: seq<Entry>)
    requires Report(env, es).Ok?
    ensures InReportOrder(Report(env, es).value)
    ensures forall v :: v in Report(env, es).value <==> Broken(env, es, v)
  {
    FoldedInOrder(env, es, |es|);
    forall v ensures v in Report(env, es).value <==> Broken(env, es, v) {
      FoldedReports(env, es, |es|, v);
    }
  }

  // ---------- the entries that the tools append ----------

  /** The field `k` of the last entry, or the default. */
  function LastField(es: seq<Entry>, k: string, default: string): Json {
    if es != [] && k in es[|es| - 1] then es[|es| - 1][k] else Str(default)
  }

  /** The genesis hash a builder falls back to. */
  function FallbackLink(env: Env, es: seq<Entry>): string {
    env.sha("genesis:" + Printed(env, LastField(es, "scope", "global")) + ":" + Printed(env, LastField(es, "schema_version", "0.1")))
  }

  lemma FallbackIs(env: Env, es: seq<Entry>)
    ensures var scope := if es == [] then Str("global") else GetOr(es[|es| - 1], "scope", Str("global"));
            var version := if es == [] then Str("0.1") else GetOr(es[|es| - 1], "schema_version", Str("0.1"));
            GenesisHash(env, scope, version) == FallbackLink(env, es) && scope == LastField(es, "scope", "global")
  {
  }

  lemma PayloadLink(env: Env, es: seq<Entry>, id: string, ts: string, event: string, content: Json)
    ensures var p := Tamper.BuildPayload(env, es, id, ts, event, content);
            && "prev_hash" in p && p["prev_hash"] == LastField(es, "hash", FallbackLink(env, es))
            && "scope" in p && p["scope"] == LastField(es, "scope", "global")
  {
    FallbackIs(env, es);
  }

  lemma PayloadRest(env: Env, es: seq<Entry>, id: string, ts: string, event: string, content: Json)
    ensures var p := Tamper.BuildPayload(env, es, id, ts, event, content);
            && p.Keys == {"type", "scope", "id", "schema_version", "ts", "agent", "event", "content", "evidence_refs", "prev_hash"}
            && p["type"] == Str("meta") && p["id"] == Str(id) && p["schema_version"] == Str("0.1") && p["ts"] == Str(ts)
            && p["agent"] == Str("user") && p["event"] == Str(event) && p["content"] == content && p["evidence_refs"] == Arr([])
  {
  }

  /** What an appended entry says: its scope is that of the last entry, its link the hash of
      the last entry or else a genesis hash, its own hash that of everything else in it. */
  lemma BuiltEntryIs(env: Env, es: seq<Entry>, id: string, ts: string, event: string, content: Json) returns (p: Entry)
    requires env.canon(Tamper.BuildPayload(env, es, id, ts, event, content)).Canonical?
    ensures env.canon(p).Canonical?
    ensures Tamper.BuildEntry(env, es, id, ts, event, content) == p["hash" := Str(env.sha(env.canon(p).text))]
    ensures p.Keys == {"type", "scope", "id", "schema_version", "ts", "agent", "event", "content", "evidence_refs", "prev_hash"}
    ensures && p["type"] == Str("meta") && p["id"] == Str(id) && p["schema_version"] == Str("0.1") && p["ts"] == Str(ts)
            && p["agent"] == Str("user") && p["event"] == Str(event) && p["content"] == content && p["evidence_refs"] == Arr([])
    ensures p["scope"] == LastField(es, "scope", "global") && p["prev_hash"] == LastField(es, "hash", FallbackLink(env, es))
  {
    p := Tamper.BuildPayload(env, es, id, ts, event, content);
    PayloadRest(env, es, id, ts, event, content);
    PayloadLink(env, es, id, ts, event, content);
    assert p - {"hash"} == p;
  }

  // ---------- the anchor ----------

  /** The finding `f` on a ledger and its anchor is really there. */
  predicate Differs(env: Env, anchor: Anchor, es: seq<Entry>, f: Finding)
    requires anchor.count.Some? ==> anchor.count.value > 0
  {
    match f
    case ChainBroken => Report(env, es) != Ok([])
    case EntryCountMismatch => anchor.count.Some? && |es| < anchor.count.value
    case TailHashMismatch =>
      es != [] && Truthy(anchor.tail) &&
      !PyEq(Get(if anchor.count.Some? && anchor.count.value < |es| then es[anchor.count.value - 1] else es[|es| - 1], "hash"),
            anchor.tail)
    case GenesisHashMismatch =>
      es != [] && Truthy(anchor.genesis) &&
      (var scope := if "scope" in es[0] then Printed(env, es[0]["scope"]) else "global";
       var version := if "schema_version" in es[0] then Printed(env, es[0]["schema_version"]) else "0.1";
       anchor.genesis != Str(env.sha("genesis:" + scope + ":" + version)))
    case SelfInconsistent =>
      es != [] && Truthy(anchor.tail) && Report(env, es) == Ok([]) && anchor.count == Some(|es|) &&
      Truthy(Get(es[|es| - 1], "hash")) && !PyEq(Get(es[|es| - 1], "hash"), anchor.tail)
  }

  lemma GenesisIs(env: Env, anchor: Anchor, es: seq<Entry>)
    requires es != []
    ensures GenesisDiffers(env, anchor, es) <==> Differs(env, anchor.(count := None), es, GenesisHashMismatch)
  {
    PyEqString(GenesisHash(env, GetOr(es[0], "scope", Str("global")), GetOr(es[0], "schema_version", Str("0.1"))),
               anchor.genesis);
  }

  /** Exact verdict: unless the chain check raises, exactly the differences that are really
      there are reported. */
  lemma VerdictExact(env: Env, anchor: Anchor, es: seq<Entry>)
    requires anchor.count.Some? ==> anchor.count.value > 0
    ensures Verdict(env, anchor, es).Raised? <==> Report(env, es).Raised?
    ensures Verdict(env, anchor, es).Ok? ==>
              forall f :: f in Verdict(env, anchor, es).value <==> Differs(env, anchor, es, f)
  {
    if Report(env, es).Ok? {
      if es != [] { GenesisIs(env, anchor, es); }
      forall f ensures f in Verdict(env, anchor, es).value <==> Differs(env, anchor, es, f) {
        FindingsAre(env, anchor, es, Report(env, es).value, f);
      }
    }
  }

  lemma FindingsAre(env: Env, anchor: Anchor, es: seq<Entry>, chain: seq<Violation>, f: Finding)
    requires anchor.count.Some? ==> anchor.count.value > 0
    ensures f in Findings(env, anchor, es, chain) <==>
            match f
            case ChainBroken => chain != []
            case EntryCountMismatch => CountShort(anchor, es)
            case TailHashMismatch => TailDiffers(anchor, es)
            case GenesisHashMismatch => GenesisDiffers(env, anchor, es)
            case SelfInconsistent => Blamed(anchor, es, chain)
  {
  }
}
