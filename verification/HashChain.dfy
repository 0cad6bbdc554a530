/** The hash-chained ledger (tools/jsonl_hash_chain.py). */
module HashChain {
  import opened Basics
  import opened Json

  /** A result, or an exception that the source lets escape. */
  datatype Checked<+T> = Ok(value: T) | Raised

  datatype Canon =
    | Canonical(text: string)
    | CanonicalizationError  // caught, and reported as a violation
    | ForeignError           // any other exception of the JSON library: not caught

  /** A parsed timestamp; naive and aware ones do not compare. */
  datatype Stamp = Stamp(aware: bool, at: int)

  /** The library calls: SHA-256, RFC 8785 canonicalisation of an object, ISO 8601 parsing,
      and the text of a non-string value inside an f-string. */
  datatype Env = Env(
    sha: string -> string, canon: Entry -> Canon, stamp: string -> Option<Stamp>, show: Json -> string)

  /** What RFC 8785 promises: distinct objects have distinct texts, and an object's text
      starts with a brace. */
  ghost predicate Faithful(env: Env) {
    && (forall p, q :: SameCanon(env, p, q) ==> p == q)
    && (forall p :: env.canon(p).Canonical? ==> |env.canon(p).text| > 0 && env.canon(p).text[0] == '{')
  }

  ghost predicate SameCanon(env: Env, p: Entry, q: Entry) {
    env.canon(p).Canonical? && env.canon(p) == env.canon(q)
  }

  datatype Kind = CanonicalFailed | HashRecalculation | GenesisMismatch | PrevHashMismatch | MonotonicityViolation
  datatype Violation = Violation(index: nat, kind: Kind)

  /** `compute_entry_hash` hashes the entry without its own hash field. */
  function Payload(e: Entry): Entry {
    e - {"hash"}
  }

  function Show(env: Env, j: Json): string {
    if j.Str? then j.s else env.show(j)
  }

  function GenesisText(env: Env, scope: Json, version: Json): string {
    "genesis:" + Show(env, scope) + ":" + Show(env, version)
  }

  function GenesisHash(env: Env, scope: Json, version: Json): string {
    env.sha(GenesisText(env, scope, version))
  }

  // ---------- the fold of validate_chain ----------

  /** What the loop carries: the hash field of the last entry that could be canonicalised,
      and the last timestamp that parsed. */
  datatype ChainState = ChainState(prevHash: Json, prevTs: Option<Stamp>)

  /** The fields the loop reads by subscript are there, and the timestamp is text; otherwise
      a KeyError or AttributeError escapes. */
  predicate Readable(i: nat, e: Entry) {
    && (i == 0 ==> "scope" in e && "schema_version" in e)
    && "prev_hash" in e && "ts" in e && e["ts"].Str?
  }

  /** Comparing a naive with an aware timestamp raises a TypeError. */
  predicate Comparable(cur: Option<Stamp>, last: Option<Stamp>) {
    cur.Some? && last.Some? ==> cur.value.aware == last.value.aware
  }

  predicate LinkOk(env: Env, i: nat, e: Entry, prevHash: Json)
    requires Readable(i, e)
  {
    if i == 0 then e["prev_hash"] == Str(GenesisHash(env, e["scope"], e["schema_version"]))
    else PyEq(e["prev_hash"], prevHash)
  }

  predicate GoesBack(cur: Option<Stamp>, last: Option<Stamp>) {
    cur.Some? && last.Some? && cur.value.at < last.value.at
  }

  /** The violations of a canonicalised, readable entry. */
  function Flaws(env: Env, i: nat, e: Entry, text: string, st: ChainState): seq<Violation>
    requires Readable(i, e)
  {
    (if Get(e, "hash") == Str(env.sha(text)) then [] else [Violation(i, HashRecalculation)])
    + (if LinkOk(env, i, e, st.prevHash) then []
       else [Violation(i, if i == 0 then GenesisMismatch else PrevHashMismatch)])
    + (if GoesBack(env.stamp(e["ts"].s), st.prevTs) then [Violation(i, MonotonicityViolation)] else [])
  }

  function NextState(env: Env, e: Entry, st: ChainState): ChainState
    requires "ts" in e && e["ts"].Str?
  {
    var cur := env.stamp(e["ts"].s);
    ChainState(Get(e, "hash"), if cur.Some? then cur else st.prevTs)
  }

  /** One turn of the loop. */
  function Turn(env: Env, i: nat, e: Entry, st: ChainState): Checked<(seq<Violation>, ChainState)> {
    match env.canon(Payload(e))
    case ForeignError => Raised
    case CanonicalizationError => Ok(([Violation(i, CanonicalFailed)], st))
    case Canonical(text) =>
      if Readable(i, e) && Comparable(env.stamp(e["ts"].s), st.prevTs)
      then Ok((Flaws(env, i, e, text, st), NextState(env, e, st)))
      else Raised
  }

  const START := ChainState(Null, None)

  /** The loop over the first `k` entries. */
  function Folded(env: Env, es: seq<Entry>, k: nat): Checked<(seq<Violation>, ChainState)>
    requires k <= |es|
  {
    if k == 0 then Ok(([], START))
    else
      match Folded(env, es, k - 1)
      case Raised => Raised
      case Ok((vios, st)) =>
        match Turn(env, k - 1, es[k - 1], st)
        case Raised => Raised
        case Ok((more, st')) => Ok((vios + more, st'))
  }

  /** What `validate_chain` reports. */
  function Report(env: Env, es: seq<Entry>): Checked<seq<Violation>> {
    match Folded(env, es, |es|)
    case Raised => Raised
    case Ok((vios, _)) => Ok(vios)
  }

  lemma {:induction false} RaisedStays(env: Env, es: seq<Entry>, k: nat, m: nat)
    requires k <= m <= |es| && Folded(env, es, k).Raised?
    ensures Folded(env, es, m).Raised?
  {
    if k < m {
      RaisedStays(env, es, k, m - 1);
    }
  }

  /** `validate_chain`. */
  method ValidateChain(env: Env, es: seq<Entry>) returns (r: Checked<seq<Violation>>)
    ensures r == Report(env, es)
  {
    var vios: seq<Violation> := [];
    var prevTs: Option<Stamp> := None;
    var prevHashActual := Null;
    for i := 0 to |es|
      invariant Folded(env, es, i) == Ok((vios, ChainState(prevHashActual, prevTs)))
    {
      var e := es[i];
      var canon := env.canon(Payload(e));
      if canon.ForeignError? {
        RaisedStays(env, es, i + 1, |es|);
        return Raised;
      }
      if canon.CanonicalizationError? {
        vios := vios + [Violation(i, CanonicalFailed)];
        continue;
      }
      if !Readable(i, e) {
        RaisedStays(env, es, i + 1, |es|);
        return Raised;
      }
      var hashVio, linkVio, tsVio: seq<Violation> := [], [], [];
      if Get(e, "hash") != Str(env.sha(canon.text)) {
        hashVio := [Violation(i, HashRecalculation)];
      }
      if i == 0 {
        if e["prev_hash"] != Str(GenesisHash(env, e["scope"], e["schema_version"])) {
          linkVio := [Violation(i, GenesisMismatch)];
        }
      } else if !PyEq(e["prev_hash"], prevHashActual) {
        linkVio := [Violation(i, PrevHashMismatch)];
      }
      var cur := env.stamp(e["ts"].s);
      if !Comparable(cur, prevTs) {
        RaisedStays(env, es, i + 1, |es|);
        return Raised;
      }
      if cur.Some? && prevTs.Some? && cur.value.at < prevTs.value.at {
        tsVio := [Violation(i, MonotonicityViolation)];
      }
      if cur.Some? {
        prevTs := cur;
      }
      prevHashActual := Get(e, "hash");
      vios := vios + (hashVio + linkVio + tsVio);
    }
    r := Ok(vios);
  }

  // ---------- clean chains ----------

  /** The last timestamp that parses among the first `k` entries. */
  function LastStamp(env: Env, es: seq<Entry>, k: nat): Option<Stamp>
    requires k <= |es|
  {
    if k == 0 then None
    else
      var ts := Get(es[k - 1], "ts");
      if ts.Str? && env.stamp(ts.s).Some? then env.stamp(ts.s) else LastStamp(env, es, k - 1)
  }

  /** What entry `i` must be for the chain to be intact there: it carries the hash of its own
      payload, names its predecessor's hash (or the genesis hash), and does not go back in
      time. */
  ghost predicate EntryClean(env: Env, es: seq<Entry>, i: nat)
    requires i < |es|
  {
    var e := es[i];
    && env.canon(Payload(e)).Canonical?
    && Get(e, "hash") == Str(env.sha(env.canon(Payload(e)).text))
    && Readable(i, e)
    && (if i == 0 then e["prev_hash"] == Str(GenesisHash(env, e["scope"], e["schema_version"]))
        else e["prev_hash"] == Get(es[i - 1], "hash"))
    && (var cur, last := env.stamp(e["ts"].s), LastStamp(env, es, i);
        cur.Some? && last.Some? ==> cur.value.aware == last.value.aware && cur.value.at >= last.value.at)
  }

  ghost predicate CleanUpTo(env: Env, es: seq<Entry>, k: nat)
    requires k <= |es|
  {
    forall i {:trigger EntryClean(env, es, i)} :: 0 <= i < k ==> EntryClean(env, es, i)
  }

  ghost predicate Clean(env: Env, es: seq<Entry>) {
    CleanUpTo(env, es, |es|)
  }

  function StateAfter(env: Env, es: seq<Entry>, k: nat): ChainState
    requires k <= |es|
  {
    ChainState(if k == 0 then Null else Get(es[k - 1], "hash"), LastStamp(env, es, k))
  }

  /** Nothing reported and no exception. */
  predicate Quiet(r: Checked<(seq<Violation>, ChainState)>) {
    r.Ok? && r.value.0 == []
  }

  /** From the state of an intact prefix, a turn reports nothing exactly on a clean entry. */
  lemma TurnClean(env: Env, es: seq<Entry>, i: nat)
    requires i < |es| && (i > 0 ==> Get(es[i - 1], "hash").Str?)
    ensures EntryClean(env, es, i) <==> Quiet(Turn(env, i, es[i], StateAfter(env, es, i)))
    ensures EntryClean(env, es, i) ==>
              Turn(env, i, es[i], StateAfter(env, es, i)) == Ok(([], StateAfter(env, es, i + 1)))
  {
    if i > 0 {
      PyEqString(Get(es[i - 1], "hash").s, Get(es[i], "prev_hash"));
    }
  }

  /** A clean entry, read part by part against the carried state. */
  lemma CleanParts(env: Env, es: seq<Entry>, i: nat)
    requires Clean(env, es) && i < |es|
    ensures env.canon(Payload(es[i])).Canonical? && Readable(i, es[i])
    ensures Get(es[i], "hash") == Str(env.sha(TextOf(env, es[i])))
    ensures LinkOk(env, i, es[i], StateAfter(env, es, i).prevHash)
    ensures Comparable(env.stamp(es[i]["ts"].s), StateAfter(env, es, i).prevTs)
    ensures !GoesBack(env.stamp(es[i]["ts"].s), StateAfter(env, es, i).prevTs)
    ensures NextState(env, es[i], StateAfter(env, es, i)) == StateAfter(env, es, i + 1)
  {
    assert EntryClean(env, es, i);
    if i > 0 {
      assert EntryClean(env, es, i - 1);
      PyEqString(Get(es[i - 1], "hash").s, Get(es[i], "prev_hash"));
    }
  }

  lemma {:induction false} CleanFolds(env: Env, es: seq<Entry>, k: nat)
    requires k <= |es|
    ensures CleanUpTo(env, es, k) <==> Quiet(Folded(env, es, k))
    ensures CleanUpTo(env, es, k) ==> Folded(env, es, k) == Ok(([], StateAfter(env, es, k)))
  {
    if k > 0 {
      CleanFolds(env, es, k - 1);
      if CleanUpTo(env, es, k - 1) {
        if k > 1 { HashIsString(env, es, k - 2); }
        TurnClean(env, es, k - 1);
      }
    }
  }

  lemma HashIsString(env: Env, es: seq<Entry>, i: nat)
    requires i < |es| && EntryClean(env, es, i)
    ensures Get(es[i], "hash").Str?
  {
  }

  /** `validate_chain` reports nothing exactly on clean chains. */
  lemma CleanIffNoViolation(env: Env, es: seq<Entry>)
    ensures Report(env, es) == Ok([]) <==> Clean(env, es)
  {
    CleanFolds(env, es, |es|);
  }

  /** Every prefix of a clean chain is clean. */
  lemma PrefixClean(env: Env, es: seq<Entry>, k: nat)
    requires Clean(env, es) && k <= |es|
    ensures Clean(env, es[..k])
  {
    forall i | 0 <= i < k ensures EntryClean(env, es[..k], i) {
      assert EntryClean(env, es, i);
      LastStampPrefix(env, es[..k], es, i);
    }
  }

  lemma {:induction false} LastStampPrefix(env: Env, a: seq<Entry>, b: seq<Entry>, k: nat)
    requires k <= |a| && k <= |b| && forall j :: 0 <= j < k ==> a[j] == b[j]
    ensures LastStamp(env, a, k) == LastStamp(env, b, k)
  {
    if k > 0 {
      LastStampPrefix(env, a, b, k - 1);
    }
  }

  // ---------- chain binding ----------

  /** The text whose hash an entry should carry. */
  function TextOf(env: Env, e: Entry): string {
    match env.canon(Payload(e))
    case Canonical(text) => text
    case _ => ""
  }

  /** All texts hashed while checking a ledger. */
  ghost function Texts(env: Env, es: seq<Entry>): set<string> {
    (if es == [] then {} else {GenesisText(env, Get(es[0], "scope"), Get(es[0], "schema_version"))})
    + set i | 0 <= i < |es| :: TextOf(env, es[i])
  }

  /** No two different texts of the set have the same hash. */
  ghost predicate CollisionFree(env: Env, texts: set<string>) {
    forall x, y {:trigger SameHash(env, x, y)} :: x in texts && y in texts && SameHash(env, x, y) ==> x == y
  }

  ghost predicate SameHash(env: Env, x: string, y: string) {
    env.sha(x) == env.sha(y)
  }

  lemma TextsOfPrefix(env: Env, es: seq<Entry>, k: nat)
    requires k <= |es|
    ensures Texts(env, es[..k]) <= Texts(env, es)
  {
    forall t | t in Texts(env, es[..k]) ensures t in Texts(env, es) {
      if k > 0 && t == GenesisText(env, Get(es[0], "scope"), Get(es[0], "schema_version")) {
      } else {
        var i :| 0 <= i < k && t == TextOf(env, es[..k][i]);
        assert t == TextOf(env, es[i]);
      }
    }
  }

  lemma EqualByParts(a: Entry, b: Entry)
    requires Payload(a) == Payload(b) && "hash" in a && "hash" in b && a["hash"] == b["hash"]
    ensures a == b
  {
    forall k ensures k in a <==> k in b {
      assert k != "hash" ==> (k in a <==> k in Payload(a)) && (k in b <==> k in Payload(b));
    }
    forall k | k in a ensures a[k] == b[k] {
      if k != "hash" { assert a[k] == Payload(a)[k] && b[k] == Payload(b)[k]; }
    }
  }

  /** Equal hash fields of two clean entries mean equal entries. */
  lemma SameHashSameEntry(env: Env, a: seq<Entry>, i: nat, b: seq<Entry>, j: nat)
    requires Faithful(env) && CollisionFree(env, Texts(env, a) + Texts(env, b))
    requires Clean(env, a) && Clean(env, b) && i < |a| && j < |b|
    requires Get(a[i], "hash") == Get(b[j], "hash")
    ensures a[i] == b[j]
  {
    assert EntryClean(env, a, i) && EntryClean(env, b, j);
    assert TextOf(env, a[i]) in Texts(env, a) && TextOf(env, b[j]) in Texts(env, b);
    assert SameHash(env, TextOf(env, a[i]), TextOf(env, b[j]));
    assert SameCanon(env, Payload(a[i]), Payload(b[j]));
    EqualByParts(a[i], b[j]);
  }

  lemma LinkBack(env: Env, a: seq<Entry>, i: nat)
    requires Clean(env, a) && i < |a|
    ensures i > 0 ==> Get(a[i], "prev_hash") == Get(a[i - 1], "hash")
    ensures i == 0 ==>
              Get(a[0], "prev_hash") == Str(GenesisHash(env, Get(a[0], "scope"), Get(a[0], "schema_version")))
  {
    assert EntryClean(env, a, i);
  }

  /** The hash of an entry is never a genesis hash. */
  lemma GenesisIsNoEntryHash(env: Env, a: seq<Entry>, b: seq<Entry>, j: nat)
    requires Faithful(env) && CollisionFree(env, Texts(env, a) + Texts(env, b))
    requires |a| > 0 && Clean(env, b) && j < |b|
    ensures Get(b[j], "hash") != Str(GenesisHash(env, Get(a[0], "scope"), Get(a[0], "schema_version")))
  {
    assert EntryClean(env, b, j);
    var g := GenesisText(env, Get(a[0], "scope"), Get(a[0], "schema_version"));
    assert g in Texts(env, a) && TextOf(env, b[j]) in Texts(env, b);
    assert g[0] == 'g' && TextOf(env, b[j])[0] == '{';
    assert !SameHash(env, g, TextOf(env, b[j]));
  }

  /** Two clean non-empty chains over collision-free texts that end in the same hash. */
  ghost predicate SameEnd(env: Env, a: seq<Entry>, b: seq<Entry>) {
    && CollisionFree(env, Texts(env, a) + Texts(env, b))
    && Clean(env, a) && Clean(env, b) && |a| > 0 && |b| > 0
    && Get(a[|a| - 1], "hash") == Get(b[|b| - 1], "hash")
  }

  lemma SameLastEntry(env: Env, a: seq<Entry>, b: seq<Entry>)
    requires Faithful(env) && SameEnd(env, a, b)
    ensures a[|a| - 1] == b[|b| - 1]
    ensures |a| == 1 <==> |b| == 1
  {
    var i, j := |a| - 1, |b| - 1;
    SameHashSameEntry(env, a, i, b, j);
    GenesisEntryIsFirst(env, a, i, b, j);
    GenesisEntryIsFirst(env, b, j, a, i);
  }

  lemma StepBack(env: Env, a: seq<Entry>, b: seq<Entry>)
    requires Faithful(env) && SameEnd(env, a, b)
    requires a[|a| - 1] == b[|b| - 1] && |a| > 1 && |b| > 1
    ensures SameEnd(env, a[..|a| - 1], b[..|b| - 1])
  {
    var i, j := |a| - 1, |b| - 1;
    LinkBack(env, a, i);
    LinkBack(env, b, j);
    PrefixClean(env, a, i);
    PrefixClean(env, b, j);
    PrefixCollisionFree(env, a, i, b, j);
  }

  /** Chain binding: two clean non-empty chains whose last hash fields agree are the same
      chain, whatever their lengths. */
  lemma {:induction false} ChainBinding(env: Env, a: seq<Entry>, b: seq<Entry>)
    requires Faithful(env) && SameEnd(env, a, b)
    ensures a == b
    decreases |a|
  {
    SameLastEntry(env, a, b);
    if |a| > 1 {
      StepBack(env, a, b);
      ChainBinding(env, a[..|a| - 1], b[..|b| - 1]);
    }
    assert a == a[..|a| - 1] + [a[|a| - 1]] && b == b[..|b| - 1] + [b[|b| - 1]];
  }

  /** An entry that opens a clean chain opens every clean chain it occurs in. */
  lemma GenesisEntryIsFirst(env: Env, a: seq<Entry>, i: nat, b: seq<Entry>, j: nat)
    requires Faithful(env) && CollisionFree(env, Texts(env, a) + Texts(env, b))
    requires Clean(env, a) && Clean(env, b) && i < |a| && j < |b| && a[i] == b[j]
    ensures j == 0 ==> i == 0
  {
    LinkBack(env, a, i);
    LinkBack(env, b, j);
    if i > 0 {
      assert Texts(env, a) + Texts(env, b) == Texts(env, b) + Texts(env, a);
      GenesisIsNoEntryHash(env, b, a, i - 1);
    }
  }

  lemma PrefixCollisionFree(env: Env, a: seq<Entry>, i: nat, b: seq<Entry>, j: nat)
    requires CollisionFree(env, Texts(env, a) + Texts(env, b)) && i <= |a| && j <= |b|
    ensures CollisionFree(env, Texts(env, a[..i]) + Texts(env, b[..j]))
  {
    TextsOfPrefix(env, a, i);
    TextsOfPrefix(env, b, j);
    SmallerCollisionFree(env, Texts(env, a[..i]) + Texts(env, b[..j]), Texts(env, a) + Texts(env, b));
  }

  lemma SmallerCollisionFree(env: Env, small: set<string>, large: set<string>)
    requires small <= large && CollisionFree(env, large)
    ensures CollisionFree(env, small)
  {
  }

  /** All hash fields of a clean chain are different. */
  lemma HashesDistinct(env: Env, es: seq<Entry>, i: nat, j: nat)
    requires Faithful(env) && CollisionFree(env, Texts(env, es)) && Clean(env, es) && i < j < |es|
    ensures Get(es[i], "hash") != Get(es[j], "hash")
  {
    if Get(es[i], "hash") == Get(es[j], "hash") {
      PrefixesSameEnd(env, es, i, j);
      ChainBinding(env, es[..i + 1], es[..j + 1]);
      assert false;
    }
  }

  lemma PrefixesSameEnd(env: Env, es: seq<Entry>, i: nat, j: nat)
    requires CollisionFree(env, Texts(env, es)) && Clean(env, es) && i < |es| && j < |es|
    requires Get(es[i], "hash") == Get(es[j], "hash")
    ensures SameEnd(env, es[..i + 1], es[..j + 1])
  {
    PrefixClean(env, es, i + 1);
    PrefixClean(env, es, j + 1);
    assert Texts(env, es) + Texts(env, es) == Texts(env, es);
    PrefixCollisionFree(env, es, i + 1, es, j + 1);
  }
}
