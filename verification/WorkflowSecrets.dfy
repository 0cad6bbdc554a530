/** The indentation stack of tools/workflow_secrets_reference_check.py. */
module WorkflowSecrets {
  import opened Basics
  import opened PyText

  // ---------- lines ----------

  /** A match of a pattern: where it is and the secret's name. */
  datatype Ref = Ref(start: nat, end: nat, name: string)

  /** The four patterns of the source, by what they extract. */
  datatype Patterns = Patterns(
    secretsBlock: string -> Option<string>,          // the text after `secrets:`
    keyHeader: string -> Option<(string, string)>,   // a key and the text after its colon
    interpolations: string -> seq<Ref>,
    bareNames: string -> seq<Ref>)

  datatype Header = SecretsBlock(inline: string) | Key(key: string, value: string) | NoHeader

  datatype Line = Line(number: nat, indent: nat, header: Header, ifInline: bool, refs: seq<Ref>, bare: seq<Ref>)

  datatype Finding = Finding(line: nat, context: string, name: string)

  /** A stack entry: the indent of a key and the key. */
  datatype Frame = Frame(indent: nat, key: string)

  const CONTEXT_KEYS: set<string> := {"env", "with", "run", "if"}
  const BLOCK_VALUES: set<string> := {"|", ">", "|-", ">-", "|+", ">+", ""}

  function HeaderOf(rx: Patterns, raw: string): Header {
    match rx.secretsBlock(raw)
    case Some(inline) => SecretsBlock(Strip(inline))
    case None =>
      match rx.keyHeader(raw)
      case Some(kv) => Key(kv.0, Strip(kv.1))
      case None => NoHeader
  }

  /** Blank lines and comments are skipped. */
  function ReadLine(rx: Patterns, raw: string, number: nat): Option<Line> {
    var stripped := LStrip(raw);
    if stripped == "" || "#" <= stripped then None
    else Some(Line(number, |raw| - |stripped|, HeaderOf(rx, raw), "if:" <= stripped || "if " <= stripped,
                   rx.interpolations(raw), rx.bareNames(raw)))
  }

  /** How a line of the file is read; the scanner below depends on nothing else. */
  type Reader = (string, nat) -> Option<Line>

  function ReaderOf(rx: Patterns): Reader {
    (raw: string, number: nat) => ReadLine(rx, raw, number)
  }

  /** The lines that are not skipped. */
  function LinesOf(read: Reader, raws: seq<string>): seq<Line> {
    if raws == [] then []
    else
      var (front, raw) := (raws[..|raws| - 1], raws[|raws| - 1]);
      match read(raw, |raws|)
      case Some(l) => LinesOf(read, front) + [l]
      case None => LinesOf(read, front)
  }

  // ---------- the true chain of enclosing keys ----------

  function KeyOf(l: Line): string {
    match l.header
    case SecretsBlock(_) => "secrets"
    case Key(key, _) => key
    case NoHeader => ""
  }

  /** Key line `j` encloses line `i`: everything since is strictly deeper. */
  predicate Encloses(ls: seq<Line>, j: nat, i: nat)
    requires i < |ls|
  {
    j <= i && !ls[j].header.NoHeader? && forall k :: j < k <= i ==> ls[k].indent > ls[j].indent
  }

  function FrameOf(l: Line): Frame {
    Frame(l.indent, KeyOf(l))
  }

  /** The frames of the lines before `n` that enclose line `i`, in order. */
  function Chain(ls: seq<Line>, n: nat, i: nat): seq<Frame>
    requires i < |ls|
  {
    if n == 0 then []
    else if Encloses(ls, n - 1, i) then Chain(ls, n - 1, i) + [FrameOf(ls[n - 1])]
    else Chain(ls, n - 1, i)
  }

  /** The chain of enclosing keys of line `i`, the line's own key included. */
  function FullChain(ls: seq<Line>, i: nat): seq<Frame>
    requires i < |ls|
  {
    Chain(ls, i + 1, i)
  }

  predicate IsContextKey(l: Line) {
    KeyOf(l) in CONTEXT_KEYS
  }

  /** The key of the last line before `n` that encloses line `i` and is a context key. */
  function NearestBefore(ls: seq<Line>, n: nat, i: nat): string
    requires i < |ls|
  {
    if n == 0 then "unknown"
    else if Encloses(ls, n - 1, i) && IsContextKey(ls[n - 1]) then KeyOf(ls[n - 1])
    else NearestBefore(ls, n - 1, i)
  }

  function Nearest(ls: seq<Line>, i: nat): string
    requires i < |ls|
  {
    NearestBefore(ls, i + 1, i)
  }

  /** A line that opens a block of shell text. */
  predicate OpensRun(l: Line) {
    l.header.Key? && l.header.key == "run" && l.header.value in BLOCK_VALUES
  }

  /** Line `i` belongs to the shell text that line `j` opened, the last such line. */
  predicate RunBlock(ls: seq<Line>, j: nat, i: nat)
    requires i < |ls|
  {
    j <= i && OpensRun(ls[j]) && Encloses(ls, j, i) && forall k :: j < k <= i ==> !OpensRun(ls[k])
  }

  predicate InRunBlock(ls: seq<Line>, i: nat)
    requires i < |ls|
  {
    exists j :: 0 <= j <= i && RunBlock(ls, j, i)
  }

  // ---------- what is reported ----------

  function Named(number: nat, context: string, refs: seq<Ref>): seq<Finding> {
    if refs == [] then [] else Named(number, context, refs[..|refs| - 1]) + [Finding(number, context, refs[|refs| - 1].name)]
  }

  predicate SameSpan(r: Ref, refs: seq<Ref>) {
    exists k :: 0 <= k < |refs| && refs[k].start == r.start && refs[k].end == r.end
  }

  /** The bare names that are not also interpolations. */
  function BareOnly(bare: seq<Ref>, refs: seq<Ref>): seq<Ref> {
    if bare == [] then []
    else
      var (front, r) := (bare[..|bare| - 1], bare[|bare| - 1]);
      BareOnly(front, refs) + (if SameSpan(r, refs) then [] else [r])
  }

  function Context(ls: seq<Line>, i: nat): string
    requires i < |ls|
  {
    if ls[i].ifInline then "if" else if InRunBlock(ls, i) then "run" else Nearest(ls, i)
  }

  function LineFindings(ls: seq<Line>, i: nat): seq<Finding>
    requires i < |ls|
  {
    var l := ls[i];
    if l.header.SecretsBlock? then [Finding(l.number, "secrets-block", l.header.inline)]
    else
      (if l.ifInline then Named(l.number, "if", BareOnly(l.bare, l.refs)) else [])
      + Named(l.number, Context(ls, i), l.refs)
  }

  /** The findings of line `i`, as a function of `i`. */
  function Reporter(ls: seq<Line>): nat -> seq<Finding> {
    (i: nat) => if i < |ls| then LineFindings(ls, i) else []
  }

  function Concat(report: nat -> seq<Finding>, n: nat): seq<Finding> {
    if n == 0 then [] else Concat(report, n - 1) + report(n - 1)
  }

  /** The report on all lines, in order. */
  function Findings(ls: seq<Line>): seq<Finding> {
    Concat(Reporter(ls), |ls|)
  }

  // ---------- the stack ----------

  function Popped(stack: seq<Frame>, indent: nat): seq<Frame> {
    if stack == [] then []
    else if stack[|stack| - 1].indent >= indent then Popped(stack[..|stack| - 1], indent)
    else stack
  }

  /** In the chain of line `i`, everything is less deep than a later enclosing line. */
  lemma {:induction false} ChainBelow(ls: seq<Line>, n: nat, i: nat, bound: nat)
    requires i < |ls| && n <= i + 1
    requires forall j :: 0 <= j < n && Encloses(ls, j, i) ==> ls[j].indent < bound
    ensures forall k :: 0 <= k < |Chain(ls, n, i)| ==> Chain(ls, n, i)[k].indent < bound
  {
    if n > 0 { ChainBelow(ls, n - 1, i, bound); }
  }

  /** A frame is in the chain exactly when some enclosing line has it. */
  lemma {:induction false} ChainIsExact(ls: seq<Line>, n: nat, i: nat, f: Frame)
    requires i < |ls|
    ensures f in Chain(ls, n, i) <==> exists j: nat :: j < n && Encloses(ls, j, i) && FrameOf(ls[j]) == f
  {
    if n > 0 { ChainIsExact(ls, n - 1, i, f); }
  }

  predicate Increasing(stack: seq<Frame>) {
    forall a, b :: 0 <= a < b < |stack| ==> stack[a].indent < stack[b].indent
  }

  /** The chain is strictly increasing in indent. */
  lemma {:induction false} ChainIncreases(ls: seq<Line>, n: nat, i: nat)
    requires i < |ls| && n <= i + 1
    ensures Increasing(Chain(ls, n, i))
  {
    if n > 0 {
      ChainIncreases(ls, n - 1, i);
      if Encloses(ls, n - 1, i) { ChainBelow(ls, n - 1, i, ls[n - 1].indent); }
    }
  }

  lemma PopTop(stack: seq<Frame>, f: Frame, indent: nat)
    ensures Popped(stack + [f], indent) == if f.indent >= indent then Popped(stack, indent) else stack + [f]
    ensures (forall k :: 0 <= k < |stack| ==> stack[k].indent < indent) ==> Popped(stack, indent) == stack
  {
    assert (stack + [f])[..|stack|] == stack;
  }

  lemma StillEncloses(ls: seq<Line>, j: nat, i: nat)
    requires 0 < i < |ls| && j < i && Encloses(ls, j, i - 1)
    ensures Encloses(ls, j, i) <==> ls[i].indent > ls[j].indent
  {
  }

  /** Popping everything at the new line's indent or deeper leaves the old keys that still
      enclose the new line. */
  lemma {:induction false} PoppedChain(ls: seq<Line>, n: nat, i: nat)
    requires 0 < i < |ls| && n <= i
    ensures Chain(ls, n, i) == Popped(Chain(ls, n, i - 1), ls[i].indent)
  {
    if n > 0 {
      PoppedChain(ls, n - 1, i);
      if Encloses(ls, n - 1, i - 1) {
        var before, f := Chain(ls, n - 1, i - 1), FrameOf(ls[n - 1]);
        PopTop(before, f, ls[i].indent);
        StillEncloses(ls, n - 1, i);
        assert Chain(ls, n, i - 1) == before + [f];
        if f.indent < ls[i].indent {
          ChainBelow(ls, n - 1, i - 1, f.indent);
        }
      }
    }
  }

  /** One turn of the scanner: pop, then push the line's own key. */
  lemma ChainStep(ls: seq<Line>, i: nat)
    requires i < |ls|
    ensures var kept := if i == 0 then [] else Popped(FullChain(ls, i - 1), ls[i].indent);
            FullChain(ls, i) == if ls[i].header.NoHeader? then kept else kept + [FrameOf(ls[i])]
  {
    assert FullChain(ls, i) == if !ls[i].header.NoHeader? then Chain(ls, i, i) + [FrameOf(ls[i])] else Chain(ls, i, i);
    if i > 0 {
      PoppedChain(ls, i, i);
      assert FullChain(ls, i - 1) == Chain(ls, i, i - 1);
    }
  }

  function TopContext(stack: seq<Frame>): string {
    if stack == [] then "unknown"
    else if stack[|stack| - 1].key in CONTEXT_KEYS then stack[|stack| - 1].key
    else TopContext(stack[..|stack| - 1])
  }

  lemma TopOf(stack: seq<Frame>, f: Frame)
    ensures TopContext(stack + [f]) == if f.key in CONTEXT_KEYS then f.key else TopContext(stack)
  {
    assert (stack + [f])[..|stack|] == stack;
  }

  /** The topmost context key of the stack is the nearest enclosing one. */
  lemma {:induction false} TopIsNearest(ls: seq<Line>, n: nat, i: nat)
    requires i < |ls| && n <= i + 1
    ensures TopContext(Chain(ls, n, i)) == NearestBefore(ls, n, i)
  {
    if n > 0 {
      TopIsNearest(ls, n - 1, i);
      var before := Chain(ls, n - 1, i);
      if Encloses(ls, n - 1, i) {
        var f := FrameOf(ls[n - 1]);
        TopOf(before, f);
        assert Chain(ls, n, i) == before + [f];
      }
    }
  }

  /** What "nearest" means: the reported key is that of an enclosing context key with no
      other enclosing context key after it, and "unknown" if there is none. */
  lemma {:induction false} NearestIsNearest(ls: seq<Line>, n: nat, i: nat)
    requires i < |ls| && n <= i + 1
    ensures (exists j: nat :: j < n && NearestAt(ls, j, n, i) && NearestBefore(ls, n, i) == KeyOf(ls[j]))
            || (NearestBefore(ls, n, i) == "unknown" && forall j: nat :: j < n ==> !ContextAt(ls, j, i))
  {
    if n > 0 {
      if ContextAt(ls, n - 1, i) {
        assert NearestAt(ls, n - 1, n, i);
      } else {
        NearestIsNearest(ls, n - 1, i);
        if j: nat :| j < n - 1 && NearestAt(ls, j, n - 1, i) && NearestBefore(ls, n - 1, i) == KeyOf(ls[j]) {
          assert NearestAt(ls, j, n, i);
        }
      }
    }
  }

  predicate ContextAt(ls: seq<Line>, j: nat, i: nat)
    requires i < |ls|
  {
    Encloses(ls, j, i) && IsContextKey(ls[j])
  }

  predicate NearestAt(ls: seq<Line>, j: nat, n: nat, i: nat)
    requires i < |ls| && n <= i + 1
  {
    j < n && ContextAt(ls, j, i) && forall k: nat :: j < k < n ==> !ContextAt(ls, k, i)
  }

  // ---------- the run flag ----------

  /** The flag of the scanner after line `i`, given the one before. */
  function RunFlag(before: Option<nat>, l: Line): Option<nat> {
    var kept := if before.Some? && l.indent <= before.value then None else before;
    if OpensRun(l) then Some(l.indent) else kept
  }

  ghost predicate FlagIs(ls: seq<Line>, i: nat, flag: Option<nat>)
    requires i < |ls|
  {
    if flag.Some? then exists j :: 0 <= j <= i && RunBlock(ls, j, i) && ls[j].indent == flag.value
    else !InRunBlock(ls, i)
  }

  lemma RunBlockNext(ls: seq<Line>, j: nat, i: nat)
    requires 0 < i < |ls| && j < i
    ensures RunBlock(ls, j, i) <==> RunBlock(ls, j, i - 1) && ls[i].indent > ls[j].indent && !OpensRun(ls[i])
  {
  }

  lemma RunBlockUnique(ls: seq<Line>, j: nat, k: nat, i: nat)
    requires i < |ls| && RunBlock(ls, j, i) && RunBlock(ls, k, i)
    ensures j == k
  {
  }

  /** The flag is up exactly inside the last block of shell text opened. */
  lemma FlagStep(ls: seq<Line>, i: nat, before: Option<nat>)
    requires i < |ls| && (if i == 0 then before.None? else FlagIs(ls, i - 1, before))
    ensures FlagIs(ls, i, RunFlag(before, ls[i]))
  {
    if OpensRun(ls[i]) {
      assert RunBlock(ls, i, i);
    } else if i == 0 {
      assert !RunBlock(ls, 0, 0);
    } else {
      if before.Some? {
        var j :| 0 <= j <= i - 1 && RunBlock(ls, j, i - 1) && ls[j].indent == before.value;
        RunBlockNext(ls, j, i);
        forall k | 0 <= k <= i && RunBlock(ls, k, i) ensures k == j {
          if k < i {
            RunBlockNext(ls, k, i);
            RunBlockUnique(ls, j, k, i - 1);
          }
        }
      } else {
        forall k | 0 <= k <= i ensures !RunBlock(ls, k, i) {
          if k < i { RunBlockNext(ls, k, i); }
        }
      }
    }
  }

  // ---------- what one flag can remember ----------

  /** Line `i` lies in the shell text of some opener, whatever else that text seems to open. */
  predicate InShellText(ls: seq<Line>, i: nat)
    requires i < |ls|
  {
    exists j :: 0 <= j <= i && OpensRun(ls[j]) && Encloses(ls, j, i)
  }

  /** The last opener before line `m` is `k`, inside the text of `j`; line `m` ends what `k`
      opened, but not what `j` opened. */
  predicate Forgotten(ls: seq<Line>, j: nat, k: nat, m: nat) {
    && j < k < m < |ls| && OpensRun(ls[j]) && OpensRun(ls[k]) && Encloses(ls, j, m)
    && ls[m].indent <= ls[k].indent && forall q :: k < q <= m ==> !OpensRun(ls[q])
  }

  lemma {:induction false} LastOpener(ls: seq<Line>, j: nat, i: nat) returns (k: nat)
    requires j <= i < |ls| && OpensRun(ls[j])
    ensures j <= k <= i && OpensRun(ls[k]) && forall q :: k < q <= i ==> !OpensRun(ls[q])
  {
    if OpensRun(ls[i]) {
      k := i;
    } else {
      k := LastOpener(ls, j, i - 1);
    }
  }

  lemma ForgottenLine(ls: seq<Line>, j: nat, k: nat, m: nat)
    requires Forgotten(ls, j, k, m)
    ensures InShellText(ls, m) && !InRunBlock(ls, m)
  {
    forall q: nat | q <= m ensures !RunBlock(ls, q, m) {
      if q == k { assert !Encloses(ls, k, m); }
    }
  }

  lemma LostIsForgotten(ls: seq<Line>, i: nat) returns (j: nat, k: nat, m: nat)
    requires i < |ls| && InShellText(ls, i) && !InRunBlock(ls, i)
    ensures Forgotten(ls, j, k, m)
  {
    j :| 0 <= j <= i && OpensRun(ls[j]) && Encloses(ls, j, i);
    k := LastOpener(ls, j, i);
    assert !RunBlock(ls, k, i) && !RunBlock(ls, j, i);
    m :| k < m <= i && ls[m].indent <= ls[k].indent;
  }

  /** The one flag says for every line whether shell text encloses it exactly if no opener
      inside shell text ends before the text that encloses it. */
  lemma FlagIsShellTextIff(ls: seq<Line>)
    ensures (forall i: nat :: i < |ls| ==> (InRunBlock(ls, i) <==> InShellText(ls, i))) <==>
            !exists j: nat, k: nat, m: nat :: Forgotten(ls, j, k, m)
  {
    forall j: nat, k: nat, m: nat | Forgotten(ls, j, k, m)
      ensures m < |ls| && !(InRunBlock(ls, m) <==> InShellText(ls, m))
    {
      ForgottenLine(ls, j, k, m);
    }
    forall i: nat | i < |ls| && InShellText(ls, i) && !InRunBlock(ls, i)
      ensures exists j: nat, k: nat, m: nat :: Forgotten(ls, j, k, m)
    {
      var j, k, m := LostIsForgotten(ls, i);
    }
  }

  /** Shell text whose second line reads like a key and whose third opens a block in turn. */
  function NestedRun(r: Ref): seq<Line> {
    [Line(1, 4, Key("run", "|"), false, [], []), Line(2, 6, Key("env", ""), false, [], []),
     Line(3, 8, Key("run", "|"), false, [], []), Line(4, 8, NoHeader, false, [r], [])]
  }

  /** There the reference is in shell text and reported as one in `env`. */
  lemma NestedRunIsForgotten(r: Ref)
    ensures Forgotten(NestedRun(r), 0, 2, 3)
    ensures Findings(NestedRun(r)) == [Finding(4, "env", r.name)]
  {
    var ls := NestedRun(r);
    ForgottenLine(ls, 0, 2, 3);
    assert !Encloses(ls, 2, 3) && Encloses(ls, 1, 3);
    assert Nearest(ls, 3) == NearestBefore(ls, 3, 3) == NearestBefore(ls, 2, 3);
    assert NearestBefore(ls, 2, 3) == KeyOf(ls[1]);
    assert [r][..0] == [];
    assert Named(4, "env", [r]) == Named(4, "env", []) + [Finding(4, "env", r.name)];
    assert Concat(Reporter(ls), 3) == [];
  }

  // ---------- the scanner ----------

  /** The inner loop that pops the stack. */
  method Pop(stack: seq<Frame>, indent: nat) returns (r: seq<Frame>)
    ensures r == Popped(stack, indent)
  {
    r := stack;
    while r != [] && r[|r| - 1].indent >= indent
      invariant Popped(r, indent) == Popped(stack, indent)
      decreases |r|
    {
      r := r[..|r| - 1];
    }
  }

  /** The search of the reversed stack. */
  method FindContext(stack: seq<Frame>) returns (context: string)
    ensures context == TopContext(stack)
  {
    var i := |stack|;
    assert stack[..i] == stack;
    while i > 0
      invariant 0 <= i <= |stack|
      invariant TopContext(stack[..i]) == TopContext(stack)
    {
      assert stack[..i][..i - 1] == stack[..i - 1];
      if stack[i - 1].key in CONTEXT_KEYS {
        return stack[i - 1].key;
      }
      i := i - 1;
    }
    context := "unknown";
  }

  /** The loop over the interpolations of a line. */
  method NameAll(number: nat, context: string, refs: seq<Ref>) returns (found: seq<Finding>)
    ensures found == Named(number, context, refs)
  {
    found := [];
    for k := 0 to |refs|
      invariant found == Named(number, context, refs[..k])
    {
      assert refs[..k + 1][..k] == refs[..k];
      found := found + [Finding(number, context, refs[k].name)];
    }
    assert refs[..|refs|] == refs;
  }

  /** The loop over the bare names of an `if` line. */
  method NameBare(number: nat, bare: seq<Ref>, refs: seq<Ref>) returns (found: seq<Finding>)
    ensures found == Named(number, "if", BareOnly(bare, refs))
  {
    found := [];
    for k := 0 to |bare|
      invariant found == Named(number, "if", BareOnly(bare[..k], refs))
    {
      BareMore(bare, k, refs);
      if !SameSpan(bare[k], refs) {
        NamedMore(number, "if", BareOnly(bare[..k], refs), bare[k]);
        found := found + [Finding(number, "if", bare[k].name)];
      }
    }
    assert bare[..|bare|] == bare;
  }

  lemma BareMore(bare: seq<Ref>, k: nat, refs: seq<Ref>)
    requires k < |bare|
    ensures BareOnly(bare[..k + 1], refs) == if SameSpan(bare[k], refs) then BareOnly(bare[..k], refs) else BareOnly(bare[..k], refs) + [bare[k]]
  {
    assert bare[..k + 1][..k] == bare[..k];
  }

  lemma NamedMore(number: nat, context: string, refs: seq<Ref>, r: Ref)
    ensures Named(number, context, refs + [r]) == Named(number, context, refs) + [Finding(number, context, r.name)]
  {
    assert (refs + [r])[..|refs|] == refs;
  }

  lemma {:induction false} ConcatSame(f: nat -> seq<Finding>, g: nat -> seq<Finding>, n: nat)
    requires forall i: nat :: i < n ==> f(i) == g(i)
    ensures Concat(f, n) == Concat(g, n)
  {
    if n > 0 { ConcatSame(f, g, n - 1); }
  }

  lemma SameReport(ls: seq<Line>, l: Line, i: nat)
    requires i < |ls|
    ensures Reporter(ls + [l])(i) == Reporter(ls)(i)
  {
    SameFindings(ls, l, i);
  }

  lemma EnclosesPrefix(ls: seq<Line>, l: Line, j: nat, i: nat)
    requires i < |ls|
    ensures Encloses(ls + [l], j, i) <==> Encloses(ls, j, i)
  {
    var more := ls + [l];
    assert forall k :: 0 <= k <= i ==> more[k] == ls[k];
  }

  lemma {:induction false} NearestPrefix(ls: seq<Line>, l: Line, n: nat, i: nat)
    requires i < |ls| && n <= i + 1
    ensures NearestBefore(ls + [l], n, i) == NearestBefore(ls, n, i)
  {
    if n > 0 {
      NearestPrefix(ls, l, n - 1, i);
      EnclosesPrefix(ls, l, n - 1, i);
    }
  }

  lemma RunPrefix(ls: seq<Line>, l: Line, i: nat)
    requires i < |ls|
    ensures InRunBlock(ls + [l], i) <==> InRunBlock(ls, i)
  {
    var more := ls + [l];
    assert forall k :: 0 <= k <= i ==> more[k] == ls[k];
    forall j | 0 <= j <= i ensures RunBlock(more, j, i) <==> RunBlock(ls, j, i) {
      EnclosesPrefix(ls, l, j, i);
    }
  }

  lemma SameFindings(ls: seq<Line>, l: Line, i: nat)
    requires i < |ls|
    ensures LineFindings(ls + [l], i) == LineFindings(ls, i)
  {
    RunPrefix(ls, l, i);
    NearestPrefix(ls, l, i + 1, i);
  }

  lemma {:induction false} ChainPrefix(ls: seq<Line>, l: Line, n: nat, i: nat)
    requires i < |ls| && n <= i + 1
    ensures Chain(ls + [l], n, i) == Chain(ls, n, i)
  {
    if n > 0 {
      ChainPrefix(ls, l, n - 1, i);
      EnclosesPrefix(ls, l, n - 1, i);
    }
  }

  lemma FlagPrefix(ls: seq<Line>, l: Line, i: nat, flag: Option<nat>)
    requires i < |ls| && FlagIs(ls, i, flag)
    ensures FlagIs(ls + [l], i, flag)
  {
    var more := ls + [l];
    RunPrefix(ls, l, i);
    if flag.Some? {
      var j :| 0 <= j <= i && RunBlock(ls, j, i) && ls[j].indent == flag.value;
      EnclosesPrefix(ls, l, j, i);
      assert forall k :: 0 <= k <= i ==> more[k] == ls[k];
      assert RunBlock(more, j, i);
    }
  }

  /** What the scanner carries from line to line. */
  ghost predicate Carries(ls: seq<Line>, stack: seq<Frame>, flag: Option<nat>) {
    if ls == [] then stack == [] && flag.None?
    else stack == FullChain(ls, |ls| - 1) && FlagIs(ls, |ls| - 1, flag)
  }

  lemma CarryOn(ls: seq<Line>, l: Line, stack: seq<Frame>, flag: Option<nat>)
    requires Carries(ls, stack, flag)
    ensures var kept := Popped(stack, l.indent);
            Carries(ls + [l], if l.header.NoHeader? then kept else kept + [FrameOf(l)], RunFlag(flag, l))
  {
    var more, i := ls + [l], |ls|;
    ChainStep(more, i);
    if i > 0 {
      ChainPrefix(ls, l, i, i - 1);
      FlagPrefix(ls, l, i - 1, flag);
    }
    FlagStep(more, i, flag);
  }

  lemma FlagMeans(ls: seq<Line>, i: nat, flag: Option<nat>)
    requires i < |ls| && FlagIs(ls, i, flag)
    ensures flag.Some? <==> InRunBlock(ls, i)
  {
  }

  /** The stack and the flag are brought up to date with one line. */
  method Advance(ghost ls: seq<Line>, l: Line, stack0: seq<Frame>, flag0: Option<nat>)
      returns (stack: seq<Frame>, flag: Option<nat>)
    requires Carries(ls, stack0, flag0)
    ensures Carries(ls + [l], stack, flag)
  {
    CarryOn(ls, l, stack0, flag0);
    stack := Pop(stack0, l.indent);
    flag := flag0;
    if flag.Some? && l.indent <= flag.value {
      flag := None;
    }
    match l.header {
      case SecretsBlock(_) =>
        stack := stack + [Frame(l.indent, "secrets")];
      case Key(key, value) =>
        if key == "run" && value in BLOCK_VALUES {
          flag := Some(l.indent);
        }
        stack := stack + [Frame(l.indent, key)];
      case NoHeader =>
    }
  }

  lemma CarriedContext(ls: seq<Line>, l: Line, stack: seq<Frame>, flag: Option<nat>)
    requires Carries(ls + [l], stack, flag)
    ensures Context(ls + [l], |ls|) == if l.ifInline then "if" else if flag.Some? then "run" else TopContext(stack)
  {
    FlagMeans(ls + [l], |ls|, flag);
    TopIsNearest(ls + [l], |ls| + 1, |ls|);
  }

  /** The references of one line. */
  method ReportLine(ghost ls: seq<Line>, l: Line, stack: seq<Frame>, flag: Option<nat>) returns (found: seq<Finding>)
    requires Carries(ls + [l], stack, flag)
    ensures found == LineFindings(ls + [l], |ls|)
  {
    if l.header.SecretsBlock? {
      return [Finding(l.number, "secrets-block", l.header.inline)];
    }
    CarriedContext(ls, l, stack, flag);
    found := [];
    if l.ifInline {
      found := NameBare(l.number, l.bare, l.refs);
    }
    var context := "if";
    if !l.ifInline {
      if flag.Some? {
        context := "run";
      } else {
        context := FindContext(stack);
      }
    }
    var named := NameAll(l.number, context, l.refs);
    found := found + named;
  }

  lemma LinesOfNext(read: Reader, raws: seq<string>, k: nat)
    requires k < |raws|
    ensures LinesOf(read, raws[..k + 1]) ==
            match read(raws[k], k + 1)
            case Some(l) => LinesOf(read, raws[..k]) + [l]
            case None => LinesOf(read, raws[..k])
  {
    assert raws[..k + 1][..k] == raws[..k];
  }

  lemma FindingsNext(ls: seq<Line>, l: Line)
    ensures Findings(ls + [l]) == Findings(ls) + LineFindings(ls + [l], |ls|)
  {
    var f, g := Reporter(ls + [l]), Reporter(ls);
    forall i: nat | i < |ls| ensures f(i) == g(i) { SameReport(ls, l, i); }
    ConcatSame(f, g, |ls|);
    assert Concat(f, |ls| + 1) == Concat(f, |ls|) + f(|ls|);
  }

  /** `scan_file`, on the lines of a file: the report gives every reference the context that
      the true chain of enclosing keys gives it. */
  method ScanFile(read: Reader, raws: seq<string>) returns (findings: seq<Finding>)
    ensures var ls := LinesOf(read, raws); findings == Findings(ls)
  {
    findings := [];
    var stack: seq<Frame>, flag: Option<nat> := [], None;
    ghost var ls: seq<Line> := [];
    for k := 0 to |raws|
      invariant ls == LinesOf(read, raws[..k])
      invariant Carries(ls, stack, flag)
      invariant findings == Findings(ls)
    {
      LinesOfNext(read, raws, k);
      match read(raws[k], k + 1) {
        case None =>
        case Some(l) =>
          stack, flag := Advance(ls, l, stack, flag);
          var found := ReportLine(ls, l, stack, flag);
          FindingsNext(ls, l);
          findings := findings + found;
          ls := ls + [l];
      }
    }
    assert raws[..|raws|] == raws;
  }
}
