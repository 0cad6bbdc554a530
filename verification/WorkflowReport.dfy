/** What the report of the workflow scanner holds, reference by reference. */
module WorkflowReport {
  import opened Basics
  import Text = PyText
  import opened WorkflowSecrets

  // ---------- the context of a line ----------

  /** Line `j` has a key, and everything after it up to line `i` is strictly deeper. */
  predicate Around(ls: seq<Line>, j: nat, i: nat)
    requires i < |ls|
  {
    j <= i && !ls[j].header.NoHeader? && forall k :: j < k <= i ==> ls[k].indent > ls[j].indent
  }

  predicate ShellHead(l: Line) {
    && l.header.Key? && l.header.key == "run"
    && (var v := l.header.value; v == "" || v == "|" || v == ">" || v == "|-" || v == ">-" || v == "|+" || v == ">+")
  }

  /** The last line up to `i` that heads shell text is around line `i`. */
  ghost predicate InShell(ls: seq<Line>, i: nat)
    requires i < |ls|
  {
    exists j :: 0 <= j <= i && ShellHead(ls[j]) && Around(ls, j, i) && forall k :: j < k <= i ==> !ShellHead(ls[k])
  }

  /** The key `c` at line `j` gives line `i` a context. */
  predicate GivesContext(ls: seq<Line>, j: nat, i: nat, c: string)
    requires i < |ls|
  {
    Around(ls, j, i) && ls[j].header.Key? && ls[j].header.key == c && (c == "env" || c == "with" || c == "run" || c == "if")
  }

  /** The context of a reference on line `i`. */
  ghost predicate ContextIs(ls: seq<Line>, i: nat, c: string)
    requires i < |ls|
  {
    if ls[i].ifInline then c == "if"
    else if InShell(ls, i) then c == "run"
    else
      || (exists j: nat :: j <= i && GivesContext(ls, j, i, c) &&
                           forall k: nat, d :: j < k <= i ==> !GivesContext(ls, k, i, d))
      || (c == "unknown" && forall k: nat, d :: k <= i ==> !GivesContext(ls, k, i, d))
  }

  // ---------- the findings of a line ----------

  /** `found` names the references of `refs` one by one. */
  predicate NamesEach(found: seq<Finding>, number: nat, c: string, refs: seq<Ref>) {
    |found| == |refs| && forall m :: 0 <= m < |refs| ==> found[m] == Finding(number, c, refs[m].name)
  }

  /** `at` lists, in order, the numbers below `n` that are to keep. */
  ghost predicate Picks(at: seq<nat>, n: nat, keep: nat -> bool) {
    && (forall m, o :: 0 <= m < o < |at| ==> at[m] < at[o])
    && (forall k: nat :: k in at <==> k < n && keep(k))
  }

  function NoSpanOf(bare: seq<Ref>, refs: seq<Ref>): nat -> bool {
    (k: nat) => k < |bare| && forall r :: r in refs ==> r.start != bare[k].start || r.end != bare[k].end
  }

  /** `kept` are the elements of `bare`, in order, whose span is that of no element of `refs`. */
  ghost predicate Unspanned(kept: seq<Ref>, bare: seq<Ref>, refs: seq<Ref>) {
    exists at: seq<nat> {:trigger Picks(at, |bare|, NoSpanOf(bare, refs))} ::
      Picks(at, |bare|, NoSpanOf(bare, refs)) && PickedFrom(kept, bare, at)
  }

  predicate PickedFrom<T(==)>(kept: seq<T>, all: seq<T>, at: seq<nat>) {
    |at| == |kept| && forall m :: 0 <= m < |at| ==> at[m] < |all| && kept[m] == all[at[m]]
  }

  /** `found` is what line `i` should yield: one finding for a `secrets:` line; else one for
      each bare name of an `if` line that is no interpolation, then one for each interpolation. */
  ghost predicate LineYields(ls: seq<Line>, i: nat, found: seq<Finding>)
    requires i < |ls|
  {
    var l := ls[i];
    match l.header
    case SecretsBlock(inline) => found == [Finding(l.number, "secrets-block", inline)]
    case _ =>
      exists kept, c :: ContextIs(ls, i, c) && (if l.ifInline then Unspanned(kept, l.bare, l.refs) else kept == []) &&
                        |found| == |kept| + |l.refs| &&
                        NamesEach(found[..|kept|], l.number, "if", kept) && NamesEach(found[|kept|..], l.number, c, l.refs)
  }

  function Joined(pieces: seq<seq<Finding>>): seq<Finding> {
    if pieces == [] then [] else Joined(pieces[..|pieces| - 1]) + pieces[|pieces| - 1]
  }

  // ---------- the report holds exactly that ----------

  lemma {:induction false} NamedAre(number: nat, c: string, refs: seq<Ref>)
    ensures NamesEach(Named(number, c, refs), number, c, refs)
  {
    if refs != [] { NamedAre(number, c, refs[..|refs| - 1]); }
  }

  lemma PickKept(at: seq<nat>, n: nat, keep: nat -> bool)
    requires Picks(at, n, keep) && keep(n)
    ensures Picks(at + [n], n + 1, keep)
  {
    forall m | 0 <= m < |at| ensures at[m] < n { assert at[m] in at; }
    forall k: nat ensures k in at + [n] <==> k < n + 1 && keep(k) {
      assert k in at + [n] <==> k in at || k == n;
    }
  }

  lemma PickDropped(at: seq<nat>, n: nat, keep: nat -> bool)
    requires Picks(at, n, keep) && !keep(n)
    ensures Picks(at, n + 1, keep)
  {
  }

  lemma PickedMore<T>(kept: seq<T>, all: seq<T>, at: seq<nat>, n: nat)
    requires n < |all| && PickedFrom(kept, all, at)
    ensures PickedFrom(kept + [all[n]], all, at + [n])
  {
  }

  lemma SpanIff(r: Ref, refs: seq<Ref>)
    ensures SameSpan(r, refs) <==> exists s :: s in refs && s.start == r.start && s.end == r.end
  {
  }

  lemma PickStep<T>(kept: seq<T>, all: seq<T>, at: seq<nat>, n: nat, keep: nat -> bool, next: seq<T>) returns (more: seq<nat>)
    requires n < |all| && Picks(at, n, keep) && PickedFrom(kept, all, at)
    requires next == if keep(n) then kept + [all[n]] else kept
    ensures Picks(more, n + 1, keep) && PickedFrom(next, all, more)
  {
    if keep(n) {
      PickKept(at, n, keep);
      PickedMore(kept, all, at, n);
      more := at + [n];
    } else {
      PickDropped(at, n, keep);
      more := at;
    }
  }

  lemma {:induction false} BareOnlyAt(bare: seq<Ref>, refs: seq<Ref>, n: nat) returns (at: seq<nat>)
    requires n <= |bare|
    ensures Picks(at, n, NoSpanOf(bare, refs)) && PickedFrom(BareOnly(bare[..n], refs), bare, at)
  {
    if n == 0 {
      at := [];
    } else {
      at := BareOnlyAt(bare, refs, n - 1);
      BareMore(bare, n - 1, refs);
      SpanIs(bare, n - 1, refs);
      at := PickStep(BareOnly(bare[..n - 1], refs), bare, at, n - 1, NoSpanOf(bare, refs), BareOnly(bare[..n], refs));
    }
  }

  lemma SpanIs(bare: seq<Ref>, k: nat, refs: seq<Ref>)
    requires k < |bare|
    ensures NoSpanOf(bare, refs)(k) <==> !SameSpan(bare[k], refs)
  {
    SpanIff(bare[k], refs);
  }

  lemma BareOnlyIs(bare: seq<Ref>, refs: seq<Ref>)
    ensures Unspanned(BareOnly(bare, refs), bare, refs)
  {
    var at := BareOnlyAt(bare, refs, |bare|);
    assert bare[..|bare|] == bare;
  }

  lemma ShellIff(ls: seq<Line>, i: nat)
    requires i < |ls|
    ensures InRunBlock(ls, i) <==> InShell(ls, i)
  {
    forall j: nat | j <= i
      ensures RunBlock(ls, j, i) <==> ShellHead(ls[j]) && Around(ls, j, i) && forall k :: j < k <= i ==> !ShellHead(ls[k])
    {
      forall k | j <= k <= i ensures OpensRun(ls[k]) <==> ShellHead(ls[k]) {}
    }
  }

  lemma GivesIff(ls: seq<Line>, j: nat, i: nat)
    requires i < |ls| && j <= i
    ensures ContextAt(ls, j, i) <==> GivesContext(ls, j, i, KeyOf(ls[j]))
    ensures forall c :: GivesContext(ls, j, i, c) ==> c == KeyOf(ls[j])
  {
  }

  lemma NearestIs(ls: seq<Line>, i: nat)
    requires i < |ls| && !ls[i].ifInline && !InShell(ls, i)
    ensures ContextIs(ls, i, Nearest(ls, i))
  {
    NearestIsNearest(ls, i + 1, i);
    forall j: nat | j <= i
      ensures ContextAt(ls, j, i) <==> GivesContext(ls, j, i, KeyOf(ls[j]))
      ensures forall c :: GivesContext(ls, j, i, c) ==> c == KeyOf(ls[j])
    {
      GivesIff(ls, j, i);
    }
  }

  lemma ContextHolds(ls: seq<Line>, i: nat)
    requires i < |ls|
    ensures ContextIs(ls, i, Context(ls, i))
  {
    ShellIff(ls, i);
    if !ls[i].ifInline && !InShell(ls, i) { NearestIs(ls, i); }
  }

  lemma LineHolds(ls: seq<Line>, i: nat)
    requires i < |ls|
    ensures LineYields(ls, i, LineFindings(ls, i))
  {
    var l := ls[i];
    if !l.header.SecretsBlock? {
      var kept := if l.ifInline then BareOnly(l.bare, l.refs) else [];
      var first, second := Named(l.number, "if", kept), Named(l.number, Context(ls, i), l.refs);
      ContextHolds(ls, i);
      BareOnlyIs(l.bare, l.refs);
      NamedAre(l.number, "if", kept);
      NamedAre(l.number, Context(ls, i), l.refs);
      assert LineFindings(ls, i) == first + second;
      assert (first + second)[..|kept|] == first && (first + second)[|kept|..] == second;
    }
  }

  ghost predicate YieldsUpTo(ls: seq<Line>, pieces: seq<seq<Finding>>, n: nat)
    requires n <= |ls|
  {
    |pieces| == n && forall i :: 0 <= i < n ==> LineYields(ls, i, pieces[i])
  }

  lemma {:induction false} ConcatJoined(ls: seq<Line>, n: nat) returns (pieces: seq<seq<Finding>>)
    requires n <= |ls|
    ensures YieldsUpTo(ls, pieces, n) && Joined(pieces) == Concat(Reporter(ls), n)
  {
    pieces := [];
    if n > 0 {
      var before := ConcatJoined(ls, n - 1);
      LineHolds(ls, n - 1);
      pieces := before + [LineFindings(ls, n - 1)];
      assert pieces[..n - 1] == before;
    }
  }

  /** Exact report: it consists, line by line, of what each line should yield. */
  lemma ReportExact(ls: seq<Line>) returns (pieces: seq<seq<Finding>>)
    ensures Findings(ls) == Joined(pieces) && |pieces| == |ls|
    ensures forall i :: 0 <= i < |ls| ==> LineYields(ls, i, pieces[i])
  {
    pieces := ConcatJoined(ls, |ls|);
  }

  // ---------- the lines of the file ----------

  function IsRead(read: Reader, raws: seq<string>): nat -> bool {
    (k: nat) => k < |raws| && read(raws[k], k + 1).Some?
  }

  /** Line `m` of those read is what the reader makes of line `at[m]` of the file. */
  predicate ReadAt(read: Reader, raws: seq<string>, ls: seq<Line>, at: seq<nat>) {
    |at| == |ls| && forall m :: 0 <= m < |at| ==> at[m] < |raws| && read(raws[at[m]], at[m] + 1) == Some(ls[m])
  }

  lemma ReadMore(read: Reader, raws: seq<string>, ls: seq<Line>, at: seq<nat>, n: nat, l: Line)
    requires ReadAt(read, raws, ls, at) && n < |raws| && read(raws[n], n + 1) == Some(l)
    ensures ReadAt(read, raws, ls + [l], at + [n])
  {
  }

  lemma {:induction false} LinesReadTo(read: Reader, raws: seq<string>, n: nat) returns (at: seq<nat>)
    requires n <= |raws|
    ensures Picks(at, n, IsRead(read, raws)) && ReadAt(read, raws, LinesOf(read, raws[..n]), at)
  {
    at := [];
    if n > 0 {
      var before := LinesReadTo(read, raws, n - 1);
      LinesOfNext(read, raws, n - 1);
      if read(raws[n - 1], n).Some? {
        PickKept(before, n - 1, IsRead(read, raws));
        ReadMore(read, raws, LinesOf(read, raws[..n - 1]), before, n - 1, read(raws[n - 1], n).value);
        at := before + [n - 1];
      } else {
        PickDropped(before, n - 1, IsRead(read, raws));
        at := before;
      }
    }
  }

  /** The lines read are those that the reader does not skip, in order, numbered from 1. */
  lemma LinesAre(read: Reader, raws: seq<string>) returns (at: seq<nat>)
    ensures Picks(at, |raws|, IsRead(read, raws)) && ReadAt(read, raws, LinesOf(read, raws), at)
  {
    at := LinesReadTo(read, raws, |raws|);
    assert raws[..|raws|] == raws;
  }

  /** A line is skipped exactly if after its blanks nothing or a comment follows; otherwise its
      indent is the number of those blanks, `secrets:` is looked for before any other key, and
      texts after a colon lose the blanks around them. */
  lemma ReadLineIs(rx: Patterns, raw: string, number: nat, n: nat)
    requires n <= |raw| && Text.Blank(raw[..n]) && (n < |raw| ==> !Text.IsSpace(raw[n]))
    ensures ReadLine(rx, raw, number).None? <==> n == |raw| || raw[n] == '#'
    ensures ReadLine(rx, raw, number).Some? ==>
              var l := ReadLine(rx, raw, number).value;
              && l.number == number && l.indent == n
              && (l.ifInline <==> "if:" <= raw[n..] || "if " <= raw[n..])
              && l.refs == rx.interpolations(raw) && l.bare == rx.bareNames(raw)
              && (match rx.secretsBlock(raw)
                  case Some(inline) => l.header == SecretsBlock(Text.Strip(inline))
                  case None =>
                    match rx.keyHeader(raw)
                    case Some(kv) => l.header == Key(kv.0, Text.Strip(kv.1))
                    case None => l.header == NoHeader)
  {
    Text.BlankIff(raw[..n]);
    LStripOf(Text.IsSpace, raw, n);
  }

  lemma {:induction false} LStripOf(kind: char -> bool, raw: string, n: nat)
    requires n <= |raw| && Text.AllOf(kind, raw[..n]) && (n < |raw| ==> !kind(raw[n]))
    ensures Text.LStripBy(kind, raw) == raw[n..]
  {
    if n > 0 {
      assert raw[0] == raw[..n][0] && raw[1..][..n - 1] == raw[..n][1..] && raw[1..][n - 1..] == raw[n..];
      LStripOf(kind, raw[1..], n - 1);
    }
  }
}
