/** The few text operations of Python that the modelled files use. */
module PyText {

  /** `str.isspace` for one character. */
  predicate IsSpace(c: char) {
    || '\t' <= c <= '\r' || '\U{1C}' <= c <= '\U{20}' || c == '\U{85}' || c == '\U{A0}'
    || c == '\U{1680}' || '\U{2000}' <= c <= '\U{200A}' || c == '\U{2028}' || c == '\U{2029}'
    || c == '\U{202F}' || c == '\U{205F}' || c == '\U{3000}'
  }

  /** The 29 code points of white space. */
  const SPACES: set<int> := {
    9, 10, 11, 12, 13, 28, 29, 30, 31, 32, 133, 160, 5760, 8192, 8193, 8194, 8195, 8196, 8197, 8198, 8199, 8200, 8201, 8202,
    8232, 8233, 8239, 8287, 12288}

  lemma SpacesAre(c: char)
    ensures IsSpace(c) <==> c as int in SPACES
  {
  }

  /** `not s.strip()`. */
  predicate Blank(s: string) {
    forall c :: c in s ==> IsSpace(c)
  }

  /** `needle in hay`. */
  predicate Occurs(needle: string, hay: string) {
    exists i :: 0 <= i <= |hay| && needle <= hay[i..]
  }

  /** Decimal digits of a non-negative integer, as f-strings print them. */
  function Decimal(n: nat): (s: string)
    ensures |s| > 0
  {
    if n < 10 then [Digit(n)] else Decimal(n / 10) + [Digit(n % 10)]
  }

  function Digit(d: nat): char
    requires d < 10
  {
    "0123456789"[d]
  }

  lemma {:induction false} DecimalInjective(m: nat, n: nat)
    requires Decimal(m) == Decimal(n)
    ensures m == n
    decreases m + n
  {
    var a, b := Decimal(m), Decimal(n);
    assert a[|a| - 1] == Digit(m % 10) && b[|b| - 1] == Digit(n % 10);
    if m >= 10 && n >= 10 {
      assert Decimal(m / 10) == a[..|a| - 1] == b[..|b| - 1] == Decimal(n / 10);
      DecimalInjective(m / 10, n / 10);
    }
  }

  /** The number that decimal digits spell. */
  function Spelled(s: string): int {
    if s == "" then 0 else 10 * Spelled(s[..|s| - 1]) + (s[|s| - 1] as int - '0' as int)
  }

  /** The digits spell the number, and only 0 begins with a zero. */
  lemma {:induction false} DecimalSpells(n: nat)
    ensures Spelled(Decimal(n)) == n
    ensures forall c :: c in Decimal(n) ==> '0' <= c <= '9'
    ensures Decimal(n)[0] == '0' ==> n == 0
  {
    if n < 10 {
      assert Decimal(n)[..0] == "";
    } else {
      var front := Decimal(n / 10);
      DecimalSpells(n / 10);
      assert Decimal(n)[..|front|] == front && Decimal(n)[0] == front[0];
    }
  }

  // ---------- the order of Python's sorted() on (name, index) pairs ----------

  /** Lexicographic comparison by code point. */
  predicate Less(a: string, b: string) {
    if b == "" then false
    else if a == "" then true
    else a[0] < b[0] || (a[0] == b[0] && Less(a[1..], b[1..]))
  }

  lemma SameFront(a: string, b: string)
    requires a != "" && b != ""
    ensures forall i :: 0 < i <= |a| && i <= |b| && a[..i] == b[..i] ==> a[0] == b[0]
  {
    forall i | 0 < i <= |a| && i <= |b| && a[..i] == b[..i] ensures a[0] == b[0] {
      assert a[..i][0] == a[0] && b[..i][0] == b[0];
    }
  }

  /** At the first position where the texts differ the smaller one ends or has the smaller
      character. */
  lemma {:induction false} LessIff(a: string, b: string)
    ensures Less(a, b) <==>
            exists i :: 0 <= i < |b| && i <= |a| && a[..i] == b[..i] && (i == |a| || a[i] < b[i])
  {
    if a != "" && b != "" {
      LessIff(a[1..], b[1..]);
      if a[0] == b[0] {
        if i :| 0 <= i < |b[1..]| && i <= |a[1..]| && a[1..][..i] == b[1..][..i] && (i == |a[1..]| || a[1..][i] < b[1..][i]) {
          assert a[..i + 1] == [a[0]] + a[1..][..i] && b[..i + 1] == [b[0]] + b[1..][..i];
        }
        if i :| 0 <= i < |b| && i <= |a| && a[..i] == b[..i] && (i == |a| || a[i] < b[i]) {
          assert i > 0;
          assert a[1..][..i - 1] == a[..i][1..] && b[1..][..i - 1] == b[..i][1..];
        }
      } else {
        SameFront(a, b);
        assert a[..0] == b[..0];
      }
    } else if b != "" {
      assert a[..0] == b[..0];
    }
  }

  lemma LessTotal(a: string, b: string)
    ensures Less(a, b) || a == b || Less(b, a)
    ensures !(Less(a, b) && Less(b, a)) && !Less(a, a)
  {
    if a != "" && b != "" && a[0] == b[0] {
      LessTotal(a[1..], b[1..]);
      assert a == [a[0]] + a[1..] && b == [b[0]] + b[1..];
    }
  }

  lemma LessTransitive(a: string, b: string, c: string)
    requires Less(a, b) && Less(b, c)
    ensures Less(a, c)
  {
    if a != "" && a[0] == b[0] == c[0] {
      LessTransitive(a[1..], b[1..], c[1..]);
    }
  }

  type Named = (string, int)

  predicate Before(x: Named, y: Named) {
    Less(x.0, y.0) || (x.0 == y.0 && x.1 <= y.1)
  }

  function Insert(x: Named, s: seq<Named>): (r: seq<Named>)
    ensures |r| == |s| + 1
  {
    if s == [] then [x]
    else if Before(x, s[0]) then [x] + s
    else [s[0]] + Insert(x, s[1..])
  }

  function Sorted(s: seq<Named>): (r: seq<Named>)
    ensures |r| == |s|
  {
    if s == [] then [] else Insert(s[0], Sorted(s[1..]))
  }

  predicate NamesDistinct(s: seq<Named>) {
    forall i, j :: 0 <= i < j < |s| ==> s[i].0 != s[j].0
  }

  predicate NamesIncrease(s: seq<Named>) {
    forall i, j :: 0 <= i < j < |s| ==> Less(s[i].0, s[j].0)
  }

  lemma {:induction false} InsertKeeps(x: Named, s: seq<Named>)
    requires NamesIncrease(s)
    requires forall i :: 0 <= i < |s| ==> s[i].0 != x.0
    ensures NamesIncrease(Insert(x, s))
    ensures forall y :: y in Insert(x, s) <==> y == x || y in s
  {
    var r := Insert(x, s);
    if s != [] {
      LessTotal(x.0, s[0].0);
      if Before(x, s[0]) {
        forall i, j | 0 <= i < j < |r| ensures Less(r[i].0, r[j].0) {
          if i == 0 && j > 1 { LessTransitive(x.0, s[0].0, s[j - 1].0); }
        }
      } else {
        InsertKeeps(x, s[1..]);
        forall i, j | 0 <= i < j < |r| ensures Less(r[i].0, r[j].0) {
          if i == 0 { assert r[j] in Insert(x, s[1..]); }
        }
        assert s == [s[0]] + s[1..];
      }
    }
  }

  /** Sorting pairs with distinct names lists the same pairs with increasing names. */
  lemma {:induction false} SortedIsSorted(s: seq<Named>)
    requires NamesDistinct(s)
    ensures NamesIncrease(Sorted(s))
    ensures forall y :: y in Sorted(s) <==> y in s
  {
    if s != [] {
      SortedIsSorted(s[1..]);
      forall i | 0 <= i < |Sorted(s[1..])| ensures Sorted(s[1..])[i].0 != s[0].0 {
        assert Sorted(s[1..])[i] in s[1..];
      }
      InsertKeeps(s[0], Sorted(s[1..]));
      assert s == [s[0]] + s[1..];
    }
  }

  /** Increasing names determine the listing: two listings of the same pairs are equal. */
  lemma {:induction false} IncreasingUnique(a: seq<Named>, b: seq<Named>)
    requires NamesIncrease(a) && NamesIncrease(b)
    requires forall y :: y in a <==> y in b
    ensures a == b
  {
    assert |b| > 0 ==> b[0] in a;
    if a != [] {
      assert a[0] in a && a[0] in b;
      assert b[0] in b && b[0] in a;
      FirstIsLeast(a, b[0]);
      FirstIsLeast(b, a[0]);
      LessTotal(a[0].0, b[0].0);
      assert a[0] == b[0];
      TailMembers(a, b);
      IncreasingUnique(a[1..], b[1..]);
      assert a == [a[0]] + a[1..] && b == [b[0]] + b[1..];
    }
  }

  lemma FirstIsLeast(a: seq<Named>, y: Named)
    requires NamesIncrease(a) && y in a
    ensures a[0] == y || Less(a[0].0, y.0)
  {
  }

  lemma HeadNotInTail(a: seq<Named>)
    requires NamesIncrease(a) && |a| > 0
    ensures a[0] !in a[1..]
  {
    LessTotal(a[0].0, a[0].0);
    forall i | 0 <= i < |a[1..]| ensures a[1..][i] != a[0] { assert a[1..][i] == a[i + 1]; }
  }

  lemma TailMembers(a: seq<Named>, b: seq<Named>)
    requires NamesIncrease(a) && NamesIncrease(b) && |a| > 0 && |b| > 0 && a[0] == b[0]
    requires forall y :: y in a <==> y in b
    ensures forall y :: y in a[1..] <==> y in b[1..]
  {
    LessTotal(a[0].0, a[0].0);
    assert a == [a[0]] + a[1..] && b == [b[0]] + b[1..];
    HeadNotInTail(a);
    HeadNotInTail(b);
    forall y ensures y in a[1..] <==> y in b[1..] {
      assert y in a <==> y == a[0] || y in a[1..];
      assert y in b <==> y == b[0] || y in b[1..];
    }
  }

  /** The order in which pairs were collected does not matter. */
  lemma SortedIgnoresOrder(s: seq<Named>, t: seq<Named>)
    requires NamesDistinct(s) && NamesDistinct(t)
    requires forall y :: y in s <==> y in t
    ensures Sorted(s) == Sorted(t)
  {
    SortedIsSorted(s);
    SortedIsSorted(t);
    IncreasingUnique(Sorted(s), Sorted(t));
  }

  // ---------- sorted(set of strings) ----------

  predicate Ascending(s: seq<string>) {
    forall i, j :: 0 <= i < j < |s| ==> Less(s[i], s[j])
  }

  function InsertKey(k: string, s: seq<string>): seq<string> {
    if s == [] then [k]
    else if Less(k, s[0]) then [k] + s
    else [s[0]] + InsertKey(k, s[1..])
  }

  lemma {:induction false} InsertKeyKeeps(k: string, s: seq<string>)
    requires Ascending(s) && k !in s
    ensures Ascending(InsertKey(k, s))
    ensures forall y :: y in InsertKey(k, s) <==> y == k || y in s
  {
    var r := InsertKey(k, s);
    if s != [] {
      LessTotal(k, s[0]);
      assert s == [s[0]] + s[1..];
      if Less(k, s[0]) {
        forall i, j | 0 <= i < j < |r| ensures Less(r[i], r[j]) {
          if i == 0 && j > 1 { LessTransitive(k, s[0], s[j - 1]); }
        }
      } else {
        assert s[0] != k;
        InsertKeyKeeps(k, s[1..]);
        forall i, j | 0 <= i < j < |r| ensures Less(r[i], r[j]) {
          if i == 0 { assert r[j] in InsertKey(k, s[1..]); }
        }
      }
    }
  }

  method SortKeys(keys: set<string>) returns (r: seq<string>)
    ensures Ascending(r) && forall k :: k in r <==> k in keys
  {
    r := [];
    var left := keys;
    while left != {}
      invariant left <= keys && Ascending(r)
      invariant forall k :: k in r <==> k in keys - left
      decreases |left|
    {
      var k :| k in left;
      InsertKeyKeeps(k, r);
      r := InsertKey(k, r);
      left := left - {k};
    }
  }

  // ---------- strip, partition, split ----------

  /** `s` without its leading characters of the given kind. */
  function LStripBy(kind: char -> bool, s: string): (r: string)
    ensures |r| <= |s| && r == s[|s| - |r|..]
    ensures r != "" ==> !kind(r[0])
  {
    if s == "" then "" else if kind(s[0]) then LStripBy(kind, s[1..]) else s
  }

  function RStripBy(kind: char -> bool, s: string): (r: string)
    ensures |r| <= |s| && r == s[..|r|]
    ensures r != "" ==> !kind(r[|r| - 1])
  {
    if s == "" then "" else if kind(s[|s| - 1]) then RStripBy(kind, s[..|s| - 1]) else s
  }

  predicate AllOf(kind: char -> bool, s: string) {
    forall c :: c in s ==> kind(c)
  }

  lemma {:induction false} LStripTakes(kind: char -> bool, s: string)
    ensures AllOf(kind, s[..|s| - |LStripBy(kind, s)|])
  {
    if s != "" && kind(s[0]) {
      LStripTakes(kind, s[1..]);
      var n := |s| - |LStripBy(kind, s)|;
      assert s[..n] == [s[0]] + s[1..][..n - 1];
    }
  }

  lemma {:induction false} RStripTakes(kind: char -> bool, s: string)
    ensures AllOf(kind, s[|RStripBy(kind, s)|..])
  {
    if s != "" && kind(s[|s| - 1]) {
      var k := |s| - 1;
      RStripTakes(kind, s[..k]);
      assert s[|RStripBy(kind, s)|..] == s[..k][|RStripBy(kind, s)|..] + [s[k]];
    }
  }

  /** Stripping takes such characters from both ends, and all of them. */
  lemma StrippedBy(kind: char -> bool, s: string) returns (before: string, after: string)
    ensures var t := RStripBy(kind, LStripBy(kind, s));
            && s == before + t + after && AllOf(kind, before) && AllOf(kind, after)
            && (t != "" ==> !kind(t[0]) && !kind(t[|t| - 1]))
  {
    var l := LStripBy(kind, s);
    var t := RStripBy(kind, l);
    LStripTakes(kind, s);
    RStripTakes(kind, l);
    before, after := s[..|s| - |l|], l[|t|..];
    Halves(s, |s| - |l|);
    Halves(l, |t|);
    Regrouped(before, t, after);
  }

  lemma Halves<T>(s: seq<T>, i: nat)
    requires i <= |s|
    ensures s == s[..i] + s[i..]
  {
  }

  lemma Regrouped<T>(a: seq<T>, b: seq<T>, c: seq<T>)
    ensures a + (b + c) == a + b + c
  {
  }

  lemma LStripOneMore(kind: char -> bool, c: char, s: string)
    requires kind(c)
    ensures LStripBy(kind, [c] + s) == LStripBy(kind, s)
  {
    assert ([c] + s)[1..] == s;
  }

  function LStrip(s: string): (r: string)
    ensures |r| <= |s| && r == s[|s| - |r|..]
    ensures r != "" ==> !IsSpace(r[0])
    ensures Blank(s) <==> r == ""
  {
    LStripTakes(IsSpace, s);
    BlankIff(s);
    LStripBy(IsSpace, s)
  }

  lemma BlankIff(s: string)
    ensures Blank(s) <==> AllOf(IsSpace, s)
  {
  }

  function RStrip(s: string): (r: string)
    ensures |r| <= |s| && r == s[..|r|]
    ensures r != "" ==> !IsSpace(r[|r| - 1])
  {
    RStripBy(IsSpace, s)
  }

  function Strip(s: string): string {
    RStrip(LStrip(s))
  }

  /** `strip` takes blanks from both ends, and all of them. */
  lemma StripIs(s: string) returns (before: string, after: string)
    ensures s == before + Strip(s) + after && Blank(before) && Blank(after)
    ensures Strip(s) == "" || Trimmed(Strip(s))
  {
    before, after := StrippedBy(IsSpace, s);
    BlankIff(before);
    BlankIff(after);
  }

  /** A text that `strip` leaves alone. */
  predicate Trimmed(s: string) {
    s != "" && !IsSpace(s[0]) && !IsSpace(s[|s| - 1])
  }

  lemma StripTrimmed(s: string)
    requires Trimmed(s)
    ensures Strip(s) == s && Strip(" " + s) == s
  {
    StripTrimmedBy(IsSpace, s);
    LStripOneMore(IsSpace, ' ', s);
  }

  lemma StripTrimmedBy(kind: char -> bool, s: string)
    requires s != "" && !kind(s[0]) && !kind(s[|s| - 1])
    ensures LStripBy(kind, s) == s && RStripBy(kind, s) == s
  {
  }

  /** `s.partition(":")`, for a text that contains a colon. */
  function Colon(s: string): (i: nat)
    requires ':' in s
    ensures i < |s| && s[i] == ':' && ':' !in s[..i]
  {
    if s[0] == ':' then 0 else 1 + Colon(s[1..])
  }

  lemma {:induction false} ColonAfterKey(k: string, v: string)
    requires ':' !in k
    ensures ':' in k + ":" + v && Colon(k + ":" + v) == |k|
  {
    var s := k + ":" + v;
    assert s[|k|] == ':';
    if k != "" {
      assert s[1..] == k[1..] + ":" + v;
      ColonAfterKey(k[1..], v);
    }
  }

  /** `s.split("\n")`. */
  function SplitLines(s: string): (r: seq<string>)
    ensures |r| > 0
  {
    if s == "" then [""]
    else
      var rest := SplitLines(s[1..]);
      if s[0] == '\n' then [""] + rest else [[s[0]] + rest[0]] + rest[1..]
  }

  /** `"\n".join(lines)`. */
  function JoinLines(lines: seq<string>): string {
    if lines == [] then ""
    else if |lines| == 1 then lines[0]
    else lines[0] + "\n" + JoinLines(lines[1..])
  }

  lemma {:induction false} SplitPlain(a: string)
    requires '\n' !in a
    ensures SplitLines(a) == [a]
  {
    if a != "" {
      SplitPlain(a[1..]);
      assert a == [a[0]] + a[1..];
    }
  }

  lemma {:induction false} SplitFirst(a: string, b: string)
    requires '\n' !in a
    ensures SplitLines(a + "\n" + b) == [a] + SplitLines(b)
  {
    var s := a + "\n" + b;
    if a == "" {
      assert s[1..] == b;
    } else {
      assert s[1..] == a[1..] + "\n" + b;
      SplitFirst(a[1..], b);
      assert a == [a[0]] + a[1..];
    }
  }

  /** Splitting undoes joining. */
  lemma {:induction false} SplitJoin(lines: seq<string>)
    requires |lines| > 0 && forall l :: l in lines ==> '\n' !in l
    ensures SplitLines(JoinLines(lines)) == lines
  {
    assert lines[0] in lines;
    if |lines| == 1 {
      SplitPlain(lines[0]);
    } else {
      SplitFirst(lines[0], JoinLines(lines[1..]));
      forall l | l in lines[1..] ensures '\n' !in l { assert l in lines; }
      SplitJoin(lines[1..]);
      assert lines == [lines[0]] + lines[1..];
    }
  }
}
