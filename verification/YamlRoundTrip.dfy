/** From lines to text: parsing the printed text of a document gives the document back. */
module YamlRoundTrip {
  import opened PyText
  import opened YamlParser
  import opened YamlProps
  import opened YamlPrinter

  // ---------- the source's reader sees printed lines for what they are ----------

  lemma TailEnds(st: Style, v: Yaml)
    requires Printable(st, v)
    ensures Tail(st, v) != "" ==> Trimmed(Tail(st, v))
  {
  }

  lemma TailOneLine(st: Style, v: Yaml)
    requires Printable(st, v)
    ensures '\n' !in Tail(st, v)
  {
  }

  lemma HeadTrimmed(st: Style, k: string, v: Yaml)
    requires PlainKey(k) && Printable(st, v)
    ensures Trimmed(Head(st, k, v)) && Head(st, k, v)[0] == k[0]
  {
    TailEnds(st, v);
  }

  lemma EntryParts(k: string, after: string)
    requires ':' !in k
    ensures var h := k + ":" + after;
            ':' in h && h[..Colon(h)] == k && h[Colon(h) + 1..] == after
  {
    ColonAfterKey(k, after);
  }

  lemma TailStrips(t: string)
    requires t == "" || Trimmed(t)
    ensures Strip(if t == "" then "" else " " + t) == t
  {
    if t != "" { StripTrimmed(t); }
  }

  /** Splitting a printed entry at its colon gives the key and the value's text. */
  lemma HeadParts(st: Style, k: string, v: Yaml)
    requires PlainKey(k) && Printable(st, v)
    ensures ':' in Head(st, k, v) && KeyOf(Head(st, k, v)) == k && ValueOf(Head(st, k, v)) == Tail(st, v)
  {
    TailEnds(st, v);
    HeadPartsOf(k, Tail(st, v), if Tail(st, v) == "" then "" else " " + Tail(st, v));
  }

  lemma HeadPartsOf(k: string, t: string, after: string)
    requires Trimmed(k) && ':' !in k && (t == "" || Trimmed(t)) && after == if t == "" then "" else " " + t
    ensures var h := k + ":" + after;
            ':' in h && KeyOf(h) == k && ValueOf(h) == t
  {
    EntryParts(k, after);
    KeyRead(k + ":" + after, k);
    ValueRead(k + ":" + after, after, t);
  }

  lemma KeyRead(h: string, k: string)
    requires ':' in h && h[..Colon(h)] == k && Trimmed(k)
    ensures KeyOf(h) == k
  {
    StripTrimmed(k);
  }

  lemma ValueRead(h: string, after: string, t: string)
    requires ':' in h && h[Colon(h) + 1..] == after && (t == "" || Trimmed(t)) && after == if t == "" then "" else " " + t
    ensures ValueOf(h) == t
  {
    TailStrips(t);
  }

  lemma HeadNotItem(st: Style, k: string, v: Yaml)
    requires PlainKey(k)
    ensures !IsItem(Head(st, k, v)) && !("\"" <= Head(st, k, v))
  {
    var h := Head(st, k, v);
    assert h[0] == k[0];
    if |k| >= 2 {
      assert h[1] == k[1];
      assert "- " <= h ==> "- " <= k;
    } else {
      assert h[1] == ':';
    }
  }

  lemma ItemText(text: string)
    requires Trimmed(text)
    ensures IsItem("- " + text) && Strip(("- " + text)[2..]) == text
  {
    assert ("- " + text)[2..] == text;
    StripTrimmed(text);
  }

  lemma HeadIsRead(st: Style, k: string, v: Yaml)
    requires PlainKey(k) && Printable(st, v)
    ensures HeadRead(ReaderOf(st.number), st, k, v)
  {
    HeadParts(st, k, v);
    HeadNotItem(st, k, v);
    HeadTrimmed(st, k, v);
    ItemText(Head(st, k, v));
  }

  // ---------- scalars ----------

  /** Lower-casing gives the word exactly if the text is the word in any case. */
  lemma LowerIff(text: string, word: string)
    requires forall c :: c in word ==> 'a' <= c <= 'z'
    ensures Lower(text) == word <==> AnyCase(text, word)
  {
    if |text| == |word| {
      forall i | 0 <= i < |word|
        ensures Lower(text)[i] == word[i] <==> text[i] == word[i] || text[i] as int == word[i] as int - 32
      {
        assert word[i] in word;
        LowerCharIff(text[i], word[i]);
      }
      if AnyCase(text, word) { assert Lower(text) == word; }
    } else {
      assert |Lower(text)| == |text|;
    }
  }

  lemma LowerCharIff(c: char, w: char)
    requires 'a' <= w <= 'z'
    ensures LowerChar(c) == w <==> c == w || c as int == w as int - 32
  {
  }

  lemma WordsIff(text: string)
    ensures Lower(text) == "true" <==> AnyCase(text, "true")
    ensures Lower(text) == "yes" <==> AnyCase(text, "yes")
    ensures Lower(text) == "false" <==> AnyCase(text, "false")
    ensures Lower(text) == "no" <==> AnyCase(text, "no")
    ensures Lower(text) == "null" <==> AnyCase(text, "null")
  {
    LowerIff(text, "true");
    LowerIff(text, "yes");
    LowerIff(text, "false");
    LowerIff(text, "no");
    LowerIff(text, "null");
  }

  /** Words, and texts in quotes, exclude each other. */
  lemma QuotedIsNoWord(text: string, word: string)
    requires Between(text, '"') || Between(text, '\'')
    requires word != "" && 'a' <= word[0] <= 'z'
    ensures !AnyCase(text, word)
  {
  }

  lemma QuotedIff(text: string, q: char, s: string)
    ensures text == [q] + s + [q] <==> |text| >= 2 && Between(text, q) && text[1..|text| - 1] == s
  {
    if |text| >= 2 && Between(text, q) {
      assert text == [text[0]] + text[1..|text| - 1] + [text[|text| - 1]];
    }
  }

  lemma QuotedAlone(text: string, q: char)
    ensures text == [q] <==> |text| == 1 && Between(text, q)
  {
  }

  lemma QuotedIsRead(number: Numbers, text: string)
    requires Between(text, '"') || Between(text, '\'')
    ensures ScalarOf(number, text) == Str(if |text| >= 2 then text[1..|text| - 1] else "")
  {
    WordsIff(text);
    QuotedIsNoWord(text, "true");
    QuotedIsNoWord(text, "yes");
    QuotedIsNoWord(text, "false");
    QuotedIsNoWord(text, "no");
    QuotedIsNoWord(text, "null");
  }

  lemma QuotedScalar(number: Numbers, text: string, v: Yaml)
    requires Between(text, '"') || Between(text, '\'')
    ensures ScalarOf(number, text) == v <==>
            (v.Str? && (text == Quote(v.s) || text == "'" + v.s + "'")) || (v == Str("") && (text == "\"" || text == "'"))
  {
    QuotedIsRead(number, text);
    QuotedAlone(text, '"');
    QuotedAlone(text, '\'');
    if v.Str? {
      QuotedIff(text, '"', v.s);
      QuotedIff(text, '\'', v.s);
    }
  }

  /** What each way to write a scalar means: the reader yields `v` for a non-empty text exactly
      if the text is a way to write `v`. */
  lemma ScalarIff(number: Numbers, text: string, v: Yaml)
    requires text != ""
    ensures ScalarOf(number, text) == v <==> Spells(number, text, v)
  {
    WordsIff(text);
    if Between(text, '"') || Between(text, '\'') {
      QuotedScalar(number, text, v);
      QuotedIsNoWord(text, "true");
      QuotedIsNoWord(text, "yes");
      QuotedIsNoWord(text, "false");
      QuotedIsNoWord(text, "no");
      QuotedIsNoWord(text, "null");
    } else {
      WordsExclude(text);
      if v.Str? {
        QuotedIff(text, '"', v.s);
        QuotedIff(text, '\'', v.s);
      }
      QuotedAlone(text, '"');
      QuotedAlone(text, '\'');
    }
  }

  lemma WordsExclude(text: string)
    ensures AnyCase(text, "true") || AnyCase(text, "yes") ==> !AnyCase(text, "false") && !AnyCase(text, "no") && !AnyCase(text, "null")
    ensures AnyCase(text, "false") || AnyCase(text, "no") ==> !AnyCase(text, "null")
  {
    assert AnyCase(text, "null") ==> text[1] == 'u' || text[1] == 'U';
  }

  lemma ItemShapeOf(text: string)
    requires Trimmed(text) && (':' in text ==> text[0] == '"')
    ensures ShapeOf("- " + text) == ItemScalar(text)
  {
    ItemText(text);
    assert text[0] == '"' ==> "\"" <= text;
  }

  lemma SpeltScalar(number: Numbers, text: string, v: Yaml)
    requires Trimmed(text) && Spells(number, text, v)
    ensures ReaderOf(number).scalar(text) == v
  {
    StripTrimmed(text);
    ScalarIff(number, text, v);
  }

  lemma ScalarIsRead(st: Style, v: Yaml)
    requires Scalar(v) && WellSpelt(st, v)
    ensures ScalarRead(ReaderOf(st.number), st, v)
  {
    var text := st.spell(v);
    SpeltScalar(st.number, text, v);
    if PrintableItem(st, v) { ItemShapeOf(text); }
  }

  lemma ReaderReadsPrinted(st: Style)
    ensures ReadsPrinted(ReaderOf(st.number), st)
  {
    var rd := ReaderOf(st.number);
    forall k, v | PlainKey(k) && Printable(st, v) ensures HeadRead(rd, st, k, v) {
      HeadIsRead(st, k, v);
    }
    forall v | Scalar(v) && WellSpelt(st, v) ensures ScalarRead(rd, st, v) {
      ScalarIsRead(st, v);
    }
  }

  // ---------- lines as text ----------

  function Spaces(n: nat): string {
    if n == 0 then "" else " " + Spaces(n - 1)
  }

  function Render(line: Line): string {
    Spaces(line.indent) + line.content
  }

  function RenderAll(lines: seq<Line>): seq<string> {
    if lines == [] then [] else [Render(lines[0])] + RenderAll(lines[1..])
  }

  /** The text of a document: its lines joined by newlines. */
  function Text(lines: seq<Line>): string {
    JoinLines(RenderAll(lines))
  }

  /** A line that survives being written and read: trimmed, in one piece, no comment. */
  predicate Solid(content: string) {
    Trimmed(content) && '\n' !in content && content[0] != '#'
  }

  predicate AllSolid(lines: seq<Line>) {
    forall i :: 0 <= i < |lines| ==> Solid(lines[i].content)
  }

  ghost predicate SkipsSpace(strip: string -> string, s: string) {
    strip(" " + s) == strip(s)
  }

  lemma {:induction false} SkipSpaces(strip: string -> string, n: nat, content: string)
    requires forall s :: SkipsSpace(strip, s)
    ensures strip(Spaces(n) + content) == strip(content)
  {
    if n == 0 {
      assert Spaces(n) + content == content;
    } else {
      var rest := Spaces(n - 1) + content;
      SkipSpaces(strip, n - 1, content);
      assert Spaces(n) + content == " " + rest && SkipsSpace(strip, rest);
    }
  }

  lemma StripSpaces(n: nat, content: string)
    ensures LStrip(Spaces(n) + content) == LStrip(content)
  {
    forall s ensures SkipsSpace(LStrip, s) { StripSpace(s); }
    SkipSpaces(LStrip, n, content);
  }

  lemma {:induction false} SpacesAre(n: nat)
    ensures |Spaces(n)| == n && '\n' !in Spaces(n)
  {
    if n > 0 { SpacesAre(n - 1); }
  }

  lemma StripSpace(s: string)
    ensures LStrip(" " + s) == LStrip(s)
  {
    LStripOneMore(IsSpace, ' ', s);
  }

  lemma TrimmedStays(c: string)
    requires Trimmed(c)
    ensures LStrip(c) == c && RStrip(c) == c
  {
  }

  lemma NotSkipped(raw: string, content: string)
    requires content != "" && content[0] != '#' && LStrip(raw) == content
    ensures Significant(raw)
  {
  }

  lemma RenderStrips(line: Line)
    requires Solid(line.content)
    ensures LStrip(Render(line)) == line.content
  {
    StripSpaces(line.indent, line.content);
    TrimmedStays(line.content);
  }

  lemma RenderSize(line: Line)
    requires Solid(line.content)
    ensures |Render(line)| == line.indent + |line.content| && '\n' !in Render(line)
  {
    SpacesAre(line.indent);
  }

  lemma LineFrom(raw: string, content: string, indent: nat)
    requires LStrip(raw) == content && RStrip(content) == content && |raw| == indent + |content|
    ensures LineOf(raw) == Line(indent, content)
  {
  }

  lemma RenderRead(line: Line)
    requires Solid(line.content)
    ensures LineOf(Render(line)) == line
  {
    RenderStrips(line);
    RenderSize(line);
    TrimmedStays(line.content);
    LineFrom(Render(line), line.content, line.indent);
  }

  lemma RenderKept(line: Line)
    requires Solid(line.content)
    ensures Significant(Render(line))
  {
    RenderStrips(line);
    NotSkipped(Render(line), line.content);
  }

  lemma LinesOfFirst(raw: string, raws: seq<string>)
    requires Significant(raw)
    ensures LinesOf([raw] + raws) == [LineOf(raw)] + LinesOf(raws)
  {
    assert ([raw] + raws)[1..] == raws;
  }

  lemma RenderedFirst(line: Line, raws: seq<string>)
    requires Solid(line.content)
    ensures LinesOf([Render(line)] + raws) == [line] + LinesOf(raws)
  {
    RenderRead(line);
    RenderKept(line);
    LinesOfFirst(Render(line), raws);
  }

  /** Reading rendered lines gives the lines back. */
  lemma {:induction false} LinesOfRendered(lines: seq<Line>)
    requires AllSolid(lines)
    ensures LinesOf(RenderAll(lines)) == lines
  {
    if lines != [] {
      LinesOfRendered(lines[1..]);
      RenderedFirst(lines[0], RenderAll(lines[1..]));
      assert lines == [lines[0]] + lines[1..];
    }
  }

  lemma {:induction false} RenderedOneLine(lines: seq<Line>)
    requires AllSolid(lines)
    ensures |RenderAll(lines)| == |lines| && forall l :: l in RenderAll(lines) ==> '\n' !in l
  {
    if lines != [] {
      RenderSize(lines[0]);
      RenderedOneLine(lines[1..]);
    }
  }

  lemma TextRead(lines: seq<Line>)
    requires AllSolid(lines)
    ensures LinesOf(SplitLines(Text(lines))) == lines
  {
    LinesOfRendered(lines);
    RenderedOneLine(lines);
    if lines == [] {
      assert SplitLines("") == [""];
      assert Blank("");
    } else {
      SplitJoin(RenderAll(lines));
    }
  }

  // ---------- every printed line is solid ----------

  lemma SolidAppend(a: seq<Line>, b: seq<Line>)
    requires AllSolid(a) && AllSolid(b)
    ensures AllSolid(a + b)
  {
  }

  lemma HeadSolid(st: Style, k: string, v: Yaml)
    requires PlainKey(k) && Printable(st, v)
    ensures Solid(Head(st, k, v)) && Solid("- " + Head(st, k, v))
  {
    HeadTrimmed(st, k, v);
    TailOneLine(st, v);
  }

  lemma {:induction false} BelowSolid(st: Style, v: Yaml, d: nat)
    requires Printable(st, v)
    ensures AllSolid(Below(st, v, d))
    decreases v, Width(v) + 1
  {
    if v.Dict? { EntriesSolid(st, v, 0, d); }
    if v.List? { ItemsSolid(st, v, 0, d); }
  }

  lemma {:induction false} EntriesSolid(st: Style, v: Yaml, i: nat, d: nat)
    requires Printable(st, v) && v.Dict? && i <= |v.entries|
    ensures AllSolid(PrintEntries(st, v, i, d))
    decreases v, Width(v) - i
  {
    if i < |v.entries| {
      var (k, value) := v.entries[i];
      HeadSolid(st, k, value);
      BelowSolid(st, value, d + 2);
      EntriesSolid(st, v, i + 1, d);
      SolidAppend(Below(st, value, d + 2), PrintEntries(st, v, i + 1, d));
      SolidAppend([Line(d, Head(st, k, value))], Below(st, value, d + 2) + PrintEntries(st, v, i + 1, d));
    }
  }

  lemma {:induction false} ItemsSolid(st: Style, v: Yaml, i: nat, d: nat)
    requires Printable(st, v) && v.List? && i <= |v.items|
    ensures AllSolid(PrintItems(st, v, i, d))
    decreases v, Width(v) - i
  {
    if i < |v.items| {
      ItemSolid(st, v.items[i], d);
      ItemsSolid(st, v, i + 1, d);
      SolidAppend(PrintItem(st, v.items[i], d), PrintItems(st, v, i + 1, d));
    }
  }

  lemma {:induction false} ItemSolid(st: Style, v: Yaml, d: nat)
    requires Printable(st, v)
    ensures AllSolid(PrintItem(st, v, d))
    decreases v, Width(v) + 1
  {
    if Scalar(v) {
      assert WellSpelt(st, v);
    } else if v.Dict? && v.entries != [] {
      var (k, value) := v.entries[0];
      HeadSolid(st, k, value);
      BelowSolid(st, value, d + 4);
      EntriesSolid(st, v, 1, d + 2);
      SolidAppend(Below(st, value, d + 4), PrintEntries(st, v, 1, d + 2));
      SolidAppend([Line(d, "- " + Head(st, k, value))], Below(st, value, d + 4) + PrintEntries(st, v, 1, d + 2));
    }
  }

  // ---------- the inverse ----------

  /** A document in a style, printed with the indents that `f` gives to the printer's levels. */
  function Document(st: Style, f: nat -> nat, root: Yaml): string
    requires root.Dict?
  {
    Text(Relabel(f, PrintEntries(st, root, 0, 0)))
  }

  lemma PrintedBlockParses(st: Style, f: nat -> nat, root: Yaml)
    requires Monotone(f) && Printable(st, root) && root.Dict? && root.entries != []
    ensures var lines := Relabel(f, PrintEntries(st, root, 0, 0));
            lines != [] && ParseBlock(ReaderOf(st.number), lines, lines[0].indent).0 == root
  {
    var rd := ReaderOf(st.number);
    ReaderReadsPrinted(st);
    PrintedBlock(rd, st, root);
    BlockRelabel(rd, f, PrintEntries(st, root, 0, 0), 0);
  }

  lemma PrintedBlock(rd: Reader, st: Style, root: Yaml)
    requires ReadsPrinted(rd, st) && Printable(st, root) && root.Dict? && root.entries != []
    ensures var lines := PrintEntries(st, root, 0, 0);
            lines != [] && lines[0].indent == 0 && ParseBlock(rd, lines, 0) == (root, [])
  {
    var lines := PrintEntries(st, root, 0, 0);
    EntriesParse(rd, st, root, 0, 0, [], []);
    assert lines + [] == lines && [] + root.entries[0..] == root.entries;
    assert HeadRead(rd, st, root.entries[0].0, root.entries[0].1);
  }

  /** The parser undoes the printer, in whatever style the scalars are written and whatever
      strictly growing indents are printed: the document read back is the one printed, keys in
      their order. */
  lemma ParserUndoesPrinter(st: Style, f: nat -> nat, root: Yaml)
    requires Monotone(f) && Printable(st, root) && root.Dict?
    ensures ParseYaml(st.number, Document(st, f, root)) == root
  {
    var lines := PrintEntries(st, root, 0, 0);
    EntriesSolid(st, root, 0, 0);
    assert AllSolid(Relabel(f, lines));
    TextRead(Relabel(f, lines));
    if root.entries != [] {
      PrintedBlockParses(st, f, root);
    }
  }

  /** Hence no two documents print alike, whatever their styles. */
  lemma PrinterInjective(s: Style, t: Style, f: nat -> nat, g: nat -> nat, a: Yaml, b: Yaml)
    requires s.number == t.number && Monotone(f) && Monotone(g)
    requires Printable(s, a) && a.Dict? && Printable(t, b) && b.Dict?
    requires Document(s, f, a) == Document(t, g, b)
    ensures a == b
  {
    ParserUndoesPrinter(s, f, a);
    ParserUndoesPrinter(t, g, b);
  }
}
