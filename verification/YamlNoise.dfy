/** What the indentation parser passes over, and what a repeated key does. */
module YamlNoise {
  import opened PyText
  import opened YamlParser

  // ---------- blank lines and comments ----------

  /** Nothing but blanks, or blanks and then a comment. */
  predicate BlankOrComment(raw: string) {
    Blank(raw) || exists i :: 0 <= i < |raw| && raw[i] == '#' && Blank(raw[..i])
  }

  lemma BlanksFirst(raw: string, i: nat)
    requires i < |raw| && Blank(raw[..i]) && raw[i] == '#'
    ensures LStrip(raw) == raw[i..]
  {
    var kind := IsSpace;
    BlankIff(raw[..i]);
    assert !kind('#');
    FirstOther(kind, raw, i);
  }

  lemma {:induction false} FirstOther(kind: char -> bool, raw: string, i: nat)
    requires i < |raw| && AllOf(kind, raw[..i]) && !kind(raw[i])
    ensures LStripBy(kind, raw) == raw[i..]
  {
    if i > 0 {
      assert raw[0] == raw[..i][0] && raw[1..][..i - 1] == raw[..i][1..] && raw[1..][i - 1..] == raw[i..];
      FirstOther(kind, raw[1..], i - 1);
    }
  }

  lemma StrippedFront(raw: string)
    ensures Blank(raw[..|raw| - |LStrip(raw)|])
  {
    LStripTakes(IsSpace, raw);
    BlankIff(raw[..|raw| - |LStrip(raw)|]);
  }

  /** The lines that are passed over are the blank ones and the comments. */
  lemma SignificantIff(raw: string)
    ensures Significant(raw) <==> !BlankOrComment(raw)
  {
    if "#" <= LStrip(raw) {
      var i := |raw| - |LStrip(raw)|;
      StrippedFront(raw);
      assert raw[i] == LStrip(raw)[0] == '#';
    }
    if i :| 0 <= i < |raw| && raw[i] == '#' && Blank(raw[..i]) {
      BlanksFirst(raw, i);
      assert LStrip(raw)[0] == '#';
    }
  }

  ghost predicate LineByLine(lines: seq<string> -> seq<Line>, first: string -> seq<Line>, raws: seq<string>) {
    lines(raws) == if raws == [] then [] else first(raws[0]) + lines(raws[1..])
  }

  lemma {:induction false} ConcatBy(lines: seq<string> -> seq<Line>, first: string -> seq<Line>, a: seq<string>, b: seq<string>)
    requires forall raws :: LineByLine(lines, first, raws)
    ensures lines(a + b) == lines(a) + lines(b)
  {
    assert LineByLine(lines, first, a) && LineByLine(lines, first, a + b);
    if a == [] {
      assert [] + b == b;
    } else {
      assert (a + b)[0] == a[0] && (a + b)[1..] == a[1..] + b;
      ConcatBy(lines, first, a[1..], b);
      Regrouped(first(a[0]), lines(a[1..]), lines(b));
    }
  }

  function FirstLine(raw: string): seq<Line> {
    if Significant(raw) then [LineOf(raw)] else []
  }

  lemma LinesOfConcat(a: seq<string>, b: seq<string>)
    ensures LinesOf(a + b) == LinesOf(a) + LinesOf(b)
  {
    forall raws ensures LineByLine(LinesOf, FirstLine, raws) {}
    ConcatBy(LinesOf, FirstLine, a, b);
  }

  lemma NoLine(raw: string)
    requires BlankOrComment(raw)
    ensures LinesOf([raw]) == []
  {
    SignificantIff(raw);
    assert [raw][1..] == [];
  }

  /** A blank line or a comment anywhere in a text makes no difference. */
  lemma NoiseIsIgnored(number: Numbers, a: seq<string>, raw: string, b: seq<string>)
    requires BlankOrComment(raw) && a + b != [] && forall l :: l in a + [raw] + b ==> '\n' !in l
    ensures ParseYaml(number, JoinLines(a + [raw] + b)) == ParseYaml(number, JoinLines(a + b))
  {
    forall l | l in a + b ensures '\n' !in l { assert l in a + [raw] + b; }
    SplitJoin(a + [raw] + b);
    SplitJoin(a + b);
    LinesOfConcat(a + [raw], b);
    LinesOfConcat(a, [raw]);
    LinesOfConcat(a, b);
    NoLine(raw);
    assert LinesOf(a) + [] == LinesOf(a);
  }

  // ---------- lines out of place ----------

  /** A line that a dictionary at `indent` passes over: too deep, or neither entry nor item. */
  predicate OutOfPlace(rd: Reader, l: Line, indent: nat) {
    l.indent > indent || (l.indent == indent && rd.shape(l.content).Other?)
  }

  lemma {:induction false} DictPassesOver(rd: Reader, noise: seq<Line>, rest: seq<Line>, indent: nat, entries: seq<(string, Yaml)>)
    requires forall i :: 0 <= i < |noise| ==> OutOfPlace(rd, noise[i], indent)
    ensures ParseDict(rd, noise + rest, indent, entries) == ParseDict(rd, rest, indent, entries)
  {
    if noise == [] {
      assert noise + rest == rest;
    } else {
      assert (noise + rest)[0] == noise[0] && (noise + rest)[1..] == noise[1..] + rest;
      DictPassesOver(rd, noise[1..], rest, indent, entries);
    }
  }

  /** A list passes over lines deeper than its own. */
  lemma {:induction false} ListPassesOver(rd: Reader, noise: seq<Line>, rest: seq<Line>, indent: nat, items: seq<Yaml>)
    requires forall i :: 0 <= i < |noise| ==> noise[i].indent > indent
    ensures ParseList(rd, noise + rest, indent, items) == ParseList(rd, rest, indent, items)
  {
    if noise == [] {
      assert noise + rest == rest;
    } else {
      assert (noise + rest)[0] == noise[0] && (noise + rest)[1..] == noise[1..] + rest;
      ListPassesOver(rd, noise[1..], rest, indent, items);
    }
  }

  /** So do the further keys of a list item, over lines that are no entries. */
  lemma {:induction false} SiblingsPassOver(rd: Reader, noise: seq<Line>, rest: seq<Line>, indent: nat, entries: seq<(string, Yaml)>)
    requires forall i :: 0 <= i < |noise| ==> noise[i].indent > indent && rd.shape(noise[i].content).Other?
    ensures ParseSiblings(rd, noise + rest, indent, entries) == ParseSiblings(rd, rest, indent, entries)
  {
    if noise == [] {
      assert noise + rest == rest;
    } else {
      assert (noise + rest)[0] == noise[0] && (noise + rest)[1..] == noise[1..] + rest;
      SiblingsPassOver(rd, noise[1..], rest, indent, entries);
    }
  }

  /** A text whose first significant line is a list item reads as the empty dictionary. */
  lemma TopListIsDropped(number: Numbers, text: string)
    requires var lines := LinesOf(SplitLines(text)); lines != [] && "- " <= lines[0].content
    ensures ParseYaml(number, text) == Dict([])
  {
    var lines, rd := LinesOf(SplitLines(text)), ReaderOf(number);
    ListYieldsList(rd, lines, lines[0].indent, []);
  }

  lemma {:induction false} ListYieldsList(rd: Reader, rest: seq<Line>, indent: nat, items: seq<Yaml>)
    ensures ParseList(rd, rest, indent, items).0.List?
    decreases |rest|
  {
    if rest != [] && rest[0].indent >= indent {
      if rest[0].indent > indent {
        ListYieldsList(rd, rest[1..], indent, items);
      } else {
        match rd.shape(rest[0].content)
        case ItemScalar(text) => ListYieldsList(rd, rest[1..], indent, items + [rd.scalar(text)]);
        case ItemKey(k, v) =>
          var (first, rest1) := if v != "" then (rd.scalar(v), rest[1..]) else ParseNested(rd, rest[1..], indent);
          var (entries, rest2) := ParseSiblings(rd, rest1, indent, [(k, first)]);
          ListYieldsList(rd, rest2, indent, items + [Dict(entries)]);
        case _ =>
      }
    }
  }

  // ---------- a repeated key ----------

  /** The last value given to a key is kept, at the place of the first; other entries stay. */
  lemma {:induction false} RepeatedKey(entries: seq<(string, Yaml)>, k: string, v: Yaml, i: nat)
    requires i < |entries| && entries[i].0 == k && forall j :: 0 <= j < i ==> entries[j].0 != k
    ensures Put(entries, k, v) == entries[i := (k, v)]
  {
    if i > 0 {
      assert entries[1..][i - 1].0 == k;
      forall j | 0 <= j < i - 1 ensures entries[1..][j].0 != k { assert entries[1..][j] == entries[j + 1]; }
      RepeatedKey(entries[1..], k, v, i - 1);
      assert entries[i := (k, v)] == [entries[0]] + entries[1..][i - 1 := (k, v)];
    }
  }

  lemma {:induction false} PutTwice(entries: seq<(string, Yaml)>, k: string, v: Yaml, w: Yaml)
    ensures Put(Put(entries, k, v), k, w) == Put(entries, k, w)
  {
    if entries == [] {
      assert [(k, v)][1..] == [];
    } else if entries[0].0 == k {
      assert ([(k, v)] + entries[1..])[1..] == entries[1..];
    } else {
      PutTwice(entries[1..], k, v, w);
      assert ([entries[0]] + Put(entries[1..], k, v))[1..] == Put(entries[1..], k, v);
    }
  }

  /** Two lines with the same key, one after the other: the second value is kept. */
  lemma LastValueCounts(rd: Reader, a: Line, b: Line, rest: seq<Line>, entries: seq<(string, Yaml)>, k: string, v: string, w: string)
    requires a.indent == b.indent && rd.shape(a.content) == Key(k, v) && rd.shape(b.content) == Key(k, w)
    requires v !in ["", "{}", "[]"] && w !in ["", "{}", "[]"]
    ensures ParseDict(rd, [a, b] + rest, a.indent, entries) == ParseDict(rd, [b] + rest, a.indent, entries)
  {
    assert ([a, b] + rest)[1..] == [b] + rest && ([b] + rest)[1..] == rest;
    PutTwice(entries, k, rd.scalar(v), rd.scalar(w));
  }
}
