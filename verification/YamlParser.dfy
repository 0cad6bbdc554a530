/** The indentation parser `parse_yaml_v2` of tools/schema_validator.py. */
module YamlParser {
  import opened PyText

  datatype Yaml =
    | Null | Bool(b: bool) | Num(n: real) | Str(s: string)
    | List(items: seq<Yaml>)
    | Dict(entries: seq<(string, Yaml)>)  // in insertion order, keys distinct

  /** A significant line: its indent and its text without surrounding blanks. */
  datatype Line = Line(indent: nat, content: string)

  /** `int(s)` or `float(s)`: the number a scalar spells, if any. */
  type Numbers = string -> Yaml

  // ---------- scalars ----------

  function LowerChar(c: char): char {
    if 'A' <= c <= 'Z' then c - 'A' + 'a' else c
  }

  function Lower(s: string): string {
    seq(|s|, i requires 0 <= i < |s| => LowerChar(s[i]))
  }

  predicate QuotedBy(s: string, q: char) {
    s != "" && s[0] == q && s[|s| - 1] == q
  }

  /** `_parse_scalar`; `number` yields the text itself where the number conversion fails. */
  function ParseScalar(number: Numbers, text: string): Yaml {
    ScalarOf(number, Strip(text))
  }

  function ScalarOf(number: Numbers, s: string): Yaml {
    if s == "" then Null
    else if Lower(s) in ["true", "yes"] then Bool(true)
    else if Lower(s) in ["false", "no"] then Bool(false)
    else if Lower(s) == "null" then Null
    else if QuotedBy(s, '"') || QuotedBy(s, '\'') then Str(if |s| >= 2 then s[1..|s| - 1] else "")
    else number(s)
  }

  // ---------- reading one line ----------

  predicate IsItem(content: string) {
    "- " <= content
  }

  function KeyOf(text: string): string
    requires ':' in text
  {
    Strip(text[..Colon(text)])
  }

  function ValueOf(text: string): string
    requires ':' in text
  {
    Strip(text[Colon(text) + 1..])
  }

  /** An item text that opens a dictionary rather than being a scalar. */
  predicate OpensDict(item: string) {
    ':' in item && !("\"" <= item)
  }

  /** All that the parser asks about the text of a line; an empty value means that nothing
      follows the colon. */
  datatype Shape =
    | ItemScalar(text: string) | ItemKey(key: string, value: string)
    | Key(key: string, value: string) | Other

  function ShapeOf(content: string): Shape {
    if IsItem(content) then
      var item := Strip(content[2..]);
      if OpensDict(item) then ItemKey(KeyOf(item), ValueOf(item)) else ItemScalar(item)
    else if ':' in content then Key(KeyOf(content), ValueOf(content))
    else Other
  }

  predicate ItemShape(s: Shape) {
    s.ItemScalar? || s.ItemKey?
  }

  /** How lines and scalars are read; the parser below depends on nothing else. */
  datatype Reader = Reader(shape: string -> Shape, scalar: string -> Yaml)

  function ReaderOf(number: Numbers): Reader {
    Reader(ShapeOf, text => ParseScalar(number, text))
  }

  // ---------- the parser on the remaining lines ----------

  /** Assignment to a dictionary key: an existing key keeps its place. */
  function Put(entries: seq<(string, Yaml)>, k: string, v: Yaml): seq<(string, Yaml)> {
    if entries == [] then [(k, v)]
    else if entries[0].0 == k then [(k, v)] + entries[1..]
    else [entries[0]] + Put(entries[1..], k, v)
  }

  /** Is there a next line deeper than `indent`? */
  predicate Deeper(rest: seq<Line>, indent: nat) {
    rest != [] && rest[0].indent > indent
  }

  /** `parse_block` on the remaining lines: the value and what is left. */
  function ParseBlock(rd: Reader, rest: seq<Line>, indent: nat): (r: (Yaml, seq<Line>))
    ensures |r.1| <= |rest|
    decreases |rest|, 2
  {
    if rest == [] || rest[0].indent < indent then (Null, rest)
    else if ItemShape(rd.shape(rest[0].content)) then ParseList(rd, rest, indent, [])
    else ParseDict(rd, rest, indent, [])
  }

  /** The nested block under a key, or an empty dictionary if nothing deeper follows. */
  function ParseNested(rd: Reader, rest: seq<Line>, indent: nat): (r: (Yaml, seq<Line>))
    ensures |r.1| <= |rest|
    decreases |rest|, 3
  {
    if Deeper(rest, indent) then ParseBlock(rd, rest, rest[0].indent) else (Dict([]), rest)
  }

  /** The loop of a list block. */
  function ParseList(rd: Reader, rest: seq<Line>, indent: nat, items: seq<Yaml>): (r: (Yaml, seq<Line>))
    ensures |r.1| <= |rest|
    decreases |rest|, 1
  {
    if rest == [] || rest[0].indent < indent then (List(items), rest)
    else if rest[0].indent > indent then ParseList(rd, rest[1..], indent, items)
    else
      match rd.shape(rest[0].content)
      case ItemScalar(text) => ParseList(rd, rest[1..], indent, items + [rd.scalar(text)])
      case ItemKey(k, v) =>
        var (first, rest1) := if v != "" then (rd.scalar(v), rest[1..]) else ParseNested(rd, rest[1..], indent);
        var (entries, rest2) := ParseSiblings(rd, rest1, indent, [(k, first)]);
        ParseList(rd, rest2, indent, items + [Dict(entries)])
      case _ => (List(items), rest)
  }

  /** The further keys of a dictionary that opened on a list item. */
  function ParseSiblings(rd: Reader, rest: seq<Line>, indent: nat, entries: seq<(string, Yaml)>)
      : (r: (seq<(string, Yaml)>, seq<Line>))
    ensures |r.1| <= |rest|
    decreases |rest|, 1
  {
    if !Deeper(rest, indent) then (entries, rest)
    else
      match rd.shape(rest[0].content)
      case Other => ParseSiblings(rd, rest[1..], indent, entries)
      case Key(k, v) =>
        var (sub, rest1) := if v != "" then (rd.scalar(v), rest[1..]) else ParseNested(rd, rest[1..], rest[0].indent);
        ParseSiblings(rd, rest1, indent, Put(entries, k, sub))
      case _ => (entries, rest)
  }

  function OrEmptyDict(v: Yaml): Yaml {
    if v == Null then Dict([]) else v
  }

  /** The loop of a dictionary block. */
  function ParseDict(rd: Reader, rest: seq<Line>, indent: nat, entries: seq<(string, Yaml)>): (r: (Yaml, seq<Line>))
    ensures |r.1| <= |rest|
    decreases |rest|, 1
  {
    if rest == [] || rest[0].indent < indent then (Dict(entries), rest)
    else if rest[0].indent > indent then ParseDict(rd, rest[1..], indent, entries)
    else
      match rd.shape(rest[0].content)
      case Other => ParseDict(rd, rest[1..], indent, entries)
      case Key(k, v) =>
        if v == "" || v == "{}" then
          var (sub, rest1) := ParseNested(rd, rest[1..], indent);
          ParseDict(rd, rest1, indent, Put(entries, k, OrEmptyDict(sub)))
        else ParseDict(rd, rest[1..], indent, Put(entries, k, if v == "[]" then List([]) else rd.scalar(v)))
      case _ => (Dict(entries), rest)
  }

  // ---------- from text ----------

  predicate Significant(raw: string) {
    !Blank(raw) && !("#" <= LStrip(raw))
  }

  function LineOf(raw: string): Line {
    Line(|raw| - |LStrip(raw)|, RStrip(LStrip(raw)))
  }

  function LinesOf(raws: seq<string>): seq<Line> {
    if raws == [] then []
    else (if Significant(raws[0]) then [LineOf(raws[0])] else []) + LinesOf(raws[1..])
  }

  /** What `parse_yaml_v2` returns: the top block if it is a dictionary, else an empty one. */
  function ParseYaml(number: Numbers, text: string): Yaml {
    var lines := LinesOf(SplitLines(text));
    if lines == [] then Dict([])
    else
      var (v, _) := ParseBlock(ReaderOf(number), lines, lines[0].indent);
      if v.Dict? then v else Dict([])
  }

  // ---------- the parser as the source writes it ----------

  lemma Peel(lines: seq<Line>, idx: nat)
    requires idx < |lines|
    ensures lines[idx..] != [] && lines[idx..][0] == lines[idx] && lines[idx..][1..] == lines[idx + 1..]
  {
  }

  /** `parse_block`, with the index into the shared list of lines. */
  method ParseBlockAt(rd: Reader, lines: seq<Line>, start: nat, blockIndent: nat) returns (v: Yaml, next: nat)
    requires start <= |lines|
    ensures start <= next <= |lines|
    ensures (v, lines[next..]) == ParseBlock(rd, lines[start..], blockIndent)
    decreases |lines| - start, 1
  {
    if start >= |lines| || lines[start].indent < blockIndent {
      return Null, start;
    }
    if ItemShape(rd.shape(lines[start].content)) {
      v, next := ParseListAt(rd, lines, start, blockIndent);
    } else {
      v, next := ParseDictAt(rd, lines, start, blockIndent);
    }
  }

  method ParseListAt(rd: Reader, lines: seq<Line>, start: nat, blockIndent: nat) returns (v: Yaml, idx: nat)
    requires start <= |lines|
    ensures start <= idx <= |lines|
    ensures (v, lines[idx..]) == ParseList(rd, lines[start..], blockIndent, [])
    decreases |lines| - start, 0
  {
    idx := start;
    var items: seq<Yaml> := [];
    while idx < |lines|
      invariant start <= idx <= |lines|
      invariant ParseList(rd, lines[idx..], blockIndent, items) == ParseList(rd, lines[start..], blockIndent, [])
      decreases |lines| - idx
    {
      Peel(lines, idx);
      if lines[idx].indent < blockIndent {
        break;
      }
      if lines[idx].indent > blockIndent {
        idx := idx + 1;
        continue;
      }
      match rd.shape(lines[idx].content) {
        case ItemScalar(text) =>
          items := items + [rd.scalar(text)];
          idx := idx + 1;
        case ItemKey(k, value) =>
          idx := idx + 1;
          var first: Yaml;
          if value != "" {
            first := rd.scalar(value);
          } else {
            first, idx := ParseNestedAt(rd, lines, idx, blockIndent);
          }
          var entries: seq<(string, Yaml)>;
          entries, idx := ParseSiblingsAt(rd, lines, idx, blockIndent, [(k, first)]);
          items := items + [Dict(entries)];
        case _ =>
          break;
      }
    }
    v := List(items);
  }

  method ParseDictAt(rd: Reader, lines: seq<Line>, start: nat, blockIndent: nat) returns (v: Yaml, idx: nat)
    requires start <= |lines|
    ensures start <= idx <= |lines|
    ensures (v, lines[idx..]) == ParseDict(rd, lines[start..], blockIndent, [])
    decreases |lines| - start, 0
  {
    idx := start;
    var entries: seq<(string, Yaml)> := [];
    while idx < |lines|
      invariant start <= idx <= |lines|
      invariant ParseDict(rd, lines[idx..], blockIndent, entries) == ParseDict(rd, lines[start..], blockIndent, [])
      decreases |lines| - idx
    {
      Peel(lines, idx);
      if lines[idx].indent < blockIndent {
        break;
      }
      if lines[idx].indent > blockIndent {
        idx := idx + 1;
        continue;
      }
      match rd.shape(lines[idx].content) {
        case Other =>
          idx := idx + 1;
        case Key(k, value) =>
          idx := idx + 1;
          if value == "" || value == "{}" {
            var sub;
            sub, idx := ParseNestedAt(rd, lines, idx, blockIndent);
            entries := Put(entries, k, OrEmptyDict(sub));
          } else if value == "[]" {
            entries := Put(entries, k, List([]));
          } else {
            entries := Put(entries, k, rd.scalar(value));
          }
        case _ =>
          break;
      }
    }
    v := Dict(entries);
  }

  /** The look-ahead for a deeper block. */
  method ParseNestedAt(rd: Reader, lines: seq<Line>, start: nat, indent: nat) returns (v: Yaml, next: nat)
    requires start <= |lines|
    ensures start <= next <= |lines|
    ensures (v, lines[next..]) == ParseNested(rd, lines[start..], indent)
    decreases |lines| - start, 2
  {
    if start < |lines| && lines[start].indent > indent {
      v, next := ParseBlockAt(rd, lines, start, lines[start].indent);
    } else {
      v, next := Dict([]), start;
    }
  }

  /** The loop that collects the further keys of a list item. */
  method ParseSiblingsAt(rd: Reader, lines: seq<Line>, start: nat, indent: nat, entries0: seq<(string, Yaml)>)
      returns (entries: seq<(string, Yaml)>, next: nat)
    requires start <= |lines|
    ensures start <= next <= |lines|
    ensures (entries, lines[next..]) == ParseSiblings(rd, lines[start..], indent, entries0)
    decreases |lines| - start, 3
  {
    entries, next := entries0, start;
    while next < |lines| && lines[next].indent > indent && !ItemShape(rd.shape(lines[next].content))
      invariant start <= next <= |lines|
      invariant ParseSiblings(rd, lines[next..], indent, entries) == ParseSiblings(rd, lines[start..], indent, entries0)
      decreases |lines| - next
    {
      Peel(lines, next);
      var cur := lines[next];
      next := next + 1;
      match rd.shape(cur.content) {
        case Key(k, value) =>
          if value != "" {
            entries := Put(entries, k, rd.scalar(value));
          } else {
            var sub;
            sub, next := ParseNestedAt(rd, lines, next, cur.indent);
            entries := Put(entries, k, sub);
          }
        case _ =>
      }
    }
  }

  /** The significant lines, with their indents. */
  method ReadLines(raws: seq<string>) returns (lines: seq<Line>)
    ensures lines == LinesOf(raws)
  {
    lines := [];
    for i := 0 to |raws|
      invariant lines + LinesOf(raws[i..]) == LinesOf(raws)
    {
      ghost var rest := raws[i..];
      assert rest[0] == raws[i] && rest[1..] == raws[i + 1..];
      lines := lines + (if Significant(raws[i]) then [LineOf(raws[i])] else []);
    }
  }

  /** `parse_yaml_v2`. */
  method ParseYamlV2(number: Numbers, text: string) returns (root: Yaml)
    ensures root == ParseYaml(number, text)
  {
    var lines := ReadLines(SplitLines(text));
    root := Dict([]);
    if |lines| > 0 {
      assert lines[0..] == lines;
      var result, _ := ParseBlockAt(ReaderOf(number), lines, 0, lines[0].indent);
      if result.Dict? {
        root := result;
      }
    }
  }
}
