/** A printer for the indentation parser's documents, and the proof that parsing undoes it. */
module YamlPrinter {
  import opened PyText
  import opened YamlParser
  import opened YamlProps

  // ---------- which documents print ----------

  /** A key that needs no quoting anywhere: trimmed, on one line, without a colon, and not
      mistaken for a comment, a quoted scalar or a list item. */
  predicate PlainKey(k: string) {
    Trimmed(k) && ':' !in k && '\n' !in k && k[0] != '#' && k[0] != '"' && !("- " <= k)
  }

  predicate Scalar(v: Yaml) {
    !v.List? && !v.Dict?
  }

  /** How a document writes its scalars, and what the reader takes for a number. */
  datatype Style = Style(number: Numbers, spell: Yaml -> string)

  /** `text` is the lower-case `word`, each letter in either case. */
  predicate AnyCase(text: string, word: string) {
    |text| == |word| && forall i :: 0 <= i < |word| ==> text[i] == word[i] || text[i] as int == word[i] as int - 32
  }

  predicate Between(text: string, quote: char) {
    text != "" && text[0] == quote && text[|text| - 1] == quote
  }

  predicate Reserved(text: string) {
    || AnyCase(text, "true") || AnyCase(text, "yes") || AnyCase(text, "false") || AnyCase(text, "no")
    || AnyCase(text, "null") || Between(text, '"') || Between(text, '\'')
  }

  /** `text` is a way to write the scalar `v`: a string in quotes of either kind, true, false
      or null in any case, or a bare word that is not one of these, a number or itself. */
  predicate Spells(number: Numbers, text: string, v: Yaml) {
    || (v.Str? && (text == Quote(v.s) || text == "'" + v.s + "'"))
    || (v == Str("") && (text == "\"" || text == "'"))
    || (v == Bool(true) && (AnyCase(text, "true") || AnyCase(text, "yes")))
    || (v == Bool(false) && (AnyCase(text, "false") || AnyCase(text, "no")))
    || (v == Null && AnyCase(text, "null"))
    || (v == number(text) && !Reserved(text))
  }

  /** On one line, not to be taken for an empty block. */
  predicate WellSpelt(st: Style, v: Yaml) {
    var text := st.spell(v);
    Trimmed(text) && '\n' !in text && text != "{}" && text != "[]" && Spells(st.number, text, v)
  }

  predicate KeysDistinct(es: seq<(string, Yaml)>) {
    forall i, j :: 0 <= i < j < |es| ==> es[i].0 != es[j].0
  }

  predicate EmptyBlock(v: Yaml) {
    v == Dict([]) || v == List([])
  }

  predicate Printable(st: Style, v: Yaml)
    decreases v, 0
  {
    match v
    case Dict(es) => KeysDistinct(es) && forall i :: 0 <= i < |es| ==> PlainKey(es[i].0) && Printable(st, es[i].1)
    case List(items) => forall i :: 0 <= i < |items| ==> Printable(st, items[i]) && PrintableItem(st, items[i])
    case _ => WellSpelt(st, v)
  }

  /** A list item is a scalar that does not look like an entry, or a dictionary with no empty
      block as a value. */
  predicate PrintableItem(st: Style, v: Yaml) {
    || (Scalar(v) && (':' in st.spell(v) ==> st.spell(v)[0] == '"'))
    || (v.Dict? && v.entries != [] && forall i :: 0 <= i < |v.entries| ==> !EmptyBlock(v.entries[i].1))
  }

  // ---------- the printer ----------

  function Quote(s: string): string {
    "\"" + s + "\""
  }

  /** What stands after the colon on the key's own line. */
  function Tail(st: Style, v: Yaml): string {
    match v
    case Dict(es) => if es == [] then "{}" else ""
    case List(items) => if items == [] then "[]" else ""
    case _ => st.spell(v)
  }

  function Head(st: Style, k: string, v: Yaml): string {
    k + ":" + (if Tail(st, v) == "" then "" else " " + Tail(st, v))
  }

  function Width(v: Yaml): nat {
    if v.Dict? then |v.entries| else if v.List? then |v.items| else 0
  }

  /** The lines below the key's own line. */
  function Below(st: Style, v: Yaml, d: nat): seq<Line>
    decreases v, Width(v) + 1
  {
    if v.Dict? then PrintEntries(st, v, 0, d) else if v.List? then PrintItems(st, v, 0, d) else []
  }

  /** The entries of a dictionary from the `i`-th on, at indent `d`. */
  function PrintEntries(st: Style, v: Yaml, i: nat, d: nat): seq<Line>
    requires v.Dict? && i <= |v.entries|
    decreases v, Width(v) - i
  {
    if i == |v.entries| then []
    else
      var (k, value) := v.entries[i];
      [Line(d, Head(st, k, value))] + (Below(st, value, d + 2) + PrintEntries(st, v, i + 1, d))
  }

  /** The items of a list from the `i`-th on, at indent `d`. */
  function PrintItems(st: Style, v: Yaml, i: nat, d: nat): seq<Line>
    requires v.List? && i <= |v.items|
    decreases v, Width(v) - i
  {
    if i == |v.items| then [] else PrintItem(st, v.items[i], d) + PrintItems(st, v, i + 1, d)
  }

  function PrintItem(st: Style, v: Yaml, d: nat): seq<Line>
    decreases v, Width(v) + 1
  {
    if Scalar(v) then [Line(d, "- " + st.spell(v))]
    else if v.Dict? && v.entries != [] then
      var (k, value) := v.entries[0];
      [Line(d, "- " + Head(st, k, value))] + (Below(st, value, d + 4) + PrintEntries(st, v, 1, d + 2))
    else []
  }

  // ---------- parsing printed lines ----------

  /** The reader sees printed lines for what they are. */
  ghost predicate ReadsPrinted(rd: Reader, st: Style) {
    && (forall k, v {:trigger HeadRead(rd, st, k, v)} :: PlainKey(k) && Printable(st, v) ==> HeadRead(rd, st, k, v))
    && (forall v {:trigger ScalarRead(rd, st, v)} :: Scalar(v) && WellSpelt(st, v) ==> ScalarRead(rd, st, v))
  }

  ghost predicate HeadRead(rd: Reader, st: Style, k: string, v: Yaml) {
    rd.shape(Head(st, k, v)) == Key(k, Tail(st, v)) && rd.shape("- " + Head(st, k, v)) == ItemKey(k, Tail(st, v))
  }

  ghost predicate ScalarRead(rd: Reader, st: Style, v: Yaml) {
    var text := st.spell(v);
    && rd.scalar(text) == v && text != "" && text != "{}" && text != "[]"
    && (PrintableItem(st, v) ==> rd.shape("- " + text) == ItemScalar(text))
  }

  /** What follows is not deeper than `d`. */
  predicate Ends(post: seq<Line>, d: nat) {
    post == [] || post[0].indent <= d
  }

  predicate KeysNew(acc: seq<(string, Yaml)>, es: seq<(string, Yaml)>) {
    forall i, j :: 0 <= i < |acc| && 0 <= j < |es| ==> acc[i].0 != es[j].0
  }

  lemma {:induction false} PutNew(acc: seq<(string, Yaml)>, k: string, v: Yaml)
    requires forall i :: 0 <= i < |acc| ==> acc[i].0 != k
    ensures Put(acc, k, v) == acc + [(k, v)]
  {
    if acc != [] {
      PutNew(acc[1..], k, v);
      assert acc == [acc[0]] + acc[1..];
    }
  }

  lemma PutEntry(v: Yaml, i: nat, acc: seq<(string, Yaml)>)
    requires v.Dict? && i < |v.entries| && KeysDistinct(v.entries) && KeysNew(acc, v.entries[i..])
    ensures Put(acc, v.entries[i].0, v.entries[i].1) == acc + [v.entries[i]]
    ensures KeysNew(acc + [v.entries[i]], v.entries[i + 1..])
    ensures acc + [v.entries[i]] + v.entries[i + 1..] == acc + v.entries[i..]
  {
    assert v.entries[i..][0] == v.entries[i];
    PutNew(acc, v.entries[i].0, v.entries[i].1);
    var after, rest := acc + [v.entries[i]], v.entries[i + 1..];
    forall a, b | 0 <= a < |after| && 0 <= b < |rest| ensures after[a].0 != rest[b].0 {
      assert rest[b] == v.entries[i + 1 + b];
      if a < |acc| { assert v.entries[i..][b + 1] == rest[b]; }
    }
  }

  /** What is left after the entries from `i` on never goes deeper than they do. */
  lemma EntriesEnd(st: Style, v: Yaml, i: nat, d: nat, post: seq<Line>)
    requires v.Dict? && i <= |v.entries| && Ends(post, d)
    ensures Ends(PrintEntries(st, v, i, d) + post, d)
  {
  }

  lemma ItemsEnd(st: Style, v: Yaml, i: nat, d: nat, post: seq<Line>)
    requires v.List? && i <= |v.items| && Ends(post, d) && Printable(st, v)
    ensures Ends(PrintItems(st, v, i, d) + post, d)
  {
  }

  /** The lines below a key open with a line at their own indent. */
  lemma BelowStarts(st: Style, v: Yaml, d: nat)
    requires Printable(st, v) && !Scalar(v) && !EmptyBlock(v)
    ensures Below(st, v, d) != [] && Below(st, v, d)[0].indent == d
  {
    if v.List? {
      assert Printable(st, v.items[0]) && PrintableItem(st, v.items[0]);
      ItemStarts(st, v.items[0], d);
      assert PrintItems(st, v, 0, d) == PrintItem(st, v.items[0], d) + PrintItems(st, v, 1, d);
    } else {
      assert PrintEntries(st, v, 0, d) != [];
    }
  }

  lemma ItemStarts(st: Style, item: Yaml, d: nat)
    requires Printable(st, item) && PrintableItem(st, item)
    ensures PrintItem(st, item, d) != [] && PrintItem(st, item, d)[0].indent == d
  {
  }

  // ---------- one turn of each loop ----------

  /** How the dictionary loop reads the value `v` spelled by `text` and the lines `rest`. */
  ghost predicate ValueRead(rd: Reader, text: string, v: Yaml, rest: seq<Line>, after: seq<Line>, d: nat) {
    if text == "" || text == "{}" then v != Null && ParseNested(rd, rest, d) == (v, after)
    else rest == after && v == (if text == "[]" then List([]) else rd.scalar(text))
  }

  /** How the item and sibling loops read a value. */
  ghost predicate ItemValueRead(rd: Reader, text: string, v: Yaml, rest: seq<Line>, after: seq<Line>, d: nat) {
    if text == "" then ParseNested(rd, rest, d) == (v, after) else rest == after && v == rd.scalar(text)
  }

  lemma DictTurn(rd: Reader, line: Line, rest: seq<Line>, acc: seq<(string, Yaml)>,
                 k: string, text: string, v: Yaml, after: seq<Line>)
    requires rd.shape(line.content) == Key(k, text) && ValueRead(rd, text, v, rest, after, line.indent)
    ensures ParseDict(rd, [line] + rest, line.indent, acc) == ParseDict(rd, after, line.indent, Put(acc, k, v))
  {
    assert ([line] + rest)[1..] == rest;
  }

  lemma SiblingTurn(rd: Reader, line: Line, rest: seq<Line>, d: nat, acc: seq<(string, Yaml)>,
                    k: string, text: string, v: Yaml, after: seq<Line>)
    requires line.indent > d && rd.shape(line.content) == Key(k, text)
    requires ItemValueRead(rd, text, v, rest, after, line.indent)
    ensures ParseSiblings(rd, [line] + rest, d, acc) == ParseSiblings(rd, after, d, Put(acc, k, v))
  {
    assert ([line] + rest)[1..] == rest;
  }

  lemma ItemTurn(rd: Reader, line: Line, rest: seq<Line>, acc: seq<Yaml>, k: string, text: string, v: Yaml,
                 mid: seq<Line>, entries: seq<(string, Yaml)>, after: seq<Line>)
    requires rd.shape(line.content) == ItemKey(k, text) && ItemValueRead(rd, text, v, rest, mid, line.indent)
    requires ParseSiblings(rd, mid, line.indent, [(k, v)]) == (entries, after)
    ensures ParseList(rd, [line] + rest, line.indent, acc) == ParseList(rd, after, line.indent, acc + [Dict(entries)])
  {
    assert ([line] + rest)[1..] == rest;
  }

  lemma ScalarTurn(rd: Reader, line: Line, rest: seq<Line>, acc: seq<Yaml>, text: string)
    requires rd.shape(line.content) == ItemScalar(text)
    ensures ParseList(rd, [line] + rest, line.indent, acc) == ParseList(rd, rest, line.indent, acc + [rd.scalar(text)])
  {
    assert ([line] + rest)[1..] == rest;
  }

  // ---------- the loops read printed lines back ----------

  lemma {:induction false} BelowParses(rd: Reader, st: Style, v: Yaml, d: nat, indent: nat, post: seq<Line>)
    requires ReadsPrinted(rd, st) && Printable(st, v) && !Scalar(v) && !EmptyBlock(v)
    requires d > indent && Ends(post, d - 1)
    ensures ParseNested(rd, Below(st, v, d) + post, indent) == (v, post)
    decreases v, Width(v) + 2
  {
    BelowStarts(st, v, d);
    var rest := Below(st, v, d) + post;
    assert Deeper(rest, indent) && rest[0] == Below(st, v, d)[0];
    if v.Dict? {
      EntriesParse(rd, st, v, 0, d, [], post);
      assert [] + v.entries[0..] == v.entries;
      assert rest[0].content == Head(st, v.entries[0].0, v.entries[0].1);
      assert HeadRead(rd, st, v.entries[0].0, v.entries[0].1);
    } else {
      ItemsParse(rd, st, v, 0, d, [], post);
      assert [] + v.items[0..] == v.items;
      FirstItemShape(rd, st, v, d);
    }
  }

  lemma FirstItemShape(rd: Reader, st: Style, v: Yaml, d: nat)
    requires ReadsPrinted(rd, st) && Printable(st, v) && v.List? && v.items != []
    ensures PrintItems(st, v, 0, d) != [] && ItemShape(rd.shape(PrintItems(st, v, 0, d)[0].content))
  {
    var item := v.items[0];
    if Scalar(item) {
      assert ScalarRead(rd, st, item);
    } else {
      assert HeadRead(rd, st, item.entries[0].0, item.entries[0].1);
    }
  }

  /** The dictionary loop reads printed entries back. */
  lemma {:induction false} EntriesParse(rd: Reader, st: Style, v: Yaml, i: nat, d: nat, acc: seq<(string, Yaml)>, post: seq<Line>)
    requires ReadsPrinted(rd, st) && Printable(st, v) && v.Dict? && i <= |v.entries| && KeysNew(acc, v.entries[i..])
    requires post == [] || post[0].indent < d
    ensures ParseDict(rd, PrintEntries(st, v, i, d) + post, d, acc) == (Dict(acc + v.entries[i..]), post)
    decreases v, Width(v) - i
  {
    if i == |v.entries| {
      assert PrintEntries(st, v, i, d) + post == post && acc + v.entries[i..] == acc;
    } else {
      var (k, value) := v.entries[i];
      var after := PrintEntries(st, v, i + 1, d) + post;
      EntriesEnd(st, v, i + 1, d, post);
      PutEntry(v, i, acc);
      EntriesParse(rd, st, v, i + 1, d, acc + [v.entries[i]], post);
      ValueParses(rd, st, value, d, after);
      assert HeadRead(rd, st, k, value);
      DictTurn(rd, Line(d, Head(st, k, value)), Below(st, value, d + 2) + after, acc, k, Tail(st, value), value, after);
      SplitEntries(st, v, i, d, post);
    }
  }

  lemma SplitEntries(st: Style, v: Yaml, i: nat, d: nat, post: seq<Line>)
    requires v.Dict? && i < |v.entries|
    ensures PrintEntries(st, v, i, d) + post ==
            [Line(d, Head(st, v.entries[i].0, v.entries[i].1))] + (Below(st, v.entries[i].1, d + 2) + (PrintEntries(st, v, i + 1, d) + post))
  {
  }

  /** One printed value, as the dictionary loop reads it. */
  lemma {:induction false} ValueParses(rd: Reader, st: Style, v: Yaml, d: nat, after: seq<Line>)
    requires ReadsPrinted(rd, st) && Printable(st, v) && Ends(after, d)
    ensures ValueRead(rd, Tail(st, v), v, Below(st, v, d + 2) + after, after, d)
    decreases v, Width(v) + 3
  {
    if Scalar(v) {
      assert ScalarRead(rd, st, v);
      assert [] + after == after;
    } else if EmptyBlock(v) {
      assert [] + after == after;
    } else {
      BelowParses(rd, st, v, d + 2, d, after);
    }
  }

  /** One printed value of a list item's dictionary. */
  lemma {:induction false} ItemValueParses(rd: Reader, st: Style, v: Yaml, d: nat, indent: nat, after: seq<Line>)
    requires ReadsPrinted(rd, st) && Printable(st, v) && !EmptyBlock(v) && d > indent && Ends(after, d - 1)
    ensures ItemValueRead(rd, Tail(st, v), v, Below(st, v, d) + after, after, indent)
    decreases v, Width(v) + 3
  {
    if Scalar(v) {
      assert ScalarRead(rd, st, v);
      assert [] + after == after;
    } else {
      BelowParses(rd, st, v, d, indent, after);
    }
  }

  /** The sibling loop of a list item reads printed entries back. */
  lemma {:induction false} SiblingsParse(rd: Reader, st: Style, v: Yaml, i: nat, d: nat, acc: seq<(string, Yaml)>, post: seq<Line>)
    requires ReadsPrinted(rd, st) && Printable(st, v) && v.Dict? && PrintableItem(st, v) && i <= |v.entries|
    requires KeysNew(acc, v.entries[i..]) && Ends(post, d)
    ensures ParseSiblings(rd, PrintEntries(st, v, i, d + 2) + post, d, acc) == (acc + v.entries[i..], post)
    decreases v, Width(v) - i
  {
    if i == |v.entries| {
      assert PrintEntries(st, v, i, d + 2) + post == post && acc + v.entries[i..] == acc;
    } else {
      var (k, value) := v.entries[i];
      var after := PrintEntries(st, v, i + 1, d + 2) + post;
      EntriesEnd(st, v, i + 1, d + 2, post);
      PutEntry(v, i, acc);
      SiblingsParse(rd, st, v, i + 1, d, acc + [v.entries[i]], post);
      ItemValueParses(rd, st, value, d + 4, d + 2, after);
      assert HeadRead(rd, st, k, value);
      SiblingTurn(rd, Line(d + 2, Head(st, k, value)), Below(st, value, d + 4) + after, d, acc, k, Tail(st, value), value, after);
      SplitEntries(st, v, i, d + 2, post);
    }
  }

  /** The list loop reads printed items back. */
  lemma {:induction false} ItemsParse(rd: Reader, st: Style, v: Yaml, i: nat, d: nat, acc: seq<Yaml>, post: seq<Line>)
    requires ReadsPrinted(rd, st) && Printable(st, v) && v.List? && i <= |v.items|
    requires post == [] || post[0].indent < d
    ensures ParseList(rd, PrintItems(st, v, i, d) + post, d, acc) == (List(acc + v.items[i..]), post)
    decreases v, Width(v) - i
  {
    if i == |v.items| {
      assert PrintItems(st, v, i, d) + post == post && acc + v.items[i..] == acc;
    } else {
      var item := v.items[i];
      var after := PrintItems(st, v, i + 1, d) + post;
      ItemsEnd(st, v, i + 1, d, post);
      ItemsParse(rd, st, v, i + 1, d, acc + [item], post);
      ItemParses(rd, st, item, d, acc, after);
      SplitItems(st, v, i, d, post);
      AppendItem(acc, v.items, i);
    }
  }

  lemma SplitItems(st: Style, v: Yaml, i: nat, d: nat, post: seq<Line>)
    requires v.List? && i < |v.items|
    ensures PrintItems(st, v, i, d) + post == PrintItem(st, v.items[i], d) + (PrintItems(st, v, i + 1, d) + post)
  {
  }

  lemma AppendItem(acc: seq<Yaml>, items: seq<Yaml>, i: nat)
    requires i < |items|
    ensures acc + [items[i]] + items[i + 1..] == acc + items[i..]
  {
  }

  /** One printed item, read by the list loop. */
  lemma {:induction false} ItemParses(rd: Reader, st: Style, item: Yaml, d: nat, acc: seq<Yaml>, after: seq<Line>)
    requires ReadsPrinted(rd, st) && Printable(st, item) && PrintableItem(st, item) && Ends(after, d)
    ensures ParseList(rd, PrintItem(st, item, d) + after, d, acc) == ParseList(rd, after, d, acc + [item])
    decreases item, Width(item) + 1
  {
    if Scalar(item) {
      assert ScalarRead(rd, st, item);
      ScalarTurn(rd, Line(d, "- " + st.spell(item)), after, acc, st.spell(item));
    } else {
      var (k, value) := item.entries[0];
      var mid := PrintEntries(st, item, 1, d + 2) + after;
      EntriesEnd(st, item, 1, d + 2, after);
      ItemValueParses(rd, st, value, d + 4, d, mid);
      FirstKeyNew(item);
      SiblingsParse(rd, st, item, 1, d, [(k, value)], after);
      assert [(k, value)] + item.entries[1..] == item.entries;
      assert HeadRead(rd, st, k, value);
      ItemTurn(rd, Line(d, "- " + Head(st, k, value)), Below(st, value, d + 4) + mid, acc, k, Tail(st, value), value,
               mid, item.entries, after);
      SplitItem(st, item, d, after);
    }
  }

  lemma FirstKeyNew(item: Yaml)
    requires item.Dict? && item.entries != [] && KeysDistinct(item.entries)
    ensures KeysNew([item.entries[0]], item.entries[1..])
  {
    forall b | 0 <= b < |item.entries[1..]| ensures item.entries[0].0 != item.entries[1..][b].0 {
      assert item.entries[1..][b] == item.entries[1 + b];
    }
  }

  lemma SplitItem(st: Style, item: Yaml, d: nat, after: seq<Line>)
    requires item.Dict? && item.entries != []
    ensures PrintItem(st, item, d) + after ==
            [Line(d, "- " + Head(st, item.entries[0].0, item.entries[0].1))]
            + (Below(st, item.entries[0].1, d + 4) + (PrintEntries(st, item, 1, d + 2) + after))
  {
  }
}
