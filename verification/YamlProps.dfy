/** Progress of the indentation parser, and what of the indents it depends on. */
module YamlProps {
  import opened YamlParser

  // ---------- what a block consumes ----------

  /** `left` is what remains of `rest` after some lines, all at least `indent` deep. */
  ghost predicate Leaves(rest: seq<Line>, left: seq<Line>, indent: nat) {
    && |left| <= |rest| && left == rest[|rest| - |left|..]
    && forall j :: 0 <= j < |rest| - |left| ==> rest[j].indent >= indent
  }

  lemma LeavesMore(rest: seq<Line>, mid: seq<Line>, left: seq<Line>, deep: nat, indent: nat)
    requires rest != [] && rest[0].indent >= indent && deep >= indent
    requires Leaves(rest[1..], mid, deep) && Leaves(mid, left, indent)
    ensures Leaves(rest, left, indent)
  {
    assert left == rest[|rest| - |left|..];
    forall j | 0 <= j < |rest| - |left| ensures rest[j].indent >= indent {
      if j > 0 {
        if j - 1 < |rest[1..]| - |mid| {
          assert rest[1..][j - 1] == rest[j];
        } else {
          assert mid[j - (|rest| - |mid|)] == rest[j];
        }
      }
    }
  }

  lemma LeavesDeeper(rest: seq<Line>, left: seq<Line>, deep: nat, indent: nat)
    requires Leaves(rest, left, deep) && deep >= indent
    ensures Leaves(rest, left, indent)
  {
  }

  lemma LeavesAfter(rest: seq<Line>, mid: seq<Line>, left: seq<Line>, indent: nat)
    requires Leaves(rest, mid, indent) && Leaves(mid, left, indent)
    ensures Leaves(rest, left, indent)
  {
    assert left == rest[|rest| - |left|..];
    forall j | 0 <= j < |rest| - |left| ensures rest[j].indent >= indent {
      if j >= |rest| - |mid| { assert mid[j - (|rest| - |mid|)] == rest[j]; }
    }
  }

  lemma LeavesAll(rest: seq<Line>, indent: nat)
    ensures Leaves(rest, rest, indent)
  {
  }

  lemma {:induction false} NestedLeaves(rd: Reader, rest: seq<Line>, indent: nat)
    ensures Leaves(rest, ParseNested(rd, rest, indent).1, indent + 1)
    decreases |rest|, 3
  {
    LeavesAll(rest, indent + 1);
    if Deeper(rest, indent) {
      BlockLeaves(rd, rest, rest[0].indent);
      LeavesDeeper(rest, ParseNested(rd, rest, indent).1, rest[0].indent, indent + 1);
    }
  }

  lemma {:induction false} BlockLeaves(rd: Reader, rest: seq<Line>, indent: nat)
    ensures Leaves(rest, ParseBlock(rd, rest, indent).1, indent)
    decreases |rest|, 2
  {
    LeavesAll(rest, indent);
    ListLeaves(rd, rest, indent, []);
    DictLeaves(rd, rest, indent, []);
  }

  /** One key of a list item: what is read for it, and where reading goes on. */
  function EntryTurn(rd: Reader, rest: seq<Line>, indent: nat, v: string): (r: (Yaml, seq<Line>))
    ensures |r.1| <= |rest|
  {
    if v != "" then (rd.scalar(v), rest) else ParseNested(rd, rest, indent)
  }

  lemma {:induction false} EntryTurnLeaves(rd: Reader, rest: seq<Line>, indent: nat, v: string)
    ensures Leaves(rest, EntryTurn(rd, rest, indent, v).1, indent)
    decreases |rest|, 4
  {
    LeavesAll(rest, indent);
    NestedLeaves(rd, rest, indent);
    LeavesDeeper(rest, ParseNested(rd, rest, indent).1, indent + 1, indent);
  }

  lemma SiblingKeyTurn(rd: Reader, rest: seq<Line>, indent: nat, entries: seq<(string, Yaml)>)
    requires Deeper(rest, indent) && rd.shape(rest[0].content).Key?
    ensures var s := rd.shape(rest[0].content);
            var (v, rest1) := EntryTurn(rd, rest[1..], rest[0].indent, s.value);
            ParseSiblings(rd, rest, indent, entries) == ParseSiblings(rd, rest1, indent, Put(entries, s.key, v))
  {
  }

  lemma {:induction false} SiblingKeyLeaves(rd: Reader, rest: seq<Line>, indent: nat, entries: seq<(string, Yaml)>)
    requires Deeper(rest, indent) && rd.shape(rest[0].content).Key?
    ensures Leaves(rest, ParseSiblings(rd, rest, indent, entries).1, indent + 1)
    decreases |rest|, 0
  {
    var s := rd.shape(rest[0].content);
    var (v, rest1) := EntryTurn(rd, rest[1..], rest[0].indent, s.value);
    SiblingKeyTurn(rd, rest, indent, entries);
    EntryTurnLeaves(rd, rest[1..], rest[0].indent, s.value);
    SiblingsLeave(rd, rest1, indent, Put(entries, s.key, v));
    LeavesMore(rest, rest1, ParseSiblings(rd, rest, indent, entries).1, rest[0].indent, indent + 1);
  }

  lemma {:induction false} SiblingsLeave(rd: Reader, rest: seq<Line>, indent: nat, entries: seq<(string, Yaml)>)
    ensures Leaves(rest, ParseSiblings(rd, rest, indent, entries).1, indent + 1)
    decreases |rest|, 1
  {
    LeavesAll(rest, indent + 1);
    if Deeper(rest, indent) {
      if rd.shape(rest[0].content).Other? {
        LeavesAll(rest[1..], indent + 1);
        SiblingsLeave(rd, rest[1..], indent, entries);
        LeavesMore(rest, rest[1..], ParseSiblings(rd, rest[1..], indent, entries).1, indent + 1, indent + 1);
      } else if rd.shape(rest[0].content).Key? {
        SiblingKeyLeaves(rd, rest, indent, entries);
      }
    }
  }

  lemma {:induction false} ListLeaves(rd: Reader, rest: seq<Line>, indent: nat, items: seq<Yaml>)
    ensures Leaves(rest, ParseList(rd, rest, indent, items).1, indent)
    decreases |rest|, 1
  {
    LeavesAll(rest, indent);
    if rest != [] && rest[0].indent >= indent {
      LeavesAll(rest[1..], indent);
      if rest[0].indent > indent {
        ListLeaves(rd, rest[1..], indent, items);
        LeavesMore(rest, rest[1..], ParseList(rd, rest[1..], indent, items).1, indent, indent);
      } else {
        match rd.shape(rest[0].content) {
          case ItemScalar(text) =>
            var next := items + [rd.scalar(text)];
            ListLeaves(rd, rest[1..], indent, next);
            LeavesMore(rest, rest[1..], ParseList(rd, rest[1..], indent, next).1, indent, indent);
          case ItemKey(k, v) =>
            var (first, rest1) := if v != "" then (rd.scalar(v), rest[1..]) else ParseNested(rd, rest[1..], indent);
            var (entries, rest2) := ParseSiblings(rd, rest1, indent, [(k, first)]);
            NestedLeaves(rd, rest[1..], indent);
            LeavesDeeper(rest[1..], rest1, if v != "" then indent else indent + 1, indent);
            SiblingsLeave(rd, rest1, indent, [(k, first)]);
            LeavesDeeper(rest1, rest2, indent + 1, indent);
            LeavesAfter(rest[1..], rest1, rest2, indent);
            ListLeaves(rd, rest2, indent, items + [Dict(entries)]);
            LeavesMore(rest, rest2, ParseList(rd, rest2, indent, items + [Dict(entries)]).1, indent, indent);
          case _ =>
        }
      }
    }
  }

  lemma {:induction false} DictLeaves(rd: Reader, rest: seq<Line>, indent: nat, entries: seq<(string, Yaml)>)
    ensures Leaves(rest, ParseDict(rd, rest, indent, entries).1, indent)
    decreases |rest|, 1
  {
    LeavesAll(rest, indent);
    if rest != [] && rest[0].indent >= indent {
      if rest[0].indent > indent || rd.shape(rest[0].content).Other? {
        LeavesAll(rest[1..], indent);
        DictLeaves(rd, rest[1..], indent, entries);
        LeavesMore(rest, rest[1..], ParseDict(rd, rest[1..], indent, entries).1, indent, indent);
      } else if rd.shape(rest[0].content).Key? {
        DictKeyLeaves(rd, rest, indent, entries);
      }
    }
  }

  /** One key of a dictionary block: what is read for it, and where reading goes on. */
  function KeyTurn(rd: Reader, rest: seq<Line>, indent: nat, v: string): (r: (Yaml, seq<Line>))
    ensures |r.1| <= |rest|
  {
    if v == "" || v == "{}" then
      var (sub, rest1) := ParseNested(rd, rest, indent);
      (OrEmptyDict(sub), rest1)
    else (if v == "[]" then List([]) else rd.scalar(v), rest)
  }

  lemma {:induction false} KeyTurnLeaves(rd: Reader, rest: seq<Line>, indent: nat, v: string)
    ensures Leaves(rest, KeyTurn(rd, rest, indent, v).1, indent)
    decreases |rest|, 4
  {
    LeavesAll(rest, indent);
    NestedLeaves(rd, rest, indent);
    LeavesDeeper(rest, ParseNested(rd, rest, indent).1, indent + 1, indent);
  }

  lemma DictKeyTurn(rd: Reader, rest: seq<Line>, indent: nat, entries: seq<(string, Yaml)>)
    requires rest != [] && rest[0].indent == indent && rd.shape(rest[0].content).Key?
    ensures var s := rd.shape(rest[0].content);
            var (v, rest1) := KeyTurn(rd, rest[1..], indent, s.value);
            ParseDict(rd, rest, indent, entries) == ParseDict(rd, rest1, indent, Put(entries, s.key, v))
  {
  }

  lemma {:induction false} DictKeyLeaves(rd: Reader, rest: seq<Line>, indent: nat, entries: seq<(string, Yaml)>)
    requires rest != [] && rest[0].indent == indent && rd.shape(rest[0].content).Key?
    ensures Leaves(rest, ParseDict(rd, rest, indent, entries).1, indent)
    decreases |rest|, 0
  {
    var s := rd.shape(rest[0].content);
    var (v, rest1) := KeyTurn(rd, rest[1..], indent, s.value);
    DictKeyTurn(rd, rest, indent, entries);
    KeyTurnLeaves(rd, rest[1..], indent, s.value);
    DictLeaves(rd, rest1, indent, Put(entries, s.key, v));
    LeavesMore(rest, rest1, ParseDict(rd, rest, indent, entries).1, indent, indent);
  }

  lemma ListProgress(rd: Reader, rest: seq<Line>, indent: nat)
    requires rest != [] && rest[0].indent == indent && ItemShape(rd.shape(rest[0].content))
    ensures |ParseList(rd, rest, indent, []).1| < |rest|
  {
    match rd.shape(rest[0].content) {
      case ItemScalar(text) =>
      case ItemKey(k, v) =>
    }
  }

  lemma DictProgress(rd: Reader, rest: seq<Line>, indent: nat)
    requires rest != [] && rest[0].indent == indent && !ItemShape(rd.shape(rest[0].content))
    ensures |ParseDict(rd, rest, indent, []).1| < |rest|
  {
    if rd.shape(rest[0].content).Key? { DictKeyTurn(rd, rest, indent, []); }
  }

  /** Started at a line's own indent, `parse_block` consumes that line and then only lines at
      that indent or deeper. */
  lemma BlockProgress(rd: Reader, rest: seq<Line>, indent: nat)
    requires rest != [] && rest[0].indent == indent
    ensures |ParseBlock(rd, rest, indent).1| < |rest|
    ensures Leaves(rest, ParseBlock(rd, rest, indent).1, indent)
  {
    BlockLeaves(rd, rest, indent);
    if ItemShape(rd.shape(rest[0].content)) { ListProgress(rd, rest, indent); } else { DictProgress(rd, rest, indent); }
  }

  // ---------- only the order of indents matters ----------

  /** A strictly monotone renaming of indents. */
  ghost predicate Monotone(f: nat -> nat) {
    forall x: nat, y: nat :: Rises(f, x, y)
  }

  ghost predicate Rises(f: nat -> nat, x: nat, y: nat) {
    x < y ==> f(x) < f(y)
  }

  function Relabel(f: nat -> nat, lines: seq<Line>): seq<Line> {
    seq(|lines|, i requires 0 <= i < |lines| => Line(f(lines[i].indent), lines[i].content))
  }

  lemma RelabelParts(f: nat -> nat, rest: seq<Line>, indent: nat)
    requires Monotone(f)
    ensures Relabel(f, rest) == [] <==> rest == []
    ensures rest != [] ==>
              && Relabel(f, rest)[0] == Line(f(rest[0].indent), rest[0].content)
              && Relabel(f, rest)[1..] == Relabel(f, rest[1..])
              && (f(rest[0].indent) < f(indent) <==> rest[0].indent < indent)
              && (f(rest[0].indent) > f(indent) <==> rest[0].indent > indent)
  {
    if rest != [] {
      assert Rises(f, rest[0].indent, indent) && Rises(f, indent, rest[0].indent);
    }
  }

  lemma {:induction false} NestedRelabel(rd: Reader, f: nat -> nat, rest: seq<Line>, indent: nat)
    requires Monotone(f)
    ensures var (v, left) := ParseNested(rd, rest, indent);
            ParseNested(rd, Relabel(f, rest), f(indent)) == (v, Relabel(f, left))
    decreases |rest|, 3
  {
    RelabelParts(f, rest, indent);
    if Deeper(rest, indent) {
      BlockRelabel(rd, f, rest, rest[0].indent);
    }
  }

  /** The parse depends on the order of indents only: renaming them by any strictly monotone
      function changes neither the value nor how far the block reaches. */
  lemma {:induction false} BlockRelabel(rd: Reader, f: nat -> nat, rest: seq<Line>, indent: nat)
    requires Monotone(f)
    ensures var (v, left) := ParseBlock(rd, rest, indent);
            ParseBlock(rd, Relabel(f, rest), f(indent)) == (v, Relabel(f, left))
    decreases |rest|, 2
  {
    RelabelParts(f, rest, indent);
    if rest != [] && rest[0].indent >= indent {
      if ItemShape(rd.shape(rest[0].content)) {
        ListRelabel(rd, f, rest, indent, []);
      } else {
        DictRelabel(rd, f, rest, indent, []);
      }
    }
  }

  lemma {:induction false} SiblingsRelabel(rd: Reader, f: nat -> nat, rest: seq<Line>, indent: nat, entries: seq<(string, Yaml)>)
    requires Monotone(f)
    ensures var (es, left) := ParseSiblings(rd, rest, indent, entries);
            ParseSiblings(rd, Relabel(f, rest), f(indent), entries) == (es, Relabel(f, left))
    decreases |rest|, 1
  {
    RelabelParts(f, rest, indent);
    if Deeper(rest, indent) {
      match rd.shape(rest[0].content) {
        case Other =>
          SiblingsRelabel(rd, f, rest[1..], indent, entries);
        case Key(k, v) =>
          NestedRelabel(rd, f, rest[1..], rest[0].indent);
          var (sub, rest1) := if v != "" then (rd.scalar(v), rest[1..]) else ParseNested(rd, rest[1..], rest[0].indent);
          SiblingsRelabel(rd, f, rest1, indent, Put(entries, k, sub));
        case _ =>
      }
    }
  }

  lemma {:induction false} ListRelabel(rd: Reader, f: nat -> nat, rest: seq<Line>, indent: nat, items: seq<Yaml>)
    requires Monotone(f)
    ensures var (v, left) := ParseList(rd, rest, indent, items);
            ParseList(rd, Relabel(f, rest), f(indent), items) == (v, Relabel(f, left))
    decreases |rest|, 1
  {
    RelabelParts(f, rest, indent);
    if rest != [] && rest[0].indent > indent {
      ListRelabel(rd, f, rest[1..], indent, items);
    } else if rest != [] && rest[0].indent == indent {
      match rd.shape(rest[0].content) {
        case ItemScalar(text) =>
          ListRelabel(rd, f, rest[1..], indent, items + [rd.scalar(text)]);
        case ItemKey(k, v) =>
          NestedRelabel(rd, f, rest[1..], indent);
          var (first, rest1) := if v != "" then (rd.scalar(v), rest[1..]) else ParseNested(rd, rest[1..], indent);
          var (entries, rest2) := ParseSiblings(rd, rest1, indent, [(k, first)]);
          SiblingsRelabel(rd, f, rest1, indent, [(k, first)]);
          ListRelabel(rd, f, rest2, indent, items + [Dict(entries)]);
        case _ =>
      }
    }
  }

  lemma {:induction false} DictRelabel(rd: Reader, f: nat -> nat, rest: seq<Line>, indent: nat, entries: seq<(string, Yaml)>)
    requires Monotone(f)
    ensures var (v, left) := ParseDict(rd, rest, indent, entries);
            ParseDict(rd, Relabel(f, rest), f(indent), entries) == (v, Relabel(f, left))
    decreases |rest|, 1
  {
    RelabelParts(f, rest, indent);
    if rest != [] && rest[0].indent > indent {
      DictRelabel(rd, f, rest[1..], indent, entries);
    } else if rest != [] && rest[0].indent == indent {
      match rd.shape(rest[0].content) {
        case Other =>
          DictRelabel(rd, f, rest[1..], indent, entries);
        case Key(k, v) =>
          if v == "" || v == "{}" {
            NestedRelabel(rd, f, rest[1..], indent);
            var (sub, rest1) := ParseNested(rd, rest[1..], indent);
            DictRelabel(rd, f, rest1, indent, Put(entries, k, OrEmptyDict(sub)));
          } else {
            DictRelabel(rd, f, rest[1..], indent, Put(entries, k, if v == "[]" then List([]) else rd.scalar(v)));
          }
        case _ =>
      }
    }
  }
}
