/** Export and re-import of a ledger (tools/jsonl_roundtrip.py). */
module Roundtrip {
  import opened Basics
  import opened HashChain
  import opened Json
  import opened Projection
  import opened PyText

  /** `json.loads` of one line. */
  datatype Loaded = Loaded(value: Json) | Malformed

  type Loads = string -> Loaded

  /** What RFC 8785 promises of canonical text: it is one non-blank line of JSON that reads back
      as the object (sections 3.2.1 and 3.2.2; integers and floats that print alike are one
      number). */
  ghost predicate Inverts(env: Env, loads: Loads) {
    forall e :: ReadsBack(env, loads, e)
  }

  ghost predicate ReadsBack(env: Env, loads: Loads, e: Entry) {
    env.canon(e).Canonical? ==>
      var text := env.canon(e).text;
      loads(text) == Loaded(Obj(e)) && '\n' !in text && !Blank(text)
  }

  // ---------- export ----------

  datatype Export = Export(text: string) | Refused | Crashed

  predicate AllCanonical(env: Env, es: seq<Entry>) {
    forall i :: 0 <= i < |es| ==> env.canon(es[i]).Canonical?
  }

  function CanonLines(env: Env, es: seq<Entry>): seq<string>
    requires AllCanonical(env, es)
  {
    seq(|es|, i requires 0 <= i < |es| => env.canon(es[i]).text)
  }

  function TextOfLines(lines: seq<string>): string {
    JoinLines(lines) + "\n"
  }

  /** The first entry without canonical text. */
  function FirstBad(env: Env, es: seq<Entry>): Canon
    requires !AllCanonical(env, es)
  {
    if !env.canon(es[0]).Canonical? then env.canon(es[0])
    else
      assert forall i :: 0 < i < |es| ==> es[1..][i - 1] == es[i];
      FirstBad(env, es[1..])
  }

  /** `serialize_entries`. */
  method Serialize(env: Env, es: seq<Entry>) returns (r: Export)
    ensures AllCanonical(env, es) ==> r == Export(TextOfLines(CanonLines(env, es)))
    ensures !AllCanonical(env, es) ==> r == if FirstBad(env, es).CanonicalizationError? then Refused else Crashed
  {
    var lines: seq<string> := [];
    for k := 0 to |es|
      invariant AllCanonical(env, es[..k]) && lines == CanonLines(env, es[..k])
    {
      var c := env.canon(es[k]);
      if !c.Canonical? {
        FirstBadIs(env, es, k);
        return if c.CanonicalizationError? then Refused else Crashed;
      }
      lines := lines + [c.text];
    }
    assert es[..|es|] == es;
    r := Export(TextOfLines(lines));
  }

  lemma {:induction false} FirstBadIs(env: Env, es: seq<Entry>, k: nat)
    requires k < |es| && AllCanonical(env, es[..k]) && !env.canon(es[k]).Canonical?
    ensures !AllCanonical(env, es) && FirstBad(env, es) == env.canon(es[k])
  {
    if k > 0 {
      assert es[..k][0] == es[0] && env.canon(es[0]).Canonical?;
      var rest := es[1..][..k - 1];
      forall i | 0 <= i < |rest| ensures env.canon(rest[i]).Canonical? { assert rest[i] == es[..k][i + 1]; }
      FirstBadIs(env, es[1..], k - 1);
    }
  }

  // ---------- import ----------

  lemma {:induction false} JoinBlank(lines: seq<string>)
    requires lines != []
    ensures JoinLines(lines + [""]) == TextOfLines(lines)
  {
    if |lines| == 1 {
      assert lines + [""] == [lines[0], ""] && (lines + [""])[1..] == [""];
    } else {
      assert (lines + [""])[1..] == lines[1..] + [""];
      JoinBlank(lines[1..]);
      assert lines[0] + "\n" + (JoinLines(lines[1..]) + "\n") == lines[0] + "\n" + JoinLines(lines[1..]) + "\n";
    }
  }

  /** Splitting an export gives its lines and the blank after the last newline. */
  lemma ExportSplits(env: Env, loads: Loads, es: seq<Entry>)
    requires Inverts(env, loads) && AllCanonical(env, es) && es != []
    ensures SplitLines(TextOfLines(CanonLines(env, es))) == CanonLines(env, es) + [""]
  {
    var lines := CanonLines(env, es);
    forall l | l in lines + [""] ensures '\n' !in l {
      if l in lines {
        var i :| 0 <= i < |lines| && lines[i] == l;
        assert ReadsBack(env, loads, es[i]);
      }
    }
    JoinBlank(lines);
    SplitJoin(lines + [""]);
  }

  /** The parsing loop of `round_trip`; None where a line is not a JSON object. */
  method Reparse(loads: Loads, lines: seq<string>) returns (r: Option<seq<Entry>>)
    ensures forall env: Env, es: seq<Entry> {:trigger CameFrom(env, loads, es, lines)} ::
              CameFrom(env, loads, es, lines) ==> r == Some(es)
  {
    var parsed: seq<Entry> := [];
    for k := 0 to |lines|
      invariant forall env: Env, es: seq<Entry> {:trigger CameFrom(env, loads, es, lines)} ::
                  CameFrom(env, loads, es, lines) ==> parsed == (if k <= |es| then es[..k] else es)
    {
      if !Blank(lines[k]) {
        match loads(lines[k]) {
          case Malformed =>
            forall env: Env, es: seq<Entry> | CameFrom(env, loads, es, lines) ensures false { LineIs(env, loads, es, lines, k); }
            return None;
          case Loaded(value) =>
            forall env: Env, es: seq<Entry> | CameFrom(env, loads, es, lines)
              ensures k < |es| && value == Obj(es[k]) { LineIs(env, loads, es, lines, k); }
            if !value.Obj? {
              return None;
            }
            parsed := parsed + [value.fields];
        }
      } else {
        forall env: Env, es: seq<Entry> | CameFrom(env, loads, es, lines) ensures k >= |es| {
          LineIs(env, loads, es, lines, k);
        }
      }
    }
    r := Some(parsed);
  }

  /** The lines are those of an export of `es`. */
  ghost predicate CameFrom(env: Env, loads: Loads, es: seq<Entry>, lines: seq<string>) {
    Inverts(env, loads) && AllCanonical(env, es) && lines == CanonLines(env, es) + [""]
  }

  lemma LineIs(env: Env, loads: Loads, es: seq<Entry>, lines: seq<string>, k: nat)
    requires CameFrom(env, loads, es, lines) && k < |lines|
    ensures k < |es| ==> !Blank(lines[k]) && loads(lines[k]) == Loaded(Obj(es[k]))
    ensures k >= |es| ==> Blank(lines[k])
  {
    if k < |es| {
      assert ReadsBack(env, loads, es[k]);
    } else {
      assert lines[k] == "";
    }
  }

  // ---------- the round trip ----------

  /** The verdict with the two digests and the differences found; or an escaped exception. */
  datatype Result = Result(verdict: Verdict, first: Option<string>, second: Option<string>, lost: seq<Diff>) | Escaped

  /** `round_trip`. Under the promises of RFC 8785 it never finds a loss: the verdict is PASS
      exactly when every entry has canonical text, and FAIL when the first that has none is
      refused in the way the tool expects. */
  method RoundTrip(env: Env, loads: Loads, es: seq<Entry>) returns (r: Result)
    ensures r.Result? && r.verdict == Pass ==> r.first == r.second && r.lost == []
    ensures Inverts(env, loads) ==>
              (r.Result? && r.verdict == Pass <==> AllCanonical(env, es))
    ensures Inverts(env, loads) && !AllCanonical(env, es) ==>
              r == if FirstBad(env, es).CanonicalizationError? then Result(Fail, None, None, []) else Escaped
    ensures Inverts(env, loads) && AllCanonical(env, es) && es != [] ==>
              r.first == Some(env.sha(TextOfLines(CanonLines(env, es))))
  {
    if es == [] {
      return Result(Pass, None, None, []);
    }
    var first := Serialize(env, es);
    match first {
      case Refused => return Result(Fail, None, None, []);
      case Crashed => return Escaped;
      case Export(text) =>
        var sha1 := env.sha(text);
        if Inverts(env, loads) && AllCanonical(env, es) { ExportSplits(env, loads, es); }
        assert Inverts(env, loads) && AllCanonical(env, es) ==> CameFrom(env, loads, es, SplitLines(text));
        var reparsed := Reparse(loads, SplitLines(text));
        if reparsed.None? {
          return Result(Fail, Some(sha1), None, []);
        }
        var second := Serialize(env, reparsed.value);
        match second {
          case Refused => return Result(Fail, Some(sha1), None, []);
          case Crashed => return Escaped;
          case Export(again) =>
            var sha2 := env.sha(again);
            if sha1 == sha2 {
              return Result(Pass, Some(sha1), Some(sha2), []);
            }
            var lost := DiffLostFields(es, reparsed.value);
            r := Result(Lossy, Some(sha1), Some(sha2), lost);
        }
    }
  }
}
