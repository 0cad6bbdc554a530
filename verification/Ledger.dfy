/** The append-only task ledger of src/jarvis/ledger.py and its fold. */
module Ledger {
  import opened Basics
  import opened Json

  type Card = Entry
  type Event = Entry

  const RESERVED: set<string> := {"task_id", "event", "ts"}
  const TERMINAL: set<string> := {"applied", "denied", "failed", "cancelled", "interrupted"}

  predicate Names(e: Event, id: string) {
    Get(e, "task_id") == Str(id)
  }

  predicate IsDismissal(e: Event) {
    Get(e, "event") == Str("dismissed")
  }

  predicate Terminal(c: Card) {
    Get(c, "status").Str? && Get(c, "status").s in TERMINAL
  }

  // ---------- what the fold means ----------

  /** The tasks with at least one event that is not a dismissal. */
  function Seen(log: seq<Event>): set<string> {
    if log == [] then {}
    else
      var (front, e) := (log[..|log| - 1], log[|log| - 1]);
      Seen(front) + (if Get(e, "task_id").Str? && !IsDismissal(e) then {Get(e, "task_id").s} else {})
  }

  function Dismissed(log: seq<Event>): set<string> {
    if log == [] then {}
    else
      var (front, e) := (log[..|log| - 1], log[|log| - 1]);
      Dismissed(front) + (if Get(e, "task_id").Str? && IsDismissal(e) then {Get(e, "task_id").s} else {})
  }

  /** The fields of a task's events, the last value of each winning. */
  function Merged(log: seq<Event>, id: string): Card {
    if log == [] then map["id" := Str(id)]
    else
      var (front, e) := (log[..|log| - 1], log[|log| - 1]);
      if Names(e, id) && !IsDismissal(e) then Merged(front, id) + (e - RESERVED) else Merged(front, id)
  }

  /** A task that had not finished was orphaned by the restart. */
  function Orphaned(c: Card): Card {
    if Terminal(c) then c else c["status" := Str("interrupted")]
  }

  function Fold(log: seq<Event>): map<string, Card> {
    map id | id in Seen(log) - Dismissed(log) :: Orphaned(Merged(log, id))
  }

  lemma SeenNext(log: seq<Event>, e: Event)
    ensures Seen(log + [e]) == Seen(log) + (if Get(e, "task_id").Str? && !IsDismissal(e) then {Get(e, "task_id").s} else {})
    ensures Dismissed(log + [e]) == Dismissed(log) + (if Get(e, "task_id").Str? && IsDismissal(e) then {Get(e, "task_id").s} else {})
  {
    assert (log + [e])[..|log|] == log;
  }

  lemma MergedNext(log: seq<Event>, e: Event, id: string)
    ensures Merged(log + [e], id) ==
            if Names(e, id) && !IsDismissal(e) then Merged(log, id) + (e - RESERVED) else Merged(log, id)
  {
    assert (log + [e])[..|log|] == log;
  }

  lemma {:induction false} MergedUnseen(log: seq<Event>, id: string)
    requires id !in Seen(log)
    ensures Merged(log, id) == map["id" := Str(id)]
  {
    if log != [] { MergedUnseen(log[..|log| - 1], id); }
  }

  /** Everything the fold says of a task depends only on that task's own events. */
  lemma {:induction false} FoldIsLocal(log: seq<Event>, id: string)
    ensures id in Seen(log) <==> id in Seen(Own(log, id))
    ensures id in Dismissed(log) <==> id in Dismissed(Own(log, id))
    ensures Merged(log, id) == Merged(Own(log, id), id)
  {
    if log != [] {
      var (front, e) := (log[..|log| - 1], log[|log| - 1]);
      FoldIsLocal(front, id);
      if Names(e, id) {
        SeenNext(Own(front, id), e);
        MergedNext(Own(front, id), e, id);
      } else {
        assert Own(log, id) == Own(front, id);
      }
    }
  }

  function Own(log: seq<Event>, id: string): seq<Event> {
    if log == [] then []
    else
      var (front, e) := (log[..|log| - 1], log[|log| - 1]);
      Own(front, id) + (if Names(e, id) then [e] else [])
  }

  // ---------- the ledger object ----------

  function Record(id: string, event: string, fields: Entry): Event {
    map["task_id" := Str(id), "event" := Str(event)] + fields
  }

  class LedgerLog {
    var entries: seq<Event>

    constructor (found: seq<Event>)
      ensures entries == found
    {
      entries := found;
    }

    /** `record`: one event appended, nothing else touched. */
    method Append(id: string, event: string, fields: Entry)
      modifies this
      ensures entries == old(entries) + [Record(id, event, fields)]
    {
      entries := entries + [Record(id, event, fields)];
    }

    /** `fold`: the cards rebuilt from the events. */
    method FoldCards() returns (cards: map<string, Card>)
      ensures cards == Fold(entries)
    {
      var dismissed: set<string>;
      cards, dismissed := Replay();
      cards := Remove(cards, dismissed);
      cards := MarkOrphans(cards);
    }

    /** The first loop of `fold`. */
    method Replay() returns (cards: map<string, Card>, dismissed: set<string>)
      ensures ReplayedTo(entries, cards, dismissed)
    {
      cards, dismissed := map[], {};
      for i := 0 to |entries|
        invariant ReplayedTo(entries[..i], cards, dismissed)
      {
        cards, dismissed := Absorb(entries[..i], entries[i], cards, dismissed);
        assert entries[..i] + [entries[i]] == entries[..i + 1];
      }
      assert entries[..|entries|] == entries;
    }
  }

  /** What the first loop of `fold` has collected from the events so far. */
  ghost predicate ReplayedTo(log: seq<Event>, cards: map<string, Card>, dismissed: set<string>) {
    cards.Keys == Seen(log) && dismissed == Dismissed(log) && forall id :: id in cards ==> cards[id] == Merged(log, id)
  }

  /** One turn of that loop. */
  method Absorb(ghost log: seq<Event>, e: Event, cards0: map<string, Card>, dismissed0: set<string>)
      returns (cards: map<string, Card>, dismissed: set<string>)
    requires ReplayedTo(log, cards0, dismissed0)
    ensures ReplayedTo(log + [e], cards, dismissed)
  {
    cards, dismissed := cards0, dismissed0;
    SeenNext(log, e);
    forall id ensures Merged(log + [e], id) ==
                      if Names(e, id) && !IsDismissal(e) then Merged(log, id) + (e - RESERVED) else Merged(log, id) {
      MergedNext(log, e, id);
    }
    if Get(e, "task_id").Str? {
      var id := Get(e, "task_id").s;
      if IsDismissal(e) {
        dismissed := dismissed + {id};
      } else {
        if id !in cards { MergedUnseen(log, id); }
        var card := if id in cards then cards[id] else map["id" := Str(id)];
        card := MergeFields(card, e, RESERVED);
        cards := cards[id := card];
      }
    }
  }

  /** Key `k` after the fields of `e` outside `skip` and `left` were written over `card`. */
  predicate Merges(card: Card, e: Event, skip: set<string>, left: set<string>, r: Card, k: string) {
    if k in e && k !in skip && k !in left then k in r && r[k] == e[k]
    else (k in r <==> k in card) && (k in card ==> r[k] == card[k])
  }

  /** The inner loop of `fold`: every field that is not to be skipped overwrites the card's. */
  method MergeFields(card: Card, e: Event, skip: set<string>) returns (r: Card)
    ensures r == card + (e - skip)
  {
    r := card;
    var left := e.Keys;
    while left != {}
      invariant left <= e.Keys
      invariant forall k {:trigger Merges(card, e, skip, left, r, k)} :: Merges(card, e, skip, left, r, k)
      decreases |left|
    {
      var k := PickOne(left);
      ghost var was, todo := r, left;
      if k !in skip {
        r := r[k := e[k]];
      }
      left := left - {k};
      forall j ensures Merges(card, e, skip, left, r, j) { assert Merges(card, e, skip, todo, was, j); }
    }
    AllMerged(card, e, skip, r);
  }

  lemma AllMerged(card: Card, e: Event, skip: set<string>, r: Card)
    requires forall k {:trigger Merges(card, e, skip, {}, r, k)} :: Merges(card, e, skip, {}, r, k)
    ensures r == card + (e - skip)
  {
    var want := card + (e - skip);
    forall k ensures k in r <==> k in want { assert Merges(card, e, skip, {}, r, k); }
    forall k | k in r ensures r[k] == want[k] { assert Merges(card, e, skip, {}, r, k); }
  }

  /** The second loop of `fold`. */
  method Remove(cards: map<string, Card>, dismissed: set<string>) returns (r: map<string, Card>)
    ensures r == cards - dismissed
  {
    r := cards;
    var left := dismissed;
    while left != {}
      invariant left <= dismissed
      invariant r == cards - (dismissed - left)
      decreases |left|
    {
      var id := PickOne(left);
      r := r - {id};
      left := left - {id};
    }
  }

  /** The last loop of `fold`. */
  method MarkOrphans(cards: map<string, Card>) returns (r: map<string, Card>)
    ensures r == map id | id in cards :: Orphaned(cards[id])
  {
    r := cards;
    var left := cards.Keys;
    while left != {}
      invariant left <= cards.Keys && r.Keys == cards.Keys
      invariant forall id :: id in cards ==> r[id] == if id in left then cards[id] else Orphaned(cards[id])
      decreases |left|
    {
      var id := PickOne(left);
      if !Terminal(r[id]) {
        r := r[id := r[id]["status" := Str("interrupted")]];
      }
      left := left - {id};
    }
  }
}
