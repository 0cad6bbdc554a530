/** What the fold of the task ledger says, read off the events themselves. */
module LedgerMeaning {
  import opened Basics
  import opened Json
  import opened Ledger

  /** An event about the task, other than its dismissal. */
  predicate Tells(e: Event, id: string) {
    "task_id" in e && e["task_id"] == Str(id) && !("event" in e && e["event"] == Str("dismissed"))
  }

  predicate Dismisses(e: Event, id: string) {
    "task_id" in e && e["task_id"] == Str(id) && "event" in e && e["event"] == Str("dismissed")
  }

  /** An event that sets field `k` of the task's card. */
  predicate Sets(e: Event, id: string, k: string) {
    Tells(e, id) && k in e && k != "task_id" && k != "event" && k != "ts"
  }

  predicate FinishedStatus(v: Json) {
    v == Str("applied") || v == Str("denied") || v == Str("failed") || v == Str("cancelled") || v == Str("interrupted")
  }

  /** The `i`-th event is the last to set field `k` of the task's card. */
  predicate LastToSet(log: seq<Event>, i: nat, id: string, k: string) {
    i < |log| && Sets(log[i], id, k) && forall j :: i < j < |log| ==> !Sets(log[j], id, k)
  }

  lemma {:induction false} SeenIs(log: seq<Event>, id: string)
    ensures id in Seen(log) <==> exists i :: 0 <= i < |log| && Tells(log[i], id)
    ensures id in Dismissed(log) <==> exists i :: 0 <= i < |log| && Dismisses(log[i], id)
  {
    if log != [] {
      var n := |log| - 1;
      SeenIs(log[..n], id);
      assert forall i :: 0 <= i < n ==> log[..n][i] == log[i];
      if i :| 0 <= i < n && Tells(log[i], id) { assert Tells(log[..n][i], id); }
      if i :| 0 <= i < n && Dismisses(log[i], id) { assert Dismisses(log[..n][i], id); }
    }
  }

  lemma {:induction false} MergedSet(log: seq<Event>, id: string, k: string, i: nat)
    requires LastToSet(log, i, id, k)
    ensures k in Merged(log, id) && Merged(log, id)[k] == log[i][k]
  {
    var n := |log| - 1;
    if i < n {
      assert !Sets(log[n], id, k);
      MergedSet(log[..n], id, k, i);
    }
  }

  lemma {:induction false} MergedUnset(log: seq<Event>, id: string, k: string)
    requires forall i :: 0 <= i < |log| ==> !Sets(log[i], id, k)
    ensures k in Merged(log, id) <==> k == "id"
    ensures k == "id" ==> Merged(log, id)[k] == Str(id)
  {
    if log != [] {
      var n := |log| - 1;
      assert !Sets(log[n], id, k);
      MergedUnset(log[..n], id, k);
    }
  }

  lemma {:induction false} FindLast(log: seq<Event>, id: string, k: string, m: nat) returns (i: nat)
    requires m < |log| && Sets(log[m], id, k)
    ensures LastToSet(log, i, id, k)
    decreases |log| - m
  {
    if j :| m < j < |log| && Sets(log[j], id, k) {
      i := FindLast(log, id, k, j);
    } else {
      i := m;
    }
  }

  /** The folded card: it is there exactly if some event tells of the task and none dismisses
      it; of every field but the status it shows the last value set; the status is the last one
      set if that is a finished one, and interrupted otherwise. */
  lemma FoldedCard(log: seq<Event>, id: string)
    ensures id in Fold(log) <==>
            && (exists i :: 0 <= i < |log| && Tells(log[i], id))
            && (forall i :: 0 <= i < |log| ==> !Dismisses(log[i], id))
    ensures id in Fold(log) ==>
              forall k :: k != "status" ==>
                if exists i :: 0 <= i < |log| && Sets(log[i], id, k)
                then exists i: nat :: LastToSet(log, i, id, k) && k in Fold(log)[id] && Fold(log)[id][k] == log[i][k]
                else (k in Fold(log)[id] <==> k == "id") && (k == "id" ==> Fold(log)[id][k] == Str(id))
    ensures id in Fold(log) ==>
              && "status" in Fold(log)[id]
              && if exists i: nat :: LastToSet(log, i, id, "status") && FinishedStatus(log[i]["status"])
                 then exists i: nat :: LastToSet(log, i, id, "status") && Fold(log)[id]["status"] == log[i]["status"]
                 else Fold(log)[id]["status"] == Str("interrupted")
  {
    SeenIs(log, id);
    if id in Fold(log) {
      StatusFolded(log, id);
      forall k | k != "status"
        ensures if exists i :: 0 <= i < |log| && Sets(log[i], id, k)
                then exists i: nat :: LastToSet(log, i, id, k) && k in Fold(log)[id] && Fold(log)[id][k] == log[i][k]
                else (k in Fold(log)[id] <==> k == "id") && (k == "id" ==> Fold(log)[id][k] == Str(id))
      {
        FieldFolded(log, id, k);
      }
    }
  }

  lemma FieldFolded(log: seq<Event>, id: string, k: string)
    requires k != "status"
    ensures var c := Orphaned(Merged(log, id));
            if exists i :: 0 <= i < |log| && Sets(log[i], id, k)
            then exists i: nat :: LastToSet(log, i, id, k) && k in c && c[k] == log[i][k]
            else (k in c <==> k == "id") && (k == "id" ==> c[k] == Str(id))
  {
    if m :| 0 <= m < |log| && Sets(log[m], id, k) {
      var i := FindLast(log, id, k, m);
      MergedSet(log, id, k, i);
    } else {
      MergedUnset(log, id, k);
    }
  }

  lemma FinishedIff(c: Card)
    ensures Terminal(c) <==> "status" in c && FinishedStatus(c["status"])
  {
  }

  lemma StatusFolded(log: seq<Event>, id: string)
    ensures var c := Orphaned(Merged(log, id));
            && "status" in c
            && if exists i: nat :: LastToSet(log, i, id, "status") && FinishedStatus(log[i]["status"])
               then exists i: nat :: LastToSet(log, i, id, "status") && c["status"] == log[i]["status"]
               else c["status"] == Str("interrupted")
  {
    FinishedIff(Merged(log, id));
    if m :| 0 <= m < |log| && Sets(log[m], id, "status") {
      var i := FindLast(log, id, "status", m);
      MergedSet(log, id, "status", i);
      forall j: nat | LastToSet(log, j, id, "status") ensures j == i {}
    } else {
      MergedUnset(log, id, "status");
    }
  }
}
