/**
  * The scheduled-job table: jobs are inserted as `pending`, listed newest
  * first, fetched when due in `(run_at, id)` order, and marked with a new
  * status. The SQLite table is a sequence of rows in rowid order.
  */
module Scheduler {
  import opened Wrappers
  import opened Text
  import opened Values

  /** One row of `scheduler_jobs`, with the payload as `json.loads` gives it back. */
  datatype Job = Job(id: nat, sessionId: string, runAt: string, payload: Value, status: string,
                     createdAt: string, updatedAt: string)

  const Pending: string := "pending"

  /** Rows are kept in rowid order, and AUTOINCREMENT hands out increasing ids. */
  predicate IdsIncreasing(rows: seq<Job>)
  {
    forall i, j :: 0 <= i < j < |rows| ==> rows[i].id < rows[j].id
  }

  /** `if status:` — a missing or empty status selects every row. */
  predicate Selects(status: Option<string>, job: Job)
  {
    status.None? || status.value == [] || job.status == status.value
  }

  /** The rows the `WHERE` clause of `list_jobs` keeps, in table order. */
  function Matching(rows: seq<Job>, status: Option<string>): (r: seq<Job>)
    ensures |r| <= |rows|
  {
    if rows == [] then []
    else if Selects(status, rows[|rows| - 1]) then Matching(rows[..|rows| - 1], status) + [rows[|rows| - 1]]
    else Matching(rows[..|rows| - 1], status)
  }

  function Reversed(js: seq<Job>): (r: seq<Job>)
    ensures |r| == |js|
    ensures forall i :: 0 <= i < |js| ==> r[i] == js[|js| - 1 - i]
  {
    if js == [] then [] else [js[|js| - 1]] + Reversed(js[..|js| - 1])
  }

  lemma ReversedMembers(js: seq<Job>)
    ensures forall x :: x in Reversed(js) <==> x in js
  {
    var r := Reversed(js);
    forall x | x in js ensures x in r {
      var k :| 0 <= k < |js| && js[k] == x;
      assert r[|js| - 1 - k] == x;
    }
  }

  /** The `WHERE status='pending' AND run_at <= now` filter of `due_jobs`, in table order. */
  predicate IsDue(job: Job, now: string)
  {
    job.status == Pending && LexLe(job.runAt, now)
  }

  function DueRows(rows: seq<Job>, now: string): (r: seq<Job>)
    ensures |r| <= |rows|
  {
    if rows == [] then []
    else if IsDue(rows[|rows| - 1], now) then DueRows(rows[..|rows| - 1], now) + [rows[|rows| - 1]]
    else DueRows(rows[..|rows| - 1], now)
  }

  /** `ORDER BY run_at ASC, id ASC`: `a` comes strictly before `b`. */
  predicate DueBefore(a: Job, b: Job)
  {
    (a.runAt != b.runAt && LexLe(a.runAt, b.runAt)) || (a.runAt == b.runAt && a.id < b.id)
  }

  predicate DueSorted(js: seq<Job>)
  {
    forall i, j :: 0 <= i < j < |js| ==> DueBefore(js[i], js[j])
  }

  /** Insert `x` into a list already in due order. */
  function InsertDue(sorted: seq<Job>, x: Job): (r: seq<Job>)
    ensures |r| == |sorted| + 1
  {
    if sorted == [] || DueBefore(x, sorted[0]) then [x] + sorted
    else [sorted[0]] + InsertDue(sorted[1..], x)
  }

  /** The rows in due order (an insertion sort). */
  function SortDue(js: seq<Job>): (r: seq<Job>)
    ensures |r| == |js|
  {
    if js == [] then [] else InsertDue(SortDue(js[..|js| - 1]), js[|js| - 1])
  }

  /** The rows a job-id `UPDATE` leaves behind: the row with that id gets the new status and timestamp. */
  function MarkRows(rows: seq<Job>, id: nat, status: string, now: string): (r: seq<Job>)
    ensures |r| == |rows|
  {
    seq(|rows|, i requires 0 <= i < |rows| =>
      if rows[i].id == id then rows[i].(status := status, updatedAt := now) else rows[i])
  }

  /** The rows `list_jobs` returns for a table: the selected ones, newest id first. */
  function ListedJobs(rows: seq<Job>, status: Option<string>): seq<Job>
  {
    Reversed(Matching(rows, status))
  }

  /** The rows `due_jobs` returns for a table at time `now`. */
  function DueOf(rows: seq<Job>, now: string): seq<Job>
  {
    SortDue(DueRows(rows, now))
  }

  class SchedulerStore {
    /** The table, in rowid order. */
    var rows: seq<Job>
    /** The largest id ever handed out (SQLite's `sqlite_sequence` entry). */
    var lastId: nat

    predicate Valid()
      reads this
    {
      IdsIncreasing(rows) && forall i :: 0 <= i < |rows| ==> rows[i].id <= lastId
    }

    /**
      * Opening the database: `CREATE TABLE IF NOT EXISTS` keeps the rows
      * and the id counter of a table that already exists; a new database
      * starts with `rows == []` and `lastId == 0`.
      */
    constructor(rows: seq<Job>, lastId: nat)
      requires IdsIncreasing(rows) && forall i :: 0 <= i < |rows| ==> rows[i].id <= lastId
      ensures this.rows == rows && this.lastId == lastId && Valid()
    {
      this.rows := rows;
      this.lastId := lastId;
    }

    /**
      * `add_job`: one new `pending` row, created and updated at `now`,
      * under an id larger than every earlier one.
      */
    method AddJob(sessionId: string, runAt: string, payload: Value, now: string) returns (id: nat)
      requires Valid()
      modifies this
      ensures Valid()
      ensures id == old(lastId) + 1 && lastId == id
      ensures forall i :: 0 <= i < |old(rows)| ==> old(rows)[i].id < id
      ensures rows == old(rows) + [Job(id, sessionId, runAt, JsonRoundTrip(payload), Pending, now, now)]
    {
      id := lastId + 1;
      lastId := id;
      rows := rows + [Job(id, sessionId, runAt, JsonRoundTrip(payload), Pending, now, now)];
    }

    /** `list_jobs`: exactly the selected rows, newest id first. */
    function ListJobs(status: Option<string>): (jobs: seq<Job>)
      reads this
      requires Valid()
      ensures forall x :: x in jobs <==> x in rows && Selects(status, x)
      ensures forall i, j :: 0 <= i < j < |jobs| ==> jobs[i].id > jobs[j].id
    {
      MatchingMembers(rows, status);
      MatchingIncreasing(rows, status);
      ReversedMembers(Matching(rows, status));
      ListedJobs(rows, status)
    }

    /**
      * `due_jobs`: exactly the pending rows whose `run_at` is not after
      * `now` (as strings), in `(run_at, id)` order.
      */
    function DueJobs(now: string): (jobs: seq<Job>)
      reads this
      requires Valid()
      ensures forall x :: x in jobs <==> x in rows && IsDue(x, now)
      ensures DueSorted(jobs)
    {
      DueRowsMembers(rows, now);
      DueRowsIncreasing(rows, now);
      SortDueFacts(DueRows(rows, now));
      DueOf(rows, now)
    }

    /** `mark_job`: the row with that id takes the new status and `updated_at`; nothing else changes. */
    method MarkJob(id: nat, status: string, now: string)
      requires Valid()
      modifies this
      ensures Valid()
      ensures lastId == old(lastId)
      ensures rows == MarkRows(old(rows), id, status, now)
    {
      rows := MarkRows(rows, id, status, now);
    }
  }

  lemma {:induction false} MatchingMembers(rows: seq<Job>, status: Option<string>)
    ensures forall x :: x in Matching(rows, status) <==> x in rows && Selects(status, x)
  {
    if rows != [] {
      var init := rows[..|rows| - 1];
      MatchingMembers(init, status);
      assert rows == init + [rows[|rows| - 1]];
    }
  }

  lemma {:induction false} MatchingIncreasing(rows: seq<Job>, status: Option<string>)
    requires IdsIncreasing(rows)
    ensures IdsIncreasing(Matching(rows, status))
  {
    if rows != [] {
      var init := rows[..|rows| - 1];
      var last := rows[|rows| - 1];
      MatchingIncreasing(init, status);
      MatchingMembers(init, status);
      var m := Matching(init, status);
      forall x | x in m ensures x.id < last.id {
        var k :| 0 <= k < |init| && init[k] == x;
      }
    }
  }

  lemma {:induction false} DueRowsMembers(rows: seq<Job>, now: string)
    ensures forall x :: x in DueRows(rows, now) <==> x in rows && IsDue(x, now)
  {
    if rows != [] {
      var init := rows[..|rows| - 1];
      DueRowsMembers(init, now);
      assert rows == init + [rows[|rows| - 1]];
    }
  }

  lemma {:induction false} DueRowsIncreasing(rows: seq<Job>, now: string)
    requires IdsIncreasing(rows)
    ensures IdsIncreasing(DueRows(rows, now))
  {
    if rows != [] {
      var init := rows[..|rows| - 1];
      var last := rows[|rows| - 1];
      DueRowsIncreasing(init, now);
      DueRowsMembers(init, now);
      var d := DueRows(init, now);
      forall x | x in d ensures x.id < last.id {
        var k :| 0 <= k < |init| && init[k] == x;
      }
    }
  }

  /** Two rows with different ids are always ordered one way or the other. */
  lemma DueBeforeTotal(a: Job, b: Job)
    requires a.id != b.id
    ensures DueBefore(a, b) || DueBefore(b, a)
  {
    LexLeTotal(a.runAt, b.runAt);
  }

  lemma DueBeforeTransitive(a: Job, b: Job, c: Job)
    requires DueBefore(a, b) && DueBefore(b, c)
    ensures DueBefore(a, c)
  {
    if a.runAt != b.runAt && b.runAt != c.runAt {
      LexLeTransitive(a.runAt, b.runAt, c.runAt);
      if a.runAt == c.runAt {
        LexLeAntisymmetric(a.runAt, b.runAt);
      }
    }
  }

  lemma {:induction false} InsertDueMembers(sorted: seq<Job>, x: Job)
    ensures forall y :: y in InsertDue(sorted, x) <==> y in sorted || y == x
  {
    if sorted != [] && !DueBefore(x, sorted[0]) {
      InsertDueMembers(sorted[1..], x);
      assert sorted == [sorted[0]] + sorted[1..];
    }
  }

  lemma {:induction false} InsertDueSorted(sorted: seq<Job>, x: Job)
    requires DueSorted(sorted)
    requires forall y :: y in sorted ==> y.id != x.id
    ensures DueSorted(InsertDue(sorted, x))
  {
    if sorted == [] {
    } else if DueBefore(x, sorted[0]) {
      var r := [x] + sorted;
      forall i, j | 0 <= i < j < |r| ensures DueBefore(r[i], r[j]) {
        if i == 0 && j > 1 {
          DueBeforeTransitive(x, sorted[0], sorted[j - 1]);
        }
      }
    } else {
      var rest := sorted[1..];
      InsertDueSorted(rest, x);
      InsertDueMembers(rest, x);
      DueBeforeTotal(x, sorted[0]);
      var r := InsertDue(rest, x);
      assert forall k :: 0 <= k < |r| ==> DueBefore(sorted[0], r[k]) by {
        forall k | 0 <= k < |r| ensures DueBefore(sorted[0], r[k]) {
          assert r[k] in r;
        }
      }
    }
  }

  /** The insertion sort yields exactly the same rows, in strict due order. */
  lemma {:induction false} SortDueFacts(js: seq<Job>)
    requires IdsIncreasing(js)
    ensures DueSorted(SortDue(js))
    ensures forall x :: x in SortDue(js) <==> x in js
  {
    if js != [] {
      var init := js[..|js| - 1];
      var last := js[|js| - 1];
      SortDueFacts(init);
      var s := SortDue(init);
      forall y | y in s ensures y.id != last.id {
        var k :| 0 <= k < |init| && init[k] == y;
      }
      InsertDueSorted(s, last);
      InsertDueMembers(s, last);
      assert js == init + [last];
    }
  }

  /** In a due-ordered list the earlier of two due rows runs first. */
  lemma DueSortedPrefix(js: seq<Job>, i: nat, j: nat)
    requires DueSorted(js) && i < j < |js|
    ensures LexLe(js[i].runAt, js[j].runAt)
    ensures js[i].runAt == js[j].runAt ==> js[i].id < js[j].id
  {
    if js[i].runAt == js[j].runAt {
      LexLeReflexive(js[i].runAt);
    }
  }

  /** Marking an id no row carries changes nothing. */
  lemma MarkUnknownUnchanged(rows: seq<Job>, id: nat, status: string, now: string)
    requires forall i :: 0 <= i < |rows| ==> rows[i].id != id
    ensures MarkRows(rows, id, status, now) == rows
  {
  }

  /**
    * Marking touches only the row with that id and only its status and
    * update time; it does not look at the row's old status.
    */
  lemma MarkOnlyThatRow(rows: seq<Job>, id: nat, status: string, now: string, i: nat)
    requires i < |rows|
    ensures rows[i].id != id ==> MarkRows(rows, id, status, now)[i] == rows[i]
    ensures rows[i].id == id ==>
      MarkRows(rows, id, status, now)[i] ==
        Job(rows[i].id, rows[i].sessionId, rows[i].runAt, rows[i].payload, status, rows[i].createdAt, now)
  {
  }

  /** Marking keeps ids, and so the table stays in increasing id order. */
  lemma MarkKeepsIds(rows: seq<Job>, id: nat, status: string, now: string)
    requires IdsIncreasing(rows)
    ensures IdsIncreasing(MarkRows(rows, id, status, now))
  {
  }
}
