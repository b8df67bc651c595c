/** One pass of the scheduled-alert dispatcher (`processScheduledAlerts`).

    The hosted store is abstracted as a table of scheduled alerts keyed by id and an
    append-only list of inserted alerts. The due-rows query is done by the store; its
    answer is a parameter of the pass, constrained by `DueSelection`. Which store calls
    fail is injected through `Faults`. */
module AlertScheduler {
  import opened Common

  /** A row of the `scheduled_alerts` table; timestamps are integers. */
  datatype ScheduledAlert = ScheduledAlert(
    id: string,
    title: string,
    content: string,
    priority: Priority,
    scheduleDate: int,
    zoneId: Option<string>,
    recurring: bool,
    frequency: Option<Frequency>,
    status: Status,
    lastRunAt: Option<int>)

  /** Injected failures of the writes of one pass, by scheduled-alert id: the alert insert,
      the status update, and the "mark as failed" update (whose error the source ignores). */
  datatype Faults = Faults(insertFails: set<string>, updateFails: set<string>, markFails: set<string>)

  /** The two tables the pass touches. */
  datatype Tables = Tables(rows: map<string, ScheduledAlert>, alerts: seq<AlertFields>)

  /** The query filter `status = 'pending' and schedule_date <= now`. */
  predicate IsDue(row: ScheduledAlert, now: int)
  {
    row.status == Pending && row.scheduleDate <= now
  }

  /** Every row is stored under its own id. */
  ghost predicate WellKeyed(rows: map<string, ScheduledAlert>)
  {
    forall id :: id in rows ==> rows[id].id == id
  }

  ghost predicate DistinctIds(due: seq<ScheduledAlert>)
  {
    forall i, j :: 0 <= i < j < |due| ==> due[i].id != due[j].id
  }

  /** Each listed row is the current content of the table under its id. */
  ghost predicate SnapshotOf(rows: map<string, ScheduledAlert>, due: seq<ScheduledAlert>)
  {
    forall i :: 0 <= i < |due| ==> due[i].id in rows && rows[due[i].id] == due[i]
  }

  ghost predicate SortedBySchedule(rows: seq<ScheduledAlert>)
  {
    forall i, j :: 0 <= i < j < |rows| ==> rows[i].scheduleDate <= rows[j].scheduleDate
  }

  /** What the store answers to the due-rows query: exactly the pending rows whose
      schedule date is not after `now`, each once, ascending by schedule date. */
  ghost predicate DueSelection(rows: map<string, ScheduledAlert>, now: int, due: seq<ScheduledAlert>)
  {
    && WellKeyed(rows)
    && SnapshotOf(rows, due)
    && DistinctIds(due)
    && (forall i :: 0 <= i < |due| ==> IsDue(due[i], now))
    && (forall id :: id in rows && IsDue(rows[id], now) ==> exists i :: 0 <= i < |due| && due[i].id == id)
    && SortedBySchedule(due)
  }

  /** The alert inserted for a scheduled row: its title, content, priority and zone. */
  function AlertFrom(row: ScheduledAlert): AlertFields
  {
    AlertFields(row.title, row.content, row.priority, row.zoneId)
  }

  /** `update({status, last_run_at}).eq('id', id)`: patches the row with that id, if any. */
  function Patch(rows: map<string, ScheduledAlert>, id: string, status: Status, now: int): map<string, ScheduledAlert>
  {
    if id in rows then rows[id := rows[id].(status := status, lastRunAt := Some(now))] else rows
  }

  /** The catch block: mark the row failed, unless that write itself fails. */
  function MarkFailed(t: Tables, id: string, now: int, f: Faults): (r: Tables)
    ensures r.rows.Keys == t.rows.Keys && r.alerts == t.alerts
  {
    if id in f.markFails then t else t.(rows := Patch(t.rows, id, Failed, now))
  }

  /** The body of the loop for one due row. */
  function Step(t: Tables, row: ScheduledAlert, now: int, f: Faults): (r: Tables)
    ensures r.rows.Keys == t.rows.Keys
    ensures forall id :: id in t.rows && id != row.id ==> r.rows[id] == t.rows[id]
  {
    if row.id in f.insertFails then MarkFailed(t, row.id, now, f)
    else
      var inserted := t.(alerts := t.alerts + [AlertFrom(row)]);
      if row.id in f.updateFails then MarkFailed(inserted, row.id, now, f)
      else inserted.(rows := Patch(inserted.rows, row.id, if row.recurring then Pending else Completed, now))
  }

  /** The loop over the due rows, in order. */
  function Pass(t: Tables, due: seq<ScheduledAlert>, now: int, f: Faults): (r: Tables)
    ensures r.rows.Keys == t.rows.Keys
    decreases |due|
  {
    if due == [] then t else Pass(Step(t, due[0], now, f), due[1..], now, f)
  }

  /** The rows whose alert insert succeeds, in the order they are visited. */
  function PromotedRows(due: seq<ScheduledAlert>, f: Faults): seq<ScheduledAlert>
  {
    if due == [] then []
    else (if due[0].id in f.insertFails then [] else [due[0]]) + PromotedRows(due[1..], f)
  }

  function AlertsOf(rows: seq<ScheduledAlert>): (r: seq<AlertFields>)
    ensures |r| == |rows|
    ensures forall i :: 0 <= i < |rows| ==> r[i] == AlertFrom(rows[i])
  {
    if rows == [] then [] else [AlertFrom(rows[0])] + AlertsOf(rows[1..])
  }

  /** The state the pass leaves a due row in, as the source leaves it, stated per row: it
      depends only on that row and on the failures injected for its own id. When the
      mark-failed write itself fails, the row keeps its old state. */
  function Outcome(row: ScheduledAlert, now: int, f: Faults): ScheduledAlert
  {
    if row.id in f.insertFails || row.id in f.updateFails then
      (if row.id in f.markFails then row else row.(status := Failed, lastRunAt := Some(now)))
    else row.(status := if row.recurring then Pending else Completed, lastRunAt := Some(now))
  }

  // ---------------------------------------------------------------------------------------
  // Properties of one pass

  /** A pass keeps the set of rows and appends exactly the promoted alerts, in visiting order. */
  lemma {:induction false} PassAppendsPromoted(t: Tables, due: seq<ScheduledAlert>, now: int, f: Faults)
    ensures Pass(t, due, now, f).alerts == t.alerts + AlertsOf(PromotedRows(due, f))
    decreases |due|
  {
    if due != [] {
      var s := Step(t, due[0], now, f);
      PassAppendsPromoted(s, due[1..], now, f);
      var rest := PromotedRows(due[1..], f);
      if due[0].id in f.insertFails {
        assert PromotedRows(due, f) == rest;
      } else {
        assert PromotedRows(due, f) == [due[0]] + rest;
        assert AlertsOf([due[0]] + rest) == [AlertFrom(due[0])] + AlertsOf(rest);
        assert s.alerts == t.alerts + [AlertFrom(due[0])];
      }
    }
  }

  /** A row whose id is not among the due rows is left exactly as it was. */
  lemma {:induction false} PassLeavesOthers(t: Tables, due: seq<ScheduledAlert>, now: int, f: Faults, id: string)
    requires id in t.rows
    requires forall i :: 0 <= i < |due| ==> due[i].id != id
    ensures id in Pass(t, due, now, f).rows && Pass(t, due, now, f).rows[id] == t.rows[id]
    decreases |due|
  {
    if due != [] {
      var s := Step(t, due[0], now, f);
      assert s.rows[id] == t.rows[id];
      PassLeavesOthers(s, due[1..], now, f, id);
    }
  }

  /** Failure isolation: each due row ends in `Outcome`, whatever happens to the other rows. */
  lemma {:induction false} PassRowOutcome(t: Tables, due: seq<ScheduledAlert>, now: int, f: Faults, k: nat)
    requires k < |due|
    requires SnapshotOf(t.rows, due) && DistinctIds(due)
    ensures due[k].id in Pass(t, due, now, f).rows
    ensures Pass(t, due, now, f).rows[due[k].id] == Outcome(due[k], now, f)
    decreases |due|
  {
    var s := Step(t, due[0], now, f);
    if k == 0 {
      assert s.rows[due[0].id] == Outcome(due[0], now, f);
      PassLeavesOthers(s, due[1..], now, f, due[0].id);
    } else {
      assert s.rows[due[k].id] == t.rows[due[k].id];
      assert SnapshotOf(s.rows, due[1..]) by {
        forall i | 0 <= i < |due[1..]| ensures due[1..][i].id in s.rows && s.rows[due[1..][i].id] == due[1..][i] {
          assert due[1..][i] == due[i + 1];
          assert due[i + 1].id != due[0].id;
        }
      }
      PassRowOutcome(s, due[1..], now, f, k - 1);
    }
  }

  /** `after` differs from `before` at most in `status` and `last_run_at`, and if it differs
      at all its `last_run_at` is `now`. */
  predicate StampedOnly(before: ScheduledAlert, after: ScheduledAlert, now: int)
  {
    && after.(status := before.status, lastRunAt := before.lastRunAt) == before
    && (after != before ==> after.lastRunAt == Some(now))
  }

  lemma StampedOnlyTrans(a: ScheduledAlert, b: ScheduledAlert, c: ScheduledAlert, now: int)
    requires StampedOnly(a, b, now) && StampedOnly(b, c, now)
    ensures StampedOnly(a, c, now)
  {
  }

  /** One iteration only stamps rows. */
  lemma StepOnlyStampsNow(t: Tables, row: ScheduledAlert, now: int, f: Faults, id: string)
    requires id in t.rows
    ensures id in Step(t, row, now, f).rows
    ensures StampedOnly(t.rows[id], Step(t, row, now, f).rows[id], now)
  {
    if id == row.id {
      var before := t.rows[id];
      var after := Step(t, row, now, f).rows[id];
      assert after == before
        || after == before.(status := Failed, lastRunAt := Some(now))
        || after == before.(status := if row.recurring then Pending else Completed, lastRunAt := Some(now));
    }
  }

  /** A pass changes no column other than `status` and `last_run_at`, and every row it
      changes gets `last_run_at = now` — the single timestamp taken at the start. */
  lemma {:induction false} PassOnlyStampsNow(t: Tables, due: seq<ScheduledAlert>, now: int, f: Faults, id: string)
    requires id in t.rows
    ensures id in Pass(t, due, now, f).rows
    ensures StampedOnly(t.rows[id], Pass(t, due, now, f).rows[id], now)
    decreases |due|
  {
    if due != [] {
      var s := Step(t, due[0], now, f);
      StepOnlyStampsNow(t, due[0], now, f, id);
      PassOnlyStampsNow(s, due[1..], now, f, id);
      StampedOnlyTrans(t.rows[id], s.rows[id], Pass(t, due, now, f).rows[id], now);
    }
  }

  /** The outcome of one due row, case by case. */
  lemma DueRowCases(t: Tables, due: seq<ScheduledAlert>, now: int, f: Faults, k: nat)
    requires k < |due|
    requires SnapshotOf(t.rows, due) && DistinctIds(due)
    ensures due[k].id in Pass(t, due, now, f).rows
    ensures var row, r := due[k], Pass(t, due, now, f).rows[due[k].id];
      && (row.id !in f.insertFails && row.id !in f.updateFails && !row.recurring ==>
            r.status == Completed && r.lastRunAt == Some(now))
      && (row.id !in f.insertFails && row.id !in f.updateFails && row.recurring ==>
            r.status == Pending && r.lastRunAt == Some(now) && r.scheduleDate == row.scheduleDate)
      && ((row.id in f.insertFails || row.id in f.updateFails) && row.id !in f.markFails ==>
            r.status == Failed && r.lastRunAt == Some(now))
      && ((row.id in f.insertFails || row.id in f.updateFails) && row.id in f.markFails ==> r == row)
  {
    PassRowOutcome(t, due, now, f, k);
  }

  /** An alert whose insert succeeded stays inserted even when the status update then
      fails and the row is marked failed. */
  lemma InsertedAlertSurvivesUpdateFailure(t: Tables, due: seq<ScheduledAlert>, now: int, f: Faults, k: nat)
    requires k < |due|
    requires SnapshotOf(t.rows, due) && DistinctIds(due)
    requires due[k].id !in f.insertFails && due[k].id in f.updateFails && due[k].id !in f.markFails
    ensures AlertFrom(due[k]) in Pass(t, due, now, f).alerts
    ensures due[k].id in Pass(t, due, now, f).rows
    ensures Pass(t, due, now, f).rows[due[k].id].status == Failed
  {
    PassRowOutcome(t, due, now, f, k);
    PassAppendsPromoted(t, due, now, f);
    PromotedContains(due, f, k);
    var p := PromotedRows(due, f);
    var j :| 0 <= j < |p| && p[j] == due[k];
    assert AlertsOf(p)[j] == AlertFrom(due[k]);
    assert Pass(t, due, now, f).alerts[|t.alerts| + j] == AlertFrom(due[k]);
  }

  lemma {:induction false} PromotedContains(due: seq<ScheduledAlert>, f: Faults, k: nat)
    requires k < |due| && due[k].id !in f.insertFails
    ensures due[k] in PromotedRows(due, f)
    decreases |due|
  {
    if k > 0 {
      PromotedContains(due[1..], f, k - 1);
    }
  }

  /** The promoted rows are a subsequence of the due rows, so they keep the ascending
      schedule-date order of the query. */
  lemma {:induction false} PromotedInScheduleOrder(due: seq<ScheduledAlert>, f: Faults)
    requires SortedBySchedule(due)
    ensures SortedBySchedule(PromotedRows(due, f))
    ensures forall x :: x in PromotedRows(due, f) ==> x in due
    decreases |due|
  {
    if due != [] {
      PromotedInScheduleOrder(due[1..], f);
      var rest := PromotedRows(due[1..], f);
      forall x | x in rest ensures due[0].scheduleDate <= x.scheduleDate {
        var j :| 0 <= j < |due[1..]| && due[1..][j] == x;
        assert due[j + 1] == x;
      }
      var p := PromotedRows(due, f);
      if due[0].id !in f.insertFails {
        assert p == [due[0]] + rest;
        forall i, j | 0 <= i < j < |p| ensures p[i].scheduleDate <= p[j].scheduleDate {
          assert p[j] == rest[j - 1];
          assert rest[j - 1] in rest;
          if i > 0 {
            assert p[i] == rest[i - 1];
            assert 0 <= i - 1 < j - 1 < |rest|;
            assert rest[i - 1].scheduleDate <= rest[j - 1].scheduleDate;
          } else {
            assert p[i] == due[0];
          }
        }
      } else {
        assert p == rest;
      }
    }
  }

  // ---------------------------------------------------------------------------------------
  // The store and the pass as the source runs it

  class Store {
    var rows: map<string, ScheduledAlert>
    var alerts: seq<AlertFields>

    constructor (rows: map<string, ScheduledAlert>, alerts: seq<AlertFields>)
      ensures this.rows == rows && this.alerts == alerts
    {
      this.rows := rows;
      this.alerts := alerts;
    }

    function Contents(): Tables
      reads this
    {
      Tables(rows, alerts)
    }

    /** `processScheduledAlerts` with the timestamp `now` taken once at its start.
        `fetched` is the answer of the due-rows query, `None` when the query failed. */
    method ProcessScheduledAlerts(now: int, fetched: Option<seq<ScheduledAlert>>, faults: Faults)
      requires fetched.Some? ==> DueSelection(rows, now, fetched.value)
      modifies this
      ensures fetched.None? ==> rows == old(rows) && alerts == old(alerts)
      ensures fetched.Some? ==> Contents() == Pass(old(Contents()), fetched.value, now, faults)
    {
      if fetched.None? {
        return;
      }
      var due := fetched.value;
      ghost var start := Contents();
      var i := 0;
      while i < |due|
        invariant 0 <= i <= |due|
        invariant Pass(Contents(), due[i..], now, faults) == Pass(start, due, now, faults)
      {
        var row := due[i];
        assert due[i..][0] == row && due[i..][1..] == due[i + 1..];
        var failed := false;
        if row.id in faults.insertFails {
          failed := true;
        } else {
          alerts := alerts + [AlertFrom(row)];
          var status := if row.recurring then Pending else Completed;
          if row.id in faults.updateFails {
            failed := true;
          } else {
            rows := Patch(rows, row.id, status, now);
          }
        }
        if failed && row.id !in faults.markFails {
          rows := Patch(rows, row.id, Failed, now);
        }
        i := i + 1;
      }
    }
  }

  /** Everything a caller of one pass can rely on, derived from the method's contract and
      the lemmas above: rows that were not due are untouched, due rows follow `Outcome`. */
  lemma PassSummary(t: Tables, due: seq<ScheduledAlert>, now: int, f: Faults, id: string)
    requires DueSelection(t.rows, now, due)
    requires id in t.rows
    ensures id in Pass(t, due, now, f).rows
    ensures !IsDue(t.rows[id], now) ==> Pass(t, due, now, f).rows[id] == t.rows[id]
    ensures IsDue(t.rows[id], now) ==> Pass(t, due, now, f).rows[id] == Outcome(t.rows[id], now, f)
  {
    if IsDue(t.rows[id], now) {
      var k :| 0 <= k < |due| && due[k].id == id;
      PassRowOutcome(t, due, now, f, k);
    } else {
      forall i | 0 <= i < |due| ensures due[i].id != id {
        assert t.rows[due[i].id] == due[i] && IsDue(due[i], now);
      }
      PassLeavesOthers(t, due, now, f, id);
    }
  }
}
