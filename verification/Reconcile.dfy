/** Start-up reconciliation of interrupted poll runs (internal/poll/reconcile.go) over the
    poll_runs table, whose rows are listed in one fixed order. */
module Reconcile {
  import opened Wrappers
  import opened RunAccounting

  datatype RunRow = RunRow(id: nat, record: RunRecord)

  predicate IsRunning(row: RunRow) {
    row.record.status.Running?
  }

  predicate UniqueIds(rows: seq<RunRow>) {
    forall i, j | 0 <= i < j < |rows| :: rows[i].id != rows[j].id
  }

  /** The row of a run that a dead process left running: failed, its counters kept. */
  function Interrupted(row: RunRow): RunRow {
    row.(record := row.record.(status := FailedRun, errors := [INTERRUPTED]))
  }

  /** Every run that was running is failed with the interruption as its one error, its counters
      kept; every other row is as it was. */
  ghost predicate InterruptedRunsFailed(before: seq<RunRow>, after: seq<RunRow>) {
    && |after| == |before|
    && forall i | 0 <= i < |before| ::
         if before[i].record.status == Running then
           after[i] == RunRow(before[i].id, RunRecord(FailedRun, before[i].record.checked, before[i].record.created,
                                                      before[i].record.superseded, [INTERRUPTED]))
         else after[i] == before[i]
  }

  function Reconciled(rows: seq<RunRow>): seq<RunRow> {
    seq(|rows|, i requires 0 <= i < |rows| => if IsRunning(rows[i]) then Interrupted(rows[i]) else rows[i])
  }

  function RunningIn(rows: seq<RunRow>): seq<RunRow> {
    if rows == [] then []
    else RunningIn(rows[..|rows| - 1]) + if IsRunning(rows[|rows| - 1]) then [rows[|rows| - 1]] else []
  }

  function Page(rows: seq<RunRow>, limit: nat, offset: nat): seq<RunRow> {
    var from := if offset < |rows| then offset else |rows|;
    var to := if offset + limit < |rows| then offset + limit else |rows|;
    rows[from..to]
  }

  datatype StoreFault = NoFault | NothingStored | StoredReportedFailed

  /** The poll_runs table; `faults` are the outcomes of the accesses to come. */
  class RunTable {
    var rows: seq<RunRow>
    var faults: seq<StoreFault>

    constructor (rows: seq<RunRow>, faults: seq<StoreFault>)
      ensures this.rows == rows && this.faults == faults
    {
      this.rows, this.faults := rows, faults;
    }

    method NextFault() returns (f: StoreFault)
      modifies this`faults
    {
      if faults == [] { return NoFault; }
      f, faults := faults[0], faults[1..];
    }

    method ListRuns(limit: nat, offset: nat) returns (page: Option<seq<RunRow>>)
      modifies this`faults
      ensures page.Some? ==> page.value == Page(rows, limit, offset)
    {
      var f := NextFault();
      page := if f.NoFault? then Some(Page(rows, limit, offset)) else None;
    }

    /** The UPDATE names one id and replaces status, counters and errors. */
    method FinishRun(id: nat, record: RunRecord) returns (ok: bool)
      modifies this
      ensures rows == old(rows) || rows == WithRecord(old(rows), id, record)
      ensures ok ==> rows == WithRecord(old(rows), id, record)
    {
      var f := NextFault();
      if f.NothingStored? { return false; }
      rows := WithRecord(rows, id, record);
      ok := f.NoFault?;
    }
  }

  function WithRecord(rows: seq<RunRow>, id: nat, record: RunRecord): seq<RunRow> {
    seq(|rows|, i requires 0 <= i < |rows| => if rows[i].id == id then rows[i].(record := record) else rows[i])
  }

  const PAGE_SIZE := 200

  datatype Outcome = Changed(count: nat) | StoppedAfter(count: nat)

  /** Some running rows are reconciled, everything else is as it was. */
  predicate PartlyReconciled(before: seq<RunRow>, after: seq<RunRow>) {
    && |after| == |before|
    && forall i | 0 <= i < |before| ::
         after[i] == before[i] || (IsRunning(before[i]) && after[i] == Interrupted(before[i]))
  }

  predicate ReconciledUpTo(before: seq<RunRow>, after: seq<RunRow>, done: seq<RunRow>) {
    && |after| == |before|
    && forall i | 0 <= i < |before| :: after[i] == if before[i] in done then Interrupted(before[i]) else before[i]
  }

  /** The first `count` running rows are settled, and perhaps the next one, whose write failed. */
  predicate FirstReconciled(before: seq<RunRow>, after: seq<RunRow>, count: nat) {
    var stale := RunningIn(before);
    && count <= |stale|
    && (ReconciledUpTo(before, after, stale[..count])
        || (count < |stale| && ReconciledUpTo(before, after, stale[..count + 1])))
  }

  /** The paging loop: every running row is collected once, in listing order. */
  method CollectRunning(table: RunTable) returns (stale: Option<seq<RunRow>>)
    modifies table`faults
    ensures stale.Some? ==> stale.value == RunningIn(table.rows)
  {
    var rows := table.rows;
    var collected: seq<RunRow> := [];
    var offset := 0;
    while true
      invariant table.rows == rows && offset <= |rows|
      invariant collected == RunningIn(rows[..offset])
      decreases |rows| - offset
    {
      var page := table.ListRuns(PAGE_SIZE, offset);
      if page.None? { return None; }
      var runs := page.value;
      for k := 0 to |runs|
        invariant collected == RunningIn(rows[..offset + k])
      {
        assert rows[..offset + k + 1][..offset + k] == rows[..offset + k];
        if IsRunning(runs[k]) { collected := collected + [runs[k]]; }
      }
      if |runs| < PAGE_SIZE {
        assert rows[..offset + |runs|] == rows;
        return Some(collected);
      }
      offset := offset + PAGE_SIZE;
    }
  }

  /** ReconcileInterruptedRuns: on success every running row, and no other, is failed with its
      counters kept, and the count says how many; after an error the count says how many of the
      running rows were settled, but for one that may have been, and the rest waits. */
  method ReconcileInterruptedRuns(table: RunTable) returns (outcome: Outcome)
    requires UniqueIds(table.rows)
    modifies table
    ensures outcome.Changed? ==> table.rows == Reconciled(old(table.rows))
                                 && outcome.count == |RunningIn(old(table.rows))|
    ensures outcome.Changed? ==> InterruptedRunsFailed(old(table.rows), table.rows)
    ensures outcome.StoppedAfter? ==> PartlyReconciled(old(table.rows), table.rows)
                                      && FirstReconciled(old(table.rows), table.rows, outcome.count)
  {
    hide RunningIn, UniqueIds, IsRunning, ReconciledUpTo, PartlyReconciled, WithRecord, Reconciled;
    ghost var before := table.rows;
    var collected := CollectRunning(table);
    NoneReconciled(before);
    if collected.None? { return StoppedAfter(0); }
    var stale := collected.value;

    var i := 0;
    while i < |stale|
      invariant 0 <= i <= |stale|
      invariant ReconciledUpTo(before, table.rows, stale[..i])
    {
      var run := stale[i];
      ghost var was := table.rows;
      var ok := table.FinishRun(run.id, run.record.(status := FailedRun, errors := [INTERRUPTED]));
      OneMoreReconciled(before, was, stale, i);
      if !ok { return StoppedAfter(i); }
      i := i + 1;
    }
    assert stale[..i] == stale;
    AllReconciled(before, table.rows);
    ReconciledIsSettled(before);
    outcome := Changed(|stale|);
  }

  lemma NoneReconciled(rows: seq<RunRow>)
    ensures ReconciledUpTo(rows, rows, []) && PartlyReconciled(rows, rows)
  {}

  lemma AllReconciled(before: seq<RunRow>, after: seq<RunRow>)
    requires ReconciledUpTo(before, after, RunningIn(before))
    ensures after == Reconciled(before)
  {
    RunningRows(before);
  }

  /** Finishing the next stale run changes the one row it came from. */
  lemma OneMoreReconciled(before: seq<RunRow>, rows: seq<RunRow>, stale: seq<RunRow>, i: nat)
    requires UniqueIds(before) && stale == RunningIn(before) && i < |stale|
    requires ReconciledUpTo(before, rows, stale[..i])
    ensures var run := stale[i];
            ReconciledUpTo(before, WithRecord(rows, run.id, Interrupted(run).record), stale[..i + 1])
    ensures PartlyReconciled(before, rows)
    ensures PartlyReconciled(before, WithRecord(rows, stale[i].id, Interrupted(stale[i]).record))
  {
    var run := stale[i];
    StalePrefix(before, i);
    StalePrefix(before, i + 1);
    assert stale[..i + 1] == stale[..i] + [run];
    RunningRows(before);
    assert run in stale;
    hide *;
    OneMoreRow(before, rows, stale[..i], run);
    LeavesRestAlone(before, rows, stale[..i]);
    LeavesRestAlone(before, WithRecord(rows, run.id, Interrupted(run).record), stale[..i + 1]);
  }

  lemma StalePrefix(before: seq<RunRow>, i: nat)
    requires i <= |RunningIn(before)|
    ensures forall k | 0 <= k < |before| && before[k] in RunningIn(before)[..i] :: IsRunning(before[k])
  {
    RunningRows(before);
    hide IsRunning, RunningIn;
    forall k | 0 <= k < |before| && before[k] in RunningIn(before)[..i] ensures IsRunning(before[k]) {
      assert before[k] in RunningIn(before);
    }
  }

  lemma OneMoreRow(before: seq<RunRow>, rows: seq<RunRow>, done: seq<RunRow>, run: RunRow)
    requires UniqueIds(before) && run in before && ReconciledUpTo(before, rows, done)
    ensures ReconciledUpTo(before, WithRecord(rows, run.id, Interrupted(run).record), done + [run])
  {
    var j :| 0 <= j < |before| && before[j] == run;
    forall k | 0 <= k < |before| && before[k].id == run.id ensures k == j {}
  }

  lemma LeavesRestAlone(before: seq<RunRow>, after: seq<RunRow>, done: seq<RunRow>)
    requires ReconciledUpTo(before, after, done)
    requires forall k | 0 <= k < |before| && before[k] in done :: IsRunning(before[k])
    ensures PartlyReconciled(before, after)
  {
    hide IsRunning;
  }

  /** The collected rows are the running ones, each collected once. */
  lemma {:induction false} RunningRows(rows: seq<RunRow>)
    ensures forall row :: row in RunningIn(rows) <==> row in rows && IsRunning(row)
    ensures UniqueIds(rows) ==> UniqueIds(RunningIn(rows))
  {
    if rows != [] {
      var init, last := rows[..|rows| - 1], rows[|rows| - 1];
      RunningRows(init);
      assert rows == init + [last];
      if UniqueIds(rows) {
        assert forall row | row in init :: row.id != last.id;
      }
    }
  }

  /** A reconciled table has no running row and still the counters of every run; a second
      reconciliation changes nothing. */
  lemma ReconciledIsSettled(rows: seq<RunRow>)
    ensures var after := Reconciled(rows);
            && RunningIn(after) == []
            && Reconciled(after) == after
            && InterruptedRunsFailed(rows, after)
  {
    NoneRunning(Reconciled(rows));
  }

  lemma {:induction false} NoneRunning(rows: seq<RunRow>)
    requires forall row | row in rows :: !IsRunning(row)
    ensures RunningIn(rows) == []
  {
    if rows != [] {
      assert rows[|rows| - 1] in rows;
      assert forall row | row in rows[..|rows| - 1] :: row in rows;
      NoneRunning(rows[..|rows| - 1]);
    }
  }
}
