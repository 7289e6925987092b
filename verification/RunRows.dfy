/** What the poll_runs table says about the runs of a history: each row is a run still going,
    one that was interrupted, or the record its own run stored. */
module RunRows {
  import opened RunAccounting
  import opened Scheduler

  type Report = (RunId, RunRecord)

  /** The record that the step stores for a run, if it is the end of one. */
  function ReportedBy(s: System, a: Action): set<Report>
    requires Enabled(s, a)
  {
    if a.On? && a.move.EndRun? && a.move.stored then {(s.threads[a.t].phase.run, a.move.record)} else {}
  }

  /** The records that runs stored at their ends. */
  function Reported(s: System, actions: seq<Action>): set<Report>
    requires AllEnabled(s, actions)
    decreases |actions|
  {
    if actions == [] then {} else ReportedBy(s, actions[0]) + Reported(Step(s, actions[0]), actions[1..])
  }

  ghost predicate Told(rows: map<RunId, RunRecord>, reports: set<Report>) {
    && (forall report | report in reports ::
          report.0 in rows && rows[report.0] == report.1 && report.1.status != Running)
    && (forall r | r in rows :: (r, rows[r]) in reports || Unreported(rows[r]))
  }

  /** Nothing was counted yet: the run goes on, or was interrupted. */
  predicate Unreported(record: RunRecord) {
    record == RunRecord(Running, 0, 0, 0, []) || record == RunRecord(FailedRun, 0, 0, 0, [INTERRUPTED])
  }

  /** A run on its way has its fresh row. */
  ghost predicate FreshWhileExecuting(s: System) {
    forall t | t in s.threads && (s.threads[t].phase.Inserted? || s.threads[t].phase.Executing?) ::
      s.threads[t].phase.run in s.rows && s.rows[s.threads[t].phase.run] == RunRecord(Running, 0, 0, 0, [])
  }

  lemma OnlyOneFlies(s: System, t: ThreadId, u: ThreadId)
    requires SingleFlight(s) && t != u && t in s.threads && u in s.threads
    ensures !InFlight(s.threads[t]) || !InFlight(s.threads[u])
  {
    assert t in s.threads && InFlight(s.threads[t]) ==> Flies(s, t);
    assert u in s.threads && InFlight(s.threads[u]) ==> Flies(s, u);
  }

  lemma StepKeepsFresh(s: System, a: Action)
    requires Enabled(s, a) && SingleFlight(s) && FreshWhileExecuting(s)
    ensures FreshWhileExecuting(Step(s, a))
  {
    hide RunsInFlight, RunningRows, InsideTrigger;
    var s' := Step(s, a);
    if a.On? {
      forall t | t in s'.threads && (s'.threads[t].phase.Inserted? || s'.threads[t].phase.Executing?)
        ensures s'.threads[t].phase.run in s'.rows
        ensures s'.rows[s'.threads[t].phase.run] == RunRecord(Running, 0, 0, 0, [])
      {
        if t != a.t && t in s.threads && a.t in s.threads { OnlyOneFlies(s, t, a.t); }
      }
    }
  }

  lemma StoringTells(rows: map<RunId, RunRecord>, reports: set<Report>, run: RunId, record: RunRecord)
    requires Told(rows, reports) && run in rows && rows[run].status == Running && record.status != Running
    ensures Told(rows[run := record], reports + {(run, record)})
  {
    var rows', reports' := rows[run := record], reports + {(run, record)};
    forall report | report in reports'
      ensures report.0 in rows' && rows'[report.0] == report.1 && report.1.status != Running {}
    forall r | r in rows' ensures (r, rows'[r]) in reports' || Unreported(rows'[r]) {}
  }

  lemma InsertingTells(rows: map<RunId, RunRecord>, reports: set<Report>, run: RunId)
    requires Told(rows, reports) && run !in rows
    ensures Told(rows[run := RunRecord(Running, 0, 0, 0, [])], reports)
  {}

  lemma SettlingTells(s: System, reports: set<Report>, ids: set<RunId>)
    requires Told(s.rows, reports) && Enabled(s, ReconcileRows(ids))
    ensures Told(Step(s, ReconcileRows(ids)).rows, reports)
  {}

  lemma StepTells(s: System, a: Action, reports: set<Report>)
    requires Enabled(s, a) && FreshWhileExecuting(s) && Told(s.rows, reports)
    ensures Told(Step(s, a).rows, reports + ReportedBy(s, a))
  {
    hide Told, RunsInFlight, InsideTrigger, NextPhase, NextFlags, RunningRows, Settled;
    assert reports + {} == reports;
    if a.On? && a.move.EndRun? && a.move.stored {
      StoringTells(s.rows, reports, s.threads[a.t].phase.run, a.move.record);
    } else if a.On? && a.move.Insert? && !a.move.outcome.InsertFailed? {
      InsertingTells(s.rows, reports, a.move.outcome.run);
    } else if a.ReconcileRows? {
      SettlingTells(s, reports, a.ids);
    }
  }

  lemma {:induction false} StepsTell(s: System, actions: seq<Action>, reports: set<Report>)
    requires AllEnabled(s, actions) && SingleFlight(s) && FreshWhileExecuting(s) && Told(s.rows, reports)
    ensures Told(Steps(s, actions).rows, reports + Reported(s, actions))
    decreases |actions|
  {
    hide Told, FreshWhileExecuting, SingleFlight, Step, ReportedBy;
    if actions == [] {
      assert reports + {} == reports;
    } else {
      StepKeepsSingleFlight(s, actions[0]);
      StepKeepsFresh(s, actions[0]);
      StepTells(s, actions[0], reports);
      StepsTell(Step(s, actions[0]), actions[1..], reports + ReportedBy(s, actions[0]));
      assert reports + Reported(s, actions) ==
             (reports + ReportedBy(s, actions[0])) + Reported(Step(s, actions[0]), actions[1..]);
    }
  }

  /** After every history, crashes and reconciliations included, a row that a run reported holds
      exactly that report, for good; every other row has counted nothing and is either running or
      failed with the interruption as its one error. */
  lemma RowsTellTheirRuns(actions: seq<Action>)
    requires AllEnabled(BOOTED, actions)
    ensures var rows := Steps(BOOTED, actions).rows;
            var reports := Reported(BOOTED, actions);
            && (forall r, record | (r, record) in reports :: r in rows && rows[r] == record)
            && (forall r | r in rows && (r, rows[r]) !in reports ::
                  rows[r] == RunRecord(Running, 0, 0, 0, []) || rows[r] == RunRecord(FailedRun, 0, 0, 0, [INTERRUPTED]))
  {
    StepsTell(BOOTED, actions, {});
    assert {} + Reported(BOOTED, actions) == Reported(BOOTED, actions);
  }
}
