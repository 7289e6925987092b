/** Starting poll runs (internal/poll/scheduler.go): at most one at a time, whoever asks,
    and none left when shutdown reports success. */
module Scheduler {
  import opened Wrappers
  import opened RunAccounting
  import Reconcile

  type RunId = nat

  /** The fields guarded by runMu. `activeRuns` is the WaitGroup counter. */
  datatype Flags = Flags(running: bool, currentRunId: Option<RunId>, activeRuns: int)

  const IDLE := Flags(false, None, 0)

  function Started(f: Flags): Flags {
    f.(running := true, activeRuns := f.activeRuns + 1)
  }

  function Finished(f: Flags): Flags {
    Flags(false, None, f.activeRuns - 1)
  }

  // ---- the code ----------------------------------------------------------------------------

  class RunLock {
    var running: bool
    var currentRunId: Option<RunId>
    var activeRuns: int

    function State(): Flags
      reads this
    {
      Flags(running, currentRunId, activeRuns)
    }

    constructor ()
      ensures State() == IDLE
    {
      running, currentRunId, activeRuns := false, None, 0;
    }

    method TryStart() returns (ok: bool)
      modifies this
      ensures ok == !old(running)
      ensures State() == if ok then Started(old(State())) else old(State())
    {
      if running { return false; }
      running := true;
      activeRuns := activeRuns + 1;
      ok := true;
    }

    /** The counter must not drop below zero: only a started run may finish. */
    method Finish()
      requires activeRuns > 0
      modifies this
      ensures State() == Finished(old(State()))
    {
      running := false;
      currentRunId := None;
      activeRuns := activeRuns - 1;
    }

    method SetCurrentRunId(id: RunId)
      modifies this
      ensures State() == old(State()).(currentRunId := Some(id))
    {
      currentRunId := Some(id);
    }

    /** Trigger up to the start of its goroutine; `insert` is the outcome of InsertRun. */
    method Trigger(insert: Option<RunId>) returns (started: Option<RunId>)
      requires running ==> activeRuns > 0
      requires !running ==> activeRuns >= 0
      modifies this
      ensures started.Some? <==> !old(running) && insert.Some?
      ensures started.Some? ==> started == insert && State() == Started(old(State())).(currentRunId := insert)
      ensures started.None? && old(running) ==> State() == old(State())
      ensures started.None? && !old(running) ==> State() == old(State()).(currentRunId := None)
    {
      var ok := TryStart();
      if !ok { return None; }
      if insert.None? {
        Finish();
        return None;
      }
      SetCurrentRunId(insert.value);
      started := insert;
    }

    /** runScheduled: a whole scheduled run; it leaves no trace on the flags. */
    method RunScheduled(insert: Option<RunId>)
      requires activeRuns >= 0
      modifies this
      ensures old(running) ==> State() == old(State())
      ensures !old(running) ==> State() == old(State()).(currentRunId := None)
    {
      var ok := TryStart();
      if !ok { return; }
      if insert.Some? { SetCurrentRunId(insert.value); }
      Finish();
    }
  }

  // ---- every interleaving ------------------------------------------------------------------

  datatype Kind = Cron | Manual

  /** Where a caller of Trigger, or a firing of the cron job, stands. */
  datatype Phase =
    | Called                      // before tryStart
    | Holding                     // tryStart succeeded
    | Giving                      // the run row was not inserted; finish comes next
    | Inserted(run: RunId)        // the row is inserted, the run id not yet published
    | Executing(run: RunId)
    | Finishing(run: RunId)       // RunAll returned
    | Done

  datatype Thread = Thread(kind: Kind, phase: Phase)

  type ThreadId = nat

  /** InsertRun. */
  const NEW_RUN := RunRecord(Running, 0, 0, 0, [])

  /** The scheduler of one process, the poll_runs table, and what shutdown has done. Of this
      process, `unfinished` are the runs whose finish write failed and `lost` those whose insert
      was stored but reported as failed; `orphaned` are the runs in flight when the process died.
      `cleanShutdown`: Shutdown returned nil when nothing could call Trigger any more. */
  datatype System = System(
    up: bool,
    flags: Flags,
    threads: map<ThreadId, Thread>,
    rows: map<RunId, RunRecord>,
    unfinished: set<RunId>,
    lost: set<RunId>,
    orphaned: set<RunId>,
    cronStopped: bool,
    triggersClosed: bool,
    cronDrained: bool,
    cleanShutdown: bool)

  const BOOTED := System(true, IDLE, map[], map[], {}, {}, {}, false, false, false, false)

  datatype InsertOutcome = InsertStored(run: RunId) | InsertFailed | InsertLost(run: RunId)

  /** The steps of one thread, each atomic. */
  datatype Move =
    | Fire(kind: Kind)
    | TryStart
    | Insert(outcome: InsertOutcome)
    | GiveUp
    | Publish
    | EndRun(record: RunRecord, stored: bool)
    | Finish

  datatype Action =
    | On(t: ThreadId, move: Move)
    | StopCron
    | CloseTriggers
    | CronDrains
    | WaitReturns
    | Die
    | ReconcileRows(ids: set<RunId>)
    | Boot

  /** Between tryStart and finish. */
  predicate InFlight(th: Thread) {
    !th.phase.Called? && !th.phase.Done?
  }

  /** A call of Trigger that has not returned. */
  predicate InsideTrigger(th: Thread) {
    th.kind.Manual? && (th.phase.Called? || th.phase.Holding? || th.phase.Giving? || th.phase.Inserted?)
  }

  predicate CanMove(s: System, t: ThreadId, move: Move) {
    match move
    case Fire(kind) => s.up && t !in s.threads && (if kind.Cron? then !s.cronStopped else !s.triggersClosed)
    case TryStart => t in s.threads && s.threads[t].phase.Called?
    case Insert(outcome) => t in s.threads && s.threads[t].phase.Holding?
        && (outcome.InsertFailed? || outcome.run !in s.rows)
    case GiveUp => t in s.threads && s.threads[t].phase.Giving?
    case Publish => t in s.threads && s.threads[t].phase.Inserted?
    case EndRun(record, _) => t in s.threads && s.threads[t].phase.Executing? && !record.status.Running?
    case Finish => t in s.threads && s.threads[t].phase.Finishing?
  }

  predicate Enabled(s: System, a: Action) {
    match a
    case On(t, move) => CanMove(s, t, move)
    case StopCron => s.up
    case CloseTriggers => s.up && forall t | t in s.threads :: !InsideTrigger(s.threads[t])
    case CronDrains => s.up && s.cronStopped && forall t | t in s.threads && s.threads[t].kind.Cron? ::
        s.threads[t].phase.Done?
    case WaitReturns => s.up && s.cronDrained && s.flags.activeRuns == 0
    case Die => s.up
    case ReconcileRows(ids) => !s.up && ids <= RunningRows(s)
    case Boot => !s.up && RunningRows(s) == {}  // the process exits unless ReconcileInterruptedRuns succeeds
  }

  function RunningRows(s: System): set<RunId> {
    set r | r in s.rows && s.rows[r].status.Running?
  }

  /** Where the thread stands after the move. */
  function NextPhase(s: System, t: ThreadId, move: Move): Phase
    requires CanMove(s, t, move)
  {
    match move
    case Fire(_) => Called
    case TryStart => if s.flags.running then Done else Holding
    case Insert(outcome) => if outcome.InsertStored? then Inserted(outcome.run) else Giving
    case GiveUp => Done
    case Publish => Executing(s.threads[t].phase.run)
    case EndRun(_, _) => Finishing(s.threads[t].phase.run)
    case Finish => Done
  }

  function NextFlags(s: System, t: ThreadId, move: Move): Flags
    requires CanMove(s, t, move)
  {
    match move
    case TryStart => if s.flags.running then s.flags else Started(s.flags)
    case Publish => s.flags.(currentRunId := Some(s.threads[t].phase.run))
    case GiveUp => Finished(s.flags)
    case Finish => Finished(s.flags)
    case _ => s.flags
  }

  function NextRows(s: System, t: ThreadId, move: Move): map<RunId, RunRecord>
    requires CanMove(s, t, move)
  {
    match move
    case Insert(InsertStored(run)) => s.rows[run := NEW_RUN]
    case Insert(InsertLost(run)) => s.rows[run := NEW_RUN]
    case EndRun(record, stored) => if stored then s.rows[s.threads[t].phase.run := record] else s.rows
    case _ => s.rows
  }

  /** What the move writes to poll_runs, and what of it goes wrong. */
  function Recorded(s: System, t: ThreadId, move: Move): System
    requires CanMove(s, t, move)
  {
    s.(rows := NextRows(s, t, move),
       unfinished := s.unfinished + (if move.EndRun? && !move.stored then {s.threads[t].phase.run} else {}),
       lost := s.lost + (if move.Insert? && move.outcome.InsertLost? then {move.outcome.run} else {}))
  }

  function Moved(s: System, t: ThreadId, move: Move): System
    requires CanMove(s, t, move)
  {
    var kind := if move.Fire? then move.kind else s.threads[t].kind;
    Recorded(s, t, move).(threads := s.threads[t := Thread(kind, NextPhase(s, t, move))],
                          flags := NextFlags(s, t, move))
  }

  function Step(s: System, a: Action): System
    requires Enabled(s, a)
  {
    match a
    case On(t, move) => Moved(s, t, move)
    case StopCron => s.(cronStopped := true)
    case CloseTriggers => s.(triggersClosed := true)
    case CronDrains => s.(cronDrained := true)
    case WaitReturns => s.(cleanShutdown := s.triggersClosed)
    case Die => s.(up := false, flags := IDLE, threads := map[], orphaned := s.orphaned + RunsInFlight(s),
                   cronStopped := false, triggersClosed := false, cronDrained := false, cleanShutdown := false)
    case ReconcileRows(ids) => s.(rows := map r | r in s.rows :: if r in ids then Settled(r, s.rows[r]) else s.rows[r])
    case Boot => s.(up := true, unfinished := {}, lost := {}, orphaned := {})
  }

  /** The row of a run that an earlier process left running. */
  function Settled(r: RunId, record: RunRecord): RunRecord {
    Reconcile.Interrupted(Reconcile.RunRow(r, record)).record
  }

  function RunsInFlight(s: System): set<RunId> {
    set t | t in s.threads && HasRun(s.threads[t].phase) :: s.threads[t].phase.run
  }

  predicate HasRun(phase: Phase) {
    phase.Inserted? || phase.Executing? || phase.Finishing?
  }

  predicate AllEnabled(s: System, actions: seq<Action>)
    decreases |actions|
  {
    actions == [] || (Enabled(s, actions[0]) && AllEnabled(Step(s, actions[0]), actions[1..]))
  }

  function Steps(s: System, actions: seq<Action>): System
    requires AllEnabled(s, actions)
    decreases |actions|
  {
    if actions == [] then s else Steps(Step(s, actions[0]), actions[1..])
  }

  // ---- the invariant -------------------------------------------------------------------------

  ghost predicate Flies(s: System, t: ThreadId) {
    t in s.threads && InFlight(s.threads[t])
  }

  function PublishedRun(phase: Phase): Option<RunId> {
    if phase.Executing? || phase.Finishing? then Some(phase.run) else None
  }

  /** At most one run is in flight; the flags say whether, and which once it is published. */
  ghost predicate SingleFlight(s: System) {
    && (forall t, u | Flies(s, t) && Flies(s, u) :: t == u)
    && (s.flags.running ==> exists t :: Flies(s, t))
    && (forall t | Flies(s, t) :: s.flags == Flags(true, PublishedRun(s.threads[t].phase), 1))
    && (!s.flags.running ==> s.flags == IDLE)
    && (!s.up ==> s.threads == map[])
  }

  /** Every run has its row, and a run past its finish write is finished in it, unless that
      write was not stored. */
  ghost predicate RunsRecorded(s: System) {
    && (forall t | t in s.threads && HasRun(s.threads[t].phase) :: s.threads[t].phase.run in s.rows)
    && (forall t | t in s.threads && s.threads[t].phase.Finishing? ::
          !s.rows[s.threads[t].phase.run].status.Running? || s.threads[t].phase.run in s.unfinished)
  }

  ghost predicate Explained(s: System, r: RunId) {
    r in s.unfinished || r in s.lost || r in s.orphaned || r in RunsInFlight(s)
  }

  /** Every row that still says "running" has an explanation. */
  ghost predicate RowsExplained(s: System) {
    && (forall r | r in RunningRows(s) :: Explained(s, r))
    && (s.up ==> s.orphaned == {})
  }

  ghost predicate NoneActive(s: System) {
    forall t | t in s.threads :: s.threads[t].phase.Done?
  }

  /** What shutdown has established so far. */
  ghost predicate ShutdownOk(s: System) {
    && (s.cronDrained ==> s.cronStopped && forall t | t in s.threads && s.threads[t].kind.Cron? ::
        s.threads[t].phase.Done?)
    && (s.triggersClosed ==> forall t | t in s.threads :: !InsideTrigger(s.threads[t]))
    && (s.cleanShutdown ==> s.cronDrained && s.triggersClosed && NoneActive(s))
  }

  ghost predicate Inv(s: System) {
    SingleFlight(s) && RunsRecorded(s) && RowsExplained(s) && ShutdownOk(s)
  }

  lemma MoveKeepsSingleFlight(s: System, t: ThreadId, move: Move)
    requires SingleFlight(s) && CanMove(s, t, move)
    ensures SingleFlight(Moved(s, t, move))
  {
    hide NextRows;
    var s' := Moved(s, t, move);
    assert forall u | u != t :: Flies(s', u) <==> Flies(s, u);
    if s.flags.running && !Flies(s, t) {
      var h :| Flies(s, h);
      assert Flies(s', h);
    }
    if Flies(s', t) || move.GiveUp? || move.Finish? { assert forall u | u != t :: !Flies(s', u); }
  }

  lemma StepKeepsSingleFlight(s: System, a: Action)
    requires SingleFlight(s) && Enabled(s, a)
    ensures SingleFlight(Step(s, a))
  {
    hide Moved, RunsInFlight;
    match a
    case On(t, move) => MoveKeepsSingleFlight(s, t, move);
    case Die =>
    case _ =>
      var s' := Step(s, a);
      assert forall t :: Flies(s', t) == Flies(s, t);
  }

  /** What a move does to the rows. */
  ghost predicate RecordsMove(s: System, s': System, phase: Phase) {
    && s'.threads == s.threads && s'.orphaned == s.orphaned && s'.up == s.up
    && s.rows.Keys <= s'.rows.Keys && s.unfinished <= s'.unfinished && s.lost <= s'.lost
    && (forall r | r in RunningRows(s') :: r in RunningRows(s) || r in s'.lost || phase == Inserted(r))
  }

  lemma MoveRecords(s: System, t: ThreadId, move: Move)
    requires CanMove(s, t, move)
    ensures RecordsMove(s, Recorded(s, t, move), NextPhase(s, t, move))
  {
    hide RecordsMove, RunningRows;
    match move
    case Insert(outcome) => InsertRecords(s, t, outcome);
    case EndRun(record, stored) => EndRunRecords(s, t, record, stored);
    case _ =>
      NothingRecorded(s, NextPhase(s, t, move));
      assert s.unfinished + {} == s.unfinished && s.lost + {} == s.lost;
  }

  lemma NothingRecorded(s: System, phase: Phase)
    ensures RecordsMove(s, s, phase)
  {}

  lemma InsertRecords(s: System, t: ThreadId, outcome: InsertOutcome)
    requires CanMove(s, t, Insert(outcome))
    ensures RecordsMove(s, Recorded(s, t, Insert(outcome)), NextPhase(s, t, Insert(outcome)))
  {}

  lemma EndRunRecords(s: System, t: ThreadId, record: RunRecord, stored: bool)
    requires CanMove(s, t, EndRun(record, stored))
    ensures RecordsMove(s, Recorded(s, t, EndRun(record, stored)), NextPhase(s, t, EndRun(record, stored)))
  {}

  /** What a move does to the run of its thread. */
  lemma MoveKeepsRun(s: System, t: ThreadId, move: Move)
    requires CanMove(s, t, move)
    ensures var s' := Recorded(s, t, move);
            var phase := NextPhase(s, t, move);
            && (t in s.threads && HasRun(s.threads[t].phase) ==>
                  if move.Finish? then s.threads[t].phase.Finishing? && phase.Done?
                  else HasRun(phase) && phase.run == s.threads[t].phase.run)
            && (HasRun(phase) && !(t in s.threads && HasRun(s.threads[t].phase)) ==>
                phase.Inserted? && phase.run in s'.rows)
            && (phase.Finishing? && phase.run in s'.rows ==>
                !s'.rows[phase.run].status.Running? || phase.run in s'.unfinished)
            && (forall r | r in s'.rows && r in s.rows && s'.rows[r].status.Running? :: s.rows[r].status.Running?)
  {
    match move
    case Insert(outcome) =>
    case EndRun(record, stored) =>
    case _ =>
  }

  lemma MoveKeepsRunsRecorded(s: System, t: ThreadId, move: Move)
    requires RunsRecorded(s) && CanMove(s, t, move)
    ensures RunsRecorded(Moved(s, t, move))
  {
    hide Recorded, NextPhase, CanMove, NextFlags;
    MoveRecords(s, t, move);
    MoveKeepsRun(s, t, move);
    var s' := Moved(s, t, move);
    forall u | u in s'.threads && HasRun(s'.threads[u].phase)
      ensures s'.threads[u].phase.run in s'.rows
      ensures s'.threads[u].phase.Finishing? ==>
                !s'.rows[s'.threads[u].phase.run].status.Running? || s'.threads[u].phase.run in s'.unfinished
    {
      if u != t { assert u in s.threads && s'.threads[u] == s.threads[u]; }
    }
  }

  lemma MoveKeepsRowExplained(s: System, t: ThreadId, move: Move, r: RunId)
    requires RunsRecorded(s) && RowsExplained(s) && CanMove(s, t, move)
    requires r in RunningRows(Moved(s, t, move))
    ensures Explained(Moved(s, t, move), r)
  {
    hide Recorded, NextPhase, CanMove, NextFlags;
    MoveRecords(s, t, move);
    MoveKeepsRun(s, t, move);
    var s' := Moved(s, t, move);
    assert t in s'.threads;
    if r in s.rows && r in RunsInFlight(s) {
      var u :| u in s.threads && HasRun(s.threads[u].phase) && s.threads[u].phase.run == r;
      if u != t { assert u in s'.threads && s'.threads[u] == s.threads[u]; }
    }
  }

  lemma MoveKeepsProcess(s: System, t: ThreadId, move: Move)
    requires CanMove(s, t, move)
    ensures Moved(s, t, move).up == s.up && Moved(s, t, move).orphaned == s.orphaned
  {
    hide NextRows, CanMove, NextPhase, NextFlags;
  }

  lemma StepKeepsRowsExplained(s: System, a: Action)
    requires SingleFlight(s) && RunsRecorded(s) && RowsExplained(s) && Enabled(s, a)
    ensures RunsRecorded(Step(s, a)) && RowsExplained(Step(s, a))
  {
    hide Moved;
    match a
    case On(t, move) =>
      MoveKeepsRunsRecorded(s, t, move);
      MoveKeepsProcess(s, t, move);
      var s' := Moved(s, t, move);
      forall r | r in RunningRows(s') ensures Explained(s', r) {
        MoveKeepsRowExplained(s, t, move, r);
      }
    case Die => assert RunningRows(Step(s, a)) == RunningRows(s);
    case ReconcileRows(ids) => assert RunningRows(Step(s, a)) <= RunningRows(s);
    case Boot => assert RunningRows(Step(s, a)) == {};
    case _ => assert RunsInFlight(Step(s, a)) == RunsInFlight(s) && RunningRows(Step(s, a)) == RunningRows(s);
  }

  lemma StepKeepsShutdownOk(s: System, a: Action)
    requires SingleFlight(s) && ShutdownOk(s) && Enabled(s, a)
    ensures ShutdownOk(Step(s, a))
  {
    hide Moved, RunsInFlight;
    match a
    case On(t, move) => MoveKeepsShutdownOk(s, t, move);
    case WaitReturns =>
      forall t | t in s.threads && s.triggersClosed ensures s.threads[t].phase.Done? {
        assert !Flies(s, t);
      }
    case _ =>
  }

  lemma MoveKeepsShutdownOk(s: System, t: ThreadId, move: Move)
    requires ShutdownOk(s) && CanMove(s, t, move)
    ensures ShutdownOk(Moved(s, t, move))
  {
    MoveKeepsShutdown(s, t, move);
    hide Moved, NextFlags, NextPhase;
    var s' := Moved(s, t, move);
    assert forall u | u in s'.threads && u != t :: s'.threads[u] == s.threads[u];
  }

  /** A move changes one thread, and nothing of what shutdown has established. */
  lemma MoveKeepsShutdown(s: System, t: ThreadId, move: Move)
    requires CanMove(s, t, move)
    ensures var s' := Moved(s, t, move);
            && s'.cronStopped == s.cronStopped && s'.triggersClosed == s.triggersClosed
            && s'.cronDrained == s.cronDrained && s'.cleanShutdown == s.cleanShutdown
            && t in s'.threads && s'.threads == s.threads[t := s'.threads[t]]
            && s'.threads[t].kind == (if move.Fire? then move.kind else s.threads[t].kind)
            && s'.threads[t].phase == NextPhase(s, t, move)
            && (!move.Fire? && !InsideTrigger(s.threads[t]) ==> !InsideTrigger(s'.threads[t]))
            && (!move.Fire? ==> !s.threads[t].phase.Done?)
  {
    hide NextRows, NextFlags;
  }

  lemma {:induction false} StepsKeepInv(s: System, actions: seq<Action>)
    requires Inv(s) && AllEnabled(s, actions)
    ensures Inv(Steps(s, actions))
    decreases |actions|
  {
    hide SingleFlight, RunsRecorded, RowsExplained, ShutdownOk, Step, Enabled;
    if actions != [] {
      StepKeepsSingleFlight(s, actions[0]);
      StepKeepsRowsExplained(s, actions[0]);
      StepKeepsShutdownOk(s, actions[0]);
      StepsKeepInv(Step(s, actions[0]), actions[1..]);
    }
  }

  // ---- the promises ----------------------------------------------------------------------------

  /** Under every interleaving of cron firings, manual triggers, failed inserts, finishes,
      shutdowns, crashes and restarts, at most one run is in flight, and the flags and the
      counter say exactly that. */
  lemma AtMostOneRunInFlight(actions: seq<Action>)
    requires AllEnabled(BOOTED, actions)
    ensures SingleFlight(Steps(BOOTED, actions))
  {
    StepsKeepInv(BOOTED, actions);
  }

  /** While a process is up, a row that says "running" is its active run, or a run of its own
      whose finish was not stored or whose insert was reported as failed. The runs of dead
      processes keep such rows only until the next one starts. */
  lemma RunningRowsAreExplained(actions: seq<Action>, r: RunId)
    requires AllEnabled(BOOTED, actions)
    ensures var s := Steps(BOOTED, actions);
            r in RunningRows(s) ==>
              r in s.unfinished || r in s.lost || r in RunsInFlight(s) || (!s.up && r in s.orphaned)
  {
    StepsKeepInv(BOOTED, actions);
  }

  /** A process killed at any moment can be followed by another: reconciliation settles every
      running row with its counters kept, and then a new run is the only running one. */
  lemma KilledRunIsFollowed(s: System, run: RunId)
    requires Inv(s) && s.up && run !in s.rows
    ensures var more := [Die, ReconcileRows(RunningRows(s)), Boot,
                         On(0, Fire(Manual)), On(0, TryStart), On(0, Insert(InsertStored(run)))];
            && AllEnabled(s, more)
            && var after := Steps(s, more);
               && RunsInFlight(after) == {run} == RunningRows(after)
               && forall r | r in s.rows ::
                    r in after.rows
                    && after.rows[r] ==
                         if s.rows[r].status == Running then
                           RunRecord(FailedRun, s.rows[r].checked, s.rows[r].created, s.rows[r].superseded,
                                     [INTERRUPTED])
                         else s.rows[r]
  {
    var dead := Step(s, Die);
    assert RunningRows(dead) == RunningRows(s);
    var settled := Step(dead, ReconcileRows(RunningRows(s)));
    assert RunningRows(settled) == {};
    var booted := Step(settled, Boot);
    NewRun(booted, run);
    var started := [On(0, Fire(Manual)), On(0, TryStart), On(0, Insert(InsertStored(run)))];
    assert [Die, ReconcileRows(RunningRows(s)), Boot] + started ==
           [Die, ReconcileRows(RunningRows(s)), Boot, started[0], started[1], started[2]];
    ThreeFirst(s, Die, ReconcileRows(RunningRows(s)), Boot, started);
  }

  lemma ThreeFirst(s: System, a: Action, b: Action, c: Action, more: seq<Action>)
    requires Enabled(s, a) && Enabled(Step(s, a), b) && Enabled(Step(Step(s, a), b), c)
    requires AllEnabled(Step(Step(Step(s, a), b), c), more)
    ensures AllEnabled(s, [a, b, c] + more)
    ensures Steps(s, [a, b, c] + more) == Steps(Step(Step(Step(s, a), b), c), more)
  {
    hide *;
    OneFirst(Step(Step(s, a), b), c, more);
    OneFirst(Step(s, a), b, [c] + more);
    OneFirst(s, a, [b] + ([c] + more));
    assert [a, b, c] + more == [a] + ([b] + ([c] + more));
  }

  lemma OneFirst(s: System, a: Action, more: seq<Action>)
    requires Enabled(s, a) && AllEnabled(Step(s, a), more)
    ensures AllEnabled(s, [a] + more) && Steps(s, [a] + more) == Steps(Step(s, a), more)
  {
    hide Step, Enabled;
    assert ([a] + more)[1..] == more;
  }

  /** A run triggered by hand in a process that has just started. */
  lemma NewRun(s: System, run: RunId)
    requires s.up && s.flags == IDLE && s.threads == map[] && !s.triggersClosed
    requires run !in s.rows && RunningRows(s) == {}
    ensures var more := [On(0, Fire(Manual)), On(0, TryStart), On(0, Insert(InsertStored(run)))];
            && AllEnabled(s, more)
            && var after := Steps(s, more);
               after.rows == s.rows[run := NEW_RUN] && RunsInFlight(after) == {run} == RunningRows(after)
  {
    var a, b, c := On(0, Fire(Manual)), On(0, TryStart), On(0, Insert(InsertStored(run)));
    var s1 := Step(s, a);
    var s2 := Step(s1, b);
    var s3 := Step(s2, c);
    assert s3.threads == map[0 := Thread(Manual, Inserted(run))];
    assert s3.rows == s.rows[run := NEW_RUN];
    ThreeFirst(s, a, b, c, []);
    assert [a, b, c] + [] == [a, b, c];
  }

  /** `rows` lists the table, each run once. */
  ghost predicate Lists(rows: seq<Reconcile.RunRow>, table: map<RunId, RunRecord>) {
    && Reconcile.UniqueIds(rows)
    && (forall i | 0 <= i < |rows| :: rows[i].id in table && table[rows[i].id] == rows[i].record)
    && (forall r | r in table :: exists i | 0 <= i < |rows| :: rows[i].id == r)
  }

  /** The ids of the rows that a reconciliation changed. */
  function ChangedIds(before: seq<Reconcile.RunRow>, after: seq<Reconcile.RunRow>): set<RunId>
    requires |after| == |before|
  {
    set i | 0 <= i < |before| && before[i] != after[i] :: before[i].id
  }

  lemma ChangedRows(before: seq<Reconcile.RunRow>, after: seq<Reconcile.RunRow>, i: nat)
    requires Reconcile.UniqueIds(before) && i < |before| == |after|
    ensures before[i].id in ChangedIds(before, after) <==> before[i] != after[i]
  {}

  /** However far reconciliation gets, it is a step of this system, and once it got through
      the next process may start. */
  lemma ReconciliationIsAStep(s: System, before: seq<Reconcile.RunRow>, after: seq<Reconcile.RunRow>)
    requires !s.up && Lists(before, s.rows) && Reconcile.PartlyReconciled(before, after)
    ensures var ids := ChangedIds(before, after);
            && Enabled(s, ReconcileRows(ids))
            && Lists(after, Step(s, ReconcileRows(ids)).rows)
            && (after == Reconcile.Reconciled(before) ==> Enabled(Step(s, ReconcileRows(ids)), Boot))
  {
    ChangedAreRunning(s, before, after);
    ListsSettled(s.rows, before, after);
    hide ChangedIds, RunningRows, Settled, Reconcile.IsRunning, Reconcile.PartlyReconciled, Reconcile.Reconciled;
    var s' := Step(s, ReconcileRows(ChangedIds(before, after)));
    if after == Reconcile.Reconciled(before) { AllSettled(s', after, before); }
  }

  lemma ChangedAreRunning(s: System, before: seq<Reconcile.RunRow>, after: seq<Reconcile.RunRow>)
    requires Lists(before, s.rows) && Reconcile.PartlyReconciled(before, after)
    ensures ChangedIds(before, after) <= RunningRows(s)
  {}

  lemma ListsSettled(rows: map<RunId, RunRecord>, before: seq<Reconcile.RunRow>, after: seq<Reconcile.RunRow>)
    requires Lists(before, rows) && Reconcile.PartlyReconciled(before, after)
    ensures Lists(after, map r | r in rows :: if r in ChangedIds(before, after) then Settled(r, rows[r]) else rows[r])
  {
    hide ChangedIds, Reconcile.IsRunning;
    forall i | 0 <= i < |before|
      ensures after[i].id == before[i].id && (before[i].id in ChangedIds(before, after) <==> before[i] != after[i])
    {
      ChangedRows(before, after, i);
    }
  }

  lemma AllSettled(s: System, rows: seq<Reconcile.RunRow>, before: seq<Reconcile.RunRow>)
    requires rows == Reconcile.Reconciled(before) && forall r | r in s.rows :: exists i | 0 <= i < |rows| ::
               rows[i].id == r
    requires forall i | 0 <= i < |rows| :: rows[i].id in s.rows && s.rows[rows[i].id] == rows[i].record
    ensures RunningRows(s) == {}
  {
    forall r | r in s.rows ensures !s.rows[r].status.Running? {
      var i :| 0 <= i < |rows| && rows[i].id == r;
    }
  }

  /** The state in which Shutdown returns nil. */
  ghost predicate ShutdownReturns(actions: seq<Action>) {
    AllEnabled(BOOTED, actions) && Enabled(Steps(BOOTED, actions), WaitReturns)
  }

  /** After a nil return from Shutdown no run is in flight, and none ever will be in this
      process -- exactly when nothing could call Trigger any more. */
  lemma {:induction false} ShutdownIsFinalExactly(actions: seq<Action>)
    requires ShutdownReturns(actions)
    ensures var s := Step(Steps(BOOTED, actions), WaitReturns);
            s.triggersClosed <==>
            forall more | AllEnabled(s, more) && Die !in more :: NoRunInFlight(Steps(s, more))
  {
    StepsKeepInv(BOOTED, actions);
    var s := Step(Steps(BOOTED, actions), WaitReturns);
    StepKeepsShutdownOk(Steps(BOOTED, actions), WaitReturns);
    if s.triggersClosed {
      forall more | AllEnabled(s, more) && Die !in more ensures NoRunInFlight(Steps(s, more)) {
        StaysClean(s, more);
      }
    } else {
      var t := FreshThread(s.threads.Keys);
      LateTriggerRuns(s, t);
    }
  }

  ghost predicate NoRunInFlight(s: System) {
    forall t | t in s.threads :: !InFlight(s.threads[t])
  }

  lemma {:induction false} StaysClean(s: System, more: seq<Action>)
    requires ShutdownOk(s) && s.cleanShutdown && SingleFlight(s) && AllEnabled(s, more) && Die !in more
    ensures NoRunInFlight(Steps(s, more))
    decreases |more|
  {
    if more != [] {
      assert more[0] in more && Die !in more[1..];
      StepKeepsSingleFlight(s, more[0]);
      StepKeepsShutdownOk(s, more[0]);
      StaysClean(Step(s, more[0]), more[1..]);
    }
  }

  /** A call of Trigger after that starts a run. */
  lemma LateTriggerRuns(s: System, t: ThreadId)
    requires s.up && !s.triggersClosed && !s.flags.running && t !in s.threads
    ensures var more := [On(t, Fire(Manual)), On(t, TryStart)];
            AllEnabled(s, more) && Die !in more && !NoRunInFlight(Steps(s, more))
  {
    var more := [On(t, Fire(Manual)), On(t, TryStart)];
    var s1 := Step(s, more[0]);
    var rest := more[1..];
    assert rest == [On(t, TryStart)];
    var s2 := Step(s1, rest[0]);
    assert rest[1..] == [];
    assert Steps(s1, rest) == Steps(s2, []) == s2;
    assert InFlight(s2.threads[t]);
  }

  lemma {:induction false} FreshThread(used: set<ThreadId>) returns (t: ThreadId)
    ensures t !in used
    ensures forall u | u in used :: u < t
    decreases used
  {
    if used == {} {
      t := 0;
    } else {
      var u :| u in used;
      var v := FreshThread(used - {u});
      t := if u < v then v else u + 1;
      assert forall w | w in used :: w == u || w in used - {u};
    }
  }
}
