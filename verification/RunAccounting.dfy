/** One poll run over all enabled repos (internal/poll/scheduler.go RunAll, internal/poll/run.go):
    its loop, its counters, and the status it stores. */
module RunAccounting {
  import opened Wrappers
  import opened TicketErrors
  import opened PollModel
  import opened PollSafety

  /** How polling one repo ended. `acks` are the creates that the tracker acknowledged. */
  datatype Polled =
    | Evaluated(repoId: string, eval: Evaluation, acks: nat)
    | EngineFailed(repoId: string, err: Error, acks: nat)     // the engine owns the repo's state
    | SetupFailed(repoId: string, err: Error, acks: nat)      // recorded like an engine-reported error

  datatype RunError = RunError(repoId: string, message: string)

  datatype RunStatus = Running | Success | Partial | FailedRun

  datatype RunRecord = RunRecord(status: RunStatus, checked: nat, created: nat, superseded: nat, errors: seq<RunError>)

  const INTERRUPTED := RunError("", "poll run was interrupted before it finished")

  const NOT_LISTED := RunError("", "enabled repos could not be listed")

  /** CounterDeltasForAction. */
  function CounterDeltas(action: Action): (nat, nat) {
    match action
    case Create => (1, 0)
    case Supersede => (0, 1)
    case _ => (0, 0)
  }

  function Count(actions: seq<Action>, action: Action): nat {
    multiset(actions)[action]
  }

  /** RunFinishStatus. */
  function RunFinishStatus(checked: nat, errors: nat): RunStatus {
    if checked == 0 || errors == 0 then Success
    else if errors >= checked then FailedRun
    else Partial
  }

  // ---- what a run should record --------------------------------------------------------

  /** The actions recorded for a polled repo; none when the engine failed. */
  function Actions(p: Polled): seq<Action> {
    match p
    case Evaluated(_, eval, _) => eval.actions
    case EngineFailed(_, _, _) => []
    case SetupFailed(_, _, _) => [ErrorAction]
  }

  predicate Erred(p: Polled) {
    !p.Evaluated? || ErrorAction in p.eval.actions
  }

  function ErrorOf(p: Polled): RunError {
    RunError(p.repoId, if p.Evaluated? then p.eval.detail else Message(p.err))
  }

  function Errors(polled: seq<Polled>): seq<RunError> {
    if polled == [] then []
    else Errors(polled[..|polled| - 1]) + if Erred(polled[|polled| - 1]) then [ErrorOf(polled[|polled| - 1])] else []
  }

  function Total(polled: seq<Polled>, action: Action): nat {
    if polled == [] then 0
    else Total(polled[..|polled| - 1], action) + Count(Actions(polled[|polled| - 1]), action)
  }

  function Acks(polled: seq<Polled>): nat {
    if polled == [] then 0 else Acks(polled[..|polled| - 1]) + polled[|polled| - 1].acks
  }

  // ---- the code --------------------------------------------------------------------------

  /** RecordEvaluation: one event per action, counted as it goes. */
  method RecordEvaluation(actions: seq<Action>, created0: nat, superseded0: nat) returns (created: nat, superseded: nat)
    ensures created == created0 + Count(actions, Create)
    ensures superseded == superseded0 + Count(actions, Supersede)
  {
    created, superseded := created0, superseded0;
    for i := 0 to |actions|
      invariant created == created0 + Count(actions[..i], Create)
      invariant superseded == superseded0 + Count(actions[..i], Supersede)
    {
      var (c, s) := CounterDeltas(actions[i]);
      created, superseded := created + c, superseded + s;
      assert actions[..i + 1] == actions[..i] + [actions[i]];
    }
    assert actions[..|actions|] == actions;
  }

  /** RunAll. `listed` are the ends of the polls of all enabled repos in order, when the repos
      could be listed, and the context is done from repo number `cancelledAt` on. */
  method RunAll(listed: Result<seq<Polled>, Error>, cancelledAt: nat) returns (record: RunRecord)
    ensures listed.Err? ==> record == RunRecord(FailedRun, 0, 0, 0, [NOT_LISTED])
    ensures listed.Ok? ==>
              var polled := listed.value;
              var done := polled[..if cancelledAt < |polled| then cancelledAt else |polled|];
              && record.checked == |done|
              && record.created == Total(done, Create)
              && record.superseded == Total(done, Supersede)
              && record.errors == Errors(done) + (if |done| < |polled| then [INTERRUPTED] else [])
              && (record.status == FailedRun <==> done != [] && forall p | p in done :: Erred(p))
    ensures record.status == Success <==> record.errors == []
    ensures record.status != Running
    ensures listed.Ok? ==> record.checked <= |listed.value| && ErrorsTold(listed.value[..record.checked], record.errors)
    ensures listed.Ok? && record.status == Success ==>
              forall p | p in listed.value :: p.Evaluated? && ErrorAction !in p.eval.actions
  {
    hide Errors, Total, Count, Message, RunFinishStatus;
    if listed.Err? { return RunRecord(FailedRun, 0, 0, 0, [NOT_LISTED]); }
    var polled := listed.value;
    NonePolled(polled);
    var checked, created, superseded := 0, 0, 0;
    var runErrors: seq<RunError> := [];
    var interrupted := false;
    while checked < |polled|
      invariant 0 <= checked <= |polled| && (checked <= cancelledAt)
      invariant interrupted ==> checked == cancelledAt < |polled|
      invariant created == Total(polled[..checked], Create)
      invariant superseded == Total(polled[..checked], Supersede)
      invariant runErrors == Errors(polled[..checked])
      decreases |polled| - checked, !interrupted
    {
      if cancelledAt <= checked {
        interrupted := true;
        break;
      }
      var p := polled[checked];
      checked := checked + 1;
      OneMorePolled(polled, checked);
      if !p.Evaluated? {
        runErrors := runErrors + [RunError(p.repoId, Message(p.err))];
      } else if ErrorAction in p.eval.actions {
        runErrors := runErrors + [RunError(p.repoId, p.eval.detail)];
      }
      match p {
        case Evaluated(_, eval, _) => created, superseded := RecordEvaluation(eval.actions, created, superseded);
        case SetupFailed(_, _, _) => created, superseded := RecordEvaluation([ErrorAction], created, superseded);
        case EngineFailed(_, _, _) =>
      }
    }

    ErrorsCount(polled[..checked]);
    StatusTells(checked, |runErrors|);
    var status := RunFinishStatus(checked, |runErrors|);
    if interrupted {
      runErrors := runErrors + [INTERRUPTED];
      if status == Success { status := Partial; }
    }
    assert !interrupted ==> polled[..checked] == polled;
    record := RunRecord(status, checked, created, superseded, runErrors);
    TellErrors(polled[..checked], runErrors);
  }

  lemma NonePolled(polled: seq<Polled>)
    ensures Errors(polled[..0]) == [] && Total(polled[..0], Create) == 0 && Total(polled[..0], Supersede) == 0
  {}

  lemma OneMorePolled(polled: seq<Polled>, checked: nat)
    requires 0 < checked <= |polled|
    ensures var last := polled[checked - 1];
            && Errors(polled[..checked]) ==
                 Errors(polled[..checked - 1]) + (if Erred(last) then [ErrorOf(last)] else [])
            && (forall a :: Total(polled[..checked], a) == Total(polled[..checked - 1], a) + Count(Actions(last), a))
            && Count(Actions(last), Create) == (if last.Evaluated? then Count(last.eval.actions, Create) else 0)
            && Count(Actions(last), Supersede) == (if last.Evaluated? then Count(last.eval.actions, Supersede) else 0)
            && Count([ErrorAction], Create) == 0 == Count([ErrorAction], Supersede)
  {
    assert polled[..checked][..checked - 1] == polled[..checked - 1];
  }

  lemma StatusTells(checked: nat, errors: nat)
    requires errors <= checked
    ensures RunFinishStatus(checked, errors) == Success <==> errors == 0
    ensures RunFinishStatus(checked, errors) == FailedRun <==> 0 < checked == errors
    ensures RunFinishStatus(checked, errors) != Running
  {}

  /** The stored errors, seen from the repos: one for each whose poll failed or reported an error,
      under its own id and with its own message, in order, and none for the others; after them
      at most the interruption. */
  ghost predicate ErrorsTold(polled: seq<Polled>, errors: seq<RunError>) {
    exists at: seq<nat> ::
      && |at| <= |errors| && (errors[|at|..] == [] || errors[|at|..] == [INTERRUPTED])
      && PlacesOfErrors(polled, at)
      && forall k | 0 <= k < |at| ::
           errors[k] == RunError(polled[at[k]].repoId,
                                 if polled[at[k]].Evaluated? then polled[at[k]].eval.detail
                                 else Message(polled[at[k]].err))
  }

  /** `at` are the places of the failed polls and of the evaluations that report an error. */
  ghost predicate PlacesOfErrors(polled: seq<Polled>, at: seq<nat>) {
    && (forall k | 0 <= k < |at| :: at[k] < |polled|)
    && (forall j, k | 0 <= j < k < |at| :: at[j] < at[k])
    && forall i | 0 <= i < |polled| ::
         i in at <==> polled[i].EngineFailed? || polled[i].SetupFailed? || ErrorAction in polled[i].eval.actions
  }

  /** `errors` are those of the polls at the places `at`. */
  ghost predicate Tell(polled: seq<Polled>, at: seq<nat>, errors: seq<RunError>) {
    |errors| == |at| && forall k | 0 <= k < |at| :: at[k] < |polled| && errors[k] == ErrorOf(polled[at[k]])
  }

  lemma {:induction false} ErrorsAreTold(polled: seq<Polled>) returns (at: seq<nat>)
    ensures PlacesOfErrors(polled, at) && Tell(polled, at, Errors(polled))
  {
    hide PlacesOfErrors, Erred, ErrorOf, Tell;
    if polled == [] {
      at := [];
      NothingToTell();
    } else {
      var last := |polled| - 1;
      var before := ErrorsAreTold(polled[..last]);
      at := before + if Erred(polled[last]) then [last] else [];
      OneMorePlace(polled, before);
      OneMoreToTell(polled, before, Errors(polled[..last]));
    }
  }

  lemma NothingToTell()
    ensures PlacesOfErrors([], []) && Tell([], [], [])
  {}

  lemma OneMoreToTell(polled: seq<Polled>, before: seq<nat>, errors: seq<RunError>)
    requires polled != [] && Tell(polled[..|polled| - 1], before, errors)
    ensures var last := |polled| - 1;
            Tell(polled, before + (if Erred(polled[last]) then [last] else []),
                 errors + if Erred(polled[last]) then [ErrorOf(polled[last])] else [])
  {
    hide ErrorOf, Erred;
    var last := |polled| - 1;
    forall k | 0 <= k < |before|
      ensures before[k] < |polled| && errors[k] == ErrorOf(polled[before[k]])
    {
      assert polled[..last][before[k]] == polled[before[k]];
    }
  }

  lemma OneMorePlace(polled: seq<Polled>, before: seq<nat>)
    requires polled != [] && PlacesOfErrors(polled[..|polled| - 1], before)
    ensures PlacesOfErrors(polled, before + if Erred(polled[|polled| - 1]) then [|polled| - 1] else [])
  {
    var n := |polled| - 1;
    var at := before + if Erred(polled[n]) then [n] else [];
    assert forall i | 0 <= i < n :: polled[..n][i] == polled[i];
    assert forall i :: i in at <==> i in before || (i == n && Erred(polled[n]));
  }

  lemma TellErrors(polled: seq<Polled>, errors: seq<RunError>)
    requires errors == Errors(polled) || errors == Errors(polled) + [INTERRUPTED]
    ensures ErrorsTold(polled, errors)
    ensures errors == [] ==> forall p | p in polled :: p.Evaluated? && ErrorAction !in p.eval.actions
  {
    var at := ErrorsAreTold(polled);
    hide Errors, Message, PlacesOfErrors;
    assert errors[|at|..] == [] || errors[|at|..] == [INTERRUPTED];
    if errors == [] { NoPlaces(polled, at); }
  }

  lemma NoPlaces(polled: seq<Polled>, at: seq<nat>)
    requires PlacesOfErrors(polled, at) && at == []
    ensures forall p | p in polled :: p.Evaluated? && ErrorAction !in p.eval.actions
  {
    forall p | p in polled ensures p.Evaluated? && ErrorAction !in p.eval.actions {
      var i :| 0 <= i < |polled| && polled[i] == p;
      assert i !in at;
    }
  }

  /** Each checked repo adds at most one error; all do exactly when all erred. */
  lemma {:induction false} ErrorsCount(polled: seq<Polled>)
    ensures |Errors(polled)| <= |polled|
    ensures |Errors(polled)| == |polled| <==> forall p | p in polled :: Erred(p)
  {
    if polled != [] {
      var init, last := polled[..|polled| - 1], polled[|polled| - 1];
      ErrorsCount(init);
      assert polled == init + [last];
    }
  }

  // ---- the counters tell the truth ---------------------------------------------------------

  /** The evaluation counts no create that the tracker did not acknowledge, and no supersede
      without its create. */
  predicate Honest(actions: seq<Action>, acks: nat) {
    Count(actions, Supersede) <= Count(actions, Create) <= acks
  }

  predicate HonestOutcome(before: State, w: World, outcome: Outcome) {
    && before.acks <= w.s.acks
    && (outcome.Ok? ==> Honest(outcome.value.actions, w.s.acks - before.acks))
  }

  lemma SaveKeepsAcks(w: World, update: Row, outgoing: Option<TicketId>)
    ensures SavePollState(w, update, outgoing).0.s.acks == w.s.acks
  {}

  lemma {:induction false} SaveCreatedKeepsAcks(w: World, update: Row, outgoing: Option<TicketId>, attempt: nat)
    ensures SaveCreatedTicket(w, update, outgoing, attempt).0.s.acks == w.s.acks
    decreases LINK_WRITE_ATTEMPTS - attempt
  {
    hide SavePollState;
    SaveKeepsAcks(w, update, outgoing);
    var (w1, saved) := SavePollState(w, update, outgoing);
    if saved.Err? && attempt < LINK_WRITE_ATTEMPTS {
      var (w2, done) := ContextDone(w1);
      if !done { SaveCreatedKeepsAcks(w2, update, outgoing, attempt + 1); }
    }
  }

  lemma RecordErrorIsHonest(s: State, w: World, base: Row, message: string, now: string)
    requires s.acks <= w.s.acks
    ensures var (w', outcome) := RecordError(w, base, message, now); HonestOutcome(s, w', outcome)
  {
    SaveKeepsAcks(w, base.(lastPolled := Some(now), lastError := Some(message)), None);
  }

  lemma {:induction false} AddTicketsLast(s: State, ticket: Ticket, n: nat)
    requires n > 0
    ensures var s' := AddTickets(s, ticket, n);
            s'.nextId - 1 in s'.tickets && s'.acks == s.acks
    decreases n
  {
    if n > 1 { AddTicketsLast(Add(s, ticket), ticket, n - 1); }
    else { assert AddTickets(Add(s, ticket), ticket, 0) == Add(s, ticket); }
  }

  lemma AddTicketsAcks(s: State, ticket: Ticket, n: nat)
    ensures AddTickets(s, ticket, n).acks == s.acks
  {
    if n > 0 { AddTicketsLast(s, ticket, n); }
  }

  lemma CreateAcks(w: World, request: Jira.Request, tag: Tag)
    ensures var (w', created) := CreateTicket(w, request, tag);
            w'.s.acks == w.s.acks + if created.Ok? then 1 else 0
  {
    hide Jira.CreateTicket, AddTickets;
    if !w.crashed {
      var f := NextFault(w).0;
      var stored := Jira.CreateTicket(request, f.cancelled, f.first, f.second).stored;
      AddTicketsAcks(w.s, NextTicket(w, tag), stored);
      if stored > 0 { AddTicketsLast(w.s, NextTicket(w, tag), stored); }
    }
  }

  lemma SupersedeOldAcks(w: World, oldId: TicketId, newId: TicketId, p: Poll)
    ensures SupersedeOldTicket(w, oldId, newId, p).0.s.acks == w.s.acks
  {
    hide UpdateTicketStatus, AddTicketComment;
    StatusEffect(w, oldId, p.mapping.superseded, newId);
    CommentEffect(UpdateTicketStatus(w, oldId, p.mapping.superseded, newId).0);
  }

  lemma CreateForIsHonest(w: World, base: Row, release: Release, p: Poll, outgoing: Option<TicketId>)
    ensures var (w', outcome) := CreateFor(w, base, release, p, outgoing); HonestOutcome(w.s, w', outcome)
  {
    hide SavePollState, RecordError, CreateTicket, SaveCreatedTicket, SupersedeOldTicket,
         CreateDefinitelyNotStored, Message;
    if base.pending == Some(release.tag) {
      RecordErrorIsHonest(w.s, w, base, PendingTicketMessage(release.tag), p.now);
    } else if p.content.Err? {
      RecordErrorIsHonest(w.s, w, base, Message(p.content.error), p.now);
    } else {
      var marked := base.(pending := Some(release.tag));
      SaveKeepsAcks(w, marked, None);
      var (w1, mark) := SavePollState(w, marked, None);
      CreateAcks(w1, p.request, release.tag);
      var (w2, created) := CreateTicket(w1, p.request, release.tag);
      if created.Err? {
        var err := Wrap(CreateContext(outgoing), created.error);
        RecordErrorIsHonest(w.s, w2, if CreateDefinitelyNotStored(err) then marked.(pending := None) else marked,
                            Message(err), p.now);
      } else {
        var link := LinkRow(base, created.value, release, p.now);
        SaveCreatedKeepsAcks(w2, link, outgoing, 1);
        var w3 := SaveCreatedTicket(w2, link, outgoing, 1).0;
        if outgoing.Some? {
          SupersedeOldAcks(w3, outgoing.value, created.value, p);
          var (w4, errs) := SupersedeOldTicket(w3, outgoing.value, created.value, p);
          SaveKeepsAcks(w4, link.(lastError := Some(Message(Wrap("supersede ticket", Join(errs))))), None);
        }
      }
    }
  }

  lemma MergeIsHonest(w: World, row: Row, id: TicketId, release: Release, p: Poll)
    ensures var (w', outcome) := MergeInto(w, row, id, release, p); HonestOutcome(w.s, w', outcome)
  {
    hide SavePollState, RecordError, Message;
    var (w1, failed) := UpdateTicket(w, id, release.tag);
    if p.content.Err? {
      RecordErrorIsHonest(w.s, w, row, Message(p.content.error), p.now);
    } else if failed.Some? {
      RecordErrorIsHonest(w.s, w1, row, Message(Wrap("merge ticket", failed.value)), p.now);
    } else {
      SaveKeepsAcks(w1, KnownRow(row, release, p.now).(openTag := Some(release.tag)), None);
    }
  }

  lemma SettleIsHonest(w: World, row: Row, id: TicketId, live: Result<string, Error>, release: Release, p: Poll)
    ensures var (w', outcome) := SettleOpenTicket(w, row, id, live, release, p); HonestOutcome(w.s, w', outcome)
  {
    hide SavePollState, RecordError, CreateFor, MergeInto, StatusMapping.Classify, Message;
    if live.Err? {
      RecordErrorIsHonest(w.s, w, row, Message(live.error), p.now);
    } else {
      match StatusMapping.Classify(p.mapping, live.value)
      case Unknown => RecordErrorIsHonest(w.s, w, row, "unknown ticket status " + live.value, p.now);
      case Done => CreateForIsHonest(w, ClearOpenTicket(row), release, p, None);
      case Cancelled => CreateForIsHonest(w, ClearOpenTicket(row), release, p, None);
      case Open =>
        RecordErrorIsHonest(w.s, w, row, SUPERSEDED_STATUS_REQUIRED, p.now);
        CreateForIsHonest(w, row, release, p, Some(id));
        MergeIsHonest(w, row, id, release, p);
        SaveKeepsAcks(w, KnownRow(row, release, p.now), None);
        RecordErrorIsHonest(w.s, w, row, "unknown on_open_ticket_policy " + EffectivePolicy(p), p.now);
    }
  }

  lemma EvaluationIsHonest(w: World, row: Row, p: Poll)
    ensures var (w', outcome) := EvaluateRepo(w, row, p); HonestOutcome(w.s, w', outcome)
  {
    hide SavePollState, RecordError, CreateFor, SettleOpenTicket, Message;
    if p.fetched.Err? {
      RecordErrorIsHonest(w.s, w, row, Message(p.fetched.error), p.now);
    } else {
      var release := p.fetched.value;
      var (decision, tag) := DecideTagChange(row.lastKnown, release);
      match decision
      case TagBaseline => SaveKeepsAcks(w, BaselineRow(row, release, tag, p.now), None);
      case TagSkip => SaveKeepsAcks(w, row.(lastPolled := Some(p.now), lastError := None), None);
      case TagNew =>
        if HasOpenTicket(row) {
          var (w1, live) := GetTicketStatus(w, row.openId.value);
          SettleIsHonest(w1, row, row.openId.value, live, release.value, p);
        } else {
          CreateForIsHonest(w, row, release.value, p, None);
        }
    }
  }

  // ---- a whole run -----------------------------------------------------------------------

  /** One enabled repo of a run: its state and what its poll meets. */
  datatype Job =
    | PollJob(repoId: string, s: State, poll: Poll, faults: seq<Fault>)
    | SetupJob(repoId: string, s: State, err: Error)

  function PolledBy(job: Job): (p: Polled)
    ensures Honest(Actions(p), p.acks)
  {
    match job
    case SetupJob(repoId, _, err) => SetupFailed(repoId, err, 0)
    case PollJob(repoId, s, poll, faults) =>
      EvaluationIsHonest(Live(Observe(s, poll), faults), s.row, poll);
      var (w, outcome) := PollOnce(s, poll, faults);
      match outcome
      case Ok(eval) => Evaluated(repoId, eval, w.s.acks - s.acks)
      case Err(e) => EngineFailed(repoId, e, w.s.acks - s.acks)
  }

  function PolledByAll(jobs: seq<Job>): seq<Polled> {
    seq(|jobs|, i requires 0 <= i < |jobs| => PolledBy(jobs[i]))
  }

  /** For every list of repos, however each poll ends and wherever the run is interrupted,
      the stored counters satisfy superseded <= created <= acknowledged creates of the repos
      that were checked. */
  lemma CountersAreHonest(jobs: seq<Job>, checked: nat)
    requires checked <= |jobs|
    ensures var done := PolledByAll(jobs)[..checked];
            Total(done, Supersede) <= Total(done, Create) <= Acks(done)
  {
    HonestTotals(PolledByAll(jobs)[..checked]);
  }

  /** A run over repos polled by the engine: what it stores counts no supersede without a create
      and no create that the tracker did not acknowledge in the checked repos. */
  method RunJobs(jobs: seq<Job>, cancelledAt: nat) returns (record: RunRecord)
    ensures record.checked == if cancelledAt < |jobs| then cancelledAt else |jobs|
    ensures record.superseded <= record.created <= Acks(PolledByAll(jobs)[..record.checked])
    ensures record.status == Success ==>
              forall job | job in jobs :: job.PollJob? && PollOnce(job.s, job.poll, job.faults).1.Ok?
  {
    record := RunAll(Ok(PolledByAll(jobs)), cancelledAt);
    hide PollOnce;
    if record.status == Success {
      forall i | 0 <= i < |jobs| ensures jobs[i].PollJob? && PollOnce(jobs[i].s, jobs[i].poll, jobs[i].faults).1.Ok? {
        assert PolledByAll(jobs)[i] in PolledByAll(jobs);
      }
    }
    CountersAreHonest(jobs, record.checked);
  }

  lemma {:induction false} HonestTotals(polled: seq<Polled>)
    requires forall p | p in polled :: Honest(Actions(p), p.acks)
    ensures Total(polled, Supersede) <= Total(polled, Create) <= Acks(polled)
  {
    if polled != [] { HonestTotals(polled[..|polled| - 1]); }
  }
}
