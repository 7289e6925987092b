/** The poll engine in its own form: methods that call the store and the tracker one after
    the other. Each is proved to do what the functions of `PollModel` say, under every
    sequence of faults, so what is proved about those holds of the engine. */
module PollEngine {
  import opened Wrappers
  import opened TicketErrors
  import opened StatusMapping
  import opened PollModel
  import PollSafety

  /** The store and the tracker as the engine reaches them. `outgoing` is only recorded. */
  class Services {
    var world: World

    constructor (world: World)
      ensures this.world == world
    {
      this.world := world;
    }

    method UpdatePollState(update: Row, outgoing: Option<TicketId>) returns (r: WriteResult)
      modifies this
      ensures (world, r) == PollModel.UpdatePollState(old(world), update, outgoing)
    {
      var (after, result) := PollModel.UpdatePollState(world, update, outgoing);
      world, r := after, result;
    }

    method ContextDone() returns (done: bool)
      modifies this
      ensures (world, done) == PollModel.ContextDone(old(world))
    {
      var (after, result) := PollModel.ContextDone(world);
      world, done := after, result;
    }

    method CreateTicket(request: Jira.Request, tag: Tag) returns (r: Result<TicketId, Error>)
      modifies this
      ensures (world, r) == PollModel.CreateTicket(old(world), request, tag)
    {
      var (after, result) := PollModel.CreateTicket(world, request, tag);
      world, r := after, result;
    }

    method GetTicketStatus(id: TicketId) returns (r: Result<string, Error>)
      modifies this
      ensures (world, r) == PollModel.GetTicketStatus(old(world), id)
    {
      var (after, result) := PollModel.GetTicketStatus(world, id);
      world, r := after, result;
    }

    method UpdateTicketStatus(id: TicketId, status: string, successor: TicketId) returns (err: Option<Error>)
      modifies this
      ensures (world, err) == PollModel.UpdateTicketStatus(old(world), id, status, successor)
    {
      var (after, result) := PollModel.UpdateTicketStatus(world, id, status, successor);
      world, err := after, result;
    }

    method UpdateTicket(id: TicketId, tag: Tag) returns (err: Option<Error>)
      modifies this
      ensures (world, err) == PollModel.UpdateTicket(old(world), id, tag)
    {
      var (after, result) := PollModel.UpdateTicket(world, id, tag);
      world, err := after, result;
    }

    method AddTicketComment() returns (err: Option<Error>)
      modifies this
      ensures (world, err) == PollModel.AddTicketComment(old(world))
    {
      var (after, result) := PollModel.AddTicketComment(world);
      world, err := after, result;
    }
  }

  /** The row is as it was or as `row` says; the tracker was not called. */
  ghost predicate RowOnly(w: World, w': World, row: Row) {
    && w'.calls == w.calls && w'.s.tickets == w.s.tickets && w'.s.nextId == w.s.nextId
    && (w'.s.row == w.s.row || w'.s.row == row)
  }

  /** The row is stored and handed back. */
  ghost predicate StoredRow(w: World, outcome: Outcome, row: Row) {
    outcome.Ok? ==> w.s.row == outcome.value.repo == row
  }

  function StepOf(prepared: Result<Poll, Error>, now: string, faults: seq<Fault>): PollSafety.Step {
    match prepared
    case Ok(p) => PollSafety.PollStep(p, faults)
    case Err(error) => PollSafety.SetupFailure(Message(error), now, faults)
  }

  class Engine {
    const services: Services

    constructor (services: Services)
      ensures this.services == services
    {
      this.services := services;
    }

    /** A poll as a run makes it, of a row nobody edits meanwhile. `prepared` is what the set-up
        of the poll gave; a failed set-up is recorded and reported as an error evaluation even
        when it cannot be stored. Either way the engine takes one step of a history, and leaves
        what holds in all histories in place whatever the faults. */
    method PollRepo(prepared: Result<Poll, Error>, now: string, ghost before: State, ghost faults: seq<Fault>)
      returns (outcome: Outcome)
      requires services.world == PollSafety.Live(
                                   if prepared.Ok? then PollSafety.Observe(before, prepared.value) else before, faults)
      requires PollSafety.Core(before)
      modifies services
      ensures services.world.s == PollSafety.Apply(before, StepOf(prepared, now, faults))
      ensures PollSafety.Core(services.world.s)
      ensures PollSafety.Inv(before) && PollSafety.LegalStep(before, StepOf(prepared, now, faults)) ==>
                PollSafety.Inv(services.world.s)
      ensures prepared.Err? ==> outcome.Ok? && outcome.value.actions == [ErrorAction]
                                && RowOnly(old(services.world), services.world,
                                           before.row.(lastPolled := Some(now),
                                                       lastError := Some(Message(prepared.error))))
    {
      hide PollModel.EvaluateRepo, PollModel.RecordError, PollSafety.Inv, PollSafety.Core, PollSafety.LegalStep,
           Message;
      ghost var step := StepOf(prepared, now, faults);
      PollSafety.StepKeepsCore(before, step);
      if PollSafety.Inv(before) && PollSafety.LegalStep(before, step) { PollSafety.StepKeepsInv(before, step); }
      var repo := services.world.s.row;
      match prepared {
        case Ok(p) => outcome := this.EvaluateRepo(repo, p);
        case Err(error) =>
          outcome := this.RecordError(repo, Message(error), now);
          if outcome.Err? { outcome := Ok(Evaluation([ErrorAction], repo, Message(error), map[])); }
      }
    }

    /** EvaluateRepo. */
    method EvaluateRepo(repo: Row, p: Poll) returns (outcome: Outcome)
      modifies services
      ensures (services.world, outcome) == PollModel.EvaluateRepo(old(services.world), repo, p)
    {
      hide SettleOpenTicket, CreateFor, PollModel.SavePollState, PollModel.RecordError, PollModel.GetTicketStatus,
           Message;
      if p.fetched.Err? {
        outcome := this.RecordError(repo, Message(p.fetched.error), p.now);
        return;
      }
      var (decision, tag) := DecideTagChange(repo.lastKnown, p.fetched.value);
      match decision {
        case TagBaseline => outcome := ApplyBaseline(repo, p.fetched.value, tag, p.now);
        case TagSkip => outcome := ApplySkip(repo, p.now);
        case TagNew => outcome := ApplyNewTag(repo, p.fetched.value.value, p);
      }
    }

    method ApplyBaseline(repo: Row, release: Option<Release>, tag: Tag, now: string) returns (outcome: Outcome)
      modifies services
      ensures (services.world, outcome) ==
              (var (w, saved) := PollModel.SavePollState(old(services.world), BaselineRow(repo, release, tag, now),
                                                         None);
               Conclude(w, saved, [Baseline], "", map[Baseline := ReleaseRef(tag)]))
      ensures RowOnly(old(services.world), services.world, BaselineRow(repo, release, tag, now))
      ensures StoredRow(services.world, outcome, BaselineRow(repo, release, tag, now))
      ensures outcome.Ok? ==> services.world.s.row.lastKnown == if tag == "" then repo.lastKnown else Some(tag)
    {
      hide PollModel.SavePollState;
      var update := repo.(lastPolled := Some(now), lastError := None);
      if tag != "" {
        update := update.(lastKnown := Some(tag),
                          publishedAt := if release.None? then None else release.value.publishedAt);
      }
      var saved := this.SavePollState(update, None);
      if saved.Err? { return Err(saved.error); }
      outcome := Ok(Evaluation([Baseline], saved.value, "", map[Baseline := ReleaseRef(tag)]));
    }

    method ApplySkip(repo: Row, now: string) returns (outcome: Outcome)
      modifies services
      ensures (services.world, outcome) ==
              (var (w, saved) := PollModel.SavePollState(old(services.world),
                                                         repo.(lastPolled := Some(now), lastError := None), None);
               Conclude(w, saved, [Skip], "", map[]))
      ensures RowOnly(old(services.world), services.world, repo.(lastPolled := Some(now), lastError := None))
      ensures StoredRow(services.world, outcome, repo.(lastPolled := Some(now), lastError := None))
    {
      hide PollModel.SavePollState;
      var saved := this.SavePollState(repo.(lastPolled := Some(now), lastError := None), None);
      if saved.Err? { return Err(saved.error); }
      outcome := Ok(Evaluation([Skip], saved.value, "", map[]));
    }

    method ApplyNewTag(repo: Row, release: Release, p: Poll) returns (outcome: Outcome)
      modifies services
      ensures (services.world, outcome) ==
              if HasOpenTicket(repo) then
                var (w, live) := PollModel.GetTicketStatus(old(services.world), repo.openId.value);
                SettleOpenTicket(w, repo, repo.openId.value, live, release, p)
              else CreateFor(old(services.world), repo, release, p, None)
    {
      hide CreateFor, PollModel.SavePollState, PollModel.RecordError, PollModel.GetTicketStatus, Message, Classify,
           MergeInto;
      var repoForPolicy := repo;
      if HasOpenTicket(repo) {
        var live := services.GetTicketStatus(repo.openId.value);
        if live.Err? {
          outcome := this.RecordError(repo, Message(live.error), p.now);
          return;
        }
        match Classify(p.mapping, live.value) {
          case Done => repoForPolicy := ClearOpenTicket(repo);
          case Cancelled => repoForPolicy := ClearOpenTicket(repo);
          case Open =>
            outcome := ApplyOpenTicketPolicy(repo, release, p);
            return;
          case Unknown =>
            outcome := this.RecordError(repo, "unknown ticket status " + live.value, p.now);
            return;
        }
      }
      outcome := ApplyCreate(repoForPolicy, release, p);
    }

    method ApplyOpenTicketPolicy(repo: Row, release: Release, p: Poll) returns (outcome: Outcome)
      requires HasOpenTicket(repo)
      modifies services
      ensures forall live: Result<string, Error> | live.Ok? && Classify(p.mapping, live.value).Open? ::
                (services.world, outcome) == SettleOpenTicket(old(services.world), repo, repo.openId.value, live,
                                                              release, p)
    {
      hide CreateFor, PollModel.SavePollState, PollModel.RecordError, Message, Classify, MergeInto;
      var policy := p.policy;
      if policy == "" { policy := POLICY_SUPERSEDE; }
      if policy == POLICY_SUPERSEDE {
        outcome := ApplySupersede(repo, release, p);
      } else if policy == POLICY_MERGE {
        outcome := ApplyMerge(repo, release, p);
      } else if policy == POLICY_SKIP_IF_OPEN {
        outcome := ApplySkipIfOpen(repo, release, p);
      } else {
        outcome := this.RecordError(repo, "unknown on_open_ticket_policy " + policy, p.now);
      }
    }

    method ApplyCreate(repo: Row, release: Release, p: Poll) returns (outcome: Outcome)
      modifies services
      ensures (services.world, outcome) == CreateFor(old(services.world), repo, release, p, None)
    {
      hide PollModel.SavePollState, PollModel.RecordError, PollModel.RecordCreateFailure, PollModel.CreateTicket,
        PollModel.SaveCreatedTicket, Message, CreateDefinitelyNotStored, PendingTicketMessage;
      var refused := RefuseRepeatedCreate(repo, release.tag, p.now);
      if refused.Some? { return refused.value; }
      if p.content.Err? {
        outcome := this.RecordError(repo, Message(p.content.error), p.now);
        return;
      }
      var marked := MarkTicketPending(repo, release.tag);
      if marked.Err? { return Err(marked.error); }
      var created := services.CreateTicket(p.request, release.tag);
      if created.Err? {
        outcome := this.RecordCreateFailure(marked.value, Wrap("create ticket", created.error), p.now);
        return;
      }
      var saved := this.SaveCreatedTicket(LinkRow(repo, created.value, release, p.now), None);
      if saved.Err? { return Err(saved.error); }
      outcome := Ok(Evaluation([Create], saved.value, "", map[Create := TicketRef(created.value, release.tag)]));
    }

    method ApplySupersede(repo: Row, release: Release, p: Poll) returns (outcome: Outcome)
      requires HasOpenTicket(repo)
      modifies services
      ensures (services.world, outcome) ==
              if p.mapping.superseded == "" then
                PollModel.RecordError(old(services.world), repo, SUPERSEDED_STATUS_REQUIRED, p.now)
              else CreateFor(old(services.world), repo, release, p, repo.openId)
    {
      hide PollModel.SavePollState, PollModel.RecordError, PollModel.RecordCreateFailure, PollModel.CreateTicket,
        PollModel.SaveCreatedTicket, PollModel.SupersedeOldTicket, Message, CreateDefinitelyNotStored,
          PendingTicketMessage;
      var oldId := repo.openId.value;
      if p.mapping.superseded == "" {
        outcome := this.RecordError(repo, SUPERSEDED_STATUS_REQUIRED, p.now);
        return;
      }
      var refused := RefuseRepeatedCreate(repo, release.tag, p.now);
      if refused.Some? { return refused.value; }
      if p.content.Err? {
        outcome := this.RecordError(repo, Message(p.content.error), p.now);
        return;
      }
      var marked := MarkTicketPending(repo, release.tag);
      if marked.Err? { return Err(marked.error); }
      var created := services.CreateTicket(p.request, release.tag);
      if created.Err? {
        outcome := this.RecordCreateFailure(marked.value, Wrap("create ticket after supersede", created.error), p.now);
        return;
      }

      // The new ticket is stored before the old one is touched.
      var update := LinkRow(repo, created.value, release, p.now);
      var saved := this.SaveCreatedTicket(update, Some(oldId));
      if saved.Err? { return Err(saved.error); }
      var newRef := TicketRef(created.value, release.tag);

      var errs := this.SupersedeOldTicket(oldId, created.value, p);
      if errs != [] {
        var message := Message(Wrap("supersede ticket", Join(errs)));
        saved := this.SavePollState(update.(lastError := Some(message)), None);
        if saved.Err? { return Err(saved.error); }
        outcome := Ok(Evaluation([Create, ErrorAction], saved.value, message, map[Create := newRef]));
        return;
      }
      outcome := Ok(Evaluation([Supersede, Create], saved.value, "",
                               map[Supersede := TicketRef(oldId, release.tag), Create := newRef]));
    }

    method RefuseRepeatedCreate(repo: Row, tag: Tag, now: string) returns (refused: Option<Outcome>)
      modifies services
      ensures refused.Some? <==> repo.pending == Some(tag)
      ensures refused.None? ==> services.world == old(services.world)
      ensures refused.Some? ==>
                (services.world, refused.value) ==
                  PollModel.RecordError(old(services.world), repo, PendingTicketMessage(tag), now)
      ensures services.world.s.tickets == old(services.world).s.tickets
                && services.world.calls == old(services.world).calls
    {
      hide PollModel.RecordError, PendingTicketMessage;
      if repo.pending != Some(tag) { return None; }
      var outcome := this.RecordError(repo, PendingTicketMessage(tag), now);
      refused := Some(outcome);
    }

    method MarkTicketPending(repo: Row, tag: Tag) returns (marked: Result<Row, Error>)
      modifies services
      ensures var (w, saved) := PollModel.SavePollState(old(services.world), repo.(pending := Some(tag)), None);
              && services.world == w
              && marked == if saved.Err? then Err(Wrap("record pending ticket", saved.error))
                   else Ok(repo.(pending := Some(tag)))
      ensures RowOnly(old(services.world), services.world, repo.(pending := Some(tag)))
      ensures marked.Ok? ==> services.world.s.row == marked.value && marked.value.pending == Some(tag)
    {
      hide PollModel.SavePollState;
      var saved := this.SavePollState(repo.(pending := Some(tag)), None);
      if saved.Err? { return Err(Wrap("record pending ticket", saved.error)); }
      marked := Ok(repo.(pending := Some(tag)));
    }

    method RecordCreateFailure(repo: Row, err: Error, now: string) returns (outcome: Outcome)
      modifies services
      ensures (services.world, outcome) == PollModel.RecordCreateFailure(old(services.world), repo, err, now)
      ensures outcome.Ok? ==>
                services.world.s.row.pending == if CreateDefinitelyNotStored(err) then None else repo.pending
    {
      hide PollModel.RecordError, Message, CreateDefinitelyNotStored;
      var kept := repo;
      if CreateDefinitelyNotStored(err) { kept := kept.(pending := None); }
      outcome := this.RecordError(kept, Message(err), now);
    }

    /** saveCreatedTicket: a bounded number of attempts, cut short when the context is done. */
    method SaveCreatedTicket(update: Row, outgoing: Option<TicketId>) returns (saved: Result<Row, Error>)
      modifies services
      ensures (services.world, saved) == PollModel.SaveCreatedTicket(old(services.world), update, outgoing, 1)
    {
      hide PollModel.SavePollState, PollModel.ContextDone;
      var attempt := 1;
      while true
        invariant 1 <= attempt <= LINK_WRITE_ATTEMPTS
        invariant PollModel.SaveCreatedTicket(services.world, update, outgoing, attempt)
               == PollModel.SaveCreatedTicket(old(services.world), update, outgoing, 1)
        decreases LINK_WRITE_ATTEMPTS - attempt
      {
        saved := this.SavePollState(update, outgoing);
        if saved.Ok? { return; }
        var lastErr := saved.error;
        if attempt == LINK_WRITE_ATTEMPTS {
          return Err(Wrap(LINK_NOT_SAVED, lastErr));
        }
        var done := services.ContextDone();
        if done {
          return Err(Wrap(LINK_NOT_SAVED, Join([lastErr, Text("context done")])));
        }
        attempt := attempt + 1;
      }
    }

    method SupersedeOldTicket(oldId: TicketId, newId: TicketId, p: Poll) returns (errs: seq<Error>)
      modifies services
      ensures (services.world, errs) == PollModel.SupersedeOldTicket(old(services.world), oldId, newId, p)
    {
      hide PollModel.UpdateTicketStatus, PollModel.AddTicketComment;
      var comment := SupersedeComment(p);
      errs := if comment.Err? then [comment.error] else [];
      var failed := services.UpdateTicketStatus(oldId, p.mapping.superseded, newId);
      errs := errs + if failed.Some? then [Wrap("status", failed.value)] else [];
      if comment.Ok? {
        failed := services.AddTicketComment();
        if failed.Some? { errs := errs + [Wrap("comment", failed.value)]; }
      }
    }

    method ApplyMerge(repo: Row, release: Release, p: Poll) returns (outcome: Outcome)
      requires HasOpenTicket(repo)
      modifies services
      ensures (services.world, outcome) == MergeInto(old(services.world), repo, repo.openId.value, release, p)
    {
      hide PollModel.RecordError, PollModel.SavePollState, PollModel.UpdateTicket, Message;
      var oldId := repo.openId.value;
      if p.content.Err? {
        outcome := this.RecordError(repo, Message(p.content.error), p.now);
        return;
      }
      var failed := services.UpdateTicket(oldId, release.tag);
      if failed.Some? {
        outcome := this.RecordError(repo, Message(Wrap("merge ticket", failed.value)), p.now);
        return;
      }
      var update := repo.(openTag := Some(release.tag), lastKnown := Some(release.tag),
                          publishedAt := release.publishedAt,
                          lastPolled := Some(p.now), lastError := None);
      var saved := this.SavePollState(update, None);
      if saved.Err? { return Err(saved.error); }
      outcome := Ok(Evaluation([Merge], saved.value, "", map[Merge := TicketRef(oldId, release.tag)]));
    }

    method ApplySkipIfOpen(repo: Row, release: Release, p: Poll) returns (outcome: Outcome)
      modifies services
      ensures (services.world, outcome) ==
              (var (w, saved) := PollModel.SavePollState(old(services.world), KnownRow(repo, release, p.now), None);
               Conclude(w, saved, [SkipOpen], "", map[SkipOpen := ReleaseRef(release.tag)]))
      ensures RowOnly(old(services.world), services.world, KnownRow(repo, release, p.now))
      ensures StoredRow(services.world, outcome, KnownRow(repo, release, p.now))
      ensures outcome.Ok? ==> services.world.s.row.openId == repo.openId && services.world.s.row.openTag == repo.openTag
    {
      hide PollModel.SavePollState;
      var update := repo.(lastKnown := Some(release.tag), publishedAt := release.publishedAt,
                          lastPolled := Some(p.now), lastError := None);
      var saved := this.SavePollState(update, None);
      if saved.Err? { return Err(saved.error); }
      outcome := Ok(Evaluation([SkipOpen], saved.value, "", map[SkipOpen := ReleaseRef(release.tag)]));
    }

    /** savePollState: stored state counts as saved even if the targets could not be re-read. */
    method SavePollState(update: Row, outgoing: Option<TicketId>) returns (saved: Result<Row, Error>)
      modifies services
      ensures (services.world, saved) == PollModel.SavePollState(old(services.world), update, outgoing)
      ensures RowOnly(old(services.world), services.world, update)
      ensures saved.Ok? ==> services.world.s.row == saved.value == update
    {
      WriteTouchesRowOnly(services.world, update, outgoing);
      hide PollModel.UpdatePollState;
      var r := services.UpdatePollState(update, outgoing);
      match r {
        case Written(row) => saved := Ok(row);
        case WrittenTargetsUnread(row) => saved := Ok(row);
        case Failed(err) => saved := Err(err);
      }
    }

    method RecordError(repo: Row, message: string, now: string) returns (outcome: Outcome)
      modifies services
      ensures (services.world, outcome) == PollModel.RecordError(old(services.world), repo, message, now)
      ensures RowOnly(old(services.world), services.world, repo.(lastPolled := Some(now), lastError := Some(message)))
      ensures StoredRow(services.world, outcome, repo.(lastPolled := Some(now), lastError := Some(message)))
      ensures outcome.Ok? ==> outcome.value.actions == [ErrorAction]
    {
      hide PollModel.SavePollState;
      var saved := this.SavePollState(repo.(lastPolled := Some(now), lastError := Some(message)), None);
      if saved.Err? { return Err(saved.error); }
      outcome := Ok(Evaluation([ErrorAction], saved.value, message, map[]));
    }
  }

  lemma WriteTouchesRowOnly(w: World, update: Row, outgoing: Option<TicketId>)
    ensures var (w', r) := PollModel.UpdatePollState(w, update, outgoing);
            && RowOnly(w, w', update)
            && (!r.Failed? ==> w'.s.row == r.row == update)
  {}
}
