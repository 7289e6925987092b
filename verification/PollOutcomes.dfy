/** What the actions a poll reports say about the row and the tickets: every report is true,
    whatever failed on the way, and an undisturbed poll reports what the settings call for. */
module PollOutcomes {
  import opened Wrappers
  import opened TicketErrors
  import opened StatusMapping
  import opened PollModel
  import opened PollSafety
  import opened PollConvergence
  import opened PollTickets
  import Strings
  import Jira

  // ---- true reports ------------------------------------------------------------------------------

  /** The tickets are the ones of before, untouched. */
  predicate SameTickets(s: State, w: World) {
    w.s.tickets == s.tickets && w.s.moved == s.moved
  }

  /** A first sighting: the tag is known from now on, if the release has one. */
  predicate BaselineTold(s: State, w: World, p: Poll) {
    && s.row.lastKnown.None? && p.fetched.Ok? && w.calls == 0 && SameTickets(s, w)
    && var polled := s.row.(lastPolled := Some(p.now), lastError := None);
       if p.fetched.value.None? || p.fetched.value.value.tag == "" then w.s.row == polled
       else
         w.s.row == polled.(lastKnown := Some(p.fetched.value.value.tag),
                            publishedAt := p.fetched.value.value.publishedAt)
  }

  /** Nothing new: the time of the poll is noted and the error cleared. */
  predicate SkipTold(s: State, w: World, p: Poll) {
    && s.row.lastKnown.Some? && p.fetched.Ok? && w.calls == 0 && SameTickets(s, w)
    && (p.fetched.value.Some? ==> p.fetched.value.value.tag == s.row.lastKnown.value)
    && w.s.row == s.row.(lastPolled := Some(p.now), lastError := None)
  }

  /** The poll saw a release other than the known one. */
  predicate SawNew(s: State, p: Poll) {
    && p.fetched.Ok? && p.fetched.value.Some?
    && s.row.lastKnown.Some? && s.row.lastKnown.value != p.fetched.value.value.tag
  }

  /** How the linked ticket reads under the mapping of the poll. */
  predicate LinkedReads(s: State, p: Poll, classes: set<Class>) {
    && s.row.openId.Some? && s.row.openId.value != NO_TEXT && s.row.openId.value in s.tickets
    && Classify(p.mapping, s.tickets[s.row.openId.value].status) in classes
  }

  /** A new ticket for the release, acknowledged, is the linked one. */
  predicate CreateTold(s: State, w: World, p: Poll, lastError: Option<string>)
    requires SawNew(s, p)
  {
    var release := p.fetched.value.value;
    && s.row.pending != Some(release.tag)
    && w.s.row.openId.Some?
    && var id := w.s.row.openId.value;
       && id !in s.tickets && id in w.s.tickets
       && w.s.tickets[id].tag == release.tag && w.s.tickets[id].acked && w.s.tickets[id].epoch == s.epoch
       && w.s.row == Row(Some(id), Some(release.tag), Some(release.tag), release.publishedAt, Some(p.now),
                         lastError, None)
  }

  /** Apart from the one that was superseded, no older ticket was touched. */
  predicate OldUntouched(s: State, w: World, superseded: set<TicketId>) {
    forall id | id in s.tickets :: id in w.s.tickets && (id !in superseded ==> w.s.tickets[id] == s.tickets[id])
  }

  /** The older ticket is in the superseded status, in favour of the linked one. */
  predicate SupersedeTold(s: State, w: World, p: Poll) {
    && s.row.openId.Some? && s.row.openId.value in w.s.tickets && w.s.row.openId.Some?
    && w.s.tickets[s.row.openId.value].status == p.mapping.superseded
    && s.row.openId.value in w.s.moved && w.s.moved[s.row.openId.value] == w.s.row.openId.value
  }

  /** The linked ticket shows the release, and is otherwise as it was. */
  predicate MergeTold(s: State, w: World, p: Poll)
    requires SawNew(s, p)
  {
    var release := p.fetched.value.value;
    && s.row.openId.Some? && s.row.openId.value in s.tickets
    && w.s.tickets == s.tickets[s.row.openId.value := s.tickets[s.row.openId.value].(shows := release.tag)]
    && w.s.row == s.row.(openTag := Some(release.tag), lastKnown := Some(release.tag),
                         publishedAt := release.publishedAt,
                         lastPolled := Some(p.now), lastError := None)
  }

  /** The release is known; the ticket and its link are as they were. */
  predicate SkipOpenTold(s: State, w: World, p: Poll)
    requires SawNew(s, p)
  {
    var release := p.fetched.value.value;
    && w.calls == 1 && SameTickets(s, w)
    && w.s.row == s.row.(lastKnown := Some(release.tag), publishedAt := release.publishedAt, lastPolled := Some(p.now),
                         lastError := None)
  }

  predicate LinkKeptOrLetGo(s: State, p: Poll, row: Row) {
    || (row.openId == s.row.openId && row.openTag == s.row.openTag)
    || (row.openId.None? && row.openTag.None? && LinkedReads(s, p, {Done, Cancelled}))
  }

  predicate MarkerKeptOrMoved(s: State, p: Poll, row: Row) {
    || row.pending == s.row.pending
    || (SawNew(s, p) && s.row.pending != Some(p.fetched.value.value.tag)
        && row.pending in {None, Some(p.fetched.value.value.tag)})
  }

  /** The error is on the row, and the release is as unknown as before. A link goes only if its
      ticket reads as done or cancelled; a marker for the release stays, and any other marker
      changes only where a new release was seen. */
  predicate ErrorTold(s: State, w: World, p: Poll, detail: string) {
    && w.s.row.lastError == Some(detail) && w.s.row.lastPolled == Some(p.now)
    && w.s.row.lastKnown == s.row.lastKnown && w.s.row.publishedAt == s.row.publishedAt
    && LinkKeptOrLetGo(s, p, w.s.row) && MarkerKeptOrMoved(s, p, w.s.row)
  }

  /** The event of `action` names the ticket and the release. */
  predicate Names(e: Evaluation, action: Action, ticket: Option<TicketId>, p: Poll)
    requires p.fetched.Ok? && p.fetched.value.Some?
  {
    var tag := p.fetched.value.value.tag;
    action in e.refs && e.refs[action] == EventRef(ticket, if tag == "" then None else Some(tag))
  }

  /** The report `e` is true of the state the poll left. */
  ghost predicate TrueReport(s: State, w: World, p: Poll, e: Evaluation) {
    && !w.crashed && e.repo == w.s.row
    && if e.actions == [Baseline] then BaselineTold(s, w, p)
       else if e.actions == [Skip] then SkipTold(s, w, p)
       else if e.actions == [ErrorAction] then ErrorTold(s, w, p, e.detail)
       else
         && SawNew(s, p)
         && if e.actions == [Create] then
              && CreateTold(s, w, p, None) && OldUntouched(s, w, {}) && Names(e, Create, w.s.row.openId, p)
              && (!HasOpenTicket(s.row) || LinkedReads(s, p, {Done, Cancelled}))
            else if e.actions == [Supersede, Create] then
              && CreateTold(s, w, p, None) && SupersedeTold(s, w, p) && LinkedReads(s, p, {Open})
              && OldUntouched(s, w, {s.row.openId.value}) && p.policy in {"", "supersede"}
              && Names(e, Supersede, s.row.openId, p) && Names(e, Create, w.s.row.openId, p)
            else if e.actions == [Create, ErrorAction] then
              && CreateTold(s, w, p, Some(e.detail)) && LinkedReads(s, p, {Open})
              && OldUntouched(s, w, {s.row.openId.value}) && p.policy in {"", "supersede"}
              && Names(e, Create, w.s.row.openId, p)
            else if e.actions == [Merge] then
              && MergeTold(s, w, p) && LinkedReads(s, p, {Open}) && p.policy == "merge"
              && Names(e, Merge, s.row.openId, p)
            else
              && e.actions == [SkipOpen] && SkipOpenTold(s, w, p) && LinkedReads(s, p, {Open})
              && p.policy == "skip_if_open" && Names(e, SkipOpen, None, p)
  }

  ghost predicate OutcomeTrue(s: State, w: World, p: Poll, outcome: Outcome) {
    outcome.Ok? ==> TrueReport(s, w, p, outcome.value)
  }

  // ---- single writes --------------------------------------------------------------------------

  lemma SaveTells(w: World, update: Row, outgoing: Option<TicketId>)
    ensures var (w', saved) := SavePollState(w, update, outgoing);
            && w'.calls == w.calls && w'.s.tickets == w.s.tickets && w'.s.moved == w.s.moved
            && (saved.Ok? ==> !w'.crashed && w'.s.row == saved.value == update)
  {}

  lemma RecordTells(s: State, w: World, base: Row, message: string, p: Poll)
    requires base.lastKnown == s.row.lastKnown && base.publishedAt == s.row.publishedAt
    requires LinkKeptOrLetGo(s, p, base) && MarkerKeptOrMoved(s, p, base)
    ensures var (w', outcome) := RecordError(w, base, message, p.now);
            && OutcomeTrue(s, w', p, outcome) && (outcome.Ok? ==> outcome.value.actions == [ErrorAction])
  {
    hide SavePollState;
    DifferentReports();
    var update := base.(lastPolled := Some(p.now), lastError := Some(message));
    SaveTells(w, update, None);
    var (w1, saved) := SavePollState(w, update, None);
    assert saved.Ok? ==> !w1.crashed && w1.s.row == saved.value;
  }

  lemma DifferentReports()
    ensures [Baseline] != [Skip] && [ErrorAction] != [Baseline] && [ErrorAction] != [Skip]
    ensures forall a, rest | a in {Create, Supersede, Merge, SkipOpen} ::
              [a] + rest != [Baseline] && [a] + rest != [Skip] && [a] + rest != [ErrorAction]
    ensures [Merge] != [Create] && [SkipOpen] != [Create] && [SkipOpen] != [Merge]
    ensures [Create] + [] == [Create] && [Merge] + [] == [Merge] && [SkipOpen] + [] == [SkipOpen]
    ensures [Supersede] + [Create] == [Supersede, Create] && [Create] + [ErrorAction] == [Create, ErrorAction]
  {
    assert [Baseline][0] == Baseline && [Skip][0] == Skip && [ErrorAction][0] == ErrorAction;
    assert [Merge][0] == Merge && [Create][0] == Create && [SkipOpen][0] == SkipOpen;
    forall a, rest | a in {Create, Supersede, Merge, SkipOpen}
      ensures [a] + rest != [Baseline] && [a] + rest != [Skip] && [a] + rest != [ErrorAction]
    {
      assert ([a] + rest)[0] == a;
    }
  }

  lemma {:induction false} LinkTells(w: World, update: Row, outgoing: Option<TicketId>, attempt: nat)
    ensures var (w', saved) := SaveCreatedTicket(w, update, outgoing, attempt);
            && w'.s.tickets == w.s.tickets && w'.s.moved == w.s.moved
            && (saved.Ok? ==> !w'.crashed && w'.s.row == saved.value == update)
    decreases LINK_WRITE_ATTEMPTS - attempt
  {
    hide SavePollState, LINK_NOT_SAVED;
    SaveTells(w, update, outgoing);
    var (w1, saved) := SavePollState(w, update, outgoing);
    if saved.Err? && attempt < LINK_WRITE_ATTEMPTS {
      var (w2, done) := ContextDone(w1);
      if !done { LinkTells(w2, update, outgoing, attempt + 1); }
    }
  }

  // ---- creating, superseding and merging ------------------------------------------------------

  /** Tickets added next to the old ones. */
  predicate Added(s: State, s': State) {
    && s'.moved == s.moved && s'.epoch == s.epoch && s'.row == s.row
    && (forall id | id in s.tickets :: id in s'.tickets && s'.tickets[id] == s.tickets[id])
  }

  lemma CreateTells(w: World, request: Jira.Request, tag: Tag)
    requires IdsBelow(w.s)
    ensures var (w', created) := CreateTicket(w, request, tag);
            && Added(w.s, w'.s)
            && (created.Ok? ==>
                  && created.value !in w.s.tickets && created.value in w'.s.tickets && !w'.crashed
                  && w'.s.tickets[created.value].tag == tag && w'.s.tickets[created.value].acked
                  && w'.s.tickets[created.value].epoch == w.s.epoch)
  {
    hide Jira.CreateTicket;
    if !w.crashed {
      var f := BeginCall(w).0;
      var ticket := Ticket(tag, tag, f.status, w.s.epoch, w.s.source, false, w.s.row);
      var n := Jira.CreateTicket(request, f.cancelled, f.first, f.second).stored;
      AddedTickets(w.s, ticket, n);
      AddedTickets(w.s, ticket, 0);
    }
  }

  /** What superseding does to the tickets, and whether it is complete. */
  lemma SupersedeTells(w: World, oldId: TicketId, newId: TicketId, p: Poll)
    ensures var (w', errs) := SupersedeOldTicket(w, oldId, newId, p);
            && w'.s.row == w.s.row
            && (forall id | id in w.s.tickets ::
                id in w'.s.tickets && (id != oldId ==> w'.s.tickets[id] == w.s.tickets[id]))
            && (errs == [] ==>
                  && oldId in w'.s.tickets && w'.s.tickets[oldId].status == p.mapping.superseded
                  && oldId in w'.s.moved && w'.s.moved[oldId] == newId && !w'.crashed)
  {
    hide SupersedeComment, UpdateTicketStatus, AddTicketComment;
    StatusTells(w, oldId, p.mapping.superseded, newId);
    var (w1, status) := UpdateTicketStatus(w, oldId, p.mapping.superseded, newId);
    CommentTells(w1);
    var (w2, commented) := AddTicketComment(w1);
    assert commented.None? ==> !w2.crashed;
    assert status.Some? ==> [Wrap("status", status.value)] != [];
  }

  lemma StatusTells(w: World, oldId: TicketId, status: string, newId: TicketId)
    ensures var (w', failed) := UpdateTicketStatus(w, oldId, status, newId);
            && w'.s.row == w.s.row
            && (forall id | id in w.s.tickets ::
                id in w'.s.tickets && (id != oldId ==> w'.s.tickets[id] == w.s.tickets[id]))
            && (failed.None? ==>
                  && oldId in w'.s.tickets && w'.s.tickets[oldId].status == status
                  && oldId in w'.s.moved && w'.s.moved[oldId] == newId && !w'.crashed)
  {
    hide Strings.TrimSpace;
  }

  lemma CommentTells(w: World)
    ensures var (w', failed) := AddTicketComment(w);
            w'.s == w.s && (failed.None? ==> !w'.crashed)
  {}

  lemma FinishTells(w: World, link: Row, oldId: TicketId, newId: TicketId, p: Poll, tag: Tag, ref: EventRef)
    requires w.s.row == link
    ensures var (w', outcome) := FinishSupersede(w, link, link, oldId, newId, p, tag, ref);
            && (forall id | id in w.s.tickets ::
                id in w'.s.tickets && (id != oldId ==> w'.s.tickets[id] == w.s.tickets[id]))
            && (outcome.Ok? ==>
                  && !w'.crashed && outcome.value.repo == w'.s.row
                  && Create in outcome.value.refs && outcome.value.refs[Create] == ref
                  && if outcome.value.actions == [Supersede, Create] then
                       && w'.s.row == link && oldId in w'.s.tickets
                       && w'.s.tickets[oldId].status == p.mapping.superseded
                       && oldId in w'.s.moved && w'.s.moved[oldId] == newId
                       && Supersede in outcome.value.refs && outcome.value.refs[Supersede] == TicketRef(oldId, tag)
                     else
                       && outcome.value.actions == [Create, ErrorAction]
                       && w'.s.row == link.(lastError := Some(outcome.value.detail)))
  {
    hide SupersedeOldTicket, SavePollState, Message;
    DifferentReports();
    SupersedeTells(w, oldId, newId, p);
    var (w1, errs) := SupersedeOldTicket(w, oldId, newId, p);
    assert [Create, ErrorAction][0] == Create && [Supersede, Create][0] == Supersede;
    var update := link.(lastError := Some(Message(Wrap("supersede ticket", Join(errs)))));
    SaveTells(w1, update, None);
    var (w2, again) := SavePollState(w1, update, None);
    assert again.Ok? ==> !w2.crashed && w2.s.row == again.value;
  }

  /** The conditions under which a create is a supersede, or not. */
  predicate CreateFits(s: State, p: Poll, base: Row, outgoing: Option<TicketId>) {
    && (outgoing.None? ==>
          if HasOpenTicket(s.row) then base == ClearOpenTicket(s.row) && LinkedReads(s, p, {Done, Cancelled})
          else base == s.row)
    && (outgoing.Some? ==> base == s.row && outgoing == s.row.openId && LinkedReads(s, p, {Open})
                           && p.policy in {"", "supersede"})
  }

  lemma CreateForTells(s: State, w: World, base: Row, release: Release, p: Poll, outgoing: Option<TicketId>)
    requires SawNew(s, p) && release == p.fetched.value.value && w.s == s && IdsBelow(s)
    requires CreateFits(s, p, base, outgoing)
    ensures var (w', outcome) := CreateFor(w, base, release, p, outgoing); OutcomeTrue(s, w', p, outcome)
  {
    hide SavePollState, RecordError, CreateTicket, AfterCreate, Message, PendingTicketMessage, OutcomeTrue;
    if base.pending == Some(release.tag) {
      RecordTells(s, w, base, PendingTicketMessage(release.tag), p);
    } else if p.content.Err? {
      RecordTells(s, w, base, Message(p.content.error), p);
    } else {
      var marked := base.(pending := Some(release.tag));
      SaveTells(w, marked, None);
      SaveKeeps(w, marked, None);
      var (w1, mark) := SavePollState(w, marked, None);
      if mark.Err? {
        FailureTellsNothing(s, w1, p, Wrap("record pending ticket", mark.error));
      } else {
        CreateTells(w1, p.request, release.tag);
        var (w2, created) := CreateTicket(w1, p.request, release.tag);
        AfterCreateTells(s, w1, w2, created, base, release, p, outgoing);
      }
    }
  }

  lemma FailureTellsNothing(s: State, w: World, p: Poll, error: Error)
    ensures OutcomeTrue(s, w, p, Err(error))
  {}

  lemma AfterCreateTells(s: State, w1: World, w2: World, created: Result<TicketId, Error>, base: Row, release: Release,
                         p: Poll, outgoing: Option<TicketId>)
    requires SawNew(s, p) && release == p.fetched.value.value && CreateFits(s, p, base, outgoing)
    requires base.pending != Some(release.tag)
    requires w1.s.tickets == s.tickets && w1.s.moved == s.moved && w1.s.epoch == s.epoch && Added(w1.s, w2.s)
    requires created.Ok? ==>
               && created.value !in s.tickets && created.value in w2.s.tickets
               && w2.s.tickets[created.value].tag == release.tag && w2.s.tickets[created.value].acked
               && w2.s.tickets[created.value].epoch == s.epoch
    ensures var (w', outcome) := AfterCreate(w2, created, base, release, p, outgoing); OutcomeTrue(s, w', p, outcome)
  {
    hide RecordError, SaveCreatedTicket, FinishSupersede, CreateContext, Message, CreateDefinitelyNotStored,
         OutcomeTrue, Classify;
    if created.Err? {
      var err := Wrap(CreateContext(outgoing), created.error);
      var marked := base.(pending := Some(release.tag));
      RecordTells(s, w2, if CreateDefinitelyNotStored(err) then marked.(pending := None) else marked, Message(err), p);
    } else {
      var link := LinkRow(base, created.value, release, p.now);
      LinkTells(w2, link, outgoing, 1);
      var (w3, saved) := SaveCreatedTicket(w2, link, outgoing, 1);
      if saved.Err? {
        FailureTellsNothing(s, w3, p, saved.error);
      } else {
        AfterLinkTells(s, w3, link, created.value, release, p, outgoing);
      }
    }
  }

  lemma AfterLinkTells(s: State, w: World, link: Row, newId: TicketId, release: Release, p: Poll,
                       outgoing: Option<TicketId>)
    requires SawNew(s, p) && release == p.fetched.value.value
    requires s.row.pending != Some(release.tag) && !w.crashed && w.s.row == link
    requires link == Row(Some(newId), Some(release.tag), Some(release.tag), release.publishedAt, Some(p.now), None,
                         None)
    requires newId !in s.tickets && newId in w.s.tickets
    requires w.s.tickets[newId].tag == release.tag && w.s.tickets[newId].acked && w.s.tickets[newId].epoch == s.epoch
    requires OldUntouched(s, w, {})
    requires outgoing.None? ==> !HasOpenTicket(s.row) || LinkedReads(s, p, {Done, Cancelled})
    requires outgoing.Some? ==> outgoing == s.row.openId && LinkedReads(s, p, {Open}) && p.policy in {"", "supersede"}
    ensures var (w', outcome) := AfterLink(w, Ok(link), link, newId, release, p, outgoing);
            OutcomeTrue(s, w', p, outcome)
  {
    hide FinishSupersede, Classify;
    DifferentReports();
    if outgoing.Some? {
      FinishTells(w, link, outgoing.value, newId, p, release.tag, TicketRef(newId, release.tag));
      assert [Supersede, Create][0] == Supersede && [Create, ErrorAction] != [Create];
    }
  }

  lemma MergeTells(s: State, w: World, release: Release, p: Poll)
    requires SawNew(s, p) && release == p.fetched.value.value && w.s == s
    requires LinkedReads(s, p, {Open}) && p.policy == "merge"
    ensures var (w', outcome) := MergeInto(w, s.row, s.row.openId.value, release, p); OutcomeTrue(s, w', p, outcome)
  {
    hide SavePollState, RecordError, Message, Classify;
    DifferentReports();
    if p.content.Err? {
      RecordTells(s, w, s.row, Message(p.content.error), p);
    } else {
      var (w1, failed) := UpdateTicket(w, s.row.openId.value, release.tag);
      if failed.Some? {
        RecordTells(s, w1, s.row, Message(Wrap("merge ticket", failed.value)), p);
      } else {
        var update := KnownRow(s.row, release, p.now).(openTag := Some(release.tag));
        SaveTells(w1, update, None);
        var (w2, saved) := SavePollState(w1, update, None);
        assert saved.Ok? ==> !w2.crashed && w2.s.row == saved.value;
      }
    }
  }

  /** Every report is true: of a poll of any state in order, with any faults. */
  lemma ReportsAreTrue(s: State, p: Poll, faults: seq<Fault>)
    requires Core(s)
    ensures var (w, outcome) := PollOnce(s, p, faults); OutcomeTrue(Observe(s, p), w, p, outcome)
  {
    var o, w := Observe(s, p), Live(Observe(s, p), faults);
    IdsAreGivenOut(s);
    hide Core, SavePollState, RecordError, CreateFor, SettleOpenTicket, GetTicketStatus, Message, OutcomeTrue,
         Conclude;
    if p.fetched.Err? {
      RecordTells(o, w, s.row, Message(p.fetched.error), p);
    } else if DecideTagChange(s.row.lastKnown, p.fetched.value).0.TagNew? {
      NewTagTells(o, w, p.fetched.value.value, p);
    } else {
      QuietTells(o, w, p);
    }
  }

  /** A poll that ends with a baseline or a skip. */
  lemma QuietTells(s: State, w: World, p: Poll)
    requires p.fetched.Ok? && w.s == s && w.calls == 0
    ensures var (decision, tag) := DecideTagChange(s.row.lastKnown, p.fetched.value);
            && (decision.TagBaseline? ==>
                  var (w1, saved) := SavePollState(w, BaselineRow(s.row, p.fetched.value, tag, p.now), None);
                  var (w', outcome) := Conclude(w1, saved, [Baseline], "", map[Baseline := ReleaseRef(tag)]);
                  OutcomeTrue(s, w', p, outcome))
            && (decision.TagSkip? ==>
                  var (w1, saved) := SavePollState(w, s.row.(lastPolled := Some(p.now), lastError := None), None);
                  var (w', outcome) := Conclude(w1, saved, [Skip], "", map[]);
                  OutcomeTrue(s, w', p, outcome))
  {
    hide SavePollState;
    DifferentReports();
    var (decision, tag) := DecideTagChange(s.row.lastKnown, p.fetched.value);
    if decision.TagBaseline? {
      SaveTells(w, BaselineRow(s.row, p.fetched.value, tag, p.now), None);
      var (w1, saved) := SavePollState(w, BaselineRow(s.row, p.fetched.value, tag, p.now), None);
      assert saved.Ok? ==> BaselineTold(s, w1, p) && !w1.crashed;
    } else if decision.TagSkip? {
      SaveTells(w, s.row.(lastPolled := Some(p.now), lastError := None), None);
      var (w1, saved) := SavePollState(w, s.row.(lastPolled := Some(p.now), lastError := None), None);
      assert saved.Ok? ==> SkipTold(s, w1, p) && !w1.crashed;
    }
  }

  lemma NewTagTells(s: State, w: World, release: Release, p: Poll)
    requires SawNew(s, p) && release == p.fetched.value.value
    requires w.s == s && w.calls == 0 && !w.crashed && IdsBelow(s)
    ensures HasOpenTicket(s.row) ==>
              var (w1, live) := GetTicketStatus(w, s.row.openId.value);
              var (w', outcome) := SettleOpenTicket(w1, s.row, s.row.openId.value, live, release, p);
              OutcomeTrue(s, w', p, outcome)
    ensures !HasOpenTicket(s.row) ==>
              var (w', outcome) := CreateFor(w, s.row, release, p, None);
              OutcomeTrue(s, w', p, outcome)
  {
    hide CreateFor, SettleOpenTicket, GetTicketStatus, OutcomeTrue;
    if HasOpenTicket(s.row) {
      LiveTells(w, s.row.openId.value, p.mapping);
      var (w1, live) := GetTicketStatus(w, s.row.openId.value);
      SettleTells(s, w1, live, release, p);
    } else {
      CreateForTells(s, w, s.row, release, p, None);
    }
  }

  lemma LiveTells(w: World, id: TicketId, m: Mapping)
    ensures var (w1, live) := GetTicketStatus(w, id);
            && w1.s == w.s && (!w.crashed ==> w1.calls == w.calls + 1)
            && (live.Ok? ==> id in w.s.tickets && Classify(m, live.value) == Classify(m, w.s.tickets[id].status))
  {
    hide Classify, Strings.TrimSpace;
    if id in w.s.tickets { OuterBlanksDoNotMatter(m, w.s.tickets[id].status); }
  }

  lemma SettleTells(s: State, w: World, live: Result<string, Error>, release: Release, p: Poll)
    requires SawNew(s, p) && release == p.fetched.value.value && w.s == s && IdsBelow(s) && w.calls == 1
    requires HasOpenTicket(s.row)
    requires live.Ok? ==> LinkedReads(s, p, {Classify(p.mapping, live.value)})
    ensures var (w', outcome) := SettleOpenTicket(w, s.row, s.row.openId.value, live, release, p);
            OutcomeTrue(s, w', p, outcome)
  {
    hide CreateFor, MergeInto, SavePollState, RecordError, Message, Classify;
    DifferentReports();
    if live.Err? {
      RecordTells(s, w, s.row, Message(live.error), p);
    } else {
      match Classify(p.mapping, live.value)
      case Unknown => RecordTells(s, w, s.row, "unknown ticket status " + live.value, p);
      case Done => CreateForTells(s, w, ClearOpenTicket(s.row), release, p, None);
      case Cancelled => CreateForTells(s, w, ClearOpenTicket(s.row), release, p, None);
      case Open => OpenTells(s, w, live, release, p);
    }
  }

  lemma OpenTells(s: State, w: World, live: Result<string, Error>, release: Release, p: Poll)
    requires SawNew(s, p) && release == p.fetched.value.value && w.s == s && IdsBelow(s) && w.calls == 1
    requires LinkedReads(s, p, {Open}) && live.Ok? && Classify(p.mapping, live.value) == Open
    ensures var (w', outcome) := SettleOpenTicket(w, s.row, s.row.openId.value, live, release, p);
            OutcomeTrue(s, w', p, outcome)
  {
    hide CreateFor, MergeInto, SavePollState, RecordError, Message, Classify;
    DifferentReports();
    PoliciesDiffer();
    var policy := EffectivePolicy(p);
    if policy == POLICY_SUPERSEDE {
      RecordTells(s, w, s.row, SUPERSEDED_STATUS_REQUIRED, p);
      CreateForTells(s, w, s.row, release, p, s.row.openId);
    } else if policy == POLICY_MERGE {
      MergeTells(s, w, release, p);
    } else if policy == POLICY_SKIP_IF_OPEN {
      SaveTells(w, KnownRow(s.row, release, p.now), None);
      var (w1, saved) := SavePollState(w, KnownRow(s.row, release, p.now), None);
      assert saved.Ok? ==> !w1.crashed && w1.s.row == saved.value;
    } else {
      RecordTells(s, w, s.row, "unknown on_open_ticket_policy " + policy, p);
    }
  }

  lemma PoliciesDiffer()
    ensures "" != "supersede" && "supersede" != "merge" && "merge" != "skip_if_open" && "supersede" != "skip_if_open"
    ensures "" != "merge" && "" != "skip_if_open"
  {
    assert |"supersede"| == 9 && |"merge"| == 5 && |"skip_if_open"| == 12;
  }

  // ---- what an undisturbed poll reports -----------------------------------------------------------

  /** The supersede comment can be made, and the old ticket moved. */
  predicate CanFinish(p: Poll) {
    Strings.TrimSpace(p.mapping.superseded) != "" && p.newTicketUrl.Ok? && p.comment.Ok? && p.comment.value != ""
  }

  /** The actions that a new release calls for. */
  function Due(s: State, p: Poll): seq<Action>
    requires HasOpenTicket(s.row) ==> s.row.openId.value in s.tickets
  {
    if s.row.openId.None? || s.row.openId.value == NO_TEXT then [Create]
    else
      match Classify(p.mapping, s.tickets[s.row.openId.value].status)
      case Unknown => [ErrorAction]
      case Done => [Create]
      case Cancelled => [Create]
      case Open =>
        if p.policy == "" || p.policy == "supersede" then
          if p.mapping.superseded == "" then [ErrorAction]
          else if CanFinish(p) then [Supersede, Create] else [Create, ErrorAction]
        else if p.policy == "merge" then [Merge]
        else if p.policy == "skip_if_open" then [SkipOpen]
        else [ErrorAction]
  }

  lemma UndisturbedWrite(w: World, update: Row, actions: seq<Action>, detail: string, refs: map<Action, EventRef>)
    requires Undisturbed(w)
    ensures var (w1, saved) := SavePollState(w, update, None);
            Conclude(w1, saved, actions, detail, refs).1 == Ok(Evaluation(actions, update, detail, refs))
  {
    UndisturbedSave(w, update, None);
  }

  lemma UndisturbedError(w: World, base: Row, message: string, now: string)
    requires Undisturbed(w)
    ensures var outcome := RecordError(w, base, message, now).1; outcome.Ok? && outcome.value.actions == [ErrorAction]
  {
    UndisturbedWrite(w, base.(lastPolled := Some(now), lastError := Some(message)), [ErrorAction], message, map[]);
  }

  lemma UndisturbedCreateReports(w: World, base: Row, release: Release, p: Poll, outgoing: Option<TicketId>)
    requires Undisturbed(w) && CanCreate(base, p, release) && (outgoing.Some? ==> outgoing.value in w.s.tickets)
    ensures var outcome := CreateFor(w, base, release, p, outgoing).1;
            outcome.Ok? && outcome.value.actions ==
              if outgoing.None? then [Create] else if CanFinish(p) then [Supersede, Create] else [Create, ErrorAction]
  {
    hide SavePollState, CreateTicket, SaveCreatedTicket, FinishSupersede, Message, PendingTicketMessage,
         Strings.TrimSpace, CanFinish;
    var marked := base.(pending := Some(release.tag));
    UndisturbedSave(w, marked, None);
    var w1 := w.(s := StoreRow(w.s, marked, None));
    UndisturbedCreate(w1, p.request, release.tag);
    var (w2, created) := CreateTicket(w1, p.request, release.tag);
    var link := LinkRow(base, created.value, release, p.now);
    UndisturbedLink(w2, link, outgoing);
    if outgoing.Some? {
      var w3 := w2.(s := StoreRow(w2.s, link, outgoing));
      UndisturbedFinishReports(w3, link, outgoing.value, created.value, p, release.tag,
                               TicketRef(created.value, release.tag));
    }
  }

  lemma UndisturbedFinishReports(w: World, link: Row, oldId: TicketId, newId: TicketId, p: Poll, tag: Tag,
                                 ref: EventRef)
    requires Undisturbed(w) && oldId in w.s.tickets
    ensures var outcome := FinishSupersede(w, link, link, oldId, newId, p, tag, ref).1;
            outcome.Ok? && outcome.value.actions == if CanFinish(p) then [Supersede, Create] else [Create, ErrorAction]
  {
    hide SavePollState, SupersedeOldTicket, Message, Strings.TrimSpace;
    UndisturbedMove(w, oldId, newId, p);
    FinishIsSupersede(p);
    var (w1, errs) := SupersedeOldTicket(w, oldId, newId, p);
    UndisturbedSave(w1, link.(lastError := Some(Message(Wrap("supersede ticket", Join(errs))))), None);
  }

  lemma FinishIsSupersede(p: Poll)
    ensures CanFinish(p) <==> CanSupersede(p)
  {
    hide Strings.TrimSpace;
  }

  /** An undisturbed poll of a new release that nothing stands in the way of reports what is due. */
  lemma UndisturbedPollReportsDue(s: State, p: Poll)
    requires Core(s) && SawNew(s, p) && CanCreate(s.row, p, p.fetched.value.value)
    ensures HasOpenTicket(s.row) ==> s.row.openId.value in s.tickets
    ensures var outcome := PollOnce(s, p, []).1; outcome.Ok? && outcome.value.actions == Due(s, p)
  {
    LinkedTicketExists(s);
    hide Core, CreateFor, SettleOpenTicket, GetTicketStatus, PollOnce, Classify, Strings.TrimSpace, CanFinish;
    var w, release := Live(Observe(s, p), []), p.fetched.value.value;
    PollOfNewTag(s, p, release);
    if HasOpenTicket(s.row) {
      UndisturbedStatus(w, s.row.openId.value);
      LiveTells(w, s.row.openId.value, p.mapping);
      BlankIsUnknown(p.mapping, s.tickets[s.row.openId.value].status);
      var (w1, live) := GetTicketStatus(w, s.row.openId.value);
      UndisturbedSettleReports(s, w1, live, release, p);
    } else {
      UndisturbedCreateReports(w, s.row, release, p, None);
    }
  }

  lemma UndisturbedSettleReports(s: State, w: World, live: Result<string, Error>, release: Release, p: Poll)
    requires Undisturbed(w) && HasOpenTicket(s.row) && s.row.openId.value in s.tickets && w.s.tickets == s.tickets
    requires CanCreate(s.row, p, release)
    requires var reading := Classify(p.mapping, s.tickets[s.row.openId.value].status);
             if live.Ok? then Classify(p.mapping, live.value) == reading else reading.Unknown?
    ensures var outcome := SettleOpenTicket(w, s.row, s.row.openId.value, live, release, p).1;
            outcome.Ok? && outcome.value.actions == Due(s, p)
  {
    hide CreateFor, SavePollState, RecordError, MergeInto, Message, Classify, CanFinish, Strings.TrimSpace;
    var row, id := s.row, s.row.openId.value;
    PoliciesDiffer();
    UndisturbedError(w, row, if live.Err? then Message(live.error) else "unknown ticket status " + live.value, p.now);
    if live.Ok? {
      match Classify(p.mapping, live.value)
      case Unknown =>
      case Done => UndisturbedCreateReports(w, ClearOpenTicket(row), release, p, None);
      case Cancelled => UndisturbedCreateReports(w, ClearOpenTicket(row), release, p, None);
      case Open =>
        UndisturbedError(w, row, SUPERSEDED_STATUS_REQUIRED, p.now);
        UndisturbedError(w, row, "unknown on_open_ticket_policy " + EffectivePolicy(p), p.now);
        UndisturbedCreateReports(w, row, release, p, Some(id));
        UndisturbedMergeReports(w, row, id, release, p);
        UndisturbedWrite(w, KnownRow(row, release, p.now), [SkipOpen], "", map[SkipOpen := ReleaseRef(release.tag)]);
    }
  }

  lemma UndisturbedMergeReports(w: World, row: Row, id: TicketId, release: Release, p: Poll)
    requires Undisturbed(w) && id in w.s.tickets && p.content.Ok?
    ensures var outcome := MergeInto(w, row, id, release, p).1; outcome.Ok? && outcome.value.actions == [Merge]
  {
    hide SavePollState;
    var w1 := UpdateTicket(w, id, release.tag).0;
    UndisturbedWrite(w1, KnownRow(row, release, p.now).(openTag := Some(release.tag)), [Merge], "",
                     map[Merge := TicketRef(id, release.tag)]);
  }

  /** Under the policy merge an open ticket comes to show the new release; it stays the linked one,
      and no ticket is added. */
  lemma MergeShowsRelease(s: State, p: Poll)
    requires Core(s) && SawNew(s, p) && CanCreate(s.row, p, p.fetched.value.value)
    requires LinkedReads(s, p, {Open}) && p.policy == "merge"
    ensures var w := PollOnce(s, p, []).0;
            var release := p.fetched.value.value;
            && w.s.row.openId == s.row.openId && w.s.row.openTag == w.s.row.lastKnown == Some(release.tag)
            && w.s.tickets.Keys == s.tickets.Keys && w.s.tickets[s.row.openId.value].shows == release.tag
  {
    UndisturbedPollReportsDue(s, p);
    ReportsAreTrue(s, p, []);
    PoliciesDiffer();
    DifferentReports();
    assert [Merge] != [Create] && [Merge] != [Supersede, Create] && [Merge] != [Create, ErrorAction] by {
      assert [Merge][0] == Merge && [Supersede, Create][0] == Supersede && [Create, ErrorAction][0] == Create;
    }
    hide PollOnce, Core, Classify, Due;
    var (w, outcome) := PollOnce(s, p, []);
    assert TrueReport(Observe(s, p), w, p, outcome.value);
  }

  /** A linked ticket that reads as done or cancelled is not the linked one any more, even where
      no new ticket can be created. */
  lemma DoneTicketIsLetGo(s: State, p: Poll)
    requires Core(s) && SawNew(s, p) && LinkedReads(s, p, {Done, Cancelled})
    ensures PollOnce(s, p, []).0.s.row.openId != s.row.openId
  {
    IdsAreGivenOut(s);
    hide Core, CreateFor, SettleOpenTicket, GetTicketStatus, PollOnce, Classify, Strings.TrimSpace;
    var w, release, id := Live(Observe(s, p), []), p.fetched.value.value, s.row.openId.value;
    PollOfNewTag(s, p, release);
    UndisturbedStatus(w, id);
    LiveTells(w, id, p.mapping);
    BlankIsUnknown(p.mapping, s.tickets[id].status);
    var (w1, live) := GetTicketStatus(w, id);
    SettledByCreate(w1, s.row, id, live, release, p);
    UndisturbedCreateMoves(w1, ClearOpenTicket(s.row), release, p, id);
  }

  lemma SettledByCreate(w: World, row: Row, id: TicketId, live: Result<string, Error>, release: Release, p: Poll)
    requires live.Ok? && Classify(p.mapping, live.value) in {Done, Cancelled}
    ensures SettleOpenTicket(w, row, id, live, release, p) == CreateFor(w, ClearOpenTicket(row), release, p, None)
  {
    hide CreateFor, Classify, RecordError, MergeInto, SavePollState;
  }

  lemma UndisturbedCreateMoves(w: World, base: Row, release: Release, p: Poll, id: TicketId)
    requires Undisturbed(w) && base.openId.None? && id < w.s.nextId
    ensures CreateFor(w, base, release, p, None).0.s.row.openId != Some(id)
  {
    hide SavePollState, RecordError, CreateTicket, SaveCreatedTicket, CreateDefinitelyNotStored, Message,
         PendingTicketMessage, Strings.TrimSpace;
    var marked := base.(pending := Some(release.tag));
    UndisturbedSave(w, marked, None);
    var w1 := w.(s := StoreRow(w.s, marked, None));
    UndisturbedCreate(w1, p.request, release.tag);
    var (w2, created) := CreateTicket(w1, p.request, release.tag);
    if created.Ok? {
      UndisturbedLink(w2, LinkRow(base, created.value, release, p.now), None);
    } else {
      var err := Wrap(CreateContext(None), created.error);
      RecordedRow(w2, if CreateDefinitelyNotStored(err) then marked.(pending := None) else marked, Message(err), p.now);
    }
    RecordedRow(w, base, PendingTicketMessage(release.tag), p.now);
    if p.content.Err? { RecordedRow(w, base, Message(p.content.error), p.now); }
  }

  lemma RecordedRow(w: World, base: Row, message: string, now: string)
    requires Undisturbed(w)
    ensures RecordError(w, base, message, now).0.s.row == base.(lastPolled := Some(now), lastError := Some(message))
  {
    UndisturbedSave(w, base.(lastPolled := Some(now), lastError := Some(message)), None);
  }

  /** A ticket that may exist is reported before anything else can go wrong. */
  lemma PendingIsReportedFirst(w: World, base: Row, release: Release, p: Poll, outgoing: Option<TicketId>)
    requires base.pending == Some(release.tag)
    ensures var (w', outcome) := CreateFor(w, base, release, p, outgoing);
            && w'.calls == w.calls
            && (outcome.Ok? ==> outcome.value.detail == PendingTicketMessage(release.tag))
  {
    hide PendingTicketMessage;
  }

  /** A write is a success exactly if the row was stored and that was reported, be it that its
      targets could not be read back. */
  lemma SavedExactly(w: World, update: Row, outgoing: Option<TicketId>)
    requires !w.crashed
    ensures var f := NextFault(w).0;
            SavePollState(w, update, outgoing).1.Ok? <==>
            f.crash.NoCrash? && (f.write.Stored? || f.write.StoredTargetsUnread?)
  {}

  /** The old ticket is dealt with without an error exactly if the comment can be made and both
      calls succeed; the comment is tried whatever became of the status change. */
  lemma SupersedeIsCleanExactly(w: World, oldId: TicketId, newId: TicketId, p: Poll)
    requires !w.crashed
    ensures var (f1, w1) := NextFault(w);
            var f2 := NextFault(w1).0;
            var (w', errs) := SupersedeOldTicket(w, oldId, newId, p);
            var comment := p.newTicketUrl.Ok? && p.comment.Ok? && p.comment.value != "";
            && (errs == [] <==>
                  && comment && Strings.TrimSpace(p.mapping.superseded) != "" && oldId in w.s.tickets
                  && f1.crash.NoCrash? && f1.call.Succeeds? && f2.crash.NoCrash? && f2.call.Succeeds?)
            && (f1.crash.NoCrash? ==> w'.calls == w.calls + if comment then 2 else 1)
  {
    hide Strings.TrimSpace;
    var (w1, status) := UpdateTicketStatus(w, oldId, p.mapping.superseded, newId);
    assert status.Some? ==> [Wrap("status", status.value)] != [];
  }

  /** A supersede without a comment still moves the old ticket, links the new one and says so. */
  lemma NoCommentStillSupersedes(w: World, oldId: TicketId, newId: TicketId, p: Poll)
    requires Undisturbed(w) && oldId in w.s.tickets && Strings.TrimSpace(p.mapping.superseded) != ""
    requires p.newTicketUrl.Err? || p.comment.Err? || p.comment.value == ""
    ensures var (w', errs) := SupersedeOldTicket(w, oldId, newId, p);
            errs != [] && w'.s.tickets[oldId].status == p.mapping.superseded && w'.calls == w.calls + 1
  {
    hide Strings.TrimSpace;
  }

  /** The link is written up to three times: it is stored if only the third write goes through. */
  lemma ThirdWriteLinks(w: World, link: Row, outgoing: Option<TicketId>)
    requires !w.crashed
    requires var failed := FINE.(write := NotStored); w.faults == [failed, FINE, failed, FINE, FINE]
    ensures SaveCreatedTicket(w, link, outgoing, 1).1 == Ok(link)
    ensures var failed := FINE.(write := NotStored);
            SaveCreatedTicket(w.(faults := [failed, FINE, failed, FINE, failed]), link, outgoing, 1).1.Err?
  {
    assert LINK_WRITE_ATTEMPTS == 3;
  }
}
