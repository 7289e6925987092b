/** Tickets do not pile up: of the tickets created for one target, at most one is open beyond
    those whose link was never stored and those whose superseding was cut short. */
module PollPileUp {
  import opened Wrappers
  import opened TicketErrors
  import opened StatusMapping
  import opened PollModel
  import opened PollSafety
  import Strings

  predicate IsOpen(m: Mapping, status: string) {
    Classify(m, status).Open?
  }

  /** The status mapping of each target in turn. */
  type Mappings = nat -> Mapping

  ghost predicate SupersededIsClosed(ms: Mappings) {
    forall epoch: nat :: !IsOpen(ms(epoch), ms(epoch).superseded)
  }

  /** The poll reads statuses as the current target does, and superseded is a closed one. */
  predicate Fits(ms: Mappings, epoch: nat, p: Poll) {
    p.mapping == ms(epoch) && !IsOpen(p.mapping, p.mapping.superseded)
  }

  ghost predicate OfThisTarget(s: State, ticket: Option<TicketId>) {
    ticket.Some? ==> ticket.value in s.tickets && s.tickets[ticket.value].epoch == s.epoch
  }

  /** An open ticket that is neither unlinked nor waiting to be moved to superseded. */
  ghost predicate Outstanding(ms: Mappings, s: State, id: TicketId)
    requires id in s.tickets
  {
    IsOpen(ms(s.tickets[id].epoch), s.tickets[id].status) && id in s.linked && id !in s.owed
  }

  /** Only the stored link can be outstanding for the current target, and only one ticket for
      each earlier one. */
  ghost predicate Tidy(ms: Mappings, s: State) {
    && (forall id | id in s.tickets && Outstanding(ms, s, id) ::
          s.tickets[id].epoch == s.epoch ==> s.row.openId == Some(id))
    && (forall i, j | i in s.tickets && j in s.tickets && Outstanding(ms, s, i) && Outstanding(ms, s, j) ::
          s.tickets[i].epoch == s.tickets[j].epoch ==> i == j)
  }

  /** No ticket of the current target but `outgoing` is outstanding. */
  ghost predicate CanRelink(ms: Mappings, s: State, outgoing: Option<TicketId>) {
    forall id | id in s.tickets && Outstanding(ms, s, id) && s.tickets[id].epoch == s.epoch :: outgoing == Some(id)
  }

  /** The status mapping stays as long as the target does, and people close tickets but do not
      reopen them. */
  predicate Closing(ms: Mappings, s: State, step: Step) {
    match step
    case PollStep(p, _) => p.mapping == ms(s.epoch)
    case SetStatus(id, status) =>
      id in s.tickets && IsOpen(ms(s.tickets[id].epoch), status) ==>
        IsOpen(ms(s.tickets[id].epoch), s.tickets[id].status)
    case _ => true
  }

  predicate AllClosing(ms: Mappings, s: State, steps: seq<Step>)
    decreases |steps|
  {
    steps == [] || (Closing(ms, s, steps[0]) && AllClosing(ms, Apply(s, steps[0]), steps[1..]))
  }

  // ---- effects --------------------------------------------------------------------------

  lemma StoreKeepsTidy(ms: Mappings, s: State, update: Row, outgoing: Option<TicketId>)
    requires Core(s) && Tidy(ms, s) && LinkOk(s, update)
    requires update.openId == s.row.openId || CanRelink(ms, s, outgoing)
    ensures Tidy(ms, StoreRow(s, update, outgoing))
  {
    var s' := StoreRow(s, update, outgoing);
    forall id | id in s'.tickets && Outstanding(ms, s', id)
      ensures Outstanding(ms, s, id) || update.openId == Some(id)
    {}
  }

  /** A write that keeps or clears the link leaves open which ticket may be replaced. */
  lemma StoreKeepsRelink(ms: Mappings, s: State, update: Row, outgoing: Option<TicketId>)
    requires Core(s) && CanRelink(ms, s, outgoing)
    requires update.openId == s.row.openId || update.openId == None
    ensures CanRelink(ms, StoreRow(s, update, None), outgoing)
  {
    assert StoreRow(s, update, None).linked == s.linked;
  }

  /** New tickets are not linked yet. */
  lemma GrowthKeepsTidy(ms: Mappings, s: State, s': State)
    requires Core(s) && Tidy(ms, s) && Grown(s, s')
    ensures Tidy(ms, s')
    ensures forall o :: CanRelink(ms, s, o) ==> CanRelink(ms, s', o)
  {
    hide IsOpen, TicketsOk, LinkOk;
    assert forall id | id in s'.tickets && Outstanding(ms, s', id) :: id in s.tickets && Outstanding(ms, s, id);
  }

  /** Changing what a ticket shows or whether it is acknowledged, or closing it. */
  lemma RetouchKeepsTidy(ms: Mappings, s: State, s': State, id: TicketId)
    requires Tidy(ms, s) && id in s.tickets
    requires s'.row == s.row && s'.epoch == s.epoch && s'.linked == s.linked && s.owed - {id} <= s'.owed
    requires s'.tickets.Keys == s.tickets.Keys && s'.tickets[id].epoch == s.tickets[id].epoch
    requires forall k | k in s.tickets && k != id :: s'.tickets[k] == s.tickets[k]
    requires IsOpen(ms(s.tickets[id].epoch), s'.tickets[id].status) ==>
               IsOpen(ms(s.tickets[id].epoch), s.tickets[id].status)
    requires id in s'.owed || id !in s.owed || !IsOpen(ms(s.tickets[id].epoch), s'.tickets[id].status)
    ensures Tidy(ms, s')
    ensures forall o :: CanRelink(ms, s, o) ==> CanRelink(ms, s', o)
  {
    hide IsOpen;
    assert forall k | k in s'.tickets && Outstanding(ms, s', k) :: Outstanding(ms, s, k);
  }

  lemma MoveKeepsTidy(ms: Mappings, s: State, id: TicketId, status: string, successor: TicketId)
    requires Tidy(ms, s) && OfThisTarget(s, Some(id)) && !IsOpen(ms(s.epoch), status)
    ensures Tidy(ms, MoveTicket(s, id, status, successor))
  {
    hide Tidy, CanRelink, Classify;
    RetouchKeepsTidy(ms, s, MoveTicket(s, id, status, successor), id);
  }

  // ---- the steps of a poll ----------------------------------------------------------------

  lemma SaveKeepsTidy(ms: Mappings, w: World, update: Row, outgoing: Option<TicketId>)
    requires Core(w.s) && Tidy(ms, w.s) && (w.crashed || LinkOk(w.s, update))
    requires outgoing.Some? ==> outgoing.value in w.s.linked
    requires update.openId == w.s.row.openId || CanRelink(ms, w.s, outgoing)
    ensures Tidy(ms, SavePollState(w, update, outgoing).0.s)
  {
    hide Core, Tidy, CanRelink, LinkOk, SavePollState;
    SaveKeepsSound(false, w, update, outgoing);
    if !w.crashed { StoreKeepsTidy(ms, w.s, update, outgoing); }
    SavedWhenAlive(w, update, outgoing);
  }

  lemma SavedWhenAlive(w: World, update: Row, outgoing: Option<TicketId>)
    ensures w.crashed ==> SavePollState(w, update, outgoing).0 == w
  {}

  lemma RecordErrorKeepsTidy(ms: Mappings, w: World, base: Row, message: string, now: string)
    requires Core(w.s) && Tidy(ms, w.s) && (w.crashed || LinkOk(w.s, base))
    requires base.openId == w.s.row.openId || CanRelink(ms, w.s, None)
    ensures Tidy(ms, RecordError(w, base, message, now).0.s)
  {
    hide Core, Tidy, CanRelink, SavePollState;
    SaveKeepsTidy(ms, w, base.(lastPolled := Some(now), lastError := Some(message)), None);
  }

  lemma {:induction false} SaveCreatedKeepsTidy(ms: Mappings, w: World, update: Row, outgoing: Option<TicketId>,
                                                attempt: nat)
    requires Core(w.s) && Tidy(ms, w.s) && (w.crashed || LinkOk(w.s, update))
    requires outgoing.Some? ==> outgoing.value in w.s.linked
    requires update.openId == w.s.row.openId || CanRelink(ms, w.s, outgoing)
    ensures Tidy(ms, SaveCreatedTicket(w, update, outgoing, attempt).0.s)
    decreases LINK_WRITE_ATTEMPTS - attempt
  {
    hide Core, Tidy, CanRelink, LinkOk, SavePollState;
    SaveKeepsSound(false, w, update, outgoing);
    SaveKeepsTidy(ms, w, update, outgoing);
    var (w1, saved) := SavePollState(w, update, outgoing);
    if saved.Err? && attempt < LINK_WRITE_ATTEMPTS {
      var (w2, done) := ContextDone(w1);
      if !done {
        if !w.crashed { RowSoundFrame(false, w.s, w2.s, update); }
        SaveCreatedKeepsTidy(ms, w2, update, outgoing, attempt + 1);
      }
    }
  }

  lemma SupersedeOldKeepsTidy(ms: Mappings, w: World, oldId: TicketId, newId: TicketId, p: Poll)
    requires Tidy(ms, w.s) && Fits(ms, w.s.epoch, p) && OfThisTarget(w.s, Some(oldId))
    ensures Tidy(ms, SupersedeOldTicket(w, oldId, newId, p).0.s)
  {
    hide Tidy, Classify, OfThisTarget, MoveTicket, UpdateTicketStatus, AddTicketComment, SupersedeComment;
    MoveKeepsTidy(ms, w.s, oldId, p.mapping.superseded, newId);
    StatusEffect(w, oldId, p.mapping.superseded, newId);
    CommentEffect(UpdateTicketStatus(w, oldId, p.mapping.superseded, newId).0);
  }

  lemma LinkKeepsTidy(ms: Mappings, w: World, link: Row, p: Poll, tag: Tag, outgoing: Option<TicketId>, newId: TicketId)
    requires Core(w.s) && LinkOk(w.s, link) && link.openId == Some(newId) && newId != NO_TEXT
    requires outgoing.Some? ==> outgoing.value in w.s.linked && outgoing.value < newId
    requires OfThisTarget(w.s, outgoing)
    requires Tidy(ms, w.s) && CanRelink(ms, w.s, outgoing) && Fits(ms, w.s.epoch, p)
    ensures var (w', saved) := SaveCreatedTicket(w, link, outgoing, 1);
            && Tidy(ms, w'.s)
            && (saved.Ok? && outgoing.Some? ==>
                  Tidy(ms, FinishSupersede(w', link, saved.value, outgoing.value, newId, p, tag,
                                           TicketRef(newId, tag)).0.s))
  {
    hide Core, Tidy, CanRelink, LinkOk, SaveCreatedTicket, SupersedeOldTicket, SavePollState, Message, Classify,
         TicketRef;
    SaveCreatedKeepsTidy(ms, w, link, outgoing, 1);
    SaveCreatedKeepsSound(false, w, link, outgoing, 1);
    var (w3, saved) := SaveCreatedTicket(w, link, outgoing, 1);
    if saved.Ok? && outgoing.Some? {
      LinkIsLinked(w3.s, newId);
      RowSoundFrame(false, w.s, w3.s, link);
      SupersedeOldKeepsSound(false, w3, outgoing.value, newId, p);
      SupersedeOldKeepsTidy(ms, w3, outgoing.value, newId, p);
      var (w4, errs) := SupersedeOldTicket(w3, outgoing.value, newId, p);
      var noted := link.(lastError := Some(Message(Wrap("supersede ticket", Join(errs)))));
      LinkOkBySameLink(w4.s, link, noted);
      SaveKeepsTidy(ms, w4, noted, None);
    }
  }

  lemma LinkOkBySameLink(s: State, row: Row, row': Row)
    requires row.openId == row'.openId && row.openTag == row'.openTag
    ensures LinkOk(s, row) <==> LinkOk(s, row')
  {}

  lemma LinkIsLinked(s: State, id: TicketId)
    requires Core(s) && s.row.openId == Some(id)
    ensures id in s.linked
  {}

  lemma CreateFailureKeepsTidy(ms: Mappings, w: World, base: Row, release: Release, p: Poll, context: string)
    requires MayCreate(false, w, base, release, p) && Tidy(ms, w.s)
    requires w.s.row == base.(pending := Some(release.tag))
    ensures var (w', created) := CreateTicket(w, p.request, release.tag);
            created.Err? ==> Tidy(ms, RecordCreateFailure(w', w.s.row, Wrap(context, created.error), p.now).0.s)
  {
    CreateKeepsSound(false, w, p.request, release.tag);
    var (w2, created) := CreateTicket(w, p.request, release.tag);
    hide CreateTicket, CreateDefinitelyNotStored, Tidy, CanRelink;
    GrowthKeepsTidy(ms, w.s, w2.s);
    if created.Err? {
      var err := Wrap(context, created.error);
      var kept := if CreateDefinitelyNotStored(err) then w.s.row.(pending := None) else w.s.row;
      assert !w2.crashed ==> LinkOk(w2.s, kept);
      RecordErrorKeepsTidy(ms, w2, kept, Message(err), p.now);
    }
  }

  lemma CreateSuccessKeepsTidy(ms: Mappings, w: World, base: Row, release: Release, p: Poll, outgoing: Option<TicketId>)
    requires MayCreate(false, w, base, release, p) && Tidy(ms, w.s) && CanRelink(ms, w.s, outgoing)
    requires w.s.row == base.(pending := Some(release.tag))
    requires outgoing.Some? ==> outgoing.value in w.s.linked
    requires Fits(ms, w.s.epoch, p) && OfThisTarget(w.s, outgoing)
    ensures var (w', created) := CreateTicket(w, p.request, release.tag);
            created.Ok? ==>
              var link := LinkRow(base, created.value, release, p.now);
              var (w3, saved) := SaveCreatedTicket(w', link, outgoing, 1);
              && Tidy(ms, w3.s)
              && (saved.Ok? && outgoing.Some? ==>
                    Tidy(ms, FinishSupersede(w3, link, saved.value, outgoing.value, created.value, p, release.tag,
                                            TicketRef(created.value, release.tag)).0.s))
  {
    hide Core, Tidy, CanRelink, LinkOk, CreateTicket, SaveCreatedTicket, FinishSupersede, CreateDefinitelyNotStored,
         Classify;
    CreateKeepsSound(false, w, p.request, release.tag);
    var (w2, created) := CreateTicket(w, p.request, release.tag);
    if created.Ok? {
      GrowthKeepsTidy(ms, w.s, w2.s);
      LinkRowSound(false, w2.s, created.value, base, release, p.now);
      if outgoing.Some? { LinkedIds(w.s, outgoing.value); }
      IdsAreGivenOut(w.s);
      LinkKeepsTidy(ms, w2, LinkRow(base, created.value, release, p.now), p, release.tag, outgoing, created.value);
    }
  }

  lemma CreateForKeepsTidy(ms: Mappings, w: World, base: Row, release: Release, p: Poll, outgoing: Option<TicketId>)
    requires Core(w.s) && !w.crashed
    requires Latest(w.s.seen, release.tag) && LinkOk(w.s, base)
    requires base.lastKnown == w.s.row.lastKnown && base.pending == w.s.row.pending
    requires base.lastKnown.Some? && base.lastKnown.value != release.tag
    requires outgoing.Some? ==> outgoing.value in w.s.linked
    requires Tidy(ms, w.s) && CanRelink(ms, w.s, outgoing) && Fits(ms, w.s.epoch, p)
    requires OfThisTarget(w.s, outgoing)
    requires base.openId == w.s.row.openId || (base.openId.None? && outgoing.None?)
    ensures Tidy(ms, CreateFor(w, base, release, p, outgoing).0.s)
  {
    hide Core, Tidy, CanRelink, LinkOk, RecordError, SavePollState, CreateTicket, SaveCreatedTicket, FinishSupersede,
         RecordCreateFailure, Classify;
    var tag := release.tag;
    NothingCreatedYet(false, w.s, base, tag);
    if base.pending == Some(tag) {
      RecordErrorKeepsTidy(ms, w, base, PendingTicketMessage(tag), p.now);
    } else if p.content.Err? {
      RecordErrorKeepsTidy(ms, w, base, Message(p.content.error), p.now);
    } else {
      var marked := base.(pending := Some(tag));
      SaveKeepsSound(false, w, marked, None);
      SaveKeepsTidy(ms, w, marked, None);
      StoreKeepsRelink(ms, w.s, marked, outgoing);
      var (w1, mark) := SavePollState(w, marked, None);
      if mark.Ok? {
        RowSoundFrame(false, w.s, w1.s, base);
        assert MayCreate(false, w1, base, release, p);
        CreateFailureKeepsTidy(ms, w1, base, release, p, CreateContext(outgoing));
        CreateSuccessKeepsTidy(ms, w1, base, release, p, outgoing);
        var (w2, created) := CreateTicket(w1, p.request, tag);
        if created.Ok? {
          var (w3, saved) := SaveCreatedTicket(w2, LinkRow(base, created.value, release, p.now), outgoing, 1);
          assert saved.Err? || outgoing.None? ==> CreateFor(w, base, release, p, outgoing).0 == w3;
        }
      }
    }
  }

  lemma MergeKeepsTidy(ms: Mappings, w: World, id: TicketId, release: Release, p: Poll)
    requires Core(w.s) && Latest(w.s.seen, release.tag) && w.s.row.openId == Some(id) && Tidy(ms, w.s)
    ensures Tidy(ms, MergeInto(w, w.s.row, id, release, p).0.s)
  {
    hide Core, LinkOk, Latest, Tidy, CanRelink, Classify, SavePollState, RecordError, UpdateTicket, Message;
    RowsOfAnOpenTicket(false, w.s, release, p.now);
    if p.content.Err? {
      RecordErrorKeepsTidy(ms, w, w.s.row, Message(p.content.error), p.now);
    } else {
      var (w1, failed) := UpdateTicket(w, id, release.tag);
      UpdateEffect(w, id, release.tag);
      var shown := ShowTag(w.s, id, release.tag);
      assert shown.tickets.Keys == w.s.tickets.Keys;
      RetouchKeepsSound(false, w.s, id, w.s.tickets[id].(shows := release.tag), w.s.acks);
      RetouchKeepsTidy(ms, w.s, shown, id);
      if failed.Some? {
        RecordErrorKeepsTidy(ms, w1, w.s.row, Message(Wrap("merge ticket", failed.value)), p.now);
      } else {
        SaveKeepsTidy(ms, w1, KnownRow(w.s.row, release, p.now).(openTag := Some(release.tag)), None);
      }
    }
  }

  /** With a link, only the linked ticket may be replaced; if it reads as closed, none is. */
  lemma WhatMayBeReplaced(ms: Mappings, s: State)
    requires Tidy(ms, s) && Core(s)
    ensures CanRelink(ms, s, s.row.openId) && OfThisTarget(s, s.row.openId)
    ensures s.row.openId.Some? && !IsOpen(ms(s.epoch), s.tickets[s.row.openId.value].status)
            ==> CanRelink(ms, s, None)
  {}

  lemma SettleKeepsTidy(ms: Mappings, w: World, id: TicketId, live: Result<string, Error>, release: Release, p: Poll)
    requires Core(w.s) && (live.Ok? ==> !w.crashed)
    requires Latest(w.s.seen, release.tag) && w.s.row.openId == Some(id)
    requires w.s.row.lastKnown.Some? && w.s.row.lastKnown.value != release.tag
    requires Tidy(ms, w.s) && Fits(ms, w.s.epoch, p)
    requires live.Ok? ==> id in w.s.tickets && (IsOpen(p.mapping, w.s.tickets[id].status) ==>
                                                IsOpen(p.mapping, live.value))
    ensures Tidy(ms, SettleOpenTicket(w, w.s.row, id, live, release, p).0.s)
  {
    hide Core, Tidy, CanRelink, LinkOk, Latest, Classify, CreateFor, MergeInto, RecordError,
         SavePollState, Message;
    var row := w.s.row;
    RowsOfAnOpenTicket(false, w.s, release, p.now);
    WhatMayBeReplaced(ms, w.s);
    if live.Err? {
      RecordErrorKeepsTidy(ms, w, row, Message(live.error), p.now);
    } else {
      match Classify(p.mapping, live.value)
      case Unknown => RecordErrorKeepsTidy(ms, w, row, "unknown ticket status " + live.value, p.now);
      case Done => CreateForKeepsTidy(ms, w, ClearOpenTicket(row), release, p, None);
      case Cancelled => CreateForKeepsTidy(ms, w, ClearOpenTicket(row), release, p, None);
      case Open =>
        var policy := EffectivePolicy(p);
        if policy == POLICY_SUPERSEDE {
          RecordErrorKeepsTidy(ms, w, row, SUPERSEDED_STATUS_REQUIRED, p.now);
          CreateForKeepsTidy(ms, w, row, release, p, Some(id));
        } else if policy == POLICY_MERGE {
          MergeKeepsTidy(ms, w, id, release, p);
        } else if policy == POLICY_SKIP_IF_OPEN {
          SaveKeepsTidy(ms, w, KnownRow(row, release, p.now), None);
        } else {
          RecordErrorKeepsTidy(ms, w, row, "unknown on_open_ticket_policy " + policy, p.now);
        }
    }
  }

  lemma LiveStatus(m: Mapping, w: World, id: TicketId)
    ensures var (w1, live) := GetTicketStatus(w, id);
            && w1.s == w.s
            && (live.Ok? ==>
                  !w1.crashed && id in w.s.tickets && live.value == Strings.TrimSpace(w.s.tickets[id].status))
            && (live.Ok? ==> IsOpen(m, live.value) == IsOpen(m, w.s.tickets[id].status))
  {
    hide Classify, Strings.TrimSpace;
    var live := GetTicketStatus(w, id).1;
    if live.Ok? { OuterBlanksDoNotMatter(m, w.s.tickets[id].status); }
  }

  lemma EvaluateKeepsTidy(ms: Mappings, w: World, p: Poll)
    requires Core(w.s) && !w.crashed
    requires p.fetched.Ok? && p.fetched.value.Some? ==> Latest(w.s.seen, p.fetched.value.value.tag)
    requires Tidy(ms, w.s) && Fits(ms, w.s.epoch, p)
    ensures Tidy(ms, EvaluateRepo(w, w.s.row, p).0.s)
  {
    hide Tidy, CanRelink, Classify, SavePollState, RecordError, CreateFor, SettleOpenTicket, GetTicketStatus;
    var row := w.s.row;
    WhatMayBeReplaced(ms, w.s);
    if p.fetched.Err? {
      RecordErrorKeepsTidy(ms, w, row, Message(p.fetched.error), p.now);
    } else {
      var release := p.fetched.value;
      var (decision, tag) := DecideTagChange(row.lastKnown, release);
      match decision
      case TagBaseline => SaveKeepsTidy(ms, w, BaselineRow(row, release, tag, p.now), None);
      case TagSkip => SaveKeepsTidy(ms, w, row.(lastPolled := Some(p.now), lastError := None), None);
      case TagNew =>
        if HasOpenTicket(row) {
          LiveStatus(p.mapping, w, row.openId.value);
          var (w1, live) := GetTicketStatus(w, row.openId.value);
          FaultsShrink(w, row.openId.value);
          SettleKeepsTidy(ms, w1, row.openId.value, live, release.value, p);
        } else {
          assert row.openId.None? by { NoEmptyLink(w.s); }
          CreateForKeepsTidy(ms, w, row, release.value, p, None);
        }
    }
  }

  lemma FaultsShrink(w: World, id: TicketId)
    ensures forall f | f in GetTicketStatus(w, id).0.faults :: f in w.faults
  {}

  lemma NoEmptyLink(s: State)
    requires Core(s)
    ensures s.row.openId.Some? ==> HasOpenTicket(s.row)
  {
    if s.row.openId.Some? { LinkedIds(s, s.row.openId.value); }
  }

  lemma StepKeepsTidy(ms: Mappings, s: State, step: Step)
    requires Core(s) && Tidy(ms, s) && Closing(ms, s, step) && SupersededIsClosed(ms)
    ensures Tidy(ms, Apply(s, step))
  {
    hide Classify, SavePollState, EvaluateRepo, RecordError;
    match step
    case PollStep(p, faults) =>
      ObserveKeepsSound(false, s, p);
      EvaluateKeepsTidy(ms, Live(Observe(s, p), faults), p);
    case SetupFailure(message, now, faults) =>
      RecordErrorKeepsTidy(ms, Live(s, faults), s.row, message, now);
    case Retarget(sourceChanged, ticketChanged) =>
      assert forall id | id in s.tickets :: TicketOk(s, id);
    case SetStatus(id, status) =>
      if id in s.tickets { RetouchKeepsTidy(ms, s, SetTicketStatus(s, id, status), id); }
  }

  lemma {:induction false} RunKeepsTidy(ms: Mappings, s: State, steps: seq<Step>)
    requires Core(s) && Tidy(ms, s) && AllClosing(ms, s, steps) && SupersededIsClosed(ms)
    ensures Core(Run(s, steps)) && Tidy(ms, Run(s, steps))
    decreases |steps|
  {
    hide Core, Tidy, Apply, Classify;
    if steps != [] {
      StepKeepsCore(s, steps[0]);
      StepKeepsTidy(ms, s, steps[0]);
      RunKeepsTidy(ms, Apply(s, steps[0]), steps[1..]);
    }
  }

  // ---- the bound ----------------------------------------------------------------------------

  ghost function OpenTickets(ms: Mappings, s: State, epoch: nat): set<TicketId> {
    set id | id in s.tickets && s.tickets[id].epoch == epoch && IsOpen(ms(epoch), s.tickets[id].status)
  }

  /** Creates whose link was never stored. */
  ghost function UnlinkedTickets(s: State, epoch: nat): set<TicketId> {
    set id | id in s.tickets && s.tickets[id].epoch == epoch && id !in s.linked
  }

  /** Supersedes whose status change did not happen. */
  ghost function OwedTickets(s: State, epoch: nat): set<TicketId> {
    set id | id in s.tickets && s.tickets[id].epoch == epoch && id in s.owed
  }

  /** For every target a repo ever had: its open tickets number at most one more than the
      creates whose link was never stored plus the supersedes whose status change did not
      happen, whatever policies, failures and crashes the polls met. */
  lemma NoPileUp(ms: Mappings, steps: seq<Step>, epoch: nat)
    requires AllClosing(ms, NEW_STATE, steps) && SupersededIsClosed(ms)
    ensures var s := Run(NEW_STATE, steps);
            |OpenTickets(ms, s, epoch)| <= 1 + |UnlinkedTickets(s, epoch)| + |OwedTickets(s, epoch)|
  {
    StartsTidy(ms);
    hide *;
    RunKeepsTidy(ms, NEW_STATE, steps);
    BoundFromTidy(ms, Run(NEW_STATE, steps), epoch);
  }

  lemma StartsTidy(ms: Mappings)
    ensures Core(NEW_STATE) && Tidy(ms, NEW_STATE)
  {}

  lemma BoundFromTidy(ms: Mappings, s: State, epoch: nat)
    requires Tidy(ms, s)
    ensures |OpenTickets(ms, s, epoch)| <= 1 + |UnlinkedTickets(s, epoch)| + |OwedTickets(s, epoch)|
  {
    hide Classify;
    var rest := UnlinkedTickets(s, epoch) + OwedTickets(s, epoch);
    var outstanding := OpenTickets(ms, s, epoch) - rest;
    assert forall id | id in outstanding :: Outstanding(ms, s, id);
    AtMostOne(outstanding);
    Subset(OpenTickets(ms, s, epoch), outstanding + rest);
  }

  lemma AtMostOne(ids: set<TicketId>)
    requires forall i, j | i in ids && j in ids :: i == j
    ensures |ids| <= 1
  {
    if ids != {} {
      var i :| i in ids;
      assert ids == {i};
    }
  }

  lemma {:induction false} Subset(a: set<TicketId>, b: set<TicketId>)
    requires a <= b
    ensures |a| <= |b|
    decreases a
  {
    if a != {} {
      var x :| x in a;
      Subset(a - {x}, b - {x});
    }
  }
}
