/** No poll takes a ticket away, or gives it another tag or target, whatever fails on the way. */
module PollTickets {
  import opened Wrappers
  import opened TicketErrors
  import opened StatusMapping
  import opened PollModel
  import opened PollSafety
  import Jira

  /** The tracker has given out the ids below `nextId`. */
  ghost predicate IdsBelow(s: State) {
    forall id | id in s.tickets :: id < s.nextId
  }

  /** The tickets of `s` are in `s'`, with their tags; the target and the observed tags are the same. */
  ghost predicate Keeps(s: State, s': State) {
    IdsBelow(s) ==>
      && IdsBelow(s') && s.nextId <= s'.nextId && s'.epoch == s.epoch && s'.seen == s.seen
      && forall id | id in s.tickets ::
           id in s'.tickets && s'.tickets[id].tag == s.tickets[id].tag && s'.tickets[id].epoch == s.tickets[id].epoch
  }

  lemma KeepsTwice(s: State, s1: State, s2: State)
    requires Keeps(s, s1) && Keeps(s1, s2)
    ensures Keeps(s, s2)
  {}

  lemma KeepsAll(s: State)
    ensures Keeps(s, s)
  {}

  // ---- single accesses --------------------------------------------------------------------------

  lemma SaveKeeps(w: World, update: Row, outgoing: Option<TicketId>)
    ensures Keeps(w.s, SavePollState(w, update, outgoing).0.s)
    ensures SavePollState(w, update, outgoing).0.s.tickets == w.s.tickets
  {}

  lemma RecordKeeps(w: World, base: Row, message: string, now: string)
    ensures Keeps(w.s, RecordError(w, base, message, now).0.s)
    ensures RecordError(w, base, message, now).0.s.tickets == w.s.tickets
  {
    hide SavePollState, Keeps;
    SaveKeeps(w, base.(lastPolled := Some(now), lastError := Some(message)), None);
  }

  /** `n` tickets for one tag, with consecutive ids. */
  ghost predicate Holds(s: State, id: TicketId, n: nat, tag: Tag, epoch: nat) {
    forall k | id <= k < id + n :: k in s.tickets && s.tickets[k].tag == tag && s.tickets[k].epoch == epoch
  }

  lemma {:induction false} AddedTickets(s: State, ticket: Ticket, n: nat)
    requires IdsBelow(s)
    ensures var s' := AddTickets(s, ticket, n);
            && IdsBelow(s') && Holds(s', s.nextId, n, ticket.tag, ticket.epoch)
            && s' == s.(tickets := s'.tickets, nextId := s.nextId + n)
            && forall k | k in s.tickets :: k in s'.tickets && s'.tickets[k] == s.tickets[k]
    decreases n
  {
    if n > 0 {
      var s1 := s.(tickets := s.tickets[s.nextId := ticket], nextId := s.nextId + 1);
      AddedTickets(s1, ticket, n - 1);
      assert AddTickets(s, ticket, n) == AddTickets(s1, ticket, n - 1);
    }
  }

  lemma CreateKeeps(w: World, request: Jira.Request, tag: Tag)
    ensures Keeps(w.s, CreateTicket(w, request, tag).0.s)
  {
    hide Jira.CreateTicket;
    if IdsBelow(w.s) {
      forall n: nat, status | true
        ensures var ticket := Ticket(tag, tag, status, w.s.epoch, w.s.source, false, w.s.row);
                Keeps(w.s, AddTickets(w.s, ticket, n))
      {
        AddedTickets(w.s, Ticket(tag, tag, status, w.s.epoch, w.s.source, false, w.s.row), n);
      }
    }
  }

  lemma MoveKeeps(w: World, id: TicketId, status: string, successor: TicketId)
    ensures Keeps(w.s, UpdateTicketStatus(w, id, status, successor).0.s)
  {
    StatusEffect(w, id, status, successor);
  }

  lemma RewriteKeeps(w: World, id: TicketId, tag: Tag)
    ensures Keeps(w.s, UpdateTicket(w, id, tag).0.s)
  {}

  lemma CommentKeeps(w: World)
    ensures Keeps(w.s, AddTicketComment(w).0.s)
  {
    CommentEffect(w);
  }

  // ---- the parts of an evaluation ---------------------------------------------------------------

  lemma {:induction false} LinkKeeps(w: World, update: Row, outgoing: Option<TicketId>, attempt: nat)
    ensures Keeps(w.s, SaveCreatedTicket(w, update, outgoing, attempt).0.s)
    decreases LINK_WRITE_ATTEMPTS - attempt
  {
    hide SavePollState, Keeps, LINK_NOT_SAVED;
    SaveKeeps(w, update, outgoing);
    var (w1, saved) := SavePollState(w, update, outgoing);
    if saved.Err? && attempt < LINK_WRITE_ATTEMPTS {
      var (w2, done) := ContextDone(w1);
      assert w2.s == w1.s;
      if !done {
        LinkKeeps(w2, update, outgoing, attempt + 1);
        KeepsTwice(w.s, w1.s, SaveCreatedTicket(w2, update, outgoing, attempt + 1).0.s);
      }
    }
  }

  lemma FailureKeeps(w: World, marked: Row, err: Error, now: string)
    ensures Keeps(w.s, RecordCreateFailure(w, marked, err, now).0.s)
    ensures RecordCreateFailure(w, marked, err, now).0.s.tickets == w.s.tickets
  {
    hide RecordError, Keeps, Message, CreateDefinitelyNotStored;
    RecordKeeps(w, if CreateDefinitelyNotStored(err) then marked.(pending := None) else marked, Message(err), now);
  }

  lemma FinishKeeps(w: World, link: Row, saved: Row, oldId: TicketId, newId: TicketId, p: Poll, tag: Tag, ref: EventRef)
    ensures Keeps(w.s, FinishSupersede(w, link, saved, oldId, newId, p, tag, ref).0.s)
  {
    hide Keeps, SavePollState, UpdateTicketStatus, AddTicketComment, SupersedeComment, Message;
    MoveKeeps(w, oldId, p.mapping.superseded, newId);
    var w1 := UpdateTicketStatus(w, oldId, p.mapping.superseded, newId).0;
    CommentKeeps(w1);
    var (w2, errs) := SupersedeOldTicket(w, oldId, newId, p);
    KeepsAll(w1.s);
    KeepsTwice(w.s, w1.s, w2.s);
    if errs != [] {
      var update := link.(lastError := Some(Message(Wrap("supersede ticket", Join(errs)))));
      SaveKeeps(w2, update, None);
      KeepsTwice(w.s, w2.s, SavePollState(w2, update, None).0.s);
    }
  }

  /** Once the tracker has answered a create, no ticket goes. */
  lemma AfterCreateKeeps(w: World, created: Result<TicketId, Error>, base: Row, release: Release, p: Poll,
                         outgoing: Option<TicketId>)
    ensures Keeps(w.s, AfterCreate(w, created, base, release, p, outgoing).0.s)
  {
    hide Keeps, RecordCreateFailure, SaveCreatedTicket, FinishSupersede, CreateContext;
    if created.Err? {
      FailureKeeps(w, base.(pending := Some(release.tag)), Wrap(CreateContext(outgoing), created.error), p.now);
    } else {
      var link := LinkRow(base, created.value, release, p.now);
      LinkKeeps(w, link, outgoing, 1);
      var (w3, saved) := SaveCreatedTicket(w, link, outgoing, 1);
      if saved.Ok? && outgoing.Some? {
        var ref := TicketRef(created.value, release.tag);
        FinishKeeps(w3, link, saved.value, outgoing.value, created.value, p, release.tag, ref);
        KeepsTwice(w.s, w3.s,
                   FinishSupersede(w3, link, saved.value, outgoing.value, created.value, p, release.tag, ref).0.s);
      }
    }
  }

  lemma CreateForKeeps(w: World, base: Row, release: Release, p: Poll, outgoing: Option<TicketId>)
    ensures Keeps(w.s, CreateFor(w, base, release, p, outgoing).0.s)
  {
    hide Keeps, RecordError, SavePollState, CreateTicket, AfterCreate, Message, PendingTicketMessage;
    RecordKeeps(w, base, PendingTicketMessage(release.tag), p.now);
    if p.content.Err? {
      RecordKeeps(w, base, Message(p.content.error), p.now);
    } else {
      var marked := base.(pending := Some(release.tag));
      SaveKeeps(w, marked, None);
      var (w1, mark) := SavePollState(w, marked, None);
      CreateKeeps(w1, p.request, release.tag);
      var (w2, created) := CreateTicket(w1, p.request, release.tag);
      AfterCreateKeeps(w2, created, base, release, p, outgoing);
      KeepsTwice(w.s, w1.s, w2.s);
      KeepsTwice(w.s, w2.s, AfterCreate(w2, created, base, release, p, outgoing).0.s);
    }
  }

  lemma MergeKeeps(w: World, row: Row, id: TicketId, release: Release, p: Poll)
    ensures Keeps(w.s, MergeInto(w, row, id, release, p).0.s)
  {
    hide Keeps, RecordError, SavePollState, UpdateTicket, Message;
    if p.content.Err? {
      RecordKeeps(w, row, Message(p.content.error), p.now);
    } else {
      RewriteKeeps(w, id, release.tag);
      var (w1, failed) := UpdateTicket(w, id, release.tag);
      if failed.Some? {
        var message := Message(Wrap("merge ticket", failed.value));
        RecordKeeps(w1, row, message, p.now);
        KeepsTwice(w.s, w1.s, RecordError(w1, row, message, p.now).0.s);
      } else {
        var update := KnownRow(row, release, p.now).(openTag := Some(release.tag));
        SaveKeeps(w1, update, None);
        KeepsTwice(w.s, w1.s, SavePollState(w1, update, None).0.s);
      }
    }
  }

  lemma SettleKeeps(w: World, row: Row, id: TicketId, live: Result<string, Error>, release: Release, p: Poll)
    ensures Keeps(w.s, SettleOpenTicket(w, row, id, live, release, p).0.s)
  {
    hide Keeps, RecordError, SavePollState, CreateFor, MergeInto, Message, Classify, EffectivePolicy,
         SUPERSEDED_STATUS_REQUIRED, POLICY_SUPERSEDE, POLICY_MERGE, POLICY_SKIP_IF_OPEN;
    if live.Err? {
      RecordKeeps(w, row, Message(live.error), p.now);
    } else {
      match Classify(p.mapping, live.value)
      case Unknown => RecordKeeps(w, row, "unknown ticket status " + live.value, p.now);
      case Done => CreateForKeeps(w, ClearOpenTicket(row), release, p, None);
      case Cancelled => CreateForKeeps(w, ClearOpenTicket(row), release, p, None);
      case Open =>
        RecordKeeps(w, row, SUPERSEDED_STATUS_REQUIRED, p.now);
        RecordKeeps(w, row, "unknown on_open_ticket_policy " + EffectivePolicy(p), p.now);
        CreateForKeeps(w, row, release, p, Some(id));
        MergeKeeps(w, row, id, release, p);
        SaveKeeps(w, KnownRow(row, release, p.now), None);
    }
  }

  /** Whatever happens during a poll, every ticket is still there afterwards, with its tag. */
  lemma PollKeepsTickets(w: World, row: Row, p: Poll)
    ensures Keeps(w.s, EvaluateRepo(w, row, p).0.s)
  {
    hide Keeps, RecordError, SavePollState, CreateFor, SettleOpenTicket, GetTicketStatus, Message;
    if p.fetched.Err? {
      RecordKeeps(w, row, Message(p.fetched.error), p.now);
    } else {
      var release := p.fetched.value;
      var (decision, tag) := DecideTagChange(row.lastKnown, release);
      match decision
      case TagBaseline => SaveKeeps(w, BaselineRow(row, release, tag, p.now), None);
      case TagSkip => SaveKeeps(w, row.(lastPolled := Some(p.now), lastError := None), None);
      case TagNew =>
        if HasOpenTicket(row) {
          var id := row.openId.value;
          StatusReadsOnly(w, id);
          var (w1, live) := GetTicketStatus(w, id);
          SettleKeeps(w1, row, id, live, release.value, p);
        } else {
          CreateForKeeps(w, row, release.value, p, None);
        }
    }
  }
}
