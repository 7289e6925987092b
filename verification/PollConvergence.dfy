/** What one undisturbed poll achieves, and what repeating it changes. */
module PollConvergence {
  import opened Wrappers
  import opened Strings
  import opened TicketErrors
  import opened StatusMapping
  import opened PollModel
  import opened PollSafety
  import Jira

  /** A create for `release` can go through: nothing may exist for its tag yet, the templates
      render, and the project names its key. */
  predicate CanCreate(row: Row, p: Poll, release: Release) {
    row.pending != Some(release.tag) && p.content.Ok? && TrimSpace(p.request.projectKey) != ""
  }

  predicate CanSupersede(p: Poll) {
    TrimSpace(p.mapping.superseded) != "" && SupersedeComment(p).Ok?
  }

  /** The settings and the tracker allow the poll to settle `release`. */
  predicate Ready(s: State, p: Poll, release: Release) {
    var row := s.row;
    if row.lastKnown.None? then release.tag != ""
    else if row.lastKnown == Some(release.tag) then true
    else if !HasOpenTicket(row) then CanCreate(row, p, release)
    else
      row.openId.value in s.tickets &&
      match Classify(p.mapping, s.tickets[row.openId.value].status)
      case Unknown => false
      case Done => CanCreate(row, p, release)
      case Cancelled => CanCreate(row, p, release)
      case Open =>
        var policy := EffectivePolicy(p);
        if policy == POLICY_SUPERSEDE then CanCreate(row, p, release) && CanSupersede(p)
        else if policy == POLICY_MERGE then p.content.Ok?
        else policy == POLICY_SKIP_IF_OPEN
  }

  /** The poll ended with the release known and without an error. */
  predicate Settled(w: World, outcome: Outcome, tag: Tag) {
    && w.s.row.lastKnown == Some(tag) && w.s.row.lastError == None && !w.crashed
    && outcome.Ok? && ErrorAction !in outcome.value.actions && outcome.value.repo == w.s.row
  }

  predicate Undisturbed(w: World) {
    !w.crashed && w.faults == []
  }

  lemma UndisturbedSave(w: World, update: Row, outgoing: Option<TicketId>)
    requires Undisturbed(w)
    ensures SavePollState(w, update, outgoing) == (w.(s := StoreRow(w.s, update, outgoing)), Ok(update))
  {}

  lemma UndisturbedRecord(w: World, base: Row, message: string, now: string, tag: Tag)
    requires Undisturbed(w)
    ensures var (w', outcome) := RecordError(w, base, message, now);
            w'.s.row.lastError.Some? && !Settled(w', outcome, tag)
  {
    UndisturbedSave(w, base.(lastPolled := Some(now), lastError := Some(message)), None);
  }

  lemma UndisturbedCreate(w: World, request: Jira.Request, tag: Tag)
    requires Undisturbed(w)
    ensures var (w', created) := CreateTicket(w, request, tag);
            && Undisturbed(w') && w'.s.row == w.s.row
            && (created.Ok? <==> TrimSpace(request.projectKey) != "")
            && (created.Ok? ==>
                  created.value == w.s.nextId && w'.s == Acknowledge(Add(w.s, NextTicket(w, tag)), w.s.nextId))
  {
    var ticket := NextTicket(w, tag);
    assert !Jira.RetriesWithoutPriority(request, FINE.first);
    assert AddTickets(w.s, ticket, 0) == w.s;
    assert AddTickets(w.s, ticket, 1) == Add(w.s, ticket);
  }

  lemma UndisturbedLink(w: World, link: Row, outgoing: Option<TicketId>)
    requires Undisturbed(w)
    ensures SaveCreatedTicket(w, link, outgoing, 1) == (w.(s := StoreRow(w.s, link, outgoing)), Ok(link))
  {
    UndisturbedSave(w, link, outgoing);
  }

  lemma UndisturbedMove(w: World, oldId: TicketId, newId: TicketId, p: Poll)
    requires Undisturbed(w) && oldId in w.s.tickets
    ensures var (w', errs) := SupersedeOldTicket(w, oldId, newId, p);
            && Undisturbed(w') && w'.s.row == w.s.row
            && (errs == [] <==> CanSupersede(p))
            && (errs == [] ==> w'.s == MoveTicket(w.s, oldId, p.mapping.superseded, newId))
  {}

  lemma UndisturbedCreateFor(w: World, base: Row, release: Release, p: Poll, outgoing: Option<TicketId>)
    requires Undisturbed(w) && (outgoing.Some? ==> outgoing.value in w.s.tickets)
    requires base.pending == w.s.row.pending
    ensures var (w', outcome) := CreateFor(w, base, release, p, outgoing);
            Settled(w', outcome, release.tag) <==>
              CanCreate(w.s.row, p, release) && (outgoing.Some? ==> CanSupersede(p))
  {
    hide RecordError, SavePollState, CreateTicket, SaveCreatedTicket, SupersedeOldTicket, CanSupersede, Classify,
         Message, RecordCreateFailure, PendingTicketMessage, FinishSupersede, CreateContext;
    var tag := release.tag;
    UndisturbedRecord(w, base, PendingTicketMessage(tag), p.now, tag);
    if base.pending != Some(tag) {
      if p.content.Err? {
        UndisturbedRecord(w, base, Message(p.content.error), p.now, tag);
      } else {
        var marked := base.(pending := Some(tag));
        UndisturbedSave(w, marked, None);
        var w1 := w.(s := StoreRow(w.s, marked, None));
        UndisturbedCreate(w1, p.request, tag);
        var (w2, created) := CreateTicket(w1, p.request, tag);
        if created.Err? {
          UndisturbedFailure(w2, marked, Wrap(CreateContext(outgoing), created.error), p.now, tag);
        } else {
          UndisturbedFinish(w2, base, release, p, outgoing, created.value);
        }
      }
    }
  }

  lemma UndisturbedFailure(w: World, marked: Row, err: Error, now: string, tag: Tag)
    requires Undisturbed(w)
    ensures var (w', outcome) := RecordCreateFailure(w, marked, err, now); !Settled(w', outcome, tag)
  {
    hide CreateDefinitelyNotStored, Message;
    UndisturbedRecord(w, if CreateDefinitelyNotStored(err) then marked.(pending := None) else marked, Message(err),
                      now, tag);
  }

  lemma UndisturbedFinish(w: World, base: Row, release: Release, p: Poll, outgoing: Option<TicketId>, newId: TicketId)
    requires Undisturbed(w) && (outgoing.Some? ==> outgoing.value in w.s.tickets)
    ensures var link := LinkRow(base, newId, release, p.now);
            var w3 := w.(s := StoreRow(w.s, link, outgoing));
            && SaveCreatedTicket(w, link, outgoing, 1) == (w3, Ok(link))
            && w3.s.row.lastKnown == Some(release.tag) && w3.s.row.lastError == None
            && (outgoing.Some? ==>
                  var (w', outcome) := FinishSupersede(w3, link, link, outgoing.value, newId, p, release.tag,
                                                       TicketRef(newId, release.tag));
                  Settled(w', outcome, release.tag) <==> CanSupersede(p))
  {
    hide SavePollState, SaveCreatedTicket, SupersedeOldTicket, CanSupersede, Classify, Message;
    var link := LinkRow(base, newId, release, p.now);
    UndisturbedLink(w, link, outgoing);
    var w3 := w.(s := StoreRow(w.s, link, outgoing));
    if outgoing.Some? {
      UndisturbedMove(w3, outgoing.value, newId, p);
      var (w4, errs) := SupersedeOldTicket(w3, outgoing.value, newId, p);
      UndisturbedSave(w4, link.(lastError := Some(Message(Wrap("supersede ticket", Join(errs))))), None);
    }
  }

  lemma UndisturbedStatus(w: World, id: TicketId)
    requires Undisturbed(w) && id in w.s.tickets
    ensures var (w', live) := GetTicketStatus(w, id);
            var status := TrimSpace(w.s.tickets[id].status);
            Undisturbed(w') && w'.s == w.s && (live.Err? <==> status == "") && (live.Ok? ==> live.value == status)
  {}

  lemma UndisturbedSettle(w: World, id: TicketId, release: Release, p: Poll)
    requires Undisturbed(w) && id in w.s.tickets && w.s.row.openId == Some(id) && id != NO_TEXT
    requires w.s.row.lastKnown.Some? && w.s.row.lastKnown.value != release.tag
    ensures var (w1, live) := GetTicketStatus(w, id);
            var (w', outcome) := SettleOpenTicket(w1, w.s.row, id, live, release, p);
            Settled(w', outcome, release.tag) <==> Ready(w.s, p, release)
  {
    hide GetTicketStatus, RecordError, SavePollState, CreateFor, MergeInto, Classify, Message, CanCreate,
         CanSupersede, EffectivePolicy,
         TrimSpace, SUPERSEDED_STATUS_REQUIRED, POLICY_SUPERSEDE, POLICY_MERGE, POLICY_SKIP_IF_OPEN, Settled;
    var (w1, live) := GetTicketStatus(w, id);
    var row := w.s.row;
    UndisturbedStatus(w, id);
    OuterBlanksDoNotMatter(p.mapping, w.s.tickets[id].status);
    BlankIsUnknown(p.mapping, w.s.tickets[id].status);
    if live.Err? {
      UndisturbedRecord(w1, row, Message(live.error), p.now, release.tag);
    } else {
      match Classify(p.mapping, live.value)
      case Unknown => UndisturbedRecord(w1, row, "unknown ticket status " + live.value, p.now, release.tag);
      case Done => UndisturbedCreateFor(w1, ClearOpenTicket(row), release, p, None);
      case Cancelled => UndisturbedCreateFor(w1, ClearOpenTicket(row), release, p, None);
      case Open => UndisturbedOpen(w1, id, live, release, p);
    }
  }

  /** What the policy makes of a new release while the linked ticket is open. */
  lemma UndisturbedOpen(w: World, id: TicketId, live: Result<string, Error>, release: Release, p: Poll)
    requires Undisturbed(w) && id in w.s.tickets && live.Ok? && Classify(p.mapping, live.value).Open?
    ensures var (w', outcome) := SettleOpenTicket(w, w.s.row, id, live, release, p);
            var policy := EffectivePolicy(p);
            Settled(w', outcome, release.tag) <==>
              if policy == POLICY_SUPERSEDE then CanCreate(w.s.row, p, release) && CanSupersede(p)
              else if policy == POLICY_MERGE then p.content.Ok?
              else policy == POLICY_SKIP_IF_OPEN
  {
    hide RecordError, SavePollState, CreateFor, MergeInto, Classify, Message, CanCreate, CanSupersede, EffectivePolicy,
         SUPERSEDED_STATUS_REQUIRED, POLICY_SUPERSEDE, POLICY_MERGE, POLICY_SKIP_IF_OPEN;
    var row, policy := w.s.row, EffectivePolicy(p);
    if policy == POLICY_SUPERSEDE {
      NoSupersededStatus(p);
      UndisturbedRecord(w, row, SUPERSEDED_STATUS_REQUIRED, p.now, release.tag);
      UndisturbedCreateFor(w, row, release, p, Some(id));
    } else if policy == POLICY_MERGE {
      UndisturbedMerge(w, id, release, p);
    } else if policy == POLICY_SKIP_IF_OPEN {
      UndisturbedSave(w, KnownRow(row, release, p.now), None);
    } else {
      UndisturbedRecord(w, row, "unknown on_open_ticket_policy " + policy, p.now, release.tag);
    }
  }

  lemma BlankIsUnknown(m: Mapping, raw: string)
    ensures TrimSpace(raw) == "" ==> Classify(m, raw).Unknown?
  {}

  lemma NoSupersededStatus(p: Poll)
    ensures p.mapping.superseded == "" ==> !CanSupersede(p)
  {}

  lemma UndisturbedMerge(w: World, id: TicketId, release: Release, p: Poll)
    requires Undisturbed(w) && id in w.s.tickets
    ensures var (w', outcome) := MergeInto(w, w.s.row, id, release, p);
            Settled(w', outcome, release.tag) <==> p.content.Ok?
  {
    hide RecordError, SavePollState, Message;
    if p.content.Err? {
      UndisturbedRecord(w, w.s.row, Message(p.content.error), p.now, release.tag);
    } else {
      UndisturbedSave(UpdateTicket(w, id, release.tag).0,
                      KnownRow(w.s.row, release, p.now).(openTag := Some(release.tag)), None);
    }
  }

  lemma LinkedTicketExists(s: State)
    requires Core(s)
    ensures s.row.openId.Some? ==> s.row.openId.value in s.tickets
  {}

  /** One undisturbed poll settles the release it sees exactly when the row, the settings
      and the live ticket status allow it. In particular a marker for that very release, an
      unknown status, templates that do not render and -- on the first sighting -- a release
      without a tag are the ways it cannot. */
  lemma UndisturbedPollSettlesExactly(s: State, p: Poll, release: Release)
    requires Core(s) && p.fetched == Ok(Some(release))
    ensures var (w, outcome) := PollOnce(s, p, []);
            Settled(w, outcome, release.tag) <==> Ready(s, p, release)
  {
    LinkedTicketExists(s);
    ReadyInCases(s, p, release);
    hide Core, Ready, Settled, PollOnce, CreateFor, SettleOpenTicket, GetTicketStatus, CanCreate, CanSupersede,
         Classify;
    var row := s.row;
    if row.lastKnown.None? || row.lastKnown.value == release.tag {
      KnownOrBaseline(s, p, release);
    } else {
      var w := Live(Observe(s, p), []);
      PollOfNewTag(s, p, release);
      if HasOpenTicket(row) {
        UndisturbedSettle(w, row.openId.value, release, p);
      } else {
        UndisturbedCreateFor(w, row, release, p, None);
      }
    }
  }

  lemma ReadyInCases(s: State, p: Poll, release: Release)
    ensures Ready(Observe(s, p), p, release) == Ready(s, p, release)
    ensures s.row.lastKnown.None? || s.row.lastKnown.value == release.tag ==>
              (Ready(s, p, release) <==> s.row.lastKnown.Some? || release.tag != "")
    ensures s.row.lastKnown.Some? && s.row.lastKnown.value != release.tag && !HasOpenTicket(s.row) ==>
              (Ready(s, p, release) <==> CanCreate(s.row, p, release))
  {
    hide CanCreate, CanSupersede, Classify, EffectivePolicy, POLICY_SUPERSEDE, POLICY_MERGE, POLICY_SKIP_IF_OPEN;
  }

  lemma PollOfNewTag(s: State, p: Poll, release: Release)
    requires p.fetched == Ok(Some(release)) && s.row.lastKnown.Some? && s.row.lastKnown.value != release.tag
    ensures var w := Live(Observe(s, p), []);
            PollOnce(s, p, []) ==
              if HasOpenTicket(s.row) then
                var (w1, live) := GetTicketStatus(w, s.row.openId.value);
                SettleOpenTicket(w1, s.row, s.row.openId.value, live, release, p)
              else CreateFor(w, s.row, release, p, None)
  {
    hide CreateFor, SettleOpenTicket, GetTicketStatus, SavePollState, RecordError;
  }

  /** A release without a new tag settles, unless it is the first and has no tag at all. */
  lemma KnownOrBaseline(s: State, p: Poll, release: Release)
    requires p.fetched == Ok(Some(release)) && (s.row.lastKnown.None? || s.row.lastKnown.value == release.tag)
    ensures var (w, outcome) := PollOnce(s, p, []);
            Settled(w, outcome, release.tag) <==> s.row.lastKnown.Some? || release.tag != ""
  {
    hide SavePollState, RecordError, CreateFor, SettleOpenTicket, GetTicketStatus;
    var w, row := Live(Observe(s, p), []), s.row;
    UndisturbedSave(w, BaselineRow(row, Some(release), release.tag, p.now), None);
    UndisturbedSave(w, row.(lastPolled := Some(p.now), lastError := None), None);
  }

  /** Once a release is known, polls that see it leave the tracker alone: whatever fails, the
      state changes at most in the time of the last poll and in the error, which is cleared. */
  lemma KnownReleaseIsQuiet(s: State, p: Poll, release: Release, faults: seq<Fault>)
    requires Core(s) && p.fetched == Ok(Some(release)) && s.row.lastKnown == Some(release.tag)
    ensures var (w, outcome) := PollOnce(s, p, faults);
            && w.calls == 0
            && (|| w.s == Observe(s, p)
                || w.s == Observe(s, p).(row := s.row.(lastPolled := Some(p.now), lastError := None)))
            && (faults == [] ==> w.s.row == s.row.(lastPolled := Some(p.now), lastError := None)
                                 && outcome.Ok? && outcome.value.actions == [Skip])
  {
    var w := Live(Observe(s, p), faults);
    var update := s.row.(lastPolled := Some(p.now), lastError := None);
    assert StoreRow(w.s, update, None) == w.s.(row := update) by {
      assert s.row.openId.Some? ==> s.row.openId.value in s.linked;
    }
  }

  /** From every reachable state: a poll that can settle a release does, and the next poll
      that sees it makes no tracker call and only records the time. */
  lemma PollConverges(steps: seq<Step>, p: Poll, again: Poll, release: Release)
    requires p.fetched == Ok(Some(release)) && again.fetched == p.fetched
    requires Ready(Run(NEW_STATE, steps), p, release)
    ensures var s := Run(NEW_STATE, steps);
            var first := PollOnce(s, p, []).0;
            var second := PollOnce(first.s, again, []).0;
            && first.s.row.lastKnown == Some(release.tag) && first.s.row.lastError == None
            && second.calls == 0 && second.s.row == first.s.row.(lastPolled := Some(again.now))
            && second.s.tickets == first.s.tickets
  {
    hide Run, Core, Ready, Classify, EvaluateRepo;
    var s := Run(NEW_STATE, steps);
    ReachableCore(steps);
    UndisturbedPollSettlesExactly(s, p, release);
    var step := PollStep(p, []);
    StepKeepsCore(s, step);
    KnownReleaseIsQuiet(PollOnce(s, p, []).0.s, again, release, []);
  }

  // ---- releases that go back ----------------------------------------------------------

  /** The repo's last ticket, if it has one, is done. */
  predicate Idle(s: State, p: Poll) {
    s.row.openId.Some? && s.row.openId.value != NO_TEXT ==>
      s.row.openId.value in s.tickets && Classify(p.mapping, s.tickets[s.row.openId.value].status).Done?
  }

  /** What an undisturbed poll of a new release stores when no ticket is in the way. */
  lemma UndisturbedPollCreates(s: State, p: Poll, release: Release)
    requires p.fetched == Ok(Some(release)) && Idle(s, p) && CanCreate(s.row, p, release)
    requires s.row.lastKnown.Some? && s.row.lastKnown.value != release.tag
    ensures var s' := PollOnce(s, p, []).0.s;
            && s'.tickets.Keys == s.tickets.Keys + {s.nextId} && s'.nextId == s.nextId + 1 && s'.epoch == s.epoch
            && s'.tickets[s.nextId].tag == release.tag && s'.tickets[s.nextId].epoch == s.epoch
            && (forall id | id in s.tickets && id != s.nextId :: s'.tickets[id] == s.tickets[id])
            && s'.row.openId == Some(s.nextId) && s'.row.lastKnown == Some(release.tag) && s'.row.pending.None?
  {
    hide SavePollState, CreateTicket, SaveCreatedTicket, Classify, Message, SettleOpenTicket, CreateFor, TrimSpace;
    var w := Live(Observe(s, p), []);
    if HasOpenTicket(s.row) {
      UndisturbedSettleDone(w, s.row.openId.value, release, p);
      UndisturbedCreateStores(w.(calls := 1), ClearOpenTicket(s.row), release, p);
    } else {
      UndisturbedCreateStores(w, s.row, release, p);
    }
  }

  lemma UndisturbedSettleDone(w: World, id: TicketId, release: Release, p: Poll)
    requires Undisturbed(w) && id in w.s.tickets && Classify(p.mapping, w.s.tickets[id].status).Done?
    ensures var (w1, live) := GetTicketStatus(w, id);
            && w1 == w.(calls := w.calls + 1)
            && SettleOpenTicket(w1, w.s.row, id, live, release, p) ==
                 CreateFor(w1, ClearOpenTicket(w.s.row), release, p, None)
  {
    hide CreateFor, Classify, TrimSpace;
    OuterBlanksDoNotMatter(p.mapping, w.s.tickets[id].status);
    BlankIsUnknown(p.mapping, w.s.tickets[id].status);
  }

  lemma UndisturbedCreateStores(w: World, base: Row, release: Release, p: Poll)
    requires Undisturbed(w) && CanCreate(base, p, release)
    ensures var w1 := w.(s := StoreRow(w.s, base.(pending := Some(release.tag)), None));
            var made := Acknowledge(Add(w1.s, NextTicket(w1, release.tag)), w1.s.nextId);
            CreateFor(w, base, release, p, None).0.s == StoreRow(made, LinkRow(base, w.s.nextId, release, p.now), None)
  {
    hide SavePollState, CreateTicket, SaveCreatedTicket, Classify, Message;
    var marked := base.(pending := Some(release.tag));
    UndisturbedSave(w, marked, None);
    var w1 := w.(s := StoreRow(w.s, marked, None));
    UndisturbedCreate(w1, p.request, release.tag);
    UndisturbedLink(CreateTicket(w1, p.request, release.tag).0, LinkRow(base, w1.s.nextId, release, p.now), None);
  }

  /** "At most one ticket per tag" needs releases that do not go back: when the source shows
      another release and then the first one again, each finished ticket makes room for the
      next, and the first tag gets a second ticket. */
  lemma ReturningReleaseIsTicketedTwice(s: State, b: Poll, a: Poll, toB: Release, toA: Release, done: string)
    requires s.row.lastKnown == Some(toA.tag) && toA.tag != toB.tag && s.nextId !in s.tickets && s.nextId > NO_TEXT
    requires b.fetched == Ok(Some(toB)) && a.fetched == Ok(Some(toA)) && a.mapping == b.mapping
    requires Idle(s, b) && CanCreate(s.row, b, toB) && a.content.Ok? && TrimSpace(a.request.projectKey) != ""
    requires Classify(b.mapping, done).Done?
    ensures var steps := [PollStep(b, []), SetStatus(s.nextId, done), PollStep(a, []),
                          SetStatus(s.nextId + 1, done), PollStep(b, [])];
            !OncePerTag(Run(s, steps))
  {
    hide PollOnce, Classify, Idle, CanCreate, TrimSpace;
    var s1 := Apply(s, PollStep(b, []));
    UndisturbedPollCreates(s, b, toB);
    var s2 := Apply(s1, SetStatus(s.nextId, done));
    IdleAgain(s2, a, s.nextId);
    CanCreateAgain(s2.row, a, toA);
    UndisturbedPollCreates(s2, a, toA);
    var s3 := Apply(s2, PollStep(a, []));
    var s4 := Apply(s3, SetStatus(s.nextId + 1, done));
    IdleAgain(s4, b, s.nextId + 1);
    CanCreateLater(s.row, s4.row, b, toB);
    UndisturbedPollCreates(s4, b, toB);
    var s5 := Apply(s4, PollStep(b, []));
    assert s5.tickets[s.nextId].tag == s5.tickets[s.nextId + 2].tag == toB.tag;
    assert s5.tickets[s.nextId].epoch == s5.tickets[s.nextId + 2].epoch;
    RunFive(s, PollStep(b, []), SetStatus(s.nextId, done), PollStep(a, []), SetStatus(s.nextId + 1, done),
            PollStep(b, []));
  }

  lemma IdleAgain(s: State, p: Poll, id: TicketId)
    requires s.row.openId == Some(id) && id in s.tickets && Classify(p.mapping, s.tickets[id].status).Done?
    ensures Idle(s, p)
  {}

  lemma CanCreateAgain(row: Row, p: Poll, release: Release)
    requires row.pending.None? && p.content.Ok? && TrimSpace(p.request.projectKey) != ""
    ensures CanCreate(row, p, release)
  {}

  lemma CanCreateLater(before: Row, row: Row, p: Poll, release: Release)
    requires CanCreate(before, p, release) && row.pending.None?
    ensures CanCreate(row, p, release)
  {}

  lemma RunFive(s: State, a: Step, b: Step, c: Step, d: Step, e: Step)
    ensures Run(s, [a, b, c, d, e]) == Apply(Apply(Apply(Apply(Apply(s, a), b), c), d), e)
  {
    hide Apply;
    var s1 := Apply(s, a);
    var s2 := Apply(s1, b);
    var s3 := Apply(s2, c);
    var s4 := Apply(s3, d);
    assert [a, b, c, d, e][1..] == [b, c, d, e] && Run(s, [a, b, c, d, e]) == Run(s1, [b, c, d, e]);
    assert [b, c, d, e][1..] == [c, d, e] && Run(s1, [b, c, d, e]) == Run(s2, [c, d, e]);
    assert [c, d, e][1..] == [d, e] && Run(s2, [c, d, e]) == Run(s3, [d, e]);
    assert [d, e][1..] == [e] && Run(s3, [d, e]) == Run(s4, [e]);
    assert [e][1..] == [] && Run(s4, [e]) == Run(Apply(s4, e), []);
  }
}
