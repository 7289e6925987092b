/** The promises of the ticket protocol, over every history of one monitored repo. Only the
    first needs a legal history: releases that do not go back, no ambiguous create repeated. */
module PollTheorems {
  import opened Wrappers
  import opened TicketErrors
  import opened PollModel
  import opened PollSafety

  /** The tracker never holds two tickets for one tag between two target changes. */
  lemma AtMostOneTicketPerTag(steps: seq<Step>)
    requires Legal(NEW_STATE, steps)
    ensures OncePerTag(Run(NEW_STATE, steps))
  {
    ReachableInv(steps);
  }

  /** The stored link is whole, and names a ticket that the tracker acknowledged for the
      current target. */
  lemma LinkNamesAcknowledgedTicket(steps: seq<Step>)
    ensures var s := Run(NEW_STATE, steps); LinkOk(s, s.row)
  {
    ReachableCore(steps);
  }

  /** A ticket is moved to the superseded status only in favour of a later ticket whose link
      was stored before: no state shows the move without the link. */
  lemma SupersedeFollowsLink(steps: seq<Step>, replaced: TicketId)
    ensures var s := Run(NEW_STATE, steps);
            replaced in s.moved ==>
              s.moved[replaced] in s.linked && replaced in s.linked && replaced < s.moved[replaced]
  {
    ReachableCore(steps);
  }

  /** When the tracker stored a ticket, the row announced its tag, and a different tag had
      been stored as last known for the same source before. */
  lemma TicketsFollowABaseline(steps: seq<Step>, id: TicketId)
    ensures var s := Run(NEW_STATE, steps);
            id in s.tickets ==>
              var t := s.tickets[id];
              && Announced(t)
              && (t.source == s.source ==> t.before.lastKnown.value in s.known)
  {
    ReachableCore(steps);
    var s := Run(NEW_STATE, steps);
    if id in s.tickets { assert TicketOk(s, id); }
  }

  /** Until a tag was stored for the current source -- after registration, and after a change
      of kind, path or integration -- no poll touches the tracker. */
  lemma FirstReleaseIsNeverTicketed(steps: seq<Step>, p: Poll, faults: seq<Fault>)
    ensures var s := Run(NEW_STATE, steps);
            var w := PollOnce(s, p, faults).0;
            s.known == {} ==> w.calls == 0 && w.s.tickets == s.tickets
  {
    ReachableCore(steps);
    hide Run;
    var s := Run(NEW_STATE, steps);
    if s.known == {} {
      assert s.row.lastKnown.None?;
      QuietSaves(Live(Observe(s, p), faults));
    }
  }

  /** Writing the row calls no tracker. */
  lemma QuietSaves(w: World)
    ensures forall update, outgoing :: var w' := SavePollState(w, update, outgoing).0;
              w'.calls == w.calls && w'.s.tickets == w.s.tickets
  {}

  // ---- the pending marker -------------------------------------------------------------

  /** A history in which no release other than `tag` is observed and the target stays. */
  predicate OnlySees(steps: seq<Step>, tag: Tag) {
    forall step | step in steps ::
      && !step.Retarget?
      && (step.PollStep? && step.poll.fetched.Ok? && step.poll.fetched.value.Some? ==>
            step.poll.fetched.value.value.tag == tag)
  }

  lemma GuardedSave(w: World, update: Row, tag: Tag)
    requires w.s.row.pending == Some(tag) && update.pending == Some(tag)
    ensures var w' := SavePollState(w, update, None).0;
            w'.s.row.pending == Some(tag) && w'.s.tickets == w.s.tickets
  {}

  lemma GuardedRecord(w: World, base: Row, message: string, now: string, tag: Tag)
    requires w.s.row.pending == Some(tag) && base.pending == Some(tag)
    ensures var w' := RecordError(w, base, message, now).0;
            w'.s.row.pending == Some(tag) && w'.s.tickets == w.s.tickets
  {
    GuardedSave(w, base.(lastPolled := Some(now), lastError := Some(message)), tag);
  }

  lemma GuardedMerge(w: World, id: TicketId, release: Release, p: Poll)
    requires w.s.row.pending == Some(release.tag)
    ensures var w' := MergeInto(w, w.s.row, id, release, p).0;
            w'.s.row.pending == Some(release.tag) && w'.s.tickets.Keys == w.s.tickets.Keys
  {
    hide SavePollState, RecordError;
    var (w1, failed) := UpdateTicket(w, id, release.tag);
    assert w1.s.row == w.s.row && w1.s.tickets.Keys == w.s.tickets.Keys;
    if p.content.Err? {
      GuardedRecord(w, w.s.row, Message(p.content.error), p.now, release.tag);
    } else if failed.Some? {
      GuardedRecord(w1, w.s.row, Message(Wrap("merge ticket", failed.value)), p.now, release.tag);
    } else {
      GuardedSave(w1, KnownRow(w.s.row, release, p.now).(openTag := Some(release.tag)), release.tag);
    }
  }

  lemma GuardedCreate(w: World, base: Row, release: Release, p: Poll, outgoing: Option<TicketId>)
    requires w.s.row.pending == Some(release.tag) && base.pending == Some(release.tag)
    ensures var w' := CreateFor(w, base, release, p, outgoing).0;
            w'.s.row.pending == Some(release.tag) && w'.s.tickets == w.s.tickets
  {
    hide RecordError, CreateTicket, SaveCreatedTicket, FinishSupersede, SavePollState, RecordCreateFailure,
         Message, PendingTicketMessage;
    GuardedRecord(w, base, PendingTicketMessage(release.tag), p.now, release.tag);
  }

  lemma GuardedSettle(w: World, id: TicketId, live: Result<string, Error>, release: Release, p: Poll)
    requires w.s.row.pending == Some(release.tag)
    ensures var w' := SettleOpenTicket(w, w.s.row, id, live, release, p).0;
            w'.s.row.pending == Some(release.tag) && w'.s.tickets.Keys == w.s.tickets.Keys
  {
    hide SavePollState, RecordError, MergeInto, CreateFor, StatusMapping.Classify;
    var row, tag := w.s.row, release.tag;
    if live.Err? {
      GuardedRecord(w, row, Message(live.error), p.now, tag);
    } else {
      match StatusMapping.Classify(p.mapping, live.value)
      case Unknown => GuardedRecord(w, row, "unknown ticket status " + live.value, p.now, tag);
      case Done => GuardedCreate(w, ClearOpenTicket(row), release, p, None);
      case Cancelled => GuardedCreate(w, ClearOpenTicket(row), release, p, None);
      case Open =>
        var policy := EffectivePolicy(p);
        if policy == POLICY_SUPERSEDE {
          GuardedRecord(w, row, SUPERSEDED_STATUS_REQUIRED, p.now, tag);
          GuardedCreate(w, row, release, p, Some(id));
        } else if policy == POLICY_MERGE {
          GuardedMerge(w, id, release, p);
        } else if policy == POLICY_SKIP_IF_OPEN {
          GuardedSave(w, KnownRow(row, release, p.now), tag);
        } else {
          GuardedRecord(w, row, "unknown on_open_ticket_policy " + policy, p.now, tag);
        }
    }
  }

  /** While the marker names the observed release, no poll creates a ticket or clears it. */
  lemma GuardedPoll(w: World, p: Poll, tag: Tag)
    requires w.s.row.pending == Some(tag)
    requires p.fetched.Ok? && p.fetched.value.Some? ==> p.fetched.value.value.tag == tag
    ensures var w' := EvaluateRepo(w, w.s.row, p).0;
            w'.s.row.pending == Some(tag) && w'.s.tickets.Keys == w.s.tickets.Keys
  {
    hide SavePollState, RecordError, CreateFor, SettleOpenTicket;
    var row := w.s.row;
    if p.fetched.Err? {
      GuardedRecord(w, row, Message(p.fetched.error), p.now, tag);
    } else {
      var release := p.fetched.value;
      match DecideTagChange(row.lastKnown, release).0
      case TagBaseline => GuardedSave(w, BaselineRow(row, release, DecideTagChange(row.lastKnown, release).1,
                                                     p.now), tag);
      case TagSkip => GuardedSave(w, row.(lastPolled := Some(p.now), lastError := None), tag);
      case TagNew =>
        if HasOpenTicket(row) {
          var (w1, live) := GetTicketStatus(w, row.openId.value);
          GuardedSettle(w1, row.openId.value, live, release.value, p);
        } else {
          GuardedCreate(w, row, release.value, p, None);
        }
    }
  }

  /** A create that may have left a ticket behind is never repeated: however often the repo
      is polled, whatever fails and whatever people do in the tracker, no further ticket
      appears and the marker stays. */
  lemma {:induction false} PendingTagIsNeverCreatedAgain(s: State, steps: seq<Step>, tag: Tag)
    requires s.row.pending == Some(tag) && OnlySees(steps, tag)
    ensures var s' := Run(s, steps);
            s'.tickets.Keys == s.tickets.Keys && s'.row.pending == Some(tag)
    decreases |steps|
  {
    if steps != [] {
      var step := steps[0];
      match step {
        case PollStep(p, faults) => GuardedPoll(Live(Observe(s, p), faults), p, tag);
        case SetupFailure(message, now, faults) => GuardedRecord(Live(s, faults), s.row, message, now, tag);
        case SetStatus(id, status) =>
      }
      PendingTagIsNeverCreatedAgain(Apply(s, step), steps[1..], tag);
    }
  }
}
