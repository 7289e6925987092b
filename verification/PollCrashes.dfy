/** A poll may die at any access to the store or the tracker. What it leaves then is the state in
    which that access found it, for every poll and every access, so a statement about the ends
    of all polls is one about every moment inside them. */
module PollCrashes {
  import opened Wrappers
  import opened TicketErrors
  import opened StatusMapping
  import opened PollModel
  import opened PollSafety
  import Jira

  /** The process dies before the access takes effect. */
  const DIES: Fault := FINE.(crash := Before)

  /** The first `k` outcomes, and then the end. */
  function CutShort(faults: seq<Fault>, k: nat): seq<Fault>
    requires k <= |faults|
  {
    faults[..k] + [DIES]
  }

  // ---- what a step does to the trace ----------------------------------------------------------

  /** A dead process does nothing; a live one adds to its trace, once for each outcome used. */
  ghost predicate Follows(w: World, w': World) {
    (w.crashed ==> w' == w) && w.trace <= w'.trace && |w'.trace| + |w'.faults| == |w.trace| + |w.faults|
  }

  lemma FollowsTwice(w: World, w1: World, w2: World)
    requires Follows(w, w1) && Follows(w1, w2)
    ensures Follows(w, w2)
  {}

  /** `c` is `w` with its outcomes cut short after the first `k`: up to there they are the same,
      and from there on `c` is dead, in the state in which access `k` found `w`. */
  ghost predicate Cut(w: World, c: World, k: nat) {
    if |w.trace| <= k then
      k - |w.trace| < |w.faults| && c == w.(faults := CutShort(w.faults, k - |w.trace|))
    else
      c.crashed && c.s == w.trace[k]
  }

  ghost predicate Reached(w: World, k: nat) {
    |w.trace| > k
  }

  // ---- single accesses --------------------------------------------------------------------------

  lemma NextFaultCut(w: World, c: World, k: nat)
    requires Cut(w, c, k) && !Reached(w, k) && !w.crashed
    ensures var ((f, w1), (cut, c1)) := (NextFault(w), NextFault(c));
            if |w.trace| == k then cut == DIES && Reached(w1, k) && w1.trace[k] == w.s
            else cut == f && Cut(w1, c1, k) && !Reached(w1, k)
  {
    if |w.trace| < k {
      assert c.faults[1..] == CutShort(w.faults[1..], k - |w.trace| - 1);
    }
  }

  lemma SaveCut(w: World, c: World, k: nat, update: Row, outgoing: Option<TicketId>)
    ensures Follows(w, SavePollState(w, update, outgoing).0)
    ensures Cut(w, c, k) ==>
              var (w', saved) := SavePollState(w, update, outgoing);
              var (c', cut) := SavePollState(c, update, outgoing);
              Cut(w', c', k) && (!Reached(w', k) ==> cut == saved)
  {
    hide StoreRow;
    if Cut(w, c, k) && !Reached(w, k) && !w.crashed { NextFaultCut(w, c, k); }
  }

  lemma ContextCut(w: World, c: World, k: nat)
    ensures Follows(w, ContextDone(w).0)
    ensures Cut(w, c, k) ==>
              var (w', done) := ContextDone(w);
              var (c', cut) := ContextDone(c);
              Cut(w', c', k) && (!Reached(w', k) ==> cut == done)
  {
    if Cut(w, c, k) && !Reached(w, k) && !w.crashed { NextFaultCut(w, c, k); }
  }

  lemma CreateCut(w: World, c: World, k: nat, request: Jira.Request, tag: Tag)
    ensures Follows(w, CreateTicket(w, request, tag).0)
    ensures Cut(w, c, k) ==>
              var (w', created) := CreateTicket(w, request, tag);
              var (c', cut) := CreateTicket(c, request, tag);
              Cut(w', c', k) && (!Reached(w', k) ==> cut == created)
  {
    hide Jira.CreateTicket, AddTickets, Acknowledge;
    if Cut(w, c, k) && !Reached(w, k) && !w.crashed { NextFaultCut(w, c, k); }
  }

  lemma StatusCut(w: World, c: World, k: nat, id: TicketId)
    ensures Follows(w, GetTicketStatus(w, id).0)
    ensures Cut(w, c, k) ==>
              var (w', live) := GetTicketStatus(w, id);
              var (c', cut) := GetTicketStatus(c, id);
              Cut(w', c', k) && (!Reached(w', k) ==> cut == live)
  {
    hide Strings.TrimSpace;
    if Cut(w, c, k) && !Reached(w, k) && !w.crashed { NextFaultCut(w, c, k); }
  }

  lemma MoveCut(w: World, c: World, k: nat, id: TicketId, status: string, successor: TicketId)
    ensures Follows(w, UpdateTicketStatus(w, id, status, successor).0)
    ensures Cut(w, c, k) ==>
              var (w', failed) := UpdateTicketStatus(w, id, status, successor);
              var (c', cut) := UpdateTicketStatus(c, id, status, successor);
              Cut(w', c', k) && (!Reached(w', k) ==> cut == failed)
  {
    hide Strings.TrimSpace, MoveTicket;
    if Cut(w, c, k) && !Reached(w, k) && !w.crashed { NextFaultCut(w, c, k); }
  }

  lemma RewriteCut(w: World, c: World, k: nat, id: TicketId, tag: Tag)
    ensures Follows(w, UpdateTicket(w, id, tag).0)
    ensures Cut(w, c, k) ==>
              var (w', failed) := UpdateTicket(w, id, tag);
              var (c', cut) := UpdateTicket(c, id, tag);
              Cut(w', c', k) && (!Reached(w', k) ==> cut == failed)
  {
    hide ShowTag;
    if Cut(w, c, k) && !Reached(w, k) && !w.crashed { NextFaultCut(w, c, k); }
  }

  lemma CommentCut(w: World, c: World, k: nat)
    ensures Follows(w, AddTicketComment(w).0)
    ensures Cut(w, c, k) ==>
              var (w', failed) := AddTicketComment(w);
              var (c', cut) := AddTicketComment(c);
              Cut(w', c', k) && (!Reached(w', k) ==> cut == failed)
  {
    if Cut(w, c, k) && !Reached(w, k) && !w.crashed { NextFaultCut(w, c, k); }
  }

  // ---- one access after the other -----------------------------------------------------------------

  /** What comes after `w1` keeps the two runs cut, whatever the dead one still tries. */
  lemma Continue(w1: World, c1: World, w2: World, c2: World, k: nat)
    requires Follows(w1, w2) && Follows(c1, c2) && Cut(w1, c1, k)
    requires !Reached(w1, k) ==> Cut(w2, c2, k)
    ensures Cut(w2, c2, k) && (Reached(w1, k) ==> Reached(w2, k))
  {}

  lemma RecordCut(w: World, c: World, k: nat, base: Row, message: string, now: string)
    ensures Follows(w, RecordError(w, base, message, now).0)
    ensures Cut(w, c, k) ==>
              var (w', outcome) := RecordError(w, base, message, now);
              var (c', cut) := RecordError(c, base, message, now);
              Cut(w', c', k) && (!Reached(w', k) ==> cut == outcome)
  {
    hide SavePollState, Cut, Follows, Reached;
    SaveCut(w, c, k, base.(lastPolled := Some(now), lastError := Some(message)), None);
  }

  lemma {:induction false} LinkFollows(w: World, update: Row, outgoing: Option<TicketId>, attempt: nat)
    ensures Follows(w, SaveCreatedTicket(w, update, outgoing, attempt).0)
    decreases LINK_WRITE_ATTEMPTS - attempt, 1
  {
    hide SavePollState, Follows, Cut, LINK_NOT_SAVED;
    SaveCut(w, w, 0, update, outgoing);
    var (w1, saved) := SavePollState(w, update, outgoing);
    AfterWriteFollows(w1, saved, update, outgoing, attempt);
    FollowsTwice(w, w1, SaveCreatedTicket(w, update, outgoing, attempt).0);
  }

  lemma {:induction false} AfterWriteFollows(w1: World, saved: Result<Row, Error>, update: Row,
                                             outgoing: Option<TicketId>, attempt: nat)
    ensures Follows(w1, AfterWrite(w1, saved, update, outgoing, attempt).0)
    decreases LINK_WRITE_ATTEMPTS - attempt, 0
  {
    Stays(w1);
    hide SavePollState, Follows, Cut, ContextDone, LINK_NOT_SAVED;
    if saved.Err? && attempt < LINK_WRITE_ATTEMPTS {
      ContextCut(w1, w1, 0);
      var (w2, done) := ContextDone(w1);
      if !done {
        LinkFollows(w2, update, outgoing, attempt + 1);
        FollowsTwice(w1, w2, AfterWrite(w1, saved, update, outgoing, attempt).0);
      }
    }
  }

  lemma Stays(w: World)
    ensures Follows(w, w)
  {}

  lemma {:induction false} LinkCut(w: World, c: World, k: nat, update: Row, outgoing: Option<TicketId>, attempt: nat)
    requires Cut(w, c, k)
    ensures var (w', saved) := SaveCreatedTicket(w, update, outgoing, attempt);
            var (c', cut) := SaveCreatedTicket(c, update, outgoing, attempt);
            Cut(w', c', k) && (!Reached(w', k) ==> cut == saved)
    decreases LINK_WRITE_ATTEMPTS - attempt
  {
    hide SavePollState, Follows, Cut, ContextDone, Reached, LINK_NOT_SAVED;
    SaveCut(w, c, k, update, outgoing);
    var (w1, saved) := SavePollState(w, update, outgoing);
    var (c1, cut) := SavePollState(c, update, outgoing);
    AfterWriteFollows(w1, saved, update, outgoing, attempt);
    AfterWriteFollows(c1, cut, update, outgoing, attempt);
    if !Reached(w1, k) && saved.Err? && attempt < LINK_WRITE_ATTEMPTS {
      ContextCut(w1, c1, k);
      var (w2, done) := ContextDone(w1);
      var (c2, alsoDone) := ContextDone(c1);
      if Reached(w2, k) {
        AfterContext(w2, c2, k, done, alsoDone, saved, update, outgoing, attempt);
      } else if !done {
        LinkCut(w2, c2, k, update, outgoing, attempt + 1);
      }
    }
    Continue(w1, c1, AfterWrite(w1, saved, update, outgoing, attempt).0,
             AfterWrite(c1, cut, update, outgoing, attempt).0, k);
  }

  lemma AfterContext(w2: World, c2: World, k: nat, done: bool, alsoDone: bool, saved: Result<Row, Error>,
                     update: Row, outgoing: Option<TicketId>, attempt: nat)
    requires Cut(w2, c2, k) && Reached(w2, k)
    ensures var w3 := if done then w2 else SaveCreatedTicket(w2, update, outgoing, attempt + 1).0;
            var c3 := if alsoDone then c2 else SaveCreatedTicket(c2, update, outgoing, attempt + 1).0;
            Cut(w3, c3, k) && Reached(w3, k)
  {
    Stays(w2);
    Stays(c2);
    hide SaveCreatedTicket, Follows, Cut, Reached;
    LinkFollows(w2, update, outgoing, attempt + 1);
    LinkFollows(c2, update, outgoing, attempt + 1);
    Continue(w2, c2, if done then w2 else SaveCreatedTicket(w2, update, outgoing, attempt + 1).0,
             if alsoDone then c2 else SaveCreatedTicket(c2, update, outgoing, attempt + 1).0, k);
  }

  // ---- the parts of an evaluation ---------------------------------------------------------------

  lemma FailureCut(w: World, c: World, k: nat, marked: Row, err: Error, now: string)
    ensures Follows(w, RecordCreateFailure(w, marked, err, now).0)
    ensures Cut(w, c, k) ==>
              var (w', outcome) := RecordCreateFailure(w, marked, err, now);
              var (c', cut) := RecordCreateFailure(c, marked, err, now);
              Cut(w', c', k) && (!Reached(w', k) ==> cut == outcome)
  {
    hide RecordError, Cut, Follows, Reached, Message, CreateDefinitelyNotStored;
    RecordCut(w, c, k, if CreateDefinitelyNotStored(err) then marked.(pending := None) else marked, Message(err), now);
  }

  lemma AfterMoveCut(w: World, c: World, k: nat, status: Option<Error>, p: Poll)
    ensures Follows(w, AfterMove(w, status, p).0)
    ensures Cut(w, c, k) ==>
              var (w', errs) := AfterMove(w, status, p);
              var (c', cut) := AfterMove(c, status, p);
              Cut(w', c', k) && (!Reached(w', k) ==> cut == errs)
  {
    Stays(w);
    hide Cut, Follows, Reached, SupersedeComment, AddTicketComment;
    CommentCut(w, c, k);
  }

  lemma SupersedeOldCut(w: World, c: World, k: nat, oldId: TicketId, newId: TicketId, p: Poll)
    ensures Follows(w, SupersedeOldTicket(w, oldId, newId, p).0)
    ensures Cut(w, c, k) ==>
              var (w', errs) := SupersedeOldTicket(w, oldId, newId, p);
              var (c', cut) := SupersedeOldTicket(c, oldId, newId, p);
              Cut(w', c', k) && (!Reached(w', k) ==> cut == errs)
  {
    hide Cut, Follows, Reached, SupersedeComment, AddTicketComment, UpdateTicketStatus;
    MoveCut(w, c, k, oldId, p.mapping.superseded, newId);
    var (w1, status) := UpdateTicketStatus(w, oldId, p.mapping.superseded, newId);
    var (c1, cut) := UpdateTicketStatus(c, oldId, p.mapping.superseded, newId);
    AfterMoveCut(w1, c1, k, status, p);
    AfterMoveCut(c1, c1, k, cut, p);
    FollowsTwice(w, w1, AfterMove(w1, status, p).0);
    if Cut(w, c, k) { Continue(w1, c1, AfterMove(w1, status, p).0, AfterMove(c1, cut, p).0, k); }
  }

  lemma AfterOldCut(w: World, c: World, k: nat, errs: seq<Error>, link: Row, saved: Row, oldId: TicketId, tag: Tag,
                    ref: EventRef)
    ensures Follows(w, AfterOld(w, errs, link, saved, oldId, tag, ref).0)
    ensures Cut(w, c, k) ==>
              var (w', outcome) := AfterOld(w, errs, link, saved, oldId, tag, ref);
              var (c', cut) := AfterOld(c, errs, link, saved, oldId, tag, ref);
              Cut(w', c', k) && (!Reached(w', k) ==> cut == outcome)
  {
    Stays(w);
    hide Cut, Follows, Reached, SavePollState, Message;
    if errs != [] {
      SaveCut(w, c, k, link.(lastError := Some(Message(Wrap("supersede ticket", Join(errs))))), None);
    }
  }

  lemma FinishCut(w: World, c: World, k: nat, link: Row, saved: Row, oldId: TicketId, newId: TicketId, p: Poll,
                  tag: Tag, ref: EventRef)
    ensures Follows(w, FinishSupersede(w, link, saved, oldId, newId, p, tag, ref).0)
    ensures Cut(w, c, k) ==>
              var (w', outcome) := FinishSupersede(w, link, saved, oldId, newId, p, tag, ref);
              var (c', cut) := FinishSupersede(c, link, saved, oldId, newId, p, tag, ref);
              Cut(w', c', k) && (!Reached(w', k) ==> cut == outcome)
  {
    hide Cut, Follows, Reached, SupersedeOldTicket, SavePollState, Message;
    SupersedeOldCut(w, c, k, oldId, newId, p);
    var (w1, errs) := SupersedeOldTicket(w, oldId, newId, p);
    var (c1, cut) := SupersedeOldTicket(c, oldId, newId, p);
    AfterOldCut(w1, c1, k, errs, link, saved, oldId, tag, ref);
    AfterOldCut(c1, c1, k, cut, link, saved, oldId, tag, ref);
    var w2, c2 := AfterOld(w1, errs, link, saved, oldId, tag, ref).0, AfterOld(c1, cut, link, saved, oldId, tag, ref).0;
    FollowsTwice(w, w1, w2);
    if Cut(w, c, k) { Continue(w1, c1, w2, c2, k); }
  }

  // ---- creating a ticket -----------------------------------------------------------------------

  lemma AfterLinkCut(w: World, c: World, k: nat, saved: Result<Row, Error>, link: Row, newId: TicketId,
                     release: Release, p: Poll, outgoing: Option<TicketId>)
    ensures Follows(w, AfterLink(w, saved, link, newId, release, p, outgoing).0)
    ensures Cut(w, c, k) ==>
              var (w', outcome) := AfterLink(w, saved, link, newId, release, p, outgoing);
              var (c', cut) := AfterLink(c, saved, link, newId, release, p, outgoing);
              Cut(w', c', k) && (!Reached(w', k) ==> cut == outcome)
  {
    Stays(w);
    hide Cut, Follows, Reached, FinishSupersede;
    if saved.Ok? && outgoing.Some? {
      FinishCut(w, c, k, link, saved.value, outgoing.value, newId, p, release.tag, TicketRef(newId, release.tag));
    }
  }

  lemma AfterCreateCut(w: World, c: World, k: nat, created: Result<TicketId, Error>, base: Row, release: Release,
                       p: Poll, outgoing: Option<TicketId>)
    ensures Follows(w, AfterCreate(w, created, base, release, p, outgoing).0)
    ensures Cut(w, c, k) ==>
              var (w', outcome) := AfterCreate(w, created, base, release, p, outgoing);
              var (c', cut) := AfterCreate(c, created, base, release, p, outgoing);
              Cut(w', c', k) && (!Reached(w', k) ==> cut == outcome)
  {
    hide Cut, Follows, Reached, RecordCreateFailure, SaveCreatedTicket, AfterLink, CreateContext;
    if created.Err? {
      FailureCut(w, c, k, base.(pending := Some(release.tag)), Wrap(CreateContext(outgoing), created.error), p.now);
    } else {
      var link := LinkRow(base, created.value, release, p.now);
      LinkFollows(w, link, outgoing, 1);
      var (w3, saved) := SaveCreatedTicket(w, link, outgoing, 1);
      var (c3, cut) := SaveCreatedTicket(c, link, outgoing, 1);
      AfterLinkCut(w3, c3, k, saved, link, created.value, release, p, outgoing);
      AfterLinkCut(c3, c3, k, cut, link, created.value, release, p, outgoing);
      var w4 := AfterLink(w3, saved, link, created.value, release, p, outgoing).0;
      FollowsTwice(w, w3, w4);
      if Cut(w, c, k) {
        LinkCut(w, c, k, link, outgoing, 1);
        Continue(w3, c3, w4, AfterLink(c3, cut, link, created.value, release, p, outgoing).0, k);
      }
    }
  }

  lemma AfterMarkCut(w: World, c: World, k: nat, mark: Result<Row, Error>, base: Row, release: Release, p: Poll,
                     outgoing: Option<TicketId>)
    ensures Follows(w, AfterMark(w, mark, base, release, p, outgoing).0)
    ensures Cut(w, c, k) ==>
              var (w', outcome) := AfterMark(w, mark, base, release, p, outgoing);
              var (c', cut) := AfterMark(c, mark, base, release, p, outgoing);
              Cut(w', c', k) && (!Reached(w', k) ==> cut == outcome)
  {
    Stays(w);
    hide Cut, Follows, Reached, CreateTicket, AfterCreate;
    if mark.Ok? {
      CreateCut(w, c, k, p.request, release.tag);
      var (w2, created) := CreateTicket(w, p.request, release.tag);
      var (c2, cut) := CreateTicket(c, p.request, release.tag);
      AfterCreateCut(w2, c2, k, created, base, release, p, outgoing);
      AfterCreateCut(c2, c2, k, cut, base, release, p, outgoing);
      var w3, c3 := AfterCreate(w2, created, base, release, p, outgoing).0,
          AfterCreate(c2, cut, base, release, p, outgoing).0;
      FollowsTwice(w, w2, w3);
      if Cut(w, c, k) { Continue(w2, c2, w3, c3, k); }
    }
  }

  lemma CreateForCut(w: World, c: World, k: nat, base: Row, release: Release, p: Poll, outgoing: Option<TicketId>)
    ensures Follows(w, CreateFor(w, base, release, p, outgoing).0)
    ensures Cut(w, c, k) ==>
              var (w', outcome) := CreateFor(w, base, release, p, outgoing);
              var (c', cut) := CreateFor(c, base, release, p, outgoing);
              Cut(w', c', k) && (!Reached(w', k) ==> cut == outcome)
  {
    hide Cut, Follows, Reached, RecordError, SavePollState, AfterMark, Message, PendingTicketMessage;
    if base.pending == Some(release.tag) {
      RecordCut(w, c, k, base, PendingTicketMessage(release.tag), p.now);
    } else if p.content.Err? {
      RecordCut(w, c, k, base, Message(p.content.error), p.now);
    } else {
      var marked := base.(pending := Some(release.tag));
      SaveCut(w, c, k, marked, None);
      var (w1, mark) := SavePollState(w, marked, None);
      var (c1, cut) := SavePollState(c, marked, None);
      AfterMarkCut(w1, c1, k, mark, base, release, p, outgoing);
      AfterMarkCut(c1, c1, k, cut, base, release, p, outgoing);
      var w2, c2 := AfterMark(w1, mark, base, release, p, outgoing).0, AfterMark(c1, cut, base, release, p, outgoing).0;
      FollowsTwice(w, w1, w2);
      if Cut(w, c, k) { Continue(w1, c1, w2, c2, k); }
    }
  }

  // ---- the whole evaluation --------------------------------------------------------------------

  lemma AfterRewriteCut(w: World, c: World, k: nat, failed: Option<Error>, row: Row, id: TicketId,
                        release: Release, p: Poll)
    ensures Follows(w, AfterRewrite(w, failed, row, id, release, p).0)
    ensures Cut(w, c, k) ==>
              var (w', outcome) := AfterRewrite(w, failed, row, id, release, p);
              var (c', cut) := AfterRewrite(c, failed, row, id, release, p);
              Cut(w', c', k) && (!Reached(w', k) ==> cut == outcome)
  {
    hide Cut, Follows, Reached, RecordError, SavePollState, Message;
    if failed.Some? {
      RecordCut(w, c, k, row, Message(Wrap("merge ticket", failed.value)), p.now);
    } else {
      SaveCut(w, c, k, KnownRow(row, release, p.now).(openTag := Some(release.tag)), None);
    }
  }

  lemma MergeCut(w: World, c: World, k: nat, row: Row, id: TicketId, release: Release, p: Poll)
    ensures Follows(w, MergeInto(w, row, id, release, p).0)
    ensures Cut(w, c, k) ==>
              var (w', outcome) := MergeInto(w, row, id, release, p);
              var (c', cut) := MergeInto(c, row, id, release, p);
              Cut(w', c', k) && (!Reached(w', k) ==> cut == outcome)
  {
    hide Cut, Follows, Reached, RecordError, SavePollState, UpdateTicket, Message;
    if p.content.Err? {
      RecordCut(w, c, k, row, Message(p.content.error), p.now);
    } else {
      RewriteCut(w, c, k, id, release.tag);
      var (w1, failed) := UpdateTicket(w, id, release.tag);
      var (c1, cut) := UpdateTicket(c, id, release.tag);
      AfterRewriteCut(w1, c1, k, failed, row, id, release, p);
      AfterRewriteCut(c1, c1, k, cut, row, id, release, p);
      var w2, c2 := AfterRewrite(w1, failed, row, id, release, p).0, AfterRewrite(c1, cut, row, id, release, p).0;
      FollowsTwice(w, w1, w2);
      if Cut(w, c, k) { Continue(w1, c1, w2, c2, k); }
    }
  }

  lemma SettleCut(w: World, c: World, k: nat, row: Row, id: TicketId, live: Result<string, Error>,
                  release: Release, p: Poll)
    ensures Follows(w, SettleOpenTicket(w, row, id, live, release, p).0)
    ensures Cut(w, c, k) ==>
              var (w', outcome) := SettleOpenTicket(w, row, id, live, release, p);
              var (c', cut) := SettleOpenTicket(c, row, id, live, release, p);
              Cut(w', c', k) && (!Reached(w', k) ==> cut == outcome)
  {
    hide Cut, Follows, Reached, RecordError, SavePollState, CreateFor, MergeInto, Message, Classify, EffectivePolicy,
         SUPERSEDED_STATUS_REQUIRED, POLICY_SUPERSEDE, POLICY_MERGE, POLICY_SKIP_IF_OPEN;
    if live.Err? {
      RecordCut(w, c, k, row, Message(live.error), p.now);
    } else {
      match Classify(p.mapping, live.value)
      case Unknown => RecordCut(w, c, k, row, "unknown ticket status " + live.value, p.now);
      case Done => CreateForCut(w, c, k, ClearOpenTicket(row), release, p, None);
      case Cancelled => CreateForCut(w, c, k, ClearOpenTicket(row), release, p, None);
      case Open =>
        RecordCut(w, c, k, row, SUPERSEDED_STATUS_REQUIRED, p.now);
        RecordCut(w, c, k, row, "unknown on_open_ticket_policy " + EffectivePolicy(p), p.now);
        CreateForCut(w, c, k, row, release, p, Some(id));
        MergeCut(w, c, k, row, id, release, p);
        SaveCut(w, c, k, KnownRow(row, release, p.now), None);
    }
  }

  lemma EvaluateCut(w: World, c: World, k: nat, row: Row, p: Poll)
    ensures Follows(w, EvaluateRepo(w, row, p).0)
    ensures Cut(w, c, k) ==>
              var (w', outcome) := EvaluateRepo(w, row, p);
              var (c', cut) := EvaluateRepo(c, row, p);
              Cut(w', c', k) && (!Reached(w', k) ==> cut == outcome)
  {
    hide Cut, Follows, Reached, RecordError, SavePollState, CreateFor, SettleOpenTicket, GetTicketStatus, Message;
    if p.fetched.Err? {
      RecordCut(w, c, k, row, Message(p.fetched.error), p.now);
    } else {
      var release := p.fetched.value;
      var (decision, tag) := DecideTagChange(row.lastKnown, release);
      match decision
      case TagBaseline => SaveCut(w, c, k, BaselineRow(row, release, tag, p.now), None);
      case TagSkip => SaveCut(w, c, k, row.(lastPolled := Some(p.now), lastError := None), None);
      case TagNew =>
        if HasOpenTicket(row) {
          var id := row.openId.value;
          StatusCut(w, c, k, id);
          var (w1, live) := GetTicketStatus(w, id);
          var (c1, cut) := GetTicketStatus(c, id);
          SettleCut(w1, c1, k, row, id, live, release.value, p);
          SettleCut(c1, c1, k, row, id, cut, release.value, p);
          var w2 := SettleOpenTicket(w1, row, id, live, release.value, p).0;
          var c2 := SettleOpenTicket(c1, row, id, cut, release.value, p).0;
          FollowsTwice(w, w1, w2);
          if Cut(w, c, k) { Continue(w1, c1, w2, c2, k); }
        } else {
          CreateForCut(w, c, k, row, release.value, p, None);
        }
    }
  }

  // ---- theorems ----------------------------------------------------------------------------------

  /** The states in which the accesses of a poll found the row and the tracker. */
  function Moments(s: State, p: Poll, faults: seq<Fault>): seq<State> {
    PollOnce(s, p, faults).0.trace
  }

  /** A poll that dies at its access number `k` leaves the state in which that access would have
      found things, whatever would have happened afterwards. */
  lemma DyingLeavesTheMoment(s: State, p: Poll, faults: seq<Fault>, k: nat)
    requires k < |Moments(s, p, faults)|
    ensures k < |faults| && PollOnce(s, p, CutShort(faults, k)).0.s == Moments(s, p, faults)[k]
  {
    var w := Live(Observe(s, p), faults);
    EvaluateCut(w, w, 0, s.row, p);
    var c := Live(Observe(s, p), CutShort(faults, k));
    EvaluateCut(w, c, k, s.row, p);
  }

  /** Every moment inside a poll is in order: between any two accesses, as after the poll, links
      are whole, and superseding came after linking. */
  lemma EveryMomentKeepsCore(s: State, p: Poll, faults: seq<Fault>, k: nat)
    requires Core(s) && k < |Moments(s, p, faults)|
    ensures Core(Moments(s, p, faults)[k])
  {
    hide Core, Moments, PollOnce;
    DyingLeavesTheMoment(s, p, faults, k);
    StepKeepsCore(s, PollStep(p, CutShort(faults, k)));
  }

  /** And in a legal step no tag has two tickets at any moment. */
  lemma EveryMomentKeepsInv(s: State, p: Poll, faults: seq<Fault>, k: nat)
    requires Inv(s) && LegalStep(s, PollStep(p, faults)) && k < |Moments(s, p, faults)|
    ensures Inv(Moments(s, p, faults)[k])
  {
    hide Inv, Moments, PollOnce;
    DyingLeavesTheMoment(s, p, faults, k);
    StaysTrusted(p.request, faults, k);
    StepKeepsInv(s, PollStep(p, CutShort(faults, k)));
  }

  lemma StaysTrusted(request: Jira.Request, faults: seq<Fault>, k: nat)
    requires Trusted(request, faults) && k <= |faults|
    ensures Trusted(request, CutShort(faults, k))
  {
    assert Jira.DoJson(DIES.first).Ok?;
  }
}
