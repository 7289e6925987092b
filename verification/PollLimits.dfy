/** Where the ticket protocol's promise ends, exactly: a create that is repeated without its
    priority although the first attempt may have stored an issue. */
module PollLimits {
  import opened Wrappers
  import opened TicketErrors
  import opened StatusMapping
  import opened PollModel
  import opened PollSafety
  import opened PollConvergence
  import opened PollTickets
  import Strings
  import Jira

  // ---- polls that create ------------------------------------------------------------------------

  /** The linked ticket is open, and is to be superseded. */
  predicate Supersedes(s: State, p: Poll) {
    && HasOpenTicket(s.row) && s.row.openId.value in s.tickets
    && Classify(p.mapping, s.tickets[s.row.openId.value].status).Open?
    && EffectivePolicy(p) == POLICY_SUPERSEDE && p.mapping.superseded != ""
  }

  /** The linked ticket, if there is one, is closed. */
  predicate Unhindered(s: State, p: Poll) {
    HasOpenTicket(s.row) ==>
      && s.row.openId.value in s.tickets
      && var reading := Classify(p.mapping, s.tickets[s.row.openId.value].status);
         reading.Done? || reading.Cancelled?
  }

  /** A poll of `release` gets as far as creating a ticket for it. */
  predicate ReachesCreate(s: State, p: Poll, release: Release) {
    && s.row.lastKnown.Some? && s.row.lastKnown.value != release.tag
    && p.fetched == Ok(Some(release)) && CanCreate(s.row, p, release)
    && (Unhindered(s, p) || Supersedes(s, p))
  }

  /** The row the create starts from, and the ticket it replaces. */
  function Base(s: State, p: Poll): Row {
    if HasOpenTicket(s.row) && !Supersedes(s, p) then ClearOpenTicket(s.row) else s.row
  }

  function Outgoing(s: State, p: Poll): Option<TicketId> {
    if Supersedes(s, p) then s.row.openId else None
  }

  /** The faults of a poll that is undisturbed but for its create. */
  function OnlyCreate(s: State, f: Fault): seq<Fault> {
    if HasOpenTicket(s.row) then [FINE, FINE, f] else [FINE, f]
  }

  /** The create goes out, and the process survives it. */
  predicate GoesOut(f: Fault) {
    f.crash.NoCrash? && f.cancelled.None?
  }

  /** The outcomes to come: the marker is stored, and then the create ends as `f` says. */
  predicate AboutToCreate(w: World, f: Fault) {
    !w.crashed && (w.faults == [FINE, f] || (w.faults == [] && f == FINE))
  }

  lemma StatusOfLinked(w: World, id: TicketId, m: Mapping)
    requires !w.crashed && id in w.s.tickets && (w.faults == [] || w.faults[0] == FINE)
    ensures var (w', live) := GetTicketStatus(w, id);
            && w'.s == w.s && !w'.crashed && w'.faults == (if w.faults == [] then [] else w.faults[1..])
            && (live.Ok? ==> Classify(m, live.value) == Classify(m, w.s.tickets[id].status))
            && (live.Err? ==> Classify(m, w.s.tickets[id].status).Unknown?)
  {
    hide Classify, Strings.TrimSpace;
    OuterBlanksDoNotMatter(m, w.s.tickets[id].status);
    BlankIsUnknown(m, w.s.tickets[id].status);
  }

  /** What a poll that gets there does is to create. */
  lemma PollIsCreate(s: State, p: Poll, release: Release, faults: seq<Fault>, f: Fault) returns (w: World)
    requires ReachesCreate(s, p, release)
    requires faults == OnlyCreate(s, f) || (faults == [] && f == FINE)
    ensures w.s == Observe(s, p) && AboutToCreate(w, f)
    ensures PollOnce(s, p, faults).0 == CreateFor(w, Base(s, p), release, p, Outgoing(s, p)).0
  {
    hide CreateFor, Classify, GetTicketStatus, MergeInto, SavePollState, RecordError, Message, CanCreate,
         EffectivePolicy,
         POLICY_SUPERSEDE, POLICY_MERGE, POLICY_SKIP_IF_OPEN, SUPERSEDED_STATUS_REQUIRED;
    w := Live(Observe(s, p), faults);
    if HasOpenTicket(s.row) {
      var id := s.row.openId.value;
      StatusOfLinked(w, id, p.mapping);
      w := GetTicketStatus(w, id).0;
    }
  }

  // ---- what a create leaves behind -----------------------------------------------------------

  lemma MarkedFirst(w: World, marked: Row, f: Fault)
    requires AboutToCreate(w, f)
    ensures var (w', saved) := SavePollState(w, marked, None);
            && saved == Ok(marked) && w'.s == StoreRow(w.s, marked, None) && !w'.crashed
            && (w'.faults == [f] || (w'.faults == [] && f == FINE))
  {}

  lemma CreateLeaves(w: World, request: Jira.Request, tag: Tag, f: Fault)
    requires !w.crashed && (w.faults == [f] || (w.faults == [] && f == FINE)) && GoesOut(f) && IdsBelow(w.s)
    ensures var made := Jira.CreateTicket(request, None, f.first, f.second);
            var (w', created) := CreateTicket(w, request, tag);
            && Undisturbed(w') && IdsBelow(w'.s) && Holds(w'.s, w.s.nextId, made.stored, tag, w.s.epoch)
            && (made.result.Err? ==>
                  && created == Err(made.result.error)
                  && w'.s == w.s.(tickets := w'.s.tickets, nextId := w.s.nextId + made.stored)
                  && forall id | id in w.s.tickets :: id in w'.s.tickets && w'.s.tickets[id] == w.s.tickets[id])
  {
    hide Jira.CreateTicket;
    var n := Jira.CreateTicket(request, None, f.first, f.second).stored;
    AddedTickets(w.s, Ticket(tag, tag, f.status, w.s.epoch, w.s.source, false, w.s.row), n);
  }

  lemma StillHolds(s: State, s': State, id: TicketId, n: nat, tag: Tag, epoch: nat)
    requires IdsBelow(s) && Keeps(s, s') && Holds(s, id, n, tag, epoch)
    ensures Holds(s', id, n, tag, epoch)
  {}

  /** As many tickets for the tag as the tracker stored are there when the poll ends, next to
      all the earlier ones. A definite failure leaves nothing else but the recorded error. */
  lemma CreateForLeaves(w: World, base: Row, release: Release, p: Poll, outgoing: Option<TicketId>, f: Fault)
    requires AboutToCreate(w, f) && GoesOut(f) && IdsBelow(w.s) && CanCreate(base, p, release)
    ensures var made := Jira.CreateTicket(p.request, None, f.first, f.second);
            var s' := CreateFor(w, base, release, p, outgoing).0.s;
            && Keeps(w.s, s') && Holds(s', w.s.nextId, made.stored, release.tag, w.s.epoch)
            && (made.result.Err? && CreateDefinitelyNotStored(made.result.error) ==>
                  && s'.row == base.(pending := None, lastPolled := s'.row.lastPolled, lastError := s'.row.lastError)
                  && s'.nextId == w.s.nextId + made.stored
                  && forall id | id in w.s.tickets :: id in s'.tickets && s'.tickets[id] == w.s.tickets[id])
  {
    var tag := release.tag;
    var made := Jira.CreateTicket(p.request, None, f.first, f.second);
    var marked := base.(pending := Some(tag));
    CreateForKeeps(w, base, release, p, outgoing);
    MarkedFirst(w, marked, f);
    var w1 := SavePollState(w, marked, None).0;
    CreateLeaves(w1, p.request, tag, f);
    var (w2, created) := CreateTicket(w1, p.request, tag);
    AfterCreateKeeps(w2, created, base, release, p, outgoing);
    hide Keeps, Holds, SavePollState, CreateTicket, AfterCreate, Jira.CreateTicket, Message, PendingTicketMessage,
         CreateDefinitelyNotStored, Strings.TrimSpace, CreateContext;
    assert CreateFor(w, base, release, p, outgoing) == AfterCreate(w2, created, base, release, p, outgoing);
    StillHolds(w2.s, AfterCreate(w2, created, base, release, p, outgoing).0.s, w.s.nextId, made.stored, tag, w.s.epoch);
    if made.result.Err? && CreateDefinitelyNotStored(made.result.error) {
      DefiniteFailure(w2, made.result.error, base, release, p, outgoing);
    }
  }

  lemma DefiniteFailure(w: World, error: Error, base: Row, release: Release, p: Poll, outgoing: Option<TicketId>)
    requires Undisturbed(w) && CreateDefinitelyNotStored(error)
    ensures var s' := AfterCreate(w, Err(error), base, release, p, outgoing).0.s;
            && s'.row == base.(pending := None, lastPolled := s'.row.lastPolled, lastError := s'.row.lastError)
            && s'.tickets == w.s.tickets && s'.nextId == w.s.nextId
  {
    hide SavePollState, Message, CreateDefinitelyNotStored, CreateContext;
    var err := Wrap(CreateContext(outgoing), error);
    WrappingKeepsVerdict(CreateContext(outgoing), error);
    var cleared := base.(pending := Some(release.tag)).(pending := None);
    UndisturbedSave(w, cleared.(lastPolled := Some(p.now), lastError := Some(Message(err))), None);
  }

  /** The same of the poll as a whole. */
  lemma PollLeaves(s: State, p: Poll, release: Release, faults: seq<Fault>, f: Fault)
    requires ReachesCreate(s, p, release) && GoesOut(f) && IdsBelow(s)
    requires faults == OnlyCreate(s, f) || (faults == [] && f == FINE)
    ensures var made := Jira.CreateTicket(p.request, None, f.first, f.second);
            var s' := PollOnce(s, p, faults).0.s;
            && Keeps(Observe(s, p), s') && Holds(s', s.nextId, made.stored, release.tag, s.epoch)
            && (made.result.Err? && CreateDefinitelyNotStored(made.result.error) ==>
                  ReachesCreate(s', p, release) && s'.nextId == s.nextId + made.stored)
  {
    hide Keeps, Holds, CreateFor, PollOnce, Classify, CreateDefinitelyNotStored, Jira.CreateTicket, Strings.TrimSpace,
         EffectivePolicy;
    var w := PollIsCreate(s, p, release, faults, f);
    CreateForLeaves(w, Base(s, p), release, p, Outgoing(s, p), f);
    var made := Jira.CreateTicket(p.request, None, f.first, f.second);
    if made.result.Err? && CreateDefinitelyNotStored(made.result.error) {
      ReachesAgain(s, PollOnce(s, p, faults).0.s, p, release);
    }
  }

  lemma ReachesAgain(s: State, s': State, p: Poll, release: Release)
    requires ReachesCreate(s, p, release)
    requires s'.row == Base(s, p).(pending := None, lastPolled := s'.row.lastPolled, lastError := s'.row.lastError)
    requires forall id | id in s.tickets :: id in s'.tickets && s'.tickets[id] == s.tickets[id]
    ensures ReachesCreate(s', p, release)
  {
    hide Classify, EffectivePolicy, Strings.TrimSpace, POLICY_SUPERSEDE;
  }

  lemma TwoTickets(s: State, i: TicketId, j: TicketId, tag: Tag, epoch: nat)
    requires i != j && Holds(s, i, 1, tag, epoch) && Holds(s, j, 1, tag, epoch)
    ensures !OncePerTag(s)
  {
    assert s.tickets[i].tag == s.tickets[j].tag && s.tickets[i].epoch == s.tickets[j].epoch;
  }

  /** Two polls of a release, the first disturbed at its create only. */
  function PolledTwice(s: State, p: Poll, f: Fault): State {
    PollOnce(PollOnce(s, p, OnlyCreate(s, f)).0.s, p, []).0.s
  }

  // ---- a repeated ambiguous create ------------------------------------------------------------

  lemma UndisturbedCreateStoresOne(request: Jira.Request)
    requires Strings.TrimSpace(request.projectKey) != ""
    ensures Jira.CreateTicket(request, None, FINE.first, FINE.second).stored == 1
  {
    assert !Jira.RetriesWithoutPriority(request, FINE.first);
  }

  /** The first attempt stored an issue and the repeat was rejected: the rejection clears the
      marker, and the next poll creates a second ticket for the tag. */
  lemma RejectedRepeatTicketsTwice(s: State, p: Poll, release: Release, f: Fault)
    requires IdsBelow(s) && ReachesCreate(s, p, release) && GoesOut(f)
    requires Jira.RepeatsAmbiguousCreate(p.request, f.first) && Jira.Stored(f.first) && Jira.NothingStored(f.second)
    ensures !OncePerTag(PolledTwice(s, p, f))
  {
    RejectedRepeat(p.request, f);
    UndisturbedCreateStoresOne(p.request);
    hide PollOnce, Jira.CreateTicket, Jira.RepeatsAmbiguousCreate, OncePerTag;
    PollLeaves(s, p, release, OnlyCreate(s, f), f);
    var s1 := PollOnce(s, p, OnlyCreate(s, f)).0.s;
    PollLeaves(s1, p, release, [], FINE);
    var s2 := PollOnce(s1, p, []).0.s;
    StillHolds(Observe(s1, p), s2, s.nextId, 1, release.tag, s.epoch);
    TwoTickets(s2, s.nextId, s1.nextId, release.tag, s.epoch);
  }

  lemma RejectedRepeat(request: Jira.Request, f: Fault)
    requires Strings.TrimSpace(request.projectKey) != ""
    requires Jira.RepeatsAmbiguousCreate(request, f.first) && Jira.Stored(f.first) && Jira.NothingStored(f.second)
    ensures var made := Jira.CreateTicket(request, None, f.first, f.second);
            made.stored == 1 && made.result.Err? && CreateDefinitelyNotStored(made.result.error)
  {
    hide Strings.TrimSpace, Jira.RetriesWithoutPriority;
    Jira.DefiniteAttempt(f.second);
  }

  /** Both attempts stored an issue: one poll leaves two tickets for the tag, and the next one
      leaves them there. */
  lemma RepeatedCreateTicketsTwice(s: State, p: Poll, release: Release, f: Fault)
    requires IdsBelow(s) && ReachesCreate(s, p, release) && GoesOut(f)
    requires Jira.RepeatsAmbiguousCreate(p.request, f.first) && Jira.Stored(f.first) && Jira.Stored(f.second)
    ensures !OncePerTag(PollOnce(s, p, OnlyCreate(s, f)).0.s) && !OncePerTag(PolledTwice(s, p, f))
  {
    var s1 := PollOnce(s, p, OnlyCreate(s, f)).0.s;
    PollLeaves(s, p, release, OnlyCreate(s, f), f);
    assert Jira.CreateTicket(p.request, None, f.first, f.second).stored == 2 by {
      hide Strings.TrimSpace, Jira.RetriesWithoutPriority, Jira.DoJson;
    }
    hide PollOnce, EvaluateRepo, Jira.CreateTicket, OncePerTag;
    Consecutive(s1, s.nextId, release.tag, s.epoch);
    PollKeepsTickets(Live(Observe(s1, p), []), s1.row, p);
    PollOnceEvaluates(s1, p);
    StillHolds(Observe(s1, p), PolledTwice(s, p, f), s.nextId, 2, release.tag, s.epoch);
    Consecutive(PolledTwice(s, p, f), s.nextId, release.tag, s.epoch);
  }

  lemma PollOnceEvaluates(s: State, p: Poll)
    ensures PollOnce(s, p, []) == EvaluateRepo(Live(Observe(s, p), []), s.row, p)
  {}

  lemma Consecutive(s: State, id: TicketId, tag: Tag, epoch: nat)
    requires Holds(s, id, 2, tag, epoch)
    ensures !OncePerTag(s)
  {
    TwoTickets(s, id, id + 1, tag, epoch);
  }

  // ---- the exact condition --------------------------------------------------------------------

  /** The same answers, with other outcomes behind them in the tracker. */
  function Hidden(f: Fault, first: bool, second: bool): RawFault {
    f.(first := Jira.WithStored(f.first, first), second := Jira.WithStored(f.second, second))
  }

  predicate Possible(f: RawFault) {
    Jira.Physical(f.first) && Jira.Physical(f.second)
  }

  lemma LatestAfter(s: State, p: Poll, release: Release, f: Fault)
    requires IdsBelow(s) && ReachesCreate(s, p, release) && GoesOut(f)
    ensures Latest(PollOnce(s, p, OnlyCreate(s, f)).0.s.seen, release.tag)
  {
    hide PollOnce, Jira.CreateTicket, CanCreate, Unhindered, Supersedes;
    PollLeaves(s, p, release, OnlyCreate(s, f), f);
  }

  lemma TrustedKeepsOncePerTag(s: State, p: Poll, release: Release, f: Fault)
    requires Inv(s) && CanObserve(s.seen, p) && ReachesCreate(s, p, release) && GoesOut(f)
    requires p.fetched == Ok(Some(release)) && !Jira.RepeatsAmbiguousCreate(p.request, f.first)
    ensures OncePerTag(PolledTwice(s, p, f))
  {
    hide Inv, Legal, CanCreate, Unhindered, Supersedes, EvaluateRepo, IdsBelow, OncePerTag, GoesOut, ReachesCreate,
         CanObserve, LegalStep, OnlyCreate, Jira.RepeatsAmbiguousCreate;
    InvMeans(s);
    OnlyCreateIsLegal(s, p, f);
    StepKeepsInv(s, PollStep(p, OnlyCreate(s, f)));
    var s1 := PollOnce(s, p, OnlyCreate(s, f)).0.s;
    LatestAfter(s, p, release, f);
    SeenIsLegal(s1, p, release);
    StepKeepsInv(s1, PollStep(p, []));
    InvMeans(PolledTwice(s, p, f));
  }

  lemma OnlyCreateIsLegal(s: State, p: Poll, f: Fault)
    requires CanObserve(s.seen, p) && !Jira.RepeatsAmbiguousCreate(p.request, f.first)
    ensures LegalStep(s, PollStep(p, OnlyCreate(s, f)))
  {
    assert !Jira.RepeatsAmbiguousCreate(p.request, FINE.first);
    hide Jira.RepeatsAmbiguousCreate;
  }

  lemma SeenIsLegal(s: State, p: Poll, release: Release)
    requires Latest(s.seen, release.tag) && p.fetched == Ok(Some(release))
    ensures LegalStep(s, PollStep(p, []))
  {}

  lemma InvMeans(s: State)
    requires Inv(s)
    ensures OncePerTag(s) && IdsBelow(s)
  {
    assert forall id | id in s.tickets :: TicketOk(s, id);
  }

  /** "At most one ticket per tag", exactly: whatever the tracker did behind the answers of a
      create, with or without a ticket to supersede, this poll and the next one of the release
      leave at most one ticket for each tag if and only if the answers do not make the client
      repeat an ambiguous create. */
  lemma OncePerTagExactly(s: State, p: Poll, release: Release, f: Fault)
    requires Inv(s) && CanObserve(s.seen, p) && ReachesCreate(s, p, release) && GoesOut(f)
    ensures (forall first, second | Possible(Hidden(f, first, second)) ::
             OncePerTag(PolledTwice(s, p, Hidden(f, first, second))))
            <==> !Jira.RepeatsAmbiguousCreate(p.request, f.first)
  {
    InvMeans(s);
    hide Inv, IdsBelow, CanObserve, PolledTwice, OncePerTag, ReachesCreate;
    if Jira.RepeatsAmbiguousCreate(p.request, f.first) {
      var rejected := Jira.NothingStored(f.second);
      var g := Hidden(f, true, !rejected);
      SameAnswers(p.request, f, true, !rejected);
      if rejected {
        RejectedRepeatTicketsTwice(s, p, release, g);
      } else {
        RepeatedCreateTicketsTwice(s, p, release, g);
      }
      assert Possible(Hidden(f, true, !rejected)) && !OncePerTag(PolledTwice(s, p, Hidden(f, true, !rejected)));
    } else {
      forall first, second | Possible(Hidden(f, first, second))
        ensures OncePerTag(PolledTwice(s, p, Hidden(f, first, second)))
      {
        SameAnswers(p.request, f, first, second);
        TrustedKeepsOncePerTag(s, p, release, Hidden(f, first, second));
      }
    }
  }

  /** The same after every legal history, which is where the first repeat of an ambiguous
      create can happen. */
  lemma OncePerTagExactlyAfter(steps: seq<Step>, p: Poll, release: Release, f: Fault)
    requires Legal(NEW_STATE, steps) && CanObserve(Run(NEW_STATE, steps).seen, p)
    requires ReachesCreate(Run(NEW_STATE, steps), p, release) && GoesOut(f)
    ensures (forall first, second | Possible(Hidden(f, first, second)) ::
             OncePerTag(PolledTwice(Run(NEW_STATE, steps), p, Hidden(f, first, second))))
            <==> !Jira.RepeatsAmbiguousCreate(p.request, f.first)
  {
    hide *;
    ReachableInv(steps);
    OncePerTagExactly(Run(NEW_STATE, steps), p, release, f);
  }

  /** What the client sees, and so what it repeats, is the same. */
  lemma SameAnswers(request: Jira.Request, f: Fault, first: bool, second: bool)
    ensures var g := Hidden(f, first, second);
            && Jira.RepeatsAmbiguousCreate(request, g.first) == Jira.RepeatsAmbiguousCreate(request, f.first)
            && Jira.NothingStored(g.first) == Jira.NothingStored(f.first)
            && Jira.NothingStored(g.second) == Jira.NothingStored(f.second)
            && (!Jira.NothingStored(f.first) && first ==> Jira.Stored(g.first))
            && (!Jira.NothingStored(f.second) && second ==> Jira.Stored(g.second))
            && (!Jira.NothingStored(f.first) && first && second == !Jira.NothingStored(f.second) ==> Possible(g))
            && g.crash == f.crash && g.cancelled == f.cancelled
  {
    assert Jira.DoJson(Jira.WithStored(f.first, first)) == Jira.DoJson(f.first);
  }

  // ---- whatever the tracker did ------------------------------------------------------------------

  /** The same faults, but for what the tracker did behind the answers. */
  ghost predicate AlikeFaults(a: seq<Fault>, b: seq<Fault>) {
    && |a| == |b|
    && forall i | 0 <= i < |a| :: exists first, second :: b[i] == Hidden(a[i], first, second)
  }

  ghost predicate Alike(a: Step, b: Step) {
    a == b || (a.PollStep? && b.PollStep? && a.poll == b.poll && AlikeFaults(a.faults, b.faults))
  }

  ghost predicate AllAlike(a: seq<Step>, b: seq<Step>) {
    |a| == |b| && forall i | 0 <= i < |a| :: Alike(a[i], b[i])
  }

  lemma CoreMeans(s: State)
    requires Core(s)
    ensures IdsBelow(s)
  {
    IdsAreGivenOut(s);
  }

  /** The tags observed so far do not depend on the tracker. */
  function SeenAfter(seen: seq<Tag>, step: Step): seq<Tag> {
    match step
    case PollStep(p, _) =>
      if p.fetched.Ok? && p.fetched.value.Some? then seen + [p.fetched.value.value.tag] else seen
    case Retarget(sourceChanged, ticketChanged) => if sourceChanged || ticketChanged then [] else seen
    case _ => seen
  }

  lemma StepSees(s: State, step: Step)
    requires Core(s)
    ensures Apply(s, step).seen == SeenAfter(s.seen, step)
  {
    CoreMeans(s);
    hide Core, EvaluateRepo, RecordError;
    match step
    case PollStep(p, faults) => PollKeepsTickets(Live(Observe(s, p), faults), s.row, p);
    case SetupFailure(message, now, faults) => RecordKeeps(Live(s, faults), s.row, message, now);
    case _ =>
  }

  lemma AlikeIsLegal(s: State, s': State, a: Step, b: Step)
    requires s.seen == s'.seen && Alike(a, b) && LegalStep(s, a)
    ensures LegalStep(s', b) && SeenAfter(s.seen, a) == SeenAfter(s'.seen, b)
  {
    if a != b {
      forall f | f in b.faults ensures !Jira.RepeatsAmbiguousCreate(b.poll.request, f.first) {
        var i :| 0 <= i < |b.faults| && b.faults[i] == f;
        var first, second :| f == Hidden(a.faults[i], first, second);
        SameAnswers(a.poll.request, a.faults[i], first, second);
      }
    }
  }

  lemma {:induction false} LegalWhateverStored(s: State, s': State, a: seq<Step>, b: seq<Step>)
    requires Core(s) && Core(s') && s.seen == s'.seen && AllAlike(a, b) && Legal(s, a)
    ensures Legal(s', b) && Run(s, a).seen == Run(s', b).seen
    decreases |a|
  {
    hide Core, Apply, LegalStep, Alike, SeenAfter;
    if a != [] {
      StepSees(s, a[0]);
      StepSees(s', b[0]);
      AlikeIsLegal(s, s', a[0], b[0]);
      StepKeepsCore(s, a[0]);
      StepKeepsCore(s', b[0]);
      LegalWhateverStored(Apply(s, a[0]), Apply(s', b[0]), a[1..], b[1..]);
    }
  }

  /** In a history of releases that do not go back whose answers repeat no ambiguous create, and
      after one more undisturbed poll, no tag has two tickets, whatever the tracker did behind
      the answers. */
  lemma OncePerTagWhateverStored(steps: seq<Step>, other: seq<Step>, p: Poll)
    requires Legal(NEW_STATE, steps) && AllAlike(steps, other) && CanObserve(Run(NEW_STATE, steps).seen, p)
    ensures OncePerTag(Run(NEW_STATE, other)) && OncePerTag(PollOnce(Run(NEW_STATE, other), p, []).0.s)
  {
    ReachableCore([]);
    hide Run, Legal, AllAlike, Inv, PollOnce;
    LegalWhateverStored(NEW_STATE, NEW_STATE, steps, other);
    ReachableInv(other);
    var s := Run(NEW_STATE, other);
    assert LegalStep(s, PollStep(p, []));
    StepKeepsInv(s, PollStep(p, []));
    InvMeans(s);
    InvMeans(PollOnce(s, p, []).0.s);
  }

  // ---- it happens -------------------------------------------------------------------------------

  /** A newly registered repo can get there: a baseline, a new release whose ticket is stored
      behind a server error that quotes a rejected priority, a rejected repeat, and a poll. */
  lemma SecondTicketIsReachable(q: Poll, a: Release, b: Release) returns (body: string)
    requires q.content.Ok? && Strings.TrimSpace(q.request.projectKey) != "" && q.request.priority != ""
    requires a.tag != "" && a.tag != b.tag
    ensures var p := q.(fetched := Ok(Some(b)));
            var first := Jira.Answered(500, body, Err(""), true);
            var second := Jira.Answered(400, "", Err(""), false);
            && Jira.Physical(first) && Jira.Physical(second)
            && var f := FINE.(first := first, second := second);
               !OncePerTag(Run(NEW_STATE, [PollStep(q.(fetched := Ok(Some(a))), []), PollStep(p, [FINE, f]),
                                           PollStep(p, [])]))
  {
    body := Jira.MisreadBody();
    var base, p := q.(fetched := Ok(Some(a))), q.(fetched := Ok(Some(b)));
    var f: Fault := FINE.(first := Jira.Answered(500, body, Err(""), true),
                          second := Jira.Answered(400, "", Err(""), false));
    Jira.QuotedBodyIsRetried(q.request, f.first);
    hide Strings.TrimSpace, PolledTwice, PollOnce, Apply, Jira.RetriesWithoutPriority, ReachesCreate, OncePerTag,
         Jira.QuotesRejection;
    var s := Apply(NEW_STATE, PollStep(base, []));
    AfterBaseline(q, a, b);
    RejectedRepeatTicketsTwice(s, p, b, f);
    RunThree(PollStep(base, []), PollStep(p, [FINE, f]), PollStep(p, []));
    TwicePolled(s, p, f);
  }

  lemma TwicePolled(s: State, p: Poll, f: Fault)
    requires !HasOpenTicket(s.row)
    ensures PolledTwice(s, p, f) == Apply(Apply(s, PollStep(p, [FINE, f])), PollStep(p, []))
  {
    hide PollOnce;
  }

  /** A baseline makes room for the first ticket. */
  lemma AfterBaseline(q: Poll, a: Release, b: Release)
    requires q.content.Ok? && Strings.TrimSpace(q.request.projectKey) != "" && a.tag != "" && a.tag != b.tag
    ensures var s := Apply(NEW_STATE, PollStep(q.(fetched := Ok(Some(a))), []));
            IdsBelow(s) && !HasOpenTicket(s.row) && ReachesCreate(s, q.(fetched := Ok(Some(b))), b)
  {
    hide Strings.TrimSpace, SavePollState;
    var base := q.(fetched := Ok(Some(a)));
    var w := Live(Observe(NEW_STATE, base), []);
    UndisturbedSave(w, BaselineRow(NEW_ROW, Some(a), a.tag, base.now), None);
  }

  lemma RunThree(a: Step, b: Step, c: Step)
    ensures Run(NEW_STATE, [a, b, c]) == Apply(Apply(Apply(NEW_STATE, a), b), c)
  {
    hide Apply;
    var s1 := Apply(NEW_STATE, a);
    var s2 := Apply(s1, b);
    assert [a, b, c][1..] == [b, c] && Run(NEW_STATE, [a, b, c]) == Run(s1, [b, c]);
    assert [b, c][1..] == [c] && Run(s1, [b, c]) == Run(s2, [c]);
    assert [c][1..] == [] && Run(s2, [c]) == Run(Apply(s2, c), []);
  }
}
