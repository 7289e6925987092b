/** What holds in every state that polls, crashes, target edits and people working in the
    tracker can lead to. */
module PollSafety {
  import opened Wrappers
  import opened TicketErrors
  import opened PollModel
  import opened StatusMapping
  import Jira

  // ---- histories --------------------------------------------------------------------

  /** Everything that changes a repo's row or tickets. A poll may die at any access; edits
      and people act between polls. */
  datatype Step =
    | PollStep(poll: Poll, faults: seq<Fault>)
    | SetupFailure(message: string, now: string, faults: seq<Fault>)
    | Retarget(sourceChanged: bool, ticketChanged: bool)
    | SetStatus(id: TicketId, status: string)

  function Observe(s: State, p: Poll): State {
    if p.fetched.Ok? && p.fetched.value.Some? then s.(seen := s.seen + [p.fetched.value.value.tag]) else s
  }

  /** A live process about to meet `faults`. */
  function Live(s: State, faults: seq<Fault>): World {
    World(s, 0, faults, false, [])
  }

  /** The poll state after an edit of the repo (resetPollStateOnTargetChange). */
  function RetargetedRow(row: Row, sourceChanged: bool): Row {
    Row(None, None,
        if sourceChanged then None else row.lastKnown,
        if sourceChanged then None else row.publishedAt,
        row.lastPolled, None, None)
  }

  function RetargetRepo(s: State, sourceChanged: bool, ticketChanged: bool): State {
    if !sourceChanged && !ticketChanged then s
    else
      s.(row := RetargetedRow(s.row, sourceChanged),
         epoch := s.epoch + 1,
         source := if sourceChanged then s.source + 1 else s.source,
         seen := [],
         known := if sourceChanged then {} else s.known)
  }

  function SetTicketStatus(s: State, id: TicketId, status: string): State {
    if id in s.tickets then s.(tickets := s.tickets[id := s.tickets[id].(status := status)]) else s
  }

  /** One poll: the release is observed, and the row is evaluated as it is stored. */
  function PollOnce(s: State, p: Poll, faults: seq<Fault>): (World, Outcome) {
    EvaluateRepo(Live(Observe(s, p), faults), s.row, p)
  }

  function Apply(s: State, step: Step): State {
    match step
    case PollStep(p, faults) => PollOnce(s, p, faults).0.s
    case SetupFailure(message, now, faults) => RecordError(Live(s, faults), s.row, message, now).0.s
    case Retarget(sourceChanged, ticketChanged) => RetargetRepo(s, sourceChanged, ticketChanged)
    case SetStatus(id, status) => SetTicketStatus(s, id, status)
  }

  function Run(s: State, steps: seq<Step>): State
    decreases |steps|
  {
    if steps == [] then s else Run(Apply(s, steps[0]), steps[1..])
  }

  predicate Trusted(request: Jira.Request, faults: seq<Fault>) {
    forall f | f in faults :: !Jira.RepeatsAmbiguousCreate(request, f.first)
  }

  /** Releases do not go back: a tag is the one observed last, or one not observed yet. */
  predicate CanObserve(seen: seq<Tag>, p: Poll) {
    p.fetched.Ok? && p.fetched.value.Some? && seen != [] ==>
      var tag := p.fetched.value.value.tag;
      tag == seen[|seen| - 1] || tag !in seen
  }

  predicate LegalStep(s: State, step: Step) {
    step.PollStep? ==> CanObserve(s.seen, step.poll) && Trusted(step.poll.request, step.faults)
  }

  predicate Legal(s: State, steps: seq<Step>)
    decreases |steps|
  {
    steps == [] || (LegalStep(s, steps[0]) && Legal(Apply(s, steps[0]), steps[1..]))
  }

  // ---- the invariant ----------------------------------------------------------------

  predicate Latest(seen: seq<Tag>, tag: Tag) {
    seen != [] && seen[|seen| - 1] == tag
  }

  predicate Remembers(row: Row, tag: Tag) {
    row.lastKnown == Some(tag) || row.pending == Some(tag)
  }

  /** The tracker stored `t` for a tag that had been announced on the row, and after another
      tag of the same source had been stored as last known. */
  predicate Announced(t: Ticket) {
    && t.before.pending == Some(t.tag)
    && t.before.lastKnown.Some? && t.before.lastKnown.value != t.tag
  }

  ghost predicate TicketOk(s: State, id: TicketId)
    requires id in s.tickets
  {
    var t := s.tickets[id];
    && NO_TEXT < id < s.nextId
    && t.epoch <= s.epoch && t.source <= s.source
    && (t.epoch == s.epoch ==> t.tag in s.seen)
    && Announced(t)
    && (t.source == s.source ==> t.before.lastKnown.value in s.known)
  }

  ghost predicate TicketsOk(s: State) {
    && s.nextId > NO_TEXT
    && forall id | id in s.tickets :: TicketOk(s, id)
  }

  /** No two tickets for one tag between two target changes. */
  ghost predicate OncePerTag(s: State) {
    forall i, j | i in s.tickets && j in s.tickets && i != j && s.tickets[i].tag == s.tickets[j].tag ::
      s.tickets[i].epoch != s.tickets[j].epoch
  }

  ghost predicate LedgerOk(s: State) {
    && s.linked <= s.tickets.Keys
    && (forall id | id in s.linked :: s.tickets[id].acked)
    && s.owed <= s.linked
    && (forall id | id in s.moved :: id in s.linked && s.moved[id] in s.linked && id < s.moved[id])
  }

  /** Nobody has a ticket for `tag` in the current epoch. */
  ghost predicate Unticketed(s: State, tag: Tag) {
    forall id | id in s.tickets && s.tickets[id].tag == tag :: s.tickets[id].epoch != s.epoch
  }

  /** The link of `row` is whole, and names an acknowledged ticket of the current epoch. */
  ghost predicate LinkOk(s: State, row: Row) {
    && (row.openId.Some? <==> row.openTag.Some?)
    && (row.openId.Some? ==>
          && row.openId.value in s.tickets
          && s.tickets[row.openId.value].acked && s.tickets[row.openId.value].epoch == s.epoch)
  }

  /** What holds in every history: tickets were announced, the ledger and the link are in order. */
  ghost predicate Core(s: State) {
    && TicketsOk(s) && LedgerOk(s) && LinkOk(s, s.row)
    && (s.row.lastKnown.Some? ==> s.row.lastKnown.value in s.known)
    && (s.row.openId.Some? ==> s.row.openId.value in s.linked)
  }

  /** Storing `row` forgets no ticket of the tag observed last. */
  ghost predicate Recalls(s: State, row: Row) {
    s.seen != [] && !Remembers(row, s.seen[|s.seen| - 1]) ==> Unticketed(s, s.seen[|s.seen| - 1])
  }

  /** What holds besides when releases do not go back and no ambiguous create is repeated. */
  ghost predicate Inv(s: State) {
    Core(s) && OncePerTag(s) && Recalls(s, s.row)
  }

  /** The two are kept for the same reasons, so they are proved together: `strict` tells which. */
  ghost predicate Sound(strict: bool, s: State) {
    Core(s) && (strict ==> OncePerTag(s) && Recalls(s, s.row))
  }

  ghost predicate RowSound(strict: bool, s: State, row: Row) {
    LinkOk(s, row) && (strict ==> Recalls(s, row))
  }

  // ---- every access keeps it ---------------------------------------------------------

  /** What an access to the store leaves alone. */
  ghost predicate SameTracker(s: State, s': State) {
    && s'.tickets == s.tickets && s'.nextId == s.nextId
    && s'.epoch == s.epoch && s'.source == s.source && s'.seen == s.seen
    && s.linked <= s'.linked
  }

  ghost predicate FewerFaults(w: World, w': World) {
    && (forall f | f in w'.faults :: f in w.faults)
    && (w.crashed ==> w' == w)
  }

  lemma StoreKeepsSound(strict: bool, s: State, update: Row, outgoing: Option<TicketId>)
    requires Sound(strict, s) && RowSound(strict, s, update)
    requires outgoing.Some? ==> outgoing.value in s.linked
    ensures Sound(strict, StoreRow(s, update, outgoing)) && SameTracker(s, StoreRow(s, update, outgoing))
  {
    var s' := StoreRow(s, update, outgoing);
    assert RowSound(strict, s', update);
    assert forall id | id in s'.tickets :: TicketOk(s, id) ==> TicketOk(s', id);
  }

  /** RowSound speaks about the tracker and the observed tags only. */
  lemma RowSoundFrame(strict: bool, s: State, s': State, row: Row)
    requires SameTracker(s, s') && RowSound(strict, s, row)
    ensures RowSound(strict, s', row)
  {}

  lemma SaveKeepsSound(strict: bool, w: World, update: Row, outgoing: Option<TicketId>)
    requires Sound(strict, w.s) && (w.crashed || RowSound(strict, w.s, update))
    requires outgoing.Some? ==> outgoing.value in w.s.linked
    ensures var (w', saved) := SavePollState(w, update, outgoing);
            && Sound(strict, w'.s) && SameTracker(w.s, w'.s) && FewerFaults(w, w')
            && (saved.Ok? ==> !w'.crashed && w'.s.row == update && saved.value == update)
            && (w'.s == w.s || w'.s == StoreRow(w.s, update, outgoing))
  {
    hide Sound, Core, RowSound;
    if !w.crashed { StoreKeepsSound(strict, w.s, update, outgoing); }
  }

  lemma RecordErrorKeepsSound(strict: bool, w: World, base: Row, message: string, now: string)
    requires Sound(strict, w.s) && (w.crashed || RowSound(strict, w.s, base))
    ensures var w' := RecordError(w, base, message, now).0;
            Sound(strict, w'.s) && SameTracker(w.s, w'.s) && FewerFaults(w, w')
  {
    hide Sound, Core;
    SaveKeepsSound(strict, w, base.(lastPolled := Some(now), lastError := Some(message)), None);
  }

  lemma {:induction false} SaveCreatedKeepsSound(strict: bool, w: World, update: Row, outgoing: Option<TicketId>,
                                                 attempt: nat)
    requires Sound(strict, w.s) && (w.crashed || RowSound(strict, w.s, update))
    requires outgoing.Some? ==> outgoing.value in w.s.linked
    ensures var (w', saved) := SaveCreatedTicket(w, update, outgoing, attempt);
            && Sound(strict, w'.s) && SameTracker(w.s, w'.s) && FewerFaults(w, w')
            && (saved.Ok? ==> !w'.crashed && w'.s.row == update && saved.value == update)
    decreases LINK_WRITE_ATTEMPTS - attempt
  {
    hide Sound, Core, RowSound, SavePollState;
    SaveKeepsSound(strict, w, update, outgoing);
    var (w1, saved) := SavePollState(w, update, outgoing);
    if saved.Err? && attempt < LINK_WRITE_ATTEMPTS {
      var (w2, done) := ContextDone(w1);
      if !done {
        if !w.crashed { RowSoundFrame(strict, w.s, w2.s, update); }
        SaveCreatedKeepsSound(strict, w2, update, outgoing, attempt + 1);
      }
    }
  }

  /** Changing what a ticket shows, its status or its acknowledgement. */
  lemma RetouchKeepsSound(strict: bool, s: State, id: TicketId, t: Ticket, acks: nat)
    requires Sound(strict, s) && id in s.tickets
    requires t == s.tickets[id].(shows := t.shows, status := t.status, acked := t.acked)
    requires s.tickets[id].acked ==> t.acked
    ensures var s' := s.(tickets := s.tickets[id := t], acks := acks);
            Sound(strict, s') && (forall row | RowSound(strict, s, row) :: RowSound(strict, s', row))
  {
    var s' := s.(tickets := s.tickets[id := t], acks := acks);
    assert s'.tickets.Keys == s.tickets.Keys;
    RetouchKeepsTickets(s, id, t, acks);
    RetouchKeepsLedger(s, id, t, acks);
    RetouchKeepsRow(strict, s, s', s.row);
    hide RowSound, TicketsOk, OncePerTag, LedgerOk;
    forall row | RowSound(strict, s, row) ensures RowSound(strict, s', row) { RetouchKeepsRow(strict, s, s', row); }
  }

  lemma RetouchKeepsLedger(s: State, id: TicketId, t: Ticket, acks: nat)
    requires LedgerOk(s) && id in s.tickets && (s.tickets[id].acked ==> t.acked)
    ensures LedgerOk(s.(tickets := s.tickets[id := t], acks := acks))
  {}

  lemma RetouchKeepsTickets(s: State, id: TicketId, t: Ticket, acks: nat)
    requires TicketsOk(s) && id in s.tickets
    requires t == s.tickets[id].(shows := t.shows, status := t.status, acked := t.acked)
    ensures var s' := s.(tickets := s.tickets[id := t], acks := acks);
            TicketsOk(s') && (OncePerTag(s) ==> OncePerTag(s'))
  {
    var s' := s.(tickets := s.tickets[id := t], acks := acks);
    assert forall k | k in s'.tickets :: TicketOk(s, k) ==> TicketOk(s', k);
  }

  lemma RetouchKeepsRow(strict: bool, s: State, s': State, row: Row)
    requires RowSound(strict, s, row) && s' == s.(tickets := s'.tickets, acks := s'.acks)
               && s'.tickets.Keys == s.tickets.Keys
    requires forall k | k in s.tickets ::
               s'.tickets[k] == s.tickets[k].(shows := s'.tickets[k].shows, status := s'.tickets[k].status,
                                              acked := s'.tickets[k].acked)
               && (s.tickets[k].acked ==> s'.tickets[k].acked)
    ensures RowSound(strict, s', row)
  {
    forall tag | Unticketed(s, tag) ensures Unticketed(s', tag) {}
  }

  function Add(s: State, ticket: Ticket): State {
    s.(tickets := s.tickets[s.nextId := ticket], nextId := s.nextId + 1)
  }

  /** New tickets, and nothing else. */
  ghost predicate Grown(s: State, s': State) {
    && s' == s.(tickets := s'.tickets, nextId := s'.nextId, acks := s'.acks) && s.nextId <= s'.nextId
    && (forall id | id in s.tickets :: id in s'.tickets && s'.tickets[id] == s.tickets[id])
    && (forall id | id in s'.tickets && id !in s.tickets :: s.nextId <= id < s'.nextId)
  }

  /** The tracker storing an issue for a marked tag: one that has none yet, where that matters. */
  lemma AddTicketKeepsSound(strict: bool, s: State, ticket: Ticket)
    requires Sound(strict, s) && Latest(s.seen, ticket.tag) && (strict ==> Unticketed(s, ticket.tag))
    requires ticket.epoch == s.epoch && ticket.source == s.source && ticket.before == s.row && Announced(ticket)
    ensures Sound(strict, Add(s, ticket)) && Grown(s, Add(s, ticket))
  {
    assert forall id | id in s.tickets :: TicketOk(s, id);
    var s' := Add(s, ticket);
    forall id | id in s'.tickets ensures TicketOk(s', id) {}
    assert LedgerOk(s');
  }

  lemma IdsAreGivenOut(s: State)
    requires Core(s)
    ensures s.nextId != NO_TEXT && forall id | id in s.tickets :: NO_TEXT < id < s.nextId
  {
    assert forall id | id in s.tickets :: TicketOk(s, id);
  }

  lemma AcknowledgeKeepsSound(strict: bool, s: State, grown: State, id: TicketId)
    requires Sound(strict, grown) && Grown(s, grown) && id in grown.tickets && id !in s.tickets
    ensures Sound(strict, Acknowledge(grown, id)) && Grown(s, Acknowledge(grown, id))
  {
    hide Sound;
    RetouchKeepsSound(strict, grown, id, grown.tickets[id].(acked := true), grown.acks + 1);
  }

  lemma {:induction false} AddTicketsKeepsSound(strict: bool, s: State, ticket: Ticket, n: nat)
    requires Sound(strict, s) && Latest(s.seen, ticket.tag) && (strict ==> Unticketed(s, ticket.tag) && n <= 1)
    requires ticket.epoch == s.epoch && ticket.source == s.source && ticket.before == s.row && Announced(ticket)
    ensures var s' := AddTickets(s, ticket, n);
            && Sound(strict, s') && Grown(s, s') && s'.nextId == s.nextId + n
            && forall id | s.nextId <= id < s.nextId + n ::
                 id !in s.tickets && id in s'.tickets && s'.tickets[id] == ticket
    decreases n
  {
    IdsAreGivenOut(s);
    if n > 0 {
      AddTicketKeepsSound(strict, s, ticket);
      hide Sound, Core, Grown, Announced;
      AddTicketsKeepsSound(false, Add(s, ticket), ticket, n - 1);
    }
  }

  /** A create for a marked tag keeps things in order, and leaves a tag without a ticket as it
      was when its failure is definite. */
  lemma CreateKeepsSound(strict: bool, w: World, request: Jira.Request, tag: Tag)
    requires Sound(strict, w.s) && !w.crashed && (strict ==> Trusted(request, w.faults))
    requires Latest(w.s.seen, tag) && (strict ==> Unticketed(w.s, tag))
    requires w.s.row.pending == Some(tag) && w.s.row.lastKnown.Some? && w.s.row.lastKnown.value != tag
    ensures var (w', created) := CreateTicket(w, request, tag);
            && Sound(strict, w'.s) && Grown(w.s, w'.s)
            && (strict && created.Err? && !w'.crashed && CreateDefinitelyNotStored(created.error) ==> w'.s == w.s)
            && (created.Ok? ==> && created.value in w'.s.tickets && w.s.nextId <= created.value
                                && w'.s.tickets[created.value].acked && w'.s.tickets[created.value].epoch == w.s.epoch
                                && !w'.crashed && FewerFaults(w, w'))
  {
    hide Sound, Core, Grown, Jira.CreateTicket, CreateDefinitelyNotStored;
    var (f, w1) := BeginCall(w);
    if strict { Jira.CreateIsSound(request, f.cancelled, f.first, f.second); }
    var n := Jira.CreateTicket(request, f.cancelled, f.first, f.second).stored;
    var ticket := NextTicket(w, tag);
    AddTicketsKeepsSound(strict, w.s, ticket, 0);
    AddTicketsKeepsSound(strict, w.s, ticket, n);
    var grown := AddTickets(w.s, ticket, n);
    assert AddTickets(w.s, ticket, 0) == w.s;
    if n > 0 {
      AcknowledgeKeepsSound(strict, w.s, grown, w.s.nextId + n - 1);
    }
  }

  /** The ticket that the next access would store. */
  function NextTicket(w: World, tag: Tag): Ticket {
    Ticket(tag, tag, NextFault(w).0.status, w.s.epoch, w.s.source, false, w.s.row)
  }

  lemma StatusEffect(w: World, id: TicketId, status: string, successor: TicketId)
    ensures var w' := UpdateTicketStatus(w, id, status, successor).0;
            w'.s == w.s || w'.s == MoveTicket(w.s, id, status, successor)
  {}

  lemma CommentEffect(w: World)
    ensures AddTicketComment(w).0.s == w.s
  {}

  lemma SupersedeOldKeepsSound(strict: bool, w: World, oldId: TicketId, newId: TicketId, p: Poll)
    requires Sound(strict, w.s) && oldId in w.s.linked && newId in w.s.linked && oldId < newId
    ensures var (w', errs) := SupersedeOldTicket(w, oldId, newId, p);
            && Sound(strict, w'.s) && w'.s.row == w.s.row
            && (w'.s == w.s || w'.s == MoveTicket(w.s, oldId, p.mapping.superseded, newId))
            && (forall row | RowSound(strict, w.s, row) :: RowSound(strict, w'.s, row))
  {
    MoveKeepsSound(strict, w.s, oldId, p.mapping.superseded, newId);
    StatusEffect(w, oldId, p.mapping.superseded, newId);
    var (w1, status) := UpdateTicketStatus(w, oldId, p.mapping.superseded, newId);
    CommentEffect(w1);
    hide Sound, Core, RowSound, MoveTicket, UpdateTicketStatus, AddTicketComment, SupersedeComment;
  }

  lemma MoveKeepsSound(strict: bool, s: State, id: TicketId, status: string, successor: TicketId)
    requires Sound(strict, s) && id in s.linked && successor in s.linked && id < successor
    ensures Sound(strict, MoveTicket(s, id, status, successor))
    ensures forall row | RowSound(strict, s, row) :: RowSound(strict, MoveTicket(s, id, status, successor), row)
    ensures MoveTicket(s, id, status, successor).row == s.row
  {
    RetouchKeepsSound(strict, s, id, s.tickets[id].(status := status), s.acks);
    var t := s.(tickets := s.tickets[id := s.tickets[id].(status := status)], acks := s.acks);
    var s' := MoveTicket(s, id, status, successor);
    assert LedgerOk(s');
    assert TicketsOk(t) ==> TicketsOk(s') by {
      assert forall k | k in t.tickets :: TicketOk(t, k) ==> TicketOk(s', k);
    }
    assert RowSound(strict, t, s.row) ==> RowSound(strict, s', s.row);
    forall row | RowSound(strict, s, row) ensures RowSound(strict, s', row) { assert RowSound(strict, t, row); }
  }

  /** Storing the link of a new ticket, and superseding the ticket it replaces. */
  lemma LinkKeepsSound(strict: bool, w: World, link: Row, p: Poll, tag: Tag, outgoing: Option<TicketId>,
                       newId: TicketId)
    requires Sound(strict, w.s) && RowSound(strict, w.s, link) && link.openId == Some(newId) && newId != NO_TEXT
    requires outgoing.Some? ==> outgoing.value in w.s.linked && outgoing.value < newId
    ensures var (w', saved) := SaveCreatedTicket(w, link, outgoing, 1);
            && Sound(strict, w'.s)
            && (saved.Ok? && outgoing.Some? ==>
                  Sound(strict, FinishSupersede(w', link, saved.value, outgoing.value, newId, p, tag,
                                                TicketRef(newId, tag)).0.s))
  {
    SaveCreatedKeepsSound(strict, w, link, outgoing, 1);
    var (w3, saved) := SaveCreatedTicket(w, link, outgoing, 1);
    if saved.Ok? && outgoing.Some? {
      assert newId in w3.s.linked;
      RowSoundFrame(strict, w.s, w3.s, link);
      SupersedeOldKeepsSound(strict, w3, outgoing.value, newId, p);
      var (w4, errs) := SupersedeOldTicket(w3, outgoing.value, newId, p);
      hide Sound, Core, SaveCreatedTicket, SupersedeOldTicket, SavePollState;
      var noted := link.(lastError := Some(Message(Wrap("supersede ticket", Join(errs)))));
      assert RowSound(strict, w4.s, noted);
      SaveKeepsSound(strict, w4, noted, None);
    }
  }

  /** A create that failed: only a definite failure, after which the tag has no ticket,
      clears the marker. */
  lemma CreateFailureKeepsSound(strict: bool, w: World, base: Row, release: Release, p: Poll, context: string)
    requires MayCreate(strict, w, base, release, p)
    requires w.s.row == base.(pending := Some(release.tag))
    ensures var (w', created) := CreateTicket(w, p.request, release.tag);
            created.Err? ==> Sound(strict, RecordCreateFailure(w', w.s.row, Wrap(context, created.error), p.now).0.s)
  {
    var tag := release.tag;
    CreateKeepsSound(strict, w, p.request, tag);
    var (w2, created) := CreateTicket(w, p.request, tag);
    hide CreateTicket, CreateDefinitelyNotStored;
    if created.Err? {
      var err := Wrap(context, created.error);
      WrappingKeepsVerdict(context, created.error);
      var kept := if CreateDefinitelyNotStored(err) then w.s.row.(pending := None) else w.s.row;
      assert !w2.crashed ==> RowSound(strict, w2.s, kept);
      RecordErrorKeepsSound(strict, w2, kept, Message(err), p.now);
    }
  }

  lemma LinkedIds(s: State, id: TicketId)
    requires Core(s) && id in s.linked
    ensures NO_TEXT < id < s.nextId
  {
    assert TicketOk(s, id);
  }

  /** The row that links the ticket just created may be stored. */
  lemma LinkRowSound(strict: bool, s: State, id: TicketId, base: Row, release: Release, now: string)
    requires Latest(s.seen, release.tag)
    requires id in s.tickets && s.tickets[id].acked && s.tickets[id].epoch == s.epoch
    ensures RowSound(strict, s, LinkRow(base, id, release, now))
  {}

  /** A create that was acknowledged. */
  lemma CreateSuccessKeepsSound(strict: bool, w: World, base: Row, release: Release, p: Poll,
                                outgoing: Option<TicketId>)
    requires MayCreate(strict, w, base, release, p)
    requires w.s.row == base.(pending := Some(release.tag))
    requires outgoing.Some? ==> outgoing.value in w.s.linked
    ensures var (w', created) := CreateTicket(w, p.request, release.tag);
            created.Ok? ==>
              var link := LinkRow(base, created.value, release, p.now);
              var (w3, saved) := SaveCreatedTicket(w', link, outgoing, 1);
              && Sound(strict, w3.s)
              && (saved.Ok? && outgoing.Some? ==>
                    Sound(strict, FinishSupersede(w3, link, saved.value, outgoing.value, created.value, p, release.tag,
                                        TicketRef(created.value, release.tag)).0.s))
  {
    hide Core, OncePerTag, Recalls, RowSound, LinkOk, Unticketed, Trusted, CreateTicket, SaveCreatedTicket,
         FinishSupersede, CreateDefinitelyNotStored;
    CreateKeepsSound(strict, w, p.request, release.tag);
    var (w2, created) := CreateTicket(w, p.request, release.tag);
    if created.Ok? {
      LinkRowSound(strict, w2.s, created.value, base, release, p.now);
      if outgoing.Some? { LinkedIds(w.s, outgoing.value); }
      IdsAreGivenOut(w.s);
      LinkKeepsSound(strict, w2, LinkRow(base, created.value, release, p.now), p, release.tag, outgoing, created.value);
    }
  }

  /** The situation in which a ticket for `release` may be created from the row `base`. */
  ghost predicate MayCreate(strict: bool, w: World, base: Row, release: Release, p: Poll) {
    && Sound(strict, w.s) && !w.crashed && (strict ==> Trusted(p.request, w.faults))
    && Latest(w.s.seen, release.tag) && (strict ==> Unticketed(w.s, release.tag)) && LinkOk(w.s, base)
    && base.lastKnown.Some? && base.lastKnown.value != release.tag
  }

  /** A row that remembers a tag other than the observed one belongs to a repo without a
      ticket for the observed one. */
  lemma NothingCreatedYet(strict: bool, s: State, base: Row, tag: Tag)
    requires Sound(strict, s) && Latest(s.seen, tag) && LinkOk(s, base)
    requires base.lastKnown == s.row.lastKnown && base.pending == s.row.pending
    requires base.lastKnown.Some? && base.lastKnown.value != tag
    ensures RowSound(strict, s, base)
    ensures base.pending != Some(tag) ==>
              (strict ==> Unticketed(s, tag)) && RowSound(strict, s, base.(pending := Some(tag)))
  {}

  lemma CreateForKeepsSound(strict: bool, w: World, base: Row, release: Release, p: Poll, outgoing: Option<TicketId>)
    requires Sound(strict, w.s) && !w.crashed && (strict ==> Trusted(p.request, w.faults))
    requires Latest(w.s.seen, release.tag) && LinkOk(w.s, base)
    requires base.lastKnown == w.s.row.lastKnown && base.pending == w.s.row.pending
    requires base.lastKnown.Some? && base.lastKnown.value != release.tag
    requires outgoing.Some? ==> outgoing.value in w.s.linked
    ensures Sound(strict, CreateFor(w, base, release, p, outgoing).0.s)
  {
    hide Sound, Core, RowSound, RecordError, SavePollState, CreateTicket, SaveCreatedTicket, FinishSupersede,
         RecordCreateFailure;
    var tag := release.tag;
    NothingCreatedYet(strict, w.s, base, tag);
    if base.pending == Some(tag) {
      RecordErrorKeepsSound(strict, w, base, PendingTicketMessage(tag), p.now);
    } else if p.content.Err? {
      RecordErrorKeepsSound(strict, w, base, Message(p.content.error), p.now);
    } else {
      var marked := base.(pending := Some(tag));
      SaveKeepsSound(strict, w, marked, None);
      var (w1, mark) := SavePollState(w, marked, None);
      if mark.Ok? {
        assert MayCreate(strict, w1, base, release, p);
        CreateFailureKeepsSound(strict, w1, base, release, p, CreateContext(outgoing));
        CreateSuccessKeepsSound(strict, w1, base, release, p, outgoing);
        var (w2, created) := CreateTicket(w1, p.request, tag);
        if created.Ok? {
          var (w3, saved) := SaveCreatedTicket(w2, LinkRow(base, created.value, release, p.now), outgoing, 1);
          assert saved.Err? || outgoing.None? ==> CreateFor(w, base, release, p, outgoing).0 == w3;
        }
      }
    }
  }

  lemma UpdateEffect(w: World, id: TicketId, tag: Tag)
    requires id in w.s.tickets
    ensures var w' := UpdateTicket(w, id, tag).0;
            w'.s == w.s || w'.s == ShowTag(w.s, id, tag)
  {}

  lemma MergeKeepsSound(strict: bool, w: World, id: TicketId, release: Release, p: Poll)
    requires Sound(strict, w.s) && Latest(w.s.seen, release.tag) && w.s.row.openId == Some(id)
    ensures Sound(strict, MergeInto(w, w.s.row, id, release, p).0.s)
  {
    hide Sound, Core, RowSound, LinkOk, Latest, SavePollState, RecordError, UpdateTicket, Message;
    RowsOfAnOpenTicket(strict, w.s, release, p.now);
    if p.content.Err? {
      RecordErrorKeepsSound(strict, w, w.s.row, Message(p.content.error), p.now);
    } else {
      var (w1, failed) := UpdateTicket(w, id, release.tag);
      RetouchKeepsSound(strict, w.s, id, w.s.tickets[id].(shows := release.tag), w.s.acks);
      UpdateEffect(w, id, release.tag);
      if failed.Some? {
        RecordErrorKeepsSound(strict, w1, w.s.row, Message(Wrap("merge ticket", failed.value)), p.now);
      } else {
        SaveKeepsSound(strict, w1, KnownRow(w.s.row, release, p.now).(openTag := Some(release.tag)), None);
      }
    }
  }

  lemma RowsOfAnOpenTicket(strict: bool, s: State, release: Release, now: string)
    requires Sound(strict, s) && Latest(s.seen, release.tag)
    ensures RowSound(strict, s, s.row) && LinkOk(s, s.row) && LinkOk(s, ClearOpenTicket(s.row))
              && RowSound(strict, s, KnownRow(s.row, release, now))
    ensures s.row.openId.Some? ==>
              && s.row.openId.value in s.linked && s.row.openId.value in s.tickets
              && RowSound(strict, s, KnownRow(s.row, release, now).(openTag := Some(release.tag)))
  {}

  lemma SettleKeepsSound(strict: bool, w: World, id: TicketId, live: Result<string, Error>, release: Release, p: Poll)
    requires Sound(strict, w.s) && (live.Ok? ==> !w.crashed) && (strict ==> Trusted(p.request, w.faults))
    requires Latest(w.s.seen, release.tag) && w.s.row.openId == Some(id)
    requires w.s.row.lastKnown.Some? && w.s.row.lastKnown.value != release.tag
    ensures Sound(strict, SettleOpenTicket(w, w.s.row, id, live, release, p).0.s)
  {
    hide Sound, Core, RowSound, LinkOk, Latest, Trusted, Classify, CreateFor, MergeInto, RecordError,
         SavePollState, Message;
    var row := w.s.row;
    RowsOfAnOpenTicket(strict, w.s, release, p.now);
    if live.Err? {
      RecordErrorKeepsSound(strict, w, row, Message(live.error), p.now);
    } else {
      match Classify(p.mapping, live.value)
      case Unknown => RecordErrorKeepsSound(strict, w, row, "unknown ticket status " + live.value, p.now);
      case Done => CreateForKeepsSound(strict, w, ClearOpenTicket(row), release, p, None);
      case Cancelled => CreateForKeepsSound(strict, w, ClearOpenTicket(row), release, p, None);
      case Open =>
        var policy := EffectivePolicy(p);
        if policy == POLICY_SUPERSEDE {
          RecordErrorKeepsSound(strict, w, row, SUPERSEDED_STATUS_REQUIRED, p.now);
          CreateForKeepsSound(strict, w, row, release, p, Some(id));
        } else if policy == POLICY_MERGE {
          MergeKeepsSound(strict, w, id, release, p);
        } else if policy == POLICY_SKIP_IF_OPEN {
          SaveKeepsSound(strict, w, KnownRow(row, release, p.now), None);
        } else {
          RecordErrorKeepsSound(strict, w, row, "unknown on_open_ticket_policy " + policy, p.now);
        }
    }
  }

  lemma RowsWithoutTracker(strict: bool, s: State, release: Option<Release>, now: string)
    requires Sound(strict, s) && (release.Some? ==> Latest(s.seen, release.value.tag))
    ensures RowSound(strict, s, s.row) && LinkOk(s, s.row)
    ensures RowSound(strict, s, s.row.(lastPolled := Some(now), lastError := None))
    ensures var (decision, tag) := DecideTagChange(s.row.lastKnown, release);
            decision == TagBaseline ==> RowSound(strict, s, BaselineRow(s.row, release, tag, now))
  {}

  lemma StatusReadsOnly(w: World, id: TicketId)
    ensures var (w1, live) := GetTicketStatus(w, id);
            w1.s == w.s && (live.Ok? ==> !w1.crashed) && forall f | f in w1.faults :: f in w.faults
  {}

  lemma EvaluateKeepsSound(strict: bool, w: World, p: Poll)
    requires Sound(strict, w.s) && !w.crashed && (strict ==> Trusted(p.request, w.faults))
    requires p.fetched.Ok? && p.fetched.value.Some? ==> Latest(w.s.seen, p.fetched.value.value.tag)
    ensures Sound(strict, EvaluateRepo(w, w.s.row, p).0.s)
  {
    RowsWithoutTracker(strict, w.s, if p.fetched.Ok? then p.fetched.value else None, p.now);
    StatusReadsOnly(w, if w.s.row.openId.Some? then w.s.row.openId.value else NO_TEXT);
    hide Sound, Core, RowSound, LinkOk, Latest, Trusted, GetTicketStatus, SavePollState, RecordError, CreateFor,
         SettleOpenTicket, Message;
    var row := w.s.row;
    if p.fetched.Err? {
      RecordErrorKeepsSound(strict, w, row, Message(p.fetched.error), p.now);
    } else {
      var release := p.fetched.value;
      var (decision, tag) := DecideTagChange(row.lastKnown, release);
      match decision
      case TagBaseline => SaveKeepsSound(strict, w, BaselineRow(row, release, tag, p.now), None);
      case TagSkip => SaveKeepsSound(strict, w, row.(lastPolled := Some(p.now), lastError := None), None);
      case TagNew =>
        if HasOpenTicket(row) {
          var (w1, live) := GetTicketStatus(w, row.openId.value);
          SettleKeepsSound(strict, w1, row.openId.value, live, release.value, p);
        } else {
          CreateForKeepsSound(strict, w, row, release.value, p, None);
        }
    }
  }

  /** Observing a release that does not go back: a tag observed for the first time has no ticket. */
  lemma ObserveKeepsSound(strict: bool, s: State, p: Poll)
    requires Sound(strict, s) && (strict ==> CanObserve(s.seen, p))
    ensures Sound(strict, Observe(s, p))
  {
    var s' := Observe(s, p);
    assert forall id | id in s.tickets :: TicketOk(s, id) ==> TicketOk(s', id);
    assert RowSound(strict, s', s'.row);
  }

  lemma StepKeepsSound(strict: bool, s: State, step: Step)
    requires Sound(strict, s) && (strict ==> LegalStep(s, step))
    ensures Sound(strict, Apply(s, step))
  {
    match step
    case PollStep(p, faults) =>
      ObserveKeepsSound(strict, s, p);
      EvaluateKeepsSound(strict, Live(Observe(s, p), faults), p);
    case SetupFailure(message, now, faults) =>
      RecordErrorKeepsSound(strict, Live(s, faults), s.row, message, now);
    case Retarget(sourceChanged, ticketChanged) =>
      RetargetKeepsSound(strict, s, sourceChanged, ticketChanged);
    case SetStatus(id, status) =>
      if id in s.tickets { RetouchKeepsSound(strict, s, id, s.tickets[id].(status := status), s.acks); }
  }

  lemma RetargetKeepsSound(strict: bool, s: State, sourceChanged: bool, ticketChanged: bool)
    requires Sound(strict, s)
    ensures Sound(strict, RetargetRepo(s, sourceChanged, ticketChanged))
  {
    var s' := RetargetRepo(s, sourceChanged, ticketChanged);
    assert forall id | id in s.tickets :: TicketOk(s, id) ==> TicketOk(s', id);
  }

  // ---- every history ---------------------------------------------------------------------

  /** Whatever happens next, the tickets, the ledger and the link stay in order. */
  lemma StepKeepsCore(s: State, step: Step)
    requires Core(s)
    ensures Core(Apply(s, step))
  {
    hide Core, Apply;
    StepKeepsSound(false, s, step);
  }

  /** And no tag gets a second ticket as long as releases do not go back and no ambiguous create
      is repeated. */
  lemma StepKeepsInv(s: State, step: Step)
    requires Inv(s) && LegalStep(s, step)
    ensures Inv(Apply(s, step))
  {
    hide Core, Apply;
    StepKeepsSound(true, s, step);
  }

  lemma {:induction false} RunKeepsCore(s: State, steps: seq<Step>)
    requires Core(s)
    ensures Core(Run(s, steps))
    decreases |steps|
  {
    hide Core, Apply;
    if steps != [] {
      StepKeepsCore(s, steps[0]);
      RunKeepsCore(Apply(s, steps[0]), steps[1..]);
    }
  }

  lemma {:induction false} RunKeepsInv(s: State, steps: seq<Step>)
    requires Inv(s) && Legal(s, steps)
    ensures Inv(Run(s, steps))
    decreases |steps|
  {
    hide Inv, Apply;
    if steps != [] {
      StepKeepsInv(s, steps[0]);
      RunKeepsInv(Apply(s, steps[0]), steps[1..]);
    }
  }

  lemma ReachableCore(steps: seq<Step>)
    ensures Core(Run(NEW_STATE, steps))
  {
    RunKeepsCore(NEW_STATE, steps);
  }

  lemma ReachableInv(steps: seq<Step>)
    requires Legal(NEW_STATE, steps)
    ensures Inv(Run(NEW_STATE, steps))
  {
    RunKeepsInv(NEW_STATE, steps);
  }
}
