/** One poll of one monitored repo (internal/poll/engine.go), as a function of the stored
    row, the ticket tracker and everything the environment does on the way.

    The row and the tracker share no transaction. Each access to either consumes one
    `Fault`, which decides what happens there: it may succeed, fail, take effect and be
    reported as failed, or be the point at which the process dies. After the process died
    nothing takes effect any more, so the state in which a poll ends covers every state in
    which it can be cut short (`PollCrashes`). */
module PollModel {
  import opened Wrappers
  import opened Strings
  import opened TicketErrors
  import opened StatusMapping
  import Jira

  type Tag = string

  /** Ids the tracker gives out are positive; 0 is the empty string. */
  type TicketId = nat
  const NO_TEXT: TicketId := 0

  /** The poll state of a monitored_repos row. */
  datatype Row = Row(
    openId: Option<TicketId>,
    openTag: Option<Tag>,
    lastKnown: Option<Tag>,
    publishedAt: Option<string>,
    lastPolled: Option<string>,
    lastError: Option<string>,
    pending: Option<Tag>)

  const NEW_ROW := Row(None, None, None, None, None, None, None)

  /** A ticket of this repo. `before` is the stored row at the moment the tracker stored it,
      `epoch` and `source` count target changes and source changes up to then. */
  datatype Ticket = Ticket(tag: Tag, shows: Tag, status: string, epoch: nat, source: nat, acked: bool, before: Row)

  datatype Crash = NoCrash | Before | After
  datatype Write = Stored | StoredTargetsUnread | StoredReportedFailed | NotStored
  datatype Call = Succeeds | FailsUnapplied(err: Error) | FailsApplied(err: Error)

  datatype RawFault = Fault(
    crash: Crash, write: Write, call: Call, ctxDone: bool,
    cancelled: Option<Error>, first: Jira.Exchange, second: Jira.Exchange, status: string)

  const FINE := Fault(NoCrash, Stored, Succeeds, false, None,
                      Jira.Answered(201, "", Ok("KEY-1"), true),
                      Jira.Answered(201, "", Ok("KEY-1"), true), "To Do")

  /** What the environment does at one access, within the behaviours of HTTP and the tracker. */
  type Fault = f: RawFault | Jira.Physical(f.first) && Jira.Physical(f.second) witness FINE

  /** The row, the tracker, and a record of what happened: `seen` are the tags observed since
      the last target change, `known` the tags stored as last-known tag since the last source
      change, `linked` the tickets whose link was ever stored, `owed` the tickets that a stored
      link replaced in a supersede and that were not moved to the superseded status since,
      `moved` those that were, each with its successor, and `acks` counts the acknowledged
      creates. */
  datatype State = State(
    row: Row,
    tickets: map<TicketId, Ticket>,
    nextId: TicketId,
    epoch: nat,
    source: nat,
    seen: seq<Tag>,
    known: set<Tag>,
    linked: set<TicketId>,
    owed: set<TicketId>,
    moved: map<TicketId, TicketId>,
    acks: nat)

  const NEW_STATE := State(NEW_ROW, map[], 1, 0, 0, [], {}, {}, {}, map[], 0)

  /** A running poll: the state, the tracker calls made so far, the outcomes still to come,
      whether the process died, and the states in which the accesses so far found it. */
  datatype World = World(s: State, calls: nat, faults: seq<Fault>, crashed: bool, trace: seq<State>)

  const DEAD := Text("the process died")
  const NOT_STORED := Text("poll state not stored")

  /** The outcome of the next access: a run whose outcomes are used up meets no more faults. */
  function NextFault(w: World): (Fault, World) {
    if w.faults == [] then (FINE, w)
    else (w.faults[0], w.(faults := w.faults[1..], trace := w.trace + [w.s]))
  }

  function Die(w: World): World {
    w.(crashed := true)
  }

  // ---- the store --------------------------------------------------------------------

  /** The effect of a stored poll-state write. `outgoing` names the ticket that a supersede
      replaces with this write. */
  function StoreRow(s: State, update: Row, outgoing: Option<TicketId>): State {
    s.(row := update,
       linked := s.linked + (if HasOpenTicket(update) then {update.openId.value} else {}),
       owed := s.owed + (if outgoing.Some? then {outgoing.value} else {}),
       known := s.known + (if update.lastKnown.Some? then {update.lastKnown.value} else {}))
  }

  datatype WriteResult = Written(row: Row) | WrittenTargetsUnread(row: Row) | Failed(err: Error)

  /** UpdatePollState of the store: every column is replaced. */
  function UpdatePollState(w: World, update: Row, outgoing: Option<TicketId>): (World, WriteResult) {
    if w.crashed then (w, Failed(DEAD))
    else
      var (f, w1) := NextFault(w);
      var stored := w1.(s := StoreRow(w1.s, update, outgoing));
      match f.crash
      case Before => (Die(w1), Failed(DEAD))
      case After => (Die(stored), Failed(DEAD))
      case NoCrash =>
        match f.write
        case Stored => (stored, Written(update))
        case StoredTargetsUnread => (stored, WrittenTargetsUnread(update))
        case StoredReportedFailed => (stored, Failed(NOT_STORED))
        case NotStored => (w1, Failed(NOT_STORED))
  }

  /** Whether the context ended while a retry was waited for. */
  function ContextDone(w: World): (World, bool) {
    if w.crashed then (w, true)
    else
      var (f, w1) := NextFault(w);
      if f.crash.NoCrash? then (w1, f.ctxDone) else (Die(w1), true)
  }

  // ---- the tracker ------------------------------------------------------------------

  function BeginCall(w: World): (Fault, World) {
    var (f, w1) := NextFault(w);
    (f, w1.(calls := w1.calls + 1))
  }

  function AddTickets(s: State, ticket: Ticket, n: nat): (r: State)
    ensures r.nextId == s.nextId + n
    decreases n
  {
    if n == 0 then s
    else AddTickets(s.(tickets := s.tickets[s.nextId := ticket], nextId := s.nextId + 1), ticket, n - 1)
  }

  function Acknowledge(s: State, id: TicketId): State {
    if id in s.tickets then s.(tickets := s.tickets[id := s.tickets[id].(acked := true)], acks := s.acks + 1) else s
  }

  function CreateTicket(w: World, request: Jira.Request, tag: Tag): (World, Result<TicketId, Error>) {
    if w.crashed then (w, Err(DEAD))
    else
      var (f, w1) := BeginCall(w);
      if f.crash.Before? then (Die(w1), Err(DEAD))
      else
        var created := Jira.CreateTicket(request, f.cancelled, f.first, f.second);
        var ticket := Ticket(tag, tag, f.status, w.s.epoch, w.s.source, false, w.s.row);
        var w2 := w1.(s := AddTickets(w.s, ticket, created.stored));
        if f.crash.After? then (Die(w2), Err(DEAD))
        else if created.result.Err? then (w2, Err(created.result.error))
        else if created.stored == 0 then (w2, Err(DEAD))  // an answer naming an issue means one was stored
        else (w2.(s := Acknowledge(w2.s, w2.s.nextId - 1)), Ok(w2.s.nextId - 1))
  }

  function GetTicketStatus(w: World, id: TicketId): (World, Result<string, Error>) {
    if w.crashed then (w, Err(DEAD))
    else
      var (f, w1) := BeginCall(w);
      if !f.crash.NoCrash? then (Die(w1), Err(DEAD))
      else if !f.call.Succeeds? then (w1, Err(Wrap("get ticket status", f.call.err)))
      else if id !in w.s.tickets then (w1, Err(Wrap("get ticket status", HttpStatus(404, ""))))
      else if TrimSpace(w.s.tickets[id].status) == "" then (w1, Err(Wrap("get ticket status", Text("empty status"))))
      else (w1, Ok(TrimSpace(w.s.tickets[id].status)))
  }

  /** The effect of a status change made by a supersede in favour of `successor`. */
  function MoveTicket(s: State, id: TicketId, status: string, successor: TicketId): State {
    if id in s.tickets then
      s.(tickets := s.tickets[id := s.tickets[id].(status := status)],
         owed := s.owed - {id},
         moved := s.moved[id := successor])
    else s
  }

  function UpdateTicketStatus(w: World, id: TicketId, status: string, successor: TicketId): (World, Option<Error>) {
    if w.crashed then (w, Some(DEAD))
    else
      var (f, w1) := BeginCall(w);
      var applied := w1.(s := MoveTicket(w1.s, id, status, successor));
      if f.crash.Before? then (Die(w1), Some(DEAD))
      else if TrimSpace(status) == "" then (w1, Some(Text("status is required")))
      else if id !in w.s.tickets then (w1, Some(HttpStatus(404, "")))
      else if f.crash.After? then (Die(applied), Some(DEAD))
      else
        match f.call
        case Succeeds => (applied, None)
        case FailsApplied(e) => (applied, Some(e))
        case FailsUnapplied(e) => (w1, Some(e))
  }

  function ShowTag(s: State, id: TicketId, tag: Tag): State
    requires id in s.tickets
  {
    s.(tickets := s.tickets[id := s.tickets[id].(shows := tag)])
  }

  function UpdateTicket(w: World, id: TicketId, tag: Tag): (World, Option<Error>) {
    if w.crashed then (w, Some(DEAD))
    else
      var (f, w1) := BeginCall(w);
      if f.crash.Before? then (Die(w1), Some(DEAD))
      else if id !in w.s.tickets then (w1, Some(HttpStatus(404, "")))
      else
        var applied := w1.(s := ShowTag(w1.s, id, tag));
        if f.crash.After? then (Die(applied), Some(DEAD))
        else
          match f.call
          case Succeeds => (applied, None)
          case FailsApplied(e) => (applied, Some(e))
          case FailsUnapplied(e) => (w1, Some(e))
  }

  function AddTicketComment(w: World): (World, Option<Error>) {
    if w.crashed then (w, Some(DEAD))
    else
      var (f, w1) := BeginCall(w);
      if !f.crash.NoCrash? then (Die(w1), Some(DEAD))
      else if f.call.Succeeds? then (w1, None)
      else (w1, Some(f.call.err))
  }

  // ---- one evaluation ---------------------------------------------------------------

  const POLICY_SUPERSEDE := "supersede"
  const POLICY_MERGE := "merge"
  const POLICY_SKIP_IF_OPEN := "skip_if_open"

  const SUPERSEDED_STATUS_REQUIRED := "status_mapping.superseded is required for supersede policy"

  datatype Release = Release(tag: Tag, publishedAt: Option<string>)

  /** What an evaluation is given besides the row: the fetched release, the ticket project,
      and how its templates render (`content` is the title and description). */
  datatype Poll = Poll(
    fetched: Result<Option<Release>, Error>,
    mapping: Mapping,
    policy: string,
    request: Jira.Request,
    content: Result<(), Error>,
    newTicketUrl: Result<string, Error>,
    comment: Result<string, Error>,
    now: string)

  datatype Action = Baseline | Skip | Create | Supersede | Merge | SkipOpen | ErrorAction

  datatype EventRef = EventRef(ticket: Option<TicketId>, release: Option<Tag>)

  datatype Evaluation = Evaluation(actions: seq<Action>, repo: Row, detail: string, refs: map<Action, EventRef>)

  type Outcome = Result<Evaluation, Error>

  predicate HasOpenTicket(row: Row) {
    row.openId.Some? && row.openId.value != NO_TEXT
  }

  datatype TagDecision = TagBaseline | TagSkip | TagNew

  /** decideTagChange. */
  function DecideTagChange(lastKnown: Option<Tag>, release: Option<Release>): (TagDecision, Tag) {
    match release
    case None => (if lastKnown.None? then TagBaseline else TagSkip, "")
    case Some(r) =>
      (if lastKnown.None? then TagBaseline else if lastKnown.value == r.tag then TagSkip else TagNew, r.tag)
  }

  function ReleaseRef(tag: Tag): EventRef {
    EventRef(None, if tag == "" then None else Some(tag))
  }

  function TicketRef(id: TicketId, tag: Tag): EventRef {
    EventRef(Some(id), if tag == "" then None else Some(tag))
  }

  /** clearOpenTicketFields. */
  function ClearOpenTicket(row: Row): Row {
    row.(openId := None, openTag := None)
  }

  /** savePollState: a write whose target list could not be read back counts as saved. */
  function SavePollState(w: World, update: Row, outgoing: Option<TicketId>): (World, Result<Row, Error>) {
    var (w1, r) := UpdatePollState(w, update, outgoing);
    (w1, if r.Failed? then Err(r.err) else Ok(r.row))
  }

  function Conclude(w: World, saved: Result<Row, Error>, actions: seq<Action>, detail: string,
                    refs: map<Action, EventRef>): (World, Outcome) {
    (w, if saved.Err? then Err(saved.error) else Ok(Evaluation(actions, saved.value, detail, refs)))
  }

  /** recordError. */
  function RecordError(w: World, base: Row, message: string, now: string): (World, Outcome) {
    var (w1, saved) := SavePollState(w, base.(lastPolled := Some(now), lastError := Some(message)), None);
    Conclude(w1, saved, [ErrorAction], message, map[])
  }

  const LINK_WRITE_ATTEMPTS := 3

  /** saveCreatedTicket, from attempt `attempt` on. */
  function SaveCreatedTicket(w: World, update: Row, outgoing: Option<TicketId>, attempt: nat)
    : (World, Result<Row, Error>)
    decreases LINK_WRITE_ATTEMPTS - attempt, 1
  {
    var (w1, saved) := SavePollState(w, update, outgoing);
    AfterWrite(w1, saved, update, outgoing, attempt)
  }

  /** saveCreatedTicket after one write. */
  function AfterWrite(w1: World, saved: Result<Row, Error>, update: Row, outgoing: Option<TicketId>, attempt: nat)
    : (World, Result<Row, Error>)
    decreases LINK_WRITE_ATTEMPTS - attempt, 0
  {
    if saved.Ok? then (w1, saved)
    else if attempt >= LINK_WRITE_ATTEMPTS then (w1, Err(Wrap(LINK_NOT_SAVED, saved.error)))
    else
      var (w2, done) := ContextDone(w1);
      if done then (w2, Err(Wrap(LINK_NOT_SAVED, Join([saved.error, Text("context done")]))))
      else SaveCreatedTicket(w2, update, outgoing, attempt + 1)
  }

  const LINK_NOT_SAVED := "ticket was created but its link was not saved"

  function PendingTicketMessage(tag: Tag): string {
    "a ticket for release " + tag +
    " may already exist in the ticket system; Release Ops could not save its link, " +
    "so it does not create a second one. Check the ticket system"
  }

  /** The row that stores the link of a new ticket. */
  function LinkRow(base: Row, id: TicketId, release: Release, now: string): Row {
    base.(openId := Some(id), openTag := Some(release.tag), lastKnown := Some(release.tag),
          publishedAt := release.publishedAt, lastPolled := Some(now), lastError := None, pending := None)
  }

  function CreateContext(outgoing: Option<TicketId>): string {
    if outgoing.None? then "create ticket" else "create ticket after supersede"
  }

  /** Create a ticket for `release`, in place of the open ticket `outgoing` when there is one:
      mark, create, store the link, and only then touch the ticket that is replaced. */
  function CreateFor(w: World, base: Row, release: Release, p: Poll, outgoing: Option<TicketId>): (World, Outcome) {
    if base.pending == Some(release.tag) then
      RecordError(w, base, PendingTicketMessage(release.tag), p.now)
    else if p.content.Err? then
      RecordError(w, base, Message(p.content.error), p.now)
    else
      var (w1, mark) := SavePollState(w, base.(pending := Some(release.tag)), None);
      AfterMark(w1, mark, base, release, p, outgoing)
  }

  /** The marker was stored, or not. */
  function AfterMark(w1: World, mark: Result<Row, Error>, base: Row, release: Release, p: Poll,
                     outgoing: Option<TicketId>)
    : (World, Outcome)
  {
    if mark.Err? then (w1, Err(Wrap("record pending ticket", mark.error)))
    else
      var (w2, created) := CreateTicket(w1, p.request, release.tag);
      AfterCreate(w2, created, base, release, p, outgoing)
  }

  /** The tracker has answered a create, or not. */
  function AfterCreate(w2: World, created: Result<TicketId, Error>, base: Row, release: Release, p: Poll,
                       outgoing: Option<TicketId>): (World, Outcome)
  {
    if created.Err? then
      RecordCreateFailure(w2, base.(pending := Some(release.tag)), Wrap(CreateContext(outgoing), created.error), p.now)
    else
      var link := LinkRow(base, created.value, release, p.now);
      var (w3, saved) := SaveCreatedTicket(w2, link, outgoing, 1);
      AfterLink(w3, saved, link, created.value, release, p, outgoing)
  }

  /** A create whose link was stored, or not. */
  function AfterLink(w3: World, saved: Result<Row, Error>, link: Row, newId: TicketId, release: Release, p: Poll,
                     outgoing: Option<TicketId>): (World, Outcome)
  {
    var ref := TicketRef(newId, release.tag);
    if saved.Err? then (w3, Err(saved.error))
    else if outgoing.None? then Conclude(w3, saved, [Create], "", map[Create := ref])
    else FinishSupersede(w3, link, saved.value, outgoing.value, newId, p, release.tag, ref)
  }

  /** recordCreateFailure: the marker survives every failure that may have stored a ticket. */
  function RecordCreateFailure(w: World, marked: Row, err: Error, now: string): (World, Outcome) {
    RecordError(w, if CreateDefinitelyNotStored(err) then marked.(pending := None) else marked, Message(err), now)
  }

  /** The second half of a supersede, after the new link is stored. */
  function FinishSupersede(w: World, link: Row, saved: Row, oldId: TicketId, newId: TicketId, p: Poll, tag: Tag,
                           ref: EventRef): (World, Outcome) {
    var (w1, errs) := SupersedeOldTicket(w, oldId, newId, p);
    AfterOld(w1, errs, link, saved, oldId, tag, ref)
  }

  /** The end of a supersede, once the old ticket was dealt with. */
  function AfterOld(w1: World, errs: seq<Error>, link: Row, saved: Row, oldId: TicketId, tag: Tag, ref: EventRef)
    : (World, Outcome)
  {
    if errs != [] then
      var message := Message(Wrap("supersede ticket", Join(errs)));
      var (w2, again) := SavePollState(w1, link.(lastError := Some(message)), None);
      Conclude(w2, again, [Create, ErrorAction], message, map[Create := ref])
    else
      (w1, Ok(Evaluation([Supersede, Create], saved, "", map[Supersede := TicketRef(oldId, tag), Create := ref])))
  }

  /** The supersede comment, or why there is none. */
  function SupersedeComment(p: Poll): Result<string, Error> {
    if p.newTicketUrl.Err? then Err(Wrap("resolve new ticket web url", p.newTicketUrl.error))
    else if p.comment.Err? then Err(Wrap("render supersede comment", p.comment.error))
    else if p.comment.value == "" then Err(Wrap("render supersede comment", Text("empty body")))
    else p.comment
  }

  /** supersedeOldTicket: the status change is tried even when there is no comment. */
  function SupersedeOldTicket(w: World, oldId: TicketId, newId: TicketId, p: Poll): (World, seq<Error>) {
    var (w1, status) := UpdateTicketStatus(w, oldId, p.mapping.superseded, newId);
    AfterMove(w1, status, p)
  }

  /** supersedeOldTicket after the status change. */
  function AfterMove(w1: World, status: Option<Error>, p: Poll): (World, seq<Error>) {
    var comment := SupersedeComment(p);
    var errs := (if comment.Err? then [comment.error] else []) +
                (if status.Some? then [Wrap("status", status.value)] else []);
    if comment.Err? then (w1, errs)
    else
      var (w2, commented) := AddTicketComment(w1);
      (w2, if commented.Some? then errs + [Wrap("comment", commented.value)] else errs)
  }

  /** applyMerge. */
  function MergeInto(w: World, row: Row, id: TicketId, release: Release, p: Poll): (World, Outcome) {
    if p.content.Err? then RecordError(w, row, Message(p.content.error), p.now)
    else
      var (w1, failed) := UpdateTicket(w, id, release.tag);
      AfterRewrite(w1, failed, row, id, release, p)
  }

  /** A merge after the open ticket was rewritten, or not. */
  function AfterRewrite(w1: World, failed: Option<Error>, row: Row, id: TicketId, release: Release,
                        p: Poll): (World, Outcome) {
    if failed.Some? then RecordError(w1, row, Message(Wrap("merge ticket", failed.value)), p.now)
    else
      var (w2, saved) := SavePollState(w1, KnownRow(row, release, p.now).(openTag := Some(release.tag)), None);
      Conclude(w2, saved, [Merge], "", map[Merge := TicketRef(id, release.tag)])
  }

  /** The row after `release` was dealt with. */
  function KnownRow(row: Row, release: Release, now: string): Row {
    row.(lastKnown := Some(release.tag), publishedAt := release.publishedAt, lastPolled := Some(now), lastError := None)
  }

  function EffectivePolicy(p: Poll): string {
    if p.policy == "" then POLICY_SUPERSEDE else p.policy
  }

  /** A new release while the linked ticket `id` is in the status `live`. */
  function SettleOpenTicket(w: World, row: Row, id: TicketId, live: Result<string, Error>, release: Release,
                            p: Poll): (World, Outcome) {
    if live.Err? then RecordError(w, row, Message(live.error), p.now)
    else
      match Classify(p.mapping, live.value)
      case Unknown => RecordError(w, row, "unknown ticket status " + live.value, p.now)
      case Done => CreateFor(w, ClearOpenTicket(row), release, p, None)
      case Cancelled => CreateFor(w, ClearOpenTicket(row), release, p, None)
      case Open =>
        var policy := EffectivePolicy(p);
        if policy == POLICY_SUPERSEDE then
          if p.mapping.superseded == "" then
            RecordError(w, row, SUPERSEDED_STATUS_REQUIRED, p.now)
          else CreateFor(w, row, release, p, Some(id))
        else if policy == POLICY_MERGE then MergeInto(w, row, id, release, p)
        else if policy == POLICY_SKIP_IF_OPEN then
          var (w1, saved) := SavePollState(w, KnownRow(row, release, p.now), None);
          Conclude(w1, saved, [SkipOpen], "", map[SkipOpen := ReleaseRef(release.tag)])
        else RecordError(w, row, "unknown on_open_ticket_policy " + policy, p.now)
  }

  function BaselineRow(row: Row, release: Option<Release>, tag: Tag, now: string): Row {
    var polled := row.(lastPolled := Some(now), lastError := None);
    if tag == "" then polled
    else polled.(lastKnown := Some(tag), publishedAt := if release.None? then None else release.value.publishedAt)
  }

  /** EvaluateRepo on the row as it was loaded. */
  function EvaluateRepo(w: World, row: Row, p: Poll): (World, Outcome) {
    if p.fetched.Err? then RecordError(w, row, Message(p.fetched.error), p.now)
    else
      var release := p.fetched.value;
      var (decision, tag) := DecideTagChange(row.lastKnown, release);
      match decision
      case TagBaseline =>
        var (w1, saved) := SavePollState(w, BaselineRow(row, release, tag, p.now), None);
        Conclude(w1, saved, [Baseline], "", map[Baseline := ReleaseRef(tag)])
      case TagSkip =>
        var (w1, saved) := SavePollState(w, row.(lastPolled := Some(p.now), lastError := None), None);
        Conclude(w1, saved, [Skip], "", map[])
      case TagNew =>
        if HasOpenTicket(row) then
          var (w1, live) := GetTicketStatus(w, row.openId.value);
          SettleOpenTicket(w1, row, row.openId.value, live, release.value, p)
        else CreateFor(w, row, release.value, p, None)
  }
}
