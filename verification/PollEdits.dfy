/** What an edit of a repo keeps of its poll state (internal/store/repos.go:187-216), and what the
    next poll makes of it. */
module PollEdits {
  import opened Wrappers
  import opened TicketErrors
  import opened StatusMapping
  import opened PollModel
  import opened PollSafety
  import opened PollConvergence
  import Strings

  /** A new ticket project clears the link, the marker and the error; a new source the known
      release as well. An edit of neither changes nothing. The tracker is left alone. */
  lemma EditKeeps(s: State, sourceChanged: bool, ticketChanged: bool)
    ensures var s' := RetargetRepo(s, sourceChanged, ticketChanged);
            && s'.tickets == s.tickets && s'.nextId == s.nextId && s'.row.lastPolled == s.row.lastPolled
            && (!sourceChanged && !ticketChanged ==> s' == s)
            && (sourceChanged || ticketChanged ==>
                  && s'.row.openId == None && s'.row.openTag == None && s'.row.pending == None
                       && s'.row.lastError == None
                  && s'.epoch == s.epoch + 1)
            && (!sourceChanged ==> s'.row.lastKnown == s.row.lastKnown && s'.row.publishedAt == s.row.publishedAt
                                   && s'.known == s.known)
            && (sourceChanged ==> s'.row.lastKnown == None && s'.row.publishedAt == None && s'.known == {})
  {}

  /** After a change of the ticket project alone, the next new release is ticketed there: one
      ticket is added, linked and known, whatever the old project's ticket was. */
  lemma NewProjectGetsNextRelease(s: State, p: Poll, release: Release)
    requires Core(s) && s.row.lastKnown.Some? && s.row.lastKnown.value != release.tag
    requires p.fetched == Ok(Some(release)) && p.content.Ok? && Strings.TrimSpace(p.request.projectKey) != ""
    ensures var edited := RetargetRepo(s, false, true);
            var s' := PollOnce(edited, p, []).0.s;
            && s'.tickets.Keys == s.tickets.Keys + {s.nextId} && s.nextId !in s.tickets
            && s'.tickets[s.nextId].tag == release.tag && s'.tickets[s.nextId].epoch == s.epoch + 1
            && s'.row.openId == Some(s.nextId) && s'.row.lastKnown == Some(release.tag)
  {
    IdsAreGivenOut(s);
    hide Core, PollOnce, Strings.TrimSpace;
    UndisturbedPollCreates(RetargetRepo(s, false, true), p, release);
  }

  /** After a change of the source, the next release is a baseline: whatever the faults, no
      tracker call is made, and undisturbed its tag is the known one. */
  lemma NewSourceStartsOver(s: State, p: Poll, release: Release, ticketChanged: bool, faults: seq<Fault>)
    requires p.fetched == Ok(Some(release))
    ensures var edited := RetargetRepo(s, true, ticketChanged);
            var w := PollOnce(edited, p, faults).0;
            && w.calls == 0 && w.s.tickets == s.tickets
            && (faults == [] && release.tag != "" ==> w.s.row.lastKnown == Some(release.tag))
  {
    hide StoreRow;
    UndisturbedRowIsStored();
  }

  lemma UndisturbedRowIsStored()
    ensures forall s, update, outgoing :: StoreRow(s, update, outgoing).row == update
    ensures forall s, update, outgoing :: StoreRow(s, update, outgoing).tickets == s.tickets
  {}
}
