/** A repo polled without disturbance, each of whose tickets is done before the next poll: when
    exactly does a tag get two tickets? */
module PollIdle {
  import opened Wrappers
  import opened StatusMapping
  import opened PollModel
  import opened PollSafety
  import opened PollConvergence
  import Strings

  /** The settings of the polls, and the status of a finished ticket. */
  predicate Working(q: Poll, done: string) {
    && q.content.Ok? && Strings.TrimSpace(q.request.projectKey) != ""
    && Classify(q.mapping, done).Done?
  }

  function Seeing(q: Poll, release: Release): Poll {
    q.(fetched := Ok(Some(release)))
  }

  /** One poll, and then people finish the linked ticket. */
  function Round(s: State, q: Poll, release: Release, done: string): State {
    var polled := Apply(s, PollStep(Seeing(q, release), []));
    if HasOpenTicket(polled.row) then Apply(polled, SetStatus(polled.row.openId.value, done)) else polled
  }

  function Rounds(q: Poll, releases: seq<Release>, done: string): State {
    if releases == [] then NEW_STATE
    else Round(Rounds(q, releases[..|releases| - 1], done), q, releases[|releases| - 1], done)
  }

  /** The tag taken for known after a list of releases. */
  function Known(releases: seq<Release>): Option<Tag> {
    if releases == [] then None
    else
      var known, tag := Known(releases[..|releases| - 1]), releases[|releases| - 1].tag;
      if known.None? && tag == "" then None else Some(tag)
  }

  /** The tags that follow a different known one: those are ticketed, the baseline is not. */
  function News(releases: seq<Release>): seq<Tag> {
    if releases == [] then []
    else
      var known, tag := Known(releases[..|releases| - 1]), releases[|releases| - 1].tag;
      News(releases[..|releases| - 1]) + if known.Some? && known.value != tag then [tag] else []
  }

  ghost predicate NoneReturns(news: seq<Tag>) {
    forall i, j | 0 <= i < j < |news| :: news[i] != news[j]
  }

  /** One ticket for each piece of news, numbered in order, the linked one done. */
  ghost predicate Tracks(s: State, known: Option<Tag>, news: seq<Tag>, q: Poll) {
    && s.row.lastKnown == known && s.row.pending.None? && s.epoch == 0 && s.nextId == |news| + 1
    && (forall id :: id in s.tickets <==> 1 <= id <= |news|)
    && (forall id | id in s.tickets :: s.tickets[id].tag == news[id - 1] && s.tickets[id].epoch == 0)
    && Idle(s, q)
  }

  lemma KnownRound(s: State, known: Option<Tag>, news: seq<Tag>, q: Poll, release: Release, done: string)
    requires Tracks(s, known, news, q) && Working(q, done)
    requires known.None? || known.value == release.tag
    ensures Tracks(Round(s, q, release, done),
                   if known.None? && release.tag == "" then None else Some(release.tag), news, q)
  {
    hide SavePollState, Classify, Strings.TrimSpace;
    var p := Seeing(q, release);
    var w := Live(Observe(s, p), []);
    var row := if known.None? then BaselineRow(s.row, Some(release), release.tag, p.now)
               else s.row.(lastPolled := Some(p.now), lastError := None);
    UndisturbedSave(w, row, None);
    assert PollOnce(s, p, []).0.s == StoreRow(w.s, row, None);
  }

  lemma NewsRound(s: State, known: Option<Tag>, news: seq<Tag>, q: Poll, release: Release, done: string)
    requires Tracks(s, known, news, q) && Working(q, done)
    requires known.Some? && known.value != release.tag
    ensures Tracks(Round(s, q, release, done), Some(release.tag), news + [release.tag], q)
  {
    hide PollOnce, Classify, Strings.TrimSpace;
    var p := Seeing(q, release);
    UndisturbedPollCreates(s, p, release);
    var polled := PollOnce(s, p, []).0.s;
    assert polled.tickets.Keys == s.tickets.Keys + {s.nextId};
    assert forall id | id in polled.tickets :: id != s.nextId ==> id in s.tickets;
  }

  lemma {:induction false} RoundsTrack(q: Poll, releases: seq<Release>, done: string)
    requires Working(q, done)
    ensures Tracks(Rounds(q, releases, done), Known(releases), News(releases), q)
  {
    if releases != [] {
      hide Tracks, Round, Working;
      var init, release := releases[..|releases| - 1], releases[|releases| - 1];
      RoundsTrack(q, init, done);
      var s := Rounds(q, init, done);
      if Known(init).None? || Known(init).value == release.tag {
        KnownRound(s, Known(init), News(init), q, release, done);
        assert News(init) + [] == News(init);
      } else {
        NewsRound(s, Known(init), News(init), q, release, done);
      }
    }
  }

  /** Releases that go back are the only way to a second ticket: no tag gets two if and only if
      no tag becomes news twice. */
  lemma OncePerTagInIdleHistories(q: Poll, releases: seq<Release>, done: string)
    requires Working(q, done)
    ensures OncePerTag(Rounds(q, releases, done)) <==>
            forall i, j | 0 <= i < j < |releases| && IsNews(releases, i) && IsNews(releases, j) ::
              releases[i].tag != releases[j].tag
  {
    hide Rounds, News, Known, Working, IsNews;
    RoundsTrack(q, releases, done);
    var s, news := Rounds(q, releases, done), News(releases);
    if OncePerTag(s) {
      forall i, j | 0 <= i < j < |news| ensures news[i] != news[j] {
        assert i + 1 in s.tickets && j + 1 in s.tickets;
      }
    }
    assert OncePerTag(s) <==> NoneReturns(news);
    ReturningNews(releases);
  }

  // ---- what news is ----------------------------------------------------------------------------

  /** The release shown at `i` differs from the one shown before it, and is not the first to
      have a tag. */
  predicate IsNews(releases: seq<Release>, i: nat) {
    && 0 < i < |releases| && releases[i].tag != releases[i - 1].tag
    && exists j | 0 <= j < i :: releases[j].tag != ""
  }

  /** The known tag is the one shown last, once any release had a tag. */
  lemma {:induction false} KnownIsShownLast(releases: seq<Release>)
    ensures Known(releases).Some? <==> exists j | 0 <= j < |releases| :: releases[j].tag != ""
    ensures Known(releases).Some? ==> releases != [] && Known(releases).value == releases[|releases| - 1].tag
  {
    if releases != [] {
      var init, last := releases[..|releases| - 1], releases[|releases| - 1];
      KnownIsShownLast(init);
      if j :| 0 <= j < |releases| && releases[j].tag != "" {
        assert j < |init| ==> init[j].tag != "";
      }
      if Known(init).Some? {
        var j :| 0 <= j < |init| && init[j].tag != "";
        assert releases[j].tag != "";
      } else if last.tag != "" {
        assert releases[|releases| - 1].tag != "";
      }
    }
  }

  /** `at` are the places of the news, in order. */
  ghost predicate NewsAt(releases: seq<Release>, at: seq<nat>) {
    && (forall j, k | 0 <= j < k < |at| :: at[j] < at[k])
    && (forall i | 0 <= i < |releases| :: IsNews(releases, i) <==> i in at)
    && (forall k | 0 <= k < |at| :: at[k] < |releases|)
  }

  /** Each piece of news is one, in the order shown, and there is no other. */
  lemma {:induction false} NewsIsWhatWasShown(releases: seq<Release>) returns (at: seq<nat>)
    ensures NewsAt(releases, at) && |at| == |News(releases)|
    ensures forall k | 0 <= k < |at| :: News(releases)[k] == releases[at[k]].tag
  {
    at := [];
    if releases != [] {
      hide Known, IsNews, NewsAt, News;
      var init, n := releases[..|releases| - 1], |releases| - 1;
      var before := NewsIsWhatWasShown(init);
      NewsStep(releases);
      OneMorePlace(releases, before);
      at := before + if IsNews(releases, n) then [n] else [];
    } else {
      assert NewsAt(releases, at) && News(releases) == [];
    }
  }

  lemma OneMorePlace(releases: seq<Release>, before: seq<nat>)
    requires releases != [] && NewsAt(releases[..|releases| - 1], before)
    ensures NewsAt(releases, before + if IsNews(releases, |releases| - 1) then [|releases| - 1] else [])
    ensures forall k | 0 <= k < |before| :: before[k] < |releases| - 1
  {
    forall i | 0 <= i < |releases| - 1 ensures IsNews(releases, i) <==> IsNews(releases[..|releases| - 1], i) {
      SameNews(releases, i);
    }
    hide IsNews;
  }

  lemma NewsStep(releases: seq<Release>)
    requires releases != []
    ensures var n := |releases| - 1;
            News(releases) == News(releases[..n]) + if IsNews(releases, n) then [releases[n].tag] else []
  {
    LastIsNews(releases);
    hide IsNews, Known;
  }

  lemma LastIsNews(releases: seq<Release>)
    requires releases != []
    ensures var n := |releases| - 1;
            var known := Known(releases[..n]);
            IsNews(releases, n) <==> known.Some? && known.value != releases[n].tag
  {
    var n := |releases| - 1;
    KnownIsShownLast(releases[..n]);
    hide Known;
    assert forall j | 0 <= j < n :: releases[..n][j] == releases[j];
  }

  lemma SameNews(releases: seq<Release>, i: nat)
    requires i < |releases| - 1
    ensures IsNews(releases, i) <==> IsNews(releases[..|releases| - 1], i)
  {
    assert forall j | 0 <= j <= i :: releases[..|releases| - 1][j] == releases[j];
  }

  lemma PlacesInOrder(at: seq<nat>, k: nat, l: nat)
    requires k < |at| && l < |at| && at[k] < at[l] && forall i, j | 0 <= i < j < |at| :: at[i] < at[j]
    ensures k < l
  {}

  lemma ReturningNews(releases: seq<Release>)
    ensures NoneReturns(News(releases)) <==>
            forall i, j | 0 <= i < j < |releases| && IsNews(releases, i) && IsNews(releases, j) ::
              releases[i].tag != releases[j].tag
  {
    hide IsNews, News;
    var at := NewsIsWhatWasShown(releases);
    var news := News(releases);
    if NoneReturns(news) {
      forall i, j | 0 <= i < j < |releases| && IsNews(releases, i) && IsNews(releases, j)
        ensures releases[i].tag != releases[j].tag
      {
        var k, l :| 0 <= k < |at| && at[k] == i && 0 <= l < |at| && at[l] == j;
        PlacesInOrder(at, k, l);
      }
    } else {
      var k, l :| 0 <= k < l < |news| && news[k] == news[l];
      assert at[k] in at && at[l] in at && at[k] < at[l];
    }
  }
}
