/** Creating an issue through the Jira REST API (internal/providers/ticket/jira.go). What
    goes over the wire is an `Exchange`: what the client saw, plus whether the tracker
    stored an issue, which the client cannot see. */
module Jira {
  import opened Wrappers
  import opened Strings
  import opened TicketErrors

  datatype Exchange =
    | NotBuilt(err: Error)
    | NoAnswer(err: Error, stored: bool)
    | Answered(code: nat, body: string, key: Result<string, string>, stored: bool)

  datatype Request = Request(projectKey: string, priority: string)

  predicate Stored(x: Exchange) {
    !x.NotBuilt? && x.stored
  }

  /** What the client can conclude from the exchange alone: nothing was stored. */
  predicate NothingStored(x: Exchange) {
    match x
    case NotBuilt(_) => true
    case NoAnswer(e, _) => NeverConnected(e)
    case Answered(code, _, _, _) => 400 <= code < 500
  }

  /** The behaviours of HTTP and of the tracker: a request that never left or that was
      answered with a client error (section 15.5 of RFC 9110) stores nothing, and an answer
      that names the new issue means that one was stored. */
  predicate Physical(x: Exchange) {
    && (NothingStored(x) ==> !Stored(x))
    && (x.NoAnswer? ==> FromTransport(x.err))
    && (x.Answered? ==> 100 <= x.code < 1000)
    && (x.Answered? && 200 <= x.code < 300 && x.key.Ok? && x.key.value != "" ==> x.stored)
  }

  /** doJSON with the response decoded into the issue key. */
  function DoJson(x: Exchange): Result<string, Error> {
    match x
    case NotBuilt(e) => Err(NotSent(Wrap("build request", e)))
    case NoAnswer(e, _) => Err(Wrap("request failed", e))
    case Answered(code, body, key, _) =>
      if code < 200 || code >= 300 then Err(HttpStatus(code, body))
      else if key.Err? then Err(Wrap("decode response", Text(key.error)))
      else Ok(key.value)
  }

  /** isJiraPriorityFieldError: two substrings of the message. */
  predicate IsPriorityFieldError(e: Error) {
    Contains(Message(e), "unexpected status 400") && Contains(Message(e), "\"priority\"")
  }

  predicate RetriesWithoutPriority(req: Request, first: Exchange) {
    DoJson(first).Err? && req.priority != "" && IsPriorityFieldError(DoJson(first).error)
  }

  datatype Created = Created(result: Result<string, Error>, stored: nat)

  /** CreateTicket. `cancelled` is the context error before anything was sent; `second` is
      used only when the create is repeated without its priority. */
  function CreateTicket(req: Request, cancelled: Option<Error>, first: Exchange, second: Exchange): Created {
    if cancelled.Some? then
      Created(Err(NotSent(cancelled.value)), 0)
    else if TrimSpace(req.projectKey) == "" then
      Created(Err(NotSent(Text("jira: external_project_id (project key) is required"))), 0)
    else
      var retry := RetriesWithoutPriority(req, first);
      var answer := if retry then DoJson(second) else DoJson(first);
      var stored := (if Stored(first) then 1 else 0) + (if retry && Stored(second) then 1 else 0);
      var result :=
        if answer.Err? then Err(Wrap("jira: create issue", answer.error))
        else if answer.value == "" then Err(Text("jira: create issue: empty key in response"))
        else answer;
      Created(result, stored)
  }

  /** Refused before anything is sent: a context that ended, or a blank project key, stores
      nothing and reads as such. */
  lemma RefusedBeforeSending(req: Request, cancelled: Option<Error>, first: Exchange, second: Exchange)
    requires cancelled.Some? || TrimSpace(req.projectKey) == ""
    ensures var c := CreateTicket(req, cancelled, first, second);
            c.stored == 0 && c.result.Err? && CreateDefinitelyNotStored(c.result.error)
    ensures var c := CreateTicket(req, cancelled, first, second);
            cancelled.Some? && c.result.Err? ==> Message(c.result.error) == Message(cancelled.value)
  {}

  /** The tracker answered that it made an issue, and named it. */
  predicate Names(x: Exchange, key: string) {
    x.Answered? && 200 <= x.code < 300 && key != "" && x.key == Result.Ok(key)
  }

  /** A key that is returned is the one the tracker answered with: in the first exchange, or else
      in the second, when the create was repeated without its priority. */
  lemma KeyIsFromTheAnswer(req: Request, first: Exchange, second: Exchange, key: string)
    requires TrimSpace(req.projectKey) != ""
    ensures var result := CreateTicket(req, None, first, second).result;
            && (Names(first, key) ==> result == Result.Ok(key))
            && (result == Result.Ok(key) ==> Names(first, key) || (req.priority != "" && Names(second, key)))
  {
    hide IsPriorityFieldError, TrimSpace;
  }

  /** The first attempt is repeated although the tracker may have stored its issue. */
  predicate RepeatsAmbiguousCreate(req: Request, first: Exchange) {
    RetriesWithoutPriority(req, first) && !NothingStored(first)
  }

  /** One exchange is reported as "definitely not stored" exactly when it allows that conclusion. */
  lemma DefiniteAttempt(x: Exchange)
    requires Physical(x) && DoJson(x).Err?
    ensures CreateDefinitelyNotStored(Wrap("jira: create issue", DoJson(x).error)) <==> NothingStored(x)
  {
    WrappingKeepsVerdict("jira: create issue", DoJson(x).error);
    match x
    case NotBuilt(_) =>
    case NoAnswer(err, _) =>
      WrappingKeepsVerdict("request failed", err);
      TransportHasNoTicketError(err);
    case Answered(_, _, key, _) =>
      if key.Err? { WrappingKeepsVerdict("decode response", Text(key.error)); }
  }

  /** Soundness: unless an ambiguous first attempt is repeated, a definite failure stored
      nothing, no create stores two issues, and success stores exactly one. */
  lemma CreateIsSound(req: Request, cancelled: Option<Error>, first: Exchange, second: Exchange)
    requires Physical(first) && Physical(second)
    requires !RepeatsAmbiguousCreate(req, first)
    ensures var c := CreateTicket(req, cancelled, first, second);
            && c.stored <= 1
            && (c.result.Ok? ==> c.stored == 1)
            && (c.result.Err? && CreateDefinitelyNotStored(c.result.error) ==> c.stored == 0)
  {
    var c := CreateTicket(req, cancelled, first, second);
    if cancelled.None? && TrimSpace(req.projectKey) != "" {
      if RetriesWithoutPriority(req, first) {
        if DoJson(second).Err? { DefiniteAttempt(second); }
      } else if DoJson(first).Err? {
        DefiniteAttempt(first);
      }
    }
  }

  function WithStored(x: Exchange, stored: bool): Exchange {
    if x.NotBuilt? then x else x.(stored := stored)
  }

  /** Exactly when "definitely not stored" can be trusted: whatever the tracker did behind
      the two exchanges the client saw, it stored nothing -- if and only if the answer does
      not come from a definite second attempt that followed an ambiguous first one. */
  lemma DefinitelyNotStoredExactly(req: Request, cancelled: Option<Error>, first: Exchange, second: Exchange)
    requires Physical(first) && Physical(second)
    requires cancelled.None? && TrimSpace(req.projectKey) != ""
    requires var r := CreateTicket(req, cancelled, first, second).result;
             r.Err? && CreateDefinitelyNotStored(r.error)
    ensures (forall s1, s2 ::
               Physical(WithStored(first, s1)) && Physical(WithStored(second, s2)) ==>
                 CreateTicket(req, cancelled, WithStored(first, s1), WithStored(second, s2)).stored == 0)
            <==> !RepeatsAmbiguousCreate(req, first)
  {
    if RepeatsAmbiguousCreate(req, first) {
      AmbiguousMayBeStored(req, first, second);
      assert Physical(WithStored(first, true)) && Physical(WithStored(second, false));
    } else {
      forall s1, s2 | Physical(WithStored(first, s1)) && Physical(WithStored(second, s2))
        ensures CreateTicket(req, cancelled, WithStored(first, s1), WithStored(second, s2)).stored == 0
      {
        HiddenOutcome(first, s1);
        HiddenOutcome(second, s2);
        hide DoJson, NothingStored, Physical, CreateDefinitelyNotStored, IsPriorityFieldError, TrimSpace;
        CreateIsSound(req, cancelled, WithStored(first, s1), WithStored(second, s2));
      }
    }
  }

  lemma HiddenOutcome(x: Exchange, stored: bool)
    ensures var y := WithStored(x, stored); DoJson(y) == DoJson(x) && NothingStored(y) == NothingStored(x)
  {}

  lemma AmbiguousMayBeStored(req: Request, first: Exchange, second: Exchange)
    requires Physical(first) && Physical(second) && TrimSpace(req.projectKey) != ""
    requires RepeatsAmbiguousCreate(req, first) && DoJson(second).Err?
    requires CreateDefinitelyNotStored(Wrap("jira: create issue", DoJson(second).error))
    ensures Physical(WithStored(first, true)) && Physical(WithStored(second, false))
    ensures CreateTicket(req, None, WithStored(first, true), WithStored(second, false)).stored == 1
  {
    hide IsPriorityFieldError, TrimSpace, CreateDefinitelyNotStored;
    HiddenOutcome(first, true);
    DefiniteAttempt(second);
  }

  /** The body of an answer quotes a rejected priority. */
  predicate QuotesRejection(body: string) {
    Contains(TrimSpace(body), "unexpected status 400") && Contains(TrimSpace(body), "\"priority\"")
  }

  /** The retry test reads a rendered message, so the body of any failed answer can pass
      for a rejected priority. */
  lemma QuotedBodyIsRetried(req: Request, first: Exchange)
    requires first.Answered? && !(200 <= first.code < 300) && req.priority != ""
    ensures QuotesRejection(first.body) ==> RetriesWithoutPriority(req, first)
  {
    hide Contains, TrimSpace, Itoa;
    var head := "unexpected status " + Itoa(first.code) + ": ";
    if QuotesRejection(first.body) {
      ContainsInSuffix(head, TrimSpace(first.body), "unexpected status 400");
      ContainsInSuffix(head, TrimSpace(first.body), "\"priority\"");
    }
  }

  /** A server error behind which the issue exists is repeated when its body quotes such an
      answer; the rejected repeat then reads as proof that nothing was stored. */
  lemma RetryMisreadsServerError(req: Request, first: Exchange, second: Exchange)
    requires Physical(first) && first.Answered? && first.code >= 500 && first.stored
    requires Physical(second) && NothingStored(second)
    requires TrimSpace(req.projectKey) != "" && req.priority != ""
    ensures var c := CreateTicket(req, None, first, second);
            QuotesRejection(first.body) ==> c.result.Err? && CreateDefinitelyNotStored(c.result.error) && c.stored == 1
  {
    hide QuotesRejection, RetriesWithoutPriority, TrimSpace, DoJson;
    RejectedIsErr(second);
    QuotedBodyIsRetried(req, first);
    DefiniteAttempt(second);
  }

  lemma RejectedIsErr(x: Exchange)
    requires NothingStored(x)
    ensures DoJson(x).Err?
  {}

  /** Such a body exists. */
  lemma MisreadBody() returns (body: string)
    ensures QuotesRejection(body)
  {
    var quoted, field := "unexpected status 400", "\"priority\"";
    body := quoted + field;
    NothingToTrim(body);
    assert body[0..|quoted|] == quoted;
    assert OccursAt(body, quoted, 0);
    assert body[|quoted|..|quoted| + |field|] == field;
    assert OccursAt(body, field, |quoted|);
  }

  /** Conversely, an answer whose body does not quote that status line is repeated only if
      it was a 400, so it cannot be repeated by mistake. */
  lemma HonestBodyMeansStatus400(req: Request, first: Exchange)
    requires Physical(first) && first.Answered? && !(200 <= first.code < 300)
    requires !Contains(first.body, "unexpected status 400")
    ensures RetriesWithoutPriority(req, first) ==> first.code == 400
    ensures !RepeatsAmbiguousCreate(req, first)
  {
    if RetriesWithoutPriority(req, first) && first.code != 400 {
      var message := Message(DoJson(first).error);
      var at: nat :| at <= |message| && OccursAt(message, "unexpected status 400", at);
      StatusLineOccursInBody(first.code, TrimSpace(first.body), at);
      TrimKeepsSubstring(first.body, "unexpected status 400");
    }
  }

  lemma NothingToTrim(s: string)
    requires s != "" && !IsSpace(s[0]) && !IsSpace(s[|s| - 1])
    ensures TrimSpace(s) == s
  {}

  lemma ContainsInSuffix(head: string, tail: string, pattern: string)
    requires Contains(tail, pattern)
    ensures Contains(head + tail, pattern)
  {
    var at: nat :| at <= |tail| && OccursAt(tail, pattern, at);
    assert (head + tail)[|head| + at..|head| + at + |pattern|] == tail[at..at + |pattern|];
    assert OccursAt(head + tail, pattern, |head| + at);
  }

  /** In the status line only the first letter starts "un". */
  lemma KnownLetters()
    ensures var pattern := "unexpected status 400";
            pattern[0] == 'u' && pattern[1] == 'n' && pattern[18] == '4' && pattern[19] == '0' && pattern[20] == '0'
    ensures var words := "unexpected status ";
            forall i | 0 < i < 18 :: words[i] == 'u' ==> i == 15 && words[i + 1] != 'n'
  {}

  /** "unexpected status 400" cannot overlap the status line of another code. */
  lemma StatusLineOccursInBody(code: nat, body: string, at: nat)
    requires 100 <= code < 1000 && code != 400
    requires OccursAt("unexpected status " + Itoa(code) + ": " + body, "unexpected status 400", at)
    ensures Contains(body, "unexpected status 400")
  {
    var pattern := "unexpected status 400";
    var words := "unexpected status ";
    ThreeDigits(code);
    var digits := Itoa(code);
    var message := words + digits + ": " + body;
    OccurrenceAt(message, pattern, at);
    KnownLetters();
    assert forall i | 0 <= i < 18 :: message[i] == words[i];
    assert message[18] == digits[0] && message[19] == digits[1] && message[20] == digits[2];
    assert message[21] == ':' && message[22] == ' ';
    assert message[at] == pattern[0] && message[at + 1] == pattern[1];
    assert message[at + 18] == pattern[18] && message[at + 19] == pattern[19] && message[at + 20] == pattern[20];
    assert at >= 23;
    assert body[at - 23..at - 2] == message[at..at + 21];
    assert OccursAt(body, pattern, at - 23);
  }
}
