/** One redemption from its first statement to its last, with nothing else going on but failing
    statements: what it comes to, and exactly when it changes an account. */
module TokenRedemption {
  import opened Wrappers
  import opened Tokens

  /** How the statements of the redemption end. */
  datatype Statements = Statements(lookup: Statement, load: Statement, check: Statement, consume: Statement,
                                   apply: Statement)

  /** The steps of one redemption back to back; those of another kind's endpoint are not due. */
  function Redeem(s: System, i: nat, kind: Kind, digest: Secret, id: Id, user: UserId, f: Statements): System {
    var s1 := Step(s, Validate(i, kind, digest, id, f.lookup));
    var s2 := Step(Step(s1, LoadUser(i, user, f.load)), CheckFree(i, f.check));
    var s3 := Step(Step(s2, Consume(i, f.consume)), LoadUser(i, user, f.load));
    Step(s3, Apply(i, user, f.apply))
  }

  lemma StepsAsWritten(s: System, i: nat, kind: Kind, digest: Secret, id: Id, user: UserId, f: Statements)
    requires i < |s.requests|
    ensures var p := s.requests[i];
            && Step(s, Validate(i, kind, digest, id, f.lookup)) ==
                 (if p.Arrived? then SetPhase(s, i, AfterValidate(s, kind, digest, id, f.lookup)) else s)
            && Step(s, LoadUser(i, user, f.load)) ==
                 (if LoadIsDue(p) then SetPhase(s, i, Loaded(s, p, user, f.load)) else s)
            && Step(s, CheckFree(i, f.check)) ==
                 (if CheckIsDue(p) then SetPhase(s, i, AfterCheck(s, p.claim, f.check)) else s)
            && Step(s, Consume(i, f.consume)) ==
                 (if MayConsume(p) then AfterConsume(s, i, p.claim, f.consume) else s)
            && Step(s, Apply(i, user, f.apply)) ==
                 (if ApplyIsDue(p) then AfterApply(s, i, p.claim, user, f.apply) else s)
  {}

  /** A request that has ended stays as it is. */
  lemma EndedStays(s: System, i: nat, user: UserId, f: Statements)
    requires i < |s.requests| && s.requests[i].Finished?
    ensures Step(s, LoadUser(i, user, f.load)) == s && Step(s, CheckFree(i, f.check)) == s
    ensures Step(s, Consume(i, f.consume)) == s && Step(s, Apply(i, user, f.apply)) == s
  {}

  /** What the endpoint verifies before it consumes the token. */
  predicate ChecksPass(s: System, c: Claim, user: UserId, f: Statements) {
    match c.kind
    case Invitation => f.check.Runs? && !EmailTaken(s.users, c.row.email)
    case PasswordReset => true
    case EmailChange =>
      && f.load.Runs? && user in s.users && s.users[user] == c.row.email
      && f.check.Runs? && c.row.newEmail.Some? && c.row.newEmail.value != ""
      && !EmailTaken(s.users, c.row.newEmail.value)
  }

  /** What the steps between Validate and Consume come to. */
  lemma BeforeConsuming(s: System, i: nat, c: Claim, user: UserId, f: Statements)
    requires i < |s.requests| && s.requests[i] == Validated(c) && c.user.None?
    ensures var s2 := Step(Step(s, LoadUser(i, user, f.load)), CheckFree(i, f.check));
            var c2 := if c.kind.EmailChange? then c.(user := Some(user)) else c;
            s2 == SetPhase(s, i,
                    if c.kind.PasswordReset? then Validated(c)
                    else if ChecksPass(s, c, user, f) then Checked(c2) else Finished)
  {
    hide Step;
    var s1 := Step(s, LoadUser(i, user, f.load));
    StepsAsWritten(s, i, c.kind, "", "", user, f);
    StepsAsWritten(s1, i, c.kind, "", "", user, f);
    assert s.requests[i := Validated(c)] == s.requests;
    if s1.requests[i].Finished? { EndedStays(s1, i, user, f); }
  }

  predicate UserFound(s: System, c: Claim, user: UserId, f: Statements) {
    f.load.Runs? && user in s.users && s.users[user] == c.row.email
  }

  /** The tokens after an attempt to use one up. */
  function Spent(s: System, c: Claim, f: Statements): System {
    s.(tokens := if f.consume.DoesNotRun? then s.tokens else MarkUsed(s.tokens, c.id))
  }

  /** Consuming and making the change, for a request that passed its checks. */
  lemma FromConsuming(s: System, i: nat, c: Claim, user: UserId, f: Statements)
    requires i < |s.requests| && MayConsume(s.requests[i]) && s.requests[i].claim == c
    requires c.id in s.tokens && !s.tokens[c.id].used
    requires c.user == (if c.kind.EmailChange? then Some(user) else None)
    ensures var s3 := Step(Step(s, Consume(i, f.consume)), LoadUser(i, user, f.load));
            var c3 := if c.kind.PasswordReset? then c.(user := Some(user)) else c;
            Step(s3, Apply(i, user, f.apply)) ==
              if !f.consume.Runs? || (c.kind.PasswordReset? && !UserFound(s, c, user, f))
              then SetPhase(Spent(s, c, f), i, Finished)
              else AfterApply(Spent(s, c, f), i, c3, user, f.apply)
  {
    hide Step, Effect;
    var s1 := Step(s, Consume(i, f.consume));
    var s2 := Step(s1, LoadUser(i, user, f.load));
    StepsAsWritten(s, i, c.kind, "", "", user, f);
    StepsAsWritten(s1, i, c.kind, "", "", user, f);
    StepsAsWritten(s2, i, c.kind, "", "", user, f);
    assert s.requests[i := s2.requests[i]][i := Finished] == s.requests[i := Finished];
  }

  /** A redemption in one go: rejected, its token used up in vain, or applied. */
  function Outcome(s: System, i: nat, c: Claim, user: UserId, f: Statements): System
    requires i < |s.requests|
  {
    if !ChecksPass(s, c, user, f) then SetPhase(s, i, Finished)
    else if !f.consume.Runs? || (c.kind.PasswordReset? && !UserFound(s, c, user, f))
    then SetPhase(Spent(s, c, f), i, Finished)
    else AfterApply(Spent(s, c, f), i, if c.kind.Invitation? then c else c.(user := Some(user)), user, f.apply)
  }

  /** The steps one after the other come to the outcome. */
  lemma RedeemHasOutcome(s: System, i: nat, kind: Kind, digest: Secret, id: Id, user: UserId, f: Statements)
    requires i < |s.requests| && s.requests[i].Arrived? && id in s.tokens
    ensures Redeem(s, i, kind, digest, id, user, f) ==
            if f.lookup.Runs? && Redeemable(s.tokens[id], digest, kind, s.clock)
            then Outcome(s, i, Claim(kind, id, s.tokens[id], None), user, f)
            else SetPhase(s, i, Finished)
  {
    hide Step, MarkUsed, EmailTaken, Effect;
    StepsAsWritten(s, i, kind, digest, id, user, f);
    var s1 := Step(s, Validate(i, kind, digest, id, f.lookup));
    if s1.requests[i].Finished? {
      EndedStays(s1, i, user, f);
    } else {
      var c := s1.requests[i].claim;
      BeforeConsuming(s1, i, c, user, f);
      var s2 := Step(Step(s1, LoadUser(i, user, f.load)), CheckFree(i, f.check));
      if s2.requests[i].Finished? {
        EndedStays(s2, i, user, f);
        assert s.requests[i := s1.requests[i]][i := Finished] == s.requests[i := Finished];
      } else {
        FromConsuming(s2, i, s2.requests[i].claim, user, f);
        assert s.requests[i := s1.requests[i]][i := s2.requests[i]][i := Finished] == s.requests[i := Finished];
      }
    }
  }

  // ---- exactly when --------------------------------------------------------------------------------

  /** Whether the users table lets the change of `kind` happen. */
  predicate AccountsAllow(s: System, kind: Kind, row: Token, user: UserId) {
    match kind
    case Invitation => user !in s.users && !EmailTaken(s.users, row.email)
    case PasswordReset => user in s.users && s.users[user] == row.email
    case EmailChange =>
      && user in s.users && s.users[user] == row.email
      && row.newEmail.Some? && row.newEmail.value != "" && !EmailTaken(s.users, row.newEmail.value)
  }

  /** Whether the statements that the endpoint of `kind` needs go through. */
  predicate StatementsAllow(kind: Kind, f: Statements) {
    && f.lookup.Runs? && f.consume.Runs? && !f.apply.DoesNotRun?
    && (!kind.Invitation? ==> f.load.Runs?)
    && (!kind.PasswordReset? ==> f.check.Runs?)
  }

  /** The change a token is for, made to `user`. */
  function ChangeBy(kind: Kind, row: Token, user: UserId): Change {
    match kind
    case Invitation => UserCreated(user, row.email)
    case PasswordReset => PasswordChanged(user)
    case EmailChange => EmailChanged(user, if row.newEmail.Some? then row.newEmail.value else "")
  }

  function UsersAfter(users: map<UserId, Email>, kind: Kind, row: Token, user: UserId): map<UserId, Email> {
    match kind
    case Invitation => users[user := row.email]
    case PasswordReset => users
    case EmailChange => users[user := if row.newEmail.Some? then row.newEmail.value else ""]
  }

  /** Left alone, a redemption makes its change exactly when the token is unused, unexpired and of
      the endpoint's kind, the accounts allow it and its statements go through. The change is then
      that of the token: its address becomes a user's, the password of the user with its address
      changes, or that user's address becomes the new one. The token is used up exactly when the
      redemption got as far as the compare-and-set. */
  lemma RedeemedExactly(s: System, i: nat, kind: Kind, digest: Secret, id: Id, user: UserId, f: Statements)
    requires i < |s.requests| && s.requests[i].Arrived? && id in s.tokens
    ensures var after := Redeem(s, i, kind, digest, id, user, f);
            var row := s.tokens[id];
            var valid := f.lookup.Runs? && row.digest == digest && row.kind == kind && !row.used
                && s.clock < row.expiresAt;
            var made := valid && AccountsAllow(s, kind, row, user) && StatementsAllow(kind, f);
            && after.requests == s.requests[i := Finished]
            && (after.tokens == if valid && ChecksPass(s, Claim(kind, id, row, None), user, f) && !f.consume.DoesNotRun?
                                then MarkUsed(s.tokens, id) else s.tokens)
            && (!made ==> after.log == s.log && after.users == s.users)
            && (made ==> after.log == s.log + [Entry(id, ChangeBy(kind, row, user))]
                         && after.users == UsersAfter(s.users, kind, row, user))
  {
    hide Redeem, MarkUsed, EmailTaken;
    RedeemHasOutcome(s, i, kind, digest, id, user, f);
    var c := Claim(kind, id, s.tokens[id], None);
    if ChecksPass(s, c, user, f) {
      EffectExactly(s, if kind.EmailChange? then c.(user := Some(user)) else c, user, f);
    }
  }

  lemma EffectExactly(s: System, c: Claim, user: UserId, f: Statements)
    requires ChecksPass(s, c, user, f)
    requires c.kind.EmailChange? ==> c.user == Some(user)
    ensures var own := (ChangeBy(c.kind, c.row, user), UsersAfter(s.users, c.kind, c.row, user));
            && (c.kind.Invitation? ==> Effect(s.users, c, user) == if user in s.users then None else Some(own))
            && (c.kind.PasswordReset? && user in s.users ==> Effect(s.users, c.(user := Some(user)), user) == Some(own))
            && (c.kind.EmailChange? ==> Effect(s.users, c, user) == Some(own))
  {}
}
