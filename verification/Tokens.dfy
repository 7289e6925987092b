/** One-time tokens (internal/api/auth/tokens.go, password_reset.go, handlers.go): the table of
    token rows, and any number of requests that redeem, replace and withdraw them, interleaved
    between any two database statements. */
module Tokens {
  import opened Wrappers

  type Id = string
  type Email = string
  type UserId = string
  type Secret = string

  datatype Kind = Invitation | PasswordReset | EmailChange

  /** `digest` is what the table keeps of the secret. */
  datatype Token = Token(kind: Kind, email: Email, digest: Secret, newEmail: Option<Email>, expiresAt: int, used: bool)

  type Table = map<Id, Token>

  // ---- statements -----------------------------------------------------------------------------

  /** What Validate asks of the row it found. */
  predicate Redeemable(row: Token, digest: Secret, kind: Kind, now: int) {
    row.digest == digest && row.kind == kind && !row.used && now < row.expiresAt
  }

  /** MarkAuthTokenUsed: a compare-and-set on used_at. */
  function MarkUsed(rows: Table, id: Id): Table {
    if id in rows && !rows[id].used then rows[id := rows[id].(used := true)] else rows
  }

  /** InvalidatePasswordResetTokensForEmail and its counterpart for email changes. */
  function MarkAllUsed(rows: Table, kind: Kind, email: Email): Table {
    map id | id in rows :: if rows[id].kind == kind && rows[id].email == email then rows[id].(used := true)
      else rows[id]
  }

  /** DeletePendingInvitation. */
  function WithoutPending(rows: Table, id: Id): Table {
    if id in rows && rows[id].kind == Invitation && !rows[id].used then rows - {id} else rows
  }

  datatype Statement = Runs | RunsReportedFailed | DoesNotRun

  datatype TokenError = TokenInvalid | DatabaseError

  /** The store side of the token service. */
  class TokenService {
    var rows: Table

    constructor ()
      ensures rows == map[]
    {
      rows := map[];
    }

    /** Validate: an unused, unexpired row of the kind with this digest, or no row at all. */
    method Validate(raw: string, digest: Secret, kind: Kind, now: int, lookup: Statement)
      returns (result: Result<Id, TokenError>)
      ensures result.Ok? ==>
                && lookup.Runs? && raw != "" && result.value in rows
                && var row := rows[result.value];
                   row.digest == digest && row.kind == kind && !row.used && now < row.expiresAt
      ensures (forall id | id in rows && rows[id].digest == digest ::
               rows[id].kind != kind || rows[id].used || rows[id].expiresAt <= now) ==> result.Err?
      ensures raw == "" ==> result == Err(TokenInvalid)
      ensures result == Err(DatabaseError) <==> raw != "" && !lookup.Runs?
      ensures raw != "" && lookup.Runs? && (exists id :: id in rows && rows[id].digest == digest) ==>
                (forall id | id in rows && rows[id].digest == digest ::
                 rows[id].kind == kind && !rows[id].used && now < rows[id].expiresAt) ==> result.Ok?
    {
      if raw == "" { return Err(TokenInvalid); }
      if !lookup.Runs? { return Err(DatabaseError); }
      if !exists id :: id in rows && rows[id].digest == digest { return Err(TokenInvalid); }
      var id :| id in rows && rows[id].digest == digest;
      var row := rows[id];
      if row.kind != kind { return Err(TokenInvalid); }
      if row.used { return Err(TokenInvalid); }
      if now >= row.expiresAt { return Err(TokenInvalid); }
      return Ok(id);
    }

    /** Consume: it succeeds for the caller that found the row unused, and for no other. */
    method Consume(id: Id, statement: Statement) returns (error: Option<TokenError>)
      modifies this
      ensures rows == if statement.DoesNotRun? then old(rows) else MarkUsed(old(rows), id)
      ensures rows.Keys == old(rows).Keys && forall other | other in rows ::
                rows[other] == if other == id && !statement.DoesNotRun? then old(rows)[other].(used := true)
                  else old(rows)[other]
      ensures !statement.Runs? ==> error == Some(DatabaseError)
      ensures error.None? ==> id in old(rows) && !old(rows)[id].used && rows[id].used
      ensures statement.Runs? ==> (error.None? <==> id in old(rows) && !old(rows)[id].used)
    {
      if statement.DoesNotRun? { return Some(DatabaseError); }
      var matched := id in rows && !rows[id].used;
      if matched {
        rows := rows[id := rows[id].(used := true)];
      }
      if statement.RunsReportedFailed? { return Some(DatabaseError); }
      return if matched then None else Some(TokenInvalid);
    }

    /** CreatePasswordReset and CreateEmailChange: older tokens of the address are marked used,
        then the new one is stored; the two statements share no transaction. */
    method Reissue(kind: Kind, email: Email, newEmail: Option<Email>, id: Id, digest: Secret, expiresAt: int,
                   invalidate: Statement, insert: Statement) returns (ok: bool)
      requires id !in rows
      modifies this
      ensures ok <==> invalidate.Runs? && insert.Runs?
      ensures var cleared := if invalidate.DoesNotRun? then old(rows) else MarkAllUsed(old(rows), kind, email);
              rows == if invalidate.Runs? && !insert.DoesNotRun?
                      then cleared[id := Token(kind, email, digest, newEmail, expiresAt, false)] else cleared
      ensures ok ==> forall other | other in rows ::
                rows[other].kind == kind && rows[other].email == email && !rows[other].used <==> other == id
      ensures ok ==> id in rows && rows[id] == Token(kind, email, digest, newEmail, expiresAt, false)
      ensures old(rows).Keys <= rows.Keys <= old(rows).Keys + {id}
      ensures forall other | other in old(rows) ::
                && (old(rows)[other].kind != kind || old(rows)[other].email != email ==>
                    rows[other] == old(rows)[other])
                && (rows[other] == old(rows)[other] || rows[other] == old(rows)[other].(used := true))
    {
      if invalidate.DoesNotRun? { return false; }
      rows := MarkAllUsed(rows, kind, email);
      if invalidate.RunsReportedFailed? { return false; }
      if insert.DoesNotRun? { return false; }
      rows := rows[id := Token(kind, email, digest, newEmail, expiresAt, false)];
      return insert.Runs?;
    }
  }

  // ---- requests in flight -------------------------------------------------------------------

  /** What a redemption carries from its first step on: the kind of its endpoint, the row as it
      was read, and the user it loaded. */
  datatype Claim = Claim(kind: Kind, id: Id, row: Token, user: Option<UserId>)

  datatype Phase =
    | Arrived
    | Validated(claim: Claim)
    | Checked(claim: Claim)
    | Consumed(claim: Claim)
    | Reissuing(kind: Kind, email: Email)
    | Finished

  datatype Change =
    | UserCreated(user: UserId, email: Email)
    | PasswordChanged(user: UserId)
    | EmailChanged(user: UserId, newEmail: Email)

  datatype Entry = Entry(token: Id, change: Change)

  /** `log` lists the account changes made by redemptions, `issued` every id ever stored. */
  datatype System = System(
    tokens: Table, users: map<UserId, Email>, requests: seq<Phase>, log: seq<Entry>, clock: int, issued: set<Id>)

  const START := System(map[], map[], [], [], 0, {})

  datatype Action =
    | Arrive
    | Validate(i: nat, kind: Kind, digest: Secret, id: Id, statement: Statement)
    | LoadUser(i: nat, user: UserId, statement: Statement)
    | CheckFree(i: nat, statement: Statement)
    | Consume(i: nat, statement: Statement)
    | Apply(i: nat, user: UserId, statement: Statement)
    | Invalidate(i: nat, kind: Kind, email: Email, statement: Statement)
    | Insert(i: nat, id: Id, digest: Secret, newEmail: Option<Email>, expiresAt: int, statement: Statement)
    | Invite(email: Email, id: Id, digest: Secret, expiresAt: int)
    | Withdraw(id: Id)
    | Tick(elapsed: nat)
    | AccountsChange(users: map<UserId, Email>)

  function SetPhase(s: System, i: nat, p: Phase): System
    requires i < |s.requests|
  {
    s.(requests := s.requests[i := p])
  }

  predicate EmailTaken(users: map<UserId, Email>, email: Email) {
    exists u :: u in users && users[u] == email
  }

  /** Reading the user of the token's address: before consuming for an email change, after it for
      a reset. A user that is not there, or a failed read, ends the request. */
  function Loaded(s: System, p: Phase, user: UserId, statement: Statement): Phase
    requires LoadIsDue(p)
  {
    if statement.Runs? && user in s.users && s.users[user] == p.claim.row.email
    then p.(claim := p.claim.(user := Some(user)))
    else Finished
  }

  /** The address that must be free before the token is consumed. */
  function WantedEmail(c: Claim): Option<Email> {
    if c.kind.Invitation? then Some(c.row.email)
    else if c.row.newEmail.None? || c.row.newEmail.value == "" then None
    else c.row.newEmail
  }

  predicate MayConsume(p: Phase) {
    p.Checked? || (p.Validated? && p.claim.kind.PasswordReset?)
  }

  /** The account change of a consumed claim, if the users table accepts it. */
  function Effect(accounts: map<UserId, Email>, c: Claim, user: UserId): Option<(Change, map<UserId, Email>)> {
    match c.kind
    case Invitation =>
      if user in accounts || EmailTaken(accounts, c.row.email) then None
      else Some((UserCreated(user, c.row.email), accounts[user := c.row.email]))
    case PasswordReset =>
      if c.user.None? || c.user.value !in accounts then None
      else Some((PasswordChanged(c.user.value), accounts))
    case EmailChange =>
      if c.user.None? || c.user.value !in accounts || WantedEmail(c).None? then None
      else if exists u :: u in accounts && u != c.user.value && accounts[u] == WantedEmail(c).value then None
      else Some((EmailChanged(c.user.value, WantedEmail(c).value), accounts[c.user.value := WantedEmail(c).value]))
  }

  function AfterValidate(s: System, kind: Kind, digest: Secret, id: Id, statement: Statement): Phase {
    if statement.Runs? && id in s.tokens && Redeemable(s.tokens[id], digest, kind, s.clock)
    then Validated(Claim(kind, id, s.tokens[id], None)) else Finished
  }

  function AfterCheck(s: System, c: Claim, statement: Statement): Phase {
    if !statement.Runs? || WantedEmail(c).None? || EmailTaken(s.users, WantedEmail(c).value) then Finished
    else Checked(c)
  }

  function AfterConsume(s: System, i: nat, c: Claim, statement: Statement): System
    requires i < |s.requests|
  {
    var won := c.id in s.tokens && !s.tokens[c.id].used;
    SetPhase(s, i, if won && statement.Runs? then Consumed(c) else Finished)
      .(tokens := if statement.DoesNotRun? then s.tokens else MarkUsed(s.tokens, c.id))
  }

  function AfterApply(s: System, i: nat, c: Claim, user: UserId, statement: Statement): System
    requires i < |s.requests|
  {
    var effect := Effect(s.users, c, user);
    var done := SetPhase(s, i, Finished);
    if statement.DoesNotRun? || effect.None? then done
    else done.(users := effect.value.1, log := s.log + [Entry(c.id, effect.value.0)])
  }

  function AfterInvalidate(s: System, i: nat, kind: Kind, email: Email, statement: Statement): System
    requires i < |s.requests|
  {
    SetPhase(s, i, if statement.Runs? then Reissuing(kind, email) else Finished)
      .(tokens := if statement.DoesNotRun? then s.tokens else MarkAllUsed(s.tokens, kind, email))
  }

  /** A row with a new id. */
  function Store(s: System, id: Id, row: Token): System {
    s.(tokens := s.tokens[id := row], issued := s.issued + {id})
  }

  /** One step of one request, or of something else; nothing where the step is not due. */
  function Step(s: System, a: Action): System {
    match a
    case Arrive => s.(requests := s.requests + [Arrived])
    case Validate(i, kind, digest, id, statement) =>
      if i < |s.requests| && s.requests[i].Arrived?
      then SetPhase(s, i, AfterValidate(s, kind, digest, id, statement)) else s
    case LoadUser(i, user, statement) =>
      if i < |s.requests| && LoadIsDue(s.requests[i])
      then SetPhase(s, i, Loaded(s, s.requests[i], user, statement)) else s
    case CheckFree(i, statement) =>
      if i < |s.requests| && CheckIsDue(s.requests[i])
      then SetPhase(s, i, AfterCheck(s, s.requests[i].claim, statement)) else s
    case Consume(i, statement) =>
      if i < |s.requests| && MayConsume(s.requests[i]) then AfterConsume(s, i, s.requests[i].claim, statement) else s
    case Apply(i, user, statement) =>
      if i < |s.requests| && ApplyIsDue(s.requests[i]) then AfterApply(s, i, s.requests[i].claim, user, statement)
      else s
    case Invalidate(i, kind, email, statement) =>
      if i < |s.requests| && s.requests[i].Arrived? && !kind.Invitation?
      then AfterInvalidate(s, i, kind, email, statement) else s
    case Insert(i, id, digest, newEmail, expiresAt, statement) =>
      if i < |s.requests| && s.requests[i].Reissuing? && id !in s.issued then
        var p, done := s.requests[i], SetPhase(s, i, Finished);
        if statement.DoesNotRun? then done
        else Store(done, id, Token(p.kind, p.email, digest, newEmail, expiresAt, false))
      else s
    case Invite(email, id, digest, expiresAt) =>
      if id !in s.issued then Store(s, id, Token(Invitation, email, digest, None, expiresAt, false)) else s
    case Withdraw(id) => s.(tokens := WithoutPending(s.tokens, id))
    case Tick(elapsed) => s.(clock := s.clock + elapsed)
    case AccountsChange(users) => s.(users := users)
  }

  predicate LoadIsDue(p: Phase) {
    (p.Validated? && p.claim.kind.EmailChange? && p.claim.user.None?) ||
    (p.Consumed? && p.claim.kind.PasswordReset? && p.claim.user.None?)
  }

  predicate CheckIsDue(p: Phase) {
    p.Validated? && (p.claim.kind.Invitation? || (p.claim.kind.EmailChange? && p.claim.user.Some?))
  }

  predicate ApplyIsDue(p: Phase) {
    p.Consumed? && (p.claim.kind.PasswordReset? ==> p.claim.user.Some?)
  }

  function Run(s: System, actions: seq<Action>): System {
    if actions == [] then s else Step(Run(s, actions[..|actions| - 1]), actions[|actions| - 1])
  }

  // ---- the invariant -------------------------------------------------------------------------

  /** The same token, apart from its being used. */
  predicate SameToken(a: Token, b: Token) {
    a == b.(used := a.used)
  }

  function KindOf(change: Change): Kind {
    match change
    case UserCreated(_, _) => Invitation
    case PasswordChanged(_) => PasswordReset
    case EmailChanged(_, _) => EmailChange
  }

  /** A claim agrees with the row it was read from; a consumed one holds the used row. */
  ghost predicate PhaseOk(tokens: Table, issued: set<Id>, p: Phase) {
    && (p.Validated? || p.Checked? || p.Consumed? ==>
          && p.claim.id in issued && p.claim.row.kind == p.claim.kind
          && (p.claim.id in tokens ==> SameToken(tokens[p.claim.id], p.claim.row)))
    && (p.Consumed? ==> p.claim.id in tokens && tokens[p.claim.id].used)
  }

  /** A change made by a redemption names a used token of the change's own kind, and gives
      the address the token was issued for. */
  ghost predicate EntryOk(tokens: Table, e: Entry) {
    && e.token in tokens && tokens[e.token].used && tokens[e.token].kind == KindOf(e.change)
    && (e.change.UserCreated? ==> e.change.email == tokens[e.token].email)
    && (e.change.EmailChanged? ==> tokens[e.token].newEmail == Some(e.change.newEmail))
  }

  ghost predicate RowsOk(s: System) {
    && s.tokens.Keys <= s.issued
    && (forall i | 0 <= i < |s.requests| :: PhaseOk(s.tokens, s.issued, s.requests[i]))
    && (forall k | 0 <= k < |s.log| :: EntryOk(s.tokens, s.log[k]))
  }

  predicate Holds(p: Phase, id: Id) {
    p.Consumed? && p.claim.id == id
  }

  ghost predicate Claimed(s: System, id: Id) {
    (exists i | 0 <= i < |s.requests| :: Holds(s.requests[i], id))
      || (exists k | 0 <= k < |s.log| :: s.log[k].token == id)
  }

  /** No token is claimed twice by consumed requests and changes already made. */
  ghost predicate ClaimedOnce(s: System) {
    && (forall i, j, id | 0 <= i < |s.requests| && 0 <= j < |s.requests| && Holds(s.requests[i], id)
        && Holds(s.requests[j], id) :: i == j)
    && (forall i, k | 0 <= i < |s.requests| && 0 <= k < |s.log| :: !Holds(s.requests[i], s.log[k].token))
    && (forall j, k | 0 <= j < k < |s.log| :: s.log[j].token != s.log[k].token)
  }

  ghost predicate Inv(s: System) {
    RowsOk(s) && ClaimedOnce(s)
  }

  /** What any statement may do to the rows: mark used, add new ids, delete unused ones. */
  ghost predicate Evolves(tokens: Table, issued: set<Id>, tokens': Table, issued': set<Id>) {
    && issued <= issued' && tokens'.Keys <= issued'
    && (forall id | id in issued && id in tokens' ::
        id in tokens && SameToken(tokens'[id], tokens[id]) && (tokens[id].used ==> tokens'[id].used))
    && (forall id | id in tokens && tokens[id].used :: id in tokens')
  }

  lemma StatementsEvolve(s: System, id: Id, kind: Kind, email: Email, row: Token)
    requires s.tokens.Keys <= s.issued
    ensures Evolves(s.tokens, s.issued, s.tokens, s.issued)
    ensures Evolves(s.tokens, s.issued, MarkUsed(s.tokens, id), s.issued)
    ensures Evolves(s.tokens, s.issued, MarkAllUsed(s.tokens, kind, email), s.issued)
    ensures Evolves(s.tokens, s.issued, WithoutPending(s.tokens, id), s.issued)
    ensures id !in s.issued ==> Evolves(s.tokens, s.issued, s.tokens[id := row], s.issued + {id})
  {}

  lemma EvolvingKeepsRows(tokens: Table, issued: set<Id>, tokens': Table, issued': set<Id>, p: Phase, e: Entry)
    requires tokens.Keys <= issued && Evolves(tokens, issued, tokens', issued')
    ensures PhaseOk(tokens, issued, p) ==> PhaseOk(tokens', issued', p)
    ensures EntryOk(tokens, e) ==> EntryOk(tokens', e)
  {}

  /** Steps that change one request and evolve the rows. */
  lemma RowsStayOk(s: System, s': System)
    requires RowsOk(s) && Evolves(s.tokens, s.issued, s'.tokens, s'.issued)
    requires |s.requests| <= |s'.requests|
    requires forall i | 0 <= i < |s'.requests| ::
               (i < |s.requests| && s'.requests[i] == s.requests[i]) || PhaseOk(s'.tokens, s'.issued, s'.requests[i])
    requires |s.log| <= |s'.log| && s'.log[..|s.log|] == s.log
    requires forall k | |s.log| <= k < |s'.log| :: EntryOk(s'.tokens, s'.log[k])
    ensures RowsOk(s')
  {
    hide PhaseOk, EntryOk, Evolves;
    EvolvedKeys(s, s');
    forall i | 0 <= i < |s'.requests| ensures PhaseOk(s'.tokens, s'.issued, s'.requests[i]) {
      EvolvingKeepsRows(s.tokens, s.issued, s'.tokens, s'.issued, s'.requests[i], Entry("", PasswordChanged("")));
    }
    forall k | 0 <= k < |s'.log| ensures EntryOk(s'.tokens, s'.log[k]) {
      assert k < |s.log| ==> s'.log[..|s.log|][k] == s'.log[k];
      EvolvingKeepsRows(s.tokens, s.issued, s'.tokens, s'.issued, Finished, s'.log[k]);
    }
  }

  lemma EvolvedKeys(s: System, s': System)
    requires Evolves(s.tokens, s.issued, s'.tokens, s'.issued)
    ensures s'.tokens.Keys <= s'.issued
  {}

  /** A consumed request or an account change has used its token. */
  lemma ClaimedIsUsed(s: System, id: Id)
    requires RowsOk(s) && Claimed(s, id)
    ensures id in s.tokens && s.tokens[id].used
  {}

  /** No new holder, no new change. */
  lemma NothingClaimed(s: System, s': System)
    requires ClaimedOnce(s) && s'.log == s.log && |s.requests| <= |s'.requests|
    requires forall i, id | 0 <= i < |s'.requests| && Holds(s'.requests[i], id) ::
               i < |s.requests| && Holds(s.requests[i], id)
    ensures ClaimedOnce(s')
  {}

  /** Request `i` becomes the holder of a token nobody has claimed. */
  lemma OneClaimed(s: System, s': System, i: nat, c: Claim)
    requires ClaimedOnce(s) && s'.log == s.log && i < |s.requests| && s'.requests == s.requests[i := Consumed(c)]
    requires !Claimed(s, c.id)
    ensures ClaimedOnce(s')
  {
    forall j, id | 0 <= j < |s.requests| && j != i && Holds(s'.requests[j], id)
      ensures id != c.id && Holds(s.requests[j], id)
    {
      assert Holds(s.requests[j], id);
    }
  }

  /** The holder's change is made. */
  lemma ClaimSettled(s: System, s': System, i: nat, e: Entry)
    requires ClaimedOnce(s) && i < |s.requests| && Holds(s.requests[i], e.token)
    requires s'.requests == s.requests[i := Finished] && s'.log == s.log + [e]
    ensures ClaimedOnce(s')
  {
    forall j, k | 0 <= j < |s'.requests| && 0 <= k < |s'.log| ensures !Holds(s'.requests[j], s'.log[k].token) {
      if j != i { assert s'.requests[j] == s.requests[j]; }
    }
  }

  // ---- every step keeps the invariant -----------------------------------------------------------

  /** A request takes a step that touches neither the rows nor the log and consumes nothing. */
  lemma PhaseStepKeepsInv(s: System, i: nat, p: Phase)
    requires Inv(s) && i < |s.requests| && PhaseOk(s.tokens, s.issued, p)
    requires p.Consumed? ==> Holds(s.requests[i], p.claim.id)
    ensures Inv(SetPhase(s, i, p))
  {
    hide PhaseOk, EntryOk, Evolves;
    StatementsEvolve(s, "", Invitation, "", NO_ROW);
    RowsStayOk(s, SetPhase(s, i, p));
    NothingClaimed(s, SetPhase(s, i, p));
  }

  lemma ConsumeKeepsInv(s: System, i: nat, c: Claim, statement: Statement)
    requires Inv(s) && i < |s.requests| && MayConsume(s.requests[i]) && s.requests[i].claim == c
    ensures Inv(AfterConsume(s, i, c, statement))
  {
    var s' := AfterConsume(s, i, c, statement);
    StatementsEvolve(s, c.id, Invitation, "", c.row);
    assert PhaseOk(s.tokens, s.issued, s.requests[i]);
    assert PhaseOk(s'.tokens, s'.issued, s'.requests[i]);
    hide PhaseOk, EntryOk, Evolves, Claimed, Holds;
    RowsStayOk(s, s');
    if s'.requests[i].Consumed? {
      if Claimed(s, c.id) { ClaimedIsUsed(s, c.id); }
      OneClaimed(s, s', i, c);
    } else {
      HoldsNothing(Finished);
      NothingClaimed(s, s');
    }
  }

  lemma HoldsNothing(p: Phase)
    requires !p.Consumed?
    ensures forall id :: !Holds(p, id)
  {}

  lemma EffectIsOk(s: System, c: Claim, user: UserId)
    requires PhaseOk(s.tokens, s.issued, Consumed(c)) && Effect(s.users, c, user).Some?
    ensures EntryOk(s.tokens, Entry(c.id, Effect(s.users, c, user).value.0))
  {}

  lemma ApplyKeepsInv(s: System, i: nat, user: UserId, statement: Statement)
    requires Inv(s) && i < |s.requests| && s.requests[i].Consumed?
    ensures Inv(AfterApply(s, i, s.requests[i].claim, user, statement))
  {
    var c := s.requests[i].claim;
    var s' := AfterApply(s, i, c, user, statement);
    StatementsEvolve(s, c.id, Invitation, "", c.row);
    assert PhaseOk(s.tokens, s.issued, Consumed(c));
    if s'.log != s.log { EffectIsOk(s, c, user); }
    assert PhaseOk(s'.tokens, s'.issued, Finished);
    hide PhaseOk, EntryOk, Evolves, Effect;
    RowsStayOk(s, s');
    if s'.log != s.log {
      ClaimSettled(s, s', i, s'.log[|s.log|]);
    } else {
      NothingClaimed(s, s');
    }
  }

  /** Steps after which no request holds a token it did not hold, and the log is the same. */
  lemma QuietStepKeepsInv(s: System, s': System)
    requires Inv(s) && s'.log == s.log && |s.requests| <= |s'.requests|
    requires Evolves(s.tokens, s.issued, s'.tokens, s'.issued)
    requires forall i | 0 <= i < |s'.requests| ::
               (i < |s.requests| && s'.requests[i] == s.requests[i]) || s'.requests[i].Arrived?
                 || s'.requests[i].Finished? || s'.requests[i].Reissuing?
    ensures Inv(s')
  {
    forall p: Phase | p.Arrived? || p.Finished? || p.Reissuing? ensures PhaseOk(s'.tokens, s'.issued, p) {}
    hide PhaseOk, EntryOk, Evolves;
    assert s'.log[..|s.log|] == s.log;
    RowsStayOk(s, s');
    NothingClaimed(s, s');
  }

  lemma StepKeepsInv(s: System, a: Action)
    requires Inv(s)
    ensures Inv(Step(s, a))
  {
    hide Inv, Evolves, MarkUsed, MarkAllUsed, WithoutPending, Effect, PhaseOk;
    var s' := Step(s, a);
    TableIsIssued(s);
    match a
    case Validate(i, kind, digest, id, statement) =>
      if s' != s {
        ValidatedIsOk(s, kind, digest, id, statement);
        PhaseStepKeepsInv(s, i, s'.requests[i]);
      }
    case LoadUser(i, user, statement) =>
      if s' != s {
        LoadedIsOk(s, i, user, statement);
        PhaseStepKeepsInv(s, i, Loaded(s, s.requests[i], user, statement));
      }
    case CheckFree(i, statement) =>
      if s' != s {
        CheckedIsOk(s, i, statement);
        PhaseStepKeepsInv(s, i, s'.requests[i]);
      }
    case Consume(i, statement) => if s' != s { ConsumeKeepsInv(s, i, s.requests[i].claim, statement); }
    case Apply(i, user, statement) => if s' != s { ApplyKeepsInv(s, i, user, statement); }
    case Invalidate(_, kind, email, _) => StatementsEvolve(s, "", kind, email, NO_ROW); QuietStepKeepsInv(s, s');
    case Insert(i, id, digest, newEmail, expiresAt, _) =>
      if s' != s {
        StatementsEvolve(s, id, Invitation, "",
                         Token(s.requests[i].kind, s.requests[i].email, digest, newEmail, expiresAt, false));
        QuietStepKeepsInv(s, s');
      }
    case Invite(email, id, digest, expiresAt) =>
      StatementsEvolve(s, id, Invitation, "", Token(Invitation, email, digest, None, expiresAt, false));
      QuietStepKeepsInv(s, s');
    case Withdraw(id) => StatementsEvolve(s, id, Invitation, "", NO_ROW); QuietStepKeepsInv(s, s');
    case _ => StatementsEvolve(s, "", Invitation, "", NO_ROW); QuietStepKeepsInv(s, s');
  }

  const NO_ROW := Token(Invitation, "", "", None, 0, false)

  lemma TableIsIssued(s: System)
    requires Inv(s)
    ensures s.tokens.Keys <= s.issued
  {}

  lemma ValidatedIsOk(s: System, kind: Kind, digest: Secret, id: Id, statement: Statement)
    requires Inv(s)
    ensures var p := AfterValidate(s, kind, digest, id, statement); PhaseOk(s.tokens, s.issued, p) && !p.Consumed?
  {}

  lemma LoadedIsOk(s: System, i: nat, user: UserId, statement: Statement)
    requires Inv(s) && i < |s.requests| && LoadIsDue(s.requests[i])
    ensures var p := Loaded(s, s.requests[i], user, statement);
            PhaseOk(s.tokens, s.issued, p) && (p.Consumed? ==> Holds(s.requests[i], p.claim.id))
  {
    assert PhaseOk(s.tokens, s.issued, s.requests[i]);
  }

  lemma CheckedIsOk(s: System, i: nat, statement: Statement)
    requires Inv(s) && i < |s.requests| && CheckIsDue(s.requests[i])
    ensures var p := AfterCheck(s, s.requests[i].claim, statement);
            PhaseOk(s.tokens, s.issued, p) && !p.Consumed?
  {
    assert PhaseOk(s.tokens, s.issued, s.requests[i]);
  }

  lemma {:induction false} RunKeepsInv(s: System, actions: seq<Action>)
    requires Inv(s)
    ensures Inv(Run(s, actions))
  {
    if actions != [] {
      RunKeepsInv(s, actions[..|actions| - 1]);
      StepKeepsInv(Run(s, actions[..|actions| - 1]), actions[|actions| - 1]);
    }
  }

  // ---- whose account ----------------------------------------------------------------------------

  /** Some time during the history the account had the address. */
  ghost predicate HadAddress(actions: seq<Action>, user: UserId, email: Email) {
    exists n | 0 <= n <= |actions| :: var users := Run(START, actions[..n]).users; user in users && users[user] == email
  }

  ghost function Held(actions: seq<Action>): iset<(UserId, Email)> {
    iset user: UserId, email: Email | HadAddress(actions, user, email) :: (user, email)
  }

  /** A password or address is changed of an account that had the token's address. */
  ghost predicate OwnAccount(held: iset<(UserId, Email)>, tokens: Table, e: Entry)
    requires e.token in tokens
  {
    match e.change
    case UserCreated(_, email) => email == tokens[e.token].email
    case PasswordChanged(user) => (user, tokens[e.token].email) in held
    case EmailChanged(user, _) => (user, tokens[e.token].email) in held
  }

  ghost predicate OwnClaim(held: iset<(UserId, Email)>, p: Phase) {
    (p.Validated? || p.Checked? || p.Consumed?) && p.claim.user.Some? ==>
      (p.claim.user.value, p.claim.row.email) in held
  }

  ghost predicate OwnersOk(held: iset<(UserId, Email)>, s: System) {
    && (forall i | 0 <= i < |s.requests| :: OwnClaim(held, s.requests[i]))
    && (forall k | 0 <= k < |s.log| :: s.log[k].token in s.tokens && OwnAccount(held, s.tokens, s.log[k]))
  }

  lemma HeldGrows(actions: seq<Action>, action: Action)
    ensures Held(actions) <= Held(actions + [action])
    ensures var users := Run(START, actions).users; forall user | user in users :: (user, users[user]) in Held(actions)
  {
    hide Run;
    assert actions[..|actions|] == actions;
    forall user, email | HadAddress(actions, user, email) ensures HadAddress(actions + [action], user, email) {
      var n :| 0 <= n <= |actions|
               && var users := Run(START, actions[..n]).users; user in users && users[user] == email;
      assert (actions + [action])[..n] == actions[..n];
    }
  }

  /** Used rows keep their address, so a change made stays one of the right account. */
  lemma EntryStaysOwn(held: iset<(UserId, Email)>, s: System, s': System, k: nat)
    requires Inv(s) && Inv(s') && OwnersOk(held, s) && k < |s.log| <= |s'.log| && s'.log[k] == s.log[k]
    requires Evolves(s.tokens, s.issued, s'.tokens, s'.issued)
    ensures s'.log[k].token in s'.tokens && OwnAccount(held, s'.tokens, s'.log[k])
  {
    assert EntryOk(s.tokens, s.log[k]);
  }

  lemma StepEvolves(s: System, a: Action)
    requires Inv(s)
    ensures var s' := Step(s, a);
            Evolves(s.tokens, s.issued, s'.tokens, s'.issued) && |s.log| <= |s'.log| && s'.log[..|s.log|] == s.log
  {
    hide Inv, Evolves, MarkUsed, MarkAllUsed, WithoutPending, Effect;
    TableIsIssued(s);
    var id := match a {
      case Insert(_, id, _, _, _, _) => id
      case Invite(_, id, _, _) => id
      case Withdraw(id) => id
      case Consume(i, _) => if i < |s.requests| && MayConsume(s.requests[i]) then s.requests[i].claim.id else ""
      case _ => ""
    };
    var (kind, email) := if a.Invalidate? then (a.kind, a.email) else (Invitation, "");
    var row := match a {
      case Insert(i, _, digest, newEmail, expiresAt, _) =>
        if i < |s.requests| && s.requests[i].Reissuing?
        then Token(s.requests[i].kind, s.requests[i].email, digest, newEmail, expiresAt, false) else NO_ROW
      case Invite(address, _, digest, expiresAt) => Token(Invitation, address, digest, None, expiresAt, false)
      case _ => NO_ROW
    };
    StatementsEvolve(s, id, kind, email, row);
  }

  /** The user a step loads has the address at that moment; the user it changes was loaded. */
  lemma StepKeepsOwners(held: iset<(UserId, Email)>, s: System, a: Action)
    requires Inv(s) && Inv(Step(s, a)) && OwnersOk(held, s)
    requires forall user | user in s.users :: (user, s.users[user]) in held
    ensures OwnersOk(held, Step(s, a))
  {
    var s' := Step(s, a);
    StepEvolves(s, a);
    forall k | 0 <= k < |s'.log| ensures s'.log[k].token in s'.tokens && OwnAccount(held, s'.tokens, s'.log[k]) {
      if k < |s.log| {
        assert s'.log[..|s.log|][k] == s'.log[k];
        EntryStaysOwn(held, s, s', k);
      } else {
        NewEntryIsOwn(held, s, a);
      }
    }
    hide Step, Inv, Evolves, OwnAccount, OwnClaim;
    StepKeepsClaims(held, s, a);
  }

  lemma StepKeepsClaims(held: iset<(UserId, Email)>, s: System, a: Action)
    requires forall i | 0 <= i < |s.requests| :: OwnClaim(held, s.requests[i])
    requires forall user | user in s.users :: (user, s.users[user]) in held
    ensures var s' := Step(s, a); forall i | 0 <= i < |s'.requests| :: OwnClaim(held, s'.requests[i])
  {
    hide MarkUsed, MarkAllUsed, WithoutPending, Effect, EmailTaken, Redeemable, OwnClaim, WantedEmail;
    var s' := Step(s, a);
    forall p: Phase | p.Arrived? || p.Reissuing? || p.Finished? ensures OwnClaim(held, p) { NoClaim(held, p); }
    match a
    case Validate(i, kind, digest, id, statement) => if s' != s { ValidatedClaim(held, s, kind, digest, id,
          statement); }
    case LoadUser(i, user, statement) => if s' != s { LoadedClaim(held, s, s.requests[i], user, statement); }
    case CheckFree(i, _) => if s' != s { SameClaim(held, s.requests[i].claim); }
    case Consume(i, _) => if s' != s { SameClaim(held, s.requests[i].claim); }
    case _ =>
  }

  lemma NoClaim(held: iset<(UserId, Email)>, p: Phase)
    requires p.Arrived? || p.Reissuing? || p.Finished?
    ensures OwnClaim(held, p)
  {}

  lemma ValidatedClaim(held: iset<(UserId, Email)>, s: System, kind: Kind, digest: Secret, id: Id, statement: Statement)
    ensures OwnClaim(held, AfterValidate(s, kind, digest, id, statement))
  {}

  lemma SameClaim(held: iset<(UserId, Email)>, c: Claim)
    ensures OwnClaim(held, Validated(c)) <==> OwnClaim(held, Checked(c))
    ensures OwnClaim(held, Checked(c)) <==> OwnClaim(held, Consumed(c))
  {}

  lemma LoadedClaim(held: iset<(UserId, Email)>, s: System, p: Phase, user: UserId, statement: Statement)
    requires LoadIsDue(p) && forall u | u in s.users :: (u, s.users[u]) in held
    ensures OwnClaim(held, Loaded(s, p, user, statement))
  {}

  lemma NewEntryIsOwn(held: iset<(UserId, Email)>, s: System, a: Action)
    requires Inv(s) && OwnersOk(held, s) && |Step(s, a).log| > |s.log|
    ensures var s' := Step(s, a);
            && |s'.log| == |s.log| + 1
            && s'.log[|s.log|].token in s'.tokens && OwnAccount(held, s'.tokens, s'.log[|s.log|])
  {
    hide MarkUsed, MarkAllUsed, WithoutPending;
    assert a.Apply? && a.i < |s.requests| && ApplyIsDue(s.requests[a.i]);
    assert OwnClaim(held, s.requests[a.i]) && PhaseOk(s.tokens, s.issued, s.requests[a.i]);
  }

  lemma OwnersMonotone(held: iset<(UserId, Email)>, more: iset<(UserId, Email)>, s: System)
    requires OwnersOk(held, s) && held <= more
    ensures OwnersOk(more, s)
  {}

  lemma {:induction false} ClaimsHoldOwners(actions: seq<Action>)
    ensures OwnersOk(Held(actions), Run(START, actions))
  {
    if actions != [] {
      var init, last := actions[..|actions| - 1], actions[|actions| - 1];
      ClaimsHoldOwners(init);
      RunKeepsInv(START, init);
      RunKeepsInv(START, actions);
      HeldGrows(init, last);
      assert actions == init + [last];
      var before := Run(START, init);
      hide Held, OwnersOk, Inv, Step;
      OwnersMonotone(Held(init), Held(actions), before);
      StepKeepsOwners(Held(actions), before, last);
    }
  }

  // ---- in time --------------------------------------------------------------------------------

  /** Some time during the history a request validated the token, before its expiry. */
  ghost predicate ValidatedInTime(actions: seq<Action>, id: Id, expiresAt: int) {
    exists n | 0 <= n < |actions| ::
      actions[n].Validate? && actions[n].id == id && Run(START, actions[..n]).clock < expiresAt
  }

  /** What a claim or a change rests on. */
  ghost predicate TimelyOk(actions: seq<Action>, s: System) {
    && (forall i | 0 <= i < |s.requests| :: TimelyPhase(actions, s.requests[i]))
    && (forall k | 0 <= k < |s.log| ::
          s.log[k].token in s.tokens && ValidatedInTime(actions, s.log[k].token, s.tokens[s.log[k].token].expiresAt))
  }

  predicate HasClaim(p: Phase) {
    p.Validated? || p.Checked? || p.Consumed?
  }

  ghost predicate TimelyPhase(actions: seq<Action>, p: Phase) {
    HasClaim(p) ==> ValidatedInTime(actions, p.claim.id, p.claim.row.expiresAt)
  }

  lemma TimelyGrows(actions: seq<Action>, last: Action, id: Id, expiresAt: int)
    ensures ValidatedInTime(actions, id, expiresAt) ==> ValidatedInTime(actions + [last], id, expiresAt)
    ensures last.Validate? && last.id == id && Run(START, actions).clock < expiresAt ==>
              ValidatedInTime(actions + [last], id, expiresAt)
  {
    hide Run;
    var all := actions + [last];
    if ValidatedInTime(actions, id, expiresAt) {
      var n :| 0 <= n < |actions| && actions[n].Validate? && actions[n].id == id
          && Run(START, actions[..n]).clock < expiresAt;
      assert all[..n] == actions[..n] && all[n] == actions[n];
    }
    assert all[|actions|] == last && all[..|actions|] == actions;
  }

  /** A claim after a step was there before it, or comes from a validation in time. */
  lemma ClaimsComeFrom(s: System, a: Action, i: nat)
    requires i < |Step(s, a).requests| && HasClaim(Step(s, a).requests[i])
    ensures var c := Step(s, a).requests[i].claim;
            || (i < |s.requests| && HasClaim(s.requests[i])
                && s.requests[i].claim.id == c.id && s.requests[i].claim.row == c.row)
            || (a.Validate? && a.id == c.id && s.clock < c.row.expiresAt)
  {
    hide MarkUsed, MarkAllUsed, WithoutPending, Effect, EmailTaken, WantedEmail;
  }

  lemma StepKeepsPhasesTimely(actions: seq<Action>, s: System, a: Action)
    requires s == Run(START, actions) && forall i | 0 <= i < |s.requests| :: TimelyPhase(actions, s.requests[i])
    ensures var s' := Step(s, a); forall i | 0 <= i < |s'.requests| :: TimelyPhase(actions + [a], s'.requests[i])
  {
    hide Run, Step, ValidatedInTime;
    var s' := Step(s, a);
    forall i | 0 <= i < |s'.requests| ensures TimelyPhase(actions + [a], s'.requests[i]) {
      if HasClaim(s'.requests[i]) {
        ClaimsComeFrom(s, a, i);
        TimelyGrows(actions, a, s'.requests[i].claim.id, s'.requests[i].claim.row.expiresAt);
      }
    }
  }

  lemma {:induction false} HistoryIsTimely(actions: seq<Action>)
    ensures TimelyOk(actions, Run(START, actions))
  {
    if actions != [] {
      var init, last := actions[..|actions| - 1], actions[|actions| - 1];
      var s, s' := Run(START, init), Run(START, actions);
      HistoryIsTimely(init);
      RunKeepsInv(START, init);
      RunKeepsInv(START, actions);
      assert actions == init + [last];
      StepKeepsPhasesTimely(init, s, last);
      StepEvolves(s, last);
      forall k | 0 <= k < |s'.log|
        ensures s'.log[k].token in s'.tokens
        ensures ValidatedInTime(actions, s'.log[k].token, s'.tokens[s'.log[k].token].expiresAt)
      {
        EntryIsTimely(init, s, last, k);
      }
    }
  }

  lemma EntryIsTimely(actions: seq<Action>, s: System, a: Action, k: nat)
    requires s == Run(START, actions) && Inv(s) && Inv(Step(s, a)) && TimelyOk(actions, s) && k < |Step(s, a).log|
    ensures var s' := Step(s, a);
            && s'.log[k].token in s'.tokens
            && ValidatedInTime(actions + [a], s'.log[k].token, s'.tokens[s'.log[k].token].expiresAt)
  {
    var s' := Step(s, a);
    StepEvolves(s, a);
    if k < |s.log| {
      assert s'.log[..|s.log|][k] == s'.log[k];
      var id := s.log[k].token;
      assert EntryOk(s.tokens, s.log[k]);
      TimelyGrows(actions, a, id, s.tokens[id].expiresAt);
    } else {
      NewEntryIsTimely(actions, s, a);
    }
  }

  lemma NewEntryIsTimely(actions: seq<Action>, s: System, a: Action)
    requires Inv(s) && TimelyOk(actions, s) && |Step(s, a).log| > |s.log|
    ensures var s' := Step(s, a);
            && |s'.log| == |s.log| + 1 && s'.log[|s.log|].token in s'.tokens
            && ValidatedInTime(actions + [a], s'.log[|s.log|].token, s'.tokens[s'.log[|s.log|].token].expiresAt)
  {
    hide MarkUsed, MarkAllUsed, WithoutPending, ValidatedInTime, Run;
    assert a.Apply? && a.i < |s.requests| && ApplyIsDue(s.requests[a.i]);
    var p := s.requests[a.i];
    assert TimelyPhase(actions, p) && PhaseOk(s.tokens, s.issued, p);
    TimelyGrows(actions, a, p.claim.id, p.claim.row.expiresAt);
  }

  // ---- theorems ----------------------------------------------------------------------------------

  /** No expired token changes an account: each change rests on a validation before the expiry of
      its token. */
  lemma EveryChangeIsInTime(actions: seq<Action>)
    ensures var s := Run(START, actions);
            forall k | 0 <= k < |s.log| ::
              s.log[k].token in s.tokens && ValidatedInTime(actions, s.log[k].token, s.tokens[s.log[k].token].expiresAt)
  {
    HistoryIsTimely(actions);
  }

  /** A request that comes too late, for a used token, with another secret or to another endpoint
      ends there. */
  lemma BadTokenEndsRequest(s: System, i: nat, kind: Kind, digest: Secret, id: Id, statement: Statement)
    requires i < |s.requests| && s.requests[i].Arrived? && id in s.tokens
    ensures var row := s.tokens[id];
            s.clock >= row.expiresAt || row.used || row.digest != digest || row.kind != kind || !statement.Runs?
            <==> Step(s, Validate(i, kind, digest, id, statement)).requests[i] == Finished
  {}

  /** Withdrawing takes away a pending invitation, and nothing else. */
  lemma WithdrawTakesInvitation(rows: Table, id: Id)
    ensures var after := WithoutPending(rows, id);
            if id in rows && rows[id].kind == Invitation && !rows[id].used
            then after.Keys == rows.Keys - {id} && forall other | other in after :: after[other] == rows[other]
            else after == rows
  {}

  /** Whatever requests run, in whatever interleaving and with whatever failures: a token causes
      at most one account change, of its own kind, giving the address it was issued for or
      changing an account that had it. */
  lemma OneChangePerToken(actions: seq<Action>)
    ensures var s := Run(START, actions);
            && (forall j, k | 0 <= j < k < |s.log| :: s.log[j].token != s.log[k].token)
            && (forall k | 0 <= k < |s.log| ::
                EntryOk(s.tokens, s.log[k]) && OwnAccount(Held(actions), s.tokens, s.log[k]))
  {
    RunKeepsInv(START, actions);
    ClaimsHoldOwners(actions);
  }

  /** Used or gone, and no request is past consuming it. */
  ghost predicate Spent(s: System, id: Id) {
    && id in s.issued && (id in s.tokens ==> s.tokens[id].used)
    && forall i | 0 <= i < |s.requests| :: !Holds(s.requests[i], id)
  }

  lemma StepKeepsSpent(s: System, a: Action, id: Id)
    requires Inv(s) && Spent(s, id)
    ensures var s' := Step(s, a);
            && Spent(s', id)
            && (|| s'.log == s.log
                || (|s'.log| == |s.log| + 1 && s'.log[..|s.log|] == s.log && s'.log[|s.log|].token != id))
  {
    var s' := Step(s, a);
    StepEvolves(s, a);
    UsedStaysUsed(s, s', id);
    hide Inv, Evolves, Effect, MarkUsed, MarkAllUsed, WithoutPending, EmailTaken, WantedEmail, Redeemable;
    if a.Arrive? {
      assert forall i | 0 <= i < |s.requests| :: s'.requests[i] == s.requests[i];
    }
  }

  lemma UsedStaysUsed(s: System, s': System, id: Id)
    requires Evolves(s.tokens, s.issued, s'.tokens, s'.issued) && id in s.issued
               && (id in s.tokens ==> s.tokens[id].used)
    ensures id in s'.issued && (id in s'.tokens ==> s'.tokens[id].used)
  {}

  /** A spent token causes no change any more, even for a request that had validated it. */
  lemma {:induction false} SpentIsNeverRedeemed(s: System, id: Id, actions: seq<Action>)
    requires Inv(s) && Spent(s, id)
    ensures var s' := Run(s, actions);
            && Spent(s', id) && |s.log| <= |s'.log| && s'.log[..|s.log|] == s.log
            && forall k | |s.log| <= k < |s'.log| :: s'.log[k].token != id
  {
    hide Inv, Spent, Step;
    if actions != [] {
      var before := Run(s, actions[..|actions| - 1]);
      SpentIsNeverRedeemed(s, id, actions[..|actions| - 1]);
      RunKeepsInv(s, actions[..|actions| - 1]);
      StepKeepsSpent(before, actions[|actions| - 1], id);
    }
  }

  /** Once a newer request has invalidated it, an unused reset or email-change token causes no
      account change in any continuation, whoever had validated it before. */
  lemma InvalidatedIsNeverRedeemed(s: System, i: nat, id: Id, statement: Statement, actions: seq<Action>)
    requires Inv(s) && i < |s.requests| && s.requests[i].Arrived? && !statement.DoesNotRun?
    requires id in s.tokens && !s.tokens[id].used && !s.tokens[id].kind.Invitation?
    ensures var s' := Run(Step(s, Invalidate(i, s.tokens[id].kind, s.tokens[id].email, statement)), actions);
            forall k | 0 <= k < |s'.log| :: s'.log[k].token != id
  {
    var a := Invalidate(i, s.tokens[id].kind, s.tokens[id].email, statement);
    var next := Step(s, a);
    StepKeepsInv(s, a);
    UnusedIsUnclaimed(s, id);
    assert Spent(next, id);
    hide Step, Run, Inv;
    SpentIsNeverRedeemed(next, id, actions);
    var s' := Run(next, actions);
    forall k | 0 <= k < |s'.log| ensures s'.log[k].token != id {
      assert k < |next.log| ==> s'.log[..|next.log|][k] == s'.log[k];
    }
  }

  lemma UnusedIsUnclaimed(s: System, id: Id)
    requires Inv(s) && id in s.tokens && !s.tokens[id].used
    ensures forall i | 0 <= i < |s.requests| :: !Holds(s.requests[i], id)
    ensures forall k | 0 <= k < |s.log| :: s.log[k].token != id
  {
    if Claimed(s, id) { ClaimedIsUsed(s, id); }
  }
}
