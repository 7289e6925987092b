/** The three redemption endpoints (internal/api/auth/handlers.go, password_reset.go) as they run
    when nothing else touches the tables meanwhile, over the token service and the users table:
    whichever statements fail, each leaves the tables as the steps of a redemption do. */
module TokenHandlers {
  import opened Wrappers
  import opened Tokens
  import opened TokenRedemption

  class Handlers {
    const service: TokenService
    var users: map<UserId, Email>

    constructor (service: TokenService, users: map<UserId, Email>)
      ensures this.service == service && this.users == users
    {
      this.service, this.users := service, users;
    }

    /** A single request about to be served. */
    ghost function Snapshot(now: int): System
      reads this, service
    {
      System(service.rows, users, [Arrived], [], now, service.rows.Keys)
    }

    /** The tables are as the steps of a redemption leave `before`, and the answer tells whether
        it made its change, unless the database reported the change as failed. */
    ghost predicate LeftBy(before: System, kind: Kind, digest: Secret, id: Id, user: UserId, f: Statements, ok: bool)
      reads this, service
    {
      var after := Redeem(before, 0, kind, digest, id, user, f);
      service.rows == after.tokens && users == after.users && (ok <==> |after.log| > 0 && f.apply.Runs?)
    }

    /** Nothing happened to either table. */
    twostate predicate Untouched()
      reads this, service
    {
      service.rows == old(service.rows) && users == old(users)
    }

    /** GetUserByEmail. */
    method FindUser(email: Email, statement: Statement) returns (user: Result<Option<UserId>, TokenError>)
      ensures user.Ok? <==> statement.Runs?
      ensures user.Ok? && user.value.None? ==> !EmailTaken(users, email)
      ensures user.Ok? && user.value.Some? ==> user.value.value in users && users[user.value.value] == email
    {
      if !statement.Runs? { return Err(DatabaseError); }
      if EmailTaken(users, email) {
        var u :| u in users && users[u] == email;
        return Ok(Some(u));
      }
      return Ok(None);
    }

    method AcceptInvitation(raw: string, digest: Secret, now: int, newUser: UserId, f: Statements)
      returns (claimed: Result<Id, TokenError>, ok: bool)
      requires newUser !in users
      modifies this, service
      ensures claimed.Err? ==> !ok && Untouched()
      ensures claimed.Ok? ==> claimed.value in old(service.rows)
                              && LeftBy(old(Snapshot(now)), Invitation, digest, claimed.value, newUser, f, ok)
    {
      hide Redeem, MarkUsed;
      ghost var before := Snapshot(now);
      ok := false;
      claimed := service.Validate(raw, digest, Invitation, now, f.lookup);
      if claimed.Err? { return; }
      var id := claimed.value;
      var row := service.rows[id];
      RedeemHasOutcome(before, 0, Invitation, digest, id, newUser, f);
      var taken := FindUser(row.email, f.check);
      if taken.Err? || taken.value.Some? { return; }
      var failed := service.Consume(id, f.consume);
      if failed.Some? { return; }
      if f.apply.DoesNotRun? { return; }
      users := users[newUser := row.email];
      ok := f.apply.Runs?;
    }

    method ResetPassword(raw: string, digest: Secret, now: int, f: Statements)
      returns (claimed: Result<Id, TokenError>, user: UserId, ok: bool)
      modifies this, service
      ensures users == old(users)
      ensures claimed.Err? ==> !ok && Untouched()
      ensures claimed.Ok? ==> claimed.value in old(service.rows)
                              && LeftBy(old(Snapshot(now)), PasswordReset, digest, claimed.value, user, f, ok)
    {
      hide Redeem, MarkUsed;
      ghost var before := Snapshot(now);
      ok, user := false, "";
      claimed := service.Validate(raw, digest, PasswordReset, now, f.lookup);
      if claimed.Err? { return; }
      var id := claimed.value;
      var row := service.rows[id];
      RedeemHasOutcome(before, 0, PasswordReset, digest, id, user, f);
      var failed := service.Consume(id, f.consume);
      if failed.Some? { return; }
      var owner := FindUser(row.email, f.load);
      if owner.Err? || owner.value.None? { return; }
      user := owner.value.value;
      RedeemHasOutcome(before, 0, PasswordReset, digest, id, user, f);
      ok := f.apply.Runs?;
    }

    method ConfirmEmailChange(raw: string, digest: Secret, now: int, f: Statements)
      returns (claimed: Result<Id, TokenError>, user: UserId, ok: bool)
      modifies this, service
      ensures claimed.Err? ==> !ok && Untouched()
      ensures claimed.Ok? ==> claimed.value in old(service.rows)
                              && LeftBy(old(Snapshot(now)), EmailChange, digest, claimed.value, user, f, ok)
    {
      hide Redeem, MarkUsed;
      ghost var before := Snapshot(now);
      ok, user := false, "";
      claimed := service.Validate(raw, digest, EmailChange, now, f.lookup);
      if claimed.Err? { return; }
      var id := claimed.value;
      var row := service.rows[id];
      RedeemHasOutcome(before, 0, EmailChange, digest, id, user, f);
      if row.newEmail.None? || row.newEmail.value == "" { return; }
      var owner := FindUser(row.email, f.load);
      if owner.Err? || owner.value.None? { return; }
      user := owner.value.value;
      RedeemHasOutcome(before, 0, EmailChange, digest, id, user, f);
      var taken := FindUser(row.newEmail.value, f.check);
      if taken.Err? || taken.value.Some? { return; }
      var failed := service.Consume(id, f.consume);
      if failed.Some? { return; }
      if f.apply.DoesNotRun? { return; }
      users := users[user := row.newEmail.value];
      ok := f.apply.Runs?;
    }
  }
}
