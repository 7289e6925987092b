/** Replacing reset and email-change tokens (internal/api/auth/password_reset.go:190-220,
    tokens.go:124-157): the older tokens of an address are invalidated and the new one is stored
    by two statements, between which other requests run. When does an address have one live
    token at most? */
module TokenRenewal {
  import opened Wrappers
  import opened Tokens

  predicate Live(s: System, id: Id, kind: Kind, email: Email) {
    id in s.tokens && s.tokens[id].kind == kind && s.tokens[id].email == email && !s.tokens[id].used
  }

  /** At most one unused token of the kind and address, or one re-issue about to store it. */
  ghost predicate OneLive(s: System, kind: Kind, email: Email) {
    && (forall j, k | Live(s, j, kind, email) && Live(s, k, kind, email) :: j == k)
    && (forall i, j | 0 <= i < |s.requests| && 0 <= j < |s.requests|
        && s.requests[i] == s.requests[j] == Reissuing(kind, email) :: i == j)
    && (forall i, id | 0 <= i < |s.requests| && s.requests[i] == Reissuing(kind, email) :: !Live(s, id, kind, email))
  }

  /** The step brings a re-issue for the address between its two statements. */
  predicate StartsReissue(s: System, a: Action, kind: Kind, email: Email) {
    && a.Invalidate? && a.i < |s.requests| && s.requests[a.i].Arrived? && a.statement.Runs?
    && a.kind == kind && a.email == email
  }

  /** No re-issue for an address gets there while another is. */
  ghost predicate DoesNotOverlap(s: System, a: Action, kind: Kind, email: Email) {
    StartsReissue(s, a, kind, email) ==> forall i | 0 <= i < |s.requests| :: s.requests[i] != Reissuing(kind, email)
  }

  ghost predicate NeverOverlaps(s: System, actions: seq<Action>, kind: Kind, email: Email) {
    actions != [] ==>
      && NeverOverlaps(s, actions[..|actions| - 1], kind, email)
      && DoesNotOverlap(Run(s, actions[..|actions| - 1]), actions[|actions| - 1], kind, email)
  }

  /** No new live token, and no new re-issue in progress. */
  lemma NothingRevived(s: System, s': System, kind: Kind, email: Email)
    requires OneLive(s, kind, email)
    requires forall id | Live(s', id, kind, email) :: Live(s, id, kind, email)
    requires forall i | 0 <= i < |s'.requests| && s'.requests[i] == Reissuing(kind, email) ::
               i < |s.requests| && s.requests[i] == s'.requests[i]
    ensures OneLive(s', kind, email)
  {}

  lemma StatementsReviveNothing(s: System, used: Id, withdrawn: Id, kind: Kind, email: Email)
    ensures forall id | Live(s.(tokens := MarkUsed(s.tokens, used)), id, kind, email) :: Live(s, id, kind, email)
    ensures forall id | Live(s.(tokens := WithoutPending(s.tokens, withdrawn)), id, kind, email) ::
              Live(s, id, kind, email)
  {}

  /** Whether a token is live depends on the rows only. */
  lemma LiveByRows(s: System, s': System, kind: Kind, email: Email)
    requires s'.tokens == s.tokens
    ensures forall id | Live(s', id, kind, email) :: Live(s, id, kind, email)
  {}

  lemma InvalidateKeepsOneLive(s: System, i: nat, other: Kind, address: Email, statement: Statement, kind: Kind,
                               email: Email)
    requires OneLive(s, kind, email) && i < |s.requests| && s.requests[i].Arrived?
    requires DoesNotOverlap(s, Invalidate(i, other, address, statement), kind, email)
    ensures OneLive(AfterInvalidate(s, i, other, address, statement), kind, email)
  {
    var s' := AfterInvalidate(s, i, other, address, statement);
    if (other, address) == (kind, email) && !statement.DoesNotRun? {
      assert forall id :: !Live(s', id, kind, email);
    } else {
      NothingRevived(s, s', kind, email);
    }
  }

  lemma InsertKeepsOneLive(s: System, i: nat, id: Id, row: Token, kind: Kind, email: Email)
    requires OneLive(s, kind, email) && i < |s.requests| && s.requests[i].Reissuing? && id !in s.tokens
    requires row.kind == s.requests[i].kind && row.email == s.requests[i].email && !row.used
    ensures OneLive(Store(SetPhase(s, i, Finished), id, row), kind, email)
  {
    var s' := Store(SetPhase(s, i, Finished), id, row);
    if s.requests[i] == Reissuing(kind, email) {
      assert forall other | Live(s', other, kind, email) :: other == id || Live(s, other, kind, email);
    } else {
      NothingRevived(s, s', kind, email);
    }
  }

  lemma StepKeepsOneLive(s: System, a: Action, kind: Kind, email: Email)
    requires Inv(s) && OneLive(s, kind, email) && !kind.Invitation? && DoesNotOverlap(s, a, kind, email)
    ensures OneLive(Step(s, a), kind, email)
  {
    TableIsIssued(s);
    hide Inv, OneLive, Effect, EmailTaken, DoesNotOverlap, Redeemable, WantedEmail, Live, MarkUsed, MarkAllUsed,
         WithoutPending;
    var s' := Step(s, a);
    match a
    case Invalidate(i, other, address, statement) =>
      if s' != s { InvalidateKeepsOneLive(s, i, other, address, statement, kind, email); }
    case Insert(i, id, digest, newEmail, expiresAt, statement) =>
      if s' != s && !statement.DoesNotRun? {
        var row := Token(s.requests[i].kind, s.requests[i].email, digest, newEmail, expiresAt, false);
        InsertKeepsOneLive(s, i, id, row, kind, email);
      } else {
        NothingRevived(s, s', kind, email);
      }
    case _ =>
      OthersReviveNothing(s, a, kind, email);
      OthersReissueNothing(s, a);
      NothingRevived(s, s', kind, email);
  }

  lemma OthersReviveNothing(s: System, a: Action, kind: Kind, email: Email)
    requires Inv(s) && !a.Invalidate? && !a.Insert? && !kind.Invitation?
    ensures forall id | Live(Step(s, a), id, kind, email) :: Live(s, id, kind, email)
  {
    hide Inv, Effect, EmailTaken, Redeemable, WantedEmail, Live, MarkUsed, MarkAllUsed, WithoutPending, Loaded,
         AfterCheck, AfterValidate;
    var s' := Step(s, a);
    match a
    case Consume(i, _) =>
      if s' != s {
        StatementsReviveNothing(s, s.requests[i].claim.id, "", kind, email);
        LiveByRows(s.(tokens := s'.tokens), s', kind, email);
      }
    case Withdraw(id) => StatementsReviveNothing(s, "", id, kind, email);
    case Invite(_, id, _, _) => InviteRevivesNothing(s, s', id, kind, email);
    case _ => LiveByRows(s, s', kind, email);
  }

  lemma OthersReissueNothing(s: System, a: Action)
    requires !a.Invalidate? && !a.Insert?
    ensures var s' := Step(s, a);
            forall i | 0 <= i < |s'.requests| && s'.requests[i].Reissuing? ::
                i < |s.requests| && s.requests[i] == s'.requests[i]
  {
    hide Effect, EmailTaken, Redeemable, WantedEmail, MarkUsed, MarkAllUsed, WithoutPending;
  }

  lemma InviteRevivesNothing(s: System, s': System, id: Id, kind: Kind, email: Email)
    requires !kind.Invitation? && (s'.tokens == s.tokens
                                   || (exists row: Token :: row.kind.Invitation? && s'.tokens == s.tokens[id := row]))
    ensures forall other | Live(s', other, kind, email) :: Live(s, other, kind, email)
  {}

  /** As long as the re-issues for an address do not overlap, it never has two live tokens. */
  lemma {:induction false} AtMostOneLive(actions: seq<Action>, kind: Kind, email: Email)
    requires !kind.Invitation? && NeverOverlaps(START, actions, kind, email)
    ensures OneLive(Run(START, actions), kind, email)
  {
    if actions != [] {
      AtMostOneLive(actions[..|actions| - 1], kind, email);
      RunKeepsInv(START, actions[..|actions| - 1]);
      StepKeepsOneLive(Run(START, actions[..|actions| - 1]), actions[|actions| - 1], kind, email);
    }
  }

  /** Overlapping re-issues break it: wherever two are between their statements, storing both
      tokens leaves two live ones, although each re-issue invalidated the older tokens. */
  lemma OverlappingReissuesLeaveTwo(s: System, i: nat, j: nat, first: Id, second: Id, a: Token, b: Token)
    requires i < |s.requests| && j < |s.requests| && i != j && first !in s.issued && second !in s.issued
               && first != second
    requires s.requests[i] == s.requests[j] == Reissuing(a.kind, a.email) && b.kind == a.kind && b.email == a.email
    requires !a.used && !b.used
    ensures var s1 := Step(s, Insert(i, first, a.digest, a.newEmail, a.expiresAt, Runs));
            var s2 := Step(s1, Insert(j, second, b.digest, b.newEmail, b.expiresAt, Runs));
            && Live(s2, first, a.kind, a.email) && Live(s2, second, a.kind, a.email)
            && (s.clock < a.expiresAt <==> Redeemable(s2.tokens[first], a.digest, a.kind, s2.clock))
            && (s.clock < b.expiresAt <==> Redeemable(s2.tokens[second], b.digest, b.kind, s2.clock))
  {}

  /** Two reset requests for one address can get there from the start. */
  lemma ReissuesCanOverlap(email: Email)
    ensures var s := Run(START, [Arrive, Arrive, Invalidate(0, PasswordReset, email, Runs),
                                 Invalidate(1, PasswordReset, email, Runs)]);
            |s.requests| == 2 && s.requests[0] == s.requests[1] == Reissuing(PasswordReset, email)
  {
    var a1, a2 := [Arrive], [Arrive, Arrive];
    var a3 := a2 + [Invalidate(0, PasswordReset, email, Runs)];
    var a4 := a3 + [Invalidate(1, PasswordReset, email, Runs)];
    assert a4 == [Arrive, Arrive, Invalidate(0, PasswordReset, email, Runs), Invalidate(1, PasswordReset, email, Runs)];
    assert a4[..3] == a3 && a3[..2] == a2 && a2[..1] == a1 && a1[..0] == [];
    assert Run(START, a1).requests == [Arrived];
    assert Run(START, a2).requests == [Arrived, Arrived];
    assert Run(START, a3).requests == [Reissuing(PasswordReset, email), Arrived];
  }

  // ---- exactly when ------------------------------------------------------------------------------

  ghost predicate AtMostOne(s: System, kind: Kind, email: Email) {
    forall j, k | Live(s, j, kind, email) && Live(s, k, kind, email) :: j == k
  }

  predicate OnlyInserts(actions: seq<Action>) {
    forall a | a in actions :: a.Insert?
  }

  lemma {:induction false} InsertsKeepOneLive(s: System, kind: Kind, email: Email, inserts: seq<Action>)
    requires Inv(s) && OneLive(s, kind, email) && !kind.Invitation? && OnlyInserts(inserts)
    ensures OneLive(Run(s, inserts), kind, email)
  {
    if inserts != [] {
      hide Inv, OneLive, Step;
      var init, last := inserts[..|inserts| - 1], inserts[|inserts| - 1];
      assert last in inserts && forall a | a in init :: a in inserts;
      InsertsKeepOneLive(s, kind, email, init);
      RunKeepsInv(s, init);
      StepKeepsOneLive(Run(s, init), last, kind, email);
    }
  }

  lemma {:induction false} FreshId(used: set<Id>) returns (id: Id)
    ensures id !in used && forall u | u in used :: |u| < |id|
    decreases used
  {
    if used == {} {
      id := "x";
    } else {
      var u :| u in used;
      var shorter := FreshId(used - {u});
      id := shorter + u + "x";
      assert forall v | v in used :: v == u || v in used - {u};
      assert |id| == |shorter| + |u| + 1;
      assert forall v | v in used :: |v| < |id|;
      assert id in used ==> |id| < |id|;
    }
  }

  /** Two re-issues between their statements, or one while a token is live, end in two live
      tokens if what is due is stored. */
  lemma PendingLeavesTwo(s: System, kind: Kind, email: Email) returns (inserts: seq<Action>)
    requires s.tokens.Keys <= s.issued && AtMostOne(s, kind, email) && !OneLive(s, kind, email)
    ensures OnlyInserts(inserts) && !AtMostOne(Run(s, inserts), kind, email)
  {
    var first := FreshId(s.issued);
    var second := FreshId(s.issued + {first});
    if i, id :| 0 <= i < |s.requests| && s.requests[i] == Reissuing(kind, email) && Live(s, id, kind, email) {
      inserts := [Insert(i, first, "", None, 1, Runs)];
      RunOne(s, inserts[0]);
      var s1 := Step(s, inserts[0]);
      assert Live(s1, first, kind, email) && Live(s1, id, kind, email) && first != id;
    } else {
      var i, j :| 0 <= i < |s.requests| && 0 <= j < |s.requests| && i != j
                  && s.requests[i] == s.requests[j] == Reissuing(kind, email);
      inserts := [Insert(i, first, "", None, 1, Runs), Insert(j, second, "", None, 1, Runs)];
      var row := Token(kind, email, "", None, 1, false);
      OverlappingReissuesLeaveTwo(s, i, j, first, second, row, row);
      RunTwo(s, inserts[0], inserts[1]);
    }
  }

  lemma RunOne(s: System, a: Action)
    ensures Run(s, [a]) == Step(s, a)
  {
    hide Step;
    assert [a][..0] == [] && Run(s, []) == s;
  }

  lemma RunTwo(s: System, a: Action, b: Action)
    ensures Run(s, [a, b]) == Step(Step(s, a), b)
  {
    hide Step;
    RunOne(s, a);
    assert [a, b][..1] == [a];
  }

  /** From any state with one live token at most: however the re-issues that are under way end,
      no second one appears if and only if there is at most one of them, and none while a
      token is live. */
  lemma SecondTokenExactly(s: System, kind: Kind, email: Email)
    requires Inv(s) && !kind.Invitation? && AtMostOne(s, kind, email)
    ensures (forall inserts | OnlyInserts(inserts) :: AtMostOne(Run(s, inserts), kind, email)) <==>
              OneLive(s, kind, email)
  {
    TableIsIssued(s);
    hide Inv, Run;
    if OneLive(s, kind, email) {
      forall inserts | OnlyInserts(inserts) ensures AtMostOne(Run(s, inserts), kind, email) {
        InsertsKeepOneLive(s, kind, email, inserts);
      }
    } else {
      var inserts := PendingLeavesTwo(s, kind, email);
      assert OnlyInserts(inserts) && !AtMostOne(Run(s, inserts), kind, email);
    }
  }

  lemma {:induction false} PrefixNeverOverlaps(actions: seq<Action>, n: nat, kind: Kind, email: Email)
    requires NeverOverlaps(START, actions, kind, email) && n <= |actions|
    ensures NeverOverlaps(START, actions[..n], kind, email)
  {
    hide DoesNotOverlap;
    if n < |actions| {
      PrefixNeverOverlaps(actions[..|actions| - 1], n, kind, email);
      assert actions[..|actions| - 1][..n] == actions[..n];
    } else {
      assert actions[..n] == actions;
    }
  }

  /** A history whose re-issues overlap has a moment from which storing the tokens under way
      leaves two live ones. */
  lemma {:induction false} OverlapLeavesTwo(actions: seq<Action>, kind: Kind, email: Email)
      returns (n: nat, inserts: seq<Action>)
    requires !kind.Invitation? && !NeverOverlaps(START, actions, kind, email)
    ensures n <= |actions| && OnlyInserts(inserts)
    ensures !AtMostOne(Run(Run(START, actions[..n]), inserts), kind, email)
  {
    var init, last := actions[..|actions| - 1], actions[|actions| - 1];
    if !NeverOverlaps(START, init, kind, email) {
      n, inserts := OverlapLeavesTwo(init, kind, email);
      assert init[..n] == actions[..n];
    } else {
      n := |actions|;
      assert actions[..n] == actions;
      AtMostOneLive(init, kind, email);
      RunKeepsInv(START, actions);
      var before, s := Run(START, init), Run(START, actions);
      TableIsIssued(s);
      TwoReissuing(before, last, kind, email);
      if AtMostOne(s, kind, email) {
        inserts := PendingLeavesTwo(s, kind, email);
      } else {
        inserts := [];
      }
    }
  }

  lemma TwoReissuing(s: System, a: Action, kind: Kind, email: Email)
    requires !kind.Invitation? && !DoesNotOverlap(s, a, kind, email)
    ensures !OneLive(Step(s, a), kind, email)
  {
    var i :| 0 <= i < |s.requests| && s.requests[i] == Reissuing(kind, email);
    var s' := Step(s, a);
    assert i != a.i && s'.requests[i] == s'.requests[a.i] == Reissuing(kind, email);
  }

  /** "The newest token only", exactly: at every moment of a history, and however the re-issues
      then under way end, an address has at most one live token if and only if no re-issue for
      it ever gets between its two statements while another is there. */
  lemma NewestTokenOnlyExactly(actions: seq<Action>, kind: Kind, email: Email)
    requires !kind.Invitation?
    ensures NeverOverlaps(START, actions, kind, email) <==>
            forall n, inserts | 0 <= n <= |actions| && OnlyInserts(inserts) ::
              AtMostOne(Run(Run(START, actions[..n]), inserts), kind, email)
  {
    if NeverOverlaps(START, actions, kind, email) {
      forall n, inserts | 0 <= n <= |actions| && OnlyInserts(inserts)
        ensures AtMostOne(Run(Run(START, actions[..n]), inserts), kind, email)
      {
        PrefixNeverOverlaps(actions, n, kind, email);
        AtMostOneLive(actions[..n], kind, email);
        RunKeepsInv(START, actions[..n]);
        InsertsKeepOneLive(Run(START, actions[..n]), kind, email, inserts);
      }
    } else {
      var n, inserts := OverlapLeavesTwo(actions, kind, email);
      assert 0 <= n <= |actions| && OnlyInserts(inserts);
    }
  }
}
