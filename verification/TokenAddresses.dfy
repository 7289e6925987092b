/** The addresses that redemptions give to accounts: they stay distinct and are never empty. */
module TokenAddresses {
  import opened Tokens

  predicate Distinct(users: map<UserId, Email>) {
    forall u, v | u in users && v in users && users[u] == users[v] :: u == v
  }

  /** What other parts of the system do to the accounts leaves their addresses distinct. */
  predicate OthersKeepDistinct(actions: seq<Action>) {
    forall k | 0 <= k < |actions| && actions[k].AccountsChange? :: Distinct(actions[k].users)
  }

  predicate AddressesOk(s: System) {
    && Distinct(s.users)
    && forall k | 0 <= k < |s.log| && s.log[k].change.EmailChanged? :: s.log[k].change.newEmail != ""
  }

  lemma EffectKeepsDistinct(users: map<UserId, Email>, c: Claim, user: UserId)
    requires Distinct(users)
    ensures var effect := Effect(users, c, user);
            effect.Some? ==> Distinct(effect.value.1)
                             && (effect.value.0.EmailChanged? ==> effect.value.0.newEmail != "")
  {}

  lemma StepKeepsAddresses(s: System, a: Action)
    requires AddressesOk(s) && (a.AccountsChange? ==> Distinct(a.users))
    ensures AddressesOk(Step(s, a))
  {
    if a.Apply? && a.i < |s.requests| && ApplyIsDue(s.requests[a.i]) {
      hide Effect, Distinct;
      EffectKeepsDistinct(s.users, s.requests[a.i].claim, a.user);
    } else {
      assert Step(s, a).log == s.log && (Step(s, a).users == s.users || a.AccountsChange?) by {
        hide AddressesOk, Effect, MarkUsed, MarkAllUsed, EmailTaken;
      }
    }
  }

  /** In every interleaving, with whatever failures, no redemption gives an account the address of
      another one or an empty new address, although the address was checked in an earlier
      statement than the one that sets it. */
  lemma {:induction false} AddressesStayDistinct(actions: seq<Action>)
    requires OthersKeepDistinct(actions)
    ensures var s := Run(START, actions);
            && (forall u, v | u in s.users && v in s.users && u != v :: s.users[u] != s.users[v])
            && (forall k | 0 <= k < |s.log| && s.log[k].change.EmailChanged? :: s.log[k].change.newEmail != "")
    ensures AddressesOk(Run(START, actions))
  {
    hide Step;
    if actions != [] {
      var before := actions[..|actions| - 1];
      assert forall k | 0 <= k < |before| :: before[k] == actions[k];
      AddressesStayDistinct(before);
      StepKeepsAddresses(Run(START, before), actions[|actions| - 1]);
    }
  }
}
