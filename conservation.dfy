/** Conservation of value. The surplus of a ledger is its total supply minus the
    sum of its balances. Every primitive keeps the surplus: it is zero after `new`,
    and only `mint` makes it grow (see `Public.MintWidensSurplus`).
    That the surplus never goes negative is what keeps resolve's unchecked
    arithmetic from wrapping. */
module Conservation {
  import opened Types
  import opened Sums
  import opened Internal

  ghost function Surplus(l: Ledger): (s: int) {
    l.totalSupply - Sum(l.accounts)
  }

  /** The invariant the contract keeps: the balances never add up to more than the supply. */
  ghost predicate Conserved(l: Ledger) {
    Sum(l.accounts) <= l.totalSupply
  }

  /** Writing one balance through `UpdateAccount` replaces its old balance in the sum. */
  lemma UpdateAccountSum(l: Ledger, id: AccountId, balance: Balance)
    ensures Sum(UpdateAccount(l, id, balance).accounts) == Sum(l.accounts) - BalanceOf(l, id) + balance
  {
    if balance == 0 {
      SumDelete(l.accounts, id);
    } else {
      SumUpdate(l.accounts, id, balance);
    }
  }

  /** A stored balance never exceeds the sum of all balances. */
  lemma BalanceWithinSum(l: Ledger, id: AccountId)
    ensures BalanceOf(l, id) <= Sum(l.accounts)
  {
    if id in l.accounts {
      SumBoundsOne(l.accounts, id);
    }
  }

  lemma DepositKeepsSurplus(l: Ledger, id: AccountId, amount: Balance)
    requires Deposit(l, id, amount).Ok?
    ensures Surplus(Deposit(l, id, amount).value) == Surplus(l)
  {
    UpdateAccountSum(l, id, BalanceOf(l, id) + amount);
  }

  lemma WithdrawKeepsSurplus(l: Ledger, id: AccountId, amount: Balance)
    requires Withdraw(l, id, amount).Ok?
    ensures Surplus(Withdraw(l, id, amount).value) == Surplus(l)
  {
    UpdateAccountSum(l, id, BalanceOf(l, id) - amount);
  }

  /** Under the invariant the supply check of `internal_withdraw` never fires:
      the withdrawal fails exactly when the balance is too small. */
  lemma WithdrawFailsOnlyOnBalance(l: Ledger, id: AccountId, amount: Balance)
    requires Conserved(l)
    ensures Withdraw(l, id, amount).Ok? <==> amount <= BalanceOf(l, id)
  {
    BalanceWithinSum(l, id);
  }

  lemma TransferKeepsSurplus(l: Ledger, senderId: AccountId, receiverId: AccountId, amount: Balance)
    requires Transfer(l, senderId, receiverId, amount).Ok?
    ensures Surplus(Transfer(l, senderId, receiverId, amount).value) == Surplus(l)
  {
    var l1 := Withdraw(l, senderId, amount).value;
    WithdrawKeepsSurplus(l, senderId, amount);
    DepositKeepsSurplus(l1, receiverId, amount);
  }

  /** Under the invariant a transfer aborts only for the reasons a user can
      cause: same account, zero amount, too small a balance, or a receiver
      balance that would overflow. */
  lemma TransferFailsOnlyFor(l: Ledger, senderId: AccountId, receiverId: AccountId, amount: Balance)
    requires Conserved(l)
    ensures Transfer(l, senderId, receiverId, amount).Ok? <==>
      && senderId != receiverId
      && 0 < amount <= BalanceOf(l, senderId)
      && BalanceOf(l, receiverId) + amount <= U128_MAX
  {
    BalanceWithinSum(l, senderId);
  }

  /** The refund path: the sender still has an entry, so the receiver gives back
      `min(receiver balance, unused)` to it. The credit cannot wrap. */
  lemma ResolveRefunds(l: Ledger, senderId: AccountId, receiverId: AccountId, amount: Balance,
                       outcome: PromiseResult)
    requires Conserved(l)
    requires UnusedAmount(amount, outcome).Ok? && UnusedAmount(amount, outcome).value > 0
    requires BalanceOf(l, receiverId) > 0 && senderId in l.accounts
    ensures
      var refund := Min(BalanceOf(l, receiverId), UnusedAmount(amount, outcome).value);
      var r := Resolve(l, senderId, receiverId, amount, outcome);
      && r.Ok?
      && r.value.used == amount - refund
      && r.value.burned == 0
      && r.value.ledger.totalSupply == l.totalSupply
      && r.value.ledger.accounts.Keys == l.accounts.Keys
      && r.value.ledger.accounts - {senderId, receiverId} == l.accounts - {senderId, receiverId}
      && (senderId != receiverId ==>
            && r.value.ledger.accounts[senderId] == l.accounts[senderId] + refund
            && r.value.ledger.accounts[receiverId] == l.accounts[receiverId] - refund)
      && (senderId == receiverId ==> r.value.ledger == l)
  {
    var refund := Min(BalanceOf(l, receiverId), UnusedAmount(amount, outcome).value);
    var l1 := l.(accounts := l.accounts[receiverId := l.accounts[receiverId] - refund]);
    var r := Resolve(l, senderId, receiverId, amount, outcome);
    if senderId != receiverId {
      SumBoundsTwo(l.accounts, senderId, receiverId);
      assert l1.accounts[senderId] + refund <= U128_MAX;
      assert r.value.ledger.accounts == l1.accounts[senderId := l.accounts[senderId] + refund];
    } else {
      assert r.value.ledger.accounts == l.accounts;
    }
  }

  /** The burn path: the sender's entry is gone, so the refund taken from the
      receiver leaves the supply instead. The receiver keeps its entry even when
      its balance drops to zero. The burn cannot wrap. */
  lemma ResolveBurns(l: Ledger, senderId: AccountId, receiverId: AccountId, amount: Balance,
                     outcome: PromiseResult)
    requires Conserved(l)
    requires UnusedAmount(amount, outcome).Ok? && UnusedAmount(amount, outcome).value > 0
    requires BalanceOf(l, receiverId) > 0 && senderId !in l.accounts
    ensures
      var refund := Min(BalanceOf(l, receiverId), UnusedAmount(amount, outcome).value);
      var r := Resolve(l, senderId, receiverId, amount, outcome);
      && r.Ok?
      && r.value.used == amount
      && r.value.burned == refund
      && r.value.ledger.totalSupply == l.totalSupply - refund
      && r.value.ledger.accounts == l.accounts[receiverId := l.accounts[receiverId] - refund]
  {
    BalanceWithinSum(l, receiverId);
  }

  /** Whichever path resolve takes, the surplus is unchanged: a refund moves
      value between two entries, a burn removes it from an entry and from the
      supply together. */
  lemma ResolveKeepsSurplus(l: Ledger, senderId: AccountId, receiverId: AccountId, amount: Balance,
                            outcome: PromiseResult)
    requires Conserved(l)
    requires Resolve(l, senderId, receiverId, amount, outcome).Ok?
    ensures Surplus(Resolve(l, senderId, receiverId, amount, outcome).value.ledger) == Surplus(l)
  {
    var unused := UnusedAmount(amount, outcome).value;
    var n := Resolve(l, senderId, receiverId, amount, outcome).value.ledger;
    if unused > 0 && BalanceOf(l, receiverId) > 0 {
      var rb := l.accounts[receiverId];
      var refund := Min(rb, unused);
      var m1 := l.accounts[receiverId := rb - refund];
      SumUpdate(l.accounts, receiverId, rb - refund);
      if senderId in l.accounts {
        ResolveRefunds(l, senderId, receiverId, amount, outcome);
        if senderId != receiverId {
          assert n.accounts == m1[senderId := l.accounts[senderId] + refund];
          SumUpdate(m1, senderId, l.accounts[senderId] + refund);
        }
      } else {
        ResolveBurns(l, senderId, receiverId, amount, outcome);
      }
    } else {
      ResolveNoRefund(l, senderId, receiverId, amount, outcome);
    }
  }
}
