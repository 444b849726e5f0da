/** The ledger primitives of nep-141-model/src/internal.rs, as functions from one
    ledger value to the next. A `Result` that is `Err` is a panic: the host then
    keeps the ledger as it was before the call (see `Commit`). */
module Internal {
  import opened Types

  /** The part of the contract state the primitives read and write: the
      account table and the total supply. */
  datatype Ledger = Ledger(accounts: map<AccountId, Balance>, totalSupply: Balance)

  /** The ledger after a call that either succeeded or was rolled back. */
  function Commit(before: Ledger, r: Result<Ledger>): (after: Ledger) {
    if r.Ok? then r.value else before
  }

  /** No stored entry holds a zero balance: the storage-release rule stated in the
      doc comment of `internal_update_account` (internal.rs:64-65). */
  ghost predicate NoZeroEntries(l: Ledger) {
    forall k :: k in l.accounts ==> l.accounts[k] > 0
  }

  /** `internal_unwrap_balance_of`: an absent account holds nothing. */
  function BalanceOf(l: Ledger, id: AccountId): (b: Balance)
    ensures id in l.accounts ==> b == l.accounts[id]
    ensures id !in l.accounts ==> b == 0
  {
    if id in l.accounts then l.accounts[id] else 0
  }

  /** `internal_update_account`: a zero balance deletes the entry, any other
      balance is stored; nothing else changes. */
  function UpdateAccount(l: Ledger, id: AccountId, balance: Balance): (r: Ledger)
    ensures BalanceOf(r, id) == balance
    ensures id in r.accounts <==> balance != 0
    ensures r.accounts - {id} == l.accounts - {id}
    ensures r.totalSupply == l.totalSupply
  {
    if balance == 0 then
      l.(accounts := l.accounts - {id})
    else
      assert l.accounts[id := balance] - {id} == l.accounts - {id};
      l.(accounts := l.accounts[id := balance])
  }

  /** `internal_deposit`: credits `amount` to `id` and to the supply, both checked. */
  function Deposit(l: Ledger, id: AccountId, amount: Balance): (r: Result<Ledger>)
    ensures r.Ok? <==> BalanceOf(l, id) + amount <= U128_MAX && l.totalSupply + amount <= U128_MAX
    ensures r.Err? ==> r.error == TotalSupplyOverflow
    ensures r.Ok? ==>
      && BalanceOf(r.value, id) == BalanceOf(l, id) + amount
      && r.value.totalSupply == l.totalSupply + amount
      && r.value.accounts - {id} == l.accounts - {id}
      && (id in r.value.accounts <==> BalanceOf(l, id) + amount > 0)
  {
    var balance := BalanceOf(l, id);
    if balance + amount > U128_MAX then Err(TotalSupplyOverflow)
    else
      var l1 := UpdateAccount(l, id, balance + amount);
      if l1.totalSupply + amount > U128_MAX then Err(TotalSupplyOverflow)
      else Ok(l1.(totalSupply := l1.totalSupply + amount))
  }

  /** `internal_withdraw`: debits `amount` from `id` and from the supply, both
      checked; an account emptied this way loses its entry. */
  function Withdraw(l: Ledger, id: AccountId, amount: Balance): (r: Result<Ledger>)
    ensures r.Ok? <==> amount <= BalanceOf(l, id) && amount <= l.totalSupply
    ensures r.Err? ==> r.error == (if amount > BalanceOf(l, id) then NotEnoughBalance else TotalSupplyUnderflow)
    ensures r.Ok? ==>
      && BalanceOf(r.value, id) == BalanceOf(l, id) - amount
      && r.value.totalSupply == l.totalSupply - amount
      && r.value.accounts - {id} == l.accounts - {id}
      && (id in r.value.accounts <==> amount < BalanceOf(l, id))
  {
    var balance := BalanceOf(l, id);
    if amount > balance then Err(NotEnoughBalance)
    else
      var l1 := UpdateAccount(l, id, balance - amount);
      if amount > l1.totalSupply then Err(TotalSupplyUnderflow)
      else Ok(l1.(totalSupply := l1.totalSupply - amount))
  }

  /** Which check of `internal_transfer` fails first, in the order the code makes them. */
  function TransferError(l: Ledger, senderId: AccountId, receiverId: AccountId, amount: Balance): (e: Error) {
    if senderId == receiverId then SameAccount
    else if amount == 0 then ZeroAmount
    else if amount > BalanceOf(l, senderId) then NotEnoughBalance
    else if amount > l.totalSupply then TotalSupplyUnderflow
    else TotalSupplyOverflow
  }

  /** `internal_transfer`: refuses a transfer to oneself and a zero transfer,
      then withdraws from the sender and deposits to the receiver. */
  function Transfer(l: Ledger, senderId: AccountId, receiverId: AccountId, amount: Balance): (r: Result<Ledger>)
    ensures r.Ok? <==>
      && senderId != receiverId
      && 0 < amount <= BalanceOf(l, senderId)
      && amount <= l.totalSupply
      && BalanceOf(l, receiverId) + amount <= U128_MAX
    ensures r.Err? ==> r.error == TransferError(l, senderId, receiverId, amount)
    ensures r.Ok? ==>
      && BalanceOf(r.value, senderId) == BalanceOf(l, senderId) - amount
      && BalanceOf(r.value, receiverId) == BalanceOf(l, receiverId) + amount
      && r.value.totalSupply == l.totalSupply
      && r.value.accounts - {senderId, receiverId} == l.accounts - {senderId, receiverId}
      && (senderId in r.value.accounts <==> amount < BalanceOf(l, senderId))
      && receiverId in r.value.accounts
  {
    if senderId == receiverId then Err(SameAccount)
    else if amount == 0 then Err(ZeroAmount)
    else
      match Withdraw(l, senderId, amount)
      case Err(e) => Err(e)
      case Ok(l1) =>
        assert BalanceOf(l1, receiverId) == BalanceOf(l, receiverId) by {
          assert receiverId in l1.accounts - {senderId} <==> receiverId in l.accounts - {senderId};
        }
        var r := Deposit(l1, receiverId, amount);
        if r.Ok? then
          assert r.value.accounts - {senderId, receiverId} == l.accounts - {senderId, receiverId} by {
            assert r.value.accounts - {senderId, receiverId} == (r.value.accounts - {receiverId}) - {senderId};
            assert l1.accounts - {senderId, receiverId} == (l1.accounts - {senderId}) - {receiverId};
            assert l.accounts - {senderId, receiverId} == (l.accounts - {senderId}) - {receiverId};
          }
          assert BalanceOf(r.value, senderId) == BalanceOf(l1, senderId) by {
            assert senderId in r.value.accounts - {receiverId} <==> senderId in l1.accounts - {receiverId};
          }
          r
        else r
  }

  /** The amount the receiver hands back, from the outcome of `ft_on_transfer`:
      a parsed claim is clamped to `amount`; an unparsable reply or a failed call
      hands back everything. */
  function UnusedAmount(amount: Balance, outcome: PromiseResult): (r: Result<Balance>)
    ensures r.Err? <==> outcome.NotReady?
    ensures r.Err? ==> r.error == PromiseNotReady
    ensures r.Ok? ==> r.value <= amount
    ensures outcome.Successful? && outcome.parsed.Some? ==>
      r.value <= outcome.parsed.value && (r.value == amount || r.value == outcome.parsed.value)
    ensures outcome.Failed? || outcome == Successful(None) ==> r == Ok(amount)
  {
    match outcome
    case NotReady => Err(PromiseNotReady)
    case Successful(parsed) =>
      (match parsed
       case Some(claimed) => Ok(Min(amount, claimed))
       case None => Ok(amount))
    case Failed => Ok(amount)
  }

  /** What resolve returns besides the new ledger: `used` is reported back to
      the caller of `ft_transfer_call`, `burned` is what left the supply. */
  datatype Resolution = Resolution(ledger: Ledger, used: Balance, burned: Balance)

  /** `int_ft_resolve_transfer`: moves the unused part back from the receiver
      (as far as it still holds it) to the sender, or burns it when the sender's
      entry is gone. The receiver's new balance is written directly, without
      `UpdateAccount`, and the credit and the burn are unchecked. */
  function Resolve(l: Ledger, senderId: AccountId, receiverId: AccountId, amount: Balance,
                   outcome: PromiseResult): (r: Result<Resolution>)
    ensures r.Err? <==> outcome.NotReady?
    ensures r.Err? ==> r.error == PromiseNotReady
    ensures r.Ok? ==> r.value.used <= amount && r.value.burned <= amount
    ensures r.Ok? ==> r.value.burned == 0 || r.value.used == amount
    ensures r.Ok? ==> r.value.used + r.value.burned >= amount - BalanceOf(l, receiverId)
  {
    match UnusedAmount(amount, outcome)
    case Err(e) => Err(e)
    case Ok(unused) =>
      if unused > 0 then
        var receiverBalance := if receiverId in l.accounts then l.accounts[receiverId] else 0;
        if receiverBalance > 0 then
          var refund := Min(receiverBalance, unused);
          var l1 := l.(accounts := l.accounts[receiverId := receiverBalance - refund]);
          if senderId in l1.accounts then
            var senderBalance := l1.accounts[senderId];
            Ok(Resolution(l1.(accounts := l1.accounts[senderId := WrappingAdd(senderBalance, refund)]),
                          amount - refund, 0))
          else
            Ok(Resolution(l1.(totalSupply := WrappingSub(l1.totalSupply, refund)), amount, refund))
        else Ok(Resolution(l, amount, 0))
      else Ok(Resolution(l, amount, 0))
  }

  /** Nothing to hand back, or nothing left at the receiver: everything counts
      as used and the ledger is untouched. */
  lemma ResolveNoRefund(l: Ledger, senderId: AccountId, receiverId: AccountId, amount: Balance,
                        outcome: PromiseResult)
    requires UnusedAmount(amount, outcome).Ok?
    requires UnusedAmount(amount, outcome).value == 0 || BalanceOf(l, receiverId) == 0
    ensures Resolve(l, senderId, receiverId, amount, outcome) == Ok(Resolution(l, amount, 0))
  {
  }

  /** Deposits, withdrawals and transfers never leave a stored entry holding 0. */
  lemma DepositKeepsNoZeroEntries(l: Ledger, id: AccountId, amount: Balance)
    requires NoZeroEntries(l) && Deposit(l, id, amount).Ok?
    ensures NoZeroEntries(Deposit(l, id, amount).value)
  {
  }

  lemma WithdrawKeepsNoZeroEntries(l: Ledger, id: AccountId, amount: Balance)
    requires NoZeroEntries(l) && Withdraw(l, id, amount).Ok?
    ensures NoZeroEntries(Withdraw(l, id, amount).value)
  {
  }

  lemma TransferKeepsNoZeroEntries(l: Ledger, senderId: AccountId, receiverId: AccountId, amount: Balance)
    requires NoZeroEntries(l) && Transfer(l, senderId, receiverId, amount).Ok?
    ensures NoZeroEntries(Transfer(l, senderId, receiverId, amount).value)
  {
  }
}
