/** Behaviour of the code that breaks the storage-release rule of
    `internal_update_account` or loses value: resolve can leave a zero-balance
    entry, and a sender who sends its whole balance through `ft_transfer_call`
    loses any refund to a burn. */
module Quirks {
  import opened Types
  import opened Internal
  import opened Conservation
  import Sums

  /** When the receiver hands back everything it holds, resolve stores a
      zero balance for it instead of deleting the entry, so `NoZeroEntries` fails. */
  lemma ResolveCanStoreZero(l: Ledger, senderId: AccountId, receiverId: AccountId, amount: Balance)
    requires senderId != receiverId
    requires 0 < BalanceOf(l, receiverId) <= amount
    ensures Resolve(l, senderId, receiverId, amount, Failed).Ok?
    ensures var n := Resolve(l, senderId, receiverId, amount, Failed).value.ledger;
      receiverId in n.accounts && n.accounts[receiverId] == 0 && !NoZeroEntries(n)
  {
  }

  /** Sending one's whole balance through `ft_transfer_call` deletes the
      sender's entry, so when the receiver's call fails the refund is burned:
      the sender ends with nothing and the supply shrinks by the amount. */
  lemma WholeBalanceRefundIsBurned(l: Ledger, senderId: AccountId, receiverId: AccountId)
    requires Conserved(l)
    requires senderId != receiverId
    requires BalanceOf(l, senderId) > 0
    ensures var amount := BalanceOf(l, senderId);
      var t := Transfer(l, senderId, receiverId, amount);
      && t.Ok?
      && senderId !in t.value.accounts
      && var r := Resolve(t.value, senderId, receiverId, amount, Failed);
      && r.Ok?
      && r.value.used == amount
      && r.value.burned == amount
      && BalanceOf(r.value.ledger, senderId) == 0
      && BalanceOf(r.value.ledger, receiverId) == BalanceOf(l, receiverId)
      && r.value.ledger.totalSupply == l.totalSupply - amount
  {
    var amount := BalanceOf(l, senderId);
    if receiverId in l.accounts {
      Sums.SumBoundsTwo(l.accounts, senderId, receiverId);
    }
    TransferFailsOnlyFor(l, senderId, receiverId, amount);
    var l1 := Transfer(l, senderId, receiverId, amount).value;
    TransferKeepsSurplus(l, senderId, receiverId, amount);
    ResolveBurns(l1, senderId, receiverId, amount, Failed);
  }

  /** The contrast: a sender who keeps part of its balance gets the whole
      amount back when the receiver's call fails, and nothing is burned. */
  lemma PartialBalanceRefundIsReturned(l: Ledger, senderId: AccountId, receiverId: AccountId, amount: Balance)
    requires Conserved(l)
    requires senderId != receiverId
    requires 0 < amount < BalanceOf(l, senderId)
    requires BalanceOf(l, receiverId) + amount <= U128_MAX
    ensures var t := Transfer(l, senderId, receiverId, amount);
      && t.Ok?
      && var r := Resolve(t.value, senderId, receiverId, amount, Failed);
      && r.Ok?
      && r.value.used == 0
      && r.value.burned == 0
      && BalanceOf(r.value.ledger, senderId) == BalanceOf(l, senderId)
      && BalanceOf(r.value.ledger, receiverId) == BalanceOf(l, receiverId)
      && r.value.ledger.totalSupply == l.totalSupply
  {
    TransferFailsOnlyFor(l, senderId, receiverId, amount);
    var l1 := Transfer(l, senderId, receiverId, amount).value;
    TransferKeepsSurplus(l, senderId, receiverId, amount);
    assert senderId in l1.accounts;
    ResolveRefunds(l1, senderId, receiverId, amount, Failed);
  }
}
