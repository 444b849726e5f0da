/** The ledger effect of the state-changing entry points of
    nep-141-model/src/lib.rs that do more than call one primitive: `new` and `mint`. */
module Public {
  import opened Types
  import opened Sums
  import opened Internal
  import opened Conservation

  /** The ledger `new` leaves: an empty table and a zero supply, into which the
      owner's supply is deposited. The deposit cannot fail. */
  function Initial(ownerId: AccountId, ownerSupply: Balance): (l: Ledger)
    ensures l.totalSupply == ownerSupply
    ensures BalanceOf(l, ownerId) == ownerSupply
    ensures ownerId in l.accounts <==> ownerSupply > 0
    ensures l.accounts.Keys <= {ownerId}
  {
    var empty := Ledger(map[], 0);
    assert empty.accounts - {ownerId} == map[];
    Deposit(empty, ownerId, ownerSupply).value
  }

  /** A fresh ledger holds exactly its supply. */
  lemma InitialHasNoSurplus(ownerId: AccountId, ownerSupply: Balance)
    ensures Surplus(Initial(ownerId, ownerSupply)) == 0
  {
    UpdateAccountSum(Ledger(map[], 0), ownerId, ownerSupply);
  }

  /** `mint`: only the owner may call it; it adds `amount` to the supply
      (checked, then unwrapped) and then deposits `amount` to the owner, which
      adds `amount` to the supply a second time. */
  function Mint(l: Ledger, ownerId: AccountId, caller: AccountId, amount: Balance): (r: Result<Ledger>)
    ensures r.Ok? <==>
      && caller == ownerId
      && l.totalSupply + 2 * amount <= U128_MAX
      && BalanceOf(l, ownerId) + amount <= U128_MAX
    ensures r.Err? ==> (r.error == if caller != ownerId then NotOwner
                                   else if l.totalSupply + amount > U128_MAX then MintOverflow
                                   else TotalSupplyOverflow)
    ensures r.Ok? ==>
      && BalanceOf(r.value, ownerId) == BalanceOf(l, ownerId) + amount
      && r.value.totalSupply == l.totalSupply + 2 * amount
      && r.value.accounts - {ownerId} == l.accounts - {ownerId}
      && (ownerId in r.value.accounts <==> BalanceOf(l, ownerId) + amount > 0)
  {
    if caller != ownerId then Err(NotOwner)
    else if l.totalSupply + amount > U128_MAX then Err(MintOverflow)
    else Deposit(l.(totalSupply := l.totalSupply + amount), ownerId, amount)
  }

  /** Minting widens the gap between supply and balances by `amount`: the
      double count leaves `amount` tokens in the supply that no account holds. */
  lemma MintWidensSurplus(l: Ledger, ownerId: AccountId, caller: AccountId, amount: Balance)
    requires Mint(l, ownerId, caller, amount).Ok?
    ensures Surplus(Mint(l, ownerId, caller, amount).value) == Surplus(l) + amount
  {
    var bumped := l.(totalSupply := l.totalSupply + amount);
    UpdateAccountSum(bumped, ownerId, BalanceOf(l, ownerId) + amount);
  }
}
