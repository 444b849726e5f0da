/** The `Contract` of nep-141-model/src/lib.rs with the methods of
    nep-141-model/src/internal.rs, as a class whose methods update the account
    table and the supply in place. Each method is tied to the ledger function
    that specifies it; a panic returns `Fail`/`Err` with the state as it was,
    because the host discards the writes of an aborted call. */
module Token {
  import opened Types
  import opened Internal
  import opened Conservation
  import Public

  /** What `ft_transfer_call` hands to the host: notify the receiver of
      `(senderId, amount)`, then call `ft_resolve_transfer(senderId, receiverId, amount)`. */
  datatype PendingResolve = PendingResolve(senderId: AccountId, receiverId: AccountId, amount: Balance)

  class Contract {
    var accounts: map<AccountId, Balance>
    const ownerId: AccountId
    var totalSupply: Balance
    /** Storage footprint of one ledger entry, measured once by `new`. */
    const accountStorageUsage: nat

    function State(): (l: Ledger)
      reads this
    {
      Ledger(accounts, totalSupply)
    }

    ghost predicate Valid()
      reads this
    {
      Conserved(State())
    }

    /** `new`: the owner starts with the whole supply. The storage measurement
        is a host call, so its result comes in as `accountStorageUsage`. */
    constructor (ownerId: AccountId, ownerSupply: Balance, accountStorageUsage: nat)
      ensures Valid()
      ensures State() == Public.Initial(ownerId, ownerSupply)
      ensures this.ownerId == ownerId
      ensures this.accountStorageUsage == accountStorageUsage
    {
      this.ownerId := ownerId;
      accounts := map[];
      totalSupply := 0;
      this.accountStorageUsage := accountStorageUsage;
      new;
      var deposited := InternalDeposit(ownerId, ownerSupply);
      Public.InitialHasNoSurplus(ownerId, ownerSupply);
    }

    function AssertOwnerCalling(caller: AccountId): (r: Outcome)
      reads this
      ensures r.Pass? <==> caller == ownerId
      ensures r.Fail? ==> r.error == NotOwner
    {
      if caller == ownerId then Pass else Fail(NotOwner)
    }

    function InternalUnwrapBalanceOf(id: AccountId): (b: Balance)
      reads this
      ensures id in accounts ==> b == accounts[id]
      ensures id !in accounts ==> b == 0
    {
      BalanceOf(State(), id)
    }

    method InternalUpdateAccount(id: AccountId, balance: Balance)
      modifies this`accounts
      ensures State() == UpdateAccount(old(State()), id, balance)
    {
      if balance == 0 {
        accounts := accounts - {id};
      } else {
        accounts := accounts[id := balance];
      }
    }

    /** The host's rollback of an aborted call. */
    method Rollback(saved: Ledger)
      modifies this`accounts, this`totalSupply
      ensures State() == saved
    {
      accounts, totalSupply := saved.accounts, saved.totalSupply;
    }

    method InternalDeposit(id: AccountId, amount: Balance) returns (r: Outcome)
      modifies this`accounts, this`totalSupply
      ensures r == Deposit(old(State()), id, amount).ToOutcome()
      ensures State() == Commit(old(State()), Deposit(old(State()), id, amount))
    {
      var saved := State();
      var balance := InternalUnwrapBalanceOf(id);
      if balance + amount > U128_MAX {
        return Fail(TotalSupplyOverflow);
      }
      InternalUpdateAccount(id, balance + amount);
      if totalSupply + amount > U128_MAX {
        Rollback(saved);
        return Fail(TotalSupplyOverflow);
      }
      totalSupply := totalSupply + amount;
      return Pass;
    }

    method InternalWithdraw(id: AccountId, amount: Balance) returns (r: Outcome)
      modifies this`accounts, this`totalSupply
      ensures r == Withdraw(old(State()), id, amount).ToOutcome()
      ensures State() == Commit(old(State()), Withdraw(old(State()), id, amount))
    {
      var saved := State();
      var balance := InternalUnwrapBalanceOf(id);
      if amount > balance {
        return Fail(NotEnoughBalance);
      }
      InternalUpdateAccount(id, balance - amount);
      if amount > totalSupply {
        Rollback(saved);
        return Fail(TotalSupplyUnderflow);
      }
      totalSupply := totalSupply - amount;
      return Pass;
    }

    method InternalTransfer(senderId: AccountId, receiverId: AccountId, amount: Balance) returns (r: Outcome)
      modifies this`accounts, this`totalSupply
      ensures r == Transfer(old(State()), senderId, receiverId, amount).ToOutcome()
      ensures State() == Commit(old(State()), Transfer(old(State()), senderId, receiverId, amount))
    {
      if senderId == receiverId {
        return Fail(SameAccount);
      }
      if amount == 0 {
        return Fail(ZeroAmount);
      }
      var saved := State();
      r := InternalWithdraw(senderId, amount);
      if r.Fail? {
        return;
      }
      r := InternalDeposit(receiverId, amount);
      if r.Fail? {
        Rollback(saved);
      }
    }

    /** `int_ft_resolve_transfer`, returning `(used, burned)`. */
    method IntFtResolveTransfer(senderId: AccountId, receiverId: AccountId, amount: Balance,
                                outcome: PromiseResult) returns (r: Result<(Balance, Balance)>)
      modifies this`accounts, this`totalSupply
      ensures var res := Resolve(old(State()), senderId, receiverId, amount, outcome);
        && (res.Err? ==> r == Err(res.error) && State() == old(State()))
        && (res.Ok? ==> r == Ok((res.value.used, res.value.burned)) && State() == res.value.ledger)
    {
      var unused: Balance;
      match outcome {
        case NotReady =>
          return Err(PromiseNotReady);
        case Successful(parsed) =>
          match parsed {
            case Some(claimed) => unused := Min(amount, claimed);
            case None => unused := amount;
          }
        case Failed =>
          unused := amount;
      }
      if unused > 0 {
        var receiverBalance := if receiverId in accounts then accounts[receiverId] else 0;
        if receiverBalance > 0 {
          var refund := Min(receiverBalance, unused);
          accounts := accounts[receiverId := receiverBalance - refund];
          if senderId in accounts {
            var senderBalance := accounts[senderId];
            accounts := accounts[senderId := WrappingAdd(senderBalance, refund)];
            return Ok((amount - refund, 0));
          } else {
            totalSupply := WrappingSub(totalSupply, refund);
            return Ok((amount, refund));
          }
        }
      }
      return Ok((amount, 0));
    }

    /** `mint`: owner only; the supply is bumped here and again by the deposit. */
    method Mint(caller: AccountId, amount: Balance) returns (r: Outcome)
      requires Valid()
      modifies this`accounts, this`totalSupply
      ensures Valid()
      ensures r == Public.Mint(old(State()), ownerId, caller, amount).ToOutcome()
      ensures State() == Commit(old(State()), Public.Mint(old(State()), ownerId, caller, amount))
    {
      r := AssertOwnerCalling(caller);
      if r.Fail? {
        return;
      }
      if totalSupply + amount > U128_MAX {
        return Fail(MintOverflow);
      }
      var saved := State();
      totalSupply := totalSupply + amount;
      r := InternalDeposit(ownerId, amount);
      if r.Fail? {
        Rollback(saved);
      } else {
        Public.MintWidensSurplus(saved, ownerId, caller, amount);
      }
    }

    function GetOwnerId(): (id: AccountId)
      reads this
      ensures id == ownerId
    {
      ownerId
    }

    /** `ft_transfer` called by `caller`. */
    method FtTransfer(caller: AccountId, receiverId: AccountId, amount: Balance) returns (r: Outcome)
      requires Valid()
      modifies this`accounts, this`totalSupply
      ensures Valid()
      ensures r == Transfer(old(State()), caller, receiverId, amount).ToOutcome()
      ensures State() == Commit(old(State()), Transfer(old(State()), caller, receiverId, amount))
    {
      ghost var before := State();
      r := InternalTransfer(caller, receiverId, amount);
      if r.Pass? {
        TransferKeepsSurplus(before, caller, receiverId, amount);
      }
    }

    /** `ft_transfer_call` called by `caller`, up to the promise it returns:
        the same transfer as `ft_transfer`, then the pending notification. */
    method FtTransferCall(caller: AccountId, receiverId: AccountId, amount: Balance)
      returns (r: Result<PendingResolve>)
      requires Valid()
      modifies this`accounts, this`totalSupply
      ensures Valid()
      ensures r.Ok? <==> Transfer(old(State()), caller, receiverId, amount).Ok?
      ensures r.Ok? ==> r.value == PendingResolve(caller, receiverId, amount)
      ensures r.Err? ==> r.error == Transfer(old(State()), caller, receiverId, amount).error
      ensures State() == Commit(old(State()), Transfer(old(State()), caller, receiverId, amount))
    {
      ghost var before := State();
      var moved := InternalTransfer(caller, receiverId, amount);
      if moved.Fail? {
        return Err(moved.error);
      }
      TransferKeepsSurplus(before, caller, receiverId, amount);
      return Ok(PendingResolve(caller, receiverId, amount));
    }

    function FtTotalSupply(): (s: Balance)
      reads this
      ensures s == totalSupply
    {
      totalSupply
    }

    function FtBalanceOf(id: AccountId): (b: Balance)
      reads this
      ensures id in accounts ==> b == accounts[id]
      ensures id !in accounts ==> b == 0
    {
      InternalUnwrapBalanceOf(id)
    }

    /** `ft_resolve_transfer`: runs resolve and reports only the used amount. */
    method FtResolveTransfer(senderId: AccountId, receiverId: AccountId, amount: Balance,
                             outcome: PromiseResult) returns (r: Result<Balance>)
      requires Valid()
      modifies this`accounts, this`totalSupply
      ensures Valid()
      ensures r.Ok? ==> r.value <= amount
      ensures var res := Resolve(old(State()), senderId, receiverId, amount, outcome);
        && (res.Err? ==> r == Err(res.error) && State() == old(State()))
        && (res.Ok? ==> r == Ok(res.value.used) && State() == res.value.ledger)
    {
      ghost var before := State();
      var resolved := IntFtResolveTransfer(senderId, receiverId, amount, outcome);
      match resolved {
        case Err(e) =>
          r := Err(e);
        case Ok(amounts) =>
          ResolveKeepsSurplus(before, senderId, receiverId, amount, outcome);
          r := Ok(amounts.0);
      }
    }
  }
}
