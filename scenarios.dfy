/** Runs of the contract, checked by the verifier against the method contracts:
    the unit tests of nep-141-model/src/lib.rs, and resolve examples (partial
    refund, burned refund, emptied receiver). Account names follow near-sdk's
    test accounts. */
module Scenarios {
  import opened Types
  import opened Token

  const OWNER_SUPPLY: Balance := 1_000_000_000_000_000

  /** `test_new`: the owner holds the whole supply. */
  method NewScenario() returns (totalSupply: Balance, ownerBalance: Balance)
    ensures totalSupply == OWNER_SUPPLY
    ensures ownerBalance == OWNER_SUPPLY
  {
    var contract := new Contract("bob", OWNER_SUPPLY, 0);
    totalSupply := contract.FtTotalSupply();
    ownerBalance := contract.FtBalanceOf("bob");
  }

  /** `test_transfer`: a third of the supply moves from the owner to another account. */
  method TransferScenario() returns (senderBalance: Balance, receiverBalance: Balance)
    ensures senderBalance == OWNER_SUPPLY - OWNER_SUPPLY / 3
    ensures receiverBalance == OWNER_SUPPLY / 3
  {
    var contract := new Contract("charlie", OWNER_SUPPLY, 0);
    var amount := OWNER_SUPPLY / 3;
    var r := contract.FtTransfer("charlie", "bob", amount);
    assert r == Pass;
    senderBalance := contract.FtBalanceOf("charlie");
    receiverBalance := contract.FtBalanceOf("bob");
  }

  /** The common start of the resolve examples: alice owns 100 and has
      transfer-called 40 to bob, whose notification is now pending. */
  method TransferCalledForty() returns (contract: Contract)
    ensures fresh(contract) && contract.Valid()
    ensures contract.FtBalanceOf("alice") == 60 && contract.FtBalanceOf("bob") == 40
    ensures contract.FtBalanceOf("carol") == 0 && contract.FtTotalSupply() == 100
  {
    contract := new Contract("alice", 100, 0);
    var pending := contract.FtTransferCall("alice", "bob", 40);
    assert pending == Ok(PendingResolve("alice", "bob", 40));
  }

  /** Sender 100, transfer-call of 40, the receiver reports 15 unused: 15 goes back. */
  method PartialRefundScenario() {
    var contract := TransferCalledForty();
    var used := contract.FtResolveTransfer("alice", "bob", 40, Successful(Some(15)));
    assert used == Ok(25);
    assert contract.FtBalanceOf("alice") == 75;
    assert contract.FtBalanceOf("bob") == 25;
    assert contract.FtTotalSupply() == 100;
  }

  /** As above, but the sender empties its account before resolve runs: the 15 are burned. */
  method SenderDeletedScenario() {
    var contract := TransferCalledForty();
    var emptied := contract.FtTransfer("alice", "carol", 60);
    assert emptied == Pass;
    assert "alice" !in contract.accounts;
    assert contract.FtBalanceOf("bob") == 40 && contract.FtTotalSupply() == 100;
    var used := contract.FtResolveTransfer("alice", "bob", 40, Successful(Some(15)));
    assert used == Ok(40);
    assert contract.FtBalanceOf("bob") == 25;
    assert contract.FtTotalSupply() == 85;
  }

  /** The receiver forwards everything before resolve runs: nothing can be refunded. */
  method ReceiverEmptyScenario() {
    var contract := TransferCalledForty();
    var forwarded := contract.FtTransfer("bob", "carol", 40);
    assert forwarded == Pass;
    var used := contract.FtResolveTransfer("alice", "bob", 40, Successful(Some(15)));
    assert used == Ok(40);
    assert contract.FtBalanceOf("alice") == 60;
    assert contract.FtBalanceOf("carol") == 40;
  }

  /** Minting 10 as the owner adds 10 to the owner and 20 to the supply. */
  method MintScenario() {
    var contract := new Contract("alice", 100, 0);
    var refused := contract.Mint("bob", 10);
    assert refused == Fail(NotOwner);
    var minted := contract.Mint("alice", 10);
    assert minted == Pass;
    assert contract.FtBalanceOf("alice") == 110;
    assert contract.FtTotalSupply() == 120;
  }
}
