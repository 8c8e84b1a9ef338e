/** The hand-driven run of the binary: a runtime holding one System pallet and
    one Balances pallet over string account ids. */
module Runtime {
  import opened Support
  import System
  import Balances

  /** alice is given 100 at block 1 and pays bob 30 and charlie 20, her nonce
      incremented before each transfer. Both transfers succeed and leave alice
      50, bob 30, charlie 20, alice's nonce 2 and the block number 1. */
  method MainScenario()
      returns (first: DispatchResult, second: DispatchResult,
               alice: nat, bob: nat, charlie: nat, aliceNonce: nat, block: nat)
    ensures first == Ok && second == Ok
    ensures alice == 50 && bob == 30 && charlie == 20
    ensures aliceNonce == 2 && block == 1
  {
    var system := new System.Pallet<string>();
    var balances := new Balances.Pallet<string>();

    balances.SetBalance("alice", 100);
    system.IncBlockNumber();

    system.IncNonce("alice");
    first := balances.Trasnfer("alice", "bob", 30);

    system.IncNonce("alice");
    second := balances.Trasnfer("alice", "charlie", 20);

    alice := balances.Balance("alice");
    bob := balances.Balance("bob");
    charlie := balances.Balance("charlie");
    aliceNonce := system.GetNonce("alice");
    block := system.BlockNumber();
  }
}
