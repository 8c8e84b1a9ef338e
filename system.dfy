/** The System pallet: the global block counter and the per-account nonces.
    `BlockNumber` and `Nonce` are `u32` in the runtime that instantiates this
    pallet, so both are bounded by `MaxBlockNumber` and `MaxNonce`. */
module System {

  /** Largest block number (`u32::MAX`). */
  const MaxBlockNumber: nat := 0xFFFF_FFFF

  /** Largest nonce (`u32::MAX`). */
  const MaxNonce: nat := 0xFFFF_FFFF

  /** Number of times `a` occurs in `s`, counted from the back. */
  ghost function Occurrences<A>(s: seq<A>, a: A): nat
  {
    if s == [] then 0
    else Occurrences(s[..|s| - 1], a) + (if s[|s| - 1] == a then 1 else 0)
  }

  /** Appending `x` adds one occurrence of `x` and none of any other value. */
  lemma OccurrencesAppend<A>(s: seq<A>, x: A, a: A)
    ensures Occurrences(s + [x], a) == Occurrences(s, a) + (if x == a then 1 else 0)
  {
    assert (s + [x])[..|s + [x]| - 1] == s;
  }

  /** An account that was never appended has no occurrences. */
  lemma {:induction false} OccurrencesOfAbsent<A>(s: seq<A>, a: A)
    requires a !in s
    ensures Occurrences(s, a) == 0
  {
    if s != [] {
      assert a !in s[..|s| - 1];
      OccurrencesOfAbsent(s[..|s| - 1], a);
    }
  }

  class Pallet<AccountId(==,!new)> {
    var blockNumber: nat
    var nonce: map<AccountId, nat>

    /** Every account ever passed to `IncNonce`, in call order. */
    ghost var nonceCalls: seq<AccountId>

    /** The counters fit their `u32` types, and every account's nonce is the
        number of times it was passed to `IncNonce`. */
    ghost predicate Valid()
      reads this
    {
      && blockNumber <= MaxBlockNumber
      && (forall a :: a in nonce ==> nonce[a] <= MaxNonce)
      && (forall a :: GetNonce(a) == Occurrences(nonceCalls, a))
    }

    /** `new`: block zero and an empty nonce map. */
    constructor ()
      ensures Valid()
      ensures blockNumber == 0 && nonce == map[] && nonceCalls == []
      ensures forall who :: GetNonce(who) == 0
    {
      blockNumber := 0;
      nonce := map[];
      nonceCalls := [];
    }

    /** `block_number`: the current block number. */
    function BlockNumber(): (n: nat)
      reads this
      requires Valid()
      ensures n == blockNumber && n <= MaxBlockNumber
    {
      blockNumber
    }

    /** `inc_block_number`: one more block. The source's `+=` panics on overflow
        when overflow checks are on and wraps to 0 otherwise; the precondition
        rules out both. */
    method IncBlockNumber()
      requires Valid()
      requires blockNumber < MaxBlockNumber
      modifies this
      ensures Valid()
      ensures blockNumber == old(blockNumber) + 1
      ensures nonce == old(nonce) && nonceCalls == old(nonceCalls)
    {
      blockNumber := blockNumber + 1;
    }

    /** `inc_nonce`: read the nonce of `who` (zero when absent) and store one more.
        The source's `+` panics on overflow when overflow checks are on and wraps
        otherwise; the precondition rules out both. */
    method IncNonce(who: AccountId)
      requires Valid()
      requires GetNonce(who) < MaxNonce
      modifies this
      ensures Valid()
      ensures nonceCalls == old(nonceCalls) + [who]
      ensures GetNonce(who) == old(GetNonce(who)) + 1
      ensures forall a :: a != who ==> GetNonce(a) == old(GetNonce(a))
      ensures nonce == old(nonce)[who := old(GetNonce(who)) + 1]
      ensures blockNumber == old(blockNumber)
    {
      var n := GetNonce(who);
      nonce := nonce[who := n + 1];
      nonceCalls := nonceCalls + [who];
      forall a
        ensures GetNonce(a) == Occurrences(nonceCalls, a)
      {
        OccurrencesAppend(old(nonceCalls), who, a);
      }
    }

    /** `get_nonce`: the stored nonce, or zero for an account without an entry. */
    function GetNonce(who: AccountId): (n: nat)
      reads this
      ensures who in nonce ==> n == nonce[who]
      ensures who !in nonce ==> n == 0
    {
      if who in nonce then nonce[who] else 0
    }

    /** An account never passed to `IncNonce` reads nonce zero. */
    lemma NeverIncrementedIsZero(who: AccountId)
      requires Valid()
      requires who !in nonceCalls
      ensures GetNonce(who) == 0
    {
      OccurrencesOfAbsent(nonceCalls, who);
    }
  }

  /** The unit test of the pallet: a fresh pallet is at block 0, one
      `inc_block_number` brings it to 1, and one `inc_nonce(alice)` gives alice nonce 1. */
  method SystemPalletTest() returns (initialBlock: nat, nextBlock: nat, aliceNonce: nat)
    ensures initialBlock == 0 && nextBlock == 1 && aliceNonce == 1
  {
    var system := new Pallet<string>();
    initialBlock := system.BlockNumber();
    system.IncBlockNumber();
    nextBlock := system.BlockNumber();
    var alice := "alice";
    system.IncNonce(alice);
    aliceNonce := system.GetNonce(alice);
  }
}
