/** The Balances pallet: an account-to-balance map with an administrative
    overwrite and a checked transfer. `Balance` is `u128` in the runtime that
    instantiates this pallet, so every stored balance is at most `MaxBalance`. */
module Balances {
  import opened Support

  /** Largest balance (`u128::MAX`). */
  const MaxBalance: nat := 0xFFFF_FFFF_FFFF_FFFF_FFFF_FFFF_FFFF_FFFF

  const InsufficientBalance: string := "Insufficient balance"
  const Overflow: string := "Overflow when adding to balance"

  /** `checked_sub` on `u128`: `None` exactly when the difference would be negative. */
  function CheckedSub(a: nat, b: nat): (r: Option<nat>)
    ensures r.Some? <==> b <= a
    ensures r.Some? ==> r.value + b == a
  {
    if b <= a then Some(a - b) else None
  }

  /** `checked_add` on `u128`: `None` exactly when the sum would exceed `MaxBalance`. */
  function CheckedAdd(a: nat, b: nat): (r: Option<nat>)
    ensures r.Some? <==> a + b <= MaxBalance
    ensures r.Some? ==> r.value == a + b && r.value <= MaxBalance
  {
    if a + b <= MaxBalance then Some(a + b) else None
  }

  /** The sum of all balances held in `m` (the total issuance). */
  ghost function TotalIssuance<A>(m: map<A, nat>): nat
    decreases |m|
  {
    if m == map[] then 0
    else
      var k :| k in m;
      assert |m - {k}| < |m| by {
        assert (m - {k}).Keys == m.Keys - {k};
      }
      m[k] + TotalIssuance(m - {k})
  }

  /** Any one account can be split off the total, whichever the definition picked. */
  lemma {:induction false} TotalIssuanceRemove<A>(m: map<A, nat>, k: A)
    requires k in m
    ensures TotalIssuance(m) == m[k] + TotalIssuance(m - {k})
    decreases |m|
  {
    var j :| j in m && TotalIssuance(m) == m[j] + TotalIssuance(m - {j});
    if j != k {
      assert (m - {j}).Keys == m.Keys - {j};
      assert (m - {k}).Keys == m.Keys - {k};
      TotalIssuanceRemove(m - {j}, k);
      TotalIssuanceRemove(m - {k}, j);
      assert m - {j} - {k} == m - {k} - {j};
    }
  }

  /** Overwriting one balance changes the total by the difference of the old and
      new balance (an absent account held zero). */
  lemma TotalIssuanceUpdate<A>(m: map<A, nat>, k: A, v: nat)
    ensures TotalIssuance(m[k := v]) + (if k in m then m[k] else 0) == TotalIssuance(m) + v
  {
    TotalIssuanceRemove(m[k := v], k);
    if k in m {
      TotalIssuanceRemove(m, k);
      assert m[k := v] - {k} == m - {k};
    } else {
      assert m[k := v] - {k} == m;
    }
  }

  class Pallet<AccountId(==,!new)> {
    var balances: map<AccountId, nat>

    /** Every stored balance fits in `u128`. */
    ghost predicate Valid()
      reads this
    {
      forall a :: a in balances ==> balances[a] <= MaxBalance
    }

    /** `new`: no account holds anything. */
    constructor ()
      ensures Valid()
      ensures balances == map[]
      ensures forall who :: Balance(who) == 0
    {
      balances := map[];
    }

    /** `set_balance`: unconditional overwrite of one account's balance. */
    method SetBalance(who: AccountId, amount: nat)
      requires Valid()
      requires amount <= MaxBalance
      modifies this
      ensures Valid()
      ensures balances == old(balances)[who := amount]
      ensures Balance(who) == amount
      ensures forall a :: a != who ==> Balance(a) == old(Balance(a))
      ensures TotalIssuance(balances) + old(Balance(who)) == old(TotalIssuance(balances)) + amount
    {
      TotalIssuanceUpdate(balances, who, amount);
      balances := balances[who := amount];
    }

    /** `balance`: the stored balance, or zero for an account without an entry. */
    function Balance(who: AccountId): (b: nat)
      reads this
      ensures who in balances ==> b == balances[who]
      ensures who !in balances ==> b == 0
      ensures Valid() ==> b <= MaxBalance
    {
      if who in balances then balances[who] else 0
    }

    /** `trasnfer`: both balances are read first, the subtraction is checked
        before the addition, and on success the caller's new balance is written
        before the recipient's. A failure writes nothing. When `caller == to` the
        second write wins, so the account ends `amount` higher. */
    method Trasnfer(caller: AccountId, to: AccountId, amount: nat) returns (r: DispatchResult)
      requires Valid()
      modifies this
      ensures Valid()
      ensures amount > old(Balance(caller)) ==> r == Err(InsufficientBalance)
      ensures amount <= old(Balance(caller)) && old(Balance(to)) + amount > MaxBalance ==> r == Err(Overflow)
      ensures r.Ok? <==> amount <= old(Balance(caller)) && old(Balance(to)) + amount <= MaxBalance
      ensures r.Err? ==> balances == old(balances)
      ensures r.Ok? ==> balances == old(balances)[caller := old(Balance(caller)) - amount][to := old(Balance(to)) + amount]
      ensures r.Ok? && caller != to ==> Balance(caller) == old(Balance(caller)) - amount
      ensures r.Ok? && caller != to ==> Balance(to) == old(Balance(to)) + amount
      ensures r.Ok? && caller != to ==> Balance(caller) + Balance(to) == old(Balance(caller)) + old(Balance(to))
      ensures r.Ok? && caller == to ==> Balance(caller) == old(Balance(caller)) + amount
      ensures forall a :: a != caller && a != to ==> Balance(a) == old(Balance(a))
      ensures r.Ok? && caller != to ==> TotalIssuance(balances) == old(TotalIssuance(balances))
      ensures r.Ok? && caller == to ==> TotalIssuance(balances) == old(TotalIssuance(balances)) + amount
    {
      var callerBalance := Balance(caller);
      var toBalance := Balance(to);

      var newCallerBalance := CheckedSub(callerBalance, amount);
      if newCallerBalance.None? {
        return Err(InsufficientBalance);
      }

      var newToBalance := CheckedAdd(toBalance, amount);
      if newToBalance.None? {
        return Err(Overflow);
      }

      SetBalance(caller, newCallerBalance.value);
      SetBalance(to, newToBalance.value);
      r := Ok;
    }
  }

  /** A self-transfer that passes both checks: alice holds 10 and sends 4 to
      herself. Both reads see 10, the second write stores 14 over the first's 6,
      so alice ends with 14 and the total issuance grows by 4. */
  method SelfTransfer() returns (r: DispatchResult, alice: nat)
    ensures r == Ok && alice == 14
  {
    var pallet := new Pallet<string>();
    pallet.SetBalance("alice", 10);
    r := pallet.Trasnfer("alice", "alice", 4);
    alice := pallet.Balance("alice");
  }
}
