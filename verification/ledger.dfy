/** The state of the HODLpacGov token: an ERC-20 balance-and-allowance book
    together with its owner, its pause switch and its one-shot initialisation
    flag. This module holds the data model, the read-only views the token
    exposes (`balanceOf`, `allowance`, `totalSupply`) and the internal
    book-keeping steps the entry points in `Token` are built from. */
module Ledger {
  import Sums

  /** 2^160: Ethereum account addresses are 160-bit numbers. */
  const ADDRESS_BOUND: nat := 0x1_0000_0000_0000_0000_0000_0000_0000_0000_0000_0000

  type Address = a: nat | a < ADDRESS_BOUND

  /** The default value of an address field before anything is stored in it. */
  const ZERO_ADDRESS: Address := 0

  /** Why a call is rejected. A rejected call changes nothing. */
  datatype Error =
    | Unauthorized           // a privileged call from an account other than the owner
    | Paused                 // a transfer while the pause switch is on
    | NotPaused              // unpause while the switch is off
    | AlreadyPaused          // pause while the switch is on
    | InsufficientBalance    // moving or burning more than the holder has
    | InsufficientAllowance  // spending more than the holder approved
    | AlreadyInitialized     // a second call of the initialiser

  /** The outcome of a call: the new state, or the reason it was rejected. */
  datatype Result<T> = Ok(value: T) | Err(error: Error)

  /** Balances and allowances are stored sparsely; an absent key holds zero.
      Amounts are unbounded naturals, so nothing can go negative. */
  datatype State = State(
    initialized: bool,
    owner: Address,
    paused: bool,
    balances: map<Address, nat>,
    allowances: map<(Address, Address), nat>,
    totalSupply: nat)

  /** `balanceOf(account)`: zero for an account never seen. */
  function BalanceOf(s: State, account: Address): (r: nat)
    ensures account !in s.balances ==> r == 0
    ensures account in s.balances ==> r == s.balances[account]
  {
    Sums.Get(s.balances, account)
  }

  /** `allowance(holder, spender)`: how much `spender` may still move out of
      `holder`'s balance; zero until `holder` approves something. */
  function Allowance(s: State, holder: Address, spender: Address): (r: nat)
    ensures (holder, spender) !in s.allowances ==> r == 0
    ensures (holder, spender) in s.allowances ==> r == s.allowances[(holder, spender)]
  {
    Sums.Get(s.allowances, (holder, spender))
  }

  /** `totalSupply()`: in a conserved state, the sum of every balance. */
  function TotalSupply(s: State): (r: nat)
    ensures Conserved(s) ==> r == Sums.Sum(s.balances)
  {
    s.totalSupply
  }

  /** Conservation: the total supply is the sum of all balances. */
  ghost predicate Conserved(s: State)
  {
    s.totalSupply == Sums.Sum(s.balances)
  }

  /** `t` has the balances of `s`, except that `delta` was added to `account`. */
  ghost predicate Adjusted(s: State, t: State, account: Address, delta: int)
  {
    forall a :: BalanceOf(t, a) == BalanceOf(s, a) + (if a == account then delta else 0)
  }

  /** `t` has the balances of `s`, except that `amount` left `from` and
      arrived at `to` (no change at all when the two coincide). */
  ghost predicate Moved(s: State, t: State, from: Address, to: Address, amount: nat)
  {
    forall a :: BalanceOf(t, a) ==
      BalanceOf(s, a) - (if a == from then amount else 0) + (if a == to then amount else 0)
  }

  ghost predicate SameBalances(s: State, t: State)
  {
    forall a :: BalanceOf(t, a) == BalanceOf(s, a)
  }

  ghost predicate SameAllowances(s: State, t: State)
  {
    forall h: Address, sp: Address :: Allowance(t, h, sp) == Allowance(s, h, sp)
  }

  /** `t` has the allowances of `s`, except that the one `holder` granted
      `spender` now reads `amount`. */
  ghost predicate AllowanceSet(s: State, t: State, holder: Address, spender: Address, amount: nat)
  {
    && Allowance(t, holder, spender) == amount
    && forall h: Address, sp: Address :: (h, sp) != (holder, spender) ==> Allowance(t, h, sp) == Allowance(s, h, sp)
  }

  /** Owner, pause switch and initialisation flag agree. */
  ghost predicate SameControl(s: State, t: State)
  {
    t.initialized == s.initialized && t.owner == s.owner && t.paused == s.paused
  }

  /** Two states no query can tell apart. */
  ghost predicate Indistinguishable(s: State, t: State)
  {
    SameControl(s, t) && SameBalances(s, t) && SameAllowances(s, t) && TotalSupply(t) == TotalSupply(s)
  }

  /** Adds `amount` to one balance; nothing else changes. */
  function Credit(s: State, account: Address, amount: nat): (t: State)
    ensures Adjusted(s, t, account, amount)
    ensures t == s.(balances := t.balances)
  {
    s.(balances := s.balances[account := BalanceOf(s, account) + amount])
  }

  /** Takes `amount` out of one balance, which must hold at least that much. */
  function Debit(s: State, account: Address, amount: nat): (t: State)
    requires amount <= BalanceOf(s, account)
    ensures Adjusted(s, t, account, -(amount as int))
    ensures t == s.(balances := t.balances)
  {
    s.(balances := s.balances[account := BalanceOf(s, account) - amount])
  }

  /** Moves `amount` from one balance to another; the sum is unchanged. */
  function Move(s: State, from: Address, to: Address, amount: nat): (t: State)
    requires amount <= BalanceOf(s, from)
    ensures Moved(s, t, from, to, amount)
    ensures t == s.(balances := t.balances)
  {
    Credit(Debit(s, from, amount), to, amount)
  }

  /** Overwrites the allowance `holder` granted `spender`. */
  function SetAllowance(s: State, holder: Address, spender: Address, amount: nat): (t: State)
    ensures AllowanceSet(s, t, holder, spender, amount)
    ensures t == s.(allowances := t.allowances)
  {
    s.(allowances := s.allowances[(holder, spender) := amount])
  }
}
