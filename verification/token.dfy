/** The externally callable entry points of the HODLpacGov token. Each takes
    the current state and the calling account (`msg.sender`) and returns
    either the new state or the reason the call is rejected; a rejected call
    leaves the state exactly as it was, so the caller simply keeps `s`.

    Gates, in the order they are checked:
      mint              owner only
      pause, unpause    owner only, then the switch must be off / on
      transfer          pause switch off, then the sender's balance
      transferFrom      pause switch off, then the allowance, then the balance
      burn              the sender's balance
      burnFrom          the allowance, then the balance
      approve           none
      initialize        only once */
module Token {
  import Sums
  import opened Ledger

  /** Storage of a freshly deployed proxy, before its initialiser has run. */
  const Undeployed: State := State(false, ZERO_ADDRESS, false, map[], map[], 0)

  /** The one-shot initialiser that stands in for a constructor: it makes the
      caller the owner and starts unpaused with no supply minted. */
  function Initialize(s: State, caller: Address): (r: Result<State>)
    ensures r.Err? <==> s.initialized
    ensures r.Err? ==> r.error == AlreadyInitialized
    ensures r.Ok? ==> r.value.initialized && r.value.owner == caller && !r.value.paused
    ensures r.Ok? ==> SameBalances(s, r.value) && SameAllowances(s, r.value)
    ensures r.Ok? ==> TotalSupply(r.value) == TotalSupply(s)
  {
    if s.initialized then Err(AlreadyInitialized)
    else Ok(s.(initialized := true, owner := caller, paused := false))
  }

  /** Deployment behind a proxy: the deployer runs the initialiser on empty
      storage. The whole supply (none) belongs to the owner. */
  function Deploy(deployer: Address): (s: State)
    ensures s.initialized && s.owner == deployer && !s.paused
    ensures TotalSupply(s) == BalanceOf(s, deployer) == 0
    ensures forall a :: BalanceOf(s, a) == 0
    ensures forall h, sp :: Allowance(s, h, sp) == 0
    ensures Conserved(s)
  {
    Initialize(Undeployed, deployer).value
  }

  /** `mint(to, amount)`: the owner creates `amount` new tokens in `to`. */
  function Mint(s: State, caller: Address, to: Address, amount: nat): (r: Result<State>)
    ensures r.Err? <==> caller != s.owner
    ensures r.Err? ==> r.error == Unauthorized
    ensures r.Ok? ==> Adjusted(s, r.value, to, amount)
    ensures r.Ok? ==> TotalSupply(r.value) == TotalSupply(s) + amount
    ensures r.Ok? ==> SameAllowances(s, r.value) && SameControl(s, r.value)
  {
    if caller != s.owner then Err(Unauthorized)
    else Ok(Credit(s, to, amount).(totalSupply := s.totalSupply + amount))
  }

  /** `pause()`: the owner turns the transfer switch off. */
  function Pause(s: State, caller: Address): (r: Result<State>)
    ensures r.Err? <==> caller != s.owner || s.paused
    ensures caller != s.owner ==> r == Err(Unauthorized)
    ensures caller == s.owner && s.paused ==> r == Err(AlreadyPaused)
    ensures r.Ok? ==> r.value.paused
    ensures r.Ok? ==> r.value.owner == s.owner && r.value.initialized == s.initialized
    ensures r.Ok? ==> SameBalances(s, r.value) && SameAllowances(s, r.value)
    ensures r.Ok? ==> TotalSupply(r.value) == TotalSupply(s)
  {
    if caller != s.owner then Err(Unauthorized)
    else if s.paused then Err(AlreadyPaused)
    else Ok(s.(paused := true))
  }

  /** `unpause()`: the owner turns the transfer switch back on. */
  function Unpause(s: State, caller: Address): (r: Result<State>)
    ensures r.Err? <==> caller != s.owner || !s.paused
    ensures caller != s.owner ==> r == Err(Unauthorized)
    ensures caller == s.owner && !s.paused ==> r == Err(NotPaused)
    ensures r.Ok? ==> !r.value.paused
    ensures r.Ok? ==> r.value.owner == s.owner && r.value.initialized == s.initialized
    ensures r.Ok? ==> SameBalances(s, r.value) && SameAllowances(s, r.value)
    ensures r.Ok? ==> TotalSupply(r.value) == TotalSupply(s)
  {
    if caller != s.owner then Err(Unauthorized)
    else if !s.paused then Err(NotPaused)
    else Ok(s.(paused := false))
  }

  /** `transfer(to, amount)`: the caller sends `amount` of its own tokens. */
  function Transfer(s: State, caller: Address, to: Address, amount: nat): (r: Result<State>)
    ensures r.Err? <==> s.paused || BalanceOf(s, caller) < amount
    ensures s.paused ==> r == Err(Paused)
    ensures !s.paused && BalanceOf(s, caller) < amount ==> r == Err(InsufficientBalance)
    ensures r.Ok? ==> Moved(s, r.value, caller, to, amount)
    ensures r.Ok? ==> TotalSupply(r.value) == TotalSupply(s)
    ensures r.Ok? ==> SameAllowances(s, r.value) && SameControl(s, r.value)
  {
    if s.paused then Err(Paused)
    else if BalanceOf(s, caller) < amount then Err(InsufficientBalance)
    else Ok(Move(s, caller, to, amount))
  }

  /** `approve(spender, amount)`: the caller lets `spender` move up to
      `amount` of its tokens, replacing (not adding to) any earlier grant.
      It cannot be rejected. */
  function Approve(s: State, caller: Address, spender: Address, amount: nat): (t: State)
    ensures AllowanceSet(s, t, caller, spender, amount)
    ensures SameBalances(s, t) && SameControl(s, t) && TotalSupply(t) == TotalSupply(s)
  {
    SetAllowance(s, caller, spender, amount)
  }

  /** `transferFrom(from, to, amount)`: the caller spends part of the
      allowance `from` granted it, moving `amount` from `from` to `to`. */
  function TransferFrom(s: State, caller: Address, from: Address, to: Address, amount: nat): (r: Result<State>)
    ensures r.Err? <==> s.paused || Allowance(s, from, caller) < amount || BalanceOf(s, from) < amount
    ensures s.paused ==> r == Err(Paused)
    ensures !s.paused && Allowance(s, from, caller) < amount ==> r == Err(InsufficientAllowance)
    ensures !s.paused && Allowance(s, from, caller) >= amount && BalanceOf(s, from) < amount
      ==> r == Err(InsufficientBalance)
    ensures r.Ok? ==> Moved(s, r.value, from, to, amount)
    ensures r.Ok? ==> AllowanceSet(s, r.value, from, caller, Allowance(s, from, caller) - amount)
    ensures r.Ok? ==> TotalSupply(r.value) == TotalSupply(s) && SameControl(s, r.value)
  {
    if s.paused then Err(Paused)
    else if Allowance(s, from, caller) < amount then Err(InsufficientAllowance)
    else if BalanceOf(s, from) < amount then Err(InsufficientBalance)
    else
      var spent := SetAllowance(s, from, caller, Allowance(s, from, caller) - amount);
      Ok(Move(spent, from, to, amount))
  }

  /** The total supply covers every single balance; what lets a burn take
      its amount off the supply. */
  lemma BalanceWithinSupply(s: State, account: Address)
    requires Conserved(s)
    ensures BalanceOf(s, account) <= TotalSupply(s)
  {
    Sums.SumBound(s.balances, account);
  }

  /** `burn(amount)`: the caller destroys `amount` of its own tokens. The
      supply can only be reduced because it covers the caller's balance. */
  function Burn(s: State, caller: Address, amount: nat): (r: Result<State>)
    requires Conserved(s)
    ensures r.Err? <==> BalanceOf(s, caller) < amount
    ensures r.Err? ==> r.error == InsufficientBalance
    ensures r.Ok? ==> Adjusted(s, r.value, caller, -(amount as int))
    ensures r.Ok? ==> TotalSupply(r.value) + amount == TotalSupply(s)
    ensures r.Ok? ==> SameAllowances(s, r.value) && SameControl(s, r.value)
  {
    if BalanceOf(s, caller) < amount then Err(InsufficientBalance)
    else
      BalanceWithinSupply(s, caller);
      Ok(Debit(s, caller, amount).(totalSupply := s.totalSupply - amount))
  }

  /** `burnFrom(from, amount)`: the caller spends part of the allowance
      `from` granted it by destroying `amount` of `from`'s tokens. */
  function BurnFrom(s: State, caller: Address, from: Address, amount: nat): (r: Result<State>)
    requires Conserved(s)
    ensures r.Err? <==> Allowance(s, from, caller) < amount || BalanceOf(s, from) < amount
    ensures Allowance(s, from, caller) < amount ==> r == Err(InsufficientAllowance)
    ensures Allowance(s, from, caller) >= amount && BalanceOf(s, from) < amount
      ==> r == Err(InsufficientBalance)
    ensures r.Ok? ==> Adjusted(s, r.value, from, -(amount as int))
    ensures r.Ok? ==> AllowanceSet(s, r.value, from, caller, Allowance(s, from, caller) - amount)
    ensures r.Ok? ==> TotalSupply(r.value) + amount == TotalSupply(s) && SameControl(s, r.value)
  {
    if Allowance(s, from, caller) < amount then Err(InsufficientAllowance)
    else if BalanceOf(s, from) < amount then Err(InsufficientBalance)
    else
      BalanceWithinSupply(s, from);
      var spent := SetAllowance(s, from, caller, Allowance(s, from, caller) - amount);
      Ok(Debit(spent, from, amount).(totalSupply := s.totalSupply - amount))
  }
}
