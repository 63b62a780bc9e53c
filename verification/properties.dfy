/** Properties of single transactions and of pairs of calls: who can change
    what, what the pause switch does and does not block, and which calls
    undo each other. */
module Properties {
  import opened Ledger
  import Token
  import Conservation
  import opened Chain

  // The lemmas about a single transaction split on the call. Dafny needs no
  // case split for them, but with it each case is a small, cheap proof.

  /** New tokens appear only through `mint`, and only the owner can mint. */
  lemma SupplyGrowsOnlyByOwnerMint(s: State, tx: Tx)
    requires Conserved(s)
    requires Apply(s, tx).Ok?
    ensures TotalSupply(Apply(s, tx).value) > TotalSupply(s) ==> tx.call.Mint? && tx.sender == s.owner
    ensures TotalSupply(Apply(s, tx).value) < TotalSupply(s) ==> tx.call.Burn? || tx.call.BurnFrom?
  {
    match tx.call
    case Initialize =>
    case Mint(_, _) =>
    case Transfer(_, _) =>
    case Approve(_, _) =>
    case TransferFrom(_, _, _) =>
    case Pause =>
    case Unpause =>
    case Burn(_) =>
    case BurnFrom(_, _) =>
  }

  /** A holder's balance goes down only by the holder's own call, or by a
      spender the holder approved, who then gives up exactly as much
      allowance as the balance went down. */
  lemma NoUnauthorisedDebit(s: State, tx: Tx, holder: Address)
    requires Conserved(s)
    requires Apply(s, tx).Ok?
    requires BalanceOf(Apply(s, tx).value, holder) < BalanceOf(s, holder)
    ensures
      var t, loss := Apply(s, tx).value, BalanceOf(s, holder) - BalanceOf(Apply(s, tx).value, holder);
      || tx.sender == holder
      || (loss <= Allowance(s, holder, tx.sender) && Allowance(t, holder, tx.sender) + loss == Allowance(s, holder, tx.sender))
  {
    match tx.call
    case Initialize =>
    case Mint(_, _) =>
    case Transfer(_, _) =>
    case Approve(_, _) =>
    case TransferFrom(_, _, _) =>
    case Pause =>
    case Unpause =>
    case Burn(_) =>
    case BurnFrom(_, _) =>
  }

  /** An allowance goes up only when its holder approves the new amount for
      that very spender. */
  lemma AllowanceRaisedOnlyByHolder(s: State, tx: Tx, holder: Address, spender: Address)
    requires Conserved(s)
    requires Apply(s, tx).Ok?
    requires Allowance(Apply(s, tx).value, holder, spender) > Allowance(s, holder, spender)
    ensures tx.sender == holder
    ensures tx.call == Approve(spender, Allowance(Apply(s, tx).value, holder, spender))
  {
    match tx.call
    case Initialize =>
    case Mint(_, _) =>
    case Transfer(_, _) =>
    case Approve(_, _) =>
    case TransferFrom(_, _, _) =>
    case Pause =>
    case Unpause =>
    case Burn(_) =>
    case BurnFrom(_, _) =>
  }

  /** While paused, balances change only by minting and burning. */
  lemma PausedBalancesMoveOnlyByMintOrBurn(s: State, tx: Tx, account: Address)
    requires Conserved(s) && s.paused
    requires Apply(s, tx).Ok?
    requires BalanceOf(Apply(s, tx).value, account) != BalanceOf(s, account)
    ensures tx.call.Mint? || tx.call.Burn? || tx.call.BurnFrom?
  {
    match tx.call
    case Initialize =>
    case Mint(_, _) =>
    case Transfer(_, _) =>
    case Approve(_, _) =>
    case TransferFrom(_, _, _) =>
    case Pause =>
    case Unpause =>
    case Burn(_) =>
    case BurnFrom(_, _) =>
  }

  /** Flipping the switch to `paused` before `tx` changes neither whether
      `tx` commits, nor why it is rejected, nor anything it does besides the
      switch itself. */
  ghost predicate PauseIrrelevant(s: State, tx: Tx, paused: bool)
    requires Conserved(s)
  {
    var s' := s.(paused := paused);
    && Conserved(s')
    && Apply(s', tx).Ok? == Apply(s, tx).Ok?
    && (Apply(s, tx).Err? ==> Apply(s', tx) == Apply(s, tx))
    && (Apply(s, tx).Ok? ==> Apply(s', tx).value == Apply(s, tx).value.(paused := paused))
  }

  /** The pause switch gates neither `mint`, `approve`, `burn` nor
      `burnFrom`. The per-call lemmas below are not needed for soundness:
      they keep the solver's effort for this lemma well below its limit. */
  lemma PauseDoesNotGate(s: State, tx: Tx, paused: bool)
    requires Conserved(s)
    requires tx.call.Mint? || tx.call.Approve? || tx.call.Burn? || tx.call.BurnFrom?
    ensures PauseIrrelevant(s, tx, paused)
  {
    match tx.call
    case Mint(to, n) => MintIgnoresPause(s, tx.sender, to, n, paused);
    case Approve(spender, n) =>
      assert SetAllowance(s.(paused := paused), tx.sender, spender, n)
          == SetAllowance(s, tx.sender, spender, n).(paused := paused);
    case Burn(n) => BurnIgnoresPause(s, tx.sender, n, paused);
    case BurnFrom(from, n) => BurnFromIgnoresPause(s, tx.sender, from, n, paused);
  }

  /** The book-keeping steps never look at the pause switch. */
  lemma BookkeepingIgnoresPause(t: State, paused: bool, account: Address, amount: nat)
    ensures Credit(t.(paused := paused), account, amount) == Credit(t, account, amount).(paused := paused)
    ensures amount <= BalanceOf(t, account) ==>
      Debit(t.(paused := paused), account, amount) == Debit(t, account, amount).(paused := paused)
  {
  }

  lemma MintIgnoresPause(s: State, caller: Address, to: Address, n: nat, paused: bool)
    requires Conserved(s)
    ensures PauseIrrelevant(s, Tx(caller, Mint(to, n)), paused)
  {
    BookkeepingIgnoresPause(s, paused, to, n);
  }

  lemma BurnIgnoresPause(s: State, caller: Address, n: nat, paused: bool)
    requires Conserved(s)
    ensures PauseIrrelevant(s, Tx(caller, Burn(n)), paused)
  {
    BookkeepingIgnoresPause(s, paused, caller, n);
  }

  lemma BurnFromIgnoresPause(s: State, caller: Address, from: Address, n: nat, paused: bool)
    requires Conserved(s)
    ensures PauseIrrelevant(s, Tx(caller, BurnFrom(from, n)), paused)
  {
    var s' := s.(paused := paused);
    assert Conserved(s');
    BurnFromSwitchFree(s, caller, from, n, paused);
    assert Apply(s, Tx(caller, BurnFrom(from, n))) == Token.BurnFrom(s, caller, from, n);
    assert Apply(s', Tx(caller, BurnFrom(from, n))) == Token.BurnFrom(s', caller, from, n);
  }

  lemma BurnFromSwitchFree(s: State, caller: Address, from: Address, n: nat, paused: bool)
    requires Conserved(s)
    ensures Conserved(s.(paused := paused))
    ensures
      var r, r' := Token.BurnFrom(s, caller, from, n), Token.BurnFrom(s.(paused := paused), caller, from, n);
      && (r.Err? ==> r' == r)
      && (r.Ok? ==> r'.Ok? && r'.value == r.value.(paused := paused))
  {
    if n <= Allowance(s, from, caller) && n <= BalanceOf(s, from) {
      var spent := SetAllowance(s, from, caller, Allowance(s, from, caller) - n);
      assert spent.(paused := paused) == SetAllowance(s.(paused := paused), from, caller, Allowance(s, from, caller) - n);
      BookkeepingIgnoresPause(spent, paused, from, n);
    }
  }

  /** Burning what was just minted restores every balance and the supply. */
  lemma MintThenBurn(s: State, to: Address, amount: nat)
    requires Conserved(s)
    ensures Apply(s, Tx(s.owner, Mint(to, amount))).Ok?
    ensures
      var burnt := Apply(Apply(s, Tx(s.owner, Mint(to, amount))).value, Tx(to, Burn(amount)));
      burnt.Ok? && Indistinguishable(burnt.value, s)
  {
  }

  /** Sending an amount and sending it straight back restores every balance. */
  lemma TransferThenBack(s: State, a: Address, b: Address, amount: nat)
    requires !s.paused && amount <= BalanceOf(s, a)
    ensures Token.Transfer(s, a, b, amount).Ok?
    ensures
      var back := Token.Transfer(Token.Transfer(s, a, b, amount).value, b, a, amount);
      back.Ok? && Indistinguishable(back.value, s)
  {
  }

  /** Pausing and unpausing gives back the very same state. */
  lemma PauseThenUnpause(s: State)
    requires !s.paused
    ensures Token.Pause(s, s.owner).Ok?
    ensures Token.Unpause(Token.Pause(s, s.owner).value, s.owner) == Ok(s)
  {
  }

  /** A second approval replaces the first rather than adding to it. */
  lemma ApproveOverwrites(s: State, holder: Address, spender: Address, first: nat, second: nat)
    ensures Allowance(Token.Approve(Token.Approve(s, holder, spender, first), holder, spender, second), holder, spender) == second
    ensures Token.Approve(Token.Approve(s, holder, spender, first), holder, spender, second)
         == Token.Approve(s, holder, spender, second)
  {
  }

  /** Spending a whole allowance uses it up: until the holder approves
      again, that spender can neither move nor burn any more of the holder's
      tokens. */
  lemma AllowanceUsedUp(s: State, spender: Address, from: Address, to: Address, more: nat, to': Address)
    requires Conserved(s)
    requires Apply(s, Tx(spender, TransferFrom(from, to, Allowance(s, from, spender)))).Ok?
    requires more > 0
    ensures
      var t := Apply(s, Tx(spender, TransferFrom(from, to, Allowance(s, from, spender)))).value;
      && Allowance(t, from, spender) == 0
      && Apply(t, Tx(spender, TransferFrom(from, to', more))).Err?
      && Apply(t, Tx(spender, BurnFrom(from, more))) == Err(InsufficientAllowance)
  {
  }
}
