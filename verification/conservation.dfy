/** Conservation of supply: every entry point that commits keeps the total
    supply equal to the sum of all balances. Minting raises both sides by the
    minted amount, burning lowers both by the burnt amount, and a transfer
    moves value between two balances without changing their sum. */
module Conservation {
  import Sums
  import opened Ledger
  import Token

  lemma CreditSum(s: State, account: Address, amount: nat)
    ensures Sums.Sum(Credit(s, account, amount).balances) == Sums.Sum(s.balances) + amount
  {
    Sums.SumUpdate(s.balances, account, BalanceOf(s, account) + amount);
  }

  lemma DebitSum(s: State, account: Address, amount: nat)
    requires amount <= BalanceOf(s, account)
    ensures Sums.Sum(Debit(s, account, amount).balances) + amount == Sums.Sum(s.balances)
  {
    Sums.SumUpdate(s.balances, account, BalanceOf(s, account) - amount);
  }

  lemma MoveSum(s: State, from: Address, to: Address, amount: nat)
    requires amount <= BalanceOf(s, from)
    ensures Sums.Sum(Move(s, from, to, amount).balances) == Sums.Sum(s.balances)
  {
    DebitSum(s, from, amount);
    CreditSum(Debit(s, from, amount), to, amount);
  }

  lemma MintConserves(s: State, caller: Address, to: Address, amount: nat)
    requires Conserved(s)
    ensures Token.Mint(s, caller, to, amount).Ok? ==> Conserved(Token.Mint(s, caller, to, amount).value)
  {
    CreditSum(s, to, amount);
  }

  lemma TransferConserves(s: State, caller: Address, to: Address, amount: nat)
    requires Conserved(s)
    ensures Token.Transfer(s, caller, to, amount).Ok? ==> Conserved(Token.Transfer(s, caller, to, amount).value)
  {
    if Token.Transfer(s, caller, to, amount).Ok? {
      MoveSum(s, caller, to, amount);
    }
  }

  lemma TransferFromConserves(s: State, caller: Address, from: Address, to: Address, amount: nat)
    requires Conserved(s)
    ensures Token.TransferFrom(s, caller, from, to, amount).Ok? ==>
      Conserved(Token.TransferFrom(s, caller, from, to, amount).value)
  {
    if Token.TransferFrom(s, caller, from, to, amount).Ok? {
      var spent := SetAllowance(s, from, caller, Allowance(s, from, caller) - amount);
      MoveSum(spent, from, to, amount);
    }
  }

  lemma BurnConserves(s: State, caller: Address, amount: nat)
    requires Conserved(s)
    ensures Token.Burn(s, caller, amount).Ok? ==> Conserved(Token.Burn(s, caller, amount).value)
  {
    if Token.Burn(s, caller, amount).Ok? {
      DebitSum(s, caller, amount);
    }
  }

  lemma BurnFromConserves(s: State, caller: Address, from: Address, amount: nat)
    requires Conserved(s)
    ensures Token.BurnFrom(s, caller, from, amount).Ok? ==> Conserved(Token.BurnFrom(s, caller, from, amount).value)
  {
    if Token.BurnFrom(s, caller, from, amount).Ok? {
      var spent := SetAllowance(s, from, caller, Allowance(s, from, caller) - amount);
      DebitSum(spent, from, amount);
    }
  }
}
