/** The behaviour the token's test suite drives, restated over any three
    distinct accounts `owner`, `addr1` and `addr2`, where `owner` deployed
    the token. Each call the suite awaits as a success is a transaction of a
    script that must commit in full; each call it expects to revert is an
    `Apply` that yields the expected error, after which the state is the one
    before the call. */
module Scenarios {
  import opened Ledger
  import opened Chain
  import Token

  predicate Distinct(owner: Address, addr1: Address, addr2: Address)
  {
    owner != addr1 && owner != addr2 && addr1 != addr2
  }

  /** Runs transactions in order, each of which must commit; the first
      rejection ends the script with that rejection. */
  function Script(s: State, txs: seq<Tx>): (r: Result<State>)
    requires Conserved(s)
    ensures r.Ok? ==> Conserved(r.value) && r.value == Run(s, txs)
    decreases |txs|
  {
    if |txs| == 0 then Ok(s)
    else
      var first := Apply(s, txs[0]);
      if first.Err? then first
      else Script(first.value, txs[1..])
  }

  /** A script whose first transaction commits continues from its effect. */
  lemma ScriptStep(s: State, tx: Tx, rest: seq<Tx>)
    requires Conserved(s) && Apply(s, tx).Ok?
    ensures Script(s, [tx] + rest) == Script(Apply(s, tx).value, rest)
  {
    assert ([tx] + rest)[1..] == rest;
  }

  lemma ScriptLast(s: State, tx: Tx)
    requires Conserved(s)
    ensures Script(s, [tx]) == Apply(s, tx)
  {
    assert [tx][1..] == [];
  }

  /** A script split in two: the second part continues from where the first
      one left off, unless the first one was rejected. */
  lemma {:induction false} ScriptAppend(s: State, first: seq<Tx>, second: seq<Tx>)
    requires Conserved(s)
    ensures Script(s, first + second) ==
      if Script(s, first).Ok? then Script(Script(s, first).value, second) else Script(s, first)
    decreases |first|
  {
    if |first| > 0 {
      assert (first + second)[1..] == first[1..] + second;
      var head := Apply(s, first[0]);
      if head.Ok? {
        ScriptAppend(head.value, first[1..], second);
      }
    } else {
      assert first + second == second;
    }
  }

  /** The opening of most of the suite's scenarios: the owner mints 100 to
      itself and sends 50 of it to `addr1`. */
  function Funding(owner: Address, addr1: Address): (txs: seq<Tx>)
  {
    [Tx(owner, Mint(owner, 100)), Tx(owner, Transfer(addr1, 50))]
  }

  /** What holds after `Funding`. */
  ghost predicate Funded(s: State, owner: Address, addr1: Address, addr2: Address)
  {
    && Conserved(s) && !s.paused && s.owner == owner
    && BalanceOf(s, owner) == 50 && BalanceOf(s, addr1) == 50 && BalanceOf(s, addr2) == 0
    && TotalSupply(s) == 100
    && forall h: Address, sp: Address :: Allowance(s, h, sp) == 0
  }

  /** The owner can mint to itself or to anyone else, and the recipient then
      holds exactly what was minted. */
  lemma OwnerMints(owner: Address, recipient: Address)
    ensures
      var r := Apply(Token.Deploy(owner), Tx(owner, Mint(recipient, 100)));
      && r.Ok?
      && BalanceOf(r.value, recipient) == 100
      && TotalSupply(r.value) == 100
  {
  }

  /** Any other account is refused, whoever the recipient. */
  lemma OthersCannotMint(owner: Address, caller: Address, recipient: Address)
    requires caller != owner
    ensures Apply(Token.Deploy(owner), Tx(caller, Mint(recipient, 100))) == Err(Unauthorized)
  {
  }

  /** Minting 100 to the owner and sending 50 to `addr1` leaves each with 50. */
  lemma FundingCommits(owner: Address, addr1: Address, addr2: Address)
    requires Distinct(owner, addr1, addr2)
    ensures Script(Token.Deploy(owner), Funding(owner, addr1)).Ok?
    ensures Funded(Script(Token.Deploy(owner), Funding(owner, addr1)).value, owner, addr1, addr2)
  {
    var s0 := Token.Deploy(owner);
    var mint, t1 := Tx(owner, Mint(owner, 100)), Tx(owner, Transfer(addr1, 50));
    var s1 := Apply(s0, mint).value;
    assert BalanceOf(s1, owner) == 100 && BalanceOf(s1, addr1) == 0 && BalanceOf(s1, addr2) == 0;
    ScriptStep(s0, mint, [t1]);
    ScriptLast(s1, t1);
  }

  /** Scripts that open with `Funding` continue from a funded ledger. */
  lemma AfterFunding(owner: Address, addr1: Address, addr2: Address, rest: seq<Tx>)
    requires Distinct(owner, addr1, addr2)
    ensures Script(Token.Deploy(owner), Funding(owner, addr1)).Ok?
    ensures
      var funded := Script(Token.Deploy(owner), Funding(owner, addr1)).value;
      && Funded(funded, owner, addr1, addr2)
      && Script(Token.Deploy(owner), Funding(owner, addr1) + rest) == Script(funded, rest)
  {
    FundingCommits(owner, addr1, addr2);
    ScriptAppend(Token.Deploy(owner), Funding(owner, addr1), rest);
  }

  /** ... then sending 25 to `addr2` leaves 25, 50 and 25. */
  lemma TransfersCompose(owner: Address, addr1: Address, addr2: Address)
    requires Distinct(owner, addr1, addr2)
    ensures
      var r := Script(Token.Deploy(owner), Funding(owner, addr1) + [Tx(owner, Transfer(addr2, 25))]);
      && r.Ok?
      && BalanceOf(r.value, owner) == 25
      && BalanceOf(r.value, addr1) == 50
      && BalanceOf(r.value, addr2) == 25
  {
    var t2 := Tx(owner, Transfer(addr2, 25));
    AfterFunding(owner, addr1, addr2, [t2]);
    ScriptLast(Script(Token.Deploy(owner), Funding(owner, addr1)).value, t2);
  }

  /** The suite also sends calls whose rejection it does not wait for:
      transfers between ordinary holders, and a transferFrom by a spender
      within its allowance. All are ordinary ERC-20 calls, and all commit, so
      the balances end where the suite's own later reads do not expect them:
      50, 25 and 25 rather than 25, 50 and 25 after the transfers, and 75 and
      25 rather than 50 and 50 after the transferFrom. */
  lemma UnawaitedRejectionsCommit(owner: Address, addr1: Address, addr2: Address)
    requires Distinct(owner, addr1, addr2)
    ensures
      var r := Script(Token.Deploy(owner),
        Funding(owner, addr1) + [Tx(owner, Transfer(addr2, 25))] + HolderTransfers(owner, addr1, addr2));
      && r.Ok?
      && BalanceOf(r.value, owner) == 50
      && BalanceOf(r.value, addr1) == 25
      && BalanceOf(r.value, addr2) == 25
    ensures
      var r := Script(Token.Deploy(owner),
        Funding(owner, addr1) + [Tx(addr1, Approve(addr2, 25)), Tx(addr2, TransferFrom(addr1, owner, 25))]);
      && r.Ok?
      && BalanceOf(r.value, owner) == 75
      && BalanceOf(r.value, addr1) == 25
      && BalanceOf(r.value, addr2) == 0
  {
    var t2 := Tx(owner, Transfer(addr2, 25));
    var rest := HolderTransfers(owner, addr1, addr2);
    assert Funding(owner, addr1) + [t2] + rest == Funding(owner, addr1) + ([t2] + rest);
    AfterFunding(owner, addr1, addr2, [t2] + rest);
    var s2 := Script(Token.Deploy(owner), Funding(owner, addr1)).value;
    var s3 := Apply(s2, t2).value;
    assert BalanceOf(s3, owner) == 25 && BalanceOf(s3, addr1) == 50 && BalanceOf(s3, addr2) == 25;
    ScriptStep(s2, t2, rest);
    HolderTransfersCommit(s3, owner, addr1, addr2);

    var approve, spend := Tx(addr1, Approve(addr2, 25)), Tx(addr2, TransferFrom(addr1, owner, 25));
    AfterFunding(owner, addr1, addr2, [approve, spend]);
    ApproveThenSpend(s2, owner, addr1, addr2, addr2, owner);
  }

  /** The three transfers between non-owners the suite sends without waiting:
      `addr1` to `addr2`, `addr1` to the owner, `addr2` to `addr1`, 25 each. */
  function HolderTransfers(owner: Address, addr1: Address, addr2: Address): (txs: seq<Tx>)
  {
    [Tx(addr1, Transfer(addr2, 25)), Tx(addr1, Transfer(owner, 25)), Tx(addr2, Transfer(addr1, 25))]
  }

  /** From 25, 50 and 25, the three holder transfers commit and end at 50,
      25 and 25. */
  lemma HolderTransfersCommit(s: State, owner: Address, addr1: Address, addr2: Address)
    requires Conserved(s) && !s.paused && Distinct(owner, addr1, addr2)
    requires BalanceOf(s, owner) == 25 && BalanceOf(s, addr1) == 50 && BalanceOf(s, addr2) == 25
    ensures
      var r := Script(s, HolderTransfers(owner, addr1, addr2));
      r.Ok? && BalanceOf(r.value, owner) == 50 && BalanceOf(r.value, addr1) == 25 && BalanceOf(r.value, addr2) == 25
  {
    var txs := HolderTransfers(owner, addr1, addr2);
    var s1 := Apply(s, txs[0]).value;
    assert !s1.paused && BalanceOf(s1, owner) == 25 && BalanceOf(s1, addr1) == 25 && BalanceOf(s1, addr2) == 50;
    var s2 := Apply(s1, txs[1]).value;
    assert !s2.paused && BalanceOf(s2, owner) == 50 && BalanceOf(s2, addr1) == 0 && BalanceOf(s2, addr2) == 50;
    ScriptStep(s, txs[0], txs[1..]);
    ScriptStep(s1, txs[1], txs[2..]);
    ScriptLast(s2, txs[2]);
  }

  /** From a funded ledger: `addr1` approves `spender` for 25, and `spender`
      moves 25 of `addr1`'s tokens to `to`. */
  lemma ApproveThenSpend(s: State, owner: Address, addr1: Address, addr2: Address, spender: Address, to: Address)
    requires Funded(s, owner, addr1, addr2) && Distinct(owner, addr1, addr2)
    requires spender != addr1 && to != addr1
    ensures
      var r := Script(s, [Tx(addr1, Approve(spender, 25)), Tx(spender, TransferFrom(addr1, to, 25))]);
      && r.Ok?
      && BalanceOf(r.value, addr1) == 25
      && BalanceOf(r.value, to) == BalanceOf(s, to) + 25
      && (forall a :: a != addr1 && a != to ==> BalanceOf(r.value, a) == BalanceOf(s, a))
      && Allowance(r.value, addr1, spender) == 0
  {
    var approve, spend := Tx(addr1, Approve(spender, 25)), Tx(spender, TransferFrom(addr1, to, 25));
    var s1 := Apply(s, approve).value;
    assert Allowance(s1, addr1, spender) == 25 && SameBalances(s, s1);
    ScriptStep(s, approve, [spend]);
    ScriptLast(s1, spend);
  }

  /** Sending more than one holds is refused, both with nothing and with 100,
      and the sender's balance stays where it was. */
  lemma OverdraftRefused(owner: Address, addr1: Address)
    requires owner != addr1
    ensures Apply(Token.Deploy(owner), Tx(owner, Transfer(addr1, 250))) == Err(InsufficientBalance)
    ensures BalanceOf(Execute(Token.Deploy(owner), Tx(owner, Transfer(addr1, 250))), owner) == 0
    ensures
      var minted := Apply(Token.Deploy(owner), Tx(owner, Mint(owner, 100))).value;
      && Apply(minted, Tx(owner, Transfer(addr1, 250))) == Err(InsufficientBalance)
      && BalanceOf(Execute(minted, Tx(owner, Transfer(addr1, 250))), owner) == 100
  {
  }

  /** With `addr1` holding 50 and having approved the owner for 25, the
      owner moves 25 from `addr1` to `addr2` and keeps its own 50. */
  lemma ApprovedTransferFrom(owner: Address, addr1: Address, addr2: Address)
    requires Distinct(owner, addr1, addr2)
    ensures
      var r := Script(Token.Deploy(owner),
        Funding(owner, addr1) + [Tx(addr1, Approve(owner, 25)), Tx(owner, TransferFrom(addr1, addr2, 25))]);
      && r.Ok?
      && BalanceOf(r.value, owner) == 50
      && BalanceOf(r.value, addr1) == 25
      && BalanceOf(r.value, addr2) == 25
      && Allowance(r.value, addr1, owner) == 0
  {
    AfterFunding(owner, addr1, addr2, [Tx(addr1, Approve(owner, 25)), Tx(owner, TransferFrom(addr1, addr2, 25))]);
    ApproveThenSpend(Script(Token.Deploy(owner), Funding(owner, addr1)).value, owner, addr1, addr2, owner, addr2);
  }

  /** An allowance of 25 does not let the owner move 25 out of `addr1` while
      `addr1` holds less: first nothing, then 1. */
  lemma TransferFromBeyondBalance(owner: Address, addr1: Address, addr2: Address)
    requires Distinct(owner, addr1, addr2)
    ensures
      var approved := Apply(Token.Deploy(owner), Tx(addr1, Approve(owner, 25))).value;
      && Apply(approved, Tx(owner, TransferFrom(addr1, addr2, 25))) == Err(InsufficientBalance)
      && var r := Script(approved, [Tx(owner, Mint(owner, 100)), Tx(owner, Transfer(addr1, 1))]);
         && r.Ok?
         && Apply(r.value, Tx(owner, TransferFrom(addr1, addr2, 25))) == Err(InsufficientBalance)
  {
    var s1 := Apply(Token.Deploy(owner), Tx(addr1, Approve(owner, 25))).value;
    assert BalanceOf(s1, addr1) == 0 && Allowance(s1, addr1, owner) == 25;
    var mint, t1 := Tx(owner, Mint(owner, 100)), Tx(owner, Transfer(addr1, 1));
    var s2 := Apply(s1, mint).value;
    assert BalanceOf(s2, addr1) == 0 && Allowance(s2, addr1, owner) == 25;
    var s3 := Apply(s2, t1).value;
    assert BalanceOf(s3, addr1) == 1 && Allowance(s3, addr1, owner) == 25;
    ScriptStep(s1, mint, [t1]);
    ScriptLast(s2, t1);
  }

  /** Once paused, the owner's transfer of 50 is refused and nobody's balance
      moves; after unpausing, the same transfer commits. */
  lemma PauseBlocksThenUnpauseResumes(owner: Address, addr1: Address, addr2: Address)
    requires Distinct(owner, addr1, addr2)
    ensures
      var r := Script(Token.Deploy(owner), [Tx(owner, Mint(owner, 100)), Tx(owner, Pause)]);
      && r.Ok?
      && Apply(r.value, Tx(owner, Transfer(addr1, 50))) == Err(Paused)
      && var t := Execute(r.value, Tx(owner, Transfer(addr1, 50)));
         BalanceOf(t, owner) == 100 && BalanceOf(t, addr1) == 0 && BalanceOf(t, addr2) == 0
    ensures
      var r := Script(Token.Deploy(owner),
        [Tx(owner, Mint(owner, 100)), Tx(owner, Pause), Tx(owner, Unpause), Tx(owner, Transfer(addr1, 50))]);
      && r.Ok?
      && BalanceOf(r.value, owner) == 50
      && BalanceOf(r.value, addr1) == 50
      && BalanceOf(r.value, addr2) == 0
  {
    var s0 := Token.Deploy(owner);
    var mint, pause, unpause, t1 := Tx(owner, Mint(owner, 100)), Tx(owner, Pause), Tx(owner, Unpause),
      Tx(owner, Transfer(addr1, 50));
    var s1 := Apply(s0, mint).value;
    assert BalanceOf(s1, owner) == 100 && BalanceOf(s1, addr1) == 0 && BalanceOf(s1, addr2) == 0;
    var s2 := Apply(s1, pause).value;
    assert s2.paused && BalanceOf(s2, owner) == 100 && BalanceOf(s2, addr1) == 0 && BalanceOf(s2, addr2) == 0;
    var s3 := Apply(s2, unpause).value;
    assert !s3.paused && BalanceOf(s3, owner) == 100 && BalanceOf(s3, addr1) == 0 && BalanceOf(s3, addr2) == 0;
    ScriptStep(s0, mint, [pause]);
    ScriptLast(s1, pause);
    ScriptStep(s0, mint, [pause, unpause, t1]);
    ScriptStep(s1, pause, [unpause, t1]);
    ScriptStep(s2, unpause, [t1]);
    ScriptLast(s3, t1);
  }

  /** Burning 50 of the owner's 100 leaves it 50. */
  lemma BurnOwn(owner: Address)
    ensures
      var r := Script(Token.Deploy(owner), [Tx(owner, Mint(owner, 100)), Tx(owner, Burn(50))]);
      r.Ok? && BalanceOf(r.value, owner) == 50 && TotalSupply(r.value) == 50
  {
    var s0 := Token.Deploy(owner);
    var mint, burn := Tx(owner, Mint(owner, 100)), Tx(owner, Burn(50));
    var s1 := Apply(s0, mint).value;
    assert BalanceOf(s1, owner) == 100 && TotalSupply(s1) == 100;
    ScriptStep(s0, mint, [burn]);
    ScriptLast(s1, burn);
  }

  /** With an allowance of 500 from `addr1`, the owner burns 25 of `addr1`'s
      50: only `addr1`'s balance and the supply go down. */
  lemma BurnFromApproved(owner: Address, addr1: Address, addr2: Address)
    requires Distinct(owner, addr1, addr2)
    ensures
      var r := Script(Token.Deploy(owner),
        Funding(owner, addr1) + [Tx(addr1, Approve(owner, 500)), Tx(owner, BurnFrom(addr1, 25))]);
      && r.Ok?
      && BalanceOf(r.value, owner) == 50
      && BalanceOf(r.value, addr1) == 25
      && BalanceOf(r.value, addr2) == 0
      && TotalSupply(r.value) == 75
      && Allowance(r.value, addr1, owner) == 475
  {
    AfterFunding(owner, addr1, addr2, [Tx(addr1, Approve(owner, 500)), Tx(owner, BurnFrom(addr1, 25))]);
    ApproveThenBurn(Script(Token.Deploy(owner), Funding(owner, addr1)).value, owner, addr1, addr2);
  }

  /** From a funded ledger: `addr1` approves the owner for 500, and the owner
      burns 25 of `addr1`'s tokens. */
  lemma ApproveThenBurn(s: State, owner: Address, addr1: Address, addr2: Address)
    requires Funded(s, owner, addr1, addr2) && Distinct(owner, addr1, addr2)
    ensures
      var r := Script(s, [Tx(addr1, Approve(owner, 500)), Tx(owner, BurnFrom(addr1, 25))]);
      && r.Ok?
      && BalanceOf(r.value, owner) == 50
      && BalanceOf(r.value, addr1) == 25
      && BalanceOf(r.value, addr2) == 0
      && TotalSupply(r.value) == 75
      && Allowance(r.value, addr1, owner) == 475
  {
    var approve, burn := Tx(addr1, Approve(owner, 500)), Tx(owner, BurnFrom(addr1, 25));
    var s1 := Apply(s, approve).value;
    assert Allowance(s1, addr1, owner) == 500 && TotalSupply(s1) == 100;
    assert BalanceOf(s1, owner) == 50 && BalanceOf(s1, addr1) == 50 && BalanceOf(s1, addr2) == 0;
    ScriptStep(s, approve, [burn]);
    ScriptLast(s1, burn);
  }
}
