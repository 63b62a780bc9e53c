/** Transactions against the token. A transaction names its sender and one
    entry point with its arguments. A rejected transaction reverts: the
    state stays exactly as it was before it. A run is a sequence of
    transactions applied in order, one at a time, each seeing all effects
    of the ones before it. */
module Chain {
  import opened Ledger
  import Token
  import Conservation

  datatype Call =
    | Initialize
    | Mint(to: Address, amount: nat)
    | Transfer(to: Address, amount: nat)
    | Approve(spender: Address, amount: nat)
    | TransferFrom(from: Address, to: Address, amount: nat)
    | Pause
    | Unpause
    | Burn(amount: nat)
    | BurnFrom(from: Address, amount: nat)

  datatype Tx = Tx(sender: Address, call: Call)

  /** Only the owner may mint or flip the pause switch. */
  predicate Privileged(c: Call)
  {
    c.Mint? || c.Pause? || c.Unpause?
  }

  /** The calls the pause switch blocks: ordinary and delegated transfers. */
  predicate Movement(c: Call)
  {
    c.Transfer? || c.TransferFrom?
  }

  /** Dispatches one transaction to its entry point. Whatever is called,
      a privileged call commits only for the owner, a transfer never commits
      while paused, only the initialiser touches the owner or the
      initialisation flag, and a committed call keeps supply conserved. */
  function Apply(s: State, tx: Tx): (r: Result<State>)
    requires Conserved(s)
    ensures r.Ok? ==> Conserved(r.value)
    ensures Privileged(tx.call) && tx.sender != s.owner ==> r == Err(Unauthorized)
    ensures Movement(tx.call) && s.paused ==> r == Err(Paused)
    ensures tx.call.Initialize? && s.initialized ==> r == Err(AlreadyInitialized)
    ensures r.Ok? && !tx.call.Initialize? ==> r.value.owner == s.owner && r.value.initialized == s.initialized
  {
    var who := tx.sender;
    match tx.call
    case Initialize => Token.Initialize(s, who)
    case Mint(to, n) =>
      Conservation.MintConserves(s, who, to, n);
      Token.Mint(s, who, to, n)
    case Transfer(to, n) =>
      Conservation.TransferConserves(s, who, to, n);
      Token.Transfer(s, who, to, n)
    case Approve(spender, n) => Ok(Token.Approve(s, who, spender, n))
    case TransferFrom(from, to, n) =>
      Conservation.TransferFromConserves(s, who, from, to, n);
      Token.TransferFrom(s, who, from, to, n)
    case Pause => Token.Pause(s, who)
    case Unpause => Token.Unpause(s, who)
    case Burn(n) =>
      Conservation.BurnConserves(s, who, n);
      Token.Burn(s, who, n)
    case BurnFrom(from, n) =>
      Conservation.BurnFromConserves(s, who, from, n);
      Token.BurnFrom(s, who, from, n)
  }

  /** The state after a transaction: its effect if it commits, the state
      before it if it reverts. */
  function Execute(s: State, tx: Tx): (t: State)
    requires Conserved(s)
    ensures Conserved(t)
    ensures Apply(s, tx).Err? ==> t == s
    ensures Apply(s, tx).Ok? ==> t == Apply(s, tx).value
  {
    var r := Apply(s, tx);
    if r.Ok? then r.value else s
  }

  /** The state after a run of transactions: supply stays conserved at every
      step, whichever of them commit. */
  function Run(s: State, txs: seq<Tx>): (t: State)
    requires Conserved(s)
    ensures Conserved(t)
    decreases |txs|
  {
    if |txs| == 0 then s
    else Run(Execute(s, txs[0]), txs[1..])
  }

  /** How many transactions of a run commit an initialisation: never more
      than one, and none once the state is initialised. */
  function Inits(s: State, txs: seq<Tx>): (n: nat)
    requires Conserved(s)
    ensures n <= if s.initialized then 0 else 1
    decreases |txs|
  {
    if |txs| == 0 then 0
    else
      var committed := if txs[0].call.Initialize? && Apply(s, txs[0]).Ok? then 1 else 0;
      var rest := Inits(Execute(s, txs[0]), txs[1..]);
      assert committed == 1 ==> Execute(s, txs[0]).initialized;
      committed + rest
  }

  /** Once initialised, a ledger stays initialised and keeps its owner through
      any run (ownership hand-off is not part of this model). */
  lemma {:induction false} OwnerStable(s: State, txs: seq<Tx>)
    requires Conserved(s) && s.initialized
    ensures Run(s, txs).initialized && Run(s, txs).owner == s.owner
    decreases |txs|
  {
    if |txs| > 0 {
      OwnerStable(Execute(s, txs[0]), txs[1..]);
    }
  }

  /** Every state reachable from a fresh proxy deployment by any run of
      transactions has its supply equal to the sum of its balances. */
  lemma {:induction false} ReachableConserved(deployer: Address, txs: seq<Tx>)
    ensures Conserved(Run(Token.Deploy(deployer), txs))
    ensures Run(Token.Deploy(deployer), txs).owner == deployer
    ensures Inits(Token.Deploy(deployer), txs) == 0
  {
    OwnerStable(Token.Deploy(deployer), txs);
  }
}
