# HODLpacGov token ledger in Dafny

A model of the HODLpacGov governance token: an ERC-20 (EIP-20) balance and
allowance ledger with four additions.

- Owner-only `mint`.
- A pause switch, flipped by the owner, that blocks `transfer` and `transferFrom`.
- `burn` of one's own tokens.
- `burnFrom`, which burns another holder's tokens against an allowance.

The token is deployed behind an upgradeable proxy. So a one-shot
initialiser stands in for the constructor: it makes the deployer the owner
and starts unpaused with no supply.

This model is derived from the token's test suite,
`test/hodlpac-governance-test.js`, and from EIP-20 for `transfer`,
`transferFrom` and `approve`. The suite deploys the HODLpacGov Solidity
contract of the same project; that contract and the OpenZeppelin bases it
builds on are not modelled.

## Layout

- `sums.dfy` (`Sums`): the sum of the values of a finite map, with the lemmas
  that overwriting one entry changes the sum by the difference.
- `ledger.dfy` (`Ledger`): addresses (160-bit), error kinds, the `State`
  record, and the views `BalanceOf`, `Allowance` and `TotalSupply`. It also
  holds the conservation invariant `Conserved` and the internal steps
  `Credit`, `Debit`, `Move` and `SetAllowance`.
- `token.dfy` (`Token`): the entry points. Each is a pure function from
  the state, the caller and the arguments to `Ok(new state)` or
  `Err(reason)`.
- `conservation.dfy` (`Conservation`): every committed entry point keeps
  the total supply equal to the sum of all balances.
- `chain.dfy` (`Chain`): transactions (`Tx` = sender + `Call`), dispatch
  (`Apply`), revert semantics (`Execute`) and runs of transactions (`Run`).
- `properties.dfy` (`Properties`): access-control, pause and allowance
  properties of single transactions, and calls that undo each other.
- `scenarios.dfy` (`Scenarios`): the suite's `it` blocks, restated for any
  three distinct accounts `owner`, `addr1` and `addr2`.

A rejected call changes nothing: `Execute` keeps the state from before the
transaction. This is how a reverted Ethereum transaction behaves. Balances
and allowances are unbounded naturals, so no balance or allowance can go
negative by construction.

## Model

| member | source | states |
|---|---|---|
| Ledger.BalanceOf | test/hodlpac-governance-test.js:104-106 | `balanceOf` reads the stored balance, and an account never credited reads 0 |
| Ledger.Allowance | test/hodlpac-governance-test.js:195-196 | the allowance `burnFrom` and `transferFrom` spend is the stored approval, and 0 for a pair that never approved anything |
| Ledger.TotalSupply | test/hodlpac-governance-test.js:23-25 | in a conserved state `totalSupply` reports the sum of every account's balance |
| Token.Initialize | test/hodlpac-governance-test.js:17-19 | the proxy initialiser commits only on uninitialised storage and fails with AlreadyInitialized otherwise; it makes the caller owner, leaves the token unpaused and touches no balance, allowance or supply |
| Token.Deploy | test/hodlpac-governance-test.js:22-26 | right after deployment the total supply equals the owner's balance, both are 0, every account's balance and allowance is 0, the deployer is owner and supply is conserved |
| Token.Mint | test/hodlpac-governance-test.js:29-54 | mint fails with Unauthorized exactly when the caller is not the owner; otherwise exactly `amount` is added to the recipient's balance and to the supply, and nothing else changes |
| Token.Transfer | test/hodlpac-governance-test.js:100-115 | transfer fails with Paused while paused and with InsufficientBalance when the sender holds less than `amount`, and in no other case; otherwise the sender loses and the recipient gains exactly `amount`, and supply and allowances are unchanged |
| Token.Approve | test/hodlpac-governance-test.js:120 | approve cannot fail; it sets the caller's allowance for the spender to exactly `amount` (not adding to it) and leaves every other allowance and every balance unchanged |
| Token.TransferFrom | test/hodlpac-governance-test.js:145-155 | transferFrom fails exactly when paused, when the allowance is below `amount`, or when `from`'s balance is below `amount`, in that order of precedence; otherwise it moves `amount` from `from` to `to` and lowers that allowance by `amount` |
| Token.Pause | test/hodlpac-governance-test.js:157-168 | pause fails with Unauthorized for any caller but the owner, and with AlreadyPaused when already paused; otherwise it turns the switch on and changes nothing else |
| Token.Unpause | test/hodlpac-governance-test.js:170-182 | unpause fails with Unauthorized for any caller but the owner, and with NotPaused when not paused; otherwise it turns the switch off and changes nothing else |
| Token.Burn | test/hodlpac-governance-test.js:186-191 | burn fails with InsufficientBalance exactly when the caller holds less than `amount`; otherwise the caller's balance and the supply both go down by exactly `amount` |
| Token.BurnFrom | test/hodlpac-governance-test.js:192-203 | burnFrom fails when the allowance, or else the balance, is below `amount`; otherwise only `from`'s balance, the supply and that allowance go down, each by exactly `amount` |
| Token.BalanceWithinSupply | test/hodlpac-governance-test.js:23-25 | in a conserved state no balance exceeds the total supply |
| Conservation.MintConserves | test/hodlpac-governance-test.js:30-40 | a committed mint keeps total supply equal to the sum of all balances |
| Conservation.TransferConserves | test/hodlpac-governance-test.js:58-70 | a committed transfer keeps total supply equal to the sum of all balances |
| Conservation.TransferFromConserves | test/hodlpac-governance-test.js:117-128 | a committed transferFrom keeps total supply equal to the sum of all balances |
| Conservation.BurnConserves | test/hodlpac-governance-test.js:186-191 | a committed burn keeps total supply equal to the sum of all balances |
| Conservation.BurnFromConserves | test/hodlpac-governance-test.js:192-203 | a committed burnFrom keeps total supply equal to the sum of all balances |
| Chain.Apply | test/hodlpac-governance-test.js:42-54 | for every entry point: mint, pause and unpause by a non-owner fail with Unauthorized; transfer and transferFrom while paused fail with Paused; a second initialisation fails; only the initialiser changes owner or initialisation flag; a committed call keeps supply conserved |
| Chain.Execute | test/hodlpac-governance-test.js:100-115 | a transaction either commits in full, giving exactly the effect of its call, or is rejected and leaves the state exactly as it was; conservation holds afterwards either way |
| Chain.Run | test/hodlpac-governance-test.js:23-25 | after any sequence of transactions, committed or reverted, total supply equals the sum of all balances |
| Chain.Inits | test/hodlpac-governance-test.js:17-19 | along any run at most one transaction commits an initialisation, and none once the ledger is initialised |
| Chain.OwnerStable | test/hodlpac-governance-test.js:42-54 | once initialised, no run of transactions changes the owner or clears the initialisation flag, so the deployer stays the only account that can mint or pause |
| Chain.ReachableConserved | test/hodlpac-governance-test.js:17-26 | every state reachable from a deployment is conserved, keeps the deployer as owner, and admits no further initialisation |
| Properties.SupplyGrowsOnlyByOwnerMint | test/hodlpac-governance-test.js:42-54 | a committed transaction that raises the supply is a mint by the owner; one that lowers it is a burn or burnFrom |
| Properties.NoUnauthorisedDebit | test/hodlpac-governance-test.js:117-128 | a holder's balance goes down only through the holder's own call, or through a spender whose allowance from that holder covered the loss and drops by exactly the loss |
| Properties.AllowanceRaisedOnlyByHolder | test/hodlpac-governance-test.js:120 | an allowance goes up only when its holder calls approve for that spender with the new amount |
| Properties.PausedBalancesMoveOnlyByMintOrBurn | test/hodlpac-governance-test.js:157-168 | while paused, a committed transaction that changes any balance is a mint, burn or burnFrom |
| Properties.PauseDoesNotGate | test/hodlpac-governance-test.js:157-168 | mint, approve, burn and burnFrom commit or fail with the same reason, and have the same effect, whatever the pause switch says |
| Properties.MintThenBurn | test/hodlpac-governance-test.js:186-191 | the recipient burning what the owner just minted to it restores every balance, allowance and the supply |
| Properties.TransferThenBack | test/hodlpac-governance-test.js:58-70 | while unpaused, a transfer within the sender's balance commits, and sending the same amount straight back commits and restores every balance |
| Properties.PauseThenUnpause | test/hodlpac-governance-test.js:170-182 | the owner pausing an unpaused ledger and then unpausing it commits both times and gives back the very same state |
| Properties.ApproveOverwrites | test/hodlpac-governance-test.js:195 | a second approval for the same spender replaces the first one; the result equals approving only the second amount |
| Properties.AllowanceUsedUp | test/hodlpac-governance-test.js:117-128 | a transferFrom of the whole allowance leaves it 0; after that, no transferFrom or burnFrom of a positive amount by that spender on that holder can commit |
| Scenarios.OwnerMints | test/hodlpac-governance-test.js:30-40 | on a fresh deployment the owner's mint of 100 to itself or to another account commits, and the recipient then holds 100 |
| Scenarios.OthersCannotMint | test/hodlpac-governance-test.js:42-54 | on a fresh deployment a mint of 100 by any account but the owner fails with Unauthorized, whoever the recipient |
| Scenarios.FundingCommits | test/hodlpac-governance-test.js:58-64 | minting 100 to the owner and then sending 50 to addr1 commits, leaving both with 50 |
| Scenarios.TransfersCompose | test/hodlpac-governance-test.js:58-70 | then sending 25 to addr2 commits, leaving owner 25, addr1 50 and addr2 25 |
| Scenarios.UnawaitedRejectionsCommit | test/hodlpac-governance-test.js:71-97 | the three transfers between non-owners (addr1 to addr2, addr1 to the owner, addr2 to addr1) that the suite wraps in rejections it does not wait for all commit as ERC-20 calls, leaving owner 50, addr1 25, addr2 25 instead of the 25, 50, 25 the suite reads afterwards; likewise the approved spender's transferFrom at lines 130-142 commits, leaving owner 75 and addr1 25 instead of 50 and 50 |
| Scenarios.OverdraftRefused | test/hodlpac-governance-test.js:100-115 | the owner's transfer of 250 fails with InsufficientBalance at balance 0 and at balance 100, and the owner's balance stays 0 and 100 |
| Scenarios.ApprovedTransferFrom | test/hodlpac-governance-test.js:117-128 | after addr1 approves the owner for 25, the owner's transferFrom of 25 from addr1 to addr2 commits, leaving owner 50, addr1 25, addr2 25 and the allowance 0 |
| Scenarios.TransferFromBeyondBalance | test/hodlpac-governance-test.js:145-155 | with an allowance of 25, the owner's transferFrom of 25 fails with InsufficientBalance while addr1 holds 0 and again when it holds 1 |
| Scenarios.PauseBlocksThenUnpauseResumes | test/hodlpac-governance-test.js:157-182 | after mint and pause the owner's transfer of 50 fails with Paused and balances stay 100/0/0; after unpause the same transfer commits, giving 50/50/0 |
| Scenarios.BurnOwn | test/hodlpac-governance-test.js:186-191 | minting 100 to the owner and burning 50 leaves it 50, and the supply 50 |
| Scenarios.BurnFromApproved | test/hodlpac-governance-test.js:192-203 | with an allowance of 500 from addr1, the owner's burnFrom of 25 leaves owner 50, addr1 25, addr2 0, supply 75 and allowance 475 |

## Left out

- The UUPS proxy and upgrade authorisation are not modelled. Only the one-shot initialiser is, with an `initialized` flag.
- Events, gas, and the ownership hand-off calls (`transferOwnership`, `renounceOwnership`) are not modelled: the suite observes none of them. So the owner never changes after initialisation.
- Token name, symbol and decimals are not modelled: the suite does not read them.
- uint256 overflow on mint is not modelled: amounts are unbounded naturals. For the same reason an allowance of the maximum uint256 is not treated as unlimited.
- The zero-address checks an OpenZeppelin ERC-20 makes (no transfer, mint, burn or approve involving address 0) are not modelled: the suite never uses address 0. Before initialisation the owner field is address 0, so a mint sent from address 0 would commit there.
- `increaseAllowance` and `decreaseAllowance` are not modelled: the suite does not call them.
- The suite's tests at lines 71-97 and 130-142 are titled as two rules: only the owner may transfer, and an approved spender other than the owner may not call `transferFrom`. They are not modelled: the model follows EIP-20, under which both calls succeed. The rejections at lines 83-91 and 134-136 are not awaited, but the awaited balance reads after them are, and if those calls are mined before the reads, this model contradicts them. After the three transfers of lines 84, 87 and 90 it gives owner 50, addr1 25, addr2 25, where lines 95-97 expect 25, 50, 25. After the transferFrom of line 135 it gives owner 75, addr1 25, where lines 140-141 expect 50 and 50. `Scenarios.UnawaitedRejectionsCommit` proves both outcomes.
- Token.Burn: takes conservation (`Conserved`) as a precondition, because taking the burnt amount off the supply needs the supply to cover the caller's balance. Every reachable state is conserved (`Chain.Run`).
- Token.BurnFrom: takes conservation as a precondition, for the same reason as `Token.Burn`.
- Token.Pause: rejecting a second pause with AlreadyPaused is a modelling choice. It matches OpenZeppelin's `whenNotPaused` guard, but the suite never pauses twice.
- Token.Unpause: rejecting unpause when not paused with NotPaused is also a choice. It matches `whenPaused`; the suite does not exercise it.
- Properties.PauseDoesNotGate: says mint and burn ignore the switch. That is the intended design. An OpenZeppelin `ERC20Pausable` base would also block mint and burn while paused. The contract is not part of this model and the suite never mints or burns while paused.
- Token.TransferFrom: checks the pause switch before the allowance. An OpenZeppelin implementation spends the allowance before the pause hook runs. Every failure reverts the whole call, so only the reported reason can differ.
