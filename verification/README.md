# Verified model of the pixie-block node

pixie-block is a small proof-of-authority payment chain. A ledger of accounts changes by payments, account creates
and account closes; blocks carry them; a round-robin of validators seals blocks; nodes gossip blocks and pending
transactions and keep everything in a bbolt store. This project models that node in Dafny, from the ledger
arithmetic up to several nodes on an unreliable network, and proves what it is for: that a producer selects what
everybody accepts, that a commit is all or nothing, that a restarted node is the node that stopped, that no account
loses money without a signature, and that nodes catch up and agree.
Conservation of money and the solvency of the mempool are not kept on all inputs, because amounts are 64-bit integers
that wrap around: there the proofs give the inputs on which they fail and the conditions under which they hold.

Check everything with `dafny verify dfyconfig.toml`.

## How it is built

| module | models |
|---|---|
| `Domain`, `TaxRounding` | entities, the totals of a payment, what truncating basis-point division loses |
| `Crypto` | keys, signatures, what a hash commits to |
| `LedgerRules`, `LedgerEffects`, `LedgerState` | the ledger rules as functions on values, what they mean, and the `State` object whose methods are proved to follow them |
| `Authority`, `Refusals` | what a signature authorises, and that no account loses money without one; that errors are true |
| `MachineInts`, `MachineMoney`, `MachineChains` | the same ledger and its chains on 64-bit integers that wrap around: when that makes no difference, and exactly which accepted payments, runs and chains keep money |
| `Mempool`, `Admission`, `Solvency` | the three pools, the two admission checks, whole runs of a node fed from its own pool |
| `SolventSlots` | the same for the selection and the slots of the bridge |
| `MachineMempool`, `MachineSlots` | admission, whole runs, selection and slots on 64-bit integers: exactly when they are those on unbounded ones |
| `ChainRules`, `Chain` | replay, what the tip hash fixes, conservation, id indexes; the `Blockchain` object and `New` |
| `Bootstrap`, `Configured`, `Store`, `Restart` | configuration to ledger, what it means entry by entry, the store, crash and restart |
| `Production`, `Slots`, `Sync`, `Bridge` | producer and selection, the round robin, batches from peers, the object that ties pools, chain and producer together |
| `Followers`, `Syncing`, `Gossip` | catching up under another keystore; how a node finds out that it is behind, and what other messages come to |
| `Network` | message dispatch, several nodes, agreement |
| `Locks` | lock order, mutual exclusion, deadlock freedom, termination |
| `Witnesses` | concrete inputs, each from a configuration the node starts with, on which the code does not keep a property |

Objects whose fields the source updates in place are classes (`State`, `OrderedPool`, `Pool`, `Store`, `Blockchain`,
`Producer`, `Bridge`); their methods keep the source's loops and order of steps and are specified by functions on
values (`LedgerRules.Run`, `ChainRules.Replay`, `Production.Attempt`, `Sync.ReceiveAll`, ...). The theorems are about
those functions and about runs built from them.

A digest is the unsigned content it was computed from, and a signature is the pair of key and message, so that
collision freedom and unforgeability hold by construction. Ed25519 (section 5.1 of RFC 8032) and SHA-256 (section 6.2
of FIPS 180-4) are not part of this model. Two values come from outside and are parameters: the clock (`now`) and
whether the database accepts an update (`ioOk`, `io`).

## What came out of the proofs

- Amounts are 64-bit integers and nothing checks that sums, products and balances stay in range. Three accepted payments
  do not keep money: one whose discounts add up to 2^64 raises the supply by that much
  (`Witnesses.SplittingPaymentMakesMoney`); one unit between two accounts that both hold 2^63 - 1 overflows the payee
  (`Witnesses.FullPayeeOverflows`); and at the shipped rate of 17% an amount of 5425512962855751 has a negative tax, which
  the treasury pays (`Witnesses.NegativeTaxIsTaken`). From non-negative balances below 2^63, an accepted payment without
  a negative tax keeps money, update by update, if and only if its taxes and discounts together stay below 2^63 and no
  balance it leaves, computed exactly, reaches 2^63 (`MachineMoney.MachinePaymentConservesIff`); a negative tax needs a
  product that overflows. `MachineMoney.KeepsMoneyIffExact` covers every accepted payment, and
  `MachineMoney.MachineRunConservesIff` and `MachineChains.MachineChainConservesIff` every accepted run and chain. With a
  supply below 2^63 and products in range the condition is the sum of taxes and discounts alone
  (`MachineMoney.RunKeepsMoneyIff`); a check of that sum is what the code lacks.
- For the same reason the mempool can promise money that is not there. A payment whose discounts wrap is admitted, is
  applied, and pushes its payee below zero; the payee's own payment, which the fast check has admitted too, is refused
  by the replaying check and dropped by selection (`Witnesses.FastAdmitsWhatReplayRefuses`,
  `Witnesses.AdmittedPaymentIsDropped`). With a supply below 2^63 and products in range, a 64-bit run of a node is a run
  on unbounded integers if and only if every admitted payment's gross, and its taxes and discounts together, stay below
  2^63 (`MachineMempool.MachineRunIsRunIff`), and then every reservation is covered and no admitted payment is dropped
  (`MachineMempool.MachineMempoolStaysSolvent`, `MachineSlots.MachineSlotStaysSolvent`), and fast admission refines the
  replaying check (`MachineMempool.MachineFastAdmissionRefinesSlow`). What selection picks replays when it is appended
  whatever wraps (`MachineSlots.MachineSelectionReplays`).
- `LedgerEffects`, `Admission`, `Solvency`, `SolventSlots` and `ChainRules` are about unbounded integers, on which such
  payments are rejected; `MachineMoney.RunIsExactIff` and `MachineChains.MachineReplayIsReplayIff` say when that is what
  the code does.
- A signature fixes every field of what it was made over but the fraction of a second, for payments, creates, closes and
  blocks, and over any accepted run an account that ends with less than it began with has signed a payment under its
  registered key, or a validator has signed its close (`Authority.DebitsAreAuthorised`). On 64-bit integers that holds of
  runs that keep money and post no negative tax (`Authority.MachineDebitsAreAuthorised`); the payee of
  `Witnesses.FullPayeeOverflows` loses its balance without having signed anything.
- The check for a split mismatch can never be the reason a payment is rejected, overflow or not. The check for a
  non-positive gross can only when the gross wraps (`LedgerEffects.PaymentAcceptedIff`,
  `MachineMoney.MachineAcceptedIff`). The unknown-tax-code return in the middle of posting is unreachable after
  validation, which is what makes `ApplyTransaction` atomic.
- `validateChain` replays old signatures against the keystore of today. Restart succeeds exactly when that keystore
  agrees with the first-start one on every account whose key the chain needs before the chain itself has set it
  (`Restart.RestartAcceptsIff`). Closing a genesis account through the API removes its keystore entry
  (`internal/api/accounts.go:293`), after which the node no longer starts
  (`Restart.RemovingClosedAccountBreaksRestart`; `Witnesses.ClosingGenesisAccountStopsNode` is such a node). Blocks from
  peers are subject to the same condition: a follower that starts with another keystore catches up exactly when it agrees
  with its peer on the accounts whose keys the missing blocks need (`Followers.FollowerCatchesUpIff`,
  `Network.NetworkCatchesUpIff`).
- `NewProducer` compares its key with the first genesis entry of its id, the ledger verifies with the last one. They
  agree exactly under the condition of `Production.RegisteredIff`; with two entries of one id and different keys the
  node starts and none of its blocks is ever accepted (`Production.DuplicateIdStallsProducer`).
- `ValidateBlock` does not check slots. Agreement still holds without Byzantine validators, because every node only
  signs in its own slot and broadcasts only what its own chain has taken, and no chain ever shrinks. The network itself
  may do anything short of forging validator signatures.
- `ProduceBlockIfReady` does not take the bridge lock, so height, content and tip are read at three moments between which
  blocks from peers can be appended. A seal that has gone stale is refused by `AppendBlock`, and one that is not refused
  is a seal on the current tip (`Network.StaleSealIsCurrent`); agreement is proved over runs with that interleaving.
- A handshake or an announced block that tells a node it is behind makes it ask for exactly the blocks it lacks, and the
  answer catches it up; two nodes that connect end up with equal chains and ledgers (`Syncing.HandshakeCatchesUp`,
  `Syncing.BlockCatchesUp`, `Syncing.ConnectingEqualises`). A gap inside an answer is not asked about again, so every
  exchange ends (`Gossip.ExchangesEnd`).
- The counter `reserved` is sound only because `Commit` releases it before it gives up the pool lock: between append
  and release it can exceed the balance (`Solvency.UnreleasedReservationCanExceedBalance`;
  `Witnesses.ReservationExceedsBalance` is a run that does).

## Model

| member | source | states |
|---|---|---|
| Domain.GrossAmount | internal/domain/transaction.go:57-63 | the loop computes the sum of the item amounts, the empty payment included |
| Domain.LineItemTaxTotal | internal/domain/transaction.go:85-95 | the loop computes the truncated tax of each known code on the item; unknown codes are skipped, repeated ones count again |
| Domain.LineItemDiscountTotal | internal/domain/transaction.go:97-103 | the loop computes the sum of the item's discounts |
| Domain.TaxTotal | internal/domain/transaction.go:65-71 | tax is truncated per item and code, then summed, never on the sum |
| Domain.DiscountTotal | internal/domain/transaction.go:73-79 | the sum of all discounts of all items |
| Domain.NetToPayee | internal/domain/transaction.go:81-83 | what is left of the gross after taxes and discounts, of either sign |
| TaxRounding.TaxRoundingBound | internal/domain/transaction.go:65-95 | on unbounded integers, 10000 times the tax total misses the exact tax by at most 9999 per (item, code) pair, and with non-negative rates and amounts never exceeds it |
| TaxRounding.TotalsAdd | internal/domain/transaction.go:57-79 | gross, taxes and discounts of two lists of items together are those of the lists added up |
| TaxRounding.TotalsOfOneItem | internal/domain/transaction.go:85-103 | an item grosses its amount, is taxed one ten-thousandth of it per basis point of a known code, truncated toward zero, and discounted what its discounts say; with the additivity lemmas this fixes every total |
| TaxRounding.SplittingLowersTax | internal/domain/transaction.go:85-95 | splitting an amount in two never raises its tax and lowers it by at most one unit per code |
| TaxRounding.FullRatesLeaveNet | internal/domain/transaction.go:81-95 | item rates of at most 100% in total and no discounts leave the payee a non-negative net |
| Crypto.BlockSignBytes | internal/crypto/canonical.go:75-118 | the three loops build exactly the unsigned content of the block, timestamps cut to the second |
| Crypto.HashCommitsToContent | internal/crypto/canonical.go:75-118 | two blocks have the same hash if and only if they differ at most in hash, signatures and fractions of a second |
| Authority.SignBytesCommit | internal/crypto/canonical.go:49-73 | sign bytes of two payments, creates or closes are equal if and only if every field but signature and fraction of a second is, and those of different kinds never are |
| Authority.SignatureFixesPayment | internal/ledger/state.go:149-159 | an accepted payment whose signature was made over some payment is that payment, field by field, and the key is the one registered for its payer |
| Authority.SignatureFixesPaymentM | internal/ledger/state.go:149-159 | the same for what 64-bit validation accepts |
| Authority.SignatureFixesCreate | internal/ledger/state.go:253-262 | the same for creates, under the key of some validator |
| Authority.SignatureFixesClose | internal/ledger/state.go:348-366 | the same for closes, under a validator's key for a person and the owner's for a merchant |
| Authority.AcceptedIsSigned | internal/ledger/state.go:85-368 | no operation is accepted without a signature made over an operation of its own kind |
| Authority.SignatureFixesBlock | internal/ledger/state.go:395-414 | an accepted block whose signature was made over some block has its content, and the key is that of the validator it names |
| Authority.DebitsAreAuthorised | internal/ledger/state.go:187-385 | on unbounded integers, over any accepted run: an account that ends with less than it began with has signed one of the payments, or a validator has signed its close |
| Authority.MachineDebitsAreAuthorised | internal/ledger/state.go:187-385 | the same on 64-bit integers, for runs that keep money and post no negative tax |
| LedgerEffects.PaymentAcceptedIff | internal/ledger/state.go:85-162 | on unbounded integers, validation accepts exactly the admissible payments the payer can cover, and two of its error returns are never taken; MachineMoney.MachineAcceptedIff is the 64-bit form |
| LedgerEffects.PaymentEffect | internal/ledger/state.go:187-226 | on unbounded integers, exact new balance, existence, id and type of every account after a payment, however payer, payee and tax accounts coincide and whether or not they existed; nothing else changes |
| LedgerEffects.CreateAcceptedIff | internal/ledger/state.go:228-273 | a create is accepted exactly for a new, empty person or merchant account with a usable key, signed by some validator |
| LedgerEffects.CreateEffect | internal/ledger/state.go:276-291 | it adds one account with balance zero and its key and changes nothing else |
| LedgerEffects.CloseAcceptedIff | internal/ledger/state.go:293-368 | a person is closed by any validator into the existing account the close names, or the federal treasury if it names none, never into itself; a merchant only when empty, without destination and by its owner; the key given must be the registered one |
| LedgerEffects.CloseEffect | internal/ledger/state.go:371-385 | exact new contents of every account and key: one of each goes, a person's positive balance goes in full to the destination the close names or else to the federal treasury, which keeps id and type |
| Refusals.PaymentRefusal | internal/ledger/state.go:85-162 | the error with which a payment is refused is true of it and of the ledger, in every case and with what it names |
| Refusals.CreateRefusal | internal/ledger/state.go:228-264 | so is the error of a refused create |
| Refusals.CloseRefusal | internal/ledger/state.go:300-368 | so is the error of a refused close |
| Refusals.BlockRefusal | internal/ledger/state.go:387-434 | the error of a refused block is true of its header, or else that of its first operation that cannot be applied |
| LedgerEffects.ApplyConserves | internal/ledger/state.go:187-385 | on unbounded integers, payments, creates and both kinds of close keep the sum of all balances, and keep balances non-negative |
| LedgerEffects.RunConserves | internal/ledger/state.go:387-434 | the same over any accepted sequence of operations, on unbounded integers |
| LedgerEffects.PaymentStepsBounded | internal/ledger/state.go:192-223 | on unbounded integers, after any number of a payment's balance updates every balance is between zero and the money supply |
| LedgerEffects.RunFrame | internal/ledger/state.go:387-434 | no operation touches taxes, allowed tax accounts or validators |
| LedgerState.State.Clone | internal/ledger/state.go:38-55 | a new object with the same contents |
| LedgerState.State.AddToBalance | internal/ledger/state.go:195-201 | the read-modify-write of one balance, in which a missing account comes into existence |
| LedgerState.ValidateTransaction | internal/ledger/state.go:85-162 | returns exactly the result and error of the payment rules |
| LedgerState.VerifyAnyValidator | internal/ledger/state.go:266-273 | finds a verifying validator if and only if there is one, whatever the iteration order |
| LedgerState.ValidateAccountCreate | internal/ledger/state.go:228-264 | returns exactly the result and error of the create rules |
| LedgerState.ValidateAccountClose | internal/ledger/state.go:300-368 | returns exactly the result and error of the close rules |
| LedgerState.ApplyTransaction | internal/ledger/state.go:187-226 | either the whole payment is posted, in order, or an error is returned and the state is as it was |
| LedgerState.ApplyAccountCreate | internal/ledger/state.go:276-291 | account and key are added, or the state is as it was |
| LedgerState.ApplyAccountClose | internal/ledger/state.go:371-385 | a positive balance of a person goes to the destination, then account and key go, or the state is as it was |
| LedgerState.ValidateBlock | internal/ledger/state.go:387-434 | returns a fresh state that is the block's replay on the given one, or the first error; the given state is never written |
| MachineInts.WrapsApart | internal/domain/transaction.go:57-103 | a wrapped value is the one in the 64-bit range that is whole multiples of 2^64 away |
| MachineInts.TotalsWrapOnce | internal/domain/transaction.go:57-103 | without overflowing products each 64-bit total is the exact total wrapped once, whatever wrapped on the way |
| MachineInts.ApplyIsExact | internal/ledger/state.go:132-223 | under a money supply below 2^63 an operation whose own totals fit does on 64-bit integers what it does on unbounded ones, errors included |
| MachineInts.MachineRunIsExact | internal/ledger/state.go:416-434 | the same over any sequence of operations; MachineMoney.RunIsExactIff has the exact condition for accepted ones |
| MachineMoney.MachineAcceptedIff | internal/ledger/state.go:85-162 | validation on 64-bit integers, as one condition; a split mismatch is never a reason, a non-positive gross exactly when the gross wraps to one |
| MachineMoney.NetWraps | internal/domain/transaction.go:81-83 | the 64-bit net is the 64-bit gross less everything posted to treasuries, wrapped once |
| MachineMoney.UpdatesSumToZeroIff | internal/ledger/state.go:192-223 | for every payment: its balance updates sum to zero if and only if gross less splits is a 64-bit integer |
| MachineMoney.AcceptedUpdatesSumToZeroIff | internal/ledger/state.go:192-223 | for an accepted payment with products in range and non-negative rates: if and only if taxes and discounts together stay below 2^63 |
| MachineMoney.MachinePaymentConservesIff | internal/ledger/state.go:187-226 | from non-negative balances below 2^63, an accepted payment that posts no negative tax keeps every balance between zero and the supply after every single update, and keeps the supply, if and only if what it posts to treasuries adds up to less than 2^63 and no exact balance it leaves reaches 2^63 |
| MachineMoney.KeepsMoneyIffExact | internal/ledger/state.go:187-226 | any accepted payment, negative taxes included, keeps money if and only if its gross less its splits is a 64-bit integer and the exact balances after every update stay between zero and the supply and below 2^63 |
| MachineMoney.SmallSupplyConservesIff | internal/ledger/state.go:187-226 | under a supply below 2^63 the condition on balances holds by itself |
| MachineMoney.MachineRunConservesIff | internal/ledger/state.go:416-434 | from non-negative balances below 2^63, any accepted run of payments, creates and closes keeps money at every step if and only if every operation fits the ledger it is applied to, and then ends with the supply it started with |
| MachineMoney.RunKeepsMoneyIff | internal/ledger/state.go:416-434 | with a supply below 2^63 and products in range, an accepted run keeps money if and only if in every payment the exact taxes and discounts together stay below 2^63 |
| MachineMoney.RunIsExactIff | internal/ledger/state.go:416-434 | what the unbounded rules accept, 64-bit arithmetic does identically; an accepted 64-bit run is the unbounded one if and only if every gross, and every sum of taxes and discounts, stays below 2^63 |
| MachineMoney.MachinePaymentEffect | internal/ledger/state.go:187-226 | the exact new balance of every account after any accepted 64-bit payment, wrapped once, and existence, id and type, however accounts coincide and whatever wraps; nothing else changes |
| MachineMoney.MachineCloseEffect | internal/ledger/state.go:371-385 | exact new contents of every account and key after a 64-bit close, the balance that receives the sweep wrapped once |
| MachineMoney.TaxIsExactIff | internal/domain/transaction.go:85-95 | a 64-bit tax is the exact one, and within one unit of the exact share, if and only if its product does not overflow |
| MachineMoney.MachineTaxRounding | internal/domain/transaction.go:65-95 | with products in range the 64-bit tax total is the exact one if and only if that fits, and then it obeys the rounding bound |
| MachineChains.ReplayMIsRun | internal/chain/blockchain.go:165-174 | on 64-bit integers, a chain is accepted if and only if all headers link and all operations run, and then its ledger is that of the run |
| MachineChains.MachineChainConservesIff | internal/chain/blockchain.go:165-174 | a chain accepted on 64-bit integers keeps money at every step if and only if every operation fits the ledger it is applied to, and then has the genesis supply, with every balance between zero and it |
| MachineChains.MachineReplayIsReplayIff | internal/chain/blockchain.go:165-174 | with a supply below 2^63 and products in range, a chain accepted on unbounded integers is accepted identically on 64-bit ones, and one accepted on 64-bit ones identically on unbounded ones if and only if every payment's totals fit |
| Witnesses.SplittingPaymentMakesMoney | internal/ledger/state.go:119-142 | an accepted payment that raises the money supply by 2^64, on the first ledger of a configuration that starts |
| Witnesses.FullPayeeOverflows | internal/ledger/state.go:195-205 | an accepted payment of one unit, without taxes, that leaves its payee with -2^63 and no signature of its own |
| Witnesses.NegativeTaxIsTaken | internal/domain/transaction.go:85-95 | an accepted payment at 1700 basis points whose product wraps, so that the tax is negative and the treasury goes below zero |
| Mempool.OrderedPool.TryAdd | internal/mempool/account_creates.go:24-39 | admits at the end of the order unless the id is pending or the check fails, and then changes nothing |
| Mempool.OrderedPool.Remove | internal/mempool/account_creates.go:57-68 | exactly the listed ids leave, the rest keeps its order; unknown and repeated ids are harmless |
| Mempool.OrderedPool.Peek | internal/mempool/account_closes.go:70-83 | the first entries in admission order, all of them for a non-positive maximum |
| Mempool.Pool.TryAdd | internal/mempool/pool.go:27-45 | the check sees what is reserved without the new payment; admission adds it at the end and reserves its gross; rejection changes nothing |
| Mempool.Pool.Remove | internal/mempool/pool.go:51-95 | exactly the listed ids leave and the counters still equal the pending gross |
| Mempool.Pool.Peek | internal/mempool/pool.go:97-110 | the first payments in admission order |
| Mempool.KeepListedLists | internal/mempool/pool.go:80-86 | the rebuilt order is duplicate-free, lists exactly the remaining items and keeps their order |
| Mempool.AdmissionReserves | internal/mempool/pool.go:41-44 | admission keeps every payer's counter equal to their summed pending gross |
| Mempool.ReleaseAccounts | internal/mempool/pool.go:70-95 | so does releasing one item, deletion of an exhausted counter included |
| Mempool.RemovalReleases | internal/mempool/pool.go:70-78 | removing one item lowers its payer's pending gross by its own gross and nobody else's |
| Admission.AdmittedIff | internal/chain/blockchain.go:270-282 | on unbounded integers, the fast check accepts exactly the admissible payments whose gross is covered by balance less reservation |
| Admission.FastAdmissionRefinesSlow | internal/chain/blockchain.go:270-309 | on unbounded integers, what the fast check accepts, the replaying check accepts for the pending payments in any order, skipped failures included |
| SolventSlots.ReplayedIsTried | internal/chain/blockchain.go:298-309 | the replaying check looks at the ledger that trying all waiting payments in order, as selection does, leads to |
| Admission.PaymentIsGentle | internal/ledger/state.go:187-226 | on unbounded integers, an applied payment takes its gross from its payer, nothing from anybody else, and leaves every other payment admissible |
| Solvency.MempoolStaysSolvent | internal/p2p/bridge.go:180-269 | on unbounded integers, in every reachable state where admission can run, every payer's reservation is covered by the confirmed balance, and selection never drops an admitted payment |
| Solvency.NextIsExecutable | internal/p2p/bridge.go:256-266 | on unbounded integers, whatever selection tries next applies on the scratch ledger |
| Solvency.SealedAlwaysAppends | internal/p2p/bridge.go:199-225 | on unbounded integers, what was selected still replays when it is appended, admissions in between notwithstanding |
| Solvency.UnreleasedReservationCanExceedBalance | internal/mempool/pool.go:57-68 | between append and release the reservation can exceed the balance, which is what holding the lock hides |
| Witnesses.ReservationExceedsBalance | internal/mempool/pool.go:57-68 | a run of seven states that gets there, from the first ledger of a configuration that starts |
| SolventSlots.SelectionDropsNoPayment | internal/p2p/bridge.go:252-269 | on unbounded integers, selection from a covered pool drops no payment and picks a prefix of what waits, whatever the cap and the creates and closes beside it |
| SolventSlots.SlotStaysSolvent | internal/p2p/bridge.go:180-229 | on unbounded integers, after a slot of a node without pending closes, what is left in its pool is covered by the ledger it leaves |
| SolventSlots.AdmissionStaysSolvent | internal/mempool/pool.go:27-45 | on unbounded integers, so is the pool after any admission or rejection |
| MachineMempool.AdmittedMIff | internal/chain/blockchain.go:270-282 | the fast check on 64-bit integers, as one condition, the wrapping subtraction of the reservation included |
| MachineMempool.AdmissionIsExactIff | internal/chain/blockchain.go:270-282 | with a supply below 2^63 and products in range, what the unbounded fast check admits the 64-bit one admits, and what the 64-bit one admits the unbounded one admits if and only if the payment's totals fit |
| MachineMempool.PendingGrossWraps | internal/mempool/pool.go:41-44 | what a payer has reserved is the exact pending gross wrapped once |
| MachineMempool.CountersAreExact | internal/mempool/pool.go:87-95 | for a counter and a gross in range, releasing never wraps, and reserving does not if and only if the counter with the payment in it stays below 2^63 |
| MachineMempool.MachineFastAdmissionRefinesSlow | internal/chain/blockchain.go:270-309 | on 64-bit integers, if the supply, the totals of the payments and the payer's pending gross stay below 2^63, what the fast check accepts the replaying check accepts for the pending payments in any order |
| MachineMempool.MachinePaymentIsGentle | internal/ledger/state.go:187-226 | on 64-bit integers, an applied payment that fits takes at most its gross from its payer and nothing from anybody else |
| MachineMempool.MachineNextIsExecutable | internal/p2p/bridge.go:256-266 | on 64-bit integers, if the supply and the totals of pending payments fit, whatever selection tries next applies |
| MachineMempool.MachineMempoolStaysSolvent | internal/p2p/bridge.go:180-269 | in every 64-bit run from a supply below 2^63 whose admitted payments fit, every reservation is exact and covered by the confirmed balance, and selection drops no admitted payment |
| MachineMempool.MachineRunIsRunIff | internal/p2p/bridge.go:180-269 | with a supply below 2^63 and products in range, a 64-bit run is a run on unbounded integers if and only if every admitted payment's totals fit |
| Witnesses.FastAdmitsWhatReplayRefuses | internal/chain/blockchain.go:270-309 | two payments on a first ledger with a supply below 2^63, products in range, that the fast check admits; the replaying check refuses the second |
| Witnesses.AdmittedPaymentIsDropped | internal/p2p/bridge.go:256-269 | a run from there in which selection drops the second |
| MachineSlots.MachineSelectionReplays | internal/p2p/bridge.go:232-289 | on 64-bit integers, whatever wraps, what selection picks replays as one block body to the scratch ledger |
| MachineSlots.MachineSelectionIsSelection | internal/p2p/bridge.go:232-289 | with a supply below 2^63 and waiting payments whose totals fit, selection on 64-bit integers picks and drops what selection on unbounded ones does |
| MachineSlots.MachineSelectionDropsNoPayment | internal/p2p/bridge.go:252-269 | then, from a covered pool, it drops no payment and picks a prefix |
| MachineSlots.MachineSlotStaysSolvent | internal/p2p/bridge.go:180-229 | then a 64-bit slot of a node without pending closes leaves a covered pool |
| MachineSlots.MachineAdmissionStaysSolvent | internal/mempool/pool.go:27-45 | then so does a 64-bit admission or rejection of a payment that fits |
| ChainRules.ReplayIsRun | internal/chain/blockchain.go:165-174 | a chain is accepted if and only if all headers link and all operations run, and then its ledger is that of the run |
| ChainRules.BlockRunsInStages | internal/ledger/state.go:416-434 | a block with an accepted header is accepted if and only if its creates run on the ledger, its payments on what they leave and its closes on what those leave |
| ChainRules.AcceptedHeights | internal/ledger/state.go:388-390 | in an accepted chain heights and positions differ by a constant |
| ChainRules.TipHashDeterminesLedger | internal/ledger/state.go:387-434 | two accepted chains with equal tip hashes have the same unsigned content at every height and lead to the same ledger, whatever signatures they carry |
| ChainRules.ReplayConserves | internal/chain/blockchain.go:165-174 | on unbounded integers, an accepted chain keeps the genesis money supply and every balance between zero and it |
| ChainRules.IndexIsLastOccurrence | internal/chain/blockchain.go:327-335 | an id is indexed if and only if it occurs, and then with its last occurrence in block order |
| Chain.IndexesAreOfAll | internal/chain/blockchain.go:61-72 | indexing block by block gives the same maps as indexing all transactions at once |
| Chain.Blockchain.GetBlock | internal/chain/blockchain.go:202-211 | the scan for a height is indexing |
| Chain.Blockchain.GetBlocksFrom | internal/chain/blockchain.go:213-223 | the scan returns a suffix of the chain |
| Chain.Blockchain.GetTransaction | internal/chain/blockchain.go:225-230 | finds the last occurrence of an id on the chain, or nothing if it never occurs |
| Chain.Blockchain.ValidateAdmit | internal/chain/blockchain.go:272-282 | one subtraction on a clone, then validation; the chain's state is untouched |
| Chain.Blockchain.ValidatePendingWith | internal/chain/blockchain.go:298-309 | replay of the pending payments on a clone, failures skipped, then validation |
| Chain.Blockchain.AppendBlock | internal/chain/blockchain.go:311-338 | chain, ledger, indexes and durable record advance together, or nothing changes at all; a ledger that is the replay of the chain stays that, and the store durable |
| Chain.HydrateAccountCreatePubKeys | internal/chain/blockchain.go:97-111 | the pass over the stored blocks, with the first malformed key as its error |
| Chain.ValidateChain | internal/chain/blockchain.go:135-177 | replays the stored chain from configuration alone and returns the first error; the empty chain is one |
| Chain.FirstStart | internal/chain/blockchain.go:46-59 | genesis block and first state in two updates, the store durable after each, and in the end a live chain |
| Chain.Open | internal/chain/blockchain.go:27-95 | a first start on an empty store; otherwise the stored blocks in height order with rebuilt indexes and the ledger that booting prescribes, or its error with the store untouched; on an empty store what is durable after each possible failure |
| Chain.OpenedIsLive | internal/chain/blockchain.go:74-94 | a chain opened on a durable store is the replay from the ledger it was opened with |
| Bootstrap.HydrateState | internal/node/bootstrap.go:53-72 | adds validators, then account keys, later entries winning, or fails on the first malformed key |
| Bootstrap.HydrateIdempotent | internal/node/bootstrap.go:53-72 | hydrating a hydrated ledger again changes nothing |
| Bootstrap.BuildInitialState | internal/node/bootstrap.go:13-51 | succeeds exactly for valid taxes and well-formed keys, with the configured ledger |
| Bootstrap.ValidateTaxes | config/config.go:110-130 | accepts exactly the non-empty tables with non-negative rates and allowed tax accounts |
| Bootstrap.InitialLedgerIsSound | internal/node/bootstrap.go:13-51 | from non-negative genesis balances and validated taxes the first ledger has non-negative balances and rates |
| Configured.FirstLedgerIff | internal/node/bootstrap.go:33-72 | there is a first ledger if and only if every configured key can be decoded |
| Configured.FirstLedgerIsConfigured | internal/node/bootstrap.go:13-72 | it holds exactly the configured accounts, account keys and validators, the last entry of an id winning, and the configured taxes and allowed tax accounts |
| Configured.TaxAccountsNeverRefused | config/config.go:110-130 | after start-up no payment is ever refused because the account of a tax is not allowed |
| Store.SortByHeight | internal/storage/bolt/store.go:117-124 | the exchange sort leaves a height-ordered permutation, in place |
| Store.Store.SaveBlockAndState | internal/storage/bolt/store.go:79-97 | block and projected state in one update, or neither |
| Store.Store.LoadBlocks | internal/storage/bolt/store.go:99-127 | every stored block once, by increasing height, in whatever order the bucket is visited |
| Store.Store.LoadState | internal/storage/bolt/store.go:162-188 | restores the projection: no validator keys, no account keys |
| Store.ListingOfChain | internal/storage/bolt/store.go:99-127 | a store holding heights 0 to n-1 lists exactly the chain |
| Restart.HistoryIsDurable | internal/storage/bolt/store.go:65-97 | after any number of store transactions, crashes and restarts under changing keystores the store holds exactly the chain so far and the projection of its replay |
| Restart.RestartRecovers | internal/chain/blockchain.go:27-95 | after a crash between any two store transactions of such a life, booting with the keystore last started with gives back exactly the chain and the live ledger, keys included |
| Restart.RestartRebases | internal/chain/blockchain.go:74-92 | a node started with another keystore is from then on one that had it from the beginning |
| Restart.FirstStartPersists | internal/chain/blockchain.go:46-59 | both writes of a first start are updates of such a life |
| Restart.AppendPersists | internal/storage/bolt/store.go:79-97 | so is what an accepted append writes |
| Restart.RestartAcceptsIff | internal/chain/blockchain.go:74-92 | with another keystore booting succeeds if and only if it agrees on every account whose key the chain needs, and then only account keys can differ |
| Restart.RestartRecoversIff | internal/chain/blockchain.go:74-92 | it rebuilds the live ledger exactly if and only if it also agrees on every account the chain neither created nor closed; extra entries for accounts created on chain are harmless |
| Restart.RunUnderOtherKeys | internal/ledger/state.go:153-159 | accepted operations replay under other initial keys if and only if those agree on the needed accounts |
| Restart.ChainKeysAre | internal/chain/blockchain.go:97-111 | rehydrating keys from the chain gives the keys that applying its operations would |
| Restart.RemovingClosedAccountBreaksRestart | internal/api/accounts.go:293 | a keystore without a closed genesis account's entry makes booting fail |
| Witnesses.ClosingGenesisAccountStopsNode | internal/api/accounts.go:293 | a node, from a configuration that starts, that starts with its keystore and, its account closed and the entry removed, does not |
| Restart.GenesisBlockIsGenesis | internal/chain/blockchain.go:113-133 | the genesis block has height zero, no transactions, no predecessor and no signature, the configured time, the first configured validator, and carries its own hash |
| Production.NewProducer | internal/consensus/poa/producer.go:19-52 | finds the first entry with the id and accepts exactly a key that matches it |
| Production.RegisteredIff | internal/consensus/poa/producer.go:19-52 | the ledger registers the checked key if and only if the last entry with the id has the key of the first |
| Production.DistinctIdsRegister | internal/node/bootstrap.go:33-39 | in particular when validator ids are distinct |
| Production.DuplicateIdStallsProducer | internal/consensus/poa/producer.go:22-45 | two entries of one id with different keys: the producer starts and its blocks are never accepted |
| Slots.SlotsGoRound | internal/consensus/poa/producer.go:54-61 | height zero belongs to the validator the genesis block names and each next height to the next genesis entry, the first again after the last; a producer may produce exactly at the heights of its id |
| Slots.EveryEntryHasOneTurn | internal/consensus/poa/producer.go:54-57 | among any as many consecutive heights as there are entries, exactly one is the turn of each |
| Slots.EveryProducerHasASlot | internal/consensus/poa/producer.go:54-61 | so every producer may produce at one of them, and with distinct ids at no other |
| Production.Producer.CreateBlock | internal/consensus/poa/producer.go:63-91 | refuses foreign slots; otherwise hash and signature cover the block's unsigned content |
| Production.SealedBlockCarries | internal/consensus/poa/producer.go:63-91 | a sealed block carries the given height, transactions and time, the parent's hash, the producer's id, its own hash and a signature over its own content |
| Production.SealedHeaderIff | internal/consensus/poa/producer.go:68-88 | a sealed block one above its parent passes the header checks if and only if the ledger registers its key; otherwise the error is the unknown validator or the invalid signature, and no other check can fail |
| Production.ChosenRunsToScratch | internal/p2p/bridge.go:237-284 | what was chosen replays to exactly the scratch ledger; everything tried was either chosen or dropped |
| Production.CapHolds | internal/p2p/bridge.go:237-240 | stopping at the cap never exceeds it |
| Production.SelectPayments | internal/p2p/bridge.go:252-266 | tries the queue in order until the cap is reached; choices, drops and scratch state are those of the specification |
| Production.SelectionReplays | internal/p2p/bridge.go:232-289 | creates, payments and closes picked under one cap fit it together and replay as one block body to the scratch ledger |
| Production.ProducedBlockIsAccepted | internal/p2p/bridge.go:194-225 | the selection sealed on the tip is accepted on the ledger it was made on if and only if that ledger registers the key, leads exactly to the scratch ledger, and is otherwise refused for the seal alone |
| Sync.ReceiveAllKeepsWellFormed | internal/p2p/bridge.go:139-178 | whatever a batch contains, the chain only grows and the ledger stays its replay |
| Sync.PeerBatch | internal/p2p/bridge.go:139-178 | for any batch of peer blocks, repeated, stale, reordered or with gaps, the chain keeps agreeing with the peer's, copies what it appends, and how far it climbs or whether it reports a gap depends on heights alone |
| Sync.SyncReplyCatchesUp | internal/p2p/bridge.go:131-178 | the blocks from a height at most one above the local one give the local chain the peer's content and its ledger, or leave a longer one alone; the chains need to agree on content only |
| Followers.FollowerCatchesUpIff | internal/p2p/bridge.go:131-178 | a follower whose first-start ledger has other account keys appends all missing blocks, with the peer's ledger but for those keys, if and only if at its height it agrees with the peer on every account whose key the missing blocks need; otherwise it is left shorter with an error |
| Followers.CopyCatchesUpIff | internal/p2p/bridge.go:131-178 | a follower whose blocks are the peer's own, the genesis block alone included, catches up if and only if the two keystores agree on every account whose key the peer's chain needs |
| Bridge.Bridge.Commit | internal/p2p/bridge.go:163-171 | the nested commits append, write block and ledger to the store, and remove exactly the block's ids from all three pools, or leave chain, store, pools and reservations unchanged |
| Bridge.Bridge.ApplyBlocks | internal/p2p/bridge.go:139-178 | a batch does to chain, ledger, pools and result exactly what the value-level rules say |
| Bridge.AppendedLeavePools | internal/p2p/bridge.go:151-172 | exactly the transactions of the blocks a batch appended leave the pools |
| Bridge.PaymentsLeaveAtOnce | internal/p2p/bridge.go:151-154 | removing block by block equals removing all their ids at once |
| Bridge.Bridge.SelectExecutable | internal/p2p/bridge.go:232-289 | the three stages are the specified selection, and the pools lose exactly what was tried and failed |
| Bridge.SelectionDropsFailing | internal/p2p/bridge.go:232-289 | a waiting transaction is dropped if and only if it was tried and could not be applied when its turn came |
| Bridge.SlotLeavesUntried | internal/p2p/bridge.go:180-289 | a slot that makes a block keeps to the cap and leaves in the pools exactly what it did not try, nothing if it stayed below the cap |
| Bridge.Bridge.ProduceBlockIfReady | internal/p2p/bridge.go:180-229 | in its own slot a node makes a block if and only if something could be picked, its key is registered and the store works; an error comes back if and only if something was picked and it does not make one, and names the first of unknown validator, invalid signature and store failure that applies; a block holds at most the configured number of transactions, 100 if that is not positive, and fewer only if all three pools are tried to the end and left empty; chain, ledger and pools afterwards are exactly determined; in other slots nothing happens |
| Bridge.SlotExtendsChain | internal/p2p/bridge.go:199-225 | the block of a slot is one that any replica with the same chain appends, with the same ledger |
| Bridge.Bridge.OnNewTransaction | internal/p2p/bridge.go:75-83 | gossiped payments are admitted by the fast check against what is reserved |
| Bridge.Bridge.OnNewAccountCreate | internal/p2p/bridge.go:85-93 | gossiped creates are admitted if valid on the confirmed ledger and not pending |
| Bridge.Bridge.OnNewAccountClose | internal/p2p/bridge.go:95-103 | gossiped closes likewise |
| Network.Dispatch | internal/p2p/node.go:168-232 | chain, ledger, replies, pools and fate of the connection after any message, undecodable ones and batches included, are what the reaction functions say |
| Network.React | internal/p2p/node.go:168-232 | no message ever shrinks or rewrites a chain; what it answers is in the rows of Syncing and Gossip |
| Syncing.HandshakeCatchesUp | internal/p2p/node.go:168-190 | another chain's handshake is refused; otherwise an inbound one is answered with the node's own height, one from a taller peer with a request that the peer answers with exactly the missing blocks, which leave the node caught up, and one from any other peer with no request |
| Syncing.ConnectingEqualises | internal/p2p/node.go:168-240 | two agreeing nodes that connect end with the same content at every height and the same ledger, whichever was behind |
| Syncing.AnnouncementCatchesUp | internal/p2p/node.go:205-212 | from any batch of peer blocks what fits is appended; if a gap stops it, the answer is a request that makes up for everything missing, otherwise there is none |
| Syncing.BlockCatchesUp | internal/p2p/node.go:205-212 | a stale block changes nothing, the next one is appended, one further ahead makes the node catch up |
| Syncing.KeyedHandshakeCatchesUpIff | internal/p2p/node.go:168-240 | a handshake catches up a node with other account keys, but for those keys, if and only if they suffice for the missing blocks |
| Syncing.RunHandshakeCatchesUp | internal/p2p/node.go:168-240 | in every run, whenever the height was learned, the request answered and the answer applied, the node is caught up with what the peer had when it answered |
| Gossip.PaymentJoinsIff | internal/p2p/bridge.go:75-83 | a gossiped payment joins the end of the pool if and only if its id is not waiting, it is admissible and the balance covers it on top of what is reserved |
| Gossip.CreateJoinsIff | internal/p2p/bridge.go:85-93 | a gossiped create if and only if its id is not waiting and it is valid on the confirmed ledger |
| Gossip.CloseJoinsIff | internal/p2p/bridge.go:95-103 | a gossiped close likewise |
| Gossip.ExchangesEnd | internal/p2p/node.go:168-232 | every reply is of a lower stage than what it answers, so every exchange ends; only another chain's handshake and undecodable messages end a connection |
| Network.SyncRoundTrip | internal/p2p/node.go:205-240 | request and reply, dispatched at either end, catch the requester up with the peer |
| Network.NetworkCatchesUp | internal/p2p/node.go:205-240 | in every run, a requester with the peer's first-start ledger is caught up with what the peer had when it answered, whenever the answer arrives |
| Network.NetworkCatchesUpIff | internal/p2p/node.go:205-240 | in every run, a requester with other account keys is caught up but for those keys if and only if it agrees with what the peer had at its height on every account whose key the missing blocks need |
| Network.StaleSealIsCurrent | internal/p2p/bridge.go:185-225 | a block sealed on heights and tips read earlier is refused, or was sealed on the current tip |
| Network.EarlierReadsMaySeal | internal/p2p/bridge.go:185-200 | any reads of earlier heights and tips of the node are what the network model lets it seal with |
| Network.ProduceIsSealAndAppend | internal/p2p/bridge.go:199-225 | sealing and appending at one go is a case of that |
| Network.SlotIsProduceStep | internal/p2p/bridge.go:180-229 | a slot that ends in a block is a produce step of the network model |
| Network.OneBlockPerHeight | internal/consensus/poa/producer.go:54-61 | over a whole run and all nodes at most one block is broadcast per height |
| Network.ChainsAgree | internal/p2p/bridge.go:139-229 | the chains of any two nodes at any two moments have the same content at every common height |
| Network.LedgersAgree | internal/p2p/bridge.go:139-229 | nodes with the same first-start ledger have the same ledger whenever their chains are equally long |
| Network.ChainsOnlyGrow | internal/p2p/bridge.go:144-171 | along a run every chain only grows |
| Locks.TaskAscends | internal/p2p/bridge.go:139-229 | every task of a node, the paths that end in an error included, takes its locks in strictly increasing rank |
| Locks.CodeDisciplined | internal/mempool/pool.go:60-68 | lock scopes nested in increasing rank never request a lock below one that is held |
| Locks.MutualExclusion | internal/chain/blockchain.go:311-313 | nobody else holds a lock that is held exclusively |
| Locks.AppendingExcludesPools | internal/p2p/bridge.go:163-171 | while a thread appends a block no other is inside any of the three pools, so no admission sees new balances with old reservations |
| Locks.DeadlockFree | internal/p2p/bridge.go:139-229 | in every reachable interleaving with an unfinished thread some thread can step, waiting writers blocking new readers included |
| Locks.RunsAreBounded | internal/p2p/bridge.go:139-229 | no schedule runs forever, so every schedule completes all tasks |

## Left out

- The HTTP API, SSE streaming, templates and viewer redaction (`internal/api/**`) and `tools/**`: plumbing around the operations modelled here. The API's `TryAdd(tx, nil)` for creates and closes is `OrderedPool.TryAdd` without a check.
- Real cryptography, base64 and JSON: sign bytes are an injective function of the unsigned fields. A nil and an empty list, which JSON tells apart, are one value here, and so are strings that JSON replaces because they are not valid UTF-8.
- The README of the repository shows transaction-level `tax_splits` and `discounts`; the code does not read them and neither does the model.
- Sockets, dialling, connection tables and timers (`internal/p2p/node.go`, `cmd/server/main.go`): any interleaving of steps is allowed instead.
- bbolt internals and the NoSync mode: every `db.Update` is one atomic durable step that either happens or reports an error.
- Keystore edits by the API: the keystore of a restart is a parameter, and `Restart` says which ones work.
- Byzantine validators: a validator that signs two blocks in one slot breaks agreement, and the code does not claim otherwise.
- Error texts: an error is a constructor with the data the text carries, without the wrapping prefix of the block or transaction it came from.
- `GetAccountCreate` and `GetAccountClose` are the same lookup as `GetTransaction` on the other two indexes; `Len`, `Get`, `Reserved` and `ChainInfo` are reads of one field.
- The state a failed block leaves in the clone it was replayed on is not specified: nobody can see it.
- Locking inside the objects: methods of `Pool`, `Blockchain` and `Bridge` are sequential here. Interleaving is modelled where it matters, in `Solvency` (admission between the steps of production), `Network` (nodes) and `Locks` (order and progress).
- Solvency.MempoolStaysSolvent: on unbounded integers (MachineMempool.MachineMempoolStaysSolvent is the 64-bit form), and says nothing about a node that also receives blocks from peers or has account closes pending, because reservations are local and such blocks can spend what is reserved; the source makes no promise there either.
- LedgerEffects.PaymentAcceptedIff: on unbounded integers; MachineMoney.MachineAcceptedIff is the 64-bit form.
- LedgerEffects.PaymentEffect: on unbounded integers; MachineMoney.MachinePaymentEffect is the 64-bit form.
- LedgerEffects.ApplyConserves: on unbounded integers; MachineMoney.MachinePaymentConservesIff and MachineMoney.OpKeepsMoneyIff have the 64-bit conditions.
- Authority.DebitsAreAuthorised: on unbounded integers; Authority.MachineDebitsAreAuthorised is the 64-bit form.
- LedgerEffects.RunConserves: on unbounded integers; MachineMoney.MachineRunConservesIff has the 64-bit condition.
- LedgerEffects.PaymentStepsBounded: on unbounded integers; MachineMoney.KeepsMoneyIffExact has the 64-bit condition.
- TaxRounding.TaxRoundingBound: on unbounded integers; MachineMoney.TaxIsExactIff and MachineMoney.MachineTaxRounding say when it holds on 64-bit ones.
- ChainRules.ReplayConserves: on unbounded integers; MachineChains.MachineChainConservesIff has the 64-bit condition.
- Admission.AdmittedIff: on unbounded integers; MachineMempool.AdmittedMIff is the 64-bit form.
- Admission.FastAdmissionRefinesSlow: on unbounded integers, and not kept on 64-bit ones (Witnesses.FastAdmitsWhatReplayRefuses); MachineMempool.MachineFastAdmissionRefinesSlow has the premises.
- Admission.PaymentIsGentle: on unbounded integers; MachineMempool.MachinePaymentIsGentle is the 64-bit form.
- Solvency.NextIsExecutable: on unbounded integers; MachineMempool.MachineNextIsExecutable is the 64-bit form.
- Solvency.SealedAlwaysAppends: on unbounded integers; MachineSlots.MachineSelectionReplays is the 64-bit form for one selection and needs no premise.
- SolventSlots.SelectionDropsNoPayment: on unbounded integers; MachineSlots.MachineSelectionDropsNoPayment is the 64-bit form.
- SolventSlots.SlotStaysSolvent: on unbounded integers; MachineSlots.MachineSlotStaysSolvent is the 64-bit form.
- SolventSlots.AdmissionStaysSolvent: on unbounded integers; MachineSlots.MachineAdmissionStaysSolvent is the 64-bit form.
- The methods of `LedgerState`, `Chain`, `Bridge` and the runs of `Network` compute on unbounded integers; MachineMoney.RunIsExactIff, MachineChains.MachineReplayIsReplayIff and MachineSlots.MachineSelectionIsSelection say when 64-bit ones compute the same. Block heights stay unbounded.
- MachineMoney.RunKeepsMoneyIff: asks for products in range and a supply below 2^63; MachineMoney.MachineRunConservesIff asks for neither, at the price of a condition on the ledger each operation is applied to.
- MachineMempool.MachineRunIsRunIff: asks for products in range; what a run with a wrapped product does is not said.
- Bridge.Bridge.ProduceBlockIfReady: one call by itself; what other threads append between its reads is in Network.StaleSealIsCurrent.
- A genesis without validators, on which the source panics when it indexes the list: start-up and production require one.
- Network.ChainsAgree: agreement is up to unsigned content, because a block hash covers neither transaction signatures nor fractions of a second.
