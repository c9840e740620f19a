# Clearnode, modelled and verified in Dafny

Clearnode is an off-chain ledger. Users hold funds in channels, one per wallet and asset;
each channel is a chain of signed states, and every state moves a home ledger and sometimes
an escrow ledger. App sessions hold funds of several participants, who redistribute,
withdraw or rebalance them by signed updates. This project models the node's money-moving
code and proves what it keeps, in every run.

## How the model is laid out

| layer | modules | what is there |
|---|---|---|
| values | `Sums`, `Options`, `Decimals`, `Channels`, `Transactions` | amounts, states, the successor of a state, the transitions (as functions, and as the in-place methods of `MutableState`), transaction records |
| one chain | `Advancer`, `Acceptance`, `Chains`, `Transitions`, `Flows`, `LockExample`, `Packing` | validation of a proposed state, and field by field what it accepts; the inductive ledger invariant, lock discipline, what states carry, total flows, packing for the contract |
| the node | `Quorum`, `Allocations`, `NodeModel` | signature weights, the app ledger, and the state machine: what each endpoint accepts and its effect |
| theorems | `Invariants`, `Conservation`, `Settlement`, `Runs`, `Precision`, `Epochs` | the node invariant, conservation, exactness of session updates, results over whole runs, which channels stay in one epoch |
| the record | `Admission`, `Authority`, `Listings`, `Transfers`, `Records`, `Statements` | in the terms of what was signed and stored: when each endpoint accepts a request, who has to have signed it, what its lists leave in the slots, and that states, transfers and transaction records match one to one and add up to the balances |
| reachable examples | `Progress`, `Opening`, `RebalanceLoss`, `ChannelReuse`, `WithdrawPrecision` | runs from the empty store that lose session funds, that leave a challenge unanswered, and after which a withdraw is refused for its precision |
| the handlers | `Database`, `ChannelEndpoints`, `SessionUpdates`, `OperateIntent`, `Ordering`, `ReleaseIntents`, `SessionEndpoints`, `DepositEndpoint`, `RebalanceEndpoint` | the store as a class, and each handler as a method with the program's loops, proved to take exactly the step of the state machine |
| concurrency | `UserLocks`, `LockOrder` | which user states a request locks and in what order, and when transactions that do so can deadlock |
| smaller parts | `TransferStorm`, `SessionStorm`, `RateLimit`, `ActionGateway`, `Events`, `Worker`, `SignerBitmask` | fund-distribution trees, token bucket, sliding window, challenge response, retrying worker, 256-bit mask |

Each endpoint method states `ok <==> Accepts(...)` and `Step(...)`. `Step` is all or nothing:
an accepted request has its effect, a refused one leaves the store as it was. The theorems
are about `Step`, so they hold of the methods. What `Accepts` and the effects are is pinned down
in turn: `Acceptance`, `Admission`, `Authority` and `Listings` state when a request is accepted
without their help, field by field and allocation by allocation, and `Transfers`, `Records` and
`Statements` match what is stored with what is recorded.

## What the proofs say about the code

- **Rebalance can lose funds.** `GetParticipantAllocations` groups ledger entries without
  dropping sums of zero, although its comment promises non-zero balances only. For a slot that
  is present at zero, the second loop of the rebalance handler adds to the totals what the
  first one has added already. A batch that gives something to such a slot is accepted only
  when its real total is wrong. `RebalanceLoss` gives, for any user, asset and amount, a run
  from the empty store that ends in such a batch. The exact conditions: of the batches whose
  updates pass their checks and that keep every total, those are accepted that give nothing to
  a slot present at zero (`BalancedAcceptedIff`); and everything is conserved if and only if
  no accepted batch gives anything to one (`RebalanceExact`, `BatchAccountNet`,
  `WholeNodeConservation`).
- **A reused channel can miss a challenge.** After a co-signed finalize the next state may name
  the same channel again, in a new epoch whose versions restart. The challenge handler looks at
  the latest epoch only, so a challenge at an old version is not answered although a newer
  co-signed state exists (`ChallengeMissed`). In a run each channel stays in one epoch if and
  only if no accepted request opened an epoch with a channel in use (`OneEpochIff`), for
  instance if only channel creations open epochs (`CreationsOpenFresh`); then every challenge
  that could be answered is (`ChallengesAnswered`). In terms of the stored states alone, that
  is so if and only if none has a higher version than the latest one (`AllAnsweredIff`).
- **When requests deadlock.** Withdraws and closes among themselves never do. Transfers lock
  sender, then recipient. Among requests that lock at most two user states, a deadlock can be
  reached if and only if there is a cycle of transfers, each to the sender of the next
  (`OthersDeadlockIff`). With withdraws and closes in between, exactly if what each of a cycle
  wants next, the one after it has taken before (`RequestsDeadlockIff`), and never without a
  transfer whose recipient comes before its sender in the order in which withdraws lock
  (`DeadlockNeedsTransfer`).
- **Quorum wraps.** Weights are added modulo 256. Acceptance still implies a true quorum, but
  a further signature can lose it (`WrapLosesQuorum`). A participant who has not signed loses
  a met quorum exactly if the counter, from what is counted so far, wraps to less than the
  quorum (`FurtherSignerLoses`; for several signers `FurtherSignersLose`), and a session never
  loses one if and only if no participant does so for any set of others (`KeepsQuorumIff`),
  for instance if the total weight is at most 255.
- **Record IDs.** The ID that a transition carries is not that of its transaction record for
  home deposits, escrow deposits and transfers (`RecordNamedByTransition`).
- **Written precision of withdrawals.** What leaves a slot is the difference of two decimals,
  which is written with the smaller of their exponents, and the precision check looks at that.
  So a withdraw that passes all other checks is accepted if and only if, for each slot that it
  lowers, neither balances nor the listed amount are written with more digits than the asset
  has (`WithdrawIff`). The exponent of a balance as the database driver returns it is a
  parameter, `Config.balanceExponent`. The column type `NUMERIC(78, 18)` suggests -18. If so,
  then in no run does a withdraw ever lower a slot of an asset with fewer than 18 decimals
  (`RunWithdrawsKeep`, `SixDecimalsRefused`); withdraws that leave such slots as they are, and
  closes, are not affected.
- **Session storm nonces.** With more than 100 plateau cycles, or if the number of iterations
  or twice that number is also the number of a plateau round, sessions of the same
  participants repeat a nonce, and creation fails; nothing is lost then (`RunSessionStorm`).
- **Token bucket.** With a burst below one nothing is ever admitted (`NothingBelowOne`).
- **Action levels.** The quotient of stake and level step is rounded to 16 decimals before it is
  cut to whole levels, which can grant a level that is not fully staked (`LevelsExact`); for
  every level and step there is such a stake (`UnstakedLevel`).
- **Escrow.** `channel_v1/submit_state.go` refuses all four escrow kinds today. The state
  machine has a separate step for them, `CoSignEscrow`; `NoEscrowWithoutEscrowStep` shows that
  without it no escrow ledger is ever opened.

## Modelling decisions

- Amounts are exact: a `Decimal` has a real value and the exponent it is written with.
  Arithmetic and comparison look at the value, the precision check at the exponent.
- A hash is an injective constructor of `Id`. Signature recovery, signature checks, the app
  registry, the action gateway as called from handlers, and the on-chain status of a channel
  are parameters of a request.
- A request is atomic; a failing transaction is rolled back. The locks it has taken are in the
  log `Store.locks`, also if it fails.
- The order in which Go iterates over a map is arbitrary, and so is the order in which the
  methods take keys from a set.
- Participant and asset maps nested in the program are one map keyed by `Slot`.

## Model

| member | source | states |
|---|---|---|
| `Decimals.ToBigInt` | pkg/core/utils.go:86-99 | scaling fails exactly if the amount is no whole number of smallest units, and is exact otherwise |
| `Decimals.PrecisionSound` | pkg/core/utils.go:76-81 | an amount that passes the precision check always scales to an integer at that many decimals |
| `Decimals.FitsFiner` | pkg/core/utils.go:86-99 | and at any larger number of decimals |
| `Decimals.FitsCloses` | pkg/core/utils.go:86-99 | amounts of one precision are closed under addition and subtraction |
| `Channels.MutableState.ApplyAcknowledgement` | pkg/core/types.go:260-271 | a transition on top of a state that has one already is refused; otherwise no ledger moves |
| `Channels.MutableState.ApplyHomeDeposit` | pkg/core/types.go:273-293 | refused without a home channel; otherwise the in-place updates give what `Apply` specifies, and a refusal changes nothing |
| `Channels.MutableState.ApplyHomeWithdrawal` | pkg/core/types.go:295-315 | the mirror of a deposit, on user balance and user net flow |
| `Channels.MutableState.ApplyTransferSend` | pkg/core/types.go:317-334 | user balance and node net flow fall together |
| `Channels.MutableState.ApplyTransferReceive` | pkg/core/types.go:336-348 | user balance and node net flow rise together, under the transfer's own transaction ID |
| `Channels.MutableState.ApplyCommit` | pkg/core/types.go:350-366 | user balance and node net flow fall together |
| `Channels.MutableState.ApplyRelease` | pkg/core/types.go:368-383 | user balance and node net flow rise together |
| `Channels.MutableState.ApplyMutualLock` | pkg/core/types.go:385-427 | refused without channel, chain or token; otherwise names the escrow channel after the version and opens its ledger |
| `Channels.MutableState.ApplyEscrowDeposit` | pkg/core/types.go:429-456 | refused without an escrow; otherwise the locked node balance becomes the user's |
| `Channels.MutableState.ApplyEscrowLock` | pkg/core/types.go:458-502 | refused also if the user balance does not cover the amount |
| `Channels.MutableState.ApplyEscrowWithdraw` | pkg/core/types.go:504-531 | refused without an escrow; otherwise the lock is paid out on the escrow chain |
| `Channels.MutableState.ApplyMigrate` | pkg/core/types.go:533-538 | always refused, and changes nothing |
| `Channels.MutableState.ApplyFinalize` | pkg/core/types.go:542-564 | refused without a home channel; otherwise takes the whole user balance out |
| `Flows.InflowStep` | pkg/core/types.go:273-564 | along every chain the total user net flow, over all epochs and escrow ledgers, changes by exactly what the new state brings in or takes out on chain |
| `Flows.ExcessStep` | pkg/core/types.go:273-564 | along every chain the total node net flow less the open lock changes by exactly what the new state receives from or sends to another account of the node |
| `Flows.ClaimStep` | pkg/core/types.go:273-564 | so every state moves its user's claim by exactly those two amounts, lock pairs and new epochs included |
| `Flows.ClaimIdentity` | pkg/core/types.go:273-564 | a user's claim is the total user net flow plus the total node net flow less the open lock |
| `Advancer.ValidateAdvancement` | pkg/core/state_advancer.go:26-210 | accepts exactly the states that, up to signatures and the written form of the amount, an allowed request builds on the current state with valid ledgers |
| `Advancer.CheckedIsAdvancing` | pkg/core/state_advancer.go:26-210 | the checks in program order are equivalent to the existence of an allowed request that builds the proposed state |
| `Advancer.BuiltByItsRequest` | pkg/core/state_advancer.go:109-163 | a proposed state can only be built by the request its transition stands for |
| `Advancer.AllowedIsChecked` | pkg/core/state_advancer.go:78-107 | the amount rule, the lock rule and the guards of the switch are together the request being allowed |
| `Advancer.Compare` | pkg/core/state_advancer.go:170-207 | accepts exactly equal ledgers, escrow channels and transitions, with valid ledgers on different chains |
| `Advancer.ValidLedgerCheck` | pkg/core/types.go:598-618 | accepts exactly ledgers with token, chain, non-negative balances and balances equal to net flows |
| `Acceptance.AcceptedIff` | pkg/core/state_advancer.go:26-210 | after a sound state, validation accepts exactly the states with these fields: the next version, or version 0 of a new epoch; the channel kept; the account, transaction ID and amount of the kind; every field of the home and of the escrow ledger moved by the amount; and the time for that kind |
| `Chains.NextIsLater` | pkg/core/types.go:173-222 | every step goes to a later (epoch, version), whose ID is made from exactly wallet, asset, epoch and version |
| `Chains.UserStepSound` | pkg/core/state_advancer.go:26-210 | a state accepted on top of a sound one is sound: ledger equation, non-negative balances, node balance zero but after a mutual lock, escrow ledger and channel present exactly for the four escrow kinds |
| `Chains.IssuedIsApplied` | clearnode/api/channel_v1/handler.go:65-139 | a node-issued state is the successor with the receive or release applied, node-signed exactly if there is a home channel |
| `Chains.IssuedSound` | clearnode/api/app_session_v1/handler.go:117-203 | node-issued states, which skip ledger validation, are sound outside a lock |
| `Chains.BuiltLedgersBalance` | pkg/core/types.go:598-618 | of a ledger built on a sound state, the validation can only refuse a missing chain or token or an overdrawn user; its sum check never refuses |
| `Chains.ChainSound` | pkg/core/state_advancer.go:26-210 | every state of every chain of co-signed and node-issued states is sound |
| `Chains.LockClosesGate` | clearnode/api/channel_v1/handler.go:103-118 | behind a lock the node issues nothing |
| `Chains.LockIsCompletedNext` | pkg/core/state_advancer.go:97-157 | in every chain a lock is followed only by the state that completes it, same amount and escrow channel |
| `Chains.CompletionFollowsLock` | pkg/core/state_advancer.go:97-157 | every escrow deposit or withdrawal directly follows its lock, of the same amount |
| `Chains.CompletionAccepted` | pkg/core/state_advancer.go:97-157 | the state that completes a lock always passes validation, whatever the ledgers hold |
| `Chains.FinalizeAccepted` | pkg/core/types.go:542-564 | outside a lock a user with a channel can always finalize, and takes the whole balance |
| `LockExample.LockPairReachable` | pkg/core/types.go:385-456 | lock pairs do occur: for any channel, tokens on two chains and positive amounts, deposit, mutual lock and escrow deposit form a valid chain, and the locked amount becomes the user's balance |
| `Chains.ChainOrdered` | pkg/core/types.go:173-222 | (epoch, version) strictly increases along a chain, and no two of its states share an ID |
| `Chains.HomeChannelFixed` | pkg/core/state_advancer.go:27-43 | within an epoch a home channel, once set, keeps its ID, chain and token |
| `Transitions.SignedCarries` | pkg/core/state_advancer.go:109-207 | every state of a chain that its user signed is signed by the node too, names the account of its kind (home channel, escrow channel, or whom the user names), and carries the transaction ID made from that account and its own ID, or the zero hash for an acknowledgement |
| `Transitions.IssuedCarries` | clearnode/api/app_session_v1/handler.go:117-203 | every other state is a receive or a release of a positive amount, signed by the node exactly if there is a channel; a release carries the ID made from its account |
| `Transitions.VersionsCount` | pkg/core/types.go:173-222 | versions count up by one from version 1 of epoch 0; a finalization is followed by version 0 of the next epoch |
| `Transitions.BalanceMoves` | pkg/core/types.go:273-564 | along a chain the user balance moves by the amount of each transition, in the direction of its kind; a finalization is of the whole balance |
| `Transactions.NewTransaction` | pkg/core/types.go:817-840 | a record is named after the receiver's new state if there is one, else after the sender's |
| `Transactions.RecordFollowsBalance` | pkg/core/types.go:704-840 | exactly acknowledgements and receives go unrecorded; in every record the user is the recipient of what its balance gains and the origin of what it loses, and lock records run from the home to the escrow channel |
| `Transactions.RecordNamedByTransition` | pkg/core/types.go:704-840 | the record carries the ID in the transition exactly if the kind is neither home deposit, nor escrow deposit, nor transfer send |
| `Records.RecordOfState` | pkg/core/types.go:704-840 | in every run each stored state but acknowledgements and receives has exactly one record: of its kind, asset and amount, between its accounts, naming the state, and, of a transfer, the receive it was issued as |
| `Records.StateOfRecord` | pkg/core/types.go:704-840 | and each record but those of rebalances is the record of exactly one stored state |
| `Statements.WalletStatement` | pkg/core/types.go:704-840 | in every run what a user has in its channel, with what escrow withdrawals have paid out, is exactly what the records have brought to its wallet less what they have taken |
| `Statements.SessionStatement` | clearnode/api/app_session_v1/rebalance_app_sessions.go:256-317 | in every run what a session holds of an asset is exactly what the recorded commits, releases and rebalances have brought to its account less what they have taken |
| `Packing.PackedBalanced` | pkg/core/state_packer.go:75-150 | whatever sound state is packed, the contract's integer ledgers satisfy the ledger equation and are non-negative |
| `Packing.PackedFields` | pkg/core/state_packer.go:75-150 | each field of both contract ledgers is the field of the same name times ten to the decimals of that ledger's token, on the same chain and token; an absent escrow packs to zeros |
| `Packing.PackedInjective` | pkg/core/state_packer.go:75-150 | sound states that pack to the same contract ledgers have the same home and escrow ledgers |
| `Packing.PacksIff` | pkg/core/state_packer.go:75-150 | a state packs exactly if it has a home channel and all its ledgers are in whole units of known tokens |
| `Packing.ChainFits` | pkg/core/state_packer.go:75-150 | if every amount of a chain fits the asset's decimals, so does every field of every ledger |
| `Packing.ChainPacks` | pkg/core/state_packer.go:75-150 | if neither token of a state is coarser than the asset, the state packs |
| `Quorum.VerifyQuorum` | clearnode/api/app_session_v1/handler.go:64-113 | accepts exactly if every signature recovers to a participant and the weight of the distinct signers, modulo 256, passes the quorum as counted |
| `Quorum.AcceptedReachesQuorum` | clearnode/api/app_session_v1/handler.go:64-113 | acceptance implies that the true weight of the distinct signers reaches the quorum |
| `Quorum.VerdictOfSigners` | clearnode/api/app_session_v1/handler.go:64-113 | neither order nor repetition of signatures matters |
| `Quorum.ExactWithoutWrap` | clearnode/api/app_session_v1/handler.go:64-113 | with total weight at most 255 participants' signatures are accepted if and only if their true weight reaches the quorum |
| `Quorum.MoreSignersKeepQuorum` | clearnode/api/app_session_v1/handler.go:64-113 | then further participants' signatures never lose a met quorum |
| `Quorum.FurtherSignerLoses` | clearnode/api/app_session_v1/handler.go:64-113 | a participant's further signature loses a met quorum if and only if its weight and the weight counted so far wrap the counter to less than the quorum |
| `Quorum.FurtherSignersLose` | clearnode/api/app_session_v1/handler.go:64-113 | so do any number of further signatures, repeated ones among them, if and only if the weight of the new signers does |
| `Quorum.KeepsQuorumIff` | clearnode/api/app_session_v1/handler.go:64-113 | in a session no met quorum is ever lost by further signatures of participants if and only if no participant loses it for any set of the others |
| `Quorum.WrapLosesQuorum` | clearnode/api/app_session_v1/handler.go:64-113 | above 255 they can: a created session whose quorum one signer meets and two together do not |
| `Quorum.FullSetAccepted` | clearnode/api/app_session_v1/create_app_session.go:69-88 | the signatures of all participants of a session that could be created are always accepted |
| `Quorum.CheckDefinition` | clearnode/api/app_session_v1/create_app_session.go:61-88 | accepts exactly definitions without duplicate participants whose wrapped total weight reaches the quorum |
| `Allocations.GetParticipantAllocations` | clearnode/store/database/app_ledger.go:90-125 | the grouped query returns the balance of every slot with an entry, explicit zeros included |
| `Allocations.GetAppSessionBalances` | clearnode/store/database/app_ledger.go:63-86 | the summed query is, per asset, the sum of the slots |
| `Allocations.RecordingAdds` | clearnode/store/database/app_ledger.go:33-60 | recording a set of differences adds each to its slot and nothing else |
| `Allocations.FundsRecorded` | clearnode/store/database/app_ledger.go:33-60 | and changes the total of an asset by the sum of its differences |
| `Database.Store.GetLastUserState` | clearnode/store/database/state.go:109-130 | the last state, or the last one signed by both sides |
| `Database.Store.StoreUserState` | clearnode/store/database/state.go:133-160 | appends, and refuses exactly an ID that is stored |
| `Database.Store.RecordTransaction` | clearnode/store/database/transaction.go:39-63 | records, and refuses exactly an ID that is recorded |
| `Database.Store.RecordLedgerEntry` | clearnode/store/database/app_ledger.go:33-60 | a zero amount is not recorded |
| `Database.Store.CreateAppSession` | clearnode/store/database/app_session.go:43-71 | refuses exactly an ID that exists |
| `Database.Store.UpdateAppSession` | clearnode/store/database/app_session.go:161-188 | optimistic locking: succeeds exactly if the stored version is the one before |
| `Database.Store.CreateChannel` | clearnode/store/database/channel.go:36-59 | refuses exactly an ID that exists |
| `Database.Store.LockUserState` | clearnode/store/database/db_store.go:93-146 | the lock is added to the log, and nothing else changes |
| `Database.Store.Rollback` | clearnode/store/database/db_store.go:23-35 | a transaction that fails leaves the store as it found it |
| `ChannelEndpoints.SubmitState` | clearnode/api/channel_v1/submit_state.go:14-259 | accepted exactly as the state machine says; then the whole step is carried out, else nothing changes; the node invariant is kept; the user is locked first, then the recipient of a transfer |
| `ChannelEndpoints.IssueTransferReceiverState` | clearnode/api/channel_v1/handler.go:65-139 | locks the recipient, and issues, exactly if the gate is open and the state can be packed, the receive that mirrors a transfer to another wallet |
| `Transfers.ReceiveWasSent` | clearnode/api/channel_v1/handler.go:65-139 | in every run each stored receive is the other side of a stored send on another chain of that asset: the send is on the chain of the wallet that the receive names and names the wallet of the receive, with the same transaction ID and amount; no other receive has the same send |
| `Transfers.SendIsReceived` | clearnode/api/channel_v1/handler.go:65-139 | and each stored send has its own stored receive |
| `Admission.StateAcceptedIff` | clearnode/api/channel_v1/submit_state.go:14-259 | in every run a state is accepted exactly if it is an acceptable successor in whole units, signed by its user, of one of five kinds, the verdicts allow it, and, for a transfer, another wallet can receive it |
| `ChannelEndpoints.CoSignEscrow` | clearnode/api/channel_v1/submit_state.go:95-205 | the protocol's escrow step on the same store: all or nothing, and it keeps the node invariant |
| `Admission.EscrowAcceptedIff` | clearnode/api/channel_v1/submit_state.go:95-205 | the escrow step accepts exactly such states of the four escrow kinds |
| `ChannelEndpoints.RequestCreation` | clearnode/api/channel_v1/request_creation.go:16-260 | a channel is created only without one or after finalizing a different one: all or nothing, keeping the invariant |
| `Admission.CreationAcceptedIff` | clearnode/api/channel_v1/request_creation.go:16-260 | a channel is created exactly for an acceptable state that names the channel of its definition, which does not exist yet and is in range, if its user has no channel or has finalized another one |
| `SessionEndpoints.CreateAppSession` | clearnode/api/app_session_v1/create_app_session.go:17-204 | a session is created exactly if its definition is feasible and its signers reach the quorum: all or nothing |
| `Authority.SessionAcceptedIff` | clearnode/api/app_session_v1/create_app_session.go:17-204 | a session is created exactly for an unused definition with different participants and a positive quorum that the sum of their weights, modulo 256, reaches, with signers that reach it too |
| `Authority.SessionIdNames` | pkg/app/app_session_v1.go:314-363 | definitions with the same session ID are the same |
| `Authority.CreationBacked` | clearnode/api/app_session_v1/create_app_session.go:61-180 | in a run a created session has participants who reach its quorum together and is backed by its signers |
| `Authority.SessionAsDefined` | clearnode/api/app_session_v1/create_app_session.go:163-180 | in every run each stored session was created by an accepted request and has kept its participants, weights, quorum, application and nonce |
| `SessionUpdates.Authorize` | clearnode/api/app_session_v1/submit_app_state.go:57-106 | accepts exactly an open session, its next version, and a quorum of signers |
| `Authority.AuthorizedIff` | clearnode/api/app_session_v1/submit_app_state.go:57-106 | in every run an update is authorized exactly if it is for an open stored session and its next version, the verdicts allow it, and its signers are participants whose added weights, modulo 256, reach the quorum |
| `Authority.UpdatesBacked` | clearnode/api/app_session_v1/handler.go:64-113 | in every run each update of an accepted request, alone, with a deposit or in a batch, is signed by participants of the stored session whose true weight reaches its quorum |
| `Authority.UnbackedRefused` | clearnode/api/app_session_v1/submit_app_state.go:102-106 | a request with an update of which that is not so leaves the store as it was |
| `SessionUpdates.CollectAllocations` | clearnode/api/app_session_v1/submit_app_state.go:183-227 | the map built in the loop is the listed amounts, and is refused exactly for a stranger, a negative or imprecise amount, or a slot listed twice |
| `OperateIntent.HandleOperateIntent` | clearnode/api/app_session_v1/submit_app_state.go:173-303 | accepts exactly redistributions of each asset's total, and the two loops together record each difference once |
| `ReleaseIntents.IssueReleaseReceiverState` | clearnode/api/app_session_v1/handler.go:117-203 | locks the participant, and issues the release state and its record exactly if the gate is open and the state can be packed |
| `ReleaseIntents.HandleWithdrawIntent` | clearnode/api/app_session_v1/submit_app_state.go:308-416 | accepts exactly decreases that can be issued and whose differences, as the subtraction writes them, pass the precision check; records and releases each difference; it locks the users of the changed slots in strictly increasing order, all of them on success and the first few on a refusal |
| `ReleaseIntents.HandleCloseIntent` | clearnode/api/app_session_v1/submit_app_state.go:420-526 | accepts exactly a listing equal to what the session holds; releases all of it; it locks the users of the slots that are not empty in strictly increasing order, all of them on success and the first few on a refusal |
| `SessionEndpoints.SubmitAppState` | clearnode/api/app_session_v1/submit_app_state.go:17-168 | operate, withdraw or close: accepted exactly as the state machine says, all or nothing, keeping the invariant; it has locked, in order, exactly the users it issues releases to, or, if it is refused, the first few of them |
| `Listings.UpdateAcceptedIff` | clearnode/api/app_session_v1/submit_app_state.go:17-526 | in every run an update is accepted exactly if it is entitled and its list fits its intent: an operate lists every funded slot and as much of each asset as there is; a withdraw lists no more than there is, with few enough digits; a close lists exactly what there is; what leaves can be received |
| `Listings.ListsAreHeld` | clearnode/api/app_session_v1/submit_app_state.go:229-526 | in every run, once a request is carried out, each slot of its sessions holds what the signed list says, and no other slot has changed |
| `Authority.ClosedByClose` | clearnode/api/app_session_v1/submit_app_state.go:113-131 | a session is closed by an accepted close of it and by nothing else |
| `Authority.DataIsLastGiven` | clearnode/api/app_session_v1/submit_app_state.go:133-142 | in every run a session holds the data that was given to it last, with its creation or as the non-empty data of an update |
| `DepositEndpoint.HandleDeposit` | clearnode/api/app_session_v1/submit_deposit_state.go:176-268 | accepts exactly raises of the committed asset that add up to the commit, with every other asset listed as it is |
| `DepositEndpoint.SubmitDepositState` | clearnode/api/app_session_v1/submit_deposit_state.go:15-338 | commit and session raise together: accepted exactly as the state machine says, all or nothing, keeping the invariant, with the user locked |
| `Listings.DepositAcceptedIff` | clearnode/api/app_session_v1/submit_deposit_state.go:15-338 | in every run a deposit is accepted exactly if its update is entitled, its list raises the session by the commit and leaves other assets as they are, and the commit is the next state of its user and names the session |
| `RebalanceEndpoint.SessionChanges` | clearnode/api/app_session_v1/rebalance_app_sessions.go:152-217 | one session's two loops find exactly its differences, and add to the totals those and, once more, what is given to explicit zeros |
| `RebalanceEndpoint.AggregateChanges` | clearnode/api/app_session_v1/rebalance_app_sessions.go:255-264 | nets the differences by session and asset |
| `RebalanceEndpoint.RebalanceAppSessions` | clearnode/api/app_session_v1/rebalance_app_sessions.go:18-344 | a batch is accepted exactly as the state machine says, all or nothing, keeping the invariant, without a lock on any user |
| `Listings.BatchAcceptedIff` | clearnode/api/app_session_v1/rebalance_app_sessions.go:18-235 | in every run a batch is accepted exactly if it has between two and the maximum of updates, of different sessions, each entitled and of participants' allocations, and of every asset what is listed, with a second count for slots present at zero, is what the sessions hold |
| `Ordering.SortedSlots` | clearnode/api/app_session_v1/submit_app_state.go:355-377 | every slot of the session exactly once, strictly increasing by participant and asset |
| `UserLocks.LocksWhatItAppends` | clearnode/api/channel_v1/handler.go:85-91 | an accepted request has locked exactly the users to whose chains it appends a state |
| `Authority.SignedWasSubmitted` | clearnode/api/channel_v1/submit_state.go:14-259 | in every run each stored state with a user's signature was submitted by an accepted request whose signature was found valid |
| `Invariants.StepKeepsInv` | clearnode/api/channel_v1/submit_state.go:14-259 | every operation, accepted or refused, keeps the node invariant: valid chains, non-negative slots of participants, closed sessions empty, distinct transaction IDs |
| `Invariants.AppendedFresh` | pkg/core/types.go:173-222 | the ID of a state about to be stored is new in the whole store |
| `Invariants.VersionStep` | clearnode/store/database/app_session.go:161-188 | an operation raises the version of exactly the sessions it touches, by one |
| `Invariants.GoalValid` | clearnode/api/app_session_v1/submit_app_state.go:183-227 | no accepted operation sets a slot below zero or opens one for a stranger |
| `Settlement.RecordedOnce` | clearnode/api/app_session_v1/submit_app_state.go:229-275 | no operation records a slot more than once |
| `Settlement.OperateExact` | clearnode/api/app_session_v1/submit_app_state.go:173-303 | after an operate every slot of the session holds the submitted amount, an absent one nothing; other slots, chains and all totals stay |
| `Settlement.ReleaseExact` | clearnode/api/app_session_v1/submit_app_state.go:308-526 | after a withdraw or close every slot holds its target; its participant is issued a release of exactly what the slot lost, or nothing; and has that much more in its channel |
| `WithdrawPrecision.WithdrawIff` | clearnode/api/app_session_v1/submit_app_state.go:379-413 | a withdraw that passes all other checks is accepted if and only if, for each slot that it lowers, neither balances nor the listed amount are written with more digits than the asset has |
| `WithdrawPrecision.RunWithdrawsKeep` | clearnode/api/app_session_v1/submit_app_state.go:379-413 | if balances are written with more digits than an asset has, no withdraw of any run changes a slot of that asset |
| `WithdrawPrecision.WithdrawAcceptedIff` | clearnode/api/app_session_v1/submit_app_state.go:379-413 | a run after which a withdraw of a part or all of a slot is accepted exactly if balances and the amount left are written with no more digits than the asset has |
| `WithdrawPrecision.SixDecimalsRefused` | clearnode/api/app_session_v1/submit_app_state.go:391-405 | with balances written with 18 digits no such withdraw of an asset with 6 decimals is accepted |
| `Settlement.DepositExact` | clearnode/api/app_session_v1/submit_deposit_state.go:176-268 | a deposit raises only the committed asset, by the commit in total; no slot falls; the commit is appended to the user's chain |
| `Settlement.BatchAccountNet` | clearnode/api/app_session_v1/rebalance_app_sessions.go:256-317 | the batch's records bring the batch account to net zero if and only if nothing is given to explicit zeros |
| `Conservation.RebalanceExact` | clearnode/api/app_session_v1/rebalance_app_sessions.go:98-317 | an accepted batch sets every slot of its sessions to the submitted amount, and keeps an asset's total if and only if nothing of it is given to a slot present at zero |
| `Conservation.BurnedIff` | clearnode/api/app_session_v1/rebalance_app_sessions.go:182-214 | what a batch of valid updates counts twice is never negative, and zero exactly if it gives nothing to a slot present at zero |
| `Conservation.BalancedAcceptedIff` | clearnode/api/app_session_v1/rebalance_app_sessions.go:152-235 | a batch of valid updates of different sessions that keeps the total of every asset is accepted if and only if it gives nothing to a slot present at zero |
| `Conservation.CleanAcceptedIff` | clearnode/api/app_session_v1/rebalance_app_sessions.go:152-235 | a batch of valid updates that gives nothing to such a slot is accepted if and only if it keeps every total |
| `RebalanceLoss.BatchLosesFunds` | clearnode/api/app_session_v1/rebalance_app_sessions.go:182-235 | for any user, asset and amount a run from the empty store whose last batch is accepted and leaves half of the session funds: balanced before it, out of balance by that half after it |
| `RebalanceLoss.BalancedBatchRefused` | clearnode/api/app_session_v1/rebalance_app_sessions.go:182-235 | a run from the empty store after which a batch that keeps the total is refused, although each of its updates passes its checks |
| `Conservation.OperationBalance` | clearnode/api/app_session_v1/rebalance_app_sessions.go:229-235 | an accepted operation moves nothing in or out of the node's accounts, but for what its batch counts twice |
| `Conservation.StepImbalance` | pkg/core/types.go:273-564 | the imbalance of an asset changes only by what an accepted batch counts twice |
| `Runs.RunInv` | clearnode/api/channel_v1/submit_state.go:14-259 | the node invariant holds after every run |
| `Runs.WholeNodeConservation` | pkg/core/types.go:273-564 | after any run the node flows of all home and escrow ledgers plus the session funds equal the open locks, if and only if no accepted batch gave some of the asset to a slot present at zero |
| `Runs.ClaimsBacked` | pkg/core/types.go:273-564 | after any run claims, open mutual locks and session funds equal the users' net inflow, less what batches counted twice |
| `Runs.LocksNotInterleaved` | pkg/core/state_advancer.go:97-157 | in every run a lock is followed only by the state that completes it |
| `Runs.LocksCompletable` | pkg/core/state_advancer.go:97-157 | in every run an open lock can be completed |
| `Runs.NoEscrowWithoutEscrowStep` | clearnode/api/channel_v1/submit_state.go:160-205 | the endpoints by themselves never open an escrow ledger nor leave a node balance |
| `Runs.StatesDistinct` | pkg/core/utils.go:195-213 | no two stored states share an ID, over all users and assets |
| `Runs.TransactionsDistinct` | pkg/core/utils.go:266-288 | no two recorded transactions share an ID |
| `Runs.AllocationsValid` | clearnode/api/app_session_v1/submit_app_state.go:183-227 | allocations are never negative, and only participants have any |
| `Runs.ClosedIsFinal` | clearnode/api/app_session_v1/submit_app_state.go:65-88 | a closed session never changes again and holds nothing |
| `Runs.VersionRises` | clearnode/api/app_session_v1/submit_app_state.go:65-88 | a session's version rises by one with each accepted operation that touches it, and not otherwise |
| `Runs.AppliedOnce` | clearnode/api/app_session_v1/rebalance_app_sessions.go:123-129 | one version of one session is applied at most once in a run |
| `Precision.RunFits` | pkg/core/utils.go:76-99 | in every run without imprecise batches each amount, ledger field and slot keeps to its asset's decimals |
| `Precision.RunPacks` | pkg/core/state_packer.go:75-150 | so every state on a channel packs, into balanced contract ledgers, if its own tokens are no coarser than the asset |
| `LockOrder.NoCircularWait` | clearnode/api/app_session_v1/submit_app_state.go:355-413 | transactions that lock in order never wait in a circle |
| `LockOrder.DeadlockFree` | clearnode/api/app_session_v1/submit_app_state.go:490-522 | no interleaving of transactions that lock in order, any number of them, waits in a circle; one can always go on; all end after a bounded number of steps |
| `LockOrder.DeadlockIffCrossing` | clearnode/store/database/db_store.go:90-146 | transactions that lock any user states in any order can deadlock if and only if, for some of them in a cycle, what each wants next the one after it has taken before, with no lock taken twice |
| `LockOrder.DeadlockIffChained` | clearnode/store/database/db_store.go:90-146 | if none of them locks more than two, exactly if there is a cycle in which the second lock of each is the first of the next |
| `LockOrder.UpdatesNeverDeadlock` | clearnode/api/app_session_v1/submit_app_state.go:355-413 | withdraws and closes, accepted or refused, with the locks their requests take, never deadlock with each other |
| `LockOrder.OthersDeadlockIff` | clearnode/api/channel_v1/submit_state.go:38-42 | submitted states, creations and deposits can deadlock if and only if some transfers among them form a cycle, each recipient the next sender |
| `LockOrder.RequestsDeadlockIff` | clearnode/api/channel_v1/handler.go:85-91 | any mix of requests can deadlock if and only if their locks cross |
| `LockOrder.DeadlockNeedsTransfer` | clearnode/api/channel_v1/handler.go:85-91 | and only if there is a transfer among them that locks its sender before a recipient that comes earlier in the order |
| `LockOrder.CrossingTransfersDeadlock` | clearnode/api/channel_v1/handler.go:65-139 | two users who send each other a transfer of one asset can wait for each other |
| `TransferStorm.RunTransferStorm` | clearnode/stress/storm.go:54-354 | succeeds exactly if the amount is positive and the origin can give it to every other wallet; then everyone ends as they began after the announced number of transfers; never loses funds; any order within a phase |
| `TransferStorm.Forward` | clearnode/stress/storm.go:156-224 | after the forward phase the origin's total is spread evenly over all wallets |
| `TransferStorm.Plateau` | clearnode/stress/storm.go:226-284 | every cycle ends as it began |
| `TransferStorm.Reverse` | clearnode/stress/storm.go:286-346 | everything is back at the origin |
| `TransferStorm.EveryWalletHoldsAmount` | clearnode/stress/storm.go:98-224 | from the announced start every wallet holds exactly the amount |
| `SessionStorm.ExecuteForwardSession` | clearnode/stress/storm.go:740-851 | passes exactly for a fresh session, a covered deposit and a matching reallocation; what a failure skips and leaves; never loses funds |
| `SessionStorm.ExecuteReverseSession` | clearnode/stress/storm.go:856-988 | passes exactly if both children cover their deposit; what a failure skips and leaves; never loses funds |
| `SessionStorm.RunSessionStorm` | clearnode/stress/storm.go:388-735 | succeeds exactly if funded and no session reuses the nonce of an earlier one of the same participants, so never beyond 100 cycles; then everyone ends as they began after the announced operations; succeed or fail, no funds are lost |
| `SessionStorm.OneParent` | clearnode/stress/storm.go:515-603 | every wallet but the origin is the child of exactly one parent in exactly one iteration |
| `RateLimit.Connection.Request` | clearnode/api/rate_limits.go:22-51 | the in-place bucket follows the specification of refill, admission and storage |
| `RateLimit.TokensBounded` | clearnode/api/rate_limits.go:22-51 | between requests the tokens stay in [0, burst] |
| `RateLimit.TokensEvolve` | clearnode/api/rate_limits.go:22-51 | the tokens that a request finds are the smaller of the burst and the old tokens plus rate times elapsed time |
| `RateLimit.SpanBound` | clearnode/api/rate_limits.go:22-51 | in any stretch of requests no more are admitted than burst plus rate times its length |
| `RateLimit.SpacedNeverRefused` | clearnode/api/rate_limits.go:22-51 | requests whose distance times the rate is at least one are all admitted, exactly if the burst is at least one |
| `RateLimit.NothingBelowOne` | clearnode/api/rate_limits.go:22-51 | below a burst of one nothing is ever admitted |
| `RateLimit.BurstAdmitted` | clearnode/api/rate_limits.go:22-51 | the bound is met: a whole burst is admitted at once |
| `ActionGateway.Gateway.AllowAction` | clearnode/action_gateway/action_gateway.go:77-114 | admits exactly below the allowance, and records exactly admitted gated actions |
| `ActionGateway.Gateway.GetUserAllowances` | clearnode/action_gateway/action_gateway.go:153-191 | one report per gate, sorted by action, each exact |
| `ActionGateway.AdmitsAsReported` | clearnode/action_gateway/action_gateway.go:77-191 | a gated action is admitted exactly if its reported use is below its reported allowance |
| `ActionGateway.WindowBound` | clearnode/action_gateway/action_gateway.go:77-114 | with fixed stakes no 24-hour window ever holds more recorded actions than the allowance |
| `ActionGateway.RefusedAtBound` | clearnode/action_gateway/action_gateway.go:77-114 | and a refusal means that the last 24 hours hold exactly the allowance |
| `ActionGateway.LevelsExact` | clearnode/action_gateway/action_gateway.go:139-150 | the granted levels are the staked ones exactly if the rounded quotient does not reach the next level |
| `ActionGateway.LevelsOfStake` | clearnode/action_gateway/action_gateway.go:77-150 | a stake of the cost of all apps, some levels and not quite another one is granted exactly those levels |
| `ActionGateway.UnstakedLevel` | clearnode/action_gateway/action_gateway.go:139-150 | for every level and step there is a smaller stake that is granted the level |
| `Events.EventStore.HandleHomeChannelCheckpointed` | clearnode/event_handlers/service.go:83-115 | takes over the version, and reopens a challenged channel |
| `Events.EventStore.HandleHomeChannelChallenged` | clearnode/event_handlers/service.go:121-172 | a stale challenge changes nothing; otherwise the latest co-signed state is scheduled exactly if it is newer |
| `Events.EventStore.GetLastStateByChannelID` | clearnode/store/database/state.go:164-213 | a co-signed state of the channel that no other one is later than, if there is any |
| `Events.ChallengeAnswered` | clearnode/event_handlers/service.go:121-172 | a challenge that is not stale is answered if and only if a latest co-signed state of the channel is newer |
| `Events.AllAnsweredIff` | clearnode/event_handlers/service.go:121-172 | every challenge for which a newer co-signed state exists is answered if and only if no co-signed state of the channel has a higher version than the latest one |
| `Epochs.OneEpochIff` | pkg/core/state_advancer.go:27-43 | in every run each channel is used in one epoch of one user and asset if and only if no accepted operation opened an epoch with a channel in use |
| `Epochs.CreationsOpenFresh` | clearnode/api/channel_v1/request_creation.go:84-150 | which holds if only channel creations open epochs: then every channel in use has been created |
| `Epochs.ChallengesAnswered` | clearnode/event_handlers/service.go:121-172 | after such a run a challenge of a home channel is answered exactly if some co-signed state of the channel is newer |
| `ChannelReuse.ChallengeMissed` | clearnode/store/database/channel.go:100-119 | for any user, asset and amount a run of three accepted requests, create, finalize, deposit on the same channel, after which a challenge is not answered although a newer co-signed state is stored |
| `Worker.BlockchainWorker.GetActions` | clearnode/store/database/blockchain_action.go:142-152 | the oldest pending actions of the chain |
| `Worker.BlockchainWorker.ProcessAction` | clearnode/blockchain_worker.go:139-199 | what becomes of one action, and that it is submitted at most once more |
| `Worker.BlockchainWorker.ProcessActions` | clearnode/blockchain_worker.go:112-137 | each action of the batch is processed once and no other, each submission counted; true exactly if there were any and all succeeded |
| `Worker.BlockchainWorker.Drain` | clearnode/blockchain_worker.go:93-110 | the loop of a tick ends, after no more rounds than actions were pending; it submits each action at most once more than before, and never more than six times over all ticks |
| `Worker.QueueShrinks` | clearnode/blockchain_worker.go:93-110 | after a batch that succeeds exactly the rest of the queue is pending, in order |
| `Worker.BudgetDrops` | clearnode/blockchain_worker.go:223-236 | every batch uses up one of the remaining submissions of each of its actions |
| `Worker.AllSettled` | clearnode/blockchain_worker.go:223-236 | after at most six batches for each action that was pending, none is, whatever the client answers |
| `Worker.CompletedIff` | clearnode/blockchain_worker.go:139-199 | after any batches an action that was pending is completed exactly if some submission of it has succeeded |
| `Worker.RetryPolicy` | clearnode/blockchain_worker.go:223-236 | as long as none succeeds, an action of a stored state is tried six times, is pending until then and fails then |
| `Worker.UnknownFails` | clearnode/blockchain_worker.go:146-161 | an action whose state is not stored fails when it is first tried |
| `SignerBitmask.SignerTypesToBitmask` | pkg/core/channel_signer.go:54-61 | a bit is set exactly for the types in the list |
| `SignerBitmask.HexToBitmask` | pkg/core/channel_signer.go:43-51 | parses exactly what the hex parser of the specification parses |
| `SignerBitmask.BitmaskToHex` | pkg/core/channel_signer.go:64-71 | prints without leading zero bytes |
| `SignerBitmask.PrintedParses` | pkg/core/channel_signer.go:43-71 | parsing a printed mask gives it back, for every mask |
| `SignerBitmask.BuildSigValidatorsBitmap` | pkg/core/channel_signer.go:108-110 | the printed mask parses to one that holds exactly the listed types |
| `SignerBitmask.IsChannelSignerSupported` | pkg/core/channel_signer.go:73-88 | exactly the default type and the types in a mask that parses |
| `SignerBitmask.BuiltIsSupported` | pkg/core/channel_signer.go:73-110 | of a bitmap built from a list, exactly the listed types and the default one are supported |
| `SignerBitmask.SignerValidatorsSupported` | pkg/core/channel_signer.go:92-104 | exactly the masks in which every set bit is a known type |

## Left out

- Chains.FinalizeAccepted: is about states whose amount is written with no more digits than the asset has; a balance written more finely is refused by the precision check.
- LockOrder.RequestsDeadlockIff: covers the locks on user states; other row locks of the database are not modelled.
- Precision.RunPacks: excludes batches with amounts finer than their asset, because rebalance does not check precision.
- ChannelEndpoints.CoSignEscrow: models the escrow step that the endpoint has commented out; the escrow channel record and the scheduled chain actions are not part of it.
- TransferStorm.RunTransferStorm: acknowledgements, connections, timing and the float rounding of `math.Pow` are left out; powers are exact, and a transfer either succeeds or leaves the balances alone.
- Worker.BlockchainWorker.Drain: store calls succeed and the context is never cancelled, as store failures would leave the retry counter behind.
- Channels with a migrated home: `ApplyMigrate` always refuses.
- Wrap-around of 64-bit epochs and versions; case folding and normalisation of addresses and session IDs.
- The separate tables for enforced user balances and for channel chain and token, from which stored states are read back.
- Escrow event handlers, node balance and stake events, and refreshing enforced balances.
- `AllowAppRegistration` of the action gateway: a single comparison.
- Session keys, read-only endpoints, WebSocket and RPC transport, cryptography and ABI encoding, command line, configuration, metrics and logging.
- Input and output errors: a store or client call either has its effect or fails as a whole.
- `hexToBitmask` is documented with an optional prefix, but the parser it calls requires one; the code is followed.
