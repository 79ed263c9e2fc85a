# Verified model of the bridge node's protocol cores

The project models the stateful cores of a Bitcoin bridge node in Dafny and proves what they keep over whole runs:

* the deposit contract (`ContractSM`): twelve states, twelve kinds of event, an n-operator signing protocol followed
  by a timelocked claim / challenge / assert / payout lifecycle;
* the notification machine (`BtcZmqSM`), which fuses the rawblock, rawtx and sequence streams of a bitcoin node;
* the contract manager's block processing and its nagging for missing messages;
* the stake chain machine with its incremental txid cache, and its restoration from persisted inputs;
* the transaction driver's listener heap, the poll-driven generic state machine, the funding-output leases, the stack
  shuffling of the disprove script and the assertion layout arithmetic.

Each core is a pure transition function (`*Spec`, or the first part of a smaller module) and, where the original
updates fields or loops, a class or method whose loops are proved to compute that function. The results are lemmas
about the transition functions, so they hold of the classes as well.

## How to read it

| files | content |
|---|---|
| `Collections` | ordered iteration over maps, counting, sums in any order |
| `ContractTypes`, `ContractSpec`, `ContractMachine` | the deposit contract: data, transition function, object |
| `ContractCache`, `ContractInvariant`, `ContractSafety`, `ContractSigning`, `ContractRuns` | its invariant over all admissible runs and the safety results |
| `ContractRejections`, `ContractRoot`, `ContractRootRuns`, `ContractLifecycle` | exact conditions and results for all machines and all runs |
| `ContractBlocks`, `ContractPaths` | what blocks and confirmations lead to over whole runs |
| `ContractDuties`, `ContractAsked`, `ContractHistory`, `ContractOwed`, `ContractVerdicts` | which duties a node is given, for whose graph and when; what is stored and where it comes from; what is refused |
| `Nag`, `ContractProgress`, `ContractLiveness` | nagging, its progress, and that it can always finish |
| `ContractExamples` | bridges of any size in which all promises hold, and runs in which a property fails |
| `ManagerSpec`, `ManagerInvariant`, `ManagerRouting`, `ManagerLedger`, `ManagerEffects`, `ManagerMachine` | block processing |
| `NotifySpec`, `NotifyChain`, `NotifyTracking`, `NotifyReports`, `NotifyMachine` | notifications |
| `StakeChain`, `StakeRestore` | the stake chains and their restoration |
| `TxDriver`, `PolledMachine`, `FundingLeases`, `DisproveScript`, `AssertLayout` | the smaller cores, one module each |

Keys, txids, nonces and signatures are numbers. Everything the node takes from libraries (graph construction, MuSig2
verification and aggregation, witness parsing, transaction predicates) is a function-valued field of a configuration,
so the results hold for all such functions. An aggregate nonce is the multiset of its contributions, the free
commutative sum of section "Nonce Aggregation" of BIP 327. A `TransitionErr` is the outcome `Rejected`, a failed
`expect` the outcome `Panic`.

## What the environment promises

The contract results are about `AdmissibleRun`s with a configuration that satisfies `CfgOk`:

* message signers are in the operator table;
* an operator announces one stake txid, and a stake txid belongs to one operator;
* an operator's nonces for a claim are the same however often they are sent;
* distinct stake txids give distinct claim txids, and a graph has its full number of distinct assert-data txids;
* partial signatures that all verify aggregate (section "Partial Signature Aggregation" of BIP 327);
* this node's own root nonce is fed back only after a `PublishRootNonce` duty;
* the deposit confirms only when the graph signatures are complete (`SignedMayConfirm` shows that this node's own
  signing duty already implies it);
* ready-made signatures come as a complete set, and a pre-assert transaction has the outputs of its graph.

`ContractExamples.PromisesAreConsistent` gives, for every number of operators, a configuration for which all of this
holds and a run that completes a deposit in it. `RejectionChangesStateIff`, `RootVerifiedIff`, `AbortsOnceAtDeadline`,
`RunsMoveForward`, `ContestedResolutionWasEarned`, the cache results and everything about notifications, stake chain,
driver, polling, leases, script and layout need fewer promises or none; each lemma lists its own. Further promises, each
named where it is used:

* `BindsAggregate`: a partial signature verifies against one aggregate nonce only;
* `DistinctDeposits`: distinct deposit requests lead to distinct deposit transactions;
* `HeadsBindPreStake`, `DistinctPreStakes`: a first stake transaction's txid determines the pre-stake it spends, and
  operators have different pre-stakes.

The handlers of the contract without a row of their own (`NotifyNewBlock`, `ProcessPegOutGraphTx`,
`ProcessDepositConfirmed`) are proved to compute their part of the transition function; what that part means is stated
by the lemmas of `ContractBlocks`, `ContractPaths` and `ContractRuns`.

## Where the code and its documentation differ

The model follows the code.

* `VerifyAssertion` goes to the fulfiller itself; the documentation has the other operators verify.
* The comment on `nag` says that the node does not nag itself; the code asks its own key as well.
* The comment on `process_exchange` warns that it resets an operator's stake chain; the code puts the old entry back.
* A repeated deposit setup empties the nonce and signature sessions but keeps aggregate nonces and graph signatures.
* The remark that a rejected event leaves the state alone is not true of every machine: three handlers write before a
  late lookup that can fail. `RejectionChangesStateIff` gives the exact condition, and `RejectionIsHarmless` shows that
  no reachable state meets it; `UnsignedClaimAtTimelock` is a run that does, after a deposit confirmed unsigned.
* A deposit signature accepted before all root nonces are in was checked against a smaller aggregate and stays in place.
  Over every run the signatures verify if and only if no first nonce came after a signature (`RootVerifiedIff`,
  `PublishedDepositVerifiesIff`); `EarlySignaturePublished` is a run that publishes such a deposit. Nagging asks in an
  order that rules this out (`NaggingReachesDeposit`).
* Restoring the stake chains pairs the chains of the operators that have one with all operators in key order, so an
  operator without a chain shifts every later one (`RestoredValidIff`, `RestartShiftsChains`); and a setup that came too
  early counts only after a restart (`RestartIsHarmlessIff`, `RestartLengthensChain`).

## Model

| member | source | states |
|---|---|---|
| ContractMachine.ContractSM.ProcessContractEvent | crates/duty-tracker/src/contract_state_machine.rs:1408-1481 | for every event the fields end as the transition function says, with its duties, rejection or panic |
| ContractMachine.ContractSM.RetrieveGraph | crates/duty-tracker/src/contract_state_machine.rs:1392-1403 | the cached graph is returned, or the built one is returned and remembered |
| ContractMachine.ContractSM.GraphsThroughCache | crates/duty-tracker/src/contract_state_machine.rs:1729-1757 | looking all inputs up in key order yields each input's graph and the extended cache |
| ContractMachine.RegisterGraphs | crates/duty-tracker/src/contract_state_machine.rs:1769-1777 | the insertion loop merges summaries, claims and empty sessions into the four maps |
| ContractMachine.ContractSM.ProcessDepositSetup | crates/duty-tracker/src/contract_state_machine.rs:1634-1792 | stores the input and, with the last one, registers every graph and asks for nonces |
| ContractMachine.HaveAll | crates/duty-tracker/src/contract_state_machine.rs:1836-1841 | true exactly when every claim's session holds n contributions |
| ContractMachine.AggregateAllNonces | crates/duty-tracker/src/contract_state_machine.rs:3286-3299 | every claim is given the sum of its session's nonces |
| ContractMachine.ContractSM.AskForSignatures | crates/duty-tracker/src/contract_state_machine.rs:1863-1915 | one signing duty per claim with its graph and aggregate nonces, or failure at the first missing lookup |
| ContractMachine.ContractSM.ProcessGraphNonces | crates/duty-tracker/src/contract_state_machine.rs:1794-1924 | stores nonces once, aggregates and asks for signatures when all sessions are full |
| ContractMachine.FindOwner | crates/duty-tracker/src/contract_state_machine.rs:1972-1983 | the first operator in key order whose claim it is, or none |
| ContractMachine.ContractSM.AggregatePartials | crates/duty-tracker/src/contract_state_machine.rs:3316-3363 | an aggregate for every claim exactly when no expectation fails |
| ContractMachine.ContractSM.ProcessGraphSignatures | crates/duty-tracker/src/contract_state_machine.rs:1927-2085 | stores verified partials once, aggregates all and asks for the root nonce when all sessions are full |
| ContractMachine.CollectInTableOrder | crates/duty-tracker/src/contract_state_machine.rs:2147-2154 | contributions listed in operator-index order, missing ones skipped |
| ContractMachine.ContractSM.ProcessRootNonce | crates/duty-tracker/src/contract_state_machine.rs:2116-2179 | stores a root nonce once and asks for the root signature when all are in |
| ContractMachine.ContractSM.ProcessRootSignature | crates/duty-tracker/src/contract_state_machine.rs:2182-2282 | stores a verified root partial once and publishes the deposit when all are in |
| ContractBlocks.HeightsHaveNoGap | crates/duty-tracker/src/contract_state_machine.rs:2289-2297 | whatever arrives, the blocks taken follow one another without gap or repeat up to the machine's height |
| ContractBlocks.AbortsOnceAtDeadline | crates/duty-tracker/src/contract_state_machine.rs:2312-2319 | over every run a contract still waiting after a block is below its deadline, an aborted one has reached it, and the abort duty was emitted once if aborted and never otherwise |
| ContractBlocks.BlocksReleaseWhenDue | crates/duty-tracker/src/contract_state_machine.rs:2320-2426 | in every reachable timelocked state the next k blocks change only the height, and exactly those from the timelock on tell the fulfiller to publish its next transaction |
| ContractMachine.ContractSM.PairClaims | crates/duty-tracker/src/contract_state_machine.rs:1519-1533 | moving inputs and summaries out succeeds exactly when claims are injective and in step, and pairs them |
| ContractMachine.ContractSM.ProcessAssertData | crates/duty-tracker/src/contract_state_machine.rs:2882-2957 | files the transaction and moves on when enough have been filed |
| ContractMachine.ContractSM.ProcessPostAssert | crates/duty-tracker/src/contract_state_machine.rs:2959-3035 | looks every assert-data transaction up in graph order before accepting the post-assert |
| ContractPaths.AssertsCollect | crates/duty-tracker/src/contract_state_machine.rs:2882-2957 | assert-data confirmations in any order and with repeats file every transaction and move on with the one that completes the set |
| ContractPaths.ContestedWithdrawalEnds | crates/duty-tracker/src/contract_state_machine.rs:1557-1616 | from every reachable fulfilled state, claim, challenge, pre-assert, all assert-data in any order, post-assert and payout end in the contested resolution, or with a disproof in the disproved state |
| ContractPaths.OptimisticWithdrawalEnds | crates/duty-tracker/src/contract_state_machine.rs:3082-3117 | claim and optimistic payout end in the optimistic resolution |
| ContractCache.CacheAgreesWithRebuilding | crates/duty-tracker/src/contract_state_machine.rs:1392-1403 | in every Requested state any run reaches, the graph used for a stored input equals rebuilding it |
| ContractCache.SequentialSetupRebuildsIff | crates/duty-tracker/src/contract_state_machine.rs:1729-1757 | setup yields every operator's own graph if and only if no two inputs share a stake txid but build different graphs |
| ContractCache.SharedStakeTxidMixesGraphs | crates/duty-tracker/src/contract_state_machine.rs:1729-1757 | a concrete pair of operators of which one is given the other's graph |
| ContractSafety.SetupGood | crates/duty-tracker/src/contract_state_machine.rs:1634-1792 | a deposit setup, first or repeated, keeps the cross-map invariant |
| ContractSafety.NoncesGood | crates/duty-tracker/src/contract_state_machine.rs:1794-1924 | graph nonces keep the invariant, never panic and are rejected without a trace |
| ContractSafety.SigningSucceeds | crates/duty-tracker/src/contract_state_machine.rs:1863-1915 | with full sessions every lookup succeeds and each claim is signed with its own graph |
| ContractSigning.AcceptedIsVerified | crates/duty-tracker/src/contract_state_machine.rs:3367-3439 | an accepted graph signature verified against its signer's own nonces and the sum of all operators' nonces |
| ContractSigning.SessionAggregates | crates/duty-tracker/src/contract_state_machine.rs:3316-3363 | a full signature session aggregates, and the result adds up verified contributions of all operators |
| ContractSigning.PartialsGood | crates/duty-tracker/src/contract_state_machine.rs:1927-2085 | graph signatures keep the invariant, never panic and are rejected without a trace |
| ContractSigning.RootNonceGood | crates/duty-tracker/src/contract_state_machine.rs:2116-2179 | root nonces keep the invariant: no signing duty before the root nonce was asked for |
| ContractSigning.RootSigGood | crates/duty-tracker/src/contract_state_machine.rs:2182-2282 | root signatures keep the invariant and never panic |
| ContractSigning.AggregatedSigsGood | crates/duty-tracker/src/contract_state_machine.rs:2087-2114 | a complete ready-made set of signatures keeps the invariant and is followed by asking for the root nonce |
| ContractHistory.AssignmentTakesEffect | crates/duty-tracker/src/contract_state_machine.rs:2485-2521 | a complete assignment of a deposited contract is taken over field by field with the assignee's own graph; any other leaves the state alone |
| ContractOwed.AssignmentAnswered | crates/duty-tracker/src/contract_state_machine.rs:2522-2577 | a complete assignment is answered with exactly one duty to front the withdrawal, with its stake transaction, recipient and deadline, by the assignee or, once aborted, by a stub; any other with none |
| ContractSigning.BlockGood | crates/duty-tracker/src/contract_state_machine.rs:2321-2426 | after the deposit no block lacks the signature it needs |
| ContractSigning.ConfirmableWhenComplete | crates/duty-tracker/src/contract_state_machine.rs:1510-1538 | once setup is complete claims are injective and in step with inputs and summaries |
| ContractRuns.ReachableInvariant | crates/duty-tracker/src/contract_state_machine.rs:1408-1481 | the cross-map invariant holds in every reachable state |
| ContractRuns.RejectionIsHarmless | crates/duty-tracker/src/contract_state_machine.rs:1483-1492 | in every reachable state any rejected event leaves height and state exactly as they were |
| ContractRuns.NeverPanics | crates/duty-tracker/src/contract_state_machine.rs:1408-1481 | in every reachable state no admissible event meets a failing expectation |
| ContractRejections.RejectionChangesStateIff | crates/duty-tracker/src/contract_state_machine.rs:1483-1492 | for every machine and event: a rejection changes the state if and only if one of three late lookups fails |
| ContractExamples.UnsignedClaimAtTimelock | crates/duty-tracker/src/contract_state_machine.rs:2289-2342 | for every number of operators, a run whose deposit confirms unsigned and in which a rejected block has advanced the height |
| ContractRuns.TableOrderSum | crates/duty-tracker/src/contract_state_machine.rs:2147-2154 | the sum taken in table order by one handler equals the sum taken in key order by the other |
| ContractRuns.DepositSignedOnlyWhenCovered | crates/duty-tracker/src/contract_state_machine.rs:2196-2266 | over every run the deposit is signed or published only when every claim has a genuine aggregate signature, with all nonces and one partial per operator in table order |
| ContractRuns.SignedMayConfirm | crates/duty-tracker/src/contract_state_machine.rs:2116-2179 | after this node's signing duty the graph signatures are complete |
| ContractRuns.CompleteSetupInStep | crates/duty-tracker/src/contract_state_machine.rs:1661-1777 | in every reachable state with all setups: injective claims, matching summaries, cached graphs equal to rebuilt ones |
| ContractRuns.DepositConfirmationPairs | crates/duty-tracker/src/contract_state_machine.rs:1510-1538 | confirming the deposit never fails an expectation and pairs each claim with its own input and summary, and nothing else |
| ContractRuns.AssertDataLeavesIff | crates/duty-tracker/src/contract_state_machine.rs:2902-2949 | the machine moves on exactly when the transaction was the last assert-data missing |
| ContractRuns.PostAssertFindsAll | crates/duty-tracker/src/contract_state_machine.rs:2978-3000 | the post-assert lookup finds every assert-data transaction; it is rejected only for a wrong txid or an unparsable proof |
| ContractRuns.AssertDataPigeonhole | crates/primitives/src/constants.rs:83-86 | over runs, in any order and with repeats: waiting means one is unconfirmed since the pre-assert, having moved on means all are confirmed |
| ContractLifecycle.RunsMoveForward | crates/duty-tracker/src/contract_state_machine.rs:1562-1615 | for all machines and runs: rank never falls, final states are absorbing, graphs, fulfiller and active graph are frozen |
| ContractLifecycle.StepMovesForward | crates/duty-tracker/src/contract_state_machine.rs:2485-2577 | every step keeps the state, its Requested data aside, or follows a documented edge |
| ContractLifecycle.EveryRunTells | crates/duty-tracker/src/contract_state_machine.rs:2860-2872 | every claimed or asserted state comes with the positions of its confirmations in the run, in order |
| ContractLifecycle.ContestedResolutionWasEarned | crates/duty-tracker/src/contract_state_machine.rs:3119-3150 | a contested resolution implies claim, pre-assert, every assert-data, post-assert and payout confirmed in order |
| ContractRoot.RootSigKeepsVerified | crates/duty-tracker/src/contract_state_machine.rs:2207-2241 | accepting a root partial keeps all held partials verified against the held nonces |
| ContractRootRuns.RootNonceKeepsVerifiedIff | crates/duty-tracker/src/contract_state_machine.rs:2116-2140 | one root nonce keeps the held partials verified if and only if it is a repeat or no partial is held yet |
| ContractRootRuns.RootVerifiedIff | crates/duty-tracker/src/contract_state_machine.rs:2116-2282 | over every run the held root partials verify against the held nonces if and only if no first nonce arrived after a partial had been accepted |
| ContractRootRuns.PublishedDepositVerifiesIff | crates/duty-tracker/src/contract_state_machine.rs:2243-2282 | over every run that publishes the deposit, all published partials verify against the published aggregate nonce under the same condition |
| ContractExamples.EarlySignaturePublished | crates/duty-tracker/src/contract_state_machine.rs:2182-2282 | an admissible run from a fresh contract that publishes a deposit with a partial that does not verify |
| Nag.NagContract | crates/duty-tracker/src/contract_manager.rs:1516-1699 | exactly the missing messages of the earliest incomplete stage, each once |
| Nag.NagAll | crates/duty-tracker/src/contract_manager.rs:1486-1703 | exactly the unknown stake chains and every contract's owed requests |
| Nag.AskClaims | crates/duty-tracker/src/contract_manager.rs:1602-1624 | the missing contributions over all claims, each once when claims are distinct |
| ContractProgress.NaggedMessageProgress | crates/duty-tracker/src/contract_manager.rs:1486-1703 | each accepted nagged message adds exactly one contribution and keeps the stages in order |
| ContractProgress.NaggingReachesDeposit | crates/duty-tracker/src/contract_manager.rs:1486-1703 | a fresh contract fed nagged messages publishes its deposit with exactly the (2n^2 + 3n)-th accepted one, all partials verified; until then something is nagged for, afterwards nothing |
| ContractProgress.NaggedAcceptedIff | crates/duty-tracker/src/contract_state_machine.rs:1816-1917 | an answer to a nag is accepted if and only if it passes its length and signature checks |
| ContractLiveness.CanContinue | crates/duty-tracker/src/contract_manager.rs:1478-1703 | short of the last message some honest answer to a nag continues the run |
| ContractLiveness.CanFinish | crates/duty-tracker/src/contract_manager.rs:1478-1703 | with honest operators every nagged run extends to one that publishes the deposit after exactly 2n^2 + 3n messages |
| ContractExamples.PromisesAreConsistent | crates/duty-tracker/src/contract_state_machine.rs:1408-1481 | for every number of operators the environment's promises are satisfiable together, and a run of exactly 2n^2 + 3n messages completes a deposit |
| ContractDuties.SetupAsksForEveryGraph | crates/duty-tracker/src/contract_state_machine.rs:1759-1767 | the completing setup asks for nonces once per operator, for that operator's own graph |
| ContractDuties.PublishesOnlyOwnGraph | crates/duty-tracker/src/contract_state_machine.rs:2321-2426 | over every run the node publishes peg-out transactions only as fulfiller, only from its own graph with its own claim's signature, and not before the timelock |
| ContractAsked.MessagesAreAnswered | crates/duty-tracker/src/contract_state_machine.rs:1634-2282 | over every run each message of the signing phase stores exactly what it brings and is answered with exactly the duties it calls for: nonces, signatures over everybody's nonces, root nonce, root signature, deposit |
| ContractAsked.SetupIsAnswered | crates/duty-tracker/src/contract_state_machine.rs:1634-1792 | a first setup is stored as sent and a repeated one changes no input; once complete, nonces are asked for once per operator and every session is opened empty, while aggregates, signatures and root data stay |
| ContractAsked.NoncesAreAnswered | crates/duty-tracker/src/contract_state_machine.rs:1794-1924 | first nonces are stored, and those that complete every session ask once per operator in key order to sign its own graph with everybody's nonces |
| ContractAsked.PartialsAreAnswered | crates/duty-tracker/src/contract_state_machine.rs:1927-2085 | exactly first signatures that verify against everybody's nonces are stored, and those that complete every session ask for the root nonce |
| ContractAsked.RootNonceIsAnswered | crates/duty-tracker/src/contract_state_machine.rs:2116-2179 | a first root nonce is stored as sent, and the last one asks for the signature over the sum of all |
| ContractAsked.RootSigIsAnswered | crates/duty-tracker/src/contract_state_machine.rs:2182-2282 | a first verified root signature is stored, and the last one publishes this deposit with all of them in table order |
| ContractHistory.RunsAreRecorded | crates/duty-tracker/src/contract_state_machine.rs:2592-3035 | over every run each field of the state (fulfiller, recipient, deadlines, heights, txids, commitment, filed transactions, proof) is that of the assignment in force, the fulfilment, the claim and the post-assert found in the run, in this order |
| ContractOwed.DutiesAreExactlyOwed | crates/duty-tracker/src/contract_state_machine.rs:2285-3075 | over every run and for any next event a withdrawal duty is given if and only if it is owed; timelocks are counted from the confirmations in the run |
| ContractOwed.DutiesOfRuns | crates/duty-tracker/src/contract_state_machine.rs:1408-1481 | over every run a withdrawal duty was given if and only if it was owed at some event |
| ContractOwed.OneDutyAtATime | crates/duty-tracker/src/contract_state_machine.rs:1408-1481 | outside the signing phase an event gives at most one duty |
| ContractVerdicts.RefusedIffUnwelcome | crates/duty-tracker/src/contract_state_machine.rs:1408-1481 | in every reachable state an event is refused if and only if the contract has no use for it |
| ManagerRouting.FilterIsComplete | crates/duty-tracker/src/contract_state_machine.rs:1353-1386 | whatever confirmation would change a contract's state passes its filter |
| ManagerRouting.FilterExact | crates/duty-tracker/src/contract_state_machine.rs:1353-1386 | the filter passes exactly the deposit, the graphs' transactions, challenges and disproofs, and fulfilments by an operator in the table |
| ManagerRouting.WithheldMeansIrrelevant | crates/duty-tracker/src/contract_state_machine.rs:1353-1386 | in every reachable state a withheld confirmation would have changed nothing and asked for nothing |
| ManagerMachine.ContractManager.ProcessBlock | crates/duty-tracker/src/contract_manager.rs:594-774 | transactions, then the block event, then the new contracts, as the specification says, failures included |
| ManagerMachine.ContractManager.ProcessTx | crates/duty-tracker/src/contract_manager.rs:620-740 | a transaction is an assignment, a deposit request, a deposit or a peg-out confirmation, in that order |
| ManagerMachine.ContractManager.ProcessAssignments | crates/duty-tracker/src/contract_manager.rs:779-847 | every dispatched entry is delivered, stopping at the first error |
| ManagerMachine.ContractManager.OfferTx | crates/duty-tracker/src/contract_manager.rs:727-747 | a transaction is offered to every contract whose filter wants it and that has not seen the block |
| ManagerMachine.ContractManager.NotifyContracts | crates/duty-tracker/src/contract_manager.rs:753-757 | every contract receives the block, stopping at the first error |
| ManagerLedger.BlockLedger | crates/duty-tracker/src/contract_manager.rs:594-774 | for every block, contracts and duties are exactly those of a list of deliveries: what each transaction leads to in turn, then the block for everyone, and one setup duty per contract created; and if it stops, why |
| ManagerLedger.TxStepBooked | crates/duty-tracker/src/contract_manager.rs:620-747 | one transaction delivers its assignments, then the deposit confirmation or the offers it leads to, or creates the contract it requests |
| ManagerLedger.ContractHearsBlock | crates/duty-tracker/src/contract_manager.rs:711-757 | a successful block runs every contract over what its transactions lead to for it and then over the block, and the block's duties are the answers in delivery order |
| ManagerEffects.AbortsReachExecutor | crates/duty-tracker/src/contract_manager.rs:753-757 | after a successful block a contract still waiting is below its deadline, and one that was waiting and is aborted has its abort duty among the block's |
| ManagerEffects.FilterIsInvisible | crates/duty-tracker/src/contract_manager.rs:727-747 | a successful block of plain transactions leaves every reachable contract exactly where being told of all of them would |
| ManagerInvariant.NumberingContinuesIff | crates/duty-tracker/src/contract_manager.rs:762-765 | indices stay exactly 0..n-1 if and only if the block's requests lead to distinct deposits |
| ManagerInvariant.BlockKeepsOrder | crates/duty-tracker/src/contract_manager.rs:611-709 | a successful block leaves every contract at its height, continues the numbering if and only if the new deposits are distinct, and leaves all below their deadline if and only if there is a refund delay or nothing was created |
| ManagerInvariant.DistinctTxsCreateDistinct | crates/duty-tracker/src/contract_manager.rs:636-709 | a block of distinct transactions creates contracts for distinct deposits |
| ManagerInvariant.ContractsStayInStep | crates/duty-tracker/src/contract_manager.rs:422-441 | from an empty start, over blocks, messages accepted or rejected and verdicts: indices 0..n-1, one height, and Requested strictly below the deadline if and only if there is a refund delay or the last block created nothing |
| ManagerInvariant.NoIndexTwice | crates/duty-tracker/src/contract_manager.rs:611-618 | gap-free indices are never shared |
| StakeChain.StakeChainSM.ProcessExchange | crates/duty-tracker/src/stake_chain_state_machine.rs:100-116 | a first exchange opens a chain, a repeated one changes nothing |
| StakeChain.StakeChainSM.ProcessSetup | crates/duty-tracker/src/stake_chain_state_machine.rs:124-173 | as the specification says, keeping the cache a chain and everything cached in place |
| StakeChain.StakeChainSM.StakeTxOf | crates/duty-tracker/src/stake_chain_state_machine.rs:201-268 | the head from the least stored input, a tail from its predecessor, or the error of the first missing piece |
| StakeChain.StakeChainSM.Height | crates/duty-tracker/src/stake_chain_state_machine.rs:191-198 | every index below the height is cached and none from it on |
| StakeChain.SetupKeepsValid | crates/duty-tracker/src/stake_chain_state_machine.rs:124-173 | a setup yields a txid exactly for a known operator at an index not beyond the height, and it is the chain's txid |
| StakeChain.SetupErrors | crates/duty-tracker/src/stake_chain_state_machine.rs:134-268 | the error of a setup that yields no txid: unknown operator, nothing cached yet, or predecessor missing |
| StakeChain.CacheAlwaysIsChain | crates/duty-tracker/src/stake_chain_state_machine.rs:100-268 | over any messages each cache is a gap-free prefix of the recursively defined chain, and neither cached txids nor their inputs ever change |
| StakeRestore.BuildChain | crates/stake-chain/src/stake_chain.rs:62-120 | rebuilds exactly the chain up to the first gap in the inputs |
| StakeRestore.LengthIsFirstGap | crates/stake-chain/src/stake_chain.rs:53-54 | the loop bound cuts nothing off: the length is the position of the first gap, wherever later inputs lie |
| StakeRestore.Restore | crates/duty-tracker/src/stake_chain_state_machine.rs:45-93 | the rebuilt chains paired with the operators in key order |
| StakeRestore.RestoredValidIff | crates/duty-tracker/src/stake_chain_state_machine.rs:54-81 | every operator gets a prefix of its own chain if and only if no operator without a chain comes before one with a stake transaction |
| StakeRestore.RestoredIsCacheIff | crates/duty-tracker/src/stake_chain_state_machine.rs:54-81 | restoring a valid machine's inputs gives its cache back if and only if, in addition, no input waits at the height |
| StakeRestore.RestartIsHarmlessIff | crates/duty-tracker/src/stake_chain_state_machine.rs:175-178 | the same after any messages of the operators |
| StakeRestore.RestartShiftsChains | crates/duty-tracker/src/stake_chain_state_machine.rs:79-80 | two messages after which a restart gives one operator's txids to another |
| StakeRestore.RestartLengthensChain | crates/duty-tracker/src/stake_chain_state_machine.rs:150-161 | three messages after which a restart makes the chain longer |
| NotifyMachine.BtcZmqSM.ProcessRawBlock | crates/btc-notify/src/state_machine.rs:134-271 | pushes, mines, buries and reports as the specification says, keeping every tracked transaction anchored |
| NotifyMachine.BtcZmqSM.ProcessRawTx | crates/btc-notify/src/state_machine.rs:275-328 | records a matching transaction once and reports it when its acceptance was waiting |
| NotifyMachine.BtcZmqSM.ProcessSequence | crates/btc-notify/src/state_machine.rs:332-489 | connect, disconnect, acceptance and removal as the specification says, panics included |
| NotifyMachine.BtcZmqSM.DropMinedIn | crates/btc-notify/src/state_machine.rs:371-396 | drops exactly the transactions mined in a block and reports them in txid order |
| NotifyMachine.BtcZmqSM.AddPredicate | crates/btc-notify/src/state_machine.rs:119-122 | adds a filter in a way its removal undoes exactly |
| NotifyMachine.BtcZmqSM.RemovePredicate | crates/btc-notify/src/state_machine.rs:125-130 | removes one occurrence of a filter and no other |
| NotifyChain.RunsSpellChain | crates/btc-notify/src/state_machine.rs:141-166 | over every run above the buried part, burials followed by the queue spell the active chain, the queue stays within the bury depth and nothing panics |
| NotifyChain.BurialsInOrder | crates/btc-notify/src/state_machine.rs:232-267 | each burial is the next block of the active chain with exactly bury-depth blocks on top, and happens exactly when the queue was full |
| NotifyChain.DisconnectSpells | crates/btc-notify/src/state_machine.rs:341-367 | a disconnect uncles the end of the active chain |
| NotifyTracking.AlwaysAnchored | crates/btc-notify/src/state_machine.rs:185-256 | whatever arrives, every tracked mined transaction points to an unburied block that contains it |
| NotifyTracking.DisconnectReportsTip | crates/btc-notify/src/state_machine.rs:341-396 | disconnecting the tip reports Unknown once for exactly its tracked transactions and leaves the rest alone |
| NotifyTracking.DisconnectInvertsConnect | crates/btc-notify/src/state_machine.rs:866-903 | a connect without burial and its disconnect restore the state minus the block's matching txids |
| NotifyTracking.RoundTripExactIff | crates/btc-notify/src/state_machine.rs:866-903 | the restoration is exact if and only if none of the block's matching transactions was known before |
| NotifyTracking.ReachableTxsAndBlockCommute | crates/btc-notify/src/state_machine.rs:920-940 | from any reachable state, rawtx messages of a block, with repeats, before or after its rawblock lead to the same state |
| NotifyTracking.CommutesIff | crates/btc-notify/src/state_machine.rs:179-328 | order is irrelevant if and only if the burial caused by the block forgets none of its own transactions |
| NotifyTracking.EventsAreMatches | crates/btc-notify/src/state_machine.rs:711-731 | the events of a block are its matching transactions, each occurrence once and in block order |
| NotifyTracking.ReportedIffMatching | crates/btc-notify/src/state_machine.rs:711-721 | a transaction is reported if and only if the block holds it and it matches |
| NotifyReports.BlockReports | crates/btc-notify/src/state_machine.rs:179-267 | in any state a rawblock reports each wanted transaction of the tip as mined and of the block it buries as buried, once per occurrence, and nothing else |
| NotifyReports.MinedBeforeBuried | crates/btc-notify/src/state_machine.rs:179-267 | mined transactions are reported before buried ones |
| NotifyReports.MempoolReports | crates/btc-notify/src/state_machine.rs:275-328 | in any state the mempool is reported exactly when rawtx and acceptance have both arrived outside a block, once |
| NotifyReports.UnknownReports | crates/btc-notify/src/state_machine.rs:371-489 | in any state unknown is reported exactly on removal of a recorded transaction or disconnection of its block |
| NotifyReports.PanicsIff | crates/btc-notify/src/state_machine.rs:341-450 | in any state the machine panics exactly on a repeated acceptance still waiting or a disconnect below the tip |
| NotifyReports.PlacesReported | crates/btc-notify/src/state_machine.rs:134-271 | over every expected run with fixed filters, mined and buried reports are counted exactly by the blocks connected and buried |
| NotifyReports.BuriedExactlyOnce | crates/btc-notify/src/state_machine.rs:232-267 | a wanted transaction standing once in a block buried meanwhile is reported buried there exactly once |
| NotifyTracking.RemovalInvertsAcceptance | crates/btc-notify/src/state_machine.rs:848-864 | a removal undoes an acceptance of a new transaction, with or without its rawtx in between |
| NotifyTracking.AcceptanceAndTxCommuteIff | crates/btc-notify/src/state_machine.rs:745-774 | acceptance and rawtx commute, state and events, if and only if no acceptance is already waiting |
| NotifyTracking.RemoveInvertsAdd | crates/btc-notify/src/state_machine.rs:835-846 | removing a filter just added restores the filters exactly |
| TxDriver.MergeHeaps | crates/duty-tracker/src/tx_driver.rs:77-91 | the merge loop keeps the listeners of both heaps, first heap first |
| TxDriver.MergeAssociative | crates/duty-tracker/src/tx_driver.rs:77-91 | merging is associative |
| TxDriver.MergeIdentity | crates/duty-tracker/src/tx_driver.rs:94-98 | the empty heap is a left and right identity |
| TxDriver.ConcatSplits | crates/algebra/src/monoid.rs:21-23 | folding the parts of a list and merging is folding the whole list |
| TxDriver.Driver.HandleJob | crates/duty-tracker/src/tx_driver.rs:128-206 | a job is answered at once or joins the heap |
| TxDriver.Driver.HandleNotice | crates/duty-tracker/src/tx_driver.rs:207-252 | satisfied listeners are answered, the others merged back in order |
| TxDriver.ListenersConserved | crates/duty-tracker/src/tx_driver.rs:128-252 | over any run the submitted listeners are exactly those answered plus those waiting, with multiplicity |
| TxDriver.WaitersAreUnsatisfied | crates/duty-tracker/src/tx_driver.rs:128-252 | a listener waits if and only if it joined and its condition was false on joining and on every non-Unknown status since |
| TxDriver.AnswersAreEarned | crates/duty-tracker/src/tx_driver.rs:128-252 | at each event of a run a listener is told of success if and only if it submits a transaction already in a status it accepts or has waited for the status that arrives, and of failure if and only if its unknown transaction cannot be broadcast |
| TxDriver.StatusIsKnownAs | crates/duty-tracker/src/tx_driver.rs:151-163 | mempool exactly at no confirmations, buried exactly from the bury depth on, mined in between |
| PolledMachine.StateMachine.Poll | crates/algebra/src/state_machine.rs:114-157 | one poll as the specification says |
| PolledMachine.StateMachine.Feed | crates/algebra/src/state_machine.rs:79-85 | feeding one input and awaiting its hook leaves the state and gives the result that attaching the one-input stream gives, at the same poll; a failure does not wait |
| PolledMachine.OneInputPolled | crates/algebra/src/state_machine.rs:79-91 | a stream of one input: nothing before the first poll, a failure at once, an output with the first poll whose hook is ready |
| PolledMachine.ResultsCompose | crates/algebra/src/state_machine.rs:87-91 | feeding in batches is feeding everything |
| PolledMachine.PollsAccounted | crates/algebra/src/state_machine.rs:114-157 | for any schedule, yielded results plus the pending one are the fold over the consumed inputs: none lost, none repeated |
| PolledMachine.OutputsArePrefix | crates/algebra/src/state_machine.rs:114-157 | for any schedule, the outputs are a prefix of folding the transition function over the inputs |
| PolledMachine.PollRespectsHook | crates/algebra/src/state_machine.rs:130-153 | an output is yielded only when its hook completed, no input is consumed while a hook is pending, and the stream ends exactly when neither is left |
| PolledMachine.DrainedMeansAll | crates/algebra/src/state_machine.rs:114-157 | with inputs consumed and no hook pending, every result has been yielded |
| PolledMachine.EnoughPollsYieldAll | crates/algebra/src/state_machine.rs:114-157 | as many polls with stream and hook ready as there are inputs, however interleaved with unready ones, yield the whole fold |
| FundingLeases.OperatorWallet.ClaimFundingUtxo | crates/operator-wallet/src/lib.rs:265-282 | takes the first candidate, a qualifying output neither ignored nor leased, leases it and returns the exact number left |
| FundingLeases.CandidatesInOrder | crates/operator-wallet/src/lib.rs:265-282 | the candidates are the free outputs, each occurrence once, in wallet order |
| FundingLeases.OperatorWallet.SyncWallet | crates/operator-wallet/src/sync.rs:52-80 | releases exactly the leases that the updates spend |
| FundingLeases.NoDoubleLease | crates/operator-wallet/src/lib.rs:160-166 | over any run an outpoint is handed out again only after a sync saw it spent |
| DisproveScript.ReverseBlockReverses | crates/connectors/src/connector_a3.rs:193-198 | the reversal loops reverse their block for any contents, stack and altstack below untouched |
| DisproveScript.NibblesToWords | crates/connectors/src/connector_a3.rs:156-174 | sending 128 nibbles away and fetching 16 words reverses the word order and keeps each word: the i-th nibble of word w comes to place i of word 15 - w |
| DisproveScript.DigOutRoundTrip | crates/connectors/src/connector_a3.rs:137-141 | items dug out from below come back in their old order |
| DisproveScript.CompareBlocksDecides | crates/connectors/src/connector_a3.rs:208-220 | the comparison leaves true exactly when the two strings differ somewhere, everything below untouched |
| DisproveScript.EmitReverse | crates/connectors/src/connector_a3.rs:193-198 | the unrolled reversal loops, for every block size |
| DisproveScript.EmitCompare | crates/connectors/src/connector_a3.rs:208-220 | the unrolled comparison loops, for every string length |
| AssertLayout.LayoutFrom | bin/assert-splitter/src/lib.rs:51-93 | terminates with the largest elements-per-output count within both limits, places every element, fails exactly when one element exceeds a limit |

## Left out

- Async runtime, channels, sockets, RPC, persistence and logging: their effect appears only as sequences of events.
- Debug assertions: the model follows a release build, in which they are absent.
- `execute_duty` and the manager's replies to peers' message requests: a separate path to the same duties.
- MuSig2, Schnorr, WOTS, Groth16, BLAKE3 and taproot construction: uninterpreted functions and predicates.
- The content of graphs: a graph is its txids and one number standing for everything to be signed.
- Coin selection (`front_withdrawal`, `refill_claim_funding_utxos`, `create_prestake_tx`).
- The foreign macros of the disprove script (`compact_checksig_verify`, `transform_limbsize`, `blake3_compute_script`,
  `hash_to_bn254_fq`) and its nibble arithmetic: only the shuffling and comparison fragments are modelled.
- Machine integer widths: heights, indices and sizes are unbounded. The one checked multiplication, in
  `LayoutData::from`, can overflow only for an element that exceeds the weight limit anyway, which fails either way.
- The other connectors (locking scripts of single outputs), the parameter structs (configured constants), and the
  `category`, `predicate` and `bijection` modules (composition of closures, boolean combination of predicates, a two-way
  lookup built from a list).
- ContractMachine.ContractSM.ProcessContractEvent: the state after a panic is the one before the failing expectation's
  handler, since a panicking node does not continue.
