# A 2-of-3 MPC wallet, verified

The wallet splits a signing key between the browser (party A), the API (party B) and the Recovery server (party C).
Any two can sign. Normal withdrawals are signed by A and B; when A is lost, an OTP-gated emergency path sweeps the
wallet with B and C and then retires it. This project models the state machines that move the money, and proves what
they keep across retries, crashes, restarts and concurrent requests.

- `Types`, `Text`, `EthTransfer`, `Wysiwys`: decimal strings, transfers, fees, stored transactions, the browser's check.
- `Routing`, `Rounds`, `SignReference`, `Responder`, `RecoverySign`: threshold signing in one process, the relays, party C's service.
- `DkgReference`, `Dkg`, `CreateWallet`: key generation in one process, the hub, Recovery and the browser.
- `Withdraws`, `Shares`: the withdrawal table with both settlements, and Recovery's Share C table.
- `AbSigning`, `AbInvariant`, `Idempotency`, `SignOrchestrator`, `WithdrawAb`: the A+B flow as functions, its invariant,
  what its answers mean, the orchestrator object, and the browser that calls it.
- `Receipts`, `Answers`: A+B rows against the chain, and what every A+B handler must answer and write in a reachable state.
- `LastWithdraw`, `BcInvariant`, `LastWithdrawSteps`, `LastWithdrawService`, `EmergencyRecovery`, `OtpTracker`: the emergency
  flow as steps, its invariant, the service objects, and the OTP gate.
- `EmergencySteps`, `Sweeps`: when the emergency path accepts, where a request goes from each step, and what a sweep moves.
- `System`, `History`, `Guarantees`: everything together as one machine, its runs, and the main results.
- `Readings`, `Retirement`, `Concurrency`: what requests have read along a run, when a wallet is retired, and the runs that
  show why retirement asks for requests served one at a time.

## How the machine is cut

A state (`LastWithdraw.World`) is the clock, the mined receipts, the API's tables and memory, the last-withdraw requests
in flight, every broadcast made, and Recovery's table. A step (`System.Step`) is one of:

- one A+B handler, one emergency start (its locked transaction), one emergency cancel, each as a whole;
- one piece of a last-withdraw request, cut at its database transactions, RPC calls and writes, in any interleaving with
  anything else; a request may also die between any two pieces;
- Recovery's insert of Share C and the API's insert of the wallet row, separately, or death in between;
- a crash in the middle of an A+B completion, after the broadcast and before the write;
- an API restart, a mined receipt, the passing of time.

`System.Enabled` lists what is asked of the surroundings: a receipt never changes once mined; session and request ids are
new when drawn; a live signer writes BROADCASTED before its row is older than the staleness limit
(apps/api/src/wallet/emergency-bc-withdraw.ts:8); a confirmation means a success receipt. A throw inside a database
transaction rolls its writes back, but not what it already did to a map in memory.

The protocol library, ethers, encryption and hashing are arbitrary deterministic functions. A party's randomness is part of
its initial state, so "the same keyshares" or "the same signature" means for every such randomness; since a step function
that records its inputs is one of them, equal states mean equal message sequences.

The objects (`SignOrchestratorService`, `EmergencyLastWithdrawService`, `EmergencyRecoveryService`, `OtpFailureTracker`,
`SignService`, `DkgService`, `DkgOrchestratorService`, `SharesService`) are classes whose methods update their fields as the
originals do. Each handler's contract gives its whole new state and its answer by the function or step of the machine that
the results are about.

## Model

| member | source | states |
|---|---|---|
| Guarantees.NoEmergencyDoubleSend | apps/api/src/wallet/emergency-last-withdraw.service.ts:552-695 | in every reachable state, two different raws submitted for one wallet and asset belong to two rows and the earlier row's raw was mined as a failure, so they can never both succeed |
| Guarantees.OneOpenEmergencyRow | apps/api/src/wallet/emergency-last-withdraw.service.ts:574-613 | at most one emergency row per wallet is PROCESSING or BROADCASTED, across both assets, for every interleaving of last-withdraw transactions |
| Guarantees.StoredBeforeSubmitted | apps/api/src/wallet/emergency-last-withdraw.service.ts:633-652 | whatever raw a step submits was already stored, with its hash, in a row at BROADCASTED or later before that step |
| Sweeps.EverySubmissionIsASweep | apps/api/src/wallet/emergency-last-withdraw.service.ts:223-338 | in every run, concurrent or crashed, whatever the emergency flow submits is a signature of the transfer of the whole balance a request of that wallet read in the run: all its tokens, or its ether less 21000 times the fee cap, at the provider's nonce and fees, in a row with that amount, to an address the wallet's owner asked for in the run behind a right code |
| Sweeps.ConfirmedSweepIsWhole | apps/api/src/wallet/emergency-last-withdraw.service.ts:655-695 | an emergency row that is EXECUTED and not skipped holds a raw mined as a success that is such a transfer |
| Sweeps.TokenStepSweepsAll | apps/api/src/mpc/eth-transfer.ts:303-325 | what the token step goes on to sign transfers exactly the token balance it read, under a row of that amount |
| Sweeps.EthStepSweepsAll | apps/api/src/mpc/eth-transfer.ts:99-140 | what the ETH step goes on to sign transfers exactly the balance it read less 21000 times the fee cap, under a row of that amount |
| Guarantees.RetriesResubmitTheSameRaw | apps/api/src/wallet/emergency-last-withdraw.service.ts:536-545 | once a row carries a raw it carries that raw for good, and every later submission for the row is that raw |
| Guarantees.PathsNeverMeet | apps/api/src/mpc/sign-orchestrator.service.ts:314-396 | an open A+B row means the wallet is ACTIVE, an emergency row means it is RETIRING or RETIRED, so the two paths are never open together |
| Guarantees.OneOpenAbWithdraw | apps/api/src/wallet/normal-ab-withdraw.ts:14-36 | a wallet never has two open A+B rows, so the first one the settlement finds is the only one |
| Guarantees.SessionsMatchTheTable | apps/api/src/mpc/sign-orchestrator.service.ts:409-431 | every session in memory points to a PROCESSING row of its wallet and user that carries the session's id and digest |
| Guarantees.KeyIsBroadcastAtMostOnce | apps/api/src/mpc/sign-orchestrator.service.ts:555-723 | two broadcasts for rows of the same idempotency key are the same broadcast |
| Guarantees.HashIsForever | apps/api/src/mpc/sign-orchestrator.service.ts:630-643 | a row broadcast with a hash keeps its key and that only hash through every run |
| Guarantees.LaterStartRepeatsTheHash | apps/api/src/mpc/sign-orchestrator.service.ts:739-805 | after any run, a start that answers a key with a hash answers the hash of the key's only broadcast, whatever its body |
| Guarantees.DifferentBodyIsRefused | apps/api/src/mpc/sign-orchestrator.service.ts:769-782 | a start with a used key and another recipient, amount or asset is always refused: no session, no hash |
| Guarantees.LaterCompleteRepeatsTheHash | apps/api/src/mpc/sign-orchestrator.service.ts:562-582 | after any run, a complete that answers a row with a hash answers the hash of the row's only broadcast |
| Answers.UsedKeyIsAnswered | apps/api/src/mpc/sign-orchestrator.service.ts:739-833 | in every reachable state the owner of an ACTIVE wallet who repeats a start is answered: the row's status and hash once it was broadcast, its live session while it is PROCESSING, and otherwise to start again with a new key; nothing but expiry happens to the tables |
| Answers.LaterStartAnswersTheHash | apps/api/src/mpc/sign-orchestrator.service.ts:783-805 | over runs: once a row was written with its hash, every later start of its owner with that key and request answers that hash while the wallet is ACTIVE, and says to start again only if the chain has reverted it |
| Answers.DifferentBodyConflicts | apps/api/src/mpc/sign-orchestrator.service.ts:769-782 | the owner who reuses a key for another recipient, amount or asset is told of the conflict |
| Answers.NewKeyOpensASession | apps/api/src/mpc/sign-orchestrator.service.ts:179-478 | in every reachable state a start with a new key opens a session if and only if the owner's wallet is ACTIVE, can pay for the transfer at the fee cap and has no A+B row that is being signed or waits for its receipt; it then closes the open row and drops every other session of the wallet, adds one row, one session and one answer for the asked transfer at the provider's nonce and fees, and touches nothing else; otherwise it adds nothing and says which of these failed |
| Answers.StartSaysWhy | apps/api/src/mpc/sign-orchestrator.service.ts:187-260 | before the key is looked up, a start is refused by the first check that fails |
| Answers.CompleteAnswers | apps/api/src/mpc/sign-orchestrator.service.ts:555-723 | in every reachable state complete repeats the status and hash of a broadcast row of the caller's session; a live session in its last step is broadcast once and written EXECUTED exactly on a success receipt it waited for, BROADCASTED if the write lands, FAILED if the broadcast or the write does not; out of step or without a message nothing happens, and another user's session is no session |
| Answers.CrashLosesTheWrite | apps/api/src/mpc/sign-orchestrator.service.ts:618-643 | a crash between the broadcast and the write sends exactly what complete would have sent, and no row learns of it |
| Answers.RoundsInTurn | apps/api/src/mpc/sign-orchestrator.service.ts:481-547 | a round is heard only in its turn, from the caller's live session, and moves that session alone |
| Answers.AbortMeans | apps/api/src/mpc/sign-orchestrator.service.ts:725-737 | abort drops the caller's own session and fails its PROCESSING row unless that write is lost, and changes nothing for anyone else |
| Answers.ExpiryMeans | apps/api/src/mpc/sign-orchestrator.service.ts:924-937 | exactly the sessions older than 600000 ms are forgotten, and exactly their PROCESSING rows whose write is not lost become EXPIRED |
| Receipts.StatusTellsTheReceipt | apps/api/src/wallet/normal-ab-withdraw.ts:88-116 | in every reachable state an A+B row is EXECUTED only where its one broadcast was mined as a success, FAILED with a hash only where it was reverted, BROADCASTED where it was made, and has no hash while PROCESSING or EXPIRED |
| Guarantees.WhatIsBroadcastWasAskedFor | apps/api/src/mpc/sign-orchestrator.service.ts:618-632 | whatever is later broadcast for a started session's row has the digest of that start's answer, and moves exactly the positive number of wei ethers reads in the typed amount, of the asset the text names, to the typed recipient: as its value for ETH, as the calldata bytes of the ABI transfer for the token |
| Guarantees.EveryAnswerPassesTheBrowser | apps/api/src/mpc/sign-orchestrator.service.ts:409-457 | in every reachable state, whatever start answers with a session passes the caller's own check in the browser |
| Guarantees.RetiredIsAbsorbing | apps/api/src/wallet/emergency-last-withdraw.service.ts:349-356 | RETIRED holds exactly when Share B is gone, and a RETIRED wallet row never changes again in any run |
| Guarantees.LiveWalletHasShareC | apps/api/src/mpc/dkg-orchestrator.service.ts:272-348 | every wallet has a Share C with its public key, Share C is retired only if the wallet is, and a live wallet's Share C can be loaded |
| System.EveryRunIsSafe | apps/api/src/mpc/sign-orchestrator.service.ts:179-478 | one inductive invariant over all steps of all flows together holds after every admissible run, whatever the interleaving and wherever it crashes |
| Retirement.RetirementIsSafe | apps/api/src/wallet/emergency-last-withdraw.service.ts:204-356 | in a run that serves this wallet's requests one at a time, crashing them anywhere and beside whatever other wallets do, the RETIRED write happens only with no open row of the wallet on either path, with both sweeps settled as below and the latest ETH row the settled one |
| Retirement.RetirementIsSettled | apps/api/src/wallet/emergency-last-withdraw.service.ts:204-356 | in every run, concurrent or not, the RETIRED write is the retire step of a request of that wallet with both sweeps settled: no token is configured, a token sweep was confirmed, or that request itself read a zero token balance earlier in the run and was in flight ever since; and an ETH row is EXECUTED by a success receipt, or skipped where a request of the wallet read in this run a zero balance, or at most the fee behind a confirmed token sweep |
| Retirement.RetirementBesideOthersIsSafe | apps/api/src/wallet/emergency-last-withdraw.service.ts:204-356 | in a concurrent run too, the RETIRED write leaves nothing open unless the retiring request read a zero token balance or an ETH step of the wallet read zero or dust, which are the branches that go on without a row |
| Retirement.SentWalletHasNothingOpen | apps/api/src/wallet/emergency-last-withdraw.service.ts:263-348 | once an unskipped ETH row of a wallet is EXECUTED, and a token row too if there is any, no emergency row of the wallet is open |
| Readings.EveryRunIsKnown | apps/api/src/wallet/emergency-last-withdraw.service.ts:204-338 | in every run, a request past the token step without a sweep read a zero balance itself, a sweep it relies on was confirmed, and every skipped ETH row stands for such a read of that run |
| Concurrency.ZeroReadRetiresTooEarly | apps/api/src/wallet/emergency-last-withdraw.service.ts:263-356 | retirement safety needs requests served one at a time: with no token configured, two concurrent requests of one wallet, one skipping ETH on a zero balance and one reading a deposit, lead from the empty system to a RETIRED write beside a PROCESSING row |
| Concurrency.NoTokensRetiresTooEarly | apps/api/src/wallet/emergency-last-withdraw.service.ts:223-356 | the same for the token step: a request that read no tokens sweeps the ETH and retires the wallet beside a PROCESSING token row of another request |
| Concurrency.DustReadRetiresTooEarly | apps/api/src/wallet/emergency-last-withdraw.service.ts:308-356 | the same for dust: after a confirmed token sweep, a request that read no more than the fee retires the wallet beside a PROCESSING ETH row of another |
| Retirement.OnlyTheRetireStepRetires | apps/api/src/wallet/emergency-last-withdraw.service.ts:349-356 | no other step of any flow ever makes a wallet RETIRED |
| Readings.NoTokensMeansReadZero | apps/api/src/wallet/emergency-last-withdraw.service.ts:223-261 | the token step goes on without a sweep exactly when a token is configured, none was EXECUTED and the balance read was zero |
| Readings.SkipMeansReadZeroOrDust | apps/api/src/wallet/emergency-last-withdraw.service.ts:308-337 | the ETH step is skipped exactly when no ETH row is EXECUTED and it read a zero balance, or after a token sweep a balance that does not exceed the fee |
| History.RunLater | apps/api/src/wallet/emergency-bc-withdraw.ts:133-234 | along every run rows keep index, key, request and raw, closed emergency rows are final, broadcasts and receipts are never lost, RETIRING and RETIRED are never left |
| Withdraws.VisitOrder | apps/api/src/wallet/emergency-bc-withdraw.ts:58-88 | the settlement visits exactly the wallet's open emergency rows, each once, token rows first and creation order inside each asset |
| Withdraws.StableSortIsUnique | apps/api/src/wallet/emergency-bc-withdraw.ts:77-87 | there is only one stable sort of those rows under the comparator |
| Withdraws.SettlementIsDecided | apps/api/src/wallet/emergency-bc-withdraw.ts:133-234 | the outcome is decided by the first row that does not settle: all earlier rows settled, later ones and other wallets' rows untouched, and a clear outcome leaves no open emergency row |
| Withdraws.SettlementMeans | apps/api/src/wallet/emergency-bc-withdraw.ts:133-234 | settlement is clear if and only if every open emergency row of the wallet is PROCESSING without a hash for 120000 ms, or BROADCASTED without a hash or with a receipt; then each becomes EXECUTED exactly on a success receipt and FAILED otherwise. If not, the first such row, tokens before ETH and older before newer, decides: its stored raw is handed out exactly when it is a broadcast without a receipt, with the rows before it closed, and else it throws busy or pending |
| Withdraws.AbSettlementMeans | apps/api/src/wallet/normal-ab-withdraw.ts:46-116 | the wallet's first open A+B row is settled exactly when it was broadcast and has a receipt or no hash; it ends EXECUTED if and only if its hash was mined as a success and FAILED otherwise, and no other row changes |
| Withdraws.SettleOpenEmergencyBcOrThrow | apps/api/src/wallet/emergency-bc-withdraw.ts:133-234 | the loop computes the settlement that Withdraws.SettlementMeans characterizes, for every table, ledger and time |
| Withdraws.SettleOpenNormalAbOrThrow | apps/api/src/wallet/normal-ab-withdraw.ts:46-116 | the guard's search and its verdict are the settlement that Withdraws.AbSettlementMeans characterizes |
| BcInvariant.SettlementSteps | apps/api/src/wallet/emergency-bc-withdraw.ts:143-234 | PROCESSING becomes FAILED only unsent and stale, BROADCASTED only what its receipt says, and a rebroadcast is of a raw stored in an open row |
| LastWithdrawSteps.AdvanceKeepsOk | apps/api/src/wallet/emergency-last-withdraw.service.ts:61-448 | every piece of a last-withdraw request keeps the invariants of both paths |
| EmergencySteps.SweepIsAccepted | apps/api/src/wallet/emergency-last-withdraw.service.ts:61-137 | a sweep request is accepted if and only if it comes from the owner of a RECOVERY_PENDING or RETIRING wallet with its Share B, behind a right code, to a valid address that is not the wallet's, and a token sweep that is still due is payable; a refusal changes nothing |
| EmergencySteps.SweepSaysWhy | apps/api/src/wallet/emergency-last-withdraw.service.ts:68-137 | a sweep request is refused by the first check that fails |
| EmergencySteps.LockMeans | apps/api/src/wallet/emergency-last-withdraw.service.ts:139-187 | in every reachable state the lock makes the wallet RETIRING and goes on to the tokens exactly when every open emergency row can be closed, goes on to a rebroadcast exactly when the first that cannot has a raw and no receipt, and otherwise ends the request and changes nothing |
| EmergencySteps.TokenStepMeans | apps/api/src/wallet/emergency-last-withdraw.service.ts:208-261 | the token step goes on to ETH with no token configured, a confirmed sweep or a zero balance, signs a sweep of the whole balance exactly when that is payable, and otherwise ends the request |
| EmergencySteps.EthStepMeans | apps/api/src/wallet/emergency-last-withdraw.service.ts:263-338 | the ETH step retires on an EXECUTED row, skips on zero, or behind a token sweep on at most 21000 times the fee cap, signs a sweep of what is above that, and otherwise ends the request |
| EmergencySteps.CreateMeans | apps/api/src/wallet/emergency-last-withdraw.service.ts:574-613 | a leg's row is created exactly when every open emergency row of the wallet can be closed and no sweep of the asset is confirmed, which then counts as done |
| EmergencySteps.StartOpensRecovery | apps/api/src/wallet/emergency-recovery.service.ts:98-239 | in every reachable state emergency start goes through if and only if the owner's wallet is ACTIVE or RECOVERY_PENDING, the code is right and every open A+B row was broadcast and has its receipt; it settles that row, leaves the wallet RECOVERY_PENDING, and otherwise changes nothing and says why |
| EmergencySteps.CancelMeans | apps/api/src/wallet/emergency-recovery.service.ts:245-343 | cancel makes the wallet ACTIVE exactly for the owner of an ACTIVE or RECOVERY_PENDING one, and otherwise changes nothing and says why |
| EmergencySteps.CancelUndoesStart | apps/api/src/wallet/emergency-recovery.service.ts:98-343 | a cancel gives the wallet table back as it was before the start |
| AbInvariant.AbStepKeepsOk | apps/api/src/mpc/sign-orchestrator.service.ts:179-737 | start, rounds, complete, abort, expiry, a crash inside complete and a restart keep the A+B invariant and touch no wallet and no emergency row |
| AbInvariant.StartKeepsOk | apps/api/src/mpc/sign-orchestrator.service.ts:179-478 | start keeps one row per key, one open row per wallet and the match of sessions and rows |
| AbInvariant.CompleteKeepsOk | apps/api/src/mpc/sign-orchestrator.service.ts:555-723 | complete broadcasts at most once per row, and only the row's own transfer, on every success and failure path |
| Idempotency.StartAnswersForTheKey | apps/api/src/mpc/sign-orchestrator.service.ts:739-833 | start refuses, or answers about the one row of the caller's key and only when it asks for the same recipient, amount and asset: a session while the row is PROCESSING, a hash once it was broadcast |
| Idempotency.CompleteReturnsTheHash | apps/api/src/mpc/sign-orchestrator.service.ts:555-723 | complete answers with a hash only for the caller's own session, and it is the hash of the row's only broadcast |
| Idempotency.HonestStartPassesTheBrowser | apps/web/src/lib/mpc/wysiwys.ts:73-183 | with the same token address, every start answer, of a new or a reused session, passes the browser's check |
| Wysiwys.AcceptsExactlyTheUsersTransfer | apps/web/src/lib/mpc/wysiwys.ts:73-183 | for any answer and any input, the check passes if and only if the answer's fields rebuild to the typed transfer, with the user's own calldata for ETH, and the digest is theirs |
| Wysiwys.AcceptedDigestFixesTheTransfer | apps/web/src/lib/mpc/wysiwys.ts:150-183 | any transaction with an accepted digest is the typed transfer, or a digest collision with it |
| Wysiwys.HonestAnswerIsAccepted | apps/web/src/lib/mpc/wysiwys.ts:73-183 | an honest answer for the typed transfer always passes |
| Wysiwys.BytesEqual | apps/web/src/lib/mpc/wysiwys.ts:61-71 | the accumulating loop decides equality of byte strings |
| EthTransfer.StorageRoundTrip | apps/api/src/mpc/eth-transfer.ts:370-426 | storing a type-2 Sepolia transaction as decimal strings and rebuilding it is the identity |
| EthTransfer.StoredFieldsRebuild | apps/api/src/mpc/eth-transfer.ts:403-426 | whatever a start answer's fields rebuild to is the prepared transaction |
| EthTransfer.PreparedIsTheTransfer | apps/api/src/mpc/eth-transfer.ts:146-298 | a prepared withdrawal is exactly the requested transfer, at the provider's next nonce and fees and with the gas limit of its kind, and can be stored when its numbers fit in 256 bits |
| EthTransfer.PreparesExactlyWhen | apps/api/src/mpc/eth-transfer.ts:146-298 | a withdrawal is prepared if and only if it is on Sepolia, to someone else, positive, and both balances cover it and its fee cap; a token transfer that lacks only ether for gas is the one refused for gas, and the prepared transaction can be encoded exactly when its numbers fit in 256 bits |
| EthTransfer.FullSweepIsTheTransfer | apps/api/src/mpc/eth-transfer.ts:99-140 | the prepared sweep is a plain transfer of the balance less 21000 times the fee cap, at the provider's next nonce and fees |
| EthTransfer.TokenSweepIsTheTransfer | apps/api/src/mpc/eth-transfer.ts:303-325 | the prepared token sweep transfers the whole token balance, at the provider's next nonce and fees |
| EthTransfer.AmountIsTyped | apps/api/src/mpc/eth-transfer.ts:328-345 | an amount is accepted exactly when ethers reads its trimmed text as a positive number, and then as that number |
| EthTransfer.AssetIsTyped | apps/api/src/mpc/eth-transfer.ts:191-196 | an asset is accepted exactly when its trimmed text is nothing, ETH or ERC20 in any mix of cases, and then as ETH, ETH and ERC20 |
| EthTransfer.RebuiltIsWhatIsStored | apps/api/src/mpc/eth-transfer.ts:403-426 | whatever stored fields rebuild to is a Sepolia transaction of exactly those numbers, recipient and calldata bytes |
| EthTransfer.FullSweepIsAffordable | apps/api/src/mpc/eth-transfer.ts:99-140 | a sweep spends the balance exactly at the fee cap, is includable exactly while the base fee is under the cap and the fee data usable, and leaves exactly 21000 times the unspent price |
| EthTransfer.AmountTransferIsAffordable | apps/api/src/mpc/eth-transfer.ts:146-189 | an amount transfer never exceeds the balance at the fee cap |
| EthTransfer.Erc20TransferIsAffordable | apps/api/src/mpc/eth-transfer.ts:219-298 | a token transfer never exceeds either balance, and its gas limit is above 21000 and at least any successful estimate |
| EthTransfer.FeeCapCoversPriority | apps/api/src/mpc/eth-transfer.ts:32-52 | the priority fee is within the cap exactly on usable fee data |
| EthTransfer.CheapGasPriceBreaksFeeCap | apps/api/src/mpc/eth-transfer.ts:40-46 | fee data with only a small gas price gives a priority fee far above the cap |
| EthTransfer.PrepareFullBalanceTransfer | apps/api/src/mpc/eth-transfer.ts:99-140 | a prepared sweep sends a positive value, and zero balance is its own error and no other |
| Text.DecimalRoundTrip | apps/api/src/mpc/eth-transfer.ts:370-426 | printing a number and reading it with BigInt gives the number |
| Text.NormalizedIsCanonical | apps/api/src/mpc/eth-transfer.ts:63-70 | normalizing calldata twice is normalizing it once |
| Text.NormalizesHex | apps/api/src/mpc/eth-transfer.ts:63-70 | calldata is accepted exactly when it is hex of whole bytes, and written as those digits in lower case |
| Text.NormalizedIsTheBytes | apps/api/src/mpc/eth-transfer.ts:63-70 | two calldata strings normalize alike exactly when they are the same bytes |
| Text.TrimMeans | apps/api/src/mpc/eth-transfer.ts:328-334 | trimming takes the white space off both ends, all of it, and nothing else |
| Responder.MeetingRefinesInProcess | packages/mpc-crypto/src/protocol.ts:93-151 | for any deterministic step function, the relayed rounds leave both parties in the states of the in-process run and fail exactly when it throws |
| Responder.RelaySignatureIsInProcess | packages/mpc-crypto/src/protocol.ts:93-151 | whichever side combines gets its signature of the in-process run, routed by real party id |
| SignReference.RunSessions | packages/mpc-crypto/src/protocol.ts:93-151 | the run over live sessions, advanced in place round by round and routed by real party id, gives the signatures the relays are compared with |
| SignReference.InProcessGivesEachItsSignature | packages/mpc-crypto/src/protocol.ts:119-139 | a full in-process run gives every party its own signature |
| RecoverySign.SignDigestBcRelay | apps/api/src/mpc/bc-sign-relay.ts:31-122 | the B+C relay returns B's signature of the in-process run on shares B and C, and nothing exactly when that run throws, there is no share, or a call to Recovery or its answer is lost; it leaves its session on Recovery only when the answer to start or the abort was lost, and touches no other |
| RecoverySign.PreSignatureDiscipline | apps/recovery/src/sign/sign.service.ts:45-212 | for any sequence of calls, a session's successes are a prefix of start, rounds 1 to 3, last, each once and in order, and the last message is over the digest fixed at start |
| RecoverySign.OldSessionsAreRefused | apps/recovery/src/sign/sign.service.ts:45-211 | a call on a session that is unknown or older than 600000 ms is refused and the session is gone; exactly such other sessions go with it, and the rest is left alone |
| RecoverySign.AtMostOneLastMessage | apps/recovery/src/sign/sign.service.ts:171-188 | no session ever emits two last messages |
| RecoverySign.SignService.Start | apps/recovery/src/sign/sign.service.ts:45-90 | the service's start is the start of the modelled session machine |
| RecoverySign.SignService.HandleRound1 | apps/recovery/src/sign/sign.service.ts:93-119 | likewise for round 1 |
| RecoverySign.SignService.HandleRound2 | apps/recovery/src/sign/sign.service.ts:122-145 | likewise for round 2 |
| RecoverySign.SignService.HandleRound3 | apps/recovery/src/sign/sign.service.ts:148-168 | likewise for round 3 |
| RecoverySign.SignService.Last | apps/recovery/src/sign/sign.service.ts:171-188 | likewise for the last message, which also closes the session |
| RecoverySign.SignService.Gc | apps/recovery/src/sign/sign.service.ts:204-211 | exactly the sessions past their lifetime are dropped |
| Routing.FilterTwice | packages/mpc-crypto/src/routing.ts:4-10 | a relay may filter for a receiver who filters again |
| Routing.RoutesInOrder | packages/mpc-crypto/src/routing.ts:4-17 | a list is routed message by message in its order, a broadcast to everyone but its sender and a direct message to its addressee alone |
| DkgReference.RunSessions | packages/mpc-crypto/src/protocol.ts:31-71 | the run over live sessions gives the keyshares the relays are compared with |
| DkgReference.RelayRefinesInProcess | packages/mpc-crypto/src/protocol.ts:31-71 | for any deterministic step function, the relayed key generation leaves all three parties in the states of the in-process run and fails exactly when it throws |
| DkgReference.RelayedKeysharesAreInProcess | packages/mpc-crypto/src/protocol.ts:31-71 | all three final keyshares are the in-process ones |
| CreateWallet.CreateMpcWalletViaDkg | apps/web/src/lib/mpc/create-wallet.ts:45-138 | the browser's run succeeds exactly when the in-process run gives three keyshares, every call comes within 900000 ms, the user has no live wallet and the completion goes through; A holds the first keyshare, the ACTIVE wallet row of that user and address the second, Recovery the third, and otherwise no wallet row is written |
| CreateWallet.RelayRoundsAsA | apps/web/src/lib/mpc/create-wallet.ts:61-85 | party A's rounds against the real hub and Recovery objects are the relayed run, and fail exactly when it does, the user has a live wallet, or a call is late |
| CreateWallet.CompletionIsARun | apps/api/src/mpc/dkg-orchestrator.service.ts:272-348 | at every failure point of a completion, from any sessions the two services can reach, the two tables change as in a run of the whole machine |
| CreateWallet.EveryDkgRunIsPaired | apps/api/src/mpc/dkg-orchestrator.service.ts:81-395 | in every run of the hub's and Recovery's handlers, with lost answers, aborts, expiry and restarts of either, a session both hold has one user and one wallet |
| Dkg.DkgOrchestratorService.Start | apps/api/src/mpc/dkg-orchestrator.service.ts:81-141 | the hub's start, its refusal of a user with a live wallet, and everything it leaves behind when Recovery or a step fails |
| Dkg.DkgOrchestratorService.Round2 | apps/api/src/mpc/dkg-orchestrator.service.ts:147-183 | round 2, with B's state stored before Recovery is asked and kept when Recovery fails |
| Dkg.DkgOrchestratorService.Round3 | apps/api/src/mpc/dkg-orchestrator.service.ts:189-234 | round 3 with the three commitments in party order |
| Dkg.DkgOrchestratorService.Round4 | apps/api/src/mpc/dkg-orchestrator.service.ts:240-265 | round 4, answering A with everything A did not write |
| Dkg.DkgOrchestratorService.Complete | apps/api/src/mpc/dkg-orchestrator.service.ts:272-348 | Share C first, then the key comparison, then the wallet row, with the state left at each failure |
| Dkg.DkgOrchestratorService.Gc | apps/api/src/mpc/dkg-orchestrator.service.ts:387-395 | exactly the expired sessions go, here and, unless the call is lost, on Recovery |
| Dkg.HubExpiryMeans | apps/api/src/mpc/dkg-orchestrator.service.ts:387-395 | exactly the hub's sessions older than 900000 ms go, on Recovery unless that call is lost |
| Dkg.StartInTurn | apps/api/src/mpc/dkg-orchestrator.service.ts:81-141 | the hub starts only for a user whose wallets are all RETIRED, on a first message of party A and a session id new to Recovery, and both sides then hold the session of that user and wallet; a refusal opens nothing on the hub |
| Dkg.Round2InTurn | apps/api/src/mpc/dkg-orchestrator.service.ts:147-183 | round 2 is answered only to the session's user in its turn and lifetime, and leaves it waiting for round 3 |
| Dkg.Round3InTurn | apps/api/src/mpc/dkg-orchestrator.service.ts:189-234 | round 3 likewise, and the commitment list is that of A, B and C in that order |
| Dkg.Round4InTurn | apps/api/src/mpc/dkg-orchestrator.service.ts:240-265 | round 4 likewise |
| Dkg.CompleteInTurn | apps/api/src/mpc/dkg-orchestrator.service.ts:272-348 | a completion out of turn writes nothing, and one that makes a wallet leaves no session on either side |
| Dkg.PartyCInTurn | apps/recovery/src/dkg/dkg.service.ts:67-171 | party C answers only for a session it holds that is not older than 900000 ms, stores a share only where the wallet has none, and moves no other session |
| Dkg.DkgService.HandleRound1 | apps/recovery/src/dkg/dkg.service.ts:67-90 | party C's first round and its commitment |
| Dkg.DkgService.HandleP2P | apps/recovery/src/dkg/dkg.service.ts:92-113 | party C's rounds over messages addressed to it |
| Dkg.DkgService.HandleBroadcast | apps/recovery/src/dkg/dkg.service.ts:115-127 | party C's last round |
| Dkg.DkgService.Finalize | apps/recovery/src/dkg/dkg.service.ts:129-171 | Share C is stored once, and the session goes only when that worked |
| Shares.RetirementIsForever | apps/recovery/src/shares/shares.service.ts:93-110 | a retired share stays retired, wiped and unloadable whatever is called afterwards |
| Shares.TableOpsMean | apps/recovery/src/shares/shares.service.ts:20-110 | an insert adds one ACTIVE row exactly on a free wallet id, a retirement wipes exactly an ACTIVE row, and a share can be loaded exactly while ACTIVE |
| Shares.SharesService.InsertShareC | apps/recovery/src/shares/shares.service.ts:20-73 | an insert succeeds exactly for party C's share of at least 32 bytes when no row of that wallet exists, whatever its status, and a refused one changes nothing |
| Shares.SharesService.CreateShareC | apps/recovery/src/dkg/dkg.service.ts:145-159 | the insert of a finished key generation, refused when any row of that wallet exists |
| Shares.SharesService.RetireShare | apps/recovery/src/shares/shares.service.ts:93-110 | retiring wipes the ciphertext, once |
| SignOrchestrator.SignOrchestratorService.Start | apps/api/src/mpc/sign-orchestrator.service.ts:179-478 | the object's start: new tables, new sessions and answer |
| SignOrchestrator.SignOrchestratorService.ExpireStale | apps/api/src/mpc/sign-orchestrator.service.ts:340-360 | the expiry loop closes exactly the wallet's stale rows and drops exactly their sessions |
| SignOrchestrator.SignOrchestratorService.CreateUnderLock | apps/api/src/mpc/sign-orchestrator.service.ts:314-431 | the locked transaction, whose throw rolls the rows back but not the dropped sessions |
| SignOrchestrator.SignOrchestratorService.ReuseOrConflictExisting | apps/api/src/mpc/sign-orchestrator.service.ts:739-833 | the answer for a key that already has a row |
| SignOrchestrator.SignOrchestratorService.HandleRound1 | apps/api/src/mpc/sign-orchestrator.service.ts:481-504 | round 1 of the object |
| SignOrchestrator.SignOrchestratorService.HandleRound2 | apps/api/src/mpc/sign-orchestrator.service.ts:507-527 | round 2 of the object |
| SignOrchestrator.SignOrchestratorService.HandleRound3 | apps/api/src/mpc/sign-orchestrator.service.ts:530-547 | round 3 of the object |
| SignOrchestrator.SignOrchestratorService.Complete | apps/api/src/mpc/sign-orchestrator.service.ts:555-723 | complete of the object: tables, sessions, broadcasts and answer on every path |
| SignOrchestrator.SignOrchestratorService.SignAndSerialize | apps/api/src/mpc/sign-orchestrator.service.ts:618-629 | B's last message, the combined signature and the transaction rebuilt from the stored fields |
| SignOrchestrator.SignOrchestratorService.Abort | apps/api/src/mpc/sign-orchestrator.service.ts:725-737 | abort of the object |
| SignOrchestrator.SignOrchestratorService.Gc | apps/api/src/mpc/sign-orchestrator.service.ts:924-937 | the expiry loop drops exactly the expired sessions and closes their rows, unless the write is lost |
| WithdrawAb.WithdrawViaAbSigning | apps/web/src/lib/mpc/withdraw-ab.ts:38-147 | the browser's whole withdrawal broadcasts B's signature of the in-process run of A and B over the accepted digest, and nothing when start refuses, the check fails, that run throws or a call comes after the session's lifetime, whatever expiry writes are lost; after a session it is done exactly when that was broadcast, the RPC took it and the row was written; no session is left |
| WithdrawAb.SignAsBIsInProcess | apps/api/src/mpc/sign-orchestrator.service.ts:618-629 | what complete signs after the three rounds is the in-process signature |
| LastWithdrawService.EmergencyLastWithdrawService.ExecuteLastWithdraw | apps/api/src/wallet/emergency-last-withdraw.service.ts:61-448 | one undisturbed call is an admissible run of the whole machine, so its end is reachable: the arrival, the request's steps and the mining of what it waits for, each exactly as the outside answers; the code is spent exactly when the checks before it pass; it signs with the in-process B+C signature over the request's own transaction, and an accepted request succeeds exactly when the wallet is RETIRED, without Share B |
| LastWithdrawService.EmergencyLastWithdrawService.LockAndSettle | apps/api/src/wallet/emergency-last-withdraw.service.ts:139-187 | the locked transaction is the machine's lock step |
| LastWithdrawService.EmergencyLastWithdrawService.SignPersistBroadcastWait | apps/api/src/wallet/emergency-last-withdraw.service.ts:552-695 | one leg is the machine's create, sign, broadcast and wait steps as the outside answers them: the in-process B+C signature or none, the RPC's answer, and a confirmation exactly on a success receipt that was waited for |
| LastWithdrawService.EmergencyLastWithdrawService.SweepTokens | apps/api/src/wallet/emergency-last-withdraw.service.ts:208-261 | the token step of the object is the machine's |
| LastWithdrawService.EmergencyLastWithdrawService.SweepEth | apps/api/src/wallet/emergency-last-withdraw.service.ts:263-338 | the ETH step of the object is the machine's |
| LastWithdrawService.EmergencyLastWithdrawService.SkipEth | apps/api/src/wallet/emergency-last-withdraw.service.ts:308-338 | a skipped ETH step of the object, with the EXECUTED row it leaves, is the machine's skip step |
| LastWithdrawService.EmergencyLastWithdrawService.RebroadcastSameRaw | apps/api/src/wallet/emergency-last-withdraw.service.ts:536-545 | hands the stored raw to the RPC once more, after which the request ends |
| LastWithdrawService.EmergencyLastWithdrawService.Retire | apps/api/src/wallet/emergency-last-withdraw.service.ts:349-364 | the wallet row loses Share B with the RETIRED write, and Share C follows if Recovery answers |
| EmergencyRecovery.EmergencyRecoveryService.StartEmergencyRecovery | apps/api/src/wallet/emergency-recovery.service.ts:98-239 | OTP start of the object: the gate is consulted only after the wallet checks, and the locked transaction checks again |
| EmergencyRecovery.EmergencyRecoveryService.CancelEmergencyRecovery | apps/api/src/wallet/emergency-recovery.service.ts:245-343 | cancel of the object |
| EmergencyRecovery.EmergencyRecoveryService.VerifyEmergencyOtp | apps/api/src/wallet/emergency-recovery.service.ts:38-91 | the gate of the object |
| EmergencyRecovery.OnlyARightCodePasses | apps/api/src/wallet/emergency-recovery.service.ts:38-91 | nothing but a right code goes through the gate, and each failure answers its own code |
| OtpTracker.FailureRateIsBounded | apps/api/src/wallet/otp-failure-tracker.ts:17-53 | after any history, a span without a success for a user holds at most maxFailures * (floor(length / lockMs) + 1) failed verifications |
| OtpTracker.AttemptSpends | apps/api/src/wallet/otp-failure-tracker.ts:28-49 | every attempt spends what it uses of a budget of failures, which is the amortised argument |
| OtpTracker.EveryAnswer | apps/api/src/wallet/otp-failure-tracker.ts:17-53 | after any history of any users an attempt is locked exactly until the last lock of its user ends, with the seconds left rounded up, passes exactly on a right six-digit code, and otherwise leaves the limit less the failures since the last pass or lock, or locks for lockMs when that is none |
| OtpTracker.OtpFailureTracker.AssertNotLocked | apps/api/src/wallet/otp-failure-tracker.ts:17-26 | seconds left of a lock, and an expired lock forgotten |
| OtpTracker.OtpFailureTracker.RecordFailure | apps/api/src/wallet/otp-failure-tracker.ts:28-49 | the count, and the lock at the limit |

## Left out

- The cryptography of the DKLs library, ECDSA recovery, AES-GCM, PBKDF2, keccak and ethers encoding: arbitrary deterministic functions; base64 and wire encoding are identities.
- Controllers, DTO validation, guards, JWT, CORS, rate limits, HTTP clients, the websocket gateway, the React UI, browser storage, recovery files, audit writes, log messages and buffer zeroing: they do not affect the protocol state.
- Solidity contracts and Hardhat scripts: not part of the wallet's protocol.
- A+B handlers and emergency cancel are one step each: complete awaits between its step check and its COMPLETING write, cancel reads and writes without a lock, and races inside those gaps are not modelled.
- Emergency start is its locked transaction: the same checks made before the lock only refuse earlier.
- The second look-up of the idempotency key inside start's transaction is the first one, since start is one step.
- Rows are kept in creation order, which is how ties of createdAt are broken; ids of rows are their indices.
- A receipt with a null status is not modelled; such a receipt does not occur after the Byzantium fork.
- Error texts of the RPC are assumed not to imitate the service's own messages (a zero balance, a balance below the fee).
- A transaction with a quantity of 2^256 or more has no digest in ethers: start answers with an internal error, an emergency signature fails, and stored fields do not rebuild. Nonces beyond ethers' safe integers are not singled out.
- Error codes after the last-withdraw lock are one code, and messages for people are left out.
- The objects run at one reading of the clock per handler; interleavings are the machine's part.
- The argument checks of the in-process runs (at least two shares, a 32-byte digest, equal public keys) and their clean-up on a throw.
- A claim that an A+B FAILED row was never sent: that flow broadcasts before it persists, so it would be false.
- A claim of at most one live wallet per user: the check before the insert is not locked, so two key generations of one user may both finish.
- WithdrawAb.WithdrawViaAbSigning: asks for a new idempotency key and session id, as they are drawn; every answer to the browser arrives.
- CreateWallet.CreateMpcWalletViaDkg: asks for a new session id, as it is drawn; every answer to the browser and to the hub arrives.
- LastWithdrawService.EmergencyLastWithdrawService.ExecuteLastWithdraw: asks that first messages name their own party and that the relay's session ids are new on Recovery, as they are drawn; one reading of the clock serves the whole call, and nothing but the mining of its own transactions happens beside it. Interleavings and time in between are the machine's part.
- RecoverySign.SignDigestBcRelay: asks the same, and models its six calls at one reading of the clock.
- Retirement.RetirementIsSafe: is for requests of the wallet served one at a time, because it is false of concurrent ones (Concurrency.ZeroReadRetiresTooEarly, Concurrency.NoTokensRetiresTooEarly, Concurrency.DustReadRetiresTooEarly); Retirement.RetirementIsSettled and Retirement.RetirementBesideOthersIsSafe, and all other guarantees, hold for those too.
- Retirement.RetirementBesideOthersIsSafe: goes one way, since its converse is false: a request served alone may read nothing and retires safely (Retirement.RetirementIsSafe).
- Guarantees.NoEmergencyDoubleSend: rests on the staleness hypothesis, and on no chain reorganization.
