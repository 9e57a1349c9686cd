# JurisPath: a verified model of settlement, replication and receipts

JurisPath checks a network path against a jurisdiction policy, settles a token transfer on a small
ledger and issues a signed, hash-linked compliance receipt. This project models the parts that keep the
ledger, the validators and the receipt log consistent, and proves what they promise over every run.

| file | models |
|---|---|
| `Base.dfy` | 64-bit integers and wrap-around |
| `Ledger.dfy`, `LedgerRuns.dfy` | the ledger object, and reconciliation, conservation, nonces and lifecycle over every interleaving of its operations |
| `Engine.dfy` | the single-process consensus engine |
| `Node.dfy`, `Transport.dfy` | a validator node as follower and as proposer; the in-process queues |
| `Replication.dfy`, `Protocol.dfy`, `Quorum.dfy` | one proposer and its followers over an explicit network: prefix agreement, agreement on a bad network, quorums |
| `Network.dfy` | the queues of the transport as that network |
| `Receipt.dfy`, `Generator.dfy`, `Validator.dfy`, `ChainRuns.dfy` | receipts, threshold signing, the generator, the chain validator, and runs with failures, rotations and restarts |
| `Store.dfy` | the in-memory and the Bolt receipt store, both proved against one list of receipts |
| `Replay.dfy`, `Feed.dfy` | the pruned replay detector, and a validator fed one store's receipts in order |
| `Compliance.dfy` | the path-policy gate |
| `Settlement.dfy`, `ExactlyOnce.dfy`, `Retry.dfy`, `FailClosed.dfy`, `Answers.dfy`, `ServerChain.dfy` | the settle and check handlers as threads over one ledger, generator and store |
| `Lifetimes.dfy` | the server over several process lifetimes on one store |

How the model is built:

- An object whose methods update its fields is a class. Each of its methods is proved equal to a step
  function on values, and the run-level theorems are about those step functions.
- A mutex-protected method is one atomic step. A run is any sequence of steps (ledger), of labelled steps
  of nodes and network (protocol), or of critical sections of handler threads (settlement).
- Go's map iteration order, UUIDs, clocks, proof providers, signers and storage failures are arguments of
  a step, so every theorem holds for all of them.
- Ed25519 (sections 5.1.6 and 5.1.7 of RFC 8032), SHA-256 (section 6.2 of FIPS 180-4) and JSON encoding
  are function-valued parameters. A theorem that needs a law of theirs (`Lawful`, `Binding`, `DigestBinds`)
  asks for it.
- A transaction pointer is the index of its entry in the append-only history; a Go string is a sequence
  of bytes, one per `char`.

What the proofs show about the code beyond its documentation:

- Balances reconcile with the confirmed history in every run, even when IDs are reused; reuse
  through plain `SubmitTransaction` breaks the lifecycle instead, if and only if the ID was seen before:
  an ID then has two entries, may be debited twice, and a confirmed one is pending at the same time
  (`ReusedIdIsDebitedTwice`, `SubmitKeepsUniqueIdsIff`).
- A restart whose key is not the last receipt's key starts a new chain segment. This includes a rotation
  followed by a restart before the next receipt, so a store then no longer validates as one chain
  (`SegmentStartsAtForeignRestart`, `RestartsSplitTheStore`, `RotateThenRestartBreaksTheChain`).
- Seeding with a foreign key keeps whatever last hash the generator had, although a comment in the code
  says it is reset; the two agree at start-up, when there is none (`Generator.SeedChain`).
- Threshold verification counts oracle IDs, which the sender chooses, and never ties an ID to its key: one
  member's signature under k names is accepted. For a list of names and keys, every accepted
  way of signing it carries k group keys if and only if k is one, fewer than k entries can count, or no two
  entries that can count share a key (`OneKeyUnderManyNames`, `KeysPromisedIff`, `HonestNamesSuffice`).
- A vote that the network copies is counted twice, so two of five validators can confirm a transaction. On
  any network the counted voters are a quorum if and only if a majority is left without the votes counted
  twice (`CopiedVoteMakesAMajority`, `QuorumIffEnoughOnceCounted`).
- A message can be accepted twice by the replay detector only with the largest possible window, because
  `Time.Sub` saturates (`NeverAcceptedTwice`, `SaturatedWindowAcceptsTwice`).
- A retry of a rejected settlement ID is refused by the gate or, once past it, answered `TX_CONFLICT`; no
  run ever answers `DUPLICATE_TX` (`RejectedRetryIsRefused`, `DuplicateIsNeverAnswered`).
- The ledger is in memory and the receipts are not, so exactly-once settlement holds per process lifetime:
  each lifetime adds at most one settlement receipt for an ID, and a restarted server settles the same
  request again (`AtMostOnePerLifetime`, `RestartSettlesAgain`).
- The Bolt store refuses empty or oversized IDs that the in-memory store accepts; apart from that the two
  accept the same appends (`BoltStore.Append`, `MemoryStore.Append`).

## Model

| member | source | states |
|---|---|---|
| `Base.WrapAdd` | internal/dlt/ledger.go:217-218 | wrapping int64 arithmetic at every step equals wrapping once at the end |
| `LedgerModel.Ledger.constructor` | internal/dlt/ledger.go:31-53 | a ledger seeded from a validator list, later entries for an ID replacing earlier ones, with empty pools and history |
| `LedgerModel.Ledger.SubmitTransaction` | internal/dlt/ledger.go:57-61 | the error or, on success, the whole new state: nonce raised and stamped, pending, history and seen extended |
| `LedgerModel.Ledger.SubmitTransactionIfAbsent` | internal/dlt/ledger.go:67-85 | a seen ID changes nothing and returns the confirmed, pending or rejected transaction; a new one is submitted |
| `LedgerModel.Ledger.CleanupPending` | internal/dlt/ledger.go:117-129 | a pending transaction becomes rejected and its sender's nonce is given back |
| `LedgerModel.Ledger.ProposeBlock` | internal/dlt/ledger.go:132-158 | any pending ID may be proposed, the round is counted, and it fails exactly for an unknown proposer or an empty pool |
| `LedgerModel.Ledger.CastVote` | internal/dlt/ledger.go:162-195 | yes exactly when the sender can still pay, no vote for an ID that is not pending |
| `LedgerModel.Ledger.CommitTransaction` | internal/dlt/ledger.go:199-225 | debit then credit with 64-bit wrap-around, or a rejection that keeps the nonce, or nothing |
| `LedgerModel.Ledger.AttachReceipt` | internal/dlt/ledger.go:230-249 | the receipt of a confirmed transaction is set once and never replaced |
| `LedgerModel.Ledger.GetTransaction` | internal/dlt/ledger.go:264-275 | confirmed first, then pending, else nothing |
| `LedgerModel.Commit` | internal/dlt/ledger.go:199-225 | every handle in the pending and confirmed maps keeps pointing at an entry of that ID and status |
| `LedgerRuns.TransferEffect` | internal/dlt/ledger.go:217-218 | a transfer moves each balance by exactly the transaction's effect, self-transfers included, modulo 2^64 |
| `LedgerRuns.ReconcilesModulo` | internal/dlt/ledger.go:57-225 | in every run, reused IDs included, each balance is initial plus confirmed incoming minus confirmed outgoing, modulo 2^64 |
| `LedgerRuns.ConservesMoney` | internal/dlt/ledger.go:96-218 | from funded initial balances, in every run: no negative balance, totals per currency unchanged, no overflow in a commit, balances exactly reconciled |
| `LedgerRuns.TransferFunded` | internal/dlt/ledger.go:211-218 | the sums a commit stores fit in an int64 and leave every total unchanged |
| `LedgerRuns.NonceNeverUnderflows` | internal/dlt/ledger.go:104-126 | in every run each pending transaction is covered by a nonce increment, so giving one back stays at or above the initial nonce |
| `LedgerRuns.HistoryIsAppendOnly` | internal/dlt/ledger.go:57-249 | between any two points of a run the history only grows, terms are fixed, terminal statuses and attached receipts stay |
| `LedgerRuns.LifecycleHolds` | internal/dlt/ledger.go:67-129 | when no ID is submitted twice, each ID has one entry and the seen IDs are the disjoint union of pending, confirmed and rejected |
| `LedgerRuns.ReceiptsOnlyWhenConfirmed` | internal/dlt/ledger.go:230-249 | when transactions are submitted without a receipt, only confirmed ones ever carry one, reused IDs included |
| `LedgerRuns.ReusedIdIsDebitedTwice` | internal/dlt/ledger.go:88-113 | resubmitting any confirmed ID through plain submit confirms it a second time |
| `LedgerRuns.SubmitKeepsUniqueIdsIff` | internal/dlt/ledger.go:88-113 | an accepted plain submit keeps one entry per ID, and the whole lifecycle, if and only if its ID was never seen; a confirmed ID becomes pending and confirmed at once |
| `EngineModel.ConsensusEngine.ProposeVoteCommit` | internal/dlt/consensus.go:105-176 | confirmed exactly when the votes on the proposed transaction reach a majority and the caller's can be paid, otherwise cleaned up; round, votes and error are determined in every case |
| `EngineModel.ConsensusEngine.SubmitAndRunRound` | internal/dlt/consensus.go:78-89 | an existing ID or a refused submit runs no round; otherwise ledger, result and error are those of a round for some pending proposal, and with nothing else pending acceptance means unanimous confirmation in the next round |
| `EngineModel.AcceptedIsConfirmed` | internal/dlt/consensus.go:105-165 | with an empty pool the only possible proposal is the caller's, every validator votes yes and the commit succeeds |
| `EngineModel.UnusableEngineRejects` | internal/dlt/consensus.go:106-119 | without validators or with an unknown proposer the submission is rejected and nonce and balances are restored |
| `EngineModel.EngineRounds` | internal/dlt/consensus.go:78-176 | over every run of one engine: nothing stays pending, all recorded transactions are confirmed in round order, and each sender's nonces are consecutive |
| `NodeModel.ValidatorNode.HandleProposal` | internal/dlt/node.go:78-107 | submit if absent, then vote; a failed submit or vote sends nothing |
| `NodeModel.ValidatorNode.HandleCommit` | internal/dlt/node.go:110-114 | a commit message is applied to the local ledger |
| `NodeModel.ValidatorNode.BeginRound` | internal/dlt/node.go:119-185 | submit, proposal, own vote and the drain of buffered votes |
| `NodeModel.ValidatorNode.CollectVotes` | internal/dlt/node.go:187-201 | votes of this round are counted until enough are in, every other message is buffered under its transaction |
| `NodeModel.ValidatorNode.ProposeSettlement` | internal/dlt/node.go:119-249 | the whole round: the messages broadcast, the votes counted and the final ledger and buffer |
| `NodeModel.CollectStops` | internal/dlt/node.go:187-201 | once enough votes are in, later messages stay unread |
| `TransportModel.LocalTransport.Send` | internal/dlt/transport_local.go:47-79 | a message reaches exactly an open, unblocked, known peer with room, at the end of its queue |
| `TransportModel.LocalTransport.Broadcast` | internal/dlt/transport_local.go:81-98 | every other reachable validator gets the message once, whatever the iteration order, and an error means someone was not reached |
| `TransportModel.LocalTransport.Receive` | internal/dlt/transport_local.go:100-110 | queues are first in, first out |
| `Network.BroadcastIsNetwork` | internal/dlt/transport_local.go:81-98 | a broadcast over the queues, whoever is unreachable, is the protocol's broadcast followed by losses at exactly those followers |
| `Network.VoteIsNetwork` | internal/dlt/transport_local.go:47-79 | a vote over the queues reaches the proposer's mailbox or is a sent and lost vote |
| `Network.ReceiveIsNetwork` | internal/dlt/transport_local.go:100-110 | a follower that receives takes the first message of its queue |
| `Replication.PrefixAgreement` | internal/dlt/node.go:78-114 | a follower that handled any prefix of a sound log has the initial balances with exactly that prefix's commits applied |
| `Replication.NothingFailsInOrder` | internal/dlt/node.go:83-114 | handled in order, every proposal gets a yes vote and every commit is applied |
| `Replication.BadNetworkAgreement` | internal/dlt/node.go:83-113 | from any selection, order and repetition of a log, a follower records only proposed terms, confirms only committed IDs, and each ID once |
| `Protocol.FinishOk` | internal/dlt/node.go:205-248 | the proposer's local commit never fails, so a round commits exactly on a majority |
| `Protocol.RunInv` | internal/dlt/node.go:119-249 | in every run on any network the proposer's ledger agrees with its broadcast log and each follower is what its delivered messages make it |
| `Protocol.ReplicaPrefixAgreement` | internal/dlt/node.go:54-249 | towards a follower with a reliable queue: prefix agreement in every reachable state, nothing ever fails there, and once drained its balances equal the proposer's, or differ by exactly the commit that is applied and not yet broadcast |
| `Protocol.AgreementOnBadNetwork` | internal/dlt/node.go:83-113 | whatever is dropped, delayed, reordered or copied, a follower confirms only what the proposer confirmed, with the same terms, and applies nothing twice |
| `Quorum.RunVotes` | internal/dlt/node.go:148-206 | on any network the counted yes votes come from validators that voted yes, and each is a new voter or a repeat |
| `Quorum.RunQInv` | internal/dlt/node.go:148-206 | without copies at most one vote of a validator on an ID exists in flight, buffered or counted, none before the proposal, and no vote is counted twice |
| `Quorum.QuorumBacksEveryCommit` | internal/dlt/node.go:148-206 | every transaction the proposer confirmed is backed by yes votes of at least n/2+1 distinct validators |
| `Quorum.QuorumsIntersect` | internal/dlt/node.go:205-206 | any two confirmed transactions share a validator that voted yes on both |
| `Quorum.QuorumIffEnoughOnceCounted` | internal/dlt/node.go:179-206 | on any network, copies included, the voters behind a confirmed transaction are a quorum if and only if a majority is left when the votes counted twice are taken off |
| `Quorum.CopiedVoteMakesAMajority` | internal/dlt/node.go:187-206 | among five validators a run with one copied vote confirms any payable transaction with two voters |
| `Threshold.NewThresholdOracle` | internal/security/threshold.go:30-56 | a group of n named key pairs exists exactly for 1 <= k <= n |
| `Threshold.SignThreshold` | internal/security/threshold.go:75-85 | the signatures of the first k members, with k and n |
| `Threshold.VerifyThreshold` | internal/security/threshold.go:90-127 | accepts exactly when at least k distinct oracle IDs carry, at their first entry, a group key and a valid signature |
| `Threshold.DecimalInjective` | internal/security/threshold.go:45 | different oracle numbers have different names |
| `Threshold.SignedIsAccepted` | internal/security/threshold.go:75-127 | for every group and payload, what SignThreshold returns is accepted by Verify |
| `Threshold.KeysPromisedIff` | internal/security/threshold.go:20-127 | for any list of names and keys, every accepted signing of it carries k distinct group keys if and only if k is one, fewer than k entries can count, or no two entries that can count share a key |
| `Threshold.ExactlyKIff` | internal/security/threshold.go:87-127 | an accepted list of exactly k entries carries k distinct group keys if and only if no two entries share a key |
| `Threshold.KeysSignedIff` | internal/security/threshold.go:98-121 | as many distinct group keys as counted oracle IDs have signed if and only if no two counted entries share a key |
| `Threshold.HonestNamesSuffice` | internal/security/threshold.go:20-21 | when each name is that of the member holding the key, every accepted list carries k distinct group keys |
| `Threshold.OneKeyUnderManyNames` | internal/security/threshold.go:105-121 | for every group, one member's signature under k names is accepted with a single key behind it |
| `Validation.SignedAttestationsOk` | internal/security/validator.go:155-201 | and it is accepted by the receipt validator's threshold check |
| `Validation.OneKeyAttestsForMany` | internal/security/validator.go:177-198 | one trusted key under k names passes as k attestations |
| `Validation.DistinctKeysAttest` | internal/security/validator.go:155-201 | k accepted attestations carry k distinct keys if and only if no two share a key, and more of them do if no two share one |
| `Validation.ReceiptValidator.constructor` | internal/security/validator.go:28-33 | a validator with empty trust sets and a fresh detector over the same window |
| `Validation.ReceiptValidator.ValidateThresholdAttestations` | internal/security/validator.go:155-201 | accepts exactly no attestations at all, or between k and n good ones from distinct oracles |
| `Validation.ReceiptValidator.ValidateReceiptChain` | internal/security/validator.go:96-153 | accepts exactly the non-empty chains of valid receipts with consecutive numbers and matching hashes |
| `Validation.ReceiptValidator.ValidateReceipt` | internal/security/validator.go:61-90 | accepts exactly authentic, young enough, not replayed receipts, and only those past the first two checks advance the detector |
| `Validation.ReceiptPublicKeys` | internal/api/server.go:1004-1024 | the distinct non-empty keys of the receipts and the current key, and no others |
| `Validation.OfferedKeysSuffice` | internal/api/server.go:915-927 | trusting exactly the offered keys accepts the same chains as trusting every key |
| `Validation.SameSignatureSameView` | internal/receipt/receipt.go:341-426 | two verified receipts with one signature agree on every signed field, across the current and the legacy payload |
| `Validation.ChainCommitment` | internal/security/validator.go:96-153 | two equally long valid chains that end in the same signature agree on the signed fields at every position |
| `GeneratorModel.AggregateProofStatus` | internal/receipt/receipt.go:288-304 | the common normalised status, mixed if they differ, unverified if there is none |
| `GeneratorModel.Generator.BuildReceipt` | internal/receipt/receipt.go:239-286 | the signed receipt with the next number and the last hash, or nothing if a proof or the threshold signer fails |
| `GeneratorModel.Generator.IssueAndAppend` | internal/receipt/receipt.go:222-237 | store and generator advance together, and only when the append succeeded |
| `GeneratorModel.Generator.RotateKey` | internal/receipt/receipt.go:156-201 | rotation swaps both key halves and keeps number and hash, or changes nothing |
| `GeneratorModel.Generator.SeedChain` | internal/receipt/receipt.go:309-338 | for any generator the number continues from the last stored receipt; the hash is that receipt's if the key is the same and is left as it was otherwise |
| `ChainRuns.BuiltIsGood` | internal/receipt/receipt.go:239-286 | every built receipt passes signature, trust and threshold validation |
| `ChainRuns.ChainAlwaysVerifies` | internal/receipt/receipt.go:222-286 | without restarts, under any failures and rotations, the store is one valid chain numbered 1, 2, 3 and so on |
| `ChainRuns.SegmentStartsAtForeignRestart` | internal/receipt/receipt.go:306-338 | a receipt appended at position i > 0 lacks its previous hash if and only if the last restart before it met receipt i - 1 as the last stored one and holds another key than that receipt's |
| `ChainRuns.RestartsSplitTheStore` | internal/receipt/receipt.go:306-338 | with restarts the numbering has no gaps, every stretch of linked receipts validates, and the whole store validates if and only if no receipt was appended by a generator that a foreign restart had cut off |
| `ChainRuns.RotateThenRestartBreaksTheChain` | internal/receipt/receipt.go:156-338 | a receipt, a rotation, a restart with the new key and another receipt leave two valid receipts that are not one valid chain |
| `ChainRuns.RestartRestores` | internal/receipt/receipt.go:309-338 | a restart restores the number always; it restores the hash exactly when it holds the last receipt's key and the generator was not cut off before, or when neither is the case |
| `ChainRuns.NoHashMeansCutOff` | internal/receipt/receipt.go:325-331 | in every run the generator has no last hash exactly when nothing is stored or the last restart met a foreign key and nothing was appended since |
| `BigEndian.OrderIsNumeric` | internal/receipt/store.go:185-186 | byte order of equally long big-endian keys is numeric order |
| `StoreModel.CheckIsAccepts` | internal/receipt/store.go:59-64 | an append is accepted exactly when ID and sequence number are both new |
| `StoreModel.MemoryStore.Append` | internal/receipt/store.go:56-70 | the list grows by the receipt or the first duplicate is reported, and the three indexes keep finding what the list holds |
| `StoreModel.MemoryStore.ListRange` | internal/receipt/store.go:107-117 | the receipts numbered in the range, in append order |
| `StoreModel.BoltStore.Append` | internal/receipt/store.go:172-202 | the same list and the same errors as in memory, plus the refusal of keys Bolt does not take, all or nothing |
| `StoreModel.BoltStore.GetByTxID` | internal/receipt/store.go:208-210 | the latest receipt of a transaction, through the index |
| `StoreModel.BoltStore.Count` | internal/receipt/store.go:216-218 | the number of appended receipts |
| `StoreModel.BoltStore.Last` | internal/receipt/store.go:220-242 | the receipt with the greatest number |
| `StoreModel.GreatestIsLast` | internal/receipt/store.go:98-105 | with increasing numbers that is the last appended one, as in memory |
| `StoreModel.BoltStore.ListRange` | internal/receipt/store.go:244-272 | the cursor walk lists exactly the receipts in the range, in sequence order |
| `StoreModel.RangesAgree` | internal/receipt/store.go:107-272 | with increasing numbers both stores list the same range |
| `StoreModel.BoltStore.BackfillSeqBucket` | internal/receipt/store.go:138-165 | an existing index is kept; an empty one is rebuilt for all stored receipts, or a shared number is reported and nothing changes |
| `StoreModel.BoltStore.RebuiltIndexIsValid` | internal/receipt/store.go:138-165 | the rebuilt index is the one the appends would have kept |
| `ReplayModel.ReplayDetector.constructor` | internal/security/replay.go:33-42 | an empty detector whose zero window means the default |
| `ReplayModel.ReplayDetector.Check` | internal/security/replay.go:49-102 | the verdict and the new index, including the periodic cleanup at a later clock reading |
| `ReplayModel.ReplayDetector.CleanupLocked` | internal/security/replay.go:112-126 | the nested deletions keep exactly the entries not older than the cutoff and forget emptied sources |
| `ReplayModel.ReplayOnlyAfterExpiry` | internal/security/replay.go:49-126 | a later acceptance of a number not larger from the same source implies the first message had left the window |
| `ReplayModel.NeverAcceptedTwice` | internal/security/replay.go:49-126 | no message is accepted twice, for every window below the largest duration |
| `ReplayModel.SaturatedWindowAcceptsTwice` | internal/security/replay.go:66-70 | with the largest duration a concrete run accepts one message twice |
| `ReplayModel.FreshIsAccepted` | internal/security/replay.go:66-93 | a message in time and numbered above everything accepted from its source is accepted, whatever was pruned |
| `Feed.OrderlyFeedIsAccepted` | internal/security/validator.go:61-90 | a validator given the receipts of any run in order accepts each one that is in time, whether or not earlier ones were stopped by their age |
| `Compliance.CheckHopsCompliant` | internal/pathcheck/compliance.go:10-32 | exactly the offending hops in path order, all hops under an unsupported mode |
| `Compliance.NoneOffends` | internal/pathcheck/checker.go:53-55 | nothing offends exactly when the mode is supported and every hop lies in an allowed ISD |
| `Compliance.Checker.Check` | internal/pathcheck/checker.go:36-83 | a path passes exactly when it is compliant and not a replay, and only compliant paths advance the detector |
| `Settlement.Gate` | internal/api/server.go:730-771 | a path passes exactly when the policy is known, the bytes extract, every hop complies and an attached replay detector lets it through; refusals are one of four answers |
| `ExactlyOnce.ReachInv` | internal/api/server.go:550-604 | the lock, the ledger's receipts, the minted receipts and every handler's assumptions agree in every reachable state |
| `ExactlyOnce.AttachKeepsInv` | internal/api/server.go:600-603 | attaching after a successful append never fails |
| `ExactlyOnce.SettlesExactlyOnce` | internal/api/server.go:550-845 | each ID is recorded once, at most one settlement receipt is ever appended for it, and every reported settlement names the attached stored receipt |
| `ExactlyOnce.AttachedForever` | internal/dlt/ledger.go:230-249 | once attached, the receipt of an ID is the same at every later point of any run |
| `Answers.SettledAnswersItsRequest` | internal/api/server.go:497-684 | every reported settlement answers a handler that was called with the parties, amount, currency, policy and path bytes of the request that submitted the ID |
| `Retry.SettlementIsLedgerRun` | internal/api/server.go:550-845 | under any interleaving of handlers the ledger is exactly what the ledger operations of the run, in order, make of it, so every ledger theorem carries over |
| `Retry.SettlementsReconcile` | internal/api/server.go:686-845 | from funded balances, with any interleaving and any failures: each ID is listed once and every balance is initial plus confirmed incoming minus outgoing, so an ID is debited at most once and totals stay |
| `Retry.StaysOnTrack` | internal/api/server.go:550-684 | nothing another handler does can divert a retry of a settled request; it is answered after three steps of its own |
| `Retry.RetryReturnsTheReceipt` | internal/api/server.go:632-684 | a retry with the same digest, under any interleaving and with a readable store, is answered with exactly the receipt attached before it began, which is in the store |
| `Retry.DuplicateIsNeverAnswered` | internal/api/server.go:632-684 | no handler of any run answers DUPLICATE_TX |
| `FailClosed.RetryIsVetted` | internal/api/server.go:632-657 | a retry goes on only with the bytes that were vetted, because the digest must match |
| `FailClosed.RejectedRetryConflicts` | internal/api/server.go:497-506 | once past the gate, a retry of a rejected ID is answered TX_CONFLICT |
| `Retry.RejectedRetryIsRefused` | internal/api/server.go:717-798 | under any interleaving a retry of a rejected ID is refused by the gate or answered TX_CONFLICT, and never settled |
| `FailClosed.NothingNonCompliant` | internal/api/server.go:326-783 | starting on any compliant store, every recorded settlement and every stored receipt names a policy that allows every hop of its path |
| `FailClosed.AttachedReceiptIsOwn` | internal/api/server.go:550-604 | the receipt attached to a transaction is stored and names the transaction, its policy, its fingerprint and exactly the path of the request that submitted it |
| `FailClosed.CompliantRequestIsUnique` | internal/api/server.go:470-495 | the digest determines parties, amount, currency and path bytes |
| `ServerChain.ServedChainVerifies` | internal/api/server.go:378-604 | starting on any well-formed store, under any interleaving and rotation: stored receipts are kept, what the server adds is one valid chain, and the whole is one valid chain if and only if it was one and the server added nothing or started with the last receipt's key |
| `Lifetimes.AtMostOnePerLifetime` | cmd/jurispath/main.go:165-190 | over any number of lifetimes on one store an ID gets at most one settlement receipt in each |
| `Lifetimes.RestartSettlesAgain` | cmd/jurispath/main.go:165-190 | a settled request is settled again by the next process, and the store holds two settlement receipts for its ID |
| `Lifetimes.UnhinderedSettles` | internal/api/server.go:686-845 | a complete, compliant and payable request that nothing hinders settles, with one receipt stored, booked and reported |
| `Lifetimes.StoreStaysCompliant` | internal/api/server.go:326-783 | every receipt stored in any lifetime names a policy that allows its path |
| `Lifetimes.StoreStaysWellFormed` | internal/receipt/receipt.go:309-338 | numbering, signatures and links of the store stay in order over all lifetimes |

## Left out

- HTTP, JSON decoding, authentication, audit log, violations, server-sent events and configuration: input and output around the modelled decisions.
- Real cryptography, key files, UUIDs and clocks: parameters of the steps, as described above; nothing about their strength is claimed.
- Parsing of SCION paths and fingerprints: one deterministic function from raw bytes to a path.
- Transaction timestamps: set by the ledger and read by nobody.
- Overflow of nonces and of the round counter: both are unbounded here; `NonceNeverUnderflows` bounds a nonce by its initial value plus the length of the history.
- Submitting the same transaction object twice, and changing one after submitting it: every submission is a new object here.
- Several proposers at once, and a proposer that also runs the follower loop on its inbox: outside the protocol's working assumptions.
- TransportModel.LocalTransport.Send: a send to a full queue fails at once, as if the context were done, because waiting is not a step; a send on a channel its owner has closed is not modelled.
- TransportModel.LocalTransport.Broadcast: fails at once on a full queue, like Send.
- TransportModel.LocalTransport.Receive: an empty queue answers nothing, where the code waits for a message, the end of the context or the closing of the channel.
- The engine's lock: settlement runs allow rounds to overlap and any vote outcome, which covers every serialised execution.
- Issue without append, used by a measurement tool only: it advances the generator without a stored receipt.
- Receipts in Bolt that do not decode: every stored value decodes here.
- Absent and empty proof lists are one value here, although they serialise differently.
