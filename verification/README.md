# pq-fabric: verified models of consensus, bundle transport and storage

This project models, in Dafny, the parts of pq-fabric whose correctness is a property of whole runs, and
proves those properties.

* **Consensus.** A validator answers proposals, precommit requests and commits (`Node`), certificates are
  formed and verified (`Protocol`), blocks drive a digest-chained state machine (`StateMachine`). `Safety`
  runs a network of honest validators beside Byzantine ones that sign anything under their own names, with
  messages lost, repeated and reordered and validators restarted, and proves voter discipline, agreement and
  the replicated log; `Restarts` shows that the bound on forgetful restarts is exact, and a store too long to
  open again. `Progress` runs one proposer round, also as steps of the network, `CatchUp` adopts a peer's
  chain, `Recovery` restarts from disk.
* **Storage.** `Storage` is the file store: logs, the maps rebuilt from them, and the evidence indexes.
* **Context channels.** `Channels` and `Manager` are the budgeted channel manager; `Scheduling` and
  `Scheduler` the weighted round-robin scheduler and the pure order it refines.
* **Bundles.** `Delivery` and `Retransmit` are the reorder buffer with its ledger; `Reconcile` merges the
  states of two replicas, `Replicas` those of many.
* **Rate limiting.** `RateLimit` is the token bucket per key.
* `Sorting`, `Ordering`, `Counting` and `Messages` hold what these share.

Objects that the Go code updates in place are classes (`Machine`, `Validator`, `FileStore`,
`ChannelManager`, `RoundRobin`, `Ledger`, `Queue`, `RateLimiter`); each method is proved equal to a function
on the object's abstract value, and the theorems are about runs of those functions. Loops of the Go code are
loops here, with iteration over Go maps in an arbitrary order. What those functions answer is stated again
in terms that do not name them: for voting and commits in `Voting` and `Commits`, for streams in `Streams`.

## How the world is represented

* **Hashes** are symbolic and injective: a digest is a text or the hash of bytes, of a transition or of a
  block. Canonical JSON is thereby a lossless encoding.
* **Signatures** are a signer and the ballot signed. Nobody can make an honest validator's signature, and a
  certificate can only be delivered once all its signatures have been made.
* **Clocks and peers** are parameters: reading times, ticks and what a foreign peer answers may be anything.
  gzip's output is a parameter of `Add`. The current time of the rate limiter is a parameter of `Allow`. How
  long the JSON line of a record is, is a parameter of loading a log.
* **Integers** are unbounded, and tokens and minutes of the rate limiter are real numbers.

## Model

| member | source | states |
|---|---|---|
| `Safety.Agreement` | consensus/validator/node.go:1041-1076 | For any set of loyal validators, the honest ones that no restart makes forget a precommit of the height in progress: if twice the threshold exceeds the number of validators plus that of those outside the set, then in every run any two commits that pass verification at one height carry the same block, whatever their rounds. Honest validators outside the set may be restarted at any moment. |
| `Safety.ReplicatedLog` | consensus/validator/node.go:882-957 | In every state so reached, logs of honest validators, loyal or not, agree block for block as far as both go, each is hash-chained from GENESIS with heights 1..k and replays to its machine, and equal heights mean equal last hash, digest and applied set. |
| `Safety.HonestVoter` | consensus/validator/node.go:1972-2084 | Over any run in which no restart makes the validator forget a vote of the height in progress, its votes within a height never go back in round, name one block per round and stage, and after a precommit all name that block and its round, whatever restarts do to the others. |
| `Safety.OnlyThatBlock` | consensus/validator/node.go:2073-2084 | Once fewer validators than the threshold are without a loyal validator's precommit for a block, no other block of that height is ever certified, whether that block is committed or not. |
| `Safety.DeadHeight` | consensus/validator/node.go:2029-2084 | If moreover those that have precommitted the block, are faulty, or are not yet beyond its round number fewer than the threshold, no block of that height is ever certified, as long as those beyond it are not restarted: the lock is never released and the height is dead. |
| `Restarts.ForgottenPrecommit` | consensus/validator/node.go:1078-1159 | The smallest run beyond the bound: one honest validator alone, restarted after its precommit, certifies two blocks at one height. |
| `Restarts.AgreementExactly` | consensus/validator/node.go:1041-1076 | For a committee that can certify anything at all, no run certifies two blocks at one height if and only if the quorum bound holds of the loyal validators. |
| `Restarts.BoundIsTight` | consensus/validator/node.go:1078-1159 | Whenever twice the threshold is at most the number of validators plus that of those that are not loyal, some run whose loyal validators forget nothing certifies two blocks at one height. |
| `Safety.StepKeepsVoting` | consensus/validator/node.go:1992-2027 | Every step of the network, a careful restart included, keeps: votes sent at the height in progress are recorded and in order, precommits there are covered by the lock, and no signature of an honest validator exists that it did not send. |
| `Safety.CertifiedAgree` | consensus/protocol/protocol.go:315-356 | Two certified commits at a height share an honest precommitter and hence the block. |
| `Protocol.QuorumsMeet` | consensus/protocol/protocol.go:344-354 | Two sets of voters of threshold size have a non-faulty member in common under the quorum bound. |
| `Protocol.VerifyQuorumCertificate` | consensus/protocol/protocol.go:315-356 | A certificate passes exactly if its header is sound, its threshold is between 1 and the number of identities, every vote supports its slot and is signed by its voter, voters are distinct, and the count is exact and reaches the threshold; the first complaint is reported. |
| `Protocol.VerdictMeaning` | consensus/protocol/protocol.go:315-356 | A certificate passes if and only if its decision is commit, its stage a vote stage, its height positive, its hash present, its threshold between 1 and the number of identities, and its votes valid, distinct, counted and enough: the order of checks decides the complaint alone. |
| `Protocol.FormStageQuorumCertificate` | consensus/protocol/protocol.go:273-313 | Forming succeeds exactly if the threshold is positive, the stage is a vote stage and enough distinct voters support the block; the result lists each supporter's first supporting vote in strictly increasing order of voter id. |
| `Protocol.FormedVoters` | consensus/protocol/protocol.go:283-312 | The voters of a formed certificate are exactly the supporters, each once. |
| `Protocol.FormedUnique` | consensus/protocol/protocol.go:293-312 | The votes determine the formed certificate completely. |
| `Protocol.FormedIsValid` | consensus/protocol/protocol.go:273-356 | If its votes verify, a formed certificate passes verification. |
| `Protocol.EveryValidatorProposes` | consensus/protocol/protocol.go:139-148 | In any window of as many rounds as there are validators, each is the scheduled proposer of a round, and if the ids are distinct of exactly one. |
| `Protocol.ProposerRotates` | consensus/protocol/protocol.go:139-148 | The first validator proposes at height 1 in round 0, and one round or one height later it is the next one's turn. |
| `Node.Validator.VoteForProposal` | consensus/validator/node.go:1972-2027 | The method's answer and new state are those of the vote function used in all runs: certificate check, proposal check, lock, recorded vote, signature. |
| `Voting.VoteMeaning` | consensus/validator/node.go:1972-2084 | A vote is given if and only if the block is for the next height, in no earlier round, by the scheduled proposer, on the last hash, with the digest the machine reaches, the only one of its proposer in the round, not locked out, with no other vote in the round and stage, and for a precommit a valid certificate of prevotes for it. |
| `Voting.VoteEffect` | consensus/validator/node.go:2009-2027 | A vote given is the one recorded for the round and stage, or a new one that is recorded with the proposal and its round; a new precommit locks the block; nothing else changes. |
| `Voting.VoteAgain` | consensus/validator/node.go:2002-2008 | The same request again gets the same vote and changes nothing more. |
| `Voting.ContinuesMeaning` | consensus/validator/node.go:2047-2062 | For a chained log, a block continues it exactly if it has the next height, the last hash, and the digest that replaying all blocks and it gives. |
| `Voting.RefusalMeaning` | consensus/validator/node.go:1978-2084 | The complaint with which a vote is refused is true of the block, the state or the certificate. |
| `Voting.RequestMeaning` | consensus/validator/node.go:1923-1972 | A peer answers a request with a vote exactly if the proposal is signed by its proposer and the vote may be given. |
| `Voting.PrecommitsBacked` | consensus/validator/node.go:1978-1991 | In every run, whatever the restarts, behind each precommit of an honest validator stands a valid certificate of prevotes for the same block, height and round: at least as many members as the threshold it carries signed such a prevote, the honest ones by sending it. |
| `Voting.ThinCertificate` | consensus/validator/node.go:1978-1991 | The threshold that a prevote certificate carries is not compared with the committee's: whatever the latter is, an honest validator can be made to precommit a block for which it alone has prevoted. |
| `Node.Validator.ValidateProposal` | consensus/validator/node.go:2029-2071 | Every complaint in the order of the checks; an acceptable proposal is remembered and moves the round forward, a refused one changes nothing. |
| `Node.Validator.ApplyCommit` | consensus/validator/node.go:882-957 | A commit is refused with the first complaint, accepted again without effect, or locks, is stored and appended, moves the machine and opens round 0 of the next height. |
| `Commits.CommitMeaning` | consensus/validator/node.go:1041-1076 | A commit verifies exactly if its certificate is a valid one of precommits for its block at the committee's threshold and membership, from the scheduled proposer, with a state digest. |
| `Commits.AcceptMeaning` | consensus/validator/node.go:882-957 | A commit passes if and only if it is valid and in the log already, or the log with it is a chain and its round is not over; exactly then, in the second case, it is appended. |
| `Commits.OldCommit` | consensus/validator/node.go:899-910 | A valid commit at a height of the log leaves the state; it passes if the block there is the same and is conflicting otherwise. |
| `Commits.AcceptEffect` | consensus/validator/node.go:928-952 | An accepted commit locks its block, becomes the last hash, moves the machine to the replay of the log and opens round 0 of the next height. |
| `Commits.AcceptStores` | consensus/validator/node.go:1161-1200 | The record and the validator state that an accepted commit stores, field by field. |
| `Commits.RefusalMeaning` | consensus/validator/node.go:882-957 | The complaint about a commit is true of the commit, its certificate or the state. |
| `Commits.AcceptedAgain` | consensus/validator/node.go:899-910 | A commit that a validator accepted passes again, without effect, at every later point of any run. |
| `Commits.NeverConflicting` | consensus/validator/node.go:899-910 | Under the conditions of agreement, a certified commit at or below the height of an honest validator is the one in its log and passes without effect: it is never called conflicting. |
| `Node.Validator.MarkRound` | consensus/validator/node.go:861-868 | The round of a height only moves forward. |
| `Chain.AcceptKeepsChain` | consensus/validator/node.go:911-950 | Accepting or refusing any commit keeps the log linked, its replay equal to the machine and the store equal to the log. |
| `Chain.VoteKeepsChain` | consensus/validator/node.go:1992-2027 | Voting touches nothing but votes, lock, proposals and round. |
| `Progress.ProposeRound` | consensus/validator/node.go:758-840 | If at least a threshold of validators, the scheduled proposer among them, share a log, are unlocked at the height, not beyond the round and have neither vote nor proposal recorded in it, the round commits whatever all other peers answer, and all of them end with that commit and the machine its payload leads to. For validators of a network the round is a sequence of its steps. |
| `Progress.ProposeInRun` | consensus/validator/node.go:758-840 | In every reachable state of a network in which that holds, further steps reach a state where the commit is certified and all those validators have it. |
| `Progress.CollectVotes` | consensus/validator/node.go:783-798 | The request loop is the fold of asking the peers in turn. |
| `Progress.AskAllReady` | consensus/validator/node.go:783-798 | Every ready peer that was asked has voted and moved on, whatever the others answer. |
| `Progress.AskAllVotes` | consensus/validator/node.go:783-798 | The votes collected are one's own and exactly the valid answers of the peers asked, each asked in the state it had at the beginning. |
| `Progress.SimStage` | consensus/validator/node.go:777-798 | The proposer's own vote and the answers are steps of the network, after which all votes kept are known in it. |
| `Progress.Broadcast` | consensus/validator/node.go:2200-2233 | The broadcast is the fold of delivering to the peers in turn. |
| `Progress.DeliverAllMeaning` | consensus/validator/node.go:2200-2233 | Each peer's state becomes that of applying the commit, all others stay. |
| `Progress.NewBlockReady` | consensus/validator/node.go:842-859 | The proposer's new block is acceptable to every validator that shares its log. |
| `CatchUp.CatchUpSound` | consensus/validator/node.go:959-1039 | After a candidate chain is validated, applying its new commits succeeds at every height if and only if the local round of the next height is not above the round of the first new block, and then ends at the candidate's blocks, last hash and replayed machine. |
| `CatchUp.ValidateCandidate` | consensus/validator/node.go:990-1039 | The verdict on a candidate: not shorter, same blocks so far, and every further commit at its height, linked, certified and with the digest the working copy of the machine reaches. |
| `CatchUp.CandidateMeaning` | consensus/validator/node.go:990-1039 | A candidate passes if and only if it is not shorter than the log, has the same blocks so far, and the log with its further commits is a chain. |
| `CatchUp.PeerAccepted` | consensus/validator/node.go:990-1039 | Under the conditions of agreement, the log of any honest validator is a valid candidate for every honest validator that is not ahead of it. |
| `CatchUp.CatchUpFromPeers` | consensus/validator/node.go:959-988 | The validator applies the chosen chain beyond its log up to the first refusal. |
| `CatchUp.BestIsLongest` | consensus/validator/node.go:960-975 | The chosen chain is valid and no valid chain offered is longer. |
| `CatchUp.BestIsFirst` | consensus/validator/node.go:960-975 | Of several longest valid chains the first one offered is chosen, and the own one if none is longer. |
| `Recovery.RoundTrip` | consensus/validator/node.go:1078-1159 | The log that a validator stored loads again exactly if every line is shorter than the scanner's limit of 65,536 bytes, and then to the map that was stored, from which come the same log, last hash and machine, locked on the last committed block. |
| `Recovery.RunsRecover` | consensus/validator/node.go:938-950 | The same for every honest validator at every point of every run of the network: it recovers exactly if all lines it wrote are short. |
| `Recovery.Restart` | core/storage/file.go:40-60 | Opening the files again fails exactly if the state file cannot be parsed or some line is too long or lacks a required field, and otherwise loading them gives a validator in exactly that state. |
| `Restarts.TooLongToReload` | core/storage/file.go:524-552 | The losing input: nothing bounds a line that is written, so a validator that commits a block with a payload of 65,536 characters has a log that does not load again. |
| `Recovery.LoadPersistedState` | consensus/validator/node.go:1078-1159 | The loading loop as a function of the stored records and state, with every complaint; on a complaint nothing changes. |
| `Recovery.LoadsExactly` | consensus/validator/node.go:1078-1159 | Loading succeeds if and only if the records, whoever wrote them, hold a chain of valid commits from GENESIS and the stored state, if any, is of this validator at its end; the validator then has that chain, its machine and the stored lock. |
| `StateMachine.DigestDeterminesHistory` | consensus/state/state.go:62-119 | Two reachable machines have equal digests exactly if they applied the same sequence of non-empty batches, and are then equal. |
| `StateMachine.RunMeaning` | consensus/state/state.go:67-119 | Of every reachable machine: its digest is the chained hash of its batches, none is empty, ids across them are pairwise distinct and are the applied set. |
| `StateMachine.DigestInjective` | consensus/state/state.go:110-118 | Chained digests are equal only for equal lists of batches. |
| `StateMachine.FreshMeaning` | consensus/state/state.go:91-109 | What a transition selects: exactly the ids not applied before, each once, in the order of the input. |
| `StateMachine.FreshSucceeds` | consensus/state/state.go:95-100 | Selecting fails exactly if a transaction has neither id nor payload to name it. |
| `StateMachine.SelectFresh` | consensus/state/state.go:91-109 | The loop computes the selection, with its complaint. |
| `StateMachine.TransitionDigest` | consensus/state/state.go:87-119 | Digest and batch are those of the transition, and the number of new transactions is the growth of the applied set. |
| `StateMachine.TransactionIdInjective` | consensus/state/state.go:35-37 | Different payloads give different ids, none of them blank. |
| `StateMachine.TransitionMeaning` | consensus/state/state.go:87-119 | A transition succeeds exactly if there is a digest and every transaction has an id that is not blank or a payload; it applies the id of each, and the digest moves exactly if one of them is new. |
| `StateMachine.Machine.Apply` | consensus/state/state.go:67-77 | Digest and applied set move on together, or neither changes. |
| `StateMachine.Machine.Preview` | consensus/state/state.go:62-65 | The digest and count that Apply would give. |
| `Storage.LookupsScan` | core/storage/file.go:200-277 | After any sequence of saves, lookups by evidence id, receipt id and idempotency key return the one record a scan of the log finds, by certificate hash the latest one. |
| `Storage.SaveKeepsUnique` | core/storage/file.go:200-225 | A save keeps evidence ids, receipt ids and non-empty keys unique. |
| `Storage.ReplayEvidence` | core/storage/file.go:401-426 | The same for any evidence log, where evidence ids and receipts must determine each other and a key its evidence; all four maps are rebuilt. |
| `Storage.ReplayCommits` | core/storage/file.go:359-376 | Replaying any commit log succeeds exactly if every line is short and has its required fields and no height has two blocks, and rebuilds the map. |
| `Storage.ReplayIdempotency` | core/storage/file.go:377-391 | The same for any idempotency log, where no transaction may have two results. |
| `Storage.FileStore.SaveCommit` | core/storage/file.go:85-112 | A conflicting height is refused without effect; otherwise the log, the map and the state file move together. |
| `Storage.FirstStays` | core/storage/file.go:85-112 | Whatever is saved later, the record of a height stays the first one. |
| `Storage.SaveOutcome` | core/storage/file.go:85-112 | After any saves, a record is refused if and only if the first one saved at its height has another block. |
| `Storage.FileStore.RecordIdempotency` | core/storage/file.go:142-157 | A transaction id is applied exactly if it was unknown, and the first result hash stays. |
| `Storage.FileStore.SaveEvidence` | core/storage/file.go:200-225 | Created, returned as existing, or refused; only a creation touches the log. |
| `Storage.EvidenceOutcome` | core/storage/file.go:200-225 | What a save answers, by scanning the log: a record of the same id, existing or in conflict by its receipt; else one of the same key, existing; else one of the same receipt, in conflict; and created exactly if there is none. |
| `Storage.FileStore.EvidenceByReceiptId` | core/storage/file.go:237-249 | The indexed lookup equals a scan of the log. |
| `Storage.FileStore.EvidenceByIdempotencyKey` | core/storage/file.go:251-263 | The indexed lookup equals a scan of the log. |
| `Storage.FileStore.EvidenceByQcHash` | core/storage/file.go:265-277 | The indexed lookup equals a scan for the latest record. |
| `Storage.SortedCommitRecords` | core/storage/memory.go:247-273 | Lists the records of all heights, each once, in ascending or descending order, cut at a positive limit. |
| `Storage.OpenFileStore` | core/storage/file.go:355-469 | Opening any disk succeeds exactly if the state file parses, every line of the five logs is shorter than 65,536 bytes and has its required fields, and no two lines contradict each other, as on a disk that a store wrote; then all maps agree with the logs. |
| `Scheduler.Schedule` | bundle/channel/channel.go:286-360 | For any policies, repeated ids included, and any items: building a scheduler and calling Next until it fails yields exactly the reference order over the sorted different channels, each at its quota times the number of policies that name it (once if none does), and of every channel exactly its items by sequence. |
| `Scheduler.RoundRobin.constructor` | bundle/channel/channel.go:286-313 | Sorted channels, each listed as often as policies name it, those without a policy once and at weight 1, queues sorted by sequence, no deficit. |
| `Scheduler.RoundRobin.Next` | bundle/channel/channel.go:315-348 | Succeeds exactly if something is queued, takes the first item of what is still to be served, and leaves a deficit only under the cursor. |
| `Scheduler.RoundRobin.Drain` | bundle/channel/channel.go:315-348 | Repeated calls give everything still to be served, in order. |
| `Scheduler.RoundRobin.Len` | bundle/channel/channel.go:350-356 | The number of queued items, in whatever order the queues are visited. |
| `Scheduler.NoneStarves` | bundle/channel/channel.go:315-360 | In every scheduler state, a non-empty channel gets its head served after at most the sum of the other channels' quotas, each times the number of its turns in a round. |
| `Scheduler.DistinctShares` | bundle/channel/channel.go:286-313 | Without repeated ids the channels are the ids listed and the quotas their weights, or 1. |
| `Scheduler.LastWeight` | bundle/channel/channel.go:292-295 | Its weight is that of the last policy that names it. |
| `Scheduler.QuotaMeaning` | bundle/channel/channel.go:286-337 | The quota of a channel is its weight, at least 1, times the number of policies that name it, and 1 without one. |
| `Scheduling.UpcomingIsRest` | bundle/channel/channel.go:315-360 | From any cursor and deficit, visit by visit service equals the rest of the round followed by whole rounds. |
| `Scheduling.UpcomingIsRounds` | bundle/channel/channel.go:315-360 | From a fresh start it equals rounds that take min(max(1, weight), queue length) items per channel in order until all queues are empty. |
| `Scheduling.RoundsPermute` | bundle/channel/channel.go:286-360 | The reference order loses, invents and reorders nothing within a channel. |
| `Scheduling.NoStarvation` | bundle/channel/channel.go:328-343 | The service bound on quotas and queues, for every point of every round. |
| `Scheduling.ServedWithin` | bundle/channel/channel.go:315-360 | A bound, from where the cursor is, on the items of other channels that come first. |
| `Scheduling.ServedAfter` | bundle/channel/channel.go:315-360 | The bound is met: exactly as many come first if the channels whose turns come before have enough queued. |
| `Manager.ChannelManager.AddItem` | bundle/channel/channel.go:112-150 | Unknown channel and failed compression change nothing; otherwise the item gets the next sequence, and afterwards all caps hold and the accounts balance. |
| `Manager.AnswerMeaning` | bundle/channel/channel.go:112-120 | An Add is turned down exactly on an unknown channel, an unknown compression, or a gzip that fails. |
| `Manager.AcceptedMeaning` | bundle/channel/channel.go:112-141 | The item accepted has the next number, the type and weight of its channel, the payload or what gzip made of it, and the size of that. |
| `Manager.ChannelManager.CommitItem` | bundle/channel/channel.go:152-165 | Hands over the first pending item of that id; accounts and caps are kept. |
| `Channels.CommitMeaning` | bundle/channel/channel.go:152-165 | The first pending item of the id moves to the delivered ones, and nothing else changes. |
| `Manager.ChannelManager.EvictFromChannel` | bundle/channel/channel.go:239-254 | Under either eviction policy the oldest pending item goes. |
| `Manager.Victim` | bundle/channel/channel.go:243-250 | The search for the lowest priority always ends at the first item. |
| `Manager.ChannelManager.EnforceChannelBudget` | bundle/channel/channel.go:215-227 | The loop ends, with the channel trimmed. |
| `Manager.ChannelManager.EnforceTotalBudget` | bundle/channel/channel.go:229-237 | The loop ends, with the whole manager shrunk. |
| `Manager.ChannelManager.LowestPriorityNonEmptyChannel` | bundle/channel/channel.go:256-268 | The loop finds the channel that goes first among the non-empty ones. |
| `Manager.ChannelManager.BudgetUsed` | bundle/channel/channel.go:189-195 | The bytes of all pending items. |
| `Manager.ChannelManager.ServeAll` | bundle/channel/channel.go:167-213 | Snapshot, policies and scheduler together: draining the manager's scheduler follows the reference order over exactly the manager's channels, sorted, at the weights of their policies, and serves exactly the pending items of every channel, in order. |
| `Manager.ChannelManager.SnapshotItems` | bundle/channel/channel.go:167-179 | All pending items, sorted by channel and sequence. |
| `Manager.NewManager` | bundle/channel/channel.go:81-110 | Fails exactly on a policy without id, type or positive weight or with a repeated id; otherwise all channels are empty. |
| `Manager.NewChannelsAt` | bundle/channel/channel.go:81-110 | Every channel of a new manager has its policy, noop and oldest-first unless it says otherwise, and starts at number 1. |
| `Channels.Run` | bundle/channel/channel.go:112-165 | After any sequence of Add and Commit calls every positive item, byte and total cap holds, and every sequence number issued is accounted for. |
| `Channels.OnePlace` | bundle/channel/channel.go:112-165 | A sequence number of a channel is in exactly one of pending, committed and evicted if it was issued, and in none otherwise. |
| `Channels.AddedKeeps` | bundle/channel/channel.go:144-149 | An Add re-establishes all caps. |
| `Channels.PayloadsWithin` | bundle/channel/channel.go:122-149 | After any sequence of calls the caps hold of the number of items and of the bytes of their payloads. |
| `Channels.AddedOrder` | bundle/channel/channel.go:229-268 | If an Add evicts from a channel for the total budget, every channel of strictly smaller weight is empty afterwards. |
| `Channels.ShrunkOrder` | bundle/channel/channel.go:229-268 | The same for the whole eviction loop from any state. |
| `Channels.ShrunkWithin` | bundle/channel/channel.go:229-237 | The total cap holds when the loop ends, also when it ends for want of items. |
| `Channels.TrimmedLeast` | bundle/channel/channel.go:215-227 | Nothing is evicted that could have stayed. |
| `Channels.TrimmedRecords` | bundle/channel/channel.go:215-227 | Items go from the front, each recorded with the cap that was broken when it went. |
| `Channels.TrimmedMeaning` | bundle/channel/channel.go:215-227 | The channel ends within its caps, the other channels as they were. |
| `Channels.LowestMeaning` | bundle/channel/channel.go:256-268 | No non-empty channel has a smaller weight, or the same weight and an older head, than the chosen one. |
| `Delivery.RunConsistent` | bundle/retransmit/queue.go:41-77 | For bundles with unique ids, transactions and places in their streams: over any order, repetition, refusal, expiry and confirmation, every bundle accepted and not dropped is applied below its stream's expected number and held from there on. |
| `Delivery.ConsistentExactly` | bundle/retransmit/queue.go:117-122 | All accepted bundles are so placed throughout a run if and only if no call dooms a bundle, and then none is dropped. |
| `Delivery.DropsExactly` | bundle/retransmit/queue.go:102-127 | A call drops a bundle exactly if the bundle is doomed, which the state before the call tells: the call drains the bundle's stream from a smaller number, the bundle does not validate at that time, and every number in between has a held bundle that does. |
| `Delivery.NothingDropped` | bundle/retransmit/queue.go:117-122 | No call dooms a bundle in a run whose bundles validate up to its last tick, and nothing is dropped. |
| `Delivery.HeldTooLong` | bundle/retransmit/queue.go:117-122 | A bundle is lost that is valid until tick 5, held, and found by a drain at tick 10. |
| `Streams.ValidUntil` | bundle/protocol/envelope.go:151-177 | A valid bundle stays valid exactly up to and including its expiration tick, or for ever without one. |
| `Delivery.LeastMissing` | bundle/retransmit/queue.go:102-135 | The expected number of a stream is the least positive one without an accepted bundle. |
| `Delivery.HeldAndApplied` | bundle/retransmit/queue.go:41-69 | Held are exactly the bundles above it, in the ledger exactly those below. |
| `Streams.StreamExactly` | bundle/retransmit/queue.go:137-139 | For node ids without the separator, two bundles share a stream if and only if source, destination and channel are the same. |
| `Streams.StreamsCollide` | bundle/retransmit/queue.go:137-139 | A separator inside a node id can make two routes one stream. |
| `Streams.RoutesApart` | bundle/retransmit/queue.go:41-69 | A submission leaves what any other source, destination or channel expects as it was. |
| `Streams.RouteWaits` | bundle/retransmit/queue.go:129-139 | In every run the number waited for is the least positive one of which no bundle of that source, destination and channel is there. |
| `Streams.HeldExactly` | bundle/retransmit/queue.go:41-69 | In every run a bundle kept is in the ledger exactly if all earlier ones of its source, destination and channel are there, and held exactly if one is missing. |
| `Streams.AnswerExactly` | bundle/retransmit/queue.go:41-69 | In every run a valid bundle is held exactly if an earlier one of its source, destination and channel is missing; otherwise a new one is reported as applied and a known one gets its first result, not applied. |
| `Delivery.RunsAgree` | bundle/retransmit/queue.go:41-135 | Two runs in which the same bundles are accepted and not dropped end with the same expected numbers, held bundles and ledger. |
| `Delivery.OrderIndependent` | bundle/retransmit/queue.go:41-135 | The same for any two consistent buffers. |
| `Delivery.Retransmitted` | bundle/retransmit/queue.go:79-86 | Offered for retransmission is exactly what is there and not confirmed. |
| `Delivery.AppliedOnce` | bundle/retransmit/ledger.go:44-72 | Over any run at all, no transaction id is reported as applied twice. |
| `Delivery.LateMeaning` | bundle/retransmit/queue.go:52-68 | In any state, a new transaction under an old number is applied at once, out of order, and no stream moves. |
| `Delivery.KnownMeaning` | bundle/retransmit/queue.go:52-68 | In any state, a transaction in the ledger is not applied again and moves no stream, even under the expected number. |
| `Delivery.FirstResult` | bundle/retransmit/ledger.go:44-72 | Every later submission of a transaction reported as applied, unless held or refused, gets the same result back marked as not applied. |
| `Delivery.SubmittedConsistent` | bundle/retransmit/queue.go:41-69 | One valid submission keeps every bundle in its place that it does not drop. |
| `Delivery.DrainKeeps` | bundle/retransmit/queue.go:102-127 | So does draining, whichever held bundle is found first. |
| `Retransmit.Serve` | bundle/retransmit/queue.go:29-77 | A new queue serving any calls goes through a run of the state machine, so all of the above holds of it. |
| `Retransmit.Queue.Submit` | bundle/retransmit/queue.go:41-69 | Answer and new state for every envelope, valid or not, unique or not. |
| `Retransmit.Queue.DrainReady` | bundle/retransmit/queue.go:102-127 | The open loop ends, with nothing ready, or a bundle without id in the way. |
| `Retransmit.Queue.Confirm` | bundle/retransmit/queue.go:71-77 | True exactly for an unconfirmed bundle, which is forgotten. |
| `Retransmit.Queue.PendingForRetransmit` | bundle/retransmit/queue.go:79-100 | All unconfirmed and held bundles, by source, destination, channel and sequence. |
| `Retransmit.Ledger.Apply` | bundle/retransmit/ledger.go:44-72 | First result kept; later calls get it back marked as not applied. |
| `Reconcile.Reconciled` | bundle/reconcile/reconcile.go:76-128 | Compare then Apply fails exactly if a bundle is known under two digests, and then leaves the local state. Otherwise the remote bundles are taken over beside the local ones, the new ones with their custody status and no longer pending, other statuses and pending ids stay, and the context is renewed exactly if there was a new one; on compatible well-formed states it is the join and well-formed. |
| `Reconcile.Compare` | bundle/reconcile/reconcile.go:76-95 | Sorts the remote bundles, each once and in order, into missing, duplicate and conflicting. |
| `Reconcile.Apply` | bundle/reconcile/reconcile.go:97-128 | Takes over exactly the missing records that the remote has, prunes pending ids and renews the context digest. |
| `Reconcile.LearnedCustody` | bundle/reconcile/reconcile.go:111-113 | The custody status of a bundle taken over is the remote one if there is one; all others stay. |
| `Reconcile.KeepMeaning` | bundle/reconcile/reconcile.go:117 | What stays pending: of every id not applied as many as before, of the applied ones none. |
| `Reconcile.JoinMeaning` | bundle/reconcile/reconcile.go:101-116 | Taking over the missing records gives the union of bundles and committed ids and the later of the latest sequences. |
| `Reconcile.JoinWellFormed` | bundle/reconcile/reconcile.go:97-128 | Committed ids and latest sequences stay those induced by the bundles. |
| `Reconcile.JoinCompatible` | bundle/reconcile/reconcile.go:97-128 | What is compatible with two states is compatible with their join. |
| `Reconcile.Commutative` | bundle/reconcile/reconcile.go:97-128 | The join is commutative on bundles, committed ids and latest sequences. |
| `Reconcile.Associative` | bundle/reconcile/reconcile.go:97-128 | It is associative. |
| `Reconcile.Idempotent` | bundle/reconcile/reconcile.go:97-128 | It is idempotent. |
| `Reconcile.Settled` | bundle/reconcile/reconcile.go:76-95 | After a join, comparing with either part is a no-op. |
| `Replicas.Gossip` | bundle/reconcile/reconcile.go:76-128 | Over any run of reconciliations in pairs between replicas whose initial states are compatible and well-formed, every replica is the join of the initial states that have reached it, and well-formed. |
| `Replicas.JoinOfBoth` | bundle/reconcile/reconcile.go:97-128 | The join of the joins of two sets of states is the join of both sets. |
| `Replicas.SameJoin` | bundle/reconcile/reconcile.go:97-128 | Replicas that the same initial states have reached have the same bundles, committed ids and latest sequences. |
| `RateLimit.RateBound` | consensus/validator/rate_limit.go:36-61 | Over any run, interleaved with any other keys and with a clock that may step back, calls allowed on a key are at most the burst plus the tokens earned from its first to its highest reading. |
| `RateLimit.RatePerMinute` | consensus/validator/rate_limit.go:36-61 | At a positive rate per minute the bound is the burst plus the rate times the span. |
| `RateLimit.SaneRate` | consensus/validator/rate_limit.go:48-55 | Earning at a positive rate per minute is linear and grows with time, as the bound wants. |
| `RateLimit.Independent` | consensus/validator/rate_limit.go:36-61 | What happens to a key is what would happen to it alone. |
| `RateLimit.BurstExact` | consensus/validator/rate_limit.go:43-60 | The bound is met: at one instant a new key gets exactly the burst. |
| `RateLimit.AllowedExactly` | consensus/validator/rate_limit.go:36-61 | All calls on a new key are allowed if and only if from any call to any later one there are no more than the burst and what is earned between the highest readings up to each. |
| `RateLimit.RunAllowedExactly` | consensus/validator/rate_limit.go:36-61 | The same in a run of a new limiter interleaved with calls on other keys. |
| `RateLimit.BurstAllowed` | consensus/validator/rate_limit.go:43-60 | The first calls on a new key, as many as the burst, are all allowed at whatever times. |
| `RateLimit.Conserved` | consensus/validator/rate_limit.go:48-60 | The same balance from any bucket, over any calls, whatever the clock does. |
| `RateLimit.NewKeyConserved` | consensus/validator/rate_limit.go:36-61 | On a new key, calls allowed, tokens left and tokens cut off at a full bucket are together exactly the burst plus what was earned from the first reading to the last refill. |
| `RateLimit.PatienceRewarded` | consensus/validator/rate_limit.go:48-60 | Once the time for one token has passed, a call is allowed. |
| `RateLimit.RateLimiter.Allow` | consensus/validator/rate_limit.go:36-61 | The bucket of the key moves as the model says, all others stay, tokens stay between 0 and the burst. |
| `RateLimit.RateLimiter.constructor` | consensus/validator/rate_limit.go:21-34 | Defaults of 60 a minute and a burst of 20. |

## Left out

- Membership change and manifest history: one committee and no manifest; membership versions and set hashes are only compared as fields.
- Storage that fails in the middle of ApplyCommit: the lock is set before the commit is saved.
- Safety.Agreement and Safety.ReplicatedLog: votes and the lock of a height in progress live only in memory, so both depend on how many validators restarts make forget a precommit; `Restarts.AgreementExactly` shows how many is too many.
- Real cryptography, base64 and JSON: ML-DSA, Ed25519, SHA-256 and canonical encodings are library calls.
- Lock source fields, timestamps of records, event strings, metrics, tracing and error texts: errors are an enumeration of their causes.
- Propose's loop over rounds, requests to another proposer, HTTP, TLS, timeouts, health probes: only the order and loss of messages matter here.
- Custody signing: it signs precommits outside the voting path and is not part of the honest signer.
- Evidence receipts inside ApplyCommit: writing them does not influence consensus state.
- The in-memory store as an object of its own: it keeps the same maps as the file store without the logs; its commit listing is `Storage.SortedCommitRecords`.
- Closed stores, saving snapshots and audit records, evidence listings, temporary files, partial writes and log lines that are not JSON: I/O and field copies.
- Scheduler order among items of one channel with equal sequence numbers: Go's sort is not stable, so only sortedness and contents are stated.
- Item digests, decompression and defensive copies: hashing and copying of values already modelled.
- Streams.StreamExactly and the results on routes: are about node ids without the separator character, which the code does not check; `Streams.StreamsCollide` shows that it matters.
- Voting.PrecommitsBacked: promises as many prevotes as the threshold in the certificate, not in the committee, because the code compares only the former; see `Voting.ThinCertificate`.
- Delivery.RunConsistent: assumes unique, non-empty bundle ids and unique transaction ids and sequence numbers per stream, for an old sequence number with a new transaction id is applied out of order by design of the code.
- The persistent branch of the ledger: it delegates to the store's RecordIdempotency, which is modelled in `Storage`.
- Reconcile.JoinMeaning: custody status, pending ids and the context digest are not part of the join, because Apply copies a status only for missing bundles.
- Saved reconcile snapshots: JSON round trips through the store.
- A rate limiter that is not configured (nil) allows everything; only a configured one is modelled. Rounding of floating point is not modelled.
- Wrap-around of 64-bit heights, rounds and sequence numbers.
- The CCSDS priority queue, routing, onion layers, SOCKS5, authentication, deployment and command-line tools.
