# toyraft: a verified model

This project models the Raft core of toyraft (`pkg/raft`), its segmented file store
(`pkg/storage/file`) against its memory store (`pkg/storage/memory`), and the
commit, apply and checkpoint pipeline over the key/value state machine
(`pkg/kvsm`), and proves what they promise.

`dafny verify dfyconfig.toml` checks everything.

## What is modelled

**A node** appears twice. `NodeSpec` gives every `*Locked` handler as a function on a
node value: same branches, same order, same constants, with the in-memory log and
the stored log side by side. `RaftNode` is the object of the code, with its fields,
its loops and its calls into the log object and the storage object (`EntryLog`);
every method is proved to do exactly what its function says.

**A cluster** (`Cluster`) is a deterministic function of a schedule of steps: tick,
deliver, propose, Ready, save the hard state, send one message, enqueue a committed
entry, apply it, checkpoint, crash and restart, and crash in the middle of a
follower's log write. The network is the set of all messages ever sent, so a
schedule may lose, repeat, delay and reorder them. A crash can fall between Ready,
the save and each send. Every election timeout is an arbitrary draw. A ghost history
records who won each term, with whose votes, and the log of that leadership.

**Proof structure.** Each step is broken into small protocol actions (`Actions`,
`Refinement`). Invariants are shown inductive for one action at a time: `Shape` (the
hard-state pipeline), `Votes`, `Logs` and `LogSteps`, then `Acks`, `Commits` and
`Applied`. `Theorems`, `Safety`, `Guards` and `Epochs` lift them to whole runs: they
speak about any two moments of any schedule.

**What single steps achieve.** `Ballots` says which log passes which and exactly when a
vote is given, and that enough votes make a leader; `Handlers` how terms, commit indexes,
leader hints and timers move; `Promptness` that leaders commit as soon as they may.

**The hypothesis.** A follower that accepts an AppendEntries answers with its
`LastIndex()` (`pkg/raft/append_entries.go:97`), while the field is documented as the
last *matching* index (`pkg/raft/types.go:113`). The model follows the code. A
follower with a longer stale log then acknowledges entries the leader never sent, and
the leader may count them. Leader Completeness, State Machine Safety and everything
built on them therefore carry the hypothesis `TrueAcks`, which is what the field's
documentation says: when a Success reply is given, the acknowledged log is a prefix
of the log of the term it answers. Late, repeated and reordered requests of one leader
are within it (`FollowerTellsTruth`). `HypothesisIsNeeded` builds a run of three
nodes, without crash or loss of data, in which two nodes commit different entries at
index 1; in `PanicIsReachable` the truncation panic fires, and in `RuleIsMissed` the
commit rule leaves an index uncommitted that Figure 2 of the Raft paper allows.
`SuccessIsTruthfulIff` says when a follower can be sure of its reply from what it has
at hand, and `SureRunsAreTrue` that a run in which every follower is sure meets the
hypothesis. Election Safety, Log Matching, the append assertions, vote durability, the
commit bounds and the epoch filter need no hypothesis.

`Claims` is about Success replies, `Replication` about probing and redelivery,
`CommitRule` about the commit rule; `Trace` builds concrete runs, which `Witness`,
`MissedCommit` and `Lapses` use.

**Promises that fail.** Four statements of the source are not invariants of it, and each
gets its exact condition over all runs and, in `Lapses`, a run that breaks it. The debug
check at Ready that no waiting Success reply claims more than the log holds
(`pkg/raft/ready_assert_debug.go:80-95`) fails exactly when a delivery cuts the log below
such a reply (`ReadyChecks`). Of what Status documents (`pkg/raft/status.go:17-18`),
CommitIndex >= ApplyIndex fails exactly while the commit index is behind the checkpoint
the process started from, and LastLogIndex falls exactly when a conflicting, shorter
request is accepted (`StatusOrder`). Propose waits for its entry to be applied
(`pkg/raft/node_public.go:305-308`), but its waiter is keyed by index: it gets the answer
to its own entry exactly when the entry applied there has the term Propose returned
(`Proposals`).

**The store.** `Codec` and `Segments` hold the byte formats, `SegmentList` the tiling
of a log by segments, `FileStore` the store object, `Stores` its equivalence with the
memory store, `Recovery` the scan of a directory, `Reopen` what a reopened store has,
and `AtomicFile` the hard-state and snapshot files over a file system that can crash.
`CrashedReopen` is what entitles the cluster to model a crash inside a log write as
keeping a prefix of the batch. A reopened store goes on as one exactly when the name of
its last file is within reach of the log (`ReopenedIff`, `Open`). Truncation can leave
empty files behind that are not: `Leftover` shows how they arise, and follows such a
store through reopening, an append it acknowledges and the next opening, which finds the
entries in the wrong order.

## Model

| member | source | states |
|---|---|---|
| Theorems.ElectionSafety | pkg/raft/candidate.go:26-96 | At any two moments of any run, with crashes anywhere, two nodes that lead the same term are the same node |
| Theorems.LogMatching | pkg/raft/append_entries.go:46-67 | The logs of any two nodes at any two moments of a run: the same term at an index means identical prefixes up to it, so an (index, term) pair never names two entries |
| Theorems.RunKeepsBase | pkg/raft/step.go:18-44 | Every reachable state satisfies the hard-state, vote and log invariants, without the hypothesis |
| Theorems.RunKeepsSafe | pkg/raft/step.go:18-44 | Under the hypothesis every reachable state satisfies the acknowledgement, commit and apply invariants |
| Refinement.StepRefines | pkg/raft/step.go:18-44 | Every step of a schedule is a sequence of protocol actions, each one enabled where it is taken |
| Safety.OneHistory | pkg/raft/commit.go:37-67 | One well-formed log explains the whole run: at every moment every node's committed prefix, apply queue, applied state and checkpoint are prefixes, slices and folds of it |
| Safety.StateMachineSafety | pkg/raft/append_entries.go:59-97 | Any two nodes at any two moments agree on every entry up to the smaller of their commit indexes |
| Safety.LeaderCompleteness | pkg/raft/follower.go:64-89 | What any node has committed is in the log of every leader of a later term, whenever that leader is looked at |
| Safety.ReplicasConverge | pkg/raft/apply.go:48-100 | Replicas that have applied equally many entries hold the same map, across restarts from checkpoints |
| Safety.AppliesInOrder | pkg/raft/driver.go:119-137 | What waits in the apply channel is the next index and its successors without gap or repetition, and applying advances by one |
| Witness.HypothesisIsNeeded | pkg/raft/append_entries.go:90-97 | Without the hypothesis both safety properties fail: a concrete run commits two entries at index 1, and the later leader lacks a committed entry |
| Witness.PanicIsReachable | pkg/raft/append_entries.go:207-213 | Without the hypothesis the panic on truncating a committed entry is reachable: a concrete run has such a message on the wire |
| Witness.HypothesisIsMet | pkg/raft/append_entries.go:59-97 | The hypothesis is not empty: a run that satisfies it replicates and commits an entry |
| Claims.SuccessIsTruthfulIff | pkg/raft/append_entries.go:59-97 | A Success reply is true of every log its leader could have, as far as the follower can tell, exactly when the follower rewrote its log, reaches no further than the request, has committed all it has, or ends in an entry of the leader's own term |
| Claims.LeaderLogIsPlausible | pkg/raft/append_entries.go:59-97 | In every state that a run under the hypothesis reaches the log of the leader whose request arrives is one of those logs |
| Claims.SureRunsAreTrue | pkg/raft/append_entries.go:59-97 | A run in which every follower passes that test at every delivery satisfies the hypothesis |
| Claims.FollowerTellsTruth | pkg/raft/append_entries.go:59-97 | A follower whose log is a prefix of the leader's answers every request of that leader truthfully, however late, repeated or reordered |
| Replication.RedeliveryIsHarmless | pkg/raft/append_entries.go:160-191 | Once a follower holds a leader's log up to k, requests of that leader ending at or below k, in any order and number, change neither log and cannot panic |
| Replication.ProbingEnds | pkg/raft/leader.go:159-174 | After at most nextIndex reliable rounds the follower's log begins with the leader's whole log, it has committed what the leader had, and both stay so; nextIndex never falls below 1 and no round panics |
| Replication.ProbingEndsInRuns | pkg/raft/leader.go:79-93 | The same for every leader and every node of its term that a run under the hypothesis reaches |
| Guards.NoTruncatePanic | pkg/raft/append_entries.go:207-213 | Under the hypothesis no delivery ever truncates at or below commitIndex |
| Handlers.PanicGuardsCommit | pkg/raft/append_entries.go:207-213 | In every run a request that would be accepted panics exactly when accepting it would change what the receiver has committed |
| Guards.AppendAssertionsHold | pkg/raft/log_assert_debug.go:19-45 | In every run every append attempted by a follower, a leader or a restart is contiguous, with positive and non-decreasing terms |
| Guards.VotesAreDurable | pkg/raft/driver.go:61-72 | Every grant and every vote request ever sent is on the voter's disk or that disk is in a later term, and no node grants one term twice |
| Guards.ReadyVoteCheckHolds | pkg/raft/ready_assert_debug.go:30-58 | A queued grant of the queued hard state's term is for the candidate that hard state names |
| ReadyChecks.DeliveryKeepsCheckIff | pkg/raft/ready_assert_debug.go:80-95 | In every reachable state, handling a message keeps the check on waiting Success replies exactly when it does not rewrite the log and end below one of them |
| ReadyChecks.AckCheckIff | pkg/raft/ready_assert_debug.go:80-95 | In every run the check passes at a node at every moment exactly when no delivery to it does that |
| ReadyChecks.CurrentAcksAreCovered | pkg/raft/ready_assert_debug.go:60-79 | Under the hypothesis a waiting Success reply of the node's current term never claims more than its log; only one of an earlier term can fail the check |
| Lapses.AckCheckCanFail | pkg/raft/ready_assert_debug.go:80-95 | A concrete run of three nodes, without a crash, after which a Ready fails the check |
| StatusOrder.StatusOrderIff | pkg/raft/status.go:14-19 | At every moment of every lifetime of a node in any run the log reaches the commit index, and the commit index reaches the applied index exactly when it reaches the checkpoint the lifetime started from |
| Lapses.StatusOrderCanFail | pkg/raft/status.go:14-19 | A concrete run, within the hypothesis, after which the applied index is above the commit index |
| StatusOrder.LastIndexFallsIff | pkg/raft/status.go:17-19 | In every run, at every step that does not restart the node, its log gets shorter exactly when an accepted request conflicts with it and ends before it |
| Lapses.LastIndexCanFall | pkg/raft/status.go:17-19 | A concrete run reaches such a delivery |
| Proposals.AnswerIsOwnIff | pkg/raft/node_public.go:305-367 | In every run, of whatever any node is about to apply at the index of an earlier proposal: it is the proposed entry exactly when it has the term that Propose returned |
| Lapses.AnswerCanBeForeign | pkg/raft/node_public.go:305-367 | A concrete run, without a crash and within the hypothesis, in which a node is about to answer its proposal with the result of another leader's entry |
| Guards.CommitIsMonotone | pkg/raft/append_entries.go:87-95 | Within a lifetime commitIndex never falls; it stays within the log, the durable one within the durable log, and both logs are equal |
| Handlers.CommitFollowsLeader | pkg/raft/append_entries.go:87-95 | In every run, accepting a request leaves the larger of the own and the leader's commit index, and queues it for the disk if it moved |
| Promptness.LeadersArePrompt | pkg/raft/commit.go:37-67 | In every run, at every moment, whatever a leader's commit test would commit is committed already |
| Promptness.RuleIsTried | pkg/raft/leader.go:26-46 | The commit test is tried on every beat, every acknowledgement and every accepted proposal |
| Promptness.NothingIsHeldBack | pkg/raft/commit.go:37-67 | Under the hypothesis no leader ever has an index left that Figure 2 of the Raft paper lets it commit |
| Promptness.LoneNodeLeads | pkg/raft/candidate.go:26-59 | The only member of a cluster leads at the tick on which it stands |
| Promptness.LoneLeaderCommits | pkg/raft/node_public.go:340-357 | ... and has committed a proposal when Propose releases the lock |
| Guards.AcceptedIsDurable | pkg/raft/append_entries.go:65-124 | When a Success reply is queued, the request's entries are in the stored log right after PrevLogIndex and the reply equals the stored log's length |
| Guards.HandlersAreCallable | pkg/raft/node.go:218-240 | In runs under the hypothesis everything the object's methods demand of their callers holds, and the stored log still mirrors the log after every delivery |
| Guards.RequestsCoverCommit | pkg/raft/leader.go:79-93 | Every AppendEntries ever sent ends at or beyond its own LeaderCommit |
| Epochs.ReadyFiltersStale | pkg/raft/ready.go:54-74 | After a step-down nothing queued before it leaves Ready, and whatever leaves has at least the term the step-down installed |
| Handlers.ReadyKeepsOrder | pkg/raft/ready.go:54-74 | Ready hands out all messages of the current epoch and no others, in the order in which they were queued |
| Handlers.TermIsTheLater | pkg/raft/maybe_step_down.go:28-40 | Any message leaves a node in the later of the two terms; one of a higher term makes it a follower, starts a new epoch and queues the hard state |
| Handlers.StaleRequestIsRefused | pkg/raft/append_entries.go:33-38 | A request of an earlier term is refused in the current one and changes nothing else, the election timer included |
| Handlers.StaleLeaderStepsDown | pkg/raft/append_entries.go:126-138 | Such a refusal makes its leader a follower of the newer term, without vote or hint and with its log |
| Handlers.LeaderIsHeard | pkg/raft/append_entries.go:40-51 | A request of the current or a later term restarts the election timer and sets the hint, accepted or not |
| Handlers.GapIsRefused | pkg/raft/append_entries.go:69-85 | A batch with a gap, which the store refuses, is answered with a failure and moves no commit index |
| Handlers.HintNamesLeader | pkg/raft/append_entries.go:40-44 | In every run a leader hint names the leader of the node's term, and a leader names itself |
| Handlers.StandsOnTime | pkg/raft/follower.go:39-47 | A follower or candidate that hears nothing stands in the next term on the tick on which its timeout is over, and on none before |
| Handlers.StandingAsksAll | pkg/raft/candidate.go:26-59 | ... and asks every other member for its vote, with its last index and term |
| Handlers.RestartIsPatient | pkg/raft/node.go:135-190 | A restarted node waits a whole drawn timeout before it stands |
| Handlers.NewLeaderAnnounces | pkg/raft/leader_stub.go:23-43 | A new leader takes every peer to be at the end of its own log, acknowledged nowhere, and queues an empty request from there for each |
| Handlers.LeaderBeats | pkg/raft/leader.go:26-46 | In every run a leader's tick queues for every other member a request with all of its log behind that member's probe point, and its commit index |
| Handlers.ProposalIsSent | pkg/raft/node_public.go:353-357 | In every run an accepted proposal is queued at once, within the request to every other member |
| Handlers.ReplyIsBooked | pkg/raft/leader.go:159-174 | A leader books an acknowledgement of its term for that peer alone; after a refusal it probes one entry earlier, never before the first |
| Ballots.OnePasses | pkg/raft/follower.go:64-69 | Of any two logs one is up to date against the other |
| Ballots.PrefixIsPassed | pkg/raft/follower.go:64-69 | A log is up to date against each of its prefixes, and no proper prefix against it |
| Ballots.SomeonePassesAll | pkg/raft/follower.go:60-69 | Among any nodes there is one whose log is up to date against all of theirs |
| Ballots.VoteIsGivenIff | pkg/raft/follower.go:81-119 | The reply grants exactly when the term is current, the vote free or this candidate's and the candidate's last term later, or equal with no shorter a log; a grant is queued for the disk and restarts the timer, a refusal changes neither vote nor timer |
| Ballots.RepeatIsGrantedAgain | pkg/raft/follower.go:81-90 | A repeated request of the candidate voted for is granted again |
| Ballots.OtherIsRefused | pkg/raft/follower.go:81-90 | After a grant no other candidate gets the vote of that term |
| Ballots.TallyLeadsIff | pkg/raft/candidate.go:85-96 | After any grants, in any order and with repeats, a candidate leads exactly when it and those who granted are a quorum |
| Ballots.ElectionSucceeds | pkg/raft/candidate.go:26-96 | A candidate whose log is up to date against those of voters in earlier terms gets all their votes, and leads if they are enough |
| Ballots.SomeoneIsElectable | pkg/raft/follower.go:81-119 | In every run and for every set of nodes one of them, standing in a term above theirs, gets all their votes |
| Votes.WinnerIsFirst | pkg/raft/candidate.go:85-96 | A candidate with a quorum of votes stands in a term nobody has won |
| Votes.VoterIsBound | pkg/raft/follower.go:105-119 | Everyone who elected a leader of term t has reached term t |
| LogSteps.WinnerLogIsOlder | pkg/raft/node.go:157-211 | A node whose recovered log runs ahead of its recovered term cannot win any term up to its last log term |
| Logs.AcceptSpec | pkg/raft/append_entries.go:59-67 | What accepting a request does to a log: an unchanged log that already agrees, or a prefix of the leader's log cut in at the first disagreement |
| Logs.AcceptedEntriesArePresent | pkg/raft/append_entries.go:59-67 | An accepted request leaves its entries from PrevLogIndex+1 on, and the log agrees with the leader to the end of the request |
| Acks.QuorumReachesLeader | pkg/raft/follower.go:64-89 | If a quorum acknowledged an entry, every later election was won with it in the winner's log |
| Commits.ChosenReachesLeader | pkg/raft/commit.go:56-64 | An entry a leader may count as committed is in every later leader's log |
| Commits.CommittedIsNotRewritten | pkg/raft/append_entries.go:59-67 | Accepting a request keeps the committed prefix and conflicts only above it |
| Actions.ActionKeepsBase | pkg/raft/step.go:18-44 | Every protocol action keeps the hard-state, vote and log invariants and only extends the history |
| Acks.ActionKeepsAcks | pkg/raft/leader.go:159-169 | Every action keeps: acknowledged entries stay in the acknowledging log until a newer leader without them is known |
| Commits.ActionKeepsCommits | pkg/raft/commit.go:37-67 | Every action keeps: all commit indexes, volatile, in flight, durable and on the wire, are covered by chosen entries |
| Applied.ActionKeepsApps | pkg/raft/apply.go:48-100 | Every action keeps: queue, state and checkpoint replay a chosen log |
| CommitRule.Matches | pkg/raft/commit.go:38-44 | The filled slice has, for every x, as many elements of at least x as there are tracked peers that reached x |
| CommitRule.Sort | pkg/raft/commit.go:45-45 | A sorted permutation |
| CommitRule.PickQuorumIndex | pkg/raft/commit.go:38-56 | The picked element is the largest index a quorum has reached, with the leader at its last index; none exactly when fewer peers than a quorum are tracked |
| CommitRule.CommitRuleIsExactIff | pkg/raft/commit.go:56-65 | The one-shot test advances to the largest N that Figure 2 of the Raft paper allows, exactly when the pick lies within the log or nothing of the current term is left to commit |
| MissedCommit.RuleIsMissed | pkg/raft/commit.go:56-62 | A concrete run of five nodes reaches a leader for which Figure 2 of the Raft paper allows index 2 and the code commits nothing |
| Replication.CommitRuleInRuns | pkg/raft/commit.go:37-67 | In runs under the hypothesis the commit rule of every leader is exactly that of Figure 2 of the Raft paper |
| RaftNode.RaftNode.constructor | pkg/raft/node.go:135-211 | A new node over any stored log equals the restart specification over the stored hard state and log |
| RaftNode.RaftNode.StepLocked | pkg/raft/step.go:18-44 | Higher terms are absorbed first, then the handler of the message runs, as specified; the log stays mirrored exactly when the store took the batch |
| RaftNode.RaftNode.TickLocked | pkg/raft/step.go:22-31 | The tick of the current role, as specified |
| RaftNode.RaftNode.QueueMsgLocked | pkg/raft/step.go:59-72 | The message is queued under the current epoch and nothing else changes |
| RaftNode.RaftNode.QueueHardStateLocked | pkg/raft/step.go:79-86 | The queued hard state becomes the current one |
| RaftNode.RaftNode.MaybeStepDownLocked | pkg/raft/maybe_step_down.go:28-40 | A higher term clears vote, role, hint and votes, bumps the epoch and queues the hard state; any other term changes nothing |
| RaftNode.RaftNode.Ready | pkg/raft/ready.go:54-74 | Hands out exactly the messages of the current epoch in order and the queued hard state, and empties both buffers |
| RaftNode.RaftNode.ResetElectionTimeoutLocked | pkg/raft/follower.go:18-27 | The new timeout is drawn and the count restarts |
| RaftNode.RaftNode.TickFollowerLocked | pkg/raft/follower.go:39-47 | Counts and stands when the timeout is reached, as specified |
| RaftNode.RaftNode.TickCandidateLocked | pkg/raft/candidate.go:65-70 | Counts and stands again when the timeout is reached, as specified |
| RaftNode.RaftNode.TickLeaderLocked | pkg/raft/leader.go:26-46 | Heartbeats every peer and tries the commit rule when due, as specified |
| RaftNode.RaftNode.BecomeCandidateLocked | pkg/raft/candidate.go:26-59 | New term, self-vote, hard state, one request per peer, and leadership on a lone quorum, as specified |
| RaftNode.RaftNode.HandleRequestVoteResponseLocked | pkg/raft/candidate.go:85-96 | Counts a current grant and takes leadership at a quorum, as specified |
| RaftNode.RaftNode.HandleRequestVoteLocked | pkg/raft/follower.go:105-119 | The vote handler of `VoteIsGivenIff`, with the hard state queued before the reply |
| RaftNode.RaftNode.BecomeLeaderLocked | pkg/raft/leader_stub.go:23-43 | Every peer at the end of the log and acknowledged nowhere, then one request each, as specified |
| RaftNode.RaftNode.SendAppendEntriesLocked | pkg/raft/leader.go:79-93 | One request from nextIndex on, with the preceding term and the commit index |
| RaftNode.RaftNode.SendAppendsLocked | pkg/raft/leader.go:55-63 | One request for every peer but the node itself, in order |
| RaftNode.RaftNode.ProposeLocked | pkg/raft/leader.go:117-135 | Exactly when the node leads and the store takes it, the entry goes to the end of both logs and its index is returned; otherwise both logs stay as they were |
| RaftNode.RaftNode.Propose | pkg/raft/node_public.go:330-367 | Returns the index and term under which the entry now stands at the end of both logs, or none and leaves both logs; fans out at once and tries the commit rule, as specified |
| RaftNode.RaftNode.HandleAppendEntriesRespLocked | pkg/raft/leader.go:159-174 | Success moves match and next index and tries the commit rule; failure backs off by one, never below 1 |
| RaftNode.RaftNode.MaybeAdvanceCommitLocked | pkg/raft/commit.go:37-67 | The commit rule over the sorted slice equals the specification by quorum counting |
| RaftNode.RaftNode.HandleAppendEntriesLocked | pkg/raft/append_entries.go:32-98 | Refuse, or resolve the conflict in both logs, follow the commit index and reply with the last index, as specified; a batch the store refuses is answered with a failure and ends the mirroring |
| RaftNode.RaftNode.FirstConflictIndex | pkg/raft/append_entries.go:160-178 | The first entry beyond the log or of another term; 0 when every entry is present |
| RaftNode.RaftNode.SuffixFrom | pkg/raft/append_entries.go:184-191 | The batch from the first entry at or above the index |
| RaftNode.RaftNode.MirrorLogWriteLocked | pkg/raft/append_entries.go:116-124 | The stored log after truncate and append, and whether both succeeded |
| RaftNode.RaftNode.ReplyAppendEntriesLocked | pkg/raft/append_entries.go:129-138 | The reply of the current term is queued |
| RaftNode.FlushThenRestart | pkg/raft/driver.go:61-65 | A node that dies once its queued hard state is saved comes back with the term, vote, commit index and log it had, and only messages of its current epoch were handed out |
| RaftLog.CutAndRest | pkg/raft/leader.go:182-191 | What TruncateSuffix drops is what entriesFrom ships |
| RaftLog.MatchIff | pkg/raft/log.go:83-91 | The consistency check holds exactly when the place exists and has that term, the place before the first entry having term 0 |
| EntryLog.MemLog.Append | pkg/raft/log.go:39-45 | Any batch is added at the end; the log stays indexed from 1 exactly when the batch continues it |
| EntryLog.MemLog.TruncateSuffix | pkg/raft/log.go:55-65 | Everything from the index on is dropped; 0 empties the log; beyond the end nothing changes |
| EntryLog.MemLog.Term | pkg/raft/log.go:70-78 | 0 at index 0, the entry's term within the log, an error beyond it |
| EntryLog.MemLog.Matches | pkg/raft/log.go:83-91 | The consistency check, with term 0 at index 0 |
| EntryLog.MemLog.LastIndex | pkg/raft/log.go:94-99 | The last entry's own index is the length of the log |
| EntryLog.MemLog.EntriesFrom | pkg/raft/leader.go:182-191 | A copy of the suffix, empty at 0 and beyond the end |
| EntryLog.MemoryStorage.Append | pkg/storage/memory/memory.go:46-77 | Accepts exactly a contiguous batch at the end and takes all of it, or nothing |
| EntryLog.MemoryStorage.TruncateSuffix | pkg/storage/memory/memory.go:81-94 | Drops the suffix; fails exactly on index 0 |
| EntryLog.MemoryStorage.Entries | pkg/storage/memory/memory.go:102-129 | The half-open range, or an error exactly for an invalid one |
| EntryLog.MemoryStorage.Term | pkg/storage/memory/memory.go:135-147 | As the in-memory log's Term |
| Pipeline.KV.Apply | pkg/kvsm/kvsm.go:60-80 | The new state is the specified one; a set answers with the value its key now has, a delete leaves its key absent, and the answer is an error exactly on a malformed envelope, which changes nothing, or an unknown kind |
| Pipeline.KV.Snapshot | pkg/kvsm/kvsm.go:97-105 | The blob decodes to the current state, with its last applied index |
| Pipeline.KV.Restore | pkg/kvsm/kvsm.go:109-127 | Empty data resets, undecodable data changes nothing, anything else becomes the state |
| Pipeline.Applier.New | pkg/raft/node_public.go:227-238 | Resumes at the stored checkpoint with all three indexes, or from nothing; an error exactly when the checkpoint cannot be restored |
| Pipeline.RebootResumes | pkg/raft/node_public.go:227-238 | The cluster's restart resumes the pipeline where New does |
| Pipeline.Applier.Drain | pkg/raft/driver.go:119-137 | Does what the cluster's Drain steps do, as long as they are enabled |
| Pipeline.DrainGetsTo | pkg/raft/driver.go:124-135 | That queues exactly the stored entries up to the commit index, the end of the log or the channel's capacity, whichever comes first |
| Pipeline.DrainStops | pkg/raft/driver.go:124-135 | It stops only with the commit index or the end of the log reached or the channel full, and passes none of them |
| Pipeline.DrainIsSteps | pkg/raft/driver.go:119-137 | It is a run of the cluster's Drain steps and changes nothing else |
| Handlers.DrainInRuns | pkg/raft/driver.go:119-137 | In every run, after a drain everything committed has been queued, unless the channel is full |
| Pipeline.Applier.ApplyOne | pkg/raft/apply.go:48-74 | Applies the head of the queue and checkpoints when the interval has passed, as specified; a panic marks the node, counts the entry as applied and takes no checkpoint; the waiter of that index, if there is one, gets the answer or the error and is gone, and no other |
| Pipeline.Applier.Checkpoint | pkg/raft/apply.go:81-100 | Stores a blob that decodes to the current state, with its index and the term the log has there, unless nothing was applied, the state machine has no snapshots or the save fails |
| Pipeline.HeadIsApplied | pkg/raft/apply.go:48-74 | Whatever happens, the head is gone and counts as applied; the state machine and the checkpoint change exactly when they should |
| Pipeline.CheckpointsKeepUp | pkg/raft/apply.go:68-73 | After a decodable entry fewer than the interval have been applied since the last checkpoint, or that entry is in it |
| Pipeline.RestoreUndoesSnapshot | pkg/kvsm/kvsm.go:97-127 | Restore undoes Snapshot, and empty data is the empty state |
| Pipeline.CheckpointThenRestart | pkg/raft/node_public.go:227-238 | A node that dies after a checkpoint comes back with the state machine it had and all three indexes at its last entry |
| KvSpec.FoldIsLastWrite | pkg/kvsm/kvsm.go:60-80 | Replaying a log gives every key its last write and lastIndex the last decodable entry |
| Codec.RecordRoundTrip | pkg/storage/file/segment.go:71-113 | decodeRecord undoes encodeRecord on every entry within the format's widths, and the header declares the payload's length |
| Codec.LittleEndian | pkg/storage/file/segment.go:71-90 | Numbers are written with the least significant byte first |
| Codec.RecordDecodes | pkg/storage/file/segment.go:71-113 | decodeRecord undoes encodeRecord even for a payload whose length does not fit the 32-bit field |
| Codec.DecodeRecordIff | pkg/storage/file/segment.go:93-113 | decodeRecord yields an entry exactly on the header and payload that encodeRecord writes for it |
| Codec.CorruptIsRejected | pkg/storage/file/segment.go:105-107 | A payload changed under its header is a checksum error whenever the checksum tells the two apart |
| Segments.ReadRecordIff | pkg/storage/file/segment.go:176-200 | A record is read at an offset exactly when a whole, uncorrupted record stands there |
| Segments.ScanIsExact | pkg/storage/file/segment.go:161-211 | On any bytes the scan lists whole, uncorrupted records, one behind the other, and stops where none follows |
| Segments.ScanMissesNone | pkg/storage/file/segment.go:161-211 | Whatever answers that description is what the scan finds |
| Segments.GoodHeaderIff | pkg/storage/file/segment.go:117-142 | The header accepted is exactly the one that new segments get |
| Segments.ScanSegment | pkg/storage/file/segment.go:161-211 | The scan loop finds exactly the records up to the first torn or corrupt one and where they end, and nothing that is not a record; it fails exactly on a bad header |
| Segments.ScanAfterCut | pkg/storage/file/segment.go:161-211 | Behind a whole segment, any cut of a batch yields the segment's records and the whole records of the cut, no more and no less |
| Segments.NamesPreserveOrder | pkg/storage/file/segment.go:216-218 | Segment names below 10^16 sort as their indexes |
| Segments.NameReadsBack | pkg/storage/file/segment.go:216-218 | A name below 10^16 is sixteen decimal digits that read as the first index, and the suffix |
| FileStore.FileStorage.constructor | pkg/storage/file/file.go:91-104 | A fresh directory is the empty log |
| FileStore.FileStorage.Append | pkg/storage/file/file.go:259-308 | Any store takes exactly a batch that follows its last index and is left with the files, the index and the open segment of the loop; a valid one accepts exactly what the memory store accepts and ends with the same log, over any number of rollovers |
| FileStore.FileStorage.WriteEntries | pkg/storage/file/file.go:281-302 | Writing a batch that continues the log makes the directory hold log and batch, and the staged index entries are those that point at them |
| FileStore.FileStorage.RolloverLocked | pkg/storage/file/file.go:314-338 | A new empty segment is opened; the log and the index are unchanged |
| FileStore.SegmentsFill | pkg/storage/file/file.go:281-302 | A batch stays in the open segment exactly when it fits, and no segment gets more than the threshold |
| FileStore.FileStorage.WriteRecordLocked | pkg/storage/file/file.go:343-355 | The record joins the open segment and the returned offset is where the index must point |
| FileStore.FileStorage.TruncateSuffix | pkg/storage/file/file.go:362-435 | Drops what the memory store drops; the target segment is cut, earlier files stay as they are, later segments with entries are removed, empty ones stay, and the rest stays readable |
| FileStore.FileStorage.LastIndexLocked | pkg/storage/file/file.go:239-244 | The length of the log |
| FileStore.FileStorage.Term | pkg/storage/file/file.go:455-467 | As the memory store's Term |
| FileStore.FileStorage.Entries | pkg/storage/file/file.go:475-499 | As the memory store's Entries, read back from bytes |
| FileStore.FileStorage.ReadEntryLocked | pkg/storage/file/file.go:504-527 | The record the index points at decodes to the entry of the log |
| Stores.SameAnswers | pkg/storage/file/file.go:259-527 | For every sequence of calls and every rollover threshold a fresh file store and a fresh memory store accept the same calls and return the same results |
| Recovery.ScanOne | pkg/storage/file/file.go:166-195 | The index entries of one file, and the file cut to its whole records; an error exactly on a bad header |
| Recovery.ListingAscends | pkg/storage/file/segment.go:216-218 | A directory listed in the order of its file names is listed in the order of the segments' first indexes |
| Recovery.Recover | pkg/storage/file/file.go:116-160 | An error exactly when some file has a bad header; otherwise every file is cut to its whole records, their entries are indexed in name order, and the last file is open |
| Reopen.RecoverGivesIndex | pkg/storage/file/file.go:116-160 | From a directory whose files read back as given segments, empty leftovers aside, the rebuilt index is exactly theirs and the files are cut to their images |
| Reopen.ReopenedIff | pkg/storage/file/file.go:91-160 | The reopened store has exactly the log of the directory, and is a working store exactly when the name of its last file is at most the log's length plus the rollover threshold |
| Reopen.Open | pkg/storage/file/file.go:91-104 | Opening fails exactly on a bad header; from a directory that reads back as given segments the store has their log, and is valid exactly under that condition |
| Reopen.CleanReopen | pkg/storage/file/file.go:91-160 | A store at rest reopens with exactly its log, as a working store exactly under that condition, which holds whenever its open segment has the last name |
| Reopen.CrashedAppendIsRecoverable | pkg/storage/file/file.go:281-308 | After a crash in an append that does not roll over, with any prefix of its bytes kept, the directory reads back as every acknowledged entry and the whole records of the cut |
| Reopen.CrashedReopen | pkg/storage/file/file.go:91-160 | Reopening after that crash gives every acknowledged entry and a prefix of the batch, as a working store exactly when the last name is within reach, which holds whenever the open segment had the last name |
| Leftover.OutOfReachLosesEntries | pkg/storage/file/file.go:281-338 | If the last name is out of reach, a reopened store that accepts one entry more than a segment holds comes back, when opened again, with a wrong entry right behind the old log |
| Leftover.LeavesFilesBehind | pkg/storage/file/file.go:362-435 | Such stores arise: three one-entry segments truncated one after the other leave an empty log and three empty files |
| Leftover.LosesEntries | pkg/storage/file/file.go:91-308 | That store, reopened, acknowledges two entries; opened again it finds the second in the place of the first and takes index 1 for its last |
| AtomicFile.DecodeIffEncoded | pkg/storage/file/hardstate.go:59-97 | decode yields a value exactly on that value's encoding |
| AtomicFile.CrashLeavesOldOrNew | pkg/storage/file/hardstate.go:109-139 | A crash anywhere in create, write, sync, rename, directory sync leaves the whole old or the whole new file; after the last, the new one |
| AtomicFile.SaveIsAtomic | pkg/storage/file/snapshot.go:90-148 | What is loaded after such a crash is the old value or the new value |

## Left out

- Guards.NoTruncatePanic: needs the hypothesis on Success replies; without it the panic is reachable, as `Witness.PanicIsReachable` shows.
- Safety.LeaderCompleteness: and the other theorems of `Safety` are stated under the hypothesis, because `Witness.HypothesisIsNeeded` shows them false without it.
- Reopen.CrashedReopen: does not cover a crash while a segment is being created or while several segments are being truncated, where the code itself can leave a file that recovery rejects.
- Reopen.CleanReopen: needs payload lengths below 2^32, as do the other lemmas on reading back, since the scan trusts the 32-bit length field; a directory without segment files is the fresh one.
- FileStore.FileStorage.Append: does not model failing reads and writes; that a valid store stays valid is stated for terms and indexes that are 64-bit words, as their types have it.
- EntryLog.MemoryStorage.Append: does not model that the code copies each entry's bytes, since sequences have no aliasing.
- RaftNode.RaftNode.HandleAppendEntriesLocked: requires that the request does not rewrite a committed entry, as does `StepLocked`, because the code panics there; `Guards.HandlersAreCallable` shows when that cannot happen in a run.
- Clusters of one node: leadership there is taken before the hard state is durable, so the crash theorems are stated for two or more distinct members.
- SaveHardState is assumed to succeed, because the driver discards its error.
- Storage failures in the follower's mirror path: the in-memory log would stay ahead of the stored one.
- Liveness over whole runs: timeouts are arbitrary draws and nothing assumes fair schedules; what single steps and reliable rounds achieve is in `Ballots`, `Handlers`, `Promptness` and `Replication`.
- Pipeline.Applier.ApplyOne: takes a state machine that panics to leave its state as it was, since what it does before the panic is its own.
- Clusters whose state machines panic or whose checkpoints fail to be saved: `Pipeline` has them, the runs of `Cluster` do not.
- Notification channels, contexts, Start and Stop beyond the final checkpoint.
- Node identifiers are numbers, with 0 for the empty one; terms, indexes and epochs are unbounded, except the wrapped nextIndex of an unknown peer.
- The checksum, the JSON envelope and the JSON snapshot are function parameters; of the snapshot codec only that decoding undoes encoding is used.
- HTTP transport, wire JSON, the commands, the in-process hub, the clock, the random generator, configuration defaults and the test scaffolding.
