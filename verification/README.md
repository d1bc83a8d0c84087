# A verified model of openraft

This project models the parts of openraft where consensus can go wrong, and proves what they promise:

- **The protocol** (`RaftNode`, `RaftCluster`, `RaftInvariant`, `RaftSafety`, `RaftCore`, `RaftVoting`,
  `RaftGrowth`, `RaftElection`, `RaftReplication`, `RaftStorage`, `RaftRefusal`, `RaftRun`, `RaftTheorems`,
  `RaftPushes`, `RaftQueues`, `RaftBehaviour`, `RaftExample`). A node is the engine's state, its queue of commands
  and what its storage holds. A cluster takes steps: elections, vote requests and replies, writes, replication,
  acknowledgements, commits, the execution of one queued command, crashes and restarts. A message that was sent stays
  deliverable, so every message may be late, lost or repeated. Both leader-id modes are covered: one leader per term,
  and several leaders per term ordered by `(term, node)`. `RaftInvariant.Inv` is kept by every step, and the theorems
  in `RaftTheorems` hold in every state of every run. `RaftBehaviour` says what each handler achieves in every run:
  whom a node follows, what it answers, how far it commits.
- **What entries carry** (`RaftPayload`, `RaftPayloadSafety`, `RaftPayloadCrash`, `RaftPayloadExample`). Payloads
  travel beside the log ids of the cluster. Every run of the cluster is a run with payloads and the other way round.
- **Commitment by trackers** (`RaftTracked`, `RaftTrackedExample`). The cluster in which each leader keeps a progress
  tracker, raises it by every acknowledgement and commits what it grants.
- **The engine** as a mutable object (`RaftEngine`), with the compressed log-id list for its log and trackers for its
  votes and its followers. Each handler is proved equal to the function that the protocol proof is about.
- **Incremental quorum tracking** (`Progress`, `ProgressRuns`, `ProgressExact`, `ProgressVec`).
- **The compressed log-id list** (`LogIdList`), its reconstruction after a restart (`KeyLogIds`, `LogRecovery`),
  follower log repair and purging on top of it (`LogState`).
- **Membership** change (`Membership`) and quorums (`Quorums`), the recovery scan for memberships (`Recovery`).
- **Chunked snapshot transfer** (`SnapshotTransfer`).
- **The command queue** (`CommandQueue`).

`dafny verify dfyconfig.toml` checks the whole project.

## How to read it

Handlers and operations appear as functions of the state. Where the source changes things in place there is a
class or a method with the source's loops as well, and its `ensures` ties it to the function or to a plain
specification. Integers are unbounded. In the protocol log entries are their log ids: the index and the committed id
of the leader that proposed them; `RaftPayload` adds what they carry. A leader lease is a nondeterministic
refusal. Storage writes are durable in the order they were submitted, as
openraft/src/storage/v2/raft_log_storage.rs:21-23 demands of an implementation; a crash keeps what is durable and
drops the rest of the queue and all memory.

## What the proofs found

The code is modelled as it is, also where it differs from its documentation.

- `VecProgress` documents that voters above the granted value are kept in descending order
  (openraft/src/progress/mod.rs:130-139). An update moves a voter up only if it comes from at or below the granted
  value (lines 356-361), so raising a voter that is above it already can break the order, and a later update can then
  grant a value that no quorum holds, or miss one that a quorum holds. `ProgressExact.ExactIff` says exactly for which
  quorum sets this never happens: every two voters are a quorum, or the voters that are no quorum alone are none
  together either. For a membership (`ProgressExact.MembershipIsExactIff`) that leaves at most two voters, or three
  that are the same in every config: a majority of four or more voters has a failing run, and so has every joint
  config of three or more voters that differs between its parts, for instance the change from voters 1 and 2 to voters
  1 and 3 (`ProgressExact.ThreeVotersFail`). `Progress.UpdateKeeps` gives the exact guard of one update, and
  `ProgressRuns.SortedRunIsExact` shows that moving the voter up whenever it goes above the granted value would be
  exact always.
- In a cluster that commits what such trackers grant the protocol's guarantees fail:
  `RaftTrackedExample.TrackersBreakSafety` is a run of five nodes after which two nodes know one index to be committed
  with different log ids. The leader saves its vote and replicates; its tracker grants an index that only two other
  nodes have stored; the leader commits it, restarts without the entry, and votes for the next leader.
  `RaftTracked.TrackedRefines` shows that the guarantees hold whenever every update met the guard, or every two voters
  are a quorum, or updates sort: then every such run is a run of the protocol.
- A leader replicates entries before they are flushed locally (openraft/src/core/raft_core.rs:1744-1755). After a
  crash it may lead again under the same vote with a shorter log, and assign the same log ids anew.
  `RaftExample.RestartedLeaderLacksCommitted` is a run of three nodes that ends with a leader that lacks an entry
  committed under its own vote; for leaders of greater votes completeness holds without exception
  (`RaftTheorems.LeaderCompleteness`). A follower takes an id it has to be the entry it has, so two payloads can be
  committed under one log id: in `RaftPayloadExample.TwoPayloadsCommitted`, which goes on from that run, the leader
  writes another payload under the id and replicates it, the followers find the id and acknowledge it, and two nodes
  then know one index to be committed with different payloads. `RaftPayloadSafety.EntriesMatch` and `EntriesAreSafe`
  prove log matching and state machine safety for whole entries in every run in which no leader crashes while its disk
  lacks entries of its own that it flushed or sent; `RaftPayloadCrash.CrashIsSafeIff` shows that this condition is
  exact, and `RaftPayloadCrash.FlushingFirstIsSafe` that it always holds if a leader sends only what it has flushed.
- The majority test counts a repeated id twice. It is exact for every config if and only if the ids are distinct
  (`Quorums.TestIsExactIff`), and the tracker only gives it distinct ids.
- A snapshot chunk that is delivered late can corrupt a snapshot (`SnapshotTransfer.LateDeliveryCorrupts`): the
  receiver accepts a first chunk at any time and does not look for gaps. `SnapshotTransfer.FinishedIff` says exactly
  which snapshots come out whole, whatever is delivered when; `SnapshotTransfer.GaplessIsSent` shows that a receiver
  that takes no chunk past the end of its data always gets the snapshot that was sent.

## Model

| member | source | states |
|---|---|---|
| `Votes.VoteOrderIsPartialOrder` | openraft/src/vote/ref_vote.rs:32-55 | votes are partially ordered in both modes: reflexive, antisymmetric, transitive, without any condition on which votes are committed; `Votes.VoteOrderIs` says which of two is the greater |
| `Votes.VoteOrderIs` | openraft/src/vote/ref_vote.rs:32-55 | the term decides; in one term exactly the committed vote is the greater of two nodes' votes where a term has one leader, and the node decides where it may have several; votes for one leader differ by commitment |
| `Votes.CommittedIsOrdered` | openraft/src/vote/ref_vote.rs:31-52 | a committed vote is ordered with every vote that is not; only uncommitted votes of two nodes in one term, where it has one leader, are not ordered |
| `Votes.CommittedIdIs` | openraft/src/vote/leader_id/leader_id_std.rs:66-68 | committed leader ids are equal exactly for equal terms where a term has one leader, and for equal leader ids otherwise, and are ordered accordingly |
| `Votes.PanicIff` | openraft/src/vote/ref_vote.rs:43-52 | the arm called unreachable is reached exactly by two committed votes of different nodes in one term, in single-leader mode |
| `Quorums.CountMajority` | openraft/src/quorum/quorum_set_impl.rs:11-23 | the counting test with its early exit accepts exactly when the members counted, repeats included, exceed half; on distinct ids that is a majority |
| `Quorums.CountQuorum` | openraft/src/quorum/joint.rs:82-89 | the joint test accepts exactly the sets that are a majority of every sub-config |
| `Quorums.CountIsSize` | openraft/src/quorum/quorum_set_impl.rs:11-23 | on distinct ids counting members gives the size of the intersection |
| `Quorums.TestIsExactIff` | openraft/src/quorum/quorum_set_impl.rs:11-23 | the counting test decides majorities rightly for every config if and only if the ids are distinct |
| `Quorums.MajoritiesIntersect` | openraft/src/quorum/quorum_set_impl.rs:11-23 | two majorities of one config share a member |
| `Quorums.QuorumsIntersect` | openraft/src/quorum/coherent_impl.rs:15-25 | joint quorums of two configs that share a sub-config share a member |
| `RaftTheorems.ElectionSafety` | openraft/src/vote/committed.rs:32-38 | in every run any two committed votes that a node holds in memory, on disk, as a leader or queued to be saved, or that a message tells, are ordered, equal if of one committed leader id, and no comparison of votes reaches the unreachable arm |
| `RaftTheorems.OneLeaderPerTerm` | openraft/src/engine/engine_impl.rs:632-660 | in every run at most one node leads under a committed leader id, and the ids a leader assigns next are the next free ones of its log |
| `RaftTheorems.LogsMatch` | openraft/src/engine/handler/following_handler/mod.rs:63-108 | in every run logs with the same log id at an index have the same log ids up to it |
| `RaftTheorems.StateMachineSafety` | openraft/src/raft_state/mod.rs:59-64 | whatever any node knew to be committed at one point of a run, in memory or on disk, and any node knows later, is the same log id at every index, across crashes |
| `RaftTheorems.LeaderCompleteness` | openraft/src/engine/engine_impl.rs:275-326 | once a quorum acknowledged an entry to its leader, every node that leads then or later under a greater committed leader id has it and all that precedes it |
| `RaftTheorems.LeadersHaveCommitted` | openraft/src/engine/engine_impl.rs:275-326 | whatever a node knew to be committed, in memory or on disk, is in the log of every later leader of a greater committed leader id; a leader of the same id has it exactly if its log is long enough |
| `RaftTheorems.AckedIsDurable` | openraft/src/engine/engine_impl.rs:398-416 | a node that acknowledged an entry which a quorum acknowledged has it on disk and in memory at every later point of every run, across crashes and changes of leader |
| `RaftTheorems.CommittedStays` | openraft/src/engine/handler/following_handler/mod.rs:196-215 | no step but its own crash makes a node drop or replace a committed entry, and its committed index never falls |
| `RaftSafety.Completeness` | openraft/src/engine/engine_impl.rs:301-325 | an entry that a quorum acknowledged to its own leader is in the log of every later leader when that leader is established |
| `RaftSafety.OneLeader` | openraft/src/proposer/candidate.rs:93-99 | two established leaders with one committed leader id are one |
| `RaftSafety.ChosenAgrees` | openraft/src/raft_state/mod.rs:59-64 | up to a chosen entry the log of a later leader is that of the entry's leader |
| `RaftRun.RunKeeps` | openraft/src/engine/engine_impl.rs:211-450 | every state that a run reaches satisfies the protocol invariant |
| `RaftRun.NextOk` | openraft/src/core/raft_core.rs:1330-1400 | every step keeps the protocol invariant |
| `RaftRun.InitOk` | openraft/src/engine/engine_impl.rs:186-207 | pristine nodes, with or without the initial membership entry, satisfy the invariant |
| `RaftRun.CandidateOutranks` | openraft/src/engine/handler/establish_handler/mod.rs:33-41 | a node's leader is always older than its candidacy, so the branch that refuses to establish is never taken |
| `RaftVoting.UpdateVoteOk` | openraft/src/engine/handler/vote_handler/mod.rs:105-142 | taking over any vote that was told keeps the node's invariant |
| `RaftVoting.BecomeLeaderOk` | openraft/src/engine/handler/vote_handler/mod.rs:163-220 | restoring leadership from the local log, which the node acknowledges to itself, keeps the node's invariant |
| `RaftVoting.LeaderAppendOk` | openraft/src/engine/handler/leader_handler/mod.rs:54-97 | a leader's write keeps the node's invariant: its log stays its base followed by its own entries |
| `RaftElection.GrantSecures` | openraft/src/engine/engine_impl.rs:301-325 | a node that acknowledged entries and finds a candidate's last log id not below its own has checked that the candidate holds them, unless a leader in between had lost them |
| `RaftElection.HandleVoteReqOk` | openraft/src/engine/engine_impl.rs:275-326 | answering a vote request keeps the node's invariant |
| `RaftElection.HandleVoteRespOk` | openraft/src/engine/engine_impl.rs:329-375 | a reply that does not decide the election keeps the node's invariant; what it does is the subject of `RaftBehaviour.VoteReplyIsHeard` |
| `RaftElection.ElectOk` | openraft/src/engine/engine_impl.rs:211-231 | starting an election keeps the cluster's invariant: the candidate's id was never used before |
| `RaftElection.NewTerm` | openraft/src/engine/engine_impl.rs:346-350 | a candidate with a quorum of grants is the first leader of its committed leader id |
| `RaftElection.EstablishOk` | openraft/src/engine/engine_impl.rs:632-660 | winning an election keeps the cluster's invariant |
| `RaftReplication.HasFollows` | openraft/src/raft_state/log_state_reader.rs:27-39 | taking committed indexes to be present without looking is sound: what is found present is on the leader's log |
| `RaftReplication.TruncateOk` | openraft/src/engine/handler/following_handler/mod.rs:196-215 | deleting from an uncommitted index where the log departs from the leader's keeps the invariant and breaks no acknowledgement |
| `RaftReplication.FollowerAppendOk` | openraft/src/engine/handler/following_handler/mod.rs:63-108 | after a follower's append its log is the leader's up to the end of what was sent |
| `RaftReplication.HandleAppendReqOk` | openraft/src/engine/engine_impl.rs:381-450 | handling replication, with its refusals, keeps the node's invariant |
| `RaftReplication.CommitEntriesOk` | openraft/src/engine/handler/following_handler/mod.rs:162-190 | a follower commits only what its leader has and a quorum acknowledged; how much it commits is the subject of `RaftBehaviour.RequestIsAnswered` |
| `RaftReplication.LeaderCommitOk` | openraft/src/engine/handler/replication_handler/mod.rs:186-212 | a leader that commits a quorum-acknowledged id of its own keeps the invariant; when what a tracker grants is such an id is the subject of `RaftTracked` |
| `RaftReplication.ReplicateMsgOk` | openraft/src/engine/handler/replication_handler/mod.rs:310-332 | every piece of its log that a leader sends is on the log of its leader id, and the commit it tells is chosen |
| `RaftStorage.RunOk` | openraft/src/core/raft_core.rs:1667-1866 | running the first queued command, with its write or message, keeps the cluster's invariant |
| `RaftStorage.RestartOk` | openraft/src/engine/engine_impl.rs:144-174 | a restart from what is on disk, with a restored leader's acknowledgement of its own log, keeps the node's invariant, whether or not the committed id was saved |
| `RaftRefusal.RefuseOk` | openraft/src/engine/engine_impl.rs:402-414 | sending a refusal ahead of entries that are not flushed keeps the cluster's invariant |
| `RaftPushes.StepPushes` | openraft/src/engine/engine_output.rs:29-32 | whatever a step makes a node queue, votes rise, a node under its own vote truncates nothing, entries are those of the request or of the leader the node is, where they belong, and what is acknowledged is in the storage the reply waits for |
| `RaftQueues.OrderedNext` | openraft/src/core/raft_core.rs:1330-1400 | every step keeps that order along every queue, and a node under its own vote leads or stands for election |
| `RaftQueues.OwnLogGrows` | openraft/src/engine/handler/leader_handler/mod.rs:54-97 | under its own vote a node only adds to its storage, command by command |
| `RaftQueues.AckedIsOnDisk` | openraft/src/engine/engine_impl.rs:398-416 | when an acknowledgement leaves a node, the log on its disk up to the acknowledged id is, entry by entry, the leader's |
| `RaftQueues.LeaderVoteStays` | openraft/src/engine/handler/vote_handler/mod.rs:145-153 | only an election that is won, or a restart, makes a node the leader under another vote |
| `RaftBehaviour.VoteReqGrantsIff` | openraft/src/engine/engine_impl.rs:275-326 | a request is granted exactly if no lease forbids it, the candidate's log is not behind and its vote is not below; a refusal changes nothing but the queue |
| `RaftBehaviour.AppendIsDone` | openraft/src/engine/handler/following_handler/mod.rs:63-108 | an accepted request leaves a log that has the entries as it is, and otherwise cuts it where they begin and puts them there |
| `RaftBehaviour.LeaderIsFollowedIff` | openraft/src/engine/engine_impl.rs:419-450 | in every run a leader's request is accepted exactly if the leader's committed id is not below that of the node's vote, so a candidate follows the leader of its own term; accepting it saves the vote and ends every role, refusing it changes nothing and tells the node's vote |
| `RaftBehaviour.RequestIsAnswered` | openraft/src/engine/handler/following_handler/mod.rs:63-190 | in every run an accepted request is answered once: a node that lacks the entry before cuts its log there and reports a conflict; otherwise it ends with the entries sent where they belong, acknowledges the last of them, has accepted as far as was sent under this vote, and has committed up to the lesser of that and the leader's commit, or what it had |
| `RaftBehaviour.VoteReplyIsHeard` | openraft/src/engine/engine_impl.rs:329-375 | in every run a reply to an earlier candidacy changes nothing; a grant is counted, and makes the node the leader with an entry of its own exactly if a quorum has granted; any other reply makes the node save and follow a greater vote without any role, and changes nothing otherwise |
| `RaftBehaviour.RefusalIsHeard` | openraft/src/core/raft_core.rs:1356-1373 | in every run a leader refused for a greater vote saves and follows it without any role; any other refusal changes nothing |
| `RaftBehaviour.LeaderIsReady` | openraft/src/engine/handler/vote_handler/mod.rs:163-220 | in every run a node whose vote is its own and committed leads under it, its last entry is its own, and it has accepted its whole log |
| `RaftBehaviour.NoopIsFirst` | openraft/src/proposer/leader.rs:100-131 | in every run the id a leader takes to be its first is the one after the log it was elected with, also after restarts, and none before it is its own |
| `RaftBehaviour.CommitTakesEffect` | openraft/src/engine/handler/replication_handler/mod.rs:186-212 | in every run a commit takes effect exactly if the entry is of the vote's term and further than what is committed, and else changes nothing |
| `RaftBehaviour.LeaderCommitsAll` | openraft/src/engine/handler/replication_handler/mod.rs:186-212 | in every run a leader whose whole log a quorum has acknowledged can commit all of it |
| `RaftBehaviour.RestartRecovers` | openraft/src/engine/engine_impl.rs:144-174 | in every run a restarted node has its saved vote and log, leads exactly if the vote is its own and committed, and then adds an entry exactly if its last one is not its own |
| `RaftExample.RestartedLeaderLacksCommitted` | openraft/src/core/raft_core.rs:1733-1756 | a reachable state, in both leader-id modes, in which a restarted leader lacks an entry that is committed under its own vote |
| `RaftPayload.RunHasPayloads` | openraft/src/entry/payload.rs:11-19 | every run of the cluster can be taken with payloads |
| `RaftPayload.Projects` | openraft/src/raft_state/log_state_reader.rs:27-39 | a run with payloads is a run of the cluster: payloads influence nothing |
| `RaftPayloadSafety.EntriesMatch` | openraft/src/engine/handler/following_handler/mod.rs:63-108 | in every run whose crashes are covered, logs in memory or on disk with the same log id at an index have the same ids and payloads up to it |
| `RaftPayloadSafety.EntriesAreSafe` | openraft/src/raft_state/mod.rs:59-64 | in every run whose crashes are covered, what is known to be committed at two points is the same log id with the same payload |
| `RaftPayloadSafety.DataNext` | openraft/src/core/raft_core.rs:1733-1756 | every step but an uncovered crash keeps each log id at one payload, that of its first flush or sending |
| `RaftPayloadCrash.CrashIsSafeIff` | openraft/src/engine/engine_impl.rs:155-158 | whatever a node writes after a crash leaves every log id with one payload if and only if its disk has all later entries of its own that were flushed or sent |
| `RaftPayloadCrash.FlushingFirstIsSafe` | openraft/src/core/raft_core.rs:1744-1755 | if leaders sent only what they have flushed, every crash would be covered |
| `RaftPayloadExample.TwoPayloadsCommitted` | openraft/src/core/raft_core.rs:1744-1755 | a reachable state, in both leader-id modes, in which two nodes know one index committed with the same log id and different payloads |
| `RaftTracked.GrantedIsAcked` | openraft/src/engine/handler/replication_handler/mod.rs:153-181 | what a sound tracker of acknowledged values grants, a quorum has acknowledged |
| `RaftTracked.HearCommits` | openraft/src/engine/handler/replication_handler/mod.rs:153-212 | an acknowledgement, taken in by a guarded or sorting update, keeps the tracker sound and causes nothing but a commit that the protocol allows |
| `RaftTracked.TracksAnew` | openraft/src/engine/handler/vote_handler/mod.rs:163-220 | a node that wins an election or leads again after a restart takes no acknowledgement as heard |
| `RaftTracked.TrackedRefines` | openraft/src/engine/handler/replication_handler/mod.rs:153-212 | a run that commits what its trackers grant is a run of the protocol if every update met the guard, or every two voters are a quorum, or updates sort |
| `RaftTracked.TrackedIsSafe` | openraft/src/engine/handler/replication_handler/mod.rs:186-212 | in such runs what is known to be committed at two points is the same log id at every index |
| `RaftTracked.PairsAreGuarded` | openraft/src/progress/mod.rs:320-384 | if every two voters are a quorum, every update of every tracker in every run meets the guard |
| `RaftTrackedExample.TrackersBreakSafety` | openraft/src/engine/handler/replication_handler/mod.rs:153-181 | a reachable state of five nodes, in both leader-id modes, in which two nodes know one index committed with different log ids |
| `RaftEngine.Engine.constructor` | openraft/src/engine/engine_impl.rs:144-174 | an engine started with the key ids of the stored log is the restarted node of the protocol |
| `RaftEngine.Engine.UpdateVote` | openraft/src/engine/handler/vote_handler/mod.rs:105-142 | the handler is the protocol function; a leader it makes has a new tracker |
| `RaftEngine.Engine.UpdateInternalServerState` | openraft/src/engine/handler/vote_handler/mod.rs:145-153 | the handler is the protocol function |
| `RaftEngine.Engine.BecomeLeader` | openraft/src/engine/handler/vote_handler/mod.rs:163-220 | restoring leadership from the compressed list, with a new tracker and the acknowledgement of the restored log, is the protocol function |
| `RaftEngine.Engine.FindNoop` | openraft/src/proposer/leader.rs:108-122 | the first id of the leader under the vote is found from the last two keys of the list |
| `RaftEngine.Engine.AssignLogIds` | openraft/src/proposer/leader.rs:166-192 | ids are consecutive after the leader's last one, all of its committed leader id, and the last one becomes its last |
| `RaftEngine.Engine.LeaderAppendEntries` | openraft/src/engine/handler/leader_handler/mod.rs:54-97 | extending the list by the first and the last new id extends the log by all |
| `RaftEngine.Engine.UpdateMatching` | openraft/src/engine/handler/replication_handler/mod.rs:153-181 | the tracker takes in an accepted index and what it grants is committed: the step of the tracked cluster |
| `RaftEngine.Engine.TryCommitQuorumAccepted` | openraft/src/engine/handler/replication_handler/mod.rs:186-212 | the granted id of the log is committed as in the protocol function |
| `RaftEngine.Engine.ElectSelf` | openraft/src/engine/engine_impl.rs:211-231 | an election with a new vote tracker is the protocol function |
| `RaftEngine.Engine.HandleVoteReq` | openraft/src/engine/engine_impl.rs:275-326 | comparing the last key of the list decides as the last id of the log does |
| `RaftEngine.Engine.HandleVoteResp` | openraft/src/engine/engine_impl.rs:329-375 | the vote tracker wins the election exactly when the voters that granted are a joint quorum, in any order and with repeats; a refusal makes the handler take over the vote it carries as the protocol function does, and one with a greater log id is remembered |
| `RaftEngine.Engine.EstablishLeader` | openraft/src/engine/engine_impl.rs:632-660 | the handler is the protocol function; the leader is still there when its first entry is proposed |
| `RaftEngine.Engine.HasLogId` | openraft/src/raft_state/log_state_reader.rs:27-39 | lookup in the compressed list decides presence in the log |
| `RaftEngine.Engine.FirstConflictingIndex` | openraft/src/raft_state/mod.rs:313-332 | the loop finds the first entry that is not present |
| `RaftEngine.Engine.TruncateLogs` | openraft/src/engine/handler/following_handler/mod.rs:196-215 | truncating the list truncates the log |
| `RaftEngine.Engine.FollowerAppendEntries` | openraft/src/engine/handler/following_handler/mod.rs:63-108 | the list takes the first absent entry and all after it, in place of what it had there |
| `RaftEngine.Engine.CommitUpTo` | openraft/src/engine/handler/following_handler/mod.rs:162-190 | the handler is the protocol function, whose extent `RaftBehaviour.RequestIsAnswered` gives |
| `RaftEngine.Engine.HandleAppendEntries` | openraft/src/engine/engine_impl.rs:381-450 | the handler on the list is the protocol function on the log, refusals included |
| `Progress.MoveUpIs` | openraft/src/progress/mod.rs:247-259 | moving up takes one element past exactly the smaller ones before it and shifts those |
| `Progress.ScanIs` | openraft/src/progress/mod.rs:362-380 | on ordered voters the scan ends at the greatest value whose holders are a quorum |
| `Progress.UpdateKeeps` | openraft/src/progress/mod.rs:320-384 | one update of an ordered, exact tracker keeps the granted value the greatest one held by a quorum, for any joint quorum set; it keeps the order exactly when the guard holds |
| `Progress.UpdateSortedKeeps` | openraft/src/progress/mod.rs:130-139 | moving a voter up whenever it goes above the granted value keeps order and exactness without a guard |
| `ProgressRuns.NewIsOk` | openraft/src/progress/mod.rs:216-230 | a new tracker is ordered and exact |
| `ProgressRuns.GuardedRunIsExact` | openraft/src/progress/mod.rs:79-85 | over every guarded run the granted value is the greatest one held by a quorum |
| `ProgressRuns.SortedRunIsExact` | openraft/src/progress/mod.rs:130-139 | with the sorting update every run is exact |
| `ProgressExact.PairsRunIsExact` | openraft/src/progress/mod.rs:320-384 | if every two voters are a quorum every run is exact and keeps the documented order |
| `ProgressExact.RuledRunIsExact` | openraft/src/progress/mod.rs:320-384 | if the voters that are no quorum alone are none together either, every run is exact, though not in order |
| `ProgressExact.WrongRun` | openraft/src/progress/mod.rs:356-361 | in every other case there is a run after which the granted value is not the greatest one held by a quorum |
| `ProgressExact.ExactIff` | openraft/src/progress/mod.rs:320-384 | for every joint quorum set, voters and learners: every run is exact if and only if one of those two conditions holds |
| `ProgressExact.PairsIff` | openraft/src/quorum/joint.rs:82-89 | every two members of non-empty configs are a quorum if and only if they are at most two, or three and every config has all of them |
| `ProgressExact.MembershipIsExactIff` | openraft/src/progress/mod.rs:216-230 | for the configs of a membership every run is exact if and only if there are at most two voters, or three that every config has, or a config is empty; without an empty config, if and only if every two voters are a quorum |
| `ProgressExact.MajorityIsExactIff` | openraft/src/progress/mod.rs:320-384 | the granted value of a single majority is exact on every run if and only if it has at most three voters |
| `ProgressExact.ThreeVotersFail` | openraft/src/progress/mod.rs:356-361 | the joint config of voters 1, 2 and voters 1, 3 has a run that is not exact |
| `ProgressVec.UpgradeIsExact` | openraft/src/progress/mod.rs:417-431 | a change of the quorum set is exact whatever state the old tracker was in: ids that stay keep their values, others start at the default |
| `ProgressVec.UpdateMembers` | openraft/src/progress/mod.rs:320-384 | an update changes the value of one id and of no other |
| `ProgressVec.RunValues` | openraft/src/progress/mod.rs:320-384 | after every run a tracked id has the greatest value it was raised to, or the default |
| `ProgressVec.GrantRun` | openraft/src/proposer/candidate.rs:93-99 | after any grants the flags are set of exactly the voters that granted, and the tracker is exact |
| `ProgressVec.ElectionIsExact` | openraft/src/proposer/candidate.rs:93-99 | the vote is granted exactly if the voters that granted form a joint quorum, in any order and with repeats |
| `ProgressVec.VecProgress.constructor` | openraft/src/progress/mod.rs:216-230 | voters first, then learners, all at the default |
| `ProgressVec.VecProgress.Index` | openraft/src/progress/mod.rs:234-243 | the loop finds the position of an id, or none |
| `ProgressVec.VecProgress.MoveUp` | openraft/src/progress/mod.rs:247-259 | the swapping loop moves the element up |
| `ProgressVec.VecProgress.Update` | openraft/src/progress/mod.rs:320-384 | the update refines the function, and returns the granted value, as an error if the id is not tracked |
| `ProgressVec.VecProgress.Rescan` | openraft/src/progress/mod.rs:362-380 | the scan from high to low with the counting quorum test refines the function |
| `ProgressVec.VecProgress.Raise` | openraft/src/progress/mod.rs:58-66 | a value that is not greater changes nothing |
| `ProgressVec.VecProgress.UpgradeQuorumSet` | openraft/src/progress/mod.rs:417-431 | the loop over the old entries refines the function |
| `ProgressVec.Candidate.GrantBy` | openraft/src/proposer/candidate.rs:93-99 | a grant sets a flag and reports whether the vote is granted; a node that is no voter is an error |
| `LogIdList.Canonical` | openraft/src/engine/log_id_list.rs:15-24 | two well-formed lists that stand for the same log ids are the same list |
| `LogIdList.AppendPush` | openraft/src/engine/log_id_list.rs:180-224 | a pushed key stands for the appended id, with the gap before it filled by the last leader |
| `LogIdList.AppendReplace` | openraft/src/engine/log_id_list.rs:213-217 | where the last two keys are of one leader replacing the last appends just as well |
| `LogIdList.TruncateKeys` | openraft/src/engine/log_id_list.rs:228-252 | cutting the keys and adding the last id before the cut truncates the sequence; `at - 1` does not underflow |
| `LogIdList.PurgeKeys` | openraft/src/engine/log_id_list.rs:255-282 | dropping keys and moving the first one purges the sequence |
| `LogIdList.LookupAfter` | openraft/src/engine/log_id_list.rs:136-282 | what every operation leaves at every index: appending keeps ids and adds the new ones, truncating leaves those before the index, purging those not before the id, or just the id |
| `LogIdList.KeyList.Search` | openraft/src/engine/log_id_list.rs:295-295 | binary search finds the key or the place for it |
| `LogIdList.KeyList.RefAt` | openraft/src/engine/log_id_list.rs:294-317 | lookup in the list is lookup in the sequence |
| `LogIdList.KeyList.Append` | openraft/src/engine/log_id_list.rs:188-224 | the list stands for the sequence with the id appended |
| `LogIdList.KeyList.ExtendFromSameLeader` | openraft/src/engine/log_id_list.rs:136-154 | appending only the first and the last id of one leader appends all |
| `LogIdList.KeyList.Extend` | openraft/src/engine/log_id_list.rs:157-177 | skipping ids inside a leader's run appends all |
| `LogIdList.KeyList.Truncate` | openraft/src/engine/log_id_list.rs:228-252 | the list stands for the truncated sequence |
| `LogIdList.KeyList.Purge` | openraft/src/engine/log_id_list.rs:255-282 | the list stands for the purged sequence, across the end included |
| `LogIdList.KeyList.RunAll` | openraft/src/engine/log_id_list.rs:136-282 | through every run of operations the list stands for what the plain sequence would be |
| `LogIdList.KeyList.ByLastLeader` | openraft/src/engine/log_id_list.rs:346-361 | the longest run of ids of one leader at the end of the sequence |
| `KeyLogIds.GetKeyLogIds` | openraft/src/engine/log_id_list.rs:53-118 | the search ends and returns exactly the first id of each leader in the range, then the last id, or the index of a failed read; it reads at most d * ceil(log2 n) ids for d leader changes over a distance of n |
| `KeyLogIds.CeilLogIs` | openraft/src/engine/log_id_list.rs:68-111 | the logarithm in the bound is the rounded-up logarithm to base 2 |
| `KeyLogIds.HalvesCost` | openraft/src/engine/log_id_list.rs:90-110 | a read in the middle of a segment leaves halves that cost less than the whole by one |
| `KeyLogIds.KeyIdsStandFor` | openraft/src/engine/log_id_list.rs:53-118 | the result of the search is well formed and stands for the ids of the range |
| `KeyLogIds.LoadKeyLogIds` | openraft/src/storage/helper.rs:320-355 | the list rebuilt from storage is well formed and stands for the last purged id followed by the entries |
| `LogRecovery.ApplyAgrees` | openraft/src/engine/log_id_list.rs:136-282 | one append, truncation or purge of the log store is the same operation on the ids that the list stands for |
| `LogRecovery.RunAgrees` | openraft/src/engine/log_id_list.rs:15-24 | through every run of operations the list stands for exactly what the store keeps |
| `LogRecovery.OperateAndRestart` | openraft/src/storage/helper.rs:320-355 | after any run on list and store together the list rebuilt from the store is, key by key, the one maintained, or a failed read is reported |
| `LogState.RepairAgrees` | openraft/src/engine/handler/following_handler/mod.rs:63-108 | after a repair the follower's ids are the leader's up to the last one sent, what precedes the conflict is untouched, and the conflict is above the committed index |
| `LogState.AllPresent` | openraft/src/raft_state/mod.rs:313-332 | where nothing is absent every entry sent that is not purged is in the log |
| `LogState.State.HasLogId` | openraft/src/raft_state/log_state_reader.rs:27-39 | an id is present if its index is committed or the log has it |
| `LogState.State.FirstConflictingIndex` | openraft/src/raft_state/mod.rs:313-332 | the first entry that is not present, or the number of entries |
| `LogState.State.TruncateLogs` | openraft/src/engine/handler/following_handler/mod.rs:196-215 | an index that is not in the log deletes nothing |
| `LogState.State.AppendEntries` | openraft/src/engine/handler/following_handler/mod.rs:63-108 | only a conflicting tail is replaced, and the pointers stay valid |
| `LogState.State.LastPurged` | openraft/src/raft_state/mod.rs:146-151 | the last purged id is an id of the list, just below the first index kept |
| `LogState.State.PurgeLog` | openraft/src/engine/handler/log_handler/mod.rs:31-50 | the log is purged to the scheduled id and the pointers stay valid |
| `LogState.State.TriggerPurgeLog` | openraft/src/engine/engine_impl.rs:570-608 | the lookup always succeeds; the schedule never moves back and never passes the snapshot |
| `LogState.IdOrder` | openraft/src/raft_state/mod.rs:165-188 | on a sorted log the order of ids is the order of indexes |
| `Recovery.LastMembershipInLog` | openraft/src/storage/helper.rs:280-314 | the chunked backward scan returns exactly the last two membership entries, or fewer, at or after the start, in log order: every other one is earlier than two that are returned; a failed read is reported |
| `Recovery.ScanChunk` | openraft/src/storage/helper.rs:300-308 | one chunk scanned backwards until two entries are found |
| `Membership.ChangeIsSafeIff` | openraft/src/membership/membership.rs:315-368 | after a successful change every quorum of the old membership meets every quorum of the new one if and only if the old one has a config |
| `Membership.ChainIsSafe` | openraft/src/membership/membership.rs:292-368 | along any chain of requests adjacent memberships have quorums that meet, and all are valid |
| `Membership.DriveReachesGoal` | openraft/src/raft/impl_raft_blocking_write.rs:52-109 | a voter change driven to its end gives exactly the goal as the only config, without retain takes the nodes of exactly the old voters outside the goal, and is accepted if its first step is; `DriveVoters` and `DriveNodes` say who that is |
| `Membership.DriveVoters` | openraft/src/membership/membership.rs:320-336 | who votes when a change is driven to its end: the last config's members and those added, those not removed, or the replacement |
| `Membership.DriveNodes` | openraft/src/membership/membership.rs:292-307 | which nodes there are then, key by key: the old ones, unreplaced, and those that came with the change, but for former voters that are not retained |
| `Membership.NodesAfter` | openraft/src/membership/membership.rs:337-361 | what adding, setting, removing and replacing nodes leaves under every key; the configs stay, and driving the change does no more than one step |
| `Membership.SecondStep` | openraft/src/raft/impl_raft_blocking_write.rs:94-108 | the second application of the change leaves the joint config for the goal |
| `Membership.IsCoherentWith` | openraft/src/quorum/coherent_impl.rs:46-61 | the loop finds whether a config is among the sub-configs |
| `Membership.FindCoherent` | openraft/src/quorum/coherent_impl.rs:68-79 | the goal alone if it is a sub-config or there is none, else a joint of the last sub-config and the goal |
| `Membership.VoterIds` | openraft/src/quorum/joint.rs:91-97 | the union of the sub-configs |
| `Membership.ExtendNodes` | openraft/src/membership/membership.rs:219-233 | nodes are added and none is replaced |
| `Membership.RemoveNodesFrom` | openraft/src/membership/membership.rs:301-303 | exactly the listed nodes are removed |
| `Membership.NextCoherentStep` | openraft/src/membership/membership.rs:292-307 | the next config and its nodes |
| `Membership.EnsureValid` | openraft/src/membership/membership.rs:238-268 | accepted exactly if no sub-config is empty and every voter has a node; an empty sub-config is reported first |
| `Membership.Change` | openraft/src/membership/membership.rs:315-368 | a change succeeds exactly if its outcome is valid, and then gives that outcome; an empty config is reported first |
| `Membership.ChangeMembership` | openraft/src/raft/impl_raft_blocking_write.rs:52-109 | the driver succeeds exactly if the first step is valid, for every kind of change, and then gives what `DriveVoters`, `DriveNodes` and `NodesAfter` describe |
| `SnapshotTransfer.WriteKeepsIff` | openraft/src/network/snapshot_transport.rs:231-257 | a chunk leaves a beginning of the snapshot exactly if it is empty, begins within the data, or the snapshot is zero in the gap |
| `SnapshotTransfer.FinishedIff` | openraft/src/network/snapshot_transport.rs:165-257 | in every run from the beginning, with chunks delivered late, repeatedly and in any order, a finished snapshot is the one sent exactly if every byte was written or is a zero before one that was |
| `SnapshotTransfer.GaplessIsSent` | openraft/src/network/snapshot_transport.rs:165-257 | if no accepted chunk begins past the end of the data it is written into, every finished snapshot is byte for byte the one sent under its id, however late chunks are delivered |
| `SnapshotTransfer.FinishedIsSent` | openraft/src/network/snapshot_transport.rs:46-257 | without late delivery that holds in every run with losses, retries, restarts and interleaved streams |
| `SnapshotTransfer.MismatchStartsOver` | openraft/src/network/snapshot_transport.rs:111-161 | after a mismatch is answered the sender's next chunk is accepted, whatever the receiver does in between |
| `SnapshotTransfer.TransferEnds` | openraft/src/network/snapshot_transport.rs:46-257 | from every reachable world, chunks that are not empty and are answered hand the snapshot over after at most one for each byte and one more, and until then another can be sent; it is the snapshot sent exactly if every byte was written or is a zero before one that was, and always if the stream or the sender was at its start or nothing was delivered late |
| `SnapshotTransfer.EmptyIsSent` | openraft/src/network/snapshot_transport.rs:46-257 | an empty snapshot is handed over with its only chunk |
| `SnapshotTransfer.AnyNext` | openraft/src/network/snapshot_transport.rs:165-257 | whatever is delivered when, the data is the snapshot where chunks were written and zero elsewhere |
| `SnapshotTransfer.WriteExtends` | openraft/src/network/snapshot_transport.rs:231-257 | a chunk written at or before the end of a beginning leaves a beginning |
| `SnapshotTransfer.LateDeliveryCorrupts` | openraft/src/network/snapshot_transport.rs:165-222 | a reachable run in which a late first chunk revives a replaced stream and completes a snapshot that was never sent |
| `SnapshotTransfer.Receiver.ReceiveSnapshot` | openraft/src/network/snapshot_transport.rs:165-257 | a request for another stream must start at 0 and replaces the stream; a done chunk hands the data over |
| `SnapshotTransfer.Sender.NextChunk` | openraft/src/network/snapshot_transport.rs:76-96 | the chunk at the offset, full or up to the end, marked done exactly at the end |
| `SnapshotTransfer.Sender.OnReply` | openraft/src/network/snapshot_transport.rs:111-161 | no answer leaves the offset, a mismatch resets it to 0, a higher vote or the last acceptance ends the transfer, acceptance advances the offset |
| `CommandQueue.RepliesAreDurable` | openraft/src/core/raft_core.rs:874-906 | over every interleaving commands run in the order pushed, none lost or repeated; no successful append reply is sent before every I/O pushed before it is flushed, no vote reply before every vote is, nothing that waits for an I/O runs before it and all earlier ones are flushed, and nothing that waits for an index to be applied or in a snapshot runs before it is |
| `CommandQueue.NothingStalls` | openraft/src/core/raft_core.rs:1667-1721 | in every run, once all submitted I/O is flushed, the first command can run unless it is a task that waits for something else |
| `CommandQueue.RunAllOk` | openraft/src/core/raft_core.rs:874-906 | the loop keeps that invariant and stops only at an empty queue or a command that has to wait |
| `CommandQueue.WaitedIsFlushed` | openraft/src/core/raft_core.rs:1675-1686 | a condition on an I/O is met only when every I/O up to it that ran is flushed |
| `CommandQueue.EngineOutput.PushCommand` | openraft/src/engine/engine_output.rs:29-32 | a command goes to the end |
| `CommandQueue.EngineOutput.PostponeCommand` | openraft/src/engine/engine_output.rs:37-40 | a command goes back to the front |
| `CommandQueue.EngineOutput.PopCommand` | openraft/src/engine/engine_output.rs:43-45 | the first command comes out, or none of an empty queue |
| `CommandQueue.RaftCore.RespondVote` | openraft/src/core/raft_core.rs:1183-1194 | a vote reply is queued to wait for the vote the node holds |
| `CommandQueue.RaftCore.RespondAppend` | openraft/src/engine/engine_impl.rs:398-416 | a successful append reply is queued to wait for all that was accepted, a refusal for nothing |
| `CommandQueue.RaftCore.RunCommand` | openraft/src/core/raft_core.rs:1667-1721 | a command whose condition is not met is given back and nothing happens |
| `CommandQueue.RaftCore.RunEngineCommands` | openraft/src/core/raft_core.rs:874-906 | the loop refines the function |
| `CommandQueue.RaftCore.LocalIO` | openraft/src/core/raft_core.rs:1428-1429 | a flush notice advances the flushed id |
| `CommandQueue.RaftCore.StateMachineDone` | openraft/src/core/raft_core.rs:1501-1519 | a report of the state machine advances what is applied and in a snapshot |

## Left out

- Snapshots, purging and membership changes inside the protocol: the cluster of `RaftCluster` has a fixed quorum set and full logs; membership and purging are treated on their own.
- What payloads mean: they are told apart and nothing else; a membership among them changes no quorum.
- Leader leases and every other clock: a lease is a nondeterministic refusal of a vote request.
- Initialization as a step: a pristine node starts with the initial membership entry or without it.
- The correction of a state machine that is ahead of the log in `get_initial_state`, and re-applying committed entries.
- The condition on flushed log ids, which only the answer to an initialization carries.
- I/O ids: `CommandQueue` ranks them by increasing numbers, and takes the log store to flush in the order of submission.
- Storage errors other than failed reads: they are fatal to the node in the source.
- Partial writes and seeks that fail during a snapshot transfer, the vote carried by its requests, and cancellation.
- 64-bit overflow of indexes, for instance in the middle of a range in `get_key_log_ids`.
- The order in which a set of voters is listed: trackers and checks work for any order.
- Other requests that run between the two steps of the membership driver.
- Replication streams, heartbeats, leadership transfer, linearizable reads, metrics, configuration and the async runtime.
- LogIdList.KeyList.Append: ids must come in index order, which the source only asserts for log ids.
- SnapshotTransfer.FinishedIsSent: a request is delivered at once or never; `FinishedIff` and `GaplessIsSent` cover late delivery.
- RaftTheorems.LeadersHaveCommitted: for a leader of the same vote presence is stated only up to the length of its log, because a restarted leader can lack entries it did not flush.
- RaftTracked.TrackedRefines: an acknowledgement that is older than one heard before changes nothing, where the source asserts that there is none.
- RaftEngine.Engine.HandleAppendEntries: what is committed is taken to be within the log, which `RaftTheorems.CommittedStays` shows of every reachable node.
