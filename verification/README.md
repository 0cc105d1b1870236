# A verified model of radb

radb is a distributed SQL database: Raft consensus replicates a log of commands
to a state machine, which is a SQL engine on multi-version transactions, on an
ordered key encoding, on an append-only storage engine. This project models the
logic of each layer in Dafny and proves what the layers above rely on.
`dafny verify dfyconfig.toml` checks all of it.

## How it is laid out

| layer | modules |
|---|---|
| Raft | `RaftTypes`, `RaftNode` (one node, as functions), `RaftLog` and `RaftRawNode` (the classes, proved to compute those functions), `RaftQuorum`, `RaftFacts` (what every step of a node guarantees), `RaftCluster` (nodes and a network as a state machine), `RaftElection`, `RaftLogs`, `RaftBallots`, `RaftAcks`, `RaftCompleteness`, `RaftCommit`, `RaftReads`, `RaftFresh`, `RaftRequests`, `RaftClients`, `RaftLife`, `RaftLinks`, `RaftHalts` (theorems over runs), `RaftTrace`, `RaftRecovery`, `RaftProgress`, `RaftNeverStuck`, `RaftAnswersRead`, `RaftLiveness` (from every state of a run the cluster can go on), `RaftPair`, `RaftDelayed`, `RaftStale` and `RaftStray` (runs that show what the theorems need) |
| keys | `ByteOrder`, `KeyCode` (the encoding, as functions), `KeyCodec` (serializer and deserializer) |
| MVCC | `Mvcc` (transactions on an abstract store), `MvccHistory` (theorems over interleavings), `MvccKeys` (what the encoded ranges contain), `MvccEngine` and `MvccScan` (transactions and iterators on the byte engine) |
| storage | `BitCask` |
| SQL | `SqlExpression`, `SqlNormalForm`, `SqlFold`, `SqlPlan`, `SqlPushdown` (one join), `SqlOptimize` (whole plans), `SqlRounding` (where it loses rows), `SqlStore` and `SqlOperations` (rows, indexes and integrity, as functions), `SqlExact` (when an operation goes through, and the rows it leaves), `SqlTransaction` (the class), `SqlSchemas` (theorems over runs) |

Code that updates state in place is a class or a method with loops, proved
against a function on values. The theorems are about those functions, over all
inputs or over all runs.

## Raft

A cluster is any set of members, each with the durable term, vote, log, commit
position and applied entries, and a role. The network is the sequence of all
messages ever sent. An action delivers one of them, submits a client request,
fires a timer (timers are nondeterministic), or restarts a node from what is
durable; a restart may also lose a suffix of what the state machine had applied.
In any-network runs every message can be lost, delayed, reordered and repeated.
In in-order runs a link can lose messages but delivers the others in order and
once, which is what one channel per peer gives. A failed assertion or an error
return halts the node: what it sent in that step is lost, and what it had made
durable stays.

Election safety, log matching and read confirmation hold for any network. The
commit theorems hold for in-order links. `DelayedAppendCutsCommitted` is a run in
which one message arrives late and a follower loses an entry that it had
committed and applied, so they do not hold for any network; and
`SpliceSparesCommitted` says exactly when a splice is harmful: a splice whose
entries all match drops whatever follows them. A read sees every earlier write if
its leader has committed in its own term (`FreshRead`); `StaleRead` is an in-order
run in which the leader has not and the read misses an answered write.

What clients are told is followed through the whole cluster. Whatever the network
does, an answer that is not an abort is the result of the client's own request at
the leader of its term, also when a follower passes it on (`AnswerIsOwn`,
`RelayIsExact`), and no request is answered twice or dropped while its node is up
(`LifeConservation`). Over in-order links, a write that a client was told to be
done is there for good (`AcknowledgedWrite`).

The program asserts much about the messages that it gets, and a failed assertion
stops the node. `HaltsIff` says exactly when that happens: a node that was restarted,
is still in the term it was in, and has not heard from a leader, gets something that
was sent to it for what it had been before, as in `RestartedHalts`. Without restarts
no assertion fails (`NeverHalts`).

Safety would hold of a cluster that does nothing. `NeverStuck` shows that this one
does not get stuck: from every state of every in-order run, after any losses and
crashes, there is a continuation in which the nodes elect a leader, bring every log
up to date and commit and answer a write at whichever node it is submitted, and
`ReadsAnywhere` that it can then answer reads.

The proofs use history variables (`grants`, `leaders`, `logs`, `acks`, `marks`)
that every step writes and none reads. The chain is: a term has one leader, whose
log only grows; every log prefix is a prefix of the log of the leader of its last
term; a voter's log at its vote is on record, and so is what each node
acknowledged; therefore entries that a quorum stored in a term are in the log of
each later leader, by induction on terms; therefore commits never conflict.

## MVCC

A schedule interleaves any number of transactions: begin, resume, begin
read-only (now or as of a version), write, commit and rollback, each step an
action of its own. Begin and resume open handles, several of which can stand for
one version or one reader, and commit and rollback use one up. As in the program,
only resume looks whether the version is still active. A read-only handle can be
written to, committed and rolled back too, which does nothing
(`ReadersChangeNothing`). A run is a schedule in which no handle
writes after its version ended; a late commit or rollback is allowed, and does
nothing. The theorems are about all runs. The Raft state machine makes only runs,
since it resumes for each operation (src/sql/engine/raft.rs:310-327).
`StaleHandleBreaksSnapshot` is a schedule that is not a run and breaks snapshot
reads, and `WriteIsPrivateIff` shows that exactly such writes do harm, unless
they write what is committed anyway.

The comment in the program on why only the latest version is checked for
conflicts becomes an invariant, and `ConflictIffInvisible` its proof.

## SQL

Values are NULL, booleans, integers, strings, and floats as bit patterns.
Equality of floats is that of IEEE 754: a NaN equals nothing, and the two zeros
are equal (`EqualMeans`). An integer is compared with a float by rounding it first;
rounding, arithmetic, ordering and LIKE are arbitrary functions, and the theorems hold for
all of them. Where a rewrite does not do what its name says, the exact condition
is proved: `NnfReachedIff`, `CnfReachedIff` and `NnfMeans`, on the input of the
conversion.

Pushdown can change the rows of an inner join in two cases, and of an outer join
in a third. The conditions are exact:

- A lookup is transferred along an equijoin from a float to an integer column.
  Several integers can round to the same float, as 2^53 and 2^53 + 1 do, so that
  rows are lost, unless every integer that rounds like a value of the lookup is
  found by it (`LookupJoinIff`, `RoundedJoinLoses`). `OptimizeKeepsRows` is for
  whole plans without such transfers, which can be seen from the plan and the
  column types; all plans whose integer constants round apart are of this kind
  (`ExactPlan`).
- The right source of a join does not take its part of the predicate, which then
  stays in the join, shifted. That the source takes it is a condition a planner
  can check, and the premise of `PushdownKeepsIff`; it holds throughout a plan of
  scans, filters and inner joins. `RefusedRightExact` says, in terms of the rows,
  exactly when the remaining case does harm. The planner does build it: a comma
  join whose right side is a RIGHT JOIN gets a projection as its right source
  (src/sql/plan/planner.rs:314-320).
- The code pushes down the predicate of an outer join, and filters into one, as
  for an inner join (`OuterKeepsIff`, `OuterFilterIff`).

Integrity is types, not-null, every row under its own primary key, references to
existing rows, uniqueness, and exact index entries. Uniqueness and the exemption
of references are as the program has them: no two rows have equal values, so that
NaN may repeat as NULL may, and neither has to refer to a row.

The program accepts tables in which columns share a name, and looks columns up by
name when it keeps indexes, checks for duplicates and deletes rows. It also
accepts FLOAT keys and indexes, stores rows and entries by the bits of a value,
and compares values with ==, so that it takes 0.0 and -0.0 for one value in two
places. Integrity is therefore not kept for all tables. `SafeSchema` is a
condition on the schema alone, and `SchemaSafeIff` shows that it is exact. An
update that is refused has already moved index entries; `RefusedReplace` and
`UpdateIntegrity` say, before the call, when that does no harm, and
`RefusedUpdateBreaks` that it can for nearly every index.

Keeping integrity would also be easy for a store that refuses everything. With
safe schemas, an operation goes through if and only if the store it is to leave
satisfies the constraints (`CreateIff`, `DeleteIff`, `UpdateIff`, `DropIff`), and
for all schemas the rows it leaves are given exactly (`CreateRows`, `UpdateRows`).

## Where code and comments differ

- `into_nnf` and `into_cnf` say they convert to normal form. They preserve
  meaning, but reach the form only under the conditions proved here, because a
  node that was just rewritten is not looked at again.
- Reads are said to be linearizable (docs/architecture.md:256-261). A read waits for
  a confirmation of leadership, but not for a commit in the leader's own term, so
  a new leader can answer it from before a write that was already answered
  (`StaleRead`). Once the leader has committed in its term, reads are fresh
  (`FreshRead`).
- Messages that a node does not expect in its role are said not to occur
  (src/raft/node/follower.rs:244-247, 220, 237). After a restart within a term they do (`RestartedHalts`).
- `splice` says it replaces entries after a mismatch; it also cuts the log when
  nothing mismatches.
- The scan iterator is said to consume from each end independently. `EndsMeet`
  says exactly when the two ends together give the forward result.

## Model

| member | source | states |
|---|---|---|
| `RaftCommit.StateMachineSafety` | src/raft/node/mod.rs:157-178 | At any two moments of any run over lossy in-order links with restarts, what two nodes have applied agrees: one sequence is a prefix of the other |
| `RaftCommit.OneCommonSequence` | src/raft/node/mod.rs:157-178 | For a whole run there is one sequence of entries of which everything any node ever applied is a prefix |
| `RaftCommit.LeaderCompleteness` | src/raft/node/leader.rs:305-353 | What any node has committed, in the term of its last committed entry, is in the log of every leader of a later term, at whatever moment that leader leads; a leader of the same term has it from the commit on |
| `RaftCommit.CommittedForever` | src/raft/node/follower.rs:147-187 | At every later moment, across restarts, a node still has what it committed, at the same positions, and has committed no less |
| `RaftCommit.CommittedChain` | src/raft/node/leader.rs:305-332 | In every state that satisfies the invariants, of any two committed prefixes one extends the other |
| `RaftCommit.SpliceNeverFails` | src/raft/log.rs:233-260 | In every in-order run, splicing any Append that was ever sent and that passes the base check returns no error, so it never asks to replace a committed entry |
| `RaftCommit.SpliceSparesCommitted` | src/raft/log.rs:233-274 | For every log and every accepted splice: it leaves the committed entries in place if and only if it carries nothing or its last index reaches the commit index |
| `RaftDelayed.DelayedAppendCutsCommitted` | src/raft/log.rs:266-273 | For every total state machine: a run of two nodes, all steps of the program and all but the last in order, in which an older Append arrives late and a follower loses an entry that it had committed and applied. The commit theorems are false without in-order links |
| `RaftCompleteness.CommittedInLaterTerms` | src/raft/node/follower.rs:190-211 | In every state that satisfies the invariants: entries that a quorum stored, the last of the storing term, are in the log of the leader of every later term (by induction over terms and meeting quorums) |
| `RaftElection.ElectionSafety` | src/raft/node/candidate.rs:114-119 | Over any run, with any loss, duplication and reordering and across restarts, two nodes that ever lead the same term are the same node |
| `RaftLogs.LogMatching` | src/raft/log.rs:233-274 | Over any run with any network: two logs, at any two moments, with the same term at an index are identical up to that index |
| `RaftLogs.OneLeaderSeen` | src/raft/node/follower.rs:147-181 | The assertions on the leader of a term cannot fail: whom a node follows, or is, is the sender of every Heartbeat and Append of its term |
| `RaftReads.ReadConfirmation` | src/raft/node/leader.rs:357-386 | A read queued at one step and executed at a later one was accepted while no node had ever led a later term |
| `RaftFresh.FreshRead` | src/raft/node/leader.rs:357-386 | Over any in-order run with restarts: a read that its leader executes after committing an entry of its own term is answered from a state that holds everything any node had applied at any moment before the read was accepted; unless the leader halts, that answer is sent in that step |
| `RaftFresh.BehindRun` | src/raft/node/leader.rs:305-333 | At every moment of an in-order run: whatever any node has committed, or any heartbeat announces, in a term is no further than the commit of that term's leader, while it leads |
| `RaftFresh.CaughtUpRun` | src/raft/node/follower.rs:74-85 | At every moment of an in-order run, a running leader or candidate has applied all it has committed |
| `RaftStale.StaleRead` | src/raft/node/leader.rs:357-386 | For every total state machine: an in-order run of two nodes in which a new leader, with nothing committed in its term, accepts a read after a write was applied and answered, and answers it from the empty state. The promise of linearizable reads is false without the condition of FreshRead |
| `RaftReads.LoneReadConfirmation` | src/raft/node/leader.rs:214-226 | A read submitted to a lone leader is answered in that very step with its own command on what is applied, no read is left pending, and whoever led by then is that node, in this term or an earlier one |
| `RaftRequests.RequestConservation` | src/raft/node/leader.rs:105-128 | At every moment of a leadership each request was taken exactly as often as it was answered or is pending; after losing leadership everything taken was answered |
| `RaftRequests.HandleBalance` | src/raft/node/leader.rs:131-268 | Every event other than a crash balances, request by request, what a leader takes with what it answers or keeps pending |
| `RaftRequests.AbortsAll` | src/raft/node/leader.rs:105-128 | Losing leadership answers every pending read and write exactly as often as it is pending |
| `RaftRequests.WriteAnswerIsOwn` | src/raft/node/leader.rs:335-350 | Whenever a leader answers a write with Ok, it still leads after that step, and the answer carries what the state machine returned for the very entry that was proposed for that request in this leadership, committed and after everything before it |
| `RaftRequests.ReadAnswerIsOwn` | src/raft/node/leader.rs:373-383 | A read answer is the result of that reader's own command on what is applied |
| `RaftClients.HandleSends` | src/raft/node/follower.rs:219-242 | What any event at any node sends for clients: a leader answers with the result of the very request, a follower forwards its client's request as it is to its leader or passes on, unchanged, the answer to a request it forwarded, and a candidate only aborts |
| `RaftClients.AnswerIsOwn` | src/raft/node/follower.rs:236-242 | Over any run with any network and restarts: every answer other than an abort that any node ever sends, to another node or to its own client, was told by a leader of that term as the result of the client's own request: a write as its committed entry with this outcome, a read as its command on what was applied, a status as it was |
| `RaftClients.ForwardIsOwn` | src/raft/node/follower.rs:219-227 | Whatever is forwarded was submitted by a client of the sender, and goes to the one leader of the term |
| `RaftClients.RelayIsExact` | src/raft/node/follower.rs:236-242 | A node that does not lead answers its own client only, only for a request it had forwarded, and with exactly what the leader of its term had sent it; a candidate gives no answer but aborts |
| `RaftClients.AcknowledgedWrite` | src/raft/node/leader.rs:335-350 | Over any in-order run with restarts: a write that any node ever told its client to be done is an entry with the client's command, and every node from then on that has applied that far applied it there, and every leader of that term or later has it in its log |
| `RaftHalts.HaltsIff` | src/raft/node/follower.rs:215-248 | Over any in-order run with restarts, for a state machine that succeeds: a step ends in a failed assertion, a panic or an error return if and only if the node follows nobody in its term and gets, in that term, a response to a leader, an answer for a client, or another node's request |
| `RaftHalts.NeverHalts` | src/raft/node/leader.rs:148-265 | So as long as no node restarts, no assertion ever fails and no step returns an error |
| `RaftStray.RestartedHalts` | src/raft/node/follower.rs:244-247 | A run in which a leader restarts, gets the answer to a heartbeat it had sent in the same term, and panics |
| `RaftLinks.LinkRun` | src/raft/node/leader.rs:105-128 | Over any run with any network: responses go to the leader of their term and carry no later term, requests are forwarded to it by nodes past their candidacy, and a leader answers or owes, besides its own clients, only nodes that forwarded a request to it in its term |
| `RaftLife.LifeBalance` | src/raft/node/follower.rs:215-270 | Every event but a crash, in any role, balances each request taken with its answer or with one that is open, pending or forwarded |
| `RaftLife.LifeConservation` | src/raft/node/follower.rs:264-270 | From a boot to the next crash, through all roles: each request was taken exactly as often as it was answered or is open, so none is answered twice and none is dropped |
| `RaftLiveness.NeverStuck` | src/raft/node/leader.rs:148-353 | From every state of every in-order run, whatever was lost and whoever crashed, there is a continuation in which a write submitted at any node is committed, applied by all nodes, and answered at that node; all logs are then the same |
| `RaftLiveness.ReadsAnywhere` | src/raft/node/leader.rs:357-386 | From every settled state there is one in which a read submitted at any node is answered there, from the log that all have applied |
| `RaftRecovery.CanElect` | src/raft/node/candidate.rs:108-119 | From every state of every in-order run the cluster can come to elect a leader |
| `RaftProgress.CatchesUp` | src/raft/node/leader.rs:175-208 | However far behind a peer is, probing one entry back at a time ends, and the peer stores the whole log |
| `RaftNeverStuck.CanSettle` | src/raft/node/follower.rs:147-187 | From every state of every in-order run the cluster can come to a state in which all nodes run and have applied one log |
| `RaftNeverStuck.CanWrite` | src/raft/node/leader.rs:230-236 | A settled cluster can take a write at any node, answer it there, and settle with exactly one more entry |
| `RaftAnswersRead.CanRead` | src/raft/node/leader.rs:214-226 | A settled cluster can answer a read at any node with its command on the common log, and settle again with the same log |
| `RaftFacts.HandleFacts` | src/raft/node/mod.rs:81-97 | Every event at every node satisfies the relations (terms, votes, logs, commits, sent messages) that the run theorems rest on |
| `RaftQuorum.QuorumValueMeaning` | src/raft/node/mod.rs:234-244 | The quorum value is one of the values, is reached by a strict majority, and no larger value is |
| `RaftQuorum.QuorumsMeet` | src/raft/node/mod.rs:234-236 | Two strict majorities of the same members share a member |
| `RaftNode.Matched` | src/raft/log.rs:246-254 | The number of leading entries that agree in term with the log, and that the next one does not |
| `RaftNode.ReadyCount` | src/raft/node/leader.rs:373-377 | The longest prefix of pending reads whose numbers are confirmed |
| `RaftLog.Log.constructor` | src/raft/log.rs:78-100 | Opens a log over what the engine holds; the last index and term are those of the last entry |
| `RaftLog.Log.SetTerm` | src/raft/log.rs:145-148 | Stores term and vote; entries and commit position are unchanged |
| `RaftLog.Log.Append` | src/raft/log.rs:160-167 | The log grows by exactly one entry at the next index |
| `RaftLog.Log.Get` | src/raft/log.rs:190-195 | The entry at an index if and only if it exists |
| `RaftLog.Log.HasEntry` | src/raft/log.rs:198-204 | True exactly for a stored index with that term, or for index and term 0 |
| `RaftLog.Log.Commit` | src/raft/log.rs:171-187 | Succeeds exactly for an existing index that is no regression, and then records index and term; otherwise nothing changes |
| `RaftLog.Log.Scan` | src/raft/log.rs:207-227 | All entries from an index on |
| `RaftLog.Log.Contiguous` | src/raft/log.rs:240-242 | Whether indexes follow each other |
| `RaftLog.Log.Fits` | src/raft/log.rs:237-242 | Accepts exactly contiguous entries that start within or right after the log |
| `RaftLog.Log.Skip` | src/raft/log.rs:246-254 | The scanning loop counts exactly the leading entries already stored |
| `RaftLog.Log.WriteAll` | src/raft/log.rs:261-264 | Writes exactly the given entries at their own indexes |
| `RaftLog.Log.DeleteAll` | src/raft/log.rs:267-269 | Removes exactly an index range |
| `RaftLog.Log.Rewrite` | src/raft/log.rs:261-269 | Write and delete loops together leave the kept prefix followed by the new entries in the engine |
| `RaftLog.Log.Replace` | src/raft/log.rs:261-273 | The log becomes the kept prefix followed by the new entries; term, vote and commit position stay |
| `RaftLog.Log.Splice` | src/raft/log.rs:233-274 | The loops over the engine compute the splice on sequences; an error leaves the log unchanged |
| `RaftRawNode.RawNode.constructor` | src/raft/node/follower.rs:41-51 | A leaderless follower over the stored term, vote and log |
| `RaftRawNode.RawNode.BroadcastAll` | src/raft/node/mod.rs:205-211 | One message to every peer |
| `RaftRawNode.RawNode.AbortForwarded` | src/raft/node/follower.rs:264-270 | Answers every forwarded request with an abort |
| `RaftRawNode.RawNode.MaybeApply` | src/raft/node/mod.rs:151-178 | The loop applies the committed entries in order, up to an internal error |
| `RaftRawNode.RawNode.ApplyNext` | src/raft/node/leader.rs:335-350 | Applies one entry and answers its writer, if one waits |
| `RaftRawNode.RawNode.MaybeApplyAndReply` | src/raft/node/leader.rs:335-350 | Applies what is committed and answers exactly the writers of the entries applied |
| `RaftRawNode.RawNode.Heartbeat` | src/raft/node/leader.rs:283-290 | Commit position and read number to every peer |
| `RaftRawNode.RawNode.SendLog` | src/raft/node/leader.rs:389-403 | Everything from the peer's next index to the end of the log, or a halt where the base entry is missing |
| `RaftRawNode.RawNode.Propose` | src/raft/node/leader.rs:295-301 | Appends one entry and sends every peer its log, as the step function says |
| `RaftRawNode.RawNode.QuorumIndex` | src/raft/node/leader.rs:307-314 | The quorum value of all stored positions |
| `RaftRawNode.RawNode.CommitTo` | src/raft/node/leader.rs:327-353 | Commits, applies and answers as the step function says |
| `RaftRawNode.RawNode.MaybeCommitAndApply` | src/raft/node/leader.rs:305-353 | Commits what a quorum stored, only in its own term, as the step function says |
| `RaftRawNode.RawNode.QuorumReadSeq` | src/raft/node/leader.rs:362-370 | The quorum value of all confirmed read numbers |
| `RaftRawNode.RawNode.ExecuteReads` | src/raft/node/leader.rs:373-383 | Pops and answers exactly the confirmed prefix of the queue |
| `RaftRawNode.RawNode.MaybeRead` | src/raft/node/leader.rs:357-386 | Executes confirmed reads as the step function says |
| `RaftRawNode.RawNode.LeaderHeartbeatResponse` | src/raft/node/leader.rs:157-171 | Records the echoed number, reads, and sends a behind peer its log, as the step function says |
| `RaftRawNode.RawNode.LeaderAppendResponse` | src/raft/node/leader.rs:175-208 | Records acceptance and commits, or probes one entry back, as the step function says |
| `RaftRawNode.RawNode.LeaderRead` | src/raft/node/leader.rs:214-226 | Numbers and queues a read and confirms by heartbeat, as the step function says |
| `RaftRawNode.RawNode.LeaderWrite` | src/raft/node/leader.rs:230-236 | Proposes a write and tracks its writer, as the step function says |
| `RaftRawNode.RawNode.LeaderRequest` | src/raft/node/leader.rs:214-257 | Dispatches a request as the step function says |
| `RaftRawNode.RawNode.LeaderStep` | src/raft/node/leader.rs:148-265 | Each message in the leader role, as the step function says, including every panic |
| `RaftRawNode.RawNode.AbortWrites` | src/raft/node/leader.rs:111-117 | Aborts exactly the pending writes |
| `RaftRawNode.RawNode.AbortReads` | src/raft/node/leader.rs:118-123 | Aborts exactly the pending reads |
| `RaftRawNode.RawNode.EnterTerm` | src/raft/node/follower.rs:92-118 | Answers what is given up and becomes a follower of the later term that has not voted |
| `RaftRawNode.RawNode.IntoLeader` | src/raft/node/candidate.rs:77-88 | Starts leading with a heartbeat and a noop, as the step function says |
| `RaftRawNode.RawNode.StartCampaign` | src/raft/node/candidate.rs:157-168 | Next term, own vote made durable, votes asked of every peer |
| `RaftRawNode.RawNode.CandidateStep` | src/raft/node/candidate.rs:108-141 | Each message in the candidate role, as the step function says; what that answers to clients is in HandleSends and RelayIsExact |
| `RaftRawNode.RawNode.Follow` | src/raft/node/follower.rs:147-153 | Follows the first leader of the term, and halts on a second |
| `RaftRawNode.RawNode.FollowerHeartbeat` | src/raft/node/follower.rs:147-169 | Answers, commits and applies as the step function says |
| `RaftRawNode.RawNode.FollowerAppend` | src/raft/node/follower.rs:172-187 | Rejects or splices, and answers, as the step function says |
| `RaftRawNode.RawNode.FollowerCampaign` | src/raft/node/follower.rs:190-211 | Votes at most once and never for an older log, as the step function says |
| `RaftRawNode.RawNode.FollowerRequest` | src/raft/node/follower.rs:219-233 | Forwards to the leader or aborts |
| `RaftRawNode.RawNode.FollowerResponse` | src/raft/node/follower.rs:236-242 | Returns an answer only for a forwarded request, as the step function says; that it is the leader's own answer is in RelayIsExact |
| `RaftRawNode.RawNode.FollowerStep` | src/raft/node/follower.rs:143-250 | Each message in the follower role, as the step function says; what that tells clients is in HandleSends and AnswerIsOwn |
| `RaftRawNode.RawNode.RoleStep` | src/raft/node/mod.rs:81-88 | Dispatch by role |
| `RaftRawNode.RawNode.Step` | src/raft/node/mod.rs:81-88 | One message from any state: past terms dropped, later terms entered, all as the step function says |
| `RaftRawNode.RawNode.Fire` | src/raft/node/mod.rs:91-97 | A timer that fires, as the step function says |
| `RaftRawNode.RawNode.Start` | src/raft/node/mod.rs:47-60 | A new node; a lone one elects itself |
| `ByteOrder.LessMeans` | src/storage/engine.rs:28-31 | Recursive byte order is first-difference order or a proper prefix |
| `ByteOrder.LessTotal` | src/storage/engine.rs:28-31 | Byte order is total |
| `ByteOrder.PrefixRangeIsExact` | src/storage/engine.rs:40-52 | A key lies within the computed prefix bounds if and only if it has the prefix, also for empty and all-0xff prefixes |
| `ByteOrder.SortKeys` | src/storage/engine.rs:28-31 | Lists exactly the given keys in strictly ascending order |
| `KeyCode.KeyRoundTrip` | src/encoding/keycode.rs:53-70 | Deserializing a serialized key of any type, text included, gives it back |
| `KeyCode.TailRoundTrip` | src/encoding/keycode.rs:223-231 | So does deserializing a tuple that ends in a sequence of any length |
| `KeyCode.TailCanonical` | src/encoding/keycode.rs:525-538 | Whatever deserializes as such a tuple is its serialization |
| `KeyCode.KeyCanonical` | src/encoding/keycode.rs:60-70 | Whatever bytes deserialize are the serialization of the result: no key has two encodings |
| `KeyCode.PrefixFree` | src/encoding/keycode.rs:169-179 | No encoding is a prefix of another of the same type |
| `KeyCode.KeyOrder` | src/encoding/keycode.rs:114-179 | Byte order of encodings, whatever follows them, is exactly the order of the keys, field by field |
| `KeyCode.RoundTrip` | src/encoding/keycode.rs:90-179 | Decoding with anything following returns the item and leaves what follows |
| `KeyCode.Canonical` | src/encoding/keycode.rs:373-446 | Whatever decodes is an encoding followed by the rest |
| `KeyCode.BytesRoundTrip` | src/encoding/keycode.rs:343-362 | Escaped and terminated byte strings decode to themselves, leaving what follows |
| `KeyCode.BytesCanonical` | src/encoding/keycode.rs:343-362 | Input that decodes is the escaped form of the result |
| `KeyCode.BytesOrder` | src/encoding/keycode.rs:169-179 | Smaller byte strings have smaller encodings at a first difference, so prefixes sort first |
| `KeyCode.BigEndianOrder` | src/encoding/keycode.rs:134-137 | Big-endian bytes sort like the numbers |
| `KeyCode.SignedCode` | src/encoding/keycode.rs:114-119 | Flipping the sign bit shifts signed numbers to unsigned ones in the same order |
| `KeyCode.FloatCodeIs` | src/encoding/keycode.rs:147-156 | Bit flips map float bits to a number ordered as totalOrder in section 5.10 of IEEE 754-2008 |
| `KeyCode.FloatRoundTrip` | src/encoding/keycode.rs:419-427 | The bit flips of decoding undo those of encoding for every bit pattern |
| `KeyCodec.Serializer.constructor` | src/encoding/keycode.rs:53-57 | Starts with an empty buffer |
| `KeyCodec.Serializer.PutBytes` | src/encoding/keycode.rs:169-179 | The escaping loop appends exactly the encoding of a byte string |
| `KeyCodec.Serializer.Put` | src/encoding/keycode.rs:90-252 | Appends exactly the encoding of an item to the buffer |
| `KeyCodec.Serializer.PutAll` | src/encoding/keycode.rs:278-312 | Appends the items of a tuple or sequence one after another |
| `KeyCodec.Deserializer.constructor` | src/encoding/keycode.rs:324-326 | Starts with the whole input |
| `KeyCodec.Deserializer.TakeBytes` | src/encoding/keycode.rs:330-340 | Takes a number of bytes off the front, or fails without taking any |
| `KeyCodec.Deserializer.DecodeNextBytes` | src/encoding/keycode.rs:343-362 | The loop over escapes decodes exactly what the recursive decoder does, or fails without moving |
| `KeyCodec.Deserializer.Get` | src/encoding/keycode.rs:373-446 | Decodes one item and advances the slice past it |
| `KeyCodec.Deserializer.GetAll` | src/encoding/keycode.rs:477-492 | Decodes fields one after another |
| `KeyCodec.Deserializer.GetSeq` | src/encoding/keycode.rs:525-538 | The loop decodes exactly the sequence that makes up the rest of the input |
| `KeyCodec.Serialize` | src/encoding/keycode.rs:53-57 | Computes the encoding |
| `KeyCodec.DeserializeKey` | src/encoding/keycode.rs:60-70 | Accepts only if the whole input is used up |
| `MvccHistory.SnapshotReads` | src/storage/mvcc.rs:557-573 | In every run, at every moment, a get through any handle of a read-write transaction, begun or resumed, returns its own last write of the key, else what was committed when it began; after a rollback only the latter |
| `MvccHistory.ReadOnlyReads` | src/storage/mvcc.rs:393-421 | A read-only transaction reads through any handle, begun or resumed, then and at every later moment, what was committed when it began |
| `MvccHistory.ReaderReads` | src/storage/mvcc.rs:393-431 | The same of every read-only transaction, of now or as of a past version: resuming it never changes what it reads |
| `MvccHistory.ReaderBeginsIff` | src/storage/mvcc.rs:393-421 | In every reachable state: a read-only transaction begins if and only if it is of now or of a version that has begun, and else fails with just that error |
| `MvccHistory.ResumesIff` | src/storage/mvcc.rs:424-431 | In every reachable state: a transaction is resumed if and only if it is read-only or still active, and else fails with just that error |
| `MvccHistory.ReadersChangeNothing` | src/storage/mvcc.rs:465-523 | Writing, committing, rolling back and resuming through a read-only transaction leave the store and all other transactions alone, and writing fails as read-only |
| `MvccHistory.GetOwnOrBase` | src/storage/mvcc.rs:557-573 | In every state that satisfies the invariant, what a version reads, active or ended, is its own last write unless it was rolled back, else the store that was committed when it began |
| `MvccHistory.TimeTravel` | src/storage/mvcc.rs:393-421 | Reading as of a version, begun and used at any later moments, gives what that version's own transaction read at its start, whatever became of it |
| `MvccHistory.ConflictIffInvisible` | src/storage/mvcc.rs:520-545 | Under the invariant, looking only at the latest version in the scanned range finds a conflict if and only if some version of the key is invisible |
| `MvccHistory.ConflictCheckIsExact` | src/storage/mvcc.rs:520-554 | The same of every reachable state and every handle: a write fails if and only if some version of the key is invisible to the writer, and then with a serialization error |
| `MvccHistory.WritersDoNotOverlap` | src/storage/mvcc.rs:520-554 | Of two committed transactions that wrote the same key, the one with the lower version had committed before the other began |
| `MvccHistory.RollbackIsExact` | src/storage/mvcc.rs:483-504 | Rolling back through any handle removes the transaction's versions, write records and active entry, and nothing else |
| `MvccHistory.WriteRecordIffVersion` | src/storage/mvcc.rs:547-553 | An active transaction has a write record for a key if and only if it has a version of it |
| `MvccHistory.InvRun` | src/storage/mvcc.rs:367-504 | The invariant of the version history holds at every moment of every run, with several handles on a version and stale commits and rollbacks |
| `MvccHistory.WriteIsPrivateIff` | src/storage/mvcc.rs:520-554 | An accepted write changes no committed reading if and only if its version is still active or it writes what is committed anyway: exactly what a run has to exclude |
| `MvccHistory.StaleHandleBreaksSnapshot` | src/storage/mvcc.rs:424-431 | A schedule in which a handle resumed earlier writes after its version committed, and an active transaction reads that write although it began before it |
| `MvccHistory.EndedAlready` | src/storage/mvcc.rs:465-504 | Committing or rolling back a version that has ended changes nothing |
| `MvccKeys.VersionRange` | src/storage/mvcc.rs:531-545 | The encoded bounds of a key's versions contain exactly those versions among all kinds of stored keys |
| `MvccKeys.UserRange` | src/storage/mvcc.rs:577-589 | For every kind of bounds, the encoded bounds of a scan contain exactly all versions of the keys in range |
| `MvccKeys.ActivePrefixMeans` | src/storage/mvcc.rs:434-444 | The encoded prefix covers exactly the active-set keys |
| `MvccKeys.WritePrefixMeans` | src/storage/mvcc.rs:488-496 | The encoded prefix covers exactly the write records of one version |
| `MvccKeys.KeysPrefixMeans` | src/storage/mvcc.rs:592-599 | The encoded prefix without its last two bytes covers exactly the versions of keys with the prefix |
| `MvccKeys.VersionedOrder` | src/storage/mvcc.rs:195-201 | Stored versions sort by key and then by version |
| `MvccKeys.DecodeEncoded` | src/storage/mvcc.rs:195-201 | Decoding a stored key gives it back |
| `MvccKeys.DecodedIsEncoded` | src/storage/mvcc.rs:195-197 | Only encodings decode |
| `MvccEngine.MVCC.constructor` | src/storage/mvcc.rs:247-249 | Empty engine, empty store |
| `MvccEngine.MVCC.GetKey` | src/storage/mvcc.rs:199-201 | Engine access by encoded key reads the abstract store |
| `MvccEngine.MVCC.SetKey` | src/storage/mvcc.rs:199-201 | Engine access by encoded key changes one entry of the abstract store |
| `MvccEngine.MVCC.DeleteKey` | src/storage/mvcc.rs:199-201 | Engine access by encoded key removes one entry of the abstract store |
| `MvccEngine.MVCC.ScanActive` | src/storage/mvcc.rs:434-444 | The prefix scan returns exactly the active set |
| `MvccEngine.MVCC.NextVersion` | src/storage/mvcc.rs:371-374 | The next version, 1 in an empty store |
| `MvccEngine.MVCC.Begin` | src/storage/mvcc.rs:367-387 | Allocates a version, stores the active set as its snapshot, and joins it |
| `MvccEngine.MVCC.BeginReadOnly` | src/storage/mvcc.rs:393-421 | Snapshot of now, or of a past version; an unknown version is an error |
| `MvccEngine.MVCC.Resume` | src/storage/mvcc.rs:424-431 | As the transaction function says: the state that was given, or an error exactly if a read-write transaction is no longer active; what a resumed handle then reads is in SnapshotReads and ReaderReads |
| `MvccEngine.MVCC.ScanWrites` | src/storage/mvcc.rs:469-475 | Exactly the keys a version has write records for |
| `MvccEngine.MVCC.Commit` | src/storage/mvcc.rs:465-478 | Removes exactly the write records and the active entry |
| `MvccEngine.MVCC.Rollback` | src/storage/mvcc.rs:483-504 | Removes the versions named by the write records, the records and the active entry; nothing for a read-only transaction |
| `MvccEngine.MVCC.ScanVersions` | src/storage/mvcc.rs:531-545 | The engine scan lists exactly a key's versions in range, in order |
| `MvccEngine.MVCC.WriteVersion` | src/storage/mvcc.rs:520-554 | Fails as read-only or on a conflict without change; otherwise stores record and version |
| `MvccEngine.MVCC.HasConflict` | src/storage/mvcc.rs:531-545 | Decodes only the last scanned key, and decides visibility of the latest version |
| `MvccEngine.MVCC.Get` | src/storage/mvcc.rs:557-573 | The reverse scan returns the value of the latest visible version, or nothing for a tombstone |
| `MvccEngine.ScanRange` | src/storage/engine.rs:28-31 | Exactly the keys in range, in order |
| `MvccEngine.ScanPrefix` | src/storage/engine.rs:40-52 | Exactly the keys with the prefix, in order |
| `MvccScan.ScanAgreesWithGet` | src/storage/mvcc.rs:672-686 | Emitting a visible version when the next one is of another key lists exactly the wanted keys whose get is present, in key order, with that value |
| `MvccScan.ScanReads` | src/storage/mvcc.rs:577-599 | In every run, a scan through any handle of a read-write transaction returns exactly the wanted pairs of the store committed when it began overlaid with its own writes, in key order |
| `MvccScan.ReaderScans` | src/storage/mvcc.rs:577-599 | In every run, a scan through any handle of a read-only transaction returns exactly the wanted pairs of the store it is to see, in key order |
| `MvccScan.ScanIterator.constructor` | src/storage/mvcc.rs:667-669 | Starts with all visible versions ahead |
| `MvccScan.EndsMeet` | src/storage/mvcc.rs:655-707 | For every sequence of steps from both ends of one iterator, once they meet: the pairs from the front followed by those from the back in reverse are the forward result, if and only if no step from the front was taken in a state from which it runs into the back within the versions of a key |
| `MvccScan.RunsIntoIff` | src/storage/mvcc.rs:672-686 | From every state: the step from the front returns a key that was met from the back if and only if all items before the last are passed over and the last is a live version of that key |
| `MvccScan.MeetWithinKey` | src/storage/mvcc.rs:672-707 | For every key with two versions: steps that return it from both ends, with different values |
| `MvccScan.FrontMeans` | src/storage/mvcc.rs:672-686 | A step from the front returns the next pair of the forward result, unless it runs into what the back consumed within the versions of one key |
| `MvccScan.BackMeans` | src/storage/mvcc.rs:690-707 | A step from the back returns the last pair of the forward result so far, wherever the front is |
| `MvccScan.ScanIterator.Next` | src/storage/mvcc.rs:672-686 | The loop consumes exactly up to the next pair from the front, wherever the back is |
| `MvccScan.ScanIterator.NextBack` | src/storage/mvcc.rs:690-707 | The loop consumes exactly up to the next pair from the back, using the remembered key, wherever the front is |
| `MvccScan.ScanIterator.ToVec` | src/storage/mvcc.rs:649-651 | Collects the whole forward result |
| `MvccScan.ScanIterator.ToVecBack` | src/storage/mvcc.rs:718-720 | Collects exactly the reverse of the forward result |
| `MvccScan.VisibleItems` | src/storage/mvcc.rs:741-761 | Decodes the scanned keys and keeps exactly the visible versions |
| `MvccScan.ScanKeys` | src/storage/mvcc.rs:577-589 | Scans exactly the versions of the keys in range |
| `MvccScan.ScanKeysPrefix` | src/storage/mvcc.rs:592-599 | Scans exactly the versions of the keys with the prefix |
| `MvccScan.Scan` | src/storage/mvcc.rs:577-589 | For every kind of bounds: forwards exactly the in-range keys whose get is present, ordered; backwards the reverse of that |
| `MvccScan.ScanWithPrefix` | src/storage/mvcc.rs:592-599 | The same for every prefix |
| `BitCask.CrashRecovery` | src/storage/bitcask.rs:263-321 | Cutting a log at any byte and scanning it keeps exactly the longest prefix of whole entries: the file is cut there and the index finds what replaying them gives |
| `BitCask.ScanAny` | src/storage/bitcask.rs:263-321 | Scanning any bytes gives entries whose encoding is the part kept, an index that finds what they amount to, and stops only at the end or where no whole entry follows |
| `BitCask.ReadIsEntry` | src/storage/bitcask.rs:273-297 | Whatever a read finds in any file is the encoding of an entry, whichever negative number marks a tombstone |
| `BitCask.ReadWhole` | src/storage/bitcask.rs:273-297 | Scanning at a complete entry finds its key, position and length |
| `BitCask.ReadCut` | src/storage/bitcask.rs:273-316 | Scanning at an entry cut anywhere finds nothing |
| `BitCask.WholeExists` | src/storage/bitcask.rs:263-321 | Every cut of a log has a longest prefix of whole entries |
| `BitCask.WholeUnique` | src/storage/bitcask.rs:263-321 | It is unique |
| `BitCask.WholeOfAll` | src/storage/bitcask.rs:263-321 | A log that was not cut is kept whole |
| `BitCask.LiveAtMostFile` | src/storage/bitcask.rs:143-160 | The live size never exceeds the file size, for every log |
| `BitCask.Database.constructor` | src/storage/bitcask.rs:56-62 | Opening any file keeps whole entries up to where no whole one follows, and finds what they amount to; of any cut of a log these are its longest prefix of whole entries |
| `BitCask.Database.BuildKeydir` | src/storage/bitcask.rs:263-321 | The scanning loop computes the recovered index and cuts the file |
| `BitCask.Database.Get` | src/storage/bitcask.rs:117-123 | Agrees with the plain map |
| `BitCask.Database.WriteEntry` | src/storage/bitcask.rs:333-350 | Appends exactly one encoded entry and returns where it starts and its length |
| `BitCask.Database.Set` | src/storage/bitcask.rs:136-141 | The plain map gains the pair |
| `BitCask.Database.Delete` | src/storage/bitcask.rs:107-111 | The plain map loses the key |
| `BitCask.Database.Scan` | src/storage/bitcask.rs:125-127 | Exactly the pairs in range, in key order |
| `BitCask.Database.GetStatus` | src/storage/bitcask.rs:143-160 | Sizes as of the plain map; the subtraction for garbage never goes below zero |
| `BitCask.Database.SumSizes` | src/storage/bitcask.rs:143-150 | The sum over the index is the live size without headers |
| `BitCask.Database.Compact` | src/storage/bitcask.rs:192-202 | The plain map is unchanged, the file is exactly the live size, one entry per key in key order and no tombstones |
| `BitCask.Database.WriteLog` | src/storage/bitcask.rs:206-216 | The new file and index hold exactly the live pairs in key order |
| `BitCask.Database.LiveEntry` | src/storage/bitcask.rs:210-213 | The entry rewritten for a key is its current value |
| `SqlExpression.EqualMeans` | src/sql/types/expression.rs:76-90 | Comparing two values fails if and only if their types cannot be compared, is null if and only if one is, and is true if and only if they are equal: the same value, or numbers that are equal once integers are rounded beside a float |
| `SqlExpression.LogicMeans` | src/sql/types/expression.rs:50-74 | On the scale false, null, true: a conjunction is the least of its sides, a disjunction the greatest, negation turns the scale over, and anything else is an error |
| `SqlExpression.OperandsInOrder` | src/sql/types/expression.rs:92-258 | An operator that is left open gets its operands in order and fails if one of them fails |
| `SqlExpression.NnfKeeps` | src/sql/types/expression.rs:341-358 | Whatever an expression evaluates to without error, on any row, it evaluates to after pushing negations down |
| `SqlNormalForm.NnfMeans` | src/sql/types/expression.rs:341-358 | For every expression and row, pushing negations down gives exactly the value or error of an evaluator in which any value passes through exactly two negations in a row: the one way in which an error can become a value |
| `SqlNormalForm.CnfVecMeans` | src/sql/types/expression.rs:385-398 | The same exact meaning for the conjunction of the conjuncts that the optimizer works with |
| `SqlExpression.DistributeAllExact` | src/sql/types/expression.rs:363-382 | Distributing OR over AND keeps values and errors alike, on every row |
| `SqlExpression.JoinConjuncts` | src/sql/types/expression.rs:441-451 | Splitting into conjuncts and joining them again changes nothing, on any row |
| `SqlExpression.CnfVecKeeps` | src/sql/types/expression.rs:385-398 | Whenever an expression evaluates without error to a value, so does the conjunction of its conjuncts |
| `SqlExpression.PushNot` | src/sql/types/expression.rs:345-356 | The rewritten root has children smaller than the expression, so rewriting terminates |
| `SqlExpression.Distribute` | src/sql/types/expression.rs:366-379 | The rewritten root has children smaller than the expression, though the whole may have grown |
| `SqlExpression.IntoCnfVec` | src/sql/types/expression.rs:385-398 | The stack loop lists the conjuncts from left to right |
| `SqlExpression.FromCnfVec` | src/sql/types/expression.rs:441-451 | The loop joins the conjuncts, and gives nothing for none |
| `SqlNormalForm.NnfReachedIff` | src/sql/types/expression.rs:341-358 | The rewrite reaches negation normal form if and only if there are few enough negations in a row, a condition on the input alone |
| `SqlNormalForm.NnfNotAlwaysReached` | src/sql/types/expression.rs:341-358 | An expression for which it does not |
| `SqlNormalForm.CnfReachedIff` | src/sql/types/expression.rs:341-382 | The whole conversion reaches conjunctive normal form, with literals in negation normal form, if and only if the input has few enough negations in a row and, counting polarity, no AND below two ORs |
| `SqlNormalForm.CnfNotAlwaysReached` | src/sql/types/expression.rs:341-382 | For each of the two conditions an expression that violates it alone and is not converted |
| `SqlFold.FoldIsExact` | src/sql/plan/optimizer.rs:17-31 | Constant folding gives the same value and the same error on every row, and refuses an expression only if it fails on every row |
| `SqlFold.FoldIsComplete` | src/sql/plan/optimizer.rs:17-31 | Afterwards only constants are free of fields |
| `SqlFold.FoldedIsFixed` | src/sql/plan/optimizer.rs:17-31 | A folded expression folds to itself |
| `SqlFold.NoFieldNoRow` | src/sql/plan/optimizer.rs:21-23 | An expression without fields does not depend on the row |
| `SqlPlan.NestedLoopRows.constructor` | src/sql/execution/join.rs:65-82 | Everything of the join is still to come |
| `SqlPlan.NestedLoopRows.TryNextHit` | src/sql/execution/join.rs:111-132 | The first remaining match of a left row, or none, or the error of the first pair that has one, every pair before it having been passed over |
| `SqlPlan.NestedLoopRows.TryRow` | src/sql/execution/join.rs:87-106 | One turn of the loop: the next row due for the current left row, or on to the next left row with the same rows to come |
| `SqlPlan.NestedLoopRows.TryNext` | src/sql/execution/join.rs:85-108 | Returns exactly the next row of the join, outer rows included, ends exactly at its end, and fails exactly at the first failing pair that no row comes before |
| `SqlOptimize.OptimizeKeepsRows` | src/sql/plan/optimizer.rs:37-69 | Filter pushdown over a whole plan of scans, filters and inner joins with well-typed predicates leaves the sequence of rows unchanged, and neither plan has an error, if no lookup goes over from a float to an integer column that does not find every integer rounding like one of its values |
| `SqlOptimize.ExactPlan` | src/sql/plan/optimizer.rs:37-69 | That is so for every plan in whose predicates no integer constant rounds to the same float as another integer |
| `SqlOptimize.PushDownKeeps` | src/sql/plan/optimizer.rs:40-65 | Each single step keeps the rows and the types of a plan, under that condition on the join predicate |
| `SqlRounding.LookupJoinIff` | src/sql/plan/optimizer.rs:119-134 | For every lookup on a float field joined with an integer field, of either source, over all tables: pushdown keeps the rows if and only if every integer that rounds like a value of the lookup is found by it |
| `SqlRounding.RoundedJoinLoses` | src/sql/types/expression.rs:79-83 | For every two integers that round to the same float, a join of one row with one row that loses its row |
| `SqlOptimize.PartedClean` | src/sql/plan/optimizer.rs:98-136 | Every part that a well-typed join predicate is split into, transferred lookups included, is well-typed |
| `SqlOptimize.TypedNoErrors` | src/sql/plan/optimizer.rs:37-69 | A well-typed plan has no errors |
| `SqlPushdown.PushdownKeepsIff` | src/sql/plan/optimizer.rs:98-157 | For inner joins of any rows on which the predicate evaluates: splitting, shifting, transferring lookups and pushing into the sources leaves the sequence of rows unchanged if and only if no pair that joins fails a transferred lookup, given that the right source takes its part |
| `SqlPushdown.OuterKeepsIff` | src/sql/plan/optimizer.rs:54-63 | The code pushes down the predicate of an outer join in the same way: its rows stay the same if and only if every left row passes the left part, or the left source refuses it |
| `SqlPushdown.OuterFilterIff` | src/sql/plan/optimizer.rs:73-94 | A filter pushed into an outer join keeps its rows if and only if, for every left row, a match passes the filter, or there is no match and the padded row passes |
| `SqlPushdown.OuterLosesRow` | src/sql/plan/optimizer.rs:54-63 | An outer join that loses a row |
| `SqlPushdown.RefusedRightExact` | src/sql/plan/optimizer.rs:141-155 | When the right source refuses its part and no transferred lookup fails, the rows stay the same if and only if on every pair where the other parts pass, the shifted part means the same on the joined row as on the right row |
| `SqlPushdown.RefusedRightChangesRows` | src/sql/plan/optimizer.rs:141-155 | A join whose rows change that way |
| `SqlPushdown.RefusedIsJoinable` | src/sql/plan/optimizer.rs:141-155 | That join meets every other premise |
| `SqlPushdown.PushdownNoErrors` | src/sql/plan/optimizer.rs:98-157 | If the join had no errors and the pushed parts are clean where they now apply, the new join has none |
| `SqlPushdown.PairAccepted` | src/sql/plan/optimizer.rs:105-136 | A pair joins and passes the transferred lookups if and only if the left row passes the left part, the right row the shifted right part, and the joined row the rest |
| `SqlPushdown.PushFilters` | src/sql/plan/optimizer.rs:73-94 | Pushing into a scan, filter or inner join gives exactly its rows that pass, in order |
| `SqlPushdown.NoFloatsHeld` | src/sql/plan/optimizer.rs:119-134 | On rows without floats no transferred lookup fails |
| `SqlPushdown.ClosedIff` | src/sql/types/expression.rs:79-83 | A lookup carries over from floats to equal integers if and only if every integer that rounds like one of its values is found by it; from any other type of value it always carries over |
| `SqlPushdown.CarriedHolds` | src/sql/plan/optimizer.rs:119-134 | A row that passes the predicate passes every transferred lookup, in chains too, if each carries over from field to field |
| `SqlPushdown.LookupMeans` | src/sql/types/expression.rs:468-491 | A recognised lookup that evaluates is without error, its values can be compared with the field, and it passes a non-null field if and only if one of them is equal |
| `SqlPushdown.LookupIsMembership` | src/sql/types/expression.rs:468-491 | Where no floats are involved, a lookup passes if and only if the field is one of its values |
| `SqlPushdown.LookupRoundTrip` | src/sql/types/expression.rs:468-517 | Recognising a lookup that was built from values gives those values, in either order of comparison, and null for a null test |
| `SqlPushdown.FromLookupAccepts` | src/sql/types/expression.rs:494-517 | A lookup built from values that can be compared passes if and only if one is equal, and has no error |
| `SqlPushdown.EvalLeft` | src/sql/plan/optimizer.rs:108-112 | A conjunct over left fields reads only the left row |
| `SqlPushdown.EvalRight` | src/sql/plan/optimizer.rs:143-150 | A conjunct over right fields, shifted, means on the right row what it meant on the joined row |
| `SqlPushdown.Partition` | src/sql/plan/optimizer.rs:108-117 | Both lists keep exactly their conjuncts in order |
| `SqlPushdown.SplitConjuncts` | src/sql/plan/optimizer.rs:107-117 | The two partitions give the left, right and joint conjuncts |
| `SqlPushdown.TransferLookups` | src/sql/plan/optimizer.rs:122-134 | The loop transfers one lookup per equijoin, left to right first |
| `SqlPushdown.Pushdown` | src/sql/plan/optimizer.rs:98-157 | The whole in-place procedure computes the pushed-down sources and the remaining predicate |
| `SqlSchemas.SchemaSafeIff` | src/sql/schema.rs:98-111 | For an ordinary table: every operation that goes through, in every store with integrity, keeps it, if and only if no two indexed columns share a name and a possible value, every unique and every referring column is the first of its name, and no FLOAT column is the primary key or indexed |
| `SqlSchemas.SafeRun` | src/sql/engine/kv.rs:84-312 | Over every sequence of creating, dropping, inserting, deleting and updating that goes through, integrity is kept while tables have such schemas |
| `SqlSchemas.UnsafeBreaks` | src/sql/engine/kv.rs:137-190 | For every ordinary table without such a schema: rows that can be inserted and one more operation that goes through and ends integrity |
| `SqlSchemas.FloatKeyBreaks` | src/sql/engine/kv.rs:258-287 | For every table with a FLOAT key: changing the sign of a zero key goes through and leaves the row where reading does not find it |
| `SqlSchemas.FloatIndexBreaks` | src/sql/engine/kv.rs:267-283 | For every table with a FLOAT index: changing the sign of a zero goes through and leaves the index entry behind |
| `SqlSchemas.FailingRun` | src/sql/engine/kv.rs:84-312 | If that table refers to no other, this is a run from the empty store |
| `SqlSchemas.EachClauseMatters` | src/sql/schema.rs:98-111 | For each of the five clauses a table that creating accepts and that violates it alone |
| `SqlSchemas.RefusedUpdateBreaks` | src/sql/engine/kv.rs:258-287 | Every table with an index beside the key can lose integrity to an update that is refused |
| `SqlExact.CreateIff` | src/sql/engine/kv.rs:137-156 | With safe schemas: a row is created if and only if the table is there, the key is free, and the store with the row satisfies types, not-null, references and uniqueness |
| `SqlExact.CreateRows` | src/sql/engine/kv.rs:137-156 | A creation that goes through adds exactly the row, under its key |
| `SqlExact.RowValidIff` | src/sql/schema.rs:114-123 | With safe schemas: a row passes validation if and only if storing it satisfies those constraints |
| `SqlExact.DeleteIff` | src/sql/engine/kv.rs:158-190 | With safe schemas: a row is deleted if and only if the table is there and the store without the row satisfies the constraints |
| `SqlExact.DeleteNullIff` | src/sql/engine/kv.rs:158-178 | Deleting under NULL, where no row is, is refused if and only if a reference to the table is NULL |
| `SqlExact.BlocksIff` | src/sql/engine/kv.rs:160-177 | With safe schemas: what refuses a deletion is exactly a reference from another row that would be left dangling |
| `SqlExact.UpdateIff` | src/sql/engine/kv.rs:258-287 | With safe schemas: an update goes through if and only if the store without the old row and the store with the new one satisfy the constraints and the new key is free; with the same key only the latter has to, but in a table with an index the row has to be there |
| `SqlExact.UpdateRows` | src/sql/engine/kv.rs:258-287 | For all schemas: an update that goes through leaves exactly the other rows and, instead of the old row, the new one under its own key |
| `SqlExact.UpdateKeyIff` | src/sql/engine/kv.rs:260-265 | For all schemas: an update to another key goes through if and only if the old row can be deleted and the new one is valid, with a free key, in the store without it; refused after the deletion, it leaves the store without the old row |
| `SqlExact.ReplaceFails` | src/sql/engine/kv.rs:266-286 | For all schemas: a replacement that does not go through leaves the rows, and it panics if and only if the table has an index and the row is missing or too short |
| `SqlExact.TableIff` | src/sql/engine/kv.rs:291-297 | A table is created if and only if its name is free and the store with it is well-formed |
| `SqlExact.WantedIff` | src/sql/engine/kv.rs:299-306 | No other table refers to a table if and only if the store without it is well-formed |
| `SqlExact.DropIff` | src/sql/engine/kv.rs:299-312 | With safe schemas: a table is dropped if and only if it is there, the store without it is well-formed, and no row refers to another that comes before it in the scan |
| `SqlStore.Utf8Sizes` | src/sql/schema.rs:237-241 | The size of a text counts one byte for every character and one more from each of three codes on, so that ASCII text fits if and only if it has at most 1024 characters |
| `SqlOperations.CreateIntegrity` | src/sql/engine/kv.rs:137-156 | Creating a row keeps integrity under safe schemas, and stores exactly that row |
| `SqlOperations.DeleteIntegrity` | src/sql/engine/kv.rs:158-190 | Deleting a row keeps integrity under safe schemas, and removes exactly that row |
| `SqlOperations.UpdateIntegrity` | src/sql/engine/kv.rs:258-287 | For every update, on a condition known before the call: integrity is kept if and only if the table is missing, or the primary key changes, or the row is valid and, in a table with an index, there, or no indexed value would have changed |
| `SqlOperations.RefusedReplace` | src/sql/engine/kv.rs:266-286 | A refused or panicking replacement, rows of any length included, leaves the rows, and keeps integrity if and only if every indexed value is equal to the one stored, as the program compares them |
| `SqlOperations.ReplaceIsPut` | src/sql/engine/kv.rs:266-286 | A replacement goes through if and only if the row is valid and, in a table with an index, there; it then stores the row and moves the entries of values that are not equal |
| `SqlOperations.DropTableKeeps` | src/sql/engine/kv.rs:299-312 | Dropping a table keeps integrity even when it stops halfway, and leaves no row and no index entry of the table |
| `SqlOperations.DropTableIff` | src/sql/engine/kv.rs:299-312 | It goes through if and only if no other table refers to it and, when the turn of a row comes in the scan, no other row that is still there refers to it |
| `SqlOperations.ReferencedIff` | src/sql/engine/kv.rs:158-178 | While a table is dropped in order, the next row can be deleted if and only if no row that is left refers to it |
| `SqlStore.PutRowIntegrity` | src/sql/engine/kv.rs:137-156 | Storing a valid row keeps schemas, types, keys, not-null, uniqueness, references and every index entry exact, if the schema is safe |
| `SqlStore.PutKeeps` | src/sql/engine/kv.rs:137-156 | The same for any schema, if the row fits, refers to rows, clashes with none, and its index entries come out right |
| `SqlStore.ValidHasNoTwin` | src/sql/schema.rs:259-271 | Where the schema is safe, a row that passes the check for duplicates has no value equal to that of another row in a unique column |
| `SqlStore.ValidRefers` | src/sql/schema.rs:245-257 | Where the schema is safe, a row that passes the check of references refers to rows |
| `SqlStore.DropRowIntegrity` | src/sql/engine/kv.rs:158-190 | So does deleting a row that no other row refers to, if indexes under one name have no value in common |
| `SqlStore.AddTableIntegrity` | src/sql/engine/kv.rs:291-297 | Creating a valid table keeps integrity, whatever its column names |
| `SqlStore.DropTableIntegrity` | src/sql/engine/kv.rs:299-312 | Dropping an empty table that no other table refers to keeps integrity |
| `SqlStore.ReindexMeans` | src/sql/engine/kv.rs:267-283 | After the index loop, an entry lists an id exactly for the new value of each processed column, and other ids as before, if no column of the same name holds that value for the row alone and indexed values that are equal are the same |
| `SqlStore.AddedMeans` | src/sql/engine/kv.rs:149-155 | For any names: a new row's id is added to exactly the entries of its indexed values |
| `SqlStore.SaveEntryMeans` | src/sql/engine/kv.rs:104-117 | Saving an entry changes that entry and no other; an empty one is removed |
| `SqlStore.NoEntries` | src/sql/engine/kv.rs:104-117 | Every stored index entry belongs to a table with rows |
| `SqlTransaction.Transaction.constructor` | src/sql/engine/kv.rs:84-86 | An empty store has integrity |
| `SqlTransaction.Transaction.Taken` | src/sql/schema.rs:259-271 | Finds another row with an equal value exactly if there is one |
| `SqlTransaction.Transaction.ValidateValue` | src/sql/schema.rs:218-275 | Accepts exactly values of the right type, with at most 1024 bytes of text, that refer to a row, to what equals the own key, or to nothing because they are NULL or NaN, and that equal no value of another row, in the first column of the name, if unique |
| `SqlTransaction.Transaction.ValidateRow` | src/sql/schema.rs:114-123 | Accepts exactly rows of the right length whose values are all valid |
| `SqlTransaction.Transaction.Create` | src/sql/engine/kv.rs:137-156 | Succeeds exactly for an existing table, a valid row and a free primary key; computes the new store; keeps integrity under safe schemas; on error changes nothing |
| `SqlTransaction.Transaction.AddToIndexes` | src/sql/engine/kv.rs:149-155 | Adds the id under each indexed value |
| `SqlTransaction.Transaction.RemoveFromIndexes` | src/sql/engine/kv.rs:179-188 | Removes the id under each indexed value |
| `SqlTransaction.Transaction.MoveInIndexes` | src/sql/engine/kv.rs:267-283 | Moves the id from each value to the new one where they are not equal, up to the first indexed column that the new row lacks |
| `SqlTransaction.Transaction.Referenced` | src/sql/engine/kv.rs:160-177 | Finds another row that the program takes to refer to the row, by equality and in the first column of the name, exactly if there is one |
| `SqlTransaction.Transaction.Delete` | src/sql/engine/kv.rs:158-190 | Succeeds exactly if the table exists and no such row is found; computes the new store; keeps integrity under safe schemas; on error changes nothing |
| `SqlTransaction.Transaction.Update` | src/sql/engine/kv.rs:258-287 | Computes the new store and whether it is done, refused or panics, for rows of any length; keys that are equal count as the same; when it is done, the rows are exactly the others and the new one under its key; integrity is kept exactly under the condition of UpdateIntegrity |
| `SqlTransaction.Transaction.Replace` | src/sql/engine/kv.rs:266-286 | The same for an equal primary key; when it is not done, rows stay and integrity is kept if and only if no indexed value would have changed |
| `SqlTransaction.Transaction.CreateTable` | src/sql/engine/kv.rs:291-297 | Succeeds exactly for a new name and a valid schema, whatever the column names; keeps integrity; on error changes nothing |
| `SqlTransaction.Transaction.DeleteTable` | src/sql/engine/kv.rs:299-312 | Succeeds exactly if no other table refers to it and, when the turn of a row comes in the scan, no other row that is still there; keeps integrity under safe schemas even when it stops halfway |
| `SqlTransaction.Transaction.DeleteEach` | src/sql/engine/kv.rs:307-310 | The loop deletes the rows in order until one is refused |

## Left out

- Sockets, threads, the REPL, configuration, the client and the server loop: no logic of their own; the routing loop only supports the assumption that a step is atomic and links deliver in order.
- Election timing and progress under fairness: timers fire at any time. It is proved that progress is always possible (`NeverStuck`), not that it happens within some time.
- RaftLiveness.NeverStuck: for in-order links and state machines that never fail with an internal error, which halts a node of the program, too.
- RaftLiveness.ReadsAnywhere: the same.
- RaftRecovery.CanElect: the same, for more than one node; a lone node elects itself when it starts.
- RaftNeverStuck.CanSettle: the same.
- RaftHalts.HaltsIff: for in-order links and state machines that never fail with an internal error.
- RaftHalts.NeverHalts: the same.
- RaftLife.LifeConservation: for requests whose id is not that of one that is being forwarded; the program keeps forwarded ids in a set, so that two of the same id become one.
- RaftLife.LifeBalance: the same.
- RaftClients.AcknowledgedWrite: for in-order links, as the commit theorems it rests on.
- Numeric limits of terms, indexes, node counts and read numbers: they are unbounded; only the version counter, key lengths and file lengths have explicit limits.
- Consistency assertions that a role makes of itself (src/raft/node/follower.rs:57-63, candidate.rs:37-44, leader.rs:96): not modelled. They are checked in all builds, except that the vote in the log is compared only in debug builds.
- Order in which a leader aborts pending writes: the program iterates a hash map; the model goes by index.
- Peers of a node: a set in the program, a list without duplicates here, so the order of sending is fixed.
- Vote of a follower: kept in memory and in the log by the program, kept once here.
- Status requests of Raft: answered with the commit and applied index only.
- RaftFresh.FreshRead: for leaders that have committed in their term, which the code does not wait for; a leader that has not may still answer a read from a state that is recent enough, so the condition is sufficient, and `StaleRead` shows that it cannot be dropped.
- Pipelined fsync and partial writes of the Raft log: a durable write is atomic.
- Raw engine keys of the Raft log: the log sits on a map by index; key encoding is proved separately.
- MvccHistory.SnapshotReads: for runs, in which no handle writes after its version ended; `WriteIsPrivateIff` shows that this excludes just the writes that do harm, and `StaleHandleBreaksSnapshot` that they do.
- MvccHistory.ReadOnlyReads: for the same runs.
- MvccHistory.TimeTravel: for the same runs.
- MvccHistory.ConflictCheckIsExact: for the same runs.
- MvccHistory.WritersDoNotOverlap: for the same runs.
- MvccHistory.RollbackIsExact: for the same runs.
- MvccHistory.WriteRecordIffVersion: for the same runs.
- MvccHistory.InvRun: for the same runs.
- MvccEngine.MVCC.Begin: requires that the version counter has not reached its limit, where the program would overflow.
- Unversioned keys and the status of MVCC: reads and writes of single keys.
- Value encoding (bincode): an outside library; stored values are abstract.
- BitCask.Database.constructor: a file with an entry of 2^32 bytes or more, which the program does not write, is opened, but the other methods require smaller entries.
- BitCask.Database.WriteEntry: requires values below 2^31 bytes and entries below 2^32, beyond which the length fields of the file wrap.
- BitCask.Database.Set: requires the same of the pair.
- BitCask.Database.Delete: requires the same of the key.
- File locking, flushing and the rename of compaction: a durable byte sequence that is replaced at once.
- Compaction on opening: only the choice of when to compact.
- The in-memory engine: an ordered map.
- Float arithmetic, ordering, LIKE and regular expressions: arbitrary functions.
- Disjunctive normal form: the mirror image of the conjunctive one, and unused by pushdown.
- Lookup replacement, noop cleaning and join type selection: not modelled, and no equivalence is claimed of them.
- Hash join: not modelled; it keeps one right row per key (src/sql/execution/join.rs:169-177), and no equivalence with the nested loop is claimed.
- Planner scopes, parsing, printing, aggregation, ordering and sessions: no shared invariants with the above.
- SqlSchemas.SchemaSafeIff: the half that unsafe schemas do harm is for tables in which a referring primary key is the first of its name, and a unique column that refers to its own table is nullable and the first of its name; otherwise values can be forced (a unique non-null reference to the own table is always to the row itself), so that shared names can be harmless. The other half, `SafeRun`, is for all tables.
- SqlExact.DeleteIff: not under NULL, for which `DeleteNullIff` says when it is refused.
- SqlExact.UpdateIff: not of a row under NULL, where none is.
- SqlTransaction.Transaction.DeleteTable: takes the order of the scan as a parameter.
- SqlTransaction.Transaction.RemoveFromIndexes: compares ids by their bits, where the program has a hash set that hashes by bits and compares with ==, so that an id that is NaN is not found in it; this concerns tables with a FLOAT key and an index, whose schema is not safe.
- SqlOperations.RefusedReplace: for rows without an indexed NaN, as all rows are under a safe schema.
- Row and index keys of the SQL engine, and serialization conflicts of the transaction below: rows, tables and index entries are maps.
- RaftLog.Log.constructor: requires the stored entries to be numbered from 1 without gaps, as every method leaves them.
- SqlOptimize.OptimizeKeepsRows: for predicates that are well-typed over the columns, so that no row makes them fail, and for nodes that are scans, filters and inner joins.
