# MaelstromDB in Dafny

This project models the Raft core of MaelstromDB, a replicated key-value store written in C++,
and proves what its parts promise. `dafny verify dfyconfig.toml` checks everything.

## What is modelled

**The protocol.** `NodeSpec` gives one server as a value and each handler of the consensus
module as a function. `Cluster` puts any number of servers on a network and makes every handler
one step; requests and replies may be delayed, reordered, lost or answered late, and any server
may stop at any time. `Invariants` states what holds in every reachable state, the `*Proofs`
modules and `Steps` show that every step keeps it, and `Theorems` says what follows for whole
runs. History fields of the state (ballots, counted votes, elected leaders with the log they
brought, accepted prefixes) exist for the proofs only; no step reads them except to enforce the
assumptions below. The reference is Ongaro and Ousterhout, "In Search of an Understandable
Consensus Algorithm (Extended Version)", sections 5.2 to 5.4, and section 6.4.1 of Ongaro's
thesis for leases. The code departs from both, so the invariants are its own: for example, a
server that steps down clears its vote even inside a term.

**The classes.** `ConsensusModule`, `SessionCache`, `StateMachine`, `ClusterConfiguration` and
`PagedLog` keep the form of the source: objects whose methods update their state in place, with
the source's loops. Each method is proved against a function or an abstract value.

## What the protocol model assumes of the environment

Each assumption is a guard of a step in `Cluster`, needed because of the lines named.

- Handlers are atomic. The server loop is single threaded, the timer strand and the client
  threads are not (`src/raft/raft_server.cpp:55-91`).
- Membership is fixed and stable, and every server is a member. The election counts addresses of
  the union of both configurations (`src/raft/consensus_module.cpp:455`), and a stable quorum
  counts votes of non-members (`src/raft/cluster_configuration.cpp:105`).
- A reply arrives at most once, and only while its receiver is still in the term of the request:
  the reply handlers compare terms with the request, not always with the current term
  (`src/raft/consensus_module.cpp:446-452`, `552-555`).
- A heartbeat round starts when each call of the previous round was answered or given up, because
  the reply handler adds to the current next index (`src/raft/consensus_module.cpp:559-573`). A
  call that was given up may still reach the follower.
- A server is promoted at most once in a run, because next and match indices are set at start-up
  only (`src/raft/consensus_module.cpp:48-54`, `254-268`).
- Failures are crash-stop, and an exception inside a handler stops the server. The end of a lease
  counts as a stop, because its callback is bound to the start-up term
  (`src/raft/consensus_module.cpp:64-67`).
- All servers read one clock, and a timer never fires early. One random draw per handler stands
  for all draws of that handler.

## What turned out false, and exactly when it holds

- A truncation leaves the open page in the map if and only if the index lies beyond the start of that
  page (or beyond the log): otherwise the new open page is removed from the map again.
  `PagedLog.PersistedLog.TruncateSuffix` states both directions.
- Appended entries can be read back if and only if the first of them goes to a listed page. Where the
  open page is listed, it does unless it is larger than a whole file and the page is empty; where
  a truncation has unlisted the open page, it does only if it is larger than a whole file.
  `PagedLog.PersistedLog.WriteEntry` and `PersistLogEntries` state both directions. The protocol
  theorems speak of the log as a sequence, which the paged log implements up to such an append.
- A directory that a restore has read mirrors the pages again if and only if there was no closed
  page, because making a closed page creates an open file (`Restore.MirroredAgainIff`). Otherwise a
  second restore misses the entries of the open page (`Restore.RestoreAgain`).
- The offset that the reader computes is where the entry starts if and only if the entry is shorter
  than 128 bytes, because its length is taken for one byte (`Offsets.OffsetReadIff`). Cutting the
  file there is right all the same (`Offsets.CutReadKeeps`).
- The entries that a truncation leaves on a page stay in its file if and only if there are none,
  because the offsets of written entries leave out their lengths (`Offsets.CutWrittenIff`).
- An append request can raise an exception on a server that has led: a leader does not apply its own
  no-op, so that it counts fewer entries as applied than it has and applies some of them again.
  `DuplicateSessions.DuplicateFaultIff` says exactly when that meets a session in use.
- The configuration index agrees with the log after a truncation if and only if the first removed
  entry is not a configuration (`ClusterConfiguration.TruncateAgreesIff`).
- A stable quorum does not always meet a joint one: `QuorumSpec.OutsidersMiss` gives a case, and
  `QuorumSpec.MeetsEveryJointIff` says which vote sets do. Repeated addresses, on the other hand,
  do no harm.

`Counterexamples` gives an input for those of these that have no such lemma beside them.

## Model

| member | source | states |
|---|---|---|
| Theorems.ElectionSafety | src/raft/consensus_module.cpp:410-459 | over a whole run, a term never has two different leaders, although stepping down clears the vote inside a term |
| Theorems.VotesAreVoters | src/raft/consensus_module.cpp:441-459 | a candidate's vote counter is the number of distinct members whose vote it has counted, and each of them cast its first vote of the term for this candidate unless the term has been won without that vote |
| Theorems.LogMatching | src/raft/consensus_module.cpp:487-513 | two logs, even of different moments of a run, that agree on the term at an index agree on every entry up to it |
| Theorems.CommittedReachLeaders | src/raft/consensus_module.cpp:328-351 | leader completeness: what any server has committed is in the log of every leader of its term or a later one, from then on |
| Theorems.StateMachineSafety | src/raft/consensus_module.cpp:464-535 | no two servers, at any two moments, have committed different entries at an index |
| Theorems.CommitsAreForever | src/raft/consensus_module.cpp:502-519 | terms and commit indices never decrease and committed entries are never truncated or replaced |
| Theorems.MatchIndexSound | src/raft/consensus_module.cpp:559-573 | a peer still in the leader's term agrees with the leader up to the match index, and next is match plus one |
| Theorems.LateRequestNeverShortens | src/raft/consensus_module.cpp:493-513 | once a peer has taken any entry from the leader of its term, every request of that leader still in flight, in whatever order it arrives, leaves everything the peer holds |
| Theorems.LateRequestHarmless | src/raft/consensus_module.cpp:493-513 | a request all of whose entries the peer has already accepted in this term leaves the log exactly as it is |
| Theorems.LeaderReadsInRange | src/raft/consensus_module.cpp:179-192 | every log position a leader reads for heartbeats and for its commit loop exists |
| Theorems.AppendReadsInRange | src/raft/consensus_module.cpp:486-535 | no request in flight makes its receiver read outside its log; the only exception possible is a duplicate session id, and only on a server that has led |
| DuplicateSessions.DuplicateIff | src/raft/session_cache.cpp:42-50 | applying entries raises the duplicate exception if and only if one of them opens a session under an index that is live and is not evicted by the sessions opened before it |
| DuplicateSessions.DuplicateFaultIff | src/raft/consensus_module.cpp:516-534 | an append request raises it, on any server, if and only if it applies such an entry, counted from the old commit index |
| DuplicateSessions.DuplicateHappens | src/raft/consensus_module.cpp:522-534 | a leader whose client thread has opened a session meets it again when it follows the next leader |
| Theorems.TruncationSparesCommitted | src/raft/consensus_module.cpp:496-507 | whatever a request in flight truncates lies strictly above its receiver's commit index |
| Theorems.CommitInsideLog | src/raft/consensus_module.cpp:516-519 | every server's commit index is inside its log, so the clamp to the log's size never takes effect |
| Theorems.LeaseExclusive | src/raft/consensus_module.cpp:558-570 | at most one server holds an unexpired lease, and until its deadline no server leads a later term, also when the holder has crashed meanwhile; a holder that steps down has given its lease up |
| Theorems.FollowerReplay | src/raft/consensus_module.cpp:516-535 | a server that has never led has applied exactly its committed entries: its store is the fold of their data commands |
| Theorems.EqualReplicas | src/raft/state_machine.cpp:17-39 | two servers that have never led and have the same commit index have the same state machine |
| Safety.InitKeeps | src/raft/consensus_module.cpp:8-89 | every starting state satisfies the invariants, with or without a bootstrap leader of term 0 that has appended its no-op, its configuration or anything else of term 0 |
| Safety.NextKeeps | src/raft/consensus_module.cpp:115-588 | every step of the cluster keeps all invariants |
| Safety.RunKeeps | src/raft/consensus_module.cpp:115-588 | the invariants hold in every state of every run |
| Safety.RunPermanent | src/raft/consensus_module.cpp:502-519 | along every run recorded leaders stay, leader logs only grow by entries of their own term, and each server's committed prefix stays |
| Safety.LedHaveLed | src/raft/consensus_module.cpp:254-268 | a server is recorded as having led only if it was a leader in some state of the run |
| ElectionProofs.TermIsNew | src/raft/consensus_module.cpp:451-459 | a candidate whose counted votes are a majority wins a term that has no leader yet |
| LogLemmas.LeaderCompleteness | src/raft/consensus_module.cpp:415-426 | entries accepted by a majority in the term that wrote them are in the log of every later leader, by induction over terms from the vote's log comparison and quorum overlap |
| LogLemmas.LogsMatch | src/raft/consensus_module.cpp:487-513 | logs that copy leader logs agree up to any index at which their terms agree |
| ReplicationProofs.LeaderCommitSafe | src/raft/consensus_module.cpp:333-351 | an index found by the leader's commit loop is held by a majority that accepted it in the leader's own term |
| ReplicationProofs.FollowerCommitSafe | src/raft/consensus_module.cpp:516-519 | a follower's new commit index covers only committed entries |
| LeaseProofs.NoLaterLeader | src/raft/consensus_module.cpp:403-408 | while a lease is unexpired no later term has been won, whether its holder still runs or has crashed |
| LeaseProofs.OneLease | src/raft/consensus_module.cpp:558-570 | two unexpired leases belong to the same server |
| ReplayProofs.ReplayState | src/raft/consensus_module.cpp:522-534 | replaying a log one index low opens only sessions with ids below the next index and folds the data commands of the log into the store |
| ReplayProofs.ReplayFresh | src/raft/consensus_module.cpp:532-534 | the next entry of a replay never meets a session id in use, whatever the entry is |
| ReplayProofs.ReplayContinues | src/raft/consensus_module.cpp:532-534 | applying the backlog after a replayed prefix is replaying the longer prefix |
| Quorum.MajoritiesMeet | src/raft/consensus_module.cpp:455 | two majorities of the members share a server |
| NodeSpec.CommitTarget | src/raft/consensus_module.cpp:333-347 | the greatest index above the commit index with an entry of the current term that a majority holds, or the commit index when there is none |
| MachineSpec.FindColon | src/raft/state_machine.cpp:28-30 | the first colon of a command, or -1 when there is none |
| MachineSpec.CommandSplits | src/raft/state_machine.cpp:27-31 | a command is its key, the first colon and its value; without a colon it is its own key and value |
| ConsensusModule.ConsensusModule.constructor | src/raft/consensus_module.cpp:8-68 | a new server is a starting server of the protocol model, apart from the term and vote it restores |
| ConsensusModule.ConsensusModule.ElectionCallback | src/raft/consensus_module.cpp:115-166 | does the protocol model's election step and says exactly when vote requests go out; a server outside its committed configuration only rearms its timer |
| ConsensusModule.ConsensusModule.ProcessRequestVoteClientRequest | src/raft/consensus_module.cpp:395-435 | does the protocol model's vote step, with the same reply, also when the server is down |
| ConsensusModule.ConsensusModule.ProcessRequestVoteServerResponse | src/raft/consensus_module.cpp:437-462 | does the protocol model's step for a vote's reply |
| ConsensusModule.ConsensusModule.CountMatches | src/raft/consensus_module.cpp:335-340 | the loop over peers collects exactly the servers whose match index has reached the entry, and the server itself |
| ConsensusModule.ConsensusModule.FindTarget | src/raft/consensus_module.cpp:332-347 | the loop over the log ends at the greatest committable index |
| ConsensusModule.ConsensusModule.UpdateCommitIndex | src/raft/consensus_module.cpp:328-363 | sets the commit index to that target, and fails only when a read would be outside the log |
| ConsensusModule.ConsensusModule.MergeEntries | src/raft/consensus_module.cpp:493-513 | the compare, truncate and append loop computes the merge of log and request |
| ConsensusModule.ConsensusModule.ReadBacklog | src/raft/consensus_module.cpp:522-528 | reads exactly the entries between the last applied and the commit index, and fails exactly when one of them is outside the log |
| ConsensusModule.ConsensusModule.ApplyEntries | src/raft/consensus_module.cpp:532-534 | applies the entries in order under consecutive indices and stops at the first exception |
| ConsensusModule.ConsensusModule.CommitAndApply | src/raft/consensus_module.cpp:516-535 | does the protocol model's commit step, with the same exceptions |
| ConsensusModule.ConsensusModule.ProcessAppendEntriesClientRequest | src/raft/consensus_module.cpp:464-546 | does the protocol model's append step: same state, reply and exception for every request |
| ConsensusModule.ConsensusModule.RecordSuccess | src/raft/consensus_module.cpp:559-580 | a success renews the lease, advances next and match by the entries sent and then commits |
| ConsensusModule.ConsensusModule.ProcessAppendEntriesServerResponse | src/raft/consensus_module.cpp:548-588 | does the protocol model's step for an append's reply |
| ConsensusModule.ConsensusModule.BuildRequests | src/raft/consensus_module.cpp:179-201 | builds one request per peer from its next index, and fails exactly when a read is outside the log |
| ConsensusModule.ConsensusModule.HeartbeatCallback | src/raft/consensus_module.cpp:168-208 | does the protocol model's heartbeat step and sends exactly its requests |
| ConsensusModule.ConsensusModule.AppendForClient | src/raft/consensus_module.cpp:729-743 | a leader appends the entry and hands out its index, any other server refuses |
| ConsensusModule.ConsensusModule.CompleteRegisterClient | src/raft/consensus_module.cpp:712-723 | opens the session under the entry's index, or only counts the entry when the term has changed |
| ConsensusModule.ConsensusModule.CompleteClientRequest | src/raft/consensus_module.cpp:749-770 | completes a write as the client path says, or only counts the entry when the term has changed |
| StateMachine.StateMachine.ApplyCommand | src/raft/state_machine.cpp:17-39 | opens a session, writes the key and value around the first colon, or does nothing, and counts the entry unless the session id is in use |
| StateMachine.StateMachine.CompleteWrite | src/raft/consensus_module.cpp:756-770 | an expired session and a cached reply suppress the write; otherwise it is applied and its reply cached |
| ClientPath.AtMostOnce | src/raft/consensus_module.cpp:738-770 | after a write was applied, every later request of the tenure with the same client and sequence number leaves the store alone and gets the first reply or an expired session |
| ClientPath.FirstTimeApplies | src/raft/consensus_module.cpp:766-770 | an applied write was not applied before, is remembered, and changes the store at its key only |
| ClientPath.EvictedStaysOut | src/raft/session_cache.cpp:118-128 | an evicted client id is never live again in the tenure |
| ClientPath.OpeningSucceeds | src/raft/consensus_module.cpp:702-719 | a session id is a fresh log index, so opening a session never meets one in use |
| ClientPath.RunKeeps | src/raft/consensus_module.cpp:691-771 | in every state of a tenure waiting sessions are unused ids and applied writes of live sessions are still cached |
| SessionCache.ClientRequestLRUCache.constructor | src/raft/session_cache.cpp:33-40 | an empty list between two linked sentinels shows the empty cache |
| SessionCache.ClientRequestLRUCache.CreateNode | src/raft/session_cache.cpp:42-50 | opens a session at the head and evicts the last one when over capacity; fails exactly when the id is in use |
| SessionCache.ClientRequestLRUCache.NodeValue | src/raft/session_cache.cpp:52-72 | returns the cached reply and moves its session to the head; fails exactly when session or sequence number is missing |
| SessionCache.ClientRequestLRUCache.UpdateNode | src/raft/session_cache.cpp:74-92 | caches the reply and moves the session to the head; fails exactly when the session is missing |
| SessionCache.ClientRequestLRUCache.NodeExists | src/raft/session_cache.cpp:94-97 | whether the session is live, without touching it |
| SessionCache.ClientRequestLRUCache.PushHead | src/raft/session_cache.cpp:99-116 | links the node behind the head sentinel, keeps the list and the map exact, and evicts when over capacity |
| SessionCache.ClientRequestLRUCache.EraseTail | src/raft/session_cache.cpp:118-128 | unlinks the node before the tail sentinel and removes exactly its id from the map |
| SessionCache.ClientRequestLRUCache.Unlink | src/raft/session_cache.cpp:63-68 | takes a node out of the middle and leaves a proper list of all others in their order |
| SessionCache.ClientRequestLRUCache.ViewValid | src/raft/session_cache.cpp:33-128 | between calls the cache has distinct sessions, exactly the mapped ones, and no more than its capacity |
| SessionHistory.CacheIsLru | src/raft/session_cache.cpp:42-128 | after any calls the cache is within capacity and ordered by the last touch of each session |
| SessionHistory.EvictsLeastRecent | src/raft/session_cache.cpp:99-128 | a cache that is full loses exactly the session whose last touch is the earliest, which is the new one when the capacity is not positive; a cache with room loses none |
| QuorumSpec.CountIsSize | src/raft/cluster_configuration.cpp:91-100 | without repeated addresses the counting loop computes the size of an intersection |
| QuorumSpec.JointMeetsJoint | src/raft/cluster_configuration.cpp:87-107 | two vote sets accepted by the same joint configuration share a server |
| QuorumSpec.JointMeetsOld | src/raft/cluster_configuration.cpp:87-107 | a joint quorum shares a server with every stable quorum of members of the old configuration |
| QuorumSpec.JointMeetsNew | src/raft/cluster_configuration.cpp:87-107 | a joint quorum shares a server with every stable quorum of members of the new configuration |
| QuorumSpec.MeetsEveryJointIff | src/raft/cluster_configuration.cpp:87-107 | a vote set meets every joint quorum if and only if it holds at least half of one of the two lists |
| QuorumSpec.OutsidersMiss | src/raft/cluster_configuration.cpp:105 | a stable quorum that counts a server outside the configuration can miss a joint quorum |
| ClusterConfiguration.ClusterConfiguration.SetConfiguration | src/raft/cluster_configuration.cpp:21-38 | the state is joint exactly when there is a next configuration, and the addresses are the union of both |
| ClusterConfiguration.ClusterConfiguration.InsertNewConfiguration | src/raft/cluster_configuration.cpp:52-58 | records a configuration without overwriting one, and the current one is again that of the greatest index |
| ClusterConfiguration.ClusterConfiguration.TruncateSuffix | src/raft/cluster_configuration.cpp:79-85 | keeps the configurations up to and including the index and falls back to the last of them; reports exactly when none is left, where the source reads an empty map |
| ClusterConfiguration.ClusterConfiguration.CheckQuorum | src/raft/cluster_configuration.cpp:87-107 | the counting loops accept exactly the vote sets that have both majorities, or the size of one |
| ClusterConfiguration.AppendAgrees | src/raft/consensus_module.cpp:287-306 | appending keeps the configuration index in agreement with the log |
| ClusterConfiguration.TruncateAgreesIff | src/raft/cluster_configuration.cpp:79-85 | truncating keeps that agreement if and only if the first removed entry is not a configuration |
| PagedLog.Page.WriteLogEntry | src/raft/storage.cpp:77-86 | the page has one more record, at the byte offset reached so far; a page that ended the log ends it again |
| PagedLog.Page.TruncateSuffix | src/raft/storage.cpp:88-107 | the page holds the log up to the index, its byte count is the offset of the first record removed and that of the records left, and never grows |
| PagedLog.PersistedLog.constructor | src/raft/storage.cpp:118-139 | an empty log with one open page, whose file is the whole directory |
| PagedLog.PersistedLog.LogEntry | src/raft/storage.cpp:176-187 | the entry at an index of the sequence, an exception exactly outside it |
| PagedLog.PersistedLog.Entries | src/raft/storage.cpp:189-223 | exactly the slice, across any number of pages, an exception exactly for an invalid slice; the loop ends |
| PagedLog.PersistedLog.ReadPage | src/raft/storage.cpp:197-215 | one round continues the slice although the start cursor was overwritten by an offset into a page |
| PagedLog.PersistedLog.CreateOpenFile | src/raft/storage.cpp:429-434 | closes the open page and its file and opens an empty page at the end of the log, which is listed only if its key is new; every other page stays as it is |
| PagedLog.PersistedLog.ClosePage | src/raft/storage.cpp:56-71 | renames the file of a page that holds something, removes that of an empty one |
| PagedLog.PersistedLog.Rotate | src/raft/storage.cpp:429-434 | a new page at the end of a log whose listed pages all hold something is listed; in place of a listed empty page it is not; an entry that was missed stays missed |
| PagedLog.PersistedLog.WriteEntry | src/raft/storage.cpp:367-384 | the sequence grows by the entry, in every state of the log; where the open page is listed the log stays readable if and only if the entry is not larger than a whole file on an empty page, where a truncation has unlisted it if and only if the entry is larger than a whole file; otherwise the entry is missed; the directory mirrors the pages and no remaining space is negative |
| PagedLog.PersistedLog.PersistLogEntries | src/raft/storage.cpp:362-388 | the sequence grows by the entries; the log stays readable under that condition on the first of them, and is then ready for appends; otherwise the first is missed, and whatever was missed before still is; the directory mirrors the pages, and remaining space is never negative when every entry fits a file |
| PagedLog.PersistedLog.Append | src/raft/storage.cpp:240-245 | appends one entry and returns its index; it can be read back under the same exact condition |
| PagedLog.PersistedLog.AppendAll | src/raft/storage.cpp:247-252 | appends the entries and returns the range they occupy; they can be read back under the same exact condition |
| PagedLog.PersistedLog.TruncatePages | src/raft/storage.cpp:277-294 | the loop deletes whole pages and cuts one, ends, leaves exactly the entries below the index readable and the open page unlisted, and makes no remaining space negative |
| PagedLog.PersistedLog.TruncateSuffix | src/raft/storage.cpp:254-295 | exactly the entries below the index are left and read as before, for any index; the open page stays listed if and only if it was and the index is beyond the log or the start of the page; every page still counts its bytes correctly and no remaining space is negative |
| PagedLog.PersistedLog.MissesUnreadable | src/raft/storage.cpp:176-187 | a log that misses an entry cannot be read like its sequence |
| PagedLog.PersistedLog.AddOpenPage | src/raft/storage.cpp:328-335 | a page read from an open file is the listed open page if only closed pages were listed; where the map already holds a page at the end of the log its entries are missed |
| Filenames.ParsedClosedName | src/raft/storage.cpp:338-339 | parsing the prefix of a closed file's name gives back the start index it was formatted from |
| Filenames.ClosedNamesSort | src/raft/storage.cpp:109-116 | closed file names sort as their start indices do |
| Filenames.KindsSort | src/raft/storage.cpp:311-334 | closed files sort before metadata files and those before the open file, and each kind is recognised as itself |
| Restore.ListingIs | src/raft/storage.cpp:316-320 | the sorted listing of the directory is the closed pages in order, then metadata, then the open files |
| Offsets.LoadLogEntries | src/raft/storage.cpp:390-405 | the records read from a file hold its entries in order, each at the offset computed from the bytes read so far |
| Offsets.OffsetReadIff | src/raft/storage.cpp:397-400 | the offset computed for an entry is where it starts in the file if and only if the entry is shorter than 128 bytes |
| Offsets.CutWrittenIff | src/raft/storage.cpp:77-93 | a file cut at an offset that the writer counted still holds all entries before that offset if and only if there are none; it never holds more |
| Offsets.CutReadKeeps | src/raft/storage.cpp:88-93 | a file cut at an offset that the reader computed holds exactly the entries before it |
| Restore.RestoreFile | src/raft/storage.cpp:320-348 | one round of the loop restores the next closed page and creates an open file for it, skips metadata, or restores a page from an open file |
| Restore.RestoreState | src/raft/storage.cpp:316-349 | where there is one open file, the loop restores every page at its place, with no bytes counted on the open page, and the directory gains exactly an open file for each closed page; where an earlier restore has left open files, the entries of the open page are missed or it is not listed |
| Restore.RoundTrip | src/raft/storage.cpp:316-349 | restoring the directory that any run of appends has left gives a valid log, ready for appends, whose pages match the original's |
| Restore.RestoredSame | src/raft/storage.cpp:316-349 | a log restored from another has the same entries on pages with the same boundaries |
| Restore.MirroredAgainIff | src/raft/storage.cpp:336-346 | after a restore the directory mirrors the pages again if and only if there was no closed page |
| Restore.RestoreAgain | src/raft/storage.cpp:316-349 | restoring such a directory a second time, when there was a closed page: the entries of the open page are counted but missed, and where it has none it is not listed |
| Counterexamples.OversizeMissed | src/raft/storage.cpp:369-376 | an entry larger than a whole file that is the first to be appended is missed |
| Counterexamples.AppendAfterTruncationMissed | src/raft/storage.cpp:269-294 | after one entry is appended and truncated, the next one is missed |
| Counterexamples.LongEntryMisplaced | src/raft/storage.cpp:397-400 | the offset read for an entry of 128 bytes is one too large |
| Counterexamples.CutLosesBoth | src/raft/storage.cpp:88-93 | truncating the second of two entries leaves neither in the file |
| Counterexamples.TruncatedConfigurationStays | src/raft/cluster_configuration.cpp:79-85 | truncating a log of one configuration leaves it in the index |

## Left out

- Restart of a server inside the protocol model: it restarts as a candidate of its restored term, with a vote and without its applied state.
- The callback at the end of a lease: it resets the server to the term it started in.
- Changes of membership inside the protocol proofs, servers outside their own configuration, the log synchronisation of new servers and the waits of the configuration change; stable and joint quorums are treated on their own.
- `LatestConfiguration`: it finds the first configuration of a page, not the last.
- Agreement of session ids between a leader and its followers: followers apply with an index one lower.
- The bytes of the files: a file is a name and the sequence of its entries, with offsets computed from their sizes.
- Writing the metadata files, and which of the two is newer.
- Client queries, and the condition variables on which client threads wait: a waiting request may complete at any time once its entry may be committed.
- Liveness: that elections end and entries get committed.
- Integer overflow of terms, indices and byte counts; only the restored index range and the unsigned comparison of remaining space are modelled.
- Failures of serialisation and of the file system.
- Timers, thread pool, gRPC, protobuf encoding, command line and logging.
- PagedLog.Page.TruncateSuffix: the file is not resized or renamed; Offsets.CutWrittenIff and Offsets.CutReadKeeps say what the resized file holds.
- PagedLog.PersistedLog.TruncateSuffix: says nothing of the files, and of a log that misses an entry, where the source may read outside a page. A closed page that was restored still carries the name of its open file, so that truncating it resizes another file.
- Restore.RestoreFile: metadata files are recognised and skipped.
- Restore.RestoreState: a directory is taken to have the files that appends or a restore leave, not those that a truncation leaves.
- ConsensusModule.ConsensusModule.constructor: the members and the index of the configuration are parameters, not read from the log.
- ConsensusModule.ConsensusModule.UpdateCommitIndex: the steps that follow a committed configuration entry are left out with membership changes.
- ClientPath.AtMostOnce: covers one leader tenure; sessions do not survive a change of leader in the source.
