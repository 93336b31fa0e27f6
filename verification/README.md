# Verification model of the Chubby lock service

The repository is a small Chubby: a cell of servers that agree on a log of slots with a view-based Paxos
(`src/paxos/paxos_server.cpp`), a lock service that keeps one FREE / SHARED / EXCLUSIVE register per path in that log
(`src/server/server.cpp`), and a client that works under a lease (`client/client_interface.cpp`). This project models the
three and proves what they keep over every run. Where the program falls short of what it is for, the project says
exactly when: a set of named repairs, each of which is proved necessary, or a condition a caller could check.

`dafny verify dfyconfig.toml` checks everything.

## How the model is built

The objects are classes whose fields the methods update in place: `PaxosServer.PaxosImpl`, `LockServer.ChubbyImpl`,
`ClientLibrary.ClientLib`. Each method is proved to compute a function (Handlers.dfy, Tallies.dfy, Cluster.dfy,
GarbageCollection.dfy, LockService.dfy, ClientSession.dfy), and the theorems are about those functions.

**The cell** (Cluster.dfy) is a state machine of `n` servers. One atomic step is one RPC handler, one answer reaching its
caller, or one thread moving on. `net` holds every message ever sent, so a request may be lost, delayed or delivered
twice, and an answer may be lost after the request was executed. `log` is a history of votes, acknowledgements and wins,
kept only to state properties. A `Cell(n, fix, oneElection)` says how many servers there are, which repairs of the
protocol are in force (`AS_WRITTEN` is the program), and whether assumption A is made.

| repair | what the program does | what the repair does |
|---|---|---|
| `rankByAcceptedView` | `addSlots` overwrites `n_a` with the current view, so Prepare answers are ranked by it | rank by the view the value was accepted in |
| `promiseViews` | Prepare carries no view, so its answer promises nothing | carry the view, and refuse or adopt it as Elect does |
| `needMajority` | a phase without a majority sleeps and falls through | it ends |
| `keepProposal` | a leader that retries may propose another value in the same view | one value per view and slot |
| `freshSlot` | release and lease expiry write into a slot that is usually decided already, so the write is dropped | use the next slot |
| `checkHolder` | anybody can release, one SHARED holder frees the lock of the others, expiry leaves the lock map alone | only a holder releases, expiry erases the holder, FREE is written when the last one leaves |

**Assumptions on the cell.** Integers are unbounded. Handlers are atomic, which is what `mu` and `mu_` are meant to give.
Fields the constructor leaves unset (`view`, `lowest_slot`, `highest_accepted_seq`, `missed_heartbeats`, `is_dead`) start
at zero. `set_value(nullptr)` is read as the empty string. Proposals are not empty. Except in GarbageCollection.dfy,
`Forget` is never called: its call sites are commented out in the program (`src/paxos/paxos_server.cpp:407`, `500`, `577`).

**Assumption A** (`oneElection`): a server has at most one `Election` in flight, and none while one of its own Prepare
rounds is under way. Nothing in the program enforces it: each timeout starts a new `Election` thread. Elections are
numbered per server, and without the assumption any number of them overlap. What every step keeps (Basics.dfy), validity,
agreement within one view, replicas, copied slots and convergence hold without it. The results on who may lead
(Views.dfy, Leadership.dfy, Runs.dfy) and agreement of the repaired protocol require it, and NeedForRepairs.dfy shows that
agreement fails without it, whatever the repairs.

**The lock service** is one server with atomic requests. Its log is the `PaxosImpl` object it holds: a `Start` that is not
ignored is taken to end in `Learn` at this server. Times are nanoseconds of one steady clock; what the client compares is
truncated to seconds, as in the program.

**Notable results about the program as written**

- Agreement holds for as long as one view lasts; across views it takes all four protocol repairs and assumption A, and
  each is needed.
- Whatever the repairs, under assumption A leaders are earned, old leaders are fenced, and skipping Prepare is safe.
- Mutual exclusion of locks takes exactly `checkHolder`; that the register keeps telling who holds the lock takes exactly
  both lock repairs. As written, a release directly after the acquire is dropped (its slot is the acquire's own).
- As written, a pass of the lease checker frees at most one path, and then leaves its holder in the lock map.
- A decided slot is written to a server's database exactly when a Learn was the first to decide it there; one that a
  heartbeat copied first never is, so replicas that decided alike may differ.
- A slot that every peer has reported done, and `Forget` erased, is put back by the next heartbeat answer of a peer that
  still has it.
- A keep-alive whose first loop ends too late even for the grace period returns -1 with `accept_requests` still true; a
  following `chubby_open` then lets lock RPCs out before any server knows of the lease.
- `chubby_unlock` returns its success code for an RPC error other than ABORTED and DEADLINE_EXCEEDED
  (`client/client_interface.cpp:263-281`), while `chubby_lock` returns -2 for it.
- The failover wait protects old leases exactly when no reset timer of an earlier detection is due before they end.

## Model

| member | source | states |
|---|---|---|
| `Repaired.RepairedAgreement` | src/paxos/paxos_server.cpp:354-585 | Agreement (A): in every run of the repaired protocol, with any number of view changes, lost or late RPCs, competing proposers and heartbeats, no two servers hold different decided values for a slot |
| `Repaired.AgreementAcrossTime` | src/paxos/paxos_server.cpp:244-246 | a value decided once, at any server, is the value every server holds for that slot whenever it decides it |
| `NeedForRepairs.AgreementExactlyWhenRepaired` | src/paxos/paxos_server.cpp:379-556 | a cell of three agrees in all reachable states if and only if all four repairs are made and no elections of a server overlap |
| `NeedForRepairs.WithOverlap` | src/paxos/paxos_server.cpp:771-779 | two overlapping elections of one server: whatever the repairs, a run in which a refusal makes it leader of a view it has not won, and two values are decided |
| `NeedForRepairs.WithoutMajority` | src/paxos/paxos_server.cpp:545-550 | falling through without a majority: a run in which two servers decide differently |
| `NeedForRepairs.WithoutMemory` | src/paxos/paxos_server.cpp:354-361 | two proposals of one leader in one view: a run with two decisions |
| `NeedForRepairs.WithoutRanks` | src/paxos/paxos_server.cpp:119 | ranking by the overwritten `n_a`: a run with two decisions |
| `NeedForRepairs.WithoutPromises` | src/paxos/paxos_server.cpp:389-393 | Prepare answers that promise nothing: a run with two decisions |
| `Agreement.ChosenIsUnique` | src/paxos/paxos_server.cpp:475-556 | two values accepted by majorities, in whatever views, are the same value |
| `Repaired.SkipIsSafe` | src/paxos/paxos_server.cpp:379 | skipping Prepare, a leader's own value is safe: no other value can still be chosen below its view |
| `Repaired.RoundIsSafe` | src/paxos/paxos_server.cpp:408-433 | the value a Prepare round with a majority settles on is safe for every lower view |
| `PrepareRounds.RoundOutcome` | src/paxos/paxos_server.cpp:387-489 | what comes of every finished Prepare round, as written and under any repairs, said over its answers: step down, teach a reported decision, give up, or propose the value of the first OK answer with the highest `n_a`, and the own value exactly when that is blank or there is none |
| `PrepareRounds.RoundEndsExactlyWhen` | src/paxos/paxos_server.cpp:421-438 | a round ends exactly when everybody was asked, an OK answer reported a decision, or a majority answered OK |
| `PrepareRounds.RoundsInProgress` | src/paxos/paxos_server.cpp:421-438 | over every run, nobody is asked any more once there are enough answers |
| `Answers.ProposalBegins` | src/paxos/paxos_server.cpp:359-403 | which slots are prepared, with the first number in steps of N above all seen, which go straight to Accept, and which are left alone |
| `Answers.AdvanceMeans` | src/paxos/paxos_server.cpp:382-384 | the loop finds the first number in steps of N that exceeds the highest seen |
| `Answers.AcceptPhaseEnds` | src/paxos/paxos_server.cpp:501-568 | the value is taught exactly when no answer tells of a decision or a done slot (and, repaired, a majority voted) |
| `Answers.PrepareIsAnswered` | src/paxos/paxos_server.cpp:145-177 | when a Prepare is promised, and what its answer says of the slot as it was |
| `Answers.AcceptIsAnswered` | src/paxos/paxos_server.cpp:179-221 | when an Accept is voted for, what the vote moves, and what its answer says |
| `Answers.ElectIsAnswered` | src/paxos/paxos_server.cpp:123-143 | when a candidate is acknowledged, and with what |
| `Answers.CollectedIsRefused` | src/paxos/paxos_server.cpp:150-153 | a request for a collected slot changes and answers nothing |
| `Answers.PromiseIsKept` | src/paxos/paxos_server.cpp:158-168 | over every run, once a number is promised every number up to it is refused for that slot |
| `Answers.LearnIsExecuted` | src/paxos/paxos_server.cpp:223-253 | a Learn decides an open slot and writes its pair once, and leaves a decided one alone |
| `Answers.HeartbeatIsSent` | src/paxos/paxos_server.cpp:650-688 | only a leader sends, to the k-th peer its view, its decided slots, and `done` k times over |
| `Answers.HeartbeatAnswerIsCopied` | src/paxos/paxos_server.cpp:689-708 | a leader copies the decided slots of an answer, its own decisions first, and touches nothing else |
| `Answers.CallIsTaken` | src/paxos/paxos_server.cpp:296-320 | exactly when a call is dropped, starts a proposal, or is passed on |
| `Answers.PassedOnCallGoesSomewhere` | src/paxos/paxos_server.cpp:322-345 | a call that is passed on starts a proposal or goes to the leader with the same slot and value |
| `Answers.AnswerIsNoted` | src/paxos/paxos_server.cpp:404-516 | an answer that reaches its caller is counted once, after those before it |
| `Answers.SlotIsTouched` | src/paxos/paxos_server.cpp:87-121 | what a slot starts with, and that touching it again moves only `n_a` |
| `Reports.AnswersAreTrue` | src/paxos/paxos_server.cpp:157-218 | over every run, what an answer says was accepted was accepted by that server in that view, and what it says is decided is decided there for good |
| `Reports.HighestIsReal` | src/paxos/paxos_server.cpp:206-208 | over every run, `highest_accepted_seq` is a slot that some server voted in, and no slot this server voted in is higher |
| `Basics.OnlyForward` | src/paxos/paxos_server.cpp:113-212 | over every run, overlapping elections included, view, highest accepted slot, `n_p` and `n_a` never decrease, decided values never change, `n_a <= view`, messages and history are kept |
| `Basics.StepBasic` | src/paxos/paxos_server.cpp:123-805 | every step of every handler and every caller, with no assumption on elections, moves its server forward, and keeps what proposers and Learn rely on |
| `Progress.AcceptMoves` | src/paxos/paxos_server.cpp:179-212 | Accept moves the acceptor only forward, and answers OK exactly when the request's view is not below the server's on arrival |
| `Progress.PrepareMoves` | src/paxos/paxos_server.cpp:145-177 | Prepare moves the acceptor only forward |
| `Progress.LearnMoves` | src/paxos/paxos_server.cpp:223-253 | Learn moves the server only forward and leaves the slot decided |
| `Progress.ElectMoves` | src/paxos/paxos_server.cpp:123-143 | Elect moves the server only forward |
| `Progress.HeartbeatMoves` | src/paxos/paxos_server.cpp:587-648 | Heartbeat moves the server only forward |
| `Runs.LeadershipIsEarned` | src/paxos/paxos_server.cpp:771-790 | a server in a view above 0 that it owns gathered, in one round of its own Election, no reject and a majority with itself |
| `Runs.OwnViewOnlyByWinning` | src/paxos/paxos_server.cpp:447-453 | no reject, heartbeat, Accept or Prepare answer ever moves a server into a view it owns |
| `Elections.RoundVerdict` | src/paxos/paxos_server.cpp:771-804 | for every number of servers: a finished round of a candidate below its target is won exactly when nobody refused and its acknowledgements with itself are a majority, and tried again exactly when nobody refused and they are not |
| `Elections.ElectionRepeats` | src/paxos/paxos_server.cpp:740-804 | the loop leaves with the first round that is refused or has a majority |
| `Runs.StaleLeadersAreFenced` | src/paxos/paxos_server.cpp:739-791 | once view v is won, every majority of Accept OKs of a lower view has a server that accepted before it acknowledged v |
| `Runs.NoMajorityAfterwards` | src/paxos/paxos_server.cpp:190-212 | from the moment v is won, every majority has a server that accepts nothing below v any more |
| `Runs.SkippingPrepareIsSafe` | src/paxos/paxos_server.cpp:379 | if the winner of v has `seq > highest_accepted_seq`, then below v no majority has accepted that slot, nor ever will |
| `Runs.WinsAreKept` | src/paxos/paxos_server.cpp:782-790 | under A a view is won at most once: who acknowledged it, and with what, never changes |
| `Leadership.StepKeeps` | src/paxos/paxos_server.cpp:123-805 | under A every step of every handler and every caller keeps the invariants about views, votes and wins |
| `Quorums.Intersect` | src/paxos/paxos_server.cpp:781 | two majorities of the cell share a server |
| `Ring.CandidacyIsNext` | src/paxos/paxos_server.cpp:717-724 | the view a candidate asks for is the least view above its own that it owns, 1 to N-1 higher |
| `Ring.CandidaciesDiffer` | src/paxos/paxos_server.cpp:750 | two servers never stand for the same view |
| `FailureDetector.HeartbeatIsFollowed` | src/paxos/paxos_server.cpp:601-645 | a heartbeat of a view not below its own makes a server follow: view, `done`, counter, leader alive, slots copied, and exactly the missing ones sent back |
| `FailureDetector.OtherHeartbeatsChangeNothing` | src/paxos/paxos_server.cpp:591-599 | a heartbeat of a lower view changes nothing, and a server's own only its counter |
| `FailureDetector.DetectionTrips` | src/paxos/paxos_server.cpp:713-737 | the fourth detection in a row gives the leader up and stands for the next owned view; any other only counts |
| `FailureDetector.OthersCalm` | src/paxos/paxos_server.cpp:128-196 | every other step leaves the detector alone, and resets it exactly when it raises the view |
| `FailureDetector.FollowersDoNotStand` | src/paxos/paxos_server.cpp:601-737 | over every run, a server that hears a leader between any four detections never stands for election |
| `StableView.StableViewAgreement` | src/paxos/paxos_server.cpp:354-585 | as written: while one view lasts and the leader's calls to itself arrive, all servers decide alike, whatever else is lost, forwarded, concurrent or out of order |
| `StableView.FirstViewAgreement` | src/paxos/paxos_server.cpp:296-361 | the same from the start of the cell |
| `Validity.ValuesWereStarted` | src/paxos/paxos_server.cpp:407-555 | with two servers or more, every non-empty accepted value and every decided value was passed to some `Start` for that slot |
| `Alone.AloneItDecidesBlank` | src/paxos/paxos_server.cpp:427-431 | a cell of one, as written, has a run in which a slot for which "a" was started is decided blank |
| `Tallies.ElectMeaning` | src/paxos/paxos_server.cpp:746-769 | what the counters of an Election round say about its answers |
| `Tallies.AcceptMeaning` | src/paxos/paxos_server.cpp:497-516 | the Accept phase counts exactly the OK answers |
| `Tallies.StoppedStays` | src/paxos/paxos_server.cpp:421-438 | the Prepare loop may leave early: later answers would change nothing |
| `Tallies.DecidedWasReported` | src/paxos/paxos_server.cpp:411-431 | with two servers or more `na_count_map` never reaches a majority, so a Prepare round takes as decided only what an answer reported as decided |
| `PaxosServer.PaxosImpl.constructor` | src/paxos/paxos_server.cpp:42-59 | a new server knows nothing and has reported nothing |
| `PaxosServer.PaxosImpl.AddSlots` | src/paxos/paxos_server.cpp:113-121 | creates a missing slot and overwrites `n_a` with the view |
| `PaxosServer.PaxosImpl.Elect` | src/paxos/paxos_server.cpp:123-143 | in place, the function `Handlers.Elect` |
| `PaxosServer.PaxosImpl.Prepare` | src/paxos/paxos_server.cpp:145-177 | in place, the function `Handlers.Prepare` as written |
| `PaxosServer.PaxosImpl.Accept` | src/paxos/paxos_server.cpp:179-221 | in place, the function `Handlers.Accept` |
| `PaxosServer.PaxosImpl.Learn` | src/paxos/paxos_server.cpp:223-253 | in place, the function `Handlers.Learn`: decide once, write the database once |
| `PaxosServer.PaxosImpl.Start` | src/paxos/paxos_server.cpp:296-320 | in place, who proposes, who forwards and when a call is ignored |
| `PaxosServer.PaxosImpl.StartOnForward` | src/paxos/paxos_server.cpp:322-352 | in place, the second look: a leader proposes, and anything else is forwarded, even a decided slot |
| `PaxosServer.PaxosImpl.BeginNewSlot` | src/paxos/paxos_server.cpp:354-403 | the head of StartOnNewSlot does what the cell's step `Begin` does |
| `PaxosServer.PaxosImpl.PreparePhase` | src/paxos/paxos_server.cpp:445-473 | the end of the Prepare phase does what the cell's step `FinishPrepare` does |
| `PaxosServer.PaxosImpl.PrepareRound` | src/paxos/paxos_server.cpp:387-441 | the loop with its counters computes the tally of the answers |
| `PaxosServer.PaxosImpl.CountPromise` | src/paxos/paxos_server.cpp:408-438 | one OK answer moves the counters, the highest value and the reasons to stop as the tally says |
| `PaxosServer.PaxosImpl.AcceptPhase` | src/paxos/paxos_server.cpp:475-556 | the end of the Accept phase does what the cell's step `FinishAccept` does |
| `PaxosServer.PaxosImpl.AcceptRound` | src/paxos/paxos_server.cpp:482-526 | the threads' counters are the tally of the answers |
| `PaxosServer.PaxosImpl.Heartbeat` | src/paxos/paxos_server.cpp:587-648 | in place: adopt, copy the batch, and answer with the decided slots the batch lacked |
| `PaxosServer.PaxosImpl.SendHeartbeats` | src/paxos/paxos_server.cpp:650-711 | what is sent to each peer, with `done` appended once per peer, and every answer but its own copied |
| `PaxosServer.CopyAllMeans` | src/paxos/paxos_server.cpp:689-708 | after the answers the leader has decided what it had and what any peer sent back, the first to send a slot back counting |
| `PaxosServer.PaxosImpl.DetectLeaderFailure` | src/paxos/paxos_server.cpp:713-737 | in place, with the view of the candidacy |
| `PaxosServer.PaxosImpl.Election` | src/paxos/paxos_server.cpp:739-805 | the rounds end with the verdict of the first conclusive one |
| `PaxosServer.PaxosImpl.ElectionTurn` | src/paxos/paxos_server.cpp:740-804 | one turn of the loop, from whatever state other handlers left, ends or retries as its counters say |
| `PaxosServer.PaxosImpl.ElectionRound` | src/paxos/paxos_server.cpp:746-769 | one round's counters are the tally of its answers |
| `PaxosServer.PaxosImpl.Forget` | src/paxos/paxos_server.cpp:265-287 | in place, the function `GarbageCollection.Forget` |
| `GarbageCollection.KeptExactly` | src/paxos/paxos_server.cpp:265-287 | a slot is there exactly when a use, copy or forward put it there and either no Forget came since or some peer has not reported it done |
| `GarbageCollection.NeverErasedEarly` | src/paxos/paxos_server.cpp:278-285 | only a Forget erases a slot, and only once every peer has reported it done |
| `GarbageCollection.ForgetErasesAll` | src/paxos/paxos_server.cpp:278-285 | right after a Forget nothing is left of what every peer has reported done |
| `GarbageCollection.CollectedSlotIsBackExactlyWhen` | src/paxos/paxos_server.cpp:698-705 | a slot that every peer has reported done is there exactly when a heartbeat copy or a forward put it back after the last Forget |
| `GarbageCollection.CollectedSlotComesBack` | src/paxos/paxos_server.cpp:698-705 | such a run: two peers report slot 0 done, it is erased, and the next heartbeat answer puts it back |
| `GarbageCollection.DoneIsReported` | src/paxos/paxos_server.cpp:267-277 | after any reports `lowest_slot` is 1 + the least `done`, and `done` is what each peer reported |
| `GarbageCollection.LowestRises` | src/paxos/paxos_server.cpp:274-277 | `lowest_slot` never decreases |
| `Convergence.TwoRoundsConverge` | src/paxos/paxos_server.cpp:620-710 | in any run of the cell: while nothing new is decided, once each peer has answered one heartbeat and then executed another, every server's decided map is the union of all at the start, whatever else happens in between |
| `Convergence.LeaderKnowsAll` | src/paxos/paxos_server.cpp:689-708 | once each peer has answered one heartbeat, the leader holds the union |
| `Convergence.PeerGets` | src/paxos/paxos_server.cpp:632-638 | a peer that executes a heartbeat of a view not below its own has every slot the leader had when it sent it |
| `Replicas.DbIsReplay` | src/paxos/paxos_server.cpp:244-250 | over every run, the database is the replay, in order of arrival, of what Learn brought to undecided slots, and no slot is applied twice |
| `Replicas.ReplicasAgree` | src/paxos/paxos_server.cpp:244-250 | replicas that learned the same entries, those of each path in the same order, have equal databases, whatever the order across paths |
| `Replicas.RepairedReplicasAgree` | src/paxos/paxos_server.cpp:244-250 | with the repairs it is enough that they learned the same slots |
| `Replicas.ReplayIgnoresOtherPaths` | src/paxos/paxos_server.cpp:244-250 | the replay depends only on the order within each path |
| `CopiedSlots.WrittenExactlyWhenLearnedFirst` | src/paxos/paxos_server.cpp:244-250 | over every run, a slot that a server decided was written to its database exactly when the step that first decided it there was a Learn |
| `CopiedSlots.CopiesLeaveDatabasesApart` | src/paxos/paxos_server.cpp:632-638 | a run, as written or repaired, in which two servers decide the same slots alike and their databases differ |
| `Replicas.ParsesBack` | src/paxos/paxos_server.cpp:808-815 | `path#mode` parses back to path and mode exactly for the paths without '#' |
| `LockServer.PutIsLearn` | src/server/server.cpp:146-153 | a Put through Start and Learn changes decided log and database exactly when its slot is undecided |
| `LockServer.ChubbyImpl.Put` | src/server/server.cpp:146-153 | in place over the consensus object, the function `LockService.Put` |
| `LockServer.ChubbyImpl.AcquireLock` | src/server/server.cpp:229-325 | in place, every branch of the acquire with its message, and the leader that is named |
| `LockServer.ChubbyImpl.ReleaseLock` | src/server/server.cpp:343-393 | in place, every branch of the release with its message, and the leader that is named |
| `LockServer.ChubbyImpl.KeepAlive` | src/server/server.cpp:209-222 | the new lease is 12 s from now, and what is sent back is that lease in whole seconds, rounded down |
| `LockServer.ChubbyImpl.ReleaseLocksForClient` | src/server/server.cpp:115-140 | collects exactly the client's paths and frees the locked ones |
| `LockServer.ChubbyImpl.ExpiredClients` | src/server/server.cpp:93-101 | exactly the clients whose lease is not later than now |
| `LockServer.ChubbyImpl.CheckAndExpireLeases` | src/server/server.cpp:89-113 | one pass erases exactly the expired leases and releases the locks of those clients |
| `LockServer.ChubbyImpl.ReleaseForAll` | src/server/server.cpp:108-110 | the locks of the expired clients are released one client after the other, all keys of each |
| `LockLog.ConflictingGrantsAreSeparated` | src/server/server.cpp:246-313 | as written: between two successful acquires of a path, one of them EXCLUSIVE, the log decided `path#FREE` |
| `LockLog.LockedStaysOrIsFreed` | src/server/server.cpp:254-309 | the stored mode never moves directly between SHARED and EXCLUSIVE; only a `path#FREE` entry unlocks it |
| `LockLog.AcquireWrites` | src/server/server.cpp:246-313 | an acquire writes only into a free or new path, and its write is never dropped |
| `LockLog.ReleaseFrees` | src/server/server.cpp:363-376 | a release changes no register except its own, to FREE, by an entry of the log |
| `LockLog.ExpiryFrees` | src/server/server.cpp:108-139 | expiry changes registers only to FREE, by entries of the log |
| `MutualExclusion.ExclusiveExactlyWithHolderCheck` | src/server/server.cpp:343-393 | no EXCLUSIVE grant coexists with another client's grant in any run, if and only if the holder is checked |
| `MutualExclusion.ConsistentExactlyWhenRepaired` | src/server/server.cpp:115-393 | in every run a path has one EXCLUSIVE holder, only SHARED holders or none, the register says which, and every holder has a session, if and only if both repairs are made |
| `MutualExclusion.GrantedExactlyWhenCompatible` | src/server/server.cpp:246-313 | in a consistent state a client with a session is granted a lock exactly when every grant of the path is SHARED and so is the request, or there is none |
| `MutualExclusion.ReleasedExactlyByHolders` | src/server/server.cpp:363-385 | with the holder checked, exactly the clients that were granted a lock can release it |
| `MutualExclusion.ReleaseUndoesAcquire` | src/server/server.cpp:229-393 | with both repairs, a release undoes the acquire of a free path: same grants and holders, the path free, no other register moved |
| `LockAnswers.AcquireIsAnswered` | src/server/server.cpp:229-313 | in a consistent state, which of the five answers an acquire gets, in terms of grants and sessions, and all that it changes |
| `LockAnswers.UnknownModeIsAnswered` | src/server/server.cpp:254-313 | a mode other than the two is granted on a new path and refused without a reason otherwise |
| `LockAnswers.UnknownRegisterRefuses` | src/server/server.cpp:254-385 | a register that such a mode was written to refuses every lock and release without a reason |
| `LockAnswers.ReleaseIsAnswered` | src/server/server.cpp:343-385 | in a consistent state, which of the three answers a release gets, in terms of grants |
| `LockAnswers.ReleaseFreesExactlyWhen` | src/server/server.cpp:368-376 | as written, an accepted release frees its path exactly when the slot of the last acquire is open |
| `LockAnswers.PassDropsExpired` | src/server/server.cpp:93-106 | a pass drops exactly the leases not later than now |
| `LockAnswers.KeepAliveRenews` | src/server/server.cpp:211-214 | a keep-alive renews one lease by 12 s and changes nothing else |
| `LockAnswers.SlotNumberCountsAcquires` | src/server/server.cpp:247 | over every run as written, the slot number is the number of acquires so far, granted or refused |
| `MutualExclusion.AnyoneCanFree` | src/server/server.cpp:363-376 | without the check: a run in which a release by a stranger leads to two EXCLUSIVE grants |
| `MutualExclusion.ReleaseIsDropped` | src/server/server.cpp:146-153 | without fresh slots, so also as written: a run in which the release of a lock just acquired leaves the path locked by nobody |
| `MutualExclusion.ReleaseKeepsAgreementExactlyWhen` | src/server/server.cpp:343-393 | exactly when one ReleaseLock as written leaves register and lock map in agreement |
| `MutualExclusion.ExpiryKeepsAgreementExactlyWhen` | src/server/server.cpp:89-140 | exactly when one pass of the lease checker as written leaves all registers and the lock map in agreement: its slot is decided already, or nobody expires holding a lock |
| `MutualExclusion.OnePassFreesOnePath` | src/server/server.cpp:115-140 | a pass as written frees at most one path, and writes nothing exactly when its slot is decided or it has no key to visit |
| `MutualExclusion.HashedPathIsAlwaysGranted` | src/server/server.cpp:251-313 | a path with '#' is granted to every client with a session, whoever else was |
| `MutualExclusion.CallGuards` | src/server/server.cpp:115-393 | with the holder checked, every call keeps grants, lock map and register in step |
| `Leases.ClientTestIsSafe` | client/client_interface.cpp:163-168 | whenever the client's whole-second test passes on an adopted lease, the server's entry is there and has not expired, so an acquire finds a session |
| `Leases.InTimeIsNeverReaped` | src/server/server.cpp:195-214 | a client whose keep-alive resumes before the lease it found is over is not reaped meanwhile, and its lease grows by 12 s less the margin |
| `Leases.KeepAliveWaitsAndRenews` | src/server/server.cpp:203-222 | a keep-alive waits until 100 ms before its lease is over, and then renews it by 12 s, told in whole seconds |
| `ClientSession.NoRpcInGrace` | client/client_interface.cpp:333-391 | no lock RPC is sent during the grace loop |
| `ClientSession.NoRpcAfterFailure` | client/client_interface.cpp:153-168 | after -1 or -2 no lock RPC is sent until a keep-alive succeeds, unless the client opens or initialises anew |
| `ClientSession.NoRpcUntilSuccessExactlyWhenBarred` | client/client_interface.cpp:86-92 | and whatever is called, exactly when the flag `accept_requests` is down |
| `ClientLibrary.FailsWithFlagUpExactlyWhenLate` | client/client_interface.cpp:328-342 | a failed keep-alive leaves the flag up exactly when it was up before and the first reading after the first loop was past the grace period |
| `ClientSession.LateFailureLeavesFlagUp` | client/client_interface.cpp:333-393 | a keep-alive can fail with the flag still up |
| `ClientSession.AdoptsOnlyKnownEpochs` | client/client_interface.cpp:308-317 | a lease is adopted only from an answer whose epoch is not newer than the latest |
| `ClientSession.EpochNeverDecreases` | client/client_interface.cpp:310-313 | the latest epoch never decreases over any run |
| `ClientHistory.LeaderIsTheLastNamed` | client/client_interface.cpp:153-393 | over every run, the client turns to the server it was last named: by a success in the grace loop or by a lock answer, and to the initial address before |
| `ClientHistory.GraceSuccessNamesServer` | client/client_interface.cpp:366-383 | after a success in the grace loop the client turns to the server that answered, under its lease, and accepts requests |
| `ClientHistory.EpochIsTheHighestHeard` | client/client_interface.cpp:310-313 | over every run, the latest epoch is the highest one a good answer brought |
| `ClientHistory.LeaseIsTheLastFixed` | client/client_interface.cpp:66-374 | over every run, the lease is what the last init, open or adopted answer fixed |
| `ClientHistory.BarredSinceGrace` | client/client_interface.cpp:333-382 | over every run, requests are barred exactly when the grace loop has run since the last adopted answer |
| `ClientHistory.KeepAliveGoesOn` | client/client_interface.cpp:294-393 | when a keep-alive returns 0, -1 or -2, and otherwise where it goes on and with which reading of the clock |
| `ClientHistory.CodesMean` | client/client_interface.cpp:150-282 | what each code of lock and unlock says about the RPC, and whom the client turns to |
| `ClientLibrary.KeepAliveEnds` | client/client_interface.cpp:294-391 | with bounded epochs and failing calls that take time, a keep-alive ends within the epochs and seconds that are left |
| `ClientLibrary.KeepAliveIsARun` | client/client_interface.cpp:284-393 | the turns of the loops are steps of the client's runs |
| `ClientLibrary.TurnIsTestAndAnswer` | client/client_interface.cpp:294-391 | a turn of either loop is its test and then the answer to that turn's call |
| `ClientLibrary.ClientLib.SendKeepAlive` | client/client_interface.cpp:284-393 | the loops end, with the state and code of the turns taken |
| `ClientLibrary.ClientLib.WaitInGrace` | client/client_interface.cpp:333-393 | the grace loop, from the state it is entered in |
| `ClientLibrary.ClientLib.ChubbyInit` | client/client_interface.cpp:62-66 | the lease a client starts with |
| `ClientLibrary.ClientLib.ChubbyOpen` | client/client_interface.cpp:79-93 | a fresh client number and a lease of 12 s granted to itself, then a keep-alive |
| `ClientLibrary.ClientLib.ChubbyLock` | client/client_interface.cpp:150-213 | in place, with the code, and whether the RPC was sent |
| `ClientLibrary.ClientLib.ChubbyUnlock` | client/client_interface.cpp:215-282 | in place, with the code, and whether the RPC was sent |
| `Failover.WaitOutlastsLeases` | src/paxos/paxos_server.cpp:727-735 | a server with no reset outstanding that detects the failure of a crashed master grants no lock before every lease of that master is over, whatever detections and timers follow |
| `Failover.NoGrantBefore` | src/paxos/paxos_server.cpp:727-735 | the same up to any time before which no reset is due |
| `Failover.ResetsAreSet` | src/paxos/paxos_server.cpp:727-735 | giving a leader up raises the flag and sets a reset 40 s later; only a reset that is due lowers it |
| `Failover.WaitsExactlyWhen` | src/server/server.cpp:232-234 | from any state: no grant before a time, in all continuations, if and only if the server waits and no outstanding reset is due earlier |

## Left out

- gRPC stubs, channels, contexts, ports and protobuf copying: transport; servers are indices and delivery is nondeterministic.
- RocksDB transactions, snapshots and cache (src/common/rocksdb_wrapper.cc): the database is a map from key to value.
- ThreadPool: constructed, but nothing is ever enqueued.
- Lock-level interleavings of `mu`, `mu_`, `slot->mu` and `KeyLock`: handlers are atomic. Deadlock freedom is not claimed; Accept and Heartbeat take `mu` and `mu_` in opposite orders.
- PaxosServer.PaxosImpl.PreparePhase: lines 454-457 forward twice and unlock a mutex twice; the method hands the call on once, and in the cell it may be taken up any number of times. The sleep of lines 461-466 is left out.
- PaxosServer.PaxosImpl.Election: the server stands still between its turns; `ElectionTurn` and the cell's steps start each turn from any state.
- PaxosServer.PaxosImpl.DetectLeaderFailure: the thread of lines 731-735 that resets `leader_election_happened` after 40 s is a timer of Failover.dfy.
- The proposal that `StartOnForward` makes at lines 326-333 runs with `mu` held, which StartOnNewSlot takes again; the model lets it proceed.
- The step-down test after the Accept phase (lines 531-543) can never succeed and is not modelled; `highest_slot`, `highest_view` of Accept and `FORGOTTEN` are never read.
- `done` in requests is read once per handler; the sender's `latest_done` is carried in answers only, because nothing reads it in requests.
- The exception of `getKeyValue` for a value without '#': the slot is decided and the database is left alone.
- Proposal numbers are not claimed to be unique across servers; nothing in the program makes them so.
- The random sleeps, and the choice of a server in the grace loop: any choice is possible.
- LockServer.ChubbyImpl.AcquireLock: the call to the leader when `leader_dead` is set is transport between servers; the object is modelled while its leader is alive.
- LockServer.ChubbyImpl.ReleaseLock: as AcquireLock.
- LockServer.ChubbyImpl.Put: that the consensus begun by Start ends in Learn at this server is taken as given, also in LockServer.PutIsLearn; when it does is the subject of the cell.
- `Ping` and `TryAcquireLock`.
- The order in which a set or map is iterated in the lease checker: any order is possible.
- LockServer.ChubbyImpl.CheckAndExpireLeases: one pass of the endless loop; passes may come at any time in the runs of LockService.dfy and Leases.dfy.
- LockServer.ChubbyImpl.KeepAlive: the wait before it resumes is a step of Leases.dfy, not part of the method.
- NeedForRepairs.AgreementExactlyWhenRepaired: that each repair and assumption A are needed is shown for cells of three only; that they suffice is proved for every number of servers from two on.
- Leases: the lease that `chubby_open` and `chubby_init` grant the client before the first successful keep-alive has no entry in any server, so it is not covered.
- The check-then-send of `chubby_lock` and `chubby_unlock` is one step: an RPC sent after the flag was read but before it went down is not modelled.
- Locks across several servers (each has its own `slot_number` and maps), `chubby_shutdown`, configuration files, the performance client, tests and scripts.
