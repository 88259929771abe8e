# Verification of Nexo's messaging core

Nexo is a multi-node instant messaging server with a web client. This project models the parts of it where several
goroutines, transactions or awaits share state, and proves what they promise together. `dafny verify dfyconfig.toml`
checks the whole project.

Each component has up to three layers:

- a *model*: the state as a value, one function per critical section or transaction, and a machine whose runs interleave
  those steps in every possible order;
- the *invariants* every step keeps, and the *theorems* that follow for every reachable state or whole run;
- the *objects* as they run: classes whose methods change their fields in place and loop where the code loops, each
  proved to do what the model's function says, and, where there is a machine, to be a run of it.

| component | files |
|---|---|
| presence refresh scheduler | `DueHeap`, `PresenceModel`, `PresenceInvariants`, `PresenceSteps`, `PresenceWakeups`, `PresenceTiming`, `PresenceFairness`, `PresenceSnapshots`, `PresenceTheorems`, `PresenceProgress`, `PresenceFreshness`, `PresenceStale`, `PresenceAnswers`, `PresenceWitnesses`, `PresenceNode`, `PresenceRefinement` |
| conversation log, membership, read cursors | `ConvIds`, `ChatModel`, `ChatInvariants`, `ChatRuns`, `ChatTheorems`, `ChatGroups`, `ChatEffects`, `ChatAnswers`, `ChatStamps`, `ChatClocks`, `ChatLists`, `ChatPull`, `ChatStore`, `ChatServices` |
| conversation list paging | `ListCursors`, `Paging`, `ListRuns`, `ListWitnesses` |
| web client sync | `WebSync`, `WebClient`, `WebImClient`, `WebWorld`, `WebWitness` |
| outbound byte budget | `ByteBudget`, `SendQueue`, `BudgetRefinement` |
| connection slots | `SlotModel`, `UserMaps`, `SlotRefinement` |
| presence registration | `RedisOnline`, `RedisExpiry`, `Registration` |
| codecs and arithmetic | `Decimal`, `Identity`, `Base64`, `NodePairs`, `Sums`, `Common` |

How the world outside enters: clocks, server ids, store failures and request answers are parameters of the steps. The
frame limiter is a function from the number of frames granted to the moment the next token is free. A Go pointer to a
subscription is its identity in a map of all subscriptions ever made; a sorted, compacted id list is the set of its ids.
Go's map iteration order is an arbitrary enumeration. A transaction that fails restores every table, as the SQL backends
do; the in-memory store of the tests has no rollback.

Seven promises hold only under a condition, and the condition is proved exact. The runs named here are made of requests
that pass the services' own checks, which their lemmas say:

- A stale presence frame qualifies a snapshot the connection already has, unless every successful read of that revision was
  turned away by the byte budget or a full queue (`PresenceStale.StaleStandsAlone`). `PresenceWitnesses.StaleCanStandAlone`
  is a run in which it was.
- An entry whose time has come is passed by nobody, except by an entry behind it with an older queue position that is pulled
  forward to its very moment (`PresenceTheorems.OnlyTiesPass`, `PresenceTheorems.RequeuePasses`).
  `PresenceWitnesses.TieIsOvertaken` is a run in which one is.
- The sort key of a conversation row only rises, except in a committed rejoin whose clock is behind it
  (`ChatStamps.StampFallsExactly`, `ChatStamps.StampsRiseExactly`), and paging across such a rejoin lists the conversation
  again if and only if the new key lies after the page already seen (`Paging.RelistedExactly`, `ListRuns.RejoinRelists`).
  `ListWitnesses.BackdatedRejoinListsTwice` is a run in which it does.
- A conversation the user has is on one of the pages of a traversal if and only if its key lies in the window of some page
  at the moment of that page (`Paging.ListedExactly`), and a refresh of the web client works on exactly those
  (`WebWorld.RoundCoversExactly`); one that is not touched meanwhile is among them
  (`WebWorld.RefreshMissesNothingStill`). `ListWitnesses.TouchedIsMissed` is a run in which a touched one is not, and
  `WebWitness.TouchedIsNotCaughtUp` one in which a refresh therefore ends normally without a message it should have.
- A slot released undoes its reservation if and only if the user id is not empty (`SlotModel.ReleaseUndoesReserve`).
- A list cursor survives the wire if and only if its time is whole milliseconds and its id is not empty
  (`ListCursors.CursorRoundTrip`).
- Formatting then parsing an actor gives it back if and only if its id is positive (`Identity.ParseUndoesFormat`).

## Model

| member | source | states |
|---|---|---|
| `DueHeap.OnlineDue.Up` | internal/gateway/presence.go:79-89 | sifting up restores heap order on the first n slots and keeps slots and index fields naming each other |
| `DueHeap.OnlineDue.Down` | internal/gateway/presence.go:79-89 | sifting down restores heap order below the start, reports whether the entry moved, and leaves the rest alone |
| `DueHeap.OnlineDue.Push` | internal/gateway/presence.go:91-95 | a push adds exactly that entry to the queue and keeps a valid indexed heap |
| `DueHeap.OnlineDue.Fix` | internal/gateway/presence.go:252-257 | re-ranking changes exactly that entry and keeps a valid indexed heap |
| `DueHeap.OnlineDue.Remove` | internal/gateway/presence.go:204-206 | removal from any slot takes out exactly that entry and keeps a valid indexed heap |
| `DueHeap.OnlineDue.Pop` | internal/gateway/presence.go:97-104 | the popped entry is one that no queued entry is due before |
| `DueHeap.RootIsLeast` | internal/gateway/presence.go:113-115 | in a heap no slot is due before the head |
| `PresenceInvariants.SettleKeeps` | internal/gateway/presence.go:178-194 | replacing a set keeps ownership, queue, reverse index, reference count, cap and markers |
| `PresenceInvariants.RequeueKeeps` | internal/gateway/presence.go:248-268 | requeue keeps the whole registry structure |
| `PresenceInvariants.MarkAllKeeps` | internal/gateway/presence.go:283-296 | a bulk mark, in any map order, keeps the whole registry structure |
| `PresenceInvariants.UnsubscribeKeeps` | internal/gateway/presence.go:221-229 | cancelling keeps the whole registry structure |
| `PresenceSteps.DispatchStruct` | internal/gateway/presence.go:361-397 | a dispatch pass keeps the whole structure and leaves every live active subscription queued or reading |
| `PresenceSteps.FinishStruct` | internal/gateway/presence.go:422-464 | finishing a read, successful or not, current or superseded, keeps the whole structure |
| `PresenceSteps.StepStruct` | internal/gateway/presence.go:138-464 | every step of subscribe, replace, cancel, drain, mark, dispatch, finish and exit keeps the whole structure |
| `PresenceWakeups.RequeueAttended` | internal/gateway/presence.go:238-268 | a requeued entry wakes the dispatcher or waits behind one it is already armed for |
| `PresenceWakeups.DispatchAttended` | internal/gateway/presence.go:361-397 | the duration dispatch returns is no later than the head's next actionable moment, unless only a wake can help |
| `PresenceWakeups.StepWake` | internal/gateway/presence.go:326-356 | no step leaves a parked dispatcher with a queue it will not look at in time |
| `PresenceTiming.StepTime` | internal/gateway/presence.go:248-251 | every step keeps admissions of one connection a second apart, and clocks, clamps and revisions never go back |
| `PresenceFairness.QueuePlaces` | internal/gateway/presence.go:245-268 | every step but a pass keeps a due entry's rank, everyone due before the moment of the step, and all older queue positions |
| `PresenceFairness.StepHolds` | internal/gateway/presence.go:245-268 | while an overdue entry waits, no step puts a new entry ahead of it, and each admission takes one away |
| `PresenceSnapshots.StepSnap` | internal/gateway/presence.go:163-195 | every step keeps jobs and frames agreeing with the sets accepted for the revisions they name |
| `PresenceTheorems.ReachableStep` | internal/gateway/presence.go:326-356 | reachability is closed under every allowed step |
| `PresenceTheorems.ReachableGood` | internal/gateway/presence.go:106-128 | every reachable state has the whole structure, attended queue, spaced admissions and agreeing frames |
| `PresenceTheorems.NoLostWakeup` | internal/gateway/presence.go:238-268 | for every queued connection of a parked running dispatcher, a wake is pending, all four slots are busy, or the timer's deadline is no later than the moment it is due and a token is free (plus the lag between reading the clock and arming) |
| `PresenceTheorems.CompletionWakes` | internal/gateway/presence.go:425-430 | every completion frees its slot and leaves a wake behind |
| `PresenceTheorems.LiveIsQueuedXorReading` | internal/gateway/presence.go:441-446 | every live active connection of a running node is queued or reading, never both |
| `PresenceTheorems.MarkerMeansReading` | internal/gateway/presence.go:66-68 | on a running node a live connection holds a marker only while its read is in flight |
| `PresenceTheorems.IndexIsInverse` | internal/gateway/presence.go:187-193 | byUser is the exact inverse of the active sets, without empty entries |
| `PresenceTheorems.RefsAreCounted` | internal/gateway/presence.go:174-186 | refs is the sum of the active set sizes and at most 100000 |
| `PresenceTheorems.OneReadPerConnection` | internal/gateway/presence.go:198-219 | no connection ever has two reads in flight, even across cancel and resubscribe, and slots in use equal reads in flight |
| `PresenceTheorems.JobSendNeverBlocks` | internal/gateway/presence.go:120-123 | every send of every dispatch pass finds room in the job channel |
| `PresenceTheorems.AdmissionsAreSpaced` | internal/gateway/presence.go:361-397 | any two admissions of one connection in any run are at least one second apart |
| `PresenceTheorems.BoundedOvertaking` | internal/gateway/presence.go:60-65 | once overdue, a waiting connection's set of entries ahead only shrinks, and admissions meanwhile are bounded by how many were ahead |
| `PresenceProgress.PassAdmitsHead` | internal/gateway/presence.go:361-397 | a pass that finds the head due, a slot and a token free admits the head, and first |
| `PresenceProgress.PassLeavesNobodyDue` | internal/gateway/presence.go:361-397 | a pass ends with nobody due, or for want of a slot or a token |
| `PresenceProgress.OverdueHasItsTurn` | internal/gateway/presence.go:60-65 | along any run that does not take an overdue connection's subscription away, once more passes found a slot and a token than entries were ahead of it, it has been admitted, after at most as many others as those |
| `PresenceProgress.AdmissionsReachEveryone` | internal/gateway/presence.go:60-65 | the same counted in admissions: as many as were ahead and one more include its own |
| `PresenceTheorems.RequeuePasses` | internal/gateway/presence.go:245-268 | a requeue at or after an entry's time passes it if and only if it pulls an older position from behind it to its very moment |
| `PresenceTheorems.OnlyTiesPass` | internal/gateway/presence.go:79-84 | in every step of every run a due entry is passed by exactly those queued behind it at an older position and pulled to its very moment, which is the moment of the step |
| `PresenceWitnesses.TieIsOvertaken` | internal/gateway/presence.go:79-84 | a run from the start, of requests with valid user ids, in which a change marks an older position at the very moment another entry is due and so passes it |
| `PresenceTheorems.FramesAgree` | internal/gateway/presence.go:448-464 | every frame offered to a queue, enqueued or turned away, names a revision whose accepted set is the one it was read for, and revisions on a connection never decrease |
| `PresenceTheorems.FrameIsCurrent` | internal/gateway/presence.go:433-464 | only a finishing read offers a frame, at most one, and its revision and set are the connection's current ones |
| `PresenceFreshness.RefreshWithinInterval` | internal/gateway/presence.go:439-446 | every live active connection is being read or is due within 30 seconds of the last clock reading |
| `PresenceFreshness.ChangeIsPending` | internal/gateway/presence.go:270-296 | a presence change of a watched user leaves a refresh pending, as early as the interval allows, for every connection watching them |
| `PresenceFreshness.RemarkIsHonoured` | internal/gateway/presence.go:441-446 | a change that arrived during a read is pending again when that read completes |
| `PresenceFreshness.NewSetIsPending` | internal/gateway/presence.go:178-195 | a new non-empty set is pending a refresh as soon as it is accepted |
| `PresenceStale.StaleFollowsRead` | internal/gateway/presence.go:451-460 | in every run a stale frame comes after a successful read of the same revision for the same connection, none of which found the connection closing |
| `PresenceStale.StaleStandsAlone` | internal/gateway/presence.go:451-483 | a stale frame has no enqueued snapshot of its revision before it if and only if that revision was read successfully and the budget or a full queue turned away every snapshot of it |
| `PresenceWitnesses.StaleCanStandAlone` | internal/gateway/presence.go:458-477 | a run from the start, of requests with valid user ids, whose connection is sent a stale frame of a revision it never got a snapshot of |
| `PresenceStale.StaleNeedsSilence` | internal/gateway/presence.go:452-457 | a failed read is reported as stale only 90 seconds after the last successful read of its revision |
| `PresenceAnswers.ReadIsReported` | internal/gateway/presence.go:422-464 | a finished read offers a frame of the set it was made for if and only if the node runs, the connection is live and that set is still its own, and the read succeeded or none has for 90 seconds; a success is remembered whether or not a change came in meanwhile; the next read is due for that change or 30 seconds on; nothing else moves |
| `PresenceAnswers.AdmissionsAreMetered` | internal/gateway/presence.go:375-387 | in every run the k-th admission waits for the k-th token of the frame limiter and takes it |
| `PresenceAnswers.PassWaitsExactly` | internal/gateway/presence.go:361-397 | a pass returns exactly the time to the head's moment or to the next token, and 0 only when the node stops, nobody is queued or all four slots are busy |
| `PresenceAnswers.ClampIsLastAdmission` | internal/gateway/presence.go:389-394 | a connection may be read again exactly one second after its last admission, and at once before its first |
| `PresenceAnswers.RequeueMoves` | internal/gateway/presence.go:248-268 | an entry is queued for the later of the moment asked for and its clamp, moves only forward and keeps its position, and the dispatcher is woken if and only if it moved to the front |
| `PresenceAnswers.SubscribeAnswers` | internal/gateway/presence.go:138-176 | for each answer to a subscribe request exactly when it is given, and that nothing changes unless the request is accepted |
| `PresenceAnswers.SubscribeLeaves` | internal/gateway/presence.go:177-195 | an accepted set and revision are the connection's from then on, and nobody else's change |
| `PresenceAnswers.UnsubscribeLeaves` | internal/gateway/presence.go:221-229 | removing a connection's subscription ends its own and takes it out of the queue, and nobody else's |
| `PresenceAnswers.ChangeLeavesOthers` | internal/gateway/presence.go:283-296 | a presence change leaves the row and the queue entry of everyone who watches none of the changed users, and everything on a node that stops |
| `PresenceAnswers.ExitLeavesNothing` | internal/gateway/presence.go:326-336 | after the dispatcher leaves nobody watches, nothing is queued and no reference is counted |
| `PresenceNode.OnlineSubscriptions.Remove` | internal/gateway/presence.go:200-219 | gives back references, queue entry and marker, and exactly the reverse index entries of its users |
| `PresenceNode.OnlineSubscriptions.Requeue` | internal/gateway/presence.go:248-268 | clamps, never moves an entry later, and wakes exactly when the entry became the head |
| `PresenceNode.OnlineSubscriptions.SetSubscriptions` | internal/gateway/presence.go:138-195 | refuses when no presence store or user service is configured and a request without a positive revision, with more than 100 ids or with one that is not valid, unchanged; otherwise answers and changes state as `PresenceAnswers.SubscribeAnswers` and `PresenceAnswers.SubscribeLeaves` say |
| `PresenceNode.OnlineSubscriptions.RemoveSubscriptions` | internal/gateway/presence.go:221-229 | cancels the connection's subscription as the model does |
| `PresenceNode.OnlineSubscriptions.UsersChanged` | internal/gateway/presence.go:283-296 | marks each watcher of each changed user, user by user, unless the node is stopping |
| `PresenceNode.OnlineSubscriptions.DispatchOnline` | internal/gateway/presence.go:361-397 | the loop over the real heap admits exactly what the model admits and returns the same duration |
| `PresenceNode.OnlineSubscriptions.FinishOnlineRead` | internal/gateway/presence.go:422-464 | completes, requeues and reports as the model does, and returns the offer the model records |
| `PresenceNode.OnlineSubscriptions.ExitDispatcher` | internal/gateway/presence.go:328-336 | drops every active subscription once, in some order |
| `PresenceRefinement.LinksHold` | internal/gateway/presence.go:272-296 | every pointer the critical sections follow exists in every reachable state |
| `PresenceRefinement.Scheduler.constructor` | internal/gateway/presence.go:106-128 | the objects start out showing the machine's initial state |
| `PresenceRefinement.Scheduler.SetSubscriptions` | internal/gateway/presence.go:138-195 | a subscribe request takes the objects one step of the machine further, or leaves them alone when it is malformed or nothing is configured |
| `PresenceRefinement.Scheduler.EndContext` | internal/gateway/kick.go:62-68 | so does a connection's context ending |
| `PresenceRefinement.Scheduler.RemoveSubscriptions` | internal/gateway/kick.go:70-71 | so does the removal of an ended connection's subscriptions |
| `PresenceRefinement.Scheduler.UsersChanged` | internal/gateway/presence.go:283-296 | so does a presence change, in some walking order, and a stopping node ignores it |
| `PresenceRefinement.Scheduler.CloseNode` | internal/gateway/shutdown.go:11-13 | so does the node starting to close |
| `PresenceRefinement.Scheduler.Pass` | internal/gateway/presence.go:340-342 | so does a dispatch pass of the goroutine, which then holds the pass's duration |
| `PresenceRefinement.Scheduler.Arm` | internal/gateway/presence.go:343-347 | so does stopping and setting the timer before the select |
| `PresenceRefinement.Scheduler.WakeUp` | internal/gateway/presence.go:348-351 | so does the select taking the wake token, which empties the channel |
| `PresenceRefinement.Scheduler.TimerFires` | internal/gateway/presence.go:348-352 | so does the select taking the timer |
| `PresenceRefinement.Scheduler.ExitDispatcher` | internal/gateway/presence.go:326-336 | so does the goroutine leaving, with its deferred cleanup in some walking order |
| `PresenceRefinement.Scheduler.TakeJob` | internal/gateway/presence.go:399-404 | so does a worker taking a job |
| `PresenceRefinement.Scheduler.FinishRead` | internal/gateway/presence.go:399-464 | so does a completion, which returns exactly the offer the machine records |
| `ChatInvariants.SendKeeps` | internal/service/message/message.go:158-183 | Send's transaction keeps the log gapless and ordered, the row bounds, and rows in step with membership |
| `ChatInvariants.CreateKeeps` | internal/service/group/group.go:121-132 | Create's transaction keeps the same |
| `ChatInvariants.JoinKeeps` | internal/service/group/group.go:152-174 | Join's transaction keeps the same |
| `ChatInvariants.RemoveKeeps` | internal/service/group/group.go:213-254 | remove's transaction keeps the same |
| `ChatInvariants.CollisionIsRetry` | internal/service/message/message.go:175-197 | with a fresh server id a collision means the client key is already stored |
| `ChatRuns.SendHistory` | internal/service/message/message.go:158-183 | a committed send extends exactly the latest periods of the members of its group |
| `ChatRuns.RemoveHistory` | internal/service/group/group.go:213-254 | a removal freezes exactly the leaver's latest period |
| `ChatRuns.JoinHistory` | internal/service/group/group.go:152-174 | a join starts a new, empty period for exactly the joiner |
| `ChatRuns.StepOk` | internal/service/message/message.go:127-209 | every step of every request keeps database, history, attempts and pending reads consistent |
| `ChatRuns.LeadsProgress` | internal/store/storetest/mem_message.go:25-112 | from any point of a run to its end, the log, bounds, cursors and visible maxima only move forward |
| `ChatTheorems.GaplessLog` | internal/service/message/message.go:158-183 | after every run the stored seqs of a conversation are exactly 1..max_seq |
| `ChatTheorems.SendTimesFollowSeq` | internal/service/message/message.go:168-170 | send_time never decreases with seq, for arbitrary node clocks, and each seq has one row |
| `ChatTheorems.OneMessagePerClientKey` | internal/store/storetest/mem_message.go:25-40 | at most one message exists per conversation, sender and client id |
| `ChatTheorems.SameAckForTheWholeRun` | internal/service/message/message.go:136-201 | attempts of one request acknowledged at any two moments of a run got the same ack |
| `ChatTheorems.SeqAllocNeverFails` | internal/service/message/message.go:185-193 | with fresh server ids no attempt ends in ErrSeqAllocFailed |
| `ChatTheorems.RetryConsumesNoSeq` | internal/service/message/message.go:171-178 | a transaction that repeats a stored client key changes nothing |
| `ChatTheorems.VisibilityIsMembership` | internal/service/group/group.go:152-254 | a stored group seq is in a user's visible range exactly when it was committed in their latest membership period |
| `ChatTheorems.UnboundedRowIsMember` | internal/service/group/group.go:213-254 | an upper bound of 0 exists exactly for current members |
| `ChatTheorems.VisibleOwnersAreCovered` | internal/store/storetest/mem_group.go:169-179 | VisibleOwners keeps exactly the ids whose row covers the seq |
| `ChatTheorems.PushTargetsWereMembers` | internal/service/message/message.go:428-450 | whatever roster was cached, every push target that passes VisibleTo was a member at commit |
| `ChatTheorems.ReadCursorBounds` | internal/service/conversation/conversation.go:50-76 | min_seq - 1 <= read_seq <= visible max in every reachable state |
| `ChatTheorems.ReadCursorMonotone` | internal/service/conversation/conversation.go:50-76 | read_seq and min_seq never decrease over a run, through leaving, rejoining and late advances |
| `ChatTheorems.UnreadIsExact` | internal/service/conversation/conversation.go:100-107 | unread is the exact number of stored visible messages past read_seq |
| `ChatGroups.OwnerStays` | internal/service/group/group.go:182-191 | in every reachable state a group's owner is a member with the owner's role |
| `ChatGroups.KickNeedsRank` | internal/service/group/group.go:221-244 | a kick succeeds exactly when an admin or the owner removes a member of lower rank |
| `ChatGroups.OthersArePlain` | internal/service/group/group.go:115-132 | in every reachable state everyone but the owner has the plain member's role, 1, and the owner 3 |
| `ChatGroups.OnlyTheOwnerKicks` | internal/service/group/group.go:213-254 | so a kick commits if and only if the operator is the owner and the target another member, and another member's gets the not-an-admin error |
| `ChatGroups.KickAnswers` | internal/service/group/group.go:221-249 | whatever ranks there are, which error a kick gets and when |
| `ChatGroups.GroupsStayWithinLimit` | internal/service/group/group.go:161-167 | under one configured limit no run takes a group past it |
| `ChatEffects.SendCommits` | internal/service/message/message.go:158-183 | a send commits exactly when the sender is entitled and neither the client key nor the server id is stored; then it takes max_seq + 1, else nothing changes |
| `ChatEffects.SendStoresRequest` | internal/service/message/message.go:152-156 | the stored message carries the request and names the conversation of its parties in either order |
| `ChatEffects.SendMovesOneCursor` | internal/service/message/message.go:307-324 | only the sender's read cursor moves, only when asked, and exactly to the new message |
| `ChatAnswers.AckedIsStored` | internal/service/message/message.go:351-353 | in every reachable state an ack carries the server id, conversation, seq and time of the message stored under its request's key |
| `ChatAnswers.CommitAnswers` | internal/service/message/message.go:158-197 | a transaction is acknowledged if and only if the sender is entitled and the key is new; then the ack names the minted id, the conversation of the request, the old max_seq plus one and the later of the clock and the conversation's time, and the message stored last is that one |
| `ChatAnswers.BeginAnswers` | internal/service/message/message.go:136-150 | a request is acknowledged as it comes in if and only if its message is stored, and otherwise goes on to its transaction; nothing is written |
| `ChatAnswers.RereadAnswers` | internal/service/message/message.go:185-197 | in every reachable state the re-read after a collision ends in an ack |
| `ChatAnswers.GroupSendAnswers` | internal/service/message/message.go:158-183 | which error a send to a group gets from its transaction, and when |
| `ChatAnswers.SingleSendLeaves` | internal/service/message/message.go:307-324 | a single-chat message opens or brings forward both parties' rows, each naming the other, and leaves every other row |
| `ChatAnswers.GroupSendLeaves` | internal/service/message/message.go:307-324 | a group message brings forward exactly the rows without an upper bound, moves the sender's cursor if asked, and opens none |
| `ChatAnswers.JoinAnswers` | internal/service/group/group.go:152-167 | a join is refused exactly for a member and for a full group, and changes nothing then |
| `ChatAnswers.JoinLeaves` | internal/service/group/group.go:168-174 | a join adds one plain member joined now, whose row begins after the current max_seq with everything before it read, and leaves every other member and row |
| `ChatAnswers.RemoveLeaves` | internal/service/group/group.go:243-254 | a removal takes out that member, freezes their row at max_seq or deletes it when nothing was ever sent, and leaves everyone else |
| `ChatAnswers.QuitAnswers` | internal/service/group/group.go:182-191 | quitting is refused exactly for whoever is not a member |
| `ChatAnswers.CreateLeaves` | internal/service/group/group.go:115-132 | a new group is not dismissed and has exactly its roster, one owner among plain members, each with a row from the first seq on; no other member or row changes |
| `ChatAnswers.CreateAnswers` | internal/service/group/group.go:121-132 | creating fails exactly when the group id or one of its rows exists, and changes nothing then |
| `ChatAnswers.PullAnswers` | internal/service/message/message.go:369-398 | in every reachable state which pulls are refused and with which error, and otherwise which seqs, how many of them for which page size, and whether more are left |
| `ChatAnswers.VisibleIsCovered` | internal/service/conv/cursor.go:36-48 | what a row covers up to the end of its conversation is what lies between its lower bound and its visible max |
| `ChatStamps.StampFallsExactly` | internal/service/group/group.go:166-173 | a step lowers a row's sort key if and only if it is a committed join of that user and group with a clock behind the key |
| `ChatStamps.StampsRiseExactly` | internal/store/storetest/mem_message.go:76-101 | along a run from any reachable state the sort key of a row, there at the start or still to come, never falls behind what it was if and only if no join in the run is backdated, through leaving, deletion and rejoining |
| `ChatClocks.RunWhole` | internal/store/store.go:14 | when every clock reads whole milliseconds, so does every stamp of every row and conversation after every run |
| `ChatClocks.ClockedIs` | internal/store/store.go:14 | so every state such a run is in holds only rows a list cursor can name |
| `ChatLists.StepLists` | internal/service/message/message.go:307-324 | every step keeps the rows of single chats open, and every row sorted no earlier than what it shows |
| `ChatLists.PartiesSeeTheirMessages` | internal/service/message/message.go:310-314 | in every reachable state a single-chat message is listed for and visible to both its parties |
| `ChatLists.ListFollowsMessages` | internal/service/message/message.go:307-324 | in every reachable state no row is listed behind a message it shows its owner, whoever sent, joined, left or read in between |
| `ChatLists.MarkReadTakesEffect` | internal/service/conversation/conversation.go:50-76 | whatever runs between the two halves of a MarkRead that asks for something visible past the cursor, its advance leaves the cursor at the furthest of where it got to and what was asked for and visible at the start, and moves nothing else |
| `ChatLists.ReadBeginWaits` | internal/service/conversation/conversation.go:50-68 | a MarkRead goes on to its advance if and only if something past the cursor is both asked for and visible, with the smaller of the two as its target, and moves nothing before |
| `ChatPull.SliceIsExact` | internal/store/storetest/mem_message.go:51-62 | on a gapless log a range query returns exactly the seqs of the range in order |
| `ChatPull.PullIsExact` | internal/service/message/message.go:369-398 | Pull returns the first page of the visible part of the range and says exactly whether more is left |
| `ChatPull.QuietRun` | internal/service/message/message.go:158-183 | while only sends and reads happen, a user's bounds stay and the log only grows |
| `ChatPull.PulledIsStored` | internal/service/message/message.go:369-398 | every message of an answer is stored |
| `ChatStore.Mem.GetMessageByClientId` | internal/store/storetest/mem_message.go:14-23 | the loop finds the first message with the key, or none exists |
| `ChatStore.Mem.InsertMessage` | internal/store/storetest/mem_message.go:25-40 | stores the message exactly when no unique key collides, else changes nothing |
| `ChatStore.Mem.ListMessages` | internal/store/storetest/mem_message.go:51-62 | filters, sorts and cuts as the model does |
| `ChatStore.Mem.TouchUserConversation` | internal/store/storetest/mem_message.go:76-89 | first contact opens a row; updated_at and read_seq only move forward |
| `ChatStore.Mem.TouchConversationMembers` | internal/store/storetest/mem_message.go:91-101 | moves updated_at of exactly the unbounded rows of the conversation, forward only |
| `ChatStore.Mem.AdvanceReadSeq` | internal/store/storetest/mem_message.go:103-112 | moves read_seq forward, or does nothing without a row |
| `ChatStore.Mem.LockConversation` | internal/store/storetest/mem_group.go:113-122 | creates the conversation row on first use and returns it |
| `ChatStore.Mem.VisibleOwners` | internal/store/storetest/mem_group.go:169-179 | keeps, in order, the ids whose row covers the seq |
| `ChatStore.Mem.CountGroupMembers` | internal/store/storetest/mem_group.go:91-101 | counts exactly the member rows of the group |
| `ChatStore.Mem.CreateUserConversations` | internal/store/storetest/mem_group.go:248-268 | inserts every row, or none when an owner repeats or already has one |
| `ChatStore.Mem.UpsertUserConversation` | internal/store/storetest/mem_group.go:148-160 | the row takes bounds, cursor and sort key from the caller, an existing one keeps its peer and group, a new one is the caller's, and no other row changes |
| `ChatStore.Mem.TouchConversations` | internal/service/message/message.go:307-324 | touches both rows of a single chat, or the members and the sender's cursor of a group |
| `ChatStore.Mem.SendInTx` | internal/service/message/message.go:158-183 | the locked transaction, with its membership re-check, next seq and rollback, does what the model says |
| `ChatStore.Mem.CreateInTx` | internal/service/group/group.go:121-132 | Create's transaction and its rollback do what the model says |
| `ChatStore.Mem.JoinInTx` | internal/service/group/group.go:152-174 | Join's transaction and its rollback do what the model says |
| `ChatStore.Mem.RemoveInTx` | internal/service/group/group.go:213-254 | remove's transaction and its rollback do what the model says, for quit and kick |
| `ChatServices.Roster` | internal/service/group/group.go:88-113 | the owner and the invited, each once, or the first of: texts or ids that are not valid, more people than the limit, someone without a user |
| `ChatServices.Create` | internal/service/group/group.go:87-138 | refuses exactly for those reasons, creates the group with exactly those people, or leaves the store as it was |
| `ChatServices.Commit` | internal/service/message/message.go:157-208 | the answer, the store and the published message after the transaction and the re-read that follows a collision; an ack carries the ids, seq and time of the published message |
| `ChatServices.Send` | internal/service/message/message.go:127-208 | an ack carries the server id, conversation, seq and time of a stored message under the request's key and only that message is published; when a message is added the ack names the minted id, the request's conversation and the old max_seq plus one; a retry changes nothing and needs quota and the right to send only for its republication; every refusal leaves the store alone |
| `ChatServices.SendRefusals` | internal/service/message/message.go:326-349 | which requests pass validation and the lookup of their target, and which error the others get |
| `ChatServices.CreateRefusals` | internal/service/group/group.go:88-113 | which groups may be created, and which error the others get |
| `ChatServices.MarkRead` | internal/service/conversation/conversation.go:50-76 | answers and leaves the later of the old cursor and what was asked for and is visible, changes nothing else, leaves nothing unread after a call at or past the visible max, and refuses exactly a seq below 1 and a missing row |
| `ChatServices.Pull` | internal/service/message/message.go:369-398 | answers as the model does |
| `WebSync.CheckPage` | web/src/client/sync.ts:31-41 | accepts a page exactly when it continues the range without a gap |
| `WebSync.Synchronize` | web/src/client/sync.ts:10-46 | the loop commits exactly the pages the specification commits and ends the same way; its first commit hands over nothing and keeps a cursor that lies in the range or just before it |
| `WebSync.AnyServer` | web/src/client/sync.ts:10-46 | whatever the server answers, the sync begins at a cursor that lies in the range, just before a range ahead of it, at the end of one behind it; commits are contiguous from there, stay within max_seq, and end normally exactly at max_seq |
| `WebSync.SyncEndsBecause` | web/src/client/sync.ts:19-46 | a sync ends at max_seq, or for exactly one of three reasons: the request after its last commit failed, brought nothing, or did not continue the range |
| `WebSync.HonestServer` | web/src/client/sync.ts:10-46 | when only sends follow the bounds, it never raises its continuity error and hands over exactly what lies after the cursor, or in the range if that is ahead of it, up to max_seq, once each, in order, for every page size |
| `WebSync.EndToEnd` | internal/service/message/message.go:369-398 | the same against every database a run reaches without a membership change after the bounds were read |
| `WebSync.MergeMessages` | web/src/client/sync.ts:4-8 | one message per seq, the newest incoming one in preference, strictly rising by seq |
| `WebClient.RunGood` | web/src/client/client.ts:331-445 | every interleaving of pushes with the steps of a refresh keeps the cursor invariants |
| `WebClient.CursorHasNoGap` | web/src/client/client.ts:430-445 | every seq from the tracked min_seq to the cursor has been received, in every reachable state |
| `WebClient.RefreshEndsAtMax` | web/src/client/client.ts:331-369 | a refresh that ends normally leaves every cursor at its final round's max_seq |
| `WebClient.RefreshCatchesUp` | web/src/client/client.ts:331-445 | after a refresh that ends normally every seq the server reported visible has been received |
| `WebClient.CursorFallsExactly` | web/src/client/client.ts:430-445 | a step lowers a cursor if and only if its range begins and ends below it or a page arrives for a pull that a push has overtaken |
| `WebClient.RangeBegins` | web/src/client/sync.ts:17-24 | a range begins at a cursor within it and asks for the seq after it, and moves no other cursor |
| `WebClient.PageIsKept` | web/src/client/sync.ts:20-46 | a page that continues the pull is received whole and the pull goes on behind it until max_seq; any other ends the refresh and moves no cursor |
| `WebClient.PushIsNext` | web/src/client/client.ts:498-532 | a push is taken if and only if it is the next seq of a listed conversation, asks a refresh in progress for another round, and is otherwise without effect |
| `WebClient.RoundsFollow` | web/src/client/client.ts:331-346 | a refresh begins when there is none, otherwise the one in progress goes round again at its end, and only then |
| `WebClient.ListsAreTracked` | web/src/client/client.ts:401-429 | exactly the listed conversations are tracked, each with its fresh bounds where they came |
| `WebWorld.ListsAreCurrent` | web/src/client/client.ts:401-429 | lists and bounds answered by the running services since the round began never report a min_seq below what the client knows, and bounds none below their list |
| `WebWorld.StepSound` | web/src/client/client.ts:331-532 | every step of the services, of the client and of its local storage keeps the client's cursors, bounds and messages true to the services |
| `WebWorld.CursorHasNoGapEndToEnd` | web/src/client/client.ts:430-445 | through any sessions, refreshes, pushes, joins and leaves, every seq from the tracked min_seq to the cursor was received and is in the services' log |
| `WebWorld.RefreshCatchesUpEndToEnd` | web/src/client/client.ts:331-369 | for every conversation of a refresh that ends normally there is a moment since its last round began such that everything visible at that moment was received |
| `WebWorld.RoundTraverses` | web/src/client/client.ts:386-399 | the MaxSeqs calls of a round are a traversal of the user's rows, page by page at the moments they were answered, and the bounds are exactly what it lists |
| `WebWorld.RoundCoversExactly` | web/src/client/client.ts:386-399 | a round works on a conversation if and only if its key lay in the window of some page at the moment of that page |
| `WebWorld.UntouchedIsCovered` | web/src/client/client.ts:386-399 | a conversation whose row is not touched while the pages are answered is one the round works on |
| `WebWorld.RefreshMissesNothingStill` | web/src/client/client.ts:331-369 | after a refresh that ends normally, everything of such a conversation that was visible at some moment of the last round was received |
| `WebWitness.TouchedIsNotCaughtUp` | web/src/client/client.ts:331-399 | requests the services let through, and a refresh along them that ends normally without a message the user could see before it began and whose conversation they had at every page |
| `WebImClient.ImClient.ApplyPush` | web/src/client/client.ts:498-532 | takes exactly the next seq of a tracked conversation, marks a round in progress dirty, changes nothing otherwise, and says when a full sync is needed |
| `WebImClient.ImClient.Refresh` | web/src/client/client.ts:331-345 | joins a refresh in progress by asking for another round, or begins one |
| `WebImClient.ImClient.AdoptLists` | web/src/client/client.ts:401-429 | every listed conversation takes its fresh bounds |
| `WebImClient.ImClient.StartRange` | web/src/client/sync.ts:17-18 | keeps a cursor within the range, raises it to one ahead, cuts it to the end of one behind, and asks for what follows; it never lowers a cursor that is at most max_seq |
| `WebImClient.ImClient.ReceivePage` | web/src/client/client.ts:430-445 | commits a page exactly when it continues the range, otherwise fails the refresh without moving the cursor |
| `WebImClient.ImClient.EndRound` | web/src/client/client.ts:341-346 | goes round again exactly when a push or a caller asked for it |
| `ByteBudget.StepBooks` | internal/gateway/client.go:98-147 | every step of every goroutine keeps the node counter equal to queued plus in-transit bytes |
| `ByteBudget.CounterBalances` | internal/gateway/budget.go:5-15 | in every reachable state the counter is the queued bytes of all connections plus what is in transit, and never negative |
| `ByteBudget.ClosedNodeOwesNothing` | internal/gateway/client.go:77-90 | with every connection closed and nothing in transit the counter is zero |
| `ByteBudget.OpenConnectionOwesItsFrames` | internal/gateway/client.go:214-228 | an open connection is charged for exactly the frames it has not written |
| `ByteBudget.TryTakeExactly` | internal/gateway/budget.go:22-29 | a push is charged if and only if there is no cap or its bytes stay within it |
| `ByteBudget.EnqueueExactly` | internal/gateway/client.go:129-147 | a charged frame is queued if and only if its connection is open and its channel has room |
| `SendQueue.SendBudget.TryTake` | internal/gateway/budget.go:22-29 | charges exactly when the node stays within its cap, else counts a drop and changes nothing |
| `SendQueue.Connection.QueueFrame` | internal/gateway/client.go:129-147 | queues the charged frame or gives its bytes back, and tells full from closed |
| `SendQueue.Connection.Send` | internal/gateway/client.go:98-127 | never changes what the counter holds for others; a full queue closes the connection |
| `SendQueue.Connection.Push` | internal/gateway/client.go:106-116 | over the cap the frame is replaced by a resync; the counter stays balanced |
| `SendQueue.Connection.Receive` | internal/gateway/client.go:184-191 | the writer takes the oldest frame out of the channel and still owes its bytes |
| `SendQueue.Connection.Settle` | internal/gateway/client.go:214-228 | releases a written frame's bytes once, and none after close |
| `SendQueue.Connection.Close` | internal/gateway/client.go:77-87 | releases what is still queued in one piece and leaves nothing for a second close |
| `SendQueue.Connection.QueueOnlineSnapshot` | internal/gateway/presence.go:470-483 | what becomes of a presence frame: refused by the budget, queued, turned away by a full queue or by a closing one; the counter stays balanced |
| `BudgetRefinement.SendLeads` | internal/gateway/client.go:98-127 | a send, with any charges of others in transit, is a run of the machine: charge, queue or give back, close when full |
| `BudgetRefinement.PushLeads` | internal/gateway/client.go:106-116 | so is a push, with the resync it sends instead when the node cannot afford it |
| `BudgetRefinement.Node.constructor` | internal/gateway/budget.go:5-20 | budget and connections start out showing the machine's initial state |
| `BudgetRefinement.Node.Connect` | internal/gateway/client.go:47-66 | a new connection takes the objects one step of the machine further |
| `BudgetRefinement.Node.Send` | internal/gateway/client.go:98-127 | a send takes them along a run of the machine, and moves only this queue and the counter, by the same bytes |
| `BudgetRefinement.Node.Push` | internal/gateway/client.go:106-116 | so does a push |
| `BudgetRefinement.Node.Receive` | internal/gateway/client.go:184-191 | so does the writer taking a frame |
| `BudgetRefinement.Node.Settle` | internal/gateway/client.go:214-228 | so does the accounting after a write |
| `BudgetRefinement.Node.Close` | internal/gateway/client.go:77-87 | so does a close, the first or a later one |
| `BudgetRefinement.Node.Charge` | internal/gateway/client.go:98-104 | so does the charge of a send that others interrupt before its frame is queued |
| `BudgetRefinement.Node.TryCharge` | internal/gateway/budget.go:22-29 | so does the charge of a push, or nothing moved |
| `BudgetRefinement.Node.QueueFrame` | internal/gateway/client.go:129-147 | so does queueing a frame charged before |
| `BudgetRefinement.Node.QueuedBytes` | internal/gateway/budget.go:5-15 | what the running counter says is what the connections hold and what is in transit, and zero once all are closed and nothing is |
| `SlotModel.ReleaseUndoesReserve` | internal/gateway/usermap.go:47-73 | in every reachable state releasing undoes reserving if and only if the user id is not empty |
| `SlotModel.StepTallies` | internal/gateway/usermap.go:47-140 | every step keeps every counter equal to the outstanding reservations and adopted clients it counts |
| `SlotModel.CountersAreHolders` | internal/gateway/usermap.go:47-73 | total, per-user, per-token and per-address counters equal their holders and never exceed a positive limit |
| `SlotModel.GrantedExactly` | internal/gateway/usermap.go:41-65 | in every reachable state a slot is granted if and only if the node is not draining and no positive limit on its node, user, token or address is used up by the outstanding reservations and clients; which error otherwise |
| `SlotModel.FirstSettles` | internal/gateway/upgrade.go:17-29 | whichever of the upgrade and a release comes first to a reserved slot has it, and whatever comes later changes nothing |
| `SlotModel.AdoptExactly` | internal/gateway/usermap.go:92-114 | a claimed client is listed last among its user's if and only if it is open and the node is not draining; otherwise its slot goes back |
| `SlotModel.SlotReturnsOnce` | internal/gateway/upgrade.go:8-29 | each slot is given back exactly once, whichever of claim, release, failed adopt or close wins |
| `SlotModel.GoneStaysGone` | internal/gateway/upgrade.go:17-29 | whatever run follows, a returned slot is never returned or held again |
| `SlotModel.RegisteredAreOpen` | internal/gateway/usermap.go:98-140 | a client is registered under a user if and only if it is adopted and that user's, and none whose close has finished is |
| `SlotModel.ClosedNodeOnlyShrinks` | internal/gateway/usermap.go:116-123 | after Close no run raises the total or registers anyone |
| `UserMaps.UserMap.Reserve` | internal/gateway/usermap.go:41-65 | refuses in the source's order of checks and counts nothing, or counts the slot everywhere |
| `UserMaps.UserMap.Release` | internal/gateway/usermap.go:67-79 | takes the slot off every counter it was counted in |
| `UserMaps.UserMap.Adopt` | internal/gateway/usermap.go:92-114 | registers the client, or returns the slot of a closed client or a draining node |
| `UserMaps.UserMap.Register` | internal/gateway/usermap.go:82-89 | reserves and adopts in one step, or leaves no trace |
| `UserMaps.UserMap.Unregister` | internal/gateway/usermap.go:125-140 | removes a registered client and its slot, and ignores anyone else |
| `UserMaps.UserMap.Close` | internal/gateway/usermap.go:116-123 | refuses further registrations and returns exactly the registered clients |
| `UserMaps.Reservation.Claim` | internal/gateway/upgrade.go:17-23 | one caller wins |
| `UserMaps.Reservation.Release` | internal/gateway/upgrade.go:25-29 | returns the slot unless someone settled before |
| `SlotRefinement.RegisterGoes` | internal/gateway/usermap.go:82-89 | registering without a reservation is a run of the machine: reserve, claim and adopt, or nothing |
| `SlotRefinement.Admission.constructor` | internal/gateway/usermap.go:26-39 | registry, reservations and clients start out showing the machine's initial state |
| `SlotRefinement.Admission.Reserve` | internal/gateway/usermap.go:41-65 | a handshake's reservation takes the objects one step of the machine further |
| `SlotRefinement.Admission.Release` | internal/gateway/upgrade.go:25-29 | the end of a request takes them along a run of the machine, which gives the slot back if nobody settled before |
| `SlotRefinement.Admission.Claim` | internal/gateway/upgrade.go:17-23 | so does a claim, which wins exactly when the slot is still reserved |
| `SlotRefinement.Admission.Adopt` | internal/gateway/usermap.go:92-114 | so does an adopt, which succeeds exactly when the client is listed after it |
| `SlotRefinement.Admission.Register` | internal/gateway/usermap.go:82-89 | so does a registration, and one turned away leaves no trace |
| `SlotRefinement.Admission.CloseChannel` | internal/gateway/client.go:77-90 | so does a client closing |
| `SlotRefinement.Admission.Unregister` | internal/gateway/usermap.go:125-140 | so does the rest of its close |
| `SlotRefinement.Admission.Close` | internal/gateway/usermap.go:116-123 | so does the node closing, which returns exactly the clients the machine has adopted |
| `RedisOnline.RenewShows` | internal/onlinestore/redis/redis.go:55-87 | after a renewal Online shows the renewed rows and exactly the other rows it showed before |
| `RedisOnline.RevivedIsExact` | internal/onlinestore/redis/redis.go:55-87 | a row is reported revived exactly when the batch names it and Online would not have shown it |
| `RedisOnline.RevivedOnce` | internal/onlinestore/redis/redis.go:80-86 | no row is reported twice, whatever the batch repeats |
| `RedisOnline.PlatformSurvives` | internal/onlinestore/redis/redis.go:38-40 | Online reads back the platform Add wrote |
| `RedisOnline.MembersDiffer` | internal/onlinestore/redis/redis.go:38-40 | on one node no two connections share a member |
| `RedisOnline.Store.Add` | internal/onlinestore/redis/redis.go:42-48 | the member of this connection has this score, and no other row of anyone changes |
| `RedisOnline.Store.Remove` | internal/onlinestore/redis/redis.go:50-53 | the member of this connection is gone, and no other row of anyone changes |
| `RedisOnline.Store.Renew` | internal/onlinestore/redis/redis.go:55-87 | the pipeline and the collection of its replies do what the specification says |
| `RedisExpiry.StepTimely` | internal/onlinestore/redis/redis.go:42-79 | every write keeps each key's deadline a ttl past each of its scores |
| `RedisExpiry.WrittenIsShown` | internal/onlinestore/redis/redis.go:42-79 | a connection added or renewed is shown for exactly a ttl from then on, one removed not at all |
| `RedisExpiry.ExpiryIsInvisible` | internal/onlinestore/redis/redis.go:42-79 | over every history of adds, removes, renewals and key expiries Online shows the same rows as if no key ever expired |
| `RedisOnline.Store.Online` | internal/onlinestore/redis/redis.go:89-114 | lists exactly the platforms with an unexpired row, each once |
| `Registration.StepGood` | internal/gateway/gateway.go:235-399 | no step under the presence lock is ever about to write the member of a removed connection, and no sorted set holds one |
| `Registration.NoResurrection` | internal/gateway/gateway.go:283-320 | once a closed connection's Remove succeeded its member is in no sorted set, then and after every later run |
| `Registration.RemovedIsNeverShown` | internal/onlinestore/redis/redis.go:89-114 | so Online never shows it again, at any time |
| `Registration.ChecksPrecedeWrites` | internal/gateway/gateway.go:272-281 | only a connection that was live under the lock ever becomes writable |
| `Registration.Presence.AddOnline` | internal/gateway/gateway.go:272-281 | writes and flags the connection exactly when it is live, not yet added and the store accepts |
| `Registration.Presence.OnlineAdd` | internal/gateway/gateway.go:235-265 | a run of the machine, in which contexts may end between the two checks; the connection is written and flagged, and its user announced, exactly when it is live at the second check, not yet registered and the store call takes effect or succeeds |
| `Registration.Presence.OnlineRemove` | internal/gateway/gateway.go:283-320 | a run of the machine that takes exactly this row away when the call takes effect; a success marks the connection removed |
| `Registration.Presence.Renew` | internal/gateway/gateway.go:350-385 | a run of the machine whatever the pipeline and the retries come to and whichever contexts end meanwhile; after a pipeline that succeeds every client live before it has a row with the new score; changed are exactly the revived and the newly registered, and every live client whose own retry succeeds is registered, whichever others fail |
| `Base64.StringRoundTrip` | internal/service/conv/cursor.go:13-24 | every byte string survives base64url without padding (section 5 of RFC 4648) |
| `Base64.GroupIsNumber` | internal/service/conv/cursor.go:13-24 | three bytes and their four sextets are the same 24-bit number, and a shorter last group is filled up with zeros |
| `Base64.CharsAreTheAlphabet` | internal/service/conv/cursor.go:13-24 | the sextets are written in the URL-safe alphabet of RFC 4648 |
| `ListCursors.CursorRoundTrip` | internal/service/conv/cursor.go:13-34 | a cursor survives the wire if and only if its time is whole milliseconds and its id is not empty, colons included |
| `ListCursors.CursorText` | internal/service/conv/cursor.go:12-15 | what is on the wire is base64 of the milliseconds, a colon and the id |
| `ListCursors.DecodeOfEncode` | internal/service/conv/cursor.go:13-34 | what decoding an encoded cursor gives in every other case |
| `Paging.ListRows` | internal/store/storetest/mem_message.go:114-131 | filters and sorts: the rows after the cursor, all of them, newest first |
| `Paging.ListPage` | internal/service/conv/page.go:15-36 | a page skips nothing before its last row, is full when more is left, and comes with the cursor of its last row |
| `Paging.PageSizeIs` | internal/service/conv/page.go:20-24 | the rows of a page: as many as asked for within the server's maximum, else that maximum, and at least one |
| `Paging.NextLeadsOn` | internal/service/conv/page.go:15-36 | that cursor leads exactly to where the page ended |
| `Paging.NextMovesOn` | web/src/client/client.ts:381-398 | a client that gives up on a next cursor that is empty or the one it sent never has to |
| `Paging.CallsTraverse` | internal/service/conv/page.go:15-36 | a client that hands each cursor string back as it came makes a traversal |
| `Paging.ListedIsDescending` | internal/service/conv/page.go:15-36 | a traversal lists rows in strictly descending order across pages, whatever changes in between |
| `Paging.NothingListedTwice` | internal/service/conv/page.go:15-36 | a conversation whose updated_at never goes back is listed at most once, whatever else changes between the pages |
| `Paging.UntouchedIsListed` | internal/service/conv/page.go:15-36 | a conversation that is not touched during the traversal is listed |
| `Paging.RelistedExactly` | internal/service/conv/page.go:15-36 | a conversation whose row stays put from the next page on is listed from there on if and only if its key lies after the page's last row |
| `Paging.ListedExactly` | internal/service/conv/page.go:15-36 | whatever changes between the pages, a conversation is listed if and only if at the moment of some page its key lies after that page's cursor and not past its last row |
| `ListRuns.ListedOnceAlongRuns` | internal/service/conv/page.go:15-36 | paging while the services run, on clocks of whole milliseconds, lists a conversation the user has at the start or gets later at most once, unless a rejoin of theirs is backdated |
| `ListRuns.RejoinMovesKey` | internal/service/group/group.go:152-254 | leaving and rejoining moves exactly that conversation's key, to the clock of the rejoin |
| `ListRuns.RejoinRelists` | internal/service/group/group.go:172-173 | paging across a rejoin lists its conversation again if and only if the rejoin's stamp lies after the page already seen |
| `ListWitnesses.BackdatedRejoinListsTwice` | internal/service/group/group.go:172-173 | requests the services let through, and two pages of a user along them, that list one conversation twice |
| `ListWitnesses.TouchedIsMissed` | internal/service/conv/page.go:15-36 | requests the services let through, and the pages of a user along them, that never list a conversation the user has throughout |
| `Identity.ParseUndoesFormat` | internal/identity/identity.go:40-73 | formatting then parsing an actor gives it back if and only if its id is positive |
| `Identity.FormatUndoesParse` | internal/identity/identity.go:51-73 | every id that parses is the one spelling of its actor |
| `Identity.ValidIds` | internal/identity/identity.go:79-94 | an id is valid if and only if it parses as an actor's or is the native prefix followed by a canonical UUID |
| `Identity.SingleIsCanonical` | internal/service/conv/convid.go:5-10 | two single conversation ids of valid users agree exactly when the unordered pairs agree |
| `ConvIds.SingleIsNotGroup` | internal/service/conv/convid.go:5-12 | no single id equals a group id |
| `ConvIds.SingleIs` | internal/service/conv/convid.go:5-10 | either order of two users gives the prefix, the smaller id, a colon and the larger |
| `NodePairs.PairsCrossNodes` | deploy/load/main.go:76-85 | for every n >= 2 each pair sits on two different nodes |
| `NodePairs.PlacementIsInjective` | deploy/load/main.go:76-85 | different pairs sit on different ordered pairs of nodes |
| `NodePairs.PlacementIsSurjective` | deploy/load/main.go:76-85 | every ordered pair of distinct nodes is used |

## Left out

- PresenceStale.StaleStandsAlone: the outcome of the budget and the queue is an input of each completion; `SendQueue.Connection.QueueOnlineSnapshot` is where it comes from.
- PresenceTheorems.NoLostWakeup: the bound counts the lag between the dispatcher reading the clock and arming its timer, because the code reads the clock before it resets the timer.
- PresenceNode.OnlineSubscriptions.SetSubscriptions: sorting and compacting the ids is a set.
- ChatServices.Create: the texts themselves are checked and not stored, and the change notification is not modelled.
- ChatServices.Send: the limiter's answer and the checks of trailing whitespace, content type and JSON are inputs, and offline push is not modelled; requests that interleave are steps of ChatRuns.
- RedisExpiry.ExpiryIsInvisible: takes clocks of nodes and Redis that agree and a positive ttl.
- Registration.NoResurrection: a store call that returned an error has taken effect by then or never does; a write the server applies after the call gave up is not modelled.
- WebWorld.RefreshCatchesUpEndToEnd: speaks of the conversations the last round works on; which those are is `WebWorld.RoundCoversExactly`.
- WebWorld.RoundCoversExactly: takes services whose clocks read whole milliseconds, as store.NowMs does, and `WebWorld.UntouchedIsCovered` a sort key before the year 9999, where the first page begins.
- WebWitness.TouchedIsNotCaughtUp: the server's page limit is one row, so that two conversations make two pages.
- PresenceProgress.OverdueHasItsTurn: passes are counted, not time; when a pass finds a slot and a token is up to the readers and the limiter.
- BudgetRefinement.Node: one call at a time, or the two halves of a send with others between them; the machine of ByteBudget interleaves every atomic step.
- WebClient.CursorHasNoGap: takes from the server that a user's min_seq never decreases, which WebWorld.ListsAreCurrent proves of the running services.
- Registration.Presence.Renew: which users are published to the bus is the returned connections; the publication itself is not modelled.
- Paging.ListPage: its cursor is proved exact for rows a cursor can name (whole milliseconds, a non-empty id), which is what the services store.
- SlotModel.CountersAreHolders: takes a non-empty user id and at most one adopt per client.
- SQL drivers, gorm, pgx and migrations: only the row semantics are modelled.
- Bus transports, JWT, passwords, HTTP handlers, configuration, logging and the SDK.
- Kick arbitration between nodes, token rechecks, inbound frame limits, and the ping loop.
- Read receipts, message previews, mute and pin options, and the conversation list items beyond their counters.
- React components, reconnect timers, message history paging and the displayed message window of the web client.
- The internals of golang.org/x/time/rate beyond the moment of the next token.
