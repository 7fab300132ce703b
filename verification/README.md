# Proofs about cotamer and its example protocols

This project models the concurrency core of the cotamer library and the protocols built on it, and proves
what they are for. `dafny verify dfyconfig.toml` checks all of it.

- **Chandra-Toueg consensus** (`Ct*.dfy`). `CtServer` cuts the coroutine of a server at its sends and
  waits, `CtSystem` puts any number of servers on a network that delays, reorders and loses messages,
  `CtProofs` and `CtAgreement` keep the invariant, `CtTheorems` draws agreement, the colour lock, validity
  and conservation of messages from it, `CtRefusals` and `CtProposals` say when a leader fails to decide and
  what it proposes, `CtProgress` that everybody can decide, `CtNancy` and `CtOutcome` are about the observer,
  and `CtServerTask` is the server as an object, proved to take the steps of the system.
- **The Pancy database and the lock-sequence clients.** `Pancydb` is the versioned database, as steps and
  as an object; `PancyTrace` is what its clients see; `PancyDiff` compares two databases and `PancyDiffExact`
  says exactly what it reports. `LockseqClient`, `LockseqSystem`, `LockseqProof` and
  `LockseqTheorem` prove that whatever clients with lossy channels do, the database passes the test that
  `LockseqCheck` shows to decide the documented layout; `LockseqProgress` proves what a client gets done, and
  `LockseqContention` what contention does to it. `LockseqKeys`, `LockseqDigits` and `Strings` are about keys.
- **Primary-backup replication** (`Backup*.dfy`): one history, on any network, with promotion at any time;
  `BackupChannels` and `BackupProgress` prove that requests can always be answered.
- **The mutex** (`Mutex*.dfy`): every load, compare-exchange and store of every thread is a step;
  `MutexObject` is the object, updated in place, and says what each operation comes to; `MutexProgress` proves
  that everybody who waits can be served.
- **Quorum events** (`Event*.dfy`): the graph of events, the steps that change it, the re-entrant
  trigger, and the fixing of `interest{}`.
- **Watched descriptors** (`WatchLists.dfy`, `FdEventSet.dfy`): linked lists threaded through arrays.
- **Waking a driver** (`WakeSystem.dfy`, `WakeProgress.dfy`): handing over events between threads, and when
  the driver sleeps.
- **The timer heap** (`HeapOrder.dfy`, `TimerHeap.dfy`): a stable priority queue with a wrapping counter,
  and the history of what was put in and taken out.
- **URLs and queries** (`FormParser.dfy`, `HttpMessage.dfy`): the one-pass parser against section 5.1 of
  the WHATWG URL Standard; `FormEncoding` and `HttpQuery` send what it reads.

Protocols are state machines: `Enabled` and `Apply` say which events can happen and what they do, a run is
a sequence of states each of which follows from the one before by some event, and the theorems are about
every state of every run. What a system can do is shown by lemmas that extend a given
run, or build one. Classes are the program's objects, and their methods are proved against the same step
functions.

Where the code and what is written about it differ, the model follows the code:

- The comment says that a lock-sequence client must not be waiting for itself, but the test throws when the lock is
  held by *another*
  client (`pset3/lockseq_model.cc:87-90`), so a client throws under contention instead of retrying
  (`LockseqTheorem.OnlyContentionKills` says exactly when, `LockseqContention.LoserThrows` how).
- The comment on unlocking speaks of a compare-and-swap loop; the request is a removal that names the version
  (`pset3/lockseq_model.cc:165-173`).
- A get never answers "not found", since the lookup of a missing key yields the shared absent record
  (`pset3/pancydb.cc:7-13`).
- `check` lets a lock with an empty value count as unlocked (`pset3/lockseq_model.cc:284-286`), and
  `parse_digits` misses overflows that wrap to a larger number (`LockseqDigits.OverflowReported` says exactly
  which, `LockseqDigits.MissedOverflow` gives one).
- The comment on `take_watch_list` promises watches of a different epoch; the code returns none of the list
  when the epoch differs (`cotamer/event_handle.hh:84-90`, `cotamer/cotamer_impl.hh:1882-1884`).
- `make_info` never sets the flag saying that the parts of the URL are known, so they are found again each
  time (`cotamer/http.cc:234`).
- The shared fast-path unlock does not serve a sharer queued behind an exclusive request that has been given
  up; the next operation that takes the latch does, at the latest the unlock of the last owner
  (`MutexObject.FastAgrees` says exactly when, `MutexObject.LagExample` how, `MutexObject.LastIsSlow` until when).

## Model

| member | source | states |
|---|---|---|
| CtServerTask.ServerTask.ScanStash | pset2/ctconsensus.cc:78-114 | the loop of `receive` over the stash: messages present at entry are looked at once, oldest first, re-stashed ones are not; the fields end up as the step functions, run to the next wait, say |
| CtServerTask.ServerTask.Handle | pset2/ctconsensus.cc:92-113 | one message in `receive`: a DECIDE decides, a wanted one is returned, another of this or a later round is stashed, an older one dropped |
| CtServerTask.ServerTask.Resume | pset2/ctconsensus.cc:131-189 | what each phase does with the message `receive` returns, and where the coroutine goes on |
| CtServerTask.ServerTask.Proceed | pset2/ctconsensus.cc:119-207 | every segment between two waits: packet sent, fields, next phase |
| CtServerTask.ServerTask.Deliver | pset2/ctconsensus.cc:89-113 | a network message taken by a waiting `receive`, then the rest of the segment |
| CtServerTask.ServerTask.Expire | pset2/ctconsensus.cc:157-170 | the failure detector wins: a negative acknowledgement is due; the stash and all else stay |
| CtServerTask.SettleIsRun | pset2/ctconsensus.cc:78-114 | scanning the stash in one go is a run of single steps of the system in which the theorems are proved |
| CtAgreement.RunInv | pset2/ctconsensus.cc:119-207 | the invariant of the protocol holds in every state of every run, for every number of servers, with delay, reordering, loss and stopped servers |
| CtTheorems.MajoritiesMeet | pset2/ctconsensus.cc:131-141 | two sets of more than N/2 servers share one |
| CtTheorems.ColorLock | pset2/ctconsensus.cc:131-189 | once more than N/2 servers have sent ACK(r, true), every PROPOSE of a round from r on has the colour of round r: induction over rounds through a server in both quorums |
| CtTheorems.ChosenUnique | pset2/ctconsensus.cc:173-189 | at most one colour is ever chosen by a majority of acknowledgements |
| CtTheorems.Agreement | pset2/ctconsensus.cc:119-207 | no two DECIDE messages ever sent in a run carry different colours |
| CtTheorems.LockedForever | pset2/ctconsensus.cc:131-189 | the colour lock between any two moments of a run |
| CtTheorems.Validity | pset2/ctconsensus.cc:198-206 | every colour in a run, so every decided one, is the initial colour of some server |
| CtTheorems.Conservation | pset2/ctconsensus.cc:78-114 | a message of the current or a later round is in the network, in the stash or returned by `receive`, in exactly one of these places, and never twice in the stash |
| CtTheorems.DistinctVoters | pset2/ctconsensus.cc:131-141 | each PREPARE or ACK counted comes from a different server, and a counted positive ACK was sent |
| CtRefusals.UndecidedMeansRefused | pset2/ctconsensus.cc:173-189 | a leader that is past a round without having decided has been sent a negative acknowledgement of it: only a refusal keeps a majority from deciding |
| CtProposals.ProposalFrom | pset2/ctconsensus.cc:131-160 | a leader proposes the colour of its own PREPARE of the round unless another server reported one of a strictly newer round, and then one that was so reported |
| CtProgress.EverybodyDecides | pset2/ctconsensus.cc:119-207 | for every number of servers and all initial colours a run in which every server decides and stops and Nancy hears of all of them |
| CtProgress.OthersDecide | pset2/ctconsensus.cc:119-207 | with three servers or more, whichever one never takes a step, a run in which all others decide |
| CtNancy.RequiredConsensus | pset2/ctconsensus.cc:299-310 | the colour Nancy demands is that of all servers exactly when they start out equal |
| CtNancy.Nancy | pset2/ctconsensus.cc:219-273 | what her verdict says of the messages she received: approval of more than N/2 equal valid DECIDEs, or the first offending message, all before it being equal and acceptable |
| CtNancy.InboxTrue | pset2/ctconsensus.cc:198-206 | whatever reaches Nancy is a DECIDE of a server that has decided that colour |
| CtNancy.InboxDistinct | pset2/ctconsensus.cc:198-206 | no server reports to Nancy twice |
| CtNancy.NancyVerdict | pset2/ctconsensus.cc:219-273 | she never reaches the consensus error, and when she approves, as many distinct servers as she counted, more than N/2, have decided that colour |
| CtOutcome.NancyCanApprove | pset2/ctconsensus.cc:219-273 | from any initial colours a run after which approval is the only verdict on what Nancy holds |
| Pancydb.ProcessValid | pset3/pancydb.cc:31-74 | every request keeps live versions positive, distinct and below the next one, and the recorded removals in order and bounded |
| Pancydb.HistoryLater | pset3/pancydb.hh:97-105 | what a later state keeps of an earlier one: unchanged records, newer versions, and for a vanished key either its recorded removal or a deque filled since |
| Pancydb.VersionIdentifies | pset3/pancydb.cc:31-74 | no ABA: equal live versions of a key at two moments mean the same record at every moment between, removal and re-insertion included |
| Pancydb.MatchedMeansUntouched | pset3/pancydb.cc:31-74 | a modification that names a version succeeds only if the key is untouched since that version was issued |
| PancyTrace.AnswersRight | pset3/pancydb.cc:7-74 | every answer in every history, code, value and both versions, is the right one for what the earlier requests and their answers alone say the key holds |
| PancyTrace.ReadYourWrites | pset3/pancydb.cc:7-13 | a get answers the value of the last successful write of the key and the version which that write answered |
| PancyTrace.ReadAbsent | pset3/pancydb.cc:7-13 | a key never written, or removed since, reads as the empty string with version 0 |
| PancyTrace.FreshVersions | pset3/pancydb.cc:31-62 | every successful write answers a greater version than all before |
| Pancydb.PancyDb.Emplace | pset3/pancydb.hh:92-95 | insertion only when absent, with the next version |
| Pancydb.PancyDb.DoRemove | pset3/pancydb.hh:97-105 | the removal is recorded in front, the deque is cut to 100 entries at the back, the version advances, the key goes |
| Pancydb.PancyDb.Put | pset3/pancydb.hh:120-127 | the direct store is an unconditional put |
| Pancydb.PancyDb.Remove | pset3/pancydb.hh:129-137 | the direct removal is an unconditional remove and says whether the key was there |
| Pancydb.PancyDb.ProcessGet | pset3/pancydb.cc:7-13 | a missing key reads as the shared absent record, with code ok |
| Pancydb.PancyDb.ProcessPut | pset3/pancydb.cc:31-45 | state and answer of a put; the record shared by absent keys is never written although the code works through a pointer to it |
| Pancydb.PancyDb.ProcessCas | pset3/pancydb.cc:47-62 | the same for compare-and-swap, where the empty string matches an absent key |
| Pancydb.PancyDb.ProcessRemove | pset3/pancydb.cc:64-74 | the same for a removal |
| Pancydb.PancyDb.ProcessReq | pset3/pancydb.cc:76-80 | dispatch to the handler of the request |
| PancyDiff.FindRecentRemove | pset3/pancydb.cc:91-100 | the newest recorded removal of the key in the window, or none |
| PancyDiff.DiffNewer | pset3/pancydb.cc:107-154 | the merge walk of two sorted maps reports the first key at which they differ, and none exactly when every key corresponds |
| PancyDiff.Diff | pset3/pancydb.cc:102-106 | with arguments swapped when the other database is newer |
| PancyDiff.NoFalseAlarm | pset3/pancydb.cc:102-155 | a database and an earlier state of its own history at most `version_skew` versions behind never differ, evicted removals included |
| PancyDiff.ExactDiff | pset3/pancydb.cc:83-89 | for any two databases in good order, skew 0 reports nothing exactly when the two maps are equal |
| PancyDiffExact.DiffExact | pset3/pancydb.cc:102-155 | for any two databases in good order and any skew, exactly what is reported, in terms of records, versions and recorded removals: the first key that is not in step, none if every key is |
| PancyDiffExact.LossFound | pset3/pancydb.cc:112-113 | a key that the newer database lost without recording a removal is found, or an earlier one, unless the removals may have been evicted |
| LockseqKeys.ParseDigitsLoop | pset3/lockseq_model.cc:205-225 | the loop with its 32-bit arithmetic and incomplete overflow test |
| LockseqKeys.ParseDec | pset3/lockseq_model.cc:205-225 | it reads back every printed number below its error mark |
| LockseqDigits.ParseExact | pset3/lockseq_model.cc:205-225 | what comes out for any digits: the error mark if the 32-bit value drops at some digit, else the number modulo 2^32 |
| LockseqDigits.RightIfFits | pset3/lockseq_model.cc:205-225 | the result is the number if and only if the number is below 2^32 |
| LockseqDigits.OverflowReported | pset3/lockseq_model.cc:217-220 | of a number that does not fit, exactly when the error mark comes out |
| LockseqDigits.MissedStep | pset3/lockseq_model.cc:217-220 | exactly when an overflow at one digit passes the test |
| LockseqDigits.MissedOverflow | pset3/lockseq_model.cc:217-220 | an input for which it does: 5000000000 is read as 705032704 |
| LockseqKeys.GroupUnique | pset3/lockseq_model.cc:257-276 | a key has one group at most: the part up to the first slash |
| LockseqKeys.SlotOrder | pset3/lockseq_model.cc:228-231 | within a group the map visits the lock first, then the values by index |
| LockseqKeys.KeysInjective | pset3/lockseq_model.hh:50-58 | the keys clients build coincide only for the same group and entry |
| LockseqKeys.ClientPrefix | pset3/lockseq_model.hh:47-49 | a lock value names one client |
| LockseqCheck.Check | pset3/lockseq_model.cc:227-330 | the single pass accepts a database exactly when every key belongs to a group and every group has the documented locked or unlocked layout, an empty lock value counting as unlocked |
| LockseqCheck.PassJudges | pset3/lockseq_model.cc:253-328 | from any reachable point of the pass: acceptance of the rest exactly when the whole layout holds |
| LockseqCheck.StartJudges | pset3/lockseq_model.cc:227-330 | the automaton as a function, for use in the theorems, decides the same layout |
| LockseqClient.ClientTask.StartRound | pset3/lockseq_model.cc:47-61 | a new round: group, value, length, a new serial |
| LockseqClient.ClientTask.Receive | pset3/lockseq_model.cc:66-196 | what the client does with an answer in each of its four phases, exceptions included |
| LockseqClient.ReceiveResponse | pset3/client_model.hh:113-143 | one pass over the shared queue: stale answers of this client go, those of others stay, the first answer to the serial is taken |
| LockseqClient.ScanFilters | pset3/client_model.hh:113-143 | the filter neither loses nor reorders other clients' answers, and finds an answer if there is one |
| LockseqTheorem.ServeHarmless | pset3/pt-single.cc:65-79 | a retried request executed again, or late, changes nothing the layout depends on |
| LockseqTheorem.ServeInv | pset3/pt-single.cc:65-79 | executing the next request of any client keeps the invariant |
| LockseqTheorem.NeverStuck | pset3/pt-single.cc:65-79 | whatever is on its way can be executed |
| LockseqTheorem.RunInv | pset3/lockseq_model.cc:41-196 | the invariant holds in every run: any number of clients, lost requests and answers, late and repeated answers, timeouts at any time |
| LockseqTheorem.ContentsOk | pset3/lockseq_model.cc:227-330 | databases the invariant allows have the documented layout |
| LockseqTheorem.ReachablePasses | pset3/lockseq_model.cc:227-330 | every database reachable by any number of clients passes `check`, with its keys in the order of the map, which exists |
| LockseqTheorem.Exclusion | pset3/lockseq_model.cc:60-93 | a client that believes it has a lock has it, at the version it remembers, and no other client does |
| LockseqTheorem.OnlyContentionKills | pset3/lockseq_model.cc:78-90 | exactly when a client throws on an answer: the lock is not free and its value lacks the client's prefix; the value is then one that some other client writes |
| LockseqClient.ErrorsKill | pset3/lockseq_model.cc:78-173 | exactly which answers make a client throw in each phase |
| LockseqTheorem.LockRecovered | pset3/lockseq_model.cc:76-86 | on any answer a client that asks for a lock goes on to write exactly if the answer is ok or shows its own value, and then the database holds its value at the lock key, at the version it remembers |
| LockseqProgress.RoundCompletes | pset3/lockseq_model.cc:41-196 | a client whose requests get through completes its round on any free group, and the database then holds exactly the sequence it wrote and no lock |
| LockseqProgress.AnswersAdvance | pset3/lockseq_model.cc:93-192 | in every run each answer to a put, removal or unlock takes the client one request further, to unlocking only with exactly its own sequence in the database, and to another removal after a first try only while the old sequence lasts |
| LockseqContention.LoserThrows | pset3/lockseq_model.cc:86-90 | from every start with two clients or more a run in which the second to ask for a lock throws instead of retrying |
| BackupProof.RunInv | pset3/pt-backup.cc:100-188 | the invariant on a network that loses, repeats and reorders, with promotion at any time |
| BackupProof.OneHistory | pset3/pt-backup.cc:100-188 | every answer of primary or backup is the one a single server would give at its position in one log, positions are answered once, and what the primary has applied is a prefix of the backup's log |
| BackupProof.RealTime | pset3/pt-backup.cc:127-128 | a request that arrives after an answer was given comes behind the answered one in the log |
| BackupProof.LogGrows | pset3/pt-backup.cc:164-183 | log and answers only grow |
| BackupProof.InStep | pset3/pt-backup.cc:113-124 | the primary's serial is the backup's expected one or one more |
| BackupProof.NoSplitBrain | pset3/pt-backup.cc:175-183 | after the backup has taken over, the primary answers at most the request it was working on |
| BackupProof.AssertionHolds | pset3/pt-backup.cc:162-172 | on channels that keep order the assertion in the backup never fails, and such runs are runs of the general system |
| BackupReordering.ReorderingBreaks | pset3/pt-backup.cc:162-169 | without order it can, though nothing is lost or repeated: a request sent again after a timeout is overtaken by the next one |
| BackupChannels.CanAnswer | pset3/pt-backup.cc:100-188 | from every reachable state of the lossy channels, with any old copies and acknowledgements still on them, a new request can be answered, by the primary or after promotion by the backup |
| BackupChannels.OneWaitOneSend | pset3/pt-backup.cc:115-124 | between two messages that the primary receives it has sent its request again or a new one |
| BackupProgress.CanAnswer | pset3/pt-backup.cc:100-188 | the same on a network that repeats and reorders |
| BackupProgress.ServesAll | pset3/pt-backup.cc:100-188 | any requests, split anywhere between primary and promoted backup, can be served, each answered as by a single server in that order |
| BackupTasks.PrimaryTask.Acknowledged | pset3/pt-backup.cc:115-129 | a matching acknowledgement applies and answers the request, any other forwards it again |
| BackupTasks.PrimaryTask.Send | pset3/pt-backup.cc:116 | the forwarded pair |
| BackupTasks.BackupTask.Deliver | pset3/pt-backup.cc:162-172 | a forwarded request is applied if it is next; what is acknowledged; whether the assertion holds |
| BackupTasks.BackupTask.Serve | pset3/pt-backup.cc:179-183 | after promotion: applied and answered |
| MutexProof.RunInv | cotamer/cotamer.cc:277-328 | the invariant at the granularity of single loads, compare-exchanges and stores, under every interleaving |
| MutexProof.WordEncodes | cotamer/cotamer_impl.hh:2152-2168 | the unlatched word counts the owners and says what the head of the queue wants; latched means exactly one thread is inside |
| MutexProof.Exclusion | cotamer/cotamer_impl.hh:2101-2146 | an exclusive owner is the only owner |
| MutexProof.NoLostWakeup | cotamer/cotamer_impl.hh:2106-2146 | unlatched with a queue: the lock is held in a way its head must wait for, both fast-path unlocks included |
| MutexProof.NoOvertaking | cotamer/cotamer.cc:281-322 | when a request has been granted, so has every earlier one not given up |
| MutexProof.NothingForgotten | cotamer/cotamer.cc:301-322 | a request that has arrived is granted, given up or queued |
| MutexProof.NeverStuck | cotamer/cotamer.cc:324-328 | every step of a thread is possible: no subtraction goes below zero |
| MutexProof.WordFits | cotamer/cotamer.hh:471-480 | 32 bits are enough below 2^28 - 1 sharers |
| MutexProgress.OnlyTheLatchDelays | cotamer/cotamer.cc:277-328 | every step of a thread brings its operation nearer to its end, but for the latch being taken or lost to another thread |
| MutexProgress.EveryoneServed | cotamer/cotamer.cc:277-328 | from every reachable state, threads anywhere in their operations, a run after which every request not given up has had the lock, nobody has it and the word is zero |
| MutexObject.ServeFair | cotamer/cotamer.cc:281-299 | handing out the lock gives it to a prefix of the line and leaves a head that cannot have it |
| MutexObject.ServeTogether | cotamer/cotamer.cc:281-299 | that prefix is one exclusive request, or sharers only |
| MutexObject.FastAgrees | cotamer/cotamer_impl.hh:2136-2146 | the fast path leaves what the slow path would exactly if the first live request, if any, is exclusive |
| MutexObject.FastCanLag | cotamer/cotamer_impl.hh:2136-2146 | a state in which it does not: a sharer behind a given-up exclusive request is not let in yet |
| MutexObject.LastIsSlow | cotamer/cotamer_impl.hh:2106-2146 | with somebody in the queue the last owner never leaves by the fast path |
| MutexObject.LagExample | cotamer/cotamer_impl.hh:2136-2146 | the calls that lead to it |
| MutexObject.Mutex.NotifyLocked | cotamer/cotamer.cc:281-299 | the loop over the waiters is the hand-out of the specification |
| MutexObject.Mutex.Lock | cotamer/cotamer.cc:301-322 | the new request joins the end of the line and the line is served |
| MutexObject.Mutex.Unlock | cotamer/cotamer_impl.hh:2106-2146 | either path: the owner leaves; the line is served unless the fast path meets a given-up head; with nobody waiting it is the fast one |
| MutexObject.Mutex.TryLock | cotamer/cotamer_impl.hh:2101-2104 | succeeds exactly when nobody has the lock and nobody waits |
| MutexObject.Mutex.TryLockShared | cotamer/cotamer_impl.hh:2128-2134 | succeeds exactly when nobody has it exclusively and nobody waits |
| HeapOrder.CircularExact | cotamer/circular_int.hh:134-147 | exactly when the wrapping comparison puts the earlier counter strictly first: less than half a word apart |
| HeapOrder.CircularFails | cotamer/circular_int.hh:134-147 | half a word apart each comes before the other |
| HeapOrder.BeforeIsLess | cotamer/timer_heap.hh:109-113 | within the span the comparison of elements is (deadline, insertion order) |
| HeapOrder.Shape | cotamer/timer_heap.hh:115-129 | parent and child ranges fit together, the root with three children as well |
| HeapOrder.Replaced | cotamer/timer_heap.hh:193-206 | an element put in place of a removed one has to move in one direction only, which the code's test finds |
| TimerHeap.Heap.HardCull | cotamer/timer_heap.hh:192-228 | removal at any position keeps the order and takes exactly that element |
| TimerHeap.Heap.Smallest | cotamer/timer_heap.hh:206-214 | the loop over the children finds the first of them and the node |
| TimerHeap.Heap.Emplace | cotamer/timer_heap.hh:156-190 | the new element is in with the next insertion count, all others stay but empty ones, and none goes below 32 elements; whether any goes, which goes first and how many positions are drawn; the history gets the removals and the insertion |
| TimerHeap.Heap.Cull | cotamer/timer_heap.hh:102-107 | only empty elements go, until the top is not empty |
| TimerHeap.Heap.Top | cotamer/timer_heap.hh:90-94 | the top is strictly before every other element |
| TimerHeap.Heap.Pop | cotamer/timer_heap.hh:131-134 | it is what is removed, and the history records it as taken |
| TimerHeap.Heap.Clear | cotamer/timer_heap.hh:136-140 | everything goes |
| TimerHeap.Heap.Expand | cotamer/timer_heap.hh:142-154 | an array of the next capacity with the same elements |
| TimerHeap.Heap.PopsInOrder | cotamer/timer_heap.hh:102-228 | over whatever calls have been made on a heap, an element due earlier, or inserted earlier with the same deadline, is popped first unless removed otherwise |
| TimerHeap.Heap.RemovedOnce | cotamer/timer_heap.hh:102-228 | whatever is popped or culled was inserted before and is removed once |
| HttpMessage.Message.SetUrl | cotamer/http.hh:487-491 | after a new URL nothing cached counts, so that the parameters asked for next are those of the new one |
| HttpMessage.Message.SplitUrl | cotamer/http.cc:234-270 | the scan yields the parts of an accepted URL and three empty ranges for any other |
| FormParser.PartsUnique | cotamer/http.cc:234-270 | path, search and hash make up the URL, and no other division qualifies |
| HttpMessage.Message.ParseParams | cotamer/http.cc:275-332 | the one-pass loop with its lazily decoded buffer and offsets yields exactly the pairs of the specification |
| FormParser.ReadFindsPairs | cotamer/http.cc:284-332 | a left-to-right reader finds the pairs of splitting at `&`, then at the first `=`, then decoding |
| FormEncoding.DecodeEncode | cotamer/http.cc:307-320 | decoding the percent-encoding of any bytes, with hex digits of either case and blanks as `+`, gives these bytes back |
| FormEncoding.Unchanged | cotamer/http.cc:307-320 | a text without `%` and `+` decodes to itself |
| FormEncoding.PairsBack | cotamer/http.cc:275-332 | the pairs of any encoded names and values joined by `=` and `&` are these names and values |
| FormEncoding.SafeExactly | cotamer/http.cc:92-110 | the characters that a URL may contain, one by one |
| HttpMessage.Message.GuardIsEscape | cotamer/http.cc:307-314 | the guard `s2 - s >= 2` is right because the byte at the end is `#` or NUL |
| HttpMessage.GuardNeedsEnd | cotamer/http.cc:307-314 | with a digit there it would not be |
| HttpMessage.Message.MakeInfo | cotamer/http.cc:228-335 | what has been asked for is known afterwards and right for the current URL |
| HttpMessage.Message.SearchParams | cotamer/http.hh:537-560 | the parameters of a message are those of its URL, cached or not |
| HttpQuery.SentIsFound | cotamer/http.cc:228-335 | the parameters found in a URL made of a path, encoded pairs and a hash are these pairs |
| EventGraph.ExactlyWhenDue | cotamer/cotamer_impl.hh:577-669 | at rest an untriggered quorum has counted exactly its triggered arguments, duplicates included, and is below its threshold; a quorum nobody triggers directly has triggered if and only if enough arguments have |
| EventGraph.Determined | cotamer/cotamer_impl.hh:577-669 | plain and direct triggers alone determine which quorums have triggered, whatever the order of notifications |
| EventGraph.CountedHits | cotamer/cotamer_impl.hh:617-635 | what a quorum has counted has triggered |
| EventGraph.NothingLingers | cotamer/cotamer_impl.hh:652-669 | at rest what has triggered has no members left and is no event's listener any more |
| EventSteps.MarkInv | cotamer/cotamer_impl.hh:709-740 | marking an event and taking its quorums off the listener list keeps the invariant, with the notifications now on their way |
| EventSteps.ArrivedInv | cotamer/cotamer_impl.hh:626-639 | one notification moves one member into the count |
| EventSteps.UnlinkInv | cotamer/cotamer_impl.hh:652-667 | culling a member removes one link from both sides |
| EventSteps.JoinedInv | cotamer/cotamer_impl.hh:595-606 | adding a member counts it or links it |
| EventSystem.Events.TriggerUnlock | cotamer/cotamer_impl.hh:696-764 | the re-entrant trigger keeps the invariant, triggers no plain event but this one, loses no waiting coroutine, and terminates because untriggered events decrease |
| EventSystem.Events.TriggerMember | cotamer/cotamer_impl.hh:626-650 | a notified quorum counts and triggers when due |
| EventSystem.Events.CullMembers | cotamer/cotamer_impl.hh:652-669 | all members that have not triggered are unlinked |
| EventSystem.Events.NewEvent | cotamer/cotamer_impl.hh:531-533 | a plain event, untriggered and without listeners or arguments; everything else is as before |
| EventSystem.Events.Listen | cotamer/cotamer_impl.hh:536-544 | a coroutine joins the listeners of an untriggered event |
| EventSystem.Events.Trigger | cotamer/cotamer_impl.hh:520-523 | a direct trigger from rest comes to rest again; no other plain event triggers |
| EventSystem.Events.Make | cotamer/cotamer_impl.hh:586-624 | a quorum of any arguments, null, triggered, duplicate or `interest{}`, is at rest when made, with these arguments; older events keep theirs and their flags |
| EventSystem.Events.FixWantInterest | cotamer/cotamer_impl.hh:962-993 | a quorum loses all its pending interest or none and gets the event as an argument once for each; no argument list changes otherwise; only the quorum and what it depends on are touched; and unless it has triggered, no interest is left pending here or in anything untriggered below |
| EventSystem.Events.ApplyInterest | cotamer/cotamer_impl.hh:969-972 | the part of it that concerns the quorum itself, before it is sealed |
| EventInterest.FlagTells | cotamer/cotamer_impl.hh:595-615 | the flag on a quorum is up whenever a transitive untriggered member has interest pending, so that a quorum without it needs no fixing |
| EventInterest.CalmAfter | cotamer/cotamer_impl.hh:980-992 | once the members that wanted interest have been fixed or have triggered, the quorum has nothing left to flag |
| WatchLists.Divided | cotamer/cotamer_impl.hh:1876-1924 | records moved between two lists: every record is still on exactly one list, once |
| WatchLists.DividedChains | cotamer/cotamer_impl.hh:1876-1924 | and no other list notices |
| WatchLists.PickDivides | cotamer/cotamer_impl.hh:1886-1904 | the records taken and those kept are a partition of the list |
| WatchLists.PickKeepsOrder | cotamer/cotamer_impl.hh:1886-1904 | both in their old order |
| WatchLists.PickTakes | cotamer/cotamer_impl.hh:1886-1904 | a record is taken exactly if it waits for something that is notified or its event is gone |
| FdEventSet.SplitChain | cotamer/cotamer_impl.hh:1886-1904 | the pass with two write pointers relinks the list into these two parts, both terminated, with the right tail |
| FdEventSet.FdSet.TakeWatchList | cotamer/cotamer_impl.hh:1876-1912 | what it does to all lists, that the descriptor is queued for an update if anything was taken, and that nothing changes on an empty list or another epoch; owners and epochs stay |
| FdEventSet.FdSet.PopWatchListEvent | cotamer/cotamer_impl.hh:1914-1924 | the head of a detached list is freed and its event returned; all other records stay |
| FdEventSet.FdSet.Drain | cotamer/cotamer.cc:203-209 | popping a detached list to its end yields its events in order and frees exactly its records |
| FdEventSet.FdSet.Watch | cotamer/io.cc:116-167 | a record from the free list, or a new one, at the end of the list; the descriptor owned and in front of the update list unless queued already; other descriptors as before |
| FdEventSet.FdSet.HardEnsure | cotamer/io.cc:44-67 | room for the descriptor, by doubling or in blocks, with everything as it was |
| FdEventSet.FdSet.FdClose | cotamer/io.cc:169-194 | all watches freed, their events triggered in order; owner, epoch and update list of this descriptor, and all other records and descriptors as before |
| FdEventSet.FdSet.PopUpdate | cotamer/cotamer_impl.hh:1942-1958 | the descriptor queued last, its interest and the epochs; other descriptors as before |
| FdEventSet.WatchListMask | cotamer/cotamer_impl.hh:1930-1940 | the loop computes the interest of the live events |
| FdEventSet.MaskMeans | cotamer/cotamer_impl.hh:1930-1940 | which is what some live event wants |
| FdEventSet.FdSet.NextKnown | cotamer/cotamer_impl.hh:1960-1975 | the next descriptor with a watch, or none if there is none |
| FdEventSet.FdSet.ActiveWatchCount | cotamer/cotamer_impl.hh:1977-1983 | the records not free |
| WakeSystem.RunInv | cotamer/cotamer.cc:17-46 | lock, log and wake-up invariants under every interleaving of hand-overs with the driver loop |
| WakeSystem.NoLostWake | cotamer/io.cc:373-425 | a driver blocked with a timeout has a signal pending if a completely handed-over handle is unimported |
| WakeSystem.OnceInOrder | cotamer/cotamer.cc:175-188 | every handle reaches `asap_` once and in order |
| WakeSystem.ImportsAll | cotamer/cotamer.cc:175-188 | whatever other threads do, all that had been handed over when the driver got the lock is in `asap_` when it gets to work |
| WakeSystem.RecheckMatters | cotamer/io.cc:377-388 | a driver that blocks without the second look at the lock word has a run that leaves a handle with nobody to wake it; the driver as it is has none |
| WakeProgress.IdleDriverBlocks | cotamer/io.cc:373-425 | in every run without hand-overs and without the choice of a zero timeout a blocked driver is blocked with its full timeout and no signal is sent |
| WakeProgress.CanBlock | cotamer/io.cc:373-425 | from every initial state a run to a driver blocked with its timeout |
| WakeProgress.CanRest | cotamer/io.cc:373-425 | from every reachable state a run to one with all hand-overs completed, everything imported and run, and the driver blocked with its timeout |
| WakeProgress.SleepsIdle | cotamer/cotamer.cc:122-131 | a driver that blocks with a timeout has nothing to run, and a descriptor is published exactly from the second look to the return |
| WakeProgress.NothingOverlooked | cotamer/io.cc:384-387 | when the driver goes to sleep, or to work without importing, the list is empty and nobody is putting anything on it |
| WakeProgress.SignalKept | cotamer/io.cc:427-435 | a signal is taken away only by a driver back from the kernel, and one not reported yet may stay |
| WakeSystem.DriverObject.MigrateAsap | cotamer/cotamer.cc:34-39 | the handle is on the list, the lock free, the driver signalled if it published a descriptor |
| WakeSystem.DriverObject.Import | cotamer/cotamer.cc:70-73 | the list is imported as a whole |

## Left out

Assumptions of the models:

- Coroutine mechanics (`task`, `resolve`, `forward`, `attempt`, `first`) are atomic steps; a cancelled
  `receive` takes no message.
- Clocks, delays and random choices are nondeterminism: a timeout may happen whenever the code waits for one.
- Atomic operations are sequentially consistent; reference counts and the reclaiming of memory are not modelled.
- Quorum events and the set of watched descriptors are modelled for one thread at a time. The program locks
  each event and lets threads trigger and cull concurrently; interleavings of those are not modelled, unlike
  those of the mutex and of the waking of drivers.
- Rounds, serials, versions, epochs and list links are unbounded numbers. The 32-bit arithmetic of the mutex
  word (`MutexProof.WordFits`), of the heap's counter and of `parse_digits` is modelled.
- The channels of `pset3` keep order and may lose, given their constant delay; the
  answers of the lock-sequence server may besides be late or repeated.
- A client's serial is its own counter; the client number the program packs into the low bits is a separate
  field, and the choice of replica is left out, since the theorem is about a single server.

What is weaker than it could be, member by member:

- LockseqTheorem.ReachablePasses: is about the single FIFO server; it says nothing of lock-sequence clients on
  a primary and a backup that may delay requests arbitrarily.
- EventSystem.Events.Trigger: reports whether the event was untriggered; the program also reports false for an
  event nobody listens to or refers to.
- EventSystem.Events.TriggerUnlock: which drivers are told to run waiting coroutines is left out; coroutine
  listeners stay on the list.
- MutexObject.Mutex.Lock: the event of a request is its number, and the flag a caller may ask to have set is
  the result `now`.
- MutexObject.FastCanLag: gives a state within the invariant; `MutexObject.LagExample` reaches it by calls.
- FdEventSet.FdSet.Watch: assumes, as the code's comment does, that a descriptor taken over was closed by its
  previous owner; the owner's list of drivers is left out.
- FdEventSet.FdSet.PopWatchListEvent: the notification's mask is not stored in the event's flags.
- FdEventSet.FdSet.HardEnsure: the two arrays are fields of type `seq`, so the moving of records to new
  memory does not show.
- TimerHeap.Heap.Emplace: of the empty elements culled at pseudo-random positions the contract names the first
  and counts the draws, but does not say which go after it; the span of live insertion counts below 2^31 and
  the size below 2^30 - 1 are required, as the code needs them without testing them.
- CtProgress.OthersDecide: is about runs that exist; that a run comes to a decision with the delays and
  detectors of the program is a matter of probability and is not stated.
- HttpMessage.Message.ParseParams: names and values are bytes; the standard's final decoding as UTF-8 is not
  in the code either.
- WakeSystem.NoLostWake: is for the epoll and kqueue paths; the fallback on `poll` has no wake-up.

Not modelled:

- Sockets, kernel calls, address lookup, JSON, HTTP message parsing by llhttp, the example programs, option
  parsing, formatters and the visualiser.
- `pset2/ctstubborn.cc`, the broken variant of the consensus protocol, and the erroneous mode of
  `pset3/pt-backup.cc`.
- `pset3/pt-paxos.cc`, which only redirects to a fixed leader, and `pset3-altnet`, the same database and
  protocols on another network wrapper.
- The driver loop's virtual time, its conditions for returning, and clearing.
