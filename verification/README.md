# Verified models of the CSE 130 assignments

Dafny models of four C programs, with proofs about every input, run or interleaving.

* **The cache simulator (asgn5)** replays a request trace through FIFO, LRU or CLOCK eviction.
  `CacheSpec` states the policies as functions on values: a state is the list of cached names from the
  next candidate for eviction to the newest, the evicted names, and the two miss counters.
  `Memory`, `Ownership`, `CacheMethods`, `SetMethods`, `EvictionPolicies`, `ClockPolicy` and `Cacher`
  are the C code in its own form (slot array shifted in place, ring with a hand, pointers, malloc and
  free) and are proved to compute those functions and to free every block once. The whole-trace theorems
  are `CacheClassification`, `CacheWindows`, `CacheClockWindow`, `CacheClockExact`, `CacheClockSharp`,
  `CacheCompetitive`, `CacheCompetitiveSharp`, `CacheStack` (LRU's order), `CacheFifo` (FIFO's order) and
  `CacheClock`; they carry over to the program through the contract of `Simulate`. `LineNames` makes the
  names that counterexamples and extreme traces are built of.
* **The bounded queue (asgn3).** `QueueRing` is the ring buffer, `BoundedQueue` the code run under the
  lock, `QueueMonitor` any number of pushers and poppers interleaved one shared access at a time, with
  mutex and condition variables as in IEEE Std 1003.1 (a wait releases the lock and blocks in one step, a
  signal wakes one or more waiters, wake-ups without a signal happen). `QueueSafety` proves it first in,
  first out, `QueueCalls` that this is so between the arguments and the results of the calls;
  `QueueProgress` that no wake-up is lost and that every call that can complete does.
* **The HTTP server's GET/PUT protocol (asgn4).** `ServerModel` runs any number of worker threads over
  shared files, file locks, `creation_lock`, `creating`, `req_id` and the audit log; bodies are received
  and sent in as many steps as the client's I/O takes. `ServerLocks` and `ServerProgress` prove
  exclusion and freedom from deadlock, `ServerFiles` and `ServerAudit` that the audit log linearizes
  the server, `ServerIds` and `ServerReqId` the Request-Id rule, `ServerOrphans` the one exception to the
  audit claim, `ServerTermination` that runs are bounded and every request is answered by one audit line.
  `ServerHistory` ties every line to its request: what was asked, the files at its open, what the client
  sent and was sent. `ServerTransfers` serves and stores whole files in any pieces and closes the round
  trip of a PUT and a GET. `ServerRuns` builds the runs of a single thread that these exhibit.
* **The command reader (asgn1).** `CommandSpec` parses a whole input at once; `CommandReader` is the
  program that gets it in chunks, and is proved to end the same way for every cutting of the input.
  `CommandAnswers` reads the answer off the characters of the input.

Two claims one might make of the code are false, and are replaced by what is true:

* Under CLOCK a stretch of at most `size` distinct names can miss a name twice, because a new entry
  starts with a clear bit. `ClockMissesOnceExactly` says from exactly which states it cannot. What always
  holds is two misses a name (`ClockMissesAtMostTwice`) and 2n - 1 misses for n names
  (`ClockWindowedMisses`); `ClockBoundAttained` shows that 2n - 1 is reached for every n up to the size, and
  `Competitive` has the factor 2k - 1 that follows for a cache of k slots. `FactorExactly` says that no
  smaller factor will do, for CLOCK or for the others.
* A GET answered 200 can send a file that no logged PUT has written, if a PUT created it and then could
  not reopen it (`handle_put` opens a new file twice, and keeps the first descriptor); such a file is
  an orphan. `UnwrittenServedOnlyIfOrphaned` says that every such answer comes after the orphaning.
  `UnwrittenServedExactly` says that in a reachable state without a request in flight an unwritten file
  can be served, with no further failure, if and only if it is an orphan; `OrphanIsServed` that orphans
  do come about, from every start and for every missing file.

Where a comment and the code disagree the code is followed: the comment on line 299 of
asgn4/httpserver.c speaks of the highest current request id, but line 222 lets a GET lower it.
`OnlyGetLowersReqId` says in exactly which steps that happens, and `ReqIdFalls` gives the runs.

## Model

| member | source | states |
|---|---|---|
| CacheClassification.StepSeen | asgn5/eviction_policies.c:36-52 | under every policy one request adds exactly the requested name to the names cached or evicted, leaves it cached, and counts one miss unless it hit |
| CacheClassification.StepKeepsInv | asgn5/eviction_policies.c:113-143 | every request keeps: no name cached twice, at most k cached, nothing evicted before the cache is full, compulsory misses equal to the names seen |
| CacheClassification.SecondChanceRearranges | asgn5/eviction_policies.c:123-129 | CLOCK's search for a victim only rearranges the cached names |
| CacheClassification.Classification | asgn5/eviction_policies.c:41-50 | after any trace, cached and evicted names are the names requested, compulsory misses are the distinct names, HIT lines and misses add up to the trace length, min(k, distinct) names are cached |
| CacheClassification.CompulsoryIsPolicyIndependent | asgn5/eviction_policies.c:79-83 | the compulsory misses of a trace are the same for every policy and size |
| CacheWindows.SplitStep | asgn5/eviction_policies.c:72-90 | one FIFO or LRU request of a stretch of at most k names never evicts what the stretch itself brought in |
| CacheWindows.WindowedMisses | asgn5/eviction_policies.c:36-52 | from any state, a stretch of at most k distinct names misses each at most once under FIFO and LRU |
| CacheClockWindow.StageStep | asgn5/eviction_policies.c:113-143 | one CLOCK request of a stretch of at most k names moves a name down the stages: two misses left, one, none |
| CacheClockWindow.ClockMissesAtMostTwice | asgn5/eviction_policies.c:113-143 | from any state, a stretch of at most k distinct names misses each at most twice under CLOCK |
| CacheClockWindow.ClockWindowedMisses | asgn5/eviction_policies.c:113-143 | and so at most 2n - 1 times in all for n distinct names, n > 0: when the first entry of the stretch is evicted, the name that evicts it is missed only once |
| CacheClockSharp.ClockBoundAttained | asgn5/eviction_policies.c:113-143 | for every n up to the size, a state reached from the empty cache and a stretch of n distinct names that is missed exactly 2n - 1 times |
| CacheClockExact.SweepRun | asgn5/eviction_policies.c:123-135 | from a state whose set bits one eviction clears, every name of the stretch is missed at most once |
| CacheClockExact.EvictAhead | asgn5/eviction_policies.c:123-140 | fresh requests push a clear-bit entry out when they are one more than the free slots and clear entries ahead of it |
| CacheClockExact.SurvivesExactly | asgn5/eviction_policies.c:123-140 | after any number of fresh requests the entry is still cached if and only if they are no more than the free slots and clear entries ahead of it |
| CacheClockExact.MissTwice | asgn5/cache_methods.c:15-20 | from every other state some stretch of at most k names, each short enough for a line of input, misses one of them twice |
| CacheClockExact.ClockMissesOnceExactly | asgn5/eviction_policies.c:113-143 | CLOCK keeps the windowed bound of FIFO and LRU from a state if and only if one eviction can clear all its set bits; where it does not, non-empty names no longer than a binary numeral show it |
| CacheClockExact.ClockWindowedOnlyForOneSlot | asgn5/eviction_policies.c:113-143 | over the states reachable from an empty cache CLOCK keeps that bound for size 1 and for no other size |
| CacheCompetitive.ForcedLoads | asgn5/eviction_policies.c:36-52 | a rival with h slots must load k - h + 1 names between the second request of a phase and the first of the next |
| CacheCompetitive.CompetitiveFrom | asgn5/eviction_policies.c:72-90 | the Sleator-Tarjan bound for any initial cache content |
| CacheCompetitive.Competitive | asgn5/eviction_policies.c:18-34 | for every trace and every schedule of a rival with h <= k slots, misses * (k - h + 1) <= c * (loads + k - h), with c = k for FIFO and LRU and 2k - 1 for CLOCK |
| CacheCompetitive.CompetitiveSameSize | asgn5/eviction_policies.c:54-70 | against a rival of the same size, at most k (CLOCK: 2k - 1) misses per load |
| CacheCompetitiveSharp.ClockFactorAttained | asgn5/eviction_policies.c:113-143 | for every k and m a trace and a k-slot schedule with at most m + k loads on which CLOCK misses (2k - 1) * m + k times |
| CacheCompetitiveSharp.OrderFactorAttained | asgn5/eviction_policies.c:36-52 | for every policy, k, h <= k and m a trace and an h-slot schedule with at most (k - h + 1) * m + k loads and k * m + k misses |
| CacheCompetitiveSharp.FactorExactly | asgn5/eviction_policies.c:18-34 | the competitive bound holds with factor c and some additive constant if and only if c >= k for FIFO and LRU, for every h <= k, and if and only if c >= 2k - 1 for CLOCK, for h = k |
| CacheStack.RecencyByLastUse | asgn5/eviction_policies.c:72-78 | the unbounded recency order lists the names requested, each once, by last use |
| CacheStack.StackStep | asgn5/eviction_policies.c:72-90 | one LRU request is one move in that order, whatever the size |
| CacheStack.LruIsRecencySuffix | asgn5/eviction_policies.c:54-70 | the LRU slots are the last min(k, distinct) names of the order |
| CacheStack.StackDistance | asgn5/eviction_policies.c:72-90 | a name is resident if and only if fewer than k distinct names were requested since it last was |
| CacheStack.LruInclusion | asgn5/eviction_policies.c:72-90 | a larger LRU cache contains a smaller one |
| CacheStack.LruMonotone | asgn5/eviction_policies.c:72-90 | enlarging an LRU cache never adds a capacity miss |
| CacheFifo.FifoOrder | asgn5/eviction_policies.c:36-52 | after every trace the FIFO slots hold the last k names loaded, oldest first, a hit changing nothing; the line printed for a request is HIT if and only if its name is among the last k loaded before it |
| CacheFifo.FifoResident | asgn5/eviction_policies.c:36-52 | a name is resident under FIFO if and only if it is among the last k names loaded |
| CacheClock.RingInspect | asgn5/eviction_policies.c:126-128 | clearing the bit under the hand and advancing is one rotation of the queue read from the hand |
| CacheClock.RingOverwrite | asgn5/eviction_policies.c:129-141 | overwriting the slot under the hand and advancing drops the front and appends |
| CacheClock.RingFill | asgn5/eviction_policies.c:136-141 | filling with the hand on the first free slot appends |
| CacheClock.SecondChanceVictim | asgn5/eviction_policies.c:123-135 | the victim is the first clear-bit entry from the hand, or the entry at the hand when all are set; exactly the inspected bits are cleared; at most size + 1 slots are inspected |
| CacheClock.RingVictim | asgn5/eviction_policies.c:123-135 | the same victim found on the ring: the first slot with a clear bit going round from the hand, or the slot under it when every bit is set |
| CacheClock.ClockIsFifoUntilHit | asgn5/eviction_policies.c:113-143 | on a trace without hits CLOCK and FIFO reach the same state |
| CacheMethods.Cache.constructor | asgn5/cache_methods.c:22-33 | every slot NULL, counters zero |
| CacheMethods.Cache.Find | asgn5/cache_methods.c:48-58 | the first slot holding the name, or count |
| CacheMethods.Cache.Contains | asgn5/cache_methods.c:48-58 | whether the name is cached; with setBit exactly its bit is set |
| CacheMethods.Cache.Append | asgn5/cache_methods.c:60-68 | appends a new item with a clear bit unless the cache is full |
| CacheMethods.Cache.RemoveFront | asgn5/cache_methods.c:70-82 | removes and frees the first item, hands back its string, leaves a stale pointer only in the slot behind the end |
| CacheMethods.Cache.RemoveFirst | asgn5/cache_methods.c:84-98 | the same for the first item holding a name, or NULL |
| CacheMethods.Cache.Destroy | asgn5/cache_methods.c:35-46 | frees every item and string the slots hold, each once |
| SetMethods.NameSet.Contains | asgn5/set_methods.c:32-39 | membership by content |
| SetMethods.NameSet.Add | asgn5/set_methods.c:41-51 | adds the name; takes the string over, or frees it when the name is already listed |
| SetMethods.NameSet.Destroy | asgn5/set_methods.c:22-30 | frees every listed string |
| Ownership.PartitionDrop | asgn5/cache_methods.c:70-82 | taking an item out of its slot leaves every other block with its one owner |
| Ownership.PartitionReplace | asgn5/eviction_policies.c:130-133 | so does replacing an item in its slot |
| EvictionPolicies.InsertFIFO | asgn5/eviction_policies.c:36-52 | computes the FIFO step on the slot array, and every string is in one slot, in the evicted set, or freed |
| EvictionPolicies.InsertLRU | asgn5/eviction_policies.c:72-90 | the same for LRU |
| EvictionPolicies.Admit | asgn5/cache_methods.c:60-68 | the append after a removal never fails and overwrites the stale slot |
| ClockPolicy.Search | asgn5/eviction_policies.c:123-128 | the loop ends, and leaves the ring as the second-chance rule says after exactly the stated inspections |
| ClockPolicy.InsertCLOCK | asgn5/eviction_policies.c:113-143 | computes the CLOCK step on the ring, keeps the hand on the first free slot while filling, inspects at most size + 1 slots |
| Cacher.RunFIFO | asgn5/eviction_policies.c:18-34 | replays the lines up to the first empty one |
| Cacher.RunLRU | asgn5/eviction_policies.c:54-70 | the same for LRU |
| Cacher.RunCLOCK | asgn5/eviction_policies.c:92-111 | the same for CLOCK, the hand starting on slot 0 |
| Cacher.Simulate | asgn5/cacher.c:31-52 | sizes below 1 are refused; otherwise the counters and HIT/MISS lines are those of the policy, compulsory misses are the distinct requests, hits and misses add up, and nothing stays allocated |
| BoundedQueue.Queue.constructor | asgn3/queue.c:18-32 | an empty queue of the given size, which may be 0 |
| BoundedQueue.Queue.Push | asgn3/queue.c:54-59 | appends unless the queue is full, in which case it would wait |
| BoundedQueue.Queue.Pop | asgn3/queue.c:70-75 | takes the oldest element unless the queue is empty |
| BoundedQueue.QueuePush | asgn3/queue.c:49-63 | refuses only a null queue; otherwise appends, or reports that it would wait because the queue is full |
| QueueSafety.ProceedKeepsInv | asgn3/queue.c:53-60 | every access of a thread inside keeps lock ownership and the ring coherent with the history |
| QueueSafety.ConcurrentFifo | asgn3/queue.c:49-79 | in every state of every interleaving one thread is inside at most, the count is within the size, and popped values are a prefix of pushed ones; while nobody is inside, pushed values in critical-section order are popped values followed by the ring; inside, the same up to the one element on its way |
| QueueCalls.CallsAreRecorded | asgn3/queue.c:49-80 | in every interleaving, for every thread: the arguments of its pushes are the elements recorded for it and the one it still carries, the elements recorded for its pops are its results and the one it is about to hand back, and every pop has one result or is unfinished |
| QueueCalls.RecordedFifo | asgn3/queue.c:57-75 | the recorded elements go through the queue first in, first out, in every state |
| QueueCalls.CallsFifo | asgn3/queue.c:49-80 | once every call has returned, one order of all pushes and pops explains every thread's arguments and results, and in it the queue is first in, first out |
| QueueProgress.AccessDebt | asgn3/queue.c:54-60 | no access makes supply without a debt to signal it, and nobody falls asleep beside supply |
| QueueProgress.WakeDebt | asgn3/queue.c:61 | a signal repays its debt by waking a sleeper, if there is one |
| QueueProgress.NoLostWakeup | asgn3/queue.c:53-61 | while a pusher sleeps, the free slots are at most the threads that owe: poppers that made one and have yet to signal, pushers woken or inside on the way to taking one; likewise for poppers |
| QueueProgress.NoLostWakeupOutside | asgn3/queue.c:53-61 | while a pusher sleeps and the lock is free, the free slots are at most the poppers yet to signal plus the woken pushers yet to test again; likewise for poppers |
| QueueProgress.NoDeadlock | asgn3/queue.c:65-79 | when nothing moves any more, every call has returned or sleeps rightly, and pushers and poppers are never all asleep together |
| QueueProgress.RunsEnd | asgn3/queue.c:49-79 | every run without new calls and spurious wake-ups is bounded, so every call that can complete does |
| ServerLocks.DoKeepsLock | asgn4/httpserver.c:188-220 | every step keeps: one holder of creation_lock, creating true only while it has claimed the section, no sleeper |
| ServerLocks.DoKeepsFlocks | asgn4/httpserver.c:245-276 | every step keeps the lock tables true of what the threads hold, and no file locked both ways |
| ServerProgress.Exclusion | asgn4/httpserver.c:294-336 | mutual exclusion of the section and of each file's writer, in every run |
| ServerProgress.WaitingDescends | asgn4/httpserver.c:245-276 | whoever a thread waits for stands lower in the order creation_lock, file lock, running |
| ServerProgress.FileHolderRuns | asgn4/httpserver.c:245-276 | a thread that holds a file lock waits for nobody, creation_lock included, and can step |
| ServerProgress.NoWaitCycle | asgn4/httpserver.c:188-276 | threads never wait for each other in a circle |
| ServerProgress.NoDeadlock | asgn4/httpserver.c:294-349 | while a request is in flight some thread can step |
| ServerTermination.RunsEnd | asgn4/httpserver.c:188-349 | every run is bounded by the threads, the requests it begins, the turns GETs take round their loop and the chunks received, with m the longest file there was plus all bytes received |
| ServerTermination.AnsweredOnce | asgn4/httpserver.c:273-345 | in every run each request, as often as it was begun, has been answered by one audit line or is with one thread |
| ServerTermination.AllAnswered | asgn4/httpserver.c:273-345 | a run after which no thread can step has answered every request it began, once each |
| ServerAudit.DoKeepsFiles | asgn4/httpserver.c:220-276 | every step keeps: unless a PUT has it locked, a file's content is what the log says |
| ServerAudit.AuditLogLinearizes | asgn4/httpserver.c:265-276 | a GET answered 200 sent a prefix of what the nearest earlier locked PUT line left, or of the initial content, and is complete if and only if it sent all of it; a PUT line with the lock left exactly its body |
| ServerAudit.IdleFilesMatchLog | asgn4/httpserver.c:337-349 | with no request in flight every file is what the log says |
| ServerHistory.LineTells | asgn4/httpserver.c:223-345 | every audit line agrees with its thread's actions: a GET or PUT of what was asked; its status the one the file table at its open calls for (missing, unreadable, directory, unwritable, want of a resource); a 200 GET sent as many elements of the content as were sent off, complete exactly when that is all; a locked PUT stored the chunks received, with the status its receiving ended with |
| ServerTransfers.ServeWhole | asgn4/httpserver.c:253-273 | in every reachable state a thread that is sending can send the rest in any pieces, and then logs a 200 with the whole content |
| ServerTransfers.StoreWhole | asgn4/httpserver.c:337-345 | a thread that is receiving can be given the rest of the body in any pieces, and then has stored and logged all of it |
| ServerTransfers.PutThenGet | asgn4/httpserver.c:188-349 | from every reachable state without a request in flight, a PUT and then a GET of a missing or ordinary file are answered 200 and the GET sends the body, however both are cut |
| ServerOrphans.UnwrittenServedOnlyIfOrphaned | asgn4/httpserver.c:310-330 | a GET answered 200 whose file was neither there at the start nor left by an earlier locked PUT line comes after a PUT that created the file and could not reopen it |
| ServerOrphans.UnwrittenServedExactly | asgn4/httpserver.c:310-330 | in every reachable state without a request in flight, a file not there at the start and not written exists if and only if it is such an orphan, and can be served with 200 unwritten, without a further failing open, if and only if it is one |
| ServerOrphans.OrphanIsServed | asgn4/httpserver.c:310-330 | orphans come about and are served, from every start and for every missing file |
| ServerIds.NotFoundInTurn | asgn4/httpserver.c:211-236 | a GET with a positive id is answered Not Found only after an admitted id at least as large |
| ServerHistory.NotFoundAfterRequest | asgn4/httpserver.c:211-236 | and that id is the one an earlier request was given: some step of the run admitted it |
| ServerIds.OnlyGetLowersReqId | asgn4/httpserver.c:307-309 | req_id falls in a step if and only if that step is a GET with a smaller id setting it; a PUT leaves it at least at its id |
| ServerReqId.ReqIdFalls | asgn4/httpserver.c:221-222 | from every start, for every missing file and all ids lo < hi with hi > 0, a run without any failure in which req_id becomes hi and then lo |
| CommandReader.NullTerminatorCheck | asgn1/memory.c:10-20 | a name with a slash or a backslash before a zero |
| CommandReader.Device.WriteCommand | asgn1/memory.c:39-48 | all of the slice is written however short the writes are, or a write failed after a part of it |
| CommandReader.CollectWord | asgn1/memory.c:73-83 | the part of a word that lies in this chunk, NULs dropped |
| CommandReader.CheckName | asgn1/memory.c:90-94 | which names are rejected |
| CommandReader.Settle | asgn1/memory.c:100-116 | a set opens its file and writes the rest of the chunk, a get refuses it |
| CommandReader.Feed | asgn1/memory.c:57-117 | one turn of the loop takes the parse of what was read to the parse with this chunk added |
| CommandReader.Answer | asgn1/memory.c:119-147 | what the program prints and returns at the end of input |
| CommandReader.Program | asgn1/memory.c:50-148 | the outcome is that of the whole input parsed at once, for every cutting into chunks and all short writes; after a failed write the file, or the standard output, holds a prefix of what it was owed |
| CommandSpec.ParseExtend | asgn1/memory.c:57-117 | parsing is incremental |
| CommandSpec.StripNext | asgn1/memory.c:73-83 | one more character of a word is kept unless it is a NUL |
| CommandSpec.SetThenGet | asgn1/README.md:13-23 | a set command stores its body under its name and nothing else, and a get run in the directory it leaves prints that body |
| CommandAnswers.SucceedsExactly | asgn1/memory.c:57-147 | exit status 0 if and only if the input, read to its end, is a set of a usable name that can be opened, or a get of a usable name of a regular file with nothing behind the newline |
| CommandAnswers.SetAnswer | asgn1/memory.c:100-107 | what a set of a usable name is answered: OK with its body in the file, Operation Failed when the file cannot be opened or the input breaks off |
| CommandAnswers.GetAnswer | asgn1/memory.c:123-142 | what a get of a usable name of a regular file is answered: the content |
| CommandAnswers.RefusedAnswer | asgn1/memory.c:119-147 | every other input is answered Invalid Command, or Operation Failed when it breaks off, with exit status 1 |
| CommandAnswers.OverlongAnswer | asgn1/memory.c:51-53 | the outcome is undefined if and only if a word exceeds the 8191 characters its buffer holds |

## Left out

- asgn0, asgn2, the Makefiles, option parsing and the printing of usage texts: no state to reason about.
- Reading lines with fgets: a trace is given as lines without their newline, each shorter than the 1024-byte buffer.
- Machine integers: counters, ids and cursors are unbounded.
- The blocks of the cache and set structures themselves, of their pointer arrays and of the clock hand: only request strings and items are tracked by Memory.Heap. The set's list grows as a sequence.
- ClockPolicy.Search: the `while (true)` with two exits is written as the loop guard that fails at either exit.
- ClockPolicy.ReplaceAtHand: frees the old item before adding its name to the set; the C code does these two independent steps in the other order.
- BoundedQueue.Queue.Push: one pass under the lock; waiting and signalling are in QueueMonitor.
- BoundedQueue.QueuePush: on a full queue it reports that it would wait, where the C code blocks and pushes once it is woken; that run is in QueueMonitor.
- queue_delete: the threads are taken to be done. In QueueMonitor the size is positive; with size 0 every call waits for ever.
- The bodies of `conn_*`, `request_*`, `response_*` and `listener_*` are not part of this model: parsing is done before a request starts, receiving and sending are steps whose chunks and results are arbitrary.
- The response Created: line 337 of asgn4/httpserver.c overwrites it, so the model has no such status.
- Unsupported requests and connections that fail to parse touch nothing shared.
- Kernel and pthread internals: mutexes, condition variables, `flock` and `close` behave as documented, flock is not interrupted, nobody else edits files, one name is one file, and a new file is readable and writable by its creator.
- CacheCompetitiveSharp.FactorExactly: for CLOCK against a rival with fewer than k slots the least factor is only known to lie between k and 2k - 1.
- Fairness: a GET that waits for a missing file may go round its loop for ever, which NoDeadlock counts as being able to step.
- ServerAudit.AuditLogLinearizes: says nothing about the order of the lines of GETs that failed to open, which are logged after the section is left.
- A read error on the file a get prints, and a short write of the final OK line.
- CommandReader.Program: a word too long for its buffer is undefined behaviour in C; the model ends with the outcome Overflow, for every cutting alike. Infinite runs of zero-byte writes are not modelled.
