# Operating-systems exercises: protocols and algorithms

A Dafny model of the parts of the exercise repository that hold an algorithm or a
protocol, and proofs of what they keep.

- **Sleeping barber** (`lab7/GeislerWojciech/cw07`). One barber and any number of clients
  share a block and seven semaphores, one of them unused, plus one semaphore per client. `BarberShop`
  gives every process a program counter; `BarberMove` and `ClientMove` are its next step, one semaphore
  operation or one access to the block at a time, and a run is any sequence of turns. The System V
  programs in `zad1` (`client.c:19-103`, `barber.c:19-136`) take the same steps as the POSIX programs in
  `zad2`, so one model serves for both. `BarberInvariant` holds the inductive invariant, `BarberTheorems`
  what it means for runs, `BarberAdmission` what becomes of a client that comes in, `BarberProgress` freedom
  from deadlock, `BarberQueue` the queue as an array.
- **Bounded buffer** (`lab9/GeislerWojciech/cw09`). `zad1` is a monitor (`MonitorBuffer`,
  `MonitorInvariant`, `MonitorTheorems`, `MonitorProgress`, `MonitorEnding`), `zad2` uses counting semaphores
  and a lock per slot (`SemaphoreBuffer`, `SemaphoreInvariant`, `SemaphoreTheorems`, `SemaphoreProgress`,
  `SemaphoreEnding`, and `SemaphorePair` for one producer and one consumer). Any number of threads, any capacity of at least 1, and time-outs and spurious wake-ups
  at any moment the code allows them. `Ring` is the ring of slots and the queue that it represents.
- **Batch executor** (`lab5/GeislerWojciech/cw05/zad1`). `CommandLine` splits a line into tokens and the
  tokens into argument vectors; `PipeWiring` keeps descriptor tables as maps, with pipe(2) free to return
  any unused numbers, the stale one in `in[1]` included.
- **File sort** (`lab2/GeislerWojciech/cw02/zad1`). `RecordSort` sorts records in place through reads,
  writes and relative seeks at one cursor.
- **Client registry** (`lab10/GeislerWojciech/cw10/zad1`). `ClientTable` is the server's table and its
  handlers; `ClientTheorems` shows that it refines a map from names to connections and decides which
  clients the monitor keeps.
- **Image filter** (`lab8/GeislerWojciech/cw08/zad1`). `Convolution` is the weighted sum over the
  reals, `ParallelFilter` the division of the rows among threads.

`Options` and `Sums` are helpers.

Six places where the code does not do what it seems to promise:

- `zad2/barber.c` of the barber shop accepts any number of chairs, and the queue array has 50 cells.
  `push_client` stays inside the array exactly for 0 to 50 chairs: `PushStaysInside` and `PushCanOverrun`.
  The `zad1` variant refuses 50 and more, but not negative numbers.
- A client started with negative repeats never leaves: a run can go on until the shop is empty exactly when
  no client began with negative repeats (`ShopCanEmptyExactlyWhen`).
- `split_commands` takes every token that begins with a bar for a separator, so `cat |sort` runs `cat` alone
  (`CatSort`).  The argument vectors give the tokens back, but for one trailing bar, exactly when every token
  that begins with a bar is the bar alone (`RejoinGivesTokensBackExactlyWhen`).
- Unregistering the empty name lowers the client counter without removing a client unless the table
  is full, and the empty name can be registered exactly when one slot is left (`ReplyToEmptyName`):
  `UnregisterKeepsValid` and `RegisterKeepsValid` give the exact conditions under which the table stays sound.
- A producer of either bounded buffer that times out while it waits for room drops the line it has read
  (`TimeOutDropsTheLine`), and with any capacity a producer with more lines than slots can come to that
  (`FullBufferLosesALine`).  A producer that is done has written its whole input exactly when it dropped no line
  and left none unread; without a time-out it always has (`DoneProducerWroteAllExactlyWhen`).
- A filter whose weights do not sum to one changes a constant picture unless the error rounds away:
  `ConstantUnchangedExactlyWhen`.

## Model

| member | source | states |
|---|---|---|
| BarberShop.AnyShopCanOpen | lab7/GeislerWojciech/cw07/zad2/barber.c:161-187 | any number of chairs and any clients with any repeats make an initial shop |
| BarberInvariant.BarberKeepsInv | lab7/GeislerWojciech/cw07/zad2/barber.c:18-92 | every step of the barber keeps the invariant of locks, chair, signals, queue and every client |
| BarberInvariant.ClientKeepsInv | lab7/GeislerWojciech/cw07/zad2/client.c:19-79 | so does every step of any client, with any number of other clients |
| BarberInvariant.FrontOfQueue | lab7/GeislerWojciech/cw07/zad2/barber.c:77-79 | when the barber pops, the queue is not empty and its first client has already released the queue |
| BarberTheorems.ReachableInv | lab7/GeislerWojciech/cw07/zad2/barber.c:161-187 | from the initial semaphore values the invariant holds after any run |
| BarberTheorems.AssertionsNeverFail | lab7/GeislerWojciech/cw07/zad2/barber.c:32-87 | in every run all assertions about the chair hold, in the barber and in the clients, including that the seated pid is the popped one |
| BarberTheorems.OneClientAtATime | lab7/GeislerWojciech/cw07/zad2/client.c:23-79 | at most one client is chosen and has not left; the chair and the FINISHED post are its own |
| BarberTheorems.FinishedReachesTheSeatedClient | lab7/GeislerWojciech/cw07/zad2/client.c:71-76 | a client that waits for FINISHED is the one in the chair, and can go on exactly when the barber has posted |
| BarberTheorems.SemaphoresAreBinary | lab7/GeislerWojciech/cw07/zad2/common.c:14-21 | every shared semaphore and every client's own stays in 0..1 |
| BarberTheorems.QueueNeverExceedsChairs | lab7/GeislerWojciech/cw07/zad2/client.c:33-47 | the queue has at most as many clients as there are chairs, all different, and none while the barber sleeps |
| BarberTheorems.TurnedAwayOnlyWhenFull | lab7/GeislerWojciech/cw07/zad2/client.c:33-39 | in every run a client is turned away only by a full queue and queued up only by a free chair |
| BarberAdmission.FreeChairIsTaken | lab7/GeislerWojciech/cw07/zad2/client.c:31-50 | while the barber is awake, a client that finds both locks and a chair free is at the end of the queue after its own seven steps, with the locks free and nothing else changed |
| BarberAdmission.FullShopTurnsAway | lab7/GeislerWojciech/cw07/zad2/client.c:31-37 | a client that finds all chairs taken is outside again after six steps, and the whole shop is as before |
| BarberAdmission.SleepingBarberIsWoken | lab7/GeislerWojciech/cw07/zad2/client.c:20-28 | on a sleeping barber it marks and posts the wake-up and goes to the chair |
| BarberTheorems.StateNamesThePhase | lab7/GeislerWojciech/cw07/zad2/barber.c:18-92 | in every run b_state says what the barber does, WAKING from the wake-up call to the haircut |
| BarberTheorems.OwnSemaphoreOnlyWhileWaiting | lab7/GeislerWojciech/cw07/zad2/common.c:31-50 | a client's own semaphore exists only from its time in the queue until it removes it, so none is left behind |
| BarberTheorems.StepKeepsOrder | lab7/GeislerWojciech/cw07/zad2/client.c:19-68 | one step moves a client at most from the door to the end of the line, or from its head to the chair |
| BarberTheorems.SeatedInOrderOfAdmission | lab7/GeislerWojciech/cw07/zad2/client.c:19-61 | in every run clients are seated in exactly the order in which client_come_in admitted them |
| BarberTheorems.WakingClientOvertakesNobody | lab7/GeislerWojciech/cw07/zad2/client.c:21-28 | a client that takes the sleeping barber finds an empty queue and everybody admitted before it already seated |
| BarberTheorems.OneHaircutForEachSeating | lab7/GeislerWojciech/cw07/zad2/client.c:63-79 | in every run a client's seatings are the haircuts counted off plus the one in progress |
| BarberTheorems.ExitedClientGotEveryHaircut | lab7/GeislerWojciech/cw07/zad2/client.c:81-103 | a client that has exited was seated exactly its initial number of repeats |
| BarberProgress.NoDeadlock | lab7/GeislerWojciech/cw07/zad2/client.c:20-41 | no process can move exactly when all clients have exited and the barber sleeps |
| BarberProgress.PickComesCloser | lab7/GeislerWojciech/cw07/zad2/barber.c:75-91 | while a client is left, a named process can step, and the step lowers a well-founded measure |
| BarberProgress.EveryHaircutCanStillHappen | lab7/GeislerWojciech/cw07/zad2/client.c:81-103 | when no client began with negative repeats, every run can be continued until all clients have exited with all their haircuts |
| BarberProgress.ShopCanEmptyExactlyWhen | lab7/GeislerWojciech/cw07/zad2/client.c:86-90 | a run can be continued until the shop is empty exactly when no client began with negative repeats |
| BarberQueue.SharedQueue.Push | lab7/GeislerWojciech/cw07/zad2/client.c:105-107 | the pid is added behind the array's contents |
| BarberQueue.SharedQueue.Peek | lab7/GeislerWojciech/cw07/zad2/barber.c:115-121 | the first pid, or -1 |
| BarberQueue.SharedQueue.Pop | lab7/GeislerWojciech/cw07/zad2/barber.c:123-135 | the shift in place is the barber's abstract pop step |
| BarberQueue.PushStaysInside | lab7/GeislerWojciech/cw07/zad2/client.c:105-107 | with 0 to 50 chairs push_client writes inside the array in every run |
| BarberQueue.PushCanOverrun | lab7/GeislerWojciech/cw07/zad2/barber.c:158-181 | with any other number of chairs and any 52 clients whose repeats are not zero, some run reaches push_client with a full array |
| Ring.RingEnqueue | lab9/GeislerWojciech/cw09/zad1/main.c:122-127 | writing behind the occupied segment appends to the queue the ring represents |
| Ring.RingDequeue | lab9/GeislerWojciech/cw09/zad1/main.c:175-185 | the slot at the segment's start holds the oldest line, and emptying it removes that line |
| MonitorBuffer.AnyBufferCanStart | lab9/GeislerWojciech/cw09/zad1/main.c:234-246 | any capacity, any inputs and any consumers make an initial system |
| MonitorInvariant.StepKeepsInv | lab9/GeislerWojciech/cw09/zad1/main.c:90-197 | every step, time-out and spurious wake-up keeps ring, cursors, counter, mutex, slot locks and sleepers consistent |
| MonitorTheorems.StepRefinesQueue | lab9/GeislerWojciech/cw09/zad1/main.c:113-134 | a write is an enqueue, a consumption a dequeue of the front, and every other step leaves the queue alone |
| MonitorTheorems.LinesLeaveInOrder | lab9/GeislerWojciech/cw09/zad1/main.c:113-192 | with any number of threads the lines written are those taken followed by those in the ring, in order |
| MonitorTheorems.CursorsDescribeQueue | lab9/GeislerWojciech/cw09/zad1/main.c:29-33 | while the mutex is free, filled_slots is the queue's length, next_read its start and next_write its end modulo the capacity |
| MonitorTheorems.FirstProbeSucceeds | lab9/GeislerWojciech/cw09/zad1/main.c:115-137 | no thread ever takes the branch to a second slot |
| MonitorTheorems.ProducersWriteTheirInput | lab9/GeislerWojciech/cw09/zad1/main.c:90-137 | at any moment a producer's input is what it wrote in order, the line in its hand or lost to a time-out at its wait, and what is unread; it ends with lines unread only after a time-out |
| MonitorTheorems.DoneProducerWroteAllExactlyWhen | lab9/GeislerWojciech/cw09/zad1/main.c:90-141 | a producer that is done wrote its whole input exactly when it dropped no line and left none unread, and always when it never timed out |
| MonitorTheorems.TimeOutDropsTheLine | lab9/GeislerWojciech/cw09/zad1/main.c:103-109 | a time-out of any sleeping producer loses the line it has read |
| MonitorProgress.FullBufferLosesALine | lab9/GeislerWojciech/cw09/zad1/main.c:99-109 | with any capacity a producer with more lines than slots can fill the buffer and lose its next line |
| MonitorProgress.EveryLineCanStillBeTaken | lab9/GeislerWojciech/cw09/zad1/main.c:152-197 | while a consumer is left every run can be continued until the buffer is empty and every line written was taken, in order |
| MonitorEnding.TimeOutEnds | lab9/GeislerWojciech/cw09/zad1/main.c:152-164 | a time-out ends a thread of either role at the loop head, sends a sleeper to the mutex, and does nothing else |
| MonitorEnding.TimedOutSleeperEnds | lab9/GeislerWojciech/cw09/zad1/main.c:159-163 | a sleeper of either role that times out while the mutex is free takes and releases it and is done, and nothing else changes |
| MonitorEnding.LeavingForGood | lab9/GeislerWojciech/cw09/zad1/main.c:103-109 | in any run a thread that is on its way out only goes on to its end and transfers nothing any more |
| MonitorEnding.EveryThreadCanEnd | lab9/GeislerWojciech/cw09/zad1/main.c:248-253 | every run can be continued until all producers and consumers are done, with all locks free |
| MonitorEnding.BroadcastWakesEverybody | lab9/GeislerWojciech/cw09/zad1/main.c:133 | a broadcast sends every sleeper of either role back to the mutex and changes nobody else |
| MonitorEnding.WakeUpRelocks | lab9/GeislerWojciech/cw09/zad1/main.c:155-157 | a spurious wake-up sends a sleeper back to its test and does nothing else |
| MonitorTheorems.NoWakeUpIsLost | lab9/GeislerWojciech/cw09/zad1/main.c:132-134 | while a thread sleeps, its reason to sleep holds exactly when no broadcast is the next operation under the mutex |
| MonitorTheorems.NeverBothAsleep | lab9/GeislerWojciech/cw09/zad1/main.c:98-111 | a producer and a consumer never sleep at the same time |
| MonitorTheorems.StuckMeansResting | lab9/GeislerWojciech/cw09/zad1/main.c:98-192 | no thread can move exactly when all of them sleep or are done |
| MonitorTheorems.NoDeadlock | lab9/GeislerWojciech/cw09/zad1/main.c:154-191 | while a producer and a consumer are left, some thread can move |
| SemaphoreBuffer.AnyBufferCanStart | lab9/GeislerWojciech/cw09/zad2/main.c:217-229 | any capacity, any inputs and any consumers make an initial system |
| SemaphoreInvariant.StepKeepsInv | lab9/GeislerWojciech/cw09/zad2/main.c:93-177 | every step and time-out keeps slot ownership and the slot counts |
| SemaphoreInvariant.MoveBalances | lab9/GeislerWojciech/cw09/zad2/main.c:93-126 | a move changes the empty slots, the semaphores and the thread's own share in step |
| SemaphoreTheorems.SlotsAreAccountedFor | lab9/GeislerWojciech/cw09/zad2/main.c:93-177 | empty slots are free_slots plus producers with an unused permit plus consumers that owe a post; dually for the occupied ones |
| SemaphoreTheorems.SuitableSlotExists | lab9/GeislerWojciech/cw09/zad2/main.c:105-126 | a thread past its semaphore wait always has a suitable slot somewhere while it probes |
| SemaphoreTheorems.ProbingAloneSucceeds | lab9/GeislerWojciech/cw09/zad2/main.c:107-126 | a thread that runs alone locks a suitable slot within as many probes as there are slots |
| SemaphoreTheorems.SlotsAreHeldAlone | lab9/GeislerWojciech/cw09/zad2/main.c:108-122 | two threads never hold the same slot |
| SemaphoreTheorems.TransferFindsItsSlot | lab9/GeislerWojciech/cw09/zad2/main.c:110-119 | a producer writes only to an empty slot, a consumer empties only an occupied one |
| SemaphoreTheorems.LinesAreConserved | lab9/GeislerWojciech/cw09/zad2/main.c:105-177 | under any interleaving the copies of a line written are those taken plus those in the buffer |
| SemaphoreTheorems.ProducersWriteTheirInput | lab9/GeislerWojciech/cw09/zad2/main.c:87-126 | at any moment a producer's input is what it wrote in order, the line in its hand or lost to a time-out at its wait, and what is unread; it ends with lines unread only after a time-out |
| SemaphoreTheorems.DoneProducerWroteAllExactlyWhen | lab9/GeislerWojciech/cw09/zad2/main.c:87-130 | a producer that is done wrote its whole input exactly when it dropped no line and left none unread, and always when it never timed out |
| SemaphoreTheorems.TimeOutDropsTheLine | lab9/GeislerWojciech/cw09/zad2/main.c:97-102 | a time-out of any producer that waits for room loses the line it has read |
| SemaphoreProgress.FullBufferLosesALine | lab9/GeislerWojciech/cw09/zad2/main.c:94-102 | with any capacity a producer with more lines than slots can fill the buffer and lose its next line |
| SemaphoreProgress.EveryLineCanStillBeTaken | lab9/GeislerWojciech/cw09/zad2/main.c:141-178 | while a consumer is left every run can be continued until the buffer is empty and every line written was taken |
| SemaphoreEnding.TimeOutEnds | lab9/GeislerWojciech/cw09/zad2/main.c:141-150 | a time-out at the loop head or at the wait ends a thread of either role, and does nothing else |
| SemaphoreEnding.DoneForGood | lab9/GeislerWojciech/cw09/zad2/main.c:146-149 | a thread that is done makes no step in any continuation |
| SemaphoreEnding.EveryThreadCanEnd | lab9/GeislerWojciech/cw09/zad2/main.c:231-236 | every run can be continued until all producers and consumers are done, and then the semaphores count the empty and the occupied slots |
| SemaphoreTheorems.StuckMeansResting | lab9/GeislerWojciech/cw09/zad2/main.c:93-177 | no thread can move exactly when all of them are done or wait for a permit that is missing |
| SemaphoreTheorems.NoDeadlock | lab9/GeislerWojciech/cw09/zad2/main.c:93-177 | while a producer and a consumer are left, some thread can move |
| SemaphorePair.FirstProbeSucceeds | lab9/GeislerWojciech/cw09/zad2/main.c:105-126 | with one producer and one consumer the first probe always succeeds |
| SemaphorePair.StepRefinesQueue | lab9/GeislerWojciech/cw09/zad2/main.c:105-177 | then a write is an enqueue and a consumption a dequeue of the front |
| SemaphorePair.LinesLeaveInOrder | lab9/GeislerWojciech/cw09/zad2/main.c:151-177 | and lines come out in the order they went in |
| PipeWiring.ExecuteLine | lab5/GeislerWojciech/cw05/zad1/main.c:65-119 | child k reads pipe k - 1 and writes pipe k, and its whole table is known: a second copy of each end under its own number, except of the write end when that number is the stale one in `in[1]`; the write end of pipe k is kept by child k only, its read end by child k + 1 only, neither by the parent, whose table is as before the line |
| CommandLine.Tokenize | lab5/GeislerWojciech/cw05/zad1/main.c:30-47 | the loop returns the tokens of the line |
| CommandLine.TokensAreTheRuns | lab5/GeislerWojciech/cw05/zad1/main.c:35-45 | the tokens are exactly the maximal runs of non-space characters, left to right, none missing |
| CommandLine.SpacesSeparate | lab5/GeislerWojciech/cw05/zad1/main.c:17-44 | a line cut at a blank, carriage return, line feed or tab has the tokens of both halves |
| CommandLine.NothingElseSeparates | lab5/GeislerWojciech/cw05/zad1/main.c:17-44 | text without any of the four is one token |
| CommandLine.TokenizeJoin | lab5/GeislerWojciech/cw05/zad1/main.c:30-47 | words joined with single spaces are read back as the same words |
| CommandLine.SplitJoinSplit | lab5/GeislerWojciech/cw05/zad1/main.c:30-47 | the tokens of any line survive joining and splitting again |
| CommandLine.SplitCommands | lab5/GeislerWojciech/cw05/zad1/main.c:51-63 | pipes become NULL in place, and a command begins at the first token and behind every pipe |
| CommandLine.RejoinGivesMarks | lab5/GeislerWojciech/cw05/zad1/main.c:51-63 | the argument vectors with one bar between neighbours are the tokens, each separator cut to its bar, without one trailing bar |
| CommandLine.RejoinGivesTokensBackExactlyWhen | lab5/GeislerWojciech/cw05/zad1/main.c:51-63 | they are the tokens themselves, without one trailing bar, exactly when every token that begins with a bar is the bar alone |
| CommandLine.GluedBarLosesACommand | lab5/GeislerWojciech/cw05/zad1/main.c:55-60 | of a word and a bar glued to another word only the first is left, as one command |
| CommandLine.CatSort | lab5/GeislerWojciech/cw05/zad1/main.c:55-60 | `cat` with a glued bar and `sort` runs `cat` alone |
| RecordSort.Sort | lab2/GeislerWojciech/cw02/zad1/main.c:171-223 | the whole records asked for are stably sorted and the rest of the file is untouched; success exactly when the file has them all or at most one was asked for |
| RecordSort.SortFrom | lab2/GeislerWojciech/cw02/zad1/main.c:183-223 | the outer loop, with the cursor at record i at its head |
| RecordSort.PutInPlace | lab2/GeislerWojciech/cw02/zad1/main.c:196-217 | the inner loop, with the cursor at record pos at its head, inserts a record behind the last one not above it |
| RecordSort.SkipTo | lab2/GeislerWojciech/cw02/zad1/main.c:219-221 | the relative seek ends at the record that is read next |
| RecordSort.ReadNext | lab2/GeislerWojciech/cw02/zad1/main.c:186-191 | the read gives record i exactly when the file has it whole |
| RecordSort.RecordAccess | lab2/GeislerWojciech/cw02/zad1/main.c:105-131 | reading and overwriting at a record's offset reads and replaces that record alone |
| RecordSort.SortedIsInOrder | lab2/GeislerWojciech/cw02/zad1/main.c:171-223 | the sorted records are in order of their first byte |
| RecordSort.SortedIsPermutation | lab2/GeislerWojciech/cw02/zad1/main.c:171-223 | they are a permutation of the records |
| RecordSort.SortedIsStable | lab2/GeislerWojciech/cw02/zad1/main.c:201-213 | records with the same first byte keep their order |
| ClientTable.Server.HandleRegister | lab10/GeislerWojciech/cw10/zad1/server.c:269-294 | reply and new table of a registration; an accepted one finds a free slot |
| ClientTable.Server.HandleUnregister | lab10/GeislerWojciech/cw10/zad1/server.c:302-316 | the first slot with the name is cleared and the counter lowered |
| ClientTable.Server.HandlePing | lab10/GeislerWojciech/cw10/zad1/server.c:318-326 | the first slot on the socket has its flag raised |
| ClientTable.Server.HandleClosed | lab10/GeislerWojciech/cw10/zad1/server.c:206-211 | a closed connection unregisters the client found by its socket |
| ClientTable.Server.MonitorPass | lab10/GeislerWojciech/cw10/zad1/server.c:430-440 | one pass of the monitor, and the sockets it pings |
| ClientTable.Server.GetRandomClient | lab10/GeislerWojciech/cw10/zad1/server.c:412-421 | finds a client exactly when there is one: the first used slot from the random one on, in fewer than MAX_CLIENTS steps |
| ClientTheorems.ViewSize | lab10/GeislerWojciech/cw10/zad1/server.c:38-45 | the map of clients has as many entries as slots are in use |
| ClientTheorems.ReplyToEmptyName | lab10/GeislerWojciech/cw10/zad1/server.c:270-285 | the empty name is accepted exactly when one slot is left |
| ClientTheorems.RegisterKeepsValid | lab10/GeislerWojciech/cw10/zad1/server.c:269-294 | over a connection, a registration spoils the table exactly when the name is empty and one slot is left |
| ClientTheorems.RegisterWithoutConnection | lab10/GeislerWojciech/cw10/zad1/server.c:269-294 | with a socket that is not positive it spoils the table exactly when there is room and the name is new (the empty name: one slot is left) |
| ClientTheorems.ReplyRefinesMap | lab10/GeislerWojciech/cw10/zad1/server.c:270-293 | it is ignored when the map is full, refused when the name is in the map, and accepted otherwise |
| ClientTheorems.RegisterRefinesMap | lab10/GeislerWojciech/cw10/zad1/server.c:269-294 | an accepted registration adds one entry to the map, any other leaves it alone |
| ClientTheorems.RegisterTakesFirstFreeSlot | lab10/GeislerWojciech/cw10/zad1/server.c:275-290 | an accepted registration takes the first free slot and leaves the others as they are |
| ClientTheorems.UnregisterKeepsValid | lab10/GeislerWojciech/cw10/zad1/server.c:302-316 | unregistering keeps the counter right exactly when the name is not empty or no slot is free |
| ClientTheorems.UnregisterRefinesMap | lab10/GeislerWojciech/cw10/zad1/server.c:302-316 | it removes the name's entry and no other |
| ClientTheorems.DisconnectRefinesMap | lab10/GeislerWojciech/cw10/zad1/server.c:206-211 | a closed connection removes one client on its socket, or nobody when there is none |
| ClientTheorems.PassRefinesMap | lab10/GeislerWojciech/cw10/zad1/server.c:430-440 | a pass removes exactly the clients whose flag is down and lowers the flag of the others |
| ClientTheorems.PassPingsTheKept | lab10/GeislerWojciech/cw10/zad1/server.c:436-439 | it pings exactly the clients it keeps |
| ClientTheorems.PassPingsInSlotOrder | lab10/GeislerWojciech/cw10/zad1/server.c:430-439 | the pings go out in the order of the slots, one for each slot with a responsive client |
| ClientTheorems.PassPingsEachOnce | lab10/GeislerWojciech/cw10/zad1/server.c:436-439 | on each socket there are as many pings as responsive clients, and as many in all as clients kept |
| ClientTheorems.FreeSlotIsUnnamed | lab10/GeislerWojciech/cw10/zad2/server.c:256-260 | in a sound table looking for an empty name finds the same slot as looking for a free socket |
| ClientTheorems.StepRefinesMap | lab10/GeislerWojciech/cw10/zad1/server.c:249-326 | every event keeps the table sound and acts on the map of clients as it should |
| ClientTheorems.ServerRefinesMap | lab10/GeislerWojciech/cw10/zad1/server.c:91-114 | from the empty table of a new server, any events lead to a sound table whose map comes from the empty map by the same events, with as many entries as the counter says |
| ClientTheorems.KeptExactlyWhenItAnswers | lab10/GeislerWojciech/cw10/zad1/server.c:427-444 | over any run a client left alone stays registered exactly when it answers before every pass |
| ClientTheorems.SilentClientGoesAtTheSecondPass | lab10/GeislerWojciech/cw10/zad1/server.c:427-444 | a client that falls silent outlives one pass and is gone with the second |
| Convolution.DivCeilIsCeiling | lab8/GeislerWojciech/cw08/zad1/main.c:149-151 | divceil is the least number of divisors that reach x |
| Convolution.GetIdxClamps | lab8/GeislerWojciech/cw08/zad1/main.c:154-159 | the index is in range, and no index in range is nearer to the one wanted |
| Convolution.RoundIsNearest | lab8/GeislerWojciech/cw08/zad1/main.c:144 | lround is within one half, with halves away from zero |
| Convolution.CalcPixelValue | lab8/GeislerWojciech/cw08/zad1/main.c:137-145 | the nested loop computes the rounded sum of row products |
| Convolution.ImpulseResponse | lab8/GeislerWojciech/cw08/zad1/main.c:137-145 | a filter that is 1 in cell (i, j) and 0 elsewhere gives the pixel i rows below and j columns right of the window's corner, both indices clamped |
| Convolution.SumIsAdditive | lab8/GeislerWojciech/cw08/zad1/main.c:138-143 | the sum of a filter added up from two others is the sum of their sums |
| Convolution.SumIsHomogeneous | lab8/GeislerWojciech/cw08/zad1/main.c:138-143 | the sum of a scaled filter is the scaled sum |
| Convolution.PixelIsMonotone | lab8/GeislerWojciech/cw08/zad1/main.c:137-145 | with weights that are not negative a brighter picture never gives a darker pixel |
| Convolution.ConstantIsScaled | lab8/GeislerWojciech/cw08/zad1/main.c:137-145 | with any weights a constant picture is scaled by their sum |
| Convolution.ConstantUnchangedExactlyWhen | lab8/GeislerWojciech/cw08/zad1/main.c:137-145 | and unchanged, for any color, exactly when the scaled color is less than a half off, or a half nearer to zero |
| Convolution.PixelStaysWithin | lab8/GeislerWojciech/cw08/zad1/main.c:137-145 | weights that are not negative and sum to one keep every pixel between the least and the greatest of the input |
| ParallelFilter.PartsAreDisjoint | lab8/GeislerWojciech/cw08/zad1/main.c:111-112 | no row belongs to two threads |
| ParallelFilter.EveryRowHasAWorker | lab8/GeislerWojciech/cw08/zad1/main.c:100-112 | every row belongs to one of the threads, for any height and thread count |
| ParallelFilter.PartsAreEven | lab8/GeislerWojciech/cw08/zad1/main.c:100-112 | no part is longer than an even division needs |
| ParallelFilter.ProcessPart | lab8/GeislerWojciech/cw08/zad1/main.c:84-96 | the rows of the part are filtered in the shared output, the others untouched |
| ParallelFilter.ProcessImage | lab8/GeislerWojciech/cw08/zad1/main.c:99-121 | all parts together filter every pixel |
| ParallelFilter.StepKeeps | lab8/GeislerWojciech/cw08/zad1/main.c:88-92 | at any moment exactly the pixels that the owner of their row has passed are written |
| ParallelFilter.EveryInterleavingGivesTheFilteredPicture | lab8/GeislerWojciech/cw08/zad1/main.c:84-121 | however the threads interleave, the finished output is that of the sequential double loop |
| ParallelFilter.DoneExactlyAfterItsTurns | lab8/GeislerWojciech/cw08/zad1/main.c:88-92 | a thread is done exactly when it has had the turns its part needs, whatever the others do |

## Left out

- The barber shop and the two buffers are step functions on values rather than objects with methods, because their properties are about interleavings of many processes; the queue's array and its shift in place are modelled separately in BarberQueue.
- Opening, closing and unlinking a client's semaphore is one step each, and so is a push or a pop of the queue, which both locks or QUEUE_LOCK protect; the names of client semaphores are taken to be distinct.
- Reuse of a pid while its former owner's semaphore still exists, failing semaphore calls and signals.
- Wrap-around of `repeats` at the least integer: a client started with negative repeats counts down for ever here.
- Fairness: the barber shop and the buffers are shown to have a next step and, from every state, a way to finish their work; that a given scheduler takes it is not stated.
- Clocks: a time-out may happen at any wait point and at any loop head that checks the time, whether or not a time limit was configured.
- The consumers' choice which lines to show (`matching`), and what is printed anywhere.
- FIFO order of the semaphore buffer with several producers or consumers, and the end of its probing under an adverse schedule: the code promises neither.
- The storage of C strings in tokenize, lines of more than 256 tokens, and failure of pipe, fork, dup2 or exec; the shell starts with standard input and output open and no pipe end open.
- The waiting for children after a line.
- The short count that a buffered read reports in the file sort's `lib` mode, and failing reads, writes and seeks other than a seek to before the start of the file.
- Races between the server's listener, reader and monitor threads, which take no locks: every handler and every pass of the monitor is one step.
- Names of more than 23 characters; arithmetic requests and their results.
- The datagram variant of the server (`lab10/GeislerWojciech/cw10/zad2`), whose table differs only in telling a free slot by its empty name, and in which a ping from an unknown name dereferences a null pointer.
- KeptExactlyWhenItAnswers: speaks of a client that shares its connection with no other client, because a ping is credited to the first slot on the socket only.
- Rounding of floating-point sums in the image filter, reading and writing of image and filter files, and pictures of height or width zero beyond their having no pixels.
- Overflow of 32-bit integers in record offsets, pixel values and row ranges.
- lab1, lab3, lab4, lab6, the directory listing of lab2, timing code, notebooks and measurements: thin calls of the operating system, or easy members.
