# GoUblksrv: the I/O engine and the Go request pipeline

GoUblksrv serves a Linux ublk device from user space. Per queue, a C thread submits io commands to the
driver through a ring, reaps their completions and hands each request to Go; a worker goroutine binds a
pooled `Request` to it, sends it to a dispatcher, waits for a handler goroutine, copies read data back and
prepares the commit from its own thread. This project models that engine as one concurrent protocol over
all interleavings, proves what every run keeps, and proves that the whole pipeline is a byte array.

## How the project is laid out

| file | content |
|---|---|
| `Words.dfy`, `Machine.dfy` | fixed-width words; the state machine: one label per instruction of each thread, the driver included |
| `Ledger.dfy`, `Preserve.dfy`, `PreserveThread.dfy` | who owns each slot, request and completion token; the invariant; every step keeps it |
| `Binding.dfy` | descriptor, worker and pooled request describe the same request |
| `Device.dfy`, `Refine.dfy`, `RefineThread.dfy`, `RefineWork.dfy` | the array device; the relation; every step of the machine is one device move or none |
| `Runs.dfy`, `Theorems.dfy`, `Stopping.dfy`, `Progress.dfy`, `Errors.dfy` | the results about whole runs |
| `Language.dfy`, `Bytes.dfy`, `Leaving.dfy`, `Unsupported.dfy` | the command language of a slot, every request in opcodes and bytes, what an exiting thread leaves, unsupported operations |
| `Blocking.dfy`, `Fifo.dfy` | exactly who waits for what; channels and rings keep order and lose nothing |
| `Plays.dfy`, `Witness.dfy`, `LostWrite.dfy` | concrete runs that show three guarantees fail outside their conditions |
| `QueueEngine.dfy`, `GoPipeline.dfy` | the C and Go functions as methods that update a queue record, a request, the pool and the array in place |
| `Packing.dfy`, `Layout.dfy`, `Params.dfy` | the user_data word, rounding and descriptor areas, sizes and limits |

A label names the thread that moves: `QStep` (queue thread, `ublkhelper.c:1006-1103` and
`c_bridge.go:52-63`), `WStep` (worker, `c_bridge.go:63-83` with `ublkhelper.c:590-654` and `877-898`),
`DStep` (dispatcher, `ublk.go:25-46`), `HStep` (handler goroutine, `ublk.go:48-78`), and the driver's
`KTake`, `KPost`, `KFail`, `KReturn` and `KSpurious`. A blocked thread has no enabled step. The number of
queues, the depth, the ring and channel sizes, the pool and the buffers are parameters; `ValidConfig` says
what start-up guarantees about them and `Params.StartIsValid` says when it does.

Two styles meet in the middle. The state machine cuts each function into the instructions that can
interleave. The classes run each function whole, and `CompleteIsWorkerSteps`, `ReapIsQueueSteps`,
`HandlerIsMachineSteps`, `TailIsWorkerSteps` and `DiscardFrom` (built from the machine's own `DiscardPage`) tie
the two.

## What is assumed

- The driver posts completions only for commands it holds, at most one each; a request's descriptor and
  write data are in place when its completion is posted and stay until its commit is accepted; requests
  honour the advertised limits (`DescOk`). `NEED_GET_DATA` is never posted: the device sets no flags. The
  class still models that branch, which lowers the counter without any worker to account for it.
- Queue initialisation is one step: the lock, the condition variable and the counter are set up after
  their first use (`ublkhelper.c:788-793` follow line 785). The constructor shows why the counter's earlier
  value does not matter.
- The address in a descriptor is the slot's own buffer, which the command passed to the driver
  (`ublkhelper.c:638-641`, `978-981`): the write slice and the copy-back rest on it.
- The handler is a byte array, called atomically. A call may also fail: the theorems that exclude this say
  `Errorless` or `Reachable`, and those of `Errors` hold for every run.
- `CleanExit` assumes the driver aborts a queue only after its requests have drained (`Orderly`);
  `ExitLeavesLastBatch` assumes nothing about when it does.
- Signed 32-bit overflow in the descriptor offset wraps around, as compiled code does.
- The device is registered while its requests arrive (`c_bridge.go:41-46`).

## What was found

- **Handler errors commit twice.** `c_bridge.go:67-69` completes with -EIO and falls through to the
  ordinary completion, and `Result` is never reset when a request is reused. `ResultIsSticky` and
  `ExtraCompletionIff` give the exact condition over all runs; `ErrorCommitsTwice` is a run; `TailMeaning`
  gives the outcome for every amount of room in the ring, including the goroutine that blocks for ever on
  the lock its own first completion kept.
- **An idle discard can lose a write.** `ublkhelper.c:1097-1099` discards the pages of slots whose write
  may have been posted after the reap ended. `Linearizable` says for every errorless run that this is the only
  departure from the array device, and exactly when it happens; `LostWriteIsNoArray` is a run that no
  array device has.
- **Three early returns keep `q->lock`** (`ublkhelper.c:600-621`). `NoEarlyReturn` shows that no errorless
  run takes them; `QueueIoCmd` shows the lock free exactly when the return value is 1.
- **An early abort loses commits.** The workers handed over by the last reaped batch, and only they, are
  still outstanding when a queue thread leaves its loop (`ExitLeavesLastBatch`), and their commits are never
  submitted (`ExitIsFinal`, `EarlyAbortLosesACommit`).
- **Unsupported operations succeed.** A request that is no read, write or discard (a flush, say) reaches no
  handler, leaves the array alone and is committed with its byte count (`ublk.go:38-40`, `c_bridge.go:79-80`):
  `DispatchByKind`, `ChangesAreSupported` and `UnsupportedIsAcknowledged` for all, `FlushIsAcknowledged` for one.
- **The descriptor offset overflows.** `ublkhelper.c:710` multiplies two ints before widening. With 4 KiB pages
  queue ids from 21846 on are mapped at a wrong offset (`FirstMisplaced`); `DeviceLayout` is the exact limit.
- **Counts wrap at 16 bits.** `c_bridge.go:115-116` turns a queue count or depth that is a multiple of
  65536 into zero (`StartIsValid`).
- **Target data wider than 8 bits is cut** in `build_user_data`, whose shift by 24 is done in 32 bits
  (`TargetDataFits`); the library always passes 0.
- The top-level README shows `NewUblkDevice` returning an error and an `AddDevice` function; the code has
  neither (`api.go:15`). The code is followed.

## Model

| member | source | states |
|---|---|---|
| Theorems.RingExclusion | ublkhelper.c:1083-1089 | while the queue thread is in submit-and-wait, no worker of its queue lies between dispatch and decrement |
| Theorems.CounterAccounting | ublkhelper.c:997-1000 | counter, plus one between hand-over and increment, equals the number of workers dispatched and not yet past their decrement; zero at the barrier's exit |
| Theorems.NoLostWakeup | ublkhelper.c:649-653 | a thread asleep on a drained counter has a worker that still owes it the signal |
| Theorems.IdleSafety | ublkhelper.c:821-839 | pages are discarded only with no dispatched worker outstanding and nothing unsubmitted |
| Theorems.RingCapacity | ublkhelper.c:616-621 | prepared commands carry distinct tags below the depth, so they and the completions never exceed it |
| Theorems.NoEarlyReturn | ublkhelper.c:599-621 | under the lock a worker passes both guards, finds an entry and prepares the commit of its own tag |
| Theorems.LockBalance | ublkhelper.c:590-654 | a worker holds q->lock exactly from lock to unlock, and cond_mutex exactly while signalling |
| Theorems.LockHeldBy | ublkhelper.c:593-654 | a held q->lock has a holder that is inside its critical section |
| Theorems.MutexHeldBy | ublkhelper.c:650-652 | a cond_mutex held by a worker has a holder inside its signalling section |
| Theorems.ThreadMutex | ublkhelper.c:1083-1087 | the queue thread holds cond_mutex exactly in its test loop |
| Theorems.OneOwner | ublkhelper.h:282-302 | every slot is in exactly one of ring, driver, completions, queue thread, worker, retired, and that place fixes its flag word |
| Theorems.PoolPartition | api.go:69-78 | each pooled request is exactly once in the free channel, with one queue thread, or with one worker |
| Theorems.OneHandler | ublk.go:25-46 | while its worker waits, a request is in exactly one of request channel, dispatcher, handler, completion channel |
| Theorems.TokenHasWaiter | c_bridge.go:63-65 | a request in any of these has a worker waiting for it |
| Theorems.SendsNeverBlock | api.go:26-27 | at each send to the request, free and completion channels there is room |
| Blocking.WorkerWaits | c_bridge.go:63-83 | a worker's next step can be taken exactly when it is not done, has its token when receiving, and finds each lock free when locking: its sends never wait |
| Blocking.ThreadWaits | ublkhelper.c:1083-1089 | a queue thread's next step can be taken exactly unless it is asleep, in the driver, gone, at a held cond_mutex, or at an empty pool |
| Blocking.DispatcherWaits | ublk.go:25-46 | the dispatcher can go on exactly when it holds a request or one has been sent |
| Blocking.HandlersNeverWait | ublk.go:48-78 | a live handler's call, failing or not, and its signal can always be taken |
| Fifo.RequestsInOrder | c_bridge.go:64 | in every run the dispatcher receives requests in the order they are sent, each once |
| Fifo.PoolInOrder | c_bridge.go:52-82 | in every run pooled requests are taken in the order they were filled in or returned, each once |
| Fifo.CommandsInOrder | ublkhelper.c:616-647 | in every run the driver accepts a queue's commands in the order prepared, from the FETCH of every tag on, each once |
| Fifo.CompletionsInOrder | ublkhelper.c:1050-1063 | in every run a queue thread reaps completions in the order posted, each once |
| Theorems.BindingHolds | c_bridge.go:48-61 | until copy-back a worker's request describes its slot's descriptor in bytes, inside the device, aliasing only that slot's buffer; the descriptor is still the one of the dispatch |
| Theorems.NoCrossTalk | c_bridge.go:52-63 | two live workers never share a request nor, before their commits, a slot |
| Theorems.ReadBuffersKeep | api.go:75 | a request keeps its read buffer's capacity however often it is reused |
| Theorems.ResliceFits | ublk.go:49 | the reslice of a read about to run stays inside the buffer |
| Theorems.CopyBackIsExact | c_bridge.go:71-74 | in every errorless run, copy-back finds and moves exactly nr_sectors * 512 bytes and leaves the rest of the slot buffer |
| Runs.Linearizable | c_bridge.go:38-84 | every errorless run shows the driver exactly the events of a run of the array device and leaves the same array; that device run loses a posted write if and only if an idle discard of the pipeline hits one |
| Runs.CommitTookEffect | c_bridge.go:65-81 | each commit the driver accepts in an errorless run closes a device run with the same trace in which its request was posted and took effect exactly once since, with that moment's result and data |
| Language.CommandLanguage | ublkhelper.c:609-626 | in every errorless run a slot's first command is FETCH and every later one is a COMMIT whose result is the reply of the descriptor the driver posted last: nr_sectors * 512, or 0 for a discard |
| Language.CommitsAnswerDistinct | ublkhelper.c:889-898 | two commits of a slot answer two different posts, each after the previous command |
| Language.PostsFollowTakes | ublkhelper.c:1050-1063 | the driver's last step at a slot before a post or failure was taking a command: one completion per command |
| Language.FailureIsLast | ublkhelper.c:1038-1047 | after a failed command the slot has no command, request or failure for the rest of the run |
| Language.Meaning | c_bridge.go:52-82 | every commit belongs to the request posted last, and one step of the run since then is that request's effect on the array, with that moment's answer |
| Bytes.ReadIsServed | c_bridge.go:71-80 | a posted opcode 0 is committed with nr_sectors * 512, its slot buffer then beginning with the array's bytes from start_sector * 512 at one step since the post, which leaves the array alone |
| Bytes.WriteIsServed | ublk.go:58-65 | a posted opcode 1 is committed with nr_sectors * 512, and one step since the post puts its payload, unless a discard lost it, at start_sector * 512 and changes no other byte |
| Bytes.DiscardIsServed | ublk.go:67-74 | a posted opcode 3 is committed with 0, and its step puts what the handler leaves into its range and changes no other byte |
| Bytes.OtherIsServed | c_bridge.go:76-81 | any other posted opcode is committed with nr_sectors * 512 as a signed 32-bit word and changes no byte |
| Bytes.TypesMatchOpcodes | ublkhelper.c:911-928 | until copy-back a worker's request has type 0, 1 or 7 exactly when its descriptor has opcode 0, 1 or 3, and never type 6 |
| RefineWork.StepSimulates | ublk.go:48-78 | each step without a handler error is one move of the array device, one loss, or none, and keeps the relation |
| RefineThread.DiscardExact | ublkhelper.c:821-830 | a discard step leaves the device where it is exactly when it hits no posted, unreaped, non-zero write |
| PreserveThread.StepKeepsInv | ublkhelper.c:1006-1103 | every step of every thread without a handler error keeps the ownership invariant |
| Binding.StepKeepsBinding | c_bridge.go:48-81 | every such step keeps descriptor, worker and request bound together |
| Stopping.StoppingForever | ublkhelper.c:1025-1028 | STOPPING is never cleared |
| Stopping.RetiredForever | ublkhelper.c:1038-1047 | a retired slot never again has a command, a completion or a worker |
| Leaving.ExitLeavesLastBatch | ublkhelper.c:802-806 | a thread leaving its loop leaves outstanding exactly as many workers as its last reaped batch handed over requests: a clean exit if and only if that batch held none; nothing unsubmitted remains |
| Leaving.ExitIsFinal | ublkhelper.c:1125-1129 | after that the thread submits nothing any more |
| Stopping.CleanExit | ublkhelper.c:802-806 | if the driver aborts only drained queues, no worker is outstanding at any time after the exit |
| Progress.InternalRunsAreBounded | ublkhelper.c:1050-1089 | between two steps of the driver a run has at most a measured number of steps, waking and re-waiting included |
| Progress.DeadlockFree | c_bridge.go:52-83 | a reachable state has no enabled internal step exactly when it is quiescent, shared empty pool or not |
| Progress.Drains | c_bridge.go:52-83 | from every reachable state some internal run of at most the measure's length reaches a quiescent reachable state |
| Progress.QuiescentMeansDone | c_bridge.go:76-82 | quiescent means every request back in the pool, no slot with a worker, counters zero, locks free |
| Errors.ResultIsSticky | ublk.go:52 | over all runs, a pooled request carries Result -1 exactly when some earlier handler call on it failed |
| Errors.ExtraCompletionIff | c_bridge.go:67-69 | in every run, a worker makes the additional -EIO completion exactly when an earlier call on its request failed |
| Errors.EioRun | c_bridge.go:67-69 | in every run, only a worker inside a completion has a second one ahead of it |
| Witness.ErrorCommitsTwice | c_bridge.go:67-81 | a run with one handler error prepares -EIO and success for one tag and drives the counter to -1 |
| Witness.EarlyAbortLosesACommit | ublkhelper.c:1078-1079 | a run in which an abort before draining lets the thread exit with a worker outstanding |
| LostWrite.LostWriteIsNoArray | ublkhelper.c:1097-1099 | an errorless run commits a write of ones and leaves the array zero, while every array-device run with the same trace leaves it written |
| Unsupported.DispatchByKind | ublk.go:28-40 | the dispatcher starts a handler if and only if the operation is a read, write or discard; otherwise only the completion changes |
| Unsupported.ChangesAreSupported | ublk.go:48-74 | whatever step changes the array is a handler call for a supported request |
| Unsupported.UnsupportedIsAcknowledged | c_bridge.go:76-81 | an unsupported request is committed with its length, as a success |
| Unsupported.FlushIsAcknowledged | ublkhelper.c:911-928 | a flush of eight sectors is legal on every device and is committed with 4096 |
| QueueEngine.UblkQueue.constructor | ublkhelper.c:670-796 | whatever the counter held before, the record ends in the machine's initial state |
| QueueEngine.UblkQueue.SubmitFetchCommands | ublkhelper.c:658-666 | one FETCH per tag in order, every flag word cleared, the counter lower by the depth, a signal exactly if it passed 1 |
| QueueEngine.UblkQueue.ChooseOp | ublkhelper.c:599-614 | the bit tests decide exactly as the machine's slot rule |
| QueueEngine.FlagNumbers | ublkhelper.h:298-301 | which bit of the word is which flag |
| QueueEngine.UblkQueue.QueueIoCmd | ublkhelper.c:590-656 | the exact new record and return value; lock free exactly on 1; one signal exactly when the counter falls from 1 |
| QueueEngine.UblkQueue.MarkIoDone | ublkhelper.c:877-886 | sets commit and free in the flag word and the result, nothing else |
| QueueEngine.UblkQueue.CompleteIo | ublkhelper.c:889-898 | the exact record after marking and issuing |
| QueueEngine.UblkQueue.HandleCqe | ublkhelper.c:1006-1048 | the exact record for target, OK, NEED_GET_DATA and any other completion |
| QueueEngine.UblkQueue.ReapEvents | ublkhelper.c:1050-1063 | the loop handles every completion in order and returns their number |
| QueueEngine.UblkQueue.DiscardIoPages | ublkhelper.c:821-830 | the loop does what the machine's discard steps do |
| QueueEngine.UblkQueue.IdleEnter | ublkhelper.c:832-839 | discards and marks idle, once |
| QueueEngine.UblkQueue.IdleExit | ublkhelper.c:841-846 | clears the idle mark only |
| QueueEngine.UblkQueue.AwaitDrained | ublkhelper.c:1083-1087 | the wait ends after exactly as many completions as the positive counter showed, each preparing a command, with one signal and the lock free |
| QueueEngine.UblkQueue.ProcessIo | ublkhelper.c:1066-1103 | -ENODEV with nothing changed when done; else the barrier, one whole pass as the machine takes it, and the number reaped |
| QueueEngine.CompleteIsWorkerSteps | ublkhelper.c:877-898 | run alone, the machine's 3, 5 or 8 worker steps have the effect the method has |
| QueueEngine.HandleIsQueueSteps | ublkhelper.c:963-1048 | run alone, the machine's four steps of a request (reap, take, bind and spawn, count) or its one step of a failure leave the queue as the method does, with the request bound |
| QueueEngine.SpawnedMeaning | ublkhelper.c:1030-1033 | the tags handed over are those of the OK completions that are no target io, all of them, in order |
| QueueEngine.ReapIsQueueSteps | ublkhelper.c:1050-1063 | run alone, the machine's steps over a batch leave the queue as the reap does and spawn one worker per handed-over tag, in order, with the pooled requests in order |
| QueueEngine.OtherCompletions | ublkhelper.c:1018-1036 | a target completion changes nothing; NEED_GET_DATA prepares that command, clears the flag word and lowers the counter |
| QueueEngine.CompleteAllPrepares | ublkhelper.c:889-898 | the commands prepared during the wait are the commits of the finished requests, tags and results, in order |
| QueueEngine.ReapCounts | ublkhelper.c:1050-1063 | a reap stops the queue exactly when it meets an abort, counts up by the requests handed over, and touches slots only |
| QueueEngine.ReapMeaning | ublkhelper.c:1006-1063 | each mentioned slot ends as its completion says, given what came before it; all others are untouched |
| QueueEngine.PassMeaning | ublkhelper.c:1093-1101 | pages are given back exactly on a timeout with nothing reaped while neither stopping nor idle; the idle mark afterwards |
| GoPipeline.UblkDevice.FillPool | api.go:68-78 | 512 new requests with pairwise distinct buffers, in the order sent, without blocking |
| GoPipeline.FilledIsInit | api.go:69-78 | they are the machine's initial messages and its free channel in order, each with 524288 bytes |
| GoPipeline.FilledHasRoom | api.go:75 | a filled request has room for every request within the advertised limits |
| GoPipeline.UblkDevice.OnRequest | c_bridge.go:52-61 | takes the oldest pooled request and binds it to the slot |
| GoPipeline.UblkDevice.HandleRead | ublk.go:48-56 | reslices, fills the read data from the array, or with anything on an error, which is recorded; signals |
| GoPipeline.UblkDevice.HandleWrite | ublk.go:58-65 | writes the slot's data to the array, or anything on an error, which is recorded; signals |
| GoPipeline.UblkDevice.HandleUnmap | ublk.go:67-74 | the same for a discard |
| GoPipeline.UblkDevice.HandleRequest | ublk.go:25-46 | the dispatch by type, for every type word |
| GoPipeline.HandlerIsMachineSteps | ublk.go:48-78 | for every supported type and both outcomes the handler does to request and array what the machine's handler goroutine does |
| GoPipeline.DefaultIsMachineStep | ublk.go:38-40 | any other type is completed as the machine's dispatcher does it |
| GoPipeline.UblkDevice.Finish | c_bridge.go:65-82 | the exact queue, pool and request after the goroutine's tail, or that it is stuck |
| GoPipeline.UblkDevice.Serve | c_bridge.go:38-84 | one request alone from binding to return: array, request, queue and pool exactly |
| GoPipeline.TailMeaning | c_bridge.go:67-81 | exactly one commit and a free lock if and only if the request never failed and finds room; the commits, counter and stuck case otherwise |
| GoPipeline.TailIsWorkerSteps | c_bridge.go:65-82 | run alone, the machine's worker from its receive to its return does what the goroutine's tail does |
| GoPipeline.FailureIsReported | ublk.go:48-74 | a read, write or discard whose call fails has Result -1 and alone commits -5 first, then the ordinary reply; the exact outcome for every amount of room |
| GoPipeline.RoundIsDevice | c_bridge.go:71-81 | one request alone has the array device's effect and commits its answer's result and data |
| Packing.RoundTrip | ublkhelper.c:533-539 | tag, opcode and target bit are decoded unchanged whatever the target data |
| Packing.TargetDataFits | ublkhelper.c:538 | target data is decoded unchanged exactly when it fits 8 bits |
| Packing.IoctlKeepsNumber | ublkhelper.c:628-645 | ioctl encoding changes the opcode word and not the number packed into user_data |
| Packing.IoctlNumbers | ublkhelper.c:628-629 | the encoded words of the three io commands |
| Layout.MaskClears | ublkhelper.h:274-275 | and-ing with the complement of a power of two minus one clears the remainder |
| Layout.RoundUpIsLeast | ublkhelper.h:274-275 | the masking round_up is the least multiple not below its argument exactly when the addition does not wrap |
| Layout.LeastOfAll | ublkhelper.h:274-275 | no smaller multiple reaches the argument |
| Layout.BufSizes | ublkhelper.c:510-524 | a queue's mapping is the least number of whole pages for 24 bytes a tag, and fits the spacing of 4096 tags |
| Layout.OffsetIsExact | ublkhelper.c:710 | an area is mapped where it belongs if and only if the product fits a signed 32-bit integer |
| Layout.RecordInside | ublkhelper.c:510-531 | every tag's record lies inside its own queue's area if and only if the product does not overflow |
| Layout.RecordsDisjoint | ublkhelper.c:709-712 | records of different slots do not overlap while both products fit |
| Layout.DeviceLayout | ublkhelper.c:709-712 | all records of a device are in place and disjoint if and only if the last queue's product fits |
| Layout.FirstMisplaced | ublkhelper.c:710 | with 4 KiB pages queue 21846 is the first misplaced one, and records of queues 0 and 43691 overlap |
| Params.StartIsValid | c_bridge.go:99-133 | start-up meets every assumption of the machine exactly when Size is not negative and neither count is a positive multiple of 65536 |
| Params.StartKeepsCounts | c_bridge.go:99-132 | counts from 1 to 65535 are kept, others become the default or are taken modulo 65536; pool, channels, buffers and sectors in numbers |
| Params.RingDepthIsMax | ublkhelper.c:479-503 | the ring is the larger of the queue depth and the target's own |
| Params.ReportedIsRoundedDown | c_bridge.go:199 | the reported size is Size rounded down to 512 |
| Params.LimitsAreEnough | ublkhelper.c:432-440 | honouring the advertised limits is exactly what the machine asks of the driver |
| Params.AdvertisedNumbers | ublkhelper.c:432-440 | the advertised limits in sectors |
| Params.AnyRequestMayCome | ublkhelper.c:432-440 | every request inside the device and the limits satisfies what the machine asks of the driver |
| Params.RequestsAreExact | ublkhelper.c:948-949 | for such requests no shift wraps, the handler's range is aligned and inside Size, and the commit result is the byte count |

## Left out

- NEED_GET_DATA in the state machine: never posted to a device without flags; the class models the branch.
- Target ios, eventfd, aio contexts, extra ios, user-copy and unprivileged modes: not enabled by the device this library creates; a target completion is only ignored, as the code does.
- The user_data word inside the class: ring entries hold tag and opcode, and `Packing` shows that the word carries them.
- Initial contents of allocated memory: slot results and buffers start at zero in the model; each result is written before it is read, and each buffer byte a handler or the driver uses as data is written first.
- Short reads and writes: a handler that returns fewer bytes and no error is not modelled; the code ignores the count.
- A request for an unregistered device: the hand-over returns without a worker and the counter is still raised (`c_bridge.go:44-46`); the device map and its lock are left out with it.
- Control-plane commands (add, start, stop, delete, get and set parameters) and their legacy fallback: their meaning is the driver's.
- The Done handshake and deleteC: notices of several queue threads meet one receive.
- UblkParams.BlockSize: stored, never advertised.
- The message's magic number, private_data and endian conversion: the message is passed in memory on one host.
- liburing, mmap, thread creation, priorities, affinity, PID files, sysfs, printing, the command-line tool and the example program.
- Fairness: progress is stated as bounded internal activity and absence of deadlock; which enabled thread runs next is the scheduler's.
