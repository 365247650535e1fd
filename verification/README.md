# Verified model of the accelerator firmware

The repository is a small SoC: a DMA engine, a command processor with vector, reduction and GEMM
accelerators, and portable C++ firmware that drives them through a cooperative scheduler. This Dafny
project models the firmware next to the register-level device it talks to, the C++ reference models the
accelerators are compared against, and two pieces of bench code with real arithmetic in them (the byte
memory image and the tiled read count), and proves what they keep.

`dafny verify dfyconfig.toml` checks everything.

## How the model is built

- **Device.** `DeviceModel.dfy` and `Mmio.dfy` give the register device as a value and as the mutable class
  `FakeMmio`: write-one-to-clear status, sticky pending bits, busy until completion. An environment, an arbitrary
  function of time, acts before *every* register access and before the interrupt line is sampled: it may
  finish or fault the transfer and the command in flight, tick the timer and raise error bits. A faulting
  operation may leave arbitrary bytes in its destination range. Commands are executed only while the global
  enable is set, and a transfer raises its interrupt only if its own enable is set. `RegisterMap.dfy` states what
  accesses do bit by bit, and what the drivers write in numbers. Nothing is assumed about the environment
  except where a theorem says so (`Fair`, `FaultFree`).
- **Firmware.** `Drivers.dfy` and `Scheduler.dfy` hold classes with the source's fields and methods, each
  method proved equal to a function on the device and scheduler state (`DriverProtocol`, `SchedulerSpec`).
- **From accesses to calls.** `Protocol.dfy` shows that a call of `run_once`, with completions arriving
  between any two of its register accesses, has exactly the effect of one abstract step on the completions
  it observed (`RunOnceExact`). `SchedulerSteps.dfy`, `Accounting.dfy`, `Priority.dfy`, `Termination.dfy`,
  `Urgency.dfy`, `CopyOrder.dfy` and `Observations.dfy` prove what every run of such steps keeps. `Runs.dfy`
  carries it back to runs from boot, in which submissions and calls alternate freely; `Recording.dfy` and
  `BootedOrders.dfy` do the same for the tasks recorded and for the ordering guarantees.
- **Interference.** `Interference.dfy` is an induction principle: a property of scheduler and device that
  survives single environment steps, wakeups and launches survives every call. It is used for operation
  accounting (`Ledger.dfy`, `Attribution.dfy`), liveness (`Liveness.dfy`) and memory (`Serializability.dfy`).
- **Memory.** `MemoryModel.dfy` gives byte memory and the effect of memory events: an operation in flight
  writes some bytes of its destination, and an operation that finishes leaves a copy or the reference
  operation of the operand bytes it has read, each at any moment of its flight. `Refinement.dfy` and
  `Pipeline.dfy` follow single tasks, `AtomicExecution.dfy` is the specification, and `Serializability.dfy` and
  `EndToEnd.dfy` show that at every moment of an interleaved, pipelined execution memory is what executing
  the DONE workloads one after the other leaves.
- **Reference models.** `VectorModel.dfy`, `ReductionModel.dfy` and `GemmModel.dfy` model the vector, reduction
  and GEMM reference code with its loops, in fixed width (`Accumulators.dfy`), against exact integer
  specifications; `Modular.dfy` proves truncating arithmetic modular, and `Sums.dfy` and `Matrices.dfy` hold the
  sums, congruences and matrices used. What the specifications mean is stated apart from them, in plain integers:
  `ByteOrder.dfy` for elements in memory, `ElementMeaning`, `ProductMeaning` and `Represents` for the operations,
  and `RequestMeaning.Fulfilled` for whole requests. `ByteLanes.dfy`, `MemoryImage.dfy` and `Tiling.dfy` are the bench code.

The main theorems are in `Correctness.dfy`. `FirmwareIsCorrect`: boot on idle hardware, submit well-placed
workloads and call the scheduler, in any order; each workload may read and overwrite what DONE tasks have
written, but is clear of the tasks that are unfinished when it is submitted. On a fault-free environment that
never makes an engine wait `bound` accesses in a row, 1 + bound * (total stages) further calls leave every task
DONE and memory outside the scratchpad as executing the workloads one after the other makes it.
`RequestsRunInSequence` and `RequestsAreServed` say the same in terms of the submission arguments
(`RequestMeaning.dfy` gives each request's meaning, as bytes of the reference models and in plain integers), and `UrgentTaskIsServed` bounds the time to serve a task of
highest priority whatever else is queued.

`Bench.dfy` applies them to the mixed workload of the SoC bench: its expectations on states, dispatch order,
completions and outputs hold for any data on any such environment. Its expectation that some call has stalled
does not: `MixedWorkloadStalls` gives the exact condition, `MixedWorkloadStallsOnSlowHardware` an environment
on which it holds, and `MixedWorkloadMayNotStall` one on which it fails.

## Assumptions about the hardware

- It completes only operations that are in flight, each once.
- It is idle at boot; interrupt, status and other register bits may be left over from before.
- A completion sets DONE (and ERROR) and its interrupt bits in one step. By `docs/register_map.md` the DMA interrupt
  bit depends on bit 1 of `DMA_CTRL`, and command execution on bit 0 of `CTRL`; the test double knows neither.
- The transfer and the command are latched when the start and submit bits are written. At any time before it is
  complete an operation may write any bytes to its destination range, unless it works in place, and it reads
  each operand byte at any time it is in flight; when it finishes without a fault, its destination holds the
  exact result of the bytes it has read.
- Address and dimension rules are those of `docs/dma.md`, `docs/vector_accelerator.md`,
  `docs/reduction_accelerator.md` and `docs/gemm_accelerator.md`; an operation that breaks them faults
  without touching memory. The RTL itself is not part of this model.
- Register accesses do not fail.
- Only the hardware writes memory while the firmware runs.

`FakeMmio` in the firmware tests would restart a busy engine, whereas `docs/dma.md` rejects a start while
busy; the model follows the code, and `Protocol.DmaStartSucceeds` and `Protocol.CommandSubmitSucceeds` show
that the scheduler never starts a busy engine, so the difference cannot be observed.

## Model

| member | source | states |
|---|---|---|
| Correctness.FirmwareIsCorrect | sim/verilator/sim_main.cpp:867-909 | what the mixed-workload bench expects of completions and outputs, for all workloads, environments and orders of submissions and calls: on idle, fair, fault-free hardware, if each well-placed workload is clear of the tasks unfinished when it is submitted, 1 + bound * stages further calls leave every task DONE and listed in the completion order, and every byte outside the scratchpad as the reference models produce it one workload after the other |
| Correctness.EverythingIsDone | sim/verilator/sim_main.cpp:851-863 | under the same hardware assumptions the polling loop ends with every task DONE, every operation of every task dispatched once, and all tasks in the completion order |
| Correctness.UrgentTaskIsServed | firmware/rtos/cooperative_scheduler.cpp:53-73 | priority from boot: after any submissions and calls, and whatever of lower priority is submitted from then on, a task of strictly highest priority is terminal within 2 * bound further calls per stage, however many others are queued; on fault-free hardware with well-placed workloads it is DONE |
| Correctness.FirstIsBest | sim/verilator/sim_main.cpp:864-866 | for all workloads: the first operation dispatched is that of the task which precedes every other by priority, then submission order |
| Correctness.StallsExactly | sim/verilator/sim_main.cpp:917-918 | for all workloads: a complete run has counted a stall if and only if some task is unfinished after (operations + 1) calls |
| Correctness.SlowHardwareStalls | sim/verilator/sim_main.cpp:917-918 | for all workloads: the second call stalls if and only if it does not see the end of the first transfer, in terms of what the environment does at its first two accesses; an environment that makes the engine wait there makes the run count a stall |
| Correctness.EagerHardwareNeverStalls | sim/verilator/sim_main.cpp:917-918 | for all workloads: on hardware that finishes each operation by the next register access no call ever stalls |
| Correctness.RunsAreClean | firmware/rtos/cooperative_scheduler.cpp:166-205 | with well-placed workloads on hardware without faults of its own, no operation the scheduler starts is ever rejected, in any run from boot |
| Correctness.NobodyFails | firmware/rtos/cooperative_scheduler.cpp:297-307 | in such a run no task is ever in ERROR |
| Correctness.TransferIsLegal | firmware/rtos/cooperative_scheduler.cpp:166-194 | every transfer of a well-placed task, in any phase, obeys the alignment, region and overlap rules of the DMA engine |
| Correctness.RequestsAreServed | firmware/workloads/workload_api.cpp:23-122 | up to 16 acceptable, well-placed, isolated requests, submitted and called in any order: 1 + 4 * bound * (requests) further calls leave each task DONE and its destination holding what the request's own arguments ask for, computed from the source bytes at boot, as bytes of the reference models and element by element in plain integers, and nothing else outside the scratchpad has changed |
| Correctness.RequestsRunInSequence | firmware/workloads/workload_api.cpp:23-122 | requests that depend on each other: up to 16 acceptable, well-placed requests, each clear of the tasks unfinished when it is submitted but free to read and overwrite what DONE ones have written: after 1 + 4 * bound * (requests) further calls memory outside the scratchpad is what serving the requests' own arguments one after the other makes it |
| Correctness.TasksAreRequests | firmware/workloads/workload_api.cpp:23-122 | however submissions and calls alternate, the tasks are the acceptable requests in submission order, with the workload of their entry point and their priority |
| Recording.RunRecords | firmware/rtos/cooperative_scheduler.cpp:116-126 | from any linked state, submissions append their workloads and priorities in order and calls never change one |
| RequestMeaning.RequestMeansReference | firmware/workloads/workload_api.cpp:23-122 | for each of the six entry points the recorded opcode, flags, dimensions and addresses make the hardware compute exactly the operation asked for, at the destination asked for |
| RequestMeaning.ExpectedFulfils | sim/verilator/sim_main.cpp:873-909 | the expected bytes mean, element by element with the lower byte first: source bytes for a copy; for a vector operation the represented sum, the ReLU or the clamp of the elements at the same place; the represented sum or a greatest element for a reduction; for GEMM the represented row-by-column sum of products |
| Correctness.StepFulfils | sim/verilator/sim_main.cpp:873-909 | serving one request in the sequential specification fulfils it in that sense and changes nothing outside its destination |
| Bench.MixedWorkloadIsServed | sim/verilator/sim_main.cpp:785-909 | for all data, interference and fair timing, after 1 + 28 * bound calls: seven tasks DONE with a completion time, GEMM dispatched first, seven completions, and the seven outputs as expected, as bytes and in plain integers |
| Bench.MixedWorkloadStalls | sim/verilator/sim_main.cpp:917-918 | the exact condition of the stall expectation: it is met if and only if some task is unfinished after 23 calls |
| Bench.MixedWorkloadStallsOnSlowHardware | sim/verilator/sim_main.cpp:917-918 | one direction in terms of the environment alone: a first transfer still in flight at the first two accesses of the second call meets the stall expectation |
| Bench.MixedWorkloadMayNotStall | sim/verilator/sim_main.cpp:917-918 | a fair, fault-free environment on which the stall expectation fails |
| Bench.MixedWorkloadFits | sim/verilator/sim_main.cpp:31-63 | the bench's requests are acceptable, well placed and isolated |
| Serializability.RunsAreSerializable | firmware/rtos/cooperative_scheduler.cpp:53-73 | from any linked state, for any chosen set of the tasks submitted from then on: if each of them is clear of the tasks unfinished when it is submitted, and unfinished ones stay clear of later ones, then at every moment settled memory outside the scratchpad is what executing the DONE ones one after the other makes of the memory at the start; operations in flight may read and write at any moment |
| EndToEnd.RunsRefineAtomicExecution | firmware/rtos/cooperative_scheduler.cpp:166-205 | the same from boot for all tasks, tasks in ERROR or not: outside the scratchpad and the destinations of tasks that have started their copy or store and are not DONE, memory is exactly what atomic execution of the DONE workloads in submission order leaves |
| EndToEnd.TaskRefines | firmware/rtos/cooperative_scheduler.cpp:166-205 | one task alone, whatever the others do: if no destination of a task whose lifetime overlaps its own meets its ranges or slot, then once it is DONE every byte of its destination that no other destination covers is the reference result of its sources as they were when it was submitted |
| AtomicExecution.ChoosingOneMore | firmware/rtos/cooperative_scheduler.cpp:309-314 | a task that finishes out of submission order changes the sequential result in its own destination only |
| EndToEnd.PipelinedRefinement | firmware/rtos/cooperative_scheduler.cpp:166-205 | over every run from boot of isolated workloads under every interference, faults included: each DONE task's destination holds the reference operation of its original source bytes, the destination of a task that has not started its copy or store is unchanged, and so are all bytes outside the scratchpad and the destinations |
| EndToEnd.IsolatedIsCareful | firmware/rtos/cooperative_scheduler.cpp:316-330 | workloads isolated from each other meet the assumption of serializability in every run |
| Serializability.MoveSerial | firmware/rtos/cooperative_scheduler.cpp:207-295 | the serializability invariant survives every environment step, wakeup and launch |
| Serializability.SubmissionSerial | firmware/rtos/cooperative_scheduler.cpp:116-126 | a submission that is clear of the unfinished tasks keeps it: the new task finds its sources as the sequential execution leaves them |
| Serializability.OthersUntouched | firmware/rtos/cooperative_scheduler.cpp:316-330 | whatever one unfinished task writes avoids the external ranges and the slot of every other unfinished task of the chosen set |
| Serializability.TransferringSerial | docs/dma.md:25-39 | a transfer in flight that has already written any bytes to its destination range keeps the invariant |
| Serializability.TransferSerial | firmware/rtos/cooperative_scheduler.cpp:166-199 | a finished transfer, having read each source byte at any moment of its flight, advances exactly its owner's data by one stage; a faulted one loses only its owner's |
| MemoryModel.SeenIsNow | docs/dma.md:25-39 | when an operand range has not changed since an operation was started, it has read the present bytes, at whatever moments it has read them |
| Serializability.CommandSerial | firmware/rtos/cooperative_scheduler.cpp:201-205 | the same for a finished or faulted accelerator command |
| Refinement.TransferAdvances | firmware/rtos/cooperative_scheduler.cpp:166-194 | each DMA phase moves what memory holds for the task from k completed operations to k + 1 |
| Refinement.TransferringKeeps | docs/dma.md:25-39 | in each DMA phase, early writes of the transfer in flight leave what memory holds for its task alone |
| Refinement.CommandComputesReference | firmware/rtos/cooperative_scheduler.cpp:366-379 | the command made for a task whose sources are loaded computes the reference result, into the task's output buffer |
| Refinement.CommandAdvances | firmware/rtos/cooperative_scheduler.cpp:366-379 | after the command the slot holds the reference result and the loaded sources and external ranges are intact |
| Refinement.HoldsFrame | firmware/include/soc_memory_map.hpp:15-20 | writes that avoid a task's ranges and slot leave everything memory holds for it alone |
| Liveness.EverythingTerminates | firmware/rtos/cooperative_scheduler.cpp:53-79 | from boot, whatever has been submitted and called: if the environment never waits `bound` accesses in a row, all tasks are terminal after 1 + bound * (total stages) further calls |
| Liveness.FairTermination | firmware/rtos/cooperative_scheduler.cpp:53-79 | from any linked state with anything in flight: all tasks are terminal after 1 + bound * (operations to dispatch and in flight) calls |
| Liveness.FinishedIsObserved | firmware/rtos/cooperative_scheduler.cpp:55-57 | an operation that finished by the first access of a call raises the interrupt line and is observed by that call |
| Liveness.UnobservedHasWaited | firmware/rtos/cooperative_scheduler.cpp:207-232 | an operation no call observes keeps its owner, and if still in flight the environment made it wait at every access of the call |
| Ledger.OperationsAreConserved | firmware/rtos/cooperative_scheduler.cpp:154-295 | over every run from boot each dispatched operation is in flight or has left the hardware exactly once, and the ERROR tasks plus the unserved faults are as many as the faults reported |
| Attribution.RunsAreAttributable | firmware/rtos/cooperative_scheduler.cpp:154-307 | over every run from boot the operations retired can be shared out among the tasks so that each task's share is its own pipeline in order, as far as it has got; a task is in ERROR if and only if one of its own operations is a fault and has been served |
| Attribution.MoveAttributed | firmware/rtos/cooperative_scheduler.cpp:207-307 | the attribution survives every environment step, wakeup and launch, at most growing by the operation retired |
| Ledger.TerminalBalance | firmware/rtos/cooperative_scheduler.cpp:75-79 | when all tasks are terminal, nothing is in flight, operations retired equal operations dispatched, and failed tasks equal reported faults |
| Ledger.MoveBalanced | firmware/rtos/cooperative_scheduler.cpp:207-307 | the balance survives every environment step, wakeup and launch |
| Interference.CallSurvives | firmware/rtos/cooperative_scheduler.cpp:53-73 | any property that survives single environment steps, wakeups and launches survives a whole call, whatever happens between its register accesses |
| Interference.TickParts | firmware/tests/firmware_tests.cpp:70-83 | an environment step is a DMA completion, then a command completion, then nothing the owners can see |
| Runs.RunsAreExecutions | firmware/rtos/cooperative_scheduler.cpp:53-73 | every run of submissions and calls against the device is an execution of abstract steps on the completions observed; no exception escapes and ownership holds throughout |
| Runs.FromBoot | firmware/rtos/cooperative_scheduler.cpp:37-73 | from boot on idle hardware with any timer interval, under any interference: no escaping exception, ownership, stage accounting, completion order and timing, at most 64 dispatches, calls = dispatches + stalls + idle calls |
| Runs.BootLinks | firmware/rtos/cooperative_scheduler.cpp:37-51 | after boot on idle hardware scheduler and device are linked, whatever interrupt and status bits were left over and whatever the timer interval; boot throws exactly for an interval over 24 bits |
| Runs.BootConfigures | firmware/rtos/cooperative_scheduler.cpp:37-51 | boot leaves CTRL with the enable bit alone, IRQ_ENABLE with the five sources alone, and the timer off for interval 0, periodic with the interval in its upper bits if it fits, untouched if not |
| Runs.StaysConfigured | firmware/rtos/cooperative_scheduler.cpp:37-73 | that configuration holds in every state of every run, so commands keep being executed and completions signalled |
| Runs.StaleCompletionsWakeNobody | firmware/rtos/cooperative_scheduler.cpp:207-232 | a pending completion of a resource without an owner changes nothing about a call, whether the other resource is in use or not, and an operation launched by the call starts with no completion pending |
| Runs.RunSurvives | firmware/rtos/cooperative_scheduler.cpp:53-73 | a stable property that submissions keep holds in every state of every run |
| Protocol.RunOnceExact | firmware/rtos/cooperative_scheduler.cpp:53-73 | no lost and no spurious wakeups: under every interleaving of completions a call throws nothing, its effect is exactly one step on the completions it observed, and ownership and link hold again |
| Protocol.ServiceSampledExact | firmware/rtos/cooperative_scheduler.cpp:207-252 | serving one sample of the pending word is exactly serving the completions it shows, and leaves free resources with no completion pending |
| Protocol.AcknowledgeExact | firmware/rtos/cooperative_scheduler.cpp:249-251 | acknowledging exactly the sampled bits loses no completion that arrived since and leaves none pending for a free resource |
| Protocol.ServiceDmaExact | firmware/rtos/cooperative_scheduler.cpp:211-218 | a sampled DMA completion reaches its owner with the status it completed with; one arriving later stays pending |
| Protocol.ServiceCommandExact | firmware/rtos/cooperative_scheduler.cpp:220-232 | the same for command completions, with the status read after the sample |
| Protocol.DmaStartSucceeds | firmware/drivers/hardware_drivers.cpp:10-26 | on a quiet engine a start of nonzero length throws nothing and latches exactly the transfer asked for, with its completion interrupt enabled and none pending |
| Protocol.CommandSubmitSucceeds | firmware/drivers/hardware_drivers.cpp:42-64 | on a quiet command processor a submit throws nothing and latches exactly the descriptor asked for |
| Protocol.WriteAllStores | firmware/drivers/hardware_drivers.cpp:52-62 | a staged register keeps its value until the commit write, whatever happens between the writes |
| Protocol.SelectAndDispatchExact | firmware/rtos/cooperative_scheduler.cpp:59-72 | the dispatch half of a call is exactly one launch or one counted stall; no driver exception is reachable |
| Protocol.TickKeeps | firmware/tests/firmware_tests.cpp:70-83 | what an environment step cannot change: the link, a quiet resource, idle status and every register but the interrupt, status and error ones |
| SchedulerSteps.RunsKeepStructure | firmware/rtos/cooperative_scheduler.cpp:144-205 | ownership in every reachable state: the DMA owner is exactly the task blocked on DMA, in a DMA phase; the same for the accelerator and EXECUTE; none RUNNING; COMPLETE only with DONE; ERROR only from a device report, of the accelerator in EXECUTE and of the DMA engine in any other phase |
| SchedulerSteps.ServeDmaKeepsStructure | firmware/rtos/cooperative_scheduler.cpp:254-284 | serving a DMA completion keeps ownership, frees the engine and reaches no exception or invalid phase |
| SchedulerSteps.LaunchKeepsStructure | firmware/rtos/cooperative_scheduler.cpp:154-205 | dispatching a candidate keeps ownership, and a candidate is never in COMPLETE |
| SchedulerSteps.SubmissionExact | firmware/workloads/workload_api.cpp:23-122 | every submission in full: rejected as an invalid argument exactly for sizes out of range, for capacity exactly at 16 tasks, and otherwise the returned id is the place of the one new task, whose every field is given by the arguments |
| SchedulerSteps.CompletionExact | firmware/rtos/cooperative_scheduler.cpp:254-314 | for any owner and any status: the task fails exactly for an operation not finished cleanly, with the reason of the resource, and otherwise moves one stage on or is DONE after its last one |
| SchedulerSteps.UnexpectedCompletion | firmware/rtos/cooperative_scheduler.cpp:254-284 | from any state: a completion in a phase without a transfer fails the task for that reason, and the overflow exception leaves exactly for a second source of 2^32 bytes or more |
| SchedulerSteps.DispatchExact | firmware/rtos/cooperative_scheduler.cpp:154-205 | from any state: one more entry in dispatch_order, then finished, or blocked on and owning the resource of its phase, or running and owning no more if the driver throws |
| SchedulerSteps.FailedDispatch | firmware/rtos/cooperative_scheduler.cpp:67-72 | an exception of the driver fails the task with that exception as its reason and leaves it no resource |
| Accounting.StageAccounting | firmware/rtos/cooperative_scheduler.cpp:154-164 | in every reachable state a task's id occurs in dispatch_order once per operation behind it, plus one if blocked or failed |
| Accounting.DispatchBound | firmware/rtos/cooperative_scheduler.cpp:116-164 | DONE tasks have exactly 1, 3 or 4 dispatches by workload, and dispatch_order never exceeds 64 |
| Accounting.CompletionOrder | firmware/rtos/cooperative_scheduler.cpp:309-314 | completion_order lists each DONE task exactly once and no others, with strictly increasing completed_at |
| Accounting.CompletionTiming | firmware/rtos/cooperative_scheduler.cpp:297-314 | a DONE task with L stages has completed_at >= submitted_at + L + 1 |
| Accounting.TimeStamps | firmware/rtos/cooperative_scheduler.cpp:116-126 | submitted_at is the number of calls at submission and never changes; completed_at is the number of the call in which the task became DONE or ERROR |
| Accounting.TimerTicksCounted | firmware/rtos/cooperative_scheduler.cpp:234-238 | over any run the tick count grows by the number of calls that observed the timer bit |
| Accounting.TerminalIsForever | firmware/rtos/cooperative_scheduler.cpp:297-314 | a DONE or ERROR task is the same in every later state |
| Accounting.StallMeansInFlight | firmware/rtos/cooperative_scheduler.cpp:59-65 | deadlock freedom: when nothing can be selected but some task is unfinished, an operation is in flight |
| Accounting.CallOutcome | firmware/rtos/cooperative_scheduler.cpp:53-73 | each call dispatches once, counts one stall, or finds all tasks terminal; a counted stall has an operation in flight |
| Accounting.CallConservation | firmware/rtos/cooperative_scheduler.cpp:53-79 | over any run calls = dispatches + stalls + calls made when all tasks were terminal |
| Observations.StallCount | firmware/rtos/cooperative_scheduler.cpp:53-79 | of the calls of a complete run up to the first moment at which all tasks are terminal, the last one only serves and every other one dispatches or stalls |
| Priority.SelectionIsBest | firmware/rtos/cooperative_scheduler.cpp:128-142 | the scan selects task i if and only if i is ready with its resource free and outranks every other such task by priority, then submission order |
| Priority.PriorityStep | firmware/rtos/cooperative_scheduler.cpp:53-73 | a task of strictly highest priority that is ready once completions are served, even if woken by this very call, is dispatched in the call if its resource is free by then; otherwise nothing is dispatched on that resource and it stays ready; either way it stays the top task |
| Priority.BoundedInversion | firmware/rtos/cooperative_scheduler.cpp:128-164 | one wait is for one operation: over any calls without the completion of the operation that owns its resource nothing is dispatched there, and the call that brings it dispatches the task |
| Urgency.UrgencyBound | firmware/rtos/cooperative_scheduler.cpp:53-73 | the whole life of a top-priority task: its stages left, twice `bound` each, and what remains of the operation it waits for or owns bound the calls until it is terminal, whatever else is queued |
| Urgency.CallLowersUrgency | firmware/rtos/cooperative_scheduler.cpp:53-73 | that measure falls with every call, or the task is terminal |
| Urgency.TopTaskFinishes | firmware/rtos/cooperative_scheduler.cpp:53-73 | the same next to the device, from any linked state and with further submissions of lower priority: at most one foreign and one own operation of `bound` calls per stage |
| BootedOrders.PriorityFromBoot | firmware/rtos/cooperative_scheduler.cpp:53-73 | the priority guarantee in every call of every run from boot |
| Priority.ServedOwners | firmware/rtos/cooperative_scheduler.cpp:211-229 | a resource is freed by its own completion and by nothing else |
| Termination.TerminationBound | firmware/rtos/cooperative_scheduler.cpp:53-79 | if every operation is observed complete within D calls, all tasks are terminal after 1 + D * (operations to dispatch) + (rest of the operations in flight) calls, from any state |
| Termination.WeightAtMostStages | firmware/rtos/cooperative_scheduler.cpp:53-79 | from any state that is at most D * (total stages) |
| Termination.CallLowersWeight | firmware/rtos/cooperative_scheduler.cpp:154-205 | the weighted measure over stages left and ages in flight falls with every call that has an operation in flight |
| Termination.InFlightAfterCall | firmware/rtos/cooperative_scheduler.cpp:53-73 | after any call either all tasks are terminal or an operation is in flight |
| CopyOrder.CopiesRunInStableOrder | firmware/rtos/cooperative_scheduler.cpp:128-164 | any complete run of copies submitted up front has dispatch_order equal to the stable sort by descending priority and completion_order equal to its DONE part |
| BootedOrders.CopiesFromBoot | firmware/rtos/cooperative_scheduler.cpp:128-164 | the same for runs from boot, under every interference and whichever copies fault |
| Layout.AcceptedByteCounts | firmware/rtos/cooperative_scheduler.cpp:332-364 | for every accepted workload no byte count overflows; each is twice its element count and at most 512, and the second source is empty exactly when the operation has none |
| Layout.ByteCountsExact | firmware/rtos/cooperative_scheduler.cpp:332-364 | for any workload, accepted or not, each byte count is twice the element count if that fits in 32 bits and the overflow exception otherwise |
| Layout.CheckedProductExact | firmware/rtos/cooperative_scheduler.cpp:18-25 | a product is returned exactly if the upper half of its 64 bits is zero; otherwise the overflow exception |
| Layout.WorkloadOfIsAccepted | firmware/workloads/workload_api.cpp:23-122 | whatever the six entry points accept satisfies the task invariant |
| Layout.AcceptsExactly | firmware/workloads/workload_api.cpp:23-122 | accepted if and only if the sizes are in range: nonzero length for copies, 1 to 256 elements for vectors and reductions, dimensions from 1 to 8 for GEMM; every rejection is an invalid argument |
| Layout.AcceptedIffExecutable | firmware/workloads/workload_api.cpp:36-122 | the entry points take exactly what the hardware can execute: some command for the operation and sizes asked for passes the accelerator rules |
| Layout.AcceptedIsRecorded | firmware/workloads/workload_api.cpp:23-122 | every field of the recorded workload in terms of the arguments: opcode, addresses, sizes, flag bits, zero where unused |
| Layout.SlotAddresses | firmware/rtos/cooperative_scheduler.cpp:316-330 | slot addresses do not wrap around 2^32, are word aligned and lie in the 64 KiB scratchpad |
| Layout.ScratchpadSeparation | firmware/include/soc_memory_map.hpp:9-20 | the three buffers of accepted tasks are word aligned, inside their own slot, and pairwise disjoint within a task and across tasks |
| Layout.AcceptedCommandIsLegal | firmware/rtos/cooperative_scheduler.cpp:366-379 | every command made for an accepted task has a valid opcode and passes the accelerators' dimension, alignment, range and overlap rules |
| Layout.CommandIdentity | firmware/rtos/cooperative_scheduler.cpp:366-379 | a command carries its task's priority and an id no other task's command has |
| Layout.AcceptedTransfer | firmware/rtos/cooperative_scheduler.cpp:166-194 | an accepted task in a DMA phase always has a transfer of nonzero length: the overflow, zero-length and invalid-phase exceptions are unreachable |
| Tasks.OperationFlags | firmware/workloads/workload_api.cpp:10-19 | the flag word has the signed and saturate bits as asked and the completion interrupt always on |
| Scheduler.ComputeFlags | firmware/workloads/workload_api.cpp:10-19 | accumulating the bits in a local gives that word |
| Scheduler.CooperativeScheduler.constructor | firmware/rtos/cooperative_scheduler.cpp:29-35 | a new scheduler is empty and wired to the device |
| Scheduler.CooperativeScheduler.BootSystem | firmware/rtos/cooperative_scheduler.cpp:37-51 | boot writes 1 to CTRL, 31 to IRQ_ENABLE and then the timer control word, or throws for an interval of 2^24 or more; the resulting configuration bit by bit; on idle hardware the empty scheduler is then linked to the device |
| Scheduler.CooperativeScheduler.AddTask | firmware/rtos/cooperative_scheduler.cpp:116-126 | a task is appended with the next id, or the capacity exception leaves everything unchanged |
| Scheduler.CooperativeScheduler.SubmitDmaCopy | firmware/workloads/workload_api.cpp:23-34 | accepted exactly for nonzero length and a free place; returns the new task's index; capacity exception exactly at 16 tasks; whole new state |
| Scheduler.CooperativeScheduler.SubmitVectorAdd | firmware/workloads/workload_api.cpp:36-49 | accepted exactly for lengths 1 to 256 and a free place; returns the new task's index; capacity exception exactly at 16 tasks; whole new state |
| Scheduler.CooperativeScheduler.SubmitVectorReluOrClamp | firmware/workloads/workload_api.cpp:51-72 | the same, with the opcode chosen by the clamp argument |
| Scheduler.CooperativeScheduler.SubmitReduceSum | firmware/workloads/workload_api.cpp:74-88 | accepted exactly for lengths 1 to 256 and a free place; returns the new task's index; capacity exception exactly at 16 tasks; whole new state |
| Scheduler.CooperativeScheduler.SubmitReduceMax | firmware/workloads/workload_api.cpp:90-103 | the same, never saturating |
| Scheduler.CooperativeScheduler.SubmitGemm | firmware/workloads/workload_api.cpp:105-122 | accepted exactly for three dimensions from 1 to 8 and a free place; returns the new task's index; capacity exception exactly at 16 tasks; whole new state |
| Scheduler.CooperativeScheduler.RunOnceCall | firmware/rtos/cooperative_scheduler.cpp:53-73 | the whole new state of scheduler and device; on linked scheduler and device no exception leaves and the link is kept |
| Scheduler.CooperativeScheduler.SelectReadyTask | firmware/rtos/cooperative_scheduler.cpp:128-142 | the loop returns the selection of the specification, characterised by Priority.SelectionIsBest |
| Scheduler.CooperativeScheduler.AllTasksTerminal | firmware/rtos/cooperative_scheduler.cpp:75-79 | true exactly when every task is DONE or ERROR |
| Scheduler.CooperativeScheduler.DispatchTask | firmware/rtos/cooperative_scheduler.cpp:154-164 | whole new state: RUNNING, recorded in dispatch_order, then finished, submitted or started by phase |
| Scheduler.CooperativeScheduler.StartDma | firmware/rtos/cooperative_scheduler.cpp:166-199 | the owner and the blocked state are set only if the driver call succeeds |
| Scheduler.CooperativeScheduler.StartAccelerator | firmware/rtos/cooperative_scheduler.cpp:201-205 | the same for the accelerator |
| Scheduler.CooperativeScheduler.ServicePending | firmware/rtos/cooperative_scheduler.cpp:207-252 | one sample of the pending word, each source served in order, exactly the sampled sources acknowledged |
| Scheduler.CooperativeScheduler.CompleteDmaStage | firmware/rtos/cooperative_scheduler.cpp:254-284 | the next phase, the completion or the failure of the owner, with every exceptional path |
| Scheduler.CooperativeScheduler.CompleteAcceleratorStage | firmware/rtos/cooperative_scheduler.cpp:286-295 | the owner goes to STORE_OUTPUT, or fails |
| Scheduler.CooperativeScheduler.Fail | firmware/rtos/cooperative_scheduler.cpp:297-307 | ERROR with reason and time, and any resource the task owned is released |
| Scheduler.CooperativeScheduler.Finish | firmware/rtos/cooperative_scheduler.cpp:309-314 | DONE, COMPLETE, time recorded, appended to completion_order |
| SchedulerSpec.Acknowledged | firmware/rtos/cooperative_scheduler.cpp:209-251 | the acknowledged mask is exactly the sampled bits of the five known sources |
| SchedulerSpec.FailTask | firmware/rtos/cooperative_scheduler.cpp:297-307 | a failed task owns no resource, and no other task loses one |
| SchedulerSpec.InterruptMask | firmware/rtos/cooperative_scheduler.cpp:39-45 | exactly the five sources are enabled |
| Drivers.DmaDriver.Start | firmware/drivers/hardware_drivers.cpp:10-26 | invalid argument exactly for zero length, busy exactly if the status read says so; otherwise the device after clearing the status, staging the three words and writing 3 to DMA_CTRL |
| Drivers.DmaDriver.Status | firmware/drivers/hardware_drivers.cpp:28-34 | one read, decoded into busy, done and error |
| Drivers.AcceleratorDriver.Submit | firmware/drivers/hardware_drivers.cpp:42-64 | invalid argument exactly for opcode 0, busy exactly if the status read says so; otherwise the device after clearing the status, the eleven staging writes and the commit |
| Drivers.InterruptDriver.Acknowledge | firmware/drivers/hardware_drivers.cpp:88-90 | one write-one-to-clear of the pending word |
| Drivers.TimerDriver.StartPeriodic | firmware/drivers/hardware_drivers.cpp:94-106 | the exception for an interval of 0 or of 2^24 or more, with no access; otherwise one write of 3 + 256 * interval |
| Drivers.TimerDriver.Stop | firmware/drivers/hardware_drivers.cpp:108 | one write of zero |
| DriverProtocol.TimerWord | firmware/drivers/hardware_drivers.cpp:101-105 | bit by bit: enabled, periodic, and the interval in the upper 24 bits |
| RegisterMap.StartAccesses | firmware/drivers/hardware_drivers.cpp:10-26 | a start in register accesses and numbers: one read of 0x030, then 6 to 0x030, the three operands to 0x020, 0x024 and 0x028, and 3 to 0x02C |
| RegisterMap.SubmitAccesses | firmware/drivers/hardware_drivers.cpp:42-64 | a submit: one read of 0x060, then 3 to 0x060, eleven operands each to its register, and 1 to 0x05C |
| RegisterMap.BootAccesses | firmware/rtos/cooperative_scheduler.cpp:37-51 | boot: 1 to 0x008, 31 to 0x014, and 0 or 3 + 256 * interval to 0x018 unless it throws |
| RegisterMap.ServiceInOrder | firmware/rtos/cooperative_scheduler.cpp:211-251 | the accesses after the sample, in order and in numbers: DMA status read if owned and cleared, the same for the command status, error bits read and written back, the five low bits of the sample acknowledged, each only if sampled |
| RegisterMap.WriteMeaning | firmware/tests/firmware_tests.cpp:39-63 | every bit of every register after a write: cleared by a one, replaced by busy or pending, stored, or unchanged |
| RegisterMap.TransferEndMeaning | docs/soc_integration.md:51-64 | every bit of every register after a transfer leaves the engine; the interrupt only with the engine's own enable |
| RegisterMap.CommandEndMeaning | docs/register_map.md:62-64 | the same for a command, which stays where it is without the global enable |
| RegisterMap.OtherEventsMeaning | docs/soc_integration.md:51-64 | what a timer tick and an error change, bit by bit |
| RegisterMap.LineMeaning | docs/services.md:29-32 | the interrupt line is up exactly when some source is pending and enabled |
| Mmio.FakeMmio.Write | firmware/tests/firmware_tests.cpp:39-63 | write-one-to-clear for the three status words, plain store elsewhere, start and submit raise busy and latch the staged operation |
| Mmio.FakeMmio.Read | firmware/tests/firmware_tests.cpp:32-37 | the pending word or the register, after the environment has acted |
| Mmio.FakeMmio.IrqAsserted | firmware/tests/firmware_tests.cpp:65-68 | the line is up exactly when an enabled bit is pending |
| Mmio.FakeMmio.CompleteDma | firmware/tests/firmware_tests.cpp:70-75 | DONE, ERROR on a fault, and the pending bit in one step |
| Mmio.FakeMmio.CompleteAccelerator | firmware/tests/firmware_tests.cpp:77-83 | DONE, ERROR on a fault, and both pending bits in one step |
| MemoryModel.EncodeDecode | sim/verilator/sim_main.cpp:126-149 | element encoding undoes decoding, and an element is its first byte plus 256 times its second one |
| MemoryModel.DecodeEncode | sim/verilator/sim_main.cpp:126-149 | decoding undoes encoding, and an element is its first byte plus 256 times its second one |
| ByteOrder.DecodeBits | sim/verilator/sim_main.cpp:138-149 | the lower byte first: bit i of a decoded element is bit i % 8 of byte i / 8 of its two |
| ByteOrder.EncodeBits | sim/verilator/sim_main.cpp:126-136 | bit by bit, the lower half of an element goes to the even and the upper half to the odd address |
| ByteOrder.EncodedWord | sim/verilator/sim_main.cpp:151-163 | two encoded elements read as one bus word are the first plus 2^16 times the second |
| GemmModel.GemmOperation | models/cpp/gemm_model.hpp:13-54 | dimensions that fail the 64-bit check are rejected, dimensions whose accesses leave the vectors are told apart, and otherwise every output is the dot product modulo 2^64, converted once; when truncating, and when saturating up to the limit, every entry represents the exact row-by-column sum of products |
| GemmModel.SaturatingLimit | models/cpp/gemm_model.hpp:27-46 | the exact limit: all saturating products of a shape are exact if and only if inner is at most 2^33 - 1 (signed) or 0x100020003 (unsigned) |
| GemmModel.AccessesStayInside | models/cpp/gemm_model.hpp:17-49 | for dimensions that pass the check, every 64-bit index stays inside its vector if and only if no size product wraps around |
| GemmModel.AccumulatorsFit | models/cpp/gemm_model.hpp:27-46 | no 64-bit accumulator overflows for inner up to that limit, at any step and for any data |
| GemmModel.DotBounds | models/cpp/gemm_model.hpp:31-45 | the exact range of an n-term dot product, signed and unsigned |
| GemmModel.Accumulate | models/cpp/gemm_model.hpp:28-45 | the inner loop computes the dot product modulo 2^64 |
| GemmModel.GemmEntry | models/cpp/gemm_model.hpp:37-49 | the row-major place of each output |
| Modular.SignednessIrrelevantGemm | models/cpp/gemm_model.hpp:25-52 | with saturate off signed and unsigned GEMM are bit-identical |
| Modular.TruncatedOutput | models/cpp/gemm_model.hpp:25-52 | truncating once at the end equals wrapping every product and sum to 16 bits |
| Modular.GemmAssociative | models/cpp/gemm_model.hpp:25-52 | truncating GEMM is associative, for all matrices and either signedness |
| Modular.TruncatedSum | models/cpp/reduction_model.hpp:22-34 | truncating a sum once equals wrapping at every step, in either signedness |
| Modular.SignednessIrrelevantVector | models/cpp/vector_model.hpp:43-75 | with saturate off add, multiply and scale do not depend on signedness |
| ReductionModel.ReductionOperation | models/cpp/reduction_model.hpp:15-49 | errors exactly for an empty source or unknown opcode; a sum is the total modulo 2^64, converted once; when truncating, and when saturating up to the limit, it represents the exact sum of the values; a maximum is the greatest element in the chosen signedness whatever the saturate flag |
| ReductionModel.SaturatingLimit | models/cpp/reduction_model.hpp:22-35 | the exact limit: all saturating sums of n elements are exact if and only if n is at most 2^48 (signed) or 0x1000100010001 (unsigned) |
| ReductionModel.ReductionShapeIndependent | models/cpp/reduction_model.hpp:22-46 | for every size: partial sums in 64-bit accumulators combined over any tree and converted once equal the loop's result, exact ones the exact result, and maxima the maximum |
| ReductionModel.SignedMaximum | models/cpp/reduction_model.hpp:38-44 | the loop from the least 32-bit integer ends at the greatest element |
| ReductionModel.UnsignedMaximum | models/cpp/reduction_model.hpp:45-46 | the library maximum is the greatest element |
| ReductionModel.TotalBounds | models/cpp/reduction_model.hpp:22-35 | the range of a sum of n elements |
| VectorModel.VectorOperation | models/cpp/vector_model.hpp:84-98 | every element of the result in plain integers of the elements at the same place and the scalar, for all five operations; success and each error exactly as the code has them, at the first element that meets them |
| VectorModel.VectorElement | models/cpp/vector_model.hpp:43-82 | each branch is the exact integer operation converted once; unknown opcodes exactly are rejected |
| VectorModel.ElementYields | models/cpp/vector_model.hpp:43-82 | the specified element is the represented sum or product, the ReLU, or the clamp of the two values, each described without the branches of the code |
| VectorModel.ConvertMeaning | models/cpp/vector_model.hpp:24-41 | a saturating conversion is the nearest representable value, a truncating one agrees modulo 2^16, a representable value is kept |
| VectorModel.SignedElement | models/cpp/vector_model.hpp:14-22 | two's-complement value: in range and congruent to the bits |
| Accumulators.ConvertWrapped | models/cpp/reduction_model.hpp:22-35 | converting a 64-bit accumulator is converting the exact sum, always when truncating and in range when saturating |
| ByteLanes.MaskedWord | sim/verilator/register_main.cpp:43-55 | writing the strobed bytes of a little-endian word is merging the strobed lanes with the word mask |
| ByteLanes.StrobeExtremes | sim/verilator/dma_main.cpp:106-137 | a fully strobed write is read back as the data written; an unstrobed one changes nothing |
| ByteLanes.ApplyLanes | sim/verilator/register_main.cpp:43-55 | bit by bit, the word-mask form takes strobed lanes from the new value and the rest from the old |
| ByteLanes.WordOf | sim/verilator/dma_main.cpp:106-116 | or-ing shifted bytes gives each bit of the little-endian word |
| MemoryImage.RangeFits | sim/verilator/dma_main.cpp:172-180 | accepts exactly the ranges wholly inside the region, without wraparound |
| MemoryImage.Image.Locate | sim/verilator/dma_main.cpp:142-155 | finds the region and offset exactly for ranges inside one region |
| MemoryImage.Image.ReadWord | sim/verilator/dma_main.cpp:106-120 | the little-endian word of the four bytes, or failure and 0 outside the regions |
| MemoryImage.Image.WriteWord | sim/verilator/dma_main.cpp:122-137 | the word read back is apply_strobe(old, data, strobe), every other byte of both regions is untouched, and an illegal address changes nothing |
| MemoryImage.Image.ReadBytes | sim/verilator/dma_main.cpp:98-104 | the stored bytes, or the range exception |
| Tiling.ExpectedReadRequests | sim/verilator/gemm_main.cpp:43-58 | the tiles visited partition the outputs, and the count is inner * (rows * ceil(columns / 4) + columns * ceil(rows / 4)) |
| Tiling.TilingReducesReads | sim/verilator/gemm_main.cpp:634-636 | that is never more than the naive 2 * rows * columns * inner, and equal only for a single output |

## Left out

- The SystemVerilog RTL, the command queue, the memory fabric and the cycle-level behaviour of the engines: DMA and accelerators are abstract operations with the documented address rules.
- The Verilator fixtures, clocks, tracing, random stimulus and performance reports, among them the hardware counters the mixed-workload bench reads at the end (`sim/verilator/sim_main.cpp:911-916`).
- The timer value, the performance driver and `performance_snapshot`: straight-line register reads.
- Exactness of the timer tick count: two ticks before one acknowledgement are one tick, by design of the sticky bit.
- Register accesses that fail: they are assumed not to.
- Task names and error message texts: a failed task records its reason as a value.
- The `CMD_OP_DMA_COPY` command of the command queue: the firmware starts copies through the DMA registers.
- Mmio.FakeMmio.Write: a write of ERROR_STATUS is a plain store, as in the test double, not the write-one-to-clear of the hardware.
- Scheduler.CooperativeScheduler.RunOnceCall: counters of calls, stalls and ticks are unbounded, where the source's 64-bit ones would wrap after 2^64 calls.
- GemmModel.GemmOperation: signed accumulator overflow, undefined in C++ and possible only above the limit, is modelled as two's-complement wrap-around; accesses outside the vectors end in the outcome `OutOfBounds`, and their effect is not modelled.
- ReductionModel.ReductionOperation: signed overflow is modelled as wrap-around, for the same reason.
- Bench.MixedWorkloadIsServed: the stall expectation of the bench is not in this contract, because it depends on the timing; `Bench.MixedWorkloadStalls` states when it holds.
- Correctness.FirmwareIsCorrect: memory is compared outside the scratchpad only, since the scratchpad slots are the firmware's working storage.
- `fill` and `write_bytes` of the memory image: plain range copies.
