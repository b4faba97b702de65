# A model of the docker-vm contract engine

The contract engine runs smart contracts in sandbox processes.  A request scheduler
puts every transaction into the request group of its contract; a group loads the
contract's bytecode, buffers while it waits, and asks one of two process managers
(original and cross-contract calls) for processes; a manager owns a bounded pool of
processes, creates them with Linux users taken from a pool that both managers share,
moves idle ones from one contract to another and cleans up; a process runs one
transaction at a time under a timer and its own lock.  This project models that
engine as state machines, proves properties of all their runs, and models four
smaller parts of the repository beside it: the protobuf wire codec, the LRU and the
contract files it lists, the call tree of nested calls, and the merge of a write map
with gas.

## How it is built

* **Components.**  `ManagerModel`, `GroupModel` and `ProcessModel` give each component
  a state, the events that may happen to it (`Enabled`) and what they do (`Apply`).  A
  handler that holds a lock while goroutines fan out is a job whose items are done in
  any order, one event each.  `ManagerIndexes`, `ManagerOrder`, `ManagerWakeups`,
  `ManagerCleaning`, `ManagerChains`, `GroupModel`, `GroupOrder` and `ProcessModel` prove
  what every run of a component keeps, and exactly where it does not.  `HandlerOutcomes`
  and `AllocationOutcomes` say what the manager's handlers have done when they end: how
  many processes a group has got and which, what it was told, who still waits.
* **The engine.**  `EngineModel` composes scheduler, groups, two managers, processes
  and the user pool; a step is a message arriving or one component's event.
  `EngineWiring`, `EngineSafety` and `EngineSteps` prove the invariant that ties the
  components together (`Wired`), and on it rest `EngineConservation`,
  `EngineWakeups`, `EngineRouting`, `EngineProgress`, `EngineComponents`,
  `EngineTimeouts`, `EngineStranded`, `EngineReaders` and `EngineFates`.  On the vocabulary
  of `EngineRuns`, `EngineExample` walks two transactions from arrival to answer, so that
  none of these theorems speaks of nothing, and `EngineReload` walks two runs that leave a
  transaction behind.
* **Locks.**  `LockOrder` takes the locks apart: taking and releasing the manager lock
  and a process's lock are separate steps of listener, handler worker and stream
  threads.
* **Objects.**  `FixedFifo`, `LruCache`, `ContractStore`, `CallTree`,
  `ProcessManagers`, `RequestGroups`, `Processes` and `Schedulers` hold classes with
  the fields and loops of the code; their methods are proved equal to the functions
  above, so the theorems are about them.
* **Codec.**  `Wire`, `Codec`, `CodecRoundTrip`, `CodecContext` and `CodecValid` treat a
  message type as a list of field kinds; `MessageTypes` lists the types and `Messages` has
  them as records with named fields and their bytes; `Marshal` writes an array from the back
  and `Unmarshal` reads by index, as the generated code does.

Names, transactions, groups, processes and users are numbers where only their
identity matters; contract keys and process names are strings.

## What the code does not do

Where a promise turned out not to hold, the code is modelled as it is and the exact
condition is proved.

* A contract has its key for itself exactly when no part of its name contains `#`
  (`Keys.KeyUniqueExactly`); for every other one `Keys.SharedKey` gives a second contract.
* A process name repeats exactly when the counter has gone round 2^64 times
  (`Keys.ProcessNameRepeats`).
* After a bad contract is reported a group may wait for bytecode with transactions in its
  queues and none in its buffer.  If that load fails with no or one transaction buffered
  and the flag off, the queued ones are attended to by nobody
  (`GroupModel.UnattendedExactlyWhen`).  With none buffered the event loop is stuck
  (`GroupModel.BlocksExactlyWhen`), and once no process reads the queue its transactions
  stay there over every further run (`EngineStranded.RunStrands`,
  `EngineReload.LeftForEver`); with one buffered they stay until a further transaction of
  the contract comes (`EngineReload.LeftUntilRoused`).
* The `popTimer` deferred by the exit that completes a sandbox change runs only after the
  exit of the new sandbox; when that one is started once more, the late `popTimer` can
  cancel the timer of the third (`ProcessModel.LatePopCancelsTimer`).  In the engine a live
  process that listens or is busy loses its timeout in no other way
  (`EngineTimeouts.StepTimeout`, `EngineTimeouts.LostByLatePop`).
* A tick of the clean timer that finds nothing to release is the last one
  (`ManagerCleaning.CleaningStops`); one that comes before any process is idle is such a
  tick (`ManagerCleaning.FirstTickStops`).
* Whether an idle process already serves a contract is decided by name and version without
  the chain.  So a group may be told that it has a process when its counterpart on another
  chain has it (`ManagerChains.PromiseBroken`), and a group may wait beside an idle process
  with no token pending (`ManagerChains.IdleLost`).  `ManagerChains.SuppliedExactly` and
  `ManagerWakeups.IdleLostExactly` say which steps do this; on one chain the first never
  happens and the second only when a sandbox refuses to change.
* A contract is listed before its file is written and stays listed when that fails, so the
  next request for it is answered as ready without a file
  (`ContractStore.ReadyWithoutFile`); one event does this exactly when it is an unwritten
  response for a contract that is not on disk (`ContractStore.StoredStep`).
* With no LRU entries allowed every contract response fails
  (`ContractStore.AcceptedExactly`, `ContractStore.NothingWithoutEntries`).
* A map entry's key or value may end behind its entry, so such an entry is read differently
  in front of different bytes (`CodecContext.UntidyEntry`,
  `MessageTypes.UntidyTxContext`); every other record reads the same whatever follows
  (`CodecContext.TidyExactly`).
* Finishing the original transaction adds its counts to themselves
  (`CallTree.RootFinishDoubles`).
* Write-map keys with an empty field or a fourth part are further names of the address
  without field, and then the order of the map decides (`WriteMap.SecondKeys`,
  `WriteMap.OrderIrrelevantExactly`).  A merge that fails leaves what it wrote before, which
  depends on the order as well (`WriteMap.FailureShowsOrder`).

## Model

| member | source | states |
|---|---|---|
| `EngineWakeups.NoLostWakeup` | vm_mgr/module/core/request_group.go:292-336 | in every run of the engine, for every group and both managers: a set processWaiting flag has its request in the manager's channel, in the handler at work, on the waiting list, or answered by a response not yet taken; and a ready group with queued transactions and no flag has a live process or a response coming |
| `EngineWakeups.GroupCares` | vm_mgr/module/core/request_group.go:440-457 | for every event of a group: the flag is set only together with a request, and a group comes to hold queued transactions without a flag only when it saw a live process of its own |
| `EngineWakeups.StepCares` | vm_mgr/module/core/process_manager.go:780-824 | every engine step, of whichever component, keeps every group attended to or provided for |
| `ManagerWakeups.AttendedStep` | vm_mgr/module/core/process_manager.go:221-363 | whatever the manager does, a request stays in its channel, its handler, its waiting list or its outgoing responses until the response is delivered |
| `ManagerWakeups.ProvidedStep` | vm_mgr/module/core/process_manager.go:757-789 | a group that has a process or a response coming keeps one of the two: its last process never leaves without telling it |
| `EngineConservation.NothingLostOrDuplicated` | vm_mgr/module/core/process.go:617-821 | in every run the copies of a transaction under way (scheduler, inbox, buffer, queues, process, error channel) and those finished (answered, failed, expired) are as many as were accepted; one accepted once ends at most once, and is gone from everywhere exactly when it has ended |
| `EngineConservation.StepConserved` | vm_mgr/module/core/request_scheduler.go:182-230 | every engine step keeps that count for every transaction |
| `EngineConservation.GroupConserves` | vm_mgr/module/core/request_group.go:221-289 | a group passes each transaction on once: to a reader of its queues or back as one error |
| `ProcessModel.StepConserves` | vm_mgr/module/core/process.go:469-577 | every event of a process, including the idle hand-back and all kinds of exit, passes on exactly what the process no longer holds |
| `EngineSteps.UsersNeverRunOut` | vm_mgr/module/core/user_manager.go:55-108 | in every run: free users and users of live processes of both managers add up to all users, no two live processes share one, a handler about to create a process gets a user at once, giving one back never meets a full queue, and nobody waits |
| `EngineSafety.SlotHasUser` | vm_mgr/module/core/process_manager.go:593-612 | in every wired state a free slot of either manager comes with a free user that no live process has |
| `EngineSafety.UserFits` | vm_mgr/module/core/process_manager.go:626-636 | in every wired state the user queue has room for each live process's user and stores it at the end |
| `EngineSteps.StepWired` | vm_mgr/module/core/process_manager.go:188-590 | every engine step keeps managers, processes, groups, scheduler and user pool consistent with each other |
| `EngineSteps.InitialWired` | vm_mgr/module/manager.go:39-62 | two managers of capacity MaxOriginalProcessNum and CallContractDepth times that, with as many different users as both together, start consistent |
| `EngineSafety.ManagerEnabled` | vm_mgr/module/core/process_manager.go:593-623 | what the manager model asks of its surroundings (fresh users and processes, agreement only from sandboxes whose exit is not reported) is what the engine provides |
| `Schedulers.UserManager.constructor` | vm_mgr/module/core/user_manager.go:55-85 | batch creation fills the queue with MaxOriginalProcessNum*(CallContractDepth+1) different users, which is the configuration the engine theorems start from |
| `Schedulers.UserManager.GetAvailableUser` | vm_mgr/module/core/user_manager.go:88-97 | taking a user is taking from the fixed queue |
| `Schedulers.UserManager.FreeUser` | vm_mgr/module/core/user_manager.go:100-108 | giving a user back is putting it into the fixed queue, and the error tells exactly when the queue refused |
| `EngineRouting.RightContract` | vm_mgr/module/core/request_scheduler.go:142-150 | in every run a process that runs a transaction belongs to the only group with that transaction's contract key; without `#` in the transaction's names chain, contract and version agree |
| `EngineRouting.StepRoutes` | vm_mgr/module/core/process.go:824-844 | every engine step keeps every transaction with its own contract, also across sandbox changes |
| `EngineProgress.HandlersEnd` | vm_mgr/module/core/process_manager.go:221-363 | in every run a handler that holds the manager lock can go on to its end by its own steps alone, whatever its processes refuse and without waiting for a user, and in no order of its items and with no outcomes does it take more steps than a bound known in advance |
| `EngineProgress.HandlerEnds` | vm_mgr/module/core/process_manager.go:536-590 | from any wired state the run of steps that ends the handler |
| `EngineProgress.EveryOrderEnds` | vm_mgr/module/core/process_manager.go:449-590 | from any wired state: while a handler is at work, its steps and those it has left never exceed what it had left |
| `EngineProgress.StepShortens` | vm_mgr/module/core/process_manager.go:385-590 | every step of a running handler, whichever item and outcome, shortens its work, and no other step of the engine touches it |
| `EngineComponents.ComponentsKeepTheirPromises` | vm_mgr/module/core/process_manager.go:342-362 | in every run of the engine, with no assumption on the surroundings: popTimer of no process can block and ticks belong to the state they are handled in, every group buffers only while it waits with its timer, and waiting groups never face free slots without a pending token |
| `EngineComponents.StepAnnounces` | vm_mgr/module/core/process_manager.go:366-382 | every engine step keeps free slots announced to waiting groups, since creation always finds a user |
| `EngineTimeouts.LostByLatePop` | vm_mgr/module/core/process.go:617-622 | in every run of the engine a live process that listens or is busy without a timeout has had it cancelled by a late popTimer, at a step that is given |
| `EngineTimeouts.StepTimeout` | vm_mgr/module/core/process.go:580-613 | an engine step takes a process's timeout away if and only if it is a late popTimer of a live process that listens or is busy; a refused ready timeout does not occur |
| `EngineStranded.RunStrands` | vm_mgr/module/core/request_group.go:484-508 | queued transactions of a group without contract, request and reader stay queued over every run in which no transaction of the contract and no unasked bytecode arrives, and over every run at all when the event loop is stuck |
| `EngineStranded.StepStrands` | vm_mgr/module/core/request_group.go:365-393 | every engine step of any component keeps them stranded, with the same queue |
| `EngineReload.LeftForEver` | vm_mgr/module/core/process.go:670-697 | for every call depth allowed, every contract and two original transactions a run of the engine that strands the second: the first fails with its process and reports the contract, the reload is refused, the loop is stuck, and no run from there moves the second |
| `EngineReload.LeftUntilRoused` | vm_mgr/module/core/request_group.go:365-393 | for every call depth allowed the run in which a third transaction is buffered: it fails, and the second stays until something rouses the group |
| `EngineExample.Served` | vm_mgr/module/core/process.go:287-360 | for every call depth allowed, every original transaction has a run of the engine from the initial state to its answer, and every further original one of the contract within the depth, met by a group that is ready, is answered after it |
| `EngineReaders.IdleComesBack` | vm_mgr/module/core/process.go:512-536 | in every run an idle process whose group has a transaction queued can take it while its manager's lock is free, gives it back to the scheduler and is ready again |
| `EngineReaders.ReadyTakes` | vm_mgr/module/core/process.go:469-509 | a ready process can take the first queued transaction of its group at once, and then runs just that one |
| `EngineReaders.StepListens` | vm_mgr/module/core/process.go:287-360 | every engine step leaves every idle process listening to its own group's queue, unless it holds a transaction from it |
| `EngineFates.StartedAtMostOnce` | vm_mgr/module/core/process.go:469-509 | in every run of the engine a transaction is sent to a sandbox no more often than it was accepted, and exactly as often as it was answered, crashed its sandbox or still runs |
| `EngineFates.CrashIsOneError` | vm_mgr/module/core/process.go:617-821 | in every run a transaction accepted once whose sandbox exited while it ran, timed out or not, is one error for the chain and nowhere else: not answered, not queued again |
| `EngineFates.ReturnedUnstarted` | vm_mgr/module/core/process.go:512-536 | in every run only the idle hand-back and the missing contract file give a transaction back to the scheduler, and it had not been started then |
| `EngineFates.WithinDepthFailsOnly` | vm_mgr/module/core/request_group.go:221-255 | in every run an error for a transaction within the call depth comes from a step, which is given, at which its contract could not be loaded or executed, it had waited too long, or its sandbox exited |
| `EngineFates.StepCaused` | vm_mgr/module/core/process.go:617-821 | at every engine step the answers, drops, errors, forwarded errors and returned transactions are exactly those the step's kind gives cause for |
| `EngineFates.StepRuns` | vm_mgr/module/core/process.go:539-577 | at every engine step what sandboxes were sent and still have balances with what they answer or lose in a crash |
| `LockOrder.NoDeadlock` | vm_mgr/module/core/process.go:413-466 | in every interleaving: no handler waits for the lock of a process whose listener waits for the manager's; a process listed idle is idle unless its listener is inside the ready timeout or the handler is about to record its change; and the threads inside can always finish until all locks are free |
| `LockOrder.StepOk` | vm_mgr/module/core/process.go:512-536 | every lock, unlock, test and state change of every thread keeps the lock invariant |
| `LockOrder.Progress` | vm_mgr/module/core/process.go:580-613 | while some thread is inside, one of the threads inside can take a step |
| `LockOrder.Drains` | vm_mgr/module/core/process_manager.go:188-218 | letting threads inside go on, one by one, ends with every lock free within a number of steps known in advance |
| `ManagerIndexes.IndexesAgree` | vm_mgr/module/core/process_manager.go:694-777 | over every run of a manager: idle and busy are disjoint and together within the maximum, the groups list exactly the live names under their own contract with no empty group, and two live processes have different names as strings |
| `ManagerIndexes.StepGood` | vm_mgr/module/core/process_manager.go:188-218 | every event that may happen can be carried out, with its map lookups and slices in range, and keeps the tables in agreement |
| `ManagerOrder.IdleLongestFirst` | vm_mgr/module/core/process_manager.go:714-735 | over every run of a manager, of two idle processes the one that has been idle longer is further in front, so what the handlers take from the front has been idle longest |
| `ManagerOrder.WaitingLongestFirst` | vm_mgr/module/core/process_manager.go:342-362 | over every run, of two waiting groups the one that has waited longer is further in front |
| `ManagerOrder.StepQueues` | vm_mgr/module/core/process_manager.go:188-590 | every event leaves both lists in that order: who stays keeps its place before those behind it and those who come |
| `ManagerWakeups.NoLostCapacity` | vm_mgr/module/core/process_manager.go:449-590 | over every run: with working creations, the lock free and a group waiting no slot is free or a token is pending on allocateNewCh; a waiting group and an idle process coexist only with a token on allocateIdleCh or after an event that lost it, and never without a token on one chain with willing sandboxes |
| `ManagerWakeups.SlotsStep` | vm_mgr/module/core/process_manager.go:366-446 | every event keeps free slots used, or announced by a token or the handler at work |
| `ManagerWakeups.IdleLostExactly` | vm_mgr/module/core/process_manager.go:714-735 | an event leaves idle processes and waiting groups unannounced if and only if a picked process stays idle, because it refuses or serves the same name and version already, and a waiting group is left that no token and no other pair covers |
| `ManagerWakeups.NeverLoses` | vm_mgr/module/core/process_manager.go:449-533 | no such event happens on one chain with sandboxes that agree |
| `ManagerChains.IdleLost` | vm_mgr/module/core/process_manager.go:488-505 | for every three contracts of which two differ in the chain only: a run that ends with the third waiting beside an idle process, the lock free and no token pending |
| `ManagerChains.AnswerMeansProcess` | vm_mgr/module/core/process_manager.go:342-362 | in every run on one chain with working creations a response that promises processes is sent only to a group with a live process of its own |
| `ManagerChains.SuppliedExactly` | vm_mgr/module/core/process_manager.go:305-310 | the handler comes to count processes for a group that has none if and only if it counts an idle one of the same name and version from another group |
| `ManagerChains.PromiseBroken` | vm_mgr/module/core/process_manager.go:305-310 | for every two contracts that differ in the chain only: a run that tells the second it has a process while it has none |
| `ManagerCleaning.CleaningStops` | vm_mgr/module/core/process_manager.go:385-446 | in every run cleaning is over if and only if some tick found nothing to release, and then for good |
| `ManagerCleaning.StepStops` | vm_mgr/module/core/process_manager.go:399-402 | a step ends cleaning if and only if it is a tick whose release number is not positive |
| `ManagerCleaning.FirstTickStops` | vm_mgr/module/core/process_manager.go:385-402 | whatever the configuration, a first tick before any process is idle ends it |
| `ProcessModel.ExitExactly` | vm_mgr/module/core/process.go:617-821 | an exit ends the process unless its sandbox was being started or changed, and then it is started again; the manager hears of every end it did not ask for; the contract is reported as bad if and only if its file could not be started for a transaction or the sandbox of a listening or busy process died after an init or upgrade |
| `ProcessModel.TimerDiscipline` | vm_mgr/module/core/process.go:968-986 | in every run of a process popTimer cannot block, timerPopped means no tick is left, and a tick pending while listening or busy is from the timer started on entering that state |
| `ProcessModel.TimerStep` | vm_mgr/module/core/process.go:870-898 | every event keeps that discipline |
| `ProcessModel.TimeoutLostExactly` | vm_mgr/module/core/process.go:580-613 | an event leaves a listening or busy process without a timeout if and only if it is a late popTimer, due since a later exit, or a ready timeout that the manager refuses |
| `ProcessModel.LatePopCancelsTimer` | vm_mgr/module/core/process.go:617-657 | a run over a sandbox change, the exit it causes, the exit of the new sandbox and its restart that ends with a listening process without timeout |
| `ProcessModel.LatePopNeedsTwoExits` | vm_mgr/module/core/process.go:617-657 | over every run a late popTimer comes only after two exits |
| `GroupOrder.OrderPreserved` | vm_mgr/module/core/request_group.go:396-437 | over every history of a group, for either kind: transactions handed to processes, then queued, then buffered are the arrivals in order without the errored ones |
| `GroupOrder.OrderStep` | vm_mgr/module/core/request_group.go:484-508 | every event keeps that order, across load, failure, timeout and reload |
| `GroupModel.ContractLoading` | vm_mgr/module/core/request_group.go:339-362 | in every reachable state a group buffers only while it waits for bytecode and waits exactly while its timer is armed or its tick pending |
| `GroupModel.LoadingStep` | vm_mgr/module/core/request_group.go:460-481 | every event keeps that agreement |
| `GroupModel.OneRequestPerWait` | vm_mgr/module/core/request_group.go:460-508 | over every run of a group the contract is requested once for each wait: requests are as many as the waits that bytecode, a refusal or the timer ended, and one more exactly while the group waits |
| `GroupModel.DrainQueues` | vm_mgr/module/core/request_group.go:553-582 | draining appends the original ones to one queue and the others to the other, each in buffer order |
| `GroupModel.BlocksExactlyWhen` | vm_mgr/module/core/request_group.go:484-508 | a step makes the event loop wait for ever exactly when a failed or late load meets an empty buffer |
| `GroupModel.BlockedForever` | vm_mgr/module/core/request_group.go:484-508 | a blocked group never asks, answers, errs or moves a transaction again |
| `GroupModel.UnattendedExactlyWhen` | vm_mgr/module/core/request_group.go:365-393 | a step leaves queued transactions without contract, load and request if and only if a load fails with at most one transaction buffered and the flag off, or the flag goes off after such a failure |
| `GroupModel.DepthExactly` | vm_mgr/module/core/request_group.go:221-289 | a transaction from the inbox of a ready group gets an error if and only if it is deeper than the limit, and is otherwise the last of the queue of its kind; without the contract it is the last one buffered |
| `GroupModel.AsksExactly` | vm_mgr/module/core/request_group.go:292-336 | a ready group without a request out asks for just as many processes as are missing for its queue, for none if and only if none are missing, and its flag says whether it asked |
| `EngineComponents.AsksForMissing` | vm_mgr/module/core/request_group.go:292-336 | in the engine a ready group that takes a response asks its manager for as many processes as its queue is longer than its processes that are neither ready nor busy yet, and for none if it is not longer |
| `GroupModel.BadExactly` | vm_mgr/module/core/request_group.go:365-393 | a bad contract is heeded if and only if it is the file in use, and asked for again if and only if transactions are queued |
| `HandlerOutcomes.RequestOutcome` | vm_mgr/module/core/process_manager.go:221-363 | a request of num, in whatever order and whatever fails: the group gains one process for each of the first min(num, free slots) creations that succeeded, and of as many of the oldest idle processes as are then missing exactly those of another contract that agree; it is told the sum with those of its own contract, and joins the waiting list if and only if the sum is 0 |
| `HandlerOutcomes.RequestServed` | vm_mgr/module/core/process_manager.go:221-363 | when everything works and no idle process is of the contract: min(num, free slots) new processes, then the oldest idle ones for the rest as far as there are any; the others stay idle in order, the response carries the sum |
| `HandlerOutcomes.RequestOfNone` | vm_mgr/module/core/process_manager.go:221-240 | a request of none takes the group off the waiting list and answers it, and does nothing else |
| `HandlerOutcomes.CleanOutcome` | vm_mgr/module/core/process_manager.go:385-446 | a cleaning, in whatever order and whatever fails: of the oldest idle processes, as many as the free part of the capacity falls short of the wanted part, exactly those that agreed and gave their users back are gone; a token is left if any agreed |
| `HandlerOutcomes.CleanFrees` | vm_mgr/module/core/process_manager.go:385-446 | when all agree, afterwards just the wanted part of the capacity is free, or what was free and idle if that is less, and the oldest were closed; the timer runs again if and only if any was |
| `AllocationOutcomes.IdleOutcome` | vm_mgr/module/core/process_manager.go:449-533 | an allocation of idle processes, in whatever order and whatever fails: the i-th oldest is offered to the i-th longest waiting group; exactly those of another contract that agree change over, and their groups are told and wait no longer |
| `AllocationOutcomes.IdleServed` | vm_mgr/module/core/process_manager.go:449-533 | when all agree and none is of its group's contract the oldest go to the groups that waited longest, in order, until one list is exhausted; who still waits was behind them |
| `AllocationOutcomes.NewOutcome` | vm_mgr/module/core/process_manager.go:536-590 | an allocation of new processes: as many groups leave the waiting list, and slots are taken, as creations succeed; when all do, it is the front of the list, as long as there are free slots, with one process more each, and the rest waits in order |
| `Keys.ContractKeyInjective` | vm_mgr/utils/utils.go:82-84 | names without `#`: contract keys are equal exactly when chain, contract and version are |
| `Keys.KeyUniqueExactly` | vm_mgr/utils/utils.go:82-84 | no other contract has a contract's key if and only if none of its names contains `#` |
| `Keys.SharedKey` | vm_mgr/utils/utils.go:82-84 | for every contract with `#` in a name another contract with the same key |
| `Keys.ProcessNameFresh` | vm_mgr/utils/utils.go:87-100 | process names with different counter values below 2^64 differ as strings, whatever contract and index |
| `Keys.ProcessNameRepeats` | vm_mgr/module/core/process_manager.go:836-842 | for one contract and index two names are equal exactly when the counter values differ by a multiple of 2^64 |
| `FixedFifo.RunIsFair` | vm_mgr/utils/fixed_queue.go:37-95 | after any operations the k-th accepted taker holds the k-th accepted element, by hand-off or from the queue, and elements and waiting takers never coexist |
| `FixedFifo.RefusalIsExact` | vm_mgr/utils/fixed_queue.go:37-95 | an element is refused exactly when untaken elements fill the capacity, a taker exactly when the lead of takers fills the waiting room |
| `FixedFifo.FixedFIFO.Enqueue` | vm_mgr/utils/fixed_queue.go:37-55 | hands over to the first waiter, else stores, else refuses, leaving the queue unchanged |
| `FixedFifo.FixedFIFO.DequeueOrWaitForNextElement` | vm_mgr/utils/fixed_queue.go:59-95 | takes the first element, else waits, else is refused |
| `CodecRoundTrip.RoundTrip` | pb/protogo/dockervm_message.pb.go:2599-3258 | for every message of every listed type and every map order, unmarshalling the marshalled bytes gives the message back |
| `MessageTypes.AnyMapOrder` | pb/protogo/dockervm_message.pb.go:1501-1540 | a map written in any order decodes to the same map, with all other fields as they were |
| `MessageTypes.PutAssigns` | pb/protogo/dockervm_message.pb.go:3018-3117 | reading an entry does to a map field what Go's assignment does to a map |
| `MessageTypes.WrittenTags` | pb/protogo/dockervm_message.pb.go:1397-1580 | the tag bytes that the kinds of the message types give are the writers' constants |
| `MessageTypes.WritesTag` | pb/protogo/dockervm_message.pb.go:1397-1580 | whatever a field of any type writes starts with its tag byte |
| `MessageTypes.KnownRoundTrips` | pb/protogo/dockervm_message.pb.go:1382-2188 | for each of the message types: every message that fits its types comes back from its bytes, and so does every message decoded from any bytes |
| `Messages.CrossContextRoundTrip` | pb/protogo/dockervm_message.pb.go:1557-1580 | every CrossContext record with its Go fields in their ranges (depth, call list and the bit field of called runtimes in 64 bits) comes back from its bytes |
| `Messages.SysCallMessageRoundTrip` | pb/protogo/dockervm_message.pb.go:1501-1540 | every SysCallMessage record with its Go fields in their ranges (code, message and payload map) comes back from its bytes |
| `Messages.StepDurationRoundTrip` | pb/protogo/dockervm_message.pb.go:1597-1630 | every StepDuration record with its Go fields in their ranges (kind, start time and the two durations in 64 bits, message) comes back from its bytes |
| `Messages.TxContextRoundTrip` | pb/protogo/dockervm_message.pb.go:1731-1779 | every TxContext record with its Go fields in their ranges (write map and read map) comes back from its bytes |
| `Messages.TxRequestRoundTrip` | pb/protogo/dockervm_message.pb.go:1647-1714 | every TxRequest record with its Go fields in their ranges (names, method, parameters, optional context and chain) comes back from its bytes |
| `Messages.ContractEventRoundTrip` | pb/protogo/dockervm_message.pb.go:1922-1951 | every ContractEvent record with its Go fields in their ranges (topic, contract and data; Event and DockerContractEvent are this one) comes back from its bytes |
| `Messages.TxResponseRoundTrip` | pb/protogo/dockervm_message.pb.go:1796-1905 | every TxResponse record with its Go fields in their ranges (identifier, code, result, message, both maps, events and names) comes back from its bytes |
| `Messages.CallContractRequestRoundTrip` | pb/protogo/dockervm_message.pb.go:1968-2009 | every CallContractRequest record with its Go fields in their ranges (contract, method and arguments) comes back from its bytes |
| `Messages.ResponseRoundTrip` | pb/protogo/dockervm_message.pb.go:2026-2051 | every Response record with its Go fields in their ranges (status, message and payload) comes back from its bytes |
| `Messages.ContractResponseRoundTrip` | pb/protogo/dockervm_message.pb.go:2068-2142 | every ContractResponse record with its Go fields in their ranges (optional response, both maps and events) comes back from its bytes |
| `Messages.DockerVMMessageRoundTrip` | pb/protogo/dockervm_message.pb.go:1397-1484 | every DockerVMMessage record with its Go fields in their ranges (identifier, kind, the four optional parts, chain and step durations) comes back from its bytes |
| `Messages.CrossContextWritten` | pb/protogo/dockervm_message.pb.go:1557-1580 | the bytes of a CrossContext record are its fields in order, each behind its constant tag byte |
| `Messages.SysCallMessageWritten` | pb/protogo/dockervm_message.pb.go:1501-1540 | the bytes of a SysCallMessage record are its fields in order, each behind its constant tag byte |
| `Messages.StepDurationWritten` | pb/protogo/dockervm_message.pb.go:1597-1630 | the bytes of a StepDuration record are its fields in order, each behind its constant tag byte |
| `Messages.TxContextWritten` | pb/protogo/dockervm_message.pb.go:1731-1779 | the bytes of a TxContext record are its fields in order, each behind its constant tag byte |
| `Messages.TxRequestWritten` | pb/protogo/dockervm_message.pb.go:1647-1714 | the bytes of a TxRequest record are its fields in order, each behind its constant tag byte |
| `Messages.ContractEventWritten` | pb/protogo/dockervm_message.pb.go:1922-1951 | the bytes of a ContractEvent record are its fields in order, each behind its constant tag byte |
| `Messages.TxResponseWritten` | pb/protogo/dockervm_message.pb.go:1796-1905 | the bytes of a TxResponse record are its fields in order, each behind its constant tag byte |
| `Messages.CallContractRequestWritten` | pb/protogo/dockervm_message.pb.go:1968-2009 | the bytes of a CallContractRequest record are its fields in order, each behind its constant tag byte |
| `Messages.ResponseWritten` | pb/protogo/dockervm_message.pb.go:2026-2051 | the bytes of a Response record are its fields in order, each behind its constant tag byte |
| `Messages.ContractResponseWritten` | pb/protogo/dockervm_message.pb.go:2068-2142 | the bytes of a ContractResponse record are its fields in order, each behind its constant tag byte |
| `Messages.DockerVMMessageWritten` | pb/protogo/dockervm_message.pb.go:1397-1484 | the bytes of a DockerVMMessage record are its fields in order, each behind its constant tag byte |
| `Messages.Received` | pb/protogo/dockervm_message.pb.go:2599-2909 | whatever is decoded from any bytes as one of the types has a record |
| `CodecValid.DecodedRoundTrip` | pb/protogo/dockervm_message.pb.go:2599-3258 | for all byte strings: a decoded message comes back from the bytes it is written as |
| `CodecValid.DecodeValid` | pb/protogo/dockervm_message.pb.go:2599-3258 | whatever the decoder accepts has its numbers in range and each map key once, in nested messages, too |
| `Codec.SizeIsLength` | pb/protogo/dockervm_message.pb.go:2201-2592 | Size() is the number of bytes that marshalling writes |
| `Codec.NumRoundTrip` | pb/protogo/dockervm_message.pb.go:2599-2909 | a 32- or 64-bit signed or unsigned number, or an enumeration's, comes back from its 64-bit varint |
| `Wire.VarintRoundTrip` | pb/protogo/dockervm_message.pb.go:2190-2200 | reading a written varint gives the number and its length, whatever follows |
| `Wire.SovIsLength` | pb/protogo/dockervm_message.pb.go:2593-2595 | the closed size formula over the bit length counts the bytes of the varint |
| `Wire.SkipMonotone` | pb/protogo/dockervm_message.pb.go:5663-5740 | what is skipped, through nested groups, does not depend on the bytes behind it |
| `CodecContext.DecodeFront` | pb/protogo/dockervm_message.pb.go:2599-2909 | bytes that decode by themselves decode the same in front of anything, and the rest continues from their message |
| `CodecContext.UnknownIgnored` | pb/protogo/dockervm_message.pb.go:2880-2909 | a well-formed unknown field between two parts of a message, the first of which decodes by itself, changes nothing |
| `CodecContext.TidyExactly` | pb/protogo/dockervm_message.pb.go:2910-3138 | a record reads the same whatever follows if and only if it is not a map entry whose key or value ends behind its entry |
| `CodecContext.UntidyEntry` | pb/protogo/dockervm_message.pb.go:3018-3117 | for every message type that starts with a map, an entry whose key is whatever two bytes come next |
| `MessageTypes.UntidyTxContext` | pb/protogo/dockervm_message.pb.go:3018-3117 | a transaction context of that kind: an unknown field put between two records changes the key that is read |
| `Marshal.EncodeVarint` | pb/protogo/dockervm_message.pb.go:2190-2200 | writes the varint into the bytes before the index and nothing else |
| `Marshal.PutEntry` | pb/protogo/dockervm_message.pb.go:1501-1540 | writes value, key, length and tag of a map entry backwards, which is its encoding in order |
| `Marshal.MarshalFields` | pb/protogo/dockervm_message.pb.go:1397-1484 | writes the fields from the last to the first, nested messages in place, and the bytes are the encoding in field order |
| `Marshal.Marshal` | pb/protogo/dockervm_message.pb.go:1382-1397 | a buffer of exactly Size() bytes is filled completely, in bounds, with the encoding |
| `Unmarshal.DecodeVarint` | pb/protogo/dockervm_message.pb.go:2599-2640 | the shift loop, at most ten bytes and cut to 64 bits, reads what the recursive reader reads, and fails when it fails |
| `Unmarshal.Skip` | pb/protogo/dockervm_message.pb.go:5663-5740 | the loop over wire types and group depth ends on every byte string, in bounds, with the length that the recursive reader skips |
| `Unmarshal.EntryAt` | pb/protogo/dockervm_message.pb.go:3018-3117 | the loop over the parts of a map entry reads key and value as the recursive reader does |
| `Unmarshal.RecordAt` | pb/protogo/dockervm_message.pb.go:2910-3138 | one iteration on any bytes: a known field is merged into the message, an unknown one skipped, or an error |
| `Unmarshal.Unmarshal` | pb/protogo/dockervm_message.pb.go:2599-2909 | on every byte string the loop stays in bounds, advances and ends, with the message of the recursive reader or an error |
| `Lru.RefinesStamps` | vm_mgr/utils/lru.go:55-144 | after any operations the list is the table of keys with their last added values, ordered by latest use, and what is evicted is the key whose latest Add or Get is earliest |
| `Lru.WithinLimit` | vm_mgr/utils/lru.go:55-70 | a non-zero limit holds after every operation |
| `LruCache.Cache.Add` | vm_mgr/utils/lru.go:55-70 | list and map together do what the operation does to the list of entries, and stay in agreement |
| `LruCache.Cache.Get` | vm_mgr/utils/lru.go:73-82 | a hit gives the entry's value and moves it to the front, a miss changes nothing |
| `LruCache.Cache.Remove` | vm_mgr/utils/lru.go:85-92 | takes the key's entry out of list and map |
| `LruCache.Cache.RemoveOldest` | vm_mgr/utils/lru.go:95-103 | takes the last entry out of list and map |
| `LruCache.Cache.GetOldest` | vm_mgr/utils/lru.go:106-115 | the last entry's value, if there is one |
| `LruCache.Cache.RemoveElement` | vm_mgr/utils/lru.go:117-124 | unlinks the element and its key |
| `LruCache.Cache.Clear` | vm_mgr/utils/lru.go:135-144 | leaves nothing; the next Add starts a new list |
| `ContractStore.DiskIsListed` | vm_mgr/module/core/contract_manager.go:188-237 | with at least one entry allowed and working removals, over every run the LRU is within its limit, with each contract once, and every contract file on disk is listed |
| `ContractStore.AddKeeps` | vm_mgr/utils/lru.go:65-69 | with room, what is listed after Add is what was and the new contract: nothing is evicted behind the manager's back |
| `ContractStore.ReadyExactly` | vm_mgr/module/core/contract_manager.go:188-255 | for every response: the contract becomes ready if and only if it comes with bytes that could be written and there was room or the oldest file could be removed; a ready contract is listed and on disk, and a refused response changes nothing |
| `ContractStore.StoredStep` | vm_mgr/module/core/contract_manager.go:188-277 | from a store in which every listed contract has its file an event leaves such a store if and only if it is not an unwritten response for a contract without file |
| `ContractStore.ListedIsStored` | vm_mgr/module/core/contract_manager.go:154-277 | over every run with working removals and writes and no empty response the LRU lists exactly the files on disk |
| `ContractStore.ReadyWithoutFile` | vm_mgr/module/core/contract_manager.go:213-230 | after an empty response for any new contract the next request for it is answered as ready, without a file |
| `ContractStore.Delivered` | vm_mgr/module/core/contract_manager.go:154-184 | a stored contract is found by the next request, a bad one is asked of the chain again |
| `ContractStore.AcceptedExactly` | vm_mgr/module/core/contract_manager.go:188-237 | a response with bytes and working files is accepted exactly when at least one entry is allowed |
| `ContractStore.NothingWithoutEntries` | vm_mgr/module/core/contract_manager.go:188-237 | with no entry allowed no run ever stores anything |
| `ContractStore.ContractManager.constructor` | vm_mgr/module/core/contract_manager.go:122-149 | the first files up to the limit are listed, the others removed, and disk and LRU start in step |
| `ContractStore.ContractManager.HandleGetContractReq` | vm_mgr/module/core/contract_manager.go:154-184 | does to LRU and disk what the modelled request does, with its answer |
| `ContractStore.ContractManager.HandleGetContractResp` | vm_mgr/module/core/contract_manager.go:188-237 | evicts before it adds, adds before it writes, and stops where a file operation fails, as modelled |
| `ContractStore.ContractManager.HandleBadContractResp` | vm_mgr/module/core/contract_manager.go:257-277 | drops the listed contract and its file; after success the file is gone |
| `CallTree.InnermostCaller` | utils/time_statics.go:250-265 | in every well-nested run of calls the open nodes are one path from the root, the caller found is the innermost running call |
| `CallTree.RootShowsTotals` | utils/time_statics.go:163-210 | in every well-nested run until the original transaction finishes: the root's six counters are, by the history of events alone, number and total time of the state requests, of the cross-contract calls and of the bytecode requests that it and the finished calls have made; other requests count nowhere |
| `CallTree.StepGood` | utils/time_statics.go:229-247 | every call, return and recorded count keeps this |
| `CallTree.RootFinishDoubles` | utils/time_statics.go:268-291 | after every such run finishing the original transaction leaves its counter at twice what it was |
| `CallTree.TxDurations.GetCallerNode` | utils/time_statics.go:250-265 | the recursive search finds the caller that the model names |
| `CallTree.TxDurations.AddTxDuration` | utils/time_statics.go:229-247 | the new call becomes the last child of its caller, every other node as it was |
| `CallTree.TxDurations.FinishTx` | utils/time_statics.go:347-365 | seals the node and adds its counts to the root's |
| `WriteMap.OrderIrrelevantExactly` | runtime_handler.go:897-938 | with enough gas all orders of a write map give one result if and only if no two items put different values at one address |
| `WriteMap.OrderIrrelevant` | runtime_handler.go:897-938 | for compatible items success and gas are the same in every order, whether or not the gas suffices, and the state after success |
| `WriteMap.SucceedsExactly` | runtime_handler.go:897-938 | for every map: the merge succeeds if and only if all keys name the contract and a state key and the cost is within the limit |
| `WriteMap.FailedPrefix` | runtime_handler.go:897-938 | a failed merge has written exactly the items before the one that failed |
| `WriteMap.FailureShowsOrder` | runtime_handler.go:897-938 | two items, one too big, leave different states in the two orders |
| `WriteMap.GasExact` | gas/gas_old.go:89-95 | the merge succeeds exactly when starting gas plus ten times all bytes is within the limit, and then uses that much |
| `WriteMap.LastWins` | runtime_handler.go:897-938 | the result is the old state overridden by the last write to each address |
| `WriteMap.WellFormedMerges` | runtime_handler.go:897-938 | maps with keys contract#key and contract#key#field are compatible |
| `WriteMap.KeyTarget` | runtime_handler.go:897-938 | such a key addresses its own key and field |
| `WriteMap.SecondKeys` | runtime_handler.go:897-938 | an empty field, or a fourth part, addresses the key without field |
| `WriteMap.MergeSimContextWriteMap` | runtime_handler.go:897-938 | the loop over the items gives the modelled merge, errors included |
| `ProcessManagers.CompletesOnce` | vm_mgr/module/core/process_manager.go:221-363 | a handler has one end: the contracts of the handlers below fix the whole new state |
| `ProcessManagers.ProcessManager.ChangeProcessState` | vm_mgr/module/core/process_manager.go:188-218 | moves a listed process and fails exactly for one that is not where it should be |
| `ProcessManagers.ProcessManager.HandleGetProcessReq` | vm_mgr/module/core/process_manager.go:221-363 | the handler performs its complete run of the state machine, in any order of its goroutines: creations while there is room, changes of idle processes, then waiting or an answer; `RequestOutcome` says where that ends |
| `ProcessManagers.ProcessManager.HandleSandboxExitMsg` | vm_mgr/module/core/process_manager.go:366-382 | the process leaves all tables and a free slot is announced, unless its user could not be given back |
| `ProcessManagers.ProcessManager.HandleCleanIdleProcesses` | vm_mgr/module/core/process_manager.go:385-446 | performs its complete run in any order: the oldest idle processes asked to close, the freed slots announced, the timer started again; `CleanOutcome` says where that ends |
| `ProcessManagers.ProcessManager.HandleAllocateIdleProcesses` | vm_mgr/module/core/process_manager.go:449-533 | performs its complete run in any order: waiting groups and idle processes paired oldest first; `IdleOutcome` says where that ends |
| `ProcessManagers.ProcessManager.HandleAllocateNewProcesses` | vm_mgr/module/core/process_manager.go:536-590 | performs its complete run in any order: a process for each of the longest waiting groups that free slots allow; `NewOutcome` says where that ends |
| `ProcessManagers.ProcessManager.AddProcessToIdle` | vm_mgr/module/core/process_manager.go:714-735 | the process is listed last, its own group is woken if it waits, and a token is sent while any group still waits |
| `ProcessManagers.ProcessManager.AddProcessToCache` | vm_mgr/module/core/process_manager.go:694-703 | a new process is busy and a member of its group |
| `ProcessManagers.ProcessManager.RemoveProcessFromCache` | vm_mgr/module/core/process_manager.go:706-711 | the process leaves both lists and its group; a group that loses its last process is woken |
| `ProcessManagers.ProcessManager.RemoveFromProcessGroup` | vm_mgr/module/core/process_manager.go:757-777 | takes the name out, the empty group with it, and then the group's place on the waiting list |
| `ProcessManagers.ProcessManager.RemoveFromWaitingGroup` | vm_mgr/module/core/process_manager.go:780-789 | takes the group off the list and tells it |
| `RequestGroups.RequestGroup.HandleTxReq` | vm_mgr/module/core/request_group.go:221-255 | depth check, buffering, queueing and requests as the group model has them; `DepthExactly` and `AsksExactly` say what these are |
| `RequestGroups.RequestGroup.GetProcesses` | vm_mgr/module/core/request_group.go:292-336 | asks for the number of processes that the model asks for, and sets the flag only then |
| `RequestGroups.RequestGroup.HandleContractReadyResp` | vm_mgr/module/core/request_group.go:396-437 | stops the timer, drains the buffer in a loop and asks for processes of both kinds, or fails the load |
| `RequestGroups.RequestGroup.HandleGetBytecodeErr` | vm_mgr/module/core/request_group.go:484-508 | fails the first buffered transaction and tries again for the next, or blocks |
| `RequestGroups.RequestGroup.HandleProcessReadyResp` | vm_mgr/module/core/request_group.go:440-457 | clears the flag and looks again |
| `RequestGroups.RequestGroup.HandleBadContractResp` | vm_mgr/module/core/request_group.go:365-393 | reloads only for the contract version in use |
| `Processes.Process.HandleProcessExit` | vm_mgr/module/core/process.go:617-821 | all exit cases do to state, timer, transaction and requests what the process model says; `StepCaused` says what becomes of the transaction |
| `Processes.Process.HandleTxRequest` | vm_mgr/module/core/process.go:469-509 | runs a transaction, or drops an expired one, as modelled |
| `Processes.Process.HandleTxResp` | vm_mgr/module/core/process.go:539-577 | answers and becomes ready, as modelled |
| `Processes.Process.HandleTimeout` | vm_mgr/module/core/process.go:580-613 | a ready timeout makes the process idle if the manager agrees, a busy one times the transaction out |
| `Processes.Process.ReturnIdleTx` | vm_mgr/module/core/process.go:512-536 | a transaction taken while idle goes back to the scheduler in any case |
| `Processes.Process.ChangeSandbox` | vm_mgr/module/core/process.go:413-441 | refused without effect unless idle |
| `Processes.Process.CloseSandbox` | vm_mgr/module/core/process.go:444-466 | refused without effect unless idle |
| `Processes.Process.UpdateProcessState` | vm_mgr/module/core/process.go:870-898 | enters the state with the timer it starts or stops |
| `Processes.Process.PopTimer` | vm_mgr/module/core/process.go:968-986 | leaves neither timer nor tick |
| `Schedulers.RequestScheduler.PutMsg` | vm_mgr/module/core/request_scheduler.go:117-139 | transactions and error responses join the queues that the engine has for them, bytecode messages go with the errors, a close request to its own channel, and any other kind is refused |
| `Schedulers.RequestScheduler.HandleTxReq` | vm_mgr/module/core/request_scheduler.go:182-218 | does to scheduler and groups what a dispatch step of the engine does, and keeps dictionary and groups naming each other: one group per contract key, created on first use |
| `Schedulers.RequestScheduler.GetRequestGroup` | vm_mgr/module/core/request_scheduler.go:142-150 | succeeds if and only if some registered group has the contract key, gives the only one that has it, and for names without `#` the group of that very contract |

## Left out

- The surroundings behave as follows throughout: a sandbox change or close either succeeds or is refused with nothing changed; killing a process and updating its state is one step; a sandbox registers only while its process is created and answers a request at most once; stream sends succeed; requests, cross contexts and responses are present; all users were created at start.
- The path where killing a process fails after its context was reset, and races between an exit and the unlocked read of the process state.
- Channel capacities other than the fixed queue's: all other channels are unbounded sequences.
- gRPC servers, clients and streams; launching processes, cgroups, pipes; creating users; file contents and extraction; configuration, logging, security.
- Message pooling and the logging of step durations: aliasing of reused messages is not modelled.
- Closing a request group beyond queueing the message: nothing in the repository sends it.
- Elapsed time: a timer may fire at any moment after it was armed, and whether a transaction is too old is part of the event.
- The order of the deferred effects inside one process exit: they are one step, except the popTimer that runs later.
- getProcesses reads its two counts at one instant; the version that a bad contract is reported for is arbitrary.
- The local index inside a process name: names are shown different for every index.
- EngineProgress.HandlersEnd: the process counter stays below 2^64 for the handler's remaining steps, because beyond that a repeated name would overwrite a cache entry.
- ManagerIndexes.StepGood: an event that would take the process counter to 2^64 is not considered, for the same reason.
- The error kinds of the decoder: every failure is one result.
- The second copy of the generated codec, registration, descriptors and getters.
- The contract manager's Unix domain socket mode.
- LRU and call tree as heap structures: elements and nodes are numbered, and the eviction callback is not modelled.
- Floating point: the release rate is a real number, so rounding of its product is not modelled.
- CallTree.TxDurations.FinishTx: one counter at a time, of any width; the storage durations are not added up, because the code does not add them either.
- The number of the Go runtime's bit in a cross context: a transaction says whether a Go contract was called before it.
- Gas of block versions 2312 and later, gas prices, and the rest of the runtime handler.
