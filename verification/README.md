# InstantOS: a verified model of its GPU driver, kernel heap and SMP locking

This project models the parts of InstantOS where most state changes hands, and proves what they are for:

- **The Gen9 GPU driver.** Per-engine request queues, fences, implicit fencing between buffer objects, files, contexts
  and address spaces with their reference counts, the 4-level per-process page tables (PPGTT) and the bindings above
  them, joined fences, timeline sync objects, the global GTT page allocator and the expansion of context layouts.
- **The kernel heap.** A buddy allocator over raw memory with intrusive free lists, growth and reallocation.
- **SMP locking.** The big kernel lock (BKL), and TLB shootdown over one-slot mailboxes, step by atomic step for any
  number of CPUs.

Each part has the same shape. A state and its steps are given as values (`GpuSystem`, `GpuMemory`, `HeapState`,
`Shootdown`), invariants are proved of every step, and the theorems about whole runs follow. Where the source changes
objects in place there is a class whose methods are proved equal to those steps (`GpuDriver.Driver`, `Ppgtt.Gpu`,
`AddressSpace.Vm`, `BuddyHeap.Heap`, `Fences.FenceTable`, `Timeline.Syncobj`, `GttAllocator.Allocator`), loops
included. The concurrent protocols are step systems only: one step is one access to shared memory.

| part | files |
|---|---|
| request queues, fences, lifetimes | `RequestQueue`, `ImplicitFencing`, `Bindings`, `Lifetimes`, `GpuSystem`, `GpuSafety`, `GpuIoctls`, `GpuRuns`, `GpuOrder`, `GpuTimeline`, `GpuOvertaking`, `GpuEarlyStart`, `GpuOutcomes`, `GpuBans`, `GpuExact`, `GpuLimits`, `GpuDriver` |
| page tables and bindings | `PageTables`, `Ppgtt`, `AddressSpace`, `GpuMemory`, `GpuCaching` |
| joins and timelines | `Fences`, `Timeline`, `FenceMeaning` |
| heap | `Dyadic`, `HeapBlocks`, `FreeLists`, `HeapShape`, `HeapState`, `HeapSteps`, `BuddyHeap` |
| locks and TLBs | `KernelLock`, `Spinlocks`, `TlbFlush`, `Shootdown`, `ShootdownSafety`, `LockWaits`, `ShootdownLimits` |
| GTT pages, context layouts | `Bits`, `GttAllocator`, `GttRuns`, `LrcLayout` |

## Where a promise has a condition

Eight properties are not true without a condition. Each condition is exact (the property holds if and only if it does),
or a run shows that it is needed. Where the property is about what may happen later, "exact" is about runs: if the
condition fails, some continuation breaks the property.

- *A submission waits for the requests it conflicts with.* A new request can be started, by some continuation, while an
  unretired request of the other engine is still there if and only if no fence puts it behind that one and it is not
  bound to fail without running (`GpuEarlyStart.StartsEarly`, `GpuEarlyStart.SafeIsExact`). Without
  `EXEC_OBJECT_ASYNC` every conflicting request is behind (`ImplicitFencing.NoAsyncIsSafe`). One asynchronous submission
  can also unorder two requests that are not (`GpuLimits.AsyncUncoversOthers`).
- *A request keeps its objects bound.* When `queueRequest` refuses a request, its signaled fence is already in its
  objects' slots (src/graphics/intel_gen9_drm.cpp:1877-1921). No continuation takes a binding from an unretired request
  if and only if the fences left in the slots guard every unretired user (`GpuExact.RefusalBindings`). That depends on
  what may still be submitted: a fence left in the writer's slot is enough as long as nothing asynchronous is
  (`GpuLimits.RefusedReader`). A run in which a binding is lost is `GpuLimits.RefusalHidesUser`.
- *Conflicting requests are serialized* after a refusal if and only if the fences left still line up later requests
  behind every unretired user (`GpuExact.RefusalOrder`, `GpuLimits.RefusalMisorders`), and *a single timeline is in
  order* if and only if each of its unretired requests holds up the other engine (`GpuExact.RefusalStreams`).
- *Translations have the object's caching.* The pages are right as long as requests keep their objects bound
  (`GpuMemory.StaysTranslated`). The caching is right after `SET_CACHING` if and only if no other file has the object bound (`GpuCaching.CachingExact`), since only the
  caller's address spaces are unbound; a run with a stale entry is `GpuCaching.CachingGoesStale`.
- *Timelines are never early.* After a point was added no wait is early if and only if the point is the last, or the
  list reached the last point, or everything on the list is done (`Timeline.AddNotEarly`, `Timeline.Hidden`); a run is
  never early if and only if each addition meets that (`Timeline.RunsNowhereEarly`), and one that does not is
  `Timeline.BackwardHides`. As fences signal a query never goes back if and only if the list is empty, its head is done,
  or what it reaches once its head is done is not below what was dropped (`Timeline.QueryLater`, `Timeline.QueryFalls`);
  when an addition sets it back is `Timeline.AddQuery`.
- *A payload fits its block.* The size the heap asks for is a sum in 64-bit arithmetic. If the sum does not wrap the
  payload fits every block of the order picked, otherwise none (`HeapSteps.FitsUnlessWrapped`,
  `HeapSteps.WrapsToNothing`).
- *A GTT page has one owner.* `free` takes any pages that are taken. The books stay right if and only if it is passed a
  range that was handed out or no pages, or refuses (`GttRuns.FreeExact`, `GttRuns.HandedTwice`).
- *A shootdown leaves no stale translation.* It holds for a sender with the big kernel lock once the scheduler is active
  (`ShootdownSafety.ReturnClean`); without the lock, or before, a run shows what is left
  (`ShootdownLimits.KernelLockNeeded`, `ShootdownLimits.ActiveNeeded`). *The depth of that lock is the nesting*
  throughout a run if and only if no context nests 2^32 deep (`KernelLock.CountsExactly`); at most one CPU has it in any
  case (`KernelLock.ExclusiveAlways`).

Three things a reader may not expect, and the model keeps: a failed `ensurePpgttScratch` starts over and gives
up the frames it had (src/graphics/intel_gen9_ppgtt.cpp:73-85), `shootdown` flushes whole pages from the page `va` lies
in, and a reservation takes only the pages that were free.

## Model

| member | source | states |
|---|---|---|
| `RequestQueue.EnqueueInv` | src/graphics/intel_gen9_engine.cpp:1149-1171 | Queueing keeps the queue invariant (every unsignaled fence belongs to exactly one queued or active request, dependencies name earlier submissions, `queuedCount` counts the unretired) and makes exactly the new request live. |
| `RequestQueue.DispatchInv` | src/graphics/intel_gen9_engine.cpp:1357-1411 | Putting the ready head of a queue on its engine keeps the queue invariant and retires nobody. |
| `RequestQueue.RetireInv` | src/graphics/intel_gen9_engine.cpp:1297-1316 | Retiring signals exactly one unsignaled fence, the leaving request's, and no other request stops being live. |
| `RequestQueue.RetireLog` | src/graphics/intel_gen9_engine.cpp:1297-1316 | Over the whole history a request has retired exactly when its fence is signaled, it retires once, and it never starts after that. |
| `RequestQueue.OldestCanMove` | src/graphics/intel_gen9_engine.cpp:1324-1411 | No deadlock: the oldest unretired request is on its engine, or heads its queue with every dependency signaled. |
| `RequestQueue.RetireWork` | src/graphics/intel_gen9_engine.cpp:1318-1419 | The measure 2·waiting + active falls by one for a request that ran, by two for one that did not. |
| `ImplicitFencing.ImplicitDepsCover` | src/graphics/intel_gen9_drm.cpp:1848-1872 | The dependencies gathered from the object slots are unsignaled, are among the fences the accesses conflict with, and leave out none of those that is unsignaled. |
| `ImplicitFencing.PublishSlots` | src/graphics/intel_gen9_drm.cpp:1877-1883 | Publishing a request's fence changes the slots of the objects it lists, as reader or writer of its engine, and no others. |
| `ImplicitFencing.ImportIs` | src/graphics/intel_gen9_drm.cpp:2650-2671 | Importing a sync file into an object puts into its writer's slot, or for a read its first engine's, what was there and what the file stands for, less what is already done without an error; the other slots stay. |
| `ImplicitFencing.IdleUnused` | src/graphics/intel_gen9_drm.cpp:220-226 | While the slots guard all users, an object whose three fences are signaled is used by no unretired request. |
| `ImplicitFencing.SubmitUsage` | src/graphics/intel_gen9_drm.cpp:1848-1888 | A submission keeps the slots guarding every unretired user: not all fences of an object can be signaled before its user has retired, now or after more submissions. Any submission keeps what guards against all, one without asynchronous objects what guards against those. |
| `ImplicitFencing.DepsOrder` | src/graphics/intel_gen9_drm.cpp:1848-1872 | What a request without asynchronous objects waits for puts it behind every unretired request of the other engine it conflicts with, although each object keeps one fence per engine and one writer. |
| `ImplicitFencing.SubmitFencing` | src/graphics/intel_gen9_drm.cpp:1848-1888 | Queueing keeps the order invariant if and only if the new request is behind every conflicting unretired one of the other engine (for what that means in runs, `GpuEarlyStart.SafeIsExact`). |
| `ImplicitFencing.NoAsyncIsSafe` | src/graphics/intel_gen9_drm.cpp:1848-1872 | That condition holds of every submission without asynchronous objects. |
| `ImplicitFencing.RefusedUsage` | src/graphics/intel_gen9_drm.cpp:1877-1921 | A refused submission keeps the slots guarding their users if and only if what it leaves in them, with its own signaled fence in place of the others, still does. |
| `ImplicitFencing.RefusedFencing` | src/graphics/intel_gen9_drm.cpp:1877-1921 | It keeps the order invariant if and only if what it leaves lines up later conflicting requests behind every unretired user of its objects. |
| `ImplicitFencing.RetireFencing` | src/graphics/intel_gen9_engine.cpp:1297-1316 | A retirement lets no conflicting later request overtake. |
| `ImplicitFencing.NoConflictAtDispatch` | src/graphics/intel_gen9_engine.cpp:1357-1411 | When the head of a queue may run, every earlier request it conflicts with has retired. |
| `Bindings.PlacedExactly` | src/graphics/intel_gen9_drm.cpp:1768-1798 | The bind loop leaves exactly the wanted bindings and those old ones, of other objects, that lie wholly before or wholly after each of them. |
| `Bindings.PlaceAllApart` | src/graphics/intel_gen9_drm.cpp:1768-1798 | Bindings of one address space stay pairwise disjoint and name each object at most once. |
| `GpuSafety.PlacedFits` | src/graphics/intel_gen9_drm.cpp:1722-1798 | After the first k objects were bound the bindings fit their objects, with all of them everything wanted is bound, and when nothing had to be evicted no binding is lost. |
| `Lifetimes.ReleaseRefs` | src/graphics/intel_gen9_drm.cpp:439-461 | Letting go of one holder of an address space keeps every reference count equal to the number of contexts, VM ids and files that name it. |
| `Lifetimes.ReleaseLinks` | src/graphics/intel_gen9_drm.cpp:445-461 | An address space that goes with its last reference is named by nobody left. |
| `Lifetimes.DropContextLife` | src/graphics/intel_gen9_drm.cpp:1497-1528 | A retired request's context still exists with a positive pending count, and dropping it (freeing a destroyed context with its last request) keeps all counts and links right. |
| `Lifetimes.DropFileLife` | src/graphics/intel_gen9_drm.cpp:1497-1528 | The same for its file; a closed file goes with its last request and leaves no context, id or address space behind. |
| `Lifetimes.DestroyFileLife` | src/graphics/intel_gen9_drm.cpp:488-521 | Destroying a file without requests in flight takes away everything of it, once, and nothing of any other file. |
| `GpuSafety.SubmitInv` | src/graphics/intel_gen9_drm.cpp:1608-1930 | An accepted execbuffer keeps the whole system invariant: queues, fence slots, reference counts, counters, bindings, guarded users. |
| `GpuSafety.AwaitsExactly` | src/graphics/intel_gen9_drm.cpp:1848-1876 | A request waits for exactly the fences that are not all over and that it was asked to wait for, that end its context's single timeline, that stand for the last writer of an object it does not use asynchronously, or for a user of one it so writes. |
| `GpuSafety.RefusedInv` | src/graphics/intel_gen9_drm.cpp:1877-1921 | A refused one keeps it if and only if the fences left in its objects' slots guard their unretired users. |
| `GpuSafety.LeaveInv` | src/graphics/intel_gen9_engine.cpp:1297-1412 | Every way a request leaves (done, hung, banned, failed dependency, engine lost) keeps the system invariant. |
| `GpuSafety.LetGoDefined` | src/graphics/intel_gen9_drm.cpp:1497-1528 | What a retirement touches is always still there and its counters are positive. |
| `GpuIoctls.UnbindInv` | src/graphics/intel_gen9_drm.cpp:1095-1119 | Closing a handle, or changing an idle object's caching, takes away that object's bindings in that file's address spaces and no others, and no binding an unretired request uses. |
| `GpuIoctls.DestroyContextCore` | src/graphics/intel_gen9_drm.cpp:1462-1479 | Destroying a context other than the default one takes it from its file's table and keeps lifetimes and bindings in order: without requests it is gone and freed once, with requests it is marked and nothing is freed. |
| `GpuIoctls.DropVmCore` | src/graphics/intel_gen9_drm.cpp:1444-1460 | Destroying a VM id takes away that id and one reference, the address space with the last, and nothing else; lifetimes and bindings stay in order. |
| `GpuIoctls.NewVmCore` | src/graphics/intel_gen9_drm.cpp:1411-1442 | A new VM id names a new, empty address space with one reference. |
| `GpuIoctls.NameVmCore` | src/graphics/intel_gen9_drm.cpp:1284-1301 | Asking for the address space of a context that has no id yet gives it one and one more reference, and moves no context. |
| `GpuIoctls.SetVmCore` | src/graphics/intel_gen9_drm.cpp:1186-1198 | Moving a context to another address space, which is refused once it has run, moves that context alone, counts one reference more there and one less where it was, and keeps lifetimes and bindings in order. |
| `GpuIoctls.CloseCore` | src/graphics/intel_gen9_drm.cpp:877-887 | Closing a file takes it away with everything of it if no requests are in flight, otherwise only marks it, and keeps lifetimes and bindings in order. |
| `GpuIoctls.NewContextCore` | src/graphics/intel_gen9_drm.cpp:463-471 | A new context, of its file and its file's address space, with a reference of its own; no other context changes. |
| `GpuRuns.StepCore` | src/graphics/intel_gen9_drm.cpp:1608-1930 | Every step but an unbinding keeps counts, links and bindings in order, whatever the fences say. |
| `GpuRuns.StepInv` | src/graphics/intel_gen9_drm.cpp:1608-1930 | Every step of the driver keeps the system invariant, a refusal under the condition above. |
| `GpuRuns.RunInv` | src/graphics/intel_gen9_drm.cpp:1608-1930 | The invariant holds in every state of every run whose refusals meet that condition. |
| `GpuRuns.StaysBound` | src/graphics/intel_gen9_drm.cpp:1722-1798 | In every run whose refusals meet that condition, as long as a request is unretired its context, file and address space exist and every object it lists is bound where it asked. |
| `GpuRuns.StepLasts` | src/graphics/intel_gen9_drm.cpp:1608-1930 | Whatever a refusal or an unbinding spoils, every step keeps queues, fences, counts and links as they are in the invariant of the same state with no objects listed. |
| `GpuRuns.AlikeRun` | src/graphics/intel_gen9_drm.cpp:1608-1930 | Once requests are queued, what they list has no part in what can happen: two states that differ in it have the same runs. |
| `GpuRuns.FreedOnce` | src/graphics/intel_gen9_drm.cpp:473-521 | In any run whatever, every context, file and address space ever made is present and never freed, or gone and freed exactly once, and none is freed while an unretired request counts on it. |
| `GpuRuns.CanMoveOn` | src/graphics/intel_gen9_engine.cpp:1318-1419 | While a request is unretired and the engines are not claimed, some engine can take a step. |
| `GpuRuns.DrainRun` | src/graphics/intel_gen9_engine.cpp:1318-1419 | From every state any run reaches engine steps alone retire everything, in at most 2·waiting + active steps. |
| `GpuRuns.MoveShrinks` | src/graphics/intel_gen9_engine.cpp:1318-1419 | Every engine step makes that measure smaller. |
| `GpuOrder.StepFencing` | src/graphics/intel_gen9_drm.cpp:1848-1888 | Every step of a run without asynchronous objects, its refusals leaving later requests lined up, keeps conflicting requests in order across both engines. |
| `GpuOrder.ConflictsSerialized` | src/graphics/intel_gen9_drm.cpp:1848-1888 | In every run from the start whose submissions have no asynchronous objects (or are ordered all the same) and whose refusals leave later requests lined up, a request started only after every earlier request it conflicts with had retired. |
| `GpuTimeline.StreamOrders` | src/graphics/intel_gen9_drm.cpp:1873-1876 | A new request of a single-timeline context is ordered after every unretired request of it, on either engine. |
| `GpuTimeline.RefusedTimeline` | src/graphics/intel_gen9_drm.cpp:1873-1921 | A refused submission keeps the invariant of that order if and only if every unretired request of the context holds up the other engine. |
| `GpuTimeline.TimelineStarts` | src/graphics/intel_gen9_drm.cpp:1873-1876 | In every run whose refusals meet that condition, whatever they do to bindings, no request of a single-timeline context has ever been started while an earlier one of the context is unretired. |
| `GpuTimeline.TimelineSerialized` | src/graphics/intel_gen9_drm.cpp:1873-1876 | Nor is one ready to start. |
| `GpuOvertaking.FirstAhead` | src/graphics/intel_gen9_engine.cpp:1324-1411 | Of the unretired requests that are not behind a given one the oldest is on its engine, or heads its queue with nothing left to wait for. |
| `GpuOvertaking.RunAhead` | src/graphics/intel_gen9_engine.cpp:1318-1419 | From every state whose lifetimes are in order the engines can run until everything left is behind a chosen unretired request, which is still there; slots and requests stay as they were, and whoever is gone was started unless it was bound to fail. |
| `GpuOvertaking.MoveDoomsNone` | src/graphics/intel_gen9_engine.cpp:1360-1399 | A request is failed without running only if a dependency failed, or will, or its context is banned: running the engines makes no request so that was not. |
| `GpuEarlyStart.HeldRun` | src/graphics/intel_gen9_engine.cpp:1357-1411 | In every run a request held back by another is not started while that one is unretired. |
| `GpuEarlyStart.LostRun` | src/graphics/intel_gen9_engine.cpp:1360-1399 | In any run a request whose dependency fails, or whose context is banned, before it starts is never started. |
| `GpuEarlyStart.StartsEarly` | src/graphics/intel_gen9_drm.cpp:1848-1888 | In every state any run reaches: some continuation starts a new request while a given unretired request of the other engine is still there if and only if no fence it waits for, or that a request ahead of it waits for, is behind that one, and it is not bound to fail. |
| `GpuEarlyStart.SafeIsExact` | src/graphics/intel_gen9_drm.cpp:1848-1888 | So a submission that can run is safe if and only if no continuation starts it before a conflicting request of the other engine has retired. |
| `GpuOutcomes.Outcomes` | src/graphics/intel_gen9_engine.cpp:1318-1419 | In every run a request that is over ended with 0 exactly if it was started and did not hang, with -EIO if it hung, and otherwise with an error; and whatever was started had waited for nothing that did not end with 0. |
| `GpuOutcomes.HangSpreads` | src/graphics/intel_gen9_engine.cpp:1324-1399 | In every run the fence of a request that hung carries -EIO from then on, and no request waiting for it is ever started. |
| `GpuOutcomes.WaitsFirst` | src/graphics/intel_gen9_drm.cpp:1848-1876 | In every run, once a request is started, everything its submission was to wait for has ended with success. |
| `GpuOutcomes.ClaimedAlone` | src/graphics/intel_gen9_engine.cpp:935-960 | From the moment `claimEngines` succeeds until the engines are given back, no run puts a request on an engine, however many are queued. |
| `GpuBans.BannedExactly` | src/graphics/intel_gen9_drm.cpp:1497-1528 | In every run a context is banned exactly if one of its requests hung while it had last been made not recoverable and bannable. |
| `GpuBans.BannedStops` | src/graphics/intel_gen9_drm.cpp:1757-1905 | A ban is for good: in every run no request of a banned context is ever accepted or started again. |
| `GpuBans.ClosedDrains` | src/graphics/intel_gen9_drm.cpp:877-887 | In every run, once a file is closed no context or request of it is added, and it is there exactly as long as a request of it is unretired. |
| `GpuExact.Clear` | src/graphics/intel_gen9_drm.cpp:1848-1888 | If nothing holds the other engine up behind a request, one more user of its object there and engine steps leave that engine empty and the object's fences signaled, but for one of the request's own engine. |
| `GpuExact.RefusalBindings` | src/graphics/intel_gen9_drm.cpp:1877-1921 | After a refused submission no continuation without further refusals takes a binding from an unretired request if and only if the fences left guard every unretired user; for continuations with any submissions, and for those without asynchronous objects. |
| `GpuExact.RefusalOrder` | src/graphics/intel_gen9_drm.cpp:1877-1921 | No continuation without further refusals and without asynchronous objects starts a request before an earlier conflicting one has retired if and only if the fences left line up later requests behind every unretired user. |
| `GpuExact.RefusalStreams` | src/graphics/intel_gen9_drm.cpp:1873-1921 | No continuation without further refusals starts a request of a single-timeline context out of its turn if and only if each unretired request of the refused one's context, if that has a single timeline, holds up the other engine. |
| `GpuLimits.AsyncUncoversOthers` | src/graphics/intel_gen9_drm.cpp:1848-1888 | There is a run from the start in which, of two conflicting requests that list nothing asynchronous, the later has been started while the earlier is unretired; an asynchronous write came between them. |
| `GpuLimits.RefusalHidesUser` | src/graphics/intel_gen9_drm.cpp:1877-1921 | There is a run from the start with one refused submission and nothing asynchronous in which an unretired request has lost a binding. |
| `GpuLimits.RefusalMisorders` | src/graphics/intel_gen9_drm.cpp:1877-1921 | And one in which a request started before an earlier conflicting one had retired. |
| `GpuLimits.RefusedReader` | src/graphics/intel_gen9_drm.cpp:1877-1921 | A refused submission that only reads an object an unretired request of its engine writes spares that writer as long as nothing asynchronous is submitted, and not otherwise. |
| `GpuDriver.Driver.CheckDeps` | src/graphics/intel_gen9_engine.cpp:1360-1369 | The loop over a head's fences says ready exactly when all parts of all of them are signaled, and then finds the error to inherit. |
| `GpuDriver.Driver.Gather` | src/graphics/intel_gen9_drm.cpp:1848-1872 | The dependency loops compute the dependencies the fencing theorems are about. |
| `GpuDriver.Driver.PublishFence` | src/graphics/intel_gen9_drm.cpp:1877-1883 | The publishing loop makes exactly the slot changes the fencing theorems are about. |
| `GpuDriver.Driver.BindAll` | src/graphics/intel_gen9_drm.cpp:1768-1798 | Walking the binding list and leaving out what is in the way gives the bindings of the first k objects placed and, at the first that cannot be mapped, the next one's room made. |
| `GpuDriver.Driver.LetGoOfVm` | src/graphics/intel_gen9_drm.cpp:445-461 | One reference less; with the last, the address space is gone and counted freed once. |
| `GpuDriver.Driver.TearDown` | src/graphics/intel_gen9_drm.cpp:488-521 | The three loops over contexts, VM ids and the default space amount to taking the whole file away, whatever they share. |
| `GpuDriver.Driver.RetireGemRequest` | src/graphics/intel_gen9_drm.cpp:1497-1528 | Retirement drops the context, then the file, each freed if it was only waiting for this. |
| `GpuDriver.Driver.Finish` | src/graphics/intel_gen9_engine.cpp:1297-1316 | Finishing a request signals its fence, uncounts it and lets go of what it held, in one system step. |
| `GpuDriver.Driver.ProcessRequests` | src/graphics/intel_gen9_engine.cpp:1318-1419 | The loop terminates and is a run of engine steps, each allowed by a look at the hardware: what is done leaves with 0, what is overdue with -EIO, what may start does unless its engine cannot be woken. It stops when no head is ready on a free engine and nothing the last look found done or overdue is left. |
| `GpuDriver.Driver.CheckEntries` | src/graphics/intel_gen9_drm.cpp:1683-1708 | The double loop accepts a list exactly when every entry is known, aligned and in range and no two name one object or overlap; otherwise the first bad entry decides between ENOENT and EINVAL. What it returns has each entry's object and flags, the object's size and the address modulo 2^48. |
| `GpuDriver.Driver.MustEvict` | src/graphics/intel_gen9_drm.cpp:1726-1735 | Whether some binding is in the way of something wanted. |
| `GpuDriver.Driver.Commit` | src/graphics/intel_gen9_drm.cpp:1848-1922 | The tail of an execbuffer is exactly the submission step, or the refusal step when the request cannot be queued. |
| `GpuDriver.Driver.Execbuffer` | src/graphics/intel_gen9_drm.cpp:1608-1930 | Which answer a pass gives, test by test; it changes something exactly when its tests pass; it is then one submission, refusal or abort followed by engine steps. A queued request has the engine, file, context, objects and dependencies it was given, and the engines have been seen to. The invariant survives exactly when a refusal left every user guarded. |
| `GpuDriver.Driver.Close` | src/graphics/intel_gen9_drm.cpp:877-887 | Closing a file frees it now or marks it for its last request. |
| `GpuDriver.Driver.DestroyContext` | src/graphics/intel_gen9_drm.cpp:1462-1479 | ENOENT and no change for an unknown id and for the default context; otherwise freed now or left to its last request. |
| `GpuDriver.Driver.UnbindEverywhere` | src/graphics/intel_gen9_drm.cpp:433-437 | Removes every binding of the object in every address space of the file and nothing else. |
| `PageTables.EntryRoundTrip` | include/graphics/intel_gen9_logic.hpp:566-588 | What is put into a table or page entry is read from it: present, writable, the frame's address for every page-aligned frame below 2^48, and PAT index 0 for tables, 4 for cached pages and 3 for others. |
| `PageTables.EntryCaching` | include/graphics/intel_gen9_logic.hpp:539-588 | With the PAT the driver programs, cached pages and tables are write-back and other pages uncached. |
| `PageTables.IndexAgrees` | include/graphics/intel_gen9_logic.hpp:589-592 | The shifted and masked index of an address is the digit of its page number at that level, for every 64-bit address. |
| `PageTables.WalkFinds` | include/graphics/intel_gen9_logic.hpp:566-592 | A hardware walk, which stops at an entry that is not present, ends from any table of the tree at the entry of the flat map. |
| `PageTables.Grow` | src/graphics/intel_gen9_ppgtt.cpp:136-154 | Hanging a new table into the tree changes no translation at all. |
| `PageTables.Write` | src/graphics/intel_gen9_ppgtt.cpp:155-158 | Writing a leaf entry changes the translation of its page and of no other. |
| `Ppgtt.HardwareAgrees` | src/graphics/intel_gen9_ppgtt.cpp:128-184 | With all spaces in one memory over shared scratch tables, the walk from a space's PML4 is that space's flat map. |
| `Ppgtt.GrowWorld` | src/graphics/intel_gen9_ppgtt.cpp:136-154 | Growing one space is seen in none, itself included. |
| `Ppgtt.GoneWorldOk` | src/graphics/intel_gen9_ppgtt.cpp:106-126 | When a space goes its tables return to the frame allocator and no other space sees a difference. |
| `Ppgtt.PutIsMapped` | src/graphics/intel_gen9_ppgtt.cpp:128-161 | The page-by-page writes amount to: each page of the range, taken round the 48-bit space, has its entry, every other is as before. |
| `Ppgtt.RollBack` | src/graphics/intel_gen9_ppgtt.cpp:128-184 | A map that failed anywhere, followed by an unmap of the whole range where nothing was mapped, leaves every translation as it was. |
| `Ppgtt.AsManyFrames` | src/graphics/intel_gen9_ppgtt.cpp:60-71 | Tables do not share frames: as many frames as tables. |
| `Ppgtt.Gpu.AllocTable` | src/graphics/intel_gen9_ppgtt.cpp:60-71 | A fresh frame filled with one entry, or nothing changed; nothing exactly when no frame is free. |
| `Ppgtt.Gpu.Map` | src/graphics/intel_gen9_ppgtt.cpp:128-161 | Rejected ranges (with 64-bit wrap-around) change nothing; otherwise the hardware finds the first k pages with their caching, all of them if it succeeds, and it fails only when no frame is free. Nothing else in this or another space changes. |
| `Ppgtt.Gpu.Unmap` | src/graphics/intel_gen9_ppgtt.cpp:163-184 | The hardware finds the scratch page at each page of exactly the range, and no table is freed. |
| `Ppgtt.Gpu.EnsureScratch` | src/graphics/intel_gen9_ppgtt.cpp:73-85 | Succeeds exactly when the scratch chain stands, and fails only without a scratch page or a free frame; once it stands nothing changes. |
| `Ppgtt.Gpu.Create` | src/graphics/intel_gen9_ppgtt.cpp:87-104 | The hardware finds the scratch page everywhere in a new space and no other space changes; it fails only for want of memory or a scratch page. |
| `Ppgtt.Gpu.FreeLevel` | src/graphics/intel_gen9_ppgtt.cpp:106-118 | The recursion frees each private table under a table exactly once, no scratch table and no mapped page. |
| `Ppgtt.Gpu.Destroy` | src/graphics/intel_gen9_ppgtt.cpp:120-126 | The frame allocator gains exactly `tablePages` frames, the space's own tables. |
| `AddressSpace.SaysIs` | src/graphics/intel_gen9_drm.cpp:404-437 | What a binding list says of an address: the object's page when a binding covers it, scratch when none does. |
| `AddressSpace.UnbindShows` | src/graphics/intel_gen9_drm.cpp:404-419 | After an unbind the page tables show exactly what the shorter list says. |
| `AddressSpace.BindShows` | src/graphics/intel_gen9_drm.cpp:1768-1798 | After a bind they show exactly what the longer list says. |
| `AddressSpace.FailedBindShows` | src/graphics/intel_gen9_drm.cpp:1768-1798 | A bind that ran out of frames and was taken back leaves them showing the old list. |
| `AddressSpace.StripShows` | src/graphics/intel_gen9_drm.cpp:404-437 | Unmapping one after the other the bindings a test picks leaves the tables showing the rest of the list. |
| `AddressSpace.BindsUpToShows` | src/graphics/intel_gen9_drm.cpp:1768-1798 | Whatever the bind loop maps and unmaps up to its end or its first failure, the tables show the list it leaves; an object bound anew has the caching it has now, one in place keeps the caching it was bound with. |
| `AddressSpace.Vm.Unbind` | src/graphics/intel_gen9_drm.cpp:404-419 | Takes one binding out of the list and unmaps its range; other spaces see nothing. |
| `AddressSpace.Vm.MakeRoom` | src/graphics/intel_gen9_drm.cpp:1768-1785 | The walk that unbinds while it iterates unmaps exactly what is in the way, in order, and finds out whether the object is already in place. |
| `AddressSpace.Vm.Bind` | src/graphics/intel_gen9_drm.cpp:1768-1798 | On success and on failure the tables show the list, which has the new binding or only lost what was in its way; it fails only for want of memory. What was unmapped and mapped is a bind as the memory steps take it. |
| `AddressSpace.Vm.BindAll` | src/graphics/intel_gen9_drm.cpp:1768-1798 | The same for a whole object list, stopping at the first that cannot be mapped. |
| `AddressSpace.Vm.UnbindAll` | src/graphics/intel_gen9_drm.cpp:421-431 | No binding of the object is left in list or tables. |
| `AddressSpace.Vm.SetCaching` | src/graphics/intel_gen9_drm.cpp:2883-2913 | A change of caching changes no translation of the space; they show the new caching exactly when the object is bound nowhere in it. |
| `GpuMemory.BoundTranslates` | src/graphics/intel_gen9_drm.cpp:1768-1798 | At a bound address the hardware walk finds that page of that object, with the PAT index of the caching it was bound with. |
| `GpuMemory.RewritesBacked` | src/graphics/intel_gen9_drm.cpp:1768-1798 | The bind loop of an execbuffer, complete or not, keeps every space's tables in step with its list. |
| `GpuMemory.UnbindBacked` | src/graphics/intel_gen9_drm.cpp:433-437 | So does unbinding an object from each space of a file. |
| `GpuMemory.SweepsBacked` | src/graphics/intel_gen9_drm.cpp:445-461 | And destroying the page tables of the spaces that are gone. |
| `GpuMemory.MemoryStep` | src/graphics/intel_gen9_drm.cpp:1608-1930 | Every step of driver and page tables together keeps the tables of every space showing its list, and their caching the objects' if no caching is changed of an object bound elsewhere. |
| `GpuMemory.StaysTranslated` | src/graphics/intel_gen9_drm.cpp:1722-1798 | In every run of driver and page tables from the start whose refusals leave users guarded, from queueing until retirement the hardware finds at every page of every object a request lists that object's page, present and writable, in the request's address space. |
| `GpuMemory.StaysCached` | src/graphics/intel_gen9_drm.cpp:1722-1798 | And with the object's caching, in every such run that changes no caching of an object another file has bound. |
| `GpuCaching.StaleEntry` | src/graphics/intel_gen9_drm.cpp:2883-2913 | After a change of caching the hardware finds the old caching wherever another file has the object bound. |
| `GpuCaching.CachingExact` | src/graphics/intel_gen9_drm.cpp:2883-2913 | All translations have the objects' caching after the change if and only if no other file has the object bound. |
| `GpuCaching.CachingGoesStale` | src/graphics/intel_gen9_drm.cpp:2883-2913 | There is a run of driver and page tables from the start in which an unretired request runs with the old caching. |
| `Fences.JoinMeans` | src/graphics/intel_gen9_drm.cpp:581-638 | At every later time a join is done exactly when all it joined are, and then has an error exactly when one of them has. |
| `Fences.JoinKeepsMeaning` | src/graphics/intel_gen9_drm.cpp:581-638 | The same of what `joinFences` returns in each of its cases, from the call on. |
| `Fences.PendingMembers` | src/graphics/intel_gen9_drm.cpp:585-620 | The parts collected are exactly the parts of the arguments that are not yet done without error. |
| `Fences.FenceTable.Poll` | include/graphics/intel_gen9.hpp:138-154 | Polling answers whether the fence is done, remembers the first error, and changes what no fence means. |
| `Fences.FenceTable.Join` | src/graphics/intel_gen9_drm.cpp:585-638 | A fence that stands for the arguments, with no join among its parts, and no other fence changes meaning; nothing exactly when there is no memory for the list of parts, or for the fence and there is not just one part. |
| `FenceMeaning.MeaningAgrees` | include/graphics/intel_gen9.hpp:138-154 | A fence or join of the table is done exactly when the request queue finds all the requests it stands for signaled, and has the error the queue computes. |
| `FenceMeaning.ExplicitMeaning` | src/graphics/intel_gen9_drm.cpp:1860-1872 | So whatever fences an execbuffer is given to wait for are dependencies the queue's theorems cover. |
| `Timeline.NeverEarly` | src/graphics/intel_gen9_drm.cpp:659-685 | If the list is empty, ends with the last point or is all done: once the fence for a point is done, every point recorded up to it is, dropped or not, at any later time. |
| `Timeline.NotEarlyIs` | src/graphics/intel_gen9_drm.cpp:659-685 | Waits are not early now if and only if that is so, whatever points were added before and in whatever order. |
| `Timeline.Exact` | src/graphics/intel_gen9_drm.cpp:659-685 | A wait for a point the list reaches is over exactly when all points recorded up to the first at or past it are done; one for a point added but out of the list's reach is over at once; there is none for a point past the last. |
| `Timeline.AddNotEarly` | src/graphics/intel_gen9_drm.cpp:689-731 | After any history, adding a point leaves no wait early if and only if the point is the last, or the list reached the last point, or the new fence and all others on the list are done. |
| `Timeline.Hidden` | src/graphics/intel_gen9_drm.cpp:689-731 | Every way that condition fails makes the wait for the last point end at once while a recorded point is pending. |
| `Timeline.QueryLater` | src/graphics/intel_gen9_drm.cpp:749-756 | As fences signal, a query never goes back if and only if the list is empty, or its head is done, or what it reaches once its head is done is not below the last point dropped. |
| `Timeline.AddQuery` | src/graphics/intel_gen9_drm.cpp:689-756 | After any history, exactly when adding a point does not set a query back. |
| `Timeline.RunNeverEarly` | src/graphics/intel_gen9_drm.cpp:641-756 | In every run whose additions meet that condition no wait ever ends early. |
| `Timeline.RunExact` | src/graphics/intel_gen9_drm.cpp:641-756 | In every state any run reaches, no wait is early if and only if the list is empty, ends with the last point or is all done. |
| `Timeline.RunsNowhereEarly` | src/graphics/intel_gen9_drm.cpp:641-756 | No wait is early anywhere in a run if and only if every addition in it meets the condition. |
| `Timeline.ForwardIsCareful` | src/graphics/intel_gen9_drm.cpp:689-731 | A run that adds no point below one dropped meets it. |
| `Timeline.BackwardHides` | src/graphics/intel_gen9_drm.cpp:689-731 | Point 5 done, then 3 done, then 4 pending: the wait for 5 is over while 4 is pending. |
| `Timeline.QueryFalls` | src/graphics/intel_gen9_drm.cpp:749-756 | Point 5 done, then 3 pending: with nothing more added the query can fall. |
| `Timeline.RunQuery` | src/graphics/intel_gen9_drm.cpp:641-756 | Between resets, with points in increasing order and none listed below what was dropped, a query never goes back. |
| `Timeline.Syncobj.PrunePoints` | src/graphics/intel_gen9_drm.cpp:641-655 | Drops the longest done prefix in place and remembers its last point. |
| `Timeline.Syncobj.FenceFor` | src/graphics/intel_gen9_drm.cpp:659-685 | The returned fence means exactly the fences to wait for; there is none for a point not recorded yet, and otherwise only if memory runs out. |
| `Timeline.Syncobj.AddPoint` | src/graphics/intel_gen9_drm.cpp:689-731 | The array insertion gives the sorted list with the point, replacing an equal one, and fails exactly if the array cannot grow for a new one; the payload becomes a fence that means everything up to the newest point, or stays if there is no memory for that. |
| `Timeline.Syncobj.QueryPoint` | src/graphics/intel_gen9_drm.cpp:749-756 | Computes the query the theorems are about. |
| `Timeline.Syncobj.SetPayload` | src/graphics/intel_gen9_drm.cpp:735-738 | The timeline starts over. |
| `Dyadic.XorIsBuddy` | src/memory/heap.cpp:312-315 | Flipping the size bit of a block's offset gives the offset of the other half of its parent. |
| `HeapBlocks.BuddyStarts` | src/memory/heap.cpp:311-321 | Where a block's buddy would lie in the arena a block of at most its order starts, so what `kfree` reads there is a header. |
| `HeapBlocks.Split` | src/memory/heap.cpp:197-215 | Halving a block keeps the arenas tiled by size-aligned blocks. |
| `HeapBlocks.Merge` | src/memory/heap.cpp:322-333 | So does merging two buddies. |
| `HeapBlocks.Carve` | src/memory/heap.cpp:66-103 | And carving the next block of a new arena. |
| `HeapBlocks.Canonical` | src/memory/heap.cpp:66-103 | With no two free buddies and nothing allocated, a block is there exactly when it is a maximal aligned block of the arena. |
| `HeapBlocks.NeverOdd` | src/memory/heap.cpp:66-103 | Carving never puts a block into an upper half, so it never makes free buddies. |
| `FreeLists.Unlink` | src/memory/heap.cpp:323-326 | Taking a node out of a doubly linked list by its neighbours leaves the list of the others, in order. |
| `HeapSteps.PayloadFits` | src/memory/heap.cpp:232-236 | A payload is aligned as asked and lies after the header and back-pointer and before the footer of a block of the order picked. |
| `HeapSteps.FitsUnlessWrapped` | src/memory/heap.cpp:251-256 | With the size computed modulo 2^64, the payload fits every block of the picked order, wherever it is, if the sum did not wrap, and no block if it did. |
| `HeapSteps.WrapsToNothing` | src/memory/heap.cpp:251-256 | The smallest request that wraps is taken for one of no bytes, and its payload ends outside the block. |
| `HeapSteps.RoundedIs` | src/memory/heap.cpp:243-249 | The alignment used is a power of two, at least 16 and at least the one asked for: 16 up to 16, and less than twice the one asked for above. |
| `HeapSteps.BuddyIsBlock` | src/memory/heap.cpp:311-322 | For the block being freed, the buddy address is a header of the same arena whenever it lies in it. |
| `HeapSteps.MergedHeld` | src/memory/heap.cpp:322-333 | One merge keeps tiling, lists, counters and every live allocation. |
| `HeapSteps.ShelvedValid` | src/memory/heap.cpp:334-351 | Where merging stops, shelving the block gives a valid heap with no two free buddies. |
| `HeapSteps.ChecksPass` | src/memory/heap.cpp:279-300 | For a live pointer the block its back-pointer leads to is not free and its footer is in place, as `kfree` checks. |
| `HeapSteps.ArenaFound` | src/memory/heap.cpp:54-61 | And the arena `find_arena` finds for it is the one the block is part of. |
| `HeapSteps.EmptyIsCanonical` | src/memory/heap.cpp:311-351 | A heap with nothing allocated has exactly the maximal blocks of each arena. |
| `HeapSteps.EmptyHeapsAgree` | src/memory/heap.cpp:66-103 | Any two valid heaps over the same arenas with nothing allocated have the same headers and counts: freeing everything, in whatever order, restores what carving built. |
| `HeapSteps.CellsInside` | src/memory/heap.cpp:180-239 | Inside every block header, list node, back-pointer, payload and footer follow each other without overlap. |
| `HeapSteps.LivePayloadsDisjoint` | src/memory/heap.cpp:180-239 | Payloads of two live allocations share no byte, nor does one reach the other's back-pointer. |
| `BuddyHeap.Heap.constructor` | src/memory/heap.cpp:163-178 | A fresh heap is valid and its one arena consists of its maximal blocks. |
| `BuddyHeap.Heap.AllocLocked` | src/memory/heap.cpp:180-239 | Fails exactly when no list from the order up has a block, changing nothing; otherwise a new aligned allocation of that order, filled with 0xAA and counted, every other one untouched, valid heap. |
| `BuddyHeap.Heap.CarveRegion` | src/memory/heap.cpp:66-103 | The carving loop covers the arena with maximal blocks and stocks a list of every order that fits. |
| `BuddyHeap.Heap.RegisterArena` | src/memory/heap.cpp:107-116 | Refused exactly when the arena table is full. |
| `BuddyHeap.Heap.Grow` | src/memory/heap.cpp:122-146 | Succeeds exactly if the arena table has room and the frame allocator gives one of the sizes tried, from the usual chunk down to what is needed; then that arena is added and a block of the order asked for, or larger, is free. On failure nothing changed. |
| `BuddyHeap.Heap.OrderFor` | src/memory/heap.cpp:253-258 | The smallest order large enough, or one past the largest. |
| `BuddyHeap.Heap.Kmalloc` | src/memory/heap.cpp:241-273 | Nothing exactly for size 0, for a size no order holds, and when no list has a block large enough and the heap cannot grow; otherwise a new allocation in a block of the smallest order that holds it, aligned to the rounded alignment, filled with 0xAA, counted in total and peak. Other allocations and their bytes are untouched. |
| `BuddyHeap.Heap.Coalesce` | src/memory/heap.cpp:311-351 | The merge loop ends in a valid heap with the same live allocations. |
| `BuddyHeap.Heap.Kfree` | src/memory/heap.cpp:279-354 | Exactly the one allocation goes, its bytes alone are overwritten, with 0xDD, `total_allocated` falls by its size, the heap stays valid. |
| `BuddyHeap.Heap.Move` | src/memory/heap.cpp:392-403 | Succeeds exactly if a new allocation would. The live allocations are then the same but for the old one, which is gone, and the new one; the others keep their headers, the new has the old bytes, and no byte outside the two payloads changes. |
| `BuddyHeap.Heap.Krealloc` | src/memory/heap.cpp:356-403 | In place exactly if the block holds the new size, otherwise moved exactly if a new allocation would succeed. On every path the result has the first min(old, new) bytes; if it returns nothing for a size, the old allocation and all bytes are as before; every other allocation keeps its header, and no byte outside the old and the new payload changes. |
| `KernelLock.Exclusive` | src/cpu/klock.cpp:132-277 | In every interleaving of the CPUs' atomic accesses in which no context nests 2^32 deep, a CPU between calls has the lock exactly when its context's own calls leave it nested, the depth is that nesting, every answer a context ever got is the right one, and at most one CPU has the lock. |
| `KernelLock.ExclusiveAlways` | src/cpu/klock.cpp:132-277 | At most one CPU has the lock in every interleaving, however deep the nesting. |
| `KernelLock.CountsExactly` | src/cpu/klock.cpp:185-277 | The depth is the nesting throughout a run if and only if no context nests 2^32 deep in it. |
| `KernelLock.RunInv` | src/cpu/klock.cpp:132-277 | Every step of every CPU keeps the lock invariant, in the middle of any call of any other. |
| `KernelLock.SwitchInv` | include/cpu/klock.hpp:18-20 | A context switch leaves the lock with the CPU and each context with its own nesting, resumed on whichever CPU. |
| `KernelLock.Atomic` | src/cpu/klock.cpp:132-225 | Seen from outside it is an atomic lock: a step changes who has it for the moving CPU only, and gives it only when nobody has it. |
| `KernelLock.GivenWhenFree` | src/cpu/klock.cpp:132-225 | And it is given whenever it is free: the access that tests it takes it exactly if nobody has it, a spin ends as soon as that is so, and `tryEnter` fails only if somebody has it. |
| `KernelLock.Returns` | src/cpu/klock.cpp:132-277 | A call that no other CPU stands in the way of returns after at most six accesses. |
| `KernelLock.CallKept` | src/cpu/klock.cpp:132-277 | A call ends with its own answer and no other. |
| `KernelLock.SuspendResume` | src/cpu/klock.cpp:263-277 | Handing the answer of `suspend` to `resume` restores the nesting, whatever happened between. |
| `KernelLock.DeepestEnter` | src/cpu/klock.cpp:185-225 | A nested entry of `enter` or `tryEnter` is counted right if and only if the nesting stays below 2^32. |
| `KernelLock.DeepestResume` | src/cpu/klock.cpp:271-277 | What `resume` counts on its way is written over, so its depth is right at any nesting. |
| `Spinlocks.Exclusive` | src/common/spinlock.cpp:65-144 | In every interleaving at most one CPU is past the test-and-set, `heldByThisCpu` is right for a CPU that is in or out, and interrupts are off from the call to the end of `unlock` and then what they were, also after a failed `tryLock`. |
| `Spinlocks.StepInv` | src/common/spinlock.cpp:73-144 | Every access by any CPU keeps that: the word is set exactly while some CPU holds the lock, and the owner names it. |
| `Spinlocks.GivenWhenFree` | src/common/spinlock.cpp:73-130 | The test-and-set gets the lock exactly if no CPU has it; otherwise `tryLock` is out and `lock` spins. |
| `Spinlocks.Uncontended` | src/common/spinlock.cpp:73-144 | A free lock is had after two accesses and given up after two, with the interrupt flag as it was, and a spin that sees it free goes for it at once. |
| `TlbFlush.FlushLocal` | src/cpu/tlb.cpp:57-66 | Exactly the translations asked for go: all of them for 0 or more than 32 pages, otherwise those of the pages counted, in 64-bit arithmetic, from the one the address lies in. |
| `TlbFlush.InRangeMeans` | src/cpu/tlb.cpp:57-66 | The same range, as the number of the page and as one of the pages counted. |
| `TlbFlush.FlushedInRounds` | src/cpu/tlb.cpp:57-66 | One flush instruction after the other removes that range and nothing else. |
| `ShootdownSafety.ServeInv` | src/cpu/tlb.cpp:112-130 | Serving a mailbox, one instruction at a time, flushes what the one sender asked and clears the flag only then. |
| `ShootdownSafety.PassOver` | src/cpu/tlb.cpp:39-51 | A CPU that is not asked, while the sender has the big kernel lock, holds no translation of the space. |
| `ShootdownSafety.StepInv` | src/cpu/tlb.cpp:68-130 | Every step of senders, targets, page walkers and context switches keeps the protocol invariant: one sender, pending mailboxes hold its request, acknowledged targets are clean. |
| `ShootdownSafety.ReturnClean` | src/cpu/tlb.cpp:68-110 | When `shootdown` returns under the big kernel lock its own CPU holds no older translation of the range, and no CPU does if the scheduler is active, there is one CPU or targets were waited for; the return itself flushes nobody else. |
| `ShootdownSafety.CleanForever` | src/cpu/tlb.cpp:68-110 | No later step brings an older translation back. |
| `ShootdownSafety.NeverStaleAgain` | src/cpu/tlb.cpp:57-130 | For every interleaving before, during and after a call, once it has returned every cached translation the call was asked about is newer than the call, on every CPU. |
| `ShootdownSafety.CachedIsGone` | src/cpu/tlb.cpp:57-130 | So whatever of it any CPU had cached when it was called is gone for good. |
| `LockWaits.Rises` | src/common/spinlock.cpp:73-100 | Along a chain of waits for the kernel lock, spinlocks, the mailbox lock and acknowledgements the place in the lock order goes up. |
| `LockWaits.NoCircle` | src/common/spinlock.cpp:73-100 | In no reachable state do CPUs wait for each other in a circle, since every spin serves the spinner's mailbox. |
| `LockWaits.SomeoneMoves` | src/cpu/tlb.cpp:80-110 | From any CPU the waits lead to one that is not waiting or whose mailbox is about to be served. |
| `ShootdownLimits.PollingNeeded` | src/cpu/klock.cpp:199-209 | If spins did not serve the mailbox, two CPUs could reach a state in which each waits for the other forever. |
| `ShootdownLimits.KernelLockNeeded` | src/cpu/tlb.cpp:43-51 | Without the big kernel lock a run returns with a stale translation on a CPU in the middle of a context switch. |
| `ShootdownLimits.ActiveNeeded` | src/cpu/tlb.cpp:77-79 | Before the scheduler is active a run returns with a stale kernel translation on a parked CPU. |
| `Bits.BitOfPut` | include/graphics/intel_gen9_logic.hpp:693-700 | Setting or clearing a bit of a word changes that bit and no other. |
| `Bits.PutIs` | include/graphics/intel_gen9_logic.hpp:693-700 | Setting a clear bit adds its weight to the word, clearing a set one takes it away. |
| `Bits.NarrowIs` | include/graphics/intel_gen9_logic.hpp:693-700 | A word of n bits is a number below 2^n. |
| `Bits.CtzIsLowest` | include/graphics/intel_gen9_logic.hpp:703-715 | Counting trailing zeros finds the lowest set bit. |
| `GttAllocator.WordSays` | include/graphics/intel_gen9_logic.hpp:703-715 | A shifted word tells, of the pages from one to the end of its word, that all are free or which is the first taken. |
| `GttAllocator.Allocator.FirstUsed` | include/graphics/intel_gen9_logic.hpp:703-715 | The word-skipping scan finds the first taken page of a range, or that there is none. |
| `GttAllocator.Allocator.FindFit` | include/graphics/intel_gen9_logic.hpp:645-657 | The search finds the lowest aligned start below the limit with a free run, or proves there is none. |
| `GttAllocator.Allocator.Alloc` | include/graphics/intel_gen9_logic.hpp:638-663 | `kNone`, changing nothing, exactly when no pages were asked for or no start fits; otherwise the lowest start, now taken, and `freeCount` stays the number of clear bits. |
| `GttAllocator.Allocator.Reserve` | include/graphics/intel_gen9_logic.hpp:622-633 | Exactly the pages in range become taken. |
| `GttAllocator.Allocator.Free` | include/graphics/intel_gen9_logic.hpp:667-682 | Accepted exactly when all of it is in range and taken; a refusal changes nothing. |
| `GttRuns.AllocInv` | include/graphics/intel_gen9_logic.hpp:638-663 | A new range touches no page that is reserved or part of a live range. |
| `GttRuns.FreeExact` | include/graphics/intel_gen9_logic.hpp:667-682 | Over any arguments, a free leaves every taken page with exactly one owner if and only if it is passed a range that was handed out or no pages, or is refused. |
| `GttRuns.HistoryExact` | include/graphics/intel_gen9_logic.hpp:604-720 | The books are right after every call of a history if and only if each of its frees meets that condition. |
| `GttRuns.HandedTwice` | include/graphics/intel_gen9_logic.hpp:638-682 | There is a history in which part of a range was given back and handed out again, so that two live ranges share a page. |
| `GttRuns.EveryPageOnce` | include/graphics/intel_gen9_logic.hpp:604-720 | Over every history whose frees meet that condition each taken page is reserved or in exactly one live range, and free, reserved and live pages add up to all. |
| `LrcLayout.SetOffsets` | include/graphics/intel_gen9_logic.hpp:419-452 | For every well-formed layout the nested loops terminate and write exactly the dwords it describes, leaving all others, and end where they say. |
| `LrcLayout.CellsAt` | include/graphics/intel_gen9_logic.hpp:419-452 | Each item of a layout starts right after those before it, a skip of n dwords taking n and a load of n registers 1 + 2n. |
| `LrcLayout.LoadHeader` | include/graphics/intel_gen9_logic.hpp:419-452 | A load begins with an `MI_LOAD_REGISTER_IMM` of its length, posted if it says so. |
| `LrcLayout.LoadCells` | include/graphics/intel_gen9_logic.hpp:419-452 | The i-th register of a load is at dword 1 + 2i and is base + 4 times its offset modulo 2^32; the value after it is left alone. |
| `LrcLayout.ReadBack` | include/graphics/intel_gen9_logic.hpp:341-349 | Reading the image as no-ops and load commands up to the batch end gives the commands of the layout, in order, with each register at base + 4 times its offset modulo 2^32. |
| `LrcLayout.RoundTrip` | include/graphics/intel_gen9_logic.hpp:419-452 | What is written over a zeroed buffer reads back as exactly the register list the byte code describes. |
| `LrcLayout.EncodeRead` | include/graphics/intel_gen9_logic.hpp:341-349 | Every layout written down as the tables are (one or two bytes an offset) is well formed and describes what was meant. |

## Left out

- BuddyHeap.Heap.Kmalloc: requires that the size computation does not wrap modulo 2^64, since a payload may not fit otherwise; `HeapSteps.FitsUnlessWrapped` shows that this is the exact condition.
- BuddyHeap.Heap.Krealloc: the same, for the alignment 16 it uses.
- BuddyHeap.Heap.Move: the same.
- HeapSteps.FitsUnlessWrapped: is about alignments up to 2^63; above that the rounding loop of the source (src/memory/heap.cpp:245-248) never ends.
- BuddyHeap.Heap.Kfree: says nothing of pointers that did not come from the heap; the panics and logged errors for them are not modelled.
- Ppgtt.Gpu.Unmap: requires a byte count of at most 2^64 - 4096, beyond which the loop of the source would not end.
- KernelLock.Exclusive: is about runs in which no context nests 2^32 deep; `KernelLock.CountsExactly` shows that the depth is right in no others.
- GttRuns.EveryPageOnce: is about histories whose accepted frees give back whole ranges or nothing; `GttRuns.HistoryExact` shows that the books are wrong in every other.
- ShootdownSafety.PassOver: takes it of the scheduler, as does `ShootdownSafety.NeverStaleAgain`, that a CPU lets go of the big kernel lock only with the page table of its current process loaded.
- ShootdownSafety.NeverStaleAgain: is about senders that have the big kernel lock while the scheduler is active; `ShootdownLimits` shows both are needed.
- LockWaits.NoCircle: takes it that each CPU asks for locks in order, the big kernel lock first, spinlocks by rank, the mailbox lock last, and that code which does not spin goes on.
- Reference counts of fences, objects and sync objects, and the handle tables that hold them: fences and objects are never reused in the model.
- GpuMemory.StaysTranslated: is about runs whose refusals leave users guarded, as is `GpuMemory.StaysCached`; `GpuExact.RefusalBindings` shows that other refusals can take the binding away.
- GpuMemory.StaysCached: the same.
- Frames of objects: an object's pages stay its own, since every binding holds a reference; their return to the frame allocator is not modelled.
- Answers of the environment (whether memory can be had, what the frame allocator gives, what a look at the hardware finds, whether a request can be queued) are arguments of the methods; the contracts say what each leads to.
- GpuDriver.Driver.Execbuffer: the tests of flags, extensions, batch offsets and sync object arguments are left out, and the engine is one of the two; each of them only turns a call down before anything has changed.
- GpuBans.BannedExactly: that only a privileged process may make a context not bannable is left out; any may here.
- Waiting inside an execbuffer (for idle objects before an eviction) is modelled as a pass that changes nothing; the address space reference held across the wait is not.
- The heap lock and concurrent heap calls: one call runs at a time.
- Frames the frame allocator gave for an arena when the arena table is full are lost by the source; the model does not track them.
- The memory model: interleaved sequentially consistent steps; store buffers and non-cacheable page walks are not modelled.
- In the shootdown protocol locks are atomic, as `KernelLock.Atomic` and `Spinlocks.StepInv` justify; the reports of long or recursive spins are left out.
- MMIO, forcewake, resets, ring contents and command building, cache flushing: a request completes, hangs or cannot start at any time.
- Copying to and from user memory, file descriptors, dma-buf and sync file nodes, GETPARAM, QUERY, tiling and statistics: they validate and copy arguments, or report constants and counters, and no property of queues, memory or locks depends on them.
- The scheduler: only what it does with the big kernel lock and with page tables.
- The two concrete layout tables of the render and the other engines are not listed; the layout theorems are about every well-formed layout.
