# Neri: a verified model of its verifier, lowerer and runtime

Neri compiles typed SSA to native code and runs it on a collected runtime. This project models the parts where an error
would silently corrupt a program: the IR verifier, the decisions of the LLVM lowerer, the collector and its storage, the
hierarchy of heaps that regions and tasks make, the task executor and the worker pool. It is written in Dafny 4.11;
`dafny verify dfyconfig.toml` checks everything.

What the pieces say together:

- **Accepted programs are safe to run with a collector.** The verifier's dominator iteration is exact path dominance,
  its block order is the breadth-first order and nothing else, and it accepts a body if and only if a declarative
  definition does (`Dominance`, `CanonicalOrder`, `SsaVerifier`). Instructions that meet their type rules make sense
  (`Typing`, `TypedOperations`). Root planning computes exactly the live managed values (`RootPlanner`), declared effects
  cover every callee (`Effects`), trace callbacks visit every slot that holds an object (`TypedHeap`), and a collection
  keeps exactly what is reachable (`Collector`). `RootedExecution` puts these together: in every state of every run of an
  accepted program, with collections wherever the effects allow them, whatever is read, live, in hand or in a slot of the
  heap refers to an object that has not been reclaimed and is of its declared type. `RootedRuns` shows such runs.
- **Declared effects mean something.** A run of a verified function does nothing it does not declare, through all its
  calls, and every effect an instruction is charged with is one it can have (`EffectSoundness`, `NativeExecution`).
- **Optimisations preserve meaning.** Running a selected function in a discarded heap of its own gives the same scalar or
  the same panic, whatever either run collects (`LoopDetection`, `RegionSelection`, `RegionExecution`, `RegionMeaning`;
  `InterpreterLaws` and `Scalars` have laws of the interpreter); dropping redundant null stores changes nothing
  (`NullStores`); a devirtualised call reaches the method the table holds (`ClassLayout`, `Devirtualization`).
- **The runtime keeps its promises.** Storage is a map from addresses to live objects (`Slabs`, `ManagedStorage`), and
  that map is the collector's heap (`StorageRefinement`); references only point up the hierarchy of heaps, over every
  interleaving (`HeapHierarchy`); the executor runs each index exactly once, and from every state there is a way to
  complete all work (`TaskExecutor`); worker-pool jobs are conserved and readiness is exact (`WorkerPool`).
- **Layouts are right.** Fields and members are aligned and disjoint, offsets and slots stable (`ClassLayout`,
  `NativeLayout`).

Code that updates state in place is modelled by classes and loops (the collector's heap, slabs and storage, the pool, the
layout builders, the data-flow loops); protocols between threads are state machines over their atomic steps, with
theorems over all runs. `Ir`, `Cfg`, `Collections`, `Totals` and `Arithmetic` hold what the other modules share.

Three promises turned out to hold only in part.

- Layouts of native types are memoised, and a remembered record is accepted without looking at how deep its members would
  be, so that a type can be accepted or rejected by the limit of 128 nested types depending on what the same
  `native_layouts` object laid out before. `NativeLayout.OrderMatters` is an example from the outermost depth.
  `NativeLayout.Layouts.LayoutType` says exactly which types are accepted, in terms of their nesting, and
  `NativeLayout.MemoAgreesExactly` exactly when the memo makes no difference. The layout itself never depends on it.
- A comparison of optional strings looks at their texts and is not charged with Read, unlike a comparison of strings.
  `EffectSoundness.ReadsExactly` says that no other whitelisted instruction does so; since texts never change, runs are not
  affected (`EffectSoundness.InvokeBlind`).
- A native reallocation may take a block away and is not charged with Write, unlike a deallocation.
  `NativeExecution.ChargedExactly` says that no other instruction on native memory does so.

## Model

| member | source | states |
|---|---|---|
| `Dominance.Predecessors` | native/codegen/ir_verifier.cpp:1566-1570 | exactly the listed blocks with an edge into a block |
| `Dominance.Intersect` | native/codegen/ir_verifier.cpp:1571-1580 | the block itself and what every predecessor is dominated by |
| `Dominance.SweepBlock` | native/codegen/ir_verifier.cpp:1563-1584 | one in-place update loses no true dominator, and either changes nothing, so that the block satisfies its equation, or strictly shrinks the sets |
| `Dominance.Sweep` | native/codegen/ir_verifier.cpp:1560-1586 | an unchanged sweep is a fixed point, a changed one strictly shrinks the sets, a block without predecessors is rejected |
| `Dominance.StableIsExact` | native/codegen/ir_verifier.cpp:1546-1590 | at a fixed point every block listed for `b` lies on every path from the entry to `b` |
| `Dominance.ExactWhenStable` | native/codegen/ir_verifier.cpp:1546-1590 | a sound fixed point is exactly path dominance |
| `Dominance.ComputeDominators` | native/codegen/ir_verifier.cpp:1546-1590 | the computed sets are exactly the blocks on every entry-to-block path; the only failure is a block without predecessors, so the budget of N squared plus one sweeps is never used up |
| `CanonicalOrder.Enqueue` | native/codegen/ir_verifier.cpp:1529-1533 | new targets are queued once, in order |
| `CanonicalOrder.Discover` | native/codegen/ir_verifier.cpp:1513-1534 | breadth-first discovery yields the canonical order |
| `CanonicalOrder.VerifyCanonicalCfg` | native/codegen/ir_verifier.cpp:1513-1544 | accepts a listing if and only if it is the breadth-first order |
| `CanonicalOrder.CanonicalIsUnique` | native/codegen/ir_verifier.cpp:1513-1544 | a graph has one canonical order |
| `CanonicalOrder.EarlyPath` | native/codegen/ir_verifier.cpp:1513-1544 | each block is reached over blocks listed before it |
| `CanonicalOrder.DominatorsComeFirst` | native/codegen/ir_verifier.cpp:1513-1544 | a dominator is listed no later than what it dominates |
| `SsaVerifier.RegisterDefinitions` | native/codegen/ir_verifier.cpp:1321-1360 | succeeds if and only if no value is defined twice, and then records exactly the definitions |
| `SsaVerifier.VerifyArguments` | native/codegen/ir_verifier.cpp:1371-1396 | accepts edge arguments if and only if they have the types of the parameters they bind |
| `SsaVerifier.VerifyEdges` | native/codegen/ir_verifier.cpp:1371-1396 | accepts if and only if every edge is typed |
| `SsaVerifier.CheckBlockIds` | native/codegen/ir_verifier.cpp:1398-1425 | accepts if and only if block ids are distinct |
| `SsaVerifier.VerifyEntry` | native/codegen/ir_verifier.cpp:1414-1425 | accepts if and only if the entry block has the parameters of the signature, in number and type |
| `SsaVerifier.VerifyEndings` | native/codegen/ir_verifier.cpp:1450-1510 | accepts if and only if every condition is a boolean and every return gives the declared result |
| `SsaVerifier.VerifyUses` | native/codegen/ir_verifier.cpp:1592-1602 | accepts if and only if every read has a definition that dominates it |
| `SsaVerifier.DefinitionsMatch` | native/codegen/ir_verifier.cpp:1321-1360 | a value is bound at a point if and only if the verifier registered that definition |
| `SsaVerifier.VerifyBody` | native/codegen/ir_verifier.cpp:1398-1603 | accepts a body if and only if it meets the declarative conditions: unique ids and definitions, an entry with the parameters of the signature, typed edges, conditions and returns, canonical order, dominated reads |
| `SsaVerifier.OneDefinition` | native/codegen/ir_verifier.cpp:1321-1360 | in an accepted function a value is bound at one point |
| `SsaVerifier.UseHasDefinition` | native/codegen/ir_verifier.cpp:1592-1602 | in an accepted function every read has a dominating definition point |
| `SsaVerifier.DominatedOnRun` | native/codegen/ir_verifier.cpp:1546-1590 | a run that reaches a point has passed whatever dominates it |
| `SsaVerifier.ReadsFollowDefinitions` | native/codegen/ir_verifier.cpp:1398-1603 | on every execution path of an accepted function each value read was bound earlier on that path |
| `Typing.IsSameOrBase` | native/codegen/ir_verifier.cpp:449-466 | the walk over bases finds exactly the classes a class is or inherits from within as many steps as there are classes |
| `Typing.VerifyInstructions` | native/codegen/ir_verifier.cpp:781-1319 | accepts if and only if every instruction has defined operands and meets the type rule of its opcode |
| `Typing.ElementIsUnmanaged` | native/codegen/ir_verifier.cpp:146-152 | no type behind a native pointer is a managed reference |
| `Typing.CTypeIsUnmanaged` | native/codegen/ir_verifier.cpp:131-134 | no type that crosses into C is one |
| `TypedOperations.TypedMakesSense` | native/codegen/ir_verifier.cpp:830-1115 | an instruction that meets its rule, on operands of its types, never gets stuck |
| `TypedOperations.FieldsMakeSense` | native/codegen/ir_verifier.cpp:1116-1141 | nor does an access to a field the object has |
| `TypedOperations.TypedYieldsItsType` | native/codegen/ir_verifier.cpp:830-1115 | checked arithmetic, new objects, optionals, upcasts and constants are values of their result types |
| `TypedOperations.IntegersHaveValues` | native/codegen/ir_verifier.cpp:94-98 | the verifier and the layouts agree on which types are integers and scalars |
| `TypedHeap.ManagedExactly` | native/codegen/ir_verifier.cpp:154-160 | a type is a managed reference if and only if some object fits it |
| `TypedHeap.ManagedIsWrapped` | native/codegen/llvm_lowering.cpp:81-84 | a type is a managed reference if and only if it is a string, class or array inside any number of optionals |
| `TypedHeap.NothingIsMissed` | native/codegen/llvm_lowering.cpp:2788-2828 | a trace callback visits every slot that holds an object |
| `TypedHeap.CollectionKeepsHeap` | native/runtime/runtime.cpp:554-615 | after a collection that sees only what callbacks visit, no slot of any type refers to an object that is gone, and every slot holds what its type allows |
| `Effects.BlockEffects` | native/codegen/ir_verifier.cpp:1427-1446 | the effects of a block are within the declared ones if and only if those of each instruction are |
| `Effects.VerifyEffects` | native/codegen/ir_verifier.cpp:1749-1763 | accepts if and only if every instruction is known, its effects are declared, and the function declares that it does not return exactly if it has no return |
| `Effects.CalleeEffectsCharged` | native/codegen/ir_verifier.cpp:595-662 | whatever a function may call, directly or virtually, has no effect its caller does not declare |
| `Effects.CollectingCalleeMeansCollectingCaller` | native/codegen/ir_verifier.cpp:707-779 | a collecting callee makes the caller collecting and the call site a collection point |
| `Effects.OwnCollectionCharged` | native/codegen/llvm_lowering.cpp:719-753 | an instruction that collects by itself is a collection point of a collecting function |
| `Effects.ForeignCallCharged` | native/codegen/ir_verifier.cpp:664-706 | a call of foreign code is charged with every effect of such calls |
| `Effects.CollectingEntryCharged` | native/codegen/llvm_lowering.cpp:719-753 | whatever a collecting function may run under, foreign code calling back included, is a collection point of a collecting function |
| `Effects.ForeignCodeMayDoAnything` | native/codegen/ir_verifier.cpp:664-706 | a foreign call is charged with every effect but that it does not return |
| `Effects.CallChargesAreReal` | native/codegen/ir_verifier.cpp:595-779 | a call is charged with nothing that no function it may call declares |
| `Effects.GenerationIsItsParts` | native/codegen/ir_verifier.cpp:791-807 | generating an array is charged as making one, asking for its length and storing into it |
| `Effects.GenerationCallsBack` | native/codegen/ir_verifier.cpp:791-807 | and as its callback |
| `Effects.TasksAreUnsafe` | native/codegen/ir_verifier.cpp:808-829 | doing so in tasks is unsafe besides |
| `Effects.CollectorsAreCharged` | native/codegen/llvm_lowering.cpp:719-753 | other instructions collect by themselves if and only if they are charged with an allocation or a safepoint |
| `Effects.RootsArePublishedWhereNeeded` | native/codegen/llvm_lowering.cpp:719-753 | roots are published exactly where a collection may happen, and before a named list of other instructions |
| `EffectSoundness.OperateRespects` | native/codegen/ir_verifier.cpp:781-1319 | one instruction changes objects only if charged with Write, adds some only if charged with ManagedAllocate and Safepoint, and panics only if charged with MayPanic |
| `EffectSoundness.InvokeCharged` | native/codegen/ir_verifier.cpp:1749-1763 | a run of a verified function, through all its calls, does nothing it does not declare: no change to what its callers reach without Write, no object coming or going without ManagedAllocate and Safepoint, no panic without MayPanic, no return with NoReturn |
| `EffectSoundness.OperateBlind` | native/codegen/ir_verifier.cpp:781-1319 | an instruction not charged with Read does the same whatever instances and arrays hold |
| `EffectSoundness.InvokeBlind` | native/codegen/ir_verifier.cpp:1749-1754 | a run of a function that declares neither Read nor an allocation ends the same and returns the same value whatever they hold |
| `EffectSoundness.WritesExactly` | native/codegen/ir_verifier.cpp:1092-1141 | a whitelisted instruction is charged with Write if and only if some execution changes an object |
| `EffectSoundness.AllocatesExactly` | native/codegen/ir_verifier.cpp:992-1115 | with ManagedAllocate and with Safepoint if and only if some execution adds one |
| `EffectSoundness.ReadsExactly` | native/codegen/ir_verifier.cpp:882-1141 | with Read if and only if the value of some execution depends on what objects hold, except that comparisons of optional strings do and are not charged |
| `EffectSoundness.PanicsExactly` | native/codegen/ir_verifier.cpp:845-1115 | with MayPanic if and only if some execution panics or it allocates |
| `NativeExecution.ChargedExactly` | native/codegen/ir_verifier.cpp:1157-1311 | an instruction on native memory is charged with Write, NativeAllocate, MayPanic and Read if and only if some execution changes, allocates, panics or depends on memory, except that a reallocation takes a block away and is not charged with Write |
| `NativeExecution.LoadAfterStore` | native/codegen/llvm_lowering.cpp:1883-1919 | a load gives what was stored last and a store changes no other cell |
| `NativeExecution.FreeAfterAllocate` | native/codegen/llvm_lowering.cpp:1951-1983 | freeing a new block leaves the memory as it was |
| `NativeExecution.DifferenceAfterOffset` | native/codegen/llvm_lowering.cpp:1920-1942 | the difference undoes an offset |
| `NativeExecution.ReallocateKeeps` | native/codegen/llvm_lowering.cpp:1965-1977 | a reallocation keeps what fits |
| `RootPlanner.PassBlock` | native/codegen/llvm_lowering.cpp:782-813 | one backward step keeps the sets sound and either changes nothing or strictly grows them |
| `RootPlanner.Pass` | native/codegen/llvm_lowering.cpp:782-813 | an unchanged pass is a fixed point; a changed one makes progress |
| `RootPlanner.SolveLiveness` | native/codegen/llvm_lowering.cpp:782-813 | the loop ends, at a fixed point grown from nothing |
| `RootPlanner.LivenessIsExact` | native/codegen/llvm_lowering.cpp:759-780 | a managed value is in the computed set before a point if and only if some path from there reads it before it is bound again |
| `RootPlanner.PlanRoots` | native/codegen/llvm_lowering.cpp:782-813 | every collection point has exactly the managed values that are live after it or read by it as roots, and the capacity is the largest such set |
| `RootPlanner.PlanFrame` | native/codegen/llvm_lowering.cpp:815-823 | functions without a collecting effect get no frame, all others the exact plan |
| `RootPlanner.SynchronizeRoots` | native/codegen/llvm_lowering.cpp:854-863 | the slots in use hold exactly the planned values, slot zero is cleared, and the rest is untouched |
| `RootPlanner.LiveIsDefined` | native/codegen/llvm_lowering.cpp:759-780 | a live value was bound on every run to that point |
| `RootPlanner.LiveIsDominated` | native/codegen/llvm_lowering.cpp:759-780 | a live value has one definition point that lies on every run to the point |
| `RootPlanner.LoweredInTime` | native/codegen/llvm_lowering.cpp:641-658 | whatever a point needs was lowered in an earlier block or earlier in its own |
| `RootPlanner.LiveOnEntryIsBound` | native/codegen/llvm_lowering.cpp:759-780 | nothing is live on entry but parameters |
| `Collector.Heap.MarkObject` | native/runtime/runtime.cpp:510-531 | a known reference is followed, an unmarked object of this heap is marked and pushed once, ancestors and literals are left alone, anything else is an error |
| `Collector.Heap.MarkFrames` | native/runtime/runtime.cpp:554-580 | every slot of every root frame is followed |
| `Collector.Heap.MarkRoots` | native/runtime/runtime.cpp:554-590 | frames, persistent roots and borrows are followed |
| `Collector.Heap.Drain` | native/runtime/runtime.cpp:554-615 | the mark stack empties, each marked object is traced exactly once, and failure means a reachable object holds an unknown reference |
| `Collector.Heap.MarkReachable` | native/runtime/runtime.cpp:554-615 | the marks are exactly the objects reachable from the roots |
| `Collector.SweepStore` | native/runtime/runtime.cpp:554-615 | keeps exactly the marked objects, and the object and byte counts are conserved |
| `Collector.Heap.Collect` | native/runtime/runtime.cpp:554-615 | a collection keeps exactly the reachable objects, ends with no marks and with counts equal to the totals, and fails exactly when a reachable reference is unknown or a collection is running |
| `Collector.Heap.CollectAtThreshold` | native/runtime/runtime.cpp:1614-1648 | succeeds unless it collects and a reachable reference is unknown; the heap then holds the survivors if the threshold would be passed, else what it held |
| `Collector.Heap.MakeRoom` | native/runtime/runtime.cpp:1614-1648 | the same with the second collection after a refusal, which changes nothing more if the first one ran |
| `Collector.Heap.Allocate` | native/runtime/runtime.cpp:1614-1648 | succeeds exactly if the heap is active, the counters have room, the collections it needs succeed and the storage answers; the result is a new object with as many slots as asked for, each null, next to exactly the survivors, possibly where a reclaimed object was |
| `Collector.Heap.AllocateAndStore` | native/runtime/runtime.cpp:1614-1746 | any slot of a new object can be stored to at once and then holds the value |
| `Collector.QuietAfterCollection` | native/runtime/runtime.cpp:606-608 | when an allocation right after a collection collects again: beyond four MiB, beyond twice the survivors, or at the end of the count |
| `Collector.Heap.StoreReference` | native/runtime/runtime.cpp:1723-1746 | succeeds exactly for an owned object, a slot inside it and a known value; changes that slot only; keeps the heap free of dangling references |
| `Collector.SurvivorsDoNotDangle` | native/runtime/runtime.cpp:554-615 | collecting a heap without dangling references leaves none |
| `Collector.SurvivorsAgain` | native/runtime/runtime.cpp:554-615 | collecting twice is collecting once |
| `Collector.SurvivorsClosed` | native/runtime/runtime.cpp:554-615 | a heap that could be collected can be collected again |
| `Collector.StoreKeepsNoDangling` | native/runtime/runtime.cpp:1723-1746 | a checked store leaves no dangling reference |
| `RootedExecution.CollectionIsCharged` | native/codegen/ir_verifier.cpp:1749-1754 | when a collection happens, every function on the stack declares a collecting effect and stands at a collection point |
| `RootedExecution.LiveIsRooted` | native/codegen/llvm_lowering.cpp:854-863 | when a collection happens, every live value of every frame that holds an object, whatever its type, is in a root slot |
| `RootedExecution.HolderIsManaged` | native/codegen/llvm_lowering.cpp:755-757 | whatever holds an object is among the values the plan considers |
| `RootedExecution.YieldFits` | native/codegen/ir_verifier.cpp:781-1319 | whatever an instruction yields fits the declared type of its result |
| `RootedExecution.StoreFits` | native/codegen/ir_verifier.cpp:1056-1141 | whatever it stores fits the slot |
| `RootedExecution.ArgumentFits` | native/codegen/ir_verifier.cpp:595-779 | whatever a parameter receives fits its type, also through virtual calls and callbacks |
| `RootedExecution.StackIsRooted` | native/codegen/llvm_lowering.cpp:815-863 | the whole stack is rooted at every collection |
| `RootedExecution.BeginKeeps` | native/codegen/llvm_lowering.cpp:854-863 | storing the planned roots keeps the invariant of the machine |
| `RootedExecution.CreateKeeps` | native/codegen/llvm_lowering.cpp:1384-1392 | allocation keeps the invariant of the machine; a generated array goes to slot zero at once |
| `RootedExecution.WriteKeeps` | native/codegen/llvm_lowering.cpp:1844-1857 | so do stores, which keep every slot within its type |
| `RootedExecution.LoadKeeps` | native/codegen/llvm_lowering.cpp:1806-1843 | so do loads, from objects of this heap or of a suspended ancestor |
| `RootedExecution.PinKeeps` | native/codegen/llvm_lowering.cpp:1755-1805 | so does handing a reference to code outside the module |
| `RootedExecution.FinishKeeps` | native/codegen/llvm_lowering.cpp:1825-1875 | so does the end of an instruction; its results exist and have their declared types |
| `RootedExecution.CollectKeeps` | native/runtime/runtime.cpp:554-615 | a collection keeps the invariant of the machine |
| `RootedExecution.GeneratorHasSlotZero` | native/codegen/llvm_lowering.cpp:1384-1392 | whoever generates an array has a root frame to keep it in |
| `RootedExecution.GeneratedSurvives` | native/codegen/llvm_lowering.cpp:1389-1392 | an array being generated survives every collection of its callbacks |
| `RootedExecution.InvokeKeeps` | native/codegen/ir_verifier.cpp:595-662 | a call, direct, virtual, back from foreign code or of a callback, keeps the invariant of the machine |
| `RootedExecution.LeaveKeeps` | native/codegen/llvm_lowering.cpp:873-882 | a return keeps the invariant of the machine |
| `RootedExecution.JumpKeeps` | native/codegen/ir_verifier.cpp:1371-1396 | following an edge keeps the invariant of the machine |
| `RootedExecution.TraceKeeps` | native/codegen/llvm_lowering.cpp:782-863 | the invariant holds in every state of every run of an accepted program |
| `RootedExecution.NoReadAfterFree` | native/codegen/llvm_lowering.cpp:782-863 | in every state of every run, with collections wherever the effects allow them, every value about to be read is bound, and if it holds an object, whatever its declared type, that object was not reclaimed and is of that type; so is everything live in any frame and everything in any slot of the heap |
| `RootedExecution.QuietFunctionsSeeNoCollection` | native/codegen/llvm_lowering.cpp:815-823 | no collection ever happens below a function that declares no collecting effect |
| `RootedRuns.AcceptedIsLowered` | native/codegen/llvm_lowering.cpp:782-823 | every accepted module has plans, so these theorems are about all of them |
| `RootedRuns.LiveTextSurvives` | native/codegen/llvm_lowering.cpp:782-863 | there is a run with a collection that reclaims garbage and keeps the string that is read afterwards |
| `HeapHierarchy.SweepKeeps` | native/runtime/runtime.cpp:554-615 | collecting one heap keeps the hierarchy: other heaps hold no reference into it that the roots do not cover |
| `HeapHierarchy.DropHeapKeeps` | native/runtime/runtime.cpp:1706-1721 | dropping a heap keeps the hierarchy |
| `HeapHierarchy.LeaveRegionKeeps` | native/runtime/runtime.cpp:1706-1721 | leaving a region keeps the hierarchy |
| `HeapHierarchy.JoinKeeps` | native/runtime/runtime.cpp:1126-1141 | adopting the results of finished tasks keeps the hierarchy |
| `HeapHierarchy.OnlyOwnReferences` | native/runtime/runtime.cpp:1723-1746 | a slot refers into a running heap only if it belongs to that heap or is a result slot of it |
| `HeapHierarchy.StepKeeps` | native/runtime/runtime.cpp:1419-1523 | every step of every heap keeps the hierarchy |
| `HeapHierarchy.StratifiedAlways` | native/runtime/runtime.cpp:1419-1523 | the hierarchy holds in every state of every interleaving |
| `HeapHierarchy.StoreWrites` | native/runtime/runtime.cpp:1723-1746 | a store and the write of a result put that value into that slot and change nothing else |
| `HeapHierarchy.AllocateAdds` | native/runtime/runtime.cpp:1614-1648 | a new object belongs to the heap that asked and has that many empty slots |
| `HeapHierarchy.CollectDrops` | native/runtime/runtime.cpp:554-615 | a collection takes exactly the unreached objects of its heap |
| `HeapHierarchy.LeavingDrops` | native/runtime/runtime.cpp:1706-1721 | the end of a region or of a task without results takes exactly its objects |
| `HeapHierarchy.FinishKeepsResults` | native/runtime/runtime.cpp:1419-1523 | a finished task keeps exactly what its results reach |
| `HeapHierarchy.JoinAdopts` | native/runtime/runtime.cpp:1126-1141 | a join loses no object, changes no slot, and makes the objects of the tasks its own |
| `HeapHierarchy.RegionRefersUp` | native/runtime/runtime.cpp:1691-1705 | there are runs in which an object of a region refers to one of the suspended heap |
| `HeapHierarchy.JoinedResult` | native/runtime/runtime.cpp:1126-1141 | there are runs in which a result slot refers to an adopted object |
| `HeapHierarchy.NothingDangles` | native/runtime/runtime.cpp:1691-1746 | in every reachable state every reference in a live object is to a live object |
| `HeapHierarchy.ReferencesPointUp` | native/runtime/runtime.cpp:433-454 | that object is of the same heap or of an ancestor that is suspended, result slots excepted |
| `HeapHierarchy.JoinClearsSpans` | native/runtime/runtime.cpp:1126-1141 | after the join no slot of the heap is a result slot any more, and every reference in it can be read from it |
| `HeapHierarchy.FindReadable` | native/runtime/runtime.cpp:442-454 | finds a reference readable if and only if its object is of the current heap or of a suspended ancestor |
| `TaskExecutor.Divide` | native/runtime/task_executor.cpp:100-126 | chunk width and remainder add up to the count |
| `TaskExecutor.CutChunks` | native/runtime/task_executor.cpp:100-126 | the chunks partition the range into nonempty pieces, in order |
| `TaskExecutor.PlanChunks` | native/runtime/task_executor.cpp:100-126 | so do the planned chunks, and there are no more than asked for |
| `TaskExecutor.EachIndexOnce` | native/runtime/task_executor.cpp:100-126 | every index lies in exactly one chunk |
| `TaskExecutor.SpansAreDisjoint` | native/runtime/task_executor.cpp:100-126 | chunks have disjoint result spans |
| `TaskExecutor.Take` | native/runtime/task_executor.cpp:53-65 | takes the first queued job whose group has room, if there is one |
| `TaskExecutor.StepKeeps` | native/runtime/task_executor.cpp:53-141 | every step of every thread keeps the invariant of the executor |
| `TaskExecutor.InvariantAlways` | native/runtime/task_executor.cpp:53-141 | the invariant holds in every reachable state |
| `TaskExecutor.PendingIsConserved` | native/runtime/task_executor.cpp:53-141 | pending is unpublished plus queued plus running, for every group in every state |
| `TaskExecutor.StepOrWait` | native/runtime/task_executor.cpp:66-99 | a thread can step unless it waits for a group whose jobs others hold |
| `TaskExecutor.WaitedOn` | native/runtime/task_executor.cpp:127-141 | what a waiting coordinator waits for is held up by a strictly newer group or by a thread that can step |
| `TaskExecutor.NoDeadlock` | native/runtime/task_executor.cpp:53-141 | while a group has pending jobs some thread can step, however groups are nested |
| `TaskExecutor.StepsWork` | native/runtime/task_executor.cpp:53-149 | every step but the start of another group strictly decreases the work that is left |
| `TaskExecutor.GroupsComplete` | native/runtime/task_executor.cpp:53-149 | from every reachable state there is a run that closes all groups, within the work that is left |
| `TaskExecutor.RunsAreShort` | native/runtime/task_executor.cpp:53-149 | no run that starts no other group is longer than that |
| `TaskExecutor.CallerCompletes` | native/runtime/task_executor.cpp:66-149 | a caller with any number of workers, even none, can start a group of any size and see it to its end |
| `TaskExecutor.NothingPending` | native/runtime/task_executor.cpp:127-141 | a group with nothing pending has every job done |
| `TaskExecutor.ClosedGroupIsDone` | native/runtime/task_executor.cpp:143-149 | when a coordinator frees its jobs none is queued or running |
| `TaskExecutor.JobsMoveForward` | native/runtime/task_executor.cpp:53-141 | a job goes from queued to running to done and never back |
| `TaskExecutor.EachJobOnce` | native/runtime/task_executor.cpp:53-149 | in every run no job begins or ends twice, and by the time its group closes each has begun and ended once |
| `TaskExecutor.EachIndexRunsOnce` | native/runtime/task_executor.cpp:53-149 | so by then each index has been run once, by the one chunk that holds it |
| `TaskExecutor.ShapedAlways` | native/runtime/task_executor.cpp:66-141 | in every run bodies and groups take turns on each stack, the caller starts from a group and workers from a body, and no group is empty |
| `TaskExecutor.OwnCoordinator` | native/runtime/task_executor.cpp:100-141 | jobs are published and a group is closed by the frame that opened it |
| `TaskExecutor.IdleWorkerTakes` | native/runtime/task_executor.cpp:84-99 | no worker stays idle while a queued job may be taken |
| `WorkerPool.ReadinessChannel.Set` | native/platform/readiness_channel.cpp:100-125 | the pipe holds one byte exactly while readiness is announced |
| `WorkerPool.Pool.constructor` | native/runtime/worker_pool.cpp:205-260 | an opened pool meets the invariant with every worker alive |
| `WorkerPool.Pool.SetReadiness` | native/runtime/worker_pool.cpp:95-97 | the descriptor is readable exactly when polling has something to say |
| `WorkerPool.Pool.Finish` | native/runtime/worker_pool.cpp:98-106 | completing a job moves it to the completed list, clears the payload unless it succeeded, and announces it |
| `WorkerPool.Pool.DrainQueue` | native/runtime/worker_pool.cpp:107-115 | every queued job fails, in order |
| `WorkerPool.Pool.StopIfUnavailable` | native/runtime/worker_pool.cpp:107-115 | with no worker available the pool stops and fails its queue, else nothing changes |
| `WorkerPool.Pool.Fail` | native/runtime/worker_pool.cpp:116-128 | a failing worker fails its job, and the last one the queue, keeping the invariant |
| `WorkerPool.Pool.Stop` | native/runtime/worker_pool.cpp:132-143 | stopping cancels queued jobs in order, flags active ones, and empties the queue for good |
| `WorkerPool.Pool.Depart` | native/runtime/worker_pool.cpp:174-186 | what becomes of the job of a worker whose thread ends |
| `WorkerPool.Pool.Exit` | native/runtime/worker_pool.cpp:174-193 | the end of a worker thread keeps the invariant and readiness |
| `WorkerPool.Pool.Submit` | native/runtime/worker_pool.cpp:272-296 | exactly when a job is admitted, and that nothing changes when it is not |
| `WorkerPool.Pool.Poll` | native/runtime/worker_pool.cpp:297-311 | the oldest completion, or whether there will be any |
| `WorkerPool.Pool.Take` | native/runtime/worker_pool.cpp:312-328 | a completion is consumed exactly if it is complete and fits, releasing its reservation |
| `WorkerPool.Pool.Cancel` | native/runtime/worker_pool.cpp:337-349 | a queued job completes as cancelled, an active one is flagged, a complete one is unaffected |
| `WorkerPool.Pool.Ready` | native/runtime/worker_pool.cpp:363-372 | exactly when a worker becomes ready |
| `WorkerPool.Pool.Receive` | native/runtime/worker_pool.cpp:373-387 | a worker gets the oldest queued job, and exactly when |
| `WorkerPool.Pool.Reply` | native/runtime/worker_pool.cpp:399-413 | a reply completes the job with exactly the bytes given, or as cancelled |
| `WorkerPool.OnePlace` | native/runtime/worker_pool.cpp:80-131 | every admitted job is in exactly one of the queue, the hands of one worker, the completed list |
| `WorkerPool.RetainedIsReserved` | native/runtime/worker_pool.cpp:272-328 | the reservations add up to the reserved total, which is within the limit and bounds the retained bytes |
| `WorkerPool.EvolvesComposes` | native/runtime/worker_pool.cpp:98-131 | over any run a completion is final until taken, a taken ticket never returns, and stopping is final |
| `WorkerPool.ShutdownCompletes` | native/runtime/worker_pool.cpp:144-157 | once every worker has exited every job still held is complete |
| `WorkerPool.DepartedJob` | native/runtime/worker_pool.cpp:174-186 | a thread that ends leaves its job cancelled if that was asked for, else failed, and without payload |
| `Slabs.SizeClass` | native/runtime/managed_storage.cpp:62-66 | the smallest class that holds the size, or none |
| `Slabs.SlotSizes` | native/runtime/managed_storage.cpp:62-66 | the size classes are 16, 32, 48, 64, 128 and 256 bytes, each larger than the one before |
| `Slabs.NoSlotIsNone` | native/runtime/managed_storage.h:44-57 | the mark of an empty chain fits sixteen bits and is no slot of any slab |
| `Slabs.Capacity` | native/runtime/managed_storage.cpp:107-109 | the largest number of slots that fits a block |
| `Slabs.SlotPlace` | native/runtime/managed_storage.cpp:84-87 | slots lie behind the side table, inside the block, and aligned |
| `Slabs.SlotsApart` | native/runtime/managed_storage.cpp:84-87 | slots do not overlap |
| `Slabs.PackedFields` | native/runtime/managed_storage.cpp:122-123 | allocation bit, offset and size survive being packed into sixteen-bit words |
| `Slabs.RoomMeansRoom` | native/runtime/managed_storage.cpp:76-78 | a slab has room if and only if fewer objects live in it than it has slots |
| `Slabs.FillKeeps` | native/runtime/managed_storage.cpp:119-124 | allocation keeps the free chain and the allocated slots a partition of the slots below the bump index |
| `Slabs.FilledMeans` | native/runtime/managed_storage.cpp:119-124 | allocation adds one object where none was |
| `Slabs.FreeKeeps` | native/runtime/managed_storage.cpp:158-160 | freeing a slot keeps that partition |
| `Slabs.SweepSlab` | native/runtime/managed_storage.cpp:145-162 | a swept slab keeps exactly its marked objects, without marks, and reports the others with exact counts |
| `Slabs.EmptyWhenNothingSurvives` | native/runtime/managed_storage.cpp:163-167 | a swept slab is empty if and only if it had no marked object |
| `ManagedStorage.OwnerIsSound` | native/runtime/managed_storage.h:97-109 | whatever word a header holds, an owner is only reported for a live object of that owner |
| `ManagedStorage.ReadBack` | native/runtime/managed_storage.h:84-130 | owner, size and mark read through its header are those of the live object, and a dead one has no owner |
| `ManagedStorage.ObjectsApart` | native/runtime/managed_storage.cpp:84-134 | live objects do not overlap |
| `ManagedStorage.MetadataApart` | native/runtime/managed_storage.cpp:84-134 | live objects overlap no slab header, side table or large header |
| `ManagedStorage.Storage.AllocateSlot` | native/runtime/managed_storage.cpp:118-133 | hands out an address nothing lived at and changes no other object |
| `ManagedStorage.Storage.AddSlab` | native/runtime/managed_storage.cpp:104-117 | a new slab changes no object |
| `ManagedStorage.Storage.Allocate` | native/runtime/managed_storage.cpp:89-134 | the store gains exactly one object, of the size and owner asked for, or is unchanged |
| `ManagedStorage.Storage.Mark` | native/runtime/managed_storage.h:116-124 | marks that object and no other, and says whether it was the first time |
| `ManagedStorage.Storage.SweepSlabs` | native/runtime/managed_storage.cpp:141-175 | slabs are swept or given back, and the lists of slabs with room are rebuilt exactly |
| `ManagedStorage.SweepLarges` | native/runtime/managed_storage.cpp:175-188 | the large objects that remain are exactly the marked ones |
| `ManagedStorage.Storage.Sweep` | native/runtime/managed_storage.cpp:141-189 | the store keeps exactly the marked objects, at their addresses and unmarked, and reports the others |
| `ManagedStorage.SweptObjects` | native/runtime/managed_storage.cpp:141-189 | a sweep takes every address to its survivor |
| `ManagedStorage.ReportExact` | native/runtime/managed_storage.cpp:141-198 | a sweep reports exactly the unmarked live objects and a visit exactly the live ones, with their sizes |
| `ManagedStorage.ReportOnce` | native/runtime/managed_storage.cpp:141-198 | each of them once |
| `ManagedStorage.Storage.Visit` | native/runtime/managed_storage.cpp:191-198 | visits the objects in the order of that report |
| `ManagedStorage.JoinMeans` | native/runtime/managed_storage.cpp:200-229 | the objects of two joined stores are the disjoint union of theirs, at their addresses |
| `ManagedStorage.Storage.Adopt` | native/runtime/managed_storage.cpp:200-229 | adoption is that union, with the new owner if one is given, and leaves the other store empty |
| `ManagedStorage.Storage.Clear` | native/runtime/managed_storage.cpp:231-243 | clearing leaves the empty store |
| `StorageRefinement.AllocationRefines` | native/runtime/managed_storage.cpp:89-134 | what the storage hands out is a new address of the heap, and the storage then holds the grown heap |
| `StorageRefinement.MarkRefines` | native/runtime/managed_storage.h:116-124 | a mark in the storage is a mark in the heap |
| `StorageRefinement.ListingTotals` | native/runtime/managed_storage.cpp:141-189 | a report that names each object once has their number and their bytes |
| `StorageRefinement.SweepRefines` | native/runtime/managed_storage.cpp:141-189 | sweeping the storage is sweeping the heap: what is kept, and how many objects and bytes go |
| `StorageRefinement.AdoptionRefines` | native/runtime/managed_storage.cpp:200-229 | adopting another storage joins two disjoint heaps |
| `StorageRefinement.CollectStorage` | native/runtime/runtime.cpp:554-615 | marking what is reachable and sweeping leaves exactly the survivors in the storage, with the counts by which the heap settles its counters |
| `LoopDetection.CountEdges` | native/codegen/allocation_regions.cpp:82-89 | counts the edges into every block, with multiplicity |
| `LoopDetection.PeelBlock` | native/codegen/allocation_regions.cpp:93-95 | peeling a block keeps the counts exact and readies blocks in an order that respects edges |
| `LoopDetection.NoCycleWhenPeeled` | native/codegen/allocation_regions.cpp:82-97 | if all blocks were peeled there is no cycle |
| `LoopDetection.CycleWhenStuck` | native/codegen/allocation_regions.cpp:82-97 | if some were not there is one |
| `LoopDetection.HasLoop` | native/codegen/allocation_regions.cpp:82-97 | true if and only if the control-flow graph has a cycle |
| `RegionSelection.Scan` | native/codegen/allocation_regions.cpp:117-128 | whether a function is local given the compatible ones, and calls a bulk allocator |
| `RegionSelection.Compatible` | native/codegen/allocation_regions.cpp:100-136 | the compatible functions are the least closed set, called in an acyclic order, and bulk is the set its equation defines |
| `RegionSelection.CompatibleExactly` | native/codegen/allocation_regions.cpp:108-136 | a function is compatible if and only if it is eligible and local given the compatible ones |
| `RegionSelection.GrownIsLeast` | native/codegen/allocation_regions.cpp:108-136 | what the loop adds is in every closed set |
| `RegionSelection.CallsAreOrdered` | native/codegen/allocation_regions.cpp:108-136 | a compatible function only calls functions that became compatible before it |
| `RegionSelection.OrderDoesNotMatter` | native/codegen/allocation_regions.cpp:100-136 | the selection does not depend on the order of functions |
| `RegionSelection.AllocationRegions` | native/codegen/allocation_regions.cpp:100-150 | selects exactly the bulk allocators whose parameters and result hold no reference |
| `EffectSoundness.WhitelistIsExact` | native/codegen/allocation_regions.cpp:33-80 | an opcode is on the whitelist if and only if in every module its instructions enter no function, hand nothing to code outside and need no unsafe capability; the one exception is the address of a C function |
| `RegionMeaning.OperateSame` | native/codegen/allocation_regions.cpp:33-80 | every whitelisted operation, with collections before allocations, does the same in two runs that differ only in where their objects are; operations that leave the function may do anything and are not among them |
| `RegionMeaning.ComparisonSame` | native/codegen/llvm_lowering.cpp:1548-1573 | comparisons of references and optionals come out the same in both runs |
| `RegionMeaning.CollectMoves` | native/runtime/runtime.cpp:554-615 | each run may collect in its own way without the runs growing apart |
| `RegionMeaning.ExecuteSame` | native/codegen/allocation_regions.cpp:14-80 | from any point of a compatible function the run with regions and the run without agree |
| `RegionMeaning.InvokeSame` | native/codegen/allocation_regions.cpp:138-149 | so do calls, wrapped or not |
| `RegionMeaning.LeftRegion` | native/runtime/runtime.cpp:1691-1721 | leaving a region puts the caller back in the heap it had |
| `RegionMeaning.RegionPreservesMeaning` | native/runtime/runtime.cpp:1691-1721 | a selected function run in a discarded heap returns the same scalar, panics the same or runs as long, whenever either run collects; what the callers reach is unchanged either way |
| `RegionExecution.SaneExists` | native/runtime/runtime.cpp:554-615 | there are allocators and collectors of the kind assumed |
| `NullStores.RedundantNullStore` | native/codegen/llvm_lowering.cpp:661-676 | the scan decides exactly whether a later store in the block covers this one |
| `NullStores.OverwrittenExactly` | native/codegen/llvm_lowering.cpp:661-676 | the scan finds a covering store if and only if there is one with only constants and stores to the same object before it |
| `NullStores.StoreIsSeen` | native/runtime/runtime.cpp:1723-1746 | a store puts the value into its slot and changes nothing else |
| `NullStores.HiddenByOverwrite` | native/codegen/llvm_lowering.cpp:661-676 | what the slot held is hidden by the store that covers it |
| `NullStores.StillPanics` | native/codegen/llvm_lowering.cpp:661-676 | if the dropped store would have panicked, a later one does, with the same fault |
| `NullStores.DroppingPreservesMeaning` | native/codegen/llvm_lowering.cpp:641-676 | dropping all redundant null stores of a block at once changes neither its outcome nor what any of its instructions sees |
| `NullStores.AcceptedAssignsOnce` | native/codegen/ir_verifier.cpp:1592-1602 | accepted functions meet the single-assignment condition this needs |
| `ClassLayout.VerifyInheritance` | native/codegen/ir_verifier.cpp:2024-2036 | accepts if and only if every chain of bases ends within as many steps as there are classes |
| `ClassLayout.EndsMeansRanked` | native/codegen/ir_verifier.cpp:2024-2036 | then inheritance has no cycle |
| `ClassLayout.RankedMeansEnds` | native/codegen/ir_verifier.cpp:2024-2036 | and without a cycle it is accepted |
| `ClassLayout.ExtendLayout` | native/codegen/llvm_lowering.cpp:2160-2196 | a class is laid out on top of its base, field by field and method by method |
| `ClassLayout.LayoutPlaces` | native/codegen/llvm_lowering.cpp:2160-2179 | fields are aligned, disjoint, behind the header and inside the payload; those of the base come first |
| `ClassLayout.LayoutBounded` | native/codegen/llvm_lowering.cpp:2160-2179 | content and payload sizes are at most linear in the number of fields, inherited ones included |
| `ClassLayout.FirstFieldFollowsHeader` | native/include/neri/runtime_abi.h:67-70 | the first field follows the two words of the header |
| `ClassLayout.LayoutsArePrefixes` | native/codegen/llvm_lowering.cpp:2160-2179 | the fields of an ancestor are a prefix of those of a descendant |
| `ClassLayout.FieldHasOneOffset` | native/codegen/llvm_lowering.cpp:2198-2202 | a field has the same offset in every class it is looked up in |
| `ClassLayout.TableHoldsNearest` | native/codegen/llvm_lowering.cpp:2181-2196 | every method table entry is the nearest override, the last one within a class |
| `ClassLayout.SlotsAreStable` | native/codegen/llvm_lowering.cpp:2181-2196 | a slot keeps its index in every descendant |
| `ClassLayout.Builder.RecordFields` | native/codegen/llvm_lowering.cpp:2200-2202 | recording fields never contradicts what was recorded |
| `ClassLayout.Builder.RecordSlots` | native/codegen/llvm_lowering.cpp:2203-2210 | recording slots fails only if two classes disagree on an index |
| `ClassLayout.Builder.Build` | native/codegen/llvm_lowering.cpp:2153-2212 | the memoised layouts are those of the recursive definition |
| `ClassLayout.Builder.BuildAll` | native/codegen/llvm_lowering.cpp:2214-2218 | fails if and only if two classes disagree on the index of a slot |
| `ClassLayout.Builder.LoadTarget` | native/codegen/llvm_lowering.cpp:2238-2251 | a virtual call loads the nearest override of the dynamic class |
| `ClassLayout.Builder.ExactTarget` | native/codegen/llvm_lowering.cpp:1399-1402 | so does a call resolved at compile time for the exact class |
| `Devirtualization.EarlierPlace` | native/codegen/ir_verifier.cpp:1513-1603 | an operand is defined at an earlier place than its use |
| `Devirtualization.AllocatedClass` | native/codegen/llvm_lowering.cpp:1354-1367 | finds a class if and only if only upcasts lie between the value and an allocation of it; the search ends |
| `Devirtualization.ProvenanceIsExact` | native/codegen/llvm_lowering.cpp:1354-1367 | then that is the dynamic class of the value |
| `Devirtualization.DirectTarget` | native/codegen/llvm_lowering.cpp:1397-1405 | a direct callee is found if and only if the receiver comes from an allocation by way of upcasts, and it is the nearest override of the dynamic class |
| `Scalars.DivisionIsGuarded` | native/codegen/llvm_lowering.cpp:1499-1517 | the guards of a division let through exactly the quotients that are defined and fit the type |
| `Scalars.QuotientRounds` | native/codegen/llvm_lowering.cpp:1499-1517 | division rounds toward zero: the remainder has the sign of the dividend and is smaller than the divisor |
| `Scalars.CheckedFits` | native/codegen/llvm_lowering.cpp:1462-1517 | what checked arithmetic yields is a value of its type |
| `Scalars.SubtractionUndoes` | native/codegen/llvm_lowering.cpp:1472-1498 | subtraction undoes an addition that succeeded |
| `InterpreterLaws.ConcatenationJoins` | native/codegen/llvm_lowering.cpp:1695-1703 | a concatenation is a new string with both texts in order |
| `InterpreterLaws.StringsCompareByText` | native/codegen/llvm_lowering.cpp:1704-1717 | strings are compared by text |
| `InterpreterLaws.ReferencesCompareByPlace` | native/codegen/llvm_lowering.cpp:1051-1060 | references are compared by place |
| `InterpreterLaws.UnwrapAfterWrap` | native/codegen/llvm_lowering.cpp:1627-1694 | what was wrapped is there and is what is unwrapped |
| `InterpreterLaws.NothingIsEmpty` | native/codegen/llvm_lowering.cpp:1618-1694 | an empty optional is not there and cannot be unwrapped |
| `InterpreterLaws.CastsKeepTheObject` | native/codegen/llvm_lowering.cpp:1608-1617 | casts give back the same object |
| `InterpreterLaws.LoadAfterStore` | native/codegen/llvm_lowering.cpp:1837-1850 | a field holds what was stored last; other fields and objects are as they were |
| `InterpreterLaws.ManagedStoresAreChecked` | native/runtime/runtime.cpp:1723-1746 | a managed store succeeds exactly in the current heap and for a readable value |
| `InterpreterLaws.ArrayHoldsItsElements` | native/codegen/llvm_lowering.cpp:1776-1814 | a new array has exactly the elements given, and every other index panics |
| `InterpreterLaws.ArithmeticIsExact` | native/codegen/llvm_lowering.cpp:1472-1498 | arithmetic gives the exact result if it fits the type and panics otherwise |
| `InterpreterLaws.BindGives` | native/codegen/ir_verifier.cpp:1371-1396 | parameters receive the arguments in their places |
| `InterpreterLaws.BranchIsTaken` | native/codegen/ir_verifier.cpp:1460-1476 | a conditional branch takes its first edge for true and its second for false |
| `InterpreterLaws.IdentityReturns` | native/runtime/runtime.cpp:1691-1721 | a function that returns its argument returns it, in a region or not |
| `NativeLayout.DeeperSame` | native/codegen/native_layout.h:40-106 | a layout does not depend on the depth that is left |
| `NativeLayout.LayoutIsUnique` | native/codegen/native_layout.h:40-106 | a type has at most one layout |
| `NativeLayout.PlainExactly` | native/codegen/native_layout.h:40-106 | the plain recursion gives a type its layout if and only if the type, every record taken apart, is not nested deeper than the limit |
| `NativeLayout.FitsVisits` | native/codegen/native_layout.h:40-54 | remembering records never makes a type too deep |
| `NativeLayout.LayoutIsPadded` | native/codegen/native_layout.h:42-71 | sizes are multiples of alignments |
| `NativeLayout.RecordIsCorrect` | native/codegen/native_layout.h:57-70 | members are aligned, disjoint or all at zero, inside the record, and have their own layouts; the size is at most one GiB |
| `NativeLayout.LeastBytes` | native/codegen/native_layout.h:101-103 | integers take as many bytes as their values need and no more |
| `NativeLayout.ArrayFitsExactly` | native/codegen/native_layout.h:42-49 | an array is laid out if and only if it has elements and is at most one GiB |
| `NativeLayout.RecordFitsExactly` | native/codegen/native_layout.h:57-70 | a record is laid out if and only if its padded extent is at most one GiB |
| `NativeLayout.NoWrap` | native/codegen/native_layout.h:137-141 | no sum in a layout wraps at sixty-four bits |
| `NativeLayout.NotInsideItself` | native/codegen/native_layout.h:55-55 | what has a layout does not contain itself |
| `NativeLayout.Layouts.LayoutMembers` | native/codegen/native_layout.h:57-65 | the members of a record are laid out in order; failure means that the record is rejected |
| `NativeLayout.Layouts.LayoutRecord` | native/codegen/native_layout.h:51-71 | a record is remembered, rejected as recursive, or laid out, exactly as specified for every type |
| `NativeLayout.Layouts.LayoutSignature` | native/codegen/native_layout.h:72-86 | a C signature is accepted exactly if it has scalars and pointers only and these are accepted |
| `NativeLayout.Layouts.ValidatePointee` | native/codegen/native_layout.h:113-135 | what a pointer refers to needs declarations, not layouts; accepted exactly when the pointer is |
| `NativeLayout.Layouts.LayoutType` | native/codegen/native_layout.h:40-106 | a type is accepted if and only if it has a layout by the plain recursion at some depth and, counting known records as one level, is not nested deeper than the limit; the result is that layout, and the known records afterwards are those met |
| `NativeLayout.MemoAgreesExactly` | native/codegen/native_layout.h:40-54 | for a type that has a layout the memo makes no difference if and only if the type fits with every record taken apart or does not even fit with known records as one level |
| `NativeLayout.OrderMatters` | native/codegen/native_layout.h:41-54 | 127 nested arrays of a record are rejected at the outermost depth, and accepted there once the record has been laid out |

## Left out

- LLVM IR construction, debug information, optimisation and object emission; only the lowerer's decisions are modelled.
- Reading and checking the byte format, required features, and locations.
- User code and trace callbacks: arbitrary steps that respect the heap interface, and lists of reference slots.
- Process, file, socket, terminal and window services, the object cache, sessions and the JIT.
- The Windows form of the readiness channel, where a byte in transit makes the signal advisory.
- Threads being started, stopped and joined; steps are atomic under the mutex, and progress means that a step is enabled.
- The content of objects other than references, sanitizer red zones, zeroing, and memory profiling.
- Answers of the operating system to requests for memory are parameters; they are required not to overlap what is in use.
- RegionMeaning.RegionPreservesMeaning: floating-point arithmetic, text conversion and numeric casts are arbitrary functions of the operands.
- Typing.VerifyInstructions: function kinds, exported names, the fields of native records and comparison predicates are not modelled; that rules reject what they should is shown by what accepted instructions do, not by a second set of rules.
- EffectSoundness.InvokeCharged: code outside the module and virtual calls are assumed to keep to the effects charged for them.
- NativeExecution.ChargedExactly: borrows of arrays are not modelled there.
- RootedExecution.NoReadAfterFree: foreign code keeps references only by pinning them and respects the types of what it writes and returns; its own reads are not modelled. That a virtual call enters a method of the receiver's class or of one above is taken from `ClassLayout`.
- ManagedStorage.OwnerIsSound: a header word that is even and names no large header counts as no owner; the memory such a word would name is not modelled.
- NullStores.DroppingPreservesMeaning: a panic ends the process, so memory is not compared after one.
- TaskExecutor.NoDeadlock: shows an enabled step, not fairness of the scheduler.
- HeapHierarchy.StratifiedAlways: tasks publish results only through the spans they registered, as the runtime demands of trusted callbacks.
- WorkerPool.Pool.constructor: starts once all threads exist; the race of early exits with later starts is not modelled.
- ClassLayout.LayoutPlaces: sizes are unbounded integers; `LayoutBounded` bounds them by the number of fields, which the model does not limit, and 64-bit wrap-around is not modelled.
- NativeLayout.Layouts.LayoutType: malformed type shapes that the model's types cannot express are rejected by the reader and do not appear.
