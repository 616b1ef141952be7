# Chicory core, modelled in Dafny

Chicory is a WebAssembly runtime written in Java. This project models its core pieces and proves properties of them:

- **`LongArrayQueue`** (`long_array_queue.dfy`): the power-of-two ring buffer of `long`s that keeps a sentinel `nullValue`. It is a class over an `array<int64>` with `head`/`tail` fields. Its abstract contents are a ghost sequence, and every operation is proved against them.
- **`MStack`** (`mstack.dfy`): the machine's value stack. It is a thin wrapper over the queue, so, as written, `pop` returns the OLDEST value pushed.
- **`TypeValidator`** (`type_validator.dfy`): the per-function operand-type checker. The three `switch`es of `validate` are specification functions over a validator state (`ControlStep`, `MemoryStep`, `OperandStep`, `Step`, `Run`). The class keeps the four Java stacks as fields. Each of its methods is proved to agree with the function for the step it performs.
- **`Instance`** (`instance.dfy`): the instance's index spaces (functions, globals, tables, elements, types) and `initialize`: table allocation, active element segments, global initializers under the constant-expression rules, memory initialization, optional type validation and the start function. Globals, tables, memories and element arrays are objects updated in place.
- **`AotMachine`** (`aot_machine.dfy`): the ahead-of-time compiler's translation of a function body into a JVM token stream, the host and `call_indirect` stubs, the layout of the generated class, and the exception mapping of `call`.
- **`HostModuleProcessor`** (`host_module_processor.dfy`): how an annotated Java method becomes a host function. This covers the Java-to-Wasm type mapping, argument indices and boxers, and the check of annotated methods against the exports of a module file.
- **`ParserUtil`** (`parser_util.dfy`): `isValidIdentifier` as written. Beside it are the UTF-8 well-formedness check it is meant to be (Table 3-7 of the Unicode Standard, section 5.2.4 of the WebAssembly Core Specification 2.0), an encoder and decoder that invert each other, and `isValidIdentifierChar`.

Shared vocabulary sits in `wrappers.dfy` (Option, Result, Outcome), `wasm_types.dfy` (value types, function types, opcodes, instructions, Java `int` casts, errors) and `index_spaces.dfy` (`type`, `functionType` and `global` lookups).

Java exceptions are modelled as `Failure`/`Fail` values, one constructor per cause. Java `int` and `long` are `int32`/`int64` newtypes. Where the source wraps or truncates, the model does so explicitly.

## Model

| member | source | states |
|---|---|---|
| LongArrayQueues.NextPowerOfTwoIsLeast | runtime/src/main/java/com/dylibso/chicory/runtime/LongArrayQueue.java:55-71 | for 1 <= v <= 2^30 the result is a power of two with v <= r < 2v, i.e. the least power of two not below v |
| LongArrayQueues.NextPowerOfTwoOverflows | runtime/src/main/java/com/dylibso/chicory/runtime/LongArrayQueue.java:55-71 | above 2^30 the 32-bit shift yields Integer.MIN_VALUE, as the method's documentation warns |
| LongArrayQueues.FindNextPositivePowerOfTwo | runtime/src/main/java/com/dylibso/chicory/runtime/LongArrayQueue.java:68-71 | `1 << (32 - numberOfLeadingZeros(value - 1))` on Java `int`s: a power of two no larger than 2^30, or Integer.MIN_VALUE where the shift reaches bit 31 |
| LongArrayQueues.NextPowerOfTwoNonPositive | runtime/src/main/java/com/dylibso/chicory/runtime/LongArrayQueue.java:55-71 | at or below zero the result is 1, except that Integer.MIN_VALUE gives Integer.MIN_VALUE, as the method's documentation says; with the two lemmas above this covers every `int` |
| LongArrayQueues.NextPowerOfTwoOfMin | runtime/src/main/java/com/dylibso/chicory/runtime/LongArrayQueue.java:61-71 | Integer.MIN_VALUE gives Integer.MIN_VALUE: `value - 1` wraps to Integer.MAX_VALUE, so the shift distance is 31 |
| LongArrayQueues.Mask | runtime/src/main/java/com/dylibso/chicory/runtime/LongArrayQueue.java:159-162 | `x & (capacity-1)` on a power-of-two capacity lands in [0, capacity) and folds one lap either way |
| LongArrayQueues.Fill | runtime/src/main/java/com/dylibso/chicory/runtime/LongArrayQueue.java:131 | `Arrays.fill` sets exactly the range [from, to) and nothing else |
| LongArrayQueues.ArrayCopy | runtime/src/main/java/com/dylibso/chicory/runtime/LongArrayQueue.java:437-438 | `System.arraycopy` copies the range element for element and leaves the rest of the target alone |
| LongArrayQueues.Relocate | runtime/src/main/java/com/dylibso/chicory/runtime/LongArrayQueue.java:426-446 | the doubled array holds the k-th queued slot at index k and the sentinel in the new upper half |
| LongArrayQueues.LongArrayQueue.Default | runtime/src/main/java/com/dylibso/chicory/runtime/LongArrayQueue.java:77-90 | a fresh queue is empty, has capacity MIN_CAPACITY (8) and every slot holds the sentinel |
| LongArrayQueues.LongArrayQueue.WithCapacity | runtime/src/main/java/com/dylibso/chicory/runtime/LongArrayQueue.java:112-133 | the capacity is the requested one rounded up to a power of two; the queue is empty and every slot holds the sentinel |
| LongArrayQueues.LongArrayQueue.Create | runtime/src/main/java/com/dylibso/chicory/runtime/LongArrayQueue.java:112-133 | IllegalArgumentException exactly when the requested capacity is below 8 or above 2^30, where the rounded capacity overflows; otherwise a valid empty queue with the rounded capacity |
| LongArrayQueues.LongArrayQueue.Capacity | runtime/src/main/java/com/dylibso/chicory/runtime/LongArrayQueue.java:150-153 | the capacity is a power of two strictly above the number of queued values |
| LongArrayQueues.LongArrayQueue.Size | runtime/src/main/java/com/dylibso/chicory/runtime/LongArrayQueue.java:159-162 | `(tail - head) & mask` equals the number of queued values |
| LongArrayQueues.LongArrayQueue.IsEmpty | runtime/src/main/java/com/dylibso/chicory/runtime/LongArrayQueue.java:168-171 | `head == tail` exactly when nothing is queued |
| LongArrayQueues.LongArrayQueue.Clear | runtime/src/main/java/com/dylibso/chicory/runtime/LongArrayQueue.java:177-185 | afterwards nothing is queued and every slot holds the sentinel; an already empty queue is left untouched |
| LongArrayQueues.LongArrayQueue.PeekLong | runtime/src/main/java/com/dylibso/chicory/runtime/LongArrayQueue.java:256-259 | the oldest value, or the sentinel when empty |
| LongArrayQueues.LongArrayQueue.Peek | runtime/src/main/java/com/dylibso/chicory/runtime/LongArrayQueue.java:244-249 | the oldest value, or null when empty |
| LongArrayQueues.LongArrayQueue.ElementLong | runtime/src/main/java/com/dylibso/chicory/runtime/LongArrayQueue.java:327-336 | the oldest value, or NoSuchElementException when empty |
| LongArrayQueues.LongArrayQueue.OfferLong | runtime/src/main/java/com/dylibso/chicory/runtime/LongArrayQueue.java:202-218 | the sentinel is refused (NullPointerException) with nothing changed; otherwise the value is appended at the back, growing the array when it fills; at maximum capacity, IllegalStateException |
| LongArrayQueues.LongArrayQueue.PutAtTail | runtime/src/main/java/com/dylibso/chicory/runtime/LongArrayQueue.java:209-210 | the element is appended to the contents at the tail slot; the buffer is full exactly when the tail meets the head |
| LongArrayQueues.LongArrayQueue.IncreaseCapacity | runtime/src/main/java/com/dylibso/chicory/runtime/LongArrayQueue.java:426-446 | a full queue is copied into an array twice as large, contents and order kept, head 0 and tail at the old capacity; past 2^30 it refuses |
| LongArrayQueues.LongArrayQueue.PollLong | runtime/src/main/java/com/dylibso/chicory/runtime/LongArrayQueue.java:277-289 | removes and returns the oldest value; on an empty queue returns the sentinel and changes nothing |
| LongArrayQueues.LongArrayQueue.Poll | runtime/src/main/java/com/dylibso/chicory/runtime/LongArrayQueue.java:265-270 | as `pollLong`, with null for an empty queue |
| LongArrayQueues.LongArrayQueue.RemoveLong | runtime/src/main/java/com/dylibso/chicory/runtime/LongArrayQueue.java:344-353 | as `pollLong`, with NoSuchElementException for an empty queue |
| LongArrayQueues.LongArrayQueue.SlotInjective | runtime/src/main/java/com/dylibso/chicory/runtime/LongArrayQueue.java:159-162 | distinct queue positions occupy distinct slots of the ring |
| LongArrayQueues.LongArrayQueue.ForEachLong | runtime/src/main/java/com/dylibso/chicory/runtime/LongArrayQueue.java:398-405 | the walk from head to tail visits exactly the queued values, oldest first |
| LongArrayQueues.LongIterator.constructor | runtime/src/main/java/com/dylibso/chicory/runtime/LongArrayQueue.java:458-466 | a new iterator is bound to its queue and positioned at the oldest value |
| LongArrayQueues.LongIterator.Reset | runtime/src/main/java/com/dylibso/chicory/runtime/LongArrayQueue.java:462-466 | the iterator restarts at the oldest value |
| LongArrayQueues.LongIterator.HasNext | runtime/src/main/java/com/dylibso/chicory/runtime/LongArrayQueue.java:472-475 | true exactly while queued values remain unvisited |
| LongArrayQueues.LongIterator.NextValue | runtime/src/main/java/com/dylibso/chicory/runtime/LongArrayQueue.java:491-502 | yields the next queued value in order and advances; past the end, NoSuchElementException |
| MStacks.MStack.constructor | runtime/src/main/java/com/dylibso/chicory/runtime/MStack.java:11-13 | a new stack is empty |
| MStacks.MStack.Push | runtime/src/main/java/com/dylibso/chicory/runtime/MStack.java:15-17 | appends the value (the sentinel `Long.MIN_VALUE` is refused) |
| MStacks.MStack.Pop | runtime/src/main/java/com/dylibso/chicory/runtime/MStack.java:19-21 | removes and returns the OLDEST value; the sentinel when empty |
| MStacks.MStack.Peek | runtime/src/main/java/com/dylibso/chicory/runtime/MStack.java:23-25 | the value `pop` would return, without removing it |
| MStacks.MStack.Size | runtime/src/main/java/com/dylibso/chicory/runtime/MStack.java:27-29 | the number of values held |
| MStacks.PushPushPop | runtime/src/main/java/com/dylibso/chicory/runtime/MStack.java:15-21 | after pushing a then b, `pop` returns a (first in, first out), and one value remains |
| MStacks.PeekThenPop | runtime/src/main/java/com/dylibso/chicory/runtime/MStack.java:19-25 | `peek` then `pop` return the same value, and the size drops by one unless empty |
| WasmTypes.ToInt32 | runtime/src/main/java/com/dylibso/chicory/runtime/TypeValidator.java:147 | the Java `(int)` cast of a `long` keeps in-range values and is congruent modulo 2^32 |
| WasmTypes.WrapInt32 | runtime/src/main/java/com/dylibso/chicory/runtime/Instance.java:152 | 32-bit wrap-around of `offset.asInt() + i`: in-range values are kept, others wrap modulo 2^32 |
| WasmTypes.ForId | runtime/src/main/java/com/dylibso/chicory/runtime/TypeValidator.java:147-153 | `ValueType.forId` on a valid id returns the type with that encoding |
| IndexSpaces.TypeAt | runtime/src/main/java/com/dylibso/chicory/runtime/Instance.java:345-350 | the type at a valid index; past the end, "unknown type" |
| IndexSpaces.FunctionTypeAt | runtime/src/main/java/com/dylibso/chicory/runtime/Instance.java:356-361 | the type index of a function; past the end, "unknown function" |
| IndexSpaces.GlobalAt | runtime/src/main/java/com/dylibso/chicory/runtime/Instance.java:306-311 | imported indices resolve to the import, the rest to the local slot offset by the import count; a missing slot is "unknown global" |
| TypeValidation.VerifyType | runtime/src/main/java/com/dylibso/chicory/runtime/TypeValidator.java:58-71 | passes exactly when a type is present and agrees with the expected one (UNKNOWN agrees with anything); otherwise a type mismatch |
| TypeValidation.PopAndVerify | runtime/src/main/java/com/dylibso/chicory/runtime/TypeValidator.java:45-56 | pops the top type when it agrees with the expected one, and records it on the unwind list when popped at or below the frame's limit |
| TypeValidation.PopTop | runtime/src/main/java/com/dylibso/chicory/runtime/TypeValidator.java:37-39 | popping against the innermost frame removes the top type and leaves the frame stacks as they were |
| TypeValidation.PopAllTop | runtime/src/main/java/com/dylibso/chicory/runtime/TypeValidator.java:87-99 | popping a list against the innermost frame removes exactly that many types |
| TypeValidation.PopAll | runtime/src/main/java/com/dylibso/chicory/runtime/TypeValidator.java:87-99 | popping a type list removes exactly that many types from the stack |
| TypeValidation.PushAll | runtime/src/main/java/com/dylibso/chicory/runtime/TypeValidator.java:33-35 | pushing a list leaves it on the stack with its last element on top |
| TypeValidation.ValidateReturns | runtime/src/main/java/com/dylibso/chicory/runtime/TypeValidator.java:87-99 | on success the expected results are on top of the remaining stack |
| TypeValidation.Truncate | runtime/src/main/java/com/dylibso/chicory/runtime/TypeValidator.java:162-164 | the stack is cut down to the frame's limit, keeping its bottom part |
| TypeValidation.BlockResults | runtime/src/main/java/com/dylibso/chicory/runtime/TypeValidator.java:145-157 | a block type 0x40 has no results, a value-type id has that one result, anything else names a function type whose results are used |
| TypeValidation.OpenFrame | runtime/src/main/java/com/dylibso/chicory/runtime/TypeValidator.java:144-158 | opening a block pushes a new limit at the current height, the block's results and an empty unwind list, and leaves the stack alone |
| TypeValidation.JumpTarget | runtime/src/main/java/com/dylibso/chicory/runtime/TypeValidator.java:101-117 | the index where skipping stops: every instruction skipped is at the same depth and not END/ELSE, and the next one is |
| TypeValidation.JumpToNextEndOrElse | runtime/src/main/java/com/dylibso/chicory/runtime/TypeValidator.java:101-117 | the loop stops exactly at `JumpTarget` |
| TypeValidation.JumpTargetUnique | runtime/src/main/java/com/dylibso/chicory/runtime/TypeValidator.java:101-117 | any index with the skipping property is `JumpTarget` |
| TypeValidation.ControlStep | runtime/src/main/java/com/dylibso/chicory/runtime/TypeValidator.java:138-250 | the control switch never moves the loop index backwards or past the body |
| TypeValidation.BlockOpensFrame | runtime/src/main/java/com/dylibso/chicory/runtime/TypeValidator.java:139-158 | BLOCK/LOOP/IF open one frame whose limit is the stack height; IF first pops an i32 |
| TypeValidation.ElseResetsFrame | runtime/src/main/java/com/dylibso/chicory/runtime/TypeValidator.java:159-169 | ELSE always succeeds, truncates the stack to the frame's limit and clears the frame's unwind list |
| TypeValidation.EndClosesFrame | runtime/src/main/java/com/dylibso/chicory/runtime/TypeValidator.java:216-247 | END checks the frame's results, pops the frame, and leaves the results on top (above the unwound types, when any) |
| TypeValidation.BranchesSkipAhead | runtime/src/main/java/com/dylibso/chicory/runtime/TypeValidator.java:170-204 | RETURN and BR continue after `jumpToNextEndOrElse`; every other opcode continues with the next instruction |
| TypeValidation.ValidateMemory | runtime/src/main/java/com/dylibso/chicory/runtime/TypeValidator.java:73-85 | passes exactly when memory 0 exists and the data-segment index is below the declared count; "unknown memory" when there is no memory or the memory index is above 0; otherwise "unknown data segment" (no declared count, or the index is not below it) |
| TypeValidation.MemoryStep | runtime/src/main/java/com/dylibso/chicory/runtime/TypeValidator.java:252-292 | loads, stores, size and grow need memory 0; MEMORY_INIT also needs the segment; other opcodes pass |
| TypeValidation.MemoryOpsNeedMemory | runtime/src/main/java/com/dylibso/chicory/runtime/TypeValidator.java:252-292 | without a memory, every load, store, size and grow fails with "unknown memory 0" |
| TypeValidation.MemoryInitNeedsSegment | runtime/src/main/java/com/dylibso/chicory/runtime/TypeValidator.java:260-262 | MEMORY_INIT on a segment past the count fails |
| TypeValidation.DataDropNeedsSegment | runtime/src/main/java/com/dylibso/chicory/runtime/TypeValidator.java:307-321 | DATA_DROP on a segment past the count fails with "unknown data segment" |
| TypeValidation.LocalType | runtime/src/main/java/com/dylibso/chicory/runtime/TypeValidator.java:119-125 | a local index names a parameter first, then a declared local; past both, "unknown local" |
| TypeValidation.GetLocal | runtime/src/main/java/com/dylibso/chicory/runtime/TypeValidator.java:119-125 | the type at a valid index, "unknown local" otherwise |
| TypeValidation.LocalGetPushesLocalType | runtime/src/main/java/com/dylibso/chicory/runtime/TypeValidator.java:655-661 | LOCAL_GET pushes the parameter's or local's type; an index past both fails |
| TypeValidation.Signature | runtime/src/main/java/com/dylibso/chicory/runtime/TypeValidator.java:294-766 | the fixed-signature cases of the operand switch: each pops at most three operands and pushes at most one result, and touches at least one |
| TypeValidation.OperandStep | runtime/src/main/java/com/dylibso/chicory/runtime/TypeValidator.java:294-766 | the operand switch changes only the operand stack and the unwind lists: the frame limits and frame results stay, and no unwind list is added or removed |
| TypeValidation.ApplySignature | runtime/src/main/java/com/dylibso/chicory/runtime/TypeValidator.java:322-730 | a fixed-signature opcode replaces its parameters on top of the stack with its results |
| TypeValidation.SignatureRule | runtime/src/main/java/com/dylibso/chicory/runtime/TypeValidator.java:322-730 | when the stack's top matches an opcode's parameters above the limit, the step succeeds with the results pushed |
| TypeValidation.IntegerSignatures | runtime/src/main/java/com/dylibso/chicory/runtime/TypeValidator.java:353-470 | i32 binary operators take (i32, i32) to i32, i64 comparisons take (i64, i64) to i32, i64 stores take (i32, i64) to nothing |
| TypeValidation.SelectRules | runtime/src/main/java/com/dylibso/chicory/runtime/TypeValidator.java:732-740 | SELECT replaces its condition and two operands with UNKNOWN |
| TypeValidation.SelectTypedRules | runtime/src/main/java/com/dylibso/chicory/runtime/TypeValidator.java:741-753 | SELECT_T succeeds exactly when both operands have one type, and leaves that type in place of the three |
| TypeValidation.RefFuncHasNoRule | runtime/src/main/java/com/dylibso/chicory/runtime/TypeValidator.java:763-766 | REF_FUNC hits the default case: "missing type validation opcode handling" |
| TypeValidation.TableGetHasNoRule | runtime/src/main/java/com/dylibso/chicory/runtime/TypeValidator.java:763-766 | TABLE_GET hits the default case as well |
| TypeValidation.Step | runtime/src/main/java/com/dylibso/chicory/runtime/TypeValidator.java:136-767 | one loop iteration never moves the index backwards or past the body |
| TypeValidation.StepOfParts | runtime/src/main/java/com/dylibso/chicory/runtime/TypeValidator.java:136-767 | an iteration runs the control, memory and operand switches in order, and the first failure is its failure |
| TypeValidation.PopAllMatching | runtime/src/main/java/com/dylibso/chicory/runtime/TypeValidator.java:87-99 | popping a list that is exactly on top, above the limit, succeeds and unwinds nothing |
| TypeValidation.PushBackPrefix | runtime/src/main/java/com/dylibso/chicory/runtime/TypeValidator.java:87-99 | pushing back what was popped restores the stack |
| TypeValidation.ValidateReturnsKeeps | runtime/src/main/java/com/dylibso/chicory/runtime/TypeValidator.java:87-99 | checking results that are on top leaves the stack as it was |
| TypeValidation.PopAllBelowLimit | runtime/src/main/java/com/dylibso/chicory/runtime/TypeValidator.java:45-56 | pops at or below the limit go onto the unwind list in order |
| TypeValidation.PopAllCompatible | runtime/src/main/java/com/dylibso/chicory/runtime/TypeValidator.java:45-71 | popping succeeds whenever each popped type agrees with the expected one |
| TypeValidation.TypeValidator.constructor | runtime/src/main/java/com/dylibso/chicory/runtime/TypeValidator.java:16-21 | a new validator has four empty stacks |
| TypeValidation.TypeValidator.Poll | runtime/src/main/java/com/dylibso/chicory/runtime/TypeValidator.java:45-50 | `Deque.poll`: removes and returns the top type, null when empty; the other stacks are unchanged |
| TypeValidation.TypeValidator.PopAndVerifyType | runtime/src/main/java/com/dylibso/chicory/runtime/TypeValidator.java:45-56 | agrees with `PopAndVerify` on the stack field |
| TypeValidation.TypeValidator.PopAndVerifyTop | runtime/src/main/java/com/dylibso/chicory/runtime/TypeValidator.java:37-39 | agrees with `PopTop` on the whole state |
| TypeValidation.TypeValidator.PopTypes | runtime/src/main/java/com/dylibso/chicory/runtime/TypeValidator.java:87-99 | agrees with `PopAll` |
| TypeValidation.TypeValidator.PushTypes | runtime/src/main/java/com/dylibso/chicory/runtime/TypeValidator.java:33-35 | agrees with `PushAll` |
| TypeValidation.TypeValidator.ValidateReturnsAt | runtime/src/main/java/com/dylibso/chicory/runtime/TypeValidator.java:87-99 | agrees with `ValidateReturns` |
| TypeValidation.TypeValidator.TruncateTo | runtime/src/main/java/com/dylibso/chicory/runtime/TypeValidator.java:162-164 | agrees with `Truncate` |
| TypeValidation.TypeValidator.ApplySignatureM | runtime/src/main/java/com/dylibso/chicory/runtime/TypeValidator.java:322-730 | agrees with `ApplySignature` |
| TypeValidation.TypeValidator.ControlStepM | runtime/src/main/java/com/dylibso/chicory/runtime/TypeValidator.java:138-250 | the in-place control switch agrees with `ControlStep`, state and next index |
| TypeValidation.TypeValidator.OperandStepM | runtime/src/main/java/com/dylibso/chicory/runtime/TypeValidator.java:294-767 | the in-place operand switch agrees with `OperandStep` |
| TypeValidation.TypeValidator.StepM | runtime/src/main/java/com/dylibso/chicory/runtime/TypeValidator.java:136-767 | one iteration agrees with `Step` |
| TypeValidation.TypeValidator.IterateM | runtime/src/main/java/com/dylibso/chicory/runtime/TypeValidator.java:136-767 | after one iteration, the rest of the run from the new state equals the run from the old one |
| TypeValidation.TypeValidator.RunLoop | runtime/src/main/java/com/dylibso/chicory/runtime/TypeValidator.java:136-767 | the loop over the body agrees with `Run` |
| TypeValidation.TypeValidator.Validate | runtime/src/main/java/com/dylibso/chicory/runtime/TypeValidator.java:127-768 | `validate` opens the function's frame and fails exactly as the specification run does |
| TypeValidation.ValidateFunction | runtime/src/main/java/com/dylibso/chicory/runtime/Instance.java:244 | `new TypeValidator().validate(...)` returns normally exactly when `ValidationResult` succeeds |
| Instances.TableInstance.SetRef | runtime/src/main/java/com/dylibso/chicory/runtime/Instance.java:155-161 | a reference is stored at an in-bounds index; out of bounds, a failure and nothing changes |
| Instances.NullRefs | runtime/src/main/java/com/dylibso/chicory/runtime/Instance.java:136-139 | a fresh table holds its minimum size of null references |
| Instances.SetRefOutcome | runtime/src/main/java/com/dylibso/chicory/runtime/Instance.java:155-161 | a write passes exactly at an in-bounds index |
| Instances.ConstInit | runtime/src/main/java/com/dylibso/chicory/runtime/Instance.java:172-187 | a numeric constant initializes the global only when its type is the declared one |
| Instances.InitInstruction | runtime/src/main/java/com/dylibso/chicory/runtime/Instance.java:171-214 | REF_NULL gives an externref null; GLOBAL_GET shares the cell of a constant imported global of the declared type; any other opcode outside the constant ones is "constant expression required" |
| Instances.EvalInitStep | runtime/src/main/java/com/dylibso/chicory/runtime/Instance.java:169-220 | each initializer instruction either fails, or, for a constant global, fails when a value is already set, or replaces the value |
| Instances.GlobalInit | runtime/src/main/java/com/dylibso/chicory/runtime/Instance.java:166-223 | a global without initializer instructions is "unknown global" |
| Instances.ConstGlobalHasOneInstruction | runtime/src/main/java/com/dylibso/chicory/runtime/Instance.java:215-218 | a constant global that initializes has exactly one instruction, whose value it takes |
| Instances.VarGlobalTakesLast | runtime/src/main/java/com/dylibso/chicory/runtime/Instance.java:169-220 | a mutable global's initializer checks every instruction and keeps the last value |
| Instances.ImportedGlobalIsShared | runtime/src/main/java/com/dylibso/chicory/runtime/Instance.java:188-198 | `global.get` of a constant import of the right type aliases the imported cell |
| Instances.MutableImportRejected | runtime/src/main/java/com/dylibso/chicory/runtime/Instance.java:191-196 | `global.get` of a mutable import is rejected |
| Instances.InitAll | runtime/src/main/java/com/dylibso/chicory/runtime/Instance.java:166-225 | all globals initialize, in order, each as `GlobalInit` says |
| Instances.InitAllStep | runtime/src/main/java/com/dylibso/chicory/runtime/Instance.java:166-225 | one more global either extends the initialized list or fails the whole loop |
| Instances.InitAllPrefixFailure | runtime/src/main/java/com/dylibso/chicory/runtime/Instance.java:166-225 | the first failing global fails initialization |
| Instances.WriteElements | runtime/src/main/java/com/dylibso/chicory/runtime/Instance.java:150-162 | writing an element segment keeps the table size |
| Instances.ElementsLandAtOffset | runtime/src/main/java/com/dylibso/chicory/runtime/Instance.java:150-162 | an in-bounds segment of known functions lands at offset+i and leaves every other entry alone |
| Instances.SegmentAtOffsetOne | runtime/src/main/java/com/dylibso/chicory/runtime/Instance.java:150-162 | a two-entry segment at offset 1 in a table of four fills entries 1 and 2 |
| Instances.UnknownFunctionRejected | runtime/src/main/java/com/dylibso/chicory/runtime/Instance.java:155-157 | a funcref to a function index past the last one is "unknown function" before anything is written |
| Instances.InitValues | runtime/src/main/java/com/dylibso/chicory/runtime/Instance.java:149-153 | one value per initializer, each the initializer's constant value |
| Instances.MemoryTarget | runtime/src/main/java/com/dylibso/chicory/runtime/Instance.java:227-233 | the own memory first, else the first imported one; without either, any active data segment is "unknown memory" |
| Instances.ValidatedBodies | runtime/src/main/java/com/dylibso/chicory/runtime/Instance.java:236-247 | a successful validation loop validated every body in the index range it walked |
| Instances.ValidateIdsIgnoresFrom | runtime/src/main/java/com/dylibso/chicory/runtime/Instance.java:236-247 | bodies past the loop bound do not affect the result |
| Instances.AsWrittenSkipsLastBodies | runtime/src/main/java/com/dylibso/chicory/runtime/Instance.java:238-246 | as written, the last `importedFunctionsOffset` local bodies can be anything: validation never looks at them |
| Instances.Instance.FunctionBodyAt | runtime/src/main/java/com/dylibso/chicory/runtime/Instance.java:290-296 | imports have no body (null), local functions their own, past the end "unknown function" |
| Instances.Instance.GlobalInstanceAt | runtime/src/main/java/com/dylibso/chicory/runtime/Instance.java:306-311 | an imported index gives the import's cell, a local one the slot offset by the import count |
| Instances.Instance.ReadGlobal | runtime/src/main/java/com/dylibso/chicory/runtime/Instance.java:320-329 | the value in the global's cell; a missing local slot is "unknown global" |
| Instances.Instance.GlobalInitializer | runtime/src/main/java/com/dylibso/chicory/runtime/Instance.java:331-339 | null for imports, the local initializer otherwise, "unknown global" past the end |
| Instances.Instance.TableInstanceAt | runtime/src/main/java/com/dylibso/chicory/runtime/Instance.java:371-379 | imported tables first, then local ones; outside both, "unknown table" |
| Instances.Instance.ElementAt | runtime/src/main/java/com/dylibso/chicory/runtime/Instance.java:385-390 | the segment at a valid index, "unknown elem segment" otherwise |
| Instances.Instance.SetElement | runtime/src/main/java/com/dylibso/chicory/runtime/Instance.java:396-398 | replaces exactly one segment, which `element` then returns; out of bounds, IndexOutOfBounds and nothing changes |
| Instances.Instance.ExportNamed | runtime/src/main/java/com/dylibso/chicory/runtime/Instance.java:256-288 | an unknown name fails; function and global exports give a caller of that function or a reader of that global; other kinds fail |
| Instances.Instance.EnvGlobalType | runtime/src/main/java/com/dylibso/chicory/runtime/Instance.java:306-329 | the global types the validator sees are the types of the values `readGlobal` returns |
| Instances.Instance.WriteGlobalAsWritten | runtime/src/main/java/com/dylibso/chicory/runtime/Instance.java:313-318 | as written: an imported write updates the imported cell, then indexes the local array at a negative index; no other global cell changes |
| Instances.Instance.WriteGlobal | runtime/src/main/java/com/dylibso/chicory/runtime/Instance.java:313-318 | corrected: a successful write is seen by `readGlobal`, and no other global cell changes |
| Instances.ImportedWriteAlwaysThrows | runtime/src/main/java/com/dylibso/chicory/runtime/Instance.java:313-318 | as written, every write to an imported global ends in an exception |
| Instances.ImportedWriteSucceeds | runtime/src/main/java/com/dylibso/chicory/runtime/Instance.java:313-318 | corrected, a write to an existing import succeeds; local writes behave as written |
| Instances.Instance.AllocateTables | runtime/src/main/java/com/dylibso/chicory/runtime/Instance.java:136-139 | one new table instance per declared table, each filled with null references |
| Instances.Instance.InitActiveElement | runtime/src/main/java/com/dylibso/chicory/runtime/Instance.java:141-162 | an unknown table or a non-i32 offset fails; otherwise the segment's values are written from the offset into that table only |
| Instances.Instance.WriteSegment | runtime/src/main/java/com/dylibso/chicory/runtime/Instance.java:150-162 | the write loop agrees with `WriteElements` |
| Instances.Instance.ElementsWritten | runtime/src/main/java/com/dylibso/chicory/runtime/Instance.java:140-164 | the active segments applied in order to the tables' contents, each through `WriteElements` at its evaluated offset; the first failure stops the fold and keeps the earlier writes |
| Instances.Instance.ElementsWrittenPass | runtime/src/main/java/com/dylibso/chicory/runtime/Instance.java:140-164 | when the fold passes, every active segment named an existing table and had an i32 offset |
| Instances.Instance.InitElements | runtime/src/main/java/com/dylibso/chicory/runtime/Instance.java:140-164 | afterwards, on success or failure, the tables hold what `ElementsWritten` computes from their contents before, and the outcome is the fold's; on success every active segment named an existing table and had an i32 offset |
| Instances.Instance.InitSegment | runtime/src/main/java/com/dylibso/chicory/runtime/Instance.java:141-163 | one round of the segment loop moves the tables one segment along `ElementsWritten` |
| Instances.Instance.InitTables | runtime/src/main/java/com/dylibso/chicory/runtime/Instance.java:136-164 | local tables start null-filled at their minimum size and imported ones as they were; afterwards every table holds `ElementsWritten` of that start |
| Instances.Instance.InitGlobalsAndMemory | runtime/src/main/java/com/dylibso/chicory/runtime/Instance.java:166-233 | the outcome is the first global's failure, else "unknown memory" when an active data segment has no memory (`GlobalsAndMemoryOutcome`); import cells keep their values and tables their slots; once the globals succeed they are ready and the chosen memory holds the data segments; when a global fails no memory is touched |
| Instances.Instance.InitGlobal | runtime/src/main/java/com/dylibso/chicory/runtime/Instance.java:166-223 | slot i gets a fresh cell with its value or the imported cell, as `GlobalInit` says; no other slot changes |
| Instances.Instance.InitAndBindGlobal | runtime/src/main/java/com/dylibso/chicory/runtime/Instance.java:166-225 | one iteration of the globals loop extends the initialized prefix and binds the cell to this instance |
| Instances.Instance.InitGlobals | runtime/src/main/java/com/dylibso/chicory/runtime/Instance.java:166-225 | the loop fails exactly as `InitAll` does, and imported values are not changed |
| Instances.Instance.InitMemory | runtime/src/main/java/com/dylibso/chicory/runtime/Instance.java:227-233 | the chosen memory receives the data segments; the outcome is `MemoryTarget`'s |
| Instances.Instance.ValidateIdsUpTo | runtime/src/main/java/com/dylibso/chicory/runtime/Instance.java:236-247 | the loop agrees with `ValidateIds` over the index range it walks |
| Instances.Instance.ValidateFunctionsAsWritten | runtime/src/main/java/com/dylibso/chicory/runtime/Instance.java:236-247 | as written: walks function indices below the number of local bodies, so success means the local bodies with those indices are valid |
| Instances.Instance.ValidateFunctions | runtime/src/main/java/com/dylibso/chicory/runtime/Instance.java:236-247 | corrected: walks every function index, so success means every local body is valid |
| Instances.Instance.RunStart | runtime/src/main/java/com/dylibso/chicory/runtime/Instance.java:249-251 | with `start` and an export named `_start`, that export is invoked; otherwise nothing happens |
| Instances.Instance.InitState | runtime/src/main/java/com/dylibso/chicory/runtime/Instance.java:135-233 | tables are allocated null-filled at their minimum size, imported ones start as they were; the outcome is the first failure among the element segments, the globals and the memory, in that order (`StateOutcome`); every table holds `ElementsWritten` of that start; on success the globals are ready and the chosen memory holds the data segments |
| Instances.Instance.ValidateAndStart | runtime/src/main/java/com/dylibso/chicory/runtime/Instance.java:236-251 | the outcome is the validation failure when validation is on, else the start step's (`StartEffect`); `_start` is called only when validation passes; success with validation on means every local body the loop reaches is valid |
| Instances.Instance.Complete | runtime/src/main/java/com/dylibso/chicory/runtime/Instance.java:236-251 | the outcome and start calls of `ValidateAndStart`; the tables' fold, the state outcome, the globals' readiness and the data hand-over are left as they were |
| Instances.Instance.Initialize | runtime/src/main/java/com/dylibso/chicory/runtime/Instance.java:135-254 | the outcome is the first failure among element segments, globals, memory, validation and `_start` (`InitializeOutcome`); every table holds `ElementsWritten` of its null-filled or imported start; `_start` is called only when every earlier step passed; once the state passes the globals are ready and the memory holds the data segments; with validation on, success means every local body whose function id is below `functions.length` is valid |
| Instances.FirstFailure | runtime/src/main/java/com/dylibso/chicory/runtime/Instance.java:135-254 | two steps in sequence pass only when both pass, and a failure of the first is the one reported |
| Instances.NewInstance | runtime/src/main/java/com/dylibso/chicory/runtime/Instance.java:85-126 | a fresh instance; without `initialize` it has no tables and no start calls; with it, the outcome, the tables' contents, the start calls and the globals and data facts are exactly those `Initialize` promises |
| AotMachines.EmitterFor | aot/src/main/java/com/dylibso/chicory/aot/AotMachine.java:76-289 | no emitter for structured control or bookkeeping opcodes; calls and constants are intrinsics; the listed numeric opcodes are shared |
| AotMachines.TryEmit | aot/src/main/java/com/dylibso/chicory/aot/AotMachine.java:520-532 | fails exactly for opcodes without an emitter; otherwise translation goes on exactly when the emitter does not trap |
| AotMachines.ReturnTypeOpcode | aot/src/main/java/com/dylibso/chicory/aot/AotMachine.java:653-671 | the JVM return instruction returns exactly the given class; any other class is rejected |
| AotMachines.InitLocals | aot/src/main/java/com/dylibso/chicory/aot/AotMachine.java:617-621 | the locals loop agrees with `LocalsInit` |
| AotMachines.LocalsInitShape | aot/src/main/java/com/dylibso/chicory/aot/AotMachine.java:617-621 | each declared local gets its type's default stored into the slot after the parameters |
| AotMachines.CompileBody | aot/src/main/java/com/dylibso/chicory/aot/AotMachine.java:599-651 | the compiled body is `BodyCode`: locals, then the translated instructions, then a return unless translation stopped |
| AotMachines.FallthroughIffAllPass | aot/src/main/java/com/dylibso/chicory/aot/AotMachine.java:624-640 | control falls through to the final return exactly when every instruction emits without stopping |
| AotMachines.StopIgnoresRest | aot/src/main/java/com/dylibso/chicory/aot/AotMachine.java:624-640 | nothing after `unreachable`, `return` or a trapping emitter is compiled |
| AotMachines.FirstUnsupportedFails | aot/src/main/java/com/dylibso/chicory/aot/AotMachine.java:624-640 | the first opcode without an emitter fails compilation |
| AotMachines.StructuredControlRejected | aot/src/main/java/com/dylibso/chicory/aot/AotMachine.java:624-640 | a reachable block, loop, if or branch fails compilation |
| AotMachines.UnreachableFirst | aot/src/main/java/com/dylibso/chicory/aot/AotMachine.java:630-633 | a body starting with `unreachable` is the locals prologue and a trap |
| AotMachines.ParamSlots | aot/src/main/java/com/dylibso/chicory/aot/AotMachine.java:571-583 | each parameter's slot is the slots taken by the parameters before it |
| AotMachines.SlotLayout | aot/src/main/java/com/dylibso/chicory/aot/AotMachine.java:571-583 | parameter slots do not overlap, and the total is between one and two per parameter |
| AotMachines.SlotBounds | aot/src/main/java/com/dylibso/chicory/aot/AotMachine.java:571-583 | the parameters take between one and two slots each |
| AotMachines.ArgSlots | aot/src/main/java/com/dylibso/chicory/aot/AotMachine.java:571-583 | one boxed argument per parameter |
| AotMachines.UnboxResult | aot/src/main/java/com/dylibso/chicory/aot/AotMachine.java:586-597 | the stub ends in the return instruction for the function's JVM return class; void returns at once; other classes are rejected |
| AotMachines.CompileCallIndirect | aot/src/main/java/com/dylibso/chicory/aot/AotMachine.java:534-552 | agrees with `CallIndirectCode` |
| AotMachines.CompileHostFunction | aot/src/main/java/com/dylibso/chicory/aot/AotMachine.java:554-569 | agrees with `HostFunctionCode` |
| AotMachines.StubArgumentsAboveParams | aot/src/main/java/com/dylibso/chicory/aot/AotMachine.java:534-583 | both stubs succeed exactly for supported return classes; the table index, memory and instance are loaded from the slots just above the parameters |
| AotMachines.HelperPlanNames | aot/src/main/java/com/dylibso/chicory/aot/AotMachine.java:423-435 | a `call_indirect` helper exists exactly for each type with at most one result |
| AotMachines.ClassPlanNames | aot/src/main/java/com/dylibso/chicory/aot/AotMachine.java:385-435 | the class holds one method per function, in index order, then the helpers |
| AotMachines.EmitHostStubs | aot/src/main/java/com/dylibso/chicory/aot/AotMachine.java:401-409 | the stubs for the imported functions, in order; the first failure fails the class |
| AotMachines.EmitBodies | aot/src/main/java/com/dylibso/chicory/aot/AotMachine.java:411-421 | the compiled bodies follow the stubs, in order |
| AotMachines.EmitHelpers | aot/src/main/java/com/dylibso/chicory/aot/AotMachine.java:423-435 | the helpers follow the functions |
| AotMachines.CompileClass | aot/src/main/java/com/dylibso/chicory/aot/AotMachine.java:385-435 | the generated class is the plan's methods, or the plan's first failure |
| AotMachines.GeneratedFunctionMethods | aot/src/main/java/com/dylibso/chicory/aot/AotMachine.java:385-421 | a generated class has the method for function f at position f |
| AotMachines.Compile | aot/src/main/java/com/dylibso/chicory/aot/AotMachine.java:352-383 | the handle table has one entry per function: host invokers for imports, linked methods for local functions |
| AotMachines.MapThrown | aot/src/main/java/com/dylibso/chicory/aot/AotMachine.java:331-345 | Chicory exceptions pass through; index errors become "undefined element"; other exceptions and errors are wrapped with their cause |
| AotMachines.CallFunction | aot/src/main/java/com/dylibso/chicory/aot/AotMachine.java:330-345 | an index outside the table is "undefined element"; otherwise the handle's single result, or its exception mapped by `MapThrown` |
| AotMachines.GetStackTrace | aot/src/main/java/com/dylibso/chicory/aot/AotMachine.java:347-350 | always empty |
| HostModules.ExportName | host-module/processor/src/main/java/com/dylibso/chicory/function/processor/HostModuleProcessor.java:158-165 | the annotation's value when non-empty, else the derived snake-case name |
| HostModules.ParamWasmTypes | host-module/processor/src/main/java/com/dylibso/chicory/function/processor/HostModuleProcessor.java:191-229 | a `@Buffer` String is (i32, i32); an unannotated String aborts; Instance is not allowed; every accepted parameter maps to one or two types |
| HostModules.ExtractParameters | host-module/processor/src/main/java/com/dylibso/chicory/function/processor/HostModuleProcessor.java:191-229 | the loop agrees with `ExtractedParams` |
| HostModules.ExtractedParamsIff | host-module/processor/src/main/java/com/dylibso/chicory/function/processor/HostModuleProcessor.java:191-229 | extraction succeeds exactly when every parameter maps; without Strings there is one type per parameter |
| HostModules.ExtractReturns | host-module/processor/src/main/java/com/dylibso/chicory/function/processor/HostModuleProcessor.java:167-189 | succeeds exactly for int, long, float and double, with one type; String is refused by name |
| HostModules.CheckType | host-module/processor/src/main/java/com/dylibso/chicory/function/processor/HostModuleProcessor.java:149-156 | passes exactly when the expected list equals the received one; a missing export is a null dereference |
| HostModules.ReturnMapping | host-module/processor/src/main/java/com/dylibso/chicory/function/processor/HostModuleProcessor.java:290-343 | succeeds exactly for void, int, long, float and double; void has no types and no boxer; the other types agree with `extractReturns` |
| HostModules.ProcessMethod | host-module/processor/src/main/java/com/dylibso/chicory/function/processor/HostModuleProcessor.java:231-364 | the loop over parameters agrees with `ProcessedMethod` |
| HostModules.ArgumentsConsumeParams | host-module/processor/src/main/java/com/dylibso/chicory/function/processor/HostModuleProcessor.java:235-287 | one argument per Java parameter; together they read each Wasm argument index exactly once, in order, with the conversion its type calls for |
| HostModules.ProcessAgreesWithExtract | host-module/processor/src/main/java/com/dylibso/chicory/function/processor/HostModuleProcessor.java:191-287 | where both succeed, `processMethod` and `extractParameters` give the same parameter types |
| HostModules.ExportTypeAsWritten | host-module/processor/src/main/java/com/dylibso/chicory/function/processor/HostModuleProcessor.java:74-78 | as written: the type of the local function at the export's index, whatever the export's kind; an index past the function section fails |
| HostModules.ExportSignaturesAsWritten | host-module/processor/src/main/java/com/dylibso/chicory/function/processor/HostModuleProcessor.java:71-80 | as written: succeeds exactly when every export's lookup does, and then maps exactly the export names |
| HostModules.ExportType | host-module/processor/src/main/java/com/dylibso/chicory/function/processor/HostModuleProcessor.java:71-80 | corrected: the type of a function export, counting imported functions first |
| HostModules.ExportSignaturesCorrect | host-module/processor/src/main/java/com/dylibso/chicory/function/processor/HostModuleProcessor.java:71-80 | corrected: with distinct names, every function export maps to its own type, and only function exports are mapped |
| HostModules.ExportLoopSkipsImports | host-module/processor/src/main/java/com/dylibso/chicory/function/processor/HostModuleProcessor.java:71-80 | as written, an export of a local function in a module with an import gets another function's type |
| HostModules.CheckMemberAsWritten | host-module/processor/src/main/java/com/dylibso/chicory/function/processor/HostModuleProcessor.java:83-107 | as written: passes exactly when the export exists, `extractParameters` gives its parameters and `extractReturns` gives its results |
| HostModules.CheckAsWrittenRejects | host-module/processor/src/main/java/com/dylibso/chicory/function/processor/HostModuleProcessor.java:82-109 | as written, void methods, methods with an Instance parameter and multi-value exports always fail |
| HostModules.CheckMemberIff | host-module/processor/src/main/java/com/dylibso/chicory/function/processor/HostModuleProcessor.java:82-109 | corrected: a method that processes passes exactly when the module exports its name with the signature `processMethod` derives |
| HostModules.SimpleRejectedAsWritten | host-module/processor/src/test/resources/host/Simple.java:23-38 | the fixture's `exit()` and `randomGet(Instance, int, int)` fail as written and pass as corrected |
| HostModules.CheckAsWrittenStricter | host-module/processor/src/main/java/com/dylibso/chicory/function/processor/HostModuleProcessor.java:82-109 | a method the check as written passes also passes the corrected check, and `processMethod` accepts it |
| HostModules.ModuleFunctionsLayout | host-module/processor/src/main/java/com/dylibso/chicory/function/processor/HostModuleProcessor.java:50-147 | as written: one host function per annotated method, in order, each named by its export name and, with a module file, with the signature the export loop recorded under that name |
| HostModules.IntendedModuleFunctionsLayout | host-module/processor/src/main/java/com/dylibso/chicory/function/processor/HostModuleProcessor.java:50-147 | corrected: the same layout, each signature being that of the exported function in the function index space |
| HostModules.ExportSignaturesAgree | host-module/processor/src/main/java/com/dylibso/chicory/function/processor/HostModuleProcessor.java:71-80 | without imported functions and with only function exports, the export loop as written and the corrected one agree |
| HostModules.CheckAllStricter | host-module/processor/src/main/java/com/dylibso/chicory/function/processor/HostModuleProcessor.java:82-109 | a class the check as written passes, the corrected check passes |
| HostModules.ModuleFunctionsAgree | host-module/processor/src/main/java/com/dylibso/chicory/function/processor/HostModuleProcessor.java:50-147 | without imported functions and with only function exports, a class accepted as written is processed exactly as the corrected composition does |
| HostModules.ProcessAllLayout | host-module/processor/src/main/java/com/dylibso/chicory/function/processor/HostModuleProcessor.java:112-117 | the processing loop yields each method's declaration in order |
| HostModules.CheckAllPasses | host-module/processor/src/main/java/com/dylibso/chicory/function/processor/HostModuleProcessor.java:82-109 | as written: a class that passes has every method passing `CheckMemberAsWritten` |
| HostModules.IntendedCheckAllPasses | host-module/processor/src/main/java/com/dylibso/chicory/function/processor/HostModuleProcessor.java:82-109 | corrected: a class that passes has every method passing `CheckMember` |
| HostModules.ExportTypes | host-module/processor/src/main/java/com/dylibso/chicory/function/processor/HostModuleProcessor.java:71-80 | the export loop, as written, agrees with `ExportSignaturesAsWritten` |
| HostModules.CheckMembers | host-module/processor/src/main/java/com/dylibso/chicory/function/processor/HostModuleProcessor.java:82-109 | the loop over annotated methods agrees with `CheckAll`, the check as written |
| HostModules.ProcessMembers | host-module/processor/src/main/java/com/dylibso/chicory/function/processor/HostModuleProcessor.java:112-117 | the loop agrees with `ProcessAll` |
| HostModules.ProcessModule | host-module/processor/src/main/java/com/dylibso/chicory/function/processor/HostModuleProcessor.java:50-147 | `processModule` returns `ModuleFunctions`: with a module file, the export loop and the signature check as written, then the declarations |
| ParserUtils.XorTwo | wasm/src/main/java/com/dylibso/chicory/wasm/ParserUtil.java:30-58 | the `^` against 2 in the decoding arithmetic flips bit 1 and keeps every other bit, so it moves a value by exactly two |
| ParserUtils.At | wasm/src/main/java/com/dylibso/chicory/wasm/ParserUtil.java:26-58 | an array read: a value in bounds, otherwise the ArrayIndexOutOfBoundsException the method catches |
| ParserUtils.ScanAsWritten | wasm/src/main/java/com/dylibso/chicory/wasm/ParserUtil.java:19-58 | an all-ASCII rest passes; a byte from 0xC0 on fails |
| ParserUtils.AcceptedAsWritten | wasm/src/main/java/com/dylibso/chicory/wasm/ParserUtil.java:13-66 | the empty name fails; non-empty ASCII passes; a first byte from 0xC0 on fails |
| ParserUtils.IsValidIdentifier | wasm/src/main/java/com/dylibso/chicory/wasm/ParserUtil.java:13-66 | the loop, statement by statement, agrees with `AcceptedAsWritten` |
| ParserUtils.AsWrittenRejectsMultiByte | wasm/src/main/java/com/dylibso/chicory/wasm/ParserUtil.java:19-58 | as written, every well-formed encoding of a character from U+0080 on is rejected, and [0x80, 0x41] is accepted |
| ParserUtils.AsWrittenRejectsNonAscii | wasm/src/main/java/com/dylibso/chicory/wasm/ParserUtil.java:19-58 | as written, every well-formed name holding a byte from 0x80 on is rejected |
| ParserUtils.ScanRejectsNonAscii | wasm/src/main/java/com/dylibso/chicory/wasm/ParserUtil.java:19-56 | the scan from any position at or before a byte from 0x80 on, over a well-formed rest, returns false |
| ParserUtils.AsciiAgrees | wasm/src/main/java/com/dylibso/chicory/wasm/ParserUtil.java:19-23 | on ASCII input, the method as written and the intended check agree |
| ParserUtils.EncodeScalarValid | wasm/src/main/java/com/dylibso/chicory/wasm/ParserUtil.java:13-66 | each scalar value encodes to one valid UTF-8 sequence that decodes back to it |
| ParserUtils.DecodeSequenceValid | wasm/src/main/java/com/dylibso/chicory/wasm/ParserUtil.java:13-66 | each valid sequence decodes to a scalar value that encodes back to it |
| ParserUtils.EncodeDecode | wasm/src/main/java/com/dylibso/chicory/wasm/ParserUtil.java:13-66 | any list of scalar values encodes to well-formed UTF-8 that decodes back to the list |
| ParserUtils.DecodeEncode | wasm/src/main/java/com/dylibso/chicory/wasm/ParserUtil.java:13-66 | well-formed UTF-8 decodes to scalar values that encode back to the same bytes |
| ParserUtils.IsValidName | wasm/src/main/java/com/dylibso/chicory/wasm/ParserUtil.java:13-66 | corrected: true exactly for non-empty, well-formed UTF-8 |
| ParserUtils.IsValidIdentifierChar | wasm/src/main/java/com/dylibso/chicory/wasm/ParserUtil.java:68-70 | true exactly for UTF-16 code units that are scalar values (not surrogates) up to U+FFFC |
| ParserUtils.IdentifierCharEncodes | wasm/src/main/java/com/dylibso/chicory/wasm/ParserUtil.java:68-70 | an accepted character encodes to one to three bytes of well-formed UTF-8 that decode back to it |

## Left out

- Classes outside the modelled files are not part of this model: `GlobalInstance`, `TableInstance`, `Memory`, `HostImports`, `Module`, `ValueType` and `Value`. They appear only as far as the modelled code uses them. `TableInstance.setRef` is an in-bounds write. `Memory.initialize` records the data segments it receives. `ValueType` ids follow section 5.3.1 of the WebAssembly Core Specification 2.0.
- `computeConstantValue` and `computeConstantInstance` (constant-expression evaluation for element segments) are not part of this model. They are the `eval` parameter of `Initialize`. The owning instance of each table entry is not tracked.
- The machine behind the start function and behind `export` (`Machine.call`, `WASMMachineException`) is not modelled. Invoking the start function is recorded in `startCalls`.
- Instances.Instance.ExportNamed: returns a description of the caller rather than the Java lambda. The debug logging is left out.
- Floating point, numeric evaluation and the interpreter are not part of this core. Values are raw bits tagged with their type.
- `AotUtil` and `AotEmitters` are not part of this model. The emitter bodies are the `Emitted` token. Whether an emitter throws `EmitterTrapException` is the `traps` input. `slotCount` is taken as two slots for i64 and f64 and one otherwise. `jvmReturnType` is void, int (i32 and references), long, float, double, or another class.
- AotMachines.CompileBody: the check after the final return is not modelled. That check pops one `AotContext` stack size for a non-void result and throws `RuntimeException("Stack sizes not empty")` when sizes remain (AotMachine.java:645-650). The context's stack sizes are pushed and popped by the per-opcode emitters, and the emitters are modelled only as tokens, so the model has no stack to check. `CompileBody` therefore never fails for this reason.
- AotMachines.CompileClass: produces the sequence of generated methods, not ASM bytecode. Class loading, `VerifyError` handling, `MethodHandle` lookup and `adaptSignature` are left out. The stack-size check of `AotContext` is not modelled.
- AotMachines.CompileCallIndirect: the argument-boxing loop is a single `BoxArguments` token listing each parameter's type and slot, not the individual JVM instructions.
- AotMachines.CallFunction: `call` is modelled on an invocation function supplied as a parameter, since a `MethodHandle` cannot be executed here. Exception messages are reduced to their causes.
- HostModules.ProcessModule: takes the annotated methods and the parsed module file as values. The annotation-processing environment (`Filer`, `getAllMembers`, JavaParser ASTs, generated source text, `Parser.parse` of the module file and its `IOException`) is left out. The snake-case derived export name is an input (`derivedName`).
- HostModules.ProcessModule: follows the export loop and the signature check as written. The corrected composition is `IntendedModuleFunctions`, and `ModuleFunctionsAgree` says where the two coincide.
- Instances.Instance.Initialize: validates with the loop as written, so its contract covers only the bodies with a function id below `functions.length`. `ValidateFunctions` is the corrected loop and proves every local body valid.
- HostModules.ProcessMethod: returns the argument list and the boxer as data, not JavaParser expressions.
- The Java `& (capacity - 1)` of `LongArrayQueue` is modelled as Euclidean `% capacity`. These are equal for the power-of-two capacities the queue keeps.
- The boxed adapters of `LongArrayQueue` (`offer`, `add`, `remove`, `element`, `forEach`, `next`) are left out, and so are `toString` and the iterator cache. Each does what its primitive twin does.
- LongArrayQueues.LongArrayQueue.ForEachLong: returns the sequence of visited values instead of calling a `LongConsumer`.
- MStacks.MStack.Pop: modelled as written. `MStack` wraps a FIFO queue, so `pop` returns the oldest value, not the most recent.
- ParserUtils.XorTwo: models only the `^ 2` terms of `isValidIdentifier`. Their results feed only the comparisons at ParserUtil.java lines 31, 41 and 55, and they cannot change the verdict for any input that reaches those lines. `isValidIdentifierChar` is private and never called.
- Concurrency and the `ExecutionListener` are not modelled.

## Findings

| source | as written | input that shows it | evidently intended | confidence | as-written member | corrected member |
|---|---|---|---|---|---|---|
| wasm/src/main/java/com/dylibso/chicory/wasm/ParserUtil.java:19-58 | a lead byte from 0xC0 on returns false at once; a byte from 0x80 to 0xBF is taken as the lead of a two-byte character | `é` encoded as [0xC3, 0xA9] is rejected; [0x80, 0x41] is accepted | accept exactly the non-empty well-formed UTF-8 names | not executed | ParserUtils.AsWrittenRejectsMultiByte | ParserUtils.IsValidName |
| runtime/src/main/java/com/dylibso/chicory/runtime/Instance.java:238-246 | validation loops `i < functions.length` over function indices, where imported functions come first | with 1 imported and 2 local functions, the second local body is never validated | validate every local body, i.e. all indices below `functionCount()` | not executed | Instances.AsWrittenSkipsLastBodies | Instances.Instance.ValidateFunctions |
| runtime/src/main/java/com/dylibso/chicory/runtime/Instance.java:313-318 | after writing an imported global, falls through to `globals[idx - importedGlobalsOffset]` | `writeGlobal(0, v)` with one imported global indexes `globals[-1]` and throws | return after updating the imported cell | not executed | Instances.ImportedWriteAlwaysThrows | Instances.ImportedWriteSucceeds |
| host-module/processor/src/main/java/com/dylibso/chicory/function/processor/HostModuleProcessor.java:82-109 | the module-file check calls `extractParameters` and `extractReturns` before the multi-value test, and these reject Instance parameters and void returns | `Simple.exit()` (void) and `randomGet(Instance, int, int)` fail the check though `processMethod` supports them | check the signature `processMethod` derives | not executed | HostModules.SimpleRejectedAsWritten | HostModules.CheckMemberIff |
| host-module/processor/src/main/java/com/dylibso/chicory/function/processor/HostModuleProcessor.java:71-80 | the export loop indexes the function section by the export's index, whatever the export's kind and without subtracting imported functions | a module importing one function and exporting local function 1 as "f" gets the type of function section entry 1, not entry 0 | look up function index minus imported functions, for function exports only | not executed | HostModules.ExportLoopSkipsImports | HostModules.ExportSignaturesCorrect |
