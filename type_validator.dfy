/** The function-body type validator: an abstract stack machine over value types
    that walks a body's instructions once. The state is four stacks: the operand
    types (a deque whose front is the top), and per open block its stack-height
    limit, its expected results, and its "unwind" list of types it consumed from
    below its limit. The first half of the module states the machine as functions;
    the class `TypeValidator` is the imperative validator, proved to follow them. */
module TypeValidation {
  import opened Wrappers
  import opened WasmTypes
  import opened IndexSpaces

  /** The instance's memory as the validator sees it: absent, or present with a
      data-segment array of some length (`None` for a `null` array). */
  datatype MemoryInfo = NoMemory | HasMemory(dataSegments: Option<nat>)

  /** Everything the validator reads from the instance. */
  datatype Env = Env(
    types: seq<FunctionType>,
    functionTypes: seq<int>,
    importedGlobalTypes: seq<ValueType>,
    importedGlobalsOffset: int,
    globalTypes: seq<Option<ValueType>>,
    memory: MemoryInfo)

  /** A function body: its declared locals (after the parameters) and its code. */
  datatype FunctionBody = FunctionBody(localTypes: seq<ValueType>, instructions: seq<Instruction>)

  /** The validator's state. `stack[0]` is the top of the operand-type deque; the
      three frame lists grow at their end, so the innermost block is last. */
  datatype VState = VState(
    stack: seq<ValueType>,
    limits: seq<nat>,
    results: seq<seq<ValueType>>,
    unwinds: seq<seq<ValueType>>)

  /** The stack contents and the unwind list after some pops. */
  datatype Popped = Popped(stack: seq<ValueType>, unwind: seq<ValueType>)

  function Last<T>(s: seq<T>): T
    requires |s| > 0
  {
    s[|s| - 1]
  }

  function SetLast<T>(s: seq<T>, x: T): seq<T>
    requires |s| > 0
  {
    s[|s| - 1 := x]
  }

  function DropLast<T>(s: seq<T>): seq<T>
    requires |s| > 0
  {
    s[..|s| - 1]
  }

  function Reverse<T>(s: seq<T>): (r: seq<T>)
    ensures |r| == |s|
    ensures forall k :: 0 <= k < |s| ==> r[k] == s[|s| - 1 - k]
  {
    if s == [] then [] else Reverse(s[1..]) + [s[0]]
  }

  /** Operand `k` of an instruction as a Java `int`; a missing one throws. */
  function Operand(ins: Instruction, k: nat): Result<int, WasmError> {
    if k < |ins.operands| then Success(IntOperand(ins, k)) else Failure(IndexOutOfBounds)
  }

  /** Two types agree unless both are known and differ. */
  predicate Compatible(expected: ValueType, have: ValueType) {
    expected == have || expected == Unknown || have == Unknown
  }

  /** `verifyType(expected, have)`; `None` stands for Java's `null` (for `expected`,
      "any type"; for `have`, "the stack was empty"). */
  function VerifyType(expected: Option<ValueType>, have: Option<ValueType>): (r: Result<(), WasmError>)
    ensures r.Success? <==> have.Some? && (expected.None? || Compatible(expected.value, have.value))
    ensures r.Failure? ==> r.error == TypeMismatch(expected, have)
  {
    if have.None? then Failure(TypeMismatch(expected, have))
    else if expected.Some? && have.value != expected.value && have.value != Unknown && expected.value != Unknown then
      Failure(TypeMismatch(expected, have))
    else Success(())
  }

  /** `popAndVerifyType(expected, limit, unwind)`: poll the top type; when the stack
      is no higher than the frame's limit the block is consuming a value from outside
      itself, which is recorded on its unwind list. */
  function PopAndVerify(stack: seq<ValueType>, expected: Option<ValueType>, limit: int, unwind: seq<ValueType>)
    : (r: Result<Popped, WasmError>)
    ensures r.Success? <==> |stack| > 0 && (expected.None? || Compatible(expected.value, stack[0]))
    ensures r.Success? ==> r.value.stack == stack[1..]
    ensures r.Success? ==> r.value.unwind == if |stack| > limit then unwind else unwind + [stack[0]]
    ensures |stack| == 0 ==> r == Failure(TypeMismatch(expected, None))
  {
    var have := if |stack| > 0 then Some(stack[0]) else None;
    var rest := if |stack| > 0 then stack[1..] else stack;
    var unwind' := if |stack| <= limit && |stack| > 0 then unwind + [stack[0]] else unwind;
    var _ :- VerifyType(expected, have);
    Success(Popped(rest, unwind'))
  }

  /** Pop `ts[|ts|-1]`, then `ts[|ts|-2]`, ..., then `ts[0]`: the operands of a
      signature whose parameters are `ts`, the top of the stack being the last. */
  function PopAll(stack: seq<ValueType>, ts: seq<ValueType>, limit: int, unwind: seq<ValueType>)
    : (r: Result<Popped, WasmError>)
    decreases |ts|
    ensures r.Success? ==> |stack| >= |ts| && r.value.stack == stack[|ts|..]
    ensures |stack| < |ts| ==> r.Failure?
  {
    if ts == [] then Success(Popped(stack, unwind))
    else
      var p :- PopAndVerify(stack, Some(Last(ts)), limit, unwind);
      PopAll(p.stack, DropLast(ts), limit, p.unwind)
  }

  /** Push `ts[0]`, then `ts[1]`, ...: the last one ends on top. */
  function PushAll(stack: seq<ValueType>, ts: seq<ValueType>): (r: seq<ValueType>)
    decreases |ts|
    ensures r == Reverse(ts) + stack
  {
    if ts == [] then stack
    else
      var r := PushAll([ts[0]] + stack, ts[1..]);
      assert Reverse(ts) == Reverse(ts[1..]) + [ts[0]];
      r
  }

  /** `validateReturns(expected, limit, unwind)`: pop the expected types last to
      first, then push them back first to last. */
  function ValidateReturns(stack: seq<ValueType>, expected: seq<ValueType>, limit: int, unwind: seq<ValueType>)
    : (r: Result<Popped, WasmError>)
    ensures r.Success? ==> |stack| >= |expected|
    ensures r.Success? ==> r.value.stack == Reverse(expected) + stack[|expected|..]
  {
    var p :- PopAll(stack, expected, limit, unwind);
    Success(Popped(PushAll(p.stack, expected), p.unwind))
  }

  /** Remove types from the top until at most `limit` remain. */
  function Truncate(stack: seq<ValueType>, limit: nat): (r: seq<ValueType>)
    ensures |r| == if |stack| > limit then limit else |stack|
    ensures r == stack[|stack| - |r|..]
  {
    if |stack| > limit then stack[|stack| - limit..] else stack
  }

  function Push(st: VState, t: ValueType): VState {
    st.(stack := [t] + st.stack)
  }

  /** `popAndVerifyType(expected)`: against the innermost frame. */
  function PopTop(st: VState, expected: Option<ValueType>): (r: Result<VState, WasmError>)
    ensures r.Success? ==> |st.stack| > 0 && r.value.stack == st.stack[1..]
    ensures r.Success? ==> r.value.limits == st.limits && r.value.results == st.results
    ensures r.Success? ==> |r.value.unwinds| == |st.unwinds|
  {
    if |st.limits| == 0 || |st.unwinds| == 0 then Failure(IndexOutOfBounds)
    else
      var p :- PopAndVerify(st.stack, expected, Last(st.limits), Last(st.unwinds));
      Success(st.(stack := p.stack, unwinds := SetLast(st.unwinds, p.unwind)))
  }

  /** One `popAndVerifyType(ts[j])` per parameter, last first, against the innermost
      frame (the loops of `CALL` and `CALL_INDIRECT`, and every fixed signature). */
  function PopAllTop(st: VState, ts: seq<ValueType>): (r: Result<VState, WasmError>)
    ensures r.Success? ==> |st.stack| >= |ts| && r.value.stack == st.stack[|ts|..]
    ensures r.Success? ==> r.value.limits == st.limits && r.value.results == st.results
  {
    if ts == [] then Success(st)
    else if |st.limits| == 0 || |st.unwinds| == 0 then Failure(IndexOutOfBounds)
    else
      var p :- PopAll(st.stack, ts, Last(st.limits), Last(st.unwinds));
      Success(st.(stack := p.stack, unwinds := SetLast(st.unwinds, p.unwind)))
  }

  /** The results of a block whose type immediate is `typeId`: `0x40` is the empty
      type, a value-type id stands for that single type, anything else indexes the
      module's types. */
  function BlockResults(env: Env, typeId: int): (r: Result<seq<ValueType>, WasmError>)
    ensures typeId == 0x40 ==> r == Success([])
    ensures IsValidTypeId(typeId) ==> r == Success([ForId(typeId)])
    ensures typeId != 0x40 && !IsValidTypeId(typeId) ==>
      r == (match TypeAt(env.types, typeId) case Success(t) => Success(t.results) case Failure(e) => Failure(e))
  {
    if typeId == 0x40 then Success([])
    else if IsValidTypeId(typeId) then Success([ForId(typeId)])
    else
      var t :- TypeAt(env.types, typeId);
      Success(t.results)
  }

  /** Open a `BLOCK`/`LOOP`/`IF` frame. */
  function OpenFrame(env: Env, st: VState, op: Instruction): (r: Result<VState, WasmError>)
    ensures r.Success? ==> r.value.stack == st.stack
    ensures r.Success? ==> r.value.limits == st.limits + [|st.stack|]
    ensures r.Success? ==> r.value.unwinds == st.unwinds + [[]]
    ensures r.Success? ==> |r.value.results| == |st.results| + 1 && DropLast(r.value.results) == st.results
    ensures r.Success? ==>
              (Operand(op, 0).Success? && BlockResults(env, Operand(op, 0).value) == Success(Last(r.value.results)))
  {
    var typeId :- Operand(op, 0);
    var results :- BlockResults(env, typeId);
    Success(VState(st.stack, st.limits + [|st.stack|], st.results + [results], st.unwinds + [[]]))
  }

  /** `jumpToNextEndOrElse` stops before an instruction that is past the end, at
      another depth, or an `END`/`ELSE`. */
  predicate Stops(instrs: seq<Instruction>, depth: int, k: int) {
    k >= |instrs| || (k >= 0 && (instrs[k].depth != depth || instrs[k].opcode == End || instrs[k].opcode == Else))
  }

  /** Where `jumpToNextEndOrElse` leaves the loop index: the last instruction of the
      run of same-depth, non-`END`/`ELSE` instructions that follows `pos`. */
  function JumpTarget(instrs: seq<Instruction>, depth: int, pos: nat): (r: nat)
    requires pos < |instrs|
    decreases |instrs| - pos
    ensures pos <= r < |instrs|
    ensures forall k :: pos < k <= r ==> !Stops(instrs, depth, k)
    ensures Stops(instrs, depth, r + 1)
  {
    if Stops(instrs, depth, pos + 1) then pos else JumpTarget(instrs, depth, pos + 1)
  }

  /** The first switch of `validate`: structured control. Its result is the new
      state and the loop index before the loop's own increment. */
  function ControlStep(env: Env, ft: FunctionType, instrs: seq<Instruction>, st: VState, i: nat)
    : (r: Result<(VState, nat), WasmError>)
    requires i < |instrs|
    ensures r.Success? ==> i <= r.value.1 < |instrs|
  {
    var op := instrs[i];
    var o := op.opcode;
    if o == If then
      var st1 :- PopTop(st, Some(I32));
      var st2 :- OpenFrame(env, st1, op);
      Success((st2, i))
    else if o == Loop || o == Block then
      var st1 :- OpenFrame(env, st, op);
      Success((st1, i))
    else if o == Else then
      if |st.limits| == 0 || |st.unwinds| == 0 then Failure(IndexOutOfBounds)
      else Success((st.(stack := Truncate(st.stack, Last(st.limits)), unwinds := SetLast(st.unwinds, [])), i))
    else if o == Return then
      if |st.limits| == 0 || |st.unwinds| == 0 then Failure(IndexOutOfBounds)
      else
        var limit := Last(st.limits);
        var p :- ValidateReturns(st.stack, ft.results, limit, Last(st.unwinds));
        var stack := PushAll(Truncate(p.stack, limit), ft.results);
        Success((st.(stack := stack, unwinds := SetLast(st.unwinds, p.unwind)), JumpTarget(instrs, op.depth, i)))
    else if o == Br then
      if !(0 <= op.labelTrue < |instrs|) then Failure(IndexOutOfBounds)
      else
        var d := instrs[op.labelTrue].depth;
        if !(0 <= d < |st.results|) || !(d < |st.limits|) || !(d < |st.unwinds|) then Failure(IndexOutOfBounds)
        else
          var p :- ValidateReturns(st.stack, st.results[d], st.limits[d], st.unwinds[d]);
          Success((st.(stack := p.stack, unwinds := st.unwinds[d := p.unwind]), JumpTarget(instrs, op.depth, i)))
    else if o == BrIf || o == BrTable then
      var st1 :- PopTop(st, Some(I32));
      if |st1.results| == 0 || |st1.limits| == 0 || |st1.unwinds| == 0 then Failure(IndexOutOfBounds)
      else
        var p :- ValidateReturns(st1.stack, Last(st1.results), Last(st1.limits), Last(st1.unwinds));
        Success((st1.(stack := p.stack, unwinds := SetLast(st1.unwinds, p.unwind)), i))
    else if o == End then
      if |st.results| == 0 || |st.limits| == 0 || |st.unwinds| == 0 then Failure(IndexOutOfBounds)
      else
        var expected, limit := Last(st.results), Last(st.limits);
        var p :- ValidateReturns(st.stack, expected, limit, Last(st.unwinds));
        var stack := if p.unwind == [] then p.stack
                     else PushAll(PushAll(Truncate(p.stack, limit), p.unwind), expected);
        Success((VState(stack, DropLast(st.limits), DropLast(st.results), DropLast(st.unwinds)), i))
    else
      Success((st, i))
  }

  /** `validateMemory(instance, memIdx, dataSegmentIdx)`; the plain memory
      instructions pass `-1` for the segment. */
  function ValidateMemory(env: Env, memIdx: int, dataSegmentIdx: int): (r: Result<(), WasmError>)
    ensures r.Success? <==>
      env.memory.HasMemory? && memIdx <= 0 && env.memory.dataSegments.Some?
      && dataSegmentIdx < env.memory.dataSegments.value
    ensures (env.memory.NoMemory? || memIdx > 0) ==> r == Failure(UnknownMemory(memIdx))
    ensures env.memory.HasMemory? && memIdx <= 0 && !r.Success? ==> r == Failure(UnknownDataSegment(dataSegmentIdx))
  {
    if env.memory.NoMemory? || memIdx > 0 then Failure(UnknownMemory(memIdx))
    else if env.memory.dataSegments.None? || dataSegmentIdx >= env.memory.dataSegments.value then
      Failure(UnknownDataSegment(dataSegmentIdx))
    else Success(())
  }

  /** The opcodes that load, store or query memory 0. */
  predicate IsPlainMemoryOp(op: OpCode) {
    op == MemorySize || op == MemoryGrow || op == I32Load || op == I32Load8U || op == I32Load8S
      || op == I32Load16U || op == I32Load16S || op == I64Load || op == I64Load8S || op == I64Load8U
      || op == I64Load16S || op == I64Load16U || op == I64Load32S || op == I64Load32U || op == F32Load
      || op == F64Load || op == I32Store || op == I32Store8 || op == I32Store16 || op == I64Store
      || op == I64Store8 || op == I64Store16 || op == I64Store32 || op == F32Store || op == F64Store
  }

  /** The second switch of `validate`: the memory checks. */
  function MemoryStep(env: Env, op: Instruction): (r: Result<(), WasmError>)
    ensures IsPlainMemoryOp(op.opcode) ==> r == ValidateMemory(env, 0, -1)
    ensures op.opcode == MemoryInit && |op.operands| >= 2 ==>
      r == ValidateMemory(env, IntOperand(op, 1), IntOperand(op, 0))
    ensures (!IsPlainMemoryOp(op.opcode) && op.opcode != MemoryCopy && op.opcode != MemoryFill
             && op.opcode != MemoryInit) ==> r.Success?
  {
    if op.opcode == MemoryCopy then
      var a :- Operand(op, 0);
      var _ :- ValidateMemory(env, a, -1);
      var b :- Operand(op, 1);
      ValidateMemory(env, b, -1)
    else if op.opcode == MemoryFill then
      var a :- Operand(op, 0);
      ValidateMemory(env, a, -1)
    else if op.opcode == MemoryInit then
      if |op.operands| < 2 then Failure(IndexOutOfBounds)
      else ValidateMemory(env, IntOperand(op, 1), IntOperand(op, 0))
    else if IsPlainMemoryOp(op.opcode) then ValidateMemory(env, 0, -1)
    else Success(())
  }

  /** The type of local `index`: a parameter below the parameter count (a negative
      index throws from the list), otherwise a declared local or "unknown local". */
  function LocalType(ft: FunctionType, localTypes: seq<ValueType>, index: int): (r: Result<ValueType, WasmError>)
    ensures 0 <= index < |ft.params| ==> r == Success(ft.params[index])
    ensures index >= |ft.params| ==>
      r == if index - |ft.params| < |localTypes| then Success(localTypes[index - |ft.params|]) else Failure(UnknownLocal)
    ensures index < 0 ==> r.Failure?
  {
    if index < |ft.params| then
      if index < 0 then Failure(IndexOutOfBounds) else Success(ft.params[index])
    else
      GetLocal(localTypes, index - |ft.params|)
  }

  /** `getLocal(locals, index)`: the list lookup, its out-of-bounds turned into "unknown local". */
  function GetLocal(locals: seq<ValueType>, index: int): (r: Result<ValueType, WasmError>)
    ensures r.Success? <==> 0 <= index < |locals|
    ensures r.Success? ==> r.value == locals[index]
    ensures r.Failure? ==> r.error == UnknownLocal
  {
    if 0 <= index < |locals| then Success(locals[index]) else Failure(UnknownLocal)
  }

  /** `instance.readGlobal(idx).type()`. */
  function GlobalType(env: Env, idx: int): Result<ValueType, WasmError> {
    GlobalAt(env.importedGlobalTypes, env.importedGlobalsOffset, env.globalTypes, idx)
  }

  /** The fixed operand signature of each opcode the third switch of `validate`
      handles by popping and pushing set types: the parameters are popped last
      first, then the results pushed. */
  function Signature(op: OpCode): (r: Option<FunctionType>)
    ensures r.Some? ==> 1 <= |r.value.params| + |r.value.results| && |r.value.params| <= 3 && |r.value.results| <= 1
  {
    if op == I32Store || op == I32Store8 || op == I32Store16 then Some(FunctionType([I32, I32], []))
    else if op == I32Load || op == I32Load8U || op == I32Load8S || op == I32Load16U || op == I32Load16S
      || op == I32Clz || op == I32Ctz || op == I32Popcnt || op == I32Extend8S || op == I32Extend16S
      || op == I32Eqz || op == MemoryGrow
      then Some(FunctionType([I32], [I32]))
    else if op == I32Const || op == MemorySize then Some(FunctionType([], [I32]))
    else if op == I32Add || op == I32Sub || op == I32Mul || op == I32DivS || op == I32DivU || op == I32RemS
      || op == I32RemU || op == I32And || op == I32Or || op == I32Xor || op == I32Eq || op == I32Ne
      || op == I32LtS || op == I32LtU || op == I32LeS || op == I32LeU || op == I32GtS || op == I32GtU
      || op == I32GeS || op == I32GeU || op == I32Shl || op == I32ShrU || op == I32ShrS || op == I32Rotl
      || op == I32Rotr
      then Some(FunctionType([I32, I32], [I32]))
    else if op == I32WrapI64 || op == I64Eqz then Some(FunctionType([I64], [I32]))
    else if op == I32TruncF32S || op == I32TruncF32U || op == I32TruncSatF32S || op == I32TruncSatF32U
      || op == I32ReinterpretF32
      then Some(FunctionType([F32], [I32]))
    else if op == I32TruncF64S || op == I32TruncF64U || op == I32TruncSatF64S || op == I32TruncSatF64U
      then Some(FunctionType([F64], [I32]))
    else if op == I64Load || op == I64Load8S || op == I64Load8U || op == I64Load16S || op == I64Load16U
      || op == I64Load32S || op == I64Load32U || op == I64ExtendI32U || op == I64ExtendI32S
      then Some(FunctionType([I32], [I64]))
    else if op == I64Const then Some(FunctionType([], [I64]))
    else if op == I64Store || op == I64Store8 || op == I64Store16 || op == I64Store32 then Some(FunctionType([I32, I64], []))
    else if op == I64Add || op == I64Sub || op == I64Mul || op == I64DivS || op == I64DivU || op == I64RemS
      || op == I64RemU || op == I64And || op == I64Or || op == I64Xor || op == I64Shl || op == I64ShrU
      || op == I64ShrS || op == I64Rotl || op == I64Rotr
      then Some(FunctionType([I64, I64], [I64]))
    else if op == I64Eq || op == I64Ne || op == I64LtS || op == I64LtU || op == I64LeS || op == I64LeU
      || op == I64GtS || op == I64GtU || op == I64GeS || op == I64GeU
      then Some(FunctionType([I64, I64], [I32]))
    else if op == I64Clz || op == I64Ctz || op == I64Popcnt || op == I64Extend8S || op == I64Extend16S
      || op == I64Extend32S
      then Some(FunctionType([I64], [I64]))
    else if op == I64ReinterpretF64 || op == I64TruncF64S || op == I64TruncF64U || op == I64TruncSatF64S
      || op == I64TruncSatF64U
      then Some(FunctionType([F64], [I64]))
    else if op == I64TruncF32S || op == I64TruncF32U || op == I64TruncSatF32S || op == I64TruncSatF32U
      then Some(FunctionType([F32], [I64]))
    else if op == F32Store then Some(FunctionType([I32, F32], []))
    else if op == F32Const then Some(FunctionType([], [F32]))
    else if op == F32Load || op == F32ConvertI32S || op == F32ConvertI32U || op == F32ReinterpretI32 then Some(FunctionType([I32], [F32]))
    else if op == F32ConvertI64S || op == F32ConvertI64U then Some(FunctionType([I64], [F32]))
    else if op == F64Load || op == F64ConvertI32S || op == F64ConvertI32U then Some(FunctionType([I32], [F64]))
    else if op == F64ConvertI64S || op == F64ConvertI64U || op == F64ReinterpretI64 then Some(FunctionType([I64], [F64]))
    else if op == F64PromoteF32 then Some(FunctionType([F32], [F64]))
    else if op == F32DemoteF64 then Some(FunctionType([F64], [F32]))
    else if op == F32Sqrt || op == F32Abs || op == F32Neg || op == F32Ceil || op == F32Floor
      || op == F32Trunc || op == F32Nearest
      then Some(FunctionType([F32], [F32]))
    else if op == F32Add || op == F32Sub || op == F32Mul || op == F32Div || op == F32Min || op == F32Max
      || op == F32Copysign
      then Some(FunctionType([F32, F32], [F32]))
    else if op == F32Eq || op == F32Ne || op == F32Lt || op == F32Le || op == F32Gt || op == F32Ge then Some(FunctionType([F32, F32], [I32]))
    else if op == F64Store then Some(FunctionType([I32, F64], []))
    else if op == F64Const then Some(FunctionType([], [F64]))
    else if op == F64Sqrt || op == F64Abs || op == F64Neg || op == F64Ceil || op == F64Floor
      || op == F64Trunc || op == F64Nearest
      then Some(FunctionType([F64], [F64]))
    else if op == F64Add || op == F64Sub || op == F64Mul || op == F64Div || op == F64Min || op == F64Max
      || op == F64Copysign
      then Some(FunctionType([F64, F64], [F64]))
    else if op == F64Eq || op == F64Ne || op == F64Lt || op == F64Le || op == F64Gt || op == F64Ge then Some(FunctionType([F64, F64], [I32]))
    else if op == MemoryCopy || op == MemoryFill || op == MemoryInit then Some(FunctionType([I32, I32, I32], []))
    else None
  }

  /** Pop a signature's parameters and push its results. */
  function ApplySignature(st: VState, sig: FunctionType): (r: Result<VState, WasmError>)
    ensures r.Success? ==> |st.stack| >= |sig.params|
    ensures r.Success? ==> r.value.stack == Reverse(sig.results) + st.stack[|sig.params|..]
  {
    var st1 :- PopAllTop(st, sig.params);
    Success(st1.(stack := PushAll(st1.stack, sig.results)))
  }

  /** The opcodes the third switch lets through without touching the stacks. */
  predicate IsControlOp(op: OpCode) {
    op == Nop || op == Unreachable || op == Loop || op == Block || op == If || op == Else
      || op == Return || op == BrIf || op == BrTable || op == Br || op == End
  }

  /** The third switch of `validate`: operand types. The opcodes with a fixed
      signature (none of which has a case of its own) come first. */
  function OperandStep(env: Env, ft: FunctionType, localTypes: seq<ValueType>, st: VState, op: Instruction)
    : (r: Result<VState, WasmError>)
    ensures r.Success? ==> r.value.limits == st.limits && r.value.results == st.results && |r.value.unwinds| == |st.unwinds|
  {
    var o := op.opcode;
    if Signature(o).Some? then ApplySignature(st, Signature(o).value)
    else if IsControlOp(o) then Success(st)
    else if o == DataDrop then
      var index :- Operand(op, 0);
      if env.memory.NoMemory? || env.memory.dataSegments.None? || index >= env.memory.dataSegments.value then
        Failure(UnknownDataSegment(index))
      else Success(st)
    else if o == Drop then
      PopTop(st, None)
    else if o == LocalSet then
      var index :- Operand(op, 0);
      var t :- LocalType(ft, localTypes, index);
      PopTop(st, Some(t))
    else if o == LocalGet then
      var index :- Operand(op, 0);
      var t :- LocalType(ft, localTypes, index);
      Success(Push(st, t))
    else if o == LocalTee then
      var index :- Operand(op, 0);
      var t :- LocalType(ft, localTypes, index);
      var st1 :- PopTop(st, Some(t));
      Success(Push(st1, t))
    else if o == GlobalGet then
      var idx :- Operand(op, 0);
      var t :- GlobalType(env, idx);
      Success(Push(st, t))
    else if o == GlobalSet then
      var idx :- Operand(op, 0);
      var t :- GlobalType(env, idx);
      PopTop(st, Some(t))
    else if o == Call then
      var index :- Operand(op, 0);
      var typeId :- FunctionTypeAt(env.functionTypes, index);
      var callee :- TypeAt(env.types, typeId);
      ApplySignature(st, callee)
    else if o == CallIndirect then
      var typeId :- Operand(op, 0);
      var st1 :- PopTop(st, Some(I32));
      var callee :- TypeAt(env.types, typeId);
      ApplySignature(st1, callee)
    else if o == RefNull then
      var id :- Operand(op, 0);
      if IsValidTypeId(id) then Success(Push(st, ForId(id))) else Failure(InvalidValueType(id))
    else if o == RefIsNull then
      if |st.stack| == 0 then Failure(NullPointer)
      else if !st.stack[0].IsReference() then Failure(NotReference(st.stack[0]))
      else Success(st.(stack := [I32] + st.stack[1..]))
    else if o == Select then
      var st1 :- PopTop(st, Some(I32));
      Success(Push(st1.(stack := PollTwice(st1.stack)), Unknown))
    else if o == SelectT then
      var st1 :- PopTop(st, Some(I32));
      var a := if |st1.stack| > 0 then Some(st1.stack[0]) else None;
      var b := if |st1.stack| > 1 then Some(st1.stack[1]) else None;
      if a != b then Failure(TypeMismatch(a, b))
      else if a.None? then Failure(NullPointer)
      else Success(Push(st1.(stack := PollTwice(st1.stack)), a.value))
    else Failure(MissingRule(o))
  }

  /** Two `poll()`s, each a no-op on an empty deque. */
  function PollTwice(stack: seq<ValueType>): seq<ValueType> {
    if |stack| >= 2 then stack[2..] else []
  }

  /** One iteration of the loop of `validate`: the three switches in order. */
  function Step(env: Env, ft: FunctionType, localTypes: seq<ValueType>, instrs: seq<Instruction>, st: VState, i: nat)
    : (r: Result<(VState, nat), WasmError>)
    requires i < |instrs|
    ensures r.Success? ==> i <= r.value.1 < |instrs|
  {
    var (st1, next) :- ControlStep(env, ft, instrs, st, i);
    var _ :- MemoryStep(env, instrs[i]);
    var st2 :- OperandStep(env, ft, localTypes, st1, instrs[i]);
    Success((st2, next))
  }

  /** The loop of `validate` from index `i` on. `Run`, `Iterate`, `Continue` and
      `AfterStep` are one recursion cut into four layers, so that unfolding the loop once does
      not yet expose the step at the next index. */
  function Run(env: Env, ft: FunctionType, localTypes: seq<ValueType>, instrs: seq<Instruction>, st: VState, i: nat)
    : Result<VState, WasmError>
    decreases |instrs| - i, 3
  {
    if i >= |instrs| then Success(st) else Iterate(env, ft, localTypes, instrs, st, i)
  }

  /** An iteration at an index inside the body, then the rest of the loop. */
  function Iterate(env: Env, ft: FunctionType, localTypes: seq<ValueType>, instrs: seq<Instruction>, st: VState, i: nat)
    : Result<VState, WasmError>
    requires i < |instrs|
    decreases |instrs| - i, 2
  {
    Continue(env, ft, localTypes, instrs, st, i)
  }

  /** The step at `i`, then what the loop does after it. */
  function Continue(env: Env, ft: FunctionType, localTypes: seq<ValueType>, instrs: seq<Instruction>, st: VState, i: nat)
    : Result<VState, WasmError>
    requires i < |instrs|
    decreases |instrs| - i, 1
  {
    AfterStep(env, ft, localTypes, instrs, i, Step(env, ft, localTypes, instrs, st, i))
  }

  /** What the loop does after the step at `i` with outcome `s`: stop with its
      error, or go on after the index the step left. */
  function AfterStep(env: Env, ft: FunctionType, localTypes: seq<ValueType>, instrs: seq<Instruction>,
                     i: nat, s: Result<(VState, nat), WasmError>): Result<VState, WasmError>
    requires i < |instrs| && (s.Success? ==> i <= s.value.1)
    decreases |instrs| - i, 0
  {
    match s
    case Failure(e) => Failure(e)
    case Success(p) => Run(env, ft, localTypes, instrs, p.0, p.1 + 1)
  }

  /** One iteration is the step followed by `AfterStep`. */
  lemma RunAfterStep(env: Env, ft: FunctionType, localTypes: seq<ValueType>, instrs: seq<Instruction>, st: VState, i: nat)
    requires i < |instrs|
    ensures Iterate(env, ft, localTypes, instrs, st, i)
      == AfterStep(env, ft, localTypes, instrs, i, Step(env, ft, localTypes, instrs, st, i))
  {
    assert Iterate(env, ft, localTypes, instrs, st, i) == Continue(env, ft, localTypes, instrs, st, i);
  }

  /** `Step` is the three switches in sequence, the first failure ending it. */
  lemma StepOfParts(env: Env, ft: FunctionType, localTypes: seq<ValueType>, instrs: seq<Instruction>, st: VState, i: nat)
    requires i < |instrs|
    ensures ControlStep(env, ft, instrs, st, i).Failure? ==>
      Step(env, ft, localTypes, instrs, st, i) == Failure(ControlStep(env, ft, instrs, st, i).error)
    ensures ControlStep(env, ft, instrs, st, i).Success? && MemoryStep(env, instrs[i]).Failure? ==>
      Step(env, ft, localTypes, instrs, st, i) == Failure(MemoryStep(env, instrs[i]).error)
    ensures ControlStep(env, ft, instrs, st, i).Success? && MemoryStep(env, instrs[i]).Success? ==>
      var (st1, next) := ControlStep(env, ft, instrs, st, i).value;
      var o := OperandStep(env, ft, localTypes, st1, instrs[i]);
      Step(env, ft, localTypes, instrs, st, i) == if o.Success? then Success((o.value, next)) else Failure(o.error)
  {
  }

  /** A step that agrees with `Step` ends the iteration with its error, or leaves
      the rest of the loop to run from where it stopped. */
  lemma StepAdvances(env: Env, ft: FunctionType, localTypes: seq<ValueType>, instrs: seq<Instruction>,
                     st: VState, i: nat, r: Outcome<WasmError>, st1: VState, next: nat)
    requires i < |instrs|
    requires Agrees(r, Step(env, ft, localTypes, instrs, st, i), (st1, next))
    ensures r.Pass? ==> i <= next < |instrs|
    ensures r.Pass? ==> Iterate(env, ft, localTypes, instrs, st, i) == Run(env, ft, localTypes, instrs, st1, next + 1)
    ensures r.Fail? ==> Iterate(env, ft, localTypes, instrs, st, i) == Failure(r.error)
  {
    RunAfterStep(env, ft, localTypes, instrs, st, i);
    AfterAgreeingStep(env, ft, localTypes, instrs, i, Step(env, ft, localTypes, instrs, st, i), r, st1, next);
  }

  /** Whatever step produced `s`, a step that agrees with it ends the loop with its
      error or goes on after the index it left. */
  lemma AfterAgreeingStep(env: Env, ft: FunctionType, localTypes: seq<ValueType>, instrs: seq<Instruction>,
                          i: nat, s: Result<(VState, nat), WasmError>, r: Outcome<WasmError>, st1: VState, next: nat)
    requires i < |instrs| && (s.Success? ==> i <= s.value.1)
    requires Agrees(r, s, (st1, next))
    ensures r.Pass? ==> AfterStep(env, ft, localTypes, instrs, i, s) == Run(env, ft, localTypes, instrs, st1, next + 1)
    ensures r.Fail? ==> AfterStep(env, ft, localTypes, instrs, i, s) == Failure(r.error)
  {
  }

  /** The state `validate` starts from: one frame for the function body. */
  function InitialState(ft: FunctionType): VState {
    VState([], [0], [ft.results], [[]])
  }

  /** `validate` on a validator in state `st`: open the function's frame, then run the loop. */
  function ValidateFrom(body: FunctionBody, ft: FunctionType, env: Env, st: VState): Result<(), WasmError> {
    var _ :- Run(env, ft, body.localTypes, body.instructions, OpenBody(st, ft), 0);
    Success(())
  }

  /** The three pushes that open with the function's own frame. */
  function OpenBody(st: VState, ft: FunctionType): VState {
    VState(st.stack, st.limits + [0], st.results + [ft.results], st.unwinds + [[]])
  }

  /** `new TypeValidator().validate(body, functionType, instance)`: does it return normally? */
  function ValidationResult(body: FunctionBody, ft: FunctionType, env: Env): Result<(), WasmError> {
    ValidateFrom(body, ft, env, VState([], [], [], []))
  }

  // ---------------------------------------------------------------------------
  // Properties of the machine

  /** When the top of the stack above the limit is exactly `ts` (last on top),
      popping `ts` succeeds and records nothing on the unwind list. */
  lemma {:induction false} PopAllMatching(stack: seq<ValueType>, ts: seq<ValueType>, limit: int, unwind: seq<ValueType>)
    requires |stack| >= |ts| && |stack| - |ts| >= limit
    requires stack[..|ts|] == Reverse(ts)
    ensures PopAll(stack, ts, limit, unwind) == Success(Popped(stack[|ts|..], unwind))
    decreases |ts|
  {
    if ts != [] {
      var n := |ts|;
      assert stack[0] == stack[..n][0] == Reverse(ts)[0] == Last(ts);
      var rest := DropLast(ts);
      forall k | 0 <= k < |rest|
        ensures stack[1..][..|rest|][k] == Reverse(rest)[k]
      {
        assert stack[1..][..|rest|][k] == stack[..n][k + 1] == Reverse(ts)[k + 1];
      }
      assert stack[1..][..|rest|] == Reverse(rest);
      PopAllMatching(stack[1..], rest, limit, unwind);
      assert stack[1..][|rest|..] == stack[|ts|..];
    }
  }

  /** Pushing back the types just popped restores the stack. */
  lemma PushBackPrefix(stack: seq<ValueType>, ts: seq<ValueType>)
    requires |stack| >= |ts|
    requires stack[..|ts|] == Reverse(ts)
    ensures PushAll(stack[|ts|..], ts) == stack
  {
    var n := |ts|;
    var rest := stack[n..];
    TakeDropJoin(stack, n);
  }

  lemma TakeDropJoin<T>(s: seq<T>, n: nat)
    requires n <= |s|
    ensures s[..n] + s[n..] == s
  {
  }

  /** `validateReturns` on a stack that already ends in the expected results,
      above the frame's limit, changes nothing. */
  lemma ValidateReturnsKeeps(stack: seq<ValueType>, expected: seq<ValueType>, limit: int, unwind: seq<ValueType>)
    requires |stack| >= |expected| && |stack| - |expected| >= limit
    requires stack[..|expected|] == Reverse(expected)
    ensures ValidateReturns(stack, expected, limit, unwind) == Success(Popped(stack, unwind))
  {
    PopAllMatching(stack, expected, limit, unwind);
    var n := |expected|;
    var rest := stack[n..];
    var p := PopAll(stack, expected, limit, unwind);
    assert p == Success(Popped(rest, unwind));
    var pushed := PushAll(rest, expected);
    PushBackPrefix(stack, expected);
    calc {
      ValidateReturns(stack, expected, limit, unwind);
      Success(Popped(PushAll(p.value.stack, expected), p.value.unwind));
      Success(Popped(pushed, unwind));
    }
  }

  /** A block that pops only values from outside itself (the stack is no higher than
      its limit) records each of them, in the order popped, on its unwind list. */
  lemma {:induction false} PopAllBelowLimit(stack: seq<ValueType>, ts: seq<ValueType>, limit: int, unwind: seq<ValueType>)
    requires |stack| <= limit
    requires PopAll(stack, ts, limit, unwind).Success?
    ensures PopAll(stack, ts, limit, unwind).value.unwind == unwind + stack[..|ts|]
    decreases |ts|
  {
    if ts != [] {
      var p := PopAndVerify(stack, Some(Last(ts)), limit, unwind).value;
      PopAllBelowLimit(p.stack, DropLast(ts), limit, p.unwind);
      assert stack[..|ts|] == [stack[0]] + p.stack[..|DropLast(ts)|];
    }
  }

  /** `validateReturns` succeeds on any stack holding enough operands compatible
      with the expected types, and then the expected types are on top, in order. */
  lemma {:induction false} PopAllCompatible(stack: seq<ValueType>, ts: seq<ValueType>, limit: int, unwind: seq<ValueType>)
    requires |stack| >= |ts|
    requires forall k :: 0 <= k < |ts| ==> Compatible(ts[|ts| - 1 - k], stack[k])
    ensures PopAll(stack, ts, limit, unwind).Success?
    decreases |ts|
  {
    if ts != [] {
      var p := PopAndVerify(stack, Some(Last(ts)), limit, unwind).value;
      var rest := DropLast(ts);
      forall k | 0 <= k < |rest| ensures Compatible(rest[|rest| - 1 - k], p.stack[k]) {
        assert p.stack[k] == stack[k + 1];
      }
      PopAllCompatible(p.stack, rest, limit, p.unwind);
    }
  }

  /** `BLOCK`, `LOOP` and `IF` open a frame whose limit is the current height
      (after `IF`'s condition), with an empty unwind list; `IF` first pops an `I32`. */
  lemma BlockOpensFrame(env: Env, ft: FunctionType, instrs: seq<Instruction>, st: VState, i: nat)
    requires i < |instrs| && instrs[i].opcode in {Block, Loop, If}
    requires ControlStep(env, ft, instrs, st, i).Success?
    ensures var (st1, next) := ControlStep(env, ft, instrs, st, i).value;
      && next == i
      && |st1.limits| == |st.limits| + 1 && |st1.results| == |st.results| + 1
      && Last(st1.limits) == |st1.stack| && Last(st1.unwinds) == []
      && (instrs[i].opcode == If ==> |st.stack| > 0 && Compatible(I32, st.stack[0]) && st1.stack == st.stack[1..])
      && (instrs[i].opcode != If ==> st1.stack == st.stack)
  {
  }

  /** `ELSE` drops whatever the `IF` branch left above the frame's limit and
      forgets the values it consumed from below it. */
  lemma ElseResetsFrame(env: Env, ft: FunctionType, instrs: seq<Instruction>, st: VState, i: nat)
    requires i < |instrs| && instrs[i].opcode == Else
    requires |st.limits| > 0 && |st.unwinds| > 0
    ensures ControlStep(env, ft, instrs, st, i).Success?
    ensures var (st1, next) := ControlStep(env, ft, instrs, st, i).value;
      && next == i && st1.limits == st.limits && st1.results == st.results
      && |st1.stack| <= Last(st.limits) && st1.stack == st.stack[|st.stack| - |st1.stack|..]
      && (|st.stack| >= Last(st.limits) ==> |st1.stack| == Last(st.limits))
      && Last(st1.unwinds) == [] && DropLast(st1.unwinds) == DropLast(st.unwinds)
  {
  }

  /** `END` closes the innermost frame. If the block consumed nothing from outside
      itself, the stack is the one `validateReturns` left: the expected results on
      top of the untouched rest. Otherwise the stack is cut back to the limit, the
      consumed values are pushed back (the last consumed on top) and the results
      pushed over them. */
  lemma EndClosesFrame(env: Env, ft: FunctionType, instrs: seq<Instruction>, st: VState, i: nat)
    requires i < |instrs| && instrs[i].opcode == End
    requires ControlStep(env, ft, instrs, st, i).Success?
    ensures |st.limits| > 0 && |st.results| > 0 && |st.unwinds| > 0
    ensures var (st1, next) := ControlStep(env, ft, instrs, st, i).value;
      var expected, limit := Last(st.results), Last(st.limits);
      var p := ValidateReturns(st.stack, expected, limit, Last(st.unwinds)).value;
      && next == i
      && st1.limits == DropLast(st.limits) && st1.results == DropLast(st.results)
      && st1.unwinds == DropLast(st.unwinds)
      && (p.unwind == [] ==> st1.stack == Reverse(expected) + st.stack[|expected|..])
      && (p.unwind != [] ==> st1.stack == Reverse(expected) + Reverse(p.unwind) + Truncate(p.stack, limit))
  {
    var expected, limit := Last(st.results), Last(st.limits);
    var p := ValidateReturns(st.stack, expected, limit, Last(st.unwinds)).value;
    var st1 := ControlStep(env, ft, instrs, st, i).value.0;
    if p.unwind != [] {
      var t := Truncate(p.stack, limit);
      assert st1.stack == PushAll(PushAll(t, p.unwind), expected);
      assert st1.stack == Reverse(expected) + (Reverse(p.unwind) + t);
    }
  }

  /** `RETURN` and `BR` move the loop index to the end of the current run of
      same-depth instructions; every other control instruction stays put. */
  lemma BranchesSkipAhead(env: Env, ft: FunctionType, instrs: seq<Instruction>, st: VState, i: nat)
    requires i < |instrs|
    requires ControlStep(env, ft, instrs, st, i).Success?
    ensures var next := ControlStep(env, ft, instrs, st, i).value.1;
      && (instrs[i].opcode in {Return, Br} ==> next == JumpTarget(instrs, instrs[i].depth, i))
      && (instrs[i].opcode !in {Return, Br} ==> next == i)
  {
  }

  /** Every opcode with a fixed signature, given operands matching it exactly above
      the innermost frame's limit, pops them and pushes its results. */
  lemma SignatureRule(env: Env, ft: FunctionType, localTypes: seq<ValueType>, st: VState, op: Instruction, sig: FunctionType)
    requires Signature(op.opcode) == Some(sig)
    requires |st.limits| > 0 && |st.unwinds| > 0
    requires |st.stack| >= |sig.params| && |st.stack| - |sig.params| >= Last(st.limits)
    requires st.stack[..|sig.params|] == Reverse(sig.params)
    ensures OperandStep(env, ft, localTypes, st, op).Success?
    ensures OperandStep(env, ft, localTypes, st, op).value
      == st.(stack := Reverse(sig.results) + st.stack[|sig.params|..])
  {
    if sig.params != [] {
      PopAllMatching(st.stack, sig.params, Last(st.limits), Last(st.unwinds));
      assert SetLast(st.unwinds, Last(st.unwinds)) == st.unwinds;
    }
  }

  /** The signatures named in the validator's switch for the integer opcodes. */
  lemma IntegerSignatures(op: OpCode)
    ensures (op in {I32Add, I32Sub, I32Mul, I32DivS, I32DivU, I32RemS, I32RemU, I32And, I32Or, I32Xor, I32Shl,
                    I32ShrU, I32ShrS, I32Rotl, I32Rotr}) ==> Signature(op) == Some(FunctionType([I32, I32], [I32]))
    ensures op in {I64Eq, I64Ne, I64LtS, I64LtU, I64LeS, I64LeU, I64GtS, I64GtU, I64GeS, I64GeU} ==>
      Signature(op) == Some(FunctionType([I64, I64], [I32]))
    ensures op in {I64Store, I64Store8, I64Store16, I64Store32} ==> Signature(op) == Some(FunctionType([I32, I64], []))
  {
  }

  /** A local below the parameter count has its parameter's type, any other its
      declared type; a local past both is "unknown local". */
  lemma LocalGetPushesLocalType(env: Env, ft: FunctionType, localTypes: seq<ValueType>, st: VState, op: Instruction)
    requires op.opcode == LocalGet && |op.operands| >= 1
    ensures var index := IntOperand(op, 0);
      && (0 <= index < |ft.params| ==> OperandStep(env, ft, localTypes, st, op) == Success(Push(st, ft.params[index])))
      && (|ft.params| <= index < |ft.params| + |localTypes| ==>
            OperandStep(env, ft, localTypes, st, op) == Success(Push(st, localTypes[index - |ft.params|])))
      && (index >= |ft.params| + |localTypes| ==> OperandStep(env, ft, localTypes, st, op) == Failure(UnknownLocal))
  {
    assert Signature(LocalGet) == None;
    assert !IsControlOp(LocalGet);
  }

  /** `SELECT` pushes the polymorphic `UNKNOWN` in place of its three operands. */
  lemma SelectRules(env: Env, ft: FunctionType, localTypes: seq<ValueType>, st: VState, op: Instruction, a: ValueType, b: ValueType, rest: seq<ValueType>)
    requires |st.limits| > 0 && |st.unwinds| > 0 && |st.stack| - 3 >= Last(st.limits)
    requires st.stack == [I32, a, b] + rest
    requires op.opcode == Select
    ensures OperandStep(env, ft, localTypes, st, op) == Success(st.(stack := [Unknown] + rest))
  {
    assert SetLast(st.unwinds, Last(st.unwinds)) == st.unwinds;
    assert st.stack[1..][2..] == rest;
    assert PopTop(st, Some(I32)) == Success(st.(stack := st.stack[1..]));
    assert Signature(Select) == None && !IsControlOp(Select);
  }

  /** `SELECT_T` needs its two operands to have one type, which it pushes. */
  lemma SelectTypedRules(env: Env, ft: FunctionType, localTypes: seq<ValueType>, st: VState, op: Instruction, a: ValueType, b: ValueType, rest: seq<ValueType>)
    requires |st.limits| > 0 && |st.unwinds| > 0 && |st.stack| - 3 >= Last(st.limits)
    requires st.stack == [I32, a, b] + rest
    requires op.opcode == SelectT
    ensures OperandStep(env, ft, localTypes, st, op).Success? <==> a == b
    ensures a == b ==> OperandStep(env, ft, localTypes, st, op) == Success(st.(stack := [a] + rest))
  {
    assert SetLast(st.unwinds, Last(st.unwinds)) == st.unwinds;
    assert st.stack[1..][2..] == rest;
    assert PopTop(st, Some(I32)) == Success(st.(stack := st.stack[1..]));
    assert Signature(SelectT) == None && !IsControlOp(SelectT);
  }

  /** `REF_FUNC` and the table instructions have no case in the third switch, so
      they are rejected with an `IllegalArgumentException` whatever the state. */
  lemma RefFuncHasNoRule(env: Env, ft: FunctionType, localTypes: seq<ValueType>, st: VState, op: Instruction)
    requires op.opcode == RefFunc
    ensures OperandStep(env, ft, localTypes, st, op) == Failure(MissingRule(RefFunc))
  {
    assert Signature(RefFunc) == None;
    assert !IsControlOp(RefFunc);
  }

  lemma TableGetHasNoRule(env: Env, ft: FunctionType, localTypes: seq<ValueType>, st: VState, op: Instruction)
    requires op.opcode == TableGet
    ensures OperandStep(env, ft, localTypes, st, op) == Failure(MissingRule(TableGet))
  {
    assert Signature(TableGet) == None;
    assert !IsControlOp(TableGet);
  }

  /** Without a memory, every load, store and memory query is rejected before its
      operands are looked at. */
  lemma MemoryOpsNeedMemory(env: Env, ft: FunctionType, localTypes: seq<ValueType>, instrs: seq<Instruction>, st: VState, i: nat)
    requires i < |instrs| && IsPlainMemoryOp(instrs[i].opcode)
    requires env.memory == NoMemory
    ensures Step(env, ft, localTypes, instrs, st, i) == Failure(UnknownMemory(0))
  {
  }

  /** `MEMORY_INIT` names a data segment, which must exist. */
  lemma MemoryInitNeedsSegment(env: Env, op: Instruction, count: nat)
    requires env.memory == HasMemory(Some(count)) && op.opcode == MemoryInit && |op.operands| >= 2
    requires IntOperand(op, 0) >= count
    ensures MemoryStep(env, op) == Failure(if IntOperand(op, 1) > 0 then UnknownMemory(IntOperand(op, 1))
                                           else UnknownDataSegment(IntOperand(op, 0)))
  {
  }

  /** So does `DATA_DROP`. */
  lemma DataDropNeedsSegment(env: Env, ft: FunctionType, localTypes: seq<ValueType>, st: VState, op: Instruction, count: nat)
    requires env.memory == HasMemory(Some(count)) && op.opcode == DataDrop && |op.operands| >= 1
    requires IntOperand(op, 0) >= count
    ensures OperandStep(env, ft, localTypes, st, op) == Failure(UnknownDataSegment(IntOperand(op, 0)))
  {
    assert Signature(DataDrop) == None;
    assert !IsControlOp(DataDrop);
  }

  // ---------------------------------------------------------------------------
  // The validator itself

  /** A method outcome `r`, with the state it left, agrees with the function `spec`. */
  predicate Agrees<T(==)>(r: Outcome<WasmError>, spec: Result<T, WasmError>, v: T) {
    match r
    case Pass => spec == Success(v)
    case Fail(e) => spec == Failure(e)
  }

  /** `TypeValidator`: the four stacks are fields, updated in place by `validate`. */
  class TypeValidator {
    /** `valueTypeStack`: index 0 is the front of the deque. */
    var valueTypeStack: seq<ValueType>
    var stackLimit: seq<nat>
    /** The source's `returns` list. */
    var frameResults: seq<seq<ValueType>>
    var unwindStack: seq<seq<ValueType>>

    function State(): VState
      reads this
    {
      VState(valueTypeStack, stackLimit, frameResults, unwindStack)
    }

    constructor ()
      ensures State() == VState([], [], [], [])
    {
      valueTypeStack, stackLimit, frameResults, unwindStack := [], [], [], [];
    }

    /** `valueTypeStack.poll()`: the front, or `null` when empty. */
    method Poll() returns (t: Option<ValueType>)
      modifies this
      ensures t == if |old(valueTypeStack)| > 0 then Some(old(valueTypeStack)[0]) else None
      ensures valueTypeStack == if |old(valueTypeStack)| > 0 then old(valueTypeStack)[1..] else []
      ensures stackLimit == old(stackLimit) && frameResults == old(frameResults) && unwindStack == old(unwindStack)
    {
      if |valueTypeStack| > 0 {
        t := Some(valueTypeStack[0]);
        valueTypeStack := valueTypeStack[1..];
      } else {
        t := None;
      }
    }

    /** `popAndVerifyType(expected, limit, unwind)`; the updated unwind list is returned. */
    method PopAndVerifyType(expected: Option<ValueType>, limit: int, unwind: seq<ValueType>)
      returns (r: Outcome<WasmError>, unwindOut: seq<ValueType>)
      modifies this
      ensures Agrees(r, PopAndVerify(old(valueTypeStack), expected, limit, unwind), Popped(valueTypeStack, unwindOut))
      ensures stackLimit == old(stackLimit) && frameResults == old(frameResults) && unwindStack == old(unwindStack)
    {
      var have: Option<ValueType> := None;
      unwindOut := unwind;
      if |valueTypeStack| > limit {
        have := Poll();
      } else if |valueTypeStack| > 0 {
        have := Poll();
        unwindOut := unwind + [have.value];
      }
      r := ToOutcome(VerifyType(expected, have));
    }

    /** `popAndVerifyType(expected)`: against the innermost frame, whose unwind list it updates. */
    method PopAndVerifyTop(expected: Option<ValueType>) returns (r: Outcome<WasmError>)
      modifies this
      ensures Agrees(r, PopTop(old(State()), expected), State())
    {
      if |stackLimit| == 0 || |unwindStack| == 0 {
        return Fail(IndexOutOfBounds);
      }
      var unwind;
      r, unwind := PopAndVerifyType(expected, Last(stackLimit), Last(unwindStack));
      unwindStack := SetLast(unwindStack, unwind);
    }

    /** Pop `ts[|ts|-1]` down to `ts[0]` (the first loop of `validateReturns`). */
    method PopTypes(ts: seq<ValueType>, limit: int, unwind: seq<ValueType>)
      returns (r: Outcome<WasmError>, unwindOut: seq<ValueType>)
      modifies this
      ensures Agrees(r, PopAll(old(valueTypeStack), ts, limit, unwind), Popped(valueTypeStack, unwindOut))
      ensures stackLimit == old(stackLimit) && frameResults == old(frameResults) && unwindStack == old(unwindStack)
    {
      unwindOut := unwind;
      var j := |ts| - 1;
      assert ts[..j + 1] == ts;
      while j >= 0
        invariant -1 <= j < |ts|
        invariant PopAll(old(valueTypeStack), ts, limit, unwind) == PopAll(valueTypeStack, ts[..j + 1], limit, unwindOut)
        invariant stackLimit == old(stackLimit) && frameResults == old(frameResults) && unwindStack == old(unwindStack)
      {
        assert Last(ts[..j + 1]) == ts[j] && DropLast(ts[..j + 1]) == ts[..j];
        r, unwindOut := PopAndVerifyType(Some(ts[j]), limit, unwindOut);
        if r.Fail? {
          return;
        }
        j := j - 1;
      }
      r := Pass;
    }

    /** Push `ts[0]`, `ts[1]`, ... onto the front. */
    method PushTypes(ts: seq<ValueType>)
      modifies this
      ensures valueTypeStack == PushAll(old(valueTypeStack), ts)
      ensures stackLimit == old(stackLimit) && frameResults == old(frameResults) && unwindStack == old(unwindStack)
    {
      for j := 0 to |ts|
        invariant valueTypeStack == Reverse(ts[..j]) + old(valueTypeStack)
        invariant stackLimit == old(stackLimit) && frameResults == old(frameResults) && unwindStack == old(unwindStack)
      {
        assert Reverse(ts[..j + 1]) == [ts[j]] + Reverse(ts[..j]);
        valueTypeStack := [ts[j]] + valueTypeStack;
      }
      assert ts[..|ts|] == ts;
    }

    /** `validateReturns(expected, limit, unwind)`. */
    method ValidateReturnsAt(expected: seq<ValueType>, limit: int, unwind: seq<ValueType>)
      returns (r: Outcome<WasmError>, unwindOut: seq<ValueType>)
      modifies this
      ensures Agrees(r, ValidateReturns(old(valueTypeStack), expected, limit, unwind), Popped(valueTypeStack, unwindOut))
      ensures stackLimit == old(stackLimit) && frameResults == old(frameResults) && unwindStack == old(unwindStack)
    {
      r, unwindOut := PopTypes(expected, limit, unwind);
      if r.Fail? {
        return;
      }
      PushTypes(expected);
    }

    /** `while (valueTypeStack.size() > limit) valueTypeStack.pop();` */
    method TruncateTo(limit: nat)
      modifies this
      ensures valueTypeStack == Truncate(old(valueTypeStack), limit)
      ensures stackLimit == old(stackLimit) && frameResults == old(frameResults) && unwindStack == old(unwindStack)
    {
      while |valueTypeStack| > limit
        invariant |valueTypeStack| <= |old(valueTypeStack)|
        invariant valueTypeStack == old(valueTypeStack)[|old(valueTypeStack)| - |valueTypeStack|..]
        invariant |valueTypeStack| >= if |old(valueTypeStack)| > limit then limit else |old(valueTypeStack)|
        invariant stackLimit == old(stackLimit) && frameResults == old(frameResults) && unwindStack == old(unwindStack)
      {
        valueTypeStack := valueTypeStack[1..];
      }
    }

    /** The fixed-signature cases: pop the parameters, push the results. */
    method ApplySignatureM(sig: FunctionType) returns (r: Outcome<WasmError>)
      modifies this
      ensures Agrees(r, ApplySignature(old(State()), sig), State())
    {
      if sig.params != [] {
        if |stackLimit| == 0 || |unwindStack| == 0 {
          return Fail(IndexOutOfBounds);
        }
        var unwind;
        r, unwind := PopTypes(sig.params, Last(stackLimit), Last(unwindStack));
        if r.Fail? {
          return;
        }
        unwindStack := SetLast(unwindStack, unwind);
      }
      PushTypes(sig.results);
      r := Pass;
    }

    /** The first switch of the loop of `validate`. */
    method ControlStepM(env: Env, ft: FunctionType, instrs: seq<Instruction>, i: nat)
      returns (r: Outcome<WasmError>, next: nat)
      requires i < |instrs|
      modifies this
      ensures Agrees(r, ControlStep(env, ft, instrs, old(State()), i), (State(), next))
    {
      var op := instrs[i];
      next := i;
      r := Pass;
      if op.opcode == If || op.opcode == Loop || op.opcode == Block {
        if op.opcode == If {
          r := PopAndVerifyTop(Some(I32));
          if r.Fail? {
            return;
          }
        }
        if |op.operands| == 0 {
          return Fail(IndexOutOfBounds), i;
        }
        var typeId := IntOperand(op, 0);
        stackLimit := stackLimit + [|valueTypeStack|];
        var results := BlockResults(env, typeId);
        if results.Failure? {
          return Fail(results.error), i;
        }
        frameResults := frameResults + [results.value];
        unwindStack := unwindStack + [[]];
      } else if op.opcode == Else {
        if |stackLimit| == 0 || |unwindStack| == 0 {
          return Fail(IndexOutOfBounds), i;
        }
        TruncateTo(Last(stackLimit));
        unwindStack := SetLast(unwindStack, []);
      } else if op.opcode == Return {
        if |stackLimit| == 0 || |unwindStack| == 0 {
          return Fail(IndexOutOfBounds), i;
        }
        var limit := Last(stackLimit);
        var unwind;
        r, unwind := ValidateReturnsAt(ft.results, limit, Last(unwindStack));
        if r.Fail? {
          return;
        }
        unwindStack := SetLast(unwindStack, unwind);
        TruncateTo(limit);
        PushTypes(ft.results);
        next := JumpToNextEndOrElse(instrs, op, i);
      } else if op.opcode == Br {
        if !(0 <= op.labelTrue < |instrs|) {
          return Fail(IndexOutOfBounds), i;
        }
        var d := instrs[op.labelTrue].depth;
        if !(0 <= d < |frameResults|) || !(d < |stackLimit|) || !(d < |unwindStack|) {
          return Fail(IndexOutOfBounds), i;
        }
        var unwind;
        r, unwind := ValidateReturnsAt(frameResults[d], stackLimit[d], unwindStack[d]);
        if r.Fail? {
          return;
        }
        unwindStack := unwindStack[d := unwind];
        next := JumpToNextEndOrElse(instrs, op, i);
      } else if op.opcode == BrIf || op.opcode == BrTable {
        r := PopAndVerifyTop(Some(I32));
        if r.Fail? {
          return;
        }
        if |frameResults| == 0 || |stackLimit| == 0 || |unwindStack| == 0 {
          return Fail(IndexOutOfBounds), i;
        }
        var unwind;
        r, unwind := ValidateReturnsAt(Last(frameResults), Last(stackLimit), Last(unwindStack));
        if r.Fail? {
          return;
        }
        unwindStack := SetLast(unwindStack, unwind);
      } else if op.opcode == End {
        if |frameResults| == 0 || |stackLimit| == 0 || |unwindStack| == 0 {
          return Fail(IndexOutOfBounds), i;
        }
        var expected, limit, unwind := Last(frameResults), Last(stackLimit), Last(unwindStack);
        frameResults, stackLimit, unwindStack := DropLast(frameResults), DropLast(stackLimit), DropLast(unwindStack);
        r, unwind := ValidateReturnsAt(expected, limit, unwind);
        if r.Fail? {
          return;
        }
        if unwind != [] {
          TruncateTo(limit);
          PushTypes(unwind);
          PushTypes(expected);
        }
      }
    }

    /** The third switch of the loop of `validate`. */
    method OperandStepM(env: Env, ft: FunctionType, localTypes: seq<ValueType>, op: Instruction)
      returns (r: Outcome<WasmError>)
      modifies this
      ensures Agrees(r, OperandStep(env, ft, localTypes, old(State()), op), State())
    {
      var o := op.opcode;
      var sig := Signature(o);
      if sig.Some? {
        r := ApplySignatureM(sig.value);
        return;
      }
      r := Pass;
      if IsControlOp(o) {
        return;
      }
      if o == Drop {
        r := PopAndVerifyTop(None);
        return;
      }
      if o == RefIsNull {
        var ref := Poll();
        if ref.None? {
          return Fail(NullPointer);
        }
        if !ref.value.IsReference() {
          return Fail(NotReference(ref.value));
        }
        valueTypeStack := [I32] + valueTypeStack;
        return;
      }
      if o == Select || o == SelectT {
        r := PopAndVerifyTop(Some(I32));
        if r.Fail? {
          return;
        }
        var a := Poll();
        var b := Poll();
        if o == Select {
          valueTypeStack := [Unknown] + valueTypeStack;
          return;
        }
        if a != b {
          return Fail(TypeMismatch(a, b));
        }
        if a.None? {
          return Fail(NullPointer);
        }
        valueTypeStack := [a.value] + valueTypeStack;
        return;
      }
      if o !in {DataDrop, LocalSet, LocalGet, LocalTee, GlobalGet, GlobalSet, Call, CallIndirect, RefNull} {
        return Fail(MissingRule(o));
      }
      // every remaining case reads operand 0
      if |op.operands| == 0 {
        return Fail(IndexOutOfBounds);
      }
      var index := IntOperand(op, 0);
      if o == DataDrop {
        if env.memory.NoMemory? || env.memory.dataSegments.None? || index >= env.memory.dataSegments.value {
          return Fail(UnknownDataSegment(index));
        }
      } else if o == LocalSet || o == LocalGet || o == LocalTee {
        var t := LocalType(ft, localTypes, index);
        if t.Failure? {
          return Fail(t.error);
        }
        if o != LocalGet {
          r := PopAndVerifyTop(Some(t.value));
          if r.Fail? {
            return;
          }
        }
        if o != LocalSet {
          valueTypeStack := [t.value] + valueTypeStack;
        }
      } else if o == GlobalGet || o == GlobalSet {
        var t := GlobalType(env, index);
        if t.Failure? {
          return Fail(t.error);
        }
        if o == GlobalGet {
          valueTypeStack := [t.value] + valueTypeStack;
        } else {
          r := PopAndVerifyTop(Some(t.value));
        }
      } else if o == Call || o == CallIndirect {
        var typeId := index;
        if o == Call {
          var ftIndex := FunctionTypeAt(env.functionTypes, index);
          if ftIndex.Failure? {
            return Fail(ftIndex.error);
          }
          typeId := ftIndex.value;
        } else {
          r := PopAndVerifyTop(Some(I32));
          if r.Fail? {
            return;
          }
        }
        var callee := TypeAt(env.types, typeId);
        if callee.Failure? {
          return Fail(callee.error);
        }
        r := ApplySignatureM(callee.value);
      } else {
        if !IsValidTypeId(index) {
          return Fail(InvalidValueType(index));
        }
        valueTypeStack := [ForId(index)] + valueTypeStack;
      }
    }

    /** One iteration of the loop of `validate`. */
    method StepM(env: Env, ft: FunctionType, localTypes: seq<ValueType>, instrs: seq<Instruction>, i: nat)
      returns (r: Outcome<WasmError>, next: nat)
      requires i < |instrs|
      modifies this
      ensures Agrees(r, Step(env, ft, localTypes, instrs, old(State()), i), (State(), next))
    {
      ghost var before := State();
      StepOfParts(env, ft, localTypes, instrs, before, i);
      r, next := ControlStepM(env, ft, instrs, i);
      if r.Fail? {
        return;
      }
      r := ToOutcome(MemoryStep(env, instrs[i]));
      if r.Fail? {
        return;
      }
      r := OperandStepM(env, ft, localTypes, instrs[i]);
    }

    /** One iteration of the loop of `validate`, stated against the rest of the loop. */
    method IterateM(env: Env, ft: FunctionType, localTypes: seq<ValueType>, instrs: seq<Instruction>, i: nat)
      returns (r: Outcome<WasmError>, next: nat)
      requires i < |instrs|
      modifies this
      ensures r.Pass? ==> i <= next < |instrs|
      ensures r.Pass? ==> Iterate(env, ft, localTypes, instrs, old(State()), i) == Run(env, ft, localTypes, instrs, State(), next + 1)
      ensures r.Fail? ==> Iterate(env, ft, localTypes, instrs, old(State()), i) == Failure(r.error)
    {
      ghost var before := State();
      r, next := StepM(env, ft, localTypes, instrs, i);
      StepAdvances(env, ft, localTypes, instrs, before, i, r, State(), next);
    }

    /** The loop of `validate`: the three switches on each instruction in turn. */
    method RunLoop(env: Env, ft: FunctionType, localTypes: seq<ValueType>, instrs: seq<Instruction>)
      returns (r: Outcome<WasmError>)
      modifies this
      ensures Agrees(r, Run(env, ft, localTypes, instrs, old(State()), 0), State())
    {
      ghost var goal := Run(env, ft, localTypes, instrs, State(), 0);
      var i := 0;
      while i < |instrs|
        invariant 0 <= i <= |instrs|
        invariant goal == Run(env, ft, localTypes, instrs, State(), i)
        decreases |instrs| - i
      {
        var next;
        r, next := IterateM(env, ft, localTypes, instrs, i);
        if r.Fail? {
          return;
        }
        i := next + 1;
      }
      r := Pass;
    }

    /** `validate(body, functionType, instance)`: open the body's frame, then run the loop. */
    method Validate(body: FunctionBody, ft: FunctionType, env: Env) returns (r: Outcome<WasmError>)
      modifies this
      ensures r == ToOutcome(ValidateFrom(body, ft, env, old(State())))
    {
      stackLimit := stackLimit + [0];
      frameResults := frameResults + [ft.results];
      unwindStack := unwindStack + [[]];
      assert State() == OpenBody(old(State()), ft);
      r := RunLoop(env, ft, body.localTypes, body.instructions);
    }
  }

  /** `jumpToNextEndOrElse(instructions, op, currentPos)`: scan forward from
      `currentPos` while the instructions stay at `op`'s depth and are neither
      `END` nor `ELSE`; the result is the last one scanned over. */
  method JumpToNextEndOrElse(instrs: seq<Instruction>, op: Instruction, currentPos: nat) returns (r: nat)
    requires currentPos < |instrs|
    ensures r == JumpTarget(instrs, op.depth, currentPos)
  {
    var offset := 0;
    while true
      invariant 0 <= offset && currentPos + offset < |instrs|
      invariant forall k :: currentPos < k <= currentPos + offset ==> !Stops(instrs, op.depth, k)
      decreases |instrs| - currentPos - offset
    {
      offset := offset + 1;
      if |instrs| > currentPos + offset {
        var tmp := instrs[currentPos + offset];
        if !(tmp.depth == op.depth && tmp.opcode != End && tmp.opcode != Else) {
          break;
        }
      } else {
        break;
      }
    }
    r := offset + currentPos - 1;
    JumpTargetUnique(instrs, op.depth, currentPos, r);
  }

  /** The stopping point of the scan is unique. */
  lemma {:induction false} JumpTargetUnique(instrs: seq<Instruction>, depth: int, pos: nat, r: nat)
    requires pos <= r < |instrs|
    requires forall k :: pos < k <= r ==> !Stops(instrs, depth, k)
    requires Stops(instrs, depth, r + 1)
    ensures r == JumpTarget(instrs, depth, pos)
    decreases r - pos
  {
    if pos < r {
      assert !Stops(instrs, depth, pos + 1);
      JumpTargetUnique(instrs, depth, pos + 1, r);
    }
  }

  /** `new TypeValidator().validate(body, functionType, instance)`. */
  method ValidateFunction(body: FunctionBody, ft: FunctionType, env: Env) returns (r: Outcome<WasmError>)
    ensures r == ToOutcome(ValidationResult(body, ft, env))
  {
    var validator := new TypeValidator();
    r := validator.Validate(body, ft, env);
  }
}
