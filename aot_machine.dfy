/** The driver of the ahead-of-time compiler: which opcodes have an emitter and
    of which kind, how one function body is translated, where parameters live
    in JVM local slots, which JVM return instruction ends a method, how the
    generated class and the compiled-function table are laid out, and how a
    call reports what the compiled code threw. The JVM code that emitters and
    the class writer produce is modelled as a sequence of abstract tokens. */
module AotMachines {
  import opened Wrappers
  import opened WasmTypes

  // ---------------------------------------------------------------------------
  // The emitter table
  // ---------------------------------------------------------------------------

  /** How the table compiles an opcode: inline JVM code (`intrinsic`), or a call
      into the interpreter's own implementation of the opcode (`shared`). */
  datatype EmitterKind = Intrinsic | Shared

  /** The opcodes registered with `intrinsic`. */
  predicate IsIntrinsicOp(op: OpCode) {
    op == Drop || op == ElemDrop || op == Select || op == SelectT || op == Call
    || op == CallIndirect || op == RefFunc || op == RefNull || op == RefIsNull || op == LocalGet
    || op == LocalSet || op == LocalTee || op == GlobalGet || op == GlobalSet || op == TableGet
    || op == TableSet || op == TableSize || op == TableGrow || op == TableFill || op == TableCopy
    || op == TableInit || op == MemoryInit || op == MemoryCopy || op == MemoryFill || op == MemoryGrow
    || op == MemorySize || op == DataDrop || op == I32Load || op == I32Load8S || op == I32Load8U
    || op == I32Load16S || op == I32Load16U || op == I64Load || op == I64Load8S || op == I64Load8U
    || op == I64Load16S || op == I64Load16U || op == I64Load32S || op == I64Load32U || op == F32Load
    || op == F64Load || op == I32Store || op == I32Store8 || op == I32Store16 || op == I64Store
    || op == I64Store8 || op == I64Store16 || op == I64Store32 || op == F32Store || op == F64Store
    || op == I32Add || op == I32And || op == I32Const || op == I32Mul || op == I32Or
    || op == I32Shl || op == I32ShrS || op == I32ShrU || op == I32Sub || op == I32WrapI64
    || op == I32Xor || op == I64Add || op == I64And || op == I64Const || op == I64ExtendI32S
    || op == I64Mul || op == I64Or || op == I64Shl || op == I64ShrS || op == I64ShrU
    || op == I64Sub || op == I64Xor || op == F32Add || op == F32Const || op == F32DemoteF64
    || op == F32Div || op == F32Mul || op == F32Neg || op == F32Sub || op == F64Add
    || op == F64Const || op == F64Div || op == F64Mul || op == F64Neg || op == F64PromoteF32
    || op == F64Sub
  }

  /** The opcodes registered with `shared`. */
  predicate IsSharedOp(op: OpCode) {
    op == I32Clz || op == I32Ctz || op == I32DivS || op == I32DivU || op == I32Eq
    || op == I32Eqz || op == I32Extend8S || op == I32Extend16S || op == I32GeS || op == I32GeU
    || op == I32GtS || op == I32GtU || op == I32LeS || op == I32LeU || op == I32LtS
    || op == I32LtU || op == I32Ne || op == I32Popcnt || op == I32ReinterpretF32 || op == I32RemS
    || op == I32RemU || op == I32Rotl || op == I32Rotr || op == I32TruncF32S || op == I32TruncF32U
    || op == I32TruncF64S || op == I32TruncF64U || op == I32TruncSatF32S || op == I32TruncSatF32U || op == I32TruncSatF64S
    || op == I32TruncSatF64U || op == I64Clz || op == I64Ctz || op == I64DivS || op == I64DivU
    || op == I64Eq || op == I64Eqz || op == I64Extend8S || op == I64Extend16S || op == I64Extend32S
    || op == I64ExtendI32U || op == I64GeS || op == I64GeU || op == I64GtS || op == I64GtU
    || op == I64LeS || op == I64LeU || op == I64LtS || op == I64LtU || op == I64Ne
    || op == I64Popcnt || op == I64RemS || op == I64RemU || op == I64Rotl || op == I64Rotr
    || op == I64ReinterpretF64 || op == I64TruncF32S || op == I64TruncF32U || op == I64TruncF64S || op == I64TruncF64U
    || op == I64TruncSatF32S || op == I64TruncSatF32U || op == I64TruncSatF64S || op == I64TruncSatF64U || op == F32Abs
    || op == F32Ceil || op == F32ConvertI32S || op == F32ConvertI32U || op == F32ConvertI64S || op == F32ConvertI64U
    || op == F32Copysign || op == F32Eq || op == F32Floor || op == F32Ge || op == F32Gt
    || op == F32Le || op == F32Lt || op == F32Max || op == F32Min || op == F32Ne
    || op == F32Nearest || op == F32ReinterpretI32 || op == F32Sqrt || op == F32Trunc || op == F64Abs
    || op == F64Ceil || op == F64ConvertI32S || op == F64ConvertI32U || op == F64ConvertI64S || op == F64ConvertI64U
    || op == F64Copysign || op == F64Eq || op == F64Floor || op == F64Ge || op == F64Gt
    || op == F64Le || op == F64Lt || op == F64Max || op == F64Min || op == F64Ne
    || op == F64Nearest || op == F64ReinterpretI64 || op == F64Sqrt || op == F64Trunc
  }

  /** The structured control instructions, for which the table has no emitter. */
  predicate IsStructuredControl(op: OpCode) {
    op == Block || op == Loop || op == If || op == Else || op == Br || op == BrIf || op == BrTable
  }

  /** The instructions `compileBody` handles itself, before consulting the table. */
  predicate IsBookkeeping(op: OpCode) {
    op == Nop || op == End || op == Unreachable || op == Return
  }

  /** The emitter registered for `op`, if any. */
  function EmitterFor(op: OpCode): (r: Option<EmitterKind>)
    ensures IsStructuredControl(op) ==> r.None?
    ensures IsBookkeeping(op) ==> r.None?
    ensures op == Call || op == CallIndirect || op == I32Const || op == I64Const ==> r == Some(Intrinsic)
    ensures op == I32TruncSatF32S || op == I64TruncSatF64U || op == F32Nearest || op == I64Rotl ==> r == Some(Shared)
  {
    if IsIntrinsicOp(op) then Some(Intrinsic)
    else if IsSharedOp(op) then Some(Shared)
    else None
  }

  /** An opcode neither handled by `compileBody` itself nor registered in the table. */
  predicate Unsupported(op: OpCode) {
    !IsBookkeeping(op) && EmitterFor(op).None?
  }

  // ---------------------------------------------------------------------------
  // Emitted code, as tokens
  // ---------------------------------------------------------------------------

  /** The JVM class of a compiled function's native return value. */
  datatype JvmClass = IntClass | LongClass | FloatClass | DoubleClass | VoidClass | OtherClass(name: string)

  /** The JVM return instructions (their opcodes in the JVM instruction set). */
  const IRETURN: int := 172
  const LRETURN: int := 173
  const FRETURN: int := 174
  const DRETURN: int := 175
  const RETURN: int := 177

  /** A parameter to be boxed into the `Value[]` argument array: its type and its slot. */
  datatype ArgSlot = ArgSlot(vtype: ValueType, slot: nat)

  /** One unit of emitted JVM code. */
  datatype Token =
    | PushDefault(vtype: ValueType)        // load the default value of a local's type
    | StoreLocal(index: nat)               // store into Wasm local `index`
    | ThrowTrap                            // raise the trap for `unreachable`
    | Emitted(kind: EmitterKind, ins: Instruction) // whatever the table's emitter writes for `ins`
    | JvmInsn(opcode: int)                 // a bare JVM instruction (the return instructions)
    | PushInt(value: int)                  // an `int` constant
    | LoadInt(slot: nat)                   // ILOAD
    | LoadRef(slot: nat)                   // ALOAD
    | BoxArguments(args: seq<ArgSlot>)     // box the listed parameters into a fresh `Value[]`
    | InvokeCallIndirect                   // call the runtime's indirect-call helper
    | InvokeCallHostFunction               // call `Instance.callHostFunction`
    | UnboxFirstResult(vtype: ValueType)   // take element 0 of the returned `Value[]` and unbox it

  datatype AotError =
    // ChicoryException "JVM compilation failed: opcode is not supported: <op>"
    | OpcodeNotSupported(opcode: OpCode)
    // ChicoryException "Unsupported return type: <class name>"
    | UnsupportedReturnType(className: string)

  /** The JVM class a Wasm value type is carried in; references are table indices. */
  function JvmType(t: ValueType): JvmClass {
    match t
    case I32 => IntClass
    case FuncRef => IntClass
    case ExternRef => IntClass
    case I64 => LongClass
    case F32 => FloatClass
    case F64 => DoubleClass
    case V128 => OtherClass("V128")
    case Unknown => OtherClass("UNKNOWN")
  }

  /** The JVM return class of a function type: `void` without results, the
      result's class with one, `Value[]` for several. */
  function JvmReturnType(ft: FunctionType): JvmClass {
    if |ft.results| == 0 then VoidClass
    else if |ft.results| == 1 then JvmType(ft.results[0])
    else OtherClass("Value[]")
  }

  /** The class a JVM return instruction returns, if `op` is one. */
  function ReturnedClass(op: int): Option<JvmClass> {
    if op == IRETURN then Some(IntClass)
    else if op == LRETURN then Some(LongClass)
    else if op == FRETURN then Some(FloatClass)
    else if op == DRETURN then Some(DoubleClass)
    else if op == RETURN then Some(VoidClass)
    else None
  }

  /** `returnTypeOpcode`: the return instruction for a JVM return class. */
  function ReturnTypeOpcode(c: JvmClass): (r: Result<int, AotError>)
    ensures r.Success? <==> !c.OtherClass?
    ensures r.Success? ==> ReturnedClass(r.value) == Some(c)
    ensures r.Failure? ==> r.error == UnsupportedReturnType(c.name)
  {
    match c
    case IntClass => Success(IRETURN)
    case LongClass => Success(LRETURN)
    case FloatClass => Success(FRETURN)
    case DoubleClass => Success(DRETURN)
    case VoidClass => Success(RETURN)
    case OtherClass(name) => Failure(UnsupportedReturnType(name))
  }

  // ---------------------------------------------------------------------------
  // Translating one body
  // ---------------------------------------------------------------------------

  /** What `tryEmit` did with an instruction: the code its emitter wrote, and
      whether translation goes on (false when the emitter signalled a trap). */
  datatype EmitStep = EmitStep(token: Token, continues: bool)

  /** `tryEmit`. Which emitters signal `EmitterTrapException` is decided by the
      emitter bodies; `traps` says which instructions they signal it for. */
  function TryEmit(ins: Instruction, traps: Instruction -> bool): (r: Result<EmitStep, AotError>)
    ensures r.Failure? <==> EmitterFor(ins.opcode).None?
    ensures r.Failure? ==> r.error == OpcodeNotSupported(ins.opcode)
    ensures r.Success? ==> r.value.continues == !traps(ins)
  {
    match EmitterFor(ins.opcode)
    case None => Failure(OpcodeNotSupported(ins.opcode))
    case Some(kind) => Success(EmitStep(Emitted(kind, ins), !traps(ins)))
  }

  /** The code emitted for a run of instructions, and whether a terminal
      instruction stopped translation before the run's end. */
  datatype Translation = Translation(tokens: seq<Token>, stopped: bool)

  /** The instruction-by-instruction translation of `compileBody`'s loop. */
  function Translate(body: seq<Instruction>, ft: FunctionType, traps: Instruction -> bool): Result<Translation, AotError>
    decreases |body|
  {
    if body == [] then Success(Translation([], false))
    else
      var ins := body[0];
      if ins.opcode == Nop || ins.opcode == End then Translate(body[1..], ft, traps)
      else if ins.opcode == Unreachable then Success(Translation([ThrowTrap], true))
      else if ins.opcode == Return then
        var op :- ReturnTypeOpcode(JvmReturnType(ft));
        Success(Translation([JvmInsn(op)], true))
      else
        var step :- TryEmit(ins, traps);
        if !step.continues then Success(Translation([step.token], true))
        else
          var rest :- Translate(body[1..], ft, traps);
          Success(Translation([step.token] + rest.tokens, rest.stopped))
  }

  /** `tokens` emitted ahead of a translation that is still to come. */
  function Prefixed(tokens: seq<Token>, r: Result<Translation, AotError>): Result<Translation, AotError> {
    match r
    case Success(t) => Success(Translation(tokens + t.tokens, t.stopped))
    case Failure(e) => Failure(e)
  }

  /** The local-initialisation prologue for the declared locals `localTypes`,
      which follow `paramCount` parameters. */
  function LocalsInit(paramCount: nat, localTypes: seq<ValueType>): seq<Token>
    decreases |localTypes|
  {
    if localTypes == [] then []
    else
      var n := |localTypes| - 1;
      LocalsInit(paramCount, localTypes[..n]) + [PushDefault(localTypes[n]), StoreLocal(paramCount + n)]
  }

  /** The code `compileBody` generates: the prologue, the translated
      instructions, and the return instruction when translation ran to the end. */
  function BodyCode(ft: FunctionType, localTypes: seq<ValueType>, body: seq<Instruction>, traps: Instruction -> bool): Result<seq<Token>, AotError> {
    var t :- Translate(body, ft, traps);
    if t.stopped then Success(LocalsInit(|ft.params|, localTypes) + t.tokens)
    else
      var op :- ReturnTypeOpcode(JvmReturnType(ft));
      Success(LocalsInit(|ft.params|, localTypes) + t.tokens + [JvmInsn(op)])
  }

  /** One step of `Translate` on the suffix `body[j..]`. */
  lemma TranslateSuffixStep(body: seq<Instruction>, j: nat, ft: FunctionType, traps: Instruction -> bool)
    requires j < |body|
    ensures body[j..][0] == body[j] && body[j..][1..] == body[j + 1..]
  {
  }

  /** The first loop of `compileBody`: store the default value of each
      declared local. */
  method InitLocals(paramCount: nat, localTypes: seq<ValueType>) returns (code: seq<Token>)
    ensures code == LocalsInit(paramCount, localTypes)
  {
    var localsCount := paramCount + |localTypes|;
    code := [];
    var i := paramCount;
    while i < localsCount
      invariant paramCount <= i <= localsCount
      invariant code == LocalsInit(paramCount, localTypes[..i - paramCount])
    {
      assert localTypes[..i - paramCount + 1][..i - paramCount] == localTypes[..i - paramCount];
      code := code + [PushDefault(localTypes[i - paramCount]), StoreLocal(i)];
      i := i + 1;
    }
    assert localTypes[..|localTypes|] == localTypes;
  }

  /** `compileBody`: initialise the declared locals, then translate the
      instructions in order until one of them ends translation. */
  method CompileBody(ft: FunctionType, localTypes: seq<ValueType>, body: seq<Instruction>, traps: Instruction -> bool)
    returns (r: Result<seq<Token>, AotError>)
    ensures r == BodyCode(ft, localTypes, body, traps)
  {
    var code := InitLocals(|ft.params|, localTypes);
    var prologue := code;
    var emitted: seq<Token> := [];
    var j := 0;
    assert body[0..] == body;
    assert Translate(body, ft, traps) == Prefixed([], Translate(body, ft, traps)) by {
      assert forall t: seq<Token> :: [] + t == t;
    }
    while j < |body|
      invariant 0 <= j <= |body|
      invariant code == prologue + emitted
      invariant Translate(body, ft, traps) == Prefixed(emitted, Translate(body[j..], ft, traps))
    {
      var ins := body[j];
      TranslateSuffixStep(body, j, ft, traps);
      if ins.opcode == Nop || ins.opcode == End {
      } else if ins.opcode == Unreachable {
        emitted := emitted + [ThrowTrap];
        return Success(prologue + emitted);
      } else if ins.opcode == Return {
        var op := ReturnTypeOpcode(JvmReturnType(ft));
        if op.Failure? {
          return Failure(op.error);
        }
        emitted := emitted + [JvmInsn(op.value)];
        return Success(prologue + emitted);
      } else {
        var step := TryEmit(ins, traps);
        if step.Failure? {
          return Failure(step.error);
        }
        ghost var before := emitted;
        emitted := emitted + [step.value.token];
        code := prologue + emitted;
        if !step.value.continues {
          return Success(code);
        }
        assert Translate(body[j..], ft, traps) == Prefixed([step.value.token], Translate(body[j + 1..], ft, traps));
        assert forall t: seq<Token> :: before + ([step.value.token] + t) == emitted + t;
      }
      j := j + 1;
    }
    var op := ReturnTypeOpcode(JvmReturnType(ft));
    if op.Failure? {
      return Failure(op.error);
    }
    assert emitted + [] == emitted;
    return Success(prologue + emitted + [JvmInsn(op.value)]);
  }

  // ---------------------------------------------------------------------------
  // What the translation does
  // ---------------------------------------------------------------------------

  /** An instruction after which translation goes on. */
  predicate Passes(ins: Instruction, traps: Instruction -> bool) {
    ins.opcode == Nop || ins.opcode == End || (EmitterFor(ins.opcode).Some? && !traps(ins))
  }

  /** An instruction that ends translation: a trap, a return, or an emitter
      signalling a trap. */
  predicate Stops(ins: Instruction, traps: Instruction -> bool) {
    ins.opcode == Unreachable || ins.opcode == Return || (EmitterFor(ins.opcode).Some? && traps(ins))
  }

  /** The table's code for each instruction of `body` except `nop` and `end`, in order. */
  function Emissions(body: seq<Instruction>): seq<Token>
    decreases |body|
  {
    if body == [] then []
    else
      var op := body[0].opcode;
      var here := if EmitterFor(op).Some? && op != Nop && op != End then [Emitted(EmitterFor(op).value, body[0])] else [];
      here + Emissions(body[1..])
  }

  /** Translation runs to the end of a body exactly when every instruction lets
      it pass, and then it emits the table's code for each non-`nop`/`end`
      instruction in order. */
  lemma {:induction false} FallthroughIffAllPass(body: seq<Instruction>, ft: FunctionType, traps: Instruction -> bool)
    ensures (Translate(body, ft, traps).Success? && !Translate(body, ft, traps).value.stopped)
            <==> (forall i :: 0 <= i < |body| ==> Passes(body[i], traps))
    ensures (forall i :: 0 <= i < |body| ==> Passes(body[i], traps))
            ==> Translate(body, ft, traps) == Success(Translation(Emissions(body), false))
    decreases |body|
  {
    if body != [] {
      var rest := body[1..];
      FallthroughIffAllPass(rest, ft, traps);
      var allPass := forall i :: 0 <= i < |body| ==> Passes(body[i], traps);
      var restPass := forall i :: 0 <= i < |rest| ==> Passes(rest[i], traps);
      assert allPass <==> Passes(body[0], traps) && restPass by {
        if Passes(body[0], traps) && restPass {
          forall i | 0 <= i < |body| ensures Passes(body[i], traps) {
            if i > 0 {
              assert rest[i - 1] == body[i];
            }
          }
        }
        if allPass {
          forall i | 0 <= i < |rest| ensures Passes(rest[i], traps) {
            assert rest[i] == body[i + 1];
          }
        }
      }
      if allPass {
        var op := body[0].opcode;
        if op == Nop || op == End {
          assert Translate(body, ft, traps) == Translate(rest, ft, traps);
          assert EmitterFor(op).None?;
          assert Emissions(body) == [] + Emissions(rest) == Emissions(rest);
        } else {
          assert Emissions(body) == [Emitted(EmitterFor(op).value, body[0])] + Emissions(rest);
        }
      }
    }
  }

  /** Once an instruction stops translation, nothing after it matters. */
  lemma {:induction false} StopIgnoresRest(body: seq<Instruction>, k: nat, ft: FunctionType, traps: Instruction -> bool)
    requires k < |body| && Stops(body[k], traps)
    ensures Translate(body, ft, traps) == Translate(body[..k + 1], ft, traps)
    decreases k
  {
    var prefix := body[..k + 1];
    assert prefix[0] == body[0];
    if k > 0 {
      assert prefix[1..] == body[1..][..k];
      StopIgnoresRest(body[1..], k - 1, ft, traps);
    }
  }

  /** The first instruction that neither lets translation pass nor stops it —
      an opcode without an emitter — fails the whole translation, whatever follows. */
  lemma {:induction false} FirstUnsupportedFails(body: seq<Instruction>, k: nat, ft: FunctionType, traps: Instruction -> bool)
    requires k < |body| && Unsupported(body[k].opcode)
    requires forall i :: 0 <= i < k ==> Passes(body[i], traps)
    ensures Translate(body, ft, traps) == Failure(OpcodeNotSupported(body[k].opcode))
    decreases k
  {
    if k > 0 {
      assert Passes(body[0], traps);
      assert forall i :: 0 <= i < k - 1 ==> body[1..][i] == body[i + 1];
      FirstUnsupportedFails(body[1..], k - 1, ft, traps);
    }
  }

  /** `block`, `loop`, `if`, `else`, `br`, `br_if` and `br_table` have no emitter,
      so a body that reaches one of them does not compile. */
  lemma StructuredControlRejected(ft: FunctionType, localTypes: seq<ValueType>, body: seq<Instruction>, k: nat, traps: Instruction -> bool)
    requires k < |body| && IsStructuredControl(body[k].opcode)
    requires forall i :: 0 <= i < k ==> Passes(body[i], traps)
    ensures BodyCode(ft, localTypes, body, traps) == Failure(OpcodeNotSupported(body[k].opcode))
  {
    FirstUnsupportedFails(body, k, ft, traps);
  }

  /** A body starting with `unreachable` compiles to the prologue and a trap,
      even when its return type has no return instruction. */
  lemma UnreachableFirst(ft: FunctionType, localTypes: seq<ValueType>, body: seq<Instruction>, traps: Instruction -> bool)
    requires |body| > 0 && body[0].opcode == Unreachable
    ensures BodyCode(ft, localTypes, body, traps) == Success(LocalsInit(|ft.params|, localTypes) + [ThrowTrap])
  {
  }

  /** The prologue stores the default value of each declared local, in order,
      into the locals numbered from `paramCount` on. */
  lemma {:induction false} LocalsInitShape(paramCount: nat, localTypes: seq<ValueType>)
    ensures |LocalsInit(paramCount, localTypes)| == 2 * |localTypes|
    ensures forall k :: 0 <= k < |localTypes| ==>
              LocalsInit(paramCount, localTypes)[2 * k] == PushDefault(localTypes[k])
              && LocalsInit(paramCount, localTypes)[2 * k + 1] == StoreLocal(paramCount + k)
    decreases |localTypes|
  {
    if localTypes != [] {
      var n := |localTypes| - 1;
      LocalsInitShape(paramCount, localTypes[..n]);
    }
  }

  // ---------------------------------------------------------------------------
  // Parameter slots
  // ---------------------------------------------------------------------------

  /** JVM local slots a value of type `t` occupies: two for the 64-bit types. */
  function SlotCount(t: ValueType): nat {
    if t == I64 || t == F64 then 2 else 1
  }

  /** Slots taken by the parameters `params`, laid out in order. */
  function SlotsOf(params: seq<ValueType>): nat
    decreases |params|
  {
    if params == [] then 0 else SlotsOf(params[..|params| - 1]) + SlotCount(params[|params| - 1])
  }

  /** The slot loop of `compileCallIndirect` and `compileHostFunction`: the
      slot of each parameter, and the first slot after them. */
  method ParamSlots(params: seq<ValueType>) returns (slots: seq<nat>, slot: nat)
    ensures |slots| == |params| && slot == SlotsOf(params)
    ensures forall i :: 0 <= i < |params| ==> slots[i] == SlotsOf(params[..i])
  {
    slots := [];
    slot := 0;
    var i := 0;
    while i < |params|
      invariant 0 <= i <= |params|
      invariant |slots| == i && slot == SlotsOf(params[..i])
      invariant forall k :: 0 <= k < i ==> slots[k] == SlotsOf(params[..k])
    {
      assert params[..i + 1][..i] == params[..i];
      slots := slots + [slot];
      slot := slot + SlotCount(params[i]);
      i := i + 1;
    }
    assert params[..|params|] == params;
  }

  /** Parameter slots are laid out without overlap, in order, and all lie
      below the first slot after the parameters, where the trailing arguments go. */
  lemma {:induction false} SlotLayout(params: seq<ValueType>, i: nat, j: nat)
    requires i < j <= |params|
    ensures SlotsOf(params[..i]) + SlotCount(params[i]) <= SlotsOf(params[..j])
    ensures SlotsOf(params[..j]) <= SlotsOf(params)
    ensures |params| <= SlotsOf(params) <= 2 * |params|
    decreases |params|
  {
    var n := |params| - 1;
    assert params[..n] == params[..|params|][..n];
    assert params[..|params|] == params;
    if j <= n {
      assert params[..n][..i] == params[..i] && params[..n][..j] == params[..j] && params[..n][i] == params[i];
      SlotLayout(params[..n], i, j);
    } else {
      assert j == |params|;
      if i < n {
        assert params[..n][..i] == params[..i] && params[..n][i] == params[i];
        SlotLayout(params[..n], i, n);
      } else {
        SlotBounds(params[..n]);
      }
    }
  }

  lemma {:induction false} SlotBounds(params: seq<ValueType>)
    ensures |params| <= SlotsOf(params) <= 2 * |params|
    decreases |params|
  {
    if params != [] {
      SlotBounds(params[..|params| - 1]);
    }
  }

  /** The parameters to box, each with its slot. */
  function ArgSlots(params: seq<ValueType>): (r: seq<ArgSlot>)
    ensures |r| == |params|
  {
    seq(|params|, i requires 0 <= i < |params| => ArgSlot(params[i], SlotsOf(params[..i])))
  }

  /** `emitUnboxResult`: a bare `return` for `void`, otherwise unbox element 0
      of the returned array and return it. */
  function UnboxResult(ft: FunctionType): (r: Result<seq<Token>, AotError>)
    ensures JvmReturnType(ft) == VoidClass ==> r == Success([JvmInsn(RETURN)])
    ensures r.Success? ==> |r.value| > 0 && r.value[|r.value| - 1].JvmInsn?
                           && ReturnedClass(r.value[|r.value| - 1].opcode) == Some(JvmReturnType(ft))
    ensures r.Failure? <==> JvmReturnType(ft).OtherClass?
  {
    var c := JvmReturnType(ft);
    if c == VoidClass then Success([JvmInsn(RETURN)])
    else
      var op :- ReturnTypeOpcode(c);
      Success([PushInt(0), UnboxFirstResult(ft.results[0]), JvmInsn(op)])
  }

  /** The code of the indirect-call helper for type `typeId`: box the
      arguments, then pass the type id and the three trailing arguments — the
      table slot, the table index and the instance — which follow the parameters. */
  function CallIndirectCode(typeId: nat, ft: FunctionType): Result<seq<Token>, AotError> {
    var unbox :- UnboxResult(ft);
    var slot := SlotsOf(ft.params);
    Success([BoxArguments(ArgSlots(ft.params)), PushInt(typeId), LoadInt(slot), LoadInt(slot + 1), LoadRef(slot + 2),
             InvokeCallIndirect] + unbox)
  }

  /** The code of the stub for imported function `funcId`: load the instance,
      which follows the parameters and the memory argument, then the function
      id and the boxed arguments, and call the host function through the instance. */
  function HostFunctionCode(funcId: nat, ft: FunctionType): Result<seq<Token>, AotError> {
    var unbox :- UnboxResult(ft);
    Success([LoadRef(SlotsOf(ft.params) + 1), PushInt(funcId), BoxArguments(ArgSlots(ft.params)), InvokeCallHostFunction]
            + unbox)
  }

  /** `compileCallIndirect`. */
  method CompileCallIndirect(typeId: nat, ft: FunctionType) returns (r: Result<seq<Token>, AotError>)
    ensures r == CallIndirectCode(typeId, ft)
  {
    var slots, slot := ParamSlots(ft.params);
    var args := seq(|ft.params|, i requires 0 <= i < |ft.params| => ArgSlot(ft.params[i], slots[i]));
    assert args == ArgSlots(ft.params);
    var code := [BoxArguments(args), PushInt(typeId), LoadInt(slot), LoadInt(slot + 1), LoadRef(slot + 2), InvokeCallIndirect];
    var unbox := UnboxResult(ft);
    if unbox.Failure? {
      return Failure(unbox.error);
    }
    return Success(code + unbox.value);
  }

  /** `compileHostFunction`. */
  method CompileHostFunction(funcId: nat, ft: FunctionType) returns (r: Result<seq<Token>, AotError>)
    ensures r == HostFunctionCode(funcId, ft)
  {
    var slots, slot := ParamSlots(ft.params);
    var args := seq(|ft.params|, i requires 0 <= i < |ft.params| => ArgSlot(ft.params[i], slots[i]));
    assert args == ArgSlots(ft.params);
    var code := [LoadRef(slot + 1), PushInt(funcId), BoxArguments(args), InvokeCallHostFunction];
    var unbox := UnboxResult(ft);
    if unbox.Failure? {
      return Failure(unbox.error);
    }
    return Success(code + unbox.value);
  }

  /** Both stubs box each parameter from its own slot, and read their trailing
      arguments from slots above every parameter slot; they compile exactly
      when the return type has a return instruction. */
  lemma {:induction false} StubArgumentsAboveParams(typeId: nat, funcId: nat, ft: FunctionType, i: nat)
    requires i < |ft.params|
    ensures CallIndirectCode(typeId, ft).Success? <==> !JvmReturnType(ft).OtherClass?
    ensures HostFunctionCode(funcId, ft).Success? <==> !JvmReturnType(ft).OtherClass?
    ensures CallIndirectCode(typeId, ft).Success? ==>
              CallIndirectCode(typeId, ft).value[0] == BoxArguments(ArgSlots(ft.params))
              && CallIndirectCode(typeId, ft).value[2..5]
                 == [LoadInt(SlotsOf(ft.params)), LoadInt(SlotsOf(ft.params) + 1), LoadRef(SlotsOf(ft.params) + 2)]
    ensures HostFunctionCode(funcId, ft).Success? ==>
              HostFunctionCode(funcId, ft).value[0] == LoadRef(SlotsOf(ft.params) + 1)
    ensures ArgSlots(ft.params)[i].vtype == ft.params[i]
    ensures ArgSlots(ft.params)[i].slot + SlotCount(ft.params[i]) <= SlotsOf(ft.params)
  {
    SlotLayout(ft.params, i, |ft.params|);
    assert ft.params[..|ft.params|] == ft.params;
  }

  // ---------------------------------------------------------------------------
  // The generated class and the compiled-function table
  // ---------------------------------------------------------------------------

  /** A local function's decoded body: its declared locals and its instructions. */
  datatype FunctionBody = FunctionBody(localTypes: seq<ValueType>, instructions: seq<Instruction>)

  /** The name of a generated static method (`methodNameFor`, `callIndirectMethodName`). */
  datatype MethodName = FunctionMethod(funcId: nat) | CallIndirectMethod(typeId: nat)

  datatype GeneratedMethod = GeneratedMethod(name: MethodName, code: seq<Token>)

  /** A method the generated class is to hold, with the outcome of compiling its code. */
  datatype Planned = Planned(name: MethodName, code: Result<seq<Token>, AotError>)

  /** The indirect-call helpers, one per type with at most one result, in type order. */
  function HelperPlan(types: seq<FunctionType>): seq<Planned>
    decreases |types|
  {
    if types == [] then []
    else
      var n := |types| - 1;
      HelperPlan(types[..n]) + (if |types[n].results| > 1 then [] else [Planned(CallIndirectMethod(n), CallIndirectCode(n, types[n]))])
  }

  /** The method planned for function `f`: the host stub of an imported
      function, the compiled body of a local one. */
  function FunctionPlanned(functionImports: nat, functionTypes: seq<FunctionType>, bodies: seq<FunctionBody>,
                           traps: Instruction -> bool, f: nat): Planned
    requires |functionTypes| == functionImports + |bodies| && f < |functionTypes|
  {
    Planned(FunctionMethod(f),
            if f < functionImports then HostFunctionCode(f, functionTypes[f])
            else BodyCode(functionTypes[f], bodies[f - functionImports].localTypes,
                          bodies[f - functionImports].instructions, traps))
  }

  /** The methods planned for the functions `0 .. n-1`, in id order. */
  function FunctionPlan(functionImports: nat, functionTypes: seq<FunctionType>, bodies: seq<FunctionBody>,
                        traps: Instruction -> bool, n: nat): seq<Planned>
    requires |functionTypes| == functionImports + |bodies| && n <= |functionTypes|
    decreases n
  {
    if n == 0 then []
    else FunctionPlan(functionImports, functionTypes, bodies, traps, n - 1)
         + [FunctionPlanned(functionImports, functionTypes, bodies, traps, n - 1)]
  }

  /** The methods of the generated class, in the order `compileClass` emits
      them: a stub per imported function, a method per local function, then
      the indirect-call helpers. */
  function ClassPlan(functionImports: nat, functionTypes: seq<FunctionType>, bodies: seq<FunctionBody>,
                     types: seq<FunctionType>, traps: Instruction -> bool): seq<Planned>
    requires |functionTypes| == functionImports + |bodies|
  {
    FunctionPlan(functionImports, functionTypes, bodies, traps, |functionTypes|) + HelperPlan(types)
  }

  /** The methods generated from a plan, or the first failure among them. */
  function Collect(plan: seq<Planned>): Result<seq<GeneratedMethod>, AotError>
    decreases |plan|
  {
    if plan == [] then Success([])
    else
      var n := |plan| - 1;
      var done :- Collect(plan[..n]);
      var code :- plan[n].code;
      Success(done + [GeneratedMethod(plan[n].name, code)])
  }

  /** Once a prefix of the plan fails, the whole plan fails the same way. */
  lemma {:induction false} CollectFailurePrefix(p: seq<Planned>, q: seq<Planned>)
    requires Collect(p).Failure?
    ensures Collect(p + q) == Collect(p)
    decreases |q|
  {
    if q != [] {
      var n := |q| - 1;
      assert (p + q)[..|p + q| - 1] == p + q[..n];
      CollectFailurePrefix(p, q[..n]);
      assert Collect(p + q[..n]).Failure?;
    } else {
      assert p + q == p;
    }
  }

  /** A plan that compiles yields one method per planned one, under the
      planned name and with the planned code. */
  lemma {:induction false} CollectLayout(plan: seq<Planned>)
    requires Collect(plan).Success?
    ensures |Collect(plan).value| == |plan|
    ensures forall k :: 0 <= k < |plan| ==>
              Collect(plan).value[k].name == plan[k].name && plan[k].code == Success(Collect(plan).value[k].code)
    decreases |plan|
  {
    if plan != [] {
      var n := |plan| - 1;
      CollectLayout(plan[..n]);
    }
  }

  /** The helpers are exactly the types with at most one result. */
  lemma {:induction false} HelperPlanNames(types: seq<FunctionType>)
    ensures forall k :: 0 <= k < |HelperPlan(types)| ==> HelperPlan(types)[k].name.CallIndirectMethod?
    ensures forall t: nat :: (exists k :: 0 <= k < |HelperPlan(types)| && HelperPlan(types)[k].name == CallIndirectMethod(t))
                        <==> t < |types| && |types[t].results| <= 1
    decreases |types|
  {
    if types != [] {
      var n := |types| - 1;
      HelperPlanNames(types[..n]);
      var front := HelperPlan(types[..n]);
      var plan := HelperPlan(types);
      forall t: nat ensures (exists k :: 0 <= k < |plan| && plan[k].name == CallIndirectMethod(t))
                       <==> t < |types| && |types[t].results| <= 1
      {
        if t < n {
          assert types[..n][t] == types[t];
        }
        if t < |types| && |types[t].results| <= 1 {
          if t < n {
            var k :| 0 <= k < |front| && front[k].name == CallIndirectMethod(t);
            assert plan[k] == front[k];
          } else {
            assert plan[|plan| - 1].name == CallIndirectMethod(t);
          }
        }
      }
    }
  }

  /** The function plan holds function `f`'s method at position `f`. */
  lemma {:induction false} FunctionPlanShape(functionImports: nat, functionTypes: seq<FunctionType>, bodies: seq<FunctionBody>,
                                             traps: Instruction -> bool, n: nat)
    requires |functionTypes| == functionImports + |bodies| && n <= |functionTypes|
    ensures |FunctionPlan(functionImports, functionTypes, bodies, traps, n)| == n
    ensures forall f :: 0 <= f < n ==>
              FunctionPlan(functionImports, functionTypes, bodies, traps, n)[f]
              == FunctionPlanned(functionImports, functionTypes, bodies, traps, f)
    decreases n
  {
    if n > 0 {
      FunctionPlanShape(functionImports, functionTypes, bodies, traps, n - 1);
    }
  }

  /** The generated class holds a method for every function id below
      `functionImports + |bodies|`, at that position, and a helper for every
      type with at most one result, and nothing else. */
  lemma ClassPlanNames(functionImports: nat, functionTypes: seq<FunctionType>, bodies: seq<FunctionBody>,
                       types: seq<FunctionType>, traps: Instruction -> bool)
    requires |functionTypes| == functionImports + |bodies|
    ensures var plan := ClassPlan(functionImports, functionTypes, bodies, types, traps);
            |plan| == functionImports + |bodies| + |HelperPlan(types)|
            && (forall f :: 0 <= f < functionImports + |bodies| ==> plan[f].name == FunctionMethod(f))
            && (forall t: nat :: (exists k :: 0 <= k < |plan| && plan[k].name == CallIndirectMethod(t))
                                 <==> t < |types| && |types[t].results| <= 1)
  {
    var plan := ClassPlan(functionImports, functionTypes, bodies, types, traps);
    var front := functionImports + |bodies|;
    FunctionPlanShape(functionImports, functionTypes, bodies, traps, front);
    HelperPlanNames(types);
    assert forall k :: front <= k < |plan| ==> plan[k] == HelperPlan(types)[k - front];
    forall t: nat ensures (exists k :: 0 <= k < |plan| && plan[k].name == CallIndirectMethod(t))
                          <==> t < |types| && |types[t].results| <= 1
    {
      if exists k :: 0 <= k < |plan| && plan[k].name == CallIndirectMethod(t) {
        var k :| 0 <= k < |plan| && plan[k].name == CallIndirectMethod(t);
        assert k >= front;
        assert HelperPlan(types)[k - front].name == CallIndirectMethod(t);
      }
      if t < |types| && |types[t].results| <= 1 {
        var k :| 0 <= k < |HelperPlan(types)| && HelperPlan(types)[k].name == CallIndirectMethod(t);
        assert plan[front + k].name == CallIndirectMethod(t);
      }
    }
  }

  /** Once the functions `0 .. n-1` fail to compile, so do all of them. */
  lemma {:induction false} FunctionPlanFails(functionImports: nat, functionTypes: seq<FunctionType>, bodies: seq<FunctionBody>,
                                             traps: Instruction -> bool, n: nat, m: nat)
    requires |functionTypes| == functionImports + |bodies| && n <= m <= |functionTypes|
    requires Collect(FunctionPlan(functionImports, functionTypes, bodies, traps, n)).Failure?
    ensures Collect(FunctionPlan(functionImports, functionTypes, bodies, traps, m))
            == Collect(FunctionPlan(functionImports, functionTypes, bodies, traps, n))
    decreases m - n
  {
    if n < m {
      var p := FunctionPlan(functionImports, functionTypes, bodies, traps, n);
      var x := FunctionPlanned(functionImports, functionTypes, bodies, traps, n);
      assert (p + [x])[..|p|] == p;
      FunctionPlanFails(functionImports, functionTypes, bodies, traps, n + 1, m);
    }
  }

  /** Compiling one more planned method extends the generated methods by it. */
  lemma CollectStep(p: seq<Planned>, x: Planned, emitted: seq<GeneratedMethod>, code: seq<Token>)
    requires Collect(p) == Success(emitted) && x.code == Success(code)
    ensures Collect(p + [x]) == Success(emitted + [GeneratedMethod(x.name, code)])
  {
    assert (p + [x])[..|p|] == p;
  }

  /** A planned method that fails to compile fails the plan it ends. */
  lemma CollectStepFails(p: seq<Planned>, x: Planned)
    requires Collect(p).Success? && x.code.Failure?
    ensures Collect(p + [x]) == Failure(x.code.error)
  {
    assert (p + [x])[..|p|] == p;
  }

  /** Compiling function `n` after the functions before it: on success the
      generated methods grow by its method, on failure the whole function
      plan fails with its error. */
  lemma FunctionPlanStep(functionImports: nat, functionTypes: seq<FunctionType>, bodies: seq<FunctionBody>,
                         traps: Instruction -> bool, n: nat, emitted: seq<GeneratedMethod>,
                         code: Result<seq<Token>, AotError>)
    requires |functionTypes| == functionImports + |bodies| && n < |functionTypes|
    requires Collect(FunctionPlan(functionImports, functionTypes, bodies, traps, n)) == Success(emitted)
    requires FunctionPlanned(functionImports, functionTypes, bodies, traps, n).code == code
    ensures code.Success? ==> Collect(FunctionPlan(functionImports, functionTypes, bodies, traps, n + 1))
                              == Success(emitted + [GeneratedMethod(FunctionMethod(n), code.value)])
    ensures code.Failure? ==> Collect(FunctionPlan(functionImports, functionTypes, bodies, traps, |functionTypes|))
                              == Failure(code.error)
  {
    var p := FunctionPlan(functionImports, functionTypes, bodies, traps, n);
    var x := FunctionPlanned(functionImports, functionTypes, bodies, traps, n);
    assert FunctionPlan(functionImports, functionTypes, bodies, traps, n + 1) == p + [x];
    if code.Failure? {
      CollectStepFails(p, x);
      FunctionPlanFails(functionImports, functionTypes, bodies, traps, n + 1, |functionTypes|);
    } else {
      CollectStep(p, x, emitted, code.value);
    }
  }

  /** The first loop of `compileClass`: a stub per imported function. */
  method EmitHostStubs(functionImports: nat, functionTypes: seq<FunctionType>, bodies: seq<FunctionBody>,
                       traps: Instruction -> bool)
    returns (r: Result<seq<GeneratedMethod>, AotError>)
    requires |functionTypes| == functionImports + |bodies|
    ensures r.Success? ==> r == Collect(FunctionPlan(functionImports, functionTypes, bodies, traps, functionImports))
    ensures r.Failure? ==> r == Collect(FunctionPlan(functionImports, functionTypes, bodies, traps, |functionTypes|))
  {
    var methods: seq<GeneratedMethod> := [];
    var i := 0;
    while i < functionImports
      invariant 0 <= i <= functionImports
      invariant Collect(FunctionPlan(functionImports, functionTypes, bodies, traps, i)) == Success(methods)
    {
      var code := CompileHostFunction(i, functionTypes[i]);
      FunctionPlanStep(functionImports, functionTypes, bodies, traps, i, methods, code);
      if code.Failure? {
        return Failure(code.error);
      }
      methods := methods + [GeneratedMethod(FunctionMethod(i), code.value)];
      i := i + 1;
    }
    return Success(methods);
  }

  /** The second loop of `compileClass`: a method per local function, after
      the stubs already emitted. */
  method EmitBodies(functionImports: nat, functionTypes: seq<FunctionType>, bodies: seq<FunctionBody>,
                    traps: Instruction -> bool, stubs: seq<GeneratedMethod>)
    returns (r: Result<seq<GeneratedMethod>, AotError>)
    requires |functionTypes| == functionImports + |bodies|
    requires Collect(FunctionPlan(functionImports, functionTypes, bodies, traps, functionImports)) == Success(stubs)
    ensures r == Collect(FunctionPlan(functionImports, functionTypes, bodies, traps, |functionTypes|))
  {
    var methods := stubs;
    var funcId := functionImports;
    while funcId < |functionTypes|
      invariant functionImports <= funcId <= |functionTypes|
      invariant Collect(FunctionPlan(functionImports, functionTypes, bodies, traps, funcId)) == Success(methods)
    {
      var body := bodies[funcId - functionImports];
      var code := CompileBody(functionTypes[funcId], body.localTypes, body.instructions, traps);
      FunctionPlanStep(functionImports, functionTypes, bodies, traps, funcId, methods, code);
      if code.Failure? {
        return Failure(code.error);
      }
      methods := methods + [GeneratedMethod(FunctionMethod(funcId), code.value)];
      funcId := funcId + 1;
    }
    return Success(methods);
  }

  /** Adding the helpers of one more type keeps a failure. */
  lemma {:induction false} HelperFailureStays(front: seq<Planned>, types: seq<FunctionType>, t: nat)
    requires t <= |types| && Collect(front + HelperPlan(types[..t])).Failure?
    ensures Collect(front + HelperPlan(types)) == Collect(front + HelperPlan(types[..t]))
    decreases |types| - t
  {
    if t < |types| {
      assert types[..t + 1][..t] == types[..t];
      var done := front + HelperPlan(types[..t]);
      CollectFailurePrefix(done, HelperPlan(types[..t + 1])[|HelperPlan(types[..t])|..]);
      assert front + HelperPlan(types[..t + 1]) == done + HelperPlan(types[..t + 1])[|HelperPlan(types[..t])|..];
      HelperFailureStays(front, types, t + 1);
    } else {
      assert types[..t] == types;
    }
  }

  /** The last loop of `compileClass`: a helper per type with at most one
      result, after the methods already emitted. */
  method EmitHelpers(types: seq<FunctionType>, ghost front: seq<Planned>, emitted: seq<GeneratedMethod>)
    returns (r: Result<seq<GeneratedMethod>, AotError>)
    requires Collect(front) == Success(emitted)
    ensures r == Collect(front + HelperPlan(types))
  {
    var methods := emitted;
    var t := 0;
    assert types[..0] == [] && front + HelperPlan([]) == front;
    while t < |types|
      invariant 0 <= t <= |types|
      invariant Collect(front + HelperPlan(types[..t])) == Success(methods)
    {
      assert types[..t + 1][..t] == types[..t];
      assert types[..t + 1][t] == types[t];
      ghost var done := front + HelperPlan(types[..t]);
      if |types[t].results| > 1 {
        assert HelperPlan(types[..t + 1]) == HelperPlan(types[..t]) + [];
        assert front + HelperPlan(types[..t + 1]) == done;
      } else {
        ghost var item := Planned(CallIndirectMethod(t), CallIndirectCode(t, types[t]));
        assert HelperPlan(types[..t + 1]) == HelperPlan(types[..t]) + [item];
        assert front + HelperPlan(types[..t + 1]) == done + [item];
        assert (done + [item])[..|done|] == done;
        var code := CompileCallIndirect(t, types[t]);
        if code.Failure? {
          HelperFailureStays(front, types, t + 1);
          return Failure(code.error);
        }
        methods := methods + [GeneratedMethod(CallIndirectMethod(t), code.value)];
      }
      t := t + 1;
    }
    assert types[..|types|] == types;
    return Success(methods);
  }

  /** `compileClass`: emit every planned method into the class, stopping at
      the first that fails to compile. */
  method CompileClass(functionImports: nat, functionTypes: seq<FunctionType>, bodies: seq<FunctionBody>,
                      types: seq<FunctionType>, traps: Instruction -> bool)
    returns (r: Result<seq<GeneratedMethod>, AotError>)
    requires |functionTypes| == functionImports + |bodies|
    ensures r == Collect(ClassPlan(functionImports, functionTypes, bodies, types, traps))
  {
    ghost var front := FunctionPlan(functionImports, functionTypes, bodies, traps, |functionTypes|);
    var stubs := EmitHostStubs(functionImports, functionTypes, bodies, traps);
    if stubs.Failure? {
      CollectFailurePrefix(front, HelperPlan(types));
      return Failure(stubs.error);
    }
    var functions := EmitBodies(functionImports, functionTypes, bodies, traps, stubs.value);
    if functions.Failure? {
      CollectFailurePrefix(front, HelperPlan(types));
      return Failure(functions.error);
    }
    r := EmitHelpers(types, front, functions.value);
  }

  /** A class that compiles holds the method of each function `f` at position `f`. */
  lemma GeneratedFunctionMethods(functionImports: nat, functionTypes: seq<FunctionType>, bodies: seq<FunctionBody>,
                                 types: seq<FunctionType>, traps: Instruction -> bool)
    requires |functionTypes| == functionImports + |bodies|
    requires Collect(ClassPlan(functionImports, functionTypes, bodies, types, traps)).Success?
    ensures var generated := Collect(ClassPlan(functionImports, functionTypes, bodies, types, traps)).value;
            |generated| >= functionImports + |bodies|
            && forall f :: 0 <= f < functionImports + |bodies| ==> generated[f].name == FunctionMethod(f)
  {
    var plan := ClassPlan(functionImports, functionTypes, bodies, types, traps);
    ClassPlanNames(functionImports, functionTypes, bodies, types, traps);
    CollectLayout(plan);
  }

  /** An entry of the compiled-function table. */
  datatype Handle =
    // `HostFunctionInvoker.handleFor(instance, funcId)`
    | HostInvoker(funcId: nat)
    // the generated method `FunctionMethod(funcId)`, bound to the memory and the instance
    | LinkedMethod(funcId: nat)

  /** What `compile` produces: the table of callable functions and the generated class. */
  datatype Compiled = Compiled(table: array<Option<Handle>>, generated: seq<GeneratedMethod>)

  /** `compile`: host invokers for the imported functions, then the generated
      class, then the linked method of each local function after them. */
  method Compile(functionImports: nat, functionTypes: seq<FunctionType>, bodies: seq<FunctionBody>,
                 types: seq<FunctionType>, traps: Instruction -> bool)
    returns (r: Result<Compiled, AotError>)
    requires |functionTypes| == functionImports + |bodies|
    ensures r.Failure? <==> Collect(ClassPlan(functionImports, functionTypes, bodies, types, traps)).Failure?
    ensures r.Failure? ==> r.error == Collect(ClassPlan(functionImports, functionTypes, bodies, types, traps)).error
    ensures r.Success? ==>
              fresh(r.value.table)
              && r.value.generated == Collect(ClassPlan(functionImports, functionTypes, bodies, types, traps)).value
              && r.value.table.Length == functionImports + |bodies|
              && |r.value.generated| >= r.value.table.Length
              && (forall i :: 0 <= i < functionImports ==> r.value.table[i] == Some(HostInvoker(i)))
              && (forall i :: functionImports <= i < r.value.table.Length ==> r.value.table[i] == Some(LinkedMethod(i)))
              && (forall i :: 0 <= i < r.value.table.Length ==> r.value.generated[i].name == FunctionMethod(i))
  {
    var compiled := new Option<Handle>[functionImports + |bodies|](_ => None);
    for i := 0 to functionImports
      invariant forall k :: 0 <= k < i ==> compiled[k] == Some(HostInvoker(k))
    {
      compiled[i] := Some(HostInvoker(i));
    }
    var generated := CompileClass(functionImports, functionTypes, bodies, types, traps);
    if generated.Failure? {
      return Failure(generated.error);
    }
    GeneratedFunctionMethods(functionImports, functionTypes, bodies, types, traps);
    for i := 0 to |bodies|
      invariant forall k :: 0 <= k < functionImports ==> compiled[k] == Some(HostInvoker(k))
      invariant forall k :: functionImports <= k < functionImports + i ==> compiled[k] == Some(LinkedMethod(k))
    {
      compiled[functionImports + i] := Some(LinkedMethod(functionImports + i));
    }
    return Success(Compiled(compiled, generated.value));
  }

  // ---------------------------------------------------------------------------
  // Calling a compiled function
  // ---------------------------------------------------------------------------

  /** Why `call` wrapped an exception in a `WASMRuntimeException`. */
  datatype RuntimeReason =
    | UndefinedElement     // "undefined element " followed by the cause's message
    | UnderlyingException  // "An underlying Java exception occurred"
    | UnderlyingError      // "An underlying Java error occurred"

  /** What a call can throw. */
  datatype Throwable =
    // a ChicoryException raised by the compiled code, traps included
    | ChicoryException(message: string)
    // a WASMRuntimeException (itself a ChicoryException) made by `call`
    | WasmRuntimeException(reason: RuntimeReason, cause: Throwable)
    // the table lookup's ArrayIndexOutOfBoundsException
    | TableIndexOutOfBounds(index: int, length: int)
    // any other IndexOutOfBoundsException
    | IndexOutOfBounds(message: string)
    // the NullPointerException of invoking an empty table entry
    | NullHandle
    // any other Exception
    | OtherException(message: string)
    // a java.lang.Error, or any other Throwable that is no Exception
    | JavaError(message: string)
  {
    predicate IsChicory() { ChicoryException? || WasmRuntimeException? }
    predicate IsIndexOutOfBounds() { TableIndexOutOfBounds? || IndexOutOfBounds? }
    predicate IsException() { !JavaError? }
  }

  /** The `catch` clauses of `call`, in order. */
  function MapThrown(t: Throwable): (r: Throwable)
    ensures r.IsChicory()
    ensures t.IsChicory() ==> r == t
    ensures !t.IsChicory() ==> r.WasmRuntimeException? && r.cause == t
    ensures !t.IsChicory() && t.IsIndexOutOfBounds() ==> r.reason == UndefinedElement
    ensures !t.IsChicory() && !t.IsIndexOutOfBounds() ==> (r.reason == UnderlyingError <==> !t.IsException())
  {
    if t.IsChicory() then t
    else if t.IsIndexOutOfBounds() then WasmRuntimeException(UndefinedElement, t)
    else if t.IsException() then WasmRuntimeException(UnderlyingException, t)
    else WasmRuntimeException(UnderlyingError, t)
  }

  /** What invoking a compiled handle did: returned a value (`None` for the
      `null` a function without results returns), or threw. */
  datatype Invocation = Returned(result: Option<Value>) | Threw(thrown: Throwable)

  /** `call`: look the function up in the table and invoke it; `invoke`
      stands for running the compiled code. */
  function CallFunction(table: seq<Option<Handle>>, funcId: int, args: seq<Value>,
                        invoke: (Handle, seq<Value>) -> Invocation): (r: Result<seq<Option<Value>>, Throwable>)
    ensures r.Success? ==> |r.value| == 1
    ensures r.Failure? ==> r.error.IsChicory()
    ensures !(0 <= funcId < |table|) ==>
              r == Failure(WasmRuntimeException(UndefinedElement, TableIndexOutOfBounds(funcId, |table|)))
    ensures 0 <= funcId < |table| && table[funcId].Some? ==>
              match invoke(table[funcId].value, args)
              case Returned(v) => r == Success([v])
              case Threw(t) => r == Failure(MapThrown(t))
  {
    if !(0 <= funcId < |table|) then Failure(MapThrown(TableIndexOutOfBounds(funcId, |table|)))
    else if table[funcId].None? then Failure(MapThrown(NullHandle))
    else
      match invoke(table[funcId].value, args)
      case Returned(v) => Success([v])
      case Threw(t) => Failure(MapThrown(t))
  }

  /** A frame of a stack trace. */
  datatype StackFrame = StackFrame(funcId: nat, pc: nat)

  /** `getStackTrace`: compiled code keeps no interpreter frames. */
  function GetStackTrace(): (r: seq<StackFrame>)
    ensures |r| == 0
  {
    []
  }
}
