/** A live instance of a module: the split index spaces and their bounds-checked
    accessors, the global cells (shared with the exporting instance when
    imported), and the steps of `initialize`.

    What the instance calls but does not define is abstract here: constant
    expressions are evaluated by a function `eval` given to the steps that need
    it, a table starts with every slot null, `Memory.initialize` only records
    the data segments it was given, and calling the start function is recorded
    in `startCalls` instead of being executed. */
module Instances {
  import opened Wrappers
  import opened WasmTypes
  import opened IndexSpaces
  import TypeValidation

  type FunctionBody = TypeValidation.FunctionBody

  datatype Mutability = Const | Var

  /** A global's declaration: its type, its mutability and its initializer expression. */
  datatype Global = Global(valueType: ValueType, mutability: Mutability, initInstructions: seq<Instruction>)

  /** A table's declaration: its element type and initial size. */
  datatype Table = Table(elementType: ValueType, minSize: nat)

  /** Element segments; only the active ones are written during initialisation. */
  datatype Element =
    | ActiveElement(elemType: ValueType, tableIndex: int, offset: seq<Instruction>, initializers: seq<seq<Instruction>>)
    | PassiveElement(elemType: ValueType, initializers: seq<seq<Instruction>>)
    | DeclarativeElement(elemType: ValueType, initializers: seq<seq<Instruction>>)

  datatype DataSegment = ActiveDataSegment(memoryIndex: int) | PassiveDataSegment

  datatype ExportKind = FunctionExport | TableExport | MemoryExport | GlobalExport

  /** An entry of the module's export section. */
  datatype Export = Export(kind: ExportKind, index: int)

  /** What `export(name)` hands out: a call into the machine, or a read of a global. */
  datatype ExportFunction = CallFunction(funcId: int) | ReadGlobalExport(globalIdx: int)

  /** `GlobalInstance`: a mutable value slot; `owner` is what `setInstance` records. */
  class GlobalInstance {
    var value: Value
    var owner: Instance?

    constructor (v: Value)
      ensures value == v && owner == null
    {
      value := v;
      owner := null;
    }
  }

  /** `TableInstance`: each slot holds a function id or an extern reference,
      `RefNullValue` when null. */
  class TableInstance {
    var refs: seq<int32>

    /** `new TableInstance(table)`: as many null slots as the declared minimum. */
    constructor (decl: Table)
      ensures refs == NullRefs(decl.minSize)
    {
      refs := NullRefs(decl.minSize);
    }

    /** `setRef(index, ref, instance)`: a bounds-checked slot write. */
    method SetRef(index: int, ref: int32) returns (r: Outcome<WasmError>)
      modifies this`refs
      ensures r == SetRefOutcome(old(refs), index)
      ensures refs == if r.Pass? then old(refs)[index := ref] else old(refs)
    {
      if 0 <= index < |refs| {
        refs := refs[index := ref];
        r := Pass;
      } else {
        r := Fail(IndexOutOfBounds);
      }
    }
  }

  function NullRefs(n: nat): (r: seq<int32>)
    ensures |r| == n && forall k :: 0 <= k < n ==> r[k] == RefNullValue as int32
  {
    seq(n, _ => RefNullValue as int32)
  }

  function SetRefOutcome(refs: seq<int32>, index: int): (r: Outcome<WasmError>)
    ensures r.Pass? <==> 0 <= index < |refs|
  {
    if 0 <= index < |refs| then Pass else Fail(IndexOutOfBounds)
  }

  /** `Memory`: only the data segments handed to `initialize` are recorded. */
  class Memory {
    var dataSegments: Option<nat>

    constructor ()
      ensures dataSegments == None
    {
      dataSegments := None;
    }
  }

  datatype ImportedGlobal = ImportedGlobal(mutability: Mutability, instance: GlobalInstance)
  datatype ImportedTable = ImportedTable(table: TableInstance)

  /** `HostImports`: the resolved imports, indexed from 0 within each kind. */
  datatype HostImports = HostImports(globals: seq<ImportedGlobal>, tables: seq<ImportedTable>, memories: seq<Memory>)

  /** The memories `initialize` may hand the data segments to. */
  function MemoryTargets(memory: Option<Memory>, imports: HostImports): set<Memory> {
    (if memory.Some? then {memory.value} else {}) + (if |imports.memories| > 0 then {imports.memories[0]} else {})
  }

  /** The cells of the imported globals. */
  function ImportCells(imports: HostImports): set<GlobalInstance> {
    set k | 0 <= k < |imports.globals| :: imports.globals[k].instance
  }

  function ImportedTables(imports: HostImports): set<TableInstance> {
    set k | 0 <= k < |imports.tables| :: imports.tables[k].table
  }

  // ---------------------------------------------------------------------------
  // Global initializers

  /** Where an initialised global slot gets its cell: a new cell holding a value,
      or the imported cell itself. */
  datatype GlobalSource = Fresh(value: Value) | Alias(cell: GlobalInstance)

  /** A numeric constant: its type must be the declared one. */
  function ConstInit(g: Global, t: ValueType, instr: Instruction): (r: Result<GlobalSource, WasmError>)
    ensures r.Success? <==> g.valueType == t && |instr.operands| > 0
    ensures r.Success? ==> r == Success(Fresh(Value(t, instr.operands[0])))
  {
    if g.valueType != t then Failure(GlobalTypeMismatch(g.valueType, t))
    else if |instr.operands| == 0 then Failure(IndexOutOfBounds)
    else Success(Fresh(Value(t, instr.operands[0])))
  }

  /** The opcodes a global initializer may use. */
  predicate IsConstantOp(op: OpCode) {
    op == I32Const || op == I64Const || op == F32Const || op == F64Const || op == GlobalGet || op == RefNull || op == RefFunc
  }

  /** One instruction of a global's initializer, under the constant-expression
      rules of `initialize`. */
  function InitInstruction(g: Global, instr: Instruction, imports: HostImports): (r: Result<GlobalSource, WasmError>)
    reads ImportCells(imports)`value
    ensures instr.opcode == RefNull ==> r == Success(Fresh(ExternRefNull))
    ensures r.Success? && r.value.Alias? ==>
      instr.opcode == GlobalGet && |instr.operands| > 0
      && 0 <= IntOperand(instr, 0) < |imports.globals|
      && imports.globals[IntOperand(instr, 0)].mutability == Const
      && r.value.cell == imports.globals[IntOperand(instr, 0)].instance
      && r.value.cell.value.vtype == g.valueType
    ensures r.Success? && r.value.Fresh? && instr.opcode != RefNull && instr.opcode != RefFunc ==>
      r.value.value.vtype == g.valueType
    ensures !IsConstantOp(instr.opcode) ==>
      r == Failure(ConstantExpressionRequired)
  {
    var o := instr.opcode;
    if o == I32Const then ConstInit(g, I32, instr)
    else if o == I64Const then ConstInit(g, I64, instr)
    else if o == F32Const then ConstInit(g, F32, instr)
    else if o == F64Const then ConstInit(g, F64, instr)
    else if o == GlobalGet then
      if |instr.operands| == 0 then Failure(IndexOutOfBounds)
      else
        var idx := IntOperand(instr, 0);
        if idx >= |imports.globals| then Failure(NonImportedGlobalInInitializer)
        else if idx < 0 then Failure(IndexOutOfBounds)
        else
          var ig := imports.globals[idx];
          if ig.mutability != Const then Failure(MutableGlobalInInitializer)
          else if g.valueType != ig.instance.value.vtype then
            Failure(GlobalTypeMismatch(g.valueType, ig.instance.value.vtype))
          else Success(Alias(ig.instance))
    else if o == RefNull then Success(Fresh(ExternRefNull))
    else if o == RefFunc then
      if |instr.operands| == 0 then Failure(IndexOutOfBounds)
      else Success(Fresh(Value(FuncRef, ToInt32(instr.operands[0]) as int64)))
    else Failure(ConstantExpressionRequired)
  }

  /** The inner loop over a global's initializer from `instrs` on, `current` being
      what the instructions before set the slot to. */
  function EvalInit(g: Global, instrs: seq<Instruction>, imports: HostImports, current: Option<GlobalSource>)
    : (r: Result<Option<GlobalSource>, WasmError>)
    reads ImportCells(imports)`value
    decreases |instrs|, 2
  {
    if instrs == [] then Success(current) else EvalNext(g, instrs, imports, current)
  }

  /** `EvalInit`, `EvalNext` and `EvalFirst` are one recursion cut into three
      layers, so that unfolding the loop once does not yet evaluate an instruction. */
  function EvalNext(g: Global, instrs: seq<Instruction>, imports: HostImports, current: Option<GlobalSource>)
    : Result<Option<GlobalSource>, WasmError>
    requires instrs != []
    reads ImportCells(imports)`value
    decreases |instrs|, 1
  {
    EvalFirst(g, instrs, imports, current)
  }

  /** The first instruction sets the slot; a second one in a constant global fails. */
  function EvalFirst(g: Global, instrs: seq<Instruction>, imports: HostImports, current: Option<GlobalSource>)
    : Result<Option<GlobalSource>, WasmError>
    requires instrs != []
    reads ImportCells(imports)`value
    decreases |instrs|, 0
  {
    var s :- InitInstruction(g, instrs[0], imports);
    if current.Some? && g.mutability == Const then Failure(ExtraInstructions)
    else EvalInit(g, instrs[1..], imports, Some(s))
  }

  /** One step of the initializer loop. */
  lemma EvalInitStep(g: Global, instrs: seq<Instruction>, imports: HostImports, current: Option<GlobalSource>)
    requires instrs != []
    ensures InitInstruction(g, instrs[0], imports).Failure? ==>
      EvalInit(g, instrs, imports, current) == Failure(InitInstruction(g, instrs[0], imports).error)
    ensures InitInstruction(g, instrs[0], imports).Success? && current.Some? && g.mutability == Const ==>
      EvalInit(g, instrs, imports, current) == Failure(ExtraInstructions)
    ensures InitInstruction(g, instrs[0], imports).Success? && !(current.Some? && g.mutability == Const) ==>
      EvalInit(g, instrs, imports, current) == EvalInit(g, instrs[1..], imports, Some(InitInstruction(g, instrs[0], imports).value))
  {
    assert EvalInit(g, instrs, imports, current) == EvalNext(g, instrs, imports, current);
    assert EvalNext(g, instrs, imports, current) == EvalFirst(g, instrs, imports, current);
  }

  /** The source of global `g`'s cell, or why initialisation fails. */
  function GlobalInit(g: Global, imports: HostImports): (r: Result<GlobalSource, WasmError>)
    reads ImportCells(imports)`value
    ensures g.initInstructions == [] ==> r == Failure(UninitializedGlobal)
  {
    var s :- EvalInit(g, g.initInstructions, imports, None);
    if s.None? then Failure(UninitializedGlobal) else Success(s.value)
  }

  /** Whether slot `c` holds what `s` says it should. */
  predicate SlotHolds(c: GlobalInstance?, s: GlobalSource)
    reads {c}`value
  {
    c != null && (s.Alias? ==> c == s.cell) && (s.Fresh? ==> c.value == s.value)
  }

  /** The globals are initialised in order; the first failure stops it. */
  function InitAll(gs: seq<Global>, imports: HostImports): (r: Result<seq<GlobalSource>, WasmError>)
    reads ImportCells(imports)`value
    decreases |gs|
    ensures r.Success? ==> |r.value| == |gs|
    ensures r.Success? ==> forall i :: 0 <= i < |gs| ==> GlobalInit(gs[i], imports) == Success(r.value[i])
  {
    if gs == [] then Success([])
    else
      var prev :- InitAll(gs[..|gs| - 1], imports);
      var s :- GlobalInit(gs[|gs| - 1], imports);
      Success(prev + [s])
  }

  /** One more global: the prefix's sources extended by its source, or its failure. */
  lemma InitAllStep(gs: seq<Global>, i: nat, imports: HostImports)
    requires i < |gs| && InitAll(gs[..i], imports).Success?
    ensures GlobalInit(gs[i], imports).Success? ==>
      InitAll(gs[..i + 1], imports) == Success(InitAll(gs[..i], imports).value + [GlobalInit(gs[i], imports).value])
    ensures GlobalInit(gs[i], imports).Failure? ==>
      InitAll(gs[..i + 1], imports) == Failure(GlobalInit(gs[i], imports).error)
  {
    assert gs[..i + 1][..i] == gs[..i] && gs[..i + 1][i] == gs[i];
  }

  /** A failure on a prefix is the failure of the whole list. */
  lemma {:induction false} InitAllPrefixFailure(gs: seq<Global>, n: nat, imports: HostImports)
    requires n <= |gs|
    requires InitAll(gs[..n], imports).Failure?
    ensures InitAll(gs, imports) == InitAll(gs[..n], imports)
    decreases |gs| - n
  {
    if n < |gs| {
      assert gs[..n + 1][..n] == gs[..n];
      InitAllPrefixFailure(gs, n + 1, imports);
    } else {
      assert gs[..n] == gs;
    }
  }

  /** A constant global initialises only from a single instruction. */
  lemma {:induction false} ConstGlobalHasOneInstruction(g: Global, imports: HostImports)
    requires g.mutability == Const
    requires GlobalInit(g, imports).Success?
    ensures |g.initInstructions| == 1
    ensures GlobalInit(g, imports) == InitInstruction(g, g.initInstructions[0], imports)
  {
    var instrs := g.initInstructions;
    assert instrs != [];
    EvalInitStep(g, instrs, imports, None);
    var first := InitInstruction(g, instrs[0], imports);
    assert first.Success?;
    var rest := instrs[1..];
    if rest != [] {
      EvalInitStep(g, rest, imports, Some(first.value));
      assert false;
    }
    assert EvalInit(g, instrs, imports, None) == Success(Some(first.value));
  }

  /** A mutable global takes the value of its last instruction, every one of
      which must be a constant expression. */
  lemma {:induction false} VarGlobalTakesLast(g: Global, instrs: seq<Instruction>, imports: HostImports, current: Option<GlobalSource>)
    requires g.mutability == Var
    requires instrs != []
    requires EvalInit(g, instrs, imports, current).Success?
    ensures forall k :: 0 <= k < |instrs| ==> InitInstruction(g, instrs[k], imports).Success?
    ensures EvalInit(g, instrs, imports, current) == Success(Some(InitInstruction(g, instrs[|instrs| - 1], imports).value))
    decreases |instrs|
  {
    EvalInitStep(g, instrs, imports, current);
    var s := InitInstruction(g, instrs[0], imports).value;
    if |instrs| > 1 {
      VarGlobalTakesLast(g, instrs[1..], imports, Some(s));
      forall k | 1 <= k < |instrs|
        ensures InitInstruction(g, instrs[k], imports).Success?
      {
        assert instrs[1..][k - 1] == instrs[k];
      }
      assert instrs[1..][|instrs[1..]| - 1] == instrs[|instrs| - 1];
    }
  }

  /** A global initialised by `global.get` of an immutable import of its type
      shares the import's cell and so reads the import's value. */
  lemma ImportedGlobalIsShared(g: Global, imports: HostImports, k: nat)
    requires k < |imports.globals| && imports.globals[k].mutability == Const
    requires imports.globals[k].instance.value.vtype == g.valueType
    requires k < 0x8000_0000
    requires g.initInstructions == [Instruction(GlobalGet, [k as int64], 0, 0)]
    ensures GlobalInit(g, imports) == Success(Alias(imports.globals[k].instance))
  {
    var i := g.initInstructions[0];
    assert IntOperand(i, 0) == k;
    var src := InitInstruction(g, i, imports);
    assert src == Success(Alias(imports.globals[k].instance));
    assert g.initInstructions[1..] == [];
    EvalInitStep(g, g.initInstructions, imports, None);
  }

  /** The same with a mutable import fails. */
  lemma MutableImportRejected(g: Global, imports: HostImports, k: nat)
    requires k < |imports.globals| && imports.globals[k].mutability == Var
    requires k < 0x8000_0000
    requires g.initInstructions == [Instruction(GlobalGet, [k as int64], 0, 0)]
    ensures GlobalInit(g, imports) == Failure(MutableGlobalInInitializer)
  {
    var i := g.initInstructions[0];
    assert IntOperand(i, 0) == k;
    assert InitInstruction(g, i, imports) == Failure(MutableGlobalInInitializer);
    EvalInitStep(g, g.initInstructions, imports, None);
  }

  // ---------------------------------------------------------------------------
  // Active element segments

  /** Write initializer values `values[k..]` one by one at `offset + k` (Java
      `int` addition), checking function references first. The final slots and
      the outcome; a failure keeps the writes made before it. */
  function WriteElements(refs: seq<int32>, offset: int32, values: seq<Value>, k: nat, funcRef: bool, functionCount: int)
    : (r: (seq<int32>, Outcome<WasmError>))
    requires k <= |values|
    decreases |values| - k
    ensures |r.0| == |refs|
  {
    if k == |values| then (refs, Pass)
    else
      var index := WrapInt32(offset as int + k) as int;
      var ref := values[k].AsInt();
      if funcRef && ref as int >= functionCount then (refs, Fail(UnknownFunction(ref as int)))
      else if !(0 <= index < |refs|) then (refs, Fail(IndexOutOfBounds))
      else WriteElements(refs[index := ref], offset, values, k + 1, funcRef, functionCount)
  }

  /** When the segment fits in the table, its values land at `offset ..
      offset + |values| - 1` and every other slot keeps its reference. */
  lemma {:induction false} ElementsLandAtOffset(refs: seq<int32>, offset: int32, values: seq<Value>, k: nat, funcRef: bool, functionCount: int)
    requires k <= |values|
    requires 0 <= offset as int && offset as int + |values| <= |refs|
    requires offset as int + |values| <= I32Max + 1
    requires funcRef ==> forall j :: k <= j < |values| ==> values[j].AsInt() as int < functionCount
    ensures WriteElements(refs, offset, values, k, funcRef, functionCount).1 == Pass
    ensures forall p :: 0 <= p < |refs| ==>
      WriteElements(refs, offset, values, k, funcRef, functionCount).0[p]
      == if offset as int + k <= p < offset as int + |values| then values[p - offset as int].AsInt() else refs[p]
    decreases |values| - k
  {
    if k < |values| {
      var index := offset as int + k;
      assert WrapInt32(index) as int == index;
      ElementsLandAtOffset(refs[index := values[k].AsInt()], offset, values, k + 1, funcRef, functionCount);
    }
  }

  /** A table of four null slots with `[f0, f1]` written at offset 1 reads
      `[null, f0, f1, null]`. */
  lemma SegmentAtOffsetOne(f0: int32, f1: int32)
    requires 0 <= f0 < 2 && 0 <= f1 < 2
    ensures WriteElements(NullRefs(4), 1, [Value(FuncRef, f0 as int64), Value(FuncRef, f1 as int64)], 0, true, 2)
      == ([RefNullValue as int32, f0, f1, RefNullValue as int32], Pass)
  {
    var values := [Value(FuncRef, f0 as int64), Value(FuncRef, f1 as int64)];
    assert values[0].AsInt() == f0 && values[1].AsInt() == f1;
    ElementsLandAtOffset(NullRefs(4), 1, values, 0, true, 2);
    var w := WriteElements(NullRefs(4), 1, values, 0, true, 2).0;
    assert w == [RefNullValue as int32, f0, f1, RefNullValue as int32];
  }

  /** A funcref initializer naming a function past the last one stops the segment. */
  lemma UnknownFunctionRejected(refs: seq<int32>, offset: int32, values: seq<Value>, functionCount: int)
    requires |values| > 0 && values[0].AsInt() as int >= functionCount
    ensures WriteElements(refs, offset, values, 0, true, functionCount) == (refs, Fail(UnknownFunction(values[0].AsInt() as int)))
  {
  }

  // ---------------------------------------------------------------------------
  // Memory and type validation

  datatype MemoryChoice = OwnMemory | FirstImportedMemory | NoMemoryUsed

  /** Which memory the data segments go to; with none at all, an active segment fails. */
  function MemoryTarget(hasOwnMemory: bool, importedMemories: nat, segments: seq<DataSegment>): (r: Result<MemoryChoice, WasmError>)
    ensures r.Failure? <==>
      !hasOwnMemory && importedMemories == 0 && exists k :: 0 <= k < |segments| && segments[k].ActiveDataSegment?
    ensures r.Failure? ==> r.error == UnknownMemory(0)
    ensures r == Success(OwnMemory) <==> hasOwnMemory
    ensures r == Success(FirstImportedMemory) <==> !hasOwnMemory && importedMemories > 0
  {
    if hasOwnMemory then Success(OwnMemory)
    else if importedMemories > 0 then Success(FirstImportedMemory)
    else if exists k :: 0 <= k < |segments| && segments[k].ActiveDataSegment? then Failure(UnknownMemory(0))
    else Success(NoMemoryUsed)
  }

  /** The type-validation loop of `initialize` over the combined function ids
      `i .. hi - 1`: ids below `offset` are imports and skipped; a local id must
      have a type in range, and its body must validate against it. */
  function ValidateIds(functions: seq<FunctionBody>, offset: nat, functionTypes: seq<int>, types: seq<FunctionType>,
                       env: TypeValidation.Env, i: nat, hi: int): (r: Result<(), WasmError>)
    decreases hi - i
  {
    if i >= hi then Success(())
    else if i < offset then ValidateIds(functions, offset, functionTypes, types, env, i + 1, hi)
    else if i >= offset + |functions| then Failure(UnknownFunction(i))
    else
      var funcType :- FunctionTypeAt(functionTypes, i);
      if funcType >= |types| then Failure(UnknownType(funcType))
      else if funcType < 0 then Failure(IndexOutOfBounds)
      else
        var _ :- TypeValidation.ValidationResult(functions[i - offset], types[funcType], env);
        ValidateIds(functions, offset, functionTypes, types, env, i + 1, hi)
  }

  /** Whether local function `k` type-checks: its type id exists and its body validates. */
  predicate BodyValid(functions: seq<FunctionBody>, offset: nat, functionTypes: seq<int>, types: seq<FunctionType>,
                      env: TypeValidation.Env, k: nat)
    requires k < |functions|
  {
    offset + k < |functionTypes| && 0 <= functionTypes[offset + k] < |types|
    && TypeValidation.ValidationResult(functions[k], types[functionTypes[offset + k]], env).Success?
  }

  /** A successful pass up to `hi` has validated every local function whose id is below `hi`. */
  lemma {:induction false} ValidatedBodies(functions: seq<FunctionBody>, offset: nat, functionTypes: seq<int>, types: seq<FunctionType>,
                                           env: TypeValidation.Env, i: nat, hi: int)
    requires ValidateIds(functions, offset, functionTypes, types, env, i, hi).Success?
    ensures forall k :: 0 <= k < |functions| && i <= offset + k < hi ==> BodyValid(functions, offset, functionTypes, types, env, k)
    decreases hi - i
  {
    if i < hi {
      ValidatedBodies(functions, offset, functionTypes, types, env, i + 1, hi);
    }
  }

  /** Replacing a body whose id is at or past `hi` does not change the pass up to `hi`. */
  lemma {:induction false} ValidateIdsIgnoresFrom(functions: seq<FunctionBody>, offset: nat, functionTypes: seq<int>, types: seq<FunctionType>,
                                                  env: TypeValidation.Env, i: nat, hi: int, k: nat, other: FunctionBody)
    requires k < |functions| && offset + k >= hi
    ensures ValidateIds(functions, offset, functionTypes, types, env, i, hi)
         == ValidateIds(functions[k := other], offset, functionTypes, types, env, i, hi)
    decreases hi - i
  {
    if i < hi {
      ValidateIdsIgnoresFrom(functions, offset, functionTypes, types, env, i + 1, hi, k, other);
    }
  }

  /** As written, the loop runs to `functions.length` over the combined id space,
      so the last `offset` local functions are never validated: their bodies
      cannot change the outcome. */
  lemma AsWrittenSkipsLastBodies(functions: seq<FunctionBody>, offset: nat, functionTypes: seq<int>, types: seq<FunctionType>,
                                 env: TypeValidation.Env, k: nat, other: FunctionBody)
    requires |functions| - offset <= k < |functions|
    ensures ValidateIds(functions, offset, functionTypes, types, env, 0, |functions|)
         == ValidateIds(functions[k := other], offset, functionTypes, types, env, 0, |functions|)
  {
    ValidateIdsIgnoresFrom(functions, offset, functionTypes, types, env, 0, |functions|, k, other);
  }

  // ---------------------------------------------------------------------------
  // The instance

  class Instance {
    const functions: seq<FunctionBody>
    const types: seq<FunctionType>
    const functionTypes: seq<int>
    const globalInitializers: seq<Global>
    /** `globals`: local global `i` is slot `i`; the array is `importedGlobalsOffset` slots longer. */
    const globals: array<GlobalInstance?>
    const importedGlobalsOffset: nat
    const importedFunctionsOffset: nat
    const importedTablesOffset: nat
    const imports: HostImports
    const roughTables: seq<Table>
    var tables: seq<TableInstance>
    const elements: array<Element>
    const memory: Option<Memory>
    const dataSegments: seq<DataSegment>
    const exports: map<string, Export>
    const typeValidation: bool
    /** The function ids the machine was asked to call on behalf of `_start`. */
    var startCalls: seq<int>

    /** The constructor without `initialize`: every field copied, no table
        allocated, every global slot empty. */
    constructor (globalInitializers: seq<Global>, importedGlobalsOffset: nat, importedFunctionsOffset: nat,
                 importedTablesOffset: nat, memory: Option<Memory>, dataSegments: seq<DataSegment>,
                 functions: seq<FunctionBody>, types: seq<FunctionType>, functionTypes: seq<int>,
                 imports: HostImports, tables: seq<Table>, elements: seq<Element>,
                 exports: map<string, Export>, typeValidation: bool)
      ensures this.globalInitializers == globalInitializers && this.functions == functions
      ensures this.types == types && this.functionTypes == functionTypes && this.imports == imports
      ensures this.importedGlobalsOffset == importedGlobalsOffset
      ensures this.importedFunctionsOffset == importedFunctionsOffset
      ensures this.importedTablesOffset == importedTablesOffset
      ensures this.memory == memory && this.dataSegments == dataSegments && this.roughTables == tables
      ensures this.exports == exports && this.typeValidation == typeValidation
      ensures fresh(globals) && globals.Length == |globalInitializers| + importedGlobalsOffset
      ensures forall k :: 0 <= k < globals.Length ==> globals[k] == null
      ensures fresh(this.elements) && this.elements[..] == elements
      ensures this.tables == [] && startCalls == []
    {
      this.globalInitializers := globalInitializers;
      this.globals := new GlobalInstance?[|globalInitializers| + importedGlobalsOffset](_ => null);
      this.importedGlobalsOffset := importedGlobalsOffset;
      this.importedFunctionsOffset := importedFunctionsOffset;
      this.importedTablesOffset := importedTablesOffset;
      this.memory := memory;
      this.dataSegments := dataSegments;
      this.functions := functions;
      this.types := types;
      this.functionTypes := functionTypes;
      this.imports := imports;
      this.roughTables := tables;
      this.elements := new Element[|elements|](k requires 0 <= k < |elements| => elements[k]);
      this.exports := exports;
      this.typeValidation := typeValidation;
      this.tables := [];
      this.startCalls := [];
    }

    function FunctionCount(): int {
      importedFunctionsOffset + |functions|
    }

    /** `function(idx)`: `None` for an import; past the last local function, unknown. */
    function FunctionBodyAt(idx: int): (r: Result<Option<FunctionBody>, WasmError>)
      ensures r.Failure? <==> idx >= FunctionCount()
      ensures r.Failure? ==> r.error == UnknownFunction(idx)
      ensures r == Success(None) <==> idx < importedFunctionsOffset
      ensures r.Success? && r.value.Some? ==> r.value.value == functions[idx - importedFunctionsOffset]
    {
      if idx < importedFunctionsOffset then Success(None)
      else if idx >= |functions| + importedFunctionsOffset then Failure(UnknownFunction(idx))
      else Success(Some(functions[idx - importedFunctionsOffset]))
    }

    /** `global(idx)`: the cell, unchecked; an empty local slot gives `None`. */
    function GlobalInstanceAt(idx: int): (r: Result<Option<GlobalInstance>, WasmError>)
      reads globals
      ensures idx < importedGlobalsOffset ==>
        (r.Success? <==> 0 <= idx < |imports.globals|)
        && (r.Success? ==> r.value == Some(imports.globals[idx].instance))
      ensures idx >= importedGlobalsOffset ==>
        (r.Success? <==> idx - importedGlobalsOffset < globals.Length)
        && (r.Success? ==> r.value == if globals[idx - importedGlobalsOffset] == null then None
                                      else Some(globals[idx - importedGlobalsOffset]))
    {
      if idx < importedGlobalsOffset then
        if 0 <= idx < |imports.globals| then Success(Some(imports.globals[idx].instance)) else Failure(IndexOutOfBounds)
      else
        var i := idx - importedGlobalsOffset;
        if i >= globals.Length then Failure(IndexOutOfBounds)
        else if globals[i] == null then Success(None)
        else Success(Some(globals[i]))
    }

    /** The cells of the globals, imported and local. */
    function GlobalCells(): set<GlobalInstance>
      reads globals
    {
      ImportCells(imports) + set k | 0 <= k < globals.Length && globals[k] != null :: globals[k] as GlobalInstance
    }

    /** `readGlobal(idx)`: an import's cell, or the local slot, which must exist and be set. */
    function ReadGlobal(idx: int): (r: Result<Value, WasmError>)
      reads globals, GlobalCells()`value
      ensures r.Success? <==> GlobalInstanceAt(idx).Success? && GlobalInstanceAt(idx).value.Some?
      ensures r.Success? ==> r.value == GlobalInstanceAt(idx).value.value.value
      ensures idx >= importedGlobalsOffset && r.Failure? ==> r.error == UnknownGlobal(idx - importedGlobalsOffset)
    {
      if idx < importedGlobalsOffset then
        if 0 <= idx < |imports.globals| then Success(imports.globals[idx].instance.value) else Failure(IndexOutOfBounds)
      else
        var i := idx - importedGlobalsOffset;
        if i >= globals.Length || globals[i] == null then Failure(UnknownGlobal(i))
        else Success(globals[i].value)
    }

    /** `globalInitializer(idx)`: `None` for an import. */
    function GlobalInitializer(idx: int): (r: Result<Option<Global>, WasmError>)
      ensures r == Success(None) <==> idx < importedGlobalsOffset
      ensures r.Failure? <==> idx - importedGlobalsOffset >= |globalInitializers|
      ensures r.Failure? ==> r.error == UnknownGlobal(idx)
      ensures r.Success? && r.value.Some? ==> r.value.value == globalInitializers[idx - importedGlobalsOffset]
    {
      if idx < importedGlobalsOffset then Success(None)
      else if idx - importedGlobalsOffset >= |globalInitializers| then Failure(UnknownGlobal(idx))
      else Success(Some(globalInitializers[idx - importedGlobalsOffset]))
    }

    /** `table(idx)`: unknown outside the combined space; an import below the offset. */
    function TableInstanceAt(idx: int): (r: Result<TableInstance, WasmError>)
      reads this`tables
      ensures (idx < 0 || idx >= |tables| + importedTablesOffset) ==> r == Failure(UnknownTable(idx))
      ensures 0 <= idx < importedTablesOffset ==>
        (r.Success? <==> idx < |imports.tables|) && (r.Success? ==> r.value == imports.tables[idx].table)
      ensures importedTablesOffset <= idx < |tables| + importedTablesOffset ==>
        r == Success(tables[idx - importedTablesOffset])
    {
      if idx < 0 || idx >= |tables| + importedTablesOffset then Failure(UnknownTable(idx))
      else if idx < importedTablesOffset then
        if idx < |imports.tables| then Success(imports.tables[idx].table) else Failure(IndexOutOfBounds)
      else Success(tables[idx - importedTablesOffset])
    }

    /** The tables the instance can reach. */
    function TableObjects(): set<TableInstance>
      reads this`tables
    {
      ImportedTables(imports) + set k | 0 <= k < |tables| :: tables[k]
    }

    /** `element(idx)`. */
    function ElementAt(idx: int): (r: Result<Element, WasmError>)
      reads elements
      ensures r.Success? <==> 0 <= idx < elements.Length
      ensures r.Success? ==> r.value == elements[idx]
      ensures r.Failure? ==> r.error == UnknownElemSegment(idx)
    {
      if idx < 0 || idx >= elements.Length then Failure(UnknownElemSegment(idx)) else Success(elements[idx])
    }

    /** `setElement(idx, val)`: the array store. */
    method SetElement(idx: int, val: Element) returns (r: Outcome<WasmError>)
      modifies elements
      ensures r.Pass? <==> 0 <= idx < elements.Length
      ensures r.Pass? ==> elements[..] == old(elements[..])[idx := val] && ElementAt(idx) == Success(val)
      ensures r.Fail? ==> r.error == IndexOutOfBounds && elements[..] == old(elements[..])
    {
      if 0 <= idx < elements.Length {
        elements[idx] := val;
        r := Pass;
      } else {
        r := Fail(IndexOutOfBounds);
      }
    }

    /** `export(name)`: a function export calls into the machine, a global export
        reads the global; any other kind is not implemented. */
    function ExportNamed(name: string): (r: Result<ExportFunction, WasmError>)
      ensures name !in exports ==> r == Failure(UnknownExport(name))
      ensures r.Success? <==> name in exports && exports[name].kind in {FunctionExport, GlobalExport}
      ensures r.Success? && r.value.CallFunction? ==> exports[name] == Export(FunctionExport, r.value.funcId)
      ensures r.Success? && r.value.ReadGlobalExport? ==> exports[name] == Export(GlobalExport, r.value.globalIdx)
    {
      if name !in exports then Failure(UnknownExport(name))
      else
        var e := exports[name];
        if e.kind == FunctionExport then Success(CallFunction(e.index))
        else if e.kind == GlobalExport then Success(ReadGlobalExport(e.index))
        else Failure(NotImplemented)
    }

    /** What the validator reads from the instance. */
    function ValidationEnv(): TypeValidation.Env
      reads globals, GlobalCells(), if memory.Some? then {memory.value} else {}
    {
      TypeValidation.Env(
        types, functionTypes,
        seq(|imports.globals|, k requires 0 <= k < |imports.globals| reads ImportCells(imports) =>
          imports.globals[k].instance.value.vtype),
        importedGlobalsOffset,
        seq(globals.Length, k requires 0 <= k < globals.Length reads globals, GlobalCells() =>
          if globals[k] == null then None else Some(globals[k].value.vtype)),
        if memory.Some? then TypeValidation.HasMemory(memory.value.dataSegments) else TypeValidation.NoMemory)
    }

    /** The global type the validator sees is the type of the value `readGlobal` returns. */
    lemma EnvGlobalType(idx: int)
      ensures TypeValidation.GlobalType(ValidationEnv(), idx).Success? ==> ReadGlobal(idx).Success?
      ensures idx >= importedGlobalsOffset ==>
        (TypeValidation.GlobalType(ValidationEnv(), idx).Success? <==> ReadGlobal(idx).Success?)
      ensures ReadGlobal(idx).Success? ==> TypeValidation.GlobalType(ValidationEnv(), idx) == Success(ReadGlobal(idx).value.vtype)
    {
    }

    /** `writeGlobal(idx, val)` as written: an import's cell is updated, and then
        `globals[idx - offset]` is indexed anyway, at a negative position. */
    method WriteGlobalAsWritten(idx: int, val: Value) returns (r: Outcome<WasmError>)
      modifies GlobalCells()`value
      ensures forall c :: c in GlobalCells() && GlobalInstanceAt(idx) != Success(Some(c)) ==> c.value == old(c.value)
      ensures r == WriteGlobalOutcomeAsWritten(importedGlobalsOffset, |imports.globals|, globals.Length,
                                               idx - importedGlobalsOffset < globals.Length && idx >= importedGlobalsOffset
                                               && globals[idx - importedGlobalsOffset] != null, idx)
      ensures 0 <= idx < importedGlobalsOffset && idx < |imports.globals| ==> imports.globals[idx].instance.value == val
      ensures r.Pass? ==> ReadGlobal(idx) == Success(val)
    {
      if idx < importedGlobalsOffset {
        if !(0 <= idx < |imports.globals|) {
          return Fail(IndexOutOfBounds);
        }
        imports.globals[idx].instance.value := val;
      }
      var i := idx - importedGlobalsOffset;
      if !(0 <= i < globals.Length) {
        return Fail(IndexOutOfBounds);
      }
      if globals[i] == null {
        return Fail(NullPointer);
      }
      globals[i].value := val;
      r := Pass;
    }

    /** `writeGlobal(idx, val)` with the evidently intended `return` after the
        import's cell is updated: the value written is the value read back. */
    method WriteGlobal(idx: int, val: Value) returns (r: Outcome<WasmError>)
      modifies GlobalCells()`value
      ensures forall c :: c in GlobalCells() && GlobalInstanceAt(idx) != Success(Some(c)) ==> c.value == old(c.value)
      ensures r == WriteGlobalOutcome(importedGlobalsOffset, |imports.globals|, globals.Length,
                                      idx - importedGlobalsOffset < globals.Length && idx >= importedGlobalsOffset
                                      && globals[idx - importedGlobalsOffset] != null, idx)
      ensures r.Pass? ==> ReadGlobal(idx) == Success(val)
    {
      if idx < importedGlobalsOffset {
        if !(0 <= idx < |imports.globals|) {
          return Fail(IndexOutOfBounds);
        }
        imports.globals[idx].instance.value := val;
        return Pass;
      }
      var i := idx - importedGlobalsOffset;
      if i >= globals.Length {
        return Fail(IndexOutOfBounds);
      }
      if globals[i] == null {
        return Fail(NullPointer);
      }
      globals[i].value := val;
      r := Pass;
    }

    /** Allocate one table instance per declared table. */
    method AllocateTables()
      modifies this`tables
      ensures |tables| == |roughTables| && startCalls == old(startCalls)
      ensures forall k :: 0 <= k < |tables| ==> fresh(tables[k]) && tables[k].refs == NullRefs(roughTables[k].minSize)
    {
      tables := [];
      for k := 0 to |roughTables|
        invariant |tables| == k && startCalls == old(startCalls)
        invariant forall j :: 0 <= j < k ==> fresh(tables[j]) && tables[j].refs == NullRefs(roughTables[j].minSize)
      {
        var t := new TableInstance(roughTables[k]);
        tables := tables + [t];
      }
    }

    /** One active element segment: resolve its table, evaluate its offset (which
        must be an `i32`), then write its initializers. */
    method InitActiveElement(el: Element, eval: seq<Instruction> -> Value) returns (r: Outcome<WasmError>)
      requires el.ActiveElement?
      modifies TableObjects()`refs
      ensures TableInstanceAt(el.tableIndex).Failure? ==> r == Fail(TableInstanceAt(el.tableIndex).error)
      ensures TableInstanceAt(el.tableIndex).Success? && eval(el.offset).vtype != I32 ==>
        r == Fail(InvalidOffsetType(eval(el.offset).vtype))
      ensures TableInstanceAt(el.tableIndex).Success? && eval(el.offset).vtype == I32 ==>
        var t := TableInstanceAt(el.tableIndex).value;
        var w := WriteElements(old(t.refs), eval(el.offset).AsInt(), InitValues(el, eval), 0, el.elemType == FuncRef, FunctionCount());
        r == w.1 && t.refs == w.0
      ensures forall u :: (u in TableObjects() && (TableInstanceAt(el.tableIndex).Failure? || eval(el.offset).vtype != I32
                           || u != TableInstanceAt(el.tableIndex).value)
        ==> u.refs == old(u.refs))
    {
      var table := TableInstanceAt(el.tableIndex);
      if table.Failure? {
        return Fail(table.error);
      }
      var t := table.value;
      var offset := eval(el.offset);
      if offset.vtype != I32 {
        return Fail(InvalidOffsetType(offset.vtype));
      }
      var values := InitValues(el, eval);
      r := WriteSegment(t, offset.AsInt(), values, el.elemType == FuncRef);
    }

    /** The inner loop over one segment's initializers: a funcref must name a
        known function, and each value goes to slot `offset + k` of `t`. */
    method WriteSegment(t: TableInstance, offset: int32, values: seq<Value>, funcRef: bool) returns (r: Outcome<WasmError>)
      modifies t`refs
      ensures (t.refs, r) == WriteElements(old(t.refs), offset, values, 0, funcRef, FunctionCount())
    {
      for k := 0 to |values|
        invariant WriteElements(old(t.refs), offset, values, 0, funcRef, FunctionCount())
               == WriteElements(t.refs, offset, values, k, funcRef, FunctionCount())
      {
        var index := WrapInt32(offset as int + k);
        var ref := values[k].AsInt();
        if funcRef {
          var f := FunctionBodyAt(ref as int);
          if f.Failure? {
            return Fail(f.error);
          }
        }
        r := t.SetRef(index as int, ref);
        if r.Fail? {
          return;
        }
      }
      r := Pass;
    }

    /** The contents of every table the instance can reach. */
    ghost function TableRefs(): (r: map<TableInstance, seq<int32>>)
      reads this`tables, TableObjects()`refs
      ensures r.Keys == TableObjects()
      ensures forall u :: u in TableObjects() ==> r[u] == u.refs
    {
      map u | u in TableObjects() :: u.refs
    }

    /** The active segments among the first `n` element segments, applied in
        order to the table contents `refs`: each resolves its table and its
        `i32` offset and writes its initializers as `WriteElements` says. The
        first failure stops the fold, keeping the writes made before it. */
    ghost function ElementsWritten(refs: map<TableInstance, seq<int32>>, n: nat, eval: seq<Instruction> -> Value)
      : (r: (map<TableInstance, seq<int32>>, Outcome<WasmError>))
      requires n <= elements.Length && TableObjects() <= refs.Keys
      reads this`tables, elements
      ensures r.0.Keys == refs.Keys
      decreases n
    {
      if n == 0 then (refs, Pass)
      else
        var (m, o) := ElementsWritten(refs, n - 1, eval);
        var el := elements[n - 1];
        if o.Fail? || !el.ActiveElement? then (m, o)
        else match TableInstanceAt(el.tableIndex)
          case Failure(e) => (m, Fail(e))
          case Success(t) =>
            var offset := eval(el.offset);
            if offset.vtype != I32 then (m, Fail(InvalidOffsetType(offset.vtype)))
            else
              assert t in TableObjects();
              var w := WriteElements(m[t], offset.AsInt(), InitValues(el, eval), 0, el.elemType == FuncRef, FunctionCount());
              (m[t := w.0], w.1)
    }

    /** A fold that has failed stays failed, with the same contents. */
    lemma {:induction false} ElementsWrittenFailureStays(refs: map<TableInstance, seq<int32>>, n: nat, eval: seq<Instruction> -> Value)
      requires n <= elements.Length && TableObjects() <= refs.Keys
      requires ElementsWritten(refs, n, eval).1.Fail?
      ensures ElementsWritten(refs, elements.Length, eval) == ElementsWritten(refs, n, eval)
      decreases elements.Length - n
    {
      if n < elements.Length {
        ElementsWrittenFailureStays(refs, n + 1, eval);
      }
    }

    /** A fold that passes has found, for every active segment, its table and an `i32` offset. */
    lemma {:induction false} ElementsWrittenPass(refs: map<TableInstance, seq<int32>>, n: nat, eval: seq<Instruction> -> Value)
      requires n <= elements.Length && TableObjects() <= refs.Keys
      requires ElementsWritten(refs, n, eval).1.Pass?
      ensures forall k :: 0 <= k < n && elements[k].ActiveElement? ==>
        TableInstanceAt(elements[k].tableIndex).Success? && eval(elements[k].offset).vtype == I32
      decreases n
    {
      if n > 0 {
        ElementsWrittenPass(refs, n - 1, eval);
      }
    }

    /** Every active segment in order: the tables end up as the fold of the
        segments over their contents before, whether or not a segment fails. */
    method InitElements(eval: seq<Instruction> -> Value) returns (r: Outcome<WasmError>)
      modifies TableObjects()`refs
      ensures (TableRefs(), r) == ElementsWritten(old(TableRefs()), elements.Length, eval)
      ensures r.Pass? ==> forall k :: 0 <= k < elements.Length && elements[k].ActiveElement? ==>
        TableInstanceAt(elements[k].tableIndex).Success? && eval(elements[k].offset).vtype == I32
    {
      ghost var start := TableRefs();
      for k := 0 to elements.Length
        invariant ElementsWritten(start, k, eval) == (TableRefs(), Pass)
      {
        r := InitSegment(k, eval, start);
        if r.Fail? {
          ElementsWrittenFailureStays(start, k + 1, eval);
          return;
        }
      }
      r := Pass;
      ElementsWrittenPass(start, elements.Length, eval);
    }

    /** One round of the loop over the element segments: segment `k` is written
        when it is active, and the tables move one step along the fold. */
    method InitSegment(k: nat, eval: seq<Instruction> -> Value, ghost start: map<TableInstance, seq<int32>>)
      returns (r: Outcome<WasmError>)
      requires k < elements.Length && start.Keys == TableObjects()
      requires ElementsWritten(start, k, eval) == (TableRefs(), Pass)
      modifies TableObjects()`refs
      ensures ElementsWritten(start, k + 1, eval) == (TableRefs(), r)
    {
      r := Pass;
      if elements[k].ActiveElement? {
        ghost var before := TableRefs();
        r := InitActiveElement(elements[k], eval);
        ghost var t := TableInstanceAt(elements[k].tableIndex);
        if t.Success? && eval(elements[k].offset).vtype == I32 {
          assert TableRefs() == before[t.value := t.value.refs];
        } else {
          assert TableRefs() == before;
        }
      }
    }

    /** Every global initializer succeeded, and each local slot holds the cell
        its initializer names, bound to this instance. */
    predicate GlobalsReady()
      reads globals, GlobalCells()
    {
      InitAll(globalInitializers, imports).Success? && |globalInitializers| <= globals.Length
      && forall i :: 0 <= i < |globalInitializers| ==>
           globals[i] != null && SlotHolds(globals[i], InitAll(globalInitializers, imports).value[i]) && globals[i].owner == this
    }

    /** The loop over the global initializers: each local slot gets the cell its
        initializer names, and every initialised cell, the aliased imported ones
        included, is bound to this instance. */
    method InitGlobals() returns (r: Outcome<WasmError>)
      requires globals.Length >= |globalInitializers|
      modifies globals, ImportCells(imports)`owner
      ensures r == ToOutcome(InitAll(globalInitializers, imports))
      ensures r.Pass? ==> GlobalsReady()
      ensures forall c :: c in ImportCells(imports) ==> c.value == old(c.value)
    {
      ghost var srcs: seq<GlobalSource> := [];
      for i := 0 to |globalInitializers|
        invariant InitAll(globalInitializers[..i], imports) == Success(srcs)
        invariant forall k :: 0 <= k < i ==> SlotHolds(globals[k], srcs[k]) && globals[k].owner == this
        invariant forall c :: c in ImportCells(imports) ==> c.value == old(c.value)
      {
        r, srcs := InitAndBindGlobal(i, srcs);
        if r.Fail? {
          return;
        }
      }
      assert globalInitializers[..|globalInitializers|] == globalInitializers;
      r := Pass;
    }

    /** One round of the loop over the global initializers: initialise global
        `i`, then bind its cell to this instance. */
    method InitAndBindGlobal(i: nat, ghost srcs: seq<GlobalSource>) returns (r: Outcome<WasmError>, ghost srcs': seq<GlobalSource>)
      requires i < |globalInitializers| <= globals.Length
      requires InitAll(globalInitializers[..i], imports) == Success(srcs)
      requires forall k :: 0 <= k < i ==> SlotHolds(globals[k], srcs[k]) && globals[k].owner == this
      modifies globals, ImportCells(imports)`owner
      ensures r.Fail? ==> r == ToOutcome(InitAll(globalInitializers, imports))
      ensures r.Pass? ==> InitAll(globalInitializers[..i + 1], imports) == Success(srcs')
      ensures r.Pass? ==> forall k :: 0 <= k < i + 1 ==> SlotHolds(globals[k], srcs'[k]) && globals[k].owner == this
      ensures forall c :: c in ImportCells(imports) ==> c.value == old(c.value)
    {
      ghost var gs := globalInitializers;
      srcs' := srcs;
      assert forall o :: o in ImportCells(imports) ==> allocated(o);
      r := InitGlobal(i);
      InitAllStep(gs, i, imports);
      if r.Fail? {
        InitAllPrefixFailure(gs, i + 1, imports);
        return;
      }
      srcs' := srcs + [GlobalInit(gs[i], imports).value];
      globals[i].owner := this;
    }

    /** The inner loop over global `i`'s initializer: every instruction sets the
        slot, and a second instruction in a constant global fails. */
    method InitGlobal(i: nat) returns (r: Outcome<WasmError>)
      requires i < |globalInitializers| && i < globals.Length
      modifies globals
      ensures r == ToOutcome(GlobalInit(globalInitializers[i], imports))
      ensures r.Pass? ==> SlotHolds(globals[i], GlobalInit(globalInitializers[i], imports).value)
      ensures r.Pass? ==> globals[i] in ImportCells(imports) || fresh(globals[i])
      ensures forall k :: 0 <= k < globals.Length && k != i ==> globals[k] == old(globals[k])
    {
      var g := globalInitializers[i];
      var instrs := g.initInstructions;
      var current: Option<GlobalSource> := None;
      for j := 0 to |instrs|
        invariant EvalInit(g, instrs, imports, None) == EvalInit(g, instrs[j..], imports, current)
        invariant current.Some? ==> SlotHolds(globals[i], current.value)
        invariant current.Some? ==> globals[i] in ImportCells(imports) || fresh(globals[i])
        invariant forall k :: 0 <= k < globals.Length && k != i ==> globals[k] == old(globals[k])
      {
        assert instrs[j..][0] == instrs[j] && instrs[j..][1..] == instrs[j + 1..];
        EvalInitStep(g, instrs[j..], imports, current);
        assert forall o :: o in ImportCells(imports) ==> allocated(o);
        var s := InitInstruction(g, instrs[j], imports);
        if s.Failure? {
          return Fail(s.error);
        }
        if s.value.Alias? {
          globals[i] := s.value.cell;
        } else {
          globals[i] := new GlobalInstance(s.value.value);
        }
        if current.Some? && g.mutability == Const {
          return Fail(ExtraInstructions);
        }
        current := Some(s.value);
      }
      if current.None? {
        return Fail(UninitializedGlobal);
      }
      r := Pass;
    }

    /** The memory step: the instance's own memory, else the first imported one,
        receives the data segments; with neither, an active segment fails. */
    method InitMemory() returns (r: Outcome<WasmError>)
      modifies MemoryTargets(memory, imports)`dataSegments
      ensures r == ToOutcome(MemoryTarget(memory.Some?, |imports.memories|, dataSegments))
      ensures memory.Some? ==> memory.value.dataSegments == Some(|dataSegments|)
      ensures memory.None? && |imports.memories| > 0 ==> imports.memories[0].dataSegments == Some(|dataSegments|)
    {
      if memory.Some? {
        memory.value.dataSegments := Some(|dataSegments|);
      } else if |imports.memories| > 0 {
        imports.memories[0].dataSegments := Some(|dataSegments|);
      } else if exists k :: 0 <= k < |dataSegments| && dataSegments[k].ActiveDataSegment? {
        return Fail(UnknownMemory(0));
      }
      r := Pass;
    }

    /** The type-validation loop up to combined id `hi`. */
    method ValidateIdsUpTo(hi: int) returns (r: Outcome<WasmError>)
      ensures r == ToOutcome(ValidateIds(functions, importedFunctionsOffset, functionTypes, types, ValidationEnv(), 0, hi))
    {
      var env := ValidationEnv();
      var i := 0;
      while i < hi
        invariant 0 <= i && env == ValidationEnv()
        invariant ValidateIds(functions, importedFunctionsOffset, functionTypes, types, env, 0, hi)
               == ValidateIds(functions, importedFunctionsOffset, functionTypes, types, env, i, hi)
        decreases hi - i
      {
        var f := FunctionBodyAt(i);
        if f.Failure? {
          return Fail(f.error);
        }
        if f.value.Some? {
          var funcType := FunctionTypeAt(functionTypes, i);
          if funcType.Failure? {
            return Fail(funcType.error);
          }
          if funcType.value >= |types| {
            return Fail(UnknownType(funcType.value));
          }
          if funcType.value < 0 {
            return Fail(IndexOutOfBounds);
          }
          r := TypeValidation.ValidateFunction(f.value.value, types[funcType.value], env);
          if r.Fail? {
            assert ValidateIds(functions, importedFunctionsOffset, functionTypes, types, env, i, hi) == Failure(r.error);
            assert env == ValidationEnv();
            return;
          }
        }
        assert ValidateIds(functions, importedFunctionsOffset, functionTypes, types, env, i, hi)
            == ValidateIds(functions, importedFunctionsOffset, functionTypes, types, env, i + 1, hi);
        i := i + 1;
      }
      r := Pass;
    }

    /** The validation loop of `initialize` as written: ids `0 .. functions.length - 1`. */
    method ValidateFunctionsAsWritten() returns (r: Outcome<WasmError>)
      ensures r == ToOutcome(ValidateIds(functions, importedFunctionsOffset, functionTypes, types, ValidationEnv(), 0, |functions|))
      ensures r.Pass? ==> forall k :: 0 <= k < |functions| && importedFunctionsOffset + k < |functions| ==>
        BodyValid(functions, importedFunctionsOffset, functionTypes, types, ValidationEnv(), k)
    {
      r := ValidateIdsUpTo(|functions|);
      if r.Pass? {
        ValidatedBodies(functions, importedFunctionsOffset, functionTypes, types, ValidationEnv(), 0, |functions|);
      }
    }

    /** The validation loop over every local function, ids `offset .. functionCount() - 1`:
        when it passes, every local body type-checks. */
    method ValidateFunctions() returns (r: Outcome<WasmError>)
      ensures r == ToOutcome(ValidateIds(functions, importedFunctionsOffset, functionTypes, types, ValidationEnv(), 0, FunctionCount()))
      ensures r.Pass? ==> forall k :: 0 <= k < |functions| ==>
        BodyValid(functions, importedFunctionsOffset, functionTypes, types, ValidationEnv(), k)
    {
      r := ValidateIdsUpTo(FunctionCount());
      if r.Pass? {
        ValidatedBodies(functions, importedFunctionsOffset, functionTypes, types, ValidationEnv(), 0, FunctionCount());
      }
    }

    /** `_start`: when asked to and exported, call it through its export handle. */
    method RunStart(start: bool) returns (r: Outcome<WasmError>)
      modifies this`startCalls
      ensures !start || StartName !in exports ==> r == Pass && startCalls == old(startCalls)
      ensures start && StartName in exports ==>
        match ExportNamed(StartName)
        case Failure(e) => r == Fail(e) && startCalls == old(startCalls)
        case Success(CallFunction(id)) => r == Pass && startCalls == old(startCalls) + [id]
        case Success(ReadGlobalExport(idx)) => r == ToOutcome(ReadGlobal(idx)) && startCalls == old(startCalls)
      ensures r == StartEffect(start).0 && startCalls == old(startCalls) + StartEffect(start).1
    {
      r := Pass;
      if start && StartName in exports {
        var h := ExportNamed(StartName);
        if h.Failure? {
          return Fail(h.error);
        }
        match h.value
        case CallFunction(id) =>
          startCalls := startCalls + [id];
        case ReadGlobalExport(idx) =>
          r := ToOutcome(ReadGlobal(idx));
      }
    }

    /** The state-building part of `initialize`: tables, element segments,
        globals and memory, in that order; the first failure stops it. */
    method InitState(eval: seq<Instruction> -> Value) returns (r: Outcome<WasmError>, ghost initial: map<TableInstance, seq<int32>>)
      requires globals.Length >= |globalInitializers|
      modifies this`tables, globals, ImportCells(imports)`owner, ImportedTables(imports)`refs
      modifies MemoryTargets(memory, imports)`dataSegments
      ensures |tables| == |roughTables| && startCalls == old(startCalls)
      ensures initial.Keys == TableObjects()
      ensures forall u :: u in ImportedTables(imports) ==> initial[u] == old(u.refs)
      ensures forall k :: 0 <= k < |tables| ==> fresh(tables[k]) && initial[tables[k]] == NullRefs(roughTables[k].minSize)
      ensures forall u :: u in TableObjects() ==> u.refs == ElementsWritten(initial, elements.Length, eval).0[u]
      ensures r == StateOutcome(initial, eval)
      ensures forall c :: c in ImportCells(imports) ==> c.value == old(c.value)
      ensures r.Pass? ==> GlobalsReady() && DataHandedOver()
    {
      r, initial := InitTables(eval);
      if r.Fail? {
        return;
      }
      ghost var written := ElementsWritten(initial, elements.Length, eval);
      r := InitGlobalsAndMemory();
      assert ElementsWritten(initial, elements.Length, eval) == written;
    }

    /** The globals, then the memory. */
    method InitGlobalsAndMemory() returns (r: Outcome<WasmError>)
      requires globals.Length >= |globalInitializers|
      modifies globals, ImportCells(imports)`owner, MemoryTargets(memory, imports)`dataSegments
      ensures r == GlobalsAndMemoryOutcome()
      ensures forall c :: c in ImportCells(imports) ==> c.value == old(c.value)
      ensures forall u :: u in TableObjects() ==> u.refs == old(u.refs)
      ensures InitAll(globalInitializers, imports).Success? ==> GlobalsReady() && DataHandedOver()
      ensures InitAll(globalInitializers, imports).Failure? ==>
        forall m :: m in MemoryTargets(memory, imports) ==> m.dataSegments == old(m.dataSegments)
    {
      r := InitGlobals();
      if r.Fail? {
        return;
      }
      assert forall o :: o in GlobalCells() ==> allocated(o);
      r := InitMemory();
    }

    /** The table part of `initialize`: a null-filled table per declaration,
        then the active element segments written over them and the imported tables. */
    method InitTables(eval: seq<Instruction> -> Value) returns (r: Outcome<WasmError>, ghost initial: map<TableInstance, seq<int32>>)
      modifies this`tables, ImportedTables(imports)`refs
      ensures |tables| == |roughTables| && startCalls == old(startCalls)
      ensures initial.Keys == TableObjects()
      ensures forall u :: u in ImportedTables(imports) ==> initial[u] == old(u.refs)
      ensures forall k :: 0 <= k < |tables| ==> fresh(tables[k]) && initial[tables[k]] == NullRefs(roughTables[k].minSize)
      ensures (TableRefs(), r) == ElementsWritten(initial, elements.Length, eval)
    {
      AllocateTables();
      initial := TableRefs();
      r := InitElements(eval);
    }

    /** `initialize(start)`: the state, then type validation when enabled, then
        the start function; the first failure stops it. Validation runs the loop
        as written, over function ids below `functions.length`. */
    method Initialize(start: bool, eval: seq<Instruction> -> Value) returns (r: Outcome<WasmError>, ghost initial: map<TableInstance, seq<int32>>)
      requires globals.Length >= |globalInitializers|
      modifies this`tables, this`startCalls, globals, ImportCells(imports)`owner, ImportedTables(imports)`refs
      modifies MemoryTargets(memory, imports)`dataSegments
      ensures |tables| == |roughTables|
      ensures initial.Keys == TableObjects()
      ensures forall u :: u in ImportedTables(imports) ==> initial[u] == old(u.refs)
      ensures forall k :: 0 <= k < |tables| ==> fresh(tables[k]) && initial[tables[k]] == NullRefs(roughTables[k].minSize)
      ensures forall u :: u in TableObjects() ==> u.refs == ElementsWritten(initial, elements.Length, eval).0[u]
      ensures r == InitializeOutcome(initial, start, eval)
      ensures startCalls == old(startCalls) + (if StateOutcome(initial, eval).Pass? && ValidationOutcome().Pass? then StartEffect(start).1 else [])
      ensures StateOutcome(initial, eval).Pass? ==> GlobalsReady() && DataHandedOver()
      ensures r.Pass? && typeValidation ==> ValidatedAsWritten()
    {
      r, initial := InitState(eval);
      if r.Fail? {
        return;
      }
      r := Complete(start, initial, eval);
    }

    /** Validation and `_start` leave what the state-building steps produced alone. */
    method Complete(start: bool, ghost initial: map<TableInstance, seq<int32>>, eval: seq<Instruction> -> Value)
      returns (r: Outcome<WasmError>)
      requires TableObjects() <= initial.Keys
      modifies this`startCalls
      ensures StateOutcome(initial, eval) == old(StateOutcome(initial, eval))
      ensures ElementsWritten(initial, elements.Length, eval) == old(ElementsWritten(initial, elements.Length, eval))
      ensures GlobalsReady() == old(GlobalsReady()) && DataHandedOver() == old(DataHandedOver())
      ensures r == FirstFailure(ValidationOutcome(), StartEffect(start).0)
      ensures startCalls == old(startCalls) + (if ValidationOutcome().Pass? then StartEffect(start).1 else [])
      ensures r.Pass? && typeValidation ==> ValidatedAsWritten()
    {
      assert forall o :: o in ImportCells(imports) ==> allocated(o);
      r := ValidateAndStart(start);
    }

    /** The state-building steps of `initialize`, first failure first: the element
        segments over the tables' start `initial`, then the globals and the memory. */
    ghost function StateOutcome(initial: map<TableInstance, seq<int32>>, eval: seq<Instruction> -> Value): Outcome<WasmError>
      requires TableObjects() <= initial.Keys
      reads this`tables, elements, ImportCells(imports)`value
    {
      FirstFailure(ElementsWritten(initial, elements.Length, eval).1, GlobalsAndMemoryOutcome())
    }

    /** The outcome of `initialize`: the state, then validation, then `_start`;
        the first failure is the one reported. */
    ghost function InitializeOutcome(initial: map<TableInstance, seq<int32>>, start: bool, eval: seq<Instruction> -> Value): Outcome<WasmError>
      requires TableObjects() <= initial.Keys
      reads this`tables, elements, globals, GlobalCells(), if memory.Some? then {memory.value} else {}
    {
      FirstFailure(StateOutcome(initial, eval), FirstFailure(ValidationOutcome(), StartEffect(start).0))
    }

    /** The globals, then the memory: the first global that fails to initialise,
        else whether a memory takes the data segments. */
    function GlobalsAndMemoryOutcome(): Outcome<WasmError>
      reads ImportCells(imports)`value
    {
      match InitAll(globalInitializers, imports)
      case Failure(e) => Fail(e)
      case Success(_) => ToOutcome(MemoryTarget(memory.Some?, |imports.memories|, dataSegments))
    }

    /** The memory `initialize` chose holds the instance's data segments. */
    ghost predicate DataHandedOver()
      reads MemoryTargets(memory, imports)
    {
      && (memory.Some? ==> memory.value.dataSegments == Some(|dataSegments|))
      && (memory.None? && |imports.memories| > 0 ==> imports.memories[0].dataSegments == Some(|dataSegments|))
    }

    /** Type validation as `initialize` runs it: the loop as written when enabled. */
    ghost function ValidationOutcome(): Outcome<WasmError>
      reads globals, GlobalCells(), if memory.Some? then {memory.value} else {}
    {
      if typeValidation then ToOutcome(ValidateIds(functions, importedFunctionsOffset, functionTypes, types, ValidationEnv(), 0, |functions|))
      else Pass
    }

    /** The start step: its outcome and the function ids it calls. */
    function StartEffect(start: bool): (Outcome<WasmError>, seq<int>)
      reads globals, GlobalCells()`value
    {
      if !start || StartName !in exports then (Pass, [])
      else match ExportNamed(StartName)
        case Failure(e) => (Fail(e), [])
        case Success(CallFunction(id)) => (Pass, [id])
        case Success(ReadGlobalExport(idx)) => (ToOutcome(ReadGlobal(idx)), [])
    }

    /** Every local body the validation loop as written reaches is valid. */
    ghost predicate ValidatedAsWritten()
      reads globals, GlobalCells(), if memory.Some? then {memory.value} else {}
    {
      forall k :: 0 <= k < |functions| && importedFunctionsOffset + k < |functions| ==>
        BodyValid(functions, importedFunctionsOffset, functionTypes, types, ValidationEnv(), k)
    }

    /** The end of `initialize`: type validation when enabled, then the start function. */
    method ValidateAndStart(start: bool) returns (r: Outcome<WasmError>)
      modifies this`startCalls
      ensures r == FirstFailure(ValidationOutcome(), StartEffect(start).0)
      ensures startCalls == old(startCalls) + (if ValidationOutcome().Pass? then StartEffect(start).1 else [])
      ensures r.Pass? && typeValidation ==> ValidatedAsWritten()
    {
      if typeValidation {
        r := ValidateFunctionsAsWritten();
        if r.Fail? {
          return;
        }
      }
      ghost var env := ValidationEnv();
      r := RunStart(start);
      assert ValidationEnv() == env;
    }
  }

  /** Two steps in sequence: the first one's failure, else the second one's outcome. */
  function FirstFailure(a: Outcome<WasmError>, b: Outcome<WasmError>): (r: Outcome<WasmError>)
    ensures r.Pass? <==> a.Pass? && b.Pass?
    ensures a.Fail? ==> r == a
  {
    if a.Fail? then a else b
  }

  /** `Module.START_FUNCTION_NAME`. */
  const StartName: string := "_start"

  /** The outcome of `writeGlobal` as written, from the slot layout: any index
      below the offset ends at a negative array index. */
  function WriteGlobalOutcomeAsWritten(offset: nat, importCount: nat, slots: nat, slotSet: bool, idx: int): (r: Outcome<WasmError>)
  {
    if idx < offset then Fail(IndexOutOfBounds)
    else if idx - offset >= slots then Fail(IndexOutOfBounds)
    else if !slotSet then Fail(NullPointer)
    else Pass
  }

  /** The outcome of `writeGlobal` with the intended `return` for imports. */
  function WriteGlobalOutcome(offset: nat, importCount: nat, slots: nat, slotSet: bool, idx: int): (r: Outcome<WasmError>)
  {
    if idx < offset then (if 0 <= idx < importCount then Pass else Fail(IndexOutOfBounds))
    else if idx - offset >= slots then Fail(IndexOutOfBounds)
    else if !slotSet then Fail(NullPointer)
    else Pass
  }

  /** As written, writing any imported global throws, after the import's cell was updated. */
  lemma ImportedWriteAlwaysThrows(offset: nat, importCount: nat, slots: nat, slotSet: bool, idx: int)
    requires idx < offset
    ensures WriteGlobalOutcomeAsWritten(offset, importCount, slots, slotSet, idx) == Fail(IndexOutOfBounds)
  {
  }

  /** With the `return`, writing an imported global succeeds exactly when the import exists;
      local globals behave as before. */
  lemma ImportedWriteSucceeds(offset: nat, importCount: nat, slots: nat, slotSet: bool, idx: int)
    ensures idx < offset ==> (WriteGlobalOutcome(offset, importCount, slots, slotSet, idx).Pass? <==> 0 <= idx < importCount)
    ensures idx >= offset ==> WriteGlobalOutcome(offset, importCount, slots, slotSet, idx)
                              == WriteGlobalOutcomeAsWritten(offset, importCount, slots, slotSet, idx)
  {
  }

  /** The initializer values of a segment, each evaluated as a constant expression. */
  function InitValues(el: Element, eval: seq<Instruction> -> Value): (r: seq<Value>)
    ensures |r| == |el.initializers|
    ensures forall k :: 0 <= k < |r| ==> r[k] == eval(el.initializers[k])
  {
    seq(|el.initializers|, k requires 0 <= k < |el.initializers| => eval(el.initializers[k]))
  }

  /** `new Instance(..., initialize, start, typeValidation)`. */
  method NewInstance(globalInitializers: seq<Global>, importedGlobalsOffset: nat, importedFunctionsOffset: nat,
                     importedTablesOffset: nat, memory: Option<Memory>, dataSegments: seq<DataSegment>,
                     functions: seq<FunctionBody>, types: seq<FunctionType>, functionTypes: seq<int>,
                     imports: HostImports, tables: seq<Table>, elements: seq<Element>,
                     exports: map<string, Export>, initialize: bool, start: bool, typeValidation: bool,
                     eval: seq<Instruction> -> Value)
    returns (inst: Instance, r: Outcome<WasmError>, ghost initial: map<TableInstance, seq<int32>>)
    modifies ImportCells(imports)`owner, ImportedTables(imports)`refs
    modifies MemoryTargets(memory, imports)`dataSegments
    ensures fresh(inst)
    ensures !initialize ==> r.Pass? && inst.tables == [] && inst.startCalls == []
    ensures initialize ==> inst.TableObjects() <= initial.Keys && r == inst.InitializeOutcome(initial, start, eval)
    ensures initialize ==>
              forall u :: u in inst.TableObjects() ==> u.refs == inst.ElementsWritten(initial, inst.elements.Length, eval).0[u]
    ensures initialize ==>
              inst.startCalls == if inst.StateOutcome(initial, eval).Pass? && inst.ValidationOutcome().Pass?
                                 then inst.StartEffect(start).1 else []
    ensures initialize && inst.StateOutcome(initial, eval).Pass? ==> inst.GlobalsReady() && inst.DataHandedOver()
  {
    inst := new Instance(globalInitializers, importedGlobalsOffset, importedFunctionsOffset, importedTablesOffset,
                         memory, dataSegments, functions, types, functionTypes, imports, tables, elements,
                         exports, typeValidation);
    r := Pass;
    initial := map[];
    if initialize {
      r, initial := inst.Initialize(start, eval);
    }
  }
}
