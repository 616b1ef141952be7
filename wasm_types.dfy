/** The WebAssembly vocabulary shared by the runtime, the validator, the compiler
    and the host-module processor: value types, function types, opcodes,
    decoded instructions and runtime values. */
module WasmTypes {
  import opened Wrappers

  const I32Min: int := -0x8000_0000
  const I32Max: int := 0x7fff_ffff
  const I64Min: int := -0x8000_0000_0000_0000
  const I64Max: int := 0x7fff_ffff_ffff_ffff

  /** A Java `int`. */
  newtype int32 = x: int | -0x8000_0000 <= x < 0x8000_0000
  /** A Java `long`. */
  newtype int64 = x: int | -0x8000_0000_0000_0000 <= x < 0x8000_0000_0000_0000

  /** The `(int)` cast of a Java `long`: keep the low 32 bits, two's complement. */
  function ToInt32(x: int64): (r: int32)
    ensures I32Min <= x as int <= I32Max ==> r as int == x as int
    ensures (r as int - x as int) % 0x1_0000_0000 == 0
  {
    var low := (x as int) % 0x1_0000_0000;
    if low < 0x8000_0000 then low as int32 else (low - 0x1_0000_0000) as int32
  }

  /** Java `int` addition: the exact sum, wrapped to 32 bits. */
  function WrapInt32(x: int): (r: int32)
    ensures I32Min <= x <= I32Max ==> r as int == x
    ensures (r as int - x) % 0x1_0000_0000 == 0
  {
    var low := x % 0x1_0000_0000;
    if low < 0x8000_0000 then low as int32 else (low - 0x1_0000_0000) as int32
  }

  /** Value types; `Unknown` is the validator's polymorphic placeholder. */
  datatype ValueType = I32 | I64 | F32 | F64 | V128 | FuncRef | ExternRef | Unknown {
    /** Reference types are the two table element types. */
    predicate IsReference() { this == FuncRef || this == ExternRef }
  }

  /** The binary encoding of each value type (section 5.3.1 of the WebAssembly Core Specification 2.0). */
  function TypeId(t: ValueType): int {
    match t
    case I32 => 0x7f
    case I64 => 0x7e
    case F32 => 0x7d
    case F64 => 0x7c
    case V128 => 0x7b
    case FuncRef => 0x70
    case ExternRef => 0x6f
    case Unknown => -1
  }

  /** `ValueType.isValid`: is `id` the encoding of a concrete value type? */
  predicate IsValidTypeId(id: int) {
    id in {0x7f, 0x7e, 0x7d, 0x7c, 0x7b, 0x70, 0x6f}
  }

  /** `ValueType.forId`. */
  function ForId(id: int): (t: ValueType)
    requires IsValidTypeId(id)
    ensures TypeId(t) == id && t != Unknown
  {
    if id == 0x7f then I32
    else if id == 0x7e then I64
    else if id == 0x7d then F32
    else if id == 0x7c then F64
    else if id == 0x7b then V128
    else if id == 0x70 then FuncRef
    else ExternRef
  }

  /** A function signature; `results` is the source's `returns()`. */
  datatype FunctionType = FunctionType(params: seq<ValueType>, results: seq<ValueType>)

  /** An opcode, numbered as in the binary format; the 0xFC-prefixed ones are
      0xFC00 plus their second byte. */
  newtype OpCode = x: int | 0 <= x < 0x1_0000

  const Unreachable: OpCode := 0x00
  const Nop: OpCode := 0x01
  const Block: OpCode := 0x02
  const Loop: OpCode := 0x03
  const If: OpCode := 0x04
  const Else: OpCode := 0x05
  const End: OpCode := 0x0B
  const Br: OpCode := 0x0C
  const BrIf: OpCode := 0x0D
  const BrTable: OpCode := 0x0E
  const Return: OpCode := 0x0F
  const Call: OpCode := 0x10
  const CallIndirect: OpCode := 0x11
  const Drop: OpCode := 0x1A
  const Select: OpCode := 0x1B
  const SelectT: OpCode := 0x1C
  const LocalGet: OpCode := 0x20
  const LocalSet: OpCode := 0x21
  const LocalTee: OpCode := 0x22
  const GlobalGet: OpCode := 0x23
  const GlobalSet: OpCode := 0x24
  const TableGet: OpCode := 0x25
  const TableSet: OpCode := 0x26
  const I32Load: OpCode := 0x28
  const I64Load: OpCode := 0x29
  const F32Load: OpCode := 0x2A
  const F64Load: OpCode := 0x2B
  const I32Load8S: OpCode := 0x2C
  const I32Load8U: OpCode := 0x2D
  const I32Load16S: OpCode := 0x2E
  const I32Load16U: OpCode := 0x2F
  const I64Load8S: OpCode := 0x30
  const I64Load8U: OpCode := 0x31
  const I64Load16S: OpCode := 0x32
  const I64Load16U: OpCode := 0x33
  const I64Load32S: OpCode := 0x34
  const I64Load32U: OpCode := 0x35
  const I32Store: OpCode := 0x36
  const I64Store: OpCode := 0x37
  const F32Store: OpCode := 0x38
  const F64Store: OpCode := 0x39
  const I32Store8: OpCode := 0x3A
  const I32Store16: OpCode := 0x3B
  const I64Store8: OpCode := 0x3C
  const I64Store16: OpCode := 0x3D
  const I64Store32: OpCode := 0x3E
  const MemorySize: OpCode := 0x3F
  const MemoryGrow: OpCode := 0x40
  const I32Const: OpCode := 0x41
  const I64Const: OpCode := 0x42
  const F32Const: OpCode := 0x43
  const F64Const: OpCode := 0x44
  const I32Eqz: OpCode := 0x45
  const I32Eq: OpCode := 0x46
  const I32Ne: OpCode := 0x47
  const I32LtS: OpCode := 0x48
  const I32LtU: OpCode := 0x49
  const I32GtS: OpCode := 0x4A
  const I32GtU: OpCode := 0x4B
  const I32LeS: OpCode := 0x4C
  const I32LeU: OpCode := 0x4D
  const I32GeS: OpCode := 0x4E
  const I32GeU: OpCode := 0x4F
  const I64Eqz: OpCode := 0x50
  const I64Eq: OpCode := 0x51
  const I64Ne: OpCode := 0x52
  const I64LtS: OpCode := 0x53
  const I64LtU: OpCode := 0x54
  const I64GtS: OpCode := 0x55
  const I64GtU: OpCode := 0x56
  const I64LeS: OpCode := 0x57
  const I64LeU: OpCode := 0x58
  const I64GeS: OpCode := 0x59
  const I64GeU: OpCode := 0x5A
  const F32Eq: OpCode := 0x5B
  const F32Ne: OpCode := 0x5C
  const F32Lt: OpCode := 0x5D
  const F32Gt: OpCode := 0x5E
  const F32Le: OpCode := 0x5F
  const F32Ge: OpCode := 0x60
  const F64Eq: OpCode := 0x61
  const F64Ne: OpCode := 0x62
  const F64Lt: OpCode := 0x63
  const F64Gt: OpCode := 0x64
  const F64Le: OpCode := 0x65
  const F64Ge: OpCode := 0x66
  const I32Clz: OpCode := 0x67
  const I32Ctz: OpCode := 0x68
  const I32Popcnt: OpCode := 0x69
  const I32Add: OpCode := 0x6A
  const I32Sub: OpCode := 0x6B
  const I32Mul: OpCode := 0x6C
  const I32DivS: OpCode := 0x6D
  const I32DivU: OpCode := 0x6E
  const I32RemS: OpCode := 0x6F
  const I32RemU: OpCode := 0x70
  const I32And: OpCode := 0x71
  const I32Or: OpCode := 0x72
  const I32Xor: OpCode := 0x73
  const I32Shl: OpCode := 0x74
  const I32ShrS: OpCode := 0x75
  const I32ShrU: OpCode := 0x76
  const I32Rotl: OpCode := 0x77
  const I32Rotr: OpCode := 0x78
  const I64Clz: OpCode := 0x79
  const I64Ctz: OpCode := 0x7A
  const I64Popcnt: OpCode := 0x7B
  const I64Add: OpCode := 0x7C
  const I64Sub: OpCode := 0x7D
  const I64Mul: OpCode := 0x7E
  const I64DivS: OpCode := 0x7F
  const I64DivU: OpCode := 0x80
  const I64RemS: OpCode := 0x81
  const I64RemU: OpCode := 0x82
  const I64And: OpCode := 0x83
  const I64Or: OpCode := 0x84
  const I64Xor: OpCode := 0x85
  const I64Shl: OpCode := 0x86
  const I64ShrS: OpCode := 0x87
  const I64ShrU: OpCode := 0x88
  const I64Rotl: OpCode := 0x89
  const I64Rotr: OpCode := 0x8A
  const F32Abs: OpCode := 0x8B
  const F32Neg: OpCode := 0x8C
  const F32Ceil: OpCode := 0x8D
  const F32Floor: OpCode := 0x8E
  const F32Trunc: OpCode := 0x8F
  const F32Nearest: OpCode := 0x90
  const F32Sqrt: OpCode := 0x91
  const F32Add: OpCode := 0x92
  const F32Sub: OpCode := 0x93
  const F32Mul: OpCode := 0x94
  const F32Div: OpCode := 0x95
  const F32Min: OpCode := 0x96
  const F32Max: OpCode := 0x97
  const F32Copysign: OpCode := 0x98
  const F64Abs: OpCode := 0x99
  const F64Neg: OpCode := 0x9A
  const F64Ceil: OpCode := 0x9B
  const F64Floor: OpCode := 0x9C
  const F64Trunc: OpCode := 0x9D
  const F64Nearest: OpCode := 0x9E
  const F64Sqrt: OpCode := 0x9F
  const F64Add: OpCode := 0xA0
  const F64Sub: OpCode := 0xA1
  const F64Mul: OpCode := 0xA2
  const F64Div: OpCode := 0xA3
  const F64Min: OpCode := 0xA4
  const F64Max: OpCode := 0xA5
  const F64Copysign: OpCode := 0xA6
  const I32WrapI64: OpCode := 0xA7
  const I32TruncF32S: OpCode := 0xA8
  const I32TruncF32U: OpCode := 0xA9
  const I32TruncF64S: OpCode := 0xAA
  const I32TruncF64U: OpCode := 0xAB
  const I64ExtendI32S: OpCode := 0xAC
  const I64ExtendI32U: OpCode := 0xAD
  const I64TruncF32S: OpCode := 0xAE
  const I64TruncF32U: OpCode := 0xAF
  const I64TruncF64S: OpCode := 0xB0
  const I64TruncF64U: OpCode := 0xB1
  const F32ConvertI32S: OpCode := 0xB2
  const F32ConvertI32U: OpCode := 0xB3
  const F32ConvertI64S: OpCode := 0xB4
  const F32ConvertI64U: OpCode := 0xB5
  const F32DemoteF64: OpCode := 0xB6
  const F64ConvertI32S: OpCode := 0xB7
  const F64ConvertI32U: OpCode := 0xB8
  const F64ConvertI64S: OpCode := 0xB9
  const F64ConvertI64U: OpCode := 0xBA
  const F64PromoteF32: OpCode := 0xBB
  const I32ReinterpretF32: OpCode := 0xBC
  const I64ReinterpretF64: OpCode := 0xBD
  const F32ReinterpretI32: OpCode := 0xBE
  const F64ReinterpretI64: OpCode := 0xBF
  const I32Extend8S: OpCode := 0xC0
  const I32Extend16S: OpCode := 0xC1
  const I64Extend8S: OpCode := 0xC2
  const I64Extend16S: OpCode := 0xC3
  const I64Extend32S: OpCode := 0xC4
  const RefNull: OpCode := 0xD0
  const RefIsNull: OpCode := 0xD1
  const RefFunc: OpCode := 0xD2
  const I32TruncSatF32S: OpCode := 0xFC00
  const I32TruncSatF32U: OpCode := 0xFC01
  const I32TruncSatF64S: OpCode := 0xFC02
  const I32TruncSatF64U: OpCode := 0xFC03
  const I64TruncSatF32S: OpCode := 0xFC04
  const I64TruncSatF32U: OpCode := 0xFC05
  const I64TruncSatF64S: OpCode := 0xFC06
  const I64TruncSatF64U: OpCode := 0xFC07
  const MemoryInit: OpCode := 0xFC08
  const DataDrop: OpCode := 0xFC09
  const MemoryCopy: OpCode := 0xFC0A
  const MemoryFill: OpCode := 0xFC0B
  const TableInit: OpCode := 0xFC0C
  const ElemDrop: OpCode := 0xFC0D
  const TableCopy: OpCode := 0xFC0E
  const TableGrow: OpCode := 0xFC0F
  const TableSize: OpCode := 0xFC10
  const TableFill: OpCode := 0xFC11

  /** A decoded instruction: its opcode, its immediate operands (Java `long`s),
      its structured nesting depth, and the index of the instruction a branch targets. */
  datatype Instruction = Instruction(opcode: OpCode, operands: seq<int64>, depth: int, labelTrue: int)

  /** Operand `k` of an instruction, cast to a Java `int`. */
  function IntOperand(ins: Instruction, k: nat): int
    requires k < |ins.operands|
  {
    ToInt32(ins.operands[k]) as int
  }

  /** A runtime value: its type and its raw bits (for references, the referenced index). */
  datatype Value = Value(vtype: ValueType, raw: int64) {
    /** `asInt()`, `asFuncRef()`, `asExtRef()`: the raw bits cast to a Java `int`. */
    function AsInt(): int32 { ToInt32(raw) }
  }

  /** The raw bits of a null reference. */
  const RefNullValue: int64 := -1

  /** `Value.EXTREF_NULL`. */
  const ExternRefNull: Value := Value(ExternRef, RefNullValue)

  /** The exceptions raised by the runtime, one constructor per distinct cause.
      `InvalidException`s carry what their message names. */
  datatype WasmError =
    // InvalidException raised while validating a function body
    | TypeMismatch(expected: Option<ValueType>, have: Option<ValueType>)
    | NotReference(found: ValueType)
    | UnknownMemory(memIdx: int)
    | UnknownDataSegment(segmentIdx: int)
    | UnknownLocal
    // InvalidException raised by the instance's lookups
    | UnknownType(typeIdx: int)
    | UnknownFunction(funcIdx: int)
    | UnknownGlobal(globalIdx: int)
    | UnknownTable(tableIdx: int)
    | UnknownElemSegment(elemIdx: int)
    // InvalidException raised while initialising globals and memory
    | GlobalTypeMismatch(expectedType: ValueType, actualType: ValueType)
    | ConstantExpressionRequired
    | MutableGlobalInInitializer
    | NonImportedGlobalInInitializer
    | ExtraInstructions
    | UninitializedGlobal
    // ChicoryException
    | InvalidOffsetType(offsetType: ValueType)
    | UnknownExport(name: string)
    | NotImplemented
    // IllegalArgumentException: the validator has no rule for the opcode
    | MissingRule(opcode: OpCode)
    // IllegalArgumentException from `ValueType.forId` on an id that is no value type
    | InvalidValueType(typeId: int)
    // Java runtime exceptions
    | IndexOutOfBounds
    | NullPointer
}
