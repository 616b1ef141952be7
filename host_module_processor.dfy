/** The host-module annotation processor's signature logic: how the Java
    parameter and return types of an `@WasmExport` method map to WebAssembly
    value types, how `processMethod` assigns argument indices, and how a
    module file's exports are checked against the annotated methods. Java
    types are seen by their printed names, as the processor's `switch`es see them. */
module HostModules {
  import opened Wrappers
  import opened WasmTypes

  const IntName: string := "int"
  const LongName: string := "long"
  const FloatName: string := "float"
  const DoubleName: string := "double"
  const VoidName: string := "void"
  const StringName: string := "java.lang.String"
  const InstanceName: string := "com.dylibso.chicory.runtime.Instance"
  const ValueArrayName: string := "Value[]"

  /** A parameter of an annotated method: its printed type, and whether it
      carries `@Buffer` and `@CString`. */
  datatype Parameter = Parameter(typeName: string, buffer: bool, cString: bool)

  /** A method of the annotated class. `wasmExport` is the value of its
      `@WasmExport` annotation, `None` when it has none; `derivedName` is what
      `camelCaseToSnakeCase` makes of its simple name. */
  datatype HostMethod = HostMethod(simpleName: string, derivedName: string, wasmExport: Option<string>,
                                   params: seq<Parameter>, returnTypeName: string)

  datatype ProcessorError =
    // `log(ERROR, message)` followed by `AbortProcessingException`
    | Abort(message: string)
    // the IllegalArgumentException of `checkType`
    | FunctionTypeMismatch(name: string, expected: seq<ValueType>, received: seq<ValueType>)
    // the NullPointerException of `checkType` when the module has no export of that name
    | NullExpected(name: string)
    // an index past the end of a section of the module file
    | LookupOutOfBounds(index: int)

  const MissingStringAnnotation: string := "Missing annotation for WASM type: java.lang.String"
  const MultiValueMessage: string :=
    "When the WASM module declares a function returning multiple values, from JAva we need to fallback to Value[]"

  /** `exportName`: the annotation's value, or the derived name when that is empty. */
  function ExportName(m: HostMethod): (r: string)
    ensures m.wasmExport.Some? && m.wasmExport.value != [] ==> r == m.wasmExport.value
    ensures (m.wasmExport.None? || m.wasmExport.value == []) ==> r == m.derivedName
  {
    var name := if m.wasmExport.Some? then m.wasmExport.value else [];
    if name == [] then m.derivedName else name
  }

  // ---------------------------------------------------------------------------
  // extractParameters, extractReturns, checkType
  // ---------------------------------------------------------------------------

  /** The value types `extractParameters` gives one parameter. */
  function ParamWasmTypes(p: Parameter): (r: Result<seq<ValueType>, ProcessorError>)
    ensures p.typeName == StringName && p.buffer ==> r == Success([I32, I32])
    ensures p.typeName == StringName && !p.buffer && !p.cString ==> r == Failure(Abort(MissingStringAnnotation))
    ensures p.typeName == InstanceName ==> r.Failure?
    ensures r.Success? ==> 1 <= |r.value| <= 2
  {
    if p.typeName == IntName then Success([I32])
    else if p.typeName == LongName then Success([I64])
    else if p.typeName == FloatName then Success([F32])
    else if p.typeName == DoubleName then Success([F64])
    else if p.typeName == StringName then
      if p.buffer then Success([I32, I32])
      else if p.cString then Success([I32])
      else Failure(Abort(MissingStringAnnotation))
    else Failure(Abort("Cannot extract the Wasm Parameter type from " + p.typeName))
  }

  /** The value types of a parameter list: each parameter's in order, or the
      first failure. */
  function ExtractedParams(ps: seq<Parameter>): Result<seq<ValueType>, ProcessorError>
    decreases |ps|
  {
    if ps == [] then Success([])
    else
      var n := |ps| - 1;
      var front :- ExtractedParams(ps[..n]);
      var last :- ParamWasmTypes(ps[n]);
      Success(front + last)
  }

  /** `extractParameters`. */
  method ExtractParameters(ps: seq<Parameter>) returns (r: Result<seq<ValueType>, ProcessorError>)
    ensures r == ExtractedParams(ps)
  {
    var params: seq<ValueType> := [];
    var i := 0;
    while i < |ps|
      invariant 0 <= i <= |ps|
      invariant ExtractedParams(ps[..i]) == Success(params)
    {
      assert ps[..i + 1][..i] == ps[..i];
      var types := ParamWasmTypes(ps[i]);
      if types.Failure? {
        ExtractedParamsFailureStays(ps, i + 1);
        return Failure(types.error);
      }
      params := params + types.value;
      i := i + 1;
    }
    assert ps[..|ps|] == ps;
    return Success(params);
  }

  /** A parameter that fails to map fails the whole list. */
  lemma {:induction false} ExtractedParamsFailureStays(ps: seq<Parameter>, i: nat)
    requires i <= |ps| && ExtractedParams(ps[..i]).Failure?
    ensures ExtractedParams(ps) == ExtractedParams(ps[..i])
    decreases |ps| - i
  {
    if i < |ps| {
      assert ps[..i + 1][..i] == ps[..i];
      ExtractedParamsFailureStays(ps, i + 1);
    } else {
      assert ps[..i] == ps;
    }
  }

  /** A parameter list maps exactly when each parameter does, and a list
      without `String`s maps to one value type per parameter. */
  lemma {:induction false} ExtractedParamsIff(ps: seq<Parameter>)
    ensures ExtractedParams(ps).Success? <==> forall i :: 0 <= i < |ps| ==> ParamWasmTypes(ps[i]).Success?
    ensures ExtractedParams(ps).Success? && (forall i :: 0 <= i < |ps| ==> ps[i].typeName != StringName)
            ==> |ExtractedParams(ps).value| == |ps|
    decreases |ps|
  {
    if ps != [] {
      var n := |ps| - 1;
      ExtractedParamsIff(ps[..n]);
      assert forall i :: 0 <= i < n ==> ps[..n][i] == ps[i];
    }
  }

  /** `extractReturns`: the single value type of a numeric return type. */
  function ExtractReturns(returnTypeName: string): (r: Result<seq<ValueType>, ProcessorError>)
    ensures r.Success? <==> returnTypeName in {IntName, LongName, FloatName, DoubleName}
    ensures r.Success? ==> |r.value| == 1
    ensures returnTypeName == StringName ==> r == Failure(Abort("java.lang.String not supported as a return type"))
  {
    if returnTypeName == IntName then Success([I32])
    else if returnTypeName == LongName then Success([I64])
    else if returnTypeName == FloatName then Success([F32])
    else if returnTypeName == DoubleName then Success([F64])
    else if returnTypeName == StringName then Failure(Abort("java.lang.String not supported as a return type"))
    else Failure(Abort("Cannot extract the Wasm Return type from " + returnTypeName))
  }

  /** `checkType`: the expected and received lists must be equal; an absent
      expected list is a null dereference. */
  function CheckType(name: string, expected: Option<seq<ValueType>>, received: seq<ValueType>): (r: Outcome<ProcessorError>)
    ensures r.Pass? <==> expected == Some(received)
    ensures expected.None? ==> r == Fail(NullExpected(name))
    ensures expected.Some? && r.Fail? ==> r.error == FunctionTypeMismatch(name, expected.value, received)
  {
    if expected.None? then Fail(NullExpected(name))
    else if expected.value == received then Pass
    else Fail(FunctionTypeMismatch(name, expected.value, received))
  }

  // ---------------------------------------------------------------------------
  // processMethod
  // ---------------------------------------------------------------------------

  /** How the generated handler obtains one Java argument from `args`. */
  datatype ArgExpr =
    | AsInt(arg: nat)                       // args[k].asInt()
    | AsLong(arg: nat)                      // args[k].asLong()
    | AsFloat(arg: nat)                     // args[k].asFloat()
    | AsDouble(arg: nat)                    // args[k].asDouble()
    | ReadString(ptrArg: nat, lenArg: nat)  // instance.memory().readString(args[k].asInt(), args[k+1].asInt())
    | ReadCString(ptrArg: nat)              // instance.memory().readCString(args[k].asInt())
    | InstanceArg                           // the instance itself

  /** The parameter types and arguments computed so far. */
  datatype ParamsOut = ParamsOut(types: seq<ValueType>, args: seq<ArgExpr>)

  /** One parameter of `processMethod`: the value types it adds and its
      argument, whose index is the number `k` of value types before it. */
  function ParamStep(p: Parameter, k: nat): Result<ParamsOut, ProcessorError> {
    if p.typeName == IntName then Success(ParamsOut([I32], [AsInt(k)]))
    else if p.typeName == LongName then Success(ParamsOut([I64], [AsLong(k)]))
    else if p.typeName == FloatName then Success(ParamsOut([F32], [AsFloat(k)]))
    else if p.typeName == DoubleName then Success(ParamsOut([F64], [AsDouble(k)]))
    else if p.typeName == StringName then
      if p.buffer then Success(ParamsOut([I32, I32], [ReadString(k, k + 1)]))
      else if p.cString then Success(ParamsOut([I32], [ReadCString(k)]))
      else Failure(Abort(MissingStringAnnotation))
    else if p.typeName == InstanceName then Success(ParamsOut([], [InstanceArg]))
    else Failure(Abort("Unsupported WASM type: " + p.typeName))
  }

  /** The parameter part of `processMethod` over a parameter list. */
  function ProcessedParams(ps: seq<Parameter>): Result<ParamsOut, ProcessorError>
    decreases |ps|
  {
    if ps == [] then Success(ParamsOut([], []))
    else
      var n := |ps| - 1;
      var front :- ProcessedParams(ps[..n]);
      var step :- ParamStep(ps[n], |front.types|);
      Success(ParamsOut(front.types + step.types, front.args + step.args))
  }

  /** The return part of `processMethod`: the result types and the name of
      the `Value` factory that boxes the result (`None`: the handler returns null). */
  datatype ReturnOut = ReturnOut(types: seq<ValueType>, boxer: Option<string>)

  function ReturnMapping(returnTypeName: string): (r: Result<ReturnOut, ProcessorError>)
    ensures r.Success? ==> (r.value.types == [] <==> r.value.boxer.None?)
    ensures r.Success? <==> returnTypeName in {VoidName, IntName, LongName, FloatName, DoubleName}
    ensures r.Success? && returnTypeName != VoidName ==> Success(r.value.types) == ExtractReturns(returnTypeName)
  {
    if returnTypeName == VoidName then Success(ReturnOut([], None))
    else if returnTypeName == IntName then Success(ReturnOut([I32], Some("i32")))
    else if returnTypeName == LongName then Success(ReturnOut([I64], Some("i64")))
    else if returnTypeName == FloatName then Success(ReturnOut([F32], Some("fromFloat")))
    else if returnTypeName == DoubleName then Success(ReturnOut([F64], Some("fromDouble")))
    else Failure(Abort("Unsupported WASM type: " + returnTypeName))
  }

  /** The `HostFunction` that `processMethod` generates: module and export
      name, parameter types, the handler's arguments, result types, the Java
      method it invokes and the boxer of its result. */
  datatype HostFunctionDecl = HostFunctionDecl(moduleName: string, name: string, paramTypes: seq<ValueType>,
                                               args: seq<ArgExpr>, returnTypes: seq<ValueType>,
                                               invokes: string, boxer: Option<string>)

  function ProcessedMethod(m: HostMethod, moduleName: string): Result<HostFunctionDecl, ProcessorError> {
    var ps :- ProcessedParams(m.params);
    var ret :- ReturnMapping(m.returnTypeName);
    Success(HostFunctionDecl(moduleName, ExportName(m), ps.types, ps.args, ret.types, m.simpleName, ret.boxer))
  }

  /** A parameter that fails to process fails the whole list. */
  lemma {:induction false} ProcessedParamsFailureStays(ps: seq<Parameter>, i: nat)
    requires i <= |ps| && ProcessedParams(ps[..i]).Failure?
    ensures ProcessedParams(ps) == ProcessedParams(ps[..i])
    decreases |ps| - i
  {
    if i < |ps| {
      assert ps[..i + 1][..i] == ps[..i];
      ProcessedParamsFailureStays(ps, i + 1);
    } else {
      assert ps[..i] == ps;
    }
  }

  /** `processMethod`. */
  method ProcessMethod(m: HostMethod, moduleName: string) returns (r: Result<HostFunctionDecl, ProcessorError>)
    ensures r == ProcessedMethod(m, moduleName)
  {
    var name := ExportName(m);
    var paramTypes: seq<ValueType> := [];
    var arguments: seq<ArgExpr> := [];
    var i := 0;
    while i < |m.params|
      invariant 0 <= i <= |m.params|
      invariant ProcessedParams(m.params[..i]) == Success(ParamsOut(paramTypes, arguments))
    {
      assert m.params[..i + 1][..i] == m.params[..i];
      var step := ParamStep(m.params[i], |paramTypes|);
      if step.Failure? {
        ProcessedParamsFailureStays(m.params, i + 1);
        return Failure(step.error);
      }
      paramTypes := paramTypes + step.value.types;
      arguments := arguments + step.value.args;
      i := i + 1;
    }
    assert m.params[..|m.params|] == m.params;
    var ret := ReturnMapping(m.returnTypeName);
    if ret.Failure? {
      return Failure(ret.error);
    }
    return Success(HostFunctionDecl(moduleName, name, paramTypes, arguments, ret.value.types, m.simpleName, ret.value.boxer));
  }

  // ---------------------------------------------------------------------------
  // What processMethod guarantees
  // ---------------------------------------------------------------------------

  /** The indices of `args` an argument reads, in order. */
  function ArgIndices(a: ArgExpr): seq<nat> {
    match a
    case AsInt(k) => [k]
    case AsLong(k) => [k]
    case AsFloat(k) => [k]
    case AsDouble(k) => [k]
    case ReadString(p, l) => [p, l]
    case ReadCString(p) => [p]
    case InstanceArg => []
  }

  /** The indices all arguments read, in order. */
  function Consumed(args: seq<ArgExpr>): seq<nat>
    decreases |args|
  {
    if args == [] then [] else Consumed(args[..|args| - 1]) + ArgIndices(args[|args| - 1])
  }

  /** `0, 1, …, n-1`. */
  function Upto(n: nat): (r: seq<nat>)
    ensures |r| == n && forall i :: 0 <= i < n ==> r[i] == i
  {
    seq(n, i requires 0 <= i < n => i)
  }

  /** An argument reads value types the parameter list declares, of the type its conversion expects. */
  predicate ArgWellTyped(a: ArgExpr, types: seq<ValueType>) {
    match a
    case AsInt(k) => k < |types| && types[k] == I32
    case AsLong(k) => k < |types| && types[k] == I64
    case AsFloat(k) => k < |types| && types[k] == F32
    case AsDouble(k) => k < |types| && types[k] == F64
    case ReadString(p, l) => l == p + 1 && l < |types| && types[p] == I32 && types[l] == I32
    case ReadCString(p) => p < |types| && types[p] == I32
    case InstanceArg => true
  }

  /** One parameter's step: a single argument, reading the `|types|` value
      types that follow the `k` before it, each with its conversion. */
  lemma ParamStepShape(p: Parameter, k: nat, pre: seq<ValueType>)
    requires ParamStep(p, k).Success? && |pre| == k
    ensures var s := ParamStep(p, k).value;
            |s.args| == 1
            && ArgIndices(s.args[0]) == Span(k, |s.types|)
            && ArgWellTyped(s.args[0], pre + s.types)
  {
  }

  /** `k, k+1, …, k+m-1`. */
  function Span(k: nat, m: nat): (r: seq<nat>)
    ensures |r| == m && forall i :: 0 <= i < m ==> r[i] == k + i
  {
    seq(m, i requires 0 <= i < m => k + i)
  }

  lemma UptoSplit(k: nat, m: nat)
    ensures Upto(k) + Span(k, m) == Upto(k + m)
  {
  }

  lemma ConsumedAppend(args: seq<ArgExpr>, a: ArgExpr)
    ensures Consumed(args + [a]) == Consumed(args) + ArgIndices(a)
  {
    assert (args + [a])[..|args|] == args;
  }

  /** Appending value types keeps an argument well typed. */
  lemma WellTypedExtends(a: ArgExpr, types: seq<ValueType>, more: seq<ValueType>)
    requires ArgWellTyped(a, types)
    ensures ArgWellTyped(a, types + more)
  {
  }

  /** Appending an argument well typed over the extended value types keeps
      every argument well typed. */
  lemma AllWellTypedAppend(args: seq<ArgExpr>, types: seq<ValueType>, a: ArgExpr, more: seq<ValueType>)
    requires forall j :: 0 <= j < |args| ==> ArgWellTyped(args[j], types)
    requires ArgWellTyped(a, types + more)
    ensures forall j :: 0 <= j < |args + [a]| ==> ArgWellTyped((args + [a])[j], types + more)
  {
    forall j | 0 <= j < |args + [a]| ensures ArgWellTyped((args + [a])[j], types + more) {
      if j < |args| {
        WellTypedExtends(args[j], types, more);
      }
    }
  }

  /** The handler reads every declared value type exactly once, in order, each
      with the conversion its type calls for, and passes one Java argument per
      parameter. */
  lemma {:induction false} ArgumentsConsumeParams(ps: seq<Parameter>)
    requires ProcessedParams(ps).Success?
    ensures var out := ProcessedParams(ps).value;
            |out.args| == |ps|
            && Consumed(out.args) == Upto(|out.types|)
            && forall j :: 0 <= j < |out.args| ==> ArgWellTyped(out.args[j], out.types)
    decreases |ps|
  {
    if ps != [] {
      var n := |ps| - 1;
      ArgumentsConsumeParams(ps[..n]);
      var front := ProcessedParams(ps[..n]).value;
      var k := |front.types|;
      var step := ParamStep(ps[n], k).value;
      var out := ProcessedParams(ps).value;
      assert out == ParamsOut(front.types + step.types, front.args + step.args);
      ParamStepShape(ps[n], k, front.types);
      assert step.args == [step.args[0]];
      ConsumedAppend(front.args, step.args[0]);
      UptoSplit(k, |step.types|);
      AllWellTypedAppend(front.args, front.types, step.args[0], step.types);
    }
  }

  /** Where `extractParameters` succeeds, `processMethod` declares the same
      parameter types; it differs only in also accepting `Instance`
      parameters, which add no type. */
  lemma {:induction false} ProcessAgreesWithExtract(ps: seq<Parameter>)
    requires ExtractedParams(ps).Success?
    ensures ProcessedParams(ps).Success? && ProcessedParams(ps).value.types == ExtractedParams(ps).value
    decreases |ps|
  {
    if ps != [] {
      ProcessAgreesWithExtract(ps[..|ps| - 1]);
    }
  }

  // ---------------------------------------------------------------------------
  // The module-file check
  // ---------------------------------------------------------------------------

  datatype ExternalKind = FunctionKind | TableKind | MemoryKind | GlobalKind

  datatype Export = Export(name: string, kind: ExternalKind, index: nat)

  /** What the signature check reads from a parsed module: the type index of each
      imported function, its exports, the type index of each local function,
      and its types. */
  datatype WasmModule = WasmModule(importedFunctions: seq<nat>, exports: seq<Export>,
                                   functionSection: seq<nat>, types: seq<FunctionType>)

  /** The type the export loop records for an export: the type of the local
      function at the export's index, whatever its kind. */
  function ExportTypeAsWritten(mod: WasmModule, e: Export): (r: Result<FunctionType, ProcessorError>)
    ensures r.Success? <==> e.index < |mod.functionSection| && mod.functionSection[e.index] < |mod.types|
    ensures r.Success? ==> r.value == mod.types[mod.functionSection[e.index]]
  {
    if e.index >= |mod.functionSection| then Failure(LookupOutOfBounds(e.index))
    else if mod.functionSection[e.index] >= |mod.types| then Failure(LookupOutOfBounds(mod.functionSection[e.index]))
    else Success(mod.types[mod.functionSection[e.index]])
  }

  /** The export loop: a type per export name, later exports overriding earlier ones. */
  function ExportSignaturesAsWritten(mod: WasmModule, n: nat): (r: Result<map<string, FunctionType>, ProcessorError>)
    requires n <= |mod.exports|
    ensures r.Success? <==> forall i :: 0 <= i < n ==> ExportTypeAsWritten(mod, mod.exports[i]).Success?
    ensures r.Success? ==> r.value.Keys == set i | 0 <= i < n :: mod.exports[i].name
    decreases n
  {
    if n == 0 then Success(map[])
    else
      var front :- ExportSignaturesAsWritten(mod, n - 1);
      var ft :- ExportTypeAsWritten(mod, mod.exports[n - 1]);
      Success(front[mod.exports[n - 1].name := ft])
  }

  /** The type index of function `idx` in the function index space, where
      the imported functions come first. */
  function FunctionTypeIndex(mod: WasmModule, idx: nat): Option<nat> {
    if idx < |mod.importedFunctions| then Some(mod.importedFunctions[idx])
    else if idx - |mod.importedFunctions| < |mod.functionSection| then Some(mod.functionSection[idx - |mod.importedFunctions|])
    else None
  }

  /** The type of an exported function, looked up in the function index space. */
  function ExportType(mod: WasmModule, e: Export): (r: Result<FunctionType, ProcessorError>)
    requires e.kind == FunctionKind
    ensures r.Success? <==> FunctionTypeIndex(mod, e.index).Some? && FunctionTypeIndex(mod, e.index).value < |mod.types|
    ensures r.Success? ==> r.value == mod.types[FunctionTypeIndex(mod, e.index).value]
  {
    match FunctionTypeIndex(mod, e.index)
    case None => Failure(LookupOutOfBounds(e.index))
    case Some(t) => if t < |mod.types| then Success(mod.types[t]) else Failure(LookupOutOfBounds(t))
  }

  /** The export loop as intended: the type of each exported function. */
  function ExportSignatures(mod: WasmModule, n: nat): Result<map<string, FunctionType>, ProcessorError>
    requires n <= |mod.exports|
    decreases n
  {
    if n == 0 then Success(map[])
    else
      var front :- ExportSignatures(mod, n - 1);
      var e := mod.exports[n - 1];
      if e.kind != FunctionKind then Success(front)
      else
        var ft :- ExportType(mod, e);
        Success(front[e.name := ft])
  }

  /** With distinct export names, the intended signatures give each exported
      function its own type, and name nothing that is not an exported function. */
  lemma {:induction false} ExportSignaturesCorrect(mod: WasmModule, n: nat)
    requires n <= |mod.exports| && ExportSignatures(mod, n).Success?
    requires forall i, j :: 0 <= i < j < |mod.exports| ==> mod.exports[i].name != mod.exports[j].name
    ensures forall i :: 0 <= i < n && mod.exports[i].kind == FunctionKind ==>
              mod.exports[i].name in ExportSignatures(mod, n).value && ExportType(mod, mod.exports[i]).Success?
              && ExportSignatures(mod, n).value[mod.exports[i].name] == ExportType(mod, mod.exports[i]).value
    ensures forall name :: name in ExportSignatures(mod, n).value ==>
              exists i :: 0 <= i < n && mod.exports[i].kind == FunctionKind && mod.exports[i].name == name
    decreases n
  {
    if n > 0 {
      ExportSignaturesCorrect(mod, n - 1);
    }
  }

  /** The module file exports function 1 — its first local function, of type
      `(i32) -> ()` — after importing function 0; the export loop records the
      second local function's type `() -> (i64)` for it instead. */
  lemma ExportLoopSkipsImports()
    ensures var mod := WasmModule([0], [Export("f", FunctionKind, 1)], [0, 1],
                                  [FunctionType([I32], []), FunctionType([], [I64])]);
            ExportSignaturesAsWritten(mod, 1) == Success(map["f" := FunctionType([], [I64])])
            && ExportSignatures(mod, 1) == Success(map["f" := FunctionType([I32], [])])
  {
    var mod := WasmModule([0], [Export("f", FunctionKind, 1)], [0, 1],
                          [FunctionType([I32], []), FunctionType([], [I64])]);
    assert ExportTypeAsWritten(mod, mod.exports[0]) == Success(FunctionType([], [I64]));
    assert FunctionTypeIndex(mod, 1) == Some(0);
  }

  /** The per-method check of the loop over annotated methods, as written:
      parameters through `extractParameters`, then `extractReturns` before the
      multi-value case is considered. */
  function CheckMemberAsWritten(sigs: map<string, FunctionType>, m: HostMethod): (r: Outcome<ProcessorError>)
    ensures r.Pass? <==> ExportName(m) in sigs && ExtractedParams(m.params) == Success(sigs[ExportName(m)].params)
                         && ExtractReturns(m.returnTypeName) == Success(sigs[ExportName(m)].results)
  {
    var name := ExportName(m);
    var expected := if name in sigs then Some(sigs[name]) else None;
    match ExtractedParams(m.params)
    case Failure(e) => Fail(e)
    case Success(received) =>
      :- CheckType(name, if expected.Some? then Some(expected.value.params) else None, received);
      // `expected` is present here: a missing export failed `checkType` above
      match ExtractReturns(m.returnTypeName)
      case Failure(e) => Fail(e)
      case Success(receivedReturns) =>
        if |expected.value.results| > 1 then
          if m.returnTypeName != ValueArrayName then Fail(Abort(MultiValueMessage)) else Pass
        else CheckType(name, Some(expected.value.results), receivedReturns)
  }

  /** As written, no method returning `void`, none taking an `Instance`, and
      none matching a multi-value export passes the signature check. */
  lemma CheckAsWrittenRejects(sigs: map<string, FunctionType>, m: HostMethod)
    ensures m.returnTypeName == VoidName ==> CheckMemberAsWritten(sigs, m).Fail?
    ensures (exists i :: 0 <= i < |m.params| && m.params[i].typeName == InstanceName) ==> CheckMemberAsWritten(sigs, m).Fail?
    ensures ExportName(m) in sigs && |sigs[ExportName(m)].results| > 1 ==> CheckMemberAsWritten(sigs, m).Fail?
  {
    if exists i :: 0 <= i < |m.params| && m.params[i].typeName == InstanceName {
      var i :| 0 <= i < |m.params| && m.params[i].typeName == InstanceName;
      ExtractedParamsIff(m.params);
    }
  }

  /** The per-method check as intended: the signature `processMethod`
      generates must be the export's; a multi-value export needs `Value[]`. */
  function CheckMember(sigs: map<string, FunctionType>, m: HostMethod): Outcome<ProcessorError> {
    var name := ExportName(m);
    match ProcessedParams(m.params)
    case Failure(e) => Fail(e)
    case Success(ps) =>
      :- CheckType(name, if name in sigs then Some(sigs[name].params) else None, ps.types);
      if |sigs[name].results| > 1 then
        if m.returnTypeName != ValueArrayName then Fail(Abort(MultiValueMessage)) else Pass
      else
        match ReturnMapping(m.returnTypeName)
        case Failure(e) => Fail(e)
        case Success(ret) => CheckType(name, Some(sigs[name].results), ret.types)
  }

  /** A method `processMethod` accepts passes the intended check exactly when
      the module exports a function of its name with the signature generated for it. */
  lemma CheckMemberIff(sigs: map<string, FunctionType>, m: HostMethod, moduleName: string)
    requires ProcessedMethod(m, moduleName).Success?
    ensures var d := ProcessedMethod(m, moduleName).value;
            CheckMember(sigs, m).Pass? <==> d.name in sigs && sigs[d.name] == FunctionType(d.paramTypes, d.returnTypes)
  {
  }

  /** The methods of `Simple` that the signature check wrongly turns away: `exit()`
      returns `void`, `randomGet` takes the `Instance`; both match their exports. */
  lemma SimpleRejectedAsWritten()
    ensures var exit := HostMethod("exit", "exit", Some(""), [], VoidName);
            var sigs := map["exit" := FunctionType([], [])];
            CheckMemberAsWritten(sigs, exit).Fail? && CheckMember(sigs, exit).Pass?
    ensures var randomGet := HostMethod("randomGet", "random_get", Some(""),
                                        [Parameter(InstanceName, false, false), Parameter(IntName, false, false),
                                         Parameter(IntName, false, false)], VoidName);
            var sigs := map["random_get" := FunctionType([I32, I32], [])];
            CheckMemberAsWritten(sigs, randomGet).Fail? && CheckMember(sigs, randomGet).Pass?
  {
    var inst := Parameter(InstanceName, false, false);
    var num := Parameter(IntName, false, false);
    var ps1, ps2, ps3 := [inst], [inst, num], [inst, num, num];
    assert ps1[..0] == [] && ps1[0] == inst;
    assert ps2[..1] == ps1 && ps2[1] == num;
    assert ps3[..2] == ps2 && ps3[2] == num;
    assert ProcessedParams(ps1[..0]) == Success(ParamsOut([], []));
    assert ProcessedParams(ps1).Success? && ProcessedParams(ps1).value.types == [];
    assert ProcessedParams(ps2).Success? && ProcessedParams(ps2).value.types == [I32];
    assert ProcessedParams(ps3).Success? && ProcessedParams(ps3).value.types == [I32, I32];
  }

  /** The check as written is stricter than the intended one: a method it
      passes also passes the intended check, and `processMethod` accepts it. */
  lemma CheckAsWrittenStricter(sigs: map<string, FunctionType>, m: HostMethod)
    requires CheckMemberAsWritten(sigs, m).Pass?
    ensures CheckMember(sigs, m).Pass?
    ensures ProcessedParams(m.params).Success? && ReturnMapping(m.returnTypeName).Success?
  {
    ProcessAgreesWithExtract(m.params);
  }

  // ---------------------------------------------------------------------------
  // processModule
  // ---------------------------------------------------------------------------

  /** The annotated methods, in order. */
  function Exported(members: seq<HostMethod>): seq<HostMethod>
    decreases |members|
  {
    if members == [] then []
    else
      var n := |members| - 1;
      Exported(members[..n]) + (if members[n].wasmExport.Some? then [members[n]] else [])
  }

  /** The signature check of the methods `ms` against `sigs`, as written: the first failure, if any. */
  function CheckAll(sigs: map<string, FunctionType>, ms: seq<HostMethod>): Outcome<ProcessorError>
    decreases |ms|
  {
    if ms == [] then Pass
    else
      var n := |ms| - 1;
      :- CheckAll(sigs, ms[..n]);
      CheckMemberAsWritten(sigs, ms[n])
  }

  /** The intended signature check of the methods `ms` against `sigs`. */
  function IntendedCheckAll(sigs: map<string, FunctionType>, ms: seq<HostMethod>): Outcome<ProcessorError>
    decreases |ms|
  {
    if ms == [] then Pass
    else
      var n := |ms| - 1;
      :- IntendedCheckAll(sigs, ms[..n]);
      CheckMember(sigs, ms[n])
  }

  /** The host functions generated for the methods `ms`, or the first failure. */
  function ProcessAll(moduleName: string, ms: seq<HostMethod>): Result<seq<HostFunctionDecl>, ProcessorError>
    decreases |ms|
  {
    if ms == [] then Success([])
    else
      var n := |ms| - 1;
      var front :- ProcessAll(moduleName, ms[..n]);
      var d :- ProcessedMethod(ms[n], moduleName);
      Success(front + [d])
  }

  /** What `processModule` makes of an annotated class, as written: with a
      module file, the export loop and the signature check of every annotated
      method first, then a host function per annotated method. */
  function ModuleFunctions(moduleName: string, moduleFile: Option<WasmModule>, members: seq<HostMethod>)
    : Result<seq<HostFunctionDecl>, ProcessorError>
  {
    if moduleFile.Some? then
      var sigs :- ExportSignaturesAsWritten(moduleFile.value, |moduleFile.value.exports|);
      match CheckAll(sigs, Exported(members))
      case Fail(e) => Failure(e)
      case Pass => ProcessAll(moduleName, Exported(members))
    else ProcessAll(moduleName, Exported(members))
  }

  /** What `processModule` is meant to make of an annotated class: the export
      loop over exported functions in the function index space, and the
      signature check of the signatures `processMethod` generates. */
  function IntendedModuleFunctions(moduleName: string, moduleFile: Option<WasmModule>, members: seq<HostMethod>)
    : Result<seq<HostFunctionDecl>, ProcessorError>
  {
    if moduleFile.Some? then
      var sigs :- ExportSignatures(moduleFile.value, |moduleFile.value.exports|);
      match IntendedCheckAll(sigs, Exported(members))
      case Fail(e) => Failure(e)
      case Pass => ProcessAll(moduleName, Exported(members))
    else ProcessAll(moduleName, Exported(members))
  }

  /** A class that is processed yields one host function per annotated
      method, in order, under its export name and, with a module file, with
      the signature the export loop recorded under that name. */
  lemma {:induction false} ModuleFunctionsLayout(moduleName: string, moduleFile: Option<WasmModule>, members: seq<HostMethod>)
    requires ModuleFunctions(moduleName, moduleFile, members).Success?
    ensures var ds := ModuleFunctions(moduleName, moduleFile, members).value;
            var ms := Exported(members);
            |ds| == |ms|
            && (forall k :: 0 <= k < |ms| ==> ProcessedMethod(ms[k], moduleName).Success? && ds[k] == ProcessedMethod(ms[k], moduleName).value && ds[k].name == ExportName(ms[k]))
            && (moduleFile.Some? ==>
                  var sigs := ExportSignaturesAsWritten(moduleFile.value, |moduleFile.value.exports|).value;
                  forall k :: 0 <= k < |ds| ==> ds[k].name in sigs && sigs[ds[k].name] == FunctionType(ds[k].paramTypes, ds[k].returnTypes))
  {
    var ms := Exported(members);
    ProcessAllLayout(moduleName, ms);
    if moduleFile.Some? {
      var sigs := ExportSignaturesAsWritten(moduleFile.value, |moduleFile.value.exports|).value;
      CheckAllPasses(sigs, ms);
      var ds := ModuleFunctions(moduleName, moduleFile, members).value;
      forall k | 0 <= k < |ds|
        ensures ds[k].name in sigs && sigs[ds[k].name] == FunctionType(ds[k].paramTypes, ds[k].returnTypes)
      {
        CheckAsWrittenStricter(sigs, ms[k]);
        CheckMemberIff(sigs, ms[k], moduleName);
      }
    }
  }

  /** The same layout for the intended composition, with the signature of
      the exported function in the function index space. */
  lemma {:induction false} IntendedModuleFunctionsLayout(moduleName: string, moduleFile: Option<WasmModule>, members: seq<HostMethod>)
    requires IntendedModuleFunctions(moduleName, moduleFile, members).Success?
    ensures var ds := IntendedModuleFunctions(moduleName, moduleFile, members).value;
            var ms := Exported(members);
            |ds| == |ms|
            && (forall k :: 0 <= k < |ms| ==> ProcessedMethod(ms[k], moduleName).Success? && ds[k] == ProcessedMethod(ms[k], moduleName).value && ds[k].name == ExportName(ms[k]))
            && (moduleFile.Some? ==>
                  var sigs := ExportSignatures(moduleFile.value, |moduleFile.value.exports|).value;
                  forall k :: 0 <= k < |ds| ==> ds[k].name in sigs && sigs[ds[k].name] == FunctionType(ds[k].paramTypes, ds[k].returnTypes))
  {
    var ms := Exported(members);
    ProcessAllLayout(moduleName, ms);
    if moduleFile.Some? {
      var sigs := ExportSignatures(moduleFile.value, |moduleFile.value.exports|).value;
      IntendedCheckAllPasses(sigs, ms);
      var ds := IntendedModuleFunctions(moduleName, moduleFile, members).value;
      forall k | 0 <= k < |ds|
        ensures ds[k].name in sigs && sigs[ds[k].name] == FunctionType(ds[k].paramTypes, ds[k].returnTypes)
      {
        CheckMemberIff(sigs, ms[k], moduleName);
      }
    }
  }

  /** Without imported functions and with only function exports, the two
      export loops record the same signatures. */
  lemma {:induction false} ExportSignaturesAgree(mod: WasmModule, n: nat)
    requires n <= |mod.exports| && mod.importedFunctions == []
    requires forall i :: 0 <= i < |mod.exports| ==> mod.exports[i].kind == FunctionKind
    ensures ExportSignaturesAsWritten(mod, n) == ExportSignatures(mod, n)
    decreases n
  {
    if n > 0 {
      ExportSignaturesAgree(mod, n - 1);
    }
  }

  /** What the check as written passes, the intended check passes. */
  lemma {:induction false} CheckAllStricter(sigs: map<string, FunctionType>, ms: seq<HostMethod>)
    requires CheckAll(sigs, ms).Pass?
    ensures IntendedCheckAll(sigs, ms).Pass?
    decreases |ms|
  {
    if ms != [] {
      CheckAllStricter(sigs, ms[..|ms| - 1]);
      CheckAsWrittenStricter(sigs, ms[|ms| - 1]);
    }
  }

  /** Where the module file has no imported functions and exports only
      functions, a class `processModule` accepts as written is processed
      exactly as intended; the two differ only by what the source rejects. */
  lemma ModuleFunctionsAgree(moduleName: string, moduleFile: Option<WasmModule>, members: seq<HostMethod>)
    requires ModuleFunctions(moduleName, moduleFile, members).Success?
    requires moduleFile.Some? ==> moduleFile.value.importedFunctions == []
    requires moduleFile.Some? ==>
               forall i :: 0 <= i < |moduleFile.value.exports| ==> moduleFile.value.exports[i].kind == FunctionKind
    ensures IntendedModuleFunctions(moduleName, moduleFile, members) == ModuleFunctions(moduleName, moduleFile, members)
  {
    if moduleFile.Some? {
      var mod := moduleFile.value;
      ExportSignaturesAgree(mod, |mod.exports|);
      CheckAllStricter(ExportSignatures(mod, |mod.exports|).value, Exported(members));
    }
  }

  lemma {:induction false} ProcessAllLayout(moduleName: string, ms: seq<HostMethod>)
    requires ProcessAll(moduleName, ms).Success?
    ensures |ProcessAll(moduleName, ms).value| == |ms|
    ensures forall k :: 0 <= k < |ms| ==>
              ProcessedMethod(ms[k], moduleName).Success?
              && ProcessAll(moduleName, ms).value[k] == ProcessedMethod(ms[k], moduleName).value
    decreases |ms|
  {
    if ms != [] {
      ProcessAllLayout(moduleName, ms[..|ms| - 1]);
    }
  }

  lemma {:induction false} CheckAllPasses(sigs: map<string, FunctionType>, ms: seq<HostMethod>)
    requires CheckAll(sigs, ms).Pass?
    ensures forall k :: 0 <= k < |ms| ==> CheckMemberAsWritten(sigs, ms[k]).Pass?
    decreases |ms|
  {
    if ms != [] {
      CheckAllPasses(sigs, ms[..|ms| - 1]);
    }
  }

  lemma {:induction false} IntendedCheckAllPasses(sigs: map<string, FunctionType>, ms: seq<HostMethod>)
    requires IntendedCheckAll(sigs, ms).Pass?
    ensures forall k :: 0 <= k < |ms| ==> CheckMember(sigs, ms[k]).Pass?
    decreases |ms|
  {
    if ms != [] {
      IntendedCheckAllPasses(sigs, ms[..|ms| - 1]);
    }
  }

  // ---------------------------------------------------------------------------
  // The loops of processModule
  // ---------------------------------------------------------------------------

  lemma {:induction false} ExportSignaturesFailureStays(mod: WasmModule, i: nat)
    requires i <= |mod.exports| && ExportSignaturesAsWritten(mod, i).Failure?
    ensures ExportSignaturesAsWritten(mod, |mod.exports|) == ExportSignaturesAsWritten(mod, i)
    decreases |mod.exports| - i
  {
    if i < |mod.exports| {
      ExportSignaturesFailureStays(mod, i + 1);
    }
  }

  /** The loop over the module file's exports, recording under each export's
      name the type of the local function at its index. */
  method ExportTypes(mod: WasmModule) returns (r: Result<map<string, FunctionType>, ProcessorError>)
    ensures r == ExportSignaturesAsWritten(mod, |mod.exports|)
  {
    var sigs: map<string, FunctionType> := map[];
    var i := 0;
    while i < |mod.exports|
      invariant 0 <= i <= |mod.exports|
      invariant ExportSignaturesAsWritten(mod, i) == Success(sigs)
    {
      var e := mod.exports[i];
      var ft := ExportTypeAsWritten(mod, e);
      if ft.Failure? {
        ExportSignaturesFailureStays(mod, i + 1);
        return Failure(ft.error);
      }
      sigs := sigs[e.name := ft.value];
      i := i + 1;
    }
    return Success(sigs);
  }

  lemma ExportedStep(members: seq<HostMethod>, i: nat)
    requires i < |members|
    ensures Exported(members[..i + 1]) == Exported(members[..i]) + (if members[i].wasmExport.Some? then [members[i]] else [])
  {
    assert members[..i + 1][..i] == members[..i];
  }

  /** One more method of the class in the signature check. */
  lemma CheckAllMembersStep(sigs: map<string, FunctionType>, members: seq<HostMethod>, i: nat)
    requires i < |members|
    ensures var before := CheckAll(sigs, Exported(members[..i]));
            CheckAll(sigs, Exported(members[..i + 1])) ==
              if members[i].wasmExport.None? || before.Fail? then before else CheckMemberAsWritten(sigs, members[i])
  {
    ExportedStep(members, i);
    var ms := Exported(members[..i]);
    assert (ms + [members[i]])[..|ms|] == ms;
    assert ms + [] == ms;
  }

  /** One more method of the class in the generation. */
  lemma ProcessAllMembersStep(moduleName: string, members: seq<HostMethod>, i: nat)
    requires i < |members|
    ensures var before := ProcessAll(moduleName, Exported(members[..i]));
            ProcessAll(moduleName, Exported(members[..i + 1])) ==
              if members[i].wasmExport.None? || before.Failure? then before
              else match ProcessedMethod(members[i], moduleName)
                   case Failure(e) => Failure(e)
                   case Success(d) => Success(before.value + [d])
  {
    ExportedStep(members, i);
    var ms := Exported(members[..i]);
    assert (ms + [members[i]])[..|ms|] == ms;
    assert ms + [] == ms;
  }

  /** A method that fails the signature check fails the signature check of the whole class. */
  lemma {:induction false} CheckAllFailureStays(sigs: map<string, FunctionType>, members: seq<HostMethod>, i: nat)
    requires i <= |members| && CheckAll(sigs, Exported(members[..i])).Fail?
    ensures CheckAll(sigs, Exported(members)) == CheckAll(sigs, Exported(members[..i]))
    decreases |members| - i
  {
    if i < |members| {
      CheckAllMembersStep(sigs, members, i);
      CheckAllFailureStays(sigs, members, i + 1);
    } else {
      assert members[..i] == members;
    }
  }

  /** A method that fails to process fails the whole class. */
  lemma {:induction false} ProcessAllFailureStays(moduleName: string, members: seq<HostMethod>, i: nat)
    requires i <= |members| && ProcessAll(moduleName, Exported(members[..i])).Failure?
    ensures ProcessAll(moduleName, Exported(members)) == ProcessAll(moduleName, Exported(members[..i]))
    decreases |members| - i
  {
    if i < |members| {
      ProcessAllMembersStep(moduleName, members, i);
      ProcessAllFailureStays(moduleName, members, i + 1);
    } else {
      assert members[..i] == members;
    }
  }

  /** The signature check of every annotated method against the module file's exports. */
  method CheckMembers(sigs: map<string, FunctionType>, members: seq<HostMethod>) returns (r: Outcome<ProcessorError>)
    ensures r == CheckAll(sigs, Exported(members))
  {
    var i := 0;
    while i < |members|
      invariant 0 <= i <= |members|
      invariant CheckAll(sigs, Exported(members[..i])).Pass?
    {
      CheckAllMembersStep(sigs, members, i);
      if members[i].wasmExport.Some? {
        var c := CheckMemberAsWritten(sigs, members[i]);
        if c.Fail? {
          CheckAllFailureStays(sigs, members, i + 1);
          return c;
        }
      }
      i := i + 1;
    }
    assert members[..i] == members;
    return Pass;
  }

  /** The generation of a host function per annotated method. */
  method ProcessMembers(moduleName: string, members: seq<HostMethod>) returns (r: Result<seq<HostFunctionDecl>, ProcessorError>)
    ensures r == ProcessAll(moduleName, Exported(members))
  {
    var functions: seq<HostFunctionDecl> := [];
    var i := 0;
    while i < |members|
      invariant 0 <= i <= |members|
      invariant ProcessAll(moduleName, Exported(members[..i])) == Success(functions)
    {
      ProcessAllMembersStep(moduleName, members, i);
      if members[i].wasmExport.Some? {
        var d := ProcessMethod(members[i], moduleName);
        if d.Failure? {
          ProcessAllFailureStays(moduleName, members, i + 1);
          return Failure(d.error);
        }
        functions := functions + [d.value];
      }
      i := i + 1;
    }
    assert members[..i] == members;
    return Success(functions);
  }

  /** `processModule`: with a module file, its exports are read and every
      annotated method is checked against them before any host function is
      generated. */
  method ProcessModule(moduleName: string, moduleFile: Option<WasmModule>, members: seq<HostMethod>)
    returns (r: Result<seq<HostFunctionDecl>, ProcessorError>)
    ensures r == ModuleFunctions(moduleName, moduleFile, members)
  {
    if moduleFile.Some? {
      var sigs := ExportTypes(moduleFile.value);
      if sigs.Failure? {
        return Failure(sigs.error);
      }
      var checked := CheckMembers(sigs.value, members);
      if checked.Fail? {
        return Failure(checked.error);
      }
    }
    r := ProcessMembers(moduleName, members);
  }
}
