/** The bounds-checked lookups an instance offers over its index spaces. They
    work on plain sequences, so the instance and the validator share them. */
module IndexSpaces {
  import opened Wrappers
  import opened WasmTypes

  /** `Instance.type(idx)`: an index past the end is an unknown type; a negative
      index reaches the Java array and throws there. */
  function TypeAt(types: seq<FunctionType>, idx: int): (r: Result<FunctionType, WasmError>)
    ensures r.Success? <==> 0 <= idx < |types|
    ensures r.Success? ==> r.value == types[idx]
    ensures idx >= |types| ==> r == Failure(UnknownType(idx))
    ensures idx < 0 ==> r.Failure?
  {
    if idx >= |types| then Failure(UnknownType(idx))
    else if idx < 0 then Failure(IndexOutOfBounds)
    else Success(types[idx])
  }

  /** `Instance.functionType(idx)`: the type id of function `idx`. */
  function FunctionTypeAt(functionTypes: seq<int>, idx: int): (r: Result<int, WasmError>)
    ensures r.Success? <==> 0 <= idx < |functionTypes|
    ensures r.Success? ==> r.value == functionTypes[idx]
    ensures idx >= |functionTypes| ==> r == Failure(UnknownFunction(idx))
  {
    if idx >= |functionTypes| then Failure(UnknownFunction(idx))
    else if idx < 0 then Failure(IndexOutOfBounds)
    else Success(functionTypes[idx])
  }

  /** The index split of `Instance.readGlobal(idx)`: below `offset` the imported
      entry (the import list is an array, so a bad index throws there), at or
      above it local slot `idx - offset`, which must exist and be set. */
  function GlobalAt<T>(imported: seq<T>, offset: int, locals: seq<Option<T>>, idx: int): (r: Result<T, WasmError>)
    ensures idx < offset ==> (r.Success? <==> 0 <= idx < |imported|)
    ensures idx < offset && r.Success? ==> r.value == imported[idx]
    ensures idx >= offset ==> (r.Success? <==> idx - offset < |locals| && locals[idx - offset].Some?)
    ensures idx >= offset && r.Success? ==> Some(r.value) == locals[idx - offset]
    ensures idx >= offset && r.Failure? ==> r.error == UnknownGlobal(idx - offset)
  {
    if idx < offset then
      if 0 <= idx < |imported| then Success(imported[idx]) else Failure(IndexOutOfBounds)
    else
      var i := idx - offset;
      if i < 0 || i >= |locals| || locals[i].None? then Failure(UnknownGlobal(i))
      else Success(locals[i].value)
  }
}
