/** The intermediate representation shared by the verifier, the lowerer and the region selector. */
module Ir {

  datatype Option<+T> = None | Some(value: T)

  type ValueId = nat
  type BlockId = nat

  /** A symbol key: module, kind and semantic name joined. */
  type Symbol = string

  datatype Type =
    | Void | Bool | Byte | Int | Float | Int32 | UInt32 | UInt64 | Float32
    | String
    | Class(symbol: Symbol)
    | Array(element: Type)
    | Optional(element: Type)
    | Pointer(element: Type)
    | NativeRecord(symbol: Symbol)
    | FixedArray(element: Type, count: nat)
    | CFunction(signature: seq<Type>)
    | UnsafeCapability
    | BorrowCapability(element: Type)

  /** Strings, classes, arrays, and optionals of those, are references into a managed heap. */
  predicate IsManagedReference(t: Type) {
    match t
    case String => true
    case Class(_) => true
    case Array(_) => true
    case Optional(e) => IsManagedReference(e)
    case _ => false
  }

  /** The bits of an effect summary. */
  datatype Effect = Read | Write | MayPanic | ManagedAllocate | NativeAllocate | Safepoint | Unsafe | NoReturn

  datatype Opcode =
    | Constant
    | IntNegChecked | IntAddChecked | IntSubChecked | IntMulChecked | IntDivChecked
    | FloatNeg | FloatAdd | FloatSub | FloatMul | FloatDiv
    | BoolNot | BoolAnd | BoolOr | Compare
    | CastIntToFloat | CastFloatToIntChecked | CastIntToByteChecked | CastByteToInt | NumericCastChecked
    | ClassUpcast | ClassCheckedCast
    | OptionalNone | OptionalSome | OptionalIsSome | OptionalGetChecked
    | StringConcat | StringEqual | StringNotEqual | StringFromInt | StringFromByte | StringFromFloat
    | Call | CallDirect | CallVirtual | CallImport | CallUnsafe | CallCAbi | CallCIndirect
    | CFunctionAddress | WorkerEntry
    | ArrayNew | ArrayLength | ArrayLoadChecked | ArrayStoreChecked | ArrayGenerate | TaskGenerate
    | ObjectAlloc | FieldLoad | FieldStore
    | UnsafeBegin | UnsafeEnd
    | StackAlloc | PointerLoad | PointerStore | PointerOffset | PointerDifference | PointerCompare | PointerCast
    | NativeFieldAddress | NativeIndexAddressChecked
    | NativeAlloc | NativeRealloc | NativeFree | BorrowBegin | BorrowEnd

  datatype ValueDefinition = ValueDefinition(id: ValueId, valueType: Type)

  /** A block's outgoing edge: arguments bind the target's parameters. */
  datatype Edge = Edge(target: BlockId, arguments: seq<ValueId>)

  datatype Instruction = Instruction(
    opcode: Opcode,
    results: seq<ValueDefinition>,
    operands: seq<ValueId>,
    symbol: Symbol,
    typeArguments: seq<Type>)

  datatype Terminator =
    | Branch(edge: Edge)
    | ConditionalBranch(condition: ValueId, whenTrue: Edge, whenFalse: Edge)
    | Return(value: Option<ValueId>)
    | Panic

  function EdgesOf(t: Terminator): seq<Edge> {
    match t
    case Branch(e) => [e]
    case ConditionalBranch(_, e0, e1) => [e0, e1]
    case Return(_) => []
    case Panic => []
  }

  datatype Block = Block(
    id: BlockId,
    parameters: seq<ValueDefinition>,
    instructions: seq<Instruction>,
    ending: Terminator)

  datatype Function = Function(
    id: Symbol,
    parameterTypes: seq<Type>,
    resultType: Type,
    effects: set<Effect>,
    unsafeCall: bool,
    retained: bool,
    entry: BlockId,
    unsafeRoot: Option<ValueDefinition>,
    dispatchSlot: Option<Symbol>,
    blocks: seq<Block>)

  function Ids(ds: seq<ValueDefinition>): (r: set<ValueId>)
    ensures forall i :: 0 <= i < |ds| ==> ds[i].id in r
  {
    set d | d in ds :: d.id
  }
}
