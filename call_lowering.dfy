/** The pure parts of the raw C generator's call lowering: reading the
    arguments of the lowered packed-call builtins (`GetFunctionInfo`) and
    sizing `tvm_stack_alloca` buffers. */
module CallLowering {
  import opened Diagnostics
  import opened Text

  /** Builtin operators the generator tells apart; every other operator is
      `OtherOp`. */
  datatype Op =
    | StackAlloca         // builtin::tvm_stack_alloca
    | CallPackedLowered   // builtin::tvm_call_packed_lowered
    | CallCPackedLowered  // builtin::tvm_call_cpacked_lowered
    | ThrowLastError      // builtin::tvm_throw_last_error
    | Reinterpret         // builtin::reinterpret
    | OtherOp(name: string)

  /** The IR argument shapes the generator inspects. */
  datatype Expr =
    | StringImm(text: string)
    | IntImm(value: int)
    | Call(op: Op, args: seq<Expr>)
    | OtherExpr

  /** The resource-handle argument of a `tvm_call_cpacked_lowered` call. */
  datatype HandleArg = Named(name: string) | ZeroReinterpret | Invalid

  /** `CodeGenRawC::FunctionInfo`. The count is the signed 64-bit `num_args`,
      which the resource-handle decrement can take to -1. */
  datatype FunctionInfo = FunctionInfo(funcName: string, numArgs: int, resourceHandleName: string)

  /** The sentinel handle name used when no resource handle is passed. */
  const NoHandle := "NULL"

  predicate IsZero(e: Expr) {
    e == IntImm(0)
  }

  /** Argument 5 is either a string naming the handle variable, or
      `reinterpret(0)`; anything else is rejected. */
  function ClassifyHandle(e: Expr): (h: HandleArg)
    ensures h.Named? <==> e.StringImm?
    ensures h.ZeroReinterpret? <==> e.Call? && e.op == Reinterpret && |e.args| > 0 && IsZero(e.args[0])
  {
    match e
    case StringImm(s) => Named(s)
    case Call(op, args) =>
      if op == Reinterpret && |args| > 0 && IsZero(args[0]) then ZeroReinterpret else Invalid
    case _ => Invalid
  }

  /** Argument 0 of a packed call names the callee. */
  predicate HasCalleeName(args: seq<Expr>) {
    |args| > 0 && args[0].StringImm?
  }

  /** Arguments 3 and 4 are the begin and end of the forwarded argument range. */
  predicate HasArgRange(args: seq<Expr>) {
    |args| > 4 && args[3].IntImm? && args[4].IntImm?
  }

  /** `CodeGenRawC::GetFunctionInfo`. */
  function GetFunctionInfo(args: seq<Expr>, hasResourceHandle: bool): (r: Result<FunctionInfo>)
    ensures r.Failure? ==> r.error == MalformedCall
    ensures r.Success? <==>
      && HasCalleeName(args) && HasArgRange(args)
      && args[4].value - args[3].value >= 0
      && (hasResourceHandle ==> |args| > 5 && !ClassifyHandle(args[5]).Invalid?)
    ensures r.Success? ==>
      && r.value.funcName == args[0].text
      && r.value.numArgs == args[4].value - args[3].value - (if hasResourceHandle then 1 else 0)
      && r.value.resourceHandleName ==
           (if hasResourceHandle && args[5].StringImm? then args[5].text else NoHandle)
  {
    if !HasCalleeName(args) || !HasArgRange(args) then Failure(MalformedCall)
    else
      var numArgs := args[4].value - args[3].value;
      var funcName := args[0].text;
      if numArgs < 0 then Failure(MalformedCall)
      else if !hasResourceHandle then Success(FunctionInfo(funcName, numArgs, NoHandle))
      else if |args| <= 5 then Failure(MalformedCall)
      else
        match ClassifyHandle(args[5])
        case Named(h) => Success(FunctionInfo(funcName, numArgs - 1, h))
        case ZeroReinterpret => Success(FunctionInfo(funcName, numArgs - 1, NoHandle))
        case Invalid => Failure(MalformedCall)
  }

  /** The count is checked before the resource-handle decrement and not after
      it, so an empty range with a handle yields -1 forwarded arguments. */
  lemma EmptyRangeWithHandleGoesNegative(callee: string, begin: int, handle: string)
    ensures GetFunctionInfo([StringImm(callee), OtherExpr, OtherExpr, IntImm(begin), IntImm(begin), StringImm(handle)], true)
         == Success(FunctionInfo(callee, -1, handle))
  {
  }

  /** Forwarded-argument counts are never below -1, and below 0 only when a
      resource handle is passed. */
  lemma NumArgsLowerBound(args: seq<Expr>, hasResourceHandle: bool)
    requires GetFunctionInfo(args, hasResourceHandle).Success?
    ensures GetFunctionInfo(args, hasResourceHandle).value.numArgs >= (if hasResourceHandle then -1 else 0)
  {
  }

  // ---------------------------------------------------------------------
  // tvm_stack_alloca

  /** Platform `sizeof` values: `TVMValue` (the slot unit), `tvm_index_t`,
      `int` and `DLTensor`. */
  datatype PlatformSizes = PlatformSizes(tvmValue: nat, indexT: nat, cInt: nat, dlTensor: nat)

  /** `size_t` arithmetic is modulo 2^64. */
  const SizeTModulus: nat := 0x1_0000_0000_0000_0000

  predicate ValidSizes(p: PlatformSizes) {
    && 0 < p.tvmValue < SizeTModulus
    && p.indexT < SizeTModulus && p.cInt < SizeTModulus && p.dlTensor < SizeTModulus
  }

  /** The element size for each stack alloca kind. */
  function ElemSize(kind: string, p: PlatformSizes): Option<nat> {
    if kind == "shape" then Some(p.indexT)
    else if kind == "arg_value" then Some(p.tvmValue)
    else if kind == "arg_tcode" then Some(p.cInt)
    else if kind == "array" then Some(p.dlTensor)
    else None
  }

  /** `(n * elem + unit - 1) / unit` evaluated in `size_t`: the signed count is
      converted to unsigned and the sum wraps modulo 2^64 before dividing. */
  function SlotCount(n: int, elem: nat, unit: nat): (slots: nat)
    requires 0 < unit
    ensures slots <= (SizeTModulus - 1) / unit
  {
    var x := (n * elem + unit - 1) % SizeTModulus;
    DivMonotone(x, SizeTModulus - 1, unit);
    x / unit
  }

  /** The number of `TVMValue` slots a `tvm_stack_alloca(kind, n)` call
      allocates: argument 0 is the kind string, argument 1 the count. */
  function StackAllocaSize(args: seq<Expr>, p: PlatformSizes): (r: Result<nat>)
    requires ValidSizes(p)
    ensures r.Failure? ==> r.error == MalformedCall
    ensures r.Success? <==>
      |args| > 1 && args[0].StringImm? && args[1].IntImm? && ElemSize(args[0].text, p).Some?
    ensures r.Success? ==> r.value == SlotCount(args[1].value, ElemSize(args[0].text, p).value, p.tvmValue)
    ensures r.Success? ==> r.value < SizeTModulus
  {
    if |args| <= 1 || !args[0].StringImm? || !args[1].IntImm? then Failure(MalformedCall)
    else
      match ElemSize(args[0].text, p)
      case None => Failure(MalformedCall)
      case Some(elem) =>
        Success(SlotCount(args[1].value, elem, p.tvmValue))
  }

  /** Without wrap-around the slot count is the ceiling of the byte size over
      the slot size: `size * unit >= n * elem > (size - 1) * unit`. */
  lemma SlotCountIsCeiling(n: nat, elem: nat, unit: nat)
    requires 0 < unit && n * elem + unit - 1 < SizeTModulus
    ensures SlotCount(n, elem, unit) * unit >= n * elem
    ensures (SlotCount(n, elem, unit) - 1) * unit < n * elem
  {
    var x := n * elem + unit - 1;
    var q := x / unit;
    assert x % SizeTModulus == x;
    assert q * unit + x % unit == x;
    assert (q - 1) * unit == q * unit - unit;
  }

  /** Sizing `arg_value` buffers, whose elements are slots, gives exactly n. */
  lemma ArgValueSlotsExact(n: nat, unit: nat)
    requires 0 < unit && n * unit + unit - 1 < SizeTModulus
    ensures SlotCount(n, unit, unit) == n
  {
    var q := SlotCount(n, unit, unit);
    SlotCountIsCeiling(n, unit, unit);
    if q < n {
      MulMonotone(q, n - 1, unit);
    } else if q > n {
      MulMonotone(n, q - 1, unit);
    }
  }

  lemma MulMonotone(a: int, b: int, u: nat)
    requires a <= b
    ensures a * u <= b * u
  {
  }

  /** Without wrap-around more elements never need fewer slots. */
  lemma SlotCountMonotone(n1: nat, n2: nat, elem: nat, unit: nat)
    requires 0 < unit && n1 <= n2 && n2 * elem + unit - 1 < SizeTModulus
    ensures SlotCount(n1, elem, unit) <= SlotCount(n2, elem, unit)
  {
    MulMonotone(n1, n2, elem);
    SlotCountNoWrap(n1, elem, unit);
    SlotCountNoWrap(n2, elem, unit);
    DivMonotone(n1 * elem + unit - 1, n2 * elem + unit - 1, unit);
  }

  lemma SlotCountNoWrap(n: nat, elem: nat, unit: nat)
    requires 0 < unit && n * elem + unit - 1 < SizeTModulus
    ensures SlotCount(n, elem, unit) == (n * elem + unit - 1) / unit
  {
    var x := n * elem + unit - 1;
    assert x % SizeTModulus == x;
  }

  lemma DivMonotone(x1: nat, x2: nat, u: nat)
    requires 0 < u && x1 <= x2
    ensures x1 / u <= x2 / u
  {
    if x1 / u > x2 / u {
      MulMonotone(x2 / u + 1, x1 / u, u);
    }
  }

  /** A negative count is converted to `size_t` and wraps: one element less
      than nothing asks for an enormous buffer. */
  lemma NegativeCountWraps(unit: nat)
    requires 0 < unit < SizeTModulus
    ensures SlotCount(-1, unit, unit) == (SizeTModulus - 1) / unit
  {
  }

  /** With an element smaller than a slot (`arg_tcode` with a 4-byte `int`
      and 8-byte `TVMValue`), adding `unit - 1` brings a count of -1 back
      into range: the buffer gets no slots at all. */
  lemma NegativeCountSmallElement(elem: nat, unit: nat)
    requires elem < unit < SizeTModulus
    ensures SlotCount(-1, elem, unit) == 0
  {
    var x := -1 * elem + unit - 1;
    assert 0 <= x < unit;
    assert x % SizeTModulus == x;
  }

  /** The declaration line emitted for a stack buffer. */
  function AllocaLine(name: string, slots: nat): string {
    "TVMValue " + name + "[" + Decimal(slots) + "];"
  }
}
