# Raw C host code generator (`CodeGenRawC`), modelled in Dafny

This project models the core of TVM's "raw C" host code generator
(`src/target/source/codegen_rawc.cc` and `codegen_rawc.h`). The generator lowers
TIR functions into one C translation unit for minimal runtimes. The model covers
three parts:

- **Type spelling** (`TypeSpelling.PrintType`). A data type descriptor (type code,
  bit width, lane count) becomes a C spelling such as `float`, `uint8_t`,
  `int32_t4` or `void*`, or generation stops with "Cannot convert type".
  `PrintType` is declared `final` in the header, so every spelling the generator
  produces comes from these rules. A parser (`ParseCType`) reads spellings back.
  It shows exactly where the printer loses information: every handle prints
  `void*`, and a 1-bit integer prints like its 32-bit counterpart.
- **Call lowering** (`CallLowering`, `CodeGen.CodeGenRawC`). This covers:
  - `GetFunctionInfo` on the lowered packed-call builtins.
  - The classification of the resource-handle argument: a name, `reinterpret(0)`,
    or invalid.
  - The `size_t` arithmetic that sizes `tvm_stack_alloca` buffers.
  - The interning table `declared_globals_`, keyed by `callee + "_packed"`.
  - The dispatch in `VisitExpr_` over the four builtin call forms. Any other
    call goes to the base generator.
- **Build order** (`Build.BuildRawC`). The runner function is set aside. The
  other functions are sorted by `std::string` `<` and added first. The runner is
  added last. Then the system-lib/runtime constraint is checked.

The generator is a class with sequence buffers:
- `stream` holds the body lines.
- `declStream` holds the declaration lines.
- `declaredGlobals` is `declared_globals_`.
- `functionNames` is `function_names_`.
- `issued` holds the names the inherited name supply has handed out.
- `added` holds the functions passed to the inherited `AddFunction`.

Each instance owns its table; nothing is shared between instances.

Every fatal `ICHECK`/`LOG(FATAL)` becomes a `Failure` with one of four error kinds
(`Diagnostics.Error`). Null dereferences and out-of-range argument indexing on a
malformed call also stop generation, so they become `Failure(MalformedCall)` too.

TVM's `DataType` predicates are not in these two files. The model follows TVM's
definitions of them:
- void is the handle code with 0 bits and 0 lanes.
- `is_handle()` excludes void.
- `Bool()` is `UInt(1)` with one lane.

So a 4-lane `uint1` prints `uint32_t4`, while the scalar `uint1` prints `bool`.

Points where the code decides something a reader might expect otherwise:
- **Several runners.** Two functions marked `runner_function` are not an error.
  The last one iterated is kept and the earlier ones are never added
  (`Build.LaterRunnerWins`). Every marked function must still be a PrimFunc
  because of the `Downcast`.
- **Count can reach -1.** `GetFunctionInfo` checks `end - begin >= 0` before the
  resource-handle decrement and never after it. An empty range with a handle
  gives -1 forwarded arguments (`CallLowering.EmptyRangeWithHandleGoesNegative`).
- **Negative alloca count.** The element count is an `int64_t` multiplied by a
  `size_t`, so a negative count is reduced modulo 2^64. What comes out depends on
  the element size:
  - For `arg_value`, where an element is one slot, a count of -1 asks for
    `(2^64 - 1) / unit` slots, a huge buffer (`CallLowering.NegativeCountWraps`).
  - For an element smaller than a slot, such as `arg_tcode` with a 4-byte `int`,
    adding `unit - 1` wraps back into range and a count of -1 gets 0 slots
    (`CallLowering.NegativeCountSmallElement`).

  The ceiling and monotonicity properties are proved for counts that do not wrap.
- **Empty name list.** `function_names_` is a private member of `CodeGenRawC`, and
  nothing in these two files assigns it. So `GetFunctionNames()` returns the empty
  list it was constructed with, and `BuildRawC` proves that the module's function
  name list is empty.
- **Comment only.** Both packed-call forms write only the comment
  `// Call packed function` and leave the result expression empty. The
  invocation statements are commented out in the source and are not modelled.

## Model

| member | source | states |
|---|---|---|
| `Text.Decimal` | src/target/source/codegen_rawc.cc:41-43 | the lane count (and alloca size) is written as a non-empty digit string with no leading zero unless the value is 0 |
| `Text.ParseDecimalOfDecimal` | src/target/source/codegen_rawc.cc:41-43 | reading back the decimal spelling of a number gives that number |
| `Text.TrailingDigitsAfterWord` | src/target/source/codegen_rawc.cc:69-73 | a base spelling that ends in a non-digit, followed by the lane digits, splits back into exactly those two parts |
| `Text.LessIrreflexive` | src/target/source/codegen_rawc.cc:212-218 | the name comparison used by the sort is irreflexive |
| `Text.LessTransitive` | src/target/source/codegen_rawc.cc:212-218 | the name comparison used by the sort is transitive |
| `Text.LessTotal` | src/target/source/codegen_rawc.cc:212-218 | two different names are always ordered one way or the other, so the sort has no ties among distinct names |
| `Text.LessAsymmetric` | src/target/source/codegen_rawc.cc:212-218 | a name never sorts both before and after another |
| `TypeSpelling.PrintType` | src/target/source/codegen_rawc.cc:9-76 | succeeds exactly on the supported matrix (handle with 1 lane, void, Bool, float 16/32/64, int/uint 1/8/16/32/64, lanes 1 or 2..16) and fails with UnsupportedType otherwise; a handle prints `void*` only with 1 lane; void prints `void`; the result is `bool` iff the type is exactly Bool |
| `TypeSpelling.ParsePrintType` | src/target/source/codegen_rawc.cc:24-75 | parsing the printed spelling recovers the C type the descriptor denotes (base kind, signedness, width, lanes) |
| `TypeSpelling.ParseNumericSpelling` | src/target/source/codegen_rawc.cc:40-44 | a float or integer base followed by no lanes or by a decimal lane count in [2,16] parses back to that base and lane count |
| `TypeSpelling.PrintTypeCollisions` | src/target/source/codegen_rawc.cc:11-68 | two supported descriptors print the same text iff they are equal, both handles, or the same integer kind and lanes with widths 1 and 32 (Bool excepted): the mapping is not injective, and that is all the aliasing there is |
| `TypeSpelling.Int1PrintsAsInt32` | src/target/source/codegen_rawc.cc:56-64 | a 1-bit integer prints exactly like the 32-bit integer of the same signedness and lanes, unless it is Bool |
| `TypeSpelling.UnsignedPrefix` | src/target/source/codegen_rawc.cc:45-48 | an integer spelling starts with `u` iff the type is unsigned |
| `TypeSpelling.VectorSpelling` | src/target/source/codegen_rawc.cc:69-73 | a 2..16-lane float or integer prints as its scalar spelling followed directly by the decimal lane count, and fails exactly when the scalar does |
| `CallLowering.ClassifyHandle` | src/target/source/codegen_rawc.cc:94-114 | argument 5 is a handle name exactly when it is a string, and "no handle" exactly when it is `reinterpret` applied to zero; everything else is invalid |
| `CallLowering.GetFunctionInfo` | src/target/source/codegen_rawc.cc:83-118 | succeeds iff argument 0 is a string, arguments 3 and 4 are integers with end - begin >= 0, and (with a handle) argument 5 is a name or `reinterpret(0)`; then the callee is argument 0, the count is end - begin minus 1 when a handle is passed, and the handle name is the string or `NULL` |
| `CallLowering.EmptyRangeWithHandleGoesNegative` | src/target/source/codegen_rawc.cc:89-100 | an empty argument range with a named handle yields the count -1: the decrement is not re-checked |
| `CallLowering.NumArgsLowerBound` | src/target/source/codegen_rawc.cc:89-117 | the forwarded count is at least 0 without a handle and at least -1 with one |
| `CallLowering.SlotCount` | src/target/source/codegen_rawc.cc:147-153 | `(n * elem + unit - 1) / unit` computed in 64-bit `size_t` never exceeds `(2^64 - 1) / unit` |
| `CallLowering.StackAllocaSize` | src/target/source/codegen_rawc.cc:140-156 | succeeds iff argument 0 is one of `shape`, `arg_value`, `arg_tcode`, `array` and argument 1 is an integer; the size is then the `SlotCount` of that count with the kind's element size and the `TVMValue` slot size, and fits in `size_t` |
| `CallLowering.SlotCountIsCeiling` | src/target/source/codegen_rawc.cc:144-153 | without wrap-around, `size * unit >= n * elem > (size - 1) * unit` |
| `CallLowering.ArgValueSlotsExact` | src/target/source/codegen_rawc.cc:148-149 | an `arg_value` buffer of n elements has exactly n slots |
| `CallLowering.SlotCountNoWrap` | src/target/source/codegen_rawc.cc:146-153 | when the byte size plus `unit - 1` fits in `size_t`, the slot count is the plain integer quotient |
| `CallLowering.SlotCountMonotone` | src/target/source/codegen_rawc.cc:146-153 | without wrap-around, more elements never get fewer slots |
| `CallLowering.NegativeCountWraps` | src/target/source/codegen_rawc.cc:147-153 | for `arg_value` (element size equal to the slot size), a count of -1 wraps through `size_t` to `(2^64 - 1) / unit` slots |
| `CallLowering.NegativeCountSmallElement` | src/target/source/codegen_rawc.cc:147-153 | with an element smaller than a slot, a count of -1 wraps back to 0 slots |
| `CodeGen.DeclaredOnce` | src/target/source/codegen_rawc.cc:126-133 | in the declarations of distinct globals, each global's line occurs exactly once |
| `CodeGen.NotDeclared` | src/target/source/codegen_rawc.cc:129-133 | a global that was never interned has no declaration line |
| `CodeGen.DeclLineInjective` | src/target/source/codegen_rawc.cc:132 | different globals get different declaration lines |
| `CodeGen.CodeGenRawC.constructor` | src/target/source/codegen_rawc.h:30-31 | a new generator has empty buffers, an empty `declared_globals_` and an empty `function_names_` |
| `CodeGen.CodeGenRawC.FreshName` | src/target/source/codegen_rawc.cc:130 | the name supply returns a name that starts with the hint and was never handed out, and records it |
| `CodeGen.CodeGenRawC.PrintCommon` | src/target/source/codegen_rawc.cc:78-81 | appends exactly the line `// <str>` to the body |
| `CodeGen.CodeGenRawC.GetPackedName` | src/target/source/codegen_rawc.cc:120-135 | fails iff argument 0 is not a string; the key is `callee + "_packed"`; a known key returns its recorded name and changes nothing; a new key gets a fresh name starting with the key, recorded, and exactly one `static void* <name> = NULL;` line; existing entries are never rewritten or removed; the table invariant (fresh, distinct, one declaration each) is kept |
| `CodeGen.CodeGenRawC.EachGlobalDeclaredOnce` | src/target/source/codegen_rawc.cc:120-135 | every interned global has exactly one declaration line, however many call sites asked for it |
| `CodeGen.CodeGenRawC.VisitCall` | src/target/source/codegen_rawc.cc:137-177 | stack alloca: succeeds iff the size does, appends `TVMValue <fresh stack name>[<size>];` and yields that name; packed call: succeeds iff GetFunctionInfo does, appends only the comment and yields nothing, and interns the callee's global: a known callee keeps its recorded name and nothing else changes, a new one gets a fresh name starting with its key and exactly one declaration line; cpacked call: the same without interning; throw_last_error: appends exactly `return -1;`; any other op: handed to the base generator with nothing changed |
| `CodeGen.CodeGenRawC.AddFunction` | src/target/source/codegen_rawc.cc:224-229 | a function added joins the translation unit after those added before |
| `CodeGen.CodeGenRawC.GetFunctionNames` | src/target/source/codegen_rawc.h:17 | returns `function_names_` as it is and reads nothing else |
| `CodeGen.PackedCallsShareGlobal` | src/target/source/codegen_rawc.cc:160-163 | two lowered packed calls to the same callee both succeed, add at most one declaration line, and leave the callee's global declared exactly once |
| `Build.Ordinary` | src/target/source/codegen_rawc.cc:198-209 | the functions kept for sorting are exactly those not marked `runner_function` |
| `Build.LastRunner` | src/target/source/codegen_rawc.cc:202-206 | the runner kept is a marked function with no marked function iterated after it, and there is none iff no function is marked |
| `Build.Partition` | src/target/source/codegen_rawc.cc:197-209 | succeeds iff every marked function is a PrimFunc; then yields the unmarked functions in iteration order and the last marked function |
| `Build.InsertByName` | src/target/source/codegen_rawc.cc:212-218 | inserting a function with a new name into a name-sorted list keeps it sorted and adds exactly that function |
| `Build.SortByName` | src/target/source/codegen_rawc.cc:212-218 | the result is sorted by `std::string` `<` and is a permutation of the input |
| `Build.AddInOrder` | src/target/source/codegen_rawc.cc:220-230 | succeeds iff every sorted function is a PrimFunc; then adds them in sorted order followed by the runner, if any |
| `Build.InsertSorted` | src/target/source/codegen_rawc.cc:212-218 | a function placed after every smaller name and before every larger one leaves the list sorted |
| `Build.AddModule` | src/target/source/codegen_rawc.cc:197-230 | on a generator with nothing added, the partition, sort and emission loops succeed iff every function is a PrimFunc, and then add the functions in emission order (adding a function is taken never to fail) |
| `Build.PrimFuncsSplit` | src/target/source/codegen_rawc.cc:200-227 | every function is a PrimFunc iff every marked runner is one (checked at the partition) and every function left for sorting is one (checked at emission) |
| `Build.BuildRawC` | src/target/source/codegen_rawc.cc:179-239 | with adding a function taken never to fail, succeeds iff every function is a PrimFunc and `system-lib` implies runtime `c`; fails with StructuralViolation or ConfigConflict accordingly; on success the functions are added in emission order (sorted ordinary functions, then the runner), the language is `c`, and the name list is empty |
| `Build.DistinctOrdinary` | src/target/source/codegen_rawc.cc:198-209 | the functions kept for sorting have distinct names |
| `Build.OrdinaryIndices` | src/target/source/codegen_rawc.cc:198-209 | two positions of the kept functions hold different names |
| `Build.HeadIsLeast` | src/target/source/codegen_rawc.cc:212-218 | the first function of a sorted list is not after any other |
| `Build.TailOf` | src/target/source/codegen_rawc.cc:212-218 | dropping the first function of a sorted list leaves it sorted |
| `Build.SortedByNameUnique` | src/target/source/codegen_rawc.cc:212-218 | two name-sorted arrangements of the same functions are equal |
| `Build.EmissionOrderDeterministic` | src/target/source/codegen_rawc.cc:211-230 | a module has exactly one emission order |
| `Build.OrdinaryCount` | src/target/source/codegen_rawc.cc:198-209 | each unmarked function is kept as often as it occurs; marked ones are not kept |
| `Build.OrdinaryOfPermutation` | src/target/source/codegen_rawc.cc:198-209 | iterating a permutation of the module keeps a permutation of the same ordinary functions |
| `Build.EmissionOrderIndependentOfIteration` | src/target/source/codegen_rawc.cc:197-230 | iterating the same functions in another order (keeping the same runner) gives the same emission order |
| `Build.OrdinarySnoc` | src/target/source/codegen_rawc.cc:202-208 | iterating one more function keeps it at the end exactly when it is not marked `runner_function` |
| `Build.LaterRunnerWins` | src/target/source/codegen_rawc.cc:202-206 | with two marked functions the later one is the runner, and the earlier one is not added at all |
| `Build.EntryEmittedLast` | src/target/source/codegen_rawc.cc:220-230 | functions iterated as `b`, `a`, runner are added as `a`, `b`, runner |

## Left out

- The base generator `CodeGenC` is not part of this model. Its `AddFunction` is reduced to recording the function's name in order. Its declaration and body emission, `Finish`, `Init`, `PrintIndent` and the default `VisitExpr_` are left out. Body lines are kept without indentation.
- Build.BuildRawC: `AddFunction` is modelled as never failing. In the source each `cg.AddFunction` (codegen_rawc.cc:224, 229) lowers the function body, where `PrintType`'s fatal error and `VisitExpr_`'s checks can stop generation before the `system-lib` check. Body-lowering errors are therefore not part of `BuildRawC`'s outcome.
- SlotCount: `size_t` is taken to be 64 bits wide. On a 32-bit host the `int64_t * size_t` product is signed 64-bit arithmetic, and the quotient is then narrowed to 32 bits; that arithmetic is not modelled.
- The `constants-byte-alignment` attribute and `SetConstantsByteAlignment` are left out. The value only reaches the base generator.
- FreshName: the real naming scheme of `NameSupply` is not shown. The model extends the hint with `_` until the name is unused and promises only "starts with the hint, never handed out before".
- The `device_contexts` loop (codegen_rawc.cc:183-190) is left out. Its result is never used.
- `CSourceModuleCreate` and `TVM_REGISTER_GLOBAL` are left out. They are runtime and registry calls; the model stops at the artifact's contents (functions added, language tag, name list).
- The packed-call invocation statements are left out. They are commented out in the source.
- Diagnostic message text is left out. Each fatal check is an error kind.
- PrintType: the partial text written to the stream before a fatal conversion error is not modelled, because generation stops there.
- GetFunctionInfo: `end - begin` is computed exactly. The signed 64-bit overflow the source leaves undefined for extreme ranges is not modelled.
- ClassifyHandle: `is_zero` also accepts a broadcast of zero. Broadcast nodes are not part of this model's expression type.
- Platform `sizeof` values are parameters. The `alignof` static assertion is left out.
- SortByName: `std::sort` sorts the vector in place. The model inserts into a new sequence. With the distinct names an IRModule guarantees, both give the one sorted order.
- Text.Less compares characters by code. `std::string` compares bytes; the two orders agree on ASCII names and on UTF-8 encoded names.
- IR node downcasting and target attribute lookup are left out. Call arguments are an `Expr` datatype, and target attributes are optional inputs with their defaults.
- `mytest/test.py` is left out. It is an end-to-end driver that needs a TVM build and a GPU.
