/** The stateful part of `CodeGenRawC`: its output buffers, the per-instance
    table of declared globals, the name supply it inherits, and the lowering
    of the four builtin call forms. */
module CodeGen {
  import opened Diagnostics
  import opened CallLowering

  /** What lowering a call writes as its result expression, or the fact that
      the call is handed to the base generator unchanged. */
  datatype Lowered = Written(text: string) | ToBase

  predicate HasPrefix(p: string, s: string) {
    |p| <= |s| && s[..|p|] == p
  }

  predicate Distinct(s: seq<string>) {
    forall i, j :: 0 <= i < j < |s| ==> s[i] != s[j]
  }

  /** The table key of the global slot for a packed callee. */
  function PackedKey(funcName: string): string {
    funcName + "_packed"
  }

  /** The declaration of a global function-pointer slot. */
  function DeclLine(name: string): string {
    "static void* " + name + " = NULL;"
  }

  /** The declaration lines of the given globals, in order. */
  function DeclLines(names: seq<string>): (lines: seq<string>)
    ensures |lines| == |names|
  {
    if names == [] then [] else DeclLines(names[..|names| - 1]) + [DeclLine(names[|names| - 1])]
  }

  /** `PrintCommon(str)`: a one-line comment. */
  function CommentLine(str: string): string {
    "// " + str
  }

  const ReturnError := "return -1;"

  /** Number of occurrences of `x` in `s`. */
  function Count(s: seq<string>, x: string): nat {
    if s == [] then 0 else Count(s[..|s| - 1], x) + (if s[|s| - 1] == x then 1 else 0)
  }

  lemma DeclLineInjective(a: string, b: string)
    requires DeclLine(a) == DeclLine(b)
    ensures a == b
  {
    var pre := "static void* ";
    assert |a| == |b|;
    assert a == DeclLine(a)[|pre|..|pre| + |a|];
    assert b == DeclLine(b)[|pre|..|pre| + |b|];
  }

  lemma {:induction false} NotDeclared(names: seq<string>, v: string)
    requires v !in names
    ensures Count(DeclLines(names), DeclLine(v)) == 0
  {
    if names != [] {
      var last := names[|names| - 1];
      assert DeclLines(names)[..|names| - 1] == DeclLines(names[..|names| - 1]);
      if DeclLine(last) == DeclLine(v) {
        DeclLineInjective(last, v);
      }
      NotDeclared(names[..|names| - 1], v);
    }
  }

  /** Each of a list of distinct globals is declared exactly once. */
  lemma {:induction false} DeclaredOnce(names: seq<string>, v: string)
    requires Distinct(names) && v in names
    ensures Count(DeclLines(names), DeclLine(v)) == 1
  {
    var init, last := names[..|names| - 1], names[|names| - 1];
    assert DeclLines(names)[..|names| - 1] == DeclLines(init);
    if last == v {
      assert v !in init;
      NotDeclared(init, v);
    } else {
      if DeclLine(last) == DeclLine(v) {
        DeclLineInjective(last, v);
      }
      assert v in init;
      DeclaredOnce(init, v);
    }
  }

  /** The longest string of a finite set, as a bound for the name supply. */
  ghost function MaxLength(names: set<string>): (m: nat)
    ensures forall x :: x in names ==> |x| <= m
  {
    if names == {} then 0
    else
      var x :| x in names;
      var rest := MaxLength(names - {x});
      if |x| > rest then |x| else rest
  }

  class CodeGenRawC {
    /** Lines appended to the function body (`this->stream`). */
    var stream: seq<string>
    /** Lines appended to the declarations (`decl_stream`). */
    var declStream: seq<string>
    /** `declared_globals_`: `callee + "_packed"` to the unique global name. */
    var declaredGlobals: map<string, string>
    /** `function_names_`. */
    var functionNames: seq<string>
    /** Names handed out so far by the inherited name supply. */
    var issued: set<string>
    /** Names of the functions passed to the inherited `AddFunction`, in order. */
    var added: seq<string>
    /** The globals of `declaredGlobals`, in the order they were declared. */
    ghost var interned: seq<string>

    ghost predicate Valid()
      reads this
    {
      && (forall k :: k in declaredGlobals ==>
            && declaredGlobals[k] in issued && declaredGlobals[k] in interned
            && HasPrefix(k, declaredGlobals[k]))
      && (forall k1, k2 :: k1 in declaredGlobals && k2 in declaredGlobals && k1 != k2 ==>
            declaredGlobals[k1] != declaredGlobals[k2])
      && (forall i :: 0 <= i < |interned| ==> interned[i] in issued)
      && Distinct(interned)
      && declStream == DeclLines(interned)
    }

    constructor ()
      ensures Valid()
      ensures stream == [] && declStream == [] && declaredGlobals == map[]
      ensures functionNames == [] && issued == {} && added == []
    {
      stream, declStream, declaredGlobals := [], [], map[];
      functionNames, issued, added := [], {}, [];
      interned := [];
    }

    /** The inherited `FreshName(hint)`: a name derived from the hint that was
        never handed out before, and is recorded as handed out. */
    method FreshName(hint: string) returns (name: string)
      requires Valid()
      modifies this`issued
      ensures Valid()
      ensures name !in old(issued) && issued == old(issued) + {name}
      ensures HasPrefix(hint, name)
    {
      name := hint;
      while name in issued
        invariant HasPrefix(hint, name)
        decreases MaxLength(issued) + 1 - |name|
      {
        assert (name + "_")[..|hint|] == name[..|hint|];
        name := name + "_";
      }
      issued := issued + {name};
    }

    /** `PrintCommon(str)`. */
    method PrintCommon(str: string)
      modifies this`stream
      ensures stream == old(stream) + [CommentLine(str)]
    {
      stream := stream + [CommentLine(str)];
    }

    /** `GetPackedName`: interns the global slot of the callee named by
        argument 0, declaring it the first time only. */
    method GetPackedName(args: seq<Expr>) returns (r: Result<string>)
      requires Valid()
      modifies this`issued, this`declaredGlobals, this`declStream, this`interned
      ensures Valid()
      ensures r.Success? <==> HasCalleeName(args)
      ensures r.Failure? ==>
        && r.error == MalformedCall
        && issued == old(issued) && declaredGlobals == old(declaredGlobals) && declStream == old(declStream)
      ensures r.Success? ==>
        var key := PackedKey(args[0].text);
        && HasPrefix(key, r.value)
        && declaredGlobals == old(declaredGlobals)[key := r.value]
        && (key in old(declaredGlobals) ==>
              && r.value == old(declaredGlobals)[key]
              && declStream == old(declStream) && issued == old(issued))
        && (key !in old(declaredGlobals) ==>
              && r.value !in old(issued) && issued == old(issued) + {r.value}
              && declStream == old(declStream) + [DeclLine(r.value)])
    {
      if !HasCalleeName(args) {
        return Failure(MalformedCall);
      }
      var key := PackedKey(args[0].text);
      var uniqueName;
      if key in declaredGlobals {
        uniqueName := declaredGlobals[key];
      } else {
        uniqueName := FreshName(key);
        declaredGlobals := declaredGlobals[key := uniqueName];
        declStream := declStream + [DeclLine(uniqueName)];
        interned := interned + [uniqueName];
      }
      r := Success(uniqueName);
    }

    /** Every interned global has exactly one declaration line, however many
        call sites asked for it. */
    lemma EachGlobalDeclaredOnce(key: string)
      requires Valid() && key in declaredGlobals
      ensures Count(declStream, DeclLine(declaredGlobals[key])) == 1
    {
      DeclaredOnce(interned, declaredGlobals[key]);
    }

    /** `VisitExpr_(const CallNode*)`: the four builtin forms, and the
        hand-over of every other call to the base generator. */
    method VisitCall(op: Op, args: seq<Expr>, sizes: PlatformSizes) returns (r: Result<Lowered>)
      requires Valid() && ValidSizes(sizes)
      modifies this`stream, this`issued, this`declaredGlobals, this`declStream, this`interned
      ensures Valid()
      ensures r.Failure? ==> r.error == MalformedCall && stream == old(stream) && declStream == old(declStream)
      ensures op.StackAlloca? ==>
        && (r.Success? <==> StackAllocaSize(args, sizes).Success?)
        && declaredGlobals == old(declaredGlobals) && declStream == old(declStream)
        && (r.Success? ==>
              && r.value.Written? && r.value.text !in old(issued) && HasPrefix("stack", r.value.text)
              && issued == old(issued) + {r.value.text}
              && stream == old(stream) + [AllocaLine(r.value.text, StackAllocaSize(args, sizes).value)])
      ensures op.CallPackedLowered? ==>
        && (r.Success? <==> GetFunctionInfo(args, false).Success?)
        && (r.Success? ==>
              var key := PackedKey(args[0].text);
              && r.value == Written("")
              && stream == old(stream) + [CommentLine("Call packed function")]
              && key in declaredGlobals
              && declaredGlobals == old(declaredGlobals)[key := declaredGlobals[key]]
              && HasPrefix(key, declaredGlobals[key])
              && (key in old(declaredGlobals) ==>
                    && declaredGlobals[key] == old(declaredGlobals)[key]
                    && declStream == old(declStream) && issued == old(issued))
              && (key !in old(declaredGlobals) ==>
                    && declaredGlobals[key] !in old(issued) && issued == old(issued) + {declaredGlobals[key]}
                    && declStream == old(declStream) + [DeclLine(declaredGlobals[key])]))
      ensures op.CallCPackedLowered? ==>
        && (r.Success? <==> GetFunctionInfo(args, true).Success?)
        && declaredGlobals == old(declaredGlobals) && declStream == old(declStream) && issued == old(issued)
        && (r.Success? ==> r.value == Written("") && stream == old(stream) + [CommentLine("Call packed function")])
      ensures op.ThrowLastError? ==>
        && r == Success(Written(""))
        && stream == old(stream) + [ReturnError]
        && declaredGlobals == old(declaredGlobals) && declStream == old(declStream) && issued == old(issued)
      ensures (op.Reinterpret? || op.OtherOp?) ==>
        && r == Success(ToBase)
        && stream == old(stream) && declaredGlobals == old(declaredGlobals)
        && declStream == old(declStream) && issued == old(issued)
    {
      match op
      case StackAlloca =>
        var stackName := FreshName("stack");
        var size := StackAllocaSize(args, sizes);
        if size.Failure? {
          return Failure(size.error);
        }
        stream := stream + [AllocaLine(stackName, size.value)];
        r := Success(Written(stackName));
      case CallPackedLowered =>
        var info := GetFunctionInfo(args, false);
        if info.Failure? {
          return Failure(info.error);
        }
        var packedName := GetPackedName(args);
        PrintCommon("Call packed function");
        r := Success(Written(""));
      case CallCPackedLowered =>
        var info := GetFunctionInfo(args, true);
        if info.Failure? {
          return Failure(info.error);
        }
        PrintCommon("Call packed function");
        r := Success(Written(""));
      case ThrowLastError =>
        stream := stream + [ReturnError];
        r := Success(Written(""));
      case _ =>
        r := Success(ToBase);
    }

    /** The inherited `AddFunction`, as far as this model follows it: the
        function joins the translation unit after those added before. */
    method AddFunction(name: string)
      modifies this`added
      ensures added == old(added) + [name]
    {
      added := added + [name];
    }

    /** `GetFunctionNames`: reads `function_names_` and changes nothing. */
    function GetFunctionNames(): (names: seq<string>)
      reads this
      ensures names == functionNames
    {
      functionNames
    }
  }

  /** Two call sites of the same packed callee share one global slot: both
      lower successfully, the declarations grow by at most one line, and the
      callee's slot is declared exactly once afterwards. */
  method PackedCallsShareGlobal(cg: CodeGenRawC, args: seq<Expr>, sizes: PlatformSizes)
      returns (first: Result<Lowered>, second: Result<Lowered>)
    requires cg.Valid() && ValidSizes(sizes) && GetFunctionInfo(args, false).Success?
    modifies cg
    ensures cg.Valid()
    ensures first.Success? && second.Success?
    ensures PackedKey(args[0].text) in cg.declaredGlobals
    ensures |cg.declStream| <= |old(cg.declStream)| + 1
    ensures Count(cg.declStream, DeclLine(cg.declaredGlobals[PackedKey(args[0].text)])) == 1
  {
    first := cg.VisitCall(CallPackedLowered, args, sizes);
    second := cg.VisitCall(CallPackedLowered, args, sizes);
    cg.EachGlobalDeclaredOnce(PackedKey(args[0].text));
  }
}
