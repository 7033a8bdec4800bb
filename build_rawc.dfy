/** `BulidRawC`: builds one raw C translation unit from an IR module. The
    runner function is set aside, the other functions are added in ascending
    name order, and the runner is added last so that every other symbol is
    visible to it. */
module Build {
  import opened Diagnostics
  import opened Text
  import opened CodeGen

  /** A module function: its global name, whether it is a PrimFunc, and its
      `runner_function` attribute (false when absent). */
  datatype BaseFunc = BaseFunc(name: string, isPrimFunc: bool, isRunner: bool)

  /** The target attributes the build reads; absent ones take the defaults
      `system-lib` = false and `runtime` = "". */
  datatype Target = Target(systemLib: Option<bool>, runtime: Option<string>)

  /** What the build hands to `CSourceModuleCreate`: the functions in the order
      they were added, the language tag, and `GetFunctionNames()`. */
  datatype Artifact = Artifact(added: seq<string>, language: string, functionNames: seq<string>)

  /** IRModule global names are unique. */
  predicate DistinctNames(fs: seq<BaseFunc>) {
    forall i, j :: 0 <= i < j < |fs| ==> fs[i].name != fs[j].name
  }

  predicate SortedByName(fs: seq<BaseFunc>) {
    forall i, j :: 0 <= i < j < |fs| ==> Less(fs[i].name, fs[j].name)
  }

  /** The functions not marked as runner, in iteration order. */
  function Ordinary(fs: seq<BaseFunc>): (r: seq<BaseFunc>)
    ensures forall f :: f in r <==> f in fs && !f.isRunner
  {
    if fs == [] then []
    else Ordinary(fs[..|fs| - 1]) + (if fs[|fs| - 1].isRunner then [] else [fs[|fs| - 1]])
  }

  /** The runner kept by the partition loop: each marked function overwrites
      the one kept before it, so the last one iterated wins. */
  function LastRunner(fs: seq<BaseFunc>): (r: Option<BaseFunc>)
    ensures r.Some? ==> r.value in fs && r.value.isRunner
    ensures r.Some? ==>
      exists i :: 0 <= i < |fs| && fs[i] == r.value && forall j :: i < j < |fs| ==> !fs[j].isRunner
    ensures r.None? <==> forall f :: f in fs ==> !f.isRunner
  {
    if fs == [] then None
    else if fs[|fs| - 1].isRunner then Some(fs[|fs| - 1])
    else LastRunner(fs[..|fs| - 1])
  }

  function Names(fs: seq<BaseFunc>): (names: seq<string>)
    ensures |names| == |fs|
    ensures forall i :: 0 <= i < |fs| ==> names[i] == fs[i].name
  {
    if fs == [] then [] else Names(fs[..|fs| - 1]) + [fs[|fs| - 1].name]
  }

  function RunnerNames(runner: Option<BaseFunc>): seq<string> {
    if runner.Some? then [runner.value.name] else []
  }

  predicate AllPrimFuncs(fs: seq<BaseFunc>) {
    forall f :: f in fs ==> f.isPrimFunc
  }

  /** With `system-lib` set, the runtime must be "c". */
  predicate ConfigAllowed(target: Target) {
    target.systemLib.GetOr(false) ==> target.runtime.GetOr("") == "c"
  }

  /** The order in which a module's functions are added: the ordinary ones
      sorted by name, then the runner kept by the partition. */
  ghost predicate IsEmissionOrder(added: seq<string>, mod: seq<BaseFunc>) {
    exists sorted: seq<BaseFunc> ::
      && SortedByName(sorted) && multiset(sorted) == multiset(Ordinary(mod))
      && added == Names(sorted) + RunnerNames(LastRunner(mod))
  }

  /** Inserts `f` before the first function whose name is greater. */
  method InsertByName(s: seq<BaseFunc>, f: BaseFunc) returns (t: seq<BaseFunc>)
    requires SortedByName(s)
    requires forall k :: 0 <= k < |s| ==> s[k].name != f.name
    ensures SortedByName(t) && multiset(t) == multiset(s) + multiset{f}
  {
    var j := 0;
    while j < |s| && !Less(f.name, s[j].name)
      invariant 0 <= j <= |s|
      invariant forall k :: 0 <= k < j ==> Less(s[k].name, f.name)
    {
      LessTotal(f.name, s[j].name);
      j := j + 1;
    }
    forall k | j <= k < |s|
      ensures Less(f.name, s[k].name)
    {
      if k > j {
        LessTransitive(f.name, s[j].name, s[k].name);
      }
    }
    t := s[..j] + [f] + s[j..];
    InsertSorted(s, f, j);
    assert s == s[..j] + s[j..];
    assert multiset(t) == multiset(s[..j]) + multiset{f} + multiset(s[j..]);
  }

  /** A function placed between the names below it and the names above it
      leaves the list sorted. */
  lemma InsertSorted(s: seq<BaseFunc>, f: BaseFunc, j: int)
    requires SortedByName(s) && 0 <= j <= |s|
    requires forall k :: 0 <= k < j ==> Less(s[k].name, f.name)
    requires forall k :: j <= k < |s| ==> Less(f.name, s[k].name)
    ensures SortedByName(s[..j] + [f] + s[j..])
  {
    var t := s[..j] + [f] + s[j..];
    forall p, q | 0 <= p < q < |t|
      ensures Less(t[p].name, t[q].name)
    {
      if q < j || p > j {
        var p', q' := if p < j then p else p - 1, if q < j then q else q - 1;
        assert t[p] == s[p'] && t[q] == s[q'];
      } else if p < j && q > j {
        assert t[p] == s[p] && t[q] == s[q - 1];
      } else if p == j {
        assert t[q] == s[q - 1];
      } else {
        assert t[p] == s[p];
      }
    }
  }

  /** The `std::sort` of the ordinary functions by name. */
  method SortByName(fs: seq<BaseFunc>) returns (sorted: seq<BaseFunc>)
    requires DistinctNames(fs)
    ensures SortedByName(sorted) && multiset(sorted) == multiset(fs)
  {
    sorted := [];
    for i := 0 to |fs|
      invariant SortedByName(sorted) && multiset(sorted) == multiset(fs[..i])
    {
      forall k | 0 <= k < |sorted|
        ensures sorted[k].name != fs[i].name
      {
        assert sorted[k] in multiset(fs[..i]);
      }
      sorted := InsertByName(sorted, fs[i]);
      assert fs[..i + 1] == fs[..i] + [fs[i]];
    }
    assert fs[..|fs|] == fs;
  }

  lemma DistinctOrdinary(fs: seq<BaseFunc>)
    requires DistinctNames(fs)
    ensures DistinctNames(Ordinary(fs))
  {
    var o := Ordinary(fs);
    forall i, j | 0 <= i < j < |o|
      ensures o[i].name != o[j].name
    {
      if o[i].name == o[j].name {
        OrdinaryIndices(fs, i, j);
      }
    }
  }

  lemma {:induction false} OrdinaryIndices(fs: seq<BaseFunc>, i: int, j: int)
    requires DistinctNames(fs) && 0 <= i < j < |Ordinary(fs)|
    ensures Ordinary(fs)[i].name != Ordinary(fs)[j].name
  {
    var init := fs[..|fs| - 1];
    var o := Ordinary(init);
    if j < |o| {
      OrdinaryIndices(init, i, j);
    } else {
      assert Ordinary(fs)[i] in init;
    }
  }

  predicate RunnersArePrimFuncs(fs: seq<BaseFunc>) {
    forall f :: f in fs && f.isRunner ==> f.isPrimFunc
  }

  /** The partition loop of `BulidRawC`: the runner is downcast to a PrimFunc
      when met (fatal otherwise) and kept aside, the other functions are
      collected in iteration order. */
  method Partition(mod: seq<BaseFunc>) returns (ok: bool, funcs: seq<BaseFunc>, runner: Option<BaseFunc>)
    ensures ok <==> RunnersArePrimFuncs(mod)
    ensures ok ==> funcs == Ordinary(mod) && runner == LastRunner(mod)
  {
    runner := None;
    funcs := [];
    for i := 0 to |mod|
      invariant funcs == Ordinary(mod[..i])
      invariant runner == LastRunner(mod[..i])
      invariant RunnersArePrimFuncs(mod[..i])
    {
      assert mod[..i + 1] == mod[..i] + [mod[i]];
      if mod[i].isRunner {
        if !mod[i].isPrimFunc {
          return false, funcs, runner;
        }
        runner := Some(mod[i]);
      } else {
        funcs := funcs + [mod[i]];
      }
    }
    assert mod[..|mod|] == mod;
    ok := true;
  }

  /** The emission loops of `BulidRawC`: each sorted function is checked to be
      a PrimFunc (fatal otherwise) and added, then the runner is added. */
  method AddInOrder(cg: CodeGenRawC, sorted: seq<BaseFunc>, runner: Option<BaseFunc>) returns (ok: bool)
    modifies cg`added
    ensures ok <==> AllPrimFuncs(sorted)
    ensures ok ==> cg.added == old(cg.added) + Names(sorted) + RunnerNames(runner)
  {
    for i := 0 to |sorted|
      invariant cg.added == old(cg.added) + Names(sorted[..i])
      invariant AllPrimFuncs(sorted[..i])
    {
      if !sorted[i].isPrimFunc {
        return false;
      }
      assert sorted[..i + 1] == sorted[..i] + [sorted[i]];
      cg.AddFunction(sorted[i].name);
    }
    assert sorted[..|sorted|] == sorted;
    if runner.Some? {
      cg.AddFunction(runner.value.name);
    }
    ok := true;
  }

  /** The partition, sort and emission loops of `BulidRawC` on a generator
      that has added nothing yet. */
  method AddModule(cg: CodeGenRawC, mod: seq<BaseFunc>) returns (ok: bool)
    requires DistinctNames(mod) && cg.added == []
    modifies cg`added
    ensures ok <==> AllPrimFuncs(mod)
    ensures ok ==> IsEmissionOrder(cg.added, mod)
  {
    var partitioned, funcs, runner := Partition(mod);
    if !partitioned {
      return false;
    }
    DistinctOrdinary(mod);
    var sorted := SortByName(funcs);
    PrimFuncsSplit(mod, sorted);
    ok := AddInOrder(cg, sorted, runner);
    if ok {
      assert [] + Names(sorted) == Names(sorted);
      EmissionWitness(cg.added, mod, sorted);
    }
  }

  /** `BulidRawC`, without the module packaging: succeeds exactly when every
      function is a PrimFunc and the configuration is allowed, and then adds
      the functions in emission order. Nothing in these sources writes
      `function_names_`, so the name list handed on is empty. */
  method BuildRawC(mod: seq<BaseFunc>, target: Target) returns (r: Result<Artifact>)
    requires DistinctNames(mod)
    ensures r.Success? <==> AllPrimFuncs(mod) && ConfigAllowed(target)
    ensures r.Failure? ==> r.error == (if AllPrimFuncs(mod) then ConfigConflict else StructuralViolation)
    ensures r.Success? ==>
      && IsEmissionOrder(r.value.added, mod)
      && r.value.language == "c"
      && r.value.functionNames == []
  {
    var cg := new CodeGenRawC();
    var ok := AddModule(cg, mod);
    if !ok {
      return Failure(StructuralViolation);
    }
    if !ConfigAllowed(target) {
      return Failure(ConfigConflict);
    }
    r := Success(Artifact(cg.added, "c", cg.GetFunctionNames()));
  }

  /** Every function is a PrimFunc iff every runner is one and every function
      left for sorting is one. */
  lemma PrimFuncsSplit(mod: seq<BaseFunc>, sorted: seq<BaseFunc>)
    requires multiset(sorted) == multiset(Ordinary(mod))
    ensures AllPrimFuncs(mod) <==> RunnersArePrimFuncs(mod) && AllPrimFuncs(sorted)
  {
    if RunnersArePrimFuncs(mod) && AllPrimFuncs(sorted) {
      forall f | f in mod
        ensures f.isPrimFunc
      {
        if !f.isRunner {
          assert f in multiset(sorted);
        }
      }
    }
    if AllPrimFuncs(mod) {
      forall f | f in sorted
        ensures f.isPrimFunc
      {
        assert f in multiset(Ordinary(mod));
      }
    }
  }

  lemma EmissionWitness(added: seq<string>, mod: seq<BaseFunc>, sorted: seq<BaseFunc>)
    requires SortedByName(sorted) && multiset(sorted) == multiset(Ordinary(mod))
    requires added == Names(sorted) + RunnerNames(LastRunner(mod))
    ensures IsEmissionOrder(added, mod)
  {
  }

  // ---------------------------------------------------------------------
  // The emission order is determined by the module's contents.

  lemma HeadIsLeast(a: seq<BaseFunc>, f: BaseFunc)
    requires SortedByName(a) && f in a
    ensures f == a[0] || Less(a[0].name, f.name)
  {
    var i :| 0 <= i < |a| && a[i] == f;
  }

  lemma TailOf(a: seq<BaseFunc>)
    requires SortedByName(a) && a != []
    ensures SortedByName(a[1..]) && multiset(a[1..]) == multiset(a) - multiset{a[0]}
  {
    assert a == [a[0]] + a[1..];
  }

  /** Sorting functions with distinct names leaves no freedom: two sorted
      arrangements of the same functions are equal. */
  lemma {:induction false} SortedByNameUnique(a: seq<BaseFunc>, b: seq<BaseFunc>)
    requires SortedByName(a) && SortedByName(b) && multiset(a) == multiset(b)
    ensures a == b
  {
    if a == [] || b == [] {
      assert |a| == |multiset(a)| == |multiset(b)| == |b|;
      return;
    }
    var x, y := a[0], b[0];
    assert x in multiset(b) && y in multiset(a);
    HeadIsLeast(b, x);
    HeadIsLeast(a, y);
    if x != y {
      LessAsymmetric(x.name, y.name);
    }
    TailOf(a);
    TailOf(b);
    SortedByNameUnique(a[1..], b[1..]);
  }

  /** A module has only one emission order. */
  lemma EmissionOrderDeterministic(e1: seq<string>, e2: seq<string>, mod: seq<BaseFunc>)
    requires IsEmissionOrder(e1, mod) && IsEmissionOrder(e2, mod)
    ensures e1 == e2
  {
    var s1: seq<BaseFunc> :| SortedByName(s1) && multiset(s1) == multiset(Ordinary(mod)) && e1 == Names(s1) + RunnerNames(LastRunner(mod));
    var s2: seq<BaseFunc> :| SortedByName(s2) && multiset(s2) == multiset(Ordinary(mod)) && e2 == Names(s2) + RunnerNames(LastRunner(mod));
    SortedByNameUnique(s1, s2);
  }

  lemma {:induction false} OrdinaryCount(fs: seq<BaseFunc>, f: BaseFunc)
    ensures multiset(Ordinary(fs))[f] == if f.isRunner then 0 else multiset(fs)[f]
  {
    if fs != [] {
      var init := fs[..|fs| - 1];
      assert fs == init + [fs[|fs| - 1]];
      OrdinaryCount(init, f);
    }
  }

  /** Permuting the iteration permutes the functions kept for sorting. */
  lemma OrdinaryOfPermutation(m1: seq<BaseFunc>, m2: seq<BaseFunc>)
    requires multiset(m1) == multiset(m2)
    ensures multiset(Ordinary(m1)) == multiset(Ordinary(m2))
  {
    forall f
      ensures multiset(Ordinary(m1))[f] == multiset(Ordinary(m2))[f]
    {
      OrdinaryCount(m1, f);
      OrdinaryCount(m2, f);
    }
  }

  /** Iterating the same functions in another order emits them in the same
      order, provided the same runner is kept (always so with at most one). */
  lemma EmissionOrderIndependentOfIteration(e1: seq<string>, m1: seq<BaseFunc>, e2: seq<string>, m2: seq<BaseFunc>)
    requires multiset(m1) == multiset(m2) && LastRunner(m1) == LastRunner(m2)
    requires IsEmissionOrder(e1, m1) && IsEmissionOrder(e2, m2)
    ensures e1 == e2
  {
    OrdinaryOfPermutation(m1, m2);
    var s2: seq<BaseFunc> :| SortedByName(s2) && multiset(s2) == multiset(Ordinary(m2)) && e2 == Names(s2) + RunnerNames(LastRunner(m2));
    EmissionWitness(e2, m1, s2);
    EmissionOrderDeterministic(e1, e2, m1);
  }

  /** Two runners do not fail the build: the later one is added last and the
      earlier one is not added at all. */
  lemma LaterRunnerWins(a: BaseFunc, b: BaseFunc)
    requires a.isRunner && b.isRunner && a.name != b.name
    ensures LastRunner([a, b]) == Some(b)
    ensures IsEmissionOrder([b.name], [a, b])
  {
    assert [a, b][..1] == [a] && [a][..0] == [];
    assert Ordinary([a]) == [];
    assert Ordinary([a, b]) == [];
    assert Names([]) + RunnerNames(Some(b)) == [b.name];
  }

  /** Iterating one more function extends the kept list by it unless it is
      marked. */
  lemma OrdinarySnoc(fs: seq<BaseFunc>, f: BaseFunc)
    ensures Ordinary(fs + [f]) == Ordinary(fs) + (if f.isRunner then [] else [f])
  {
    assert (fs + [f])[..|fs|] == fs;
  }

  lemma OrdinaryOfThree(a: BaseFunc, b: BaseFunc, e: BaseFunc)
    requires !a.isRunner && !b.isRunner && e.isRunner
    ensures Ordinary([b, a, e]) == [b, a] && LastRunner([b, a, e]) == Some(e)
  {
    OrdinarySnoc([], b);
    OrdinarySnoc([b], a);
    OrdinarySnoc([b, a], e);
    assert [] + [b] == [b] && [b] + [a] == [b, a] && [b, a] + [e] == [b, a, e];
  }

  /** Two ordinary functions and a runner, iterated in reverse name order:
      the ordinary ones come out by name and the runner last. */
  lemma EntryEmittedLast(a: BaseFunc, b: BaseFunc, e: BaseFunc)
    requires !a.isRunner && !b.isRunner && e.isRunner && Less(a.name, b.name)
    ensures IsEmissionOrder([a.name, b.name, e.name], [b, a, e])
  {
    OrdinaryOfThree(a, b, e);
    assert [a, b][..1] == [a] && Names([a, b]) == [a.name, b.name];
    assert SortedByName([a, b]);
    assert multiset([a, b]) == multiset([b, a]);
    assert [a.name, b.name] + [e.name] == [a.name, b.name, e.name];
    EmissionWitness([a.name, b.name, e.name], [b, a, e], [a, b]);
  }
}
