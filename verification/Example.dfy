/**
 One definition, from its source to what its compiled code returns:
 `(defun sum (N A) (if (= N 0) A (sum (- N 1) (+ A N))))`.
 */
module Example {
  import opened Lists
  import opened Kl
  import opened Machine
  import R = RustIr
  import opened KlEval
  import opened RustRun
  import opened Codegen
  import opened CodegenState
  import opened Acceptance
  import opened Driver
  import opened Simulation
  import opened SimSteps
  import opened Linking
  import opened Forms
  import opened Correctness
  import P = PrimitiveLaws

  const SUM: SymId := 110
  const N: SymId := 111
  const A: SymId := 112
  const PLUS: SymId := 113
  const MINUS: SymId := 114

  function IsZero(): Expr { Headed(K_EQ, List2(Sym(N), Int(0))) }

  function Less(): Expr { Headed(MINUS, List2(Sym(N), Int(1))) }

  function More(): Expr { Headed(PLUS, List2(Sym(A), Sym(N))) }

  function Again(): Expr { Headed(SUM, List2(Less(), More())) }

  function Body(): Expr { Headed(K_IF, List3(IsZero(), Sym(A), Again())) }

  function File(): seq<Expr>
  {
    [Defun(SUM, App(List2(Sym(N), Sym(A))), Body())]
  }

  function Top0(): Top { Top(SUM, [N, A], Body()) }

  lemma {:induction false} Views()
    ensures View(Body()) == If(IsZero(), Sym(A), Again()) && View(IsZero()) == Call(K_EQ, List2(Sym(N), Int(0)))
    ensures View(Less()) == Call(MINUS, List2(Sym(N), Int(1))) && View(More()) == Call(PLUS, List2(Sym(A), Sym(N)))
    ensures View(Again()) == Call(SUM, List2(Less(), More()))
  {
    ViewWritten(If(IsZero(), Sym(A), Again()));
    ViewWritten(Call(K_EQ, List2(Sym(N), Int(0))));
    ViewWritten(Call(MINUS, List2(Sym(N), Int(1))));
    ViewWritten(Call(PLUS, List2(Sym(A), Sym(N))));
    ViewWritten(Call(SUM, List2(Less(), More())));
  }

  // ---- it is compiled right ----

  /** Two arguments that compile right and move no scope. */
  lemma {:induction false} TwoRight(a: Expr, b: Expr, names: set<SymId>)
    requires Flow(a, names) == names && Wf(a, names, names, {}) && Judge(a, names, None, 0) == Compiles
    requires Flow(b, names) == names && Wf(b, names, names, {}) && Judge(b, names, None, 0) == Compiles
    ensures var args := List2(a, b);
            && FlowAll(args, names) == names && WfAll(args, names, names, {}) && JudgeAll(args, names) == Compiles
            && Length(args) == 2
  {
    hide Flow, Wf, Judge;
    assert FlowAll(Empty, names) == names && FlowAll(List1(b), names) == names;
    assert WfAll(Empty, names, names, {}) && WfAll(List1(b), names, names, {});
    assert JudgeAll(Empty, names) == Compiles && JudgeAll(List1(b), names) == Compiles;
    assert Length(List1(b)) == 1;
  }

  lemma {:induction false} AtomRight(a: Expr, names: set<SymId>)
    requires a.Int? || (a.Sym? && a.id in names && a.id != K_TRUE && a.id != K_FALSE)
    ensures Flow(a, names) == names && Wf(a, names, names, {}) && Judge(a, names, None, 0) == Compiles
  {
  }

  /** A call of something that is no local. */
  lemma {:induction false} CallRight(e: Expr, h: SymId, a: Expr, b: Expr, names: set<SymId>)
    requires View(e) == Call(h, List2(a, b)) && h !in names
    requires Flow(a, names) == names && Wf(a, names, names, {}) && Judge(a, names, None, 0) == Compiles
    requires Flow(b, names) == names && Wf(b, names, names, {}) && Judge(b, names, None, 0) == Compiles
    ensures Flow(e, names) == names && Wf(e, names, names, {}) && Judge(e, names, None, 0) == Compiles
  {
    TwoRight(a, b, names);
    assert !PrologCall(h, List2(a, b));
    hide List2, FlowAll, WfAll, JudgeAll;
  }

  const NAMES: set<SymId> := {N, A}

  lemma {:induction false} PartsAreRight()
    ensures Flow(IsZero(), NAMES) == NAMES && Wf(IsZero(), NAMES, NAMES, {})
    ensures Judge(IsZero(), NAMES, None, 0) == Compiles && Wf(Again(), NAMES, NAMES, {})
    ensures JudgeAll(List2(Less(), More()), NAMES) == Compiles && Length(List2(Less(), More())) == 2
  {
    hide View, Flow, Wf, Judge, FlowAll, WfAll, JudgeAll, IsZero, Less, More, Again;
    Views();
    AtomRight(Sym(N), NAMES);
    AtomRight(Sym(A), NAMES);
    AtomRight(Int(0), NAMES);
    AtomRight(Int(1), NAMES);
    CallRight(IsZero(), K_EQ, Sym(N), Int(0), NAMES);
    CallRight(Less(), MINUS, Sym(N), Int(1), NAMES);
    CallRight(More(), PLUS, Sym(A), Sym(N), NAMES);
    CallRight(Again(), SUM, Less(), More(), NAMES);
    TwoRight(Less(), More(), NAMES);
  }

  /** The self-call, which is one and hides nothing. */
  lemma {:induction false} AgainIsSelf()
    ensures IsSelf(Again(), Some(SUM), 2, NAMES) && Judge(Again(), NAMES, Some(SUM), 2) == Compiles
    ensures Rounds(Again(), Some(SUM), 2, NAMES, {}) == {Round(Again(), {})}
    ensures GoodRound(Round(Again(), {}), [N, A])
  {
    PartsAreRight();
    Views();
    hide IsZero, Less, More, List2, JudgeAll, Length;
    assert Again() == App(Cons(Sym(SUM), List2(Less(), More())));
    assert IsSelf(Again(), Some(SUM), 2, NAMES);
  }

  lemma {:induction false} NameInTail()
    ensures TailFlow(Sym(A), NAMES, Some(SUM), 2) == NAMES && Judge(Sym(A), NAMES, Some(SUM), 2) == Compiles
    ensures Rounds(Sym(A), Some(SUM), 2, NAMES, {}) == {} && Flow(Sym(A), NAMES) == NAMES
    ensures Wf(Sym(A), NAMES, NAMES, {})
  {
  }

  lemma {:induction false} BodyRight()
    ensures Wf(Body(), NAMES, NAMES, {}) && Judge(Body(), NAMES, Some(SUM), 2) == Compiles
    ensures Loops(Body(), Some(SUM), [N, A], NAMES, {})
  {
    hide IsZero, Again, Body, IsSelf, GoodRound, View, JudgeAll, WfAll, List2;
    PartsAreRight();
    AgainIsSelf();
    NameInTail();
    Views();
    IfRight(Body(), IsZero(), Sym(A), Again());
  }

  lemma {:induction false} IfRight(e: Expr, c: Expr, t: Expr, f: Expr)
    requires View(e) == If(c, t, f)
    requires Flow(c, NAMES) == NAMES && Flow(t, NAMES) == NAMES && TailFlow(t, NAMES, Some(SUM), 2) == NAMES
    requires Wf(c, NAMES, NAMES, {}) && Wf(t, NAMES, NAMES, {}) && Wf(f, NAMES, NAMES, {})
    requires Judge(c, NAMES, None, 0) == Compiles && Judge(t, NAMES, Some(SUM), 2) == Compiles
    requires Judge(f, NAMES, Some(SUM), 2) == Compiles
    requires Rounds(t, Some(SUM), 2, NAMES, {}) == {} && Rounds(f, Some(SUM), 2, NAMES, {}) == {Round(f, {})}
    requires GoodRound(Round(f, {}), [N, A])
    ensures Wf(e, NAMES, NAMES, {}) && Judge(e, NAMES, Some(SUM), 2) == Compiles
    ensures Loops(e, Some(SUM), [N, A], NAMES, {})
  {
    hide GoodRound;
    assert Rounds(e, Some(SUM), 2, NAMES, {}) == {} + {Round(f, {})};
    assert |[N, A]| == 2;
  }

  lemma {:induction false} DefIsWf()
    ensures WfDef(SUM, DefOf(Top0())) && Outcome(Top0()) == Compiles
  {
    hide Wf, Judge, Loops, Body;
    BodyRight();
    var d := DefOf(Top0());
    assert ParamsOf(d) == NAMES by {
      assert d.params == [N, A];
      assert forall x :: x in d.params <==> x == N || x == A;
    }
  }

  lemma {:induction false} FileIsWf(budget: nat, prims: map<SymId, Prim>)
    requires Standard(prims) && SUM !in prims && budget >= 17
    ensures var skip := SkipPolicy({}, Some(budget));
            && WfFile(File(), skip, prims)
            && Program(File(), skip, prims) == Prog(prims, map[SUM := Def([N, A], Body())])
  {
    var skip := SkipPolicy({}, Some(budget));
    TopRead();
    BodyCounts();
    DefIsWf();
    hide Outcome, WfDef, Standard, TopOf, DefunName, BodySize, Body;
    assert Wanted(File(), 0, skip);
    assert Accepted(File(), 1, skip) == [];
    assert Accepted(File(), 0, skip) == [Top0()] + [];
    assert DefsOf([]) == map[] && [Top0()][1..] == [];
    assert DefsOf([Top0()]) == map[SUM := DefOf(Top0())];
  }

  lemma {:induction false} TopRead()
    ensures TopOf(File()[0]) == Some(Top0()) && DefunName(File()[0]) == Some(SUM)
  {
    hide Body;
    assert Symbols(Empty) == Some([]) && [A] + [] == [A] && [N] + [A] == [N, A];
    assert Symbols(List1(Sym(A))) == Some([A]) && Symbols(List2(Sym(N), Sym(A))) == Some([N, A]);
  }

  lemma {:induction false} BodyCounts()
    ensures BodySize(File()[0]) == 17
  {
    hide Size, SizeAll, BodySize;
    assert Size(Sym(N)) == 1 && Size(Sym(A)) == 1 && Size(Int(0)) == 1 && Size(Int(1)) == 1 by { AtomsCount(); }
    TwoCount(K_EQ, Sym(N), Int(0));
    TwoCount(MINUS, Sym(N), Int(1));
    TwoCount(PLUS, Sym(A), Sym(N));
    TwoCount(SUM, Less(), More());
    ThreeCount(IsZero(), Sym(A), Again());
    assert BodySize(File()[0]) == Size(Body()) by { DefunBody(SUM, App(List2(Sym(N), Sym(A))), Body()); }
    hide Size, SizeAll, BodySize;
  }

  lemma {:induction false} DefunBody(f: SymId, ps: Expr, body: Expr)
    ensures BodySize(Defun(f, ps, body)) == Size(body)
  {
    hide Size;
  }

  lemma {:induction false} AtomsCount()
    ensures Size(Sym(N)) == 1 && Size(Sym(A)) == 1 && Size(Int(0)) == 1 && Size(Int(1)) == 1
  {
  }

  lemma {:induction false} TwoCount(h: SymId, a: Expr, b: Expr)
    ensures Size(Headed(h, List2(a, b))) == 2 + Size(a) + Size(b)
  {
    hide Size;
    assert SizeAll(Empty) == 0 && SizeAll(List1(b)) == Size(b) && SizeAll(List2(a, b)) == Size(a) + Size(b);
    Whole(h, List2(a, b));
  }

  lemma {:induction false} ThreeCount(a: Expr, b: Expr, c: Expr)
    ensures Size(Headed(K_IF, List3(a, b, c))) == 2 + Size(a) + Size(b) + Size(c)
  {
    hide Size;
    assert SizeAll(Empty) == 0 && SizeAll(List1(c)) == Size(c) && SizeAll(List2(b, c)) == Size(b) + Size(c);
    Whole(K_IF, List3(a, b, c));
  }

  lemma {:induction false} Whole(h: SymId, args: List<Expr>)
    ensures Size(Headed(h, args)) == 2 + SizeAll(args)
  {
    assert SizeAll(Cons(Sym(h), args)) == 1 + SizeAll(args);
  }

  // ---- what it returns ----

  /** `a + n + (n - 1) + .. + 1` */
  function Total(n: nat, a: int): int
  {
    if n == 0 then a else Total(n - 1, a + n)
  }

  /** No sum on the way is too large for a fixnum. */
  predicate AllInRange(n: nat, a: int)
  {
    P.InRange(n) && P.InRange(a) && (n > 0 ==> AllInRange(n - 1, a + n))
  }

  predicate Arithmetic(prims: map<SymId, Prim>)
  {
    Standard(prims) && SUM !in prims && {PLUS, MINUS} <= prims.Keys && prims[PLUS] == PAdd && prims[MINUS] == PSub
  }

  /** Two operands without calls. */
  lemma {:induction false} AtomsTwo(n: nat, p: Prog, e: Expr, h: SymId, a: Expr, b: Expr, env: Env, w: World)
    requires View(e) == Call(h, List2(a, b)) && h !in Dom(env) && h in p.prims && !a.App? && !b.App?
    requires Arity(p.prims[h]) == 2 && !Deferring(p.prims[h])
    ensures Eval(n, p, e, env, w, false) == Run(p.prims[h], [AtomValue(a, env), AtomValue(b, env)], w)
  {
    hide Run, Eval, Arity, PlainCall, View, AtomValue, Dom;
    ShortStep(n, p, e, env, w);
    CallTwo(n, p, h, a, b, env, w);
    EvalAtom(n, p, a, env, w);
    EvalAtom(n, p, b, env, w);
  }

  /** The evaluator adds up, and never drifts. */
  lemma {:induction false} SumValue(m: nat, p: Prog, n: nat, a: int, w: World)
    requires Arithmetic(p.prims) && p.defs == map[SUM := Def([N, A], Body())] && m > n && AllInRange(n, a)
    ensures Defined(p, SUM)
    ensures var r := CallNamed(m, p, SUM, [VInt(n), VInt(a)], w);
            r.out == Ok(VInt(Total(n, a))) && r.w.drift == w.drift
    decreases n
  {
    hide Eval, Run, View, Dom, Standard, AtomValue, Body;
    var vs := [VInt(n), VInt(a)];
    var env, w' := Frame([N, A], vs), Log(w, SUM, vs);
    NamedShape(m, p, SUM, vs, w);
    TheFrame(n, a);
    BodyValue(m - 1, p, n, a, env, w');
    if n > 0 { SumValue(m - 1, p, n - 1, a + n, w'); }
  }

  lemma {:induction false} TheFrame(n: int, a: int)
    ensures var env := Frame([N, A], [VInt(n), VInt(a)]);
            && AtomValue(Sym(N), env) == VInt(n) && AtomValue(Sym(A), env) == VInt(a) && Dom(env) == {N, A}
  {
    assert [N, A][..1] == [N] && [VInt(n), VInt(a)][..1] == [VInt(n)] && [N][..0] == [] && [VInt(n)][..0] == [];
    assert Frame([], []) == EmptyEnv && Frame([N], [VInt(n)]) == Push(N, VInt(n), EmptyEnv);
    assert Frame([N, A], [VInt(n), VInt(a)]) == Push(A, VInt(a), Push(N, VInt(n), EmptyEnv));
    assert Dom(Push(N, VInt(n), EmptyEnv)) == {} + {N} == {N};
    assert Dom(Push(A, VInt(a), Push(N, VInt(n), EmptyEnv))) == {N} + {A};
  }

  lemma {:induction false} BodyValue(m: nat, p: Prog, n: nat, a: int, env: Env, w: World)
    requires Arithmetic(p.prims) && SUM in p.defs && AllInRange(n, a)
    requires AtomValue(Sym(N), env) == VInt(n) && AtomValue(Sym(A), env) == VInt(a) && Dom(env) == {N, A}
    ensures Eval(m, p, Body(), env, w, true) ==
            if n == 0 then Done(VInt(a), w) else CallNamed(m, p, SUM, [VInt(n - 1), VInt(a + n)], w)
  {
    hide Eval, View, Dom, CallNamed, Run, AtomValue, IsZero, Again, Body, Standard, AllInRange;
    Views();
    IfStep(m, p, Body(), env, w, true);
    ZeroValue(m, p, n, env, w);
    if n == 0 {
      TailAtom(m, p, Sym(A), env, w);
    } else {
      AgainValue(m, p, n, a, env, w);
    }
  }

  lemma {:induction false} ZeroValue(m: nat, p: Prog, n: nat, env: Env, w: World)
    requires Standard(p.prims) && AtomValue(Sym(N), env) == VInt(n) && K_EQ !in Dom(env)
    ensures Eval(m, p, IsZero(), env, w, false) == Truth(n == 0, w)
  {
    hide Eval, View, Dom, Run, IsZero, Standard;
    Views();
    assert K_EQ in p.prims && p.prims[K_EQ] == PEq by { HasEq(p.prims); }
    AtomsTwo(m, p, IsZero(), K_EQ, Sym(N), Int(0), env, w);
    assert AtomValue(Int(0), env) == VInt(0);
    P.Equals(VInt(n), VInt(0), VInt(0), w);
  }

  lemma {:induction false} HasEq(prims: map<SymId, Prim>)
    requires Standard(prims)
    ensures K_EQ in prims && prims[K_EQ] == PEq
  {
  }

  /** The two arguments of the self-call. */
  lemma {:induction false} NextValues(m: nat, p: Prog, n: nat, a: int, env: Env, w: World)
    requires Arithmetic(p.prims) && AllInRange(n, a) && n > 0
    requires AtomValue(Sym(N), env) == VInt(n) && AtomValue(Sym(A), env) == VInt(a) && Dom(env) == {N, A}
    ensures Eval(m, p, Less(), env, w, false) == Done(VInt(n - 1), w)
    ensures Eval(m, p, More(), env, w, false) == Done(VInt(a + n), w)
  {
    hide Eval, View, Dom, Run, Less, More, Standard;
    Views();
    assert AtomValue(Int(1), env) == VInt(1);
    hide AtomValue;
    AtomsTwo(m, p, Less(), MINUS, Sym(N), Int(1), env, w);
    AtomsTwo(m, p, More(), PLUS, Sym(A), Sym(N), env, w);
    P.Difference(VInt(n), VInt(1), w);
    P.Sum(VInt(a), VInt(n), w);
  }

  lemma {:induction false} TailAtom(m: nat, p: Prog, e: Expr, env: Env, w: World)
    requires !e.App?
    ensures Eval(m, p, e, env, w, true) == Done(AtomValue(e, env), w)
  {
  }

  lemma {:induction false} AgainValue(m: nat, p: Prog, n: nat, a: int, env: Env, w: World)
    requires Arithmetic(p.prims) && SUM in p.defs && AllInRange(n, a) && n > 0
    requires AtomValue(Sym(N), env) == VInt(n) && AtomValue(Sym(A), env) == VInt(a) && Dom(env) == {N, A}
    ensures Eval(m, p, Again(), env, w, true) == CallNamed(m, p, SUM, [VInt(n - 1), VInt(a + n)], w)
  {
    hide Eval, View, Dom, CallNamed, Run, AtomValue, Less, More, Again, Standard;
    NextValues(m, p, n, a, env, w);
    var args := List2(Less(), More());
    assert EvalArgs(m, p, Empty, env, w) == Args([], w);
    assert EvalArgs(m, p, List1(More()), env, w) == Args([VInt(a + n)] + [], w);
    assert EvalArgs(m, p, args, env, w) == Args([VInt(n - 1)] + ([VInt(a + n)] + []), w);
    assert [VInt(n - 1)] + ([VInt(a + n)] + []) == [VInt(n - 1), VInt(a + n)];
    SelfCallStep(m, p, env, w);
  }

  lemma {:induction false} SelfCallStep(m: nat, p: Prog, env: Env, w: World)
    requires SUM !in Dom(env)
    ensures Eval(m, p, Again(), env, w, true) == PlainCall(m, p, SUM, List2(Less(), More()), env, w)
  {
    hide CallNamed, EvalArgs, View;
    Views();
    assert Eval(m, p, Again(), env, w, true) == Step(m, p, Again(), env, w, true);
  }

  /** So does the code that the driver makes of the file, in a loop, at any fuel that is enough. */
  lemma {:induction false} SumCompiled(m: nat, n: nat, a: int, budget: nat, prims: map<SymId, Prim>, w: World)
    requires Arithmetic(prims) && budget >= 17 && m > n && AllInRange(n, a) && FirstOrderWorld(w) && !w.drift
    ensures var q := Correctness.Compiled(File(), SkipPolicy({}, Some(budget)), prims);
            CallCode(m, q, SUM, [VInt(n), VInt(a)], w).out == Ok(VInt(Total(n, a)))
  {
    hide CallCode, CallNamed, WfFile, Program, Correctness.Compiled, FirstOrderWorld, SameTrace, SameState, Standard;
    FileIsWf(budget, prims);
    var skip := SkipPolicy({}, Some(budget));
    var p := Program(File(), skip, prims);
    SumValue(m, p, n, a, w);
    CompilerCorrect(m, File(), skip, prims, SUM, [VInt(n), VInt(a)], w);
  }

  /** The total, in one formula. */
  lemma {:induction false} TotalIs(n: nat, a: int)
    ensures 2 * Total(n, a) == 2 * a + n * (n + 1)
    decreases n
  {
    if n > 0 { TotalIs(n - 1, a + n); }
  }
}
