/**
 Names that the compiler misreads: its one flat scope is not the lexical one, and it looks at names
 before it asks whether they are bound. What `Wf` and `WfDef` exclude, with an input for each.
 */
module Misread {
  import opened Lists
  import opened Kl
  import opened Machine
  import R = RustIr
  import opened KlEval
  import opened RustRun
  import opened Codegen
  import opened CodegenState
  import opened Related
  import opened Simulation
  import opened SimSteps
  import opened TrapSteps
  import opened TailSteps
  import opened SimExpr
  import opened Frames
  import opened Leftovers
  import opened SelfCalls
  import Passive

  // ---- one name ----

  /**
   Where a name is evaluated, both engines give the same exactly when the flat scope and the lexical
   one agree on it, or it happens to be bound to what the symbol itself stands for.
   */
  lemma {:induction false} NameExact(
    n: nat, p: Prog, q: RProg, x: SymId, st: Cg, env: Env, locals: REnv, w: World, z: World)
    requires Sound({x}, st, env, locals) && x !in st.thaws
    ensures CompileE(Sym(x), st).Emitted?
    ensures var r, s := Eval(n, p, Sym(x), env, w, false), RunE(n, q, CompileE(Sym(x), st).code, locals, z);
            && r.w == w && s.w == z
            && (OutRel(r.out, s.out) <==>
                  Agrees(x, Dom(env), st.scope) || (x in Dom(env) && Rel(Lookup(env, x).value, VSym(x))))
  {
    hide CodeOf, Step, RunNode;
    QuoteRel(Sym(x));
    if x in st.scope {
      LocalHead({x}, st, env, locals, x);
    }
  }

  /** A head that is bound and that the compiler takes for a function, of which there is none. */
  lemma {:induction false} HeadExact(
    n: nat, p: Prog, q: RProg, e: Expr, st: Cg, env: Env, locals: REnv, w: World, z: World, a: ArgsRes)
    requires Linked(p, q) && WRel(w, z) && n > 0 && View(e).Call? && CompileE(e, st).Emitted?
    requires View(e).head in Dom(env) && View(e).head !in st.scope && !Defined(p, View(e).head)
    requires ReadyAll(View(e).args, st, env, locals)
    requires a == EvalArgs(n, p, View(e).args, env, w) && a.Args? && !a.w.drift
    ensures Eval(n, p, e, env, w, false) == KlEval.Apply(n - 1, p, Lookup(env, View(e).head).value, a.vs, a.w)
    ensures var s := RunE(n, q, CompileE(e, st).code, locals, z);
            && s.out == Err(Runtime) && WRel(a.w, s.w)
            && (OutRel(Eval(n, p, e, env, w, false).out, s.out) <==> Eval(n, p, e, env, w, false).out == Err(Runtime))
  {
    hide Linked, EnvRel, RunE, CodeOf, Rel, EvalArgs, WRel, CallCode, KlEval.Apply, CallNamed, EvalCond, EvalDo;
    var Call(h, args) := View(e);
    assert h !in {K_VALUE, K_SET, K_EQ} && h !in q.prims && h !in q.fns by { SamePrims(p, q); }
    assert CompileE(e, st) == CompileApp(e, st) == CompileHead(h, args, st) == CompileCall(h, args, st) by {
      NotShort(h, args, st.scope);
    }
    assert Eval(n, p, e, env, w, false) == Step(n, p, e, env, w, false);
    hide Eval, CompileE;
    SimArgs(n, p, q, args, st, env, locals, w, z);
    var binds := BindArgs(args, st);
    var b := RunBinds(n, q, binds.code.0, locals, z);
    RunBlock(n, q, binds.code.0, R.CallNamed(h, binds.code.1), locals, z);
    RunCalled(n, q, h, binds.code.1, b.env, b.w);
    Undefined(n, q, h, GetAll(b.env, binds.code.1).value, b.w);
  }

  lemma {:induction false} NotShort(h: SymId, args: List<Expr>, scope: set<SymId>)
    requires h !in {K_VALUE, K_SET, K_EQ}
    ensures Classify(h, args, scope).Plain?
  {
  }

  // ---- a name after an inner binding of it ----

  /** `(let X 1 (do (let X 2 X) X))` */
  function Shadowing(): Expr
  {
    App(Cons(Sym(K_LET), Cons(Sym(X), Cons(Int(1), Cons(Inner(), Empty)))))
  }

  function Inner(): Expr
  {
    App(Cons(Sym(K_DO), Cons(Rebound(), Cons(Sym(X), Empty))))
  }

  function Rebound(): Expr
  {
    App(Cons(Sym(K_LET), Cons(Sym(X), Cons(Int(2), Cons(Sym(X), Empty)))))
  }

  lemma {:induction false} ShadowingCode(st: Cg)
    requires X !in st.scope
    ensures CompileE(Shadowing(), st).Emitted?
    ensures CompileE(Shadowing(), st).code ==
            R.Block(One(R.V(X), R.Lit(Int(1))),
              R.Block(One(R.Wild, R.Block(One(R.V(X), R.Lit(Int(2))), R.Read(R.V(X)))), R.Lit(Sym(X))))
  {
    hide CompileCond, CompileClosure, CompileTry, CompileHead, BindArgs;
    var s1 := st.Bind(X);
    assert CompileE(Int(1), st) == Emitted(R.Lit(Int(1)), st);
    assert CompileE(Int(2), s1) == Emitted(R.Lit(Int(2)), s1);
    assert CompileE(Sym(X), s1.Bind(X)) == Emitted(R.Read(R.V(X)), s1.Bind(X));
    var s2 := s1.Bind(X).Unbind(X);
    assert View(Rebound()) == Let(X, Int(2), Sym(X));
    assert CompileE(Rebound(), s1) == CompileApp(Rebound(), s1)
        == Emitted(R.Block(One(R.V(X), R.Lit(Int(2))), R.Read(R.V(X))), s2);
    assert CompileE(Sym(X), s2) == Emitted(R.Lit(Sym(X)), s2);
    assert CompileDo(Cons(Sym(X), Empty), s2) == CompileE(Sym(X), s2);
    assert View(Inner()) == Do(Cons(Rebound(), Cons(Sym(X), Empty)));
    assert CompileE(Inner(), s1) == CompileApp(Inner(), s1) == CompileDo(View(Inner()).es, s1);
    assert View(Shadowing()) == Let(X, Int(1), Inner());
    assert CompileE(Shadowing(), st) == CompileApp(Shadowing(), st);
  }

  lemma {:induction false} LetStep(n: nat, p: Prog, e: Expr, x: SymId, v: Expr, b: Expr, env: Env, w: World)
    requires View(e) == Let(x, v, b)
    ensures var r := Eval(n, p, v, env, w, false);
            Eval(n, p, e, env, w, false) ==
            if !r.out.Ok? then r else Eval(n, p, b, Push(x, r.out.v, env), r.w, false)
  {
    hide EvalCond, EvalArgs, CallNamed, EvalDo;
    assert Eval(n, p, e, env, w, false) == Step(n, p, e, env, w, false);
  }

  lemma {:induction false} DoStep(n: nat, p: Prog, e: Expr, a: Expr, b: Expr, env: Env, w: World)
    requires View(e) == Do(Cons(a, Cons(b, Empty)))
    ensures var r := Eval(n, p, a, env, w, false);
            Eval(n, p, e, env, w, false) == if !r.out.Ok? then r else Eval(n, p, b, env, r.w, false)
  {
    hide EvalCond, EvalArgs, CallNamed, EvalDo;
    assert Eval(n, p, e, env, w, false) == Step(n, p, e, env, w, false);
    TwoInOrder(n, p, a, b, env, w);
  }

  lemma {:induction false} ShadowingValue(n: nat, p: Prog, w: World)
    ensures Eval(n, p, Shadowing(), EmptyEnv, w, false) == Done(VInt(1), w)
  {
    hide Step;
    var env := Push(X, VInt(1), EmptyEnv);
    var env' := Push(X, VInt(2), env);
    EvalAtom(n, p, Int(1), EmptyEnv, w);
    EvalAtom(n, p, Int(2), env, w);
    EvalAtom(n, p, Sym(X), env, w);
    EvalAtom(n, p, Sym(X), env', w);
    assert Lookup(env', X) == Some(VInt(2)) && Lookup(env, X) == Some(VInt(1));
    assert View(Rebound()) == Let(X, Int(2), Sym(X));
    assert View(Inner()) == Do(Cons(Rebound(), Cons(Sym(X), Empty)));
    assert View(Shadowing()) == Let(X, Int(1), Inner());
    hide Eval, View;
    LetStep(n, p, Rebound(), X, Int(2), Sym(X), env, w);
    DoStep(n, p, Inner(), Rebound(), Sym(X), env, w);
    LetStep(n, p, Shadowing(), X, Int(1), Inner(), EmptyEnv, w);
  }

  lemma {:induction false} TwoInOrder(n: nat, p: Prog, a: Expr, b: Expr, env: Env, w: World)
    ensures var r := Eval(n, p, a, env, w, false);
            EvalDo(n, p, Cons(a, Cons(b, Empty)), env, w, false) ==
            if !r.out.Ok? then r else Eval(n, p, b, env, r.w, false)
  {
    hide Eval;
    var r := Eval(n, p, a, env, w, false);
    assert EvalDo(n, p, Cons(b, Empty), env, r.w, false) == Eval(n, p, b, env, r.w, false);
  }

  lemma {:induction false} ShadowingRun(n: nat, q: RProg, w: World)
    ensures RunE(n, q, R.Block(One(R.V(X), R.Lit(Int(1))),
              R.Block(One(R.Wild, R.Block(One(R.V(X), R.Lit(Int(2))), R.Read(R.V(X)))), R.Lit(Sym(X)))),
              EmptyREnv, w) == Done(VSym(X), w)
  {
    hide RunE;
    var inner := R.Block(One(R.V(X), R.Lit(Int(2))), R.Read(R.V(X)));
    var locals := RPush(R.V(X), Val(VInt(1)), EmptyREnv);
    RunLit(n, q, Int(1), EmptyREnv, w);
    RunLit(n, q, Int(2), locals, w);
    RunLit(n, q, Sym(X), locals, w);
    RunRead(n, q, R.V(X), RPush(R.V(X), Val(VInt(2)), locals), w);
    RunLet(n, q, R.V(X), R.Lit(Int(2)), R.Read(R.V(X)), locals, w);
    assert RunE(n, q, inner, locals, w) == Done(VInt(2), w);
    RunLet(n, q, R.Wild, inner, R.Lit(Sym(X)), locals, w);
    RunLet(n, q, R.V(X), R.Lit(Int(1)), R.Block(One(R.Wild, inner), R.Lit(Sym(X))), EmptyREnv, w);
  }

  /** After the inner `let` the compiler reads the outer name as a symbol. */
  lemma {:induction false} ShadowingBreaks(n: nat, p: Prog, q: RProg, st: Cg, w: World)
    requires X !in st.scope
    ensures Eval(n, p, Shadowing(), EmptyEnv, w, false) == Done(VInt(1), w)
    ensures CompileE(Shadowing(), st).Emitted?
    ensures RunE(n, q, CompileE(Shadowing(), st).code, EmptyREnv, w) == Done(VSym(X), w)
  {
    hide *;
    ShadowingValue(n, p, w);
    ShadowingCode(st);
    ShadowingRun(n, q, w);
  }

  /** `(let X 1 (let X 2 X))` */
  function Twice(): Expr
  {
    App(Cons(Sym(K_LET), Cons(Sym(X), Cons(Int(1), Cons(Rebound(), Empty)))))
  }

  /** Rebinding by itself does no harm; reading the outer name afterwards does. */
  lemma {:induction false} RebindingIsFine()
    ensures Wf(Twice(), {}, {}, {}) && !Wf(Shadowing(), {}, {}, {})
  {
    assert View(Rebound()) == Let(X, Int(2), Sym(X)) && View(Twice()) == Let(X, Int(1), Rebound());
    assert View(Int(2)) == Const(Int(2)) && View(Int(1)) == Const(Int(1)) && View(Sym(X)) == Var(X);
    var s := Flow(Int(1), {}) + {X};
    assert Flow(Int(2), s) == s && Flow(Sym(X), s + {X}) == s + {X};
    assert Wf(Sym(X), {} + {X} + {X}, s + {X}, {});
    assert Wf(Rebound(), {} + {X}, s, {});
    assert Flow(Rebound(), s) == (s + {X}) - {X};
    var rest := Cons(Sym(X), Empty);
    assert View(Inner()) == Do(Cons(Rebound(), rest)) && View(Shadowing()) == Let(X, Int(1), Inner());
    assert !Wf(Sym(X), {} + {X}, Flow(Rebound(), s), {});
    assert !WfAll(rest, {} + {X}, Flow(Rebound(), s), {});
    assert !WfAll(Cons(Rebound(), rest), {} + {X}, s, {});
    assert !Wf(Inner(), {} + {X}, s, {});
  }

  // ---- a parameter that is hidden where the function calls itself ----

  /** `(if X 7 (let X true (F X)))` */
  function Hiding(): Expr
  {
    App(Cons(Sym(K_IF), Cons(Sym(X), Cons(Int(7), Cons(SetsAndLoops(), Empty)))))
  }

  function SetsAndLoops(): Expr
  {
    App(Cons(Sym(K_LET), Cons(Sym(X), Cons(Bool(true), Cons(CallsF(), Empty)))))
  }

  function CallsF(): Expr
  {
    App(Cons(Sym(F), Cons(Sym(X), Empty)))
  }

  function HidingCode(k: nat): R.RStmt
  {
    R.SBlock(One(R.T(k), R.Read(R.V(X))),
      R.SIf(R.T(k), R.Break(R.Lit(Int(7))),
        R.SBlock(One(R.V(X), R.Lit(Bool(true))), RoundCode(k + 1))))
  }

  /** The parameter assigned its own value, and round again. */
  function RoundCode(k: nat): R.RStmt
  {
    R.SBlock(One(R.T(k), R.Read(R.V(X))), R.Continue(R.Locals([X]), [R.T(k)]))
  }

  lemma {:induction false} RoundEmitted(e: Expr, f: SymId, st: Cg)
    requires e == App(Cons(Sym(f), Cons(Sym(X), Empty))) && SelfCall(e, st) && X in st.scope && st.params == [X]
    ensures CompileTail(e, st) == Emitted(RoundCode(st.counter), st.Next())
  {
    hide CompileCond, CompileDo, CompileClosure, CompileTry, CompileHead, CompileTailCond, CompileTailDo, CompileBreak;
    var args := Cons(Sym(X), Empty);
    assert CompileE(Sym(X), st) == Emitted(R.Read(R.V(X)), st);
    assert BindArgs(Empty, st.Next()) == Emitted((Empty, []), st.Next());
    assert [st.Fresh()] + [] == [st.Fresh()];
    assert BindArgs(args, st) == Emitted((One(st.Fresh(), R.Read(R.V(X))), [st.Fresh()]), st.Next());
    assert CompileTail(e, st) == CompileTailApp(e, st);
  }

  lemma {:induction false} HidingEmitted(k: nat)
    ensures var r := CompileTail(Hiding(), AtEntry(F, [X], k));
            r.Emitted? && r.code == HidingCode(k)
  {
    hide CompileCond, CompileDo, CompileClosure, CompileTry, CompileHead, CompileTailCond, CompileTailDo, BindArgs;
    var st := AtEntry(F, [X], k);
    var s1 := st.Next();
    assert X in st.scope && F !in st.scope;
    assert View(Hiding()) == If(Sym(X), Int(7), SetsAndLoops());
    assert View(SetsAndLoops()) == Let(X, Bool(true), CallsF());
    assert CompileE(Sym(X), st) == Emitted(R.Read(R.V(X)), st);
    assert CompileTail(Int(7), s1) == CompileBreak(Int(7), s1) == Emitted(R.Break(R.Lit(Int(7))), s1);
    assert CompileE(Bool(true), s1) == Emitted(R.Lit(Bool(true)), s1);
    RoundEmitted(CallsF(), F, s1.Bind(X));
    assert CompileTail(SetsAndLoops(), s1) == CompileTailApp(SetsAndLoops(), s1);
    assert CompileTail(Hiding(), st) == CompileTailApp(Hiding(), st);
  }

  /** The `X` of the `let` is no parameter, and may not be assigned. */
  lemma {:induction false} HidingRuns(n: nat, q: RProg, k: nat, w: World)
    ensures RunS(n, q, HidingCode(k), RFrame([X], [VBool(false)]), w) == Leave(IllFormed(w))
  {
    hide RunE, RunS;
    var frame := RFrame([X], [VBool(false)]);
    FrameOfOne(VBool(false));
    var locals1 := RPush(R.T(k), Val(VBool(false)), frame);
    var locals2 := RPush(R.V(X), Val(VBool(true)), locals1);
    var locals3 := RPush(R.T(k + 1), Val(VBool(true)), locals2);
    var hidden := R.SBlock(One(R.V(X), R.Lit(Bool(true))), RoundCode(k + 1));
    RunRead(n, q, R.V(X), frame, w);
    RunSLet(n, q, R.T(k), R.Read(R.V(X)), R.SIf(R.T(k), R.Break(R.Lit(Int(7))), hidden), frame, w);
    RunSIf(n, q, R.T(k), VBool(false), R.Break(R.Lit(Int(7))), hidden, frame, w);
    RunLit(n, q, Bool(true), locals1, w);
    RunSLet(n, q, R.V(X), R.Lit(Bool(true)), RoundCode(k + 1), locals1, w);
    RunRead(n, q, R.V(X), locals2, w);
    RunSLet(n, q, R.T(k + 1), R.Read(R.V(X)), R.Continue(R.Locals([X]), [R.T(k + 1)]), locals2, w);
    assert Depth(frame) == 1 && Depth(locals1) == 2 && Depth(locals2) == 3;
    assert R.Locals([X]) == [R.V(X)] && !Writable(locals3, R.V(X), 1);
    StuckRound(n, q, k + 1, locals3, w);
  }

  lemma {:induction false} StuckRound(n: nat, q: RProg, k: nat, env: REnv, w: World)
    requires !Writable(env, R.V(X), 1)
    ensures RunS(n, q, R.Continue(R.Locals([X]), [R.T(k)]), env, w) == Leave(IllFormed(w))
  {
    assert R.Locals([X]) == [R.V(X)];
  }

  lemma {:induction false} FrameOfOne(v: Value)
    ensures RFrame([X], [v]) == RPush(R.V(X), Val(v), EmptyREnv)
    ensures Frame([X], [v]) == Push(X, v, EmptyEnv)
    ensures GetAll(RFrame([X], [v]), R.Locals([X])) == Some([v])
  {
    assert [X][..0] == [] && [v][..0] == [] && RFrame([], []) == EmptyREnv && Frame([], []) == EmptyEnv;
    var frame := RFrame([X], [v]);
    assert R.Locals([X]) == [R.V(X)] && [R.V(X)][1..] == [] && GetAll(frame, []) == Some([]);
    assert GetVal(frame, R.V(X)) == Some(v) && [v] + [] == [v];
  }

  /** A loop whose every round leaves its parameter as it was does not end. */
  lemma {:induction false} Forever(n: nat, q: RProg, fn: R.RFn, v: Value, w: World)
    requires fn.params == [X]
    requires forall m: nat, u: World ::
               var r := RunS(m, q, fn.body, RFrame([X], [v]), u);
               r.Again? && Outermost(r.env, 1) == RFrame([X], [v])
    ensures RunLoop(n, q, fn, RFrame([X], [v]), w).out == Timeout
    decreases n
  {
    hide RunS, Outermost;
    FrameOfOne(v);
    var r := RunS(n, q, fn.body, RFrame([X], [v]), w);
    if n > 0 { Forever(n - 1, q, fn, v, Log(r.w, fn.name, [v])); }
  }

  /** The evaluator's side: two calls, and the answer. */
  lemma {:induction false} HidingValue(n: nat, p: Prog, b: bool, w: World)
    requires F !in p.prims && F in p.defs && p.defs[F] == Def([X], Hiding()) && n > (if b then 0 else 1)
    ensures CallNamed(n, p, F, [VBool(b)], w).out == Ok(VInt(7))
    decreases !b
  {
    hide Eval, KlEval.Apply;
    NamedShape(n, p, F, [VBool(b)], w);
    var env := Frame([X], [VBool(b)]);
    FrameOfOne(VBool(b));
    var w' := Log(w, F, [VBool(b)]);
    EvalAtom(n - 1, p, Sym(X), env, w');
    assert Lookup(env, X) == Some(VBool(b));
    assert View(Hiding()) == If(Sym(X), Int(7), SetsAndLoops());
    IfStep(n - 1, p, Hiding(), env, w', true);
    if b {
      EvalTailAtom(n - 1, p, Int(7), env, w');
    } else {
      LoopValue(n - 1, p, env, w');
      HidingValue(n - 1, p, true, w');
    }
  }

  lemma {:induction false} EvalTailAtom(n: nat, p: Prog, e: Expr, env: Env, w: World)
    requires !e.App?
    ensures Eval(n, p, e, env, w, true) == Done(AtomValue(e, env), w)
  {
  }

  lemma {:induction false} LoopValue(n: nat, p: Prog, env: Env, w: World)
    requires F in p.defs && env.Push? && env.x == X && env.rest == EmptyEnv
    ensures Eval(n, p, SetsAndLoops(), env, w, true) == CallNamed(n, p, F, [VBool(true)], w)
  {
    hide EvalCond, EvalDo, CallNamed;
    var env' := Push(X, VBool(true), env);
    assert View(SetsAndLoops()) == Let(X, Bool(true), CallsF()) && View(CallsF()) == Call(F, Cons(Sym(X), Empty));
    EvalAtom(n, p, Bool(true), env, w);
    EvalAtom(n, p, Sym(X), env', w);
    assert Lookup(EmptyEnv, F) == None && Lookup(env, F) == None;
    assert Lookup(env', X) == Some(VBool(true)) && Lookup(env', F) == None;
    assert EvalArgs(n, p, Empty, env', w) == Args([], w) && [VBool(true)] + [] == [VBool(true)];
    assert EvalArgs(n, p, Cons(Sym(X), Empty), env', w) == Args([VBool(true)] + [], w);
    assert Eval(n, p, SetsAndLoops(), env, w, true) == Step(n, p, SetsAndLoops(), env, w, true);
    assert Eval(n, p, CallsF(), env', w, true) == Step(n, p, CallsF(), env', w, true);
  }

  /**
   `(defun F (X) (if X 7 (let X true (F X))))` returns 7; its code assigns the `X` of the `let`, which
   is not `mut`, so that rustc refuses it. It is what `Loops` excludes.
   */
  lemma {:induction false} HiddenParameter(n: nat, p: Prog, q: RProg, k: nat, w: World)
    requires F !in p.prims && F in p.defs && p.defs[F] == Def([X], Hiding())
    ensures CompileFn(F, [X], Hiding(), k).Emitted?
    ensures n > 1 ==> CallNamed(n, p, F, [VBool(false)], w).out == Ok(VInt(7))
    ensures RunLoop(n, q, CompileFn(F, [X], Hiding(), k).code, RFrame([X], [VBool(false)]), w) == IllFormed(w)
    ensures !AssignsMut(CompileFn(F, [X], Hiding(), k).code.body, {})
    ensures Defined(p, F) && Wf(Hiding(), {X}, {X}, {}) && !Loops(Hiding(), Some(F), [X], {X}, {})
  {
    HidingEmitted(k);
    var fn := CompileFn(F, [X], Hiding(), k).code;
    assert fn == R.RFn(F, [X], HidingCode(k));
    hide *;
    HidingIsWf();
    HidingAssigns(k);
    if n > 1 { HidingValue(n, p, false, w); }
    HidingRuns(n, q, k, w);
    FinishLoop(n, q, fn, RFrame([X], [VBool(false)]), w);
    FinishLeft(n, q, fn, IllFormed(w));
  }

  lemma {:induction false} FinishLeft(n: nat, q: RProg, fn: R.RFn, r: Res)
    ensures Finish(n, q, fn, Leave(r)) == r
  {
  }

  lemma {:induction false} HidingAssigns(k: nat)
    ensures !AssignsMut(HidingCode(k), {})
  {
    var round := R.Continue(R.Locals([X]), [R.T(k + 1)]);
    assert R.Locals([X]) == [R.V(X)] && NameOf(R.V(X)) == {X};
    assert !AssignsMut(round, {X});
    AssignsOne(R.T(k + 1), R.Read(R.V(X)), round, {X});
    AssignsOne(R.V(X), R.Lit(Bool(true)), RoundCode(k + 1), {});
    assert {} + {X} == {X};
    var hidden := R.SBlock(One(R.V(X), R.Lit(Bool(true))), RoundCode(k + 1));
    AssignsOne(R.T(k), R.Read(R.V(X)), R.SIf(R.T(k), R.Break(R.Lit(Int(7))), hidden), {});
  }

  lemma {:induction false} HidingIsWf()
    ensures Wf(Hiding(), {X}, {X}, {}) && !Loops(Hiding(), Some(F), [X], {X}, {})
  {
    hide Inlines, TrappedAccess;
    assert View(Hiding()) == If(Sym(X), Int(7), SetsAndLoops());
    assert Flow(Sym(X), {X}) == {X} && Flow(Int(7), {X}) == {X};
    assert Wf(Sym(X), {X}, {X}, {}) && Wf(Int(7), {X}, {X}, {});
    SetsIsWf();
  }

  lemma {:induction false} SetsIsWf()
    ensures Wf(SetsAndLoops(), {X}, {X}, {}) && !Loops(SetsAndLoops(), Some(F), [X], {X}, {})
  {
    hide TrappedAccess;
    assert View(SetsAndLoops()) == Let(X, Bool(true), CallsF()) && View(CallsF()) == Call(F, Cons(Sym(X), Empty));
    assert !Inlines(X, Bool(true), CallsF());
    hide Inlines;
    assert Flow(Bool(true), {X}) == {X} && {X} + {X} == {X} && {} + {X} == {X};
    assert WfAll(Empty, {X}, {X}, {}) && Wf(Sym(X), {X}, {X}, {}) && Flow(Sym(X), {X}) == {X};
    assert WfAll(Cons(Sym(X), Empty), {X}, {X}, {});
    assert Wf(CallsF(), {X}, {X}, {});
    assert X in [X] && !Unhidden([X], {X});
    assert Rounds(CallsF(), Some(F), 1, {X}, {X}) == {Round(CallsF(), {X})};
    assert !GoodRound(Round(CallsF(), {X}), [X]);
    assert !Loops(CallsF(), Some(F), [X], {X}, {X});
  }

  // ---- a function named like a special form ----

  /** `(defun thaw (X) (thaw X))` thaws its argument, and its code takes the form for a call of itself. */
  lemma {:induction false} NamedThaw(n: nat, p: Prog, q: RProg, k: nat, v: Value, w: World)
    ensures CompileFn(K_THAW, [X], ThawX(), k).Emitted?
    ensures n > 0 ==> Eval(n, p, ThawX(), Frame([X], [VLam(EmptyEnv, None, Int(1))]), w, true) == Done(VInt(1), w)
    ensures RunLoop(n, q, CompileFn(K_THAW, [X], ThawX(), k).code, RFrame([X], [v]), w).out == Timeout
  {
    RoundEmitted(ThawX(), K_THAW, AtEntry(K_THAW, [X], k));
    var fn := CompileFn(K_THAW, [X], ThawX(), k).code;
    assert fn == R.RFn(K_THAW, [X], RoundCode(k));
    hide *;
    if n > 0 { ThawsArgument(n, p, w); }
    forall m: nat, u: World
      ensures var r := RunS(m, q, fn.body, RFrame([X], [v]), u); r.Again? && Outermost(r.env, 1) == RFrame([X], [v])
    {
      FrameRound(m, q, k, v, u);
    }
    Forever(n, q, fn, v, w);
  }

  /** The parameter is read and assigned its own value. */
  lemma {:induction false} FrameRound(n: nat, q: RProg, k: nat, v: Value, w: World)
    ensures var r := RunS(n, q, RoundCode(k), RFrame([X], [v]), w); r.Again? && Outermost(r.env, 1) == RFrame([X], [v])
  {
    hide RunE;
    FrameOfOne(v);
    var frame := RFrame([X], [v]);
    var inner := RPush(R.T(k), Val(v), frame);
    RunRead(n, q, R.V(X), frame, w);
    RunSLet(n, q, R.T(k), R.Read(R.V(X)), R.Continue(R.Locals([X]), [R.T(k)]), frame, w);
    assert R.Locals([X]) == [R.V(X)];
    assert Depth(frame) == 1 && Depth(inner) == 2 && Writable(inner, R.V(X), 1) && GetVal(inner, R.T(k)) == Some(v);
    assert Assign(inner, R.V(X), v) == inner;
    assert AssignAll(inner, [], [], 1) == Some(inner);
    assert AssignAll(inner, [R.V(X)], [R.T(k)], 1) == AssignAll(inner, [R.V(X)][1..], [R.T(k)][1..], 1);
    assert Outermost(inner, 1) == Outermost(frame, 1) == frame;
  }

  // ---- a head that is rebound ----

  const Y: SymId := 105

  /** `(let G (lambda Y Y) (do (let G 2 G) (G 3)))` */
  function Reused(): Expr
  {
    App(Cons(Sym(K_LET), Cons(Sym(G), Cons(Same(), Cons(ThenCalls(), Empty)))))
  }

  function Same(): Expr
  {
    App(Cons(Sym(K_LAMBDA), Cons(Sym(Y), Cons(Sym(Y), Empty))))
  }

  function Forgets(): Expr
  {
    App(Cons(Sym(K_LET), Cons(Sym(G), Cons(Int(2), Cons(Sym(G), Empty)))))
  }

  function CallsG(): Expr
  {
    App(Cons(Sym(G), Cons(Int(3), Empty)))
  }

  function ThenCalls(): Expr
  {
    App(Cons(Sym(K_DO), Cons(Forgets(), Cons(CallsG(), Empty))))
  }

  lemma {:induction false} ReusedViews()
    ensures View(Reused()) == Let(G, Same(), ThenCalls()) && View(Same()) == Lambda(Y, Sym(Y))
    ensures View(ThenCalls()) == Do(Cons(Forgets(), Cons(CallsG(), Empty)))
    ensures View(Forgets()) == Let(G, Int(2), Sym(G)) && View(CallsG()) == Call(G, Cons(Int(3), Empty))
  {
    hide View;
    LetView(Reused(), G, Same(), ThenCalls());
    LetView(Forgets(), G, Int(2), Sym(G));
    LambdaView(Same(), Y, Sym(Y));
    DoView(ThenCalls(), Cons(Forgets(), Cons(CallsG(), Empty)));
    CallView(CallsG(), G, Cons(Int(3), Empty));
  }

  lemma {:induction false} LambdaView(e: Expr, x: SymId, b: Expr)
    requires e == App(Cons(Sym(K_LAMBDA), Cons(Sym(x), Cons(b, Empty))))
    ensures View(e) == Lambda(x, b)
  {
  }

  lemma {:induction false} DoView(e: Expr, es: List<Expr>)
    requires e == App(Cons(Sym(K_DO), es))
    ensures View(e) == Do(es)
  {
  }

  /** Names above the special forms are called. */
  lemma {:induction false} CallView(e: Expr, h: SymId, args: List<Expr>)
    requires e == App(Cons(Sym(h), args)) && h > K_TYPE
    ensures View(e) == Call(h, args)
  {
  }

  lemma {:induction false} LetView(e: Expr, x: SymId, v: Expr, b: Expr)
    requires e == App(Cons(Sym(K_LET), Cons(Sym(x), Cons(v, Cons(b, Empty)))))
    ensures View(e) == Let(x, v, b)
  {
  }

  lemma {:induction false} LetCode(e: Expr, x: SymId, v: Expr, b: Expr, st: Cg)
    requires View(e) == Let(x, v, b) && !Inlines(x, v, b) && CompileE(v, st).Emitted?
    requires CompileE(b, CompileE(v, st).st.Bind(x)).Emitted?
    ensures var body := CompileE(b, CompileE(v, st).st.Bind(x));
            CompileE(e, st) == Emitted(R.Block(One(R.V(x), CompileE(v, st).code), body.code), body.st.Unbind(x))
  {
    hide CompileCond, CompileTry, CompileHead, BindArgs, CompileDo, CompileClosure, Inlines;
    assert CompileE(e, st) == CompileApp(e, st);
  }

  lemma {:induction false} ProcCode(e: Expr, x: SymId, v: Expr, b: Expr, st: Cg)
    requires View(e) == Let(x, v, b) && Inlines(x, v, b) && CompileE(View(v).body, st).Emitted?
    requires CompileE(b, EnterProc(CompileE(View(v).body, st).st, x)).Emitted?
    ensures var proc := CompileE(View(v).body, st);
            var body := CompileE(b, EnterProc(proc.st, x));
            CompileE(e, st) == Emitted(R.LetProc(proc.st.Fresh(), proc.code, body.code), LeaveProc(body.st, x))
  {
    hide CompileCond, CompileTry, CompileHead, BindArgs, CompileDo, CompileClosure, Inlines;
    assert CompileE(e, st) == CompileApp(e, st);
  }

  lemma {:induction false} ReusedValue(n: nat, p: Prog, w: World)
    requires n > 0
    ensures Eval(n, p, Reused(), EmptyEnv, w, false) == Done(VInt(3), w)
  {
    hide Step;
    ReusedViews();
    var f := VLam(EmptyEnv, Some(Y), Sym(Y));
    var env := Push(G, f, EmptyEnv);
    LambdaStep(n, p, Same(), Y, Sym(Y), EmptyEnv, w);
    EvalAtom(n, p, Int(2), env, w);
    EvalAtom(n, p, Sym(G), Push(G, VInt(2), env), w);
    ApplyG(n, p, f, env, w);
    assert Lookup(Push(G, VInt(2), env), G) == Some(VInt(2));
    hide Eval, View;
    LetStep(n, p, Forgets(), G, Int(2), Sym(G), env, w);
    DoStep(n, p, ThenCalls(), Forgets(), CallsG(), env, w);
    LetStep(n, p, Reused(), G, Same(), ThenCalls(), EmptyEnv, w);
  }

  lemma {:induction false} LambdaStep(n: nat, p: Prog, e: Expr, x: SymId, b: Expr, env: Env, w: World)
    requires View(e) == Lambda(x, b)
    ensures Eval(n, p, e, env, w, false) == Done(VLam(env, Some(x), b), w)
  {
    hide EvalCond, EvalArgs, CallNamed, EvalDo;
    assert Eval(n, p, e, env, w, false) == Step(n, p, e, env, w, false);
  }

  lemma {:induction false} ApplyG(n: nat, p: Prog, f: Value, env: Env, w: World)
    requires n > 0 && f == VLam(EmptyEnv, Some(Y), Sym(Y)) && env == Push(G, f, EmptyEnv)
    ensures Eval(n, p, CallsG(), env, w, false) == Done(VInt(3), w)
  {
    hide Step, KlEval.Apply;
    ReusedViews();
    EvalAtom(n, p, Int(3), env, w);
    assert EvalArgs(n, p, Empty, env, w) == Args([], w);
    assert EvalArgs(n, p, Cons(Int(3), Empty), env, w) == Args([VInt(3)] + [], w);
    assert Lookup(env, G) == Some(f) && [VInt(3)] + [] == [VInt(3)];
    hide Eval, View;
    LocalStep(n, p, CallsG(), env, w);
    ApplyLam(n - 1, p, EmptyEnv, Some(Y), Sym(Y), [VInt(3)], w);
    EvalAtom(n - 1, p, Sym(Y), Push(Y, VInt(3), EmptyEnv), w);
    assert Lookup(Push(Y, VInt(3), EmptyEnv), Y) == Some(VInt(3));
  }

  function ReusedCode(k: nat): R.RExpr
  {
    R.Block(One(R.V(G), R.Closure([], Some(Y), R.Read(R.V(Y)), [])),
      R.Block(One(R.Wild, R.Block(One(R.V(G), R.Lit(Int(2))), R.Read(R.V(G)))), CallsGCode(k)))
  }

  function CallsGCode(k: nat): R.RExpr
  {
    R.Block(One(R.T(k), R.Lit(Int(3))), R.CallNamed(G, [R.T(k)]))
  }

  lemma {:induction false} ReusedEmitted(st: Cg)
    requires st.scope == {}
    ensures CompileE(Reused(), st).Emitted? && CompileE(Reused(), st).code == ReusedCode(st.counter)
  {
    hide CompileCond, CompileTry, CompileHead, BindArgs;
    ReusedViews();
    assert !Inlines(G, Same(), ThenCalls()) && !Inlines(G, Int(2), Sym(G));
    SameEmitted(st);
    var s1 := st.Bind(G);
    var s2 := s1.Bind(G).Unbind(G);
    assert CompileE(Int(2), s1) == Emitted(R.Lit(Int(2)), s1);
    assert CompileE(Sym(G), s1.Bind(G)) == Emitted(R.Read(R.V(G)), s1.Bind(G));
    assert CompileE(Forgets(), s1) == CompileApp(Forgets(), s1)
        == Emitted(R.Block(One(R.V(G), R.Lit(Int(2))), R.Read(R.V(G))), s2);
    CallsGEmitted(s2);
    assert CompileDo(Cons(CallsG(), Empty), s2) == CompileE(CallsG(), s2);
    assert CompileE(ThenCalls(), s1) == CompileApp(ThenCalls(), s1) == CompileDo(View(ThenCalls()).es, s1);
    assert CompileE(Reused(), st) == CompileApp(Reused(), st);
  }

  lemma {:induction false} SameEmitted(st: Cg)
    requires st.scope == {}
    ensures CompileE(Same(), st) == Emitted(R.Closure([], Some(Y), R.Read(R.V(Y)), []), st)
  {
    hide CompileCond, CompileTry, CompileHead, BindArgs, CompileDo;
    ReusedViews();
    var inner := Inside(Some(Y), Sym(Y), st);
    assert Captures(Sym(Y), st.scope) == {} && Sorted({}) == [] && Y in inner.scope;
    assert CompileE(Sym(Y), inner) == Emitted(R.Read(R.V(Y)), inner);
    assert CompileE(Same(), st) == CompileApp(Same(), st) == CompileClosure(Some(Y), Sym(Y), st);
  }

  lemma {:induction false} CallsGEmitted(st: Cg)
    requires G !in st.scope
    ensures CompileE(CallsG(), st) == Emitted(CallsGCode(st.counter), st.Next())
  {
    hide CompileCond, CompileTry, CompileDo, CompileClosure;
    ReusedViews();
    var args := Cons(Int(3), Empty);
    NotShort(G, args, st.scope);
    assert CompileE(Int(3), st) == Emitted(R.Lit(Int(3)), st);
    assert BindArgs(Empty, st.Next()) == Emitted((Empty, []), st.Next());
    assert [st.Fresh()] + [] == [st.Fresh()];
    assert BindArgs(args, st) == Emitted((One(st.Fresh(), R.Lit(Int(3))), [st.Fresh()]), st.Next());
    assert CompileE(CallsG(), st) == CompileApp(CallsG(), st) == CompileHead(G, args, st) == CompileCall(G, args, st);
  }

  lemma {:induction false} ReusedRuns(n: nat, q: RProg, k: nat, w: World)
    requires G !in q.prims && G !in q.fns
    ensures RunE(n, q, ReusedCode(k), EmptyREnv, w) == Raise(w)
  {
    hide RunE, CallCode;
    var closure := R.Closure([], Some(Y), R.Read(R.V(Y)), []);
    assert R.Locals([]) == [] && Capture(EmptyREnv, []) == Some(EmptyREnv) && GetAll(EmptyREnv, []) == Some([]);
    RunClosure(n, q, [], Some(Y), R.Read(R.V(Y)), [], EmptyREnv, w);
    var f := VCode(EmptyREnv, Some(Y), R.Read(R.V(Y)), []);
    var locals := RPush(R.V(G), Val(f), EmptyREnv);
    var forgets := R.Block(One(R.V(G), R.Lit(Int(2))), R.Read(R.V(G)));
    RunLit(n, q, Int(2), locals, w);
    RunRead(n, q, R.V(G), RPush(R.V(G), Val(VInt(2)), locals), w);
    RunLet(n, q, R.V(G), R.Lit(Int(2)), R.Read(R.V(G)), locals, w);
    RunLit(n, q, Int(3), locals, w);
    var locals' := RPush(R.T(k), Val(VInt(3)), locals);
    RunLet(n, q, R.T(k), R.Lit(Int(3)), R.CallNamed(G, [R.T(k)]), locals, w);
    RunCalled(n, q, G, [R.T(k)], locals', w);
    assert [R.T(k)][1..] == [] && GetAll(locals', []) == Some([]);
    assert GetAll(locals', [R.T(k)]) == Some([VInt(3)] + []);
    Undefined(n, q, G, [VInt(3)] + [], w);
    RunLet(n, q, R.Wild, forgets, CallsGCode(k), locals, w);
    RunLet(n, q, R.V(G), closure, R.Block(One(R.Wild, forgets), CallsGCode(k)), EmptyREnv, w);
  }

  /** After the inner `let` the compiler calls a function of the outer name, and there is none. */
  lemma {:induction false} HeadBreaks(n: nat, p: Prog, q: RProg, st: Cg, w: World)
    requires n > 0 && st.scope == {} && G !in q.prims && G !in q.fns
    ensures Eval(n, p, Reused(), EmptyEnv, w, false) == Done(VInt(3), w)
    ensures CompileE(Reused(), st).Emitted?
    ensures RunE(n, q, CompileE(Reused(), st).code, EmptyREnv, w) == Raise(w)
  {
    hide *;
    ReusedValue(n, p, w);
    ReusedEmitted(st);
    ReusedRuns(n, q, st.counter, w);
  }

  // ---- a binder named like an access ----

  /** `(let value 1 (trap-error (value X) (lambda Y 2)))` */
  function LocalValue(): Expr
  {
    App(Cons(Sym(K_LET), Cons(Sym(K_VALUE), Cons(Int(1), Cons(TrapsIt(), Empty)))))
  }

  function TrapsIt(): Expr
  {
    App(Cons(Sym(K_TRAP_ERROR), Cons(ValueOfX(), Cons(ToTwo(), Empty))))
  }

  function ValueOfX(): Expr
  {
    App(Cons(Sym(K_VALUE), Cons(Sym(X), Empty)))
  }

  function ToTwo(): Expr
  {
    App(Cons(Sym(K_LAMBDA), Cons(Sym(Y), Cons(Int(2), Empty))))
  }

  lemma {:induction false} LocalValueViews()
    ensures View(LocalValue()) == Let(K_VALUE, Int(1), TrapsIt()) && View(TrapsIt()) == Trap(ValueOfX(), ToTwo())
    ensures View(ValueOfX()) == Call(K_VALUE, Cons(Sym(X), Empty)) && View(ToTwo()) == Lambda(Y, Int(2))
    ensures TrappedAccess(ValueOfX(), ToTwo()) == Some(Access(K_VALUE, Cons(Sym(X), Empty), Int(2)))
    ensures !Inlines(K_VALUE, Int(1), TrapsIt())
  {
    assert Names(Int(2)) == {} && Atomic(Cons(Sym(X), Empty));
  }

  lemma {:induction false} LocalValueValue(n: nat, p: Prog, w: World)
    requires n > 0
    ensures Eval(n, p, LocalValue(), EmptyEnv, w, false).out == Ok(VInt(2))
  {
    hide Step, TrapDrifts;
    LocalValueViews();
    var env := Push(K_VALUE, VInt(1), EmptyEnv);
    EvalAtom(n, p, Int(1), EmptyEnv, w);
    CallsOne(n, p, env, w);
    hide Eval, View;
    TrapStep(n, p, TrapsIt(), env, w);
    var w' := if TrapDrifts(ValueOfX(), ToTwo(), env) then Drifted(w) else w;
    EvalAtom(n - 1, p, Int(2), Push(Y, VErr(Runtime), env), w');
    LetStep(n, p, LocalValue(), K_VALUE, Int(1), TrapsIt(), EmptyEnv, w);
  }

  lemma {:induction false} CallsOne(n: nat, p: Prog, env: Env, w: World)
    requires n > 0 && env == Push(K_VALUE, VInt(1), EmptyEnv)
    ensures Eval(n, p, ValueOfX(), env, w, false) == Raise(w)
  {
    hide EvalCond, EvalDo, CallNamed;
    LocalValueViews();
    EvalAtom(n, p, Sym(X), env, w);
    assert EvalArgs(n, p, Empty, env, w) == Args([], w);
    var a := EvalArgs(n, p, Cons(Sym(X), Empty), env, w);
    assert a.Args? && a.w == w;
    assert Lookup(env, K_VALUE) == Some(VInt(1));
    assert KlEval.Apply(n - 1, p, VInt(1), a.vs, w) == Raise(w);
    assert Eval(n, p, ValueOfX(), env, w, false) == Step(n, p, ValueOfX(), env, w, false);
  }

  function LocalValueCode(): R.RExpr
  {
    R.Block(One(R.V(K_VALUE), R.Lit(Int(1))), OneCode(R.Lit(Sym(X)), R.Closure([], None, R.Lit(Int(2)), [])))
  }

  lemma {:induction false} LocalValueEmitted(st: Cg)
    requires st.scope == {}
    ensures CompileE(LocalValue(), st).Emitted? && CompileE(LocalValue(), st).code == LocalValueCode()
  {
    hide CompileCond, CompileTry, CompileHead, BindArgs, CompileDo;
    LocalValueViews();
    var s1 := st.Bind(K_VALUE);
    var inner := Inside(None, Int(2), s1);
    assert Captures(Int(2), s1.scope) == {} && Sorted({}) == [];
    assert CompileE(Int(1), st) == Emitted(R.Lit(Int(1)), st);
    assert CompileE(Int(2), inner) == Emitted(R.Lit(Int(2)), inner);
    assert CompileClosure(None, Int(2), s1) == Emitted(R.Closure([], None, R.Lit(Int(2)), []), s1);
    assert CompileE(Sym(X), s1) == Emitted(R.Lit(Sym(X)), s1);
    assert CompileE(TrapsIt(), s1) == CompileApp(TrapsIt(), s1);
    assert CompileE(LocalValue(), st) == CompileApp(LocalValue(), st);
  }

  lemma {:induction false} LocalValueRuns(n: nat, q: RProg, w: World)
    requires K_VALUE_OR in q.prims && q.prims[K_VALUE_OR] == PValueOr && X in w.globals
    ensures RunE(n, q, LocalValueCode(), EmptyREnv, w) == Done(w.globals[X], w)
  {
    hide RunE, DeferredCode;
    var thunk := R.Closure([], None, R.Lit(Int(2)), []);
    var locals := RPush(R.V(K_VALUE), Val(VInt(1)), EmptyREnv);
    var locals' := RPush(R.FixedX, Val(VSym(X)), locals);
    RunLit(n, q, Int(1), EmptyREnv, w);
    RunLit(n, q, Sym(X), locals, w);
    assert R.Locals([]) == [] && Capture(locals', []) == Some(EmptyREnv) && GetAll(locals', []) == Some([]);
    RunClosure(n, q, [], None, R.Lit(Int(2)), [], locals', w);
    var t := VCode(EmptyREnv, None, R.Lit(Int(2)), []);
    RunOne(n, q, R.Lit(Sym(X)), thunk, locals, w, VSym(X), t);
    FindsGlobal(n, q, t, w);
    RunLet(n, q, R.V(K_VALUE), R.Lit(Int(1)), OneCode(R.Lit(Sym(X)), thunk), EmptyREnv, w);
  }

  lemma {:induction false} FindsGlobal(n: nat, q: RProg, t: Value, w: World)
    requires X in w.globals
    ensures DeferredCode(n, q, PValueOr, [VSym(X)] + [t], w) == Done(w.globals[X], w)
  {
  }

  /** The compiler rewrites the trap without asking whether `value` is bound. */
  lemma {:induction false} LocalAccessBreaks(n: nat, p: Prog, q: RProg, st: Cg, w: World)
    requires n > 0 && st.scope == {} && K_VALUE_OR in q.prims && q.prims[K_VALUE_OR] == PValueOr && X in w.globals
    ensures Eval(n, p, LocalValue(), EmptyEnv, w, false).out == Ok(VInt(2))
    ensures CompileE(LocalValue(), st).Emitted?
    ensures RunE(n, q, CompileE(LocalValue(), st).code, EmptyREnv, w) == Done(w.globals[X], w)
  {
    hide *;
    LocalValueValue(n, p, w);
    LocalValueEmitted(st);
    LocalValueRuns(n, q, w);
  }

  /** An operator that is bound to no closure cannot be applied. */
  lemma {:induction false} BoundOperator(n: nat, p: Prog, b: Expr, a: Access, env: Env, w: World)
    requires View(b) == Call(a.op, a.operands) && Atomic(a.operands)
    requires a.op in Dom(env) && !IsClosure(Lookup(env, a.op).value)
    ensures Eval(n, p, b, env, w, false) == if n == 0 then Res(Timeout, w) else Raise(w)
  {
    hide Eval, EvalArgs, View, Dom;
    LocalStep(n, p, b, env, w);
    AtomArgs(n, p, a.operands, env, w);
  }

  /** What a deferring primitive finds does not depend on its thunk. */
  lemma {:induction false} AttemptIgnores(op: Prim, us: seq<Value>, t: Value, z: World)
    requires Deferring(op) && |us| + 1 == Arity(op)
    ensures Attempt(op, us + [t], z) == Attempt(op, us + [VNil], z)
  {
  }

  /** The fallback through its thunk. */
  lemma {:induction false} ThunkAgrees(
    n: nat, p: Prog, q: RProg, b: Expr, env: Env, t: Value, st: Cg, w: World, z: World)
    requires Linked(p, q) && WRel(w, z) && t.VCode? && t.rparam == None
    requires CodeOf(b, None, env, t.code, t.locals, st)
    ensures Agree(Eval(n, p, b, env, w, false), ApplyCode(n, q, t, [], z))
  {
    hide Linked, CodeOf, WRel, RunE, Eval, EnvRel, CompileE, Rel;
    RunThunk(n, q, t, z);
    EnterBody(p, q, VLam(env, None, b), t, [], [], st);
    SimE(n, p, q, b, st, env, t.locals, w, z);
  }

  /** The fallback as both engines run it; without fuel neither does. */
  function Fallback(n: nat, p: Prog, e: Expr, a: Access, env: Env, w: World): Res
    requires View(e).Trap? && View(View(e).handler).Lambda?
  {
    if n == 0 then Res(Timeout, w) else Eval(n - 1, p, a.fallback, Caught(View(e).handler, env), w, false)
  }

  /**
   A rewritten trap whose operator is bound to something that is no closure: the evaluator answers the
   fallback, while the code looks for what the primitive of that name finds. They agree exactly when it
   finds nothing, or what the fallback answers anyway.
   */
  lemma {:induction false} LocalAccessExact(
    n: nat, p: Prog, q: RProg, e: Expr, a: Access, st: Cg, env: Env, locals: REnv, w: World, z: World)
    returns (us: seq<Value>)
    requires Linked(p, q) && Accessible(e, a, st, env, locals) && CompileE(e, st).Emitted? && WRel(w, z)
    requires a.op in Dom(env) && !IsClosure(Lookup(env, a.op).value)
    requires !Fallback(n, p, e, a, env, w).w.drift
    ensures RelAll(AtomValues(a, env), us) && |us| + 1 == Arity(OrPrim(a.op))
    ensures Eval(n, p, e, env, w, false).out == Fallback(n, p, e, a, env, w).out
    ensures var s := RunE(n, q, CompileE(e, st).code, locals, z);
            var fallback, found := Fallback(n, p, e, a, env, w), Attempt(OrPrim(a.op), us + [VNil], z);
            && (found.Some? ==> s == found.value)
            && (found.None? ==> Agree(fallback, s))
            && (OutRel(Eval(n, p, e, env, w, false).out, s.out) <==>
                  found.None? || OutRel(fallback.out, found.value.out))
  {
    hide Linked, EnvRel, WRel, RunE, CodeOf, Eval, CompileE, View, Attempt, Rel, Dom, ApplyCode, RelAll, AtomValues;
    var Trap(b, h) := View(e);
    ThunkReady(e, a, st, env, locals);
    TrapStep(n, p, e, env, w);
    BoundOperator(n, p, b, a, env, w);
    var t;
    us, t := RunAccess(n, p, q, e, a, st, env, locals, w, z);
    AttemptIgnores(OrPrim(a.op), us, t, z);
    if n > 0 {
      Passive.SameE(n - 1, p, a.fallback, Caught(h, env), Drifted(w), w, false, false);
      ThunkAgrees(n - 1, p, q, a.fallback, Caught(h, env), t, Inside(None, a.fallback, st), w, z);
    }
  }

  // ---- a clause that looks like a thaw ----

  /** `(let thaw true (let G (freeze 1) (cond (thaw G))))` */
  function FalseThaw(): Expr
  {
    App(Cons(Sym(K_LET), Cons(Sym(K_THAW), Cons(Bool(true), Cons(FreezesG(), Empty)))))
  }

  function FreezesG(): Expr
  {
    App(Cons(Sym(K_LET), Cons(Sym(G), Cons(One1(), Cons(PicksG(), Empty)))))
  }

  function PicksG(): Expr
  {
    App(Cons(Sym(K_COND), Cons(ClauseOfG(), Empty)))
  }

  function ClauseOfG(): Expr
  {
    App(Cons(Sym(K_THAW), Cons(Sym(G), Empty)))
  }

  lemma {:induction false} FalseThawViews()
    ensures View(FalseThaw()) == Let(K_THAW, Bool(true), FreezesG()) && View(FreezesG()) == Let(G, One1(), PicksG())
    ensures View(PicksG()) == Cond(Cons(ClauseOfG(), Empty)) && View(One1()) == Freeze(Int(1))
    ensures Inlines(G, One1(), PicksG()) && !Inlines(K_THAW, Bool(true), FreezesG())
  {
    var clauses := Cons(ClauseOfG(), Empty);
    assert OnlyThawed(G, ClauseOfG(), false);
    assert OnlyThawedIn(G, clauses, false) by { assert OnlyThawedIn(G, Empty, false); }
    assert OnlyThawedIn(G, PicksG().items, false) by { assert OnlyThawed(G, Sym(K_COND), false); }
    assert OnlyThawed(G, PicksG(), false);
  }

  lemma {:induction false} FalseThawValue(n: nat, p: Prog, w: World)
    ensures var env := Push(K_THAW, VBool(true), EmptyEnv);
            Eval(n, p, FalseThaw(), EmptyEnv, w, false) == Done(VLam(env, None, Int(1)), w)
  {
    hide Step;
    FalseThawViews();
    var env := Push(K_THAW, VBool(true), EmptyEnv);
    var v := VLam(env, None, Int(1));
    EvalAtom(n, p, Bool(true), EmptyEnv, w);
    FreezeStep(n, p, One1(), Int(1), env, w);
    PicksValue(n, p, Push(G, v, env), v, w);
    hide Eval, View;
    LetStep(n, p, FreezesG(), G, One1(), PicksG(), env, w);
    LetStep(n, p, FalseThaw(), K_THAW, Bool(true), FreezesG(), EmptyEnv, w);
  }

  lemma {:induction false} FreezeStep(n: nat, p: Prog, e: Expr, b: Expr, env: Env, w: World)
    requires View(e) == Freeze(b)
    ensures Eval(n, p, e, env, w, false) == Done(VLam(env, None, b), w)
  {
    hide EvalCond, EvalArgs, CallNamed, EvalDo;
    assert Eval(n, p, e, env, w, false) == Step(n, p, e, env, w, false);
  }

  lemma {:induction false} PicksValue(n: nat, p: Prog, env: Env, v: Value, w: World)
    requires Lookup(env, K_THAW) == Some(VBool(true)) && Lookup(env, G) == Some(v)
    ensures Eval(n, p, PicksG(), env, w, false) == Done(v, w)
  {
    hide EvalArgs, CallNamed, EvalDo, KlEval.Apply, Inlines, OnlyThawed;
    assert View(PicksG()) == Cond(Cons(ClauseOfG(), Empty));
    PickedClause(n, p, env, v, w);
    assert Eval(n, p, PicksG(), env, w, false) == Step(n, p, PicksG(), env, w, false)
        == EvalCond(n, p, Cons(ClauseOfG(), Empty), env, w, false);
  }

  lemma {:induction false} PickedClause(n: nat, p: Prog, env: Env, v: Value, w: World)
    requires Lookup(env, K_THAW) == Some(VBool(true)) && Lookup(env, G) == Some(v)
    ensures EvalCond(n, p, Cons(ClauseOfG(), Empty), env, w, false) == Done(v, w)
  {
    hide Step;
    EvalAtom(n, p, Sym(K_THAW), env, w);
    EvalAtom(n, p, Sym(G), env, w);
  }

  function FalseThawCode(k: nat): R.RExpr
  {
    R.Block(One(R.V(K_THAW), R.Lit(Bool(true))), R.LetProc(R.T(k), R.Lit(Int(1)), PicksGCode(k + 1)))
  }

  function PicksGCode(k: nat): R.RExpr
  {
    R.Block(One(R.T(k), R.Read(R.V(K_THAW))), R.IfTrue(R.T(k), R.Read(R.V(G)), R.Fail))
  }

  lemma {:induction false} PicksGEmitted(st: Cg)
    requires K_THAW in st.scope && G in st.scope
    ensures CompileE(PicksG(), st) == Emitted(PicksGCode(st.counter), st.Next())
  {
    hide CompileTry, CompileHead, BindArgs, CompileDo, CompileClosure;
    assert View(PicksG()) == Cond(Cons(ClauseOfG(), Empty));
    assert CompileCond(Empty, st) == Emitted(R.Fail, st);
    assert CompileE(Sym(K_THAW), st) == Emitted(R.Read(R.V(K_THAW)), st);
    assert CompileE(Sym(G), st) == Emitted(R.Read(R.V(G)), st);
    assert CompileCond(Cons(ClauseOfG(), Empty), st) == Emitted(PicksGCode(st.counter), st.Next());
    assert CompileE(PicksG(), st) == CompileApp(PicksG(), st);
  }

  lemma {:induction false} LitCode(e: Expr, st: Cg)
    requires !e.App? && !e.Sym?
    ensures CompileE(e, st) == Emitted(R.Lit(e), st)
  {
  }

  lemma {:induction false} FreezesGEmitted(st: Cg)
    requires K_THAW in st.scope
    ensures var code := R.LetProc(st.Fresh(), R.Lit(Int(1)), PicksGCode(st.counter + 1));
            CompileE(FreezesG(), st).Emitted? && CompileE(FreezesG(), st).code == code
  {
    hide CompileE, View, Inlines, FreezesG, PicksG, One1, PicksGCode;
    FalseThawViews();
    LitCode(Int(1), st);
    PicksGEmitted(EnterProc(st, G));
    ProcCode(FreezesG(), G, One1(), PicksG(), st);
  }

  lemma {:induction false} FalseThawEmitted(st: Cg)
    ensures CompileE(FalseThaw(), st).Emitted? && CompileE(FalseThaw(), st).code == FalseThawCode(st.counter)
  {
    hide CompileE, View, Inlines, FalseThaw, FreezesG, PicksG, PicksGCode;
    FalseThawViews();
    LitCode(Bool(true), st);
    FreezesGEmitted(st.Bind(K_THAW));
    LetCode(FalseThaw(), K_THAW, Bool(true), FreezesG(), st);
  }

  lemma {:induction false} FalseThawRuns(n: nat, q: RProg, k: nat, w: World)
    ensures RunE(n, q, FalseThawCode(k), EmptyREnv, w) == IllFormed(w)
  {
    hide RunE;
    var locals := RPush(R.V(K_THAW), Val(VBool(true)), EmptyREnv);
    var locals1 := RPush(R.T(k), Proc(R.Lit(Int(1)), locals), locals);
    var locals2 := RPush(R.T(k + 1), Val(VBool(true)), locals1);
    RunLit(n, q, Bool(true), EmptyREnv, w);
    RunLet(n, q, R.V(K_THAW), R.Lit(Bool(true)), R.LetProc(R.T(k), R.Lit(Int(1)), PicksGCode(k + 1)), EmptyREnv, w);
    RunProc(n, q, R.T(k), R.Lit(Int(1)), PicksGCode(k + 1), locals, w);
    assert Get(locals, R.V(K_THAW)) == Some(Val(VBool(true)));
    assert GetVal(locals1, R.V(K_THAW)) == Some(VBool(true));
    RunRead(n, q, R.V(K_THAW), locals1, w);
    RunLet(n, q, R.T(k + 1), R.Read(R.V(K_THAW)), R.IfTrue(R.T(k + 1), R.Read(R.V(G)), R.Fail), locals1, w);
    RunIf(n, q, R.T(k + 1), VBool(true), R.Read(R.V(G)), R.Fail, locals1, w);
    assert Get(EmptyREnv, R.V(G)) == None && Get(locals, R.V(G)) == None && Get(locals1, R.V(G)) == None;
    assert Get(locals2, R.V(G)) == None;
    RunRead(n, q, R.V(G), locals2, w);
  }

  /** The clause's action reads a local of the continuation's name, and there is none. */
  lemma {:induction false} FalseThawBreaks(n: nat, p: Prog, q: RProg, st: Cg, w: World)
    ensures Eval(n, p, FalseThaw(), EmptyEnv, w, false)
         == Done(VLam(Push(K_THAW, VBool(true), EmptyEnv), None, Int(1)), w)
    ensures CompileE(FalseThaw(), st).Emitted?
    ensures RunE(n, q, CompileE(FalseThaw(), st).code, EmptyREnv, w) == IllFormed(w)
  {
    hide *;
    FalseThawValue(n, p, w);
    FalseThawEmitted(st);
    FalseThawRuns(n, q, st.counter, w);
  }

  /** `(thaw g)` as a clause: `thaw` is its test and `g` its action. */
  function ThawClause(g: SymId): Expr
  {
    App(Cons(Sym(K_THAW), Cons(Sym(g), Empty)))
  }

  /** What the code of a name reads. */
  function ReadAs(x: SymId, flat: set<SymId>, locals: REnv): Option<Value>
  {
    if x in flat then GetVal(locals, R.V(x)) else Some(VSym(x))
  }

  lemma {:induction false} NameCode(n: nat, q: RProg, x: SymId, st: Cg, locals: REnv, z: World)
    ensures CompileE(Sym(x), st).Emitted? && CompileE(Sym(x), st).st == st
    ensures RunE(n, q, CompileE(Sym(x), st).code, locals, z) ==
            match ReadAs(x, st.scope, locals) case Some(u) => Done(u, z) case None => IllFormed(z)
  {
    hide RunNode;
  }

  /** The code of such a clause: the test, then the name's local, then the other clauses. */
  lemma {:induction false} ClauseRuns(
    n: nat, q: RProg, g: SymId, rest: List<Expr>, st: Cg, locals: REnv, z: World) returns (tv: R.RVar)
    requires CompileCond(Cons(ThawClause(g), rest), st).Emitted?
    ensures CompileCond(rest, st).Emitted? && tv == CompileCond(rest, st).st.Fresh()
    ensures var others := CompileCond(rest, st);
            var s := RunE(n, q, CompileCond(Cons(ThawClause(g), rest), st).code, locals, z);
            match ReadAs(K_THAW, others.st.scope, locals)
            case None => s == IllFormed(z)
            case Some(u) =>
              match TruthOf(u)
              case None => s == Raise(z)
              case Some(true) =>
                s == (match ReadAs(g, others.st.scope, locals) case Some(v) => Done(v, z) case None => IllFormed(z))
              case Some(false) => s == RunE(n, q, others.code, RPush(tv, Val(u), locals), z)
  {
    hide RunE, CompileE;
    var others := CompileCond(rest, st);
    tv := others.st.Fresh();
    var test, action := CompileE(Sym(K_THAW), others.st), CompileE(Sym(g), others.st);
    NameCode(n, q, K_THAW, others.st, locals, z);
    RunLet(n, q, tv, test.code, R.IfTrue(tv, action.code, others.code), locals, z);
    match ReadAs(K_THAW, others.st.scope, locals)
    case Some(u) =>
      NameCode(n, q, g, others.st, RPush(tv, Val(u), locals), z);
      RunIf(n, q, tv, u, action.code, others.code, locals, z);
    case None => NameCode(n, q, g, others.st, locals, z);
  }

  /** The clause in the evaluator. */
  lemma {:induction false} ClauseValue(n: nat, p: Prog, g: SymId, rest: List<Expr>, env: Env, w: World)
    ensures EvalCond(n, p, Cons(ThawClause(g), rest), env, w, false) ==
            match TruthOf(AtomValue(Sym(K_THAW), env))
            case None => Raise(w)
            case Some(b) => if b then Done(AtomValue(Sym(g), env), w) else EvalCond(n, p, rest, env, w, false)
  {
    hide Step;
    EvalAtom(n, p, Sym(K_THAW), env, w);
    EvalAtom(n, p, Sym(g), env, w);
  }

  /** A clause `(thaw g)` where `g` is an inlined continuation; the clauses after it are compiled right. */
  ghost predicate FalseThawFit(
    p: Prog, q: RProg, g: SymId, rest: List<Expr>, st: Cg, env: Env, locals: REnv, w: World, z: World)
  {
    var cs := Cons(ThawClause(g), rest);
    && Linked(p, q) && WRel(w, z) && g in st.thaws && CompileCond(cs, st).Emitted?
    && SafeIn(cs, st.thaws.Keys) && Sound(NamesOf(cs), st, env, locals)
    && WfClauses(rest, Dom(env), st.scope, st.thaws.Keys)
  }

  /** What the others know of such a clause. */
  lemma {:induction false} FalseThawParts(
    p: Prog, q: RProg, g: SymId, rest: List<Expr>, st: Cg, env: Env, locals: REnv, w: World, z: World)
    requires FalseThawFit(p, q, g, rest, st, env, locals, w, z)
    ensures CompileCond(rest, st).Emitted? && ReadyClauses(rest, st, env, locals)
    ensures CompileCond(rest, st).st.scope == FlowClauses(rest, st.scope) && Steady(st, CompileCond(rest, st).st)
    ensures Lookup(env, g).Some? && Lookup(env, g).value.VLam?
    ensures g != K_THAW ==> K_THAW !in st.thaws && Sound({K_THAW}, st, env, locals)
  {
    hide Linked, WRel, EnvRel, CodeOf, Rel, FlowClauses;
    var cs := Cons(ThawClause(g), rest);
    ClauseParts(Sym(K_THAW), Sym(g), rest, st.thaws.Keys);
    SteadyCond(rest, st);
    assert g in Names(ThawClause(g)) && K_THAW in Names(ThawClause(g)) by { ClauseNames(g); }
    var body := Inlined(NamesOf(cs), st, env, locals, g);
    SoundLess(NamesOf(cs), NamesOf(rest), st, st, env, locals);
    SoundLess(NamesOf(cs), {K_THAW}, st, st, env, locals);
    if g != K_THAW && K_THAW in st.thaws { NotThawed(g, rest); }
  }

  lemma {:induction false} ClauseNames(g: SymId)
    ensures Names(ThawClause(g)) == {K_THAW, g}
  {
    var items := Cons(Sym(K_THAW), Cons(Sym(g), Empty));
    assert NamesOf(Cons(Sym(g), Empty)) == Names(Sym(g)) + NamesOf(Empty) == {g};
    assert NamesOf(items) == Names(Sym(K_THAW)) + {g};
  }

  lemma {:induction false} NotThawed(g: SymId, rest: List<Expr>)
    requires g != K_THAW
    ensures !OnlyThawedIn(K_THAW, Cons(ThawClause(g), rest), false)
  {
    var items := Cons(Sym(K_THAW), Cons(Sym(g), Empty));
    assert !OnlyThawed(K_THAW, Sym(K_THAW), false) && items.head == Sym(K_THAW);
    assert !OnlyThawedIn(K_THAW, items, false);
    assert !OnlyThawed(K_THAW, ThawClause(g), false);
  }

  /**
   The test of such a clause is compiled right. Unless it is true the engines agree. If it is true the
   evaluator answers the continuation, and the code reads a local of that name, which is not the
   procedure: they agree exactly if there is one from further out that holds a related value.
   */
  lemma {:induction false} FalseThawExact(
    n: nat, p: Prog, q: RProg, g: SymId, rest: List<Expr>, st: Cg, env: Env, locals: REnv, w: World, z: World)
    requires FalseThawFit(p, q, g, rest, st, env, locals, w, z) && g != K_THAW
    requires Agrees(K_THAW, Dom(env), FlowClauses(rest, st.scope))
    ensures Lookup(env, g).Some? && Lookup(env, g).value.VLam?
    ensures var cs := Cons(ThawClause(g), rest);
            var r, s := EvalCond(n, p, cs, env, w, false), RunE(n, q, CompileCond(cs, st).code, locals, z);
            var v, outer := Lookup(env, g).value, ReadAs(g, FlowClauses(rest, st.scope), locals);
            if TruthOf(AtomValue(Sym(K_THAW), env)) != Some(true) then Agree(r, s)
            else && r == Done(v, w)
                 && (outer.None? ==> s == IllFormed(z))
                 && (OutRel(r.out, s.out) <==> outer.Some? && Rel(v, outer.value))
  {
    hide Linked, WRel, EnvRel, CodeOf, RunE, EvalCond, Eval, CompileE, FlowClauses, CompileCond, Dom;
    FalseThawParts(p, q, g, rest, st, env, locals, w, z);
    var others := CompileCond(rest, st);
    var tv := ClauseRuns(n, q, g, rest, st, locals, z);
    ClauseValue(n, p, g, rest, env, w);
    SoundLess({K_THAW}, {K_THAW}, st, others.st, env, locals);
    TestRead(others.st, env, locals);
    var u := ReadAs(K_THAW, others.st.scope, locals).value;
    SameTruth(AtomValue(Sym(K_THAW), env), u);
    if TruthOf(u) == Some(false) {
      SoundTemp(NamesOf(rest), st, env, locals, tv, Val(u));
      SimCond(n, p, q, rest, st, env, RPush(tv, Val(u), locals), w, z);
    }
  }

  lemma {:induction false} TestRead(st: Cg, env: Env, locals: REnv)
    requires Sound({K_THAW}, st, env, locals) && K_THAW !in st.thaws && Agrees(K_THAW, Dom(env), st.scope)
    ensures ReadAs(K_THAW, st.scope, locals).Some?
    ensures Rel(AtomValue(Sym(K_THAW), env), ReadAs(K_THAW, st.scope, locals).value)
  {
    hide Rel;
    QuoteRel(Sym(K_THAW));
    if K_THAW in st.scope { LocalHead({K_THAW}, st, env, locals, K_THAW); }
  }

  /**
   The clause `(thaw thaw)` where `thaw` itself is the continuation: its test is no boolean. The code
   tests a local of that name, and agrees exactly if there is one from further out that is no boolean
   either, or is false while the other clauses raise a runtime error.
   */
  lemma {:induction false} ThawThawExact(
    n: nat, p: Prog, q: RProg, rest: List<Expr>, st: Cg, env: Env, locals: REnv, w: World, z: World)
    requires FalseThawFit(p, q, K_THAW, rest, st, env, locals, w, z)
    ensures var cs := Cons(ThawClause(K_THAW), rest);
            var r, s := EvalCond(n, p, cs, env, w, false), RunE(n, q, CompileCond(cs, st).code, locals, z);
            var others, outer := CompileCond(rest, st), ReadAs(K_THAW, FlowClauses(rest, st.scope), locals);
            && r == Raise(w) && others.Emitted?
            && (outer.None? ==> s == IllFormed(z))
            && (OutRel(r.out, s.out) <==>
                  outer.Some? &&
                  match TruthOf(outer.value)
                  case None => true
                  case Some(true) => false
                  case Some(false) =>
                    RunE(n, q, others.code, RPush(others.st.Fresh(), Val(outer.value), locals), z).out == Err(Runtime))
  {
    hide Linked, WRel, EnvRel, CodeOf, RunE, EvalCond, Eval, CompileE, FlowClauses, CompileCond, Dom;
    FalseThawParts(p, q, K_THAW, rest, st, env, locals, w, z);
    var tv := ClauseRuns(n, q, K_THAW, rest, st, locals, z);
    ClauseValue(n, p, K_THAW, rest, env, w);
  }
}
