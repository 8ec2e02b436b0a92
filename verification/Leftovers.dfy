/** What a rejected definition leaves in the generator's table of continuations, and what comes of it. */
module Leftovers {
  import opened Lists
  import opened Kl
  import opened Machine
  import R = RustIr
  import opened KlEval
  import opened RustRun
  import opened Codegen
  import opened CodegenState
  import opened Acceptance
  import opened Driver
  import opened Simulation
  import opened SimSteps
  import opened TailSteps
  import opened Linking

  /** The generator's state after a definition, taken or not. */
  ghost function After(r: Emit<R.RStmt>): Cg
  {
    if r.Emitted? then r.st else r.at
  }

  /**
   A definition leaves an entry for the next one exactly when it is rejected inside the body of a
   `let` whose value is an inlined continuation; the entries are those of the `let`s around it.
   */
  lemma {:induction false} LeavesEntry(t: Top, st: Cg)
    requires st.thaws == map[]
    ensures var left := After(CompileTail(t.body, Entering(t, st))).thaws;
            && (left != map[] <==> Outcome(t).Stops? && Outcome(t).around != {})
            && left.Keys == if Outcome(t).Stops? then Outcome(t).around else {}
  {
    TopFollows(t, st);
    var left := After(CompileTail(t.body, Entering(t, st))).thaws;
    assert left == map[] <==> left.Keys == {};
  }

  const X: SymId := 100
  const F: SymId := 103
  const G: SymId := 104

  /** `(let X (freeze 1) (if))` */
  function LetThenBad(): Expr
  {
    App(Cons(Sym(K_LET), Cons(Sym(X), Cons(One1(), Cons(NoIf(), Empty)))))
  }

  function One1(): Expr
  {
    App(Cons(Sym(K_FREEZE), Cons(Int(1), Empty)))
  }

  function NoIf(): Expr
  {
    App(Cons(Sym(K_IF), Empty))
  }

  /** `(thaw X)` */
  function ThawX(): Expr
  {
    App(Cons(Sym(K_THAW), Cons(Sym(X), Empty)))
  }

  /** `(defun g () (let X (freeze 1) (if)))`, then `(defun f (X) (thaw X))` */
  function TwoDefuns(): seq<Expr>
  {
    [Defun(G, Nil, LetThenBad()), Defun(F, App(Cons(Sym(X), Empty)), ThawX())]
  }

  lemma {:induction false} GIsRejected(st: Cg)
    requires st.scope == {} && st.thaws == map[] && st.self == Some(G) && st.params == []
    ensures CompileTail(LetThenBad(), st) == Rejected(EnterProc(st, X))
  {
    hide CompileCond, CompileDo, CompileClosure, CompileTry, CompileHead, BindArgs, CompileTailCond, CompileTailDo;
    var e := LetThenBad();
    assert View(e) == Let(X, One1(), NoIf()) && View(One1()) == Freeze(Int(1)) && View(NoIf()) == Bad;
    assert OnlyThawedIn(X, NoIf().items, false) by { assert OnlyThawedIn(X, Empty, false); }
    assert OnlyThawed(X, NoIf(), false);
    assert Inlines(X, One1(), NoIf());
    var s1 := EnterProc(st, X);
    assert CompileE(Int(1), st) == Emitted(R.Lit(Int(1)), st);
    assert CompileE(NoIf(), s1) == CompileApp(NoIf(), s1) == Rejected(s1);
    assert !SelfCall(NoIf(), s1);
    assert CompileTail(NoIf(), s1) == CompileTailApp(NoIf(), s1) == CompileBreak(NoIf(), s1) == Rejected(s1);
    assert CompileTail(e, st) == CompileTailApp(e, st);
  }

  lemma {:induction false} FIsEmitted(st: Cg)
    requires X in st.thaws && st.self == Some(F)
    ensures CompileTail(ThawX(), st) == Emitted(R.Break(R.Go(st.thaws[X])), st)
  {
    hide CompileCond, CompileDo, CompileClosure, CompileTry, CompileHead, BindArgs, CompileTailCond, CompileTailDo;
    var e := ThawX();
    assert View(e) == Thaw(Sym(X)) && !SelfCall(e, st);
    assert CompileE(e, st) == CompileApp(e, st) == Emitted(R.Go(st.thaws[X]), st);
    assert CompileTail(e, st) == CompileTailApp(e, st) == CompileBreak(e, st);
  }

  /** The second definition calls a procedure that is not there, whatever it is given. */
  lemma {:induction false} StaleContinuation(n: nat, p: Prog, q: RProg, v: Value, w: World)
    ensures var fns := CompileForms(TwoDefuns(), 0, SkipPolicy({}, None), Start());
            && |fns| == 1 && fns[0].name == F && fns[0].params == [X]
            && RunLoop(n, q, fns[0], RFrame([X], [v]), w) == IllFormed(w)
  {
    hide CompileTail, RunLoop, RunS;
    var forms, skip := TwoDefuns(), SkipPolicy({}, None);
    assert TopOf(forms[0]) == Some(Top(G, [], LetThenBad()));
    assert Symbols(Empty) == Some([]) && [X] + [] == [X];
    assert Symbols(Cons(Sym(X), Empty)) == Some([X]);
    assert TopOf(forms[1]) == Some(Top(F, [X], ThawX()));
    assert Wanted(forms, 0, skip) && Wanted(forms, 1, skip);
    var s0 := Entering(TopOf(forms[0]).value, Start());
    GIsRejected(s0);
    var at := Between(EnterProc(s0, X));
    assert CompileTop(forms[0], Start()) == Rejected(at);
    var s1 := Entering(TopOf(forms[1]).value, at);
    FIsEmitted(s1);
    var fn := R.RFn(F, [X], R.Break(R.Go(R.T(0))));
    assert CompileTop(forms[1], at) == Emitted(fn, Between(s1));
    assert CompileForms(forms, 2, skip, Between(s1)) == [];
    assert CompileForms(forms, 1, skip, at) == [fn] + [];
    assert CompileForms(forms, 0, skip, Start()) == CompileForms(forms, 1, skip, at);
    RunsNothing(n, q, fn, v, w);
  }

  lemma {:induction false} RunsNothing(n: nat, q: RProg, fn: R.RFn, v: Value, w: World)
    requires fn == R.RFn(F, [X], R.Break(R.Go(R.T(0))))
    ensures RunLoop(n, q, fn, RFrame([X], [v]), w) == IllFormed(w)
  {
    hide RunE;
    var locals := RFrame([X], [v]);
    assert [X][..0] == [] && [v][..0] == [] && RFrame([], []) == EmptyREnv;
    assert locals == RPush(R.V(X), Val(v), EmptyREnv);
    RunGo(n, q, R.T(0), locals, w);
    RunSBreak(n, q, R.Go(R.T(0)), locals, w);
  }

  /** While the evaluator's definition thaws its argument. */
  lemma {:induction false} ThawsArgument(n: nat, p: Prog, w: World)
    requires n > 0
    ensures Eval(n, p, ThawX(), Frame([X], [VLam(EmptyEnv, None, Int(1))]), w, true) == Done(VInt(1), w)
  {
    hide EvalCond, EvalDo, EvalArgs, CallNamed;
    var v := VLam(EmptyEnv, None, Int(1));
    var env := Frame([X], [v]);
    assert [X][..0] == [] && [v][..0] == [] && Frame([], []) == EmptyEnv;
    assert env == Push(X, v, EmptyEnv);
    assert View(ThawX()) == Thaw(Sym(X));
    EvalAtom(n, p, Sym(X), env, w);
    assert Lookup(env, X) == Some(v);
    ApplyLam(n - 1, p, EmptyEnv, None, Int(1), [], w);
    EvalAtom(n - 1, p, Int(1), EmptyEnv, w);
    assert Eval(n, p, ThawX(), env, w, true) == Step(n, p, ThawX(), env, w, true);
  }

  /** The verdict on the first of the two says so beforehand. */
  lemma {:induction false} VerdictOfG()
    ensures Outcome(Top(G, [], LetThenBad())) == Stops({X})
    ensures !WfForm(TwoDefuns(), 0, SkipPolicy({}, None))
  {
    hide Flow, WfDef;
    var flat := ParamsOf(DefOf(Top(G, [], LetThenBad())));
    assert View(LetThenBad()) == Let(X, One1(), NoIf()) && View(One1()) == Freeze(Int(1)) && View(NoIf()) == Bad;
    assert OnlyThawedIn(X, NoIf().items, false) by { assert OnlyThawedIn(X, Empty, false); }
    assert Inlines(X, One1(), NoIf());
    assert Judge(Int(1), flat, None, 0) == Compiles;
    assert Judge(NoIf(), Flow(Int(1), flat) + {X}, Some(G), 0) == Stops({});
    assert {} + {X} == {X};
    assert TopOf(TwoDefuns()[0]) == Some(Top(G, [], LetThenBad()));
    assert DefunName(TwoDefuns()[1]) == Some(F);
  }
}
