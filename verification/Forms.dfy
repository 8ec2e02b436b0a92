/** How forms are written and recognised, which are compiled at all, and which get code of their own. */
module Forms {
  import opened Lists
  import opened Kl
  import opened Machine
  import opened R = RustIr
  import opened KlEval
  import opened Codegen
  import opened CodegenState
  import opened Acceptance

  // ---- writing forms ----

  function List1(a: Expr): List<Expr> { Cons(a, Empty) }

  function List2(a: Expr, b: Expr): List<Expr> { Cons(a, List1(b)) }

  function List3(a: Expr, b: Expr, c: Expr): List<Expr> { Cons(a, List2(b, c)) }

  function Headed(h: SymId, args: List<Expr>): Expr { App(Cons(Sym(h), args)) }

  const SPECIAL: set<SymId> :=
    {K_IF, K_LET, K_COND, K_DO, K_AND, K_OR, K_LAMBDA, K_FREEZE, K_THAW, K_TRAP_ERROR, K_QUOTE, K_TYPE, K_DEFUN}

  /** The syntax of each form; a type annotation is written with an empty type. */
  function Write(form: Form): Expr
  {
    match form
    case Const(l) => Headed(K_QUOTE, List1(l))
    case Var(x) => Sym(x)
    case If(c, t, f) => Headed(K_IF, List3(c, t, f))
    case Let(x, v, b) => Headed(K_LET, List3(Sym(x), v, b))
    case Cond(cs) => Headed(K_COND, cs)
    case Do(es) => Headed(K_DO, es)
    case And(a, b) => Headed(K_AND, List2(a, b))
    case Or(a, b) => Headed(K_OR, List2(a, b))
    case Lambda(x, b) => Headed(K_LAMBDA, List2(Sym(x), b))
    case Freeze(b) => Headed(K_FREEZE, List1(b))
    case Thaw(a) => Headed(K_THAW, List1(a))
    case Trap(b, h) => Headed(K_TRAP_ERROR, List2(b, h))
    case Typed(a) => Headed(K_TYPE, List2(a, Nil))
    case Call(h, args) => Headed(h, args)
    case Apply(f, args) => App(Cons(f, args))
    case Define(args) => Headed(K_DEFUN, args)
    case Bad => Headed(K_IF, Empty)
  }

  /** A call's head is no special form, and the head of an application no name. */
  predicate Sensible(form: Form)
  {
    && (form.Call? ==> form.head !in SPECIAL)
    && (form.Apply? ==> !form.fn.Sym?)
  }

  /** Each form is recognised as itself. */
  lemma {:induction false} ViewWritten(form: Form)
    requires Sensible(form)
    ensures View(Write(form)) == form
  {
  }

  /** Constants: atoms but names, the empty application, and what is quoted. */
  predicate IsConst(e: Expr, l: Expr)
  {
    (!e.App? && !e.Sym? && l == e) || (e == App(Empty) && l == Nil) || e == Headed(K_QUOTE, List1(l))
  }

  /** And nothing else is recognised as a form. */
  lemma {:induction false} WriteViewed(e: Expr)
    ensures var form := View(e);
            && Sensible(form)
            && (form.Const? ==> IsConst(e, form.lit))
            && (form.Typed? ==> exists rest :: e == Headed(K_TYPE, Cons(form.arg, rest)))
            && (!form.Const? && !form.Typed? && !form.Bad? ==> Write(form) == e)
  {
    if View(e).Typed? { assert e == Headed(K_TYPE, Cons(View(e).arg, e.items.tail.tail)); }
    if e.App? && e.items.Cons? && e.items.head.Sym? { SpecialWritten(e.items.head.id, e.items.tail); }
  }

  lemma {:induction false} SpecialWritten(h: SymId, args: List<Expr>)
    ensures var form := Special(h, args);
            !form.Const? && !form.Typed? && !form.Bad? ==> Write(form) == Headed(h, args)
  {
    if h == K_IF || h == K_LET {
      assert args.Cons? && args.tail.Cons? && args.tail.tail.Cons? ==>
               (args.tail.tail.tail.Empty? <==> args == List3(args.head, args.tail.head, args.tail.tail.head));
    }
  }

  lemma {:induction false} BadHead(h: SymId, args: List<Expr>)
    requires Special(h, args).Bad?
    ensures h in SPECIAL
  {
    assert h in {K_IF, K_LET, K_AND, K_OR, K_LAMBDA, K_FREEZE, K_THAW, K_TRAP_ERROR, K_QUOTE, K_TYPE};
  }

  /** A special form that fits none of the shapes is recognised as bad, and only such. */
  lemma {:induction false} BadIff(e: Expr, form: Form)
    ensures View(e).Bad? ==> e.App? && e.items.Cons? && e.items.head.Sym? && e.items.head.id in SPECIAL
    ensures View(e).Bad? && Sensible(form) && !form.Bad? ==> Write(form) != e
  {
    if View(e).Bad? {
      BadHead(e.items.head.id, e.items.tail);
      if Sensible(form) && !form.Bad? { ViewWritten(form); }
    }
  }

  /** A type annotation means nothing to either engine. */
  lemma {:induction false} TypesVanish(n: nat, p: Prog, a: Expr, t: Expr, env: Env, w: World, tail: bool, st: Cg)
    ensures Eval(n, p, Headed(K_TYPE, List2(a, t)), env, w, tail) == Eval(n, p, a, env, w, tail)
    ensures CompileE(Headed(K_TYPE, List2(a, t)), st) == CompileE(a, st)
    ensures CompileTail(Headed(K_TYPE, List2(a, t)), st) == CompileTail(a, st)
  {
    hide EvalArgs, EvalCond, EvalDo, KlEval.CallNamed, BindArgs, CompileCond, CompileDo, CompileClosure, CompileTry;
    var e := Headed(K_TYPE, List2(a, t));
    assert View(e) == Typed(a);
    assert Eval(n, p, e, env, w, tail) == Step(n, p, e, env, w, tail);
    assert CompileE(e, st) == CompileApp(e, st) && CompileTail(e, st) == CompileTailApp(e, st);
  }

  // ---- what is compiled at all ----

  /** Every form in it fits a shape, and every clause is a pair. */
  predicate Grammatical(e: Expr)
    decreases e
  {
    match View(e)
    case If(c, t, f) => Grammatical(c) && Grammatical(t) && Grammatical(f)
    case Let(_, v, b) => Grammatical(v) && Grammatical(b)
    case Cond(cs) => GrammaticalClauses(cs)
    case Do(es) => GrammaticalAll(es)
    case And(a, b) => Grammatical(a) && Grammatical(b)
    case Or(a, b) => Grammatical(a) && Grammatical(b)
    case Lambda(_, b) => Grammatical(b)
    case Freeze(b) => Grammatical(b)
    case Thaw(a) => Grammatical(a)
    case Trap(b, h) => Grammatical(b) && Grammatical(h)
    case Typed(a) => Grammatical(a)
    case Call(_, args) => GrammaticalAll(args)
    case Apply(f, args) => Grammatical(f) && GrammaticalAll(args)
    case Define(args) => GrammaticalAll(args)
    case Bad => false
    case _ => true
  }

  predicate GrammaticalAll(es: List<Expr>)
    decreases es
  {
    es.Cons? ==> Grammatical(es.head) && GrammaticalAll(es.tail)
  }

  predicate GrammaticalClauses(cs: List<Expr>)
    decreases cs
  {
    match cs
    case Empty => true
    case Cons(App(Cons(t, Cons(v, Empty))), rest) => Grammatical(t) && Grammatical(v) && GrammaticalClauses(rest)
    case _ => false
  }

  /** The names whose calls have a lowering of their own in Prolog code. */
  const PROLOG: set<SymId> := {K_WHEN, K_CUT, K_BIND, K_BIND_BANG}

  /** Away from those names an expression is compiled exactly if it is grammatical, whatever is in scope. */
  lemma {:induction false} CompilesIff(e: Expr, flat: set<SymId>)
    requires Names(e) !! PROLOG
    ensures Judge(e, flat, None, 0).Compiles? <==> Grammatical(e)
    decreases e, 1
  {
    PartNames(e);
    match View(e)
    case If(c, t, f) =>
      CompilesIff(c, flat);
      CompilesIff(t, Flow(c, flat));
      CompilesIff(f, TailFlow(t, Flow(c, flat), None, 0));
    case Let(x, v, b) =>
      if Inlines(x, v, b) {
        PartNames(v);
        CompilesIff(View(v).body, flat);
        CompilesIff(b, Flow(View(v).body, flat) + {x});
      } else {
        CompilesIff(v, flat);
        CompilesIff(b, Flow(v, flat) + {x});
      }
    case Cond(cs) => ClausesCompileIff(cs, flat);
    case Do(es) => LastCompilesIff(es, flat);
    case And(a, b) => CompilesIff(a, flat); CompilesIff(b, Flow(a, flat));
    case Or(a, b) => CompilesIff(a, flat); CompilesIff(b, Flow(a, flat));
    case Lambda(x, b) => CompilesIff(b, Captures(b, flat) + {x});
    case Freeze(b) => CompilesIff(b, Captures(b, flat));
    case Thaw(a) => CompilesIff(a, flat);
    case Trap(_, _) => TrapCompilesIff(e, flat);
    case Typed(a) => CompilesIff(a, flat);
    case Call(_, args) => AllCompileIff(args, flat);
    case Define(args) => AllCompileIff(args, flat);
    case Apply(f, args) => CompilesIff(f, flat); AllCompileIff(args, Flow(f, flat));
    case _ =>
  }

  lemma {:induction false} TrapCompilesIff(e: Expr, flat: set<SymId>)
    requires View(e).Trap? && Names(e) !! PROLOG
    ensures Judge(e, flat, None, 0).Compiles? <==> Grammatical(e)
    decreases e, 0
  {
    hide Judge, Grammatical, Flow, TrappedAccess, Captures;
    PartNames(e);
    var Trap(b, h) := View(e);
    TrapJudged(e, flat);
    CompilesIff(b, flat);
    CompilesIff(h, Flow(b, flat));
    var a := TrappedAccess(b, h);
    if a.Some? {
      AccessGrammatical(b, h, a.value);
      CompilesIff(a.value.fallback, Captures(a.value.fallback, flat));
    }
  }

  lemma {:induction false} TrapJudged(e: Expr, flat: set<SymId>)
    requires View(e).Trap?
    ensures var Trap(b, h) := View(e);
            && (Grammatical(e) <==> Grammatical(b) && Grammatical(h))
            && Judge(e, flat, None, 0) ==
               match TrappedAccess(b, h)
               case None => Judge(b, flat, None, 0).Then(Judge(h, Flow(b, flat), None, 0))
               case Some(a) =>
                 Judge(a.fallback, Captures(a.fallback, flat), None, 0)
                 .Then(if Fits(a) then Compiles
                       else Judge(b, flat, None, 0).Then(Judge(h, Flow(b, flat), None, 0)))
  {
    hide TrappedAccess, Flow, Captures, Inlines;
  }

  /** The body of a rewritten trap is grammatical as it is, and the handler is if the fallback is. */
  lemma {:induction false} AccessGrammatical(b: Expr, h: Expr, a: Access)
    requires TrappedAccess(b, h) == Some(a)
    ensures Grammatical(b) && (Grammatical(h) <==> Grammatical(a.fallback)) && Names(a.fallback) <= Names(h)
  {
    PartNames(h);
    assert View(b) == Call(a.op, a.operands);
    AtomsAreGrammatical(a.operands);
  }

  lemma {:induction false} AtomsAreGrammatical(es: List<Expr>)
    requires Atomic(es)
    ensures GrammaticalAll(es)
    decreases es
  {
    if es.Cons? { AtomsAreGrammatical(es.tail); }
  }

  lemma {:induction false} AllCompileIff(es: List<Expr>, flat: set<SymId>)
    requires NamesOf(es) !! PROLOG
    ensures JudgeAll(es, flat).Compiles? <==> GrammaticalAll(es)
    decreases es
  {
    if es.Cons? {
      CompilesIff(es.head, flat);
      AllCompileIff(es.tail, Flow(es.head, flat));
    }
  }

  lemma {:induction false} LastCompilesIff(es: List<Expr>, flat: set<SymId>)
    requires NamesOf(es) !! PROLOG
    ensures JudgeLast(es, flat, None, 0).Compiles? <==> GrammaticalAll(es)
    decreases es
  {
    if es.Cons? {
      CompilesIff(es.head, flat);
      if es.tail.Cons? { LastCompilesIff(es.tail, Flow(es.head, flat)); }
    }
  }

  lemma {:induction false} ClausesCompileIff(cs: List<Expr>, flat: set<SymId>)
    requires NamesOf(cs) !! PROLOG
    ensures JudgeClauses(cs, flat, None, 0).Compiles? <==> GrammaticalClauses(cs)
    decreases cs
  {
    if cs.Cons? {
      ClausesCompileIff(cs.tail, flat);
      match cs.head {
        case App(Cons(t, Cons(v, Empty))) =>
          NamesEach(cs.head.items, Names(cs.head));
          var s := TailFlowClauses(cs.tail, flat, None, 0);
          CompilesIff(t, s);
          CompilesIff(v, Flow(t, s));
        case _ =>
      }
    }
  }

  /** The four lowerings take so many arguments, the last of them a freeze. */
  lemma {:induction false} PrologCounts(h: SymId, es: List<Expr>, b: Expr, flat: set<SymId>)
    requires h !in flat
    ensures var e := Headed(h, Append(es, List1(Headed(K_FREEZE, List1(b)))));
            && (h in PROLOG && Length(es) == (if h == K_WHEN then 4 else if h == K_BIND then 5 else 3) ==>
                  Judge(e, flat, None, 0) == Stops({}))
            && (h !in SPECIAL + PROLOG ==> Judge(e, flat, None, 0) == JudgeAll(e.items.tail, flat))
  {
    hide JudgeAll;
    EndsSo(es, b);
  }

  lemma {:induction false} EndsSo(es: List<Expr>, b: Expr)
    ensures var args := Append(es, List1(Headed(K_FREEZE, List1(b))));
            EndsInFreeze(args) && Length(args) == Length(es) + 1
  {
    if es.Cons? { EndsSo(es.tail, b); }
  }

  // ---- forms with code of their own ----

  /** What is no literal that `=` has a test for, wherever it stands. */
  predicate IsOperand(v: Expr, scope: set<SymId>)
  {
    (v.App? && v != Headed(K_FAIL, Empty)) || (v.Sym? && v.id in scope)
  }

  /** The tests that replace `=`, and the literals that have one. */
  ghost predicate HasTest(lit: Expr, scope: set<SymId>, t: Probe)
  {
    || (lit == Nil && t == IsNil)
    || (exists s :: lit == Str(s) && t == IsStr(s))
    || (exists x: SymId :: lit == Sym(x) && x !in scope && t == IsSym(x))
    || (lit == Headed(K_FAIL, Empty) && K_FAIL !in scope && t == IsSym(K_SHEN_FAIL))
  }

  /** `=` against such a literal is its test of the other operand, on either side; against a number it is a call. */
  lemma {:induction false} TestsOfLiterals(v: Expr, lit: Expr, t: Probe, n: int, st: Cg)
    requires K_EQ !in st.scope && IsOperand(v, st.scope) && CompileE(v, st).Emitted?
    ensures HasTest(lit, st.scope, t) ==>
              && CompileE(Headed(K_EQ, List2(v, lit)), st) == Emitted(Test(t, CompileE(v, st).code), CompileE(v, st).st)
              && CompileE(Headed(K_EQ, List2(lit, v)), st) == Emitted(Test(t, CompileE(v, st).code), CompileE(v, st).st)
    ensures CompileE(Headed(K_EQ, List2(v, Int(n))), st) == CompileCall(K_EQ, List2(v, Int(n)), st)
  {
    hide BindArgs, CompileCond, CompileDo, CompileClosure, CompileTry, CompileCall;
    assert ProbeFor(v, st.scope).None?;
    if HasTest(lit, st.scope, t) {
      assert ProbeFor(lit, st.scope) == Some(t);
      HeadCode(K_EQ, List2(v, lit), st);
      HeadCode(K_EQ, List2(lit, v), st);
    }
    HeadCode(K_EQ, List2(v, Int(n)), st);
  }

  lemma {:induction false} HeadCode(h: SymId, args: List<Expr>, st: Cg)
    requires h !in SPECIAL
    ensures CompileE(Headed(h, args), st) == CompileHead(h, args, st)
  {
    hide BindArgs, CompileCond, CompileDo, CompileClosure, CompileTry, CompileHead;
    assert View(Headed(h, args)) == Call(h, args);
    assert CompileE(Headed(h, args), st) == CompileApp(Headed(h, args), st);
  }

  /** `(value x)` and `(set x v)` of a free name are a load and a store. */
  lemma {:induction false} GlobalsByName(x: SymId, v: Expr, st: Cg)
    requires {K_VALUE, K_SET, x} !! st.scope && CompileE(v, st).Emitted?
    ensures CompileE(Headed(K_VALUE, List1(Sym(x))), st) == Emitted(GlobalGet(x), st)
    ensures CompileE(Headed(K_SET, List2(Sym(x), v)), st) ==
            Emitted(Block(One(FixedV, CompileE(v, st).code), GlobalSet(x, FixedV)), CompileE(v, st).st)
  {
    hide BindArgs, CompileCond, CompileDo, CompileClosure, CompileTry, CompileCall;
    HeadCode(K_VALUE, List1(Sym(x)), st);
    HeadCode(K_SET, List2(Sym(x), v), st);
  }

  /** The trap around `(value a)`, `(<-address a i)` or `(<-vector a i)`, with a handler that ignores the error. */
  function TrapOf(op: SymId, operands: List<Expr>, x: SymId, fallback: Expr): Expr
  {
    Headed(K_TRAP_ERROR, List2(Headed(op, operands), Headed(K_LAMBDA, List2(Sym(x), fallback))))
  }

  /** Each of the three becomes a call of its own `/or` primitive. */
  lemma {:induction false} TrapsRewritten(a: Expr, i: Expr, x: SymId, fallback: Expr, st: Cg)
    requires !a.App? && !i.App? && x !in Names(fallback) && CompileClosure(None, fallback, st).Emitted?
    ensures var thunk := CompileClosure(None, fallback, st).code;
            && CompileE(TrapOf(K_VALUE, List1(a), x, fallback), st).Emitted?
            && CompileE(TrapOf(K_VALUE, List1(a), x, fallback), st).code.Block?
            && CompileE(TrapOf(K_VALUE, List1(a), x, fallback), st).code.body == CallNamed(K_VALUE_OR, [FixedX, FixedH])
    ensures CompilesToOr(K_ADDRESS, K_ADDRESS_OR, a, i, x, fallback, st)
    ensures CompilesToOr(K_VECTOR_REF, K_VECTOR_OR, a, i, x, fallback, st)
  {
    hide BindArgs, CompileCond, CompileDo, CompileClosure, CompileTry, CompileHead;
    var thunk := CompileClosure(None, fallback, st);
    AtomState(a, thunk.st);
    AtomState(i, thunk.st);
    RewrittenTo(K_VALUE, List1(a), x, fallback);
    RewrittenTo(K_ADDRESS, List2(a, i), x, fallback);
    RewrittenTo(K_VECTOR_REF, List2(a, i), x, fallback);
    var e := TrapOf(K_VALUE, List1(a), x, fallback);
    var e2, e3 := TrapOf(K_ADDRESS, List2(a, i), x, fallback), TrapOf(K_VECTOR_REF, List2(a, i), x, fallback);
    hide View, TrappedAccess, CompileE;
    TrapApp(e, Access(K_VALUE, List1(a), fallback), st);
    TrapApp(e2, Access(K_ADDRESS, List2(a, i), fallback), st);
    TrapApp(e3, Access(K_VECTOR_REF, List2(a, i), fallback), st);
  }

  ghost predicate CompilesToOr(op: SymId, or: SymId, a: Expr, i: Expr, x: SymId, fallback: Expr, st: Cg)
  {
    var r := CompileE(TrapOf(op, List2(a, i), x, fallback), st);
    r.Emitted? && r.code.Block? && r.code.body == CallNamed(or, [FixedX, FixedN, FixedH])
  }

  lemma {:induction false} RewrittenTo(op: SymId, operands: List<Expr>, x: SymId, fallback: Expr)
    requires op in {K_VALUE, K_ADDRESS, K_VECTOR_REF} && x !in Names(fallback) && Atomic(operands)
    ensures var e := TrapOf(op, operands, x, fallback);
            View(e).Trap? && TrappedAccess(View(e).body, View(e).handler) == Some(Access(op, operands, fallback))
  {
  }

  lemma {:induction false} TrapApp(e: Expr, a: Access, st: Cg)
    requires View(e).Trap? && TrappedAccess(View(e).body, View(e).handler) == Some(a) && Fits(a)
    requires CompileClosure(None, a.fallback, st).Emitted?
    requires Atomic(a.operands)
    ensures var thunk := CompileClosure(None, a.fallback, st);
            var xc := CompileE(a.operands.head, thunk.st);
            && xc.Emitted? && xc.st == thunk.st
            && (a.op == K_VALUE ==> CompileE(e, st) == Emitted(OneCode(xc.code, thunk.code), thunk.st))
            && (a.op != K_VALUE ==>
                  CompileE(a.operands.tail.head, thunk.st).Emitted? &&
                  CompileE(e, st) == Emitted(
                    TwoCode(a.op, xc.code, CompileE(a.operands.tail.head, thunk.st).code, thunk.code), thunk.st))
  {
    hide BindArgs, CompileCond, CompileDo, CompileClosure, CompileTry, CompileHead;
    OperandsAreAtoms(a);
    var thunk := CompileClosure(None, a.fallback, st);
    AtomState(a.operands.head, thunk.st);
    if a.op != K_VALUE { AtomState(a.operands.tail.head, thunk.st); }
    assert CompileE(e, st) == CompileApp(e, st);
  }
}
