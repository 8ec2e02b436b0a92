/** The simulation itself, form by form: compiled code does what the evaluator does. */
module SimExpr {
  import opened Lists
  import opened Kl
  import opened Machine
  import R = RustIr
  import opened KlEval
  import opened RustRun
  import opened Codegen
  import opened CodegenState
  import opened Related
  import opened Simulation
  import opened Frames
  import opened SimSteps
  import opened TrapSteps
  import opened TailSteps

  lemma {:induction false} SimE(n: nat, p: Prog, q: RProg, e: Expr, st: Cg, env: Env, locals: REnv, w: World, z: World)
    requires Fit(p, q, e, st, env, locals, w, z)
    ensures SameE(n, p, q, e, st, env, locals, w, z)
    decreases n, 2, e, 2
  {
    hide Linked, EnvRel, WRel, RunE, CodeOf, Rel, Eval, CompileE;
    match View(e)
    case Const(_) => SimConst(n, p, q, e, st, env, locals, w, z);
    case Var(x) => SimVar(n, p, q, e, st, env, locals, w, z);
    case If(_, _, _) => SimIf(n, p, q, e, st, env, locals, w, z);
    case Let(_, _, _) => SimLet(n, p, q, e, st, env, locals, w, z);
    case Cond(cs) => SimConds(n, p, q, e, st, env, locals, w, z);
    case Do(es) => SimDos(n, p, q, e, st, env, locals, w, z);
    case And(_, _) => SimAnd(n, p, q, e, st, env, locals, w, z);
    case Or(_, _) => SimOr(n, p, q, e, st, env, locals, w, z);
    case Lambda(_, _) => SimClosure(n, p, q, e, st, env, locals, w, z);
    case Freeze(_) => SimClosure(n, p, q, e, st, env, locals, w, z);
    case Thaw(_) => SimThaw(n, p, q, e, st, env, locals, w, z);
    case Trap(_, _) => SimTrap(n, p, q, e, st, env, locals, w, z);
    case Typed(a) => SimTyped(n, p, q, e, st, env, locals, w, z);
    case Call(_, _) => SimCall(n, p, q, e, st, env, locals, w, z);
    case Apply(_, _) => SimApply(n, p, q, e, st, env, locals, w, z);
    case _ => NoCode(e, Dom(env), st.scope, st.thaws.Keys);
  }

  lemma {:induction false} SimTyped(
    n: nat, p: Prog, q: RProg, e: Expr, st: Cg, env: Env, locals: REnv, w: World, z: World)
    requires View(e).Typed? && Fit(p, q, e, st, env, locals, w, z)
    ensures SameE(n, p, q, e, st, env, locals, w, z)
    decreases n, 2, e, 0
  {
    hide Linked, EnvRel, WRel, RunE, CodeOf;
    PartsAreSafe(e, st.thaws.Keys);
    PartNames(e);
    assert CompileE(e, st) == CompileApp(e, st);
    assert Eval(n, p, e, env, w, false) == Step(n, p, e, env, w, false);
    var a := View(e).arg;
    SoundLess(Names(e), Names(a), st, st, env, locals);
    SimE(n, p, q, a, st, env, locals, w, z);
  }

  lemma {:induction false} SimIf(n: nat, p: Prog, q: RProg, e: Expr, st: Cg, env: Env, locals: REnv, w: World, z: World)
    requires View(e).If? && Fit(p, q, e, st, env, locals, w, z)
    ensures SameE(n, p, q, e, st, env, locals, w, z)
    decreases n, 2, e, 0
  {
    hide Wf, Safe, Eval, Flow, Rel;
    hide Linked, EnvRel, WRel, RunE, CodeOf;
    hide CallNamed, KlEval.Apply, CompileHead, CompileClosure, CellRel, Loops, EvalCond, CompileCond, EvalDo;
    hide CompileDo, EvalArgs, BindArgs, CompileTry;
    IfParts(e, Dom(env), st.scope, st.thaws.Keys);
    IfStep(n, p, e, env, w, false);
    assert CompileE(e, st) == CompileApp(e, st);
    var If(c, t, f) := View(e);
    var test := CompileE(c, st);
    var thn := CompileE(t, test.st);
    var els := CompileE(f, thn.st);
    SteadyE(c, st);
    SteadyE(t, test.st);
    SteadyE(f, thn.st);
    SoundLess(Names(e), Names(c), st, st, env, locals);
    SimE(n, p, q, c, st, env, locals, w, z);
    var r := Eval(n, p, c, env, w, false);
    var s := RunE(n, q, test.code, locals, z);
    var tv := els.st.Fresh();
    RunLet(n, q, tv, test.code, R.IfTrue(tv, thn.code, els.code), locals, z);
    if !r.w.drift && r.out.Ok? {
      SameTruth(r.out.v, s.out.v);
      var locals' := RPush(tv, Val(s.out.v), locals);
      RunIf(n, q, tv, s.out.v, thn.code, els.code, locals, s.w);
      if TruthOf(r.out.v) == Some(true) {
        SoundLess(Names(e), Names(t), st, test.st, env, locals);
        SoundTemp(Names(t), test.st, env, locals, tv, Val(s.out.v));
        SimE(n, p, q, t, test.st, env, locals', r.w, s.w);
      } else if TruthOf(r.out.v) == Some(false) {
        SoundLess(Names(e), Names(f), st, thn.st, env, locals);
        SoundTemp(Names(f), thn.st, env, locals, tv, Val(s.out.v));
        SimE(n, p, q, f, thn.st, env, locals', r.w, s.w);
      }
    }
  }

  lemma {:induction false} SimLet(
    n: nat, p: Prog, q: RProg, e: Expr, st: Cg, env: Env, locals: REnv, w: World, z: World)
    requires View(e).Let? && Fit(p, q, e, st, env, locals, w, z)
    ensures SameE(n, p, q, e, st, env, locals, w, z)
    decreases n, 2, e, 1
  {
    if Inlines(View(e).x, View(e).bound, View(e).body) {
      SimLetProc(n, p, q, e, st, env, locals, w, z);
    } else {
      SimLetPlain(n, p, q, e, st, env, locals, w, z);
    }
  }

  /** A continuation that is only thawed runs as a local procedure. */
  lemma {:induction false} SimLetProc(
    n: nat, p: Prog, q: RProg, e: Expr, st: Cg, env: Env, locals: REnv, w: World, z: World)
    requires View(e).Let? && Fit(p, q, e, st, env, locals, w, z)
    requires Inlines(View(e).x, View(e).bound, View(e).body)
    ensures SameE(n, p, q, e, st, env, locals, w, z)
    decreases n, 2, e, 0
  {
    hide Linked, EnvRel, WRel, RunE, CodeOf;
    hide CallNamed, KlEval.Apply, CompileHead, CompileClosure, CellRel, Loops, EvalCond, CompileCond, EvalDo;
    hide CompileDo, EvalArgs, BindArgs, CompileTry;
    assert CompileE(e, st) == CompileApp(e, st);
    assert Eval(n, p, e, env, w, false) == Step(n, p, e, env, w, false);
    var Let(x, v, b) := View(e);
    var pb := View(v).body;
    var proc := CompileE(pb, st);
    ProcReady(e, st, env, locals);
    var env' := Push(x, VLam(env, None, pb), env);
    var locals' := RPush(proc.st.Fresh(), Proc(proc.code, locals), locals);
    SimE(n, p, q, b, EnterProc(proc.st, x), env', locals', w, z);
    assert Eval(n, p, v, env, w, false) == Done(VLam(env, None, pb), w);
    RunProc(n, q, proc.st.Fresh(), proc.code, CompileE(b, EnterProc(proc.st, x)).code, locals, z);
  }

  lemma {:induction false} SimLetPlain(
    n: nat, p: Prog, q: RProg, e: Expr, st: Cg, env: Env, locals: REnv, w: World, z: World)
    requires View(e).Let? && Fit(p, q, e, st, env, locals, w, z)
    requires !Inlines(View(e).x, View(e).bound, View(e).body)
    ensures SameE(n, p, q, e, st, env, locals, w, z)
    decreases n, 2, e, 0
  {
    hide Linked, EnvRel, WRel, RunE, CodeOf;
    hide CallNamed, KlEval.Apply, CompileHead, CompileClosure, CellRel, Loops, EvalCond, CompileCond, EvalDo;
    hide CompileDo, EvalArgs, BindArgs, CompileTry;
    PartNames(e);
    assert CompileE(e, st) == CompileApp(e, st);
    assert Eval(n, p, e, env, w, false) == Step(n, p, e, env, w, false);
    var Let(x, v, b) := View(e);
    ProcIsSafe(e, st.thaws.Keys);
    var bound := CompileE(v, st);
    SteadyE(v, st);
    SoundLess(Names(e), Names(v), st, st, env, locals);
    SimE(n, p, q, v, st, env, locals, w, z);
    var r := Eval(n, p, v, env, w, false);
    var s := RunE(n, q, bound.code, locals, z);
    RunLet(n, q, R.V(x), bound.code, CompileE(b, bound.st.Bind(x)).code, locals, z);
    if !r.w.drift && r.out.Ok? {
      SoundLess(Names(e), Names(e), st, bound.st, env, locals);
      SoundLet(Names(e), bound.st, env, locals, x, r.out.v, s.out.v);
      var env' := Push(x, r.out.v, env);
      var locals' := RPush(R.V(x), Val(s.out.v), locals);
      SoundLess(Names(e) + {x}, Names(b), bound.st.Bind(x), bound.st.Bind(x), env', locals');
      SimE(n, p, q, b, bound.st.Bind(x), env', locals', r.w, s.w);
    }
  }

  lemma {:induction false} SimAnd(
    n: nat, p: Prog, q: RProg, e: Expr, st: Cg, env: Env, locals: REnv, w: World, z: World)
    requires View(e).And? && Fit(p, q, e, st, env, locals, w, z)
    ensures SameE(n, p, q, e, st, env, locals, w, z)
    decreases n, 2, e, 0
  {
    hide Wf, Safe, Eval, Flow, Rel;
    hide Linked, EnvRel, WRel, RunE, CodeOf;
    hide CallNamed, KlEval.Apply, CompileHead, CompileClosure, CellRel, Loops, EvalCond, CompileCond, EvalDo;
    hide CompileDo, EvalArgs, BindArgs, CompileTry;
    BothParts(e, Dom(env), st.scope, st.thaws.Keys);
    BothStep(n, p, e, env, w, false);
    assert CompileE(e, st) == CompileApp(e, st);
    var And(a, b) := View(e);
    var first := CompileE(a, st);
    var second := CompileE(b, first.st);
    SteadyE(a, st);
    SteadyE(b, first.st);
    SoundLess(Names(e), Names(a), st, st, env, locals);
    SimE(n, p, q, a, st, env, locals, w, z);
    var r := Eval(n, p, a, env, w, false);
    var s := RunE(n, q, first.code, locals, z);
    var av, bv := second.st.Fresh(), second.st.Next().Fresh();
    var strict := R.Block(One(bv, second.code), R.BoolOf(bv));
    RunLet(n, q, av, first.code, R.IfTrue(av, strict, R.Lit(Bool(false))), locals, z);
    if !r.w.drift && r.out.Ok? {
      SameTruth(r.out.v, s.out.v);
      QuoteRel(Bool(false));
      var locals' := RPush(av, Val(s.out.v), locals);
      RunIf(n, q, av, s.out.v, strict, R.Lit(Bool(false)), locals, s.w);
      RunLit(n, q, Bool(false), locals', s.w);
      if Holds(r, true) {
        SoundLess(Names(e), Names(b), st, first.st, env, locals);
        SoundTemp(Names(b), first.st, env, locals, av, Val(s.out.v));
        SimSecond(n, p, q, b, first.st, env, locals', r.w, s.w, bv);
      }
    }
  }

  lemma {:induction false} SimOr(n: nat, p: Prog, q: RProg, e: Expr, st: Cg, env: Env, locals: REnv, w: World, z: World)
    requires View(e).Or? && Fit(p, q, e, st, env, locals, w, z)
    ensures SameE(n, p, q, e, st, env, locals, w, z)
    decreases n, 2, e, 0
  {
    hide Wf, Safe, Eval, Flow, Rel;
    hide Linked, EnvRel, WRel, RunE, CodeOf;
    hide CallNamed, KlEval.Apply, CompileHead, CompileClosure, CellRel, Loops, EvalCond, CompileCond, EvalDo;
    hide CompileDo, EvalArgs, BindArgs, CompileTry;
    BothParts(e, Dom(env), st.scope, st.thaws.Keys);
    BothStep(n, p, e, env, w, false);
    assert CompileE(e, st) == CompileApp(e, st);
    var Or(a, b) := View(e);
    var first := CompileE(a, st);
    var second := CompileE(b, first.st);
    SteadyE(a, st);
    SteadyE(b, first.st);
    SoundLess(Names(e), Names(a), st, st, env, locals);
    SimE(n, p, q, a, st, env, locals, w, z);
    var r := Eval(n, p, a, env, w, false);
    var s := RunE(n, q, first.code, locals, z);
    var av, bv := second.st.Fresh(), second.st.Next().Fresh();
    var strict := R.Block(One(bv, second.code), R.BoolOf(bv));
    RunLet(n, q, av, first.code, R.IfTrue(av, R.Lit(Bool(true)), strict), locals, z);
    if !r.w.drift && r.out.Ok? {
      SameTruth(r.out.v, s.out.v);
      QuoteRel(Bool(true));
      var locals' := RPush(av, Val(s.out.v), locals);
      RunIf(n, q, av, s.out.v, R.Lit(Bool(true)), strict, locals, s.w);
      RunLit(n, q, Bool(true), locals', s.w);
      if Holds(r, false) {
        SoundLess(Names(e), Names(b), st, first.st, env, locals);
        SoundTemp(Names(b), first.st, env, locals, av, Val(s.out.v));
        SimSecond(n, p, q, b, first.st, env, locals', r.w, s.w, bv);
      }
    }
  }

  /** The second operand of an `and` or an `or`, made a boolean. */
  lemma {:induction false} SimSecond(
    n: nat, p: Prog, q: RProg, b: Expr, st: Cg, env: Env, locals: REnv, w: World, z: World, bv: R.RVar)
    requires Fit(p, q, b, st, env, locals, w, z) && bv.T?
    ensures Agree(Second(Eval(n, p, b, env, w, false), false),
                  RunE(n, q, R.Block(One(bv, CompileE(b, st).code), R.BoolOf(bv)), locals, z))
    decreases n, 2, b, 3
  {
    hide Linked, EnvRel, WRel, RunE, CodeOf, Eval, CompileE;
    SimE(n, p, q, b, st, env, locals, w, z);
    var s := RunE(n, q, CompileE(b, st).code, locals, z);
    RunLet(n, q, bv, CompileE(b, st).code, R.BoolOf(bv), locals, z);
    if s.out.Ok? { RunBool(n, q, bv, s.out.v, locals, s.w); }
  }

  lemma {:induction false} SimConds(
    n: nat, p: Prog, q: RProg, e: Expr, st: Cg, env: Env, locals: REnv, w: World, z: World)
    requires View(e).Cond? && Fit(p, q, e, st, env, locals, w, z)
    ensures SameE(n, p, q, e, st, env, locals, w, z)
    decreases n, 2, e, 0
  {
    hide Linked, EnvRel, WRel, RunE, CodeOf;
    PartsAreSafe(e, st.thaws.Keys);
    PartNames(e);
    assert CompileE(e, st) == CompileApp(e, st);
    assert Eval(n, p, e, env, w, false) == Step(n, p, e, env, w, false);
    var cs := View(e).clauses;
    SoundLess(Names(e), NamesOf(cs), st, st, env, locals);
    SimCond(n, p, q, cs, st, env, locals, w, z);
  }

  lemma {:induction false} SimCond(
    n: nat, p: Prog, q: RProg, cs: List<Expr>, st: Cg, env: Env, locals: REnv, w: World, z: World)
    requires Linked(p, q) && ReadyClauses(cs, st, env, locals) && WRel(w, z) && CompileCond(cs, st).Emitted?
    ensures Agree(EvalCond(n, p, cs, env, w, false), RunE(n, q, CompileCond(cs, st).code, locals, z))
    decreases n, 2, cs, 0
  {
    hide Wf, Safe, Eval, CompileE, Flow, Rel;
    hide Linked, EnvRel, WRel, RunE, CodeOf;
    hide CallNamed, KlEval.Apply, CompileHead, CompileClosure, CellRel, Loops, EvalDo, CompileDo, EvalArgs;
    hide BindArgs, CompileTry;
    match cs
    case Empty => RunFail(n, q, locals, z);
    case Cons(App(Cons(t, Cons(v, Empty))), rest) =>
      NamesEach(cs.head.items, Names(cs.head));
      ClauseParts(t, v, rest, st.thaws.Keys);
      var others := CompileCond(rest, st);
      var test := CompileE(t, others.st);
      var action := CompileE(v, test.st);
      SteadyCond(rest, st);
      SteadyE(t, others.st);
      SteadyE(v, test.st);
      SoundLess(NamesOf(cs), Names(t), st, others.st, env, locals);
      SimE(n, p, q, t, others.st, env, locals, w, z);
      var r := Eval(n, p, t, env, w, false);
      var s := RunE(n, q, test.code, locals, z);
      var tv := action.st.Fresh();
      RunLet(n, q, tv, test.code, R.IfTrue(tv, action.code, others.code), locals, z);
      if !r.w.drift && r.out.Ok? {
        SameTruth(r.out.v, s.out.v);
        var locals' := RPush(tv, Val(s.out.v), locals);
        RunIf(n, q, tv, s.out.v, action.code, others.code, locals, s.w);
        if TruthOf(r.out.v) == Some(true) {
          SoundLess(NamesOf(cs), Names(v), st, test.st, env, locals);
          SoundTemp(Names(v), test.st, env, locals, tv, Val(s.out.v));
          SimE(n, p, q, v, test.st, env, locals', r.w, s.w);
        } else if TruthOf(r.out.v) == Some(false) {
          SoundLess(NamesOf(cs), NamesOf(rest), st, st, env, locals);
          SoundTemp(NamesOf(rest), st, env, locals, tv, Val(s.out.v));
          SimCond(n, p, q, rest, st, env, locals', r.w, s.w);
        }
      }
    case _ =>
  }

  lemma {:induction false} SimDos(
    n: nat, p: Prog, q: RProg, e: Expr, st: Cg, env: Env, locals: REnv, w: World, z: World)
    requires View(e).Do? && Fit(p, q, e, st, env, locals, w, z)
    ensures SameE(n, p, q, e, st, env, locals, w, z)
    decreases n, 2, e, 0
  {
    hide Linked, EnvRel, WRel, RunE, CodeOf;
    PartsAreSafe(e, st.thaws.Keys);
    PartNames(e);
    assert CompileE(e, st) == CompileApp(e, st);
    assert Eval(n, p, e, env, w, false) == Step(n, p, e, env, w, false);
    var es := View(e).es;
    SoundLess(Names(e), NamesOf(es), st, st, env, locals);
    SimDo(n, p, q, es, st, env, locals, w, z);
  }

  lemma {:induction false} SimDo(
    n: nat, p: Prog, q: RProg, es: List<Expr>, st: Cg, env: Env, locals: REnv, w: World, z: World)
    requires Linked(p, q) && ReadyAll(es, st, env, locals) && WRel(w, z) && CompileDo(es, st).Emitted?
    ensures Agree(EvalDo(n, p, es, env, w, false), RunE(n, q, CompileDo(es, st).code, locals, z))
    decreases n, 2, es, 0
  {
    hide Wf, Eval, CompileE, Flow, Rel;
    hide Linked, EnvRel, WRel, RunE, CodeOf;
    hide CallNamed, KlEval.Apply, CompileHead, CompileClosure, CellRel, Loops, EvalCond, CompileCond, EvalArgs;
    hide BindArgs, CompileTry;
    match es
    case Empty => QuoteRel(Nil); RunLit(n, q, Nil, locals, z);
    case Cons(e, rest) =>
      var first := CompileE(e, st);
      SoundLess(NamesOf(es), Names(e), st, st, env, locals);
      SimE(n, p, q, e, st, env, locals, w, z);
      if rest.Cons? {
        SteadyE(e, st);
        var others := CompileDo(rest, first.st);
        var r := Eval(n, p, e, env, w, false);
        var s := RunE(n, q, first.code, locals, z);
        RunLet(n, q, R.Wild, first.code, others.code, locals, z);
        if !r.w.drift && r.out.Ok? {
          SoundLess(NamesOf(es), NamesOf(rest), st, first.st, env, locals);
          SimDo(n, p, q, rest, first.st, env, locals, r.w, s.w);
        }
      }
  }

  lemma {:induction false} SimArgs(
    n: nat, p: Prog, q: RProg, es: List<Expr>, st: Cg, env: Env, locals: REnv, w: World, z: World)
    requires Linked(p, q) && ReadyAll(es, st, env, locals) && WRel(w, z) && BindArgs(es, st).Emitted?
    ensures var ba := BindArgs(es, st).code;
            SameArgs(EvalArgs(n, p, es, env, w), RunBinds(n, q, ba.0, locals, z), ba.1, locals, st.counter)
    decreases n, 2, es, 0
  {
    hide Linked, EnvRel, WRel, RunE, CodeOf, Rel, Eval, RunBinds, CompileE, GetAll, Extends, RelAll;
    match es
    case Empty => BindNone(n, q, locals, z); NoArgs(locals, st.counter);
    case Cons(e, rest) =>
      var first := CompileE(e, st);
      SteadyE(e, st);
      SoundLess(NamesOf(es), Names(e), st, st, env, locals);
      SimE(n, p, q, e, st, env, locals, w, z);
      var r := Eval(n, p, e, env, w, false);
      var s := RunE(n, q, first.code, locals, z);
      var tv := first.st.Fresh();
      var others := BindArgs(rest, first.st.Next());
      BindOne(n, q, tv, first.code, others.code.0, locals, z);
      if !r.w.drift && r.out.Ok? {
        var locals' := RPush(tv, Val(s.out.v), locals);
        SoundLess(NamesOf(es), NamesOf(rest), st, first.st.Next(), env, locals);
        SoundPast(NamesOf(rest), first.st, env, locals, tv, Val(s.out.v));
        SimArgs(n, p, q, rest, first.st.Next(), env, locals', r.w, s.w);
        var more := EvalArgs(n, p, rest, env, r.w);
        var b := RunBinds(n, q, others.code.0, locals', s.w);
        if more.Args? && !more.w.drift {
          OneMore(b.env, locals, tv, r.out.v, s.out.v, others.code.1, more.vs, st.counter);
        }
      }
  }

  /** Applying related closures. */
  lemma {:induction false} SimApplied(
    n: nat, p: Prog, q: RProg, f: Value, u: Value, vs: seq<Value>, us: seq<Value>, w: World, z: World)
    requires Linked(p, q) && Rel(f, u) && RelAll(vs, us) && WRel(w, z)
    ensures Agree(KlEval.Apply(n, p, f, vs, w), ApplyCode(n, q, u, us, z))
    decreases n, 3
  {
    hide Linked, EnvRel, WRel, RunE, Eval, CompileE, CodeOf;
    if f.VLam? {
      var k := if f.param.Some? then 1 else 0;
      if k <= |vs| {
        var env' := if k == 1 then Push(f.param.value, vs[0], f.env) else f.env;
        var locals' := if k == 1 then RPush(R.V(f.param.value), Val(us[0]), u.locals) else u.locals;
        var st: Cg :| CodeOf(f.body, f.param, f.env, u.code, u.locals, st);
        EnterBody(p, q, f, u, vs, us, st);
        SimE(n, p, q, f.body, st, env', locals', w, z);
        var r := Eval(n, p, f.body, env', w, false);
        var s := RunE(n, q, u.code, locals', z);
        if k < |vs| && n > 0 && !r.w.drift && r.out.Ok? {
          SimApplied(n - 1, p, q, r.out.v, s.out.v, vs[k..], us[k..], r.w, s.w);
        }
      }
    } else if f.VFn? {
      SimPartial(n, p, q, f, u, vs, us, w, z);
    }
  }

  /** Giving more arguments to a partial application. */
  lemma {:induction false} SimPartial(
    n: nat, p: Prog, q: RProg, f: Value, u: Value, vs: seq<Value>, us: seq<Value>, w: World, z: World)
    requires Linked(p, q) && Rel(f, u) && f.VFn? && RelAll(vs, us) && WRel(w, z)
    ensures Agree(KlEval.Apply(n, p, f, vs, w), ApplyCode(n, q, u, us, z))
    decreases n, 2
  {
    hide Linked, WRel, Eval, RunE, CallNamed, NamedCode, CodeOf;
    assert u.VFn? && u.name == f.name && RelAll(f.partial, u.partial);
    assert Defined(p, f.name) <==> f.name in q.prims || f.name in q.fns by { SamePrims(p, q); }
    hide Rel;
    assert RelAll(f.partial + vs, u.partial + us);
    if n > 0 && Defined(p, f.name) {
      SimThrough(n - 1, p, q, f.name, f.partial + vs, u.partial + us, w, z);
    }
  }

  lemma {:induction false} SimPrim(
    n: nat, p: Prog, q: RProg, f: SymId, vs: seq<Value>, us: seq<Value>, w: World, z: World)
    requires Linked(p, q) && f in p.prims && RelAll(vs, us) && WRel(w, z) && |vs| == Arity(p.prims[f])
    ensures Agree(Saturated(n, p, f, vs, w), CallCode(n, q, f, us, z))
    decreases n, 1, 0
  {
    hide Linked, EnvRel, WRel, Eval, CodeOf, Saturated, CallCode, Rel, RunLoop, Run, Attempt;
    SamePrims(p, q);
    SameLength(vs, us);
    PrimShape(n, p, f, vs, w);
    PrimExact(n, q, f, us, z);
    if Deferring(p.prims[f]) {
      SimDeferring(n, p, q, p.prims[f], vs, us, w, z);
    } else {
      RunRel(p.prims[f], vs, us, w, z);
    }
  }

  lemma {:induction false} SimDeferring(
    n: nat, p: Prog, q: RProg, op: Prim, vs: seq<Value>, us: seq<Value>, w: World, z: World)
    requires Linked(p, q) && RelAll(vs, us) && WRel(w, z) && |vs| == |us| == Arity(op) && Deferring(op)
    ensures Agree(Deferred(n, p, op, vs, w), DeferredCode(n, q, op, us, z))
    decreases n, 0
  {
    hide Linked, Rel, WRel, Attempt, KlEval.Apply, ApplyCode;
    if !Watch(op, vs, w).drift {
      AttemptRel(op, vs, us, w, z);
      if Attempt(op, vs, w).None? && n > 0 {
        assert Rel(vs[|vs| - 1], us[|us| - 1]);
        SimApplied(n - 1, p, q, vs[|vs| - 1], us[|us| - 1], [], [], w, z);
      }
    }
  }

  /** Calling a primitive or a defun by name. */
  lemma {:induction false} SimNamed(
    n: nat, p: Prog, q: RProg, f: SymId, vs: seq<Value>, us: seq<Value>, w: World, z: World)
    requires Linked(p, q) && Defined(p, f) && RelAll(vs, us) && WRel(w, z)
    ensures Agree(CallNamed(n, p, f, vs, w), CallCode(n, q, f, us, z))
    decreases n, 1, 3
  {
    hide Linked, EnvRel, WRel, Eval, CodeOf, CallNamed, Saturated, CallCode, NamedCode, Rel, RunLoop, Arity;
    assert q.prims == p.prims by { SamePrims(p, q); }
    SameLength(vs, us);
    if f in p.prims && Direct(p.prims[f]) {
      SimDirect(n, p, q, f, vs, us, w, z);
    } else {
      SimThrough(n, p, q, f, vs, us, w, z);
      if f in p.prims {
        PrimCodeShape(n, q, f, us, z);
      } else {
        NamedShape(n, p, f, vs, w);
        FnParams(p, q, f);
        if |vs| == ArityOf(p, f) { CodeShape(n, q, f, us, z); }
      }
    }
  }

  /** A native override, with any number of arguments. */
  lemma {:induction false} SimDirect(
    n: nat, p: Prog, q: RProg, f: SymId, vs: seq<Value>, us: seq<Value>, w: World, z: World)
    requires Linked(p, q) && f in p.prims && Direct(p.prims[f]) && RelAll(vs, us) && WRel(w, z)
    ensures Agree(CallNamed(n, p, f, vs, w), CallCode(n, q, f, us, z))
    decreases n, 1, 1
  {
    hide Linked, WRel, CodeOf, CallNamed, Saturated, CallCode, NamedCode, Rel, Arity;
    assert q.prims == p.prims by { SamePrims(p, q); }
    var k := Arity(p.prims[f]);
    SameLength(vs, us);
    NamedShape(n, p, f, vs, w);
    if |vs| >= k {
      DirectShape(n, q, f, us, z);
      assert RelAll(vs[..k], us[..k]);
      SimPrim(n, p, q, f, vs[..k], us[..k], w, z);
      assert |vs| == k ==> vs[..k] == vs;
    }
  }

  /** Calling through the function's closure. */
  lemma {:induction false} SimThrough(
    n: nat, p: Prog, q: RProg, f: SymId, vs: seq<Value>, us: seq<Value>, w: World, z: World)
    requires Linked(p, q) && Defined(p, f) && RelAll(vs, us) && WRel(w, z)
    ensures Agree(CallNamed(n, p, f, vs, w), NamedCode(n, q, f, us, z))
    decreases n, 1, 2
  {
    hide Linked, EnvRel, WRel, Eval, CodeOf, CallNamed, Saturated, CallCode, NamedCode, Rel, RunLoop;
    if f in p.prims {
      SimPrims(n, p, q, f, vs, us, w, z);
    } else {
      NamedShape(n, p, f, vs, w);
      if |vs| == ArityOf(p, f) {
        FnParams(p, q, f);
        SameLength(vs, us);
        CodeShape(n, q, f, us, z);
        if n > 0 {
          LogRel(w, z, f, vs, us);
          SimFn(n - 1, p, q, f, vs, us, Log(w, f, vs), Log(z, f, us));
        }
      }
    }
  }

  /** A primitive through its closure, given any number of arguments. */
  lemma {:induction false} SimPrims(
    n: nat, p: Prog, q: RProg, f: SymId, vs: seq<Value>, us: seq<Value>, w: World, z: World)
    requires Linked(p, q) && f in p.prims && RelAll(vs, us) && WRel(w, z)
    ensures Agree(CallNamed(n, p, f, vs, w), NamedCode(n, q, f, us, z))
    decreases n, 1, 1
  {
    hide Linked, EnvRel, WRel, Eval, CodeOf, CallNamed, Saturated, CallCode, NamedCode, Rel, RunLoop, Run, Attempt;
    hide KlEval.Apply, ApplyCode, Arity, Direct, Deferring;
    assert q.prims == p.prims by { SamePrims(p, q); }
    var k := Arity(p.prims[f]);
    NamedShape(n, p, f, vs, w);
    SameLength(vs, us);
    if |vs| < k {
      PrimCodeShape(n, q, f, us, z);
      assert Rel(VFn(f, vs), VFn(f, us)) by { PartialRel(f, vs, us); }
    } else {
      assert RelAll(vs[..k], us[..k]) && RelAll(vs[k..], us[k..]);
      PrimThrough(n, q, f, us, z);
      SimPrim(n, p, q, f, vs[..k], us[..k], w, z);
      var r, s := Saturated(n, p, f, vs[..k], w), CallCode(n, q, f, us[..k], z);
      if |vs| > k && n > 0 && !r.w.drift && r.out.Ok? {
        SimApplied(n - 1, p, q, r.out.v, s.out.v, vs[k..], us[k..], r.w, s.w);
      } else if |vs| == k {
        assert vs[..k] == vs;
      }
    }
  }

  /** Thawing an inlined continuation calls the procedure; anything else is applied. */
  lemma {:induction false} SimThaw(
    n: nat, p: Prog, q: RProg, e: Expr, st: Cg, env: Env, locals: REnv, w: World, z: World)
    requires View(e).Thaw? && Fit(p, q, e, st, env, locals, w, z)
    ensures SameE(n, p, q, e, st, env, locals, w, z)
    decreases n, 2, e, 1
  {
    if View(e).arg.Sym? && View(e).arg.id in st.thaws {
      SimGo(n, p, q, e, st, env, locals, w, z);
    } else {
      SimThawed(n, p, q, e, st, env, locals, w, z);
    }
  }

  lemma {:induction false} SimGo(n: nat, p: Prog, q: RProg, e: Expr, st: Cg, env: Env, locals: REnv, w: World, z: World)
    requires View(e).Thaw? && Fit(p, q, e, st, env, locals, w, z) && View(e).arg.Sym? && View(e).arg.id in st.thaws
    ensures SameE(n, p, q, e, st, env, locals, w, z)
    decreases n, 2, e, 0
  {
    hide Linked, EnvRel, WRel, RunE, CodeOf, Rel, EvalArgs, EvalCond, EvalDo, CallNamed;
    PartNames(e);
    assert CompileE(e, st) == CompileApp(e, st);
    assert Eval(n, p, e, env, w, false) == Step(n, p, e, env, w, false);
    var g := View(e).arg.id;
    assert g in Names(e);
    var body := Inlined(Names(e), st, env, locals, g);
    var v, c := Lookup(env, g).value, Get(locals, st.thaws[g]).value;
    assert Eval(n, p, Sym(g), env, w, false) == Done(v, w);
    RunGo(n, q, st.thaws[g], locals, z);
    if n > 0 {
      EnterBody(p, q, v, VCode(c.penv, None, c.pcode, []), [], [], body);
      SimE(n - 1, p, q, v.body, body, v.env, c.penv, w, z);
      ApplyLam(n - 1, p, v.env, None, v.body, [], w);
    }
  }

  lemma {:induction false} SimThawed(
    n: nat, p: Prog, q: RProg, e: Expr, st: Cg, env: Env, locals: REnv, w: World, z: World)
    requires View(e).Thaw? && Fit(p, q, e, st, env, locals, w, z) && !(View(e).arg.Sym? && View(e).arg.id in st.thaws)
    ensures SameE(n, p, q, e, st, env, locals, w, z)
    decreases n, 2, e, 0
  {
    hide Linked, EnvRel, WRel, RunE, CodeOf, Rel, EvalArgs, EvalCond, EvalDo, CallNamed;
    PartsAreSafe(e, st.thaws.Keys);
    PartNames(e);
    assert CompileE(e, st) == CompileApp(e, st);
    assert Eval(n, p, e, env, w, false) == Step(n, p, e, env, w, false);
    var a := View(e).arg;
    forall g | g in st.thaws ensures OnlyThawed(g, a, false) { assert ThawedWithin(View(e), g); }
    SoundLess(Names(e), Names(a), st, st, env, locals);
    SimE(n, p, q, a, st, env, locals, w, z);
    var r := Eval(n, p, a, env, w, false);
    var s := RunE(n, q, CompileE(a, st).code, locals, z);
    RunApplied(n, q, CompileE(a, st).code, [], locals, z);
    if !r.w.drift && r.out.Ok? && n > 0 { SimApplied(n - 1, p, q, r.out.v, s.out.v, [], [], r.w, s.w); }
  }

  lemma {:induction false} SimApply(
    n: nat, p: Prog, q: RProg, e: Expr, st: Cg, env: Env, locals: REnv, w: World, z: World)
    requires View(e).Apply? && Fit(p, q, e, st, env, locals, w, z)
    ensures SameE(n, p, q, e, st, env, locals, w, z)
    decreases n, 2, e, 0
  {
    hide Wf, WfAll, Safe, SafeIn, Eval, EvalArgs, Flow;
    hide Linked, EnvRel, WRel, RunE, CodeOf, Rel;
    hide CallNamed, KlEval.Apply, CompileHead, CompileClosure, CellRel, Loops, EvalCond, CompileCond, EvalDo;
    hide CompileDo, CompileTry;
    OperatorParts(e, Dom(env), st.scope, st.thaws.Keys);
    OperatorStep(n, p, e, env, w);
    assert CompileE(e, st) == CompileApp(e, st);
    var Apply(f, args) := View(e);
    var op := CompileE(f, st);
    SteadyE(f, st);
    SoundLess(Names(e), Names(f), st, st, env, locals);
    SimE(n, p, q, f, st, env, locals, w, z);
    var r := Eval(n, p, f, env, w, false);
    var s := RunE(n, q, op.code, locals, z);
    var tv := op.st.Fresh();
    var binds := BindArgs(args, op.st.Next());
    RunBlock(n, q, Cons(R.Bind(tv, op.code), binds.code.0), R.ApplyValue(R.Read(tv), binds.code.1), locals, z);
    BindOne(n, q, tv, op.code, binds.code.0, locals, z);
    if !r.w.drift && r.out.Ok? {
      var locals' := RPush(tv, Val(s.out.v), locals);
      SoundLess(Names(e), NamesOf(args), st, op.st, env, locals);
      SoundPast(NamesOf(args), op.st, env, locals, tv, Val(s.out.v));
      SimArgs(n, p, q, args, op.st.Next(), env, locals', r.w, s.w);
      SimOperator(n, p, q, r.out.v, s.out.v, tv, binds.code.1, EvalArgs(n, p, args, env, r.w),
                  RunBinds(n, q, binds.code.0, locals', s.w), locals', op.st.counter + 1);
    }
  }

  /** Applying the closure in local `x` once its arguments are in theirs. */
  lemma {:induction false} SimOperator(
    n: nat, p: Prog, q: RProg, f: Value, u: Value, x: R.RVar, xs: seq<R.RVar>, a: ArgsRes, b: BindsRes,
    locals: REnv, lo: nat)
    requires Linked(p, q) && Rel(f, u) && GetVal(locals, x) == Some(u) && (x.T? ==> x.n < lo)
    requires SameArgs(a, b, xs, locals, lo)
    ensures Agree(match a
                  case Stop(r) => r
                  case Args(vs, w') => if n == 0 then Res(Timeout, w') else KlEval.Apply(n - 1, p, f, vs, w'),
                  match b
                  case Halt(r) => r
                  case Bound(env', w') => RunE(n, q, R.ApplyValue(R.Read(x), xs), env', w'))
    decreases n, 1
  {
    hide Linked, EnvRel, WRel, RunE, Rel, KlEval.Apply, ApplyCode;
    if b.Bound? {
      RunApplied(n, q, R.Read(x), xs, b.env, b.w);
      RunRead(n, q, x, b.env, b.w);
      if a.Args? && !a.w.drift {
        assert Get(b.env, x) == Get(locals, x);
        if n > 0 { SimApplied(n - 1, p, q, f, u, a.vs, GetAll(b.env, xs).value, a.w, b.w); }
      }
    }
  }

  lemma {:induction false} SimCall(
    n: nat, p: Prog, q: RProg, e: Expr, st: Cg, env: Env, locals: REnv, w: World, z: World)
    requires View(e).Call? && Fit(p, q, e, st, env, locals, w, z)
    ensures SameE(n, p, q, e, st, env, locals, w, z)
    decreases n, 2, e, 1
  {
    hide *;
    if View(e).head in st.scope {
      SimLocalCall(n, p, q, e, st, env, locals, w, z);
    } else {
      match Classify(View(e).head, View(e).args, st.scope)
      case ReadGlobal(_) => SimReadGlobal(n, p, q, e, st, env, locals, w, z);
      case WriteGlobal(_, _) => SimWriteGlobal(n, p, q, e, st, env, locals, w, z);
      case Compare(_, _) => SimCompare(n, p, q, e, st, env, locals, w, z);
      case Plain => SimPlainCall(n, p, q, e, st, env, locals, w, z);
    }
  }

  lemma {:induction false} SimLocalCall(
    n: nat, p: Prog, q: RProg, e: Expr, st: Cg, env: Env, locals: REnv, w: World, z: World)
    requires View(e).Call? && View(e).head in st.scope && Fit(p, q, e, st, env, locals, w, z)
    ensures SameE(n, p, q, e, st, env, locals, w, z)
    decreases n, 2, e, 0
  {
    hide Linked, EnvRel, WRel, RunE, CodeOf, Rel, Eval, EvalArgs, CompileE, BindArgs, View, Wf, Safe, KlEval.Apply;
    var Call(h, args) := View(e);
    LocalCode(e, st);
    HeadAgrees(e, st, env, locals);
    CallReady(e, st, env, locals);
    LocalHead(Names(e), st, env, locals, h);
    LocalStep(n, p, e, env, w);
    SimArgs(n, p, q, args, st, env, locals, w, z);
    var binds := BindArgs(args, st);
    RunBlock(n, q, binds.code.0, R.ApplyValue(R.Read(R.V(h)), binds.code.1), locals, z);
    SimOperator(n, p, q, Lookup(env, h).value, GetVal(locals, R.V(h)).value, R.V(h), binds.code.1,
                EvalArgs(n, p, args, env, w), RunBinds(n, q, binds.code.0, locals, z), locals, st.counter);
  }

  lemma {:induction false} SimPlainCall(
    n: nat, p: Prog, q: RProg, e: Expr, st: Cg, env: Env, locals: REnv, w: World, z: World)
    requires View(e).Call? && View(e).head !in st.scope && Classify(View(e).head, View(e).args, st.scope).Plain?
    requires Fit(p, q, e, st, env, locals, w, z)
    ensures SameE(n, p, q, e, st, env, locals, w, z)
    decreases n, 2, e, 0
  {
    hide Linked, EnvRel, WRel, RunE, CodeOf, Rel;
    assert CompileE(e, st) == CompileApp(e, st) == CompileHead(View(e).head, View(e).args, st);
    hide Eval, CompileE, Wf, Safe;
    var Call(h, args) := View(e);
    HeadAgrees(e, st, env, locals);
    CallReady(e, st, env, locals);
    ShortStep(n, p, e, env, w);
    SimPlain(n, p, q, h, args, st, env, locals, w, z);
  }

  lemma {:induction false} SimPlain(
    n: nat, p: Prog, q: RProg, h: SymId, args: List<Expr>, st: Cg, env: Env, locals: REnv, w: World, z: World)
    requires Linked(p, q) && ReadyAll(args, st, env, locals) && WRel(w, z) && CompileCall(h, args, st).Emitted?
    ensures Agree(PlainCall(n, p, h, args, env, w), RunE(n, q, CompileCall(h, args, st).code, locals, z))
    decreases n, 2, args, 1
  {
    hide Linked, EnvRel, WRel, RunE, CodeOf, Rel, Eval, CompileE, CallNamed, CallCode;
    SamePrims(p, q);
    SimArgs(n, p, q, args, st, env, locals, w, z);
    var binds := BindArgs(args, st);
    var a, b := EvalArgs(n, p, args, env, w), RunBinds(n, q, binds.code.0, locals, z);
    RunBlock(n, q, binds.code.0, R.CallNamed(h, binds.code.1), locals, z);
    if b.Bound? { RunCalled(n, q, h, binds.code.1, b.env, b.w); }
    if !Defined(p, h) && Atomic(args) { AtomArgs(n, p, args, env, w); }
    if a.Args? && !a.w.drift {
      var us := GetAll(b.env, binds.code.1).value;
      if Defined(p, h) {
        SimNamed(n, p, q, h, a.vs, us, a.w, b.w);
      } else {
        Undefined(n, q, h, us, b.w);
      }
    }
  }

  lemma {:induction false} SimWriteGlobal(
    n: nat, p: Prog, q: RProg, e: Expr, st: Cg, env: Env, locals: REnv, w: World, z: World)
    requires View(e).Call? && View(e).head !in st.scope && Classify(View(e).head, View(e).args, st.scope).WriteGlobal?
    requires Fit(p, q, e, st, env, locals, w, z)
    ensures SameE(n, p, q, e, st, env, locals, w, z)
    decreases n, 2, e, 0
  {
    hide Linked, EnvRel, CodeOf, Rel, WRel, OutRel, Agree, RunE, PlainCall, CompileE, Eval, Run, View, Classify;
    var Call(h, args) := View(e);
    var x, v := args.head.id, args.tail.head;
    ShortCode(e, st);
    FirstName(n, p, e, st, env, w);
    HeadAgrees(e, st, env, locals);
    ShortStep(n, p, e, env, w);
    assert K_SET in p.prims && p.prims[K_SET] == PSet by { SamePrims(p, q); }
    CallTwo(n, p, K_SET, Sym(x), v, env, w);
    PartNames(e);
    PartsAreSafe(e, st.thaws.Keys);
    ShortcutParts(h, args, st.scope, st.thaws.Keys);
    assert WfAll(args, Dom(env), st.scope, st.thaws.Keys);
    assert WfAll(args.tail, Dom(env), Flow(args.head, st.scope), st.thaws.Keys);
    LiteralFlow(args.head, st.scope);
    SoundLess(Names(e), Names(v), st, st, env, locals);
    SimE(n, p, q, v, st, env, locals, w, z);
    SimWritten(n, q, x, Eval(n, p, v, env, w, false), CompileE(v, st).code, locals, z);
  }

  lemma {:induction false} SimCompare(
    n: nat, p: Prog, q: RProg, e: Expr, st: Cg, env: Env, locals: REnv, w: World, z: World)
    requires View(e).Call? && View(e).head !in st.scope && Classify(View(e).head, View(e).args, st.scope).Compare?
    requires Fit(p, q, e, st, env, locals, w, z)
    ensures SameE(n, p, q, e, st, env, locals, w, z)
    decreases n, 2, e, 0
  {
    hide Linked, EnvRel, CodeOf, Rel, WRel, OutRel, Agree, RunE, PlainCall, CompileE, Eval, Run, View;
    var Call(h, args) := View(e);
    var Compare(t, v) := Classify(h, args, st.scope);
    var a, b := args.head, args.tail.head;
    ShortCode(e, st);
    HeadAgrees(e, st, env, locals);
    ShortStep(n, p, e, env, w);
    OperandsReady(e, st, env, locals);
    assert K_EQ in p.prims && p.prims[K_EQ] == PEq by { SamePrims(p, q); }
    CallTwo(n, p, K_EQ, a, b, env, w);
    SimE(n, p, q, v, st, env, locals, w, z);
    var r := Eval(n, p, v, env, w, false);
    if ProbeFor(a, st.scope).Some? {
      LiteralOperand(n, p, q, a, st.scope, st.scope, st.thaws.Keys, env, w);
    } else {
      LiteralOperand(n, p, q, b, st.scope, Flow(a, st.scope), st.thaws.Keys, env, r.w);
    }
    SimTested(n, q, t, r, CompileE(v, st).code, locals, z);
  }

  /** The two sides of a rewritten trap, once their operands and thunks are related. */
  lemma {:induction false} SimOrElse(
    n: nat, p: Prog, q: RProg, op: SymId, vs: seq<Value>, us: seq<Value>, env: Env, fallback: Expr,
    t: Value, inner: Cg, w: World, z: World)
    requires Linked(p, q) && RelAll(vs, us) && |vs| == Arity(AccessPrim(op)) && WRel(w, z)
    requires t.VCode? && t.rparam == None && CodeOf(fallback, None, env, t.code, t.locals, inner)
    requires !Watched(op, vs) && !w.drift
    ensures |us| == |vs|
    ensures Agree(OrElse(n, p, op, vs, VLam(env, None, fallback), fallback, env, w),
                  DeferredCode(n, q, OrPrim(op), us + [t], z))
    decreases n, 0
  {
    hide Linked, CodeOf, WRel, RunE, Eval, EnvRel, Attempt, ApplyCode, CompileE, Rel;
    var v := VLam(env, None, fallback);
    ThunkRel(env, fallback, t, inner);
    AttemptRel(OrPrim(op), vs + [v], us + [t], w, z);
    if n > 0 && Attempt(OrPrim(op), vs + [v], w).None? {
      RunThunk(n - 1, q, t, z);
      EnterBody(p, q, v, t, [], [], inner);
      SimE(n - 1, p, q, fallback, inner, env, t.locals, w, z);
    }
  }

  lemma {:induction false} SimTry(
    n: nat, p: Prog, q: RProg, e: Expr, st: Cg, env: Env, locals: REnv, w: World, z: World)
    requires View(e).Trap? && Linked(p, q) && Ready(e, st, env, locals) && WRel(w, z) && CompileTry(e, st).Emitted?
    requires !Rewritten(View(e).body, View(e).handler)
    ensures Agree(Eval(n, p, e, env, w, false), RunE(n, q, CompileTry(e, st).code, locals, z))
    decreases n, 2, e, 0
  {
    hide Linked, EnvRel, WRel, RunE, CodeOf, EvalArgs, EvalCond, EvalDo, CallNamed, TrapDrifts;
    hide CompileHead, CompileClosure, CellRel, Loops, CompileCond, CompileDo, BindArgs;
    assert Eval(n, p, e, env, w, false) == Step(n, p, e, env, w, false);
    var Trap(b, h) := View(e);
    var body := CompileE(b, st);
    var handler := CompileE(h, body.st);
    TryReady(e, st, env, locals);
    SimE(n, p, q, b, st, env, locals, w, z);
    var r := Eval(n, p, b, env, w, false);
    var s := RunE(n, q, body.code, locals, z);
    RunTry(n, q, body.code, handler.code, locals, z);
    if !r.w.drift && r.out.Err? && !TrapDrifts(b, h, env) {
      SimE(n, p, q, h, body.st, env, locals, r.w, s.w);
      var g := Eval(n, p, h, env, r.w, false);
      var k := RunE(n, q, handler.code, locals, s.w);
      if !g.w.drift && g.out.Ok? && n > 0 {
        assert RelAll([VErr(r.out.m)], [VErr(r.out.m)]);
        SimApplied(n - 1, p, q, g.out.v, k.out.v, [VErr(r.out.m)], [VErr(r.out.m)], g.w, k.w);
      }
    }
  }

  lemma {:induction false} SimTrap(
    n: nat, p: Prog, q: RProg, e: Expr, st: Cg, env: Env, locals: REnv, w: World, z: World)
    requires View(e).Trap? && Fit(p, q, e, st, env, locals, w, z)
    ensures SameE(n, p, q, e, st, env, locals, w, z)
    decreases n, 2, e, 1
  {
    hide Linked, EnvRel, WRel, RunE, CodeOf, Rel, Eval, CompileE, CompileTry, View;
    TrapCode(e, st);
    var Trap(b, h) := View(e);
    match TrappedAccess(b, h)
    case None => SimTry(n, p, q, e, st, env, locals, w, z);
    case Some(a) =>
      if Fits(a) {
        SimAccess(n, p, q, e, a, st, env, locals, w, z);
      } else {
        var s1 := CompileClosure(None, a.fallback, st).st;
        ThunkMoves(e, a, st);
        SoundLess(Names(e), Names(e), st, s1, env, locals);
        SimTry(n, p, q, e, s1, env, locals, w, z);
      }
  }

  lemma {:induction false} SimAccess(
    n: nat, p: Prog, q: RProg, e: Expr, a: Access, st: Cg, env: Env, locals: REnv, w: World, z: World)
    requires View(e).Trap? && Fit(p, q, e, st, env, locals, w, z)
    requires TrappedAccess(View(e).body, View(e).handler) == Some(a) && Fits(a)
    ensures SameE(n, p, q, e, st, env, locals, w, z)
    decreases n, 2, e, 0
  {
    hide Linked, EnvRel, WRel, RunE, CodeOf, Rel, Eval, CompileE, CompileClosure, View, Run, Attempt, PlainCall;
    hide DeferredCode;
    var Trap(b, h) := View(e);
    ReadyAccess(e, a, st, env, locals);
    TrapCode(e, st);
    TrapStep(n, p, e, env, w);
    ShortStep(n, p, b, env, w);
    var env' := Caught(h, env);
    TrapIsOrElse(n, p, q, b, h, a, env, w, VLam(env', None, a.fallback));
    if !Eval(n, p, e, env, w, false).w.drift {
      var us, t := RunAccess(n, p, q, e, a, st, env, locals, w, z);
      SimOrElse(n, p, q, a.op, AtomValues(a, env), us, env', a.fallback, t, Inside(None, a.fallback, st), w, z);
    }
  }

  /** A compiled function does what its defun does, however often it loops. */
  lemma {:induction false} SimFn(
    n: nat, p: Prog, q: RProg, f: SymId, vs: seq<Value>, us: seq<Value>, w: World, z: World)
    requires Linked(p, q) && f in p.defs && RelAll(vs, us) && |vs| == |p.defs[f].params| && WRel(w, z)
    requires f in q.fns && |us| == |q.fns[f].params|
    ensures Agree(Eval(n, p, p.defs[f].body, Frame(p.defs[f].params, vs), w, true),
                  RunLoop(n, q, q.fns[f], RFrame(q.fns[f].params, us), z))
    decreases n, 3
  {
    hide Linked, Wf, Loops, WRel, RunS, RunLoop, CompileTail, Eval, Ready, Rel;
    var d, fn := p.defs[f], q.fns[f];
    var k := LinkedFn(p, q, f);
    var st := AtEntry(f, d.params, k);
    FrameRel(f, d, k, vs, us);
    FrameDepth(d.params, us);
    SimTail(n, p, q, f, d.body, st, Frame(d.params, vs), RFrame(d.params, us), {}, us, w, z);
    FinishLoop(n, q, fn, RFrame(d.params, us), z);
  }

  lemma {:induction false} SimBreak(
    n: nat, p: Prog, q: RProg, f: SymId, e: Expr, st: Cg, env: Env, locals: REnv, hidden: set<SymId>,
    us: seq<Value>, w: World, z: World)
    requires TailFit(p, q, f, e, st, env, locals, hidden, us, w, z) && Breaks(View(e)) && !SelfCall(e, st)
    ensures SameTail(n, p, q, f, e, st, env, locals, w, z)
    decreases n, 2, e, 3
  {
    hide Linked, EnvRel, WRel, RunE, RunS, CodeOf, Eval, CompileE, CompileTail, View, InFn, Wf;
    BreakCode(e, st);
    TailIsPlain(n, p, e, env, w);
    SimE(n, p, q, e, st, env, locals, w, z);
    RunSBreak(n, q, CompileE(e, st).code, locals, z);
  }

  lemma {:induction false} SimTail(
    n: nat, p: Prog, q: RProg, f: SymId, e: Expr, st: Cg, env: Env, locals: REnv, hidden: set<SymId>,
    us: seq<Value>, w: World, z: World)
    requires TailFit(p, q, f, e, st, env, locals, hidden, us, w, z)
    ensures SameTail(n, p, q, f, e, st, env, locals, w, z)
    decreases n, 2, e, 5
  {
    hide Linked, EnvRel, WRel, RunS, RunE, CodeOf, Rel, Eval, CompileE, CompileTail, InFn, Wf;
    match View(e)
    case If(_, _, _) => SimTailIf(n, p, q, f, e, st, env, locals, hidden, us, w, z);
    case Let(_, _, _) => SimTailLet(n, p, q, f, e, st, env, locals, hidden, us, w, z);
    case Cond(_) => SimTailConds(n, p, q, f, e, st, env, locals, hidden, us, w, z);
    case Do(_) => SimTailDos(n, p, q, f, e, st, env, locals, hidden, us, w, z);
    case And(_, _) => SimTailAnd(n, p, q, f, e, st, env, locals, hidden, us, w, z);
    case Or(_, _) => SimTailOr(n, p, q, f, e, st, env, locals, hidden, us, w, z);
    case Typed(_) => SimTailTyped(n, p, q, f, e, st, env, locals, hidden, us, w, z);
    case _ =>
      if SelfCall(e, st) {
        SimSelfCall(n, p, q, f, e, st, env, locals, hidden, us, w, z);
      } else {
        SimBreak(n, p, q, f, e, st, env, locals, hidden, us, w, z);
      }
  }

  lemma {:induction false} SimTailTyped(
    n: nat, p: Prog, q: RProg, f: SymId, e: Expr, st: Cg, env: Env, locals: REnv, hidden: set<SymId>,
    us: seq<Value>, w: World, z: World)
    requires TailFit(p, q, f, e, st, env, locals, hidden, us, w, z) && View(e).Typed?
    ensures SameTail(n, p, q, f, e, st, env, locals, w, z)
    decreases n, 2, e, 3
  {
    hide Linked, EnvRel, WRel, RunE, RunS, CodeOf, InFn;
    PartsAreSafe(e, st.thaws.Keys);
    PartNames(e);
    assert CompileTail(e, st) == CompileTailApp(e, st);
    assert Eval(n, p, e, env, w, true) == Step(n, p, e, env, w, true);
    var a := View(e).arg;
    SoundLess(Names(e), Names(a), st, st, env, locals);
    SimTail(n, p, q, f, a, st, env, locals, hidden, us, w, z);
  }

  lemma {:induction false} SimTailIf(
    n: nat, p: Prog, q: RProg, f: SymId, e: Expr, st: Cg, env: Env, locals: REnv, hidden: set<SymId>,
    us: seq<Value>, w: World, z: World)
    requires TailFit(p, q, f, e, st, env, locals, hidden, us, w, z) && View(e).If?
    ensures SameTail(n, p, q, f, e, st, env, locals, w, z)
    decreases n, 2, e, 3
  {
    hide Linked, EnvRel, WRel, RunE, RunS, CodeOf, InFn, Wf, Safe, Eval, CompileE, CompileTail;
    hide CallNamed, KlEval.Apply, CompileHead, CompileClosure, CellRel, EvalCond, CompileCond, EvalDo;
    hide CompileDo, EvalArgs, BindArgs, CompileTry, RunLoop;
    var If(c, t, k) := View(e);
    LoopsIf(e, Some(f), st.params, st.scope, hidden);
    IfParts(e, Dom(env), st.scope, st.thaws.Keys);
    IfStep(n, p, e, env, w, true);
    TailIfCode(e, st);
    var test := CompileE(c, st);
    var tv := test.st.Fresh();
    var thn := CompileTail(t, test.st.Next());
    var els := CompileTail(k, thn.st);
    SteadyE(c, st);
    SoundLess(Names(e), Names(c), st, st, env, locals);
    SimE(n, p, q, c, st, env, locals, w, z);
    var r := Eval(n, p, c, env, w, false);
    var s := RunE(n, q, test.code, locals, z);
    RunSLet(n, q, tv, test.code, R.SIf(tv, thn.code, els.code), locals, z);
    if !r.w.drift && r.out.Ok? {
      assert TruthOf(r.out.v) == TruthOf(s.out.v) by { SameTruth(r.out.v, s.out.v); }
      var locals' := RPush(tv, Val(s.out.v), locals);
      RunSIf(n, q, tv, s.out.v, thn.code, els.code, locals, s.w);
      SoundLess(Names(e), Names(e), st, test.st, env, locals);
      SoundPast(Names(e), test.st, env, locals, tv, Val(s.out.v));
      SteadyTail(t, test.st.Next());
      SameFlow(t, Some(f), st.params, test.st.scope, hidden);
      if TruthOf(r.out.v) == Some(true) {
        SoundLess(Names(e), Names(t), test.st.Next(), test.st.Next(), env, locals');
        InDeeper(p, f, st, test.st.Next(), locals, hidden, hidden, us, tv, Val(s.out.v));
        SimTail(n, p, q, f, t, test.st.Next(), env, locals', hidden, us, r.w, s.w);
      } else if TruthOf(r.out.v) == Some(false) {
        SoundLess(Names(e), Names(k), test.st.Next(), thn.st, env, locals');
        InDeeper(p, f, st, thn.st, locals, hidden, hidden, us, tv, Val(s.out.v));
        SimTail(n, p, q, f, k, thn.st, env, locals', hidden, us, r.w, s.w);
      }
    }
  }

  lemma {:induction false} SimTailLet(
    n: nat, p: Prog, q: RProg, f: SymId, e: Expr, st: Cg, env: Env, locals: REnv, hidden: set<SymId>,
    us: seq<Value>, w: World, z: World)
    requires TailFit(p, q, f, e, st, env, locals, hidden, us, w, z) && View(e).Let?
    ensures SameTail(n, p, q, f, e, st, env, locals, w, z)
    decreases n, 2, e, 4
  {
    if Inlines(View(e).x, View(e).bound, View(e).body) {
      SimTailProc(n, p, q, f, e, st, env, locals, hidden, us, w, z);
    } else {
      SimTailBind(n, p, q, f, e, st, env, locals, hidden, us, w, z);
    }
  }

  /** A continuation that is only thawed, in tail position. */
  lemma {:induction false} SimTailProc(
    n: nat, p: Prog, q: RProg, f: SymId, e: Expr, st: Cg, env: Env, locals: REnv, hidden: set<SymId>,
    us: seq<Value>, w: World, z: World)
    requires TailFit(p, q, f, e, st, env, locals, hidden, us, w, z) && View(e).Let?
    requires Inlines(View(e).x, View(e).bound, View(e).body)
    ensures SameTail(n, p, q, f, e, st, env, locals, w, z)
    decreases n, 2, e, 3
  {
    hide Linked, EnvRel, WRel, RunE, RunS, CodeOf, InFn, Rounds, GoodRounds;
    hide CallNamed, KlEval.Apply, CompileHead, CompileClosure, CellRel, EvalCond, CompileCond, EvalDo;
    hide CompileDo, EvalArgs, BindArgs, CompileTry;
    assert CompileTail(e, st) == CompileTailApp(e, st);
    assert Eval(n, p, e, env, w, true) == Step(n, p, e, env, w, true);
    var Let(x, v, b) := View(e);
    var pb := View(v).body;
    var proc := CompileE(pb, st);
    ProcReady(e, st, env, locals);
    LoopsLet(e, Some(f), st.params, st.scope, hidden);
    var env' := Push(x, VLam(env, None, pb), env);
    var locals' := RPush(proc.st.Fresh(), Proc(proc.code, locals), locals);
    InDeeper(p, f, st, EnterProc(proc.st, x), locals, hidden, hidden, us, proc.st.Fresh(), Proc(proc.code, locals));
    SimTail(n, p, q, f, b, EnterProc(proc.st, x), env', locals', hidden, us, w, z);
    assert Eval(n, p, v, env, w, false) == Done(VLam(env, None, pb), w);
    RunSProc(n, q, proc.st.Fresh(), proc.code, CompileTail(b, EnterProc(proc.st, x)).code, locals, z);
  }

  lemma {:induction false} SimTailBind(
    n: nat, p: Prog, q: RProg, f: SymId, e: Expr, st: Cg, env: Env, locals: REnv, hidden: set<SymId>,
    us: seq<Value>, w: World, z: World)
    requires TailFit(p, q, f, e, st, env, locals, hidden, us, w, z) && View(e).Let?
    requires !Inlines(View(e).x, View(e).bound, View(e).body)
    ensures SameTail(n, p, q, f, e, st, env, locals, w, z)
    decreases n, 2, e, 3
  {
    hide Linked, EnvRel, WRel, RunE, RunS, CodeOf, InFn, Rounds, GoodRounds;
    hide CallNamed, KlEval.Apply, CompileHead, CompileClosure, CellRel, EvalCond, CompileCond, EvalDo;
    hide CompileDo, EvalArgs, BindArgs, CompileTry;
    PartNames(e);
    assert CompileTail(e, st) == CompileTailApp(e, st);
    assert Eval(n, p, e, env, w, true) == Step(n, p, e, env, w, true);
    var Let(x, v, b) := View(e);
    LoopsLet(e, Some(f), st.params, st.scope, hidden);
    ProcIsSafe(e, st.thaws.Keys);
    var bound := CompileE(v, st);
    SteadyE(v, st);
    SoundLess(Names(e), Names(v), st, st, env, locals);
    SimE(n, p, q, v, st, env, locals, w, z);
    var r := Eval(n, p, v, env, w, false);
    var s := RunE(n, q, bound.code, locals, z);
    RunSLet(n, q, R.V(x), bound.code, CompileTail(b, bound.st.Bind(x)).code, locals, z);
    if !r.w.drift && r.out.Ok? {
      SoundLess(Names(e), Names(e), st, bound.st, env, locals);
      SoundLet(Names(e), bound.st, env, locals, x, r.out.v, s.out.v);
      var env' := Push(x, r.out.v, env);
      var locals' := RPush(R.V(x), Val(s.out.v), locals);
      SoundLess(Names(e) + {x}, Names(b), bound.st.Bind(x), bound.st.Bind(x), env', locals');
      InDeeper(p, f, st, bound.st.Bind(x), locals, hidden, hidden + {x}, us, R.V(x), Val(s.out.v));
      SimTail(n, p, q, f, b, bound.st.Bind(x), env', locals', hidden + {x}, us, r.w, s.w);
    }
  }

  lemma {:induction false} SimTailConds(
    n: nat, p: Prog, q: RProg, f: SymId, e: Expr, st: Cg, env: Env, locals: REnv, hidden: set<SymId>,
    us: seq<Value>, w: World, z: World)
    requires TailFit(p, q, f, e, st, env, locals, hidden, us, w, z) && View(e).Cond?
    ensures SameTail(n, p, q, f, e, st, env, locals, w, z)
    decreases n, 2, e, 3
  {
    hide Linked, EnvRel, WRel, RunE, RunS, CodeOf, InFn;
    PartsAreSafe(e, st.thaws.Keys);
    PartNames(e);
    assert CompileTail(e, st) == CompileTailApp(e, st);
    assert Eval(n, p, e, env, w, true) == Step(n, p, e, env, w, true);
    var cs := View(e).clauses;
    SoundLess(Names(e), NamesOf(cs), st, st, env, locals);
    SimTailCond(n, p, q, f, cs, st, env, locals, hidden, us, w, z);
  }

  lemma {:induction false} SimTailCond(
    n: nat, p: Prog, q: RProg, f: SymId, cs: List<Expr>, st: Cg, env: Env, locals: REnv, hidden: set<SymId>,
    us: seq<Value>, w: World, z: World)
    requires Linked(p, q) && InFn(p, f, st, locals, hidden, us) && f in q.fns
    requires LoopsClauses(cs, Some(f), st.params, st.scope, hidden)
    requires ReadyClauses(cs, st, env, locals) && CompileTailCond(cs, st).Emitted? && WRel(w, z)
    ensures Agree(EvalCond(n, p, cs, env, w, true),
                  Finish(n, q, q.fns[f], RunS(n, q, CompileTailCond(cs, st).code, locals, z)))
    decreases n, 2, cs, 0
  {
    hide Wf, Safe, Eval, CompileE, CompileTail, Loops, Flow, Rel, GoodRounds;
    hide Linked, EnvRel, WRel, RunE, CodeOf, InFn, RunBinds, RunLoop;
    hide CallNamed, KlEval.Apply, CompileHead, CompileClosure, CellRel, EvalDo, CompileDo, EvalArgs, BindArgs;
    hide CompileTry;
    match cs
    case Empty =>
    case Cons(App(Cons(t, Cons(v, Empty))), rest) =>
      NamesEach(cs.head.items, Names(cs.head));
      ClauseParts(t, v, rest, st.thaws.Keys);
      var others := CompileTailCond(rest, st);
      var test := CompileE(t, others.st);
      var action := CompileTail(v, test.st);
      assert st.self == Some(f) by { InItself(p, f, st, locals, hidden, us); }
      LoopsClause(cs, t, v, Some(f), st.params, st.scope, hidden);
      SameFlowClauses(rest, Some(f), st.params, st.scope, hidden);
      SteadyTailCond(rest, st);
      SteadyE(t, others.st);
      SteadyTail(v, test.st);
      SoundLess(NamesOf(cs), Names(t), st, others.st, env, locals);
      SimE(n, p, q, t, others.st, env, locals, w, z);
      var r := Eval(n, p, t, env, w, false);
      var s := RunE(n, q, test.code, locals, z);
      var tv := action.st.Fresh();
      RunSLet(n, q, tv, test.code, R.SIf(tv, action.code, others.code), locals, z);
      if !r.w.drift && r.out.Ok? {
        SameTruth(r.out.v, s.out.v);
        var locals' := RPush(tv, Val(s.out.v), locals);
        RunSIf(n, q, tv, s.out.v, action.code, others.code, locals, s.w);
        if TruthOf(r.out.v) == Some(true) {
          SoundLess(NamesOf(cs), Names(v), st, test.st, env, locals);
          SoundTemp(Names(v), test.st, env, locals, tv, Val(s.out.v));
          InDeeper(p, f, st, test.st, locals, hidden, hidden, us, tv, Val(s.out.v));
          SimTail(n, p, q, f, v, test.st, env, locals', hidden, us, r.w, s.w);
        } else if TruthOf(r.out.v) == Some(false) {
          SoundLess(NamesOf(cs), NamesOf(rest), st, st, env, locals);
          SoundTemp(NamesOf(rest), st, env, locals, tv, Val(s.out.v));
          InDeeper(p, f, st, st, locals, hidden, hidden, us, tv, Val(s.out.v));
          SimTailCond(n, p, q, f, rest, st, env, locals', hidden, us, r.w, s.w);
        }
      }
    case _ =>
  }

  lemma {:induction false} SimTailDos(
    n: nat, p: Prog, q: RProg, f: SymId, e: Expr, st: Cg, env: Env, locals: REnv, hidden: set<SymId>,
    us: seq<Value>, w: World, z: World)
    requires TailFit(p, q, f, e, st, env, locals, hidden, us, w, z) && View(e).Do?
    ensures SameTail(n, p, q, f, e, st, env, locals, w, z)
    decreases n, 2, e, 3
  {
    hide Linked, EnvRel, WRel, RunE, RunS, CodeOf, InFn;
    PartsAreSafe(e, st.thaws.Keys);
    PartNames(e);
    assert CompileTail(e, st) == CompileTailApp(e, st);
    assert Eval(n, p, e, env, w, true) == Step(n, p, e, env, w, true);
    var es := View(e).es;
    SoundLess(Names(e), NamesOf(es), st, st, env, locals);
    SimTailDo(n, p, q, f, es, st, env, locals, hidden, us, w, z);
  }

  lemma {:induction false} SimTailDo(
    n: nat, p: Prog, q: RProg, f: SymId, es: List<Expr>, st: Cg, env: Env, locals: REnv, hidden: set<SymId>,
    us: seq<Value>, w: World, z: World)
    requires Linked(p, q) && InFn(p, f, st, locals, hidden, us) && f in q.fns
    requires LoopsLast(es, Some(f), st.params, st.scope, hidden)
    requires ReadyAll(es, st, env, locals) && CompileTailDo(es, st).Emitted? && WRel(w, z)
    ensures Agree(EvalDo(n, p, es, env, w, true),
                  Finish(n, q, q.fns[f], RunS(n, q, CompileTailDo(es, st).code, locals, z)))
    decreases n, 2, es, 0
  {
    hide Wf, Eval, CompileE, CompileTail, Rounds, GoodRounds, Flow;
    hide Linked, EnvRel, WRel, RunE, CodeOf, InFn, RunBinds, RunLoop, Rel;
    hide CallNamed, KlEval.Apply, CompileHead, CompileClosure, CellRel, EvalCond, CompileCond, EvalArgs;
    hide BindArgs, CompileTry;
    match es
    case Empty => QuoteRel(Nil); RunSBreak(n, q, R.Lit(Nil), locals, z); RunLit(n, q, Nil, locals, z);
    case Cons(e, rest) =>
      SoundLess(NamesOf(es), Names(e), st, st, env, locals);
      if rest.Empty? {
        SimTail(n, p, q, f, e, st, env, locals, hidden, us, w, z);
      } else {
        var first := CompileE(e, st);
        SimE(n, p, q, e, st, env, locals, w, z);
        SteadyE(e, st);
        var others := CompileTailDo(rest, first.st);
        var r := Eval(n, p, e, env, w, false);
        var s := RunE(n, q, first.code, locals, z);
        RunSLet(n, q, R.Wild, first.code, others.code, locals, z);
        if !r.w.drift && r.out.Ok? {
          SoundLess(NamesOf(es), NamesOf(rest), st, first.st, env, locals);
          InSteady(p, f, st, first.st, locals, hidden, us);
          SimTailDo(n, p, q, f, rest, first.st, env, locals, hidden, us, r.w, s.w);
        }
      }
  }

  lemma {:induction false} SimTailAnd(
    n: nat, p: Prog, q: RProg, f: SymId, e: Expr, st: Cg, env: Env, locals: REnv, hidden: set<SymId>,
    us: seq<Value>, w: World, z: World)
    requires TailFit(p, q, f, e, st, env, locals, hidden, us, w, z) && View(e).And?
    ensures SameTail(n, p, q, f, e, st, env, locals, w, z)
    decreases n, 2, e, 3
  {
    hide Wf, Safe, Eval, Flow, Rel, CompileE;
    hide Linked, EnvRel, WRel, RunE, RunS, CodeOf, InFn;
    hide CallNamed, KlEval.Apply, CompileHead, CompileClosure, CellRel, EvalCond, CompileCond, EvalDo;
    hide CompileDo, EvalArgs, BindArgs, CompileTry;
    BothParts(e, Dom(env), st.scope, st.thaws.Keys);
    BothStep(n, p, e, env, w, true);
    assert CompileTail(e, st) == CompileTailApp(e, st);
    var And(a, b) := View(e);
    var first := CompileE(a, st);
    var av := first.st.Fresh();
    var second := CompileTail(b, first.st.Next());
    var settled := R.Break(R.Lit(Bool(false)));
    SteadyE(a, st);
    SoundLess(Names(e), Names(a), st, st, env, locals);
    SimE(n, p, q, a, st, env, locals, w, z);
    var r := Eval(n, p, a, env, w, false);
    var s := RunE(n, q, first.code, locals, z);
    RunSLet(n, q, av, first.code, R.SIf(av, second.code, settled), locals, z);
    if !r.w.drift && r.out.Ok? {
      SameTruth(r.out.v, s.out.v);
      QuoteRel(Bool(false));
      var locals' := RPush(av, Val(s.out.v), locals);
      RunSIf(n, q, av, s.out.v, second.code, settled, locals, s.w);
      RunSBreak(n, q, R.Lit(Bool(false)), locals', s.w);
      RunLit(n, q, Bool(false), locals', s.w);
      if Holds(r, true) {
        SoundLess(Names(e), Names(b), st, first.st, env, locals);
        SoundPast(Names(b), first.st, env, locals, av, Val(s.out.v));
        InDeeper(p, f, st, first.st.Next(), locals, hidden, hidden, us, av, Val(s.out.v));
        SimTail(n, p, q, f, b, first.st.Next(), env, locals', hidden, us, r.w, s.w);
      }
    }
  }

  lemma {:induction false} SimTailOr(
    n: nat, p: Prog, q: RProg, f: SymId, e: Expr, st: Cg, env: Env, locals: REnv, hidden: set<SymId>,
    us: seq<Value>, w: World, z: World)
    requires TailFit(p, q, f, e, st, env, locals, hidden, us, w, z) && View(e).Or?
    ensures SameTail(n, p, q, f, e, st, env, locals, w, z)
    decreases n, 2, e, 3
  {
    hide Wf, Safe, Eval, Flow, Rel, CompileE;
    hide Linked, EnvRel, WRel, RunE, RunS, CodeOf, InFn;
    hide CallNamed, KlEval.Apply, CompileHead, CompileClosure, CellRel, EvalCond, CompileCond, EvalDo;
    hide CompileDo, EvalArgs, BindArgs, CompileTry;
    BothParts(e, Dom(env), st.scope, st.thaws.Keys);
    BothStep(n, p, e, env, w, true);
    assert CompileTail(e, st) == CompileTailApp(e, st);
    var Or(a, b) := View(e);
    var first := CompileE(a, st);
    var av := first.st.Fresh();
    var second := CompileTail(b, first.st.Next());
    var settled := R.Break(R.Lit(Bool(true)));
    SteadyE(a, st);
    SoundLess(Names(e), Names(a), st, st, env, locals);
    SimE(n, p, q, a, st, env, locals, w, z);
    var r := Eval(n, p, a, env, w, false);
    var s := RunE(n, q, first.code, locals, z);
    RunSLet(n, q, av, first.code, R.SIf(av, settled, second.code), locals, z);
    if !r.w.drift && r.out.Ok? {
      SameTruth(r.out.v, s.out.v);
      QuoteRel(Bool(true));
      var locals' := RPush(av, Val(s.out.v), locals);
      RunSIf(n, q, av, s.out.v, settled, second.code, locals, s.w);
      RunSBreak(n, q, R.Lit(Bool(true)), locals', s.w);
      RunLit(n, q, Bool(true), locals', s.w);
      if Holds(r, false) {
        SoundLess(Names(e), Names(b), st, first.st, env, locals);
        SoundPast(Names(b), first.st, env, locals, av, Val(s.out.v));
        InDeeper(p, f, st, first.st.Next(), locals, hidden, hidden, us, av, Val(s.out.v));
        SimTail(n, p, q, f, b, first.st.Next(), env, locals', hidden, us, r.w, s.w);
      }
    }
  }

  /** A self-call assigns the parameters and goes round the loop. */
  lemma {:induction false} SimSelfCall(
    n: nat, p: Prog, q: RProg, f: SymId, e: Expr, st: Cg, env: Env, locals: REnv, hidden: set<SymId>,
    us: seq<Value>, w: World, z: World)
    requires TailFit(p, q, f, e, st, env, locals, hidden, us, w, z) && SelfCall(e, st)
    ensures SameTail(n, p, q, f, e, st, env, locals, w, z)
    decreases n, 2, e, 3
  {
    hide Linked, EnvRel, WRel, RunE, RunS, CodeOf, Rel, RunLoop, RunBinds, Over;
    SelfIsGood(e, Some(f), st.params, st.scope, hidden);
    var args := View(e).args;
    PartsAreSafe(e, st.thaws.Keys);
    PartNames(e);
    SelfCode(e, st);
    SelfStep(n, p, e, st, env, locals, w);
    SoundLess(Names(e), NamesOf(args), st, st, env, locals);
    SimArgs(n, p, q, args, st, env, locals, w, z);
    var binds := BindArgs(args, st);
    ArgsAreTemps(args, st);
    var a, b := EvalArgs(n, p, args, env, w), RunBinds(n, q, binds.code.0, locals, z);
    RunSBlock(n, q, binds.code.0, R.Continue(R.Locals(st.params), binds.code.1), locals, z);
    BindsStay(n, q, binds.code.0, locals, z, |st.params|);
    if a.Args? && !a.w.drift {
      OverIff(b.env, st.params, us);
      SimRound(n, p, q, f, st, a.vs, binds.code.1, b.env, us, a.w, b.w);
    }
  }

  /** Once the arguments are in their temporaries. */
  lemma {:induction false} SimRound(
    n: nat, p: Prog, q: RProg, f: SymId, st: Cg, vs: seq<Value>, xs: seq<R.RVar>, locals: REnv, us: seq<Value>,
    w: World, z: World)
    requires Linked(p, q) && f in p.defs && f in q.fns && st.params == p.defs[f].params
    requires Over(locals, st.params, us) && AllTemps(xs) && |xs| == |st.params| && WRel(w, z)
    requires GetAll(locals, xs).Some? && RelAll(vs, GetAll(locals, xs).value)
    ensures Defined(p, f)
    ensures Agree(CallNamed(n, p, f, vs, w),
                  Finish(n, q, q.fns[f], RunS(n, q, R.Continue(R.Locals(st.params), xs), locals, z)))
    decreases n, 1, 1
  {
    hide WRel, Rel, RunLoop, CallNamed, Saturated, Eval, WfDef, Linked, Over, RunS, Finish;
    var new' := GetAll(locals, xs).value;
    var k := LinkedFn(p, q, f);
    NoClash(p, q, f);
    SameLength(vs, new');
    RoundRun(n, q, q.fns[f], xs, locals, us, new', z);
    NamedShape(n, p, f, vs, w);
    if n > 0 {
      LogRel(w, z, f, vs, new');
      SimFn(n - 1, p, q, f, vs, new', Log(w, f, vs), Log(z, f, new'));
    }
  }
}
