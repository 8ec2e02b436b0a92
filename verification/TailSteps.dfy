/** Statements in tail position, and the function whose loop they belong to. */
module TailSteps {
  import opened Lists
  import opened Kl
  import opened Machine
  import R = RustIr
  import opened KlEval
  import opened RustRun
  import opened Codegen
  import opened CodegenState
  import opened Related
  import opened Simulation
  import opened Frames
  import opened SimSteps

  /** How the loop goes on from the end of one round. */
  function Finish(n: nat, q: RProg, fn: R.RFn, r: StmtRes): Res
  {
    match r
    case Leave(s) => s
    case Again(env, w) =>
      if n == 0 then Res(Timeout, w) else
      var frame := Outermost(env, |fn.params|);
      match GetAll(frame, R.Locals(fn.params))
      case None => IllFormed(w)
      case Some(args) => RunLoop(n - 1, q, fn, frame, Log(w, fn.name, args))
  }

  /**
   A statement of the function compiled from the defun `f`, whose parameters hold `us`; `hidden` are
   the names that `let`s of the function have bound since.
   */
  predicate InFn(p: Prog, f: SymId, st: Cg, locals: REnv, hidden: set<SymId>, us: seq<Value>)
  {
    && f in p.defs && st.self == Some(f) && st.params == p.defs[f].params
    && |us| == |st.params| <= Depth(locals)
    && Outermost(locals, |st.params|) == RFrame(st.params, us) && Hiding(locals, |st.params|) == hidden
  }

  lemma {:induction false} InItself(p: Prog, f: SymId, st: Cg, locals: REnv, hidden: set<SymId>, us: seq<Value>)
    requires InFn(p, f, st, locals, hidden, us)
    ensures st.self == Some(f)
  {
  }

  lemma {:induction false} InDeeper(
    p: Prog, f: SymId, st: Cg, st': Cg, locals: REnv, hidden: set<SymId>, hidden': set<SymId>, us: seq<Value>,
    x: R.RVar, c: Cell)
    requires InFn(p, f, st, locals, hidden, us) && hidden' == hidden + NameOf(x)
    requires st'.self == st.self && st'.params == st.params
    ensures InFn(p, f, st', RPush(x, c, locals), hidden', us)
  {
  }

  ghost predicate SameTail(
    n: nat, p: Prog, q: RProg, f: SymId, e: Expr, st: Cg, env: Env, locals: REnv, w: World, z: World)
    requires CompileTail(e, st).Emitted? && f in q.fns
  {
    Agree(Eval(n, p, e, env, w, true), Finish(n, q, q.fns[f], RunS(n, q, CompileTail(e, st).code, locals, z)))
  }

  ghost predicate TailFit(
    p: Prog, q: RProg, f: SymId, e: Expr, st: Cg, env: Env, locals: REnv, hidden: set<SymId>, us: seq<Value>,
    w: World, z: World)
  {
    && Linked(p, q) && InFn(p, f, st, locals, hidden, us) && f in q.fns
    && Loops(e, Some(f), st.params, st.scope, hidden)
    && Ready(e, st, env, locals) && CompileTail(e, st).Emitted? && WRel(w, z)
  }

  lemma {:induction false} LinkedFn(p: Prog, q: RProg, f: SymId) returns (k: nat)
    requires Linked(p, q) && f in p.defs
    ensures f in q.fns && WfDef(f, p.defs[f]) && q.fns[f].params == p.defs[f].params && q.fns[f].name == f
    ensures var body := CompileTail(p.defs[f].body, AtEntry(f, p.defs[f].params, k));
            body.Emitted? && body.code == q.fns[f].body
  {
    hide CompileTail, WfDef;
    assert FnOf(f, p.defs[f], q.fns[f]);
    k :| CompilesTo(f, p.defs[f], k, q.fns[f]);
  }

  lemma {:induction false} FinishLoop(n: nat, q: RProg, fn: R.RFn, locals: REnv, z: World)
    ensures RunLoop(n, q, fn, locals, z) == Finish(n, q, fn, RunS(n, q, fn.body, locals, z))
  {
    hide RunS;
  }

  lemma {:induction false} RunSLet(n: nat, q: RProg, x: R.RVar, c: R.RExpr, s: R.RStmt, env: REnv, w: World)
    ensures var r := RunE(n, q, c, env, w);
            RunS(n, q, R.SBlock(One(x, c), s), env, w) ==
            if !r.out.Ok? then Leave(r)
            else RunS(n, q, s, if x == R.Wild then env else RPush(x, Val(r.out.v), env), r.w)
  {
    hide RunE;
    var r := RunE(n, q, c, env, w);
    BindOne(n, q, x, c, Empty, env, w);
    if r.out.Ok? { BindNone(n, q, if x == R.Wild then env else RPush(x, Val(r.out.v), env), r.w); }
  }

  lemma {:induction false} RunSIf(n: nat, q: RProg, t: R.RVar, v: Value, a: R.RStmt, b: R.RStmt, env: REnv, w: World)
    ensures RunS(n, q, R.SIf(t, a, b), RPush(t, Val(v), env), w) ==
            match TruthOf(v)
            case None => Leave(Raise(w))
            case Some(yes) => RunS(n, q, if yes then a else b, RPush(t, Val(v), env), w)
  {
    hide RunE;
  }

  lemma {:induction false} RunSBreak(n: nat, q: RProg, c: R.RExpr, env: REnv, w: World)
    ensures RunS(n, q, R.Break(c), env, w) == Leave(RunE(n, q, c, env, w))
  {
    hide RunE;
  }

  lemma {:induction false} RunSProc(n: nat, q: RProg, go: R.RVar, code: R.RExpr, s: R.RStmt, env: REnv, w: World)
    ensures RunS(n, q, R.SLetProc(go, code, s), env, w) == RunS(n, q, s, RPush(go, Proc(code, env), env), w)
  {
    hide RunE;
  }

  lemma {:induction false} TailIsPlain(n: nat, p: Prog, e: Expr, env: Env, w: World)
    requires Breaks(View(e))
    ensures Eval(n, p, e, env, w, true) == Eval(n, p, e, env, w, false)
  {
    hide EvalArgs, CallNamed, TrapDrifts, AtomValue;
    if e.App? {
      assert Eval(n, p, e, env, w, false) == Step(n, p, e, env, w, false);
      assert Eval(n, p, e, env, w, true) == Step(n, p, e, env, w, true);
    }
  }

  lemma {:induction false} BreakCode(e: Expr, st: Cg)
    requires Breaks(View(e)) && !SelfCall(e, st) && CompileTail(e, st).Emitted?
    ensures CompileE(e, st).Emitted? && CompileTail(e, st).code == R.Break(CompileE(e, st).code)
  {
    hide CompileE, BindArgs, CompileTailCond, CompileTailDo;
    assert CompileTail(e, st) == CompileBreak(e, st);
  }

  lemma {:induction false} InSteady(
    p: Prog, f: SymId, st: Cg, st': Cg, locals: REnv, hidden: set<SymId>, us: seq<Value>)
    requires InFn(p, f, st, locals, hidden, us) && Steady(st, st')
    ensures InFn(p, f, st', locals, hidden, us)
  {
  }

  lemma {:induction false} RunSBlock(n: nat, q: RProg, bs: List<R.Bind>, s: R.RStmt, env: REnv, w: World)
    ensures RunS(n, q, R.SBlock(bs, s), env, w) ==
            match RunBinds(n, q, bs, env, w)
            case Halt(r) => Leave(r)
            case Bound(env', w') => RunS(n, q, s, env', w')
  {
    hide RunBinds;
  }

  lemma {:induction false} SelfCode(e: Expr, st: Cg)
    requires SelfCall(e, st) && CompileTail(e, st).Emitted?
    ensures var binds := BindArgs(e.items.tail, st);
            && binds.Emitted?
            && CompileTail(e, st).code == R.SBlock(binds.code.0, R.Continue(R.Locals(st.params), binds.code.1))
  {
    hide CompileE, BindArgs, CompileTailCond, CompileTailDo, CompileBreak;
    assert CompileTail(e, st) == CompileTailApp(e, st);
  }

  lemma {:induction false} SelfStep(n: nat, p: Prog, e: Expr, st: Cg, env: Env, locals: REnv, w: World)
    requires View(e).Call? && SelfCall(e, st) && Ready(e, st, env, locals)
    ensures Eval(n, p, e, env, w, true) == PlainCall(n, p, View(e).head, View(e).args, env, w)
  {
    hide Ready, PlainCall;
    HeadAgrees(e, st, env, locals);
    ShortStep(n, p, e, env, w);
    TailIsPlain(n, p, e, env, w);
  }

  lemma {:induction false} NoClash(p: Prog, q: RProg, f: SymId)
    requires Linked(p, q) && f in p.defs
    ensures f !in p.prims && Distinct(p.defs[f].params)
  {
    hide Wf, CompilesTo;
    assert FnOf(f, p.defs[f], q.fns[f]);
  }

  /** The code of an `if` in tail position. */
  lemma {:induction false} TailIfCode(e: Expr, st: Cg)
    requires View(e).If? && CompileTail(e, st).Emitted?
    ensures var If(c, t, f) := View(e);
            var test := CompileE(c, st);
            test.Emitted? &&
            var thn := CompileTail(t, test.st.Next());
            thn.Emitted? && CompileTail(f, thn.st).Emitted? &&
            CompileTail(e, st).code ==
              R.SBlock(One(test.st.Fresh(), test.code),
                       R.SIf(test.st.Fresh(), thn.code, CompileTail(f, thn.st).code))
  {
    hide CompileE, CompileTailCond, CompileTailDo;
    assert CompileTail(e, st) == CompileTailApp(e, st);
  }

  /** A round that ends with new values for the parameters goes on with them. */
  lemma {:induction false} RoundRun(
    n: nat, q: RProg, fn: R.RFn, xs: seq<R.RVar>, locals: REnv, us: seq<Value>, new': seq<Value>, z: World)
    requires Over(locals, fn.params, us) && Distinct(fn.params) && AllTemps(xs) && |xs| == |fn.params| == |new'|
    requires GetAll(locals, xs) == Some(new')
    ensures Finish(n, q, fn, RunS(n, q, R.Continue(R.Locals(fn.params), xs), locals, z)) ==
            if n == 0 then Res(Timeout, z)
            else RunLoop(n - 1, q, fn, RFrame(fn.params, new'), Log(z, fn.name, new'))
  {
    hide RunLoop, Over;
    AssignEach(locals, fn.params, 0, xs, us, new');
    assert R.Locals(fn.params)[0..] == R.Locals(fn.params);
    OutermostOver(AssignAll(locals, R.Locals(fn.params), xs, |fn.params|).value, fn.params, new');
    FrameArgs(fn.params, new');
  }
}
