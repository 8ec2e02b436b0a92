/** The trap-error rewrite: a trapped access against an access with a thunk to fall back on. */
module TrapSteps {
  import opened Lists
  import opened Kl
  import opened Machine
  import R = RustIr
  import opened KlEval
  import opened RustRun
  import opened Codegen
  import opened CodegenState
  import opened Related
  import opened Simulation
  import opened Frames
  import opened SimSteps

  /** The primitive behind a trapped access, and the one that takes its fallback as a thunk. */
  function AccessPrim(op: SymId): (r: Prim)
    ensures !Deferring(r) && 1 <= Arity(r) <= 2
  {
    if op == K_VALUE then PValue else if op == K_ADDRESS then PAddress else PVectorRef
  }

  function OrPrim(op: SymId): (r: Prim)
    ensures Deferring(r) && Arity(r) == Arity(AccessPrim(op)) + 1
  {
    if op == K_VALUE then PValueOr else if op == K_ADDRESS then PAddressOr else PVectorOr
  }

  /** `value` of a boolean symbol is not compared: the engines may hold either form of it. */
  predicate Watched(op: SymId, vs: seq<Value>)
  {
    op == K_VALUE && vs != [] && TruthOf(vs[0]).Some?
  }

  /**
   Where an access fails, and only there, its `/or` form calls the thunk; elsewhere both give the
   same value. `value/or` does so only for symbols: it rejects other operands itself.
   */
  lemma {:induction false} AccessOrElse(op: SymId, vs: seq<Value>, thunk: Value, w: World)
    requires IsAccess(op) && |vs| == Arity(AccessPrim(op)) && !Watched(op, vs)
    ensures var r := Run(AccessPrim(op), vs, w);
            r.w == w && (r.out.Ok? || r.out == Err(Runtime))
    ensures var r, a := Run(AccessPrim(op), vs, w), Attempt(OrPrim(op), vs + [thunk], w);
            if op == K_VALUE && !vs[0].VSym? then r.out.Err? && a == Some(r)
            else if r.out.Ok? then a == Some(r) else a == None
  {
  }

  /** A trap whose handler is a lambda. */
  function Trapped(n: nat, p: Prog, b: Expr, h: Expr, env: Env, w: World): Res
    requires View(h).Lambda?
  {
    var r := Eval(n, p, b, env, w, false);
    var w' := if TrapDrifts(b, h, env) then Drifted(r.w) else r.w;
    if !r.out.Err? then r else
    if n == 0 then Res(Timeout, w')
    else Eval(n - 1, p, View(h).body, Push(View(h).x, VErr(r.out.m), env), w', false)
  }

  lemma {:induction false} TrapStep(n: nat, p: Prog, e: Expr, env: Env, w: World)
    requires View(e).Trap? && View(View(e).handler).Lambda?
    ensures Eval(n, p, e, env, w, false) == Trapped(n, p, View(e).body, View(e).handler, env, w)
  {
    hide TrapDrifts, EvalArgs, EvalCond, EvalDo, CallNamed;
    var Trap(b, h) := View(e);
    var r := Eval(n, p, b, env, w, false);
    var w' := if TrapDrifts(b, h, env) then Drifted(r.w) else r.w;
    assert Eval(n, p, e, env, w, false) == Step(n, p, e, env, w, false);
    assert Eval(n, p, h, env, w', false) == Step(n, p, h, env, w', false)
        == Done(VLam(env, Some(View(h).x), View(h).body), w');
    if n > 0 && r.out.Err? { ApplyLam(n - 1, p, env, Some(View(h).x), View(h).body, [VErr(r.out.m)], w'); }
  }

  function AtomValues(a: Access, env: Env): (r: seq<Value>)
    requires Fits(a)
    ensures |r| == Arity(AccessPrim(a.op))
  {
    if a.op == K_VALUE then [AtomValue(a.operands.head, env)]
    else [AtomValue(a.operands.head, env), AtomValue(a.operands.tail.head, env)]
  }

  /** A trapped access, as the `/or` form sees it. */
  function OrElse(n: nat, p: Prog, op: SymId, vs: seq<Value>, thunk: Value, fallback: Expr, env: Env, w: World): Res
    requires |vs| == Arity(AccessPrim(op))
  {
    match Attempt(OrPrim(op), vs + [thunk], w)
    case Some(r) => r
    case None => if n == 0 then Res(Timeout, w) else Eval(n - 1, p, fallback, env, w, false)
  }

  lemma {:induction false} WatchedDrifts(op: SymId, vs: seq<Value>, w: World)
    requires |vs| == Arity(AccessPrim(op)) && Watched(op, vs)
    ensures Run(AccessPrim(op), vs, w).w.drift
  {
  }

  lemma {:induction false} AccessPrims(p: Prog, q: RProg, op: SymId)
    requires Linked(p, q) && IsAccess(op)
    ensures op in p.prims && p.prims[op] == AccessPrim(op)
    ensures OrName(op) in q.prims && q.prims[OrName(op)] == OrPrim(op)
  {
    hide FnOf;
  }

  lemma {:induction false} AccessCall(n: nat, p: Prog, a: Access, env: Env, w: World)
    requires a.op in p.prims && p.prims[a.op] == AccessPrim(a.op) && Fits(a) && Atomic(a.operands)
    ensures PlainCall(n, p, a.op, a.operands, env, w) == Run(AccessPrim(a.op), AtomValues(a, env), w)
  {
    hide Run, PlainCall, Eval, AtomValue;
    var first := a.operands.head;
    EvalAtom(n, p, first, env, w);
    if a.op == K_VALUE {
      CallOne(n, p, a.op, first, env, w);
    } else {
      var second := a.operands.tail.head;
      OperandsAreAtoms(a);
      EvalAtom(n, p, second, env, w);
      CallTwo(n, p, a.op, first, second, env, w);
    }
  }

  /** A trapped access that does not drift is an access with a thunk to fall back on. */
  lemma {:induction false} TrapIsOrElse(
    n: nat, p: Prog, q: RProg, b: Expr, h: Expr, a: Access, env: Env, w: World, thunk: Value)
    requires Linked(p, q) && TrappedAccess(b, h) == Some(a) && Fits(a)
    requires Eval(n, p, b, env, w, false) == PlainCall(n, p, a.op, a.operands, env, w)
    ensures var r := Trapped(n, p, b, h, env, w);
            var vs := AtomValues(a, env);
            r.w.drift ||
            (!Watched(a.op, vs) && !w.drift &&
             r == OrElse(n, p, a.op, vs, thunk, a.fallback, Push(View(h).x, VErr(Runtime), env), w))
  {
    hide Linked, Eval, Run, Attempt, PlainCall, AtomValue;
    var vs := AtomValues(a, env);
    AccessPrims(p, q, a.op);
    AccessCall(n, p, a, env, w);
    if Watched(a.op, vs) { WatchedDrifts(a.op, vs, w); } else { AccessOrElse(a.op, vs, thunk, w); }
  }

  /** With a symbol that is no boolean for `value`, and anything for the others, only the fallback can drift. */
  lemma {:induction false} TrapKeeps(
    n: nat, p: Prog, q: RProg, b: Expr, h: Expr, a: Access, env: Env, w: World)
    requires Linked(p, q) && TrappedAccess(b, h) == Some(a) && Fits(a)
    requires Eval(n, p, b, env, w, false) == PlainCall(n, p, a.op, a.operands, env, w)
    requires a.op == K_VALUE ==> AtomValues(a, env)[0].VSym? && TruthOf(AtomValues(a, env)[0]).None?
    ensures var r := Run(AccessPrim(a.op), AtomValues(a, env), w);
            && r.w == w
            && Trapped(n, p, b, h, env, w) ==
               if r.out.Ok? then r
               else if n == 0 then Res(Timeout, w)
               else Eval(n - 1, p, a.fallback, Push(View(h).x, VErr(Runtime), env), w, false)
  {
    hide Linked, Eval, Run, Attempt, PlainCall, AtomValue;
    AccessPrims(p, q, a.op);
    AccessCall(n, p, a, env, w);
    AccessOrElse(a.op, AtomValues(a, env), VNil, w);
  }

  lemma {:induction false} ThunkRel(env: Env, body: Expr, t: Value, st: Cg)
    requires t.VCode? && t.rparam == None && CodeOf(body, None, env, t.code, t.locals, st)
    ensures Rel(VLam(env, None, body), t)
  {
    hide CodeOf;
  }

  lemma {:induction false} RunThunk(n: nat, q: RProg, t: Value, z: World)
    requires t.VCode? && t.rparam == None
    ensures ApplyCode(n, q, t, [], z) == RunE(n, q, t.code, t.locals, z)
  {
    hide RunE;
  }

  /** A name that is not mentioned may be bound to anything. */
  lemma {:induction false} SoundIgnores(ns: set<SymId>, st: Cg, env: Env, locals: REnv, x: SymId, v: Value)
    requires Sound(ns, st, env, locals) && x !in ns
    ensures Sound(ns, st, Push(x, v, env), locals)
  {
    hide CellRel;
    forall y | y in ns ensures Lookup(Push(x, v, env), y) == Lookup(env, y) {}
  }

  lemma {:induction false} SimAtom(
    n: nat, q: RProg, e: Expr, st: Cg, env: Env, locals: REnv, z: World)
    requires !e.App? && Ready(e, st, env, locals)
    ensures CompileE(e, st).Emitted? && CompileE(e, st).st == st
    ensures var s := RunE(n, q, CompileE(e, st).code, locals, z);
            s.w == z && s.out.Ok? && Rel(AtomValue(e, env), s.out.v)
  {
    hide CodeOf, RunNode;
    QuoteRel(e);
    if e.Sym? {
      assert e.id in Names(e);
      forall g | g in st.thaws ensures g != e.id { assert OnlyThawed(g, e, false); }
      if e.id in st.scope { assert CellRel(Lookup(env, e.id).value, Get(locals, R.V(e.id)), false); }
    }
  }

  lemma {:induction false} RunOne(
    n: nat, q: RProg, xc: R.RExpr, thunk: R.RExpr, locals: REnv, z: World, u: Value, t: Value)
    requires RunE(n, q, xc, locals, z) == Done(u, z)
    requires RunE(n, q, thunk, RPush(R.FixedX, Val(u), locals), z) == Done(t, z)
    requires K_VALUE_OR in q.prims && q.prims[K_VALUE_OR] == PValueOr
    ensures RunE(n, q, OneCode(xc, thunk), locals, z) == DeferredCode(n, q, PValueOr, [u] + [t], z)
  {
    hide RunE, DeferredCode, CallCode;
    var locals1 := RPush(R.FixedX, Val(u), locals);
    var locals2 := RPush(R.FixedH, Val(t), locals1);
    RunBlock(n, q, OneCode(xc, thunk).binds, OneCode(xc, thunk).body, locals, z);
    BindOne(n, q, R.FixedX, xc, One(R.FixedH, thunk), locals, z);
    BindOne(n, q, R.FixedH, thunk, Empty, locals1, z);
    BindNone(n, q, locals2, z);
    RunCalled(n, q, K_VALUE_OR, [R.FixedX, R.FixedH], locals2, z);
    TwoLocals(locals1, R.FixedX, R.FixedH, u, t);
    assert [u] + [t] == [u, t];
    PrimExact(n, q, K_VALUE_OR, [u] + [t], z);
  }

  lemma {:induction false} TwoLocals(env: REnv, x: R.RVar, h: R.RVar, v: Value, t: Value)
    requires GetVal(env, x) == Some(v) && x != h
    ensures GetVal(RPush(h, Val(t), env), x) == Some(v)
    ensures GetAll(RPush(h, Val(t), env), [x, h]) == Some([v, t])
  {
    var env' := RPush(h, Val(t), env);
    assert [x, h][1..] == [h] && [h][1..] == [];
    assert GetAll(env', []) == Some([]);
    assert GetVal(env', h) == Some(t) && GetVal(env', x) == Some(v);
    assert [t] + [] == [t] && [v] + [t] == [v, t];
    assert GetAll(env', [h]) == Some([t]);
  }

  lemma {:induction false} ThreeLocals(env: REnv, u: Value, i: Value, t: Value)
    ensures var env' := RPush(R.FixedH, Val(t), RPush(R.FixedN, Val(i), RPush(R.FixedX, Val(u), env)));
            GetAll(env', [R.FixedX, R.FixedN, R.FixedH]) == Some([u, i] + [t])
  {
    var env1 := RPush(R.FixedX, Val(u), env);
    var env2 := RPush(R.FixedN, Val(i), env1);
    var env3 := RPush(R.FixedH, Val(t), env2);
    TwoLocals(env2, R.FixedN, R.FixedH, i, t);
    assert GetVal(env1, R.FixedX) == Some(u);
    assert GetVal(env2, R.FixedX) == Some(u);
    assert GetVal(env3, R.FixedX) == Some(u);
    assert [R.FixedX, R.FixedN, R.FixedH][1..] == [R.FixedN, R.FixedH];
    assert [u] + [i, t] == [u, i] + [t];
  }

  lemma {:induction false} RunTwo(
    n: nat, q: RProg, op: SymId, xc: R.RExpr, ic: R.RExpr, thunk: R.RExpr, locals: REnv, z: World,
    u: Value, i: Value, t: Value)
    requires op == K_ADDRESS || op == K_VECTOR_REF
    requires RunE(n, q, xc, locals, z) == Done(u, z)
    requires RunE(n, q, ic, RPush(R.FixedX, Val(u), locals), z) == Done(i, z)
    requires RunE(n, q, thunk, RPush(R.FixedN, Val(i), RPush(R.FixedX, Val(u), locals)), z) == Done(t, z)
    requires OrName(op) in q.prims && q.prims[OrName(op)] == OrPrim(op)
    ensures RunE(n, q, TwoCode(op, xc, ic, thunk), locals, z) == DeferredCode(n, q, OrPrim(op), [u, i] + [t], z)
  {
    hide RunE, DeferredCode, CallCode, RunBinds;
    var locals1 := RPush(R.FixedX, Val(u), locals);
    var locals2 := RPush(R.FixedN, Val(i), locals1);
    var locals3 := RPush(R.FixedH, Val(t), locals2);
    var code := TwoCode(op, xc, ic, thunk);
    var xs := [R.FixedX, R.FixedN, R.FixedH];
    RunBlock(n, q, code.binds, code.body, locals, z);
    BindOne(n, q, R.FixedX, xc, Cons(R.Bind(R.FixedN, ic), One(R.FixedH, thunk)), locals, z);
    BindOne(n, q, R.FixedN, ic, One(R.FixedH, thunk), locals1, z);
    BindOne(n, q, R.FixedH, thunk, Empty, locals2, z);
    BindNone(n, q, locals3, z);
    RunCalled(n, q, OrName(op), xs, locals3, z);
    ThreeLocals(locals, u, i, t);
    PrimExact(n, q, OrName(op), [u, i] + [t], z);
  }

  /** What a trap compiles to. */
  lemma {:induction false} TrapCode(e: Expr, st: Cg)
    requires View(e).Trap? && CompileE(e, st).Emitted?
    ensures var Trap(b, h) := View(e);
            match TrappedAccess(b, h)
            case None => CompileE(e, st) == CompileTry(e, st)
            case Some(a) =>
              var thunk := CompileClosure(None, a.fallback, st);
              thunk.Emitted? &&
              if !Fits(a) then CompileE(e, st) == CompileTry(e, thunk.st)
              else
                var first := CompileE(a.operands.head, thunk.st);
                first.Emitted? &&
                if a.op == K_VALUE then CompileE(e, st).code == OneCode(first.code, thunk.code)
                else
                  var second := CompileE(a.operands.tail.head, first.st);
                  second.Emitted? && CompileE(e, st).code == TwoCode(a.op, first.code, second.code, thunk.code)
  {
    hide BindArgs, CompileCond, CompileDo, CompileClosure, CompileTry, CompileHead;
    assert CompileE(e, st) == CompileApp(e, st);
  }

  /** The environment in which the fallback runs. */
  function Caught(h: Expr, env: Env): Env
    requires View(h).Lambda?
  {
    Push(View(h).x, VErr(Runtime), env)
  }

  lemma {:induction false} ThunkMoves(e: Expr, a: Access, st: Cg)
    requires View(e).Trap? && Safe(e, st.thaws.Keys) && TrappedAccess(View(e).body, View(e).handler) == Some(a)
    requires CompileClosure(None, a.fallback, st).Emitted?
    ensures Moved(st, CompileClosure(None, a.fallback, st).st, st.scope)
  {
    hide CompileClosure;
    PartsAreSafe(e, st.thaws.Keys);
    AccessParts(View(e).body, View(e).handler, st.thaws.Keys);
    SteadyClosure(None, a.fallback, st);
  }

  /** A trap that is rewritten to the access `a`, and whose operands and fallback are compiled right. */
  ghost predicate Accessible(e: Expr, a: Access, st: Cg, env: Env, locals: REnv)
  {
    && View(e).Trap? && TrappedAccess(View(e).body, View(e).handler) == Some(a) && Fits(a)
    && Safe(e, st.thaws.Keys) && Sound(Names(e), st, env, locals)
    && WfAll(a.operands, Dom(env), st.scope, st.thaws.Keys)
    && Wf(a.fallback, Dom(env) + {View(View(e).handler).x}, Captures(a.fallback, st.scope), st.thaws.Keys)
  }

  /** A well-formed trap is one if its access is no local. */
  lemma {:induction false} ReadyAccess(e: Expr, a: Access, st: Cg, env: Env, locals: REnv)
    requires View(e).Trap? && Ready(e, st, env, locals)
    requires TrappedAccess(View(e).body, View(e).handler) == Some(a) && Fits(a)
    ensures Accessible(e, a, st, env, locals)
    ensures View(View(e).body) == Call(a.op, a.operands) && a.op !in Dom(env)
  {
    hide Sound, Captures;
    AccessParts(View(e).body, View(e).handler, {});
  }

  /** The parts of a trapped access fit the environments. */
  lemma {:induction false} ThunkReady(e: Expr, a: Access, st: Cg, env: Env, locals: REnv)
    requires Accessible(e, a, st, env, locals)
    ensures View(View(e).body) == Call(a.op, a.operands) && Atomic(a.operands)
    ensures ReadyAll(a.operands, st, env, locals)
    ensures Names(a.fallback) !! st.thaws.Keys
    ensures var env' := Caught(View(e).handler, env);
            && Sound(Names(a.fallback), st, env', locals)
            && Wf(a.fallback, Dom(env'), Inside(None, a.fallback, st).scope, st.thaws.Keys)
  {
    hide EnvRel, CompileClosure, ThawsBelow;
    var Trap(b, h) := View(e);
    PartNames(e);
    PartsAreSafe(e, st.thaws.Keys);
    AccessParts(b, h, st.thaws.Keys);
    SoundLess(Names(e), NamesOf(a.operands), st, st, env, locals);
    SoundLess(Names(e), Names(a.fallback), st, st, env, locals);
    SoundIgnores(Names(a.fallback), st, env, locals, View(h).x, VErr(Runtime));
    assert Captures(a.fallback, st.scope) + ParamSet(None) == Captures(a.fallback, st.scope);
    assert Dom(Caught(h, env)) == Dom(env) + {View(h).x};
  }

  lemma {:induction false} RunAccessOne(
    n: nat, p: Prog, q: RProg, e: Expr, a: Access, st: Cg, env: Env, locals: REnv, w: World, z: World)
    returns (us: seq<Value>, t: Value)
    requires Linked(p, q) && Accessible(e, a, st, env, locals) && CompileE(e, st).Emitted? && WRel(w, z)
    requires a.op == K_VALUE
    ensures RelAll(AtomValues(a, env), us) && |us| == Arity(AccessPrim(a.op))
    ensures t.VCode? && t.rparam == None
    ensures CodeOf(a.fallback, None, Caught(View(e).handler, env), t.code, t.locals, Inside(None, a.fallback, st))
    ensures RunE(n, q, CompileE(e, st).code, locals, z) == DeferredCode(n, q, OrPrim(a.op), us + [t], z)
  {
    hide Linked, EnvRel, WRel, RunE, CodeOf, Rel, CompileE, CompileClosure, View, DeferredCode, ThawsBelow, Wf, Safe;
    ThunkReady(e, a, st, env, locals);
    TrapCode(e, st);
    ThunkMoves(e, a, st);
    AccessPrims(p, q, a.op);
    var thunk := CompileClosure(None, a.fallback, st);
    FirstReady(a.operands, st, thunk.st, env, locals);
    SimAtom(n, q, a.operands.head, thunk.st, env, locals, z);
    var first := CompileE(a.operands.head, thunk.st);
    var u := RunE(n, q, first.code, locals, z).out.v;
    t := SimThunk(n, q, a.fallback, st, Caught(View(e).handler, env), locals, R.FixedX, u, w, z);
    us := [u];
    RunOne(n, q, first.code, thunk.code, locals, z, u, t);
  }

  lemma {:induction false} RunAccessTwo(
    n: nat, p: Prog, q: RProg, e: Expr, a: Access, st: Cg, env: Env, locals: REnv, w: World, z: World)
    returns (us: seq<Value>, t: Value)
    requires Linked(p, q) && Accessible(e, a, st, env, locals) && CompileE(e, st).Emitted? && WRel(w, z)
    requires a.op != K_VALUE
    ensures RelAll(AtomValues(a, env), us) && |us| == Arity(AccessPrim(a.op))
    ensures t.VCode? && t.rparam == None
    ensures CodeOf(a.fallback, None, Caught(View(e).handler, env), t.code, t.locals, Inside(None, a.fallback, st))
    ensures RunE(n, q, CompileE(e, st).code, locals, z) == DeferredCode(n, q, OrPrim(a.op), us + [t], z)
  {
    hide Linked, EnvRel, WRel, RunE, CodeOf, Rel, CompileE, CompileClosure, View, DeferredCode, ThawsBelow, Wf, Safe;
    ThunkReady(e, a, st, env, locals);
    TrapCode(e, st);
    ThunkMoves(e, a, st);
    AccessPrims(p, q, a.op);
    var env' := Caught(View(e).handler, env);
    var thunk := CompileClosure(None, a.fallback, st);
    var x, i := a.operands.head, a.operands.tail.head;
    FirstReady(a.operands, st, thunk.st, env, locals);
    SimAtom(n, q, x, thunk.st, env, locals, z);
    var first := CompileE(x, thunk.st);
    var u := RunE(n, q, first.code, locals, z).out.v;
    var locals1 := RPush(R.FixedX, Val(u), locals);
    SoundTemp(NamesOf(a.operands.tail), st, env, locals, R.FixedX, Val(u));
    FirstReady(a.operands.tail, st, thunk.st, env, locals1);
    SimAtom(n, q, i, thunk.st, env, locals1, z);
    var second := CompileE(i, thunk.st);
    var k := RunE(n, q, second.code, locals1, z).out.v;
    SoundTemp(Names(a.fallback), st, env', locals, R.FixedX, Val(u));
    t := SimThunk(n, q, a.fallback, st, env', locals1, R.FixedN, k, w, z);
    us := [u, k];
    RunTwo(n, q, a.op, first.code, second.code, thunk.code, locals, z, u, k, t);
  }

  /** Operands and thunk of the emitted `/or` call. */
  lemma {:induction false} RunAccess(
    n: nat, p: Prog, q: RProg, e: Expr, a: Access, st: Cg, env: Env, locals: REnv, w: World, z: World)
    returns (us: seq<Value>, t: Value)
    requires Linked(p, q) && Accessible(e, a, st, env, locals) && CompileE(e, st).Emitted? && WRel(w, z)
    ensures RelAll(AtomValues(a, env), us) && |us| == Arity(AccessPrim(a.op))
    ensures t.VCode? && t.rparam == None
    ensures CodeOf(a.fallback, None, Caught(View(e).handler, env), t.code, t.locals, Inside(None, a.fallback, st))
    ensures RunE(n, q, CompileE(e, st).code, locals, z) == DeferredCode(n, q, OrPrim(a.op), us + [t], z)
  {
    hide *;
    if a.op == K_VALUE {
      us, t := RunAccessOne(n, p, q, e, a, st, env, locals, w, z);
    } else {
      us, t := RunAccessTwo(n, p, q, e, a, st, env, locals, w, z);
    }
  }

  /** The thunk, made after one more operand. */
  lemma {:induction false} SimThunk(
    n: nat, q: RProg, b: Expr, st: Cg, env: Env, locals: REnv, x: R.RVar, u: Value, w: World, z: World)
    returns (t: Value)
    requires Sound(Names(b), st, env, locals) && Names(b) !! st.thaws.Keys
    requires Wf(b, Dom(env), Inside(None, b, st).scope, st.thaws.Keys)
    requires CompileClosure(None, b, st).Emitted? && WRel(w, z) && !x.V? && !x.T?
    ensures RunE(n, q, CompileClosure(None, b, st).code, RPush(x, Val(u), locals), z) == Done(t, z)
    ensures t.VCode? && t.rparam == None && CodeOf(b, None, env, t.code, t.locals, Inside(None, b, st))
  {
    hide Rel, EnvRel, WRel, CodeOf, RunE, CompileClosure, CompileE, Wf;
    SoundTemp(Names(b), st, env, locals, x, Val(u));
    assert Dom(env) + ParamSet(None) == Dom(env);
    SimMake(n, q, None, b, st, env, RPush(x, Val(u), locals), w, z);
    t := RunE(n, q, CompileClosure(None, b, st).code, RPush(x, Val(u), locals), z).out.v;
  }

  lemma {:induction false} FirstReady(es: List<Expr>, st: Cg, st': Cg, env: Env, locals: REnv)
    requires es.Cons? && Atomic(es) && ReadyAll(es, st, env, locals) && Moved(st, st', st.scope)
    ensures !es.head.App? && Ready(es.head, st', env, locals)
    ensures es.tail.Cons? ==> Atomic(es.tail) && ReadyAll(es.tail, st, env, locals)
  {
    hide EnvRel, ThawsBelow;
    LiteralFlow(es.head, st.scope);
    SoundLess(NamesOf(es), Names(es.head), st, st', env, locals);
    SoundLess(NamesOf(es), NamesOf(es.tail), st, st, env, locals);
  }
}
