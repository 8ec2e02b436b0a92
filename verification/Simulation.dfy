/**
 The setting of the simulation: programs compiled and linked, environments that fit each other,
 and the equations by which compiled code runs.
 */
module Simulation {
  import opened Lists
  import opened Kl
  import opened Machine
  import R = RustIr
  import opened KlEval
  import opened RustRun
  import opened Codegen
  import opened CodegenState
  import opened Related

  /** Names with a fixed meaning to the compiler name the primitives it takes them for. */
  predicate Standard(prims: map<SymId, Prim>)
  {
    && {K_VALUE, K_SET, K_EQ, K_ADDRESS, K_VECTOR_REF, K_VALUE_OR, K_ADDRESS_OR, K_VECTOR_OR, K_FAIL} <= prims.Keys
    && prims[K_VALUE] == PValue && prims[K_SET] == PSet && prims[K_EQ] == PEq && prims[K_FAIL] == PFail
    && prims[K_ADDRESS] == PAddress && prims[K_VECTOR_REF] == PVectorRef
    && prims[K_VALUE_OR] == PValueOr && prims[K_ADDRESS_OR] == PAddressOr && prims[K_VECTOR_OR] == PVectorOr
  }

  predicate Distinct(xs: seq<SymId>)
  {
    forall i, j :: 0 <= i < j < |xs| ==> xs[i] != xs[j]
  }

  function ParamsOf(d: Def): set<SymId> { set x | x in d.params }

  /** A defun that is compiled right under the name `f`. */
  predicate WfDef(f: SymId, d: Def)
  {
    && Distinct(d.params) && Wf(d.body, ParamsOf(d), ParamsOf(d), {})
    && Loops(d.body, Some(f), d.params, ParamsOf(d), {})
  }

  ghost predicate FnOf(f: SymId, d: Def, fn: R.RFn)
  {
    WfDef(f, d) && exists k: nat :: CompilesTo(f, d, k, fn)
  }

  ghost predicate CompilesTo(f: SymId, d: Def, k: nat, fn: R.RFn)
  {
    CompileFn(f, d.params, d.body, k).Emitted? && CompileFn(f, d.params, d.body, k).code == fn
  }

  /** `q` is `p` compiled, on the same primitives. */
  ghost predicate Linked(p: Prog, q: RProg)
  {
    && Standard(p.prims) && q.prims == p.prims
    && p.prims.Keys !! p.defs.Keys && q.fns.Keys == p.defs.Keys
    && forall f :: f in p.defs ==> FnOf(f, p.defs[f], q.fns[f])
  }

  /** Generator state and both environments fit together for the names `ns`. */
  ghost predicate Sound(ns: set<SymId>, st: Cg, env: Env, locals: REnv)
  {
    ThawsBelow(st) && EnvRel(ns, env, locals, st.scope, st.thaws)
  }

  ghost predicate Ready(e: Expr, st: Cg, env: Env, locals: REnv)
  {
    && Wf(e, Dom(env), st.scope, st.thaws.Keys) && Safe(e, st.thaws.Keys)
    && Sound(Names(e), st, env, locals)
  }

  ghost predicate ReadyAll(es: List<Expr>, st: Cg, env: Env, locals: REnv)
  {
    && WfAll(es, Dom(env), st.scope, st.thaws.Keys) && SafeIn(es, st.thaws.Keys)
    && Sound(NamesOf(es), st, env, locals)
  }

  ghost predicate ReadyClauses(cs: List<Expr>, st: Cg, env: Env, locals: REnv)
  {
    && WfClauses(cs, Dom(env), st.scope, st.thaws.Keys) && SafeIn(cs, st.thaws.Keys)
    && Sound(NamesOf(cs), st, env, locals)
  }

  // ---- keeping the environments fitted ----

  lemma {:induction false} SoundLess(
    ns: set<SymId>, ns': set<SymId>, st: Cg, st': Cg, env: Env, locals: REnv)
    requires Sound(ns, st, env, locals) && ns' <= ns && Steady(st, st')
    ensures Sound(ns', st', env, locals)
  {
    hide CellRel;
  }

  /** A new temporary hides nothing. */
  lemma {:induction false} SoundTemp(ns: set<SymId>, st: Cg, env: Env, locals: REnv, x: R.RVar, c: Cell)
    requires Sound(ns, st, env, locals) && !x.V? && (x.T? ==> st.counter <= x.n)
    ensures Sound(ns, st, env, RPush(x, c, locals))
  {
    hide CellRel;
    forall y | y in ns
      ensures Get(RPush(x, c, locals), LocalOf(y, st.thaws)) == Get(locals, LocalOf(y, st.thaws))
    {
    }
  }

  lemma {:induction false} SoundPast(ns: set<SymId>, st: Cg, env: Env, locals: REnv, x: R.RVar, c: Cell)
    requires Sound(ns, st, env, locals) && x == st.Fresh()
    ensures Sound(ns, st.Next(), env, RPush(x, c, locals))
  {
    SoundTemp(ns, st, env, locals, x, c);
    SoundLess(ns, ns, st, st.Next(), env, RPush(x, c, locals));
  }

  /** A `let`, whatever it hides. */
  lemma {:induction false} SoundLet(ns: set<SymId>, st: Cg, env: Env, locals: REnv, x: SymId, v: Value, u: Value)
    requires Sound(ns, st, env, locals) && x !in st.thaws && Rel(v, u)
    ensures Sound(ns + {x}, st.Bind(x), Push(x, v, env), RPush(R.V(x), Val(u), locals))
  {
    hide Rel;
    var env' := Push(x, v, env);
    var locals' := RPush(R.V(x), Val(u), locals);
    forall y | y in ns && y != x
      ensures Lookup(env', y) == Lookup(env, y)
      ensures Get(locals', LocalOf(y, st.thaws)) == Get(locals, LocalOf(y, st.thaws)) || y in st.thaws
    {
    }
    forall y | y in ns && y in st.thaws
      ensures Get(locals', LocalOf(y, st.thaws)) == Get(locals, LocalOf(y, st.thaws))
    {
    }
    assert CellRel(v, Some(Val(u)), false);
  }

  /** A continuation that becomes a local procedure. */
  lemma {:induction false} SoundProc(ns: set<SymId>, st: Cg, s1: Cg, env: Env, locals: REnv, x: SymId, b: Expr)
    requires Sound(ns, st, env, locals) && Steady(st, s1) && Names(b) <= ns && x !in st.thaws
    requires Ready(b, st, env, locals) && CompileE(b, st).Emitted?
    ensures Sound(ns + {x}, EnterProc(s1, x), Push(x, VLam(env, None, b), env),
                  RPush(s1.Fresh(), Proc(CompileE(b, st).code, locals), locals))
  {
    hide Rel, Wf, CompileE;
    var env' := Push(x, VLam(env, None, b), env);
    var code := CompileE(b, st).code;
    var locals' := RPush(s1.Fresh(), Proc(code, locals), locals);
    assert Names(b) - ParamSet(None) == Names(b) && Dom(env) + ParamSet(None) == Dom(env);
    assert CodeOf(b, None, env, code, locals, st);
    forall y | y in ns && y != x && (y in st.scope || y in st.thaws)
      ensures Get(locals', LocalOf(y, EnterProc(s1, x).thaws)) == Get(locals, LocalOf(y, st.thaws))
    {
    }
    hide CodeOf;
    assert CellRel(VLam(env, None, b), Some(Proc(code, locals)), true);
  }

  // ---- one-step unfoldings of compiled code ----

  lemma {:induction false} BindOne(n: nat, q: RProg, x: R.RVar, c: R.RExpr, rest: List<R.Bind>, env: REnv, w: World)
    ensures var r := RunE(n, q, c, env, w);
            RunBinds(n, q, Cons(R.Bind(x, c), rest), env, w) ==
            if !r.out.Ok? then Halt(r)
            else RunBinds(n, q, rest, if x == R.Wild then env else RPush(x, Val(r.out.v), env), r.w)
  {
  }

  lemma {:induction false} BindNone(n: nat, q: RProg, env: REnv, w: World)
    ensures RunBinds(n, q, Empty, env, w) == Bound(env, w)
  {
  }

  lemma {:induction false} RunBlock(n: nat, q: RProg, bs: List<R.Bind>, body: R.RExpr, env: REnv, w: World)
    ensures RunE(n, q, R.Block(bs, body), env, w) ==
            match RunBinds(n, q, bs, env, w)
            case Halt(r) => r
            case Bound(env', w') => RunE(n, q, body, env', w')
  {
  }

  lemma {:induction false} RunLet(n: nat, q: RProg, x: R.RVar, c: R.RExpr, body: R.RExpr, env: REnv, w: World)
    ensures var r := RunE(n, q, c, env, w);
            RunE(n, q, R.Block(One(x, c), body), env, w) ==
            if !r.out.Ok? then r
            else RunE(n, q, body, if x == R.Wild then env else RPush(x, Val(r.out.v), env), r.w)
  {
    var r := RunE(n, q, c, env, w);
    RunBlock(n, q, One(x, c), body, env, w);
    BindOne(n, q, x, c, Empty, env, w);
    if r.out.Ok? { BindNone(n, q, if x == R.Wild then env else RPush(x, Val(r.out.v), env), r.w); }
  }

  lemma {:induction false} RunIf(n: nat, q: RProg, t: R.RVar, v: Value, a: R.RExpr, b: R.RExpr, env: REnv, w: World)
    ensures RunE(n, q, R.IfTrue(t, a, b), RPush(t, Val(v), env), w) ==
            match TruthOf(v)
            case None => Raise(w)
            case Some(yes) => RunE(n, q, if yes then a else b, RPush(t, Val(v), env), w)
  {
  }

  lemma {:induction false} RunLit(n: nat, q: RProg, l: Expr, env: REnv, w: World)
    ensures RunE(n, q, R.Lit(l), env, w) == Done(Quote(l), w)
  {
  }

  lemma {:induction false} RunFail(n: nat, q: RProg, env: REnv, w: World)
    ensures RunE(n, q, R.Fail, env, w) == Raise(w)
  {
  }

  lemma {:induction false} RunBool(n: nat, q: RProg, t: R.RVar, v: Value, env: REnv, w: World)
    ensures RunE(n, q, R.BoolOf(t), RPush(t, Val(v), env), w) ==
            match TruthOf(v) case None => Raise(w) case Some(b) => Truth(b, w)
  {
  }

  lemma {:induction false} RunProc(n: nat, q: RProg, go: R.RVar, code: R.RExpr, body: R.RExpr, env: REnv, w: World)
    ensures RunE(n, q, R.LetProc(go, code, body), env, w) == RunE(n, q, body, RPush(go, Proc(code, env), env), w)
  {
  }

  lemma {:induction false} RunClosure(
    n: nat, q: RProg, caps: seq<SymId>, param: Option<SymId>, code: R.RExpr, shadow: seq<SymId>, env: REnv, w: World)
    requires Capture(env, caps).Some? && GetAll(env, R.Locals(shadow)).Some?
    ensures RunE(n, q, R.Closure(caps, param, code, shadow), env, w) ==
            Done(VCode(Capture(env, caps).value, param, code, GetAll(env, R.Locals(shadow)).value), w)
  {
  }

  lemma {:induction false} RunApplied(n: nat, q: RProg, fe: R.RExpr, xs: seq<R.RVar>, env: REnv, w: World)
    ensures RunE(n, q, R.ApplyValue(fe, xs), env, w) ==
            var g := RunE(n, q, fe, env, w);
            if !g.out.Ok? then g else
            match GetAll(env, xs)
            case None => IllFormed(g.w)
            case Some(vs) => if n == 0 then Res(Timeout, g.w) else ApplyCode(n - 1, q, g.out.v, vs, g.w)
  {
  }

  lemma {:induction false} RunCalled(n: nat, q: RProg, f: SymId, xs: seq<R.RVar>, env: REnv, w: World)
    ensures RunE(n, q, R.CallNamed(f, xs), env, w) ==
            match GetAll(env, xs) case None => IllFormed(w) case Some(vs) => CallCode(n, q, f, vs, w)
  {
  }

  lemma {:induction false} RunRead(n: nat, q: RProg, x: R.RVar, env: REnv, w: World)
    ensures RunE(n, q, R.Read(x), env, w) ==
            match GetVal(env, x) case Some(v) => Done(v, w) case None => IllFormed(w)
  {
  }

  lemma {:induction false} RunGo(n: nat, q: RProg, go: R.RVar, env: REnv, w: World)
    ensures RunE(n, q, R.Go(go), env, w) ==
            match Get(env, go)
            case Some(Proc(code, env')) => if n == 0 then Res(Timeout, w) else RunE(n - 1, q, code, env', w)
            case _ => IllFormed(w)
  {
  }

  lemma {:induction false} RunTry(n: nat, q: RProg, b: R.RExpr, h: R.RExpr, env: REnv, w: World)
    ensures RunE(n, q, R.Try(b, h), env, w) ==
            var r := RunE(n, q, b, env, w);
            if !r.out.Err? then r else
            var g := RunE(n, q, h, env, r.w);
            if !g.out.Ok? then g else
            if n == 0 then Res(Timeout, g.w) else ApplyCode(n - 1, q, g.out.v, [VErr(r.out.m)], g.w)
  {
  }

  lemma {:induction false} RunTest(n: nat, q: RProg, p: R.Probe, c: R.RExpr, env: REnv, w: World)
    ensures RunE(n, q, R.Test(p, c), env, w) ==
            var r := RunE(n, q, c, env, w);
            if !r.out.Ok? then r else Truth(Probes(p, r.out.v), r.w)
  {
  }

  lemma {:induction false} RunGlobal(n: nat, q: RProg, id: SymId, env: REnv, w: World)
    ensures RunE(n, q, R.GlobalGet(id), env, w) == if id in w.globals then Done(w.globals[id], w) else Raise(w)
  {
  }

  lemma {:induction false} RunSet(n: nat, q: RProg, id: SymId, x: R.RVar, v: Value, env: REnv, w: World)
    ensures RunE(n, q, R.GlobalSet(id, x), RPush(x, Val(v), env), w) == Done(v, SetIn(w, id, v))
  {
  }

  // ---- what the environments say of one name ----

  lemma {:induction false} LocalHead(ns: set<SymId>, st: Cg, env: Env, locals: REnv, x: SymId)
    requires Sound(ns, st, env, locals) && x in ns && x in st.scope && x !in st.thaws
    ensures Lookup(env, x).Some? && GetVal(locals, R.V(x)).Some?
    ensures Rel(Lookup(env, x).value, GetVal(locals, R.V(x)).value)
  {
    hide Rel, CodeOf;
    assert CellRel(Lookup(env, x).value, Get(locals, LocalOf(x, st.thaws)), x in st.thaws);
  }

  lemma {:induction false} Inlined(ns: set<SymId>, st: Cg, env: Env, locals: REnv, g: SymId) returns (body: Cg)
    requires Sound(ns, st, env, locals) && g in ns && g in st.thaws
    ensures Lookup(env, g).Some?
    ensures var v, c := Lookup(env, g).value, Get(locals, st.thaws[g]);
            && v.VLam? && v.param.None? && c.Some? && c.value.Proc?
            && CodeOf(v.body, None, v.env, c.value.pcode, c.value.penv, body)
  {
    hide Rel, CodeOf;
    var v, c := Lookup(env, g).value, Get(locals, LocalOf(g, st.thaws));
    assert CellRel(v, c, g in st.thaws);
    body :| CodeOf(v.body, None, v.env, c.value.pcode, c.value.penv, body);
  }
}
