/** One step of each form on either side, and what the environments say of its parts. */
module SimSteps {
  import opened Lists
  import opened Kl
  import opened Machine
  import R = RustIr
  import opened KlEval
  import opened RustRun
  import opened Codegen
  import opened CodegenState
  import opened Related
  import opened Simulation
  import opened Frames

  ghost predicate Fit(p: Prog, q: RProg, e: Expr, st: Cg, env: Env, locals: REnv, w: World, z: World)
  {
    Linked(p, q) && Ready(e, st, env, locals) && CompileE(e, st).Emitted? && WRel(w, z)
  }

  ghost predicate SameE(n: nat, p: Prog, q: RProg, e: Expr, st: Cg, env: Env, locals: REnv, w: World, z: World)
    requires CompileE(e, st).Emitted?
  {
    Agree(Eval(n, p, e, env, w, false), RunE(n, q, CompileE(e, st).code, locals, z))
  }

  /** Forms that are not compiled right. */
  lemma {:induction false} NoCode(e: Expr, lex: set<SymId>, flat: set<SymId>, conts: set<SymId>)
    requires Wf(e, lex, flat, conts)
    ensures !View(e).Define? && !View(e).Bad?
  {
  }

  lemma {:induction false} SimConst(
    n: nat, p: Prog, q: RProg, e: Expr, st: Cg, env: Env, locals: REnv, w: World, z: World)
    requires View(e).Const? && Fit(p, q, e, st, env, locals, w, z)
    ensures SameE(n, p, q, e, st, env, locals, w, z)
  {
    hide Linked, EnvRel, CodeOf;
    QuoteRel(View(e).lit);
    if e.App? {
      assert CompileE(e, st) == CompileApp(e, st);
      assert Eval(n, p, e, env, w, false) == Step(n, p, e, env, w, false);
    }
  }

  lemma {:induction false} SimVar(
    n: nat, p: Prog, q: RProg, e: Expr, st: Cg, env: Env, locals: REnv, w: World, z: World)
    requires View(e).Var? && Fit(p, q, e, st, env, locals, w, z)
    ensures SameE(n, p, q, e, st, env, locals, w, z)
  {
    hide Linked, CodeOf;
    var x := View(e).x;
    assert x in Names(e);
    forall g | g in st.thaws ensures g != x { assert OnlyThawed(g, e, false); }
    if x in st.scope { assert CellRel(Lookup(env, x).value, Get(locals, R.V(x)), false); }
    QuoteRel(Sym(x));
  }

  // ---- closures ----

  lemma {:induction false} Captured(locals: REnv, caps: seq<SymId>)
    requires forall x :: x in caps ==> GetVal(locals, R.V(x)).Some?
    ensures Capture(locals, caps).Some?
    ensures forall x :: x in caps ==> Get(Capture(locals, caps).value, R.V(x)) == Get(locals, R.V(x))
  {
    if caps != [] {
      Captured(locals, caps[..|caps| - 1]);
      assert caps == caps[..|caps| - 1] + [caps[|caps| - 1]];
    }
  }

  /** The captured locals stand for the whole environment that the evaluator keeps. */
  lemma {:induction false} CapturesSuffice(b: Expr, param: Option<SymId>, st: Cg, env: Env, locals: REnv)
    requires Sound(Names(b), st, env, locals) && Names(b) !! st.thaws.Keys
    ensures var inner := Inside(param, b, st);
            var caps := Sorted(Captures(b, st.scope));
            var held := Capture(locals, caps);
            && held.Some? && EnvRel(Names(b) - ParamSet(param), env, held.value, inner.scope, inner.thaws)
            && GetAll(locals, R.Locals(caps)).Some?
  {
    hide Rel, CodeOf;
    var caps := Sorted(Captures(b, st.scope));
    forall x | x in caps ensures GetVal(locals, R.V(x)).Some? {
      assert x in Names(b) && x in st.scope && x !in st.thaws.Keys;
      assert CellRel(Lookup(env, x).value, Get(locals, LocalOf(x, st.thaws)), x in st.thaws);
    }
    Captured(locals, caps);
    ReadSome(locals, caps);
    var inner := Inside(param, b, st);
    var held := Capture(locals, caps).value;
    forall x | x in Names(b) - ParamSet(param) && (x in inner.scope || x in inner.thaws)
      ensures Lookup(env, x).Some? && CellRel(Lookup(env, x).value, Get(held, R.V(x)), false) && x !in inner.thaws
    {
      assert x !in st.thaws.Keys && x in st.scope && x in caps;
      assert CellRel(Lookup(env, x).value, Get(locals, LocalOf(x, st.thaws)), x in st.thaws);
    }
  }

  lemma {:induction false} ReadSome(env: REnv, xs: seq<SymId>)
    requires forall x :: x in xs ==> GetVal(env, R.V(x)).Some?
    ensures GetAll(env, R.Locals(xs)).Some?
  {
    if xs != [] {
      ReadSome(env, xs[1..]);
      assert R.Locals(xs)[1..] == R.Locals(xs[1..]);
    }
  }

  /** Making a closure. */
  lemma {:induction false} SimMake(
    n: nat, q: RProg, param: Option<SymId>, b: Expr, st: Cg, env: Env, locals: REnv, w: World, z: World)
    requires Sound(Names(b), st, env, locals) && Names(b) !! st.thaws.Keys && ParamSet(param) !! st.thaws.Keys
    requires Wf(b, Dom(env) + ParamSet(param), Inside(param, b, st).scope, st.thaws.Keys)
    requires CompileClosure(param, b, st).Emitted? && WRel(w, z)
    ensures var r := RunE(n, q, CompileClosure(param, b, st).code, locals, z);
            && r.w == z && r.out.Ok? && r.out.v.VCode? && r.out.v.rparam == param
            && CodeOf(b, param, env, r.out.v.code, r.out.v.locals, Inside(param, b, st))
  {
    hide Rel, CellRel, EnvRel, WRel, Wf;
    CapturesSuffice(b, param, st, env, locals);
    AbsentIsSafe(b, st.thaws.Keys);
    var inner := Inside(param, b, st);
    assert Compiled(b, Dom(env) + ParamSet(param), inner, CompileE(b, inner).code);
    var caps := Sorted(Captures(b, st.scope));
    RunClosure(n, q, caps, param, CompileE(b, inner).code, caps, locals, z);
  }

  function ParamOf(form: Form): Option<SymId>
    requires form.Lambda? || form.Freeze?
  {
    if form.Lambda? then Some(form.x) else None
  }

  /** The body of a closure and the environments around it. */
  lemma {:induction false} ClosureReady(e: Expr, st: Cg, env: Env, locals: REnv)
    requires (View(e).Lambda? || View(e).Freeze?) && Ready(e, st, env, locals)
    ensures var b, param := View(e).body, ParamOf(View(e));
            && Sound(Names(b), st, env, locals) && Names(b) !! st.thaws.Keys && ParamSet(param) !! st.thaws.Keys
            && Wf(b, Dom(env) + ParamSet(param), Inside(param, b, st).scope, st.thaws.Keys)
  {
    hide EnvRel;
    PartsAreSafe(e, st.thaws.Keys);
    PartNames(e);
    var b, param := View(e).body, ParamOf(View(e));
    forall g | g in st.thaws ensures g !in Names(b) && g !in ParamSet(param) {
      assert ThawedWithin(View(e), g);
    }
    assert View(e).Freeze? ==> Captures(b, st.scope) + {} == Captures(b, st.scope) && Dom(env) + {} == Dom(env);
    SoundLess(Names(e), Names(b), st, st, env, locals);
  }

  lemma {:induction false} MakeStep(n: nat, p: Prog, e: Expr, env: Env, w: World)
    requires View(e).Lambda? || View(e).Freeze?
    ensures Eval(n, p, e, env, w, false) == Done(VLam(env, ParamOf(View(e)), View(e).body), w)
  {
    hide EvalArgs, EvalCond, EvalDo, CallNamed;
    assert Eval(n, p, e, env, w, false) == Step(n, p, e, env, w, false);
  }

  lemma {:induction false} MakeCode(e: Expr, st: Cg)
    requires View(e).Lambda? || View(e).Freeze?
    ensures CompileE(e, st) == CompileClosure(ParamOf(View(e)), View(e).body, st)
  {
    hide BindArgs, CompileCond, CompileDo, CompileHead, CompileClosure;
    assert CompileE(e, st) == CompileApp(e, st);
  }

  lemma {:induction false} SimClosure(
    n: nat, p: Prog, q: RProg, e: Expr, st: Cg, env: Env, locals: REnv, w: World, z: World)
    requires (View(e).Lambda? || View(e).Freeze?) && Fit(p, q, e, st, env, locals, w, z)
    ensures SameE(n, p, q, e, st, env, locals, w, z)
  {
    hide Linked, EnvRel, WRel, RunE, CodeOf, Eval, CompileE, CompileClosure, View, Wf, ThawsBelow, Safe;
    var b, param := View(e).body, ParamOf(View(e));
    MakeStep(n, p, e, env, w);
    MakeCode(e, st);
    ClosureReady(e, st, env, locals);
    SimMake(n, q, param, b, st, env, locals, w, z);
    var u := RunE(n, q, CompileE(e, st).code, locals, z).out.v;
    assert CodeOf(b, param, env, u.code, u.locals, Inside(param, b, st));
  }

  // ---- arguments and calls ----

  /** Locals up to the temporary `lo` are what they were. */
  ghost predicate Extends(env': REnv, env: REnv, lo: nat)
  {
    forall x: R.RVar :: !x.T? || x.n < lo ==> Get(env', x) == Get(env, x)
  }

  ghost predicate SameArgs(a: ArgsRes, b: BindsRes, xs: seq<R.RVar>, locals: REnv, lo: nat)
  {
    match a
    case Stop(r) => r.w.drift || (b.Halt? && OutRel(r.out, b.r.out) && WRel(r.w, b.r.w))
    case Args(vs, w) =>
      w.drift || (b.Bound? && WRel(w, b.w) && Extends(b.env, locals, lo)
                  && GetAll(b.env, xs).Some? && RelAll(vs, GetAll(b.env, xs).value))
  }

  lemma {:induction false} NoArgs(env: REnv, lo: nat)
    ensures Extends(env, env, lo) && GetAll(env, []) == Some([]) && RelAll([], [])
  {
  }

  /** Later arguments leave the temporary of an earlier one alone. */
  lemma {:induction false} OneMore(
    env': REnv, env: REnv, tv: R.RVar, v: Value, u: Value, xs: seq<R.RVar>, vs: seq<Value>, lo: nat)
    requires tv.T? && lo <= tv.n && Extends(env', RPush(tv, Val(u), env), tv.n + 1) && Rel(v, u)
    requires GetAll(env', xs).Some? && RelAll(vs, GetAll(env', xs).value)
    ensures Extends(env', env, lo)
    ensures GetAll(env', [tv] + xs).Some? && RelAll([v] + vs, GetAll(env', [tv] + xs).value)
  {
    hide Rel;
    assert Get(env', tv) == Get(RPush(tv, Val(u), env), tv);
    assert ([tv] + xs)[1..] == xs;
    assert GetAll(env', [tv] + xs) == Some([u] + GetAll(env', xs).value);
    forall x: R.RVar | !x.T? || x.n < lo ensures Get(env', x) == Get(env, x) {
      assert Get(env', x) == Get(RPush(tv, Val(u), env), x);
    }
  }

  lemma {:induction false} EnterBody(p: Prog, q: RProg, f: Value, u: Value, vs: seq<Value>, us: seq<Value>, st: Cg)
    requires f.VLam? && u.VCode? && RelAll(vs, us) && (f.param.Some? ==> |vs| > 0)
    requires CodeOf(f.body, f.param, f.env, u.code, u.locals, st)
    ensures Ready(f.body, st, if f.param.Some? then Push(f.param.value, vs[0], f.env) else f.env,
                  if f.param.Some? then RPush(R.V(f.param.value), Val(us[0]), u.locals) else u.locals)
    ensures CompileE(f.body, st).Emitted? && CompileE(f.body, st).code == u.code
  {
    hide Rel, CompileE, Wf;
    var env' := if f.param.Some? then Push(f.param.value, vs[0], f.env) else f.env;
    var locals' := if f.param.Some? then RPush(R.V(f.param.value), Val(us[0]), u.locals) else u.locals;
    assert Dom(env') == Dom(f.env) + ParamSet(f.param);
    forall x | x in Names(f.body) && (x in st.scope || x in st.thaws)
      ensures Lookup(env', x).Some? && CellRel(Lookup(env', x).value, Get(locals', LocalOf(x, st.thaws)), x in st.thaws)
    {
      if f.param == Some(x) {
        assert Lookup(env', x) == Some(vs[0]) && Get(locals', R.V(x)) == Some(Val(us[0]));
      } else {
        assert x in Names(f.body) - ParamSet(f.param);
        assert Lookup(env', x) == Lookup(f.env, x);
        assert Get(locals', LocalOf(x, st.thaws)) == Get(u.locals, LocalOf(x, st.thaws));
      }
    }
  }

  /** What the evaluator does with a primitive that may call its last argument. */
  function Deferred(n: nat, p: Prog, op: Prim, vs: seq<Value>, w: World): Res
    requires |vs| == Arity(op) && Deferring(op)
  {
    match Attempt(op, vs, Watch(op, vs, w))
    case Some(r) => r
    case None =>
      if n == 0 then Res(Timeout, Watch(op, vs, w))
      else KlEval.Apply(n - 1, p, vs[|vs| - 1], [], Watch(op, vs, w))
  }

  function DeferredCode(n: nat, q: RProg, op: Prim, us: seq<Value>, z: World): Res
    requires |us| == Arity(op) && Deferring(op)
  {
    match Attempt(op, us, z)
    case Some(r) => r
    case None => if n == 0 then Res(Timeout, z) else ApplyCode(n - 1, q, us[|us| - 1], [], z)
  }

  lemma {:induction false} PrimShape(n: nat, p: Prog, f: SymId, vs: seq<Value>, w: World)
    requires f in p.prims && |vs| == Arity(p.prims[f])
    ensures Saturated(n, p, f, vs, w) ==
            if Deferring(p.prims[f]) then Deferred(n, p, p.prims[f], vs, w) else Run(p.prims[f], vs, w)
  {
    hide Run, Attempt, Watch, KlEval.Apply, Eval, Arity;
  }

  /** A primitive through its closure. */
  lemma {:induction false} PrimCodeShape(n: nat, q: RProg, f: SymId, us: seq<Value>, z: World)
    requires f in q.prims
    ensures var k := Arity(q.prims[f]);
            |us| >= k ==>
            var s := if Deferring(q.prims[f]) then DeferredCode(n, q, q.prims[f], us[..k], z)
                     else Run(q.prims[f], us[..k], z);
            NamedCode(n, q, f, us, z) ==
            if |us| == k || !s.out.Ok? then s else
            if n == 0 then Res(Timeout, s.w) else ApplyCode(n - 1, q, s.out.v, us[k..], s.w)
    ensures |us| < Arity(q.prims[f]) ==> NamedCode(n, q, f, us, z) == Done(VFn(f, us), z)
    ensures !Direct(q.prims[f]) ==> CallCode(n, q, f, us, z) == NamedCode(n, q, f, us, z)
    ensures |us| == Arity(q.prims[f]) ==> CallCode(n, q, f, us, z) == NamedCode(n, q, f, us, z)
  {
    hide Run, Attempt, ApplyCode, RunLoop, Arity, Enter;
    assert |us| == Arity(q.prims[f]) ==> us[..|us|] == us;
  }

  /** A native override ignores what it does not take. */
  lemma {:induction false} DirectShape(n: nat, q: RProg, f: SymId, us: seq<Value>, z: World)
    requires f in q.prims && Direct(q.prims[f]) && |us| >= Arity(q.prims[f])
    ensures CallCode(n, q, f, us, z) == CallCode(n, q, f, us[..Arity(q.prims[f])], z)
  {
    hide PrimCode, RunLoop, Arity, NamedCode;
    var k := Arity(q.prims[f]);
    assert us[..k][..k] == us[..k];
  }

  lemma {:induction false} PrimExact(n: nat, q: RProg, f: SymId, us: seq<Value>, z: World)
    requires f in q.prims && |us| == Arity(q.prims[f])
    ensures CallCode(n, q, f, us, z) ==
            if Deferring(q.prims[f]) then DeferredCode(n, q, q.prims[f], us, z) else Run(q.prims[f], us, z)
  {
    hide Run, Attempt, ApplyCode, RunLoop, Arity, CallCode, NamedCode;
    PrimCodeShape(n, q, f, us, z);
    assert us[..|us|] == us;
  }

  /** The closure of a primitive enters it with the arguments it takes, and applies the result to the rest. */
  lemma {:induction false} PrimThrough(n: nat, q: RProg, f: SymId, us: seq<Value>, z: World)
    requires f in q.prims && |us| >= Arity(q.prims[f])
    ensures var k := Arity(q.prims[f]);
            var s := CallCode(n, q, f, us[..k], z);
            NamedCode(n, q, f, us, z) ==
            if |us| == k || !s.out.Ok? then s else
            if n == 0 then Res(Timeout, s.w) else ApplyCode(n - 1, q, s.out.v, us[k..], s.w)
  {
    hide Run, Attempt, ApplyCode, RunLoop, Arity, CallCode, NamedCode, DeferredCode;
    var k := Arity(q.prims[f]);
    PrimCodeShape(n, q, f, us, z);
    PrimExact(n, q, f, us[..k], z);
  }

  lemma {:induction false} SameLength(vs: seq<Value>, us: seq<Value>)
    requires RelAll(vs, us)
    ensures |vs| == |us| && forall i :: 0 <= i < |vs| ==> Rel(vs[i], us[i])
  {
    hide Rel;
  }

  /** The three ways of calling by name. */
  lemma {:induction false} NamedShape(n: nat, p: Prog, f: SymId, vs: seq<Value>, w: World)
    requires Defined(p, f)
    ensures |vs| < ArityOf(p, f) ==>
              CallNamed(n, p, f, vs, w) == Done(VFn(f, vs), if Insists(p, f) then Drifted(w) else w)
    ensures |vs| == ArityOf(p, f) ==> CallNamed(n, p, f, vs, w) == Saturated(n, p, f, vs, w)
    ensures var k := ArityOf(p, f);
            |vs| > k && f in p.prims ==>
            var s := Saturated(n, p, f, vs[..k], w);
            && (!s.out.Ok? ==> CallNamed(n, p, f, vs, w) == s)
            && (s.out.Ok? && !Insists(p, f) ==>
                  CallNamed(n, p, f, vs, w) ==
                  if n == 0 then Res(Timeout, s.w) else KlEval.Apply(n - 1, p, s.out.v, vs[k..], s.w))
            && (s.out.Ok? && Insists(p, f) ==> CallNamed(n, p, f, vs, w).w.drift)
    ensures |vs| != ArityOf(p, f) && f !in p.prims ==> CallNamed(n, p, f, vs, w).w.drift
    ensures |vs| == ArityOf(p, f) && f !in p.prims ==>
              Saturated(n, p, f, vs, w) ==
              if n == 0 then Res(Timeout, w)
              else Eval(n - 1, p, p.defs[f].body, Frame(p.defs[f].params, vs), Log(w, f, vs), true)
  {
    hide Run, Attempt, Eval, KlEval.Apply, Arity;
    assert |vs| == ArityOf(p, f) ==> vs[..|vs|] == vs;
  }

  lemma {:induction false} CodeShape(n: nat, q: RProg, f: SymId, us: seq<Value>, z: World)
    requires f !in q.prims && f in q.fns && |us| == |q.fns[f].params|
    ensures CallCode(n, q, f, us, z) ==
            if n == 0 then Res(Timeout, z)
            else RunLoop(n - 1, q, q.fns[f], RFrame(q.fns[f].params, us), Log(z, f, us))
    ensures NamedCode(n, q, f, us, z) == CallCode(n, q, f, us, z)
  {
    hide Run, Attempt, RunLoop, ApplyCode;
    assert us[..|us|] == us;
  }

  lemma {:induction false} PartialRel(f: SymId, vs: seq<Value>, us: seq<Value>)
    requires RelAll(vs, us)
    ensures Rel(VFn(f, vs), VFn(f, us))
  {
    SameLength(vs, us);
  }

  lemma {:induction false} SamePrims(p: Prog, q: RProg)
    requires Linked(p, q)
    ensures q.prims == p.prims && Standard(p.prims) && forall f :: Defined(p, f) <==> f in q.prims || f in q.fns
  {
    hide FnOf;
  }

  lemma {:induction false} FnParams(p: Prog, q: RProg, f: SymId)
    requires Linked(p, q) && f in p.defs
    ensures f !in q.prims && f in q.fns && q.fns[f].params == p.defs[f].params && q.fns[f].name == f
  {
    hide CompileTail, Wf, Loops;
    assert FnOf(f, p.defs[f], q.fns[f]);
  }

  lemma {:induction false} ApplyLam(
    n: nat, p: Prog, env: Env, param: Option<SymId>, body: Expr, vs: seq<Value>, w: World)
    requires |vs| == if param.Some? then 1 else 0
    ensures KlEval.Apply(n, p, VLam(env, param, body), vs, w) ==
            Eval(n, p, body, if param.Some? then Push(param.value, vs[0], env) else env, w, false)
  {
    hide Eval;
  }

  /** What the evaluator does with a call whose head is no local. */
  function PlainCall(n: nat, p: Prog, h: SymId, args: List<Expr>, env: Env, w: World): Res
  {
    if !Defined(p, h) then Raise(if Atomic(args) then w else Drifted(w)) else
    match EvalArgs(n, p, args, env, w)
    case Stop(r) => r
    case Args(vs, w') => CallNamed(n, p, h, vs, w')
  }

  /** Evaluating names and literals changes nothing. */
  lemma {:induction false} AtomArgs(n: nat, p: Prog, es: List<Expr>, env: Env, w: World)
    requires Atomic(es)
    ensures EvalArgs(n, p, es, env, w).Args? && EvalArgs(n, p, es, env, w).w == w
    decreases es
  {
    if es.Cons? {
      EvalAtom(n, p, es.head, env, w);
      AtomArgs(n, p, es.tail, env, w);
    }
  }

  lemma {:induction false} Undefined(n: nat, q: RProg, f: SymId, us: seq<Value>, z: World)
    requires f !in q.prims && f !in q.fns
    ensures CallCode(n, q, f, us, z) == Raise(z)
  {
    hide Run, Attempt, RunLoop, ApplyCode;
  }

  // ---- shortcuts ----

  /** One step of a call whose head is no local. */
  lemma {:induction false} ShortStep(n: nat, p: Prog, e: Expr, env: Env, w: World)
    requires View(e).Call? && View(e).head !in Dom(env)
    ensures Eval(n, p, e, env, w, false) == PlainCall(n, p, View(e).head, View(e).args, env, w)
  {
    hide EvalArgs, CallNamed, EvalCond, EvalDo, KlEval.Apply;
    assert Eval(n, p, e, env, w, false) == Step(n, p, e, env, w, false);
  }

  /** A primitive applied to one operand. */
  lemma {:induction false} CallOne(n: nat, p: Prog, f: SymId, a: Expr, env: Env, w: World)
    requires f in p.prims && Arity(p.prims[f]) == 1 && !Deferring(p.prims[f])
    ensures var r := Eval(n, p, a, env, w, false);
            PlainCall(n, p, f, Cons(a, Empty), env, w) ==
            if !r.out.Ok? then r else Run(p.prims[f], [r.out.v], r.w)
  {
    hide Eval, Run, Arity;
    var r := Eval(n, p, a, env, w, false);
    if r.out.Ok? {
      assert EvalArgs(n, p, Cons(a, Empty), env, w) == Args([r.out.v], r.w);
      NamedShape(n, p, f, [r.out.v], r.w);
      PrimShape(n, p, f, [r.out.v], r.w);
    }
  }

  /** A primitive applied to two operands. */
  lemma {:induction false} CallTwo(n: nat, p: Prog, f: SymId, a: Expr, b: Expr, env: Env, w: World)
    requires f in p.prims && Arity(p.prims[f]) == 2 && !Deferring(p.prims[f])
    ensures var r := Eval(n, p, a, env, w, false);
            var s := Eval(n, p, b, env, r.w, false);
            PlainCall(n, p, f, Cons(a, Cons(b, Empty)), env, w) ==
            if !r.out.Ok? then r else if !s.out.Ok? then s else Run(p.prims[f], [r.out.v, s.out.v], s.w)
  {
    hide Eval, Run, Arity, CallNamed, Saturated;
    var r := Eval(n, p, a, env, w, false);
    if r.out.Ok? {
      var s := Eval(n, p, b, env, r.w, false);
      assert !s.out.Ok? ==> EvalArgs(n, p, Cons(b, Empty), env, r.w) == Stop(s);
      if s.out.Ok? {
        assert EvalArgs(n, p, Empty, env, s.w) == Args([], s.w);
        assert EvalArgs(n, p, Cons(b, Empty), env, r.w) == Args([s.out.v], s.w);
        assert EvalArgs(n, p, Cons(a, Cons(b, Empty)), env, w) == Args([r.out.v, s.out.v], s.w);
        NamedShape(n, p, f, [r.out.v, s.out.v], s.w);
        PrimShape(n, p, f, [r.out.v, s.out.v], s.w);
      }
    }
  }

  /** The code of a shortcut. */
  lemma {:induction false} ShortCode(e: Expr, st: Cg)
    requires View(e).Call? && View(e).head !in st.scope && CompileE(e, st).Emitted?
    ensures match Classify(View(e).head, View(e).args, st.scope)
            case ReadGlobal(x) => CompileE(e, st) == Emitted(R.GlobalGet(x), st)
            case WriteGlobal(x, v) =>
              && CompileE(v, st).Emitted?
              && CompileE(e, st).code == R.Block(One(R.FixedV, CompileE(v, st).code), R.GlobalSet(x, R.FixedV))
            case Compare(p, v) =>
              && CompileE(v, st).Emitted? && CompileE(e, st).code == R.Test(p, CompileE(v, st).code)
            case Plain => true
  {
    hide BindArgs, CompileCond, CompileDo, CompileClosure, CompileTry;
    assert CompileE(e, st) == CompileApp(e, st) == CompileHead(View(e).head, View(e).args, st);
  }

  /** A name that is not bound stands for itself. */
  lemma {:induction false} Free(n: nat, p: Prog, x: SymId, env: Env, w: World)
    requires x !in Dom(env)
    ensures Eval(n, p, Sym(x), env, w, false) == Done(VSym(x), w)
  {
  }

  lemma {:induction false} ReadRel(x: SymId, w: World, z: World)
    requires WRel(w, z)
    ensures Agree(Run(PValue, [VSym(x)], w), if x in z.globals then Done(z.globals[x], z) else Raise(z))
  {
    hide Rel;
  }

  lemma {:induction false} WriteRel(x: SymId, v: Value, u: Value, w: World, z: World)
    requires WRel(w, z) && Rel(v, u)
    ensures Agree(Run(PSet, [VSym(x), v], w), Done(u, SetIn(z, x, u)))
  {
    hide Rel;
    SetRel(w, z, x, v, u);
  }

  /** A literal name as first argument. */
  lemma {:induction false} FirstName(n: nat, p: Prog, e: Expr, st: Cg, env: Env, w: World)
    requires Wf(e, Dom(env), st.scope, st.thaws.Keys) && View(e).Call? && View(e).args.Cons?
    requires View(e).args.head.Sym? && View(e).args.head.id !in st.scope
    ensures Eval(n, p, View(e).args.head, env, w, false) == Done(VSym(View(e).args.head.id), w)
  {
    var x := View(e).args.head.id;
    assert WfAll(View(e).args, Dom(env), st.scope, st.thaws.Keys);
    assert Wf(Sym(x), Dom(env), st.scope, st.thaws.Keys) && View(Sym(x)) == Var(x);
    assert Agrees(x, Dom(env), st.scope);
    Free(n, p, x, env, w);
  }

  /** A call's head is a local exactly if the generator takes it for one. */
  lemma {:induction false} HeadAgrees(e: Expr, st: Cg, env: Env, locals: REnv)
    requires View(e).Call? && Ready(e, st, env, locals)
    ensures View(e).head in Dom(env) <==> View(e).head in st.scope
    ensures View(e).head !in st.thaws
  {
    hide EnvRel;
    PartsAreSafe(e, st.thaws.Keys);
    forall g | g in st.thaws ensures g != View(e).head { assert ThawedWithin(View(e), g); }
  }

  lemma {:induction false} ReadCall(n: nat, p: Prog, x: SymId, env: Env, w: World)
    requires K_VALUE in p.prims && p.prims[K_VALUE] == PValue && Eval(n, p, Sym(x), env, w, false) == Done(VSym(x), w)
    ensures PlainCall(n, p, K_VALUE, Cons(Sym(x), Empty), env, w) == Run(PValue, [VSym(x)], w)
  {
    hide PlainCall, Eval, Run;
    CallOne(n, p, K_VALUE, Sym(x), env, w);
  }

  lemma {:induction false} SimReadGlobal(
    n: nat, p: Prog, q: RProg, e: Expr, st: Cg, env: Env, locals: REnv, w: World, z: World)
    requires View(e).Call? && View(e).head !in st.scope && Classify(View(e).head, View(e).args, st.scope).ReadGlobal?
    requires Fit(p, q, e, st, env, locals, w, z)
    ensures SameE(n, p, q, e, st, env, locals, w, z)
  {
    hide Linked, EnvRel, Rel, WRel, OutRel, Agree, RunE, PlainCall, CompileE, Eval, Run, View, Classify, Safe;
    hide ThawsBelow;
    hide Wf;
    var x := View(e).args.head.id;
    ShortCode(e, st);
    FirstName(n, p, e, st, env, w);
    HeadAgrees(e, st, env, locals);
    ShortStep(n, p, e, env, w);
    assert K_VALUE in p.prims && p.prims[K_VALUE] == PValue by { SamePrims(p, q); }
    ReadCall(n, p, x, env, w);
    RunGlobal(n, q, x, locals, z);
    ReadRel(x, w, z);
  }

  lemma {:induction false} SimWritten(n: nat, q: RProg, x: SymId, r: Res, c: R.RExpr, locals: REnv, z: World)
    requires Agree(r, RunE(n, q, c, locals, z))
    ensures Agree(if !r.out.Ok? then r else Run(PSet, [VSym(x), r.out.v], r.w),
                  RunE(n, q, R.Block(One(R.FixedV, c), R.GlobalSet(x, R.FixedV)), locals, z))
  {
    hide Rel, WRel, RunE;
    var s := RunE(n, q, c, locals, z);
    RunLet(n, q, R.FixedV, c, R.GlobalSet(x, R.FixedV), locals, z);
    if !r.w.drift && r.out.Ok? {
      RunSet(n, q, x, R.FixedV, s.out.v, locals, s.w);
      WriteRel(x, r.out.v, s.out.v, r.w, s.w);
    }
  }

  /** What the literal of a specialised `=` evaluates to. */
  function ProbeValue(t: R.Probe): Value
  {
    match t
    case IsNil => VNil
    case IsStr(s) => VStr(s)
    case IsSym(x) => VSym(x)
  }

  lemma {:induction false} LiteralOperand(
    n: nat, p: Prog, q: RProg, a: Expr, flat: set<SymId>, flat': set<SymId>, conts: set<SymId>, env: Env, w: World)
    requires Linked(p, q) && ProbeFor(a, flat).Some? && flat' <= flat && Wf(a, Dom(env), flat', conts)
    ensures Eval(n, p, a, env, w, false) == Done(ProbeValue(ProbeFor(a, flat).value), w)
    ensures TruthOf(ProbeValue(ProbeFor(a, flat).value)).None?
  {
    hide Linked, Step;
    if a.App? {
      assert a == App(Cons(Sym(K_FAIL), Empty));
      assert View(a) == Call(K_FAIL, Empty) && Agrees(K_FAIL, Dom(env), flat');
      LiteralFail(n, p, q, env, w);
    } else if a.Sym? {
      assert Agrees(a.id, Dom(env), flat');
      Free(n, p, a.id, env, w);
    }
  }

  lemma {:induction false} LiteralFail(n: nat, p: Prog, q: RProg, env: Env, w: World)
    requires Linked(p, q) && K_FAIL !in Dom(env)
    ensures Eval(n, p, App(Cons(Sym(K_FAIL), Empty)), env, w, false) == Done(VSym(K_SHEN_FAIL), w)
  {
    hide Linked, Eval, PlainCall;
    assert K_FAIL in p.prims && p.prims[K_FAIL] == PFail by { SamePrims(p, q); }
    ShortStep(n, p, App(Cons(Sym(K_FAIL), Empty)), env, w);
    FailCall(n, p, env, w);
  }

  lemma {:induction false} FailCall(n: nat, p: Prog, env: Env, w: World)
    requires K_FAIL in p.prims && p.prims[K_FAIL] == PFail
    ensures PlainCall(n, p, K_FAIL, Empty, env, w) == Done(VSym(K_SHEN_FAIL), w)
  {
    hide Eval, CallNamed, Saturated;
    assert EvalArgs(n, p, Empty, env, w) == Args([], w);
    NamedShape(n, p, K_FAIL, [], w);
    PrimShape(n, p, K_FAIL, [], w);
  }

  /** `=` against such a literal, on either side, is the test that the compiler emits for it. */
  lemma {:induction false} ProbeEq(t: R.Probe, v: Value, u: Value, w: World)
    requires TruthOf(ProbeValue(t)).None? && Rel(v, u)
    ensures Run(PEq, [ProbeValue(t), v], w) == Truth(Probes(t, u), w)
    ensures Run(PEq, [v, ProbeValue(t)], w) == Truth(Probes(t, u), w)
  {
    hide CodeOf;
  }

  lemma {:induction false} SimTested(n: nat, q: RProg, t: R.Probe, r: Res, c: R.RExpr, locals: REnv, z: World)
    requires Agree(r, RunE(n, q, c, locals, z)) && TruthOf(ProbeValue(t)).None?
    ensures Agree(if !r.out.Ok? then r else Run(PEq, [ProbeValue(t), r.out.v], r.w),
                  RunE(n, q, R.Test(t, c), locals, z))
    ensures Agree(if !r.out.Ok? then r else Run(PEq, [r.out.v, ProbeValue(t)], r.w),
                  RunE(n, q, R.Test(t, c), locals, z))
  {
    hide WRel, RunE, Run, ValueEq, CodeOf;
    var s := RunE(n, q, c, locals, z);
    RunTest(n, q, t, c, locals, z);
    if !r.w.drift && r.out.Ok? { ProbeEq(t, r.out.v, s.out.v, r.w); }
    hide ProbeValue;
    hide Probes;
    hide Rel;
    assert Rel(VBool(true), VBool(true)) by { QuoteRel(Bool(true)); }
    assert Rel(VBool(false), VBool(false)) by { QuoteRel(Bool(false)); }
  }

  /** The operands of a comparison with a literal: the literal, and what is compiled. */
  lemma {:induction false} OperandsReady(e: Expr, st: Cg, env: Env, locals: REnv)
    requires View(e).Call? && Ready(e, st, env, locals) && Classify(View(e).head, View(e).args, st.scope).Compare?
    ensures var a, b := View(e).args.head, View(e).args.tail.head;
            var v := Classify(View(e).head, View(e).args, st.scope).v;
            && Ready(v, st, env, locals)
            && Wf(a, Dom(env), st.scope, st.thaws.Keys) && Wf(b, Dom(env), Flow(a, st.scope), st.thaws.Keys)
            && Flow(a, st.scope) <= st.scope
  {
    hide EnvRel, ThawsBelow;
    var args := View(e).args;
    var a, b := args.head, args.tail.head;
    PartNames(e);
    PartsAreSafe(e, st.thaws.Keys);
    forall g | g in st.thaws.Keys ensures OnlyThawedIn(g, args, false) { assert ThawedWithin(View(e), g); }
    ShortcutParts(View(e).head, args, st.scope, st.thaws.Keys);
    var v := Classify(View(e).head, args, st.scope).v;
    SoundLess(Names(e), Names(v), st, st, env, locals);
    assert WfAll(args, Dom(env), st.scope, st.thaws.Keys);
    assert WfAll(args.tail, Dom(env), Flow(a, st.scope), st.thaws.Keys);
    FlowShrinks(a, st.scope);
    if ProbeFor(a, st.scope).Some? { LiteralFlow(a, st.scope); }
  }

  lemma {:induction false} EvalAtom(n: nat, p: Prog, e: Expr, env: Env, w: World)
    requires !e.App?
    ensures Eval(n, p, e, env, w, false) == Done(AtomValue(e, env), w)
  {
    hide AtomValue, Step;
  }

  /** The body of a `let` whose value became a local procedure fits the environments with it. */
  lemma {:induction false} ProcReady(e: Expr, st: Cg, env: Env, locals: REnv)
    requires View(e).Let? && Inlines(View(e).x, View(e).bound, View(e).body) && Ready(e, st, env, locals)
    requires CompileE(View(View(e).bound).body, st).Emitted?
    ensures Moved(st, CompileE(View(View(e).bound).body, st).st, Flow(View(View(e).bound).body, st.scope))
    ensures var Let(x, v, b) := View(e);
            var proc := CompileE(View(v).body, st);
            Ready(b, EnterProc(proc.st, x), Push(x, VLam(env, None, View(v).body), env),
                  RPush(proc.st.Fresh(), Proc(proc.code, locals), locals))
  {
    hide EnvRel, CompileE;
    var Let(x, v, b) := View(e);
    var pb := View(v).body;
    var proc := CompileE(pb, st);
    PartNames(e);
    ProcIsSafe(e, st.thaws.Keys);
    SoundLess(Names(e), Names(pb), st, st, env, locals);
    SteadyE(pb, st);
    SoundProc(Names(e), st, proc.st, env, locals, x, pb);
    var env' := Push(x, VLam(env, None, pb), env);
    var locals' := RPush(proc.st.Fresh(), Proc(proc.code, locals), locals);
    assert EnterProc(proc.st, x).thaws.Keys == st.thaws.Keys + {x};
    SoundLess(Names(e) + {x}, Names(b), EnterProc(proc.st, x), EnterProc(proc.st, x), env', locals');
  }

  lemma {:induction false} TryReady(e: Expr, st: Cg, env: Env, locals: REnv)
    requires View(e).Trap? && !Rewritten(View(e).body, View(e).handler) && Ready(e, st, env, locals)
    requires CompileE(View(e).body, st).Emitted?
    ensures Ready(View(e).body, st, env, locals)
    ensures Ready(View(e).handler, CompileE(View(e).body, st).st, env, locals)
  {
    hide EnvRel, CompileE;
    PartNames(e);
    PartsAreSafe(e, st.thaws.Keys);
    SteadyE(View(e).body, st);
    SoundLess(Names(e), Names(View(e).body), st, st, env, locals);
    SoundLess(Names(e), Names(View(e).handler), st, CompileE(View(e).body, st).st, env, locals);
  }

  /** The parts of an `if`. */
  lemma {:induction false} IfParts(e: Expr, lex: set<SymId>, flat: set<SymId>, conts: set<SymId>)
    requires View(e).If? && Wf(e, lex, flat, conts) && Safe(e, conts)
    ensures var If(c, t, f) := View(e);
            && Wf(c, lex, flat, conts) && Wf(t, lex, Flow(c, flat), conts)
            && Wf(f, lex, Flow(t, Flow(c, flat)), conts)
            && Safe(c, conts) && Safe(t, conts) && Safe(f, conts)
            && Names(c) <= Names(e) && Names(t) <= Names(e) && Names(f) <= Names(e)
  {
    PartsAreSafe(e, conts);
    PartNames(e);
  }

  lemma {:induction false} IfStep(n: nat, p: Prog, e: Expr, env: Env, w: World, tail: bool)
    requires View(e).If?
    ensures var r := Eval(n, p, View(e).c, env, w, false);
            Eval(n, p, e, env, w, tail) ==
            if !r.out.Ok? then r else
            match TruthOf(r.out.v)
            case None => Raise(r.w)
            case Some(b) => Eval(n, p, if b then View(e).t else View(e).f, env, r.w, tail)
  {
    hide EvalCond, EvalArgs, CallNamed, EvalDo;
    assert Eval(n, p, e, env, w, tail) == Step(n, p, e, env, w, tail);
  }

  /** The head and the arguments of a call. */
  lemma {:induction false} CallReady(e: Expr, st: Cg, env: Env, locals: REnv)
    requires View(e).Call? && Ready(e, st, env, locals)
    ensures View(e).head in Names(e) && ReadyAll(View(e).args, st, env, locals)
  {
    hide EnvRel;
    PartsAreSafe(e, st.thaws.Keys);
    PartNames(e);
    forall g | g in st.thaws.Keys ensures OnlyThawedIn(g, View(e).args, false) { assert ThawedWithin(View(e), g); }
    SoundLess(Names(e), NamesOf(View(e).args), st, st, env, locals);
  }

  lemma {:induction false} LocalCode(e: Expr, st: Cg)
    requires View(e).Call? && View(e).head in st.scope && CompileE(e, st).Emitted?
    ensures var binds := BindArgs(View(e).args, st);
            && binds.Emitted?
            && CompileE(e, st).code == R.Block(binds.code.0, R.ApplyValue(R.Read(R.V(View(e).head)), binds.code.1))
  {
    hide BindArgs, CompileCond, CompileDo, CompileClosure, CompileTry;
    assert CompileE(e, st) == CompileApp(e, st) == CompileHead(View(e).head, View(e).args, st);
  }

  lemma {:induction false} LocalStep(n: nat, p: Prog, e: Expr, env: Env, w: World)
    requires View(e).Call? && Lookup(env, View(e).head).Some?
    ensures Eval(n, p, e, env, w, false) ==
            match EvalArgs(n, p, View(e).args, env, w)
            case Stop(r) => r
            case Args(vs, w') =>
              if n == 0 then Res(Timeout, w') else KlEval.Apply(n - 1, p, Lookup(env, View(e).head).value, vs, w')
  {
    hide EvalArgs, CallNamed, EvalCond, EvalDo, KlEval.Apply;
    assert Eval(n, p, e, env, w, false) == Step(n, p, e, env, w, false);
  }

  /** The operands of an `and` or an `or`. */
  lemma {:induction false} BothParts(e: Expr, lex: set<SymId>, flat: set<SymId>, conts: set<SymId>)
    requires (View(e).And? || View(e).Or?) && Wf(e, lex, flat, conts) && Safe(e, conts)
    ensures var a, b := View(e).a, View(e).b;
            && Wf(a, lex, flat, conts) && Wf(b, lex, Flow(a, flat), conts)
            && Safe(a, conts) && Safe(b, conts) && Names(a) <= Names(e) && Names(b) <= Names(e)
  {
    PartsAreSafe(e, conts);
    PartNames(e);
  }

  lemma {:induction false} BothStep(n: nat, p: Prog, e: Expr, env: Env, w: World, tail: bool)
    requires View(e).And? || View(e).Or?
    ensures var r := Eval(n, p, View(e).a, env, w, false);
            Eval(n, p, e, env, w, tail) ==
            if Holds(r, View(e).And?) then Second(Eval(n, p, View(e).b, env, r.w, tail), tail)
            else ShortCut(r, View(e).Or?)
  {
    hide EvalCond, EvalArgs, CallNamed, EvalDo, Second, ShortCut, Holds;
    assert Eval(n, p, e, env, w, tail) == Step(n, p, e, env, w, tail);
  }

  /** Operator and operands of an application. */
  lemma {:induction false} OperatorParts(e: Expr, lex: set<SymId>, flat: set<SymId>, conts: set<SymId>)
    requires View(e).Apply? && Wf(e, lex, flat, conts) && Safe(e, conts)
    ensures var Apply(f, args) := View(e);
            && Wf(f, lex, flat, conts) && WfAll(args, lex, Flow(f, flat), conts)
            && Safe(f, conts) && SafeIn(args, conts) && Names(f) <= Names(e) && NamesOf(args) <= Names(e)
  {
    PartsAreSafe(e, conts);
    PartNames(e);
    forall g | g in conts ensures OnlyThawedIn(g, View(e).args, false) { assert ThawedWithin(View(e), g); }
  }

  lemma {:induction false} OperatorStep(n: nat, p: Prog, e: Expr, env: Env, w: World)
    requires View(e).Apply?
    ensures var g := Eval(n, p, View(e).fn, env, w, false);
            Eval(n, p, e, env, w, false) ==
            if !g.out.Ok? then g else
            match EvalArgs(n, p, View(e).args, env, g.w)
            case Stop(r) => r
            case Args(vs, w') => if n == 0 then Res(Timeout, w') else KlEval.Apply(n - 1, p, g.out.v, vs, w')
  {
    hide EvalCond, EvalArgs, CallNamed, EvalDo, KlEval.Apply;
    assert Eval(n, p, e, env, w, false) == Step(n, p, e, env, w, false);
  }
}
