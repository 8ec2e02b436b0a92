/** The drift mark only watches: neither it nor the tail flag changes what the evaluator does. */
module Passive {
  import opened Lists
  import opened Kl
  import opened Machine
  import opened KlEval

  /** The same but for the mark. */
  predicate SameW(w: World, z: World)
  {
    w.(drift := false) == z.(drift := false)
  }

  predicate SameRes(r: Res, s: Res)
  {
    r.out == s.out && SameW(r.w, s.w)
  }

  predicate SameArgsRes(a: ArgsRes, b: ArgsRes)
  {
    match a
    case Args(vs, w) => b.Args? && b.vs == vs && SameW(w, b.w)
    case Stop(r) => b.Stop? && SameRes(r, b.r)
  }

  lemma {:induction false} RunSame(op: Prim, a: seq<Value>, w: World, z: World)
    requires |a| == Arity(op) && !Deferring(op) && SameW(w, z)
    ensures SameRes(Run(op, a, w), Run(op, a, z))
  {
    hide Arith, ValueEq;
    assert w.globals == z.globals && w.vecs == z.vecs && w.trace == z.trace;
  }

  lemma {:induction false} AttemptSame(op: Prim, a: seq<Value>, w: World, z: World)
    requires |a| == Arity(op) && Deferring(op) && SameW(w, z)
    ensures SameW(Watch(op, a, w), Watch(op, a, z))
    ensures Attempt(op, a, w).Some? <==> Attempt(op, a, z).Some?
    ensures Attempt(op, a, w).Some? ==> SameRes(Attempt(op, a, w).value, Attempt(op, a, z).value)
  {
    assert w.globals == z.globals && w.vecs == z.vecs && w.trace == z.trace;
  }

  lemma {:induction false} SameE(
    n: nat, p: Prog, e: Expr, env: Env, w: World, z: World, t: bool, u: bool)
    requires SameW(w, z)
    ensures SameRes(Eval(n, p, e, env, w, t), Eval(n, p, e, env, z, u))
    decreases n, 2, e, 2
  {
    hide Step, AtomValue;
    if e.App? {
      assert Eval(n, p, e, env, w, t) == Step(n, p, e, env, w, t);
      assert Eval(n, p, e, env, z, u) == Step(n, p, e, env, z, u);
      SameStep(n, p, e, env, w, z, t, u);
    }
  }

  lemma {:induction false} SameStep(
    n: nat, p: Prog, e: Expr, env: Env, w: World, z: World, t: bool, u: bool)
    requires SameW(w, z) && e.App?
    ensures SameRes(Step(n, p, e, env, w, t), Step(n, p, e, env, z, u))
    decreases n, 2, e, 1
  {
    hide Eval, EvalArgs, EvalCond, EvalDo, CallNamed, KlEval.Apply, Second, ShortCut, TrapDrifts;
    match View(e)
    case If(_, _, _) => SameIf(n, p, e, env, w, z, t, u);
    case Let(x, v, b) =>
      SameE(n, p, v, env, w, z, false, false);
      var r, s := Eval(n, p, v, env, w, false), Eval(n, p, v, env, z, false);
      if r.out.Ok? { SameE(n, p, b, Push(x, r.out.v, env), r.w, s.w, t, u); }
    case Cond(cs) => SameCond(n, p, cs, env, w, z, t, u);
    case Do(es) => SameDo(n, p, es, env, w, z, t, u);
    case And(_, _) => SameSecond(n, p, e, env, w, z, t, u);
    case Or(_, _) => SameSecond(n, p, e, env, w, z, t, u);
    case Thaw(a) =>
      SameE(n, p, a, env, w, z, false, false);
      var r, s := Eval(n, p, a, env, w, false), Eval(n, p, a, env, z, false);
      if n > 0 && r.out.Ok? { SameApply(n - 1, p, r.out.v, [], r.w, s.w); }
    case Trap(_, _) => SameTrap(n, p, e, env, w, z, t, u);
    case Typed(a) => SameE(n, p, a, env, w, z, t, u);
    case Call(_, _) => SameCall(n, p, e, env, w, z, t, u);
    case Apply(_, _) => SameOperator(n, p, e, env, w, z, t, u);
    case _ =>
  }

  lemma {:induction false} SameIf(
    n: nat, p: Prog, e: Expr, env: Env, w: World, z: World, t: bool, u: bool)
    requires SameW(w, z) && View(e).If?
    ensures SameRes(Step(n, p, e, env, w, t), Step(n, p, e, env, z, u))
    decreases n, 2, e, 0
  {
    hide Eval, EvalArgs, EvalCond, EvalDo, CallNamed, KlEval.Apply;
    var If(c, a, b) := View(e);
    SameE(n, p, c, env, w, z, false, false);
    var r, s := Eval(n, p, c, env, w, false), Eval(n, p, c, env, z, false);
    SameE(n, p, a, env, r.w, s.w, t, u);
    SameE(n, p, b, env, r.w, s.w, t, u);
  }

  lemma {:induction false} SameOperator(
    n: nat, p: Prog, e: Expr, env: Env, w: World, z: World, t: bool, u: bool)
    requires SameW(w, z) && View(e).Apply?
    ensures SameRes(Step(n, p, e, env, w, t), Step(n, p, e, env, z, u))
    decreases n, 2, e, 0
  {
    hide Eval, EvalArgs, EvalCond, EvalDo, CallNamed, KlEval.Apply;
    var Apply(f, args) := View(e);
    SameE(n, p, f, env, w, z, false, false);
    var g, h := Eval(n, p, f, env, w, false), Eval(n, p, f, env, z, false);
    SameArgs(n, p, args, env, g.w, h.w);
    var a, b := EvalArgs(n, p, args, env, g.w), EvalArgs(n, p, args, env, h.w);
    if n > 0 && g.out.Ok? && a.Args? { SameApply(n - 1, p, g.out.v, a.vs, a.w, b.w); }
  }

  lemma {:induction false} SameSecond(
    n: nat, p: Prog, e: Expr, env: Env, w: World, z: World, t: bool, u: bool)
    requires SameW(w, z) && (View(e).And? || View(e).Or?)
    ensures SameRes(Step(n, p, e, env, w, t), Step(n, p, e, env, z, u))
    decreases n, 2, e, 0
  {
    hide Eval, EvalArgs, EvalCond, EvalDo, CallNamed, KlEval.Apply;
    SameE(n, p, View(e).a, env, w, z, false, false);
    var r, s := Eval(n, p, View(e).a, env, w, false), Eval(n, p, View(e).a, env, z, false);
    SameE(n, p, View(e).b, env, r.w, s.w, t, u);
  }

  lemma {:induction false} SameTrap(
    n: nat, p: Prog, e: Expr, env: Env, w: World, z: World, t: bool, u: bool)
    requires SameW(w, z) && View(e).Trap?
    ensures SameRes(Step(n, p, e, env, w, t), Step(n, p, e, env, z, u))
    decreases n, 2, e, 0
  {
    hide Eval, EvalArgs, EvalCond, EvalDo, CallNamed, KlEval.Apply, TrapDrifts;
    var Trap(b, h) := View(e);
    SameE(n, p, b, env, w, z, false, false);
    var r, s := Eval(n, p, b, env, w, false), Eval(n, p, b, env, z, false);
    var w' := if TrapDrifts(b, h, env) then Drifted(r.w) else r.w;
    var z' := if TrapDrifts(b, h, env) then Drifted(s.w) else s.w;
    SameE(n, p, h, env, w', z', false, false);
    var g, k := Eval(n, p, h, env, w', false), Eval(n, p, h, env, z', false);
    if n > 0 && r.out.Err? && g.out.Ok? { SameApply(n - 1, p, g.out.v, [VErr(r.out.m)], g.w, k.w); }
  }

  lemma {:induction false} SameCall(
    n: nat, p: Prog, e: Expr, env: Env, w: World, z: World, t: bool, u: bool)
    requires SameW(w, z) && View(e).Call?
    ensures SameRes(Step(n, p, e, env, w, t), Step(n, p, e, env, z, u))
    decreases n, 2, e, 0
  {
    hide Eval, EvalArgs, EvalCond, EvalDo, CallNamed, KlEval.Apply;
    var Call(h, args) := View(e);
    SameArgs(n, p, args, env, w, z);
    var a, b := EvalArgs(n, p, args, env, w), EvalArgs(n, p, args, env, z);
    if a.Args? {
      if Lookup(env, h).Some? {
        if n > 0 { SameApply(n - 1, p, Lookup(env, h).value, a.vs, a.w, b.w); }
      } else if Defined(p, h) {
        SameNamed(n, p, h, a.vs, a.w, b.w);
      }
    }
  }

  lemma {:induction false} SameCond(
    n: nat, p: Prog, cs: List<Expr>, env: Env, w: World, z: World, t: bool, u: bool)
    requires SameW(w, z)
    ensures SameRes(EvalCond(n, p, cs, env, w, t), EvalCond(n, p, cs, env, z, u))
    decreases n, 2, cs
  {
    hide Eval;
    match cs
    case Cons(App(Cons(c, Cons(v, Empty))), rest) =>
      SameE(n, p, c, env, w, z, false, false);
      var r, s := Eval(n, p, c, env, w, false), Eval(n, p, c, env, z, false);
      SameE(n, p, v, env, r.w, s.w, t, u);
      SameCond(n, p, rest, env, r.w, s.w, t, u);
    case _ =>
  }

  lemma {:induction false} SameDo(
    n: nat, p: Prog, es: List<Expr>, env: Env, w: World, z: World, t: bool, u: bool)
    requires SameW(w, z)
    ensures SameRes(EvalDo(n, p, es, env, w, t), EvalDo(n, p, es, env, z, u))
    decreases n, 2, es
  {
    hide Eval;
    if es.Cons? {
      SameE(n, p, es.head, env, w, z, t, u);
      SameE(n, p, es.head, env, w, z, false, false);
      SameDo(n, p, es.tail, env, Eval(n, p, es.head, env, w, false).w, Eval(n, p, es.head, env, z, false).w, t, u);
    }
  }

  lemma {:induction false} SameArgs(n: nat, p: Prog, es: List<Expr>, env: Env, w: World, z: World)
    requires SameW(w, z)
    ensures SameArgsRes(EvalArgs(n, p, es, env, w), EvalArgs(n, p, es, env, z))
    decreases n, 2, es
  {
    hide Eval;
    if es.Cons? {
      SameE(n, p, es.head, env, w, z, false, false);
      SameArgs(n, p, es.tail, env, Eval(n, p, es.head, env, w, false).w, Eval(n, p, es.head, env, z, false).w);
    }
  }

  lemma {:induction false} SameNamed(n: nat, p: Prog, f: SymId, vs: seq<Value>, w: World, z: World)
    requires SameW(w, z) && Defined(p, f)
    ensures SameRes(CallNamed(n, p, f, vs, w), CallNamed(n, p, f, vs, z))
    decreases n, 1
  {
    hide Eval, Saturated, KlEval.Apply, Arity;
    var k := ArityOf(p, f);
    if |vs| == k {
      SameSaturated(n, p, f, vs, w, z);
    } else if |vs| > k {
      var w0, z0 := if f in p.prims then w else Drifted(w), if f in p.prims then z else Drifted(z);
      SameSaturated(n, p, f, vs[..k], w0, z0);
      var r, s := Saturated(n, p, f, vs[..k], w0), Saturated(n, p, f, vs[..k], z0);
      var w', z' := if Insists(p, f) then Drifted(r.w) else r.w, if Insists(p, f) then Drifted(s.w) else s.w;
      if n > 0 && r.out.Ok? { SameApply(n - 1, p, r.out.v, vs[k..], w', z'); }
    }
  }

  lemma {:induction false} SameSaturated(n: nat, p: Prog, f: SymId, vs: seq<Value>, w: World, z: World)
    requires SameW(w, z) && Defined(p, f) && |vs| == ArityOf(p, f)
    ensures SameRes(Saturated(n, p, f, vs, w), Saturated(n, p, f, vs, z))
    decreases n, 0
  {
    hide Eval, KlEval.Apply, Run, Attempt, Watch;
    if f !in p.prims {
      if n > 0 {
        SameE(n - 1, p, p.defs[f].body, Frame(p.defs[f].params, vs), Log(w, f, vs), Log(z, f, vs), true, true);
      }
    } else if Deferring(p.prims[f]) {
      AttemptSame(p.prims[f], vs, w, z);
      var w', z' := Watch(p.prims[f], vs, w), Watch(p.prims[f], vs, z);
      AttemptSame(p.prims[f], vs, w', z');
      if n > 0 { SameApply(n - 1, p, vs[|vs| - 1], [], w', z'); }
    } else {
      RunSame(p.prims[f], vs, w, z);
    }
  }

  lemma {:induction false} SameApply(n: nat, p: Prog, f: Value, vs: seq<Value>, w: World, z: World)
    requires SameW(w, z)
    ensures SameRes(KlEval.Apply(n, p, f, vs, w), KlEval.Apply(n, p, f, vs, z))
    decreases n, 3
  {
    hide Eval, CallNamed;
    match f
    case VLam(env, param, body) =>
      var k := if param.Some? then 1 else 0;
      if |vs| >= k {
        var env' := if param.Some? then Push(param.value, vs[0], env) else env;
        SameE(n, p, body, env', w, z, false, false);
        var r, s := Eval(n, p, body, env', w, false), Eval(n, p, body, env', z, false);
        if n > 0 && r.out.Ok? { SameApply(n - 1, p, r.out.v, vs[k..], r.w, s.w); }
      }
    case VFn(name, partial) =>
      if n > 0 && Defined(p, name) { SameNamed(n - 1, p, name, partial + vs, w, z); }
    case _ =>
  }
}
