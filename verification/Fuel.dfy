/** Fuel only decides whether a run ends: once it does, more fuel changes nothing. */
module Fuel {
  import opened Lists
  import opened Kl
  import opened Machine
  import opened KlEval

  predicate Settled(r: Res, s: Res)
  {
    !r.out.Timeout? ==> s == r
  }

  lemma {:induction false} MoreE(n: nat, m: nat, p: Prog, e: Expr, env: Env, w: World, tail: bool)
    requires n <= m
    ensures Settled(Eval(n, p, e, env, w, tail), Eval(m, p, e, env, w, tail))
    decreases n, 2, e, 2
  {
    if e.App? {
      assert Eval(n, p, e, env, w, tail) == Step(n, p, e, env, w, tail);
      assert Eval(m, p, e, env, w, tail) == Step(m, p, e, env, w, tail);
      MoreStep(n, m, p, e, env, w, tail);
    }
  }

  lemma {:induction false} MoreStep(n: nat, m: nat, p: Prog, e: Expr, env: Env, w: World, tail: bool)
    requires n <= m && e.App?
    ensures Settled(Step(n, p, e, env, w, tail), Step(m, p, e, env, w, tail))
    decreases n, 2, e, 1
  {
    hide Eval, EvalArgs, EvalCond, EvalDo, CallNamed, KlEval.Apply, Second, ShortCut, TrapDrifts;
    match View(e)
    case If(c, t, f) =>
      MoreE(n, m, p, c, env, w, false);
      var r := Eval(n, p, c, env, w, false);
      MoreE(n, m, p, t, env, r.w, tail);
      MoreE(n, m, p, f, env, r.w, tail);
    case Let(x, v, b) =>
      MoreE(n, m, p, v, env, w, false);
      var r := Eval(n, p, v, env, w, false);
      if r.out.Ok? { MoreE(n, m, p, b, Push(x, r.out.v, env), r.w, tail); }
    case Cond(cs) => MoreCond(n, m, p, cs, env, w, tail);
    case Do(es) => MoreDo(n, m, p, es, env, w, tail);
    case And(_, _) => MoreSecond(n, m, p, e, env, w, tail);
    case Or(_, _) => MoreSecond(n, m, p, e, env, w, tail);
    case Thaw(a) =>
      MoreE(n, m, p, a, env, w, false);
      var r := Eval(n, p, a, env, w, false);
      if n > 0 && r.out.Ok? { MoreApply(n - 1, m - 1, p, r.out.v, [], r.w); }
    case Trap(_, _) => MoreTrap(n, m, p, e, env, w, tail);
    case Typed(a) => MoreE(n, m, p, a, env, w, tail);
    case Call(_, _) => MoreCall(n, m, p, e, env, w, tail);
    case Apply(f, args) =>
      MoreE(n, m, p, f, env, w, false);
      var g := Eval(n, p, f, env, w, false);
      MoreArgs(n, m, p, args, env, g.w);
      var a := EvalArgs(n, p, args, env, g.w);
      if n > 0 && g.out.Ok? && a.Args? { MoreApply(n - 1, m - 1, p, g.out.v, a.vs, a.w); }
    case _ =>
  }

  lemma {:induction false} MoreSecond(n: nat, m: nat, p: Prog, e: Expr, env: Env, w: World, tail: bool)
    requires n <= m && (View(e).And? || View(e).Or?)
    ensures Settled(Step(n, p, e, env, w, tail), Step(m, p, e, env, w, tail))
    decreases n, 2, e, 0
  {
    hide Eval, EvalArgs, EvalCond, EvalDo, CallNamed, KlEval.Apply;
    MoreE(n, m, p, View(e).a, env, w, false);
    var r := Eval(n, p, View(e).a, env, w, false);
    MoreE(n, m, p, View(e).b, env, r.w, tail);
  }

  lemma {:induction false} MoreTrap(n: nat, m: nat, p: Prog, e: Expr, env: Env, w: World, tail: bool)
    requires n <= m && View(e).Trap?
    ensures Settled(Step(n, p, e, env, w, tail), Step(m, p, e, env, w, tail))
    decreases n, 2, e, 0
  {
    hide Eval, EvalArgs, EvalCond, EvalDo, CallNamed, KlEval.Apply, TrapDrifts;
    var Trap(b, h) := View(e);
    MoreE(n, m, p, b, env, w, false);
    var r := Eval(n, p, b, env, w, false);
    var w' := if TrapDrifts(b, h, env) then Drifted(r.w) else r.w;
    MoreE(n, m, p, h, env, w', false);
    var g := Eval(n, p, h, env, w', false);
    if n > 0 && r.out.Err? && g.out.Ok? { MoreApply(n - 1, m - 1, p, g.out.v, [VErr(r.out.m)], g.w); }
  }

  lemma {:induction false} MoreCall(n: nat, m: nat, p: Prog, e: Expr, env: Env, w: World, tail: bool)
    requires n <= m && View(e).Call?
    ensures Settled(Step(n, p, e, env, w, tail), Step(m, p, e, env, w, tail))
    decreases n, 2, e, 0
  {
    hide Eval, EvalArgs, EvalCond, EvalDo, CallNamed, KlEval.Apply;
    var Call(h, args) := View(e);
    MoreArgs(n, m, p, args, env, w);
    var a := EvalArgs(n, p, args, env, w);
    if a.Args? {
      if Lookup(env, h).Some? {
        if n > 0 { MoreApply(n - 1, m - 1, p, Lookup(env, h).value, a.vs, a.w); }
      } else if Defined(p, h) {
        MoreNamed(n, m, p, h, a.vs, a.w);
      }
    }
  }

  lemma {:induction false} MoreCond(n: nat, m: nat, p: Prog, cs: List<Expr>, env: Env, w: World, tail: bool)
    requires n <= m
    ensures Settled(EvalCond(n, p, cs, env, w, tail), EvalCond(m, p, cs, env, w, tail))
    decreases n, 2, cs
  {
    hide Eval;
    match cs
    case Cons(App(Cons(t, Cons(v, Empty))), rest) =>
      MoreE(n, m, p, t, env, w, false);
      var r := Eval(n, p, t, env, w, false);
      MoreE(n, m, p, v, env, r.w, tail);
      MoreCond(n, m, p, rest, env, r.w, tail);
    case _ =>
  }

  lemma {:induction false} MoreDo(n: nat, m: nat, p: Prog, es: List<Expr>, env: Env, w: World, tail: bool)
    requires n <= m
    ensures Settled(EvalDo(n, p, es, env, w, tail), EvalDo(m, p, es, env, w, tail))
    decreases n, 2, es
  {
    hide Eval;
    if es.Cons? {
      MoreE(n, m, p, es.head, env, w, tail);
      MoreE(n, m, p, es.head, env, w, false);
      MoreDo(n, m, p, es.tail, env, Eval(n, p, es.head, env, w, false).w, tail);
    }
  }

  predicate SettledArgs(a: ArgsRes, b: ArgsRes)
  {
    !(a.Stop? && a.r.out.Timeout?) ==> b == a
  }

  lemma {:induction false} MoreArgs(n: nat, m: nat, p: Prog, es: List<Expr>, env: Env, w: World)
    requires n <= m
    ensures SettledArgs(EvalArgs(n, p, es, env, w), EvalArgs(m, p, es, env, w))
    decreases n, 2, es
  {
    hide Eval;
    if es.Cons? {
      MoreE(n, m, p, es.head, env, w, false);
      MoreArgs(n, m, p, es.tail, env, Eval(n, p, es.head, env, w, false).w);
    }
  }

  lemma {:induction false} MoreNamed(n: nat, m: nat, p: Prog, f: SymId, vs: seq<Value>, w: World)
    requires n <= m && Defined(p, f)
    ensures Settled(CallNamed(n, p, f, vs, w), CallNamed(m, p, f, vs, w))
    decreases n, 1
  {
    hide Eval, Saturated, KlEval.Apply, Arity;
    var k := ArityOf(p, f);
    if |vs| == k {
      MoreSaturated(n, m, p, f, vs, w);
    } else if |vs| > k {
      var w0 := if f in p.prims then w else Drifted(w);
      MoreSaturated(n, m, p, f, vs[..k], w0);
      var r := Saturated(n, p, f, vs[..k], w0);
      if n > 0 && r.out.Ok? {
        MoreApply(n - 1, m - 1, p, r.out.v, vs[k..], if Insists(p, f) then Drifted(r.w) else r.w);
      }
    }
  }

  lemma {:induction false} MoreSaturated(n: nat, m: nat, p: Prog, f: SymId, vs: seq<Value>, w: World)
    requires n <= m && Defined(p, f) && |vs| == ArityOf(p, f)
    ensures Settled(Saturated(n, p, f, vs, w), Saturated(m, p, f, vs, w))
    decreases n, 0
  {
    hide Eval, KlEval.Apply, Run, Attempt;
    if n > 0 {
      if f !in p.prims {
        MoreE(n - 1, m - 1, p, p.defs[f].body, Frame(p.defs[f].params, vs), Log(w, f, vs), true);
      } else if Deferring(p.prims[f]) {
        MoreApply(n - 1, m - 1, p, vs[|vs| - 1], [], Watch(p.prims[f], vs, w));
      }
    }
  }

  lemma {:induction false} MoreApply(n: nat, m: nat, p: Prog, f: Value, vs: seq<Value>, w: World)
    requires n <= m
    ensures Settled(KlEval.Apply(n, p, f, vs, w), KlEval.Apply(m, p, f, vs, w))
    decreases n, 3
  {
    hide Eval, CallNamed;
    match f
    case VLam(env, param, body) =>
      var k := if param.Some? then 1 else 0;
      if |vs| >= k {
        var env' := if param.Some? then Push(param.value, vs[0], env) else env;
        MoreE(n, m, p, body, env', w, false);
        var r := Eval(n, p, body, env', w, false);
        if n > 0 && r.out.Ok? { MoreApply(n - 1, m - 1, p, r.out.v, vs[k..], r.w); }
      }
    case VFn(name, partial) =>
      if n > 0 && Defined(p, name) { MoreNamed(n - 1, m - 1, p, name, partial + vs, w); }
    case _ =>
  }
}
