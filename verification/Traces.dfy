/** A run of the evaluator changes globals and absvectors by the events of its trace, and by nothing else. */
module Traces {
  import opened Lists
  import opened Kl
  import opened Machine
  import opened KlEval
  import opened Effects

  /** The writes of a trace, without the calls and the new absvectors. */
  function Writes(t: seq<Event>): seq<Event>
  {
    if t == [] then []
    else if t[|t| - 1].Called? || t[|t| - 1].MadeVec? then Writes(t[..|t| - 1]) else Writes(t[..|t| - 1]) + [t[|t| - 1]]
  }

  lemma {:induction false} WritesGrow(t: seq<Event>, t': seq<Event>)
    requires t <= t'
    ensures Writes(t) <= Writes(t')
    decreases |t'|
  {
    if |t| < |t'| {
      WritesGrow(t, t'[..|t'| - 1]);
    } else {
      assert t == t';
    }
  }

  lemma {:induction false} AccountsE(start: World, n: nat, p: Prog, e: Expr, env: Env, w: World, tail: bool)
    requires Accounts(start, w)
    ensures Accounts(start, Eval(n, p, e, env, w, tail).w)
    decreases n, 2, e, 2
  {
    hide Step, AtomValue, Accounts;
    if e.App? {
      assert Eval(n, p, e, env, w, tail) == Step(n, p, e, env, w, tail);
      AccountsStep(start, n, p, e, env, w, tail);
    }
  }

  lemma {:induction false} AccountsStep(start: World, n: nat, p: Prog, e: Expr, env: Env, w: World, tail: bool)
    requires e.App?
    requires Accounts(start, w)
    ensures Accounts(start, Step(n, p, e, env, w, tail).w)
    decreases n, 2, e, 1
  {
    hide Accounts, Eval, EvalArgs, EvalCond, EvalDo, CallNamed, KlEval.Apply, TrapDrifts, Second, ShortCut;
    MarkAccounts(start);
    match View(e)
    case If(c, t, f) =>
      AccountsE(start, n, p, c, env, w, false);
      var r := Eval(n, p, c, env, w, false);
      AccountsE(start, n, p, t, env, r.w, tail);
      AccountsE(start, n, p, f, env, r.w, tail);
    case Let(x, v, b) =>
      AccountsE(start, n, p, v, env, w, false);
      var r := Eval(n, p, v, env, w, false);
      if r.out.Ok? { AccountsE(start, n, p, b, Push(x, r.out.v, env), r.w, tail); }
    case Cond(cs) => AccountsCond(start, n, p, cs, env, w, tail);
    case Do(es) => AccountsDo(start, n, p, es, env, w, tail);
    case And(_, _) => AccountsSecond(start, n, p, e, env, w, tail);
    case Or(_, _) => AccountsSecond(start, n, p, e, env, w, tail);
    case Thaw(a) =>
      AccountsE(start, n, p, a, env, w, false);
      var r := Eval(n, p, a, env, w, false);
      if n > 0 && r.out.Ok? { AccountsApply(start, n - 1, p, r.out.v, [], r.w); }
    case Trap(_, _) => AccountsTrap(start, n, p, e, env, w, tail);
    case Typed(a) => AccountsE(start, n, p, a, env, w, tail);
    case Call(_, _) => AccountsCall(start, n, p, e, env, w, tail);
    case Apply(f, args) =>
      AccountsE(start, n, p, f, env, w, false);
      var g := Eval(n, p, f, env, w, false);
      AccountsArgs(start, n, p, args, env, g.w);
      var a := EvalArgs(n, p, args, env, g.w);
      if n > 0 && g.out.Ok? && a.Args? { AccountsApply(start, n - 1, p, g.out.v, a.vs, a.w); }
    case _ =>
  }

  lemma {:induction false} AccountsSecond(start: World, n: nat, p: Prog, e: Expr, env: Env, w: World, tail: bool)
    requires View(e).And? || View(e).Or?
    requires Accounts(start, w)
    ensures Accounts(start, Step(n, p, e, env, w, tail).w)
    decreases n, 2, e, 0
  {
    hide Accounts, Eval, EvalArgs, EvalCond, EvalDo, CallNamed, KlEval.Apply;
    MarkAccounts(start);
    AccountsE(start, n, p, View(e).a, env, w, false);
    AccountsE(start, n, p, View(e).b, env, Eval(n, p, View(e).a, env, w, false).w, tail);
  }

  lemma {:induction false} AccountsTrap(start: World, n: nat, p: Prog, e: Expr, env: Env, w: World, tail: bool)
    requires View(e).Trap?
    requires Accounts(start, w)
    ensures Accounts(start, Step(n, p, e, env, w, tail).w)
    decreases n, 2, e, 0
  {
    hide Accounts, Eval, EvalArgs, EvalCond, EvalDo, CallNamed, KlEval.Apply, TrapDrifts;
    MarkAccounts(start);
    var Trap(b, h) := View(e);
    AccountsE(start, n, p, b, env, w, false);
    var r := Eval(n, p, b, env, w, false);
    var w' := if TrapDrifts(b, h, env) then Drifted(r.w) else r.w;
    AccountsE(start, n, p, h, env, w', false);
    var g := Eval(n, p, h, env, w', false);
    if n > 0 && r.out.Err? && g.out.Ok? { AccountsApply(start, n - 1, p, g.out.v, [VErr(r.out.m)], g.w); }
  }

  lemma {:induction false} AccountsCall(start: World, n: nat, p: Prog, e: Expr, env: Env, w: World, tail: bool)
    requires View(e).Call?
    requires Accounts(start, w)
    ensures Accounts(start, Step(n, p, e, env, w, tail).w)
    decreases n, 2, e, 0
  {
    hide Accounts, Eval, EvalArgs, EvalCond, EvalDo, CallNamed, KlEval.Apply;
    MarkAccounts(start);
    var Call(h, args) := View(e);
    AccountsArgs(start, n, p, args, env, w);
    var a := EvalArgs(n, p, args, env, w);
    if a.Args? {
      if Lookup(env, h).Some? {
        if n > 0 { AccountsApply(start, n - 1, p, Lookup(env, h).value, a.vs, a.w); }
      } else if Defined(p, h) {
        AccountsNamed(start, n, p, h, a.vs, a.w);
      }
    }
  }

  lemma {:induction false} AccountsCond(start: World, n: nat, p: Prog, cs: List<Expr>, env: Env, w: World, tail: bool)
    requires Accounts(start, w)
    ensures Accounts(start, EvalCond(n, p, cs, env, w, tail).w)
    decreases n, 2, cs
  {
    hide Accounts, Eval;
    match cs
    case Cons(App(Cons(t, Cons(v, Empty))), rest) =>
      AccountsE(start, n, p, t, env, w, false);
      var r := Eval(n, p, t, env, w, false);
      AccountsE(start, n, p, v, env, r.w, tail);
      AccountsCond(start, n, p, rest, env, r.w, tail);
    case _ =>
  }

  lemma {:induction false} AccountsDo(start: World, n: nat, p: Prog, es: List<Expr>, env: Env, w: World, tail: bool)
    requires Accounts(start, w)
    ensures Accounts(start, EvalDo(n, p, es, env, w, tail).w)
    decreases n, 2, es
  {
    hide Accounts, Eval;
    if es.Cons? {
      AccountsE(start, n, p, es.head, env, w, tail);
      AccountsE(start, n, p, es.head, env, w, false);
      AccountsDo(start, n, p, es.tail, env, Eval(n, p, es.head, env, w, false).w, tail);
    }
  }

  function WorldOf(a: ArgsRes): World
  {
    match a case Args(_, w) => w case Stop(r) => r.w
  }

  lemma {:induction false} AccountsArgs(start: World, n: nat, p: Prog, es: List<Expr>, env: Env, w: World)
    requires Accounts(start, w)
    ensures Accounts(start, WorldOf(EvalArgs(n, p, es, env, w)))
    decreases n, 2, es
  {
    hide Accounts, Eval;
    if es.Cons? {
      AccountsE(start, n, p, es.head, env, w, false);
      AccountsArgs(start, n, p, es.tail, env, Eval(n, p, es.head, env, w, false).w);
    }
  }

  lemma {:induction false} AccountsNamed(start: World, n: nat, p: Prog, f: SymId, vs: seq<Value>, w: World)
    requires Defined(p, f)
    requires Accounts(start, w)
    ensures Accounts(start, CallNamed(n, p, f, vs, w).w)
    decreases n, 1
  {
    hide Accounts, Eval, Saturated, KlEval.Apply, Arity;
    MarkAccounts(start);
    var k := ArityOf(p, f);
    if |vs| == k {
      AccountsSaturated(start, n, p, f, vs, w);
    } else if |vs| > k {
      var w0 := if f in p.prims then w else Drifted(w);
      AccountsSaturated(start, n, p, f, vs[..k], w0);
      var r := Saturated(n, p, f, vs[..k], w0);
      if n > 0 && r.out.Ok? {
        AccountsApply(start, n - 1, p, r.out.v, vs[k..], if Insists(p, f) then Drifted(r.w) else r.w);
      }
    }
  }

  lemma {:induction false} AccountsSaturated(start: World, n: nat, p: Prog, f: SymId, vs: seq<Value>, w: World)
    requires Defined(p, f) && |vs| == ArityOf(p, f)
    requires Accounts(start, w)
    ensures Accounts(start, Saturated(n, p, f, vs, w).w)
    decreases n, 0
  {
    hide Accounts, Eval, KlEval.Apply, Run, Attempt, Watch;
    MarkAccounts(start);
    if f !in p.prims {
      LogAccounts(start, w, f, vs);
      if n > 0 { AccountsE(start, n - 1, p, p.defs[f].body, Frame(p.defs[f].params, vs), Log(w, f, vs), true); }
    } else if Deferring(p.prims[f]) {
      AttemptAccounts(p.prims[f], vs, w);
      var w' := Watch(p.prims[f], vs, w);
      SameAccounts(start, w, w');
      AttemptAccounts(p.prims[f], vs, w');
      if n > 0 { AccountsApply(start, n - 1, p, vs[|vs| - 1], [], w'); }
    } else {
      RunAccounts(p.prims[f], vs, start, w);
    }
  }

  lemma {:induction false} AccountsApply(start: World, n: nat, p: Prog, f: Value, vs: seq<Value>, w: World)
    requires Accounts(start, w)
    ensures Accounts(start, KlEval.Apply(n, p, f, vs, w).w)
    decreases n, 3
  {
    hide Accounts, Eval, CallNamed;
    MarkAccounts(start);
    match f
    case VLam(env, param, body) =>
      var k := if param.Some? then 1 else 0;
      if |vs| >= k {
        var env' := if param.Some? then Push(param.value, vs[0], env) else env;
        AccountsE(start, n, p, body, env', w, false);
        var r := Eval(n, p, body, env', w, false);
        if n > 0 && r.out.Ok? { AccountsApply(start, n - 1, p, r.out.v, vs[k..], r.w); }
      }
    case VFn(name, partial) =>
      if n > 0 && Defined(p, name) { AccountsNamed(start, n - 1, p, name, partial + vs, w); }
    case _ =>
  }

  /** Whatever is called, the evaluator accounts for all it changed. */
  lemma {:induction false} CallAccounts(n: nat, p: Prog, f: SymId, vs: seq<Value>, w: World)
    requires Defined(p, f)
    ensures Accounts(w, CallNamed(n, p, f, vs, w).w)
  {
    hide Accounts, CallNamed;
    AccountsAtOnce(w);
    AccountsNamed(w, n, p, f, vs, w);
  }

  /** A defun that is entered leaves its mark first, whatever it is given besides. */
  lemma {:induction false} EnteredFirst(n: nat, p: Prog, f: SymId, vs: seq<Value>, w: World)
    requires n > 0 && f in p.defs && f !in p.prims && |vs| >= |p.defs[f].params|
    ensures w.trace + [Called(f, vs[..|p.defs[f].params|])] <= CallNamed(n, p, f, vs, w).w.trace
  {
    hide Accounts, Eval, KlEval.Apply;
    var k := |p.defs[f].params|;
    assert |vs| == k ==> vs[..k] == vs;
    var w0 := if |vs| == k then w else Drifted(w);
    var start := Log(w0, f, vs[..k]);
    AccountsAtOnce(start);
    AccountsE(start, n - 1, p, p.defs[f].body, Frame(p.defs[f].params, vs[..k]), start, true);
    var r := Saturated(n, p, f, vs[..k], w0);
    MarkAccounts(start);
    if |vs| > k && r.out.Ok? {
      AccountsApply(start, n - 1, p, r.out.v, vs[k..], if Insists(p, f) then Drifted(r.w) else r.w);
    }
    Continues(start, CallNamed(n, p, f, vs, w).w);
  }

  lemma {:induction false} Continues(start: World, w: World)
    requires Accounts(start, w)
    ensures start.trace <= w.trace
  {
  }
}
