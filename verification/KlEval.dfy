/**
 The tree-walking evaluator (interp/eval.rs), strict and left to right. Fuel `n` is spent only
 on entering a closure or a defun, so that the evaluator and compiled code spend it alike.
 */
module KlEval {
  import opened Lists
  import opened Kl
  import opened Machine

  datatype Def = Def(params: seq<SymId>, body: Expr)

  /** Primitives and defuns, by name. */
  datatype Prog = Prog(prims: map<SymId, Prim>, defs: map<SymId, Def>)

  datatype ArgsRes = Args(vs: seq<Value>, w: World) | Stop(r: Res)

  predicate Defined(p: Prog, f: SymId)
  {
    f in p.prims || f in p.defs
  }

  function ArityOf(p: Prog, f: SymId): nat
    requires Defined(p, f)
  {
    if f in p.prims then Arity(p.prims[f]) else |p.defs[f].params|
  }

  /** `params` bound to `args`; the last parameter is innermost. */
  function Frame(params: seq<SymId>, args: seq<Value>): Env
    requires |params| == |args|
  {
    if params == [] then EmptyEnv
    else Push(params[|params| - 1], args[|params| - 1],
              Frame(params[..|params| - 1], args[..|params| - 1]))
  }

  predicate Holds(r: Res, b: bool)
  {
    r.out.Ok? && TruthOf(r.out.v) == Some(b)
  }

  /** A first operand that settles `and` / `or`, or is no boolean at all. */
  function ShortCut(r: Res, b: bool): Res
  {
    if !r.out.Ok? then r else if TruthOf(r.out.v).None? then Raise(r.w) else Truth(b, r.w)
  }

  /** The second operand is the answer as it is; compiled expressions demand a boolean there. */
  function Second(r: Res, tail: bool): Res
  {
    if !tail && r.out.Ok? && TruthOf(r.out.v).None? then Res(r.out, Drifted(r.w)) else r
  }

  /** What an operand that is no application evaluates to. */
  function AtomValue(e: Expr, env: Env): Value
  {
    match e
    case Sym(x) => (match Lookup(env, x) case Some(v) => v case None => VSym(x))
    case _ => Quote(e)
  }

  /** `value/or` does not fall back when its operand is no symbol, while trapping `value` does. */
  predicate TrapDrifts(body: Expr, handler: Expr, env: Env)
  {
    var a := TrappedAccess(body, handler);
    a.Some? && a.value.op == K_VALUE && a.value.operands.Cons? && a.value.operands.tail.Empty?
    && !AtomValue(a.value.operands.head, env).VSym?
  }

  /**
   Evaluates `e`. `tail` says whether `e` stands where the compiler emits statements; it never
   changes the result, only whether `drift` is raised for a non-boolean second operand.
   */
  function Eval(n: nat, p: Prog, e: Expr, env: Env, w: World, tail: bool): (r: Res)
    ensures w.drift ==> r.w.drift
    decreases n, 2, e, 1
  {
    if e.App? then Step(n, p, e, env, w, tail) else Done(AtomValue(e, env), w)
  }

  /** One application: a special form by its head, otherwise a call. */
  function Step(n: nat, p: Prog, e: Expr, env: Env, w: World, tail: bool): (r: Res)
    requires e.App?
    ensures w.drift ==> r.w.drift
    decreases n, 2, e, 0
  {
    match View(e)
    case Const(l) => Done(Quote(l), w)
    case If(c, t, f) =>
      var r := Eval(n, p, c, env, w, false);
      if !r.out.Ok? then r else
      (match TruthOf(r.out.v)
       case None => Raise(r.w)
       case Some(b) => Eval(n, p, if b then t else f, env, r.w, tail))
    case Let(x, v, b) =>
      var r := Eval(n, p, v, env, w, false);
      if !r.out.Ok? then r else Eval(n, p, b, Push(x, r.out.v, env), r.w, tail)
    case Cond(cs) => EvalCond(n, p, cs, env, w, tail)
    case Do(es) => EvalDo(n, p, es, env, w, tail)
    case And(a, b) =>
      var r := Eval(n, p, a, env, w, false);
      if Holds(r, true) then Second(Eval(n, p, b, env, r.w, tail), tail) else ShortCut(r, false)
    case Or(a, b) =>
      var r := Eval(n, p, a, env, w, false);
      if Holds(r, false) then Second(Eval(n, p, b, env, r.w, tail), tail) else ShortCut(r, true)
    case Lambda(x, b) => Done(VLam(env, Some(x), b), w)
    case Freeze(b) => Done(VLam(env, None, b), w)
    case Thaw(a) =>
      var r := Eval(n, p, a, env, w, false);
      if !r.out.Ok? then r else
      if n == 0 then Res(Timeout, r.w) else Apply(n - 1, p, r.out.v, [], r.w)
    case Trap(b, h) =>
      var r := Eval(n, p, b, env, w, false);
      if !r.out.Err? then r else
      var w' := if TrapDrifts(b, h, env) then Drifted(r.w) else r.w;
      var g := Eval(n, p, h, env, w', false);
      if !g.out.Ok? then g else
      if n == 0 then Res(Timeout, g.w) else Apply(n - 1, p, g.out.v, [VErr(r.out.m)], g.w)
    case Typed(a) => Eval(n, p, a, env, w, tail)
    case Call(h, args) =>
      (match Lookup(env, h)
       case Some(f) =>
         (match EvalArgs(n, p, args, env, w)
          case Stop(r) => r
          case Args(vs, w') => if n == 0 then Res(Timeout, w') else Apply(n - 1, p, f, vs, w'))
       case None =>
         if !Defined(p, h) then Raise(if Atomic(args) then w else Drifted(w)) else
         (match EvalArgs(n, p, args, env, w)
          case Stop(r) => r
          case Args(vs, w') => CallNamed(n, p, h, vs, w')))
    case Apply(f, args) =>
      var g := Eval(n, p, f, env, w, false);
      if !g.out.Ok? then g else
      (match EvalArgs(n, p, args, env, g.w)
       case Stop(r) => r
       case Args(vs, w') => if n == 0 then Res(Timeout, w') else Apply(n - 1, p, g.out.v, vs, w'))
    case Define(_) => Raise(Drifted(w))
    case _ => Raise(w)
  }

  function EvalCond(n: nat, p: Prog, cs: List<Expr>, env: Env, w: World, tail: bool): (r: Res)
    ensures w.drift ==> r.w.drift
    decreases n, 2, cs
  {
    match cs
    case Cons(App(Cons(t, Cons(v, Empty))), rest) =>
      var r := Eval(n, p, t, env, w, false);
      if !r.out.Ok? then r else
      (match TruthOf(r.out.v)
       case None => Raise(r.w)
       case Some(b) => if b then Eval(n, p, v, env, r.w, tail) else EvalCond(n, p, rest, env, r.w, tail))
    case _ => Raise(w)
  }

  function EvalDo(n: nat, p: Prog, es: List<Expr>, env: Env, w: World, tail: bool): (r: Res)
    ensures w.drift ==> r.w.drift
    decreases n, 2, es
  {
    match es
    case Empty => Done(VNil, w)
    case Cons(e, Empty) => Eval(n, p, e, env, w, tail)
    case Cons(e, rest) =>
      var r := Eval(n, p, e, env, w, false);
      if !r.out.Ok? then r else EvalDo(n, p, rest, env, r.w, tail)
  }

  function EvalArgs(n: nat, p: Prog, es: List<Expr>, env: Env, w: World): (r: ArgsRes)
    ensures w.drift ==> (if r.Args? then r.w.drift else r.r.w.drift)
    ensures r.Stop? ==> !r.r.out.Ok?
    decreases n, 2, es
  {
    match es
    case Empty => Args([], w)
    case Cons(e, rest) =>
      var r := Eval(n, p, e, env, w, false);
      if !r.out.Ok? then Stop(r) else
      match EvalArgs(n, p, rest, env, r.w)
      case Args(vs, w') => Args([r.out.v] + vs, w')
      case stop => stop
  }

  /** Compiled code does not make partial applications of these. */
  predicate Insists(p: Prog, f: SymId)
  {
    f in p.prims ==> Direct(p.prims[f])
  }

  /**
   A call to a primitive or a defun: too few arguments make a partial application, extra ones are
   for the result. It drifts where compiled code insists on the exact number of arguments: with too
   few; with too many, for a defun, which raises, and for a native that returns, which ignores them.
   */
  function CallNamed(n: nat, p: Prog, f: SymId, vs: seq<Value>, w: World): (r: Res)
    requires Defined(p, f)
    ensures w.drift ==> r.w.drift
    decreases n, 1
  {
    var k := ArityOf(p, f);
    if |vs| < k then Done(VFn(f, vs), if Insists(p, f) then Drifted(w) else w)
    else if |vs| == k then Saturated(n, p, f, vs, w)
    else
      var r := Saturated(n, p, f, vs[..k], if f in p.prims then w else Drifted(w));
      if !r.out.Ok? then r else
      var w' := if Insists(p, f) then Drifted(r.w) else r.w;
      if n == 0 then Res(Timeout, w') else Apply(n - 1, p, r.out.v, vs[k..], w')
  }

  function Saturated(n: nat, p: Prog, f: SymId, vs: seq<Value>, w: World): (r: Res)
    requires Defined(p, f) && |vs| == ArityOf(p, f)
    ensures w.drift ==> r.w.drift
    decreases n, 0
  {
    if f !in p.prims then
      if n == 0 then Res(Timeout, w)
      else Eval(n - 1, p, p.defs[f].body, Frame(p.defs[f].params, vs), Log(w, f, vs), true)
    else if !Deferring(p.prims[f]) then Run(p.prims[f], vs, w)
    else
      var w' := Watch(p.prims[f], vs, w);
      match Attempt(p.prims[f], vs, w')
      case Some(r) => r
      case None =>
        if n == 0 then Res(Timeout, w') else Apply(n - 1, p, vs[|vs| - 1], [], w')
  }

  /** Applies a closure: partial application below its arity, the rest to the result above it. */
  function Apply(n: nat, p: Prog, f: Value, vs: seq<Value>, w: World): (r: Res)
    ensures w.drift ==> r.w.drift
    decreases n, 3
  {
    match f
    case VLam(env, param, body) =>
      var k := if param.Some? then 1 else 0;
      if |vs| < k then Done(f, w) else
      var env' := if param.Some? then Push(param.value, vs[0], env) else env;
      var r := Eval(n, p, body, env', w, false);
      if |vs| == k || !r.out.Ok? then r else
      if n == 0 then Res(Timeout, r.w) else Apply(n - 1, p, r.out.v, vs[k..], r.w)
    case VFn(name, partial) =>
      if !Defined(p, name) then Raise(w) else
      if n == 0 then Res(Timeout, w) else CallNamed(n - 1, p, name, partial + vs, w)
    case _ => Raise(w)
  }
}
