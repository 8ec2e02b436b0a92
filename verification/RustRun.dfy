/** What the emitted Rust does: lexically scoped locals, `?`, closures and the function loop. */
module RustRun {
  import opened Lists
  import opened Kl
  import opened Machine
  import opened R = RustIr

  datatype RProg = RProg(prims: map<SymId, Prim>, fns: map<SymId, RFn>)

  datatype BindsRes = Bound(env: REnv, w: World) | Halt(r: Res)

  /** A statement leaves the loop with a result, or goes round again with its locals as they are. */
  datatype StmtRes = Leave(r: Res) | Again(env: REnv, w: World)

  /** Rust that would not compile: an unbound local, a value used as a procedure, a `let` assigned again. */
  function IllFormed(w: World): Res { Res(Err(Stuck), w) }

  function GetAll(env: REnv, xs: seq<RVar>): (r: Option<seq<Value>>)
    ensures r.Some? ==> |r.value| == |xs|
  {
    if xs == [] then Some([])
    else match (GetVal(env, xs[0]), GetAll(env, xs[1..]))
         case (Some(v), Some(vs)) => Some([v] + vs)
         case _ => None
  }

  /** The locals that are cloned for a `move` closure. */
  function Capture(env: REnv, caps: seq<SymId>): Option<REnv>
  {
    if caps == [] then Some(EmptyREnv)
    else match (Capture(env, caps[..|caps| - 1]), GetVal(env, V(caps[|caps| - 1])))
         case (Some(inner), Some(v)) => Some(RPush(V(caps[|caps| - 1]), Val(v), inner))
         case _ => None
  }

  /** `x = ..;` writes the innermost local of that name. */
  function Assign(env: REnv, x: RVar, v: Value): REnv
  {
    match env
    case EmptyREnv => EmptyREnv
    case RPush(y, c, rest) => if y == x then RPush(y, Val(v), rest) else RPush(y, c, Assign(rest, x, v))
  }

  function Depth(env: REnv): nat
  {
    match env case EmptyREnv => 0 case RPush(_, _, rest) => 1 + Depth(rest)
  }

  /**
   A function declares its `k` parameters with `let mut` and every other local with `let`: the
   innermost local named `x` may be assigned only if it is one of the outermost `k`.
   */
  predicate Writable(env: REnv, x: RVar, k: nat)
  {
    match env
    case EmptyREnv => false
    case RPush(y, _, rest) => if y == x then Depth(env) <= k else Writable(rest, x, k)
  }

  /** `dst0 = src0; dst1 = src1; ..`, one after the other, in a function of `k` parameters. */
  function AssignAll(env: REnv, dst: seq<RVar>, src: seq<RVar>, k: nat): Option<REnv>
    requires |dst| == |src|
    decreases |dst|
  {
    if dst == [] then Some(env)
    else match GetVal(env, src[0])
         case Some(v) =>
           if Writable(env, dst[0], k) then AssignAll(Assign(env, dst[0], v), dst[1..], src[1..], k) else None
         case None => None
  }

  /** `continue` drops the locals of the blocks it leaves; the function's own `k` stay. */
  function Outermost(env: REnv, k: nat): REnv
  {
    if env.EmptyREnv? || Depth(env) <= k then env else Outermost(env.rrest, k)
  }

  function RFrame(params: seq<SymId>, args: seq<Value>): REnv
    requires |params| == |args|
  {
    if params == [] then EmptyREnv
    else RPush(V(params[|params| - 1]), Val(args[|params| - 1]),
               RFrame(params[..|params| - 1], args[..|params| - 1]))
  }

  predicate Probes(p: Probe, v: Value)
  {
    match p
    case IsNil => v.VNil?
    case IsStr(s) => v == VStr(s)
    case IsSym(id) => v == VSym(id)
  }

  /** Expressions that only look at locals and globals, or make a closure. */
  predicate Leaf(c: RExpr)
  {
    c.Lit? || c.Read? || c.BoolOf? || c.Fail? || c.Closure? || c.GlobalGet? || c.GlobalSet?
  }

  function RunLeaf(c: RExpr, env: REnv, w: World): Res
    requires Leaf(c)
  {
    match c
    case Lit(l) => Done(Quote(l), w)
    case Read(x) => (match GetVal(env, x) case Some(v) => Done(v, w) case None => IllFormed(w))
    case BoolOf(t) =>
      (match GetVal(env, t)
       case None => IllFormed(w)
       case Some(v) => match TruthOf(v) case None => Raise(w) case Some(b) => Truth(b, w))
    case Fail => Raise(w)
    case Closure(caps, param, body, shadow) =>
      (match (Capture(env, caps), GetAll(env, Locals(shadow)))
       case (Some(held), Some(vs)) => Done(VCode(held, param, body, vs), w)
       case _ => IllFormed(w))
    case GlobalGet(id) => if id in w.globals then Done(w.globals[id], w) else Raise(w)
    case GlobalSet(id, x) =>
      (match GetVal(env, x) case None => IllFormed(w) case Some(v) => Done(v, SetIn(w, id, v)))
  }

  function RunE(n: nat, q: RProg, c: RExpr, env: REnv, w: World): Res
    decreases n, 3, c, 1
  {
    if Leaf(c) then RunLeaf(c, env, w) else RunNode(n, q, c, env, w)
  }

  function RunNode(n: nat, q: RProg, c: RExpr, env: REnv, w: World): Res
    requires !Leaf(c)
    decreases n, 3, c, 0
  {
    match c
    case Block(bs, body) =>
      (match RunBinds(n, q, bs, env, w)
       case Halt(r) => r
       case Bound(env', w') => RunE(n, q, body, env', w'))
    case IfTrue(t, a, b) =>
      (match GetVal(env, t)
       case None => IllFormed(w)
       case Some(v) =>
         match TruthOf(v)
         case None => Raise(w)
         case Some(yes) => RunE(n, q, if yes then a else b, env, w))
    case CallNamed(f, xs) =>
      (match GetAll(env, xs) case None => IllFormed(w) case Some(vs) => CallCode(n, q, f, vs, w))
    case ApplyValue(fe, xs) =>
      var g := RunE(n, q, fe, env, w);
      if !g.out.Ok? then g else
      (match GetAll(env, xs)
       case None => IllFormed(g.w)
       case Some(vs) => if n == 0 then Res(Timeout, g.w) else ApplyCode(n - 1, q, g.out.v, vs, g.w))
    case Try(body, h) =>
      var r := RunE(n, q, body, env, w);
      if !r.out.Err? then r else
      var g := RunE(n, q, h, env, r.w);
      if !g.out.Ok? then g else
      if n == 0 then Res(Timeout, g.w) else ApplyCode(n - 1, q, g.out.v, [VErr(r.out.m)], g.w)
    case LetProc(go, code, body) => RunE(n, q, body, RPush(go, Proc(code, env), env), w)
    case Go(go) =>
      (match Get(env, go)
       case Some(Proc(code, env')) => if n == 0 then Res(Timeout, w) else RunE(n - 1, q, code, env', w)
       case _ => IllFormed(w))
    case Test(p, e) =>
      var r := RunE(n, q, e, env, w);
      if !r.out.Ok? then r else Truth(Probes(p, r.out.v), r.w)
  }

  function RunBinds(n: nat, q: RProg, bs: List<Bind>, env: REnv, w: World): (r: BindsRes)
    ensures r.Halt? ==> !r.r.out.Ok?
    decreases n, 3, bs
  {
    match bs
    case Empty => Bound(env, w)
    case Cons(Bind(x, e), rest) =>
      var r := RunE(n, q, e, env, w);
      if !r.out.Ok? then Halt(r)
      else RunBinds(n, q, rest, if x == Wild then env else RPush(x, Val(r.out.v), env), r.w)
  }

  function RunS(n: nat, q: RProg, s: RStmt, env: REnv, w: World): StmtRes
    decreases n, 3, s
  {
    match s
    case Break(e) => Leave(RunE(n, q, e, env, w))
    case BreakErr => Leave(Raise(w))
    case SBlock(bs, rest) =>
      (match RunBinds(n, q, bs, env, w)
       case Halt(r) => Leave(r)
       case Bound(env', w') => RunS(n, q, rest, env', w'))
    case SIf(t, a, b) =>
      (match GetVal(env, t)
       case None => Leave(IllFormed(w))
       case Some(v) =>
         match TruthOf(v)
         case None => Leave(Raise(w))
         case Some(yes) => RunS(n, q, if yes then a else b, env, w))
    case Continue(dst, src) =>
      if |dst| != |src| then Leave(IllFormed(w)) else
      (match AssignAll(env, dst, src, |dst|) case None => Leave(IllFormed(w)) case Some(env') => Again(env', w))
    case SLetProc(go, code, rest) => RunS(n, q, rest, RPush(go, Proc(code, env), env), w)
  }

  /** `loop { body }`. */
  function RunLoop(n: nat, q: RProg, fn: RFn, frame: REnv, w: World): Res
    decreases n, 4
  {
    match RunS(n, q, fn.body, frame, w)
    case Leave(r) => r
    case Again(env, w') =>
      if n == 0 then Res(Timeout, w') else
      var frame' := Outermost(env, |fn.params|);
      match GetAll(frame', Locals(fn.params))
      case None => IllFormed(w')
      case Some(args) => RunLoop(n - 1, q, fn, frame', Log(w', fn.name, args))
  }

  /**
   `apply_direct` and what stands for it: a compiled defun takes exactly its own arguments; a native
   override is called as it is; any other primitive goes through its closure.
   */
  function CallCode(n: nat, q: RProg, f: SymId, vs: seq<Value>, w: World): Res
    decreases n, 2
  {
    if f in q.prims then
      var op := q.prims[f];
      if !Direct(op) then NamedCode(n, q, f, vs, w)
      else if |vs| < Arity(op) then ShortArgs(op, vs, w)
      else PrimCode(n, q, op, vs[..Arity(op)], w)
    else if f in q.fns then
      if |vs| != |q.fns[f].params| then Raise(w) else Enter(n, q, f, vs, w)
    else Raise(w)
  }

  /** A function's closure: a partial application below its arity, the rest to the result above it. */
  function NamedCode(n: nat, q: RProg, f: SymId, vs: seq<Value>, w: World): Res
    requires f in q.prims || f in q.fns
    decreases n, 1
  {
    var k := if f in q.prims then Arity(q.prims[f]) else |q.fns[f].params|;
    if |vs| < k then Done(VFn(f, vs), w) else
    var r := if f in q.prims then PrimCode(n, q, q.prims[f], vs[..k], w) else Enter(n, q, f, vs[..k], w);
    if |vs| == k || !r.out.Ok? then r else
    if n == 0 then Res(Timeout, r.w) else ApplyCode(n - 1, q, r.out.v, vs[k..], r.w)
  }

  function Enter(n: nat, q: RProg, f: SymId, vs: seq<Value>, w: World): Res
    requires f in q.fns && |vs| == |q.fns[f].params|
    decreases n, 0
  {
    if n == 0 then Res(Timeout, w)
    else RunLoop(n - 1, q, q.fns[f], RFrame(q.fns[f].params, vs), Log(w, f, vs))
  }

  function PrimCode(n: nat, q: RProg, op: Prim, vs: seq<Value>, w: World): Res
    requires |vs| == Arity(op)
    decreases n, 0
  {
    if !Deferring(op) then Run(op, vs, w)
    else match Attempt(op, vs, w)
         case Some(r) => r
         case None => if n == 0 then Res(Timeout, w) else ApplyCode(n - 1, q, vs[|vs| - 1], [], w)
  }

  function ApplyCode(n: nat, q: RProg, f: Value, vs: seq<Value>, w: World): Res
    decreases n, 4
  {
    match f
    case VCode(env, param, code, _) =>
      var k := if param.Some? then 1 else 0;
      if |vs| < k then Done(f, w) else
      var env' := if param.Some? then RPush(V(param.value), Val(vs[0]), env) else env;
      var r := RunE(n, q, code, env', w);
      if |vs| == k || !r.out.Ok? then r else
      if n == 0 then Res(Timeout, r.w) else ApplyCode(n - 1, q, r.out.v, vs[k..], r.w)
    case VFn(name, partial) =>
      if name !in q.prims && name !in q.fns then Raise(w) else
      if n == 0 then Res(Timeout, w) else NamedCode(n - 1, q, name, partial + vs, w)
    case _ => Raise(w)
  }
}
