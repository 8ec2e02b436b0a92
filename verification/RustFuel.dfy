/** The same of compiled code: more fuel does not change a run that ends. */
module RustFuel {
  import opened Lists
  import opened Kl
  import opened Machine
  import opened R = RustIr
  import opened RustRun
  import opened Fuel

  lemma {:induction false} MoreRun(n: nat, m: nat, q: RProg, c: RExpr, env: REnv, w: World)
    requires n <= m
    ensures Settled(RunE(n, q, c, env, w), RunE(m, q, c, env, w))
    decreases n, 3, c, 1
  {
    if !Leaf(c) { MoreNode(n, m, q, c, env, w); }
  }

  lemma {:induction false} MoreNode(n: nat, m: nat, q: RProg, c: RExpr, env: REnv, w: World)
    requires n <= m && !Leaf(c)
    ensures Settled(RunNode(n, q, c, env, w), RunNode(m, q, c, env, w))
    decreases n, 3, c, 0
  {
    hide RunE, RunBinds, CallCode, ApplyCode, RunLeaf;
    match c
    case Block(bs, body) =>
      MoreBinds(n, m, q, bs, env, w);
      var b := RunBinds(n, q, bs, env, w);
      if b.Bound? { MoreRun(n, m, q, body, b.env, b.w); }
    case IfTrue(t, a, b) =>
      MoreRun(n, m, q, a, env, w);
      MoreRun(n, m, q, b, env, w);
    case CallNamed(f, xs) =>
      if GetAll(env, xs).Some? { MoreCode(n, m, q, f, GetAll(env, xs).value, w); }
    case ApplyValue(fe, xs) =>
      MoreRun(n, m, q, fe, env, w);
      var g := RunE(n, q, fe, env, w);
      if n > 0 && g.out.Ok? && GetAll(env, xs).Some? {
        MoreApplied(n - 1, m - 1, q, g.out.v, GetAll(env, xs).value, g.w);
      }
    case Try(body, h) =>
      MoreRun(n, m, q, body, env, w);
      var r := RunE(n, q, body, env, w);
      MoreRun(n, m, q, h, env, r.w);
      var g := RunE(n, q, h, env, r.w);
      if n > 0 && r.out.Err? && g.out.Ok? { MoreApplied(n - 1, m - 1, q, g.out.v, [VErr(r.out.m)], g.w); }
    case LetProc(go, code, body) => MoreRun(n, m, q, body, RPush(go, Proc(code, env), env), w);
    case Go(go) =>
      if n > 0 && Get(env, go).Some? && Get(env, go).value.Proc? {
        MoreRun(n - 1, m - 1, q, Get(env, go).value.pcode, Get(env, go).value.penv, w);
      }
    case Test(_, e) => MoreRun(n, m, q, e, env, w);
  }

  predicate SettledBinds(a: BindsRes, b: BindsRes)
  {
    !(a.Halt? && a.r.out.Timeout?) ==> b == a
  }

  lemma {:induction false} MoreBinds(n: nat, m: nat, q: RProg, bs: List<Bind>, env: REnv, w: World)
    requires n <= m
    ensures SettledBinds(RunBinds(n, q, bs, env, w), RunBinds(m, q, bs, env, w))
    decreases n, 3, bs
  {
    hide RunE;
    if bs.Cons? {
      var Bind(x, e) := bs.head;
      MoreRun(n, m, q, e, env, w);
      var r := RunE(n, q, e, env, w);
      if r.out.Ok? { MoreBinds(n, m, q, bs.tail, if x == Wild then env else RPush(x, Val(r.out.v), env), r.w); }
    }
  }

  predicate SettledStmt(a: StmtRes, b: StmtRes)
  {
    !(a.Leave? && a.r.out.Timeout?) ==> b == a
  }

  lemma {:induction false} MoreStmt(n: nat, m: nat, q: RProg, s: RStmt, env: REnv, w: World)
    requires n <= m
    ensures SettledStmt(RunS(n, q, s, env, w), RunS(m, q, s, env, w))
    decreases n, 3, s
  {
    hide RunE, RunBinds;
    match s
    case Break(e) => MoreRun(n, m, q, e, env, w);
    case SBlock(bs, rest) =>
      MoreBinds(n, m, q, bs, env, w);
      var b := RunBinds(n, q, bs, env, w);
      if b.Bound? { MoreStmt(n, m, q, rest, b.env, b.w); }
    case SIf(_, a, b) =>
      MoreStmt(n, m, q, a, env, w);
      MoreStmt(n, m, q, b, env, w);
    case SLetProc(go, code, rest) => MoreStmt(n, m, q, rest, RPush(go, Proc(code, env), env), w);
    case _ =>
  }

  lemma {:induction false} MoreLoop(n: nat, m: nat, q: RProg, fn: RFn, frame: REnv, w: World)
    requires n <= m
    ensures Settled(RunLoop(n, q, fn, frame, w), RunLoop(m, q, fn, frame, w))
    decreases n, 4
  {
    hide RunS;
    MoreStmt(n, m, q, fn.body, frame, w);
    var r := RunS(n, q, fn.body, frame, w);
    if n > 0 && r.Again? {
      var frame' := Outermost(r.env, |fn.params|);
      var args := GetAll(frame', Locals(fn.params));
      if args.Some? { MoreLoop(n - 1, m - 1, q, fn, frame', Log(r.w, fn.name, args.value)); }
    }
  }

  lemma {:induction false} MoreCode(n: nat, m: nat, q: RProg, f: SymId, vs: seq<Value>, w: World)
    requires n <= m
    ensures Settled(CallCode(n, q, f, vs, w), CallCode(m, q, f, vs, w))
    decreases n, 2
  {
    hide PrimCode, RunLoop, ApplyCode, NamedCode, Enter, Arity;
    if f in q.prims {
      var k := Arity(q.prims[f]);
      if !Direct(q.prims[f]) {
        MoreThrough(n, m, q, f, vs, w);
      } else if |vs| >= k {
        MorePrim(n, m, q, q.prims[f], vs[..k], w);
      }
    } else if f in q.fns && |vs| == |q.fns[f].params| {
      MoreEnter(n, m, q, f, vs, w);
    }
  }

  lemma {:induction false} MoreThrough(n: nat, m: nat, q: RProg, f: SymId, vs: seq<Value>, w: World)
    requires n <= m && (f in q.prims || f in q.fns)
    ensures Settled(NamedCode(n, q, f, vs, w), NamedCode(m, q, f, vs, w))
    decreases n, 1
  {
    hide PrimCode, ApplyCode, Enter, Arity;
    var k := if f in q.prims then Arity(q.prims[f]) else |q.fns[f].params|;
    if |vs| >= k {
      if f in q.prims { MorePrim(n, m, q, q.prims[f], vs[..k], w); } else { MoreEnter(n, m, q, f, vs[..k], w); }
      var r := if f in q.prims then PrimCode(n, q, q.prims[f], vs[..k], w) else Enter(n, q, f, vs[..k], w);
      if n > 0 && r.out.Ok? { MoreApplied(n - 1, m - 1, q, r.out.v, vs[k..], r.w); }
    }
  }

  lemma {:induction false} MoreEnter(n: nat, m: nat, q: RProg, f: SymId, vs: seq<Value>, w: World)
    requires n <= m && f in q.fns && |vs| == |q.fns[f].params|
    ensures Settled(Enter(n, q, f, vs, w), Enter(m, q, f, vs, w))
    decreases n, 0
  {
    hide RunLoop;
    if n > 0 { MoreLoop(n - 1, m - 1, q, q.fns[f], RFrame(q.fns[f].params, vs), Log(w, f, vs)); }
  }

  lemma {:induction false} MorePrim(n: nat, m: nat, q: RProg, op: Prim, vs: seq<Value>, w: World)
    requires n <= m && |vs| == Arity(op)
    ensures Settled(PrimCode(n, q, op, vs, w), PrimCode(m, q, op, vs, w))
    decreases n, 0
  {
    hide ApplyCode, Run, Attempt;
    if n > 0 && Deferring(op) { MoreApplied(n - 1, m - 1, q, vs[|vs| - 1], [], w); }
  }

  lemma {:induction false} MoreApplied(n: nat, m: nat, q: RProg, f: Value, vs: seq<Value>, w: World)
    requires n <= m
    ensures Settled(ApplyCode(n, q, f, vs, w), ApplyCode(m, q, f, vs, w))
    decreases n, 4
  {
    hide RunE, NamedCode;
    match f
    case VCode(env, param, code, _) =>
      var k := if param.Some? then 1 else 0;
      if |vs| >= k {
        var env' := if param.Some? then RPush(V(param.value), Val(vs[0]), env) else env;
        MoreRun(n, m, q, code, env', w);
        var r := RunE(n, q, code, env', w);
        if n > 0 && r.out.Ok? { MoreApplied(n - 1, m - 1, q, r.out.v, vs[k..], r.w); }
      }
    case VFn(name, partial) =>
      if n > 0 && (name in q.prims || name in q.fns) { MoreThrough(n - 1, m - 1, q, name, partial + vs, w); }
    case _ =>
  }
}
