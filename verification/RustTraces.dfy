/** The same of compiled code: a run changes globals and absvectors by the events of its trace. */
module RustTraces {
  import opened Lists
  import opened Kl
  import opened Machine
  import opened R = RustIr
  import opened RustRun
  import opened Effects

  lemma {:induction false} AccountsRun(start: World, n: nat, q: RProg, c: RExpr, env: REnv, w: World)
    requires Accounts(start, w)
    ensures Accounts(start, RunE(n, q, c, env, w).w)
    decreases n, 3, c, 1
  {
    if Leaf(c) { AccountsLeaf(start, c, env, w); } else { AccountsNode(start, n, q, c, env, w); }
  }

  lemma {:induction false} AccountsLeaf(start: World, c: RExpr, env: REnv, w: World)
    requires Accounts(start, w) && Leaf(c)
    ensures Accounts(start, RunLeaf(c, env, w).w)
  {
    hide Accounts, SetIn;
    if c.GlobalSet? && GetVal(env, c.x).Some? { SetAccounts(start, w, c.id, GetVal(env, c.x).value); }
  }

  lemma {:induction false} AccountsNode(start: World, n: nat, q: RProg, c: RExpr, env: REnv, w: World)
    requires Accounts(start, w) && !Leaf(c)
    ensures Accounts(start, RunNode(n, q, c, env, w).w)
    decreases n, 3, c, 0
  {
    hide Accounts, RunE, RunBinds, CallCode, ApplyCode, RunLeaf;
    match c
    case Block(bs, body) =>
      AccountsBinds(start, n, q, bs, env, w);
      var b := RunBinds(n, q, bs, env, w);
      if b.Bound? { AccountsRun(start, n, q, body, b.env, b.w); }
    case IfTrue(t, a, b) =>
      AccountsRun(start, n, q, a, env, w);
      AccountsRun(start, n, q, b, env, w);
    case CallNamed(f, xs) =>
      if GetAll(env, xs).Some? { AccountsCode(start, n, q, f, GetAll(env, xs).value, w); }
    case ApplyValue(fe, xs) =>
      AccountsRun(start, n, q, fe, env, w);
      var g := RunE(n, q, fe, env, w);
      if n > 0 && g.out.Ok? && GetAll(env, xs).Some? {
        AccountsApplied(start, n - 1, q, g.out.v, GetAll(env, xs).value, g.w);
      }
    case Try(body, h) =>
      AccountsRun(start, n, q, body, env, w);
      var r := RunE(n, q, body, env, w);
      AccountsRun(start, n, q, h, env, r.w);
      var g := RunE(n, q, h, env, r.w);
      if n > 0 && r.out.Err? && g.out.Ok? { AccountsApplied(start, n - 1, q, g.out.v, [VErr(r.out.m)], g.w); }
    case LetProc(go, code, body) => AccountsRun(start, n, q, body, RPush(go, Proc(code, env), env), w);
    case Go(go) =>
      if n > 0 && Get(env, go).Some? && Get(env, go).value.Proc? {
        AccountsRun(start, n - 1, q, Get(env, go).value.pcode, Get(env, go).value.penv, w);
      }
    case Test(_, e) => AccountsRun(start, n, q, e, env, w);
  }

  function WorldOf(b: BindsRes): World
  {
    match b case Bound(_, w) => w case Halt(r) => r.w
  }

  lemma {:induction false} AccountsBinds(start: World, n: nat, q: RProg, bs: List<Bind>, env: REnv, w: World)
    requires Accounts(start, w)
    ensures Accounts(start, WorldOf(RunBinds(n, q, bs, env, w)))
    decreases n, 3, bs
  {
    hide Accounts, RunE;
    if bs.Cons? {
      var Bind(x, e) := bs.head;
      AccountsRun(start, n, q, e, env, w);
      var r := RunE(n, q, e, env, w);
      if r.out.Ok? { AccountsBinds(start, n, q, bs.tail, if x == Wild then env else RPush(x, Val(r.out.v), env), r.w); }
    }
  }

  function WorldAfter(r: StmtRes): World
  {
    match r case Leave(s) => s.w case Again(_, w) => w
  }

  lemma {:induction false} AccountsStmt(start: World, n: nat, q: RProg, s: RStmt, env: REnv, w: World)
    requires Accounts(start, w)
    ensures Accounts(start, WorldAfter(RunS(n, q, s, env, w)))
    decreases n, 3, s
  {
    hide Accounts, RunE, RunBinds;
    match s
    case Break(e) => AccountsRun(start, n, q, e, env, w);
    case SBlock(bs, rest) =>
      AccountsBinds(start, n, q, bs, env, w);
      var b := RunBinds(n, q, bs, env, w);
      if b.Bound? { AccountsStmt(start, n, q, rest, b.env, b.w); }
    case SIf(_, a, b) =>
      AccountsStmt(start, n, q, a, env, w);
      AccountsStmt(start, n, q, b, env, w);
    case SLetProc(go, code, rest) => AccountsStmt(start, n, q, rest, RPush(go, Proc(code, env), env), w);
    case _ =>
  }

  lemma {:induction false} AccountsLoop(start: World, n: nat, q: RProg, fn: RFn, frame: REnv, w: World)
    requires Accounts(start, w)
    ensures Accounts(start, RunLoop(n, q, fn, frame, w).w)
    decreases n, 4
  {
    hide Accounts, RunS, Log;
    AccountsStmt(start, n, q, fn.body, frame, w);
    var r := RunS(n, q, fn.body, frame, w);
    if n > 0 && r.Again? {
      var frame' := Outermost(r.env, |fn.params|);
      var args := GetAll(frame', Locals(fn.params));
      if args.Some? {
        LogAccounts(start, r.w, fn.name, args.value);
        AccountsLoop(start, n - 1, q, fn, frame', Log(r.w, fn.name, args.value));
      }
    }
  }

  lemma {:induction false} AccountsCode(start: World, n: nat, q: RProg, f: SymId, vs: seq<Value>, w: World)
    requires Accounts(start, w)
    ensures Accounts(start, CallCode(n, q, f, vs, w).w)
    decreases n, 2
  {
    hide Accounts, PrimCode, RunLoop, ApplyCode, NamedCode, Enter, Arity, ShortArgs;
    if f in q.prims {
      var k := Arity(q.prims[f]);
      if !Direct(q.prims[f]) {
        AccountsThrough(start, n, q, f, vs, w);
      } else if |vs| >= k {
        AccountsPrim(start, n, q, q.prims[f], vs[..k], w);
      } else {
        ShortAccounts(q.prims[f], vs, w);
      }
    } else if f in q.fns && |vs| == |q.fns[f].params| {
      AccountsEnter(start, n, q, f, vs, w);
    }
  }

  lemma {:induction false} AccountsThrough(start: World, n: nat, q: RProg, f: SymId, vs: seq<Value>, w: World)
    requires Accounts(start, w) && (f in q.prims || f in q.fns)
    ensures Accounts(start, NamedCode(n, q, f, vs, w).w)
    decreases n, 1
  {
    hide Accounts, PrimCode, ApplyCode, Enter, Arity;
    var k := if f in q.prims then Arity(q.prims[f]) else |q.fns[f].params|;
    if |vs| >= k {
      if f in q.prims {
        AccountsPrim(start, n, q, q.prims[f], vs[..k], w);
      } else {
        AccountsEnter(start, n, q, f, vs[..k], w);
      }
      var r := if f in q.prims then PrimCode(n, q, q.prims[f], vs[..k], w) else Enter(n, q, f, vs[..k], w);
      if n > 0 && r.out.Ok? { AccountsApplied(start, n - 1, q, r.out.v, vs[k..], r.w); }
    }
  }

  lemma {:induction false} AccountsEnter(start: World, n: nat, q: RProg, f: SymId, vs: seq<Value>, w: World)
    requires Accounts(start, w) && f in q.fns && |vs| == |q.fns[f].params|
    ensures Accounts(start, Enter(n, q, f, vs, w).w)
    decreases n, 0
  {
    hide Accounts, RunLoop, Log;
    LogAccounts(start, w, f, vs);
    if n > 0 { AccountsLoop(start, n - 1, q, q.fns[f], RFrame(q.fns[f].params, vs), Log(w, f, vs)); }
  }

  lemma {:induction false} AccountsPrim(start: World, n: nat, q: RProg, op: Prim, vs: seq<Value>, w: World)
    requires Accounts(start, w) && |vs| == Arity(op)
    ensures Accounts(start, PrimCode(n, q, op, vs, w).w)
    decreases n, 0
  {
    hide Accounts, ApplyCode, Run, Attempt;
    if Deferring(op) {
      AttemptAccounts(op, vs, w);
      if n > 0 { AccountsApplied(start, n - 1, q, vs[|vs| - 1], [], w); }
    } else {
      RunAccounts(op, vs, start, w);
    }
  }

  lemma {:induction false} AccountsApplied(start: World, n: nat, q: RProg, f: Value, vs: seq<Value>, w: World)
    requires Accounts(start, w)
    ensures Accounts(start, ApplyCode(n, q, f, vs, w).w)
    decreases n, 4
  {
    hide Accounts, RunE, NamedCode;
    match f
    case VCode(env, param, code, _) =>
      var k := if param.Some? then 1 else 0;
      if |vs| >= k {
        var env' := if param.Some? then RPush(V(param.value), Val(vs[0]), env) else env;
        AccountsRun(start, n, q, code, env', w);
        var r := RunE(n, q, code, env', w);
        if n > 0 && r.out.Ok? { AccountsApplied(start, n - 1, q, r.out.v, vs[k..], r.w); }
      }
    case VFn(name, partial) =>
      if n > 0 && (name in q.prims || name in q.fns) { AccountsThrough(start, n - 1, q, name, partial + vs, w); }
    case _ =>
  }

  /** Whatever is called, compiled code accounts for all it changed. */
  lemma {:induction false} CodeAccounts(n: nat, q: RProg, f: SymId, vs: seq<Value>, w: World)
    ensures Accounts(w, CallCode(n, q, f, vs, w).w)
  {
    hide Accounts, CallCode;
    AccountsAtOnce(w);
    AccountsCode(w, n, q, f, vs, w);
  }
}
