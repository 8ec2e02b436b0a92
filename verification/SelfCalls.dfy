/**
 Calls of the function itself: when the Rust that assigns its parameters compiles, and what becomes
 of a special form that is taken for such a call.
 */
module SelfCalls {
  import opened Lists
  import opened Kl
  import opened Machine
  import R = RustIr
  import opened KlEval
  import opened RustRun
  import opened Codegen
  import opened CodegenState
  import opened Related
  import opened Simulation
  import opened Frames
  import opened SimSteps
  import opened TrapSteps
  import opened TailSteps

  // ---- one round ----

  lemma {:induction false} StaysBound(n: nat, q: RProg, bs: List<R.Bind>, env: REnv, w: World, x: R.RVar)
    requires TempBinds(bs) && GetVal(env, x).Some? && RunBinds(n, q, bs, env, w).Bound?
    ensures GetVal(RunBinds(n, q, bs, env, w).env, x).Some?
    decreases bs
  {
    hide RunE;
    if bs.Cons? {
      var r := RunE(n, q, bs.head.e, env, w);
      StaysBound(n, q, bs.tail, RPush(bs.head.x, Val(r.out.v), env), r.w, x);
    }
  }

  /** Once all arguments are computed, each temporary holds one. */
  lemma {:induction false} ArgsBound(n: nat, q: RProg, es: List<Expr>, st: Cg, env: REnv, w: World)
    requires BindArgs(es, st).Emitted? && RunBinds(n, q, BindArgs(es, st).code.0, env, w).Bound?
    ensures var ba := BindArgs(es, st).code;
            forall x :: x in ba.1 ==> GetVal(RunBinds(n, q, ba.0, env, w).env, x).Some?
    decreases es
  {
    hide RunE, CompileE;
    if es.Cons? {
      var first := CompileE(es.head, st);
      var others := BindArgs(es.tail, first.st.Next());
      var r := RunE(n, q, first.code, env, w);
      var env' := RPush(first.st.Fresh(), Val(r.out.v), env);
      BindOne(n, q, first.st.Fresh(), first.code, others.code.0, env, w);
      ArgsBound(n, q, es.tail, first.st.Next(), env', r.w);
      ArgsAreTemps(es.tail, first.st.Next());
      StaysBound(n, q, others.code.0, env', r.w, first.st.Fresh());
    }
  }

  lemma {:induction false} AllBound(env: REnv, xs: seq<R.RVar>)
    requires forall x :: x in xs ==> GetVal(env, x).Some?
    ensures GetAll(env, xs).Some?
  {
    if xs != [] {
      assert xs[0] in xs;
      AllBound(env, xs[1..]);
    }
  }

  /** The values that the assignments of a self-call give the parameters, once its arguments are computed. */
  ghost function NewParams(n: nat, q: RProg, e: Expr, st: Cg, locals: REnv, z: World): (r: seq<Value>)
    requires SelfCall(e, st) && BindArgs(e.items.tail, st).Emitted?
    requires RunBinds(n, q, BindArgs(e.items.tail, st).code.0, locals, z).Bound?
    ensures |r| == |st.params|
  {
    var ba := BindArgs(e.items.tail, st).code;
    ArgsAreTemps(e.items.tail, st);
    ArgsBound(n, q, e.items.tail, st, locals, z);
    AllBound(RunBinds(n, q, ba.0, locals, z).env, ba.1);
    GetAll(RunBinds(n, q, ba.0, locals, z).env, ba.1).value
  }

  /** `continue` after the assignments, or a `let` that may not be assigned. */
  lemma {:induction false} ContinueExact(
    n: nat, q: RProg, params: seq<SymId>, xs: seq<R.RVar>, env: REnv, us: seq<Value>, z: World)
    requires |us| == |params| == |xs| && |params| <= Depth(env) && Outermost(env, |params|) == RFrame(params, us)
    requires Distinct(params) && AllTemps(xs) && GetAll(env, xs).Some?
    ensures var r := RunS(n, q, R.Continue(R.Locals(params), xs), env, z);
            if Unhidden(params, Hiding(env, |params|))
            then r.Again? && r.w == z && Outermost(r.env, |params|) == RFrame(params, GetAll(env, xs).value)
            else r == Leave(IllFormed(z))
  {
    hide Over, Writable;
    var k := |params|;
    OverIff(env, params, us);
    var new' := GetAll(env, xs).value;
    if Unhidden(params, Hiding(env, k)) {
      AssignEach(env, params, 0, xs, us, new');
      assert R.Locals(params)[0..] == R.Locals(params) && new'[0..] == new' && us[..0] == new'[..0];
      OutermostOver(AssignAll(env, R.Locals(params), xs, k).value, params, new');
    } else {
      var x :| x in params && x in Hiding(env, k);
      var i :| 0 <= i < k && params[i] == x;
      HidingStops(env, x, k);
      AssignStops(env, R.Locals(params), xs, k, i);
    }
  }

  /**
   A self-call that is reached and whose arguments are computed goes round with them exactly when no
   `let` hides a parameter; otherwise it assigns a local that is not `mut`.
   */
  lemma {:induction false} RoundExact(
    n: nat, p: Prog, q: RProg, f: SymId, e: Expr, st: Cg, locals: REnv, hidden: set<SymId>, us: seq<Value>, z: World)
    requires InFn(p, f, st, locals, hidden, us) && Distinct(st.params)
    requires SelfCall(e, st) && CompileTail(e, st).Emitted?
    ensures BindArgs(e.items.tail, st).Emitted?
    ensures var b := RunBinds(n, q, BindArgs(e.items.tail, st).code.0, locals, z);
            var r := RunS(n, q, CompileTail(e, st).code, locals, z);
            && (b.Halt? ==> r == Leave(b.r))
            && (b.Bound? && !Unhidden(st.params, hidden) ==> r == Leave(IllFormed(b.w)))
            && (b.Bound? && Unhidden(st.params, hidden) ==>
                  var new' := NewParams(n, q, e, st, locals, z);
                  && r.Again? && r.w == b.w
                  && Outermost(r.env, |st.params|) == RFrame(st.params, new'))
  {
    hide RunS, RunE, RunBinds, CompileTail, BindArgs, Unhidden, CompileE;
    SelfCode(e, st);
    var ba := BindArgs(e.items.tail, st).code;
    var b := RunBinds(n, q, ba.0, locals, z);
    RunSBlock(n, q, ba.0, R.Continue(R.Locals(st.params), ba.1), locals, z);
    if b.Bound? {
      ArgsAreTemps(e.items.tail, st);
      BindsStay(n, q, ba.0, locals, z, |st.params|);
      ArgsBound(n, q, e.items.tail, st, locals, z);
      AllBound(b.env, ba.1);
      ContinueExact(n, q, st.params, ba.1, b.env, us, b.w);
    }
  }

  // ---- the whole function ----

  /** The names that a block binds. */
  function BoundIn(bs: List<R.Bind>): set<SymId>
  {
    match bs case Empty => {} case Cons(b, rest) => NameOf(b.x) + BoundIn(rest)
  }

  /** Inside the `let`s of `lets`, nothing but parameters is assigned: otherwise rustc refuses the function. */
  predicate AssignsMut(s: R.RStmt, lets: set<SymId>)
  {
    match s
    case SBlock(bs, rest) => AssignsMut(rest, lets + BoundIn(bs))
    case SIf(_, a, b) => AssignsMut(a, lets) && AssignsMut(b, lets)
    case Continue(dst, _) => forall x :: x in dst ==> NameOf(x) !! lets
    case SLetProc(_, _, rest) => AssignsMut(rest, lets)
    case _ => true
  }

  predicate AllUnhidden(rs: set<Round>, params: seq<SymId>)
  {
    forall r :: r in rs ==> Unhidden(params, r.hidden)
  }

  lemma {:induction false} UnhiddenUnion(a: set<Round>, b: set<Round>, params: seq<SymId>)
    ensures AllUnhidden(a + b, params) <==> AllUnhidden(a, params) && AllUnhidden(b, params)
  {
    hide Unhidden;
  }

  lemma {:induction false} TempsBindNothing(bs: List<R.Bind>)
    requires TempBinds(bs)
    ensures BoundIn(bs) == {}
  {
    if bs.Cons? { TempsBindNothing(bs.tail); }
  }

  lemma {:induction false} AssignsOne(x: R.RVar, c: R.RExpr, s: R.RStmt, lets: set<SymId>)
    ensures AssignsMut(R.SBlock(One(x, c), s), lets) <==> AssignsMut(s, lets + NameOf(x))
    ensures !x.V? ==> (AssignsMut(R.SBlock(One(x, c), s), lets) <==> AssignsMut(s, lets))
  {
    assert BoundIn(One(x, c)) == NameOf(x) + {} == NameOf(x);
    assert !x.V? ==> lets + NameOf(x) == lets;
  }

  /**
   The emitted statements assign parameters only exactly when none of the rounds of the source hides
   one: a question to the source, with the flat scope threaded as compilation threads it.
   */
  lemma {:induction false} AssignsExact(e: Expr, st: Cg, hidden: set<SymId>)
    requires (e.App? ==> Safe(e, st.thaws.Keys)) && CompileTail(e, st).Emitted?
    ensures AssignsMut(CompileTail(e, st).code, hidden) <==>
            AllUnhidden(Rounds(e, st.self, |st.params|, st.scope, hidden), st.params)
    decreases e, 2
  {
    hide CompileE, BindArgs, AllUnhidden, AssignsMut, OnlyThawed;
    if Breaks(View(e)) {
      AssignsHere(e, st, hidden);
    } else {
      PartsAreSafe(e, st.thaws.Keys);
      assert CompileTail(e, st) == CompileTailApp(e, st);
      match View(e)
      case If(_, _, _) => AssignsIf(e, st, hidden);
      case Let(_, _, _) => AssignsLet(e, st, hidden);
      case Cond(cs) => AssignsCond(cs, st, hidden);
      case Do(es) => AssignsDo(es, st, hidden);
      case And(_, _) => AssignsBoth(e, st, hidden);
      case Or(_, _) => AssignsBoth(e, st, hidden);
      case Typed(a) => AssignsExact(a, st, hidden);
    }
  }

  lemma {:induction false} AssignsHere(e: Expr, st: Cg, hidden: set<SymId>)
    requires Breaks(View(e)) && CompileTail(e, st).Emitted?
    ensures AssignsMut(CompileTail(e, st).code, hidden) <==>
            AllUnhidden(Rounds(e, st.self, |st.params|, st.scope, hidden), st.params)
  {
    hide CompileE, BindArgs, CompileTail;
    if SelfCall(e, st) {
      SelfCode(e, st);
      ArgsAreTemps(e.items.tail, st);
      var ba := BindArgs(e.items.tail, st).code;
      TempsBindNothing(ba.0);
      assert hidden + {} == hidden;
      assert AssignsMut(R.Continue(R.Locals(st.params), ba.1), hidden) <==> Unhidden(st.params, hidden) by {
        AssignsParams(st.params, ba.1, hidden);
      }
      assert Rounds(e, st.self, |st.params|, st.scope, hidden) == {Round(e, hidden)};
    } else {
      BreakCode(e, st);
    }
  }

  lemma {:induction false} AssignsParams(params: seq<SymId>, src: seq<R.RVar>, hidden: set<SymId>)
    ensures AssignsMut(R.Continue(R.Locals(params), src), hidden) <==> Unhidden(params, hidden)
  {
    var dst := R.Locals(params);
    forall i | 0 <= i < |params| ensures dst[i] in dst && params[i] in params && NameOf(dst[i]) == {params[i]} {}
  }

  lemma {:induction false} AssignsIf(e: Expr, st: Cg, hidden: set<SymId>)
    requires View(e).If? && Safe(e, st.thaws.Keys) && CompileTail(e, st).Emitted?
    ensures AssignsMut(CompileTail(e, st).code, hidden) <==>
            AllUnhidden(Rounds(e, st.self, |st.params|, st.scope, hidden), st.params)
    decreases e, 0
  {
    hide CompileE, BindArgs, CompileTail, AllUnhidden, OnlyThawed;
    PartsAreSafe(e, st.thaws.Keys);
    TailIfCode(e, st);
    var If(c, t, f) := View(e);
    var test := CompileE(c, st);
    var thn := CompileTail(t, test.st.Next());
    var els := CompileTail(f, thn.st);
    SteadyE(c, st);
    SteadyTail(t, test.st.Next());
    AssignsExact(t, test.st.Next(), hidden);
    AssignsExact(f, thn.st, hidden);
    AssignsOne(test.st.Fresh(), test.code, R.SIf(test.st.Fresh(), thn.code, els.code), hidden);
    UnhiddenUnion(Rounds(t, st.self, |st.params|, test.st.scope, hidden),
                  Rounds(f, st.self, |st.params|, thn.st.scope, hidden), st.params);
  }

  lemma {:induction false} AssignsLet(e: Expr, st: Cg, hidden: set<SymId>)
    requires View(e).Let? && Safe(e, st.thaws.Keys) && CompileTail(e, st).Emitted?
    ensures AssignsMut(CompileTail(e, st).code, hidden) <==>
            AllUnhidden(Rounds(e, st.self, |st.params|, st.scope, hidden), st.params)
    decreases e, 0
  {
    hide CompileE, BindArgs, AllUnhidden, OnlyThawed;
    ProcIsSafe(e, st.thaws.Keys);
    var Let(x, v, b) := View(e);
    assert CompileTail(e, st) == CompileTailApp(e, st);
    if Inlines(x, v, b) {
      var s1 := CompileE(View(v).body, st).st;
      SteadyE(View(v).body, st);
      assert EnterProc(s1, x).thaws.Keys == st.thaws.Keys + {x};
      AssignsExact(b, EnterProc(s1, x), hidden);
    } else {
      var bound := CompileE(v, st);
      SteadyE(v, st);
      AssignsExact(b, bound.st.Bind(x), hidden + {x});
      AssignsOne(R.V(x), bound.code, CompileTail(b, bound.st.Bind(x)).code, hidden);
    }
  }

  lemma {:induction false} AssignsBoth(e: Expr, st: Cg, hidden: set<SymId>)
    requires (View(e).And? || View(e).Or?) && Safe(e, st.thaws.Keys) && CompileTail(e, st).Emitted?
    ensures AssignsMut(CompileTail(e, st).code, hidden) <==>
            AllUnhidden(Rounds(e, st.self, |st.params|, st.scope, hidden), st.params)
    decreases e, 0
  {
    hide CompileE, BindArgs, AllUnhidden, OnlyThawed;
    PartsAreSafe(e, st.thaws.Keys);
    assert CompileTail(e, st) == CompileTailApp(e, st);
    var a, b := View(e).a, View(e).b;
    var first := CompileE(a, st);
    var second := CompileTail(b, first.st.Next());
    SteadyE(a, st);
    AssignsExact(b, first.st.Next(), hidden);
    var settled := R.Break(R.Lit(Bool(View(e).Or?)));
    var choice := if View(e).And? then R.SIf(first.st.Fresh(), second.code, settled)
                  else R.SIf(first.st.Fresh(), settled, second.code);
    AssignsOne(first.st.Fresh(), first.code, choice, hidden);
  }

  lemma {:induction false} AssignsCond(cs: List<Expr>, st: Cg, hidden: set<SymId>)
    requires SafeIn(cs, st.thaws.Keys) && CompileTailCond(cs, st).Emitted?
    ensures AssignsMut(CompileTailCond(cs, st).code, hidden) <==>
            AllUnhidden(RoundsOfClauses(cs, st.self, |st.params|, st.scope, hidden), st.params)
    decreases cs, 0
  {
    hide CompileE, BindArgs, CompileTail, OnlyThawed, Unhidden;
    match cs
    case Empty =>
    case Cons(App(Cons(t, Cons(v, Empty))), rest) =>
      ClauseParts(t, v, rest, st.thaws.Keys);
      var others := CompileTailCond(rest, st);
      var test := CompileE(t, others.st);
      var action := CompileTail(v, test.st);
      SteadyTailCond(rest, st);
      SteadyE(t, others.st);
      AssignsCond(rest, st, hidden);
      AssignsExact(v, test.st, hidden);
      hide AllUnhidden;
      AssignsOne(action.st.Fresh(), test.code, R.SIf(action.st.Fresh(), action.code, others.code), hidden);
      UnhiddenUnion(RoundsOfClauses(rest, st.self, |st.params|, st.scope, hidden),
                    Rounds(v, st.self, |st.params|, test.st.scope, hidden), st.params);
    case _ =>
  }

  lemma {:induction false} AssignsDo(es: List<Expr>, st: Cg, hidden: set<SymId>)
    requires SafeIn(es, st.thaws.Keys) && CompileTailDo(es, st).Emitted?
    ensures AssignsMut(CompileTailDo(es, st).code, hidden) <==>
            AllUnhidden(RoundsOfLast(es, st.self, |st.params|, st.scope, hidden), st.params)
    decreases es, 0
  {
    hide CompileE, BindArgs, CompileTail, OnlyThawed, Unhidden;
    match es
    case Empty =>
    case Cons(e, Empty) => AssignsExact(e, st, hidden);
    case Cons(e, rest) =>
      var first := CompileE(e, st);
      SteadyE(e, st);
      AssignsDo(rest, first.st, hidden);
      AssignsOne(R.Wild, first.code, CompileTailDo(rest, first.st).code, hidden);
  }

  /** What is taken for a call of the function is one. */
  predicate AllCalls(rs: set<Round>)
  {
    forall r :: r in rs ==> View(r.call).Call?
  }

  /**
   What a definition that is otherwise right needs for its loop: that rustc takes the assignments of
   its code, and that no special form is taken for a call of it.
   */
  lemma {:induction false} LoopsExact(f: SymId, d: Def, k: nat)
    requires CompileFn(f, d.params, d.body, k).Emitted?
    ensures Loops(d.body, Some(f), d.params, ParamsOf(d), {}) <==>
            && AssignsMut(CompileFn(f, d.params, d.body, k).code.body, {})
            && AllCalls(Rounds(d.body, Some(f), |d.params|, ParamsOf(d), {}))
  {
    hide CompileTail, Unhidden, AssignsMut;
    var st := AtEntry(f, d.params, k);
    assert st.thaws.Keys == {} && st.scope == ParamsOf(d);
    AssignsExact(d.body, st, {});
  }

  /** rustc takes the assignments of every function of a compiled program. */
  lemma {:induction false} LinkedAssigns(p: Prog, q: RProg, f: SymId)
    requires Linked(p, q) && f in p.defs
    ensures f in q.fns && AssignsMut(q.fns[f].body, {})
  {
    hide CompileTail, Wf, Loops, AssignsMut;
    assert FnOf(f, p.defs[f], q.fns[f]);
    var k: nat :| CompilesTo(f, p.defs[f], k, q.fns[f]);
    LoopsExact(f, p.defs[f], k);
  }

  // ---- a special form ----

  /** What the evaluator does with the special forms that have no tail form of their own. */
  function Performed(n: nat, p: Prog, e: Expr, env: Env, w: World): Res
  {
    match View(e)
    case Const(l) => Done(Quote(l), w)
    case Lambda(x, b) => Done(VLam(env, Some(x), b), w)
    case Freeze(b) => Done(VLam(env, None, b), w)
    case Thaw(a) =>
      var r := Eval(n, p, a, env, w, false);
      if !r.out.Ok? then r else
      if n == 0 then Res(Timeout, r.w) else KlEval.Apply(n - 1, p, r.out.v, [], r.w)
    case Trap(b, h) =>
      var r := Eval(n, p, b, env, w, false);
      if !r.out.Err? then r else
      var g := Eval(n, p, h, env, if TrapDrifts(b, h, env) then Drifted(r.w) else r.w, false);
      if !g.out.Ok? then g else
      if n == 0 then Res(Timeout, g.w) else KlEval.Apply(n - 1, p, g.out.v, [VErr(r.out.m)], g.w)
    case Define(_) => Raise(Drifted(w))
    case _ => Raise(w)
  }

  /**
   A special form that is taken for a call of the function always goes round with its operands as
   arguments, where the evaluator performs the form. With no fuel left the loop cannot go on, and so
   the two never agree on a form that the evaluator answers at once.
   */
  lemma {:induction false} FormGoesRound(
    n: nat, p: Prog, q: RProg, f: SymId, e: Expr, st: Cg, env: Env, locals: REnv, hidden: set<SymId>,
    us: seq<Value>, w: World, z: World, fn: R.RFn)
    requires InFn(p, f, st, locals, hidden, us) && Distinct(st.params) && Unhidden(st.params, hidden)
    requires SelfCall(e, st) && !View(e).Call? && CompileTail(e, st).Emitted?
    requires BindArgs(e.items.tail, st).Emitted?
    requires RunBinds(n, q, BindArgs(e.items.tail, st).code.0, locals, z).Bound?
    ensures Eval(n, p, e, env, w, true) == Performed(n, p, e, env, w)
    ensures var r := RunS(n, q, CompileTail(e, st).code, locals, z);
            && r.Again?
            && Outermost(r.env, |st.params|) == RFrame(st.params, NewParams(n, q, e, st, locals, z))
            && (n == 0 && !View(e).Thaw? && !View(e).Trap? ==>
                  !OutRel(Eval(n, p, e, env, w, true).out, Finish(n, q, fn, r).out))
  {
    hide Eval, Rel, RunS, RunBinds, CompileTail, BindArgs, NewParams, InFn, Unhidden;
    RoundExact(n, p, q, f, e, st, locals, hidden, us, z);
    FormPerformed(n, p, e, st, env, w);
  }

  lemma {:induction false} FormPerformed(n: nat, p: Prog, e: Expr, st: Cg, env: Env, w: World)
    requires SelfCall(e, st) && !View(e).Call?
    ensures Eval(n, p, e, env, w, true) == Performed(n, p, e, env, w)
  {
    hide EvalCond, EvalDo, EvalArgs, CallNamed, TrapDrifts;
    assert Eval(n, p, e, env, w, true) == Step(n, p, e, env, w, true);
  }
}
