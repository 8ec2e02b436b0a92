/** Where compiled code and the evaluator part ways, and exactly when: the steps that raise `drift`. */
module Divergences {
  import opened Lists
  import opened Kl
  import opened Machine
  import R = RustIr
  import opened KlEval
  import opened RustRun
  import opened Codegen
  import opened CodegenState
  import opened Related
  import opened Simulation
  import opened SimSteps
  import opened TrapSteps
  import opened TailSteps
  import opened SimExpr
  import opened Effects
  import opened PrimitiveLaws
  import opened Traces
  import Passive

  // ---- and / or ----

  predicate Connective(form: Form)
  {
    form.And? || form.Or?
  }

  /** A connective whose first operand does not settle it. */
  lemma {:induction false} SecondShape(n: nat, q: RProg, e: Expr, st: Cg, locals: REnv, z: World)
    requires Connective(View(e)) && CompileE(e, st).Emitted?
    ensures var first := CompileE(View(e).a, st);
            first.Emitted? && CompileE(View(e).b, first.st).Emitted? &&
            var s := RunE(n, q, first.code, locals, z);
            var av := CompileE(View(e).b, first.st).st.Fresh();
            Holds(s, View(e).And?) ==>
              var k := RunE(n, q, CompileE(View(e).b, first.st).code, RPush(av, Val(s.out.v), locals), s.w);
              RunE(n, q, CompileE(e, st).code, locals, z) == Strict(k)
  {
    hide RunE, BindArgs, CompileCond, CompileDo, CompileClosure, CompileTry, CompileHead;
    assert CompileE(e, st) == CompileApp(e, st);
    var first := CompileE(View(e).a, st);
    var other := CompileE(View(e).b, first.st);
    var av, bv := other.st.Fresh(), other.st.Next().Fresh();
    var s := RunE(n, q, first.code, locals, z);
    var second, settled := R.Block(One(bv, other.code), R.BoolOf(bv)), R.Lit(Bool(View(e).Or?));
    var thn, els := if View(e).And? then second else settled, if View(e).And? then settled else second;
    RunLet(n, q, av, first.code, R.IfTrue(av, thn, els), locals, z);
    if Holds(s, View(e).And?) {
      RunIf(n, q, av, s.out.v, thn, els, locals, s.w);
      StrictBlock(n, q, bv, other.code, RPush(av, Val(s.out.v), locals), s.w);
    }
  }

  /** The second operand as a compiled expression answers it: a boolean or an error. */
  function Strict(k: Res): Res
  {
    if !k.out.Ok? then k
    else match TruthOf(k.out.v) case None => Raise(k.w) case Some(b) => Truth(b, k.w)
  }

  lemma {:induction false} StrictBlock(n: nat, q: RProg, bv: R.RVar, c: R.RExpr, locals: REnv, z: World)
    requires bv.T?
    ensures RunE(n, q, R.Block(One(bv, c), R.BoolOf(bv)), locals, z) == Strict(RunE(n, q, c, locals, z))
  {
    hide RunE;
    var k := RunE(n, q, c, locals, z);
    RunLet(n, q, bv, c, R.BoolOf(bv), locals, z);
    if k.out.Ok? { RunBool(n, q, bv, k.out.v, locals, k.w); }
  }

  /**
   A compiled `and` or `or` that gets as far as its second operand answers as the evaluator does
   exactly when that operand is a boolean; for any other value it raises.
   */
  lemma {:induction false} SecondOperandExact(
    n: nat, p: Prog, q: RProg, e: Expr, st: Cg, env: Env, locals: REnv, w: World, z: World, r: Res, k: Res)
    requires Connective(View(e)) && Fit(p, q, e, st, env, locals, w, z)
    requires r == Eval(n, p, View(e).a, env, w, false) && !r.w.drift && Holds(r, View(e).And?)
    requires k == Eval(n, p, View(e).b, env, r.w, false) && !k.w.drift && k.out.Ok?
    ensures Eval(n, p, e, env, w, false).out == k.out
    ensures Eval(n, p, e, env, w, false).w.drift <==> TruthOf(k.out.v).None?
    ensures var s := RunE(n, q, CompileE(e, st).code, locals, z);
            && (OutRel(k.out, s.out) <==> TruthOf(k.out.v).Some?)
            && (TruthOf(k.out.v).None? ==> s.out == Err(Runtime))
  {
    hide Linked, EnvRel, WRel, RunE, CodeOf, Wf, Safe, Eval, CompileE, Flow, Rel, Strict;
    BothParts(e, Dom(env), st.scope, st.thaws.Keys);
    BothStep(n, p, e, env, w, false);
    var a, b := View(e).a, View(e).b;
    SecondShape(n, q, e, st, locals, z);
    var first := CompileE(a, st);
    var other := CompileE(b, first.st);
    SteadyE(a, st);
    SteadyE(b, first.st);
    SoundLess(Names(e), Names(a), st, st, env, locals);
    SimE(n, p, q, a, st, env, locals, w, z);
    var s := RunE(n, q, first.code, locals, z);
    SoundLess(Names(e), Names(b), st, first.st, env, locals);
    SoundTemp(Names(b), first.st, env, locals, other.st.Fresh(), Val(s.out.v));
    SameTruth(r.out.v, s.out.v);
    var locals' := RPush(other.st.Fresh(), Val(s.out.v), locals);
    SimE(n, p, q, b, first.st, env, locals', r.w, s.w);
    StrictRel(k.out.v, RunE(n, q, other.code, locals', s.w));
  }

  lemma {:induction false} StrictRel(v: Value, s: Res)
    requires s.out.Ok? && Rel(v, s.out.v)
    ensures OutRel(Ok(v), Strict(s).out) <==> TruthOf(v).Some?
    ensures TruthOf(v).None? ==> Strict(s).out == Err(Runtime)
  {
    hide CodeOf;
  }

  /** `(and true 5)` or `(or false 5)` */
  function NoBoolean(isAnd: bool): Expr
  {
    App(Cons(Sym(if isAnd then K_AND else K_OR), Cons(Bool(isAnd), Cons(Int(5), Empty))))
  }

  lemma {:induction false} NoBooleanParts(n: nat, p: Prog, q: RProg, isAnd: bool, st: Cg, w: World)
    ensures Eval(n, p, NoBoolean(isAnd), EmptyEnv, w, false) == Res(Ok(VInt(5)), Drifted(w))
    ensures CompileE(NoBoolean(isAnd), st).Emitted?
    ensures RunE(n, q, CompileE(NoBoolean(isAnd), st).code, EmptyREnv, w) == Raise(w)
  {
    hide Step, RunE, CompileE;
    var e := NoBoolean(isAnd);
    assert View(e) == if isAnd then And(Bool(isAnd), Int(5)) else Or(Bool(isAnd), Int(5));
    ConnectiveOfFive(n, p, e, isAnd, w);
    ConnectiveCode(e, isAnd, st);
    var av := st.Fresh();
    var locals := RPush(av, Val(VBool(isAnd)), EmptyREnv);
    SecondShape(n, q, e, st, EmptyREnv, w);
    RunLit(n, q, Bool(isAnd), EmptyREnv, w);
    RunLit(n, q, Int(5), locals, w);
  }

  lemma {:induction false} ConnectiveOfFive(n: nat, p: Prog, e: Expr, isAnd: bool, w: World)
    requires View(e) == if isAnd then And(Bool(isAnd), Int(5)) else Or(Bool(isAnd), Int(5))
    ensures Eval(n, p, e, EmptyEnv, w, false) == Res(Ok(VInt(5)), Drifted(w))
  {
    hide EvalCond, EvalDo, EvalArgs, CallNamed;
    assert Eval(n, p, e, EmptyEnv, w, false) == Step(n, p, e, EmptyEnv, w, false);
    EvalAtom(n, p, Bool(isAnd), EmptyEnv, w);
    EvalAtom(n, p, Int(5), EmptyEnv, w);
  }

  lemma {:induction false} ConnectiveCode(e: Expr, isAnd: bool, st: Cg)
    requires View(e) == if isAnd then And(Bool(isAnd), Int(5)) else Or(Bool(isAnd), Int(5))
    ensures CompileE(e, st).Emitted?
    ensures CompileE(Bool(isAnd), st) == Emitted(R.Lit(Bool(isAnd)), st)
    ensures CompileE(Int(5), st) == Emitted(R.Lit(Int(5)), st)
  {
    hide BindArgs, CompileCond, CompileDo, CompileClosure, CompileTry, CompileHead;
    AtomState(Bool(isAnd), st);
    AtomState(Int(5), st);
    assert CompileE(e, st) == CompileApp(e, st);
  }

  // ---- calls ----

  /**
   A compiled defun takes all of its arguments or none: with fewer it raises where the evaluator
   makes a partial application, so the two agree exactly on saturated calls.
   */
  lemma {:induction false} UnderSaturated(
    n: nat, p: Prog, q: RProg, f: SymId, vs: seq<Value>, us: seq<Value>, w: World, z: World)
    requires Linked(p, q) && f in p.defs && RelAll(vs, us) && WRel(w, z) && |vs| <= |p.defs[f].params|
    requires |vs| == |p.defs[f].params| ==> !CallNamed(n, p, f, vs, w).w.drift
    ensures Defined(p, f)
    ensures OutRel(CallNamed(n, p, f, vs, w).out, CallCode(n, q, f, us, z).out) <==> |vs| == |p.defs[f].params|
    ensures CallNamed(n, p, f, vs, w).w.drift <==> |vs| < |p.defs[f].params| || w.drift
  {
    hide Linked, Rel, WRel, Eval, Saturated, RunLoop;
    NoClash(p, q, f);
    FnParams(p, q, f);
    SameLength(vs, us);
    if |vs| == |p.defs[f].params| {
      SimNamed(n, p, q, f, vs, us, w, z);
    } else {
      assert CallCode(n, q, f, us, z) == Raise(z);
      assert CallNamed(n, p, f, vs, w).out == Ok(VFn(f, vs));
    }
  }

  /** `(F X)` for an `F` of two parameters. */
  lemma {:induction false} OneOfTwo(n: nat, p: Prog, q: RProg, f: SymId, v: Value, w: World)
    requires Linked(p, q) && f in p.defs && |p.defs[f].params| == 2
    ensures Defined(p, f) && CallNamed(n, p, f, [v], w).out == Ok(VFn(f, [v]))
    ensures CallCode(n, q, f, [v], w) == Raise(w)
  {
    hide Linked, Eval, Saturated, RunLoop, Enter;
    NoClash(p, q, f);
    FnParams(p, q, f);
  }

  ghost predicate SameWrites(a: seq<Event>, b: seq<Event>)
  {
    |a| == |b| && forall i :: 0 <= i < |a| ==> EventRel(a[i], b[i])
  }

  lemma {:induction false} WritesRelated(t: seq<Event>, u: seq<Event>)
    requires SameWrites(t, u)
    ensures SameWrites(Writes(t), Writes(u))
  {
    hide Rel, RelAll;
    if t != [] {
      assert SameWrites(t[..|t| - 1], u[..|u| - 1]);
      assert EventRel(t[|t| - 1], u[|u| - 1]);
      WritesRelated(t[..|t| - 1], u[..|u| - 1]);
    }
  }

  /**
   With more arguments than parameters a compiled defun raises before it does anything. The outcomes
   agree exactly when the evaluator's run itself ends in a runtime error, and never when it returns;
   the writes agree exactly when it makes none; the record of calls never agrees once it is entered.
   */
  lemma {:induction false} OverSaturated(
    n: nat, p: Prog, q: RProg, f: SymId, vs: seq<Value>, us: seq<Value>, w: World, z: World)
    requires Linked(p, q) && f in p.defs && RelAll(vs, us) && WRel(w, z) && |vs| > |p.defs[f].params|
    ensures Defined(p, f)
    ensures var r, s := CallNamed(n, p, f, vs, w), CallCode(n, q, f, us, z);
            && (OutRel(r.out, s.out) <==> r.out == Err(Runtime))
            && (SameWrites(Writes(r.w.trace), Writes(s.w.trace)) <==> Writes(r.w.trace) == Writes(w.trace))
            && (n > 0 ==> !WRel(r.w, s.w))
  {
    hide Linked, Rel, Eval, Saturated, RunLoop, KlEval.Apply;
    NoClash(p, q, f);
    FnParams(p, q, f);
    SameLength(vs, us);
    var k := |p.defs[f].params|;
    var w' := Drifted(w);
    var r0 := Saturated(n, p, f, vs[..k], w');
    if n > 0 { EnteredFirst(n, p, f, vs, w); }
    CallAccounts(n, p, f, vs, w);
    Continues(w, CallNamed(n, p, f, vs, w).w);
    WritesGrow(w.trace, CallNamed(n, p, f, vs, w).w.trace);
    WritesRelated(w.trace, z.trace);
  }

  /**
   The evaluator looks a function up before it evaluates the arguments, compiled code after: for an
   undefined one the errors are the same exactly when the arguments succeed or fail with a runtime
   error of their own, and compiled code has by then done all that the arguments do.
   */
  lemma {:induction false} UndefinedExact(
    n: nat, p: Prog, q: RProg, h: SymId, args: List<Expr>, st: Cg, env: Env, locals: REnv, w: World, z: World,
    a: ArgsRes)
    requires Linked(p, q) && ReadyAll(args, st, env, locals) && WRel(w, z) && CompileCall(h, args, st).Emitted?
    requires !Defined(p, h) && a == EvalArgs(n, p, args, env, w) && !WorldOf(a).drift
    ensures PlainCall(n, p, h, args, env, w).out == Err(Runtime)
    ensures WRel(PlainCall(n, p, h, args, env, w).w, z)
    ensures PlainCall(n, p, h, args, env, w).w.drift <==> !Atomic(args) || w.drift
    ensures var s := RunE(n, q, CompileCall(h, args, st).code, locals, z);
            && (OutRel(Err(Runtime), s.out) <==> a.Args? || a.r.out == Err(Runtime))
            && WRel(WorldOf(a), s.w)
  {
    hide Linked, EnvRel, RunE, CodeOf, Rel, Eval, EvalArgs, CompileE, CallCode;
    assert h !in q.prims && h !in q.fns by { SamePrims(p, q); }
    SimArgs(n, p, q, args, st, env, locals, w, z);
    var binds := BindArgs(args, st);
    var b := RunBinds(n, q, binds.code.0, locals, z);
    RunBlock(n, q, binds.code.0, R.CallNamed(h, binds.code.1), locals, z);
    if b.Bound? { RunCalled(n, q, h, binds.code.1, b.env, b.w); }
    if a.Args? { Undefined(n, q, h, GetAll(b.env, binds.code.1).value, b.w); }
  }

  const X: SymId := 100
  const G: SymId := 101

  /** `(G (set X 1))` */
  function CallsNothing(): Expr
  {
    App(Cons(Sym(G), Cons(Setting(), Empty)))
  }

  function Setting(): Expr
  {
    App(Cons(Sym(K_SET), Cons(Sym(X), Cons(Int(1), Empty))))
  }

  lemma {:induction false} CallsNothingRun(n: nat, q: RProg, k: nat, w: World)
    requires G !in q.prims && G !in q.fns
    ensures var c := R.Block(One(R.FixedV, R.Lit(Int(1))), R.GlobalSet(X, R.FixedV));
            RunE(n, q, R.Block(One(R.T(k), c), R.CallNamed(G, [R.T(k)])), EmptyREnv, w) == Raise(SetIn(w, X, VInt(1)))
  {
    hide RunE, CallCode;
    var c := R.Block(One(R.FixedV, R.Lit(Int(1))), R.GlobalSet(X, R.FixedV));
    RunLit(n, q, Int(1), EmptyREnv, w);
    RunLet(n, q, R.FixedV, R.Lit(Int(1)), R.GlobalSet(X, R.FixedV), EmptyREnv, w);
    RunSet(n, q, X, R.FixedV, VInt(1), EmptyREnv, w);
    var w' := SetIn(w, X, VInt(1));
    var locals := RPush(R.T(k), Val(VInt(1)), EmptyREnv);
    RunLet(n, q, R.T(k), c, R.CallNamed(G, [R.T(k)]), EmptyREnv, w);
    RunCalled(n, q, G, [R.T(k)], locals, w');
    assert [R.T(k)][1..] == [] && GetAll(locals, []) == Some([]);
    assert GetAll(locals, [R.T(k)]) == Some([VInt(1)] + []);
    Undefined(n, q, G, [VInt(1)] + [], w');
  }

  /** The evaluator raises at once, and compiled code after it has set the global. */
  lemma {:induction false} UndefinedParts(n: nat, p: Prog, q: RProg, k: nat, w: World)
    requires Linked(p, q) && !Defined(p, G)
    ensures var st := Cg(k, {}, map[], None, []);
            && Eval(n, p, CallsNothing(), EmptyEnv, w, false) == Raise(Drifted(w))
            && CompileE(CallsNothing(), st).Emitted?
            && var s := RunE(n, q, CompileE(CallsNothing(), st).code, EmptyREnv, w);
               && s.out == Err(Runtime) && s.w.globals == w.globals[X := VInt(1)] && s.w.vecs == w.vecs
               && s.w.trace == w.trace + [SetGlobal(X, VInt(1))]
  {
    hide Linked, RunE, Eval, CompileE;
    assert View(CallsNothing()) == Call(G, Cons(Setting(), Empty));
    ShortStep(n, p, CallsNothing(), EmptyEnv, w);
    assert G !in q.prims && G !in q.fns by { SamePrims(p, q); }
    CallsNothingCode(Cg(k, {}, map[], None, []));
    CallsNothingRun(n, q, k, w);
  }

  lemma {:induction false} CallsNothingCode(st: Cg)
    requires st.scope == {}
    ensures CompileE(CallsNothing(), st).Emitted?
    ensures CompileE(CallsNothing(), st).code ==
            R.Block(One(st.Fresh(), R.Block(One(R.FixedV, R.Lit(Int(1))), R.GlobalSet(X, R.FixedV))),
                    R.CallNamed(G, [st.Fresh()]))
  {
    hide CompileCond, CompileDo, CompileClosure, CompileTry;
    var args := Cons(Sym(X), Cons(Int(1), Empty));
    assert View(Setting()) == Call(K_SET, args);
    assert CompileE(Int(1), st) == Emitted(R.Lit(Int(1)), st);
    assert CompileE(Setting(), st) == CompileApp(Setting(), st) == CompileHead(K_SET, args, st);
    assert Classify(K_SET, args, st.scope) == WriteGlobal(X, Int(1));
    var c := R.Block(One(R.FixedV, R.Lit(Int(1))), R.GlobalSet(X, R.FixedV));
    assert CompileE(Setting(), st) == Emitted(c, st);
    assert View(CallsNothing()) == Call(G, Cons(Setting(), Empty));
    assert BindArgs(Empty, st.Next()) == Emitted((Empty, []), st.Next());
    assert [st.Fresh()] + [] == [st.Fresh()];
    assert BindArgs(Cons(Setting(), Empty), st) == Emitted((One(st.Fresh(), c), [st.Fresh()] + []), st.Next());
    assert CompileE(CallsNothing(), st) == CompileApp(CallsNothing(), st)
        == CompileHead(G, Cons(Setting(), Empty), st) == CompileCall(G, Cons(Setting(), Empty), st);
  }

  // ---- the two forms of a boolean ----

  /** `symbol?` is the one primitive here that tells the two forms of a boolean apart. */
  lemma {:induction false} FormsOfBoolean(v: Value, u: Value, w: World, z: World)
    requires Rel(v, u) && TruthOf(v).Some?
    ensures OutRel(Run(PIsSymbol, [v], w).out, Run(PIsSymbol, [u], z).out) <==> (v.VSym? <==> u.VSym?)
  {
    hide CodeOf;
  }

  // ---- natives that are called with no check ----

  /** What a native of the `/or` kind answers without its thunk. */
  function Found(op: Prim, us: seq<Value>, z: World): Option<Res>
  {
    if Deferring(op) && |us| + 1 == Arity(op) then Attempt(op, us + [VNil], z) else None
  }

  /**
   With too few arguments the evaluator makes a partial application. Compiled code reads an argument
   that is not there, unless it is done before: then it agrees exactly when what it found is that very
   partial application. Where no global and no vector holds a closure, they never agree.
   */
  lemma {:induction false} DirectUnder(
    n: nat, p: Prog, q: RProg, f: SymId, vs: seq<Value>, us: seq<Value>, w: World, z: World)
    requires Linked(p, q) && f in p.prims && Direct(p.prims[f]) && RelAll(vs, us) && WRel(w, z)
    requires |vs| < Arity(p.prims[f])
    ensures CallNamed(n, p, f, vs, w).out == Ok(VFn(f, vs))
    ensures f in q.prims && q.prims[f] == p.prims[f]
    ensures var s, found := CallCode(n, q, f, us, z), Found(p.prims[f], us, z);
            && (OutRel(Ok(VFn(f, vs)), s.out) <==> found.Some? && OutRel(Ok(VFn(f, vs)), found.value.out))
            && (found.None? ==> s.out.Abort? || s.out == Err(Runtime))
            && (FirstOrderState(z) ==> !OutRel(Ok(VFn(f, vs)), s.out))
  {
    hide Linked, Rel, WRel, Attempt, Slot, Arity, CallNamed, CallCode;
    if FirstOrderState(z) && Found(p.prims[f], us, z).Some? { FoundIsFirstOrder(p.prims[f], f, vs, us, z); }
    assert q.prims == p.prims by { SamePrims(p, q); }
    SameLength(vs, us);
    NamedShape(n, p, f, vs, w);
    DirectShort(n, q, f, us, z);
  }

  /** Only a closure is related to a partial application. */
  lemma {:induction false} FoundIsFirstOrder(op: Prim, f: SymId, vs: seq<Value>, us: seq<Value>, z: World)
    requires FirstOrderState(z) && Found(op, us, z).Some?
    ensures !OutRel(Ok(VFn(f, vs)), Found(op, us, z).value.out)
  {
  }

  lemma {:induction false} DirectShort(n: nat, q: RProg, f: SymId, us: seq<Value>, z: World)
    requires f in q.prims && Direct(q.prims[f]) && |us| < Arity(q.prims[f])
    ensures CallCode(n, q, f, us, z) == ShortArgs(q.prims[f], us, z)
  {
    hide ShortArgs, PrimCode, NamedCode, Enter, Arity;
  }

  /**
   Without arguments the evaluator makes a partial application of anything. Compiled code does so too,
   but for the overrides, which panic.
   */
  lemma {:induction false} NoArguments(n: nat, p: Prog, q: RProg, f: SymId, w: World)
    requires Linked(p, q) && f in p.prims && Arity(p.prims[f]) > 0
    ensures var override := p.prims[f] in {PNot, PIsBoolean, PIsEmpty, PVector, PVectorRef, PVectorSet, PLimit,
                                           PValueOr, PAddressOr, PVectorOr};
            && CallNamed(n, p, f, [], w) == Done(VFn(f, []), if override then Drifted(w) else w)
            && CallCode(n, q, f, [], w) == if override then Res(Abort, w) else Done(VFn(f, []), w)
  {
    hide Linked, Attempt;
    assert q.prims == p.prims by { SamePrims(p, q); }
  }

  /** `(vector-> V I)` fails as it would with a value, if it does; otherwise it reads the value that is not there. */
  lemma {:induction false} VectorSetOfTwo(n: nat, p: Prog, q: RProg, f: SymId, v: Value, i: Value, w: World)
    requires Linked(p, q) && f in p.prims && p.prims[f] == PVectorSet
    ensures CallCode(n, q, f, [v, i], w) ==
            if i != VInt(0) && Slot(v, i, w).Some? then Res(Abort, w) else Raise(w)
  {
    hide Linked;
    assert q.prims == p.prims by { SamePrims(p, q); }
    DirectShort(n, q, f, [v, i], w);
  }

  /** `(<-vector V)` panics when compiled. */
  lemma {:induction false} VectorRefAlone(n: nat, p: Prog, q: RProg, f: SymId, v: Value, w: World)
    requires Linked(p, q) && f in p.prims && p.prims[f] == PVectorRef
    ensures CallNamed(n, p, f, [v], w).out == Ok(VFn(f, [v]))
    ensures CallCode(n, q, f, [v], w) == Res(Abort, w)
  {
    hide Linked, CallNamed, CallCode;
    assert q.prims == p.prims by { SamePrims(p, q); }
    NamedShape(n, p, f, [v], w);
    DirectShort(n, q, f, [v], w);
  }

  /**
   With too many arguments compiled code ignores those it does not take, and ends as the native does
   on the others. The evaluator goes on to apply what the native returned: unless that is a closure,
   the two agree exactly when the native does not return.
   */
  lemma {:induction false} DirectOver(
    n: nat, p: Prog, q: RProg, f: SymId, vs: seq<Value>, us: seq<Value>, w: World, z: World, first: Res)
    requires Linked(p, q) && f in p.prims && Direct(p.prims[f]) && RelAll(vs, us) && WRel(w, z)
    requires |vs| > Arity(p.prims[f])
    requires first == Saturated(n, p, f, vs[..Arity(p.prims[f])], w) && !first.w.drift
    ensures var r, s, rest := CallNamed(n, p, f, vs, w), CallCode(n, q, f, us, z), vs[Arity(p.prims[f])..];
            && OutRel(first.out, s.out) && WRel(first.w, s.w)
            && (first.out.Ok? ==>
                  r.out == if n == 0 then Timeout else KlEval.Apply(n - 1, p, first.out.v, rest, Drifted(first.w)).out)
            && (!(first.out.Ok? && IsClosure(first.out.v)) ==> (OutRel(r.out, s.out) <==> !first.out.Ok?))
  {
    hide Linked, Rel, WRel, Attempt, Run, Saturated, CallCode, Arity;
    var k := Arity(p.prims[f]);
    SamePrims(p, q);
    SameLength(vs, us);
    DirectShape(n, q, f, us, z);
    assert RelAll(vs[..k], us[..k]);
    SimPrim(n, p, q, f, vs[..k], us[..k], w, z);
  }

  lemma {:induction false} NotCallable(n: nat, p: Prog, v: Value, vs: seq<Value>, w: World)
    requires !IsClosure(v)
    ensures KlEval.Apply(n, p, v, vs, w) == Raise(w)
  {
  }

  /** The evaluator's side of a native with one argument too many. */
  lemma {:induction false} OneTooMany(n: nat, p: Prog, f: SymId, a: Value, b: Value, v: Value, w: World)
    requires f in p.prims && Arity(p.prims[f]) == 1 && n > 0 && !IsClosure(v)
    requires Saturated(n, p, f, [a], w) == Done(v, w)
    ensures CallNamed(n, p, f, [a, b], w).out == Err(Runtime)
  {
    hide Saturated, KlEval.Apply, Arity;
    assert [a, b][..1] == [a];
    NotCallable(n - 1, p, v, [a, b][1..], if Insists(p, f) then Drifted(w) else w);
  }

  /** `(limit V 1)` */
  lemma {:induction false} LimitOfTwo(n: nat, p: Prog, q: RProg, f: SymId, w: World)
    requires Linked(p, q) && f in p.prims && p.prims[f] == PLimit && n > 0
    requires |w.vecs| > 0 && |w.vecs[0]| > 0 && w.vecs[0][0].VInt?
    ensures CallNamed(n, p, f, [VVec(0), VInt(1)], w).out == Err(Runtime)
    ensures CallCode(n, q, f, [VVec(0), VInt(1)], w) == Done(w.vecs[0][0], w)
  {
    hide Linked, CallNamed, CallCode, Saturated;
    assert q.prims == p.prims by { SamePrims(p, q); }
    var vs := [VVec(0), VInt(1)];
    assert vs[..1] == [VVec(0)];
    DirectShape(n, q, f, vs, w);
    PrimExact(n, q, f, vs[..1], w);
    PrimShape(n, p, f, vs[..1], w);
    assert Slot(VVec(0), VInt(0), w) == Some(w.vecs[0][0]);
    OneTooMany(n, p, f, VVec(0), VInt(1), w.vecs[0][0], w);
  }

  // ---- equality of errors ----

  /** Two errors can be compared exactly when the program raised both: the runtime's own texts differ by engine. */
  lemma {:induction false} ErrorsCompare(m: Msg, k: Msg, w: World)
    ensures Run(PEq, [VErr(m), VErr(k)], w).w.drift <==> w.drift || !(m.Raised? && k.Raised?)
  {
  }

  /** Data without closures, vectors and runtime errors is always compared, with the right answer in both engines. */
  lemma {:induction false} ComparableDecided(a: Value, b: Value, c: Value, d: Value)
    requires Comparable(a) && Comparable(b) && Rel(a, c) && Rel(b, d)
    ensures ValueEq(a, b) == Some(MeaningOf(a) == MeaningOf(b)) && ValueEq(c, d) == ValueEq(a, b)
  {
    hide CodeOf;
    EqualIsMeaning(a, b);
    ValueEqRel(a, b, c, d);
  }

  const E: SymId := 102

  /** `(trap-error body (lambda E E))` */
  function Caught5(body: Expr): Expr
  {
    App(Cons(Sym(K_TRAP_ERROR), Cons(body, Cons(Itself(), Empty))))
  }

  function Itself(): Expr
  {
    App(Cons(Sym(K_LAMBDA), Cons(Sym(E), Cons(Sym(E), Empty))))
  }

  /** `(if 5 1 2)` */
  function IfFive(): Expr
  {
    App(Cons(Sym(K_IF), Cons(Int(5), Cons(Int(1), Cons(Int(2), Empty)))))
  }

  /** `(cond (5 1))` */
  function CondFive(): Expr
  {
    App(Cons(Sym(K_COND), Cons(App(Cons(Int(5), Cons(Int(1), Empty))), Empty)))
  }

  /** `(= (trap-error (if 5 1 2) (lambda E E)) (trap-error (cond (5 1)) (lambda E E)))` */
  function TwoErrors(): Expr
  {
    App(Cons(Sym(K_EQ), Cons(Caught5(IfFive()), Cons(Caught5(CondFive()), Empty))))
  }

  lemma {:induction false} CatchRuntime(n: nat, p: Prog, body: Expr, w: World)
    requires n > 0 && Eval(n, p, body, EmptyEnv, w, false) == Raise(w)
    requires TrappedAccess(body, Itself()).None?
    ensures Eval(n, p, Caught5(body), EmptyEnv, w, false) == Done(VErr(Runtime), w)
  {
    hide Eval;
    assert View(Itself()) == Lambda(E, Sym(E));
    assert View(Caught5(body)) == Trap(body, Itself());
    TrapStep(n, p, Caught5(body), EmptyEnv, w);
    var env := Push(E, VErr(Runtime), EmptyEnv);
    EvalAtom(n - 1, p, Sym(E), env, w);
    assert Lookup(env, E) == Some(VErr(Runtime));
  }

  lemma {:induction false} NotBooleans(n: nat, p: Prog, w: World)
    ensures Eval(n, p, IfFive(), EmptyEnv, w, false) == Raise(w)
    ensures Eval(n, p, CondFive(), EmptyEnv, w, false) == Raise(w)
  {
    hide EvalDo, EvalArgs, CallNamed;
    EvalAtom(n, p, Int(5), EmptyEnv, w);
    assert View(IfFive()) == If(Int(5), Int(1), Int(2));
    assert Eval(n, p, IfFive(), EmptyEnv, w, false) == Step(n, p, IfFive(), EmptyEnv, w, false);
    var cs := Cons(App(Cons(Int(5), Cons(Int(1), Empty))), Empty);
    assert View(CondFive()) == Cond(cs);
    assert Eval(n, p, CondFive(), EmptyEnv, w, false) == Step(n, p, CondFive(), EmptyEnv, w, false)
        == EvalCond(n, p, cs, EmptyEnv, w, false);
  }

  /** The comparison is not one that the engines are held to. */
  lemma {:induction false} TwoErrorsDrift(n: nat, p: Prog, w: World)
    requires n > 0 && K_EQ in p.prims && p.prims[K_EQ] == PEq
    ensures Eval(n, p, TwoErrors(), EmptyEnv, w, false).w.drift
  {
    hide Eval, PlainCall;
    NotBooleans(n, p, w);
    CatchRuntime(n, p, IfFive(), w);
    CatchRuntime(n, p, CondFive(), w);
    assert View(TwoErrors()) == Call(K_EQ, Cons(Caught5(IfFive()), Cons(Caught5(CondFive()), Empty)));
    ShortStep(n, p, TwoErrors(), EmptyEnv, w);
    CallTwo(n, p, K_EQ, Caught5(IfFive()), Caught5(CondFive()), EmptyEnv, w);
    ErrorsCompare(Runtime, Runtime, w);
  }

  // ---- trapped value ----

  /**
   Trapping `value` of something that is no symbol falls back, while the code that it is rewritten
   to raises by itself: the same outcome exactly when the fallback raises a runtime error.
   */
  lemma {:induction false} TrappedValueExact(
    n: nat, p: Prog, q: RProg, e: Expr, a: Access, st: Cg, env: Env, locals: REnv, w: World, z: World)
    requires View(e).Trap? && Fit(p, q, e, st, env, locals, w, z) && n > 0
    requires TrappedAccess(View(e).body, View(e).handler) == Some(a) && Fits(a) && a.op == K_VALUE
    requires !AtomValue(a.operands.head, env).VSym? && TruthOf(AtomValue(a.operands.head, env)).None?
    ensures RunE(n, q, CompileE(e, st).code, locals, z) == Raise(z)
    ensures var fallback := Eval(n - 1, p, a.fallback, Caught(View(e).handler, env), w, false);
            && Eval(n, p, e, env, w, false).out == fallback.out && Eval(n, p, e, env, w, false).w.drift
            && (OutRel(Eval(n, p, e, env, w, false).out, RunE(n, q, CompileE(e, st).code, locals, z).out)
                <==> fallback.out == Err(Runtime))
  {
    hide Linked, EnvRel, WRel, RunE, CodeOf, Eval, CompileE, View, PlainCall, Attempt, Run, Rel;
    var Trap(b, h) := View(e);
    ReadyAccess(e, a, st, env, locals);
    var us, t := RunAccess(n, p, q, e, a, st, env, locals, w, z);
    TrapStep(n, p, e, env, w);
    ShortStep(n, p, b, env, w);
    AccessPrims(p, q, a.op);
    AccessCall(n, p, a, env, w);
    NoSymbol(AtomValues(a, env), us, t, w, z);
    Passive.SameE(n - 1, p, a.fallback, Caught(h, env), Drifted(w), w, false, false);
  }

  lemma {:induction false} NoSymbol(vs: seq<Value>, us: seq<Value>, t: Value, w: World, z: World)
    requires |vs| == 1 && RelAll(vs, us) && !vs[0].VSym? && TruthOf(vs[0]).None?
    ensures Run(PValue, vs, w) == Raise(w)
    ensures |us| == 1 && Attempt(PValueOr, us + [t], z) == Some(Raise(z))
  {
    hide CodeOf;
    assert Rel(vs[0], us[0]);
  }

  /** `(trap-error (value 5) (lambda E 1))` */
  function ValueOfFive(): Expr
  {
    App(Cons(Sym(K_TRAP_ERROR), Cons(App(Cons(Sym(K_VALUE), Cons(Int(5), Empty))), Cons(ToOne(), Empty))))
  }

  function ToOne(): Expr
  {
    App(Cons(Sym(K_LAMBDA), Cons(Sym(E), Cons(Int(1), Empty))))
  }

  lemma {:induction false} TrappedValueParts(n: nat, p: Prog, q: RProg, k: nat, w: World)
    requires Linked(p, q) && n > 0 && WRel(w, w)
    ensures var st := Cg(k, {}, map[], None, []);
            && Eval(n, p, ValueOfFive(), EmptyEnv, w, false).out == Ok(VInt(1))
            && CompileE(ValueOfFive(), st).Emitted?
            && RunE(n, q, CompileE(ValueOfFive(), st).code, EmptyREnv, w) == Raise(w)
  {
    hide Linked, WRel, RunE, Eval, CompileE, EnvRel, Rel, Wf, Safe, Names;
    var st := Cg(k, {}, map[], None, []);
    var a := Access(K_VALUE, Cons(Int(5), Empty), Int(1));
    var e := ValueOfFive();
    ValueOfFiveFits(st);
    TrappedValueExact(n, p, q, e, a, st, EmptyEnv, EmptyREnv, w, w);
    EvalAtom(n - 1, p, Int(1), Caught(ToOne(), EmptyEnv), w);
  }

  lemma {:induction false} ValueOfFiveFits(st: Cg)
    requires st.scope == {} && st.thaws == map[]
    ensures var e, a := ValueOfFive(), Access(K_VALUE, Cons(Int(5), Empty), Int(1));
            && View(e).Trap? && View(e).handler == ToOne() && View(ToOne()).Lambda?
            && TrappedAccess(View(e).body, View(e).handler) == Some(a) && Fits(a)
            && CompileE(e, st).Emitted? && Ready(e, st, EmptyEnv, EmptyREnv)
  {
    ValueOfFiveViews();
    hide View, TrappedAccess, ValueOfFive, CompileE, Wf;
    ValueOfFiveEmitted(st);
    ValueOfFiveWf();
    assert st.thaws.Keys == {};
  }

  lemma {:induction false} ValueOfFiveViews()
    ensures View(ValueOfFive()) == Trap(App(Cons(Sym(K_VALUE), Cons(Int(5), Empty))), ToOne())
    ensures View(ToOne()) == Lambda(E, Int(1))
    ensures var a := Access(K_VALUE, Cons(Int(5), Empty), Int(1));
            TrappedAccess(App(Cons(Sym(K_VALUE), Cons(Int(5), Empty))), ToOne()) == Some(a) && Fits(a)
  {
    assert Names(Int(1)) == {} && Atomic(Cons(Int(5), Empty));
  }

  lemma {:induction false} ValueOfFiveEmitted(st: Cg)
    ensures CompileE(ValueOfFive(), st).Emitted?
  {
    hide CompileCond, CompileDo, CompileTry, CompileHead, BindArgs;
    ValueOfFiveViews();
    assert CompileE(Int(1), Inside(None, Int(1), st)).Emitted?;
    assert CompileE(ValueOfFive(), st) == CompileApp(ValueOfFive(), st);
  }

  lemma {:induction false} ValueOfFiveWf()
    ensures Wf(ValueOfFive(), {}, {}, {})
  {
    ValueOfFiveViews();
    assert WfAll(Cons(Int(5), Empty), {}, {}, {}) && Wf(Int(1), {E}, {}, {});
    assert Captures(Int(1), {}) == {} && {} + {E} == {E};
  }
}
