/**
 When a value, an environment or a state of the evaluator and one of compiled code stand for
 the same thing. Closures do when the code is what the compiler makes of the source body and
 the captured locals stand for the captured environment.
 */
module Related {
  import opened Lists
  import opened Kl
  import opened Machine
  import R = RustIr
  import opened KlEval
  import opened RustRun
  import opened Codegen
  import opened CodegenState

  ghost predicate Rel(v: Value, u: Value)
    decreases v, 0
  {
    TruthOf(v) == TruthOf(u) &&
    (TruthOf(v).None? ==>
       match v
       case VCons(h, t) => u.VCons? && Rel(h, u.hd) && Rel(t, u.tl)
       case VLam(env, param, body) =>
         u.VCode? && u.rparam == param && exists st: Cg :: CodeOf(body, param, env, u.code, u.locals, st)
       case VFn(f, args) =>
         u.VFn? && u.name == f && |u.partial| == |args| &&
         forall i :: 0 <= i < |args| ==> Rel(args[i], u.partial[i])
       case VCode(_, _, _, _) => false
       case _ => v == u)
  }

  /** Inlined continuations live in temporaries older than any the code still allocates. */
  predicate ThawsBelow(st: Cg)
  {
    forall g :: g in st.thaws ==> st.thaws[g].T? && st.thaws[g].n < st.counter
  }

  ghost predicate Compiled(e: Expr, lex: set<SymId>, st: Cg, code: R.RExpr)
  {
    && Wf(e, lex, st.scope, st.thaws.Keys) && Safe(e, st.thaws.Keys) && ThawsBelow(st)
    && CompileE(e, st).Emitted? && CompileE(e, st).code == code
  }

  ghost predicate CodeOf(
    body: Expr, param: Option<SymId>, env: Env, code: R.RExpr, locals: REnv, st: Cg)
    decreases env, 3
  {
    && Compiled(body, Dom(env) + ParamSet(param), st, code)
    && (param.Some? ==> param.value !in st.thaws)
    && EnvRel(Names(body) - ParamSet(param), env, locals, st.scope, st.thaws)
  }

  /** The Rust local that holds a name in scope. */
  function LocalOf(x: SymId, thaws: map<SymId, R.RVar>): R.RVar
  {
    if x in thaws then thaws[x] else R.V(x)
  }

  /**
   Those of the names `ns` that the generator takes for locals are bound, and their locals hold what
   they are bound to.
   */
  ghost predicate EnvRel(
    ns: set<SymId>, env: Env, locals: REnv, scope: set<SymId>, thaws: map<SymId, R.RVar>)
    decreases env, 2
  {
    forall x :: x in ns && (x in scope || x in thaws) ==>
      && Lookup(env, x).Some?
      && CellRel(Lookup(env, x).value, Get(locals, LocalOf(x, thaws)), x in thaws)
  }

  ghost predicate CellRel(v: Value, cell: Option<Cell>, inlined: bool)
    decreases v, 1
  {
    match cell
    case None => false
    case Some(Val(u)) => !inlined && Rel(v, u)
    case Some(Proc(code, locals)) =>
      && inlined && v.VLam? && v.param.None?
      && exists st: Cg :: CodeOf(v.body, None, v.env, code, locals, st)
  }

  ghost predicate RelAll(vs: seq<Value>, us: seq<Value>)
  {
    |vs| == |us| && forall i :: 0 <= i < |vs| ==> Rel(vs[i], us[i])
  }

  ghost predicate EventRel(a: Event, b: Event)
  {
    match a
    case SetGlobal(id, v) => b.SetGlobal? && b.id == id && Rel(v, b.v)
    case SetCell(r, i, v) => b.SetCell? && b.ref == r && b.i == i && Rel(v, b.v)
    case MadeVec(cells) => b.MadeVec? && RelAll(cells, b.cells)
    case Called(f, vs) => b.Called? && b.f == f && RelAll(vs, b.args)
  }

  ghost predicate WRel(w: World, z: World)
  {
    && w.globals.Keys == z.globals.Keys
    && (forall k :: k in w.globals ==> Rel(w.globals[k], z.globals[k]))
    && |w.vecs| == |z.vecs| && (forall i :: 0 <= i < |w.vecs| ==> RelAll(w.vecs[i], z.vecs[i]))
    && |w.trace| == |z.trace| && (forall i :: 0 <= i < |w.trace| ==> EventRel(w.trace[i], z.trace[i]))
  }

  ghost predicate OutRel(a: Out, b: Out)
  {
    match a
    case Ok(v) => b.Ok? && Rel(v, b.v)
    case _ => a == b
  }

  /** The two engines agree, unless the evaluator's run left the ground they share. */
  ghost predicate Agree(r: Res, s: Res)
  {
    r.w.drift || (OutRel(r.out, s.out) && WRel(r.w, s.w))
  }

  // ---- the relation on plain data ----

  /** Data without closures. */
  predicate FirstOrder(v: Value)
  {
    match v
    case VCons(h, t) => FirstOrder(h) && FirstOrder(t)
    case VFn(_, _) => false
    case VLam(_, _, _) => false
    case VCode(_, _, _, _) => false
    case _ => true
  }

  predicate AllFirstOrder(vs: seq<Value>)
  {
    forall i :: 0 <= i < |vs| ==> FirstOrder(vs[i])
  }

  /** No global and no vector holds a closure. */
  predicate FirstOrderState(w: World)
  {
    && (forall k :: k in w.globals ==> FirstOrder(w.globals[k]))
    && (forall i :: 0 <= i < |w.vecs| ==> AllFirstOrder(w.vecs[i]))
  }

  lemma {:induction false} QuoteRel(e: Expr)
    ensures Rel(Quote(e), Quote(e))
    decreases e
  {
    if e.App? { QuoteListRel(e.items); }
  }

  lemma {:induction false} QuoteListRel(es: List<Expr>)
    ensures Rel(QuoteList(es), QuoteList(es))
    decreases es
  {
    if es.Cons? {
      QuoteRel(es.head);
      QuoteListRel(es.tail);
    }
  }

  /** Related values have the same number, if any, and the same shape unless they are booleans. */
  lemma {:induction false} ValueEqRel(a: Value, b: Value, c: Value, d: Value)
    requires Rel(a, c) && Rel(b, d) && ValueEq(a, b).Some?
    ensures ValueEq(a, b) == ValueEq(c, d)
    decreases a
  {
    hide CodeOf, EnvRel, CellRel;
    if TruthOf(a).None? && TruthOf(b).None? && a.VCons? && b.VCons? {
      ValueEqRel(a.hd, b.hd, c.hd, d.hd);
      if ValueEq(a.hd, b.hd) == Some(true) { ValueEqRel(a.tl, b.tl, c.tl, d.tl); }
    }
  }

  lemma {:induction false} SameTruth(v: Value, u: Value)
    requires Rel(v, u)
    ensures TruthOf(v) == TruthOf(u)
  {
  }

  lemma {:induction false} SlotRel(v: Value, i: Value, u: Value, j: Value, w: World, z: World)
    requires Rel(v, u) && Rel(i, j) && WRel(w, z)
    ensures Slot(v, i, w).Some? <==> Slot(u, j, z).Some?
    ensures Slot(v, i, w).Some? ==> u == v && j == i && Rel(Slot(v, i, w).value, Slot(u, j, z).value)
  {
    hide CodeOf, EnvRel, CellRel;
    if Slot(v, i, w).Some? { assert RelAll(w.vecs[v.ref], z.vecs[v.ref]); }
    if Slot(u, j, z).Some? { assert RelAll(w.vecs[u.ref], z.vecs[u.ref]); }
  }

  lemma {:induction false} StoreRel(v: Value, i: Value, x: Value, u: Value, j: Value, y: Value, w: World, z: World)
    requires Rel(v, u) && Rel(i, j) && Rel(x, y) && WRel(w, z)
    ensures Agree(Store(v, i, x, w), Store(u, j, y, z))
  {
    hide CodeOf, EnvRel, CellRel;
    SlotRel(v, i, u, j, w, z);
    if Slot(v, i, w).Some? {
      assert RelAll(w.vecs[v.ref], z.vecs[v.ref]);
      assert RelAll(w.vecs[v.ref][i.n := x], z.vecs[v.ref][i.n := y]);
      assert EventRel(SetCell(v.ref, i.n, x), SetCell(v.ref, i.n, y));
    }
  }

  lemma {:induction false} SetRel(w: World, z: World, id: SymId, v: Value, u: Value)
    requires WRel(w, z) && Rel(v, u)
    ensures WRel(SetIn(w, id, v), SetIn(z, id, u))
  {
    hide CodeOf, EnvRel, CellRel;
    assert EventRel(SetGlobal(id, v), SetGlobal(id, u));
  }

  lemma {:induction false} LogRel(w: World, z: World, f: SymId, vs: seq<Value>, us: seq<Value>)
    requires WRel(w, z) && RelAll(vs, us)
    ensures WRel(Log(w, f, vs), Log(z, f, us))
  {
    hide Rel, RelAll;
    assert EventRel(Called(f, vs), Called(f, us));
  }

  lemma {:induction false} VectorSlotRel(v: Value, i: Value, u: Value, j: Value, w: World, z: World)
    requires Rel(v, u) && Rel(i, j) && WRel(w, z)
    ensures VectorSlot(v, i, w).Some? <==> VectorSlot(u, j, z).Some?
    ensures VectorSlot(v, i, w).Some? ==> Rel(VectorSlot(v, i, w).value, VectorSlot(u, j, z).value)
  {
    hide CodeOf, EnvRel, CellRel;
    SlotRel(v, i, u, j, w, z);
  }

  lemma {:induction false} NewVecRel(a: seq<Value>, b: seq<Value>, w: World, z: World)
    requires RelAll(a, b) && WRel(w, z)
    ensures Agree(NewVec(a, w), NewVec(b, z))
  {
    hide CodeOf, EnvRel, CellRel;
    assert EventRel(MadeVec(a), MadeVec(b));
  }

  /** Only numbers stand for numbers, and only for themselves. */
  lemma {:induction false} NumRel(a: Value, c: Value)
    requires Rel(a, c)
    ensures Num(a) == Num(c) && (Num(a).Some? ==> a == c)
  {
    hide CodeOf;
  }

  lemma {:induction false} ArithNeedsNumbers(op: Prim, a: Value, b: Value)
    requires op in {PAdd, PSub, PMul, PDiv, PLt, PGt, PLe, PGe} && (Num(a).None? || Num(b).None?)
    ensures Arith(op, a, b) == Err(Runtime)
  {
  }

  lemma {:induction false} ArithRel(op: Prim, a: Value, b: Value, c: Value, d: Value)
    requires op in {PAdd, PSub, PMul, PDiv, PLt, PGt, PLe, PGe}
    requires Rel(a, c) && Rel(b, d)
    ensures OutRel(Arith(op, a, b), Arith(op, c, d))
  {
    NumRel(a, c);
    NumRel(b, d);
    hide Arith, Num, CodeOf;
    if Num(a).None? || Num(b).None? {
      ArithNeedsNumbers(op, a, b);
      ArithNeedsNumbers(op, c, d);
    }
  }

  /** Primitives that build or write vectors. */
  predicate OnVectors(op: Prim)
  {
    op in {PAddressSet, PAbsvector, PVector, PVectorSet}
  }

  lemma {:induction false} OnVectorsRel(op: Prim, a: seq<Value>, b: seq<Value>, w: World, z: World)
    requires |a| == Arity(op) && OnVectors(op) && RelAll(a, b) && WRel(w, z)
    ensures Agree(Run(op, a, w), Run(op, b, z))
  {
    hide CodeOf, EnvRel, CellRel;
    assert Rel(a[0], b[0]);
    if op == PAddressSet || op == PVectorSet {
      assert Rel(a[1], b[1]) && Rel(a[2], b[2]);
      StoreRel(a[0], a[1], a[2], b[0], b[1], b[2], w, z);
    } else if op == PAbsvector {
      if a[0].VInt? && 0 <= a[0].n <= MAX_ABSVECTOR {
        var cells := seq(a[0].n, _ => VSym(K_TRUE));
        NewVecRel(cells, cells, w, z);
      }
    } else {
      if a[0].VInt? && 0 <= a[0].n && a[0].n + 1 <= MAX_ABSVECTOR {
        var cells := [a[0]] + seq(a[0].n, _ => VSym(K_SHEN_FAIL));
        NewVecRel(cells, cells, w, z);
      }
    }
  }

  predicate OnState(op: Prim)
  {
    op in {PValue, PSet, PRaise, PErrorText}
  }

  lemma {:induction false} SetPrimRel(a: seq<Value>, b: seq<Value>, w: World, z: World)
    requires |a| == 2 && RelAll(a, b) && WRel(w, z)
    ensures Agree(Run(PSet, a, w), Run(PSet, b, z))
  {
    hide CodeOf, EnvRel, CellRel, WRel;
    assert Rel(a[0], b[0]) && Rel(a[1], b[1]);
    if a[0].VSym? && TruthOf(a[0]).None? { SetRel(w, z, a[0].id, a[1], b[1]); }
  }

  lemma {:induction false} OnStateRel(op: Prim, a: seq<Value>, b: seq<Value>, w: World, z: World)
    requires |a| == Arity(op) && OnState(op) && RelAll(a, b) && WRel(w, z)
    ensures Agree(Run(op, a, w), Run(op, b, z))
  {
    hide CodeOf, EnvRel, CellRel;
    assert Rel(a[0], b[0]);
    if op == PSet {
      SetPrimRel(a, b, w, z);
    } else if op == PValue {
      assert TruthOf(a[0]).None? ==> a[0].VSym? == b[0].VSym?;
    }
  }

  predicate Reads(op: Prim)
  {
    op in {PEq, PAddress, PVectorRef, PLimit}
  }

  lemma {:induction false} ReadsRel(op: Prim, a: seq<Value>, b: seq<Value>, w: World, z: World)
    requires |a| == Arity(op) && Reads(op) && RelAll(a, b) && WRel(w, z)
    ensures Agree(Run(op, a, w), Run(op, b, z))
  {
    hide CodeOf, EnvRel, CellRel;
    assert Rel(a[0], b[0]);
    if op == PLimit {
      SlotRel(a[0], VInt(0), b[0], VInt(0), w, z);
    } else {
      assert Rel(a[1], b[1]);
      if op == PEq {
        if ValueEq(a[0], a[1]).Some? { ValueEqRel(a[0], a[1], b[0], b[1]); }
      } else if op == PAddress {
        SlotRel(a[0], a[1], b[0], b[1], w, z);
      } else {
        VectorSlotRel(a[0], a[1], b[0], b[1], w, z);
      }
      hide ValueEq, Slot, VectorSlot;
    }
  }

  /** Primitives that ask of what kind a value is. */
  predicate Asks(op: Prim)
  {
    op in {PIsCons, PIsNumber, PIsString, PIsSymbol, PIsVec, PIsEmpty, PIsBoolean, PNot}
  }

  lemma {:induction false} AsksRel(op: Prim, a: seq<Value>, b: seq<Value>, w: World, z: World)
    requires |a| == Arity(op) && Asks(op) && RelAll(a, b) && WRel(w, z)
    ensures Agree(Run(op, a, w), Run(op, b, z))
  {
    hide WRel, CodeOf, ValueEq, Arith, Slot, Store, VectorSlot;
    assert Rel(a[0], b[0]);
  }

  lemma {:induction false} PureRel(op: Prim, a: seq<Value>, b: seq<Value>, w: World, z: World)
    requires op in {PCons, PHd, PTl, PCn, PFail} && |a| == Arity(op) && RelAll(a, b) && WRel(w, z)
    ensures Agree(Run(op, a, w), Run(op, b, z))
  {
    hide WRel, CodeOf, ValueEq, Arith, Slot, Store, VectorSlot;
    assert |a| >= 1 ==> Rel(a[0], b[0]);
    assert |a| >= 2 ==> Rel(a[1], b[1]);
  }

  /** Primitives cannot tell related arguments apart. */
  lemma {:induction false} RunRel(op: Prim, a: seq<Value>, b: seq<Value>, w: World, z: World)
    requires |a| == Arity(op) && !Deferring(op) && RelAll(a, b) && WRel(w, z)
    ensures Agree(Run(op, a, w), Run(op, b, z))
  {
    hide CodeOf, EnvRel, CellRel;
    if op in {PAdd, PSub, PMul, PDiv, PLt, PGt, PLe, PGe} {
      ArithRel(op, a[0], a[1], b[0], b[1]);
    } else if OnVectors(op) {
      OnVectorsRel(op, a, b, w, z);
    } else if OnState(op) {
      OnStateRel(op, a, b, w, z);
    } else if Reads(op) {
      ReadsRel(op, a, b, w, z);
    } else if Asks(op) {
      AsksRel(op, a, b, w, z);
    } else {
      PureRel(op, a, b, w, z);
    }
  }

  lemma {:induction false} AttemptRel(op: Prim, a: seq<Value>, b: seq<Value>, w: World, z: World)
    requires |a| == Arity(op) && Deferring(op) && RelAll(a, b) && WRel(w, z) && !Watch(op, a, w).drift
    ensures Attempt(op, a, w).Some? <==> Attempt(op, b, z).Some?
    ensures Attempt(op, a, w).Some? ==> Agree(Attempt(op, a, w).value, Attempt(op, b, z).value)
  {
    hide CodeOf, EnvRel, CellRel;
    match op
    case PAddressOr => SlotRel(a[0], a[1], b[0], b[1], w, z);
    case PVectorOr => VectorSlotRel(a[0], a[1], b[0], b[1], w, z);
    case _ =>
  }
}
