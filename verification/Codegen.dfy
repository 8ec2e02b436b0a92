/**
 The compiler (klcompile/src/lib.rs) as functions: what each `compile_*` emits, and how it
 leaves the code generator's counter, flat scope and inlined continuations.
 */
module Codegen {
  import opened Lists
  import opened Kl
  import opened R = RustIr

  /** `Codegen` together with the `Scope` that its methods pass along. */
  datatype Cg = Cg(
    counter: nat, scope: set<SymId>, thaws: map<SymId, RVar>, self: Option<SymId>, params: seq<SymId>)
  {
    function Fresh(): RVar { T(counter) }
    function Next(): Cg { this.(counter := counter + 1) }
    function Bind(x: SymId): Cg { this.(scope := scope + {x}) }
    function Unbind(x: SymId): Cg { this.(scope := scope - {x}) }
  }

  /** Code and the state after it, or the state in which a form was rejected. */
  datatype Emit<+C> = Emitted(code: C, st: Cg) | Rejected(at: Cg)
  {
    predicate IsFailure() { Rejected? }
    function PropagateFailure<U>(): Emit<U> requires Rejected? { Rejected(at) }
    function Extract(): (C, Cg) requires Emitted? { (code, st) }
  }

  function One(x: RVar, e: RExpr): List<R.Bind> { Cons(R.Bind(x, e), Empty) }

  // ---- syntactic checks ----

  /** `only_thawed`: `x` is written only as `(thaw x)`, and never inside a lambda or a freeze. */
  predicate OnlyThawed(x: SymId, e: Expr, escape: bool)
  {
    match e
    case Sym(s) => s != x
    case App(items) =>
      if items == Cons(Sym(K_THAW), Cons(Sym(x), Empty)) then !escape
      else
        var nest := escape || (items.Cons? && items.head in {Sym(K_LAMBDA), Sym(K_FREEZE)});
        OnlyThawedIn(x, items, nest)
    case _ => true
  }

  /** A `let` whose value becomes a local procedure. */
  predicate Inlines(x: SymId, v: Expr, b: Expr) { View(v).Freeze? && OnlyThawed(x, b, false) }

  predicate OnlyThawedIn(x: SymId, es: List<Expr>, escape: bool)
  {
    es.Cons? ==> OnlyThawed(x, es.head, escape) && OnlyThawedIn(x, es.tail, escape)
  }

  /** Literals that `=` is specialised for, with the test that replaces it. */
  function ProbeFor(lit: Expr, scope: set<SymId>): Option<Probe>
  {
    match lit
    case Nil => Some(IsNil)
    case Str(s) => Some(IsStr(s))
    case Sym(x) => if x in scope then None else Some(IsSym(x))
    case App(Cons(Sym(f), Empty)) =>
      if f == K_FAIL && f !in scope then Some(IsSym(K_SHEN_FAIL)) else None
    case _ => None
  }

  /** Calls with a cheaper form: globals named outright, and `=` against a literal on either side. */
  datatype Shortcut =
    | ReadGlobal(x: SymId) | WriteGlobal(x: SymId, v: Expr) | Compare(probe: Probe, v: Expr) | Plain

  function Classify(h: SymId, args: List<Expr>, scope: set<SymId>): (r: Shortcut)
    ensures (r.WriteGlobal? || r.Compare?) ==> r.v < args
    ensures r.ReadGlobal? ==> h == K_VALUE && args == Cons(Sym(r.x), Empty) && r.x !in scope
    ensures r.WriteGlobal? ==> h == K_SET && args == Cons(Sym(r.x), Cons(r.v, Empty)) && r.x !in scope
  {
    match args
    case Cons(a, Empty) =>
      if h == K_VALUE && a.Sym? && a.id !in scope then ReadGlobal(a.id) else Plain
    case Cons(a, Cons(b, Empty)) =>
      if h == K_SET && a.Sym? && a.id !in scope then WriteGlobal(a.id, b)
      else if h != K_EQ then Plain
      else
        (match ProbeFor(a, scope)
         case Some(p) => Compare(p, b)
         case None =>
           match ProbeFor(b, scope)
           case Some(p) => Compare(p, a)
           case None => Plain)
    case _ => Plain
  }

  /** Calls that end in a freeze which the callee thaws at once; their lowering is not modelled. */
  predicate PrologCall(h: SymId, args: List<Expr>)
  {
    EndsInFreeze(args) &&
    ((h == K_WHEN && Length(args) == 5) || (h == K_CUT && Length(args) == 4)
     || (h == K_BIND_BANG && Length(args) == 4) || (h == K_BIND && Length(args) == 6))
  }

  predicate EndsInFreeze(args: List<Expr>)
  {
    match args
    case Empty => false
    case Cons(e, Empty) => View(e).Freeze?
    case Cons(_, rest) => EndsInFreeze(rest)
  }

  function Length(es: List<Expr>): nat
  {
    match es case Empty => 0 case Cons(_, rest) => 1 + Length(rest)
  }

  // ---- captures ----

  predicate Lowest(m: SymId, s: set<SymId>)
  {
    m in s && forall k :: k in s ==> m <= k
  }

  lemma {:induction false} HasLeast(s: set<SymId>)
    requires s != {}
    ensures exists m :: Lowest(m, s)
  {
    var x :| x in s;
    var rest := s - {x};
    if rest == {} {
      assert s == {x} && Lowest(x, s);
    } else {
      HasLeast(rest);
      var m :| Lowest(m, rest);
      LowestOfBoth(x, m, rest, s);
    }
  }

  lemma {:induction false} LowestOfBoth(x: SymId, m: SymId, rest: set<SymId>, s: set<SymId>)
    requires Lowest(m, rest) && s == rest + {x}
    ensures Lowest(if x < m then x else m, s)
  {
  }

  ghost function Least(s: set<SymId>): (m: SymId)
    requires s != {}
    ensures m in s && forall k :: k in s ==> m <= k
  {
    HasLeast(s);
    var m :| Lowest(m, s);
    m
  }

  /** A set of names in increasing order: the `sort` of whatever order the hash set yields. */
  ghost function Sorted(s: set<SymId>): (r: seq<SymId>)
    ensures forall x :: x in r <==> x in s
  {
    if s == {} then [] else [Least(s)] + Sorted(s - {Least(s)})
  }

  /** The names in scope that a closure body mentions. */
  function Captures(body: Expr, scope: set<SymId>): set<SymId> { scope * Names(body) }

  // ---- expressions ----

  ghost function CompileE(e: Expr, st: Cg): Emit<RExpr>
    decreases e, 2
  {
    match e
    case Sym(x) => Emitted(if x in st.scope then Read(V(x)) else Lit(e), st)
    case App(_) => CompileApp(e, st)
    case _ => Emitted(Lit(e), st)
  }

  ghost function CompileApp(e: Expr, st: Cg): Emit<RExpr>
    requires e.App?
    decreases e, 1
  {
    match View(e)
    case Const(l) => Emitted(Lit(l), st)
    case If(c, t, f) =>
      var (cc, s1) :- CompileE(c, st);
      var (tc, s2) :- CompileE(t, s1);
      var (fc, s3) :- CompileE(f, s2);
      Emitted(Block(One(s3.Fresh(), cc), IfTrue(s3.Fresh(), tc, fc)), s3.Next())
    case Let(x, v, b) =>
      if Inlines(x, v, b) then
        var (pc, s1) :- CompileE(View(v).body, st);
        var go := s1.Fresh();
        var (bc, s2) :- CompileE(b, EnterProc(s1, x));
        Emitted(LetProc(go, pc, bc), LeaveProc(s2, x))
      else
        var (vc, s1) :- CompileE(v, st);
        var (bc, s2) :- CompileE(b, s1.Bind(x));
        Emitted(Block(One(V(x), vc), bc), s2.Unbind(x))
    case Cond(cs) => CompileCond(cs, st)
    case Do(es) => CompileDo(es, st)
    case And(a, b) =>
      var (ac, s1) :- CompileE(a, st);
      var (bc, s2) :- CompileE(b, s1);
      var (av, bv) := (s2.Fresh(), s2.Next().Fresh());
      Emitted(Block(One(av, ac), IfTrue(av, Block(One(bv, bc), BoolOf(bv)), Lit(Bool(false)))),
              s2.Next().Next())
    case Or(a, b) =>
      var (ac, s1) :- CompileE(a, st);
      var (bc, s2) :- CompileE(b, s1);
      var (av, bv) := (s2.Fresh(), s2.Next().Fresh());
      Emitted(Block(One(av, ac), IfTrue(av, Lit(Bool(true)), Block(One(bv, bc), BoolOf(bv)))),
              s2.Next().Next())
    case Lambda(x, b) => CompileClosure(Some(x), b, st)
    case Freeze(b) => CompileClosure(None, b, st)
    case Thaw(a) =>
      if a.Sym? && a.id in st.thaws then Emitted(Go(st.thaws[a.id]), st)
      else
        var (fc, s1) :- CompileE(a, st);
        Emitted(ApplyValue(fc, []), s1)
    case Trap(b, h) =>
      (match TrappedAccess(b, h)
       case None => CompileTry(e, st)
       case Some(a) =>
         var (thunk, s1) :- CompileClosure(None, a.fallback, st);
         if !Fits(a) then CompileTry(e, s1)
         else
           var (xc, s2) :- CompileE(a.operands.head, s1);
           if a.op == K_VALUE then Emitted(OneCode(xc, thunk), s2)
           else
             var (ic, s3) :- CompileE(a.operands.tail.head, s2);
             Emitted(TwoCode(a.op, xc, ic, thunk), s3))
    case Typed(a) => CompileE(a, st)
    case Call(h, args) => CompileHead(h, args, st)
    case Define(args) => CompileHead(K_DEFUN, args, st)
    case Apply(f, args) =>
      var (fc, s1) :- CompileE(f, st);
      var (ba, s2) :- BindArgs(args, s1.Next());
      Emitted(Block(Cons(R.Bind(s1.Fresh(), fc), ba.0), ApplyValue(Read(s1.Fresh()), ba.1)), s2)
    case _ => Rejected(st)
  }

  /** The primitive that takes the fallback of an access as a thunk. */
  function OrName(op: SymId): SymId
  {
    if op == K_VALUE then K_VALUE_OR else if op == K_ADDRESS then K_ADDRESS_OR else K_VECTOR_OR
  }

  function OneCode(xc: RExpr, thunk: RExpr): RExpr
  {
    Block(Cons(R.Bind(FixedX, xc), One(FixedH, thunk)), CallNamed(K_VALUE_OR, [FixedX, FixedH]))
  }

  function TwoCode(op: SymId, xc: RExpr, ic: RExpr, thunk: RExpr): RExpr
  {
    Block(Cons(R.Bind(FixedX, xc), Cons(R.Bind(FixedN, ic), One(FixedH, thunk))),
          CallNamed(OrName(op), [FixedX, FixedN, FixedH]))
  }

  /** `let x (freeze ..)` whose `x` is only thawed: `x` names a local procedure from here on. */
  function EnterProc(st: Cg, x: SymId): Cg
  {
    st.Next().Bind(x).(thaws := st.thaws[x := st.Fresh()])
  }

  function LeaveProc(st: Cg, x: SymId): Cg
  {
    st.Unbind(x).(thaws := st.thaws - {x})
  }

  /** A call whose head is a name; a `defun` below the top level is taken for one. */
  ghost function CompileHead(h: SymId, args: List<Expr>, st: Cg): Emit<RExpr>
    decreases args, 2
  {
    if h in st.scope then
      var (ba, s1) :- BindArgs(args, st);
      Emitted(Block(ba.0, ApplyValue(Read(V(h)), ba.1)), s1)
    else if PrologCall(h, args) then Rejected(st)
    else
      (match Classify(h, args, st.scope)
       case ReadGlobal(x) => Emitted(GlobalGet(x), st)
       case WriteGlobal(x, v) =>
         var (vc, s1) :- CompileE(v, st);
         Emitted(Block(One(FixedV, vc), GlobalSet(x, FixedV)), s1)
       case Compare(p, v) =>
         var (vc, s1) :- CompileE(v, st);
         Emitted(Test(p, vc), s1)
       case Plain => CompileCall(h, args, st))
  }

  ghost function CompileCall(h: SymId, args: List<Expr>, st: Cg): Emit<RExpr>
    decreases args, 1
  {
    var (ba, s1) :- BindArgs(args, st);
    Emitted(Block(ba.0, CallNamed(h, ba.1)), s1)
  }

  ghost function CompileTry(e: Expr, st: Cg): Emit<RExpr>
    requires View(e).Trap?
    decreases e, 0
  {
    var (bc, s1) :- CompileE(View(e).body, st);
    var (hc, s2) :- CompileE(View(e).handler, s1);
    Emitted(Try(bc, hc), s2)
  }

  /** Closures are compiled in a scope of their own: the captured names and the parameter. */
  ghost function CompileClosure(param: Option<SymId>, b: Expr, st: Cg): Emit<RExpr>
    decreases b, 3
  {
    var (bc, s1) :- CompileE(b, Inside(param, b, st));
    var caps := Sorted(Captures(b, st.scope));
    Emitted(Closure(caps, param, bc, caps), s1.(scope := st.scope))
  }

  function Inside(param: Option<SymId>, b: Expr, st: Cg): Cg
  {
    st.(scope := Captures(b, st.scope) + ParamSet(param))
  }

  function ParamSet(param: Option<SymId>): set<SymId>
  {
    if param.Some? then {param.value} else {}
  }

  /** Clauses are compiled last to first, each around the code of those after it. */
  ghost function CompileCond(cs: List<Expr>, st: Cg): Emit<RExpr>
    decreases cs, 1
  {
    match cs
    case Empty => Emitted(Fail, st)
    case Cons(clause, rest) =>
      var (acc, s1) :- CompileCond(rest, st);
      match clause
      case App(Cons(t, Cons(v, Empty))) =>
        var (tc, s2) :- CompileE(t, s1);
        var (vc, s3) :- CompileE(v, s2);
        Emitted(Block(One(s3.Fresh(), tc), IfTrue(s3.Fresh(), vc, acc)), s3.Next())
      case _ => Rejected(s1)
  }

  ghost function CompileDo(es: List<Expr>, st: Cg): Emit<RExpr>
    decreases es, 1
  {
    match es
    case Empty => Emitted(Lit(Nil), st)
    case Cons(e, Empty) => CompileE(e, st)
    case Cons(e, rest) =>
      var (ec, s1) :- CompileE(e, st);
      var (rc, s2) :- CompileDo(rest, s1);
      Emitted(Block(One(Wild, ec), rc), s2)
  }

  /** Each argument in a fresh local; the `let`s and the locals' names. */
  ghost function BindArgs(es: List<Expr>, st: Cg): Emit<(List<R.Bind>, seq<RVar>)>
    decreases es, 0
  {
    match es
    case Empty => Emitted((Empty, []), st)
    case Cons(e, rest) =>
      var (ec, s1) :- CompileE(e, st);
      var (ba, s2) :- BindArgs(rest, s1.Next());
      Emitted((Cons(R.Bind(s1.Fresh(), ec), ba.0), [s1.Fresh()] + ba.1), s2)
  }

  // ---- tail position ----

  ghost function CompileTail(e: Expr, st: Cg): Emit<RStmt>
    decreases e, 5
  {
    if e.App? then CompileTailApp(e, st) else CompileBreak(e, st)
  }

  ghost function CompileTailApp(e: Expr, st: Cg): Emit<RStmt>
    requires e.App?
    decreases e, 4
  {
    match View(e)
    case If(c, t, f) =>
      var (cc, s1) :- CompileE(c, st);
      var (tc, s2) :- CompileTail(t, s1.Next());
      var (fc, s3) :- CompileTail(f, s2);
      Emitted(SBlock(One(s1.Fresh(), cc), SIf(s1.Fresh(), tc, fc)), s3)
    case Let(x, v, b) =>
      if Inlines(x, v, b) then
        var (pc, s1) :- CompileE(View(v).body, st);
        var go := s1.Fresh();
        var (bc, s2) :- CompileTail(b, EnterProc(s1, x));
        Emitted(SLetProc(go, pc, bc), LeaveProc(s2, x))
      else
        var (vc, s1) :- CompileE(v, st);
        var (bc, s2) :- CompileTail(b, s1.Bind(x));
        Emitted(SBlock(One(V(x), vc), bc), s2.Unbind(x))
    case Cond(cs) => CompileTailCond(cs, st)
    case Do(es) => CompileTailDo(es, st)
    case And(a, b) =>
      var (ac, s1) :- CompileE(a, st);
      var (bc, s2) :- CompileTail(b, s1.Next());
      Emitted(SBlock(One(s1.Fresh(), ac), SIf(s1.Fresh(), bc, Break(Lit(Bool(false))))), s2)
    case Or(a, b) =>
      var (ac, s1) :- CompileE(a, st);
      var (bc, s2) :- CompileTail(b, s1.Next());
      Emitted(SBlock(One(s1.Fresh(), ac), SIf(s1.Fresh(), Break(Lit(Bool(true))), bc)), s2)
    case Typed(a) => CompileTail(a, st)
    case _ =>
      if SelfCall(e, st) then
        var (ba, s1) :- BindArgs(e.items.tail, st);
        Emitted(SBlock(ba.0, Continue(Locals(st.params), ba.1)), s1)
      else CompileBreak(e, st)
  }

  /**
   What is taken for a call of the function `self` of `k` parameters. It is looked for before every
   special form but those that have a tail form of their own.
   */
  predicate IsSelf(e: Expr, self: Option<SymId>, k: nat, flat: set<SymId>)
  {
    match e
    case App(Cons(Sym(h), args)) =>
      && self == Some(h) && h !in {K_IF, K_LET, K_COND, K_DO, K_AND, K_OR, K_TYPE}
      && h !in flat && Length(args) == k
    case _ => false
  }

  predicate SelfCall(e: Expr, st: Cg) { IsSelf(e, st.self, |st.params|, st.scope) }

  ghost function CompileBreak(e: Expr, st: Cg): Emit<RStmt>
    decreases e, 3
  {
    var (c, s1) :- CompileE(e, st);
    Emitted(Break(c), s1)
  }

  ghost function CompileTailCond(cs: List<Expr>, st: Cg): Emit<RStmt>
    decreases cs, 1
  {
    match cs
    case Empty => Emitted(BreakErr, st)
    case Cons(clause, rest) =>
      var (acc, s1) :- CompileTailCond(rest, st);
      match clause
      case App(Cons(t, Cons(v, Empty))) =>
        var (tc, s2) :- CompileE(t, s1);
        var (vc, s3) :- CompileTail(v, s2);
        Emitted(SBlock(One(s3.Fresh(), tc), SIf(s3.Fresh(), vc, acc)), s3.Next())
      case _ => Rejected(s1)
  }

  ghost function CompileTailDo(es: List<Expr>, st: Cg): Emit<RStmt>
    decreases es, 1
  {
    match es
    case Empty => Emitted(Break(Lit(Nil)), st)
    case Cons(e, Empty) => CompileTail(e, st)
    case Cons(e, rest) =>
      var (ec, s1) :- CompileE(e, st);
      var (rc, s2) :- CompileTailDo(rest, s1);
      Emitted(SBlock(One(Wild, ec), rc), s2)
  }

  /** A defun: its parameters in scope, its body in tail position. */
  ghost function CompileFn(f: SymId, params: seq<SymId>, body: Expr, counter: nat): Emit<RFn>
  {
    var (s, st) :- CompileTail(body, AtEntry(f, params, counter));
    Emitted(RFn(f, params, s), st)
  }

  function AtEntry(f: SymId, params: seq<SymId>, counter: nat): Cg
  {
    Cg(counter, set x | x in params, map[], Some(f), params)
  }
}
