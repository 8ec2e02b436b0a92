/**
 The code generator as the object it is: a counter and a table of inlined continuations updated in
 place, and the scope that its methods pass along. Each method emits what `Codegen` says it does.
 */
module Compiler {
  import opened Lists
  import opened Kl
  import opened R = RustIr
  import C = Codegen
  import D = Driver

  /** The flat set of the names in scope. */
  class Scope {
    var names: set<SymId>

    constructor (ns: set<SymId>)
      ensures names == ns
    {
      names := ns;
    }

    method Bind(x: SymId)
      modifies this
      ensures names == old(names) + {x}
    {
      names := names + {x};
    }

    method Unbind(x: SymId)
      modifies this
      ensures names == old(names) - {x}
    {
      names := names - {x};
    }
  }

  /** The least name of a set, whichever order the set is walked in. */
  method LeastOf(s: set<SymId>) returns (m: SymId)
    requires s != {}
    ensures m == C.Least(s)
  {
    m :| m in s;
    var rest := s - {m};
    while rest != {}
      invariant m in s && rest <= s && forall k :: k in s && k !in rest ==> m <= k
      decreases |rest|
    {
      var k :| k in rest;
      rest := rest - {k};
      if k < m { m := k; }
    }
  }

  method Sort(s: set<SymId>) returns (xs: seq<SymId>)
    ensures xs == C.Sorted(s)
  {
    xs := [];
    var rest := s;
    while rest != {}
      invariant xs + C.Sorted(rest) == C.Sorted(s)
      decreases |rest|
    {
      var m := LeastOf(rest);
      assert (xs + [m]) + C.Sorted(rest - {m}) == xs + ([m] + C.Sorted(rest - {m}));
      xs, rest := xs + [m], rest - {m};
    }
    assert C.Sorted({}) == [];
  }

  /** The clauses of a `cond` in a sequence, to be walked from the last one. */
  function ToSeq<A>(xs: List<A>): seq<A>
  {
    match xs case Empty => [] case Cons(x, rest) => [x] + ToSeq(rest)
  }

  function FromSeq<A>(xs: seq<A>): List<A>
  {
    if xs == [] then Empty else Cons(xs[0], FromSeq(xs[1..]))
  }

  lemma {:induction false} SeqAndBack<A>(xs: List<A>)
    ensures FromSeq(ToSeq(xs)) == xs
  {
    if xs.Cons? {
      SeqAndBack(xs.tail);
      assert ToSeq(xs)[1..] == ToSeq(xs.tail);
    }
  }

  lemma {:induction false} PartsBelow(xs: List<Expr>, i: nat)
    requires i < |ToSeq(xs)|
    ensures ToSeq(xs)[i] < xs
  {
    if i > 0 { PartsBelow(xs.tail, i - 1); }
  }

  /** Values computed in order and dropped, before the last one. */
  function Chain(codes: seq<RExpr>, last: RExpr): RExpr
  {
    if codes == [] then last else Block(C.One(Wild, codes[0]), Chain(codes[1..], last))
  }

  function ChainTail(codes: seq<RExpr>, last: RStmt): RStmt
  {
    if codes == [] then last else SBlock(C.One(Wild, codes[0]), ChainTail(codes[1..], last))
  }

  lemma {:induction false} ChainOne(codes: seq<RExpr>, c: RExpr, last: RExpr)
    ensures Chain(codes + [c], last) == Chain(codes, Block(C.One(Wild, c), last))
  {
    if codes != [] {
      ChainOne(codes[1..], c, last);
      assert (codes + [c])[1..] == codes[1..] + [c];
    }
  }

  lemma {:induction false} ChainTailOne(codes: seq<RExpr>, c: RExpr, last: RStmt)
    ensures ChainTail(codes + [c], last) == ChainTail(codes, SBlock(C.One(Wild, c), last))
  {
    if codes != [] {
      ChainTailOne(codes[1..], c, last);
      assert (codes + [c])[1..] == codes[1..] + [c];
    }
  }

  lemma {:induction false} BindsNone(all: C.Emit<(List<Bind>, seq<RVar>)>)
    ensures BindsSoFar(all, all, Empty, [])
  {
  }

  lemma {:induction false} BindsStep(
    all: C.Emit<(List<Bind>, seq<RVar>)>, rest: List<Expr>, st: C.Cg, binds: List<Bind>, xs: seq<RVar>)
    requires rest.Cons? && BindsSoFar(all, C.BindArgs(rest, st), binds, xs)
    ensures match C.CompileE(rest.head, st)
            case Rejected(at) => all.Rejected? && all.at == at
            case Emitted(c, s1) =>
              BindsSoFar(all, C.BindArgs(rest.tail, s1.Next()),
                         Append(binds, Cons(R.Bind(s1.Fresh(), c), Empty)), xs + [s1.Fresh()])
  {
    hide C.CompileE;
    var first := C.CompileE(rest.head, st);
    if first.Emitted? {
      var more := C.BindArgs(rest.tail, first.st.Next());
      if more.Emitted? {
        AppendOne(binds, R.Bind(first.st.Fresh(), first.code), more.code.0);
        assert xs + ([first.st.Fresh()] + more.code.1) == (xs + [first.st.Fresh()]) + more.code.1;
      }
    }
  }

  lemma {:induction false} BindsAll(
    all: C.Emit<(List<Bind>, seq<RVar>)>, st: C.Cg, binds: List<Bind>, xs: seq<RVar>)
    requires BindsSoFar(all, C.BindArgs(Empty, st), binds, xs)
    ensures all == C.Emitted((binds, xs), st)
  {
    AppendNone(binds);
    assert xs + [] == xs;
    assert all.code == (all.code.0, all.code.1);
  }

  /** A clause that is rejected, or that follows one, rejects the whole. */
  lemma {:induction false} RejectedClause(clauses: seq<Expr>, i: nat, st: C.Cg)
    requires i < |clauses|
    ensures C.CompileCond(FromSeq(clauses[i..]), st).Rejected? ==>
              C.CompileCond(FromSeq(clauses), st) == C.CompileCond(FromSeq(clauses[i..]), st)
  {
    if i > 0 {
      RejectedClause(clauses[1..], i - 1, st);
      assert clauses[1..][i - 1..] == clauses[i..];
    } else {
      assert clauses[0..] == clauses;
    }
  }

  lemma {:induction false} RejectedTailClause(clauses: seq<Expr>, i: nat, st: C.Cg)
    requires i < |clauses|
    ensures C.CompileTailCond(FromSeq(clauses[i..]), st).Rejected? ==>
              C.CompileTailCond(FromSeq(clauses), st) == C.CompileTailCond(FromSeq(clauses[i..]), st)
  {
    if i > 0 {
      RejectedTailClause(clauses[1..], i - 1, st);
      assert clauses[1..][i - 1..] == clauses[i..];
    } else {
      assert clauses[0..] == clauses;
    }
  }

  /** The whole of the arguments, given those bound so far and the rest. */
  predicate BindsSoFar(
    all: C.Emit<(List<Bind>, seq<RVar>)>, more: C.Emit<(List<Bind>, seq<RVar>)>, binds: List<Bind>, xs: seq<RVar>)
  {
    match more
    case Emitted(c, st) =>
      all.Emitted? && all.code.0 == Append(binds, c.0) && all.code.1 == xs + c.1 && all.st == st
    case Rejected(at) => all.Rejected? && all.at == at
  }

  class Codegen {
    var counter: nat
    var thaws: map<SymId, RVar>
    var self: Option<SymId>
    var params: seq<SymId>

    ghost function State(scope: Scope): C.Cg
      reads this, scope
    {
      C.Cg(counter, scope.names, thaws, self, params)
    }

    /**
     What a method emitted and how it left the state are what its specification says. The scope of a
     rejected form is not looked at again.
     */
    ghost predicate Did<A>(spec: C.Emit<A>, code: Option<A>, scope: Scope)
      reads this, scope
    {
      match spec
      case Emitted(c, st) => code == Some(c) && State(scope) == st
      case Rejected(at) =>
        && code == None && counter == at.counter && thaws == at.thaws && self == at.self && params == at.params
    }

    constructor (first: nat)
      ensures counter == first && thaws == map[] && self == None && params == []
    {
      counter := first;
      thaws := map[];
      self := None;
      params := [];
    }

    method Fresh() returns (x: RVar)
      modifies this`counter
      ensures x == T(old(counter)) && counter == old(counter) + 1
    {
      x := T(counter);
      counter := counter + 1;
    }

    method CompileExpr(e: Expr, scope: Scope) returns (code: Option<RExpr>)
      modifies this, scope
      ensures Did(C.CompileE(e, old(State(scope))), code, scope)
      decreases e, 3
    {
      match e
      case Sym(x) => code := Some(if x in scope.names then Read(V(x)) else Lit(e));
      case App(_) => code := CompileApp(e, scope);
      case _ => code := Some(Lit(e));
    }

    method CompileApp(e: Expr, scope: Scope) returns (code: Option<RExpr>)
      requires e.App?
      modifies this, scope
      ensures Did(C.CompileE(e, old(State(scope))), code, scope)
      decreases e, 2
    {
      ghost var st := State(scope);
      assert C.CompileE(e, st) == C.CompileApp(e, st);
      match View(e)
      case Const(l) => code := Some(Lit(l));
      case If(_, _, _) => code := CompileIf(e, scope);
      case Let(_, _, _) => code := CompileLet(e, scope);
      case Cond(cs) => code := CompileCond(cs, scope);
      case Do(es) => code := CompileDo(es, scope);
      case And(_, _) => code := CompileAnd(e, scope);
      case Or(_, _) => code := CompileOr(e, scope);
      case Lambda(x, b) => code := CompileClosure(Some(x), b, scope);
      case Freeze(b) => code := CompileClosure(None, b, scope);
      case Thaw(_) => code := CompileThaw(e, scope);
      case Trap(_, _) => code := CompileTrap(e, scope);
      case Typed(a) => code := CompileExpr(a, scope);
      case Call(h, args) => code := CompileHead(h, args, scope);
      case Define(args) => code := CompileHead(K_DEFUN, args, scope);
      case Apply(_, _) => code := CompileApply(e, scope);
      case _ => code := None;
    }

    method BindArgs(args: List<Expr>, scope: Scope) returns (code: Option<(List<Bind>, seq<RVar>)>)
      modifies this, scope
      ensures Did(C.BindArgs(args, old(State(scope))), code, scope)
      decreases args, 0
    {
      hide C.CompileE, C.BindArgs, BindsSoFar;
      ghost var all := C.BindArgs(args, State(scope));
      var binds: List<Bind>, xs: seq<RVar> := Empty, [];
      var rest := args;
      BindsNone(all);
      while rest.Cons?
        invariant rest == args || rest < args
        invariant BindsSoFar(all, C.BindArgs(rest, State(scope)), binds, xs)
        decreases rest
      {
        BindsStep(all, rest, State(scope), binds, xs);
        var c := CompileExpr(rest.head, scope);
        if c.None? { return None; }
        var x := Fresh();
        binds, xs := Append(binds, Cons(R.Bind(x, c.value), Empty)), xs + [x];
        rest := rest.tail;
      }
      BindsAll(all, State(scope), binds, xs);
      code := Some((binds, xs));
    }

    method CompileIf(e: Expr, scope: Scope) returns (code: Option<RExpr>)
      requires View(e).If?
      modifies this, scope
      ensures Did(C.CompileE(e, old(State(scope))), code, scope)
      decreases e, 0
    {
      ghost var st := State(scope);
      assert C.CompileE(e, st) == C.CompileApp(e, st);
      var c := CompileExpr(View(e).c, scope);
      if c.None? { return None; }
      var t := CompileExpr(View(e).t, scope);
      if t.None? { return None; }
      var f := CompileExpr(View(e).f, scope);
      if f.None? { return None; }
      var tv := Fresh();
      code := Some(Block(C.One(tv, c.value), IfTrue(tv, t.value, f.value)));
    }

    method CompileAnd(e: Expr, scope: Scope) returns (code: Option<RExpr>)
      requires View(e).And?
      modifies this, scope
      ensures Did(C.CompileE(e, old(State(scope))), code, scope)
      decreases e, 0
    {
      ghost var st := State(scope);
      assert C.CompileE(e, st) == C.CompileApp(e, st);
      var a := CompileExpr(View(e).a, scope);
      if a.None? { return None; }
      var b := CompileExpr(View(e).b, scope);
      if b.None? { return None; }
      var av := Fresh();
      var bv := Fresh();
      code := Some(Block(C.One(av, a.value), IfTrue(av, Block(C.One(bv, b.value), BoolOf(bv)), Lit(Bool(false)))));
    }

    method CompileOr(e: Expr, scope: Scope) returns (code: Option<RExpr>)
      requires View(e).Or?
      modifies this, scope
      ensures Did(C.CompileE(e, old(State(scope))), code, scope)
      decreases e, 0
    {
      ghost var st := State(scope);
      assert C.CompileE(e, st) == C.CompileApp(e, st);
      var a := CompileExpr(View(e).a, scope);
      if a.None? { return None; }
      var b := CompileExpr(View(e).b, scope);
      if b.None? { return None; }
      var av := Fresh();
      var bv := Fresh();
      code := Some(Block(C.One(av, a.value), IfTrue(av, Lit(Bool(true)), Block(C.One(bv, b.value), BoolOf(bv)))));
    }

    method CompileLet(e: Expr, scope: Scope) returns (code: Option<RExpr>)
      requires View(e).Let?
      modifies this, scope
      ensures Did(C.CompileE(e, old(State(scope))), code, scope)
      decreases e, 0
    {
      ghost var st := State(scope);
      assert C.CompileE(e, st) == C.CompileApp(e, st);
      var Let(x, v, b) := View(e);
      if C.Inlines(x, v, b) {
        var p := CompileExpr(View(v).body, scope);
        if p.None? { return None; }
        var go := Fresh();
        scope.Bind(x);
        thaws := thaws[x := go];
        var c := CompileExpr(b, scope);
        if c.None? { return None; }
        scope.Unbind(x);
        thaws := thaws - {x};
        code := Some(LetProc(go, p.value, c.value));
      } else {
        var c := CompileExpr(v, scope);
        if c.None? { return None; }
        scope.Bind(x);
        var d := CompileExpr(b, scope);
        if d.None? { return None; }
        scope.Unbind(x);
        code := Some(Block(C.One(V(x), c.value), d.value));
      }
    }

    method CompileCond(cs: List<Expr>, scope: Scope) returns (code: Option<RExpr>)
      modifies this, scope
      ensures Did(C.CompileCond(cs, old(State(scope))), code, scope)
      decreases cs, 1
    {
      ghost var st := State(scope);
      var clauses := ToSeq(cs);
      SeqAndBack(cs);
      var acc, i := Fail, |clauses|;
      while i > 0
        invariant 0 <= i <= |clauses|
        invariant C.CompileCond(FromSeq(clauses[i..]), st) == C.Emitted(acc, State(scope))
      {
        i := i - 1;
        assert FromSeq(clauses[i..]) == Cons(clauses[i], FromSeq(clauses[i + 1..])) by {
          assert clauses[i..][1..] == clauses[i + 1..];
        }
        RejectedClause(clauses, i, st);
        PartsBelow(cs, i);
        match clauses[i] {
          case App(Cons(t, Cons(v, Empty))) =>
            var tc := CompileExpr(t, scope);
            if tc.None? { return None; }
            var vc := CompileExpr(v, scope);
            if vc.None? { return None; }
            var tv := Fresh();
            acc := Block(C.One(tv, tc.value), IfTrue(tv, vc.value, acc));
          case _ => return None;
        }
      }
      assert clauses[0..] == clauses;
      code := Some(acc);
    }

    method CompileDo(es: List<Expr>, scope: Scope) returns (code: Option<RExpr>)
      modifies this, scope
      ensures Did(C.CompileDo(es, old(State(scope))), code, scope)
      decreases es, 1
    {
      ghost var st := State(scope);
      if es.Empty? { return Some(Lit(Nil)); }
      var codes, rest := [], es;
      while rest.tail.Cons?
        invariant rest.Cons? && (rest == es || rest < es)
        invariant C.CompileDo(es, st) ==
                  match C.CompileDo(rest, State(scope))
                  case Emitted(c, s) => C.Emitted(Chain(codes, c), s)
                  case Rejected(at) => C.Rejected(at)
        decreases rest
      {
        var c := CompileExpr(rest.head, scope);
        if c.None? { return None; }
        forall last { ChainOne(codes, c.value, last); }
        codes, rest := codes + [c.value], rest.tail;
      }
      var last := CompileExpr(rest.head, scope);
      if last.None? { return None; }
      code := Some(Chain(codes, last.value));
    }

    /** Closures are compiled in a scope of their own. */
    method CompileClosure(param: Option<SymId>, b: Expr, scope: Scope) returns (code: Option<RExpr>)
      modifies this, scope
      ensures Did(C.CompileClosure(param, b, old(State(scope))), code, scope)
      decreases b, 4
    {
      var caps := Sort(C.Captures(b, scope.names));
      var inner := new Scope(C.Captures(b, scope.names) + C.ParamSet(param));
      var c := CompileExpr(b, inner);
      code := if c.Some? then Some(Closure(caps, param, c.value, caps)) else None;
    }

    method CompileThaw(e: Expr, scope: Scope) returns (code: Option<RExpr>)
      requires View(e).Thaw?
      modifies this, scope
      ensures Did(C.CompileE(e, old(State(scope))), code, scope)
      decreases e, 0
    {
      ghost var st := State(scope);
      assert C.CompileE(e, st) == C.CompileApp(e, st);
      var a := View(e).arg;
      if a.Sym? && a.id in thaws {
        code := Some(Go(thaws[a.id]));
      } else {
        var f := CompileExpr(a, scope);
        code := if f.Some? then Some(ApplyValue(f.value, [])) else None;
      }
    }

    method CompileTry(e: Expr, scope: Scope) returns (code: Option<RExpr>)
      requires View(e).Trap?
      modifies this, scope
      ensures Did(C.CompileTry(e, old(State(scope))), code, scope)
      decreases e, 0
    {
      var b := CompileExpr(View(e).body, scope);
      if b.None? { return None; }
      var h := CompileExpr(View(e).handler, scope);
      code := if h.Some? then Some(Try(b.value, h.value)) else None;
    }

    method CompileTrap(e: Expr, scope: Scope) returns (code: Option<RExpr>)
      requires View(e).Trap?
      modifies this, scope
      ensures Did(C.CompileE(e, old(State(scope))), code, scope)
      decreases e, 1
    {
      ghost var st := State(scope);
      assert C.CompileE(e, st) == C.CompileApp(e, st);
      match TrappedAccess(View(e).body, View(e).handler)
      case None => code := CompileTry(e, scope);
      case Some(a) =>
        var thunk := CompileClosure(None, a.fallback, scope);
        if thunk.None? { return None; }
        if !Fits(a) {
          code := CompileTry(e, scope);
        } else {
          var xc := CompileExpr(a.operands.head, scope);
          if xc.None? { return None; }
          if a.op == K_VALUE { return Some(C.OneCode(xc.value, thunk.value)); }
          var ic := CompileExpr(a.operands.tail.head, scope);
          if ic.None? { return None; }
          code := Some(C.TwoCode(a.op, xc.value, ic.value, thunk.value));
        }
    }

    method CompileHead(h: SymId, args: List<Expr>, scope: Scope) returns (code: Option<RExpr>)
      modifies this, scope
      ensures Did(C.CompileHead(h, args, old(State(scope))), code, scope)
      decreases args, 1
    {
      ghost var st := State(scope);
      if h in scope.names {
        var ba := BindArgs(args, scope);
        if ba.None? { return None; }
        return Some(Block(ba.value.0, ApplyValue(Read(V(h)), ba.value.1)));
      }
      if C.PrologCall(h, args) { return None; }
      match C.Classify(h, args, scope.names)
      case ReadGlobal(x) => code := Some(GlobalGet(x));
      case WriteGlobal(x, v) =>
        var c := CompileExpr(v, scope);
        code := if c.Some? then Some(Block(C.One(FixedV, c.value), GlobalSet(x, FixedV))) else None;
      case Compare(p, v) =>
        var c := CompileExpr(v, scope);
        code := if c.Some? then Some(Test(p, c.value)) else None;
      case Plain =>
        assert C.CompileHead(h, args, st) == C.CompileCall(h, args, st);
        var ba := BindArgs(args, scope);
        code := if ba.Some? then Some(Block(ba.value.0, CallNamed(h, ba.value.1))) else None;
    }

    method CompileApply(e: Expr, scope: Scope) returns (code: Option<RExpr>)
      requires View(e).Apply?
      modifies this, scope
      ensures Did(C.CompileE(e, old(State(scope))), code, scope)
      decreases e, 0
    {
      ghost var st := State(scope);
      assert C.CompileE(e, st) == C.CompileApp(e, st);
      var f := CompileExpr(View(e).fn, scope);
      if f.None? { return None; }
      var tv := Fresh();
      var ba := BindArgs(View(e).args, scope);
      if ba.None? { return None; }
      code := Some(Block(Cons(R.Bind(tv, f.value), ba.value.0), ApplyValue(Read(tv), ba.value.1)));
    }

    // ---- tail position ----

    method CompileTail(e: Expr, scope: Scope) returns (code: Option<RStmt>)
      modifies this, scope
      ensures Did(C.CompileTail(e, old(State(scope))), code, scope)
      decreases e, 6
    {
      ghost var st := State(scope);
      hide C.CompileE, C.BindArgs, C.CompileTailCond, C.CompileTailDo, C.CompileBreak, C.Inlines;
      assert C.CompileTail(e, st) == if e.App? then C.CompileTailApp(e, st) else C.CompileBreak(e, st);
      match View(e)
      case If(_, _, _) => code := CompileTailIf(e, scope);
      case Let(_, _, _) => code := CompileTailLet(e, scope);
      case Cond(cs) => code := CompileTailCond(cs, scope);
      case Do(es) => code := CompileTailDo(es, scope);
      case And(_, _) => code := CompileTailAnd(e, scope);
      case Or(_, _) => code := CompileTailOr(e, scope);
      case Typed(a) => code := CompileTail(a, scope);
      case _ => code := CompileLastCall(e, scope);
    }

    /** A form without a tail form of its own: a call of the function itself, or a value. */
    method CompileLastCall(e: Expr, scope: Scope) returns (code: Option<RStmt>)
      requires var v := View(e); !(v.If? || v.Let? || v.Cond? || v.Do? || v.And? || v.Or? || v.Typed?)
      modifies this, scope
      ensures Did(C.CompileTail(e, old(State(scope))), code, scope)
      decreases e, 5
    {
      hide C.CompileE, C.BindArgs, C.CompileTailCond, C.CompileTailDo, C.CompileBreak, C.Inlines;
      ghost var st := State(scope);
      assert C.CompileTail(e, st) == if e.App? then C.CompileTailApp(e, st) else C.CompileBreak(e, st);
      if C.SelfCall(e, C.Cg(counter, scope.names, thaws, self, params)) {
        code := CompileSelfTailCall(e.items.tail, scope);
      } else {
        code := CompileBreak(e, scope);
      }
    }

    method CompileBreak(e: Expr, scope: Scope) returns (code: Option<RStmt>)
      modifies this, scope
      ensures Did(C.CompileBreak(e, old(State(scope))), code, scope)
      decreases e, 4
    {
      var c := CompileExpr(e, scope);
      code := if c.Some? then Some(Break(c.value)) else None;
    }

    /** Every parameter assigned from its argument's local, then round the loop. */
    method CompileSelfTailCall(args: List<Expr>, scope: Scope) returns (code: Option<RStmt>)
      requires C.Length(args) == |params|
      modifies this, scope
      ensures var spec := C.BindArgs(args, old(State(scope)));
              Did(match spec
                  case Emitted(ba, st) => C.Emitted(SBlock(ba.0, Continue(Locals(old(params)), ba.1)), st)
                  case Rejected(at) => C.Rejected(at), code, scope)
      decreases args, 1
    {
      var dst := Locals(params);
      var ba := BindArgs(args, scope);
      code := if ba.Some? then Some(SBlock(ba.value.0, Continue(dst, ba.value.1))) else None;
    }

    method CompileTailIf(e: Expr, scope: Scope) returns (code: Option<RStmt>)
      requires View(e).If?
      modifies this, scope
      ensures Did(C.CompileTail(e, old(State(scope))), code, scope)
      decreases e, 0
    {
      ghost var st := State(scope);
      assert C.CompileTail(e, st) == C.CompileTailApp(e, st);
      var c := CompileExpr(View(e).c, scope);
      if c.None? { return None; }
      var tv := Fresh();
      var t := CompileTail(View(e).t, scope);
      if t.None? { return None; }
      var f := CompileTail(View(e).f, scope);
      if f.None? { return None; }
      code := Some(SBlock(C.One(tv, c.value), SIf(tv, t.value, f.value)));
    }

    method CompileTailAnd(e: Expr, scope: Scope) returns (code: Option<RStmt>)
      requires View(e).And?
      modifies this, scope
      ensures Did(C.CompileTail(e, old(State(scope))), code, scope)
      decreases e, 0
    {
      ghost var st := State(scope);
      assert C.CompileTail(e, st) == C.CompileTailApp(e, st);
      var a := CompileExpr(View(e).a, scope);
      if a.None? { return None; }
      var av := Fresh();
      var b := CompileTail(View(e).b, scope);
      if b.None? { return None; }
      code := Some(SBlock(C.One(av, a.value), SIf(av, b.value, Break(Lit(Bool(false))))));
    }

    method CompileTailOr(e: Expr, scope: Scope) returns (code: Option<RStmt>)
      requires View(e).Or?
      modifies this, scope
      ensures Did(C.CompileTail(e, old(State(scope))), code, scope)
      decreases e, 0
    {
      ghost var st := State(scope);
      assert C.CompileTail(e, st) == C.CompileTailApp(e, st);
      var a := CompileExpr(View(e).a, scope);
      if a.None? { return None; }
      var av := Fresh();
      var b := CompileTail(View(e).b, scope);
      if b.None? { return None; }
      code := Some(SBlock(C.One(av, a.value), SIf(av, Break(Lit(Bool(true))), b.value)));
    }

    method CompileTailLet(e: Expr, scope: Scope) returns (code: Option<RStmt>)
      requires View(e).Let?
      modifies this, scope
      ensures Did(C.CompileTail(e, old(State(scope))), code, scope)
      decreases e, 0
    {
      ghost var st := State(scope);
      assert C.CompileTail(e, st) == C.CompileTailApp(e, st);
      var Let(x, v, b) := View(e);
      if C.Inlines(x, v, b) {
        var p := CompileExpr(View(v).body, scope);
        if p.None? { return None; }
        var go := Fresh();
        scope.Bind(x);
        thaws := thaws[x := go];
        var c := CompileTail(b, scope);
        if c.None? { return None; }
        scope.Unbind(x);
        thaws := thaws - {x};
        code := Some(SLetProc(go, p.value, c.value));
      } else {
        var c := CompileExpr(v, scope);
        if c.None? { return None; }
        scope.Bind(x);
        var d := CompileTail(b, scope);
        if d.None? { return None; }
        scope.Unbind(x);
        code := Some(SBlock(C.One(V(x), c.value), d.value));
      }
    }

    method CompileTailCond(cs: List<Expr>, scope: Scope) returns (code: Option<RStmt>)
      modifies this, scope
      ensures Did(C.CompileTailCond(cs, old(State(scope))), code, scope)
      decreases cs, 1
    {
      ghost var st := State(scope);
      var clauses := ToSeq(cs);
      SeqAndBack(cs);
      var acc, i := BreakErr, |clauses|;
      while i > 0
        invariant 0 <= i <= |clauses|
        invariant C.CompileTailCond(FromSeq(clauses[i..]), st) == C.Emitted(acc, State(scope))
      {
        i := i - 1;
        assert FromSeq(clauses[i..]) == Cons(clauses[i], FromSeq(clauses[i + 1..])) by {
          assert clauses[i..][1..] == clauses[i + 1..];
        }
        RejectedTailClause(clauses, i, st);
        PartsBelow(cs, i);
        match clauses[i] {
          case App(Cons(t, Cons(v, Empty))) =>
            var tc := CompileExpr(t, scope);
            if tc.None? { return None; }
            var vc := CompileTail(v, scope);
            if vc.None? { return None; }
            var tv := Fresh();
            acc := SBlock(C.One(tv, tc.value), SIf(tv, vc.value, acc));
          case _ => return None;
        }
      }
      assert clauses[0..] == clauses;
      code := Some(acc);
    }

    method CompileTailDo(es: List<Expr>, scope: Scope) returns (code: Option<RStmt>)
      modifies this, scope
      ensures Did(C.CompileTailDo(es, old(State(scope))), code, scope)
      decreases es, 1
    {
      ghost var st := State(scope);
      if es.Empty? { return Some(Break(Lit(Nil))); }
      var codes, rest := [], es;
      while rest.tail.Cons?
        invariant rest.Cons? && (rest == es || rest < es)
        invariant C.CompileTailDo(es, st) ==
                  match C.CompileTailDo(rest, State(scope))
                  case Emitted(c, s) => C.Emitted(ChainTail(codes, c), s)
                  case Rejected(at) => C.Rejected(at)
        decreases rest
      {
        var c := CompileExpr(rest.head, scope);
        if c.None? { return None; }
        forall last { ChainTailOne(codes, c.value, last); }
        codes, rest := codes + [c.value], rest.tail;
      }
      var last := CompileTail(rest.head, scope);
      if last.None? { return None; }
      code := Some(ChainTail(codes, last.value));
    }

    /** What the generator keeps from one top-level form to the next. */
    ghost function Kept(): C.Cg
      reads this
    {
      C.Cg(counter, {}, thaws, None, [])
    }

    /**
     A top-level form: a fresh scope with the parameters, the body in tail position. A rejected one
     leaves the generator as it was at that point, continuations included.
     */
    method CompileTop(form: Expr) returns (code: Option<RFn>)
      modifies this
      ensures match D.CompileTop(form, old(Kept()))
              case Emitted(fn, st) => code == Some(fn) && Kept() == st
              case Rejected(at) => code == None && Kept() == at
    {
      var top := D.TopOf(form);
      if top.None? { return None; }
      var f, ps, body := top.value.name, top.value.params, top.value.body;
      var scope := new Scope({});
      var i := 0;
      while i < |ps|
        invariant 0 <= i <= |ps| && fresh(scope) && scope.names == set x | x in ps[..i]
        invariant Kept() == old(Kept())
      {
        scope.Bind(ps[i]);
        assert ps[..i + 1] == ps[..i] + [ps[i]];
        i := i + 1;
      }
      assert ps[..|ps|] == ps;
      self, params := Some(f), ps;
      assert State(scope) == D.Entering(top.value, old(Kept()));
      var s := CompileTail(body, scope);
      if s.None? { return None; }
      self, params := None, [];
      code := Some(RFn(f, ps, s.value));
    }
  }

  predicate LastUntil(last: map<SymId, nat>, forms: seq<Expr>, k: nat)
    requires k <= |forms|
  {
    && (forall f :: f in last ==>
          && last[f] < k && D.DefunName(forms[last[f]]) == Some(f)
          && forall j :: last[f] < j < k ==> D.DefunName(forms[j]) != Some(f))
    && forall j :: 0 <= j < k && D.DefunName(forms[j]).Some? ==> D.DefunName(forms[j]).value in last
  }

  /** The last definition of each name. */
  method LastIndex(forms: seq<Expr>) returns (last: map<SymId, nat>)
    ensures LastUntil(last, forms, |forms|)
  {
    last := map[];
    for i := 0 to |forms|
      invariant LastUntil(last, forms, i)
    {
      var f := D.DefunName(forms[i]);
      if f.Some? { last := last[f.value := i]; }
    }
  }

  method IsWanted(forms: seq<Expr>, i: nat, last: map<SymId, nat>, skip: D.SkipPolicy) returns (yes: bool)
    requires i < |forms| && LastUntil(last, forms, |forms|)
    ensures yes == D.Wanted(forms, i, skip)
  {
    var f := D.DefunName(forms[i]);
    if f.None? { return true; }
    assert D.IsLast(forms, i) <==> last[f.value] == i;
    if last[f.value] != i || f.value in skip.names { return false; }
    yes := skip.budget.Some? ==> D.BodySize(forms[i]) <= skip.budget.value;
  }

  /** A whole file, in its order: one generator for all of its forms, whatever is rejected. */
  method CompileKl(forms: seq<Expr>, skip: D.SkipPolicy) returns (fns: seq<RFn>)
    ensures fns == D.CompileForms(forms, 0, skip, D.Start())
  {
    var last := LastIndex(forms);
    var g := new Codegen(0);
    fns := [];
    for i := 0 to |forms|
      invariant fresh(g)
      invariant D.CompileForms(forms, 0, skip, D.Start()) == fns + D.CompileForms(forms, i, skip, g.Kept())
    {
      var wanted := IsWanted(forms, i, last, skip);
      if wanted {
        ghost var st := g.Kept();
        var fn := g.CompileTop(forms[i]);
        if fn.Some? {
          assert D.CompileForms(forms, i, skip, st) == [fn.value] + D.CompileForms(forms, i + 1, skip, g.Kept());
          fns := fns + [fn.value];
        }
      }
    }
  }
}
