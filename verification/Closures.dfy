/**
 What a compiled closure captures: a Rust `move` closure takes every local that its body reads, and
 the collector is shown a list of values beside it. The two have to go together.
 */
module Closures {
  import opened Lists
  import opened Kl
  import opened Machine
  import R = RustIr
  import opened RustRun
  import opened Codegen
  import opened CodegenState
  import opened Simulation
  import opened SimSteps

  // ---- the order of the captures ----

  predicate Increasing(xs: seq<SymId>)
  {
    forall i, j :: 0 <= i < j < |xs| ==> xs[i] < xs[j]
  }

  lemma {:induction false} SortedIncreases(s: set<SymId>)
    ensures Increasing(Sorted(s)) && |Sorted(s)| == |s|
    decreases s
  {
    if s != {} {
      var m := Least(s);
      SortedIncreases(s - {m});
      PrependLess(m, Sorted(s - {m}), s - {m});
    }
  }

  lemma {:induction false} PrependLess(m: SymId, xs: seq<SymId>, s: set<SymId>)
    requires Increasing(xs) && (forall x :: x in xs <==> x in s) && forall x :: x in s ==> m < x
    ensures Increasing([m] + xs)
  {
    forall i, j | 0 <= i < j < |xs| + 1 ensures ([m] + xs)[i] < ([m] + xs)[j] {
      assert xs[j - 1] in s;
    }
  }

  /** The capture list is the only increasing list of the captured names, however a set is walked. */
  lemma {:induction false} CaptureOrder(s: set<SymId>, xs: seq<SymId>)
    requires Increasing(xs) && (forall x :: x in xs <==> x in s)
    ensures xs == Sorted(s)
  {
    SortedIncreases(s);
    SameIncreasing(xs, Sorted(s));
  }

  /** The captured names are those in scope that the body mentions, as told by the check on continuations. */
  lemma {:induction false} CapturedIff(param: Option<SymId>, b: Expr, st: Cg)
    requires CompileClosure(param, b, st).Emitted?
    ensures var c := CompileClosure(param, b, st).code;
            && c.Closure? && c.param == param && c.caps == c.shadow && Increasing(c.caps)
            && forall x :: x in c.caps <==> x in st.scope && !OnlyThawed(x, b, true)
  {
    hide CompileE, OnlyThawed;
    var c := CompileClosure(param, b, st).code;
    SortedIncreases(Captures(b, st.scope));
    forall x ensures x in c.caps <==> x in st.scope && !OnlyThawed(x, b, true) { EscapingIsAbsent(x, b); }
  }

  lemma {:induction false} SameIncreasing(xs: seq<SymId>, ys: seq<SymId>)
    requires Increasing(xs) && Increasing(ys) && forall x :: x in xs <==> x in ys
    ensures xs == ys
  {
    assert xs == [] <==> ys == [] by {
      if xs != [] { assert xs[0] in ys; }
      if ys != [] { assert ys[0] in xs; }
    }
    if xs != [] {
      assert xs[0] in ys && ys[0] in xs;
      assert xs[0] == ys[0];
      forall x ensures x in xs[1..] <==> x in ys[1..] {
        if x in xs[1..] { assert x in xs && x != xs[0]; }
        if x in ys[1..] { assert x in ys && x != ys[0]; }
      }
      SameIncreasing(xs[1..], ys[1..]);
    }
  }

  // ---- the locals that code reads ----

  function AllOf(xs: seq<R.RVar>): set<R.RVar>
  {
    set x | x in xs
  }

  /** The locals that `c` reads and does not bind itself. */
  function Reads(c: R.RExpr): set<R.RVar>
    decreases c
  {
    match c
    case Lit(_) => {}
    case Read(x) => {x}
    case Block(bs, body) => ReadsOver(bs, Reads(body))
    case IfTrue(t, a, b) => {t} + Reads(a) + Reads(b)
    case BoolOf(t) => {t}
    case Fail => {}
    case CallNamed(_, xs) => AllOf(xs)
    case ApplyValue(f, xs) => Reads(f) + AllOf(xs)
    case Closure(caps, param, body, shadow) =>
      AllOf(R.Locals(caps)) + AllOf(R.Locals(shadow)) + (Reads(body) - Param(param) - AllOf(R.Locals(caps)))
    case Try(b, h) => Reads(b) + Reads(h)
    case LetProc(go, code, body) => Reads(code) + (Reads(body) - {go})
    case Go(go) => {go}
    case Test(_, e) => Reads(e)
    case GlobalGet(_) => {}
    case GlobalSet(_, x) => {x}
  }

  /** The locals that a block reads whose last expression reads `inner`. */
  function ReadsOver(bs: List<R.Bind>, inner: set<R.RVar>): set<R.RVar>
    decreases bs
  {
    match bs
    case Empty => inner
    case Cons(Bind(x, e), rest) => Reads(e) + (ReadsOver(rest, inner) - {x})
  }

  function Param(param: Option<SymId>): set<R.RVar>
  {
    if param.Some? then {R.V(param.value)} else {}
  }

  /** The local of a name in scope among `ns`, or the procedure of a continuation among them. */
  ghost predicate Known(v: R.RVar, ns: set<SymId>, st: Cg)
  {
    || (v.V? && v.id in ns && v.id in st.scope && v.id !in st.thaws)
    || exists g :: g in ns && g in st.thaws && st.thaws[g] == v
  }

  ghost predicate AllKnown(vs: set<R.RVar>, ns: set<SymId>, st: Cg)
  {
    forall v :: v in vs ==> Known(v, ns, st)
  }

  lemma {:induction false} KnownLater(vs: set<R.RVar>, ns: set<SymId>, ns': set<SymId>, st: Cg, st': Cg)
    requires AllKnown(vs, ns, st') && ns <= ns' && Steady(st, st')
    ensures AllKnown(vs, ns', st)
  {
  }

  /** Code reads the locals of the names that its source mentions, and no others. */
  lemma {:induction false} ReadsE(e: Expr, lex: set<SymId>, st: Cg)
    requires Wf(e, lex, st.scope, st.thaws.Keys) && Safe(e, st.thaws.Keys) && CompileE(e, st).Emitted?
    ensures AllKnown(Reads(CompileE(e, st).code), Names(e), st)
    decreases e, 2
  {
    hide BindArgs, CompileCond, CompileDo, CompileClosure, CompileTry, CompileHead, Inlines;
    PartsAreSafe(e, st.thaws.Keys);
    PartNames(e);
    match View(e)
    case Var(x) => forall g | g in st.thaws ensures g != x { assert ThawedWithin(View(e), g); }
    case If(_, _, _) => ReadsIf(e, lex, st);
    case Let(_, _, _) => ReadsLet(e, lex, st);
    case Cond(cs) =>
      assert CompileE(e, st) == CompileApp(e, st);
      ReadsCond(cs, lex, st);
      KnownLater(Reads(CompileE(e, st).code), NamesOf(cs), Names(e), st, st);
    case Do(es) =>
      assert CompileE(e, st) == CompileApp(e, st);
      ReadsDo(es, lex, st);
      KnownLater(Reads(CompileE(e, st).code), NamesOf(es), Names(e), st, st);
    case And(_, _) => ReadsConnective(e, lex, st);
    case Or(_, _) => ReadsConnective(e, lex, st);
    case Lambda(x, b) => ReadsMake(Some(x), e, b, lex, st);
    case Freeze(b) => ReadsMake(None, e, b, lex, st);
    case Thaw(_) => ReadsThaw(e, lex, st);
    case Trap(_, _) => ReadsTrap(e, lex, st);
    case Typed(a) =>
      assert CompileE(e, st) == CompileApp(e, st);
      ReadsE(a, lex, st);
      KnownLater(Reads(CompileE(e, st).code), Names(a), Names(e), st, st);
    case Call(h, args) =>
      assert CompileE(e, st) == CompileApp(e, st);
      forall g | g in st.thaws ensures g != h { assert ThawedWithin(View(e), g); }
      ReadsHead(h, args, Names(e), lex, st);
    case Apply(_, _) => ReadsApply(e, lex, st);
    case _ =>
  }

  lemma {:induction false} ReadsThaw(e: Expr, lex: set<SymId>, st: Cg)
    requires View(e).Thaw? && Wf(e, lex, st.scope, st.thaws.Keys)
    requires Safe(e, st.thaws.Keys) && CompileE(e, st).Emitted?
    ensures AllKnown(Reads(CompileE(e, st).code), Names(e), st)
    decreases e, 0
  {
    PartsAreSafe(e, st.thaws.Keys);
    PartNames(e);
    assert CompileE(e, st) == CompileApp(e, st);
    var a := View(e).arg;
    if a.Sym? && a.id in st.thaws {
      assert a.id in Names(a);
    } else {
      forall g | g in st.thaws.Keys ensures OnlyThawed(g, a, false) { assert ThawedWithin(View(e), g); }
      ReadsE(a, lex, st);
      KnownLater(Reads(CompileE(a, st).code), Names(a), Names(e), st, st);
    }
  }

  lemma {:induction false} ReadsIf(e: Expr, lex: set<SymId>, st: Cg)
    requires View(e).If? && Wf(e, lex, st.scope, st.thaws.Keys)
    requires Safe(e, st.thaws.Keys) && CompileE(e, st).Emitted?
    ensures AllKnown(Reads(CompileE(e, st).code), Names(e), st)
    decreases e, 0
  {
    hide Known;
    PartsAreSafe(e, st.thaws.Keys);
    PartNames(e);
    assert CompileE(e, st) == CompileApp(e, st);
    var If(c, t, f) := View(e);
    var test := CompileE(c, st);
    var thn := CompileE(t, test.st);
    var els := CompileE(f, thn.st);
    SteadyE(c, st);
    SteadyE(t, test.st);
    ReadsE(c, lex, st);
    ReadsE(t, lex, test.st);
    ReadsE(f, lex, thn.st);
    KnownLater(Reads(test.code), Names(c), Names(e), st, st);
    KnownLater(Reads(thn.code), Names(t), Names(e), st, test.st);
    KnownLater(Reads(els.code), Names(f), Names(e), st, thn.st);
    ReadsOne(els.st.Fresh(), test.code, R.IfTrue(els.st.Fresh(), thn.code, els.code));
  }

  lemma {:induction false} ReadsOne(x: R.RVar, c: R.RExpr, body: R.RExpr)
    ensures Reads(R.Block(One(x, c), body)) == Reads(c) + (Reads(body) - {x})
  {
    assert ReadsOver(One(x, c), Reads(body)) == Reads(c) + (ReadsOver(Empty, Reads(body)) - {x});
  }

  lemma {:induction false} ReadsConnective(e: Expr, lex: set<SymId>, st: Cg)
    requires (View(e).And? || View(e).Or?) && Wf(e, lex, st.scope, st.thaws.Keys)
    requires Safe(e, st.thaws.Keys) && CompileE(e, st).Emitted?
    ensures AllKnown(Reads(CompileE(e, st).code), Names(e), st)
    decreases e, 0
  {
    hide Known;
    PartsAreSafe(e, st.thaws.Keys);
    PartNames(e);
    assert CompileE(e, st) == CompileApp(e, st);
    var a, b := View(e).a, View(e).b;
    var first := CompileE(a, st);
    var second := CompileE(b, first.st);
    SteadyE(a, st);
    ReadsE(a, lex, st);
    ReadsE(b, lex, first.st);
    KnownLater(Reads(first.code), Names(a), Names(e), st, st);
    KnownLater(Reads(second.code), Names(b), Names(e), st, first.st);
    var av, bv := second.st.Fresh(), second.st.Next().Fresh();
    var strict := R.Block(One(bv, second.code), R.BoolOf(bv));
    ReadsOne(bv, second.code, R.BoolOf(bv));
    if View(e).And? {
      ReadsOne(av, first.code, R.IfTrue(av, strict, R.Lit(Bool(false))));
    } else {
      ReadsOne(av, first.code, R.IfTrue(av, R.Lit(Bool(true)), strict));
    }
  }

  lemma {:induction false} ReadsLet(e: Expr, lex: set<SymId>, st: Cg)
    requires View(e).Let? && Wf(e, lex, st.scope, st.thaws.Keys)
    requires Safe(e, st.thaws.Keys) && CompileE(e, st).Emitted?
    ensures AllKnown(Reads(CompileE(e, st).code), Names(e), st)
    decreases e, 0
  {
    ProcIsSafe(e, st.thaws.Keys);
    PartNames(e);
    assert CompileE(e, st) == CompileApp(e, st);
    var Let(x, v, b) := View(e);
    if Inlines(x, v, b) {
      var pb := View(v).body;
      var proc := CompileE(pb, st);
      SteadyE(pb, st);
      ReadsE(pb, lex, st);
      KnownLater(Reads(proc.code), Names(pb), Names(e), st, st);
      var s2 := EnterProc(proc.st, x);
      assert s2.thaws.Keys == st.thaws.Keys + {x};
      ReadsE(b, lex + {x}, s2);
      InProc(Reads(CompileE(b, s2).code), Names(b), Names(e), st, proc.st, x);
    } else {
      var bound := CompileE(v, st);
      SteadyE(v, st);
      ReadsE(v, lex, st);
      KnownLater(Reads(bound.code), Names(v), Names(e), st, st);
      ReadsE(b, lex + {x}, bound.st.Bind(x));
      ReadsOne(R.V(x), bound.code, CompileE(b, bound.st.Bind(x)).code);
    }
  }

  /** What the body of an inlined `let` reads besides the procedure itself. */
  lemma {:induction false} InProc(vs: set<R.RVar>, ns: set<SymId>, ns': set<SymId>, st: Cg, s1: Cg, x: SymId)
    requires AllKnown(vs, ns, EnterProc(s1, x)) && ns <= ns' && Steady(st, s1) && x !in st.thaws
    ensures AllKnown(vs - {s1.Fresh()}, ns', st)
  {
    forall v | v in vs - {s1.Fresh()} ensures Known(v, ns', st) {
      assert Known(v, ns, EnterProc(s1, x));
    }
  }

  lemma {:induction false} KnownName(x: SymId, ns: set<SymId>, st: Cg)
    requires x in ns && x in st.scope && x !in st.thaws
    ensures Known(R.V(x), ns, st)
  {
  }

  lemma {:induction false} ReadsHead(h: SymId, args: List<Expr>, ns: set<SymId>, lex: set<SymId>, st: Cg)
    requires WfAll(args, lex, st.scope, st.thaws.Keys)
    requires SafeIn(args, st.thaws.Keys) && h !in st.thaws && h in ns && NamesOf(args) <= ns
    requires CompileHead(h, args, st).Emitted?
    ensures AllKnown(Reads(CompileHead(h, args, st).code), ns, st)
    decreases args, 2
  {
    hide Known, Wf, Flow, OnlyThawedIn;
    var short := Classify(h, args, st.scope);
    ShortcutParts(h, args, st.scope, st.thaws.Keys);
    if h in st.scope {
      var binds := BindArgs(args, st).code;
      KnownName(h, ns, st);
      ReadsArgs(args, ns, lex, st, AllOf(binds.1) + {R.V(h)});
      assert Reads(R.ApplyValue(R.Read(R.V(h)), binds.1)) == AllOf(binds.1) + {R.V(h)};
    } else if short.Plain? {
      assert CompileHead(h, args, st) == CompileCall(h, args, st);
      var binds := BindArgs(args, st).code;
      ReadsArgs(args, ns, lex, st, AllOf(binds.1));
    } else if !short.ReadGlobal? {
      ShortWf(h, args, lex, st.scope, st.thaws.Keys);
      ReadsE(short.v, lex, st);
      var c := CompileE(short.v, st).code;
      KnownLater(Reads(c), Names(short.v), ns, st, st);
      ReadsOne(R.FixedV, c, R.GlobalSet(if short.WriteGlobal? then short.x else 0, R.FixedV));
    }
  }

  lemma {:induction false} ShortWf(h: SymId, args: List<Expr>, lex: set<SymId>, flat: set<SymId>, conts: set<SymId>)
    requires WfAll(args, lex, flat, conts)
    ensures var r := Classify(h, args, flat); r.WriteGlobal? || r.Compare? ==> Wf(r.v, lex, flat, conts)
  {
    var r := Classify(h, args, flat);
    if r.WriteGlobal? || r.Compare? {
      var a := args.head;
      assert WfAll(args.tail, lex, Flow(a, flat), conts);
      if r.WriteGlobal? || ProbeFor(a, flat).Some? { LiteralFlow(a, flat); }
    }
  }

  lemma {:induction false} ReadsApply(e: Expr, lex: set<SymId>, st: Cg)
    requires View(e).Apply? && Wf(e, lex, st.scope, st.thaws.Keys)
    requires Safe(e, st.thaws.Keys) && CompileE(e, st).Emitted?
    ensures AllKnown(Reads(CompileE(e, st).code), Names(e), st)
    decreases e, 0
  {
    hide Known;
    PartsAreSafe(e, st.thaws.Keys);
    PartNames(e);
    assert CompileE(e, st) == CompileApp(e, st);
    var Apply(f, args) := View(e);
    var op := CompileE(f, st);
    SteadyE(f, st);
    ReadsE(f, lex, st);
    KnownLater(Reads(op.code), Names(f), Names(e), st, st);
    var s1 := op.st.Next();
    var x := op.st.Fresh();
    var binds := BindArgs(args, s1).code;
    ReadsTemps(args, Names(e), lex, s1, {x}, AllOf(binds.1) + {x});
    KnownLater(ReadsOver(binds.0, AllOf(binds.1) + {x}) - {x}, Names(e), Names(e), st, s1);
    assert Reads(R.ApplyValue(R.Read(x), binds.1)) == AllOf(binds.1) + {x};
  }

  lemma {:induction false} ReadsArgs(
    es: List<Expr>, ns: set<SymId>, lex: set<SymId>, st: Cg, inner: set<R.RVar>)
    requires WfAll(es, lex, st.scope, st.thaws.Keys)
    requires SafeIn(es, st.thaws.Keys) && NamesOf(es) <= ns && BindArgs(es, st).Emitted?
    requires AllKnown(inner - AllOf(BindArgs(es, st).code.1), ns, st)
    ensures AllKnown(ReadsOver(BindArgs(es, st).code.0, inner), ns, st)
    decreases es, 1
  {
    hide Known, BindArgs;
    var extra := inner - AllOf(BindArgs(es, st).code.1);
    ReadsTemps(es, ns, lex, st, extra, inner);
    assert ReadsOver(BindArgs(es, st).code.0, inner) <= (ReadsOver(BindArgs(es, st).code.0, inner) - extra) + extra;
  }

  /** Arguments are bound before they are read; `extra` are read besides them. */
  lemma {:induction false} ReadsTemps(
    es: List<Expr>, ns: set<SymId>, lex: set<SymId>, st: Cg, extra: set<R.RVar>, inner: set<R.RVar>)
    requires WfAll(es, lex, st.scope, st.thaws.Keys)
    requires SafeIn(es, st.thaws.Keys) && NamesOf(es) <= ns && BindArgs(es, st).Emitted?
    requires inner <= AllOf(BindArgs(es, st).code.1) + extra
    ensures AllKnown(ReadsOver(BindArgs(es, st).code.0, inner) - extra, ns, st)
    decreases es, 0
  {
    hide Known;
    if es.Cons? {
      var first := CompileE(es.head, st);
      SteadyE(es.head, st);
      ReadsE(es.head, lex, st);
      KnownLater(Reads(first.code), Names(es.head), ns, st, st);
      var x := first.st.Fresh();
      var others := BindArgs(es.tail, first.st.Next()).code;
      assert BindArgs(es, st).code.1 == [x] + others.1;
      assert inner <= AllOf(others.1) + (extra + {x});
      ReadsTemps(es.tail, ns, lex, first.st.Next(), extra + {x}, inner);
      KnownLater(ReadsOver(others.0, inner) - (extra + {x}), ns, ns, st, first.st.Next());
    }
  }

  lemma {:induction false} ReadsMake(param: Option<SymId>, e: Expr, b: Expr, lex: set<SymId>, st: Cg)
    requires View(e) == (if param.Some? then Lambda(param.value, b) else Freeze(b)) && b < e
    requires Wf(e, lex, st.scope, st.thaws.Keys) && Safe(e, st.thaws.Keys) && CompileE(e, st).Emitted?
    ensures AllKnown(Reads(CompileE(e, st).code), Names(e), st)
    decreases e, 0
  {
    PartsAreSafe(e, st.thaws.Keys);
    PartNames(e);
    forall g | g in st.thaws ensures g !in Names(b) { assert ThawedWithin(View(e), g); }
    assert CompileE(e, st) == CompileApp(e, st);
    assert Captures(b, st.scope) + {} == Captures(b, st.scope);
    ReadsClosure(param, b, if param.Some? then lex + {param.value} else lex, st);
    KnownLater(Reads(CompileE(e, st).code), Names(b), Names(e), st, st);
  }

  /** The body of a closure reads its parameter and the captured names: nothing else is moved into it. */
  lemma {:induction false} BodyReads(param: Option<SymId>, b: Expr, lex: set<SymId>, st: Cg)
    requires Wf(b, lex, Inside(param, b, st).scope, st.thaws.Keys)
    requires Names(b) !! st.thaws.Keys && CompileClosure(param, b, st).Emitted?
    ensures Reads(CompileE(b, Inside(param, b, st)).code)
         <= AllOf(R.Locals(Sorted(Captures(b, st.scope)))) + Param(param)
    decreases b, 3
  {
    AbsentIsSafe(b, st.thaws.Keys);
    ReadsE(b, lex, Inside(param, b, st));
    var caps := Sorted(Captures(b, st.scope));
    forall v | v in Reads(CompileE(b, Inside(param, b, st)).code) && v !in Param(param)
      ensures v in AllOf(R.Locals(caps))
    {
      assert Known(v, Names(b), Inside(param, b, st));
      assert v.id in Captures(b, st.scope) && v.id in caps;
      InLocals(v.id, caps);
    }
  }

  lemma {:induction false} InLocals(x: SymId, xs: seq<SymId>)
    ensures x in xs <==> R.V(x) in R.Locals(xs)
  {
    if x in xs {
      var i :| 0 <= i < |xs| && xs[i] == x;
      assert R.Locals(xs)[i] == R.V(x);
    }
  }

  lemma {:induction false} ReadsClosure(param: Option<SymId>, b: Expr, lex: set<SymId>, st: Cg)
    requires Wf(b, lex, Inside(param, b, st).scope, st.thaws.Keys)
    requires Names(b) !! st.thaws.Keys && CompileClosure(param, b, st).Emitted?
    ensures AllKnown(Reads(CompileClosure(param, b, st).code), Names(b), st)
    decreases b, 4
  {
    BodyReads(param, b, lex, st);
    var caps := Sorted(Captures(b, st.scope));
    forall v | v in Reads(CompileClosure(param, b, st).code) ensures Known(v, Names(b), st) {
      assert v in R.Locals(caps);
      InLocals(v.id, caps);
      assert v.id in Captures(b, st.scope);
    }
  }

  lemma {:induction false} ReadsTrap(e: Expr, lex: set<SymId>, st: Cg)
    requires View(e).Trap? && Wf(e, lex, st.scope, st.thaws.Keys)
    requires Safe(e, st.thaws.Keys) && CompileE(e, st).Emitted?
    ensures AllKnown(Reads(CompileE(e, st).code), Names(e), st)
    decreases e, 1
  {
    hide CompileTry, CompileClosure;
    PartsAreSafe(e, st.thaws.Keys);
    PartNames(e);
    var Trap(b, h) := View(e);
    assert CompileE(e, st) == CompileApp(e, st);
    match TrappedAccess(b, h)
    case None => ReadsTry(e, lex, st);
    case Some(a) =>
      AccessParts(b, h, st.thaws.Keys);
      var thunk := CompileClosure(None, a.fallback, st);
      SteadyClosure(None, a.fallback, st);
      if Fits(a) {
        assert Captures(a.fallback, st.scope) + {} == Captures(a.fallback, st.scope);
        ReadsClosure(None, a.fallback, lex + {View(h).x}, st);
        KnownLater(Reads(thunk.code), Names(a.fallback), Names(e), st, st);
        ReadsAccess(e, a, thunk, lex, st);
      } else {
        ReadsTry(e, lex, thunk.st);
        KnownLater(Reads(CompileE(e, st).code), Names(e), Names(e), st, thunk.st);
      }
  }

  lemma {:induction false} ReadsAccess(
    e: Expr, a: Access, thunk: Emit<R.RExpr>, lex: set<SymId>, st: Cg)
    requires View(e).Trap? && Wf(e, lex, st.scope, st.thaws.Keys)
    requires Safe(e, st.thaws.Keys) && CompileE(e, st).Emitted?
    requires TrappedAccess(View(e).body, View(e).handler) == Some(a) && Fits(a)
    requires thunk == CompileClosure(None, a.fallback, st) && thunk.Emitted? && Moved(st, thunk.st, st.scope)
    requires AllKnown(Reads(thunk.code), Names(e), st)
    ensures AllKnown(Reads(CompileE(e, st).code), Names(e), st)
    decreases e, 0
  {
    hide CompileTry, CompileClosure, Known;
    PartsAreSafe(e, st.thaws.Keys);
    PartNames(e);
    var Trap(b, h) := View(e);
    assert CompileE(e, st) == CompileApp(e, st);
    AccessParts(b, h, st.thaws.Keys);
    OperandsAreAtoms(a);
    NamesEach(a.operands, NamesOf(a.operands));
    forall g | g in st.thaws.Keys ensures OnlyThawedEach(g, a.operands, false) {
      OnlyThawedUnfolds(g, a.operands, false);
    }
    var x := a.operands.head;
    LiteralFlow(x, st.scope);
    assert WfAll(a.operands.tail, lex, st.scope, st.thaws.Keys);
    AtomState(x, thunk.st);
    ReadsE(x, lex, thunk.st);
    var xc := CompileE(x, thunk.st).code;
    KnownLater(Reads(xc), Names(x), Names(e), st, thunk.st);
    if a.op == K_VALUE {
      OneReads(xc, thunk.code);
    } else {
      var i := a.operands.tail.head;
      AtomState(i, thunk.st);
      ReadsE(i, lex, thunk.st);
      var ic := CompileE(i, thunk.st).code;
      KnownLater(Reads(ic), Names(i), Names(e), st, thunk.st);
      TwoReads(a.op, xc, ic, thunk.code);
    }
  }

  lemma {:induction false} OneReads(xc: R.RExpr, thunk: R.RExpr)
    ensures Reads(OneCode(xc, thunk)) <= Reads(xc) + Reads(thunk)
  {
    var inner := AllOf([R.FixedX, R.FixedH]);
    assert ReadsOver(One(R.FixedH, thunk), inner) == Reads(thunk) + (ReadsOver(Empty, inner) - {R.FixedH});
  }

  lemma {:induction false} TwoReads(op: SymId, xc: R.RExpr, ic: R.RExpr, thunk: R.RExpr)
    ensures Reads(TwoCode(op, xc, ic, thunk)) <= Reads(xc) + Reads(ic) + Reads(thunk)
  {
    var inner := AllOf([R.FixedX, R.FixedN, R.FixedH]);
    var last := One(R.FixedH, thunk);
    assert ReadsOver(last, inner) == Reads(thunk) + (ReadsOver(Empty, inner) - {R.FixedH});
    assert ReadsOver(Cons(R.Bind(R.FixedN, ic), last), inner) == Reads(ic) + (ReadsOver(last, inner) - {R.FixedN});
  }

  lemma {:induction false} ReadsTry(e: Expr, lex: set<SymId>, st: Cg)
    requires View(e).Trap? ==> !Rewritten(View(e).body, View(e).handler)
    requires View(e).Trap? && Wf(e, lex, st.scope, st.thaws.Keys)
    requires Safe(e, st.thaws.Keys) && CompileTry(e, st).Emitted?
    ensures AllKnown(Reads(CompileTry(e, st).code), Names(e), st)
    decreases e, 0
  {
    hide Known;
    PartsAreSafe(e, st.thaws.Keys);
    PartNames(e);
    var Trap(b, h) := View(e);
    var body := CompileE(b, st);
    SteadyE(b, st);
    ReadsE(b, lex, st);
    ReadsE(h, lex, body.st);
    KnownLater(Reads(body.code), Names(b), Names(e), st, st);
    KnownLater(Reads(CompileE(h, body.st).code), Names(h), Names(e), st, body.st);
  }

  lemma {:induction false} ReadsCond(cs: List<Expr>, lex: set<SymId>, st: Cg)
    requires WfClauses(cs, lex, st.scope, st.thaws.Keys) && SafeIn(cs, st.thaws.Keys) && CompileCond(cs, st).Emitted?
    ensures AllKnown(Reads(CompileCond(cs, st).code), NamesOf(cs), st)
    decreases cs, 0
  {
    hide Known;
    match cs
    case Empty =>
    case Cons(App(Cons(t, Cons(v, Empty))), rest) =>
      NamesEach(cs.head.items, Names(cs.head));
      ClauseParts(t, v, rest, st.thaws.Keys);
      var others := CompileCond(rest, st);
      SteadyCond(rest, st);
      var test := CompileE(t, others.st);
      SteadyE(t, others.st);
      var action := CompileE(v, test.st);
      ReadsCond(rest, lex, st);
      ReadsE(t, lex, others.st);
      ReadsE(v, lex, test.st);
      KnownLater(Reads(others.code), NamesOf(rest), NamesOf(cs), st, st);
      KnownLater(Reads(test.code), Names(t), NamesOf(cs), st, others.st);
      KnownLater(Reads(action.code), Names(v), NamesOf(cs), st, test.st);
      ReadsOne(action.st.Fresh(), test.code, R.IfTrue(action.st.Fresh(), action.code, others.code));
    case _ =>
  }

  lemma {:induction false} ReadsDo(es: List<Expr>, lex: set<SymId>, st: Cg)
    requires WfAll(es, lex, st.scope, st.thaws.Keys) && SafeIn(es, st.thaws.Keys) && CompileDo(es, st).Emitted?
    ensures AllKnown(Reads(CompileDo(es, st).code), NamesOf(es), st)
    decreases es, 0
  {
    hide Known;
    if es.Cons? {
      var first := CompileE(es.head, st);
      ReadsE(es.head, lex, st);
      KnownLater(Reads(first.code), Names(es.head), NamesOf(es), st, st);
      if es.tail.Cons? {
        SteadyE(es.head, st);
        ReadsDo(es.tail, lex, first.st);
        var others := CompileDo(es.tail, first.st);
        KnownLater(Reads(others.code), NamesOf(es.tail), NamesOf(es), st, first.st);
        ReadsOne(R.Wild, first.code, others.code);
      }
    }
  }

  // ---- what the collector sees ----

  function EnvValues(env: Env): seq<Value>
  {
    match env case EmptyEnv => [] case Push(_, v, rest) => EnvValues(rest) + [v]
  }

  /** What the collector sees of a closure: its partial arguments, and what it captured. */
  function GcEdges(f: Value): seq<Value>
  {
    match f
    case VFn(_, partial) => partial
    case VLam(env, _, _) => EnvValues(env)
    case VCode(_, _, _, shadow) => shadow
    case _ => []
  }

  lemma {:induction false} EnvHolds(env: Env, x: SymId)
    ensures Lookup(env, x).Some? ==> Lookup(env, x).value in EnvValues(env)
  {
    if env.Push? { EnvHolds(env.rest, x); }
  }

  lemma {:induction false} GotEach(env: REnv, xs: seq<R.RVar>)
    requires GetAll(env, xs).Some?
    ensures forall i :: 0 <= i < |xs| ==> GetVal(env, xs[i]) == Some(GetAll(env, xs).value[i])
  {
    if xs != [] {
      GotEach(env, xs[1..]);
      forall i | 0 <= i < |xs| ensures GetVal(env, xs[i]) == Some(GetAll(env, xs).value[i]) {
        if i > 0 { assert xs[i] == xs[1..][i - 1]; }
      }
    }
  }

  /** The shadow list that the collector scans holds the value of each captured local, in their order. */
  lemma {:induction false} ShadowCovers(
    n: nat, q: RProg, param: Option<SymId>, b: Expr, st: Cg, locals: REnv, w: World)
    requires CompileClosure(param, b, st).Emitted?
    requires forall x :: x in Captures(b, st.scope) ==> GetVal(locals, R.V(x)).Some?
    ensures var f := RunE(n, q, CompileClosure(param, b, st).code, locals, w).out;
            var caps := Sorted(Captures(b, st.scope));
            && f.Ok? && f.v.VCode? && f.v.code == CompileE(b, Inside(param, b, st)).code && |f.v.shadow| == |caps|
            && forall i :: 0 <= i < |caps| ==> GetVal(locals, R.V(caps[i])) == Some(f.v.shadow[i])
  {
    hide RunE, CompileE;
    var caps := Sorted(Captures(b, st.scope));
    Captured(locals, caps);
    ReadSome(locals, caps);
    RunClosure(n, q, caps, param, CompileE(b, Inside(param, b, st)).code, caps, locals, w);
    GotEach(locals, R.Locals(caps));
    assert forall i :: 0 <= i < |caps| ==> R.Locals(caps)[i] == R.V(caps[i]);
  }

  lemma {:induction false} LocalAt(x: R.RVar, xs: seq<SymId>) returns (i: nat)
    requires x in R.Locals(xs)
    ensures i < |xs| && x == R.V(xs[i])
  {
    i :| 0 <= i < |xs| && R.Locals(xs)[i] == x;
  }

  /** Whatever local the code of a closure reads but its parameter, the collector sees its value. */
  lemma {:induction false} EdgesCover(
    n: nat, q: RProg, param: Option<SymId>, b: Expr, lex: set<SymId>, st: Cg, locals: REnv, w: World, x: R.RVar)
    requires Wf(b, lex, Inside(param, b, st).scope, st.thaws.Keys)
    requires Names(b) !! st.thaws.Keys && CompileClosure(param, b, st).Emitted?
    requires forall y :: y in Captures(b, st.scope) ==> GetVal(locals, R.V(y)).Some?
    ensures var f := RunE(n, q, CompileClosure(param, b, st).code, locals, w).out;
            && f.Ok? && f.v.VCode?
            && (x in Reads(f.v.code) && x !in Param(param) ==>
                  GetVal(locals, x).Some? && GetVal(locals, x).value in GcEdges(f.v))
  {
    hide RunE, CompileE, CompileClosure, Wf, Reads, Sorted, Captures, GetVal, R.Locals;
    ShadowCovers(n, q, param, b, st, locals, w);
    BodyReads(param, b, lex, st);
    var f := RunE(n, q, CompileClosure(param, b, st).code, locals, w).out;
    if x in Reads(f.v.code) && x !in Param(param) {
      var i := LocalAt(x, Sorted(Captures(b, st.scope)));
      assert f.v.shadow[i] in f.v.shadow;
    }
  }
}
