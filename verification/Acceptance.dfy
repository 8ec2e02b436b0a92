/**
 Which defuns the compiler takes, and what a rejected one leaves behind in the generator: decided
 on the source alone, with the flat scope threaded as compilation threads it.
 */
module Acceptance {
  import opened Lists
  import opened Kl
  import opened Codegen
  import opened CodegenState

  /** A form is compiled, or its compilation stops inside the continuations `around`. */
  datatype Verdict = Compiles | Stops(around: set<SymId>)
  {
    function Then(next: Verdict): Verdict { if Stops? then this else next }
    function Under(x: SymId): Verdict { if Stops? then Stops(around + {x}) else this }
  }

  /**
   The first part of `e`, in the order of compilation, that is no expression of the language. In
   tail position `self` and `k` are the function's name and number of parameters, and what is taken
   for a call of it is judged as one.
   */
  function Judge(e: Expr, flat: set<SymId>, self: Option<SymId>, k: nat): Verdict
    decreases e
  {
    if IsSelf(e, self, k, flat) then JudgeAll(e.items.tail, flat) else
    match View(e)
    case If(c, t, f) =>
      var s := Flow(c, flat);
      Judge(c, flat, None, 0).Then(Judge(t, s, self, k)).Then(Judge(f, TailFlow(t, s, self, k), self, k))
    case Let(x, v, b) =>
      if Inlines(x, v, b) then
        Judge(View(v).body, flat, None, 0).Then(Judge(b, Flow(View(v).body, flat) + {x}, self, k).Under(x))
      else Judge(v, flat, None, 0).Then(Judge(b, Flow(v, flat) + {x}, self, k))
    case Cond(cs) => JudgeClauses(cs, flat, self, k)
    case Do(es) => JudgeLast(es, flat, self, k)
    case And(a, b) => Judge(a, flat, None, 0).Then(Judge(b, Flow(a, flat), self, k))
    case Or(a, b) => Judge(a, flat, None, 0).Then(Judge(b, Flow(a, flat), self, k))
    case Lambda(x, b) => Judge(b, Captures(b, flat) + {x}, None, 0)
    case Freeze(b) => Judge(b, Captures(b, flat), None, 0)
    case Thaw(a) => Judge(a, flat, None, 0)
    case Trap(b, h) =>
      (match TrappedAccess(b, h)
       case None => Judge(b, flat, None, 0).Then(Judge(h, Flow(b, flat), None, 0))
       case Some(a) =>
         Judge(a.fallback, Captures(a.fallback, flat), None, 0)
         .Then(if Fits(a) then Compiles
               else Judge(b, flat, None, 0).Then(Judge(h, Flow(b, flat), None, 0))))
    case Typed(a) => Judge(a, flat, self, k)
    case Call(h, args) =>
      if h !in flat && PrologCall(h, args) then Stops({}) else JudgeAll(args, flat)
    case Define(args) =>
      if K_DEFUN !in flat && PrologCall(K_DEFUN, args) then Stops({}) else JudgeAll(args, flat)
    case Apply(f, args) => Judge(f, flat, None, 0).Then(JudgeAll(args, Flow(f, flat)))
    case Bad => Stops({})
    case _ => Compiles
  }

  function JudgeAll(es: List<Expr>, flat: set<SymId>): Verdict
    decreases es
  {
    match es
    case Empty => Compiles
    case Cons(e, rest) => Judge(e, flat, None, 0).Then(JudgeAll(rest, Flow(e, flat)))
  }

  function JudgeLast(es: List<Expr>, flat: set<SymId>, self: Option<SymId>, k: nat): Verdict
    decreases es
  {
    match es
    case Empty => Compiles
    case Cons(e, Empty) => Judge(e, flat, self, k)
    case Cons(e, rest) => Judge(e, flat, None, 0).Then(JudgeLast(rest, Flow(e, flat), self, k))
  }

  function JudgeClauses(cs: List<Expr>, flat: set<SymId>, self: Option<SymId>, k: nat): Verdict
    decreases cs
  {
    match cs
    case Empty => Compiles
    case Cons(clause, rest) =>
      var s := TailFlowClauses(rest, flat, self, k);
      JudgeClauses(rest, flat, self, k).Then(
        match clause
        case App(Cons(t, Cons(v, Empty))) => Judge(t, s, None, 0).Then(Judge(v, Flow(t, s), self, k))
        case _ => Stops({}))
  }

  /**
   The generator did what the verdict says: it emitted code, or it stopped with its table of
   continuations as it was but for those it stopped inside.
   */
  ghost predicate Follows<A>(r: Emit<A>, st: Cg, v: Verdict)
  {
    match r
    case Emitted(_, _) => v.Compiles?
    case Rejected(at) =>
      && v.Stops? && at.self == st.self && at.params == st.params && st.counter <= at.counter
      && at.thaws.Keys == st.thaws.Keys + v.around
      && forall g :: g in st.thaws && g !in v.around ==> at.thaws[g] == st.thaws[g]
  }

  lemma {:induction false} JudgeE(e: Expr, st: Cg)
    requires e.App? ==> Safe(e, st.thaws.Keys)
    ensures Follows(CompileE(e, st), st, Judge(e, st.scope, None, 0))
    decreases e, 2
  {
    hide BindArgs, CompileCond, CompileDo, CompileClosure, CompileTry, CompileHead, Inlines, TrappedAccess;
    if e.App? {
      PartsAreSafe(e, st.thaws.Keys);
      assert CompileE(e, st) == CompileApp(e, st);
      match View(e)
      case If(_, _, _) => JudgeIf(e, st);
      case Let(_, _, _) => JudgeLet(e, st);
      case Cond(cs) => JudgeCond(cs, st);
      case Do(es) => JudgeDo(es, st);
      case And(_, _) => JudgeBoth(e, st);
      case Or(_, _) => JudgeBoth(e, st);
      case Lambda(x, b) => JudgeClosure(Some(x), b, st);
      case Freeze(b) =>
        assert Captures(b, st.scope) + {} == Captures(b, st.scope);
        JudgeClosure(None, b, st);
      case Thaw(a) => JudgeThaw(e, st);
      case Trap(_, _) => JudgeTrap(e, st);
      case Typed(a) => JudgeE(a, st);
      case Call(h, args) => JudgeHead(h, args, st);
      case Define(args) => JudgeHead(K_DEFUN, args, st);
      case Apply(_, _) => JudgeApply(e, st);
      case _ =>
    }
  }

  lemma {:induction false} JudgeBoth(e: Expr, st: Cg)
    requires (View(e).And? || View(e).Or?) && Safe(e, st.thaws.Keys)
    ensures Follows(CompileE(e, st), st, Judge(e, st.scope, None, 0))
    decreases e, 0
  {
    hide BindArgs, CompileCond, CompileDo, CompileClosure, CompileTry, CompileHead, Inlines, TrappedAccess;
    PartsAreSafe(e, st.thaws.Keys);
    assert CompileE(e, st) == CompileApp(e, st);
    var a, b := View(e).a, View(e).b;
    JudgeE(a, st);
    if CompileE(a, st).Emitted? {
      SteadyE(a, st);
      JudgeE(b, CompileE(a, st).st);
    }
  }

  lemma {:induction false} JudgeApply(e: Expr, st: Cg)
    requires View(e).Apply? && Safe(e, st.thaws.Keys)
    ensures Follows(CompileE(e, st), st, Judge(e, st.scope, None, 0))
    decreases e, 0
  {
    hide CompileCond, CompileDo, CompileClosure, CompileTry, CompileHead, Inlines, TrappedAccess;
    PartsAreSafe(e, st.thaws.Keys);
    forall g | g in st.thaws.Keys ensures OnlyThawedIn(g, View(e).args, false) { assert ThawedWithin(View(e), g); }
    assert CompileE(e, st) == CompileApp(e, st);
    var Apply(f, args) := View(e);
    JudgeE(f, st);
    if CompileE(f, st).Emitted? {
      SteadyE(f, st);
      JudgeArgs(args, CompileE(f, st).st.Next());
    }
  }

  lemma {:induction false} JudgeThaw(e: Expr, st: Cg)
    requires View(e).Thaw? && Safe(e, st.thaws.Keys)
    ensures Follows(CompileE(e, st), st, Judge(e, st.scope, None, 0))
    decreases e, 0
  {
    PartsAreSafe(e, st.thaws.Keys);
    assert CompileE(e, st) == CompileApp(e, st);
    var a := View(e).arg;
    if a.App? {
      forall g | g in st.thaws.Keys ensures OnlyThawed(g, a, false) { assert ThawedWithin(View(e), g); }
      JudgeE(a, st);
    } else {
      AtomState(a, st);
      LiteralCompiles(a, st.scope);
    }
  }

  lemma {:induction false} JudgeIf(e: Expr, st: Cg)
    requires View(e).If? && Safe(e, st.thaws.Keys)
    ensures Follows(CompileE(e, st), st, Judge(e, st.scope, None, 0))
    decreases e, 0
  {
    hide BindArgs, CompileCond, CompileDo, CompileClosure, CompileTry, CompileHead, Inlines, TrappedAccess;
    PartsAreSafe(e, st.thaws.Keys);
    assert CompileE(e, st) == CompileApp(e, st);
    var If(c, t, f) := View(e);
    JudgeE(c, st);
    SameFlow(t, None, [], Flow(c, st.scope), {});
    if CompileE(c, st).Emitted? {
      var s1 := CompileE(c, st).st;
      SteadyE(c, st);
      JudgeE(t, s1);
      if CompileE(t, s1).Emitted? {
        SteadyE(t, s1);
        JudgeE(f, CompileE(t, s1).st);
      }
    }
  }

  lemma {:induction false} JudgeLet(e: Expr, st: Cg)
    requires View(e).Let? && Safe(e, st.thaws.Keys)
    ensures Follows(CompileE(e, st), st, Judge(e, st.scope, None, 0))
    decreases e, 0
  {
    ProcIsSafe(e, st.thaws.Keys);
    assert CompileE(e, st) == CompileApp(e, st);
    var Let(x, v, b) := View(e);
    var first := if Inlines(x, v, b) then View(v).body else v;
    JudgeE(first, st);
    if CompileE(first, st).Emitted? {
      var s1 := CompileE(first, st).st;
      SteadyE(first, st);
      if Inlines(x, v, b) {
        assert EnterProc(s1, x).thaws.Keys == st.thaws.Keys + {x};
        JudgeE(b, EnterProc(s1, x));
      } else {
        JudgeE(b, s1.Bind(x));
      }
    }
  }

  lemma {:induction false} JudgeHead(h: SymId, args: List<Expr>, st: Cg)
    requires SafeIn(args, st.thaws.Keys)
    ensures Follows(CompileHead(h, args, st), st,
                    if h !in st.scope && PrologCall(h, args) then Stops({}) else JudgeAll(args, st.scope))
    decreases args, 2
  {
    var short := Classify(h, args, st.scope);
    ShortcutParts(h, args, st.scope, st.thaws.Keys);
    if h in st.scope || short.Plain? {
      assert h !in st.scope && !PrologCall(h, args) ==> CompileHead(h, args, st) == CompileCall(h, args, st);
      JudgeArgs(args, st);
    } else {
      JudgeShort(h, args, st.scope);
      if !short.ReadGlobal? { JudgeE(short.v, st); }
    }
  }

  /** Of a shortcut's operands one is compiled, and the others never stop. */
  lemma {:induction false} JudgeShort(h: SymId, args: List<Expr>, flat: set<SymId>)
    ensures var r := Classify(h, args, flat);
            && (r.ReadGlobal? ==> JudgeAll(args, flat) == Compiles)
            && (r.WriteGlobal? || r.Compare? ==> JudgeAll(args, flat) == Judge(r.v, flat, None, 0))
  {
    var r := Classify(h, args, flat);
    if !r.Plain? {
      var a := args.head;
      assert JudgeAll(args, flat) == Judge(a, flat, None, 0).Then(JudgeAll(args.tail, Flow(a, flat)));
      if args.tail.Cons? {
        var b := args.tail.head;
        assert JudgeAll(args.tail, Flow(a, flat)) == Judge(b, Flow(a, flat), None, 0).Then(Compiles);
        if r.WriteGlobal? || ProbeFor(a, flat).Some? {
          LiteralFlow(a, flat);
          LiteralCompiles(a, flat);
        } else {
          LiteralCompiles(b, Flow(a, flat));
        }
      }
    }
  }

  lemma {:induction false} LiteralCompiles(a: Expr, flat: set<SymId>)
    requires !a.App? || a == App(Cons(Sym(K_FAIL), Empty))
    ensures Judge(a, flat, None, 0) == Compiles
  {
    if a.App? { assert View(a) == Call(K_FAIL, Empty); }
  }

  lemma {:induction false} JudgeClosure(param: Option<SymId>, b: Expr, st: Cg)
    requires Names(b) !! st.thaws.Keys
    ensures Follows(CompileClosure(param, b, st), st, Judge(b, Captures(b, st.scope) + ParamSet(param), None, 0))
    decreases b, 3
  {
    AbsentIsSafe(b, st.thaws.Keys);
    JudgeE(b, Inside(param, b, st));
  }

  lemma {:induction false} JudgeTrap(e: Expr, st: Cg)
    requires View(e).Trap? && Safe(e, st.thaws.Keys)
    ensures Follows(CompileE(e, st), st, Judge(e, st.scope, None, 0))
    decreases e, 1
  {
    hide CompileTry;
    PartsAreSafe(e, st.thaws.Keys);
    var Trap(b, h) := View(e);
    assert CompileE(e, st) == CompileApp(e, st);
    match TrappedAccess(b, h)
    case None => JudgeTry(e, st);
    case Some(a) =>
      AccessParts(b, h, st.thaws.Keys);
      assert Captures(a.fallback, st.scope) + {} == Captures(a.fallback, st.scope);
      JudgeClosure(None, a.fallback, st);
      var thunk := CompileClosure(None, a.fallback, st);
      if thunk.Emitted? {
        SteadyClosure(None, a.fallback, st);
        if Fits(a) {
          OperandsAreAtoms(a);
          AtomState(a.operands.head, thunk.st);
          if a.op != K_VALUE { AtomState(a.operands.tail.head, thunk.st); }
        } else {
          JudgeTry(e, thunk.st);
        }
      }
  }

  lemma {:induction false} JudgeTry(e: Expr, st: Cg)
    requires View(e).Trap? && Safe(e, st.thaws.Keys)
    ensures var Trap(b, h) := View(e);
            Follows(CompileTry(e, st), st, Judge(b, st.scope, None, 0).Then(Judge(h, Flow(b, st.scope), None, 0)))
    decreases e, 0
  {
    PartsAreSafe(e, st.thaws.Keys);
    var Trap(b, h) := View(e);
    JudgeE(b, st);
    if CompileE(b, st).Emitted? {
      SteadyE(b, st);
      JudgeE(h, CompileE(b, st).st);
    }
  }

  lemma {:induction false} JudgeArgs(es: List<Expr>, st: Cg)
    requires SafeIn(es, st.thaws.Keys)
    ensures Follows(BindArgs(es, st), st, JudgeAll(es, st.scope))
    decreases es, 0
  {
    if es.Cons? {
      JudgeE(es.head, st);
      if CompileE(es.head, st).Emitted? {
        SteadyE(es.head, st);
        JudgeArgs(es.tail, CompileE(es.head, st).st.Next());
      }
    }
  }

  lemma {:induction false} JudgeCond(cs: List<Expr>, st: Cg)
    requires SafeIn(cs, st.thaws.Keys)
    ensures Follows(CompileCond(cs, st), st, JudgeClauses(cs, st.scope, None, 0))
    decreases cs, 0
  {
    if cs.Cons? {
      var rest := cs.tail;
      JudgeCond(rest, st);
      SameFlowClauses(rest, None, [], st.scope, {});
      if CompileCond(rest, st).Emitted? {
        var s1 := CompileCond(rest, st).st;
        SteadyCond(rest, st);
        match cs.head {
          case App(Cons(t, Cons(v, Empty))) =>
            ClauseParts(t, v, rest, st.thaws.Keys);
            JudgeE(t, s1);
            if CompileE(t, s1).Emitted? {
              SteadyE(t, s1);
              JudgeE(v, CompileE(t, s1).st);
            }
          case _ =>
        }
      }
    }
  }

  lemma {:induction false} JudgeDo(es: List<Expr>, st: Cg)
    requires SafeIn(es, st.thaws.Keys)
    ensures Follows(CompileDo(es, st), st, JudgeLast(es, st.scope, None, 0))
    decreases es, 0
  {
    if es.Cons? {
      JudgeE(es.head, st);
      if CompileE(es.head, st).Emitted? && es.tail.Cons? {
        SteadyE(es.head, st);
        JudgeDo(es.tail, CompileE(es.head, st).st);
      }
    }
  }

  // ---- in tail position ----

  lemma {:induction false} JudgeTail(e: Expr, st: Cg)
    requires (e.App? ==> Safe(e, st.thaws.Keys))
    ensures Follows(CompileTail(e, st), st, Judge(e, st.scope, st.self, |st.params|))
    decreases e, 2
  {
    hide CompileE, BindArgs, Inlines, TrappedAccess;
    if SelfCall(e, st) {
      JudgeSelf(e, st);
    } else if e.App? {
      PartsAreSafe(e, st.thaws.Keys);
      assert CompileTail(e, st) == CompileTailApp(e, st);
      match View(e)
      case If(_, _, _) => JudgeTailIf(e, st);
      case Let(_, _, _) => JudgeTailLet(e, st);
      case Cond(cs) => JudgeTailCond(cs, st);
      case Do(es) => JudgeTailDo(es, st);
      case And(a, b) =>
        JudgeE(a, st);
        if CompileE(a, st).Emitted? { SteadyE(a, st); JudgeTail(b, CompileE(a, st).st.Next()); }
      case Or(a, b) =>
        JudgeE(a, st);
        if CompileE(a, st).Emitted? { SteadyE(a, st); JudgeTail(b, CompileE(a, st).st.Next()); }
      case Typed(a) => JudgeTail(a, st);
      case _ => JudgeBreak(e, st);
    } else {
      JudgeE(e, st);
    }
  }

  lemma {:induction false} JudgeBreak(e: Expr, st: Cg)
    requires e.App? && Safe(e, st.thaws.Keys) && !SelfCall(e, st)
    requires Breaks(View(e))
    ensures Follows(CompileTail(e, st), st, Judge(e, st.scope, st.self, |st.params|))
    decreases e, 1
  {
    hide CompileE;
    assert CompileTail(e, st) == CompileTailApp(e, st) == CompileBreak(e, st);
    JudgeE(e, st);
    assert Judge(e, st.scope, st.self, |st.params|) == Judge(e, st.scope, None, 0) by { SameJudge(e, st); }
  }

  /** Away from the tail forms the position makes no difference. */
  lemma {:induction false} SameJudge(e: Expr, st: Cg)
    requires e.App? && !SelfCall(e, st)
    requires Breaks(View(e))
    ensures Judge(e, st.scope, st.self, |st.params|) == Judge(e, st.scope, None, 0)
  {
    hide Inlines, TrappedAccess, Flow, Captures, PrologCall;
    match View(e)
    case Call(h, args) => assert e == App(Cons(Sym(h), args));
    case _ =>
  }

  lemma {:induction false} JudgeSelf(e: Expr, st: Cg)
    requires SelfCall(e, st) && Safe(e, st.thaws.Keys)
    ensures Follows(CompileTail(e, st), st, Judge(e, st.scope, st.self, |st.params|))
    decreases e, 0
  {
    hide CompileE, BindArgs;
    SelfArgs(e, st);
    assert CompileTail(e, st) == CompileTailApp(e, st);
    if SafeIn(e.items.tail, st.thaws.Keys) { JudgeArgs(e.items.tail, st); } else { JudgeAtom(e.items.tail.head, st); }
  }

  lemma {:induction false} JudgeAtom(a: Expr, st: Cg)
    requires !a.App?
    ensures BindArgs(Cons(a, Empty), st).Emitted? && JudgeAll(Cons(a, Empty), st.scope) == Compiles
  {
    AtomArg(a, st);
    LiteralCompiles(a, st.scope);
  }

  lemma {:induction false} JudgeTailIf(e: Expr, st: Cg)
    requires View(e).If? && Safe(e, st.thaws.Keys)
    ensures Follows(CompileTail(e, st), st, Judge(e, st.scope, st.self, |st.params|))
    decreases e, 0
  {
    PartsAreSafe(e, st.thaws.Keys);
    assert CompileTail(e, st) == CompileTailApp(e, st);
    var If(c, t, f) := View(e);
    JudgeE(c, st);
    if CompileE(c, st).Emitted? {
      var s1 := CompileE(c, st).st.Next();
      SteadyE(c, st);
      JudgeTail(t, s1);
      if CompileTail(t, s1).Emitted? {
        SteadyTail(t, s1);
        JudgeTail(f, CompileTail(t, s1).st);
      }
    }
  }

  lemma {:induction false} JudgeTailLet(e: Expr, st: Cg)
    requires View(e).Let? && Safe(e, st.thaws.Keys)
    ensures Follows(CompileTail(e, st), st, Judge(e, st.scope, st.self, |st.params|))
    decreases e, 0
  {
    ProcIsSafe(e, st.thaws.Keys);
    assert CompileTail(e, st) == CompileTailApp(e, st);
    var Let(x, v, b) := View(e);
    var first := if Inlines(x, v, b) then View(v).body else v;
    JudgeE(first, st);
    if CompileE(first, st).Emitted? {
      var s1 := CompileE(first, st).st;
      SteadyE(first, st);
      if Inlines(x, v, b) {
        assert EnterProc(s1, x).thaws.Keys == st.thaws.Keys + {x};
        JudgeTail(b, EnterProc(s1, x));
      } else {
        JudgeTail(b, s1.Bind(x));
      }
    }
  }

  lemma {:induction false} JudgeTailCond(cs: List<Expr>, st: Cg)
    requires SafeIn(cs, st.thaws.Keys)
    ensures Follows(CompileTailCond(cs, st), st, JudgeClauses(cs, st.scope, st.self, |st.params|))
    decreases cs, 0
  {
    if cs.Cons? {
      var rest := cs.tail;
      JudgeTailCond(rest, st);
      if CompileTailCond(rest, st).Emitted? {
        var s1 := CompileTailCond(rest, st).st;
        SteadyTailCond(rest, st);
        match cs.head {
          case App(Cons(t, Cons(v, Empty))) =>
            ClauseParts(t, v, rest, st.thaws.Keys);
            JudgeE(t, s1);
            if CompileE(t, s1).Emitted? {
              SteadyE(t, s1);
              JudgeTail(v, CompileE(t, s1).st);
            }
          case _ =>
        }
      }
    }
  }

  lemma {:induction false} JudgeTailDo(es: List<Expr>, st: Cg)
    requires SafeIn(es, st.thaws.Keys)
    ensures Follows(CompileTailDo(es, st), st, JudgeLast(es, st.scope, st.self, |st.params|))
    decreases es, 0
  {
    if es.Cons? {
      if es.tail.Empty? {
        JudgeTail(es.head, st);
      } else {
        JudgeE(es.head, st);
        if CompileE(es.head, st).Emitted? {
          SteadyE(es.head, st);
          JudgeTailDo(es.tail, CompileE(es.head, st).st);
        }
      }
    }
  }
}
