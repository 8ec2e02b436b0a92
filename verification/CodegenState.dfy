/**
 What the compiler needs of its input, and what every `compile_*` does to the generator's state:
 how the flat scope moves, and that the inlined continuations are as they were.
 */
module CodegenState {
  import opened Lists
  import opened Kl
  import opened Codegen

  // ---- the flat scope as compilation threads it ----

  predicate Rewritten(b: Expr, h: Expr)
  {
    TrappedAccess(b, h).Some? && Fits(TrappedAccess(b, h).value)
  }

  /** The flat scope after `e` is compiled in it: the end of a `let` forgets a name whoever bound it. */
  function Flow(e: Expr, flat: set<SymId>): set<SymId>
    decreases e
  {
    match View(e)
    case If(c, t, f) => Flow(f, Flow(t, Flow(c, flat)))
    case Let(x, v, b) => Flow(b, Flow(if Inlines(x, v, b) then View(v).body else v, flat) + {x}) - {x}
    case Cond(cs) => FlowClauses(cs, flat)
    case Do(es) => FlowAll(es, flat)
    case And(a, b) => Flow(b, Flow(a, flat))
    case Or(a, b) => Flow(b, Flow(a, flat))
    case Thaw(a) => Flow(a, flat)
    case Trap(b, h) => if Rewritten(b, h) then flat else Flow(h, Flow(b, flat))
    case Typed(a) => Flow(a, flat)
    case Call(_, args) => FlowAll(args, flat)
    case Define(args) => FlowAll(args, flat)
    case Apply(f, args) => FlowAll(args, Flow(f, flat))
    case _ => flat
  }

  function FlowAll(es: List<Expr>, flat: set<SymId>): set<SymId>
    decreases es
  {
    match es case Empty => flat case Cons(e, rest) => FlowAll(rest, Flow(e, flat))
  }

  /** Clauses are compiled last to first. */
  function FlowClauses(cs: List<Expr>, flat: set<SymId>): set<SymId>
    decreases cs
  {
    match cs
    case Empty => flat
    case Cons(clause, rest) =>
      var s := FlowClauses(rest, flat);
      match clause
      case App(Cons(t, Cons(v, Empty))) => Flow(v, Flow(t, s))
      case _ => s
  }

  lemma {:induction false} FlowShrinks(e: Expr, flat: set<SymId>)
    ensures Flow(e, flat) <= flat
    decreases e
  {
    match View(e)
    case If(c, t, f) =>
      FlowShrinks(c, flat);
      FlowShrinks(t, Flow(c, flat));
      FlowShrinks(f, Flow(t, Flow(c, flat)));
    case Let(x, v, b) =>
      var first := if Inlines(x, v, b) then View(v).body else v;
      FlowShrinks(first, flat);
      FlowShrinks(b, Flow(first, flat) + {x});
    case Cond(cs) => FlowClausesShrinks(cs, flat);
    case Do(es) => FlowAllShrinks(es, flat);
    case And(a, b) => FlowShrinks(a, flat); FlowShrinks(b, Flow(a, flat));
    case Or(a, b) => FlowShrinks(a, flat); FlowShrinks(b, Flow(a, flat));
    case Thaw(a) => FlowShrinks(a, flat);
    case Trap(b, h) => FlowShrinks(b, flat); FlowShrinks(h, Flow(b, flat));
    case Typed(a) => FlowShrinks(a, flat);
    case Call(_, args) => FlowAllShrinks(args, flat);
    case Define(args) => FlowAllShrinks(args, flat);
    case Apply(f, args) => FlowShrinks(f, flat); FlowAllShrinks(args, Flow(f, flat));
    case _ =>
  }

  lemma {:induction false} FlowAllShrinks(es: List<Expr>, flat: set<SymId>)
    ensures FlowAll(es, flat) <= flat
    decreases es
  {
    if es.Cons? {
      FlowShrinks(es.head, flat);
      FlowAllShrinks(es.tail, Flow(es.head, flat));
    }
  }

  lemma {:induction false} FlowClausesShrinks(cs: List<Expr>, flat: set<SymId>)
    ensures FlowClauses(cs, flat) <= flat
    decreases cs
  {
    match cs
    case Empty =>
    case Cons(clause, rest) =>
      FlowClausesShrinks(rest, flat);
      match clause {
        case App(Cons(t, Cons(v, Empty))) =>
          var s := FlowClauses(rest, flat);
          FlowShrinks(t, s);
          FlowShrinks(v, Flow(t, s));
        case _ =>
      }
  }

  // ---- the input that is compiled right ----

  /** The compiler takes a name for a local exactly if it is one. */
  predicate Agrees(x: SymId, lex: set<SymId>, flat: set<SymId>)
  {
    x in lex <==> x in flat
  }

  /** A clause that is taken for the thaw of an inlined continuation, and is not. */
  predicate TakenForThaw(t: Expr, v: Expr, conts: set<SymId>)
  {
    t == Sym(K_THAW) && v.Sym? && v.id in conts
  }

  /**
   With the names `lex` bound and `flat` in the flat scope: wherever a name is read or called the
   two agree on it; a rewritten trap names the primitive and not a local; no `cond` clause looks
   like the thaw of one of the continuations `conts`; and the symbols `true` and `false` are written
   as booleans.
   */
  predicate Wf(e: Expr, lex: set<SymId>, flat: set<SymId>, conts: set<SymId>)
    decreases e
  {
    match View(e)
    case Const(_) => true
    case Var(x) => x != K_TRUE && x != K_FALSE && Agrees(x, lex, flat)
    case If(c, t, f) =>
      && Wf(c, lex, flat, conts) && Wf(t, lex, Flow(c, flat), conts)
      && Wf(f, lex, Flow(t, Flow(c, flat)), conts)
    case Let(x, v, b) =>
      if Inlines(x, v, b) then
        && Wf(View(v).body, lex, flat, conts)
        && Wf(b, lex + {x}, Flow(View(v).body, flat) + {x}, conts + {x})
      else Wf(v, lex, flat, conts) && Wf(b, lex + {x}, Flow(v, flat) + {x}, conts)
    case Cond(cs) => WfClauses(cs, lex, flat, conts)
    case Do(es) => WfAll(es, lex, flat, conts)
    case And(a, b) => Wf(a, lex, flat, conts) && Wf(b, lex, Flow(a, flat), conts)
    case Or(a, b) => Wf(a, lex, flat, conts) && Wf(b, lex, Flow(a, flat), conts)
    case Lambda(x, b) => Wf(b, lex + {x}, Captures(b, flat) + {x}, conts)
    case Freeze(b) => Wf(b, lex, Captures(b, flat), conts)
    case Thaw(a) => Wf(a, lex, flat, conts)
    case Trap(b, h) =>
      if Rewritten(b, h) then
        var a := TrappedAccess(b, h).value;
        && a.op !in lex && WfAll(a.operands, lex, flat, conts)
        && Wf(a.fallback, lex + {View(h).x}, Captures(a.fallback, flat), conts)
      else Wf(b, lex, flat, conts) && Wf(h, lex, Flow(b, flat), conts)
    case Typed(a) => Wf(a, lex, flat, conts)
    case Call(h, args) => Agrees(h, lex, flat) && WfAll(args, lex, flat, conts)
    case Apply(f, args) => Wf(f, lex, flat, conts) && WfAll(args, lex, Flow(f, flat), conts)
    case Define(_) => false
    case Bad => false
  }

  predicate WfAll(es: List<Expr>, lex: set<SymId>, flat: set<SymId>, conts: set<SymId>)
    decreases es
  {
    es.Cons? ==> Wf(es.head, lex, flat, conts) && WfAll(es.tail, lex, Flow(es.head, flat), conts)
  }

  predicate WfClauses(cs: List<Expr>, lex: set<SymId>, flat: set<SymId>, conts: set<SymId>)
    decreases cs
  {
    match cs
    case Empty => true
    case Cons(App(Cons(t, Cons(v, Empty))), rest) =>
      var s := FlowClauses(rest, flat);
      && WfClauses(rest, lex, flat, conts) && !TakenForThaw(t, v, conts)
      && Wf(t, lex, s, conts) && Wf(v, lex, Flow(t, s), conts)
    case _ => false
  }

  // ---- calls of the function itself ----

  /** The flat scope after `e` is compiled in tail position, where forms may be taken for calls of `self`. */
  function TailFlow(e: Expr, flat: set<SymId>, self: Option<SymId>, k: nat): set<SymId>
    decreases e
  {
    match View(e)
    case If(c, t, f) => TailFlow(f, TailFlow(t, Flow(c, flat), self, k), self, k)
    case Let(x, v, b) =>
      TailFlow(b, Flow(if Inlines(x, v, b) then View(v).body else v, flat) + {x}, self, k) - {x}
    case Cond(cs) => TailFlowClauses(cs, flat, self, k)
    case Do(es) => TailFlowLast(es, flat, self, k)
    case And(a, b) => TailFlow(b, Flow(a, flat), self, k)
    case Or(a, b) => TailFlow(b, Flow(a, flat), self, k)
    case Typed(a) => TailFlow(a, flat, self, k)
    case _ => if IsSelf(e, self, k, flat) then FlowAll(e.items.tail, flat) else Flow(e, flat)
  }

  function TailFlowClauses(cs: List<Expr>, flat: set<SymId>, self: Option<SymId>, k: nat): set<SymId>
    decreases cs
  {
    match cs
    case Empty => flat
    case Cons(clause, rest) =>
      var s := TailFlowClauses(rest, flat, self, k);
      match clause
      case App(Cons(t, Cons(v, Empty))) => TailFlow(v, Flow(t, s), self, k)
      case _ => s
  }

  function TailFlowLast(es: List<Expr>, flat: set<SymId>, self: Option<SymId>, k: nat): set<SymId>
    decreases es
  {
    match es
    case Empty => flat
    case Cons(e, Empty) => TailFlow(e, flat, self, k)
    case Cons(e, rest) => TailFlowLast(rest, Flow(e, flat), self, k)
  }

  /** A place where the loop goes round, and the names that a `let` has bound on the way to it. */
  datatype Round = Round(call: Expr, hidden: set<SymId>)

  /** What is taken for a call of the function itself in the tail positions of `e`. */
  function Rounds(e: Expr, self: Option<SymId>, k: nat, flat: set<SymId>, hidden: set<SymId>): set<Round>
    decreases e
  {
    match View(e)
    case If(c, t, f) =>
      var s := Flow(c, flat);
      Rounds(t, self, k, s, hidden) + Rounds(f, self, k, TailFlow(t, s, self, k), hidden)
    case Let(x, v, b) =>
      if Inlines(x, v, b) then Rounds(b, self, k, Flow(View(v).body, flat) + {x}, hidden)
      else Rounds(b, self, k, Flow(v, flat) + {x}, hidden + {x})
    case Cond(cs) => RoundsOfClauses(cs, self, k, flat, hidden)
    case Do(es) => RoundsOfLast(es, self, k, flat, hidden)
    case And(a, b) => Rounds(b, self, k, Flow(a, flat), hidden)
    case Or(a, b) => Rounds(b, self, k, Flow(a, flat), hidden)
    case Typed(a) => Rounds(a, self, k, flat, hidden)
    case _ => if IsSelf(e, self, k, flat) then {Round(e, hidden)} else {}
  }

  function RoundsOfClauses(
    cs: List<Expr>, self: Option<SymId>, k: nat, flat: set<SymId>, hidden: set<SymId>): set<Round>
    decreases cs
  {
    match cs
    case Empty => {}
    case Cons(clause, rest) =>
      var s := TailFlowClauses(rest, flat, self, k);
      RoundsOfClauses(rest, self, k, flat, hidden) +
      match clause
      case App(Cons(t, Cons(v, Empty))) => Rounds(v, self, k, Flow(t, s), hidden)
      case _ => {}
  }

  function RoundsOfLast(
    es: List<Expr>, self: Option<SymId>, k: nat, flat: set<SymId>, hidden: set<SymId>): set<Round>
    decreases es
  {
    match es
    case Empty => {}
    case Cons(e, Empty) => Rounds(e, self, k, flat, hidden)
    case Cons(e, rest) => RoundsOfLast(rest, self, k, Flow(e, flat), hidden)
  }

  predicate Unhidden(params: seq<SymId>, hidden: set<SymId>)
  {
    forall x :: x in params ==> x !in hidden
  }

  /** What is taken for a call is one; it assigns the parameters, so no `let` may hide one of them there. */
  predicate GoodRound(r: Round, params: seq<SymId>)
  {
    View(r.call).Call? && Unhidden(params, r.hidden)
  }

  predicate GoodRounds(rs: set<Round>, params: seq<SymId>)
  {
    forall r :: r in rs ==> GoodRound(r, params)
  }

  predicate Loops(e: Expr, self: Option<SymId>, params: seq<SymId>, flat: set<SymId>, hidden: set<SymId>)
  {
    GoodRounds(Rounds(e, self, |params|, flat, hidden), params)
  }

  predicate LoopsClauses(
    cs: List<Expr>, self: Option<SymId>, params: seq<SymId>, flat: set<SymId>, hidden: set<SymId>)
  {
    GoodRounds(RoundsOfClauses(cs, self, |params|, flat, hidden), params)
  }

  predicate LoopsLast(es: List<Expr>, self: Option<SymId>, params: seq<SymId>, flat: set<SymId>, hidden: set<SymId>)
  {
    GoodRounds(RoundsOfLast(es, self, |params|, flat, hidden), params)
  }

  lemma {:induction false} GoodUnion(a: set<Round>, b: set<Round>, params: seq<SymId>)
    ensures GoodRounds(a + b, params) <==> GoodRounds(a, params) && GoodRounds(b, params)
  {
    hide GoodRound;
  }

  lemma {:induction false} LoopsIf(
    e: Expr, self: Option<SymId>, params: seq<SymId>, flat: set<SymId>, hidden: set<SymId>)
    requires View(e).If? && Loops(e, self, params, flat, hidden)
    ensures var If(c, t, f) := View(e);
            && Loops(t, self, params, Flow(c, flat), hidden)
            && Loops(f, self, params, TailFlow(t, Flow(c, flat), self, |params|), hidden)
  {
    hide GoodRounds;
    var If(c, t, f) := View(e);
    var s := Flow(c, flat);
    GoodUnion(Rounds(t, self, |params|, s, hidden),
              Rounds(f, self, |params|, TailFlow(t, s, self, |params|), hidden), params);
  }

  lemma {:induction false} LoopsLet(
    e: Expr, self: Option<SymId>, params: seq<SymId>, flat: set<SymId>, hidden: set<SymId>)
    requires View(e).Let? && Loops(e, self, params, flat, hidden)
    ensures var Let(x, v, b) := View(e);
            if Inlines(x, v, b) then Loops(b, self, params, Flow(View(v).body, flat) + {x}, hidden)
            else Loops(b, self, params, Flow(v, flat) + {x}, hidden + {x})
  {
    hide GoodRounds, OnlyThawed;
  }

  lemma {:induction false} LoopsClause(
    cs: List<Expr>, t: Expr, v: Expr, self: Option<SymId>, params: seq<SymId>, flat: set<SymId>, hidden: set<SymId>)
    requires cs.Cons? && cs.head == App(Cons(t, Cons(v, Empty))) && LoopsClauses(cs, self, params, flat, hidden)
    ensures LoopsClauses(cs.tail, self, params, flat, hidden)
    ensures Loops(v, self, params, Flow(t, TailFlowClauses(cs.tail, flat, self, |params|)), hidden)
  {
    hide GoodRounds;
    GoodUnion(RoundsOfClauses(cs.tail, self, |params|, flat, hidden),
              Rounds(v, self, |params|, Flow(t, TailFlowClauses(cs.tail, flat, self, |params|)), hidden), params);
  }

  /**
   Where everything taken for a call is one, and outside of functions, tail position makes no
   difference to the flat scope.
   */
  lemma {:induction false} SameFlow(
    e: Expr, self: Option<SymId>, params: seq<SymId>, flat: set<SymId>, hidden: set<SymId>)
    requires self.Some? ==> Loops(e, self, params, flat, hidden)
    ensures TailFlow(e, flat, self, |params|) == Flow(e, flat)
    decreases e
  {
    hide TrappedAccess, Fits, Unhidden, OnlyThawed;
    match View(e)
    case If(c, t, f) =>
      if self.Some? { LoopsIf(e, self, params, flat, hidden); }
      SameFlow(t, self, params, Flow(c, flat), hidden);
      SameFlow(f, self, params, Flow(t, Flow(c, flat)), hidden);
    case Let(x, v, b) =>
      if Inlines(x, v, b) {
        SameFlow(b, self, params, Flow(View(v).body, flat) + {x}, hidden);
      } else {
        SameFlow(b, self, params, Flow(v, flat) + {x}, hidden + {x});
      }
    case Cond(cs) => SameFlowClauses(cs, self, params, flat, hidden);
    case Do(es) => SameFlowLast(es, self, params, flat, hidden);
    case And(a, b) => SameFlow(b, self, params, Flow(a, flat), hidden);
    case Or(a, b) => SameFlow(b, self, params, Flow(a, flat), hidden);
    case Typed(a) => SameFlow(a, self, params, flat, hidden);
    case _ => SameFlowHere(e, self, params, flat, hidden);
  }

  lemma {:induction false} SelfIsGood(
    e: Expr, self: Option<SymId>, params: seq<SymId>, flat: set<SymId>, hidden: set<SymId>)
    requires IsSelf(e, self, |params|, flat) && Loops(e, self, params, flat, hidden)
    ensures self.Some? && View(e) == Call(self.value, e.items.tail) && Unhidden(params, hidden)
  {
    hide Unhidden;
    assert Breaks(View(e));
    assert Round(e, hidden) in Rounds(e, self, |params|, flat, hidden);
    assert GoodRound(Round(e, hidden), params);
  }

  lemma {:induction false} SameFlowHere(
    e: Expr, self: Option<SymId>, params: seq<SymId>, flat: set<SymId>, hidden: set<SymId>)
    requires Breaks(View(e)) && (self.Some? ==> Loops(e, self, params, flat, hidden))
    ensures TailFlow(e, flat, self, |params|) == Flow(e, flat)
  {
    hide Inlines, TrappedAccess, Fits, Unhidden;
    if IsSelf(e, self, |params|, flat) { SelfIsGood(e, self, params, flat, hidden); }
  }

  lemma {:induction false} SameFlowClauses(
    cs: List<Expr>, self: Option<SymId>, params: seq<SymId>, flat: set<SymId>, hidden: set<SymId>)
    requires self.Some? ==> LoopsClauses(cs, self, params, flat, hidden)
    ensures TailFlowClauses(cs, flat, self, |params|) == FlowClauses(cs, flat)
    decreases cs
  {
    hide GoodRounds;
    if cs.Cons? {
      GoodUnion(RoundsOfClauses(cs.tail, self, |params|, flat, hidden), {}, params);
      match cs.head {
        case App(Cons(t, Cons(v, Empty))) =>
          if self.Some? { LoopsClause(cs, t, v, self, params, flat, hidden); }
          SameFlowClauses(cs.tail, self, params, flat, hidden);
          SameFlow(v, self, params, Flow(t, FlowClauses(cs.tail, flat)), hidden);
        case _ => SameFlowClauses(cs.tail, self, params, flat, hidden);
      }
    }
  }

  lemma {:induction false} SameFlowLast(
    es: List<Expr>, self: Option<SymId>, params: seq<SymId>, flat: set<SymId>, hidden: set<SymId>)
    requires self.Some? ==> LoopsLast(es, self, params, flat, hidden)
    ensures TailFlowLast(es, flat, self, |params|) == FlowAll(es, flat)
    decreases es
  {
    hide GoodRounds;
    match es
    case Empty =>
    case Cons(e, Empty) =>
      SameFlow(e, self, params, flat, hidden);
      assert FlowAll(Empty, Flow(e, flat)) == Flow(e, flat);
    case Cons(e, rest) => SameFlowLast(rest, self, params, Flow(e, flat), hidden);
  }

  /** Forms without a tail position of their own. */
  predicate Breaks(form: Form)
  {
    !form.If? && !form.Let? && !form.Cond? && !form.Do? && !form.And? && !form.Or? && !form.Typed?
  }

  // ---- names and continuations of the parts of a form ----

  /** The continuations `gs` are used in `e` only as thaws. */
  ghost predicate Safe(e: Expr, gs: set<SymId>)
  {
    forall g :: g in gs ==> OnlyThawed(g, e, false)
  }

  ghost predicate SafeIn(es: List<Expr>, gs: set<SymId>)
  {
    forall g :: g in gs ==> OnlyThawedIn(g, es, false)
  }

  lemma {:induction false} EscapingIsAbsent(g: SymId, e: Expr)
    ensures OnlyThawed(g, e, true) <==> g !in Names(e)
    decreases e
  {
    if e.App? {
      EscapingIsAbsentIn(g, e.items);
      if e.items == Cons(Sym(K_THAW), Cons(Sym(g), Empty)) {
        assert g in Names(e.items.tail.head);
      }
    }
  }

  lemma {:induction false} EscapingIsAbsentIn(g: SymId, es: List<Expr>)
    ensures OnlyThawedIn(g, es, true) <==> g !in NamesOf(es)
    decreases es
  {
    if es.Cons? {
      EscapingIsAbsent(g, es.head);
      EscapingIsAbsentIn(g, es.tail);
    }
  }

  lemma {:induction false} AbsentIsOnlyThawed(g: SymId, e: Expr, escape: bool)
    requires g !in Names(e)
    ensures OnlyThawed(g, e, escape)
    decreases e
  {
    if e.App? {
      AbsentIsOnlyThawedIn(g, e.items, true);
      AbsentIsOnlyThawedIn(g, e.items, escape);
      if e.items == Cons(Sym(K_THAW), Cons(Sym(g), Empty)) {
        assert g in Names(e.items.tail.head);
      }
    }
  }

  lemma {:induction false} AbsentIsOnlyThawedIn(g: SymId, es: List<Expr>, escape: bool)
    requires g !in NamesOf(es)
    ensures OnlyThawedIn(g, es, escape)
    decreases es
  {
    if es.Cons? {
      AbsentIsOnlyThawed(g, es.head, escape);
      AbsentIsOnlyThawedIn(g, es.tail, escape);
    }
  }

  predicate NamesWithin(form: Form, ns: set<SymId>)
  {
    match form
    case Var(x) => x in ns
    case If(c, t, f) => Names(c) <= ns && Names(t) <= ns && Names(f) <= ns
    case Let(x, v, b) => x in ns && Names(v) <= ns && Names(b) <= ns
    case Cond(cs) => NamesOf(cs) <= ns
    case Do(es) => NamesOf(es) <= ns
    case And(a, b) => Names(a) <= ns && Names(b) <= ns
    case Or(a, b) => Names(a) <= ns && Names(b) <= ns
    case Lambda(x, b) => x in ns && Names(b) <= ns
    case Freeze(b) => Names(b) <= ns
    case Thaw(a) => Names(a) <= ns
    case Trap(b, h) => Names(b) <= ns && Names(h) <= ns
    case Typed(a) => Names(a) <= ns
    case Call(h, args) => h in ns && NamesOf(args) <= ns
    case Define(args) => NamesOf(args) <= ns
    case Apply(f, args) => Names(f) <= ns && NamesOf(args) <= ns
    case _ => true
  }

  lemma {:induction false} PartNames(e: Expr)
    ensures NamesWithin(View(e), Names(e))
  {
    if e.App? { NamesEach(e.items, Names(e)); }
  }

  predicate ThawedWithin(form: Form, g: SymId)
  {
    match form
    case Var(x) => x != g
    case If(c, t, f) => OnlyThawed(g, c, false) && OnlyThawed(g, t, false) && OnlyThawed(g, f, false)
    case Let(x, v, b) => x != g && OnlyThawed(g, v, false) && OnlyThawed(g, b, false)
    case Cond(cs) => OnlyThawedIn(g, cs, false)
    case Do(es) => OnlyThawedIn(g, es, false)
    case And(a, b) => OnlyThawed(g, a, false) && OnlyThawed(g, b, false)
    case Or(a, b) => OnlyThawed(g, a, false) && OnlyThawed(g, b, false)
    case Lambda(x, b) => x != g && g !in Names(b)
    case Freeze(b) => g !in Names(b)
    case Thaw(a) => a == Sym(g) || OnlyThawed(g, a, false)
    case Trap(b, h) => OnlyThawed(g, b, false) && OnlyThawed(g, h, false)
    case Typed(a) => OnlyThawed(g, a, false)
    case Call(h, args) => h != g && OnlyThawedIn(g, args, false)
    case Define(args) => OnlyThawedIn(g, args, false)
    case Apply(f, args) => OnlyThawed(g, f, false) && OnlyThawedIn(g, args, false)
    case _ => true
  }

  lemma {:induction false} PartThawed(g: SymId, e: Expr)
    requires OnlyThawed(g, e, false)
    ensures ThawedWithin(View(e), g)
  {
    if e.App? && e.items.Cons? && e.items != Cons(Sym(K_THAW), Cons(Sym(g), Empty)) {
      var nest := e.items.head in {Sym(K_LAMBDA), Sym(K_FREEZE)};
      OnlyThawedUnfolds(g, e.items, nest);
      if nest {
        EscapingIsAbsentIn(g, e.items);
        NamesEach(e.items, NamesOf(e.items) - {g});
      }
    }
  }

  predicate OnlyThawedEach(g: SymId, es: List<Expr>, escape: bool)
  {
    && (es.Cons? ==> OnlyThawed(g, es.head, escape) && OnlyThawedIn(g, es.tail, escape))
    && (es.Cons? && es.tail.Cons? ==>
          OnlyThawed(g, es.tail.head, escape) && OnlyThawedIn(g, es.tail.tail, escape))
    && (es.Cons? && es.tail.Cons? && es.tail.tail.Cons? ==>
          OnlyThawed(g, es.tail.tail.head, escape) && OnlyThawedIn(g, es.tail.tail.tail, escape))
    && (es.Cons? && es.tail.Cons? && es.tail.tail.Cons? && es.tail.tail.tail.Cons? ==>
          OnlyThawed(g, es.tail.tail.tail.head, escape))
  }

  lemma {:induction false} OnlyThawedUnfolds(g: SymId, es: List<Expr>, escape: bool)
    requires OnlyThawedIn(g, es, escape)
    ensures OnlyThawedEach(g, es, escape)
  {
    if es.Cons? && es.tail.Cons? && es.tail.tail.Cons? {
      assert OnlyThawedIn(g, es.tail.tail, escape);
      assert OnlyThawedIn(g, es.tail.tail.tail, escape);
    }
  }

  lemma {:induction false} NamesEach(es: List<Expr>, ns: set<SymId>)
    requires NamesOf(es) <= ns
    ensures es.Cons? ==> Names(es.head) <= ns && NamesOf(es.tail) <= ns
    ensures es.Cons? && es.tail.Cons? ==> Names(es.tail.head) <= ns && NamesOf(es.tail.tail) <= ns
    ensures es.Cons? && es.tail.Cons? && es.tail.tail.Cons? ==>
              Names(es.tail.tail.head) <= ns && NamesOf(es.tail.tail.tail) <= ns
    ensures es.Cons? && es.tail.Cons? && es.tail.tail.Cons? && es.tail.tail.tail.Cons? ==>
              Names(es.tail.tail.tail.head) <= ns
  {
  }

  ghost predicate SafeParts(form: Form, gs: set<SymId>)
  {
    forall g :: g in gs ==> ThawedWithin(form, g)
  }

  lemma {:induction false} PartsAreSafe(e: Expr, gs: set<SymId>)
    requires Safe(e, gs)
    ensures SafeParts(View(e), gs)
  {
    forall g | g in gs ensures ThawedWithin(View(e), g) { PartThawed(g, e); }
  }

  lemma {:induction false} AbsentIsSafe(e: Expr, gs: set<SymId>)
    requires Names(e) !! gs
    ensures Safe(e, gs)
  {
    forall g | g in gs ensures OnlyThawed(g, e, false) { AbsentIsOnlyThawed(g, e, false); }
  }

  /** Test and action of a clause; a clause is data here, not a call of its test. */
  lemma {:induction false} ClauseParts(t: Expr, v: Expr, rest: List<Expr>, gs: set<SymId>)
    requires SafeIn(Cons(App(Cons(t, Cons(v, Empty))), rest), gs)
    ensures SafeIn(rest, gs)
    ensures (!TakenForThaw(t, v, gs) || t.App? ==> Safe(t, gs)) && (!TakenForThaw(t, v, gs) || v.App? ==> Safe(v, gs))
  {
    var clause := App(Cons(t, Cons(v, Empty)));
    forall g | g in gs
      ensures OnlyThawedIn(g, rest, false)
      ensures !TakenForThaw(t, v, gs) ==> OnlyThawed(g, t, false) && OnlyThawed(g, v, false)
    {
      assert OnlyThawedIn(g, Cons(clause, rest), false);
      assert OnlyThawed(g, clause, false);
      if clause.items != Cons(Sym(K_THAW), Cons(Sym(g), Empty)) {
        OnlyThawedUnfolds(g, clause.items, t in {Sym(K_LAMBDA), Sym(K_FREEZE)});
        if t in {Sym(K_LAMBDA), Sym(K_FREEZE)} {
          EscapingIsAbsent(g, t);
          EscapingIsAbsent(g, v);
          AbsentIsOnlyThawed(g, t, false);
          AbsentIsOnlyThawed(g, v, false);
        }
      }
    }
  }

  /** The expression that a shortcut still has to compile is one of the operands; the other is an atom or `(fail)`. */
  lemma {:induction false} ShortcutParts(h: SymId, args: List<Expr>, flat: set<SymId>, gs: set<SymId>)
    requires SafeIn(args, gs)
    ensures var r := Classify(h, args, flat);
            r.WriteGlobal? || r.Compare? ==>
              Safe(r.v, gs) && Names(r.v) <= NamesOf(args) && FlowAll(args, flat) == Flow(r.v, flat)
  {
    NamesEach(args, NamesOf(args));
    if args.Cons? && args.tail.Cons? {
      forall g | g in gs ensures OnlyThawedEach(g, args, false) { OnlyThawedUnfolds(g, args, false); }
      var r := Classify(h, args, flat);
      if r.WriteGlobal? || r.Compare? {
        var a, b := args.head, args.tail.head;
        assert FlowAll(args, flat) == FlowAll(args.tail, Flow(a, flat)) == Flow(b, Flow(a, flat));
        if r.WriteGlobal? || ProbeFor(a, flat).Some? {
          LiteralFlow(a, flat);
        } else {
          LiteralFlow(b, Flow(a, flat));
          LiteralFlow(b, flat);
        }
      }
    }
  }

  lemma {:induction false} LiteralFlow(a: Expr, flat: set<SymId>)
    requires !a.App? || a == App(Cons(Sym(K_FAIL), Empty))
    ensures Flow(a, flat) == flat
  {
    if a.App? { assert View(a) == Call(K_FAIL, Empty); }
  }

  /** Operands and fallback of a trapped access. */
  lemma {:induction false} AccessParts(b: Expr, h: Expr, gs: set<SymId>)
    requires Safe(b, gs) && Safe(h, gs) && TrappedAccess(b, h).Some?
    ensures var a := TrappedAccess(b, h).value;
            && View(b) == Call(a.op, a.operands) && a.op in Names(b)
            && SafeIn(a.operands, gs) && NamesOf(a.operands) <= Names(b)
            && Names(a.fallback) !! gs && Names(a.fallback) <= Names(h)
            && View(h).x !in gs
  {
    var a := TrappedAccess(b, h).value;
    PartsAreSafe(b, gs);
    PartsAreSafe(h, gs);
    PartNames(b);
    PartNames(h);
    forall g | g in gs ensures OnlyThawedIn(g, a.operands, false) { assert ThawedWithin(View(b), g); }
    forall g | g in gs ensures g !in Names(a.fallback) && g != View(h).x { assert ThawedWithin(View(h), g); }
  }

  // ---- the generator's state ----

  /** The counter only moves up, the scope only loses names, and the rest stays. */
  predicate Steady(a: Cg, b: Cg)
  {
    a.counter <= b.counter && b.scope <= a.scope && b == a.(counter := b.counter, scope := b.scope)
  }

  /** Compiling moved the state from `a` to `b`, and the scope to `flat`. */
  predicate Moved(a: Cg, b: Cg, flat: set<SymId>)
  {
    Steady(a, b) && b.scope == flat
  }

  lemma {:induction false} SteadyE(e: Expr, st: Cg)
    requires (e.App? ==> Safe(e, st.thaws.Keys)) && CompileE(e, st).Emitted?
    ensures Moved(st, CompileE(e, st).st, Flow(e, st.scope))
    decreases e, 2
  {
    if e.App? {
      PartsAreSafe(e, st.thaws.Keys);
      match View(e)
      case If(_, _, _) => SteadyIf(e, st);
      case Let(_, _, _) => SteadyLet(e, st);
      case Cond(cs) => SteadyCond(cs, st);
      case Do(es) => SteadyDo(es, st);
      case And(a, b) => SteadyE(a, st); SteadyE(b, CompileE(a, st).st);
      case Or(a, b) => SteadyE(a, st); SteadyE(b, CompileE(a, st).st);
      case Lambda(x, b) => SteadyClosure(Some(x), b, st);
      case Freeze(b) => SteadyClosure(None, b, st);
      case Thaw(a) => if !(a.Sym? && a.id in st.thaws) { SteadyE(a, st); }
      case Trap(_, _) => SteadyTrap(e, st);
      case Typed(a) => SteadyE(a, st);
      case Call(h, args) => SteadyHead(h, args, st);
      case Define(args) => SteadyHead(K_DEFUN, args, st);
      case Apply(f, args) =>
        SteadyE(f, st);
        SteadyArgs(args, CompileE(f, st).st.Next());
      case _ =>
    }
  }

  lemma {:induction false} SteadyIf(e: Expr, st: Cg)
    requires View(e).If? && Safe(e, st.thaws.Keys) && CompileE(e, st).Emitted?
    ensures Moved(st, CompileE(e, st).st, Flow(e, st.scope))
    decreases e, 0
  {
    PartsAreSafe(e, st.thaws.Keys);
    var If(c, t, f) := View(e);
    SteadyE(c, st);
    SteadyE(t, CompileE(c, st).st);
    SteadyE(f, CompileE(t, CompileE(c, st).st).st);
  }

  lemma {:induction false} SteadyHead(h: SymId, args: List<Expr>, st: Cg)
    requires SafeIn(args, st.thaws.Keys) && CompileHead(h, args, st).Emitted?
    ensures Moved(st, CompileHead(h, args, st).st, FlowAll(args, st.scope))
    decreases args, 2
  {
    var short := Classify(h, args, st.scope);
    ShortcutParts(h, args, st.scope, st.thaws.Keys);
    if h in st.scope {
      SteadyArgs(args, st);
    } else if short.Plain? {
      assert CompileHead(h, args, st) == CompileCall(h, args, st);
      SteadyArgs(args, st);
    } else if short.ReadGlobal? {
      assert FlowAll(args, st.scope) == FlowAll(args.tail, Flow(args.head, st.scope));
    } else {
      SteadyE(short.v, st);
    }
  }

  /** The body of a continuation is not a closure: it is compiled in the scope around it. */
  lemma {:induction false} ProcIsSafe(e: Expr, gs: set<SymId>)
    requires View(e).Let? && Safe(e, gs)
    ensures var Let(x, v, b) := View(e);
            && x !in gs && Safe(v, gs) && Safe(b, gs)
            && (Inlines(x, v, b) ==>
                  Safe(View(v).body, gs) && Names(View(v).body) !! gs && Safe(b, gs + {x})
                  && x in Names(e) && Names(View(v).body) <= Names(e))
  {
    PartsAreSafe(e, gs);
    PartNames(e);
    var Let(x, v, b) := View(e);
    forall g | g in gs ensures g != x { assert ThawedWithin(View(e), g); }
    if Inlines(x, v, b) {
      PartsAreSafe(v, gs);
      PartNames(v);
      forall g | g in gs ensures g !in Names(View(v).body) { assert ThawedWithin(View(v), g); }
      AbsentIsSafe(View(v).body, gs);
    }
  }

  lemma {:induction false} SteadyLet(e: Expr, st: Cg)
    requires View(e).Let? && Safe(e, st.thaws.Keys) && CompileE(e, st).Emitted?
    ensures Moved(st, CompileE(e, st).st, Flow(e, st.scope))
    decreases e, 0
  {
    ProcIsSafe(e, st.thaws.Keys);
    var Let(x, v, b) := View(e);
    assert CompileE(e, st) == CompileApp(e, st);
    if Inlines(x, v, b) {
      var s1 := CompileE(View(v).body, st).st;
      SteadyE(View(v).body, st);
      assert EnterProc(s1, x).thaws.Keys == st.thaws.Keys + {x};
      SteadyE(b, EnterProc(s1, x));
      assert (st.thaws[x := s1.Fresh()]) - {x} == st.thaws;
    } else {
      SteadyE(v, st);
      SteadyE(b, CompileE(v, st).st.Bind(x));
    }
  }

  lemma {:induction false} SteadyClosure(param: Option<SymId>, b: Expr, st: Cg)
    requires Names(b) !! st.thaws.Keys && CompileClosure(param, b, st).Emitted?
    ensures Moved(st, CompileClosure(param, b, st).st, st.scope)
    decreases b, 3
  {
    AbsentIsSafe(b, st.thaws.Keys);
    SteadyE(b, Inside(param, b, st));
  }

  lemma {:induction false} SteadyTrap(e: Expr, st: Cg)
    requires View(e).Trap? && Safe(e, st.thaws.Keys) && CompileE(e, st).Emitted?
    ensures Moved(st, CompileE(e, st).st, Flow(e, st.scope))
    decreases e, 1
  {
    PartsAreSafe(e, st.thaws.Keys);
    var Trap(b, h) := View(e);
    assert CompileE(e, st) == CompileApp(e, st);
    match TrappedAccess(b, h)
    case None => SteadyTry(e, st);
    case Some(a) =>
      AccessParts(b, h, st.thaws.Keys);
      SteadyClosure(None, a.fallback, st);
      var thunk := CompileClosure(None, a.fallback, st);
      if Fits(a) {
        OperandsAreAtoms(a);
        AtomState(a.operands.head, thunk.st);
        if a.op != K_VALUE { AtomState(a.operands.tail.head, thunk.st); }
      } else {
        assert CompileE(e, st) == CompileTry(e, thunk.st);
        SteadyTry(e, thunk.st);
      }
  }

  lemma {:induction false} AtomState(e: Expr, st: Cg)
    requires !e.App?
    ensures CompileE(e, st).Emitted? && CompileE(e, st).st == st
  {
  }

  lemma {:induction false} OperandsAreAtoms(a: Access)
    requires Fits(a) && Atomic(a.operands)
    ensures !a.operands.head.App? && (a.op != K_VALUE ==> !a.operands.tail.head.App?)
  {
    assert Atomic(a.operands.tail);
  }

  lemma {:induction false} SteadyTry(e: Expr, st: Cg)
    requires View(e).Trap? && Safe(e, st.thaws.Keys) && CompileTry(e, st).Emitted?
    ensures Moved(st, CompileTry(e, st).st, Flow(View(e).handler, Flow(View(e).body, st.scope)))
    decreases e, 0
  {
    PartsAreSafe(e, st.thaws.Keys);
    SteadyE(View(e).body, st);
    SteadyE(View(e).handler, CompileE(View(e).body, st).st);
  }

  lemma {:induction false} SteadyArgs(es: List<Expr>, st: Cg)
    requires SafeIn(es, st.thaws.Keys) && BindArgs(es, st).Emitted?
    ensures Moved(st, BindArgs(es, st).st, FlowAll(es, st.scope))
    decreases es, 0
  {
    if es.Cons? {
      SteadyE(es.head, st);
      SteadyArgs(es.tail, CompileE(es.head, st).st.Next());
    }
  }

  lemma {:induction false} SteadyCond(cs: List<Expr>, st: Cg)
    requires SafeIn(cs, st.thaws.Keys) && CompileCond(cs, st).Emitted?
    ensures Moved(st, CompileCond(cs, st).st, FlowClauses(cs, st.scope))
    decreases cs, 0
  {
    match cs
    case Empty =>
    case Cons(App(Cons(t, Cons(v, Empty))), rest) =>
      ClauseParts(t, v, rest, st.thaws.Keys);
      SteadyCond(rest, st);
      SteadyE(t, CompileCond(rest, st).st);
      SteadyE(v, CompileE(t, CompileCond(rest, st).st).st);
    case _ =>
  }

  lemma {:induction false} SteadyDo(es: List<Expr>, st: Cg)
    requires SafeIn(es, st.thaws.Keys) && CompileDo(es, st).Emitted?
    ensures Moved(st, CompileDo(es, st).st, FlowAll(es, st.scope))
    decreases es, 0
  {
    if es.Cons? {
      SteadyE(es.head, st);
      if es.tail.Cons? { SteadyDo(es.tail, CompileE(es.head, st).st); }
    }
  }

  // ---- the same in tail position ----

  /** The arguments of what is taken for a call: those of `(thaw g)` are a single name. */
  lemma {:induction false} SelfArgs(e: Expr, st: Cg)
    requires SelfCall(e, st) && Safe(e, st.thaws.Keys)
    ensures SafeIn(e.items.tail, st.thaws.Keys)
            || (e.items.tail.Cons? && e.items.tail.tail.Empty? && !e.items.tail.head.App?)
  {
    var args := e.items.tail;
    if !(args.Cons? && args.tail.Empty? && !args.head.App?) {
      forall g | g in st.thaws.Keys ensures OnlyThawedIn(g, args, false) {
        var nest := e.items.head in {Sym(K_LAMBDA), Sym(K_FREEZE)};
        assert OnlyThawed(g, e, false) && OnlyThawedIn(g, e.items, nest);
        assert OnlyThawedIn(g, args, nest);
        if nest {
          EscapingIsAbsentIn(g, args);
          AbsentIsOnlyThawedIn(g, args, false);
        }
      }
    }
  }

  lemma {:induction false} AtomArg(a: Expr, st: Cg)
    requires !a.App?
    ensures BindArgs(Cons(a, Empty), st).Emitted? && Moved(st, BindArgs(Cons(a, Empty), st).st, st.scope)
    ensures FlowAll(Cons(a, Empty), st.scope) == st.scope
  {
    AtomState(a, st);
    LiteralFlow(a, st.scope);
    assert FlowAll(Empty, st.scope) == st.scope;
    assert BindArgs(Empty, st.Next()).Emitted?;
  }

  lemma {:induction false} SteadyTail(e: Expr, st: Cg)
    requires (e.App? ==> Safe(e, st.thaws.Keys)) && CompileTail(e, st).Emitted?
    ensures Moved(st, CompileTail(e, st).st, TailFlow(e, st.scope, st.self, |st.params|))
    decreases e, 2
  {
    hide CompileE, BindArgs, Inlines;
    if SelfCall(e, st) {
      SteadySelf(e, st);
    } else if e.App? {
      PartsAreSafe(e, st.thaws.Keys);
      assert CompileTail(e, st) == CompileTailApp(e, st);
      match View(e)
      case If(c, t, f) =>
        SteadyE(c, st);
        SteadyTail(t, CompileE(c, st).st.Next());
        SteadyTail(f, CompileTail(t, CompileE(c, st).st.Next()).st);
      case Let(_, _, _) => SteadyTailLet(e, st);
      case Cond(cs) => SteadyTailCond(cs, st);
      case Do(es) => SteadyTailDo(es, st);
      case And(a, b) => SteadyE(a, st); SteadyTail(b, CompileE(a, st).st.Next());
      case Or(a, b) => SteadyE(a, st); SteadyTail(b, CompileE(a, st).st.Next());
      case Typed(a) => SteadyTail(a, st);
      case _ => SteadyE(e, st);
    } else {
      SteadyE(e, st);
    }
  }

  lemma {:induction false} SteadySelf(e: Expr, st: Cg)
    requires SelfCall(e, st) && Safe(e, st.thaws.Keys) && CompileTail(e, st).Emitted?
    ensures Moved(st, CompileTail(e, st).st, TailFlow(e, st.scope, st.self, |st.params|))
  {
    SelfArgs(e, st);
    assert CompileTail(e, st) == CompileTailApp(e, st);
    if SafeIn(e.items.tail, st.thaws.Keys) { SteadyArgs(e.items.tail, st); } else { AtomArg(e.items.tail.head, st); }
  }

  lemma {:induction false} SteadyTailLet(e: Expr, st: Cg)
    requires View(e).Let? && Safe(e, st.thaws.Keys) && CompileTail(e, st).Emitted?
    ensures Moved(st, CompileTail(e, st).st, TailFlow(e, st.scope, st.self, |st.params|))
    decreases e, 0
  {
    ProcIsSafe(e, st.thaws.Keys);
    var Let(x, v, b) := View(e);
    assert CompileTail(e, st) == CompileTailApp(e, st);
    if Inlines(x, v, b) {
      var s1 := CompileE(View(v).body, st).st;
      SteadyE(View(v).body, st);
      assert EnterProc(s1, x).thaws.Keys == st.thaws.Keys + {x};
      SteadyTail(b, EnterProc(s1, x));
      assert (st.thaws[x := s1.Fresh()]) - {x} == st.thaws;
    } else {
      SteadyE(v, st);
      SteadyTail(b, CompileE(v, st).st.Bind(x));
    }
  }

  lemma {:induction false} SteadyTailCond(cs: List<Expr>, st: Cg)
    requires SafeIn(cs, st.thaws.Keys) && CompileTailCond(cs, st).Emitted?
    ensures Moved(st, CompileTailCond(cs, st).st, TailFlowClauses(cs, st.scope, st.self, |st.params|))
    decreases cs, 0
  {
    match cs
    case Empty =>
    case Cons(App(Cons(t, Cons(v, Empty))), rest) =>
      ClauseParts(t, v, rest, st.thaws.Keys);
      SteadyTailCond(rest, st);
      SteadyE(t, CompileTailCond(rest, st).st);
      SteadyTail(v, CompileE(t, CompileTailCond(rest, st).st).st);
    case _ =>
  }

  lemma {:induction false} SteadyTailDo(es: List<Expr>, st: Cg)
    requires SafeIn(es, st.thaws.Keys) && CompileTailDo(es, st).Emitted?
    ensures Moved(st, CompileTailDo(es, st).st, TailFlowLast(es, st.scope, st.self, |st.params|))
    decreases es, 0
  {
    if es.Cons? {
      if es.tail.Cons? {
        SteadyE(es.head, st);
        SteadyTailDo(es.tail, CompileE(es.head, st).st);
      } else {
        SteadyTail(es.head, st);
      }
    }
  }
}
