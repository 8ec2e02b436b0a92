/** What the simulation means for whole programs. */
module Correctness {
  import opened Lists
  import opened Kl
  import opened Machine
  import R = RustIr
  import opened KlEval
  import opened RustRun
  import opened Codegen
  import opened CodegenState
  import opened Related
  import opened Simulation
  import opened SimSteps
  import opened TrapSteps
  import opened TailSteps
  import opened SimExpr
  import opened Driver
  import opened Linking
  import opened Fuel
  import opened RustFuel
  import Compiler

  /** The one form of a boolean that stands for both. */
  function Norm(v: Value): Value
  {
    if TruthOf(v).Some? then VBool(TruthOf(v).value)
    else match v
         case VCons(h, t) => VCons(Norm(h), Norm(t))
         case _ => v
  }

  lemma {:induction false} FirstOrderRel(v: Value)
    requires FirstOrder(v)
    ensures Rel(v, v)
  {
    if v.VCons? {
      FirstOrderRel(v.hd);
      FirstOrderRel(v.tl);
    }
  }

  /** On first-order data the relation is equality up to the two forms of booleans, and no more. */
  lemma {:induction false} RelIsNorm(v: Value, u: Value)
    requires FirstOrder(v)
    ensures Rel(v, u) <==> Norm(v) == Norm(u)
    decreases v
  {
    hide CodeOf;
    if TruthOf(v).None? && TruthOf(u).None? && v.VCons? && u.VCons? {
      RelIsNorm(v.hd, u.hd);
      RelIsNorm(v.tl, u.tl);
    }
  }

  /** A state that a program starts from: nothing in it is a closure, and nothing has happened yet. */
  predicate FirstOrderWorld(w: World)
  {
    FirstOrderState(w) && w.trace == []
  }

  lemma {:induction false} FirstOrderWorldRel(w: World)
    requires FirstOrderWorld(w)
    ensures WRel(w, w)
  {
    hide Rel;
    forall k | k in w.globals ensures Rel(w.globals[k], w.globals[k]) { FirstOrderRel(w.globals[k]); }
    forall i | 0 <= i < |w.vecs| ensures RelAll(w.vecs[i], w.vecs[i]) { FirstOrderAllRel(w.vecs[i]); }
  }

  lemma {:induction false} FirstOrderAllRel(vs: seq<Value>)
    requires AllFirstOrder(vs)
    ensures RelAll(vs, vs)
  {
    hide Rel;
    forall i | 0 <= i < |vs| ensures Rel(vs[i], vs[i]) { FirstOrderRel(vs[i]); }
  }

  /** The same value as far as the two engines can show it: their closures differ. */
  predicate SameValue(v: Value, u: Value)
  {
    FirstOrder(v) ==> Norm(v) == Norm(u)
  }

  predicate SameValues(vs: seq<Value>, us: seq<Value>)
  {
    |vs| == |us| && forall i :: 0 <= i < |vs| ==> SameValue(vs[i], us[i])
  }

  /** The same write, new absvector or call. */
  predicate SameEvent(a: Event, b: Event)
  {
    match a
    case SetGlobal(id, v) => b.SetGlobal? && b.id == id && SameValue(v, b.v)
    case SetCell(r, i, v) => b.SetCell? && b.ref == r && b.i == i && SameValue(v, b.v)
    case MadeVec(cells) => b.MadeVec? && SameValues(cells, b.cells)
    case Called(f, vs) => b.Called? && b.f == f && SameValues(vs, b.args)
  }

  predicate SameTrace(a: seq<Event>, b: seq<Event>)
  {
    |a| == |b| && forall i :: 0 <= i < |a| ==> SameEvent(a[i], b[i])
  }

  /** The same globals and absvectors. */
  predicate SameState(w: World, z: World)
  {
    && w.globals.Keys == z.globals.Keys && (forall k :: k in w.globals ==> SameValue(w.globals[k], z.globals[k]))
    && |w.vecs| == |z.vecs| && forall i :: 0 <= i < |w.vecs| ==> SameValues(w.vecs[i], z.vecs[i])
  }

  predicate SameOutcome(a: Out, b: Out)
  {
    match a
    case Ok(v) => b.Ok? && SameValue(v, b.v)
    case _ => a == b
  }

  /** The two engines end alike, having done the same in the same order and left the same behind. */
  predicate SameEnd(r: Res, s: Res)
  {
    SameOutcome(r.out, s.out) && SameTrace(r.w.trace, s.w.trace) && SameState(r.w, s.w)
  }

  lemma {:induction false} RelatedValues(vs: seq<Value>, us: seq<Value>)
    requires RelAll(vs, us)
    ensures SameValues(vs, us)
  {
    hide Rel, Norm;
    forall i | 0 <= i < |vs| && FirstOrder(vs[i]) ensures Norm(vs[i]) == Norm(us[i]) { RelIsNorm(vs[i], us[i]); }
  }

  lemma {:induction false} RelatedEvents(a: Event, b: Event)
    requires EventRel(a, b)
    ensures SameEvent(a, b)
  {
    hide Rel, Norm, RelAll;
    match a
    case Called(_, vs) => RelatedValues(vs, b.args);
    case MadeVec(cells) => RelatedValues(cells, b.cells);
    case _ => if FirstOrder(a.v) { RelIsNorm(a.v, b.v); }
  }

  lemma {:induction false} AgreeIsSame(r: Res, s: Res)
    requires Agree(r, s) && !r.w.drift
    ensures SameEnd(r, s)
  {
    hide Rel, Norm, RelAll;
    if r.out.Ok? && FirstOrder(r.out.v) { RelIsNorm(r.out.v, s.out.v); }
    forall i | 0 <= i < |r.w.trace| ensures SameEvent(r.w.trace[i], s.w.trace[i]) {
      RelatedEvents(r.w.trace[i], s.w.trace[i]);
    }
    forall k | k in r.w.globals && FirstOrder(r.w.globals[k]) ensures Norm(r.w.globals[k]) == Norm(s.w.globals[k]) {
      RelIsNorm(r.w.globals[k], s.w.globals[k]);
    }
    forall i | 0 <= i < |r.w.vecs| ensures SameValues(r.w.vecs[i], s.w.vecs[i]) {
      RelatedValues(r.w.vecs[i], s.w.vecs[i]);
    }
  }

  /**
   Compiled programs do what the evaluator does. Any call of any defun or primitive, on any
   first-order arguments and globals, whatever the fuel: both return, raise the same error or run
   on, with the same writes in the same order.
   */
  lemma {:induction false} CallsAgree(n: nat, p: Prog, q: RProg, f: SymId, vs: seq<Value>, w: World)
    requires Linked(p, q) && Defined(p, f) && AllFirstOrder(vs) && FirstOrderWorld(w)
    requires !CallNamed(n, p, f, vs, w).w.drift
    ensures var r, s := CallNamed(n, p, f, vs, w), CallCode(n, q, f, vs, w);
            SameEnd(r, s)
  {
    hide Linked, CallNamed, CallCode, Rel, WRel, RelAll;
    FirstOrderAllRel(vs);
    FirstOrderWorldRel(w);
    SimNamed(n, p, q, f, vs, vs, w, w);
    AgreeIsSame(CallNamed(n, p, f, vs, w), CallCode(n, q, f, vs, w));
  }

  ghost function Compiled(forms: seq<Expr>, skip: SkipPolicy, prims: map<SymId, Prim>): RProg
  {
    Link(CompileForms(forms, 0, skip, Start()), prims)
  }

  /** The same for a file that is compiled here: no condition on the compiled side is left. */
  lemma {:induction false} CompilerCorrect(
    n: nat, forms: seq<Expr>, skip: SkipPolicy, prims: map<SymId, Prim>, f: SymId, vs: seq<Value>, w: World)
    requires WfFile(forms, skip, prims) && Defined(Program(forms, skip, prims), f)
    requires AllFirstOrder(vs) && FirstOrderWorld(w) && !CallNamed(n, Program(forms, skip, prims), f, vs, w).w.drift
    ensures var r := CallNamed(n, Program(forms, skip, prims), f, vs, w);
            var s := CallCode(n, Compiled(forms, skip, prims), f, vs, w);
            SameEnd(r, s)
  {
    hide WfFile, Program, Linked, CallNamed, CallCode, AllFirstOrder, FirstOrderWorld, CompileForms, Link, Defined;
    hide SameEnd;
    CompileLinks(forms, skip, prims);
    CallsAgree(n, Program(forms, skip, prims), Compiled(forms, skip, prims), f, vs, w);
  }

  /** And the compiler itself, run on the file, gives that code. */
  method CompileFile(forms: seq<Expr>, skip: SkipPolicy, prims: map<SymId, Prim>) returns (q: RProg)
    requires WfFile(forms, skip, prims)
    ensures q == Compiled(forms, skip, prims) && Linked(Program(forms, skip, prims), q)
  {
    var fns := Compiler.CompileKl(forms, skip);
    q := Link(fns, prims);
    CompileLinks(forms, skip, prims);
  }

  // ---- without fuel ----

  /** The evaluator ends with `r`. */
  ghost predicate Returns(p: Prog, f: SymId, vs: seq<Value>, w: World, r: Res)
    requires Defined(p, f)
  {
    !r.out.Timeout? && exists n: nat :: CallNamed(n, p, f, vs, w) == r
  }

  /** Compiled code ends with `s`. */
  ghost predicate Ends(q: RProg, f: SymId, vs: seq<Value>, w: World, s: Res)
  {
    !s.out.Timeout? && exists n: nat :: CallCode(n, q, f, vs, w) == s
  }

  lemma {:induction false} ReturnsOnce(p: Prog, f: SymId, vs: seq<Value>, w: World, r: Res, r': Res)
    requires Defined(p, f) && Returns(p, f, vs, w, r) && Returns(p, f, vs, w, r')
    ensures r == r'
  {
    hide CallNamed;
    var n: nat :| CallNamed(n, p, f, vs, w) == r;
    var m: nat :| CallNamed(m, p, f, vs, w) == r';
    if n <= m { MoreNamed(n, m, p, f, vs, w); } else { MoreNamed(m, n, p, f, vs, w); }
  }

  lemma {:induction false} EndsOnce(q: RProg, f: SymId, vs: seq<Value>, w: World, s: Res, s': Res)
    requires Ends(q, f, vs, w, s) && Ends(q, f, vs, w, s')
    ensures s == s'
  {
    hide CallCode;
    var n: nat :| CallCode(n, q, f, vs, w) == s;
    var m: nat :| CallCode(m, q, f, vs, w) == s';
    if n <= m { MoreCode(n, m, q, f, vs, w); } else { MoreCode(m, n, q, f, vs, w); }
  }

  ghost predicate NeverDrifts(p: Prog, f: SymId, vs: seq<Value>, w: World)
    requires Defined(p, f)
  {
    forall n: nat :: !CallNamed(n, p, f, vs, w).w.drift
  }

  ghost predicate Comes(p: Prog, f: SymId, vs: seq<Value>, w: World)
    requires Defined(p, f)
  {
    exists r :: Returns(p, f, vs, w, r)
  }

  ghost predicate CodeComes(q: RProg, f: SymId, vs: seq<Value>, w: World)
  {
    exists s :: Ends(q, f, vs, w, s)
  }

  /** A call whose evaluation never drifts ends in compiled code exactly if it ends in the evaluator. */
  lemma {:induction false} EndsAlike(p: Prog, q: RProg, f: SymId, vs: seq<Value>, w: World)
    requires Linked(p, q) && Defined(p, f) && AllFirstOrder(vs) && FirstOrderWorld(w)
    requires NeverDrifts(p, f, vs, w)
    ensures Comes(p, f, vs, w) <==> CodeComes(q, f, vs, w)
  {
    hide CallNamed, CallCode, Linked;
    if r :| Returns(p, f, vs, w, r) {
      var n: nat :| CallNamed(n, p, f, vs, w) == r;
      CallsAgree(n, p, q, f, vs, w);
      assert Ends(q, f, vs, w, CallCode(n, q, f, vs, w));
    }
    if s :| Ends(q, f, vs, w, s) {
      var n: nat :| CallCode(n, q, f, vs, w) == s;
      CallsAgree(n, p, q, f, vs, w);
      assert Returns(p, f, vs, w, CallNamed(n, p, f, vs, w));
    }
  }

  /** And then, however either got there, with the same answer, the same writes and the same state. */
  lemma {:induction false} SameAnswer(p: Prog, q: RProg, f: SymId, vs: seq<Value>, w: World, r: Res, s: Res)
    requires Linked(p, q) && Defined(p, f) && AllFirstOrder(vs) && FirstOrderWorld(w)
    requires Returns(p, f, vs, w, r) && !r.w.drift && Ends(q, f, vs, w, s)
    ensures SameEnd(r, s)
  {
    hide CallNamed, CallCode, Linked;
    var n: nat :| CallNamed(n, p, f, vs, w) == r;
    CallsAgree(n, p, q, f, vs, w);
    EndsOnce(q, f, vs, w, s, CallCode(n, q, f, vs, w));
  }

  /** The loop of a self-recursive defun returns what the recursion returns, after any number of rounds. */
  lemma {:induction false} LoopIsRecursion(n: nat, p: Prog, q: RProg, f: SymId, vs: seq<Value>, w: World)
    requires Linked(p, q) && f in p.defs && |vs| == |p.defs[f].params|
    requires AllFirstOrder(vs) && FirstOrderWorld(w)
    requires !Eval(n, p, p.defs[f].body, Frame(p.defs[f].params, vs), w, true).w.drift
    ensures f in q.fns && |q.fns[f].params| == |vs|
    ensures var r := Eval(n, p, p.defs[f].body, Frame(p.defs[f].params, vs), w, true);
            var s := RunLoop(n, q, q.fns[f], RFrame(q.fns[f].params, vs), w);
            SameEnd(r, s)
  {
    hide Linked, Eval, RunLoop, Rel, WRel, RelAll, WfDef, CompileTail;
    FirstOrderAllRel(vs);
    FirstOrderWorldRel(w);
    var k := LinkedFn(p, q, f);
    SimFn(n, p, q, f, vs, vs, w, w);
    AgreeIsSame(Eval(n, p, p.defs[f].body, Frame(p.defs[f].params, vs), w, true),
                RunLoop(n, q, q.fns[f], RFrame(q.fns[f].params, vs), w));
  }
}
