/** A compiled file is a program that the simulation speaks of. */
module Linking {
  import opened Lists
  import opened Kl
  import opened Machine
  import R = RustIr
  import opened KlEval
  import opened RustRun
  import opened Codegen
  import opened CodegenState
  import opened Acceptance
  import opened Driver
  import opened Simulation

  function DefOf(t: Top): Def
  {
    Def(t.params, t.body)
  }

  /** What becomes of a definition, whatever is compiled around it. */
  function Outcome(t: Top): Verdict
  {
    Judge(t.body, ParamsOf(DefOf(t)), Some(t.name), |t.params|)
  }

  /** The definition that the `i`-th form contributes to the compiled program, if it does. */
  function Contributes(forms: seq<Expr>, i: nat, skip: SkipPolicy): Option<Top>
    requires i < |forms|
  {
    if !Wanted(forms, i, skip) then None
    else match TopOf(forms[i])
         case Some(t) => if Outcome(t).Compiles? then Some(t) else None
         case None => None
  }

  /** The definitions that are compiled, from the `i`-th form on, in the order of the file. */
  function Accepted(forms: seq<Expr>, i: nat, skip: SkipPolicy): seq<Top>
    requires i <= |forms|
    decreases |forms| - i
  {
    if i == |forms| then []
    else match Contributes(forms, i, skip)
         case Some(t) => [t] + Accepted(forms, i + 1, skip)
         case None => Accepted(forms, i + 1, skip)
  }

  /**
   A form that is left out, or compiled right, or rejected outside of every inlined continuation.
   */
  predicate WfForm(forms: seq<Expr>, i: nat, skip: SkipPolicy)
    requires i < |forms|
  {
    Wanted(forms, i, skip) && TopOf(forms[i]).Some? ==>
      var t := TopOf(forms[i]).value;
      if Outcome(t).Compiles? then WfDef(t.name, DefOf(t)) else Outcome(t) == Stops({})
  }

  predicate WfFile(forms: seq<Expr>, skip: SkipPolicy, prims: map<SymId, Prim>)
  {
    && Standard(prims)
    && (forall i :: 0 <= i < |forms| ==> WfForm(forms, i, skip))
    && forall t :: t in Accepted(forms, 0, skip) ==> t.name !in prims
  }

  /** The program that is compiled: the accepted definitions over the primitives. */
  function Program(forms: seq<Expr>, skip: SkipPolicy, prims: map<SymId, Prim>): Prog
  {
    Prog(prims, DefsOf(Accepted(forms, 0, skip)))
  }

  function DefsOf(ts: seq<Top>): map<SymId, Def>
  {
    if ts == [] then map[] else DefsOf(ts[1..])[ts[0].name := DefOf(ts[0])]
  }

  /** The compiled functions, linked with the primitives. */
  function Link(fns: seq<R.RFn>, prims: map<SymId, Prim>): RProg
  {
    RProg(prims, FnsOf(fns))
  }

  function FnsOf(fns: seq<R.RFn>): map<SymId, R.RFn>
  {
    if fns == [] then map[] else FnsOf(fns[1..])[fns[0].name := fns[0]]
  }

  ghost predicate CompiledFrom(t: Top, fn: R.RFn)
  {
    fn.name == t.name && exists k: nat :: CompilesTo(t.name, DefOf(t), k, fn)
  }

  ghost predicate CompiledAll(ts: seq<Top>, fns: seq<R.RFn>)
  {
    |ts| == |fns| && forall i :: 0 <= i < |ts| ==> CompiledFrom(ts[i], fns[i])
  }

  /** One definition, compiled with an empty table of continuations. */
  lemma {:induction false} TopFollows(t: Top, st: Cg)
    requires st.thaws == map[]
    ensures Follows(CompileTail(t.body, Entering(t, st)), Entering(t, st), Outcome(t))
    ensures CompileTail(t.body, Entering(t, st)).Emitted? ==>
              && CompileTail(t.body, Entering(t, st)).st.thaws == map[]
              && CompilesTo(t.name, DefOf(t), st.counter,
                            R.RFn(t.name, t.params, CompileTail(t.body, Entering(t, st)).code))
  {
    var s0 := Entering(t, st);
    assert s0 == AtEntry(t.name, t.params, st.counter);
    assert s0.thaws.Keys == {} && s0.scope == ParamsOf(DefOf(t));
    JudgeTail(t.body, s0);
    if CompileTail(t.body, s0).Emitted? { SteadyTail(t.body, s0); }
  }

  /** The driver compiles what is accepted, in order, whatever it rejects on the way. */
  lemma {:induction false} FormsCompile(forms: seq<Expr>, i: nat, skip: SkipPolicy, st: Cg)
    requires i <= |forms| && st.thaws == map[] && forall j :: i <= j < |forms| ==> WfForm(forms, j, skip)
    ensures CompiledAll(Accepted(forms, i, skip), CompileForms(forms, i, skip, st))
    decreases |forms| - i
  {
    hide CompileTail, CompiledFrom, WfDef, Judge;
    if i < |forms| {
      assert WfForm(forms, i, skip);
      if !Wanted(forms, i, skip) || TopOf(forms[i]).None? {
        FormsCompile(forms, i + 1, skip, st);
      } else {
        var t := TopOf(forms[i]).value;
        TopFollows(t, st);
        match CompileTail(t.body, Entering(t, st))
        case Emitted(s, s1) =>
          FormsCompile(forms, i + 1, skip, Between(s1));
          assert CompiledFrom(t, R.RFn(t.name, t.params, s)) by { FromTop(t, R.RFn(t.name, t.params, s), st.counter); }
        case Rejected(at) =>
          assert at.thaws == map[];
          FormsCompile(forms, i + 1, skip, Between(at));
      }
    }
  }

  lemma {:induction false} FromTop(t: Top, fn: R.RFn, k: nat)
    requires fn.name == t.name && CompilesTo(t.name, DefOf(t), k, fn)
    ensures CompiledFrom(t, fn)
  {
    hide CompilesTo;
  }

  /** The compiled names and their definitions go together. */
  lemma {:induction false} SameTables(ts: seq<Top>, fns: seq<R.RFn>)
    requires CompiledAll(ts, fns)
    ensures DefsOf(ts).Keys == FnsOf(fns).Keys
    ensures forall f :: f in DefsOf(ts) ==>
              exists i :: 0 <= i < |ts| && ts[i].name == f && DefsOf(ts)[f] == DefOf(ts[i]) && FnsOf(fns)[f] == fns[i]
  {
    hide CompilesTo;
    if ts != [] {
      assert CompiledFrom(ts[0], fns[0]);
      assert CompiledAll(ts[1..], fns[1..]) by {
        forall i | 0 <= i < |ts| - 1 ensures CompiledFrom(ts[1..][i], fns[1..][i]) {
          assert CompiledFrom(ts[i + 1], fns[i + 1]);
        }
      }
      SameTables(ts[1..], fns[1..]);
      forall f | f in DefsOf(ts)
        ensures exists i :: 0 <= i < |ts| && ts[i].name == f && DefsOf(ts)[f] == DefOf(ts[i]) && FnsOf(fns)[f] == fns[i]
      {
        if f == ts[0].name {
          assert ts[0].name == f && DefsOf(ts)[f] == DefOf(ts[0]) && FnsOf(fns)[f] == fns[0];
        } else {
          var i :| 0 <= i < |ts[1..]| && ts[1..][i].name == f
                   && DefsOf(ts[1..])[f] == DefOf(ts[1..][i]) && FnsOf(fns[1..])[f] == fns[1..][i];
          assert ts[i + 1].name == f && DefsOf(ts)[f] == DefOf(ts[i + 1]) && FnsOf(fns)[f] == fns[i + 1];
        }
      }
    }
  }

  lemma {:induction false} AcceptedAreWf(forms: seq<Expr>, i: nat, skip: SkipPolicy)
    requires i <= |forms| && forall j :: i <= j < |forms| ==> WfForm(forms, j, skip)
    ensures forall t :: t in Accepted(forms, i, skip) ==> WfDef(t.name, DefOf(t))
    decreases |forms| - i
  {
    hide WfDef, Judge;
    if i < |forms| {
      assert WfForm(forms, i, skip);
      AcceptedAreWf(forms, i + 1, skip);
    }
  }

  /** Compiling a file gives code that the simulation speaks of. */
  lemma {:induction false} CompileLinks(forms: seq<Expr>, skip: SkipPolicy, prims: map<SymId, Prim>)
    requires WfFile(forms, skip, prims)
    ensures Linked(Program(forms, skip, prims), Link(CompileForms(forms, 0, skip, Start()), prims))
  {
    hide Standard, WfForm, CompilesTo, WfDef;
    var ts, fns := Accepted(forms, 0, skip), CompileForms(forms, 0, skip, Start());
    var p, q := Program(forms, skip, prims), Link(fns, prims);
    FormsCompile(forms, 0, skip, Start());
    SameTables(ts, fns);
    AcceptedAreWf(forms, 0, skip);
    forall f | f in p.defs ensures FnOf(f, p.defs[f], q.fns[f]) && f !in prims {
      var i :| 0 <= i < |ts| && ts[i].name == f && DefsOf(ts)[f] == DefOf(ts[i]) && FnsOf(fns)[f] == fns[i];
      assert ts[i] in ts && CompiledFrom(ts[i], fns[i]);
    }
  }

  lemma {:induction false} CompiledParams(t: Top, fn: R.RFn)
    requires CompiledFrom(t, fn)
    ensures fn.name == t.name && fn.params == t.params
  {
    hide CompileTail;
  }

  /** The functions are those of the accepted definitions, in the order of the file. */
  lemma {:induction false} CompiledInOrder(forms: seq<Expr>, skip: SkipPolicy, prims: map<SymId, Prim>)
    requires WfFile(forms, skip, prims)
    ensures var ts, fns := Accepted(forms, 0, skip), CompileForms(forms, 0, skip, Start());
            |fns| == |ts| && forall i :: 0 <= i < |ts| ==> fns[i].name == ts[i].name && fns[i].params == ts[i].params
  {
    hide WfForm, CompileTail, CompiledFrom;
    FormsCompile(forms, 0, skip, Start());
    var ts, fns := Accepted(forms, 0, skip), CompileForms(forms, 0, skip, Start());
    forall i | 0 <= i < |ts| ensures fns[i].name == ts[i].name && fns[i].params == ts[i].params {
      CompiledParams(ts[i], fns[i]);
    }
  }

  lemma {:induction false} AcceptedFrom(forms: seq<Expr>, i: nat, skip: SkipPolicy, t: Top)
    requires i <= |forms| && t in Accepted(forms, i, skip)
    ensures exists j :: i <= j < |forms| && Contributes(forms, j, skip) == Some(t)
    decreases |forms| - i
  {
    hide Contributes;
    if Contributes(forms, i, skip) != Some(t) { AcceptedFrom(forms, i + 1, skip, t); }
  }

  lemma {:induction false} LastAccepted(ts: seq<Top>, f: SymId)
    requires f in DefsOf(ts)
    ensures exists t :: t in ts && t.name == f && DefsOf(ts)[f] == DefOf(t)
  {
    if f == ts[0].name {
      assert ts[0] in ts;
    } else {
      LastAccepted(ts[1..], f);
      var t :| t in ts[1..] && t.name == f && DefsOf(ts[1..])[f] == DefOf(t);
      assert t in ts;
    }
  }

  /** Of several definitions of a name only the last is compiled. */
  lemma {:induction false} LastWins(forms: seq<Expr>, skip: SkipPolicy, prims: map<SymId, Prim>, f: SymId)
    requires f in Program(forms, skip, prims).defs
    ensures exists j :: && 0 <= j < |forms| && IsLast(forms, j) && DefunName(forms[j]) == Some(f)
                        && TopOf(forms[j]).Some?
                        && Program(forms, skip, prims).defs[f] == DefOf(TopOf(forms[j]).value)
  {
    hide Judge, Params, BodySize;
    var ts := Accepted(forms, 0, skip);
    LastAccepted(ts, f);
    var t :| t in ts && t.name == f && DefsOf(ts)[f] == DefOf(t);
    AcceptedFrom(forms, 0, skip, t);
    var j :| 0 <= j < |forms| && Contributes(forms, j, skip) == Some(t);
    assert TopOf(forms[j]) == Some(t);
  }
}
