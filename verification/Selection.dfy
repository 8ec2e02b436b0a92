/** Which definitions of a file are compiled, told without the driver's own tests. */
module Selection {
  import opened Lists
  import opened Kl
  import opened Machine
  import R = RustIr
  import opened Codegen
  import opened Acceptance
  import opened Driver
  import opened Simulation
  import opened Linking

  // ---- the nodes of an expression ----

  /** Where the nodes are: each path says which item to go to, from the root down. */
  function Paths(e: Expr): set<seq<nat>>
  {
    match e case App(items) => {[]} + PathsFrom(items, 0) case _ => {[]}
  }

  /** The paths into a list of items of which the first has number `i`. */
  function PathsFrom(es: List<Expr>, i: nat): set<seq<nat>>
  {
    match es
    case Empty => {}
    case Cons(e, rest) => Behind(i, Paths(e)) + PathsFrom(rest, i + 1)
  }

  function Behind(i: nat, ps: set<seq<nat>>): set<seq<nat>>
  {
    set p | p in ps :: [i] + p
  }

  lemma {:induction false} BehindCount(i: nat, ps: set<seq<nat>>)
    ensures |Behind(i, ps)| == |ps|
    decreases |ps|
  {
    if ps != {} {
      var p :| p in ps;
      var rest := ps - {p};
      BehindCount(i, rest);
      forall q | q in rest ensures [i] + q != [i] + p { assert ([i] + q)[1..] == q && ([i] + p)[1..] == p; }
      assert [i] + p !in Behind(i, rest);
      assert Behind(i, ps) == Behind(i, rest) + {[i] + p};
    } else {
      assert Behind(i, ps) == {};
    }
  }

  lemma {:induction false} PathsStart(es: List<Expr>, i: nat)
    ensures forall p :: p in PathsFrom(es, i) ==> p != [] && p[0] >= i
  {
    if es.Cons? { PathsStart(es.tail, i + 1); }
  }

  /** The size that the budget is about is the number of nodes. */
  lemma {:induction false} SizeCounts(e: Expr)
    ensures Size(e) == |Paths(e)|
    decreases e
  {
    if e.App? {
      SizesCount(e.items, 0);
      PathsStart(e.items, 0);
      assert [] !in PathsFrom(e.items, 0);
    }
  }

  lemma {:induction false} SizesCount(es: List<Expr>, i: nat)
    ensures SizeAll(es) == |PathsFrom(es, i)|
    decreases es
  {
    if es.Cons? {
      SizeCounts(es.head);
      SizesCount(es.tail, i + 1);
      BehindCount(i, Paths(es.head));
      PathsStart(es.tail, i + 1);
      assert Behind(i, Paths(es.head)) !! PathsFrom(es.tail, i + 1);
    }
  }

  // ---- parameter lists ----

  function SymbolList(xs: seq<SymId>): List<Expr>
  {
    if xs == [] then Empty else Cons(Sym(xs[0]), SymbolList(xs[1..]))
  }

  /** `(x y ..)`, or the empty list in either spelling. */
  predicate IsParams(ps: Expr, xs: seq<SymId>)
  {
    ps == App(SymbolList(xs)) || (ps == Nil && xs == [])
  }

  lemma {:induction false} SymbolsIff(es: List<Expr>, xs: seq<SymId>)
    ensures Symbols(es) == Some(xs) <==> es == SymbolList(xs)
    decreases es
  {
    if es.Cons? && es.head.Sym? {
      if xs != [] {
        SymbolsIff(es.tail, xs[1..]);
        assert xs == [xs[0]] + xs[1..];
      }
      if Symbols(es.tail).Some? { assert ([es.head.id] + Symbols(es.tail).value)[1..] == Symbols(es.tail).value; }
    }
  }

  /** The parameters of a definition are the symbols of its list, in their order. */
  lemma {:induction false} ParamsIff(f: SymId, ps: Expr, body: Expr, xs: seq<SymId>)
    ensures TopOf(Defun(f, ps, body)) == Some(Top(f, xs, body)) <==> IsParams(ps, xs)
    ensures TopOf(Defun(f, ps, body)).Some? ==> exists ys :: IsParams(ps, ys)
  {
    if ps.App? {
      SymbolsIff(ps.items, xs);
      if Symbols(ps.items).Some? {
        SymbolsIff(ps.items, Symbols(ps.items).value);
        assert IsParams(ps, Symbols(ps.items).value);
      }
    } else if ps == Nil {
      assert IsParams(ps, []);
    }
  }

  // ---- the definitions that are compiled ----

  /** The `i`-th form is the last definition of `f`. */
  ghost predicate LastOf(forms: seq<Expr>, i: int, f: SymId, ps: Expr, body: Expr)
  {
    && 0 <= i < |forms| && forms[i] == Defun(f, ps, body)
    && forall j, ps', body' :: i < j < |forms| ==> forms[j] != Defun(f, ps', body')
  }

  /** It has symbols for parameters, is not left out by name or by its nodes, and is an expression throughout. */
  predicate Compilable(f: SymId, ps: Expr, xs: seq<SymId>, body: Expr, skip: SkipPolicy)
  {
    && IsParams(ps, xs) && f !in skip.names && (skip.budget.Some? ==> |Paths(body)| <= skip.budget.value)
    && Judge(body, (set x | x in xs), Some(f), |xs|).Compiles?
  }

  ghost predicate Chosen(forms: seq<Expr>, f: SymId, xs: seq<SymId>, skip: SkipPolicy)
  {
    exists i, ps, body :: LastOf(forms, i, f, ps, body) && Compilable(f, ps, xs, body, skip)
  }

  lemma {:induction false} IsDefun(form: Expr)
    ensures DefunName(form).Some? <==> exists f: SymId, ps, body :: form == Defun(f, ps, body)
    ensures forall f: SymId, ps, body :: form == Defun(f, ps, body) ==> DefunName(form) == Some(f)
  {
    if DefunName(form).Some? {
      var items := form.items;
      assert form == Defun(items.tail.head.id, items.tail.tail.head, items.tail.tail.tail.head);
    }
  }

  lemma {:induction false} LastIff(forms: seq<Expr>, i: nat, f: SymId, ps: Expr, body: Expr)
    requires i < |forms| && forms[i] == Defun(f, ps, body)
    ensures IsLast(forms, i) <==> LastOf(forms, i, f, ps, body)
  {
    if LastOf(forms, i, f, ps, body) {
      forall j | i < j < |forms| ensures DefunName(forms[j]) != Some(f) { IsDefun(forms[j]); }
    }
  }

  /** The driver contributes a definition exactly if it is the last of its name and compilable. */
  lemma {:induction false} ContributesIff(
    forms: seq<Expr>, i: nat, skip: SkipPolicy, f: SymId, xs: seq<SymId>, body: Expr)
    requires i < |forms|
    ensures Contributes(forms, i, skip) == Some(Top(f, xs, body)) <==>
            exists ps :: LastOf(forms, i, f, ps, body) && Compilable(f, ps, xs, body, skip)
  {
    hide Judge, IsLast, Paths, IsParams;
    if Contributes(forms, i, skip) == Some(Top(f, xs, body)) {
      assert forms[i] == Defun(f, forms[i].items.tail.tail.head, body);
    }
    if exists ps :: forms[i] == Defun(f, ps, body) {
      var ps :| forms[i] == Defun(f, ps, body);
      LastIff(forms, i, f, ps, body);
      ParamsIff(f, ps, body, xs);
      SizeCounts(body);
      assert DefunName(forms[i]) == Some(f) && BodySize(forms[i]) == Size(body);
      assert Outcome(Top(f, xs, body)) == Judge(body, (set x | x in xs), Some(f), |xs|);
    }
  }

  lemma {:induction false} AcceptedIff(forms: seq<Expr>, i: nat, skip: SkipPolicy, t: Top)
    requires i <= |forms|
    ensures t in Accepted(forms, i, skip) <==> exists j :: i <= j < |forms| && Contributes(forms, j, skip) == Some(t)
    decreases |forms| - i
  {
    hide Contributes;
    if i < |forms| { AcceptedIff(forms, i + 1, skip, t); }
  }

  lemma {:induction false} AcceptedIsChosen(forms: seq<Expr>, skip: SkipPolicy, f: SymId, xs: seq<SymId>)
    ensures Chosen(forms, f, xs, skip) <==> exists t :: t in Accepted(forms, 0, skip) && t.name == f && t.params == xs
  {
    hide Contributes, LastOf, Compilable;
    if Chosen(forms, f, xs, skip) {
      var i, ps, body :| LastOf(forms, i, f, ps, body) && Compilable(f, ps, xs, body, skip);
      assert 0 <= i < |forms| by { InFile(forms, i, f, ps, body); }
      ContributesIff(forms, i, skip, f, xs, body);
      AcceptedIff(forms, 0, skip, Top(f, xs, body));
      assert Top(f, xs, body).name == f && Top(f, xs, body).params == xs;
    }
    if t :| t in Accepted(forms, 0, skip) && t.name == f && t.params == xs {
      AcceptedIff(forms, 0, skip, t);
      var j :| 0 <= j < |forms| && Contributes(forms, j, skip) == Some(t);
      ContributesIff(forms, j, skip, f, xs, t.body);
    }
  }

  lemma {:induction false} InFile(forms: seq<Expr>, i: int, f: SymId, ps: Expr, body: Expr)
    requires LastOf(forms, i, f, ps, body)
    ensures 0 <= i < |forms|
  {
  }

  /**
   A name is compiled, with these parameters, exactly if its last definition in the file has them for
   its list of symbols, is not to be left out, has no more nodes than the budget, and is an expression.
   */
  lemma {:induction false} CompiledIff(
    forms: seq<Expr>, skip: SkipPolicy, prims: map<SymId, Prim>, f: SymId, xs: seq<SymId>)
    requires WfFile(forms, skip, prims)
    ensures var fns := CompileForms(forms, 0, skip, Start());
            (exists fn :: fn in fns && fn.name == f && fn.params == xs) <==> Chosen(forms, f, xs, skip)
  {
    hide WfFile, CompileForms, Chosen, Accepted;
    var ts, fns := Accepted(forms, 0, skip), CompileForms(forms, 0, skip, Start());
    CompiledInOrder(forms, skip, prims);
    AcceptedIsChosen(forms, skip, f, xs);
    if fn :| fn in fns && fn.name == f && fn.params == xs {
      var i :| 0 <= i < |fns| && fns[i] == fn;
      assert ts[i] in ts && ts[i].name == f && ts[i].params == xs;
    }
    if t :| t in ts && t.name == f && t.params == xs {
      var i :| 0 <= i < |ts| && ts[i] == t;
      assert fns[i] in fns && fns[i].name == f && fns[i].params == xs;
    }
  }

  /** A larger budget and a smaller list of names only ever add functions. */
  lemma {:induction false} MoreIsCompiled(
    forms: seq<Expr>, skip: SkipPolicy, more: SkipPolicy, prims: map<SymId, Prim>, fn: R.RFn)
    requires WfFile(forms, skip, prims) && WfFile(forms, more, prims) && fn in CompileForms(forms, 0, skip, Start())
    requires more.names <= skip.names
    requires more.budget.Some? ==> skip.budget.Some? && skip.budget.value <= more.budget.value
    ensures exists fn' :: fn' in CompileForms(forms, 0, more, Start()) && fn'.name == fn.name && fn'.params == fn.params
  {
    hide WfFile, CompileForms, Paths, Judge, LastOf, IsParams;
    CompiledIff(forms, skip, prims, fn.name, fn.params);
    CompiledIff(forms, more, prims, fn.name, fn.params);
  }
}
