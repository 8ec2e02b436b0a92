/** The compiler's driver: which top-level forms of a file are compiled, in which order and state. */
module Driver {
  import opened Lists
  import opened Kl
  import opened R = RustIr
  import opened Codegen

  /** `(defun name (params ..) body)` */
  datatype Top = Top(name: SymId, params: seq<SymId>, body: Expr)

  /** Names that are left to the evaluator, and the largest body that is compiled, if there is one. */
  datatype SkipPolicy = SkipPolicy(names: set<SymId>, budget: Option<nat>)

  function Defun(f: SymId, ps: Expr, body: Expr): Expr
  {
    App(Cons(Sym(K_DEFUN), Cons(Sym(f), Cons(ps, Cons(body, Empty)))))
  }

  function DefunName(form: Expr): Option<SymId>
  {
    match form
    case App(Cons(Sym(h), Cons(Sym(f), Cons(_, Cons(_, Empty))))) => if h == K_DEFUN then Some(f) else None
    case _ => None
  }

  function Symbols(es: List<Expr>): Option<seq<SymId>>
  {
    match es
    case Empty => Some([])
    case Cons(Sym(x), rest) => (match Symbols(rest) case Some(xs) => Some([x] + xs) case None => None)
    case _ => None
  }

  function Params(e: Expr): Option<seq<SymId>>
  {
    match e case Nil => Some([]) case App(items) => Symbols(items) case _ => None
  }

  /** What a form defines; `None` if the compiler rejects it unseen. */
  function TopOf(form: Expr): (r: Option<Top>)
    ensures r.Some? ==> DefunName(form) == Some(r.value.name)
  {
    match form
    case App(Cons(Sym(h), Cons(Sym(f), Cons(ps, Cons(body, Empty))))) =>
      if h != K_DEFUN then None else
      (match Params(ps) case Some(xs) => Some(Top(f, xs, body)) case None => None)
    case _ => None
  }

  function Size(e: Expr): nat
  {
    match e case App(items) => 1 + SizeAll(items) case _ => 1
  }

  function SizeAll(es: List<Expr>): nat
  {
    match es case Empty => 0 case Cons(e, rest) => Size(e) + SizeAll(rest)
  }

  function BodySize(form: Expr): nat
  {
    match form
    case App(Cons(_, Cons(_, Cons(_, Cons(body, Empty))))) => Size(body)
    case _ => 0
  }

  /** Of several definitions of a name the last one counts. */
  predicate IsLast(forms: seq<Expr>, i: nat)
    requires i < |forms|
  {
    forall j :: i < j < |forms| ==> DefunName(forms[j]) != DefunName(forms[i])
  }

  predicate Wanted(forms: seq<Expr>, i: nat, skip: SkipPolicy)
    requires i < |forms|
  {
    DefunName(forms[i]).Some? ==>
      && IsLast(forms, i) && DefunName(forms[i]).value !in skip.names
      && (skip.budget.Some? ==> BodySize(forms[i]) <= skip.budget.value)
  }

  /** What the generator keeps from one form to the next: its counter and its continuations. */
  function Between(st: Cg): Cg
  {
    Cg(st.counter, {}, st.thaws, None, [])
  }

  function Entering(t: Top, st: Cg): Cg
  {
    AtEntry(t.name, t.params, st.counter).(thaws := st.thaws)
  }

  ghost function CompileTop(form: Expr, st: Cg): (r: Emit<RFn>)
  {
    match TopOf(form)
    case None => Rejected(st)
    case Some(t) =>
      match CompileTail(t.body, Entering(t, st))
      case Emitted(s, s1) => Emitted(RFn(t.name, t.params, s), Between(s1))
      case Rejected(at) => Rejected(Between(at))
  }

  /** The functions of the forms from the `i`-th on, in the order of the file. */
  ghost function CompileForms(forms: seq<Expr>, i: nat, skip: SkipPolicy, st: Cg): seq<RFn>
    requires i <= |forms|
    decreases |forms| - i
  {
    if i == |forms| then []
    else if !Wanted(forms, i, skip) then CompileForms(forms, i + 1, skip, st)
    else
      match CompileTop(forms[i], st)
      case Emitted(fn, s1) => [fn] + CompileForms(forms, i + 1, skip, s1)
      case Rejected(at) => CompileForms(forms, i + 1, skip, at)
  }

  function Start(): Cg
  {
    Cg(0, {}, map[], None, [])
  }
}
