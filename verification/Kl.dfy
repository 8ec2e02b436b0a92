/** Structural lists: the `Rc<[KlExpr]>` slices of the syntax tree. */
module Lists {
  datatype List<+T> = Empty | Cons(head: T, tail: List<T>)

  datatype Option<+T> = None | Some(value: T)

  function Append<A>(xs: List<A>, ys: List<A>): List<A>
  {
    match xs case Empty => ys case Cons(x, rest) => Cons(x, Append(rest, ys))
  }

  lemma {:induction false} AppendOne<A>(xs: List<A>, y: A, ys: List<A>)
    ensures Append(Append(xs, Cons(y, Empty)), ys) == Append(xs, Cons(y, ys))
  {
    if xs.Cons? { AppendOne(xs.tail, y, ys); }
  }

  lemma {:induction false} AppendNone<A>(xs: List<A>)
    ensures Append(xs, Empty) == xs
  {
    if xs.Cons? { AppendNone(xs.tail); }
  }
}

/**
 The KL syntax tree (kl/ast.rs) and the dispatch that the tree-walking evaluator and the
 ahead-of-time compiler share: a form is recognised by its head symbol and its length.
 */
module Kl {
  import opened Lists

  /** An interned symbol. Identifiers 0 to 19 are the ones the interpreter interns first. */
  type SymId = nat

  const K_TRUE: SymId := 0
  const K_FALSE: SymId := 1
  const K_DEFUN: SymId := 3
  const K_LAMBDA: SymId := 4
  const K_LET: SymId := 5
  const K_IF: SymId := 6
  const K_COND: SymId := 7
  const K_FREEZE: SymId := 8
  const K_THAW: SymId := 9
  const K_TRAP_ERROR: SymId := 10
  const K_DO: SymId := 11
  const K_AND: SymId := 12
  const K_OR: SymId := 13
  const K_QUOTE: SymId := 14
  const K_TYPE: SymId := 15
  const K_SHEN_FAIL: SymId := 18
  // Names the compiler treats specially; any fixed numbers above the well-known ones will do.
  const K_VALUE: SymId := 20
  const K_SET: SymId := 21
  const K_EQ: SymId := 22
  const K_ADDRESS: SymId := 23
  const K_VECTOR_REF: SymId := 24
  const K_VALUE_OR: SymId := 25
  const K_ADDRESS_OR: SymId := 26
  const K_VECTOR_OR: SymId := 27
  const K_FAIL: SymId := 28
  const K_WHEN: SymId := 29
  const K_CUT: SymId := 30
  const K_BIND: SymId := 31
  const K_BIND_BANG: SymId := 32

  datatype Expr =
    | Nil
    | Bool(b: bool)
    | Int(n: int)
    | Float(x: real)
    | Str(s: string)
    | Sym(id: SymId)
    | App(items: List<Expr>)

  /** A syntax tree seen as the form its head selects. */
  datatype Form =
    | Const(lit: Expr)
    | Var(x: SymId)
    | If(c: Expr, t: Expr, f: Expr)
    | Let(x: SymId, bound: Expr, body: Expr)
    | Cond(clauses: List<Expr>)
    | Do(es: List<Expr>)
    | And(a: Expr, b: Expr)
    | Or(a: Expr, b: Expr)
    | Lambda(x: SymId, body: Expr)
    | Freeze(body: Expr)
    | Thaw(arg: Expr)
    | Trap(body: Expr, handler: Expr)
    | Typed(arg: Expr)
    | Call(head: SymId, args: List<Expr>)
    | Apply(fn: Expr, args: List<Expr>)
    | Define(args: List<Expr>)
    | Bad

  function View(e: Expr): (r: Form)
    ensures match r
            case Const(l) => true
            case Var(x) => e == Sym(x)
            case If(c, t, f) => e.App? && c < e && t < e && f < e
            case Let(_, v, b) => v < e && b < e
            case Cond(cs) => cs < e
            case Do(es) => es < e
            case And(a, b) => a < e && b < e
            case Or(a, b) => a < e && b < e
            case Lambda(_, b) => b < e
            case Freeze(b) => b < e
            case Thaw(a) => a < e
            case Trap(b, h) => b < e && h < e
            case Typed(a) => a < e
            case Call(_, args) => args < e
            case Define(args) => args < e
            case Apply(f, args) => f < e && args < e
            case _ => true
    ensures !r.Var? && !r.Const? ==> e.App?
  {
    match e
    case Sym(x) => Var(x)
    case App(Empty) => Const(Nil)
    case App(Cons(Sym(h), args)) => Special(h, args)
    case App(Cons(f, args)) => Apply(f, args)
    case _ => Const(e)
  }

  /** Special forms are selected before locals and functions are looked up. */
  function Special(h: SymId, args: List<Expr>): (r: Form)
    ensures match r
            case Const(l) => args.Cons? && l == args.head
            case Var(x) => false
            case If(c, t, f) => c < args && t < args && f < args
            case Let(_, v, b) => v < args && b < args
            case Cond(cs) => cs == args
            case Do(es) => es == args
            case And(a, b) => a < args && b < args
            case Or(a, b) => a < args && b < args
            case Lambda(_, b) => b < args
            case Freeze(b) => b < args
            case Thaw(a) => a < args
            case Trap(b, g) => b < args && g < args
            case Typed(a) => a < args
            case Call(_, rest) => rest == args
            case Define(rest) => rest == args
            case Apply(f, rest) => false
            case _ => true
  {
    if h == K_IF then
      match args case Cons(c, Cons(t, Cons(f, Empty))) => If(c, t, f) case _ => Bad
    else if h == K_LET then
      match args case Cons(Sym(x), Cons(v, Cons(b, Empty))) => Let(x, v, b) case _ => Bad
    else if h == K_COND then Cond(args)
    else if h == K_DO then Do(args)
    else if h == K_AND then
      match args case Cons(a, Cons(b, Empty)) => And(a, b) case _ => Bad
    else if h == K_OR then
      match args case Cons(a, Cons(b, Empty)) => Or(a, b) case _ => Bad
    else if h == K_LAMBDA then
      match args case Cons(Sym(x), Cons(b, Empty)) => Lambda(x, b) case _ => Bad
    else if h == K_FREEZE then
      match args case Cons(b, Empty) => Freeze(b) case _ => Bad
    else if h == K_THAW then
      match args case Cons(a, Empty) => Thaw(a) case _ => Bad
    else if h == K_TRAP_ERROR then
      match args case Cons(b, Cons(g, Empty)) => Trap(b, g) case _ => Bad
    else if h == K_QUOTE then
      match args case Cons(l, Empty) => Const(l) case _ => Bad
    else if h == K_TYPE then
      match args case Cons(a, _) => Typed(a) case _ => Bad
    else if h == K_DEFUN then Define(args)
    else Call(h, args)
  }

  /** Every symbol written anywhere in `e`, binders and heads included. */
  function Names(e: Expr): set<SymId>
  {
    match e
    case Sym(x) => {x}
    case App(items) => NamesOf(items)
    case _ => {}
  }

  function NamesOf(es: List<Expr>): set<SymId>
  {
    match es
    case Empty => {}
    case Cons(e, rest) => Names(e) + NamesOf(rest)
  }

  predicate Atomic(es: List<Expr>)
  {
    es.Cons? ==> !es.head.App? && Atomic(es.tail)
  }

  /** A trapped access whose operands cannot raise and whose handler ignores the error. */
  datatype Access = Access(op: SymId, operands: List<Expr>, fallback: Expr)

  predicate IsAccess(op: SymId)
  {
    op in {K_VALUE, K_ADDRESS, K_VECTOR_REF}
  }

  /** As many operands as the access takes; otherwise the rewrite does not apply. */
  predicate Fits(a: Access)
  {
    IsAccess(a.op) && a.operands.Cons? &&
    if a.op == K_VALUE then a.operands.tail.Empty? else a.operands.tail.Cons? && a.operands.tail.tail.Empty?
  }

  function TrappedAccess(body: Expr, handler: Expr): (r: Option<Access>)
    ensures r.Some? ==> body == App(Cons(Sym(r.value.op), r.value.operands)) && Atomic(r.value.operands)
    ensures r.Some? ==> View(handler).Lambda? && View(handler).body == r.value.fallback
                        && View(handler).x !in Names(r.value.fallback) && r.value.fallback < handler
  {
    match (body, handler)
    case (App(Cons(Sym(op), operands)), App(Cons(Sym(l), Cons(Sym(x), Cons(h, Empty))))) =>
      if IsAccess(op) && l == K_LAMBDA && x !in Names(h) && Atomic(operands)
      then Some(Access(op, operands, h)) else None
    case _ => None
  }
}
