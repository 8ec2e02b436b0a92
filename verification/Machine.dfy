/**
 Run-time values, the state a program acts on, and the primitives. Both engines share the
 primitives (aot/runtime.rs mirrors primitives.rs), so they are written once.
 */
module Machine {
  import opened Lists
  import opened Kl
  import R = RustIr

  /** An error's text: what the program raised itself, or some text of the runtime's own. */
  datatype Msg = Raised(s: string) | Runtime | Stuck

  /** A KL closure keeps its environment and its source body; a compiled one its captured locals. */
  datatype Value =
    | VNil
    | VBool(b: bool)
    | VInt(n: int)
    | VFloat(x: real)
    | VStr(s: string)
    | VSym(id: SymId)
    | VErr(msg: Msg)
    | VCons(hd: Value, tl: Value)
    | VVec(ref: nat)
    | VFn(name: SymId, partial: seq<Value>)
    | VLam(env: Env, param: Option<SymId>, body: Expr)
    | VCode(locals: REnv, rparam: Option<SymId>, code: R.RExpr, shadow: seq<Value>)

  /** Lexical locals of the evaluator: a stack scanned from its innermost end. */
  datatype Env = EmptyEnv | Push(x: SymId, v: Value, rest: Env)

  /** A Rust local holds a value or a local procedure. */
  datatype Cell = Val(v: Value) | Proc(pcode: R.RExpr, penv: REnv)

  /** Rust locals, innermost first. */
  datatype REnv = EmptyREnv | RPush(rx: R.RVar, cell: Cell, rrest: REnv)

  function Lookup(env: Env, x: SymId): (r: Option<Value>)
    ensures r.Some? ==> r.value < env
  {
    match env
    case EmptyEnv => None
    case Push(y, v, rest) => if y == x then Some(v) else Lookup(rest, x)
  }

  /** The names that are bound. */
  function Dom(env: Env): (r: set<SymId>)
    ensures forall x :: x in r <==> Lookup(env, x).Some?
  {
    match env
    case EmptyEnv => {}
    case Push(y, _, rest) => Dom(rest) + {y}
  }

  function Get(env: REnv, x: R.RVar): (r: Option<Cell>)
    ensures r.Some? ==> r.value < env
  {
    match env
    case EmptyREnv => None
    case RPush(y, c, rest) => if y == x then Some(c) else Get(rest, x)
  }

  function GetVal(env: REnv, x: R.RVar): (r: Option<Value>)
  {
    match Get(env, x)
    case Some(Val(v)) => Some(v)
    case _ => None
  }

  /** A write, a new absvector, or the entry of a defun with its arguments (a round of its loop is one too). */
  datatype Event =
    | SetGlobal(id: SymId, v: Value)
    | SetCell(ref: nat, i: nat, v: Value)
    | MadeVec(cells: seq<Value>)
    | Called(f: SymId, args: seq<Value>)

  /**
   Globals, absvectors, and what happened to both and the calls, in order. `drift` records that
   a run took a step at which compiled code is not meant to agree; the evaluator only sets it.
   */
  datatype World = World(
    globals: map<SymId, Value>, vecs: seq<seq<Value>>, trace: seq<Event>, drift: bool)

  /** `Abort` is a panic of the compiled code, which no `trap-error` sees. */
  datatype Out = Ok(v: Value) | Err(m: Msg) | Timeout | Abort

  datatype Res = Res(out: Out, w: World)

  /** `Bool(b)` and the symbols `true` / `false` are the same boolean. */
  function TruthOf(v: Value): Option<bool>
  {
    match v
    case VBool(b) => Some(b)
    case VSym(s) => if s == K_TRUE then Some(true) else if s == K_FALSE then Some(false) else None
    case _ => None
  }

  const FIXNUM_MIN: int := -0x1000_0000_0000_0000
  const FIXNUM_MAX: int := 0x0FFF_FFFF_FFFF_FFFF

  /** `Value::int`: integers that do not fit 61 bits become floats. */
  function MkInt(n: int): Value
  {
    if FIXNUM_MIN <= n <= FIXNUM_MAX then VInt(n) else VFloat(n as real)
  }

  /** The value a literal or a quoted form stands for. */
  function Quote(e: Expr): Value
  {
    match e
    case Nil => VNil
    case Bool(b) => VBool(b)
    case Int(n) => MkInt(n)
    case Float(x) => VFloat(x)
    case Str(s) => VStr(s)
    case Sym(x) => VSym(x)
    case App(items) => QuoteList(items)
  }

  function QuoteList(es: List<Expr>): Value
  {
    match es
    case Empty => VNil
    case Cons(e, rest) => VCons(Quote(e), QuoteList(rest))
  }

  // ---- primitives ----

  datatype Prim =
    | PAdd | PSub | PMul | PDiv | PLt | PGt | PLe | PGe | PEq
    | PCons | PHd | PTl | PIsCons | PIsNumber | PIsString | PIsSymbol | PIsVec | PIsEmpty
    | PCn | PAddress | PAddressSet | PNot | PIsBoolean | PFail
    | PAbsvector | PVector | PVectorRef | PVectorSet | PLimit
    | PValue | PSet | PRaise | PErrorText
    | PValueOr | PAddressOr | PVectorOr

  function Arity(op: Prim): nat
  {
    match op
    case PFail => 0
    case PHd | PTl | PIsCons | PIsNumber | PIsString | PIsSymbol | PIsVec | PIsEmpty => 1
    case PNot | PIsBoolean | PAbsvector | PVector | PLimit | PValue | PRaise | PErrorText => 1
    case PAddressSet | PVectorSet | PAddressOr | PVectorOr => 3
    case _ => 2
  }

  function Num(v: Value): Option<real>
  {
    match v
    case VInt(n) => Some(n as real)
    case VFloat(x) => Some(x)
    case _ => None
  }

  const MAX_ABSVECTOR: int := 0x100_0000

  function Done(v: Value, w: World): Res { Res(Ok(v), w) }

  function Raise(w: World): Res { Res(Err(Runtime), w) }

  function Drifted(w: World): World { w.(drift := true) }

  function Truth(b: bool, w: World): Res { Res(Ok(VBool(b)), w) }

  /**
   `shen_eq`; `None` where the answer would need the identity of two closures, the contents of two
   different vectors, or the text of an error that the runtime raised.
   */
  function ValueEq(a: Value, b: Value): Option<bool>
  {
    if Num(a).Some? && Num(b).Some? then Some(Num(a) == Num(b))
    else if TruthOf(a).Some? && TruthOf(b).Some? then Some(TruthOf(a) == TruthOf(b))
    else
      match (a, b)
      case (VCons(h, t), VCons(h', t')) =>
        var r := ValueEq(h, h');
        if r != Some(true) then r else ValueEq(t, t')
      case (VVec(r), VVec(r')) => if r == r' then Some(true) else None
      case (VErr(m), VErr(m')) => if m.Raised? && m'.Raised? then Some(m == m') else None
      case (VFn(_, _), _) => if IsClosure(b) then None else Some(false)
      case (VLam(_, _, _), _) => if IsClosure(b) then None else Some(false)
      case (VCode(_, _, _, _), _) => if IsClosure(b) then None else Some(false)
      case _ => if IsClosure(b) || a.VVec? || b.VVec? then Some(false) else Some(a == b)
  }

  predicate IsClosure(v: Value)
  {
    v.VFn? || v.VLam? || v.VCode?
  }

  function Arith(op: Prim, a: Value, b: Value): (r: Out)
    requires op in {PAdd, PSub, PMul, PDiv, PLt, PGt, PLe, PGe}
    ensures r.Ok? ==> r.v.VInt? || r.v.VFloat? || r.v.VBool?
    ensures !r.Timeout? && !r.Abort?
  {
    if Num(a).None? || Num(b).None? then Err(Runtime) else
    var (x, y) := (Num(a).value, Num(b).value);
    if op == PLt then Ok(VBool(x < y))
    else if op == PGt then Ok(VBool(x > y))
    else if op == PLe then Ok(VBool(x <= y))
    else if op == PGe then Ok(VBool(x >= y))
    else if op == PDiv then
      if y == 0.0 then Err(Runtime)
      else if a.VInt? && b.VInt? && (x / y).Floor as real == x / y then Ok(MkInt((x / y).Floor))
      else Ok(VFloat(x / y))
    else if a.VInt? && b.VInt? then
      Ok(MkInt(if op == PAdd then a.n + b.n else if op == PSub then a.n - b.n else a.n * b.n))
    else
      Ok(VFloat(if op == PAdd then x + y else if op == PSub then x - y else x * y))
  }

  /** The cell an index names, if `v` is a vector and `i` an index of it (a negative one never is). */
  function Slot(v: Value, i: Value, w: World): Option<Value>
  {
    if v.VVec? && v.ref < |w.vecs| && i.VInt? && 0 <= i.n < |w.vecs[v.ref]|
    then Some(w.vecs[v.ref][i.n]) else None
  }

  function Store(v: Value, i: Value, x: Value, w: World): Res
  {
    if Slot(v, i, w).None? then Raise(w)
    else Done(v, w.(vecs := w.vecs[v.ref := w.vecs[v.ref][i.n := x]],
                    trace := w.trace + [SetCell(v.ref, i.n, x)]))
  }

  function NewVec(cells: seq<Value>, w: World): Res
  {
    Done(VVec(|w.vecs|), w.(vecs := w.vecs + [cells], trace := w.trace + [MadeVec(cells)]))
  }

  /** A first-order primitive applied to as many arguments as it takes. */
  function Run(op: Prim, a: seq<Value>, w: World): (r: Res)
    requires |a| == Arity(op) && !Deferring(op)
    ensures w.drift ==> r.w.drift
    ensures !r.out.Timeout? && !r.out.Abort?
  {
    match op
    case PAdd | PSub | PMul | PDiv | PLt | PGt | PLe | PGe => Res(Arith(op, a[0], a[1]), w)
    case PEq =>
      (match ValueEq(a[0], a[1])
       case Some(b) => Truth(b, w)
       case None => Truth(false, Drifted(w)))
    case PCons => Done(VCons(a[0], a[1]), w)
    case PHd => if a[0].VCons? then Done(a[0].hd, w) else Raise(w)
    case PTl => if a[0].VCons? then Done(a[0].tl, w) else Raise(w)
    case PIsCons => Truth(a[0].VCons?, w)
    case PIsNumber => Truth(Num(a[0]).Some?, w)
    case PIsString => Truth(a[0].VStr?, w)
    case PIsSymbol => Truth(a[0].VSym?, if TruthOf(a[0]).Some? then Drifted(w) else w)
    case PIsVec => Truth(a[0].VVec?, w)
    case PIsEmpty => Truth(a[0].VNil?, w)
    case PCn => if a[0].VStr? && a[1].VStr? then Done(VStr(a[0].s + a[1].s), w) else Raise(w)
    case PAddress => (match Slot(a[0], a[1], w) case Some(v) => Done(v, w) case None => Raise(w))
    case PAddressSet => Store(a[0], a[1], a[2], w)
    case PNot => (match TruthOf(a[0]) case Some(b) => Truth(!b, w) case None => Raise(w))
    case PIsBoolean => Truth(TruthOf(a[0]).Some?, w)
    case PFail => Done(VSym(K_SHEN_FAIL), w)
    case PAbsvector =>
      if a[0].VInt? && 0 <= a[0].n <= MAX_ABSVECTOR
      then NewVec(seq(a[0].n, _ => VSym(K_TRUE)), w) else Raise(w)
    case PVector =>
      if a[0].VInt? && 0 <= a[0].n && a[0].n + 1 <= MAX_ABSVECTOR
      then NewVec([a[0]] + seq(a[0].n, _ => VSym(K_SHEN_FAIL)), w) else Raise(w)
    case PVectorRef =>
      (match VectorSlot(a[0], a[1], w) case Some(v) => Done(v, w) case None => Raise(w))
    case PVectorSet => if a[1] == VInt(0) then Raise(w) else Store(a[0], a[1], a[2], w)
    case PLimit => (match Slot(a[0], VInt(0), w) case Some(v) => Done(v, w) case None => Raise(w))
    case PValue =>
      var w' := if TruthOf(a[0]).Some? then Drifted(w) else w;
      if a[0].VSym? && a[0].id in w.globals then Done(w.globals[a[0].id], w') else Raise(w')
    case PSet =>
      var w' := if TruthOf(a[0]).Some? then Drifted(w) else w;
      if a[0].VSym? then Done(a[1], SetIn(w', a[0].id, a[1])) else Raise(w')
    case PRaise => Res(Err(if a[0].VStr? then Raised(a[0].s) else Runtime), w)
    case PErrorText =>
      if !a[0].VErr? then Raise(w)
      else if a[0].msg.Raised? then Done(VStr(a[0].msg.s), w)
      else Done(VStr(""), Drifted(w))
  }

  function SetIn(w: World, id: SymId, v: Value): World
  {
    w.(globals := w.globals[id := v], trace := w.trace + [SetGlobal(id, v)])
  }

  /** `<-vector`: slot 0 and slots that still hold the fail object count as missing. */
  function VectorSlot(v: Value, i: Value, w: World): Option<Value>
  {
    if i == VInt(0) then None
    else match Slot(v, i, w)
         case Some(VSym(s)) => if s == K_SHEN_FAIL then None else Some(VSym(s))
         case r => r
  }

  /** Primitives whose last argument is a thunk, to be called when there is nothing to return. */
  predicate Deferring(op: Prim)
  {
    op == PValueOr || op == PAddressOr || op == PVectorOr
  }

  /** `value/or` of a boolean symbol: the engines may hold the two forms of that boolean. */
  function Watch(op: Prim, a: seq<Value>, w: World): World
    requires |a| == Arity(op)
  {
    if op == PValueOr && TruthOf(a[0]).Some? then Drifted(w) else w
  }

  /** What a deferring primitive answers by itself; `None` if it calls its thunk. */
  function Attempt(op: Prim, a: seq<Value>, w: World): (r: Option<Res>)
    requires |a| == Arity(op) && Deferring(op)
    ensures r.Some? ==> r.value.w.drift == w.drift && !r.value.out.Timeout? && !r.value.out.Abort?
  {
    match op
    case PValueOr =>
      if !a[0].VSym? then Some(Raise(w))
      else if a[0].id in w.globals then Some(Done(w.globals[a[0].id], w)) else None
    case PAddressOr => (match Slot(a[0], a[1], w) case Some(v) => Some(Done(v, w)) case None => None)
    case PVectorOr => (match VectorSlot(a[0], a[1], w) case Some(v) => Some(Done(v, w)) case None => None)
  }

  // ---- natives that compiled code calls directly ----

  /** Overrides of kernel functions: compiled code calls them with no check of their arity. */
  predicate Direct(op: Prim)
  {
    op in {PNot, PIsBoolean, PIsEmpty, PFail, PVector, PVectorRef, PVectorSet, PLimit}
    || Deferring(op)
  }

  /**
   Such a native with too few arguments: it panics when it reads one that is not there, unless it
   is done before.
   */
  function ShortArgs(op: Prim, a: seq<Value>, w: World): Res
    requires Direct(op) && |a| < Arity(op)
  {
    if op == PVectorSet && |a| == 2 && !(a[1].VInt? && a[1].n != 0 && Slot(a[0], a[1], w).Some?) then Raise(w)
    else if Deferring(op) && |a| == Arity(op) - 1 && Attempt(op, a + [VNil], w).Some? then
      Attempt(op, a + [VNil], w).value
    else Res(Abort, w)
  }

  function Log(w: World, f: SymId, args: seq<Value>): World
  {
    w.(trace := w.trace + [Called(f, args)])
  }
}
