/**
 What the primitives answer, told by how they go together: what a write does to later reads, what
 undoes what, and when two values are equal.
 */
module PrimitiveLaws {
  import opened Lists
  import opened Kl
  import opened Machine
  import R = RustIr
  import opened RustRun
  import W = Words

  // ---- globals ----

  /** `(set x v)` answers `v` and is read back; every other name is as before. */
  lemma {:induction false} WriteRead(x: SymId, y: SymId, v: Value, w: World)
    ensures var r := Run(PSet, [VSym(x), v], w);
            && r.out == Ok(v) && Run(PValue, [VSym(x)], r.w).out == Ok(v)
            && (y != x ==> Run(PValue, [VSym(y)], r.w).out == Run(PValue, [VSym(y)], w).out)
  {
    hide ValueEq, Arith, Store, VectorSlot;
  }

  /** And so is every absvector. */
  lemma {:induction false} WriteKeepsVectors(x: SymId, v: Value, w: World)
    ensures var r := Run(PSet, [VSym(x), v], w);
            forall a, i :: Run(PAddress, [a, i], r.w).out == Run(PAddress, [a, i], w).out
  {
    hide ValueEq, Arith, Store, VectorSlot;
    var r := Run(PSet, [VSym(x), v], w);
    forall a, i ensures Run(PAddress, [a, i], r.w).out == Run(PAddress, [a, i], w).out {}
  }

  /** A name that was never written has no value, and what is no symbol names nothing. */
  lemma {:induction false} NoGlobal(v: Value, u: Value, w: World)
    ensures (v.VSym? && v.id !in w.globals) || !v.VSym? ==> Run(PValue, [v], w).out == Err(Runtime)
    ensures !v.VSym? ==>
              var r := Run(PSet, [v, u], w);
              r.out == Err(Runtime) && r.w.globals == w.globals && r.w.vecs == w.vecs && r.w.trace == w.trace
  {
  }

  /** The same of the store and the load that compiled code uses for a name outright. */
  lemma {:induction false} StoreLoad(n: nat, q: RProg, x: SymId, y: SymId, t: R.RVar, v: Value, env: REnv, w: World)
    requires GetVal(env, t) == Some(v)
    ensures var s := RunE(n, q, R.GlobalSet(x, t), env, w);
            && s.out == Ok(v) && RunE(n, q, R.GlobalGet(x), env, s.w) == Done(v, s.w)
            && (y != x ==> RunE(n, q, R.GlobalGet(y), env, s.w).out == RunE(n, q, R.GlobalGet(y), env, w).out)
  {
    hide RunNode;
  }

  // ---- absvectors ----

  /** `(absvector n)` is new, and has exactly the indices from 0 to below `n`. */
  lemma {:induction false} NewVector(n: int, w: World)
    ensures var r := Run(PAbsvector, [VInt(n)], w);
            if 0 <= n <= 0x100_0000 then
              && r.out.Ok? && r.out.v.VVec?
              && (forall i: int :: Run(PAddress, [r.out.v, VInt(i)], r.w).out ==
                                   if 0 <= i < n then Ok(VSym(K_TRUE)) else Err(Runtime))
              && (forall i :: Run(PAddress, [r.out.v, i], w).out == Err(Runtime))
              && (forall u, i :: u != r.out.v ==>
                    Run(PAddress, [u, i], r.w).out == Run(PAddress, [u, i], w).out)
            else r == Raise(w)
  {
    var r := Run(PAbsvector, [VInt(n)], w);
    if 0 <= n <= 0x100_0000 {
      forall u, i | u != r.out.v ensures Run(PAddress, [u, i], r.w).out == Run(PAddress, [u, i], w).out {}
    }
  }

  /** What is stored is read back; every other cell and every global is as before. */
  lemma {:induction false} StoreRead(v: Value, i: Value, x: Value, w: World)
    ensures var r := Run(PAddressSet, [v, i, x], w);
            if Run(PAddress, [v, i], w).out.Ok? then
              && r.out == Ok(v) && Run(PAddress, [v, i], r.w).out == Ok(x) && r.w.globals == w.globals
              && (forall u, j :: u != v || j != i ==>
                    Run(PAddress, [u, j], r.w).out == Run(PAddress, [u, j], w).out)
            else r == Raise(w)
  {
    var r := Run(PAddressSet, [v, i, x], w);
    if Run(PAddress, [v, i], w).out.Ok? {
      forall u, j | u != v || j != i ensures Run(PAddress, [u, j], r.w).out == Run(PAddress, [u, j], w).out {}
    }
  }

  /** Only an absvector has cells, and only at integers. */
  lemma {:induction false} OnlyVectors(v: Value, i: Value, w: World)
    requires !v.VVec? || !i.VInt?
    ensures Run(PAddress, [v, i], w) == Raise(w)
  {
  }

  /** `(vector n)`: its limit is `n`, and no index has an element yet. */
  lemma {:induction false} NewLimited(n: int, w: World)
    ensures var r := Run(PVector, [VInt(n)], w);
            if 0 <= n < 0x100_0000 then
              && r.out.Ok? && r.out.v.VVec? && Run(PLimit, [r.out.v], r.w).out == Ok(VInt(n))
              && (forall i :: Run(PVectorRef, [r.out.v, i], r.w).out == Err(Runtime))
            else r == Raise(w)
  {
    hide ValueEq, Arith;
  }

  lemma {:induction false} NewLimitedCells(n: int, w: World)
    requires 0 <= n < 0x100_0000
    ensures var r := Run(PVector, [VInt(n)], w);
            && r.out.Ok? && (forall i: int :: Run(PAddress, [r.out.v, VInt(i)], r.w).out.Ok? <==> 0 <= i <= n)
            && (forall u, i :: u != r.out.v ==>
                  Run(PAddress, [u, i], r.w).out == Run(PAddress, [u, i], w).out)
  {
    hide ValueEq, Arith;
    var r := Run(PVector, [VInt(n)], w);
    forall u, i | u != r.out.v ensures Run(PAddress, [u, i], r.w).out == Run(PAddress, [u, i], w).out {}
  }

  /** Storing in a vector is storing in its cells, but for slot 0, which holds the limit. */
  lemma {:induction false} VectorStore(v: Value, i: Value, x: Value, w: World)
    ensures Run(PVectorSet, [v, i, x], w) == if i == VInt(0) then Raise(w) else Run(PAddressSet, [v, i, x], w)
    ensures Run(PLimit, [v], w) == Run(PAddress, [v, VInt(0)], w)
  {
    hide ValueEq, Arith;
  }

  /** An element is a cell other than slot 0 that does not hold the fail object. */
  lemma {:induction false} VectorElement(v: Value, i: Value, w: World)
    ensures var fail, cell, r := Run(PFail, [], w).out, Run(PAddress, [v, i], w).out, Run(PVectorRef, [v, i], w);
            && r.w == w && (r.out.Ok? ==> r.out == cell)
            && (r.out.Ok? <==> i != VInt(0) && cell.Ok? && cell != fail) && (!r.out.Ok? ==> r == Raise(w))
  {
    hide ValueEq, Arith;
  }

  // ---- numbers ----

  predicate Number(v: Value) { v.VInt? || v.VFloat? }

  function Real(v: Value): real
    requires Number(v)
  {
    if v.VInt? then v.n as real else v.x
  }

  /** Integers that a fixnum holds. */
  predicate InRange(n: int) { -W.TWO60 <= n < W.TWO60 }

  /** An integer is one exactly if the tagged word keeps it; the others become floats. */
  lemma {:induction false} IntegersAreFixnums(n: int)
    ensures MkInt(n) == if W.AsFixnum(W.Fixnum(n)) == n then VInt(n) else VFloat(n as real)
  {
    W.FixnumRoundTrip(n);
  }

  lemma {:induction false} Sum(a: Value, b: Value, w: World)
    requires Number(a) && Number(b)
    ensures var r := Run(PAdd, [a, b], w);
            && r.w == w && r.out.Ok? && Number(r.out.v) && Real(r.out.v) == Real(a) + Real(b)
            && (r.out.v.VInt? <==> a.VInt? && b.VInt? && InRange(a.n + b.n))
  {
  }

  lemma {:induction false} Difference(a: Value, b: Value, w: World)
    requires Number(a) && Number(b)
    ensures var r := Run(PSub, [a, b], w);
            && r.w == w && r.out.Ok? && Number(r.out.v) && Real(r.out.v) + Real(b) == Real(a)
            && (r.out.v.VInt? <==> a.VInt? && b.VInt? && InRange(a.n - b.n))
  {
  }

  lemma {:induction false} IntProduct(m: int, n: int)
    ensures (m * n) as real == (m as real) * (n as real)
  {
  }

  lemma {:induction false} Made(n: int)
    ensures Number(MkInt(n)) && Real(MkInt(n)) == n as real && (MkInt(n).VInt? <==> InRange(n))
  {
  }

  lemma {:induction false} Product(a: Value, b: Value, w: World)
    requires Number(a) && Number(b)
    ensures var r := Run(PMul, [a, b], w);
            && r.w == w && r.out.Ok? && Number(r.out.v) && Real(r.out.v) == Real(a) * Real(b)
            && (r.out.v.VInt? <==> a.VInt? && b.VInt? && InRange(a.n * b.n))
  {
    hide ValueEq, Slot, VectorSlot, Store, MkInt;
    if a.VInt? && b.VInt? {
      IntProduct(a.n, b.n);
      Made(a.n * b.n);
    }
  }

  /** Division undoes multiplication, gives an integer exactly if there is none left over, and rejects zero. */
  lemma {:induction false} Quotient(a: Value, b: Value, w: World)
    requires Number(a) && Number(b)
    ensures var r := Run(PDiv, [a, b], w);
            if Real(b) == 0.0 then r == Raise(w)
            else
              && r.w == w && r.out.Ok? && Number(r.out.v) && Real(r.out.v) * Real(b) == Real(a)
              && (r.out.v.VInt? <==> a.VInt? && b.VInt? && exists k :: InRange(k) && k * b.n == a.n)
  {
    hide ValueEq, Slot, VectorSlot, Store, MkInt;
    if Real(b) != 0.0 {
      var x := Real(a) / Real(b);
      Undoes(Real(a), Real(b));
      if a.VInt? && b.VInt? {
        Divides(a.n, b.n);
        WholeOrNot(x);
      }
    }
  }

  lemma {:induction false} WholeOrNot(x: real)
    ensures Number(MkInt(x.Floor)) && Real(MkInt(x.Floor)) == x.Floor as real
    ensures MkInt(x.Floor).VInt? <==> InRange(x.Floor)
    ensures forall k: int :: InRange(k) && k as real == x ==> x.Floor == k
  {
  }

  lemma {:induction false} Undoes(x: real, y: real)
    requires y != 0.0
    ensures (x / y) * y == x
  {
  }

  lemma {:induction false} Divides(a: int, b: int)
    requires b != 0
    ensures var x := (a as real) / (b as real);
            && (forall k: int :: k * b == a <==> k as real == x)
            && (x.Floor as real == x <==> x.Floor * b == a)
  {
    var x := (a as real) / (b as real);
    Undoes(a as real, b as real);
    forall k: int ensures k * b == a <==> k as real == x {
      IntProduct(k, b);
      if k * b == a { SameQuotient(k as real, x, b as real); }
    }
  }

  lemma {:induction false} SameQuotient(x: real, y: real, z: real)
    requires z != 0.0 && x * z == y * z
    ensures x == y
  {
    assert (x * z) / z == x && (y * z) / z == y;
  }

  /** `<` holds exactly if the difference is negative, and `>` is `<` the other way round. */
  lemma {:induction false} Order(a: Value, b: Value, w: World)
    requires Number(a) && Number(b)
    ensures var lt, diff := Run(PLt, [a, b], w), Run(PSub, [a, b], w).out;
            lt == Truth(diff.Ok? && Number(diff.v) && Real(diff.v) < 0.0, w)
    ensures Run(PGt, [a, b], w) == Run(PLt, [b, a], w)
  {
    hide ValueEq, Slot, Store, VectorSlot;
  }

  /** `<=` is the opposite of `>`, and `>=` that of `<`. */
  lemma {:induction false} Opposites(a: Value, b: Value, w: World)
    requires Number(a) && Number(b)
    ensures var gt := Run(PGt, [a, b], w); gt.out.Ok? && Run(PLe, [a, b], w) == Run(PNot, [gt.out.v], w)
    ensures var lt := Run(PLt, [a, b], w); lt.out.Ok? && Run(PGe, [a, b], w) == Run(PNot, [lt.out.v], w)
  {
    hide ValueEq, Slot, Store, VectorSlot;
  }

  /** Exactly one of `<`, `=` and `>` holds of two numbers. */
  lemma {:induction false} Trichotomy(a: Value, b: Value, w: World)
    requires Number(a) && Number(b)
    ensures var lt, eq, gt := Run(PLt, [a, b], w), Run(PEq, [a, b], w), Run(PGt, [a, b], w);
            || (lt == Truth(true, w) && eq == Truth(false, w) && gt == Truth(false, w))
            || (lt == Truth(false, w) && eq == Truth(true, w) && gt == Truth(false, w))
            || (lt == Truth(false, w) && eq == Truth(false, w) && gt == Truth(true, w))
  {
    hide Slot, Store, VectorSlot;
  }

  /** What is no number is rejected, whatever the other operand. */
  lemma {:induction false} OnlyNumbers(op: Prim, a: Value, b: Value, w: World)
    requires op in {PAdd, PSub, PMul, PDiv, PLt, PGt, PLe, PGe} && (!Number(a) || !Number(b))
    ensures Arity(op) == 2 && Run(op, [a, b], w) == Raise(w)
  {
  }

  // On integers the same, without a word of reals:

  /** Subtracting what was added gives the other operand back, whichever it is; 0 is the unit. */
  lemma {:induction false} MinusUndoesPlus(m: int, n: int, w: World)
    requires InRange(m) && InRange(n) && InRange(m + n)
    ensures var s := Run(PAdd, [VInt(m), VInt(n)], w).out;
            && s.Ok? && s == Run(PAdd, [VInt(n), VInt(m)], w).out
            && Run(PSub, [s.v, VInt(n)], w).out == Ok(VInt(m)) && Run(PSub, [s.v, VInt(m)], w).out == Ok(VInt(n))
    ensures Run(PAdd, [VInt(m), VInt(0)], w).out == Ok(VInt(m)) && Run(PSub, [VInt(m), VInt(0)], w).out == Ok(VInt(m))
    ensures Run(PSub, [VInt(m), VInt(m)], w).out == Ok(VInt(0))
  {
  }

  /** Multiplication is repeated addition; 1 is the unit and 0 absorbs. */
  lemma {:induction false} TimesIsRepeatedPlus(m: int, n: int, w: World)
    requires InRange(n) && InRange(m) && InRange(m + 1) && InRange(m * n) && InRange((m + 1) * n)
    ensures var s := Run(PMul, [VInt(m), VInt(n)], w).out;
            && s.Ok? && s == Run(PMul, [VInt(n), VInt(m)], w).out
            && Run(PAdd, [s.v, VInt(n)], w).out == Run(PMul, [VInt(m + 1), VInt(n)], w).out
    ensures Run(PMul, [VInt(0), VInt(n)], w).out == Ok(VInt(0)) && Run(PMul, [VInt(1), VInt(n)], w).out == Ok(VInt(n))
  {
    assert (m + 1) * n == m * n + n;
  }

  /** Dividing a product by a factor other than 0 gives the other factor. */
  lemma {:induction false} DivideUndoesTimes(m: int, n: int, w: World)
    requires InRange(m) && InRange(n) && InRange(m * n) && n != 0
    ensures var s := Run(PMul, [VInt(m), VInt(n)], w).out;
            s.Ok? && Run(PDiv, [s.v, VInt(n)], w).out == Ok(VInt(m))
  {
    Product(VInt(m), VInt(n), w);
    Divides(m * n, n);
    assert m * n == m * n;
  }

  // ---- pairs, strings, booleans, errors ----

  /** `hd` and `tl` take a `cons` apart; nothing else is one. */
  lemma {:induction false} ConsParts(h: Value, t: Value, v: Value, w: World)
    ensures var c := Run(PCons, [h, t], w);
            && c.w == w && c.out.Ok? && Run(PHd, [c.out.v], w) == Done(h, w) && Run(PTl, [c.out.v], w) == Done(t, w)
    ensures var yes := Run(PIsCons, [v], w);
            && yes in {Truth(true, w), Truth(false, w)}
            && (yes == Truth(true, w) <==> Run(PHd, [v], w).out.Ok?)
            && (yes == Truth(true, w) <==> Run(PTl, [v], w).out.Ok?)
            && (yes == Truth(true, w) ==>
                  Run(PCons, [Run(PHd, [v], w).out.v, Run(PTl, [v], w).out.v], w) == Done(v, w))
            && (yes == Truth(false, w) ==> Run(PHd, [v], w) == Raise(w) && Run(PTl, [v], w) == Raise(w))
  {
  }

  /** A joined string starts with the one and ends with the other, and is no longer than that. */
  lemma {:induction false} Joined(a: Value, b: Value, w: World)
    ensures var r := Run(PCn, [a, b], w);
            if a.VStr? && b.VStr? then
              && r.w == w && r.out.Ok? && r.out.v.VStr? && |r.out.v.s| == |a.s| + |b.s|
              && a.s <= r.out.v.s && r.out.v.s[|a.s|..] == b.s
            else r == Raise(w)
  {
  }

  /** A boolean is one of two, each in two forms; `not` swaps them, and rejects everything else. */
  lemma {:induction false} Booleans(v: Value, w: World)
    ensures var yes, r := Run(PIsBoolean, [v], w), Run(PNot, [v], w);
            && yes == Truth(v in {VBool(true), VBool(false), VSym(K_TRUE), VSym(K_FALSE)}, w)
            && (yes == Truth(false, w) ==> r == Raise(w))
            && (v in {VBool(true), VSym(K_TRUE)} ==> r == Truth(false, w))
            && (v in {VBool(false), VSym(K_FALSE)} ==> r == Truth(true, w))
  {
  }

  /** Every value is of exactly one kind, and the predicates tell which. */
  datatype Sort = End | Boolean | Numeral | Text | Name | Pair | Vector | Other

  function SortOf(v: Value): Sort
  {
    match v
    case VNil => End
    case VBool(_) => Boolean
    case VInt(_) => Numeral
    case VFloat(_) => Numeral
    case VStr(_) => Text
    case VSym(_) => Name
    case VCons(_, _) => Pair
    case VVec(_) => Vector
    case _ => Other
  }

  lemma {:induction false} Predicates(v: Value, w: World)
    ensures Run(PIsEmpty, [v], w) == Truth(SortOf(v) == End, w)
    ensures Run(PIsNumber, [v], w) == Truth(SortOf(v) == Numeral, w)
    ensures Run(PIsString, [v], w) == Truth(SortOf(v) == Text, w)
    ensures Run(PIsCons, [v], w) == Truth(SortOf(v) == Pair, w)
    ensures Run(PIsVec, [v], w) == Truth(SortOf(v) == Vector, w)
    ensures Run(PIsSymbol, [v], w).out == Ok(VBool(SortOf(v) == Name))
  {
  }

  /** The text of an error that a program raised is the one it gave; what is no error has none. */
  lemma {:induction false} ErrorText(s: string, v: Value, w: World)
    ensures var r := Run(PRaise, [VStr(s)], w);
            r.w == w && r.out.Err? && Run(PErrorText, [VErr(r.out.m)], w) == Done(VStr(s), w)
    ensures !v.VStr? ==> Run(PRaise, [v], w) == Raise(w)
    ensures !v.VErr? ==> Run(PErrorText, [v], w) == Raise(w)
  {
  }

  // ---- equality ----

  /** Data in which no closure, no vector and no error of the runtime occurs. */
  predicate Comparable(v: Value)
  {
    match v
    case VCons(h, t) => Comparable(h) && Comparable(t)
    case VErr(m) => m.Raised?
    case VFn(_, _) => false
    case VLam(_, _, _) => false
    case VCode(_, _, _, _) => false
    case VVec(_) => false
    case _ => true
  }

  /** What such a value stands for: one real for a number, one truth for both forms of a boolean. */
  datatype Meaning =
    | TheEnd
    | ANumber(x: real)
    | ATruth(b: bool)
    | AName(id: SymId)
    | AText(s: string)
    | AnError(s: string)
    | APair(first: Meaning, second: Meaning)

  function MeaningOf(v: Value): Meaning
    requires Comparable(v)
  {
    match v
    case VNil => TheEnd
    case VBool(b) => ATruth(b)
    case VInt(n) => ANumber(n as real)
    case VFloat(x) => ANumber(x)
    case VStr(s) => AText(s)
    case VSym(id) => if id == K_TRUE then ATruth(true) else if id == K_FALSE then ATruth(false) else AName(id)
    case VErr(m) => AnError(m.s)
    case VCons(h, t) => APair(MeaningOf(h), MeaningOf(t))
  }

  /** Values are equal exactly if they stand for the same. */
  lemma {:induction false} EqualIsMeaning(a: Value, b: Value)
    requires Comparable(a) && Comparable(b)
    ensures ValueEq(a, b) == Some(MeaningOf(a) == MeaningOf(b))
    decreases a
  {
    if a.VCons? && b.VCons? {
      EqualIsMeaning(a.hd, b.hd);
      EqualIsMeaning(a.tl, b.tl);
    }
  }

  /** So `=` is an equivalence on such data, and answers true of `(= 1 1)` and false of `(= 1 2)`. */
  lemma {:induction false} Equals(a: Value, b: Value, c: Value, w: World)
    requires Comparable(a) && Comparable(b) && Comparable(c)
    ensures Run(PEq, [a, b], w) == Truth(MeaningOf(a) == MeaningOf(b), w)
    ensures Run(PEq, [a, a], w) == Truth(true, w) && Run(PEq, [a, b], w) == Run(PEq, [b, a], w)
    ensures Run(PEq, [a, b], w) == Truth(true, w) ==> Run(PEq, [b, c], w) == Run(PEq, [a, c], w)
    ensures Run(PEq, [VInt(1), VInt(1)], w) == Truth(true, w) && Run(PEq, [VInt(1), VInt(2)], w) == Truth(false, w)
  {
    hide ValueEq;
    EqualIsMeaning(a, a);
    EqualIsMeaning(a, b);
    EqualIsMeaning(b, a);
    EqualIsMeaning(b, c);
    EqualIsMeaning(a, c);
    EqualIsMeaning(VInt(1), VInt(1));
    EqualIsMeaning(VInt(1), VInt(2));
  }

  // ---- where the engines are held to agree ----

  /** The operands that a primitive is not asked about. */
  predicate Held(op: Prim, a: seq<Value>)
    requires |a| == Arity(op)
  {
    match op
    case PEq => Comparable(a[0]) && Comparable(a[1])
    case PIsSymbol | PValue | PSet => a[0] !in {VBool(true), VBool(false), VSym(K_TRUE), VSym(K_FALSE)}
    case PErrorText => a[0].VErr? ==> a[0].msg.Raised?
    case _ => true
  }

  /** On all others no primitive drifts. */
  lemma {:induction false} NoDrift(op: Prim, a: seq<Value>, w: World)
    requires |a| == Arity(op) && !Deferring(op) && Held(op, a)
    ensures Run(op, a, w).w.drift == w.drift
  {
    hide ValueEq, Arith;
    if op == PEq { EqualIsMeaning(a[0], a[1]); }
  }
}
