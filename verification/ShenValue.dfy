/** Shen's equality and the hash that must respect it (value.rs, primitives.rs). */
module ShenValue {
  import opened Lists

  const K_TRUE: nat := 0
  const K_FALSE: nat := 1
  const K_SHEN_FAIL: nat := 18

  /** A double other than a NaN; there are two zeros. */
  datatype F64 = Fin(x: real) | NegZero | Inf(positive: bool)

  /** How a 61-bit integer is rounded to a double; nothing below depends on which way. */
  type Rounding = int -> real

  /** Values as keys see them: immutable and acyclic. Closures and streams are known by their node. */
  datatype Value =
    | Nil
    | Bool(b: bool)
    | Int(n: int)
    | Float(f: F64)
    | Sym(id: nat)
    | Str(s: string)
    | Err(msg: string)
    | Pair(hd: Value, tl: Value)
    | Vec(cells: seq<Value>)
    | Opaque(node: nat)

  /** The double a number is compared as. */
  function Number(rnd: Rounding, v: Value): Option<F64>
  {
    match v
    case Int(n) => Some(Fin(rnd(n)))
    case Float(f) => Some(f)
    case _ => None
  }

  /** `==` on doubles: the zeros are equal. */
  function Same(f: F64): F64 { if f == NegZero then Fin(0.0) else f }

  function ShenBool(v: Value): Option<bool>
  {
    match v
    case Bool(b) => Some(b)
    case Sym(s) => if s == K_TRUE then Some(true) else if s == K_FALSE then Some(false) else None
    case _ => None
  }

  /** `shen_eq`: identical words first, then numbers, a boolean against a symbol, then by kind. */
  predicate ShenEq(rnd: Rounding, a: Value, b: Value)
    decreases a
  {
    if a == b then true
    else if Number(rnd, a).Some? && Number(rnd, b).Some? then
      Same(Number(rnd, a).value) == Same(Number(rnd, b).value)
    else if a.Bool? && b.Sym? then (a.b && b.id == K_TRUE) || (!a.b && b.id == K_FALSE)
    else if a.Sym? && b.Bool? then (b.b && a.id == K_TRUE) || (!b.b && a.id == K_FALSE)
    else
      match (a, b)
      case (Pair(h, t), Pair(h', t')) => ShenEq(rnd, h, h') && ShenEq(rnd, t, t')
      case (Str(s), Str(s')) => s == s'
      case (Err(m), Err(m')) => m == m'
      case (Vec(x), Vec(y)) => |x| == |y| && forall i :: 0 <= i < |x| ==> ShenEq(rnd, x[i], y[i])
      case _ => false
  }

  // ---- the hash ----

  /** What `value_hash` feeds the hasher: kind tags, and the payloads between them. */
  datatype Token = Kind(k: nat) | Flag(b: bool) | Bits(f: F64) | Text(s: string) | Id(n: nat)

  function Tokens(rnd: Rounding, v: Value): seq<Token>
    decreases v, 0
  {
    if v.Nil? then [Kind(0)]
    else if ShenBool(v).Some? then [Kind(1), Flag(ShenBool(v).value)]
    else if Number(rnd, v).Some? then [Kind(2), Bits(Same(Number(rnd, v).value))]
    else
      match v
      case Str(s) => [Kind(4), Text(s)]
      case Sym(s) => [Kind(5), Id(s)]
      case Err(m) => [Kind(8), Text(m)]
      case Pair(h, t) => [Kind(6)] + Tokens(rnd, h) + Tokens(rnd, t)
      case Vec(cells) => [Kind(7)] + TokensOf(rnd, v, |cells|)
      case Opaque(p) => [Kind(9), Id(p)]
  }

  /** The tokens of the first `k` cells of a vector. */
  function TokensOf(rnd: Rounding, v: Value, k: nat): seq<Token>
    requires v.Vec? && k <= |v.cells|
    decreases v, 0, k
  {
    if k == 0 then [] else TokensOf(rnd, v, k - 1) + Tokens(rnd, v.cells[k - 1])
  }

  /** Any function of what it was fed will do for the hasher's `finish`. */
  type Finish = seq<Token> -> nat

  class Hasher {
    var fed: seq<Token>

    constructor ()
      ensures fed == []
    {
      fed := [];
    }

    method Write(t: Token)
      modifies this
      ensures fed == old(fed) + [t]
    {
      fed := fed + [t];
    }

    method Write2(t: Token, u: Token)
      modifies this
      ensures fed == old(fed) + [t, u]
    {
      Write(t);
      Write(u);
    }

    method ValueHash(rnd: Rounding, v: Value)
      modifies this
      ensures fed == old(fed) + Tokens(rnd, v)
      decreases v, 1
    {
      if v.Nil? {
        Write(Kind(0));
      } else if ShenBool(v).Some? {
        Write2(Kind(1), Flag(ShenBool(v).value));
      } else if Number(rnd, v).Some? {
        var x := Number(rnd, v).value;
        Write2(Kind(2), Bits(if x == NegZero || x == Fin(0.0) then Fin(0.0) else x));
      } else {
        match v
        case Str(s) => Write2(Kind(4), Text(s));
        case Sym(s) => Write2(Kind(5), Id(s));
        case Err(m) => Write2(Kind(8), Text(m));
        case Pair(h, t) => HashPair(rnd, v);
        case Vec(_) => HashCells(rnd, v);
        case Opaque(p) => Write2(Kind(9), Id(p));
      }
    }

    method HashPair(rnd: Rounding, v: Value)
      requires v.Pair?
      modifies this
      ensures fed == old(fed) + ([Kind(6)] + Tokens(rnd, v.hd) + Tokens(rnd, v.tl))
      decreases v, 0
    {
      Write(Kind(6));
      ValueHash(rnd, v.hd);
      ValueHash(rnd, v.tl);
      Regroup(old(fed), [Kind(6)], Tokens(rnd, v.hd), Tokens(rnd, v.tl));
    }

    method HashCells(rnd: Rounding, v: Value)
      requires v.Vec?
      modifies this
      ensures fed == old(fed) + ([Kind(7)] + TokensOf(rnd, v, |v.cells|))
      decreases v, 0
    {
      Write(Kind(7));
      for i := 0 to |v.cells|
        invariant fed == old(fed) + ([Kind(7)] + TokensOf(rnd, v, i))
      {
        ValueHash(rnd, v.cells[i]);
        Regroup(old(fed), [Kind(7)], TokensOf(rnd, v, i), Tokens(rnd, v.cells[i]));
      }
    }
  }

  lemma {:induction false} Regroup(a: seq<Token>, b: seq<Token>, c: seq<Token>, d: seq<Token>)
    ensures ((a + b) + c) + d == a + ((b + c) + d)
    ensures (a + (b + c)) + d == a + (b + (c + d))
  {
  }

  // ---- an equivalence, and one the hash respects ----

  lemma {:induction false} EqRefl(rnd: Rounding, a: Value)
    ensures ShenEq(rnd, a, a)
  {
  }

  lemma {:induction false} EqSym(rnd: Rounding, a: Value, b: Value)
    requires ShenEq(rnd, a, b)
    ensures ShenEq(rnd, b, a)
    decreases a
  {
    match (a, b)
    case (Pair(h, t), Pair(h', t')) =>
      if a != b {
        EqSym(rnd, h, h');
        EqSym(rnd, t, t');
      }
    case (Vec(x), Vec(y)) =>
      if a != b {
        forall i | 0 <= i < |x| ensures ShenEq(rnd, y[i], x[i]) { EqSym(rnd, x[i], y[i]); }
      }
    case _ =>
  }

  /** Each kind of value is only ever equal to its own, booleans and numbers counted as one kind each. */
  lemma {:induction false} EqParts(rnd: Rounding, a: Value, b: Value)
    requires ShenEq(rnd, a, b)
    ensures ShenBool(a) == ShenBool(b)
    ensures Number(rnd, a).Some? <==> Number(rnd, b).Some?
    ensures Number(rnd, a).Some? ==> Same(Number(rnd, a).value) == Same(Number(rnd, b).value)
    ensures a.Pair? <==> b.Pair?
    ensures a.Pair? ==> ShenEq(rnd, a.hd, b.hd) && ShenEq(rnd, a.tl, b.tl)
    ensures a.Vec? <==> b.Vec?
    ensures a.Vec? ==> |a.cells| == |b.cells| && forall i :: 0 <= i < |a.cells| ==> ShenEq(rnd, a.cells[i], b.cells[i])
    ensures ShenBool(a).None? && Number(rnd, a).None? && !a.Pair? && !a.Vec? ==> a == b
  {
  }

  /** The same facts are enough. */
  lemma {:induction false} PartsEq(rnd: Rounding, a: Value, b: Value)
    requires ShenBool(a) == ShenBool(b)
    requires Number(rnd, a).Some? <==> Number(rnd, b).Some?
    requires Number(rnd, a).Some? ==> Same(Number(rnd, a).value) == Same(Number(rnd, b).value)
    requires a.Pair? <==> b.Pair?
    requires a.Pair? ==> ShenEq(rnd, a.hd, b.hd) && ShenEq(rnd, a.tl, b.tl)
    requires a.Vec? <==> b.Vec?
    requires a.Vec? ==> |a.cells| == |b.cells| && forall i :: 0 <= i < |a.cells| ==> ShenEq(rnd, a.cells[i], b.cells[i])
    requires ShenBool(a).None? && Number(rnd, a).None? && !a.Pair? && !a.Vec? ==> a == b
    ensures ShenEq(rnd, a, b)
  {
  }

  lemma {:induction false} EqTrans(rnd: Rounding, a: Value, b: Value, c: Value)
    requires ShenEq(rnd, a, b) && ShenEq(rnd, b, c)
    ensures ShenEq(rnd, a, c)
    decreases a
  {
    EqParts(rnd, a, b);
    EqParts(rnd, b, c);
    hide ShenEq;
    if a.Pair? {
      EqTrans(rnd, a.hd, b.hd, c.hd);
      EqTrans(rnd, a.tl, b.tl, c.tl);
    } else if a.Vec? {
      forall i | 0 <= i < |a.cells| ensures ShenEq(rnd, a.cells[i], c.cells[i]) {
        EqTrans(rnd, a.cells[i], b.cells[i], c.cells[i]);
      }
    }
    PartsEq(rnd, a, c);
  }

  /** Equal values feed the hasher the same tokens. */
  lemma {:induction false} EqTokens(rnd: Rounding, a: Value, b: Value)
    requires ShenEq(rnd, a, b)
    ensures Tokens(rnd, a) == Tokens(rnd, b)
    decreases a, 0
  {
    EqParts(rnd, a, b);
    hide ShenEq;
    if a.Pair? {
      EqTokens(rnd, a.hd, b.hd);
      EqTokens(rnd, a.tl, b.tl);
    } else if a.Vec? {
      EqTokensOf(rnd, a, b, |a.cells|);
    }
  }

  lemma {:induction false} EqTokensOf(rnd: Rounding, a: Value, b: Value, k: nat)
    requires a.Vec? && b.Vec? && |a.cells| == |b.cells| && k <= |a.cells|
    requires forall i :: 0 <= i < |a.cells| ==> ShenEq(rnd, a.cells[i], b.cells[i])
    ensures TokensOf(rnd, a, k) == TokensOf(rnd, b, k)
    decreases a, 0, k
  {
    if k > 0 {
      EqTokensOf(rnd, a, b, k - 1);
      EqTokens(rnd, a.cells[k - 1], b.cells[k - 1]);
    }
  }

  /** Bucket numbers start at 1: slot 0 of a property vector holds its bound. */
  function HashBound(rnd: Rounding, fin: Finish, v: Value, bound: int): (r: Option<int>)
  {
    if bound < 1 then None
    else
      var h := fin(Tokens(rnd, v)) % bound;
      Some(if h == 0 then 1 else h)
  }

  /** Equal keys share a bucket, and it is one of `1 .. max(1, bound - 1)`. */
  lemma {:induction false} EqualKeysShareBucket(rnd: Rounding, fin: Finish, a: Value, b: Value, bound: int)
    requires ShenEq(rnd, a, b)
    ensures HashBound(rnd, fin, a, bound) == HashBound(rnd, fin, b, bound)
    ensures HashBound(rnd, fin, a, bound).Some? <==> bound >= 1
    ensures bound >= 1 ==> 1 <= HashBound(rnd, fin, a, bound).value <= if bound > 2 then bound - 1 else 1
  {
    EqTokens(rnd, a, b);
  }

  /** Without the crossings the hash would be wrong: these are equal, kind by kind. */
  lemma {:induction false} Crossings(rnd: Rounding, n: int)
    requires rnd(0) == 0.0
    ensures ShenEq(rnd, Int(n), Float(Fin(rnd(n)))) && ShenEq(rnd, Int(0), Float(NegZero))
    ensures ShenEq(rnd, Bool(true), Sym(K_TRUE)) && ShenEq(rnd, Sym(K_FALSE), Bool(false))
    ensures !ShenEq(rnd, Nil, Vec([])) && !ShenEq(rnd, Str("true"), Sym(K_TRUE))
  {
  }

  // ---- what equality is ----

  /** What a value stands for: one real for each finite number, one truth for both forms of a boolean. */
  datatype Meaning =
    | TheEnd
    | ATruth(b: bool)
    | AReal(x: real)
    | AnInfinity(positive: bool)
    | AName(id: nat)
    | AText(s: string)
    | AnError(s: string)
    | APair(first: Meaning, second: Meaning)
    | ARow(cells: seq<Meaning>)
    | ANode(node: nat)

  function MeaningOf(rnd: Rounding, v: Value): Meaning
    decreases v
  {
    match v
    case Nil => TheEnd
    case Bool(b) => ATruth(b)
    case Int(n) => AReal(rnd(n))
    case Float(Fin(x)) => AReal(x)
    case Float(NegZero) => AReal(0.0)
    case Float(Inf(p)) => AnInfinity(p)
    case Sym(id) => if id == K_TRUE then ATruth(true) else if id == K_FALSE then ATruth(false) else AName(id)
    case Str(s) => AText(s)
    case Err(s) => AnError(s)
    case Pair(h, t) => APair(MeaningOf(rnd, h), MeaningOf(rnd, t))
    case Vec(cells) => ARow(seq(|cells|, i requires 0 <= i < |cells| => MeaningOf(rnd, cells[i])))
    case Opaque(node) => ANode(node)
  }

  /** Values are equal exactly if they stand for the same. */
  lemma {:induction false} EqualIsMeaning(rnd: Rounding, a: Value, b: Value)
    ensures ShenEq(rnd, a, b) <==> MeaningOf(rnd, a) == MeaningOf(rnd, b)
    decreases a
  {
    match (a, b)
    case (Pair(h, t), Pair(h', t')) =>
      EqualIsMeaning(rnd, h, h');
      EqualIsMeaning(rnd, t, t');
    case (Vec(x), Vec(y)) =>
      forall i | 0 <= i < |x| && i < |y|
        ensures ShenEq(rnd, x[i], y[i]) <==> MeaningOf(rnd, x[i]) == MeaningOf(rnd, y[i])
      {
        EqualIsMeaning(rnd, x[i], y[i]);
      }
      CellsEqual(rnd, a, b);
    case _ =>
  }

  lemma {:induction false} CellsEqual(rnd: Rounding, a: Value, b: Value)
    requires a.Vec? && b.Vec?
    requires forall i :: 0 <= i < |a.cells| && i < |b.cells| ==>
               (ShenEq(rnd, a.cells[i], b.cells[i]) <==> MeaningOf(rnd, a.cells[i]) == MeaningOf(rnd, b.cells[i]))
    ensures ShenEq(rnd, a, b) <==> MeaningOf(rnd, a) == MeaningOf(rnd, b)
  {
    var x, y := MeaningOf(rnd, a), MeaningOf(rnd, b);
    if x == y {
      assert |a.cells| == |x.cells| == |y.cells| == |b.cells|;
      forall i | 0 <= i < |a.cells| ensures ShenEq(rnd, a.cells[i], b.cells[i]) {
        assert x.cells[i] == MeaningOf(rnd, a.cells[i]) && y.cells[i] == MeaningOf(rnd, b.cells[i]);
      }
    }
    if ShenEq(rnd, a, b) && a != b { assert x.cells == y.cells; }
  }

  /** Two numbers are equal exactly if the doubles they are compared as are. */
  lemma {:induction false} NumbersEqual(rnd: Rounding, m: int, n: int, x: real, y: real, p: bool, v: Value)
    ensures ShenEq(rnd, Int(m), Int(n)) <==> rnd(m) == rnd(n)
    ensures ShenEq(rnd, Float(Fin(x)), Float(Fin(y))) <==> x == y
    ensures ShenEq(rnd, Int(n), Float(Fin(x))) <==> rnd(n) == x
    ensures ShenEq(rnd, Float(NegZero), Float(Fin(x))) <==> x == 0.0
    ensures ShenEq(rnd, Float(NegZero), Int(n)) <==> rnd(n) == 0.0
    ensures ShenEq(rnd, Float(Inf(p)), v) <==> v == Float(Inf(p))
  {
    EqualIsMeaning(rnd, Int(m), Int(n));
    EqualIsMeaning(rnd, Float(Fin(x)), Float(Fin(y)));
    EqualIsMeaning(rnd, Int(n), Float(Fin(x)));
    EqualIsMeaning(rnd, Float(NegZero), Float(Fin(x)));
    EqualIsMeaning(rnd, Float(NegZero), Int(n));
    EqualIsMeaning(rnd, Float(Inf(p)), v);
  }

  // ---- what the hash tells apart ----

  predicate NoVector(v: Value)
  {
    match v
    case Pair(h, t) => NoVector(h) && NoVector(t)
    case Vec(_) => false
    case _ => true
  }

  /** Without vectors the tokens say where a value ends, and which one it is up to equality. */
  lemma {:induction false} TokensTell(rnd: Rounding, a: Value, b: Value, x: seq<Token>, y: seq<Token>)
    requires NoVector(a) && NoVector(b) && Tokens(rnd, a) + x == Tokens(rnd, b) + y
    ensures MeaningOf(rnd, a) == MeaningOf(rnd, b) && x == y
    decreases a
  {
    FirstToken(rnd, a, x);
    FirstToken(rnd, b, y);
    if a.Pair? {
      var rest, rest' := Tokens(rnd, a.tl) + x, Tokens(rnd, b.tl) + y;
      hide Tokens, MeaningOf;
      TokensTell(rnd, a.hd, b.hd, rest, rest');
      TokensTell(rnd, a.tl, b.tl, x, y);
      PairMeans(rnd, a, b);
    } else {
      AtomTokens(rnd, a, b, x, y);
    }
  }

  lemma {:induction false} FirstToken(rnd: Rounding, v: Value, x: seq<Token>)
    requires NoVector(v)
    ensures |Tokens(rnd, v)| > 0 && ((Tokens(rnd, v) + x)[0] == Kind(6) <==> v.Pair?)
    ensures v.Pair? ==> (Tokens(rnd, v) + x)[1..] == Tokens(rnd, v.hd) + (Tokens(rnd, v.tl) + x)
  {
    if v.Pair? {
      var h, t := Tokens(rnd, v.hd), Tokens(rnd, v.tl);
      assert Tokens(rnd, v) + x == [Kind(6)] + (h + (t + x));
    }
  }

  lemma {:induction false} PairMeans(rnd: Rounding, a: Value, b: Value)
    requires a.Pair? && b.Pair?
    requires MeaningOf(rnd, a.hd) == MeaningOf(rnd, b.hd) && MeaningOf(rnd, a.tl) == MeaningOf(rnd, b.tl)
    ensures MeaningOf(rnd, a) == MeaningOf(rnd, b)
  {
  }

  lemma {:induction false} AtomTokens(rnd: Rounding, a: Value, b: Value, x: seq<Token>, y: seq<Token>)
    requires NoVector(a) && NoVector(b) && !a.Pair? && Tokens(rnd, a) + x == Tokens(rnd, b) + y
    ensures MeaningOf(rnd, a) == MeaningOf(rnd, b) && x == y
  {
    var s, t := Tokens(rnd, a) + x, Tokens(rnd, b) + y;
    var k := |Tokens(rnd, a)|;
    assert s[0] == Tokens(rnd, a)[0] && t[0] == Tokens(rnd, b)[0];
    assert !b.Pair? && |Tokens(rnd, b)| == k;
    if k == 2 { assert s[1] == Tokens(rnd, a)[1] && t[1] == Tokens(rnd, b)[1]; }
    assert s[k..] == x && t[k..] == y;
  }

  /** Equal tokens mean equal keys, as long as no vector is part of them. */
  lemma {:induction false} SameTokensIff(rnd: Rounding, a: Value, b: Value)
    requires NoVector(a) && NoVector(b)
    ensures Tokens(rnd, a) == Tokens(rnd, b) <==> ShenEq(rnd, a, b)
  {
    if ShenEq(rnd, a, b) { EqTokens(rnd, a, b); }
    if Tokens(rnd, a) == Tokens(rnd, b) {
      TokensTell(rnd, a, b, [], []);
      EqualIsMeaning(rnd, a, b);
    }
  }

  /** A bucket takes the keys whose hash leaves its number as remainder; the first takes those that leave none, too. */
  lemma {:induction false} BucketTakes(rnd: Rounding, fin: Finish, v: Value, bound: int, i: int)
    requires bound >= 2 && 1 <= i < bound
    ensures HashBound(rnd, fin, v, bound) == Some(i) <==>
            var h := fin(Tokens(rnd, v));
            (exists k: int :: h == k * bound + i) || (i == 1 && exists k: int :: h == k * bound)
  {
    var h := fin(Tokens(rnd, v));
    assert h == (h / bound) * bound + h % bound;
    if k: int :| h == k * bound + i { Remainder(h, k, bound, i); }
    if k: int :| h == k * bound { Remainder(h, k, bound, 0); }
  }

  lemma {:induction false} Remainder(h: int, k: int, bound: int, i: int)
    requires bound > 0 && 0 <= i < bound && h == k * bound + i
    ensures h % bound == i
  {
    var q, r := h / bound, h % bound;
    assert h == q * bound + r;
    Small(q - k, bound, i - r);
  }

  lemma {:induction false} AtLeast(d: int, bound: int)
    requires d >= 1 && bound > 0
    ensures d * bound >= bound
  {
    assert (d - 1) * bound >= 0;
  }

  lemma {:induction false} Small(d: int, bound: int, e: int)
    requires bound > 0 && d * bound == e && -bound < e < bound
    ensures e == 0
  {
    if d >= 1 { AtLeast(d, bound); }
    if d <= -1 { AtLeast(-d, bound); }
  }
}
