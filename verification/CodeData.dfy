/** Code as data: syntax trees and the list values that stand for them (primitives.rs, kl/ast.rs). */
module CodeData {
  import opened Lists
  import opened Kl
  import opened Machine

  function ListOf(items: seq<Value>): Value
  {
    if items == [] then VNil else VCons(items[0], ListOf(items[1..]))
  }

  /** `Value::list`: built from the last item back. */
  method List(items: seq<Value>) returns (acc: Value)
    ensures acc == ListOf(items)
  {
    acc := VNil;
    var i := |items|;
    while i > 0
      invariant 0 <= i <= |items| && acc == ListOf(items[i..])
    {
      i := i - 1;
      assert items[i..][1..] == items[i + 1..];
      acc := VCons(items[i], acc);
    }
    assert items[0..] == items;
  }

  predicate Proper(v: Value)
  {
    v.VNil? || (v.VCons? && Proper(v.tl))
  }

  /** The elements up to the end, or up to whatever ends the list instead. */
  function Items(v: Value): seq<Value>
  {
    match v
    case VCons(h, t) => [h] + Items(t)
    case _ => []
  }

  /** `list_to_vec`: none for an improper list. */
  method ListToVec(v: Value) returns (r: Option<seq<Value>>)
    ensures r == if Proper(v) then Some(Items(v)) else None
  {
    var out, cur := [], v;
    while cur.VCons?
      invariant out + Items(cur) == Items(v) && (Proper(cur) <==> Proper(v))
      decreases cur
    {
      out, cur := out + [cur.hd], cur.tl;
    }
    assert Items(cur) == [] && out + [] == out;
    r := if cur.VNil? then Some(out) else None;
  }

  /** `read_list`: an improper list is cut short without a word. */
  method ReadList(v: Value) returns (out: seq<Value>)
    ensures out == Items(v)
    ensures ListOf(out) == v <==> Proper(v)
  {
    out := [];
    var cur := v;
    while cur.VCons?
      invariant out + Items(cur) == Items(v)
      decreases cur
    {
      out, cur := out + [cur.hd], cur.tl;
    }
    assert Items(cur) == [];
    ListOfItems(v);
  }

  lemma {:induction false} ListOfItems(v: Value)
    ensures ListOf(Items(v)) == v <==> Proper(v)
  {
    if v.VCons? {
      ListOfItems(v.tl);
      assert Items(v)[1..] == Items(v.tl);
    }
  }

  lemma {:induction false} ItemsOfList(items: seq<Value>)
    ensures Proper(ListOf(items)) && Items(ListOf(items)) == items
  {
    if items != [] { ItemsOfList(items[1..]); }
  }

  /** `value_to_klexpr` */
  function FromValue(v: Value): Option<Expr>
  {
    match v
    case VNil => Some(Nil)
    case VBool(b) => Some(Bool(b))
    case VInt(n) => Some(Int(n))
    case VFloat(x) => Some(Float(x))
    case VStr(s) => Some(Str(s))
    case VSym(x) => Some(Sym(x))
    case VCons(_, _) => (match FromList(v) case Some(es) => Some(App(es)) case None => None)
    case _ => None
  }

  function FromList(v: Value): Option<List<Expr>>
    decreases v, 0
  {
    match v
    case VNil => Some(Empty)
    case VCons(h, t) =>
      (match (FromValue(h), FromList(t))
       case (Some(e), Some(es)) => Some(Cons(e, es))
       case _ => None)
    case _ => None
  }

  lemma {:induction false} ImproperFails(v: Value)
    requires !Proper(v)
    ensures FromList(v) == None
  {
    if v.VCons? { ImproperFails(v.tl); }
  }

  lemma {:induction false} ItemsBelow(v: Value, i: nat)
    requires i < |Items(v)|
    ensures Items(v)[i] < v
  {
    if i > 0 { ItemsBelow(v.tl, i - 1); }
  }

  /** The conversion as it is written: the list first, then its elements one after the other. */
  method ValueToKlExpr(v: Value) returns (r: Option<Expr>)
    ensures r == FromValue(v)
    decreases v
  {
    if !v.VCons? { return FromValue(v); }
    var items := ListToVec(v);
    if items.None? {
      ImproperFails(v);
      return None;
    }
    var elems: List<Expr>, i := Empty, 0;
    ghost var rest := v;
    while i < |items.value|
      invariant 0 <= i <= |items.value| && Proper(rest) && items.value[i..] == Items(rest)
      invariant FromList(v) == match FromList(rest) case Some(es) => Some(Append(elems, es)) case None => None
    {
      assert rest.VCons? && items.value[i] == rest.hd;
      ItemsBelow(v, i);
      var e := ValueToKlExpr(items.value[i]);
      if e.None? { return None; }
      forall es { AppendOne(elems, e.value, es); }
      elems := Append(elems, Cons(e.value, Empty));
      assert items.value[i + 1..] == items.value[i..][1..];
      rest, i := rest.tl, i + 1;
    }
    AppendNone(elems);
    r := Some(App(elems));
  }

  // ---- round trips ----

  /** No empty application, and no integer that would become a float. */
  predicate Faithful(e: Expr)
  {
    match e
    case Int(n) => FIXNUM_MIN <= n <= FIXNUM_MAX
    case App(items) => items.Cons? && AllFaithful(items)
    case _ => true
  }

  predicate AllFaithful(es: List<Expr>)
  {
    es.Cons? ==> Faithful(es.head) && AllFaithful(es.tail)
  }

  /** A syntax tree survives the trip through data exactly if it is faithful. */
  lemma {:induction false} CodeRoundTrip(e: Expr)
    ensures FromValue(Quote(e)) == Some(e) <==> Faithful(e)
    decreases e
  {
    if e.App? { ListRoundTrip(e.items); }
  }

  lemma {:induction false} ListRoundTrip(es: List<Expr>)
    ensures FromList(QuoteList(es)) == Some(es) <==> AllFaithful(es)
    decreases es
  {
    if es.Cons? {
      CodeRoundTrip(es.head);
      ListRoundTrip(es.tail);
    }
  }

  /** Atoms, and proper lists of such data; an integer is one a fixnum can hold. */
  predicate IsCode(v: Value)
  {
    match v
    case VNil => true
    case VBool(_) => true
    case VInt(n) => FIXNUM_MIN <= n <= FIXNUM_MAX
    case VFloat(_) => true
    case VStr(_) => true
    case VSym(_) => true
    case VCons(h, t) => IsCode(h) && IsCode(t) && (t.VNil? || t.VCons?)
    case _ => false
  }

  /** Data survives the trip through code exactly if it is code. */
  lemma {:induction false} DataRoundTrip(v: Value)
    ensures FromValue(v).Some? && Quote(FromValue(v).value) == v <==> IsCode(v)
    decreases v, 1
  {
    if v.VCons? { DataListRoundTrip(v); }
  }

  lemma {:induction false} DataListRoundTrip(v: Value)
    requires v.VNil? || v.VCons?
    ensures FromList(v).Some? && QuoteList(FromList(v).value) == v <==> IsCode(v)
    decreases v, 0
  {
    if v.VCons? {
      DataRoundTrip(v.hd);
      if v.tl.VNil? || v.tl.VCons? { DataListRoundTrip(v.tl); }
    }
  }
}
