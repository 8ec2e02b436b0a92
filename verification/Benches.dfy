/** The two list benches of benches/gc_spike.rs: on the collected heap, and with nodes never freed. */
module Benches {
  import opened Lists
  import opened Words
  import opened Graph
  import opened Mutator
  import opened Collector

  const WINDOW: nat := 4

  /** The list of `k - 1, .., 1, 0`. */
  predicate Chain(m: Memory, w: Word, k: nat)
    decreases k
  {
    if k == 0 then w == NIL
    else
      && IsCons(w) && ConsPtr(w) in m && m[ConsPtr(w)].head == Fixnum(k - 1)
      && Chain(m, m[ConsPtr(w)].tail, k - 1)
  }

  /** A list that the roots keep survives what leaves reachable nodes alone. */
  lemma {:induction false} ChainKept(m: Memory, m': Memory, roots: set<nat>, w: Word, k: nat)
    requires Chain(m, w, k) && Kept(m, roots, w)
    requires forall p :: Reach(m, roots, p) ==> p in m' && p in m && m'[p] == m[p]
    ensures Chain(m', w, k)
    decreases k
  {
    if k > 0 {
      var t := m[ConsPtr(w)].tail;
      if IsCons(t) { EdgeReaches(m, roots, ConsPtr(w), ConsPtr(t)); }
      ChainKept(m, m', roots, t, k - 1);
    }
  }

  /** What the fixnums `0 .. n` add up to: each keeps its low 61 bits. */
  function SumTo(n: nat): int
  {
    if n == 0 then 0 else SumTo(n - 1) + Wrap61(n - 1)
  }

  lemma {:induction false} SumIsTriangle(n: nat)
    requires n <= TWO60
    ensures SumTo(n) == n * (n - 1) / 2
  {
    if n > 0 {
      SumIsTriangle(n - 1);
      assert n * (n - 1) == (n - 1) * (n - 2) + 2 * (n - 1);
    }
  }

  function Length(n: int): nat { if n > 0 then n else 0 }

  /** What either bench returns: `iters` lists of `0 .. n`, summed with wrap-around. */
  function Expected(iters: nat, n: int): int
  {
    Wrap64(iters * SumTo(Length(n)))
  }

  lemma {:induction false} WrapAdd(a: int, b: int)
    ensures Wrap64(Wrap64(a) + b) == Wrap64(a + b)
    ensures Wrap64(a + Wrap64(b)) == Wrap64(a + b)
  {
    WrapShift(a + b, (a + TWO63) / TWO64);
    WrapShift(a + b, (b + TWO63) / TWO64);
    assert Wrap64(a) + b == a + b - TWO64 * ((a + TWO63) / TWO64);
    assert a + Wrap64(b) == a + b - TWO64 * ((b + TWO63) / TWO64);
  }

  lemma {:induction false} WrapShift(x: int, k: int)
    ensures Wrap64(x - TWO64 * k) == Wrap64(x)
  {
    ModShift(x + TWO63, k);
  }

  lemma {:induction false} ModShift(x: int, k: int)
    ensures (x - TWO64 * k) % TWO64 == x % TWO64
  {
    var d, m := x / TWO64, x % TWO64;
    assert x - TWO64 * k == TWO64 * (d - k) + m;
  }

  lemma {:induction false} NothingReached(m: Memory, p: nat)
    ensures !Reach(m, {}, p)
  {
    if Reach(m, {}, p) { ReachWithin(m, {}, {}, p); }
  }

  lemma {:induction false} NoTargets(roots: seq<Word>)
    requires forall w :: w in roots ==> w == NIL
    ensures Targets(roots) == {}
  {
  }

  /** Fewer roots leave the free nodes unused. */
  lemma {:induction false} FewerRoots(s: Store, a: set<nat>, b: set<nat>)
    requires Unused(s, b) && a <= b
    ensures Unused(s, a)
  {
    forall p | p in s.free ensures !Reach(s.cells, a, p) {
      if Reach(s.cells, a, p) {
        var k: nat :| ReachIn(s.cells, a, p, k);
        StepsMore(s.cells, a, b, p, k);
      }
    }
  }

  lemma {:induction false} TargetsUpdate(roots: seq<Word>, i: nat, w: Word)
    requires i < |roots|
    ensures Targets(roots[i := w]) <= Targets(roots) + Targets([w])
    ensures Targets([w]) <= Targets(roots[i := w])
    ensures !IsCons(w) ==> Targets(roots[i := w]) <= Targets(roots)
  {
    assert roots[i := w][i] == w;
  }

  /** The heap can serve the roots. */
  ghost predicate Serves(heap: Heap, roots: seq<Word>)
    reads heap
  {
    heap.Valid() && Targets(roots) <= heap.memory.Keys && Unused(heap.Abs(), Targets(roots))
  }

  /** A root slot gets a word that the roots keep, or none. */
  lemma {:induction false} ServesUpdate(heap: Heap, roots: seq<Word>, i: nat, w: Word)
    requires Serves(heap, roots) && i < |roots| && (w in roots || !IsCons(w))
    ensures Serves(heap, roots[i := w])
  {
    assert Targets(roots[i := w]) <= Targets(roots);
    FewerRoots(heap.Abs(), Targets(roots[i := w]), Targets(roots));
  }

  /** A root slot gets the node just allocated. */
  lemma {:induction false} ServesNew(heap: Heap, m: Memory, roots: seq<Word>, i: nat, w: Word)
    requires heap.Valid() && Unused(heap.Abs(), Targets(roots) + {ConsPtr(w)}) && i < |roots|
    requires IsCons(w) && ConsPtr(w) in heap.memory
    requires forall p :: Reach(m, Targets(roots), p) ==> p in heap.memory
    ensures Serves(heap, roots[i := w])
  {
    var rs := Targets(roots);
    TargetsUpdate(roots, i, w);
    TargetsOne(w);
    FewerRoots(heap.Abs(), Targets(roots[i := w]), rs + {ConsPtr(w)});
    RootsStay(m, heap.Cells(), rs);
  }

  /** One list of `n` elements, its head always in the build slot. */
  method BuildList(heap: Heap, n: int, roots: seq<Word>) returns (xs: Word, roots': seq<Word>)
    requires |roots| == WINDOW + 1 && Serves(heap, roots) && roots[WINDOW] == NIL
    modifies heap
    ensures |roots'| == WINDOW + 1 && roots' == roots[WINDOW := xs] && Serves(heap, roots')
    ensures Chain(heap.Cells(), xs, Length(n))
  {
    hide Reach, Edge, Unused, Allocated, WellFormed, Wrap64, Wrap61;
    xs, roots' := NIL, roots;
    var i := 0;
    while i < n
      invariant 0 <= i && (n >= 0 ==> i <= n) && (n < 0 ==> i == 0)
      invariant roots' == roots[WINDOW := xs] && Serves(heap, roots') && Chain(heap.Cells(), xs, i)
    {
      assert roots'[WINDOW := xs] == roots';
      roots' := roots'[WINDOW := xs];
      assert xs in roots' by { assert roots'[WINDOW] == xs; }
      ghost var m, rs := heap.Cells(), Targets(roots');
      if IsCons(xs) { RootReaches(m, rs, ConsPtr(xs)); }
      assert Kept(m, rs, xs);
      FixnumRoundTrip(i);
      var w := heap.Alloc(Fixnum(i), xs, roots');
      ChainKept(m, heap.Cells(), rs, xs, i);
      ServesNew(heap, m, roots', WINDOW, w);
      xs := w;
      roots' := roots'[WINDOW := xs];
      i := i + 1;
    }
  }

  lemma {:induction false} RootsStay(m: Memory, m': Memory, roots: set<nat>)
    requires forall p :: Reach(m, roots, p) ==> p in m'
    ensures roots <= m'.Keys
  {
    forall p | p in roots ensures p in m' { RootReaches(m, roots, p); }
  }

  /** The sum of a list, added with wrap-around. */
  method SumList(m: Memory, xs: Word, ghost n: nat) returns (acc: int)
    requires Chain(m, xs, n)
    ensures acc == Wrap64(SumTo(n))
  {
    acc := 0;
    var cur := xs;
    ghost var k := n;
    while IsCons(cur)
      invariant 0 <= k <= n && Chain(m, cur, k) && acc == Wrap64(SumTo(n) - SumTo(k))
      decreases k
    {
      assert k != 0;
      var cell := m[ConsPtr(cur)];
      FixnumRoundTrip(k - 1);
      WrapAdd(SumTo(n) - SumTo(k), Wrap61(k - 1));
      acc := Wrap64(acc + AsFixnum(cell.head));
      cur := cell.tail;
      k := k - 1;
    }
  }

  lemma {:induction false} OneMoreList(it: nat, n: int, total: int)
    requires total == Expected(it, n)
    ensures Wrap64(total + Wrap64(SumTo(Length(n)))) == Expected(it + 1, n)
  {
    var s := SumTo(Length(n));
    OneMoreTimes(it, s);
    hide Wrap64;
    WrapAdd(total, s);
    WrapAdd(it * s, s);
  }

  lemma {:induction false} OneMoreTimes(it: nat, s: int)
    ensures (it + 1) * s == it * s + s
  {
  }

  /** On the collected heap, whatever its state and its cap. */
  method GcBench(heap: Heap, iters: nat, n: int) returns (total: int)
    requires heap.Valid()
    modifies heap
    ensures heap.Valid() && total == Expected(iters, n)
  {
    var roots: seq<Word> := seq(WINDOW + 1, _ => NIL);
    NoTargets(roots);
    forall p ensures !Reach(heap.Abs().cells, {}, p) { NothingReached(heap.Abs().cells, p); }
    assert Serves(heap, roots);
    total := 0;
    var it := 0;
    while it < iters
      invariant 0 <= it <= iters && |roots| == WINDOW + 1 && Serves(heap, roots)
      invariant total == Expected(it, n)
    {
      ServesUpdate(heap, roots, WINDOW, NIL);
      roots := roots[WINDOW := NIL];
      var xs;
      xs, roots := BuildList(heap, n, roots);
      var acc := SumList(CellsOf(heap.memory), xs, Length(n));
      OneMoreList(it, n, total);
      total := Wrap64(total + acc);
      assert xs in roots by { assert roots[WINDOW] == xs; }
      ServesUpdate(heap, roots, it % WINDOW, xs);
      roots := roots[it % WINDOW := xs];
      ServesUpdate(heap, roots, WINDOW, NIL);
      roots := roots[WINDOW := NIL];
      it := it + 1;
    }
  }

  /** Nodes that are handed out in the order of their addresses and never again. */
  predicate Below(arena: Memory, top: nat)
  {
    IsAddress(top) && forall p :: p in arena ==> p < top
  }

  method LeakList(arena: Memory, top: nat, n: int) returns (arena': Memory, top': nat, xs: Word)
    requires Below(arena, top)
    ensures Below(arena', top') && Chain(arena', xs, Length(n))
  {
    arena', top', xs := arena, top, NIL;
    var i := 0;
    while i < n
      invariant 0 <= i && (n >= 0 ==> i <= n) && (n < 0 ==> i == 0)
      invariant Below(arena', top') && Chain(arena', xs, i)
    {
      PtrRoundTrip(top');
      ChainGrows(arena', arena'[top' := Cell(Fixnum(i), xs)], xs, i);
      arena' := arena'[top' := Cell(Fixnum(i), xs)];
      xs := FromPtr(top');
      top' := top' + 8;
      i := i + 1;
    }
  }

  /** With nodes that are never freed: the same total. */
  method LeakBench(iters: nat, n: int) returns (total: int)
    ensures total == Expected(iters, n)
  {
    var arena: Memory, top: nat := map[], 0;
    total := 0;
    var it := 0;
    while it < iters
      invariant 0 <= it <= iters && total == Expected(it, n) && Below(arena, top)
    {
      var xs;
      arena, top, xs := LeakList(arena, top, n);
      var acc := SumList(arena, xs, Length(n));
      OneMoreList(it, n, total);
      total := Wrap64(total + acc);
      it := it + 1;
    }
  }

  lemma {:induction false} ChainGrows(m: Memory, m': Memory, w: Word, k: nat)
    requires Chain(m, w, k) && forall p :: p in m ==> p in m' && m'[p] == m[p]
    ensures Chain(m', w, k)
    decreases k
  {
    if k > 0 { ChainGrows(m, m', m[ConsPtr(w)].tail, k - 1); }
  }
}
