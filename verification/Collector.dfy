/**
 The non-moving mark-sweep heap with precise roots (benches/gc_spike.rs): a node is marked when
 it is popped from the mark stack.
 */
module Collector {
  import opened Lists
  import opened Words
  import opened Graph
  import opened Mutator

  datatype Node = Node(head: Word, tail: Word, mark: bool)

  function CellsOf(memory: map<nat, Node>): Memory
  {
    map p | p in memory :: Cell(memory[p].head, memory[p].tail)
  }

  function MarkedIn(memory: map<nat, Node>): set<nat>
  {
    set p | p in memory && memory[p].mark
  }

  /** The nodes of `all` that the roots do not reach, in the order of `all`. */
  ghost function Unreached(m: Memory, all: seq<nat>, roots: set<nat>): (r: seq<nat>)
  {
    if all == [] then []
    else
      var rest := Unreached(m, all[..|all| - 1], roots);
      if Reach(m, roots, all[|all| - 1]) then rest else rest + [all[|all| - 1]]
  }

  ghost function Reached(m: Memory, all: seq<nat>, roots: set<nat>): nat
  {
    if all == [] then 0
    else Reached(m, all[..|all| - 1], roots) + if Reach(m, roots, all[|all| - 1]) then 1 else 0
  }

  predicate NoDuplicates(xs: seq<nat>)
  {
    forall i, j :: 0 <= i < j < |xs| ==> xs[i] != xs[j]
  }

  lemma {:induction false} UnreachedIs(m: Memory, all: seq<nat>, roots: set<nat>)
    requires NoDuplicates(all)
    ensures NoDuplicates(Unreached(m, all, roots))
    ensures forall p :: p in Unreached(m, all, roots) <==> p in all && !Reach(m, roots, p)
    ensures |Unreached(m, all, roots)| + Reached(m, all, roots) == |all|
  {
    if all != [] {
      var k := |all| - 1;
      UnreachedIs(m, all[..k], roots);
      assert all == all[..k] + [all[k]];
      assert all[k] !in all[..k];
    }
  }

  // ---- marking ----

  /**
   Everything marked or pending is reachable; every root, and every child of a marked node, is
   marked or pending.
   */
  ghost predicate Marking(m: Memory, roots: set<nat>, marked: set<nat>, stack: seq<Word>)
  {
    && marked <= m.Keys && Targets(stack) <= m.Keys
    && (forall p :: p in marked || p in Targets(stack) ==> Reach(m, roots, p))
    && (forall p :: p in roots ==> p in marked || p in Targets(stack))
    && (forall p, q :: p in marked && Edge(m, p, q) ==> q in marked || q in Targets(stack))
  }

  lemma {:induction false} TargetsLess(stack: seq<Word>)
    requires stack != []
    ensures Targets(stack) == Targets(stack[..|stack| - 1]) + Targets([stack[|stack| - 1]])
  {
    assert stack == stack[..|stack| - 1] + [stack[|stack| - 1]];
  }

  lemma {:induction false} TargetsMore(stack: seq<Word>, a: Word, b: Word)
    ensures Targets(stack + [a] + [b]) == Targets(stack) + Targets([a]) + Targets([b])
  {
  }

  lemma {:induction false} TargetsOne(w: Word)
    ensures Targets([w]) == if IsCons(w) then {ConsPtr(w)} else {}
  {
    assert w in [w];
  }

  /** Popping a word that is no node, or a node that is marked. */
  lemma {:induction false} MarkSkip(m: Memory, roots: set<nat>, marked: set<nat>, stack: seq<Word>)
    requires Marking(m, roots, marked, stack) && stack != []
    requires var w := stack[|stack| - 1]; IsCons(w) ==> ConsPtr(w) in marked
    ensures Marking(m, roots, marked, stack[..|stack| - 1])
  {
    TargetsLess(stack);
    TargetsOne(stack[|stack| - 1]);
  }

  /** Popping an unmarked node: it is marked, and its children are pending. */
  lemma {:induction false} MarkOne(m: Memory, roots: set<nat>, marked: set<nat>, stack: seq<Word>)
    requires Marking(m, roots, marked, stack) && stack != []
    requires forall p, q :: p in m && Edge(m, p, q) ==> q in m
    requires IsCons(stack[|stack| - 1])
    ensures var p := ConsPtr(stack[|stack| - 1]);
            p in m && Marking(m, roots, marked + {p}, stack[..|stack| - 1] + [m[p].head] + [m[p].tail])
  {
    var w := stack[|stack| - 1];
    var p := ConsPtr(w);
    TargetsLess(stack);
    TargetsOne(w);
    var more := stack[..|stack| - 1] + [m[p].head] + [m[p].tail];
    TargetsMore(stack[..|stack| - 1], m[p].head, m[p].tail);
    TargetsOne(m[p].head);
    TargetsOne(m[p].tail);
    forall q | Edge(m, p, q) ensures Reach(m, roots, q) && q in Targets(more) { EdgeReaches(m, roots, p, q); }
    forall q | q in Targets([m[p].head]) + Targets([m[p].tail]) ensures Edge(m, p, q) {}
  }

  lemma {:induction false} MarkDone(m: Memory, roots: set<nat>, marked: set<nat>)
    requires Marking(m, roots, marked, [])
    ensures forall p :: p in marked <==> Reach(m, roots, p)
  {
    assert Closed(m, marked);
    forall p | Reach(m, roots, p) ensures p in marked { ReachWithin(m, roots, marked, p); }
  }

  lemma {:induction false} SetMark(memory: map<nat, Node>, p: nat, b: bool)
    requires p in memory
    ensures var memory' := memory[p := memory[p].(mark := b)];
            && CellsOf(memory') == CellsOf(memory) && memory'.Keys == memory.Keys
            && MarkedIn(memory') == if b then MarkedIn(memory) + {p} else MarkedIn(memory) - {p}
  {
  }

  /** Writing the words of the last free node, and taking it off the list. */
  lemma {:induction false} TakeNode(memory: map<nat, Node>, free: seq<nat>, head: Word, tail: Word)
    requires WellFormed(Store(CellsOf(memory), free)) && free != []
    requires (IsCons(head) ==> ConsPtr(head) in memory) && (IsCons(tail) ==> ConsPtr(tail) in memory)
    ensures var p := free[|free| - 1];
            var memory' := memory[p := Node(head, tail, false)];
            && p in memory && MarkedIn(memory') == MarkedIn(memory) - {p}
            && WellFormed(Store(CellsOf(memory'), free[..|free| - 1]))
            && Took(Store(CellsOf(memory), free), Store(CellsOf(memory'), free[..|free| - 1]), head, tail, FromPtr(p))
  {
    var p := free[|free| - 1];
    assert p in free;
    var m, memory' := CellsOf(memory), memory[p := Node(head, tail, false)];
    assert CellsOf(memory') == m[p := Cell(head, tail)];
    forall a, b | a in memory' && Edge(CellsOf(memory'), a, b) ensures b in memory' {
      if a != p { assert Edge(m, a, b); }
    }
  }

  /** A new node, free. */
  lemma {:induction false} AddNode(memory: map<nat, Node>, free: seq<nat>, p: nat)
    requires WellFormed(Store(CellsOf(memory), free)) && p !in memory && IsAddress(p)
    ensures var memory' := memory[p := Node(NIL, NIL, false)];
            && MarkedIn(memory') == MarkedIn(memory)
            && WellFormed(Store(CellsOf(memory'), free + [p]))
            && Grown(Store(CellsOf(memory), free), Store(CellsOf(memory'), free + [p]))
  {
    var m, memory' := CellsOf(memory), memory[p := Node(NIL, NIL, false)];
    assert CellsOf(memory') == m[p := Cell(NIL, NIL)];
    forall q | q in free ensures q in memory { assert q in Store(m, free).free; }
    forall a, b | a in memory' && Edge(CellsOf(memory'), a, b) ensures b in memory' {
      assert Edge(m, a, b);
    }
  }

  function ToSet(xs: seq<nat>): set<nat>
  {
    set x | x in xs
  }

  lemma {:induction false} ToSetMore(xs: seq<nat>, i: nat)
    requires i < |xs|
    ensures ToSet(xs[..i + 1]) == ToSet(xs[..i]) + {xs[i]}
    ensures xs[..i + 1][..i] == xs[..i] && xs[..i + 1][|xs[..i + 1]| - 1] == xs[i]
  {
    assert xs[..i + 1] == xs[..i] + [xs[i]];
  }

  /** Some address that no node has yet. */
  method Malloc(memory: map<nat, Node>) returns (p: nat)
    ensures IsAddress(p) && p !in memory
  {
    p := 0;
    ghost var above := memory.Keys;
    while p in memory
      invariant IsAddress(p) && above <= memory.Keys && forall q :: q in memory && q >= p ==> q in above
      decreases |above|
    {
      above := above - {p};
      p := p + 8;
    }
  }

  /** The sweep of both collectors: one pass over the nodes. */
  method SweepNodes(all: seq<nat>, memory: map<nat, Node>, ghost roots: set<nat>)
    returns (memory': map<nat, Node>, free: seq<nat>, live: nat)
    requires NoDuplicates(all) && forall p :: p in all <==> p in memory
    requires forall p :: p in memory ==> (p in MarkedIn(memory) <==> Reach(CellsOf(memory), roots, p))
    ensures CellsOf(memory') == CellsOf(memory) && memory'.Keys == memory.Keys && MarkedIn(memory') == {}
    ensures free == Unreached(CellsOf(memory), all, roots) && live == Reached(CellsOf(memory), all, roots)
  {
    ghost var m := CellsOf(memory);
    memory', free, live := memory, [], 0;
    var i := 0;
    while i < |all|
      invariant 0 <= i <= |all|
      invariant CellsOf(memory') == m && memory'.Keys == m.Keys
      invariant MarkedIn(memory') == MarkedIn(memory) - ToSet(all[..i])
      invariant free == Unreached(m, all[..i], roots) && live == Reached(m, all[..i], roots)
    {
      var p := all[i];
      assert p !in all[..i];
      assert memory'[p].mark <==> p in MarkedIn(memory');
      ToSetMore(all, i);
      if memory'[p].mark {
        SetMark(memory', p, false);
        memory' := memory'[p := memory'[p].(mark := false)];
        live := live + 1;
      } else {
        free := free + [p];
      }
      i := i + 1;
    }
    assert all[..i] == all;
  }

  /** After a sweep the free list is again one. */
  lemma {:induction false} SweptIsWellFormed(m: Memory, free: seq<nat>, all: seq<nat>, roots: set<nat>)
    requires WellFormed(Store(m, free)) && NoDuplicates(all) && forall p :: p in all <==> p in m
    ensures WellFormed(Store(m, Unreached(m, all, roots)))
  {
    UnreachedIs(m, all, roots);
  }

  class Heap {
    var all: seq<nat>
    var memory: map<nat, Node>
    var free: seq<nat>
    var cap: nat
    var markStack: seq<Word>
    var collections: nat
    var peakLive: nat
    /** The most nodes that the roots have reached at any allocation so far. */
    ghost var most: nat

    ghost function Cells(): Memory
      reads this
    {
      CellsOf(memory)
    }

    ghost function Abs(): Store
      reads this
    {
      Store(CellsOf(memory), free)
    }

    /**
     Every node is listed once, holds words that name nodes, and is clear of marks between
     collections; and there are never more nodes than the cap, or than one more than were in use.
     */
    ghost predicate Valid()
      reads this
    {
      && NoDuplicates(all) && (forall p :: p in all <==> p in memory)
      && MarkedIn(memory) == {}
      && WellFormed(Abs())
      && |all| <= Max(cap, most + 1)
    }

    constructor (n: nat)
      ensures Valid() && all == [] && free == [] && memory == map[] && cap == n
      ensures collections == 0 && peakLive == 0 && most == 0
    {
      most := 0;
      all, memory, free, cap := [], map[], [], n;
      markStack, collections, peakLive := [], 0, 0;
    }

    /** Afterwards a node is marked exactly if a root reaches it. */
    method Mark(roots: seq<Word>)
      requires Valid() && Targets(roots) <= memory.Keys
      modifies this`memory, this`markStack
      ensures CellsOf(memory) == old(CellsOf(memory)) && memory.Keys == old(memory.Keys)
      ensures forall p :: p in MarkedIn(memory) <==> Reach(CellsOf(memory), Targets(roots), p)
      ensures markStack == []
    {
      ghost var m := CellsOf(memory);
      ghost var rs := Targets(roots);
      markStack := roots;
      forall p | p in rs ensures Reach(m, rs, p) { RootReaches(m, rs, p); }
      while markStack != []
        invariant CellsOf(memory) == m && memory.Keys == m.Keys
        invariant Marking(m, rs, MarkedIn(memory), markStack)
        decreases m.Keys - MarkedIn(memory), |markStack|
      {
        var w := markStack[|markStack| - 1];
        ghost var before := markStack;
        markStack := markStack[..|markStack| - 1];
        TargetsLess(before);
        TargetsOne(w);
        if !IsCons(w) || memory[ConsPtr(w)].mark {
          MarkSkip(m, rs, MarkedIn(memory), before);
        } else {
          var p := ConsPtr(w);
          MarkOne(m, rs, MarkedIn(memory), before);
          SetMark(memory, p, true);
          memory := memory[p := memory[p].(mark := true)];
          markStack := markStack + [memory[p].head];
          markStack := markStack + [memory[p].tail];
        }
      }
      MarkDone(m, rs, MarkedIn(memory));
    }

    /** Unmarked nodes go to the free list; the others lose their marks. */
    method Sweep(ghost roots: set<nat>)
      requires NoDuplicates(all) && forall p :: p in all <==> p in memory
      requires forall p :: p in memory ==> (p in MarkedIn(memory) <==> Reach(CellsOf(memory), roots, p))
      modifies this`memory, this`free, this`peakLive, this`collections
      ensures CellsOf(memory) == old(CellsOf(memory)) && memory.Keys == old(memory.Keys)
      ensures MarkedIn(memory) == {} && free == Unreached(CellsOf(memory), all, roots)
      ensures collections == old(collections) + 1
      ensures peakLive == Max(Reached(CellsOf(memory), all, roots), old(peakLive))
    {
      var live;
      memory, free, live := SweepNodes(all, memory, roots);
      if live > peakLive { peakLive := live; }
      collections := collections + 1;
    }

    /** The free list becomes exactly the nodes the roots do not reach; no node's words change. */
    method Collect(roots: seq<Word>)
      requires Valid() && Targets(roots) <= memory.Keys
      modifies this`memory, this`markStack, this`free, this`peakLive, this`collections
      ensures Valid() && Cells() == old(Cells())
      ensures free == Unreached(Cells(), all, Targets(roots))
      ensures collections == old(collections) + 1
      ensures peakLive == Max(Reached(Cells(), all, Targets(roots)), old(peakLive))
    {
      hide Reach, Edge, WellFormed;
      SweptIsWellFormed(CellsOf(memory), free, all, Targets(roots));
      Mark(roots);
      Sweep(Targets(roots));
    }

    /** One more node, free. */
    method Grow()
      requires Valid() && free == [] && |all| < Max(cap, most + 1)
      modifies this`all, this`memory, this`free
      ensures Valid() && Grown(old(Abs()), Abs()) && |free| == 1 && |all| == old(|all|) + 1
      ensures forall p :: p in free ==> p !in old(memory)
    {
      hide WellFormed, Grown;
      var p := Malloc(memory);
      AddNode(memory, free, p);
      all := all + [p];
      memory := memory[p := Node(NIL, NIL, false)];
      free := free + [p];
    }

    /** The words of a free node are overwritten. */
    method Take(head: Word, tail: Word) returns (w: Word)
      requires Valid() && free != []
      requires (IsCons(head) ==> ConsPtr(head) in memory) && (IsCons(tail) ==> ConsPtr(tail) in memory)
      modifies this`memory, this`free
      ensures Valid() && Took(old(Abs()), Abs(), head, tail, w)
    {
      hide WellFormed, Took;
      TakeNode(memory, free, head, tail);
      var p := free[|free| - 1];
      free := free[..|free| - 1];
      memory := memory[p := Node(head, tail, false)];
      w := FromPtr(p);
    }

    /** A free node: from the list, or else by a collection, or else by growth. */
    method Refill(roots: seq<Word>) returns (ghost s1: Store)
      requires Valid() && Targets(roots) <= memory.Keys && Unused(Abs(), Targets(roots))
      modifies this
      ensures Valid() && cap == old(cap) && free != []
      ensures most == Max(old(most), Reached(old(Cells()), old(all), Targets(roots)))
      ensures (s1 == old(Abs()) || Collected(old(Abs()), s1, Targets(roots))) && (Abs() == s1 || Grown(s1, Abs()))
      ensures forall p :: Reach(old(Cells()), Targets(roots), p) ==>
                p in old(memory) && p in memory && Cells()[p] == old(Cells())[p] && p !in free
      ensures collections == old(collections) + if old(free) == [] && old(|all|) >= cap then 1 else 0
    {
      hide Reach, Edge, WellFormed;
      ghost var m, rs := CellsOf(memory), Targets(roots);
      assert (forall a, b :: a in m && Edge(m, a, b) ==> b in m) by { WellFormedEdges(Abs()); }
      most := Max(most, Reached(m, all, rs));
      ghost var s := Abs();
      if free == [] {
        if |all| >= cap {
          Collect(roots);
          UnreachedIs(m, all, rs);
        }
      }
      s1 := Abs();
      assert Unused(s1, rs);
      ReachStays(m, m, rs);
      if free == [] { Grow(); }
    }

    /**
     A cons in a node that the roots do not reach. The roots must reach every word still wanted,
     the two stored here included.
     */
    method Alloc(head: Word, tail: Word, roots: seq<Word>) returns (w: Word)
      requires Valid() && Targets(roots) <= memory.Keys && Unused(Abs(), Targets(roots))
      requires Kept(Cells(), Targets(roots), head) && Kept(Cells(), Targets(roots), tail)
      modifies this
      ensures Valid() && cap == old(cap)
      ensures Allocated(old(Abs()), Abs(), head, tail, Targets(roots), w)
      ensures IsCons(w) && ConsPtr(w) in memory && Cells()[ConsPtr(w)] == Cell(head, tail)
      ensures forall p :: Reach(old(Cells()), Targets(roots), p) ==>
                p != ConsPtr(w) && p in old(memory) && p in memory && Cells()[p] == old(Cells())[p]
      ensures Unused(Abs(), Targets(roots) + {ConsPtr(w)})
      ensures collections == old(collections) + if old(free) == [] && old(|all|) >= cap then 1 else 0
      ensures most == Max(old(most), Reached(old(Cells()), old(all), Targets(roots)))
    {
      hide Reach, Unused, Allocated, AllocatedVia, Took, Grown, Collected, Kept, Edge;
      ghost var s, rs := Abs(), Targets(roots);
      KeptIsNode(s, rs, head);
      KeptIsNode(s, rs, tail);
      ghost var s1 := Refill(roots);
      ghost var s2 := Abs();
      KeptStays(s, s2, rs, head);
      KeptStays(s, s2, rs, tail);
      w := Take(head, tail);
      AllocFacts(s, s1, s2, Abs(), head, tail, rs, w);
    }
  }

  /** What an allocation is, and what it leaves alone. */
  lemma {:induction false} AllocFacts(
    s: Store, s1: Store, s2: Store, t: Store, head: Word, tail: Word, roots: set<nat>, w: Word)
    requires AllocatedVia(s, s1, s2, t, head, tail, roots, w) && WellFormed(s2) && roots <= s.cells.Keys
    requires forall p :: Reach(s.cells, roots, p) ==>
               p in s.cells && p in s2.cells && s2.cells[p] == s.cells[p] && p !in s2.free
    requires Kept(s.cells, roots, head) && Kept(s.cells, roots, tail)
    ensures Allocated(s, t, head, tail, roots, w)
    ensures IsCons(w) && ConsPtr(w) in t.cells && t.cells[ConsPtr(w)] == Cell(head, tail)
    ensures forall p :: Reach(s.cells, roots, p) ==>
              p != ConsPtr(w) && p in s.cells && p in t.cells && t.cells[p] == s.cells[p]
    ensures Unused(t, roots + {ConsPtr(w)})
  {
    TookLive(s.cells, s2, t, head, tail, roots, w);
    PtrRoundTrip(s2.free[|s2.free| - 1]);
  }

  lemma {:induction false} KeptStays(s: Store, t: Store, roots: set<nat>, w: Word)
    requires Kept(s.cells, roots, w) && forall p :: Reach(s.cells, roots, p) ==> p in t.cells
    ensures IsCons(w) ==> ConsPtr(w) in t.cells
  {
  }

  function Max(a: nat, b: nat): nat { if a > b then a else b }

  /** No free node is in use. */
  ghost predicate Unused(s: Store, roots: set<nat>)
  {
    forall p :: p in s.free ==> !Reach(s.cells, roots, p)
  }

  /** A word that the roots reach, if it is a node at all. */
  ghost predicate Kept(m: Memory, roots: set<nat>, w: Word)
  {
    IsCons(w) ==> Reach(m, roots, ConsPtr(w))
  }

  lemma {:induction false} ReachIsNode(s: Store, roots: set<nat>, p: nat)
    requires WellFormed(s) && roots <= s.cells.Keys && Reach(s.cells, roots, p)
    ensures p in s.cells
  {
    ReachWithin(s.cells, roots, s.cells.Keys, p);
  }

  lemma {:induction false} KeptIsNode(s: Store, roots: set<nat>, w: Word)
    requires WellFormed(s) && roots <= s.cells.Keys && Kept(s.cells, roots, w)
    ensures IsCons(w) ==> ConsPtr(w) in s.cells
  {
    if IsCons(w) { ReachIsNode(s, roots, ConsPtr(w)); }
  }

  lemma {:induction false} WellFormedEdges(s: Store)
    requires WellFormed(s)
    ensures forall a, b :: a in s.cells && Edge(s.cells, a, b) ==> b in s.cells
  {
  }

  /** New nodes change nothing for what was there. */
  lemma {:induction false} ReachStays(m: Memory, m': Memory, roots: set<nat>)
    requires roots <= m.Keys && (forall a, b :: a in m && Edge(m, a, b) ==> b in m)
    requires forall p :: p in m ==> p in m' && m'[p] == m[p]
    ensures forall p :: Reach(m, roots, p) <==> Reach(m', roots, p)
    ensures forall p :: Reach(m', roots, p) ==> p in m
  {
    forall p | Reach(m, roots, p) ensures p in m { ReachWithin(m, roots, m.Keys, p); }
    forall p ensures Reach(m, roots, p) <==> Reach(m', roots, p) { ReachSame(m, m', roots, p); }
  }

  /** After an allocation the new node and what was reachable are in use, and untouched otherwise. */
  lemma {:induction false} TookLive(
    m: Memory, s: Store, t: Store, head: Word, tail: Word, roots: set<nat>, w: Word)
    requires WellFormed(s) && Took(s, t, head, tail, w) && roots <= m.Keys
    requires forall p :: Reach(m, roots, p) ==> p in m && p in s.cells && s.cells[p] == m[p] && p !in s.free
    requires Kept(m, roots, head) && Kept(m, roots, tail)
    ensures Unused(t, roots + {ConsPtr(w)})
    ensures forall p :: Reach(m, roots, p) ==> p != ConsPtr(w) && p in t.cells && t.cells[p] == m[p]
  {
    var p := ConsPtr(w);
    PtrRoundTrip(s.free[|s.free| - 1]);
    assert p == s.free[|s.free| - 1] && p in s.free;
    forall q | q in t.free ensures !Reach(t.cells, roots + {p}, q) {
      assert q in s.free && q != p;
      var used := set r | r in t.cells.Keys && (r == p || Reach(m, roots, r));
      forall a, b | a in used && Edge(t.cells, a, b) ensures b in used {
        if a != p {
          assert Edge(m, a, b);
          EdgeReaches(m, roots, a, b);
        }
      }
      forall r | r in roots ensures r in used { RootReaches(m, roots, r); }
      if Reach(t.cells, roots + {p}, q) { ReachWithin(t.cells, roots + {p}, used, q); }
    }
  }
}
