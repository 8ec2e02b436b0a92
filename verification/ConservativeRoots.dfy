/**
 The mark-sweep heap whose roots are guessed from raw stack words (benches/gc_roots_aot_spike.rs):
 a node is marked when it is pushed on the mark stack.
 */
module ConservativeRoots {
  import opened Lists
  import opened Words
  import opened Graph
  import opened Mutator
  import opened Collector

  /** The nodes that a scanned word seems to name: it has the cons tag, and an address of ours. */
  function Members(words: seq<Word>, addrs: set<nat>): set<nat>
  {
    set w | w in words && IsCons(w) && ConsPtr(w) in addrs :: ConsPtr(w)
  }

  lemma {:induction false} MembersMore(words: seq<Word>, i: nat, addrs: set<nat>)
    requires i < |words|
    ensures var w := words[i];
            var old', new' := Members(words[..i], addrs), Members(words[..i + 1], addrs);
            if IsCons(w) && ConsPtr(w) in addrs && ConsPtr(w) !in old'
            then new' == old' + {ConsPtr(w)} && |new'| == |old'| + 1 else new' == old'
  {
    assert forall v :: v in words[..i + 1] <==> v in words[..i] || v == words[i];
    assert words[i] in words[..i + 1];
  }

  lemma {:induction false} MembersAreOurs(words: seq<Word>, addrs: set<nat>)
    ensures Members(words, addrs) <= addrs
  {
  }

  /** Everything marked is reachable and the roots are marked, as are the children of what is no longer pending. */
  ghost predicate Pushing(m: Memory, roots: set<nat>, marked: set<nat>, stack: seq<nat>)
  {
    && marked <= m.Keys && roots <= marked && (forall p :: p in stack ==> p in marked)
    && (forall p :: p in marked ==> Reach(m, roots, p))
    && (forall p, q :: p in marked && p !in stack && Edge(m, p, q) ==> q in marked)
  }

  lemma {:induction false} PushStart(m: Memory, roots: set<nat>, stack: seq<nat>)
    requires roots <= m.Keys && forall p :: p in stack <==> p in roots
    ensures Pushing(m, roots, roots, stack)
  {
    forall p | p in roots ensures Reach(m, roots, p) { RootReaches(m, roots, p); }
  }

  lemma {:induction false} PendingIsNode(m: Memory, roots: set<nat>, marked: set<nat>, stack: seq<nat>)
    requires Pushing(m, roots, marked, stack) && stack != []
    ensures stack[|stack| - 1] in m
  {
    assert stack[|stack| - 1] in stack;
  }

  lemma {:induction false} ChildrenAreNodes(m: Memory, p: nat)
    requires p in m && forall a, b :: a in m && Edge(m, a, b) ==> b in m
    ensures IsCons(m[p].head) ==> ConsPtr(m[p].head) in m
    ensures IsCons(m[p].tail) ==> ConsPtr(m[p].tail) in m
  {
    assert IsCons(m[p].head) ==> Edge(m, p, ConsPtr(m[p].head));
    assert IsCons(m[p].tail) ==> Edge(m, p, ConsPtr(m[p].tail));
  }

  lemma {:induction false} PushDone(m: Memory, roots: set<nat>, marked: set<nat>)
    requires Pushing(m, roots, marked, [])
    ensures forall p :: p in marked <==> Reach(m, roots, p)
  {
    assert Closed(m, marked);
    forall p | Reach(m, roots, p) ensures p in marked { ReachWithin(m, roots, marked, p); }
  }

  /** Popping a node once its children are marked. */
  lemma {:induction false} PushChildren(
    m: Memory, roots: set<nat>, marked: set<nat>, stack: seq<nat>, marked': set<nat>, stack': seq<nat>)
    requires Pushing(m, roots, marked, stack) && stack != []
    requires forall p, q :: p in m && Edge(m, p, q) ==> q in m
    requires var p := stack[|stack| - 1];
             && marked' == marked + Targets([m[p].head]) + Targets([m[p].tail])
             && (forall q :: q in stack' <==> q in stack[..|stack| - 1] || q in marked' - marked)
    ensures Pushing(m, roots, marked', stack')
  {
    var p := stack[|stack| - 1];
    assert p in stack;
    TargetsOne(m[p].head);
    TargetsOne(m[p].tail);
    forall q | q in Targets([m[p].head]) + Targets([m[p].tail]) ensures Edge(m, p, q) {}
    forall q | Edge(m, p, q) ensures q in marked' && q in m && Reach(m, roots, q) { EdgeReaches(m, roots, p, q); }
    forall r, q | r in marked' && r !in stack' && Edge(m, r, q) ensures q in marked' {
      if r != p { assert r in marked && r !in stack; }
    }
  }

  /** More roots may keep more nodes, but each extra one is reached from an extra root. */
  lemma {:induction false} FalsePositives(m: Memory, live: set<nat>, found: set<nat>, p: nat)
    requires live <= found
    ensures Reach(m, live, p) ==> Reach(m, found, p)
    ensures Reach(m, found, p) ==> Reach(m, live, p) || Reach(m, found - live, p)
  {
    assert live + (found - live) == found;
    ReachUnion(m, live, found - live, p);
  }

  lemma {:induction false} GrownSelf(s: Store)
    requires WellFormed(s)
    ensures Grown(s, s)
  {
  }

  lemma {:induction false} GrownTwice(s: Store, t: Store, u: Store)
    requires Grown(s, t) && Grown(t, u)
    ensures Grown(s, u)
  {
  }

  /** What the scan frees, the live words do not reach. */
  lemma {:induction false} ScanFrees(m: Memory, all: seq<nat>, live: set<nat>, found: set<nat>)
    requires live <= found && NoDuplicates(all)
    ensures forall p :: p in Unreached(m, all, found) ==> !Reach(m, live, p)
  {
    UnreachedIs(m, all, found);
    forall p | Reach(m, live, p) ensures Reach(m, found, p) { FalsePositives(m, live, found, p); }
  }

  class ScanHeap {
    var all: seq<nat>
    var memory: map<nat, Node>
    var free: seq<nat>
    var addrs: set<nat>
    var gcInterval: nat
    var allocSinceGc: nat
    var markStack: seq<nat>
    var collections: nat
    var peakLive: nat
    var lastRootsFound: nat
    var maxRootsFound: nat

    ghost function Cells(): Memory
      reads this
    {
      CellsOf(memory)
    }

    ghost function Abs(): Store
      reads this
    {
      Store(CellsOf(memory), free)
    }

    ghost predicate Valid()
      reads this
    {
      && NoDuplicates(all) && (forall p :: p in all <==> p in memory) && addrs == memory.Keys
      && MarkedIn(memory) == {}
      && WellFormed(Abs())
    }

    constructor (interval: nat)
      ensures Valid() && all == [] && free == [] && gcInterval == interval
    {
      all, memory, free, addrs := [], map[], [], {};
      gcInterval, allocSinceGc, markStack := interval, 0, [];
      collections, peakLive, lastRootsFound, maxRootsFound := 0, 0, 0, 0;
    }

    /** Marks the node a raw word names, if it names one that is not marked yet. */
    method TryRoot(w: Word) returns (found: bool)
      requires addrs == memory.Keys
      modifies this`memory, this`markStack
      ensures CellsOf(memory) == old(CellsOf(memory)) && memory.Keys == old(memory.Keys)
      ensures found <==> IsCons(w) && ConsPtr(w) in addrs && ConsPtr(w) !in old(MarkedIn(memory))
      ensures MarkedIn(memory) == old(MarkedIn(memory)) + if found then {ConsPtr(w)} else {}
      ensures markStack == old(markStack) + if found then [ConsPtr(w)] else []
    {
      if !IsCons(w) { return false; }
      var p := ConsPtr(w);
      if p !in addrs { return false; }
      if memory[p].mark { return false; }
      SetMark(memory, p, true);
      memory := memory[p := memory[p].(mark := true)];
      markStack := markStack + [p];
      found := true;
    }

    method PushIfCons(w: Word)
      requires IsCons(w) ==> ConsPtr(w) in memory
      modifies this`memory, this`markStack
      ensures CellsOf(memory) == old(CellsOf(memory)) && memory.Keys == old(memory.Keys)
      ensures MarkedIn(memory) == old(MarkedIn(memory)) + Targets([w])
      ensures markStack ==
              old(markStack) + if IsCons(w) && ConsPtr(w) !in old(MarkedIn(memory)) then [ConsPtr(w)] else []
    {
      TargetsOne(w);
      if IsCons(w) {
        var p := ConsPtr(w);
        if !memory[p].mark {
          SetMark(memory, p, true);
          memory := memory[p := memory[p].(mark := true)];
          markStack := markStack + [p];
        }
      }
    }

    /** The scan: afterwards exactly the nodes that some word seems to name are marked and pending. */
    method Scan(words: seq<Word>) returns (found: nat)
      requires Valid()
      modifies this`memory, this`markStack
      ensures CellsOf(memory) == old(CellsOf(memory)) && memory.Keys == old(memory.Keys)
      ensures MarkedIn(memory) == Members(words, addrs) && (forall p :: p in markStack <==> p in MarkedIn(memory))
      ensures found == |Members(words, addrs)|
    {
      markStack := [];
      found := 0;
      for i := 0 to |words|
        invariant CellsOf(memory) == old(CellsOf(memory)) && memory.Keys == old(memory.Keys)
        invariant MarkedIn(memory) == Members(words[..i], addrs)
        invariant forall p :: p in markStack <==> p in MarkedIn(memory)
        invariant found == |Members(words[..i], addrs)|
      {
        hide Members;
        MembersMore(words, i, addrs);
        var hit := TryRoot(words[i]);
        if hit { found := found + 1; }
      }
      assert words[..|words|] == words;
    }

    /** Marks the children of a node that are not marked yet, and leaves them pending. */
    method Visit(p: nat)
      requires p in memory
      requires (IsCons(memory[p].head) ==> ConsPtr(memory[p].head) in memory)
      requires (IsCons(memory[p].tail) ==> ConsPtr(memory[p].tail) in memory)
      modifies this`memory, this`markStack
      ensures CellsOf(memory) == old(CellsOf(memory)) && memory.Keys == old(memory.Keys)
      ensures var c := old(CellsOf(memory))[p];
              MarkedIn(memory) == old(MarkedIn(memory)) + Targets([c.head]) + Targets([c.tail])
      ensures forall q :: q in markStack <==> q in old(markStack) || q in MarkedIn(memory) - old(MarkedIn(memory))
      ensures |markStack| >= old(|markStack|)
      ensures MarkedIn(memory) == old(MarkedIn(memory)) ==> markStack == old(markStack)
    {
      var h, t := memory[p].head, memory[p].tail;
      assert CellsOf(memory)[p] == Cell(h, t);
      TargetsOne(h);
      TargetsOne(t);
      PushIfCons(h);
      PushIfCons(t);
    }

    /** The trace: afterwards a node is marked exactly if a scanned word reaches it. */
    method Trace(ghost roots: set<nat>)
      requires forall p, q :: p in memory && Edge(CellsOf(memory), p, q) ==> q in memory
      requires Pushing(CellsOf(memory), roots, MarkedIn(memory), markStack)
      modifies this`memory, this`markStack
      ensures CellsOf(memory) == old(CellsOf(memory)) && memory.Keys == old(memory.Keys)
      ensures forall p :: p in MarkedIn(memory) <==> Reach(CellsOf(memory), roots, p)
    {
      hide Reach, Edge, Pushing;
      ghost var m := CellsOf(memory);
      while markStack != []
        invariant CellsOf(memory) == m && memory.Keys == m.Keys
        invariant Pushing(m, roots, MarkedIn(memory), markStack)
        decreases m.Keys - MarkedIn(memory), |markStack|
      {
        var p := markStack[|markStack| - 1];
        assert p in m by { PendingIsNode(m, roots, MarkedIn(memory), markStack); }
        ghost var marked, stack := MarkedIn(memory), markStack;
        markStack := markStack[..|markStack| - 1];
        ChildrenAreNodes(m, p);
        Visit(p);
        PushChildren(m, roots, marked, stack, MarkedIn(memory), markStack);
      }
      PushDone(m, roots, MarkedIn(memory));
    }

    /** Scan and trace. */
    method Mark(words: seq<Word>)
      requires Valid()
      modifies this`memory, this`markStack, this`lastRootsFound, this`maxRootsFound
      ensures CellsOf(memory) == old(CellsOf(memory)) && memory.Keys == old(memory.Keys)
      ensures forall p :: p in MarkedIn(memory) <==> Reach(CellsOf(memory), Members(words, addrs), p)
      ensures lastRootsFound == |Members(words, addrs)|
      ensures maxRootsFound == Max(lastRootsFound, old(maxRootsFound))
    {
      hide Reach, Members;
      ghost var roots := Members(words, addrs);
      MembersAreOurs(words, addrs);
      lastRootsFound := Scan(words);
      if lastRootsFound > maxRootsFound { maxRootsFound := lastRootsFound; }
      PushStart(CellsOf(memory), roots, markStack);
      Trace(roots);
    }

    /** The free list becomes exactly the nodes that no scanned word reaches. */
    method Collect(words: seq<Word>)
      requires Valid()
      modifies this`memory, this`markStack, this`free, this`collections, this`peakLive,
               this`lastRootsFound, this`maxRootsFound
      ensures Valid() && Cells() == old(Cells())
      ensures free == Unreached(Cells(), all, Members(words, addrs))
      ensures collections == old(collections) + 1
      ensures peakLive == Max(Reached(Cells(), all, Members(words, addrs)), old(peakLive))
      ensures lastRootsFound == |Members(words, addrs)|
      ensures maxRootsFound == Max(lastRootsFound, old(maxRootsFound))
    {
      hide Reach, Members, Edge, WellFormed;
      SweptIsWellFormed(CellsOf(memory), free, all, Members(words, addrs));
      Mark(words);
      var live;
      memory, free, live := SweepNodes(all, memory, Members(words, addrs));
      if live > peakLive { peakLive := live; }
      collections := collections + 1;
    }

    /** One more node, free. */
    method GrowOne()
      requires Valid()
      modifies this`all, this`memory, this`free, this`addrs
      ensures Valid() && Grown(old(Abs()), Abs()) && |free| == old(|free|) + 1
    {
      hide WellFormed, Grown;
      var p := Malloc(memory);
      AddNode(memory, free, p);
      all := all + [p];
      memory := memory[p := Node(NIL, NIL, false)];
      addrs := addrs + {p};
      free := free + [p];
    }

    /** A batch of new nodes. */
    method Grow()
      requires Valid() && free == []
      modifies this`all, this`memory, this`free, this`addrs
      ensures Valid() && Grown(old(Abs()), Abs()) && |free| == 1024
    {
      hide WellFormed, Grown;
      ghost var s := Abs();
      GrownSelf(s);
      for i := 0 to 1024
        invariant Valid() && Grown(s, Abs()) && |free| == i
      {
        ghost var t := Abs();
        GrowOne();
        GrownTwice(s, t, Abs());
      }
    }

    /** The words of a free node are overwritten. */
    method Take(head: Word, tail: Word) returns (w: Word)
      requires Valid() && free != []
      requires (IsCons(head) ==> ConsPtr(head) in memory) && (IsCons(tail) ==> ConsPtr(tail) in memory)
      modifies this`memory, this`free
      ensures Valid() && Took(old(Abs()), Abs(), head, tail, w)
    {
      hide WellFormed, Took;
      TakeNode(memory, free, head, tail);
      var p := free[|free| - 1];
      free := free[..|free| - 1];
      memory := memory[p := Node(head, tail, false)];
      w := FromPtr(p);
    }

    /**
     A cons in a free node. `words` is what the scan would find; `live` are the words the program
     still wants, each of which is somewhere among them.
     */
    method Alloc(head: Word, tail: Word, words: seq<Word>, ghost live: seq<Word>) returns (w: Word)
      requires Valid() && Targets(live) <= Members(words, addrs) && Unused(Abs(), Targets(live))
      requires Kept(Cells(), Targets(live), head) && Kept(Cells(), Targets(live), tail)
      modifies this
      ensures Valid() && Allocated(old(Abs()), Abs(), head, tail, Targets(live), w)
      ensures forall p :: Reach(old(Cells()), Targets(live), p) ==>
                p != ConsPtr(w) && p in old(memory) && p in memory && Cells()[p] == old(Cells())[p]
      ensures Unused(Abs(), Targets(live) + {ConsPtr(w)})
      ensures collections == old(collections) + if old(allocSinceGc) >= gcInterval then 1 else 0
    {
      hide Reach, Unused, Allocated, AllocatedVia, Took, Kept, Edge;
      ghost var s, rs := Abs(), Targets(live);
      KeptIsNode(s, rs, head);
      KeptIsNode(s, rs, tail);
      ghost var s1 := Refill(words, rs);
      ghost var s2 := Abs();
      KeptStays(s, s2, rs, head);
      KeptStays(s, s2, rs, tail);
      w := Take(head, tail);
      AllocFacts(s, s1, s2, Abs(), head, tail, rs, w);
    }

    /** The cadence and the growth of an allocation. */
    method Refill(words: seq<Word>, ghost live: set<nat>) returns (ghost s1: Store)
      requires Valid() && live <= Members(words, addrs) && Unused(Abs(), live)
      modifies this
      ensures Valid() && gcInterval == old(gcInterval) && free != []
      ensures (s1 == old(Abs()) || Collected(old(Abs()), s1, live)) && (Abs() == s1 || Grown(s1, Abs()))
      ensures forall p :: Reach(old(Cells()), live, p) ==>
                p in old(memory) && p in memory && Cells()[p] == old(Cells())[p] && p !in free
      ensures collections == old(collections) + if old(allocSinceGc) >= gcInterval then 1 else 0
    {
      hide Reach, Edge, WellFormed, Members;
      ghost var m := CellsOf(memory);
      ghost var s := Abs();
      assert live <= m.Keys by { MembersAreOurs(words, addrs); }
      assert (forall a, b :: a in m && Edge(m, a, b) ==> b in m) by { WellFormedEdges(s); }
      if allocSinceGc >= gcInterval {
        ScanFrees(m, all, live, Members(words, addrs));
        Collect(words);
        allocSinceGc := 0;
      }
      s1 := Abs();
      assert Unused(s1, live);
      ReachStays(m, m, live);
      if free == [] { Grow(); }
      allocSinceGc := allocSinceGc + 1;
    }
  }
}
