/** A program run on the collecting heap itself, with every register a root. */
module Running {
  import opened Lists
  import opened Words
  import opened Graph
  import opened Mutator
  import opened Collector

  /** The registers name nodes in use, and nothing in use is free. */
  ghost predicate Rooted(s: State)
  {
    WellFormed(s.store) && Targets(s.regs) <= s.store.cells.Keys && Unused(s.store, Targets(s.regs))
  }

  lemma {:induction false} RegisterReaches(s: State, w: Word)
    requires Rooted(s) && (w in s.regs || !IsCons(w))
    ensures Kept(s.store.cells, Targets(s.regs), w)
    ensures IsCons(w) ==> ConsPtr(w) in s.store.cells
  {
    if IsCons(w) {
      assert ConsPtr(w) in Targets(s.regs);
      RootReaches(s.store.cells, Targets(s.regs), ConsPtr(w));
    }
  }

  /** A register that is given a word already in use keeps everything as it was. */
  lemma {:induction false} MoveKeeps(s: State, d: nat, w: Word)
    requires Rooted(s) && d < |s.regs| && Kept(s.store.cells, Targets(s.regs), w)
    requires IsCons(w) ==> ConsPtr(w) in s.store.cells
    ensures Rooted(s.(regs := s.regs[d := w]))
  {
    var m, old', new' := s.store.cells, Targets(s.regs), Targets(s.regs[d := w]);
    forall p | p in new' ensures p in m && Reach(m, old', p) {
      if IsCons(w) && p == ConsPtr(w) {
      } else {
        assert p in old';
        RootReaches(m, old', p);
      }
    }
    forall p | p in s.store.free ensures !Reach(m, new', p) {
      if Reach(m, new', p) { ReachFrom(m, old', new', p); }
    }
  }

  /** What roots within reach can reach is within reach. */
  lemma {:induction false} ReachFrom(m: Memory, a: set<nat>, b: set<nat>, p: nat)
    requires (forall q :: q in b ==> Reach(m, a, q)) && Reach(m, b, p)
    ensures Reach(m, a, p)
  {
    var k: nat :| ReachIn(m, b, p, k);
    StepsFrom(m, a, b, p, k);
  }

  lemma {:induction false} StepsFrom(m: Memory, a: set<nat>, b: set<nat>, p: nat, k: nat)
    requires (forall q :: q in b ==> Reach(m, a, q)) && ReachIn(m, b, p, k)
    ensures Reach(m, a, p)
    decreases k
  {
    if k > 0 {
      var q :| ReachIn(m, b, q, k - 1) && Edge(m, q, p);
      StepsFrom(m, a, b, q, k - 1);
      EdgeReaches(m, a, q, p);
    }
  }

  lemma {:induction false} ReadKeeps(s: State, d: nat, r: nat, w: Word)
    requires Rooted(s) && d < |s.regs| && r < |s.regs| && IsCons(s.regs[r])
    ensures ConsPtr(s.regs[r]) in s.store.cells
    ensures var c := s.store.cells[ConsPtr(s.regs[r])];
            w == c.head || w == c.tail ==> Rooted(s.(regs := s.regs[d := w]))
  {
    var m, rs, p := s.store.cells, Targets(s.regs), ConsPtr(s.regs[r]);
    RegisterReaches(s, s.regs[r]);
    if w == m[p].head || w == m[p].tail {
      if IsCons(w) {
        assert Edge(m, p, ConsPtr(w));
        EdgeReaches(m, rs, p, ConsPtr(w));
      }
      MoveKeeps(s, d, w);
    }
  }

  /** After an allocation the register holds the new node. */
  lemma {:induction false} NewKeeps(regs: seq<Word>, d: nat, w: Word, t: Store)
    requires d < |regs| && WellFormed(t) && Targets(regs) <= t.cells.Keys && IsCons(w) && ConsPtr(w) in t.cells
    requires Unused(t, Targets(regs) + {ConsPtr(w)})
    ensures Rooted(State(regs[d := w], t))
  {
    var big, small := Targets(regs) + {ConsPtr(w)}, Targets(regs[d := w]);
    forall q | q in small ensures q in big {}
    forall p | p in t.free ensures !Reach(t.cells, small, p) {
      if Reach(t.cells, small, p) {
        forall q | q in small ensures Reach(t.cells, big, q) { RootReaches(t.cells, big, q); }
        ReachFrom(t.cells, big, small, p);
      }
    }
  }

  class Machine {
    var regs: seq<Word>
    const heap: Heap

    ghost function Now(): State
      reads this, heap
    {
      State(regs, heap.Abs())
    }

    ghost predicate Ready()
      reads this, heap
    {
      heap.Valid() && Rooted(Now())
    }

    /** Registers without nodes, and an empty heap. */
    constructor (start: seq<Word>, cap: nat)
      requires forall w :: w in start ==> !IsCons(w)
      ensures Ready() && regs == start && fresh(heap)
    {
      regs := start;
      heap := new Heap(cap);
      new;
      assert Targets(regs) == {};
    }

    method Value(a: Arg) returns (w: Word)
      requires ArgWord(a, regs).Some?
      ensures w == ArgWord(a, regs).value && (w in regs || !IsCons(w))
    {
      match a
      case Number(n) => w := Fixnum(n);
      case Null => w := NIL;
      case Reg(i) => w := regs[i];
    }

    /** One operation, and what it lets the program see. */
    method Do(op: Op) returns (seen: Seen)
      requires Ready()
      modifies this`regs, heap
      ensures Ready() && Does(op, old(Now()), Now(), seen)
    {
      hide Rooted, Allocated, WellFormed, Unused, Kept;
      if !Proper(op, regs) { return Fault; }
      seen := Quiet;
      match op
      case New(d, h, t) => DoNew(d, h, t);
      case ReadHead(d, r) =>
        ReadKeeps(Now(), d, r, Now().store.cells[ConsPtr(regs[r])].head) by { RegisterReaches(Now(), regs[r]); }
        regs := regs[d := heap.memory[ConsPtr(regs[r])].head];
      case ReadTail(d, r) =>
        ReadKeeps(Now(), d, r, Now().store.cells[ConsPtr(regs[r])].tail) by { RegisterReaches(Now(), regs[r]); }
        regs := regs[d := heap.memory[ConsPtr(regs[r])].tail];
      case Put(d, a) =>
        var w := Value(a);
        RegisterReaches(Now(), w);
        MoveKeeps(Now(), d, w);
        regs := regs[d := w];
      case Look(i) => seen := Show(regs[i]);
      case Compare(i, j) => seen := AreSame(regs[i] == regs[j]);
    }

    method DoNew(d: nat, h: Arg, t: Arg)
      requires Ready() && Proper(New(d, h, t), regs)
      modifies this`regs, heap
      ensures Ready() && Does(New(d, h, t), old(Now()), Now(), Quiet)
    {
      hide Allocated, WellFormed, Kept, Reach;
      var hw := Value(h);
      var tw := Value(t);
      RegisterReaches(Now(), hw);
      RegisterReaches(Now(), tw);
      forall p | p in Targets(regs) ensures Reach(heap.Cells(), Targets(regs), p) {
        RootReaches(heap.Cells(), Targets(regs), p);
      }
      ghost var before := regs;
      var w := heap.Alloc(hw, tw, regs);
      NewKeeps(before, d, w, heap.Abs());
      regs := regs[d := w];
    }

    /** A program of `n` operations sees on this heap what it would see on one that never frees. */
    method Execute(next: Program, n: nat) returns (seen: seq<Seen>)
      requires Ready() && forall w :: w in regs ==> !IsCons(w)
      modifies this`regs, heap
      ensures Ready() && seen == IdealRun(next, Ideal(old(regs), []), n).1
    {
      hide Rooted, Does;
      seen := [];
      ghost var states := [Now()];
      while |seen| < n
        invariant Ready() && |seen| <= n
        invariant Runs(next, states, seen) && states[0] == old(Now()) && states[|seen|] == Now()
      {
        ghost var had := seen;
        ghost var past := states;
        var o := Do(next(seen));
        seen := seen + [o];
        states := states + [Now()];
        OneMoreStep(next, past, had, Now(), o);
      }
      assert WellFormed(states[0].store) by { RootedIsWellFormed(states[0]); }
      CollectorIsInvisible(next, states, seen);
    }
  }

  lemma {:induction false} RootedIsWellFormed(s: State)
    requires Rooted(s)
    ensures WellFormed(s.store)
  {
  }

  lemma {:induction false} OneMoreStep(next: Program, states: seq<State>, seen: seq<Seen>, s: State, o: Seen)
    requires Runs(next, states, seen) && Does(next(seen), states[|seen|], s, o)
    ensures Runs(next, states + [s], seen + [o])
  {
    hide Does;
    var states', seen' := states + [s], seen + [o];
    forall i | 0 <= i < |seen'| ensures Does(next(seen'[..i]), states'[i], states'[i + 1], seen'[i]) {
      if i < |seen| {
        assert seen'[..i] == seen[..i];
      } else {
        assert seen'[..i] == seen;
      }
    }
  }
}
