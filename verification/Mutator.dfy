/**
 What a program does with a heap, whichever collector it has, and what it can see of it: a run
 that passes all its live words as roots cannot tell the heap from one that never frees.
 */
module Mutator {
  import opened Lists
  import opened Words
  import opened Graph

  /** The nodes of a heap, and those on its free list. */
  datatype Store = Store(cells: Memory, free: seq<nat>)

  ghost predicate WellFormed(s: Store)
  {
    && (forall p :: p in s.cells ==> IsAddress(p))
    && (forall p, q :: p in s.cells && Edge(s.cells, p, q) ==> q in s.cells)
    && (forall p :: p in s.free ==> p in s.cells)
    && (forall i, j :: 0 <= i < j < |s.free| ==> s.free[i] != s.free[j])
  }

  /** A new free list, of nodes that the roots do not reach. */
  ghost predicate Collected(s: Store, t: Store, roots: set<nat>)
  {
    t.cells == s.cells && WellFormed(t) && forall p :: p in t.free ==> !Reach(s.cells, roots, p)
  }

  /** More nodes; those that become free are new. */
  ghost predicate Grown(s: Store, t: Store)
  {
    && WellFormed(t)
    && (forall p :: p in s.cells ==> p in t.cells && t.cells[p] == s.cells[p])
    && (forall p :: p in t.free ==> p in s.free || p !in s.cells)
  }

  /** A cons in the last free node. */
  ghost predicate Took(s: Store, t: Store, head: Word, tail: Word, w: Word)
  {
    s.free != [] &&
    var p := s.free[|s.free| - 1];
    t == Store(s.cells[p := Cell(head, tail)], s.free[..|s.free| - 1]) && IsAddress(p) && w == FromPtr(p)
  }

  /** An allocation: perhaps a collection, perhaps growth, then a free node. */
  ghost predicate Allocated(s: Store, t: Store, head: Word, tail: Word, roots: set<nat>, w: Word)
  {
    exists s1, s2 :: AllocatedVia(s, s1, s2, t, head, tail, roots, w)
  }

  ghost predicate AllocatedVia(
    s: Store, s1: Store, s2: Store, t: Store, head: Word, tail: Word, roots: set<nat>, w: Word)
  {
    (s1 == s || Collected(s, s1, roots)) && (s2 == s1 || Grown(s1, s2)) && Took(s2, t, head, tail, w)
  }

  // ---- the program ----

  datatype Arg = Number(n: int) | Null | Reg(i: nat)

  datatype Op =
    | New(dst: nat, h: Arg, t: Arg)
    | ReadHead(dst: nat, src: nat)
    | ReadTail(dst: nat, src: nat)
    | Put(dst: nat, a: Arg)
    | Look(i: nat)
    | Compare(i: nat, j: nat)

  /** What an operation lets the program see. */
  datatype Seen = AFixnum(n: int) | ACons | AnEnd | AreSame(b: bool) | Quiet | Fault

  /** The live words, all of them in registers, and the heap. */
  datatype State = State(regs: seq<Word>, store: Store)

  function ArgWord(a: Arg, regs: seq<Word>): Option<Word>
  {
    match a
    case Number(n) => Some(Fixnum(n))
    case Null => Some(NIL)
    case Reg(i) => if i < |regs| then Some(regs[i]) else None
  }

  function Show(w: Word): Seen
  {
    if IsCons(w) then ACons else if IsFixnum(w) then AFixnum(AsFixnum(w)) else AnEnd
  }

  predicate Proper(op: Op, regs: seq<Word>)
  {
    match op
    case New(d, h, t) => d < |regs| && ArgWord(h, regs).Some? && ArgWord(t, regs).Some?
    case ReadHead(d, s) => d < |regs| && s < |regs| && IsCons(regs[s])
    case ReadTail(d, s) => d < |regs| && s < |regs| && IsCons(regs[s])
    case Put(d, a) => d < |regs| && ArgWord(a, regs).Some?
    case Look(i) => i < |regs|
    case Compare(i, j) => i < |regs| && j < |regs|
  }

  /** One operation on a heap that may collect, with every register a root. */
  ghost predicate Does(op: Op, s: State, s': State, seen: Seen)
  {
    if !Proper(op, s.regs) then s' == s && seen == Fault else
    match op
    case New(d, h, t) =>
      seen == Quiet && |s'.regs| == |s.regs| && s'.regs == s.regs[d := s'.regs[d]] &&
      Allocated(s.store, s'.store, ArgWord(h, s.regs).value, ArgWord(t, s.regs).value, Targets(s.regs), s'.regs[d])
    case ReadHead(d, r) =>
      seen == Quiet && ConsPtr(s.regs[r]) in s.store.cells &&
      s' == s.(regs := s.regs[d := s.store.cells[ConsPtr(s.regs[r])].head])
    case ReadTail(d, r) =>
      seen == Quiet && ConsPtr(s.regs[r]) in s.store.cells &&
      s' == s.(regs := s.regs[d := s.store.cells[ConsPtr(s.regs[r])].tail])
    case Put(d, a) => seen == Quiet && s' == s.(regs := s.regs[d := ArgWord(a, s.regs).value])
    case Look(i) => seen == Show(s.regs[i]) && s' == s
    case Compare(i, j) => seen == AreSame(s.regs[i] == s.regs[j]) && s' == s
  }

  /** The heap that never frees: the `k`th cons allocated lives at address `8 * k`. */
  datatype Ideal = Ideal(iregs: seq<Word>, icells: seq<Cell>)

  function IdealPtr(k: nat): Word { FromPtr(8 * k) }

  function IdealCell(w: Word, cells: seq<Cell>): Option<Cell>
  {
    if IsCons(w) && ConsPtr(w) / 8 < |cells| then Some(cells[ConsPtr(w) / 8]) else None
  }

  function IdealStep(op: Op, s: Ideal): (Ideal, Seen)
  {
    if !Proper(op, s.iregs) then (s, Fault) else
    match op
    case New(d, h, t) =>
      (Ideal(s.iregs[d := IdealPtr(|s.icells|)],
             s.icells + [Cell(ArgWord(h, s.iregs).value, ArgWord(t, s.iregs).value)]), Quiet)
    case ReadHead(d, r) =>
      (match IdealCell(s.iregs[r], s.icells)
       case Some(c) => (s.(iregs := s.iregs[d := c.head]), Quiet)
       case None => (s, Fault))
    case ReadTail(d, r) =>
      (match IdealCell(s.iregs[r], s.icells)
       case Some(c) => (s.(iregs := s.iregs[d := c.tail]), Quiet)
       case None => (s, Fault))
    case Put(d, a) => (s.(iregs := s.iregs[d := ArgWord(a, s.iregs).value]), Quiet)
    case Look(i) => (s, Show(s.iregs[i]))
    case Compare(i, j) => (s, AreSame(s.iregs[i] == s.iregs[j]))
  }

  // ---- the two heaps side by side ----

  /** The same word, with a node's address renamed by `f`. */
  predicate SameWord(f: map<nat, nat>, w: Word, v: Word)
  {
    if IsCons(w) then ConsPtr(w) in f && v == IdealPtr(f[ConsPtr(w)]) else v == w
  }

  predicate SameCell(f: map<nat, nat>, c: Cell, d: Cell)
  {
    SameWord(f, c.head, d.head) && SameWord(f, c.tail, d.tail)
  }

  /** `f` renames nodes in use, each to a node of its own with the same contents. */
  ghost predicate Tracks(f: map<nat, nat>, s: Store, cells: seq<Cell>)
  {
    && (forall p :: p in f ==> p in s.cells && p !in s.free && f[p] < |cells| && SameCell(f, s.cells[p], cells[f[p]]))
    && (forall p, q :: p in f && q in f && f[p] == f[q] ==> p == q)
  }

  predicate SameRegs(f: map<nat, nat>, a: seq<Word>, b: seq<Word>)
  {
    |a| == |b| && forall i :: 0 <= i < |a| ==> SameWord(f, a[i], b[i])
  }

  ghost predicate Alike(f: map<nat, nat>, s: State, t: Ideal)
  {
    WellFormed(s.store) && SameRegs(f, s.regs, t.iregs) && Tracks(f, s.store, t.icells)
  }

  /** A collection only frees nodes that the program has lost. */
  lemma {:induction false} CollectAlike(f: map<nat, nat>, s: State, t: Ideal, store: Store)
    returns (g: map<nat, nat>)
    requires Alike(f, s, t) && Collected(s.store, store, Targets(s.regs))
    ensures Alike(g, s.(store := store), t)
  {
    var m, roots := s.store.cells, Targets(s.regs);
    g := map p | p in f && Reach(m, roots, p) :: f[p];
    forall i | 0 <= i < |s.regs| ensures SameWord(g, s.regs[i], t.iregs[i]) {
      assert SameWord(f, s.regs[i], t.iregs[i]);
      if IsCons(s.regs[i]) {
        assert s.regs[i] in s.regs;
        RootReaches(m, roots, ConsPtr(s.regs[i]));
      }
    }
    forall p | p in g ensures SameCell(g, m[p], t.icells[g[p]]) {
      assert SameCell(f, m[p], t.icells[f[p]]);
      forall q | Edge(m, p, q) ensures Reach(m, roots, q) { EdgeReaches(m, roots, p, q); }
    }
  }

  lemma {:induction false} GrowAlike(f: map<nat, nat>, s: State, t: Ideal, store: Store)
    requires Alike(f, s, t) && Grown(s.store, store)
    ensures Alike(f, s.(store := store), t)
  {
    forall p | p in f ensures SameCell(f, store.cells[p], t.icells[f[p]]) {
      assert SameCell(f, s.store.cells[p], t.icells[f[p]]);
    }
  }

  lemma {:induction false} SameWordMore(f: map<nat, nat>, w: Word, v: Word, p: nat, k: nat)
    requires SameWord(f, w, v) && p !in f
    ensures SameWord(f[p := k], w, v)
  {
  }

  /** A free node is not one that the program uses, so it can become a new one. */
  lemma {:induction false} TakeAlike(
    f: map<nat, nat>, s: State, t: Ideal, store: Store, h: Word, tl: Word, h': Word, tl': Word, w: Word)
    returns (g: map<nat, nat>)
    requires Alike(f, s, t) && Took(s.store, store, h, tl, w) && SameWord(f, h, h') && SameWord(f, tl, tl')
    ensures Alike(g, s.(store := store), t.(icells := t.icells + [Cell(h', tl')]))
    ensures SameWord(g, w, IdealPtr(|t.icells|))
  {
    var p := s.store.free[|s.store.free| - 1];
    var icells := t.icells + [Cell(h', tl')];
    assert p in s.store.free && p !in f;
    g := f[p := |t.icells|];
    PtrRoundTrip(p);
    SameWordMore(f, h, h', p, |t.icells|);
    SameWordMore(f, tl, tl', p, |t.icells|);
    forall i | 0 <= i < |s.regs| ensures SameWord(g, s.regs[i], t.iregs[i]) {
      SameWordMore(f, s.regs[i], t.iregs[i], p, |t.icells|);
    }
    forall q | q in g
      ensures q in store.cells && q !in store.free && g[q] < |icells| && SameCell(g, store.cells[q], icells[g[q]])
    {
      if q == p {
        assert icells[g[q]] == Cell(h', tl');
      } else {
        assert SameCell(f, s.store.cells[q], t.icells[f[q]]);
        assert icells[f[q]] == t.icells[f[q]];
        SameWordMore(f, s.store.cells[q].head, t.icells[f[q]].head, p, |t.icells|);
        SameWordMore(f, s.store.cells[q].tail, t.icells[f[q]].tail, p, |t.icells|);
      }
    }
    TakeWellFormed(f, s, t, store, h, tl, w);
  }

  lemma {:induction false} TakeWellFormed(
    f: map<nat, nat>, s: State, t: Ideal, store: Store, h: Word, tl: Word, w: Word)
    requires Alike(f, s, t) && Took(s.store, store, h, tl, w)
    requires (IsCons(h) ==> ConsPtr(h) in f) && (IsCons(tl) ==> ConsPtr(tl) in f)
    ensures WellFormed(store)
  {
    var p := s.store.free[|s.store.free| - 1];
    forall a, b | a in store.cells && Edge(store.cells, a, b) ensures b in store.cells {
      if a != p { assert Edge(s.store.cells, a, b); }
    }
  }

  lemma {:induction false} AllocAlike(
    f: map<nat, nat>, s: State, t: Ideal, store: Store, h: Word, tl: Word, h': Word, tl': Word, w: Word)
    returns (g: map<nat, nat>)
    requires Alike(f, s, t) && Allocated(s.store, store, h, tl, Targets(s.regs), w)
    requires SameWord(f, h, h') && SameWord(f, tl, tl')
    requires h in s.regs || !IsCons(h)
    requires tl in s.regs || !IsCons(tl)
    ensures Alike(g, s.(store := store), t.(icells := t.icells + [Cell(h', tl')]))
    ensures SameWord(g, w, IdealPtr(|t.icells|))
  {
    var s1, s2 :| AllocatedVia(s.store, s1, s2, store, h, tl, Targets(s.regs), w);
    g := f;
    if s1 != s.store { g := CollectAlike(f, s, t, s1); }
    RegisterWord(f, g, s.regs, t.iregs, h, h');
    RegisterWord(f, g, s.regs, t.iregs, tl, tl');
    if s2 != s1 { GrowAlike(g, s.(store := s1), t, s2); }
    g := TakeAlike(g, s.(store := s2), t, store, h, tl, h', tl', w);
  }

  lemma {:induction false} RegisterWord(
    f: map<nat, nat>, g: map<nat, nat>, regs: seq<Word>, iregs: seq<Word>, w: Word, v: Word)
    requires SameRegs(f, regs, iregs) && SameRegs(g, regs, iregs) && SameWord(f, w, v) && (w in regs || !IsCons(w))
    ensures SameWord(g, w, v)
  {
    if IsCons(w) {
      var i :| 0 <= i < |regs| && regs[i] == w;
      assert SameWord(f, regs[i], iregs[i]) && SameWord(g, regs[i], iregs[i]);
    }
  }

  lemma {:induction false} ArgAlike(f: map<nat, nat>, a: Arg, regs: seq<Word>, iregs: seq<Word>)
    requires SameRegs(f, regs, iregs)
    ensures ArgWord(a, regs).Some? <==> ArgWord(a, iregs).Some?
    ensures ArgWord(a, regs).Some? ==>
              && SameWord(f, ArgWord(a, regs).value, ArgWord(a, iregs).value)
              && (ArgWord(a, regs).value in regs || !IsCons(ArgWord(a, regs).value))
  {
  }

  /** Words that look alike, and are told apart alike. */
  lemma {:induction false} ShowAlike(f: map<nat, nat>, s: State, t: Ideal, i: nat, j: nat)
    requires Alike(f, s, t) && i < |s.regs| && j < |s.regs|
    ensures Show(s.regs[i]) == Show(t.iregs[i])
    ensures s.regs[i] == s.regs[j] <==> t.iregs[i] == t.iregs[j]
  {
    assert SameWord(f, s.regs[i], t.iregs[i]) && SameWord(f, s.regs[j], t.iregs[j]);
    if IsCons(s.regs[i]) { PtrRoundTrip(8 * f[ConsPtr(s.regs[i])]); ConsRoundTrip(s.regs[i]); }
    if IsCons(s.regs[j]) { PtrRoundTrip(8 * f[ConsPtr(s.regs[j])]); ConsRoundTrip(s.regs[j]); }
  }

  lemma {:induction false} CellAlike(f: map<nat, nat>, s: State, t: Ideal, i: nat)
    requires Alike(f, s, t) && i < |s.regs| && IsCons(s.regs[i])
    ensures ConsPtr(s.regs[i]) in s.store.cells
    ensures IdealCell(t.iregs[i], t.icells).Some?
    ensures SameCell(f, s.store.cells[ConsPtr(s.regs[i])], IdealCell(t.iregs[i], t.icells).value)
  {
    assert SameWord(f, s.regs[i], t.iregs[i]);
    var p := ConsPtr(s.regs[i]);
    PtrRoundTrip(8 * f[p]);
  }

  lemma {:induction false} ProperAlike(f: map<nat, nat>, op: Op, s: State, t: Ideal)
    requires Alike(f, s, t)
    ensures Proper(op, s.regs) <==> Proper(op, t.iregs)
  {
    match op
    case New(_, h, tl) => ArgAlike(f, h, s.regs, t.iregs); ArgAlike(f, tl, s.regs, t.iregs);
    case Put(_, a) => ArgAlike(f, a, s.regs, t.iregs);
    case ReadHead(_, r) => if r < |s.regs| { ShowAlike(f, s, t, r, r); }
    case ReadTail(_, r) => if r < |s.regs| { ShowAlike(f, s, t, r, r); }
    case _ =>
  }

  /** Each operation lets the program see the same on both heaps. */
  lemma {:induction false} StepAlike(f: map<nat, nat>, op: Op, s: State, t: Ideal, s': State, seen: Seen)
    returns (g: map<nat, nat>)
    requires Alike(f, s, t) && Does(op, s, s', seen)
    ensures Alike(g, s', IdealStep(op, t).0) && seen == IdealStep(op, t).1
  {
    g := f;
    ProperAlike(f, op, s, t);
    if Proper(op, s.regs) {
      match op
      case New(d, h, tl) =>
        ArgAlike(f, h, s.regs, t.iregs);
        ArgAlike(f, tl, s.regs, t.iregs);
        g := AllocAlike(f, s, t, s'.store, ArgWord(h, s.regs).value, ArgWord(tl, s.regs).value,
                        ArgWord(h, t.iregs).value, ArgWord(tl, t.iregs).value, s'.regs[d]);
      case ReadHead(_, r) => CellAlike(f, s, t, r);
      case ReadTail(_, r) => CellAlike(f, s, t, r);
      case Put(_, a) => ArgAlike(f, a, s.regs, t.iregs);
      case Look(i) => ShowAlike(f, s, t, i, i);
      case Compare(i, j) => ShowAlike(f, s, t, i, j);
    }
  }

  /** A program chooses each operation by what it has seen so far. */
  type Program = seq<Seen> -> Op

  ghost predicate Runs(next: Program, states: seq<State>, seen: seq<Seen>)
  {
    |states| == |seen| + 1 &&
    forall i :: 0 <= i < |seen| ==> Does(next(seen[..i]), states[i], states[i + 1], seen[i])
  }

  function IdealRun(next: Program, s: Ideal, n: nat): (r: (Ideal, seq<Seen>))
    ensures |r.1| == n
  {
    if n == 0 then (s, [])
    else
      var (t, seen) := IdealRun(next, s, n - 1);
      var (t', o) := IdealStep(next(seen), t);
      (t', seen + [o])
  }

  lemma {:induction false} StartAlike(s: State)
    requires WellFormed(s.store) && forall w :: w in s.regs ==> !IsCons(w)
    ensures Alike(map[], s, Ideal(s.regs, []))
  {
  }

  lemma {:induction false} RunAlike(next: Program, states: seq<State>, seen: seq<Seen>)
    returns (f: map<nat, nat>)
    requires Runs(next, states, seen) && WellFormed(states[0].store)
    requires forall w :: w in states[0].regs ==> !IsCons(w)
    ensures var r := IdealRun(next, Ideal(states[0].regs, []), |seen|);
            r.1 == seen && Alike(f, states[|seen|], r.0)
    decreases |seen|
  {
    hide Alike, Does, IdealStep, WellFormed;
    if seen == [] {
      f := map[];
      StartAlike(states[0]);
    } else {
      var k := |seen| - 1;
      assert Runs(next, states[..k + 1], seen[..k]) by {
        forall i | 0 <= i < k ensures seen[..k][..i] == seen[..i] {}
      }
      f := RunAlike(next, states[..k + 1], seen[..k]);
      f := StepAlike(f, next(seen[..k]), states[k], IdealRun(next, Ideal(states[0].regs, []), k).0,
                     states[k + 1], seen[k]);
      assert seen == seen[..k] + [seen[k]];
    }
  }

  /**
   Whatever a program does, with whatever collections and growth on the way, it sees exactly what
   it would see on a heap that never frees.
   */
  lemma {:induction false} CollectorIsInvisible(next: Program, states: seq<State>, seen: seq<Seen>)
    requires Runs(next, states, seen) && WellFormed(states[0].store)
    requires forall w :: w in states[0].regs ==> !IsCons(w)
    ensures seen == IdealRun(next, Ideal(states[0].regs, []), |seen|).1
  {
    var f := RunAlike(next, states, seen);
  }

  // ---- what there is to see ----

  /** What a program gives a `New` is what it reads from it, whichever part, and everything else stays. */
  lemma {:induction false} PartsOfNew(s: Ideal, d: nat, h: Arg, t: Arg, r: nat)
    requires d < |s.iregs| && r < |s.iregs| && ArgWord(h, s.iregs).Some? && ArgWord(t, s.iregs).Some?
    ensures var (s1, seen) := IdealStep(New(d, h, t), s);
            var ((s2, seen2), (s3, seen3)) := (IdealStep(ReadHead(r, d), s1), IdealStep(ReadTail(r, d), s1));
            && seen == seen2 == seen3 == Quiet && IdealStep(Look(d), s1).1 == ACons
            && s2.iregs == s1.iregs[r := ArgWord(h, s.iregs).value]
            && s3.iregs == s1.iregs[r := ArgWord(t, s.iregs).value]
            && s2.icells == s1.icells == s3.icells && s.icells <= s1.icells
            && forall i :: 0 <= i < |s.iregs| && i != d ==> s1.iregs[i] == s.iregs[i]
  {
    PtrRoundTrip(8 * |s.icells|);
  }

  /** A number that is put in a register is seen there, as far as 61 bits go; the end of a list is seen as that. */
  lemma {:induction false} SeenAsPut(s: Ideal, d: nat, n: int, i: nat)
    requires d < |s.iregs| && i < |s.iregs|
    ensures IdealStep(Look(d), IdealStep(Put(d, Number(n)), s).0).1 == AFixnum(Wrap61(n))
    ensures IdealStep(Look(d), IdealStep(Put(d, Null), s).0).1 == AnEnd
    ensures IdealStep(Compare(d, i), IdealStep(Put(d, Reg(i)), s).0).1 == AreSame(true)
    ensures IdealStep(Look(|s.iregs|), s).1 == Fault
  {
    FixnumRoundTrip(n);
  }

  /** Two nodes are never the same, nor a node and a number. */
  lemma {:induction false} NewIsNew(s: Ideal, d: nat, e: nat, h: Arg, t: Arg, n: int)
    requires d < |s.iregs| && e < |s.iregs| && d != e && ArgWord(h, s.iregs).Some? && ArgWord(t, s.iregs).Some?
    ensures var s1 := IdealStep(New(d, h, t), s).0;
            var s2 := IdealStep(New(e, Null, Null), s1).0;
            && IdealStep(Compare(d, e), s2).1 == AreSame(false)
            && IdealStep(Compare(d, e), IdealStep(Put(e, Number(n)), s1).0).1 == AreSame(false)
  {
    PtrRoundTrip(8 * |s.icells|);
    FixnumRoundTrip(n);
  }
}
