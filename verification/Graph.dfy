/** Nodes that point at one another, and what can be reached from a set of them. */
module Graph {
  import opened Lists
  import opened Words

  datatype Cell = Cell(head: Word, tail: Word)

  type Memory = map<nat, Cell>

  predicate Edge(m: Memory, a: nat, b: nat)
  {
    a in m && (Target(m[a].head) == Some(b) || Target(m[a].tail) == Some(b))
  }

  ghost predicate ReachIn(m: Memory, roots: set<nat>, p: nat, k: nat)
    decreases k
  {
    if k == 0 then p in roots else exists a :: ReachIn(m, roots, a, k - 1) && Edge(m, a, p)
  }

  /** `p` is a root or can be read by following heads and tails from one. */
  ghost predicate Reach(m: Memory, roots: set<nat>, p: nat)
  {
    exists k: nat :: ReachIn(m, roots, p, k)
  }

  ghost predicate Closed(m: Memory, s: set<nat>)
  {
    forall a, b :: a in s && Edge(m, a, b) ==> b in s
  }

  lemma {:induction false} RootReaches(m: Memory, roots: set<nat>, p: nat)
    requires p in roots
    ensures Reach(m, roots, p)
  {
    assert ReachIn(m, roots, p, 0);
  }

  lemma {:induction false} EdgeReaches(m: Memory, roots: set<nat>, a: nat, b: nat)
    requires Reach(m, roots, a) && Edge(m, a, b)
    ensures Reach(m, roots, b)
  {
    var k: nat :| ReachIn(m, roots, a, k);
    assert ReachIn(m, roots, b, k + 1);
  }

  /** What is reachable is the least set that holds the roots and is closed. */
  lemma {:induction false} ReachWithin(m: Memory, roots: set<nat>, s: set<nat>, p: nat)
    requires roots <= s && Closed(m, s) && Reach(m, roots, p)
    ensures p in s
  {
    var k: nat :| ReachIn(m, roots, p, k);
    StepsWithin(m, roots, s, p, k);
  }

  lemma {:induction false} StepsWithin(m: Memory, roots: set<nat>, s: set<nat>, p: nat, k: nat)
    requires roots <= s && Closed(m, s) && ReachIn(m, roots, p, k)
    ensures p in s
    decreases k
  {
    if k > 0 {
      var a :| ReachIn(m, roots, a, k - 1) && Edge(m, a, p);
      StepsWithin(m, roots, s, a, k - 1);
    }
  }

  /** More roots reach more, each node from one side or the other. */
  lemma {:induction false} ReachUnion(m: Memory, a: set<nat>, b: set<nat>, p: nat)
    ensures Reach(m, a + b, p) <==> Reach(m, a, p) || Reach(m, b, p)
  {
    if k: nat :| ReachIn(m, a + b, p, k) { StepsUnion(m, a, b, p, k); }
    if k: nat :| ReachIn(m, a, p, k) { StepsMore(m, a, a + b, p, k); }
    if k: nat :| ReachIn(m, b, p, k) { StepsMore(m, b, a + b, p, k); }
  }

  lemma {:induction false} StepsUnion(m: Memory, a: set<nat>, b: set<nat>, p: nat, k: nat)
    requires ReachIn(m, a + b, p, k)
    ensures Reach(m, a, p) || Reach(m, b, p)
    decreases k
  {
    if k == 0 {
      if p in a { RootReaches(m, a, p); } else { RootReaches(m, b, p); }
    } else {
      var c :| ReachIn(m, a + b, c, k - 1) && Edge(m, c, p);
      StepsUnion(m, a, b, c, k - 1);
      if Reach(m, a, c) { EdgeReaches(m, a, c, p); } else { EdgeReaches(m, b, c, p); }
    }
  }

  lemma {:induction false} StepsMore(m: Memory, a: set<nat>, b: set<nat>, p: nat, k: nat)
    requires ReachIn(m, a, p, k) && a <= b
    ensures Reach(m, b, p)
    decreases k
  {
    if k == 0 {
      RootReaches(m, b, p);
    } else {
      var c :| ReachIn(m, a, c, k - 1) && Edge(m, c, p);
      StepsMore(m, a, b, c, k - 1);
      EdgeReaches(m, b, c, p);
    }
  }

  /** Reaching the same from memories that agree on all that is reached. */
  lemma {:induction false} ReachSame(m: Memory, m': Memory, roots: set<nat>, p: nat)
    requires forall a :: Reach(m, roots, a) && a in m ==> a in m' && m'[a] == m[a]
    requires forall a :: Reach(m, roots, a) && a in m' ==> a in m
    ensures Reach(m, roots, p) <==> Reach(m', roots, p)
  {
    if k: nat :| ReachIn(m, roots, p, k) { StepsSame(m, m', roots, p, k); }
    if k: nat :| ReachIn(m', roots, p, k) { StepsBack(m, m', roots, p, k); }
  }

  lemma {:induction false} StepsSame(m: Memory, m': Memory, roots: set<nat>, p: nat, k: nat)
    requires forall a :: Reach(m, roots, a) && a in m ==> a in m' && m'[a] == m[a]
    requires ReachIn(m, roots, p, k)
    ensures Reach(m', roots, p)
    decreases k
  {
    if k == 0 {
      RootReaches(m', roots, p);
    } else {
      var c :| ReachIn(m, roots, c, k - 1) && Edge(m, c, p);
      assert Reach(m, roots, c);
      StepsSame(m, m', roots, c, k - 1);
      EdgeReaches(m', roots, c, p);
    }
  }

  lemma {:induction false} StepsBack(m: Memory, m': Memory, roots: set<nat>, p: nat, k: nat)
    requires forall a :: Reach(m, roots, a) && a in m ==> a in m' && m'[a] == m[a]
    requires forall a :: Reach(m, roots, a) && a in m' ==> a in m
    requires ReachIn(m', roots, p, k)
    ensures Reach(m, roots, p)
    decreases k
  {
    if k == 0 {
      RootReaches(m, roots, p);
    } else {
      var c :| ReachIn(m', roots, c, k - 1) && Edge(m', c, p);
      StepsBack(m, m', roots, c, k - 1);
      EdgeReaches(m, roots, c, p);
    }
  }

  /** The nodes that the cons words of `ws` name. */
  function Targets(ws: seq<Word>): set<nat>
  {
    set w | w in ws && IsCons(w) :: ConsPtr(w)
  }
}
