/**
 Reachability over the role graph, three ways: the `reaches` defun, depth-first search of the
 Prolog clauses, and the list of ancestors (spec/verify.shen, spec/authz.shen, reaches_equiv.rs).
 */
module Roles {

  datatype Entity = Entity(name: string)

  /** `[child parent]` */
  datatype Edge = Edge(child: Entity, parent: Entity)

  type Edges = seq<Edge>

  // ---- the closure ----

  predicate HasEdge(es: Edges, a: Entity, b: Entity) { Edge(a, b) in es }

  ghost predicate Steps(es: Edges, a: Entity, b: Entity, k: nat)
    decreases k
  {
    if k == 0 then a == b else exists c :: HasEdge(es, a, c) && Steps(es, c, b, k - 1)
  }

  /** The reflexive and transitive closure of the edges. */
  ghost predicate IsIn(es: Edges, a: Entity, b: Entity)
  {
    exists k: nat :: Steps(es, a, b, k)
  }

  ghost predicate Acyclic(es: Edges)
  {
    forall a: Entity, k: nat :: k > 0 ==> !Steps(es, a, a, k)
  }

  lemma {:induction false} IsInSelf(es: Edges, a: Entity)
    ensures IsIn(es, a, a)
  {
    assert Steps(es, a, a, 0);
  }

  lemma {:induction false} StepsThen(es: Edges, a: Entity, b: Entity, c: Entity, j: nat, k: nat)
    requires Steps(es, a, b, j) && Steps(es, b, c, k)
    ensures Steps(es, a, c, j + k)
    decreases j
  {
    if j > 0 {
      var d :| HasEdge(es, a, d) && Steps(es, d, b, j - 1);
      StepsThen(es, d, b, c, j - 1, k);
    }
  }

  lemma {:induction false} IsInThen(es: Edges, a: Entity, b: Entity, c: Entity)
    requires IsIn(es, a, b) && IsIn(es, b, c)
    ensures IsIn(es, a, c)
  {
    var j: nat :| Steps(es, a, b, j);
    var k: nat :| Steps(es, b, c, k);
    StepsThen(es, a, b, c, j, k);
  }

  lemma {:induction false} EdgeThen(es: Edges, a: Entity, b: Entity, c: Entity)
    requires HasEdge(es, a, b) && IsIn(es, b, c)
    ensures IsIn(es, a, c)
  {
    var k: nat :| Steps(es, b, c, k);
    assert Steps(es, a, c, k + 1);
  }

  /** Anything in another is it, or has a parent that is. */
  lemma {:induction false} IsInCases(es: Edges, a: Entity, b: Entity)
    requires IsIn(es, a, b)
    ensures a == b || exists p :: HasEdge(es, a, p) && IsIn(es, p, b)
  {
    var k: nat :| Steps(es, a, b, k);
    if k > 0 {
      var p :| HasEdge(es, a, p) && Steps(es, p, b, k - 1);
      assert IsIn(es, p, b);
    }
  }

  // ---- why it ends ----

  function Targets(es: Edges): set<Entity>
  {
    set e | e in es :: e.parent
  }

  /** The entities strictly above `a`. */
  ghost function Above(es: Edges, a: Entity): set<Entity>
  {
    set b | b in Targets(es) && (exists p :: HasEdge(es, a, p) && IsIn(es, p, b))
  }

  ghost function Height(es: Edges, a: Entity): nat { |Above(es, a)| }

  lemma {:induction false} Subset(a: set<Entity>, b: set<Entity>)
    requires a <= b
    ensures |a| <= |b|
    ensures a != b ==> |a| < |b|
  {
    if a != {} {
      var x :| x in a;
      Subset(a - {x}, b - {x});
      assert (a - {x}) + {x} == a && (b - {x}) + {x} == b;
    }
  }

  /** Parents are lower down the recursion. */
  lemma {:induction false} ParentLower(es: Edges, a: Entity, p: Entity)
    requires Acyclic(es) && HasEdge(es, a, p)
    ensures Height(es, p) < Height(es, a)
  {
    assert p in Targets(es);
    IsInSelf(es, p);
    assert p in Above(es, a);
    if p in Above(es, p) {
      var q :| HasEdge(es, p, q) && IsIn(es, q, p);
      var k: nat :| Steps(es, q, p, k);
      assert Steps(es, p, p, k + 1);
    }
    forall b | b in Above(es, p) ensures b in Above(es, a) {
      var q :| HasEdge(es, p, q) && IsIn(es, q, b);
      EdgeThen(es, p, q, b);
    }
    Subset(Above(es, p), Above(es, a));
  }

  // ---- the defuns ----

  function ParentsOf(x: Entity, es: Edges): seq<Entity>
  {
    if es == [] then []
    else if es[0].child == x then [es[0].parent] + ParentsOf(x, es[1..])
    else ParentsOf(x, es[1..])
  }

  /** As compiled: skipping is a loop, keeping is a call. */
  method ParentsOfLoop(x: Entity, es: Edges) returns (r: seq<Entity>)
    ensures r == ParentsOf(x, es)
    decreases |es|
  {
    var cur := es;
    while true
      invariant |cur| <= |es| && ParentsOf(x, cur) == ParentsOf(x, es)
      decreases |cur|
    {
      if cur == [] { return []; }
      if cur[0].child == x {
        var rest := ParentsOfLoop(x, cur[1..]);
        return [cur[0].parent] + rest;
      }
      cur := cur[1..];
    }
  }

  lemma {:induction false} ParentsAreEdges(x: Entity, es: Edges, p: Entity)
    ensures p in ParentsOf(x, es) <==> HasEdge(es, x, p)
  {
    if es != [] {
      ParentsAreEdges(x, es[1..], p);
      assert HasEdge(es, x, p) <==> es[0] == Edge(x, p) || Edge(x, p) in es[1..];
    }
  }

  ghost predicate AllAbove(es: Edges, a: Entity, ps: seq<Entity>)
  {
    forall p :: p in ps ==> HasEdge(es, a, p)
  }

  lemma {:induction false} ParentsAreAbove(es: Edges, a: Entity)
    ensures AllAbove(es, a, ParentsOf(a, es))
  {
    forall p | p in ParentsOf(a, es) ensures HasEdge(es, a, p) { ParentsAreEdges(a, es, p); }
  }

  function Reaches(a: Entity, b: Entity, es: Edges): bool
    requires Acyclic(es)
    decreases Height(es, a), 1
  {
    ParentsAreAbove(es, a);
    a == b || ReachesList(a, ParentsOf(a, es), b, es)
  }

  /** `ps` are parents of `a`, which is there to show that the recursion ends. */
  function ReachesList(ghost a: Entity, ps: seq<Entity>, b: Entity, es: Edges): bool
    requires Acyclic(es) && AllAbove(es, a, ps)
    decreases Height(es, a), 0, |ps|
  {
    if ps == [] then false
    else
      ParentLower(es, a, ps[0]);
      Reaches(ps[0], b, es) || ReachesList(a, ps[1..], b, es)
  }

  /** The defun decides the closure. */
  lemma {:induction false} ReachesIsClosure(a: Entity, b: Entity, es: Edges)
    requires Acyclic(es)
    ensures Reaches(a, b, es) <==> IsIn(es, a, b)
    decreases Height(es, a), 1
  {
    ParentsAreAbove(es, a);
    ReachesListIsClosure(a, ParentsOf(a, es), b, es);
    IsInSelf(es, a);
    if Reaches(a, b, es) && a != b {
      var p :| p in ParentsOf(a, es) && IsIn(es, p, b);
      EdgeThen(es, a, p, b);
    }
    if IsIn(es, a, b) && a != b {
      IsInCases(es, a, b);
      var p :| HasEdge(es, a, p) && IsIn(es, p, b);
      ParentsAreEdges(a, es, p);
    }
  }

  lemma {:induction false} ReachesListIsClosure(a: Entity, ps: seq<Entity>, b: Entity, es: Edges)
    requires Acyclic(es) && AllAbove(es, a, ps)
    ensures ReachesList(a, ps, b, es) <==> exists p :: p in ps && IsIn(es, p, b)
    decreases Height(es, a), 0, |ps|
  {
    if ps != [] {
      ParentLower(es, a, ps[0]);
      ReachesIsClosure(ps[0], b, es);
      ReachesListIsClosure(a, ps[1..], b, es);
      assert forall p :: p in ps <==> p == ps[0] || p in ps[1..];
    }
  }

  /** As compiled: `reaches-list` is a loop over the parents. */
  method ReachesMethod(a: Entity, b: Entity, es: Edges) returns (r: bool)
    requires Acyclic(es)
    ensures r == Reaches(a, b, es)
    decreases Height(es, a), 1
  {
    if a == b { return true; }
    var ps := ParentsOfLoop(a, es);
    ParentsAreAbove(es, a);
    r := ReachesListLoop(a, ps, b, es);
  }

  method ReachesListLoop(ghost a: Entity, ps: seq<Entity>, b: Entity, es: Edges) returns (r: bool)
    requires Acyclic(es) && AllAbove(es, a, ps)
    ensures r == ReachesList(a, ps, b, es)
    decreases Height(es, a), 0
  {
    var cur := ps;
    while true
      invariant AllAbove(es, a, cur) && ReachesList(a, cur, b, es) == ReachesList(a, ps, b, es)
      decreases |cur|
    {
      if cur == [] { return false; }
      ParentLower(es, a, cur[0]);
      var hit := ReachesMethod(cur[0], b, es);
      if hit { return true; }
      cur := cur[1..];
    }
  }

  // ---- Prolog ----

  /** How many goals the search for everything above `a` runs through: one for each path. */
  ghost function Goals(es: Edges, a: Entity): nat
    requires Acyclic(es)
    decreases Height(es, a), 1
  {
    ParentsAreAbove(es, a);
    1 + GoalsOf(es, a, ParentsOf(a, es))
  }

  ghost function GoalsOf(es: Edges, a: Entity, ps: seq<Entity>): nat
    requires Acyclic(es) && AllAbove(es, a, ps)
    decreases Height(es, a), 0, |ps|
  {
    if ps == [] then 0
    else
      ParentLower(es, a, ps[0]);
      Goals(es, ps[0]) + GoalsOf(es, a, ps[1..])
  }

  ghost function Pending(es: Edges, stack: seq<Entity>): nat
    requires Acyclic(es)
  {
    if stack == [] then 0 else Goals(es, stack[0]) + Pending(es, stack[1..])
  }

  lemma {:induction false} PendingMore(es: Edges, a: Entity, ps: seq<Entity>, rest: seq<Entity>)
    requires Acyclic(es) && AllAbove(es, a, ps)
    ensures Pending(es, ps + rest) == GoalsOf(es, a, ps) + Pending(es, rest)
    decreases |ps|
  {
    if ps == [] {
      assert ps + rest == rest;
    } else {
      PendingMore(es, a, ps[1..], rest);
      assert (ps + rest)[0] == ps[0] && (ps + rest)[1..] == ps[1..] + rest;
    }
  }

  ghost predicate Provable(es: Edges, stack: seq<Entity>, y: Entity)
  {
    exists x :: x in stack && IsIn(es, x, y)
  }

  lemma {:induction false} ProvableStep(es: Edges, x: Entity, rest: seq<Entity>, y: Entity)
    requires x != y
    ensures Provable(es, [x] + rest, y) <==> Provable(es, ParentsOf(x, es) + rest, y)
  {
    if Provable(es, [x] + rest, y) {
      var g :| g in [x] + rest && IsIn(es, g, y);
      if g == x {
        IsInCases(es, x, y);
        var p :| HasEdge(es, x, p) && IsIn(es, p, y);
        ParentsAreEdges(x, es, p);
        assert p in ParentsOf(x, es) + rest;
      } else {
        assert g in ParentsOf(x, es) + rest;
      }
    }
    if Provable(es, ParentsOf(x, es) + rest, y) {
      var g :| g in ParentsOf(x, es) + rest && IsIn(es, g, y);
      if g in ParentsOf(x, es) {
        ParentsAreEdges(x, es, g);
        EdgeThen(es, x, g, y);
        assert x in [x] + rest;
      } else {
        assert g in [x] + rest;
      }
    }
  }

  /**
   The query `(prolog-reaches X Y)`: the first clause proves a goal whose arguments are equal, the
   second replaces it by one goal for each `parent` fact, in order; untried goals wait on a stack.
   */
  method PrologReaches(x: Entity, y: Entity, facts: Edges) returns (proved: bool)
    requires Acyclic(facts)
    ensures proved <==> IsIn(facts, x, y)
  {
    var stack := [x];
    assert Provable(facts, stack, y) <==> IsIn(facts, x, y) by { assert x in [x]; }
    while stack != []
      invariant Provable(facts, stack, y) <==> IsIn(facts, x, y)
      decreases Pending(facts, stack)
    {
      var goal, rest := stack[0], stack[1..];
      assert stack == [goal] + rest;
      if goal == y {
        IsInSelf(facts, y);
        assert goal in stack;
        return true;
      }
      var ps := ParentsOfLoop(goal, facts);
      ProvableStep(facts, goal, rest, y);
      ParentsAreAbove(facts, goal);
      PendingMore(facts, goal, ps, rest);
      stack := ps + rest;
    }
    return false;
  }

  // ---- ancestors ----

  function Ancestors(r: Entity, es: Edges): seq<Entity>
    requires Acyclic(es)
    decreases Height(es, r), 1
  {
    ParentsAreAbove(es, r);
    [r] + AncList(r, ParentsOf(r, es), es)
  }

  function AncList(ghost r: Entity, rs: seq<Entity>, es: Edges): seq<Entity>
    requires Acyclic(es) && AllAbove(es, r, rs)
    decreases Height(es, r), 0, |rs|
  {
    if rs == [] then []
    else
      ParentLower(es, r, rs[0]);
      Ancestors(rs[0], es) + AncList(r, rs[1..], es)
  }

  lemma {:induction false} AncestorsAreClosure(r: Entity, es: Edges, b: Entity)
    requires Acyclic(es)
    ensures b in Ancestors(r, es) <==> IsIn(es, r, b)
    decreases Height(es, r), 1
  {
    ParentsAreAbove(es, r);
    AncListIsClosure(r, ParentsOf(r, es), es, b);
    IsInSelf(es, r);
    if b != r {
      if b in Ancestors(r, es) {
        var p :| p in ParentsOf(r, es) && IsIn(es, p, b);
        EdgeThen(es, r, p, b);
      }
      if IsIn(es, r, b) {
        IsInCases(es, r, b);
        var p :| HasEdge(es, r, p) && IsIn(es, p, b);
        ParentsAreEdges(r, es, p);
      }
    }
  }

  lemma {:induction false} AncListIsClosure(r: Entity, rs: seq<Entity>, es: Edges, b: Entity)
    requires Acyclic(es) && AllAbove(es, r, rs)
    ensures b in AncList(r, rs, es) <==> exists p :: p in rs && IsIn(es, p, b)
    decreases Height(es, r), 0, |rs|
  {
    if rs != [] {
      ParentLower(es, r, rs[0]);
      AncestorsAreClosure(rs[0], es, b);
      AncListIsClosure(r, rs[1..], es, b);
      assert forall p :: p in rs <==> p == rs[0] || p in rs[1..];
    }
  }

  /** The defun, the Prolog search and the list of ancestors agree. */
  lemma {:induction false} ThreeWays(a: Entity, b: Entity, es: Edges)
    requires Acyclic(es)
    ensures Reaches(a, b, es) <==> b in Ancestors(a, es)
    ensures Reaches(a, b, es) <==> IsIn(es, a, b)
  {
    ReachesIsClosure(a, b, es);
    AncestorsAreClosure(a, es, b);
  }

  // ---- grants ----

  datatype Grant = Grant(role: Entity, action: string, resource: Entity)

  method Mem(x: Entity, xs: seq<Entity>) returns (r: bool)
    ensures r <==> x in xs
  {
    var cur := xs;
    while cur != []
      invariant x in cur <==> x in xs
      decreases |cur|
    {
      if x == cur[0] { return true; }
      cur := cur[1..];
    }
    return false;
  }

  /** The grants of roles among `anc`, given to `r`. */
  function GFilter(anc: seq<Entity>, gs: seq<Grant>, r: Entity): seq<Grant>
  {
    if gs == [] then []
    else if gs[0].role in anc then [gs[0].(role := r)] + GFilter(anc, gs[1..], r)
    else GFilter(anc, gs[1..], r)
  }

  method GFilterLoop(anc: seq<Entity>, gs: seq<Grant>, r: Entity) returns (out: seq<Grant>)
    ensures out == GFilter(anc, gs, r)
    decreases |gs|
  {
    var cur := gs;
    while true
      invariant |cur| <= |gs| && GFilter(anc, cur, r) == GFilter(anc, gs, r)
      decreases |cur|
    {
      if cur == [] { return []; }
      var hit := Mem(cur[0].role, anc);
      if hit {
        var rest := GFilterLoop(anc, cur[1..], r);
        return [cur[0].(role := r)] + rest;
      }
      cur := cur[1..];
    }
  }

  lemma {:induction false} GFilterIs(anc: seq<Entity>, gs: seq<Grant>, r: Entity, t: Grant)
    ensures t in GFilter(anc, gs, r) <==>
            exists g :: g in gs && g.role in anc && t == g.(role := r)
  {
    if gs != [] {
      GFilterIs(anc, gs[1..], r, t);
      assert forall g :: g in gs <==> g == gs[0] || g in gs[1..];
    }
  }

  function ExpandRoles(rs: seq<Entity>, es: Edges, gs: seq<Grant>): seq<Grant>
    requires Acyclic(es)
  {
    if rs == [] then [] else GFilter(Ancestors(rs[0], es), gs, rs[0]) + ExpandRoles(rs[1..], es, gs)
  }

  /**
   The expansion lists exactly the triples (r, action, resource) such that `r` is one of the roles
   and is in some role that is granted the action on the resource.
   */
  lemma {:induction false} ExpansionIsClosure(rs: seq<Entity>, es: Edges, gs: seq<Grant>, t: Grant)
    requires Acyclic(es)
    ensures t in ExpandRoles(rs, es, gs) <==>
            t.role in rs && exists g :: g in gs && IsIn(es, t.role, g.role) && t == g.(role := t.role)
  {
    if rs != [] {
      ExpansionIsClosure(rs[1..], es, gs, t);
      GFilterIs(Ancestors(rs[0], es), gs, rs[0], t);
      forall g | g in gs ensures g.role in Ancestors(rs[0], es) <==> IsIn(es, rs[0], g.role) {
        AncestorsAreClosure(rs[0], es, g.role);
      }
      assert t.role in rs <==> t.role == rs[0] || t.role in rs[1..];
    }
  }
}
