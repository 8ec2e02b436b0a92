/** The policy analysis: when a forbid shadows a permit, and when they overlap (spec/verify.shen). */
module Scopes {
  import opened Roles

  datatype Kind = KAny | KIn | KEq

  /** `[kind id]`; the id of `kany` is ignored. */
  datatype Scope = Scope(kind: Kind, id: Entity)

  /** The entities that a scope matches. */
  ghost predicate Matches(s: Scope, e: Entity, es: Edges)
  {
    match s.kind
    case KAny => true
    case KIn => IsIn(es, e, s.id)
    case KEq => e == s.id
  }

  function Covers(f: Scope, p: Scope, es: Edges): bool
    requires Acyclic(es)
  {
    if f.kind == KAny then true
    else if f.kind == KIn then
      if p.kind == KIn then Reaches(p.id, f.id, es)
      else if p.kind == KEq then Reaches(p.id, f.id, es) else false
    else if p.kind == KEq then f.id == p.id else false
  }

  function Inter(f: Scope, p: Scope, es: Edges): bool
    requires Acyclic(es)
  {
    if f.kind == KAny then true
    else if p.kind == KAny then true
    else if f.kind == KIn then
      if p.kind == KIn then Reaches(f.id, p.id, es) || Reaches(p.id, f.id, es) else Reaches(p.id, f.id, es)
    else if p.kind == KEq then f.id == p.id else Reaches(f.id, p.id, es)
  }

  datatype Verdict = Shadowed | Overlap | Disjoint

  function Classify(fp: Scope, fr: Scope, pp: Scope, pr: Scope, es: Edges): Verdict
    requires Acyclic(es)
  {
    if Covers(fp, pp, es) && Covers(fr, pr, es) then Shadowed
    else if Inter(fp, pp, es) && Inter(fr, pr, es) then Overlap else Disjoint
  }

  // ---- covering ----

  /** Everything that `p` matches, `f` matches. */
  ghost predicate Within(p: Scope, f: Scope, es: Edges)
  {
    forall e :: Matches(p, e, es) ==> Matches(f, e, es)
  }

  lemma {:induction false} SelfMatches(s: Scope, es: Edges)
    ensures Matches(s, s.id, es)
  {
    IsInSelf(es, s.id);
  }

  /** There are entities that no edge mentions. */
  lemma {:induction false} Stranger(es: Edges, avoid: Entity) returns (e: Entity)
    ensures e != avoid && forall b :: IsIn(es, e, b) ==> b == e
  {
    var n := Longest(es, |avoid.name|);
    e := Entity(seq(n + 1, _ => 'x'));
    forall b | IsIn(es, e, b) ensures b == e {
      var k: nat :| Steps(es, e, b, k);
      if k > 0 {
        var c :| HasEdge(es, e, c) && Steps(es, c, b, k - 1);
        LongestIs(es, |avoid.name|, Edge(e, c));
      }
    }
    LongestAtLeast(es, |avoid.name|);
  }

  function Longest(es: Edges, n: nat): nat
  {
    if es == [] then n
    else
      var m := Longest(es[1..], n);
      if |es[0].child.name| > m then |es[0].child.name| else m
  }

  lemma {:induction false} LongestIs(es: Edges, n: nat, e: Edge)
    requires e in es
    ensures |e.child.name| <= Longest(es, n)
  {
    if e != es[0] { LongestIs(es[1..], n, e); }
  }

  lemma {:induction false} LongestAtLeast(es: Edges, n: nat)
    ensures n <= Longest(es, n)
  {
    if es != [] { LongestAtLeast(es[1..], n); }
  }

  /**
   Covering is what it should be, except that an `==` scope is never found to cover an `in` scope:
   that happens only for an entity that nothing else is in.
   */
  lemma {:induction false} CoversExact(f: Scope, p: Scope, es: Edges)
    requires Acyclic(es)
    ensures Covers(f, p, es) <==> Within(p, f, es) && !(f.kind == KEq && p.kind == KIn)
  {
    SelfMatches(p, es);
    if f.kind == KIn { ReachesIsClosure(p.id, f.id, es); }
    if Covers(f, p, es) {
      forall e | Matches(p, e, es) ensures Matches(f, e, es) {
        if f.kind == KIn && p.kind == KIn { IsInThen(es, e, p.id, f.id); }
      }
    }
    if p.kind == KAny && f.kind != KAny {
      var e := Stranger(es, f.id);
      assert Matches(p, e, es) && !Matches(f, e, es);
    }
  }

  /** The one case it misses. */
  lemma {:induction false} MissedCover(f: Scope, p: Scope, es: Edges)
    requires Acyclic(es) && f.kind == KEq && p.kind == KIn
    ensures !Covers(f, p, es)
    ensures Within(p, f, es) <==> f.id == p.id && forall c :: !HasEdge(es, c, p.id)
  {
    SelfMatches(p, es);
    if c :| HasEdge(es, c, p.id) {
      IsInSelf(es, p.id);
      EdgeThen(es, c, p.id, p.id);
      assert Matches(p, c, es);
      if c == p.id { assert Steps(es, c, c, 0) && Steps(es, c, c, 1); }
    } else {
      forall e | IsIn(es, e, p.id) ensures e == p.id { OnlyItself(es, e, p.id); }
    }
  }

  lemma {:induction false} OnlyItself(es: Edges, e: Entity, b: Entity)
    requires IsIn(es, e, b) && forall c :: !HasEdge(es, c, b)
    ensures e == b
  {
    var k: nat :| Steps(es, e, b, k);
    NoStepsInto(es, e, b, k);
  }

  lemma {:induction false} NoStepsInto(es: Edges, e: Entity, b: Entity, k: nat)
    requires Steps(es, e, b, k) && forall c :: !HasEdge(es, c, b)
    ensures k == 0
    decreases k
  {
    if k > 0 {
      var c :| HasEdge(es, e, c) && Steps(es, c, b, k - 1);
      NoStepsInto(es, c, b, k - 1);
    }
  }

  /** A request is matched when its principal and its resource are. */
  ghost predicate Applies(ps: Scope, rs: Scope, principal: Entity, resource: Entity, es: Edges)
  {
    Matches(ps, principal, es) && Matches(rs, resource, es)
  }

  /** The forbid applies to every request that the permit applies to. */
  ghost predicate Shadows(fp: Scope, fr: Scope, pp: Scope, pr: Scope, es: Edges)
  {
    forall a, b :: Applies(pp, pr, a, b, es) ==> Applies(fp, fr, a, b, es)
  }

  predicate EqOverIn(f: Scope, p: Scope) { f.kind == KEq && p.kind == KIn }

  /** `shadowed` is always right, and given whenever no `==` scope of the forbid faces an `in` scope. */
  lemma {:induction false} ShadowedExact(fp: Scope, fr: Scope, pp: Scope, pr: Scope, es: Edges)
    requires Acyclic(es)
    ensures Classify(fp, fr, pp, pr, es) == Shadowed <==>
            Shadows(fp, fr, pp, pr, es) && !EqOverIn(fp, pp) && !EqOverIn(fr, pr)
  {
    CoversExact(fp, pp, es);
    CoversExact(fr, pr, es);
    SelfMatches(pp, es);
    SelfMatches(pr, es);
    if Shadows(fp, fr, pp, pr, es) {
      forall a | Matches(pp, a, es) ensures Matches(fp, a, es) { assert Applies(pp, pr, a, pr.id, es); }
      forall b | Matches(pr, b, es) ensures Matches(fr, b, es) { assert Applies(pp, pr, pp.id, b, es); }
    }
  }

  // ---- meeting ----

  /** Some entity is matched by both. */
  ghost predicate Meet(f: Scope, p: Scope, es: Edges)
  {
    exists e :: Matches(f, e, es) && Matches(p, e, es)
  }

  lemma {:induction false} InterMeets(f: Scope, p: Scope, es: Edges)
    requires Acyclic(es) && Inter(f, p, es)
    ensures Meet(f, p, es)
  {
    SelfMatches(f, es);
    SelfMatches(p, es);
    ReachesIsClosure(f.id, p.id, es);
    ReachesIsClosure(p.id, f.id, es);
    assert Matches(f, f.id, es) && Matches(p, p.id, es);
    if f.kind == KAny {
      assert Matches(f, p.id, es);
    } else if p.kind == KAny {
      assert Matches(p, f.id, es);
    } else if f.kind == KIn && Reaches(p.id, f.id, es) {
      assert Matches(f, p.id, es);
    } else {
      assert Matches(p, f.id, es);
    }
  }

  /** It misses only two `in` scopes whose entities are not in one another but share a member. */
  lemma {:induction false} MeetExact(f: Scope, p: Scope, es: Edges)
    requires Acyclic(es) && Meet(f, p, es)
    ensures Inter(f, p, es) || (f.kind == KIn && p.kind == KIn && !IsIn(es, f.id, p.id) && !IsIn(es, p.id, f.id))
  {
    ReachesIsClosure(f.id, p.id, es);
    ReachesIsClosure(p.id, f.id, es);
  }

  /** What every two ancestors of an entity need, for the analysis to see every overlap. */
  ghost predicate Comparable(es: Edges)
  {
    forall x, a, b :: IsIn(es, x, a) && IsIn(es, x, b) ==> IsIn(es, a, b) || IsIn(es, b, a)
  }

  /** The same of parents only, which can be checked edge by edge. */
  ghost predicate ParentsComparable(es: Edges)
  {
    forall x, p, q :: HasEdge(es, x, p) && HasEdge(es, x, q) ==> IsIn(es, p, q) || IsIn(es, q, p)
  }

  predicate OneParent(es: Edges)
  {
    forall e, f :: e in es && f in es && e.child == f.child ==> e.parent == f.parent
  }

  lemma {:induction false} ComparableAncestors(es: Edges, x: Entity, a: Entity, b: Entity)
    requires Acyclic(es) && ParentsComparable(es) && IsIn(es, x, a) && IsIn(es, x, b)
    ensures IsIn(es, a, b) || IsIn(es, b, a)
    decreases Height(es, x)
  {
    if x != a && x != b {
      IsInCases(es, x, a);
      IsInCases(es, x, b);
      var p :| HasEdge(es, x, p) && IsIn(es, p, a);
      var q :| HasEdge(es, x, q) && IsIn(es, q, b);
      ParentLower(es, x, p);
      ParentLower(es, x, q);
      if IsIn(es, p, q) {
        IsInThen(es, p, q, b);
        ComparableAncestors(es, p, a, b);
      } else {
        IsInThen(es, q, p, a);
        ComparableAncestors(es, q, a, b);
      }
    }
  }

  lemma {:induction false} ComparableIff(es: Edges)
    requires Acyclic(es)
    ensures Comparable(es) <==> ParentsComparable(es)
    ensures OneParent(es) ==> ParentsComparable(es)
  {
    if Comparable(es) {
      forall x, p, q | HasEdge(es, x, p) && HasEdge(es, x, q) ensures IsIn(es, p, q) || IsIn(es, q, p) {
        IsInSelf(es, p);
        IsInSelf(es, q);
        EdgeThen(es, x, p, p);
        EdgeThen(es, x, q, q);
      }
    }
    if ParentsComparable(es) {
      forall x, a, b | IsIn(es, x, a) && IsIn(es, x, b) ensures IsIn(es, a, b) || IsIn(es, b, a) {
        ComparableAncestors(es, x, a, b);
      }
    }
    if OneParent(es) {
      forall x, p, q | HasEdge(es, x, p) && HasEdge(es, x, q) ensures IsIn(es, p, q) {
        assert Edge(x, p).child == Edge(x, q).child;
        IsInSelf(es, p);
      }
    }
  }

  /** The meeting of scopes is decided right for all pairs exactly on such graphs. */
  lemma {:induction false} InterExactIff(es: Edges)
    requires Acyclic(es)
    ensures (forall f, p :: Inter(f, p, es) <==> Meet(f, p, es)) <==> ParentsComparable(es)
  {
    ComparableIff(es);
    if Comparable(es) {
      forall f, p ensures Inter(f, p, es) <==> Meet(f, p, es) {
        if Inter(f, p, es) { InterMeets(f, p, es); }
        if Meet(f, p, es) { MeetExact(f, p, es); }
      }
    } else {
      var x, a, b :| IsIn(es, x, a) && IsIn(es, x, b) && !IsIn(es, a, b) && !IsIn(es, b, a);
      var f, p := Scope(KIn, a), Scope(KIn, b);
      assert Matches(f, x, es) && Matches(p, x, es);
      ReachesIsClosure(a, b, es);
      ReachesIsClosure(b, a, es);
      assert Meet(f, p, es) && !Inter(f, p, es);
    }
  }

  // ---- verdicts ----

  /** Some request that both policies apply to. */
  ghost predicate Conflict(fp: Scope, fr: Scope, pp: Scope, pr: Scope, es: Edges)
  {
    exists a, b :: Applies(fp, fr, a, b, es) && Applies(pp, pr, a, b, es)
  }

  /** `overlap` and `shadowed` come with a request that both policies apply to. */
  lemma {:induction false} VerdictHasWitness(fp: Scope, fr: Scope, pp: Scope, pr: Scope, es: Edges)
    requires Acyclic(es) && Classify(fp, fr, pp, pr, es) != Disjoint
    ensures Conflict(fp, fr, pp, pr, es)
  {
    if Classify(fp, fr, pp, pr, es) == Shadowed {
      ShadowedExact(fp, fr, pp, pr, es);
      SelfMatches(pp, es);
      SelfMatches(pr, es);
      assert Applies(pp, pr, pp.id, pr.id, es);
    } else {
      InterMeets(fp, pp, es);
      InterMeets(fr, pr, es);
      var a :| Matches(fp, a, es) && Matches(pp, a, es);
      var b :| Matches(fr, b, es) && Matches(pr, b, es);
      assert Applies(fp, fr, a, b, es) && Applies(pp, pr, a, b, es);
    }
  }

  /** `disjoint` is right for all policies exactly when the parents of each entity are comparable. */
  lemma {:induction false} DisjointExactIff(es: Edges)
    requires Acyclic(es)
    ensures (forall fp, fr, pp, pr ::
               Classify(fp, fr, pp, pr, es) == Disjoint <==> !Conflict(fp, fr, pp, pr, es))
            <==> ParentsComparable(es)
  {
    InterExactIff(es);
    if ParentsComparable(es) {
      forall fp, fr, pp, pr
        ensures Classify(fp, fr, pp, pr, es) == Disjoint <==> !Conflict(fp, fr, pp, pr, es)
      {
        if Conflict(fp, fr, pp, pr, es) {
          var a, b :| Applies(fp, fr, a, b, es) && Applies(pp, pr, a, b, es);
          assert Meet(fp, pp, es) && Meet(fr, pr, es);
        }
        if Classify(fp, fr, pp, pr, es) != Disjoint { VerdictHasWitness(fp, fr, pp, pr, es); }
      }
    } else {
      var f, p :| !(Inter(f, p, es) <==> Meet(f, p, es));
      if Inter(f, p, es) { InterMeets(f, p, es); }
      MeetExact(f, p, es);
      var x :| Matches(f, x, es) && Matches(p, x, es);
      var every := Scope(KAny, x);
      assert Applies(f, every, x, x, es) && Applies(p, every, x, x, es);
      assert !Covers(f, p, es) by { CoversMeets(f, p, es); }
      assert Classify(f, every, p, every, es) == Disjoint && Conflict(f, every, p, every, es);
    }
  }

  lemma {:induction false} CoversMeets(f: Scope, p: Scope, es: Edges)
    requires Acyclic(es) && f.kind == KIn && p.kind == KIn && !Inter(f, p, es)
    ensures !Covers(f, p, es)
  {
  }

  /** Two roles with a common member and no edge between them: called disjoint, and they are not. */
  lemma {:induction false} TwoParents(x: Entity, a: Entity, b: Entity)
    requires x != a && x != b && a != b
    ensures var es := [Edge(x, a), Edge(x, b)];
            && Acyclic(es)
            && Classify(Scope(KIn, a), Scope(KAny, x), Scope(KIn, b), Scope(KAny, x), es) == Disjoint
            && Conflict(Scope(KIn, a), Scope(KAny, x), Scope(KIn, b), Scope(KAny, x), es)
  {
    var es := [Edge(x, a), Edge(x, b)];
    assert forall d :: !HasEdge(es, a, d) && !HasEdge(es, b, d);
    assert forall y: Entity, j: nat :: (Steps(es, a, y, j) ==> j == 0) && (Steps(es, b, y, j) ==> j == 0);
    IsInSelf(es, a);
    IsInSelf(es, b);
    EdgeThen(es, x, a, a);
    EdgeThen(es, x, b, b);
    ReachesIsClosure(a, b, es);
    ReachesIsClosure(b, a, es);
    if IsIn(es, a, b) { IsInCases(es, a, b); }
    if IsIn(es, b, a) { IsInCases(es, b, a); }
    assert Applies(Scope(KIn, a), Scope(KAny, x), x, x, es) && Applies(Scope(KIn, b), Scope(KAny, x), x, x, es);
  }
}
