/** The locals of a compiled function: its parameters at the bottom, overwritten when it loops. */
module Frames {
  import opened Lists
  import opened Kl
  import opened Machine
  import R = RustIr
  import opened KlEval
  import opened RustRun
  import opened Codegen
  import opened CodegenState
  import opened Related
  import opened Simulation

  /** The parameters hold `us`; the locals above them have other names. */
  predicate Over(env: REnv, params: seq<SymId>, us: seq<Value>)
  {
    |us| == |params| &&
    if Depth(env) <= |params| then env == RFrame(params, us)
    else (env.rx.V? ==> env.rx.id !in params) && Over(env.rrest, params, us)
  }

  /** The user names bound above the outermost `k` locals. */
  function Hiding(env: REnv, k: nat): set<SymId>
  {
    if Depth(env) <= k then {} else Hiding(env.rrest, k) + NameOf(env.rx)
  }

  function NameOf(x: R.RVar): set<SymId>
  {
    if x.V? then {x.id} else {}
  }

  lemma {:induction false} OverIff(env: REnv, params: seq<SymId>, us: seq<Value>)
    requires |us| == |params| <= Depth(env)
    ensures Over(env, params, us) <==>
            Outermost(env, |params|) == RFrame(params, us) && Unhidden(params, Hiding(env, |params|))
  {
    FrameDepth(params, us);
    if Depth(env) > |params| { OverIff(env.rrest, params, us); }
  }

  lemma {:induction false} FrameDepth(params: seq<SymId>, us: seq<Value>)
    requires |params| == |us|
    ensures Depth(RFrame(params, us)) == |params|
  {
    if params != [] { FrameDepth(params[..|params| - 1], us[..|us| - 1]); }
  }

  /** `continue` goes back to the parameters alone. */
  lemma {:induction false} OutermostOver(env: REnv, params: seq<SymId>, us: seq<Value>)
    requires Over(env, params, us)
    ensures Outermost(env, |params|) == RFrame(params, us)
  {
    if Depth(env) > |params| { OutermostOver(env.rrest, params, us); }
  }

  lemma {:induction false} MoreWritable(env: REnv, x: R.RVar, k: nat, m: nat)
    requires Writable(env, x, k) && k <= m
    ensures Writable(env, x, m)
  {
    if env.rx != x { MoreWritable(env.rrest, x, k, m); }
  }

  lemma {:induction false} AssignInFrame(params: seq<SymId>, us: seq<Value>, i: nat, v: Value)
    requires |params| == |us| && i < |params| && Distinct(params)
    ensures Assign(RFrame(params, us), R.V(params[i]), v) == RFrame(params, us[i := v])
    ensures Writable(RFrame(params, us), R.V(params[i]), |params|)
  {
    var k := |params| - 1;
    FrameDepth(params, us);
    if i == k {
      assert us[i := v][..k] == us[..k];
    } else {
      AssignInFrame(params[..k], us[..k], i, v);
      MoreWritable(RFrame(params[..k], us[..k]), R.V(params[i]), k, k + 1);
      assert us[i := v][..k] == us[..k][i := v];
    }
  }

  lemma {:induction false} AssignOver(env: REnv, params: seq<SymId>, us: seq<Value>, i: nat, v: Value)
    requires Over(env, params, us) && i < |params| && Distinct(params)
    ensures Over(Assign(env, R.V(params[i]), v), params, us[i := v])
    ensures Depth(Assign(env, R.V(params[i]), v)) == Depth(env)
    ensures Writable(env, R.V(params[i]), |params|)
  {
    if Depth(env) <= |params| {
      AssignInFrame(params, us, i, v);
      FrameDepth(params, us);
      FrameDepth(params, us[i := v]);
    } else {
      AssignOver(env.rrest, params, us, i, v);
    }
  }

  lemma {:induction false} AssignKeeps(env: REnv, x: R.RVar, v: Value, y: R.RVar)
    requires x != y
    ensures Get(Assign(env, x, v), y) == Get(env, y)
  {
    if env.RPush? { AssignKeeps(env.rrest, x, v, y); }
  }

  lemma {:induction false} AssignKeepsAll(env: REnv, x: R.RVar, v: Value, ys: seq<R.RVar>)
    requires x !in ys
    ensures GetAll(Assign(env, x, v), ys) == GetAll(env, ys)
  {
    if ys != [] {
      AssignKeeps(env, x, v, ys[0]);
      AssignKeepsAll(env, x, v, ys[1..]);
    }
  }

  /** A name bound by a `let` of the function cannot be assigned. */
  lemma {:induction false} HidingStops(env: REnv, x: SymId, k: nat)
    requires x in Hiding(env, k)
    ensures !Writable(env, R.V(x), k)
  {
    if env.rx != R.V(x) { HidingStops(env.rrest, x, k); }
  }

  lemma {:induction false} AssignShape(env: REnv, x: R.RVar, v: Value, y: R.RVar, k: nat)
    ensures Depth(Assign(env, x, v)) == Depth(env)
    ensures Writable(Assign(env, x, v), y, k) == Writable(env, y, k)
  {
    if env.RPush? { AssignShape(env.rrest, x, v, y, k); }
  }

  /** One local that may not be assigned stops them all. */
  lemma {:induction false} AssignStops(env: REnv, dst: seq<R.RVar>, src: seq<R.RVar>, k: nat, i: nat)
    requires |dst| == |src| && i < |dst| && !Writable(env, dst[i], k)
    ensures AssignAll(env, dst, src, k).None?
    decreases i
  {
    if i > 0 && GetVal(env, src[0]).Some? {
      var v := GetVal(env, src[0]).value;
      AssignShape(env, dst[0], v, dst[i], k);
      AssignStops(Assign(env, dst[0], v), dst[1..], src[1..], k, i - 1);
    }
  }

  predicate AllTemps(xs: seq<R.RVar>)
  {
    forall x :: x in xs ==> x.T?
  }

  /** One assignment after the other is simultaneous, as the sources are temporaries. */
  lemma {:induction false} AssignEach(
    env: REnv, params: seq<SymId>, i: nat, xs: seq<R.RVar>, old': seq<Value>, us: seq<Value>)
    requires Distinct(params) && AllTemps(xs) && i <= |params| && |xs| == |params| - i && |us| == |params|
    requires Over(env, params, old') && GetAll(env, xs) == Some(us[i..]) && old'[..i] == us[..i]
    ensures var r := AssignAll(env, R.Locals(params)[i..], xs, |params|);
            r.Some? && Over(r.value, params, us)
    decreases |params| - i
  {
    if i < |params| {
      var dst := R.Locals(params)[i..];
      var env' := Assign(env, R.V(params[i]), us[i]);
      AssignOver(env, params, old', i, us[i]);
      assert us[i..][1..] == us[i + 1..];
      assert GetAll(env, xs[1..]) == Some(us[i + 1..]);
      assert AllTemps(xs[1..]);
      assert !R.V(params[i]).T?;
      AssignKeepsAll(env, R.V(params[i]), us[i], xs[1..]);
      assert old'[i := us[i]][..i + 1] == us[..i + 1];
      assert dst[0] == R.V(params[i]) && dst[1..] == R.Locals(params)[i + 1..];
      AssignEach(env', params, i + 1, xs[1..], old'[i := us[i]], us);
    } else {
      assert old' == old'[..i] == us[..i] == us;
    }
  }

  lemma {:induction false} FrameGet(params: seq<SymId>, vs: seq<Value>, us: seq<Value>, x: SymId)
    requires |params| == |vs| && RelAll(vs, us)
    ensures x in params <==> Lookup(Frame(params, vs), x).Some?
    ensures x in params ==> GetVal(RFrame(params, us), R.V(x)).Some?
                            && Rel(Lookup(Frame(params, vs), x).value, GetVal(RFrame(params, us), R.V(x)).value)
  {
    hide Rel;
    if params != [] {
      var k := |params| - 1;
      FrameGet(params[..k], vs[..k], us[..k], x);
      assert params == params[..k] + [params[k]];
    }
  }

  /** A function starts with its parameters in place. */
  lemma {:induction false} FrameRel(f: SymId, d: Def, k: nat, vs: seq<Value>, us: seq<Value>)
    requires WfDef(f, d) && |vs| == |d.params| && RelAll(vs, us)
    ensures Dom(Frame(d.params, vs)) == ParamsOf(d)
    ensures Ready(d.body, AtEntry(f, d.params, k), Frame(d.params, vs), RFrame(d.params, us))
  {
    hide Rel, Wf, Loops;
    var st := AtEntry(f, d.params, k);
    forall x
      ensures x in d.params <==> Lookup(Frame(d.params, vs), x).Some?
      ensures x in d.params ==>
                CellRel(Lookup(Frame(d.params, vs), x).value, Get(RFrame(d.params, us), R.V(x)), false)
    {
      FrameGet(d.params, vs, us, x);
    }
    assert Dom(Frame(d.params, vs)) == ParamsOf(d);
    assert st.thaws.Keys == {};
  }

  /** The arguments can be read back from a frame. */
  lemma {:induction false} FrameArgs(params: seq<SymId>, us: seq<Value>)
    requires |params| == |us| && Distinct(params)
    ensures GetAll(RFrame(params, us), R.Locals(params)) == Some(us)
  {
    forall i | 0 <= i < |params| ensures GetVal(RFrame(params, us), R.V(params[i])) == Some(us[i]) {
      FrameAt(params, us, i);
    }
    ReadEach(RFrame(params, us), R.Locals(params), us);
  }

  lemma {:induction false} FrameAt(params: seq<SymId>, us: seq<Value>, i: nat)
    requires |params| == |us| && Distinct(params) && i < |params|
    ensures GetVal(RFrame(params, us), R.V(params[i])) == Some(us[i])
  {
    var k := |params| - 1;
    if i < k {
      FrameAt(params[..k], us[..k], i);
      assert params[i] != params[k];
    }
  }

  lemma {:induction false} ReadEach(env: REnv, xs: seq<R.RVar>, us: seq<Value>)
    requires |xs| == |us| && forall i :: 0 <= i < |xs| ==> GetVal(env, xs[i]) == Some(us[i])
    ensures GetAll(env, xs) == Some(us)
  {
    if xs != [] {
      ReadEach(env, xs[1..], us[1..]);
      assert us == [us[0]] + us[1..];
    }
  }

  predicate TempBinds(bs: List<R.Bind>)
  {
    bs.Cons? ==> bs.head.x.T? && TempBinds(bs.tail)
  }

  lemma {:induction false} ArgsAreTemps(es: List<Expr>, st: Cg)
    requires BindArgs(es, st).Emitted?
    ensures TempBinds(BindArgs(es, st).code.0) && AllTemps(BindArgs(es, st).code.1)
    ensures |BindArgs(es, st).code.1| == Length(es)
    decreases es
  {
    hide CompileE;
    if es.Cons? { ArgsAreTemps(es.tail, CompileE(es.head, st).st.Next()); }
  }

  /** Temporaries are bound above the parameters and hide none of them. */
  lemma {:induction false} BindsStay(n: nat, q: RProg, bs: List<R.Bind>, env: REnv, w: World, k: nat)
    requires TempBinds(bs) && k <= Depth(env)
    ensures var r := RunBinds(n, q, bs, env, w);
            r.Bound? ==> && k <= Depth(r.env) && Outermost(r.env, k) == Outermost(env, k)
                         && Hiding(r.env, k) == Hiding(env, k)
    decreases bs
  {
    hide RunE;
    if bs.Cons? {
      var r := RunE(n, q, bs.head.e, env, w);
      if r.out.Ok? { BindsStay(n, q, bs.tail, RPush(bs.head.x, Val(r.out.v), env), r.w, k); }
    }
  }
}
