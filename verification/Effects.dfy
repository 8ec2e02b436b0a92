/** What the events of a trace do to globals and absvectors. */
module Effects {
  import opened Lists
  import opened Kl
  import opened Machine

  /** The part of the state that a program can write. */
  datatype Store = Store(globals: map<SymId, Value>, vecs: seq<seq<Value>>)

  function StoreOf(w: World): Store
  {
    Store(w.globals, w.vecs)
  }

  function Apply(e: Event, s: Store): Store
  {
    match e
    case SetGlobal(id, v) => s.(globals := s.globals[id := v])
    case SetCell(r, i, v) =>
      if r < |s.vecs| && i < |s.vecs[r]| then s.(vecs := s.vecs[r := s.vecs[r][i := v]]) else s
    case MadeVec(cells) => s.(vecs := s.vecs + [cells])
    case Called(_, _) => s
  }

  /** The events one after the other. */
  function Replay(s: Store, es: seq<Event>): Store
  {
    if es == [] then s else Apply(es[|es| - 1], Replay(s, es[..|es| - 1]))
  }

  /** The trace of `w` goes on from that of `start`, and what it adds accounts for all that changed. */
  predicate Accounts(start: World, w: World)
  {
    start.trace <= w.trace && StoreOf(w) == Replay(StoreOf(start), w.trace[|start.trace|..])
  }

  lemma {:induction false} AccountsAtOnce(w: World)
    ensures Accounts(w, w)
  {
    assert w.trace[|w.trace|..] == [];
  }

  lemma {:induction false} OneMore(start: World, w: World, e: Event, w': World)
    requires Accounts(start, w) && w'.trace == w.trace + [e] && StoreOf(w') == Apply(e, StoreOf(w))
    ensures Accounts(start, w')
  {
    var es, es' := w.trace[|start.trace|..], w'.trace[|start.trace|..];
    assert es' == es + [e] && es'[..|es'| - 1] == es;
  }

  /** A primitive changes nothing but by events. */
  lemma {:induction false} RunAccounts(op: Prim, a: seq<Value>, start: World, w: World)
    requires |a| == Arity(op) && !Deferring(op) && Accounts(start, w)
    ensures Accounts(start, Run(op, a, w).w)
  {
    hide Arith, ValueEq, Accounts, Replay, TruthOf;
    var r := Run(op, a, w);
    if r.w.trace == w.trace && StoreOf(r.w) == StoreOf(w) {
      SameAccounts(start, w, r.w);
    } else {
      OneMore(start, w, r.w.trace[|w.trace|], r.w);
    }
  }

  lemma {:induction false} SameAccounts(start: World, w: World, w': World)
    requires Accounts(start, w) && w'.trace == w.trace && StoreOf(w') == StoreOf(w)
    ensures Accounts(start, w')
  {
  }

  /** The mark is no event. */
  lemma {:induction false} MarkAccounts(start: World)
    ensures forall w :: Accounts(start, w) ==> Accounts(start, Drifted(w))
  {
    forall w | Accounts(start, w) ensures Accounts(start, Drifted(w)) { SameAccounts(start, w, Drifted(w)); }
  }

  lemma {:induction false} AttemptAccounts(op: Prim, a: seq<Value>, w: World)
    requires |a| == Arity(op) && Deferring(op)
    ensures Watch(op, a, w).trace == w.trace && StoreOf(Watch(op, a, w)) == StoreOf(w)
    ensures Attempt(op, a, w).Some? ==> Attempt(op, a, w).value.w == w
  {
  }

  lemma {:induction false} ShortAccounts(op: Prim, a: seq<Value>, w: World)
    requires Direct(op) && |a| < Arity(op)
    ensures ShortArgs(op, a, w).w == w
  {
  }

  lemma {:induction false} LogAccounts(start: World, w: World, f: SymId, args: seq<Value>)
    requires Accounts(start, w)
    ensures Accounts(start, Log(w, f, args))
  {
    OneMore(start, w, Called(f, args), Log(w, f, args));
  }

  lemma {:induction false} SetAccounts(start: World, w: World, id: SymId, v: Value)
    requires Accounts(start, w)
    ensures Accounts(start, SetIn(w, id, v))
  {
    OneMore(start, w, SetGlobal(id, v), SetIn(w, id, v));
  }
}
