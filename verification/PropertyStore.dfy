/** `put`, `get` and `unput`: property lists hashed into the slots of a vector (primitives.rs). */
module PropertyStore {
  import opened Lists
  import opened ShenValue

  datatype Error = NotAVector | BadBound | BadBucket | OutOfRange | NoAttributes | NotFound

  datatype Result<+T> = Ok(value: T) | Failed(err: Error)
  {
    predicate IsFailure() { Failed? }
    function PropagateFailure<U>(): Result<U> requires Failed? { Failed(err) }
    function Extract(): T requires Ok? { value }
  }

  /** The two functions of the host that the store depends on. */
  datatype Host = Host(rnd: Rounding, fin: Finish)

  // ---- one bucket: a list of ((key prop) . value) ----

  function Needle(key: Value, prop: Value): Value { Pair(key, Pair(prop, Nil)) }

  function Entry(key: Value, prop: Value, val: Value): Value { Pair(Needle(key, prop), val) }

  predicate Matches(o: Host, h: Value, key: Value, prop: Value)
  {
    h.Pair? && h.hd.Pair? && h.hd.tl.Pair? && h.hd.tl.tl.Nil?
    && ShenEq(o.rnd, h.hd.hd, key) && ShenEq(o.rnd, h.hd.tl.hd, prop)
  }

  function ChangePointer(o: Host, key: Value, prop: Value, val: Value, bucket: Value): Result<Value>
    decreases bucket
  {
    if bucket.Nil? then Ok(Pair(Entry(key, prop, val), Nil))
    else if !bucket.Pair? then Failed(BadBucket)
    else if Matches(o, bucket.hd, key, prop) then Ok(Pair(Pair(bucket.hd.hd, val), bucket.tl))
    else
      var rest :- ChangePointer(o, key, prop, val, bucket.tl);
      Ok(Pair(bucket.hd, rest))
  }

  function RemovePointer(o: Host, key: Value, prop: Value, bucket: Value): Result<Value>
    decreases bucket
  {
    if bucket.Nil? then Ok(Nil)
    else if !bucket.Pair? then Failed(BadBucket)
    else if Matches(o, bucket.hd, key, prop) then Ok(bucket.tl)
    else
      var rest :- RemovePointer(o, key, prop, bucket.tl);
      Ok(Pair(bucket.hd, rest))
  }

  /** The first entry whose head equals `key`. */
  function Assoc(o: Host, key: Value, list: Value): Result<Option<Value>>
    decreases list
  {
    if list.Nil? then Ok(None)
    else if !list.Pair? then Failed(BadBucket)
    else if list.hd.Pair? && ShenEq(o.rnd, list.hd.hd, key) then Ok(Some(list.hd))
    else Assoc(o, key, list.tl)
  }

  method AssocEntry(o: Host, key: Value, list: Value) returns (r: Result<Option<Value>>)
    ensures r == Assoc(o, key, list)
  {
    var cur := list;
    while true
      invariant Assoc(o, key, list) == Assoc(o, key, cur)
      decreases cur
    {
      if cur.Nil? { return Ok(None); }
      if !cur.Pair? { return Failed(BadBucket); }
      if cur.hd.Pair? && ShenEq(o.rnd, cur.hd.hd, key) { return Ok(Some(cur.hd)); }
      cur := cur.tl;
    }
  }

  predicate IsBucket(b: Value)
  {
    b.Nil? || (b.Pair? && b.hd.Pair? && b.hd.hd.Pair? && b.hd.hd.tl.Pair? && b.hd.hd.tl.tl.Nil? && IsBucket(b.tl))
  }

  /** The value a bucket holds for a key, up to equality. */
  function Find(o: Host, b: Value, key: Value, prop: Value): Option<Value>
    requires IsBucket(b)
    decreases b
  {
    if b.Nil? then None
    else if Matches(o, b.hd, key, prop) then Some(b.hd.tl)
    else Find(o, b.tl, key, prop)
  }

  /** No key has two entries. */
  predicate Unique(o: Host, b: Value)
    requires IsBucket(b)
    decreases b
  {
    b.Pair? ==> Find(o, b.tl, b.hd.hd.hd, b.hd.hd.tl.hd).None? && Unique(o, b.tl)
  }

  /** Every key belongs to slot `i` of a vector with this bound. */
  predicate AllIn(o: Host, b: Value, bound: int, i: int)
    requires IsBucket(b)
    decreases b
  {
    b.Pair? ==> HashBound(o.rnd, o.fin, b.hd.hd.hd, bound) == Some(i) && AllIn(o, b.tl, bound, i)
  }

  predicate SameKey(o: Host, k: Value, p: Value, key: Value, prop: Value)
  {
    ShenEq(o.rnd, k, key) && ShenEq(o.rnd, p, prop)
  }

  lemma {:induction false} MatchesSame(o: Host, h: Value, k: Value, p: Value, key: Value, prop: Value)
    requires SameKey(o, k, p, key, prop)
    ensures Matches(o, h, k, p) <==> Matches(o, h, key, prop)
  {
    EqSym(o.rnd, k, key);
    EqSym(o.rnd, p, prop);
    if Matches(o, h, k, p) {
      EqTrans(o.rnd, h.hd.hd, k, key);
      EqTrans(o.rnd, h.hd.tl.hd, p, prop);
    }
    if Matches(o, h, key, prop) {
      EqTrans(o.rnd, h.hd.hd, key, k);
      EqTrans(o.rnd, h.hd.tl.hd, prop, p);
    }
  }

  /** Two keys that match the same entry are the same key. */
  lemma {:induction false} MatchesBoth(o: Host, h: Value, k: Value, p: Value, key: Value, prop: Value)
    requires Matches(o, h, k, p) && Matches(o, h, key, prop)
    ensures SameKey(o, k, p, key, prop)
  {
    EqSym(o.rnd, h.hd.hd, k);
    EqSym(o.rnd, h.hd.tl.hd, p);
    EqTrans(o.rnd, k, h.hd.hd, key);
    EqTrans(o.rnd, p, h.hd.tl.hd, prop);
  }

  lemma {:induction false} FindSame(o: Host, b: Value, k: Value, p: Value, key: Value, prop: Value)
    requires IsBucket(b) && SameKey(o, k, p, key, prop)
    ensures Find(o, b, k, p) == Find(o, b, key, prop)
    decreases b
  {
    if b.Pair? {
      MatchesSame(o, b.hd, k, p, key, prop);
      FindSame(o, b.tl, k, p, key, prop);
    }
  }

  /** Looking for the list `(key prop)` is looking for a key and a property. */
  lemma {:induction false} AssocIsFind(o: Host, b: Value, key: Value, prop: Value)
    requires IsBucket(b)
    ensures match Find(o, b, key, prop)
            case Some(v) =>
              var r := Assoc(o, Needle(key, prop), b);
              r.Ok? && r.value.Some? && r.value.value.Pair? && r.value.value.tl == v
            case None => Assoc(o, Needle(key, prop), b) == Ok(None)
    decreases b
  {
    if b.Pair? {
      NeedleEq(o, b.hd, key, prop);
      AssocIsFind(o, b.tl, key, prop);
    }
  }

  lemma {:induction false} NeedleEq(o: Host, h: Value, key: Value, prop: Value)
    requires h.Pair?
    ensures ShenEq(o.rnd, h.hd, Needle(key, prop)) <==> Matches(o, h, key, prop)
  {
    if ShenEq(o.rnd, h.hd, Needle(key, prop)) {
      EqParts(o.rnd, h.hd, Needle(key, prop));
      EqParts(o.rnd, h.hd.tl, Pair(prop, Nil));
      EqParts(o.rnd, h.hd.tl.tl, Nil);
    }
    if Matches(o, h, key, prop) {
      EqRefl(o.rnd, Nil);
      PartsEq(o.rnd, h.hd.tl, Pair(prop, Nil));
      PartsEq(o.rnd, h.hd, Needle(key, prop));
    }
  }

  predicate IsEntry(h: Value)
  {
    h.Pair? && h.hd.Pair? && h.hd.tl.Pair? && h.hd.tl.tl.Nil?
  }

  lemma {:induction false} StepBucket(b: Value)
    requires b.Pair?
    ensures IsBucket(b) <==> IsEntry(b.hd) && IsBucket(b.tl)
  {
  }

  lemma {:induction false} StepFind(o: Host, b: Value, key: Value, prop: Value)
    requires b.Pair? && IsBucket(b) && IsBucket(b.tl)
    ensures Find(o, b, key, prop) ==
            (if Matches(o, b.hd, key, prop) then Some(b.hd.tl) else Find(o, b.tl, key, prop))
  {
    hide ShenEq, Matches, IsBucket;
  }

  lemma {:induction false} StepChange(o: Host, b: Value, key: Value, prop: Value, val: Value)
    requires b.Pair?
    ensures ChangePointer(o, key, prop, val, b) ==
            if Matches(o, b.hd, key, prop) then Ok(Pair(Pair(b.hd.hd, val), b.tl))
            else
              var r := ChangePointer(o, key, prop, val, b.tl);
              if r.Ok? then Ok(Pair(b.hd, r.value)) else r
  {
    hide ShenEq;
  }

  lemma {:induction false} StepRemove(o: Host, b: Value, key: Value, prop: Value)
    requires b.Pair?
    ensures RemovePointer(o, key, prop, b) ==
            if Matches(o, b.hd, key, prop) then Ok(b.tl)
            else
              var r := RemovePointer(o, key, prop, b.tl);
              if r.Ok? then Ok(Pair(b.hd, r.value)) else r
  {
    hide ShenEq;
  }

  /** What a change leaves: the new value for the key, and everything else as it was. */
  lemma {:induction false} ChangeFinds(
    o: Host, b: Value, key: Value, prop: Value, val: Value, k: Value, p: Value)
    requires IsBucket(b)
    ensures var r := ChangePointer(o, key, prop, val, b);
            r.Ok? && IsBucket(r.value) &&
            Find(o, r.value, k, p) == if SameKey(o, k, p, key, prop) then Some(val) else Find(o, b, k, p)
    decreases b
  {
    if b.Nil? {
      hide ShenEq;
      EqFlip(o, key, prop, k, p);
    } else {
      hide ShenEq, Matches, SameKey, IsBucket, Find, ChangePointer;
      StepBucket(b);
      StepFind(o, b, k, p);
      StepChange(o, b, key, prop, val);
      HeadDecides(o, b.hd, k, p, key, prop);
      if Matches(o, b.hd, key, prop) {
        SameHead(o, b.hd, val, k, p);
      } else {
        ChangeFinds(o, b.tl, key, prop, val, k, p);
      }
      var after := ChangePointer(o, key, prop, val, b).value;
      StepBucket(after);
      StepFind(o, after, k, p);
    }
  }

  /** How an entry answers for two keys. */
  lemma {:induction false} HeadDecides(o: Host, h: Value, k: Value, p: Value, key: Value, prop: Value)
    ensures SameKey(o, k, p, key, prop) ==> (Matches(o, h, k, p) <==> Matches(o, h, key, prop))
    ensures Matches(o, h, k, p) && Matches(o, h, key, prop) ==> SameKey(o, k, p, key, prop)
  {
    hide ShenEq;
    if SameKey(o, k, p, key, prop) { MatchesSame(o, h, k, p, key, prop); }
    if Matches(o, h, k, p) && Matches(o, h, key, prop) { MatchesBoth(o, h, k, p, key, prop); }
  }

  /** The value of an entry does not matter for that. */
  lemma {:induction false} SameHead(o: Host, h: Value, val: Value, k: Value, p: Value)
    requires h.Pair?
    ensures Matches(o, Pair(h.hd, val), k, p) <==> Matches(o, h, k, p)
  {
  }

  lemma {:induction false} EqFlip(o: Host, key: Value, prop: Value, k: Value, p: Value)
    ensures SameKey(o, k, p, key, prop) <==> SameKey(o, key, prop, k, p)
  {
    if SameKey(o, k, p, key, prop) { EqSym(o.rnd, k, key); EqSym(o.rnd, p, prop); }
    if SameKey(o, key, prop, k, p) { EqSym(o.rnd, key, k); EqSym(o.rnd, prop, p); }
  }

  lemma {:induction false} ChangeKeeps(o: Host, b: Value, key: Value, prop: Value, val: Value, bound: int, i: int)
    requires IsBucket(b) && Unique(o, b) && AllIn(o, b, bound, i) && HashBound(o.rnd, o.fin, key, bound) == Some(i)
    ensures var r := ChangePointer(o, key, prop, val, b);
            r.Ok? && IsBucket(r.value) && Unique(o, r.value) && AllIn(o, r.value, bound, i)
    decreases b
  {
    hide ShenEq, Matches, SameKey, Find, ChangePointer, HashBound;
    if b.Nil? {
      ChangeNil(o, key, prop, val);
    } else {
      StepChange(o, b, key, prop, val);
      if !Matches(o, b.hd, key, prop) {
        var k, p := b.hd.hd.hd, b.hd.hd.tl.hd;
        ChangeKeeps(o, b.tl, key, prop, val, bound, i);
        ChangeFinds(o, b.tl, key, prop, val, k, p);
        HeadMatches(o, b.hd);
        HeadDecides(o, b.hd, k, p, key, prop);
      }
    }
  }

  lemma {:induction false} ChangeNil(o: Host, key: Value, prop: Value, val: Value)
    ensures ChangePointer(o, key, prop, val, Nil) == Ok(Pair(Entry(key, prop, val), Nil))
    ensures Find(o, Nil, key, prop) == None
  {
  }

  lemma {:induction false} HeadMatches(o: Host, h: Value)
    requires h.Pair? && h.hd.Pair? && h.hd.tl.Pair? && h.hd.tl.tl.Nil?
    ensures Matches(o, h, h.hd.hd, h.hd.tl.hd)
  {
    EqRefl(o.rnd, h.hd.hd);
    EqRefl(o.rnd, h.hd.tl.hd);
  }

  /** What a removal leaves. It stops at the first match, so this needs one entry per key. */
  lemma {:induction false} RemoveFinds(
    o: Host, b: Value, key: Value, prop: Value, k: Value, p: Value)
    requires IsBucket(b) && Unique(o, b)
    ensures var r := RemovePointer(o, key, prop, b);
            r.Ok? && IsBucket(r.value) &&
            Find(o, r.value, k, p) == if SameKey(o, k, p, key, prop) then None else Find(o, b, k, p)
    decreases b
  {
    if b.Pair? {
      var k', p' := b.hd.hd.hd, b.hd.hd.tl.hd;
      UniqueStep(o, b);
      StepBucket(b);
      StepFind(o, b, k, p);
      StepRemove(o, b, key, prop);
      HeadDecides(o, b.hd, k, p, key, prop);
      if Matches(o, b.hd, key, prop) {
        if SameKey(o, k, p, key, prop) {
          HeadMatches(o, b.hd);
          HeadDecides(o, b.hd, k', p', k, p);
          FindSame(o, b.tl, k', p', k, p);
        }
      } else {
        hide ShenEq, Matches, SameKey, IsBucket, Find, RemovePointer, Unique;
        RemoveFinds(o, b.tl, key, prop, k, p);
        var after := RemovePointer(o, key, prop, b).value;
        StepBucket(after);
        StepFind(o, after, k, p);
      }
      hide ShenEq, Matches, SameKey, IsBucket, Find, RemovePointer, Unique;
    }
  }

  lemma {:induction false} UniqueStep(o: Host, b: Value)
    requires b.Pair? && IsBucket(b) && Unique(o, b)
    ensures IsBucket(b.tl) && Unique(o, b.tl) && Find(o, b.tl, b.hd.hd.hd, b.hd.hd.tl.hd) == None
  {
  }

  lemma {:induction false} RemoveKeeps(o: Host, b: Value, key: Value, prop: Value, bound: int, i: int)
    requires IsBucket(b) && Unique(o, b) && AllIn(o, b, bound, i)
    ensures var r := RemovePointer(o, key, prop, b);
            r.Ok? && IsBucket(r.value) && Unique(o, r.value) && AllIn(o, r.value, bound, i)
    decreases b
  {
    hide ShenEq;
    if b.Pair? && !Matches(o, b.hd, key, prop) {
      StepRemove(o, b, key, prop);
      RemoveKeeps(o, b.tl, key, prop, bound, i);
      RemoveFinds(o, b.tl, key, prop, b.hd.hd.hd, b.hd.hd.tl.hd);
    }
  }

  // ---- the vector ----

  /** The slot of a key and the bucket in it, if the slot exists and was ever used. */
  function VectorBucket(o: Host, cells: seq<Value>, key: Value): (r: Result<(nat, Option<Value>)>)
  {
    if cells == [] || !cells[0].Int? then Failed(NotAVector)
    else
      match HashBound(o.rnd, o.fin, key, cells[0].n)
      case None => Failed(BadBound)
      case Some(h) =>
        Ok((h, if h < |cells| && cells[h] != Sym(K_SHEN_FAIL) then Some(cells[h]) else None))
  }

  function OrNil(b: Option<Value>): Value
  {
    match b case Some(v) => v case None => Nil
  }

  function Put(o: Host, key: Value, prop: Value, val: Value, cells: seq<Value>): Result<seq<Value>>
  {
    var (h, bucket) :- VectorBucket(o, cells, key);
    var b :- ChangePointer(o, key, prop, val, OrNil(bucket));
    if h >= |cells| then Failed(OutOfRange) else Ok(cells[h := b])
  }

  function Unput(o: Host, key: Value, prop: Value, cells: seq<Value>): Result<seq<Value>>
  {
    var (h, bucket) :- VectorBucket(o, cells, key);
    var b :- RemovePointer(o, key, prop, OrNil(bucket));
    if h >= |cells| then Failed(OutOfRange) else Ok(cells[h := b])
  }

  function Get(o: Host, key: Value, prop: Value, cells: seq<Value>): Result<Value>
  {
    var (_, bucket) :- VectorBucket(o, cells, key);
    if bucket.None? then Failed(NoAttributes) else
    var entry :- Assoc(o, Needle(key, prop), bucket.value);
    if entry.None? then Failed(NotFound)
    else if entry.value.Pair? then Ok(entry.value.tl) else Failed(BadBucket)
  }

  /** A vector written in place by `put` and `unput`. */
  class Dict {
    const cells: array<Value>

    constructor (n: nat)
      ensures fresh(cells) && cells[..] == Fresh(n)
    {
      cells := new Value[n + 1](i => if i == 0 then Int(n) else Sym(K_SHEN_FAIL));
    }

    method Bucket(o: Host, key: Value) returns (r: Result<(nat, Option<Value>)>)
      ensures r == VectorBucket(o, cells[..], key)
    {
      if cells.Length == 0 || !cells[0].Int? { return Failed(NotAVector); }
      var bound := cells[0].n;
      if bound < 1 { return Failed(BadBound); }
      var hasher := new Hasher();
      hasher.ValueHash(o.rnd, key);
      assert hasher.fed == Tokens(o.rnd, key);
      var h := o.fin(hasher.fed) % bound;
      if h == 0 { h := 1; }
      if h >= cells.Length || cells[h] == Sym(K_SHEN_FAIL) { return Ok((h, None)); }
      return Ok((h, Some(cells[h])));
    }

    method HotPut(o: Host, key: Value, prop: Value, val: Value) returns (r: Result<Value>)
      modifies cells
      ensures match Put(o, key, prop, val, old(cells[..]))
              case Ok(after) => r == Ok(val) && cells[..] == after
              case Failed(e) => r == Failed(e) && cells[..] == old(cells[..])
    {
      var at := Bucket(o, key);
      if at.Failed? { return Failed(at.err); }
      var (h, bucket) := at.value;
      var b := ChangePointer(o, key, prop, val, OrNil(bucket));
      if b.Failed? { return Failed(b.err); }
      if h >= cells.Length { return Failed(OutOfRange); }
      cells[h] := b.value;
      r := Ok(val);
    }

    method HotUnput(o: Host, key: Value, prop: Value) returns (r: Result<Value>)
      modifies cells
      ensures match Unput(o, key, prop, old(cells[..]))
              case Ok(after) => r == Ok(key) && cells[..] == after
              case Failed(e) => r == Failed(e) && cells[..] == old(cells[..])
    {
      var at := Bucket(o, key);
      if at.Failed? { return Failed(at.err); }
      var (h, bucket) := at.value;
      var b := RemovePointer(o, key, prop, OrNil(bucket));
      if b.Failed? { return Failed(b.err); }
      if h >= cells.Length { return Failed(OutOfRange); }
      cells[h] := b.value;
      r := Ok(key);
    }

    method HotGet(o: Host, key: Value, prop: Value) returns (r: Result<Value>)
      ensures r == Get(o, key, prop, cells[..])
    {
      var at := Bucket(o, key);
      if at.Failed? { return Failed(at.err); }
      var (_, bucket) := at.value;
      if bucket.None? { return Failed(NoAttributes); }
      var entry := AssocEntry(o, Needle(key, prop), bucket.value);
      if entry.Failed? { return Failed(entry.err); }
      if entry.value.None? { return Failed(NotFound); }
      if !entry.value.value.Pair? { return Failed(BadBucket); }
      r := Ok(entry.value.value.tl);
    }
  }

  /** `(vector n)` */
  function Fresh(n: nat): seq<Value>
  {
    seq(n + 1, i => if i == 0 then Int(n) else Sym(K_SHEN_FAIL))
  }

  // ---- a map, whatever the hash ----

  function LastBucket(bound: int): nat { if bound > 2 then bound - 1 else 1 }

  predicate GoodSlot(o: Host, cell: Value, bound: int, i: int)
  {
    cell == Sym(K_SHEN_FAIL) || (IsBucket(cell) && Unique(o, cell) && AllIn(o, cell, bound, i))
  }

  /** The vector of a property store: its bound first, then buckets of the keys that belong there. */
  predicate Good(o: Host, cells: seq<Value>)
  {
    && cells != [] && cells[0].Int? && cells[0].n >= 1 && LastBucket(cells[0].n) < |cells|
    && forall i :: 1 <= i <= LastBucket(cells[0].n) ==> GoodSlot(o, cells[i], cells[0].n, i)
  }

  function BucketIn(cell: Value): Value { if cell == Sym(K_SHEN_FAIL) then Nil else cell }

  /** The map that a store stands for. */
  function Lookup(o: Host, cells: seq<Value>, key: Value, prop: Value): Option<Value>
    requires Good(o, cells)
  {
    SlotIsGood(o, cells, key);
    Find(o, BucketIn(cells[HashBound(o.rnd, o.fin, key, cells[0].n).value]), key, prop)
  }

  lemma {:induction false} SlotIsGood(o: Host, cells: seq<Value>, key: Value)
    requires Good(o, cells)
    ensures var h := HashBound(o.rnd, o.fin, key, cells[0].n);
            h.Some? && 1 <= h.value <= LastBucket(cells[0].n) && GoodSlot(o, cells[h.value], cells[0].n, h.value)
  {
    EqRefl(o.rnd, key);
    EqualKeysShareBucket(o.rnd, o.fin, key, key, cells[0].n);
  }

  lemma {:induction false} FreshIsGood(o: Host, n: nat)
    requires n >= 1
    ensures Good(o, Fresh(n)) && forall k, p :: Lookup(o, Fresh(n), k, p) == None
  {
    forall k, p ensures Lookup(o, Fresh(n), k, p) == None { SlotIsGood(o, Fresh(n), k); }
  }

  /** Writing one slot with a bucket that answers differently for one key only. */
  lemma {:induction false} WriteSlot(
    o: Host, cells: seq<Value>, b: Value, key: Value, prop: Value, v: Option<Value>)
    requires Good(o, cells)
    requires var h := HashBound(o.rnd, o.fin, key, cells[0].n).value;
             && IsBucket(b) && Unique(o, b) && AllIn(o, b, cells[0].n, h)
             && IsBucket(BucketIn(cells[h]))
             && forall k, p :: Find(o, b, k, p) ==
                  if SameKey(o, k, p, key, prop) then v else Find(o, BucketIn(cells[h]), k, p)
    ensures var h := HashBound(o.rnd, o.fin, key, cells[0].n).value;
            && 1 <= h < |cells| && Good(o, cells[h := b])
            && forall k, p :: Lookup(o, cells[h := b], k, p) ==
                 if SameKey(o, k, p, key, prop) then v else Lookup(o, cells, k, p)
  {
    SlotIsGood(o, cells, key);
    var h := HashBound(o.rnd, o.fin, key, cells[0].n).value;
    var after := cells[h := b];
    assert b != Sym(K_SHEN_FAIL);
    forall k, p ensures Lookup(o, after, k, p) == if SameKey(o, k, p, key, prop) then v else Lookup(o, cells, k, p) {
      SlotIsGood(o, cells, k);
      SlotIsGood(o, after, k);
      if SameKey(o, k, p, key, prop) { EqualKeysShareBucket(o.rnd, o.fin, k, key, cells[0].n); }
    }
  }

  /** The slot and the bucket of a key. */
  lemma {:induction false} BucketAt(o: Host, key: Value, cells: seq<Value>)
    requires Good(o, cells)
    ensures var h := HashBound(o.rnd, o.fin, key, cells[0].n).value;
            var at := VectorBucket(o, cells, key);
            h < |cells| && at.Ok? && at.value.0 == h && OrNil(at.value.1) == BucketIn(cells[h])
  {
    SlotIsGood(o, cells, key);
    hide HashBound, GoodSlot;
  }

  lemma {:induction false} PutIs(
    o: Host, key: Value, prop: Value, val: Value, cells: seq<Value>, h: nat, b: Value, b': Value)
    requires VectorBucket(o, cells, key).Ok? && VectorBucket(o, cells, key).value.0 == h < |cells|
    requires OrNil(VectorBucket(o, cells, key).value.1) == b && ChangePointer(o, key, prop, val, b) == Ok(b')
    ensures Put(o, key, prop, val, cells) == Ok(cells[h := b'])
  {
    hide VectorBucket, ChangePointer, OrNil;
  }

  lemma {:induction false} UnputIs(
    o: Host, key: Value, prop: Value, cells: seq<Value>, h: nat, b: Value, b': Value)
    requires VectorBucket(o, cells, key).Ok? && VectorBucket(o, cells, key).value.0 == h < |cells|
    requires OrNil(VectorBucket(o, cells, key).value.1) == b && RemovePointer(o, key, prop, b) == Ok(b')
    ensures Unput(o, key, prop, cells) == Ok(cells[h := b'])
  {
    hide VectorBucket, RemovePointer, OrNil;
  }

  lemma {:induction false} ChangeUpdates(o: Host, b: Value, key: Value, prop: Value, val: Value, bound: int, i: int)
    requires IsBucket(b) && Unique(o, b) && AllIn(o, b, bound, i) && HashBound(o.rnd, o.fin, key, bound) == Some(i)
    ensures var r := ChangePointer(o, key, prop, val, b);
            && r.Ok? && IsBucket(r.value) && Unique(o, r.value) && AllIn(o, r.value, bound, i)
            && forall k, p :: Find(o, r.value, k, p) ==
                 if SameKey(o, k, p, key, prop) then Some(val) else Find(o, b, k, p)
  {
    hide ShenEq, Matches, SameKey, Find, Unique, AllIn, ChangePointer, HashBound, IsBucket;
    ChangeKeeps(o, b, key, prop, val, bound, i);
    forall k, p
      ensures Find(o, ChangePointer(o, key, prop, val, b).value, k, p) ==
              if SameKey(o, k, p, key, prop) then Some(val) else Find(o, b, k, p)
    {
      ChangeFinds(o, b, key, prop, val, k, p);
    }
  }

  lemma {:induction false} RemoveUpdates(o: Host, b: Value, key: Value, prop: Value, bound: int, i: int)
    requires IsBucket(b) && Unique(o, b) && AllIn(o, b, bound, i)
    ensures var r := RemovePointer(o, key, prop, b);
            && r.Ok? && IsBucket(r.value) && Unique(o, r.value) && AllIn(o, r.value, bound, i)
            && forall k, p :: Find(o, r.value, k, p) ==
                 if SameKey(o, k, p, key, prop) then None else Find(o, b, k, p)
  {
    hide ShenEq, Matches, SameKey, Find, Unique, AllIn, RemovePointer, HashBound, IsBucket;
    RemoveKeeps(o, b, key, prop, bound, i);
    forall k, p
      ensures Find(o, RemovePointer(o, key, prop, b).value, k, p) ==
              if SameKey(o, k, p, key, prop) then None else Find(o, b, k, p)
    {
      RemoveFinds(o, b, key, prop, k, p);
    }
  }

  lemma {:induction false} BucketInGood(o: Host, cell: Value, bound: int, i: int)
    requires GoodSlot(o, cell, bound, i)
    ensures var b := BucketIn(cell); IsBucket(b) && Unique(o, b) && AllIn(o, b, bound, i)
  {
  }

  /** `put` gives its key the value, no other key another, and writes one slot, never slot 0. */
  lemma {:induction false} PutUpdates(o: Host, key: Value, prop: Value, val: Value, cells: seq<Value>)
    requires Good(o, cells)
    ensures var r := Put(o, key, prop, val, cells);
            && r.Ok? && Good(o, r.value) && |r.value| == |cells| && r.value[0] == cells[0]
            && forall k, p :: Lookup(o, r.value, k, p) ==
                 if SameKey(o, k, p, key, prop) then Some(val) else Lookup(o, cells, k, p)
  {
    SlotIsGood(o, cells, key);
    BucketAt(o, key, cells);
    var h := HashBound(o.rnd, o.fin, key, cells[0].n).value;
    var b := BucketIn(cells[h]);
    hide ShenEq, SameKey, Find, Unique, AllIn, ChangePointer, HashBound, Put, VectorBucket, Lookup, GoodSlot;
    BucketInGood(o, cells[h], cells[0].n, h);
    ChangeUpdates(o, b, key, prop, val, cells[0].n, h);
    var b' := ChangePointer(o, key, prop, val, b).value;
    PutIs(o, key, prop, val, cells, h, b, b');
    WriteSlot(o, cells, b', key, prop, Some(val));
  }

  /** `unput` makes its key fail and touches no other. */
  lemma {:induction false} UnputRemoves(o: Host, key: Value, prop: Value, cells: seq<Value>)
    requires Good(o, cells)
    ensures var r := Unput(o, key, prop, cells);
            && r.Ok? && Good(o, r.value) && |r.value| == |cells| && r.value[0] == cells[0]
            && forall k, p :: Lookup(o, r.value, k, p) ==
                 if SameKey(o, k, p, key, prop) then None else Lookup(o, cells, k, p)
  {
    SlotIsGood(o, cells, key);
    BucketAt(o, key, cells);
    var h := HashBound(o.rnd, o.fin, key, cells[0].n).value;
    var b := BucketIn(cells[h]);
    hide ShenEq, SameKey, Find, Unique, AllIn, RemovePointer, HashBound, Unput, VectorBucket, Lookup, GoodSlot;
    BucketInGood(o, cells[h], cells[0].n, h);
    RemoveUpdates(o, b, key, prop, cells[0].n, h);
    var b' := RemovePointer(o, key, prop, b).value;
    UnputIs(o, key, prop, cells, h, b, b');
    WriteSlot(o, cells, b', key, prop, None);
  }

  /** `get` answers what the map holds, and fails exactly where it holds nothing. */
  lemma {:induction false} GetReads(o: Host, key: Value, prop: Value, cells: seq<Value>)
    requires Good(o, cells)
    ensures match Lookup(o, cells, key, prop)
            case Some(v) => Get(o, key, prop, cells) == Ok(v)
            case None => Get(o, key, prop, cells) in {Failed(NoAttributes), Failed(NotFound)}
  {
    SlotIsGood(o, cells, key);
    var h := HashBound(o.rnd, o.fin, key, cells[0].n).value;
    BucketInGood(o, cells[h], cells[0].n, h);
    hide ShenEq, Unique, AllIn, HashBound, GoodSlot, IsBucket, Find, Assoc;
    AssocIsFind(o, BucketIn(cells[h]), key, prop);
    AssocNil(o, key, prop);
  }

  lemma {:induction false} AssocNil(o: Host, key: Value, prop: Value)
    ensures IsBucket(Nil) && Find(o, Nil, key, prop) == None
  {
  }

  /** It tells a bucket that was never used from one that holds other keys. */
  lemma {:induction false} GetFails(o: Host, key: Value, prop: Value, cells: seq<Value>)
    requires Good(o, cells) && Lookup(o, cells, key, prop).None?
    ensures var h := HashBound(o.rnd, o.fin, key, cells[0].n);
            h.Some? && h.value < |cells| &&
            Get(o, key, prop, cells) == Failed(if cells[h.value] == Sym(K_SHEN_FAIL) then NoAttributes else NotFound)
  {
    GetReads(o, key, prop, cells);
    SlotIsGood(o, cells, key);
    var h := HashBound(o.rnd, o.fin, key, cells[0].n).value;
    BucketInGood(o, cells[h], cells[0].n, h);
    hide ShenEq, Unique, AllIn, HashBound, GoodSlot, IsBucket, Find, Assoc;
    AssocIsFind(o, BucketIn(cells[h]), key, prop);
  }

  datatype Op = PutOp(key: Value, prop: Value, val: Value) | UnputOp(key: Value, prop: Value)

  /** What a key holds after a history: its last `put`, unless an `unput` came later. */
  function Meaning(o: Host, ops: seq<Op>, key: Value, prop: Value): Option<Value>
  {
    if ops == [] then None
    else
      var last := ops[|ops| - 1];
      if SameKey(o, key, prop, last.key, last.prop) then (if last.PutOp? then Some(last.val) else None)
      else Meaning(o, ops[..|ops| - 1], key, prop)
  }

  function Run(o: Host, ops: seq<Op>, cells: seq<Value>): Result<seq<Value>>
  {
    if ops == [] then Ok(cells)
    else
      var before :- Run(o, ops[..|ops| - 1], cells);
      match ops[|ops| - 1]
      case PutOp(k, p, v) => Put(o, k, p, v, before)
      case UnputOp(k, p) => Unput(o, k, p, before)
  }

  /** Over every history of a vector of limit 1 or more, no operation fails and the store is that map. */
  lemma {:induction false} StoreIsMap(o: Host, ops: seq<Op>, n: nat)
    requires n >= 1
    ensures var r := Run(o, ops, Fresh(n));
            && r.Ok? && Good(o, r.value) && |r.value| == n + 1 && r.value[0] == Int(n)
            && forall k, p :: Lookup(o, r.value, k, p) == Meaning(o, ops, k, p)
    decreases |ops|
  {
    if ops == [] {
      FreshIsGood(o, n);
    } else {
      var k := |ops| - 1;
      StoreIsMap(o, ops[..k], n);
      var before := Run(o, ops[..k], Fresh(n)).value;
      match ops[k]
      case PutOp(key, p, v) => PutUpdates(o, key, p, v, before);
      case UnputOp(key, p) => UnputRemoves(o, key, p, before);
    }
  }

  /** The two answers of `get` over every history. */
  lemma {:induction false} GetAfter(o: Host, ops: seq<Op>, n: nat, key: Value, prop: Value)
    requires n >= 1
    ensures var r := Run(o, ops, Fresh(n));
            r.Ok? &&
            match Meaning(o, ops, key, prop)
            case Some(v) => Get(o, key, prop, r.value) == Ok(v)
            case None => Get(o, key, prop, r.value).Failed?
  {
    StoreIsMap(o, ops, n);
    GetReads(o, key, prop, Run(o, ops, Fresh(n)).value);
  }

  /** Keys that do not stand for the same never disturb one another. */
  lemma {:induction false} KeysApart(
    o: Host, ops: seq<Op>, n: nat, last: Op, key: Value, prop: Value, v: Value)
    requires n >= 1
    requires MeaningOf(o.rnd, key) != MeaningOf(o.rnd, last.key)
             || MeaningOf(o.rnd, prop) != MeaningOf(o.rnd, last.prop)
    ensures var r, s := Run(o, ops, Fresh(n)), Run(o, ops + [last], Fresh(n));
            r.Ok? && s.Ok? && (Get(o, key, prop, s.value) == Ok(v) <==> Get(o, key, prop, r.value) == Ok(v))
  {
    hide ShenEq, Get, Run;
    EqualIsMeaning(o.rnd, key, last.key);
    EqualIsMeaning(o.rnd, prop, last.prop);
    GetAfter(o, ops, n, key, prop);
    GetAfter(o, ops + [last], n, key, prop);
    assert (ops + [last])[..|ops|] == ops;
  }

  /** So do numbers whose doubles differ, whatever is done under one of them. */
  lemma {:induction false} NumbersApart(
    o: Host, ops: seq<Op>, n: nat, a: int, b: int, prop: Value, val: Value, v: Value)
    requires n >= 1 && o.rnd(a) != o.rnd(b)
    ensures var r := Run(o, ops, Fresh(n));
            var s := Run(o, ops + [PutOp(Int(a), prop, val)], Fresh(n));
            && r.Ok? && s.Ok? && Get(o, Int(a), prop, s.value) == Ok(val)
            && (Get(o, Int(b), prop, s.value) == Ok(v) <==> Get(o, Int(b), prop, r.value) == Ok(v))
  {
    hide ShenEq, Get, Run;
    var last := PutOp(Int(a), prop, val);
    KeysApart(o, ops, n, last, Int(b), prop, v);
    GetAfter(o, ops + [last], n, Int(a), prop);
    EqRefl(o.rnd, Int(a));
    EqRefl(o.rnd, prop);
  }

  /** A limit of 0 leaves no bucket: every operation fails. */
  lemma {:induction false} NoBuckets(o: Host, key: Value, prop: Value, val: Value)
    ensures Put(o, key, prop, val, Fresh(0)) == Failed(BadBound)
    ensures Get(o, key, prop, Fresh(0)) == Failed(BadBound)
    ensures Unput(o, key, prop, Fresh(0)) == Failed(BadBound)
  {
  }
}
