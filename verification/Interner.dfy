/** The symbol interner with its direct-mapped cache of literal addresses (symbol.rs). */
module Interner {
  import opened Lists

  /** A `SymId` is a `u32`. */
  const IDS: nat := 0x1_0000_0000

  type SymId = n: nat | n < IDS

  const SLOTS: nat := 8192

  /** The text of the literal of a given length at a given address; the same for as long as the program runs. */
  type Image = (bv64, nat) -> string

  datatype Slot = Slot(key: bv64, len: nat, id: SymId)

  const NO_SLOT: Slot := Slot(0, 0, 0)

  datatype Table = Table(names: seq<string>, byName: map<string, SymId>, byPtr: seq<Slot>)

  function Start(): Table { Table([], map[], seq(SLOTS, _ => NO_SLOT)) }

  function NewId(names: seq<string>): SymId { |names| % IDS }

  function Intern(t: Table, name: string): (Table, SymId)
  {
    if name in t.byName then (t, t.byName[name])
    else
      var id := NewId(t.names);
      (t.(names := t.names + [name], byName := t.byName[name := id]), id)
  }

  /** `((key >> 3) ^ (key >> 16)) & (SLOTS - 1)` */
  function IndexBits(key: bv64): bv64 { ((key >> 3) ^ (key >> 16)) & 8191 }

  function Index(key: bv64): nat { IndexBits(key) as nat }

  /** Addresses that differ, and only in the bits 3 to 15, never share a slot. */
  lemma {:induction false} NeighboursApart(a: bv64, b: bv64)
    requires a != b && (a ^ b) & 0xFFF8 == a ^ b
    ensures IndexBits(a) != IndexBits(b)
  {
  }

  lemma {:induction false} IndexInRange(key: bv64)
    ensures Index(key) < SLOTS
  {
    assert IndexBits(key) <= 8191;
  }

  function InternStatic(t: Table, image: Image, key: bv64, len: nat): (Table, SymId)
    requires |t.byPtr| == SLOTS
  {
    IndexInRange(key);
    var s := t.byPtr[Index(key)];
    if s.key == key && s.len == len then (t, s.id)
    else
      var (t', id) := Intern(t, image(key, len));
      (t'.(byPtr := t'.byPtr[Index(key) := Slot(key, len, id)]), id)
  }

  /** `resolve` indexes the names, and panics for an id that was never given out. */
  function Resolve(t: Table, id: SymId): Option<string>
  {
    if id < |t.names| then Some(t.names[id]) else None
  }

  // ---- the object ----

  class Interner {
    var names: seq<string>
    var byName: map<string, SymId>
    const byPtr: array<Slot>

    ghost function Abs(): Table
      reads this, byPtr
    {
      Table(names, byName, byPtr[..])
    }

    constructor ()
      ensures fresh(byPtr) && byPtr.Length == SLOTS && Abs() == Start()
    {
      names, byName := [], map[];
      byPtr := new Slot[SLOTS](_ => NO_SLOT);
    }

    method InternName(name: string) returns (id: SymId)
      modifies this
      ensures (Abs(), id) == Intern(old(Abs()), name)
    {
      if name in byName { return byName[name]; }
      id := |names| % IDS;
      names := names + [name];
      byName := byName[name := id];
    }

    method InternLiteral(image: Image, key: bv64, len: nat) returns (id: SymId)
      requires byPtr.Length == SLOTS
      modifies this, byPtr
      ensures (Abs(), id) == InternStatic(old(Abs()), image, key, len)
    {
      IndexInRange(key);
      var i := Index(key);
      if byPtr[i].key == key && byPtr[i].len == len { return byPtr[i].id; }
      id := InternName(image(key, len));
      byPtr[i] := Slot(key, len, id);
    }
  }

  // ---- what it keeps ----

  /**
   Names are distinct and known by the order they came in; a used slot holds the id of the text
   at its address. No literal lies at address 0, which marks an unused slot.
   */
  predicate Sound(t: Table, image: Image)
  {
    && |t.byPtr| == SLOTS
    && (forall i, j :: 0 <= i < j < |t.names| ==> t.names[i] != t.names[j])
    && (forall i :: 0 <= i < |t.names| ==> t.names[i] in t.byName && t.byName[t.names[i]] == i % IDS)
    && (forall s :: s in t.byName ==> s in t.names)
    && (forall i :: 0 <= i < SLOTS ==> SlotOk(t, image, t.byPtr[i]))
  }

  predicate SlotOk(t: Table, image: Image, s: Slot)
  {
    s.key != 0 ==> image(s.key, s.len) in t.byName && t.byName[image(s.key, s.len)] == s.id
  }

  lemma {:induction false} StartIsSound(image: Image)
    ensures Sound(Start(), image)
  {
  }

  lemma {:induction false} InternKeeps(t: Table, image: Image, name: string)
    requires Sound(t, image)
    ensures var (t', id) := Intern(t, name);
            && Sound(t', image) && name in t'.byName && id == t'.byName[name]
            && t'.names == (if name in t.names then t.names else t.names + [name])
            && t'.byPtr == t.byPtr
  {
    var (t', id) := Intern(t, name);
    if name !in t.byName {
      assert name !in t.names by {
        forall i | 0 <= i < |t.names| ensures t.names[i] != name { assert t.names[i] in t.byName; }
      }
      forall i | 0 <= i < SLOTS ensures SlotOk(t', image, t'.byPtr[i]) { assert SlotOk(t, image, t.byPtr[i]); }
    }
  }

  /** What the cache answers is what the slow path would have answered, and it leaves the same names. */
  lemma {:induction false} StaticIsIntern(t: Table, image: Image, key: bv64, len: nat)
    requires Sound(t, image) && key != 0
    ensures var (t', id) := InternStatic(t, image, key, len);
            var (u, id') := Intern(t, image(key, len));
            && Sound(t', image) && id == id' && t'.names == u.names && t'.byName == u.byName
  {
    IndexInRange(key);
    InternKeeps(t, image, image(key, len));
    var (u, id') := Intern(t, image(key, len));
    var s := t.byPtr[Index(key)];
    assert SlotOk(t, image, s);
    var (t', id) := InternStatic(t, image, key, len);
    if !(s.key == key && s.len == len) {
      forall i | 0 <= i < SLOTS ensures SlotOk(t', image, t'.byPtr[i]) {
        if i != Index(key) { assert SlotOk(u, image, u.byPtr[i]); }
      }
    }
  }

  // ---- every interleaving ----

  datatype Call = ByText(name: string) | ByLiteral(key: bv64, len: nat)

  function Text(c: Call, image: Image): string
  {
    match c case ByText(s) => s case ByLiteral(k, l) => image(k, l)
  }

  predicate Addressed(calls: seq<Call>)
  {
    forall c :: c in calls && c.ByLiteral? ==> c.key != 0
  }

  function Answer(t: Table, image: Image, c: Call): (r: (Table, SymId))
    requires |t.byPtr| == SLOTS
    ensures |r.0.byPtr| == SLOTS
  {
    match c
    case ByText(s) => Intern(t, s)
    case ByLiteral(k, l) => InternStatic(t, image, k, l)
  }

  /** The table after some calls, and the id each returned. */
  function Run(calls: seq<Call>, image: Image): (r: (Table, seq<SymId>))
    ensures |r.0.byPtr| == SLOTS && |r.1| == |calls|
  {
    if calls == [] then (Start(), [])
    else
      var (t, ids) := Run(calls[..|calls| - 1], image);
      var (t', id) := Answer(t, image, calls[|calls| - 1]);
      (t', ids + [id])
  }

  /** A call adds its text if it is new, answers its place, and forgets nothing. */
  lemma {:induction false} AnswerKeeps(t: Table, image: Image, c: Call)
    requires Sound(t, image) && (c.ByLiteral? ==> c.key != 0)
    ensures var (t', id) := Answer(t, image, c);
            var s := Text(c, image);
            && Sound(t', image) && s in t'.byName && id == t'.byName[s]
            && t'.names == (if s in t.names then t.names else t.names + [s])
            && forall a :: a in t.byName ==> a in t'.byName && t'.byName[a] == t.byName[a]
  {
    InternKeeps(t, image, Text(c, image));
    if c.ByLiteral? { StaticIsIntern(t, image, c.key, c.len); }
  }

  /** Names in the order of their first use. */
  function FirstUses(calls: seq<Call>, image: Image): seq<string>
  {
    if calls == [] then []
    else
      var names := FirstUses(calls[..|calls| - 1], image);
      var s := Text(calls[|calls| - 1], image);
      if s in names then names else names + [s]
  }

  /** Each call returned its text's place in the table. */
  predicate Placed(calls: seq<Call>, image: Image, t: Table, ids: seq<SymId>)
  {
    |ids| == |calls| &&
    forall i :: 0 <= i < |calls| ==> Text(calls[i], image) in t.byName && ids[i] == t.byName[Text(calls[i], image)]
  }

  /** The names are the texts in the order of their first use, and each call returned its text's place. */
  predicate Recorded(calls: seq<Call>, image: Image, t: Table, ids: seq<SymId>)
  {
    Sound(t, image) && t.names == FirstUses(calls, image) && Placed(calls, image, t, ids)
  }

  lemma {:induction false} PlacedMore(
    calls: seq<Call>, image: Image, t: Table, ids: seq<SymId>, c: Call, t': Table, id: SymId)
    requires Placed(calls, image, t, ids)
    requires forall a :: a in t.byName ==> a in t'.byName && t'.byName[a] == t.byName[a]
    requires Text(c, image) in t'.byName && id == t'.byName[Text(c, image)]
    ensures Placed(calls + [c], image, t', ids + [id])
  {
  }

  lemma {:induction false} UsesMore(calls: seq<Call>, image: Image, c: Call)
    ensures var names, s := FirstUses(calls, image), Text(c, image);
            FirstUses(calls + [c], image) == if s in names then names else names + [s]
  {
    assert (calls + [c])[..|calls|] == calls;
  }

  lemma {:induction false} OneMoreCall(calls: seq<Call>, image: Image, t: Table, ids: seq<SymId>, c: Call)
    requires Recorded(calls, image, t, ids) && (c.ByLiteral? ==> c.key != 0)
    ensures |t.byPtr| == SLOTS
    ensures var (t', id) := Answer(t, image, c); Recorded(calls + [c], image, t', ids + [id])
  {
    assert Sound(t, image) && |t.byPtr| == SLOTS;
    hide Sound, Answer, Placed, FirstUses;
    AnswerKeeps(t, image, c);
    var (t', id) := Answer(t, image, c);
    PlacedMore(calls, image, t, ids, c, t', id);
    UsesMore(calls, image, c);
  }

  lemma {:induction false} StartIsRecorded(image: Image)
    ensures Run([], image) == (Start(), []) && Recorded([], image, Start(), [])
  {
    hide Start, Sound;
    StartIsSound(image);
    assert Start().names == [] by { NoNames(); }
  }

  lemma {:induction false} NoNames()
    ensures Start().names == []
  {
  }

  lemma {:induction false} RunMore(calls: seq<Call>, image: Image, c: Call)
    ensures var (t, ids) := Run(calls, image);
            var (t', id) := Answer(t, image, c);
            Run(calls + [c], image) == (t', ids + [id])
  {
    hide Answer, Start;
    assert (calls + [c])[..|calls|] == calls;
  }

  /**
   Over every interleaving, collisions and evictions included, the names are the texts in the
   order of their first use, and each call returns its text's place among them.
   */
  lemma {:induction false} CacheIsTransparent(calls: seq<Call>, image: Image)
    requires Addressed(calls)
    ensures var (t, ids) := Run(calls, image); Recorded(calls, image, t, ids)
    decreases |calls|
  {
    hide *;
    if calls == [] {
      StartIsRecorded(image);
    } else {
      var k := |calls| - 1;
      LessAddressed(calls);
      CacheIsTransparent(calls[..k], image);
      var (t, ids) := Run(calls[..k], image);
      OneMoreCall(calls[..k], image, t, ids, calls[k]);
      RunMore(calls[..k], image, calls[k]);
      assert calls[..k] + [calls[k]] == calls;
    }
  }

  lemma {:induction false} LessAddressed(calls: seq<Call>)
    requires Addressed(calls) && calls != []
    ensures Addressed(calls[..|calls| - 1]) && (calls[|calls| - 1].ByLiteral? ==> calls[|calls| - 1].key != 0)
  {
    assert calls[|calls| - 1] in calls;
  }

  predicate OneToOne(t: Table)
  {
    forall a, b :: a in t.byName && b in t.byName && t.byName[a] == t.byName[b] ==> a == b
  }

  /** Ids and names stay a bijection exactly as long as the ids do not wrap around. */
  lemma {:induction false} Bijection(t: Table, image: Image)
    requires Sound(t, image)
    ensures OneToOne(t) <==> |t.names| <= IDS
  {
    hide *;
    if |t.names| <= IDS { FewAreOneToOne(t, image); } else { WrapsAround(t, image); }
  }

  lemma {:induction false} IdOf(t: Table, image: Image, a: string) returns (i: nat)
    requires Sound(t, image) && a in t.byName
    ensures i < |t.names| && t.names[i] == a && t.byName[a] == i % IDS
  {
    assert a in t.names;
    i :| 0 <= i < |t.names| && t.names[i] == a;
  }

  lemma {:induction false} FewAreOneToOne(t: Table, image: Image)
    requires Sound(t, image) && |t.names| <= IDS
    ensures OneToOne(t)
  {
    hide Sound;
    forall a, b | a in t.byName && b in t.byName && t.byName[a] == t.byName[b] ensures a == b {
      var i := IdOf(t, image, a);
      var j := IdOf(t, image, b);
      assert i % IDS == i && j % IDS == j;
    }
  }

  lemma {:induction false} WrapsAround(t: Table, image: Image)
    requires Sound(t, image) && |t.names| > IDS
    ensures !OneToOne(t)
  {
    var a, b := t.names[0], t.names[IDS];
    assert a != b && t.byName[a] == 0 && t.byName[b] == IDS % IDS == 0;
  }

  /** A name's id resolves to it exactly if it is one of the first `IDS` names. */
  lemma {:induction false} ResolveInterned(t: Table, image: Image, i: nat)
    requires Sound(t, image) && i < |t.names|
    ensures Resolve(t, t.byName[t.names[i]]) == Some(t.names[i]) <==> i < IDS
  {
    if i >= IDS {
      assert i % IDS < i;
    }
  }

  /** No id changes its meaning: later calls only add names. */
  lemma {:induction false} IdsKeepMeaning(calls: seq<Call>, k: nat, image: Image, id: SymId)
    requires Addressed(calls) && k <= |calls| && Resolve(Run(calls[..k], image).0, id).Some?
    ensures Resolve(Run(calls, image).0, id) == Resolve(Run(calls[..k], image).0, id)
    decreases |calls|
  {
    hide Sound, Run;
    if k < |calls| {
      var n := |calls| - 1;
      assert calls[..n][..k] == calls[..k];
      IdsKeepMeaning(calls[..n], k, image, id);
      CacheIsTransparent(calls[..n], image);
      CacheIsTransparent(calls, image);
    } else {
      assert calls[..k] == calls;
    }
  }
}
