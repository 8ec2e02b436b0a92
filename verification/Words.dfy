/** The tagged 64-bit word of the collector benches (benches/gc_spike.rs). */
module Words {
  import opened Lists

  const TWO64: int := 0x1_0000_0000_0000_0000
  const TWO63: int := 0x8000_0000_0000_0000
  const TWO61: int := 0x2000_0000_0000_0000
  const TWO60: int := 0x1000_0000_0000_0000

  /** A tag in the three low bits; a fixnum's 61 bits, or a node's address, above it. */
  type Word = nat

  /** The two's complement reading of 64 and of 61 bits. */
  function Wrap64(n: int): (r: int)
    ensures -TWO63 <= r < TWO63
    ensures -TWO63 <= n < TWO63 ==> r == n
  {
    (n + TWO63) % TWO64 - TWO63
  }

  function Wrap61(n: int): (r: int)
    ensures -TWO60 <= r < TWO60
    ensures -TWO60 <= n < TWO60 ==> r == n
  {
    (n + TWO60) % TWO61 - TWO60
  }

  const NIL: Word := 3

  /** `((v as u64) << 3) | 0` */
  function Fixnum(v: int): Word { 8 * v % TWO64 }

  predicate IsFixnum(w: Word) { w % 8 == 0 }

  /** `(w as i64) >> 3`, which rounds down. */
  function AsFixnum(w: Word): int { Wrap64(w) / 8 }

  predicate IsCons(w: Word) { w % 8 == 1 }

  /** `w & !7` */
  function ConsPtr(w: Word): nat { w - w % 8 }

  /** Node addresses are 8-aligned; there is always one more, as running out of memory aborts. */
  predicate IsAddress(p: nat) { p % 8 == 0 }

  /** `p | 1` */
  function FromPtr(p: nat): Word
    requires IsAddress(p)
  {
    p + 1
  }

  /** A node's word is read back as that node, and as nothing else. */
  lemma {:induction false} PtrRoundTrip(p: nat)
    requires IsAddress(p)
    ensures IsCons(FromPtr(p)) && ConsPtr(FromPtr(p)) == p && !IsFixnum(FromPtr(p)) && FromPtr(p) != NIL
  {
  }

  /** Every cons word is some node's, and no two nodes share one. */
  lemma {:induction false} ConsRoundTrip(w: Word)
    requires IsCons(w)
    ensures IsAddress(ConsPtr(w)) && FromPtr(ConsPtr(w)) == w
  {
  }

  /** A fixnum keeps the low 61 bits of its integer: all of it exactly when it fits them. */
  lemma {:induction false} FixnumRoundTrip(v: int)
    ensures IsFixnum(Fixnum(v)) && AsFixnum(Fixnum(v)) == Wrap61(v)
    ensures AsFixnum(Fixnum(v)) == v <==> -TWO60 <= v < TWO60
  {
    var k := v / TWO61;
    var m := v % TWO61;
    assert v == TWO61 * k + m;
    assert 8 * v == TWO64 * k + 8 * m;
    assert Fixnum(v) == 8 * m;
  }

  function Target(w: Word): Option<nat>
  {
    if IsCons(w) then Some(ConsPtr(w)) else None
  }
}
