/** From KL names to Rust identifiers (klcompile/src/lib.rs). */
module Sanitize {
  import opened Lists
  import Kl
  import R = RustIr

  predicate IsDigit(c: char) { '0' <= c <= '9' }

  predicate IsAlnum(c: char)
  {
    IsDigit(c) || 'a' <= c <= 'z' || 'A' <= c <= 'Z'
  }

  /** Characters that are written as they are. */
  predicate Plain(c: char) { IsAlnum(c) || c == '_' }

  function Digit(d: nat): (c: char)
    requires d < 16
    ensures IsAlnum(c) && DigitValue(c) == d
  {
    if d < 10 then '0' + d as char else 'a' + (d - 10) as char
  }

  function DigitValue(c: char): int
  {
    if IsDigit(c) then c as int - '0' as int else c as int - 'a' as int + 10
  }

  /** `{:x}` */
  function Hex(n: nat): string
  {
    if n < 16 then [Digit(n)] else Hex(n / 16) + [Digit(n % 16)]
  }

  /** `{:02x}` */
  function Hex2(n: nat): string
  {
    if n < 16 then ['0'] + Hex(n) else Hex(n)
  }

  function Escape(c: char): string
  {
    if Plain(c) then [c] else "_x" + Hex2(c as int) + "_"
  }

  function Body(s: string): string
  {
    if s == [] then [] else Escape(s[0]) + Body(s[1..])
  }

  /** No identifier is empty or starts with a digit. */
  function Lead(b: string): string
  {
    if b == [] then "x" else if IsDigit(b[0]) then "_" + b else b
  }

  function Ident(s: string): string { Lead(Body(s)) }

  lemma {:induction false} BodySnoc(s: string, c: char)
    ensures Body(s + [c]) == Body(s) + Escape(c)
  {
    hide Escape;
    if s == [] {
      assert s + [c] == [c] && [c][1..] == [];
      assert Body([c]) == Escape(c) + [] == [] + Escape(c);
    } else {
      BodySnoc(s[1..], c);
      assert (s + [c])[0] == s[0] && (s + [c])[1..] == s[1..] + [c];
      assert Escape(s[0]) + (Body(s[1..]) + Escape(c)) == (Escape(s[0]) + Body(s[1..])) + Escape(c);
    }
  }

  lemma {:induction false} BodyNone()
    ensures Body([]) == []
  {
  }

  method SanitizeIdent(name: string) returns (out: string)
    ensures out == Ident(name)
  {
    hide Hex, Body;
    out := "";
    assert Body([]) == [] by { BodyNone(); }
    for i := 0 to |name|
      invariant out == Body(name[..i])
    {
      var c := name[i];
      BodySnoc(name[..i], c);
      assert name[..i + 1] == name[..i] + [c];
      if IsAlnum(c) || c == '_' {
        out := out + [c];
      } else {
        out := out + "_x" + Hex2(c as int) + "_";
      }
    }
    assert name[..|name|] == name;
    if out == [] { out := out + ['x']; }
    if IsDigit(out[0]) { out := ['_'] + out; }
  }

  // ---- legality ----

  predicate Legal(s: string)
  {
    s != [] && !IsDigit(s[0]) && forall c :: c in s ==> Plain(c)
  }

  lemma {:induction false} HexIsAlnum(n: nat)
    ensures Hex(n) != [] && forall c :: c in Hex(n) ==> IsAlnum(c)
  {
    if n >= 16 { HexIsAlnum(n / 16); }
  }

  lemma {:induction false} Hex2IsAlnum(n: nat)
    ensures |Hex2(n)| >= 2 && forall c :: c in Hex2(n) ==> IsAlnum(c)
  {
    HexIsAlnum(n);
    if n >= 16 { HexIsAlnum(n / 16); }
  }

  lemma {:induction false} BodyIsPlain(s: string)
    ensures forall c :: c in Body(s) ==> Plain(c)
  {
    if s != [] {
      Hex2IsAlnum(s[0] as int);
      BodyIsPlain(s[1..]);
    }
  }

  /** Whatever the name, the result can be part of an identifier. */
  lemma {:induction false} AlwaysLegal(s: string)
    ensures Legal(Ident(s))
  {
    BodyIsPlain(s);
    if s != [] { Hex2IsAlnum(s[0] as int); }
  }

  // ---- telling names apart ----

  function HexValue(h: string): int
  {
    if h == [] then 0 else 16 * HexValue(h[..|h| - 1]) + DigitValue(h[|h| - 1])
  }

  lemma {:induction false} HexRoundTrip(n: nat)
    ensures HexValue(Hex(n)) == n
  {
    if n >= 16 {
      HexRoundTrip(n / 16);
      assert Hex(n)[..|Hex(n)| - 1] == Hex(n / 16);
    } else {
      assert [Digit(n)][..0] == [];
    }
  }

  lemma {:induction false} Hex2RoundTrip(n: nat)
    ensures HexValue(Hex2(n)) == n
  {
    HexRoundTrip(n);
    if n < 16 {
      assert Hex2(n)[..1] == ['0'] && ['0'][..0] == [];
      assert HexValue(['0']) == 0;
    }
  }

  predicate Within(s: string, alphabet: set<char>)
  {
    forall c :: c in s ==> c in alphabet
  }

  /**
   Alphabets in which no name looks like another's escape: no underscore, or no digit (a leading
   one gets an underscore) and no character that can be spelt by the others of its own escape.
   */
  predicate Separable(alphabet: set<char>)
  {
    '_' in alphabet ==> forall c :: c in alphabet ==>
      !IsDigit(c) && (!Plain(c) ==> !Within(Escape(c), alphabet))
  }

  ghost predicate Injective(alphabet: set<char>)
  {
    forall s, t :: s != [] && t != [] && Within(s, alphabet) && Within(t, alphabet) && Ident(s) == Ident(t)
      ==> s == t
  }

  /** How the first character shows. */
  lemma {:induction false} First(s: string)
    requires s != []
    ensures Plain(s[0]) ==> Body(s) != [] && Body(s)[0] == s[0] && Body(s)[1..] == Body(s[1..])
    ensures !Plain(s[0]) ==>
              var h := Hex2(s[0] as int);
              && |Body(s)| >= 2 && Body(s)[0] == '_' && Body(s)[1] == 'x'
              && Body(s)[1..] == (['x'] + h) + ['_'] + Body(s[1..])
              && Body(s)[2..] == h + ['_'] + Body(s[1..])
  {
    var h, rest := Hex2(s[0] as int), Body(s[1..]);
    assert Body(s) == Escape(s[0]) + rest;
    hide Body, Hex2;
    if !Plain(s[0]) {
      assert Escape(s[0]) == "_x" + h + "_";
      Regroup(h, rest);
    } else {
      assert ([s[0]] + rest)[1..] == rest;
    }
  }

  lemma {:induction false} Regroup(h: string, rest: string)
    ensures ("_x" + h + "_" + rest)[1..] == (['x'] + h) + ['_'] + rest
    ensures ("_x" + h + "_" + rest)[2..] == h + ['_'] + rest
  {
  }

  /** Characters of an identifier other than the underscore come from the name itself. */
  lemma {:induction false} Literal(u: string, h: string, rest: string, alphabet: set<char>)
    requires Within(u, alphabet) && Body(u) == h + ['_'] + rest && forall c :: c in h ==> IsAlnum(c)
    ensures Within(h, alphabet)
  {
    hide Escape;
    if h != [] {
      assert u != [] && Body(u)[0] == h[0] && IsAlnum(h[0]);
      First(u);
      assert u[0] == h[0];
      assert (h + ['_'] + rest)[1..] == h[1..] + ['_'] + rest;
      Literal(u[1..], h[1..], rest, alphabet);
    }
  }

  lemma {:induction false} NotShorter(h: string, r: string, h': string, r': string)
    requires h + ['_'] + r == h' + ['_'] + r' && forall c :: c in h' ==> IsAlnum(c)
    ensures |h| >= |h'|
  {
    var all := h + ['_'] + r;
    assert all[|h|] == '_';
    forall i | 0 <= i < |h'| ensures IsAlnum(all[i]) {
      assert (h' + ['_'] + r')[i] == h'[i] && h'[i] in h';
    }
  }

  /** Both sides are read up to the first underscore. */
  lemma {:induction false} SamePrefix(h: string, r: string, h': string, r': string)
    requires h + ['_'] + r == h' + ['_'] + r'
    requires (forall c :: c in h ==> IsAlnum(c)) && forall c :: c in h' ==> IsAlnum(c)
    ensures h == h' && r == r'
  {
    NotShorter(h, r, h', r');
    NotShorter(h', r', h, r);
    var k := |h|;
    assert h == (h + ['_'] + r)[..k] == (h' + ['_'] + r')[..k] == h';
    assert r == (h + ['_'] + r)[k + 1..] == (h' + ['_'] + r')[k + 1..] == r';
  }

  /** A special character and an underscore are never confused. */
  lemma {:induction false} SpecialFirst(s: string, t: string, alphabet: set<char>)
    requires Separable(alphabet) && Within(s, alphabet) && Within(t, alphabet) && s != [] && t != []
    requires Body(s) == Body(t) && !Plain(s[0])
    ensures !Plain(t[0])
  {
    var h := Hex2(s[0] as int);
    Hex2IsAlnum(s[0] as int);
    First(s);
    First(t);
    assert s[0] in alphabet && t[0] in alphabet;
    hide Body;
    if Plain(t[0]) {
      Literal(t[1..], ['x'] + h, Body(s[1..]), alphabet);
      SpeltOut(s[0], alphabet);
    }
  }

  lemma {:induction false} SpeltOut(c: char, alphabet: set<char>)
    requires !Plain(c) && '_' in alphabet && Within(['x'] + Hex2(c as int), alphabet)
    ensures Within(Escape(c), alphabet)
  {
    forall d | d in Escape(c) ensures d in alphabet {
      assert d == '_' || d in ['x'] + Hex2(c as int);
    }
  }

  /** Equal bodies start with the same character of the name. */
  lemma {:induction false} SameFirst(s: string, t: string, alphabet: set<char>)
    requires Separable(alphabet) && Within(s, alphabet) && Within(t, alphabet) && s != [] && t != []
    requires Body(s) == Body(t)
    ensures s[0] == t[0] && Body(s[1..]) == Body(t[1..])
  {
    hide Body, Hex2, Within, Separable;
    First(s);
    First(t);
    if Plain(s[0]) && !Plain(t[0]) {
      SpecialFirst(t, s, alphabet);
    } else if !Plain(s[0]) {
      SpecialFirst(s, t, alphabet);
      Hex2IsAlnum(s[0] as int);
      Hex2IsAlnum(t[0] as int);
      SamePrefix(Hex2(s[0] as int), Body(s[1..]), Hex2(t[0] as int), Body(t[1..]));
      Hex2RoundTrip(s[0] as int);
      Hex2RoundTrip(t[0] as int);
    }
  }

  lemma {:induction false} BodyInjective(s: string, t: string, alphabet: set<char>)
    requires Separable(alphabet) && Within(s, alphabet) && Within(t, alphabet) && Body(s) == Body(t)
    ensures s == t
  {
    hide Separable, Escape;
    if s != [] { First(s); }
    if t != [] { First(t); }
    if s != [] && t != [] {
      SameFirst(s, t, alphabet);
      BodyInjective(s[1..], t[1..], alphabet);
      assert s == [s[0]] + s[1..] && t == [t[0]] + t[1..];
    }
  }

  /** A leading digit's underscore is never mistaken for the name's own, or for an escape. */
  lemma {:induction false} LeadInjective(s: string, t: string, alphabet: set<char>)
    requires Separable(alphabet) && Within(s, alphabet) && Within(t, alphabet) && s != [] && t != []
    requires Ident(s) == Ident(t) && Body(s) != [] && IsDigit(Body(s)[0])
    ensures Body(t) != [] && IsDigit(Body(t)[0])
  {
    hide Escape, Body;
    First(s);
    First(t);
    assert s[0] in alphabet && t[0] in alphabet && IsDigit(s[0]);
    assert Ident(s)[0] == '_' && Ident(s)[1] == Body(s)[0];
  }

  lemma {:induction false} Apart(s: string, t: string, alphabet: set<char>)
    requires Separable(alphabet) && Within(s, alphabet) && Within(t, alphabet) && s != [] && t != []
    requires Ident(s) == Ident(t)
    ensures s == t
  {
    hide Body, Separable, Within;
    First(s);
    First(t);
    if IsDigit(Body(s)[0]) { LeadInjective(s, t, alphabet); }
    if IsDigit(Body(t)[0]) { LeadInjective(t, s, alphabet); }
    if IsDigit(Body(s)[0]) {
      assert Body(s) == Ident(s)[1..] && Body(t) == Ident(t)[1..];
    }
    BodyInjective(s, t, alphabet);
  }

  lemma {:induction false} PlainBody(s: string)
    requires forall c :: c in s ==> Plain(c)
    ensures Body(s) == s
  {
    if s != [] { PlainBody(s[1..]); }
  }

  /** Two names that share an identifier, in an alphabet that is not separable. */
  lemma {:induction false} Clash(alphabet: set<char>) returns (s: string, t: string)
    requires !Separable(alphabet)
    ensures s != [] && t != [] && Within(s, alphabet) && Within(t, alphabet) && Ident(s) == Ident(t) && s != t
  {
    var c :| c in alphabet && (IsDigit(c) || (!Plain(c) && Within(Escape(c), alphabet)));
    s := [c];
    assert Body(s) == Escape(c) + Body([]) == Escape(c);
    if IsDigit(c) {
      t := ['_', c];
      PlainBody(t);
    } else {
      t := Escape(c);
      Hex2IsAlnum(c as int);
      PlainBody(t);
    }
  }

  /** Non-empty names over an alphabet keep distinct identifiers exactly if it is separable. */
  lemma {:induction false} InjectiveIff(alphabet: set<char>)
    ensures Injective(alphabet) <==> Separable(alphabet)
  {
    if Separable(alphabet) {
      forall s, t | s != [] && t != [] && Within(s, alphabet) && Within(t, alphabet) && Ident(s) == Ident(t)
        ensures s == t
      {
        Apart(s, t, alphabet);
      }
    } else {
      var s, t := Clash(alphabet);
    }
  }

  /** Names without an underscore never share a Rust name. */
  lemma {:induction false} NoUnderscore(s: string, t: string)
    requires s != [] && t != [] && '_' !in s && '_' !in t && Ident(s) == Ident(t)
    ensures s == t
  {
    Apart(s, t, (set c | c in s) + (set c | c in t));
  }

  /** An underscore may hide a clash, and so does the empty name. */
  lemma {:induction false} Clashes()
    ensures Ident("a?") == Ident("a_x3f_")
    ensures Ident("1") == Ident("_1")
    ensures Ident("") == Ident("x")
  {
    assert '?' as int == 63;
    assert Hex(3) == ['3'] && Digit(15) == 'f';
    assert Hex(63) == "3f";
    assert Escape('?') == "_x3f_";
    assert "a?"[1..] == "?" && "?"[1..] == [];
    assert Body("?") == "_x3f_";
    assert Body("a?") == "a_x3f_";
    PlainBody("a_x3f_");
    PlainBody("1");
    PlainBody("_1");
    PlainBody("x");
  }

  /** By its code: a digit, a capital, a small letter or the underscore of ASCII. */
  predicate IsWordCode(n: int)
  {
    48 <= n <= 57 || 65 <= n <= 90 || 97 <= n <= 122 || n == 95
  }

  /** The names that stay as they are are exactly those that are identifiers already. */
  lemma {:induction false} UnchangedIff(s: string)
    ensures Ident(s) == s <==>
            s != [] && !(48 <= s[0] as int <= 57) && forall c :: c in s ==> IsWordCode(c as int)
  {
    forall c: char ensures Plain(c) <==> IsWordCode(c as int) {}
    if Ident(s) == s { AlwaysLegal(s); }
    if s != [] && forall c :: c in s ==> Plain(c) {
      PlainBody(s);
      assert s[0] in s;
    }
  }

  /** Any other character is spelt by its code in hexadecimal, between `_x` and `_`. */
  lemma {:induction false} SpeltByCode(c: char)
    requires !IsWordCode(c as int)
    ensures var s := Escape(c);
            |s| >= 5 && s[..2] == "_x" && s[|s| - 1] == '_' && HexValue(s[2..|s| - 1]) == c as int
  {
    Hex2RoundTrip(c as int);
    Hex2IsAlnum(c as int);
    assert Escape(c) == "_x" + Hex2(c as int) + "_";
    assert Escape(c)[2..|Escape(c)| - 1] == Hex2(c as int);
  }

  // ---- the locals of one function ----

  function Decimal(n: nat): string
  {
    if n < 10 then ['0' + n as char] else Decimal(n / 10) + ['0' + (n % 10) as char]
  }

  lemma {:induction false} DecimalInjective(n: nat, m: nat)
    requires Decimal(n) == Decimal(m)
    ensures n == m
  {
    DecimalNonEmpty(n);
    DecimalNonEmpty(m);
    if n >= 10 { DecimalNonEmpty(n / 10); }
    if m >= 10 { DecimalNonEmpty(m / 10); }
    var k := |Decimal(n)| - 1;
    assert Decimal(n)[k] == Decimal(m)[k];
    if n >= 10 && m >= 10 {
      assert Decimal(n)[..k] == Decimal(n / 10) && Decimal(m)[..k] == Decimal(m / 10);
      DecimalInjective(n / 10, m / 10);
    }
  }

  lemma {:induction false} DecimalNonEmpty(n: nat)
    ensures Decimal(n) != []
  {
  }

  /** How each local of the intermediate form is spelt. */
  function Spelling(x: R.RVar, name: Kl.SymId -> string): string
  {
    match x
    case V(id) => "v_" + Ident(name(id))
    case T(n) => "__t" + Decimal(n)
    case FixedX => "__x"
    case FixedN => "__n"
    case FixedH => "__h"
    case FixedV => "__v"
    case Wild => "_"
  }

  lemma {:induction false} SpellingShape(x: R.RVar, name: Kl.SymId -> string)
    ensures var s := Spelling(x, name);
            match x
            case V(id) => |s| >= 2 && s[0] == 'v' && s[2..] == Ident(name(id))
            case T(n) => |s| >= 4 && s[0] == '_' && s[3..] == Decimal(n)
            case Wild => |s| == 1 && s[0] == '_'
            case FixedX => |s| == 3 && s[0] == '_' && s[2] == 'x'
            case FixedN => |s| == 3 && s[0] == '_' && s[2] == 'n'
            case FixedH => |s| == 3 && s[0] == '_' && s[2] == 'h'
            case FixedV => |s| == 3 && s[0] == '_' && s[2] == 'v'
  {
    if x.T? { DecimalNonEmpty(x.n); }
  }

  /** User locals, temporaries and the fixed locals never share a spelling. */
  lemma {:induction false} LocalsApart(x: R.RVar, y: R.RVar, name: Kl.SymId -> string)
    requires forall i, j :: name(i) == name(j) ==> i == j
    requires forall i :: name(i) != [] && '_' !in name(i)
    requires Spelling(x, name) == Spelling(y, name)
    ensures x == y
  {
    hide Spelling, Ident, Decimal;
    SpellingShape(x, name);
    SpellingShape(y, name);
    if x.V? && y.V? { NoUnderscore(name(x.id), name(y.id)); }
    if x.T? && y.T? { DecimalInjective(x.n, y.n); }
  }
}
