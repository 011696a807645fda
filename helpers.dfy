/** Typed wrappers for C enums and C bit-flags, as generated by the macros
    `decl_enum`/`impl_enum`/`make_enum` and `decl_flag`/`impl_bitwise`/`make_flag`.

    Each `make_flag` invocation declares a single-flag type and a flag-set type, both
    newtypes over `u32`; each `make_enum` invocation declares a newtype over `i32`.
    Here one generic datatype stands for all of them, and a phantom tag `K` keeps
    the families apart (a `TransformFlag` cannot be or-ed with a `CompositeAlphaFlag`). */
module Helpers {

  /** The C `int32_t` a `make_enum` type wraps. */
  newtype i32 = x: int | -0x8000_0000 <= x < 0x8000_0000

  /** A value of a `make_enum` type: `pub struct $name(pub i32)`. */
  datatype Enum<K> = Enum(value: i32)

  /** A single flag of a `make_flag` family: `pub struct $flag(pub u32)`. */
  datatype Flag<K> = Flag(bits: bv32)

  /** A set of flags of the same family: `pub struct $flags(pub u32)`. */
  datatype Flags<K> = Flags(bits: bv32)

  /** Bit `i` of a raw `u32`, the reference reading of a flag word; a `bv5` ranges
      over exactly the 32 bit positions 0..31. */
  predicate HasBit(x: bv32, i: bv5)
  {
    (x >> i) & 1 == 1
  }

  /** Every flag of `s` is also in `t` (bit by bit: `SubsetOfBit`, `SubsetOfFromBits`). */
  predicate SubsetOf<K>(s: Flags<K>, t: Flags<K>)
  {
    And(s, t) == s
  }

  // ---- The `u32` operators the generated impls apply to the wrapped words ----

  /** `x | y` on `u32`. */
  function WordOr(x: bv32, y: bv32): bv32
  {
    x | y
  }

  /** `x & y` on `u32`. */
  function WordAnd(x: bv32, y: bv32): bv32
  {
    x & y
  }

  // ---- Default (decl_flag) ----

  /** `Default::default()` of a single-flag type. */
  function DefaultFlag<K>(): Flag<K>
  {
    Flag(0)
  }

  /** `Default::default()` of a flag-set type. */
  function DefaultFlags<K>(): Flags<K>
  {
    Flags(0)
  }

  // ---- From<Flag> for Flags, Into<bool> for Flags ----

  /** `Flags::from(f)`. */
  function FromFlag<K>(f: Flag<K>): Flags<K>
  {
    Flags(f.bits)
  }

  /** `Into<bool>` for a flag set: true exactly when the set is not the default one. */
  function IsSet<K>(s: Flags<K>): (b: bool)
    ensures b <==> s != DefaultFlags()
  {
    s.bits != 0
  }

  // ---- BitOr / BitAnd for the four operand pairings (impl_bitwise) ----

  /** `Flags | Flags`. */
  function Or<K>(a: Flags<K>, b: Flags<K>): Flags<K>
  {
    Flags(WordOr(a.bits, b.bits))
  }

  /** `Flags & Flags`. */
  function And<K>(a: Flags<K>, b: Flags<K>): Flags<K>
  {
    Flags(WordAnd(a.bits, b.bits))
  }

  /** `Flag | Flag`. */
  function OrFlagFlag<K>(a: Flag<K>, b: Flag<K>): Flags<K>
  {
    Flags(WordOr(a.bits, b.bits))
  }

  /** `Flag | Flags`. */
  function OrFlagFlags<K>(a: Flag<K>, b: Flags<K>): Flags<K>
  {
    Flags(WordOr(a.bits, b.bits))
  }

  /** `Flags | Flag`. */
  function OrFlagsFlag<K>(a: Flags<K>, b: Flag<K>): Flags<K>
  {
    Flags(WordOr(a.bits, b.bits))
  }

  /** `Flag & Flag`. */
  function AndFlagFlag<K>(a: Flag<K>, b: Flag<K>): Flags<K>
  {
    Flags(WordAnd(a.bits, b.bits))
  }

  /** `Flag & Flags`. */
  function AndFlagFlags<K>(a: Flag<K>, b: Flags<K>): Flags<K>
  {
    Flags(WordAnd(a.bits, b.bits))
  }

  /** `Flags & Flag`. */
  function AndFlagsFlag<K>(a: Flags<K>, b: Flag<K>): Flags<K>
  {
    Flags(WordAnd(a.bits, b.bits))
  }

  // ---- Bit-level meaning ----

  /** The default flag and flag set have no bit set. */
  lemma DefaultBit<K>(i: bv5)
    ensures !HasBit(DefaultFlag<K>().bits, i)
    ensures !HasBit(DefaultFlags<K>().bits, i)
  {
  }

  /** `From<Flag>` keeps every bit of the flag, and no other. */
  lemma FromFlagBit<K>(f: Flag<K>, i: bv5)
    ensures HasBit(FromFlag(f).bits, i) <==> HasBit(f.bits, i)
  {
  }

  /** A bit is in `a | b` iff it is in `a` or in `b`. */
  lemma OrBit<K>(a: Flags<K>, b: Flags<K>, i: bv5)
    ensures HasBit(Or(a, b).bits, i) <==> HasBit(a.bits, i) || HasBit(b.bits, i)
  {
  }

  /** A bit is in `a & b` iff it is in `a` and in `b`. */
  lemma AndBit<K>(a: Flags<K>, b: Flags<K>, i: bv5)
    ensures HasBit(And(a, b).bits, i) <==> HasBit(a.bits, i) && HasBit(b.bits, i)
  {
  }

  /** `SubsetOf` implies inclusion of bit positions. */
  lemma SubsetOfBit<K>(s: Flags<K>, t: Flags<K>, i: bv5)
    requires SubsetOf(s, t)
    ensures HasBit(s.bits, i) ==> HasBit(t.bits, i)
  {
  }

  /** Bit `i` of `x >> s` is bit `i + s` of `x`. */
  lemma ShiftedBit(x: bv32, s: bv5, i: bv5)
    requires i as int + s as int < 32
    ensures HasBit(x >> s, i) <==> HasBit(x, i + s)
  {
  }

  /** Two words that agree on bits 0..7 agree on their low byte. */
  lemma LowByteAgrees(x: bv32, y: bv32)
    requires forall i: bv5 | i < 8 :: HasBit(x, i) <==> HasBit(y, i)
    ensures x & 0xFF == y & 0xFF
  {
    assert HasBit(x, 0) == HasBit(y, 0) && HasBit(x, 1) == HasBit(y, 1);
    assert HasBit(x, 2) == HasBit(y, 2) && HasBit(x, 3) == HasBit(y, 3);
    assert HasBit(x, 4) == HasBit(y, 4) && HasBit(x, 5) == HasBit(y, 5);
    assert HasBit(x, 6) == HasBit(y, 6) && HasBit(x, 7) == HasBit(y, 7);
  }

  /** Two words that agree on every bit agree on the byte starting at bit `s`. */
  lemma ByteAgrees(x: bv32, y: bv32, s: bv5)
    requires forall i: bv5 :: HasBit(x, i) <==> HasBit(y, i)
    requires s as int <= 24
    ensures (x >> s) & 0xFF == (y >> s) & 0xFF
  {
    var xs, ys := x >> s, y >> s;
    forall i: bv5 | i < 8
      ensures HasBit(xs, i) <==> HasBit(ys, i)
    {
      ShiftedBit(x, s, i);
      ShiftedBit(y, s, i);
    }
    LowByteAgrees(xs, ys);
  }

  /** A word is determined by its bits. */
  lemma BitsDetermineWord(x: bv32, y: bv32)
    requires forall i: bv5 :: HasBit(x, i) <==> HasBit(y, i)
    ensures x == y
  {
    ByteAgrees(x, y, 0);
    ByteAgrees(x, y, 8);
    ByteAgrees(x, y, 16);
    ByteAgrees(x, y, 24);
  }

  /** Conversely, inclusion of bit positions implies `SubsetOf`: with `SubsetOfBit`,
      `SubsetOf(s, t)` holds exactly when every bit of `s` is in `t`. */
  lemma SubsetOfFromBits<K>(s: Flags<K>, t: Flags<K>)
    requires forall i: bv5 :: HasBit(s.bits, i) ==> HasBit(t.bits, i)
    ensures SubsetOf(s, t)
  {
    forall i: bv5
      ensures HasBit(And(s, t).bits, i) <==> HasBit(s.bits, i)
    {
      AndBit(s, t, i);
    }
    BitsDetermineWord(And(s, t).bits, s.bits);
  }

  // ---- Laws ----

  /** `From<Flag>` is lossless: the raw word is kept, so distinct flags give distinct sets. */
  lemma FromFlagLossless<K>(f: Flag<K>, g: Flag<K>)
    ensures FromFlag(f).bits == f.bits
    ensures FromFlag(f) == FromFlag(g) <==> f == g
  {
  }

  /** Truthiness: the default set is false, a union is true iff an operand is,
      and a converted flag is true iff the flag is not the default one. */
  lemma IsSetLaws<K>(a: Flags<K>, b: Flags<K>, f: Flag<K>)
    ensures !IsSet(DefaultFlags<K>())
    ensures IsSet(Or(a, b)) <==> IsSet(a) || IsSet(b)
    ensures IsSet(FromFlag(f)) <==> f != DefaultFlag()
  {
  }

  /** `|` is commutative and idempotent, with the default set as identity. */
  lemma OrLaws<K>(a: Flags<K>, b: Flags<K>)
    ensures Or(a, b) == Or(b, a)
    ensures Or(a, a) == a
    ensures Or(a, DefaultFlags()) == a
  {
  }

  /** `|` is associative. */
  lemma OrAssociative<K>(a: Flags<K>, b: Flags<K>, c: Flags<K>)
    ensures Or(Or(a, b), c) == Or(a, Or(b, c))
  {
  }

  /** `&` is commutative and idempotent, and the default set absorbs it. */
  lemma AndLaws<K>(a: Flags<K>, b: Flags<K>)
    ensures And(a, b) == And(b, a)
    ensures And(a, a) == a
    ensures And(a, DefaultFlags()) == DefaultFlags()
  {
  }

  /** `&` is associative. */
  lemma AndAssociative<K>(a: Flags<K>, b: Flags<K>, c: Flags<K>)
    ensures And(And(a, b), c) == And(a, And(b, c))
  {
  }

  /** Absorption, in both directions. */
  lemma Absorption<K>(a: Flags<K>, b: Flags<K>)
    ensures And(a, Or(a, b)) == a
    ensures Or(a, And(a, b)) == a
  {
  }

  /** An intersection lies within both operands. */
  lemma AndWithin<K>(a: Flags<K>, b: Flags<K>)
    ensures SubsetOf(And(a, b), a) && SubsetOf(And(a, b), b)
  {
    calc {
      And(And(a, b), a);
      { AndLaws(And(a, b), a); }
      And(a, And(a, b));
      { AndAssociative(a, a, b); }
      And(And(a, a), b);
      { AndLaws(a, b); }
      And(a, b);
    }
    calc {
      And(And(a, b), b);
      { AndAssociative(a, b, b); }
      And(a, And(b, b));
      { AndLaws(b, a); }
      And(a, b);
    }
  }

  /** A union covers both operands. */
  lemma OrCovers<K>(a: Flags<K>, b: Flags<K>)
    ensures SubsetOf(a, Or(a, b)) && SubsetOf(b, Or(a, b))
  {
    Absorption(a, b);
    OrLaws(a, b);
    Absorption(b, a);
  }

  /** The four operand pairings of `|` and of `&` agree once single flags are
      converted with `From`. */
  lemma PairingsAgree<K>(f: Flag<K>, g: Flag<K>, s: Flags<K>, t: Flags<K>)
    ensures OrFlagFlag(f, g) == Or(FromFlag(f), FromFlag(g))
    ensures OrFlagFlags(f, t) == Or(FromFlag(f), t)
    ensures OrFlagsFlag(s, g) == Or(s, FromFlag(g))
    ensures AndFlagFlag(f, g) == And(FromFlag(f), FromFlag(g))
    ensures AndFlagFlags(f, t) == And(FromFlag(f), t)
    ensures AndFlagsFlag(s, g) == And(s, FromFlag(g))
  {
  }

  /** Values of a `make_enum` type compare by their wrapped `i32` (derived `PartialEq`). */
  lemma EnumEquality<K>(a: Enum<K>, b: Enum<K>)
    ensures a == b <==> a.value == b.value
  {
  }
}
