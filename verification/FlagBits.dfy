/** The two bytes a waiter on a flags object keeps in swap_data (src/avrtos/flags.c). */
module FlagBits {
  import opened Sched

  /** Flag bits, in a word as wide as swap_data; a flags value is a byte of it. */
  type Bits = bv16

  predicate IsByte(b: Bits) {
    b & 0xFF00 == 0
  }

  const SET_ANY: Bits := 0x01
  const CONSUME: Bits := 0x10
  const SET: Bits := 0x20
  const SCHED: Bits := 0x80

  function And(a: Bits, b: Bits): Bits {
    a & b
  }

  function Or(a: Bits, b: Bits): Bits {
    a | b
  }

  function Minus(a: Bits, b: Bits): Bits {
    a & !b
  }

  /** The options in the high byte, the mask in the low one. */
  function Request(options: Bits, mask: Bits): Swap {
    Word((options << 8) | mask)
  }

  function Mask(data: Swap): Bits {
    if data.Word? then data.w & 0xFF else 0
  }

  function Options(data: Swap): Bits {
    if data.Word? then data.w >> 8 else 0
  }

  /** What a woken waiter finds: the bits that woke it, and no options. */
  function Trigger(bits: Bits): Swap {
    Word(bits & 0xFF)
  }

  function Consumes(data: Swap): bool {
    And(Options(data), CONSUME) != 0
  }

  /** Packing loses nothing. */
  lemma RequestKept(options: Bits, mask: Bits)
    requires IsByte(options) && IsByte(mask)
    ensures Mask(Request(options, mask)) == mask && Options(Request(options, mask)) == options
    ensures Mask(Trigger(mask)) == mask
  {
  }

  /** The bits a request takes out of circulation. */
  function Claim(data: Swap): Bits {
    if Consumes(data) then Mask(data) else 0
  }

  /** One round of the notify loop: what is left of n after this waiter. */
  function Left(data: Swap, n: Bits): Bits {
    if Consumes(data) then Minus(n, And(n, Mask(data))) else n
  }

  lemma LeftUnclaimed(data: Swap, n: Bits)
    ensures Left(data, n) == Minus(n, Claim(data))
    ensures And(n, Mask(data)) == 0 ==> Left(data, n) == n
  {
    hide Consumes, Mask, And, Minus;
    Cleared(n, Mask(data));
    MinusNone(n);
  }

  lemma Cleared(n: Bits, m: Bits)
    ensures Minus(n, And(n, m)) == Minus(n, m)
  {
  }

  lemma MinusNone(n: Bits)
    ensures Minus(n, 0) == n
  {
  }

  lemma MinusTwice(n: Bits, a: Bits, b: Bits)
    ensures Minus(Minus(n, a), b) == Minus(n, Or(a, b))
  {
  }

  lemma FromNone(c: Bits)
    ensures Minus(0, c) == 0 && And(0, c) == 0
  {
  }

  /** Bits that miss a mask still miss it when some are taken away, and so does their union. */
  lemma MinusMisses(n: Bits, a: Bits, m: Bits)
    requires And(n, m) == 0
    ensures And(Minus(n, a), m) == 0
  {
  }

  lemma OrMisses(a: Bits, b: Bits, m: Bits)
    requires And(a, m) == 0 && And(b, m) == 0
    ensures And(Or(a, b), m) == 0
  {
    assert (a | b) & m == (a & m) | (b & m);
  }

  lemma ByteKept(a: Bits, b: Bits)
    requires IsByte(a)
    ensures IsByte(Minus(a, b)) && IsByte(And(a, b)) && (IsByte(b) ==> IsByte(Or(a, b)))
  {
  }

  lemma OrAbsorbs(a: Bits, m: Bits, b: Bits)
    ensures Or(a, Or(m, b)) == Or(Or(a, m), b)
  {
  }

  /** Bits taken away are not there. */
  lemma MinusGone(n: Bits, a: Bits, m: Bits, b: Bits, x: Bits)
    ensures And(And(Minus(n, Or(a, Or(m, b))), x), m) == 0
  {
  }

  /** Bits cleared by a mask, and the bits outside it. */
  lemma ClearedExact(a: Bits, m: Bits)
    ensures And(Minus(a, m), m) == 0 && Minus(Minus(a, m), m) == Minus(a, m) && And(Minus(a, m), And(a, m)) == 0
  {
  }

  /** New bits that somebody claimed are not among the old ones and the unclaimed ones. */
  lemma ClaimedGone(value: Bits, flags: Bits, claimed: Bits)
    ensures And(Or(flags, Minus(Minus(value, flags), claimed)), And(Minus(value, flags), claimed)) == 0
  {
  }

  /** A part of bits that are not set is not set. */
  lemma PartMisses(a: Bits, n: Bits, b: Bits)
    requires And(a, n) == 0 && Minus(b, n) == 0
    ensures And(a, b) == 0
  {
  }

  lemma AndSwaps(a: Bits, b: Bits, c: Bits)
    ensures And(And(a, b), c) == And(And(a, c), b)
  {
  }
}
