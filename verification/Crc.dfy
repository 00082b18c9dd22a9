/**
 The SRSD checksum: the 16-bit frame check sequence of Appendix C.2 of
 RFC 1662, computed four bits at a time without a table.
 */
module Crc {

  const INITIAL: bv16 := 0xFFFF
  const GOOD: bv16 := 0xF0B8
  const POLYNOMIAL: bv16 := 0x8408

  /** One bit of the reflected CRC with polynomial 0x8408. */
  function BitStep(crc: bv16): bv16 {
    if crc & 1 == 1 then (crc >> 1) ^ POLYNOMIAL else crc >> 1
  }

  function FourBits(crc: bv16): bv16 {
    BitStep(BitStep(BitStep(BitStep(crc))))
  }

  function EightBits(crc: bv16): bv16 {
    FourBits(FourBits(crc))
  }

  /** One byte, bit by bit, lowest bit first. */
  function ByteStep(crc: bv16, b: bv8): bv16 {
    EightBits(Sum(crc, Wide(b)))
  }

  /** The program's `ch`, eight bits wide: the byte mixed with the low half of the register ... */
  function MixLow(crc: bv16, b: bv8): bv8 {
    b ^ ((crc & 0xFF) as bv8)
  }

  /** ... then its low nibble added to its high nibble. */
  function Smear(ch: bv8): bv8 {
    ch ^ (ch << 4)
  }

  /** The new register, sixteen bits wide. */
  function Spread(crc: bv16, ch: bv8): bv16 {
    (crc >> 8) ^ ((ch as bv16) << 8) ^ ((ch as bv16) << 3) ^ ((ch as bv16) >> 4)
  }

  /** One byte as the program computes it. */
  function NibbleStep(crc: bv16, b: bv8): bv16 {
    Spread(crc, Smear(MixLow(crc, b)))
  }

  /** The register after a message. */
  function Register(crc: bv16, data: seq<bv8>): bv16
    decreases |data|
  {
    if data == [] then crc else Register(ByteStep(crc, data[0]), data[1..])
  }

  function Complement(w: bv16): bv16 { !w }

  function Low(w: bv16): bv8 { (w & 0xFF) as bv8 }

  function High(w: bv16): bv8 { (w >> 8) as bv8 }

  /** The check sequence: the complemented register, low byte first; two ASCII zeros for no data. */
  function Fcs(data: seq<bv8>): seq<bv8> {
    if data == [] then [0x30, 0x30]
    else [Low(Complement(Register(INITIAL, data))), High(Complement(Register(INITIAL, data)))]
  }

  // ------------------------------------------------------------------
  // Single steps

  /** The sum of two bit strings. */
  function Sum(v: bv16, w: bv16): bv16 { v ^ w }

  function Wide(b: bv8): bv16 { b as bv16 }

  function Shift4(w: bv16): bv16 { w >> 4 }

  /** What the four bits shifted out feed back. */
  function Feedback(c: bv16): bv16 {
    (c & 0xF) ^ ((c & 0xF) << 7) ^ ((c & 0xF) << 12)
  }

  /** Four bit steps in closed form. */
  function FourClosed(c: bv16): bv16 {
    Sum(Shift4(c), Feedback(c))
  }

  lemma SumLaws(x: bv16, y: bv16, z: bv16)
    ensures Sum(Sum(x, y), z) == Sum(x, Sum(y, z))
    ensures Sum(x, 0) == x
    ensures Sum(x, y) == Sum(x, z) ==> y == z
  {
  }

  lemma SumCommutes(x: bv16, y: bv16)
    ensures Sum(x, y) == Sum(y, x)
  {
  }

  lemma Exchange(a: bv16, b: bv16, c: bv16, d: bv16)
    ensures Sum(Sum(a, b), Sum(c, d)) == Sum(Sum(a, c), Sum(b, d))
  {
    hide Sum;
    SumLaws(a, b, Sum(c, d));
    SumLaws(b, c, d);
    SumCommutes(b, c);
    SumLaws(c, b, d);
    SumLaws(a, c, Sum(b, d));
  }

  lemma ShiftsAdd(v: bv16, w: bv16)
    ensures Shift4(Sum(v, w)) == Sum(Shift4(v), Shift4(w))
    ensures Feedback(Sum(v, w)) == Sum(Feedback(v), Feedback(w))
  {
  }

  lemma FourClosedAdds(v: bv16, w: bv16)
    ensures FourClosed(Sum(v, w)) == Sum(FourClosed(v), FourClosed(w))
  {
    hide Sum, Shift4, Feedback;
    ShiftsAdd(v, w);
    Exchange(Shift4(v), Shift4(w), Feedback(v), Feedback(w));
  }

  function Down1(w: bv16): bv16 { w >> 1 }

  predicate Odd(w: bv16) { w & 1 == 1 }

  lemma BitByParity(w: bv16)
    ensures BitStep(w) == if Odd(w) then Sum(Down1(w), POLYNOMIAL) else Down1(w)
  {
  }

  lemma OddSum(v: bv16, w: bv16)
    ensures Odd(Sum(v, w)) <==> Odd(v) != Odd(w)
    ensures Down1(Sum(v, w)) == Sum(Down1(v), Down1(w))
  {
  }

  lemma SumWithItself(w: bv16)
    ensures Sum(w, w) == 0
  {
  }

  lemma BitStepAdds(v: bv16, w: bv16)
    ensures BitStep(Sum(v, w)) == Sum(BitStep(v), BitStep(w))
  {
    hide BitStep, Sum, Down1, Odd;
    BitByParity(v);
    BitByParity(w);
    BitByParity(Sum(v, w));
    OddSum(v, w);
    var x, y := Down1(v), Down1(w);
    if Odd(v) && Odd(w) {
      Exchange(x, POLYNOMIAL, y, POLYNOMIAL);
      SumWithItself(POLYNOMIAL);
      SumLaws(Sum(x, y), 0, 0);
    } else if Odd(v) {
      SumLaws(x, POLYNOMIAL, y);
      SumCommutes(POLYNOMIAL, y);
      SumLaws(x, y, POLYNOMIAL);
    } else if Odd(w) {
      SumLaws(x, y, POLYNOMIAL);
    }
  }

  lemma FourBitsAdd(v: bv16, w: bv16)
    ensures FourBits(Sum(v, w)) == Sum(FourBits(v), FourBits(w))
  {
    hide BitStep, Sum;
    BitStepAdds(v, w);
    BitStepAdds(BitStep(v), BitStep(w));
    BitStepAdds(BitStep(BitStep(v)), BitStep(BitStep(w)));
    BitStepAdds(BitStep(BitStep(BitStep(v))), BitStep(BitStep(BitStep(w))));
  }

  function LowNibble(c: bv16): bv16 { c & 0xF }

  function HighNibbles(c: bv16): bv16 { c & 0xFFF0 }

  lemma Nibbles(c: bv16)
    ensures c == Sum(HighNibbles(c), LowNibble(c))
    ensures Feedback(HighNibbles(c)) == 0
  {
  }

  lemma HighNibblesGoDown(c: bv16)
    ensures var h := HighNibbles(c);
            && !Odd(h) && !Odd(Down1(h)) && !Odd(Down1(Down1(h))) && !Odd(Down1(Down1(Down1(h))))
            && Down1(Down1(Down1(Down1(h)))) == Shift4(h)
  {
  }

  lemma FourBitsOfHigh(c: bv16)
    ensures FourBits(HighNibbles(c)) == Shift4(HighNibbles(c))
  {
    hide BitStep, Sum, Down1, Odd, Shift4, HighNibbles;
    HighNibblesGoDown(c);
    var h := HighNibbles(c);
    BitByParity(h);
    BitByParity(Down1(h));
    BitByParity(Down1(Down1(h)));
    BitByParity(Down1(Down1(Down1(h))));
  }

  function BitOnly(on: bool, w: bv16): bv16 { if on then w else 0 }

  function LowPair(c: bv16): bv16 { c & 3 }

  function HighPair(c: bv16): bv16 { c & 12 }

  lemma NibblePairs(c: bv16)
    ensures LowNibble(c) == Sum(LowPair(c), HighPair(c))
  {
  }

  lemma LowPairBits(c: bv16)
    ensures LowPair(c) == Sum(BitOnly(c & 1 == 1, 1), BitOnly(c & 2 == 2, 2))
  {
  }

  lemma HighPairBits(c: bv16)
    ensures HighPair(c) == Sum(BitOnly(c & 4 == 4, 4), BitOnly(c & 8 == 8, 8))
  {
  }

  lemma LowNibbleBits(c: bv16)
    ensures LowNibble(c) == Sum(Sum(BitOnly(c & 1 == 1, 1), BitOnly(c & 2 == 2, 2)),
                                Sum(BitOnly(c & 4 == 4, 4), BitOnly(c & 8 == 8, 8)))
  {
    hide BitOnly, Sum, LowNibble, LowPair, HighPair;
    NibblePairs(c);
    LowPairBits(c);
    HighPairBits(c);
  }

  lemma FourClosedOfBits()
    ensures FourBits(0) == FourClosed(0) && FourBits(1) == FourClosed(1) && FourBits(2) == FourClosed(2)
    ensures FourBits(4) == FourClosed(4) && FourBits(8) == FourClosed(8)
  {
  }

  lemma FourBitsOfLow(c: bv16)
    ensures FourBits(LowNibble(c)) == FourClosed(LowNibble(c))
  {
    hide FourBits, FourClosed, Sum, LowNibble;
    LowNibbleBits(c);
    FourClosedOfBits();
    var b0, b1 := BitOnly(c & 1 == 1, 1), BitOnly(c & 2 == 2, 2);
    var b2, b3 := BitOnly(c & 4 == 4, 4), BitOnly(c & 8 == 8, 8);
    FourBitsAdd(Sum(b0, b1), Sum(b2, b3));
    FourBitsAdd(b0, b1);
    FourBitsAdd(b2, b3);
    FourClosedAdds(Sum(b0, b1), Sum(b2, b3));
    FourClosedAdds(b0, b1);
    FourClosedAdds(b2, b3);
  }

  lemma FourBitsClosed(c: bv16)
    ensures FourBits(c) == FourClosed(c)
  {
    hide FourBits, FourClosed, Sum, Shift4, Feedback, HighNibbles, LowNibble;
    Nibbles(c);
    FourBitsAdd(HighNibbles(c), LowNibble(c));
    FourClosedAdds(HighNibbles(c), LowNibble(c));
    FourBitsOfHigh(c);
    HighIsClosed(c);
    FourBitsOfLow(c);
  }

  lemma HighIsClosed(c: bv16)
    ensures FourClosed(HighNibbles(c)) == Shift4(HighNibbles(c))
  {
    hide Sum, Shift4, Feedback, HighNibbles;
    Nibbles(c);
    SumLaws(Shift4(HighNibbles(c)), 0, 0);
  }

  function UpperPart(c: bv16): bv16 { c & 0xFF00 }

  function LowerPart(c: bv16): bv16 { c & 0xFF }

  lemma Parts(c: bv16)
    ensures c == Sum(UpperPart(c), LowerPart(c))
  {
  }

  function Down8(c: bv16): bv16 { c >> 8 }

  lemma UpperPartMoves(c: bv16)
    ensures FourClosed(FourClosed(UpperPart(c))) == Down8(c)
  {
  }

  lemma LowerPartSpreads(c: bv16)
    ensures FourClosed(FourClosed(LowerPart(c))) == Spread(0, Smear(LowerPart(c) as bv8))
  {
  }

  function Left8(ch: bv8): bv16 { (ch as bv16) << 8 }

  function Left3(ch: bv8): bv16 { (ch as bv16) << 3 }

  function Right4(ch: bv8): bv16 { (ch as bv16) >> 4 }

  lemma SpreadParts(crc: bv16, ch: bv8)
    ensures Spread(crc, ch) == Sum(Sum(Sum(Down8(crc), Left8(ch)), Left3(ch)), Right4(ch))
    ensures Down8(0) == 0
  {
  }

  lemma SpreadAdds(crc: bv16, ch: bv8)
    ensures Spread(crc, ch) == Sum(Down8(crc), Spread(0, ch))
  {
    hide Spread, Sum, Down8, Left8, Left3, Right4;
    SpreadParts(crc, ch);
    SpreadParts(0, ch);
    var d, x, y, z := Down8(crc), Left8(ch), Left3(ch), Right4(ch);
    SumCommutes(0, x);
    SumLaws(x, 0, 0);
    SumLaws(d, x, y);
    SumLaws(d, Sum(x, y), z);
  }

  lemma ByteMixedIn(crc: bv16, b: bv8)
    ensures LowerPart(Sum(crc, Wide(b))) as bv8 == MixLow(crc, b)
    ensures Down8(Sum(crc, Wide(b))) == Down8(crc)
  {
  }

  lemma ByteClosed(crc: bv16, b: bv8)
    ensures FourClosed(FourClosed(Sum(crc, Wide(b)))) == NibbleStep(crc, b)
  {
    hide FourClosed, Sum, Wide, Spread, Smear, MixLow, UpperPart, LowerPart, Down8;
    var c := Sum(crc, Wide(b));
    Parts(c);
    FourClosedAdds(UpperPart(c), LowerPart(c));
    FourClosedAdds(FourClosed(UpperPart(c)), FourClosed(LowerPart(c)));
    UpperPartMoves(c);
    LowerPartFits(c);
    LowerPartSpreads(c);
    ByteMixedIn(crc, b);
    SpreadAdds(crc, Smear(MixLow(crc, b)));
  }

  lemma LowerPartFits(c: bv16)
    ensures LowerPart(c) < 256
  {
  }

  /** The branch-free byte step is the bit-by-bit one. */
  lemma NibbleIsByte(crc: bv16, b: bv8)
    ensures NibbleStep(crc, b) == ByteStep(crc, b)
  {
    hide FourBits, FourClosed, NibbleStep, Sum, Wide;
    ByteClosed(crc, b);
    var c := Sum(crc, Wide(b));
    FourBitsClosed(c);
    FourBitsClosed(FourBits(c));
  }

  lemma BitInjective(v: bv16, w: bv16)
    ensures BitStep(v) == BitStep(w) ==> v == w
  {
  }

  lemma EightBitsInjective(v: bv16, w: bv16)
    ensures EightBits(v) == EightBits(w) ==> v == w
  {
    FourBitsInjective(v, w);
    FourBitsInjective(FourBits(v), FourBits(w));
    hide FourBits;
  }

  lemma FourBitsInjective(v: bv16, w: bv16)
    ensures FourBits(v) == FourBits(w) ==> v == w
  {
    BitInjective(v, w);
    BitInjective(BitStep(v), BitStep(w));
    BitInjective(BitStep(BitStep(v)), BitStep(BitStep(w)));
    BitInjective(BitStep(BitStep(BitStep(v))), BitStep(BitStep(BitStep(w))));
    hide BitStep;
  }

  lemma SumCancels(v: bv16, w: bv16, x: bv16)
    ensures Sum(v, x) == Sum(w, x) ==> v == w
  {
  }

  lemma StepInjective(v: bv16, w: bv16, b: bv8)
    ensures ByteStep(v, b) == ByteStep(w, b) ==> v == w
  {
    hide EightBits, Sum, Wide;
    EightBitsInjective(Sum(v, Wide(b)), Sum(w, Wide(b)));
    SumCancels(v, w, Wide(b));
  }

  /** A byte in the upper half of the register. */
  function Upper(b: bv8): bv16 { (b as bv16) << 8 }

  lemma UpperShifts(b: bv8)
    ensures Upper(b) & 0xF == 0 && Shift4(Upper(b)) & 0xF == 0 && Shift4(Shift4(Upper(b))) == Wide(b)
  {
  }

  lemma FourClosedOfSum(x: bv16, y: bv16)
    requires y & 0xF == 0
    ensures FourClosed(Sum(x, y)) == Sum(FourClosed(x), Shift4(y))
  {
    NoFeedback(y);
    FourClosedAdds(x, y);
    hide Sum, Shift4, Feedback, FourClosed;
  }

  lemma NoFeedback(y: bv16)
    requires y & 0xF == 0
    ensures FourClosed(y) == Shift4(y)
  {
  }

  lemma FourBitsOfSum(x: bv16, y: bv16)
    requires y & 0xF == 0
    ensures FourBits(Sum(x, y)) == Sum(FourBits(x), Shift4(y))
  {
    hide FourBits, FourClosed, Sum, Shift4;
    FourClosedOfSum(x, y);
    FourBitsClosed(x);
    FourBitsClosed(Sum(x, y));
  }

  lemma EightBitsOfSum(x: bv16, b: bv8)
    ensures EightBits(Sum(x, Upper(b))) == Sum(EightBits(x), Wide(b))
  {
    hide FourBits, Sum, Shift4, Upper, Wide;
    UpperShifts(b);
    FourBitsOfSum(x, Upper(b));
    FourBitsOfSum(FourBits(x), Shift4(Upper(b)));
  }

  /** Two bytes are two rounds over the register with both bytes mixed in at once. */
  lemma TwoStepsClosed(w: bv16, a: bv8, b: bv8)
    ensures ByteStep(ByteStep(w, a), b) == EightBits(EightBits(Sum(Sum(w, Wide(a)), Upper(b))))
  {
    hide EightBits, Sum, Upper, Wide;
    EightBitsOfSum(Sum(w, Wide(a)), b);
  }

  lemma TwoStepsInjective(w: bv16, a: bv8, b: bv8, c: bv8, d: bv8)
    ensures ByteStep(ByteStep(w, a), b) == ByteStep(ByteStep(w, c), d) ==> a == c && b == d
  {
    hide EightBits, ByteStep, Sum, Upper, Wide;
    TwoStepsClosed(w, a, b);
    TwoStepsClosed(w, c, d);
    var x, y := Sum(Sum(w, Wide(a)), Upper(b)), Sum(Sum(w, Wide(c)), Upper(d));
    EightBitsInjective(x, y);
    EightBitsInjective(EightBits(x), EightBits(y));
    MixInjective(w, a, b, c, d);
  }

  lemma MixInjective(w: bv16, a: bv8, b: bv8, c: bv8, d: bv8)
    ensures Sum(Sum(w, Wide(a)), Upper(b)) == Sum(Sum(w, Wide(c)), Upper(d)) ==> a == c && b == d
  {
  }

  /** From any register, its own complemented bytes lead to the constant of the standard. */
  lemma Residue(w: bv16)
    ensures ByteStep(ByteStep(w, Low(Complement(w))), High(Complement(w))) == GOOD
  {
  }

  // ------------------------------------------------------------------
  // Whole messages

  lemma {:induction false} RegisterConcat(crc: bv16, a: seq<bv8>, b: seq<bv8>)
    ensures Register(crc, a + b) == Register(Register(crc, a), b)
    decreases |a|
  {
    if a == [] {
      assert a + b == b;
    } else {
      assert (a + b)[0] == a[0] && (a + b)[1..] == a[1..] + b;
      RegisterConcat(ByteStep(crc, a[0]), a[1..], b);
    }
  }

  lemma {:induction false} RegisterInjective(v: bv16, w: bv16, data: seq<bv8>)
    ensures Register(v, data) == Register(w, data) ==> v == w
    decreases |data|
  {
    hide ByteStep;
    if data != [] {
      StepInjective(v, w, data[0]);
      RegisterInjective(ByteStep(v, data[0]), ByteStep(w, data[0]), data[1..]);
    }
  }

  lemma RegisterOfTwo(crc: bv16, a: bv8, b: bv8)
    ensures Register(crc, [a, b]) == ByteStep(ByteStep(crc, a), b)
  {
    hide ByteStep;
    assert [a, b][1..] == [b];
    assert [b][1..] == [];
    assert Register(ByteStep(crc, a), [b]) == Register(ByteStep(ByteStep(crc, a), b), []);
  }

  /** Every non-empty message followed by its check sequence leaves the constant of the standard. */
  lemma MessageWithFcsIsGood(data: seq<bv8>)
    requires data != []
    ensures Register(INITIAL, data + Fcs(data)) == GOOD
  {
    hide ByteStep, Low, High, Complement;
    var w := Register(INITIAL, data);
    RegisterConcat(INITIAL, data, Fcs(data));
    RegisterOfTwo(w, Low(Complement(w)), High(Complement(w)));
    Residue(w);
  }

  lemma FcsDetermines(a: seq<bv8>, b: seq<bv8>)
    requires a != [] && b != []
    ensures Fcs(a) == Fcs(b) <==> Register(INITIAL, a) == Register(INITIAL, b)
  {
    hide Register, Low, High, Complement;
    var v, w := Register(INITIAL, a), Register(INITIAL, b);
    HalvesDetermine(v, w);
    if Fcs(a) == Fcs(b) { assert Fcs(a)[0] == Fcs(b)[0] && Fcs(a)[1] == Fcs(b)[1]; }
  }

  lemma HalvesDetermine(v: bv16, w: bv16)
    ensures Low(Complement(v)) == Low(Complement(w)) && High(Complement(v)) == High(Complement(w)) ==> v == w
  {
  }

  lemma PairsDiffer(a: bv8, b: bv8, c: bv8, d: bv8)
    requires [a, b] != [c, d]
    ensures a != c || b != d
  {
  }

  /** Damage confined to two neighbouring bytes always changes the check sequence, at any length. */
  lemma BurstDetected(head: seq<bv8>, a: bv8, b: bv8, c: bv8, d: bv8, tail: seq<bv8>)
    requires [a, b] != [c, d]
    ensures Fcs(head + [a, b] + tail) != Fcs(head + [c, d] + tail)
  {
    hide ByteStep, Fcs;
    var w := Register(INITIAL, head);
    RegisterConcat(INITIAL, head + [a, b], tail);
    RegisterConcat(INITIAL, head + [c, d], tail);
    RegisterConcat(INITIAL, head, [a, b]);
    RegisterConcat(INITIAL, head, [c, d]);
    RegisterOfTwo(w, a, b);
    RegisterOfTwo(w, c, d);
    TwoStepsInjective(w, a, b, c, d);
    assert a != c || b != d by { PairsDiffer(a, b, c, d); }
    RegisterInjective(Register(w, [a, b]), Register(w, [c, d]), tail);
    FcsDetermines(head + [a, b] + tail, head + [c, d] + tail);
  }

  // ------------------------------------------------------------------
  // Bursts of bits

  function BitOnce(on: bool): bv16 { BitOnly(on, 1) }

  function BitFeed(crc: bv16, on: bool): bv16 { BitStep(Sum(crc, BitOnce(on))) }

  /** The register after single bits. */
  function BitRegister(crc: bv16, bits: seq<bool>): bv16
    decreases |bits|
  {
    if bits == [] then crc else BitRegister(BitFeed(crc, bits[0]), bits[1..])
  }

  /** The bits of a byte in the order they are sent, lowest first. */
  function ByteBits(b: bv8): (bits: seq<bool>)
    ensures |bits| == 8
  {
    [b & 1 == 1, b & 2 == 2, b & 4 == 4, b & 8 == 8, b & 16 == 16, b & 32 == 32, b & 64 == 64, b & 128 == 128]
  }

  function Bits(data: seq<bv8>): (bits: seq<bool>)
    ensures |bits| == 8 * |data|
  {
    if data == [] then [] else ByteBits(data[0]) + Bits(data[1..])
  }

  function Up1(w: bv16): bv16 { w << 1 }

  /** At most sixteen bits as a word, the first bit lowest. */
  function Word(bits: seq<bool>): bv16 {
    if bits == [] then 0 else Sum(Up1(Word(bits[1..])), BitOnce(bits[0]))
  }

  /** The positions that n bits do not reach. */
  function Beyond(n: nat): bv16
    requires n <= 15
  {
    if n == 0 then 0xFFFF else if n == 1 then 0xFFFE else if n == 2 then 0xFFFC else if n == 3 then 0xFFF8
    else if n == 4 then 0xFFF0 else if n == 5 then 0xFFE0 else if n == 6 then 0xFFC0 else if n == 7 then 0xFF80
    else if n == 8 then 0xFF00 else if n == 9 then 0xFE00 else if n == 10 then 0xFC00 else if n == 11 then 0xF800
    else if n == 12 then 0xF000 else if n == 13 then 0xE000 else if n == 14 then 0xC000 else 0x8000
  }

  /** No bit of the word is at one of the positions. */
  predicate Clear(w: bv16, mask: bv16) { w & mask == 0 }

  lemma BeyondMoves(n: nat)
    requires n < 15
    ensures Beyond(n + 1) == Up1(Beyond(n))
  {
  }

  lemma ShiftIsClear(x: bv16, mask: bv16)
    requires Clear(x, mask)
    ensures Clear(Up1(x), Up1(mask)) && Clear(Sum(Up1(x), 1), Up1(mask))
  {
  }

  lemma PushIsClear(x: bv16, mask: bv16, on: bool)
    requires Clear(x, mask)
    ensures Clear(Sum(Up1(x), BitOnce(on)), Up1(mask))
  {
    hide Clear, Sum, Up1;
    ShiftIsClear(x, mask);
    SumLaws(Up1(x), 0, 0);
  }

  lemma {:induction false} WordIsClear(bits: seq<bool>)
    requires |bits| <= 15
    ensures Clear(Word(bits), Beyond(|bits|))
  {
    hide Sum, Up1, BitOnce, Beyond, Clear;
    if bits == [] {
      NothingIsClear(Beyond(0));
    } else {
      WordIsClear(bits[1..]);
      BeyondMoves(|bits| - 1);
      PushIsClear(Word(bits[1..]), Beyond(|bits| - 1), bits[0]);
    }
  }

  lemma NothingIsClear(mask: bv16)
    ensures Clear(0, mask)
  {
  }

  /** The highest bit is not set. */
  predicate Room(w: bv16) { w & 0x8000 == 0 }

  lemma BeyondHasTop(w: bv16, n: nat)
    requires n <= 15 && Clear(w, Beyond(n))
    ensures Room(w)
  {
  }

  lemma WordHasRoom(bits: seq<bool>)
    requires |bits| <= 15
    ensures Room(Word(bits))
  {
    hide Word, Beyond, Clear, Room;
    WordIsClear(bits);
    BeyondHasTop(Word(bits), |bits|);
  }

  lemma UpThenStep(x: bv16)
    requires Room(x)
    ensures BitStep(Up1(x)) == x
  {
  }

  lemma UpIsEven(x: bv16)
    ensures !Odd(Up1(x))
  {
  }

  lemma UpUndone(x: bv16)
    requires Room(x)
    ensures Down1(Up1(x)) == x
  {
  }

  lemma One()
    ensures Odd(1) && Down1(1) == 0
  {
  }

  lemma PushUndone(x: bv16, on: bool)
    requires Room(x)
    ensures var w := Sum(Up1(x), BitOnce(on)); Odd(w) == on && Down1(w) == x
  {
    hide Room, Sum, Up1, Odd, Down1;
    UpIsEven(x);
    UpUndone(x);
    if on {
      OddSum(Up1(x), 1);
      One();
      SumLaws(x, 0, 0);
    } else {
      SumLaws(Up1(x), 0, 0);
    }
  }

  lemma PushInjective(x: bv16, y: bv16, on: bool, off: bool)
    requires Room(x) && Room(y) && Sum(Up1(x), BitOnce(on)) == Sum(Up1(y), BitOnce(off))
    ensures x == y && on == off
  {
    hide Room, Sum, Up1, BitOnce, Odd, Down1;
    PushUndone(x, on);
    PushUndone(y, off);
  }

  function Steps(n: nat, w: bv16): bv16 {
    if n == 0 then w else Steps(n - 1, BitStep(w))
  }

  /** Feeding at most sixteen bits one by one is mixing them in at once and then making as many steps. */
  lemma {:induction false} Packed(crc: bv16, bits: seq<bool>)
    requires |bits| <= 16
    ensures BitRegister(crc, bits) == Steps(|bits|, Sum(crc, Word(bits)))
    decreases |bits|
  {
    hide Sum, Up1, BitOnce, BitStep;
    if bits == [] {
      SumLaws(crc, 0, 0);
    } else {
      var rest, bit := Word(bits[1..]), BitOnce(bits[0]);
      WordHasRoom(bits[1..]);
      UpThenStep(rest);
      SumCommutes(Up1(rest), bit);
      SumLaws(crc, bit, Up1(rest));
      BitStepAdds(Sum(crc, bit), Up1(rest));
      Packed(BitFeed(crc, bits[0]), bits[1..]);
    }
  }

  lemma {:induction false} WordInjective(u: seq<bool>, v: seq<bool>)
    requires |u| == |v| <= 16 && Word(u) == Word(v)
    ensures u == v
  {
    hide Sum, Up1, BitOnce;
    if u != [] {
      WordHasRoom(u[1..]);
      WordHasRoom(v[1..]);
      PushInjective(Word(u[1..]), Word(v[1..]), u[0], v[0]);
      WordInjective(u[1..], v[1..]);
      assert u == [u[0]] + u[1..] && v == [v[0]] + v[1..];
    }
  }

  lemma {:induction false} StepsInjective(n: nat, v: bv16, w: bv16)
    ensures Steps(n, v) == Steps(n, w) ==> v == w
  {
    hide BitStep;
    if n > 0 {
      StepsInjective(n - 1, BitStep(v), BitStep(w));
      BitInjective(v, w);
    }
  }

  /** At most sixteen bits fed into one register can be told apart. */
  lemma WindowInjective(crc: bv16, u: seq<bool>, v: seq<bool>)
    requires |u| == |v| <= 16 && BitRegister(crc, u) == BitRegister(crc, v)
    ensures u == v
  {
    hide BitRegister, Steps, Sum, Word;
    Packed(crc, u);
    Packed(crc, v);
    StepsInjective(|u|, Sum(crc, Word(u)), Sum(crc, Word(v)));
    SumLaws(crc, Word(u), Word(v));
    WordInjective(u, v);
  }

  /** Four bits in front of a word. */
  function PushFour(w: bv16, b0: bool, b1: bool, b2: bool, b3: bool): bv16 {
    Sum(Up1(Sum(Up1(Sum(Up1(Sum(Up1(w), BitOnce(b3))), BitOnce(b2))), BitOnce(b1))), BitOnce(b0))
  }

  lemma WordPop(s: seq<bool>, k: nat)
    requires k < |s|
    ensures Word(s[k..]) == Sum(Up1(Word(s[k + 1..])), BitOnce(s[k]))
  {
    hide Sum, Up1, BitOnce;
    assert s[k..][1..] == s[k + 1..] && s[k..][0] == s[k];
  }

  lemma WordPopFour(s: seq<bool>, k: nat)
    requires k + 4 <= |s|
    ensures Word(s[k..]) == PushFour(Word(s[k + 4..]), s[k], s[k + 1], s[k + 2], s[k + 3])
  {
    hide Word, Sum, Up1, BitOnce;
    WordPop(s, k);
    WordPop(s, k + 1);
    WordPop(s, k + 2);
    WordPop(s, k + 3);
  }

  lemma WordOfEight(s: seq<bool>)
    requires |s| == 8
    ensures Word(s) == PushFour(PushFour(0, s[4], s[5], s[6], s[7]), s[0], s[1], s[2], s[3])
  {
    assert Word([]) == 0;
    assert s[0..] == s && s[8..] == [];
    hide Word, PushFour;
    WordPopFour(s, 0);
    WordPopFour(s, 4);
  }

  lemma EightIsByte(b: bv8)
    ensures PushFour(PushFour(0, b & 16 == 16, b & 32 == 32, b & 64 == 64, b & 128 == 128),
                     b & 1 == 1, b & 2 == 2, b & 4 == 4, b & 8 == 8) == Wide(b)
  {
  }

  lemma WordOfByte(b: bv8)
    ensures Word(ByteBits(b)) == Wide(b)
  {
    hide Word, PushFour, Wide;
    WordOfEight(ByteBits(b));
    EightIsByte(b);
  }

  lemma ByteByBits(crc: bv16, b: bv8)
    ensures BitRegister(crc, ByteBits(b)) == ByteStep(crc, b)
  {
    Packed(crc, ByteBits(b));
    WordOfByte(b);
    EightSteps(Sum(crc, Wide(b)));
    hide BitRegister, Word, ByteBits, Steps, EightBits, Sum, Wide;
  }

  lemma FourMore(n: nat, w: bv16)
    ensures Steps(n + 4, w) == Steps(n, FourBits(w))
  {
    hide BitStep;
    var x := BitStep(w);
    var y := BitStep(x);
    var z := BitStep(y);
    assert Steps(n + 4, w) == Steps(n + 3, x);
    assert Steps(n + 3, x) == Steps(n + 2, y);
    assert Steps(n + 2, y) == Steps(n + 1, z);
  }

  lemma EightSteps(w: bv16)
    ensures Steps(8, w) == EightBits(w)
  {
    hide FourBits;
    FourMore(4, w);
    FourMore(0, FourBits(w));
  }

  lemma {:induction false} BitRegisterConcat(crc: bv16, a: seq<bool>, b: seq<bool>)
    ensures BitRegister(crc, a + b) == BitRegister(BitRegister(crc, a), b)
    decreases |a|
  {
    hide BitFeed;
    if a == [] {
      assert a + b == b;
    } else {
      assert (a + b)[0] == a[0] && (a + b)[1..] == a[1..] + b;
      BitRegisterConcat(BitFeed(crc, a[0]), a[1..], b);
    }
  }

  lemma {:induction false} BitRegisterInjective(v: bv16, w: bv16, bits: seq<bool>)
    ensures BitRegister(v, bits) == BitRegister(w, bits) ==> v == w
    decreases |bits|
  {
    hide BitStep, Sum, BitOnce;
    if bits != [] {
      BitRegisterInjective(BitFeed(v, bits[0]), BitFeed(w, bits[0]), bits[1..]);
      BitInjective(Sum(v, BitOnce(bits[0])), Sum(w, BitOnce(bits[0])));
      SumCancels(v, w, BitOnce(bits[0]));
    }
  }

  /** The register of the bytes is that of their bits. */
  lemma {:induction false} RegisterByBits(crc: bv16, data: seq<bv8>)
    ensures Register(crc, data) == BitRegister(crc, Bits(data))
    decreases |data|
  {
    hide ByteStep, ByteBits, BitFeed;
    if data != [] {
      ByteByBits(crc, data[0]);
      BitRegisterConcat(crc, ByteBits(data[0]), Bits(data[1..]));
      RegisterByBits(ByteStep(crc, data[0]), data[1..]);
    }
  }

  lemma ByteBitsInjective(a: bv8, b: bv8)
    requires ByteBits(a) == ByteBits(b)
    ensures a == b
  {
    WordOfByte(a);
    WordOfByte(b);
    WideInjective(a, b);
    hide ByteBits, Word, Wide;
  }

  lemma WideInjective(a: bv8, b: bv8)
    ensures Wide(a) == Wide(b) ==> a == b
  {
  }

  lemma {:induction false} BitsInjective(a: seq<bv8>, b: seq<bv8>)
    requires |a| == |b| && Bits(a) == Bits(b)
    ensures a == b
  {
    hide ByteBits;
    if a != [] {
      assert ByteBits(a[0]) == Bits(a)[..8] == Bits(b)[..8] == ByteBits(b[0]);
      ByteBitsInjective(a[0], b[0]);
      assert Bits(a[1..]) == Bits(a)[8..] == Bits(b)[8..] == Bits(b[1..]);
      BitsInjective(a[1..], b[1..]);
      assert a == [a[0]] + a[1..] && b == [b[0]] + b[1..];
    }
  }

  lemma RegisterOfParts(crc: bv16, x: seq<bool>, y: seq<bool>, z: seq<bool>)
    ensures BitRegister(crc, x + y + z) == BitRegister(BitRegister(BitRegister(crc, x), y), z)
  {
    hide BitRegister;
    BitRegisterConcat(crc, x + y, z);
    BitRegisterConcat(crc, x, y);
  }

  lemma WindowChanges(crc: bv16, head: seq<bool>, u: seq<bool>, v: seq<bool>, tail: seq<bool>)
    requires |u| == |v| <= 16 && u != v
    ensures BitRegister(crc, head + u + tail) != BitRegister(crc, head + v + tail)
  {
    hide BitRegister;
    RegisterOfParts(crc, head, u, tail);
    RegisterOfParts(crc, head, v, tail);
    var w := BitRegister(crc, head);
    BitRegisterInjective(BitRegister(w, u), BitRegister(w, v), tail);
    if BitRegister(w, u) == BitRegister(w, v) {
      WindowInjective(w, u, v);
    }
  }

  lemma AroundWindow(u: seq<bool>, v: seq<bool>, lo: nat, hi: nat)
    requires |u| == |v| && lo <= hi <= |u|
    requires forall i | 0 <= i < |u| && !(lo <= i < hi) :: u[i] == v[i]
    ensures u == u[..lo] + u[lo..hi] + u[hi..] && v == u[..lo] + v[lo..hi] + u[hi..]
  {
  }

  /**
   Damage confined to sixteen consecutive bits, wherever they begin, always
   changes the check sequence, at any length.
   */
  lemma BitBurstDetected(a: seq<bv8>, b: seq<bv8>, at: nat)
    requires |a| == |b| && a != b
    requires forall i | 0 <= i < 8 * |a| && !(at <= i < at + 16) :: Bits(a)[i] == Bits(b)[i]
    ensures Fcs(a) != Fcs(b)
  {
    hide Register, BitRegister, Bits, Fcs;
    var u, v := Bits(a), Bits(b);
    if u == v {
      BitsInjective(a, b);
    }
    var lo := if at < |u| then at else |u|;
    var hi := if at + 16 < |u| then at + 16 else |u|;
    AroundWindow(u, v, lo, hi);
    WindowChanges(INITIAL, u[..lo], u[lo..hi], v[lo..hi], u[hi..]);
    RegisterByBits(INITIAL, a);
    RegisterByBits(INITIAL, b);
    FcsDetermines(a, b);
  }

  // ------------------------------------------------------------------
  // Odd damage

  function Down2(w: bv16): bv16 { w >> 2 }

  function Fold8(w: bv16): bv16 { Sum(w, Down8(w)) }
  function Fold4(w: bv16): bv16 { Sum(w, Shift4(w)) }
  function Fold2(w: bv16): bv16 { Sum(w, Down2(w)) }
  function Fold1(w: bv16): bv16 { (w ^ (w >> 1)) & 1 }

  /** 1 when an odd number of bits are set. */
  function Parity(w: bv16): bv16 {
    Fold1(Fold2(Fold4(Fold8(w))))
  }

  function MessageParity(data: seq<bv8>): bv16
    decreases |data|
  {
    if data == [] then 0 else Sum(Parity(Wide(data[0])), MessageParity(data[1..]))
  }

  lemma DownsAdd(v: bv16, w: bv16)
    ensures Down8(Sum(v, w)) == Sum(Down8(v), Down8(w))
    ensures Down2(Sum(v, w)) == Sum(Down2(v), Down2(w))
  {
  }

  lemma FoldsAdd(v: bv16, w: bv16)
    ensures Fold8(Sum(v, w)) == Sum(Fold8(v), Fold8(w))
    ensures Fold4(Sum(v, w)) == Sum(Fold4(v), Fold4(w))
    ensures Fold2(Sum(v, w)) == Sum(Fold2(v), Fold2(w))
  {
    hide Sum, Down8, Shift4, Down2, Feedback;
    DownsAdd(v, w);
    ShiftsAdd(v, w);
    Exchange(v, w, Down8(v), Down8(w));
    Exchange(v, w, Shift4(v), Shift4(w));
    Exchange(v, w, Down2(v), Down2(w));
  }

  lemma Fold1Adds(v: bv16, w: bv16)
    ensures Fold1(Sum(v, w)) == Sum(Fold1(v), Fold1(w))
  {
  }

  lemma ParityAdds(v: bv16, w: bv16)
    ensures Parity(Sum(v, w)) == Sum(Parity(v), Parity(w))
  {
    hide Fold8, Fold4, Fold2, Fold1, Sum;
    FoldsAdd(v, w);
    FoldsAdd(Fold8(v), Fold8(w));
    FoldsAdd(Fold4(Fold8(v)), Fold4(Fold8(w)));
    Fold1Adds(Fold2(Fold4(Fold8(v))), Fold2(Fold4(Fold8(w))));
  }

  lemma LowHalfKeepsParity(w: bv16)
    requires w & 0xFF00 == 0
    ensures Parity(BitStep(w)) == Parity(w)
  {
  }

  lemma HighHalfKeepsParity(w: bv16)
    requires w & 0x00FF == 0
    ensures Parity(BitStep(w)) == Parity(w)
  {
  }

  lemma Halves(w: bv16)
    ensures w == Sum(w & 0x00FF, w & 0xFF00)
    ensures (w & 0x00FF) & 0xFF00 == 0 && (w & 0xFF00) & 0x00FF == 0
  {
  }

  lemma BitKeepsParity(w: bv16)
    ensures Parity(BitStep(w)) == Parity(w)
  {
    hide Parity, BitStep, Sum;
    Halves(w);
    SumKeepsParity(w & 0x00FF, w & 0xFF00);
  }

  lemma SumKeepsParity(l: bv16, h: bv16)
    requires l & 0xFF00 == 0 && h & 0x00FF == 0
    ensures Parity(BitStep(Sum(l, h))) == Parity(Sum(l, h))
  {
    hide Parity, BitStep, Sum;
    LowHalfKeepsParity(l);
    HighHalfKeepsParity(h);
    BitStepAdds(l, h);
    ParityAdds(l, h);
    ParityAdds(BitStep(l), BitStep(h));
  }

  lemma FourBitsKeepParity(w: bv16)
    ensures Parity(FourBits(w)) == Parity(w)
  {
    hide BitStep, Parity;
    BitKeepsParity(w);
    BitKeepsParity(BitStep(w));
    BitKeepsParity(BitStep(BitStep(w)));
    BitKeepsParity(BitStep(BitStep(BitStep(w))));
  }

  lemma StepParity(w: bv16, b: bv8)
    ensures Parity(ByteStep(w, b)) == Sum(Parity(w), Parity(Wide(b)))
  {
    hide FourBits, Parity;
    ParityAdds(w, Wide(b));
    FourBitsKeepParity(Sum(w, Wide(b)));
    FourBitsKeepParity(FourBits(Sum(w, Wide(b))));
  }

  lemma {:induction false} RegisterParity(w: bv16, data: seq<bv8>)
    ensures Parity(Register(w, data)) == Sum(Parity(w), MessageParity(data))
    decreases |data|
  {
    hide ByteStep, Parity, Sum;
    if data == [] {
      SumLaws(Parity(w), 0, 0);
    } else {
      StepParity(w, data[0]);
      RegisterParity(ByteStep(w, data[0]), data[1..]);
      SumLaws(Parity(w), Parity(Wide(data[0])), MessageParity(data[1..]));
    }
  }

  /** Messages that differ in an odd number of bits have different check sequences, at any length. */
  lemma OddDamageDetected(a: seq<bv8>, b: seq<bv8>)
    requires a != [] && b != [] && MessageParity(a) != MessageParity(b)
    ensures Fcs(a) != Fcs(b)
  {
    hide Parity, Fcs, Sum;
    RegisterParity(INITIAL, a);
    RegisterParity(INITIAL, b);
    SumLaws(Parity(INITIAL), MessageParity(a), MessageParity(b));
    FcsDetermines(a, b);
  }

  // ------------------------------------------------------------------

  /** `srsdCRC16`. */
  method Checksum(data: seq<bv8>) returns (crc: seq<bv8>)
    ensures crc == Fcs(data)
  {
    hide ByteStep, MixLow, Smear, Spread;
    if |data| == 0 { return [0x30, 0x30]; }
    var wCRC: bv16 := 0xFFFF;
    var i := 0;
    while i < |data|
      invariant 0 <= i <= |data|
      invariant Register(wCRC, data[i..]) == Register(INITIAL, data)
    {
      assert data[i..][0] == data[i] && data[i..][1..] == data[i + 1..];
      var b := data[i];
      NibbleIsByte(wCRC, b);
      var ch := MixLow(wCRC, b);
      ch := Smear(ch);
      wCRC := Spread(wCRC, ch);
      i := i + 1;
    }
    assert data[i..] == [];
    wCRC := !wCRC;
    crc := [(wCRC & 0xFF) as bv8, (wCRC >> 8) as bv8];
  }


  // ------------------------------------------------------------------
  // The Python agent: the same loop on wide integers, masked back to 8 and 16 bits

  function MaskedMix(wCRC: bv32, byte: bv32): bv32 {
    (byte ^ (wCRC & 0xFF)) & 0xFF
  }

  function MaskedSmear(ch: bv32): bv32 {
    (ch ^ ((ch << 4) & 0xFF)) & 0xFF
  }

  function MaskedSpread(wCRC: bv32, ch: bv32): bv32 {
    ((wCRC >> 8) ^ ((ch << 8) & 0xFFFF) ^ ((ch << 3) & 0xFFFF) ^ (ch >> 4)) & 0xFFFF
  }

  function MaskedInverse(w: bv32): bv32 { (!w) & 0xFFFF }

  function Byte0(w: bv32): bv8 { (w & 0xFF) as bv8 }

  function Byte1(w: bv32): bv8 { ((w >> 8) & 0xFF) as bv8 }

  function Widen(w: bv16): bv32 { w as bv32 }

  lemma MixAgrees(crc: bv16, b: bv8)
    ensures MaskedMix(Widen(crc), b as bv32) == MixLow(crc, b) as bv32
  {
  }

  lemma SmearAgrees(ch: bv8)
    ensures MaskedSmear(ch as bv32) == Smear(ch) as bv32
  {
  }

  lemma WideSpreadAgrees(crc: bv16, ch: bv8)
    ensures MaskedSpread(crc as bv32, ch as bv32) == Spread(crc, ch) as bv32
  {
  }

  lemma SpreadAgrees(crc: bv16, ch: bv8)
    ensures MaskedSpread(Widen(crc), ch as bv32) == Widen(Spread(crc, ch))
  {
    hide MaskedSpread, Spread;
    WideSpreadAgrees(crc, ch);
  }

  lemma EndsAgree(crc: bv16)
    ensures Byte0(MaskedInverse(Widen(crc))) == Low(Complement(crc))
    ensures Byte1(MaskedInverse(Widen(crc))) == High(Complement(crc))
  {
  }

  /** `_srsd_crc16`: agrees with `srsdCRC16` on every input. */
  method ChecksumMasked(data: seq<bv8>) returns (crc: seq<bv8>)
    ensures crc == Fcs(data)
  {
    hide ByteStep, MixLow, Smear, Spread, MaskedMix, MaskedSmear, MaskedSpread, MaskedInverse, Byte0, Byte1, Widen,
         Low, High, Complement;
    if data == [] { return [0x30, 0x30]; }
    var wCRC: bv32 := 0xFFFF;
    ghost var reg: bv16 := INITIAL;
    assert wCRC == Widen(reg) by { WidenInitial(); }
    var i := 0;
    while i < |data|
      invariant 0 <= i <= |data|
      invariant wCRC == Widen(reg)
      invariant Register(reg, data[i..]) == Register(INITIAL, data)
    {
      assert data[i..][0] == data[i] && data[i..][1..] == data[i + 1..];
      var byte := data[i];
      NibbleIsByte(reg, byte);
      MixAgrees(reg, byte);
      SmearAgrees(MixLow(reg, byte));
      SpreadAgrees(reg, Smear(MixLow(reg, byte)));
      var ch := MaskedMix(wCRC, byte as bv32);
      ch := MaskedSmear(ch);
      wCRC := MaskedSpread(wCRC, ch);
      reg := NibbleStep(reg, byte);
      i := i + 1;
    }
    assert data[i..] == [];
    EndsAgree(reg);
    wCRC := MaskedInverse(wCRC);
    crc := [Byte0(wCRC), Byte1(wCRC)];
  }

  lemma WidenInitial()
    ensures Widen(INITIAL) == 0xFFFF
  {
  }

  // ------------------------------------------------------------------
  // The check value

  lemma CheckSteps()
    ensures ByteStep(0xFFFF, 0x31) == 0x2F8D && ByteStep(0x2F8D, 0x32) == 0x4D53 && ByteStep(0x4D53, 0x33) == 0x634B
    ensures ByteStep(0x634B, 0x34) == 0x8B13 && ByteStep(0x8B13, 0x35) == 0x44BF && ByteStep(0x44BF, 0x36) == 0x198D
    ensures ByteStep(0x198D, 0x37) == 0x1AC8 && ByteStep(0x1AC8, 0x38) == 0xF795 && ByteStep(0xF795, 0x39) == 0x6F91
    ensures Low(Complement(0x6F91)) == 0x6E && High(Complement(0x6F91)) == 0x90
  {
  }

  lemma RegisterStep(crc: bv16, b: bv8, rest: seq<bv8>)
    ensures Register(crc, [b] + rest) == Register(ByteStep(crc, b), rest)
  {
    hide ByteStep;
    assert ([b] + rest)[1..] == rest;
  }

  /** The check value: the digits 1 to 9 give 0x906E, low byte first. No data gives two ASCII zeros. */
  lemma CheckValue()
    ensures Fcs([0x31, 0x32, 0x33, 0x34, 0x35, 0x36, 0x37, 0x38, 0x39]) == [0x6E, 0x90]
    ensures Fcs([]) == [0x30, 0x30]
  {
    hide ByteStep, Low, High, Complement, Register;
    CheckSteps();
    var s9: seq<bv8> := [0x39];
    var s8 := [0x38] + s9;
    var s7 := [0x37] + s8;
    var s6 := [0x36] + s7;
    var s5 := [0x35] + s6;
    var s4 := [0x34] + s5;
    var s3 := [0x33] + s4;
    var s2 := [0x32] + s3;
    RegisterStep(0xFFFF, 0x31, s2);
    RegisterStep(0x2F8D, 0x32, s3);
    RegisterStep(0x4D53, 0x33, s4);
    RegisterStep(0x634B, 0x34, s5);
    RegisterStep(0x8B13, 0x35, s6);
    RegisterStep(0x44BF, 0x36, s7);
    RegisterStep(0x198D, 0x37, s8);
    RegisterStep(0x1AC8, 0x38, s9);
    RegisterOfOne(0xF795, 0x39);
    assert [0x31] + s2 == [0x31, 0x32, 0x33, 0x34, 0x35, 0x36, 0x37, 0x38, 0x39];
  }

  lemma RegisterOfOne(crc: bv16, b: bv8)
    ensures Register(crc, [b]) == ByteStep(crc, b)
  {
    hide ByteStep;
    RegisterStep(crc, b, []);
    assert [b] + [] == [b];
  }
}
