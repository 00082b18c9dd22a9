/**
 The band masks of a WBANDPREF answer: groups of sixteen hexadecimal digits,
 band 64g+k+1 being bit k of group g.
 */
module Bands {

  // ------------------------------------------------------------------
  // Numbers and their bits

  predicate HexDigit(c: char) {
    '0' <= c <= '9' || 'a' <= c <= 'f' || 'A' <= c <= 'F'
  }

  function DigitValue(c: char): (v: nat)
    requires HexDigit(c)
    ensures v < 16
  {
    if c <= '9' then (c as int) - ('0' as int)
    else if c <= 'F' then (c as int) - ('A' as int) + 10
    else (c as int) - ('a' as int) + 10
  }

  predicate AllHex(s: string) {
    forall i | 0 <= i < |s| :: HexDigit(s[i])
  }

  /** `parseInt(s, 16)`. */
  function Hex(s: string): nat
    requires AllHex(s)
  {
    if s == [] then 0 else 16 * Hex(s[..|s| - 1]) + DigitValue(s[|s| - 1])
  }

  /** `n >>> k`. */
  function Shr(n: nat, k: nat): nat
    decreases k
  {
    if k == 0 then n else Shr(n / 2, k - 1)
  }

  predicate Bit(n: nat, k: nat) {
    Shr(n, k) % 2 == 1
  }

  function Pow2(k: nat): nat {
    if k == 0 then 1 else 2 * Pow2(k - 1)
  }

  lemma Double(h: nat, p: nat)
    ensures h * (2 * p) == 2 * (h * p)
  {
  }

  /** The bits of a number put together from two parts. */
  lemma {:induction false} BitOfParts(h: nat, l: nat, w: nat, k: nat)
    requires l < Pow2(w)
    ensures Bit(h * Pow2(w) + l, k) <==> if k < w then Bit(l, k) else Bit(h, k - w)
    decreases w
  {
    if w == 0 {
      assert h * Pow2(w) + l == h;
    } else {
      var n := h * Pow2(w) + l;
      Double(h, Pow2(w - 1));
      assert n / 2 == h * Pow2(w - 1) + l / 2 && n % 2 == l % 2;
      if k > 0 {
        BitOfParts(h, l / 2, w - 1, k - 1);
      }
    }
  }

  lemma HexStep(s: string)
    requires AllHex(s) && s != []
    ensures Hex(s) == Hex(s[..|s| - 1]) * 16 + DigitValue(s[|s| - 1])
  {
    hide DigitValue, HexDigit;
  }

  /** Bit k is bit k mod 4 of the digit k div 4 from the right. */
  lemma {:induction false} BitOfDigit(s: string, k: nat)
    requires AllHex(s) && k < 4 * |s|
    ensures Bit(Hex(s), k) <==> Bit(DigitValue(s[|s| - 1 - k / 4]), k % 4)
  {
    hide Bit, DigitValue, Hex, Pow2, HexDigit;
    var front := s[..|s| - 1];
    var last := DigitValue(s[|s| - 1]);
    HexStep(s);
    Pow2Of4();
    BitOfParts(Hex(front), last, 4, k);
    if k >= 4 {
      assert k / 4 - 1 == (k - 4) / 4 && k % 4 == (k - 4) % 4;
      BitOfDigit(front, k - 4);
    }
  }

  lemma Pow2Of4()
    ensures Pow2(4) == 16
  {
    assert Pow2(2) == 4;
  }

  // ------------------------------------------------------------------
  // Groups of an answer

  function Upper(c: char): char {
    if 'a' <= c <= 'z' then ((c as int) - 32) as char else c
  }

  function UpperCase(s: string): string {
    seq(|s|, i requires 0 <= i < |s| => Upper(s[i]))
  }

  predicate Priority(s: string) {
    |s| >= 8 && UpperCase(s[..8]) == "PRIORITY"
  }

  function Strip(s: string): string {
    if |s| >= 2 && s[0] == '0' && s[1] in "xX" then s[2..] else s
  }

  predicate Group(hex: string) {
    |hex| == 16 && AllHex(hex)
  }

  predicate AllGroups(groups: seq<string>) {
    forall i | 0 <= i < |groups| :: Group(groups[i])
  }

  /** The groups before the first PRIORITY part; parts that are no group are skipped. */
  function Groups(parts: seq<string>): (groups: seq<string>)
    ensures AllGroups(groups)
  {
    if parts == [] || Priority(parts[0]) then []
    else (if Group(Strip(parts[0])) then [Strip(parts[0])] else []) + Groups(parts[1..])
  }

  predicate GroupBit(groups: seq<string>, g: nat, k: nat)
    requires AllGroups(groups)
  {
    g < |groups| && Bit(Hex(groups[g]), k)
  }

  /** Bit (b-1) mod 64 of group (b-1) div 64 is set. */
  predicate Present(groups: seq<string>, b: nat)
    requires AllGroups(groups)
  {
    b >= 1 && GroupBit(groups, (b - 1) / 64, (b - 1) % 64)
  }

  predicate Increasing(s: seq<nat>) {
    forall i, j | 0 <= i < j < |s| :: s[i] < s[j]
  }

  /** What an answer means: exactly the bands whose bit is set, in ascending order. */
  ghost predicate Decodes(parts: seq<string>, bands: seq<nat>) {
    Increasing(bands) && forall b: nat :: b in bands <==> Present(Groups(parts), b)
  }

  // ------------------------------------------------------------------
  // Sorting the collected bands

  function Insert(x: nat, s: seq<nat>): seq<nat> {
    if s == [] || x <= s[0] then [x] + s else [s[0]] + Insert(x, s[1..])
  }

  /** The library's sort. */
  function Sort(s: seq<nat>): seq<nat> {
    if s == [] then [] else Insert(s[0], Sort(s[1..]))
  }

  predicate Distinct(s: seq<nat>) {
    forall i, j | 0 <= i < j < |s| :: s[i] != s[j]
  }

  lemma {:induction false} InsertMembers(x: nat, s: seq<nat>)
    ensures forall b :: b in Insert(x, s) <==> b == x || b in s
  {
    if s == [] || x <= s[0] {
    } else {
      InsertMembers(x, s[1..]);
      assert s == [s[0]] + s[1..];
    }
  }

  lemma {:induction false} InsertKeepsOrder(x: nat, s: seq<nat>)
    requires Increasing(s) && x !in s
    ensures Increasing(Insert(x, s))
  {
    if s == [] || x <= s[0] {
      assert s != [] ==> x != s[0];
    } else {
      InsertKeepsOrder(x, s[1..]);
      InsertMembers(x, s[1..]);
      var t := Insert(x, s[1..]);
      forall j | 0 <= j < |t|
        ensures s[0] < t[j]
      {
        assert t[j] in t;
      }
    }
  }

  lemma {:induction false} SortSorts(s: seq<nat>)
    requires Distinct(s)
    ensures Increasing(Sort(s)) && forall b :: b in Sort(s) <==> b in s
  {
    if s != [] {
      SortSorts(s[1..]);
      assert s[0] !in s[1..];
      InsertKeepsOrder(s[0], Sort(s[1..]));
      InsertMembers(s[0], Sort(s[1..]));
      assert s == [s[0]] + s[1..];
    }
  }

  // ------------------------------------------------------------------
  // The decoder

  method CollectGroups(parts: seq<string>) returns (groups: seq<string>)
    ensures groups == Groups(parts)
  {
    hide Priority, Group, Strip;
    groups := [];
    var i := 0;
    while i < |parts|
      invariant 0 <= i <= |parts|
      invariant Groups(parts) == groups + Groups(parts[i..])
    {
      assert parts[i..][1..] == parts[i + 1..];
      var s := parts[i];
      if Priority(s) {
        break;
      }
      var hex := Strip(s);
      if Group(hex) {
        groups := groups + [hex];
      }
      i := i + 1;
    }
  }

  /** The bands found before a turn of the loops: all of the groups before g, of group g those of the bits before. */
  predicate Listed(groups: seq<string>, g: nat, bit: nat, b: nat)
    requires AllGroups(groups)
  {
    Present(groups, b) && ((b - 1) / 64 < g || ((b - 1) / 64 == g && (b - 1) % 32 < bit))
  }

  lemma HalvesOfGroup(hex: string, k: nat)
    requires Group(hex) && k < 32
    ensures AllHex(hex[..8]) && AllHex(hex[8..16])
    ensures Bit(Hex(hex), k) == Bit(Hex(hex[8..16]), k)
    ensures Bit(Hex(hex), k + 32) == Bit(Hex(hex[..8]), k)
  {
    hide Bit, Hex;
    BitOfDigit(hex, k);
    BitOfDigit(hex[8..16], k);
    BitOfDigit(hex, k + 32);
    BitOfDigit(hex[..8], k);
  }

  lemma Coordinates(b: nat, g: nat, k: nat)
    requires k < 64
    ensures b >= 1 && (b - 1) / 64 == g && (b - 1) % 64 == k <==> b == 64 * g + k + 1
  {
  }

  lemma Mod32(b: nat, bit: nat)
    requires b >= 1 && bit < 32
    ensures (b - 1) % 32 == bit <==> (b - 1) % 64 == bit || (b - 1) % 64 == bit + 32
  {
    var q := (b - 1) / 64;
    var r := (b - 1) % 64;
    if r < 32 {
      Remainder32(2 * q, r);
    } else {
      Remainder32(2 * q + 1, r - 32);
    }
  }

  lemma Remainder32(q: nat, r: nat)
    requires r < 32
    ensures (32 * q + r) % 32 == r
  {
  }

  /** One turn of the inner loop adds the two bands of its bit. */
  lemma TurnLists(groups: seq<string>, g: nat, bit: nat, b: nat)
    requires AllGroups(groups) && g < |groups| && bit < 32
    ensures Listed(groups, g, bit + 1, b) <==>
            || Listed(groups, g, bit, b)
            || (b == 64 * g + bit + 1 && GroupBit(groups, g, bit))
            || (b == 64 * g + bit + 33 && GroupBit(groups, g, bit + 32))
  {
    hide GroupBit;
    Coordinates(b, g, bit);
    Coordinates(b, g, bit + 32);
    if b >= 1 {
      Mod32(b, bit);
    }
  }

  lemma NotYetListed(groups: seq<string>, g: nat, bit: nat)
    requires AllGroups(groups) && g < |groups| && bit < 32
    ensures !Listed(groups, g, bit, 64 * g + bit + 1) && !Listed(groups, g, bit, 64 * g + bit + 33)
  {
    hide Present;
    Coordinates(64 * g + bit + 1, g, bit);
    Coordinates(64 * g + bit + 33, g, bit + 32);
    Mod32(64 * g + bit + 1, bit);
    Mod32(64 * g + bit + 33, bit);
  }

  lemma EndsOfLoops(groups: seq<string>, g: nat, b: nat)
    requires AllGroups(groups)
    ensures Listed(groups, g, 32, b) <==> Listed(groups, g + 1, 0, b)
    ensures !Listed(groups, 0, 0, b)
    ensures Listed(groups, |groups|, 0, b) <==> Present(groups, b)
  {
    hide Bit, Hex;
  }

  lemma Append(s: seq<nat>, x: nat)
    requires Distinct(s) && x !in s
    ensures Distinct(s + [x]) && forall b :: b in s + [x] <==> b in s || b == x
  {
  }

  /** `_parseBandPref` on the trimmed parts of the matched line. */
  method ParseBandPref(parts: seq<string>) returns (bands: seq<nat>)
    ensures Decodes(parts, bands)
  {
    hide Listed, Present, GroupBit, Group, Groups, Bit, Hex, Distinct, Increasing;
    var groups := CollectGroups(parts);
    bands := [];
    NothingYet(groups);
    var g := 0;
    while g < |groups|
      invariant g <= |groups|
      invariant Distinct(bands)
      invariant forall b: nat :: b in bands <==> Listed(groups, g, 0, b)
    {
      var hex := groups[g];
      assert Group(hex);
      GroupShape(hex);
      var hi := Hex(hex[..8]);
      var lo := Hex(hex[8..16]);
      var base := g * 64;
      var bit := 0;
      while bit < 32
        invariant bit <= 32
        invariant Distinct(bands)
        invariant forall b: nat :: b in bands <==> Listed(groups, g, bit, b)
      {
        GroupBits(groups, g, bit);
        NotYetListed(groups, g, bit);
        ghost var before := bands;
        if Shr(lo, bit) % 2 == 1 {
          Append(bands, base + bit + 1);
          bands := bands + [base + bit + 1];
        }
        if Shr(hi, bit) % 2 == 1 {
          Append(bands, base + bit + 33);
          bands := bands + [base + bit + 33];
        }
        forall b: nat
          ensures b in bands <==> Listed(groups, g, bit + 1, b)
        {
          TurnLists(groups, g, bit, b);
        }
        bit := bit + 1;
      }
      forall b: nat
        ensures b in bands <==> Listed(groups, g + 1, 0, b)
      {
        EndsOfLoops(groups, g, b);
      }
      g := g + 1;
    }
    SortSorts(bands);
    bands := Sort(bands);
    forall b: nat
      ensures b in bands <==> Present(groups, b)
    {
      EndsOfLoops(groups, g, b);
    }
  }

  lemma NothingYet(groups: seq<string>)
    requires AllGroups(groups)
    ensures Distinct([]) && forall b: nat :: !Listed(groups, 0, 0, b)
  {
    forall b: nat
      ensures !Listed(groups, 0, 0, b)
    {
      EndsOfLoops(groups, 0, b);
    }
  }

  lemma GroupShape(hex: string)
    requires Group(hex)
    ensures |hex| == 16 && AllHex(hex[..8]) && AllHex(hex[8..16])
  {
  }

  lemma GroupBits(groups: seq<string>, g: nat, bit: nat)
    requires AllGroups(groups) && g < |groups| && bit < 32
    ensures |groups[g]| == 16 && AllHex(groups[g][..8]) && AllHex(groups[g][8..16])
    ensures GroupBit(groups, g, bit) <==> Shr(Hex(groups[g][8..16]), bit) % 2 == 1
    ensures GroupBit(groups, g, bit + 32) <==> Shr(Hex(groups[g][..8]), bit) % 2 == 1
  {
    hide Hex, Shr;
    HalvesOfGroup(groups[g], bit);
  }

  // ------------------------------------------------------------------
  // There and back

  /** An increasing list is determined by its members. */
  lemma {:induction false} IncreasingUnique(s: seq<nat>, t: seq<nat>)
    requires Increasing(s) && Increasing(t) && forall b: nat :: b in s <==> b in t
    ensures s == t
  {
    assert t != [] ==> t[0] in s;
    assert s != [] ==> s[0] in t;
    if s != [] {
      assert s[0] == t[0];
      assert s[0] !in s[1..] && t[0] !in t[1..];
      forall b: nat
        ensures b in s[1..] <==> b in t[1..]
      {
        assert b in s <==> b == s[0] || b in s[1..];
        assert b in t <==> b == t[0] || b in t[1..];
      }
      IncreasingUnique(s[1..], t[1..]);
      assert s == [s[0]] + s[1..] && t == [t[0]] + t[1..];
    }
  }

  /** What a mask means, it means alone. */
  lemma DecodesUnique(parts: seq<string>, s: seq<nat>, t: seq<nat>)
    requires Decodes(parts, s) && Decodes(parts, t)
    ensures s == t
  {
    hide Increasing, Present;
    IncreasingUnique(s, t);
  }

  function Weight(on: bool, w: nat): nat {
    if on then w else 0
  }

  /** Four bits as a number. */
  function Nibble(b0: bool, b1: bool, b2: bool, b3: bool): (v: nat)
    ensures v < 16
  {
    Weight(b0, 1) + Weight(b1, 2) + Weight(b2, 4) + Weight(b3, 8)
  }

  function Digit(v: nat): (c: char)
    requires v < 16
    ensures HexDigit(c) && DigitValue(c) == v
  {
    if v < 10 then (v + 48) as char else (v + 87) as char
  }

  lemma NibbleBits(b0: bool, b1: bool, b2: bool, b3: bool)
    ensures var v := Nibble(b0, b1, b2, b3);
            Bit(v, 0) == b0 && Bit(v, 1) == b1 && Bit(v, 2) == b2 && Bit(v, 3) == b3
  {
    var v := Nibble(b0, b1, b2, b3);
    assert Shr(v, 2) == Shr(v / 2, 1) == v / 2 / 2;
    assert Shr(v, 3) == Shr(v / 2, 2) == Shr(v / 2 / 2, 1) == v / 2 / 2 / 2;
  }

  /** The digit of group g that is the d-th from the right. */
  function DigitOf(bands: set<nat>, g: nat, d: nat): (c: char)
    ensures HexDigit(c)
  {
    var at := 64 * g + 4 * d + 1;
    Digit(Nibble(at in bands, at + 1 in bands, at + 2 in bands, at + 3 in bands))
  }

  function GroupOf(bands: set<nat>, g: nat): (hex: string)
    ensures Group(hex)
  {
    seq(16, i requires 0 <= i < 16 => DigitOf(bands, g, 15 - i))
  }

  lemma GroupOfBits(bands: set<nat>, g: nat, k: nat)
    requires k < 64
    ensures Bit(Hex(GroupOf(bands, g)), k) <==> 64 * g + k + 1 in bands
  {
    hide Bit, DigitValue, Hex, DigitOf;
    BitOfDigit(GroupOf(bands, g), k);
    assert GroupOf(bands, g)[15 - k / 4] == DigitOf(bands, g, k / 4);
    DigitOfBits(bands, g, k / 4, k % 4);
  }

  lemma DigitOfBits(bands: set<nat>, g: nat, d: nat, j: nat)
    requires j < 4
    ensures Bit(DigitValue(DigitOf(bands, g, d)), j) <==> 64 * g + 4 * d + j + 1 in bands
  {
    hide Bit, DigitValue, Digit, Nibble;
    var at := 64 * g + 4 * d + 1;
    NibbleBits(at in bands, at + 1 in bands, at + 2 in bands, at + 3 in bands);
  }

  function GroupsOf(bands: set<nat>, n: nat): (groups: seq<string>)
    ensures |groups| == n && AllGroups(groups)
  {
    if n == 0 then [] else GroupsOf(bands, n - 1) + [GroupOf(bands, n - 1)]
  }

  lemma {:induction false} GroupsOfAt(bands: set<nat>, n: nat, g: nat)
    requires g < n
    ensures GroupsOf(bands, n)[g] == GroupOf(bands, g)
  {
    hide GroupOf;
    if g < n - 1 {
      GroupsOfAt(bands, n - 1, g);
    }
  }

  /** The line a device sends: the first group after 0x, the others as they are, then the priorities and anything. */
  function Line(groups: seq<string>, more: seq<string>): seq<string> {
    (if groups == [] then [] else ["0x" + groups[0]] + groups[1..]) + ["PRIORITY:1"] + more
  }

  lemma GroupStripped(hex: string)
    requires Group(hex)
    ensures Strip(hex) == hex && Strip("0x" + hex) == hex && !Priority(hex) && !Priority("0x" + hex)
  {
    assert HexDigit(hex[0]) && HexDigit(hex[1]);
    assert UpperCase(hex[..8])[0] == Upper(hex[0]) != 'P';
    assert UpperCase(("0x" + hex)[..8])[0] == '0';
  }

  lemma {:induction false} PlainGroups(groups: seq<string>, more: seq<string>)
    requires AllGroups(groups)
    ensures Groups(groups + ["PRIORITY:1"] + more) == groups
  {
    hide Group, Strip;
    var all := groups + ["PRIORITY:1"] + more;
    if groups == [] {
      assert Priority(all[0]) by { PriorityStarts(); }
    } else {
      GroupStripped(groups[0]);
      PlainGroups(groups[1..], more);
      assert all[1..] == groups[1..] + ["PRIORITY:1"] + more;
    }
  }

  lemma PriorityStarts()
    ensures Priority("PRIORITY:1")
  {
    var p := "PRIORITY:1";
    assert p[..8] == "PRIORITY";
    assert UpperCase("PRIORITY") == "PRIORITY";
  }

  lemma LineGroups(groups: seq<string>, more: seq<string>)
    requires AllGroups(groups)
    ensures Groups(Line(groups, more)) == groups
  {
    hide Group, Strip, Priority;
    if groups == [] {
      PlainGroups(groups, more);
    } else {
      var line := Line(groups, more);
      GroupStripped(groups[0]);
      PlainGroups(groups[1..], more);
      assert line[1..] == groups[1..] + ["PRIORITY:1"] + more;
    }
  }

  /** Any set of bands that fits n groups, written as masks, is read back exactly. */
  lemma RoundTrip(bands: set<nat>, n: nat, more: seq<string>, list: seq<nat>)
    requires forall b | b in bands :: 1 <= b <= 64 * n
    requires Decodes(Line(GroupsOf(bands, n), more), list)
    ensures forall b: nat :: b in list <==> b in bands
  {
    hide Increasing, Groups, Line, GroupsOf, GroupOf, Bit, Hex;
    var groups := GroupsOf(bands, n);
    LineGroups(groups, more);
    forall b: nat
      ensures b in list <==> b in bands
    {
      if b >= 1 && (b - 1) / 64 < n {
        GroupsOfAt(bands, n, (b - 1) / 64);
        GroupOfBits(bands, (b - 1) / 64, (b - 1) % 64);
      }
    }
  }

  // ------------------------------------------------------------------
  // The parts of an answer

  /** Digits count the same in either case, and nothing else is a digit. */
  lemma DigitsEitherCase(v: nat, c: char)
    requires v < 16
    ensures HexDigit(c) && DigitValue(c) == v <==> c == "0123456789abcdef"[v] || c == "0123456789ABCDEF"[v]
  {
  }

  /** The word is recognised in any mixture of cases. */
  lemma PriorityIff(s: string)
    ensures Priority(s) <==> |s| >= 8 && forall i | 0 <= i < 8 :: s[i] == "PRIORITY"[i] || s[i] == "priority"[i]
  {
    if |s| >= 8 {
      var u := UpperCase(s[..8]);
      forall i | 0 <= i < 8
        ensures u[i] == "PRIORITY"[i] <==> s[i] == "PRIORITY"[i] || s[i] == "priority"[i]
      {
        assert u[i] == Upper(s[i]);
      }
      assert u == "PRIORITY" <==> forall i | 0 <= i < 8 :: u[i] == "PRIORITY"[i];
    }
  }

  /** Either prefix is taken off, and only that. */
  lemma StripIs(s: string)
    ensures Strip("0x" + s) == Strip("0X" + s) == s
    ensures !("0x" <= s) && !("0X" <= s) ==> Strip(s) == s
  {
  }

  /** The parts before the first PRIORITY count one by one, those after it not at all. */
  lemma {:induction false} GroupsOfParts(a: seq<string>, b: seq<string>, x: string)
    requires forall i | 0 <= i < |a| :: !Priority(a[i])
    ensures Groups(a + b) == Groups(a) + Groups(b)
    ensures Priority(x) ==> Groups(a + [x] + b) == Groups(a)
    ensures !Priority(x) ==> Groups([x]) == if Group(Strip(x)) then [Strip(x)] else []
    decreases |a|
  {
    hide Priority, Group, Strip;
    assert [x][1..] == [];
    if a == [] {
      assert a + b == b && (a + [x] + b)[0] == x;
    } else {
      assert (a + b)[0] == a[0] && (a + b)[1..] == a[1..] + b;
      assert (a + [x] + b)[0] == a[0] && (a + [x] + b)[1..] == a[1..] + [x] + b;
      GroupsOfParts(a[1..], b, x);
    }
  }
}
