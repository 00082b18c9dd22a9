/**
 The byte check of `isValidUTF8` and the fallback of `decodeCP949`, against the
 encoding of sections 3 and 4 of RFC 3629.
 */
module Utf8 {

  type Bytes = seq<bv8>

  predicate Ascii(b: bv8) { b < 0x80 }

  predicate Continues(b: bv8) { b & 0xC0 == 0x80 }

  /** The length a first byte announces; 0 if it announces none. */
  function Announced(b: bv8): (n: nat)
    ensures n <= 4
  {
    if b < 0x80 then 1
    else if b & 0xE0 == 0xC0 then 2
    else if b & 0xF0 == 0xE0 then 3
    else if b & 0xF8 == 0xF0 then 4
    else 0
  }

  /** A first byte with the continuation bytes it announces. */
  predicate Chunk(c: Bytes) {
    c != [] && |c| == Announced(c[0]) && forall j | 1 <= j < |c| :: Continues(c[j])
  }

  /** The length of the chunk at the front; 0 if there is none. */
  function FirstChunk(b: Bytes): (n: nat)
    ensures n <= |b|
    ensures n > 0 ==> Chunk(b[..n])
  {
    if b == [] then 0
    else
      var n := Announced(b[0]);
      if n <= |b| && Chunk(b[..n]) then n else 0
  }

  /** What the check accepts: chunks only. */
  predicate Accepted(b: Bytes)
    decreases |b|
  {
    b == [] || (FirstChunk(b) > 0 && Accepted(b[FirstChunk(b)..]))
  }

  lemma ContinuesBits(b: bv8)
    ensures Continues(b) <==> b & 0xC0 == 0x80
  {
  }

  lemma AnnouncedBits(b: bv8)
    ensures Announced(b) ==
            if b < 0x80 then 1 else if b & 0xE0 == 0xC0 then 2
            else if b & 0xF0 == 0xE0 then 3 else if b & 0xF8 == 0xF0 then 4 else 0
  {
  }

  lemma FrontChunk(c: Bytes, rest: Bytes)
    requires Chunk(c)
    ensures FirstChunk(c + rest) == |c| && (c + rest)[..|c|] == c && (c + rest)[|c|..] == rest
  {
    hide Announced, Continues;
  }

  lemma AcceptedTurn(rest: Bytes, n: nat)
    requires 0 < n <= |rest| && Announced(rest[0]) == n && forall k | 1 <= k < n :: Continues(rest[k])
    ensures Accepted(rest) == Accepted(rest[n..])
  {
    hide Announced, Continues;
    assert Chunk(rest[..n]);
    assert rest == rest[..n] + rest[n..];
    FrontChunk(rest[..n], rest[n..]);
  }

  lemma RejectedTurn(rest: Bytes)
    requires rest != []
    requires var n := Announced(rest[0]); n == 0 || n > |rest| || exists k | 1 <= k < n :: !Continues(rest[k])
    ensures !Accepted(rest)
  {
    hide Announced, Continues;
    var n := Announced(rest[0]);
    if 0 < n <= |rest| {
      var k :| 1 <= k < n && !Continues(rest[k]);
      assert rest[..n][k] == rest[k];
    }
  }

  /** `isValidUTF8`: no read leaves the slice, and every turn moves on. */
  method IsValidUtf8(b: Bytes) returns (ok: bool)
    ensures ok == Accepted(b)
  {
    hide Continues, Announced, Accepted;
    var i := 0;
    while i < |b|
      invariant 0 <= i <= |b|
      invariant Accepted(b) == Accepted(b[i..])
    {
      ghost var rest := b[i..];
      assert rest[0] == b[i];
      AnnouncedBits(b[i]);
      if b[i] < 0x80 {
        AcceptedTurn(rest, 1);
        i := i + 1;
        continue;
      }
      var n: nat;
      if b[i] & 0xE0 == 0xC0 {
        n := 2;
      } else if b[i] & 0xF0 == 0xE0 {
        n := 3;
      } else if b[i] & 0xF8 == 0xF0 {
        n := 4;
      } else {
        RejectedTurn(rest);
        return false;
      }
      if i + n > |b| {
        RejectedTurn(rest);
        return false;
      }
      var j := 1;
      while j < n
        invariant 1 <= j <= n
        invariant forall k | 1 <= k < j :: Continues(rest[k])
      {
        ContinuesBits(b[i + j]);
        assert rest[j] == b[i + j];
        if b[i + j] & 0xC0 != 0x80 {
          RejectedTurn(rest);
          return false;
        }
        j := j + 1;
      }
      AcceptedTurn(rest, n);
      assert rest[n..] == b[i + n..];
      i := i + n;
    }
    assert b[i..] == [];
    AcceptedNothing();
    return true;
  }

  lemma AcceptedNothing()
    ensures Accepted([])
  {
  }

  /** After an accepted beginning, everything depends on the rest. */
  lemma {:induction false} AcceptedBeginning(a: Bytes, b: Bytes)
    requires Accepted(a)
    ensures Accepted(a + b) <==> Accepted(b)
    decreases |a|
  {
    hide Chunk, Announced;
    if a == [] {
      assert a + b == b;
    } else {
      var n := FirstChunk(a);
      assert (a + b)[..n] == a[..n];
      assert (a + b)[n..] == a[n..] + b;
      AcceptedBeginning(a[n..], b);
    }
  }

  lemma ChunkAccepted(c: Bytes)
    requires Chunk(c)
    ensures Accepted(c)
  {
    hide Chunk, Announced;
    assert |c| == Announced(c[0]) && c != [] by { ChunkLength(c); }
    assert c[..|c|] == c && c[|c|..] == [];
  }

  lemma ChunkLength(c: Bytes)
    requires Chunk(c)
    ensures c != [] && |c| == Announced(c[0])
  {
  }

  /** One byte below 0x80, or a first byte that announces two, three or four with as many bytes of 0x80 to 0xBF. */
  predicate Piece(c: Bytes) {
    && 1 <= |c| <= 4
    && (forall j | 1 <= j < |c| :: 0x80 <= c[j] <= 0xBF)
    && (|c| == 1 ==> c[0] <= 0x7F)
    && (|c| == 2 ==> 0xC0 <= c[0] <= 0xDF)
    && (|c| == 3 ==> 0xE0 <= c[0] <= 0xEF)
    && (|c| == 4 ==> 0xF0 <= c[0] <= 0xF7)
  }

  lemma AnnouncedRange(b: bv8)
    ensures Announced(b) == 1 <==> b <= 0x7F
    ensures Announced(b) == 2 <==> 0xC0 <= b <= 0xDF
    ensures Announced(b) == 3 <==> 0xE0 <= b <= 0xEF
    ensures Announced(b) == 4 <==> 0xF0 <= b <= 0xF7
    ensures Continues(b) <==> 0x80 <= b <= 0xBF
  {
  }

  lemma ChunkIsPiece(c: Bytes)
    ensures Chunk(c) <==> Piece(c)
  {
    hide Announced, Continues;
    if c != [] {
      AnnouncedRange(c[0]);
    }
    forall j | 1 <= j < |c|
      ensures Continues(c[j]) <==> 0x80 <= c[j] <= 0xBF
    {
      AnnouncedRange(c[j]);
    }
  }

  function Join(pieces: seq<Bytes>): Bytes {
    if pieces == [] then [] else pieces[0] + Join(pieces[1..])
  }

  predicate AllPieces(pieces: seq<Bytes>) {
    forall i | 0 <= i < |pieces| :: Piece(pieces[i])
  }

  lemma {:induction false} JoinedIsAccepted(pieces: seq<Bytes>)
    requires AllPieces(pieces)
    ensures Accepted(Join(pieces))
  {
    hide Piece, Chunk;
    if pieces != [] {
      ChunkIsPiece(pieces[0]);
      ChunkAccepted(pieces[0]);
      JoinedIsAccepted(pieces[1..]);
      AcceptedBeginning(pieces[0], Join(pieces[1..]));
    }
  }

  lemma {:induction false} AcceptedIsJoined(b: Bytes) returns (pieces: seq<Bytes>)
    requires Accepted(b)
    ensures AllPieces(pieces) && Join(pieces) == b
    decreases |b|
  {
    hide Piece, Chunk;
    if b == [] {
      pieces := [];
    } else {
      var n := FirstChunk(b);
      ChunkIsPiece(b[..n]);
      var rest := AcceptedIsJoined(b[n..]);
      pieces := [b[..n]] + rest;
      assert pieces[1..] == rest;
      assert b == b[..n] + b[n..];
    }
  }

  /** The check accepts exactly what can be put together from such pieces. */
  lemma AcceptedIff(b: Bytes)
    ensures Accepted(b) <==> exists pieces :: AllPieces(pieces) && Join(pieces) == b
  {
    hide Accepted, AllPieces, Join;
    if Accepted(b) {
      var pieces := AcceptedIsJoined(b);
    }
    if pieces :| AllPieces(pieces) && Join(pieces) == b {
      JoinedIsAccepted(pieces);
    }
  }

  // ------------------------------------------------------------------
  // The encoding of RFC 3629

  /** The characters that have an encoding: up to U+10FFFF without the surrogates. */
  predicate Scalar(cp: bv32) {
    cp <= 0x10FFFF && !(0xD800 <= cp <= 0xDFFF)
  }

  function Tail(cp: bv32): bv8 { ((cp & 0x3F) | 0x80) as bv8 }

  function Tail6(cp: bv32): bv8 { Tail(cp >> 6) }

  function Tail12(cp: bv32): bv8 { Tail(cp >> 12) }

  function Lead2(cp: bv32): bv8 { (((cp >> 6) & 0x1F) | 0xC0) as bv8 }

  function Lead3(cp: bv32): bv8 { (((cp >> 12) & 0x0F) | 0xE0) as bv8 }

  function Lead4(cp: bv32): bv8 { (((cp >> 18) & 0x07) | 0xF0) as bv8 }

  /** The table of section 3 of RFC 3629. */
  function Encode(cp: bv32): Bytes
    requires Scalar(cp)
  {
    if cp <= 0x7F then [cp as bv8]
    else if cp <= 0x7FF then [Lead2(cp), Tail(cp)]
    else if cp <= 0xFFFF then [Lead3(cp), Tail6(cp), Tail(cp)]
    else [Lead4(cp), Tail12(cp), Tail6(cp), Tail(cp)]
  }

  function EncodeAll(text: seq<bv32>): Bytes
    requires forall cp | cp in text :: Scalar(cp)
  {
    if text == [] then [] else Encode(text[0]) + EncodeAll(text[1..])
  }

  // The chunks that are no encoding: too long a form, a surrogate, or beyond U+10FFFF.

  predicate Bad2(a: bv8) { a < 0xC2 }

  predicate Bad3(a: bv8, b: bv8) { (a == 0xE0 && b < 0xA0) || (a == 0xED && b >= 0xA0) }

  predicate Bad4(a: bv8, b: bv8) { (a == 0xF0 && b < 0x90) || (a == 0xF4 && b >= 0x90) || a > 0xF4 }

  predicate Offends(c: Bytes)
    requires Chunk(c)
  {
    || (|c| == 2 && Bad2(c[0]))
    || (|c| == 3 && Bad3(c[0], c[1]))
    || (|c| == 4 && Bad4(c[0], c[1]))
  }

  lemma TailContinues(cp: bv32)
    ensures Continues(Tail(cp)) && Continues(Tail6(cp)) && Continues(Tail12(cp))
  {
  }

  lemma LeadsAnnounce(cp: bv32)
    ensures Announced(Lead2(cp)) == 2 && Announced(Lead3(cp)) == 3 && Announced(Lead4(cp)) == 4
  {
  }

  lemma EncodeIsChunk(cp: bv32)
    requires Scalar(cp)
    ensures Chunk(Encode(cp))
  {
    hide Continues, Announced, Lead2, Lead3, Lead4, Tail, Tail6, Tail12;
    LeadsAnnounce(cp);
    TailContinues(cp);
    if cp <= 0x7F {
      OneByte(cp);
    }
  }

  lemma OneByte(cp: bv32)
    requires cp <= 0x7F
    ensures Announced(cp as bv8) == 1
  {
  }

  // The shortest forms, in bit vectors only.

  lemma Lead2InRange(cp: bv32)
    requires 0x7F < cp <= 0x7FF
    ensures Lead2(cp) >= 0xC2
  {
  }

  lemma Lead3InRange(cp: bv32)
    requires 0x7FF < cp <= 0xFFFF && !(0xD800 <= cp <= 0xDFFF)
    ensures Lead3(cp) == 0xE0 ==> Tail6(cp) >= 0xA0
    ensures Lead3(cp) == 0xED ==> Tail6(cp) < 0xA0
  {
  }

  lemma Lead4InRange(cp: bv32)
    requires 0xFFFF < cp <= 0x10FFFF
    ensures Lead4(cp) <= 0xF4
    ensures Lead4(cp) == 0xF0 ==> Tail12(cp) >= 0x90
    ensures Lead4(cp) == 0xF4 ==> Tail12(cp) < 0x90
  {
  }

  lemma EncodeDoesNotOffend(cp: bv32)
    requires Scalar(cp)
    ensures Chunk(Encode(cp)) && !Offends(Encode(cp))
  {
    hide Chunk, Lead2, Lead3, Lead4, Tail, Tail6, Tail12;
    EncodeIsChunk(cp);
    if 0x7F < cp <= 0x7FF {
      Lead2InRange(cp);
    } else if 0x7FF < cp <= 0xFFFF {
      Lead3InRange(cp);
    } else if 0xFFFF < cp {
      Lead4InRange(cp);
    }
  }

  function Bits6(b: bv8): bv32 { (b & 0x3F) as bv32 }

  function Value2(a: bv8, b: bv8): bv32 { (((a & 0x1F) as bv32) << 6) | Bits6(b) }

  function Value3(a: bv8, b: bv8, c: bv8): bv32 { (((a & 0x0F) as bv32) << 12) | (Bits6(b) << 6) | Bits6(c) }

  function Value4(a: bv8, b: bv8, c: bv8, d: bv8): bv32 {
    (((a & 0x07) as bv32) << 18) | (Bits6(b) << 12) | (Bits6(c) << 6) | Bits6(d)
  }

  lemma Value2Encodes(a: bv8, b: bv8)
    requires Announced(a) == 2 && !Bad2(a) && Continues(b)
    ensures var v := Value2(a, b); Scalar(v) && 0x7F < v <= 0x7FF && Lead2(v) == a && Tail(v) == b
  {
  }

  lemma Value3Encodes(a: bv8, b: bv8, c: bv8)
    requires Announced(a) == 3 && !Bad3(a, b) && Continues(b) && Continues(c)
    ensures var v := Value3(a, b, c);
            && Scalar(v) && 0x7FF < v <= 0xFFFF
            && Lead3(v) == a && Tail6(v) == b && Tail(v) == c
  {
  }

  lemma Value4Encodes(a: bv8, b: bv8, c: bv8, d: bv8)
    requires Announced(a) == 4 && !Bad4(a, b) && Continues(b) && Continues(c) && Continues(d)
    ensures var v := Value4(a, b, c, d);
            && Scalar(v) && 0xFFFF < v
            && Lead4(v) == a && Tail12(v) == b && Tail6(v) == c && Tail(v) == d
  {
  }

  lemma Value1Encodes(a: bv8)
    requires Announced(a) == 1
    ensures var v := a as bv32; Scalar(v) && v <= 0x7F && v as bv8 == a
  {
  }

  lemma EncodeByRange(v: bv32)
    requires Scalar(v)
    ensures v <= 0x7F ==> Encode(v) == [v as bv8]
    ensures 0x7F < v <= 0x7FF ==> Encode(v) == [Lead2(v), Tail(v)]
    ensures 0x7FF < v <= 0xFFFF ==> Encode(v) == [Lead3(v), Tail6(v), Tail(v)]
    ensures 0xFFFF < v ==> Encode(v) == [Lead4(v), Tail12(v), Tail6(v), Tail(v)]
  {
    hide Lead2, Lead3, Lead4, Tail, Tail6, Tail12;
  }

  lemma Decode1(a: bv8)
    requires Announced(a) == 1
    ensures var v := a as bv32; Scalar(v) && Encode(v) == [a]
  {
    hide Announced, Scalar, Encode;
    Value1Encodes(a);
    EncodeByRange(a as bv32);
  }

  lemma Decode2(a: bv8, b: bv8)
    requires Announced(a) == 2 && !Bad2(a) && Continues(b)
    ensures var v := Value2(a, b); Scalar(v) && Encode(v) == [a, b]
  {
    hide Announced, Continues, Scalar, Encode, Bad2, Lead2, Tail, Value2;
    Value2Encodes(a, b);
    EncodeByRange(Value2(a, b));
  }

  lemma Decode3(a: bv8, b: bv8, c: bv8)
    requires Announced(a) == 3 && !Bad3(a, b) && Continues(b) && Continues(c)
    ensures var v := Value3(a, b, c); Scalar(v) && Encode(v) == [a, b, c]
  {
    hide Announced, Continues, Scalar, Encode, Bad3, Lead3, Tail, Tail6, Value3;
    Value3Encodes(a, b, c);
    EncodeByRange(Value3(a, b, c));
  }

  lemma Decode4(a: bv8, b: bv8, c: bv8, d: bv8)
    requires Announced(a) == 4 && !Bad4(a, b) && Continues(b) && Continues(c) && Continues(d)
    ensures var v := Value4(a, b, c, d); Scalar(v) && Encode(v) == [a, b, c, d]
  {
    hide Announced, Continues, Scalar, Encode, Bad4, Lead4, Tail, Tail6, Tail12, Value4;
    Value4Encodes(a, b, c, d);
    EncodeByRange(Value4(a, b, c, d));
  }

  /** Every chunk that does not offend is the encoding of a character. */
  lemma ChunkDecodes(c: Bytes) returns (cp: bv32)
    requires Chunk(c) && !Offends(c)
    ensures Scalar(cp) && Encode(cp) == c
  {
    hide Announced, Continues, Scalar, Encode, Bad2, Bad3, Bad4, Value2, Value3, Value4;
    if |c| == 1 {
      Decode1(c[0]);
      cp := c[0] as bv32;
    } else if |c| == 2 {
      Decode2(c[0], c[1]);
      cp := Value2(c[0], c[1]);
    } else if |c| == 3 {
      Decode3(c[0], c[1], c[2]);
      cp := Value3(c[0], c[1], c[2]);
    } else {
      Decode4(c[0], c[1], c[2], c[3]);
      cp := Value4(c[0], c[1], c[2], c[3]);
    }
  }

  /** Every concatenation of encodings is accepted. */
  lemma {:induction false} EncodingsAccepted(text: seq<bv32>)
    requires forall cp | cp in text :: Scalar(cp)
    ensures Accepted(EncodeAll(text))
  {
    hide Scalar, Encode, Chunk;
    if text != [] {
      EncodeIsChunk(text[0]);
      ChunkAccepted(Encode(text[0]));
      EncodingsAccepted(text[1..]);
      AcceptedBeginning(Encode(text[0]), EncodeAll(text[1..]));
    }
  }

  /** No chunk of an accepted text offends. */
  predicate Shortest(b: Bytes)
    requires Accepted(b)
    decreases |b|
  {
    b == [] || (!Offends(b[..FirstChunk(b)]) && Shortest(b[FirstChunk(b)..]))
  }

  ghost predicate Utf8(b: Bytes) {
    exists text: seq<bv32> :: (forall cp | cp in text :: Scalar(cp)) && EncodeAll(text) == b
  }

  lemma {:induction false} EncodingsAreShortest(text: seq<bv32>)
    requires forall cp | cp in text :: Scalar(cp)
    ensures Accepted(EncodeAll(text)) && Shortest(EncodeAll(text))
  {
    hide Scalar, Encode, Chunk, Offends, FirstChunk;
    EncodingsAccepted(text);
    if text != [] {
      EncodingsAreShortest(text[1..]);
      EncodeDoesNotOffend(text[0]);
      FrontChunk(Encode(text[0]), EncodeAll(text[1..]));
    }
  }

  lemma {:induction false} ShortestIsEncoded(b: Bytes) returns (text: seq<bv32>)
    requires Accepted(b) && Shortest(b)
    ensures (forall cp | cp in text :: Scalar(cp)) && EncodeAll(text) == b
    decreases |b|
  {
    hide Scalar, Encode, Chunk, Offends;
    if b == [] {
      text := [];
    } else {
      var n := FirstChunk(b);
      var cp := ChunkDecodes(b[..n]);
      var rest := ShortestIsEncoded(b[n..]);
      text := [cp] + rest;
      assert text[1..] == rest;
      assert b == b[..n] + b[n..];
    }
  }

  /**
   The check accepts more than RFC 3629 allows: a text is UTF-8 iff it is
   accepted and none of its chunks is an overlong form, a surrogate or beyond
   the last character.
   */
  lemma Utf8Iff(b: Bytes)
    ensures Utf8(b) <==> Accepted(b) && Shortest(b)
  {
    hide Accepted, Shortest, EncodeAll, Scalar;
    if Utf8(b) {
      var text: seq<bv32> :| (forall cp | cp in text :: Scalar(cp)) && EncodeAll(text) == b;
      EncodingsAreShortest(text);
    }
    if Accepted(b) && Shortest(b) {
      var text := ShortestIsEncoded(b);
    }
  }

  /** An overlong NUL is accepted. */
  lemma AcceptsOverlong()
    ensures Accepted([0xC0, 0x80]) && !Utf8([0xC0, 0x80])
  {
    hide Utf8;
    var b: Bytes := [0xC0, 0x80];
    assert Chunk(b);
    ChunkAccepted(b);
    assert b[..2] == b;
    assert FirstChunk(b) == 2;
    assert Offends(b[..2]);
    Utf8Iff(b);
  }

  // ------------------------------------------------------------------
  // decodeCP949

  function AsciiOnly(b: Bytes): Bytes {
    if b == [] then []
    else if Ascii(b[0]) then [b[0]] + AsciiOnly(b[1..])
    else AsciiOnly(b[1..])
  }

  function Decoded(raw: Bytes): Bytes {
    if Accepted(raw) then raw else AsciiOnly(raw)
  }

  method DecodeCp949(raw: Bytes) returns (text: Bytes)
    ensures text == Decoded(raw)
  {
    hide Accepted, Ascii;
    var ok := IsValidUtf8(raw);
    if ok {
      return raw;
    }
    text := [];
    var i := 0;
    while i < |raw|
      invariant 0 <= i <= |raw|
      invariant AsciiOnly(raw) == text + AsciiOnly(raw[i..])
    {
      assert raw[i..][1..] == raw[i + 1..];
      if Ascii(raw[i]) {
        text := text + [raw[i]];
      }
      i := i + 1;
    }
  }

  lemma {:induction false} AsciiOnlyIsAscii(b: Bytes)
    ensures forall k | 0 <= k < |AsciiOnly(b)| :: Ascii(AsciiOnly(b)[k])
  {
    hide Ascii;
    if b != [] {
      AsciiOnlyIsAscii(b[1..]);
    }
  }

  lemma {:induction false} AsciiAccepted(b: Bytes)
    requires forall k | 0 <= k < |b| :: Ascii(b[k])
    ensures Accepted(b) && AsciiOnly(b) == b
  {
    if b != [] {
      assert b[..1] == [b[0]] && Chunk(b[..1]);
      AsciiAccepted(b[1..]);
    }
  }

  /** The ASCII bytes are kept one by one and in order, and no others. */
  lemma {:induction false} AsciiOnlyParts(a: Bytes, b: Bytes, x: bv8)
    ensures AsciiOnly([]) == [] && AsciiOnly([x]) == if x < 0x80 then [x] else []
    ensures AsciiOnly(a + b) == AsciiOnly(a) + AsciiOnly(b)
    decreases |a|
  {
    assert [x][1..] == [];
    hide Ascii;
    if a == [] {
      assert a + b == b;
    } else {
      assert (a + b)[0] == a[0] && (a + b)[1..] == a[1..] + b;
      AsciiOnlyParts(a[1..], b, x);
    }
  }

  /**
   The output is the input iff that is accepted, and else ASCII; it is always
   accepted, decoding it again changes nothing, and its ASCII bytes are those
   of the input.
   */
  lemma DecodedIsStable(raw: Bytes)
    ensures Decoded(raw) == raw <==> Accepted(raw)
    ensures !Accepted(raw) ==> forall b | b in Decoded(raw) :: b < 0x80
    ensures Accepted(Decoded(raw))
    ensures Decoded(Decoded(raw)) == Decoded(raw)
    ensures AsciiOnly(Decoded(raw)) == AsciiOnly(raw)
  {
    hide Accepted, AsciiOnly;
    if !Accepted(raw) {
      AsciiOnlyIsAscii(raw);
      AsciiAccepted(AsciiOnly(raw));
    }
  }
}
