/**
 SRSD frames: a 42-byte little-endian header, the payload and the check
 sequence; how a reply is gathered from datagrams and read.
 */
module Srsd {
  import opened Basics
  import Crc

  type Byte = b: int | 0 <= b < 256

  type Bytes = seq<Byte>

  const WORD := 0x1_0000_0000

  /** The low 32 bits of a number, low byte first. */
  function Le32(n: nat): (r: Bytes)
    ensures |r| == 4
  {
    [n % 256, n / 256 % 256, n / 256 / 256 % 256, n / 256 / 256 / 256 % 256]
  }

  function Le16(n: nat): (r: Bytes)
    ensures |r| == 2
  {
    [n % 256, n / 256 % 256]
  }

  function Get32(b: Bytes): nat
    requires |b| == 4
  {
    b[0] as int + 256 * (b[1] as int + 256 * (b[2] as int + 256 * (b[3] as int)))
  }

  lemma Le32Read(n: nat)
    ensures Get32(Le32(n)) == n % WORD
  {
    var q := n / 256;
    var r := q / 256;
    var s := r / 256;
    var t := s / 256;
    assert n == WORD * t + Get32(Le32(n));
  }

  lemma Carry(x: nat, m: nat)
    ensures (256 * x + m) / 256 == x + m / 256 && (256 * x + m) % 256 == m % 256
  {
  }

  lemma Le32Wraps(n: nat)
    ensures Le32(n % WORD) == Le32(n)
  {
    var d := n / WORD;
    var m := n % WORD;
    Carry(0x100_0000 * d, m);
    Carry(0x1_0000 * d, m / 256);
    Carry(256 * d, m / 256 / 256);
    Carry(d, m / 256 / 256 / 256);
  }

  /** "woorinet", padded to sixteen bytes. */
  const PROVIDER: Bytes := [0x77, 0x6F, 0x6F, 0x72, 0x69, 0x6E, 0x65, 0x74, 0, 0, 0, 0, 0, 0, 0, 0]

  /** "W35337396126969", padded to sixteen bytes. */
  const SECURE: Bytes :=
    [0x57, 0x33, 0x35, 0x33, 0x33, 0x37, 0x33, 0x39, 0x36, 0x31, 0x32, 0x36, 0x39, 0x36, 0x39, 0]

  /** Bytes as the checksum sees them, and back. */
  function Bits(data: Bytes): seq<bv8> {
    seq(|data|, i requires 0 <= i < |data| => data[i] as bv8)
  }

  function Numbers(data: seq<bv8>): Bytes {
    seq(|data|, i requires 0 <= i < |data| => data[i] as int)
  }

  lemma BitsOfNumbers(data: seq<bv8>)
    ensures Bits(Numbers(data)) == data
  {
  }

  lemma BitsConcat(a: Bytes, b: Bytes)
    ensures Bits(a + b) == Bits(a) + Bits(b)
  {
  }

  function Header(command: nat, size: nat): Bytes {
    Le32(42 + size + 2) + PROVIDER + SECURE + Le16(command) + Le32(size)
  }

  function Encode(command: nat, payload: Bytes): Bytes {
    var body := Header(command, |payload|) + payload;
    body + Numbers(Crc.Fcs(Bits(body)))
  }

  lemma HeaderShape(command: nat, size: nat)
    ensures var h := Header(command, size);
            |h| == 42 && h[..4] == Le32(44 + size) && h[38..42] == Le32(size)
  {
    hide Le32;
    assert 42 + size + 2 == 44 + size;
  }

  /** Where the fields of a frame are. */
  lemma EncodeShape(command: nat, payload: Bytes)
    ensures var f := Encode(command, payload);
            && |f| == 44 + |payload|
            && f[..4] == Le32(44 + |payload|)
            && f[38..42] == Le32(|payload|)
            && f[42..42 + |payload|] == payload
  {
    hide Le32, Header, Bits, Numbers, Crc.Fcs;
    HeaderShape(command, |payload|);
    var h := Header(command, |payload|);
    var c := Numbers(Crc.Fcs(Bits(h + payload)));
    CheckLength(h + payload);
    var f := Encode(command, payload);
    assert f == h + payload + c;
    assert f[..4] == h[..4] && f[38..42] == h[38..42];
    assert f[42..42 + |payload|] == payload;
  }

  /** The number that some bytes give, the first one counting least. */
  function Number(b: Bytes): nat {
    if b == [] then 0 else b[0] as int + 256 * Number(b[1..])
  }

  function Text(b: Bytes): string {
    seq(|b|, i requires 0 <= i < |b| => b[i] as char)
  }

  lemma NumberOfFour(b: Bytes)
    requires |b| == 4
    ensures Number(b) == Get32(b)
  {
    var c, d, e := b[1..], b[2..], b[3..];
    assert c[1..] == d && d[1..] == e && e[1..] == [];
    assert Number(e) == b[3] as int;
    assert Number(d) == b[2] as int + 256 * Number(e);
    assert Number(c) == b[1] as int + 256 * Number(d);
  }

  lemma NumberOfTwo(b: Bytes)
    requires |b| == 2
    ensures Number(b) == b[0] as int + 256 * b[1] as int
  {
    assert b[1..][1..] == [];
    assert Number(b[1..]) == b[1] as int;
  }

  /** The two identities in plain text. */
  lemma Identities()
    ensures Text(PROVIDER[..8]) == "woorinet" && Text(SECURE[..15]) == "W35337396126969"
    ensures |PROVIDER| == |SECURE| == 16 && SECURE[15] == 0 && forall i | 8 <= i < 16 :: PROVIDER[i] == 0
  {
  }

  lemma Le16Number(n: nat)
    ensures Number(Le16(n)) == n % 0x1_0000
  {
    NumberOfTwo(Le16(n));
    var q := n / 256;
    var r := q / 256;
    assert n == 0x1_0000 * r + Number(Le16(n));
  }

  lemma HeaderFields(command: nat, size: nat)
    ensures var h := Header(command, size);
            |h| == 42 && h[4..20] == PROVIDER && h[20..36] == SECURE && h[36..38] == Le16(command)
  {
    hide Le32, Le16;
  }

  /**
   What is on the wire: both lengths and the command low byte first, the
   identities padded with zeros, and the payload.
   */
  lemma FrameFields(command: nat, payload: Bytes)
    ensures var f := Encode(command, payload);
            && |f| == 44 + |payload|
            && Number(f[..4]) == (44 + |payload|) % 0x1_0000_0000
            && Text(f[4..12]) == "woorinet" && Text(f[20..35]) == "W35337396126969"
            && (forall i | 12 <= i < 20 || i == 35 :: f[i] == 0)
            && Number(f[36..38]) == command % 0x1_0000
            && Number(f[38..42]) == |payload| % 0x1_0000_0000
            && f[42..|f| - 2] == payload
  {
    hide Le32, Le16, Header, Bits, Numbers, Crc.Fcs, Number, Text, Get32;
    EncodeShape(command, payload);
    HeaderShape(command, |payload|);
    HeaderFields(command, |payload|);
    Identities();
    Le16Number(command);
    Le32Read(44 + |payload|);
    Le32Read(|payload|);
    NumberOfFour(Le32(44 + |payload|));
    NumberOfFour(Le32(|payload|));
    var h := Header(command, |payload|);
    var c := Numbers(Crc.Fcs(Bits(h + payload)));
    CheckLength(h + payload);
    var f := Encode(command, payload);
    assert f == h + (payload + c);
    assert f[..42] == h;
    assert f[4..12] == h[4..20][..8] && f[20..35] == h[20..36][..15] && f[36..38] == h[36..38];
    forall i | 12 <= i < 20 || i == 35
      ensures f[i] == 0
    {
      assert i < 20 ==> f[i] == h[4..20][i - 4];
      assert f[35] == h[20..36][15];
    }
  }

  lemma CheckLength(body: Bytes)
    ensures |Numbers(Crc.Fcs(Bits(body)))| == 2
  {
    hide Crc.Register, Crc.Low, Crc.High;
  }

  /** A frame with its check sequence leaves the constant of the standard. */
  lemma EncodeIsGood(command: nat, payload: Bytes)
    ensures Crc.Register(Crc.INITIAL, Bits(Encode(command, payload))) == Crc.GOOD
  {
    hide Le32, Header, Bits, Numbers, Crc.Register, Crc.Fcs;
    HeaderShape(command, |payload|);
    var body := Header(command, |payload|) + payload;
    var c := Crc.Fcs(Bits(body));
    BitsLength(body);
    BitsConcat(body, Numbers(c));
    BitsOfNumbers(c);
    Crc.MessageWithFcsIsGood(Bits(body));
  }

  lemma BitsLength(body: Bytes)
    ensures |Bits(body)| == |body|
  {
  }

  // ------------------------------------------------------------------
  // Building

  method PutBytes(buf: array<Byte>, at: nat, src: Bytes)
    requires at + |src| <= buf.Length
    modifies buf
    ensures buf[..] == old(buf[..at]) + src + old(buf[at + |src|..])
  {
    var i := 0;
    while i < |src|
      invariant 0 <= i <= |src|
      invariant forall k :: 0 <= k < i ==> buf[at + k] == src[k]
      invariant forall k :: 0 <= k < buf.Length && !(at <= k < at + i) ==> buf[k] == old(buf[k])
    {
      buf[at + i] := src[i];
      i := i + 1;
    }
  }

  /** The writes of the header fields, one after the other. */
  method BuildHeader(frameLength: nat, command: nat, payloadSize: nat) returns (header: array<Byte>)
    ensures fresh(header)
    ensures header[..] == Le32(frameLength) + PROVIDER + SECURE + Le16(command) + Le32(payloadSize)
  {
    hide Le32, Le16;
    header := new Byte[42];
    PutBytes(header, 0, Le32(frameLength));
    assert header[..4] == Le32(frameLength);
    PutBytes(header, 4, PROVIDER);
    assert header[..20] == Le32(frameLength) + PROVIDER;
    PutBytes(header, 20, SECURE);
    assert header[..36] == Le32(frameLength) + PROVIDER + SECURE;
    PutBytes(header, 36, Le16(command));
    assert header[..38] == Le32(frameLength) + PROVIDER + SECURE + Le16(command);
    PutBytes(header, 38, Le32(payloadSize));
  }

  /** `srsdBuildFrame`: both length fields are 32-bit numbers. */
  method BuildFrame(command: nat, payload: Bytes) returns (frame: Bytes)
    requires command < 0x1_0000
    ensures frame == Encode(command, payload)
  {
    hide Le32, Le16, Bits, Numbers, Crc.Fcs;
    var payloadSize := |payload| % WORD;
    var frameLength := (42 + payloadSize + 2) % WORD;
    Le32Wraps(|payload|);
    Le32Wraps(42 + |payload| + 2);
    assert frameLength == (42 + |payload| + 2) % WORD;
    var header := BuildHeader(frameLength, command, payloadSize);
    var body := header[..] + payload;
    var crc := Crc.Checksum(Bits(body));
    frame := body + Numbers(crc);
  }

  /** `struct.pack`, which refuses a number that does not fit its field. */
  function Pack32(n: nat): Option<Bytes> {
    if n < WORD then Some(Le32(n)) else None
  }

  function Pack16(n: nat): Option<Bytes> {
    if n < 0x1_0000 then Some(Le16(n)) else None
  }

  /** `_srsd_build_frame`. */
  function PackFrame(command: nat, payload: Bytes): Option<Bytes> {
    var frameLength, code, size := Pack32(42 + |payload| + 2), Pack16(command), Pack32(|payload|);
    if frameLength.None? || code.None? || size.None? then None
    else
      var header := frameLength.value + PROVIDER + SECURE + code.value + size.value;
      Some(header + payload + Numbers(Crc.Fcs(Bits(header + payload))))
  }

  /** Both agents send the same frame, and the Python agent refuses exactly what does not fit. */
  lemma AgentsSendTheSame(command: nat, payload: Bytes)
    ensures PackFrame(command, payload) ==
            if command < 0x1_0000 && 44 + |payload| < WORD then Some(Encode(command, payload)) else None
  {
    hide Le32, Le16, Bits, Numbers, Crc.Fcs;
  }

  // ------------------------------------------------------------------
  // Receiving

  /** What a read before the deadline brings: some bytes, and perhaps an error. */
  datatype Arrival = Arrival(bytes: Bytes, failed: bool)

  /** The announced length has been reached; lengths are compared as 32-bit numbers. */
  predicate Complete(resp: Bytes) {
    |resp| >= 4 && |resp| % WORD >= Get32(resp[..4])
  }

  predicate Stops(resp: Bytes, a: Arrival) {
    a.failed || (a.bytes != [] && Complete(resp + a.bytes))
  }

  /** The bytes gathered from the reads that come in time, and how many of them it takes. */
  function Gather(resp: Bytes, arrivals: seq<Arrival>): (Bytes, nat)
    decreases |arrivals|
  {
    if arrivals == [] then (resp, 0)
    else if Stops(resp, arrivals[0]) then (resp + arrivals[0].bytes, 1)
    else var r := Gather(resp + arrivals[0].bytes, arrivals[1..]); (r.0, r.1 + 1)
  }

  /** The receive loop of `srsdSendRecv`; the deadline passes when there is nothing more to read. */
  method Receive(arrivals: seq<Arrival>) returns (resp: Bytes, used: nat)
    ensures (resp, used) == Gather([], arrivals)
  {
    hide Complete;
    resp := [];
    used := 0;
    while used < |arrivals|
      invariant used <= |arrivals|
      invariant Gather([], arrivals) == (Gather(resp, arrivals[used..]).0, used + Gather(resp, arrivals[used..]).1)
    {
      var a := arrivals[used];
      assert arrivals[used..][1..] == arrivals[used + 1..];
      used := used + 1;
      if |a.bytes| > 0 {
        var was := resp;
        resp := resp + a.bytes;
        if Complete(resp) {
          return;
        }
      } else {
        assert resp + a.bytes == resp;
      }
      if a.failed {
        return;
      }
    }
  }

  function Flatten(chunks: seq<Arrival>): Bytes {
    if chunks == [] then [] else chunks[0].bytes + Flatten(chunks[1..])
  }

  /** The chunks are the frame in order, read without error, the last of them not empty. */
  predicate Splits(chunks: seq<Arrival>, frame: Bytes) {
    && chunks != []
    && chunks[|chunks| - 1].bytes != []
    && (forall i | 0 <= i < |chunks| :: !chunks[i].failed)
    && Flatten(chunks) == frame
  }

  lemma {:induction false} LastIsPartOf(chunks: seq<Arrival>)
    requires chunks != []
    ensures |Flatten(chunks)| >= |chunks[|chunks| - 1].bytes|
  {
    if |chunks| > 1 {
      LastIsPartOf(chunks[1..]);
    }
  }

  /** The loop goes on while only a proper beginning of the frame has come, and stops at its end. */
  lemma {:induction false} GatherRest(resp: Bytes, chunks: seq<Arrival>, more: seq<Arrival>, frame: Bytes)
    requires |frame| < WORD && |frame| >= 4 && Get32(frame[..4]) == |frame|
    requires |resp| < |frame| && resp == frame[..|resp|] && Splits(chunks, frame[|resp|..])
    ensures Gather(resp, chunks + more) == (frame, |chunks|)
    decreases |chunks|
  {
    hide Get32;
    var a := chunks[0];
    var all := chunks + more;
    var next := resp + a.bytes;
    assert all[0] == a && all[1..] == chunks[1..] + more;
    assert frame == resp + frame[|resp|..];
    if |chunks| == 1 {
      assert Flatten(chunks) == a.bytes + Flatten(chunks[1..]) == a.bytes;
      assert next == frame;
      assert Stops(resp, a);
    } else {
      LastIsPartOf(chunks[1..]);
      assert frame == next + Flatten(chunks[1..]);
      assert |next| < |frame| && next == frame[..|next|];
      assert frame[|next|..] == Flatten(chunks[1..]);
      if |next| >= 4 {
        assert next[..4] == frame[..4];
      }
      assert !Stops(resp, a);
      GatherRest(next, chunks[1..], more, frame);
    }
  }

  /** A read that fails before the frame has come ends the loop with what there is. */
  lemma {:induction false} GatherFails(resp: Bytes, chunks: seq<Arrival>, last: Arrival, more: seq<Arrival>,
          frame: Bytes)
    requires 4 <= |frame| < WORD && Get32(frame[..4]) == |frame| && last.failed
    requires (forall i | 0 <= i < |chunks| :: !chunks[i].failed)
    requires |resp + Flatten(chunks)| < |frame| && resp + Flatten(chunks) == frame[..|resp + Flatten(chunks)|]
    ensures Gather(resp, chunks + [last] + more) == (resp + Flatten(chunks) + last.bytes, |chunks| + 1)
    decreases |chunks|
  {
    hide Get32;
    var all := chunks + [last] + more;
    if chunks == [] {
      assert all[0] == last && resp + Flatten(chunks) == resp;
    } else {
      var a := chunks[0];
      var next := resp + a.bytes;
      assert all[0] == a && all[1..] == chunks[1..] + [last] + more;
      assert next + Flatten(chunks[1..]) == resp + Flatten(chunks);
      assert |next| < |frame| && next == frame[..|next|];
      if |next| >= 4 {
        assert next[..4] == frame[..4];
      }
      assert !Stops(resp, a);
      GatherFails(next, chunks[1..], last, more, frame);
    }
  }

  /** In particular: a frame that fits, some of which has come when a read fails. */
  lemma FailedReadEnds(command: nat, payload: Bytes, chunks: seq<Arrival>, last: Arrival, more: seq<Arrival>)
    requires 44 + |payload| < WORD && last.failed
    requires (forall i | 0 <= i < |chunks| :: !chunks[i].failed)
    requires Flatten(chunks) < Encode(command, payload)
    ensures Gather([], chunks + [last] + more) == (Flatten(chunks) + last.bytes, |chunks| + 1)
  {
    hide Encode, Get32;
    LengthAnnounced(command, payload);
    assert [] + Flatten(chunks) == Flatten(chunks);
    GatherFails([], chunks, last, more, Encode(command, payload));
  }

  lemma LengthAnnounced(command: nat, payload: Bytes)
    requires 44 + |payload| < WORD
    ensures var frame := Encode(command, payload);
            |frame| == 44 + |payload| && Get32(frame[..4]) == |frame|
  {
    hide Le32, Get32, Encode;
    EncodeShape(command, payload);
    Le32Read(44 + |payload|);
  }

  /** However a frame that fits is cut, the loop stops at its last piece with exactly the frame. */
  lemma SplitFrameArrives(command: nat, payload: Bytes, chunks: seq<Arrival>, more: seq<Arrival>)
    requires 44 + |payload| < WORD
    requires Splits(chunks, Encode(command, payload))
    ensures Gather([], chunks + more) == (Encode(command, payload), |chunks|)
  {
    hide Encode, Get32, Splits;
    var frame := Encode(command, payload);
    LengthAnnounced(command, payload);
    assert frame[0..] == frame && frame[..0] == [];
    GatherRest([], chunks, more, frame);
  }

  /** The size of the buffer that a read fills. */
  const BUFFER := 65535

  /** No read brings more than `most` bytes. */
  predicate Within(chunks: seq<Arrival>, most: nat) {
    forall i | 0 <= i < |chunks| :: |chunks[i].bytes| <= most
  }

  /** Bytes cut into pieces of `most` bytes and a last one that may be shorter. */
  function Pieces(b: Bytes, most: nat): (chunks: seq<Arrival>)
    requires most > 0
    ensures Within(chunks, most) && (b != [] ==> Splits(chunks, b))
    decreases |b|
  {
    if |b| <= most then PieceIsAll(b); [Arrival(b, false)]
    else
      var chunks := [Arrival(b[..most], false)] + Pieces(b[most..], most);
      assert chunks[1..] == Pieces(b[most..], most) && b == b[..most] + b[most..];
      chunks
  }

  lemma PieceIsAll(b: Bytes)
    ensures Flatten([Arrival(b, false)]) == b
  {
    assert [Arrival(b, false)][1..] == [];
  }

  lemma {:induction false} FlattenConcat(a: seq<Arrival>, b: seq<Arrival>)
    ensures Flatten(a + b) == Flatten(a) + Flatten(b)
  {
    if a == [] {
      assert a + b == b;
    } else {
      assert (a + b)[1..] == a[1..] + b;
      FlattenConcat(a[1..], b);
    }
  }

  lemma SplitsJoin(a: seq<Arrival>, b: seq<Arrival>, x: Bytes, y: Bytes)
    requires Splits(a, x) && Splits(b, y)
    ensures Splits(a + b, x + y)
  {
    FlattenConcat(a, b);
  }

  /** The loop stops at the latest when what it has gathered is complete. */
  lemma {:induction false} GatherStopsBy(resp: Bytes, chunks: seq<Arrival>, more: seq<Arrival>)
    requires chunks != [] && chunks[|chunks| - 1].bytes != [] && Complete(resp + Flatten(chunks))
    ensures Gather(resp, chunks + more).1 <= |chunks|
    decreases |chunks|
  {
    hide Complete;
    var a := chunks[0];
    var all := chunks + more;
    assert all[0] == a && all[1..] == chunks[1..] + more;
    if |chunks| == 1 {
      assert Flatten(chunks) == a.bytes + Flatten(chunks[1..]) == a.bytes;
    } else {
      assert resp + Flatten(chunks) == resp + a.bytes + Flatten(chunks[1..]);
      GatherStopsBy(resp + a.bytes, chunks[1..], more);
    }
  }

  /** Where a frame too long for the length field seems complete. */
  function EarlyCut(size: nat): nat {
    if size % WORD < 4 then 4 else size % WORD
  }

  lemma EarlyCutIsComplete(command: nat, payload: Bytes)
    requires 44 + |payload| >= WORD
    ensures var frame := Encode(command, payload);
            EarlyCut(|frame|) < |frame| && Complete(frame[..EarlyCut(|frame|)])
  {
    hide Encode, Get32, Le32;
    var frame := Encode(command, payload);
    EncodeShape(command, payload);
    Le32Read(44 + |payload|);
    var cut := EarlyCut(|frame|);
    assert frame[..cut][..4] == frame[..4];
  }

  /** A frame too long, cut into pieces up to there and from there on. */
  function EarlyPieces(frame: Bytes, most: nat): seq<Arrival>
    requires most > 0 && EarlyCut(|frame|) < |frame|
  {
    Pieces(frame[..EarlyCut(|frame|)], most) + Pieces(frame[EarlyCut(|frame|)..], most)
  }

  lemma LongFrameStopsEarly(command: nat, payload: Bytes, most: nat)
    requires 44 + |payload| >= WORD && most > 0
    ensures var frame := Encode(command, payload);
            && EarlyCut(|frame|) < |frame|
            && var chunks := EarlyPieces(frame, most);
               Splits(chunks, frame) && Within(chunks, most) && Gather([], chunks).1 < |chunks|
  {
    hide Encode, Complete, Splits, Gather, Pieces, EarlyCut;
    var frame := Encode(command, payload);
    EarlyCutIsComplete(command, payload);
    var cut := EarlyCut(|frame|);
    EarlyCutIsThere(|frame|);
    var first, second := Pieces(frame[..cut], most), Pieces(frame[cut..], most);
    SplitsJoin(first, second, frame[..cut], frame[cut..]);
    assert frame[..cut] + frame[cut..] == frame;
    SplitsAtAll(first, frame[..cut]);
    SplitsAtAll(second, frame[cut..]);
    assert [] + Flatten(first) == frame[..cut];
    GatherStopsBy([], first, second);
  }

  lemma EarlyCutIsThere(size: nat)
    ensures EarlyCut(size) >= 4
  {
  }

  lemma SplitsAtAll(chunks: seq<Arrival>, frame: Bytes)
    requires Splits(chunks, frame)
    ensures chunks != [] && chunks[|chunks| - 1].bytes != [] && Flatten(chunks) == frame
  {
  }

  /**
   Every way of cutting the frame into reads is put together again iff its
   length fits the length field; so for reads of any size, and for those of the
   buffer's.
   */
  lemma EverySplitArrivesIff(command: nat, payload: Bytes, most: nat)
    requires most > 0
    ensures (forall chunks | Splits(chunks, Encode(command, payload)) && Within(chunks, most) ::
               Gather([], chunks) == (Encode(command, payload), |chunks|))
            <==> 44 + |payload| < WORD
  {
    hide Encode, Splits, Gather, Within;
    if 44 + |payload| < WORD {
      forall chunks | Splits(chunks, Encode(command, payload)) && Within(chunks, most)
        ensures Gather([], chunks) == (Encode(command, payload), |chunks|)
      {
        SplitFrameArrives(command, payload, chunks, []);
        assert chunks + [] == chunks;
      }
    } else {
      LongFrameStopsEarly(command, payload, most);
    }
  }

  /** In particular for the reads that `srsdSendRecv` makes. */
  lemma EveryBufferedSplitArrivesIff(command: nat, payload: Bytes)
    ensures (forall chunks | Splits(chunks, Encode(command, payload)) && Within(chunks, BUFFER) ::
               Gather([], chunks) == (Encode(command, payload), |chunks|))
            <==> 44 + |payload| < WORD
  {
    hide Encode, Splits, Gather, Within;
    EverySplitArrivesIff(command, payload, BUFFER);
  }

  // ------------------------------------------------------------------
  // White space

  /** The encodings of the white space characters. */
  predicate Space(b: Bytes) {
    || (|b| == 1 && (9 <= b[0] <= 13 || b[0] == 32))
    || (|b| == 2 && b[0] == 0xC2 && b[1] in {0x85, 0xA0})
    || (|b| == 3 && b[0] == 0xE1 && b[1] == 0x9A && b[2] == 0x80)
    || (|b| == 3 && b[0] == 0xE2 && b[1] == 0x80 && (0x80 <= b[2] <= 0x8A || b[2] in {0xA8, 0xA9, 0xAF}))
    || (|b| == 3 && b[0] == 0xE2 && b[1] == 0x81 && b[2] == 0x9F)
    || (|b| == 3 && b[0] == 0xE3 && b[1] == 0x80 && b[2] == 0x80)
  }

  /** The characters with the Unicode property White_Space. */
  predicate WhiteSpace(cp: nat) {
    || 0x9 <= cp <= 0xD || cp == 0x20 || cp == 0x85 || cp == 0xA0 || cp == 0x1680
    || 0x2000 <= cp <= 0x200A || cp == 0x2028 || cp == 0x2029 || cp == 0x202F || cp == 0x205F || cp == 0x3000
  }

  /** UTF-8 of a character below 0x10000, by arithmetic. */
  function Utf8Of(cp: nat): Bytes
    requires cp < 0x1_0000
  {
    if cp < 0x80 then [cp]
    else if cp < 0x800 then [0xC0 + cp / 64, 0x80 + cp % 64]
    else [0xE0 + cp / 4096, 0x80 + cp / 64 % 64, 0x80 + cp % 64]
  }

  /** The character that some bytes would encode. */
  function CharOf(b: Bytes): nat
    requires 1 <= |b| <= 3
  {
    if |b| == 1 then b[0]
    else if |b| == 2 then (b[0] as int % 64) * 64 + b[1] as int % 64
    else (b[0] as int % 32) * 4096 + (b[1] as int % 64) * 64 + b[2] as int % 64
  }

  lemma WideChar(b: Bytes, cp: nat)
    requires |b| == 3 && 0x800 <= cp < 0x1_0000
    requires b[0] == 0xE0 + cp / 4096 && b[1] == 0x80 + cp / 64 % 64 && b[2] == 0x80 + cp % 64
    ensures CharOf(b) == cp && Utf8Of(cp) == b
  {
    var x, y, z := cp / 4096, cp / 64 % 64, cp % 64;
    var q := cp / 64;
    assert cp == 64 * q + z && q == 64 * x + y;
    SixBits(y);
    SixBits(z);
    assert (0xE0 + x) % 32 == x;
    assert b == [b[0], b[1], b[2]];
  }

  lemma SixBits(y: nat)
    requires y < 64
    ensures (0x80 + y) % 64 == y
  {
  }

  lemma WideSpace(b: Bytes)
    requires |b| == 3 && Space(b)
    ensures WhiteSpace(CharOf(b)) && CharOf(b) < 0x1_0000 && Utf8Of(CharOf(b)) == b
  {
    hide CharOf, Utf8Of;
    if b[0] == 0xE1 {
      WideChar(b, 0x1680);
    } else if b[0] == 0xE3 {
      WideChar(b, 0x3000);
    } else if b[1] == 0x81 {
      WideChar(b, 0x205F);
    } else {
      WideChar(b, 0x2000 + (b[2] as int - 0x80));
    }
  }

  lemma SpaceIsWhite(b: Bytes)
    requires Space(b)
    ensures 1 <= |b| <= 3 && WhiteSpace(CharOf(b)) && CharOf(b) < 0x1_0000 && Utf8Of(CharOf(b)) == b
  {
    SpaceBytes(b);
    if |b| == 3 {
      WideSpace(b);
    } else if |b| == 2 {
      assert b == [b[0], b[1]];
    } else {
      assert b == [b[0]];
    }
  }

  /** The white space recognised is the encoding of every white space character. */
  lemma SpaceIff(b: Bytes)
    ensures Space(b) <==> exists cp :: 0 <= cp < 0x1_0000 && WhiteSpace(cp) && Utf8Of(cp) == b
  {
    if Space(b) {
      SpaceIsWhite(b);
    }
  }

  predicate StartsWithSpace(s: Bytes, n: nat): (yes: bool)
    ensures yes ==> n <= |s|
  {
    n <= |s| && Space(s[..n])
  }

  predicate EndsWithSpace(s: Bytes, n: nat): (yes: bool)
    ensures yes ==> n <= |s|
  {
    n <= |s| && Space(s[|s| - n..])
  }

  /** The size of the white space character at the front; 0 if there is none. */
  function SpaceInFront(s: Bytes): (n: nat)
    ensures n <= |s| && n <= 3
    ensures n > 0 ==> StartsWithSpace(s, n)
  {
    hide Space, StartsWithSpace;
    if StartsWithSpace(s, 1) then 1
    else if StartsWithSpace(s, 2) then 2
    else if StartsWithSpace(s, 3) then 3
    else 0
  }

  function SpaceBehind(s: Bytes): (n: nat)
    ensures n <= |s| && n <= 3
    ensures n > 0 ==> EndsWithSpace(s, n)
  {
    hide Space, EndsWithSpace;
    if EndsWithSpace(s, 1) then 1
    else if EndsWithSpace(s, 2) then 2
    else if EndsWithSpace(s, 3) then 3
    else 0
  }

  function TrimFront(s: Bytes): Bytes
    decreases |s|
  {
    var n := SpaceInFront(s);
    if n == 0 then s else TrimFront(s[n..])
  }

  function TrimBehind(s: Bytes): Bytes
    decreases |s|
  {
    var n := SpaceBehind(s);
    if n == 0 then s else TrimBehind(s[..|s| - n])
  }

  /** `strings.TrimSpace`. */
  function TrimSpace(s: Bytes): Bytes {
    TrimBehind(TrimFront(s))
  }

  /** A run of white space characters. */
  predicate Blank(b: Bytes)
    decreases |b|
  {
    b == [] || (SpaceInFront(b) > 0 && Blank(b[SpaceInFront(b)..]))
  }

  predicate Trimmed(s: Bytes) {
    SpaceInFront(s) == 0 && SpaceBehind(s) == 0
  }

  lemma StartIsLocal(a: Bytes, rest: Bytes, n: nat)
    requires n <= |a|
    ensures StartsWithSpace(a + rest, n) == StartsWithSpace(a, n)
  {
    hide Space;
    assert (a + rest)[..n] == a[..n];
  }

  lemma EndIsLocal(rest: Bytes, b: Bytes, n: nat)
    requires n <= |b|
    ensures EndsWithSpace(rest + b, n) == EndsWithSpace(b, n)
  {
    hide Space;
    assert (rest + b)[|rest + b| - n..] == b[|b| - n..];
  }

  /** White space in front is seen whatever follows it. */
  lemma FrontIsLocal(a: Bytes, rest: Bytes)
    requires SpaceInFront(a) > 0
    ensures SpaceInFront(a + rest) == SpaceInFront(a)
  {
    hide Space, StartsWithSpace;
    var n := SpaceInFront(a);
    StartIsLocal(a, rest, 1);
    if n > 1 {
      StartIsLocal(a, rest, 2);
    }
    if n > 2 {
      StartIsLocal(a, rest, 3);
    }
  }

  /** ... and at the end whatever comes before it. */
  lemma BehindIsLocal(rest: Bytes, b: Bytes)
    requires SpaceBehind(b) > 0
    ensures SpaceBehind(rest + b) == SpaceBehind(b)
  {
    hide Space, EndsWithSpace;
    var n := SpaceBehind(b);
    EndIsLocal(rest, b, 1);
    if n > 1 {
      EndIsLocal(rest, b, 2);
    }
    if n > 2 {
      EndIsLocal(rest, b, 3);
    }
  }

  /** None appears by appending white space to what does not start with any. */
  lemma NoneInFront(core: Bytes, b: Bytes)
    requires core != [] && SpaceInFront(core) == 0
    requires b == [] || SpaceInFront(b) > 0
    ensures SpaceInFront(core + b) == 0
  {
    var s := core + b;
    forall n | 1 <= n <= 3 && n <= |core|
      ensures s[..n] == core[..n]
    {
    }
    if |b| > 0 {
      assert b[0] < 0x80 || b[0] >= 0xC2;
      if |core| < 3 {
        assert s[|core|] == b[0];
      }
    }
  }

  lemma SpaceBytes(s: Bytes)
    requires Space(s)
    ensures 1 <= |s| <= 3
    ensures |s| == 1 ==> s[0] < 0x80
    ensures |s| == 2 ==> s[0] == 0xC2 && s[1] >= 0x80
    ensures |s| == 3 ==> s[0] >= 0xE1 && 0x80 <= s[1] < 0xC2 && s[2] >= 0x80
  {
  }

  lemma PartOfSpace(s: Bytes, part: Bytes)
    requires Space(s) && 0 < |part| < |s|
    requires part == s[..|part|] || part == s[|s| - |part|..]
    ensures !Space(part)
  {
    hide Space;
    SpaceBytes(s);
    if Space(part) {
      SpaceBytes(part);
    }
  }

  /** A white space character contains no other, at either end. */
  lemma SpaceAlone(s: Bytes)
    requires Space(s)
    ensures 0 < SpaceInFront(s) == |s| == SpaceBehind(s)
  {
    hide Space;
    SpaceBytes(s);
    assert s[..|s|] == s == s[0..];
    if |s| > 1 {
      PartOfSpace(s, s[..1]);
      PartOfSpace(s, s[|s| - 1..]);
    }
    if |s| > 2 {
      PartOfSpace(s, s[..2]);
      PartOfSpace(s, s[|s| - 2..]);
    }
  }

  lemma BlankUnfolds(b: Bytes)
    ensures Blank(b) <==> b == [] || (SpaceInFront(b) > 0 && Blank(b[SpaceInFront(b)..]))
  {
    hide Space, SpaceInFront;
  }

  lemma BlankPrepend(first: Bytes, tail: Bytes)
    requires Space(first) && Blank(tail)
    ensures Blank(first + tail)
  {
    hide Space, SpaceInFront, Blank;
    SpaceAlone(first);
    FrontIsLocal(first, tail);
    assert (first + tail)[|first|..] == tail;
    BlankUnfolds(first + tail);
  }

  lemma SpaceIsBlank(s: Bytes)
    requires Space(s)
    ensures Blank(s)
  {
    hide Space, Blank;
    BlankUnfolds([]);
    BlankPrepend(s, []);
    assert s + [] == s;
  }

  lemma {:induction false} BlankConcat(a: Bytes, b: Bytes)
    requires Blank(a) && Blank(b)
    ensures Blank(a + b)
    decreases |a|
  {
    hide Space, SpaceInFront, Blank;
    BlankUnfolds(a);
    if a == [] {
      assert a + b == b;
    } else {
      var n := SpaceInFront(a);
      BlankConcat(a[n..], b);
      BlankPrepend(a[..n], a[n..] + b);
      assert a + b == a[..n] + (a[n..] + b);
    }
  }

  lemma TrimFrontStep(s: Bytes)
    ensures TrimFront(s) == if SpaceInFront(s) == 0 then s else TrimFront(s[SpaceInFront(s)..])
  {
    hide SpaceInFront;
  }

  lemma TrimBehindStep(s: Bytes)
    ensures TrimBehind(s) == if SpaceBehind(s) == 0 then s else TrimBehind(s[..|s| - SpaceBehind(s)])
  {
    hide SpaceBehind;
  }

  /** Everything taken off in front is white space, and then there is none left. */
  lemma {:induction false} TrimFrontShape(s: Bytes) returns (a: Bytes)
    ensures Blank(a) && s == a + TrimFront(s) && SpaceInFront(TrimFront(s)) == 0
    decreases |s|
  {
    hide Space, SpaceInFront, Blank, TrimFront;
    TrimFrontStep(s);
    var n := SpaceInFront(s);
    if n == 0 {
      a := [];
      BlankUnfolds([]);
    } else {
      var tail := TrimFrontShape(s[n..]);
      a := s[..n] + tail;
      assert s == s[..n] + s[n..];
      Regroup(s[..n], tail, TrimFront(s));
      BlankPrepend(s[..n], tail);
    }
  }

  /** Everything taken off behind is white space, and then there is none left. */
  lemma {:induction false} TrimBehindShape(s: Bytes) returns (b: Bytes)
    ensures Blank(b) && s == TrimBehind(s) + b && SpaceBehind(TrimBehind(s)) == 0
    decreases |s|
  {
    hide Space, SpaceBehind, Blank, TrimBehind;
    TrimBehindStep(s);
    var n := SpaceBehind(s);
    if n == 0 {
      b := [];
      BlankUnfolds([]);
    } else {
      var last := s[|s| - n..];
      var front := TrimBehindShape(s[..|s| - n]);
      b := front + last;
      assert s == s[..|s| - n] + last;
      Regroup(TrimBehind(s), front, last);
      SpaceIsBlank(last);
      BlankConcat(front, last);
    }
  }

  lemma {:induction false} BlankBehind(b: Bytes)
    requires Blank(b) && b != []
    ensures SpaceBehind(b) > 0 && Blank(b[..|b| - SpaceBehind(b)])
    decreases |b|
  {
    hide Space, SpaceInFront, SpaceBehind, Blank;
    BlankUnfolds(b);
    BlankUnfolds([]);
    var n := SpaceInFront(b);
    var rest := b[n..];
    SpaceIsBlank(b[..n]);
    SpaceAlone(b[..n]);
    assert b == b[..n] + rest;
    if rest == [] {
      assert b == b[..n];
      assert b[..0] == [];
    } else {
      BlankBehind(rest);
      BehindIsLocal(b[..n], rest);
      var m := SpaceBehind(rest);
      assert b[..|b| - m] == b[..n] + rest[..|rest| - m];
      BlankConcat(b[..n], rest[..|rest| - m]);
    }
  }

  lemma {:induction false} TrimBehindPadded(core: Bytes, b: Bytes)
    requires SpaceBehind(core) == 0 && Blank(b)
    ensures TrimBehind(core + b) == core
    decreases |b|
  {
    hide Space, SpaceInFront, SpaceBehind, Blank;
    if b == [] {
      assert core + b == core;
    } else {
      BlankBehind(b);
      BehindIsLocal(core, b);
      var m := SpaceBehind(b);
      assert (core + b)[..|core + b| - m] == core + b[..|b| - m];
      TrimBehindPadded(core, b[..|b| - m]);
    }
  }

  lemma {:induction false} TrimFrontPadded(a: Bytes, rest: Bytes)
    requires Blank(a) && SpaceInFront(rest) == 0
    ensures TrimFront(a + rest) == rest
    decreases |a|
  {
    hide Space, SpaceInFront, Blank;
    BlankUnfolds(a);
    if a == [] {
      assert a + rest == rest;
    } else {
      FrontIsLocal(a, rest);
      var n := SpaceInFront(a);
      assert (a + rest)[n..] == a[n..] + rest;
      TrimFrontPadded(a[n..], rest);
    }
  }

  /** The input is the text between two runs of white space. */
  ghost predicate Padded(s: Bytes, core: Bytes) {
    exists a: Bytes, b: Bytes | Blank(a) && Blank(b) :: s == a + core + b
  }

  lemma TrimSpaceShape(s: Bytes)
    ensures Trimmed(TrimSpace(s)) && Padded(s, TrimSpace(s))
  {
    hide Space, SpaceInFront, SpaceBehind, Blank, TrimFront, TrimBehind;
    var a := TrimFrontShape(s);
    var b := TrimBehindShape(TrimFront(s));
    var core := TrimSpace(s);
    Regroup(a, core, b);
    assert s == a + core + b;
    if SpaceInFront(core) > 0 {
      FrontIsLocal(core, b);
    }
  }

  lemma TrimSpacePadded(a: Bytes, core: Bytes, b: Bytes)
    requires Blank(a) && Blank(b) && Trimmed(core)
    ensures TrimSpace(a + core + b) == core
  {
    hide Space, SpaceInFront, SpaceBehind, Blank, TrimFront, TrimBehind;
    if core == [] {
      assert a + core + b == (a + b) + [];
      BlankUnfolds([]);
      BlankConcat(a, b);
      TrimFrontPadded(a + b, []);
      assert [] + core == core;
      TrimBehindPadded(core, []);
    } else {
      BlankUnfolds(b);
      NoneInFront(core, b);
      Regroup(a, core, b);
      TrimFrontPadded(a, core + b);
      TrimBehindPadded(core, b);
    }
  }

  /** Trimming gives exactly the text that is left when white space is taken off both ends and no more can be. */
  lemma TrimSpaceIff(s: Bytes, core: Bytes)
    ensures TrimSpace(s) == core <==> Trimmed(core) && Padded(s, core)
  {
    hide Blank, Trimmed, TrimSpace;
    TrimSpaceShape(s);
    if Trimmed(core) && Padded(s, core) {
      var a: Bytes, b: Bytes :| Blank(a) && Blank(b) && s == a + core + b;
      TrimSpacePadded(a, core, b);
    }
  }

  // ------------------------------------------------------------------
  // Reading a reply

  /** `srsdResult`, by what `srsdParse` found. */
  datatype Reply =
    | Short(size: nat)
    | DaemonError(text: Bytes)
    | AtAnswer(text: Bytes)
    | ShellOutput(text: Bytes)

  predicate IsDaemonError(text: Bytes) {
    Text(text) in ["PROVIDER ERROR", "SECURE CODE ERROR", "CRC ERROR",
                   "UNSUPPORTED", "INVALID ARGUMENT", "INTERNAL ERROR"]
  }

  /** `srsdParse`. */
  function Parse(data: Bytes, at: bool): Reply {
    if |data| < 42 then Short(|data|)
    else
      var end := 42 + Get32(data[38..42]);
      var text := TrimSpace(data[42..if end > |data| then |data| else end]);
      if IsDaemonError(text) then DaemonError(text)
      else if at then AtAnswer(text)
      else ShellOutput(text)
  }

  lemma ParseEncoded(command: nat, payload: Bytes, at: bool)
    requires |payload| < WORD
    ensures Parse(Encode(command, payload), at) ==
            var text := TrimSpace(payload);
            if IsDaemonError(text) then DaemonError(text) else if at then AtAnswer(text) else ShellOutput(text)
  {
    hide Encode, Le32, Get32, TrimSpace, IsDaemonError;
    EncodeShape(command, payload);
    Le32Read(|payload|);
  }

  /**
   A frame that fits, cut in any way and read with anything after it: the read
   bytes hold exactly the payload without the white space around it, taken for
   an error of the daemon iff that text is one of the six.
   */
  lemma RoundTrip(command: nat, payload: Bytes, chunks: seq<Arrival>, more: seq<Arrival>, at: bool, core: Bytes)
    requires 44 + |payload| < WORD
    requires Splits(chunks, Encode(command, payload))
    requires Trimmed(core) && Padded(payload, core)
    ensures Parse(Gather([], chunks + more).0, at) ==
            if Text(core) in ["PROVIDER ERROR", "SECURE CODE ERROR", "CRC ERROR",
                              "UNSUPPORTED", "INVALID ARGUMENT", "INTERNAL ERROR"] then DaemonError(core)
            else if at then AtAnswer(core)
            else ShellOutput(core)
  {
    hide Encode, Splits, Gather, Parse, TrimSpace, Trimmed, Padded;
    SplitFrameArrives(command, payload, chunks, more);
    ParseEncoded(command, payload, at);
    TrimSpaceIff(payload, core);
  }

  /** Of a frame cut off too early, what has come of the payload is read. */
  lemma ParseBeginning(command: nat, payload: Bytes, n: nat, at: bool)
    requires |payload| < WORD && n <= 42 + |payload|
    ensures var reply := Parse(Encode(command, payload)[..n], at);
            && (n < 42 <==> reply.Short?)
            && (n < 42 ==> reply == Short(n))
            && (n >= 42 ==> reply.text == TrimSpace(payload[..n - 42]))
  {
    hide Encode, Le32, Get32, TrimSpace, IsDaemonError;
    EncodeShape(command, payload);
    Le32Read(|payload|);
    var f := Encode(command, payload);
    if n >= 42 {
      assert f[..n][38..42] == f[38..42];
      assert f[..n][42..n] == payload[..n - 42];
    }
  }

  /** Sending what was read out once more reads the same. */
  lemma TrimTwice(s: Bytes)
    ensures TrimSpace(TrimSpace(s)) == TrimSpace(s)
  {
    hide TrimSpace, Trimmed, Blank;
    var core := TrimSpace(s);
    TrimSpaceShape(s);
    BlankUnfolds([]);
    assert core == [] + core + [];
    TrimSpaceIff(core, core);
  }
}
