// MENV v1 headers and frames (internal/protocol).
module Protocol {
  import opened Bits

  type uint16 = x: int | 0 <= x < 0x1_0000
  type uint32 = x: int | 0 <= x < 0x1_0000_0000
  type uint64 = x: int | 0 <= x < 0x1_0000_0000_0000_0000

  const MAGIC: uint32 := 0x4D45_4E56
  const VERSION1: byte := 1
  const HEADER_SIZE := 32
  const MAX_PAYLOAD_DEFAULT: uint32 := 0x10_0000
  const MAX_PAYLOAD_HARD_CAP: uint32 := 0x80_0000

  const OP_DATA: uint16 := 1
  const OP_PING: uint16 := 2
  const OP_PONG: uint16 := 3
  const OP_CLOSE: uint16 := 4
  const OP_ERROR: uint16 := 5

  datatype Header = Header(
    magic: uint32, version: byte, flags: byte, opcode: uint16, headerLen: uint16, reserved: uint16,
    routeID: uint32, streamID: uint32, payloadLen: uint32, requestID: uint64)

  datatype Error =
    | ShortHeader | BadMagic | BadVersion | BadFlags | BadHeaderLen | BadReserved
    | UnknownOpcode | PayloadTooLarge

  datatype Verdict = Ok | Err(error: Error)

  predicate KnownOpcode(op: uint16) {
    OP_DATA <= op <= OP_ERROR
  }

  function Validate(h: Header, maxPayload: uint32): Verdict {
    if h.magic != MAGIC then Err(BadMagic)
    else if h.version != VERSION1 then Err(BadVersion)
    else if h.flags != 0 then Err(BadFlags)
    else if h.headerLen != HEADER_SIZE then Err(BadHeaderLen)
    else if h.reserved != 0 then Err(BadReserved)
    else if !KnownOpcode(h.opcode) then Err(UnknownOpcode)
    else if h.payloadLen > maxPayload then Err(PayloadTooLarge)
    else Ok
  }

  function NewHeader(op: uint16, routeID: uint32, streamID: uint32, payloadLen: uint32, requestID: uint64): Header {
    Header(MAGIC, VERSION1, 0, op, HEADER_SIZE, 0, routeID, streamID, payloadLen, requestID)
  }

  // ---- Big-endian numbers ----

  /** 256 to the n. */
  function Base(n: nat): (p: nat)
    ensures p >= 1
  {
    if n == 0 then 1 else 256 * Base(n - 1)
  }

  /** The n low bytes of v, most significant first. */
  function Be(v: nat, n: nat): (s: seq<byte>)
    ensures |s| == n
  {
    if n == 0 then [] else Be(v / 256, n - 1) + [v % 256]
  }

  function FromBe(s: seq<byte>): (v: nat)
    ensures v < Base(|s|)
  {
    if s == [] then 0 else 256 * FromBe(s[..|s| - 1]) + s[|s| - 1]
  }

  lemma {:induction false} FromBeOfBe(v: nat, n: nat)
    requires v < Base(n)
    ensures FromBe(Be(v, n)) == v
  {
    if n > 0 {
      FromBeOfBe(v / 256, n - 1);
      assert Be(v, n)[..n - 1] == Be(v / 256, n - 1);
    }
  }

  lemma {:induction false} BeOfFromBe(s: seq<byte>)
    ensures Be(FromBe(s), |s|) == s
  {
    if s != [] {
      var init := s[..|s| - 1];
      BeOfFromBe(init);
      assert FromBe(s) / 256 == FromBe(init) && FromBe(s) % 256 == s[|s| - 1];
      assert s == init + [s[|s| - 1]];
    }
  }

  lemma Widths()
    ensures Base(2) == 0x1_0000 && Base(4) == 0x1_0000_0000 && Base(8) == 0x1_0000_0000_0000_0000
  {
    assert Base(2) == 0x1_0000;
    assert Base(4) == 0x1_0000_0000;
    assert Base(6) == 0x1_0000_0000_0000;
  }

  // ---- Header codec ----

  /** The 32 bytes of a header. */
  function Encode(h: Header): (s: seq<byte>)
    ensures |s| == HEADER_SIZE
  {
    Be(h.magic, 4) + [h.version] + [h.flags] + Be(h.opcode, 2) + Be(h.headerLen, 2) + Be(h.reserved, 2)
    + Be(h.routeID, 4) + Be(h.streamID, 4) + Be(h.payloadLen, 4) + Be(h.requestID, 8)
  }

  /** The fields of 32 bytes, whatever they are. */
  function Fields(s: seq<byte>): Header
    requires |s| == HEADER_SIZE
  {
    Widths();
    Header(FromBe(s[0..4]), s[4], s[5], FromBe(s[6..8]), FromBe(s[8..10]), FromBe(s[10..12]),
           FromBe(s[12..16]), FromBe(s[16..20]), FromBe(s[20..24]), FromBe(s[24..32]))
  }

  /** Decoding undoes encoding, for every header value. */
  lemma FieldsOfEncode(h: Header)
    ensures Fields(Encode(h)) == h
  {
    Widths();
    EncodeParts(h);
    FromBeOfBe(h.magic, 4);
    FromBeOfBe(h.opcode, 2);
    FromBeOfBe(h.headerLen, 2);
    FromBeOfBe(h.reserved, 2);
    FromBeOfBe(h.routeID, 4);
    FromBeOfBe(h.streamID, 4);
    FromBeOfBe(h.payloadLen, 4);
    FromBeOfBe(h.requestID, 8);
  }

  /** Where each field lies. */
  lemma EncodeParts(h: Header)
    ensures var s := Encode(h);
            && s[0..4] == Be(h.magic, 4) && s[4] == h.version && s[5] == h.flags
            && s[6..8] == Be(h.opcode, 2) && s[8..10] == Be(h.headerLen, 2) && s[10..12] == Be(h.reserved, 2)
            && s[12..16] == Be(h.routeID, 4) && s[16..20] == Be(h.streamID, 4)
            && s[20..24] == Be(h.payloadLen, 4) && s[24..32] == Be(h.requestID, 8)
  {}

  lemma Be2(v: uint16)
    ensures Be(v, 2) == [v / 0x100, v % 0x100]
  {
    assert Be(v / 0x100, 1) == [v / 0x100];
  }

  lemma Be4(v: uint32)
    ensures Be(v, 4) == [v / 0x100_0000, v / 0x1_0000 % 0x100, v / 0x100 % 0x100, v % 0x100]
  {
    Be2(v / 0x1_0000);
    assert v / 0x100 / 0x100 == v / 0x1_0000 && v / 0x1_0000 / 0x100 == v / 0x100_0000;
    assert Be(v / 0x100, 3) == Be(v / 0x1_0000, 2) + [v / 0x100 % 0x100];
  }

  lemma LastFour(v: nat)
    ensures Be(v, 8)
            == Be(v / 0x1_0000_0000, 4)
               + [v / 0x100_0000 % 0x100, v / 0x1_0000 % 0x100, v / 0x100 % 0x100, v % 0x100]
  {
    var a, b, c, d := v / 0x100, v / 0x1_0000, v / 0x100_0000, v / 0x1_0000_0000;
    assert a / 0x100 == b && b / 0x100 == c && c / 0x100 == d;
    assert Be(v, 8) == Be(a, 7) + [v % 0x100];
    assert Be(a, 7) == Be(b, 6) + [a % 0x100];
    assert Be(b, 6) == Be(c, 5) + [b % 0x100];
    assert Be(c, 5) == Be(d, 4) + [c % 0x100];
    hide Be;
  }

  lemma Digits(v: uint32)
    ensures v == v / 0x100_0000 * 0x100_0000 + v / 0x1_0000 % 0x100 * 0x1_0000 + v / 0x100 % 0x100 * 0x100 + v % 0x100
  {
    var a, b, c := v / 0x100, v / 0x1_0000, v / 0x100_0000;
    assert a / 0x100 == b && b / 0x100 == c;
    assert v == 0x100 * a + v % 0x100 && a == 0x100 * b + a % 0x100 && b == 0x100 * c + b % 0x100;
  }

  /** The 32 bytes of a header, one by one: every number has its most significant byte first. */
  lemma HeaderBytes(h: Header)
    ensures var s := Encode(h);
            && s[0..4] == [h.magic / 0x100_0000, h.magic / 0x1_0000 % 0x100, h.magic / 0x100 % 0x100, h.magic % 0x100]
            && s[4] == h.version && s[5] == h.flags
            && s[6] == h.opcode / 0x100 && s[7] == h.opcode % 0x100
            && s[8] == h.headerLen / 0x100 && s[9] == h.headerLen % 0x100
            && s[10] == h.reserved / 0x100 && s[11] == h.reserved % 0x100
    ensures Encode(h)[12..16]
            == [h.routeID / 0x100_0000, h.routeID / 0x1_0000 % 0x100, h.routeID / 0x100 % 0x100, h.routeID % 0x100]
    ensures Encode(h)[16..20]
            == [h.streamID / 0x100_0000, h.streamID / 0x1_0000 % 0x100, h.streamID / 0x100 % 0x100, h.streamID % 0x100]
    ensures Encode(h)[20..24]
            == [h.payloadLen / 0x100_0000, h.payloadLen / 0x1_0000 % 0x100,
                h.payloadLen / 0x100 % 0x100, h.payloadLen % 0x100]
  {
    EncodeParts(h);
    Be4(h.magic);
    Be2(h.opcode);
    Be2(h.headerLen);
    Be2(h.reserved);
    Be4(h.routeID);
    Be4(h.streamID);
    Be4(h.payloadLen);
    hide Encode, Be;
    var s := Encode(h);
    assert s[6..8][0] == s[6] && s[6..8][1] == s[7];
    assert s[8..10][0] == s[8] && s[8..10][1] == s[9];
    assert s[10..12][0] == s[10] && s[10..12][1] == s[11];
  }

  lemma RequestBytes(h: Header)
    ensures var hi := h.requestID / 0x1_0000_0000;
            && Encode(h)[24..28] == [hi / 0x100_0000, hi / 0x1_0000 % 0x100, hi / 0x100 % 0x100, hi % 0x100]
    ensures var v := h.requestID;
            && Encode(h)[28..32] == [v / 0x100_0000 % 0x100, v / 0x1_0000 % 0x100, v / 0x100 % 0x100, v % 0x100]
  {
    EncodeParts(h);
    LastFour(h.requestID);
    Be4(h.requestID / 0x1_0000_0000);
    hide Encode, Be;
    var s := Encode(h);
    assert s[24..28] == s[24..32][..4] && s[28..32] == s[24..32][4..];
  }

  /** What every header of the protocol begins with: the letters MENV. */
  lemma MagicBytes(h: Header)
    ensures h.magic == MAGIC <==> Encode(h)[0..4] == [0x4D, 0x45, 0x4E, 0x56]
  {
    EncodeParts(h);
    Be4(h.magic);
    Digits(h.magic);
    hide Encode, Be;
    MagicDigits(h.magic);
  }

  lemma MagicDigits(v: uint32)
    requires v == v / 0x100_0000 * 0x100_0000 + v / 0x1_0000 % 0x100 * 0x1_0000 + v / 0x100 % 0x100 * 0x100 + v % 0x100
    ensures [v / 0x100_0000, v / 0x1_0000 % 0x100, v / 0x100 % 0x100, v % 0x100] == [0x4D, 0x45, 0x4E, 0x56] <==>
            v == MAGIC
  {
    var x := [v / 0x100_0000, v / 0x1_0000 % 0x100, v / 0x100 % 0x100, v % 0x100];
    if x == [0x4D, 0x45, 0x4E, 0x56] {
      assert x[0] == 0x4D && x[1] == 0x45 && x[2] == 0x4E && x[3] == 0x56;
    }
  }

  /** Encoding undoes decoding, for every 32 bytes. */
  lemma EncodeOfFields(s: seq<byte>)
    requires |s| == HEADER_SIZE
    ensures Encode(Fields(s)) == s
  {
    BeOfFromBe(s[0..4]);
    BeOfFromBe(s[6..8]);
    BeOfFromBe(s[8..10]);
    BeOfFromBe(s[10..12]);
    BeOfFromBe(s[12..16]);
    BeOfFromBe(s[16..20]);
    BeOfFromBe(s[20..24]);
    BeOfFromBe(s[24..32]);
    EncodeParts(Fields(s));
    SplitAt(s, Encode(Fields(s)));
  }

  lemma SplitAt(s: seq<byte>, t: seq<byte>)
    requires |s| == |t| == 32
    requires s[0..4] == t[0..4] && s[4] == t[4] && s[5] == t[5] && s[6..8] == t[6..8]
    requires s[8..10] == t[8..10] && s[10..12] == t[10..12] && s[12..16] == t[12..16]
    requires s[16..20] == t[16..20] && s[20..24] == t[20..24] && s[24..32] == t[24..32]
    ensures s == t
  {
    assert s == s[0..4] + [s[4]] + [s[5]] + s[6..8] + s[8..10] + s[10..12]
                + s[12..16] + s[16..20] + s[20..24] + s[24..32];
    assert t == t[0..4] + [t[4]] + [t[5]] + t[6..8] + t[8..10] + t[10..12]
                + t[12..16] + t[16..20] + t[20..24] + t[24..32];
  }

  /** binary.BigEndian.PutUintN at b[at:]. */
  method PutBe(b: array<byte>, at: nat, v: nat, n: nat)
    requires at + n <= b.Length
    modifies b
    ensures b[..at + n] == old(b[..at]) + Be(v, n)
    ensures forall k :: at + n <= k <= b.Length ==> b[k..] == old(b[k..])
  {
    var k, rest := n, v;
    while k > 0
      invariant 0 <= k <= n && rest >= 0
      invariant Be(rest, k) + b[at + k..at + n] == Be(v, n)
      invariant b[..at] == old(b[..at]) && b[at + n..] == old(b[at + n..])
    {
      k := k - 1;
      b[at + k] := rest % 256;
      assert b[at + k..at + n] == [rest % 256] + b[at + k + 1..at + n];
      rest := rest / 256;
    }
    assert b[..at + n] == b[..at] + b[at..at + n];
    forall k | at + n <= k <= b.Length ensures b[k..] == old(b[k..]) {
      assert b[k..] == b[at + n..][k - (at + n)..];
      assert old(b[k..]) == old(b[at + n..])[k - (at + n)..];
    }
  }

  method EncodeHeader(h: Header, b: array<byte>)
    requires b.Length >= HEADER_SIZE
    modifies b
    ensures b[..HEADER_SIZE] == Encode(h) && b[HEADER_SIZE..] == old(b[HEADER_SIZE..])
  {
    EncodeFixed(h, b);
    PutBe(b, 12, h.routeID, 4);
    PutBe(b, 16, h.streamID, 4);
    PutBe(b, 20, h.payloadLen, 4);
    PutBe(b, 24, h.requestID, 8);
  }

  /** The fields up to reserved. */
  method EncodeFixed(h: Header, b: array<byte>)
    requires b.Length >= HEADER_SIZE
    modifies b
    ensures b[..12] == Be(h.magic, 4) + [h.version] + [h.flags] + Be(h.opcode, 2) + Be(h.headerLen, 2) + Be(h.reserved,
            2)
    ensures b[HEADER_SIZE..] == old(b[HEADER_SIZE..])
  {
    assert b[..0] == [];
    PutBe(b, 0, h.magic, 4);
    PutByte(b, 4, h.version);
    PutByte(b, 5, h.flags);
    PutBe(b, 6, h.opcode, 2);
    PutBe(b, 8, h.headerLen, 2);
    PutBe(b, 10, h.reserved, 2);
  }

  method PutByte(b: array<byte>, at: nat, v: byte)
    requires at < b.Length
    modifies b
    ensures b[..at + 1] == old(b[..at]) + [v]
    ensures forall k :: at + 1 <= k <= b.Length ==> b[k..] == old(b[k..])
  {
    b[at] := v;
  }

  /** Fills the header even when it then reports it invalid, as the caller's struct is. */
  method DecodeHeader(b: seq<byte>, h0: Header) returns (h: Header, v: Verdict)
    ensures |b| < HEADER_SIZE ==> h == h0 && v == Err(ShortHeader)
    ensures |b| >= HEADER_SIZE ==> Encode(h) == b[..HEADER_SIZE] && v == Validate(h, MAX_PAYLOAD_HARD_CAP)
  {
    if |b| < HEADER_SIZE { return h0, Err(ShortHeader); }
    h := Fields(b[..HEADER_SIZE]);
    EncodeOfFields(b[..HEADER_SIZE]);
    v := Validate(h, MAX_PAYLOAD_HARD_CAP);
  }

  // ---- Frames ----

  datatype Frame = Frame(hdr: Header, payload: seq<byte>) {
    /** A header that passes the hard cap, and as many payload bytes as it says. */
    ghost predicate Valid(limit: uint32) {
      Validate(hdr, limit) == Ok && |payload| == hdr.payloadLen
    }
  }

  function Raw(f: Frame): seq<byte> {
    Encode(f.hdr) + f.payload
  }

  /** The bytes of frames sent one after the other. */
  function RawAll(fs: seq<Frame>): seq<byte> {
    if fs == [] then [] else RawAll(fs[..|fs| - 1]) + Raw(fs[|fs| - 1])
  }

  lemma RawAllSnoc(fs: seq<Frame>, f: Frame)
    ensures RawAll(fs + [f]) == RawAll(fs) + Raw(f)
  {
    var gs := fs + [f];
    assert gs[..|gs| - 1] == fs;
  }

  lemma {:induction false} RawAllCons(f: Frame, fs: seq<Frame>)
    ensures RawAll([f] + fs) == Raw(f) + RawAll(fs)
  {
    if fs == [] {
      assert [f] + fs == [] + [f];
      RawAllSnoc([], f);
    } else {
      var init, last := fs[..|fs| - 1], fs[|fs| - 1];
      assert [f] + fs == ([f] + init) + [last] && fs == init + [last];
      RawAllCons(f, init);
      RawAllSnoc([f] + init, last);
      RawAllSnoc(init, last);
      assert Raw(f) + RawAll(init) + Raw(last) == Raw(f) + (RawAll(init) + Raw(last));
    }
  }

  // ---- ERROR frames ----

  const MAX_MESSAGE := 256

  function Clip(msg: seq<byte>): (m: seq<byte>)
    ensures |m| == (if |msg| <= 256 then |msg| else 256) && m <= msg
  {
    if |msg| > MAX_MESSAGE then msg[..MAX_MESSAGE] else msg
  }

  /** The frame that EncodeError writes. */
  function ErrorFrame(req: Header, code: uint16, msg: seq<byte>): Frame {
    Frame(NewHeader(OP_ERROR, req.routeID, req.streamID, 2 + |Clip(msg)|, req.requestID), Be(code, 2) + Clip(msg))
  }

  /** Writes into dst when it has the room, otherwise into a new array. */
  method EncodeError(dst: array<byte>, req: Header, code: uint16, msg: seq<byte>) returns (out: array<byte>, n: nat)
    modifies dst
    ensures n <= out.Length && out[..n] == Raw(ErrorFrame(req, code, msg))
    ensures out == dst || fresh(out)
    ensures out == dst <==> dst.Length >= 34 + (if |msg| <= 256 then |msg| else 256)
    ensures out != dst ==> dst[..] == old(dst[..])
    ensures out == dst ==> dst[n..] == old(dst[n..])
  {
    hide Encode, Be;
    var m := msg;
    if |m| > MAX_MESSAGE { m := m[..MAX_MESSAGE]; }
    n := HEADER_SIZE + 2 + |m|;
    out := dst;
    if dst.Length < n { out := new byte[n]; }
    ghost var tail := out[n..];
    EncodeHeader(NewHeader(OP_ERROR, req.routeID, req.streamID, 2 + |m|, req.requestID), out);
    assert out[n..] == out[HEADER_SIZE..][n - HEADER_SIZE..];
    FillPayload(out, code, m);
  }

  method FillPayload(out: array<byte>, code: uint16, m: seq<byte>)
    requires HEADER_SIZE + 2 + |m| <= out.Length
    modifies out
    ensures out[..HEADER_SIZE + 2 + |m|] == old(out[..HEADER_SIZE]) + Be(code, 2) + m
    ensures out[HEADER_SIZE + 2 + |m|..] == old(out[HEADER_SIZE + 2 + |m|..])
  {
    out[HEADER_SIZE] := code / 256;
    out[HEADER_SIZE + 1] := code % 256;
    assert Be(code, 2) == [code / 256 % 256, code % 256];
    var i := 0;
    while i < |m|
      invariant 0 <= i <= |m|
      invariant out[..HEADER_SIZE + 2 + i] == old(out[..HEADER_SIZE]) + Be(code, 2) + m[..i]
      invariant out[HEADER_SIZE + 2 + |m|..] == old(out[HEADER_SIZE + 2 + |m|..])
    {
      out[HEADER_SIZE + 2 + i] := m[i];
      assert m[..i + 1] == m[..i] + [m[i]];
      i := i + 1;
    }
    assert m[..|m|] == m;
  }

  /** Decoding against the hard cap and then against the limit is validating once against the limit. */
  lemma ValidateTwice(h: Header, limit: uint32)
    requires limit <= MAX_PAYLOAD_HARD_CAP
    ensures (if Validate(h, MAX_PAYLOAD_HARD_CAP) == Ok then Validate(h, limit)
             else Validate(h, MAX_PAYLOAD_HARD_CAP)) == Validate(h, limit)
  {}

  /** The code and the clipped message can be read back from an ERROR frame. */
  lemma ErrorFrameReads(req: Header, code: uint16, msg: seq<byte>)
    ensures var f := ErrorFrame(req, code, msg);
            && f.Valid(258) && f.hdr.opcode == OP_ERROR && f.hdr.requestID == req.requestID
            && f.hdr.routeID == req.routeID && f.hdr.streamID == req.streamID
            && FromBe(f.payload[..2]) == code && f.payload[2..] == Clip(msg)
    ensures var p := ErrorFrame(req, code, msg).payload;
            && p[0] == code / 0x100 && p[1] == code % 0x100
            && p[2..] == if |msg| <= 256 then msg else msg[..256]
  {
    Widths();
    Be2(code);
    FromBeOfBe(code, 2);
    var f := ErrorFrame(req, code, msg);
    assert f.payload[..2] == Be(code, 2);
  }
}
