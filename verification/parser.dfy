// The incremental frame parser (internal/protocol/parser.go) and the one-shot parse it agrees with.
module Parsing {
  import opened Bits
  import opened Protocol
  import opened Buffer

  /** What the parser remembers between calls. */
  datatype ParserState = ParserState(haveHdr: bool, hdr: Header)

  const ZERO_HEADER := Header(0, 0, 0, 0, 0, 0, 0, 0, 0, 0)
  const FRESH := ParserState(false, ZERO_HEADER)

  /** The payload limit in force: zero means the default, and nothing exceeds the hard cap. */
  function Limit(maxPayload: uint32): (m: uint32)
    ensures 0 < m <= MAX_PAYLOAD_HARD_CAP
  {
    if maxPayload == 0 then MAX_PAYLOAD_DEFAULT
    else if maxPayload > MAX_PAYLOAD_HARD_CAP then MAX_PAYLOAD_HARD_CAP
    else maxPayload
  }

  datatype Answer = More | Complete | Failed(error: Error)

  /** The outcome of one Next on the queued bytes: the new state, the bytes dropped, the answer. */
  datatype Step = Step(state: ParserState, dropped: nat, answer: Answer)

  function AfterHeader(hdr: Header, left: nat): Answer {
    if left < hdr.payloadLen then More else Complete
  }

  function NextOn(p: ParserState, data: seq<byte>, limit: uint32): (s: Step)
    ensures s.dropped <= |data|
  {
    if p.haveHdr then Step(p, 0, AfterHeader(p.hdr, |data|))
    else if |data| < HEADER_SIZE then Step(p, 0, More)
    else
      var h := Fields(data[..HEADER_SIZE]);
      match Validate(h, limit)
      case Err(e) => Step(ParserState(false, h), 0, Failed(e))
      case Ok => Step(ParserState(true, h), HEADER_SIZE, AfterHeader(h, |data| - HEADER_SIZE))
  }

  class Parser {
    var maxPayload: uint32
    var haveHdr: bool
    var hdr: Header
    const scratch: array<byte>

    constructor (maxPayload: uint32)
      ensures State() == FRESH && this.maxPayload == maxPayload && fresh(scratch) && scratch.Length == HEADER_SIZE
    {
      this.maxPayload, haveHdr, hdr := maxPayload, false, ZERO_HEADER;
      scratch := new byte[HEADER_SIZE];
    }

    ghost function State(): ParserState
      reads this
    {
      ParserState(haveHdr, hdr)
    }

    method Max() returns (m: uint32)
      ensures m == Limit(maxPayload)
    {
      if maxPayload == 0 { return MAX_PAYLOAD_DEFAULT; }
      if maxPayload > MAX_PAYLOAD_HARD_CAP { return MAX_PAYLOAD_HARD_CAP; }
      return maxPayload;
    }

    method Next(r: Ring) returns (ok: bool, err: Verdict)
      requires r.Valid() && r.mask >= 0 && r.buf != scratch && scratch.Length == HEADER_SIZE
      modifies this`haveHdr, this`hdr, scratch, r`r
      ensures r.Valid()
      ensures var step := NextOn(old(State()), old(r.Contents()), Limit(maxPayload));
              && State() == step.state
              && r.Contents() == old(r.Contents())[step.dropped..]
              && (ok <==> step.answer == Complete)
              && err == (if step.answer.Failed? then Err(step.answer.error) else Ok)
    {
      ok, err := false, Ok;
      if !haveHdr {
        var n := r.Len();
        if n < HEADER_SIZE { return; }
        err := ReadHeader(r);
        if err != Ok { return; }
        haveHdr := true;
        r.AdvanceRead(HEADER_SIZE);
      }
      var n := r.Len();
      ok := n >= hdr.payloadLen;
    }

    /** Copies 32 bytes out of the ring, decodes them against the hard cap, then against the limit. */
    method ReadHeader(r: Ring) returns (err: Verdict)
      requires r.Valid() && r.buf != null && r.buf != scratch && scratch.Length == HEADER_SIZE
      requires |r.Contents()| >= HEADER_SIZE
      modifies this`hdr, scratch
      ensures r.Valid() && r.Contents() == old(r.Contents())
      ensures hdr == Fields(r.Contents()[..HEADER_SIZE]) && err == Validate(hdr, Limit(maxPayload))
    {
      var n := r.CopyOut(scratch);
      assert scratch[..n] == scratch[..];
      hdr, err := DecodeHeader(scratch[..], hdr);
      FieldsOfEncode(hdr);
      if err != Ok {
        ValidateTwice(hdr, Limit(maxPayload));
        return;
      }
      var m := Max();
      err := Validate(hdr, m);
    }

    /** The payload of the frame that Next reported complete; of a shorter ring, all there is. */
    method PeekPayload(r: Ring) returns (a: Slice, b: Slice)
      requires r.Valid()
      ensures r.buf == null ==> a == b == NIL_SLICE
      ensures r.buf != null ==>
                && a.In(r.buf.Length) && b.In(r.buf.Length)
                && r.buf[a.lo..a.hi] + r.buf[b.lo..b.hi]
                   == r.Contents()[..if hdr.payloadLen <= |r.Contents()| then hdr.payloadLen else |r.Contents()|]
    {
      a, b := r.Peek(hdr.payloadLen);
    }

    /** Drops the payload. The read cursor moves by its length whatever the ring holds. */
    method ConsumePayload(r: Ring)
      requires r.Valid() && r.mask >= 0
      modifies this`haveHdr, r`r
      ensures r.Valid() && State() == ParserState(false, old(hdr))
      ensures hdr.payloadLen <= |old(r.Contents())| ==> r.Contents() == old(r.Contents())[hdr.payloadLen..]
      ensures r.buf != null && hdr.payloadLen > 0 ==> r.r == (old(r.r) + hdr.payloadLen) % r.buf.Length
    {
      hide IsPow2, Region, Distance;
      r.AdvanceRead(hdr.payloadLen);
      haveHdr := false;
    }
  }

  // ---- The one-shot parse ----

  datatype Ending = NeedMore | Bad(error: Error)

  datatype Parsed = Parsed(frames: seq<Frame>, ending: Ending)

  /** All the frames of a byte string, and why there are no more. */
  function Parse(bytes: seq<byte>, limit: uint32): Parsed {
    if |bytes| < HEADER_SIZE then Parsed([], NeedMore)
    else
      var h := Fields(bytes[..HEADER_SIZE]);
      match Validate(h, limit)
      case Err(e) => Parsed([], Bad(e))
      case Ok =>
        var end := HEADER_SIZE + h.payloadLen;
        if |bytes| < end then Parsed([], NeedMore)
        else
          var rest := Parse(bytes[end..], limit);
          Parsed([Frame(h, bytes[HEADER_SIZE..end])] + rest.frames, rest.ending)
  }

  ghost predicate AllValid(fs: seq<Frame>, limit: uint32) {
    forall i :: 0 <= i < |fs| ==> fs[i].Valid(limit)
  }

  lemma ParseFrame(f: Frame, b: seq<byte>, limit: uint32)
    requires f.Valid(limit)
    ensures Parse(Raw(f) + b, limit) == Parsed([f] + Parse(b, limit).frames, Parse(b, limit).ending)
  {
    var s := Raw(f) + b;
    assert s[..HEADER_SIZE] == Encode(f.hdr);
    FieldsOfEncode(f.hdr);
    var end := HEADER_SIZE + f.hdr.payloadLen;
    assert s[HEADER_SIZE..end] == f.payload;
    assert s[end..] == b;
  }

  /** Valid frames sent back to back parse to themselves, whatever follows. */
  lemma {:induction false} ParseFrames(fs: seq<Frame>, b: seq<byte>, limit: uint32)
    requires AllValid(fs, limit)
    ensures Parse(RawAll(fs) + b, limit) == Parsed(fs + Parse(b, limit).frames, Parse(b, limit).ending)
  {
    if fs == [] {
      assert RawAll(fs) + b == b;
      assert fs + Parse(b, limit).frames == Parse(b, limit).frames;
    } else {
      var init, f := fs[..|fs| - 1], fs[|fs| - 1];
      ParseFrame(f, b, limit);
      ParseFrames(init, Raw(f) + b, limit);
      LastApart(fs, b, Parse(b, limit).frames);
    }
  }

  lemma LastApart(fs: seq<Frame>, b: seq<byte>, more: seq<Frame>)
    requires fs != []
    ensures var init, f := fs[..|fs| - 1], fs[|fs| - 1];
            RawAll(fs) + b == RawAll(init) + (Raw(f) + b) && fs + more == init + ([f] + more)
  {
    var init, f := fs[..|fs| - 1], fs[|fs| - 1];
    Regroup(RawAll(init), Raw(f), b);
    assert fs == init + [f];
  }

  lemma Regroup<T>(a: seq<T>, b: seq<T>, c: seq<T>)
    ensures a + b + c == a + (b + c)
  {}

  /** The parsed frames are valid, and their bytes are a prefix of the input. */
  lemma {:induction false} ParseSound(bytes: seq<byte>, limit: uint32)
    ensures AllValid(Parse(bytes, limit).frames, limit)
    ensures RawAll(Parse(bytes, limit).frames) <= bytes
    decreases |bytes|
  {
    if |bytes| >= HEADER_SIZE {
      var h := Fields(bytes[..HEADER_SIZE]);
      var end := HEADER_SIZE + h.payloadLen;
      if Validate(h, limit) == Ok && |bytes| >= end {
        ParseSound(bytes[end..], limit);
        EncodeOfFields(bytes[..HEADER_SIZE]);
        hide Validate, Encode, Fields, AllValid, RawAll;
        Grow(Frame(h, bytes[HEADER_SIZE..end]), Parse(bytes[end..], limit).frames, bytes, limit, end);
      }
    }
  }

  lemma Grow(f: Frame, rest: seq<Frame>, bytes: seq<byte>, limit: uint32, end: nat)
    requires f.Valid(limit) && AllValid(rest, limit)
    requires HEADER_SIZE <= end <= |bytes| && Raw(f) == bytes[..HEADER_SIZE] + bytes[HEADER_SIZE..end]
    requires RawAll(rest) <= bytes[end..]
    ensures AllValid([f] + rest, limit) && RawAll([f] + rest) <= bytes
  {
    RawAllCons(f, rest);
    PrefixGlue(bytes, HEADER_SIZE, end, RawAll(rest));
  }

  lemma PrefixGlue(bytes: seq<byte>, mid: nat, end: nat, more: seq<byte>)
    requires mid <= end <= |bytes| && more <= bytes[end..]
    ensures bytes[..mid] + bytes[mid..end] + more <= bytes
  {
    assert bytes[..mid] + bytes[mid..end] == bytes[..end];
  }

  /** More bytes never change the frames already found, and never mend an error. */
  lemma {:induction false} ParseGrows(a: seq<byte>, b: seq<byte>, limit: uint32)
    ensures Parse(a, limit).frames <= Parse(a + b, limit).frames
    ensures Parse(a, limit).ending.Bad? ==> Parse(a + b, limit) == Parse(a, limit)
    decreases |a|
  {
    if |a| >= HEADER_SIZE {
      SlicesOfSum(a, b, HEADER_SIZE, HEADER_SIZE);
      var h := Fields(a[..HEADER_SIZE]);
      var end := HEADER_SIZE + h.payloadLen;
      if Validate(h, limit) == Ok && |a| >= end {
        SlicesOfSum(a, b, HEADER_SIZE, end);
        ParseGrows(a[end..], b, limit);
      }
    }
  }

  lemma SlicesOfSum(a: seq<byte>, b: seq<byte>, mid: nat, end: nat)
    requires mid <= end <= |a|
    ensures (a + b)[..mid] == a[..mid] && (a + b)[mid..end] == a[mid..end] && (a + b)[end..] == a[end..] + b
  {}

  // ---- Which bytes are frames ----

  /** The payload length that 32 header bytes announce. */
  function SizeAt(b: seq<byte>): nat
    requires |b| >= HEADER_SIZE
  {
    b[20] as int * 0x100_0000 + b[21] as int * 0x1_0000 + b[22] as int * 0x100 + b[23]
  }

  /** What is wrong with 32 header bytes, if anything: the first of the fields in the order they are looked at. */
  function Judge(b: seq<byte>, limit: uint32): Verdict
    requires |b| >= HEADER_SIZE
  {
    if b[0] != 0x4D || b[1] != 0x45 || b[2] != 0x4E || b[3] != 0x56 then Err(BadMagic)
    else if b[4] != 1 then Err(BadVersion)
    else if b[5] != 0 then Err(BadFlags)
    else if b[8] != 0 || b[9] != 32 then Err(BadHeaderLen)
    else if b[10] != 0 || b[11] != 0 then Err(BadReserved)
    else if b[6] != 0 || b[7] < 1 || b[7] > 5 then Err(UnknownOpcode)
    else if SizeAt(b) > limit then Err(PayloadTooLarge)
    else Ok
  }

  /** The fields of a header, read off its bytes. */
  lemma FieldsAt(b: seq<byte>)
    requires |b| == HEADER_SIZE
    ensures var h := Fields(b);
            && (h.magic == MAGIC <==> b[0] == 0x4D && b[1] == 0x45 && b[2] == 0x4E && b[3] == 0x56)
            && h.version == b[4] && h.flags == b[5]
            && h.opcode == b[6] as int * 0x100 + b[7] && h.headerLen == b[8] as int * 0x100 + b[9]
            && h.reserved == b[10] as int * 0x100 + b[11]
            && h.payloadLen == SizeAt(b)
  {
    var h := Fields(b);
    EncodeOfFields(b);
    HeaderBytes(h);
    MagicBytes(h);
    Digits(h.payloadLen);
    hide Fields, Encode;
    assert b[0..4] == [b[0], b[1], b[2], b[3]] && b[20..24] == [b[20], b[21], b[22], b[23]];
  }

  /** A header is judged by its bytes. */
  lemma ValidateJudges(b: seq<byte>, limit: uint32)
    requires |b| == HEADER_SIZE
    ensures Validate(Fields(b), limit) == Judge(b, limit)
  {
    FieldsAt(b);
    hide Fields;
  }

  /**
   * The verdict of Next on the bytes of a ring: an error exactly if the header bytes are wrong, namely for the
   * first wrong field, and otherwise a whole frame exactly if the announced payload is there.
   */
  lemma NextJudges(p: ParserState, data: seq<byte>, limit: uint32)
    requires !p.haveHdr && |data| >= HEADER_SIZE
    ensures var answer := NextOn(p, data, limit).answer;
            match Judge(data, limit)
            case Err(e) => answer == Failed(e)
            case Ok => answer == if |data| >= HEADER_SIZE + SizeAt(data) then Complete else More
  {
    ValidateJudges(data[..HEADER_SIZE], limit);
    FieldsAt(data[..HEADER_SIZE]);
    hide Validate, Fields;
  }

  /** The bytes of every frame found begin with a faultless header and end with the payload it announces. */
  lemma FramesAreFaultless(bytes: seq<byte>, limit: uint32, i: nat)
    requires i < |Parse(bytes, limit).frames|
    ensures var b := Raw(Parse(bytes, limit).frames[i]);
            && |b| >= HEADER_SIZE && |b| == HEADER_SIZE + SizeAt(b) && SizeAt(b) <= limit
            && b[0..6] == [0x4D, 0x45, 0x4E, 0x56, 1, 0] && b[6] == 0 && 1 <= b[7] <= 5 && b[8..12] == [0, 32, 0, 0]
  {
    ParseSound(bytes, limit);
    hide Parse;
    ValidBytes(Parse(bytes, limit).frames[i], limit);
  }

  lemma ValidBytes(f: Frame, limit: uint32)
    requires f.Valid(limit)
    ensures var b := Raw(f);
            && |b| >= HEADER_SIZE && |b| == HEADER_SIZE + SizeAt(b) && SizeAt(b) <= limit
            && b[0..6] == [0x4D, 0x45, 0x4E, 0x56, 1, 0] && b[6] == 0 && 1 <= b[7] <= 5 && b[8..12] == [0, 32, 0, 0]
  {
    var e := Encode(f.hdr);
    FieldsOfEncode(f.hdr);
    FieldsAt(e);
    ValidateJudges(e, limit);
    hide Validate, Fields, Encode;
    var b := Raw(f);
    assert b[..HEADER_SIZE] == e;
    hide Raw;
    assert forall j :: 0 <= j < HEADER_SIZE ==> b[j] == e[j];
    assert b[0..6] == [b[0], b[1], b[2], b[3], b[4], b[5]] && b[8..12] == [b[8], b[9], b[10], b[11]];
  }

  /** Conversely such bytes are a frame, and if the header bytes are wrong there is none but the error. */
  lemma FaultlessIsFrame(b: seq<byte>, limit: uint32)
    requires |b| >= HEADER_SIZE
    ensures Judge(b, limit) == Ok && |b| == HEADER_SIZE + SizeAt(b) ==>
              Parse(b, limit).ending == NeedMore && |Parse(b, limit).frames| == 1 && Raw(Parse(b, limit).frames[0]) == b
    ensures Judge(b, limit).Err? ==> Parse(b, limit) == Parsed([], Bad(Judge(b, limit).error))
  {
    ValidateJudges(b[..HEADER_SIZE], limit);
    FieldsAt(b[..HEADER_SIZE]);
    EncodeOfFields(b[..HEADER_SIZE]);
    hide Validate, Fields, Encode;
    if Judge(b, limit) == Ok && |b| == HEADER_SIZE + SizeAt(b) {
      assert Parse(b[|b|..], limit) == Parsed([], NeedMore);
      assert b == b[..HEADER_SIZE] + b[HEADER_SIZE..];
    }
  }

  /** The longest payload that Next lets pass: none, a limit in range, and one above the cap. */
  lemma LimitsApply(maxPayload: uint32, p: ParserState, data: seq<byte>)
    requires !p.haveHdr && |data| >= HEADER_SIZE && Judge(data, MAX_PAYLOAD_HARD_CAP) == Ok
    ensures var tooLarge := NextOn(p, data, Limit(maxPayload)).answer == Failed(PayloadTooLarge);
            && (maxPayload == 0 ==> (tooLarge <==> SizeAt(data) > 1024 * 1024))
            && (0 < maxPayload <= 8 * 1024 * 1024 ==> (tooLarge <==> SizeAt(data) > maxPayload))
            && (maxPayload > 8 * 1024 * 1024 ==> !tooLarge)
  {
    NextJudges(p, data, Limit(maxPayload));
  }

  /** And a payload above 8 MiB never passes, whatever the limit. */
  lemma CapApplies(maxPayload: uint32, p: ParserState, data: seq<byte>)
    requires !p.haveHdr && |data| >= HEADER_SIZE && SizeAt(data) > 8 * 1024 * 1024
    ensures NextOn(p, data, Limit(maxPayload)).answer.Failed?
  {
    NextJudges(p, data, Limit(maxPayload));
  }

  // ---- Suspended parsing ----

  function Held(p: ParserState): seq<byte> {
    if p.haveHdr then Encode(p.hdr) else []
  }

  /**
   * The books of a connection's input: everything received is the consumed frames,
   * then the header the parser holds outside the ring, then the ring.
   */
  ghost predicate Tracks(received: seq<byte>, frames: seq<Frame>, p: ParserState, data: seq<byte>, limit: uint32) {
    && received == RawAll(frames) + Held(p) + data
    && AllValid(frames, limit)
    && (p.haveHdr ==> Validate(p.hdr, limit) == Ok)
  }

  lemma TracksReceive(received: seq<byte>, frames: seq<Frame>, p: ParserState, data: seq<byte>, limit: uint32,
      chunk: seq<byte>)
    requires Tracks(received, frames, p, data, limit)
    ensures Tracks(received + chunk, frames, p, data + chunk, limit)
  {
    assert RawAll(frames) + Held(p) + data + chunk == RawAll(frames) + Held(p) + (data + chunk);
  }

  /** Taking the header out of the ring keeps the books. */
  lemma TracksNext(received: seq<byte>, frames: seq<Frame>, p: ParserState, data: seq<byte>, limit: uint32)
    requires Tracks(received, frames, p, data, limit)
    ensures var s := NextOn(p, data, limit); Tracks(received, frames, s.state, data[s.dropped..], limit)
  {
    var s := NextOn(p, data, limit);
    if s.dropped > 0 {
      EncodeOfFields(data[..HEADER_SIZE]);
      MoveOut(RawAll(frames), data, HEADER_SIZE);
    }
  }

  lemma MoveOut(done: seq<byte>, data: seq<byte>, n: nat)
    requires n <= |data|
    ensures done + [] + data == done + data[..n] + data[n..]
  {}

  lemma MoveDone(done: seq<byte>, held: seq<byte>, data: seq<byte>, n: nat)
    requires n <= |data|
    ensures done + held + data == done + (held + data[..n]) + [] + data[n..]
  {}

  /** The frame at the head of the ring, once its header is held and its payload complete. */
  function HeadFrame(p: ParserState, data: seq<byte>): Frame
    requires |data| >= p.hdr.payloadLen
  {
    Frame(p.hdr, data[..p.hdr.payloadLen])
  }

  lemma TracksConsume(received: seq<byte>, frames: seq<Frame>, p: ParserState, data: seq<byte>, limit: uint32)
    requires Tracks(received, frames, p, data, limit) && p.haveHdr && |data| >= p.hdr.payloadLen
    ensures Tracks(received, frames + [HeadFrame(p, data)], ParserState(false, p.hdr), data[p.hdr.payloadLen..], limit)
  {
    RawAllSnoc(frames, HeadFrame(p, data));
    MoveDone(RawAll(frames), Held(p), data, p.hdr.payloadLen);
  }

  /** A parser that keeps its books answers what the one-shot parse of all received bytes says. */
  lemma NextAgrees(received: seq<byte>, frames: seq<Frame>, p: ParserState, data: seq<byte>, limit: uint32)
    requires Tracks(received, frames, p, data, limit)
    ensures var s := NextOn(p, data, limit);
            match s.answer
            case More => Parse(received, limit) == Parsed(frames, NeedMore)
            case Failed(e) => Parse(received, limit) == Parsed(frames, Bad(e))
            case Complete => frames + [HeadFrame(s.state, data[s.dropped..])] <= Parse(received, limit).frames
  {
    var s := NextOn(p, data, limit);
    TracksNext(received, frames, p, data, limit);
    var left := data[s.dropped..];
    if s.answer == Complete {
      CompleteAgrees(received, frames, s.state, left, limit);
    } else {
      var b := Held(s.state) + left;
      Regroup(RawAll(frames), Held(s.state), left);
      ParseFrames(frames, b, limit);
      HeldParse(p, data, limit);
      assert frames + [] == frames;
    }
  }

  lemma CompleteAgrees(received: seq<byte>, frames: seq<Frame>, p: ParserState, data: seq<byte>, limit: uint32)
    requires Tracks(received, frames, p, data, limit) && p.haveHdr && |data| >= p.hdr.payloadLen
    ensures frames + [HeadFrame(p, data)] <= Parse(received, limit).frames
  {
    TracksConsume(received, frames, p, data, limit);
    ParsePrefix(received, frames + [HeadFrame(p, data)], data[p.hdr.payloadLen..], limit);
  }

  lemma ParsePrefix(received: seq<byte>, fs: seq<Frame>, b: seq<byte>, limit: uint32)
    requires AllValid(fs, limit) && received == RawAll(fs) + b
    ensures fs <= Parse(received, limit).frames
  {
    ParseFrames(fs, b, limit);
  }

  /** An incomplete frame, or a bad header, parses to no frame at all. */
  lemma HeldParse(p: ParserState, data: seq<byte>, limit: uint32)
    requires p.haveHdr ==> Validate(p.hdr, limit) == Ok
    requires NextOn(p, data, limit).answer != Complete
    ensures var s := NextOn(p, data, limit);
            Parse(Held(s.state) + data[s.dropped..], limit)
            == Parsed([], if s.answer.Failed? then Bad(s.answer.error) else NeedMore)
  {
    var s := NextOn(p, data, limit);
    var b := Held(s.state) + data[s.dropped..];
    if s.state.haveHdr {
      assert b[..HEADER_SIZE] == Encode(s.state.hdr);
      FieldsOfEncode(s.state.hdr);
    } else {
      assert b == data;
    }
  }

  /** A connection's parsing, chunk by chunk. */
  datatype Session = Session(parser: ParserState, data: seq<byte>, frames: seq<Frame>, status: Ending)

  const START := Session(FRESH, [], [], NeedMore)

  /** The loop over Next and ConsumePayload. */
  function Drain(s: Session, limit: uint32): Session
    decreases |s.data|, if s.parser.haveHdr then 1 else 0
  {
    var step := NextOn(s.parser, s.data, limit);
    var left := s.data[step.dropped..];
    match step.answer
    case More => Session(step.state, left, s.frames, NeedMore)
    case Failed(e) => Session(step.state, left, s.frames, Bad(e))
    case Complete =>
      Drain(Session(ParserState(false, step.state.hdr), left[step.state.hdr.payloadLen..],
                    s.frames + [HeadFrame(step.state, left)], NeedMore), limit)
  }

  /** One chunk arrives and is worked off. An error stays, and what comes later only piles up. */
  function Feed(s: Session, chunk: seq<byte>, limit: uint32): Session {
    Drain(Session(s.parser, s.data + chunk, s.frames, s.status), limit)
  }

  function FeedAll(chunks: seq<seq<byte>>, limit: uint32): Session {
    if chunks == [] then START
    else Feed(FeedAll(chunks[..|chunks| - 1], limit), chunks[|chunks| - 1], limit)
  }

  lemma {:induction false} DrainAgrees(s: Session, received: seq<byte>, limit: uint32)
    requires Tracks(received, s.frames, s.parser, s.data, limit)
    ensures var t := Drain(s, limit);
            && Tracks(received, t.frames, t.parser, t.data, limit)
            && Parse(received, limit) == Parsed(t.frames, t.status)
            && (s.frames <= t.frames)
    decreases |s.data|, if s.parser.haveHdr then 1 else 0
  {
    hide Tracks, Parse;
    var step := NextOn(s.parser, s.data, limit);
    var left := s.data[step.dropped..];
    NextAgrees(received, s.frames, s.parser, s.data, limit);
    TracksNext(received, s.frames, s.parser, s.data, limit);
    if step.answer == Complete {
      TracksConsume(received, s.frames, step.state, left, limit);
      DrainAgrees(Session(ParserState(false, step.state.hdr), left[step.state.hdr.payloadLen..],
                          s.frames + [HeadFrame(step.state, left)], NeedMore), received, limit);
    }
  }

  /** However a byte stream is cut into chunks, the frames and the error are those of the one-shot parse. */
  lemma {:induction false} ChunkingIndependence(chunks: seq<seq<byte>>, limit: uint32)
    ensures var s := FeedAll(chunks, limit);
            && Tracks(Flat(chunks), s.frames, s.parser, s.data, limit)
            && Parse(Flat(chunks), limit) == Parsed(s.frames, s.status)
  {
    if chunks != [] {
      var init, chunk := chunks[..|chunks| - 1], chunks[|chunks| - 1];
      ChunkingIndependence(init, limit);
      var s := FeedAll(init, limit);
      TracksReceive(Flat(init), s.frames, s.parser, s.data, limit, chunk);
      DrainAgrees(Session(s.parser, s.data + chunk, s.frames, s.status), Flat(chunks), limit);
    }
  }

  /** After an error, nothing is dropped and every later Next reports the same error. */
  lemma ErrorRecurs(p: ParserState, data: seq<byte>, later: seq<byte>, limit: uint32)
    requires NextOn(p, data, limit).answer.Failed?
    ensures var s := NextOn(p, data, limit);
            && s.dropped == 0 && !s.state.haveHdr
            && NextOn(s.state, data + later, limit).answer == s.answer
  {
    assert (data + later)[..HEADER_SIZE] == data[..HEADER_SIZE];
  }

  /** An ERROR frame reaches a reader whose limit is 258 or more, alone and whole. */
  lemma ErrorFrameArrives(req: Header, code: uint16, msg: seq<byte>, limit: uint32)
    requires limit >= 258
    ensures Parse(Raw(ErrorFrame(req, code, msg)), limit) == Parsed([ErrorFrame(req, code, msg)], NeedMore)
  {
    ErrorFrameReads(req, code, msg);
    var f := ErrorFrame(req, code, msg);
    ParseFrame(f, [], limit);
    assert Raw(f) + [] == Raw(f);
  }

  /** A ring of cap bytes never completes a payload longer than cap - 1. */
  lemma OversizedNeverCompletes(p: ParserState, data: seq<byte>, limit: uint32, cap: nat)
    requires p.haveHdr && p.hdr.payloadLen > cap - 1 && |data| <= cap - 1
    ensures NextOn(p, data, limit) == Step(p, 0, More)
  {}

  /** A fresh parser reads the header that was sent, and the payload after it is all there. */
  lemma HeaderParsed(h: Header, rest: seq<byte>, limit: uint32)
    requires Validate(h, limit) == Ok && |rest| >= h.payloadLen
    ensures NextOn(FRESH, Encode(h) + rest, limit) == Step(ParserState(true, h), HEADER_SIZE, Complete)
    ensures (Encode(h) + rest)[HEADER_SIZE..] == rest
  {
    assert (Encode(h) + rest)[..HEADER_SIZE] == Encode(h);
    FieldsOfEncode(h);
  }
}
