// The relations between states that the reactor's methods establish, and the facts that link them.
module ReactorSteps {
  import opened Bits
  import opened Protocol
  import opened Parsing
  import opened Buffer
  import opened ReactorState
  import opened ReactorLemmas

  function Text(s: string): seq<byte> {
    seq(|s|, i requires 0 <= i < |s| => s[i] as int % 256)
  }

  const CODE_ROUTE_NOT_FOUND: uint16 := 2001
  const CODE_NO_UPSTREAM: uint16 := 2002
  const CODE_UPSTREAM_FAIL: uint16 := 2003
  const CODE_UNKNOWN_OPCODE: uint16 := 1005

  function CodeOf(e: Error): uint16 {
    match e
    case BadMagic => 1001
    case BadVersion => 1002
    case BadFlags => 1003
    case UnknownOpcode => 1005
    case PayloadTooLarge => 1006
    case BadHeaderLen => 1004
    case BadReserved => 1004
    case ShortHeader => 1004
  }

  function ErrorText(e: Error): seq<byte> {
    match e
    case ShortHeader => Text("protocol: short header")
    case BadMagic => Text("protocol: bad magic")
    case BadVersion => Text("protocol: unsupported version")
    case BadFlags => Text("protocol: reserved flags must be zero")
    case BadHeaderLen => Text("protocol: invalid header_len")
    case BadReserved => Text("protocol: reserved must be zero")
    case UnknownOpcode => Text("protocol: unknown opcode")
    case PayloadTooLarge => Text("protocol: payload exceeds limit")
  }

  /** Letters go out as their ASCII codes. */
  lemma TextIsAscii(s: string, i: nat)
    requires i < |s| && s[i] as int < 256
    ensures |Text(s)| == |s| && Text(s)[i] == s[i] as int
  {}

  /** The code and the text that a peer reads when its header is rejected: those of the first field that is wrong. */
  lemma RejectionTells(b: seq<byte>, limit: uint32)
    requires |b| >= HEADER_SIZE && Judge(b, limit).Err?
    ensures var e := Judge(b, limit).error; var p := ErrorFrame(ZERO_HEADER, CodeOf(e), ErrorText(e)).payload;
            var code := p[0] as int * 0x100 + p[1];
            if b[..4] != [0x4D, 0x45, 0x4E, 0x56] then code == 1001 && p[2..] == Text("protocol: bad magic")
            else if b[4] != 1 then code == 1002 && p[2..] == Text("protocol: unsupported version")
            else if b[5] != 0 then code == 1003 && p[2..] == Text("protocol: reserved flags must be zero")
            else if b[8..10] != [0, 32] then code == 1004 && p[2..] == Text("protocol: invalid header_len")
            else if b[10..12] != [0, 0] then code == 1004 && p[2..] == Text("protocol: reserved must be zero")
            else if b[6] != 0 || b[7] == 0 || b[7] > 5 then code == 1005 && p[2..] == Text("protocol: unknown opcode")
            else SizeAt(b) > limit && code == 1006 && p[2..] == Text("protocol: payload exceeds limit")
  {
    var e := Judge(b, limit).error;
    ErrorFrameReads(ZERO_HEADER, CodeOf(e), ErrorText(e));
    assert b[..4] == [b[0], b[1], b[2], b[3]] && b[8..10] == [b[8], b[9]] && b[10..12] == [b[10], b[11]];
    hide ErrorFrame, SizeAt;
  }

  /** What a client is told when its upstream goes, or could not be reached: 2003, under its pending frame's ids. */
  lemma NoticesSay(req: Header)
    ensures var f := ClosedNotice(req);
            && f.hdr.requestID == req.requestID && f.hdr.streamID == req.streamID && f.hdr.routeID == req.routeID
            && f.payload == [2003 / 256, 2003 % 256] + Text("upstream closed")
    ensures var f := ConnectNotice(req);
            && f.hdr.requestID == req.requestID && f.hdr.streamID == req.streamID && f.hdr.routeID == req.routeID
            && f.payload == [2003 / 256, 2003 % 256] + Text("upstream connect failed")
  {
    Be2(2003);
    hide Be;
  }

  /** The code in the first two bytes of what a client is told when its frame cannot be passed on. */
  lemma RefusalCodes(req: Header, msg: seq<byte>)
    ensures ErrorFrame(req, CODE_ROUTE_NOT_FOUND, msg).payload[..2] == [2001 / 256, 2001 % 256]
    ensures ErrorFrame(req, CODE_NO_UPSTREAM, msg).payload[..2] == [2002 / 256, 2002 % 256]
    ensures ErrorFrame(req, CODE_UPSTREAM_FAIL, msg).payload[..2] == [2003 / 256, 2003 % 256]
    ensures ErrorFrame(req, CODE_UNKNOWN_OPCODE, msg).payload[..2] == [1005 / 256, 1005 % 256]
  {
    CodeBytes(req, CODE_ROUTE_NOT_FOUND, msg);
    CodeBytes(req, CODE_NO_UPSTREAM, msg);
    CodeBytes(req, CODE_UPSTREAM_FAIL, msg);
    CodeBytes(req, CODE_UNKNOWN_OPCODE, msg);
    hide ErrorFrame;
  }

  lemma CodeBytes(req: Header, code: uint16, msg: seq<byte>)
    ensures var p := ErrorFrame(req, code, msg).payload;
            |p| >= 2 && p[..2] == [code / 0x100, code % 0x100]
  {
    ErrorFrameReads(req, code, msg);
    var p := ErrorFrame(req, code, msg).payload;
    assert p[..2] == [p[0], p[1]];
  }

  /** The history after a frame was taken and went to d. */
  function TookFrom(h: Hist, f: Frame, d: Option<nat>): Hist {
    h.(consumed := h.consumed + [f], dest := h.dest + [d])
  }

  /** The state after ConsumePayload, the pending flag aside. */
  function Dropped(s: State, c: nat, d: Option<nat>): (t: State)
    requires c < |s.conns| == |s.hist|
    requires s.conns[c].ring.Live? ==> |s.conns[c].ring.data| >= s.conns[c].parser.hdr.payloadLen
    ensures |t.conns| == |s.conns| && |t.hist| == |s.hist|
  {
    var k := s.conns[c];
    var n := k.parser.hdr.payloadLen;
    if k.ring.Live? then
      s.(conns := s.conns[c := k.(ring := Live(k.ring.slot, k.ring.data[n..]),
        parser := ParserState(false, k.parser.hdr))],
         hist := s.hist[c := TookFrom(s.hist[c], HeadFrame(k.parser, k.ring.data), d)])
    else if n > 0 then s.(panicked := true)
    else s.(conns := s.conns[c := k.(parser := ParserState(false, k.parser.hdr))])
  }

  /** c's payload has been dropped, and if there was one, f is noted as put on to. */
  function PassedOn(t: State, c: nat, dest: Option<nat>, to: nat, f: Frame, src: Source): State
    requires c < |t.conns| == |t.hist| && to < |t.hist|
    requires t.conns[c].ring.Live? ==> |t.conns[c].ring.data| >= t.conns[c].parser.hdr.payloadLen
  {
    if t.conns[c].ring.Live? then Noted(Dropped(t, c, dest), to, f, src) else Dropped(t, c, dest)
  }

  function Load(k: Conn): nat {
    match k.ring
    case Nil => 0
    case Live(_, data) => 1 + |data| + if k.parser.haveHdr then 1 else 0
  }

  /** A frame stands complete at the head of c's ring, and c is being read. */
  ghost predicate Serving(s: State, c: nat) {
    && Good(s) && 0 < c && HeadReady(s, c) && Open(s, c) && s.cur == c
    && !s.conns[c].hasPending && !s.conns[c].paused && !s.panicked && (s.clean ==> !s.closeSeen)
    && PendingFits(s, c)
  }

  /** A client that is being served is not stuck, and has a frame pending only for an upstream being connected. */
  ghost predicate PendingFits(s: State, c: nat) {
    Watched(s) && Open(s, c) && s.conns[c].role == Down ==>
      c !in s.stuck && (s.conns[c].hasPending ==> Waits(s.conns, s.conns[c]))
  }

  /** Between s and t the connection c being read was at most closed, and not at all while clean. */
  ghost predicate Steady(s: State, t: State, c: nat) {
    && c < |s.conns| <= |t.conns| == |t.hist|
    && t.cfg == s.cfg && t.cur == s.cur && t.panicked == s.panicked && t.closeSeen == s.closeSeen
    && (t.clean ==> s.clean)
    && t.conns[c].fd == s.conns[c].fd && t.conns[c].role == s.conns[c].role
    && t.conns[c].paused == s.conns[c].paused && t.conns[c].parser == s.conns[c].parser
    && (t.conns[c].ring == s.conns[c].ring || t.conns[c].ring == Nil)
    && (t.clean ==> t.conns[c].ring == s.conns[c].ring && Open(t, c))
    && c < |s.hist| && t.hist[c].consumed == s.hist[c].consumed && t.hist[c].dest == s.hist[c].dest
    && SameSource(s, t, c) && (s.cur == c && c in t.stuck ==> c in s.stuck)
  }

  /** c is the same socket, and nothing more was read from it. */
  ghost predicate SameSource(s: State, t: State, c: nat) {
    && c < |s.conns| <= |t.conns| == |t.hist| && |s.conns| == |s.hist|
    && t.conns[c].fd == s.conns[c].fd && t.conns[c].role == s.conns[c].role
    && t.hist[c].received == s.hist[c].received && s.stuck <= t.stuck
  }

  lemma SameSourceTrans(s: State, t: State, u: State, c: nat)
    requires SameSource(s, t, c) && SameSource(t, u, c)
    ensures SameSource(s, u, c)
  {}

  /** What one dispatch leaves for the loop that called it. */
  ghost predicate Dispatched(s: State, t: State, c: nat) {
    && Good(t) && c < |s.conns| <= |t.conns| == |t.hist|
    && t.cfg == s.cfg && t.cur == s.cur && t.conns[c].role == s.conns[c].role
    && (t.clean ==> s.clean)
    && (t.panicked ==> !t.clean)
    && !t.conns[c].paused
    && (t.conns[c].hasPending || !t.conns[c].ring.Live? || Load(t.conns[c]) < Load(s.conns[c]))
    && (t.clean ==> (t.closeSeen <==> t.conns[c].ring == Nil))
    && (t.clean && t.closeSeen ==> !t.conns[c].hasPending)
    && SameSource(s, t, c) && PendingFits(t, c)
  }

  lemma ServingFacts(s: State, c: nat)
    requires Serving(s, c)
    ensures Good(s) && 0 < c && HeadReady(s, c) && Open(s, c) && !s.conns[c].hasPending
    ensures s.conns[c].peer.Some? ==>
              var p := s.conns[c].peer.value;
              && 0 < p < |s.conns| && p != c && (s.clean ==> Open(s, p))
              && (s.conns[c].role == Down <==> s.conns[p].role != Down)
              && (s.conns[p].role != Down ==> Open(s, p))
  {}

  lemma ServingMore(s: State, c: nat)
    requires Serving(s, c)
    ensures !s.conns[c].paused && s.cur == c && (s.clean ==> !s.closeSeen)
  {}

  lemma FitsIsKept(s: State, c: nat)
    requires PendingFits(s, c)
    ensures PendingKept(s, c)
  {}

  lemma SteadySelf(s: State, c: nat)
    requires Serving(s, c)
    ensures Steady(s, s, c)
  {}

  lemma SteadyFacts(s: State, t: State, c: nat)
    requires Serving(s, c) && Steady(s, t, c)
    ensures 0 < c < |t.conns| && t.conns[c].role == s.conns[c].role && (t.clean ==> Open(t, c))
  {}

  lemma SteadySeen(s: State, t: State, c: nat)
    requires Steady(s, t, c)
    ensures t.closeSeen == s.closeSeen
  {}

  /** Between s and t only the waiting bytes of d may have changed, or the run is no longer clean. */
  lemma SteadyShrinks(s: State, t: State, xs: set<nat>, c: nat, d: nat)
    requires Shrinks(s, t, xs) && c < |s.conns|
    requires t.clean ==> Open(s, c) && OnlyWritten(s, t, d)
    ensures Steady(s, t, c)
  {}

  lemma SteadyTrans(s: State, t: State, u: State, c: nat)
    requires Steady(s, t, c) && Steady(t, u, c)
    ensures Steady(s, u, c)
  {}

  lemma SteadyFlush(s: State, t: State, d: nat, bytes: seq<byte>, c: nat)
    requires Flushes(s, t, d, bytes) && c < |s.conns| && (s.clean ==> Open(s, c))
    ensures Steady(s, t, c)
  {
    SteadyShrinks(s, t, With(d, s.conns[d].peer), c, d);
  }

  lemma SteadyReply(s: State, t0: State, t: State, c: nat)
    requires Steady(s, t0, c) && Replies(t0, t, c) && !t0.conns[c].hasPending
    ensures Steady(s, t, c) && Good(t) && !t.conns[c].hasPending
    ensures Serving(s, c) ==> t.conns[c].ring.Live? ==> |t.conns[c].ring.data| >= t.conns[c].parser.hdr.payloadLen
  {
    if t.clean { assert Open(t0, c); }
    SteadyShrinks(t0, t, With(c, t0.conns[c].peer), c, c);
    SteadyTrans(s, t0, t, c);
  }

  lemma DroppedIsConsumed(t: State, c: nat, d: Option<nat>)
    requires HeadReady(t, c) && c < |t.conns| && !t.conns[c].hasPending
    ensures Dropped(t, c, d) == Consumed(t, c, d)
  {}

  lemma NilDropGood(t: State, c: nat, d: Option<nat>)
    requires Good(t) && c < |t.conns| == |t.hist| && t.conns[c].ring == Nil
    ensures Good(Dropped(t, c, d))
  {
    var k := t.conns[c];
    if k.parser.hdr.payloadLen > 0 {
      FlaggedGood(t, true, t.closeSeen);
    } else {
      var k' := k.(parser := ParserState(false, k.parser.hdr));
      assert PendingConnOk(k, t.cfg.maxPayload);
      if t.clean { NilBooks(t, c, k'); }
      ConnGood(t, c, k');
    }
  }

  lemma NilBooks(t: State, c: nat, k': Conn)
    requires ConnsOk(t) && c < |t.conns| && t.conns[c].ring == Nil && k' == t.conns[c].(parser := k'.parser)
    ensures BooksOk(k', t.hist[c], |t.conns|, t.cfg.maxPayload)
  {
    assert BooksOk(t.conns[c], t.hist[c], |t.conns|, t.cfg.maxPayload);
  }

  lemma DispatchedNil(s: State, t: State, c: nat, d: Option<nat>)
    requires Serving(s, c) && Steady(s, t, c) && t.conns[c].ring == Nil && !t.clean && Sound(t)
    ensures Dispatched(s, Dropped(t, c, d), c)
  {
    SpoiledIsGood(s, t, c);
    NilDropped(t, c, d);
    hide Good, Sound, Dropped, Dispatched;
    NilDispatched(s, t, Dropped(t, c, d), c);
  }

  lemma NilDispatched(s: State, t: State, z: State, c: nat)
    requires Serving(s, c) && Steady(s, t, c) && t.conns[c].ring == Nil && !t.clean && NilChange(t, z, c) && Good(z)
    ensures Dispatched(s, z, c)
  {
    hide Good, HeadReady;
  }

  lemma DispatchedNilFlush(s: State, t: State, d: nat, bytes: seq<byte>, c: nat, dst: Option<nat>)
    requires Serving(s, c) && Steady(s, t, c) && t.conns[c].ring == Nil && Flushes(s, t, d, bytes)
    ensures Dispatched(s, Dropped(t, c, dst), c)
  {
    DispatchedNil(s, t, c, dst);
  }

  lemma SteadyLive(s: State, t: State, c: nat)
    requires Serving(s, c) && Steady(s, t, c) && t.conns[c].ring.Live?
    ensures HeadReady(t, c) && Head(t, c) == Head(s, c)
  {}

  lemma DispatchedDrop(s: State, t: State, c: nat)
    requires Serving(s, c) && Steady(s, t, c) && Good(t) && !t.conns[c].hasPending
    requires s.conns[c].role == Down ==> s.conns[c].parser.hdr.opcode != OP_PING
    requires t.conns[c].ring.Live? ==> |t.conns[c].ring.data| >= t.conns[c].parser.hdr.payloadLen
    ensures Dispatched(s, Dropped(t, c, None), c)
  {
    hide Good, Serving, Dispatched;
    if t.conns[c].ring.Live? { DispatchedDropLive(s, t, c); } else { DispatchedDropNil(s, t, c); }
  }

  lemma DispatchedDropNil(s: State, t: State, c: nat)
    requires Serving(s, c) && Steady(s, t, c) && Good(t) && t.conns[c].ring == Nil
    ensures Dispatched(s, Dropped(t, c, None), c)
  {
    DispatchedNil(s, t, c, None);
  }

  lemma DispatchedDropLive(s: State, t: State, c: nat)
    requires Serving(s, c) && Steady(s, t, c) && Good(t) && !t.conns[c].hasPending && t.conns[c].ring.Live?
    requires s.conns[c].role == Down ==> s.conns[c].parser.hdr.opcode != OP_PING
    ensures Dispatched(s, Dropped(t, c, None), c)
  {
    SteadyLive(s, t, c);
    DroppedIsConsumed(t, c, None);
    DropSteady(s, t, c);
    DropLeaves(s, t, c);
  }

  lemma DropSteady(s: State, t: State, c: nat)
    requires Serving(s, c) && Steady(s, t, c) && Good(t) && HeadReady(t, c)
    requires s.conns[c].role == Down ==> s.conns[c].parser.hdr.opcode != OP_PING
    ensures Good(Consumed(t, c, None))
  {
    hide Good;
    DropGood(t, c);
  }

  lemma DropLeaves(s: State, t: State, c: nat)
    requires Serving(s, c) && Steady(s, t, c) && HeadReady(t, c) && Good(Consumed(t, c, None))
    ensures Dispatched(s, Consumed(t, c, None), c)
  {
    hide Good;
  }

  // ---- What these methods do to the state ----

  /** What closeConn does: nothing to a closed connection; otherwise c goes, and an upstream peer with it. */
  ghost predicate Closes(s: State, t: State, c: nat) {
    && c < |s.conns| == |t.conns| && Good(t)
    && Shrinks(s, t, With(c, s.conns[c].peer))
    && (!Open(s, c) ==> t == s)
    && !Open(t, c)
    && (Open(s, c) && s.conns[c].peer == None ==> t == Unlinked(s, c))
    && (Open(s, c) ==>
          && t.conns[c].peer == None && t.conns[c].ring == Nil
          && (t.clean && s.conns[c].peer.Some? ==>
                var p := s.conns[c].peer.value;
                p < |s.conns| && (Open(t, p) <==> s.conns[p].role == Down)))
  }

  /** What flush does: c's socket is handed the bytes, or some write failed for good and connections were closed. */
  ghost predicate Flushes(s: State, t: State, c: nat, bytes: seq<byte>) {
    && c < |s.conns| && Sound(t)
    && Shrinks(s, t, With(c, s.conns[c].peer))
    && (t.clean ==> Delivered(s, t, c, bytes))
  }

  /** What replyError does. */
  ghost predicate Replies(s: State, t: State, c: nat) {
    && c < |s.conns| && Good(t)
    && Shrinks(s, t, With(c, s.conns[c].peer))
    && (t.clean ==> OnlyWritten(s, t, c))
  }

  /** f was put on c by the reactor itself, and no other history changed. */
  ghost predicate Told(s: State, t: State, c: nat, f: Frame) {
    t.clean ==>
      && c < |s.hist| == |t.hist|
      && t.hist == s.hist[c := s.hist[c].(accepted := t.hist[c].accepted, out := s.hist[c].out + [Sent(f, Own)])]
  }

  lemma ToldAfter(s: State, t: State, c: nat, f: Frame)
    requires Flushes(s, t, c, Raw(f)) && c < |t.hist|
    ensures Told(s, Noted(t, c, f, Own), c, f)
  {}

  function ClosedNotice(req: Header): Frame {
    ErrorFrame(req, CODE_UPSTREAM_FAIL, Text("upstream closed"))
  }

  /** What closing c puts on any connection: an ERROR on the client it was the upstream of, and nothing else. */
  ghost predicate Parted(s: State, t: State, c: nat) {
    t.clean && c < |s.conns| ==>
      var peer := s.conns[c].peer;
      if Open(s, c) && peer.Some? && peer.value < |s.conns| && s.conns[peer.value].role == Down
      then Told(s, t, peer.value, ClosedNotice(s.conns[peer.value].pending))
      else t.hist == s.hist
  }

  function Unlinked1(s: State, c: nat): State {
    if c < |s.conns| then Unlinked(s, c) else s
  }

  /** t differs from s in c's waiting bytes, in histories and in what goes with them. */
  ghost predicate OnlyWritten(s: State, t: State, c: nat) {
    && c < |s.conns| == |t.conns| && t.tab == s.tab
    && t.conns == s.conns[c := s.conns[c].(writeRemain := t.conns[c].writeRemain)]
  }

  lemma GoodFacts(s: State)
    requires Good(s)
    ensures Sound(s) && |s.hist| == |s.conns|
  {}

  ghost predicate UnlinkedKnown(s: State, c: nat) {
    c < |s.conns| &&
    var t, k := Unlinked(s, c), s.conns[c];
    && |t.conns| == |s.conns| && Shrinks(s, t, With(c, k.peer)) && !Open(t, c) && |t.tab| < |s.tab|
    && t.conns[c] == k.(peer := None, ring := Nil)
    && (k.peer.Some? ==>
          var p := k.peer.value;
          && 0 < p < |s.conns| && p != c && t.conns[p] == s.conns[p].(peer := None)
          && (s.conns[p].role != Down ==> Open(t, p))
          && (s.clean ==> Open(t, p)))
  }

  lemma UnlinkedFacts(s: State, c: nat)
    requires Good(s) && Open(s, c) && c != 0
    ensures UnlinkedKnown(s, c)
  {
    UnlinkedConns(s, c);
    UnlinkedShrinks(s, c);
    assert Unlinked(s, c).tab.Keys == s.tab.Keys - {s.conns[c].fd};
    assert |Unlinked(s, c).tab| == |Unlinked(s, c).tab.Keys| && |s.tab| == |s.tab.Keys|;
  }

  lemma ClosedAlready(s: State, c: nat)
    requires Good(s) && c < |s.conns| && !Open(s, c)
    ensures Closes(s, s, c)
  {}

  lemma ClosedAlone(s: State, c: nat)
    requires UnlinkedKnown(s, c) && Good(Unlinked1(s, c)) && s.conns[c].peer == None && Open(s, c)
    ensures Closes(s, Unlinked1(s, c), c)
  {}

  lemma UnlinkedPeer(s: State, c: nat)
    requires Good(s) && Open(s, c) && UnlinkedKnown(s, c) && s.conns[c].peer.Some?
    ensures var p, t := s.conns[c].peer.value, Unlinked1(s, c);
            && 0 < p < |t.conns| == |s.conns| && t.conns[p].role == s.conns[p].role && t.conns[p].peer == None
            && (t.clean ==> Open(t, p)) && |t.tab| < |s.tab|
  {}

  lemma ClosedAfterReply(s: State, t: State, u: State, c: nat, p: nat)
    requires UnlinkedKnown(s, c) && t == Unlinked1(s, c) && Open(s, c) && s.conns[c].peer == Some(p)
    requires p < |s.conns| == |t.conns| && s.conns[p].role == Down && t.conns[p].peer == None
    requires t.clean ==> Open(t, p)
    requires Replies(t, u, p)
    ensures Closes(s, u, c)
  {
    AfterPeer(s, t, u, c, p);
  }

  lemma ClosedWithPeer(s: State, t: State, u: State, c: nat, p: nat)
    requires UnlinkedKnown(s, c) && t == Unlinked1(s, c) && Open(s, c) && s.conns[c].peer == Some(p)
    requires p < |s.conns| == |t.conns| && s.conns[p].role != Down && t.conns[p].peer == None
    requires Closes(t, u, p)
    ensures Closes(s, u, c)
  {
    AfterPeer(s, t, u, c, p);
  }

  lemma AfterPeer(s: State, t: State, u: State, c: nat, p: nat)
    requires UnlinkedKnown(s, c) && t == Unlinked1(s, c) && s.conns[c].peer == Some(p)
    requires Shrinks(t, u, {p})
    ensures Shrinks(s, u, With(c, s.conns[c].peer)) && !Open(u, c) && |u.conns| == |s.conns|
    ensures u.conns[c].peer == None && u.conns[c].ring == Nil
  {
    ShrinksMore(t, u, {p}, {c, p});
    ShrinksTrans(s, t, u, {c, p});
  }

  lemma RepliesAfter(s: State, t: State, c: nat, f: Frame)
    requires Good(s) && Flushes(s, t, c, Raw(f)) && s.conns[c].role == Down && f.Valid(MAX_PAYLOAD_HARD_CAP)
             && f.hdr.opcode == OP_ERROR
    requires (s.clean ==> Open(s, c)) && c < |t.hist|
    ensures Replies(s, Noted(t, c, f, Own), c)
  {
    EmitGood(s, t, c, f);
    NotedShrinks(s, t, c, f, Own, With(c, s.conns[c].peer));
  }

  lemma NotedShrinks(s: State, t: State, c: nat, f: Frame, src: Source, xs: set<nat>)
    requires Shrinks(s, t, xs) && c in xs && c < |t.hist|
    ensures Shrinks(s, Noted(t, c, f, src), xs)
  {}

  lemma FlushesLengths(s: State, t: State, c: nat, bytes: seq<byte>)
    requires Flushes(s, t, c, bytes)
    ensures c < |t.conns| == |t.hist| == |s.conns| == |s.hist| && (t.clean ==> s.clean)
    ensures t.conns[c].role == s.conns[c].role && t.conns[c].fd == s.conns[c].fd
  {}

  /** No connection is added, and none is lost while all writes go well. */
  lemma FlushesTable(s: State, t: State, c: nat, bytes: seq<byte>)
    requires Flushes(s, t, c, bytes) && (s.clean ==> Open(s, c))
    ensures |t.tab| <= |s.tab| && (t.clean ==> Open(t, c))
  {
    ShrinksTable(s, t, With(c, s.conns[c].peer));
  }

  lemma ShrinksTable(s: State, t: State, xs: set<nat>)
    requires Shrinks(s, t, xs)
    ensures |t.tab| <= |s.tab|
  {
    forall fd | fd in t.tab.Keys ensures fd in s.tab.Keys { assert fd in t.tab; }
    SubsetCard(t.tab.Keys, s.tab.Keys);
    assert |t.tab| == |t.tab.Keys| && |s.tab| == |s.tab.Keys|;
  }

  lemma SubsetCard<T>(a: set<T>, b: set<T>)
    requires a <= b
    ensures |a| <= |b|
  {
    assert b == a + (b - a);
  }

  lemma NothingDelivered(s: State, c: nat)
    requires c < |s.conns| == |s.hist|
    requires s.conns[c].fd in s.interest && s.conns[c].writeRemain != [] ==> s.interest[s.conns[c].fd].write
    ensures Delivered(s, s, c, []) && Shrinks(s, s, With(c, s.conns[c].peer))
  {
    assert s.hist[c].accepted + s.conns[c].writeRemain + [] == s.hist[c].accepted + s.conns[c].writeRemain;
  }

  lemma FlushesNothing(s: State, c: nat)
    requires Good(s) && 0 < c < |s.conns| && s.conns[c].writeRemain == []
    ensures Flushes(s, s, c, [])
  {
    NothingDelivered(s, c);
  }

  lemma FlushedAndAppended(s: State, t: State, u: State, c: nat, bytes: seq<byte>)
    requires Flushes(s, t, c, []) && Good(t) && c < |t.conns| && t.conns[c].writeRemain != []
             && (s.clean ==> Open(s, c))
    requires u == t.(conns := t.conns[c := t.conns[c].(writeRemain := t.conns[c].writeRemain + bytes)])
    ensures Flushes(s, u, c, bytes)
  {
    AppendedFacts(s, t, u, c, bytes);
  }

  lemma FlushedThenFlushed(s: State, t: State, u: State, c: nat, bytes: seq<byte>)
    requires Flushes(s, t, c, []) && Flushes(t, u, c, bytes)
    ensures Flushes(s, u, c, bytes)
  {
    ThenFacts(s, t, u, c, bytes);
  }

  lemma WroteFacts(s: State, c: nat, taken: seq<byte>, w: seq<byte>)
    requires c < |s.conns| == |s.hist|
    ensures var t := Wrote(s, c, taken, w);
            && |t.conns| == |s.conns| && t.conns[c] == s.conns[c].(writeRemain := w) && t.interest == s.interest
            && t.robbed == s.robbed && t.choked == s.choked && t.clean == s.clean
  {}

  lemma NoWaiting(s: State, t: State, c: nat, taken: seq<byte>)
    requires c < |s.conns| == |s.hist| && s.conns[c].writeRemain == []
    requires t == Took(s, c, taken)
    ensures t == Wrote(s, c, taken, [])
  {
    assert s.conns[c := s.conns[c].(writeRemain := [])] == s.conns;
  }

  lemma SpoiledWrite(s: State, c: nat, taken: seq<byte>, w: seq<byte>)
    requires Sound(s) && c < |s.conns| == |s.hist| && (s.clean ==> Open(s, c))
    requires w != [] ==> s.conns[c].writeRemain != []
    ensures Good(Wrote(s, c, taken, w).(clean := false))
    ensures Shrinks(s, Wrote(s, c, taken, w).(clean := false), {c})
    ensures Wrote(s, c, taken, w).conns[c].peer == s.conns[c].peer
  {
    WroteSound(s, c, taken, w);
    SpoiledGood(Wrote(s, c, taken, w));
  }

  lemma SpoiledClose(s: State, t: State, u: State, c: nat)
    requires c < |s.conns| && Shrinks(s, t, {c}) && Closes(t, u, c) && !t.clean && t.conns[c].peer == s.conns[c].peer
    ensures Good(u) && !u.clean && Shrinks(s, u, With(c, s.conns[c].peer))
  {
    ShrinksMore(s, t, {c}, With(c, s.conns[c].peer));
    ShrinksTrans(s, t, u, With(c, s.conns[c].peer));
  }

  lemma SpoiledFlush(s: State, u: State, c: nat, bytes: seq<byte>)
    requires c < |s.conns| && Good(u) && !u.clean && Shrinks(s, u, With(c, s.conns[c].peer))
    ensures Flushes(s, u, c, bytes)
  {}

  lemma FlushesFresh(s: State, t: State, u: State, c: nat, bytes: seq<byte>, n: nat)
    requires Sound(s) && c < |s.conns| == |s.hist| && n <= |bytes| && s.conns[c].writeRemain == []
             && (s.clean ==> Open(s, c))
    requires t == Wrote(s, c, bytes[..n], [])
    requires u == t.(conns := t.conns[c := t.conns[c].(writeRemain := [] + bytes[n..])],
                     interest := if [] + bytes[n..] != [] && s.conns[c].fd in s.interest
                                 then s.interest[s.conns[c].fd := Interest(true, true)] else s.interest)
    ensures Flushes(s, u, c, bytes) && Stashed(s, u, c, bytes, n)
  {
    WroteSound(s, c, bytes[..n], []);
    StashedFacts(s, t, u, c, bytes, n);
  }

  lemma FlushesRemain(s: State, t: State, u: State, c: nat, n: nat)
    requires Good(s) && c < |s.conns| == |s.hist| && n <= |s.conns[c].writeRemain| && s.conns[c].writeRemain != []
    requires (s.clean ==> Open(s, c)) && s.conns[c].role != Connecting
    requires t == Wrote(s, c, s.conns[c].writeRemain[..n], s.conns[c].writeRemain[n..])
    requires u == t.(robbed := s.robbed || Robs(s, c, n),
                     interest := if |s.conns[c].writeRemain[n..]| == 0 && s.conns[c].fd in s.interest
                                 then s.interest[s.conns[c].fd := Interest(true, false)] else s.interest)
    ensures Flushes(s, u, c, []) && Good(u) && Drew(s, u, c, n)
  {
    WroteSound(s, c, s.conns[c].writeRemain[..n], s.conns[c].writeRemain[n..]);
    FlushedFacts(s, t, u, c, n);
    DrewAfter(s, t, u, c, n);
  }

  lemma AppendReady(t: State, c: nat)
    requires Good(t) && t.clean
    ensures TableOk(t) && WakeupOk(t)
  {}

  lemma AppendDelivered(t: State, u: State, c: nat, bytes: seq<byte>)
    requires TableOk(t) && c < |t.conns| && t.conns[c].writeRemain != [] && Open(t, c) && WakeupOk(t)
    requires u == t.(conns := t.conns[c := t.conns[c].(writeRemain := t.conns[c].writeRemain + bytes)])
    ensures Delivered(t, u, c, bytes)
  {
    assert t.hist[c].accepted + (t.conns[c].writeRemain + bytes) == t.hist[c].accepted + t.conns[c].writeRemain + bytes;
    assert u.hist == t.hist[c := t.hist[c]];
  }

  lemma AppendedFacts(s: State, t: State, u: State, c: nat, bytes: seq<byte>)
    requires c < |s.conns| == |t.conns| && Good(t) && t.conns[c].writeRemain != []
    requires Shrinks(s, t, With(c, s.conns[c].peer))
    requires t.clean ==> Delivered(s, t, c, []) && Open(s, c)
    requires u == t.(conns := t.conns[c := t.conns[c].(writeRemain := t.conns[c].writeRemain + bytes)])
    ensures Sound(u) && Shrinks(s, u, With(c, s.conns[c].peer))
    ensures u.clean ==> Delivered(s, u, c, bytes)
  {
    AppendedSound(t, u, c, bytes);
    hide Sound, Good;
    AppendedShrinks(s, t, u, c, bytes, With(c, s.conns[c].peer));
    if u.clean {
      AppendReady(t, c);
      AppendDelivered(t, u, c, bytes);
      DeliveredTrans(s, t, u, c, [], bytes);
      assert [] + bytes == bytes;
    }
  }

  lemma AppendedSound(t: State, u: State, c: nat, bytes: seq<byte>)
    requires Sound(t) && c < |t.conns| && t.conns[c].writeRemain != []
    requires u == t.(conns := t.conns[c := t.conns[c].(writeRemain := t.conns[c].writeRemain + bytes)])
    ensures Sound(u)
  {
    SameWriting(t, u);
    SameShapeSound(t, u);
  }

  lemma AppendedShrinks(s: State, t: State, u: State, c: nat, bytes: seq<byte>, xs: set<nat>)
    requires c < |s.conns| == |t.conns| && Shrinks(s, t, xs) && c in xs
    requires u == t.(conns := t.conns[c := t.conns[c].(writeRemain := t.conns[c].writeRemain + bytes)])
    ensures Shrinks(s, u, xs)
  {
    forall x | 0 <= x < |s.conns| ensures ConnShrinks(s.conns[x], u.conns[x]) {
      assert ConnShrinks(s.conns[x], t.conns[x]);
    }
    hide ConnShrinks, HistKept;
  }

  lemma ThenFacts(s: State, t: State, u: State, c: nat, bytes: seq<byte>)
    requires c < |s.conns| == |t.conns| && (u.clean ==> t.clean)
    requires Shrinks(s, t, With(c, s.conns[c].peer)) && Shrinks(t, u, With(c, t.conns[c].peer))
    requires t.clean ==> Delivered(s, t, c, [])
    requires u.clean ==> Delivered(t, u, c, bytes)
    ensures Shrinks(s, u, With(c, s.conns[c].peer))
    ensures u.clean ==> Delivered(s, u, c, bytes)
  {
    ShrinksMore(t, u, With(c, t.conns[c].peer), With(c, s.conns[c].peer));
    ShrinksTrans(s, t, u, With(c, s.conns[c].peer));
    if u.clean {
      DeliveredTrans(s, t, u, c, [], bytes);
      assert [] + bytes == bytes;
    }
  }

  /** u is s after a write of which n bytes were taken and the rest was queued. */
  ghost predicate Stashed(s: State, u: State, c: nat, bytes: seq<byte>, n: nat) {
    && c < |s.conns| == |s.hist| && n <= |bytes| && (s.choked ==> u.choked)
    && u == s.(conns := s.conns[c := s.conns[c].(writeRemain := bytes[n..])],
               hist := s.hist[c := s.hist[c].(accepted := s.hist[c].accepted + bytes[..n])],
               outBytes := u.outBytes, choked := u.choked,
               interest := if bytes[n..] != [] && s.conns[c].fd in s.interest
                           then s.interest[s.conns[c].fd := Interest(true, true)] else s.interest)
  }

  lemma StashDelivered(s: State, u: State, c: nat, bytes: seq<byte>, n: nat)
    requires Stashed(s, u, c, bytes, n) && s.conns[c].writeRemain == []
    ensures Delivered(s, u, c, bytes)
  {
    var a := s.hist[c].accepted;
    assert a + bytes[..n] + bytes[n..] == a + [] + bytes;
    assert u.interest.Keys == s.interest.Keys;
  }

  lemma StashedShape(s: State, t: State, u: State, c: nat, bytes: seq<byte>, n: nat)
    requires c < |s.conns| == |s.hist| && n <= |bytes| && t == Wrote(s, c, bytes[..n], [])
    requires u == t.(conns := t.conns[c := t.conns[c].(writeRemain := [] + bytes[n..])],
                     interest := if [] + bytes[n..] != [] && s.conns[c].fd in s.interest
                                 then s.interest[s.conns[c].fd := Interest(true, true)] else s.interest)
    ensures Stashed(s, u, c, bytes, n) && SameShape(t, u)
  {
    assert [] + bytes[n..] == bytes[n..];
  }

  lemma ChokedGood(s: State, choked: bool)
    requires Good(s)
    ensures Good(s.(choked := choked))
  {
    ChokedSound(s, choked);
    if s.clean { ChokedStreams(s, choked); }
    hide Sound, Streams;
  }

  lemma ChokedSound(s: State, choked: bool)
    requires Sound(s)
    ensures Sound(s.(choked := choked))
  {
    SameWriting(s, s.(choked := choked));
    SameShapeSound(s, s.(choked := choked));
  }

  lemma ChokedStreams(s: State, choked: bool)
    requires Streams(s)
    ensures Streams(s.(choked := choked))
  {
    var t := s.(choked := choked);
    forall x ensures Open(t, x) <==> Open(s, x) {}
    assert ConnsOk(t) && PairsOk(t) && RoutesOk(t);
  }

  lemma ChokedFlushes(s: State, t: State, u: State, c: nat, bytes: seq<byte>)
    requires t == s.(choked := t.choked) && (s.choked ==> t.choked) && Flushes(t, u, c, bytes)
    ensures Flushes(s, u, c, bytes)
  {}

  lemma ChokedStashes(s: State, t: State, u: State, c: nat, bytes: seq<byte>)
    requires t == s.(choked := t.choked) && (s.choked ==> t.choked)
    ensures forall n: nat :: Stashed(t, u, c, bytes, n) ==> Stashed(s, u, c, bytes, n)
  {}

  /** What a gathering write and stashRemainder leave behind. */
  lemma StashedFacts(s: State, t: State, u: State, c: nat, bytes: seq<byte>, n: nat)
    requires c < |s.conns| == |s.hist| && n <= |bytes| && s.conns[c].writeRemain == []
    requires Sound(t) && t == Wrote(s, c, bytes[..n], [])
    requires u == t.(conns := t.conns[c := t.conns[c].(writeRemain := [] + bytes[n..])],
                     interest := if [] + bytes[n..] != [] && s.conns[c].fd in s.interest
                                 then s.interest[s.conns[c].fd := Interest(true, true)] else s.interest)
    ensures Sound(u) && Shrinks(s, u, With(c, s.conns[c].peer)) && Delivered(s, u, c, bytes)
            && Stashed(s, u, c, bytes, n)
  {
    StashedShape(s, t, u, c, bytes, n);
    StashedWakeful(s, t, u, c, bytes, n);
    hide Sound, Wrote, SameShape, Wakeful;
    StashedSound(t, u);
    StashDelivered(s, u, c, bytes, n);
    DeliveredShrinks(s, u, c, bytes);
    ShrinksMore(s, u, {c}, With(c, s.conns[c].peer));
  }

  lemma StashedWakeful(s: State, t: State, u: State, c: nat, bytes: seq<byte>, n: nat)
    requires c < |s.conns| == |s.hist| && n <= |bytes| && Wakeful(t) && t == Wrote(s, c, bytes[..n], [])
    requires u == t.(conns := t.conns[c := t.conns[c].(writeRemain := [] + bytes[n..])],
                     interest := if [] + bytes[n..] != [] && s.conns[c].fd in s.interest
                                 then s.interest[s.conns[c].fd := Interest(true, true)] else s.interest)
    ensures Wakeful(u)
  {
    assert u.interest.Keys == t.interest.Keys;
    if !u.robbed {
      forall x | Open(u, x) && u.conns[x].fd == t.conns[c].fd && Needs(u.conns[x])
        ensures t.conns[c].fd in u.interest ==> u.interest[t.conns[c].fd].write {
        assert Open(t, x) && Woken(t, x);
      }
    }
    RetunedWakeful(t, u, c);
  }

  /** u is s after a write of which n of c's waiting bytes were taken. */
  ghost predicate Drew(s: State, u: State, c: nat, n: nat) {
    && c < |s.conns| == |s.hist| && n <= |s.conns[c].writeRemain|
    && var w := s.conns[c].writeRemain;
       u == Wrote(s, c, w[..n], w[n..]).(
              robbed := s.robbed || Robs(s, c, n),
              interest := if w[n..] == [] && s.conns[c].fd in s.interest
                          then s.interest[s.conns[c].fd := Interest(true, false)] else s.interest)
  }

  lemma DrewAfter(s: State, t: State, u: State, c: nat, n: nat)
    requires c < |s.conns| == |s.hist| && n <= |s.conns[c].writeRemain|
    requires t == Wrote(s, c, s.conns[c].writeRemain[..n], s.conns[c].writeRemain[n..])
    requires u == t.(robbed := s.robbed || Robs(s, c, n),
                     interest := if |s.conns[c].writeRemain[n..]| == 0 && s.conns[c].fd in s.interest
                                 then s.interest[s.conns[c].fd := Interest(true, false)] else s.interest)
    ensures Drew(s, u, c, n)
  {}

  lemma StashedSound(t: State, u: State)
    requires Sound(t) && SameShape(t, u) && u.hist == t.hist && u.outBytes == t.outBytes
    requires Wakeful(u) && u.clean == t.clean && u.closeSeen == t.closeSeen
    ensures Sound(u)
  {
    SameShapeSound(t, u);
  }

  lemma FlushDelivered(s: State, u: State, c: nat, n: nat)
    requires c < |s.conns| == |s.hist| && n <= |s.conns[c].writeRemain|
    requires s.conns[c].fd in s.interest ==> s.interest[s.conns[c].fd].write
    requires var w := s.conns[c].writeRemain;
             u == Wrote(s, c, w[..n], w[n..]).(
                    robbed := s.robbed || Robs(s, c, n),
                    interest := if |w[n..]| == 0 && s.conns[c].fd in s.interest
                                then s.interest[s.conns[c].fd := Interest(true, false)] else s.interest)
    ensures Delivered(s, u, c, [])
  {
    var a, w := s.hist[c].accepted, s.conns[c].writeRemain;
    assert a + w[..n] + w[n..] == a + w + [];
    assert u.interest.Keys == s.interest.Keys;
  }

  lemma FlushedFacts(s: State, t: State, u: State, c: nat, n: nat)
    requires Good(s) && c < |s.conns| && n <= |s.conns[c].writeRemain| && s.conns[c].writeRemain != []
    requires (s.clean ==> Open(s, c)) && s.conns[c].role != Connecting
    requires Sound(t) && t == Wrote(s, c, s.conns[c].writeRemain[..n], s.conns[c].writeRemain[n..])
    requires u == t.(robbed := s.robbed || Robs(s, c, n),
                     interest := if |s.conns[c].writeRemain[n..]| == 0 && s.conns[c].fd in s.interest
                                 then s.interest[s.conns[c].fd := Interest(true, false)] else s.interest)
    ensures Good(u) && Shrinks(s, u, With(c, s.conns[c].peer))
    ensures u.clean ==> Delivered(s, u, c, [])
  {
    FlushedWakeful(s, t, u, c, n);
    assert Sound(u) by {
      hide Wakeful;
      SameShapeSound(t, u);
    }
    WroteShrinks(s, c, s.conns[c].writeRemain[..n], s.conns[c].writeRemain[n..]);
    FlushedShrinks(s, t, u, c);
    if s.clean {
      assert Open(s, c);
      FlushDelivered(s, u, c, n);
      FlushedStreams(s, u, c);
    }
  }

  lemma FlushedWakeful(s: State, t: State, u: State, c: nat, n: nat)
    requires c < |s.conns| == |s.hist| && n <= |s.conns[c].writeRemain| && Wakeful(t) && TableOk(s)
             && (s.clean ==> Open(s, c)) && s.conns[c].role != Connecting
    requires t == Wrote(s, c, s.conns[c].writeRemain[..n], s.conns[c].writeRemain[n..])
    requires u == t.(robbed := s.robbed || Robs(s, c, n),
                     interest := if |s.conns[c].writeRemain[n..]| == 0 && s.conns[c].fd in s.interest
                                 then s.interest[s.conns[c].fd := Interest(true, false)] else s.interest)
    ensures Wakeful(u)
  {
    assert u.interest.Keys == t.interest.Keys;
    assert u.conns == t.conns[c := t.conns[c].(writeRemain := u.conns[c].writeRemain)];
    if !u.robbed {
      forall x | Open(u, x) && u.conns[x].fd == t.conns[c].fd && Needs(u.conns[x])
        ensures t.conns[c].fd in u.interest ==> u.interest[t.conns[c].fd].write {
        assert Open(t, x) && Woken(t, x);
      }
    }
    RetunedWakeful(t, u, c);
  }

  lemma FlushedShrinks(s: State, t: State, u: State, c: nat)
    requires c < |s.conns| && Shrinks(s, t, {c}) && u == t.(interest := u.interest, robbed := u.robbed)
             && (t.robbed ==> u.robbed)
    ensures Shrinks(s, u, With(c, s.conns[c].peer))
  {}

  // ---- What dispatch does to the state ----

  lemma DispatchedPong(s: State, t: State, c: nat)
    requires Serving(s, c) && s.conns[c].role == Down && s.conns[c].parser.hdr.opcode == OP_PING
    requires Flushes(s, t, c, Raw(PongFor(Head(s, c)))) && Steady(s, t, c) && t.conns[c].ring.Live?
    requires |t.conns[c].ring.data| >= t.conns[c].parser.hdr.payloadLen
    ensures Dispatched(s, Noted(Dropped(t, c, None), c, PongFor(Head(s, c)), Pong), c)
  {
    SteadyLive(s, t, c);
    FlushesPending(s, t, c, Raw(PongFor(Head(s, c))), c);
    DroppedIsConsumed(t, c, None);
    PongStep(s, t, c);
    PongLeaves(s, t, c);
  }

  lemma PongStep(s: State, t: State, c: nat)
    requires Serving(s, c) && s.conns[c].role == Down && s.conns[c].parser.hdr.opcode == OP_PING
    requires Flushes(s, t, c, Raw(PongFor(Head(s, c)))) && HeadReady(t, c)
    ensures Good(Ponged(t, c, Head(s, c)))
  {
    FlushesPending(s, t, c, Raw(PongFor(Head(s, c))), c);
    PongGood(s, t, c);
  }

  lemma PongLeaves(s: State, t: State, c: nat)
    requires Serving(s, c) && Steady(s, t, c) && HeadReady(s, c) && HeadReady(t, c) && Good(Ponged(t, c, Head(s, c)))
    ensures Dispatched(s, Ponged(t, c, Head(s, c)), c)
  {
    hide Good;
  }

  /** A flush leaves every connection's flags alone. */
  lemma FlushesPending(s: State, t: State, d: nat, bytes: seq<byte>, c: nat)
    requires Flushes(s, t, d, bytes) && c < |s.conns|
    ensures c < |t.conns| == |t.hist| && t.conns[c].hasPending == s.conns[c].hasPending
    ensures t.conns[c].role == s.conns[c].role && t.conns[c].pending == s.conns[c].pending
  {}

  lemma ClosesAlone(s: State, t: State, c: nat)
    requires Closes(s, t, c) && Open(s, c) && s.conns[c].peer == None
    ensures t == Unlinked(s, c)
  {}

  lemma CloseReady(s: State, t: State, c: nat)
    requires Serving(s, c) && s.conns[c].role == Down && s.conns[c].parser.hdr.opcode == OP_CLOSE
    requires t == Dropped(s, c, None).(closeSeen := true)
    ensures Good(t) && Open(t, c) && |t.conns| == |s.conns| && !t.conns[c].hasPending
            && t.conns[c].peer == s.conns[c].peer
  {
    DroppedIsConsumed(s, c, None);
    DropGood(s, c);
    FlaggedGood(Consumed(s, c, None), s.panicked, true);
  }

  /** An unpaired client's CLOSE: nothing but its own connection is touched. */
  function ClosedAtOnce(s: State, c: nat): (t: State)
    requires HeadReady(s, c)
  {
    Unlinked(Dropped(s, c, None).(closeSeen := true), c)
  }

  /** The frame that k's ring holds complete is an unpaired client's CLOSE. */
  predicate Closing(k: Conn, cfg: Config) {
    && k.role == Down && k.peer == None && !k.hasPending && k.ring.Live?
    && var step := NextOn(k.parser, k.ring.data, Limit(cfg.maxPayload));
       step.answer == Complete && step.state.hdr.opcode == OP_CLOSE
  }

  /** The CLOSE of a client was acted on and the reactor panicked, and no write had anything to do with it. */
  ghost predicate Perished(s: State, t: State) {
    t.panicked && t.clean && t.closeSeen && t.choked == s.choked
  }

  ghost predicate Doomed(s: State, c: nat) {
    s.clean && c < |s.conns| == |s.hist| && Closing(s.conns[c], s.cfg)
  }

  /** From s to t the CLOSE was parsed and acted on. */
  ghost predicate Fell(s: State, t: State, c: nat) {
    && c < |s.conns| == |s.hist| && s.conns[c].ring.Live?
    && HeadReady(Parsed1(s, c), c) && t == ClosedAtOnce(Parsed1(s, c), c)
  }

  lemma DoomedLives(s: State, c: nat)
    requires c < |s.conns|
    ensures Doomed(s, c) ==> s.conns[c].ring.Live?
  {}

  lemma DoomedParses(s: State, c: nat)
    requires Doomed(s, c)
    ensures c < |s.conns| && s.conns[c].ring.Live? && !s.conns[c].hasPending
    ensures NextOn(s.conns[c].parser, s.conns[c].ring.data, Limit(s.cfg.maxPayload)).answer == Complete
    ensures var q := Parsed1(s, c);
            HeadReady(q, c) && q.conns[c].role == Down && q.conns[c].peer == None
              && q.conns[c].parser.hdr.opcode == OP_CLOSE
  {}

  lemma DoomedFalls(s: State, t: State, c: nat)
    requires Doomed(s, c) && Fell(s, t, c)
    ensures c < |t.conns| && t.clean && t.closeSeen && t.conns[c].ring == Nil && !t.conns[c].hasPending
            && t.panicked == s.panicked && t.choked == s.choked
  {
    var q := Parsed1(s, c);
    DoomedParses(s, c);
    assert q.clean == s.clean && q.panicked == s.panicked && q.choked == s.choked && !q.conns[c].hasPending;
    hide Parsed1, Doomed;
    var z := Dropped(q, c, None).(closeSeen := true);
    assert z.clean && z.closeSeen && !z.conns[c].hasPending && z.conns[c].peer == None && z.panicked == q.panicked
      && z.choked == q.choked && |z.conns| == |q.conns|;
    hide Dropped;
  }

  lemma DispatchedClose(s: State, t: State, u: State, c: nat)
    requires Serving(s, c) && t == Dropped(s, c, None).(closeSeen := true)
    requires Open(t, c) && Closes(t, u, c)
    ensures Dispatched(s, u, c)
  {}

  lemma PassedOnSeen(t: State, c: nat, dest: Option<nat>, to: nat, f: Frame, src: Source)
    requires c < |t.conns| == |t.hist| && to < |t.hist|
    requires t.conns[c].ring.Live? ==> |t.conns[c].ring.data| >= t.conns[c].parser.hdr.payloadLen
    ensures var z := PassedOn(t, c, dest, to, f, src); z.closeSeen == t.closeSeen && z.clean == t.clean
  {
    DroppedSeen(t, c, dest);
    hide Dropped;
  }

  lemma DroppedSeen(t: State, c: nat, dest: Option<nat>)
    requires c < |t.conns| == |t.hist|
    requires t.conns[c].ring.Live? ==> |t.conns[c].ring.data| >= t.conns[c].parser.hdr.payloadLen
    ensures Dropped(t, c, dest).closeSeen == t.closeSeen && Dropped(t, c, dest).clean == t.clean
    ensures Dropped(t, c, dest).stuck == t.stuck
  {
    if t.conns[c].ring.Live? {
    } else if t.conns[c].parser.hdr.payloadLen > 0 {
    } else {
    }
  }

  /** After the flush of the PONG. */
  lemma PingEnds(s: State, t: State, c: nat)
    requires Serving(s, c) && s.conns[c].role == Down && s.conns[c].parser.hdr.opcode == OP_PING
    requires Flushes(s, t, c, Raw(PongFor(Head(s, c))))
    ensures c < |t.conns| == |t.hist|
    ensures t.conns[c].ring.Live? ==> |t.conns[c].ring.data| >= t.conns[c].parser.hdr.payloadLen
    ensures var z := PassedOn(t, c, None, c, PongFor(Head(s, c)), Pong);
            Dispatched(s, z, c) && z.closeSeen == s.closeSeen && (z.clean ==> Answered(s, z, c))
  {
    hide Good, Shrinks, Serving, Flushes, Steady, Dispatched, Answered, Dropped, Noted;
    ServingFacts(s, c);
    SteadyFlush(s, t, c, Raw(PongFor(Head(s, c))), c);
    SteadySeen(s, t, c);
    SentHead(s, t, c);
    PassedOnSeen(t, c, None, c, PongFor(Head(s, c)), Pong);
    if t.conns[c].ring.Live? {
      DispatchedPong(s, t, c);
      if t.clean { AnsweredAfter(s, t, c); }
    } else {
      DispatchedNilFlush(s, t, c, Raw(PongFor(Head(s, c))), c, None);
      NilIsUnclean(s, t, c);
    }
  }

  /** After the flush of an upstream's frame to its client. */
  lemma RelayEnds(s: State, t: State, c: nat, d: nat)
    requires Serving(s, c) && s.conns[c].role == Up && s.conns[c].peer == Some(d)
    requires Flushes(s, t, d, Raw(Head(s, c)))
    ensures c < |t.conns| == |t.hist| && d < |t.hist|
    ensures t.conns[c].ring.Live? ==> |t.conns[c].ring.data| >= t.conns[c].parser.hdr.payloadLen
    ensures var z := PassedOn(t, c, Some(d), d, Head(s, c), From(c));
            Dispatched(s, z, c) && z.closeSeen == s.closeSeen && (z.clean ==> Relayed(s, z, c))
  {
    hide Good, Shrinks, Serving, Flushes, Steady, Dispatched, Relayed, Dropped, Noted;
    ServingFacts(s, c);
    UpMayPass(s, c);
    SteadyFlush(s, t, d, Raw(Head(s, c)), c);
    SteadySeen(s, t, c);
    SentHead(s, t, c);
    FlushesLengths(s, t, d, Raw(Head(s, c)));
    PassedOnSeen(t, c, Some(d), d, Head(s, c), From(c));
    if t.conns[c].ring.Live? {
      DispatchedForward(s, t, c, d);
      if t.clean { RelayedAfter(s, t, c, d); }
    } else {
      DispatchedNilFlush(s, t, d, Raw(Head(s, c)), c, Some(d));
      NilIsUnclean(s, t, c);
    }
  }

  /** An upstream's frame may go to its client. */
  lemma UpMayPass(s: State, c: nat)
    requires Serving(s, c) && s.conns[c].role == Up && s.conns[c].peer.Some?
    ensures var d := s.conns[c].peer.value;
            MayPass(s, c, d) && 0 < d && (s.clean ==> Open(s, d) && s.hist[c].origin == Some(d))
  {}

  lemma DispatchedForward(s: State, t: State, u: nat, d: nat)
    requires Serving(s, u) && MayPass(s, u, d) && (s.clean ==> Open(s, d) && s.hist[u].origin == Some(d))
             && s.conns[u].role == Up
    requires Flushes(s, t, d, Raw(Head(s, u))) && Steady(s, t, u) && t.conns[u].ring.Live?
    requires |t.conns[u].ring.data| >= t.conns[u].parser.hdr.payloadLen
    ensures d < |t.hist| && Dispatched(s, Noted(Dropped(t, u, Some(d)), d, Head(s, u), From(u)), u)
  {
    SteadyLive(s, t, u);
    FlushesPending(s, t, d, Raw(Head(s, u)), u);
    FlushesLengths(s, t, d, Raw(Head(s, u)));
    DroppedIsConsumed(t, u, Some(d));
    ForwardStep(s, t, u, d);
    ForwardLeaves(s, t, u, d);
  }

  lemma ForwardStep(s: State, t: State, u: nat, d: nat)
    requires Good(s) && MayPass(s, u, d) && (s.clean ==> Open(s, d)) && HeadReady(t, u) && u == s.cur
    requires s.clean && s.conns[u].role == Down ==> s.hist[d].origin == Some(u)
    requires s.clean && s.conns[u].role != Down ==> s.hist[u].origin == Some(d)
    requires Flushes(s, t, d, Raw(Head(s, u))) && d < |t.hist|
    ensures Good(Forwarded(t, u, d, Head(s, u)))
  {
    FlushesPending(s, t, d, Raw(Head(s, u)), u);
    ForwardGood(s, t, u, d);
  }

  lemma ForwardLeaves(s: State, t: State, u: nat, d: nat)
    requires HeadReady(s, u) && HeadReady(t, u) && Steady(s, t, u) && d < |t.hist|
    requires Good(Forwarded(t, u, d, Head(s, u)))
    requires !s.conns[u].paused && !s.panicked && (s.clean ==> !s.closeSeen) && s.conns[u].role != Down
    ensures Dispatched(s, Forwarded(t, u, d, Head(s, u)), u)
  {}

  // ---- Sending the pending frame ----

  /** Client c has a pending frame for its established upstream u. */
  ghost predicate SendReady(s: State, c: nat, u: nat) {
    && Good(s) && 0 < c < |s.conns| == |s.hist| && 0 < u < |s.conns| && c != u && !s.panicked
    && (s.clean ==> !s.closeSeen)
    && s.conns[c].role == Down && s.conns[c].hasPending && c == s.cur && (Watched(s) && Open(s, c) ==> c !in s.stuck)
    && s.conns[u].role == Up && Open(s, u) && s.conns[u].peer == Some(c)
  }

  lemma SendFacts(s: State, c: nat, u: nat)
    requires SendReady(s, c, u)
    ensures Good(s) && 0 < c < |s.conns| == |s.hist| && 0 < u < |s.conns| && c != u && Open(s, u)
    ensures s.conns[u].role == Up
    ensures !s.panicked && (s.conns[c].ring.Live? ==> s.conns[c].pending == s.conns[c].parser.hdr)
    ensures s.clean ==> Open(s, c) && s.conns[c].ring.Live? && s.hist[u].origin == Some(c)
    ensures s.conns[c].ring.Live? ==> HeadReady(s, c) && MayPass(s, c, u)
  {
    assert PendingConnOk(s.conns[c], s.cfg.maxPayload);
    if s.clean { assert s.conns[u].peer.Some? && s.conns[c].peer == Some(u); }
  }

  /** What the sending of a pending frame leaves, before a paused client is resumed. */
  ghost predicate FrameSent(s: State, t: State, c: nat) {
    && Good(t) && c < |s.conns| <= |t.conns| == |t.hist|
    && t.cfg == s.cfg && t.cur == s.cur && t.closeSeen == s.closeSeen
    && t.conns[c].role == s.conns[c].role && t.conns[c].paused == s.conns[c].paused
    && (t.clean ==> s.clean && !t.panicked && t.conns[c].ring.Live?)
    && (!t.panicked ==> !t.conns[c].hasPending)
    && (t.conns[c].ring.Live? ==> Load(t.conns[c]) < Load(s.conns[c]))
    && SameSource(s, t, c) && (c in t.stuck ==> c in s.stuck) && (t.clean ==> Open(t, c))
  }

  lemma SentOnNil(s: State, c: nat, u: nat)
    requires SendReady(s, c, u) && s.conns[c].ring == Nil
    ensures FrameSent(s, s.(panicked := true), c)
  {
    SendFacts(s, c, u);
    FlaggedGood(s, true, s.closeSeen);
  }

  /** The flag is cleared after the frame was taken from the ring. */
  function Unpended(s: State, c: nat): (t: State)
    requires c < |s.conns|
    ensures |t.conns| == |s.conns| && t.hist == s.hist
  {
    s.(conns := s.conns[c := s.conns[c].(hasPending := false)])
  }

  lemma SentLive(s: State, t: State, c: nat, u: nat)
    requires SendReady(s, c, u) && Steady(s, t, c) && t.conns[c].ring.Live? && HeadReady(s, c)
    requires Flushes(s, t, u, Raw(Head(s, c)))
    requires |t.conns[c].ring.data| >= t.conns[c].parser.hdr.payloadLen
    ensures u < |t.hist| && FrameSent(s, Noted(Unpended(Dropped(t, c, Some(u)), c), u, Head(s, c), From(c)), c)
  {
    SendFacts(s, c, u);
    FlushesLengths(s, t, u, Raw(Head(s, c)));
    SentReady(s, t, c);
    hide Good, SendReady, Steady, Flushes, FrameSent, MayPass;
    UnpendedIsConsumed(t, c, Some(u));
    ForwardStep(s, t, c, u);
    SentLeaves(s, t, c, u);
  }

  lemma UnpendedIsConsumed(t: State, c: nat, d: Option<nat>)
    requires HeadReady(t, c)
    ensures Unpended(Dropped(t, c, d), c) == Consumed(t, c, d)
  {}

  lemma SentReady(s: State, t: State, c: nat)
    requires HeadReady(s, c) && Steady(s, t, c) && t.conns[c].ring.Live?
    ensures HeadReady(t, c)
  {}

  lemma SentLeaves(s: State, t: State, c: nat, u: nat)
    requires HeadReady(s, c) && HeadReady(t, c) && Steady(s, t, c) && u < |t.hist| && !s.panicked && s.cur == c
    requires Good(Forwarded(t, c, u, Head(s, c)))
    ensures FrameSent(s, Forwarded(t, c, u, Head(s, c)), c)
  {}

  lemma SentHead(s: State, t: State, c: nat)
    requires Steady(s, t, c) && (s.conns[c].ring.Live? ==> HeadReady(s, c)) && |s.conns| == |s.hist|
    ensures c < |t.conns| == |t.hist| && t.panicked == s.panicked
    ensures t.conns[c].ring.Live? ==> HeadReady(s, c) && |t.conns[c].ring.data| >= t.conns[c].parser.hdr.payloadLen
  {}

  lemma SentNil(s: State, t: State, c: nat, u: nat, bytes: seq<byte>, d: Option<nat>)
    requires SendReady(s, c, u) && Steady(s, t, c) && t.conns[c].ring == Nil && Flushes(s, t, u, bytes)
    ensures Dropped(t, c, d).panicked ==> FrameSent(s, Dropped(t, c, d), c)
    ensures !Dropped(t, c, d).panicked ==> FrameSent(s, Unpended(Dropped(t, c, d), c), c)
  {
    SendFacts(s, c, u);
    SpoiledIsGood(s, t, c);
    hide Good, SendReady, Flushes, Steady, FrameSent, Dropped;
    NilDropped(t, c, d);
    NilLeaves(s, t, Dropped(t, c, d), c);
  }

  /** Dropping from a nil ring changes the parser or panics. */
  lemma NilDropped(t: State, c: nat, d: Option<nat>)
    requires Good(t) && c < |t.conns| == |t.hist| && t.conns[c].ring == Nil
    ensures Good(Dropped(t, c, d)) && NilChange(t, Dropped(t, c, d), c)
  {
    hide Good;
    NilDropGood(t, c, d);
    if t.conns[c].parser.hdr.payloadLen > 0 {
    } else {
    }
  }

  ghost predicate NilChange(t: State, z: State, c: nat) {
    && c < |t.conns| && z == t.(conns := z.conns, panicked := z.panicked)
    && |z.conns| == |t.conns| && z.conns[c] == t.conns[c].(parser := z.conns[c].parser)
    && (t.panicked ==> z.panicked)
  }

  lemma NilLeaves(s: State, t: State, z: State, c: nat)
    requires Steady(s, t, c) && !t.clean && t.conns[c].ring == Nil && Good(z) && NilChange(t, z, c) && s.cur == c
    ensures z.panicked ==> FrameSent(s, z, c)
    ensures !z.panicked ==> FrameSent(s, Unpended(z, c), c)
  {
    hide Good;
    if !z.panicked {
      FlagsGood(z, c, z.conns[c].paused, false);
      assert z.conns[c].(paused := z.conns[c].paused, hasPending := false) == z.conns[c].(hasPending := false);
    }
  }

  /** A ring that vanished during a flush means the run is no longer clean, and then soundness is all there is. */
  lemma SpoiledIsGood(s: State, t: State, c: nat)
    requires Steady(s, t, c) && t.conns[c].ring == Nil && Sound(t)
    requires s.clean ==> s.conns[c].ring.Live?
    ensures !t.clean && Good(t)
  {
    hide Sound;
  }

  /** A paused client that has drained to the low water mark is to be read again. */
  predicate Resumes(s: State, c: nat) {
    c < |s.conns| && !s.panicked && s.conns[c].paused && s.conns[c].ring.Live? && |s.conns[c].ring.data| <= s.cfg.low
  }

  /** A paused client whose ring is gone: asking for its length panics. */
  predicate Lost(s: State, c: nat) {
    c < |s.conns| && !s.panicked && s.conns[c].paused && s.conns[c].ring == Nil
  }

  /** What is left in c's ring once its pending frame has been sent. */
  function LeftAfter(s: State, c: nat): int {
    if c < |s.conns| && s.conns[c].ring.Live? then |s.conns[c].ring.data| - s.conns[c].parser.hdr.payloadLen else 0
  }

  /** Too much to be resumed, or so much that the resumed loop pauses again at once. */
  predicate TooMuch(left: int, cfg: Config) {
    left > cfg.low || left >= cfg.high || left == cfg.cap - 1
  }

  /** Sending flips no pause mark. */
  lemma SentFacts(s: State, t: State, c: nat)
    requires FrameSent(s, t, c)
    ensures c < |s.conns| <= |t.conns| && t.conns[c].paused == s.conns[c].paused && t.cur == s.cur
            && t.closeSeen == s.closeSeen
    ensures t.cfg == s.cfg && (!t.panicked ==> !t.conns[c].hasPending)
            && (t.clean ==> !t.panicked && t.conns[c].ring.Live?)
    ensures SameSource(s, t, c)
  {}

  lemma SentIsDispatched(s: State, t: State, c: nat, u: nat)
    requires SendReady(s, c, u) && FrameSent(s, t, c) && !s.conns[c].paused
    ensures Dispatched(s, t, c)
  {
    SendFacts(s, c, u);
  }

  /** After the flush of c's frame to its upstream u. */
  lemma SendEnds(s: State, t: State, c: nat, u: nat, bytes: seq<byte>)
    requires SendReady(s, c, u) && Flushes(s, t, u, bytes) && (s.conns[c].ring.Live? ==> bytes == Raw(Head(s, c)))
    ensures c < |t.conns| == |t.hist| && u < |t.hist|
    ensures t.conns[c].ring.Live? ==>
              s.conns[c].ring.Live? && |t.conns[c].ring.data| >= t.conns[c].parser.hdr.payloadLen
    ensures var f := if s.conns[c].ring.Live? then Head(s, c) else Frame(ZERO_HEADER, []);
            var z := PassedOn(t, c, Some(u), u, f, From(c));
            && |z.conns| == |t.conns|
            && (z.panicked ==> FrameSent(s, z, c) && !z.clean)
            && (!z.panicked ==> FrameSent(s, Unpended(z, c), c) && (z.clean ==> Passed(s, Unpended(z, c), c, u)))
  {
    hide Good, Shrinks, SendReady, Flushes, Steady, FrameSent, Passed;
    SendFacts(s, c, u);
    SteadyFlush(s, t, u, bytes, c);
    SentHead(s, t, c);
    FlushesLengths(s, t, u, bytes);
    if t.conns[c].ring.Live? {
      SentLive(s, t, c, u);
      if t.clean { PassedAfter(s, t, c, u, bytes); }
      DroppedPanics(t, c, Some(u));
      UnpendedNoted(Dropped(t, c, Some(u)), c, u, Head(s, c), From(c));
    } else {
      SentNil(s, t, c, u, bytes, Some(u));
      SentNilUnclean(s, t, c, u);
      NilDroppedClean(t, c, Some(u));
    }
  }

  lemma NilDroppedClean(t: State, c: nat, d: Option<nat>)
    requires c < |t.conns| == |t.hist| && t.conns[c].ring == Nil
    ensures Dropped(t, c, d).clean == t.clean
  {}

  lemma DroppedPanics(t: State, c: nat, d: Option<nat>)
    requires HeadReady(t, c)
    ensures Dropped(t, c, d).panicked == t.panicked && Dropped(t, c, d).clean == t.clean
  {}

  lemma UnpendedNoted(z: State, c: nat, d: nat, f: Frame, src: Source)
    requires c < |z.conns| && d < |z.hist|
    ensures Unpended(Noted(z, d, f, src), c) == Noted(Unpended(z, c), d, f, src)
    ensures Noted(z, d, f, src).panicked == z.panicked && Noted(z, d, f, src).clean == z.clean
    ensures |Noted(z, d, f, src).conns| == |z.conns|
  {}

  /** A dispatch that first went from s to p. */
  lemma DispatchedVia(s: State, p: State, t: State, c: nat)
    requires Dispatched(p, t, c) && c < |s.conns| <= |p.conns|
    requires p.cfg == s.cfg && p.cur == s.cur == c && p.conns[c].role == s.conns[c].role && (p.clean ==> s.clean)
    requires SameSource(s, p, c)
    requires Load(p.conns[c]) <= Load(s.conns[c])
    ensures Dispatched(s, t, c)
  {}

  // ---- What became of the frame at the head of a ring ----

  /** What an endpoint is told about itself: RecordFail or RecordSuccess. */
  datatype Report = Failure(ep: nat) | Success(ep: nat)

  /** What the endpoint of an upstream is told when a frame of it is passed on. */
  function ReportsOn(k: Conn): seq<Report> {
    if k.peer == None || k.ep == None then []
    else [Success(k.ep.value)] + if k.parser.hdr.opcode == OP_ERROR then [Failure(k.ep.value)] else []
  }

  /** What route lookup and pick give for a DATA frame. */
  datatype Choice = NoRoute | NoUpstream | Chosen(ep: nat)

  /** How an upstream of the chosen endpoint was come by: the client has one, or dial and poller answered so. */
  datatype Dial = Reused | DialFailed | AdoptFailed | Dialed(fd: int, progress: bool)

  /** The frame was taken from c's ring, and went to d. */
  ghost predicate Taken(s: State, t: State, c: nat, d: Option<nat>) {
    && HeadReady(s, c) && c < |t.hist|
    && t.hist[c].consumed == s.hist[c].consumed + [Head(s, c)]
    && t.hist[c].dest == s.hist[c].dest + [d]
  }

  /** Exactly one frame was put on d. */
  ghost predicate Put(s: State, t: State, d: nat, f: Frame, src: Source) {
    d < |s.hist| && d < |t.hist| && t.hist[d].out == s.hist[d].out + [Sent(f, src)]
  }

  /** The last frame put on d. */
  ghost predicate LastOn(t: State, d: nat, f: Frame, src: Source) {
    d < |t.hist| && |t.hist[d].out| > 0 && t.hist[d].out[|t.hist[d].out| - 1] == Sent(f, src)
  }

  /** A PING was answered. */
  ghost predicate Answered(s: State, t: State, c: nat) {
    Taken(s, t, c, None) && Put(s, t, c, PongFor(Head(s, c)), Pong)
  }

  /** An upstream's frame went to its client if it has one, and nowhere otherwise. */
  ghost predicate Relayed(s: State, t: State, c: nat) {
    && c < |s.conns| && Taken(s, t, c, s.conns[c].peer)
    && (s.conns[c].peer.Some? ==> Put(s, t, s.conns[c].peer.value, Head(s, c), From(c)))
  }

  /** The frame was dropped and an ERROR is the last thing c was told. */
  ghost predicate Refused(s: State, t: State, c: nat, code: uint16, msg: seq<byte>) {
    Taken(s, t, c, None) && LastOn(t, c, ErrorFrame(s.conns[c].parser.hdr, code, msg), Own)
  }

  /** From s to t only c changed, and u by a write: its waiting bytes, its history, the interest in its descriptor. */
  ghost predicate Between(s: State, t: State, c: nat, u: nat) {
    && u < |s.conns| == |t.conns| && |s.hist| == |t.hist|
    && t == s.(conns := t.conns, hist := t.hist, interest := t.interest, outBytes := t.outBytes, robbed := t.robbed,
       choked := t.choked)
    && (forall x :: 0 <= x < |s.conns| && x != c && x != u ==> t.conns[x] == s.conns[x])
    && (forall x :: 0 <= x < |s.hist| && x != c && x != u ==> t.hist[x] == s.hist[x])
    && t.conns[u] == s.conns[u].(writeRemain := t.conns[u].writeRemain)
    && t.interest.Keys == s.interest.Keys
    && (forall fd :: fd in s.interest && fd != s.conns[u].fd ==> t.interest[fd] == s.interest[fd])
  }

  /** Client c's pending frame went to its upstream u, both stayed paired, and nothing else changed. */
  ghost predicate Passed(s: State, t: State, c: nat, u: nat) {
    && Between(s, t, c, u)
    && Taken(s, t, c, Some(u)) && Put(s, t, u, Head(s, c), From(c))
    && u < |s.conns| == |t.conns| == |t.hist| && t.conns[c].peer == s.conns[c].peer
    && t.conns[u].role == s.conns[u].role && t.conns[u].ep == s.conns[u].ep
    && t.conns[c].ring == Live(s.conns[c].ring.slot, s.conns[c].ring.data[s.conns[c].parser.hdr.payloadLen..])
  }

  /** c's DATA frame went to an established upstream of ep, or is pending for one being connected. */
  ghost predicate Routed(s: State, t: State, c: nat, ep: nat) {
    && HeadReady(s, c) && c < |t.conns| == |t.hist| && t.conns[c].peer.Some? && t.conns[c].peer.value < |t.conns|
    && var u := t.conns[c].peer.value;
       && t.conns[u].ep == Some(ep)
       && if t.conns[u].role == Up
          then Taken(s, t, c, Some(u)) && LastOn(t, u, Head(s, c), From(c))
          else
            && t.conns[u].role == Connecting && t.conns[c].hasPending && HeadReady(t, c)
            && Head(t, c) == Head(s, c) && t.conns[c].pending == Head(s, c).hdr
            && t.hist[c].consumed == s.hist[c].consumed && t.hist[c].dest == s.hist[c].dest
  }

  /** The peer of c has this descriptor and this role. */
  predicate OnUpstream(t: State, c: nat, fd: int, role: Role) {
    && c < |t.conns| && t.conns[c].peer.Some? && t.conns[c].peer.value < |t.conns|
    && t.conns[t.conns[c].peer.value].fd == fd && t.conns[t.conns[c].peer.value].role == role
  }

  /** As dial says, an upstream of ep failed or has the frame, and the endpoint was told of a failure. */
  ghost predicate Connected(s: State, t: State, c: nat, ep: nat, dial: Dial, news: seq<Report>) {
    match dial
    case DialFailed => Refused(s, t, c, CODE_UPSTREAM_FAIL, Text("dial failed")) && news == [Failure(ep)]
    case AdoptFailed => Refused(s, t, c, CODE_UPSTREAM_FAIL, Text("adopt failed")) && news == [Failure(ep)]
    case Dialed(fd, progress) =>
      Routed(s, t, c, ep) && OnUpstream(t, c, fd, if progress then Connecting else Up) && news == []
    case Reused => Routed(s, t, c, ep) && c < |s.conns| && t.conns[c].peer == s.conns[c].peer && news == []
  }

  ghost predicate DataHandled(s: State, t: State, c: nat, choice: Choice, dial: Dial, news: seq<Report>) {
    match choice
    case NoRoute => Refused(s, t, c, CODE_ROUTE_NOT_FOUND, Text("route not found")) && news == []
    case NoUpstream => Refused(s, t, c, CODE_NO_UPSTREAM, Text("no healthy upstream")) && news == []
    case Chosen(ep) => Connected(s, t, c, ep, dial, news)
  }

  /** What dispatch does with a complete frame, as long as no write fails for good; news is what endpoints were told. */
  ghost predicate Handled(s: State, t: State, c: nat, choice: Choice, news: seq<Report>) {
    HeadReady(s, c) &&
    var op := s.conns[c].parser.hdr.opcode;
    match s.conns[c].role
    case Down =>
      if op == OP_DATA then exists dial :: DataHandled(s, t, c, choice, dial, news)
      else
        && news == []
        && if op == OP_PING then Answered(s, t, c)
           else if op == OP_CLOSE then Taken(s, t, c, None) && t.closeSeen && !Open(t, c)
           else if op == OP_ERROR then t == Dropped(s, c, None) && Taken(s, t, c, None)
           else Refused(s, t, c, CODE_UNKNOWN_OPCODE, Text("opcode"))
    case Up => Relayed(s, t, c) && news == ReportsOn(s.conns[c])
    case _ => t == Dropped(s, c, None) && Taken(s, t, c, None) && news == []
  }

  lemma HandledUp(s: State, t: State, c: nat, choice: Choice, news: seq<Report>)
    requires HeadReady(s, c) && s.conns[c].role == Up && Relayed(s, t, c) && news == ReportsOn(s.conns[c])
    ensures Handled(s, t, c, choice, news)
  {}

  lemma HandledElse(s: State, c: nat, choice: Choice)
    requires HeadReady(s, c) && s.conns[c].role != Up
    requires s.conns[c].role == Down ==> s.conns[c].parser.hdr.opcode == OP_ERROR
    ensures Handled(s, Dropped(s, c, None), c, choice, []) && Dropped(s, c, None).closeSeen == s.closeSeen
  {
    DroppedTaken(s, c, None);
    hide Taken;
  }

  lemma DroppedTaken(s: State, c: nat, d: Option<nat>)
    requires HeadReady(s, c)
    ensures Taken(s, Dropped(s, c, d), c, d)
  {}

  lemma RelayedNowhere(s: State, c: nat)
    requires HeadReady(s, c) && s.conns[c].peer == None
    ensures Relayed(s, Dropped(s, c, None), c)
  {}

  lemma NilIsUnclean(s: State, t: State, c: nat)
    requires Serving(s, c) && Steady(s, t, c) && t.conns[c].ring == Nil
    ensures !t.clean
  {}

  lemma RefusedAfter(s: State, t0: State, t: State, c: nat, code: uint16, msg: seq<byte>)
    requires Serving(s, c) && Steady(s, t0, c) && Steady(s, t, c) && t.clean
    requires t.conns[c].ring.Live? ==> |t.conns[c].ring.data| >= t.conns[c].parser.hdr.payloadLen
    requires Told(t0, t, c, ErrorFrame(s.conns[c].parser.hdr, code, msg))
    ensures Refused(s, Dropped(t, c, None), c, code, msg)
  {}

  lemma AnsweredAfter(s: State, t: State, c: nat)
    requires Serving(s, c) && Steady(s, t, c) && t.clean && HeadReady(s, c)
    requires t.conns[c].ring.Live? && |t.conns[c].ring.data| >= t.conns[c].parser.hdr.payloadLen
    requires Flushes(s, t, c, Raw(PongFor(Head(s, c))))
    ensures Answered(s, Noted(Dropped(t, c, None), c, PongFor(Head(s, c)), Pong), c)
  {}

  lemma ClosedAfter(s: State, t: State, u: State, c: nat)
    requires Serving(s, c) && s.conns[c].role == Down && t == Dropped(s, c, None).(closeSeen := true)
    requires Open(t, c) && Closes(t, u, c) && Parted(t, u, c) && u.clean
    ensures Taken(s, u, c, None) && u.closeSeen && !Open(u, c)
  {
    ServingFacts(s, c);
    assert u.closeSeen && !Open(u, c) && c < |t.conns|;
    DroppedPeer(s, t, c);
    hide Serving, Closes;
    assert u.hist == t.hist;
    DroppedTaken(s, c, None);
  }

  lemma DroppedPeer(s: State, t: State, c: nat)
    requires HeadReady(s, c) && t == Dropped(s, c, None).(closeSeen := true)
    ensures |t.conns| == |s.conns| && t.conns[c].peer == s.conns[c].peer
    ensures forall x :: 0 <= x < |s.conns| ==> t.conns[x].role == s.conns[x].role
  {}

  /** While clean, what was queued on d touches no other history, and of d's only the bytes. */
  lemma FlushedHist(s: State, t: State, d: nat, bytes: seq<byte>, c: nat)
    requires Flushes(s, t, d, bytes) && t.clean && c < |s.hist| && c != d
    ensures d < |t.hist| == |s.hist| && t.hist[d].out == s.hist[d].out && t.hist[c] == s.hist[c]
  {}

  lemma RelayedAfter(s: State, t: State, c: nat, d: nat)
    requires Serving(s, c) && Steady(s, t, c) && t.clean && HeadReady(s, c) && d != c && s.conns[c].peer == Some(d)
    requires t.conns[c].ring.Live? && |t.conns[c].ring.data| >= t.conns[c].parser.hdr.payloadLen
    requires Flushes(s, t, d, Raw(Head(s, c))) && d < |t.hist|
    ensures Relayed(s, Noted(Dropped(t, c, Some(d)), d, Head(s, c), From(c)), c)
  {
    FlushedHist(s, t, d, Raw(Head(s, c)), c);
    SteadyLive(s, t, c);
    hide Flushes, Serving, Steady;
    ForwardedHist(t, c, d, Head(s, c));
  }

  lemma ForwardedHist(t: State, c: nat, d: nat, f: Frame)
    requires HeadReady(t, c) && d < |t.hist| && c != d
    ensures var z := Noted(Dropped(t, c, Some(d)), d, f, From(c));
            && |z.hist| == |t.hist| && z.hist[d].out == t.hist[d].out + [Sent(f, From(c))]
            && z.hist[c].consumed == t.hist[c].consumed + [Head(t, c)] && z.hist[c].dest == t.hist[c].dest + [Some(d)]
  {}

  lemma SentNilUnclean(s: State, t: State, c: nat, u: nat)
    requires SendReady(s, c, u) && c < |t.conns| && t.conns[c].ring == Nil && (t == s || Steady(s, t, c))
    ensures !t.clean
  {
    SendFacts(s, c, u);
  }

  lemma PassedAfter(s: State, t: State, c: nat, u: nat, bytes: seq<byte>)
    requires SendReady(s, c, u) && Steady(s, t, c) && t.clean && HeadReady(s, c)
    requires t.conns[c].ring.Live? && |t.conns[c].ring.data| >= t.conns[c].parser.hdr.payloadLen
    requires Flushes(s, t, u, bytes) && u < |t.hist|
    ensures Passed(s, Noted(Unpended(Dropped(t, c, Some(u)), c), u, Head(s, c), From(c)), c, u)
  {
    FlushedHist(s, t, u, bytes, c);
    FlushedConns(s, t, u, bytes, c);
    SentReady(s, t, c);
    hide Flushes, SendReady, Steady, Dropped, Unpended, Passed, Between;
    UnpendedIsConsumed(t, c, Some(u));
    ConsumedBetween(s, t, c, u, Head(s, c));
    PassedValues(s, t, c, u);
  }

  lemma ConsumedBetween(s: State, t: State, c: nat, u: nat, f: Frame)
    requires Between(s, t, c, u) && HeadReady(t, c) && c != u && u < |t.hist|
    ensures Between(s, Noted(Consumed(t, c, Some(u)), u, f, From(c)), c, u)
  {}

  lemma PassedValues(s: State, t: State, c: nat, u: nat)
    requires HeadReady(s, c) && HeadReady(t, c) && c != u && u < |s.conns| == |t.conns| == |t.hist|
             && |s.hist| == |s.conns|
    requires t.conns[c] == s.conns[c] && t.hist[c] == s.hist[c] && t.hist[u].out == s.hist[u].out
    requires t.conns[u].role == s.conns[u].role && t.conns[u].ep == s.conns[u].ep
    requires Between(s, Noted(Consumed(t, c, Some(u)), u, Head(s, c), From(c)), c, u)
    ensures Passed(s, Noted(Consumed(t, c, Some(u)), u, Head(s, c), From(c)), c, u)
  {
    ConsumedShape(t, c, u, Head(s, c));
    hide Consumed, Noted, Between;
  }

  lemma ConsumedShape(t: State, c: nat, u: nat, f: Frame)
    requires HeadReady(t, c) && c != u && u < |t.conns| == |t.hist|
    ensures var z := Noted(Consumed(t, c, Some(u)), u, f, From(c));
            && |z.conns| == |z.hist| == |t.conns| && z.conns[u] == t.conns[u]
            && z.hist[c] == t.hist[c].(consumed := t.hist[c].consumed + [Head(t, c)],
               dest := t.hist[c].dest + [Some(u)])
            && z.hist[u].out == t.hist[u].out + [Sent(f, From(c))]
            && z.conns[c].peer == t.conns[c].peer
            && z.conns[c].ring == Live(t.conns[c].ring.slot, t.conns[c].ring.data[t.conns[c].parser.hdr.payloadLen..])
  {}

  lemma FlushedConns(s: State, t: State, u: nat, bytes: seq<byte>, c: nat)
    requires Flushes(s, t, u, bytes) && t.clean && c < |s.conns| && c != u
    ensures u < |s.conns| == |t.conns| == |t.hist| && t.conns[c] == s.conns[c] && Between(s, t, c, u)
    ensures t.conns[u].role == s.conns[u].role && t.conns[u].ep == s.conns[u].ep
  {}

  lemma RoutedAgain(s: State, p: State, t: State, c: nat, u: nat, ep: nat)
    requires HeadReady(s, c) && s.conns[c].peer == Some(u) && u != c && u < |s.conns| && s.conns[u].role == Up
             && s.conns[u].ep == Some(ep)
    requires p == s.(conns := s.conns[c := s.conns[c].(pending := s.conns[c].parser.hdr, hasPending := true)])
    requires Passed(p, t, c, u)
    ensures Routed(s, t, c, ep) && t.conns[c].peer == Some(u)
  {}

  /** The state in which client c has the new upstream at fd. */
  function Joined(t: State, c: nat, fd: int, role: Role, ep: nat): State
    requires c < |t.conns|
  {
    Paired(Adopted(t, fd, role, Some(ep), Some(c)), c, |t.conns|, t.conns[c].parser.hdr)
  }

  lemma JoinedShape(t: State, c: nat, fd: int, role: Role, ep: nat)
    requires c < |t.conns| == |t.hist|
    ensures var p, u := Joined(t, c, fd, role, ep), |t.conns|;
            && |p.conns| == |p.hist| == u + 1 && p.hist[c] == t.hist[c]
            && p.conns[c] == t.conns[c].(peer := Some(u), pending := t.conns[c].parser.hdr, hasPending := true)
            && p.conns[u].role == role && p.conns[u].ep == Some(ep) && p.conns[u].fd == fd
  {}

  /** c waits in p for u with the frame it had in s. */
  ghost predicate WaitsFor(s: State, p: State, c: nat, u: nat, ep: nat) {
    && HeadReady(s, c) && HeadReady(p, c) && Head(p, c) == Head(s, c)
    && p.hist[c].consumed == s.hist[c].consumed && p.hist[c].dest == s.hist[c].dest
    && u < |p.conns| && p.conns[c].peer == Some(u) && p.conns[u].ep == Some(ep)
    && p.conns[c].hasPending && p.conns[c].pending == s.conns[c].parser.hdr
  }

  lemma FreeWaits(s: State, t: State, c: nat, fd: int, role: Role, ep: nat)
    requires Free(s, t, c) && t.clean
    ensures WaitsFor(s, Joined(t, c, fd, role, ep), c, |t.conns|, ep)
    ensures Joined(t, c, fd, role, ep).conns[|t.conns|].role == role
            && Joined(t, c, fd, role, ep).conns[|t.conns|].fd == fd
  {
    JoinedShape(t, c, fd, role, ep);
    FreeHead(s, t, c);
    hide Joined, Good, Free;
  }

  /** What c had before it was paired again is untouched. */
  lemma FreeHead(s: State, t: State, c: nat)
    requires Free(s, t, c) && t.clean
    ensures HeadReady(s, c) && HeadReady(t, c) && Head(t, c) == Head(s, c)
    ensures t.conns[c].parser == s.conns[c].parser
    ensures t.hist[c].consumed == s.hist[c].consumed && t.hist[c].dest == s.hist[c].dest
  {}

  lemma RoutedLater(s: State, p: State, c: nat, u: nat, ep: nat)
    requires WaitsFor(s, p, c, u, ep) && p.conns[u].role == Connecting
    ensures Routed(s, p, c, ep) && OnUpstream(p, c, p.conns[u].fd, Connecting)
  {}

  lemma RoutedAtOnce(s: State, p: State, z: State, c: nat, u: nat, ep: nat)
    requires WaitsFor(s, p, c, u, ep) && p.conns[u].role == Up && Passed(p, z, c, u)
    ensures Routed(s, z, c, ep) && OnUpstream(z, c, p.conns[u].fd, Up)
  {}

  // ---- Choosing an upstream ----

  /** c's frame becomes pending for the upstream it already has. */
  lemma PendForPeer(s: State, c: nat, p: State)
    requires Serving(s, c) && s.conns[c].role == Down && s.conns[c].parser.hdr.opcode == OP_DATA
    requires s.conns[c].peer.Some? && s.conns[c].peer.value < |s.conns| && s.conns[s.conns[c].peer.value].role == Up
    requires p == s.(conns := s.conns[c := s.conns[c].(pending := s.conns[c].parser.hdr, hasPending := true)])
    ensures SendReady(p, c, s.conns[c].peer.value) && Load(p.conns[c]) == Load(s.conns[c]) && SameSource(s, p, c)
  {
    var k := p.conns[c];
    assert PendingConnOk(s.conns[c], s.cfg.maxPayload);
    assert IsLive(s, c);
    if s.clean { PendBooks(s, c, k); }
    ConnGood(s, c, k);
  }

  lemma PendBooks(s: State, c: nat, k: Conn)
    requires ConnsOk(s) && c < |s.conns| && k == s.conns[c].(pending := k.pending, hasPending := k.hasPending)
    ensures BooksOk(k, s.hist[c], |s.conns|, s.cfg.maxPayload)
  {
    assert BooksOk(s.conns[c], s.hist[c], |s.conns|, s.cfg.maxPayload);
  }

  /** c, not paired any more after its old upstream was closed, and otherwise as it was. */
  ghost predicate Free(s: State, t: State, c: nat) {
    && Serving(s, c) && s.conns[c].role == Down && s.conns[c].parser.hdr.opcode == OP_DATA
    && Good(t) && Steady(s, t, c) && t.conns[c].peer == None && !t.conns[c].hasPending
  }

  lemma FreeAtOnce(s: State, c: nat)
    requires Serving(s, c) && s.conns[c].role == Down && s.conns[c].parser.hdr.opcode == OP_DATA
             && s.conns[c].peer == None
    ensures Free(s, s, c)
  {}

  lemma FreeAfterClose(s: State, t: State, c: nat, p: nat)
    requires Serving(s, c) && s.conns[c].role == Down && s.conns[c].parser.hdr.opcode == OP_DATA
    requires s.conns[c].peer == Some(p) && Closes(s, t, p)
    ensures Free(s, t, c) && t.conns == t.conns[c := t.conns[c].(peer := None)]
  {
    assert Open(s, p) && s.conns[p].peer == Some(c);
    assert t.conns[c].peer == None by {
      if t.conns[c].peer == Some(p) { assert false; }
    }
    if t.clean { assert Open(t, c); }
  }

  lemma FreeFacts(s: State, t: State, c: nat)
    requires Free(s, t, c)
    ensures Good(t) && Serving(s, c) && Steady(s, t, c) && 0 < c < |t.conns| && !t.conns[c].hasPending
    ensures s.conns[c].role == Down && s.conns[c].parser.hdr.opcode != OP_PING && t.conns[c].parser == s.conns[c].parser
  {}

  lemma FreeBounced(s: State, t: State, c: nat)
    requires Free(s, t, c)
    ensures Free(s, t.(slab := t.slab.AfterGet().AfterPut(t.slab.Next())), c)
  {
    BouncedGood(t);
  }

  /** After the new upstream joined, c's frame is pending for it. */
  lemma PairedFacts(s: State, t: State, a: State, p: State, c: nat, u: nat, fd: int, role: Role, ep: nat)
    requires Free(s, t, c) && fd !in t.tab && (role == Up || role == Connecting) && c < |t.conns| == u < |a.conns|
    requires a == Adopted(t, fd, role, Some(ep), Some(c)) && p == Paired(a, c, u, t.conns[c].parser.hdr)
    ensures c < u < |a.conns| == |p.conns|
    ensures role == Up ==> SendReady(p, c, u)
    ensures role == Connecting ==> Dispatched(s, p, c)
    ensures c < |s.conns| <= |p.conns|
    ensures p.cfg == s.cfg && p.cur == s.cur && p.conns[c].role == s.conns[c].role && (p.clean ==> s.clean)
    ensures Load(p.conns[c]) <= Load(s.conns[c]) && !p.conns[c].paused && SameSource(s, p, c)
  {
    FreeAdopted(s, t, c, fd, role, ep);
    FreeSame(s, t, c);
    hide Good, Adopted, Open, HeadReady, Free, CanPair, SameSource;
    PairReady(t, a, c, u);
    PairedShape(a, c, u, t.conns[c].parser.hdr);
    JoinedGood(s, t, a, c, u);
    PairedSource(s, t, p, c);
    if role == Connecting { JoinedWaits(s, t, p, c, u); }
  }

  lemma FreeSame(s: State, t: State, c: nat)
    requires Free(s, t, c)
    ensures c < |s.conns| <= |t.conns| == |t.hist| && t.cfg == s.cfg && t.cur == s.cur == c && (t.clean ==> s.clean)
    ensures !t.panicked && (t.clean ==> !t.closeSeen) && t.conns[c].role == s.conns[c].role == Down
            && !t.conns[c].paused
    ensures t.conns[c].peer == None && t.conns[c].parser.hdr.opcode == OP_DATA && 0 < c
    ensures Load(t.conns[c]) <= Load(s.conns[c]) && SameSource(s, t, c)
    ensures Watched(t) && Open(t, c) ==> c !in t.stuck
  {
    hide Good;
  }

  lemma PairedSource(s: State, t: State, p: State, c: nat)
    requires SameSource(s, t, c) && |p.hist| == |p.conns| >= |t.conns| && p.stuck == t.stuck && c < |t.hist|
    requires p.hist[c] == t.hist[c] && p.conns[c].fd == t.conns[c].fd && p.conns[c].role == t.conns[c].role
    ensures SameSource(s, p, c)
  {}

  lemma FreeAdopted(s: State, t: State, c: nat, fd: int, role: Role, ep: nat)
    requires Free(s, t, c) && fd !in t.tab && (role == Up || role == Connecting)
    ensures var u := |t.conns|; var a := Adopted(t, fd, role, Some(ep), Some(c));
            && Good(a) && c < u == |t.hist| && Open(a, u) && |a.conns| == u + 1 == |a.hist|
            && a.hist[u].origin == Some(c)
            && a.conns[c] == t.conns[c] && a.conns[u].peer == None && a.conns[u].role == role
            && a.conns[u].ep == Some(ep)
            && (t.conns[c].ring.Live? ==> HeadReady(t, c)) && (a.clean ==> Open(a, c))
            && a.cfg == t.cfg && a.cur == t.cur && a.clean == t.clean && a.panicked == t.panicked
            && a.closeSeen == t.closeSeen && a.stuck == t.stuck && a.hist[c] == t.hist[c]
  {
    AdoptedGood(t, fd, role, Some(ep), Some(c));
    AdoptedTable(t, fd, role, Some(ep), Some(c));
    if t.conns[c].ring.Live? { SteadyLive(s, t, c); }
  }

  lemma JoinedGood(s: State, t: State, a: State, c: nat, u: nat)
    requires Good(a) && c < |t.conns| && CanPair(a, c, u, t.conns[c].parser.hdr)
    requires a.clean ==> Open(a, c) && a.hist[u].origin == Some(c)
    ensures Good(Paired(a, c, u, t.conns[c].parser.hdr))
  {
    hide Good;
    PairedGood(a, c, u, t.conns[c].parser.hdr);
  }

  /** A client joined with a connecting upstream waits for it. */
  lemma JoinedWaits(s: State, t: State, p: State, c: nat, u: nat)
    requires Free(s, t, c) && Good(p) && c < u == |t.conns| < |p.conns| == |p.hist| && |t.hist| == |t.conns|
    requires p.cfg == t.cfg && p.cur == t.cur && p.clean == t.clean && p.panicked == t.panicked
             && p.closeSeen == t.closeSeen
    requires p.stuck == t.stuck && p.hist[c] == t.hist[c] && p.conns[u].role == Connecting
    requires p.conns[c] == t.conns[c].(peer := Some(u), pending := t.conns[c].parser.hdr, hasPending := true)
    requires p.clean ==> Open(p, c)
    ensures Dispatched(s, p, c)
  {
    hide Good;
  }

  lemma PairReady(t: State, a: State, c: nat, u: nat)
    requires Good(a) && c < u == |t.conns| == |t.hist| && Open(a, u) && |a.conns| == u + 1 == |a.hist|
    requires a.conns[c] == t.conns[c] && t.conns[c].role == Down && t.conns[c].peer == None
             && t.conns[c].parser.hdr.opcode == OP_DATA
    requires a.conns[u].peer == None && (a.conns[u].role == Up || a.conns[u].role == Connecting)
    requires (t.conns[c].ring.Live? ==> HeadReady(t, c)) && a.cur == c
    ensures CanPair(a, c, u, t.conns[c].parser.hdr)
  {}

  // ---- Reading ----

  /** Between events: everything holds, nobody is being read, and no CLOSE has gone unpunished. */
  ghost predicate Idle(s: State) {
    Good(s) && s.cur == -1 && !s.panicked && (s.clean ==> !s.closeSeen)
  }

  /**
   * After an event. While no write has failed for good, a nil ring was used exactly if a CLOSE was acted on.
   * A gathering write that answers EAGAIN, which counts as nothing taken here, has left its mark in choked.
   */
  ghost predicate Ended(s: State) {
    && Good(s)
    && (s.clean ==> (s.panicked <==> s.closeSeen))
    && (!s.panicked ==> s.cur == -1)
  }

  lemma EndedAlready(s: State)
    requires Idle(s)
    ensures Ended(s)
  {}

  lemma EndedPanics(s: State)
    requires Ended(s)
    ensures s.clean && !s.choked ==> (s.panicked <==> s.closeSeen)
  {}

  /** c is being read, and nothing has gone wrong. */
  ghost predicate Reading(s: State, c: nat) {
    && Good(s) && 0 < c < |s.conns| == |s.hist| && s.cur == c && !s.panicked && !s.conns[c].paused
    && (s.clean ==> !s.closeSeen)
    && PendingKept(s, c)
  }

  /** c's pending frame is for an upstream being connected, or for nobody if c is stuck. */
  ghost predicate PendingKept(s: State, c: nat) {
    Watched(s) && Open(s, c) && s.conns[c].role == Down ==>
      if c in s.stuck then s.conns[c].hasPending && s.conns[c].peer == None
      else s.conns[c].hasPending ==> Waits(s.conns, s.conns[c])
  }

  /** Either c waits for an upstream, or nothing complete is left in its ring. */
  ghost predicate Settled(s: State, c: nat) {
    IsLive(s, c) ==> s.conns[c].hasPending || Drained(s.conns[c], s.cfg.maxPayload)
  }

  /** c is settled, and paused only for a pending frame when the water marks fit. */
  ghost predicate AtRest(s: State, c: nat) {
    Settled(s, c) && (Tuned(s.cfg) && c < |s.conns| && s.conns[c].paused ==> s.conns[c].hasPending)
  }

  lemma AtRestWaits(s: State, c: nat)
    requires AtRest(s, c) && c < |s.conns|
    ensures Settled(s, c) && (Tuned(s.cfg) && s.conns[c].paused ==> s.conns[c].hasPending)
  {}

  /** Of the bytes a read offers, those c's ring has room for. */
  function Room(s: State, c: nat, bytes: seq<byte>): seq<byte>
    requires c < |s.conns| && s.conns[c].ring.Live? && |s.conns[c].ring.data| < s.cfg.cap
  {
    var room := s.cfg.cap - 1 - |s.conns[c].ring.data|;
    if |bytes| <= room then bytes else bytes[..room]
  }

  /** c has a ring below the high water mark that is not full. */
  predicate Readable(s: State, c: nat) {
    c < |s.conns| && s.conns[c].ring.Live? && |s.conns[c].ring.data| < s.cfg.high
      && |s.conns[c].ring.data| < s.cfg.cap - 1
  }

  lemma ReadingUnpaused(s: State, c: nat)
    requires Reading(s, c)
    ensures c < |s.conns| && !s.conns[c].paused
  {}

  lemma ReadableFacts(s: State, c: nat)
    requires Readable(s, c) && Reading(s, c)
    ensures c < |s.conns| && IsLive(s, c) && s.conns[c].ring.Live? && |s.conns[c].ring.data| < s.cfg.cap
            && Short(s.conns[c], s.cfg)
  {}

  /** From s to t exactly the chunk was read from c's socket. */
  ghost predicate Fetched(s: State, t: State, c: nat, chunk: seq<byte>) {
    && c < |s.conns| <= |t.conns| == |t.hist| && |s.conns| == |s.hist|
    && t.conns[c].fd == s.conns[c].fd && t.conns[c].role == s.conns[c].role
    && t.hist[c].received == s.hist[c].received + chunk && s.stuck <= t.stuck
  }

  /** From s to t the chunk was read from c's socket, and perhaps more after it. */
  ghost predicate ReadOn(s: State, t: State, c: nat, chunk: seq<byte>) {
    && c < |s.conns| <= |t.conns| == |t.hist| && |s.conns| == |s.hist|
    && t.conns[c].fd == s.conns[c].fd && t.conns[c].role == s.conns[c].role
    && s.hist[c].received + chunk <= t.hist[c].received && s.stuck <= t.stuck
  }

  /** sendPending led from s by way of mid to t. */
  ghost predicate SentVia(s: State, mid: State, t: State, c: nat, u: nat) {
    && FrameSent(s, mid, c) && (mid.clean ==> Passed(s, mid, c, u))
    && if Resumes(mid, c) then ReadOn(mid, t, c, []) && (Settled(mid, c) && !t.panicked ==> AtRest(t, c))
       else t == mid.(panicked := mid.panicked || Lost(mid, c),
                      stuck := if Idles(mid, c) then mid.stuck + {c} else mid.stuck, cur := t.cur)
  }

  /** A paused client above the low water mark: it has nothing pending any more, and nobody resumes it. */
  predicate Idles(s: State, c: nat) {
    c < |s.conns| && !s.panicked && s.conns[c].paused && s.conns[c].ring.Live? && |s.conns[c].ring.data| > s.cfg.low
  }

  /** An unpaused client's pending frame goes out and that is all. */
  lemma SentUnpaused(s: State, mid: State, t: State, c: nat, u: nat)
    requires SentVia(s, mid, t, c, u) && c < |s.conns| && !s.conns[c].paused && t.cur == s.cur
    ensures t == mid && FrameSent(s, t, c) && (t.clean ==> Passed(s, t, c, u)) && t.closeSeen == s.closeSeen
            && !Resumes(mid, c)
  {}

  lemma SentClean(s: State, t: State, c: nat)
    requires FrameSent(s, t, c)
    ensures t.clean ==> s.clean
  {}

  lemma LeftInRing(s: State, mid: State, c: nat, u: nat)
    requires FrameSent(s, mid, c) && Passed(s, mid, c, u) && mid.clean && s.conns[c].paused
    ensures Idles(mid, c) || !Readable(mid, c) <==> TooMuch(LeftAfter(s, c), s.cfg)
  {
    hide FrameSent, Passed, HeadReady, LeftAfter;
    SentFacts(s, mid, c);
    SentFits(s, mid, c);
    PassedLeaves(s, mid, c, u);
  }

  lemma SentFits(s: State, mid: State, c: nat)
    requires FrameSent(s, mid, c)
    ensures c < |mid.conns| && (mid.conns[c].ring.Live? ==> |mid.conns[c].ring.data| < mid.cfg.cap)
  {}

  lemma PassedLeaves(s: State, mid: State, c: nat, u: nat)
    requires Passed(s, mid, c, u)
    ensures c < |mid.conns| && mid.conns[c].ring.Live? && |mid.conns[c].ring.data| == LeftAfter(s, c)
  {}

  /** The client is resumed: it may be read again. */
  lemma Resumed(s: State, mid: State, c: nat, u: nat)
    requires SendReady(s, c, u) && FrameSent(s, mid, c) && Resumes(mid, c)
    ensures var t := mid.(conns := mid.conns[c := mid.conns[c].(paused := false)]);
            Reading(t, c) && t.conns[c].role == Down && (Settled(t, c) <==> Settled(mid, c))
              && (Readable(t, c) <==> Readable(mid, c)) && IsLive(t, c)
  {
    FlagsGood(mid, c, false, mid.conns[c].hasPending);
    assert mid.conns[c].(paused := false, hasPending := mid.conns[c].hasPending) == mid.conns[c].(paused := false);
  }

  /** The client stays paused, and is stuck from now on. */
  lemma Idled(s: State, mid: State, c: nat, u: nat)
    requires SendReady(s, c, u) && FrameSent(s, mid, c) && Idles(mid, c)
    ensures Ended(mid.(stuck := mid.stuck + {c}, cur := -1))
  {
    StickGood(mid);
    TurnGood(mid.(stuck := mid.stuck + {c}), -1);
  }

  /** A panic on the way. */
  lemma SentPanics(s: State, mid: State, c: nat, u: nat)
    requires SendReady(s, c, u) && FrameSent(s, mid, c)
    ensures mid.panicked ==> Ended(mid)
    ensures Lost(mid, c) ==> Ended(mid.(panicked := true))
  {
    FlaggedGood(mid, true, mid.closeSeen);
  }

  /** An unpaused client whose frame was sent need not be served any longer. */
  lemma SentRests(s: State, t: State, c: nat, u: nat)
    requires SendReady(s, c, u) && FrameSent(s, t, c) && !s.conns[c].paused && !t.panicked
    requires Watched(s) && Open(s, c) ==> Short(s.conns[c], s.cfg)
    ensures Ended(t.(cur := -1))
  {
    SendFacts(s, c, u);
    if Watched(t) && Open(t, c) { SentShort(s, t, c); }
    hide Good;
    TurnGood(t, -1);
  }

  lemma SentShort(s: State, t: State, c: nat)
    requires FrameSent(s, t, c) && !t.panicked && (s.clean ==> s.conns[c].ring.Live?)
    requires s.clean && Short(s.conns[c], s.cfg)
    ensures t.conns[c].ring.Live? ==> Short(t.conns[c], t.cfg)
  {}

  lemma ResumedReads(s: State, t: State, u: State, c: nat, chunk: seq<byte>)
    requires c < |s.conns| && t == s.(conns := s.conns[c := s.conns[c].(paused := false)])
    requires ReadOn(t, u, c, chunk)
    ensures ReadOn(s, u, c, [])
  {
    assert s.hist[c].received + [] == s.hist[c].received;
  }

  lemma ReadOnShape(s: State, t: State, c: nat)
    requires exists chunk :: ReadOn(s, t, c, chunk)
    ensures c < |s.conns| <= |t.conns| && t.conns[c].fd == s.conns[c].fd && t.conns[c].role == s.conns[c].role
            && s.stuck <= t.stuck
  {}

  lemma WorkingSource(s: State, c: nat)
    requires Working(s, c)
    ensures SameSource(s, s, c)
  {}

  lemma FetchedNothing(s: State, t: State, c: nat)
    requires SameSource(s, t, c)
    ensures Fetched(s, t, c, [])
  {}

  lemma FetchedThenSame(s: State, t: State, u: State, c: nat, chunk: seq<byte>)
    requires c < |s.conns| == |s.hist| && s.conns[c].ring.Live? && t == Received(s, c, chunk) && SameSource(t, u, c)
    ensures Fetched(s, u, c, chunk)
  {}

  /** A settled connection without a pending frame has room, and is below the high water mark. */
  lemma SettledIsShort(s: State, c: nat)
    requires Good(s) && IsLive(s, c) && Settled(s, c) && Tuned(s.cfg) && !s.conns[c].hasPending
    ensures |s.conns[c].ring.data| < s.cfg.high && |s.conns[c].ring.data| < s.cfg.cap - 1
  {
    assert PendingConnOk(s.conns[c], s.cfg.maxPayload);
  }

  lemma StartReading(s: State, c: nat)
    requires Idle(s) && 0 < c < |s.conns| && !s.conns[c].paused
    ensures Reading(s.(cur := c), c)
    ensures Settled(s.(cur := c), c) <==> Settled(s, c)
    ensures Tuned(s.cfg) && s.conns[c].role != Down ==> Settled(s, c)
    ensures Watched(s) && s.conns[c].role == Down ==> Settled(s, c) || Readable(s.(cur := c), c)
  {
    StartFacts(s, c);
    TurnSame(s, c);
    hide Good, Settled, Readable, Watched;
    TurnGood(s, c);
  }

  lemma TurnSame(s: State, c: nat)
    requires c < |s.conns|
    ensures Settled(s.(cur := c), c) <==> Settled(s, c)
    ensures Readable(s.(cur := c), c) <==> Readable(s, c)
    ensures PendingKept(s, c) ==> PendingKept(s.(cur := c), c)
  {}

  lemma WatchedIsTuned(s: State)
    ensures Watched(s) ==> Tuned(s.cfg)
  {}

  lemma StartFacts(s: State, c: nat)
    requires Good(s) && s.cur == -1 && 0 < c < |s.conns| && !s.conns[c].paused
    ensures |s.conns| == |s.hist| && PendingKept(s, c) && (IsLive(s, c) <==> Open(s, c))
    ensures Tuned(s.cfg) && s.conns[c].role != Down ==> Settled(s, c)
    ensures Watched(s) && s.conns[c].role == Down ==> Settled(s, c) || Readable(s, c)
  {}

  lemma StopReading(s: State, c: nat)
    requires Reading(s, c) && Short(s.conns[c], s.cfg)
    requires c < |s.conns| && Tuned(s.cfg) && s.conns[c].role != Down ==> Settled(s, c)
    ensures Ended(s.(cur := -1))
    ensures Settled(s, c) <==> Settled(s.(cur := -1), c)
  {
    if IsLive(s, c) && s.conns[c].role != Down && Tuned(s.cfg) {
      assert PendingConnOk(s.conns[c], s.cfg.maxPayload);
    }
    TurnGood(s, -1);
  }

  /** c is paused and no longer read; a client with nothing pending is stuck then. */
  function PausedAt(s: State, c: nat): State
    requires c < |s.conns|
  {
    s.(conns := s.conns[c := s.conns[c].(paused := true)], cur := -1,
       stuck := if s.conns[c].role == Down && !s.conns[c].hasPending then s.stuck + {c} else s.stuck)
  }

  /** Pausing c: never an upstream when the marks fit, and never without a pending frame if c was settled. */
  lemma PausedFetched(s: State, c: nat)
    requires Reading(s, c)
    ensures Fetched(s, PausedAt(s, c), c, [])
  {
    hide Good;
  }

  lemma PauseReading(s: State, c: nat, calm: bool)
    requires Reading(s, c) && IsLive(s, c) && !Readable(s, c)
    requires calm ==> Settled(s, c)
    requires Tuned(s.cfg) && s.conns[c].role != Down ==> calm
    ensures Ended(PausedAt(s, c)) && (calm ==> AtRest(PausedAt(s, c), c))
  {
    if calm && Tuned(s.cfg) && !s.conns[c].hasPending { SettledIsShort(s, c); }
    PauseFlag(s, c);
    PauseEnds(s, s.(conns := s.conns[c := s.conns[c].(paused := true)]), c);
  }

  lemma PauseEnds(s: State, z: State, c: nat)
    requires Good(z) && c < |s.conns| && z == s.(conns := s.conns[c := s.conns[c].(paused := true)])
    requires s.cur == c && !s.panicked && (s.clean ==> !s.closeSeen) && PendingKept(s, c)
    requires Tuned(s.cfg) && IsLive(s, c) && s.conns[c].role != Down ==> Drained(s.conns[c], s.cfg.maxPayload)
    ensures Ended(PausedAt(s, c))
  {
    hide Good, Tuned;
    if s.conns[c].role == Down && !s.conns[c].hasPending {
      StickGood(z);
      TurnGood(z.(stuck := z.stuck + {c}), -1);
    } else {
      TurnGood(z, -1);
    }
  }

  lemma PauseFlag(s: State, c: nat)
    requires Reading(s, c) && IsLive(s, c)
    requires Tuned(s.cfg) ==> s.conns[c].role == Down || s.conns[c].hasPending
    ensures s.conns[c].hasPending ==> s.conns[c].role == Down
    ensures Good(s.(conns := s.conns[c := s.conns[c].(paused := true)]))
  {
    assert PendingConnOk(s.conns[c], s.cfg.maxPayload);
    FlagsGood(s, c, true, s.conns[c].hasPending);
    assert s.conns[c].(paused := true, hasPending := s.conns[c].hasPending) == s.conns[c].(paused := true);
  }

  lemma ReceiveChunk(s: State, c: nat, chunk: seq<byte>)
    requires Reading(s, c) && IsLive(s, c) && |s.conns[c].ring.data| + |chunk| < s.cfg.cap
    ensures Reading(Received(s, c, chunk), c) && IsLive(Received(s, c, chunk), c)
  {
    ReceivedGood(s, c, chunk);
  }

  lemma CloseReading(s: State, t: State, c: nat)
    requires Reading(s, c) && Closes(s, t, c)
    ensures c < |t.conns| && Ended(t.(cur := -1)) && !t.conns[c].paused && AtRest(t.(cur := -1), c) && !Open(t, c)
            && !IsLive(t, c)
    ensures SameSource(s, t.(cur := -1), c)
  {
    assert !IsLive(t, c);
    TurnGood(t, -1);
  }

  /** The loop over Next: c may have been closed by the last dispatch. */
  ghost predicate Working(s: State, c: nat) {
    && Good(s) && 0 < c < |s.conns| == |s.hist| && s.cur == c && !s.panicked && !s.conns[c].paused
    && (s.clean ==> (s.closeSeen <==> s.conns[c].ring == Nil))
    && (s.clean && s.closeSeen ==> !s.conns[c].hasPending) && PendingKept(s, c)
  }

  lemma WorkingLive(s: State, c: nat)
    requires Reading(s, c) && IsLive(s, c)
    ensures Working(s, c)
  {}

  lemma WorkingNil(s: State, c: nat)
    requires Working(s, c) && s.conns[c].ring == Nil && !s.conns[c].hasPending
    ensures Ended(s.(panicked := true)) && SameSource(s, s.(panicked := true), c)
  {
    FlaggedGood(s, true, s.closeSeen);
  }

  lemma WorkingNext(s: State, c: nat)
    requires Working(s, c) && s.conns[c].ring.Live? && !s.conns[c].hasPending
    ensures var t := Parsed1(s, c);
            var a := NextOn(s.conns[c].parser, s.conns[c].ring.data, Limit(s.cfg.maxPayload)).answer;
            && Reading(t, c) && IsLive(t, c) && |t.conns| == |s.conns| && (t.clean ==> Open(t, c))
            && SameSource(s, t, c)
            && (a == Complete ==> Serving(t, c) && Load(t.conns[c]) <= Load(s.conns[c]))
            && (a == More ==> Settled(t, c))
  {
    WorkingReads(s, c);
    ParsedSource(s, c);
    hide SameSource;
    ParsedReads(s, c);
    ParsedSteps(s, c);
    hide Reading;
    ParsedServes(s, Parsed1(s, c), c);
  }

  lemma ParsedSource(s: State, c: nat)
    requires c < |s.conns| == |s.hist| && s.conns[c].ring.Live?
    ensures SameSource(s, Parsed1(s, c), c)
  {}

  lemma WorkingReads(s: State, c: nat)
    requires Working(s, c) && s.conns[c].ring.Live?
    ensures Reading(s, c) && IsLive(s, c) && Open(s, c)
  {
    assert IsLive(s, c);
  }

  lemma ParsedReads(s: State, c: nat)
    requires Reading(s, c) && IsLive(s, c) && !s.conns[c].hasPending
    ensures Reading(Parsed1(s, c), c)
  {
    assert Good(Parsed1(s, c)) by {
      hide Good;
      ParsedGood(s, c);
    }
  }

  /** What one Next does to a ring. */
  lemma ParsedSteps(s: State, c: nat)
    requires IsLive(s, c) && !s.conns[c].hasPending
    ensures var t := Parsed1(s, c);
            var a := NextOn(s.conns[c].parser, s.conns[c].ring.data, Limit(s.cfg.maxPayload)).answer;
            && |t.conns| == |s.conns| && IsLive(t, c) && !t.conns[c].hasPending && t.conns[c].role == s.conns[c].role
            && t.tab == s.tab && t.conns[c].fd == s.conns[c].fd
            && (a == Complete ==>
                  && t.conns[c].parser.haveHdr && |t.conns[c].ring.data| >= t.conns[c].parser.hdr.payloadLen
                  && Load(t.conns[c]) <= Load(s.conns[c]))
            && (a == More ==> Drained(t.conns[c], t.cfg.maxPayload))
  {}

  lemma ParsedServes(s: State, t: State, c: nat)
    requires Open(s, c) && |t.conns| == |s.conns| && t.tab == s.tab && IsLive(t, c) && t.conns[c].fd == s.conns[c].fd
    requires Reading(t, c) && !t.conns[c].hasPending
    ensures Open(t, c)
    ensures t.conns[c].parser.haveHdr && |t.conns[c].ring.data| >= t.conns[c].parser.hdr.payloadLen ==> Serving(t, c)
    ensures Drained(t.conns[c], t.cfg.maxPayload) ==> Settled(t, c)
  {}

  lemma WorkingDispatched(s: State, p: State, t: State, c: nat)
    requires Working(s, c) && s.conns[c].ring.Live? && c < |p.conns| && Load(p.conns[c]) <= Load(s.conns[c])
    requires p.cur == c && Dispatched(p, t, c) && 0 < c
    ensures t.panicked ==> Ended(t)
    ensures !t.panicked ==> Working(t, c) && (t.conns[c].hasPending || Load(t.conns[c]) < Load(s.conns[c]))
  {
    FitsIsKept(t, c);
  }

  lemma WorkingPending(s: State, c: nat)
    requires Working(s, c) && s.conns[c].hasPending
    ensures Reading(s, c) && Settled(s, c)
  {}

  lemma RejectFacts(s: State, t: State, u: State, c: nat)
    requires Reading(s, c) && IsLive(s, c) && Closes(t, u, c)
    requires t == s || Replies(s, t, c)
    ensures c < |u.conns| && SameSource(s, u, c) && !Open(u, c) && !IsLive(u, c) && (u.clean ==> t.clean)
    ensures Ended(u.(cur := -1)) && AtRest(u.(cur := -1), c)
  {
    hide Good;
    ShrinksFlags(t, u, With(c, t.conns[c].peer), c);
    if t != s { ShrinksFlags(s, t, With(c, s.conns[c].peer), c); }
    ClosedTurn(u, c);
  }

  /** The ERROR is the last thing the client was told. */
  lemma RejectTold(s: State, t: State, u: State, c: nat, f: Frame)
    requires Good(t) && Told(s, t, c, f) && Parted(t, u, c) && u.clean && t.clean && c < |t.conns|
             && t.conns[c].role == Down
    ensures LastOn(u, c, f, Own)
  {}

  lemma ShrinksFlags(s: State, t: State, xs: set<nat>, c: nat)
    requires Shrinks(s, t, xs) && c < |s.conns|
    ensures t.cur == s.cur && t.closeSeen == s.closeSeen && t.panicked == s.panicked && (t.clean ==> s.clean)
    ensures |t.conns| == |s.conns| && t.conns[c].paused == s.conns[c].paused && SameSource(s, t, c)
  {}

  lemma ClosedTurn(u: State, c: nat)
    requires Good(u) && 0 < c < |u.conns| && !Open(u, c) && u.cur == c && !u.panicked && (u.clean ==> !u.closeSeen)
    ensures Ended(u.(cur := -1)) && Settled(u.(cur := -1), c) && !IsLive(u, c)
  {
    assert !IsLive(u, c);
    TurnGood(u, -1);
  }

  lemma ReadingFacts(s: State, c: nat)
    requires Reading(s, c)
    ensures Good(s) && 0 < c < |s.conns| == |s.hist| && s.cur == c && !s.panicked && !s.conns[c].paused
    ensures s.clean ==> !s.closeSeen
    ensures s.conns[c].ring.Live? ==> |s.conns[c].ring.data| < s.cfg.cap && IsLive(s, c)
  {
    if s.conns[c].ring.Live? { assert IsLive(s, c); }
  }

  lemma RepliesFacts(s: State, t: State, c: nat)
    requires Replies(s, t, c)
    ensures Good(t) && c < |s.conns| == |t.conns| && t.conns[c].role == s.conns[c].role
  {}

  lemma DispatchedFacts(s: State, t: State, c: nat)
    requires Dispatched(s, t, c)
    ensures c < |s.conns| <= |t.conns| && SameSource(s, t, c) && (t.clean ==> s.clean)
  {}

  // ---- Events ----

  lemma EndedIsIdle(s: State)
    requires Ended(s) && !s.panicked
    ensures Idle(s)
  {}

  lemma IdleFacts(s: State)
    requires Idle(s)
    ensures Good(s) && !s.panicked && s.cur == -1 && |s.conns| == |s.hist| > 0 && Ended(s)
  {}

  /** An open connection but the listener, by its descriptor. */
  lemma TableFacts(s: State, fd: int)
    requires Good(s) && fd in s.tab
    ensures s.tab[fd] < |s.conns| && s.conns[s.tab[fd]].fd == fd && Open(s, s.tab[fd])
    ensures s.conns[s.tab[fd]].role != Listen ==> 0 < s.tab[fd]
    ensures s.conns[s.tab[fd]].role == Listen ==> s.tab[fd] == 0
  {}

  lemma ListenerListed(s: State)
    requires Good(s)
    ensures s.cfg.listenFd in s.tab && s.tab[s.cfg.listenFd] == 0 && s.conns[0].role == Listen
  {}

  lemma NotListener(s: State, c: nat)
    requires Idle(s) && c < |s.conns| && s.conns[c].role != Listen
    ensures 0 < c
  {}

  lemma ListenerFacts(s: State, c: nat)
    requires Good(s) && c < |s.conns|
    ensures s.conns[c].role == Listen <==> c == 0
  {}

  lemma ClosesGood(s: State, t: State, c: nat)
    requires Closes(s, t, c)
    ensures Good(t) && |t.conns| == |s.conns|
  {}

  /** Every entry of the table names the connection that has its descriptor. */
  lemma TableNames(s: State)
    requires Good(s)
    ensures forall fd :: fd in s.tab ==> s.tab[fd] < |s.conns| && s.conns[s.tab[fd]].fd == fd
  {}

  lemma IdleShrinks(s: State, t: State, xs: set<nat>)
    requires Idle(s) && Shrinks(s, t, xs) && Good(t)
    ensures Idle(t)
  {}

  lemma IdleCloses(s: State, t: State, c: nat)
    requires Idle(s) && Closes(s, t, c)
    ensures Idle(t) && s.stuck <= t.stuck
  {
    IdleShrinks(s, t, With(c, s.conns[c].peer));
  }

  lemma IdleFlushes(s: State, t: State, c: nat, bytes: seq<byte>)
    requires Idle(s) && Flushes(s, t, c, bytes) && Good(t)
    ensures Idle(t) && c < |t.conns| && s.stuck <= t.stuck
  {
    IdleShrinks(s, t, With(c, s.conns[c].peer));
  }

  lemma AdoptedIsEntered(s: State, fd: int, role: Role, ep: Option<nat>, origin: Option<nat>)
    ensures Adopted(s, fd, role, ep, origin)
            == Entered(s.(slab := s.slab.AfterGet()),
                       Conn(fd, role, Live(s.slab.Next(), []), FRESH, ep, None, ZERO_HEADER, false, [], false), origin)
  {}

  lemma IdleAdopted(s: State, fd: int)
    requires Idle(s) && fd !in s.tab
    ensures var t := Adopted(s, fd, Down, None, None);
            && Idle(t) && 0 < |s.conns| < |t.conns| && !t.conns[|s.conns|].paused
            && t.conns[|s.conns|].fd == fd && t.conns[|s.conns|].role == Down && t.stuck == s.stuck
  {
    AdoptedGood(s, fd, Down, None, None);
  }

  lemma IdleBounced(s: State)
    requires Idle(s)
    ensures Idle(s.(slab := s.slab.AfterGet().AfterPut(s.slab.Next())))
  {
    BouncedGood(s);
  }

  /** Nothing has gone wrong, and p is being served. */
  ghost predicate Attending(s: State, p: nat) {
    && Good(s) && 0 < p < |s.conns| == |s.hist| && s.cur == p && !s.panicked && (s.clean ==> !s.closeSeen)
  }

  lemma AttendingFacts(s: State, p: nat)
    requires Attending(s, p)
    ensures Good(s) && 0 < p < |s.conns| == |s.hist| && s.cur == p
  {}

  /** p is among the stuck only if it is paused, and if it is not paused it may be read. */
  ghost predicate Turned(s: State, p: nat) {
    Watched(s) && Open(s, p) ==>
      (p in s.stuck ==> s.conns[p].paused) && (!s.conns[p].paused ==> Short(s.conns[p], s.cfg))
  }

  /** A client that its connecting upstream has left. */
  ghost predicate Orphan(s: State, p: nat) {
    && Attending(s, p) && s.conns[p].role == Down && s.conns[p].peer == None && Turned(s, p)
    && (s.clean ==> Open(s, p))
  }

  /** The peer of a connecting upstream is a client. */
  lemma ConnectingPeer(s: State, c: nat)
    requires Good(s) && Open(s, c) && s.conns[c].role == Connecting
    ensures s.conns[c].ep.Some?
    ensures s.conns[c].peer.Some? ==>
              var p := s.conns[c].peer.value;
              0 < p < |s.conns| && p != c && s.conns[p].role == Down && s.conns[p].peer == Some(c)
  {}

  /** The client of a connecting upstream is now served. */
  lemma AttendPeer(s: State, c: nat, p: nat)
    requires Idle(s) && Open(s, c) && s.conns[c].role == Connecting && s.conns[c].peer == Some(p)
    ensures var t := s.(cur := p);
            && Attending(t, p) && Open(t, c) && t.conns[p].peer == Some(c) && t.conns[p].role == Down && Turned(t, p)
            && (t.conns[p].hasPending && Watched(t) && Open(t, p) ==> p !in t.stuck)
  {
    ConnectingPeer(s, c);
    TurnGood(s, p);
  }

  lemma OrphanAfterClose(s: State, t: State, c: nat, p: nat)
    requires Attending(s, p) && Open(s, c) && s.conns[c].role == Connecting && s.conns[c].peer == Some(p)
    requires Turned(s, p) && s.conns[p].role == Down && Closes(s, t, c)
    ensures Orphan(t, p)
  {
    ConnectingPeer(s, c);
    assert ConnShrinks(s.conns[p], t.conns[p]);
    if t.conns[p].peer == Some(c) { assert false; }
    if t.clean { assert Open(s, p) && Open(t, p); }
    assert Turned(t, p) by { ShrinksTurned(s, t, With(c, s.conns[c].peer), p); }
  }

  lemma ShrinksTurned(s: State, t: State, xs: set<nat>, p: nat)
    requires Shrinks(s, t, xs) && Turned(s, p) && s.cur == p && p < |s.conns|
    ensures Turned(t, p)
  {
    ShrinksOpen(s, t, xs);
    assert ConnShrinks(s.conns[p], t.conns[p]);
  }

  /** A client that has lost its upstream and its frame, about to be left alone. */
  ghost predicate Finishing(s: State, p: nat) {
    Attending(s, p) && s.conns[p].role == Down && !s.conns[p].hasPending && Turned(s, p)
  }

  /** It is left alone; if it was paused it is stuck. */
  lemma FinishingEnds(s: State, p: nat)
    requires Finishing(s, p)
    ensures Ended(s.(stuck := if s.conns[p].paused then s.stuck + {p} else s.stuck, cur := -1))
  {
    if s.conns[p].paused {
      StickGood(s);
      TurnGood(s.(stuck := s.stuck + {p}), -1);
    } else {
      TurnGood(s, -1);
    }
  }

  lemma OrphanAfterReply(s: State, t: State, p: nat)
    requires Orphan(s, p) && Replies(s, t, p)
    ensures Orphan(t, p)
  {
    assert ConnShrinks(s.conns[p], t.conns[p]);
    ShrinksTurned(s, t, With(p, s.conns[p].peer), p);
  }

  function ConnectNotice(req: Header): Frame {
    ErrorFrame(req, CODE_UPSTREAM_FAIL, Text("upstream connect failed"))
  }

  /** The client was told that the connect failed, and its pending frame was dropped. */
  ghost predicate Bereft(s: State, t: State, p: nat) {
    && s.stuck <= t.stuck
    && (forall x :: Open(t, x) ==> Open(s, x))
    && (t.clean ==>
      && s.clean && p < |s.conns| <= |t.conns| && Put(s, t, p, ConnectNotice(s.conns[p].pending), Own)
      && !t.conns[p].hasPending
      && t.conns[p].peer == None && t.conns[p].paused == s.conns[p].paused
      && if s.conns[p].hasPending then Taken(s, t, p, None)
         else t.hist[p].consumed == s.hist[p].consumed && t.hist[p].dest == s.hist[p].dest)
  }

  lemma ShrinksOpen(s: State, t: State, xs: set<nat>)
    requires Shrinks(s, t, xs)
    ensures forall x :: Open(t, x) ==> Open(s, x)
  {
    forall x | Open(t, x) ensures Open(s, x) { assert ConnShrinks(s.conns[x], t.conns[x]); }
  }

  lemma BereftAfter(s: State, t: State, u: State, p: nat)
    requires Orphan(s, p) && Orphan(t, p) && Replies(s, t, p) && Told(s, t, p, ConnectNotice(s.conns[p].pending))
    requires t.conns[p].hasPending && t.conns[p].ring.Live? ==> HeadReady(t, p)
    requires u == (if t.conns[p].hasPending then Unpended(Dropped(t, p, None), p) else t)
    ensures Bereft(s, u, p)
  {
    hide Good, Orphan, Told, Replies, Dropped, Unpended, HeadReady;
    OrphanFacts(t, p);
    RepliesOpen(s, t, p);
    UnpendedMarks(t, u, p);
    UnpendedOpen(t, u, p);
    if u.clean { BereftClean(s, t, u, p); }
  }

  lemma UnpendedOpen(t: State, u: State, p: nat)
    requires p < |t.conns| == |t.hist| && (t.conns[p].hasPending && t.conns[p].ring.Live? ==> HeadReady(t, p))
    requires u == (if t.conns[p].hasPending then Unpended(Dropped(t, p, None), p) else t)
    ensures forall x :: Open(u, x) <==> Open(t, x)
  {
    if t.conns[p].hasPending {
      DroppedConns(t, p);
      SameOpen(t, u);
    }
  }

  lemma DroppedConns(t: State, p: nat)
    requires p < |t.conns| == |t.hist| && (t.conns[p].ring.Live? ==> HeadReady(t, p))
    ensures var u := Unpended(Dropped(t, p, None), p);
            u.tab == t.tab && |u.conns| == |t.conns| && forall x :: 0 <= x < |t.conns| ==>
              u.conns[x].fd == t.conns[x].fd
  {
    var z := Dropped(t, p, None);
    DroppedShape(t, p);
    SameFds(t.conns, p, z.conns[p]);
    SameFds(z.conns, p, z.conns[p].(hasPending := false));
  }

  lemma DroppedShape(t: State, p: nat)
    requires p < |t.conns| == |t.hist| && (t.conns[p].ring.Live? ==> HeadReady(t, p))
    ensures var z := Dropped(t, p, None);
            && z.tab == t.tab && |z.conns| == |t.conns| && z.conns[p].fd == t.conns[p].fd
            && z.conns == t.conns[p := z.conns[p]]
  {
    if t.conns[p].ring.Live? {
    } else if t.conns[p].parser.hdr.payloadLen > 0 {
    } else {
    }
  }

  lemma SameFds(conns: seq<Conn>, p: nat, k: Conn)
    requires p < |conns| && k.fd == conns[p].fd
    ensures forall x :: 0 <= x < |conns| ==> conns[p := k][x].fd == conns[x].fd
  {}

  lemma SameOpen(t: State, u: State)
    requires u.tab == t.tab && |u.conns| == |t.conns| && forall x :: 0 <= x < |t.conns| ==>
             u.conns[x].fd == t.conns[x].fd
    ensures forall x :: Open(u, x) <==> Open(t, x)
  {}

  lemma BereftClean(s: State, t: State, u: State, p: nat)
    requires Orphan(s, p) && Orphan(t, p) && Replies(s, t, p) && Told(s, t, p, ConnectNotice(s.conns[p].pending))
    requires u == (if t.conns[p].hasPending then Unpended(Dropped(t, p, None), p) else t) && u.clean
    requires t.conns[p].hasPending && t.conns[p].ring.Live? ==> HeadReady(t, p)
    ensures s.clean && |u.conns| == |s.conns| && p < |u.conns| && Put(s, u, p, ConnectNotice(s.conns[p].pending), Own)
    ensures !u.conns[p].hasPending && u.conns[p].peer == None && u.conns[p].paused == s.conns[p].paused
    ensures if s.conns[p].hasPending then Taken(s, u, p, None)
            else u.hist[p].consumed == s.hist[p].consumed && u.hist[p].dest == s.hist[p].dest
  {
    hide Good, Attending, Turned, Orphan, Replies, Dropped, Unpended, Told, HeadReady;
    OrphanFacts(s, p);
    OrphanFacts(t, p);
    UnpendedMarks(t, u, p);
    TellsOnly(s, t, p);
    if t.conns[p].ring == Nil { NilIsSpoiled(t, p); }
    if t.conns[p].hasPending {
      UnpendedIsConsumed(t, p, None);
      BereftConsumed(s, t, p, ConnectNotice(s.conns[p].pending));
    } else {
      BereftPlain(s, t, p, ConnectNotice(s.conns[p].pending));
    }
  }

  lemma UnpendedMarks(t: State, u: State, p: nat)
    requires p < |t.conns| == |t.hist| && (t.conns[p].hasPending && t.conns[p].ring.Live? ==> HeadReady(t, p))
    requires u == (if t.conns[p].hasPending then Unpended(Dropped(t, p, None), p) else t)
    ensures u.stuck == t.stuck && u.clean == t.clean
  {
    if t.conns[p].hasPending { DroppedSeen(t, p, None); }
    hide Dropped;
  }

  lemma BereftPlain(s: State, t: State, p: nat, f: Frame)
    requires Told(s, t, p, f) && t.clean && p < |s.hist| == |t.hist|
    ensures Put(s, t, p, f, Own) && t.hist[p].consumed == s.hist[p].consumed && t.hist[p].dest == s.hist[p].dest
  {}

  lemma BereftConsumed(s: State, t: State, p: nat, f: Frame)
    requires Told(s, t, p, f) && t.clean && HeadReady(t, p) && |s.conns| == |s.hist| == |t.conns|
    requires t.conns[p] == s.conns[p].(writeRemain := t.conns[p].writeRemain)
    ensures var u := Consumed(t, p, None);
            && Put(s, u, p, f, Own) && Taken(s, u, p, None) && u.clean
            && |u.conns| == |t.conns| && !u.conns[p].hasPending && u.conns[p].peer == t.conns[p].peer
            && u.conns[p].paused == s.conns[p].paused
  {}

  lemma TellsOnly(s: State, t: State, p: nat)
    requires Replies(s, t, p) && t.clean
    ensures s.clean && |t.conns| == |s.conns| == |s.hist| == |t.hist| && p < |s.conns|
    ensures t.conns[p] == s.conns[p].(writeRemain := t.conns[p].writeRemain)
  {}

  lemma BereftPanic(s: State, t: State, u: State, p: nat)
    requires Orphan(t, p) && (t.conns[p].ring.Live? ==> HeadReady(t, p)) && u == Dropped(t, p, None) && u.panicked
    requires Replies(s, t, p)
    ensures Bereft(s, u, p)
  {
    hide Good, Replies, Orphan, Attending, HeadReady, Dropped;
    OrphanFacts(t, p);
    OnlyNilPanics(t, p);
    NilIsSpoiled(t, p);
    RepliesOpen(s, t, p);
    assert forall x :: Open(u, x) <==> Open(t, x);
  }

  lemma OnlyNilPanics(t: State, p: nat)
    requires p < |t.conns| == |t.hist| && !t.panicked && (t.conns[p].ring.Live? ==> HeadReady(t, p))
             && Dropped(t, p, None).panicked
    ensures t.conns[p].ring == Nil && Dropped(t, p, None) == t.(panicked := true)
  {}

  lemma RepliesOpen(s: State, t: State, p: nat)
    requires Replies(s, t, p)
    ensures s.stuck <= t.stuck && forall x :: Open(t, x) ==> Open(s, x)
  {
    ShrinksOpen(s, t, With(p, s.conns[p].peer));
  }

  /**
   * A failed connect closes the connection; its client gets two ERROR frames and loses its pending frame.
   * It stays paused if it was, and then it is stuck.
   */
  ghost predicate ConnectFailed(s: State, t: State, c: nat) {
    && !Open(t, c) && s.stuck <= t.stuck
    && (t.clean && c < |s.conns| && s.conns[c].peer.Some? ==>
          var p := s.conns[c].peer.value;
          && p < |s.conns| <= |t.conns| && p < |s.hist| && p < |t.hist|
          && t.hist[p].out == s.hist[p].out + [Sent(ClosedNotice(s.conns[p].pending), Own),
             Sent(ConnectNotice(s.conns[p].pending), Own)]
          && !t.conns[p].hasPending && t.conns[p].peer == None
          && t.conns[p].paused == s.conns[p].paused && (t.conns[p].paused && !t.panicked ==> p in t.stuck)
          && (s.conns[p].hasPending ==> Taken(s, t, p, None)))
  }

  /** An established connect: its client's pending frame is sent as sendPending does. */
  ghost predicate ConnectDone(s: State, t: State, c: nat) {
    c < |s.conns| && s.conns[c].ep.Some? ==>
      var peer := s.conns[c].peer;
      if peer.Some? && peer.value < |s.conns| && s.conns[peer.value].hasPending
      then exists mid, end ::
             SentVia(Established(s.(cur := peer.value), c), mid, end, peer.value, c) && t == end.(cur := t.cur)
      else t == Established(s, c)
  }

  /** s0 is the state before the client was served, z the one after. */
  lemma BereftOf(s0: State, s: State, t: State, u: State, z: State, c: nat, p: nat)
    requires s == s0.(cur := p) && Attending(s, p) && Open(s, c) && s.conns[c].role == Connecting
             && s.conns[c].peer == Some(p)
    requires Closes(s, t, c) && Parted(s, t, c) && Bereft(t, u, p)
    requires z == u.(stuck := z.stuck, cur := z.cur) && u.stuck <= z.stuck
             && (u.clean && !u.panicked && p < |u.conns| && u.conns[p].paused ==> p in z.stuck)
    ensures ConnectFailed(s0, z, c)
  {
    ConnectingPeer(s, c);
    assert !Open(u, c);
    if u.clean { BereftTwice(s, t, u, c, p); }
  }

  lemma BereftTwice(s: State, t: State, u: State, c: nat, p: nat)
    requires p < |s.conns| == |s.hist| && Told(s, t, p, ClosedNotice(s.conns[p].pending)) && Bereft(t, u, p) && t.clean
             && u.clean
    requires |t.conns| == |s.conns| && ConnShrinks(s.conns[p], t.conns[p])
    ensures p < |s.conns| <= |u.conns| && p < |u.hist| && !u.conns[p].hasPending && u.conns[p].peer == None
    ensures u.conns[p].paused == s.conns[p].paused
    ensures u.hist[p].out == s.hist[p].out + [Sent(ClosedNotice(s.conns[p].pending), Own),
            Sent(ConnectNotice(s.conns[p].pending), Own)]
    ensures s.conns[p].hasPending ==> Taken(s, u, p, None)
  {}

  lemma DoneAlone(s: State, c: nat)
    requires c < |s.conns| && s.conns[c].ep.Some?
    requires s.conns[c].peer.Some? && s.conns[c].peer.value < |s.conns| ==> !s.conns[s.conns[c].peer.value].hasPending
    ensures ConnectDone(s, Established(s, c), c) && Established(s, c).stuck == s.stuck
  {}

  lemma DoneServed(s: State, mid: State, end: State, t: State, c: nat, p: nat)
    requires c < |s.conns| && s.conns[c].ep.Some? && s.conns[c].peer == Some(p) && p < |s.conns|
             && s.conns[p].hasPending
    requires SentVia(Established(s.(cur := p), c), mid, end, p, c) && t == end.(cur := t.cur)
    ensures ConnectDone(s, t, c) && s.stuck <= t.stuck
  {
    assert s.stuck <= mid.stuck <= end.stuck;
  }

  lemma ClosedFacts(s: State, t: State, c: nat)
    requires Closes(s, t, c)
    ensures !Open(t, c)
  {}

  lemma OrphanFacts(s: State, p: nat)
    requires Orphan(s, p)
    ensures Good(s) && 0 < p < |s.conns| == |s.hist| && s.conns[p].role == Down && (s.clean ==> Open(s, p))
    ensures !s.conns[p].hasPending ==> Finishing(s, p)
    ensures s.conns[p].peer == None && !s.panicked
    ensures s.conns[p].hasPending && s.conns[p].ring.Live? ==>
            HeadReady(s, p) && s.conns[p].parser.hdr.opcode == OP_DATA
  {
    assert PendingConnOk(s.conns[p], s.cfg.maxPayload);
  }

  /** The frame that was pending is dropped. */
  lemma OrphanDrops(s: State, p: nat)
    requires Orphan(s, p) && s.conns[p].hasPending
    ensures s.conns[p].ring.Live? ==> HeadReady(s, p)
    ensures var t := Dropped(s, p, None);
            && |t.conns| == |s.conns|
            && (t.panicked ==> Ended(t) && t.conns[p].peer == None)
            && (!t.panicked ==> Finishing(Unpended(t, p), p) && Unpended(t, p).conns[p].peer == None)
  {
    OrphanFacts(s, p);
    if s.conns[p].ring.Live? { OrphanDropsLive(s, p); } else { OrphanDropsNil(s, p); }
  }

  lemma OrphanDropsLive(s: State, p: nat)
    requires Orphan(s, p) && HeadReady(s, p) && s.conns[p].parser.hdr.opcode == OP_DATA
    ensures !Dropped(s, p, None).panicked && Finishing(Unpended(Dropped(s, p, None), p), p)
  {
    hide Good;
    UnpendedIsConsumed(s, p, None);
    DropGood(s, p);
    ConsumedTurned(s, p);
  }

  lemma ConsumedTurned(s: State, p: nat)
    requires HeadReady(s, p) && Turned(s, p)
    ensures Turned(Consumed(s, p, None), p)
  {}

  lemma OrphanDropsNil(s: State, p: nat)
    requires Orphan(s, p) && s.conns[p].ring == Nil
    ensures var t := Dropped(s, p, None);
            && |t.conns| == |s.conns|
            && (t.panicked ==> Ended(t))
            && (!t.panicked ==> Finishing(Unpended(t, p), p))
  {
    NilIsSpoiled(s, p);
    NilDropGood(s, p, None);
    var t := Dropped(s, p, None);
    OrphanNil(s, p);
    hide Good, Dropped;
    if !t.panicked {
      FlagsGood(t, p, t.conns[p].paused, false);
      assert t.conns[p].(paused := t.conns[p].paused, hasPending := false) == t.conns[p].(hasPending := false);
    }
  }

  lemma OrphanNil(s: State, p: nat)
    requires Orphan(s, p) && s.conns[p].ring == Nil
    ensures var t := Dropped(s, p, None);
            && t == s.(panicked := t.panicked, conns := t.conns)
            && t.conns == s.conns[p := s.conns[p].(parser := t.conns[p].parser)]
  {
    if s.conns[p].parser.hdr.payloadLen > 0 {
      assert s.conns == s.conns[p := s.conns[p]];
    }
  }

  /** Only after a write failed for good can an orphan be closed. */
  lemma NilIsSpoiled(s: State, p: nat)
    requires Orphan(s, p) && s.conns[p].ring == Nil
    ensures !s.clean
  {
    assert IsLive(s, p) <==> Open(s, p);
  }

  /** An upstream whose client has nothing pending is established, and that is all. */
  lemma EstablishedAlone(s: State, c: nat)
    requires Idle(s) && Open(s, c) && s.conns[c].role == Connecting && s.conns[c].ep.Some?
    requires s.conns[c].peer.Some? && s.conns[c].peer.value < |s.conns| ==> !s.conns[s.conns[c].peer.value].hasPending
    ensures Idle(Established(s, c))
  {
    EstablishedGood(s, c);
  }

  /** An established upstream may be sent its client's pending frame. */
  lemma EstablishedServed(s: State, c: nat, p: nat)
    requires Attending(s, p) && Open(s, c) && s.conns[c].role == Connecting && s.conns[c].ep.Some?
    requires s.conns[c].peer == Some(p) && s.conns[p].peer == Some(c) && s.conns[p].role == Down
             && s.conns[p].hasPending
    requires Turned(s, p) && (Watched(s) && Open(s, p) ==> p !in s.stuck)
    ensures var t := Established(s, c);
            && SendReady(t, p, c) && p < |t.conns| && t.conns[p] == s.conns[p]
            && (!t.conns[p].paused && Watched(t) && Open(t, p) ==> Short(t.conns[p], t.cfg))
  {
    EstablishedGood(s, c);
    EstablishedShape(s, c);
  }

  /** With the listener alone in the table nothing is held and nobody is counted. */
  lemma NothingLeft(s: State)
    requires Good(s) && forall c :: 0 < c < |s.conns| ==> !Open(s, c)
    ensures s.tab == map[s.cfg.listenFd := 0]
    ensures s.slab.InUse() == 0 && forall e: nat :: ActiveOf(s.active, e) == 0
  {
    forall fd | fd in s.tab ensures fd == s.cfg.listenFd && s.tab[fd] == 0 {
      assert Open(s, s.tab[fd]);
    }
    assert s.tab == map[s.cfg.listenFd := 0];
    forall e: nat ensures ActiveOf(s.active, e) == 0 { assert Ups(s, e) == {}; }
  }

  lemma ClosesOthers(s: State, t: State, c: nat)
    requires Closes(s, t, c)
    ensures !Open(t, c) && |t.conns| == |s.conns| && s.stuck <= t.stuck && forall x :: Open(t, x) ==> Open(s, x)
    ensures forall x :: 0 <= x < |s.conns| ==> t.conns[x].role == s.conns[x].role
  {
    forall x | Open(t, x) ensures Open(s, x) { assert ConnShrinks(s.conns[x], t.conns[x]); }
  }

  function Fresh(cfg: Config, slab: SlabState): State {
    State(cfg, map[cfg.listenFd := 0],
          [Conn(cfg.listenFd, Listen, Nil, FRESH, None, None, ZERO_HEADER, false, [], false)],
          slab, map[], map[cfg.listenFd := Interest(true, false)], 0, [NO_HIST], true, false, false, -1, false, false,
            {})
  }

  /** Everything holds at the start. */
  lemma FreshIsIdle(cfg: Config, slab: SlabState)
    requires cfg.cap >= 2 && slab.Valid() && slab.InUse() == 0
    ensures Idle(Fresh(cfg, slab))
  {
    var s := Fresh(cfg, slab);
    assert forall x :: Open(s, x) <==> x == 0;
    assert forall x :: !IsLive(s, x);
    forall e: nat ensures Ups(s, e) == {} {}
    assert TableOk(s) && RingsOk(s) && ActiveOk(s) && PeersOk(s) && PendingOk(s) && QuietOk(s);
    assert s.outBytes == TotalAccepted(s.hist);
    FreshMarks(cfg, slab);
    FreshStreams(cfg, slab);
    hide TableOk, RingsOk, ActiveOk, PeersOk, PendingOk, QuietOk, Wakeful, PauseOk, Streams, TotalAccepted;
  }

  lemma FreshMarks(cfg: Config, slab: SlabState)
    ensures Wakeful(Fresh(cfg, slab)) && PauseOk(Fresh(cfg, slab))
  {
    var s := Fresh(cfg, slab);
    assert forall x :: Open(s, x) <==> x == 0;
    assert s.conns[0].role == Listen && s.stuck == {};
    hide Tuned;
  }

  lemma FreshStreams(cfg: Config, slab: SlabState)
    ensures Streams(Fresh(cfg, slab))
  {
    var s := Fresh(cfg, slab);
    assert BooksOk(s.conns[0], s.hist[0], 1, cfg.maxPayload);
    assert ExchangeOk(s.hist) && RoutesOk(s);
  }
}
