// What the reactor keeps, what every step of it preserves, and the values its steps produce
// (internal/reactor/conn.go, fdtable.go, reactor.go).
module ReactorState {
  import opened Bits
  import opened Protocol
  import opened Parsing
  import opened Buffer

  datatype Option<T> = None | Some(value: T)

  datatype Role = Listen | Down | Up | Connecting

  /** A connection's ring: nil, or a chunk of the slab holding a byte queue. */
  datatype RingView = Nil | Live(slot: nat, data: seq<byte>)

  /** A connection. Peer is a pointer: the index of another connection ever made. */
  datatype Conn = Conn(
    fd: int, role: Role, ring: RingView, parser: ParserState, ep: Option<nat>, peer: Option<nat>,
    pending: Header, hasPending: bool, writeRemain: seq<byte>, paused: bool)

  /** What the poller is asked to report for a descriptor. */
  datatype Interest = Interest(read: bool, write: bool)

  /** Why a frame was put on a connection: made by the reactor, the answer to a PING, or passed on. */
  datatype Source = Own | Pong | From(id: nat)

  datatype Sent = Sent(frame: Frame, source: Source)

  /**
   * The history of a connection: the bytes read from its socket, the bytes its socket accepted,
   * the frames put on it, the frames taken from it, where each of those went, and whose
   * upstream it was opened to be.
   */
  datatype Hist = Hist(
    received: seq<byte>, accepted: seq<byte>, out: seq<Sent>, consumed: seq<Frame>,
    dest: seq<Option<nat>>, origin: Option<nat>)

  const NO_HIST := Hist([], [], [], [], [], None)

  datatype Config = Config(cap: int, high: int, low: int, maxPayload: uint32, listenFd: int)

  /**
   * clean: no socket has refused a write for good; closeSeen: a client's CLOSE was acted on;
   * panicked: a nil ring was used; cur: the connection being served, or -1; robbed: writing
   * for a closed connection took write readiness from the one that has its descriptor now; choked: a
   * gathering write answered EAGAIN; stuck: the clients
   * left paused or with a pending frame although nothing is under way that would resume or send.
   */
  datatype State = State(
    cfg: Config, tab: map<int, nat>, conns: seq<Conn>, slab: SlabState, active: map<nat, int>,
    interest: map<int, Interest>, outBytes: nat, hist: seq<Hist>,
    clean: bool, closeSeen: bool, panicked: bool, cur: int, robbed: bool, choked: bool, stuck: set<nat>)

  ghost predicate Open(s: State, c: int) {
    0 <= c < |s.conns| && s.conns[c].fd in s.tab && s.tab[s.conns[c].fd] == c
  }

  ghost predicate IsLive(s: State, c: int) {
    0 <= c < |s.conns| && s.conns[c].ring.Live?
  }

  function ActiveOf(active: map<nat, int>, e: nat): int {
    if e in active then active[e] else 0
  }

  /** The open connections that are established upstreams of endpoint e. */
  ghost function Ups(s: State, e: nat): set<nat> {
    set c: nat | c < |s.conns| && Open(s, c) && s.conns[c].role == Up && s.conns[c].ep == Some(e)
  }

  // ---- What holds in every state of every run ----

  ghost predicate TableOk(s: State) {
    && |s.hist| == |s.conns| > 0 && s.cfg.cap >= 2
    && (forall fd :: fd in s.tab ==> s.tab[fd] < |s.conns| && s.conns[s.tab[fd]].fd == fd)
    && s.conns[0].role == Listen && s.conns[0].fd == s.cfg.listenFd && Open(s, 0) && s.conns[0].ring == Nil
    && s.conns[0].peer == None && s.conns[0].ep == None
    && (forall c :: 0 < c < |s.conns| ==> s.conns[c].role != Listen)
  }

  /** Exactly the open connections but the listener hold a ring, and no two share a slot. */
  ghost predicate RingsOk(s: State) {
    && s.slab.Valid()
    && (forall c :: 0 < c < |s.conns| ==> (s.conns[c].ring.Live? <==> Open(s, c)))
    && (forall c :: IsLive(s, c) ==> s.slab.Live(s.conns[c].ring.slot) && |s.conns[c].ring.data| < s.cfg.cap)
    && (forall c, d :: IsLive(s, c) && IsLive(s, d) && c != d ==> s.conns[c].ring.slot != s.conns[d].ring.slot)
    && s.slab.InUse() == |s.tab| - 1
  }

  /** Each endpoint's counter is the number of its established open connections. */
  ghost predicate ActiveOk(s: State) {
    && (forall e: nat :: ActiveOf(s.active, e) == |Ups(s, e)|)
    && (forall c :: 0 <= c < |s.conns| ==>
       (s.conns[c].ep.Some? <==> s.conns[c].role == Up || s.conns[c].role == Connecting))
  }

  /** Peers are mutual, join a client with an upstream, and the upstream is open. */
  ghost predicate PeersOk(s: State) {
    forall c :: 0 <= c < |s.conns| && s.conns[c].peer.Some? ==>
      var p := s.conns[c].peer.value;
      && p < |s.conns| && p != c && s.conns[p].peer == Some(c)
      && (s.conns[c].role == Down <==> s.conns[p].role != Down)
      && (s.conns[c].role != Down ==> Open(s, c))
  }

  /** A held header is valid; a pending frame is the held one, is DATA, and is whole in the ring. */
  ghost predicate PendingConnOk(c: Conn, maxPayload: uint32) {
    && (c.parser.haveHdr ==> Validate(c.parser.hdr, Limit(maxPayload)) == Ok)
    && (c.hasPending ==> c.role == Down)
    && (c.hasPending && c.ring.Live? ==>
          && c.parser.haveHdr && c.parser.hdr == c.pending && c.pending.opcode == OP_DATA
          && |c.ring.data| >= c.pending.payloadLen)
  }

  ghost predicate PendingOk(s: State) {
    forall c :: 0 <= c < |s.conns| ==> PendingConnOk(s.conns[c], s.cfg.maxPayload)
  }

  function TotalAccepted(hist: seq<Hist>): nat {
    if hist == [] then 0 else TotalAccepted(hist[..|hist| - 1]) + |hist[|hist| - 1].accepted|
  }

  /** Water marks and payload limit fit each other and the ring. */
  predicate Tuned(cfg: Config) {
    && HEADER_SIZE <= cfg.high && Limit(cfg.maxPayload) <= cfg.high
    && HEADER_SIZE < cfg.cap && Limit(cfg.maxPayload) < cfg.cap
  }

  /** Nothing more can be parsed from the ring until bytes arrive. */
  predicate Drained(c: Conn, maxPayload: uint32)
    requires c.ring.Live?
  {
    var step := NextOn(c.parser, c.ring.data, Limit(maxPayload));
    step.answer == More && step.dropped == 0
  }

  /** Upstream connections are never paused, and are drained except while being read. */
  ghost predicate QuietOk(s: State) {
    Tuned(s.cfg) ==>
      forall c :: IsLive(s, c) && s.conns[c].role != Down ==>
        && !s.conns[c].paused
        && (c != s.cur ==> Drained(s.conns[c], s.cfg.maxPayload))
  }

  /** k has bytes waiting, or waits to learn how its connect ended. */
  predicate Needs(k: Conn) {
    k.writeRemain != [] || k.role == Connecting
  }

  ghost predicate Woken(s: State, c: int)
    requires 0 <= c < |s.conns|
  {
    s.conns[c].fd in s.interest && (Needs(s.conns[c]) ==> s.interest[s.conns[c].fd].write)
  }

  /** Whoever needs write readiness is registered for it. */
  ghost predicate WakeupOk(s: State) {
    forall c :: Open(s, c) ==> Woken(s, c)
  }

  /** The poller watches the descriptors of the table and no others, and reads of all but connects under way. */
  ghost predicate PollerOk(s: State) {
    && s.interest.Keys == s.tab.Keys
    && forall c :: Open(s, c) && s.conns[c].role != Connecting ==>
         s.conns[c].fd in s.interest && s.interest[s.conns[c].fd].read
  }

  /** Write readiness is registered until a connection that needs it is robbed of it. */
  ghost predicate Wakeful(s: State) {
    PollerOk(s) && (s.clean ==> !s.robbed) && (!s.robbed ==> WakeupOk(s))
  }

  /** c's ring is below the high water mark, and not full. */
  predicate Short(k: Conn, cfg: Config) {
    k.ring.Live? ==> |k.ring.data| < cfg.high && |k.ring.data| < cfg.cap - 1
  }

  /** A frame of k is pending for an upstream that is being connected. */
  predicate Waits(conns: seq<Conn>, k: Conn) {
    k.hasPending && k.peer.Some? && k.peer.value < |conns| && conns[k.peer.value].role == Connecting
  }

  /** Pending and paused only for an upstream being connected; otherwise there is room to read. */
  predicate Restful(conns: seq<Conn>, k: Conn, cfg: Config) {
    (k.paused || k.hasPending ==> Waits(conns, k)) && (!k.paused ==> Short(k, cfg))
  }

  /** Paused with nothing pending, or pending for nobody: nothing will ever resume or send. */
  predicate Stuck(k: Conn) {
    (k.paused && !k.hasPending) || (k.hasPending && k.peer == None)
  }

  /** Runs on which pauses are accounted for: no write has failed for good, no CLOSE, and the marks fit. */
  ghost predicate Watched(s: State) {
    s.clean && !s.closeSeen && Tuned(s.cfg)
  }

  /** Every open client that is not being served is stuck if it is among the stuck, and restful if not. */
  ghost predicate PauseOk(s: State) {
    && (forall c :: c in s.stuck ==> c < |s.conns|)
    && (Watched(s) ==>
          forall c :: Open(s, c) && s.conns[c].role == Down && c != s.cur ==>
            if c in s.stuck then Stuck(s.conns[c]) else Restful(s.conns, s.conns[c], s.cfg))
  }

  ghost predicate Sound(s: State) {
    && TableOk(s) && RingsOk(s) && ActiveOk(s) && PeersOk(s) && PendingOk(s) && QuietOk(s)
    && s.outBytes == TotalAccepted(s.hist) && Wakeful(s) && PauseOk(s)
  }

  // ---- What holds as long as no write has failed for good ----

  function RawOut(out: seq<Sent>): seq<byte> {
    if out == [] then [] else RawOut(out[..|out| - 1]) + Raw(out[|out| - 1].frame)
  }

  /** The frames on a connection that came from u. */
  function FramesFrom(out: seq<Sent>, u: nat): seq<Frame> {
    if out == [] then []
    else
      var last := out[|out| - 1];
      FramesFrom(out[..|out| - 1], u) + (if last.source == From(u) then [last.frame] else [])
  }

  /** The frames taken from a connection that went to d. */
  function FramesTo(consumed: seq<Frame>, dest: seq<Option<nat>>, d: nat): seq<Frame>
    requires |dest| == |consumed|
  {
    if consumed == [] then []
    else
      var n := |consumed| - 1;
      FramesTo(consumed[..n], dest[..n], d) + (if dest[n] == Some(d) then [consumed[n]] else [])
  }

  function PongsOn(out: seq<Sent>): seq<Frame> {
    if out == [] then []
    else
      var last := out[|out| - 1];
      PongsOn(out[..|out| - 1]) + (if last.source == Pong then [last.frame] else [])
  }

  /** A PING with its opcode turned into PONG. */
  function PongFor(f: Frame): Frame {
    Frame(f.hdr.(opcode := OP_PONG), f.payload)
  }

  /** The answers that the PINGs among the frames call for. */
  function PongsDue(consumed: seq<Frame>): seq<Frame> {
    if consumed == [] then []
    else
      var last := consumed[|consumed| - 1];
      PongsDue(consumed[..|consumed| - 1]) + (if last.hdr.opcode == OP_PING then [PongFor(last)] else [])
  }

  /** The input side of one connection. */
  ghost predicate InputOk(c: Conn, h: Hist, maxPayload: uint32) {
    && |h.dest| == |h.consumed|
    && AllValid(h.consumed, Limit(maxPayload)) && RawAll(h.consumed) <= h.received
    && (c.ring.Live? ==> Tracks(h.received, h.consumed, c.parser, c.ring.data, Limit(maxPayload)))
    && (c.role == Down ==>
          forall i :: 0 <= i < |h.dest| && h.dest[i].Some? ==> h.consumed[i].hdr.opcode == OP_DATA)
    && (c.role == Up || c.role == Connecting ==>
          forall i :: 0 <= i < |h.dest| && h.dest[i].Some? ==> h.dest[i] == h.origin)
  }

  /** The output side of one connection: whole valid frames, however the writes were split. */
  ghost predicate OutputOk(c: Conn, h: Hist) {
    && h.accepted + c.writeRemain == RawOut(h.out)
    && (forall i :: 0 <= i < |h.out| ==> h.out[i].frame.Valid(MAX_PAYLOAD_HARD_CAP))
    && (c.role == Up || c.role == Connecting ==>
          && h.origin.Some?
          && forall i :: 0 <= i < |h.out| ==>
             h.out[i].source == From(h.origin.value) && h.out[i].frame.hdr.opcode == OP_DATA)
    && (forall i :: 0 <= i < |h.out| && h.out[i].source == Own ==> h.out[i].frame.hdr.opcode == OP_ERROR)
    && (c.role == Down ==> PongsOn(h.out) == PongsDue(h.consumed))
  }

  /** Only connections made so far are named as sources and destinations. */
  ghost predicate NamesOk(h: Hist, n: nat) {
    && (forall i :: 0 <= i < |h.out| && h.out[i].source.From? ==> h.out[i].source.id < n)
    && (forall i :: 0 <= i < |h.dest| && h.dest[i].Some? ==> h.dest[i].value < n)
  }

  ghost predicate BooksOk(c: Conn, h: Hist, n: nat, maxPayload: uint32) {
    InputOk(c, h, maxPayload) && OutputOk(c, h) && NamesOk(h, n)
  }

  ghost predicate ConnsOk(s: State) {
    && |s.hist| == |s.conns|
    && forall c :: 0 <= c < |s.conns| ==> BooksOk(s.conns[c], s.hist[c], |s.conns|, s.cfg.maxPayload)
  }

  /** Between any two connections, what the one sent towards the other is what arrived there from it. */
  ghost predicate ExchangeOk(hist: seq<Hist>) {
    forall u: nat, d: nat :: u < |hist| && d < |hist| && |hist[u].dest| == |hist[u].consumed| ==>
      FramesFrom(hist[d].out, u) == FramesTo(hist[u].consumed, hist[u].dest, d)
  }

  /** A paired connection is open, and an upstream's peer is the client it was opened for. */
  ghost predicate PairsOk(s: State) {
    && |s.hist| == |s.conns|
    && forall c :: 0 <= c < |s.conns| && s.conns[c].peer.Some? ==>
         && Open(s, c)
         && (s.conns[c].role != Down ==> s.hist[c].origin == s.conns[c].peer)
  }

  predicate IsUpstream(k: Conn) {
    k.role == Up || k.role == Connecting
  }

  /** Frames of whoever is no upstream go to upstreams only. */
  ghost predicate RoutesOk(s: State) {
    && |s.hist| == |s.conns|
    && forall c, d :: 0 <= c < |s.conns| && !IsUpstream(s.conns[c]) && Some(d) in s.hist[c].dest ==>
         d < |s.conns| && IsUpstream(s.conns[d])
  }

  ghost predicate Streams(s: State) {
    ConnsOk(s) && ExchangeOk(s.hist) && PairsOk(s) && RoutesOk(s)
  }

  ghost predicate Good(s: State) {
    Sound(s) && (s.clean ==> Streams(s))
  }

  // ---- How the steps relate states ----

  ghost function With(c: nat, p: Option<nat>): set<nat> {
    if p.Some? then {c, p.value} else {c}
  }

  /** c is the connection b was, but for its waiting bytes and possibly being closed or unpaired. */
  ghost predicate ConnShrinks(b: Conn, c: Conn) {
    && c == b.(ring := c.ring, peer := c.peer, writeRemain := c.writeRemain)
    && (c.ring == b.ring || c.ring == Nil)
    && (c.peer == b.peer || c.peer == None)
  }

  ghost predicate HistKept(b: Hist, h: Hist) {
    h == b.(accepted := h.accepted, out := h.out)
  }

  /** From s to t only connections of xs were written to, closed or unpaired. */
  ghost predicate Shrinks(s: State, t: State, xs: set<nat>) {
    && |t.conns| == |s.conns| == |s.hist| == |t.hist|
    && t.cfg == s.cfg && t.cur == s.cur && t.closeSeen == s.closeSeen && t.panicked == s.panicked
    && (t.clean ==> s.clean) && (s.robbed ==> t.robbed) && (s.choked ==> t.choked)
    && s.stuck <= t.stuck && (s.cur in t.stuck ==> s.cur in s.stuck)
    && (forall fd :: fd in t.tab ==> fd in s.tab && t.tab[fd] == s.tab[fd])
    && (forall fd :: fd in s.tab && fd !in t.tab ==> s.tab[fd] in xs)
    && (forall c :: 0 <= c < |s.conns| ==> ConnShrinks(s.conns[c], t.conns[c]) && HistKept(s.hist[c], t.hist[c]))
    && (forall c :: 0 <= c < |s.conns| && c !in xs ==> t.conns[c] == s.conns[c] && t.hist[c] == s.hist[c])
  }

  /** From s to t the socket of c was handed some bytes, after those already waiting, and nothing else happened. */
  ghost predicate Delivered(s: State, t: State, c: nat, bytes: seq<byte>) {
    && c < |s.conns| == |s.hist| == |t.conns| == |t.hist|
    && t == s.(conns := t.conns, hist := t.hist, interest := t.interest, outBytes := t.outBytes, robbed := t.robbed,
       choked := t.choked)
    && (s.robbed ==> t.robbed) && (s.choked ==> t.choked)
    && t.conns == s.conns[c := s.conns[c].(writeRemain := t.conns[c].writeRemain)]
    && t.hist == s.hist[c := s.hist[c].(accepted := t.hist[c].accepted)]
    && t.hist[c].accepted + t.conns[c].writeRemain == s.hist[c].accepted + s.conns[c].writeRemain + bytes
    && t.interest.Keys == s.interest.Keys
    && (forall fd :: fd in s.interest && fd != s.conns[c].fd ==> t.interest[fd] == s.interest[fd])
    && (s.conns[c].fd in t.interest && t.conns[c].writeRemain != [] ==> t.interest[s.conns[c].fd].write)
  }

  // ---- States after single steps ----

  /** Closing c would leave a client with a frame pending for nobody. */
  predicate Forsakes(s: State, c: nat)
    requires c < |s.conns|
  {
    var k := s.conns[c];
    k.role == Connecting && k.peer.Some? && k.peer.value < |s.conns| && s.conns[k.peer.value].hasPending
      && k.peer.value != s.cur
  }

  /** peer is no longer paired with c, if it was. */
  function Unpaired(conns: seq<Conn>, peer: Option<nat>, c: nat): seq<Conn> {
    match peer
    case Some(p) => if p < |conns| && conns[p].peer == Some(c) then conns[p := conns[p].(peer := None)] else conns
    case None => conns
  }

  /** c has left the table: no peer, no ring, its slot back in the slab, its endpoint counted down. */
  function Unlinked(s: State, c: nat): State
    requires c < |s.conns|
  {
    var k := s.conns[c];
    s.(tab := s.tab - {k.fd},
       interest := s.interest - {k.fd},
       conns := Unpaired(s.conns[c := k.(peer := None, ring := Nil)], k.peer, c),
       stuck := if Forsakes(s, c) then s.stuck + {k.peer.value} else s.stuck,
       slab := if k.ring.Live? then s.slab.AfterPut(k.ring.slot) else s.slab,
       active := if k.ep.Some? && k.role != Connecting
                 then s.active[k.ep.value := ActiveOf(s.active, k.ep.value) - 1] else s.active)
  }

  /** The frame at the head of c's ring was consumed; its destination is noted. */
  function Consumed(s: State, c: nat, d: Option<nat>): (t: State)
    requires c < |s.conns| == |s.hist|
    requires s.conns[c].ring.Live? && |s.conns[c].ring.data| >= s.conns[c].parser.hdr.payloadLen
    ensures |t.conns| == |s.conns| && |t.hist| == |s.hist|
  {
    var k := s.conns[c];
    var h := s.hist[c];
    var n := k.parser.hdr.payloadLen;
    s.(conns := s.conns[c := k.(ring := Live(k.ring.slot, k.ring.data[n..]), parser := ParserState(false, k.parser.hdr),
      hasPending := false)],
       hist := s.hist[c := h.(consumed := h.consumed + [HeadFrame(k.parser, k.ring.data)], dest := h.dest + [d])])
  }

  /** A frame is noted as put on c. */
  function Noted(s: State, c: nat, f: Frame, src: Source): (t: State)
    requires c < |s.hist|
    ensures |t.conns| == |s.conns| && |t.hist| == |s.hist|
  {
    s.(hist := s.hist[c := s.hist[c].(out := s.hist[c].out + [Sent(f, src)])])
  }

  /** Bytes arrived on c. */
  function Received(s: State, c: nat, chunk: seq<byte>): (t: State)
    requires c < |s.conns| == |s.hist| && s.conns[c].ring.Live?
    ensures |t.conns| == |s.conns| && |t.hist| == |s.hist|
  {
    var k := s.conns[c];
    s.(conns := s.conns[c := k.(ring := Live(k.ring.slot, k.ring.data + chunk))],
       hist := s.hist[c := s.hist[c].(received := s.hist[c].received + chunk)])
  }

  /** The parser of c took one Next step. */
  function Parsed1(s: State, c: nat): (t: State)
    requires c < |s.conns| && s.conns[c].ring.Live?
    ensures |t.conns| == |s.conns| && t.hist == s.hist
  {
    var k := s.conns[c];
    var step := NextOn(k.parser, k.ring.data, Limit(s.cfg.maxPayload));
    s.(conns := s.conns[c := k.(ring := Live(k.ring.slot, k.ring.data[step.dropped..]), parser := step.state)])
  }

  /** A connection k has joined the table. */
  function Entered(s: State, k: Conn, origin: Option<nat>): State {
    s.(tab := s.tab[k.fd := |s.conns|],
       interest := s.interest[k.fd := if k.role == Connecting then Interest(false, true) else Interest(true, false)],
       conns := s.conns + [k],
       hist := s.hist + [NO_HIST.(origin := origin)],
       active := if k.ep.Some? && k.role != Connecting
                 then s.active[k.ep.value := ActiveOf(s.active, k.ep.value) + 1] else s.active)
  }

  /** A new connection on a descriptor not in use, with a slot of its own. */
  function Adopted(s: State, fd: int, role: Role, ep: Option<nat>, origin: Option<nat>): (t: State)
    ensures t.choked == s.choked
  {
    Entered(s.(slab := s.slab.AfterGet()),
            Conn(fd, role, Live(s.slab.Next(), []), FRESH, ep, None, ZERO_HEADER, false, [], false), origin)
  }

  /** Client c and the new upstream u are joined, with c's frame pending. */
  function Paired(s: State, c: nat, u: nat, hdr: Header): State
    requires c < |s.conns| && u < |s.conns|
  {
    var conns1 := s.conns[u := s.conns[u].(peer := Some(c))];
    s.(conns := conns1[c := conns1[c].(peer := Some(u), pending := hdr, hasPending := true)])
  }

  /** A connecting upstream is established. */
  function Established(s: State, c: nat): State
    requires c < |s.conns| && s.conns[c].ep.Some?
  {
    var k := s.conns[c];
    s.(conns := s.conns[c := k.(role := Up)],
       interest := if k.fd in s.interest then s.interest[k.fd := Interest(true, true)] else s.interest,
       active := s.active[k.ep.value := ActiveOf(s.active, k.ep.value) + 1])
  }
}
